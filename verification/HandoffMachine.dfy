/** Scheduling and hand-off of tasks by any number of runners (OS threads), one access to a shared
    atomic per step.

    The run queue is the bag of module `QueueBag` (a `get` may answer "empty" without cause) and a
    wait list changes at one compare-exchange, as module `AwaitableMachine` shows.  A context switch
    is "save the old context, install the new one". */
module HandoffMachine {
  import opened Basics

  /** The task of runner `r`'s own stack (thread bound), or a coroutine (unbound). */
  datatype Task = Native(r: nat) | Co(id: nat)

  /** `m_context`: null, the fake value a failed insertion stores, or a context one can jump to. */
  datatype Context = NullContext | FakeContext | Saved

  datatype Kind = Common | Background

  /** Program counters of a runner.  `ending` marks the release made by `_run_wrapper` on behalf of
      a task that has returned. */
  datatype Pc =
    | User                                        // code of the current task
    // Awaitable::wait
    | InsertLoad(a: nat)                          // load m_data
    | InsertState(a: nat)                         // m_state = Waiting
    | InsertContext(a: nat)                       // m_context = nullptr
    | InsertCas(a: nat)                           // compare_exchange_weak on m_data
    | UndoState                                   // m_state = Running
    | UndoContext                                 // m_context = 0x01
    // do_schedule, get_next_task
    | NextNative                                  // read the native task's m_state
    | NextQueue                                   // running_queue_.get_item
    | NextState(next: Option<Task>)               // read the current task's state
    | NoNext                                      // read the state again: Running?
    | Block                                       // read m_state: Waiting? then native_futex.wait()
    // switch_to, post_jump_fcontext
    | Jump(to: Task)                              // jump_fcontext( to->m_context )
    | PostSelf(prev: Task)                        // current_task->m_context = nullptr
    | PostSave(prev: Task)                        // prev_task->m_context = transfer.fctx
    | PostCheck(prev: Task)                       // read prev_task->m_state
    | PostPut(prev: Task)                         // put_item( prev_task )
    // Awaitable::release, add_waiting_list_to_running
    | ReleaseCas(a: nat, ending: bool)            // compare_exchange on m_data
    | Mark(list: seq<Task>, delayed: seq<Task>, ending: bool)                     // m_state = Running
    | ReadContext(task: Task, list: seq<Task>, delayed: seq<Task>, ending: bool)  // m_context == nullptr?
    | Enqueue(task: Task, list: seq<Task>, delayed: seq<Task>, ending: bool)      // put_item( task )
    | Delayed(delayed: seq<Task>, ending: bool)   // wait until the context is not null
    | FinishState                                 // m_state = Finished

  datatype Runner = Runner(kind: Kind, cur: Task, pc: Pc)

  /** `born` are the coroutines created so far, `lists` and `closed` the awaitables.  Two history
      variables: `window` holds the coroutines between their insertion compare-exchange and the state
      check after the jump, and `raced` is set when a release marks one of those Running. */
  datatype State = State(
    runners: seq<Runner>, state: map<Task, TaskState>, context: map<Task, Context>, born: set<Task>,
    queue: multiset<Task>, lists: seq<seq<Task>>, closed: seq<bool>,
    window: set<Task>, raced: bool)

  /** Choices of user code and of the environment. */
  datatype Choice =
    | Go
    | FailSpuriously
    | CallWait(a: nat)
    | CallYield
    | CallRelease(a: nat)
    | CallSpawn(id: nat)
    | Return(a: nat)        // the coroutine's function returns; `a` is its own awaitable
    | Take(v: Task)         // what get_item finds

  function StateOf(s: State, t: Task): TaskState {
    if t in s.state then s.state[t] else Running
  }

  function ContextOf(s: State, t: Task): Context {
    if t in s.context then s.context[t] else NullContext
  }

  function SetState(s: State, t: Task, v: TaskState): State {
    s.(state := s.state[t := v])
  }

  function SetContext(s: State, t: Task, v: Context): State {
    s.(context := s.context[t := v])
  }

  function GoTo(s: State, r: nat, pc: Pc): State
    requires r < |s.runners|
  {
    s.(runners := s.runners[r := s.runners[r].(pc := pc)])
  }

  /** Entry of `get_next_task`. */
  function Schedule(R: Runner): Pc {
    if R.cur.Co? && R.kind == Common then NextNative else NextQueue
  }

  function AfterRelease(ending: bool): Pc {
    if ending then FinishState else User
  }

  /** User code.  `wait` is called only in state Running. */
  function UserStep(s: State, r: nat, ch: Choice): State
    requires r < |s.runners|
  {
    var R := s.runners[r];
    match ch
    case CallWait(a) => if StateOf(s, R.cur) == Running then GoTo(s, r, InsertLoad(a)) else s
    case CallYield => GoTo(s, r, Schedule(R))
    case CallRelease(a) => GoTo(s, r, ReleaseCas(a, false))
    case CallSpawn(id) =>
      if Co(id) in s.born then s
      else GoTo(SetContext(SetState(s.(born := s.born + {Co(id)}), Co(id), Running), Co(id), Saved), r, Jump(Co(id)))
    case Return(a) => if R.cur.Co? then GoTo(s, r, ReleaseCas(a, true)) else s
    case _ => s
  }

  function InsertStep(s: State, r: nat, ch: Choice): State
    requires r < |s.runners|
  {
    var R := s.runners[r];
    match R.pc
    case InsertLoad(a) => GoTo(s, r, if a >= |s.lists| || a >= |s.closed| || s.closed[a] then User else InsertState(a))
    case InsertState(a) => GoTo(SetState(s, R.cur, Waiting), r, InsertContext(a))
    case InsertContext(a) => GoTo(SetContext(s, R.cur, NullContext), r, InsertCas(a))
    case InsertCas(a) =>
      if a >= |s.lists| || a >= |s.closed| || s.closed[a] then GoTo(s, r, UndoState)
      else if ch == FailSpuriously then s
      else
        var entered := if R.cur.Co? then {R.cur} else {};
        var s' := s.(lists := s.lists[a := [R.cur] + s.lists[a]], window := s.window + entered);
        GoTo(s', r, Schedule(R))
    case UndoState => GoTo(SetState(s, R.cur, Running), r, UndoContext)
    case UndoContext => GoTo(SetContext(s, R.cur, FakeContext), r, User)
    case _ => s
  }

  function ScheduleStep(s: State, r: nat, ch: Choice): State
    requires r < |s.runners|
  {
    var R := s.runners[r];
    match R.pc
    case NextNative =>
      GoTo(s, r, if StateOf(s, Native(r)) == Running then NextState(Some(Native(r))) else NextQueue)
    case NextQueue =>
      if ch.Take? && s.queue[ch.v] > 0 then
        GoTo(s.(queue := s.queue - multiset{ch.v}), r, if R.cur.Co? then NextState(Some(ch.v)) else Jump(ch.v))
      else
        GoTo(s, r, if R.cur.Co? then NextState(None) else NoNext)
    case NextState(next) =>
      (match next
       case Some(v) => GoTo(s, r, Jump(v))
       case None =>
         if StateOf(s, R.cur) == Running then GoTo(s, r, NoNext) else GoTo(s, r, Jump(Native(r))))
    case NoNext => GoTo(s, r, if StateOf(s, R.cur) == Running then User else Block)
    case Block => GoTo(s, r, Schedule(R))
    case _ => s
  }

  function JumpStep(s: State, r: nat): State
    requires r < |s.runners|
  {
    var R := s.runners[r];
    match R.pc
    case Jump(to) => s.(runners := s.runners[r := Runner(R.kind, to, PostSelf(R.cur))])
    case PostSelf(prev) => GoTo(SetContext(s, R.cur, NullContext), r, PostSave(prev))
    case PostSave(prev) => GoTo(SetContext(s, prev, Saved), r, PostCheck(prev))
    case PostCheck(prev) =>
      GoTo(s.(window := s.window - {prev}), r,
           if prev.Co? && StateOf(s, prev) == Running then PostPut(prev) else User)
    case PostPut(prev) => GoTo(s.(queue := s.queue + multiset{prev}), r, User)
    case _ => s
  }

  function ReleaseStep(s: State, r: nat, ch: Choice): State
    requires r < |s.runners|
  {
    var R := s.runners[r];
    match R.pc
    case ReleaseCas(a, ending) =>
      if a >= |s.lists| || a >= |s.closed| || s.closed[a] then GoTo(s, r, AfterRelease(ending))
      else if ch == FailSpuriously then s
      else GoTo(s.(lists := s.lists[a := []], closed := s.closed[a := true]), r, Mark(s.lists[a], [], ending))
    case Mark(list, delayed, ending) =>
      if list == [] then GoTo(s, r, Delayed(delayed, ending))
      else
        var t := list[0];
        var s' := SetState(s, t, Running).(raced := s.raced || t in s.window);
        GoTo(s', r, if t.Co? then ReadContext(t, list[1..], delayed, ending) else Mark(list[1..], delayed, ending))
    case ReadContext(t, list, delayed, ending) =>
      GoTo(s, r, if ContextOf(s, t) == NullContext then Mark(list, [t] + delayed, ending)
                 else Enqueue(t, list, delayed, ending))
    case Enqueue(t, list, delayed, ending) =>
      GoTo(s.(queue := s.queue + multiset{t}), r, Mark(list, delayed, ending))
    case Delayed(delayed, ending) =>
      if delayed == [] then GoTo(s, r, AfterRelease(ending))
      else if ContextOf(s, delayed[0]) == NullContext then s
      else GoTo(s, r, Enqueue(delayed[0], [], delayed[1..], ending))
    case FinishState => GoTo(SetState(s, R.cur, Finished), r, Schedule(R))
    case _ => s
  }

  predicate Inserting(pc: Pc) {
    pc.InsertLoad? || pc.InsertState? || pc.InsertContext? || pc.InsertCas? || pc.UndoState? || pc.UndoContext?
  }

  predicate Scheduling(pc: Pc) {
    pc.NextNative? || pc.NextQueue? || pc.NextState? || pc.NoNext? || pc.Block?
  }

  predicate Switching(pc: Pc) {
    pc.Jump? || pc.PostSelf? || pc.PostSave? || pc.PostCheck? || pc.PostPut?
  }

  /** One step of runner `r`.  A choice that does not apply leaves the state as it is. */
  function Step(s: State, r: nat, ch: Choice): State {
    if r >= |s.runners| then s
    else
      var pc := s.runners[r].pc;
      if pc.User? then UserStep(s, r, ch)
      else if Inserting(pc) then InsertStep(s, r, ch)
      else if Scheduling(pc) then ScheduleStep(s, r, ch)
      else if Switching(pc) then JumpStep(s, r)
      else ReleaseStep(s, r, ch)
  }

  /** Every runner executes its own native task, no coroutine exists, nothing is queued. */
  function Init(kinds: seq<Kind>, awaitables: nat): State {
    State(seq(|kinds|, r requires 0 <= r < |kinds| => Runner(kinds[r], Native(r), User)), map[], map[], {}, multiset{},
          seq(awaitables, _ => []), seq(awaitables, _ => false), {}, false)
  }

  datatype Turn = Turn(r: nat, ch: Choice)

  function Run(s: State, turns: seq<Turn>): State
    decreases |turns|
  {
    if turns == [] then s else Run(Step(s, turns[0].r, turns[0].ch), turns[1..])
  }
}
