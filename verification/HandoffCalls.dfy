/** What each call of the hand-off machine does when no other runner steps in: state by state, from the first
    access to the last. */
module HandoffCalls {
  import opened Basics
  import opened HandoffMachine

  ghost predicate StepAt(path: seq<State>, i: int, r: nat, ch: Choice) {
    0 < i < |path| && path[i] == Step(path[i - 1], r, ch)
  }

  /** The states of runner `r`'s turns, all with the choice `ch`. */
  ghost predicate Steps(path: seq<State>, r: nat, ch: Choice) {
    |path| > 0 && forall i {:trigger StepAt(path, i, r, ch)} :: 0 < i < |path| ==> StepAt(path, i, r, ch)
  }

  /** Turns of runner `r` alone, all with the choice `ch`, lead from `s` to `t`. */
  ghost predicate Leads(s: State, r: nat, ch: Choice, t: State) {
    exists path :: Steps(path, r, ch) && path[0] == s && path[|path| - 1] == t
  }

  lemma Begins(s: State, r: nat, ch: Choice)
    ensures Leads(s, r, ch, s)
  {
    assert Steps([s], r, ch);
  }

  lemma Goes(s: State, r: nat, ch: Choice, t: State, t': State)
    requires Leads(s, r, ch, t) && Step(t, r, ch) == t'
    ensures Leads(s, r, ch, t')
  {
    var path :| Steps(path, r, ch) && path[0] == s && path[|path| - 1] == t;
    var more := path + [t'];
    forall i {:trigger StepAt(more, i, r, ch)} | 0 < i < |more|
      ensures StepAt(more, i, r, ch)
    {
      assert i < |path| ==> StepAt(path, i, r, ch);
    }
    assert Steps(more, r, ch);
  }

  lemma Schedules(s: State, r: nat, ch: Choice, t: State, t': State)
    requires Leads(s, r, ch, t) && r < |t.runners| && Scheduling(t.runners[r].pc) && ScheduleStep(t, r, ch) == t'
    ensures Leads(s, r, ch, t')
  {
    assert Step(t, r, ch) == ScheduleStep(t, r, ch);
    Goes(s, r, ch, t, t');
  }

  lemma Switches(s: State, r: nat, ch: Choice, t: State, t': State)
    requires Leads(s, r, ch, t) && r < |t.runners| && Switching(t.runners[r].pc) && JumpStep(t, r) == t'
    ensures Leads(s, r, ch, t')
  {
    assert Step(t, r, ch) == JumpStep(t, r);
    Goes(s, r, ch, t, t');
  }

  lemma Inserts(s: State, r: nat, ch: Choice, t: State, t': State)
    requires Leads(s, r, ch, t) && r < |t.runners| && Inserting(t.runners[r].pc) && InsertStep(t, r, ch) == t'
    ensures Leads(s, r, ch, t')
  {
    assert Step(t, r, ch) == InsertStep(t, r, ch);
    Goes(s, r, ch, t, t');
  }

  predicate Releasing(pc: Pc) {
    pc.ReleaseCas? || pc.Mark? || pc.ReadContext? || pc.Enqueue? || pc.Delayed? || pc.FinishState?
  }

  lemma Releases(s: State, r: nat, ch: Choice, t: State, t': State)
    requires Leads(s, r, ch, t) && r < |t.runners| && Releasing(t.runners[r].pc) && ReleaseStep(t, r, ch) == t'
    ensures Leads(s, r, ch, t')
  {
    assert Step(t, r, ch) == ReleaseStep(t, r, ch);
    Goes(s, r, ch, t, t');
  }

  predicate Open(s: State, a: nat) {
    a < |s.lists| && a < |s.closed| && !s.closed[a]
  }

  /** New states, a new queue and a new program counter for runner `r`. */
  function Put(s: State, r: nat, state: map<Task, TaskState>, queue: multiset<Task>, raced: bool, pc: Pc): State
    requires r < |s.runners|
  {
    GoTo(s.(state := state, queue := queue, raced := raced), r, pc)
  }

  lemma PutTwice(s: State, r: nat, state: map<Task, TaskState>, queue: multiset<Task>, raced: bool, pc: Pc,
                 state': map<Task, TaskState>, queue': multiset<Task>, raced': bool, pc': Pc)
    requires r < |s.runners|
    ensures Put(Put(s, r, state, queue, raced, pc), r, state', queue', raced', pc') ==
      Put(s, r, state', queue', raced', pc')
  {
    var s1 := Put(s, r, state, queue, raced, pc);
    assert s1.runners[r := s1.runners[r].(pc := pc')] == s.runners[r := s.runners[r].(pc := pc')];
  }

  // ---- wait

  lemma BeginsWait(s: State, r: nat, t: State, a: nat)
    requires Leads(s, r, Go, t) && r < |t.runners| && t.runners[r].pc == InsertLoad(a) && Open(t, a)
    ensures Leads(s, r, Go, GoTo(SetState(t, t.runners[r].cur, Waiting), r, InsertContext(a)))
  {
    Inserts(s, r, Go, t, GoTo(t, r, InsertState(a)));
    Inserts(s, r, Go, GoTo(t, r, InsertState(a)), GoTo(SetState(t, t.runners[r].cur, Waiting), r, InsertContext(a)));
  }

  lemma EndsWait(s: State, r: nat, t: State, a: nat)
    requires Leads(s, r, Go, t) && r < |t.runners| && t.runners[r].pc == InsertContext(a) && Open(t, a)
    ensures var cur := t.runners[r].cur;
      Leads(s, r, Go, GoTo(SetContext(t, cur, NullContext).(lists := t.lists[a := [cur] + t.lists[a]],
          window := t.window + if cur.Co? then {cur} else {}), r, Schedule(t.runners[r])))
  {
    var cur := t.runners[r].cur;
    var t1 := GoTo(SetContext(t, cur, NullContext), r, InsertCas(a));
    assert t1.runners[r := t1.runners[r].(pc := Schedule(t.runners[r]))] ==
      t.runners[r := t.runners[r].(pc := Schedule(t.runners[r]))];
    Inserts(s, r, Go, t, t1);
    Inserts(s, r, Go, t1, GoTo(SetContext(t, cur, NullContext).(lists := t.lists[a := [cur] + t.lists[a]],
        window := t.window + if cur.Co? then {cur} else {}), r, Schedule(t.runners[r])));
  }

  /** The state after an insertion: the task is Waiting, has no context, is in front of the list, and its
      runner schedules. */
  function Inserted(s: State, r: nat, a: nat): State
    requires r < |s.runners| && Open(s, a)
  {
    var cur := s.runners[r].cur;
    GoTo(s.(state := s.state[cur := Waiting], context := s.context[cur := NullContext],
            lists := s.lists[a := [cur] + s.lists[a]], window := s.window + if cur.Co? then {cur} else {}),
         r, Schedule(s.runners[r]))
  }

  /** `wait`: on an open awaitable the task is inserted; on a closed one nothing happens. */
  lemma WaitAlone(s: State, r: nat, a: nat)
    requires r < |s.runners| && s.runners[r].pc == User && StateOf(s, s.runners[r].cur) == Running
    ensures Open(s, a) ==> Leads(Step(s, r, CallWait(a)), r, Go, Inserted(s, r, a))
    ensures !Open(s, a) ==> Leads(Step(s, r, CallWait(a)), r, Go, s)
  {
    var s1 := GoTo(s, r, InsertLoad(a));
    assert s1 == Step(s, r, CallWait(a));
    Begins(s1, r, Go);
    if Open(s, a) {
      BeginsWait(s1, r, s1, a);
      var s3 := GoTo(SetState(s1, s.runners[r].cur, Waiting), r, InsertContext(a));
      EndsWait(s1, r, s3, a);
      assert s3.runners[r := s3.runners[r].(pc := Schedule(s.runners[r]))] ==
        s.runners[r := s.runners[r].(pc := Schedule(s.runners[r]))];
    } else {
      assert s.runners[r].(pc := User) == s.runners[r];
      Inserts(s1, r, Go, s1, s);
    }
  }

  /** A compare-exchange that fails without cause is repeated; one that fails because a release came first
      ends the insertion: the task is Running again, with the fake context, in no list. */
  lemma WaitRefused(s: State, r: nat, a: nat)
    requires r < |s.runners| && s.runners[r].pc == InsertCas(a)
    ensures Open(s, a) ==> Step(s, r, FailSpuriously) == s
    ensures !Open(s, a) ==>
      Leads(s, r, Go, GoTo(SetContext(SetState(s, s.runners[r].cur, Running), s.runners[r].cur, FakeContext), r, User))
  {
    var s2 := GoTo(SetState(s, s.runners[r].cur, Running), r, UndoContext);
    if !Open(s, a) {
      Begins(s, r, Go);
      Inserts(s, r, Go, s, GoTo(s, r, UndoState));
      Inserts(s, r, Go, GoTo(s, r, UndoState), s2);
      Inserts(s, r, Go, s2, GoTo(SetContext(s2, s.runners[r].cur, FakeContext), r, User));
    }
  }

  // ---- schedule

  /** The task `schedule` goes on to, if any: for a coroutine on an ordinary thread the native task, if that is
      Running; or else what the queue answers; or else, for a coroutine that is not Running, the native task. */
  function Chosen(s: State, r: nat, answer: Option<Task>): Option<Task>
    requires r < |s.runners|
  {
    var cur, native := s.runners[r].cur, Native(r);
    if cur.Co? && s.runners[r].kind == Common && StateOf(s, native) == Running then Some(native)
    else if answer.Some? then answer
    else if cur.Co? && StateOf(s, cur) != Running then Some(native)
    else None
  }

  /** The queue is asked unless the native task of an ordinary thread runs. */
  predicate Asks(s: State, r: nat)
    requires r < |s.runners|
  {
    s.runners[r].cur.Native? || s.runners[r].kind == Background || StateOf(s, Native(r)) != Running
  }

  /** What `schedule` comes to: a jump to the chosen task; or back to the task's own code, if it is Running; or
      the futex, for a native task. */
  function End(s: State, r: nat, answer: Option<Task>): Pc
    requires r < |s.runners|
  {
    match Chosen(s, r, answer)
    case Some(v) => Jump(v)
    case None => if StateOf(s, s.runners[r].cur) == Running then User else Block
  }

  function Rest(s: State, r: nat, answer: Option<Task>): multiset<Task>
    requires r < |s.runners|
  {
    if answer.Some? && Asks(s, r) then s.queue - multiset{answer.value} else s.queue
  }

  function Outcome(s: State, r: nat, answer: Option<Task>): State
    requires r < |s.runners|
  {
    GoTo(s.(queue := Rest(s, r, answer)), r, End(s, r, answer))
  }

  /** What the choice makes the queue answer. */
  function AnswerOf(s: State, ch: Choice): Option<Task> {
    if ch.Take? && s.queue[ch.v] > 0 then Some(ch.v) else None
  }

  /** From the look at the queue on ... */
  lemma AsksQueue(s: State, r: nat, ch: Choice, t: State)
    requires Leads(s, r, ch, t) && r < |t.runners| && t.runners[r].pc == NextQueue && Asks(t, r)
    ensures Leads(s, r, ch, Outcome(t, r, AnswerOf(t, ch)))
  {
    if t.runners[r].cur.Native? {
      NativeAsks(s, r, ch, t);
    } else {
      var answer := AnswerOf(t, ch);
      var t1 := GoTo(if answer.Some? then t.(queue := t.queue - multiset{answer.value}) else t, r, NextState(answer));
      Schedules(s, r, ch, t, t1);
      EndsSearch(s, r, ch, t1);
    }
  }

  lemma NativeAsks(s: State, r: nat, ch: Choice, t: State)
    requires Leads(s, r, ch, t) && r < |t.runners| && t.runners[r].pc == NextQueue && t.runners[r].cur.Native?
    ensures Leads(s, r, ch, Outcome(t, r, AnswerOf(t, ch)))
  {
    if AnswerOf(t, ch).Some? {
      Schedules(s, r, ch, t, Outcome(t, r, AnswerOf(t, ch)));
    } else {
      Schedules(s, r, ch, t, GoTo(t, r, NoNext));
      Schedules(s, r, ch, GoTo(t, r, NoNext), Outcome(t, r, None));
    }
  }

  /** A coroutine with what the search has brought. */
  lemma EndsSearch(s: State, r: nat, ch: Choice, t: State)
    requires Leads(s, r, ch, t) && r < |t.runners| && t.runners[r].pc.NextState? && t.runners[r].cur.Co?
    ensures var next, running := t.runners[r].pc.next, StateOf(t, t.runners[r].cur) == Running;
      Leads(s, r, ch, GoTo(t, r, if next.Some? then Jump(next.value) else if running then User else Jump(Native(r))))
  {
    var next := t.runners[r].pc.next;
    if next.None? && StateOf(t, t.runners[r].cur) == Running {
      RunsOn(s, r, ch, t);
    } else {
      Schedules(s, r, ch, t, GoTo(t, r, Jump(if next.Some? then next.value else Native(r))));
    }
  }

  lemma RunsOn(s: State, r: nat, ch: Choice, t: State)
    requires Leads(s, r, ch, t) && r < |t.runners| && t.runners[r].pc == NextState(None)
    requires StateOf(t, t.runners[r].cur) == Running
    ensures Leads(s, r, ch, GoTo(t, r, User))
  {
    Schedules(s, r, ch, t, GoTo(t, r, NoNext));
    Schedules(s, r, ch, GoTo(t, r, NoNext), GoTo(t, r, User));
  }

  lemma SameEnd(s: State, r: nat, answer: Option<Task>)
    requires r < |s.runners|
    ensures End(GoTo(s, r, NextQueue), r, answer) == End(s, r, answer)
    ensures Rest(GoTo(s, r, NextQueue), r, answer) == Rest(s, r, answer)
  {
  }

  lemma GoesTwice(s: State, r: nat, pc: Pc, pc': Pc, queue: multiset<Task>)
    requires r < |s.runners|
    ensures GoTo(GoTo(s, r, pc).(queue := queue), r, pc') == GoTo(s.(queue := queue), r, pc')
  {
    var s1 := GoTo(s, r, pc);
    assert s1.runners[r := s1.runners[r].(pc := pc')] == s.runners[r := s.runners[r].(pc := pc')];
  }

  lemma SameOutcome(s: State, r: nat, answer: Option<Task>)
    requires r < |s.runners|
    ensures Outcome(GoTo(s, r, NextQueue), r, answer) == Outcome(s, r, answer)
  {
    SameEnd(s, r, answer);
    GoesTwice(s, r, NextQueue, End(s, r, answer), Rest(s, r, answer));
  }

  lemma NativeRuns(s: State, r: nat, ch: Choice)
    requires r < |s.runners| && s.runners[r].pc == NextNative && s.runners[r].cur.Co?
    requires StateOf(s, Native(r)) == Running
    ensures Leads(s, r, ch, GoTo(s, r, Jump(Native(r))))
  {
    var s1 := GoTo(s, r, NextState(Some(Native(r))));
    Begins(s, r, ch);
    Schedules(s, r, ch, s, s1);
    Schedules(s, r, ch, s1, GoTo(s, r, Jump(Native(r))));
  }

  lemma NativeWaits(s: State, r: nat, ch: Choice)
    requires r < |s.runners| && s.runners[r].pc == NextNative && StateOf(s, Native(r)) != Running
    ensures Leads(s, r, ch, GoTo(s, r, NextQueue))
  {
    Begins(s, r, ch);
    Schedules(s, r, ch, s, GoTo(s, r, NextQueue));
  }

  /** ... and from the call on. */
  lemma ScheduleAlone(s: State, r: nat, ch: Choice)
    requires r < |s.runners| && s.runners[r].pc == Schedule(s.runners[r])
    ensures Leads(s, r, ch, Outcome(s, r, AnswerOf(s, ch)))
  {
    if s.runners[r].pc == NextQueue {
      Begins(s, r, ch);
      AsksQueue(s, r, ch, s);
    } else if StateOf(s, Native(r)) == Running {
      NativeRuns(s, r, ch);
    } else {
      NativeWaits(s, r, ch);
      AsksQueue(s, r, ch, GoTo(s, r, NextQueue));
      SameOutcome(s, r, AnswerOf(s, ch));
    }
  }

  /** A native task that comes back from the futex looks again. */
  lemma BlockRepeats(s: State, r: nat, ch: Choice)
    requires r < |s.runners| && s.runners[r].pc == Block
    ensures Step(s, r, ch) == GoTo(s, r, Schedule(s.runners[r]))
  {
  }

  // ---- a switch

  /** What is put into the queue when a task is left. */
  function Requeued(s: State, from: Task): multiset<Task> {
    if from.Co? && StateOf(s, from) == Running then multiset{from} else multiset{}
  }

  /** The state after a switch: the new task is current and has no context any more, the old one has one, and is
      queued if it is a coroutine that goes on running. */
  function Switched(s: State, r: nat, to: Task): State
    requires r < |s.runners|
  {
    var from := s.runners[r].cur;
    s.(runners := s.runners[r := Runner(s.runners[r].kind, to, User)],
       context := s.context[to := NullContext][from := Saved],
       window := s.window - {from},
       queue := s.queue + Requeued(s, from))
  }

  /** The state with the new task current and both contexts written. */
  function Arrived(s: State, r: nat, to: Task): State
    requires r < |s.runners|
  {
    var from := s.runners[r].cur;
    s.(runners := s.runners[r := Runner(s.runners[r].kind, to, PostCheck(from))],
       context := s.context[to := NullContext][from := Saved])
  }

  lemma JumpAlone(s: State, r: nat)
    requires r < |s.runners| && s.runners[r].pc.Jump?
    ensures Leads(s, r, Go, Arrived(s, r, s.runners[r].pc.to))
  {
    var from, to, kind := s.runners[r].cur, s.runners[r].pc.to, s.runners[r].kind;
    var s1 := s.(runners := s.runners[r := Runner(kind, to, PostSelf(from))]);
    var s2 := s.(runners := s.runners[r := Runner(kind, to, PostSave(from))], context := s.context[to := NullContext]);
    Begins(s, r, Go);
    Switches(s, r, Go, s, s1);
    Switches(s, r, Go, s1, s2);
    Switches(s, r, Go, s2, Arrived(s, r, to));
  }

  lemma LeaveAlone(s: State, r: nat, t: State)
    requires Leads(s, r, Go, t) && r < |t.runners| && t.runners[r].pc.PostCheck?
    ensures var from := t.runners[r].pc.prev;
      Leads(s, r, Go, GoTo(t.(window := t.window - {from}, queue := t.queue + Requeued(t, from)), r, User))
  {
    var from := t.runners[r].pc.prev;
    var t1 := t.(window := t.window - {from});
    if from.Co? && StateOf(t, from) == Running {
      Switches(s, r, Go, t, GoTo(t1, r, PostPut(from)));
      Switches(s, r, Go, GoTo(t1, r, PostPut(from)), GoTo(t1.(queue := t.queue + multiset{from}), r, User));
    } else {
      Switches(s, r, Go, t, GoTo(t1, r, User));
      assert t.queue + multiset{} == t.queue;
    }
  }

  lemma SwitchAlone(s: State, r: nat)
    requires r < |s.runners| && s.runners[r].pc.Jump?
    ensures Leads(s, r, Go, Switched(s, r, s.runners[r].pc.to))
  {
    var t := Arrived(s, r, s.runners[r].pc.to);
    JumpAlone(s, r);
    LeaveAlone(s, r, t);
    assert t.runners[r := t.runners[r].(pc := User)] ==
      s.runners[r := Runner(s.runners[r].kind, s.runners[r].pc.to, User)];
  }

  // ---- a release

  function AllRunning(state: map<Task, TaskState>, list: seq<Task>): map<Task, TaskState>
    decreases |list|
  {
    if list == [] then state else AllRunning(state[list[0] := Running], list[1..])
  }

  /** A coroutine that can be queued at once, since it has a context, and one that cannot. */
  predicate IsReady(s: State, t: Task) {
    t.Co? && ContextOf(s, t) != NullContext
  }

  predicate IsAside(s: State, t: Task) {
    t.Co? && ContextOf(s, t) == NullContext
  }

  function Ready(s: State, list: seq<Task>): multiset<Task> {
    if list == [] then multiset{}
    else (if IsReady(s, list[0]) then multiset{list[0]} else multiset{}) + Ready(s, list[1..])
  }

  /** The last one first. */
  function Aside(s: State, list: seq<Task>): seq<Task> {
    if list == [] then []
    else Aside(s, list[1..]) + if IsAside(s, list[0]) then [list[0]] else []
  }

  /** Runner `r` is in the walk over a list. */
  ghost predicate Walks(s: State, r: nat, list: seq<Task>, delayed: seq<Task>, ending: bool) {
    r < |s.runners| && s.runners[r].pc == Mark(list, delayed, ending)
  }

  /** The state after one round of it, and after all rounds. */
  function Round(s: State, r: nat, list: seq<Task>, delayed: seq<Task>, ending: bool): State
    requires r < |s.runners| && list != []
  {
    var t := list[0];
    Put(s, r, s.state[t := Running], s.queue + if IsReady(s, t) then multiset{t} else multiset{},
        s.raced || t in s.window, Mark(list[1..], if IsAside(s, t) then [t] + delayed else delayed, ending))
  }

  function Walked(s: State, r: nat, list: seq<Task>, delayed: seq<Task>, ending: bool): State
    requires r < |s.runners|
  {
    Put(s, r, AllRunning(s.state, list), s.queue + Ready(s, list), s.raced || exists t :: t in list && t in s.window,
        Delayed(Aside(s, list) + delayed, ending))
  }

  lemma MarkTurn(from: State, r: nat, s: State, list: seq<Task>, delayed: seq<Task>, ending: bool)
    requires Leads(from, r, Go, s) && Walks(s, r, list, delayed, ending) && list != []
    ensures var t := list[0];
      Leads(from, r, Go, Put(s, r, s.state[t := Running], s.queue, s.raced || t in s.window,
          if t.Co? then ReadContext(t, list[1..], delayed, ending) else Mark(list[1..], delayed, ending)))
  {
    var t := list[0];
    Releases(from, r, Go, s, Put(s, r, s.state[t := Running], s.queue, s.raced || t in s.window,
        if t.Co? then ReadContext(t, list[1..], delayed, ending) else Mark(list[1..], delayed, ending)));
  }

  lemma EnqueueTurn(from: State, r: nat, s: State)
    requires Leads(from, r, Go, s) && r < |s.runners| && s.runners[r].pc.Enqueue?
    ensures var pc := s.runners[r].pc;
      Leads(from, r, Go, Put(s, r, s.state, s.queue + multiset{pc.task}, s.raced, Mark(pc.list, pc.delayed, pc.ending)))
  {
    var pc := s.runners[r].pc;
    Releases(from, r, Go, s,
        Put(s, r, s.state, s.queue + multiset{pc.task}, s.raced, Mark(pc.list, pc.delayed, pc.ending)));
  }

  lemma ReadTurn(from: State, r: nat, s: State)
    requires Leads(from, r, Go, s) && r < |s.runners| && s.runners[r].pc.ReadContext?
    ensures var pc := s.runners[r].pc;
      Leads(from, r, Go, Put(s, r, s.state, s.queue, s.raced,
          if ContextOf(s, pc.task) == NullContext then Mark(pc.list, [pc.task] + pc.delayed, pc.ending)
          else Enqueue(pc.task, pc.list, pc.delayed, pc.ending)))
  {
    var pc := s.runners[r].pc;
    Releases(from, r, Go, s, Put(s, r, s.state, s.queue, s.raced,
        if ContextOf(s, pc.task) == NullContext then Mark(pc.list, [pc.task] + pc.delayed, pc.ending)
        else Enqueue(pc.task, pc.list, pc.delayed, pc.ending)));
  }

  lemma RoundAlone(from: State, r: nat, s: State, list: seq<Task>, delayed: seq<Task>, ending: bool)
    requires Leads(from, r, Go, s) && Walks(s, r, list, delayed, ending) && list != []
    ensures Leads(from, r, Go, Round(s, r, list, delayed, ending))
  {
    var t := list[0];
    var state, raced := s.state[t := Running], s.raced || t in s.window;
    assert s.queue + multiset{} == s.queue;
    MarkTurn(from, r, s, list, delayed, ending);
    if t.Co? {
      var pc1 := ReadContext(t, list[1..], delayed, ending);
      ReadTurn(from, r, Put(s, r, state, s.queue, raced, pc1));
      if ContextOf(s, t) == NullContext {
        PutTwice(s, r, state, s.queue, raced, pc1, state, s.queue, raced, Mark(list[1..], [t] + delayed, ending));
      } else {
        var pc2 := Enqueue(t, list[1..], delayed, ending);
        PutTwice(s, r, state, s.queue, raced, pc1, state, s.queue, raced, pc2);
        EnqueueTurn(from, r, Put(s, r, state, s.queue, raced, pc2));
        PutTwice(s, r, state, s.queue, raced, pc2, state, s.queue + multiset{t}, raced,
            Mark(list[1..], delayed, ending));
      }
    }
  }

  lemma {:induction false} WalkAlone(from: State, r: nat, s: State, list: seq<Task>, delayed: seq<Task>, ending: bool)
    requires Leads(from, r, Go, s) && Walks(s, r, list, delayed, ending)
    ensures Leads(from, r, Go, Walked(s, r, list, delayed, ending))
    decreases |list|
  {
    if list == [] {
      assert s.queue + multiset{} == s.queue && [] + delayed == delayed;
      WalkEnds(from, r, s, delayed, ending);
    } else {
      RoundAlone(from, r, s, list, delayed, ending);
      var s1 := Round(s, r, list, delayed, ending);
      WalkAlone(from, r, s1, list[1..], s1.runners[r].pc.delayed, ending);
      RoundThenRest(s, r, list, delayed, ending);
    }
  }

  lemma {:induction false} SameContexts(s: State, s': State, list: seq<Task>)
    requires s.context == s'.context
    ensures Ready(s, list) == Ready(s', list) && Aside(s, list) == Aside(s', list)
    decreases |list|
  {
    if list != [] {
      SameContexts(s, s', list[1..]);
    }
  }

  lemma {:induction false} RoundThenRest(s: State, r: nat, list: seq<Task>, delayed: seq<Task>, ending: bool)
    requires Walks(s, r, list, delayed, ending) && list != []
    ensures var s1 := Round(s, r, list, delayed, ending);
      Walked(s1, r, list[1..], s1.runners[r].pc.delayed, ending) == Walked(s, r, list, delayed, ending)
  {
    var t, s1, rest := list[0], Round(s, r, list, delayed, ending), list[1..];
    var d1 := s1.runners[r].pc.delayed;
    SameContexts(s, s1, rest);
    RestAdds(s, s1.queue, list, delayed, d1);
    WindowOf(list, s.window);
    PutTwice(s, r, s1.state, s1.queue, s1.raced, s1.runners[r].pc, AllRunning(s.state, list), s.queue + Ready(s, list),
        s.raced || exists u :: u in list && u in s.window, Delayed(Aside(s, list) + delayed, ending));
  }

  lemma WindowOf(list: seq<Task>, window: set<Task>)
    requires list != []
    ensures (exists u :: u in list && u in window) <==> list[0] in window || exists u :: u in list[1..] && u in window
  {
    assert list == [list[0]] + list[1..];
  }

  lemma {:induction false} RestAdds(s: State, queue: multiset<Task>, list: seq<Task>, delayed: seq<Task>, d1: seq<Task>)
    requires list != [] && d1 == if IsAside(s, list[0]) then [list[0]] + delayed else delayed
    requires queue == s.queue + if IsReady(s, list[0]) then multiset{list[0]} else multiset{}
    ensures Aside(s, list[1..]) + d1 == Aside(s, list) + delayed
    ensures queue + Ready(s, list[1..]) == s.queue + Ready(s, list)
  {
  }

  /** A task put aside is queued as soon as it has a context, and not before. */
  lemma DelayedAlone(s: State, r: nat, delayed: seq<Task>, ending: bool)
    requires r < |s.runners| && s.runners[r].pc == Delayed(delayed, ending) && delayed != []
    ensures ContextOf(s, delayed[0]) == NullContext ==> Step(s, r, Go) == s
    ensures ContextOf(s, delayed[0]) != NullContext ==>
      Leads(s, r, Go, Put(s, r, s.state, s.queue + multiset{delayed[0]}, s.raced, Delayed(delayed[1..], ending)))
  {
    if ContextOf(s, delayed[0]) != NullContext {
      var queue, rest := s.queue + multiset{delayed[0]}, delayed[1..];
      var pc1, pc2 := Enqueue(delayed[0], [], rest, ending), Mark([], rest, ending);
      Begins(s, r, Go);
      Releases(s, r, Go, s, GoTo(s, r, pc1));
      EnqueueTurn(s, r, GoTo(s, r, pc1));
      PutTwice(s, r, s.state, s.queue, s.raced, pc1, s.state, queue, s.raced, pc2);
      WalkEnds(s, r, Put(s, r, s.state, queue, s.raced, pc2), rest, ending);
      PutTwice(s, r, s.state, queue, s.raced, pc2, s.state, queue, s.raced, Delayed(rest, ending));
    }
  }

  lemma WalkEnds(from: State, r: nat, s: State, delayed: seq<Task>, ending: bool)
    requires Leads(from, r, Go, s) && Walks(s, r, [], delayed, ending)
    ensures Leads(from, r, Go, Put(s, r, s.state, s.queue, s.raced, Delayed(delayed, ending)))
  {
    Releases(from, r, Go, s, Put(s, r, s.state, s.queue, s.raced, Delayed(delayed, ending)));
  }

  /** `release` of an open awaitable: it is closed, its list detached, every task of the list Running, the
      coroutines among them queued that have a context, and the others kept aside; of a closed one: nothing. */
  lemma ReleaseAlone(s: State, r: nat, a: nat, ending: bool)
    requires r < |s.runners| && s.runners[r].pc == ReleaseCas(a, ending)
    ensures Step(s, r, FailSpuriously) == if Open(s, a) then s else Step(s, r, Go)
    ensures Open(s, a) ==>
      Leads(s, r, Go, Walked(s.(lists := s.lists[a := []], closed := s.closed[a := true]), r, s.lists[a], [], ending))
    ensures !Open(s, a) ==> Step(s, r, Go) == GoTo(s, r, AfterRelease(ending))
  {
    if Open(s, a) {
      var s0 := s.(lists := s.lists[a := []], closed := s.closed[a := true]);
      var s1 := GoTo(s0, r, Mark(s.lists[a], [], ending));
      Begins(s, r, Go);
      Releases(s, r, Go, s, s1);
      WalkAlone(s, r, s1, s.lists[a], [], ending);
      WalkFrom(s0, r, s.lists[a], ending);
    }
  }

  lemma {:induction false} WalkFrom(s: State, r: nat, list: seq<Task>, ending: bool)
    requires r < |s.runners|
    ensures Walked(GoTo(s, r, Mark(list, [], ending)), r, list, [], ending) == Walked(s, r, list, [], ending)
  {
    SameContexts(s, GoTo(s, r, Mark(list, [], ending)), list);
    PutTwice(s, r, s.state, s.queue, s.raced, Mark(list, [], ending), AllRunning(s.state, list),
        s.queue + Ready(s, list),
        s.raced || exists u :: u in list && u in s.window, Delayed(Aside(s, list) + [], ending));
  }

  /** The end of a release, and the end of a coroutine: when nobody is left aside, the caller goes on; if the
      release was that of a coroutine which has returned, the coroutine is finished and schedules. */
  lemma ReleaseEnds(s: State, r: nat, ending: bool)
    requires r < |s.runners| && s.runners[r].pc == Delayed([], ending)
    ensures !ending ==> Step(s, r, Go) == GoTo(s, r, User)
    ensures ending ==>
      Step(Step(s, r, Go), r, Go) == GoTo(SetState(s, s.runners[r].cur, Finished), r, Schedule(s.runners[r]))
  {
    if ending {
      var s1 := GoTo(s, r, FinishState);
      assert Step(s, r, Go) == s1;
      assert s1.runners[r := s1.runners[r].(pc := Schedule(s.runners[r]))] ==
        s.runners[r := s.runners[r].(pc := Schedule(s.runners[r]))];
    }
  }

  /** How calls of user code begin. */
  lemma CallsBegin(s: State, r: nat, a: nat, id: nat)
    requires r < |s.runners| && s.runners[r].pc == User
    ensures Step(s, r, CallYield) == GoTo(s, r, Schedule(s.runners[r]))
    ensures Step(s, r, CallRelease(a)) == GoTo(s, r, ReleaseCas(a, false))
    ensures s.runners[r].cur.Co? ==> Step(s, r, Return(a)) == GoTo(s, r, ReleaseCas(a, true))
    ensures Co(id) !in s.born ==>
      var s' := Step(s, r, CallSpawn(id));
      && s'.born == s.born + {Co(id)} && StateOf(s', Co(id)) == Running && ContextOf(s', Co(id)) == Saved
      && s'.runners == s.runners[r := s.runners[r].(pc := Jump(Co(id)))]
      && s'.(runners := s.runners, born := s.born, state := s.state, context := s.context) == s
  {
  }
}
