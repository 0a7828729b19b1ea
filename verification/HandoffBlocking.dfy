/** Who may block on the futex and when a `wait` returns too early: the hand-off machine, where a task may
    be executed by several runners, answers what `ScheduleLoop` takes for granted. */
module HandoffBlocking {
  import opened Basics
  import opened HandoffMachine
  import opened HandoffInvariant
  import opened HandoffTheorems

  // ---- only native tasks block

  /** In every run without a race, only a native task blocks on the futex, and only a native task asks
      whether to. */
  lemma OnlyNativesBlock(kinds: seq<Kind>, awaitables: nat, turns: seq<Turn>, r: nat)
    requires var s := Run(Init(kinds, awaitables), turns); !s.raced && r < |s.runners| && s.runners[r].pc == Block
    ensures Run(Init(kinds, awaitables), turns).runners[r].cur.Native?
  {
    InitGood(kinds, awaitables);
    var l := RunKeeps(Init(kinds, awaitables), Layout(map[], map[]), turns);
    assert RunnerOk(Run(Init(kinds, awaitables), turns), l, r);
  }

  // ---- after a race coroutines may

  /** The runners, and what coroutine 0, native task 0 and the two awaitables are up to. */
  datatype View = View(
    runners: seq<Runner>, native: TaskState, state: TaskState, context: Context, copies: nat, list: seq<Task>,
    closed: bool, born: set<Task>, raced: bool)
  {
    /** Runner `r` goes on to `pc`. */
    function To(r: nat, pc: Pc): View
      requires r < |runners|
    {
      this.(runners := runners[r := runners[r].(pc := pc)])
    }
  }

  ghost predicate Shows(s: State, v: View) {
    && s.runners == v.runners && s.born == v.born
    && StateOf(s, Native(0)) == v.native && StateOf(s, Co(0)) == v.state && ContextOf(s, Co(0)) == v.context
        && s.queue[Co(0)] == v.copies
    && s.lists == [v.list, []] && s.closed == [v.closed, false]
    && s.raced == v.raced
  }

  /** Runner `r` takes one turn of a run that started in `s`. */
  lemma Turns(s: State, t: State, r: nat, ch: Choice, v': View) returns (t': State)
    requires Reaches(s, t) && Shows(Step(t, r, ch), v')
    ensures Reaches(s, t') && Shows(t', v')
  {
    ReachesStep(s, t, r, ch);
    t' := Step(t, r, ch);
  }

  /** What the first two steps after a jump make of the context of coroutine 0. */
  function Swapped(v: View, from: Task, to: Task): Context {
    if from == Co(0) then Saved else if to == Co(0) then NullContext else v.context
  }

  lemma EnterTurns(s: State, t: State, r: nat, v: View) returns (t': State, v': View)
    requires Reaches(s, t) && Shows(t, v) && r < |v.runners| && v.runners[r].pc.Jump?
    ensures var from, to := v.runners[r].cur, v.runners[r].pc.to;
      v' == v.(runners := v.runners[r := Runner(v.runners[r].kind, to, PostSave(from))],
               context := if to == Co(0) then NullContext else v.context)
    ensures Reaches(s, t') && Shows(t', v')
  {
    var from, to, kind := v.runners[r].cur, v.runners[r].pc.to, v.runners[r].kind;
    var v1 := v.(runners := v.runners[r := Runner(kind, to, PostSelf(from))]);
    t' := Turns(s, t, r, Go, v1);
    v' := v.(runners := v.runners[r := Runner(kind, to, PostSave(from))],
             context := if to == Co(0) then NullContext else v.context);
    t' := Turns(s, t', r, Go, v');
  }

  lemma JumpTurns(s: State, t: State, r: nat, v: View) returns (t': State, v': View)
    requires Reaches(s, t) && Shows(t, v) && r < |v.runners| && v.runners[r].pc.Jump?
    requires v.runners[r].pc.to != v.runners[r].cur
    ensures var from, to := v.runners[r].cur, v.runners[r].pc.to;
      v' == v.(runners := v.runners[r := Runner(v.runners[r].kind, to, PostCheck(from))],
          context := Swapped(v, from, to))
    ensures Reaches(s, t') && Shows(t', v')
  {
    var from, to := v.runners[r].cur, v.runners[r].pc.to;
    t', v' := EnterTurns(s, t, r, v);
    v' := v.(runners := v.runners[r := Runner(v.runners[r].kind, to, PostCheck(from))],
        context := Swapped(v, from, to));
    t' := Turns(s, t', r, Go, v');
  }

  lemma QueueTurn(s: State, t: State, r: nat, v: View) returns (t': State, v': View)
    requires Reaches(s, t) && Shows(t, v) && r < |v.runners| && v.runners[r].pc.PostPut?
    ensures v' == v.To(r, User).(copies := v.copies + if v.runners[r].pc.prev == Co(0) then 1 else 0)
    ensures Reaches(s, t') && Shows(t', v')
  {
    v' := v.To(r, User).(copies := v.copies + if v.runners[r].pc.prev == Co(0) then 1 else 0);
    t' := Turns(s, t, r, Go, v');
  }

  /** The check of the task that was left, which is native, or not coroutine 0, or runs. */
  lemma LeaveTurns(s: State, t: State, r: nat, v: View) returns (t': State, v': View)
    requires Reaches(s, t) && Shows(t, v) && r < |v.runners| && v.runners[r].pc.PostCheck?
    requires v.runners[r].pc.prev == Co(0) ==> v.state == Running
    ensures v' == v.To(r, User).(copies := v.copies + if v.runners[r].pc.prev == Co(0) then 1 else 0)
    ensures Reaches(s, t') && Shows(t', v')
  {
    var prev := v.runners[r].pc.prev;
    if prev.Co? && StateOf(t, prev) == Running {
      v' := v.To(r, PostPut(prev));
      t' := Turns(s, t, r, Go, v');
      t', v' := QueueTurn(s, t', r, v');
    } else {
      v' := v.To(r, User);
      t' := Turns(s, t, r, Go, v');
    }
  }

  /** A whole switch. */
  lemma SwitchTurns(s: State, t: State, r: nat, v: View) returns (t': State, v': View)
    requires Reaches(s, t) && Shows(t, v) && r < |v.runners| && v.runners[r].pc.Jump?
    requires v.runners[r].pc.to != v.runners[r].cur && (v.runners[r].cur == Co(0) ==> v.state == Running)
    ensures var R := v.runners[r];
      v' == v.(runners := v.runners[r := Runner(R.kind, R.pc.to, User)], context := Swapped(v, R.cur, R.pc.to),
               copies := v.copies + if R.cur == Co(0) then 1 else 0)
    ensures Reaches(s, t') && Shows(t', v')
  {
    t', v' := JumpTurns(s, t, r, v);
    t', v' := LeaveTurns(s, t', r, v');
  }

  lemma SpawnTurn(s: State, t: State, r: nat, id: nat, v: View) returns (t': State, v': View)
    requires Reaches(s, t) && Shows(t, v) && r < |v.runners| && v.runners[r].pc == User && Co(id) !in v.born
    ensures var v1 := v.To(r, Jump(Co(id))).(born := v.born + {Co(id)});
      v' == if id == 0 then v1.(state := Running, context := Saved) else v1
    ensures Reaches(s, t') && Shows(t', v')
  {
    v' := v.To(r, Jump(Co(id))).(born := v.born + {Co(id)});
    if id == 0 {
      v' := v'.(state := Running, context := Saved);
    }
    t' := Turns(s, t, r, CallSpawn(id), v');
  }

  /** Coroutine 0 starts a `wait` and gets as far as its state. */
  lemma BeginWait(s: State, t: State, r: nat, a: nat, v: View) returns (t': State, v': View)
    requires Reaches(s, t) && Shows(t, v) && r < |v.runners| && v.runners[r].pc == User && v.runners[r].cur == Co(0)
    requires v.state == Running && a < 2 && (a == 0 ==> !v.closed)
    ensures v' == v.To(r, InsertContext(a)).(state := Waiting) && Reaches(s, t') && Shows(t', v')
  {
    t' := Turns(s, t, r, CallWait(a), v.To(r, InsertLoad(a)));
    t' := Turns(s, t', r, Go, v.To(r, InsertState(a)));
    v' := v.To(r, InsertContext(a)).(state := Waiting);
    t' := Turns(s, t', r, Go, v');
  }

  lemma EndWait(s: State, t: State, r: nat, v: View) returns (t': State, v': View)
    requires Reaches(s, t) && Shows(t, v) && r < |v.runners| && v.runners[r].pc == InsertContext(0)
    requires v.runners[r].cur == Co(0) && v.runners[r].kind == Background && !v.closed
    ensures v' == v.To(r, NextQueue).(context := NullContext, list := [Co(0)] + v.list)
    ensures Reaches(s, t') && Shows(t', v')
  {
    t' := Turns(s, t, r, Go, v.To(r, InsertCas(0)).(context := NullContext));
    v' := v.To(r, NextQueue).(context := NullContext, list := [Co(0)] + v.list);
    t' := Turns(s, t', r, Go, v');
  }

  /** A runner releases awaitable 0 while coroutine 0 has no context yet. */
  lemma DetachTurns(s: State, t: State, r: nat, v: View) returns (t': State, v': View)
    requires Reaches(s, t) && Shows(t, v) && r < |v.runners| && v.runners[r].pc == User && !v.closed
    ensures v' == v.To(r, Mark(v.list, [], false)).(list := [], closed := true) && Reaches(s, t') && Shows(t', v')
  {
    t' := Turns(s, t, r, CallRelease(0), v.To(r, ReleaseCas(0, false)));
    v' := v.To(r, Mark(v.list, [], false)).(list := [], closed := true);
    t' := Turns(s, t', r, Go, v');
  }

  /** The release marks coroutine 0 Running ... */
  lemma MarkTurn(s: State, t: State, r: nat, v: View) returns (t': State, v': View)
    requires Reaches(s, t) && Shows(t, v) && r < |v.runners| && v.runners[r].pc == Mark([Co(0)], [], false)
    ensures v' == v.To(r, ReadContext(Co(0), [], [], false)).(state := Running, raced := v'.raced)
    ensures Reaches(s, t') && Shows(t', v')
  {
    assert [Co(0)][1..] == [];
    v' := v.To(r, ReadContext(Co(0), [], [], false)).(state := Running, raced := Step(t, r, Go).raced);
    t' := Turns(s, t, r, Go, v');
  }

  /** ... and puts it aside, since it has no context yet. */
  lemma AsideTurns(s: State, t: State, r: nat, v: View) returns (t': State, v': View)
    requires Reaches(s, t) && Shows(t, v) && r < |v.runners| && v.runners[r].pc == ReadContext(Co(0), [], [], false)
    requires v.context == NullContext
    ensures v' == v.To(r, Delayed([Co(0)], false)) && Reaches(s, t') && Shows(t', v')
  {
    assert [Co(0)] + [] == [Co(0)];
    t' := Turns(s, t, r, Go, v.To(r, Mark([], [Co(0)], false)));
    v' := v.To(r, Delayed([Co(0)], false));
    t' := Turns(s, t', r, Go, v');
  }

  /** It is queued once it has a context ... */
  lemma DelayedTurns(s: State, t: State, r: nat, v: View) returns (t': State, v': View)
    requires Reaches(s, t) && Shows(t, v) && r < |v.runners| && v.runners[r].pc == Delayed([Co(0)], false)
    requires v.context == Saved
    ensures v' == v.To(r, Mark([], [], false)).(copies := v.copies + 1) && Reaches(s, t') && Shows(t', v')
  {
    assert [Co(0)][1..] == [];
    t' := Turns(s, t, r, Go, v.To(r, Enqueue(Co(0), [], [], false)));
    v' := v.To(r, Mark([], [], false)).(copies := v.copies + 1);
    t' := Turns(s, t', r, Go, v');
  }

  /** ... and the release is over. */
  lemma OverTurns(s: State, t: State, r: nat, v: View) returns (t': State, v': View)
    requires Reaches(s, t) && Shows(t, v) && r < |v.runners| && v.runners[r].pc == Mark([], [], false)
    ensures v' == v.To(r, User) && Reaches(s, t') && Shows(t', v')
  {
    t' := Turns(s, t, r, Go, v.To(r, Delayed([], false)));
    v' := v.To(r, User);
    t' := Turns(s, t', r, Go, v');
  }

  /** Coroutine 0, running, looks for another task and finds none. */
  lemma FindsNothing(s: State, t: State, r: nat, v: View) returns (t': State, v': View)
    requires Reaches(s, t) && Shows(t, v) && r < |v.runners| && v.runners[r].pc == NextQueue
    requires v.runners[r].cur == Co(0) && v.state == Running
    ensures v' == v.To(r, NoNext) && Reaches(s, t') && Shows(t', v')
  {
    t' := Turns(s, t, r, Go, v.To(r, NextState(None)));
    v' := v.To(r, NoNext);
    t' := Turns(s, t', r, Go, v');
  }

  /** Another task looks for a task and is answered coroutine 0. */
  lemma AnswerTurns(s: State, t: State, r: nat, v: View) returns (t': State, v': View)
    requires Reaches(s, t) && Shows(t, v) && r < |v.runners| && v.runners[r].pc == NextQueue && v.copies > 0
    ensures v' == v.To(r, Jump(Co(0))).(copies := v.copies - 1) && Reaches(s, t') && Shows(t', v')
  {
    v' := v.To(r, Jump(Co(0))).(copies := v.copies - 1);
    if v.runners[r].cur.Co? {
      t' := Turns(s, t, r, Take(Co(0)), v.To(r, NextState(Some(Co(0)))).(copies := v.copies - 1));
      t' := Turns(s, t', r, Go, v');
    } else {
      t' := Turns(s, t, r, Take(Co(0)), v');
    }
  }

  /** It yields for that purpose, and switches. */
  lemma TakeTurns(s: State, t: State, r: nat, v: View) returns (t': State, v': View)
    requires Reaches(s, t) && Shows(t, v) && r < |v.runners| && v.runners[r].pc == User && v.copies > 0
    requires v.runners[r].cur != Co(0) && Schedule(v.runners[r]) == NextQueue
    ensures v' == v.(runners := v.runners[r := Runner(v.runners[r].kind, Co(0), User)], context := NullContext,
                     copies := v.copies - 1)
    ensures Reaches(s, t') && Shows(t', v')
  {
    t' := Turns(s, t, r, CallYield, v.To(r, NextQueue));
    t', v' := AnswerTurns(s, t', r, v.To(r, NextQueue));
    t', v' := SwitchTurns(s, t', r, v');
  }

  // ---- the run

  /** Coroutine 0 has inserted itself into a wait list on runner 0. */
  lemma Inserts(s: State) returns (t: State, v: View)
    requires s == Init([Background, Common], 2)
    ensures Reaches(s, t) && Shows(t, v)
    ensures v == View([Runner(Background, Co(0), NextQueue), Runner(Common, Native(1), User)],
                      Running, Waiting, NullContext, 0, [Co(0)], false, {Co(0)}, false)
  {
    assert Run(s, []) == s;
    v := View([Runner(Background, Native(0), User), Runner(Common, Native(1), User)],
              Running, Running, NullContext, 0, [], false, {}, false);
    t, v := SpawnTurn(s, s, 0, 0, v);
    t, v := SwitchTurns(s, t, 0, v);
    t, v := BeginWait(s, t, 0, 0, v);
    t, v := EndWait(s, t, 0, v);
  }

  /** Runner 1 releases it, which is the race ... */
  lemma Races(s: State, t0: State, v0: View) returns (t: State, v: View)
    requires Reaches(s, t0) && Shows(t0, v0)
    requires v0.runners == [Runner(Background, Co(0), NextQueue), Runner(Common, Native(1), User)]
    requires v0.context == NullContext && v0.list == [Co(0)] && !v0.closed
    ensures Reaches(s, t) && Shows(t, v)
    ensures v.runners == [Runner(Background, Co(0), NextQueue), Runner(Common, Native(1), Delayed([Co(0)], false))]
    ensures v.state == Running && v.copies == v0.copies && v.born == v0.born
  {
    t, v := DetachTurns(s, t0, 1, v0);
    t, v := MarkTurn(s, t, 1, v);
    t, v := AsideTurns(s, t, 1, v);
  }

  /** ... it finds nothing to switch to, runs on, and starts another coroutine ... */
  lemma RunsOn(s: State, t0: State, v0: View) returns (t: State, v: View)
    requires Reaches(s, t0) && Shows(t0, v0) && v0.born == {Co(0)}
    requires v0.runners == [Runner(Background, Co(0), NextQueue), Runner(Common, Native(1), Delayed([Co(0)], false))]
    requires v0.state == Running
    ensures Reaches(s, t) && Shows(t, v)
    ensures v.runners == [Runner(Background, Co(1), User), Runner(Common, Native(1), Delayed([Co(0)], false))]
    ensures v.state == Running && v.context == Saved && v.copies == v0.copies + 1
  {
    t, v := FindsNothing(s, t0, 0, v0);
    v := v.To(0, User);
    t := Turns(s, t, 0, Go, v);
    t, v := SpawnTurn(s, t, 0, 1, v);
    t, v := SwitchTurns(s, t, 0, v);
  }

  /** ... and both runners queue it. */
  lemma QueuedTwice(s: State, t0: State, v0: View) returns (t: State, v: View)
    requires Reaches(s, t0) && Shows(t0, v0)
    requires v0.runners == [Runner(Background, Co(1), User), Runner(Common, Native(1), Delayed([Co(0)], false))]
    requires v0.state == Running && v0.context == Saved && v0.copies == 1
    ensures Reaches(s, t) && Shows(t, v)
    ensures v.runners == [Runner(Background, Co(1), User), Runner(Common, Native(1), User)]
    ensures v.state == Running && v.context == Saved && v.copies == 2
  {
    t, v := DelayedTurns(s, t0, 1, v0);
    t, v := OverTurns(s, t, 1, v);
  }

  /** Both runners take it ... */
  lemma RunsTwice(s: State, t0: State, v0: View) returns (t: State, v: View)
    requires Reaches(s, t0) && Shows(t0, v0)
    requires v0.runners == [Runner(Background, Co(1), User), Runner(Common, Native(1), User)]
    requires v0.state == Running && v0.context == Saved && v0.copies == 2
    ensures Reaches(s, t) && Shows(t, v) && v.state == Running
    ensures v.runners == [Runner(Background, Co(0), User), Runner(Common, Co(0), User)]
  {
    t, v := TakeTurns(s, t0, 0, v0);
    t, v := TakeTurns(s, t, 1, v);
  }

  /** ... and one copy waits again while the other looks for something to run. */
  lemma Blocks(s: State, t0: State, v0: View) returns (t: State)
    requires Reaches(s, t0) && Shows(t0, v0) && v0.state == Running
    requires v0.runners == [Runner(Background, Co(0), User), Runner(Common, Co(0), User)]
    ensures Reaches(s, t) && |t.runners| == 2 && t.runners[0].cur == Co(0) && t.runners[0].pc == Block
  {
    var v := v0.To(0, NextQueue);
    t := Turns(s, t0, 0, CallYield, v);
    t, v := FindsNothing(s, t, 0, v);
    t, v := BeginWait(s, t, 1, 1, v);
    v := v.To(0, Block);
    t := Turns(s, t, 0, Go, v);
  }

  /** After a race a coroutine may block the thread that executes it: two threads and two awaitables are
      enough.  By `OnlyNativesBlock` every such run contains a race. */
  lemma RaceLetsCoroutineBlock()
    ensures exists turns ::
      var s := Run(Init([Background, Common], 2), turns);
      s.raced && |s.runners| == 2 && s.runners[0].pc == Block && s.runners[0].cur == Co(0)
  {
    var s := Init([Background, Common], 2);
    var t, v := Inserts(s);
    t, v := Races(s, t, v);
    t, v := RunsOn(s, t, v);
    t, v := QueuedTwice(s, t, v);
    t, v := RunsTwice(s, t, v);
    t := Blocks(s, t, v);
    var turns :| Run(s, turns) == t;
    if !t.raced {
      OnlyNativesBlock([Background, Common], 2, turns, 0);
      assert false;
    }
  }

  // ---- when a wait returns too early

  /** Native task `r` runs its own code although its `wait` has not been released. */
  ghost predicate Early(s: State, r: nat) {
    r < |s.runners| && s.runners[r].cur == Native(r) && s.runners[r].pc == User && StateOf(s, Native(r)) == Waiting
  }

  lemma InsertNotEarly(s: State, l: Layout, r: nat, ch: Choice)
    requires Good(s, l) && r < |s.runners| && Inserting(s.runners[r].pc)
    ensures !Early(InsertStep(s, r, ch), r)
  {
    assert RunnerOk(s, l, r);
  }

  lemma ScheduleNotEarly(s: State, l: Layout, r: nat, ch: Choice)
    requires Good(s, l) && r < |s.runners| && Scheduling(s.runners[r].pc)
    ensures !Early(ScheduleStep(s, r, ch), r)
  {
    assert RunnerOk(s, l, r);
  }

  /** The step of `post_jump_fcontext` that hands control to the task jumped to. */
  predicate Resumes(s: State, r: nat)
    requires r < |s.runners|
  {
    match s.runners[r].pc
    case PostCheck(prev) => prev.Native? || StateOf(s, prev) != Running
    case PostPut(_) => true
    case _ => false
  }

  /** In a run without a race a call of `wait` or `schedule` ends like this exactly with a switch back from
      another task to a native task that still waits. */
  lemma EarlyExactlyFromSwitch(kinds: seq<Kind>, awaitables: nat, turns: seq<Turn>, r: nat, ch: Choice)
    requires var s := Run(Init(kinds, awaitables), turns);
      && !s.raced && r < |s.runners|
      && (Inserting(s.runners[r].pc) || Scheduling(s.runners[r].pc) || Switching(s.runners[r].pc))
    ensures var s := Run(Init(kinds, awaitables), turns);
      Early(Step(s, r, ch), r) <==> Resumes(s, r) && s.runners[r].cur == Native(r) && StateOf(s, Native(r)) == Waiting
  {
    InitGood(kinds, awaitables);
    var l := RunKeeps(Init(kinds, awaitables), Layout(map[], map[]), turns);
    var s := Run(Init(kinds, awaitables), turns);
    var pc := s.runners[r].pc;
    if Inserting(pc) {
      InsertNotEarly(s, l, r, ch);
    } else if Scheduling(pc) {
      ScheduleNotEarly(s, l, r, ch);
    }
  }

  ghost predicate Only(turns: seq<Turn>, r: nat) {
    forall k :: 0 <= k < |turns| ==> turns[k].r == r
  }

  /** Runner `r` alone leads from `s` to `t`. */
  ghost predicate Alone(s: State, r: nat, t: State) {
    exists turns :: Only(turns, r) && Run(s, turns) == t
  }

  lemma AloneStep(s: State, r: nat, t: State, ch: Choice)
    requires Alone(s, r, t)
    ensures Alone(s, r, Step(t, r, ch))
  {
    var turns :| Only(turns, r) && Run(s, turns) == t;
    RunSnoc(s, turns, Turn(r, ch));
    assert Only(turns + [Turn(r, ch)], r);
  }

  /** Runner `r` alone moves on from `s`; `v` is the coroutine it takes and `a` that coroutine's own
      awaitable, on which nobody waits. */
  ghost predicate Moves(s: State, t: State, r: nat, v: Task, a: nat, cur: Task, pc: Pc, state: TaskState) {
    && Alone(s, r, t) && r < |s.runners| == |t.runners| && v.Co?
    && t.runners[r] == Runner(s.runners[r].kind, cur, pc)
    && StateOf(t, Native(r)) == Waiting && StateOf(t, v) == state
    && a < |s.lists| == |t.lists| == |t.closed| && t.lists == s.lists && s.lists[a] == []
    && t.raced == s.raced
  }

  lemma Move(s: State, t: State, r: nat, v: Task, a: nat, ch: Choice, cur: Task, pc: Pc, state: TaskState,
             cur': Task, pc': Pc, state': TaskState) returns (t': State)
    requires Moves(s, t, r, v, a, cur, pc, state)
    requires Alone(s, r, Step(t, r, ch)) ==> Moves(s, Step(t, r, ch), r, v, a, cur', pc', state')
    ensures Moves(s, t', r, v, a, cur', pc', state') && t' == Step(t, r, ch)
  {
    AloneStep(s, r, t, ch);
    t' := Step(t, r, ch);
  }

  lemma LeaveMoves(s: State, t: State, r: nat, v: Task, a: nat, from: Task, to: Task, state: TaskState)
    returns (t': State)
    requires Moves(s, t, r, v, a, from, Jump(to), state) && from != to
    ensures Moves(s, t', r, v, a, to, PostSave(from), state)
  {
    t' := Move(s, t, r, v, a, Go, from, Jump(to), state, to, PostSelf(from), state);
    t' := Move(s, t', r, v, a, Go, to, PostSelf(from), state, to, PostSave(from), state);
  }

  lemma ArriveMoves(s: State, t: State, r: nat, v: Task, a: nat, from: Task, to: Task, state: TaskState)
    returns (t': State)
    requires Moves(s, t, r, v, a, to, PostSave(from), state)
    requires from == Native(r) || (from == v && state != Running)
    ensures Moves(s, t', r, v, a, to, User, state)
  {
    t' := Move(s, t, r, v, a, Go, to, PostSave(from), state, to, PostCheck(from), state);
    t' := Move(s, t', r, v, a, Go, to, PostCheck(from), state, to, User, state);
  }

  /** The coroutine's own awaitable is released, unless it is already. */
  lemma ReleaseMoves(s: State, t: State, r: nat, v: Task, a: nat) returns (t': State)
    requires Moves(s, t, r, v, a, v, ReleaseCas(a, true), Running)
    ensures Moves(s, t', r, v, a, v, Delayed([], true), Running) || Moves(s, t', r, v, a, v, FinishState, Running)
  {
    if t.closed[a] {
      t' := Move(s, t, r, v, a, Go, v, ReleaseCas(a, true), Running, v, FinishState, Running);
    } else {
      assert t.lists[a := []] == t.lists;
      t' := Move(s, t, r, v, a, Go, v, ReleaseCas(a, true), Running, v, Mark([], [], true), Running);
      t' := Move(s, t', r, v, a, Go, v, Mark([], [], true), Running, v, Delayed([], true), Running);
    }
  }

  /** The coroutine returns from its function. */
  lemma ReturnMoves(s: State, t: State, r: nat, v: Task, a: nat) returns (t': State)
    requires Moves(s, t, r, v, a, v, User, Running)
    ensures Moves(s, t', r, v, a, v, FinishState, Running)
  {
    t' := Move(s, t, r, v, a, Return(a), v, User, Running, v, ReleaseCas(a, true), Running);
    t' := ReleaseMoves(s, t', r, v, a);
    if t'.runners[r].pc.Delayed? {
      t' := Move(s, t', r, v, a, Go, v, Delayed([], true), Running, v, FinishState, Running);
    }
  }

  /** It is finished and looks for another task; the native task waits, so the queue is asked. */
  lemma FinishMoves(s: State, t: State, r: nat, v: Task, a: nat) returns (t': State)
    requires Moves(s, t, r, v, a, v, FinishState, Running)
    ensures Moves(s, t', r, v, a, v, NextQueue, Finished)
  {
    var first := Schedule(s.runners[r].(cur := v));
    t' := Move(s, t, r, v, a, Go, v, FinishState, Running, v, first, Finished);
    if first == NextNative {
      t' := Move(s, t', r, v, a, Go, v, NextNative, Finished, v, NextQueue, Finished);
    }
  }

  /** Nothing is found: the fallback is the waiting native task. */
  lemma FallbackMoves(s: State, t: State, r: nat, v: Task, a: nat) returns (t': State)
    requires Moves(s, t, r, v, a, v, NextQueue, Finished)
    ensures Moves(s, t', r, v, a, v, Jump(Native(r)), Finished)
  {
    t' := Move(s, t, r, v, a, Go, v, NextQueue, Finished, v, NextState(None), Finished);
    t' := Move(s, t', r, v, a, Go, v, NextState(None), Finished, v, Jump(Native(r)), Finished);
  }

  /** ... and whenever a waiting native task is answered a coroutine, that can happen: the coroutine
      returns, nothing else is there to run, and the fallback resumes the native task.  No release of a
      list that anybody waits in is needed, and no race. */
  lemma AnswerReturnsEarly(s: State, l: Layout, r: nat, v: Task, a: nat) returns (t: State)
    requires Good(s, l) && r < |s.runners| && s.runners[r].cur == Native(r) && s.runners[r].pc == NextQueue
    requires StateOf(s, Native(r)) == Waiting && s.queue[v] > 0
    requires a < |s.lists| && s.lists[a] == []
    ensures Alone(Step(s, r, Take(v)), r, t) && Early(t, r) && t.lists == s.lists && t.raced == s.raced
  {
    assert TaskOk(s, l, v) && RunnerOk(s, l, r);
    var s1 := Step(s, r, Take(v));
    assert Only([], r) && Run(s1, []) == s1;
    t := LeaveMoves(s1, s1, r, v, a, Native(r), v, Running);
    t := ArriveMoves(s1, t, r, v, a, Native(r), v, Running);
    t := ReturnMoves(s1, t, r, v, a);
    t := FinishMoves(s1, t, r, v, a);
    t := FallbackMoves(s1, t, r, v, a);
    t := LeaveMoves(s1, t, r, v, a, v, Native(r), Finished);
    t := ArriveMoves(s1, t, r, v, a, v, Native(r), Finished);
  }

  /** In every run without a race: whenever the `get_item` of a waiting native task finds a coroutine and
      there is an awaitable nobody waits in, the `wait` can return early, and no other runner has to move. */
  lemma AnsweredWaitMayReturnEarly(kinds: seq<Kind>, awaitables: nat, turns: seq<Turn>, r: nat, v: Task, a: nat)
    returns (more: seq<Turn>)
    requires var s := Run(Init(kinds, awaitables), turns);
      && !s.raced && r < |s.runners| && s.runners[r].cur == Native(r) && s.runners[r].pc == NextQueue
      && StateOf(s, Native(r)) == Waiting && s.queue[v] > 0 && a < |s.lists| && s.lists[a] == []
    ensures var s := Run(Init(kinds, awaitables), turns);
      var e := Run(Step(s, r, Take(v)), more);
      Only(more, r) && Early(e, r) && e.lists == s.lists && !e.raced
  {
    InitGood(kinds, awaitables);
    var l := RunKeeps(Init(kinds, awaitables), Layout(map[], map[]), turns);
    var s := Run(Init(kinds, awaitables), turns);
    assert RunnerOk(s, l, r);
    var t := AnswerReturnsEarly(s, l, r, v, a);
    OnlyMarkRaces(s, r, Take(v));
    more :| Only(more, r) && Run(Step(s, r, Take(v)), more) == t;
  }

  /** Such a run exists: the native task of the only thread starts a coroutine, is switched back to, and
      waits on awaitable 0 while the coroutine is queued. */
  lemma NativeWaitReturnsEarly()
    ensures exists turns :: ReturnsEarly(Run(Init([Common], 2), turns))
  {
    var s := Init([Common], 2);
    var t := Starts(s);
    t := Yields(s, t);
    t := NativeWaits(s, t);
    t := NativeInserts(s, t);
    t := NativeIsAnswered(t);
    var turns :| Run(s, turns) == t;
  }

  /** The native task is back in its own code, still waiting and still in the wait list. */
  ghost predicate ReturnsEarly(s: State) {
    !s.raced && Early(s, 0) && s.lists == [[Native(0)], []]
  }

  lemma NativeIsAnswered(t0: State) returns (t: State)
    requires Reaches(Init([Common], 2), t0)
    requires Shows(t0, LoneView(NextQueue, Waiting, [Native(0)]))
    ensures Reaches(Init([Common], 2), t) && ReturnsEarly(t)
  {
    var s := Init([Common], 2);
    var turns :| Run(s, turns) == t0;
    var more := AnsweredWaitMayReturnEarly([Common], 2, turns, 0, Co(0), 1);
    ReachesStep(s, t0, 0, Take(Co(0)));
    t := Run(Step(t0, 0, Take(Co(0))), more);
    ReachesRun(s, Step(t0, 0, Take(Co(0))), more);
  }

  lemma {:induction false} ReachesRun(s: State, t: State, more: seq<Turn>)
    requires Reaches(s, t)
    ensures Reaches(s, Run(t, more))
    decreases |more|
  {
    if more != [] {
      ReachesStep(s, t, more[0].r, more[0].ch);
      ReachesRun(s, Step(t, more[0].r, more[0].ch), more[1..]);
    }
  }

  /** The native task is at `pc`, coroutine 0 is queued, and nobody waits but those in `list`. */
  function LoneView(pc: Pc, native: TaskState, list: seq<Task>): View {
    View([Runner(Common, Native(0), pc)], native, Running, Saved, 1, list, false, {Co(0)}, false)
  }

  lemma Starts(s: State) returns (t: State)
    requires s == Init([Common], 2)
    ensures Reaches(s, t)
    ensures Shows(t, View([Runner(Common, Co(0), User)], Running, Running, NullContext, 0, [], false, {Co(0)}, false))
  {
    assert Run(s, []) == s;
    var v := View([Runner(Common, Native(0), User)], Running, Running, NullContext, 0, [], false, {}, false);
    t, v := SpawnTurn(s, s, 0, 0, v);
    t, v := SwitchTurns(s, t, 0, v);
  }

  lemma Yields(s: State, t0: State) returns (t: State)
    requires Reaches(s, t0)
    requires Shows(t0, View([Runner(Common, Co(0), User)], Running, Running, NullContext, 0, [], false, {Co(0)}, false))
    ensures Reaches(s, t)
    ensures Shows(t, LoneView(User, Running, []))
  {
    var v := View([Runner(Common, Co(0), User)], Running, Running, NullContext, 0, [], false, {Co(0)}, false);
    t := Turns(s, t0, 0, CallYield, v.To(0, NextNative));
    t := Turns(s, t, 0, Go, v.To(0, NextState(Some(Native(0)))));
    v := v.To(0, Jump(Native(0)));
    t := Turns(s, t, 0, Go, v);
    t, v := SwitchTurns(s, t, 0, v);
  }

  lemma NativeWaits(s: State, t0: State) returns (t: State)
    requires Reaches(s, t0)
    requires Shows(t0, LoneView(User, Running, []))
    ensures Reaches(s, t)
    ensures Shows(t, LoneView(InsertContext(0), Waiting, []))
  {
    var v := LoneView(User, Running, []);
    t := Turns(s, t0, 0, CallWait(0), v.To(0, InsertLoad(0)));
    t := Turns(s, t, 0, Go, v.To(0, InsertState(0)));
    t := Turns(s, t, 0, Go, v.To(0, InsertContext(0)).(native := Waiting));
  }

  lemma NativeInserts(s: State, t0: State) returns (t: State)
    requires Reaches(s, t0)
    requires Shows(t0, LoneView(InsertContext(0), Waiting, []))
    ensures Reaches(s, t)
    ensures Shows(t, LoneView(NextQueue, Waiting, [Native(0)]))
  {
    var v := LoneView(InsertCas(0), Waiting, []);
    t := Turns(s, t0, 0, Go, v);
    assert [Native(0)] + [] == [Native(0)];
    t := Turns(s, t, 0, Go, v.To(0, NextQueue).(list := [Native(0)]));
  }
}
