/** Who must leave the processor: a coroutine that waits or has finished gets to the jump to another task,
    whatever the other runners do. */
module HandoffProgress {
  import opened Basics
  import opened HandoffMachine
  import opened HandoffInvariant
  import opened HandoffSteps
  import opened HandoffTheorems

  /** The reads between a call of `schedule` and the jump. */
  function Distance(pc: Pc): nat {
    match pc
    case NextNative => 3
    case NextQueue => 2
    case NextState(_) => 1
    case _ => 0
  }

  function TurnsOf(turns: seq<Turn>, r: nat): nat {
    if turns == [] then 0 else (if turns[0].r == r then 1 else 0) + TurnsOf(turns[1..], r)
  }

  /** Runner `r` executes a coroutine that has nothing to do there: it is finished, or it waits, in a wait
      list, and no release has found it yet. */
  ghost predicate Departing(s: State, r: nat, u: Task) {
    && r < |s.runners| && s.runners[r].cur == u && u.Co?
    && (StateOf(s, u) == Finished || (StateOf(s, u) == Waiting && u in s.window))
  }

  // ---- the others do not hinder it

  lemma FinishedIsAloof(s: State, l: Layout, r: nat, u: Task, q: nat)
    requires Good(s, l) && Departing(s, r, u) && StateOf(s, u) == Finished && q < |s.runners| && q != r
    ensures Aloof(s, q, u)
  {
    assert RunnerOk(s, l, r) && TaskOk(s, l, u);
    if AtRunner(s, q, u) {
      AtRunnerMeansControl(s, l, q, u);
    }
  }

  lemma UserLeaves(s: State, q: nat, ch: Choice, u: Task)
    requires q < |s.runners| && u in s.window
    ensures u in UserStep(s, q, ch).window
  {
  }

  lemma InsertLeaves(s: State, q: nat, ch: Choice, u: Task)
    requires q < |s.runners| && u in s.window
    ensures u in InsertStep(s, q, ch).window
  {
  }

  lemma ScheduleLeaves(s: State, q: nat, ch: Choice, u: Task)
    requires q < |s.runners| && u in s.window
    ensures u in ScheduleStep(s, q, ch).window
  {
  }

  lemma SwitchLeaves(s: State, q: nat, u: Task)
    requires q < |s.runners| && u in s.window && PrevTask(s.runners[q].pc) != Some(u)
    ensures u in JumpStep(s, q).window
  {
  }

  lemma ReleaseLeaves(s: State, q: nat, ch: Choice, u: Task)
    requires q < |s.runners| && u in s.window
    ensures u in ReleaseStep(s, q, ch).window
  {
  }

  lemma UserApart(s: State, q: nat, ch: Choice, r: nat)
    requires q < |s.runners| && r < |s.runners| && q != r
    ensures r < |UserStep(s, q, ch).runners| && UserStep(s, q, ch).runners[r] == s.runners[r]
  {
  }

  lemma InsertApart(s: State, q: nat, ch: Choice, r: nat)
    requires q < |s.runners| && r < |s.runners| && q != r
    ensures r < |InsertStep(s, q, ch).runners| && InsertStep(s, q, ch).runners[r] == s.runners[r]
  {
  }

  lemma ScheduleApart(s: State, q: nat, ch: Choice, r: nat)
    requires q < |s.runners| && r < |s.runners| && q != r
    ensures r < |ScheduleStep(s, q, ch).runners| && ScheduleStep(s, q, ch).runners[r] == s.runners[r]
  {
  }

  lemma JumpApart(s: State, q: nat, r: nat)
    requires q < |s.runners| && r < |s.runners| && q != r
    ensures r < |JumpStep(s, q).runners| && JumpStep(s, q).runners[r] == s.runners[r]
  {
  }

  lemma ReleaseApart(s: State, q: nat, ch: Choice, r: nat)
    requires q < |s.runners| && r < |s.runners| && q != r
    ensures r < |ReleaseStep(s, q, ch).runners| && ReleaseStep(s, q, ch).runners[r] == s.runners[r]
  {
  }

  lemma OthersApart(s: State, q: nat, ch: Choice, r: nat)
    requires r < |s.runners| && q != r
    ensures r < |Step(s, q, ch).runners| && Step(s, q, ch).runners[r] == s.runners[r]
  {
    if q < |s.runners| {
      var pc := s.runners[q].pc;
      if pc.User? { UserApart(s, q, ch, r); }
      else if Inserting(pc) { InsertApart(s, q, ch, r); }
      else if Scheduling(pc) { ScheduleApart(s, q, ch, r); }
      else if Switching(pc) { JumpApart(s, q, r); }
      else { ReleaseApart(s, q, ch, r); }
    }
  }

  /** Only the runner that has left a task ends its window. */
  lemma WindowStays(s: State, q: nat, ch: Choice, u: Task)
    requires u in s.window && (q < |s.runners| ==> PrevTask(s.runners[q].pc) != Some(u))
    ensures u in Step(s, q, ch).window
  {
    if q < |s.runners| {
      var pc := s.runners[q].pc;
      if pc.User? { UserLeaves(s, q, ch, u); }
      else if Inserting(pc) { InsertLeaves(s, q, ch, u); }
      else if Scheduling(pc) { ScheduleLeaves(s, q, ch, u); }
      else if Switching(pc) { SwitchLeaves(s, q, u); }
      else { ReleaseLeaves(s, q, ch, u); }
    }
  }

  lemma WaitingStays(s: State, l: Layout, r: nat, u: Task, q: nat, ch: Choice)
    requires Good(s, l) && Departing(s, r, u) && u in s.window && q != r && !Step(s, q, ch).raced
    ensures StateOf(Step(s, q, ch), u) == Waiting && u in Step(s, q, ch).window
  {
    if q < |s.runners| && AtRunner(s, q, u) {
      AtRunnerMeansControl(s, l, q, u);
      AtRunnerMeansControl(s, l, r, u);
    }
    WindowStays(s, q, ch, u);
    var l' := StepKeeps(s, l, q, ch);
    assert TaskOk(Step(s, q, ch), l', u);
  }

  lemma OthersLetGo(s: State, l: Layout, r: nat, u: Task, q: nat, ch: Choice)
    requires Good(s, l) && Departing(s, r, u) && q != r && !Step(s, q, ch).raced
    ensures Departing(Step(s, q, ch), r, u) && Step(s, q, ch).runners[r] == s.runners[r]
  {
    OthersApart(s, q, ch, r);
    if StateOf(s, u) != Finished {
      WaitingStays(s, l, r, u, q, ch);
    } else if q < |s.runners| {
      FinishedIsAloof(s, l, r, u, q);
      StepAloof(s, q, ch, u);
    }
  }

  // ---- its own runner looks for a task, and leaves

  /** The answer this turn gives to runner `r`, if it is one of `get_item`. */
  function Answer(s: State, turn: Turn, r: nat): Option<Task> {
    if turn.r == r && r < |s.runners| && s.runners[r].pc == NextQueue && turn.ch.Take? && s.queue[turn.ch.v] > 0
    then Some(turn.ch.v) else None
  }

  /** The first answer with a task that runner `r` gets in a run. */
  function Answered(s: State, turns: seq<Turn>, r: nat): Option<Task>
    decreases |turns|
  {
    if turns == [] then None
    else if Answer(s, turns[0], r).Some? then Answer(s, turns[0], r)
    else Answered(Step(s, turns[0].r, turns[0].ch), turns[1..], r)
  }

  /** The task to jump to: one that is chosen already, or else the one the queue answers, or else the
      runner's own native task. */
  function Destination(pc: Pc, answer: Option<Task>, r: nat): Task {
    if NextTask(pc).Some? then NextTask(pc).value else if answer.Some? then answer.value else Native(r)
  }

  lemma DepartingPc(s: State, l: Layout, r: nat, u: Task)
    requires Good(s, l) && Departing(s, r, u)
    ensures s.runners[r].pc.Jump? || 0 < Distance(s.runners[r].pc) <= 3
  {
    assert RunnerOk(s, l, r) && TaskOk(s, l, u);
  }

  /** A turn of its own brings it closer to the jump, and settles where it goes. */
  lemma DepartingReads(s: State, l: Layout, r: nat, u: Task, ch: Choice)
    requires Good(s, l) && Departing(s, r, u) && !s.runners[r].pc.Jump?
    ensures Step(s, r, ch) == ScheduleStep(s, r, ch)
    ensures var s', pc := ScheduleStep(s, r, ch), s.runners[r].pc;
      && Departing(s', r, u)
      && (s'.runners[r].pc.Jump? || 0 < Distance(s'.runners[r].pc) < Distance(pc))
  {
    DepartingPc(s, l, r, u);
  }

  predicate Unasked(pc: Pc) {
    pc == NextNative || pc == NextQueue
  }

  /** `later` is what the queue answers after this turn. */
  lemma DestinationStays(s: State, r: nat, ch: Choice, later: Option<Task>)
    requires r < |s.runners| && 0 < Distance(s.runners[r].pc) && s.runners[r].cur.Co?
    requires StateOf(s, s.runners[r].cur) != Running
    requires Unasked(ScheduleStep(s, r, ch).runners[r].pc) || later.None?
    ensures var now, pc, pc' := Answer(s, Turn(r, ch), r), s.runners[r].pc, ScheduleStep(s, r, ch).runners[r].pc;
      && Destination(pc', later, r) == Destination(pc, if now.Some? then now else later, r)
      && (!Unasked(pc) ==> now.None? && later.None?)
  {
  }

  // ---- every run

  /** After `k` steps runner `r` jumps, away from `u`; and where to is settled: to its native task unless the
      queue has answered another one. */
  ghost predicate LeavesAt(s: State, turns: seq<Turn>, k: nat, r: nat, u: Task)
    requires k <= |turns| && r < |s.runners|
  {
    var e := Run(s, turns[..k]);
    && Departing(e, r, u) && e.runners[r].pc.Jump?
    && e.runners[r].pc.to == Destination(s.runners[r].pc, Answered(s, turns[..k], r), r)
  }

  lemma {:induction false} DepartingRun(s: State, l: Layout, r: nat, u: Task, turns: seq<Turn>) returns (k: nat)
    requires Good(s, l) && Departing(s, r, u) && TurnsOf(turns, r) >= Distance(s.runners[r].pc) && !Run(s, turns).raced
    ensures k <= |turns| && LeavesAt(s, turns, k, r, u)
    ensures !Unasked(s.runners[r].pc) ==> Answered(s, turns[..k], r).None?
    decreases |turns|
  {
    DepartingPc(s, l, r, u);
    if s.runners[r].pc.Jump? {
      k := 0;
      assert Run(s, turns[..0]) == s;
    } else {
      var q, ch := turns[0].r, turns[0].ch;
      var s1 := Step(s, q, ch);
      if s1.raced {
        RacedForever(s1, turns[1..]);
      }
      DepartingStep(s, l, r, u, q, ch);
      var l1 := StepKeeps(s, l, q, ch);
      var j := DepartingRun(s1, l1, r, u, turns[1..]);
      k := j + 1;
      assert turns[..k][0] == turns[0] && turns[..k][1..] == turns[1..][..j];
      Settled(s, r, u, turns, k);
    }
  }

  /** One step brings it closer to its jump, or is somebody else's. */
  lemma DepartingStep(s: State, l: Layout, r: nat, u: Task, q: nat, ch: Choice)
    requires Good(s, l) && Departing(s, r, u) && !s.runners[r].pc.Jump? && !Step(s, q, ch).raced
    ensures var s' := Step(s, q, ch);
      && Departing(s', r, u)
      && if q == r then s'.runners[r].pc.Jump? || 0 < Distance(s'.runners[r].pc) < Distance(s.runners[r].pc)
         else s'.runners[r] == s.runners[r]
  {
    if q == r {
      DepartingReads(s, l, r, u, ch);
    } else {
      OthersLetGo(s, l, r, u, q, ch);
    }
  }

  lemma {:induction false} Settled(s: State, r: nat, u: Task, turns: seq<Turn>, k: nat)
    requires 0 < k <= |turns| && Departing(s, r, u) && 0 < Distance(s.runners[r].pc)
    requires var s1 := Step(s, turns[0].r, turns[0].ch);
      && r < |s1.runners|
      && (if turns[0].r == r then s1 == ScheduleStep(s, r, turns[0].ch) else s1.runners[r] == s.runners[r])
      && (!Unasked(s1.runners[r].pc) ==> Answered(s1, turns[1..k], r).None?)
    ensures var s1 := Step(s, turns[0].r, turns[0].ch);
      && Destination(s1.runners[r].pc, Answered(s1, turns[1..k], r), r) ==
         Destination(s.runners[r].pc, Answered(s, turns[..k], r), r)
      && (!Unasked(s.runners[r].pc) ==> Answered(s, turns[..k], r).None?)
  {
    var s1 := Step(s, turns[0].r, turns[0].ch);
    assert turns[..k][0] == turns[0] && turns[..k][1..] == turns[1..k];
    if turns[0].r == r {
      DestinationStays(s, r, turns[0].ch, Answered(s1, turns[1..k], r));
    }
  }

  lemma Departs(s: State, l: Layout, more: seq<Turn>, r: nat, u: Task) returns (k: nat)
    requires Good(s, l) && Departing(s, r, u) && TurnsOf(more, r) >= 3 && !Run(s, more).raced
    ensures k <= |more| && LeavesAt(s, more, k, r, u)
  {
    DepartingPc(s, l, r, u);
    k := DepartingRun(s, l, r, u, more);
  }

  /** Runner `r` is in `schedule` on behalf of coroutine `u`, which is not Running. */
  ghost predicate Schedules(s: State, r: nat, u: Task) {
    && r < |s.runners| && s.runners[r].cur == u && u.Co?
    && Scheduling(s.runners[r].pc) && StateOf(s, u) != Running
  }

  lemma SchedulesDeparts(s: State, l: Layout, r: nat, u: Task)
    requires Good(s, l) && Schedules(s, r, u)
    ensures Departing(s, r, u)
  {
    assert RunnerOk(s, l, r) && TaskOk(s, l, u);
  }

  /** In every run without a race, a coroutine that calls `schedule` while it waits or when it has finished
      leaves its runner: within three turns of that runner, whatever the others do, it gets to the jump; and
      the jump goes to the runner's native task unless the queue has answered another one. */
  lemma DepartingReachesJump(kinds: seq<Kind>, awaitables: nat, turns: seq<Turn>, more: seq<Turn>, r: nat, u: Task)
    returns (k: nat)
    requires !Run(Init(kinds, awaitables), turns).raced && !Run(Run(Init(kinds, awaitables), turns), more).raced
    requires Schedules(Run(Init(kinds, awaitables), turns), r, u) && TurnsOf(more, r) >= 3
    ensures k <= |more| && LeavesAt(Run(Init(kinds, awaitables), turns), more, k, r, u)
  {
    InitGood(kinds, awaitables);
    var l := RunKeeps(Init(kinds, awaitables), Layout(map[], map[]), turns);
    SchedulesDeparts(Run(Init(kinds, awaitables), turns), l, r, u);
    k := Departs(Run(Init(kinds, awaitables), turns), l, more, r, u);
  }

  /** An answer of the queue is a coroutine; so a jump to the native task means the queue was not asked or
      answered nothing. */
  lemma AnswersAreCoroutines(kinds: seq<Kind>, awaitables: nat, turns: seq<Turn>, turn: Turn, r: nat)
    requires !Run(Init(kinds, awaitables), turns).raced && Answer(Run(Init(kinds, awaitables), turns), turn, r).Some?
    ensures Answer(Run(Init(kinds, awaitables), turns), turn, r).value.Co?
  {
    InitGood(kinds, awaitables);
    var l := RunKeeps(Init(kinds, awaitables), Layout(map[], map[]), turns);
    assert TaskOk(Run(Init(kinds, awaitables), turns), l, turn.ch.v);
  }
}
