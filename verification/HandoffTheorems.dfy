/** What the hand-off guarantees until a release races, and what a race does. */
module HandoffTheorems {
  import opened Basics
  import opened HandoffMachine
  import opened HandoffInvariant
  import opened HandoffSteps

  lemma InitGood(kinds: seq<Kind>, awaitables: nat)
    ensures Good(Init(kinds, awaitables), Layout(map[], map[]))
  {
  }

  lemma RacedStays(s: State, r: nat, ch: Choice)
    requires s.raced
    ensures Step(s, r, ch).raced
  {
    if r < |s.runners| {
      var pc := s.runners[r].pc;
      if pc.User? { assert UserStep(s, r, ch).raced; }
      else if Inserting(pc) { assert InsertStep(s, r, ch).raced; }
      else if Scheduling(pc) { assert ScheduleStep(s, r, ch).raced; }
      else if Switching(pc) { assert JumpStep(s, r).raced; }
      else { assert ReleaseStep(s, r, ch).raced; }
    }
  }

  lemma {:induction false} RacedForever(s: State, turns: seq<Turn>)
    requires s.raced
    ensures Run(s, turns).raced
    decreases |turns|
  {
    if turns != [] {
      RacedStays(s, turns[0].r, turns[0].ch);
      RacedForever(Step(s, turns[0].r, turns[0].ch), turns[1..]);
    }
  }

  lemma {:induction false} RunKeeps(s: State, l: Layout, turns: seq<Turn>) returns (l': Layout)
    requires Good(s, l) && !Run(s, turns).raced
    ensures Good(Run(s, turns), l')
    decreases |turns|
  {
    l' := l;
    if turns != [] {
      var s1 := Step(s, turns[0].r, turns[0].ch);
      if s1.raced {
        RacedForever(s1, turns[1..]);
      }
      var l1 := StepKeeps(s, l, turns[0].r, turns[0].ch);
      l' := RunKeeps(s1, l1, turns[1..]);
    }
  }

  // ---- one place

  /** Where a coroutine is, told from the machine's own state.  A task inside its insertion window
      is on its way from its runner into the list, and counts as being in the list. */
  datatype Spot = Executing(r: nat) | HandedOver(r: nat) | InQueue | InWaitList(a: nat) | InRelease(r: nat) | Done

  ghost predicate AtRunner(s: State, r: nat, u: Task)
    requires r < |s.runners|
  {
    s.runners[r].cur == u || NextTask(s.runners[r].pc) == Some(u) || PrevTask(s.runners[r].pc) == Some(u)
  }

  ghost predicate IsAt(s: State, u: Task, p: Spot) {
    match p
    case Executing(r) => r < |s.runners| && s.runners[r].cur == u && u !in s.window
    case HandedOver(r) =>
      r < |s.runners| && u !in s.window
          && (NextTask(s.runners[r].pc) == Some(u) || PrevTask(s.runners[r].pc) == Some(u))
    case InQueue => s.queue[u] > 0
    case InWaitList(a) => a < |s.lists| && u in s.lists[a]
    case InRelease(r) => r < |s.runners| && u in HeldBy(s.runners[r].pc)
    case Done => StateOf(s, u) == Finished && forall r: nat :: r < |s.runners| ==> !AtRunner(s, r, u)
  }

  ghost predicate OneSpot(s: State, u: Task) {
    && (exists p :: IsAt(s, u, p))
    && (forall p, q :: IsAt(s, u, p) && IsAt(s, u, q) ==> p == q)
    && s.queue[u] <= 1
    && (s.queue[u] > 0 ==> StateOf(s, u) == Running && ContextOf(s, u) == Saved)
    && (u in s.window ==> StateOf(s, u) == Waiting && exists r: nat :: r < |s.runners| && AtRunner(s, r, u))
    && (forall r: nat, q: nat ::
          r < |s.runners| && q < |s.runners| && AtRunner(s, r, u) && AtRunner(s, q, u) ==> r == q)
  }

  /** Each coroutine in one spot, no list with a repetition, no jump to a context that is not there. */
  ghost predicate Orderly(s: State) {
    && (forall u: Task :: u.Co? && u in s.born ==> OneSpot(s, u))
    && (forall a: nat :: a < |s.lists| ==> Distinct(s.lists[a]))
    && (forall r: nat :: r < |s.runners| && s.runners[r].pc.Jump? ==> ContextOf(s, s.runners[r].pc.to) == Saved)
    && (forall r: nat :: r < |s.runners| && s.runners[r].pc.Jump? ==>
          StateOf(s, s.runners[r].pc.to) != Finished || s.runners[r].pc.to.Native?)
  }

  lemma AtRunnerMeansControl(s: State, l: Layout, r: nat, u: Task)
    requires Good(s, l) && r < |s.runners| && u.Co? && AtRunner(s, r, u)
    ensures s.runners[r].cur == u ==> ControlOf(l, u) == Current(r)
    ensures NextTask(s.runners[r].pc) == Some(u) ==> ControlOf(l, u) == NextOf(r)
    ensures PrevTask(s.runners[r].pc) == Some(u) ==> ControlOf(l, u) == PrevOf(r)
  {
    assert RunnerOk(s, l, r);
  }

  /** The spot the layout assigns. */
  ghost function SpotOf(l: Layout, u: Task): Spot {
    match LinkOf(l, u)
    case Queued => InQueue
    case Listed(a) => InWaitList(a)
    case Held(r) => InRelease(r)
    case Unlinked =>
      match ControlOf(l, u)
      case Parked => Done
      case Current(r) => Executing(r)
      case NextOf(r) => HandedOver(r)
      case PrevOf(r) => HandedOver(r)
  }

  lemma HeldNotFinished(s: State, l: Layout, u: Task)
    requires Good(s, l) && u.Co? && u in s.born && LinkOf(l, u).Held?
    ensures StateOf(s, u) != Finished
  {
    var r := LinkOf(l, u).r;
    assert TaskOk(s, l, u) && RunnerOk(s, l, r);
    assert u in HeldBy(s.runners[r].pc);
  }

  lemma SpotIsUnique(s: State, l: Layout, u: Task, p: Spot)
    requires Good(s, l) && u.Co? && u in s.born && IsAt(s, u, p)
    ensures p == SpotOf(l, u)
  {
    assert TaskOk(s, l, u);
    if p.Executing? || p.HandedOver? {
      AtRunnerMeansControl(s, l, p.r, u);
    }
    if p.Done? && LinkOf(l, u).Held? {
      HeldNotFinished(s, l, u);
    }
    if p.Done? && ControlOf(l, u) != Parked {
      assert AtRunner(s, ControlOf(l, u).r, u);
    }
  }

  lemma SpotIsReal(s: State, l: Layout, u: Task)
    requires Good(s, l) && u.Co? && u in s.born
    ensures IsAt(s, u, SpotOf(l, u))
  {
    assert TaskOk(s, l, u);
    forall r: nat | r < |s.runners| && AtRunner(s, r, u)
      ensures ControlOf(l, u) != Parked
    {
      AtRunnerMeansControl(s, l, r, u);
    }
  }

  lemma TaskOrderly(s: State, l: Layout, u: Task)
    requires Good(s, l) && u.Co? && u in s.born
    ensures OneSpot(s, u)
  {
    assert TaskOk(s, l, u);
    SpotIsReal(s, l, u);
    forall p | IsAt(s, u, p)
      ensures p == SpotOf(l, u)
    {
      SpotIsUnique(s, l, u, p);
    }
    forall r: nat | r < |s.runners| && AtRunner(s, r, u)
      ensures ControlOf(l, u) in {Current(r), NextOf(r), PrevOf(r)}
    {
      AtRunnerMeansControl(s, l, r, u);
    }
    if u in s.window {
      assert AtRunner(s, ControlOf(l, u).r, u);
    }
  }

  lemma GoodMeansOrderly(s: State, l: Layout)
    requires Good(s, l)
    ensures Orderly(s)
  {
    forall u: Task | u.Co? && u in s.born
      ensures OneSpot(s, u)
    {
      TaskOrderly(s, l, u);
    }
    forall r: nat | r < |s.runners| && s.runners[r].pc.Jump?
      ensures Ready(s, l, r, s.runners[r].pc.to)
    {
      assert RunnerOk(s, l, r);
    }
  }

  /** Safety of the hand-off: on any number of runners, in every run in which no release marked a task
      inside its insertion window, every coroutine is in exactly one spot, a queued one is Running
      and has a context, and no jump goes to a null or fake context or to a finished coroutine. */
  lemma OrderlyUntilRaced(kinds: seq<Kind>, awaitables: nat, turns: seq<Turn>)
    requires !Run(Init(kinds, awaitables), turns).raced
    ensures Orderly(Run(Init(kinds, awaitables), turns))
  {
    InitGood(kinds, awaitables);
    var l := RunKeeps(Init(kinds, awaitables), Layout(map[], map[]), turns);
    GoodMeansOrderly(Run(Init(kinds, awaitables), turns), l);
  }

  // ---- a race always can end with a task queued twice

  /** The state right after a release by runner `q` marked `u`, which runner `r` has not left yet. */
  ghost predicate Marked(s: State, q: nat, r: nat, u: Task) {
    && q < |s.runners| && r < |s.runners| && q != r && u.Co?
    && StateOf(s, u) == Running
    && s.runners[q].pc.ReadContext? && s.runners[q].pc.task == u
  }

  lemma ReleaseQueuesToo(s: State, q: nat, u: Task) returns (turns: seq<Turn>)
    requires q < |s.runners| && s.runners[q].pc.ReadContext? && s.runners[q].pc.task == u
    requires ContextOf(s, u) == Saved && s.queue[u] > 0
    ensures Run(s, turns).queue[u] > 1
  {
    turns := [Turn(q, Go), Turn(q, Go)];
    var s1 := Step(s, q, Go);
    assert turns[1..] == [Turn(q, Go)];
    assert Run(s1, turns[1..]) == Run(Step(s1, q, Go), []);
  }

  lemma FromPost(s: State, q: nat, r: nat, u: Task) returns (turns: seq<Turn>)
    requires Marked(s, q, r, u) && s.runners[r].cur != u && PrevTask(s.runners[r].pc) == Some(u)
    requires s.runners[r].pc.PostCheck? || s.runners[r].pc.PostPut? ==> ContextOf(s, u) == Saved
    ensures Run(s, turns).queue[u] > 1
    decreases if s.runners[r].pc.PostSelf? then 3 else if s.runners[r].pc.PostSave? then 2
        else if s.runners[r].pc.PostCheck? then 1 else 0
  {
    var s1 := Step(s, r, Go);
    var rest;
    if s.runners[r].pc.PostPut? {
      rest := ReleaseQueuesToo(s1, q, u);
    } else {
      rest := FromPost(s1, q, r, u);
    }
    turns := [Turn(r, Go)] + rest;
    assert turns[1..] == rest;
  }

  lemma FromJump(s: State, q: nat, r: nat, u: Task) returns (turns: seq<Turn>)
    requires Marked(s, q, r, u) && s.runners[r].cur == u && s.runners[r].pc.Jump? && s.runners[r].pc.to != u
    ensures Run(s, turns).queue[u] > 1
  {
    var s1 := Step(s, r, Go);
    var rest := FromPost(s1, q, r, u);
    turns := [Turn(r, Go)] + rest;
    assert turns[1..] == rest;
  }

  lemma {:induction false} FreshId(born: set<Task>) returns (id: nat)
    ensures forall i: nat :: i >= id ==> Co(i) !in born
    decreases |born|
  {
    if born == {} {
      id := 0;
    } else {
      var t :| t in born;
      var k := FreshId(born - {t});
      id := if t.Co? && t.id >= k then t.id + 1 else k;
      forall i: nat | i >= id
        ensures Co(i) !in born
      {
        assert Co(i) !in born - {t};
      }
    }
  }

  /** The marked task finds nothing to switch to, runs on, and later creates a task. */
  lemma FromUser(s: State, q: nat, r: nat, u: Task) returns (turns: seq<Turn>)
    requires Marked(s, q, r, u) && s.runners[r].cur == u && s.runners[r].pc == User
    ensures Run(s, turns).queue[u] > 1
  {
    var newId := FreshId(s.born + {u});
    var s1 := Step(s, r, CallSpawn(newId));
    assert Co(newId) !in s.born + {u};
    var rest := FromJump(s1, q, r, u);
    turns := [Turn(r, CallSpawn(newId))] + rest;
    assert turns[1..] == rest;
  }

  lemma FromSchedule(s: State, q: nat, r: nat, u: Task) returns (turns: seq<Turn>)
    requires Marked(s, q, r, u) && s.runners[r].cur == u
    requires var pc := s.runners[r].pc;
      pc.NextNative? || pc.NextQueue? || pc.NoNext? || (pc.NextState? && pc.next != Some(u))
    ensures Run(s, turns).queue[u] > 1
    decreases match s.runners[r].pc case NextNative => 3 case NextQueue => 2 case NextState(_) => 1 case _ => 0
  {
    var s1 := Step(s, r, Go);
    var rest;
    if s.runners[r].pc.NoNext? {
      rest := FromUser(s1, q, r, u);
    } else if s.runners[r].pc.NextState? && s.runners[r].pc.next.Some? {
      rest := FromJump(s1, q, r, u);
    } else {
      rest := FromSchedule(s1, q, r, u);
    }
    turns := [Turn(r, Go)] + rest;
    assert turns[1..] == rest;
  }

  lemma OnlyMarkRaces(s: State, q: nat, ch: Choice)
    requires !s.raced
    requires q >= |s.runners| || !s.runners[q].pc.Mark? || s.runners[q].pc.list == []
        || s.runners[q].pc.list[0] !in s.window
    ensures !Step(s, q, ch).raced
  {
    if q < |s.runners| {
      var pc := s.runners[q].pc;
      if pc.User? { assert !UserStep(s, q, ch).raced; }
      else if Inserting(pc) { assert !InsertStep(s, q, ch).raced; }
      else if Scheduling(pc) { assert !ScheduleStep(s, q, ch).raced; }
      else if Switching(pc) { assert !JumpStep(s, q).raced; }
      else { assert !ReleaseStep(s, q, ch).raced; }
    }
  }

  lemma RacedTask(s: State, l: Layout, q: nat, ch: Choice) returns (u: Task)
    requires Good(s, l) && !s.raced && Step(s, q, ch).raced
    ensures q < |s.runners| && s.runners[q].pc.Mark? && s.runners[q].pc.list != [] && u == s.runners[q].pc.list[0]
    ensures u in s.window && u.Co? && u in s.born
    ensures !ControlOf(l, u).Parked? && ControlOf(l, u).r < |s.runners| && ControlOf(l, u).r != q
    ensures Marked(Step(s, q, ch), q, ControlOf(l, u).r, u)
  {
    if q >= |s.runners| || !s.runners[q].pc.Mark? || s.runners[q].pc.list == []
        || s.runners[q].pc.list[0] !in s.window {
      OnlyMarkRaces(s, q, ch);
      assert false;
    }
    u := s.runners[q].pc.list[0];
    assert TaskOk(s, l, u) && RunnerOk(s, l, q);
  }

  /** From every state that was orderly so far, a step that races can be continued so that the same
      coroutine is in the run queue twice. */
  lemma RaceDoublesTask(s: State, l: Layout, q: nat, ch: Choice) returns (u: Task, turns: seq<Turn>)
    requires Good(s, l) && !s.raced && Step(s, q, ch).raced
    ensures u in s.born && u.Co? && Run(Step(s, q, ch), turns).queue[u] > 1
  {
    var s1 := Step(s, q, ch);
    u := RacedTask(s, l, q, ch);
    assert TaskOk(s, l, u);
    var r := ControlOf(l, u).r;
    assert RunnerOk(s, l, r);
    if PrevTask(s.runners[r].pc) == Some(u) {
      turns := FromPost(s1, q, r, u);
    } else if s.runners[r].pc.Jump? {
      turns := FromJump(s1, q, r, u);
    } else {
      turns := FromSchedule(s1, q, r, u);
    }
  }

  lemma UserBears(s: State, r: nat, ch: Choice)
    requires r < |s.runners|
    ensures s.born <= UserStep(s, r, ch).born
  {
  }

  lemma InsertBears(s: State, r: nat, ch: Choice)
    requires r < |s.runners|
    ensures s.born <= InsertStep(s, r, ch).born && s.born <= ScheduleStep(s, r, ch).born
  {
  }

  lemma ReleaseBears(s: State, r: nat, ch: Choice)
    requires r < |s.runners|
    ensures s.born <= JumpStep(s, r).born && s.born <= ReleaseStep(s, r, ch).born
  {
  }

  lemma BornStays(s: State, r: nat, ch: Choice)
    ensures s.born <= Step(s, r, ch).born
  {
    if r < |s.runners| {
      UserBears(s, r, ch);
      InsertBears(s, r, ch);
      ReleaseBears(s, r, ch);
    }
  }

  lemma {:induction false} BornForever(s: State, turns: seq<Turn>)
    ensures s.born <= Run(s, turns).born
    decreases |turns|
  {
    if turns != [] {
      BornStays(s, turns[0].r, turns[0].ch);
      BornForever(Step(s, turns[0].r, turns[0].ch), turns[1..]);
    }
  }

  /** The race is exactly what breaks the hand-off: after a run without one, the next step keeps
      order in every continuation that does not race, and if that step is itself a race there is a
      continuation that puts one coroutine into the run queue twice. */
  lemma OrderlyExactlyUntilRaced(kinds: seq<Kind>, awaitables: nat, turns: seq<Turn>, r: nat, ch: Choice)
    requires !Run(Init(kinds, awaitables), turns).raced
    ensures var s1 := Step(Run(Init(kinds, awaitables), turns), r, ch);
      if s1.raced then exists more :: !OrderlyIn(s1, more)
      else forall more :: !Run(s1, more).raced ==> OrderlyIn(s1, more)
  {
    var s := Run(Init(kinds, awaitables), turns);
    var s1 := Step(s, r, ch);
    InitGood(kinds, awaitables);
    var l := RunKeeps(Init(kinds, awaitables), Layout(map[], map[]), turns);
    if s1.raced {
      var u, more := RaceDoublesTask(s, l, r, ch);
      BornStays(s, r, ch);
      BornForever(s1, more);
      assert !OneSpot(Run(s1, more), u);
      assert !OrderlyIn(s1, more);
    } else {
      var l1 := StepKeeps(s, l, r, ch);
      forall more | !Run(s1, more).raced
        ensures OrderlyIn(s1, more)
      {
        var l2 := RunKeeps(s1, l1, more);
        GoodMeansOrderly(Run(s1, more), l2);
      }
    }
  }

  ghost predicate OrderlyIn(s: State, turns: seq<Turn>) {
    Orderly(Run(s, turns))
  }

  // ---- a finished task is never resumed

  /** Nothing leads from runner `r` to `u`. */
  ghost predicate Aloof(s: State, r: nat, u: Task)
    requires r < |s.runners|
  {
    u.Co? && u in s.born && s.queue[u] == 0 && !AtRunner(s, r, u) && u !in HeldBy(s.runners[r].pc)
  }

  ghost predicate StaysAloof(s: State, s': State, r: nat, u: Task)
    requires r < |s.runners|
  {
    && |s'.runners| == |s.runners|
    && StateOf(s', u) == StateOf(s, u) && !AtRunner(s', r, u)
    && forall q: nat :: q < |s.runners| && q != r ==> s'.runners[q] == s.runners[q]
  }

  lemma UserAloof(s: State, r: nat, ch: Choice, u: Task)
    requires r < |s.runners| && Aloof(s, r, u) && s.runners[r].pc.User?
    ensures StaysAloof(s, UserStep(s, r, ch), r, u)
  {
  }

  lemma InsertAloof(s: State, r: nat, ch: Choice, u: Task)
    requires r < |s.runners| && Aloof(s, r, u) && Inserting(s.runners[r].pc)
    ensures StaysAloof(s, InsertStep(s, r, ch), r, u)
  {
  }

  lemma TakeAloof(s: State, r: nat, ch: Choice, u: Task)
    requires r < |s.runners| && Aloof(s, r, u) && s.runners[r].pc.NextQueue?
    ensures StaysAloof(s, ScheduleStep(s, r, ch), r, u)
  {
  }

  lemma ScheduleAloof(s: State, r: nat, ch: Choice, u: Task)
    requires r < |s.runners| && Aloof(s, r, u) && Scheduling(s.runners[r].pc) && !s.runners[r].pc.NextQueue?
    ensures StaysAloof(s, ScheduleStep(s, r, ch), r, u)
  {
  }

  lemma JumpAloof(s: State, r: nat, u: Task)
    requires r < |s.runners| && Aloof(s, r, u) && Switching(s.runners[r].pc)
    ensures StaysAloof(s, JumpStep(s, r), r, u)
  {
  }

  lemma MarkAloof(s: State, r: nat, ch: Choice, u: Task)
    requires r < |s.runners| && Aloof(s, r, u) && s.runners[r].pc.Mark?
    ensures StaysAloof(s, ReleaseStep(s, r, ch), r, u)
  {
  }

  lemma EnqueueAloof(s: State, r: nat, ch: Choice, u: Task)
    requires r < |s.runners| && Aloof(s, r, u)
    requires s.runners[r].pc.ReadContext? || s.runners[r].pc.Enqueue? || s.runners[r].pc.Delayed?
    ensures StaysAloof(s, ReleaseStep(s, r, ch), r, u)
  {
  }

  lemma ReleaseAloof(s: State, r: nat, ch: Choice, u: Task)
    requires r < |s.runners| && Aloof(s, r, u) && (s.runners[r].pc.ReleaseCas? || s.runners[r].pc.FinishState?)
    ensures StaysAloof(s, ReleaseStep(s, r, ch), r, u)
  {
  }

  lemma DoneIsAloof(s: State, l: Layout, r: nat, u: Task)
    requires Good(s, l) && u.Co? && u in s.born && IsAt(s, u, Done) && r < |s.runners|
    ensures Aloof(s, r, u)
  {
    SpotIsUnique(s, l, u, Done);
    assert TaskOk(s, l, u);
  }

  lemma SchedulingAloof(s: State, r: nat, ch: Choice, u: Task)
    requires r < |s.runners| && Aloof(s, r, u) && Scheduling(s.runners[r].pc)
    ensures StaysAloof(s, ScheduleStep(s, r, ch), r, u)
  {
    if s.runners[r].pc.NextQueue? { TakeAloof(s, r, ch, u); } else { ScheduleAloof(s, r, ch, u); }
  }

  lemma ReleasingAloof(s: State, r: nat, ch: Choice, u: Task)
    requires r < |s.runners| && Aloof(s, r, u)
    requires var pc := s.runners[r].pc; !pc.User? && !Inserting(pc) && !Scheduling(pc) && !Switching(pc)
    ensures StaysAloof(s, ReleaseStep(s, r, ch), r, u)
  {
    var pc := s.runners[r].pc;
    if pc.Mark? { MarkAloof(s, r, ch, u); }
    else if pc.ReleaseCas? || pc.FinishState? { ReleaseAloof(s, r, ch, u); }
    else { EnqueueAloof(s, r, ch, u); }
  }

  lemma StepAloof(s: State, r: nat, ch: Choice, u: Task)
    requires r < |s.runners| && Aloof(s, r, u)
    ensures StaysAloof(s, Step(s, r, ch), r, u)
  {
    var pc := s.runners[r].pc;
    if pc.User? { UserAloof(s, r, ch, u); }
    else if Inserting(pc) { InsertAloof(s, r, ch, u); }
    else if Scheduling(pc) { SchedulingAloof(s, r, ch, u); }
    else if Switching(pc) { JumpAloof(s, r, u); }
    else { ReleasingAloof(s, r, ch, u); }
  }

  lemma DoneStays(s: State, l: Layout, r: nat, ch: Choice, u: Task)
    requires Good(s, l) && u.Co? && u in s.born && IsAt(s, u, Done)
    ensures IsAt(Step(s, r, ch), u, Done)
  {
    if r < |s.runners| {
      DoneIsAloof(s, l, r, u);
      StepAloof(s, r, ch, u);
      StillDone(s, Step(s, r, ch), r, u);
    }
  }

  lemma StillDone(s: State, s': State, r: nat, u: Task)
    requires IsAt(s, u, Done) && r < |s.runners| && StaysAloof(s, s', r, u)
    ensures IsAt(s', u, Done)
  {
    forall q: nat | q < |s'.runners|
      ensures !AtRunner(s', q, u)
    {
      assert q != r ==> !AtRunner(s, q, u);
    }
  }

  lemma {:induction false} DoneForever(s: State, l: Layout, turns: seq<Turn>, u: Task)
    requires Good(s, l) && u.Co? && u in s.born && IsAt(s, u, Done) && !Run(s, turns).raced
    ensures IsAt(Run(s, turns), u, Done)
    decreases |turns|
  {
    if turns != [] {
      var r, ch := turns[0].r, turns[0].ch;
      var s1 := Step(s, r, ch);
      if s1.raced {
        RacedForever(s1, turns[1..]);
      }
      var l1 := StepKeeps(s, l, r, ch);
      DoneStays(s, l, r, ch, u);
      BornStays(s, r, ch);
      DoneForever(s1, l1, turns[1..], u);
    }
  }

  /** A coroutine that is finished and that no runner is at any more is never resumed: in no
      continuation without a race does a runner execute it, switch to it, queue it or change its state. */
  lemma FinishedForever(kinds: seq<Kind>, awaitables: nat, turns: seq<Turn>, more: seq<Turn>, u: Task)
    requires var s := Run(Init(kinds, awaitables), turns);
      u.Co? && u in s.born && IsAt(s, u, Done) && !s.raced && !Run(s, more).raced
    ensures IsAt(Run(Run(Init(kinds, awaitables), turns), more), u, Done)
  {
    InitGood(kinds, awaitables);
    var l := RunKeeps(Init(kinds, awaitables), Layout(map[], map[]), turns);
    DoneForever(Run(Init(kinds, awaitables), turns), l, more, u);
  }

  // ---- the race is reachable

  lemma {:induction false} RunSnoc(s: State, turns: seq<Turn>, last: Turn)
    ensures Run(s, turns + [last]) == Step(Run(s, turns), last.r, last.ch)
    decreases |turns|
  {
    if turns == [] {
      assert turns + [last] == [last];
      assert Run(s, [last]) == Run(Step(s, last.r, last.ch), []);
    } else {
      assert (turns + [last])[1..] == turns[1..] + [last];
      RunSnoc(Step(s, turns[0].r, turns[0].ch), turns[1..], last);
    }
  }

  /** Thread 0 runs coroutine 0, thread 1 its own code; `pc0` and `window` vary. */
  ghost predicate TwoThreads(s: State, cur: Task, pc0: Pc, pc1: Pc, window: set<Task>, list: seq<Task>) {
    && |s.runners| == 2 && s.runners[0] == Runner(Common, cur, pc0) && s.runners[1] == Runner(Common, Native(1), pc1)
    && |s.lists| == 1 && s.lists[0] == list && |s.closed| == 1
    && s.window == window && !s.raced && (pc1 == User ==> !s.closed[0])
  }

  ghost predicate Reaches(s: State, t: State) {
    exists turns :: Run(s, turns) == t
  }

  lemma ReachesStep(s: State, t: State, r: nat, ch: Choice)
    requires Reaches(s, t)
    ensures Reaches(s, Step(t, r, ch))
  {
    var turns :| Run(s, turns) == t;
    RunSnoc(s, turns, Turn(r, ch));
  }

  /** Thread 0 takes a turn while thread 1 runs its own code. */
  lemma OneTurn(s: State, t: State, ch: Choice, cur: Task, pc0: Pc, cur': Task, pc0': Pc) returns (t': State)
    requires Reaches(s, t) && TwoThreads(t, cur, pc0, User, {}, [])
    requires TwoThreads(Step(t, 0, ch), cur', pc0', User, {}, [])
    ensures Reaches(s, t') && TwoThreads(t', cur', pc0', User, {}, []) && t' == Step(t, 0, ch)
  {
    ReachesStep(s, t, 0, ch);
    t' := Step(t, 0, ch);
  }

  lemma SpawnCoroutine(s: State) returns (t: State)
    requires TwoThreads(s, Native(0), User, User, {}, []) && Co(0) !in s.born
    ensures Reaches(s, t) && TwoThreads(t, Co(0), PostSelf(Native(0)), User, {}, []) && StateOf(t, Co(0)) == Running
  {
    assert Run(s, []) == s;
    t := OneTurn(s, s, CallSpawn(0), Native(0), User, Native(0), Jump(Co(0)));
    assert StateOf(t, Co(0)) == Running;
    t := OneTurn(s, t, Go, Native(0), Jump(Co(0)), Co(0), PostSelf(Native(0)));
  }

  lemma StartCoroutine(s: State, t0: State) returns (t: State)
    requires Reaches(s, t0) && TwoThreads(t0, Co(0), PostSelf(Native(0)), User, {}, []) && StateOf(t0, Co(0)) == Running
    ensures Reaches(s, t) && TwoThreads(t, Co(0), User, User, {}, []) && StateOf(t, Co(0)) == Running
  {
    t := OneTurn(s, t0, Go, Co(0), PostSelf(Native(0)), Co(0), PostSave(Native(0)));
    t := OneTurn(s, t, Go, Co(0), PostSave(Native(0)), Co(0), PostCheck(Native(0)));
    t := OneTurn(s, t, Go, Co(0), PostCheck(Native(0)), Co(0), User);
  }

  lemma InsertCoroutine(s: State, t0: State) returns (t: State)
    requires Reaches(s, t0) && TwoThreads(t0, Co(0), User, User, {}, []) && StateOf(t0, Co(0)) == Running
    ensures Reaches(s, t) && TwoThreads(t, Co(0), NextNative, User, {Co(0)}, [Co(0)])
  {
    var c := Co(0);
    t := OneTurn(s, t0, CallWait(0), c, User, c, InsertLoad(0));
    t := OneTurn(s, t, Go, c, InsertLoad(0), c, InsertState(0));
    t := OneTurn(s, t, Go, c, InsertState(0), c, InsertContext(0));
    t := OneTurn(s, t, Go, c, InsertContext(0), c, InsertCas(0));
    ReachesStep(s, t, 0, Go);
    t := Step(t, 0, Go);
  }

  lemma ReleaseCoroutine(s: State, t0: State) returns (t: State)
    requires Reaches(s, t0) && TwoThreads(t0, Co(0), NextNative, User, {Co(0)}, [Co(0)])
    ensures Reaches(s, t) && !t.raced && Step(t, 1, Go).raced
  {
    ReachesStep(s, t0, 1, CallRelease(0));
    t := Step(t0, 1, CallRelease(0));
    assert t.runners[1].pc == ReleaseCas(0, false) && t.lists[0] == [Co(0)];
    ReachesStep(s, t, 1, Go);
    t := Step(t, 1, Go);
    assert t.runners[1].pc == Mark([Co(0)], [], false);
  }

  /** The race is reachable: two ordinary threads and one awaitable are enough.  Thread 0 starts a
      coroutine that waits, and thread 1 releases before the coroutine's context is saved. */
  lemma RaceIsReachable()
    ensures exists turns ::
      !Run(Init([Common, Common], 1), turns).raced && Step(Run(Init([Common, Common], 1), turns), 1, Go).raced
  {
    var s := Init([Common, Common], 1);
    var t := SpawnCoroutine(s);
    t := StartCoroutine(s, t);
    t := InsertCoroutine(s, t);
    t := ReleaseCoroutine(s, t);
    var turns :| Run(s, turns) == t;
  }
}
