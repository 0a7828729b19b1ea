/** One task calling `do_schedule` over and over, against any number of releasers: the futex handshake
    of a thread bound task, and the several reads of the state of an unbound one. */
module ScheduleLoop {
  import opened Basics
  import opened Futex

  /** The task's side. */
  datatype Pc =
    | User                          // the task's own code
    | SetWaiting                    // m_state = Waiting
    | Insert                        // compare_exchange on the awaitable
    | Undo                          // m_state = Running
    | NextNative                    // unbound on an ordinary thread: read the native task's state
    | NextQueue                     // get_item
    | CurrentState(found: bool)     // unbound: read the state
    | NoNext                        // read the state: Running?
    | IsWaiting                     // read the state: Waiting?
    | InWait(w: Wait)               // native_futex.wait()
    | SwitchedAway                  // switch_to was reached; another task has the thread

  /** A releaser holds the task from its compare-exchange to the end of its `notify`. */
  datatype Releaser = Idle | Mark | Notifies(n: Notify)

  /** `linked`: the task is in a wait list.  `bound` and `common` never change. */
  datatype State = State(
    bound: bool, common: bool, state: TaskState, linked: bool, f: Futex, pc: Pc, releasers: seq<Releaser>)

  datatype Choice = Go | CallWait | CallYield | Return | Found | Rejected | Interrupt

  datatype Turn = Own(ch: Choice) | Release(i: nat)

  function Schedule(s: State): Pc {
    if !s.bound && s.common then NextNative else NextQueue
  }

  function OwnStep(s: State, ch: Choice): State {
    match s.pc
    case User =>
      if ch == CallWait && s.state == Running then s.(pc := SetWaiting)
      else if ch == CallYield then s.(pc := Schedule(s))
      else if ch == Return && !s.bound && s.state == Running then s.(state := Finished, pc := Schedule(s))
      else s
    case SetWaiting => s.(state := Waiting, pc := Insert)
    case Insert => if ch == Rejected then s.(pc := Undo) else s.(linked := true, pc := Schedule(s))
    case Undo => s.(state := Running, pc := User)
    case NextNative => s.(pc := if ch == Found then CurrentState(true) else NextQueue)
    case NextQueue =>
      if s.bound then s.(pc := if ch == Found then SwitchedAway else NoNext)
      else s.(pc := CurrentState(ch == Found))
    case CurrentState(found) =>
      s.(pc := if found || s.state != Running then SwitchedAway else NoNext)
    case NoNext => s.(pc := if s.state == Running then User else IsWaiting)
    case IsWaiting => s.(pc := if s.state == Waiting then InWait(LoadFlag) else Schedule(s))
    case InWait(w) =>
      if w == Asleep then (if ch == Interrupt then s.(pc := InWait(CountOut)) else s)
      else
        var (f, w') := WaitStep(s.f, w);
        s.(f := f, pc := if w' == Left then Schedule(s) else InWait(w'))
    case SwitchedAway =>
      // a bound task can be switched back to while it still waits; an unbound one only when it runs
      if s.bound || s.state == Running then s.(pc := User) else s
  }

  /** A stale notification, left from an earlier release, is a releaser still in `Notifies`. */
  function ReleaseStep(s: State, i: nat): State
    requires i < |s.releasers|
  {
    match s.releasers[i]
    case Idle => if s.linked then s.(linked := false, releasers := s.releasers[i := Mark]) else s
    case Mark => s.(state := Running, releasers := s.releasers[i := if s.bound then Notifies(TestFlag) else Idle])
    case Notifies(n) =>
      var (f, n') := NotifyStep(s.f, n);
      s.(f := f, releasers := s.releasers[i := if n' == Done then Idle else Notifies(n')],
         pc := if n == Wake && s.pc == InWait(Asleep) then InWait(CountOut) else s.pc)
  }

  function Step(s: State, turn: Turn): State {
    match turn
    case Own(ch) => OwnStep(s, ch)
    case Release(i) => if i < |s.releasers| then ReleaseStep(s, i) else s
  }

  function Init(bound: bool, common: bool, releasers: nat): State {
    State(bound, common, Running, false, FRESH, User, seq(releasers, _ => Idle))
  }

  function Run(s: State, turns: seq<Turn>): State
    decreases |turns|
  {
    if turns == [] then s else Run(Step(s, turns[0]), turns[1..])
  }

  // ---- thread bound tasks

  ghost predicate SomeStores(s: State) {
    exists i: nat :: i < |s.releasers| && s.releasers[i].Notifies? && Storing(s.releasers[i].n)
  }

  ghost predicate SomeWakes(s: State) {
    exists i: nat :: i < |s.releasers| && s.releasers[i].Notifies? && Waking(s.releasers[i].n)
  }

  /** At most one releaser holds the task, and only while the task waits and is not in a list. */
  ghost predicate OneHolder(s: State) {
    && (s.linked ==> s.state == Waiting && forall i :: 0 <= i < |s.releasers| ==> s.releasers[i] != Mark)
    && (forall i :: 0 <= i < |s.releasers| && s.releasers[i] == Mark ==> s.state == Waiting)
    && (forall i, j :: 0 <= i < j < |s.releasers| && s.releasers[i] == Mark ==> s.releasers[j] != Mark)
    && (s.pc in {SetWaiting, Insert, Undo} ==>
          !s.linked && forall i :: 0 <= i < |s.releasers| ==> s.releasers[i] != Mark)
    && (s.pc == SetWaiting ==> s.state == Running)
    && (s.pc in {Insert, Undo} ==> s.state == Waiting)
  }

  /** A task that was marked Running after it decided to wait is being looked after. */
  ghost predicate Covered(s: State) {
    s.state == Running && s.pc.InWait? && s.pc.w != CountOut ==>
      SomeStores(s) || (s.f.flag && (s.pc.w == Asleep ==> SomeWakes(s)))
  }

  ghost predicate BoundInv(s: State) {
    && s.bound && s.state != Finished && OneHolder(s) && Covered(s)
    && s.f.counter == (if s.pc.InWait? && Counted(s.pc.w) then 1 else 0)
    && s.pc != InWait(Left) && !s.pc.NextNative? && !s.pc.CurrentState?
    && forall i :: 0 <= i < |s.releasers| ==> s.releasers[i] != Notifies(Done)
  }

  lemma WaitKeeps(s: State, ch: Choice)
    requires BoundInv(s) && s.pc.InWait?
    ensures BoundInv(OwnStep(s, ch))
  {
  }

  lemma InsertKeeps(s: State, ch: Choice)
    requires BoundInv(s) && (s.pc.SetWaiting? || s.pc.Insert? || s.pc.Undo?)
    ensures BoundInv(OwnStep(s, ch))
  {
  }

  lemma LoopKeeps(s: State, ch: Choice)
    requires BoundInv(s) && (s.pc.NextQueue? || s.pc.NoNext? || s.pc.IsWaiting?)
    ensures BoundInv(OwnStep(s, ch))
  {
  }

  lemma UserKeeps(s: State, ch: Choice)
    requires BoundInv(s) && (s.pc.User? || s.pc.SwitchedAway?)
    ensures BoundInv(OwnStep(s, ch))
  {
  }

  lemma OwnKeeps(s: State, ch: Choice)
    requires BoundInv(s)
    ensures BoundInv(OwnStep(s, ch))
  {
    if s.pc.InWait? {
      WaitKeeps(s, ch);
    } else if s.pc.SetWaiting? || s.pc.Insert? || s.pc.Undo? {
      InsertKeeps(s, ch);
    } else if s.pc.User? || s.pc.SwitchedAway? {
      UserKeeps(s, ch);
    } else {
      LoopKeeps(s, ch);
    }
  }

  lemma MarkKeeps(s: State, i: nat)
    requires BoundInv(s) && i < |s.releasers| && !s.releasers[i].Notifies?
    ensures BoundInv(ReleaseStep(s, i))
  {
    var s' := ReleaseStep(s, i);
    if s.releasers[i] == Mark {
      assert s'.releasers[i] == Notifies(TestFlag);
      assert SomeStores(s');
    }
  }

  lemma NotifyCovers(s: State, i: nat)
    requires BoundInv(s) && i < |s.releasers| && s.releasers[i].Notifies?
    ensures Covered(ReleaseStep(s, i))
  {
    var s', n := ReleaseStep(s, i), s.releasers[i].n;
    if n == TestFlag || n == RaiseFlag {
      assert s'.releasers[i].Notifies?;
      assert SomeStores(s') || SomeWakes(s');
    } else if SomeStores(s) {
      var j: nat :| j < |s.releasers| && s.releasers[j].Notifies? && Storing(s.releasers[j].n);
      assert s'.releasers[j] == s.releasers[j];
    } else if n == ReadCount && s.pc == InWait(Asleep) {
      assert s'.releasers[i] == Notifies(Wake);
    }
  }

  lemma NotifyKeeps(s: State, i: nat)
    requires BoundInv(s) && i < |s.releasers| && s.releasers[i].Notifies?
    ensures BoundInv(ReleaseStep(s, i))
  {
    NotifyCovers(s, i);
  }

  lemma {:induction false} BoundRun(s: State, turns: seq<Turn>)
    requires BoundInv(s)
    ensures BoundInv(Run(s, turns))
    decreases |turns|
  {
    if turns != [] {
      match turns[0] {
        case Own(ch) => OwnKeeps(s, ch);
        case Release(i) =>
          if i < |s.releasers| {
            if s.releasers[i].Notifies? { NotifyKeeps(s, i); } else { MarkKeeps(s, i); }
          }
      }
      BoundRun(Step(s, turns[0]), turns[1..]);
    }
  }

  /** Releaser `i` has a store or a wake due. */
  ghost predicate Due(s: State, i: nat) {
    i < |s.releasers| && s.releasers[i].Notifies?
    && (Storing(s.releasers[i].n) || (s.f.flag && Waking(s.releasers[i].n)))
  }

  /** A thread bound task that is asleep on its futex although a release has marked it Running always
      has a releaser with a wake-up still due, over every interleaving of its retry loop with any
      number of releasers, stale notifications of earlier releases included. */
  lemma NoLostRelease(common: bool, releasers: nat, turns: seq<Turn>)
    requires var s := Run(Init(true, common, releasers), turns); s.pc == InWait(Asleep) && s.state == Running
    ensures exists i :: Due(Run(Init(true, common, releasers), turns), i)
  {
    BoundRun(Init(true, common, releasers), turns);
    var s := Run(Init(true, common, releasers), turns);
    var i: nat :| i < |s.releasers| && s.releasers[i].Notifies?
        && (Storing(s.releasers[i].n) || (s.f.flag && Waking(s.releasers[i].n)));
    assert Due(s, i);
  }

  /** ... and it comes: that releaser's own steps and then the task's own are enough for `schedule` to
      return to the task; nobody else has to move and no sleep has to be interrupted. */
  lemma ReleaseIsDelivered(s: State, i: nat) returns (turns: seq<Turn>)
    requires BoundInv(s) && s.pc == InWait(Asleep) && s.state == Running && Due(s, i)
    ensures Run(s, turns).pc == User && Run(s, turns).state == Running
    ensures forall k :: 0 <= k < |turns| ==> turns[k] == Release(i) || turns[k] == Own(Go)
    decreases match s.releasers[i].n case TestFlag => 3 case RaiseFlag => 2 case ReadCount => 1 case _ => 0
  {
    var s' := Step(s, Release(i));
    NotifyKeeps(s, i);
    var rest;
    if s.releasers[i].n == Wake {
      rest := [Own(Go), Own(Go), Own(Go)];
      var s1 := Step(s', Own(Go));
      var s2 := Step(s1, Own(Go));
      var s3 := Step(s2, Own(Go));
      assert rest[1..] == [Own(Go), Own(Go)] && rest[1..][1..] == [Own(Go)];
      assert Run(s2, [Own(Go)]) == Run(s3, []);
      assert Run(s1, rest[1..]) == Run(s2, [Own(Go)]);
      assert Run(s', rest) == s3;
    } else {
      rest := ReleaseIsDelivered(s', i);
    }
    turns := [Release(i)] + rest;
    assert turns[1..] == rest;
  }

  // ---- when a bound task's wait returns

  /** `wait` has returned and the task runs its own code, though no release has marked it. */
  ghost predicate Early(s: State) {
    s.pc == User && s.state == Waiting
  }

  /** Step `k` of the run is an answer of `get_item` with a task, given to a task that still waits. */
  ghost predicate FindsAt(s: State, turns: seq<Turn>, k: nat)
    requires k < |turns|
  {
    turns[k] == Own(Found) && Run(s, turns[..k]).pc == NextQueue && Run(s, turns[..k]).state == Waiting
  }

  ghost predicate FindsWhileWaiting(s: State, turns: seq<Turn>) {
    exists k :: 0 <= k < |turns| && FindsAt(s, turns, k)
  }

  /** The only step that ends a call early is the return from another task. */
  lemma EarlyStepExactly(s: State, turn: Turn)
    requires BoundInv(s) && s.pc != User
    ensures Early(Step(s, turn)) <==> turn.Own? && s.pc == SwitchedAway && s.state == Waiting
  {
  }

  /** Whether the call can return early is settled by the answer of `get_item`. */
  lemma AnswerDecides(s: State, ch: Choice)
    requires BoundInv(s) && s.pc == NextQueue
    ensures Early(Step(Step(s, Own(ch)), Own(Go))) <==> ch == Found && s.state == Waiting
  {
  }

  lemma {:induction false} RunSnoc(s: State, turns: seq<Turn>, last: Turn)
    ensures Run(s, turns + [last]) == Step(Run(s, turns), last)
    decreases |turns|
  {
    if turns == [] {
      assert turns + [last] == [last];
      assert Run(s, [last]) == Run(Step(s, last), []);
    } else {
      assert (turns + [last])[1..] == turns[1..] + [last];
      RunSnoc(Step(s, turns[0]), turns[1..], last);
    }
  }

  /** While no answer came to a waiting task, the task is Running in its own code and when it has
      switched away. */
  lemma {:induction false} RunsUntilFound(s: State, turns: seq<Turn>)
    requires BoundInv(s) && (s.pc == User || s.pc == SwitchedAway ==> s.state == Running)
    requires !FindsWhileWaiting(s, turns)
    ensures var e := Run(s, turns); e.pc == User || e.pc == SwitchedAway ==> e.state == Running
    decreases |turns|
  {
    if turns != [] {
      var n := |turns| - 1;
      var before, last := turns[..n], turns[n];
      forall k | 0 <= k < n
        ensures !FindsAt(s, before, k)
      {
        assert before[..k] == turns[..k];
        assert !FindsAt(s, turns, k);
      }
      RunsUntilFound(s, before);
      BoundRun(s, before);
      assert !FindsAt(s, turns, n);
      RunSnoc(s, before, last);
      assert turns == before + [last];
    }
  }

  /** `wait` of a thread bound task comes back to the task's code only after a release has marked it
      Running, in every run in which `get_item` never answered a task while this one was waiting. */
  lemma WaitReturnsReleased(common: bool, releasers: nat, turns: seq<Turn>)
    requires !FindsWhileWaiting(Init(true, common, releasers), turns)
    ensures var s := Run(Init(true, common, releasers), turns); s.pc == User ==> s.state == Running
  {
    RunsUntilFound(Init(true, common, releasers), turns);
  }

  /** At some moment of the run the task is one step of its own away from an early return. */
  ghost predicate NearlyEarly(s: State, turns: seq<Turn>) {
    exists k :: 0 <= k <= |turns| && EarlyAfter(s, turns[..k])
  }

  ghost predicate EarlyAfter(s: State, turns: seq<Turn>) {
    Early(Run(s, turns + [Own(Go)]))
  }

  /** Exactly then: a run leads up to an early return if and only if in it `get_item` answered a task
      while this task was still Waiting. */
  lemma WaitReturnsEarlyExactly(common: bool, releasers: nat, turns: seq<Turn>)
    ensures var s := Init(true, common, releasers); NearlyEarly(s, turns) <==> FindsWhileWaiting(s, turns)
  {
    var s := Init(true, common, releasers);
    if NearlyEarly(s, turns) {
      var k :| 0 <= k <= |turns| && EarlyAfter(s, turns[..k]);
      FoundBefore(s, turns, k);
    }
    if FindsWhileWaiting(s, turns) {
      var k :| 0 <= k < |turns| && FindsAt(s, turns, k);
      var found := turns[..k] + [Own(Found)];
      assert turns[..k + 1] == found;
      BoundRun(s, turns[..k]);
      RunSnoc(s, turns[..k], Own(Found));
      RunSnoc(s, found, Own(Go));
      AnswerDecides(Run(s, turns[..k]), Found);
      assert EarlyAfter(s, turns[..k + 1]);
    }
  }

  lemma FoundBefore(s: State, turns: seq<Turn>, k: nat)
    requires BoundInv(s) && s.pc == User && s.state == Running
    requires k <= |turns| && EarlyAfter(s, turns[..k])
    ensures FindsWhileWaiting(s, turns)
  {
    var more := turns[..k] + [Own(Go)];
    if !FindsWhileWaiting(s, more) {
      RunsUntilFound(s, more);
      assert false;
    }
    var j :| 0 <= j < |more| && FindsAt(s, more, j);
    assert more[..j] == turns[..j];
    assert FindsAt(s, turns, j);
  }

  // ---- unbound tasks

  ghost predicate UnboundInv(s: State) {
    && !s.bound
    && s.pc != IsWaiting && !s.pc.InWait?
    && (s.pc == NoNext || s.pc == SetWaiting || s.pc == User ==> s.state == Running)
    && (s.state == Finished ==> s.pc.NextNative? || s.pc.NextQueue? || s.pc.CurrentState? || s.pc == SwitchedAway)
    && OneHolder(s)
  }

  lemma UnboundOwn(s: State, ch: Choice)
    requires UnboundInv(s)
    ensures UnboundInv(OwnStep(s, ch))
  {
  }

  lemma UnboundRelease(s: State, i: nat)
    requires UnboundInv(s) && i < |s.releasers| && !s.releasers[i].Notifies?
    ensures UnboundInv(ReleaseStep(s, i))
  {
  }

  ghost predicate Unnotified(s: State) {
    forall i :: 0 <= i < |s.releasers| ==> !s.releasers[i].Notifies?
  }

  lemma {:induction false} UnboundRun(s: State, turns: seq<Turn>)
    requires UnboundInv(s) && Unnotified(s)
    ensures UnboundInv(Run(s, turns)) && Unnotified(Run(s, turns))
    decreases |turns|
  {
    if turns != [] {
      match turns[0] {
        case Own(ch) => UnboundOwn(s, ch);
        case Release(i) => if i < |s.releasers| { UnboundRelease(s, i); }
      }
      UnboundRun(Step(s, turns[0]), turns[1..]);
    }
  }

  /** An unbound task that one runner executes at a time never blocks on the futex and never gets as
      far as asking whether to, although a release may turn its state from Waiting to Running between
      any two of the reads.  `HandoffBlocking` says when there is one runner at a time. */
  lemma UnboundNeverBlocks(common: bool, releasers: nat, turns: seq<Turn>)
    ensures var pc := Run(Init(false, common, releasers), turns).pc; !pc.InWait? && pc != IsWaiting
  {
    UnboundRun(Init(false, common, releasers), turns);
  }

  function OwnTurns(turns: seq<Turn>): nat {
    if turns == [] then 0 else (if turns[0].Own? then 1 else 0) + OwnTurns(turns[1..])
  }

  /** The reads between a call of `schedule` and the jump. */
  function Distance(pc: Pc): nat {
    match pc
    case NextNative => 3
    case NextQueue => 2
    case CurrentState(_) => 1
    case _ => 0
  }

  lemma {:induction false} Approaches(s: State, turns: seq<Turn>)
    requires UnboundInv(s) && Unnotified(s) && s.state == Finished && OwnTurns(turns) >= Distance(s.pc)
    ensures Run(s, turns).pc == SwitchedAway && Run(s, turns).state == Finished
    decreases |turns|
  {
    if turns != [] {
      var s' := Step(s, turns[0]);
      assert s'.state == Finished;
      assert Distance(s'.pc) <= Distance(s.pc) - if turns[0].Own? && Distance(s.pc) > 0 then 1 else 0;
      UnboundRun(s, [turns[0]]);
      assert Run(s, [turns[0]]) == s';
      Approaches(s', turns[1..]);
    }
  }

  /** A finished task that one runner executes at a time and that calls `schedule` reaches the jump
      within three of its own steps, whatever the releasers do. */
  lemma FinishedSwitchesAway(common: bool, releasers: nat, turns: seq<Turn>, more: seq<Turn>)
    requires Run(Init(false, common, releasers), turns).state == Finished && OwnTurns(more) >= 3
    ensures Run(Run(Init(false, common, releasers), turns), more).pc == SwitchedAway
  {
    UnboundRun(Init(false, common, releasers), turns);
    Approaches(Run(Init(false, common, releasers), turns), more);
  }
}
