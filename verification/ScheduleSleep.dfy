/** That `do_schedule` gets somewhere: a waiting thread bound task with nothing to run blocks, a release brings
    it back, and an unbound task leaves the processor or goes on. */
module ScheduleSleep {
  import opened Basics
  import opened Futex
  import opened ScheduleLoop

  // ---- calls of wait and yield that nobody disturbs

  function Own4(s: State, a: Choice, b: Choice, c: Choice, d: Choice): State {
    OwnStep(OwnStep(OwnStep(OwnStep(s, a), b), c), d)
  }

  /** A `wait` that is refused changes nothing; one that is accepted goes on to schedule, Waiting and listed;
      a `yield` of a bound task that finds nothing to run changes nothing either. */
  lemma CallsAlone(s: State)
    requires s.pc == User && s.state == Running
    ensures Own4(s, CallWait, Go, Rejected, Go) == s
    ensures OwnStep(OwnStep(OwnStep(s, CallWait), Go), Go) == s.(state := Waiting, linked := true, pc := Schedule(s))
    ensures s.bound ==> OwnStep(OwnStep(OwnStep(s, CallYield), Go), Go) == s
  {
  }

  /** `schedule` of an unbound task: on an ordinary thread a Running native task comes first; then what the
      queue answers; and if that is nothing, the task goes on only if it is Running.  A task that returns is
      finished and schedules. */
  lemma UnboundCallsAlone(s: State, t: State)
    requires !s.bound && s.pc == Schedule(s) && t.pc == User && t.state == Running && !t.bound
    ensures s.common ==> OwnStep(OwnStep(s, Found), Go) == s.(pc := SwitchedAway)
    ensures s.common ==> OwnStep(s, Go) == s.(pc := NextQueue)
    ensures OwnStep(OwnStep(s.(pc := NextQueue), Found), Go) == s.(pc := SwitchedAway)
    ensures s.state != Running ==> OwnStep(OwnStep(s.(pc := NextQueue), Go), Go) == s.(pc := SwitchedAway)
    ensures s.state == Running ==> OwnStep(OwnStep(OwnStep(s.(pc := NextQueue), Go), Go), Go) == s.(pc := User)
    ensures OwnStep(t, Return) == t.(state := Finished, pc := Schedule(t))
  {
  }

  /** A release of the task by one releaser: it is taken out of its list, set Running, and notified if bound. */
  lemma ReleaseAlone(s: State, i: nat)
    requires s.linked && i < |s.releasers| && s.releasers[i] == Idle
    ensures ReleaseStep(ReleaseStep(s, i), i) ==
      s.(linked := false, state := Running, releasers := s.releasers[i := if s.bound then Notifies(TestFlag) else Idle])
  {
    assert s.releasers[i := Mark][i := Idle] == s.releasers[i := Idle];
    assert s.releasers[i := Mark][i := Notifies(TestFlag)] == s.releasers[i := Notifies(TestFlag)];
  }

  // ---- a bound task with nothing to run blocks

  /** No release comes, nothing is found, and no notification raises the flag; a flag left raised by an earlier
      release may be there. */
  ghost predicate Undisturbed(s: State, turn: Turn) {
    match turn
    case Own(ch) => ch != Found
    case Release(_) => Step(s, turn).state == s.state && Step(s, turn).f.flag == s.f.flag
  }

  ghost predicate Quiet(s: State, turns: seq<Turn>)
    decreases |turns|
  {
    turns != [] ==> Undisturbed(s, turns[0]) && Quiet(Step(s, turns[0]), turns[1..])
  }

  /** The task's own turns from here to its sleep.  A raised flag costs one more round. */
  function ToSleep(pc: Pc, flag: bool): nat {
    match pc
    case NextQueue => if flag then 11 else 6
    case NoNext => if flag then 10 else 5
    case IsWaiting => if flag then 9 else 4
    case InWait(w) => WaitToSleep(w, flag)
    case _ => 0
  }

  function WaitToSleep(w: Wait, flag: bool): nat {
    match w
    case LoadFlag => if flag then 8 else 3
    case TakeFlag => if flag then 7 else 3
    case CountIn => if flag then 14 else 2
    case Sleep => if flag then 13 else 1
    case CountOut => if flag then 12 else 7
    case _ => 0
  }

  ghost predicate Looking(s: State) {
    s.bound && s.state == Waiting && ToSleep(s.pc, s.f.flag) > 0
  }

  lemma OneCloser(s: State, turn: Turn)
    requires Looking(s) && Undisturbed(s, turn)
    ensures var s' := Step(s, turn);
      if turn.Own? then
        s'.pc == InWait(Asleep) || (Looking(s') && ToSleep(s'.pc, s'.f.flag) < ToSleep(s.pc, s.f.flag))
      else Looking(s') && s'.pc == s.pc && s'.f.flag == s.f.flag
  {
    if turn.Own? && s.pc.InWait? {
      WaitCloser(s, turn.ch);
    }
  }

  lemma WaitCloser(s: State, ch: Choice)
    requires Looking(s) && s.pc.InWait?
    ensures var s' := OwnStep(s, ch);
      s'.pc == InWait(Asleep) || (Looking(s') && ToSleep(s'.pc, s'.f.flag) < ToSleep(s.pc, s.f.flag))
  {
  }

  /** A thread bound task that waits and looks for something to run blocks on its futex: within 14 turns of
      its own, whatever flag earlier releases have left, unless something is found or a release comes. */
  lemma {:induction false} WaitBlocks(s: State, turns: seq<Turn>) returns (k: nat)
    requires Looking(s) && Quiet(s, turns) && OwnTurns(turns) >= ToSleep(s.pc, s.f.flag)
    ensures k <= |turns| && Run(s, turns[..k]).pc == InWait(Asleep)
    ensures ToSleep(s.pc, s.f.flag) <= 14
    decreases |turns|
  {
    OneCloser(s, turns[0]);
    var s' := Step(s, turns[0]);
    if s'.pc == InWait(Asleep) {
      k := 1;
      assert turns[..1][1..] == [];
      assert Run(s', []) == s';
    } else {
      var j := WaitBlocks(s', turns[1..]);
      k := j + 1;
      assert turns[..k][0] == turns[0] && turns[..k][1..] == turns[1..][..j];
    }
  }

  // ---- and a release brings it back

  /** From the compare-exchange of a release on: the steps of that releaser and of the task are enough. */
  lemma ReleaseResumes(s: State, i: nat) returns (turns: seq<Turn>)
    requires BoundInv(s) && s.pc == InWait(Asleep) && s.linked && i < |s.releasers| && s.releasers[i] == Idle
    ensures Run(s, turns).pc == User && Run(s, turns).state == Running && |turns| >= 2
    ensures forall k :: 0 <= k < |turns| ==> turns[k] == Release(i) || turns[k] == Own(Go)
  {
    MarkKeeps(s, i);
    var s1 := Step(s, Release(i));
    MarkKeeps(s1, i);
    var s2 := Step(s1, Release(i));
    var rest := ReleaseIsDelivered(s2, i);
    turns := [Release(i)] + ([Release(i)] + rest);
    assert turns[1..] == [Release(i)] + rest && turns[1..][1..] == rest;
    assert Run(s1, turns[1..]) == Run(s2, rest);
  }

  // ---- an unbound task leaves or goes on

  /** The reads between a call of `schedule` and its end. */
  function ToEnd(pc: Pc): nat {
    match pc
    case NextNative => 4
    case NextQueue => 3
    case CurrentState(_) => 2
    case NoNext => 1
    case _ => 0
  }

  /** `schedule` of an unbound task that one runner executes ends within four of its own steps, whatever the
      releasers do: with the jump to another task, or back in the task's code, and then it is Running.  So a
      task that waits leaves the processor. */
  lemma ScheduleEnds(common: bool, releasers: nat, turns: seq<Turn>, more: seq<Turn>) returns (k: nat)
    requires ToEnd(Run(Init(false, common, releasers), turns).pc) > 0 && OwnTurns(more) >= 4
    ensures var s := Run(Init(false, common, releasers), turns);
      && k <= |more|
      && var e := Run(s, more[..k]); e.pc == SwitchedAway || (e.pc == User && e.state == Running)
  {
    UnboundRun(Init(false, common, releasers), turns);
    k := EndsSoon(Run(Init(false, common, releasers), turns), more);
  }

  lemma {:induction false} EndsSoon(s: State, turns: seq<Turn>) returns (k: nat)
    requires UnboundInv(s) && Unnotified(s) && 0 < ToEnd(s.pc) <= OwnTurns(turns)
    ensures k <= |turns| && var e := Run(s, turns[..k]); e.pc == SwitchedAway || (e.pc == User && e.state == Running)
    decreases |turns|
  {
    var s' := Step(s, turns[0]);
    UnboundStep(s, turns[0]);
    if ToEnd(s'.pc) == 0 {
      k := 1;
      assert turns[..1][1..] == [];
      assert Run(s', []) == s';
    } else {
      var j := EndsSoon(s', turns[1..]);
      k := j + 1;
      assert turns[..k][0] == turns[0] && turns[..k][1..] == turns[1..][..j];
    }
  }

  lemma UnboundStep(s: State, turn: Turn)
    requires UnboundInv(s) && Unnotified(s) && ToEnd(s.pc) > 0
    ensures var s' := Step(s, turn);
      && UnboundInv(s') && Unnotified(s')
      && (if turn.Own? then ToEnd(s'.pc) < ToEnd(s.pc) else s'.pc == s.pc)
      && (ToEnd(s'.pc) == 0 ==> s'.pc == SwitchedAway || (s'.pc == User && s'.state == Running))
  {
    UnboundRun(s, [turn]);
    assert Run(s, [turn]) == Step(s, turn);
  }
}
