/** Whole calls of `insert_current_task_in_waitlist` and `release`: that a release which has returned has
    finished the awaitable, and what each call does when no other thread steps in. */
module AwaitableCalls {
  import opened Basics
  import opened Links
  import opened AwaitableMachine

  // ---- a release that has returned

  predicate Releasing(pc: Pc) {
    pc.ReleaseLoad? || pc.ReleaseCas?
  }

  /** Step `k` is the last step of a call of `release`. */
  ghost predicate ReleaseEndsAt(n: nat, next: Heap, turns: seq<Turn>, k: nat)
    requires k < |turns|
  {
    var s, s', t := Run(Init(n, next), turns[..k]), Run(Init(n, next), turns[..k + 1]), turns[k].t;
    t < |s.threads| && t < |s'.threads| && Releasing(s.threads[t]) && s'.threads[t] == Idle
  }

  /** A step of a release goes on with the release, with the pair that is there now, or ends it with the
      awaitable finished. */
  lemma ReleaseGoesOn(s: State, t: nat, ch: Choice)
    requires ThreadsOk(s) && t < |s.threads| && Releasing(s.threads[t])
    ensures var r := Step(s, t, ch);
      && t < |r.s.threads| && (Releasing(r.s.threads[t]) || r.s.threads[t] == Idle)
      && (r.s.threads[t] == Idle <==> r.e.Detaches? || r.e.AlreadyFinished?)
      && (r.s.threads[t] == Idle ==> r.s.data.finished)
      && (Releasing(r.s.threads[t]) ==> r.s == Moved(s, t, ReleaseCas(s.data)))
  {
    assert ThreadOk(s, t);
  }

  lemma RunAt(s: State, turns: seq<Turn>, k: nat)
    requires k < |turns|
    ensures Run(s, turns[..k + 1]) == Step(Run(s, turns[..k]), turns[k].t, turns[k].ch).s
  {
    var upto := turns[..k + 1];
    assert upto[..|upto| - 1] == turns[..k] && upto[|upto| - 1] == turns[k];
  }

  /** In every run, a call of `release` that returns leaves the pair (null, finished) for good, whether or not
      anybody waited and whichever call of `release` did the work. */
  lemma ReleaseFinishes(n: nat, next: Heap, turns: seq<Turn>, k: nat, j: nat)
    requires k < |turns| && ReleaseEndsAt(n, next, turns, k) && k < j <= |turns|
    ensures Run(Init(n, next), turns[..j]).data == Data(Null, true)
  {
    var s := Run(Init(n, next), turns[..k]);
    RunKeeps(n, next, turns[..k]);
    RunAt(Init(n, next), turns, k);
    ReleaseGoesOn(s, turns[k].t, turns[k].ch);
    assert FinishedAt(n, next, turns, k + 1);
    FinishedLater(n, next, turns, k + 1, j);
  }

  /** ... and every insertion that begins after it is refused at its first look: the task is left as it was, and
      `wait` returns at once. */
  lemma RefusedAfterRelease(n: nat, next: Heap, turns: seq<Turn>, k: nat, j: nat, x: Item)
    requires k < |turns| && ReleaseEndsAt(n, next, turns, k) && k < j < |turns|
    requires var s, t := Run(Init(n, next), turns[..j]), turns[j].t; t < |s.threads| && s.threads[t] == InsertLoad(x)
    ensures var s, t := Run(Init(n, next), turns[..j]), turns[j].t;
      var r := Step(s, t, turns[j].ch);
      && r.e == Rejected(x) && r.s.threads[t] == Idle && PlaceOf(r.s, x) == Free
      && r.s.data == s.data && r.s.next == s.next && r.s.state == s.state
  {
    ReleaseFinishes(n, next, turns, k, j);
  }

  /** An insertion of `x` goes on with `x`, or answers: true or false, and nothing else ends it. */
  lemma InsertGoesOn(s: State, t: nat, ch: Choice, x: Item)
    requires ThreadsOk(s) && t < |s.threads| && Subject(s.threads[t]) == Ref(x)
    ensures var r := Step(s, t, ch);
      if r.e == Silent then Subject(r.s.threads[t]) == Ref(x) && PlaceOf(r.s, x) == Inserting(t)
      else r.e in {Accepted(x), Rejected(x)} && r.s.threads[t] == Idle && (r.e == Accepted(x) ==> !s.data.finished)
    // an exchange that fails starts over with the head that is there, or gives up if it is finished
    ensures s.threads[t].InsertCas? && Step(s, t, ch).e == Silent ==>
      Step(s, t, ch).s == Moved(s, t, if s.data.finished then UndoState(x) else InsertLink(x, s.data))
  {
    assert ThreadOk(s, t);
  }

  // ---- calls that nobody interrupts

  /** Thread `t` goes on for `k` steps. */
  function GoOn(s: State, t: nat, k: nat): State
    decreases k
  {
    if k == 0 then s else GoOn(Step(s, t, Go).s, t, k - 1)
  }

  lemma GoThrice(s: State, t: nat, s1: State, s2: State, s3: State)
    requires Step(s, t, Go).s == s1 && Step(s1, t, Go).s == s2 && Step(s2, t, Go).s == s3
    ensures GoOn(s, t, 3) == s3
  {
    assert GoOn(s2, t, 1) == s3;
    assert GoOn(s1, t, 2) == s3;
  }

  /** An open awaitable takes the task: it becomes the head, its link the old head, its state Waiting, and
      nothing else changes. */
  lemma InsertAlone(s: State, t: nat, x: Item)
    requires t < |s.threads| && s.threads[t] == InsertLoad(x) && !s.data.finished
    ensures var d := Step(GoOn(s, t, 3), t, Go);
      && d.e == Accepted(x)
      && d.s == State(Data(Ref(x), false), s.next[x := s.data.head], s.state[x := Waiting],
                      s.place[x := Listed], s.threads[t := Idle])
  {
    var s1 := Step(s, t, Go).s;
    var s2 := Step(s1, t, Go).s;
    var s3 := Step(s2, t, Go).s;
    GoThrice(s, t, s1, s2, s3);
    assert s3 == State(s.data, s.next[x := s.data.head], s.state[x := Waiting], s.place,
        s.threads[t := InsertCas(x, s.data)]);
  }

  /** A release takes the whole list and finishes the awaitable in two steps; the second one does nothing. */
  lemma ReleaseAlone(s: State, t: nat)
    requires t < |s.threads| && s.threads[t] == ReleaseLoad
    ensures var d := Step(s, t, Go);
      if s.data.finished then d.e == AlreadyFinished && d.s == Moved(s, t, Idle)
      else
        var d2 := Step(d.s, t, Go);
        && d2.e == Detaches(s.data.head) && d2.s.data == Data(Null, true) && d2.s.threads[t] == Idle
        && d2.s.next == s.next && d2.s.state == s.state
  {
  }

  /** A call begins with the load. */
  lemma CallsBegin(s: State, t: nat, x: Item)
    requires t < |s.threads| && s.threads[t] == Idle
    ensures Step(s, t, CallRelease).s == Moved(s, t, ReleaseLoad)
    ensures PlaceOf(s, x) == Free ==>
      Step(s, t, CallInsert(x)).s == Moved(s.(place := s.place[x := Inserting(t)]), t, InsertLoad(x))
  {
  }
}
