/** When a consumer of `WorkerFutex` sleeps and when it does not: `wait` blocks if there is no work, and it
    returns only for a reason. */
module WorkerSleep {
  import opened Basics
  import opened Futex
  import opened WorkerFutex

  // ---- no work: the consumer sleeps

  /** The flag stays down and nothing is enqueued. */
  ghost predicate Idle(s: State, turns: seq<Turn>)
    decreases |turns|
  {
    !s.f.flag && s.work == 0 && (turns != [] ==> Idle(Step(s, turns[0]), turns[1..]))
  }

  function TurnsOf(turns: seq<Turn>, c: nat): nat {
    if turns == [] then 0 else (if turns[0].Consume? && turns[0].c == c then 1 else 0) + TurnsOf(turns[1..], c)
  }

  /** The consumer's own turns from here to its sleep, while the flag is down and there is no work. */
  function Distance(c: Consumer): nat {
    match c
    case Check => 4
    case Waits(LoadFlag) => 3
    case Waits(TakeFlag) => 3
    case Waits(CountIn) => 2
    case Waits(Sleep) => 1
    case Waits(_) => 0
  }

  lemma OneCloser(s: State, turn: Turn, c: nat)
    requires c < |s.consumers| && 0 < Distance(s.consumers[c]) && !s.f.flag && s.work == 0
    ensures var s' := Step(s, turn);
      && c < |s'.consumers|
      && if turn.Consume? && turn.c == c
         then if Distance(s.consumers[c]) == 1 then s'.consumers[c] == Waits(Asleep)
              else Distance(s'.consumers[c]) == Distance(s.consumers[c]) - 1
         else s'.consumers[c] == s.consumers[c]
  {
  }

  /** A consumer that finds the queue empty and the flag down blocks: as long as nobody enqueues or raises
      the flag, at most four of its own turns bring it to sleep, whatever the others do in between. */
  lemma {:induction false} SleepsWithoutWork(s: State, turns: seq<Turn>, c: nat) returns (k: nat)
    requires c < |s.consumers| && 0 < Distance(s.consumers[c]) <= TurnsOf(turns, c) && Idle(s, turns)
    ensures k <= |turns| && c < |Run(s, turns[..k]).consumers| && Run(s, turns[..k]).consumers[c] == Waits(Asleep)
    decreases |turns|
  {
    var s' := Step(s, turns[0]);
    OneCloser(s, turns[0], c);
    if s'.consumers[c] == Waits(Asleep) {
      k := 1;
      assert Run(s', []) == s';
      assert turns[..1][1..] == [];
    } else {
      var j := SleepsWithoutWork(s', turns[1..], c);
      k := j + 1;
      assert turns[..k][0] == turns[0] && turns[..k][1..] == turns[1..][..j];
    }
  }

  // ---- a wait that returns has a reason

  lemma {:induction false} RunAt(s: State, turns: seq<Turn>, k: nat)
    requires k < |turns|
    ensures Run(s, turns[..k + 1]) == Step(Run(s, turns[..k]), turns[k])
    decreases |turns|
  {
    if k == 0 {
      assert turns[..1][1..] == [] && turns[..0] == [];
      assert Run(s, turns[..1]) == Run(Step(s, turns[0]), []);
    } else {
      RunAt(Step(s, turns[0]), turns[1..], k - 1);
      assert turns[..k + 1][1..] == turns[1..][..k] && turns[..k][1..] == turns[1..][..k - 1];
    }
  }

  ghost predicate IsAt(s: State, c: nat, at: Consumer) {
    c < |s.consumers| && s.consumers[c] == at
  }

  /** The turn rouses consumer `c`: FUTEX_WAIT finds the flag raised, the sleep is interrupted, or some
      producer wakes it. */
  ghost predicate Rouses(s: State, turn: Turn, c: nat) {
    || (turn.Consume? && turn.c == c && IsAt(s, c, Waits(Sleep)) && s.f.flag)
    || (turn == Consume(c, Interrupt) && IsAt(s, c, Waits(Asleep)))
    || (turn.Produce? && turn.ch.Woken? && c in turn.ch.who && IsAt(s, c, Waits(Asleep)) && AboutToWake(s, turn.p))
  }

  ghost predicate AboutToWake(s: State, p: nat) {
    p < |s.producers| && s.producers[p].Notifies? && s.producers[p].n == Wake
  }

  lemma LeavesSleep(s: State, turn: Turn, c: nat)
    requires IsAt(Step(s, turn), c, Waits(CountOut)) && !IsAt(s, c, Waits(CountOut))
    ensures Rouses(s, turn, c)
  {
  }

  /** At step `j` consumer `c` was roused, and it has not looked at the queue since. */
  ghost predicate RousedAt(s: State, turns: seq<Turn>, c: nat, j: nat)
    requires j < |turns|
  {
    && Rouses(Run(s, turns[..j]), turns[j], c)
    && forall i :: j < i <= |turns| ==> IsAt(Run(s, turns[..i]), c, Waits(CountOut))
  }

  lemma {:induction false} HasCause(s: State, turns: seq<Turn>, c: nat) returns (j: nat)
    requires !IsAt(s, c, Waits(CountOut)) && IsAt(Run(s, turns), c, Waits(CountOut))
    ensures j < |turns| && RousedAt(s, turns, c, j)
    decreases |turns|
  {
    var n := |turns| - 1;
    var before := turns[..n];
    assert turns[..n + 1] == turns;
    RunAt(s, turns, n);
    if IsAt(Run(s, before), c, Waits(CountOut)) {
      j := HasCause(s, before, c);
      assert before[..j] == turns[..j];
      forall i | j < i <= |turns|
        ensures IsAt(Run(s, turns[..i]), c, Waits(CountOut))
      {
        assert i <= n ==> turns[..i] == before[..i];
      }
    } else {
      j := n;
      LeavesSleep(Run(s, before), turns[n], c);
    }
  }

  /** The turn takes the raised flag: the flag is down afterwards, so nobody else takes the same one. */
  ghost predicate TakesFlag(s: State, turn: Turn, c: nat) {
    turn.Consume? && turn.c == c && IsAt(s, c, Waits(TakeFlag)) && s.f.flag && !Step(s, turn).f.flag
  }

  lemma EndsByFlagOrSleep(s: State, turn: Turn, c: nat)
    requires Inv(s) && c < |s.consumers| && s.consumers[c].Waits? && IsAt(Step(s, turn), c, Check)
    ensures TakesFlag(s, turn, c) || s.consumers[c] == Waits(CountOut)
  {
  }

  /** In every run a call of `wait` returns only because it took a raised flag, or because FUTEX_WAIT found the
      flag raised, or because it was woken or interrupted in its sleep. */
  lemma WaitHasReason(consumers: nat, producers: nat, turns: seq<Turn>, turn: Turn, c: nat)
    requires 0 < consumers < WORD
    requires var s := Run(Init(consumers, producers), turns);
      c < |s.consumers| && s.consumers[c].Waits? && IsAt(Step(s, turn), c, Check)
    ensures TakesFlag(Run(Init(consumers, producers), turns), turn, c)
        || exists j :: 0 <= j < |turns| && RousedAt(Init(consumers, producers), turns, c, j)
  {
    InsideNone(consumers);
    RunKeeps(Init(consumers, producers), turns);
    EndsByFlagOrSleep(Run(Init(consumers, producers), turns), turn, c);
    if !TakesFlag(Run(Init(consumers, producers), turns), turn, c) {
      var j := HasCause(Init(consumers, producers), turns, c);
    }
  }

  // ---- from the enqueueing to the work

  /** A producer that enqueues while all consumers sleep wakes, by its own turns alone, as many of them as it
      asked for, or all ... */
  lemma EnqueueWakes(s: State, p: nat, amount: nat, count: nat) returns (turns: seq<Turn>, who: set<nat>)
    requires Inv(s) && AllAsleep(s) && p < |s.producers| && s.producers[p] == Enqueue && amount > 0 && count > 0
    ensures forall i :: 0 <= i < |turns| ==> turns[i].Produce? && turns[i].p == p
    ensures who != {} && Wakeable(s, who, count)
    ensures Run(s, turns) == Delivered(s.(work := s.work + amount), p, who)
  {
    var give := Produce(p, Give(amount, count));
    var s1 := Step(s, give);
    StepKeeps(s, give);
    var rest;
    rest, who := DueIsDelivered(s1, p);
    assert Sleepers(s1) == Sleepers(s);
    assert Delivered(s1, p, who) == Delivered(s.(work := s.work + amount), p, who);
    turns := [give] + rest;
    assert turns[1..] == rest;
  }

  /** ... and each of these takes work, if there is some left, in two turns of its own. */
  lemma RousedTakesWork(s: State, c: nat)
    requires IsAt(s, c, Waits(CountOut)) && s.work > 0
    ensures var s1 := Step(s, Consume(c, Go)); var s2 := Step(s1, Consume(c, Go));
      s2.work == s.work - 1 && IsAt(s2, c, Check) && s2.f.flag == s.f.flag
  {
  }
}
