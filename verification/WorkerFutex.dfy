/** The usage contract of `Futex`: any number of consumers ("check the queue, else wait") and of
    producers ("enqueue, then notify") on one futex. */
module WorkerFutex {
  import opened Basics
  import opened Futex

  /** A consumer is about to check the queue, or in `wait()`. */
  datatype Consumer = Check | Waits(w: Wait)

  /** A producer is about to enqueue, or in `notify( count )`. */
  datatype Producer = Enqueue | Notifies(n: Notify, count: nat)

  datatype State = State(f: Futex, work: nat, consumers: seq<Consumer>, producers: seq<Producer>)

  /** `Give` is the producer's choice of how much to enqueue and how many to wake; `Woken` is the
      kernel's choice of whom FUTEX_WAKE wakes; `Interrupt` ends a sleep without a wake-up. */
  datatype Choice = Go | Give(amount: nat, count: nat) | Woken(who: set<nat>) | Interrupt

  datatype Turn = Consume(c: nat, ch: Choice) | Produce(p: nat, ch: Choice)

  function Sleepers(s: State): set<nat> {
    set c: nat | c < |s.consumers| && s.consumers[c] == Waits(Asleep)
  }

  /** FUTEX_WAKE( count ) may wake exactly `who`: sleepers, `count` of them or else all there are. */
  predicate Wakeable(s: State, who: set<nat>, count: nat) {
    who <= Sleepers(s) && |who| <= count && (|who| == count || who == Sleepers(s))
  }

  function Rouse(cs: seq<Consumer>, who: set<nat>): seq<Consumer> {
    seq(|cs|, c requires 0 <= c < |cs| => if c in who then Waits(CountOut) else cs[c])
  }

  function ConsumerStep(s: State, c: nat, ch: Choice): State
    requires c < |s.consumers|
  {
    match s.consumers[c]
    case Check =>
      if s.work > 0 then s.(work := s.work - 1)
      else s.(consumers := s.consumers[c := Waits(LoadFlag)])
    case Waits(w) =>
      if w == Asleep then
        (if ch == Interrupt then s.(consumers := s.consumers[c := Waits(CountOut)]) else s)
      else
        var (f, w') := WaitStep(s.f, w);
        s.(f := f, consumers := s.consumers[c := if w' == Left then Check else Waits(w')])
  }

  function ProducerStep(s: State, p: nat, ch: Choice): State
    requires p < |s.producers|
  {
    match s.producers[p]
    case Enqueue =>
      if ch.Give? && ch.amount > 0 && ch.count > 0
      then s.(work := s.work + ch.amount, producers := s.producers[p := Notifies(TestFlag, ch.count)])
      else s
    case Notifies(n, count) =>
      if n == Wake then
        (if ch.Woken? && Wakeable(s, ch.who, count)
         then s.(consumers := Rouse(s.consumers, ch.who), producers := s.producers[p := Enqueue])
         else s)
      else
        var (f, n') := NotifyStep(s.f, n);
        s.(f := f, producers := s.producers[p := if n' == Done then Enqueue else Notifies(n', count)])
  }

  function Step(s: State, turn: Turn): State {
    match turn
    case Consume(c, ch) => if c < |s.consumers| then ConsumerStep(s, c, ch) else s
    case Produce(p, ch) => if p < |s.producers| then ProducerStep(s, p, ch) else s
  }

  function Init(consumers: nat, producers: nat): State {
    State(FRESH, 0, seq(consumers, _ => Check), seq(producers, _ => Enqueue))
  }

  function Run(s: State, turns: seq<Turn>): State
    decreases |turns|
  {
    if turns == [] then s else Run(Step(s, turns[0]), turns[1..])
  }

  // ---- the counter

  function IsCounted(c: Consumer): nat {
    if c.Waits? && Counted(c.w) then 1 else 0
  }

  function Inside(cs: seq<Consumer>): (n: nat)
    ensures n <= |cs|
  {
    if cs == [] then 0 else Inside(cs[..|cs| - 1]) + IsCounted(cs[|cs| - 1])
  }

  lemma {:induction false} CountUpdate(cs: seq<Consumer>, i: nat, v: Consumer)
    requires i < |cs|
    ensures Inside(cs[i := v]) + IsCounted(cs[i]) == Inside(cs) + IsCounted(v)
  {
    var n := |cs| - 1;
    if i < n {
      CountUpdate(cs[..n], i, v);
      assert cs[i := v][..n] == cs[..n][i := v];
    } else {
      assert cs[i := v][..n] == cs[..n];
    }
  }

  lemma {:induction false} CountRouse(cs: seq<Consumer>, who: set<nat>)
    requires forall c :: c in who && c < |cs| ==> cs[c] == Waits(Asleep)
    ensures Inside(Rouse(cs, who)) == Inside(cs)
  {
    if cs != [] {
      var n := |cs| - 1;
      CountRouse(cs[..n], who);
      assert Rouse(cs, who)[..n] == Rouse(cs[..n], who);
    }
  }

  lemma {:induction false} CountHas(cs: seq<Consumer>, i: nat)
    requires i < |cs| && IsCounted(cs[i]) == 1
    ensures Inside(cs) > 0
  {
    var n := |cs| - 1;
    if i < n {
      CountHas(cs[..n], i);
    }
  }

  // ---- the invariant

  ghost predicate SomeStores(s: State) {
    exists p: nat :: p < |s.producers| && s.producers[p].Notifies? && Storing(s.producers[p].n)
  }

  ghost predicate SomeWakes(s: State) {
    exists p: nat :: p < |s.producers| && s.producers[p].Notifies? && Waking(s.producers[p].n)
  }

  /** A consumer that will look at the queue before it can sleep. */
  ghost predicate SomeChecks(s: State) {
    exists c: nat :: c < |s.consumers| && (s.consumers[c] == Check || s.consumers[c] == Waits(CountOut))
  }

  ghost predicate AllAsleep(s: State) {
    forall c: nat :: c < |s.consumers| ==> s.consumers[c] == Waits(Asleep)
  }

  ghost predicate Inv(s: State) {
    && 0 < |s.consumers| < WORD
    && s.f.counter == Inside(s.consumers)
    && (forall p: nat :: p < |s.producers| && s.producers[p].Notifies? ==>
          s.producers[p].count > 0 && s.producers[p].n != Done)
    && (forall c: nat :: c < |s.consumers| ==> s.consumers[c] != Waits(Left))
    && Covered(s)
  }

  /** Pending work is in good hands. */
  ghost predicate Covered(s: State) {
    s.work > 0 ==> SomeStores(s) || (if s.f.flag then !AllAsleep(s) || SomeWakes(s) else SomeChecks(s))
  }

  lemma ConsumerCovers(s: State, c: nat, ch: Choice)
    requires Inv(s) && c < |s.consumers|
    ensures Covered(ConsumerStep(s, c, ch))
  {
    var s', pc := ConsumerStep(s, c, ch), s.consumers[c];
    if s'.work > 0 && !SomeStores(s) {
      if pc == Check || s'.consumers[c] == Check || s'.consumers[c] == Waits(CountOut) {
        assert pc == Check ==> s' == s.(work := s.work - 1);
      } else if !s.f.flag {
        var d: nat :| d < |s.consumers| && (s.consumers[d] == Check || s.consumers[d] == Waits(CountOut));
        assert s'.consumers[d] == s.consumers[d];
      }
    }
  }

  /** The counter moves with the consumer that is inside `wait`. */
  lemma ConsumerMoves(s: State, c: nat, ch: Choice)
    requires Inv(s) && c < |s.consumers|
    requires if IsCounted(s.consumers[c]) == 1 then s.f.counter > 0 else s.f.counter < WORD - 1
    ensures var s' := ConsumerStep(s, c, ch);
      && s'.consumers == s.consumers[c := s'.consumers[c]] && s'.consumers[c] != Waits(Left)
      && s'.f.counter + IsCounted(s.consumers[c]) == s.f.counter + IsCounted(s'.consumers[c])
  {
  }

  lemma ConsumerCounts(s: State, c: nat, ch: Choice)
    requires Inv(s) && c < |s.consumers|
    ensures var s' := ConsumerStep(s, c, ch); s'.f.counter == Inside(s'.consumers) && s'.consumers[c] != Waits(Left)
  {
    if IsCounted(s.consumers[c]) == 1 {
      CountHas(s.consumers, c);
    } else {
      CountUpdate(s.consumers, c, Waits(Asleep));
    }
    ConsumerMoves(s, c, ch);
    CountUpdate(s.consumers, c, ConsumerStep(s, c, ch).consumers[c]);
  }

  lemma ConsumerKeeps(s: State, c: nat, ch: Choice)
    requires Inv(s) && c < |s.consumers|
    ensures Inv(ConsumerStep(s, c, ch))
  {
    ConsumerCounts(s, c, ch);
    ConsumerCovers(s, c, ch);
  }

  lemma WakeKeeps(s: State, p: nat, ch: Choice)
    requires Inv(s) && p < |s.producers| && s.producers[p].Notifies? && s.producers[p].n == Wake
    ensures Inv(ProducerStep(s, p, ch))
  {
    var s' := ProducerStep(s, p, ch);
    if s' != s {
      CountRouse(s.consumers, ch.who);
      OthersStore(s, s', p);
      if ch.who == {} {
        assert Sleepers(s) == {};
        assert 0 !in Sleepers(s);
        assert s'.consumers == s.consumers;
      } else {
        var c :| c in ch.who;
        assert s'.consumers[c] == Waits(CountOut);
      }
      KeepsChecker(s, s');
    }
  }

  /** A store that is due elsewhere stays due. */
  lemma OthersStore(s: State, s': State, p: nat)
    requires p < |s.producers| && |s'.producers| == |s.producers| && s'.producers == s.producers[p := s'.producers[p]]
    requires !(s.producers[p].Notifies? && Storing(s.producers[p].n))
    ensures SomeStores(s) ==> SomeStores(s')
  {
    if SomeStores(s) {
      var q: nat :| q < |s.producers| && s.producers[q].Notifies? && Storing(s.producers[q].n);
      assert s'.producers[q] == s.producers[q];
    }
  }

  lemma KeepsChecker(s: State, s': State)
    requires |s'.consumers| == |s.consumers|
    requires forall c: nat :: c < |s.consumers| && s.consumers[c] != Waits(Asleep) ==> s'.consumers[c] == s.consumers[c]
    ensures SomeChecks(s) ==> SomeChecks(s')
  {
    if SomeChecks(s) {
      var d: nat :| d < |s.consumers| && (s.consumers[d] == Check || s.consumers[d] == Waits(CountOut));
      assert s'.consumers[d] == s.consumers[d];
    }
  }

  lemma NotifyKeeps(s: State, p: nat, ch: Choice)
    requires Inv(s) && p < |s.producers| && s.producers[p].Notifies? && s.producers[p].n != Wake
    ensures Inv(ProducerStep(s, p, ch))
  {
    var s', n := ProducerStep(s, p, ch), s.producers[p].n;
    KeepsChecker(s, s');
    if n == TestFlag || n == RaiseFlag {
      assert s'.producers[p].Notifies?;
      assert SomeStores(s') || SomeWakes(s');
    } else {
      OthersStore(s, s', p);
      if AllAsleep(s) {
        CountHas(s.consumers, 0);
      }
      if s.f.counter > 0 {
        assert SomeWakes(s');
      }
    }
  }

  lemma EnqueueKeeps(s: State, p: nat, ch: Choice)
    requires Inv(s) && p < |s.producers| && s.producers[p] == Enqueue
    ensures Inv(ProducerStep(s, p, ch))
  {
    var s' := ProducerStep(s, p, ch);
    if s' != s {
      assert s'.producers[p].Notifies? && Storing(s'.producers[p].n);
    }
  }

  lemma StepKeeps(s: State, turn: Turn)
    requires Inv(s)
    ensures Inv(Step(s, turn))
  {
    match turn {
      case Consume(c, ch) =>
        if c < |s.consumers| { ConsumerKeeps(s, c, ch); }
      case Produce(p, ch) =>
        if p < |s.producers| {
          if s.producers[p] == Enqueue { EnqueueKeeps(s, p, ch); }
          else if s.producers[p].n == Wake { WakeKeeps(s, p, ch); }
          else { NotifyKeeps(s, p, ch); }
        }
    }
  }

  lemma {:induction false} InsideNone(n: nat)
    ensures Inside(seq(n, _ => Check)) == 0
  {
    if n > 0 {
      InsideNone(n - 1);
      assert seq(n, _ => Check)[..n - 1] == seq(n - 1, _ => Check);
    }
  }

  lemma {:induction false} RunKeeps(s: State, turns: seq<Turn>)
    requires Inv(s)
    ensures Inv(Run(s, turns))
    decreases |turns|
  {
    if turns != [] {
      StepKeeps(s, turns[0]);
      RunKeeps(Step(s, turns[0]), turns[1..]);
    }
  }

  // ---- no lost wake-up

  /** Producer `p` has a store or a wake due that no consumer can take away. */
  ghost predicate Due(s: State, p: nat) {
    p < |s.producers| && s.producers[p].Notifies?
    && (Storing(s.producers[p].n) || (s.f.flag && Waking(s.producers[p].n)))
  }

  /** No lost wake-up: in every reachable state with pending work and all consumers asleep, some
      producer still has its store and wake-up due, or has stored and has its wake-up due. */
  lemma NoLostWakeup(consumers: nat, producers: nat, turns: seq<Turn>)
    requires 0 < consumers < WORD
    requires var s := Run(Init(consumers, producers), turns); s.work > 0 && AllAsleep(s)
    ensures exists p :: Due(Run(Init(consumers, producers), turns), p)
  {
    InsideNone(consumers);
    RunKeeps(Init(consumers, producers), turns);
    var s := Run(Init(consumers, producers), turns);
    assert !SomeChecks(s);
    var p: nat :| p < |s.producers| && s.producers[p].Notifies?
        && (Storing(s.producers[p].n) || (s.f.flag && Waking(s.producers[p].n)));
    assert Due(s, p);
  }

  lemma {:induction false} Subset(big: set<nat>, k: nat) returns (small: set<nat>)
    requires k <= |big|
    ensures small <= big && |small| == k
    decreases k
  {
    small := {};
    if k > 0 {
      var x :| x in big;
      small := Subset(big - {x}, k - 1);
      small := small + {x};
    }
  }

  /** ... and what is due is delivered: let that producer run alone, and as many sleepers as it asked for, or
      all, leave their sleep; the flag is raised, and nothing else has changed. */
  lemma DueIsDelivered(s: State, p: nat) returns (turns: seq<Turn>, who: set<nat>)
    requires Inv(s) && AllAsleep(s) && Due(s, p)
    ensures forall i :: 0 <= i < |turns| ==> turns[i].Produce? && turns[i].p == p
    ensures who != {} && Wakeable(s, who, s.producers[p].count)
    ensures Run(s, turns) == Delivered(s, p, who) && SomeChecks(Run(s, turns))
    decreases match s.producers[p].n case TestFlag => 3 case RaiseFlag => 2 case ReadCount => 1 case _ => 0
  {
    var n := s.producers[p].n;
    if n == Wake {
      turns, who := WakeIsDelivered(s, p);
    } else {
      CountHas(s.consumers, 0);
      var turn := Produce(p, Go);
      StepKeeps(s, turn);
      var s' := Step(s, turn);
      var rest;
      rest, who := DueIsDelivered(s', p);
      assert Sleepers(s') == Sleepers(s);
      assert Delivered(s', p, who) == Delivered(s, p, who);
      turns := [turn] + rest;
      assert turns[1..] == rest;
    }
  }

  /** The state after producer `p` has raised the flag and woken `who`. */
  function Delivered(s: State, p: nat, who: set<nat>): State
    requires p < |s.producers|
  {
    s.(f := s.f.(flag := true), consumers := Rouse(s.consumers, who), producers := s.producers[p := Enqueue])
  }

  lemma WakeIsDelivered(s: State, p: nat) returns (turns: seq<Turn>, who: set<nat>)
    requires Inv(s) && AllAsleep(s) && Due(s, p) && s.producers[p].n == Wake
    ensures turns == [Produce(p, Woken(who))] && who != {} && Wakeable(s, who, s.producers[p].count)
    ensures Run(s, turns) == Delivered(s, p, who) && SomeChecks(Run(s, turns))
  {
    var count := s.producers[p].count;
    assert 0 in Sleepers(s);
    who := Sleepers(s);
    if |who| > count {
      who := Subset(who, count);
    }
    var s' := Step(s, Produce(p, Woken(who)));
    assert who != {};
    var c :| c in who;
    assert s'.consumers[c] == Waits(CountOut);
    turns := [Produce(p, Woken(who))];
    assert Run(s', turns[1..]) == s';
  }
}
