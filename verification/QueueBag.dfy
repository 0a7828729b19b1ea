/** The concurrent queue refines a bag whose `get` may answer "empty" without cause. */
module QueueBag {
  import opened Basics
  import opened Links
  import opened QueueMachine
  import opened QueueInvariant
  import opened QueueTheorems

  /** A thread's call as a client of the bag sees it: `Taken(x)` and `Nothing` are calls of `get`
      whose answer is settled but not returned yet. */
  datatype Call = NoCall | Putting(x: Item) | Getting | Taken(x: Item) | Nothing

  function CallOf(pc: Pc): Call {
    match pc
    case Idle => NoCall
    case PutIndex(x) => Putting(x)
    case PutLoad(x, _) => Putting(x)
    case PutLink(x, _, _) => Putting(x)
    case PutCas(x, _, _) => Putting(x)
    case GetIndex => Getting
    case GetProbe(_) => Getting
    case GetReread(_) => Getting
    case PopList(_) => Getting
    case Answer(p) => if p == Null then Nothing else Taken(p.item)
    case _ => Taken(pc.item)
  }

  predicate Claims(pc: Pc, x: Item) {
    CallOf(pc) == Putting(x) || CallOf(pc) == Taken(x)
  }

  /** The abstract queue: the items that are neither outside nor in the hands of a call. */
  ghost function Bag(s: State): set<Item> {
    set x | x in s.items && x !in s.outside && forall t: nat :: t < |s.threads| ==> !Claims(s.threads[t], x)
  }

  /** One step of the abstract bag, as seen by the thread that moves: its call before and after, the
      bag before and after, and the items outside before and after. */
  ghost predicate BagStep(e: Event, c: Call, c': Call, b: set<Item>, b': set<Item>, out: set<Item>, out': set<Item>) {
    match e
    case Silent => c' == c && b' == b && out' == out
    case PutCalled(x) => c == NoCall && c' == Putting(x) && b' == b && x in out && x !in b && out' == out - {x}
    case PutEffect(x) => c == Putting(x) && c' == NoCall && x !in b && b' == b + {x} && out' == out
    case GetCalled => c == NoCall && c' == Getting && b' == b && out' == out
    case GetEffect(x) => c == Getting && c' == Taken(x) && x in b && b' == b - {x} && out' == out
    case GetEmpty => c == Getting && c' == Nothing && b' == b && out' == out
    case Returned(p) =>
      c' == NoCall && b' == b &&
      match p
      case Null => c == Nothing && out' == out
      case Ref(x) => c == Taken(x) && x !in b && x !in out && out' == out + {x}
  }

  /** What a step does to the calls, read off the code alone. */
  ghost predicate CallMoves(s: State, t: nat, r: Out)
    requires t < |s.threads| && |r.s.threads| == |s.threads|
  {
    var c, c' := CallOf(s.threads[t]), CallOf(r.s.threads[t]);
    match r.e
    case Silent => c' == c && r.s.outside == s.outside
    case PutCalled(x) => c == NoCall && c' == Putting(x) && x in s.outside && r.s.outside == s.outside - {x}
    case PutEffect(x) => c == Putting(x) && c' == NoCall && r.s.outside == s.outside
    case GetCalled => c == NoCall && c' == Getting && r.s.outside == s.outside
    case GetEffect(x) => c == Getting && c' == Taken(x) && r.s.outside == s.outside
        && exists d: Cell :: s.cells[d] == Ref(x)
    case GetEmpty => c == Getting && c' == Nothing && r.s.outside == s.outside
    case Returned(p) =>
      c' == NoCall &&
      match p
      case Null => c == Nothing && r.s.outside == s.outside
      case Ref(x) => c == Taken(x) && r.s.outside == s.outside + {x}
  }

  lemma PutMoves(s: State, t: nat, ch: Choice)
    requires t < |s.threads| && (s.threads[t].Idle? || InPut(s.threads[t]))
    ensures CallMoves(s, t, Step(s, t, ch))
  {
  }

  lemma TailMoves(s: State, t: nat, ch: Choice)
    requires t < |s.threads| && (InTail(s.threads[t]) || InEmpty(s.threads[t]))
    ensures CallMoves(s, t, Step(s, t, ch))
  {
  }

  lemma OccMoves(s: State, t: nat, ch: Choice)
    requires t < |s.threads| && InOcc(s.threads[t])
    ensures CallMoves(s, t, OccStep(s, t, ch))
  {
  }

  lemma GetMoves(s: State, t: nat, ch: Choice)
    requires t < |s.threads| && !s.threads[t].Idle? && !InPut(s.threads[t]) && !InTail(s.threads[t])
    requires !InEmpty(s.threads[t]) && !InOcc(s.threads[t])
    ensures CallMoves(s, t, Step(s, t, ch))
  {
  }

  lemma Moves(s: State, t: nat, ch: Choice)
    requires t < |s.threads|
    ensures CallMoves(s, t, Step(s, t, ch))
  {
    var pc := s.threads[t];
    if pc.Idle? || InPut(pc) { PutMoves(s, t, ch); }
    else if InTail(pc) || InEmpty(pc) { TailMoves(s, t, ch); }
    else if InOcc(pc) { OccMoves(s, t, ch); }
    else { GetMoves(s, t, ch); }
  }

  /** A claimed item is in the claimant's hands. */
  lemma ClaimedIsHeld(s: State, a: Layout, t: nat, x: Item)
    requires Accounts(s, a) && t < |s.threads| && Claims(s.threads[t], x)
    ensures Lies(a, x, InThread(t))
  {
    assert ThreadOk(s, a, t);
    var o := a.own[t];
    assert x in o.hold || x in o.tail;
    assert x in o.All();
  }

  ghost predicate OthersClaim(s: State, t: nat, x: Item) {
    exists u: nat :: u < |s.threads| && u != t && Claims(s.threads[u], x)
  }

  lemma BagSplit(s: State, t: nat, x: Item)
    requires t < |s.threads|
    ensures x in Bag(s) <==> (x in s.items && x !in s.outside && !Claims(s.threads[t], x) && !OthersClaim(s, t, x))
  {
  }

  lemma OthersSame(s: State, s': State, t: nat, x: Item)
    requires Steady(s, s', t)
    ensures OthersClaim(s, t, x) == OthersClaim(s', t, x)
  {
  }

  lemma ClaimIsExclusive(s: State, a: Layout, t: nat, x: Item)
    requires Accounts(s, a) && t < |s.threads| && Claims(s.threads[t], x)
    ensures x in s.items && x !in s.outside && !OthersClaim(s, t, x) && x !in Bag(s)
  {
    ClaimedIsHeld(s, a, t, x);
    forall u: nat | u < |s.threads| && u != t
      ensures !Claims(s.threads[u], x)
    {
      if Claims(s.threads[u], x) {
        ClaimedIsHeld(s, a, u, x);
      }
    }
    assert x in s.outside <==> Lies(a, x, Outside);
  }

  lemma OutsideIsFree(s: State, a: Layout, t: nat, x: Item)
    requires Accounts(s, a) && t < |s.threads| && x in s.outside
    ensures x in s.items && !OthersClaim(s, t, x) && !Claims(s.threads[t], x)
  {
    assert Lies(a, x, Outside);
    forall u: nat | u < |s.threads|
      ensures !Claims(s.threads[u], x)
    {
      if Claims(s.threads[u], x) {
        ClaimedIsHeld(s, a, u, x);
      }
    }
  }

  lemma HeadIsInBag(s: State, a: Layout, d: Cell)
    requires Accounts(s, a) && s.cells[d].Ref?
    ensures s.cells[d].item in Bag(s)
  {
    var x := s.cells[d].item;
    assert CellOk(s, a, d);
    assert a.lists[d][0] == x;
    assert Lies(a, x, InCell(d));
    forall u: nat | u < |s.threads|
      ensures !Claims(s.threads[u], x)
    {
      if Claims(s.threads[u], x) {
        ClaimedIsHeld(s, a, u, x);
      }
    }
    assert x in s.outside <==> Lies(a, x, Outside);
  }

  /** The bag after a step, from the claims of the moving thread and the items outside. */
  lemma BagAfter(s: State, s': State, t: nat)
    requires t < |s.threads| && Steady(s, s', t)
    ensures forall x :: x in Bag(s') <==>
      (x in s.items && x !in s'.outside && !Claims(s'.threads[t], x) && !OthersClaim(s, t, x))
    ensures forall x :: x in Bag(s) <==>
      (x in s.items && x !in s.outside && !Claims(s.threads[t], x) && !OthersClaim(s, t, x))
  {
    forall x
      ensures x in Bag(s') <==>
        (x in s.items && x !in s'.outside && !Claims(s'.threads[t], x) && !OthersClaim(s, t, x))
      ensures x in Bag(s) <==>
        (x in s.items && x !in s.outside && !Claims(s.threads[t], x) && !OthersClaim(s, t, x))
    {
      BagSplit(s, t, x);
      BagSplit(s', t, x);
      OthersSame(s, s', t, x);
    }
  }

  /** Simulation: a put takes effect at its successful compare-exchange, a get at the exchange that
      detached its list, and every other step, all redistribution of tails included, leaves the bag
      as it is. */
  lemma Simulates(s: State, a: Layout, t: nat, ch: Choice)
    requires Accounts(s, a) && t < |s.threads|
    ensures var r := Step(s, t, ch);
      BagStep(r.e, CallOf(s.threads[t]), CallOf(r.s.threads[t]), Bag(s), Bag(r.s), s.outside, r.s.outside)
  {
    var r := Step(s, t, ch);
    Moves(s, t, ch);
    BagAfter(s, r.s, t);
    if r.e.PutCalled? {
      OutsideIsFree(s, a, t, r.e.x);
    } else if r.e.PutEffect? {
      ClaimIsExclusive(s, a, t, r.e.x);
    } else if r.e.GetEffect? {
      var d: Cell :| s.cells[d] == Ref(r.e.x);
      HeadIsInBag(s, a, d);
    } else if r.e.Returned? && r.e.p.Ref? {
      ClaimIsExclusive(s, a, t, r.e.p.item);
    }
  }

  /** While no call is in progress the bag is exactly what the seven shared lists hold. */
  lemma QuietBag(s: State, a: Layout)
    requires Accounts(s, a) && forall t: nat :: t < |s.threads| ==> s.threads[t] == Idle
    ensures forall x :: x in Bag(s) <==> exists c: Cell :: x in a.lists[c]
  {
    forall t: nat | t < |s.threads|
      ensures a.own[t].All() == []
    {
      assert ThreadOk(s, a, t);
    }
    forall x
      ensures x in Bag(s) <==> exists c: Cell :: x in a.lists[c]
    {
      if x in s.items {
        InSomePlace(s, a, x);
      }
      forall c: Cell | x in a.lists[c]
        ensures x in Bag(s)
      {
        assert CellOk(s, a, c);
        assert x in s.outside <==> Lies(a, x, Outside);
      }
    }
  }

  // ---- conservation over runs

  function Count(es: seq<Event>, e: Event): nat {
    if es == [] then 0
    else Count(es[..|es| - 1], e) + if es[|es| - 1] == e then 1 else 0
  }

  ghost predicate SomePuts(s: State, x: Item) {
    exists t: nat :: t < |s.threads| && CallOf(s.threads[t]) == Putting(x)
  }

  ghost predicate SomeTook(s: State, x: Item) {
    exists t: nat :: t < |s.threads| && CallOf(s.threads[t]) == Taken(x)
  }

  /** The account of item `x` over a trace that led from a fresh queue to `s`. */
  ghost predicate Balanced(es: seq<Event>, s: State, x: Item) {
    && Count(es, PutCalled(x)) == Count(es, PutEffect(x)) + One(SomePuts(s, x))
    && Count(es, PutEffect(x)) == Count(es, GetEffect(x)) + One(x in Bag(s))
    && Count(es, GetEffect(x)) == Count(es, Returned(Ref(x))) + One(SomeTook(s, x))
  }

  /** The three accounts, with `puts` and `took` telling whether some other thread holds `x`. */
  ghost predicate Ledger(es: seq<Event>, x: Item, c: Call, b: set<Item>, puts: bool, took: bool) {
    && Count(es, PutCalled(x)) == Count(es, PutEffect(x)) + One(c == Putting(x) || puts)
    && Count(es, PutEffect(x)) == Count(es, GetEffect(x)) + One(x in b)
    && Count(es, GetEffect(x)) == Count(es, Returned(Ref(x))) + One(c == Taken(x) || took)
  }

  lemma LedgerStep(es: seq<Event>, e: Event, x: Item, c: Call, c': Call, b: set<Item>, b': set<Item>,
                   out: set<Item>, out': set<Item>, puts: bool, took: bool)
    requires BagStep(e, c, c', b, b', out, out') && Ledger(es, x, c, b, puts, took)
    requires c == Putting(x) || c == Taken(x) || x in out || x in b ==> !puts && !took
    ensures Ledger(es + [e], x, c', b', puts, took)
  {
    var es' := es + [e];
    assert es'[..|es'| - 1] == es;
  }

  lemma BalancedStep(es: seq<Event>, s: State, a: Layout, t: nat, ch: Choice, x: Item)
    requires Accounts(s, a) && t < |s.threads| && Balanced(es, s, x)
    ensures Balanced(es + [Step(s, t, ch).e], Step(s, t, ch).s, x)
  {
    var r := Step(s, t, ch);
    Simulates(s, a, t, ch);
    SomeAfter(s, a, t, ch, x);
    var c, c' := CallOf(s.threads[t]), CallOf(r.s.threads[t]);
    LedgerStep(es, r.e, x, c, c', Bag(s), Bag(r.s), s.outside, r.s.outside, OthersPut(s, t, x), OthersTook(s, t, x));
  }

  lemma SomeAfter(s: State, a: Layout, t: nat, ch: Choice, x: Item)
    requires Accounts(s, a) && t < |s.threads|
    ensures var s' := Step(s, t, ch).s;
      && (SomePuts(s, x) == (CallOf(s.threads[t]) == Putting(x) || OthersPut(s, t, x)))
      && (SomePuts(s', x) == (CallOf(s'.threads[t]) == Putting(x) || OthersPut(s, t, x)))
      && (SomeTook(s, x) == (CallOf(s.threads[t]) == Taken(x) || OthersTook(s, t, x)))
      && (SomeTook(s', x) == (CallOf(s'.threads[t]) == Taken(x) || OthersTook(s, t, x)))
      && (Claims(s.threads[t], x) || x in s.outside || x in Bag(s) ==> !OthersPut(s, t, x) && !OthersTook(s, t, x))
  {
    var s' := Step(s, t, ch).s;
    if Claims(s.threads[t], x) {
      ClaimIsExclusive(s, a, t, x);
    } else if x in s.outside {
      OutsideIsFree(s, a, t, x);
    }
  }

  ghost predicate OthersPut(s: State, t: nat, x: Item) {
    exists u: nat :: u < |s.threads| && u != t && CallOf(s.threads[u]) == Putting(x)
  }

  ghost predicate OthersTook(s: State, t: nat, x: Item) {
    exists u: nat :: u < |s.threads| && u != t && CallOf(s.threads[u]) == Taken(x)
  }

  /** No item is lost, and none is returned twice between puts: over every run, item `x` has been
      given to `put_item` as often as it has been returned by `get_item`, plus one while it is in a
      call or in the bag. */
  lemma {:induction false} RunBalanced(n: nat, items: set<Item>, next: Heap, turns: seq<Turn>, x: Item)
    ensures Balanced(Trace(Init(n, items, next), turns), Run(Init(n, items, next), turns), x)
  {
    var init := Init(n, items, next);
    if turns == [] {
    } else {
      var before, last := turns[..|turns| - 1], turns[|turns| - 1];
      RunBalanced(n, items, next, before, x);
      Conservation(n, items, next, before);
      var a :| Accounts(Run(init, before), a) && OnePlaceEach(Run(init, before), a);
      if last.t < |Run(init, before).threads| {
        BalancedStep(Trace(init, before), Run(init, before), a, last.t, last.ch, x);
      } else {
        var es := Trace(init, turns);
        assert es[..|es| - 1] == Trace(init, before);
      }
    }
  }
}
