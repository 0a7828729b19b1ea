/** What the concurrent queue guarantees, for any number of threads and every schedule. */
module QueueTheorems {
  import opened Basics
  import opened Links
  import opened Scan
  import opened QueueMachine
  import opened QueueInvariant
  import opened QueueSteps

  // ---- every item is in exactly one place

  lemma InitAccounts(n: nat, items: set<Item>, next: Heap)
    ensures Accounts(Init(n, items, next),
        Layout(map x | x in items :: Outside, seq(CELLS, _ => []), seq(n, _ => NOTHING)))
  {
    var s := Init(n, items, next);
    var a := Layout(map x | x in items :: Outside, seq(CELLS, _ => []), seq(n, _ => NOTHING));
    assert a.place.Keys == items;
    assert NOTHING.All() == [];
  }

  lemma {:induction false} RunAccounts(s: State, a: Layout, turns: seq<Turn>) returns (a': Layout)
    requires Accounts(s, a)
    ensures Accounts(Run(s, turns), a')
  {
    if turns == [] {
      a' := a;
    } else {
      var last := turns[|turns| - 1];
      var b := RunAccounts(s, a, turns[..|turns| - 1]);
      StepKeeps(Run(s, turns[..|turns| - 1]), b, last.t, last.ch);
      a' := StepLayout(Run(s, turns[..|turns| - 1]), b, last.t, last.ch);
    }
  }

  /** `x` is at place `p` of a state that `a` accounts for. */
  ghost predicate Holds(s: State, a: Layout, p: Place, x: Item)
    requires Shaped(s, a)
  {
    match p
    case Outside => x in s.outside
    case InCell(c) => c < CELLS && x in a.lists[c]
    case InThread(t) => t < |s.threads| && x in a.own[t].All()
  }

  /** No item of the universe is ever lost, and none is in two places or in one list twice: the
      seven shared lists are null-terminated, acyclic and disjoint from each other, from the private
      segments of every call in progress and from the items outside. */
  ghost predicate OnePlaceEach(s: State, a: Layout) {
    && Shaped(s, a)
    && (forall c: Cell :: Chain(s.next, s.cells[c], a.lists[c], Null) && Distinct(a.lists[c]))
    && (forall t: nat :: t < |s.threads| ==> Distinct(a.own[t].All()))
    && (forall x :: x in s.items ==> exists p :: Holds(s, a, p, x))
    && (forall x, p, q :: Holds(s, a, p, x) && Holds(s, a, q, x) ==> p == q && x in s.items)
  }

  lemma AccountsMeansOnePlace(s: State, a: Layout)
    requires Accounts(s, a)
    ensures OnePlaceEach(s, a)
  {
    forall c: Cell
      ensures Chain(s.next, s.cells[c], a.lists[c], Null) && Distinct(a.lists[c])
    {
      assert CellOk(s, a, c);
      ChainAcyclic(s.next, s.cells[c], a.lists[c]);
    }
    forall t: nat | t < |s.threads|
      ensures Distinct(a.own[t].All())
    {
      assert ThreadOk(s, a, t);
    }
    forall x, p | Holds(s, a, p, x)
      ensures Lies(a, x, p)
    {
      HoldsMeansLies(s, a, p, x);
    }
    forall x | x in s.items
      ensures exists p :: Holds(s, a, p, x)
    {
      InSomePlace(s, a, x);
    }
  }

  lemma HoldsMeansLies(s: State, a: Layout, p: Place, x: Item)
    requires Accounts(s, a) && Holds(s, a, p, x)
    ensures Lies(a, x, p)
  {
    match p {
      case Outside =>
      case InCell(c) => assert CellOk(s, a, c);
      case InThread(t) => assert ThreadOk(s, a, t);
    }
  }

  lemma InSomePlace(s: State, a: Layout, x: Item)
    requires Accounts(s, a) && x in s.items
    ensures Holds(s, a, a.place[x], x)
  {
    var p := a.place[x];
    assert Exists(s, p) && Lies(a, x, p);
    match p {
      case Outside =>
      case InCell(c) => assert CellOk(s, a, c);
      case InThread(t) => assert ThreadOk(s, a, t);
    }
  }

  /** Conservation: whatever the calls and the schedule, every reachable state keeps every item in
      exactly one place. */
  lemma {:induction false} Conservation(n: nat, items: set<Item>, next: Heap, turns: seq<Turn>)
    ensures exists a ::
      Accounts(Run(Init(n, items, next), turns), a) && OnePlaceEach(Run(Init(n, items, next), turns), a)
  {
    InitAccounts(n, items, next);
    var a := RunAccounts(Init(n, items, next),
                         Layout(map x | x in items :: Outside, seq(CELLS, _ => []), seq(n, _ => NOTHING)), turns);
    AccountsMeansOnePlace(Run(Init(n, items, next), turns), a);
  }

  // ---- only the owner touches a link

  /** The items whose `next` the coming step of a thread at `pc` reads or writes. */
  function Touches(pc: Pc): set<Item> {
    match pc
    case PutLink(x, _, _) => {x}
    case GetTail(item) => {item}
    case Split(item) => {item}
    case Unlink(item, _) => {item}
    case Tail(_, n, list) => if n < BUFFER_SIZE - 1 && list.Ref? then {list.item} else {}
    case TailCut(_, _, x, _) => {x}
    case TailRelink(_, x, _) => {x}
    case OccFind(_, _, _, _, _, last) => {last}
    case OccLink(_, _, _, _, _, last) => {last}
    case Finish(item) => {item}
    case _ => {}
  }

  /** `r` writes no link outside `touched`. */
  ghost predicate WritesOnly(s: State, r: Out, touched: set<Item>) {
    forall x :: x !in touched ==> Next(r.s.next, x) == Next(s.next, x)
  }

  /** Two outcomes that differ in links only. */
  ghost predicate SameButLinks(r: Out, q: Out) {
    r.e == q.e && r.s.(next := q.s.next) == q.s
  }

  lemma PutTouches(s: State, t: nat, ch: Choice, h: Heap)
    requires t < |s.threads| && InPut(s.threads[t])
    requires forall x :: x in Touches(s.threads[t]) ==> Next(h, x) == Next(s.next, x)
    ensures WritesOnly(s, PutStep(s, t, ch), Touches(s.threads[t]))
    ensures SameButLinks(PutStep(s, t, ch), PutStep(s.(next := h), t, ch))
  {
  }

  predicate InGet(pc: Pc) {
    !pc.Idle? && !InPut(pc) && !InTail(pc) && !InEmpty(pc) && !InOcc(pc)
  }

  lemma DetachTouches(s: State, t: nat, h: Heap)
    requires t < |s.threads| && (s.threads[t].GetProbe? || s.threads[t].PopList? || s.threads[t].Answer?)
    ensures WritesOnly(s, GetStep(s, t), {})
    ensures SameButLinks(GetStep(s, t), GetStep(s.(next := h), t))
  {
  }

  lemma ReadTouches(s: State, t: nat, h: Heap)
    requires t < |s.threads| && InGet(s.threads[t])
    requires !s.threads[t].GetProbe? && !s.threads[t].PopList? && !s.threads[t].Answer?
    requires forall x :: x in Touches(s.threads[t]) ==> Next(h, x) == Next(s.next, x)
    ensures WritesOnly(s, GetStep(s, t), Touches(s.threads[t]))
    ensures SameButLinks(GetStep(s, t), GetStep(s.(next := h), t))
  {
  }

  lemma GetTouches(s: State, t: nat, h: Heap)
    requires t < |s.threads| && InGet(s.threads[t])
    requires forall x :: x in Touches(s.threads[t]) ==> Next(h, x) == Next(s.next, x)
    ensures WritesOnly(s, GetStep(s, t), Touches(s.threads[t]))
    ensures SameButLinks(GetStep(s, t), GetStep(s.(next := h), t))
  {
    if s.threads[t].GetProbe? || s.threads[t].PopList? || s.threads[t].Answer? {
      DetachTouches(s, t, h);
    } else {
      ReadTouches(s, t, h);
    }
  }

  lemma TailTouches(s: State, t: nat, ch: Choice, h: Heap)
    requires t < |s.threads| && InTail(s.threads[t])
    requires forall x :: x in Touches(s.threads[t]) ==> Next(h, x) == Next(s.next, x)
    ensures WritesOnly(s, TailStep(s, t), Touches(s.threads[t]))
    ensures SameButLinks(TailStep(s, t), TailStep(s.(next := h), t))
  {
  }

  lemma EmptyTouches(s: State, t: nat, ch: Choice, h: Heap)
    requires t < |s.threads| && InEmpty(s.threads[t])
    requires forall x :: x in Touches(s.threads[t]) ==> Next(h, x) == Next(s.next, x)
    ensures WritesOnly(s, EmptyStep(s, t), Touches(s.threads[t]))
    ensures SameButLinks(EmptyStep(s, t), EmptyStep(s.(next := h), t))
  {
  }

  lemma OccTouches(s: State, t: nat, ch: Choice, h: Heap)
    requires t < |s.threads| && InOcc(s.threads[t])
    requires forall x :: x in Touches(s.threads[t]) ==> Next(h, x) == Next(s.next, x)
    ensures WritesOnly(s, OccStep(s, t, ch), Touches(s.threads[t]))
    ensures SameButLinks(OccStep(s, t, ch), OccStep(s.(next := h), t, ch))
  {
  }

  /** `Touches` is honest: inside a call, a step writes no other link, and the links of other items
      do not influence what it does. */
  lemma TouchesOnly(s: State, t: nat, ch: Choice, h: Heap)
    requires t < |s.threads| && !s.threads[t].Idle?
    requires forall x :: x in Touches(s.threads[t]) ==> Next(h, x) == Next(s.next, x)
    ensures WritesOnly(s, Step(s, t, ch), Touches(s.threads[t]))
    ensures SameButLinks(Step(s, t, ch), Step(s.(next := h), t, ch))
  {
    var pc := s.threads[t];
    if InPut(pc) { PutTouches(s, t, ch, h); }
    else if InTail(pc) { TailTouches(s, t, ch, h); }
    else if InEmpty(pc) { EmptyTouches(s, t, ch, h); }
    else if InOcc(pc) { OccTouches(s, t, ch, h); }
    else { GetTouches(s, t, h); }
  }

  /** The item a step touches belongs to the thread that makes the step; so no two threads ever
      touch the same link, and no link in a shared list is ever touched. */
  lemma OwnerOnly(s: State, a: Layout, t: nat)
    requires Accounts(s, a) && t < |s.threads|
    ensures forall x :: x in Touches(s.threads[t]) ==> Lies(a, x, InThread(t))
    ensures forall u: nat :: u < |s.threads| && u != t ==> Touches(s.threads[t]) !! Touches(s.threads[u])
    ensures forall c: Cell, x :: x in a.lists[c] ==> x !in Touches(s.threads[t])
    ensures forall x :: x in s.outside ==> x !in Touches(s.threads[t])
  {
    OwnsTouched(s, a, t);
    forall u: nat | u < |s.threads| && u != t
      ensures Touches(s.threads[t]) !! Touches(s.threads[u])
    {
      OwnsTouched(s, a, u);
    }
    forall c: Cell, x | x in a.lists[c]
      ensures x !in Touches(s.threads[t])
    {
      assert CellOk(s, a, c);
    }
  }

  lemma OwnsTouched(s: State, a: Layout, t: nat)
    requires Accounts(s, a) && t < |s.threads|
    ensures forall x :: x in Touches(s.threads[t]) ==> Lies(a, x, InThread(t))
  {
    assert ThreadOk(s, a, t);
    forall x | x in Touches(s.threads[t])
      ensures x in a.own[t].All()
    {
      var o := a.own[t];
      assert x in o.hold || x in o.tail;
    }
  }

  // ---- a successful compare-exchange splices exactly

  /** The private segment a thread at `pc` is about to put in front of the list of a cell. */
  ghost function Segment(a: Layout, t: nat, pc: Pc): seq<Item>
    requires t < |a.own|
  {
    if pc.PutCas? then [pc.x] else a.own[t].tail
  }

  /** When the compare-exchange of `push`, `put_priority_item` or `store_in_occupied_slot` succeeds,
      the cell's list becomes the private segment followed by the list that is there now.  It does
      not matter how often the exchange failed before, nor whether the expected head left the cell
      and came back in front of other successors: `l` is the list at the moment of success. */
  lemma SpliceExact(s: State, a: Layout, t: nat, ch: Choice, l: seq<Item>)
    requires Accounts(s, a) && t < |s.threads|
    requires var pc := s.threads[t]; (pc.PutCas? || pc.OccCas?) && s.cells[pc.c] == pc.expected && ch != FailSpuriously
    requires Chain(s.next, s.cells[s.threads[t].c], l, Null)
    ensures var pc, s' := s.threads[t], Step(s, t, ch).s;
      && Chain(s'.next, s'.cells[pc.c], Segment(a, t, pc) + l, Null)
      && forall d: Cell :: d != pc.c ==> s'.cells[d] == s.cells[d]
  {
    var pc := s.threads[t];
    assert CellOk(s, a, pc.c) && ThreadOk(s, a, t);
    ChainUnique(s.next, s.cells[pc.c], l, a.lists[pc.c]);
    if pc.PutCas? {
      ChainCons(s.next, pc.x, l, Null);
    } else {
      ChainJoin(s.next, Ref(pc.head), a.own[t].tail, pc.expected, l, Null);
    }
  }
}
