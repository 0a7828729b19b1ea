/** Every step of `QueueMachine` keeps the invariant. */
module QueueSteps {
  import opened Basics
  import opened Links
  import opened Scan
  import opened QueueMachine
  import opened QueueInvariant

  /** Moves items: those of `mine` now belong to thread `t`, those of `list` to cell `c`. */
  ghost function Relabel(place: map<Item, Place>, t: nat, mine: seq<Item>, c: nat, list: seq<Item>): map<Item, Place> {
    map x | x in place :: if x in mine then InThread(t) else if x in list then InCell(c) else place[x]
  }

  /** The layout after thread `t` and cell `c` exchanged items. */
  ghost function Exchanged(a: Layout, t: nat, o: Own, c: nat, list: seq<Item>): Layout
    requires t < |a.own| && c < |a.lists|
  {
    Layout(Relabel(a.place, t, o.All(), c, list), a.lists[c := list], a.own[t := o])
  }

  /** `s'` is `s` except for thread `t`, cell `c` and the position counters. */
  ghost predicate OnlyCell(s: State, s': State, t: nat, pc: Pc, c: Cell, p: Ptr) {
    && t < |s.threads|
    && s'.threads == s.threads[t := pc]
    && s'.cells == s.cells[c := p]
    && s'.next == s.next && s'.items == s.items && s'.outside == s.outside
  }

  lemma ExchangeKeeps(s: State, a: Layout, s': State, t: nat, pc: Pc, o: Own, c: Cell, p: Ptr, list: seq<Item>)
    requires Accounts(s, a) && OnlyCell(s, s', t, pc, c, p)
    requires forall x :: x in o.All() || x in list <==> x in a.own[t].All() || x in a.lists[c]
    requires forall x :: !(x in o.All() && x in list)
    requires Distinct(o.All()) && Chain(s.next, p, list, Null) && Local(s.next, pc, o)
    ensures Accounts(s', Exchanged(a, t, o, c, list))
  {
    var a' := Exchanged(a, t, o, c, list);
    assert ThreadOk(s, a, t) && CellOk(s, a, c);
    assert a'.place.Keys == s'.items;
    forall d: Cell
      ensures CellOk(s', a', d)
    {
      assert CellOk(s, a, d);
    }
    forall u: nat | u < |s'.threads|
      ensures ThreadOk(s', a', u)
    {
      assert ThreadOk(s, a, u);
    }
  }

  /** `s'` is `s` except for thread `t`, the position counters, and links of items thread `t` owns. */
  ghost predicate OnlyThread(s: State, a: Layout, s': State, t: nat, pc: Pc)
    requires Shaped(s, a)
  {
    && t < |s.threads|
    && s'.threads == s.threads[t := pc]
    && s'.cells == s.cells && s'.items == s.items && s'.outside == s.outside
    && forall x :: x !in a.own[t].All() ==> Next(s'.next, x) == Next(s.next, x)
  }

  lemma QuietKeeps(s: State, a: Layout, s': State, t: nat, pc: Pc, o: Own)
    requires Accounts(s, a) && OnlyThread(s, a, s', t, pc)
    requires forall x :: x in o.All() <==> x in a.own[t].All()
    requires Distinct(o.All()) && Local(s'.next, pc, o)
    ensures Accounts(s', a.(own := a.own[t := o]))
  {
    var a' := a.(own := a.own[t := o]);
    assert ThreadOk(s, a, t);
    forall d: Cell
      ensures CellOk(s', a', d)
    {
      assert CellOk(s, a, d);
      ChainFrame(s.next, s'.next, s.cells[d], a.lists[d], Null);
    }
    forall u: nat | u < |s'.threads|
      ensures ThreadOk(s', a', u)
    {
      assert ThreadOk(s, a, u);
      if u != t {
        LocalFrame(s.next, s'.next, s.threads[u], a.own[u]);
      }
    }
  }

  /** As `QuietKeeps`, with the segments as they were. */
  lemma SameKeeps(s: State, a: Layout, s': State, t: nat, pc: Pc)
    requires Accounts(s, a) && OnlyThread(s, a, s', t, pc) && Local(s'.next, pc, a.own[t])
    ensures Accounts(s', a)
  {
    assert ThreadOk(s, a, t);
    QuietKeeps(s, a, s', t, pc, a.own[t]);
    assert a.own[t := a.own[t]] == a.own;
  }

  // ---- put_item

  ghost function PutLayout(s: State, a: Layout, t: nat, ch: Choice): Layout
    requires Sized(s, a) && t < |s.threads|
  {
    match s.threads[t]
    case PutCas(x, c, expected) =>
      if s.cells[c] == expected && ch != FailSpuriously then Exchanged(a, t, NOTHING, c, [x] + a.lists[c]) else a
    case _ => a
  }

  lemma PutKeeps(s: State, a: Layout, t: nat, ch: Choice)
    requires Accounts(s, a) && t < |s.threads| && InPut(s.threads[t])
    ensures Accounts(PutStep(s, t, ch).s, PutLayout(s, a, t, ch))
  {
    var s' := PutStep(s, t, ch).s;
    assert ThreadOk(s, a, t);
    var pc := s.threads[t];
    var o := a.own[t];
    if pc.PutCas? && s.cells[pc.c] == pc.expected && ch != FailSpuriously {
      assert CellOk(s, a, pc.c);
      ChainCons(s.next, pc.x, a.lists[pc.c], Null);
      assert o.All() == [pc.x];
      ExchangeKeeps(s, a, s', t, Idle, NOTHING, pc.c, Ref(pc.x), [pc.x] + a.lists[pc.c]);
    } else {
      assert o.All() == [pc.x];
      SameKeeps(s, a, s', t, s'.threads[t]);
    }
  }

  // ---- get_item

  /** The private list `tail`, split into its first item and the others. */
  ghost function Beheaded(o: Own): Own
    requires o.tail != []
  {
    Own(o.hold + [o.tail[0]], o.tail[1..])
  }

  ghost function GetLayout(s: State, a: Layout, t: nat): Layout
    requires Sized(s, a) && t < |s.threads|
  {
    var o := a.own[t];
    match s.threads[t]
    case GetProbe(sc) =>
      if s.cells[sc.Slot()].Ref? then Exchanged(a, t, Own([], a.lists[sc.Slot()]), sc.Slot(), []) else a
    case PopList(k) =>
      if k < STACKS && s.cells[BUFFER_SIZE + k].Ref?
      then Exchanged(a, t, Own([], a.lists[BUFFER_SIZE + k]), BUFFER_SIZE + k, []) else a
    case GetTail(item) => if o.tail != [] then a.(own := a.own[t := Beheaded(o)]) else a
    case Split(item) => if o.tail != [] then a.(own := a.own[t := Beheaded(o)]) else a
    case Answer(p) =>
      if p.Ref?
      then Layout(map x | x in a.place :: if x == p.item then Outside else a.place[x], a.lists, a.own[t := NOTHING])
      else a
    case _ => a
  }

  lemma BeheadKeeps(h: Heap, o: Own, p: Ptr)
    requires o.tail != [] && Chain(h, p, o.tail, Null)
    ensures p == Ref(o.tail[0]) && Beheaded(o).All() == o.All()
    ensures Chain(h, Next(h, o.tail[0]), Beheaded(o).tail, Null)
  {
    ChainTail(h, p, o.tail, Null);
    assert [o.tail[0]] + o.tail[1..] == o.tail;
    assert o.hold + ([o.tail[0]] + o.tail[1..]) == (o.hold + [o.tail[0]]) + o.tail[1..];
  }

  lemma TakeKeeps(s: State, a: Layout, s': State, t: nat, pc: Pc, c: Cell)
    requires Accounts(s, a) && OnlyCell(s, s', t, pc, c, Null) && a.own[t] == NOTHING
    requires s.cells[c].Ref? && Local(s.next, pc, Own([], a.lists[c]))
    ensures Accounts(s', Exchanged(a, t, Own([], a.lists[c]), c, []))
  {
    assert CellOk(s, a, c);
    ChainAcyclic(s.next, s.cells[c], a.lists[c]);
    assert Own([], a.lists[c]).All() == a.lists[c];
    ExchangeKeeps(s, a, s', t, pc, Own([], a.lists[c]), c, Null, []);
  }

  lemma ReturnKeeps(s: State, a: Layout, t: nat)
    requires Accounts(s, a) && t < |s.threads| && s.threads[t].Answer?
    ensures Accounts(GetStep(s, t).s, GetLayout(s, a, t))
  {
    assert ThreadOk(s, a, t);
    var s', a' := GetStep(s, t).s, GetLayout(s, a, t);
    var p := s.threads[t].p;
    if p.Ref? {
      assert a.own[t].All() == [p.item];
      assert p.item in a.own[t].All();
    }
    assert NOTHING.All() == [];
    assert a'.place.Keys == s'.items;
    forall d: Cell
      ensures CellOk(s', a', d)
    {
      assert CellOk(s, a, d);
    }
    forall u: nat | u < |s'.threads|
      ensures ThreadOk(s', a', u)
    {
      assert ThreadOk(s, a, u);
      forall x
        ensures x in a'.own[u].All() <==> Lies(a', x, InThread(u))
      {
        assert x in a.own[u].All() <==> Lies(a, x, InThread(u));
      }
    }
  }

  lemma GetProbeKeeps(s: State, a: Layout, t: nat)
    requires Accounts(s, a) && t < |s.threads| && s.threads[t].GetProbe?
    ensures Accounts(GetStep(s, t).s, GetLayout(s, a, t))
  {
    var s', c := GetStep(s, t).s, s.threads[t].sc.Slot();
    assert ThreadOk(s, a, t) && CellOk(s, a, c);
    if s.cells[c].Ref? {
      TakeKeeps(s, a, s', t, s'.threads[t], c);
    } else {
      SameKeeps(s, a, s', t, s'.threads[t]);
    }
  }

  lemma PopListKeeps(s: State, a: Layout, t: nat)
    requires Accounts(s, a) && t < |s.threads| && s.threads[t].PopList?
    ensures Accounts(GetStep(s, t).s, GetLayout(s, a, t))
  {
    var s', k := GetStep(s, t).s, s.threads[t].k;
    assert ThreadOk(s, a, t);
    if k < STACKS && s.cells[BUFFER_SIZE + k].Ref? {
      assert CellOk(s, a, BUFFER_SIZE + k);
      TakeKeeps(s, a, s', t, s'.threads[t], BUFFER_SIZE + k);
    } else {
      SameKeeps(s, a, s', t, s'.threads[t]);
    }
  }

  lemma GetTailKeeps(s: State, a: Layout, t: nat)
    requires Accounts(s, a) && t < |s.threads| && (s.threads[t].GetTail? || s.threads[t].Split?)
    ensures Accounts(GetStep(s, t).s, GetLayout(s, a, t))
  {
    var s', o := GetStep(s, t).s, a.own[t];
    assert ThreadOk(s, a, t);
    BeheadKeeps(s.next, o, Ref(s.threads[t].item));
    QuietKeeps(s, a, s', t, s'.threads[t], Beheaded(o));
  }

  lemma UnlinkKeeps(s: State, a: Layout, t: nat)
    requires Accounts(s, a) && t < |s.threads| && (s.threads[t].Unlink? || s.threads[t].Finish?)
    ensures Accounts(GetStep(s, t).s, GetLayout(s, a, t))
  {
    var s', o, pc := GetStep(s, t).s, a.own[t], s.threads[t];
    assert ThreadOk(s, a, t);
    UnlinkChain(s.next, o, pc.item, 0, if pc.Unlink? then pc.list else Null, Null);
    SameKeeps(s, a, s', t, s'.threads[t]);
  }

  lemma GetKeeps(s: State, a: Layout, t: nat)
    requires Accounts(s, a) && t < |s.threads| && !s.threads[t].Idle?
    requires var pc := s.threads[t]; !InPut(pc) && !InTail(pc) && !InEmpty(pc) && !InOcc(pc)
    ensures Accounts(GetStep(s, t).s, GetLayout(s, a, t))
  {
    var pc := s.threads[t];
    if pc.GetProbe? { GetProbeKeeps(s, a, t); }
    else if pc.PopList? { PopListKeeps(s, a, t); }
    else if pc.GetTail? || pc.Split? { GetTailKeeps(s, a, t); }
    else if pc.Unlink? || pc.Finish? { UnlinkKeeps(s, a, t); }
    else if pc.Answer? { ReturnKeeps(s, a, t); }
    else {
      assert ThreadOk(s, a, t);
      SameKeeps(s, a, GetStep(s, t).s, t, GetStep(s, t).s.threads[t]);
    }
  }

  /** Rewriting the link of a held item leaves the private list alone. */
  lemma UnlinkChain(h: Heap, o: Own, x: Item, k: nat, p: Ptr, q: Ptr)
    requires k < |o.hold| && o.hold[k] == x && Distinct(o.All()) && Chain(h, p, o.tail, Null)
    ensures x in o.All()
    ensures Chain(h[x := q], p, o.tail, Null)
  {
    assert o.All()[k] == x;
    forall y | y in o.tail
      ensures Next(h[x := q], y) == Next(h, y)
    {
      var j :| 0 <= j < |o.tail| && o.tail[j] == y;
      assert o.All()[|o.hold| + j] == y;
    }
    ChainFrame(h, h[x := q], p, o.tail, Null);
  }

  // ---- store_tail

  ghost function TailLayout(s: State, a: Layout, t: nat): Layout
    requires Sized(s, a) && t < |s.threads|
  {
    var o := a.own[t];
    match s.threads[t]
    case Tail(item, n, list) =>
      if n < BUFFER_SIZE - 1 && o.tail != [] then a.(own := a.own[t := Beheaded(o)]) else a
    case TailRelink(item, x, rest) => a.(own := a.own[t := Own([item], [x] + o.tail)])
    case _ => a
  }

  lemma TailReadKeeps(s: State, a: Layout, t: nat)
    requires Accounts(s, a) && t < |s.threads| && s.threads[t].Tail?
    ensures Accounts(TailStep(s, t).s, TailLayout(s, a, t))
  {
    var s', o, pc := TailStep(s, t).s, a.own[t], s.threads[t];
    assert ThreadOk(s, a, t);
    if pc.n < BUFFER_SIZE - 1 && o.tail != [] {
      BeheadKeeps(s.next, o, pc.list);
      QuietKeeps(s, a, s', t, s'.threads[t], Beheaded(o));
    } else {
      SameKeeps(s, a, s', t, s'.threads[t]);
    }
  }

  lemma TailCutKeeps(s: State, a: Layout, t: nat)
    requires Accounts(s, a) && t < |s.threads| && s.threads[t].TailCut?
    ensures Accounts(TailStep(s, t).s, TailLayout(s, a, t))
  {
    var s', pc := TailStep(s, t).s, s.threads[t];
    assert ThreadOk(s, a, t);
    UnlinkChain(s.next, a.own[t], pc.x, 1, pc.rest, Null);
    SameKeeps(s, a, s', t, s'.threads[t]);
  }

  /** The item that found no empty slot is put back in front of the rest. */
  lemma RelinkLocal(h: Heap, o: Own, item: Item, x: Item, rest: Ptr)
    requires o.hold == [item, x] && Chain(h, rest, o.tail, Null) && Distinct(o.All())
    ensures Own([item], [x] + o.tail).All() == o.All()
    ensures Chain(h[x := rest], Ref(x), [x] + o.tail, Null)
  {
    UnlinkChain(h, o, x, 1, rest, rest);
    ChainCons(h[x := rest], x, o.tail, Null);
  }

  lemma TailRelinkKeeps(s: State, a: Layout, t: nat)
    requires Accounts(s, a) && t < |s.threads| && s.threads[t].TailRelink?
    ensures Accounts(TailStep(s, t).s, TailLayout(s, a, t))
  {
    var s', o, pc := TailStep(s, t).s, a.own[t], s.threads[t];
    assert ThreadOk(s, a, t);
    RelinkLocal(s.next, o, pc.item, pc.x, pc.rest);
    QuietKeeps(s, a, s', t, s'.threads[t], Own([pc.item], [pc.x] + o.tail));
  }

  lemma TailKeeps(s: State, a: Layout, t: nat)
    requires Accounts(s, a) && t < |s.threads| && InTail(s.threads[t])
    ensures Accounts(TailStep(s, t).s, TailLayout(s, a, t))
  {
    match s.threads[t] {
      case Tail(_, _, _) => TailReadKeeps(s, a, t);
      case TailCut(_, _, _, _) => TailCutKeeps(s, a, t);
      case TailRelink(_, _, _) => TailRelinkKeeps(s, a, t);
    }
  }

  // ---- store_in_empty_slot

  ghost function EmptyLayout(s: State, a: Layout, t: nat): Layout
    requires Sized(s, a) && t < |s.threads|
  {
    var o := a.own[t];
    match s.threads[t]
    case EmptyProbe(item, job, sc) =>
      if s.cells[sc.Slot()] == Null then
        (match job
         case Single(n, x, rest) => Exchanged(a, t, Own([item], o.tail), sc.Slot(), [x])
         case Whole(x) => Exchanged(a, t, Own([item], []), sc.Slot(), o.tail))
      else a
    case _ => a
  }

  lemma HeldOffTail(o: Own)
    requires |o.hold| == 1 && Distinct(o.All())
    ensures o.All() == [o.hold[0]] + o.tail && o.hold[0] !in o.tail && Distinct(o.tail)
  {
    assert o.All()[0] == o.hold[0];
    forall j | 0 <= j < |o.tail| ensures o.All()[j + 1] == o.tail[j] {}
  }

  lemma SecondHeld(o: Own)
    requires |o.hold| == 2 && Distinct(o.All())
    ensures var rest := [o.hold[0]] + o.tail;
      Distinct(rest) && o.hold[1] !in rest && forall y :: y in o.All() <==> y == o.hold[1] || y in rest
  {
    var x, y := o.hold[0], o.hold[1];
    var rest := [x] + o.tail;
    assert o.All() == [x, y] + o.tail;
    assert o.All()[1] == y;
    forall i | 0 <= i < |rest|
      ensures rest[i] == o.All()[if i == 0 then 0 else i + 1] && rest[i] != y
    {
    }
  }

  lemma StoreOneKeeps(s: State, a: Layout, t: nat)
    requires Accounts(s, a) && t < |s.threads| && s.threads[t].EmptyProbe? && s.threads[t].job.Single?
    requires s.cells[s.threads[t].sc.Slot()] == Null
    ensures Accounts(EmptyStep(s, t).s, EmptyLayout(s, a, t))
  {
    var s', o, pc := EmptyStep(s, t).s, a.own[t], s.threads[t];
    var c, x := pc.sc.Slot(), pc.job.x;
    assert ThreadOk(s, a, t) && CellOk(s, a, c);
    assert a.lists[c] == [];
    SecondHeld(o);
    var o' := Own([pc.item], o.tail);
    assert o'.All() == [pc.item] + o.tail;
    ExchangeKeeps(s, a, s', t, s'.threads[t], o', c, Ref(x), [x]);
  }

  lemma StoreAllKeeps(s: State, a: Layout, t: nat)
    requires Accounts(s, a) && t < |s.threads| && s.threads[t].EmptyProbe? && s.threads[t].job.Whole?
    requires s.cells[s.threads[t].sc.Slot()] == Null
    ensures Accounts(EmptyStep(s, t).s, EmptyLayout(s, a, t))
  {
    var s', o, pc := EmptyStep(s, t).s, a.own[t], s.threads[t];
    var c := pc.sc.Slot();
    assert ThreadOk(s, a, t) && CellOk(s, a, c);
    assert a.lists[c] == [];
    HeldOffTail(o);
    var o' := Own([pc.item], []);
    assert o'.All() == [pc.item];
    ExchangeKeeps(s, a, s', t, s'.threads[t], o', c, Ref(pc.job.x), o.tail);
  }

  lemma EmptyKeeps(s: State, a: Layout, t: nat)
    requires Accounts(s, a) && t < |s.threads| && InEmpty(s.threads[t])
    ensures Accounts(EmptyStep(s, t).s, EmptyLayout(s, a, t))
  {
    var pc := s.threads[t];
    if pc.EmptyProbe? && s.cells[pc.sc.Slot()] == Null {
      if pc.job.Single? { StoreOneKeeps(s, a, t); } else { StoreAllKeeps(s, a, t); }
    } else {
      assert ThreadOk(s, a, t);
      SameKeeps(s, a, EmptyStep(s, t).s, t, EmptyStep(s, t).s.threads[t]);
    }
  }

  // ---- store_in_occupied_slot

  ghost function OccLayout(s: State, a: Layout, t: nat, ch: Choice): Layout
    requires Sized(s, a) && t < |s.threads|
  {
    var o := a.own[t];
    match s.threads[t]
    case OccSwap(item, from, list, c) => Exchanged(a, t, Own([item], a.lists[c]), c, o.tail)
    case OccCas(item, from, c, expected, head, last) =>
      if s.cells[c] == expected && ch != FailSpuriously
      then Exchanged(a, t, Own([item], []), c, o.tail + a.lists[c]) else a
    case _ => a
  }

  lemma SwapKeeps(s: State, a: Layout, t: nat)
    requires Accounts(s, a) && t < |s.threads| && s.threads[t].OccSwap?
    ensures Accounts(OccStep(s, t, Go).s, OccLayout(s, a, t, Go))
  {
    var pc := s.threads[t];
    var o, l := a.own[t], a.lists[pc.c];
    var s' := OccStep(s, t, Go).s;
    assert ThreadOk(s, a, t) && CellOk(s, a, pc.c);
    HeldOffTail(o);
    ChainAcyclic(s.next, s.cells[pc.c], l);
    var o' := Own([pc.item], l);
    assert o'.All() == [pc.item] + l;
    assert pc.item in o.All();
    assert forall x :: x in l ==> x !in o.All();
    ExchangeKeeps(s, a, s', t, s'.threads[t], o', pc.c, pc.list, o.tail);
  }

  lemma FindKeeps(s: State, a: Layout, t: nat)
    requires Accounts(s, a) && t < |s.threads| && s.threads[t].OccFind?
    ensures Accounts(OccStep(s, t, Go).s, a)
  {
    var pc := s.threads[t];
    assert ThreadOk(s, a, t);
    FindStays(s.next, Ref(pc.head), a.own[t].tail, pc.last);
    SameKeeps(s, a, OccStep(s, t, Go).s, t, OccStep(s, t, Go).s.threads[t]);
  }

  lemma LinkKeeps(s: State, a: Layout, t: nat)
    requires Accounts(s, a) && t < |s.threads| && s.threads[t].OccLink?
    ensures Accounts(OccStep(s, t, Go).s, a)
  {
    var pc, o := s.threads[t], a.own[t];
    assert ThreadOk(s, a, t);
    HeldOffTail(o);
    ChainRetarget(s.next, Ref(pc.head), o.tail, Next(s.next, pc.last), pc.expected);
    assert pc.last in o.All();
    SameKeeps(s, a, OccStep(s, t, Go).s, t, OccStep(s, t, Go).s.threads[t]);
  }

  lemma OccKeeps(s: State, a: Layout, t: nat, ch: Choice)
    requires Accounts(s, a) && t < |s.threads| && InOcc(s.threads[t])
    ensures Accounts(OccStep(s, t, ch).s, OccLayout(s, a, t, ch))
  {
    match s.threads[t] {
      case OccSwap(_, _, _, _) => SwapKeeps(s, a, t);
      case OccFind(_, _, _, _, _, _) => FindKeeps(s, a, t);
      case OccLink(_, _, _, _, _, _) => LinkKeeps(s, a, t);
      case OccCas(_, _, c, expected, _, _) =>
        if s.cells[c] == expected && ch != FailSpuriously {
          SpliceKeeps(s, a, t, ch);
        } else {
          assert ThreadOk(s, a, t);
          SameKeeps(s, a, OccStep(s, t, ch).s, t, OccStep(s, t, ch).s.threads[t]);
        }
      case OccIndex(_, _, _) =>
        assert ThreadOk(s, a, t);
        SameKeeps(s, a, OccStep(s, t, ch).s, t, OccStep(s, t, ch).s.threads[t]);
    }
  }

  /** While the walk has not met null it stays inside the list, and it meets null at the last item. */
  lemma FindStays(h: Heap, p: Ptr, l: seq<Item>, x: Item)
    requires Chain(h, p, l, Null) && x in l
    ensures match Next(h, x) case Null => x == l[|l| - 1] case Ref(y) => y in l
  {
    var i :| 0 <= i < |l| && l[i] == x;
    assert Next(h, l[i]) == At(l, i + 1, Null);
  }

  lemma SpliceKeeps(s: State, a: Layout, t: nat, ch: Choice)
    requires Accounts(s, a) && t < |s.threads| && s.threads[t].OccCas?
    requires s.cells[s.threads[t].c] == s.threads[t].expected && ch != FailSpuriously
    ensures Accounts(OccStep(s, t, ch).s, OccLayout(s, a, t, ch))
  {
    var pc := s.threads[t];
    var o, l := a.own[t], a.lists[pc.c];
    var s' := OccStep(s, t, ch).s;
    assert ThreadOk(s, a, t) && CellOk(s, a, pc.c);
    HeldOffTail(o);
    ChainJoin(s.next, Ref(pc.head), o.tail, pc.expected, l, Null);
    var o' := Own([pc.item], []);
    assert o'.All() == [pc.item];
    assert pc.item in o.All();
    ExchangeKeeps(s, a, s', t, s'.threads[t], o', pc.c, Ref(pc.head), o.tail + l);
  }

  // ---- calls

  ghost function CallLayout(s: State, a: Layout, t: nat, ch: Choice): Layout
    requires Sized(s, a) && t < |s.threads|
  {
    match ch
    case CallPut(x, prio) =>
      if x in s.outside
      then Layout(Relabel(a.place, t, [x], 0, []), a.lists, a.own[t := Own([x], [])]) else a
    case _ => a
  }

  /** A link outside is written only if its item is outside. */
  lemma CallFrame(s: State, a: Layout, t: nat, ch: Choice)
    requires Accounts(s, a) && t < |s.threads| && s.threads[t].Idle?
    ensures var s' := CallStep(s, t, ch).s;
      && s'.cells == s.cells && s'.items == s.items
      && forall x :: x in s.items && x !in s.outside ==> Next(s'.next, x) == Next(s.next, x)
  {
  }

  lemma CallKeeps(s: State, a: Layout, t: nat, ch: Choice)
    requires Accounts(s, a) && t < |s.threads| && s.threads[t].Idle?
    ensures Accounts(CallStep(s, t, ch).s, CallLayout(s, a, t, ch))
  {
    var s', a' := CallStep(s, t, ch).s, CallLayout(s, a, t, ch);
    assert ThreadOk(s, a, t);
    CallFrame(s, a, t, ch);
    assert NOTHING.All() == [];
    if ch.CallPut? {
      assert Own([ch.x], []).All() == [ch.x];
    }
    assert a'.place.Keys == s'.items;
    forall d: Cell
      ensures CellOk(s', a', d)
    {
      assert CellOk(s, a, d);
      ChainFrame(s.next, s'.next, s.cells[d], a.lists[d], Null);
    }
    forall u: nat | u < |s'.threads|
      ensures ThreadOk(s', a', u)
    {
      assert ThreadOk(s, a, u);
      if u != t {
        LocalFrame(s.next, s'.next, s.threads[u], a.own[u]);
      }
    }
  }

  // ---- all steps

  ghost function StepLayout(s: State, a: Layout, t: nat, ch: Choice): Layout
    requires Sized(s, a)
  {
    if t >= |s.threads| then a
    else
      var pc := s.threads[t];
      if pc.Idle? then CallLayout(s, a, t, ch)
      else if InPut(pc) then PutLayout(s, a, t, ch)
      else if InTail(pc) then TailLayout(s, a, t)
      else if InEmpty(pc) then EmptyLayout(s, a, t)
      else if InOcc(pc) then OccLayout(s, a, t, ch)
      else GetLayout(s, a, t)
  }

  /** One atomic step of any thread keeps every item in exactly one place. */
  lemma StepKeeps(s: State, a: Layout, t: nat, ch: Choice)
    requires Accounts(s, a)
    ensures Accounts(Step(s, t, ch).s, StepLayout(s, a, t, ch))
  {
    if t < |s.threads| {
      var pc := s.threads[t];
      if pc.Idle? { CallKeeps(s, a, t, ch); }
      else if InPut(pc) { PutKeeps(s, a, t, ch); }
      else if InTail(pc) { TailKeeps(s, a, t); }
      else if InEmpty(pc) { EmptyKeeps(s, a, t); }
      else if InOcc(pc) { OccKeeps(s, a, t, ch); }
      else { GetKeeps(s, a, t); }
    }
  }
}
