/** The invariant of `QueueMachine`: every item is in exactly one place, every shared list is a
    null-terminated chain, and a thread's private segments have the shape its program counter needs. */
module QueueInvariant {
  import opened Basics
  import opened Links
  import opened QueueMachine

  /** Outside the queue, in the list of one cell, or in a private segment of one thread. */
  datatype Place = Outside | InCell(c: nat) | InThread(t: nat)

  /** A thread's private items: `hold` are single items, `tail` is a list still linked together. */
  datatype Own = Own(hold: seq<Item>, tail: seq<Item>) {
    function All(): seq<Item> { hold + tail }
  }

  /** The witness of the invariant: the place of every item, the list behind every cell, the
      segments of every thread. */
  datatype Layout = Layout(place: map<Item, Place>, lists: seq<seq<Item>>, own: seq<Own>)

  const NOTHING: Own := Own([], [])

  /** What thread-private state a program counter implies.  `hold` items may carry stale links
      unless the counter says otherwise; nothing here mentions a shared cell. */
  ghost predicate Local(h: Heap, pc: Pc, o: Own) {
    match pc
    case Idle | GetIndex | GetProbe(_) | GetReread(_) | PopList(_) => o == NOTHING
    case PutIndex(x) => o == Own([x], [])
    case PutLoad(x, c) => o == Own([x], [])
    case PutLink(x, c, expected) => o == Own([x], [])
    case PutCas(x, c, expected) => o == Own([x], []) && Next(h, x) == expected
    case GetAdvance(item, i) => o.hold == [] && o.tail != [] && Chain(h, Ref(item), o.tail, Null)
    case GetTail(item) => o.hold == [] && o.tail != [] && Chain(h, Ref(item), o.tail, Null)
    case Split(item) => o.hold == [] && o.tail != [] && Chain(h, Ref(item), o.tail, Null)
    case Unlink(item, list) => o.hold == [item] && Chain(h, list, o.tail, Null)
    case Tail(item, n, list) => o.hold == [item] && Chain(h, list, o.tail, Null)
    case TailCut(item, n, x, rest) => o.hold == [item, x] && Chain(h, rest, o.tail, Null)
    case TailRelink(item, x, rest) => o.hold == [item, x] && Chain(h, rest, o.tail, Null)
    case EmptyIndex(item, job) => ForJob(h, item, job, o)
    case EmptyProbe(item, job, sc) => ForJob(h, item, job, o)
    case EmptyReread(item, job, sc) => ForJob(h, item, job, o)
    case EmptyAdvance(item, job, i) => AfterJob(h, item, job, o)
    case OccIndex(item, from, list) => Last(h, item, from, o) && Chain(h, list, o.tail, Null)
    case OccSwap(item, from, list, c) => Last(h, item, from, o) && Chain(h, list, o.tail, Null)
    case OccFind(item, from, c, expected, head, last) =>
      Last(h, item, from, o) && Chain(h, Ref(head), o.tail, Null) && last in o.tail
    case OccLink(item, from, c, expected, head, last) =>
      Last(h, item, from, o) && o.tail != [] && last == o.tail[|o.tail| - 1]
          && Chain(h, Ref(head), o.tail, Next(h, last))
    case OccCas(item, from, c, expected, head, last) =>
      Last(h, item, from, o) && o.tail != [] && last == o.tail[|o.tail| - 1] && Chain(h, Ref(head), o.tail, expected)
    case Finish(item) => o == Own([item], [])
    case Answer(p) => if p == Null then o == NOTHING else o == Own([p.item], []) && Next(h, p.item) == Null
  }

  /** On the stack path the item to be returned has lost its link already. */
  ghost predicate Last(h: Heap, item: Item, from: Origin, o: Own) {
    o.hold == [item] && (from == Stack ==> Next(h, item) == Null)
  }

  ghost predicate ForJob(h: Heap, item: Item, job: Job, o: Own) {
    match job
    case Single(n, x, rest) => o.hold == [item, x] && Next(h, x) == Null && Chain(h, rest, o.tail, Null)
    case Whole(x) => Last(h, item, Stack, o) && o.tail != [] && Chain(h, Ref(x), o.tail, Null)
  }

  /** After the list went into an empty slot, only the rest is still private. */
  ghost predicate AfterJob(h: Heap, item: Item, job: Job, o: Own) {
    match job
    case Single(n, x, rest) => o.hold == [item] && Chain(h, rest, o.tail, Null)
    case Whole(x) => Last(h, item, Stack, o) && o.tail == []
  }

  ghost predicate Lies(a: Layout, x: Item, p: Place) {
    x in a.place && a.place[x] == p
  }

  ghost predicate Sized(s: State, a: Layout) {
    |a.lists| == CELLS && |a.own| == |s.threads|
  }

  ghost predicate Shaped(s: State, a: Layout) {
    && Sized(s, a)
    && a.place.Keys == s.items
    && forall x :: x in a.place ==> Exists(s, a.place[x])
  }

  predicate Exists(s: State, p: Place) {
    match p
    case Outside => true
    case InCell(c) => c < CELLS
    case InThread(t) => t < |s.threads|
  }

  ghost predicate CellOk(s: State, a: Layout, c: Cell)
    requires Shaped(s, a)
  {
    && Chain(s.next, s.cells[c], a.lists[c], Null)
    && forall x :: x in a.lists[c] <==> Lies(a, x, InCell(c))
  }

  ghost predicate ThreadOk(s: State, a: Layout, t: nat)
    requires Shaped(s, a) && t < |s.threads|
  {
    && Local(s.next, s.threads[t], a.own[t])
    && Distinct(a.own[t].All())
    && forall x :: x in a.own[t].All() <==> Lies(a, x, InThread(t))
  }

  /** `a` accounts for state `s`. */
  ghost predicate Accounts(s: State, a: Layout) {
    && Shaped(s, a)
    && (forall c: Cell :: CellOk(s, a, c))
    && (forall t: nat :: t < |s.threads| ==> ThreadOk(s, a, t))
    && (forall x :: x in s.outside <==> Lies(a, x, Outside))
  }

  /** A thread's private state is untouched by writes to other items. */
  lemma LocalFrame(h: Heap, h': Heap, pc: Pc, o: Own)
    requires Local(h, pc, o)
    requires forall x :: x in o.All() ==> Next(h', x) == Next(h, x)
    ensures Local(h', pc, o)
  {
    forall p, e | Chain(h, p, o.tail, e)
      ensures Chain(h', p, o.tail, e)
    {
      forall x | x in o.tail ensures Next(h', x) == Next(h, x) { assert x in o.All(); }
      ChainFrame(h, h', p, o.tail, e);
    }
    forall x | x in o.hold ensures Next(h', x) == Next(h, x) { assert x in o.All(); }
    if o.tail != [] {
      assert o.tail[|o.tail| - 1] in o.All();
    }
  }
}
