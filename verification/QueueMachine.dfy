/** `LockFreeQueue` run by any number of threads, one atomic operation per step.

    Every access to a shared atomic (a slot, a stack head, a position counter) is a step of its
    own, and so is every read or write of a `next` field that may be shared by mistake.  The
    memory model is sequentially consistent and a weak compare-exchange may fail spuriously.

    Seven shared list heads ("cells"): 0..3 are `m_buffer`, 4..6 are `m_prio_queue`. */
module QueueMachine {
  import opened Links
  import opened Scan

  const CELLS: nat := 7

  type Cell = c: nat | c < CELLS
  type Cells = s: seq<Ptr> | |s| == CELLS witness [Null, Null, Null, Null, Null, Null, Null]

  /** What a search for an empty slot is for: one item of a tail that `store_tail` spreads (its
      loop counter, the item, the rest of the list), or a whole list given to `put_items_list`. */
  datatype Job = Single(n: nat, x: Item, rest: Ptr) | Whole(x: Item)

  /** Where a `get_item` call found its list. */
  datatype Origin = Buffer | Stack

  /** What `get_item` still has to do for `item` after it stored the tail: the buffer clears the
      link last (bound_buffer.hpp:105), the stack path has cleared it already. */
  function After(from: Origin, item: Item): Pc {
    if from == Buffer then Finish(item) else Answer(Ref(item))
  }

  /** Program counters.  Each names the operation it is about to execute. */
  datatype Pc =
    | Idle
    // put_item
    | PutIndex(x: Item)                           // load m_get_position
    | PutLoad(x: Item, c: Cell)                   // load the head
    | PutLink(x: Item, c: Cell, expected: Ptr)    // item->set_next( expected )
    | PutCas(x: Item, c: Cell, expected: Ptr)     // compare_exchange_weak( expected, item )
    // get_item on the buffer
    | GetIndex                                    // load m_get_position
    | GetProbe(sc: Scan)                          // exchange( nullptr )
    | GetReread(sc: Scan)                         // load m_get_position again
    | GetAdvance(item: Item, i: nat)              // fetch_add( i + 1 )
    | GetTail(item: Item)                         // read item->next()
    // get_item on the stacks
    | PopList(k: nat)                             // exchange( nullptr ) on stack k
    | Split(item: Item)                           // read item->next()
    | Unlink(item: Item, list: Ptr)               // item->set_next( nullptr )
    // store_tail
    | Tail(item: Item, n: nat, list: Ptr)         // read list->next()
    | TailCut(item: Item, n: nat, x: Item, rest: Ptr)    // x->set_next( nullptr )
    | TailRelink(item: Item, x: Item, rest: Ptr)         // x->set_next( rest )
    // store_in_empty_slot
    | EmptyIndex(item: Item, job: Job)            // load m_put_position
    | EmptyProbe(item: Item, job: Job, sc: Scan)  // compare_exchange_strong( nullptr, list )
    | EmptyReread(item: Item, job: Job, sc: Scan) // load m_put_position again
    | EmptyAdvance(item: Item, job: Job, i: nat)  // fetch_add( i + 1 )
    // store_in_occupied_slot
    | OccIndex(item: Item, from: Origin, list: Ptr)              // fetch_add( 1 )
    | OccSwap(item: Item, from: Origin, list: Ptr, c: Cell)      // exchange( list )
    | OccFind(item: Item, from: Origin, c: Cell, expected: Ptr, head: Item, last: Item)  // read last->next()
    | OccLink(item: Item, from: Origin, c: Cell, expected: Ptr, head: Item, last: Item)  // last->set_next( expected )
    // compare_exchange_weak( expected, head )
    | OccCas(item: Item, from: Origin, c: Cell, expected: Ptr, head: Item, last: Item)
    // return
    | Finish(item: Item)                          // item->set_next( nullptr )
    | Answer(p: Ptr)                              // return p

  /** `items` is the universe of items and `outside` the items that are neither in the queue nor
      in a call: those a client may put.  `getMoves` and `putMoves` count the increments of the two
      positions; the code does not have them, the scan bound is stated with them. */
  datatype State = State(
    next: Heap, cells: Cells, getPos: Pos, putPos: Pos, threads: seq<Pc>,
    items: set<Item>, outside: set<Item>, getMoves: nat, putMoves: nat)

  /** The scheduler's choices: which call an idle thread makes, whether a weak compare-exchange
      fails spuriously.  `Scribble` is a client writing the link of an item outside the queue. */
  datatype Choice = Go | FailSpuriously | CallPut(x: Item, prio: nat) | CallGet | Scribble(y: Item, p: Ptr)

  datatype Event =
    | Silent
    | PutCalled(x: Item)
    | PutEffect(x: Item)
    | GetCalled
    | GetEffect(x: Item)
    | GetEmpty
    | Returned(p: Ptr)

  datatype Out = Out(s: State, e: Event)

  function Moved(s: State, t: nat, pc: Pc): State
    requires t < |s.threads|
  {
    s.(threads := s.threads[t := pc])
  }

  function Advanced(position: Pos, steps: nat): Pos {
    Wrap(position + steps)
  }

  /** The cell `put_item` pushes to for priorities above zero. */
  function StackCell(prio: nat): Cell
    requires prio > 0
  {
    BUFFER_SIZE + if prio >= STACKS then STACKS - 1 else prio - 1
  }

  /** What every step keeps: the other threads, the universe, and a count of position changes. */
  ghost predicate Steady(s: State, s': State, t: nat) {
    && |s'.threads| == |s.threads| && s'.items == s.items
    && (forall u: nat :: u < |s.threads| && u != t ==> s'.threads[u] == s.threads[u])
    && s.getMoves <= s'.getMoves && (s.getMoves == s'.getMoves ==> s.getPos == s'.getPos)
    && s.putMoves <= s'.putMoves && (s.putMoves == s'.putMoves ==> s.putPos == s'.putPos)
  }

  function CallStep(s: State, t: nat, ch: Choice): (r: Out)
    requires t < |s.threads|
    ensures Steady(s, r.s, t)
  {
    match ch
    case CallPut(x, prio) =>
      if x !in s.outside then Out(s, Silent)
      else
        var s' := s.(outside := s.outside - {x});
        Out(Moved(s', t, if prio == 0 then PutIndex(x) else PutLoad(x, StackCell(prio))), PutCalled(x))
    case CallGet => Out(Moved(s, t, GetIndex), GetCalled)
    case Scribble(y, p) =>
      if y in s.outside then Out(s.(next := s.next[y := p]), Silent) else Out(s, Silent)
    case _ => Out(s, Silent)
  }

  function PutStep(s: State, t: nat, ch: Choice): (r: Out)
    requires t < |s.threads|
    ensures Steady(s, r.s, t)
  {
    match s.threads[t]
    case PutIndex(x) => Out(Moved(s, t, PutLoad(x, s.getPos % BUFFER_SIZE)), Silent)
    case PutLoad(x, c) => Out(Moved(s, t, PutLink(x, c, s.cells[c])), Silent)
    case PutLink(x, c, expected) => Out(Moved(s.(next := s.next[x := expected]), t, PutCas(x, c, expected)), Silent)
    case PutCas(x, c, expected) =>
      if s.cells[c] == expected && ch != FailSpuriously then
        Out(Moved(s.(cells := s.cells[c := Ref(x)]), t, Idle), PutEffect(x))
      else
        Out(Moved(s, t, PutLink(x, c, s.cells[c])), Silent)
    case _ => Out(s, Silent)
  }

  function GetStep(s: State, t: nat): (r: Out)
    requires t < |s.threads|
    ensures Steady(s, r.s, t)
  {
    match s.threads[t]
    case GetIndex => Out(Moved(s, t, GetProbe(Begin(s.getPos, s.getMoves))), Silent)
    case GetProbe(sc) =>
      var c := sc.Slot();
      (match s.cells[c]
       case Null => Out(Moved(s, t, GetReread(sc.Probed())), Silent)
       case Ref(x) => Out(Moved(s.(cells := s.cells[c := Null]), t, GetAdvance(x, sc.i)), GetEffect(x)))
    case GetReread(sc) =>
      var sc' := sc.Reread(s.getPos, s.getMoves);
      Out(Moved(s, t, if sc'.i < BUFFER_SIZE then GetProbe(sc') else PopList(0)), Silent)
    case GetAdvance(item, i) =>
      Out(Moved(s.(getPos := Advanced(s.getPos, i + 1), getMoves := s.getMoves + 1), t, GetTail(item)), Silent)
    case GetTail(item) =>
      (match Next(s.next, item)
       case Null => Out(Moved(s, t, Answer(Ref(item))), Silent)
       case Ref(y) => Out(Moved(s, t, Tail(item, 0, Ref(y))), Silent))
    case PopList(k) =>
      if k >= STACKS then Out(Moved(s, t, Answer(Null)), GetEmpty)
      else
        (match s.cells[BUFFER_SIZE + k]
         case Null => Out(Moved(s, t, PopList(k + 1)), Silent)
         case Ref(x) => Out(Moved(s.(cells := s.cells[BUFFER_SIZE + k := Null]), t, Split(x)), GetEffect(x)))
    case Split(item) => Out(Moved(s, t, Unlink(item, Next(s.next, item))), Silent)
    case Unlink(item, list) =>
      var s' := s.(next := s.next[item := Null]);
      (match list
       case Null => Out(Moved(s', t, Answer(Ref(item))), Silent)
       case Ref(x) => Out(Moved(s', t, EmptyIndex(item, Whole(x))), Silent))
    case Finish(item) => Out(Moved(s.(next := s.next[item := Null]), t, Answer(Ref(item))), Silent)
    case Answer(p) =>
      Out(Moved(s.(outside := s.outside + if p.Ref? then {p.item} else {}), t, Idle), Returned(p))
    case _ => Out(s, Silent)
  }

  function TailStep(s: State, t: nat): (r: Out)
    requires t < |s.threads|
    ensures Steady(s, r.s, t)
  {
    match s.threads[t]
    case Tail(item, n, list) =>
      if n >= BUFFER_SIZE - 1 then Out(Moved(s, t, OccIndex(item, Buffer, list)), Silent)
      else
        (match list
         case Null => Out(Moved(s, t, Finish(item)), Silent)
         case Ref(x) => Out(Moved(s, t, TailCut(item, n, x, Next(s.next, x))), Silent))
    case TailCut(item, n, x, rest) =>
      Out(Moved(s.(next := s.next[x := Null]), t, EmptyIndex(item, Single(n, x, rest))), Silent)
    case TailRelink(item, x, rest) =>
      Out(Moved(s.(next := s.next[x := rest]), t, OccIndex(item, Buffer, Ref(x))), Silent)
    case _ => Out(s, Silent)
  }

  /** What follows `store_in_empty_slot`, by its result. */
  function Stored(item: Item, job: Job): Pc {
    match job
    case Single(n, x, rest) => Tail(item, n + 1, rest)
    case Whole(x) => Answer(Ref(item))
  }

  function Full(item: Item, job: Job): Pc {
    match job
    case Single(n, x, rest) => TailRelink(item, x, rest)
    case Whole(x) => OccIndex(item, Stack, Ref(x))
  }

  function EmptyStep(s: State, t: nat): (r: Out)
    requires t < |s.threads|
    ensures Steady(s, r.s, t)
  {
    match s.threads[t]
    case EmptyIndex(item, job) => Out(Moved(s, t, EmptyProbe(item, job, Begin(s.putPos, s.putMoves))), Silent)
    case EmptyProbe(item, job, sc) =>
      var c := sc.Slot();
      if s.cells[c] == Null then
        Out(Moved(s.(cells := s.cells[c := Ref(job.x)]), t, EmptyAdvance(item, job, sc.i)), Silent)
      else
        Out(Moved(s, t, EmptyReread(item, job, sc.Probed())), Silent)
    case EmptyReread(item, job, sc) =>
      var sc' := sc.Reread(s.putPos, s.putMoves);
      Out(Moved(s, t, if sc'.i < BUFFER_SIZE then EmptyProbe(item, job, sc') else Full(item, job)), Silent)
    case EmptyAdvance(item, job, i) =>
      Out(Moved(s.(putPos := Advanced(s.putPos, i + 1), putMoves := s.putMoves + 1), t, Stored(item, job)), Silent)
    case _ => Out(s, Silent)
  }

  function OccStep(s: State, t: nat, ch: Choice): (r: Out)
    requires t < |s.threads|
    ensures Steady(s, r.s, t)
  {
    match s.threads[t]
    case OccIndex(item, from, list) =>
      Out(Moved(s.(putPos := Advanced(s.putPos, 1), putMoves := s.putMoves + 1), t,
                OccSwap(item, from, list, s.putPos % BUFFER_SIZE)), Silent)
    case OccSwap(item, from, list, c) =>
      var s' := s.(cells := s.cells[c := list]);
      (match s.cells[c]
       case Null => Out(Moved(s', t, After(from, item)), Silent)
       case Ref(head) => Out(Moved(s', t, OccFind(item, from, c, list, head, head)), Silent))
    case OccFind(item, from, c, expected, head, last) =>
      (match Next(s.next, last)
       case Null => Out(Moved(s, t, OccLink(item, from, c, expected, head, last)), Silent)
       case Ref(y) => Out(Moved(s, t, OccFind(item, from, c, expected, head, y)), Silent))
    case OccLink(item, from, c, expected, head, last) =>
      Out(Moved(s.(next := s.next[last := expected]), t, OccCas(item, from, c, expected, head, last)), Silent)
    case OccCas(item, from, c, expected, head, last) =>
      if s.cells[c] == expected && ch != FailSpuriously then
        Out(Moved(s.(cells := s.cells[c := Ref(head)]), t, After(from, item)), Silent)
      else
        Out(Moved(s, t, OccLink(item, from, c, s.cells[c], head, last)), Silent)
    case _ => Out(s, Silent)
  }

  predicate InPut(pc: Pc) {
    pc.PutIndex? || pc.PutLoad? || pc.PutLink? || pc.PutCas?
  }

  predicate InTail(pc: Pc) {
    pc.Tail? || pc.TailCut? || pc.TailRelink?
  }

  predicate InEmpty(pc: Pc) {
    pc.EmptyIndex? || pc.EmptyProbe? || pc.EmptyReread? || pc.EmptyAdvance?
  }

  predicate InOcc(pc: Pc) {
    pc.OccIndex? || pc.OccSwap? || pc.OccFind? || pc.OccLink? || pc.OccCas?
  }

  /** One step of thread `t`.  A choice that does not apply leaves the state as it is. */
  function Step(s: State, t: nat, ch: Choice): (r: Out)
    ensures Steady(s, r.s, t)
  {
    if t >= |s.threads| then Out(s, Silent)
    else
      var pc := s.threads[t];
      if pc.Idle? then CallStep(s, t, ch)
      else if InPut(pc) then PutStep(s, t, ch)
      else if InTail(pc) then TailStep(s, t)
      else if InEmpty(pc) then EmptyStep(s, t)
      else if InOcc(pc) then OccStep(s, t, ch)
      else GetStep(s, t)
  }

  /** A fresh queue, `n` idle threads, every item outside. */
  function Init(n: nat, items: set<Item>, next: Heap): State {
    State(next, [Null, Null, Null, Null, Null, Null, Null], 0, 0, seq(n, _ => Idle), items, items, 0, 0)
  }

  datatype Turn = Turn(t: nat, ch: Choice)

  /** The state after a whole schedule. */
  function Run(s: State, turns: seq<Turn>): State {
    if turns == [] then s
    else
      var last := turns[|turns| - 1];
      Step(Run(s, turns[..|turns| - 1]), last.t, last.ch).s
  }

  /** The events of a whole schedule, in order. */
  function Trace(s: State, turns: seq<Turn>): seq<Event> {
    if turns == [] then []
    else
      var last := turns[|turns| - 1];
      Trace(s, turns[..|turns| - 1]) + [Step(Run(s, turns[..|turns| - 1]), last.t, last.ch).e]
  }
}
