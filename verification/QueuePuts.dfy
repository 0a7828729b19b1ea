/** Where a concurrent `put_item` takes effect, however often its compare-exchange fails: in the stack its
    priority names, or in the slot the get position named when the call read it. */
module QueuePuts {
  import opened Links
  import opened Scan
  import opened QueueMachine

  /** The item and the cell of a put that knows its cell. */
  predicate Aims(pc: Pc, x: Item, c: Cell) {
    match pc
    case PutLoad(y, d) => y == x && d == c
    case PutLink(y, d, _) => y == x && d == c
    case PutCas(y, d, _) => y == x && d == c
    case _ => false
  }

  /** A step of a put keeps its item and its cell, or is its effect: the item is then in front of that
      cell, and no other cell changes.  A failed exchange starts over with the head that is there. */
  lemma PutKeepsCell(s: State, t: nat, ch: Choice, x: Item, c: Cell)
    requires t < |s.threads| && Aims(s.threads[t], x, c)
    ensures var r := Step(s, t, ch);
      if r.e == PutEffect(x)
      then r.s.threads[t] == Idle && r.s.cells == s.cells[c := Ref(x)] && s.threads[t] == PutCas(x, c, s.cells[c])
      else Aims(r.s.threads[t], x, c) && !r.s.threads[t].PutLoad? && r.s.cells == s.cells && r.e == Silent
    ensures s.threads[t].PutCas? && Step(s, t, ch).e == Silent ==>
      Step(s, t, ch).s.threads[t] == PutLink(x, c, s.cells[c])
  {
  }

  /** The cell a put of priority `prio` goes to: priorities above 3 count as 3. */
  function Target(prio: nat, getPos: Pos): Cell {
    if prio == 0 then getPos % BUFFER_SIZE
    else if prio < 3 then BUFFER_SIZE + prio - 1
    else BUFFER_SIZE + 2
  }

  /** Step `j` of the run is thread `t`'s call `put_item( x, prio )`. */
  ghost predicate CallsAt(from: State, turns: seq<Turn>, j: nat, t: nat, x: Item, prio: nat)
    requires j < |turns|
  {
    turns[j] == Turn(t, CallPut(x, prio)) && Step(Run(from, turns[..j]), t, CallPut(x, prio)).e == PutCalled(x)
  }

  /** Step `i` of the run is thread `t`'s read of the get position for item `x`. */
  ghost predicate ReadsAt(from: State, turns: seq<Turn>, i: nat, t: nat, x: Item)
    requires i < |turns|
  {
    var s := Run(from, turns[..i]);
    turns[i].t == t && t < |s.threads| && s.threads[t] == PutIndex(x)
  }

  /** Thread `t` makes no call after step `j`. */
  ghost predicate LastCall(from: State, turns: seq<Turn>, j: nat, t: nat) {
    forall i :: j < i < |turns| && turns[i].t == t ==> NotIdleAt(from, turns, i, t)
  }

  ghost predicate NotIdleAt(from: State, turns: seq<Turn>, i: nat, t: nat)
    requires i <= |turns|
  {
    var s := Run(from, turns[..i]); t < |s.threads| && s.threads[t] != Idle
  }

  /** Cell `c` is where the put of `x` that thread `t` began last has to go. */
  ghost predicate Due(from: State, turns: seq<Turn>, t: nat, x: Item, c: Cell) {
    exists j, prio :: 0 <= j < |turns| && CallsAt(from, turns, j, t, x, prio) && LastCall(from, turns, j, t)
      && DueFrom(from, turns, j, t, x, prio, c)
  }

  ghost predicate DueFrom(from: State, turns: seq<Turn>, j: nat, t: nat, x: Item, prio: nat, c: Cell) {
    if prio > 0 then c == Target(prio, 0)
    else exists i :: j < i < |turns| && ReadsAt(from, turns, i, t, x) && c == Target(0, Run(from, turns[..i]).getPos)
  }

  /** A put of priority 0 that has not read the position yet. */
  ghost predicate Begun(from: State, turns: seq<Turn>, t: nat, x: Item) {
    exists j :: 0 <= j < |turns| && CallsAt(from, turns, j, t, x, 0) && LastCall(from, turns, j, t)
  }

  /** What the run so far says about the put in progress in thread `t`. */
  ghost predicate Recalls(from: State, turns: seq<Turn>, t: nat) {
    var s := Run(from, turns);
    t < |s.threads| ==>
      && (s.threads[t].PutIndex? ==> Begun(from, turns, t, s.threads[t].x))
      && (forall x, c: Cell :: Aims(s.threads[t], x, c) ==> Due(from, turns, t, x, c))
  }

  // ---- every run

  /** A call begins where no call is in progress, and not in the middle of one. */
  lemma CallBegins(s: State, t: nat, ch: Choice)
    requires t < |s.threads| && s.threads[t] == Idle
    ensures var r := Step(s, t, ch);
      && (InPut(r.s.threads[t]) ==> ch.CallPut? && r.e == PutCalled(ch.x))
      && (r.s.threads[t].PutIndex? ==> ch.prio == 0 && r.s.threads[t].x == ch.x)
      && (forall x, c: Cell :: Aims(r.s.threads[t], x, c) ==> x == ch.x && ch.prio > 0 && c == Target(ch.prio, 0))
  {
  }

  lemma ReadsIndex(s: State, t: nat, ch: Choice)
    requires t < |s.threads| && s.threads[t].PutIndex?
    ensures Step(s, t, ch).s.threads[t] == PutLoad(s.threads[t].x, Target(0, s.getPos))
  {
  }

  /** A call of `get_item` does not turn into a put. */
  lemma GetsStay(s: State, t: nat, ch: Choice)
    requires t < |s.threads| && s.threads[t] != Idle && !InPut(s.threads[t])
    ensures !InPut(Step(s, t, ch).s.threads[t])
  {
    if InTail(s.threads[t]) { TailStays(s, t); }
    else if InEmpty(s.threads[t]) { EmptyStays(s, t); }
    else if InOcc(s.threads[t]) { OccStays(s, t, ch); }
  }

  lemma TailStays(s: State, t: nat)
    requires t < |s.threads| && InTail(s.threads[t])
    ensures !InPut(TailStep(s, t).s.threads[t])
  {
  }

  lemma EmptyStays(s: State, t: nat)
    requires t < |s.threads| && InEmpty(s.threads[t])
    ensures !InPut(EmptyStep(s, t).s.threads[t])
  {
  }

  lemma OccStays(s: State, t: nat, ch: Choice)
    requires t < |s.threads| && InOcc(s.threads[t])
    ensures !InPut(OccStep(s, t, ch).s.threads[t])
  {
  }

  /** What a call was stays true in a longer run, as long as its thread makes no other call. */
  lemma LastLater(from: State, turns: seq<Turn>, m: nat, j: nat, t: nat)
    requires j < m && |turns| == m + 1 && LastCall(from, turns[..m], j, t)
    requires turns[m].t == t ==> NotIdleAt(from, turns, m, t)
    ensures LastCall(from, turns, j, t)
  {
    forall i | j < i < |turns| && turns[i].t == t
      ensures NotIdleAt(from, turns, i, t)
    {
      if i < m {
        assert turns[..m][i] == turns[i] && turns[..m][..i] == turns[..i];
        assert NotIdleAt(from, turns[..m], i, t);
      }
    }
  }

  lemma BegunLater(from: State, turns: seq<Turn>, m: nat, t: nat, x: Item)
    requires |turns| == m + 1 && Begun(from, turns[..m], t, x)
    requires turns[m].t == t ==> NotIdleAt(from, turns, m, t)
    ensures Begun(from, turns, t, x)
  {
    var j :| 0 <= j < m && CallsAt(from, turns[..m], j, t, x, 0) && LastCall(from, turns[..m], j, t);
    assert turns[..m][..j] == turns[..j];
    LastLater(from, turns, m, j, t);
    assert CallsAt(from, turns, j, t, x, 0);
  }

  lemma DueLater(from: State, turns: seq<Turn>, m: nat, t: nat, x: Item, c: Cell)
    requires |turns| == m + 1 && Due(from, turns[..m], t, x, c)
    requires turns[m].t == t ==> NotIdleAt(from, turns, m, t)
    ensures Due(from, turns, t, x, c)
  {
    var j, prio :| 0 <= j < m && CallsAt(from, turns[..m], j, t, x, prio) && LastCall(from, turns[..m], j, t)
      && DueFrom(from, turns[..m], j, t, x, prio, c);
    assert turns[..m][..j] == turns[..j];
    LastLater(from, turns, m, j, t);
    assert CallsAt(from, turns, j, t, x, prio);
    DueFromLater(from, turns, m, j, t, x, prio, c);
  }

  lemma DueFromLater(from: State, turns: seq<Turn>, m: nat, j: nat, t: nat, x: Item, prio: nat, c: Cell)
    requires |turns| == m + 1 && DueFrom(from, turns[..m], j, t, x, prio, c)
    ensures DueFrom(from, turns, j, t, x, prio, c)
  {
    if prio == 0 {
      var i :| j < i < m && ReadsAt(from, turns[..m], i, t, x) && c == Target(0, Run(from, turns[..m][..i]).getPos);
      assert turns[..m][..i] == turns[..i];
      assert ReadsAt(from, turns, i, t, x);
    }
  }

  /** The read of the position: the cell is settled. */
  lemma ReadSettles(from: State, turns: seq<Turn>, m: nat, t: nat)
    requires |turns| == m + 1 && turns[m].t == t
    requires var s := Run(from, turns[..m]);
      t < |s.threads| && s.threads[t].PutIndex? && Begun(from, turns[..m], t, s.threads[t].x)
    ensures var s := Run(from, turns[..m]); Due(from, turns, t, s.threads[t].x, Target(0, s.getPos))
  {
    var s := Run(from, turns[..m]);
    var x := s.threads[t].x;
    var j :| 0 <= j < m && CallsAt(from, turns[..m], j, t, x, 0) && LastCall(from, turns[..m], j, t);
    assert turns[..m][..j] == turns[..j];
    assert NotIdleAt(from, turns, m, t);
    LastLater(from, turns, m, j, t);
    assert CallsAt(from, turns, j, t, x, 0);
    assert ReadsAt(from, turns, m, t, x);
    assert DueFrom(from, turns, j, t, x, 0, Target(0, s.getPos));
  }

  /** The last step, made by another thread. */
  lemma OtherRecalls(from: State, turns: seq<Turn>, m: nat, t: nat)
    requires |turns| == m + 1 && turns[m].t != t && Recalls(from, turns[..m], t)
    ensures Recalls(from, turns, t)
  {
    var s, s' := Run(from, turns[..m]), Run(from, turns);
    if t < |s'.threads| {
      assert s'.threads[t] == s.threads[t];
      if s.threads[t].PutIndex? {
        BegunLater(from, turns, m, t, s.threads[t].x);
      }
      forall x, c: Cell | Aims(s'.threads[t], x, c)
        ensures Due(from, turns, t, x, c)
      {
        DueLater(from, turns, m, t, x, c);
      }
    }
  }

  /** The last step, a call. */
  lemma CallRecalls(from: State, turns: seq<Turn>, m: nat, t: nat)
    requires |turns| == m + 1 && turns[m].t == t
    requires var s := Run(from, turns[..m]); t < |s.threads| && s.threads[t] == Idle
    ensures Recalls(from, turns, t)
  {
    var s, s', ch := Run(from, turns[..m]), Run(from, turns), turns[m].ch;
    CallBegins(s, t, ch);
    if InPut(s'.threads[t]) {
      assert CallsAt(from, turns, m, t, ch.x, ch.prio) && LastCall(from, turns, m, t);
      assert ch.prio == 0 ==> Begun(from, turns, t, ch.x);
      assert ch.prio > 0 ==> DueFrom(from, turns, m, t, ch.x, ch.prio, Target(ch.prio, 0));
    }
  }

  /** The last step, inside a call. */
  lemma OwnRecalls(from: State, turns: seq<Turn>, m: nat, t: nat)
    requires |turns| == m + 1 && turns[m].t == t && Recalls(from, turns[..m], t)
    requires var s := Run(from, turns[..m]); t < |s.threads| && s.threads[t] != Idle
    ensures Recalls(from, turns, t)
  {
    var s, s', ch := Run(from, turns[..m]), Run(from, turns), turns[m].ch;
    assert NotIdleAt(from, turns, m, t);
    if s.threads[t].PutIndex? {
      ReadsIndex(s, t, ch);
      ReadSettles(from, turns, m, t);
    } else if InPut(s.threads[t]) {
      var x, c := s.threads[t].x, s.threads[t].c;
      assert Aims(s.threads[t], x, c);
      PutKeepsCell(s, t, ch, x, c);
      DueLater(from, turns, m, t, x, c);
    } else {
      GetsStay(s, t, ch);
    }
  }

  lemma {:induction false} RunRecalls(n: nat, items: set<Item>, next: Heap, turns: seq<Turn>, t: nat)
    ensures Recalls(Init(n, items, next), turns, t)
    decreases |turns|
  {
    if turns != [] {
      var from, m := Init(n, items, next), |turns| - 1;
      RunRecalls(n, items, next, turns[..m], t);
      var s := Run(from, turns[..m]);
      if t < |s.threads| {
        if turns[m].t != t { OtherRecalls(from, turns, m, t); }
        else if s.threads[t] == Idle { CallRecalls(from, turns, m, t); }
        else { OwnRecalls(from, turns, m, t); }
      }
    }
  }

  /** An effect is the last step of a put. */
  lemma EffectAt(s: State, t: nat, ch: Choice, x: Item)
    requires Step(s, t, ch).e == PutEffect(x)
    ensures t < |s.threads| && s.threads[t].PutCas? && s.threads[t].x == x
  {
  }

  /** In every run, however many threads put and get and however often an exchange fails: when a put takes
      effect, its item is the new head of the cell that was due, that of the priority of the thread's last
      call, or the slot its read of the get position named, and every other cell is as it was. */
  lemma PutLandsInItsCell(n: nat, items: set<Item>, next: Heap, turns: seq<Turn>, t: nat, ch: Choice, x: Item)
    requires Step(Run(Init(n, items, next), turns), t, ch).e == PutEffect(x)
    ensures var s := Run(Init(n, items, next), turns);
      exists c: Cell :: Due(Init(n, items, next), turns, t, x, c) && Step(s, t, ch).s.cells == s.cells[c := Ref(x)]
  {
    var from := Init(n, items, next);
    var s := Run(from, turns);
    EffectAt(s, t, ch, x);
    RunRecalls(n, items, next, turns, t);
    var c := s.threads[t].c;
    assert Aims(s.threads[t], x, c);
    PutKeepsCell(s, t, ch, x, c);
    assert Due(from, turns, t, x, c);
  }

  // ---- store_in_occupied_slot

  /** A call that has displaced the list starting with `head` from slot `c`. */
  predicate Appends(pc: Pc, item: Item, from: Origin, c: Cell, head: Item) {
    match pc
    case OccFind(i, f, d, _, h, _) => i == item && f == from && d == c && h == head
    case OccLink(i, f, d, _, h, _) => i == item && f == from && d == c && h == head
    case OccCas(i, f, d, _, h, _) => i == item && f == from && d == c && h == head
    case _ => false
  }

  /** The slot is the one the put position names when it is advanced, and the displaced list is the one found
      there at the exchange. */
  lemma AppendBegins(s: State, t: nat, ch: Choice)
    requires t < |s.threads| && (s.threads[t].OccIndex? || s.threads[t].OccSwap?)
    ensures var pc, r := s.threads[t], Step(s, t, ch).s;
      if pc.OccIndex? then
        r.threads[t] == OccSwap(pc.item, pc.from, pc.list, Target(0, s.putPos)) && r.cells == s.cells
      else
        && r.cells == s.cells[pc.c := pc.list]
        && (s.cells[pc.c].Ref? ==> Appends(r.threads[t], pc.item, pc.from, pc.c, s.cells[pc.c].item))
        && (s.cells[pc.c].Null? ==> r.threads[t] == After(pc.from, pc.item))
  {
  }

  /** From then on every step keeps the slot and the displaced list, and changes no cell, until the exchange
      that succeeds puts this list back in front of this slot.  An exchange that fails starts over with the
      head that is there. */
  lemma AppendKeepsCell(s: State, t: nat, ch: Choice, item: Item, from: Origin, c: Cell, head: Item)
    requires t < |s.threads| && Appends(s.threads[t], item, from, c, head)
    ensures var pc, r := s.threads[t], Step(s, t, ch).s;
      if pc.OccCas? && s.cells[c] == pc.expected && ch != FailSpuriously
      then r.cells == s.cells[c := Ref(head)] && r.threads[t] == After(from, item)
      else
        && Appends(r.threads[t], item, from, c, head) && r.cells == s.cells
        && (pc.OccCas? ==> r.threads[t] == OccLink(item, from, c, s.cells[c], head, pc.last))
        && (!pc.OccCas? ==> r.threads[t].expected == pc.expected)
  {
  }
}
