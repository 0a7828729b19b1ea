/** The circular probe loop that `get_item` and `store_in_empty_slot` share: read a position,
    probe up to four slots from there, and start again whenever the position was seen to move. */
module Scan {

  import opened Basics

  const BUFFER_SIZE: nat := 4
  /** The number of priority stacks. */
  const STACKS: nat := 3

  type Pos = x: nat | x < WORD

  function Wrap(x: nat): Pos {
    x % WORD
  }

  /** `m_buffer[(index + i) % BUFFER_SIZE]`, with the addition done in 32 bits. */
  function SlotOf(index: Pos, i: nat): (r: nat)
    ensures r < BUFFER_SIZE
    ensures r == (index + i) % BUFFER_SIZE
  {
    Wrap(index + i) % BUFFER_SIZE
  }

  /** Wrapping does not change the slot, because 4 divides 2^32. */
  lemma WrapKeepsSlot(x: nat)
    ensures Wrap(x) % BUFFER_SIZE == x % BUFFER_SIZE
  {
    var q := x / WORD;
    assert x == Wrap(x) + BUFFER_SIZE * (q * 0x4000_0000);
  }

  lemma WrapTwice(x: nat, k: nat)
    ensures Wrap(Wrap(x) + k) == Wrap(x + k)
  {
    var q := x / WORD;
    assert x + k == Wrap(x) + k + WORD * q;
  }

  /** One probe: the position value the loop was working with, and the slot it touched. */
  datatype Probe = Probe(position: Pos, slot: nat)

  /** The loop's two variables `index` and `i`, with three history variables: the probes made so
      far, and the number of position moves (by anybody) when the scan began and when the position
      was last read. */
  datatype Scan = Scan(index: Pos, i: nat, trail: seq<Probe>, base: nat, seen: nat)
  {
    /** The slot the next probe touches. */
    function Slot(): nat {
      SlotOf(index, i)
    }

    function Probed(): Scan {
      this.(trail := trail + [Probe(index, Slot())])
    }

    /** `if( index != next_index ) { index = next_index; i = 0; } else { ++i; }` */
    function Reread(position: Pos, moves: nat): Scan {
      if position != index then this.(index := position, i := 0, seen := moves)
      else this.(i := i + 1, seen := moves)
    }
  }

  function Begin(position: Pos, moves: nat): Scan {
    Scan(position, 0, [], moves, moves)
  }

  /** How often the position value changed along a trail that is now working with `index`. */
  function Changes(trail: seq<Probe>, index: Pos): nat {
    if trail == [] then 0
    else
      var last := trail[|trail| - 1];
      Changes(trail[..|trail| - 1], last.position) + if last.position == index then 0 else 1
  }

  /** The last `n` probes ran over consecutive slots from `index`, all under that position value. */
  ghost predicate CleanLap(trail: seq<Probe>, index: Pos, n: nat) {
    && n <= |trail|
    && forall k :: |trail| - n <= k < |trail| ==> trail[k] == Probe(index, SlotOf(index, k - (|trail| - n)))
  }

  /** What holds between probes; `made` is the number of probes of the current lap. */
  ghost predicate Tidy(sc: Scan, made: nat) {
    && CleanLap(sc.trail, sc.index, made)
    && |sc.trail| <= BUFFER_SIZE * Changes(sc.trail, sc.index) + made
    && sc.base + Changes(sc.trail, sc.index) <= sc.seen
  }

  lemma TidyProbe(sc: Scan)
    requires Tidy(sc, sc.i)
    ensures Tidy(sc.Probed(), sc.i + 1)
  {
    var t := sc.Probed().trail;
    assert t[..|t| - 1] == sc.trail;
  }

  /** A re-read that sees a new position starts a new lap; one that does not continues the lap. */
  lemma TidyReread(sc: Scan, position: Pos, moves: nat)
    requires Tidy(sc, sc.i + 1) && sc.i < BUFFER_SIZE
    requires sc.seen <= moves && (position != sc.index ==> sc.seen < moves)
    ensures var next := sc.Reread(position, moves); Tidy(next, next.i)
  {
    var last := sc.trail[|sc.trail| - 1];
    assert last.position == sc.index;
    assert Changes(sc.trail, position) == Changes(sc.trail, sc.index) + if position == sc.index then 0 else 1;
  }

  /** Four consecutive slots modulo four are all different, also where the position wraps. */
  lemma LapHitsAllSlots(index: Pos, j: nat, k: nat)
    requires j < k < BUFFER_SIZE
    ensures SlotOf(index, j) != SlotOf(index, k)
  {
  }
}
