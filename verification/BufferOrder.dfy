/** The order in which `BoundBuffer` returns items, when nobody interferes. */
module BufferOrder {
  import opened Basics
  import opened Scan
  import opened BufferSpec

  // ---- at most four outstanding items: a first-in first-out queue

  /** `b` holds the queue `q`, oldest first: one item a slot, from the get position on. */
  ghost predicate HoldsFifo<T>(b: Buf<T>, q: seq<T>) {
    && Ok(b) && |q| <= BUFFER_SIZE
    && b.put == Wrap(b.get + |q|)
    && forall k: nat :: k < BUFFER_SIZE ==> SlotIs(b, q, k)
  }

  function Want<T>(q: seq<T>, k: nat): seq<T> {
    if k < |q| then [q[k]] else []
  }

  ghost predicate SlotIs<T>(b: Buf<T>, q: seq<T>, k: nat)
    requires Ok(b)
  {
    b.lists[SlotOf(b.get, k)] == Want(q, k)
  }

  lemma SlotShift(index: Pos, n: nat, k: nat)
    ensures SlotOf(Wrap(index + n), k) == SlotOf(index, n + k)
    ensures Wrap(Wrap(index + n) + k) == Wrap(index + n + k)
  {
    WrapKeepsSlot(index + n);
    WrapTwice(index + n, k);
    WrapKeepsSlot(Wrap(index + n) + k);
  }

  lemma FifoPut<T>(b: Buf<T>, q: seq<T>, x: T)
    requires HoldsFifo(b, q) && |q| < BUFFER_SIZE
    ensures HoldsFifo(PutList(b, [x]), q + [x])
  {
    var n, b' := |q|, PutList(b, [x]);
    SlotShift(b.get, n, 0);
    SlotShift(b.get, n, 1);
    assert SlotIs(b, q, n);
    assert FirstEmpty(b.lists, b.put, 0) == 0;
    forall k: nat | k < BUFFER_SIZE
      ensures SlotIs(b', q + [x], k)
    {
      assert SlotIs(b, q, k);
      if k < n { LapHitsAllSlots(b.get, k, n); } else if k > n { LapHitsAllSlots(b.get, n, k); }
    }
  }

  lemma FifoGet<T>(b: Buf<T>, q: seq<T>)
    requires HoldsFifo(b, q)
    ensures q == [] ==> Taken(b) == [] && AfterGet(b) == b
    ensures q != [] ==> Taken(b) == [q[0]] && HoldsFifo(AfterGet(b), q[1..])
  {
    FirstFullMeans(b.lists, b.get, 0);
    var i := FirstFull(b.lists, b.get, 0);
    if q == [] {
      assert i < BUFFER_SIZE ==> SlotIs(b, q, i);
    } else {
      assert SlotIs(b, q, 0);
      assert i == 0;
      var b' := AfterGet(b);
      SlotShift(b.get, 1, |q| - 1);
      forall k: nat | k < BUFFER_SIZE
        ensures SlotIs(b', q[1..], k)
      {
        SlotShift(b.get, 1, k);
        if k < BUFFER_SIZE - 1 {
          assert SlotIs(b, q, k + 1);
          LapHitsAllSlots(b.get, 0, k + 1);
        } else {
          assert SlotOf(b.get, BUFFER_SIZE) == SlotOf(b.get, 0);
        }
      }
    }
  }

  datatype Op<T> = Push(x: T) | Pull

  /** What the gets of a history answer. */
  function Answers<T>(b: Buf<T>, ops: seq<Op<T>>): seq<Option<T>>
    requires Ok(b)
    decreases |ops|
  {
    if ops == [] then []
    else
      match ops[0]
      case Push(x) => Answers(PutList(b, [x]), ops[1..])
      case Pull => [if Taken(b) == [] then None else Some(Taken(b)[0])] + Answers(AfterGet(b), ops[1..])
  }

  /** The same history on an ideal queue. */
  function Ideal<T>(q: seq<T>, ops: seq<Op<T>>): seq<Option<T>>
    decreases |ops|
  {
    if ops == [] then []
    else
      match ops[0]
      case Push(x) => Ideal(q + [x], ops[1..])
      case Pull => [if q == [] then None else Some(q[0])] + Ideal(if q == [] then q else q[1..], ops[1..])
  }

  /** Nothing is pushed while four items are outstanding. */
  predicate NeverFull<T>(q: seq<T>, ops: seq<Op<T>>)
    decreases |ops|
  {
    ops == [] ||
    match ops[0]
    case Push(x) => |q| < BUFFER_SIZE && NeverFull(q + [x], ops[1..])
    case Pull => NeverFull(if q == [] then q else q[1..], ops[1..])
  }

  lemma {:induction false} AnswersIdeal<T>(b: Buf<T>, q: seq<T>, ops: seq<Op<T>>)
    requires HoldsFifo(b, q) && NeverFull(q, ops)
    ensures Answers(b, ops) == Ideal(q, ops)
    decreases |ops|
  {
    if ops != [] {
      match ops[0] {
        case Push(x) =>
          FifoPut(b, q, x);
          AnswersIdeal(PutList(b, [x]), q + [x], ops[1..]);
        case Pull =>
          FifoGet(b, q);
          AnswersIdeal(AfterGet(b), if q == [] then q else q[1..], ops[1..]);
      }
    }
  }

  /** Started fresh, used with single items and never more than four of them outstanding, the buffer is
      a first-in first-out queue over histories of any length, the wrap of both positions included. */
  lemma FreshIsFifo<T>(ops: seq<Op<T>>)
    requires NeverFull<T>([], ops)
    ensures Answers(Fresh(), ops) == Ideal([], ops)
  {
    assert HoldsFifo<T>(Fresh(), []) by {
      forall k: nat | k < BUFFER_SIZE ensures SlotIs<T>(Fresh(), [], k) {}
    }
    AnswersIdeal(Fresh(), [], ops);
  }

  // ---- puts only: the slots are filled in turn

  function PutAll<T>(xs: seq<T>): (b: Buf<T>)
    ensures Ok(b)
  {
    if xs == [] then Fresh() else PutList(PutAll(xs[..|xs| - 1]), [xs[|xs| - 1]])
  }

  /** The items of `xs` whose index is `k` modulo 4, in order. */
  function Residue<T>(xs: seq<T>, k: nat): seq<T> {
    if xs == [] then []
    else
      var n := |xs| - 1;
      Residue(xs[..n], k) + if n % BUFFER_SIZE == k then [xs[n]] else []
  }

  lemma {:induction false} ResidueAt<T>(xs: seq<T>, k: nat)
    requires k < BUFFER_SIZE
    ensures |Residue(xs, k)| == (|xs| + BUFFER_SIZE - 1 - k) / BUFFER_SIZE
    ensures forall i :: 0 <= i < |Residue(xs, k)| ==>
      BUFFER_SIZE * i + k < |xs| && Residue(xs, k)[i] == xs[BUFFER_SIZE * i + k]
  {
    if xs != [] {
      var n := |xs| - 1;
      var r := Residue(xs[..n], k);
      ResidueAt(xs[..n], k);
      assert n % BUFFER_SIZE == k ==> BUFFER_SIZE * |r| + k == n;
      assert Residue(xs, k) == r + if n % BUFFER_SIZE == k then [xs[n]] else [];
    }
  }

  lemma {:induction false} ResidueEmpty<T>(xs: seq<T>, k: nat)
    requires k < BUFFER_SIZE
    ensures Residue(xs, k) == [] <==> |xs| <= k
  {
    if xs != [] {
      ResidueEmpty(xs[..|xs| - 1], k);
    }
  }

  /** While a slot is empty the put position points at one; later none is. */
  lemma PutPosition<T>(b: Buf<T>, n: nat)
    requires Ok(b) && b.put % BUFFER_SIZE == n % BUFFER_SIZE
    requires forall k :: 0 <= k < BUFFER_SIZE ==> (b.lists[k] == [] <==> n <= k)
    ensures n < BUFFER_SIZE ==> FirstEmpty(b.lists, b.put, 0) == 0
    ensures n >= BUFFER_SIZE ==> FirstEmpty(b.lists, b.put, 0) == BUFFER_SIZE
  {
    FirstEmptyMeans(b.lists, b.put, 0);
  }

  /** Wherever such a put ends up, it appends to the slot at the put position and moves on by one. */
  lemma PutShape<T>(b: Buf<T>, n: nat, x: T)
    requires Ok(b) && b.put % BUFFER_SIZE == n % BUFFER_SIZE
    requires forall k :: 0 <= k < BUFFER_SIZE ==> (b.lists[k] == [] <==> n <= k)
    ensures var c := n % BUFFER_SIZE;
      PutList(b, [x]) == Buf(b.get, Wrap(b.put + 1), b.lists[c := b.lists[c] + [x]])
  {
    PutPosition(b, n);
    assert SlotOf(b.put, 0) == n % BUFFER_SIZE;
    if n < BUFFER_SIZE {
      assert n % BUFFER_SIZE == n && b.lists[n] + [x] == [x];
    }
  }

  /** The buffer after the puts `xs`, and nothing else. */
  ghost predicate InTurn<T>(b: Buf<T>, xs: seq<T>) {
    Ok(b) && b.put == Wrap(|xs|) && forall k :: 0 <= k < BUFFER_SIZE ==> b.lists[k] == Residue(xs, k)
  }

  lemma AppendInTurn<T>(b: Buf<T>, b': Buf<T>, xs: seq<T>, x: T, c: nat)
    requires InTurn(b, xs) && c == |xs| % BUFFER_SIZE && b'.put == Wrap(|xs| + 1)
    requires b'.lists == b.lists[c := b.lists[c] + [x]]
    ensures InTurn(b', xs + [x])
  {
    assert (xs + [x])[..|xs|] == xs;
  }

  lemma PutInTurn<T>(b: Buf<T>, xs: seq<T>, x: T)
    requires InTurn(b, xs)
    ensures InTurn(PutList(b, [x]), xs + [x])
  {
    WrapKeepsSlot(|xs|);
    WrapTwice(|xs|, 1);
    forall k | 0 <= k < BUFFER_SIZE
      ensures b.lists[k] == [] <==> |xs| <= k
    {
      ResidueEmpty(xs, k);
    }
    PutShape(b, |xs|, x);
    AppendInTurn(b, PutList(b, [x]), xs, x, |xs| % BUFFER_SIZE);
  }

  /** After `n` single puts into a fresh buffer, slot `k` holds exactly the items whose index is `k`
      modulo 4, in arrival order; so the lengths of two slots differ by at most one. */
  lemma {:induction false} PutsFillInTurn<T>(xs: seq<T>)
    ensures InTurn(PutAll(xs), xs)
    ensures forall j, k :: 0 <= j < BUFFER_SIZE && 0 <= k < BUFFER_SIZE ==>
      |PutAll(xs).lists[j]| <= |PutAll(xs).lists[k]| + 1
  {
    if xs != [] {
      var n := |xs| - 1;
      PutsFillInTurn(xs[..n]);
      PutInTurn(PutAll(xs[..n]), xs[..n], xs[n]);
      assert xs[..n] + [xs[n]] == xs;
    }
    forall j, k | 0 <= j < BUFFER_SIZE && 0 <= k < BUFFER_SIZE
      ensures |PutAll(xs).lists[j]| <= |PutAll(xs).lists[k]| + 1
    {
      ResidueAt(xs, j);
      ResidueAt(xs, k);
    }
  }
}
