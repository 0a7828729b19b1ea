/** Intrusive singly linked lists over a heap of `next` fields.

    An item is a name; its `next` field is one entry of a heap.  Nothing here says who may
    write a field: that is the business of the machines that use this module. */
module Links {

  import opened Basics

  type Item = nat

  datatype Ptr = Null | Ref(item: Item)

  /** The `next` fields.  A field that was never written still has its initial value, null. */
  type Heap = map<Item, Ptr>

  function Next(h: Heap, x: Item): Ptr {
    if x in h then h[x] else Null
  }

  /** The pointer to position `i` of list `l`, where `end` is what follows the last item. */
  function At(l: seq<Item>, i: nat, end: Ptr): Ptr {
    if i < |l| then Ref(l[i]) else end
  }

  /** Starting at `p`, the links run through exactly the items of `l` and then reach `end`. */
  ghost predicate Chain(h: Heap, p: Ptr, l: seq<Item>, end: Ptr) {
    && p == At(l, 0, end)
    && forall i :: 0 <= i < |l| ==> Next(h, l[i]) == At(l, i + 1, end)
  }

  /** A chain survives every write that misses its items. */
  lemma ChainFrame(h: Heap, h': Heap, p: Ptr, l: seq<Item>, end: Ptr)
    requires Chain(h, p, l, end)
    requires forall x :: x in l ==> Next(h', x) == Next(h, x)
    ensures Chain(h', p, l, end)
  {
    forall i | 0 <= i < |l|
      ensures Next(h', l[i]) == At(l, i + 1, end)
    {
      assert l[i] in l;
    }
  }

  /** Following the head of a chain leads to the chain of its successors. */
  lemma ChainTail(h: Heap, p: Ptr, l: seq<Item>, end: Ptr)
    requires Chain(h, p, l, end) && l != []
    ensures p == Ref(l[0]) && Chain(h, Next(h, l[0]), l[1..], end)
  {
    forall i | 0 <= i < |l[1..]|
      ensures Next(h, l[1..][i]) == At(l[1..], i + 1, end)
    {
      assert Next(h, l[i + 1]) == At(l, i + 2, end);
    }
  }

  /** Putting one item in front of a chain. */
  lemma ChainCons(h: Heap, x: Item, l: seq<Item>, end: Ptr)
    requires Chain(h, Next(h, x), l, end)
    ensures Chain(h, Ref(x), [x] + l, end)
  {
    var m := [x] + l;
    forall i | 0 <= i < |m|
      ensures Next(h, m[i]) == At(m, i + 1, end)
    {
      if i > 0 {
        assert m[i] == l[i - 1];
      }
    }
  }

  /** Two chains that meet form one chain. */
  lemma ChainJoin(h: Heap, p: Ptr, l: seq<Item>, mid: Ptr, m: seq<Item>, end: Ptr)
    requires Chain(h, p, l, mid) && Chain(h, mid, m, end)
    ensures Chain(h, p, l + m, end)
  {
    var n := l + m;
    forall i | 0 <= i < |n|
      ensures Next(h, n[i]) == At(n, i + 1, end)
    {
      if i < |l| {
        assert Next(h, l[i]) == At(l, i + 1, mid);
      } else {
        assert Next(h, m[i - |l|]) == At(m, i - |l| + 1, end);
      }
    }
  }

  /** Rewriting the link of the last item of a list redirects the end of the chain and nothing else. */
  lemma ChainRetarget(h: Heap, p: Ptr, l: seq<Item>, was: Ptr, now: Ptr)
    requires Chain(h, p, l, was) && l != [] && Distinct(l)
    ensures Chain(h[l[|l| - 1] := now], p, l, now)
  {
    var h' := h[l[|l| - 1] := now];
    forall i | 0 <= i < |l|
      ensures Next(h', l[i]) == At(l, i + 1, now)
    {
      assert Next(h, l[i]) == At(l, i + 1, was);
    }
  }

  /** The items of a null-terminated chain are determined by its head: there is one such list. */
  lemma {:induction false} ChainUnique(h: Heap, p: Ptr, l: seq<Item>, m: seq<Item>)
    requires Chain(h, p, l, Null) && Chain(h, p, m, Null)
    ensures l == m
    decreases |l|
  {
    if l == [] {
      assert m == [];
    } else {
      assert m != [] && m[0] == l[0];
      ChainTail(h, p, l, Null);
      ChainTail(h, p, m, Null);
      ChainUnique(h, Next(h, l[0]), l[1..], m[1..]);
      assert l == [l[0]] + l[1..] && m == [m[0]] + m[1..];
    }
  }

  lemma {:induction false} ChainSuffix(h: Heap, p: Ptr, l: seq<Item>, end: Ptr, k: nat)
    requires Chain(h, p, l, end) && k <= |l|
    ensures Chain(h, At(l, k, end), l[k..], end)
  {
    forall i | 0 <= i < |l[k..]|
      ensures Next(h, l[k..][i]) == At(l[k..], i + 1, end)
    {
      assert Next(h, l[k + i]) == At(l, k + i + 1, end);
    }
  }

  /** A null-terminated chain is acyclic: no item occurs in it twice. */
  lemma {:induction false} ChainAcyclic(h: Heap, p: Ptr, l: seq<Item>)
    requires Chain(h, p, l, Null)
    ensures Distinct(l)
  {
    forall i, j | 0 <= i < j < |l|
      ensures l[i] != l[j]
    {
      if l[i] == l[j] {
        ChainSuffix(h, p, l, Null, i);
        ChainSuffix(h, p, l, Null, j);
        ChainUnique(h, Ref(l[i]), l[i..], l[j..]);  // yet the two suffixes differ in length
        assert false;
      }
    }
  }
}
