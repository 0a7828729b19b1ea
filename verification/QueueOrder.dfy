/** In which order the sequential queue hands out what it holds: the buffer first, then one priority after
    the other. */
module QueueOrder {
  import opened Scan
  import opened BufferSpec
  import opened QueueSpec

  /** `xs` is a permutation of the first group, followed by one of the second, and so on. */
  ghost predicate InGroups<T>(xs: seq<T>, groups: seq<multiset<T>>) {
    if groups == [] then xs == []
    else
      var n := |groups[0]|;
      n <= |xs| && multiset(xs[..n]) == groups[0] && InGroups(xs[n..], groups[1..])
  }

  lemma {:induction false} GroupsCons<T>(xs: seq<T>, group: multiset<T>, ys: seq<T>, groups: seq<multiset<T>>)
    requires multiset(xs) == group && InGroups(ys, groups)
    ensures InGroups(xs + ys, [group] + groups)
  {
    assert |multiset(xs)| == |xs|;
    assert (xs + ys)[..|xs|] == xs && (xs + ys)[|xs|..] == ys;
    assert ([group] + groups)[1..] == groups;
  }

  /** One call of `get_item` while the buffer holds something: no stack is touched. */
  lemma ServesBuffer<T>(q: Queue<T>) returns (x: T, r: Queue<T>)
    requires WellFormed(q) && Contents(q.buf.lists) != multiset{}
    ensures Serves(q, x, r) && r.stacks == q.stacks
    ensures x in Contents(q.buf.lists) && Contents(r.buf.lists) == Contents(q.buf.lists) - multiset{x}
  {
    GetKeeps(q.buf);
    x, r := Get(q).item.value, Get(q).q;
  }

  /** One call while it holds nothing: the latest item of the first stack that is not empty, whose other items
      all go to the buffer. */
  lemma ServesStack<T>(q: Queue<T>, k: nat) returns (r: Queue<T>)
    requires WellFormed(q) && OnlyFrom(q, k) && k < STACKS && q.stacks[k] != []
    ensures Serves(q, q.stacks[k][0], r)
    ensures Contents(r.buf.lists) == multiset(q.stacks[k][1..]) && r.stacks == q.stacks[k := []]
  {
    GetKeeps(q.buf);
    assert FirstStack(q.stacks, 0) == k;
    PutKeeps(q.buf, q.stacks[k][1..], q.stacks[k][0]);
    assert |q.stacks[k]| == 1 ==> q.stacks[k][1..] == [];
    r := Get(q).q;
  }

  /** The buffer is empty and so are the stacks before `k`. */
  ghost predicate OnlyFrom<T>(q: Queue<T>, k: nat)
    requires WellFormed(q)
  {
    Contents(q.buf.lists) == multiset{} && forall i: nat :: i < k && i < STACKS ==> q.stacks[i] == []
  }

  lemma {:induction false} GetsAll<T>(xs: seq<T>, qs: seq<Queue<T>>)
    requires Path(xs, qs) && WellFormed(qs[0])
    ensures |Stored(qs[0])| == |xs| + |Stored(qs[|xs|])|
    decreases |xs|
  {
    if xs != [] {
      GetsTail(xs, qs);
      SomeStored(qs[0]);
      GetsAll(xs[1..], qs[1..]);
    }
  }

  lemma {:induction false} DrainBuffer<T>(q: Queue<T>) returns (xs: seq<T>, qs: seq<Queue<T>>)
    requires WellFormed(q)
    ensures Path(xs, qs) && qs[0] == q && multiset(xs) == Contents(q.buf.lists)
    ensures Contents(qs[|xs|].buf.lists) == multiset{} && qs[|xs|].stacks == q.stacks
    decreases |Contents(q.buf.lists)|
  {
    if Contents(q.buf.lists) == multiset{} {
      xs, qs := [], [q];
    } else {
      var x, r := ServesBuffer(q);
      xs, qs := DrainBuffer(r);
      GetsCons(q, x, xs, qs);
      xs, qs := [x] + xs, [q] + qs;
    }
  }

  lemma DrainFullStack<T>(q: Queue<T>, k: nat) returns (xs: seq<T>, qs: seq<Queue<T>>)
    requires WellFormed(q) && k < STACKS && OnlyFrom(q, k) && q.stacks[k] != []
    ensures Path(xs, qs) && qs[0] == q && multiset(xs) == multiset(q.stacks[k])
    ensures OnlyFrom(qs[|xs|], k + 1) && qs[|xs|].stacks == q.stacks[k := []]
  {
    var s := q.stacks[k];
    var r := ServesStack(q, k);
    xs, qs := DrainBuffer(r);
    GetsCons(q, s[0], xs, qs);
    HeadAndTail(s);
    xs, qs := [s[0]] + xs, [q] + qs;
  }

  lemma HeadAndTail<T>(s: seq<T>)
    requires s != []
    ensures multiset(s) == multiset{s[0]} + multiset(s[1..])
  {
    assert s == [s[0]] + s[1..];
  }

  lemma DrainStack<T>(q: Queue<T>, k: nat) returns (xs: seq<T>, qs: seq<Queue<T>>)
    requires WellFormed(q) && k < STACKS && OnlyFrom(q, k)
    ensures Path(xs, qs) && qs[0] == q && multiset(xs) == multiset(q.stacks[k])
    ensures OnlyFrom(qs[|xs|], k + 1) && qs[|xs|].stacks == q.stacks[k := []]
  {
    if q.stacks[k] == [] {
      xs, qs := [], [q];
      assert q.stacks[k := []] == q.stacks;
    } else {
      xs, qs := DrainFullStack(q, k);
    }
  }

  function Groups<T>(stacks: seq<seq<T>>): seq<multiset<T>> {
    if stacks == [] then [] else [multiset(stacks[0])] + Groups(stacks[1..])
  }

  /** Stack `k` and the later ones. */
  lemma {:induction false} DrainStacks<T>(q: Queue<T>, k: nat) returns (xs: seq<T>, qs: seq<Queue<T>>)
    requires WellFormed(q) && k <= STACKS && OnlyFrom(q, k)
    ensures Path(xs, qs) && qs[0] == q && OnlyFrom(qs[|xs|], STACKS) && InGroups(xs, Groups(q.stacks[k..]))
    decreases STACKS - k
  {
    if k == STACKS {
      xs, qs := [], [q];
    } else {
      var ys, ps := DrainStack(q, k);
      xs, qs := DrainStacks(ps[|ys|], k + 1);
      GetsJoin(ys, ps, xs, qs);
      assert ps[|ys|].stacks[k + 1..] == q.stacks[k + 1..] && q.stacks[k..][1..] == q.stacks[k + 1..];
      GroupsCons(ys, multiset(q.stacks[k]), xs, Groups(q.stacks[k + 1..]));
      xs, qs := ys + xs, ps + qs[1..];
    }
  }

  lemma NothingLeft<T>(q: Queue<T>)
    requires WellFormed(q) && OnlyFrom(q, STACKS)
    ensures Get(q).item.None? && Stored(q) == multiset{}
  {
    NoContents(q.stacks);
    GetTakesOne(q);
  }

  lemma {:induction false} DrainRest<T>(q: Queue<T>) returns (xs: seq<T>, qs: seq<Queue<T>>)
    requires WellFormed(q) && OnlyFrom(q, 0)
    ensures Path(xs, qs) && qs[0] == q && OnlyFrom(qs[|xs|], STACKS) && InGroups(xs, Groups(q.stacks))
  {
    xs, qs := DrainStacks(q, 0);
    assert q.stacks[0..] == q.stacks;
  }

  /** The buffer, then the stacks. */
  lemma {:induction false} DrainAll<T>(q: Queue<T>) returns (xs: seq<T>, qs: seq<Queue<T>>)
    requires WellFormed(q)
    ensures Path(xs, qs) && qs[0] == q && OnlyFrom(qs[|xs|], STACKS)
    ensures InGroups(xs, [Contents(q.buf.lists)] + Groups(q.stacks))
  {
    var ys, ps := DrainBuffer(q);
    xs, qs := DrainRest(ps[|ys|]);
    GroupsCons(ys, Contents(q.buf.lists), xs, Groups(q.stacks));
    GetsJoin(ys, ps, xs, qs);
    xs, qs := ys + xs, ps + qs[1..];
  }

  /** Priorities are kept: from every state, the items that were in the buffer come out first, whatever their
      priority, then those of the first stack, then those of the second, then those of the third, until the
      queue answers null. */
  lemma {:induction false} DrainsInOrder<T>(q: Queue<T>, n: nat)
    requires WellFormed(q) && n >= |Stored(q)|
    ensures InGroups(Drain(q, n), [Contents(q.buf.lists)] + Groups(q.stacks))
  {
    var xs, qs := DrainAll(q);
    NothingLeft(qs[|xs|]);
    GetsAll(xs, qs);
    GetsAreDrained(xs, qs, n);
  }

  /** Where a put goes: nowhere but to the front of the list at the get position, or to the front of the stack
      of its priority, in which priorities from 3 on are one. */
  lemma PutGoesTo<T>(q: Queue<T>, x: T, prio: nat)
    requires WellFormed(q)
    ensures var r := Put(q, x, prio);
      && r.buf.get == q.buf.get && r.buf.put == q.buf.put
      && (forall c: nat :: c < BUFFER_SIZE ==>
            r.buf.lists[c] ==
            if prio == 0 && c == q.buf.get % BUFFER_SIZE then [x] + q.buf.lists[c] else q.buf.lists[c])
      && (forall k: nat :: k < STACKS ==>
            r.stacks[k] == if prio == k + 1 || (prio > STACKS && k == 2) then [x] + q.stacks[k] else q.stacks[k])
  {
  }
}
