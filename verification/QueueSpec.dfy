/** What `LockFreeQueue` does when nobody interferes, and what its users may rely on then. */
module QueueSpec {
  import opened Basics
  import opened Scan
  import opened BufferSpec

  /** The buffer and the three priority stacks, each stack latest first. */
  datatype Queue<T> = Queue(buf: Buf<T>, stacks: seq<seq<T>>)

  predicate WellFormed<T>(q: Queue<T>) {
    Ok(q.buf) && |q.stacks| == STACKS
  }

  function Empty<T>(): Queue<T> {
    Queue(Fresh(), [[], [], []])
  }

  /** The first stack from `k` on that is not empty; 3 if there is none. */
  function FirstStack<T>(stacks: seq<seq<T>>, k: nat): (j: nat)
    requires |stacks| == STACKS && k <= STACKS
    ensures k <= j <= STACKS
    ensures j < STACKS ==> stacks[j] != []
    ensures forall i :: k <= i < j ==> stacks[i] == []
    decreases STACKS - k
  {
    if k == STACKS || stacks[k] != [] then k else FirstStack(stacks, k + 1)
  }

  /** The answer of `get_item`, and whether it sets the flag. */
  datatype Answer<T> = Answer(q: Queue<T>, item: Option<T>, more: bool)

  function Get<T>(q: Queue<T>): (r: Answer<T>)
    requires WellFormed(q)
    ensures WellFormed(r.q)
  {
    var l := Taken(q.buf);
    if l != [] then Answer(q.(buf := AfterGet(q.buf)), Some(l[0]), |l| > 1)
    else
      var k := FirstStack(q.stacks, 0);
      if k == STACKS then Answer(q, None, false)
      else
        var s := q.stacks[k];
        Answer(Queue(if |s| > 1 then PutList(q.buf, s[1..]) else q.buf, q.stacks[k := []]), Some(s[0]), |s| > 1)
  }

  function StackOf(prio: nat): (k: nat)
    requires prio > 0
    ensures k < STACKS
  {
    if prio >= STACKS then STACKS - 1 else prio - 1
  }

  function Put<T>(q: Queue<T>, x: T, prio: nat): (r: Queue<T>)
    requires WellFormed(q)
    ensures WellFormed(r)
  {
    if prio == 0 then q.(buf := PutFront(q.buf, x))
    else q.(stacks := q.stacks[StackOf(prio) := [x] + q.stacks[StackOf(prio)]])
  }

  ghost function Stored<T>(q: Queue<T>): multiset<T>
    requires WellFormed(q)
  {
    Contents(q.buf.lists) + Contents(q.stacks)
  }

  // ---- nothing is lost

  lemma PutStores<T>(q: Queue<T>, x: T, prio: nat)
    requires WellFormed(q)
    ensures Stored(Put(q, x, prio)) == Stored(q) + multiset{x}
  {
    if prio == 0 {
      PutKeeps(q.buf, [], x);
    } else {
      var k := StackOf(prio);
      Replace(q.stacks, k, [x] + q.stacks[k]);
      assert multiset([x] + q.stacks[k]) == multiset(q.stacks[k] + [x]);
      Cancel(Contents(q.stacks[k := [x] + q.stacks[k]]), Contents(q.stacks), q.stacks[k], [x]);
    }
  }

  lemma GetFromBuffer<T>(q: Queue<T>)
    requires WellFormed(q) && Taken(q.buf) != []
    ensures var r, l := Get(q), Taken(q.buf);
      l[0] in Stored(q) && Stored(r.q) == Stored(q) - multiset{l[0]} && (|l| > 1 ==> Stored(r.q) != multiset{})
  {
    var l := Taken(q.buf);
    GetKeeps(q.buf);
    if |l| > 1 {
      SpreadKeeps(Detached(q.buf), l[1..], 0);
      assert l[1..][0] in multiset(l[1..]);
      assert l[1..][0] in Contents(AfterGet(q.buf).lists);
    }
  }

  /** `get_item` answers null exactly when nothing is stored; otherwise it removes the item it returns
      and nothing else; and when it sets the flag, something is still stored. */
  lemma GetTakesOne<T>(q: Queue<T>)
    requires WellFormed(q)
    ensures var r := Get(q);
      && (r.item.None? <==> Stored(q) == multiset{})
      && (r.item.None? ==> r.q == q)
      && (r.item.Some? ==> r.item.value in Stored(q) && Stored(r.q) == Stored(q) - multiset{r.item.value})
      && (r.more ==> Stored(r.q) != multiset{})
  {
    var l, k := Taken(q.buf), FirstStack(q.stacks, 0);
    if l != [] {
      GetFromBuffer(q);
    } else if k < STACKS {
      GetFromStack(q, k);
    } else {
      GetKeeps(q.buf);
      NoContents(q.stacks);
    }
  }

  lemma GetFromStack<T>(q: Queue<T>, k: nat)
    requires WellFormed(q) && Taken(q.buf) == [] && k == FirstStack(q.stacks, 0) < STACKS
    ensures var r, s := Get(q), q.stacks[k];
      s[0] in Stored(q) && Stored(r.q) == Stored(q) - multiset{s[0]} && (|s| > 1 ==> Stored(r.q) != multiset{})
  {
    var s := q.stacks[k];
    GetKeeps(q.buf);
    assert Contents(q.buf.lists) == multiset{};
    Replace(q.stacks, k, []);
    PutKeeps(q.buf, s[1..], s[0]);
    var buf := if |s| > 1 then PutList(q.buf, s[1..]) else q.buf;
    assert |s| == 1 ==> s[1..] == [];
    assert Contents(buf.lists) == multiset(s[1..]);
    Behead(Stored(q), Contents(q.stacks[k := []]), Stored(Get(q).q), s);
    if |s| > 1 {
      assert s[1..][0] in multiset(s[1..]);
    }
  }

  /** The answer comes from the slot `j` places after the get position, all slots before it are empty, and the
      flag tells whether that slot's list had a second item. */
  ghost predicate ServedFrom<T>(q: Queue<T>, r: Answer<T>, j: nat)
    requires WellFormed(q)
  {
    && j < BUFFER_SIZE && (forall i: nat :: i < j ==> q.buf.lists[SlotOf(q.buf.get, i)] == [])
    && var l := q.buf.lists[SlotOf(q.buf.get, j)]; l != [] && r.item == Some(l[0]) && (r.more <==> |l| > 1)
  }

  /** The flag is exact: an answer from the buffer sets it if and only if the list it was taken from had more;
      an answer from a stack sets it if and only if it leaves something in the buffer. */
  lemma FlagIsExact<T>(q: Queue<T>)
    requires WellFormed(q)
    ensures if Contents(q.buf.lists) == multiset{} then Get(q).more <==> Contents(Get(q).q.buf.lists) != multiset{}
            else exists j :: ServedFrom(q, Get(q), j)
  {
    GetKeeps(q.buf);
    if Taken(q.buf) != [] {
      FirstFullMeans(q.buf.lists, q.buf.get, 0);
      assert ServedFrom(q, Get(q), FirstFull(q.buf.lists, q.buf.get, 0));
    } else {
      var k := FirstStack(q.stacks, 0);
      if k < STACKS {
        PutKeeps(q.buf, q.stacks[k][1..], q.stacks[k][0]);
        assert |q.stacks[k]| > 1 ==> q.stacks[k][1..][0] in multiset(q.stacks[k][1..]);
      }
    }
  }

  /** What the next `n` calls of `get_item` return, up to the first null. */
  function Drain<T>(q: Queue<T>, n: nat): seq<T>
    requires WellFormed(q)
    decreases n
  {
    var r := Get(q);
    if n == 0 || r.item.None? then [] else [r.item.value] + Drain(r.q, n - 1)
  }

  function AfterDrain<T>(q: Queue<T>, n: nat): (r: Queue<T>)
    requires WellFormed(q)
    ensures WellFormed(r)
    decreases n
  {
    var r := Get(q);
    if n == 0 || r.item.None? then q else AfterDrain(r.q, n - 1)
  }

  lemma DrainStep<T>(q: Queue<T>, n: nat)
    requires WellFormed(q) && n > 0 && Get(q).item.Some?
    ensures Drain(q, n) == [Get(q).item.value] + Drain(Get(q).q, n - 1)
    ensures AfterDrain(q, n) == AfterDrain(Get(q).q, n - 1)
  {
  }

  lemma SomeStored<T>(q: Queue<T>)
    requires WellFormed(q)
    ensures |Stored(q)| == 0 ==> Get(q).item.None?
    ensures |Stored(q)| > 0 ==> Get(q).item.Some? && |Stored(Get(q).q)| == |Stored(q)| - 1
  {
    GetTakesOne(q);
  }

  ghost predicate Serves<T>(q: Queue<T>, x: T, r: Queue<T>) {
    WellFormed(q) && WellFormed(r) && Get(q).item == Some(x) && Get(q).q == r
  }

  /** `qs` are the queues before, between and after successive calls of `get_item` that answer `xs`. */
  ghost predicate Path<T>(xs: seq<T>, qs: seq<Queue<T>>) {
    |qs| == |xs| + 1 && WellFormed(qs[|xs|])
    && forall i {:trigger xs[i]} :: 0 <= i < |xs| ==> Serves(qs[i], xs[i], qs[i + 1])
  }

  lemma GetsJoin<T>(xs: seq<T>, ps: seq<Queue<T>>, ys: seq<T>, qs: seq<Queue<T>>)
    requires Path(xs, ps) && Path(ys, qs) && qs[0] == ps[|xs|]
    ensures Path(xs + ys, ps + qs[1..])
  {
    var all := ps + qs[1..];
    forall i {:trigger (xs + ys)[i]} | 0 <= i < |xs + ys|
      ensures Serves(all[i], (xs + ys)[i], all[i + 1])
    {
      if i < |xs| {
        assert Serves(ps[i], xs[i], ps[i + 1]);
      } else {
        var j := i - |xs|;
        assert Serves(qs[j], ys[j], qs[j + 1]);
        assert all[i + 1] == qs[j + 1] && all[i] == qs[j];
      }
    }
  }

  lemma GetsCons<T>(q: Queue<T>, x: T, xs: seq<T>, qs: seq<Queue<T>>)
    requires Path(xs, qs) && Serves(q, x, qs[0])
    ensures Path([x] + xs, [q] + qs) && multiset([x] + xs) == multiset{x} + multiset(xs)
  {
    assert Path([x], [q, qs[0]]);
    GetsJoin([x], [q, qs[0]], xs, qs);
    assert [q, qs[0]] + qs[1..] == [q] + qs;
  }

  lemma GetsTail<T>(xs: seq<T>, qs: seq<Queue<T>>)
    requires xs != [] && Path(xs, qs)
    ensures Serves(qs[0], xs[0], qs[1]) && Path(xs[1..], qs[1..])
  {
    forall i {:trigger xs[1..][i]} | 0 <= i < |xs[1..]|
      ensures Serves(qs[1..][i], xs[1..][i], qs[1..][i + 1])
    {
      assert Serves(qs[i + 1], xs[i + 1], qs[i + 2]);
    }
  }

  /** If the answers end with null, they are what a drain returns, and it ends there. */
  lemma {:induction false} GetsAreDrained<T>(xs: seq<T>, qs: seq<Queue<T>>, n: nat)
    requires Path(xs, qs) && WellFormed(qs[0]) && Get(qs[|xs|]).item.None? && n >= |xs|
    ensures Drain(qs[0], n) == xs && AfterDrain(qs[0], n) == qs[|xs|]
    decreases |xs|
  {
    if xs == [] {
      DrainNothing(qs[0], n);
    } else {
      GetsTail(xs, qs);
      GetsAreDrained(xs[1..], qs[1..], n - 1);
      DrainServes(qs[0], xs[0], qs[1], n);
      assert xs == [xs[0]] + xs[1..];
    }
  }

  lemma {:induction false} DrainNothing<T>(q: Queue<T>, n: nat)
    requires WellFormed(q) && Get(q).item.None?
    ensures Drain(q, n) == [] && AfterDrain(q, n) == q
  {
  }

  lemma {:induction false} DrainServes<T>(q: Queue<T>, x: T, r: Queue<T>, n: nat)
    requires Serves(q, x, r) && n > 0
    ensures Drain(q, n) == [x] + Drain(r, n - 1) && AfterDrain(q, n) == AfterDrain(r, n - 1)
  {
    DrainStep(q, n);
  }

  lemma {:induction false} GetsEverything<T>(q: Queue<T>, n: nat) returns (xs: seq<T>, qs: seq<Queue<T>>)
    requires WellFormed(q) && |Stored(q)| == n
    ensures Path(xs, qs) && qs[0] == q && |xs| == n && multiset(xs) == Stored(q) && Get(qs[n]).item.None?
    decreases n
  {
    if n == 0 {
      SomeStored(q);
      xs, qs := [], [q];
    } else {
      var x, r := GetsOne(q);
      xs, qs := GetsEverything(r, n - 1);
      GetsCons(q, x, xs, qs);
      xs, qs := [x] + xs, [q] + qs;
    }
  }

  lemma GetsOne<T>(q: Queue<T>) returns (x: T, r: Queue<T>)
    requires WellFormed(q) && |Stored(q)| > 0
    ensures Serves(q, x, r) && Stored(q) == multiset{x} + Stored(r) && |Stored(r)| == |Stored(q)| - 1
  {
    SomeStored(q);
    GetTakesOne(q);
    x, r := Get(q).item.value, Get(q).q;
  }

  /** Drain round trip: from any state with n items stored, n calls of `get_item` return every stored
      item, each as often as it is stored, none of these calls answers null, and the next one does. */
  lemma {:induction false} DrainReturnsAll<T>(q: Queue<T>, n: nat)
    requires WellFormed(q) && |Stored(q)| == n
    ensures |Drain(q, n)| == n && multiset(Drain(q, n)) == Stored(q)
    ensures Get(AfterDrain(q, n)).item.None?
  {
    var xs, qs := GetsEverything(q, n);
    GetsAreDrained(xs, qs, n);
  }

  // ---- priority

  lemma PutFrontIsTaken<T>(b: Buf<T>, x: T)
    requires Ok(b)
    ensures Taken(PutFront(b, x)) == [x] + b.lists[b.get % BUFFER_SIZE]
  {
    var p := PutFront(b, x);
    assert SlotOf(p.get, 0) == b.get % BUFFER_SIZE;
    assert FirstFull(p.lists, p.get, 0) == 0;
  }

  /** From every state, an item put with priority 0 is what the next `get_item` returns, and the list
      it was put in front of is still wholly stored. */
  lemma PriorityItemIsNext<T>(q: Queue<T>, x: T)
    requires WellFormed(q)
    ensures var r := Get(Put(q, x, 0)); r.item == Some(x) && Stored(r.q) == Stored(q)
    ensures var l := q.buf.lists[q.buf.get % BUFFER_SIZE];
      Contents(Get(Put(q, x, 0)).q.buf.lists) == Contents(q.buf.lists) && (Get(Put(q, x, 0)).more <==> l != [])
  {
    PutFrontIsTaken(q.buf, x);
    GetKeeps(PutFront(q.buf, x));
    PutKeeps(q.buf, [], x);
  }

  // ---- bounded bypass

  datatype Op<T> = GetOp | PutOp(x: T, prio: nat)

  /** The items the gets of a history return, in order. */
  function Returned<T>(q: Queue<T>, ops: seq<Op<T>>): (xs: seq<T>)
    requires WellFormed(q)
    decreases |ops|
  {
    if ops == [] then []
    else
      match ops[0]
      case GetOp => (if Get(q).item.Some? then [Get(q).item.value] else []) + Returned(Get(q).q, ops[1..])
      case PutOp(x, prio) => Returned(Put(q, x, prio), ops[1..])
  }

  function Gets<T>(ops: seq<Op<T>>): nat {
    if ops == [] then 0 else (if ops[0].GetOp? then 1 else 0) + Gets(ops[1..])
  }

  ghost predicate NoPriority<T>(ops: seq<Op<T>>) {
    forall i :: 0 <= i < |ops| && ops[i].PutOp? ==> ops[i].prio > 0
  }

  lemma LaterOps<T>(ops: seq<Op<T>>)
    requires ops != [] && NoPriority(ops)
    ensures NoPriority(ops[1..])
  {
    forall i | 0 <= i < |ops[1..]| && ops[1..][i].PutOp?
      ensures ops[1..][i].prio > 0
    {
      assert ops[1..][i] == ops[i + 1];
    }
  }

  /** A get takes one item out of a buffer that holds any. */
  lemma GetShrinks<T>(q: Queue<T>)
    requires WellFormed(q) && Contents(q.buf.lists) != multiset{}
    ensures var r, all := Get(q), Contents(q.buf.lists);
      r.item.Some? && r.item.value in all && Contents(r.q.buf.lists) == all - multiset{r.item.value}
  {
    GetKeeps(q.buf);
  }

  lemma ReturnedGet<T>(q: Queue<T>, ops: seq<Op<T>>)
    requires WellFormed(q) && ops != [] && ops[0].GetOp? && Get(q).item.Some?
    ensures Returned(q, ops) == [Get(q).item.value] + Returned(Get(q).q, ops[1..])
  {
  }

  lemma ReturnedPut<T>(q: Queue<T>, ops: seq<Op<T>>)
    requires WellFormed(q) && ops != [] && ops[0].PutOp? && ops[0].prio > 0
    ensures Returned(q, ops) == Returned(Put(q, ops[0].x, ops[0].prio), ops[1..])
    ensures Put(q, ops[0].x, ops[0].prio).buf == q.buf
  {
  }

  /** `x` is among the first `n` of `xs`. */
  ghost predicate Early<T>(xs: seq<T>, n: nat, x: T) {
    n <= |xs| && x in xs[..n]
  }

  lemma EarlyCons<T>(y: T, xs: seq<T>, n: nat, x: T)
    requires n > 0 && |xs| >= n - 1 && (y == x || Early(xs, n - 1, x))
    ensures Early([y] + xs, n, x)
  {
    var all := [y] + xs;
    if y == x {
      assert all[..n][0] == x;
    } else {
      var k :| 0 <= k < n - 1 && xs[..n - 1][k] == x;
      assert all[..n][k + 1] == x;
    }
  }

  lemma {:induction false} AllReturned<T>(q: Queue<T>, ops: seq<Op<T>>, n: nat)
    requires WellFormed(q) && |Contents(q.buf.lists)| == n && NoPriority(ops) && Gets(ops) >= n
    ensures |Returned(q, ops)| >= n
    decreases |ops|
  {
    if ops != [] && n > 0 {
      LaterOps(ops);
      if ops[0].PutOp? {
        ReturnedPut(q, ops);
        AllReturned(Put(q, ops[0].x, ops[0].prio), ops[1..], n);
      } else {
        GetShrinks(q);
        ReturnedGet(q, ops);
        AllReturned(Get(q).q, ops[1..], n - 1);
      }
    }
  }

  /** Bounded bypass: once an item is in the buffer and no put of priority 0 follows, it is among the
      first n items returned, where n is the number of items the buffer held, however many puts of
      other priorities are interleaved. */
  lemma {:induction false} BoundedBypass<T>(q: Queue<T>, x: T, ops: seq<Op<T>>)
    requires WellFormed(q) && x in Contents(q.buf.lists) && NoPriority(ops)
    requires Gets(ops) >= |Contents(q.buf.lists)|
    ensures Early(Returned(q, ops), |Contents(q.buf.lists)|, x)
    decreases |ops|, 1
  {
    LaterOps(ops);
    if ops[0].PutOp? {
      ReturnedPut(q, ops);
      BoundedBypass(Put(q, ops[0].x, ops[0].prio), x, ops[1..]);
    } else {
      BypassGet(q, x, ops);
    }
  }

  lemma {:induction false} BypassGet<T>(q: Queue<T>, x: T, ops: seq<Op<T>>)
    requires WellFormed(q) && x in Contents(q.buf.lists) && ops != [] && ops[0].GetOp? && NoPriority(ops[1..])
    requires Gets(ops) >= |Contents(q.buf.lists)|
    ensures Early(Returned(q, ops), |Contents(q.buf.lists)|, x)
    decreases |ops|, 0
  {
    var n, r := |Contents(q.buf.lists)|, Get(q);
    GetShrinks(q);
    ReturnedGet(q, ops);
    AllReturned(r.q, ops[1..], n - 1);
    if r.item.value != x {
      BoundedBypass(r.q, x, ops[1..]);
    }
    EarlyCons(r.item.value, Returned(r.q, ops[1..]), n, x);
  }
}
