/** What `BoundBuffer` does when nobody interferes, on plain values: four lists and two wrapping
    positions.  `BoundBuffer.dfy` proves the linked implementation against these functions. */
module BufferSpec {
  import opened Basics
  import opened Scan

  /** `lists[c]` is the content of slot `c`, head first. */
  datatype Buf<T> = Buf(get: Pos, put: Pos, lists: seq<seq<T>>)

  predicate Ok<T>(b: Buf<T>) {
    |b.lists| == BUFFER_SIZE
  }

  function Fresh<T>(): Buf<T> {
    Buf(0, 0, [[], [], [], []])
  }

  /** The first `j >= i` whose slot, counted from `index`, is occupied; 4 if there is none. */
  function FirstFull<T>(lists: seq<seq<T>>, index: Pos, i: nat): (j: nat)
    requires |lists| == BUFFER_SIZE && i <= BUFFER_SIZE
    ensures i <= j <= BUFFER_SIZE
    decreases BUFFER_SIZE - i
  {
    if i == BUFFER_SIZE || lists[SlotOf(index, i)] != [] then i else FirstFull(lists, index, i + 1)
  }

  function FirstEmpty<T>(lists: seq<seq<T>>, index: Pos, i: nat): (j: nat)
    requires |lists| == BUFFER_SIZE && i <= BUFFER_SIZE
    ensures i <= j <= BUFFER_SIZE
    decreases BUFFER_SIZE - i
  {
    if i == BUFFER_SIZE || lists[SlotOf(index, i)] == [] then i else FirstEmpty(lists, index, i + 1)
  }

  lemma {:induction false} FirstFullMeans<T>(lists: seq<seq<T>>, index: Pos, i: nat)
    requires |lists| == BUFFER_SIZE && i <= BUFFER_SIZE
    ensures var j := FirstFull(lists, index, i);
      && (j < BUFFER_SIZE ==> lists[SlotOf(index, j)] != [])
      && (forall k :: i <= k < j ==> lists[SlotOf(index, k)] == [])
    decreases BUFFER_SIZE - i
  {
    if i < BUFFER_SIZE && lists[SlotOf(index, i)] == [] {
      FirstFullMeans(lists, index, i + 1);
    }
  }

  lemma {:induction false} FirstEmptyMeans<T>(lists: seq<seq<T>>, index: Pos, i: nat)
    requires |lists| == BUFFER_SIZE && i <= BUFFER_SIZE
    ensures var j := FirstEmpty(lists, index, i);
      && (j < BUFFER_SIZE ==> lists[SlotOf(index, j)] == [])
      && (forall k :: i <= k < j ==> lists[SlotOf(index, k)] != [])
    decreases BUFFER_SIZE - i
  {
    if i < BUFFER_SIZE && lists[SlotOf(index, i)] != [] {
      FirstEmptyMeans(lists, index, i + 1);
    }
  }

  function StoreEmpty<T>(b: Buf<T>, l: seq<T>): (r: Option<Buf<T>>)
    requires Ok(b)
    ensures r.Some? ==> Ok(r.value)
  {
    var j := FirstEmpty(b.lists, b.put, 0);
    if j == BUFFER_SIZE then None
    else Some(Buf(b.get, Wrap(b.put + j + 1), b.lists[SlotOf(b.put, j) := l]))
  }

  function StoreOccupied<T>(b: Buf<T>, l: seq<T>): (r: Buf<T>)
    requires Ok(b)
    ensures Ok(r)
  {
    var c := b.put % BUFFER_SIZE;
    Buf(b.get, Wrap(b.put + 1), b.lists[c := b.lists[c] + l])
  }

  /** `store_tail` from loop counter `n` on. */
  function Spread<T>(b: Buf<T>, l: seq<T>, n: nat): (r: Buf<T>)
    requires Ok(b) && n < BUFFER_SIZE
    ensures Ok(r)
    decreases BUFFER_SIZE - n
  {
    if n == BUFFER_SIZE - 1 then StoreOccupied(b, l)
    else if l == [] then b
    else
      match StoreEmpty(b, [l[0]])
      case Some(b') => Spread(b', l[1..], n + 1)
      case None => StoreOccupied(b, l)
  }

  lemma SpreadStep<T>(b: Buf<T>, l: seq<T>, n: nat)
    requires Ok(b) && n < BUFFER_SIZE - 1 && l != []
    ensures Spread(b, l, n) ==
            match StoreEmpty(b, [l[0]])
            case Some(b') => Spread(b', l[1..], n + 1)
            case None => StoreOccupied(b, l)
  {
  }

  /** The buffer after a `get_item` took the list of slot `c`, before its tail is stored. */
  function Detached<T>(b: Buf<T>): (r: Buf<T>)
    requires Ok(b)
    ensures Ok(r)
  {
    var i := FirstFull(b.lists, b.get, 0);
    if i == BUFFER_SIZE then b
    else Buf(Wrap(b.get + i + 1), b.put, b.lists[SlotOf(b.get, i) := []])
  }

  /** The list a `get_item` takes. */
  function Taken<T>(b: Buf<T>): (l: seq<T>)
    requires Ok(b)
  {
    var i := FirstFull(b.lists, b.get, 0);
    if i == BUFFER_SIZE then [] else b.lists[SlotOf(b.get, i)]
  }

  function AfterGet<T>(b: Buf<T>): (r: Buf<T>)
    requires Ok(b)
    ensures Ok(r)
  {
    if |Taken(b)| <= 1 then Detached(b) else Spread(Detached(b), Taken(b)[1..], 0)
  }

  function PutList<T>(b: Buf<T>, l: seq<T>): (r: Buf<T>)
    requires Ok(b)
    ensures Ok(r)
  {
    match StoreEmpty(b, l)
    case Some(b') => b'
    case None => StoreOccupied(b, l)
  }

  function PutFront<T>(b: Buf<T>, x: T): (r: Buf<T>)
    requires Ok(b)
    ensures Ok(r)
  {
    var c := b.get % BUFFER_SIZE;
    b.(lists := b.lists[c := [x] + b.lists[c]])
  }

  // ---- contents

  /** Everything in some lists. */
  ghost function Contents<T>(lists: seq<seq<T>>): multiset<T> {
    if lists == [] then multiset{} else Contents(lists[..|lists| - 1]) + multiset(lists[|lists| - 1])
  }

  lemma {:induction false} Replace<T>(lists: seq<seq<T>>, c: nat, l: seq<T>)
    requires c < |lists|
    ensures Contents(lists[c := l]) + multiset(lists[c]) == Contents(lists) + multiset(l)
  {
    var n := |lists| - 1;
    if c < n {
      Replace(lists[..n], c, l);
      assert lists[c := l][..n] == lists[..n][c := l] && lists[c := l][n] == lists[n] && lists[..n][c] == lists[c];
      Beside(Contents(lists[..n][c := l]), Contents(lists[..n]), lists[c], l, lists[n]);
    } else {
      assert lists[c := l][..n] == lists[..n];
    }
  }

  lemma Beside<T>(after: multiset<T>, before: multiset<T>, m: seq<T>, l: seq<T>, k: seq<T>)
    requires after + multiset(m) == before + multiset(l)
    ensures (after + multiset(k)) + multiset(m) == (before + multiset(k)) + multiset(l)
  {
    forall x
      ensures ((after + multiset(k)) + multiset(m))[x] == ((before + multiset(k)) + multiset(l))[x]
    {
      assert (after + multiset(m))[x] == (before + multiset(l))[x];
    }
  }

  lemma {:induction false} NoContents<T>(lists: seq<seq<T>>)
    ensures Contents(lists) == multiset{} <==> forall c :: 0 <= c < |lists| ==> lists[c] == []
  {
    if lists != [] {
      var n := |lists| - 1;
      NoContents(lists[..n]);
      assert lists[n] != [] ==> lists[n][0] in multiset(lists[n]);
    }
  }

  lemma StoreEmptyKeeps<T>(b: Buf<T>, l: seq<T>)
    requires Ok(b) && StoreEmpty(b, l).Some?
    ensures Contents(StoreEmpty(b, l).value.lists) == Contents(b.lists) + multiset(l)
  {
    FirstEmptyMeans(b.lists, b.put, 0);
    Replace(b.lists, SlotOf(b.put, FirstEmpty(b.lists, b.put, 0)), l);
  }

  lemma StoreOccupiedKeeps<T>(b: Buf<T>, l: seq<T>)
    requires Ok(b)
    ensures Contents(StoreOccupied(b, l).lists) == Contents(b.lists) + multiset(l)
  {
    var c := b.put % BUFFER_SIZE;
    Replace(b.lists, c, b.lists[c] + l);
    Cancel(Contents(b.lists[c := b.lists[c] + l]), Contents(b.lists), b.lists[c], l);
  }

  /** Appending `l` to one list adds `l`. */
  lemma Cancel<T>(after: multiset<T>, before: multiset<T>, m: seq<T>, l: seq<T>)
    requires after + multiset(m) == before + multiset(m + l)
    ensures after == before + multiset(l)
  {
    assert multiset(m + l) == multiset(m) + multiset(l);
    forall x
      ensures after[x] == (before + multiset(l))[x]
    {
      assert (after + multiset(m))[x] == (before + (multiset(m) + multiset(l)))[x];
    }
  }

  lemma {:induction false} SpreadKeeps<T>(b: Buf<T>, l: seq<T>, n: nat)
    requires Ok(b) && n < BUFFER_SIZE
    ensures Contents(Spread(b, l, n).lists) == Contents(b.lists) + multiset(l)
    decreases BUFFER_SIZE - n
  {
    if n == BUFFER_SIZE - 1 || (l != [] && StoreEmpty(b, [l[0]]).None?) {
      StoreOccupiedKeeps(b, l);
    } else if l != [] {
      SpreadOneKeeps(b, StoreEmpty(b, [l[0]]).value, l, n);
    }
  }

  lemma {:induction false} SpreadOneKeeps<T>(b: Buf<T>, b': Buf<T>, l: seq<T>, n: nat)
    requires Ok(b) && n < BUFFER_SIZE - 1 && l != [] && StoreEmpty(b, [l[0]]) == Some(b') && Ok(b')
    ensures Contents(Spread(b', l[1..], n + 1).lists) == Contents(b.lists) + multiset(l)
    decreases BUFFER_SIZE - n, 0
  {
    StoreEmptyKeeps(b, [l[0]]);
    SpreadKeeps(b', l[1..], n + 1);
    Sum(Contents(Spread(b', l[1..], n + 1).lists), Contents(b'.lists), Contents(b.lists), l);
  }

  lemma Sum<T>(after: multiset<T>, mid: multiset<T>, before: multiset<T>, l: seq<T>)
    requires l != [] && after == mid + multiset(l[1..]) && mid == before + multiset([l[0]])
    ensures after == before + multiset(l)
  {
    assert l == [l[0]] + l[1..];
    assert multiset(l) == multiset([l[0]]) + multiset(l[1..]);
  }

  /** `get_item` loses nothing: what it does not return stays in the buffer, and it finds the buffer
      empty exactly when it is. */
  lemma GetKeeps<T>(b: Buf<T>)
    requires Ok(b)
    ensures Taken(b) == [] <==> Contents(b.lists) == multiset{}
    ensures Taken(b) == [] ==> AfterGet(b) == b
    ensures Taken(b) != [] ==> Taken(b)[0] in Contents(b.lists)
    ensures Taken(b) != [] ==> Contents(AfterGet(b).lists) == Contents(b.lists) - multiset{Taken(b)[0]}
  {
    NoContents(b.lists);
    FirstFullMeans(b.lists, b.get, 0);
    var i, l := FirstFull(b.lists, b.get, 0), Taken(b);
    if i == BUFFER_SIZE {
      forall c | 0 <= c < BUFFER_SIZE ensures b.lists[c] == [] { assert SlotOf(b.get, Back(b.get, c)) == c; }
    } else {
      Replace(b.lists, SlotOf(b.get, i), []);
      if |l| > 1 {
        SpreadKeeps(Detached(b), l[1..], 0);
      } else {
        assert l[1..] == [];
      }
      Behead(Contents(b.lists), Contents(Detached(b).lists), Contents(AfterGet(b).lists), l);
    }
  }

  lemma Behead<T>(before: multiset<T>, without: multiset<T>, after: multiset<T>, l: seq<T>)
    requires l != [] && without + multiset(l) == before && after == without + multiset(l[1..])
    ensures l[0] in before && after == before - multiset{l[0]}
  {
    assert l == [l[0]] + l[1..];
    assert multiset(l) == multiset{l[0]} + multiset(l[1..]);
  }

  /** How far slot `c` is from position `index`. */
  function Back(index: Pos, c: nat): (k: nat)
    requires c < BUFFER_SIZE
    ensures k < BUFFER_SIZE && SlotOf(index, k) == c
  {
    var k := (c + BUFFER_SIZE - index % BUFFER_SIZE) % BUFFER_SIZE;
    assert (index % BUFFER_SIZE + k) % BUFFER_SIZE == c;
    k
  }

  lemma PutKeeps<T>(b: Buf<T>, l: seq<T>, x: T)
    requires Ok(b)
    ensures Contents(PutList(b, l).lists) == Contents(b.lists) + multiset(l)
    ensures Contents(PutFront(b, x).lists) == Contents(b.lists) + multiset{x}
  {
    if StoreEmpty(b, l).Some? { StoreEmptyKeeps(b, l); } else { StoreOccupiedKeeps(b, l); }
    var c := b.get % BUFFER_SIZE;
    Replace(b.lists, c, [x] + b.lists[c]);
    assert multiset([x] + b.lists[c]) == multiset(b.lists[c] + [x]);
    Cancel(Contents(b.lists[c := [x] + b.lists[c]]), Contents(b.lists), b.lists[c], [x]);
  }

  // ---- spreading

  /** How many of the lists are not empty. */
  function Occupied<T>(lists: seq<seq<T>>): (n: nat)
    ensures n <= |lists|
  {
    if lists == [] then 0 else Occupied(lists[..|lists| - 1]) + One(|lists[|lists| - 1]| > 0)
  }

  lemma {:induction false} OccupiedReplace<T>(lists: seq<seq<T>>, c: nat, l: seq<T>)
    requires c < |lists|
    ensures Occupied(lists[c := l]) + One(lists[c] != []) == Occupied(lists) + One(l != [])
  {
    var n := |lists| - 1;
    if c < n {
      OccupiedReplace(lists[..n], c, l);
      assert lists[c := l][..n] == lists[..n][c := l];
    } else {
      assert lists[c := l][..n] == lists[..n];
    }
  }

  lemma {:induction false} AllOccupied<T>(lists: seq<seq<T>>)
    ensures Occupied(lists) == |lists| <==> forall c :: 0 <= c < |lists| ==> lists[c] != []
    ensures Occupied(lists) == 0 <==> forall c :: 0 <= c < |lists| ==> lists[c] == []
  {
    if lists != [] {
      AllOccupied(lists[..|lists| - 1]);
    }
  }

  lemma StoreEmptyOccupies<T>(b: Buf<T>, l: seq<T>)
    requires Ok(b) && l != []
    ensures StoreEmpty(b, l).None? <==> Occupied(b.lists) == BUFFER_SIZE
    ensures StoreEmpty(b, l).Some? ==> Occupied(StoreEmpty(b, l).value.lists) == Occupied(b.lists) + 1
  {
    AllOccupied(b.lists);
    FirstEmptyMeans(b.lists, b.put, 0);
    var j := FirstEmpty(b.lists, b.put, 0);
    if j == BUFFER_SIZE {
      forall c | 0 <= c < BUFFER_SIZE ensures b.lists[c] != [] { assert SlotOf(b.put, Back(b.put, c)) == c; }
    } else {
      OccupiedReplace(b.lists, SlotOf(b.put, j), l);
    }
  }

  lemma StoreOccupiedOccupies<T>(b: Buf<T>, l: seq<T>)
    requires Ok(b)
    requires Occupied(b.lists) == BUFFER_SIZE || b.lists[b.put % BUFFER_SIZE] == []
    ensures Occupied(StoreOccupied(b, l).lists) ==
            if Occupied(b.lists) == BUFFER_SIZE then BUFFER_SIZE else Occupied(b.lists) + One(l != [])
  {
    var c := b.put % BUFFER_SIZE;
    AllOccupied(b.lists);
    OccupiedReplace(b.lists, c, b.lists[c] + l);
  }

  /** The `n` slots from the put position on are empty. */
  ghost predicate EmptyAhead<T>(b: Buf<T>, n: nat)
    requires Ok(b)
  {
    forall k: nat :: k < n ==> EmptyAt(b, k)
  }

  ghost predicate EmptyAt<T>(b: Buf<T>, k: nat)
    requires Ok(b)
  {
    b.lists[SlotOf(b.put, k)] == []
  }

  lemma WrapStep(index: Pos, k: nat)
    ensures SlotOf(Wrap(index + 1), k) == SlotOf(index, k + 1)
  {
    if index + 1 == WORD {
      assert Wrap(index + 1) == 0;
      assert index + (k + 1) == WORD + k && WORD == BUFFER_SIZE * 0x4000_0000;
    } else {
      assert Wrap(index + 1) == index + 1;
    }
  }

  lemma AheadAfterStore<T>(b: Buf<T>, l: seq<T>, n: nat)
    requires Ok(b) && n > 0 && n <= BUFFER_SIZE && EmptyAhead(b, n)
    ensures StoreEmpty(b, l).Some? && EmptyAhead(StoreEmpty(b, l).value, n - 1)
  {
    assert EmptyAt(b, 0);
    var b' := StoreEmpty(b, l).value;
    forall k: nat | k < n - 1
      ensures EmptyAt(b', k)
    {
      WrapStep(b.put, k);
      assert EmptyAt(b, k + 1);
    }
  }

  /** Either the stores of the loop are enough to fill the buffer, or the buffer was empty when the
      spreading began and the put position still points at an empty slot. */
  lemma {:induction false} SpreadOccupies<T>(b: Buf<T>, l: seq<T>, n: nat)
    requires Ok(b) && n < BUFFER_SIZE
    requires Occupied(b.lists) > n || (Occupied(b.lists) == n && EmptyAhead(b, BUFFER_SIZE - n))
    ensures Occupied(Spread(b, l, n).lists) ==
            if Occupied(b.lists) + |l| < BUFFER_SIZE then Occupied(b.lists) + |l| else BUFFER_SIZE
    decreases BUFFER_SIZE - n
  {
    if n == BUFFER_SIZE - 1 {
      assert Occupied(b.lists) == n ==> EmptyAt(b, 0);
      StoreOccupiedOccupies(b, l);
    } else if l != [] {
      StoreEmptyOccupies(b, [l[0]]);
      if StoreEmpty(b, [l[0]]).Some? {
        if Occupied(b.lists) == n {
          AheadAfterStore(b, [l[0]], BUFFER_SIZE - n);
        }
        SpreadOccupies(StoreEmpty(b, [l[0]]).value, l[1..], n + 1);
      } else {
        StoreOccupiedOccupies(b, l);
      }
    }
  }

  /** Exact spreading: if `get_item` detaches a list with `t` successors while `e` slots, counting the
      one just emptied, are empty, then exactly min(4, 4 - e + t) slots are occupied afterwards. */
  lemma SpreadsExactly<T>(b: Buf<T>)
    requires Ok(b) && Taken(b) != []
    ensures var t, e := |Taken(b)| - 1, BUFFER_SIZE - Occupied(Detached(b).lists);
      && 1 <= e
      && Occupied(AfterGet(b).lists) ==
         if BUFFER_SIZE - e + t < BUFFER_SIZE then BUFFER_SIZE - e + t else BUFFER_SIZE
  {
    var i, d := FirstFull(b.lists, b.get, 0), Detached(b);
    FirstFullMeans(b.lists, b.get, 0);
    OccupiedReplace(b.lists, SlotOf(b.get, i), []);
    if |Taken(b)| > 1 {
      AllOccupied(d.lists);
      SpreadOccupies(d, Taken(b)[1..], 0);
    }
  }
}
