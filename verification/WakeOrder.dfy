/** Which tasks of a released wait list the walk of `add_waiting_list_to_running` hands to the run queue,
    and in which order. */
module WakeOrder {
  import opened Basics
  import opened QueueSpec
  import opened Tasks

  function Unbound(l: seq<TaskBase>): seq<TaskBase> {
    if l == [] then [] else Unbound(l[..|l| - 1]) + if l[|l| - 1].isThreadBound then [] else [l[|l| - 1]]
  }

  /** The tasks handed over on the way, in list order; `seen[i]` says whether task `i` had a context
      when the walk reached it. */
  function Ready(l: seq<TaskBase>, seen: seq<bool>): (r: seq<TaskBase>)
    requires |seen| == |l|
    ensures forall t :: t in r ==> t in l && !t.isThreadBound
  {
    if l == [] then []
    else
      var n := |l| - 1;
      Ready(l[..n], seen[..n]) + if !l[n].isThreadBound && seen[n] then [l[n]] else []
  }

  /** The tasks put aside, last one first. */
  function Delayed(l: seq<TaskBase>, seen: seq<bool>): (r: seq<TaskBase>)
    requires |seen| == |l|
    ensures forall t :: t in r ==> t in l && !t.isThreadBound
  {
    if l == [] then []
    else
      var n := |l| - 1;
      (if !l[n].isThreadBound && !seen[n] then [l[n]] else []) + Delayed(l[..n], seen[..n])
  }

  /** One more task visited. */
  lemma Extend(l: seq<TaskBase>, seen: seq<bool>, x: TaskBase, b: bool)
    requires |seen| == |l| && (x.isThreadBound ==> !b)
    ensures Delayed(l + [x], seen + [b]) == if x.isThreadBound || b then Delayed(l, seen) else [x] + Delayed(l, seen)
    ensures Ready(l + [x], seen + [b]) == if b then Ready(l, seen) + [x] else Ready(l, seen)
  {
    assert (l + [x])[..|l|] == l && (seen + [b])[..|l|] == seen;
  }

  /** Each unbound task of the list is handed over exactly once, and no other task is. */
  lemma {:induction false} EachOnce(l: seq<TaskBase>, seen: seq<bool>)
    requires |seen| == |l|
    ensures multiset(Ready(l, seen) + Delayed(l, seen)) == multiset(Unbound(l))
  {
    if l != [] {
      var n := |l| - 1;
      EachOnce(l[..n], seen[..n]);
    }
  }

  lemma {:induction false} NotBoth(l: seq<TaskBase>, seen: seq<bool>)
    requires Distinct(l) && |seen| == |l|
    ensures Apart(Ready(l, seen), Delayed(l, seen))
  {
    if l != [] {
      var n := |l| - 1;
      NotBoth(l[..n], seen[..n]);
    }
  }

  /** The unbound tasks are those handed over by one loop or the other. */
  lemma {:induction false} Split(l: seq<TaskBase>, seen: seq<bool>)
    requires |seen| == |l|
    ensures forall t :: t in Unbound(l) <==> t in l && !t.isThreadBound
    ensures forall t :: t in Unbound(l) ==> t in Ready(l, seen) || t in Delayed(l, seen)
    ensures forall t :: t in Ready(l, seen) || t in Delayed(l, seen) ==> t in Unbound(l)
  {
    if l != [] {
      var n := |l| - 1;
      Split(l[..n], seen[..n]);
      assert l == l[..n] + [l[n]];
    }
  }

  lemma {:induction false} SplitNodes(l: seq<TaskBase>, seen: seq<bool>)
    requires |seen| == |l|
    ensures Nodes(Unbound(l)) == Nodes(Ready(l, seen)) + Nodes(Delayed(l, seen))
  {
    Split(l, seen);
  }

  /** A task not yet visited is neither handed over nor put aside, and no task is both. */
  lemma Ahead(l: seq<TaskBase>, visited: seq<TaskBase>, m: seq<TaskBase>, seen: seq<bool>, task: TaskBase)
    requires Distinct(l) && visited + m == l && |seen| == |visited| && m != [] && task == m[0]
    ensures Apart(visited, m) && task in m && task !in visited && l == (visited + [task]) + m[1..]
    ensures Apart(Ready(visited, seen), m) && Apart(Delayed(visited, seen), m)
    ensures Apart(Ready(visited, seen), Delayed(visited, seen))
  {
    forall i, j | 0 <= i < |visited| && 0 <= j < |m|
      ensures visited[i] != m[j]
    {
      assert l[i] != l[|visited| + j];
    }
    assert Distinct(visited) by {
      forall i, j | 0 <= i < j < |visited|
        ensures visited[i] != visited[j]
      {
        assert l[i] != l[j];
      }
    }
    NotBoth(visited, seen);
  }

  // ---- the queue

  /** What is known of a task before the walk. */
  datatype Entry = Entry(priority: nat, notified: nat, hasContext: bool)

  type Record = map<TaskBase, Entry>

  /** The queue after tasks were put one after the other. */
  ghost function PutAll(q: Queue<TaskBase>, ts: seq<TaskBase>, was: Record): (r: Queue<TaskBase>)
    requires WellFormed(q) && forall t :: t in ts ==> t in was
    ensures WellFormed(r)
    decreases |ts|
  {
    if ts == [] then q else PutAll(Put(q, ts[0], was[ts[0]].priority), ts[1..], was)
  }

  lemma {:induction false} PutAllStores(q: Queue<TaskBase>, ts: seq<TaskBase>, was: Record)
    requires WellFormed(q) && forall t :: t in ts ==> t in was
    ensures Stored(PutAll(q, ts, was)) == Stored(q) + multiset(ts)
    decreases |ts|
  {
    if ts != [] {
      var q' := Put(q, ts[0], was[ts[0]].priority);
      PutStores(q, ts[0], was[ts[0]].priority);
      PutAllStores(q', ts[1..], was);
      assert ts == [ts[0]] + ts[1..];
      assert multiset(ts) == multiset{ts[0]} + multiset(ts[1..]);
    }
  }

  lemma {:induction false} PutAllJoin(q: Queue<TaskBase>, a: seq<TaskBase>, b: seq<TaskBase>, was: Record)
    requires WellFormed(q) && forall t :: t in a + b ==> t in was
    ensures PutAll(q, a + b, was) == PutAll(PutAll(q, a, was), b, was)
    decreases |a|
  {
    if a == [] {
      assert a + b == b;
    } else {
      PutAllJoin(Put(q, a[0], was[a[0]].priority), a[1..], b, was);
      assert (a + b)[1..] == a[1..] + b;
    }
  }

  lemma PutAllSnoc(q: Queue<TaskBase>, r: seq<TaskBase>, x: TaskBase, was: Record)
    requires WellFormed(q) && forall t :: t in r + [x] ==> t in was
    ensures PutAll(q, r + [x], was) == Put(PutAll(q, r, was), x, was[x].priority)
  {
    PutAllJoin(q, r, [x], was);
    var q' := PutAll(q, r, was);
    assert PutAll(q', [x], was) == PutAll(Put(q', x, was[x].priority), [x][1..], was);
  }
}
