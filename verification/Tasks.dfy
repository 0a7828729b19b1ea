/** Task objects and the intrusive lists they form. */
module Tasks {

  import opened Basics

  /** `TaskBase`, with the fields the run queue and the wake-up traversal use. */
  class TaskBase {
    const isThreadBound: bool
    var next: TaskBase?
    var state: TaskState
    var hasContext: bool      // m_context != nullptr
    var priority: nat
    var notified: nat         // calls of notify() on a thread bound task

    constructor (isThreadBound: bool)
      ensures this.isThreadBound == isThreadBound && next == null && state == Running && !hasContext
    {
      this.isThreadBound := isThreadBound;
      next, state, hasContext, priority, notified := null, Running, false, 1, 0;
    }
  }

  /** The pointer to position `i` of `l`, where `end` follows the last task. */
  ghost function At(l: seq<TaskBase>, i: nat, end: TaskBase?): TaskBase? {
    if i < |l| then l[i] else end
  }

  ghost predicate Leads(l: seq<TaskBase>, i: nat, end: TaskBase?)
    requires i < |l|
    reads l[i]
  {
    l[i].next == At(l, i + 1, end)
  }

  /** From `head`, the links run through exactly the tasks of `l` and then reach `end`. */
  ghost predicate Linked(head: TaskBase?, l: seq<TaskBase>, end: TaskBase?)
    reads l
  {
    head == At(l, 0, end) && forall i {:trigger Leads(l, i, end)} :: 0 <= i < |l| ==> Leads(l, i, end)
  }

  ghost function Nodes(l: seq<TaskBase>): set<TaskBase> {
    set t | t in l
  }

  ghost predicate Apart(l: seq<TaskBase>, m: seq<TaskBase>) {
    forall t :: t in l ==> t !in m
  }

  /** `head` heads `l`: the whole list, ending in null, with no task twice. */
  ghost predicate Heads(head: TaskBase?, l: seq<TaskBase>)
    reads l
  {
    Linked(head, l, null) && Distinct(l)
  }

  lemma LinkedTail(head: TaskBase?, l: seq<TaskBase>, end: TaskBase?)
    requires Linked(head, l, end) && l != []
    ensures head == l[0] && Linked(l[0].next, l[1..], end)
  {
    assert Leads(l, 0, end);
    forall i {:trigger Leads(l[1..], i, end)} | 0 <= i < |l[1..]|
      ensures Leads(l[1..], i, end)
    {
      assert Leads(l, i + 1, end);
    }
  }

  lemma LinkedCons(x: TaskBase, l: seq<TaskBase>, end: TaskBase?)
    requires Linked(x.next, l, end)
    ensures Linked(x, [x] + l, end)
  {
    forall i {:trigger Leads([x] + l, i, end)} | 0 <= i < |[x] + l|
      ensures Leads([x] + l, i, end)
    {
      assert i > 0 ==> Leads(l, i - 1, end);
    }
  }

  lemma LinkedJoin(head: TaskBase?, l: seq<TaskBase>, mid: TaskBase?, m: seq<TaskBase>, end: TaskBase?)
    requires Linked(head, l, mid) && Linked(mid, m, end)
    ensures Linked(head, l + m, end)
  {
    forall i {:trigger Leads(l + m, i, end)} | 0 <= i < |l + m|
      ensures Leads(l + m, i, end)
    {
      if i < |l| {
        assert Leads(l, i, mid);
      } else {
        assert Leads(m, i - |l|, end);
      }
    }
  }

  lemma DistinctTail(l: seq<TaskBase>)
    requires l != [] && Distinct(l)
    ensures l[0] !in l[1..] && Distinct(l[1..])
  {
    forall j | 0 <= j < |l[1..]|
      ensures l[1..][j] == l[j + 1] && l[j + 1] != l[0]
    {
    }
  }

  lemma DistinctJoin(l: seq<TaskBase>, m: seq<TaskBase>)
    requires Distinct(l) && Distinct(m) && Apart(l, m)
    ensures Distinct(l + m)
  {
    forall i, j | 0 <= i < j < |l + m|
      ensures (l + m)[i] != (l + m)[j]
    {
      if i < |l| <= j {
        assert l[i] in l && m[j - |l|] in m;
      }
    }
  }

  lemma HeadsCons(x: TaskBase, l: seq<TaskBase>)
    requires Heads(x.next, l) && x !in l
    ensures Heads(x, [x] + l)
  {
    LinkedCons(x, l, null);
    DistinctJoin([x], l);
  }

  lemma HeadsTail(head: TaskBase, l: seq<TaskBase>)
    requires Heads(head, l)
    ensures l != [] && head == l[0] && head !in l[1..] && Heads(head.next, l[1..]) && l == [head] + l[1..]
  {
    LinkedTail(head, l, null);
    DistinctTail(l);
  }

  lemma NodesCons(l: seq<TaskBase>)
    requires l != []
    ensures Nodes(l) == {l[0]} + Nodes(l[1..])
  {
    assert l == [l[0]] + l[1..];
  }

  lemma {:induction false} CountOnce(l: seq<TaskBase>)
    requires Distinct(l)
    ensures multiset(l) == multiset(Nodes(l))
  {
    if l != [] {
      DistinctTail(l);
      NodesCons(l);
      CountOnce(l[1..]);
      assert l == [l[0]] + l[1..];
      assert multiset(l) == multiset{l[0]} + multiset(l[1..]);
      assert l[0] !in Nodes(l[1..]);
    }
  }

  lemma NodesTail(l: seq<TaskBase>, s: set<TaskBase>)
    requires l != [] && Distinct(l) && Nodes(l) <= s
    ensures s - Nodes(l) + Nodes(l[1..]) == s - {l[0]}
  {
    DistinctTail(l);
    assert forall t :: t in l ==> t == l[0] || t in l[1..];
    assert forall t :: t in l[1..] ==> t in l;
  }

  /** `find_last_item_in_list`. */
  method FindLast(list: TaskBase, ghost l: seq<TaskBase>) returns (last: TaskBase)
    requires Linked(list, l, null) && l != []
    ensures last == l[|l| - 1]
  {
    last := list;
    ghost var i := 0;
    while last.next != null
      invariant 0 <= i < |l| && last == l[i]
      decreases |l| - i
    {
      assert Leads(l, i, null);
      last := last.next;
      i := i + 1;
    }
    assert Leads(l, i, null);
  }
}
