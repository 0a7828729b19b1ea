/** The `LockFreeQueue` object, used by one thread at a time: a bounded buffer and three stacks that
    share the `next` links of the tasks they hold. */
module LockFreeQueue {
  import opened Basics
  import opened Scan
  import opened BufferSpec
  import opened QueueSpec
  import opened Tasks
  import opened BoundBuffer
  import opened LockFreeStack

  lemma ThreeLists(s: seq<seq<TaskBase>>)
    requires |s| == 3 && Distinct(s[0]) && Distinct(s[1]) && Distinct(s[2])
    ensures Contents(s) == multiset(Nodes(s[0])) + multiset(Nodes(s[1])) + multiset(Nodes(s[2]))
  {
    CountOnce(s[0]);
    CountOnce(s[1]);
    CountOnce(s[2]);
    assert s[..2][..1] == s[..1] && s[..1][..0] == s[..0];
    assert Contents(s[..1]) == Contents(s[..0]) + multiset(s[0]);
    assert Contents(s[..2]) == Contents(s[..1]) + multiset(s[1]);
  }

  lemma FourSets(a: set<TaskBase>, b: set<TaskBase>, c: set<TaskBase>, d: set<TaskBase>)
    requires a !! b + c + d && b !! c + d && c !! d
    ensures multiset(a + (b + c + d)) == multiset(a) + (multiset(b) + multiset(c) + multiset(d))
  {
  }

  class LockFreeQueue {
    const buffer: BoundBuffer
    const stacks: seq<LockFreeStack>
    /** What the queue holds, as a value of `QueueSpec`, and every task in it. */
    ghost var content: Queue<TaskBase>
    ghost var members: set<TaskBase>

    ghost function StackTasks(k: nat): set<TaskBase>
      reads stacks
    {
      if k < |stacks| then Nodes(stacks[k].items) else {}
    }

    ghost function OnStacks(): set<TaskBase>
      reads stacks
    {
      StackTasks(0) + StackTasks(1) + StackTasks(2)
    }

    /** The three stacks are different objects and share no task. */
    ghost predicate Apart3()
      reads stacks
    {
      && |stacks| == STACKS
      && stacks[0] != stacks[1] && stacks[0] != stacks[2] && stacks[1] != stacks[2]
      && StackTasks(0) !! StackTasks(1) && StackTasks(0) !! StackTasks(2) && StackTasks(1) !! StackTasks(2)
    }

    /** No task is in two places, and the two ghost fields say what there is. */
    ghost predicate Shared()
      reads this, buffer, stacks
    {
      && Apart3()
      && buffer.home.Keys !! OnStacks() && members == buffer.home.Keys + OnStacks()
      && content == Queue(buffer.Spec(), [stacks[0].items, stacks[1].items, stacks[2].items])
    }

    /** Everything that holds of a queue between two operations. */
    ghost predicate Whole()
      reads this, buffer, buffer.slots, stacks, members
    {
      Shared() && buffer.Valid() && stacks[0].Valid() && stacks[1].Valid() && stacks[2].Valid()
    }

    ghost predicate Part(k: nat)
      reads this, buffer, buffer.slots, stacks, members
    {
      Shared() && if k < STACKS then stacks[k].Valid() else buffer.Valid()
    }

    /** `Whole()`, part by part, for users of a queue that need not look into it. */
    ghost predicate Valid()
      reads this, buffer, buffer.slots, stacks, members
    {
      |stacks| == STACKS && WellFormed(content) && forall k {:trigger Part(k)} :: 0 <= k <= STACKS ==> Part(k)
    }

    lemma Open()
      requires Valid()
      ensures Whole()
    {
      assert Part(0) && Part(1) && Part(2) && Part(3);
    }

    lemma Close()
      requires Whole()
      ensures Valid()
    {
      forall k {:trigger Part(k)} | 0 <= k <= STACKS
        ensures Part(k)
      {
        if k == 1 {
          assert stacks[1].Valid();
        } else if k == 2 {
          assert stacks[2].Valid();
        }
      }
    }

    /** Nothing is stored twice: what is stored, counted with repetitions, is the set of the members. */
    lemma StoredOnce()
      requires Valid()
      ensures Stored(content) == multiset(members)
    {
      Open();
      BufferStoredOnce(buffer.slots[..], buffer.lists, buffer.home, BUFFER_SIZE);
      assert buffer.lists[..BUFFER_SIZE] == buffer.lists && Below(buffer.home, BUFFER_SIZE) == buffer.home.Keys by {
        forall t | t in buffer.home
          ensures t in Below(buffer.home, BUFFER_SIZE)
        {
          assert Lodged(buffer.lists, buffer.home, t);
        }
      }
      ThreeLists(content.stacks);
      FourSets(buffer.home.Keys, StackTasks(0), StackTasks(1), StackTasks(2));
    }

    constructor ()
      ensures Valid() && content == Empty() && members == {}
      ensures fresh(buffer) && fresh(buffer.slots) && fresh(stacks[0]) && fresh(stacks[1]) && fresh(stacks[2])
    {
      buffer := new BoundBuffer();
      var s0 := new LockFreeStack();
      var s1 := new LockFreeStack();
      var s2 := new LockFreeStack();
      stacks := [s0, s1, s2];
      content, members := Empty(), {};
      new;
      Close();
    }

    method PutFirst(item: TaskBase)
      requires Whole() && item !in members
      modifies this, buffer, buffer.slots, item`next
      ensures Whole() && content == Put(old(content), item, 0) && members == old(members) + {item}
    {
      ghost var rest := OnStacks();
      buffer.PutPriorityItem(item);
      assert OnStacks() == rest;
      Record();
    }

    method PushTo(k: nat, item: TaskBase)
      requires Whole() && item !in members && k < STACKS
      modifies this, stacks[k], item`next
      ensures Whole() && content == Put(old(content), item, k + 1) && members == old(members) + {item}
    {
      content, members := Put(content, item, k + 1), members + {item};
      assert item !in stacks[k].items;
      var _ := stacks[k].Push(item);
      assert StackTasks(k) == old(StackTasks(k)) + {item};
    }

    /** `put_item`. */
    method PutItem(item: TaskBase, prio: nat)
      requires Valid() && item !in members
      modifies this, buffer, buffer.slots, stacks, item`next
      ensures Valid()
      ensures content == Put(old(content), item, prio)
      ensures members == old(members) + {item}
    {
      Open();
      if prio == 0 {
        PutFirst(item);
      } else {
        var p := if prio >= STACKS then STACKS else prio;
        PushTo(p - 1, item);
      }
      Close();
    }

    /** The loop of `get_item`: the first stack that is not empty is emptied. */
    method PopFirst() returns (list: TaskBase?, ghost k: nat)
      requires Whole()
      modifies this, stacks
      ensures Whole() && k == FirstStack(old(content).stacks, 0) && (list == null <==> k == STACKS)
      ensures k == STACKS ==> content == old(content) && members == old(members)
      ensures k < STACKS ==>
        && content == old(content).(stacks := old(content).stacks[k := []])
        && Heads(list, old(stacks[k].items))
        && members == old(members) - old(StackTasks(k)) && old(StackTasks(k)) <= old(members)
    {
      list := null;
      var i := 0;
      while i < STACKS
        invariant i <= STACKS && Whole() && list == null
        invariant content == old(content) && members == old(members)
        invariant FirstStack(content.stacks, 0) == FirstStack(content.stacks, i)
      {
        list := PopAt(i);
        if list != null {
          return list, i;
        }
        i := i + 1;
      }
      k := i;
    }

    method PopAt(k: nat) returns (list: TaskBase?)
      requires Whole() && k < STACKS
      modifies this, stacks[k]
      ensures Whole() && (list == null <==> old(stacks[k].items) == [])
      ensures content == old(content).(stacks := old(content).stacks[k := []])
      ensures Heads(list, old(stacks[k].items))
      ensures members == old(members) - old(StackTasks(k)) && old(StackTasks(k)) <= old(members)
    {
      list := stacks[k].PopList();
      assert StackTasks(k) == {};
      content, members := content.(stacks := content.stacks[k := []]), members - old(StackTasks(k));
    }

    /** The end of `get_item`: all but the first task of a stack's list go to the buffer. */
    method Refill(item: TaskBase, ghost l: seq<TaskBase>) returns (any: bool)
      requires Whole() && Heads(item, l) && members !! Nodes(l)
      modifies this, buffer, buffer.slots, buffer.home.Keys`next, item`next
      ensures Whole() && item.next == null && l != [] && item == l[0] && any == (|l| > 1)
      ensures content == if any then old(content).(buf := PutList(old(content).buf, l[1..])) else old(content)
      ensures members == old(members) + Nodes(l[1..])
    {
      HeadsTail(item, l);
      assert item in Nodes(l) && item !in members;
      var list := item.next;
      item.next := null;
      assert Whole();
      assert Heads(list, l[1..]);
      any := list != null;
      if any {
        PutBack(list, l[1..]);
      }
    }

    method PutBack(list: TaskBase, ghost l: seq<TaskBase>)
      requires Whole() && Heads(list, l) && members !! Nodes(l)
      modifies this, buffer, buffer.slots, buffer.home.Keys`next
      ensures Whole() && content == old(content).(buf := PutList(old(content).buf, l))
      ensures members == old(members) + Nodes(l)
    {
      ghost var rest := OnStacks();
      buffer.PutItemsList(list, l);
      assert OnStacks() == rest;
      Record();
    }

    /** `get_item` once the buffer has answered null. */
    method GetFromStacks() returns (item: TaskBase?, any: bool)
      requires Whole() && Taken(content.buf) == []
      modifies this, buffer, buffer.slots, stacks, members`next
      ensures Whole()
      ensures Get(old(content)) == Answer(content, if item == null then None else Some(item), any)
      ensures item != null ==> item.next == null && item in old(members)
      ensures members == old(members) - {item}
    {
      any := false;
      ghost var q := content;
      ghost var k;
      item, k := PopFirst();
      if item != null {
        ghost var l, all := q.stacks[k], old(members);
        assert members == all - Nodes(l) && Nodes(l) <= all;
        any := Refill(item, l);
        NodesTail(l, all);
        assert members == all - {item};
      }
    }

    /** Brings the two ghost fields up to date after a change of the buffer. */
    ghost method Record()
      requires Apart3() && buffer.home.Keys !! OnStacks()
      requires buffer.Valid() && stacks[0].Valid() && stacks[1].Valid() && stacks[2].Valid()
      modifies this`content, this`members
      ensures Whole()
      ensures content == Queue(buffer.Spec(), [stacks[0].items, stacks[1].items, stacks[2].items])
      ensures members == buffer.home.Keys + OnStacks()
    {
      content := Queue(buffer.Spec(), [stacks[0].items, stacks[1].items, stacks[2].items]);
      members := buffer.home.Keys + OnStacks();
    }

    method GetFromBuffer(haveMore: bool) returns (item: TaskBase?, more: bool)
      requires Whole()
      modifies this, buffer, buffer.slots, buffer.home.Keys`next
      ensures Whole() && content == old(content).(buf := AfterGet(old(content).buf))
      ensures more == (haveMore || |Taken(old(content).buf)| > 1)
      ensures item == null <==> Taken(old(content).buf) == []
      ensures item == null ==> content == old(content)
      ensures item != null ==> item == Taken(old(content).buf)[0] && item.next == null && item in old(members)
      ensures members == old(members) - {item}
    {
      ghost var rest := OnStacks();
      item, more := buffer.GetItem(haveMore);
      assert OnStacks() == rest;
      Record();
    }

    /** `get_item`. */
    method GetItem(haveMore: bool) returns (item: TaskBase?, more: bool)
      requires Valid()
      modifies this, buffer, buffer.slots, stacks, members`next
      ensures Valid()
      ensures var r := Get(old(content));
        && content == r.q && more == (haveMore || r.more)
        && r.item == if item == null then None else Some(item)
      ensures item != null ==> item.next == null && item in old(members)
      ensures members == old(members) - {item}
    {
      Open();
      item, more := GetFromBuffer(haveMore);
      if item == null {
        var any;
        item, any := GetFromStacks();
        more := more || any;
      }
      Close();
    }
  }
}
