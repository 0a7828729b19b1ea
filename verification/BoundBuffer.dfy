/** The `BoundBuffer` object, used by one thread at a time: slots, wrapping positions and links are
    rewritten in place, and every method is proved against its function in `BufferSpec`. */
module BoundBuffer {
  import opened Scan
  import opened BufferSpec
  import opened Tasks

  /** `home` says for every task in the buffer in which list it is. */
  ghost predicate Placed(lists: seq<seq<TaskBase>>, home: map<TaskBase, nat>) {
    && |lists| == BUFFER_SIZE
    && (forall c, t :: 0 <= c < BUFFER_SIZE && t in lists[c] ==> t in home && home[t] == c)
    && (forall t {:trigger Lodged(lists, home, t)} :: t in home ==> Lodged(lists, home, t))
  }

  ghost predicate Lodged(lists: seq<seq<TaskBase>>, home: map<TaskBase, nat>, t: TaskBase) {
    t in home && home[t] < |lists| && t in lists[home[t]]
  }

  /** Each slot, except possibly slot `but`, heads its list. */
  ghost predicate Shape(slots: seq<TaskBase?>, lists: seq<seq<TaskBase>>, home: map<TaskBase, nat>, but: nat)
    reads home.Keys
  {
    && Placed(lists, home) && |slots| == BUFFER_SIZE
    && forall c {:trigger Heads(slots[c], lists[c])} :: 0 <= c < BUFFER_SIZE && c != but ==> Heads(slots[c], lists[c])
  }

  lemma Held(lists: seq<seq<TaskBase>>, home: map<TaskBase, nat>, c: nat)
    requires Placed(lists, home) && c < BUFFER_SIZE
    ensures Nodes(lists[c]) <= home.Keys && forall t :: t in lists[c] ==> t in home && home[t] == c
  {
  }

  /** `home` once list `c` has become `l`. */
  ghost function Rehome(home: map<TaskBase, nat>, c: nat, l: seq<TaskBase>): map<TaskBase, nat> {
    map t | t in home.Keys + Nodes(l) && (t in l || home[t] != c) :: if t in l then c else home[t]
  }

  /** A list may become the content of slot `c` if none of its tasks is in another slot. */
  lemma Refit(slots: seq<TaskBase?>, lists: seq<seq<TaskBase>>, home: map<TaskBase, nat>, c: nat, head: TaskBase?,
      l: seq<TaskBase>)
    requires c < BUFFER_SIZE && Shape(slots, lists, home, c)
    requires Heads(head, l) && forall t :: t in l && t in home ==> home[t] == c
    ensures Shape(slots[c := head], lists[c := l], Rehome(home, c, l), BUFFER_SIZE)
    ensures Rehome(home, c, l).Keys == home.Keys - Nodes(lists[c]) + Nodes(l)
  {
    Replaced(lists, home, c, l);
    forall d {:trigger Heads(slots[c := head][d], lists[c := l][d])} | 0 <= d < BUFFER_SIZE
      ensures Heads(slots[c := head][d], lists[c := l][d])
    {
      assert d != c ==> Heads(slots[d], lists[d]);
    }
  }

  lemma Replaced(lists: seq<seq<TaskBase>>, home: map<TaskBase, nat>, c: nat, l: seq<TaskBase>)
    requires c < BUFFER_SIZE && Placed(lists, home) && forall t :: t in l && t in home ==> home[t] == c
    ensures Placed(lists[c := l], Rehome(home, c, l))
    ensures Rehome(home, c, l).Keys == home.Keys - Nodes(lists[c]) + Nodes(l)
  {
    var lists', home' := lists[c := l], Rehome(home, c, l);
    forall d, t | 0 <= d < BUFFER_SIZE && t in lists'[d]
      ensures t in home' && home'[t] == d
    {
      if d != c {
        assert t in lists[d];
      }
    }
    forall t | t in home
      ensures home[t] < BUFFER_SIZE && t in lists[home[t]]
    {
      assert Lodged(lists, home, t);
    }
    forall t | t in home'
      ensures Lodged(lists', home', t)
    {
    }
  }

  /** The tasks of the first `n` slots. */
  ghost function Below(home: map<TaskBase, nat>, n: nat): set<TaskBase> {
    set t | t in home && home[t] < n
  }

  /** No task is stored twice. */
  lemma {:induction false} BufferStoredOnce(slots: seq<TaskBase?>, lists: seq<seq<TaskBase>>,
                                            home: map<TaskBase, nat>, n: nat)
    requires Shape(slots, lists, home, BUFFER_SIZE) && n <= BUFFER_SIZE
    ensures Contents(lists[..n]) == multiset(Below(home, n))
  {
    if n > 0 {
      var l := lists[n - 1];
      BufferStoredOnce(slots, lists, home, n - 1);
      assert lists[..n][..n - 1] == lists[..n - 1] && lists[..n][n - 1] == l;
      assert Heads(slots[n - 1], l);
      CountOnce(l);
      Held(lists, home, n - 1);
      forall t | t in Below(home, n)
        ensures t in Below(home, n - 1) || t in l
      {
        assert Lodged(lists, home, t);
      }
      assert Below(home, n) == Below(home, n - 1) + Nodes(l) && Below(home, n - 1) !! Nodes(l);
    }
  }

  class BoundBuffer {
    var getPosition: Pos
    var putPosition: Pos
    const slots: array<TaskBase?>
    /** The list behind every slot, and where every task is. */
    ghost var lists: seq<seq<TaskBase>>
    ghost var home: map<TaskBase, nat>

    ghost predicate Valid()
      reads this, slots, home.Keys
    {
      Shape(slots[..], lists, home, BUFFER_SIZE)
    }

    ghost function Spec(): Buf<TaskBase>
      reads this
    {
      Buf(getPosition, putPosition, lists)
    }

    /** A list none of whose tasks is in the buffer. */
    ghost predicate Loose(head: TaskBase?, l: seq<TaskBase>)
      reads this, l
    {
      Heads(head, l) && forall t :: t in l ==> t !in home
    }

    constructor ()
      ensures Valid() && Spec() == Fresh() && fresh(slots) && home == map[]
    {
      slots := new TaskBase?[BUFFER_SIZE](_ => null);
      getPosition, putPosition := 0, 0;
      lists, home := [[], [], [], []], map[];
    }

    /** `store_in_empty_slot`. */
    method StoreInEmptySlot(item: TaskBase, ghost l: seq<TaskBase>) returns (done: bool)
      requires Valid() && Loose(item, l)
      modifies this, slots
      ensures Valid()
      ensures done <==> StoreEmpty(old(Spec()), l).Some?
      ensures Spec() == if done then StoreEmpty(old(Spec()), l).value else old(Spec())
      ensures home.Keys == if done then old(home.Keys) + Nodes(l) else old(home.Keys)
    {
      var index := putPosition;
      var i := 0;
      while i < BUFFER_SIZE
        invariant i <= BUFFER_SIZE && index == putPosition == old(putPosition)
        invariant slots[..] == old(slots[..]) && lists == old(lists) && home == old(home)
            && getPosition == old(getPosition)
        invariant FirstEmpty(lists, index, 0) == FirstEmpty(lists, index, i)
      {
        var c := SlotOf(index, i);
        assert Heads(slots[..][c], lists[c]);
        if slots[c] == null {
          slots[c] := item;
          putPosition := Wrap(putPosition + i + 1);
          Record(old(slots[..]), c, l);
          return true;
        }
        var nextIndex := putPosition;
        if index != nextIndex {
          index, i := nextIndex, 0;
        } else {
          i := i + 1;
        }
      }
      return false;
    }

    /** The loop of `store_in_occupied_slot`.  The weak compare-and-swap may fail spuriously any number
        of times. */
    method SwapBack(c: nat, oldList: TaskBase, last: TaskBase, items: TaskBase?, ghost m: seq<TaskBase>,
        ghost l: seq<TaskBase>)
      requires c < slots.Length && slots[c] == items
      requires Heads(oldList, m) && Heads(items, l) && Apart(m, l) && m != [] && last == m[|m| - 1]
      modifies slots, last`next
      ensures slots[..] == old(slots[..])[c := oldList]
      ensures Heads(oldList, m + l)
    {
      last.next := items;
      var expected := items;
      var failures: nat := *;
      while failures > 0 || slots[c] != expected
        invariant expected == items && last.next == items
        decreases failures
        modifies last`next
      {
        expected := slots[c];
        last.next := expected;
        failures := failures - 1;
      }
      slots[c] := oldList;
      assert Linked(oldList, m, items) by {
        forall i {:trigger Leads(m, i, items)} | 0 <= i < |m|
          ensures Leads(m, i, items)
        {
          assert old(Leads(m, i, null));
          assert i < |m| - 1 ==> m[i] != m[|m| - 1];
        }
      }
      assert last in m;
      assert Linked(items, l, null);
      LinkedJoin(oldList, m, items, l, null);
      DistinctJoin(m, l);
    }

    /** The list that was displaced from slot `c` goes back in front of the new one. */
    method SpliceBack(c: nat, oldList: TaskBase, items: TaskBase?, ghost l: seq<TaskBase>)
      requires c < BUFFER_SIZE == slots.Length && slots[c] == items && Loose(items, l)
      requires Shape(slots[..][c := oldList], lists, home, BUFFER_SIZE)
      modifies slots, this`lists, this`home, home.Keys`next
      ensures Valid()
      ensures lists == old(lists)[c := old(lists)[c] + l]
      ensures home.Keys == old(home.Keys) + Nodes(l)
    {
      ghost var m, before := lists[c], slots[..][c := oldList];
      assert Heads(before[c], m);
      Held(lists, home, c);
      var last := FindLast(oldList, m);
      assert last in m;
      SwapBack(c, oldList, last, items, m, l);
      forall d {:trigger Heads(before[d], lists[d])} | 0 <= d < BUFFER_SIZE && d != c
        ensures Heads(before[d], lists[d])
      {
        assert old(Heads(before[d], lists[d]));
        Held(lists, home, d);
      }
      Record(before, c, m + l);
      assert Nodes(m + l) == Nodes(m) + Nodes(l);
    }

    /** `store_in_occupied_slot`. */
    method StoreInOccupiedSlot(items: TaskBase?, ghost l: seq<TaskBase>)
      requires Valid() && Loose(items, l)
      modifies this, slots, home.Keys`next
      ensures Valid()
      ensures Spec() == StoreOccupied(old(Spec()), l)
      ensures home.Keys == old(home.Keys) + Nodes(l)
    {
      ghost var after := StoreOccupied(Spec(), l);
      var c := putPosition % BUFFER_SIZE;
      assert after == Buf(getPosition, Wrap(putPosition + 1), lists[c := lists[c] + l]);
      assert Heads(slots[..][c], lists[c]);
      putPosition := Wrap(putPosition + 1);
      var oldList := slots[c];
      slots[c] := items;
      assert slots[..][c := oldList] == old(slots[..]);
      if oldList == null {
        assert lists[c] + l == l;
        Record(old(slots[..]), c, l);
        assert Spec() == after;
      } else {
        SpliceBack(c, oldList, items, l);
        assert Spec() == after;
      }
    }

    /** Slot `c` now heads `l`; the other slots are as they were. */
    ghost method Record(before: seq<TaskBase?>, c: nat, l: seq<TaskBase>)
      requires c < BUFFER_SIZE == slots.Length && Shape(before, lists, home, c)
      requires slots[..] == before[c := slots[c]]
      requires Heads(slots[c], l) && forall t :: t in l && t in home ==> home[t] == c
      modifies this`lists, this`home
      ensures Valid() && lists == old(lists)[c := l]
      ensures home.Keys == old(home.Keys) - Nodes(old(lists)[c]) + Nodes(l)
    {
      Refit(before, lists, home, c, slots[c], l);
      lists, home := lists[c := l], Rehome(home, c, l);
    }

    /** No slot is empty: the task is linked to the rest again, and all go to an occupied slot. */
    method StoreBack(item: TaskBase, rest: TaskBase?, ghost l: seq<TaskBase>)
      requires Valid() && Loose(rest, l) && item !in home && item !in l
      modifies this, slots, home.Keys`next, item`next
      ensures Valid() && Spec() == StoreOccupied(old(Spec()), [item] + l)
      ensures home.Keys == old(home.Keys) + Nodes([item] + l)
    {
      item.next := rest;
      HeadsCons(item, l);
      StoreInOccupiedSlot(item, [item] + l);
    }

    /** The rest of a round: the first task goes to an empty slot, or else the whole list goes to an
        occupied one. */
    method StoreNext(item: TaskBase, ghost l: seq<TaskBase>, ghost n: nat, ghost goal: Buf<TaskBase>)
      returns (finished: bool, rest: TaskBase?, ghost m: seq<TaskBase>)
      requires Valid() && Loose(item, l) && l != []
      requires n < BUFFER_SIZE - 1 && Spread(Spec(), l, n) == goal
      modifies this, slots, home.Keys`next, item`next
      ensures Valid() && Loose(rest, m) && home.Keys + Nodes(m) == old(home.Keys) + Nodes(l)
      ensures finished ==> m == [] && Spec() == goal
      ensures !finished ==> m == l[1..] && Spread(Spec(), m, n + 1) == goal
    {
      HeadsTail(item, l);
      NodesCons(l);
      SpreadStep(Spec(), l, n);
      rest, m := item.next, l[1..];
      item.next := null;
      var done := StoreInEmptySlot(item, [l[0]]);
      assert Heads(rest, m);
      finished := !done;
      if finished {
        StoreBack(item, rest, m);
        rest, m := null, [];
      }
    }

    /** One round of the loop in `store_tail`; `items` may be null. */
    method StoreRound(items: TaskBase?, ghost l: seq<TaskBase>, ghost n: nat, ghost goal: Buf<TaskBase>)
      returns (finished: bool, rest: TaskBase?, ghost m: seq<TaskBase>)
      requires Valid() && Loose(items, l) && n < BUFFER_SIZE - 1 && Spread(Spec(), l, n) == goal
      modifies this, slots, home.Keys`next, Nodes(l)`next
      ensures Valid() && Loose(rest, m) && home.Keys + Nodes(m) == old(home.Keys) + Nodes(l)
      ensures finished ==> m == [] && Spec() == goal
      ensures !finished ==> Spread(Spec(), m, n + 1) == goal
    {
      if items == null {
        return true, null, [];
      }
      finished, rest, m := StoreNext(items, l, n, goal);
    }

    /** The loop of `store_tail`: it stores everything, or leaves `rest` after three rounds. */
    method StoreRounds(items: TaskBase?, ghost l: seq<TaskBase>, ghost goal: Buf<TaskBase>)
      returns (finished: bool, rest: TaskBase?, ghost m: seq<TaskBase>)
      requires Valid() && Loose(items, l) && Spread(Spec(), l, 0) == goal
      modifies this, slots, home.Keys`next, Nodes(l)`next
      ensures Valid() && Loose(rest, m) && home.Keys + Nodes(m) == old(home.Keys) + Nodes(l)
      ensures finished ==> m == [] && Spec() == goal
      ensures !finished ==> Spread(Spec(), m, BUFFER_SIZE - 1) == goal
    {
      finished, rest, m := false, items, l;
      var i := 0;
      while i < BUFFER_SIZE - 1 && !finished
        invariant i <= BUFFER_SIZE - 1
        invariant Valid() && Loose(rest, m) && home.Keys + Nodes(m) == old(home.Keys) + Nodes(l)
        invariant finished ==> m == [] && Spec() == goal
        invariant !finished ==> Spread(Spec(), m, i) == goal
      {
        finished, rest, m := StoreRound(rest, m, i, goal);
        i := i + 1;
      }
    }

    /** `store_tail`; `items` may be null. */
    method StoreTail(items: TaskBase?, ghost l: seq<TaskBase>)
      requires Valid() && Loose(items, l)
      modifies this, slots, home.Keys`next, Nodes(l)`next
      ensures Valid()
      ensures Spec() == Spread(old(Spec()), l, 0)
      ensures home.Keys == old(home.Keys) + Nodes(l)
    {
      ghost var m;
      var finished, rest;
      finished, rest, m := StoreRounds(items, l, Spread(Spec(), l, 0));
      if !finished {
        StoreInOccupiedSlot(rest, m);
      }
    }

    /** The end of `get_item`: what was linked to the answer is stored again. */
    method StoreRest(item: TaskBase, ghost l: seq<TaskBase>) returns (any: bool)
      requires Valid() && Loose(item, l)
      modifies this, slots, home.Keys`next, Nodes(l)`next
      ensures Valid() && any == (|l| > 1) && item.next == null
      ensures l != [] && item == l[0] && home.Keys == old(home.Keys) + Nodes(l[1..])
      ensures Spec() == if any then Spread(old(Spec()), l[1..], 0) else old(Spec())
    {
      HeadsTail(item, l);
      any := item.next != null;
      if any {
        StoreTail(item.next, l[1..]);
        item.next := null;
      }
    }

    /** What `get_item` does with the list it found `i` slots on, once the slot is empty. */
    method FinishGet(item: TaskBase, i: nat, ghost before: seq<TaskBase?>) returns (any: bool)
      requires i < BUFFER_SIZE == slots.Length && Shape(before, lists, home, BUFFER_SIZE)
      requires slots[..] == before[SlotOf(getPosition, i) := null] && item == before[SlotOf(getPosition, i)]
      requires FirstFull(lists, getPosition, 0) == i
      modifies this, slots, home.Keys`next
      ensures Valid() && Spec() == AfterGet(old(Spec()))
      ensures any <==> |Taken(old(Spec()))| > 1
      ensures Taken(old(Spec())) != [] && item == Taken(old(Spec()))[0] && item.next == null
      ensures item in old(home) && home.Keys == old(home.Keys) - {item}
    {
      ghost var b, c := Spec(), SlotOf(getPosition, i);
      ghost var l := Taken(b);
      assert Heads(before[c], l);
      HeadsTail(item, l);
      Held(lists, home, c);
      getPosition := Wrap(getPosition + i + 1);
      Record(before, c, []);
      assert Spec() == Detached(b);
      ghost var keys := home.Keys;
      assert keys == old(home.Keys) - Nodes(l);
      any := StoreRest(item, l);
      assert Spec() == AfterGet(b);
      assert home.Keys == keys + Nodes(l[1..]);
      NodesTail(l, old(home.Keys));
    }

    /** `get_item`: the answer is one task, no longer linked to anything. */
    method GetItem(haveMore: bool) returns (item: TaskBase?, more: bool)
      requires Valid()
      modifies this, slots, home.Keys`next
      ensures Valid()
      ensures Spec() == AfterGet(old(Spec()))
      ensures more == (haveMore || |Taken(old(Spec()))| > 1)
      ensures item == null <==> Taken(old(Spec())) == []
      ensures item == null ==> Spec() == old(Spec())
      ensures item != null ==> item == Taken(old(Spec()))[0] && item.next == null && item in old(home.Keys)
      ensures home.Keys == old(home.Keys) - {item}
    {
      item, more := null, haveMore;
      ghost var b := Spec();
      var index := getPosition;
      var i := 0;
      while i < BUFFER_SIZE
        invariant i <= BUFFER_SIZE && index == getPosition == b.get
        invariant slots[..] == old(slots[..]) && lists == old(lists) && home == old(home) && Spec() == b
        invariant Valid() && item == null
        invariant FirstFull(lists, index, 0) == FirstFull(lists, index, i)
      {
        var c := SlotOf(index, i);
        assert Heads(slots[..][c], lists[c]);
        item := slots[c];
        slots[c] := null;
        assert slots[..] == old(slots[..])[c := slots[c]];
        if item != null {
          var any := FinishGet(item, i, old(slots[..]));
          more := haveMore || any;
          return;
        }
        assert slots[..] == old(slots[..]);
        var nextIndex := getPosition;
        if index != nextIndex {
          index, i := nextIndex, 0;
        } else {
          i := i + 1;
        }
      }
    }

    /** `put_items_list`. */
    method PutItemsList(items: TaskBase, ghost l: seq<TaskBase>)
      requires Valid() && Loose(items, l)
      modifies this, slots, home.Keys`next
      ensures Valid()
      ensures Spec() == PutList(old(Spec()), l)
      ensures home.Keys == old(home.Keys) + Nodes(l)
    {
      var done := StoreInEmptySlot(items, l);
      if done {
        return;
      }
      StoreInOccupiedSlot(items, l);
    }

    /** `put_priority_item`, whatever the link of `item` was before. */
    method PutPriorityItem(item: TaskBase)
      requires Valid() && item !in home
      modifies this, slots, item`next
      ensures Valid()
      ensures Spec() == PutFront(old(Spec()), item)
      ensures home.Keys == old(home.Keys) + {item}
    {
      var c := getPosition % BUFFER_SIZE;
      ghost var l := lists[c];
      Held(lists, home, c);
      var nextItem := slots[c];
      item.next := nextItem;
      assert Heads(slots[..][c], l);
      var failures: nat := *;
      while failures > 0 || slots[c] != nextItem
        invariant item.next == nextItem == slots[c]
        decreases failures
        modifies item`next
      {
        nextItem := slots[c];
        item.next := nextItem;
        failures := failures - 1;
      }
      HeadsCons(item, l);
      slots[c] := item;
      Record(old(slots[..]), c, [item] + l);
    }
  }
}
