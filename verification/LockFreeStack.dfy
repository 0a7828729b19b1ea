/** The `LockFreeStack` object, used by one thread at a time. */
module LockFreeStack {
  import opened Tasks

  class LockFreeStack {
    var head: TaskBase?
    /** The tasks pushed and not yet popped, latest first. */
    ghost var items: seq<TaskBase>

    ghost predicate Valid()
      reads this, items
    {
      Heads(head, items)
    }

    constructor ()
      ensures Valid() && items == []
    {
      head, items := null, [];
    }

    /** `push`, whatever the link of `item` was before; the weak compare-and-swap may fail spuriously
        any number of times.  The answer says whether the stack was empty. */
    method Push(item: TaskBase) returns (first: bool)
      requires Valid() && item !in items
      modifies this, item`next
      ensures Valid() && items == [item] + old(items)
      ensures first <==> old(items) == []
    {
      var expected := head;
      item.next := expected;
      var failures: nat := *;
      while failures > 0 || head != expected
        invariant item.next == expected == head
        decreases failures
        modifies item`next
      {
        expected := head;
        item.next := expected;
        failures := failures - 1;
      }
      HeadsCons(item, items);
      first := expected == null;
      head, items := item, [item] + items;
    }

    /** `pop_list`. */
    method PopList() returns (list: TaskBase?)
      requires Valid()
      modifies this
      ensures Valid() && items == []
      ensures Heads(list, old(items)) && (list == null <==> old(items) == [])
    {
      list := head;
      head, items := null, [];
    }
  }
}
