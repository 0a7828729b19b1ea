/** `add_waiting_list_to_running`: the walk over a released wait list, whose tasks lose their `next`
    link to the running queue while the walk is still going on.  Another thread may publish the
    context of a task at any moment. */
module WakeUp {
  import opened Basics
  import opened QueueSpec
  import opened Tasks
  import opened LockFreeQueue
  import opened WakeOrder

  // ---- what the walk calls

  /** A load of `m_context`, which another thread may just have published. */
  method ReadContext(task: TaskBase) returns (ready: bool)
    modifies task`hasContext
    ensures ready == task.hasContext && (old(task.hasContext) ==> ready)
  {
    if * {
      task.hasContext := true;
    }
    ready := task.hasContext;
  }

  /** `wait_while_context_is_null` until it is not: the runner that still executes the task publishes
      its context sooner or later. */
  method AwaitContext(task: TaskBase)
    modifies task`hasContext
    ensures task.hasContext
  {
    task.hasContext := true;
  }

  /** `enqueue_unbound_task`: only for a running, unbound task that can be switched to. */
  method Enqueue(task: TaskBase, queue: LockFreeQueue)
    requires !task.isThreadBound && task.state == Running && task.hasContext && task.next == null
    requires queue.Valid() && task !in queue.members
    modifies queue, queue.buffer, queue.buffer.slots, queue.stacks, task`next
    ensures queue.Valid() && queue.content == Put(old(queue.content), task, task.priority)
    ensures queue.members == old(queue.members) + {task}
  {
    queue.PutItem(task, task.priority);
  }

  /** `BoundTask::notify`. */
  method Notify(task: TaskBase)
    requires task.isThreadBound
    modifies task`notified
    ensures task.notified == old(task.notified) + 1
  {
    task.notified := task.notified + 1;
  }

  // ---- the first loop

  /** An unbound task is handed over if it has a context by now, and put aside if it has none. */
  method Place(task: TaskBase, delayed: TaskBase?, ghost d: seq<TaskBase>, queue: LockFreeQueue)
    returns (put: TaskBase?, ready: bool)
    requires queue.Valid() && task !in queue.members && Heads(delayed, d) && task !in d
    requires !task.isThreadBound && task.state == Running && task.next == null
    modifies queue, queue.buffer, queue.buffer.slots, queue.stacks, task`next, task`hasContext
    ensures queue.Valid() && Heads(put, if ready then d else [task] + d)
    ensures (old(task.hasContext) ==> ready) && (ready ==> task.hasContext)
    ensures queue.content == if ready then Put(old(queue.content), task, task.priority) else old(queue.content)
    ensures queue.members == old(queue.members) + if ready then {task} else {}
  {
    put := delayed;
    ready := ReadContext(task);
    if ready {
      Enqueue(task, queue);
    } else {
      task.next := put;
      HeadsCons(task, d);
      put := task;
    }
  }

  /** What the walk makes of a task that it reached and that `ready` tells about. */
  ghost predicate Woken(t: TaskBase, was: Entry, ready: bool)
    reads t
  {
    && t.state == Running
    && t.notified == was.notified + (if t.isThreadBound then 1 else 0)
    && (!t.isThreadBound && was.hasContext ==> ready)
    && (t.isThreadBound ==> !ready)
    && (ready ==> t.hasContext)
  }

  ghost function EntryOf(t: TaskBase): Entry
    reads t
  {
    Entry(t.priority, t.notified, t.hasContext)
  }

  /** One round of the first loop. */
  method Visit(task: TaskBase, delayed: TaskBase?, ghost l: seq<TaskBase>, ghost d: seq<TaskBase>, queue: LockFreeQueue)
    returns (rest: TaskBase?, put: TaskBase?, ready: bool)
    requires queue.Valid() && Heads(task, l) && Heads(delayed, d)
    requires Apart(d, l) && queue.members !! Nodes(l) + Nodes(d)
    modifies queue, queue.buffer, queue.buffer.slots, queue.stacks
    modifies task`next, task`state, task`notified, task`hasContext
    ensures queue.Valid() && l != [] && task == l[0] && Heads(rest, l[1..])
    ensures Heads(put, if task.isThreadBound || ready then d else [task] + d)
    ensures Woken(task, old(EntryOf(task)), ready)
    ensures queue.content == if ready then Put(old(queue.content), task, task.priority) else old(queue.content)
    ensures queue.members == old(queue.members) + if ready then {task} else {}
  {
    HeadsTail(task, l);
    assert task in Nodes(l);
    rest, put, ready := task.next, delayed, false;
    task.next := null;
    task.state := Running;
    assert Heads(put, d);
    if task.isThreadBound {
      Notify(task);
    } else {
      put, ready := Place(task, put, d, queue);
    }
  }

  /** The queue when the walk began. */
  datatype Start = Start(content: Queue<TaskBase>, members: set<TaskBase>)

  /** The queue has received the tasks of `r` since. */
  ghost predicate Filled(queue: LockFreeQueue, from: Start, r: seq<TaskBase>, was: Record)
    requires queue.Valid() && WellFormed(from.content)
    reads queue, queue.buffer, queue.buffer.slots, queue.stacks, queue.members
  {
    && (forall t :: t in r ==> t in was)
    && queue.members == from.members + Nodes(r) && queue.content == PutAll(from.content, r, was)
  }

  /** The three lists of the first loop: `m` is ahead, `r` has been handed over, `d` is put aside. */
  ghost predicate Sorted(m: seq<TaskBase>, r: seq<TaskBase>, d: seq<TaskBase>, from: Start) {
    Apart(d, m) && Apart(r, m) && Apart(r, d) && from.members !! Nodes(d) + Nodes(m)
  }

  /** One round of the first loop, with what it means for the queue. */
  method VisitNext(task: TaskBase, delayed: TaskBase?, ghost m: seq<TaskBase>, ghost r: seq<TaskBase>,
                   ghost d: seq<TaskBase>, queue: LockFreeQueue, ghost was: Record, ghost from: Start)
    returns (rest: TaskBase?, put: TaskBase?, ready: bool)
    requires queue.Valid() && WellFormed(from.content) && Heads(task, m) && Heads(delayed, d) && Sorted(m, r, d, from)
    requires task in was && was[task].priority == task.priority && Filled(queue, from, r, was)
    modifies queue, queue.buffer, queue.buffer.slots, queue.stacks
    modifies task`next, task`state, task`notified, task`hasContext
    ensures queue.Valid() && m != [] && task == m[0] && Heads(rest, m[1..])
    ensures Woken(task, old(EntryOf(task)), ready)
    ensures Heads(put, if task.isThreadBound || ready then d else [task] + d)
    ensures Filled(queue, from, if ready then r + [task] else r, was)
  {
    rest, put, ready := Visit(task, delayed, m, d, queue);
    PutAllSnoc(from.content, r, task, was);
    assert Nodes(r + [task]) == Nodes(r) + {task};
  }

  /** What the first loop has done with task `i` of `visited`, given what it saw. */
  ghost predicate PassedAt(visited: seq<TaskBase>, seen: seq<bool>, was: Record, i: nat)
    requires i < |visited| && |seen| == |visited| && visited[i] in was
    reads visited[i]
  {
    Woken(visited[i], was[visited[i]], seen[i])
  }

  ghost predicate Passed(visited: seq<TaskBase>, seen: seq<bool>, was: Record)
    reads visited
  {
    && |seen| == |visited| && (forall t :: t in visited ==> t in was)
    && forall i {:trigger PassedAt(visited, seen, was, i)} :: 0 <= i < |visited| ==> PassedAt(visited, seen, was, i)
  }

  ghost predicate Untouched(m: seq<TaskBase>, was: Record)
    reads m
  {
    forall t :: t in m ==> t in was && was[t] == EntryOf(t)
  }

  lemma PassedMore(l: seq<TaskBase>, seen: seq<bool>, was: Record, x: TaskBase, b: bool)
    requires Passed(l, seen, was) && x in was && Woken(x, was[x], b)
    ensures Passed(l + [x], seen + [b], was)
  {
    forall i {:trigger PassedAt(l + [x], seen + [b], was, i)} | 0 <= i <= |l|
      ensures PassedAt(l + [x], seen + [b], was, i)
    {
      assert i < |l| ==> PassedAt(l, seen, was, i);
    }
  }

  lemma {:induction false} PassedMeans(l: seq<TaskBase>, seen: seq<bool>, was: Record)
    requires Passed(l, seen, was)
    ensures forall t :: t in l ==> t.state == Running
    ensures forall t :: t in l ==> t.notified == was[t].notified + if t.isThreadBound then 1 else 0
    ensures forall i :: 0 <= i < |l| && !l[i].isThreadBound && was[l[i]].hasContext ==> seen[i]
  {
    forall i | 0 <= i < |l|
      ensures Woken(l[i], was[l[i]], seen[i])
    {
      assert PassedAt(l, seen, was, i);
    }
  }

  lemma {:induction false} ReadyHaveContext(l: seq<TaskBase>, seen: seq<bool>, was: Record)
    requires Passed(l, seen, was)
    ensures forall t :: t in Ready(l, seen) ==> t.hasContext
  {
    if l != [] {
      var n := |l| - 1;
      assert PassedAt(l, seen, was, n);
      forall i {:trigger PassedAt(l[..n], seen[..n], was, i)} | 0 <= i < n
        ensures PassedAt(l[..n], seen[..n], was, i)
      {
        assert PassedAt(l, seen, was, i);
      }
      ReadyHaveContext(l[..n], seen[..n], was);
    }
  }

  /** One round of the first loop, with what it means for the tasks before and after. */
  method Advance(task: TaskBase, delayed: TaskBase?, ghost visited: seq<TaskBase>, ghost seen: seq<bool>,
                 ghost m: seq<TaskBase>, ghost r: seq<TaskBase>, ghost d: seq<TaskBase>,
                 queue: LockFreeQueue, ghost was: Record, ghost from: Start)
    returns (rest: TaskBase?, put: TaskBase?, ready: bool)
    requires queue.Valid() && WellFormed(from.content) && Heads(task, m) && Heads(delayed, d) && Sorted(m, r, d, from)
    requires Filled(queue, from, r, was)
    requires task !in visited && Passed(visited, seen, was) && Untouched(m, was)
    modifies queue, queue.buffer, queue.buffer.slots, queue.stacks
    modifies task`next, task`state, task`notified, task`hasContext
    ensures queue.Valid() && m != [] && Heads(rest, m[1..])
    ensures task.isThreadBound ==> !ready
    ensures Heads(put, if task.isThreadBound || ready then d else [task] + d)
    ensures Filled(queue, from, if ready then r + [task] else r, was)
    ensures Passed(visited + [task], seen + [ready], was) && Untouched(m[1..], was)
  {
    HeadsTail(task, m);
    rest, put, ready := VisitNext(task, delayed, m, r, d, queue, was, from);
    assert Untouched(m[1..], was);
    assert Passed(visited, seen, was);
    PassedMore(visited, seen, was, task, ready);
  }

  /** The first loop. */
  method FirstPass(list: TaskBase?, ghost l: seq<TaskBase>, queue: LockFreeQueue, ghost was: Record)
    returns (delayed: TaskBase?, ghost seen: seq<bool>)
    requires queue.Valid() && Heads(list, l) && queue.members !! Nodes(l) && Untouched(l, was)
    modifies queue, queue.buffer, queue.buffer.slots, queue.stacks
    modifies Nodes(l)`next, Nodes(l)`state, Nodes(l)`notified, Nodes(l)`hasContext
    ensures queue.Valid() && Passed(l, seen, was) && Heads(delayed, Delayed(l, seen))
    ensures Filled(queue, Start(old(queue.content), old(queue.members)), Ready(l, seen), was)
  {
    delayed, seen := null, [];
    var rest := list;
    ghost var from := Start(queue.content, queue.members);
    ghost var visited: seq<TaskBase>, m: seq<TaskBase>, r: seq<TaskBase>, d: seq<TaskBase> := [], l, [], [];
    while rest != null
      invariant visited + m == l && Passed(visited, seen, was) && Untouched(m, was)
      invariant r == Ready(visited, seen) && d == Delayed(visited, seen)
      invariant queue.Valid() && Heads(rest, m) && Heads(delayed, d) && Filled(queue, from, r, was)
      decreases |m|
    {
      ghost var task: TaskBase := rest;
      Ahead(l, visited, m, seen, task);
      var ready;
      rest, delayed, ready := Advance(rest, delayed, visited, seen, m, r, d, queue, was, from);
      Extend(visited, seen, task, ready);
      visited, seen, m := visited + [task], seen + [ready], m[1..];
      r, d := Ready(visited, seen), Delayed(visited, seen);
    }
    assert visited == l;
  }

  // ---- the second loop

  /** The tasks of `d` can be handed over, and doing so takes the queue from `q` to `goal`. */
  ghost predicate Transfers(d: seq<TaskBase>, was: Record, q: Queue<TaskBase>, goal: Queue<TaskBase>)
    requires WellFormed(q)
    reads d
  {
    && (forall t :: t in d ==> !t.isThreadBound && t.state == Running && t in was && was[t].priority == t.priority)
    && PutAll(q, d, was) == goal
  }

  /** One round of the second loop: the next task is handed over as soon as it has a context. */
  method HandOver(task: TaskBase, ghost d: seq<TaskBase>, queue: LockFreeQueue, ghost was: Record,
                  ghost goal: Queue<TaskBase>)
    returns (rest: TaskBase?)
    requires queue.Valid() && Heads(task, d) && queue.members !! Nodes(d)
    requires Transfers(d, was, queue.content, goal)
    modifies queue, queue.buffer, queue.buffer.slots, queue.stacks, task`next, task`hasContext
    ensures queue.Valid() && d != [] && queue.members !! Nodes(d[1..])
    ensures queue.members + Nodes(d[1..]) == old(queue.members) + Nodes(d)
    ensures task == d[0] && Heads(rest, d[1..]) && task.hasContext
    ensures Transfers(d[1..], was, queue.content, goal)
  {
    HeadsTail(task, d);
    NodesCons(d);
    rest := task.next;
    task.next := null;
    assert Heads(rest, d[1..]);
    var ready := ReadContext(task);
    if !ready {
      AwaitContext(task);
    }
    Enqueue(task, queue);
  }

  /** The second loop: every task put aside is handed over. */
  method EnqueueDelayed(head: TaskBase?, ghost d: seq<TaskBase>, queue: LockFreeQueue, ghost was: Record,
                        ghost goal: Queue<TaskBase>)
    requires queue.Valid() && Heads(head, d) && queue.members !! Nodes(d)
    requires Transfers(d, was, queue.content, goal)
    modifies queue, queue.buffer, queue.buffer.slots, queue.stacks, Nodes(d)`next, Nodes(d)`hasContext
    ensures queue.Valid() && queue.content == goal && queue.members == old(queue.members) + Nodes(d)
    ensures forall t :: t in d ==> t.hasContext
  {
    var rest := head;
    ghost var m := d;
    while rest != null
      invariant queue.Valid() && Heads(rest, m) && queue.members !! Nodes(m)
      invariant queue.members + Nodes(m) == old(queue.members) + Nodes(d)
      invariant (forall t :: t in m ==> t in d) && Transfers(m, was, queue.content, goal)
      invariant forall t :: t in d && t !in m ==> t.hasContext
      decreases |m|
    {
      ghost var task := rest;
      rest := HandOver(rest, m, queue, was, goal);
      assert forall t :: t in m ==> t == task || t in m[1..];
      m := m[1..];
    }
  }

  // ---- the walk

  /** What the first loop leaves to do. */
  lemma {:induction false} Remains(l: seq<TaskBase>, seen: seq<bool>, was: Record, from: Start, queue: LockFreeQueue)
    requires Distinct(l) && Passed(l, seen, was) && queue.Valid() && WellFormed(from.content)
    requires Filled(queue, from, Ready(l, seen), was) && from.members !! Nodes(l)
    requires forall t :: t in l ==> was[t].priority == t.priority
    ensures forall t :: t in Ready(l, seen) + Delayed(l, seen) ==> t in was
    ensures Transfers(Delayed(l, seen), was, queue.content,
        PutAll(from.content, Ready(l, seen) + Delayed(l, seen), was))
    ensures queue.members !! Nodes(Delayed(l, seen)) && Apart(Ready(l, seen), Delayed(l, seen))
  {
    NotBoth(l, seen);
    PassedMeans(l, seen, was);
    PutAllJoin(from.content, Ready(l, seen), Delayed(l, seen), was);
  }

  /** The first loop, seen from the second. */
  method Prepare(list: TaskBase?, ghost l: seq<TaskBase>, queue: LockFreeQueue, ghost was: Record)
    returns (delayed: TaskBase?, ghost seen: seq<bool>)
    requires queue.Valid() && Heads(list, l) && queue.members !! Nodes(l) && Untouched(l, was)
    modifies queue, queue.buffer, queue.buffer.slots, queue.stacks
    modifies Nodes(l)`next, Nodes(l)`state, Nodes(l)`notified, Nodes(l)`hasContext
    ensures queue.Valid() && |seen| == |l| && Heads(delayed, Delayed(l, seen))
    ensures forall t :: t in l ==> t.state == Running
    ensures forall t :: t in l ==> t.notified == was[t].notified + if t.isThreadBound then 1 else 0
    ensures forall i :: 0 <= i < |l| && !l[i].isThreadBound && was[l[i]].hasContext ==> seen[i]
    ensures forall t :: t in Ready(l, seen) ==> t.hasContext && t !in Delayed(l, seen)
    ensures forall t :: t in Ready(l, seen) + Delayed(l, seen) ==> t in was
    ensures queue.members == old(queue.members) + Nodes(Ready(l, seen)) && queue.members !! Nodes(Delayed(l, seen))
    ensures Transfers(Delayed(l, seen), was, queue.content,
                      PutAll(old(queue.content), Ready(l, seen) + Delayed(l, seen), was))
  {
    ghost var from := Start(queue.content, queue.members);
    delayed, seen := FirstPass(list, l, queue, was);
    Remains(l, seen, was, from, queue);
    PassedMeans(l, seen, was);
    ReadyHaveContext(l, seen, was);
  }

  /** Both loops, for a record of the tasks. */
  method BothPasses(list: TaskBase?, ghost l: seq<TaskBase>, queue: LockFreeQueue, ghost was: Record)
    returns (ghost seen: seq<bool>)
    requires queue.Valid() && Heads(list, l) && queue.members !! Nodes(l) && Untouched(l, was)
    modifies queue, queue.buffer, queue.buffer.slots, queue.stacks
    modifies Nodes(l)`next, Nodes(l)`state, Nodes(l)`notified, Nodes(l)`hasContext
    ensures queue.Valid() && |seen| == |l|
    ensures forall t :: t in l ==> t.state == Running
    ensures forall t :: t in l ==> t.notified == was[t].notified + if t.isThreadBound then 1 else 0
    ensures forall i :: 0 <= i < |l| && !l[i].isThreadBound && was[l[i]].hasContext ==> seen[i]
    ensures forall t :: t in Ready(l, seen) || t in Delayed(l, seen) ==> t in was && t.hasContext
    ensures queue.content == PutAll(old(queue.content), Ready(l, seen) + Delayed(l, seen), was)
    ensures queue.members == old(queue.members) + Nodes(Unbound(l))
  {
    ghost var q := queue.content;
    var delayed;
    delayed, seen := Prepare(list, l, queue, was);
    ghost var r, d := Ready(l, seen), Delayed(l, seen);
    EnqueueDelayed(delayed, d, queue, was, PutAll(q, r + d, was));
    SplitNodes(l, seen);
  }

  ghost function RecordOf(l: seq<TaskBase>): Record
    reads l
  {
    map t | t in l :: EntryOf(t)
  }

  /** `add_waiting_list_to_running`, for every acyclic wait list `l` whose tasks are in no queue: every
      task is set running; each bound task is notified once and no other is; and the queue receives
      exactly the unbound tasks, each of them once: those found with a context in list order, and then
      those that had to be waited for, last one first.  A task that had a context when the walk began is
      found with one.  A task is handed over only with a context: see the precondition of `Enqueue`. */
  method AddWaitingListToRunning(list: TaskBase?, ghost l: seq<TaskBase>, queue: LockFreeQueue)
    returns (ghost seen: seq<bool>)
    requires queue.Valid() && Heads(list, l) && queue.members !! Nodes(l)
    modifies queue, queue.buffer, queue.buffer.slots, queue.stacks
    modifies Nodes(l)`next, Nodes(l)`state, Nodes(l)`notified, Nodes(l)`hasContext
    ensures queue.Valid() && |seen| == |l|
    ensures forall t :: t in l ==> t.state == Running
    ensures forall t :: t in l ==> t.notified == old(t.notified) + if t.isThreadBound then 1 else 0
    ensures forall t :: t in l && !t.isThreadBound ==> t.hasContext
    ensures forall i :: 0 <= i < |l| && !l[i].isThreadBound && old(l[i].hasContext) ==> seen[i]
    ensures queue.content == PutAll(old(queue.content), Ready(l, seen) + Delayed(l, seen), old(RecordOf(l)))
    ensures Stored(queue.content) == Stored(old(queue.content)) + multiset(Unbound(l))
    ensures queue.members == old(queue.members) + Nodes(Unbound(l))
  {
    ghost var was, q := RecordOf(l), queue.content;
    seen := BothPasses(list, l, queue, was);
    Split(l, seen);
    EachOnce(l, seen);
    PutAllStores(q, Ready(l, seen) + Delayed(l, seen), was);
  }
}
