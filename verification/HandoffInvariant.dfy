/** The invariant of `HandoffMachine` while no release has raced: where each coroutine is. */
module HandoffInvariant {
  import opened Basics
  import opened HandoffMachine

  /** Who has control of a coroutine: it is the current task of a runner, that runner's next task, or
      the task it has just switched away from; otherwise it is parked. */
  datatype Control = Parked | Current(r: nat) | NextOf(r: nat) | PrevOf(r: nat)

  /** The one container a task is linked into. */
  datatype Link = Unlinked | Queued | Listed(a: nat) | Held(r: nat)

  datatype Layout = Layout(control: map<Task, Control>, link: map<Task, Link>)

  function ControlOf(l: Layout, t: Task): Control {
    if t in l.control then l.control[t] else Parked
  }

  function LinkOf(l: Layout, t: Task): Link {
    if t in l.link then l.link[t] else Unlinked
  }

  /** The tasks in the hands of a release. */
  function HeldBy(pc: Pc): seq<Task> {
    match pc
    case Mark(list, delayed, _) => list + delayed
    case ReadContext(t, list, delayed, _) => [t] + list + delayed
    case Enqueue(t, list, delayed, _) => [t] + list + delayed
    case Delayed(delayed, _) => delayed
    case _ => []
  }

  /** The task a runner is about to switch to. */
  function NextTask(pc: Pc): Option<Task> {
    match pc
    case NextState(next) => next
    case Jump(to) => Some(to)
    case _ => None
  }

  /** The task a runner has just switched away from. */
  function PrevTask(pc: Pc): Option<Task> {
    match pc
    case PostSelf(prev) => Some(prev)
    case PostSave(prev) => Some(prev)
    case PostCheck(prev) => Some(prev)
    case PostPut(prev) => Some(prev)
    case _ => None
  }

  // ---- tasks

  /** Running and in no container. */
  ghost predicate Plain(s: State, l: Layout, t: Task) {
    StateOf(s, t) == Running && LinkOf(l, t) == Unlinked
  }

  /** Inserted into a wait list, and the insertion's jump is not complete. */
  ghost predicate Inserted(s: State, l: Layout, t: Task) {
    StateOf(s, t) == Waiting && (LinkOf(l, t).Listed? || LinkOf(l, t).Held?) && t in s.window
  }

  /** What a coroutine can be while its runner looks for another task. */
  ghost predicate Leaving(s: State, l: Layout, t: Task) {
    t.Co? ==> Plain(s, l, t) || Inserted(s, l, t) || (StateOf(s, t) == Finished && LinkOf(l, t) == Unlinked)
  }

  /** A parked coroutine is queued and ready, waiting in one list or release, or finished. */
  ghost predicate ParkedOk(s: State, l: Layout, t: Task) {
    match LinkOf(l, t)
    case Queued => StateOf(s, t) == Running && ContextOf(s, t) == Saved
    case Listed(_) => StateOf(s, t) == Waiting && ContextOf(s, t) == Saved
    case Held(_) => ContextOf(s, t) == Saved
    case Unlinked => StateOf(s, t) == Finished
  }

  ghost predicate ControlOk(s: State, l: Layout, t: Task) {
    match ControlOf(l, t)
    case Parked => ParkedOk(s, l, t)
    case Current(r) => r < |s.runners| && s.runners[r].cur == t
    case NextOf(r) => r < |s.runners| && NextTask(s.runners[r].pc) == Some(t)
    case PrevOf(r) => r < |s.runners| && PrevTask(s.runners[r].pc) == Some(t)
  }

  ghost predicate LinkExists(s: State, k: Link) {
    match k
    case Listed(a) => a < |s.lists|
    case Held(r) => r < |s.runners|
    case _ => true
  }

  ghost predicate TaskOk(s: State, l: Layout, t: Task) {
    && LinkExists(s, LinkOf(l, t))
    && s.queue[t] == (if LinkOf(l, t) == Queued then 1 else 0)
    && (forall a: nat :: a < |s.lists| ==> (t in s.lists[a] <==> LinkOf(l, t) == Listed(a)))
    && (forall r: nat :: r < |s.runners| ==> (t in HeldBy(s.runners[r].pc) <==> LinkOf(l, t) == Held(r)))
    && (t.Co? && t in s.born ==> ControlOk(s, l, t))
    && (t.Native? || t !in s.born ==> ControlOf(l, t) == Parked && LinkOf(l, t) != Queued && t !in s.window)
    && (t.Co? && t !in s.born ==> LinkOf(l, t) == Unlinked)
    && (t.Native? && StateOf(s, t) == Running ==> LinkOf(l, t) == Unlinked)
    && (LinkOf(l, t).Listed? ==> StateOf(s, t) == Waiting)
    && (t in s.window ==> ControlOf(l, t) != Parked && Inserted(s, l, t))
    && (ControlOf(l, t) != Parked && LinkOf(l, t) != Unlinked ==> t in s.window)
  }

  // ---- runners

  /** A task this runner may jump to. */
  ghost predicate Ready(s: State, l: Layout, r: nat, t: Task) {
    && ContextOf(s, t) == Saved
    && (t.Co? ==> t in s.born && ControlOf(l, t) == NextOf(r) && Plain(s, l, t))
    && (t.Native? ==> t == Native(r))
  }

  ghost predicate Previous(s: State, l: Layout, r: nat, t: Task, cur: Task) {
    && t != cur && Leaving(s, l, t)
    && (t.Co? ==> t in s.born && ControlOf(l, t) == PrevOf(r))
    && (t.Native? ==> t == Native(r))
    && (cur.Co? ==> Plain(s, l, cur))
  }

  ghost predicate PcOk(s: State, l: Layout, r: nat, cur: Task, pc: Pc) {
    match pc
    case User => cur.Co? ==> Plain(s, l, cur)
    case InsertLoad(_) => Plain(s, l, cur)
    case InsertState(_) => Plain(s, l, cur)
    case InsertContext(_) => StateOf(s, cur) == Waiting && LinkOf(l, cur) == Unlinked
    case InsertCas(_) => StateOf(s, cur) == Waiting && LinkOf(l, cur) == Unlinked
    case UndoState => StateOf(s, cur) == Waiting && LinkOf(l, cur) == Unlinked
    case UndoContext => Plain(s, l, cur)
    case NextNative => cur.Co? && Leaving(s, l, cur)
    case NextQueue => Leaving(s, l, cur)
    case NextState(next) =>
      cur.Co? && Leaving(s, l, cur) && (next.Some? ==> next.value != cur && Ready(s, l, r, next.value))
    case NoNext => cur.Co? ==> Plain(s, l, cur)
    case Block => cur.Native?
    case Jump(to) => Leaving(s, l, cur) && to != cur && Ready(s, l, r, to)
    case PostSelf(prev) => Previous(s, l, r, prev, cur)
    case PostSave(prev) => Previous(s, l, r, prev, cur)
    case PostCheck(prev) => Previous(s, l, r, prev, cur) && ContextOf(s, prev) == Saved
    case PostPut(prev) => Previous(s, l, r, prev, cur) && ContextOf(s, prev) == Saved && prev.Co? && Plain(s, l, prev)
    case ReleaseCas(_, ending) => (ending ==> cur.Co?) && (cur.Co? ==> Plain(s, l, cur))
    case Mark(list, delayed, ending) =>
      (ending ==> cur.Co?) && (cur.Co? ==> Plain(s, l, cur)) && delayed == []
          && (forall t :: t in list ==> StateOf(s, t) == Waiting)
    case ReadContext(t, list, delayed, ending) =>
      (ending ==> cur.Co?) && (cur.Co? ==> Plain(s, l, cur)) && delayed == []
          && (forall u :: u in list ==> StateOf(s, u) == Waiting)
      && t.Co? && StateOf(s, t) == Running && ControlOf(l, t) == Parked
    case Enqueue(t, list, delayed, ending) =>
      (ending ==> cur.Co?) && (cur.Co? ==> Plain(s, l, cur)) && delayed == []
          && (forall u :: u in list ==> StateOf(s, u) == Waiting)
      && t.Co? && StateOf(s, t) == Running && ControlOf(l, t) == Parked
    case Delayed(delayed, ending) => (ending ==> cur.Co?) && (cur.Co? ==> Plain(s, l, cur)) && delayed == []
    case FinishState => cur.Co? && Plain(s, l, cur)
  }

  ghost predicate RunnerOk(s: State, l: Layout, r: nat)
    requires r < |s.runners|
  {
    var cur, pc := s.runners[r].cur, s.runners[r].pc;
    && (cur.Native? ==> cur == Native(r))
    && (cur.Co? ==> cur in s.born && ControlOf(l, cur) == Current(r))
    && (cur.Co? ==> pc == PostSelf(Native(r)) || pc == PostSave(Native(r)) || ContextOf(s, Native(r)) == Saved)
    && Distinct(HeldBy(pc))
    && PcOk(s, l, r, cur, pc)
  }

  ghost predicate Good(s: State, l: Layout) {
    && |s.closed| == |s.lists|
    && (forall t: Task :: TaskOk(s, l, t))
    && (forall r: nat :: r < |s.runners| ==> RunnerOk(s, l, r))
    && (forall a: nat :: a < |s.lists| ==> Distinct(s.lists[a]))
  }
}
