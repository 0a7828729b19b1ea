/** Every step of `HandoffMachine` that is not a race keeps the invariant. */
module HandoffSteps {
  import opened Basics
  import opened HandoffMachine
  import opened HandoffInvariant

  /** Nothing about task `t` changes. */
  ghost predicate Same(s: State, l: Layout, s': State, l': Layout, t: Task) {
    && StateOf(s', t) == StateOf(s, t) && ContextOf(s', t) == ContextOf(s, t)
    && ControlOf(l', t) == ControlOf(l, t) && LinkOf(l', t) == LinkOf(l, t)
    && (t in s'.window <==> t in s.window) && (t in s'.born <==> t in s.born)
    && s'.queue[t] == s.queue[t]
    && forall a: nat :: a < |s.lists| && a < |s'.lists| ==> (t in s'.lists[a] <==> t in s.lists[a])
  }

  /** Nothing about task `t` changes but, perhaps, that a release took over the list it waits in. */
  ghost predicate Kept(s: State, l: Layout, s': State, l': Layout, t: Task) {
    && StateOf(s', t) == StateOf(s, t) && ContextOf(s', t) == ContextOf(s, t)
    && ControlOf(l', t) == ControlOf(l, t)
    && (LinkOf(l', t) == LinkOf(l, t) || (LinkOf(l, t).Listed? && LinkOf(l', t).Held?))
    && (t in s'.window <==> t in s.window) && (t in s'.born <==> t in s.born)
  }

  /** Whatever refers to `t` from runner `r` still does. */
  ghost predicate StillAt(s: State, l: Layout, s': State, r: nat, t: Task)
    requires r < |s.runners| && r < |s'.runners|
  {
    && (t in HeldBy(s'.runners[r].pc) <==> t in HeldBy(s.runners[r].pc))
    && (ControlOf(l, t) == Current(r) ==> s'.runners[r].cur == t)
    && (ControlOf(l, t) == NextOf(r) ==> NextTask(s'.runners[r].pc) == Some(t))
    && (ControlOf(l, t) == PrevOf(r) ==> PrevTask(s'.runners[r].pc) == Some(t))
  }

  /** Runner `r` may touch task `t` without disturbing another runner. */
  ghost predicate MayTouch(s: State, l: Layout, s': State, r: nat, t: Task) {
    && (t in s.born ==> t in s'.born)
    && (t.Co? ==> ControlOf(l, t) in {Parked, Current(r), NextOf(r), PrevOf(r)})
    && (t.Native? && t != Native(r) ==> LinkOf(l, t) == Held(r) && ContextOf(s', t) == ContextOf(s, t))
    && (LinkOf(l, t).Held? && LinkOf(l, t) != Held(r) ==>
          StateOf(s', t) == StateOf(s, t) && (t.Co? ==> ControlOf(l, t) != Parked))
  }

  ghost predicate SameShape(s: State, s': State, r: nat) {
    && r < |s.runners| && |s'.runners| == |s.runners| && |s'.lists| == |s.lists| && |s'.closed| == |s.closed|
    && forall q: nat :: q < |s.runners| && q != r ==> s'.runners[q] == s.runners[q]
  }

  /** What another runner relies on about its current, next and previous tasks and its native task. */
  ghost predicate Undisturbed(s: State, l: Layout, s': State, l': Layout, t: Task) {
    && (t.Co? ==> Kept(s, l, s', l', t))
    && (t.Native? ==> ContextOf(s', t) == ContextOf(s, t))
    && (t.Native? && LinkOf(l, t) == Unlinked ==> StateOf(s', t) == StateOf(s, t) && LinkOf(l', t) == Unlinked)
  }

  lemma Undisturb(s: State, l: Layout, s': State, l': Layout, r: nat, touched: set<Task>, q: nat, t: Task)
    requires q != r && (t == Native(q) || (t.Co? && ControlOf(l, t) in {Current(q), NextOf(q), PrevOf(q)}))
    requires t !in touched ==> Kept(s, l, s', l', t)
    requires t in touched ==> MayTouch(s, l, s', r, t)
    ensures Undisturbed(s, l, s', l', t)
  {
  }

  lemma HeldUndisturbed(s: State, l: Layout, s': State, l': Layout, r: nat, touched: set<Task>, q: nat, t: Task)
    requires q != r && LinkOf(l, t) == Held(q)
    requires t !in touched ==> Kept(s, l, s', l', t)
    requires t in touched ==> MayTouch(s, l, s', r, t)
    ensures StateOf(s', t) == StateOf(s, t)
    ensures t.Co? && ControlOf(l, t) == Parked ==> Kept(s, l, s', l', t)
  {
  }

  ghost predicate HeldKept(s: State, l: Layout, s': State, l': Layout, t: Task) {
    StateOf(s', t) == StateOf(s, t) && (t.Co? && ControlOf(l, t) == Parked ==> Kept(s, l, s', l', t))
  }

  lemma PcFrame(s: State, l: Layout, s': State, l': Layout, q: nat, cur: Task, pc: Pc)
    requires PcOk(s, l, q, cur, pc) && Undisturbed(s, l, s', l', cur)
    requires NextTask(pc).Some? ==> Undisturbed(s, l, s', l', NextTask(pc).value)
    requires PrevTask(pc).Some? ==> Undisturbed(s, l, s', l', PrevTask(pc).value)
    requires forall t :: t in HeldBy(pc) ==> HeldKept(s, l, s', l', t)
    ensures PcOk(s', l', q, cur, pc)
  {
    if pc.Mark? || pc.ReadContext? || pc.Enqueue? {
      assert forall t :: t in pc.list ==> t in HeldBy(pc);
    }
    if pc.ReadContext? || pc.Enqueue? {
      assert pc.task == HeldBy(pc)[0];
      assert HeldKept(s, l, s', l', pc.task);
    }
  }

  lemma OtherRunner(s: State, l: Layout, s': State, l': Layout, r: nat, touched: set<Task>, q: nat)
    requires Good(s, l) && SameShape(s, s', r) && q < |s.runners| && q != r
    requires forall t: Task :: t !in touched ==> Kept(s, l, s', l', t)
    requires forall t: Task :: t in touched ==> MayTouch(s, l, s', r, t)
    ensures RunnerOk(s', l', q)
  {
    assert RunnerOk(s, l, q);
    var cur, pc := s.runners[q].cur, s.runners[q].pc;
    Undisturb(s, l, s', l', r, touched, q, cur);
    Undisturb(s, l, s', l', r, touched, q, Native(q));
    if NextTask(pc).Some? { Undisturb(s, l, s', l', r, touched, q, NextTask(pc).value); }
    if PrevTask(pc).Some? { Undisturb(s, l, s', l', r, touched, q, PrevTask(pc).value); }
    forall t | t in HeldBy(pc)
      ensures HeldKept(s, l, s', l', t)
    {
      assert TaskOk(s, l, t);
      HeldUndisturbed(s, l, s', l', r, touched, q, t);
    }
    PcFrame(s, l, s', l', q, cur, pc);
  }

  lemma OtherTask(s: State, l: Layout, s': State, l': Layout, r: nat, t: Task)
    requires TaskOk(s, l, t) && SameShape(s, s', r) && Same(s, l, s', l', t) && StillAt(s, l, s', r, t)
    ensures TaskOk(s', l', t)
  {
  }

  lemma Frame(s: State, l: Layout, s': State, l': Layout, r: nat, touched: set<Task>)
    requires Good(s, l) && SameShape(s, s', r)
    requires forall t: Task :: t !in touched ==> Same(s, l, s', l', t) && StillAt(s, l, s', r, t)
    requires forall t: Task :: t in touched ==> MayTouch(s, l, s', r, t) && TaskOk(s', l', t)
    requires RunnerOk(s', l', r)
    requires forall a: nat :: a < |s'.lists| ==> Distinct(s'.lists[a])
    ensures Good(s', l')
  {
    forall t: Task
      ensures TaskOk(s', l', t)
    {
      if t !in touched {
        assert TaskOk(s, l, t);
        OtherTask(s, l, s', l', r, t);
      }
    }
    forall q: nat | q < |s'.runners|
      ensures RunnerOk(s', l', q)
    {
      if q != r {
        OtherRunner(s, l, s', l', r, touched, q);
      }
    }
  }

  /** A step of runner `r` that touches one task and no reference to another. */
  lemma FrameOne(s: State, l: Layout, s': State, l': Layout, r: nat, t: Task)
    requires Good(s, l) && SameShape(s, s', r)
    requires forall u: Task :: u != t ==> Same(s, l, s', l', u)
    requires forall u: Task :: u != t ==> (u in HeldBy(s'.runners[r].pc) <==> u in HeldBy(s.runners[r].pc))
    requires s'.runners[r].cur == s.runners[r].cur
    requires NextTask(s.runners[r].pc) in {None, Some(t), NextTask(s'.runners[r].pc)}
    requires PrevTask(s.runners[r].pc) in {None, Some(t), PrevTask(s'.runners[r].pc)}
    requires MayTouch(s, l, s', r, t) && TaskOk(s', l', t)
    requires RunnerOk(s', l', r)
    requires forall a: nat :: a < |s'.lists| ==> Distinct(s'.lists[a])
    ensures Good(s', l')
  {
    forall u: Task | u != t
      ensures StillAt(s, l, s', r, u)
    {
      assert TaskOk(s, l, u);
    }
    Frame(s, l, s', l', r, {t});
  }

  /** A step that changes nothing but the program counter of runner `r`. */
  lemma PcOnly(s: State, l: Layout, r: nat, pc: Pc)
    requires Good(s, l) && r < |s.runners|
    requires HeldBy(pc) == HeldBy(s.runners[r].pc)
    requires NextTask(pc) == NextTask(s.runners[r].pc)
        || (NextTask(s.runners[r].pc) == None && NextTask(pc) == Some(Native(r)))
    requires PrevTask(pc) == PrevTask(s.runners[r].pc)
    requires RunnerOk(GoTo(s, r, pc), l, r)
    ensures Good(GoTo(s, r, pc), l)
  {
    var s' := GoTo(s, r, pc);
    forall t: Task
      ensures Same(s, l, s', l, t) && StillAt(s, l, s', r, t)
    {
      assert TaskOk(s, l, t);
    }
    Frame(s, l, s', l, r, {});
  }

  // ---- user code

  lemma SpawnKeeps(s: State, l: Layout, r: nat, id: nat) returns (l': Layout)
    requires Good(s, l) && r < |s.runners| && s.runners[r].pc == User
    ensures Good(UserStep(s, r, CallSpawn(id)), l')
  {
    var t, s' := Co(id), UserStep(s, r, CallSpawn(id));
    assert RunnerOk(s, l, r);
    l' := l;
    if t !in s.born {
      l' := Layout(l.control[t := NextOf(r)], l.link);
      assert TaskOk(s, l, t);
      FrameOne(s, l, s', l', r, t);
    }
  }

  lemma UserKeeps(s: State, l: Layout, r: nat, ch: Choice) returns (l': Layout)
    requires Good(s, l) && r < |s.runners| && s.runners[r].pc == User
    ensures Good(UserStep(s, r, ch), l')
  {
    assert RunnerOk(s, l, r);
    assert TaskOk(s, l, s.runners[r].cur);
    l' := l;
    if ch.CallSpawn? {
      l' := SpawnKeeps(s, l, r, ch.id);
    } else if UserStep(s, r, ch) != s {
      PcOnly(s, l, r, UserStep(s, r, ch).runners[r].pc);
    }
  }

  // ---- insertion into a wait list

  /** The compare-exchange that succeeds. */
  lemma ListedKeeps(s: State, l: Layout, r: nat, ch: Choice) returns (l': Layout)
    requires Good(s, l) && r < |s.runners| && s.runners[r].pc.InsertCas?
    requires s.runners[r].pc.a < |s.lists| && !s.closed[s.runners[r].pc.a] && ch != FailSpuriously
    ensures Good(InsertStep(s, r, ch), l')
  {
    var t := s.runners[r].cur;
    assert RunnerOk(s, l, r) && TaskOk(s, l, t);
    l' := Layout(l.control, l.link[t := Listed(s.runners[r].pc.a)]);
    FrameOne(s, l, InsertStep(s, r, ch), l', r, t);
  }

  lemma InsertCasKeeps(s: State, l: Layout, r: nat, ch: Choice) returns (l': Layout)
    requires Good(s, l) && r < |s.runners| && s.runners[r].pc.InsertCas?
    ensures Good(InsertStep(s, r, ch), l')
  {
    var a := s.runners[r].pc.a;
    l' := l;
    if a >= |s.lists| || s.closed[a] {
      assert RunnerOk(s, l, r) && TaskOk(s, l, s.runners[r].cur);
      PcOnly(s, l, r, UndoState);
    } else if ch != FailSpuriously {
      l' := ListedKeeps(s, l, r, ch);
    }
  }

  lemma InsertStateKeeps(s: State, l: Layout, r: nat, ch: Choice)
    requires Good(s, l) && r < |s.runners| && s.runners[r].pc.InsertState?
    ensures Good(InsertStep(s, r, ch), l)
  {
    var t := s.runners[r].cur;
    assert RunnerOk(s, l, r) && TaskOk(s, l, t);
    FrameOne(s, l, InsertStep(s, r, ch), l, r, t);
  }

  lemma InsertContextKeeps(s: State, l: Layout, r: nat, ch: Choice)
    requires Good(s, l) && r < |s.runners| && s.runners[r].pc.InsertContext?
    ensures Good(InsertStep(s, r, ch), l)
  {
    var t := s.runners[r].cur;
    assert RunnerOk(s, l, r) && TaskOk(s, l, t);
    FrameOne(s, l, InsertStep(s, r, ch), l, r, t);
  }

  lemma UndoStateKeeps(s: State, l: Layout, r: nat, ch: Choice)
    requires Good(s, l) && r < |s.runners| && s.runners[r].pc.UndoState?
    ensures Good(InsertStep(s, r, ch), l)
  {
    var t := s.runners[r].cur;
    assert RunnerOk(s, l, r) && TaskOk(s, l, t);
    FrameOne(s, l, InsertStep(s, r, ch), l, r, t);
  }

  lemma UndoContextKeeps(s: State, l: Layout, r: nat, ch: Choice)
    requires Good(s, l) && r < |s.runners| && s.runners[r].pc.UndoContext?
    ensures Good(InsertStep(s, r, ch), l)
  {
    var t := s.runners[r].cur;
    assert RunnerOk(s, l, r) && TaskOk(s, l, t);
    FrameOne(s, l, InsertStep(s, r, ch), l, r, t);
  }

  lemma InsertKeeps(s: State, l: Layout, r: nat, ch: Choice) returns (l': Layout)
    requires Good(s, l) && r < |s.runners| && Inserting(s.runners[r].pc)
    ensures Good(InsertStep(s, r, ch), l')
  {
    var pc := s.runners[r].pc;
    l' := l;
    if pc.InsertCas? { l' := InsertCasKeeps(s, l, r, ch); }
    else if pc.InsertState? { InsertStateKeeps(s, l, r, ch); }
    else if pc.InsertContext? { InsertContextKeeps(s, l, r, ch); }
    else if pc.UndoState? { UndoStateKeeps(s, l, r, ch); }
    else if pc.UndoContext? { UndoContextKeeps(s, l, r, ch); }
    else {
      assert RunnerOk(s, l, r) && TaskOk(s, l, s.runners[r].cur);
      PcOnly(s, l, r, InsertStep(s, r, ch).runners[r].pc);
    }
  }

  // ---- choosing the next task

  lemma TakeKeeps(s: State, l: Layout, r: nat, v: Task) returns (l': Layout)
    requires Good(s, l) && r < |s.runners| && s.runners[r].pc == NextQueue && s.queue[v] > 0
    ensures Good(ScheduleStep(s, r, Take(v)), l')
  {
    var s' := ScheduleStep(s, r, Take(v));
    assert RunnerOk(s, l, r) && TaskOk(s, l, v) && TaskOk(s, l, s.runners[r].cur);
    l' := Layout(l.control[v := NextOf(r)], l.link[v := Unlinked]);
    FrameOne(s, l, s', l', r, v);
  }

  lemma NextStateKeeps(s: State, l: Layout, r: nat, ch: Choice)
    requires Good(s, l) && r < |s.runners| && s.runners[r].pc.NextState?
    ensures Good(ScheduleStep(s, r, ch), l)
  {
    assert RunnerOk(s, l, r) && TaskOk(s, l, s.runners[r].cur);
    PcOnly(s, l, r, ScheduleStep(s, r, ch).runners[r].pc);
  }

  lemma NextQueueKeeps(s: State, l: Layout, r: nat, ch: Choice) returns (l': Layout)
    requires Good(s, l) && r < |s.runners| && s.runners[r].pc == NextQueue
    ensures Good(ScheduleStep(s, r, ch), l')
  {
    l' := l;
    if ch.Take? && s.queue[ch.v] > 0 {
      l' := TakeKeeps(s, l, r, ch.v);
    } else {
      assert RunnerOk(s, l, r) && TaskOk(s, l, s.runners[r].cur);
      PcOnly(s, l, r, ScheduleStep(s, r, ch).runners[r].pc);
    }
  }

  lemma ScheduleKeeps(s: State, l: Layout, r: nat, ch: Choice) returns (l': Layout)
    requires Good(s, l) && r < |s.runners| && Scheduling(s.runners[r].pc)
    ensures Good(ScheduleStep(s, r, ch), l')
  {
    var pc := s.runners[r].pc;
    l' := l;
    if pc.NextQueue? { l' := NextQueueKeeps(s, l, r, ch); }
    else if pc.NextState? { NextStateKeeps(s, l, r, ch); }
    else {
      assert RunnerOk(s, l, r) && TaskOk(s, l, s.runners[r].cur);
      PcOnly(s, l, r, ScheduleStep(s, r, ch).runners[r].pc);
    }
  }

  // ---- the jump and what follows it

  /** `m` with `t` under control `c`, if `t` is a coroutine. */
  function Put(m: map<Task, Control>, t: Task, c: Control): map<Task, Control> {
    if t.Co? then m[t := c] else m
  }

  ghost function JumpLayout(l: Layout, r: nat, from: Task, to: Task): Layout {
    Layout(Put(Put(l.control, from, PrevOf(r)), to, Current(r)), l.link)
  }

  lemma JumpLeaves(s: State, l: Layout, r: nat)
    requires Good(s, l) && r < |s.runners| && s.runners[r].pc.Jump?
    ensures var s', l' := JumpStep(s, r), JumpLayout(l, r, s.runners[r].cur, s.runners[r].pc.to);
      MayTouch(s, l, s', r, s.runners[r].cur) && TaskOk(s', l', s.runners[r].cur)
  {
    assert RunnerOk(s, l, r) && TaskOk(s, l, s.runners[r].cur);
  }

  lemma JumpEnters(s: State, l: Layout, r: nat)
    requires Good(s, l) && r < |s.runners| && s.runners[r].pc.Jump?
    ensures var s', l' := JumpStep(s, r), JumpLayout(l, r, s.runners[r].cur, s.runners[r].pc.to);
      MayTouch(s, l, s', r, s.runners[r].pc.to) && TaskOk(s', l', s.runners[r].pc.to)
  {
    assert RunnerOk(s, l, r) && TaskOk(s, l, s.runners[r].pc.to);
  }

  lemma JumpRunner(s: State, l: Layout, r: nat)
    requires Good(s, l) && r < |s.runners| && s.runners[r].pc.Jump?
    ensures RunnerOk(JumpStep(s, r), JumpLayout(l, r, s.runners[r].cur, s.runners[r].pc.to), r)
  {
    assert RunnerOk(s, l, r);
  }

  lemma JumpKeeps(s: State, l: Layout, r: nat) returns (l': Layout)
    requires Good(s, l) && r < |s.runners| && s.runners[r].pc.Jump?
    ensures Good(JumpStep(s, r), l')
  {
    var s', from, to := JumpStep(s, r), s.runners[r].cur, s.runners[r].pc.to;
    l' := JumpLayout(l, r, from, to);
    forall u: Task | u !in {from, to}
      ensures Same(s, l, s', l', u) && StillAt(s, l, s', r, u)
    {
      assert TaskOk(s, l, u);
    }
    JumpLeaves(s, l, r);
    JumpEnters(s, l, r);
    JumpRunner(s, l, r);
    Frame(s, l, s', l', r, {from, to});
  }

  lemma PostSelfKeeps(s: State, l: Layout, r: nat)
    requires Good(s, l) && r < |s.runners| && s.runners[r].pc.PostSelf?
    ensures Good(JumpStep(s, r), l)
  {
    var t := s.runners[r].cur;
    assert RunnerOk(s, l, r) && TaskOk(s, l, t);
    FrameOne(s, l, JumpStep(s, r), l, r, t);
  }

  lemma PostSaveKeeps(s: State, l: Layout, r: nat)
    requires Good(s, l) && r < |s.runners| && s.runners[r].pc.PostSave?
    ensures Good(JumpStep(s, r), l)
  {
    var t := s.runners[r].pc.prev;
    assert RunnerOk(s, l, r) && TaskOk(s, l, t);
    FrameOne(s, l, JumpStep(s, r), l, r, t);
  }

  /** The task that was left still runs (it will be queued), or it is thread bound. */
  lemma CheckRunningKeeps(s: State, l: Layout, r: nat)
    requires Good(s, l) && r < |s.runners| && s.runners[r].pc.PostCheck?
    requires var t := s.runners[r].pc.prev; t.Native? || StateOf(s, t) == Running
    ensures Good(JumpStep(s, r), l)
  {
    var t := s.runners[r].pc.prev;
    assert RunnerOk(s, l, r) && TaskOk(s, l, t);
    assert t !in s.window;
    FrameOne(s, l, JumpStep(s, r), l, r, t);
  }

  /** The task that was left waits or is finished: from now on it is parked. */
  lemma CheckParkedKeeps(s: State, l: Layout, r: nat) returns (l': Layout)
    requires Good(s, l) && r < |s.runners| && s.runners[r].pc.PostCheck?
    requires var t := s.runners[r].pc.prev; t.Co? && StateOf(s, t) != Running
    ensures Good(JumpStep(s, r), l')
  {
    var t := s.runners[r].pc.prev;
    assert RunnerOk(s, l, r) && TaskOk(s, l, t);
    l' := Layout(l.control[t := Parked], l.link);
    FrameOne(s, l, JumpStep(s, r), l', r, t);
  }

  lemma PostPutKeeps(s: State, l: Layout, r: nat) returns (l': Layout)
    requires Good(s, l) && r < |s.runners| && s.runners[r].pc.PostPut?
    ensures Good(JumpStep(s, r), l')
  {
    var t := s.runners[r].pc.prev;
    assert RunnerOk(s, l, r) && TaskOk(s, l, t);
    l' := Layout(l.control[t := Parked], l.link[t := Queued]);
    FrameOne(s, l, JumpStep(s, r), l', r, t);
  }

  lemma SwitchKeeps(s: State, l: Layout, r: nat) returns (l': Layout)
    requires Good(s, l) && r < |s.runners| && Switching(s.runners[r].pc)
    ensures Good(JumpStep(s, r), l')
  {
    var pc := s.runners[r].pc;
    l' := l;
    if pc.Jump? { l' := JumpKeeps(s, l, r); }
    else if pc.PostSelf? { PostSelfKeeps(s, l, r); }
    else if pc.PostSave? { PostSaveKeeps(s, l, r); }
    else if pc.PostPut? { l' := PostPutKeeps(s, l, r); }
    else if pc.prev.Native? || StateOf(s, pc.prev) == Running { CheckRunningKeeps(s, l, r); }
    else { l' := CheckParkedKeeps(s, l, r); }
  }

  // ---- release

  lemma DetachTask(s: State, l: Layout, s': State, l': Layout, r: nat, a: nat, t: Task)
    requires TaskOk(s, l, t) && SameShape(s, s', r) && a < |s.lists| && HeldBy(s.runners[r].pc) == []
    requires s'.lists == s.lists[a := []] && HeldBy(s'.runners[r].pc) == s.lists[a]
    requires Kept(s, l, s', l', t) && s'.queue == s.queue
    requires LinkOf(l', t) == (if t in s.lists[a] then Held(r) else LinkOf(l, t))
    requires s'.runners[r].cur == s.runners[r].cur && NextTask(s.runners[r].pc) == None
        && PrevTask(s.runners[r].pc) == None
    ensures TaskOk(s', l', t)
  {
    assert t in s.lists[a] <==> LinkOf(l, t) == Listed(a);
    assert t in HeldBy(s.runners[r].pc) <==> LinkOf(l, t) == Held(r);
  }

  /** The successful compare-exchange of `release`: a whole wait list changes hands. */
  lemma DetachKeeps(s: State, l: Layout, r: nat, ch: Choice) returns (l': Layout)
    requires Good(s, l) && r < |s.runners| && s.runners[r].pc.ReleaseCas? && ch != FailSpuriously
    requires var a := s.runners[r].pc.a; a < |s.lists| && !s.closed[a]
    ensures Good(ReleaseStep(s, r, ch), l')
  {
    var s', a := ReleaseStep(s, r, ch), s.runners[r].pc.a;
    var list := s.lists[a];
    l' := Layout(l.control, map t | t in l.link :: if t in list then Held(r) else l.link[t]);
    assert HeldBy(s'.runners[r].pc) == list;
    forall t: Task
      ensures LinkOf(l', t) == (if t in list then Held(r) else LinkOf(l, t)) && Kept(s, l, s', l', t)
      ensures TaskOk(s', l', t)
      ensures t in list ==> StateOf(s, t) == Waiting
    {
      assert TaskOk(s, l, t);
      DetachTask(s, l, s', l', r, a, t);
    }
    forall q: nat | q < |s'.runners|
      ensures RunnerOk(s', l', q)
    {
      if q != r {
        OtherRunner(s, l, s', l', r, {}, q);
      } else {
        DetachRunner(s, l, s', l', r);
      }
    }
  }

  lemma DetachRunner(s: State, l: Layout, s': State, l': Layout, r: nat)
    requires Good(s, l) && r < |s.runners| && s.runners[r].pc.ReleaseCas? && r < |s'.runners|
    requires forall t: Task :: Kept(s, l, s', l', t)
    requires s'.runners[r].cur == s.runners[r].cur && s'.runners[r].pc.Mark?
    requires s'.runners[r].pc.delayed == [] && s'.runners[r].pc.ending == s.runners[r].pc.ending
    requires Distinct(HeldBy(s'.runners[r].pc)) && forall t :: t in s'.runners[r].pc.list ==> StateOf(s, t) == Waiting
    ensures RunnerOk(s', l', r)
  {
    assert RunnerOk(s, l, r);
    assert Kept(s, l, s', l', s.runners[r].cur) && Kept(s, l, s', l', Native(r));
    forall t | t in s'.runners[r].pc.list
      ensures StateOf(s', t) == Waiting
    {
      assert Kept(s, l, s', l', t);
    }
  }

  lemma MarkHeldTask(s: State, l: Layout, r: nat)
    requires Good(s, l) && r < |s.runners| && s.runners[r].pc.Mark? && s.runners[r].pc.list != []
    ensures var pc := s.runners[r].pc;
      LinkOf(l, pc.list[0]) == Held(r) && pc.list[0] !in pc.list[1..] && Distinct(pc.list[1..]) && HeldBy(pc) == pc.list
  {
    var pc := s.runners[r].pc;
    assert RunnerOk(s, l, r) && TaskOk(s, l, pc.list[0]);
    assert HeldBy(pc) == pc.list;
    assert pc.list[0] in HeldBy(pc);
  }

  /** The layout after the first task of a release's list was marked: a native task is done with. */
  ghost function MarkLayout(l: Layout, t: Task): Layout {
    if t.Co? then l else Layout(l.control, l.link[t := Unlinked])
  }

  lemma MarkTask(s: State, l: Layout, r: nat)
    requires Good(s, l) && r < |s.runners| && s.runners[r].pc.Mark?
    requires var list := s.runners[r].pc.list; list != [] && list[0] !in s.window
    ensures var t, s' := s.runners[r].pc.list[0], ReleaseStep(s, r, Go);
      MayTouch(s, l, s', r, t) && TaskOk(s', MarkLayout(l, t), t)
  {
    var pc := s.runners[r].pc;
    var t, s' := pc.list[0], ReleaseStep(s, r, Go);
    MarkHeldTask(s, l, r);
    assert TaskOk(s, l, t);
    assert RunnerOk(s, l, r);
    assert HeldBy(s'.runners[r].pc) == if t.Co? then pc.list else pc.list[1..];
  }

  lemma MarkRunner(s: State, l: Layout, r: nat)
    requires Good(s, l) && r < |s.runners| && s.runners[r].pc.Mark?
    requires var list := s.runners[r].pc.list; list != [] && list[0] !in s.window
    ensures RunnerOk(ReleaseStep(s, r, Go), MarkLayout(l, s.runners[r].pc.list[0]), r)
  {
    var pc := s.runners[r].pc;
    var t, s' := pc.list[0], ReleaseStep(s, r, Go);
    MarkHeldTask(s, l, r);
    assert RunnerOk(s, l, r) && TaskOk(s, l, t) && TaskOk(s, l, s.runners[r].cur);
    assert HeldBy(s'.runners[r].pc) == if t.Co? then pc.list else pc.list[1..];
    assert forall u :: u in pc.list[1..] ==> u in pc.list && u != t;
  }

  /** Marking a task Running.  Without a race a marked coroutine is parked already, so its context
      is there to be read. */
  lemma MarkKeeps(s: State, l: Layout, r: nat) returns (l': Layout)
    requires Good(s, l) && r < |s.runners| && s.runners[r].pc.Mark?
    requires var list := s.runners[r].pc.list; list != [] && list[0] !in s.window
    ensures Good(ReleaseStep(s, r, Go), l')
  {
    var s', pc := ReleaseStep(s, r, Go), s.runners[r].pc;
    var t := pc.list[0];
    l' := MarkLayout(l, t);
    MarkHeldTask(s, l, r);
    MarkTask(s, l, r);
    MarkRunner(s, l, r);
    assert HeldBy(s'.runners[r].pc) == if t.Co? then pc.list else pc.list[1..];
    forall u: Task | u != t
      ensures Same(s, l, s', l', u)
      ensures u in HeldBy(s'.runners[r].pc) <==> u in HeldBy(pc)
    {
    }
    FrameOne(s, l, s', l', r, t);
  }

  lemma ReadContextKeeps(s: State, l: Layout, r: nat)
    requires Good(s, l) && r < |s.runners| && s.runners[r].pc.ReadContext?
    ensures Good(ReleaseStep(s, r, Go), l)
  {
    var pc := s.runners[r].pc;
    assert RunnerOk(s, l, r) && TaskOk(s, l, pc.task);
    assert pc.task == HeldBy(pc)[0];
    PcOnly(s, l, r, ReleaseStep(s, r, Go).runners[r].pc);
  }

  lemma EnqueueKeeps(s: State, l: Layout, r: nat) returns (l': Layout)
    requires Good(s, l) && r < |s.runners| && s.runners[r].pc.Enqueue?
    ensures Good(ReleaseStep(s, r, Go), l')
  {
    var s', pc := ReleaseStep(s, r, Go), s.runners[r].pc;
    var t := pc.task;
    assert RunnerOk(s, l, r) && TaskOk(s, l, t) && TaskOk(s, l, s.runners[r].cur);
    assert t == HeldBy(pc)[0] && HeldBy(pc) == [t] + pc.list && HeldBy(s'.runners[r].pc) == pc.list;
    l' := Layout(l.control, l.link[t := Queued]);
    HeadApart(t, pc.list);
    FrameOne(s, l, s', l', r, t);
  }

  lemma HeadApart(t: Task, l: seq<Task>)
    requires Distinct([t] + l)
    ensures t !in l && Distinct(l)
  {
    var m := [t] + l;
    forall i | 0 <= i < |l| ensures m[i + 1] == l[i] && m[0] != m[i + 1] {}
  }

  lemma ReleaseKeeps(s: State, l: Layout, r: nat, ch: Choice) returns (l': Layout)
    requires Good(s, l) && r < |s.runners| && !ReleaseStep(s, r, ch).raced
    requires var pc := s.runners[r].pc;
      pc.ReleaseCas? || pc.Mark? || pc.ReadContext? || pc.Enqueue? || pc.Delayed? || pc.FinishState?
    ensures Good(ReleaseStep(s, r, ch), l')
  {
    var pc, s' := s.runners[r].pc, ReleaseStep(s, r, ch);
    l' := l;
    if pc.ReleaseCas? && pc.a < |s.lists| && !s.closed[pc.a] {
      if ch != FailSpuriously { l' := DetachKeeps(s, l, r, ch); }
    } else if pc.Mark? && pc.list != [] {
      l' := MarkKeeps(s, l, r);
    } else if pc.ReadContext? { ReadContextKeeps(s, l, r); }
    else if pc.Enqueue? { l' := EnqueueKeeps(s, l, r); }
    else if pc.FinishState? { FinishKeeps(s, l, r); }
    else { LeaveReleaseKeeps(s, l, r, ch); }
  }

  lemma FinishKeeps(s: State, l: Layout, r: nat)
    requires Good(s, l) && r < |s.runners| && s.runners[r].pc.FinishState?
    ensures Good(ReleaseStep(s, r, Go), l)
  {
    assert RunnerOk(s, l, r) && TaskOk(s, l, s.runners[r].cur);
    FrameOne(s, l, ReleaseStep(s, r, Go), l, r, s.runners[r].cur);
  }

  /** A release that found the awaitable closed, or has nothing left to do. */
  lemma LeaveReleaseKeeps(s: State, l: Layout, r: nat, ch: Choice)
    requires Good(s, l) && r < |s.runners|
    requires var pc := s.runners[r].pc;
      (pc.ReleaseCas? && (pc.a >= |s.lists| || s.closed[pc.a])) || (pc.Mark? && pc.list == []) || pc.Delayed?
    ensures Good(ReleaseStep(s, r, ch), l)
  {
    assert RunnerOk(s, l, r) && TaskOk(s, l, s.runners[r].cur);
    PcOnly(s, l, r, ReleaseStep(s, r, ch).runners[r].pc);
  }

  // ---- all steps

  /** A step that does not race keeps every coroutine where it should be. */
  lemma StepKeeps(s: State, l: Layout, r: nat, ch: Choice) returns (l': Layout)
    requires Good(s, l) && !Step(s, r, ch).raced
    ensures Good(Step(s, r, ch), l')
  {
    l' := l;
    if r < |s.runners| {
      var pc := s.runners[r].pc;
      if pc.User? { l' := UserKeeps(s, l, r, ch); }
      else if Inserting(pc) { l' := InsertKeeps(s, l, r, ch); }
      else if Scheduling(pc) { l' := ScheduleKeeps(s, l, r, ch); }
      else if Switching(pc) { l' := SwitchKeeps(s, l, r); }
      else { l' := ReleaseKeeps(s, l, r, ch); }
    }
  }
}
