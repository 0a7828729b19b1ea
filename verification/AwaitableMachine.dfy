/** One `Awaitable` under any number of concurrent insertions and releases, one atomic operation per
    step.  A weak compare-exchange may fail spuriously. */
module AwaitableMachine {
  import opened Basics
  import opened Links

  /** The pair that one compare-exchange replaces. */
  datatype Data = Data(head: Ptr, finished: bool)

  /** Who may use a task: nobody yet, the insertion of one thread, the wait list, or the release that
      detached the list (and after it the scheduler). */
  datatype Place = Free | Inserting(t: nat) | Listed | Detached

  datatype Pc =
    | Idle
    // insert_current_task_in_waitlist
    | InsertLoad(x: Item)                        // load m_data
    | InsertState(x: Item, expected: Data)       // m_state = Waiting
    | InsertLink(x: Item, expected: Data)        // set_next( expected.head )
    | InsertCas(x: Item, expected: Data)         // compare_exchange_weak
    | UndoState(x: Item)                         // m_state = Running
    // release
    | ReleaseLoad
    | ReleaseCas(expected: Data)                 // compare_exchange_weak

  /** `place` is the bookkeeping of the usage contract: a task is inserted only while `Free`. */
  datatype State = State(
    data: Data, next: Heap, state: map<Item, TaskState>, place: map<Item, Place>, threads: seq<Pc>)

  /** `WakeUp` and `Scribble` are the traversal and the run queue at work on a detached task. */
  datatype Choice =
    Go | FailSpuriously | CallInsert(x: Item) | CallRelease | WakeUp(x: Item) | Scribble(x: Item, p: Ptr)

  datatype Event = Silent | Accepted(x: Item) | Rejected(x: Item) | Detaches(head: Ptr) | AlreadyFinished

  datatype Out = Out(s: State, e: Event)

  function PlaceOf(s: State, x: Item): Place {
    if x in s.place then s.place[x] else Free
  }

  function StateOf(s: State, x: Item): TaskState {
    if x in s.state then s.state[x] else Running
  }

  function Moved(s: State, t: nat, pc: Pc): State
    requires t < |s.threads|
  {
    s.(threads := s.threads[t := pc])
  }

  function CallStep(s: State, t: nat, ch: Choice): Out
    requires t < |s.threads|
  {
    match ch
    case CallInsert(x) =>
      if PlaceOf(s, x) == Free then Out(Moved(s.(place := s.place[x := Inserting(t)]), t, InsertLoad(x)), Silent)
      else Out(s, Silent)
    case CallRelease => Out(Moved(s, t, ReleaseLoad), Silent)
    case WakeUp(x) =>
      if PlaceOf(s, x) == Detached then Out(s.(place := s.place[x := Free], state := s.state[x := Running]), Silent)
      else Out(s, Silent)
    case Scribble(x, p) =>
      if PlaceOf(s, x) in {Detached, Free} then Out(s.(next := s.next[x := p]), Silent) else Out(s, Silent)
    case _ => Out(s, Silent)
  }

  function GiveBack(s: State, t: nat, x: Item): Out
    requires t < |s.threads|
  {
    Out(Moved(s.(place := s.place[x := Free]), t, Idle), Rejected(x))
  }

  function InsertStep(s: State, t: nat, ch: Choice): Out
    requires t < |s.threads|
  {
    match s.threads[t]
    case InsertLoad(x) =>
      if s.data.finished then GiveBack(s, t, x) else Out(Moved(s, t, InsertState(x, s.data)), Silent)
    case InsertState(x, expected) =>
      Out(Moved(s.(state := s.state[x := Waiting]), t, InsertLink(x, expected)), Silent)
    case InsertLink(x, expected) =>
      Out(Moved(s.(next := s.next[x := expected.head]), t, InsertCas(x, expected)), Silent)
    case InsertCas(x, expected) =>
      if s.data == expected && ch != FailSpuriously then
        Out(Moved(s.(data := Data(Ref(x), false), place := s.place[x := Listed]), t, Idle), Accepted(x))
      else
        Out(Moved(s, t, if s.data.finished then UndoState(x) else InsertLink(x, s.data)), Silent)
    case UndoState(x) => GiveBack(s.(state := s.state[x := Running]), t, x)
    case _ => Out(s, Silent)
  }

  function ReleaseStep(s: State, t: nat, ch: Choice): Out
    requires t < |s.threads|
  {
    match s.threads[t]
    case ReleaseLoad =>
      if s.data.finished then Out(Moved(s, t, Idle), AlreadyFinished) else Out(Moved(s, t, ReleaseCas(s.data)), Silent)
    case ReleaseCas(expected) =>
      if s.data == expected && ch != FailSpuriously then
        Out(Moved(s.(data := Data(Null, true),
                     place := map x | x in s.place :: if s.place[x] == Listed then Detached else s.place[x]), t, Idle),
            Detaches(expected.head))
      else if s.data.finished then Out(Moved(s, t, Idle), AlreadyFinished)
      else Out(Moved(s, t, ReleaseCas(s.data)), Silent)
    case _ => Out(s, Silent)
  }

  function Step(s: State, t: nat, ch: Choice): Out {
    if t >= |s.threads| then Out(s, Silent)
    else if s.threads[t].Idle? then CallStep(s, t, ch)
    else if s.threads[t].ReleaseLoad? || s.threads[t].ReleaseCas? then ReleaseStep(s, t, ch)
    else InsertStep(s, t, ch)
  }

  function Init(n: nat, next: Heap): State {
    State(Data(Null, false), next, map[], map[], seq(n, _ => Idle))
  }

  datatype Turn = Turn(t: nat, ch: Choice)

  function Run(s: State, turns: seq<Turn>): State {
    if turns == [] then s
    else var last := turns[|turns| - 1]; Step(Run(s, turns[..|turns| - 1]), last.t, last.ch).s
  }

  function Trace(s: State, turns: seq<Turn>): seq<Event> {
    if turns == [] then []
    else
      var last := turns[|turns| - 1];
      Trace(s, turns[..|turns| - 1]) + [Step(Run(s, turns[..|turns| - 1]), last.t, last.ch).e]
  }

  // ---- what a trace tells

  /** The tasks whose insertion returned true, the latest first. */
  function AcceptedIn(es: seq<Event>): seq<Item> {
    if es == [] then []
    else
      var e := es[|es| - 1];
      (if e.Accepted? then [e.x] else []) + AcceptedIn(es[..|es| - 1])
  }

  ghost predicate HasDetached(es: seq<Event>) {
    exists k :: 0 <= k < |es| && es[k].Detaches?
  }

  /** The item an insertion is about. */
  function Subject(pc: Pc): Ptr {
    match pc
    case InsertLoad(x) => Ref(x)
    case InsertState(x, _) => Ref(x)
    case InsertLink(x, _) => Ref(x)
    case InsertCas(x, _) => Ref(x)
    case UndoState(x) => Ref(x)
    case _ => Null
  }

  ghost predicate ThreadOk(s: State, t: nat)
    requires t < |s.threads|
  {
    var pc := s.threads[t];
    && (Subject(pc).Ref? ==> PlaceOf(s, Subject(pc).item) == Inserting(t))
    && (pc.InsertState? || pc.InsertLink? || pc.InsertCas? || pc.ReleaseCas? ==> !pc.expected.finished)
    && (pc.InsertCas? ==> Next(s.next, pc.x) == pc.expected.head)
    && (pc.UndoState? ==> s.data.finished)
    && (pc.InsertLoad? || pc.InsertState? ==> StateOf(s, pc.x) == Running)
    && (pc.InsertLink? || pc.InsertCas? ==> StateOf(s, pc.x) == Waiting)
  }

  ghost predicate ItemOk(s: State, x: Item) {
    match PlaceOf(s, x)
    case Free => StateOf(s, x) == Running
    case Inserting(t) => t < |s.threads| && Subject(s.threads[t]) == Ref(x)
    case Listed => StateOf(s, x) == Waiting && !s.data.finished
    case Detached => s.data.finished
  }

  ghost predicate ThreadsOk(s: State) {
    && (forall t: nat :: t < |s.threads| ==> ThreadOk(s, t))
    && (forall x :: ItemOk(s, x))
  }

  /** The wait list is the accepted tasks in order until a release detaches it; then it is empty for
      good.  `es` is the trace so far. */
  ghost predicate ListOk(s: State, es: seq<Event>) {
    var acc := AcceptedIn(es);
    && (s.data.finished <==> HasDetached(es))
    && (s.data.finished ==> s.data.head == Null)
    && (!s.data.finished ==> Chain(s.next, s.data.head, acc, Null) && forall x :: x in acc <==> PlaceOf(s, x) == Listed)
    && Distinct(acc)
  }

  lemma TraceGrows(es: seq<Event>, e: Event)
    ensures AcceptedIn(es + [e]) == (if e.Accepted? then [e.x] else []) + AcceptedIn(es)
    ensures HasDetached(es + [e]) <==> HasDetached(es) || e.Detaches?
  {
    assert (es + [e])[..|es + [e]| - 1] == es;
    assert (es + [e])[|es|] == e;
    if HasDetached(es) {
      var k :| 0 <= k < |es| && es[k].Detaches?;
      assert (es + [e])[k].Detaches?;
    }
  }

  // ---- threads

  /** What a step of thread `t` may do without disturbing the other threads: it writes only links and
      places that are its own, and does not reopen the awaitable. */
  ghost predicate Local(s: State, s': State, t: nat) {
    && t < |s.threads| && |s'.threads| == |s.threads|
    && (forall u: nat :: u < |s.threads| && u != t ==> s'.threads[u] == s.threads[u])
    && (s.data.finished ==> s'.data.finished)
    && (forall x :: PlaceOf(s, x).Inserting? && PlaceOf(s, x) != Inserting(t) ==>
          PlaceOf(s', x) == PlaceOf(s, x) && Next(s'.next, x) == Next(s.next, x) && StateOf(s', x) == StateOf(s, x))
  }

  lemma ThreadsKeep(s: State, s': State, t: nat)
    requires ThreadsOk(s) && Local(s, s', t) && ThreadOk(s', t)
    requires forall x :: ItemOk(s, x) ==> ItemOk(s', x)
    ensures ThreadsOk(s')
  {
    forall u: nat | u < |s'.threads|
      ensures ThreadOk(s', u)
    {
      assert ThreadOk(s, u);
    }
    forall x
      ensures ItemOk(s', x)
    {
      assert ItemOk(s, x);
    }
  }

  lemma CallThreads(s: State, t: nat, ch: Choice)
    requires ThreadsOk(s) && t < |s.threads| && s.threads[t].Idle?
    ensures ThreadsOk(CallStep(s, t, ch).s)
  {
    assert ThreadOk(s, t);
    if ch.CallInsert? { assert ItemOk(s, ch.x); }
    if ch.WakeUp? { assert ItemOk(s, ch.x); }
    ThreadsKeep(s, CallStep(s, t, ch).s, t);
  }

  lemma CasThreads(s: State, t: nat, ch: Choice)
    requires ThreadsOk(s) && t < |s.threads| && s.threads[t].InsertCas?
    ensures ThreadsOk(InsertStep(s, t, ch).s)
  {
    assert ThreadOk(s, t) && ItemOk(s, s.threads[t].x);
    ThreadsKeep(s, InsertStep(s, t, ch).s, t);
  }

  lemma InsertThreads(s: State, t: nat, ch: Choice)
    requires ThreadsOk(s) && t < |s.threads| && Subject(s.threads[t]).Ref? && !s.threads[t].InsertCas?
    ensures ThreadsOk(InsertStep(s, t, ch).s)
  {
    assert ThreadOk(s, t) && ItemOk(s, Subject(s.threads[t]).item);
    ThreadsKeep(s, InsertStep(s, t, ch).s, t);
  }

  lemma ReleaseThreads(s: State, t: nat, ch: Choice)
    requires ThreadsOk(s) && t < |s.threads| && (s.threads[t].ReleaseLoad? || s.threads[t].ReleaseCas?)
    ensures ThreadsOk(ReleaseStep(s, t, ch).s)
  {
    assert ThreadOk(s, t);
    ThreadsKeep(s, ReleaseStep(s, t, ch).s, t);
  }

  // ---- the list

  /** What a step does that neither lists a task nor detaches the list. */
  ghost predicate Bystander(s: State, s': State) {
    && s'.data == s.data
    && forall x :: PlaceOf(s, x) == Listed || PlaceOf(s', x) == Listed ==>
                     PlaceOf(s, x) == PlaceOf(s', x) && Next(s'.next, x) == Next(s.next, x)
  }

  lemma ListStays(s: State, s': State, es: seq<Event>, e: Event)
    requires ListOk(s, es) && Bystander(s, s') && !e.Accepted? && !e.Detaches?
    ensures ListOk(s', es + [e])
  {
    TraceGrows(es, e);
    if !s.data.finished {
      forall x | x in AcceptedIn(es)
        ensures Next(s'.next, x) == Next(s.next, x)
      {
        assert PlaceOf(s, x) == Listed;
      }
      ChainFrame(s.next, s'.next, s.data.head, AcceptedIn(es), Null);
    }
  }

  lemma CallLists(s: State, es: seq<Event>, t: nat, ch: Choice)
    requires ListOk(s, es) && ThreadsOk(s) && t < |s.threads| && s.threads[t].Idle?
    ensures var r := CallStep(s, t, ch); ListOk(r.s, es + [r.e])
  {
    var r := CallStep(s, t, ch);
    ListStays(s, r.s, es, r.e);
  }

  /** A task in front of a list it is not in. */
  lemma FrontOf(h: Heap, p: Ptr, l: seq<Item>, x: Item)
    requires Chain(h, p, l, Null) && Distinct(l) && x !in l && Next(h, x) == p
    ensures Chain(h, Ref(x), [x] + l, Null) && Distinct([x] + l)
  {
    ChainCons(h, x, l, Null);
  }

  /** The compare-exchange that puts a task in front of the wait list. */
  lemma AcceptLists(s: State, es: seq<Event>, t: nat, ch: Choice)
    requires ListOk(s, es) && ThreadsOk(s) && t < |s.threads| && s.threads[t].InsertCas?
    requires s.data == s.threads[t].expected && ch != FailSpuriously
    ensures var r := InsertStep(s, t, ch); ListOk(r.s, es + [r.e])
  {
    var r, x := InsertStep(s, t, ch), s.threads[t].x;
    TraceGrows(es, r.e);
    assert ThreadOk(s, t);
    assert PlaceOf(s, x) == Inserting(t);
    FrontOf(s.next, s.data.head, AcceptedIn(es), x);
  }

  lemma InsertLists(s: State, es: seq<Event>, t: nat, ch: Choice)
    requires ListOk(s, es) && ThreadsOk(s) && t < |s.threads| && Subject(s.threads[t]).Ref?
    requires s.threads[t].InsertCas? ==> s.data != s.threads[t].expected || ch == FailSpuriously
    ensures var r := InsertStep(s, t, ch); ListOk(r.s, es + [r.e])
  {
    var r := InsertStep(s, t, ch);
    assert ThreadOk(s, t);
    ListStays(s, r.s, es, r.e);
  }

  lemma ReleaseLists(s: State, es: seq<Event>, t: nat, ch: Choice)
    requires ListOk(s, es) && t < |s.threads| && (s.threads[t].ReleaseLoad? || s.threads[t].ReleaseCas?)
    ensures var r := ReleaseStep(s, t, ch); ListOk(r.s, es + [r.e])
  {
    var r := ReleaseStep(s, t, ch);
    if r.e.Detaches? {
      TraceGrows(es, r.e);
    } else {
      ListStays(s, r.s, es, r.e);
    }
  }

  // ---- runs

  lemma StepKeeps(s: State, es: seq<Event>, t: nat, ch: Choice)
    requires ListOk(s, es) && ThreadsOk(s)
    ensures var r := Step(s, t, ch); ListOk(r.s, es + [r.e]) && ThreadsOk(r.s)
  {
    if t >= |s.threads| {
      TraceGrows(es, Silent);
    } else if s.threads[t].Idle? {
      CallLists(s, es, t, ch);
      CallThreads(s, t, ch);
    } else if s.threads[t].ReleaseLoad? || s.threads[t].ReleaseCas? {
      ReleaseLists(s, es, t, ch);
      ReleaseThreads(s, t, ch);
    } else {
      if s.threads[t].InsertCas? { CasThreads(s, t, ch); } else { InsertThreads(s, t, ch); }
      if s.threads[t].InsertCas? && s.data == s.threads[t].expected && ch != FailSpuriously {
        AcceptLists(s, es, t, ch);
      } else {
        InsertLists(s, es, t, ch);
      }
    }
  }

  lemma {:induction false} RunKeeps(n: nat, next: Heap, turns: seq<Turn>)
    ensures var s := Init(n, next); ListOk(Run(s, turns), Trace(s, turns)) && ThreadsOk(Run(s, turns))
  {
    if turns != [] {
      var before, last := turns[..|turns| - 1], turns[|turns| - 1];
      RunKeeps(n, next, before);
      StepKeeps(Run(Init(n, next), before), Trace(Init(n, next), before), last.t, last.ch);
    }
  }

  lemma {:induction false} TracePrefix(s: State, turns: seq<Turn>, k: nat)
    requires k <= |turns|
    ensures |Trace(s, turns)| == |turns| && Trace(s, turns)[..k] == Trace(s, turns[..k])
    decreases |turns|
  {
    TraceLength(s, turns);
    if k == |turns| {
      assert turns[..k] == turns;
    } else {
      var before := turns[..|turns| - 1];
      TracePrefix(s, before, k);
      assert before[..k] == turns[..k];
      assert Trace(s, turns)[..k] == Trace(s, before)[..k];
    }
  }

  lemma TraceAt(s: State, turns: seq<Turn>, k: nat)
    requires k < |turns|
    ensures |Trace(s, turns)| == |turns| && Trace(s, turns)[..k] == Trace(s, turns[..k])
    ensures Trace(s, turns)[k] == Step(Run(s, turns[..k]), turns[k].t, turns[k].ch).e
    ensures Run(s, turns[..k + 1]) == Step(Run(s, turns[..k]), turns[k].t, turns[k].ch).s
  {
    TracePrefix(s, turns, k);
    TracePrefix(s, turns, k + 1);
    TraceLength(s, turns[..k]);
    var upto := turns[..k + 1];
    assert upto[..|upto| - 1] == turns[..k] && upto[|upto| - 1] == turns[k];
    assert Trace(s, turns)[k] == Trace(s, turns)[..k + 1][k];
  }

  lemma {:induction false} TraceLength(s: State, turns: seq<Turn>)
    ensures |Trace(s, turns)| == |turns|
  {
    if turns != [] {
      TraceLength(s, turns[..|turns| - 1]);
    }
  }

  lemma EventMeaning(s: State, t: nat, ch: Choice)
    requires ThreadsOk(s)
    ensures var r := Step(s, t, ch);
      && (r.e.Detaches? ==> !s.data.finished && r.e.head == s.data.head && r.s.data == Data(Null, true))
      && (r.e.Accepted? ==> !s.data.finished)
      && (r.e.Rejected? || r.e.AlreadyFinished? ==> s.data.finished)
      && (r.e.Rejected? ==> StateOf(r.s, r.e.x) == Running)
      && (s.data.finished ==> r.s.data == s.data)
  {
    if t < |s.threads| {
      assert ThreadOk(s, t);
    }
  }

  /** Once finished, the pair never changes again. */
  lemma {:induction false} FinishedForever(n: nat, next: Heap, turns: seq<Turn>, k: nat)
    requires k <= |turns| && Run(Init(n, next), turns[..k]).data.finished
    ensures Run(Init(n, next), turns).data == Data(Null, true)
    decreases |turns|
  {
    if k == |turns| {
      assert turns[..k] == turns;
      RunKeeps(n, next, turns);
    } else {
      var before := turns[..|turns| - 1];
      assert before[..k] == turns[..k];
      FinishedForever(n, next, before, k);
      RunKeeps(n, next, before);
      EventMeaning(Run(Init(n, next), before), turns[|turns| - 1].t, turns[|turns| - 1].ch);
    }
  }

  lemma {:induction false} AcceptedMeans(es: seq<Event>, x: Item)
    ensures x in AcceptedIn(es) <==> Accepted(x) in es
  {
    if es != [] {
      var n := |es| - 1;
      AcceptedMeans(es[..n], x);
      assert es == es[..n] + [es[n]];
    }
  }

  /** The release, seen over a whole run. */
  ghost predicate OneShot(n: nat, next: Heap, turns: seq<Turn>, k: nat)
    requires k < |turns|
  {
    var es := Trace(Init(n, next), turns);
    var at := Run(Init(n, next), turns[..k]);
    && |es| == |turns| && es[k].Detaches?
    // no other release detaches, every true answer comes before it, every false answer after it
    && (forall j :: 0 <= j < |es| && es[j].Detaches? ==> j == k)
    && (forall j :: 0 <= j < |es| && es[j].Accepted? ==> j < k)
    && (forall j :: 0 <= j < |es| && (es[j].Rejected? || es[j].AlreadyFinished?) ==> j > k)
    // what it detaches is the accepted tasks, each once, the latest first
    && Chain(at.next, es[k].head, AcceptedIn(es[..k]), Null) && Distinct(AcceptedIn(es[..k]))
    && (forall x :: x in AcceptedIn(es[..k]) <==> Accepted(x) in es)
    // and the pair is (null, finished) from then on
    && (forall j :: k < j <= |turns| ==> Run(Init(n, next), turns[..j]).data == Data(Null, true))
  }

  /** What the event of step `j` says about the state before and after it. */
  lemma EventAt(n: nat, next: Heap, turns: seq<Turn>, j: nat)
    requires j < |turns|
    ensures var es := Trace(Init(n, next), turns);
      |es| == |turns|
      && (es[j].Detaches? ==> !FinishedAt(n, next, turns, j) && FinishedAt(n, next, turns, j + 1))
      && (es[j].Accepted? ==> !FinishedAt(n, next, turns, j))
      && (es[j].Rejected? || es[j].AlreadyFinished? ==> FinishedAt(n, next, turns, j))
  {
    TraceAt(Init(n, next), turns, j);
    RunKeeps(n, next, turns[..j]);
    EventMeaning(Run(Init(n, next), turns[..j]), turns[j].t, turns[j].ch);
  }

  ghost predicate FinishedAt(n: nat, next: Heap, turns: seq<Turn>, j: nat)
    requires j <= |turns|
  {
    Run(Init(n, next), turns[..j]).data.finished
  }

  lemma FinishedLater(n: nat, next: Heap, turns: seq<Turn>, i: nat, j: nat)
    requires i <= j <= |turns| && FinishedAt(n, next, turns, i)
    ensures FinishedAt(n, next, turns, j) && Run(Init(n, next), turns[..j]).data == Data(Null, true)
  {
    assert turns[..j][..i] == turns[..i];
    FinishedForever(n, next, turns[..j], i);
  }

  lemma BeforeAndAfter(n: nat, next: Heap, turns: seq<Turn>, k: nat, j: nat)
    requires k < |turns| && j < |turns| && |Trace(Init(n, next), turns)| == |turns|
    requires Trace(Init(n, next), turns)[k].Detaches?
    ensures var e := Trace(Init(n, next), turns)[j];
      (e.Detaches? ==> j == k) && (e.Accepted? ==> j < k) && (e.Rejected? || e.AlreadyFinished? ==> j > k)
  {
    EventAt(n, next, turns, k);
    EventAt(n, next, turns, j);
    if j < k {
      if FinishedAt(n, next, turns, j) { FinishedLater(n, next, turns, j, k); }
      if FinishedAt(n, next, turns, j + 1) { FinishedLater(n, next, turns, j + 1, k); }
    } else if j > k {
      FinishedLater(n, next, turns, k + 1, j);
    }
  }

  /** If every insertion that is accepted is accepted before step `k`, the first `k` events tell them all. */
  lemma AcceptedBefore(es: seq<Event>, k: nat)
    requires k <= |es| && forall j :: 0 <= j < |es| && es[j].Accepted? ==> j < k
    ensures forall x :: x in AcceptedIn(es[..k]) <==> Accepted(x) in es
  {
    forall x
      ensures x in AcceptedIn(es[..k]) <==> Accepted(x) in es
    {
      AcceptedMeans(es[..k], x);
      if Accepted(x) in es {
        var j :| 0 <= j < |es| && es[j] == Accepted(x);
        assert es[..k][j] == Accepted(x);
      }
    }
  }

  lemma FinishedFrom(n: nat, next: Heap, turns: seq<Turn>, k: nat)
    requires k < |turns| && k < |Trace(Init(n, next), turns)| && Trace(Init(n, next), turns)[k].Detaches?
    ensures forall j :: k < j <= |turns| ==> Run(Init(n, next), turns[..j]).data == Data(Null, true)
  {
    EventAt(n, next, turns, k);
    forall j | k < j <= |turns|
      ensures Run(Init(n, next), turns[..j]).data == Data(Null, true)
    {
      FinishedLater(n, next, turns, k + 1, j);
    }
  }

  /** Under every interleaving exactly the first successful release detaches the wait list; that list
      holds each task whose insertion returned true exactly once and no task whose insertion returned
      false; afterwards the pair stays (null, finished) forever. */
  lemma ReleaseIsOneShot(n: nat, next: Heap, turns: seq<Turn>, k: nat)
    requires k < |turns| && k < |Trace(Init(n, next), turns)| && Trace(Init(n, next), turns)[k].Detaches?
    ensures OneShot(n, next, turns, k)
  {
    var init := Init(n, next);
    var es := Trace(init, turns);
    TraceAt(init, turns, k);
    RunKeeps(n, next, turns[..k]);
    EventMeaning(Run(init, turns[..k]), turns[k].t, turns[k].ch);
    forall j | 0 <= j < |es|
      ensures (es[j].Detaches? ==> j == k) && (es[j].Accepted? ==> j < k)
          && (es[j].Rejected? || es[j].AlreadyFinished? ==> j > k)
    {
      BeforeAndAfter(n, next, turns, k, j);
    }
    AcceptedBefore(es, k);
    FinishedFrom(n, next, turns, k);
  }

  /** Until some release detaches, the awaitable is not finished and its list is the accepted tasks. */
  lemma UnreleasedList(n: nat, next: Heap, turns: seq<Turn>)
    requires !HasDetached(Trace(Init(n, next), turns))
    ensures var s := Run(Init(n, next), turns);
      !s.data.finished && Chain(s.next, s.data.head, AcceptedIn(Trace(Init(n, next), turns)), Null)
      && forall x :: x in AcceptedIn(Trace(Init(n, next), turns)) ==> StateOf(s, x) == Waiting
  {
    RunKeeps(n, next, turns);
    var s := Run(Init(n, next), turns);
    forall x | x in AcceptedIn(Trace(Init(n, next), turns))
      ensures StateOf(s, x) == Waiting
    {
      assert ItemOk(s, x);
    }
  }
}
