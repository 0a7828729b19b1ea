/** What an insertion that is refused leaves in the `next` field of its task: the reason why `push` cannot
    count on a null link. */
module AwaitableLinks {
  import opened Basics
  import opened Links
  import opened AwaitableMachine

  // ---- exactly which link a refused insertion leaves behind

  /** Step `j` is the failed compare-exchange after which thread `t` gives up inserting `x`. */
  ghost predicate LosesAt(n: nat, next: Heap, turns: seq<Turn>, j: nat, t: nat, x: Item, expected: Data)
    requires j < |turns|
  {
    var before, after := Run(Init(n, next), turns[..j]), Run(Init(n, next), turns[..j + 1]);
    && t < |before.threads| && t < |after.threads|
    && before.threads[t] == InsertCas(x, expected) && after.threads[t] == UndoState(x)
  }

  /** If thread `t` is giving up, the link of its task is the head it last expected to find. */
  ghost predicate Recalls(n: nat, next: Heap, turns: seq<Turn>, t: nat) {
    var s := Run(Init(n, next), turns);
    t < |s.threads| && s.threads[t].UndoState? ==>
      exists j, e :: 0 <= j < |turns| && LosesAt(n, next, turns, j, t, s.threads[t].x, e)
          && Next(s.next, s.threads[t].x) == e.head
  }

  lemma OthersStay(s: State, u: nat, ch: Choice)
    ensures |Step(s, u, ch).s.threads| == |s.threads|
    ensures forall t: nat :: t < |s.threads| && u != t ==> Step(s, u, ch).s.threads[t] == s.threads[t]
  {
  }

  /** Nobody else writes the link of a task that is being inserted. */
  lemma OthersLeaveLink(s: State, u: nat, ch: Choice, t: nat)
    requires ThreadsOk(s) && t < |s.threads| && u != t && Subject(s.threads[t]).Ref?
    ensures Next(Step(s, u, ch).s.next, Subject(s.threads[t]).item) == Next(s.next, Subject(s.threads[t]).item)
  {
    assert ThreadOk(s, t);
    if u < |s.threads| {
      assert ThreadOk(s, u);
    }
  }

  /** A thread starts giving up only at its compare-exchange, whose expected head is the link. */
  lemma GivesUp(s: State, t: nat, ch: Choice)
    requires ThreadsOk(s) && t < |s.threads| && Step(s, t, ch).s.threads[t].UndoState?
    ensures s.threads[t].InsertCas? && Step(s, t, ch).s.threads[t].x == s.threads[t].x
    ensures Next(Step(s, t, ch).s.next, s.threads[t].x) == s.threads[t].expected.head
  {
    assert ThreadOk(s, t);
  }

  lemma LosesInLongerRun(n: nat, next: Heap, turns: seq<Turn>, m: nat, j: nat, t: nat, x: Item, e: Data)
    requires j < m <= |turns| && LosesAt(n, next, turns[..m], j, t, x, e)
    ensures LosesAt(n, next, turns, j, t, x, e)
  {
    assert turns[..m][..j] == turns[..j] && turns[..m][..j + 1] == turns[..j + 1];
  }

  lemma {:induction false} RunRecalls(n: nat, next: Heap, turns: seq<Turn>, t: nat)
    ensures Recalls(n, next, turns, t)
    decreases |turns|, 1
  {
    var s := Run(Init(n, next), turns);
    if turns != [] && t < |s.threads| && s.threads[t].UndoState? {
      var m := |turns| - 1;
      var before, last := Run(Init(n, next), turns[..m]), turns[m];
      RunKeeps(n, next, turns[..m]);
      assert turns[..m + 1] == turns;
      if last.t == t {
        GivesUp(before, t, last.ch);
        assert LosesAt(n, next, turns, m, t, s.threads[t].x, before.threads[t].expected);
      } else {
        StillRecalls(n, next, turns, t);
      }
    }
  }

  lemma StillRecalls(n: nat, next: Heap, turns: seq<Turn>, t: nat)
    requires turns != [] && turns[|turns| - 1].t != t && ThreadsOk(Run(Init(n, next), turns[..|turns| - 1]))
    requires var s := Run(Init(n, next), turns); t < |s.threads| && s.threads[t].UndoState?
    ensures Recalls(n, next, turns, t)
    decreases |turns|, 0
  {
    var m := |turns| - 1;
    var before, last := Run(Init(n, next), turns[..m]), turns[m];
    RunRecalls(n, next, turns[..m], t);
    OthersStay(before, last.t, last.ch);
    OthersLeaveLink(before, last.t, last.ch, t);
    var x := before.threads[t].x;
    var j, e :| 0 <= j < m && LosesAt(n, next, turns[..m], j, t, x, e) && Next(before.next, x) == e.head;
    LosesInLongerRun(n, next, turns, m, j, t, x, e);
  }

  /** In every run, the link a refused insertion leaves behind: if the first load already found the
      awaitable finished, the link is untouched; otherwise it is the head that the thread expected at
      the compare-exchange it lost, so it is null if and only if that head was null. */
  lemma RejectedLink(n: nat, next: Heap, turns: seq<Turn>, k: nat, x: Item)
    requires k < |turns| && var es := Trace(Init(n, next), turns); |es| == |turns| && es[k] == Rejected(x)
    ensures var s, s', t := Run(Init(n, next), turns[..k]), Run(Init(n, next), turns[..k + 1]), turns[k].t;
      t < |s.threads|
      && if s.threads[t] == InsertLoad(x) then s'.next == s.next
         else exists j, e :: 0 <= j < k && LosesAt(n, next, turns, j, t, x, e) && Next(s'.next, x) == e.head
  {
    var init := Init(n, next);
    TraceAt(init, turns, k);
    RunKeeps(n, next, turns[..k]);
    var s, t := Run(init, turns[..k]), turns[k].t;
    RejectedAt(s, t, turns[k].ch, x);
    if s.threads[t] != InsertLoad(x) {
      RunRecalls(n, next, turns[..k], t);
      var j, e :| 0 <= j < k && LosesAt(n, next, turns[..k], j, t, x, e) && Next(s.next, x) == e.head;
      LosesInLongerRun(n, next, turns, k, j, t, x, e);
    }
  }

  lemma RejectedAt(s: State, t: nat, ch: Choice, x: Item)
    requires Step(s, t, ch).e == Rejected(x)
    ensures t < |s.threads| && s.threads[t] in {InsertLoad(x), UndoState(x)} && Step(s, t, ch).s.next == s.next
  {
  }

  // ---- a stale link

  ghost predicate Reaches(s: State, t: State) {
    exists turns :: Run(s, turns) == t
  }

  /** Three threads, the awaitable, and task 1. */
  datatype View = View(threads: seq<Pc>, data: Data, link: Ptr, state: TaskState, place: Place, first: Place)

  ghost predicate Shows(s: State, v: View) {
    && s.threads == v.threads && s.data == v.data && Next(s.next, 1) == v.link && StateOf(s, 1) == v.state
    && PlaceOf(s, 1) == v.place && PlaceOf(s, 0) == v.first
  }

  lemma Turns(s: State, a: State, t: nat, ch: Choice, v: View) returns (b: State)
    requires Reaches(s, a) && Shows(Step(a, t, ch).s, v)
    ensures Reaches(s, b) && Shows(b, v)
  {
    b := Step(a, t, ch).s;
    var turns :| Run(s, turns) == a;
    var more := turns + [Turn(t, ch)];
    assert more[..|more| - 1] == turns;
    assert Run(s, more) == b;
  }

  /** Thread 0 inserts task 0 ... */
  lemma FirstLinks(s: State) returns (b: State)
    requires s == Init(3, map[])
    ensures Reaches(s, b)
    ensures Shows(b, View([InsertCas(0, Data(Null, false)), Idle, Idle], Data(Null, false), Null, Running, Free,
        Inserting(0)))
  {
    var v := View([Idle, Idle, Idle], Data(Null, false), Null, Running, Free, Inserting(0));
    assert Run(s, []) == s;
    b := Turns(s, s, 0, CallInsert(0), v.(threads := [InsertLoad(0), Idle, Idle]));
    b := Turns(s, b, 0, Go, v.(threads := [InsertState(0, v.data), Idle, Idle]));
    b := FirstWrites(s, b);
  }

  lemma FirstWrites(s: State, a: State) returns (b: State)
    requires Reaches(s, a)
    requires Shows(a, View([InsertState(0, Data(Null, false)), Idle, Idle], Data(Null, false), Null, Running, Free,
        Inserting(0)))
    ensures Reaches(s, b)
    ensures Shows(b, View([InsertCas(0, Data(Null, false)), Idle, Idle], Data(Null, false), Null, Running, Free,
        Inserting(0)))
  {
    var v := View([Idle, Idle, Idle], Data(Null, false), Null, Running, Free, Inserting(0));
    b := Turns(s, a, 0, Go, v.(threads := [InsertLink(0, v.data), Idle, Idle]));
    b := Turns(s, b, 0, Go, v.(threads := [InsertCas(0, v.data), Idle, Idle]));
  }

  lemma FirstInserts(s: State) returns (b: State)
    requires s == Init(3, map[])
    ensures Reaches(s, b) && Shows(b, View([Idle, Idle, Idle], Data(Ref(0), false), Null, Running, Free, Listed))
  {
    b := FirstLinks(s);
    b := Turns(s, b, 0, Go, View([Idle, Idle, Idle], Data(Ref(0), false), Null, Running, Free, Listed));
  }

  /** ... thread 1 links task 1 to it ... */
  lemma SecondLinks(s: State, a: State) returns (b: State)
    requires Reaches(s, a) && Shows(a, View([Idle, Idle, Idle], Data(Ref(0), false), Null, Running, Free, Listed))
    ensures Reaches(s, b)
    ensures Shows(b, View([Idle, InsertCas(1, Data(Ref(0), false)), Idle], Data(Ref(0), false), Ref(0), Waiting,
        Inserting(1), Listed))
  {
    var d := Data(Ref(0), false);
    var v := View([Idle, InsertLoad(1), Idle], d, Null, Running, Inserting(1), Listed);
    b := Turns(s, a, 1, CallInsert(1), v);
    b := Turns(s, b, 1, Go, v.(threads := [Idle, InsertState(1, d), Idle]));
    v := v.(state := Waiting, threads := [Idle, InsertLink(1, d), Idle]);
    b := Turns(s, b, 1, Go, v);
    b := Turns(s, b, 1, Go, v.(link := Ref(0), threads := [Idle, InsertCas(1, d), Idle]));
  }

  /** The insertion of task 1 is refused; the task is Running, in no wait list and free to be queued, and
      its link is not null. */
  ghost predicate LeavesStaleLink(r: Out) {
    r.e == Rejected(1) && PlaceOf(r.s, 1) == Free && StateOf(r.s, 1) == Running && Next(r.s.next, 1) == Ref(0)
  }

  /** ... thread 2 releases ... */
  lemma ThirdReleases(s: State, a: State) returns (b: State)
    requires Reaches(s, a)
    requires Shows(a, View([Idle, InsertCas(1, Data(Ref(0), false)), Idle], Data(Ref(0), false), Ref(0), Waiting,
        Inserting(1), Listed))
    ensures Reaches(s, b)
    ensures Shows(b, View([Idle, InsertCas(1, Data(Ref(0), false)), Idle], Data(Null, true), Ref(0), Waiting,
        Inserting(1), Detached))
  {
    var d := Data(Ref(0), false);
    var v := View([Idle, InsertCas(1, d), ReleaseLoad], d, Ref(0), Waiting, Inserting(1), Listed);
    b := Turns(s, a, 2, CallRelease, v);
    b := Turns(s, b, 2, Go, v.(threads := [Idle, InsertCas(1, d), ReleaseCas(d)]));
    b := Turns(s, b, 2, Go, v.(threads := [Idle, InsertCas(1, d), Idle], data := Data(Null, true), first := Detached));
  }

  /** ... and thread 1 has to give up. */
  lemma SecondGivesUp(s: State, a: State) returns (b: State)
    requires Reaches(s, a)
    requires Shows(a, View([Idle, InsertCas(1, Data(Ref(0), false)), Idle], Data(Null, true), Ref(0), Waiting,
        Inserting(1), Detached))
    ensures Reaches(s, b) && LeavesStaleLink(Step(b, 1, Go))
  {
    b := Turns(s, a, 1, Go,
        View([Idle, UndoState(1), Idle], Data(Null, true), Ref(0), Waiting, Inserting(1), Detached));
  }

  /** The case happens, with three threads. */
  lemma StaleLinkIsReachable()
    ensures exists turns :: LeavesStaleLink(Step(Run(Init(3, map[]), turns), 1, Go))
  {
    var s := Init(3, map[]);
    var a := FirstInserts(s);
    a := SecondLinks(s, a);
    a := ThirdReleases(s, a);
    a := SecondGivesUp(s, a);
    var turns :| Run(s, turns) == a;
  }
}
