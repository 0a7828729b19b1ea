/** How long the probe loops run, and what their "empty" and "full" answers rest on. */
module QueueScan {
  import opened Links
  import opened Scan
  import opened QueueMachine

  /** `sc` has not missed a move: if nothing moved since the last read, the position is still `index`. */
  ghost predicate Current(sc: Scan, position: Pos, moves: nat) {
    sc.i < BUFFER_SIZE && sc.seen <= moves && (sc.seen == moves ==> position == sc.index)
  }

  ghost predicate Scanning(s: State, pc: Pc) {
    match pc
    case GetProbe(sc) => Current(sc, s.getPos, s.getMoves) && Tidy(sc, sc.i)
    case GetReread(sc) => Current(sc, s.getPos, s.getMoves) && Tidy(sc, sc.i + 1)
    case EmptyProbe(_, _, sc) => Current(sc, s.putPos, s.putMoves) && Tidy(sc, sc.i)
    case EmptyReread(_, _, sc) => Current(sc, s.putPos, s.putMoves) && Tidy(sc, sc.i + 1)
    case _ => true
  }

  ghost predicate AllScanning(s: State) {
    forall t: nat :: t < |s.threads| ==> Scanning(s, s.threads[t])
  }

  lemma EmptyScans(s: State, t: nat)
    requires t < |s.threads| && InEmpty(s.threads[t]) && Scanning(s, s.threads[t])
    ensures var s' := EmptyStep(s, t).s; Scanning(s', s'.threads[t])
  {
    var pc := s.threads[t];
    if pc.EmptyProbe? {
      TidyProbe(pc.sc);
    } else if pc.EmptyReread? {
      TidyReread(pc.sc, s.putPos, s.putMoves);
    }
  }

  lemma GetScans(s: State, t: nat)
    requires t < |s.threads| && Scanning(s, s.threads[t])
    requires s.threads[t].GetIndex? || s.threads[t].GetProbe? || s.threads[t].GetReread?
    ensures var s' := GetStep(s, t).s; Scanning(s', s'.threads[t])
  {
    var pc := s.threads[t];
    if pc.GetProbe? {
      TidyProbe(pc.sc);
    } else if pc.GetReread? {
      TidyReread(pc.sc, s.getPos, s.getMoves);
    }
  }

  predicate InScan(pc: Pc) {
    pc.GetProbe? || pc.GetReread? || pc.EmptyProbe? || pc.EmptyReread?
  }

  /** A scan is entered only by reading the position. */
  lemma OtherScans(s: State, t: nat, ch: Choice)
    requires t < |s.threads| && !InEmpty(s.threads[t])
    requires !s.threads[t].GetIndex? && !s.threads[t].GetProbe? && !s.threads[t].GetReread?
    ensures !InScan(Step(s, t, ch).s.threads[t])
  {
    var pc := s.threads[t];
    if pc.Idle? { assert !InScan(CallStep(s, t, ch).s.threads[t]); }
    else if InPut(pc) { assert !InScan(PutStep(s, t, ch).s.threads[t]); }
    else if InTail(pc) { assert !InScan(TailStep(s, t).s.threads[t]); }
    else if InOcc(pc) { assert !InScan(OccStep(s, t, ch).s.threads[t]); }
    else { assert !InScan(GetStep(s, t).s.threads[t]); }
  }

  lemma StepScans(s: State, t: nat, ch: Choice)
    requires AllScanning(s)
    ensures AllScanning(Step(s, t, ch).s)
  {
    if t < |s.threads| {
      var pc, s' := s.threads[t], Step(s, t, ch).s;
      assert Scanning(s', s'.threads[t]) by {
        if InEmpty(pc) { EmptyScans(s, t); }
        else if pc.GetIndex? || pc.GetProbe? || pc.GetReread? { GetScans(s, t); }
        else { OtherScans(s, t, ch); }
      }
      forall u: nat | u < |s'.threads|
        ensures Scanning(s', s'.threads[u])
      {
        assert Scanning(s, s.threads[u]);
      }
    }
  }

  lemma {:induction false} RunScans(n: nat, items: set<Item>, next: Heap, turns: seq<Turn>)
    ensures AllScanning(Run(Init(n, items, next), turns))
  {
    if turns != [] {
      var last := turns[|turns| - 1];
      RunScans(n, items, next, turns[..|turns| - 1]);
      StepScans(Run(Init(n, items, next), turns[..|turns| - 1]), last.t, last.ch);
    }
  }

  /** The four slots of the buffer have each been probed in the last four probes of `trail`, all
      under position value `index`. */
  ghost predicate FullLap(trail: seq<Probe>, index: Pos) {
    && |trail| >= BUFFER_SIZE
    && (forall k :: |trail| - BUFFER_SIZE <= k < |trail| ==> trail[k].position == index)
    && (forall c: nat :: c < BUFFER_SIZE ==> JustProbed(trail, c))
  }

  ghost predicate JustProbed(trail: seq<Probe>, c: nat)
    requires |trail| >= BUFFER_SIZE
  {
    exists k :: |trail| - BUFFER_SIZE <= k < |trail| && trail[k].slot == c
  }

  lemma CleanLapIsFull(trail: seq<Probe>, index: Pos)
    requires CleanLap(trail, index, BUFFER_SIZE)
    ensures FullLap(trail, index)
  {
    forall c: nat | c < BUFFER_SIZE
      ensures JustProbed(trail, c)
    {
      var j := (c + BUFFER_SIZE - index % BUFFER_SIZE) % BUFFER_SIZE;
      var k := |trail| - BUFFER_SIZE + j;
      assert SlotOf(index, j) == c;
      assert trail[k].slot == c;
    }
  }

  /** In every run: a scan of `get_item` during which the get position was changed `m` times by
      anybody makes at most 4(m + 1) probes, whatever the schedule.  The probe that a thread is about to
      make counts, whether it succeeds or not. */
  lemma GetScanBounded(n: nat, items: set<Item>, next: Heap, turns: seq<Turn>, t: nat)
    requires var s := Run(Init(n, items, next), turns);
      t < |s.threads| && (s.threads[t].GetProbe? || s.threads[t].GetReread?)
    ensures var s := Run(Init(n, items, next), turns);
      var sc, coming := s.threads[t].sc, if s.threads[t].GetProbe? then 1 else 0;
      sc.base <= s.getMoves && |sc.trail| + coming <= BUFFER_SIZE * (s.getMoves - sc.base + 1)
  {
    RunScans(n, items, next, turns);
    var s := Run(Init(n, items, next), turns);
    assert Scanning(s, s.threads[t]);
  }

  lemma LapWhenEmpty(s: State, t: nat)
    requires t < |s.threads| && s.threads[t].GetReread? && Scanning(s, s.threads[t])
    requires GetStep(s, t).s.threads[t] == PopList(0)
    ensures FullLap(s.threads[t].sc.trail, s.getPos)
  {
    var sc := s.threads[t].sc;
    assert sc.Reread(s.getPos, s.getMoves).i == BUFFER_SIZE;
    CleanLapIsFull(sc.trail, s.getPos);
  }

  /** In every run: when the buffer scan of `get_item` gives up, its last four probes found each of
      the four slots empty under one position value, and that is the position's value now. */
  lemma GetScanAnswer(n: nat, items: set<Item>, next: Heap, turns: seq<Turn>, t: nat)
    requires var s := Run(Init(n, items, next), turns); t < |s.threads| && s.threads[t].GetReread?
    ensures var s := Run(Init(n, items, next), turns);
      GetStep(s, t).s.threads[t] == PopList(0) ==> FullLap(s.threads[t].sc.trail, s.getPos)
  {
    RunScans(n, items, next, turns);
    var s := Run(Init(n, items, next), turns);
    if GetStep(s, t).s.threads[t] == PopList(0) {
      assert Scanning(s, s.threads[t]);
      LapWhenEmpty(s, t);
    }
  }

  /** The same bound for `store_in_empty_slot` and the put position. */
  lemma PutScanBounded(n: nat, items: set<Item>, next: Heap, turns: seq<Turn>, t: nat)
    requires var s := Run(Init(n, items, next), turns);
      t < |s.threads| && (s.threads[t].EmptyProbe? || s.threads[t].EmptyReread?)
    ensures var s := Run(Init(n, items, next), turns);
      var sc, coming := s.threads[t].sc, if s.threads[t].EmptyProbe? then 1 else 0;
      sc.base <= s.putMoves && |sc.trail| + coming <= BUFFER_SIZE * (s.putMoves - sc.base + 1)
  {
    RunScans(n, items, next, turns);
    var s := Run(Init(n, items, next), turns);
    assert Scanning(s, s.threads[t]);
  }

  lemma LapWhenFull(s: State, t: nat)
    requires t < |s.threads| && s.threads[t].EmptyReread? && Scanning(s, s.threads[t])
    requires !EmptyStep(s, t).s.threads[t].EmptyProbe?
    ensures FullLap(s.threads[t].sc.trail, s.putPos)
  {
    var sc := s.threads[t].sc;
    assert sc.Reread(s.putPos, s.putMoves).i == BUFFER_SIZE;
    CleanLapIsFull(sc.trail, s.putPos);
  }

  /** When `store_in_empty_slot` answers "full", its last four probes found each of the four slots
      occupied under the position value that still holds. */
  lemma PutScanAnswer(n: nat, items: set<Item>, next: Heap, turns: seq<Turn>, t: nat)
    requires var s := Run(Init(n, items, next), turns); t < |s.threads| && s.threads[t].EmptyReread?
    ensures var s := Run(Init(n, items, next), turns);
      !EmptyStep(s, t).s.threads[t].EmptyProbe? ==> FullLap(s.threads[t].sc.trail, s.putPos)
  {
    RunScans(n, items, next, turns);
    var s := Run(Init(n, items, next), turns);
    if !EmptyStep(s, t).s.threads[t].EmptyProbe? {
      assert Scanning(s, s.threads[t]);
      LapWhenFull(s, t);
    }
  }
}
