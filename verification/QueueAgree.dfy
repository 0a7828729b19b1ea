/** The two models of the run queue agree: when only one thread moves, however the other calls were left
    and whatever they hold, a call in `QueueMachine` does exactly what `QueueSpec` says. */
module QueueAgree {
  import opened Basics
  import opened Links
  import opened Scan
  import opened BufferSpec
  import opened QueueSpec
  import opened QueueMachine
  import opened QueueInvariant
  import opened QueueSteps
  import opened QueueBag
  import opened QueueSolo

  // ---- get_item on the buffer

  lemma GetHits(from: State, at: Config, t: nat, q: Queue<Item>) returns (at': Config)
    requires Stands(from, at, t, NOTHING, q) && at.s.threads[t].GetProbe? && at.s.threads[t].sc.index == q.buf.get
    requires q.buf.lists[SlotOf(q.buf.get, at.s.threads[t].sc.i)] != []
    ensures Found(from, at', t, at.s.threads[t].sc.i, q)
  {
    var c := SlotOf(q.buf.get, at.s.threads[t].sc.i);
    HeadOf(at, c);
    at' := Turn1(from, at, t, Go);
    assert at'.a.lists == at.a.lists[c := []];
    Slices(at.a.lists, c, []);
  }

  lemma ProbeMisses(from: State, at: Config, t: nat, q: Queue<Item>) returns (at': Config)
    requires Stands(from, at, t, NOTHING, q) && at.s.threads[t].GetProbe? && at.s.threads[t].sc.index == q.buf.get
    requires q.buf.lists[SlotOf(q.buf.get, at.s.threads[t].sc.i)] == []
    ensures Stands(from, at', t, NOTHING, q) && at'.s.threads[t] == GetReread(at.s.threads[t].sc.Probed())
  {
    HeadOf(at, SlotOf(q.buf.get, at.s.threads[t].sc.i));
    at' := Turn1(from, at, t, Go);
  }

  lemma RereadTurn(from: State, at: Config, t: nat, q: Queue<Item>) returns (at': Config)
    requires Stands(from, at, t, NOTHING, q) && at.s.threads[t].GetReread? && at.s.threads[t].sc.index == q.buf.get
    ensures Stands(from, at', t, NOTHING, q)
    ensures var pc, pc' := at.s.threads[t], at'.s.threads[t];
      if pc.sc.i + 1 < BUFFER_SIZE then pc'.GetProbe? && pc'.sc.index == q.buf.get && pc'.sc.i == pc.sc.i + 1
      else pc' == PopList(0)
  {
    at' := Turn1(from, at, t, Go);
  }

  lemma GetMisses(from: State, at: Config, t: nat, q: Queue<Item>) returns (at': Config)
    requires Stands(from, at, t, NOTHING, q) && at.s.threads[t].GetProbe? && at.s.threads[t].sc.index == q.buf.get
    requires q.buf.lists[SlotOf(q.buf.get, at.s.threads[t].sc.i)] == []
    ensures Stands(from, at', t, NOTHING, q)
    ensures var pc, pc' := at.s.threads[t], at'.s.threads[t];
      if pc.sc.i + 1 < BUFFER_SIZE then pc'.GetProbe? && pc'.sc.index == q.buf.get && pc'.sc.i == pc.sc.i + 1
      else pc' == PopList(0)
  {
    at' := ProbeMisses(from, at, t, q);
    at' := RereadTurn(from, at', t, q);
  }

  /** The thread has taken the list of the slot `j` places after the get position. */
  ghost predicate Found(from: State, at: Config, t: nat, j: nat, q: Queue<Item>)
    requires WellFormed(q)
  {
    var c := SlotOf(q.buf.get, j);
    var l := q.buf.lists[c];
    l != [] && Stands(from, at, t, Own([], l), q.(buf := q.buf.(lists := q.buf.lists[c := []])))
    && at.s.threads[t] == GetAdvance(l[0], j)
  }

  /** The scan ended `j` slots after the get position, or found all slots empty. */
  ghost predicate Sought(from: State, at: Config, t: nat, j: nat, q: Queue<Item>)
    requires WellFormed(q)
  {
    if j >= BUFFER_SIZE then Stands(from, at, t, NOTHING, q) && at.s.threads[t] == PopList(0)
    else Found(from, at, t, j, q)
  }

  /** The scan: it ends at the first occupied slot, if there is one. */
  lemma {:induction false} GetScans(from: State, at: Config, t: nat, q: Queue<Item>)
    returns (at': Config)
    requires Stands(from, at, t, NOTHING, q) && at.s.threads[t].GetProbe? && at.s.threads[t].sc.index == q.buf.get
    requires at.s.threads[t].sc.i < BUFFER_SIZE
    ensures Sought(from, at', t, FirstFull(q.buf.lists, q.buf.get, at.s.threads[t].sc.i), q)
    decreases BUFFER_SIZE - at.s.threads[t].sc.i
  {
    var i := at.s.threads[t].sc.i;
    var j := FirstFull(q.buf.lists, q.buf.get, i);
    if q.buf.lists[SlotOf(q.buf.get, i)] != [] {
      assert j == i;
      at' := GetHits(from, at, t, q);
    } else {
      assert j == FirstFull(q.buf.lists, q.buf.get, i + 1);
      at' := GetMisses(from, at, t, q);
      if i + 1 < BUFFER_SIZE {
        at' := GetScans(from, at', t, q);
      }
    }
    assert Sought(from, at', t, j, q);
  }

  lemma AdvanceStep(s: State, a: Layout, t: nat)
    requires Sized(s, a) && t < |s.threads| && s.threads[t].GetAdvance?
    ensures var pc, r := s.threads[t], Step(s, t, Go).s;
      r == Moved(s.(getPos := Wrap(s.getPos + pc.i + 1), getMoves := s.getMoves + 1), t, GetTail(pc.item))
    ensures StepLayout(s, a, t, Go) == a
  {
  }

  lemma AdvanceTurn(from: State, at: Config, t: nat, own: Own, q: Queue<Item>) returns (at': Config)
    requires Stands(from, at, t, own, q) && at.s.threads[t].GetAdvance?
    ensures var pc := at.s.threads[t];
      && Stands(from, at', t, own, q.(buf := q.buf.(get := Wrap(q.buf.get + pc.i + 1))))
      && at'.s.threads[t] == GetTail(pc.item)
  {
    AdvanceStep(at.s, at.a, t);
    at' := Turn1(from, at, t, Go);
  }

  lemma TailTurn(from: State, at: Config, t: nat, l: seq<Item>, q: Queue<Item>) returns (at': Config)
    requires l != [] && Stands(from, at, t, Own([], l), q) && at.s.threads[t] == GetTail(l[0])
    ensures Stands(from, at', t, Own([l[0]], l[1..]), q)
    ensures at'.s.threads[t] == if |l| == 1 then Pc.Answer(Ref(l[0])) else Tail(l[0], 0, Ref(l[1]))
  {
    Unfold(at);
    assert ThreadOk(at.s, at.a, t);
    assert Next(at.s.next, l[0]) == At(l, 1, Null);
    at' := Turn1(from, at, t, Go);
  }

  lemma SpreadTurns(from: State, at: Config, t: nat, item: Item, m: seq<Item>, q: Queue<Item>)
    returns (at': Config)
    requires m != [] && Stands(from, at, t, Own([item], m), q) && at.s.threads[t] == Tail(item, 0, Ref(m[0]))
    ensures Stands(from, at', t, Own([item], []), q.(buf := Spread(q.buf, m, 0)))
    ensures at'.s.threads[t] == Pc.Answer(Ref(item))
  {
    at' := TailTurns(from, at, t, item, 0, m, q);
    at' := Turn1(from, at', t, Go);
  }

  /** What `get_item` does with a list of the buffer: its head is the answer, the rest is spread. */
  lemma ServeTurns(from: State, at: Config, t: nat, l: seq<Item>, q: Queue<Item>) returns (at': Config)
    requires l != [] && Stands(from, at, t, Own([], l), q) && at.s.threads[t] == GetTail(l[0])
    ensures Stands(from, at', t, Own([l[0]], []), if |l| == 1 then q else q.(buf := Spread(q.buf, l[1..], 0)))
    ensures at'.s.threads[t] == Pc.Answer(Ref(l[0]))
  {
    at' := TailTurn(from, at, t, l, q);
    if |l| > 1 {
      at' := SpreadTurns(from, at', t, l[0], l[1..], q);
    }
  }

  // ---- get_item on the stacks

  lemma PopStep(s: State, a: Layout, t: nat, k: nat)
    requires Sized(s, a) && t < |s.threads| && s.threads[t] == PopList(k) && k < STACKS
        && s.cells[BUFFER_SIZE + k] == Null
    ensures Step(s, t, Go).s == Moved(s, t, PopList(k + 1)) && StepLayout(s, a, t, Go) == a
  {
  }

  lemma PopMisses(from: State, at: Config, t: nat, k: nat, q: Queue<Item>) returns (at': Config)
    requires k < STACKS && Stands(from, at, t, NOTHING, q) && at.s.threads[t] == PopList(k) && q.stacks[k] == []
    ensures Stands(from, at', t, NOTHING, q) && at'.s.threads[t] == PopList(k + 1)
  {
    var c: Cell := BUFFER_SIZE + k;
    HeadOf(at, c);
    assert at.a.lists[c] == [];
    PopStep(at.s, at.a, t, k);
    at' := Turn1(from, at, t, Go);
  }

  lemma PopHits(from: State, at: Config, t: nat, k: nat, q: Queue<Item>) returns (at': Config)
    requires k < STACKS && Stands(from, at, t, NOTHING, q) && at.s.threads[t] == PopList(k) && q.stacks[k] != []
    ensures Stands(from, at', t, Own([], q.stacks[k]), q.(stacks := q.stacks[k := []]))
    ensures at'.s.threads[t] == Pc.Split(q.stacks[k][0])
  {
    var c: Cell := BUFFER_SIZE + k;
    HeadOf(at, c);
    PopHitStep(at.s, at.a, t, k);
    at' := Turn1(from, at, t, Go);
    PutSlices(at.a.lists, c, []);
  }

  lemma PopHitStep(s: State, a: Layout, t: nat, k: nat)
    requires Sized(s, a) && t < |s.threads| && s.threads[t] == PopList(k) && k < STACKS
    requires s.cells[BUFFER_SIZE + k].Ref? && a.own[t].hold == []
    ensures var x, r, b := s.cells[BUFFER_SIZE + k].item, Step(s, t, Go).s, StepLayout(s, a, t, Go);
      && r.threads == s.threads[t := Pc.Split(x)] && r.getPos == s.getPos && r.putPos == s.putPos
      && b.lists == a.lists[BUFFER_SIZE + k := []] && b.own[t] == Own([], a.lists[BUFFER_SIZE + k])
  {
  }

  lemma {:induction false} PopScans(from: State, at: Config, t: nat, k: nat, q: Queue<Item>)
    returns (at': Config)
    requires k <= STACKS && Stands(from, at, t, NOTHING, q) && at.s.threads[t] == PopList(k)
    ensures var j := FirstStack(q.stacks, k);
      if j == STACKS then Stands(from, at', t, NOTHING, q) && at'.s.threads[t] == Pc.Answer(Null)
      else
        && Stands(from, at', t, Own([], q.stacks[j]), q.(stacks := q.stacks[j := []]))
        && at'.s.threads[t] == Pc.Split(q.stacks[j][0])
    decreases STACKS - k
  {
    if k == STACKS {
      at' := Turn1(from, at, t, Go);
    } else if q.stacks[k] != [] {
      at' := PopHits(from, at, t, k, q);
    } else {
      at' := PopMisses(from, at, t, k, q);
      at' := PopScans(from, at', t, k + 1, q);
    }
  }

  lemma SplitTurns(from: State, at: Config, t: nat, l: seq<Item>, q: Queue<Item>) returns (at': Config)
    requires l != [] && Stands(from, at, t, Own([], l), q) && at.s.threads[t] == Pc.Split(l[0])
    ensures Stands(from, at', t, Own([l[0]], l[1..]), q)
    ensures at'.s.threads[t] == if |l| == 1 then Pc.Answer(Ref(l[0])) else EmptyIndex(l[0], Whole(l[1]))
  {
    at' := SplitTurn(from, at, t, l, q);
    at' := Turn1(from, at', t, Go);
  }

  lemma SplitTurn(from: State, at: Config, t: nat, l: seq<Item>, q: Queue<Item>) returns (at': Config)
    requires l != [] && Stands(from, at, t, Own([], l), q) && at.s.threads[t] == Pc.Split(l[0])
    ensures Stands(from, at', t, Own([l[0]], l[1..]), q) && at'.s.threads[t] == Unlink(l[0], At(l, 1, Null))
  {
    Unfold(at);
    assert ThreadOk(at.s, at.a, t);
    assert Next(at.s.next, l[0]) == At(l, 1, Null);
    at' := Turn1(from, at, t, Go);
  }

  /** What `get_item` does with a stack's list: its head is the answer, the rest goes to the buffer. */
  lemma RefillTurns(from: State, at: Config, t: nat, l: seq<Item>, q: Queue<Item>) returns (at': Config)
    requires l != [] && Stands(from, at, t, Own([], l), q) && at.s.threads[t] == Pc.Split(l[0])
    ensures Stands(from, at', t, Own([l[0]], []), if |l| == 1 then q else q.(buf := PutList(q.buf, l[1..])))
    ensures at'.s.threads[t] == Pc.Answer(Ref(l[0]))
  {
    at' := SplitTurns(from, at, t, l, q);
    if |l| > 1 {
      at' := EmptyTurns(from, at', t, Own([l[0]], l[1..]), q);
      if StoreEmpty(q.buf, l[1..]).None? {
        at' := OccTurns(from, at', t, l[1..], q);
      }
    }
  }

  // ---- whole calls

  lemma BeginGet(at: Config, t: nat) returns (at': Config)
    requires t < |at.s.threads| && at.s.threads[t] == Idle
    ensures Stands(at.s, at', t, NOTHING, QueueOf(at)) && at'.s.threads[t].GetProbe?
    ensures at'.s.threads[t].sc.index == at.s.getPos && at'.s.threads[t].sc.i == 0
  {
    Begins(at.s, t);
    Unfold(at);
    assert ThreadOk(at.s, at.a, t);
    at' := Turn1(at.s, at, t, CallGet);
    at' := Turn1(at.s, at', t, Go);
  }

  /** What `get_item` hands to its caller. */
  function AnswerOf(item: Option<Item>): Ptr {
    match item
    case None => Null
    case Some(x) => Ref(x)
  }

  lemma TakenMeans(b: Buf<Item>)
    requires Ok(b)
    ensures FirstFull(b.lists, b.get, 0) == BUFFER_SIZE <==> BufferSpec.Taken(b) == []
  {
    FirstFullMeans(b.lists, b.get, 0);
  }

  /** From the list found on. */
  lemma FoundTurns(from: State, at: Config, t: nat, j: nat, q: Queue<Item>) returns (at': Config)
    requires WellFormed(q) && j < BUFFER_SIZE && Found(from, at, t, j, q) && j == FirstFull(q.buf.lists, q.buf.get, 0)
    ensures BufferSpec.Taken(q.buf) != []
    ensures Stands(from, at', t, Own([BufferSpec.Taken(q.buf)[0]], []), q.(buf := AfterGet(q.buf)))
    ensures at'.s.threads[t] == Pc.Answer(Ref(BufferSpec.Taken(q.buf)[0]))
  {
    var l := BufferSpec.Taken(q.buf);
    var q1 := q.(buf := q.buf.(lists := q.buf.lists[SlotOf(q.buf.get, j) := []]));
    at' := AdvanceTurn(from, at, t, Own([], l), q1);
    at' := ServeTurns(from, at', t, l, q.(buf := Detached(q.buf)));
  }

  /** From the first probe on, if the buffer holds something ... */
  lemma BufferTurns(from: State, at: Config, t: nat, q: Queue<Item>) returns (at': Config)
    requires Stands(from, at, t, NOTHING, q) && at.s.threads[t].GetProbe? && at.s.threads[t].sc.index == q.buf.get
    requires at.s.threads[t].sc.i == 0 && BufferSpec.Taken(q.buf) != []
    ensures Stands(from, at', t, Own([BufferSpec.Taken(q.buf)[0]], []), q.(buf := AfterGet(q.buf)))
    ensures at'.s.threads[t] == Pc.Answer(Ref(BufferSpec.Taken(q.buf)[0]))
  {
    TakenMeans(q.buf);
    at' := GetScans(from, at, t, q);
    at' := FoundTurns(from, at', t, FirstFull(q.buf.lists, q.buf.get, 0), q);
  }

  /** From the first look at the stacks on. */
  lemma PopTurns(from: State, at: Config, t: nat, q: Queue<Item>) returns (at': Config)
    requires Stands(from, at, t, NOTHING, q) && at.s.threads[t] == PopList(0)
    requires WellFormed(q) && BufferSpec.Taken(q.buf) == []
    ensures Goes(from, t, at'.s) && t < |at'.s.threads|
    ensures QueueOf(at') == Get(q).q && at'.s.threads[t] == Pc.Answer(AnswerOf(Get(q).item))
  {
    at' := PopScans(from, at, t, 0, q);
    var k := FirstStack(q.stacks, 0);
    if k < STACKS {
      at' := RefillTurns(from, at', t, q.stacks[k], q.(stacks := q.stacks[k := []]));
    }
    GetPops(q);
  }

  /** What `Get` says when the buffer is empty. */
  lemma GetPops(q: Queue<Item>)
    requires WellFormed(q) && BufferSpec.Taken(q.buf) == []
    ensures var k := FirstStack(q.stacks, 0);
      if k == STACKS then Get(q).q == q && Get(q).item == None
      else
        var l, q1 := q.stacks[k], q.(stacks := q.stacks[k := []]);
        Get(q).q == (if |l| == 1 then q1 else q1.(buf := PutList(q1.buf, l[1..]))) && Get(q).item == Some(l[0])
  {
  }

  /** ... and if it does not. */
  lemma StackTurns(from: State, at: Config, t: nat, q: Queue<Item>) returns (at': Config)
    requires Stands(from, at, t, NOTHING, q) && at.s.threads[t].GetProbe? && at.s.threads[t].sc.index == q.buf.get
    requires at.s.threads[t].sc.i == 0 && BufferSpec.Taken(q.buf) == []
    ensures Goes(from, t, at'.s) && t < |at'.s.threads|
    ensures QueueOf(at') == Get(q).q && at'.s.threads[t] == Pc.Answer(AnswerOf(Get(q).item))
  {
    TakenMeans(q.buf);
    at' := GetScans(from, at, t, q);
    at' := PopTurns(from, at', t, q);
  }

  /** A call of `get_item` by a thread that alone moves: answer and queue are those of `QueueSpec.Get`. */
  lemma SoloGet(at: Config, t: nat) returns (at': Config)
    requires t < |at.s.threads| && at.s.threads[t] == Idle
    ensures Goes(at.s, t, at'.s) && t < |at'.s.threads|
    ensures var r := Get(QueueOf(at)); QueueOf(at') == r.q && at'.s.threads[t] == Pc.Answer(AnswerOf(r.item))
  {
    var q := QueueOf(at);
    at' := BeginGet(at, t);
    if BufferSpec.Taken(q.buf) != [] {
      at' := BufferTurns(at.s, at', t, q);
    } else {
      at' := StackTurns(at.s, at', t, q);
    }
  }

  /** So it does not answer "empty" without cause: in a state in which no call is in progress, a thread that
      alone calls `get_item` gets null if and only if the bag is empty. */
  lemma SoloGetFinds(at: Config, t: nat) returns (at': Config)
    requires t < |at.s.threads| && forall u: nat :: u < |at.s.threads| ==> at.s.threads[u] == Idle
    ensures Goes(at.s, t, at'.s) && t < |at'.s.threads| && at'.s.threads[t].Answer?
    ensures at'.s.threads[t] == Pc.Answer(Null) <==> Bag(at.s) == {}
  {
    at' := SoloGet(at, t);
    GetTakesOne(QueueOf(at));
    Unfold(at);
    QuietBag(at.s, at.a);
    EmptyLists(at);
  }

  lemma EmptyLists(at: Config)
    requires (forall x :: x in Bag(at.s) <==> exists c: Cell :: x in at.a.lists[c])
    ensures Bag(at.s) == {} <==> QueueSpec.Stored(QueueOf(at)) == multiset{}
  {
    var q := QueueOf(at);
    NoContents(q.buf.lists);
    NoContents(q.stacks);
    forall c: Cell
      ensures at.a.lists[c] == if c < BUFFER_SIZE then q.buf.lists[c] else q.stacks[c - BUFFER_SIZE]
      ensures at.a.lists[c] != [] ==> Bag(at.s) != {}
    {
      if at.a.lists[c] != [] {
        assert at.a.lists[c][0] in Bag(at.s);
      }
    }
  }

  // ---- put_item

  lemma BeginPut(at: Config, t: nat, x: Item, prio: nat) returns (at': Config)
    requires t < |at.s.threads| && at.s.threads[t] == Idle && x in at.s.outside
    ensures Stands(at.s, at', t, Own([x], []), QueueOf(at))
    ensures at'.s.threads[t] == PutLoad(x, if prio == 0 then at.s.getPos % BUFFER_SIZE else StackCell(prio))
  {
    Begins(at.s, t);
    at' := Turn1(at.s, at, t, CallPut(x, prio));
    if prio == 0 {
      at' := Turn1(at.s, at', t, Go);
    }
  }

  /** Load, link, exchange. */
  lemma PushTurns(from: State, at: Config, t: nat, x: Item, c: Cell, q: Queue<Item>) returns (at': Config)
    requires Stands(from, at, t, Own([x], []), q) && at.s.threads[t] == PutLoad(x, c)
    ensures Goes(from, t, at'.s) && t < |at'.s.threads| && at'.s.threads[t] == Idle
    ensures at'.s.getPos == at.s.getPos && at'.s.putPos == at.s.putPos
        && at'.a.lists == at.a.lists[c := [x] + at.a.lists[c]]
  {
    at' := Turn1(from, at, t, Go);
    at' := Turn1(from, at', t, Go);
    at' := Turn1(from, at', t, Go);
  }

  /** A call of `put_item` by a thread that alone moves: the queue becomes that of `QueueSpec.Put`. */
  lemma SoloPut(at: Config, t: nat, x: Item, prio: nat) returns (at': Config)
    requires t < |at.s.threads| && at.s.threads[t] == Idle && x in at.s.outside
    ensures Goes(at.s, t, at'.s) && t < |at'.s.threads| && at'.s.threads[t] == Idle
    ensures QueueOf(at') == Put(QueueOf(at), x, prio)
  {
    var q := QueueOf(at);
    var c: Cell := if prio == 0 then at.s.getPos % BUFFER_SIZE else StackCell(prio);
    at' := BeginPut(at, t, x, prio);
    var at1 := at';
    at' := PushTurns(at.s, at1, t, x, c, q);
    PutSlices(at1.a.lists, c, [x] + at1.a.lists[c]);
  }

  lemma PutSlices(lists: seq<seq<Item>>, c: nat, l: seq<Item>)
    requires |lists| == CELLS && c < CELLS
    ensures c < BUFFER_SIZE ==> lists[c := l][..BUFFER_SIZE] == lists[..BUFFER_SIZE][c := l]
    ensures c < BUFFER_SIZE ==> lists[c := l][BUFFER_SIZE..] == lists[BUFFER_SIZE..]
    ensures c >= BUFFER_SIZE ==> lists[c := l][..BUFFER_SIZE] == lists[..BUFFER_SIZE]
    ensures c >= BUFFER_SIZE ==> lists[c := l][BUFFER_SIZE..] == lists[BUFFER_SIZE..][c - BUFFER_SIZE := l]
  {
  }
}
