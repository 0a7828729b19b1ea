/** One thread alone in `QueueMachine`, however the other calls were left and whatever they hold: what the
    storing parts of the code do, step by step, is what `BufferSpec` says. */
module QueueSolo {
  import opened Links
  import opened Scan
  import opened BufferSpec
  import opened QueueSpec
  import opened QueueMachine
  import opened QueueInvariant
  import opened QueueSteps
  import opened QueueTheorems

  // ---- runs of one thread

  datatype Pair = Pair(s: State, a: Layout)

  ghost predicate Folded(p: Pair, k: nat) {
    Accounts(p.s, p.a)
  }

  /** A state with its account.  What the account says stays folded until `Unfold` is called. */
  type Config = p: Pair |
      && Sized(p.s, p.a)
      && forall k {:trigger Folded(p, k)} :: 0 <= k < 1 ==> Folded(p, k)
    ghost witness Nothing()

  lemma Unfold(at: Config)
    ensures Accounts(at.s, at.a)
  {
    assert Folded(at, 0);
  }

  ghost function Nothing(): (p: Pair)
    ensures Accounts(p.s, p.a)
  {
    var items: set<Item> := {};
    InitAccounts(0, items, map[]);
    Pair(Init(0, items, map[]), Layout(map x | x in items :: Outside, seq(CELLS, _ => []), seq(0, _ => NOTHING)))
  }

  ghost predicate Only(turns: seq<Turn>, t: nat) {
    forall i :: 0 <= i < |turns| ==> turns[i].t == t
  }

  /** Thread `t` alone leads from `s` to `s'`. */
  ghost predicate Goes(s: State, t: nat, s': State) {
    exists turns :: Only(turns, t) && Run(s, turns) == s'
  }

  lemma Begins(s: State, t: nat)
    ensures Goes(s, t, s)
  {
    assert Only([], t) && Run(s, []) == s;
  }

  /** The queue as a value: positions from the state, lists from the account. */
  ghost function BufOf(at: Config): Buf<Item> {
    Buf(at.s.getPos, at.s.putPos, at.a.lists[..BUFFER_SIZE])
  }

  ghost function QueueOf(at: Config): (q: Queue<Item>)
    ensures WellFormed(q)
  {
    Queue(BufOf(at), at.a.lists[BUFFER_SIZE..])
  }

  /** What thread `t` alone reached from `from`. */
  ghost predicate Stands(from: State, at: Config, t: nat, own: Own, q: Queue<Item>) {
    Goes(from, t, at.s) && t < |at.s.threads| && at.a.own[t] == own && QueueOf(at) == q
  }

  /** One more turn of thread `t`. */
  lemma Turn1(from: State, at: Config, t: nat, ch: Choice) returns (at': Config)
    requires Goes(from, t, at.s) && t < |at.s.threads|
    ensures at'.s == Step(at.s, t, ch).s && at'.a == StepLayout(at.s, at.a, t, ch)
    ensures Goes(from, t, at'.s) && t < |at'.s.threads|
  {
    var turns :| Only(turns, t) && Run(from, turns) == at.s;
    Unfold(at);
    StepKeeps(at.s, at.a, t, ch);
    at' := Pair(Step(at.s, t, ch).s, StepLayout(at.s, at.a, t, ch));
    var more := turns + [QueueMachine.Turn(t, ch)];
    assert more[..|more| - 1] == turns;
    assert Only(more, t) && Run(from, more) == at'.s;
  }

  /** The head of a cell is the head of its list. */
  lemma HeadOf(at: Config, c: Cell)
    ensures at.s.cells[c] == At(at.a.lists[c], 0, Null)
  {
    Unfold(at);
    assert CellOk(at.s, at.a, c);
  }

  /** Replacing the list of a slot. */
  lemma Slices(lists: seq<seq<Item>>, c: nat, l: seq<Item>)
    requires |lists| == CELLS && c < BUFFER_SIZE
    ensures lists[c := l][..BUFFER_SIZE] == lists[..BUFFER_SIZE][c := l]
    ensures lists[c := l][BUFFER_SIZE..] == lists[BUFFER_SIZE..]
  {
  }

  // ---- store_in_occupied_slot

  lemma OccStarts(from: State, at: Config, t: nat, own: Own, q: Queue<Item>) returns (at': Config)
    requires Stands(from, at, t, own, q) && at.s.threads[t].OccIndex?
    ensures Stands(from, at', t, own, q.(buf := q.buf.(put := Wrap(q.buf.put + 1))))
    ensures var pc := at.s.threads[t]; at'.s.threads[t] == OccSwap(pc.item, pc.from, pc.list, q.buf.put % BUFFER_SIZE)
  {
    at' := Turn1(from, at, t, Go);
  }

  lemma OccSwaps(from: State, at: Config, t: nat, m: seq<Item>, q: Queue<Item>) returns (at': Config)
    requires at.s.threads != [] && t < |at.s.threads| && at.s.threads[t].OccSwap? && at.s.threads[t].c < BUFFER_SIZE
    requires Stands(from, at, t, Own([at.s.threads[t].item], m), q)
    ensures var pc := at.s.threads[t];
      var l := q.buf.lists[pc.c];
      && Stands(from, at', t, Own([pc.item], l), q.(buf := q.buf.(lists := q.buf.lists[pc.c := m])))
      && at'.s.threads[t] == if l == [] then After(pc.from, pc.item)
                          else OccFind(pc.item, pc.from, pc.c, pc.list, l[0], l[0])
  {
    var pc := at.s.threads[t];
    HeadOf(at, pc.c);
    at' := Turn1(from, at, t, Go);
    assert at'.a.lists == at.a.lists[pc.c := m];
    Slices(at.a.lists, pc.c, m);
  }

  lemma FindTurn(from: State, at: Config, t: nat, own: Own, q: Queue<Item>, k: nat) returns (at': Config)
    requires Stands(from, at, t, own, q) && at.s.threads[t].OccFind?
    requires k < |own.tail| && own.tail[k] == at.s.threads[t].last
    ensures Stands(from, at', t, own, q)
    ensures var pc := at.s.threads[t];
      at'.s.threads[t] == if k + 1 < |own.tail|
                          then OccFind(pc.item, pc.from, pc.c, pc.expected, pc.head, own.tail[k + 1])
                          else OccLink(pc.item, pc.from, pc.c, pc.expected, pc.head, own.tail[k])
  {
    Unfold(at);
    assert ThreadOk(at.s, at.a, t);
    assert Next(at.s.next, own.tail[k]) == At(own.tail, k + 1, Null);
    at' := Turn1(from, at, t, Go);
  }

  /** The walk to the last task of the displaced list. */
  lemma {:induction false} FindTurns(from: State, at: Config, t: nat, own: Own, q: Queue<Item>, k: nat)
    returns (at': Config)
    requires Stands(from, at, t, own, q) && at.s.threads[t].OccFind?
    requires k < |own.tail| && own.tail[k] == at.s.threads[t].last
    ensures Stands(from, at', t, own, q)
    ensures var pc := at.s.threads[t];
      at'.s.threads[t] == OccLink(pc.item, pc.from, pc.c, pc.expected, pc.head, own.tail[|own.tail| - 1])
    decreases |own.tail| - k
  {
    at' := FindTurn(from, at, t, own, q, k);
    if k + 1 < |own.tail| {
      at' := FindTurns(from, at', t, own, q, k + 1);
    }
  }

  /** The displaced list goes back in front of the new one. */
  lemma SplicesTurns(from: State, at: Config, t: nat, m: seq<Item>, q: Queue<Item>) returns (at': Config)
    requires t < |at.s.threads| && at.s.threads[t].OccLink? && at.s.threads[t].c < BUFFER_SIZE
    requires at.s.threads[t].expected == At(m, 0, Null) && |at.a.own| > t
    requires Stands(from, at, t, at.a.own[t], q) && q.buf.lists[at.s.threads[t].c] == m
    ensures var pc := at.s.threads[t];
      && Stands(from, at', t, Own([pc.item], []), q.(buf := q.buf.(lists := q.buf.lists[pc.c := at.a.own[t].tail + m])))
      && at'.s.threads[t] == After(pc.from, pc.item)
  {
    at' := LinkTurn(from, at, t);
    at' := SpliceTurn(from, at', t, m, q);
  }

  lemma LinkTurn(from: State, at: Config, t: nat) returns (at': Config)
    requires Goes(from, t, at.s) && t < |at.s.threads| && at.s.threads[t].OccLink?
    ensures Goes(from, t, at'.s) && at'.a == at.a && QueueOf(at') == QueueOf(at) && t < |at'.s.threads|
    ensures var pc := at.s.threads[t];
      at'.s.threads[t] == OccCas(pc.item, pc.from, pc.c, pc.expected, pc.head, pc.last)
  {
    at' := Turn1(from, at, t, Go);
  }

  lemma SpliceTurn(from: State, at: Config, t: nat, m: seq<Item>, q: Queue<Item>) returns (at': Config)
    requires t < |at.s.threads| && at.s.threads[t].OccCas? && at.s.threads[t].c < BUFFER_SIZE
    requires at.s.threads[t].expected == At(m, 0, Null) && |at.a.own| > t
    requires Stands(from, at, t, at.a.own[t], q) && q.buf.lists[at.s.threads[t].c] == m
    ensures var pc := at.s.threads[t];
      && Stands(from, at', t, Own([pc.item], []), q.(buf := q.buf.(lists := q.buf.lists[pc.c := at.a.own[t].tail + m])))
      && at'.s.threads[t] == After(pc.from, pc.item)
  {
    var pc := at.s.threads[t];
    HeadOf(at, pc.c);
    at' := Turn1(from, at, t, Go);
    var l := at.a.own[t].tail + m;
    assert at'.a.lists == at.a.lists[pc.c := l];
    Slices(at.a.lists, pc.c, l);
  }

  /** From the exchange on. */
  lemma OccRest(from: State, at: Config, t: nat, m: seq<Item>, q: Queue<Item>) returns (at': Config)
    requires t < |at.s.threads| && at.s.threads[t].OccSwap? && at.s.threads[t].c < BUFFER_SIZE
    requires at.s.threads[t].list == At(m, 0, Null) && Stands(from, at, t, Own([at.s.threads[t].item], m), q)
    ensures var pc := at.s.threads[t];
      && Stands(from, at', t, Own([pc.item], []),
          q.(buf := q.buf.(lists := q.buf.lists[pc.c := q.buf.lists[pc.c] + m])))
      && at'.s.threads[t] == After(pc.from, pc.item)
  {
    var pc := at.s.threads[t];
    var l := q.buf.lists[pc.c];
    at' := OccSwaps(from, at, t, m, q);
    if l == [] {
      assert l + m == m;
    } else {
      var q2 := q.(buf := q.buf.(lists := q.buf.lists[pc.c := m]));
      at' := FindTurns(from, at', t, Own([pc.item], l), q2, 0);
      at' := SplicesTurns(from, at', t, m, q2);
      assert q2.buf.lists[pc.c := l + m] == q.buf.lists[pc.c := l + m];
    }
  }

  /** All of `store_in_occupied_slot`. */
  lemma OccTurns(from: State, at: Config, t: nat, m: seq<Item>, q: Queue<Item>) returns (at': Config)
    requires t < |at.s.threads| && at.s.threads[t].OccIndex? && at.s.threads[t].list == At(m, 0, Null)
    requires Stands(from, at, t, Own([at.s.threads[t].item], m), q)
    ensures var pc := at.s.threads[t];
      && Stands(from, at', t, Own([pc.item], []), q.(buf := StoreOccupied(q.buf, m)))
      && at'.s.threads[t] == After(pc.from, pc.item)
  {
    at' := OccStarts(from, at, t, Own([at.s.threads[t].item], m), q);
    at' := OccRest(from, at', t, m, q.(buf := q.buf.(put := Wrap(q.buf.put + 1))));
  }

  // ---- store_in_empty_slot

  /** What an insertion into an empty slot puts there, and what stays private. */
  ghost function Content(job: Job, own: Own): seq<Item> {
    match job
    case Single(_, x, _) => [x]
    case Whole(_) => own.tail
  }

  ghost function Left(item: Item, job: Job, own: Own): Own {
    match job
    case Single(_, _, _) => Own([item], own.tail)
    case Whole(_) => Own([item], [])
  }

  lemma EmptyStarts(from: State, at: Config, t: nat, own: Own, q: Queue<Item>) returns (at': Config)
    requires Stands(from, at, t, own, q) && at.s.threads[t].EmptyIndex?
    ensures Stands(from, at', t, own, q) && at'.s.threads[t].EmptyProbe?
    ensures var pc, pc' := at.s.threads[t], at'.s.threads[t];
      pc'.item == pc.item && pc'.job == pc.job && pc'.sc.index == q.buf.put && pc'.sc.i == 0
  {
    at' := Turn1(from, at, t, Go);
  }

  /** The queue with `l` in the slot `i` places after the put position. */
  ghost function WithSlot(q: Queue<Item>, i: nat, l: seq<Item>): Queue<Item>
    requires WellFormed(q)
  {
    q.(buf := q.buf.(lists := q.buf.lists[SlotOf(q.buf.put, i) := l]))
  }

  /** The queue with the put position `i + 1` places further. */
  ghost function Advanced1(q: Queue<Item>, i: nat): Queue<Item> {
    q.(buf := q.buf.(put := Wrap(q.buf.put + i + 1)))
  }

  /** A probe that finds an empty slot. */
  lemma EmptyHits(from: State, at: Config, t: nat, own: Own, q: Queue<Item>) returns (at': Config)
    requires Stands(from, at, t, own, q) && at.s.threads[t].EmptyProbe? && at.s.threads[t].sc.index == q.buf.put
    requires q.buf.lists[SlotOf(q.buf.put, at.s.threads[t].sc.i)] == []
    ensures var pc := at.s.threads[t];
      && Stands(from, at', t, Left(pc.item, pc.job, own), WithSlot(q, pc.sc.i, Content(pc.job, own)))
      && at'.s.threads[t] == EmptyAdvance(pc.item, pc.job, pc.sc.i)
  {
    var pc := at.s.threads[t];
    var c, l := SlotOf(q.buf.put, pc.sc.i), Content(pc.job, own);
    HeadOf(at, c);
    at' := Turn1(from, at, t, Go);
    assert at'.a.lists == at.a.lists[c := l];
    Slices(at.a.lists, c, l);
  }

  lemma EmptyAdvanceStep(s: State, a: Layout, t: nat)
    requires Sized(s, a) && t < |s.threads| && s.threads[t].EmptyAdvance?
    ensures var pc, r := s.threads[t], Step(s, t, Go).s;
      r == Moved(s.(putPos := Wrap(s.putPos + pc.i + 1), putMoves := s.putMoves + 1), t,
          QueueMachine.Stored(pc.item, pc.job))
    ensures StepLayout(s, a, t, Go) == a
  {
  }

  lemma EmptyAdvances(from: State, at: Config, t: nat, own: Own, q: Queue<Item>) returns (at': Config)
    requires Stands(from, at, t, own, q) && at.s.threads[t].EmptyAdvance?
    ensures var pc := at.s.threads[t];
      Stands(from, at', t, own, Advanced1(q, pc.i)) && at'.s.threads[t] == QueueMachine.Stored(pc.item, pc.job)
  {
    EmptyAdvanceStep(at.s, at.a, t);
    at' := Turn1(from, at, t, Go);
  }

  /** A probe that finds an occupied slot ... */
  lemma EmptyProbes(from: State, at: Config, t: nat, own: Own, q: Queue<Item>) returns (at': Config)
    requires Stands(from, at, t, own, q) && at.s.threads[t].EmptyProbe? && at.s.threads[t].sc.index == q.buf.put
    requires q.buf.lists[SlotOf(q.buf.put, at.s.threads[t].sc.i)] != []
    ensures Stands(from, at', t, own, q)
    ensures var pc := at.s.threads[t]; at'.s.threads[t] == EmptyReread(pc.item, pc.job, pc.sc.Probed())
  {
    HeadOf(at, SlotOf(q.buf.put, at.s.threads[t].sc.i));
    at' := Turn1(from, at, t, Go);
    assert at'.a == at.a;
  }

  /** ... and the re-read after it. */
  lemma EmptyRereads(from: State, at: Config, t: nat, own: Own, q: Queue<Item>) returns (at': Config)
    requires Stands(from, at, t, own, q) && at.s.threads[t].EmptyReread? && at.s.threads[t].sc.index == q.buf.put
    ensures Stands(from, at', t, own, q)
    ensures var pc, pc' := at.s.threads[t], at'.s.threads[t];
      if pc.sc.i + 1 < BUFFER_SIZE
      then pc'.EmptyProbe? && pc'.item == pc.item && pc'.job == pc.job && pc'.sc.index == q.buf.put
          && pc'.sc.i == pc.sc.i + 1
      else pc' == Full(pc.item, pc.job)
  {
    at' := Turn1(from, at, t, Go);
    assert at'.a == at.a;
  }

  /** About to probe the slot `i` places after the put position. */
  ghost predicate Probing(from: State, at: Config, t: nat, i: nat, item: Item, job: Job, own: Own, q: Queue<Item>) {
    && Stands(from, at, t, own, q) && at.s.threads[t].EmptyProbe?
    && at.s.threads[t].item == item && at.s.threads[t].job == job
    && at.s.threads[t].sc.index == q.buf.put && at.s.threads[t].sc.i == i
  }

  /** The scan ended `j` slots after the put position, or found all slots occupied. */
  ghost predicate Scanned(from: State, at: Config, t: nat, j: nat, item: Item, job: Job, own: Own, q: Queue<Item>)
    requires WellFormed(q)
  {
    if j >= BUFFER_SIZE then Stands(from, at, t, own, q) && at.s.threads[t] == Full(item, job)
    else Stands(from, at, t, Left(item, job, own), Advanced1(WithSlot(q, j, Content(job, own)), j))
         && at.s.threads[t] == QueueMachine.Stored(item, job)
  }

  lemma EmptyMisses(from: State, at: Config, t: nat, i: nat, item: Item, job: Job, own: Own, q: Queue<Item>)
    returns (at': Config)
    requires WellFormed(q) && i < BUFFER_SIZE && Probing(from, at, t, i, item, job, own, q)
    requires q.buf.lists[SlotOf(q.buf.put, i)] != []
    ensures if i + 1 < BUFFER_SIZE then Probing(from, at', t, i + 1, item, job, own, q)
            else Scanned(from, at', t, BUFFER_SIZE, item, job, own, q)
  {
    at' := EmptyProbes(from, at, t, own, q);
    at' := EmptyRereads(from, at', t, own, q);
  }

  lemma EmptySucceeds(from: State, at: Config, t: nat, i: nat, item: Item, job: Job, own: Own, q: Queue<Item>)
    returns (at': Config)
    requires WellFormed(q) && i < BUFFER_SIZE && Probing(from, at, t, i, item, job, own, q)
    requires q.buf.lists[SlotOf(q.buf.put, i)] == []
    ensures Scanned(from, at', t, i, item, job, own, q)
  {
    at' := EmptyHits(from, at, t, own, q);
    at' := EmptyAdvances(from, at', t, Left(item, job, own), WithSlot(q, i, Content(job, own)));
  }

  lemma FirstEmptyStep(lists: seq<seq<Item>>, index: Pos, i: nat)
    requires |lists| == BUFFER_SIZE && i < BUFFER_SIZE
    ensures FirstEmpty(lists, index, i) == if lists[SlotOf(index, i)] == [] then i else FirstEmpty(lists, index, i + 1)
    ensures FirstEmpty(lists, index, BUFFER_SIZE) == BUFFER_SIZE
  {
  }

  lemma {:induction false} EmptyScans(from: State, at: Config, t: nat, i: nat, item: Item, job: Job, own: Own,
      q: Queue<Item>)
    returns (at': Config)
    requires WellFormed(q) && i < BUFFER_SIZE && Probing(from, at, t, i, item, job, own, q)
    ensures Scanned(from, at', t, FirstEmpty(q.buf.lists, q.buf.put, i), item, job, own, q)
    decreases BUFFER_SIZE - i
  {
    FirstEmptyStep(q.buf.lists, q.buf.put, i);
    if q.buf.lists[SlotOf(q.buf.put, i)] == [] {
      at' := EmptySucceeds(from, at, t, i, item, job, own, q);
    } else {
      at' := EmptyMisses(from, at, t, i, item, job, own, q);
      if i + 1 < BUFFER_SIZE {
        at' := EmptyScans(from, at', t, i + 1, item, job, own, q);
      }
    }
  }

  lemma StoreEmptyIs(q: Queue<Item>, l: seq<Item>)
    requires WellFormed(q)
    ensures var j := FirstEmpty(q.buf.lists, q.buf.put, 0);
      if j == BUFFER_SIZE then StoreEmpty(q.buf, l).None?
      else StoreEmpty(q.buf, l).Some? && q.(buf := StoreEmpty(q.buf, l).value) == Advanced1(WithSlot(q, j, l), j)
  {
  }

  /** All of `store_in_empty_slot`. */
  lemma EmptyTurns(from: State, at: Config, t: nat, own: Own, q: Queue<Item>) returns (at': Config)
    requires Stands(from, at, t, own, q) && at.s.threads[t].EmptyIndex?
    ensures var pc := at.s.threads[t];
      match StoreEmpty(q.buf, Content(pc.job, own))
      case Some(b) =>
        Stands(from, at', t, Left(pc.item, pc.job, own), q.(buf := b))
        && at'.s.threads[t] == QueueMachine.Stored(pc.item, pc.job)
      case None => Stands(from, at', t, own, q) && at'.s.threads[t] == Full(pc.item, pc.job)
  {
    var pc := at.s.threads[t];
    StoreEmptyIs(q, Content(pc.job, own));
    at' := EmptyStarts(from, at, t, own, q);
    at' := EmptyScans(from, at', t, 0, pc.item, pc.job, own, q);
  }

  // ---- store_tail

  lemma CutTurns(from: State, at: Config, t: nat, item: Item, n: nat, m: seq<Item>, q: Queue<Item>)
    returns (at': Config)
    requires n < BUFFER_SIZE - 1 && m != [] && Stands(from, at, t, Own([item], m), q)
    requires at.s.threads[t] == Tail(item, n, Ref(m[0]))
    ensures Stands(from, at', t, Own([item, m[0]], m[1..]), q)
    ensures at'.s.threads[t] == EmptyIndex(item, Single(n, m[0], At(m, 1, Null)))
  {
    Unfold(at);
    assert ThreadOk(at.s, at.a, t);
    assert Next(at.s.next, m[0]) == At(m, 1, Null);
    at' := Turn1(from, at, t, Go);
    at' := Turn1(from, at', t, Go);
  }

  /** The task found no empty slot: it and the rest go to an occupied one. */
  lemma RelinkTurns(from: State, at: Config, t: nat, item: Item, m: seq<Item>, q: Queue<Item>)
    returns (at': Config)
    requires m != [] && Stands(from, at, t, Own([item, m[0]], m[1..]), q)
    requires at.s.threads[t] == TailRelink(item, m[0], At(m, 1, Null))
    ensures Stands(from, at', t, Own([item], []), q.(buf := StoreOccupied(q.buf, m)))
    ensures at'.s.threads[t] == Finish(item)
  {
    at' := Turn1(from, at, t, Go);
    assert [m[0]] + m[1..] == m;
    at' := OccTurns(from, at', t, m, q);
  }

  lemma LastTurns(from: State, at: Config, t: nat, item: Item, m: seq<Item>, q: Queue<Item>)
    returns (at': Config)
    requires Stands(from, at, t, Own([item], m), q) && at.s.threads[t] == Tail(item, BUFFER_SIZE - 1, At(m, 0, Null))
    ensures Stands(from, at', t, Own([item], []), q.(buf := StoreOccupied(q.buf, m)))
        && at'.s.threads[t] == Finish(item)
  {
    at' := Turn1(from, at, t, Go);
    at' := OccTurns(from, at', t, m, q);
  }

  /** One round that has something to store: on to the next round, or done. */
  lemma RoundTurns(from: State, at: Config, t: nat, item: Item, n: nat, m: seq<Item>, q: Queue<Item>)
    returns (at': Config)
    requires n < BUFFER_SIZE - 1 && m != [] && Stands(from, at, t, Own([item], m), q)
    requires at.s.threads[t] == Tail(item, n, Ref(m[0]))
    ensures match StoreEmpty(q.buf, [m[0]])
      case Some(b) =>
        Stands(from, at', t, Own([item], m[1..]), q.(buf := b))
            && at'.s.threads[t] == Tail(item, n + 1, At(m[1..], 0, Null))
      case None =>
        Stands(from, at', t, Own([item], []), q.(buf := StoreOccupied(q.buf, m))) && at'.s.threads[t] == Finish(item)
  {
    var own := Own([item, m[0]], m[1..]);
    at' := CutTurns(from, at, t, item, n, m, q);
    at' := EmptyTurns(from, at', t, own, q);
    if StoreEmpty(q.buf, [m[0]]).None? {
      at' := RelinkTurns(from, at', t, item, m, q);
    }
  }

  /** `store_tail` from loop counter `n` on. */
  lemma {:induction false} TailTurns(from: State, at: Config, t: nat, item: Item, n: nat, m: seq<Item>, q: Queue<Item>)
    returns (at': Config)
    requires n < BUFFER_SIZE && Stands(from, at, t, Own([item], m), q)
        && at.s.threads[t] == Tail(item, n, At(m, 0, Null))
    ensures Stands(from, at', t, Own([item], []), q.(buf := Spread(q.buf, m, n))) && at'.s.threads[t] == Finish(item)
    decreases BUFFER_SIZE - n, 1
  {
    if n == BUFFER_SIZE - 1 {
      at' := LastTurns(from, at, t, item, m, q);
    } else if m == [] {
      at' := Turn1(from, at, t, Go);
    } else {
      at' := MoreTurns(from, at, t, item, n, m, q);
    }
  }

  lemma {:induction false} MoreTurns(from: State, at: Config, t: nat, item: Item, n: nat, m: seq<Item>, q: Queue<Item>)
    returns (at': Config)
    requires n < BUFFER_SIZE - 1 && m != [] && Stands(from, at, t, Own([item], m), q)
    requires at.s.threads[t] == Tail(item, n, Ref(m[0]))
    ensures Stands(from, at', t, Own([item], []), q.(buf := Spread(q.buf, m, n))) && at'.s.threads[t] == Finish(item)
    decreases BUFFER_SIZE - n, 0
  {
    SpreadStep(q.buf, m, n);
    at' := RoundTurns(from, at, t, item, n, m, q);
    var r := StoreEmpty(q.buf, [m[0]]);
    if r.Some? {
      at' := TailTurns(from, at', t, item, n + 1, m[1..], q.(buf := r.value));
    }
  }
}
