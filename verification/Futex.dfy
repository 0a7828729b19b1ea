/** `Futex::wait` and `Futex::notify`, one operation at a time.

    FUTEX_WAIT is one atomic "sleep if the word is 0"; FUTEX_WAKE wakes up to n of the threads asleep
    and is modelled by the machines that know who sleeps. */
module Futex {
  import opened Basics

  /** `m_work_avalable` and `m_wait_counter`. */
  datatype Futex = Futex(flag: bool, counter: nat)

  const FRESH: Futex := Futex(true, 0)

  /** `wait()`: the operation about to be executed. */
  datatype Wait =
    | LoadFlag      // m_work_avalable.load()
    | TakeFlag      // m_work_avalable.exchange( 0 )
    | CountIn       // m_wait_counter.fetch_add( 1 )
    | Sleep         // futex( FUTEX_WAIT, 0 )
    | Asleep        // blocked in the system call
    | CountOut      // m_wait_counter.fetch_sub( 1 )
    | Left          // wait() has returned

  /** `notify()`. */
  datatype Notify =
    | TestFlag      // m_work_avalable.load() == 0
    | RaiseFlag     // m_work_avalable.store( 1 )
    | ReadCount     // m_wait_counter.load() > 0
    | Wake          // futex( FUTEX_WAKE )
    | Done          // notify() has returned

  /** A thread asleep moves only when it is woken. */
  function WaitStep(f: Futex, w: Wait): (Futex, Wait) {
    match w
    case LoadFlag => (f, if f.flag then TakeFlag else CountIn)
    case TakeFlag => (f.(flag := false), if f.flag then Left else CountIn)
    case CountIn => (f.(counter := (f.counter + 1) % WORD), Sleep)
    case Sleep => (f, if f.flag then CountOut else Asleep)
    case Asleep => (f, Asleep)
    case CountOut => (f.(counter := (f.counter + WORD - 1) % WORD), Left)
    case Left => (f, Left)
  }

  /** The wake-up itself happens in the machine. */
  function NotifyStep(f: Futex, n: Notify): (Futex, Notify) {
    match n
    case TestFlag => (f, if f.flag then ReadCount else RaiseFlag)
    case RaiseFlag => (f.(flag := true), ReadCount)
    case ReadCount => (f, if f.counter > 0 then Wake else Done)
    case Wake => (f, Done)
    case Done => (f, Done)
  }

  function WaitSteps(f: Futex, w: Wait, n: nat): (Futex, Wait)
    decreases n
  {
    if n == 0 then (f, w) else var (g, v) := WaitStep(f, w); WaitSteps(g, v, n - 1)
  }

  /** A call of `wait` that nobody disturbs: there is nothing to do if and only if the flag is down, and then
      the thread is counted and sleeps; otherwise it takes the flag and returns, not counted. */
  lemma WaitAlone(f: Futex)
    ensures !f.flag ==> WaitSteps(f, LoadFlag, 3) == (f.(counter := (f.counter + 1) % WORD), Asleep)
    ensures f.flag ==> WaitSteps(f, LoadFlag, 2) == (f.(flag := false), Left)
  {
    if f.flag {
      assert WaitSteps(f, TakeFlag, 1) == (f.(flag := false), Left);
    } else {
      var g := f.(counter := (f.counter + 1) % WORD);
      assert WaitSteps(g, Sleep, 1) == (g, Asleep);
      assert WaitSteps(f, CountIn, 2) == (g, Asleep);
    }
  }

  function NotifySteps(f: Futex, n: Notify, k: nat): (Futex, Notify)
    decreases k
  {
    if k == 0 then (f, n) else var (g, m) := NotifyStep(f, n); NotifySteps(g, m, k - 1)
  }

  /** A call of `notify` that nobody disturbs leaves the flag raised, and it goes on to wake sleepers if and
      only if some are counted. */
  lemma NotifyAlone(f: Futex)
    ensures NotifySteps(f, TestFlag, if f.flag then 2 else 3) ==
      (f.(flag := true), if f.counter > 0 then Wake else Done)
  {
    var g := f.(flag := true);
    assert NotifySteps(g, ReadCount, 1) == (g, if f.counter > 0 then Wake else Done);
    if !f.flag {
      assert NotifySteps(f, RaiseFlag, 2) == NotifySteps(g, ReadCount, 1);
    }
  }

  /** Counted in `m_wait_counter`. */
  predicate Counted(w: Wait) {
    w == Sleep || w == Asleep || w == CountOut
  }

  /** The flag may still have to be raised by this call. */
  predicate Storing(n: Notify) {
    n == TestFlag || n == RaiseFlag
  }

  /** This call has seen the flag raised and will wake a sleeper. */
  predicate Waking(n: Notify) {
    n == ReadCount || n == Wake
  }
}
