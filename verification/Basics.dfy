/** What several modules share. */
module Basics {

  datatype Option<+T> = None | Some(value: T)

  /** The state of a task, `m_state`. */
  datatype TaskState = Running | Waiting | Finished

  /** Counters are 32-bit and wrap. */
  const WORD: nat := 0x1_0000_0000

  ghost predicate Distinct<T>(l: seq<T>) {
    forall i, j :: 0 <= i < j < |l| ==> l[i] != l[j]
  }

  function One(b: bool): nat {
    if b then 1 else 0
  }
}
