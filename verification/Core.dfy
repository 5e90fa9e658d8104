/** Vocabulary shared by every component: options, the persisted enumerations and the tuning constants. */
module Core {

  datatype Option<+T> = None | Some(value: T)

  datatype JobState =
    | Ready | Preparing | Running | WaitingServer | Paused | RateLimited
    | Completed | CompletedWithErrors | Failed | Cancelled

  datatype ItemState = ItemReady | ItemRetry | ItemSuccess | ItemSkipped | ItemFailed

  datatype Action = Invite | Remove

  /** The states `validate_transition` treats as final. */
  predicate Terminal(s: JobState) {
    s.Completed? || s.CompletedWithErrors? || s.Failed? || s.Cancelled?
  }

  /** An item still owed an attempt: the states `pending_chunk` selects. */
  predicate Pending(s: ItemState) {
    s.ItemReady? || s.ItemRetry?
  }

  const MIN_INTERVAL: real := 3.0
  const MAX_INTERVAL: real := 10.0
  const RECOVERY_INTERVAL: real := 10.0
  const PREFETCH_MIN: nat := 100
  const PREFETCH_MAX: nat := 500
  const RESULT_BATCH: nat := 20
  const TRANSIENT_DELAYS: seq<real> := [1.0, 2.0, 4.0]
  const SCAN_BATCH: nat := 250
  const SCAN_QUEUE: nat := 4
  const WRITER_BATCH: nat := 250
  const WRITER_QUEUE: nat := 5000

  function Max(a: real, b: real): real {
    if a >= b then a else b
  }

  /** The ordinals lo, lo+1, ..., hi-1. */
  function Range(lo: int, hi: int): (r: seq<int>)
    ensures |r| == if lo <= hi then hi - lo else 0
    ensures forall i :: 0 <= i < |r| ==> r[i] == lo + i
  {
    if lo <= hi then seq(hi - lo, i => lo + i) else []
  }
}
