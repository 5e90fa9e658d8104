/**
 The prefetching window over a job's pending items (`migration/candidate_buffer.py`).

 A fill is submitted to a worker thread, which reads the database at a moment of its own choosing; the
 network loop later awaits the rows.  What the buffer will still hand out is a function of the buffer and
 of the rows beyond `last_loaded`, so it does not matter when the read happens.
 */
module CandidateBuffer {
  import opened Core
  import opened JobStore

  datatype Candidate = Candidate(ordinal: nat, attempts: nat)

  datatype Loading = NotLoading | Reading | Loaded(rows: seq<Candidate>)

  datatype Buf = Buf(queue: seq<Candidate>, lastLoaded: int, loading: Loading, exhausted: bool, chunk: nat)

  function ClampChunk(requested: int): (c: nat)
    ensures PREFETCH_MIN <= c <= PREFETCH_MAX
    ensures c == if requested < 100 then 100 else if requested > 500 then 500 else requested
  {
    var low := if requested < PREFETCH_MAX then requested else PREFETCH_MAX;
    if low < PREFETCH_MIN then PREFETCH_MIN else low
  }

  function New(requested: int): Buf {
    Buf([], -1, NotLoading, false, ClampChunk(requested))
  }

  function LowWatermark(chunk: nat): nat {
    if chunk / 4 < 50 then 50 else chunk / 4
  }

  /** The pending rows with ordinal in `lo .. hi`, in ascending ordinal. */
  function PendingIn(items: seq<Item>, lo: nat, hi: nat): seq<Candidate>
    requires hi <= |items|
    decreases hi - lo
  {
    if lo >= hi then []
    else (if Pending(items[lo].state) then [Candidate(lo, items[lo].attempts)] else []) + PendingIn(items, lo + 1, hi)
  }

  /** The pending rows with ordinal at least `lo`. */
  function PendingFrom(items: seq<Item>, lo: nat): seq<Candidate> {
    PendingIn(items, lo, |items|)
  }

  /** `pending_chunk`: the first `limit` pending rows after `last`. */
  function PendingChunk(items: seq<Item>, last: int, limit: nat): (r: seq<Candidate>)
    requires -1 <= last
    ensures r <= PendingFrom(items, last + 1) && |r| <= limit
    ensures |r| < limit ==> r == PendingFrom(items, last + 1)
  {
    var all := PendingFrom(items, last + 1);
    if |all| <= limit then all else all[..limit]
  }

  function SubmitFill(b: Buf): Buf {
    if b.loading.NotLoading? && !b.exhausted then b.(loading := Reading) else b
  }

  /** The worker thread performs the read it was asked for. */
  function WorkerRead(b: Buf, items: seq<Item>): Buf
    requires -1 <= b.lastLoaded
  {
    if b.loading.Reading? then b.(loading := Loaded(PendingChunk(items, b.lastLoaded, b.chunk))) else b
  }

  /** The part of `_finish_fill` after the rows have arrived. */
  function TakeRows(b: Buf): Buf
    requires b.loading.Loaded?
  {
    var rows := b.loading.rows;
    if rows == [] then b.(loading := NotLoading, exhausted := true)
    else b.(loading := NotLoading, queue := b.queue + rows, lastLoaded := rows[|rows| - 1].ordinal)
  }

  /** The part of `pop` that takes an item from a non-empty queue. */
  function TakeHead(b: Buf): Buf
    requires b.queue != []
  {
    var b1 := b.(queue := b.queue[1..]);
    if |b1.queue| <= LowWatermark(b.chunk) then SubmitFill(b1) else b1
  }

  // ------------------------------------------------------------------------------------------
  // The plain iterator the buffer refines
  // ------------------------------------------------------------------------------------------

  /** Everything the buffer will still hand out, in order. */
  ghost function Yields(b: Buf, items: seq<Item>): seq<Candidate>
    requires -1 <= b.lastLoaded
  {
    b.queue + PendingFrom(items, b.lastLoaded + 1)
  }

  ghost predicate Ascending(cs: seq<Candidate>) {
    forall i, j :: 0 <= i < j < |cs| ==> cs[i].ordinal < cs[j].ordinal
  }

  /** The last read found nothing: the buffer will not read again. */
  predicate Spent(b: Buf) {
    b.exhausted || b.loading == Loaded([])
  }

  /** What holds even if rows appear behind a read that found nothing. */
  ghost predicate Loose(b: Buf, items: seq<Item>) {
    && PREFETCH_MIN <= b.chunk <= PREFETCH_MAX
    && -1 <= b.lastLoaded < |items|
    && |b.queue| <= b.chunk
    && (forall i :: 0 <= i < |b.queue| ==> b.queue[i].ordinal <= b.lastLoaded)
    && (b.loading.Loaded? && b.loading.rows != [] ==> b.loading.rows == PendingChunk(items, b.lastLoaded, b.chunk))
    && (b.exhausted ==> b.loading.NotLoading?)
  }

  /** On a fixed set of rows a read that finds nothing means that nothing is left. */
  ghost predicate Inv(b: Buf, items: seq<Item>) {
    Loose(b, items) && (Spent(b) ==> PendingFrom(items, b.lastLoaded + 1) == [])
  }

  /** What the buffer will hand out even if rows appear late: what it yields, or its queue once it is spent. */
  ghost function Rest(b: Buf, items: seq<Item>): seq<Candidate>
    requires -1 <= b.lastLoaded
  {
    if Spent(b) then b.queue else Yields(b, items)
  }

  /** The rows between two ordinals are in ascending order, each pending and within them. */
  lemma {:induction false} PendingAscends(items: seq<Item>, lo: nat, hi: nat)
    requires hi <= |items|
    ensures Ascending(PendingIn(items, lo, hi))
    ensures forall i :: 0 <= i < |PendingIn(items, lo, hi)| ==> lo <= PendingIn(items, lo, hi)[i].ordinal < hi
    decreases hi - lo
  {
    if lo < hi {
      PendingAscends(items, lo + 1, hi);
    }
  }

  /** A candidate is listed exactly if its row is READY or RETRY, with the attempts the row holds. */
  lemma {:induction false} PendingMeaning(items: seq<Item>, lo: nat, hi: nat)
    requires hi <= |items|
    ensures forall c :: c in PendingIn(items, lo, hi) <==>
      && lo <= c.ordinal < hi && c.attempts == items[c.ordinal].attempts
      && (items[c.ordinal].state == ItemReady || items[c.ordinal].state == ItemRetry)
    decreases hi - lo
  {
    if lo < hi {
      PendingMeaning(items, lo + 1, hi);
    }
  }

  lemma {:induction false} PendingConcat(items: seq<Item>, lo: nat, m: nat, hi: nat)
    requires lo <= m <= hi <= |items|
    ensures PendingIn(items, lo, hi) == PendingIn(items, lo, m) + PendingIn(items, m, hi)
    decreases m - lo
  {
    if lo < m {
      PendingConcat(items, lo + 1, m, hi);
    }
  }

  /** One chunk, and the rows left after it. */
  lemma ChunkSplit(items: seq<Item>, last: int, limit: nat)
    requires -1 <= last && 0 < limit
    ensures var rows := PendingChunk(items, last, limit);
      && (rows == [] ==> PendingFrom(items, last + 1) == [])
      && (rows != [] ==>
            var m := rows[|rows| - 1].ordinal;
            && last < m < |items|
            && (forall i :: 0 <= i < |rows| ==> rows[i].ordinal <= m)
            && PendingFrom(items, last + 1) == rows + PendingFrom(items, m + 1))
  {
    var rows := PendingChunk(items, last, limit);
    if rows != [] {
      var all := PendingFrom(items, last + 1);
      var m := rows[|rows| - 1].ordinal;
      PendingAscends(items, last + 1, |items|);
      PendingEndsAt(items, last + 1, m, |rows| - 1);
      var upTo := PendingIn(items, last + 1, m + 1);
      PrefixByLast(all, |rows|, upTo, PendingFrom(items, m + 1));
    }
  }

  /** The rows up to a pending ordinal end with it. */
  lemma PendingEndsAt(items: seq<Item>, lo: nat, m: nat, k: nat)
    requires k < |PendingFrom(items, lo)| && PendingFrom(items, lo)[k].ordinal == m
    ensures lo <= m < |items|
    ensures PendingFrom(items, lo) == PendingIn(items, lo, m + 1) + PendingFrom(items, m + 1)
    ensures var upTo := PendingIn(items, lo, m + 1); upTo != [] && upTo[|upTo| - 1].ordinal == m
  {
    assert lo <= m < |items| by {
      PendingAscends(items, lo, |items|);
    }
    PendingConcat(items, lo, m + 1, |items|);
    var upTo := PendingIn(items, lo, m + 1);
    assert k < |upTo| by {
      PendingAscends(items, m + 1, |items|);
    }
    LastOfRange(items, lo, m, k);
  }

  /** If the ordinal `m` is among the rows up to it, it is the last of them. */
  lemma LastOfRange(items: seq<Item>, lo: nat, m: nat, k: nat)
    requires m < |items| && k < |PendingIn(items, lo, m + 1)| && PendingIn(items, lo, m + 1)[k].ordinal == m
    ensures var upTo := PendingIn(items, lo, m + 1); upTo[|upTo| - 1].ordinal == m
  {
    PendingAscends(items, lo, m + 1);
  }

  /** In an ascending sequence a prefix is known by its last ordinal. */
  lemma PrefixByLast(all: seq<Candidate>, k: nat, upTo: seq<Candidate>, after: seq<Candidate>)
    requires Ascending(all) && all == upTo + after && 0 < k <= |all| && upTo != []
    requires upTo[|upTo| - 1].ordinal == all[k - 1].ordinal
    ensures all[..k] == upTo
    ensures forall i :: 0 <= i < k ==> all[i].ordinal <= all[k - 1].ordinal
  {
    assert all[|upTo| - 1] == upTo[|upTo| - 1];
    assert k == |upTo|;
  }

  /** Rows behind `lo` are irrelevant. */
  lemma {:induction false} PendingIgnoresBehind(items: seq<Item>, items': seq<Item>, lo: nat, hi: nat)
    requires hi <= |items| == |items'|
    requires forall i :: lo <= i < hi ==> items[i] == items'[i]
    ensures PendingIn(items, lo, hi) == PendingIn(items', lo, hi)
    decreases hi - lo
  {
    if lo < hi {
      PendingIgnoresBehind(items, items', lo + 1, hi);
      assert items[lo] == items'[lo];
    }
  }

  lemma NewBuffer(requested: int, items: seq<Item>)
    ensures Inv(New(requested), items) && Yields(New(requested), items) == PendingFrom(items, 0)
  {
  }

  lemma SubmitFillKeeps(b: Buf, items: seq<Item>)
    requires Inv(b, items)
    ensures Inv(SubmitFill(b), items) && Yields(SubmitFill(b), items) == Yields(b, items)
  {
  }

  /** Whenever the worker reads, what the buffer will hand out stays the same. */
  lemma WorkerReadKeeps(b: Buf, items: seq<Item>)
    requires Inv(b, items)
    ensures Inv(WorkerRead(b, items), items) && Yields(WorkerRead(b, items), items) == Yields(b, items)
  {
  }

  /** Writes to rows up to `last_loaded` do not disturb the buffer. */
  lemma WritesBehindKeep(b: Buf, items: seq<Item>, items': seq<Item>)
    requires Inv(b, items)
    requires |items| == |items'|
    requires forall i :: 0 <= i < |items| && b.lastLoaded < i ==> items[i] == items'[i]
    ensures Inv(b, items') && Yields(b, items') == Yields(b, items)
  {
    PendingIgnoresBehind(items, items', b.lastLoaded + 1, |items|);
  }

  /** Moving the first rows of what is still to be read into an empty queue. */
  lemma MoveRows(queue: seq<Candidate>, rows: seq<Candidate>, tail: seq<Candidate>, all: seq<Candidate>)
    requires queue == [] && all == rows + tail
    ensures queue + all == (queue + rows) + tail
  {
  }

  /** Appending the rows of a finished read hands out the same. */
  lemma TakeRowsYields(b: Buf, items: seq<Item>)
    requires Inv(b, items) && b.loading.Loaded? && b.queue == []
    ensures -1 <= b.lastLoaded <= TakeRows(b).lastLoaded && Yields(TakeRows(b), items) == Yields(b, items)
    ensures TakeRows(b).queue == [] ==> Yields(b, items) == [] && TakeRows(b).exhausted
  {
    ChunkSplit(items, b.lastLoaded, b.chunk);
    var rows := b.loading.rows;
    if rows == [] {
      assert Yields(b, items) == [];
    } else {
      MoveRows(b.queue, rows, PendingFrom(items, rows[|rows| - 1].ordinal + 1), PendingFrom(items, b.lastLoaded + 1));
    }
  }

  lemma TakeRowsInv(b: Buf, items: seq<Item>)
    requires Inv(b, items) && b.loading.Loaded? && b.queue == []
    ensures Inv(TakeRows(b), items)
  {
    var rows := b.loading.rows;
    if rows != [] {
      ChunkSplit(items, b.lastLoaded, b.chunk);
      assert TakeRows(b).queue == rows;
    }
  }

  /** Appending the rows of a finished read. */
  lemma TakeRowsKeeps(b: Buf, items: seq<Item>)
    requires Inv(b, items) && b.loading.Loaded? && b.queue == []
    ensures Inv(TakeRows(b), items) && Yields(TakeRows(b), items) == Yields(b, items)
    ensures TakeRows(b).queue == [] ==> Yields(b, items) == [] && TakeRows(b).exhausted
    ensures b.lastLoaded <= TakeRows(b).lastLoaded
  {
    TakeRowsYields(b, items);
    TakeRowsInv(b, items);
  }

  /** A pop hands out the first of what was still to come. */
  lemma TakeHeadKeeps(b: Buf, items: seq<Item>)
    requires Inv(b, items) && b.queue != []
    ensures Inv(TakeHead(b), items)
    ensures Yields(b, items) != [] && b.queue[0] == Yields(b, items)[0]
    ensures Yields(TakeHead(b), items) == Yields(b, items)[1..]
  {
  }

  /**
   A pop that leaves at most 50 rows, or at most a quarter of a chunk, sees to it that a read is under way unless there
   is nothing to read; a pop that leaves more starts none.
   */
  lemma RefillsInTime(b: Buf)
    requires b.queue != []
    ensures var t := TakeHead(b);
      && t.queue == b.queue[1..] && t.lastLoaded == b.lastLoaded && t.exhausted == b.exhausted
      && (|t.queue| <= 50 || 4 * |t.queue| <= b.chunk ==> t.exhausted || t.loading != NotLoading)
      && (t.loading != b.loading ==>
            (|t.queue| <= 50 || 4 * |t.queue| <= b.chunk) && b.loading == NotLoading && t.loading == Reading)
  {
  }

  /** A read brings a whole chunk, or everything there is. */
  lemma ReadsAChunk(b: Buf, items: seq<Item>)
    requires -1 <= b.lastLoaded && b.loading.Reading?
    ensures var t := WorkerRead(b, items);
      && t.loading.Loaded? && t.loading.rows <= PendingFrom(items, b.lastLoaded + 1)
      && |t.loading.rows| <= b.chunk && (|t.loading.rows| < b.chunk ==> t.loading.rows == PendingFrom(items, b.lastLoaded + 1))
      && t == b.(loading := t.loading)
  {
  }

  // ------------------------------------------------------------------------------------------
  // The same when rows may appear late
  // ------------------------------------------------------------------------------------------

  lemma RestIsYields(b: Buf, items: seq<Item>)
    requires Inv(b, items)
    ensures Rest(b, items) == Yields(b, items)
  {
  }

  lemma NewRest(requested: int, items: seq<Item>)
    ensures Loose(New(requested), items) && Rest(New(requested), items) == PendingFrom(items, 0)
  {
    NewBuffer(requested, items);
  }

  lemma SubmitFillRest(b: Buf, items: seq<Item>)
    requires Loose(b, items)
    ensures Loose(SubmitFill(b), items) && Rest(SubmitFill(b), items) == Rest(b, items)
  {
  }

  lemma WorkerReadRest(b: Buf, items: seq<Item>)
    requires Loose(b, items)
    ensures Loose(WorkerRead(b, items), items) && Rest(WorkerRead(b, items), items) == Rest(b, items)
  {
    if !Spent(b) {
      WorkerReadKeeps(b, items);
      RestIsYields(WorkerRead(b, items), items);
    }
  }

  lemma TakeRowsRest(b: Buf, items: seq<Item>)
    requires Loose(b, items) && b.loading.Loaded? && b.queue == []
    ensures Loose(TakeRows(b), items) && Rest(TakeRows(b), items) == Rest(b, items)
    ensures b.lastLoaded <= TakeRows(b).lastLoaded
  {
    if !Spent(b) {
      TakeRowsKeeps(b, items);
      RestIsYields(TakeRows(b), items);
    }
  }

  lemma TakeHeadRest(b: Buf, items: seq<Item>)
    requires Loose(b, items) && b.queue != []
    ensures Loose(TakeHead(b), items) && TakeHead(b).lastLoaded == b.lastLoaded
    ensures Rest(b, items) != [] && b.queue[0] == Rest(b, items)[0]
    ensures Rest(TakeHead(b), items) == Rest(b, items)[1..]
  {
    if !Spent(b) {
      TakeHeadKeeps(b, items);
    }
  }

  lemma WritesBehindRest(b: Buf, items: seq<Item>, items': seq<Item>)
    requires Loose(b, items)
    requires |items| == |items'|
    requires forall i :: 0 <= i < |items| && b.lastLoaded < i ==> items[i] == items'[i]
    ensures Loose(b, items') && Rest(b, items') == Rest(b, items)
  {
    PendingIgnoresBehind(items, items', b.lastLoaded + 1, |items|);
  }

  // ------------------------------------------------------------------------------------------
  // Every interleaving of pops, background reads and result writes
  // ------------------------------------------------------------------------------------------

  datatype Event =
    | Pop
    | Read
    | Store(ordinal: nat, item: Item)

  /** `handed` are the candidates popped so far; `ended` is set once a pop has returned None. */
  datatype Session = Session(buf: Buf, items: seq<Item>, handed: seq<Candidate>, ended: bool)

  /** A pop makes progress when the queue has an item, the rows have arrived, or the buffer is exhausted. */
  function PopStep(s: Session): Session {
    if s.buf.queue != [] then
      s.(buf := TakeHead(s.buf), handed := s.handed + [s.buf.queue[0]])
    else if s.buf.loading.Loaded? then
      s.(buf := TakeRows(s.buf))
    else if s.buf.loading.NotLoading? && s.buf.exhausted then
      s.(ended := true)
    else
      s.(buf := SubmitFill(s.buf))
  }

  /** Results are stored only for candidates that were handed out. */
  function SessionStep(s: Session, e: Event): Session
    requires -1 <= s.buf.lastLoaded
  {
    match e
    case Pop => PopStep(s)
    case Read => s.(buf := WorkerRead(s.buf, s.items))
    case Store(o, item) =>
      if o < |s.items| && exists c :: c in s.handed && c.ordinal == o then s.(items := s.items[o := item]) else s
  }

  ghost predicate SessionInv(s: Session, start: seq<Candidate>) {
    && Inv(s.buf, s.items)
    && s.handed <= start && start[|s.handed|..] == Yields(s.buf, s.items)
    && (forall i :: 0 <= i < |s.handed| ==> s.handed[i].ordinal <= s.buf.lastLoaded)
    && (s.ended ==> Yields(s.buf, s.items) == [])
  }

  lemma PopKeepsSession(s: Session, start: seq<Candidate>)
    requires SessionInv(s, start)
    ensures SessionInv(PopStep(s), start)
  {
    if s.buf.queue != [] {
      TakeHeadKeeps(s.buf, s.items);
      var y, n := Yields(s.buf, s.items), |s.handed|;
      assert start[n] == y[0] && start[n..][1..] == start[n + 1..];
    } else if s.buf.loading.Loaded? {
      TakeRowsKeeps(s.buf, s.items);
    }
  }

  lemma StepKeepsSession(s: Session, e: Event, start: seq<Candidate>)
    requires SessionInv(s, start)
    ensures SessionInv(SessionStep(s, e), start)
  {
    match e
    case Pop => PopKeepsSession(s, start);
    case Read => WorkerReadKeeps(s.buf, s.items);
    case Store(o, item) => WritesBehindKeep(s.buf, s.items, SessionStep(s, e).items);
  }

  ghost function Play(s: Session, es: seq<Event>): Session {
    if es == [] then s
    else
      var t := Play(s, es[..|es| - 1]);
      if -1 <= t.buf.lastLoaded then SessionStep(t, es[|es| - 1]) else t
  }

  lemma {:induction false} PlayKeepsSession(s: Session, es: seq<Event>, start: seq<Candidate>)
    requires SessionInv(s, start)
    ensures SessionInv(Play(s, es), start)
  {
    if es != [] {
      PlayKeepsSession(s, es[..|es| - 1], start);
      StepKeepsSession(Play(s, es[..|es| - 1]), es[|es| - 1], start);
    }
  }

  /** What has been handed out is a prefix of what was pending, and all of it in the end. */
  lemma HandedOut(s: Session, start: seq<Candidate>)
    requires SessionInv(s, start) && Ascending(start)
    ensures s.handed <= start && Ascending(s.handed) && (s.ended ==> s.handed == start)
  {
    assert forall i :: 0 <= i < |s.handed| ==> s.handed[i] == start[i];
    if s.ended {
      assert |start[|s.handed|..]| == 0;
    }
  }

  /**
   The buffer refines a plain iterator: whenever the background reads happen and whatever is stored for
   the candidates handed out, the pops are a prefix of the items pending at run start, in ascending
   ordinal, and None is returned only after all of them; the queue never outgrows its chunk.
   */
  lemma PrefetchRefinesIterator(requested: int, items: seq<Item>, es: seq<Event>)
    ensures var s := Play(Session(New(requested), items, [], false), es);
      && s.handed <= PendingFrom(items, 0)
      && Ascending(s.handed)
      && (s.ended ==> s.handed == PendingFrom(items, 0))
      && |s.buf.queue| <= s.buf.chunk && 100 <= s.buf.chunk <= 500
  {
    var s0 := Session(New(requested), items, [], false);
    var start := PendingFrom(items, 0);
    NewBuffer(requested, items);
    assert start[0..] == start;
    PlayKeepsSession(s0, es, start);
    PendingAscends(items, 0, |items|);
    HandedOut(Play(s0, es), start);
  }

  // ------------------------------------------------------------------------------------------
  // The buffer object
  // ------------------------------------------------------------------------------------------

  class Prefetcher {
    var queue: seq<Candidate>
    var lastLoaded: int
    var loading: Loading
    var exhausted: bool
    const chunk: nat

    ghost function View(): Buf
      reads this
    {
      Buf(queue, lastLoaded, loading, exhausted, chunk)
    }

    constructor (requested: int)
      ensures View() == New(requested)
    {
      queue, lastLoaded, loading, exhausted := [], -1, NotLoading, false;
      chunk := ClampChunk(requested);
    }

    method StartFill()
      modifies this`loading
      ensures View() == SubmitFill(old(View()))
    {
      if loading.NotLoading? && !exhausted {
        loading := Reading;
      }
    }

    /** `_finish_fill` with the read answered from the rows `items`. */
    method FinishFill(items: seq<Item>)
      requires Inv(View(), items) && queue == []
      modifies this
      ensures Inv(View(), items) && Yields(View(), items) == Yields(old(View()), items)
      ensures queue == [] ==> Yields(View(), items) == []
    {
      SubmitFillKeeps(View(), items);
      StartFill();
      if loading.NotLoading? {
        return;
      }
      if loading.Reading? {
        WorkerReadKeeps(View(), items);
        loading := Loaded(PendingChunk(items, lastLoaded, chunk));
      }
      TakeRowsKeeps(View(), items);
      var rows := loading.rows;
      loading := NotLoading;
      if rows == [] {
        exhausted := true;
        return;
      }
      queue := queue + rows;
      lastLoaded := rows[|rows| - 1].ordinal;
    }

    /** `pop`: the head of the iterator, or None exactly when nothing is left. */
    method Pop(items: seq<Item>) returns (c: Option<Candidate>)
      requires Inv(View(), items)
      modifies this
      ensures Inv(View(), items)
      ensures var y := Yields(old(View()), items);
        if y == [] then c == None && Yields(View(), items) == []
        else c == Some(y[0]) && Yields(View(), items) == y[1..]
    {
      if queue == [] {
        FinishFill(items);
      }
      if queue == [] {
        return None;
      }
      TakeHeadKeeps(View(), items);
      c := Some(queue[0]);
      queue := queue[1..];
      if |queue| <= LowWatermark(chunk) {
        StartFill();
      }
    }
  }
}
