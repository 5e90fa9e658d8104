/**
 The participant scan (`telegram/participant_scanner.py`): a producer that pages through a stable
 participant list, a bounded queue, a consumer that persists batches and then checkpoints them, and the
 commands around it (cancel, crash, normalisation after a restart, resume).

 Each step is what happens between two awaits; a step that is not enabled leaves the world as it is.
 */
module Scanner {
  import opened Core
  import opened MemberStore
  import opened Ingest

  /** A basic chat comes in one page; a channel comes in pages of at most 200. */
  datatype Kind = Chat | Channel

  const PAGE: nat := 200

  /** What is being scanned, and into which dataset. */
  datatype Source = Source(people: seq<Member>, kind: Kind, target: Target)

  /** `iter_participant_pages` on a stable list: where the page that starts at `at` ends. */
  function PageEnd(src: Source, at: nat): (r: nat)
    requires at <= |src.people|
    ensures at <= r <= |src.people|
  {
    if src.kind.Chat? then (if at > 0 then at else |src.people|)
    else if at + PAGE <= |src.people| then at + PAGE else |src.people|
  }

  datatype Envelope = Page(members: seq<Member>, next: nat) | Sentinel

  datatype Producer = Fetching | Putting(envelope: Envelope) | Ended

  datatype Consumer = Getting | Ingesting(last: bool) | Checkpointing(last: bool) | Drained

  datatype Checkpoint = Checkpoint(offset: nat, accepted: nat, invalid: nat)

  /** The RAM of one `scan` call. */
  datatype Session = Session(
    cp: Checkpoint, cancelled: bool, cancel: bool,
    producer: Producer, produced: nat, queue: seq<Envelope>,
    consumer: Consumer, seen: set<int>, batch: seq<Member>, reached: nat)

  /** The tables, the job row and, while the process runs a scan of this job, its RAM. */
  datatype World = World(db: DB, state: JobState, saved: Checkpoint, live: Option<Session>)

  datatype Step =
    | Start            // start_scan, or resume_scan of a paused job
    | Fetch | Put      // producer
    | Get | CommitIngest | CommitCheckpoint  // consumer
    | Finish           // after the TaskGroup
    | Cancel           // user
    | Fail             // an exception of the gateway ends the TaskGroup
    | Crash | Normalize

  /** The consumer's loop over one page. */
  function Absorb(seen: set<int>, batch: seq<Member>, page: seq<Member>): (set<int>, seq<Member>)
    decreases |page|
  {
    if page == [] then (seen, batch)
    else
      var m := page[0];
      if m.uid.None? then Absorb(seen, batch + [m], page[1..])
      else if m.uid.value in seen then Absorb(seen, batch, page[1..])
      else Absorb(seen + {m.uid.value}, batch + [m], page[1..])
  }

  function NewSession(cp: Checkpoint): Session {
    Session(cp, false, false, Fetching, cp.offset, [], Getting, {}, [], cp.offset)
  }

  /** The first write of `scan` drops the invalid count from the saved checkpoint. */
  function DoStart(w: World): World {
    if w.live.None? && (w.state.Ready? || w.state.Paused?) then
      w.(state := Running, saved := w.saved.(invalid := 0), live := Some(NewSession(w.saved)))
    else w
  }

  function FetchPage(src: Source, s: Session): Session
    requires s.produced <= |src.people|
  {
    var end := PageEnd(src, s.produced);
    if end == s.produced || s.cancel then s.(producer := Putting(Sentinel))
    else s.(producer := Putting(Page(src.people[s.produced..end], end)), produced := end)
  }

  function PutNext(s: Session): Session
    requires s.producer.Putting?
  {
    s.(queue := s.queue + [s.producer.envelope], producer := if s.producer.envelope.Sentinel? then Ended else Fetching)
  }

  function GetNext(s: Session): Session
    requires s.queue != []
  {
    var s1 := s.(queue := s.queue[1..]);
    match s.queue[0]
    case Sentinel => s1.(consumer := if s.batch == [] then Drained else Ingesting(true))
    case Page(members, next) =>
      var r := Absorb(s.seen, s.batch, members);
      s1.(cancelled := s.cancelled || s.cancel, seen := r.0, batch := r.1, reached := next,
          consumer := if |r.1| >= SCAN_BATCH then Ingesting(false) else Getting)
  }

  /** The ingest transaction commits and the RAM checkpoint moves. */
  ghost function IngestBatchOf(src: Source, w: World, s: Session): World
    requires s.consumer.Ingesting?
  {
    var r := Ingest.Ingest(w.db, src.target, s.batch);
    if r.Aborted? then w
    else
      var cp := Checkpoint(s.reached, s.cp.accepted + r.accepted, s.cp.invalid + r.invalid);
      w.(db := r.db, live := Some(s.(cp := cp, consumer := Checkpointing(s.consumer.last))))
  }

  function SaveCheckpoint(w: World, s: Session): World
    requires s.consumer.Checkpointing?
  {
    w.(saved := s.cp,
       live := Some(s.(consumer := if s.consumer.last then Drained else Getting, batch := [])))
  }

  /** A write already queued when the TaskGroup fails still commits before the FAILED row does. */
  ghost function DoFail(src: Source, w: World, s: Session): World {
    var r := if s.consumer.Ingesting? then Ingest.Ingest(w.db, src.target, s.batch) else Aborted;
    World(if r.Tally? then r.db else w.db, Failed, s.cp, None)
  }

  ghost function NextLive(src: Source, w: World, s: Session, step: Step): World {
    match step
    case Fetch =>
      if s.producer.Fetching? && s.produced <= |src.people| then w.(live := Some(FetchPage(src, s))) else w
    case Put => if s.producer.Putting? && |s.queue| < SCAN_QUEUE then w.(live := Some(PutNext(s))) else w
    case Get => if s.consumer.Getting? && s.queue != [] then w.(live := Some(GetNext(s))) else w
    case CommitIngest => if s.consumer.Ingesting? then IngestBatchOf(src, w, s) else w
    case CommitCheckpoint => if s.consumer.Checkpointing? then SaveCheckpoint(w, s) else w
    case Finish =>
      if s.producer.Ended? && s.consumer.Drained? then
        World(w.db, if s.cancelled || s.cancel then Cancelled else Completed, s.cp, None)
      else w
    case Cancel => w.(live := Some(s.(cancel := true)))
    case Fail => DoFail(src, w, s)
    case Crash => w.(live := None)
    case _ => w
  }

  ghost function Next(src: Source, w: World, step: Step): World {
    match step
    case Start => DoStart(w)
    case Normalize => if w.live.None? && w.state.Running? then w.(state := Paused) else w
    case _ => if w.live.Some? then NextLive(src, w, w.live.value, step) else w
  }

  ghost function Run(src: Source, w: World, steps: seq<Step>): World {
    if steps == [] then w else Next(src, Run(src, w, steps[..|steps| - 1]), steps[|steps| - 1])
  }

  function Init(db: DB): World {
    World(db, Ready, Checkpoint(0, 0, 0), None)
  }

  // ------------------------------------------------------------------------------------------
  // The consumer's loop
  // ------------------------------------------------------------------------------------------

  lemma UidsSplit(a: seq<Member>, b: seq<Member>)
    ensures Uids(a + b) == Uids(a) + Uids(b)
  {
  }

  lemma UidsOne(m: Member)
    ensures Uids([m]) == if m.uid.Some? then {m.uid.value} else {}
  {
    assert m in [m];
  }

  /** Absorbing a page loses no Telegram id, repeats none it has seen, and only adds members of that page. */
  lemma {:induction false} AbsorbMeaning(seen: set<int>, batch: seq<Member>, page: seq<Member>)
    ensures var r := Absorb(seen, batch, page);
      && r.0 == seen + Uids(page)
      && Uids(r.1) == Uids(batch) + (Uids(page) - seen)
      && batch <= r.1
      && (forall m :: m in r.1 ==> m in batch || m in page)
    decreases |page|
  {
    if page != [] {
      var m := page[0];
      assert page == [m] + page[1..];
      UidsSplit([m], page[1..]);
      UidsSplit(batch, [m]);
      UidsOne(m);
      if m.uid.None? {
        AbsorbMeaning(seen, batch + [m], page[1..]);
      } else if m.uid.value in seen {
        AbsorbMeaning(seen, batch, page[1..]);
      } else {
        AbsorbMeaning(seen + {m.uid.value}, batch + [m], page[1..]);
      }
    }
  }

  method AbsorbPage(seen: set<int>, batch: seq<Member>, page: seq<Member>) returns (seen': set<int>, batch': seq<Member>)
    ensures (seen', batch') == Absorb(seen, batch, page)
    ensures seen' == seen + Uids(page) && batch <= batch'
  {
    seen', batch' := seen, batch;
    for i := 0 to |page|
      invariant Absorb(seen', batch', page[i..]) == Absorb(seen, batch, page)
    {
      var m := page[i];
      assert page[i..][1..] == page[i + 1..];
      if m.uid.None? {
        batch' := batch' + [m];
      } else if m.uid.value !in seen' {
        seen' := seen' + {m.uid.value};
        batch' := batch' + [m];
      }
    }
    AbsorbMeaning(seen, batch, page);
  }

  // ------------------------------------------------------------------------------------------
  // Invariant
  // ------------------------------------------------------------------------------------------

  /** Every Telegram id among the first `k` participants is in the dataset. */
  ghost predicate Covered(src: Source, db: DB, k: nat) {
    k <= |src.people| && Uids(src.people[..k]) <= UidsOf(db, src.target.dataset)
  }

  /** Offsets at which a scan of a chat can stand. */
  predicate Boundary(src: Source, k: nat) {
    k <= |src.people| && (src.kind.Chat? ==> k == 0 || k == |src.people|)
  }

  /** The queued pages are consecutive slices from `from` to `to`; a sentinel can only be last. */
  predicate Slices(people: seq<Member>, queue: seq<Envelope>, from: nat, to: nat) {
    if queue == [] then from == to
    else match queue[0]
      case Sentinel => |queue| == 1 && from == to
      case Page(members, next) =>
        from <= next <= |people| && members == people[from..next] && Slices(people, queue[1..], next, to)
  }

  predicate HasSentinel(queue: seq<Envelope>) {
    queue != [] && queue[|queue| - 1].Sentinel?
  }

  /** Everything between the consumer and the producer, the producer's own envelope included. */
  function InTransit(s: Session): seq<Envelope> {
    s.queue + (if s.producer.Putting? then [s.producer.envelope] else [])
  }

  /** The consumer has taken the sentinel. */
  predicate Closing(c: Consumer) {
    c.Drained? || (c.Ingesting? && c.last) || (c.Checkpointing? && c.last)
  }

  predicate PageBounds(src: Source, es: seq<Envelope>) {
    forall e :: e in es && e.Page? ==> Boundary(src, e.next)
  }

  /** Producer, queue and consumer: nothing is lost in transit, and the sentinel ends it. */
  ghost predicate PipeInv(src: Source, s: Session) {
    && s.reached <= s.produced && |s.queue| <= SCAN_QUEUE
    && Boundary(src, s.produced) && Boundary(src, s.reached) && Boundary(src, s.cp.offset)
    && PageBounds(src, InTransit(s))
    && Slices(src.people, InTransit(s), s.reached, s.produced)
    && (Closing(s.consumer) <==> s.producer.Ended? && s.queue == [])
    && (s.producer.Ended? && s.queue != [] ==> HasSentinel(s.queue))
    && (!s.producer.Ended? ==> !HasSentinel(s.queue))
    && (s.producer.Ended? || s.producer == Putting(Sentinel) ==> s.cancel || s.produced == |src.people|)
  }

  /** Everything the consumer has passed is in the dataset or in the current batch. */
  ghost predicate DataInv(src: Source, uids: set<int>, s: Session) {
    && s.reached <= |src.people| && s.cp.offset <= |src.people|
    && Uids(src.people[..s.cp.offset]) <= uids
    && Uids(src.people[..s.reached]) <= uids + Uids(s.batch)
    && s.seen <= uids + Uids(s.batch)
    && (s.consumer.Checkpointing? ==> s.cp.offset == s.reached && Uids(s.batch) <= uids)
    && (s.consumer.Drained? ==> Uids(src.people[..s.reached]) <= uids)
    && Uids(s.batch) <= Uids(src.people)
  }

  ghost predicate ScanInv(src: Source, base: set<int>, w: World) {
    var uids := UidsOf(w.db, src.target.dataset);
    && Inv(w.db) && src.target.dataset in w.db.counts
    && base <= uids <= base + Uids(src.people)
    && Boundary(src, w.saved.offset) && Uids(src.people[..w.saved.offset]) <= uids
    && (w.state.Completed? ==> Uids(src.people) <= uids)
    && (w.live.Some? ==> w.state.Running? && PipeInv(src, w.live.value) && DataInv(src, uids, w.live.value))
  }

  // ------------------------------------------------------------------------------------------
  // The pipe
  // ------------------------------------------------------------------------------------------

  lemma {:induction false} SlicesAppend(people: seq<Member>, queue: seq<Envelope>, from: nat, mid: nat, e: Envelope, to: nat)
    requires Slices(people, queue, from, mid) && !HasSentinel(queue)
    requires Slices(people, [e], mid, to)
    ensures Slices(people, queue + [e], from, to)
    decreases |queue|
  {
    if queue == [] {
      assert queue + [e] == [e];
    } else {
      assert (queue + [e])[1..] == queue[1..] + [e];
      if |queue| > 1 {
        assert !queue[0].Sentinel?;
        assert HasSentinel(queue[1..]) ==> HasSentinel(queue);
      }
      SlicesAppend(people, queue[1..], queue[0].next, mid, e, to);
    }
  }

  lemma {:induction false} SlicesOrdered(people: seq<Member>, queue: seq<Envelope>, from: nat, to: nat)
    requires Slices(people, queue, from, to)
    ensures from <= to
    decreases |queue|
  {
    if queue != [] && queue[0].Page? {
      SlicesOrdered(people, queue[1..], queue[0].next, to);
    }
  }

  lemma FetchKeeps(src: Source, s: Session)
    requires PipeInv(src, s) && s.producer.Fetching?
    ensures PipeInv(src, FetchPage(src, s))
  {
    var s' := FetchPage(src, s);
    assert InTransit(s) == s.queue;
    assert InTransit(s') == s.queue + [s'.producer.envelope];
    assert Slices(src.people, [], s'.produced, s'.produced);
    assert [s'.producer.envelope][1..] == [];
    SlicesAppend(src.people, s.queue, s.reached, s.produced, s'.producer.envelope, s'.produced);
  }

  lemma PutKeeps(src: Source, s: Session)
    requires PipeInv(src, s) && s.producer.Putting? && |s.queue| < SCAN_QUEUE
    ensures PipeInv(src, PutNext(s))
  {
    var s' := PutNext(s);
    assert InTransit(s') == InTransit(s);
  }

  /** Taking the head of the queue. */
  lemma Dequeue(src: Source, s: Session)
    requires PipeInv(src, s) && s.queue != []
    ensures var rest := s.(queue := s.queue[1..]);
      && InTransit(s)[0] == s.queue[0] && InTransit(rest) == InTransit(s)[1..] && PageBounds(src, InTransit(rest))
      && (s.queue[0].Page? ==>
            && Boundary(src, s.queue[0].next) && s.reached <= s.queue[0].next <= s.produced
            && s.queue[0].members == src.people[s.reached..s.queue[0].next]
            && Slices(src.people, InTransit(rest), s.queue[0].next, s.produced))
      && (s.queue[0].Sentinel? ==> InTransit(rest) == [] && s.reached == s.produced)
  {
    var rest := s.(queue := s.queue[1..]);
    assert InTransit(s)[0] == s.queue[0];
    assert InTransit(rest) == InTransit(s)[1..];
    assert s.queue[0] in InTransit(s);
    assert forall e :: e in InTransit(rest) ==> e in InTransit(s);
    if s.queue[0].Page? {
      SlicesOrdered(src.people, InTransit(rest), s.queue[0].next, s.produced);
    }
  }

  lemma GetSentinelKeeps(src: Source, s: Session)
    requires PipeInv(src, s) && s.consumer.Getting? && s.queue != [] && s.queue[0].Sentinel?
    ensures PipeInv(src, GetNext(s))
  {
    Dequeue(src, s);
    var s' := GetNext(s);
    assert InTransit(s') == [];
    assert s.queue == [Sentinel];
  }

  lemma GetPageKeeps(src: Source, s: Session)
    requires PipeInv(src, s) && s.consumer.Getting? && s.queue != [] && s.queue[0].Page?
    ensures PipeInv(src, GetNext(s))
  {
    Dequeue(src, s);
    var s' := GetNext(s);
    assert InTransit(s') == InTransit(s.(queue := s.queue[1..]));
    assert s'.queue != [] ==> s'.queue[|s'.queue| - 1] == s.queue[|s.queue| - 1];
  }

  lemma GetKeeps(src: Source, s: Session)
    requires PipeInv(src, s) && s.consumer.Getting? && s.queue != []
    ensures PipeInv(src, GetNext(s))
  {
    if s.queue[0].Page? {
      GetPageKeeps(src, s);
    } else {
      GetSentinelKeeps(src, s);
    }
  }

  // ------------------------------------------------------------------------------------------
  // The data
  // ------------------------------------------------------------------------------------------

  /** `before` passed, `page` being absorbed, against what is stored, seen and batched. */
  lemma PageIsCovered(before: set<int>, page: set<int>, stored: set<int>, seen: set<int>, batch: set<int>, all: set<int>)
    requires before <= stored + batch && seen <= stored + batch && batch <= all && page <= all
    ensures before + page <= stored + (batch + (page - seen)) && seen + page <= stored + (batch + (page - seen))
    ensures batch + (page - seen) <= all
  {
  }

  lemma GetKeepsData(src: Source, uids: set<int>, s: Session)
    requires PipeInv(src, s) && DataInv(src, uids, s) && s.consumer.Getting? && s.queue != []
    ensures DataInv(src, uids, GetNext(s))
  {
    Dequeue(src, s);
    if s.queue[0].Page? {
      GetPageKeepsData(src, uids, s, s.queue[0].members, s.queue[0].next);
    } else {
      assert s.batch == [] ==> Uids(s.batch) == {};
    }
  }

  lemma GetPageKeepsData(src: Source, uids: set<int>, s: Session, page: seq<Member>, next: nat)
    requires DataInv(src, uids, s) && s.consumer.Getting? && s.queue != [] && s.queue[0] == Page(page, next)
    requires s.reached <= next <= |src.people| && page == src.people[s.reached..next]
    ensures DataInv(src, uids, GetNext(s))
  {
    var before := src.people[..s.reached];
    assert src.people[..next] == before + page;
    UidsSplit(before, page);
    assert src.people == src.people[..next] + src.people[next..];
    UidsSplit(src.people[..next], src.people[next..]);
    AbsorbMeaning(s.seen, s.batch, page);
    PageIsCovered(Uids(before), Uids(page), uids, s.seen, Uids(s.batch), Uids(src.people));
  }

  lemma IngestKeeps(src: Source, base: set<int>, w: World, s: Session)
    requires ScanInv(src, base, w) && w.live == Some(s) && s.consumer.Ingesting?
    ensures ScanInv(src, base, IngestBatchOf(src, w, s))
    ensures UidsOf(IngestBatchOf(src, w, s).db, src.target.dataset) ==
      UidsOf(w.db, src.target.dataset) + Uids(s.batch)
  {
    IngestAccounting(w.db, src.target, s.batch);
    IngestUids(w.db, src.target, s.batch);
    var w' := IngestBatchOf(src, w, s);
    assert InTransit(w'.live.value) == InTransit(s);
  }

  lemma CheckpointKeeps(src: Source, base: set<int>, w: World, s: Session)
    requires ScanInv(src, base, w) && w.live == Some(s) && s.consumer.Checkpointing?
    ensures ScanInv(src, base, SaveCheckpoint(w, s))
  {
    var w' := SaveCheckpoint(w, s);
    assert InTransit(w'.live.value) == InTransit(s);
  }

  lemma FailKeeps(src: Source, base: set<int>, w: World, s: Session)
    requires ScanInv(src, base, w) && w.live == Some(s)
    ensures ScanInv(src, base, DoFail(src, w, s))
  {
    if s.consumer.Ingesting? {
      IngestKeeps(src, base, w, s);
    }
  }

  /** Draining the queue without a cancel means the whole list was passed. */
  lemma FinishKeeps(src: Source, base: set<int>, w: World, s: Session)
    requires ScanInv(src, base, w) && w.live == Some(s) && s.producer.Ended? && s.consumer.Drained?
    ensures ScanInv(src, base, NextLive(src, w, s, Finish))
  {
    assert InTransit(s) == [];
    if !s.cancel {
      assert src.people[..|src.people|] == src.people;
    }
  }

  lemma StartKeeps(src: Source, base: set<int>, w: World)
    requires ScanInv(src, base, w) && w.live.None? && (w.state.Ready? || w.state.Paused?)
    ensures ScanInv(src, base, DoStart(w))
  {
    var s := DoStart(w).live.value;
    assert InTransit(s) == [];
  }

  lemma NextKeeps(src: Source, base: set<int>, w: World, step: Step)
    requires ScanInv(src, base, w)
    ensures ScanInv(src, base, Next(src, w, step))
  {
    if step.Start? {
      if w.live.None? && (w.state.Ready? || w.state.Paused?) {
        StartKeeps(src, base, w);
      }
    } else if step.Normalize? {
    } else if w.live.Some? {
      NextLiveKeeps(src, base, w, w.live.value, step);
    }
  }

  /** Only the consumer's fields matter to the data. */
  lemma DataFrame(src: Source, uids: set<int>, s: Session, s': Session)
    requires DataInv(src, uids, s)
    requires s'.cp == s.cp && s'.consumer == s.consumer && s'.seen == s.seen && s'.batch == s.batch && s'.reached == s.reached
    ensures DataInv(src, uids, s')
  {
  }

  /** What a step that touches RAM only keeps. */
  ghost predicate RamKept(src: Source, uids: set<int>, w: World, w': World) {
    && w' == w.(live := w'.live) && w'.live.Some?
    && PipeInv(src, w'.live.value) && DataInv(src, uids, w'.live.value)
  }

  lemma FetchStepKeeps(src: Source, uids: set<int>, s: Session, w: World)
    requires PipeInv(src, s) && DataInv(src, uids, s) && w.live == Some(s)
    ensures RamKept(src, uids, w, NextLive(src, w, s, Fetch))
  {
    if s.producer.Fetching? {
      FetchKeeps(src, s);
      DataFrame(src, uids, s, FetchPage(src, s));
    }
  }

  lemma PutStepKeeps(src: Source, uids: set<int>, s: Session, w: World)
    requires PipeInv(src, s) && DataInv(src, uids, s) && w.live == Some(s)
    ensures RamKept(src, uids, w, NextLive(src, w, s, Put))
  {
    if s.producer.Putting? && |s.queue| < SCAN_QUEUE {
      PutKeeps(src, s);
      DataFrame(src, uids, s, PutNext(s));
    }
  }

  lemma GetStepKeeps(src: Source, uids: set<int>, s: Session, w: World)
    requires PipeInv(src, s) && DataInv(src, uids, s) && w.live == Some(s)
    ensures RamKept(src, uids, w, NextLive(src, w, s, Get))
  {
    if s.consumer.Getting? && s.queue != [] {
      GetKeeps(src, s);
      GetKeepsData(src, uids, s);
    }
  }

  lemma CancelStepKeeps(src: Source, uids: set<int>, s: Session, w: World)
    requires PipeInv(src, s) && DataInv(src, uids, s) && w.live == Some(s)
    ensures RamKept(src, uids, w, NextLive(src, w, s, Cancel))
  {
    assert InTransit(s.(cancel := true)) == InTransit(s);
    DataFrame(src, uids, s, s.(cancel := true));
  }

  /** The steps that touch RAM only. */
  lemma RamStepKeeps(src: Source, uids: set<int>, s: Session, step: Step, w: World)
    requires PipeInv(src, s) && DataInv(src, uids, s) && w.live == Some(s)
    requires step.Fetch? || step.Put? || step.Get? || step.Cancel?
    ensures RamKept(src, uids, w, NextLive(src, w, s, step))
  {
    if step.Fetch? {
      FetchStepKeeps(src, uids, s, w);
    } else if step.Put? {
      PutStepKeeps(src, uids, s, w);
    } else if step.Get? {
      GetStepKeeps(src, uids, s, w);
    } else {
      CancelStepKeeps(src, uids, s, w);
    }
  }

  lemma NextLiveKeeps(src: Source, base: set<int>, w: World, s: Session, step: Step)
    requires ScanInv(src, base, w) && w.live == Some(s)
    ensures ScanInv(src, base, NextLive(src, w, s, step))
  {
    if step.Fetch? || step.Put? || step.Get? || step.Cancel? {
      RamStepKeeps(src, UidsOf(w.db, src.target.dataset), s, step, w);
    } else if step.CommitIngest? && s.consumer.Ingesting? {
      IngestKeeps(src, base, w, s);
    } else if step.CommitCheckpoint? && s.consumer.Checkpointing? {
      CheckpointKeeps(src, base, w, s);
    } else if step.Finish? && s.producer.Ended? && s.consumer.Drained? {
      FinishKeeps(src, base, w, s);
    } else if step.Fail? {
      FailKeeps(src, base, w, s);
    }
  }

  lemma {:induction false} RunKeepsScan(src: Source, base: set<int>, w: World, steps: seq<Step>)
    requires ScanInv(src, base, w)
    ensures ScanInv(src, base, Run(src, w, steps))
  {
    if steps != [] {
      var k := |steps| - 1;
      RunKeepsScan(src, base, w, steps[..k]);
      NextKeeps(src, base, Run(src, w, steps[..k]), steps[k]);
    }
  }

  // ------------------------------------------------------------------------------------------
  // Whole runs
  // ------------------------------------------------------------------------------------------

  /** In every reachable world the saved offset covers only participants already durably in the dataset. */
  lemma CheckpointIsDurable(src: Source, db: DB, steps: seq<Step>)
    requires Inv(db) && src.target.dataset in db.counts
    ensures var w := Run(src, Init(db), steps);
      && Inv(w.db) && Covered(src, w.db, w.saved.offset)
      && (w.live.Some? ==> |w.live.value.queue| <= SCAN_QUEUE && Covered(src, w.db, w.live.value.cp.offset))
  {
    RunKeepsScan(src, UidsOf(db, src.target.dataset), Init(db), steps);
  }

  /**
   Crash safety: after any sequence of crashes, recoveries and resumes, a completed scan has put into the
   dataset exactly the Telegram ids that ingesting the whole list once would have put there.
   */
  lemma CompletedScanIsComplete(src: Source, db: DB, steps: seq<Step>)
    requires Inv(db) && src.target.dataset in db.counts
    requires Run(src, Init(db), steps).state.Completed?
    ensures var once := Ingest.Ingest(db, src.target, src.people);
      once.Tally? &&
      UidsOf(Run(src, Init(db), steps).db, src.target.dataset) == UidsOf(once.db, src.target.dataset)
  {
    RunKeepsScan(src, UidsOf(db, src.target.dataset), Init(db), steps);
    IngestUids(db, src.target, src.people);
  }

  // ------------------------------------------------------------------------------------------
  // Progress
  // ------------------------------------------------------------------------------------------

  predicate Own(step: Step) {
    step.Fetch? || step.Put? || step.Get? || step.CommitIngest? || step.CommitCheckpoint? || step.Finish?
  }

  function ProducerWork(p: Producer): nat {
    match p
    case Fetching => 8
    case Putting(e) => if e.Sentinel? then 7 else 17
    case Ended => 0
  }

  function ConsumerWork(c: Consumer): nat {
    match c
    case Getting => 1
    case Ingesting(_) => 3
    case Checkpointing(_) => 2
    case Drained => 0
  }

  /** How much work a scan has left at most. */
  function Work(src: Source, w: World): nat {
    if w.live.None? then 0
    else
      var s := w.live.value;
      1 + 10 * (if s.produced <= |src.people| then |src.people| - s.produced else 0)
        + ProducerWork(s.producer) + 5 * |s.queue| + ConsumerWork(s.consumer)
  }

  /** Every step of the scan's own that is enabled uses up work. */
  lemma StepsUseWork(src: Source, base: set<int>, w: World, step: Step)
    requires ScanInv(src, base, w) && Own(step) && Next(src, w, step) != w
    ensures Work(src, Next(src, w, step)) < Work(src, w)
  {
    if step.CommitIngest? && w.live.value.consumer.Ingesting? {
      IngestAccounting(w.db, src.target, w.live.value.batch);
    }
  }

  /** The step a live scan can always take. */
  function Enabled(s: Session): Step {
    if s.consumer.Ingesting? then CommitIngest
    else if s.consumer.Checkpointing? then CommitCheckpoint
    else if s.consumer.Drained? then Finish
    else if s.queue != [] then Get
    else if s.producer.Fetching? then Fetch
    else Put
  }

  /**
   No deadlock: in every reachable world with a live scan one of the scan's own steps changes it, and no
   schedule of such steps is longer than the remaining work.
   */
  lemma ScanNeverStalls(src: Source, db: DB, steps: seq<Step>)
    requires Inv(db) && src.target.dataset in db.counts
    ensures var w := Run(src, Init(db), steps);
      && (w.live.Some? ==> Own(Enabled(w.live.value)) && Next(src, w, Enabled(w.live.value)) != w)
      && (forall step :: Own(step) && Next(src, w, step) != w ==> Work(src, Next(src, w, step)) < Work(src, w))
  {
    var base := UidsOf(db, src.target.dataset);
    RunKeepsScan(src, base, Init(db), steps);
    var w := Run(src, Init(db), steps);
    forall step | Own(step) && Next(src, w, step) != w
      ensures Work(src, Next(src, w, step)) < Work(src, w)
    {
      StepsUseWork(src, base, w, step);
    }
    if w.live.Some? {
      EnabledChanges(src, base, w, w.live.value);
    }
  }

  lemma EnabledChanges(src: Source, base: set<int>, w: World, s: Session)
    requires ScanInv(src, base, w) && w.live == Some(s)
    ensures Next(src, w, Enabled(s)) != w
  {
    if s.consumer.Ingesting? {
      IngestAccounting(w.db, src.target, s.batch);
      assert Next(src, w, CommitIngest).live.value.consumer.Checkpointing?;
    } else if s.consumer.Getting? {
      GettingGoesOn(src, s);
      if s.queue != [] {
        assert Next(src, w, Get).live == Some(GetNext(s));
      } else if s.producer.Fetching? {
        assert Next(src, w, Fetch).live == Some(FetchPage(src, s));
      } else {
        assert Next(src, w, Put).live == Some(PutNext(s));
      }
    }
  }

  /** A consumer waiting on an empty queue has a producer that can move. */
  lemma GettingGoesOn(src: Source, s: Session)
    requires PipeInv(src, s) && s.consumer.Getting?
    ensures s.queue != [] ==> GetNext(s) != s
    ensures s.queue == [] ==> !s.producer.Ended?
    ensures s.queue == [] && s.producer.Fetching? ==> FetchPage(src, s) != s
    ensures s.queue == [] && s.producer.Putting? ==> PutNext(s) != s
  {
    if s.queue != [] {
      assert |GetNext(s).queue| < |s.queue|;
    } else if s.producer.Fetching? {
      assert !FetchPage(src, s).producer.Fetching?;
    }
  }
}
