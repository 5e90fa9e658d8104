/**
 The single SQLite writer (`runtime/db_writer.py`).

 Callers submit operations from any thread; one thread takes them in FIFO order, coalesces routine
 operations into one transaction and gives every critical operation a transaction of its own.  The
 environment decides when callers submit, when `get` times out, which operations raise, and whether
 BEGIN or COMMIT fail.  The database type `D` and the result type `V` are arbitrary.
 */
module DbWriter {
  import opened Core

  /** What running an operation against the open transaction yields: a new state and a result, or an exception. */
  datatype Reply<D, V> = Done(db: D, value: V) | Raised

  datatype Task<!D, V> = Task(run: D -> Reply<D, V>, critical: bool)

  datatype Future<V> = Waiting | Resolved(value: V) | Rejected

  datatype Entry = Work(id: nat) | Stop

  /** Whether the environment lets one transaction begin and commit. */
  datatype Luck = Luck(begins: bool, commits: bool)

  /** Submissions, `stop()`, and one turn of the writer's loop with the luck of its (at most two) transactions. */
  datatype Event<!D, V> =
    | Submit(task: Task<D, V>)
    | PutStop
    | Turn(batch: Luck, single: Luck)

  /**
   `tasks[i]` is the i-th accepted submission and `futures[i]` its future; `stopAt` remembers how many
   submissions preceded the first STOP.
   */
  datatype State<!D, V> = State(
    db: D,
    tasks: seq<Task<D, V>>,
    futures: seq<Future<V>>,
    queue: seq<Entry>,
    pending: seq<nat>,
    stopped: bool,
    stopAt: Option<nat>)

  function Init<D, V>(db: D): State<D, V> {
    State(db, [], [], [], [], false, None)
  }

  /** Operations run one after another inside one transaction; the first exception abandons them all. */
  function RunAll<D, V>(tasks: seq<Task<D, V>>, db: D): (r: Reply<D, seq<V>>)
    ensures r.Done? ==> |r.value| == |tasks|
  {
    if tasks == [] then Done(db, [])
    else
      var k := |tasks| - 1;
      match RunAll(tasks[..k], db)
      case Raised => Raised
      case Done(d, values) =>
        match tasks[k].run(d)
        case Raised => Raised
        case Done(d', v) => Done(d', values + [v])
  }

  /** The outcome of one transaction. */
  function Transact<D, V>(tasks: seq<Task<D, V>>, db: D, luck: Luck): (r: Reply<D, seq<V>>)
    ensures r.Done? ==> |r.value| == |tasks|
  {
    if luck.begins && luck.commits then RunAll(tasks, db) else Raised
  }

  /** The operations behind a list of submission ids. */
  function Lookup<D, V>(tasks: seq<Task<D, V>>, ids: seq<nat>): (r: seq<Task<D, V>>)
    requires forall i :: 0 <= i < |ids| ==> ids[i] < |tasks|
    ensures |r| == |ids|
    ensures forall i :: 0 <= i < |ids| ==> r[i] == tasks[ids[i]]
  {
    seq(|ids|, i requires 0 <= i < |ids| => tasks[ids[i]])
  }

  /** Every future of a transaction receives that transaction's outcome, in order. */
  function Settle<D, V>(futures: seq<Future<V>>, ids: seq<nat>, r: Reply<D, seq<V>>): (fs: seq<Future<V>>)
    requires forall i :: 0 <= i < |ids| ==> ids[i] < |futures|
    requires r.Done? ==> |r.value| >= |ids|
    ensures |fs| == |futures|
    ensures forall i :: 0 <= i < |fs| && i !in ids ==> fs[i] == futures[i]
  {
    if ids == [] then futures
    else
      var k := |ids| - 1;
      Settle(futures, ids[..k], r)[ids[k] := if r.Done? then Resolved(r.value[k]) else Rejected]
  }

  /** Ids held by the queue or the open batch refer to submissions. */
  ghost predicate WellFormed<D, V>(s: State<D, V>) {
    && |s.futures| == |s.tasks|
    && (forall i :: 0 <= i < |s.pending| ==> s.pending[i] < |s.tasks|)
    && (forall i :: 0 <= i < |s.queue| && s.queue[i].Work? ==> s.queue[i].id < |s.tasks|)
  }

  /** `_commit_batch`: one all-or-nothing transaction over the given submissions. */
  function Commit<D, V>(s: State<D, V>, ids: seq<nat>, luck: Luck): (t: State<D, V>)
    requires WellFormed(s)
    requires forall i :: 0 <= i < |ids| ==> ids[i] < |s.tasks|
    ensures WellFormed(t)
  {
    var r := Transact(Lookup(s.tasks, ids), s.db, luck);
    s.(db := if r.Done? then r.db else s.db, futures := Settle(s.futures, ids, r))
  }

  /** Commit the open batch and start an empty one. */
  function Flush<D, V>(s: State<D, V>, luck: Luck): (t: State<D, V>)
    requires WellFormed(s)
    ensures WellFormed(t) && t.pending == []
  {
    Commit(s, s.pending, luck).(pending := [])
  }

  /** One turn of `_run`: take the next entry, or time out on an empty queue. */
  function TurnOnce<D, V>(s: State<D, V>, batch: Luck, single: Luck): (t: State<D, V>)
    requires WellFormed(s)
    ensures WellFormed(t)
  {
    if s.stopped then s
    else if s.queue == [] then Flush(s, batch)
    else
      var s1 := s.(queue := s.queue[1..]);
      match s.queue[0]
      case Stop => Flush(s1, batch).(stopped := true)
      case Work(id) =>
        if s.tasks[id].critical then Commit(Flush(s1, batch), [id], single)
        else
          var s2 := s1.(pending := s.pending + [id]);
          if |s2.pending| >= WRITER_BATCH then Flush(s2, batch) else s2
  }

  /** `submit`: refused once the writer has stopped, blocked while the queue is full. */
  function SubmitOne<D, V>(s: State<D, V>, task: Task<D, V>): (t: State<D, V>)
    requires WellFormed(s)
    ensures WellFormed(t)
  {
    if s.stopped || |s.queue| >= WRITER_QUEUE then s
    else s.(tasks := s.tasks + [task], futures := s.futures + [Waiting], queue := s.queue + [Work(|s.tasks|)])
  }

  /** The put of the STOP marker at the end of `stop()`. */
  function StopOnce<D, V>(s: State<D, V>): (t: State<D, V>)
    requires WellFormed(s)
    ensures WellFormed(t)
  {
    if |s.queue| >= WRITER_QUEUE then s
    else s.(queue := s.queue + [Stop], stopAt := if s.stopAt.None? then Some(|s.tasks|) else s.stopAt)
  }

  function Step<D, V>(s: State<D, V>, e: Event<D, V>): (t: State<D, V>)
    requires WellFormed(s)
    ensures WellFormed(t)
  {
    match e
    case Submit(task) => SubmitOne(s, task)
    case PutStop => StopOnce(s)
    case Turn(batch, single) => TurnOnce(s, batch, single)
  }

  /** A whole history of the writer, from an interleaving chosen by the environment. */
  function Run<D, V>(s: State<D, V>, es: seq<Event<D, V>>): (t: State<D, V>)
    requires WellFormed(s)
    ensures WellFormed(t)
  {
    if es == [] then s else Step(Run(s, es[..|es| - 1]), es[|es| - 1])
  }

  // ------------------------------------------------------------------------------------------
  // The sequential store the writer refines
  // ------------------------------------------------------------------------------------------

  /**
   The store a single-threaded program would reach by running, in submission order, exactly the
   operations whose futures succeeded; `None` when some reported result is not the one it returns.
   */
  ghost function Serial<D, V>(db: D, tasks: seq<Task<D, V>>, futures: seq<Future<V>>): Option<D>
    requires |tasks| == |futures|
  {
    if tasks == [] then Some(db)
    else
      var k := |tasks| - 1;
      match Serial(db, tasks[..k], futures[..k])
      case None => None
      case Some(d) =>
        if !futures[k].Resolved? then Some(d)
        else
          match tasks[k].run(d)
          case Raised => None
          case Done(d', v) => if v == futures[k].value then Some(d') else None
  }

  /** The queue entries before the first STOP are the next submissions in order. */
  ghost predicate Queued(queue: seq<Entry>, from: nat, n: nat) {
    n <= |queue| && forall j :: 0 <= j < n ==> queue[j] == Work(from + j)
  }

  /** Where the queue stands once submissions below `p` have been taken and `n` were accepted. */
  ghost predicate Lineup(queue: seq<Entry>, p: nat, n: nat, stopped: bool, stopAt: Option<nat>) {
    match stopAt
    case None => !stopped && p + |queue| == n && Queued(queue, p, |queue|)
    case Some(k) =>
      && k <= n
      && (stopped ==> p == k)
      && (!stopped ==> p <= k && Queued(queue, p, k - p) && k - p < |queue| && queue[k - p] == Stop)
  }

  /** The submissions below `r` are settled, and nothing else is. */
  ghost predicate SettledBelow<V>(futures: seq<Future<V>>, r: nat) {
    forall i :: 0 <= i < |futures| ==> (futures[i].Waiting? <==> r <= i)
  }

  ghost predicate Consecutive(ids: seq<nat>, lo: nat) {
    forall j :: 0 <= j < |ids| ==> ids[j] == lo + j
  }

  /** The submissions split, in order, into `r` settled ones, the open batch, and the queue. */
  ghost predicate Inv<D, V>(db: D, s: State<D, V>, r: nat) {
    && WellFormed(s)
    && r + |s.pending| <= |s.tasks|
    && SettledBelow(s.futures, r)
    && Consecutive(s.pending, r)
    && |s.pending| < WRITER_BATCH
    && |s.queue| <= WRITER_QUEUE
    && Serial(db, s.tasks, s.futures) == Some(s.db)
    && (s.stopped ==> s.pending == [])
    && Lineup(s.queue, r + |s.pending|, |s.tasks|, s.stopped, s.stopAt)
  }

  /** Taking a work entry off the front moves the line up by one submission. */
  lemma LineupAdvances(queue: seq<Entry>, p: nat, n: nat, stopAt: Option<nat>)
    requires Lineup(queue, p, n, false, stopAt) && queue != [] && queue[0].Work?
    ensures queue[0] == Work(p) && p < n
    ensures Lineup(queue[1..], p + 1, n, false, stopAt)
  {
    assert forall j :: 0 <= j < |queue| - 1 ==> queue[1..][j] == queue[j + 1];
  }

  /** Waiting futures contribute nothing to the sequential store. */
  lemma {:induction false} SerialIgnoresWaiting<D, V>(db: D, tasks: seq<Task<D, V>>, futures: seq<Future<V>>, r: nat)
    requires |tasks| == |futures| && r <= |tasks|
    requires forall i :: r <= i < |futures| ==> !futures[i].Resolved?
    ensures Serial(db, tasks, futures) == Serial(db, tasks[..r], futures[..r])
  {
    if r == |tasks| {
      assert tasks[..r] == tasks && futures[..r] == futures;
    } else {
      var k := |tasks| - 1;
      SerialIgnoresWaiting(db, tasks[..k], futures[..k], r);
      assert tasks[..k][..r] == tasks[..r] && futures[..k][..r] == futures[..r];
    }
  }

  /** A committed batch is the same store as running its operations one at a time after the settled ones. */
  lemma {:induction false} SerialBatch<D, V>(
    db: D, tasks: seq<Task<D, V>>, futures: seq<Future<V>>, r: nat, d: D, out: Reply<D, seq<V>>)
    requires |tasks| == |futures| && r <= |tasks|
    requires Serial(db, tasks[..r], futures[..r]) == Some(d)
    requires out == RunAll(tasks[r..], d) && out.Done?
    requires forall i :: r <= i < |tasks| ==> futures[i] == Resolved(out.value[i - r])
    ensures Serial(db, tasks, futures) == Some(out.db)
  {
    if r == |tasks| {
      assert tasks[..r] == tasks && futures[..r] == futures;
    } else {
      var k := |tasks| - 1;
      assert tasks[r..][..k - r] == tasks[..k][r..];
      assert tasks[..k][..r] == tasks[..r] && futures[..k][..r] == futures[..r];
      var out' := RunAll(tasks[..k][r..], d);
      SerialBatch(db, tasks[..k], futures[..k], r, d, out');
    }
  }

  /** The same with submissions still waiting behind the batch. */
  lemma SerialWithBatch<D, V>(
    db: D, tasks: seq<Task<D, V>>, futures: seq<Future<V>>, ids: seq<nat>, r: nat, d: D, out: Reply<D, seq<V>>)
    requires |tasks| == |futures| && r + |ids| <= |tasks| && Consecutive(ids, r)
    requires Serial(db, tasks[..r], futures[..r]) == Some(d)
    requires forall i :: 0 <= i < |ids| ==> ids[i] < |tasks|
    requires out == RunAll(Lookup(tasks, ids), d) && out.Done?
    requires forall i :: r <= i < r + |ids| ==> futures[i] == Resolved(out.value[i - r])
    requires forall i :: r + |ids| <= i < |futures| ==> futures[i].Waiting?
    ensures Serial(db, tasks, futures) == Some(out.db)
  {
    var n := r + |ids|;
    assert Lookup(tasks, ids) == tasks[..n][r..];
    assert tasks[..n][..r] == tasks[..r] && futures[..n][..r] == futures[..r];
    SerialBatch(db, tasks[..n], futures[..n], r, d, out);
    SerialIgnoresWaiting(db, tasks, futures, n);
  }

  /** Elementwise effect of settling a run of consecutive submissions. */
  lemma {:induction false} SettleConsecutive<D, V>(futures: seq<Future<V>>, ids: seq<nat>, r: Reply<D, seq<V>>, lo: nat)
    requires lo + |ids| <= |futures|
    requires forall j :: 0 <= j < |ids| ==> ids[j] == lo + j
    requires r.Done? ==> |r.value| >= |ids|
    ensures forall i :: lo <= i < lo + |ids| ==>
      Settle(futures, ids, r)[i] == if r.Done? then Resolved(r.value[i - lo]) else Rejected
  {
    if ids != [] {
      SettleConsecutive(futures, ids[..|ids| - 1], r, lo);
    }
  }

  /** One transaction over the next `n` submissions settles exactly them and keeps the store sequential. */
  lemma CommitSettles<D, V>(db: D, s: State<D, V>, ids: seq<nat>, luck: Luck, r: nat)
    requires WellFormed(s)
    requires r + |ids| <= |s.tasks|
    requires Consecutive(ids, r)
    requires SettledBelow(s.futures, r)
    requires Serial(db, s.tasks, s.futures) == Some(s.db)
    ensures var t := Commit(s, ids, luck);
      && SettledBelow(t.futures, r + |ids|)
      && (forall i :: 0 <= i < r ==> t.futures[i] == s.futures[i])
      && Serial(db, t.tasks, t.futures) == Some(t.db)
  {
    var t := Commit(s, ids, luck);
    var out := Transact(Lookup(s.tasks, ids), s.db, luck);
    SettleConsecutive(s.futures, ids, out, r);
    SerialIgnoresWaiting(db, s.tasks, s.futures, r);
    assert s.futures[..r] == t.futures[..r];
    if out.Done? {
      SerialWithBatch(db, s.tasks, t.futures, ids, r, s.db, out);
    } else {
      SerialIgnoresWaiting(db, s.tasks, t.futures, r);
    }
  }

  /** Flushing the open batch keeps the invariant and settles the batch. */
  lemma FlushKeepsInv<D, V>(db: D, s: State<D, V>, luck: Luck, r: nat)
    requires WellFormed(s) && r + |s.pending| <= |s.tasks|
    requires SettledBelow(s.futures, r)
    requires Consecutive(s.pending, r)
    requires Serial(db, s.tasks, s.futures) == Some(s.db)
    ensures var t := Flush(s, luck);
      && SettledBelow(t.futures, r + |s.pending|)
      && (forall i :: 0 <= i < r ==> t.futures[i] == s.futures[i])
      && Serial(db, t.tasks, t.futures) == Some(t.db)
  {
    CommitSettles(db, s, s.pending, luck, r);
  }

  /** Taking STOP, or timing out on an empty queue, flushes the open batch. */
  lemma IdleTurnKeepsInv<D, V>(db: D, s: State<D, V>, batch: Luck, single: Luck, r: nat)
    requires Inv(db, s, r) && !s.stopped && (s.queue == [] || s.queue[0].Stop?)
    ensures Inv(db, TurnOnce(s, batch, single), r + |s.pending|)
    ensures forall i :: 0 <= i < r ==> TurnOnce(s, batch, single).futures[i] == s.futures[i]
  {
    if s.queue == [] {
      FlushKeepsInv(db, s, batch, r);
    } else {
      FlushKeepsInv(db, s.(queue := s.queue[1..]), batch, r);
    }
  }

  /** Flushing the open batch and then committing one submission alone settles both, in order. */
  lemma CriticalCommits<D, V>(db: D, s: State<D, V>, batch: Luck, single: Luck, r: nat, p: nat)
    requires WellFormed(s) && p == r + |s.pending| < |s.tasks|
    requires SettledBelow(s.futures, r) && Consecutive(s.pending, r)
    requires Serial(db, s.tasks, s.futures) == Some(s.db)
    ensures var t := Commit(Flush(s, batch), [p], single);
      && t == s.(db := t.db, futures := t.futures, pending := [])
      && SettledBelow(t.futures, p + 1)
      && (forall i :: 0 <= i < r ==> t.futures[i] == s.futures[i])
      && Serial(db, t.tasks, t.futures) == Some(t.db)
  {
    FlushKeepsInv(db, s, batch, r);
    CommitSettles(db, Flush(s, batch), [p], single, p);
    assert p + |[p]| == p + 1;
  }

  /** A critical entry first flushes the open batch, then commits alone. */
  lemma CriticalTurn<D, V>(db: D, s: State<D, V>, batch: Luck, single: Luck, r: nat, t: State<D, V>)
    requires Inv(db, s, r) && !s.stopped
    requires s.queue != [] && s.queue[0].Work? && s.tasks[s.queue[0].id].critical
    requires t == TurnOnce(s, batch, single)
    ensures t == s.(queue := s.queue[1..], db := t.db, futures := t.futures, pending := [])
    ensures WellFormed(t) && SettledBelow(t.futures, r + |s.pending| + 1) && Serial(db, t.tasks, t.futures) == Some(t.db)
    ensures r + |s.pending| < |t.tasks| && |t.queue| <= WRITER_QUEUE
    ensures Lineup(t.queue, r + |s.pending| + 1, |t.tasks|, t.stopped, t.stopAt)
    ensures forall i :: 0 <= i < r ==> t.futures[i] == s.futures[i]
  {
    var p := r + |s.pending|;
    LineupAdvances(s.queue, p, |s.tasks|, s.stopAt);
    var u := s.(queue := s.queue[1..]);
    CriticalCommits(db, u, batch, single, r, p);
    assert t == Commit(Flush(u, batch), [p], single);
  }

  /** From `s` with `r` futures settled to `t` with `r'`, none of the first `r` touched. */
  ghost predicate Settles<D, V>(db: D, s: State<D, V>, t: State<D, V>, r: nat, r': nat) {
    Inv(db, t, r') && r <= r' && r <= |s.futures| && forall i :: 0 <= i < r ==> t.futures[i] == s.futures[i]
  }

  lemma CriticalTurnKeepsInv<D, V>(db: D, s: State<D, V>, batch: Luck, single: Luck, r: nat)
    requires Inv(db, s, r) && !s.stopped
    requires s.queue != [] && s.queue[0].Work? && s.tasks[s.queue[0].id].critical
    ensures Settles(db, s, TurnOnce(s, batch, single), r, r + |s.pending| + 1)
  {
    var t := TurnOnce(s, batch, single);
    CriticalTurn(db, s, batch, single, r, t);
    BatchIsEmpty(db, t, r + |s.pending| + 1);
  }

  /** The invariant with an empty open batch. */
  lemma BatchIsEmpty<D, V>(db: D, t: State<D, V>, r: nat)
    requires WellFormed(t) && t.pending == [] && r <= |t.tasks| && |t.queue| <= WRITER_QUEUE
    requires SettledBelow(t.futures, r) && Serial(db, t.tasks, t.futures) == Some(t.db)
    requires Lineup(t.queue, r, |t.tasks|, t.stopped, t.stopAt)
    ensures Inv(db, t, r)
  {
  }

  /** Moving the next work entry from the queue to the open batch keeps everything but the batch bound. */
  lemma EnlistKeepsInv<D, V>(db: D, s: State<D, V>, r: nat)
    requires Inv(db, s, r) && !s.stopped && s.queue != [] && s.queue[0].Work?
    ensures s.queue[0] == Work(r + |s.pending|)
    ensures var s2 := s.(queue := s.queue[1..], pending := s.pending + [s.queue[0].id]);
      && WellFormed(s2) && Consecutive(s2.pending, r)
      && Lineup(s2.queue, r + |s2.pending|, |s2.tasks|, false, s2.stopAt)
      && r + |s2.pending| <= |s2.tasks|
  {
    LineupAdvances(s.queue, r + |s.pending|, |s.tasks|, s.stopAt);
  }

  /** A batch that has become full commits at once; another one stays open. */
  lemma EnlistedKeepsInv<D, V>(db: D, s: State<D, V>, batch: Luck, r: nat) returns (r': nat)
    requires WellFormed(s) && r + |s.pending| <= |s.tasks| && |s.queue| <= WRITER_QUEUE && !s.stopped
    requires SettledBelow(s.futures, r) && Consecutive(s.pending, r) && Serial(db, s.tasks, s.futures) == Some(s.db)
    requires Lineup(s.queue, r + |s.pending|, |s.tasks|, false, s.stopAt)
    ensures var t := if |s.pending| >= WRITER_BATCH then Flush(s, batch) else s;
      Inv(db, t, r') && r <= r' && forall i :: 0 <= i < r ==> t.futures[i] == s.futures[i]
  {
    r' := r;
    if |s.pending| >= WRITER_BATCH {
      FlushKeepsInv(db, s, batch, r);
      BatchIsEmpty(db, Flush(s, batch), r + |s.pending|);
      r' := r + |s.pending|;
    }
  }

  /** A routine entry joins the open batch, which commits when it is full. */
  lemma RoutineTurnKeepsInv<D, V>(db: D, s: State<D, V>, batch: Luck, single: Luck, r: nat) returns (r': nat)
    requires Inv(db, s, r) && !s.stopped
    requires s.queue != [] && s.queue[0].Work? && !s.tasks[s.queue[0].id].critical
    ensures Settles(db, s, TurnOnce(s, batch, single), r, r')
  {
    EnlistKeepsInv(db, s, r);
    var s2 := s.(queue := s.queue[1..], pending := s.pending + [s.queue[0].id]);
    r' := EnlistedKeepsInv(db, s2, batch, r);
    var t := if |s2.pending| >= WRITER_BATCH then Flush(s2, batch) else s2;
    assert TurnOnce(s, batch, single) == t;
  }

  lemma WorkTurnKeepsInv<D, V>(db: D, s: State<D, V>, batch: Luck, single: Luck, r: nat)
    requires Inv(db, s, r) && !s.stopped && s.queue != [] && s.queue[0].Work?
    ensures exists r': nat :: Settles(db, s, TurnOnce(s, batch, single), r, r')
  {
    if s.tasks[s.queue[0].id].critical {
      CriticalTurnKeepsInv(db, s, batch, single, r);
    } else {
      var r' := RoutineTurnKeepsInv(db, s, batch, single, r);
    }
  }

  /** One turn of the writer's loop keeps the invariant; settled futures are never touched again. */
  lemma TurnKeepsInv<D, V>(db: D, s: State<D, V>, batch: Luck, single: Luck, r: nat) returns (r': nat)
    requires Inv(db, s, r)
    ensures Inv(db, TurnOnce(s, batch, single), r') && r <= r'
    ensures forall i :: 0 <= i < r ==> TurnOnce(s, batch, single).futures[i] == s.futures[i]
  {
    r' := r;
    if s.stopped {
    } else if s.queue == [] || s.queue[0].Stop? {
      IdleTurnKeepsInv(db, s, batch, single, r);
      r' := r + |s.pending|;
    } else {
      WorkTurnKeepsInv(db, s, batch, single, r);
      r' :| Settles(db, s, TurnOnce(s, batch, single), r, r');
    }
  }

  /** One more submission at the end of the line. */
  lemma LineupJoins(queue: seq<Entry>, p: nat, n: nat, stopAt: Option<nat>)
    requires Lineup(queue, p, n, false, stopAt)
    ensures Lineup(queue + [Work(n)], p, n + 1, false, stopAt)
  {
  }

  /** A waiting future added at the end leaves the sequential store alone. */
  lemma SerialJoins<D, V>(db: D, tasks: seq<Task<D, V>>, futures: seq<Future<V>>, task: Task<D, V>)
    requires |tasks| == |futures|
    ensures Serial(db, tasks + [task], futures + [Waiting]) == Serial(db, tasks, futures)
  {
    assert (tasks + [task])[..|tasks|] == tasks && (futures + [Waiting])[..|tasks|] == futures;
  }

  lemma SettledJoins<V>(futures: seq<Future<V>>, r: nat)
    requires SettledBelow(futures, r) && r <= |futures|
    ensures SettledBelow(futures + [Waiting], r)
  {
  }

  /** A submission joins the end of the queue and disturbs nothing before it. */
  lemma SubmitKeepsInv<D, V>(db: D, s: State<D, V>, task: Task<D, V>, r: nat)
    requires Inv(db, s, r)
    ensures Inv(db, SubmitOne(s, task), r)
  {
    if !s.stopped && |s.queue| < WRITER_QUEUE {
      LineupJoins(s.queue, r + |s.pending|, |s.tasks|, s.stopAt);
      SerialJoins(db, s.tasks, s.futures, task);
      SettledJoins(s.futures, r);
    }
  }

  /** The STOP marker is remembered at the place in the line where it was put. */
  lemma StopKeepsInv<D, V>(db: D, s: State<D, V>, r: nat)
    requires Inv(db, s, r)
    ensures Inv(db, StopOnce(s), r)
  {
    var t := StopOnce(s);
    if t != s {
      assert forall j :: 0 <= j < |s.queue| ==> t.queue[j] == s.queue[j];
      assert Lineup(t.queue, r + |t.pending|, |t.tasks|, t.stopped, t.stopAt);
    }
  }

  /** Every event keeps the invariant, and no event changes a settled future. */
  lemma StepKeepsInv<D, V>(db: D, s: State<D, V>, e: Event<D, V>, r: nat) returns (r': nat)
    requires Inv(db, s, r)
    ensures Inv(db, Step(s, e), r') && r <= r'
    ensures |s.tasks| <= |Step(s, e).tasks|
    ensures forall i :: 0 <= i < r ==> Step(s, e).futures[i] == s.futures[i]
  {
    r' := r;
    match e
    case Submit(task) => SubmitKeepsInv(db, s, task, r);
    case PutStop => StopKeepsInv(db, s, r);
    case Turn(batch, single) => r' := TurnKeepsInv(db, s, batch, single, r);
  }

  lemma {:induction false} RunKeepsInv<D, V>(db: D, s: State<D, V>, es: seq<Event<D, V>>, r: nat) returns (r': nat)
    requires Inv(db, s, r)
    ensures Inv(db, Run(s, es), r') && r <= r'
    ensures |s.tasks| <= |Run(s, es).tasks|
    ensures forall i :: 0 <= i < r ==> Run(s, es).futures[i] == s.futures[i]
  {
    if es == [] {
      r' := r;
    } else {
      var k := |es| - 1;
      var m := RunKeepsInv(db, s, es[..k], r);
      r' := StepKeepsInv(db, Run(s, es[..k]), es[k], m);
    }
  }

  /** Histories compose. */
  lemma {:induction false} RunAppend<D, V>(s: State<D, V>, es: seq<Event<D, V>>, fs: seq<Event<D, V>>)
    requires WellFormed(s)
    ensures Run(s, es + fs) == Run(Run(s, es), fs)
  {
    if fs == [] {
      assert es + fs == es;
    } else {
      var k := |fs| - 1;
      var all := es + fs;
      RunAppend(s, es, fs[..k]);
      assert all[..|all| - 1] == es + fs[..k] && all[|all| - 1] == fs[k];
    }
  }

  // ------------------------------------------------------------------------------------------
  // Theorems over every history
  // ------------------------------------------------------------------------------------------

  /**
   In every interleaving the database is the one a sequential program reaches by running, in submission
   order, exactly the operations whose futures succeeded, and every reported result is the one that
   program would see.  Futures settle in submission order, so a settled future (a critical one in
   particular) implies that every earlier submission is settled.
   */
  lemma WriterRefinesSequentialStore<D, V>(db: D, es: seq<Event<D, V>>)
    ensures var s := Run(Init(db), es);
      && Serial(db, s.tasks, s.futures) == Some(s.db)
      && (forall i, j :: 0 <= i < j < |s.futures| && !s.futures[j].Waiting? ==> !s.futures[i].Waiting?)
      && |s.pending| < 250 && |s.queue| <= 5000
  {
    var r := RunKeepsInv(db, Init(db), es, 0);
  }

  /** A future is settled at most once: later events never change it. */
  lemma FuturesAreFinal<D, V>(db: D, es: seq<Event<D, V>>, fs: seq<Event<D, V>>, i: nat)
    requires i < |Run(Init(db), es).futures| && !Run(Init(db), es).futures[i].Waiting?
    ensures i < |Run(Init(db), es + fs).futures|
    ensures Run(Init(db), es + fs).futures[i] == Run(Init(db), es).futures[i]
  {
    var s0 := Init(db);
    var r := RunKeepsInv(db, s0, es, 0);
    var r' := RunKeepsInv(db, Run(s0, es), fs, r);
    RunAppend(s0, es, fs);
  }

  /** The remembered STOP position never moves. */
  lemma {:induction false} StopAtIsStable<D, V>(s: State<D, V>, es: seq<Event<D, V>>)
    requires WellFormed(s) && s.stopAt.Some?
    ensures Run(s, es).stopAt == s.stopAt
  {
    if es != [] {
      StopAtIsStable(s, es[..|es| - 1]);
    }
  }

  /** When the loop has exited, every submission that preceded STOP is settled and no later one ever is. */
  lemma StopDrainsTheQueue<D, V>(db: D, before: seq<Event<D, V>>, after: seq<Event<D, V>>)
    requires Run(Init(db), before).stopAt.None?
    requires |Run(Init(db), before).queue| < WRITER_QUEUE
    ensures var s := Run(Init(db), before);
      var t := Run(Init(db), before + [PutStop] + after);
      t.stopped ==> forall i :: 0 <= i < |t.futures| ==> (!t.futures[i].Waiting? <==> i < |s.tasks|)
  {
    var s0 := Init(db);
    var stop: seq<Event<D, V>> := [PutStop];
    RunAppend(s0, before, stop);
    RunAppend(s0, before + stop, after);
    assert Run(Run(s0, before), stop) == StopOnce(Run(s0, before)) by {
      assert stop[..0] == [];
    }
    StopAtIsStable(Run(s0, before + stop), after);
    var r := RunKeepsInv(db, s0, before + stop + after, 0);
  }

  /** How many turns of the loop a stretch of history holds. */
  function Turns<D, V>(es: seq<Event<D, V>>): (n: nat)
    ensures n <= |es|
  {
    if es == [] then 0 else Turns(es[..|es| - 1]) + (if es[|es| - 1].Turn? then 1 else 0)
  }

  /** The loop has left, or the STOP that was at place `p` of the queue has moved up by `n` places. */
  ghost predicate StopNears<D, V>(t: State<D, V>, p: nat, n: nat) {
    t.stopped || (n <= p && p - n < |t.queue| && t.queue[p - n].Stop?)
  }

  /** A STOP at place `p` of the queue moves up by one with every turn. */
  lemma {:induction false} StopMovesUp<D, V>(s: State<D, V>, es: seq<Event<D, V>>, p: nat)
    requires WellFormed(s) && p < |s.queue| && s.queue[p].Stop?
    ensures StopNears(Run(s, es), p, Turns(es))
    decreases |es|
  {
    if es != [] {
      var k := |es| - 1;
      StopMovesUp(s, es[..k], p);
      StopStep(Run(s, es[..k]), es[k], p, Turns(es[..k]));
    }
  }

  lemma StopStep<D, V>(s: State<D, V>, e: Event<D, V>, p: nat, n: nat)
    requires WellFormed(s) && StopNears(s, p, n)
    ensures StopNears(Step(s, e), p, if e.Turn? then n + 1 else n)
  {
    if e.Turn? && !s.stopped && s.queue[0].Work? {
      assert s.queue[1..][p - n - 1] == s.queue[p - n];
    }
  }

  /**
   Progress of `stop()`: with STOP put behind a queue of q entries, q + 1 turns of the loop, whatever is submitted
   in between, leave it; and by `StopDrainsTheQueue` every submission before STOP is then settled.
   */
  lemma StopIsReached<D, V>(db: D, before: seq<Event<D, V>>, after: seq<Event<D, V>>)
    requires Run(Init(db), before).stopAt.None? && |Run(Init(db), before).queue| < WRITER_QUEUE
    requires Turns(after) > |Run(Init(db), before).queue|
    ensures var s := Run(Init(db), before);
      var t := Run(Init(db), before + [PutStop] + after);
      t.stopped && forall i :: 0 <= i < |t.futures| ==> (!t.futures[i].Waiting? <==> i < |s.tasks|)
  {
    var s := Run(Init(db), before);
    var stop: seq<Event<D, V>> := [PutStop];
    RunAppend(Init(db), before, stop);
    RunAppend(Init(db), before + stop, after);
    assert Run(s, stop) == StopOnce(s) by {
      assert stop[..0] == [];
    }
    StopMovesUp(StopOnce(s), after, |s.queue|);
    StopDrainsTheQueue(db, before, after);
  }

  // ------------------------------------------------------------------------------------------
  // What becomes of a batch
  // ------------------------------------------------------------------------------------------

  /** The operations run through: each takes one store to the next and returns its value. */
  ghost predicate Chain<D, V>(ops: seq<Task<D, V>>, stores: seq<D>, values: seq<V>) {
    && |stores| == |ops| + 1 && |values| == |ops|
    && forall i :: 0 <= i < |ops| ==> ops[i].run(stores[i]) == Done(stores[i + 1], values[i])
  }

  lemma {:induction false} ChainRuns<D, V>(ops: seq<Task<D, V>>, stores: seq<D>, values: seq<V>)
    requires Chain(ops, stores, values)
    ensures RunAll(ops, stores[0]) == Done(stores[|ops|], values)
  {
    if ops != [] {
      var k := |ops| - 1;
      ChainRuns(ops[..k], stores[..k + 1], values[..k]);
      assert values == values[..k] + [values[k]];
    }
  }

  lemma {:induction false} RunsChain<D, V>(ops: seq<Task<D, V>>, db: D) returns (stores: seq<D>)
    requires RunAll(ops, db).Done?
    ensures Chain(ops, stores, RunAll(ops, db).value) && stores[0] == db
  {
    if ops == [] {
      stores := [db];
    } else {
      var k := |ops| - 1;
      var front := RunsChain(ops[..k], db);
      ChainRuns(ops[..k], front, RunAll(ops[..k], db).value);
      stores := front + [RunAll(ops, db).db];
    }
  }

  /** The submissions from `lo` below `hi` are all resolved, each to its own value. */
  ghost predicate ResolvedTo<V>(futures: seq<Future<V>>, lo: nat, hi: nat, values: seq<V>)
    requires lo <= hi <= |futures| && |values| == hi - lo
  {
    forall i :: lo <= i < hi ==> futures[i] == Resolved(values[i - lo])
  }

  ghost predicate RejectedAll<V>(futures: seq<Future<V>>, lo: nat, hi: nat)
    requires hi <= |futures|
  {
    forall i :: lo <= i < hi ==> futures[i].Rejected?
  }

  /** The transaction over the submissions from `r` below `p` left its outcome, and nothing else changed. */
  ghost predicate BatchLeft<D(!new), V(!new)>(s: State<D, V>, t: State<D, V>, r: nat, p: nat, luck: Luck)
    requires |s.futures| == |t.futures| == |s.tasks| && r <= p <= |s.tasks|
  {
    var ops := s.tasks[r..p];
    && (forall i :: 0 <= i < |s.futures| && !(r <= i < p) ==> t.futures[i] == s.futures[i])
    && (forall stores, values :: luck.begins && luck.commits && Chain(ops, stores, values) && stores[0] == s.db ==>
          ResolvedTo(t.futures, r, p, values) && t.db == stores[p - r])
    && (!(luck.begins && luck.commits && exists stores, values :: Chain(ops, stores, values) && stores[0] == s.db) ==>
          RejectedAll(t.futures, r, p) && t.db == s.db)
  }

  /** Committing consecutive submissions, said by what running them one after another does. */
  lemma CommitOutcome<D(!new), V(!new)>(s: State<D, V>, ids: seq<nat>, luck: Luck, r: nat)
    requires WellFormed(s) && r + |ids| <= |s.tasks| && Consecutive(ids, r)
    ensures BatchLeft(s, Commit(s, ids, luck), r, r + |ids|, luck)
  {
    var ops := s.tasks[r..r + |ids|];
    assert Lookup(s.tasks, ids) == ops;
    SettleConsecutive(s.futures, ids, Transact(ops, s.db, luck), r);
    forall stores, values | Chain(ops, stores, values) && stores[0] == s.db
      ensures RunAll(ops, s.db) == Done(stores[|ops|], values)
    {
      ChainRuns(ops, stores, values);
    }
    var out := Transact(ops, s.db, luck);
    assert Commit(s, ids, luck).db == if out.Done? then out.db else s.db;
    if RunAll(ops, s.db).Done? {
      var stores := RunsChain(ops, s.db);
      assert Chain(ops, stores, RunAll(ops, s.db).value);
    }
  }

  /** The database and the future after one operation alone in its transaction. */
  ghost predicate RanAlone<D, V>(reply: Reply<D, V>, luck: Luck, before: D, after: D, future: Future<V>) {
    if reply.Done? && luck.begins && luck.commits then after == reply.db && future == Resolved(reply.value)
    else after == before && future == Rejected
  }

  /** A transaction of a single operation succeeds exactly when that operation does and the environment lets it. */
  lemma CommitOne<D, V>(m: State<D, V>, c: nat, luck: Luck)
    requires WellFormed(m) && c < |m.tasks|
    ensures var t := Commit(m, [c], luck);
      && (forall i :: 0 <= i < |m.futures| && i != c ==> t.futures[i] == m.futures[i])
      && RanAlone(m.tasks[c].run(m.db), luck, m.db, t.db, t.futures[c])
  {
    var one := Lookup(m.tasks, [c]);
    assert one[..0] == [] && RunAll(one[..0], m.db) == Done(m.db, []);
    SettleConsecutive(m.futures, [c], Transact(one, m.db, luck), c);
  }

  /** Whether the next turn runs a critical operation after the batch. */
  predicate CriticalNext<D, V>(s: State<D, V>)
    requires forall i :: 0 <= i < |s.queue| && s.queue[i].Work? ==> s.queue[i].id < |s.tasks|
  {
    s.queue != [] && s.queue[0].Work? && s.tasks[s.queue[0].id].critical
  }

  /** This turn closes the open batch: a timeout, STOP, a critical operation, or the entry that fills it. */
  predicate Closes<D, V>(s: State<D, V>)
    requires forall i :: 0 <= i < |s.queue| && s.queue[i].Work? ==> s.queue[i].id < |s.tasks|
  {
    !s.stopped && (s.queue == [] || s.queue[0].Stop? || CriticalNext(s) || |s.pending| + 1 == 250)
  }

  /** Where the batch that this turn closes ends: a routine entry taken in this turn belongs to it. */
  function BatchEnd<D, V>(s: State<D, V>, r: nat): nat
    requires forall i :: 0 <= i < |s.queue| && s.queue[i].Work? ==> s.queue[i].id < |s.tasks|
  {
    r + |s.pending| + if s.queue != [] && s.queue[0].Work? && !CriticalNext(s) then 1 else 0
  }

  /** The batch left the store `m`; a critical operation taken in the same turn, the p-th, ran alone after it. */
  ghost predicate Left<D, V>(s: State<D, V>, t: State<D, V>, m: D, p: nat, single: Luck)
    requires WellFormed(s) && |t.futures| == |s.tasks|
    requires CriticalNext(s) ==> p < |s.tasks|
  {
    if CriticalNext(s) then RanAlone(s.tasks[p].run(m), single, m, t.db, t.futures[p]) else t.db == m
  }

  /**
   The batch from `r` below `p` has got its one outcome: resolved, each future with its own operation's value and the
   store as the last one left it, if the transaction begins and commits and the operations run through from the store
   before; otherwise rejected, and the store is that one.  Nothing else is settled but a critical operation.
   */
  ghost predicate OneOutcome<D(!new), V(!new)>(
      s: State<D, V>, t: State<D, V>, r: nat, p: nat, batch: Luck, single: Luck)
    requires WellFormed(s) && |t.futures| == |s.tasks| && r <= p <= |s.tasks| && (CriticalNext(s) ==> p < |s.tasks|)
  {
    && (forall i :: 0 <= i < |s.futures| && !(r <= i < p) && !(CriticalNext(s) && i == p) ==> t.futures[i] == s.futures[i])
    && (forall stores, values ::
          batch.begins && batch.commits && Chain(s.tasks[r..p], stores, values) && stores[0] == s.db ==>
            ResolvedTo(t.futures, r, p, values) && Left(s, t, stores[p - r], p, single))
    && (!(batch.begins && batch.commits
          && exists stores, values :: Chain(s.tasks[r..p], stores, values) && stores[0] == s.db) ==>
          RejectedAll(t.futures, r, p) && Left(s, t, s.db, p, single))
  }

  /**
   A batch is all-or-nothing, exactly: a turn that closes a batch gives it its one outcome, and a critical operation
   taken in that turn runs alone on the store the batch left; any other turn settles nothing.
   */
  lemma BatchIsAllOrNothing<D(!new), V(!new)>(db: D, s: State<D, V>, batch: Luck, single: Luck, r: nat)
    requires Inv(db, s, r)
    ensures Closes(s) ==>
      var p := BatchEnd(s, r);
      && p <= |s.tasks| && (CriticalNext(s) ==> p < |s.tasks| && s.queue[0] == Work(p))
      && OneOutcome(s, TurnOnce(s, batch, single), r, p, batch, single)
    ensures !Closes(s) ==>
      TurnOnce(s, batch, single).db == s.db && TurnOnce(s, batch, single).futures == s.futures
  {
    NextInLine(db, s, r);
    if Closes(s) {
      ClosesBatch(s, batch, single, r);
    } else {
      KeepsBatchOpen(s, batch, single);
    }
  }

  /** An entry taken from the queue is the next submission. */
  lemma NextInLine<D, V>(db: D, s: State<D, V>, r: nat)
    requires Inv(db, s, r)
    ensures WellFormed(s) && Consecutive(s.pending, r) && r + |s.pending| <= |s.tasks| && |s.pending| < 250
    ensures !s.stopped && s.queue != [] && s.queue[0].Work? ==>
      s.queue[0] == Work(r + |s.pending|) && r + |s.pending| < |s.tasks|
  {
    if !s.stopped && s.queue != [] && s.queue[0].Work? {
      LineupAdvances(s.queue, r + |s.pending|, |s.tasks|, s.stopAt);
    }
  }

  lemma KeepsBatchOpen<D, V>(s: State<D, V>, batch: Luck, single: Luck)
    requires WellFormed(s) && !Closes(s) && |s.pending| < 250
    ensures TurnOnce(s, batch, single).db == s.db && TurnOnce(s, batch, single).futures == s.futures
  {
  }

  lemma ClosesBatch<D(!new), V(!new)>(s: State<D, V>, batch: Luck, single: Luck, r: nat)
    requires WellFormed(s) && Consecutive(s.pending, r) && r + |s.pending| <= |s.tasks| && Closes(s)
    requires s.queue != [] && s.queue[0].Work? ==> s.queue[0] == Work(r + |s.pending|) && r + |s.pending| < |s.tasks|
    ensures BatchEnd(s, r) <= |s.tasks| && (CriticalNext(s) ==> BatchEnd(s, r) < |s.tasks|)
    ensures OneOutcome(s, TurnOnce(s, batch, single), r, BatchEnd(s, r), batch, single)
  {
    if CriticalNext(s) {
      CriticalClosesBatch(s, batch, single, r);
    } else if s.queue == [] || s.queue[0].Stop? {
      IdleClosesBatch(s, batch, single, r);
    } else {
      EntryClosesBatch(s, batch, single, r);
    }
  }

  lemma IdleClosesBatch<D(!new), V(!new)>(s: State<D, V>, batch: Luck, single: Luck, r: nat)
    requires WellFormed(s) && Consecutive(s.pending, r) && r + |s.pending| <= |s.tasks|
    requires !s.stopped && (s.queue == [] || s.queue[0].Stop?)
    ensures OneOutcome(s, TurnOnce(s, batch, single), r, r + |s.pending|, batch, single)
  {
    CommitOutcome(if s.queue == [] then s else s.(queue := s.queue[1..]), s.pending, batch, r);
  }

  lemma EntryClosesBatch<D(!new), V(!new)>(s: State<D, V>, batch: Luck, single: Luck, r: nat)
    requires WellFormed(s) && Consecutive(s.pending, r) && !s.stopped && |s.pending| + 1 == 250
    requires s.queue != [] && s.queue[0] == Work(r + |s.pending|) && !CriticalNext(s)
    ensures OneOutcome(s, TurnOnce(s, batch, single), r, r + |s.pending| + 1, batch, single)
  {
    var ids := s.pending + [s.queue[0].id];
    CommitOutcome(s.(queue := s.queue[1..], pending := ids), ids, batch, r);
  }

  lemma CriticalClosesBatch<D(!new), V(!new)>(s: State<D, V>, batch: Luck, single: Luck, r: nat)
    requires WellFormed(s) && Consecutive(s.pending, r) && !s.stopped && CriticalNext(s)
    requires s.queue[0] == Work(r + |s.pending|) && r + |s.pending| < |s.tasks|
    ensures OneOutcome(s, TurnOnce(s, batch, single), r, r + |s.pending|, batch, single)
  {
    var p := r + |s.pending|;
    var m := Flush(s.(queue := s.queue[1..]), batch);
    BatchFirst(s, batch, r);
    CommitOne(m, p, single);
    AloneAfterBatch(s, m, Commit(m, [p], single), batch, single, r, p);
    assert TurnOnce(s, batch, single) == Commit(m, [p], single);
  }

  /** The open batch is flushed behind the entry just taken. */
  lemma BatchFirst<D(!new), V(!new)>(s: State<D, V>, batch: Luck, r: nat)
    requires WellFormed(s) && Consecutive(s.pending, r) && s.queue != [] && r + |s.pending| <= |s.tasks|
    ensures var m := Flush(s.(queue := s.queue[1..]), batch);
      && m.tasks == s.tasks && |m.futures| == |s.tasks|
      && BatchLeft(s, m, r, r + |s.pending|, batch)
  {
    var s1 := s.(queue := s.queue[1..]);
    CommitOutcome(s1, s.pending, batch, r);
    SameBatch(s, s1, Commit(s1, s.pending, batch), Flush(s1, batch), r, r + |s.pending|, batch);
  }

  /** The outcome of a batch depends on store, operations and futures only. */
  lemma SameBatch<D(!new), V(!new)>(
      s: State<D, V>, s1: State<D, V>, t1: State<D, V>, t: State<D, V>, r: nat, p: nat, luck: Luck)
    requires |s.futures| == |t.futures| == |s.tasks| && r <= p <= |s.tasks|
    requires s1.tasks == s.tasks && s1.futures == s.futures && s1.db == s.db && t1.futures == t.futures && t1.db == t.db
    requires BatchLeft(s1, t1, r, p, luck)
    ensures BatchLeft(s, t, r, p, luck)
  {
  }

  /** The batch's outcome is not touched by the operation that ran alone after it. */
  lemma AloneAfterBatch<D(!new), V(!new)>(
      s: State<D, V>, m: State<D, V>, t: State<D, V>, batch: Luck, single: Luck, r: nat, p: nat)
    requires WellFormed(s) && |s.futures| == |m.futures| == |t.futures| && r <= p < |s.tasks| && CriticalNext(s)
    requires BatchLeft(s, m, r, p, batch)
    requires forall i :: 0 <= i < |s.futures| && i != p ==> t.futures[i] == m.futures[i]
    requires RanAlone(s.tasks[p].run(m.db), single, m.db, t.db, t.futures[p])
    ensures OneOutcome(s, t, r, p, batch, single)
  {
  }

  /**
   Who gets in: a submission is accepted exactly if the writer has not stopped and fewer than 5000 entries are queued;
   it is last in line then and its future waits.  STOP waits for room too, and remembers the submissions before it.
   */
  lemma SubmitMeaning<D, V>(s: State<D, V>, task: Task<D, V>)
    requires WellFormed(s)
    ensures var t := Step(s, Submit(task));
      if !s.stopped && |s.queue| < 5000 then
        && t.tasks == s.tasks + [task] && t.futures == s.futures + [Waiting] && t.queue == s.queue + [Work(|s.tasks|)]
        && t.db == s.db && t.pending == s.pending && t.stopped == s.stopped && t.stopAt == s.stopAt
      else t == s
    ensures var t := Step(s, PutStop);
      if |s.queue| < 5000 then
        && t.queue == s.queue + [Stop] && t.stopAt == (if s.stopAt == None then Some(|s.tasks|) else s.stopAt)
        && t.tasks == s.tasks && t.futures == s.futures && t.db == s.db && t.pending == s.pending && t.stopped == s.stopped
      else t == s
  {
  }

  ghost predicate Total<D(!new), V>(task: Task<D, V>) {
    forall d :: task.run(d).Done?
  }

  ghost predicate Lucky(batch: Luck, single: Luck) {
    batch.begins && batch.commits && single.begins && single.commits
  }

  /** Operations that never raise run through from any store. */
  lemma {:induction false} TotalChain<D(!new), V>(ops: seq<Task<D, V>>, db: D) returns (stores: seq<D>, values: seq<V>)
    requires forall i :: 0 <= i < |ops| ==> Total(ops[i])
    ensures Chain(ops, stores, values) && stores[0] == db
  {
    if ops == [] {
      stores, values := [db], [];
    } else {
      var k := |ops| - 1;
      stores, values := TotalChain(ops[..k], db);
      assert Total(ops[k]);
      var last := ops[k].run(stores[k]);
      stores, values := stores + [last.db], values + [last.value];
    }
  }

  ghost predicate NoneRejected<V>(futures: seq<Future<V>>) {
    forall i :: 0 <= i < |futures| ==> !futures[i].Rejected?
  }

  lemma LuckyTurnRejectsNothing<D(!new), V(!new)>(db: D, s: State<D, V>, batch: Luck, single: Luck, r: nat)
    requires Inv(db, s, r) && Lucky(batch, single) && NoneRejected(s.futures)
    requires forall i :: 0 <= i < |s.tasks| ==> Total(s.tasks[i])
    ensures NoneRejected(TurnOnce(s, batch, single).futures)
  {
    BatchIsAllOrNothing(db, s, batch, single, r);
    if Closes(s) {
      LuckyOutcome(s, TurnOnce(s, batch, single), batch, single, r, BatchEnd(s, r));
    }
  }

  lemma LuckyOutcome<D(!new), V(!new)>(
      s: State<D, V>, t: State<D, V>, batch: Luck, single: Luck, r: nat, p: nat)
    requires WellFormed(s) && |t.futures| == |s.tasks| && r <= p <= |s.tasks| && (CriticalNext(s) ==> p < |s.tasks|)
    requires OneOutcome(s, t, r, p, batch, single) && Lucky(batch, single) && NoneRejected(s.futures)
    requires forall i :: 0 <= i < |s.tasks| ==> Total(s.tasks[i])
    ensures NoneRejected(t.futures)
  {
    var stores, values := TotalChain(s.tasks[r..p], s.db);
    assert Left(s, t, stores[p - r], p, single);
    assert CriticalNext(s) ==> Total(s.tasks[p]);
  }

  /** Nothing is lost: if no operation ever raises and every transaction begins and commits, no future is rejected. */
  lemma {:induction false} SoundHistoryRejectsNothing<D(!new), V(!new)>(db: D, es: seq<Event<D, V>>)
    requires forall i :: 0 <= i < |es| && es[i].Submit? ==> Total(es[i].task)
    requires forall i :: 0 <= i < |es| && es[i].Turn? ==> Lucky(es[i].batch, es[i].single)
    ensures var s := Run(Init(db), es);
      NoneRejected(s.futures) && forall i :: 0 <= i < |s.tasks| ==> Total(s.tasks[i])
  {
    if es != [] {
      var k := |es| - 1;
      SoundHistoryRejectsNothing(db, es[..k]);
      var r := RunKeepsInv(db, Init(db), es[..k], 0);
      var m := Run(Init(db), es[..k]);
      match es[k]
      case Turn(batch, single) => LuckyTurnRejectsNothing(db, m, batch, single, r);
      case Submit(task) => assert SubmitOne(m, task).futures == m.futures || SubmitOne(m, task).futures == m.futures + [Waiting];
      case PutStop =>
    }
  }

  /**
   A critical operation is isolated: the batch it closes settles exactly as a timeout would have settled
   it, whatever the critical operation does; and the critical operation succeeds exactly when it runs
   without exception on the database that batch left behind, whether or not the batch was rejected.
   */
  lemma CriticalIsIsolated<D, V>(s: State<D, V>, batch: Luck, single: Luck)
    requires WellFormed(s) && !s.stopped && CriticalNext(s)
    ensures var t := TurnOnce(s, batch, single);
      var idle := TurnOnce(s.(queue := []), batch, single);
      var c := s.queue[0].id;
      && (forall i :: 0 <= i < |s.futures| && i != c ==> t.futures[i] == idle.futures[i])
      && RanAlone(s.tasks[c].run(idle.db), single, idle.db, t.db, t.futures[c])
  {
    var m := Flush(s.(queue := s.queue[1..]), batch);
    CommitOne(m, s.queue[0].id, single);
    assert m.db == TurnOnce(s.(queue := []), batch, single).db;
  }

  // ------------------------------------------------------------------------------------------
  // The thread itself
  // ------------------------------------------------------------------------------------------

  /** An exception ends the transaction: what would have come after it does not matter. */
  lemma {:induction false} RaisedStays<D, V>(ops: seq<Task<D, V>>, db: D, k: nat)
    requires k <= |ops| && RunAll(ops[..k], db).Raised?
    ensures RunAll(ops, db).Raised?
  {
    var last := |ops| - 1;
    if k == |ops| {
      assert ops[..k] == ops;
    } else {
      assert ops[..last][..k] == ops[..k];
      RaisedStays(ops[..last], db, k);
    }
  }

  /** The writer object: its queue, open batch, connection and futures are updated in place. */
  class Writer<D, V> {
    var db: D
    var tasks: seq<Task<D, V>>
    var futures: seq<Future<V>>
    var queue: seq<Entry>
    var pending: seq<nat>
    var stopped: bool
    ghost var stopAt: Option<nat>

    ghost function View(): State<D, V>
      reads this
    {
      State(db, tasks, futures, queue, pending, stopped, stopAt)
    }

    constructor (db: D)
      ensures View() == Init(db)
    {
      this.db := db;
      tasks, futures, queue, pending, stopped, stopAt := [], [], [], [], false, None;
    }

    method Submit(task: Task<D, V>)
      requires WellFormed(View())
      modifies this
      ensures View() == SubmitOne(old(View()), task)
    {
      if !stopped && |queue| < WRITER_QUEUE {
        queue := queue + [Work(|tasks|)];
        tasks := tasks + [task];
        futures := futures + [Waiting];
      }
    }

    method PutStop()
      requires WellFormed(View())
      modifies this
      ensures View() == StopOnce(old(View()))
    {
      if |queue| < WRITER_QUEUE {
        queue := queue + [Stop];
        if stopAt.None? {
          stopAt := Some(|tasks|);
        }
      }
    }

    /** Runs the operations on the open transaction; an exception leaves it half done. */
    method Execute(ids: seq<nat>) returns (ok: bool, results: seq<V>)
      requires forall i :: 0 <= i < |ids| ==> ids[i] < |tasks|
      modifies this`db
      ensures ok == RunAll(Lookup(tasks, ids), old(db)).Done?
      ensures ok ==> RunAll(Lookup(tasks, ids), old(db)) == Done(db, results)
    {
      ghost var ops := Lookup(tasks, ids);
      results := [];
      for i := 0 to |ids|
        invariant RunAll(ops[..i], old(db)) == Done(db, results)
      {
        assert ops[..i + 1][..i] == ops[..i];
        match tasks[ids[i]].run(db) {
          case Raised =>
            RaisedStays(ops, old(db), i + 1);
            return false, results;
          case Done(d, v) =>
            db, results := d, results + [v];
        }
      }
      assert ops[..|ids|] == ops;
      ok := true;
    }

    /** `_commit_batch`: begin, run, commit; or roll back and fail every future. */
    method CommitBatch(ids: seq<nat>, luck: Luck)
      requires WellFormed(View())
      requires forall i :: 0 <= i < |ids| ==> ids[i] < |tasks|
      modifies this`db, this`futures
      ensures View() == Commit(old(View()), ids, luck)
    {
      if luck.begins {
        var saved := db;
        var ok, results := Execute(ids);
        if ok && luck.commits {
          Distribute(ids, Done(db, results));
          return;
        }
        db := saved;
      }
      Distribute(ids, Raised);
    }

    /** The loops that hand out results or the exception. */
    method Distribute(ids: seq<nat>, work: Reply<D, seq<V>>)
      requires forall i :: 0 <= i < |ids| ==> ids[i] < |futures|
      requires work.Done? ==> |work.value| >= |ids|
      modifies this`futures
      ensures futures == Settle(old(futures), ids, work)
    {
      var i := 0;
      while i < |ids|
        modifies this`futures
        invariant 0 <= i <= |ids| && |futures| == |old(futures)|
        invariant futures == Settle(old(futures), ids[..i], work)
      {
        assert ids[..i + 1][..i] == ids[..i];
        futures := futures[ids[i] := if work.Done? then Resolved(work.value[i]) else Rejected];
        i := i + 1;
      }
      assert ids[..|ids|] == ids;
    }

    /** One turn of the loop of `_run`. */
    method Turn(batch: Luck, single: Luck)
      requires WellFormed(View())
      modifies this
      ensures View() == TurnOnce(old(View()), batch, single)
    {
      if stopped {
        return;
      }
      if queue == [] {
        CommitBatch(pending, batch);
        pending := [];
        return;
      }
      var item := queue[0];
      queue := queue[1..];
      match item
      case Stop =>
        CommitBatch(pending, batch);
        pending := [];
        stopped := true;
      case Work(id) =>
        if tasks[id].critical {
          CommitBatch(pending, batch);
          pending := [];
          CommitBatch([id], single);
        } else {
          pending := pending + [id];
          if |pending| >= WRITER_BATCH {
            CommitBatch(pending, batch);
            pending := [];
          }
        }
    }

    method Handle(e: Event<D, V>)
      requires WellFormed(View())
      modifies this
      ensures View() == Step(old(View()), e)
    {
      match e
      case Submit(task) => Submit(task);
      case PutStop => PutStop();
      case Turn(batch, single) => Turn(batch, single);
    }

    /** The thread driven by any interleaving of submissions, STOP and turns reaches the modelled history. */
    method Drive(script: seq<Event<D, V>>)
      requires WellFormed(View())
      modifies this
      ensures View() == Run(old(View()), script)
    {
      var i := 0;
      while i < |script|
        invariant 0 <= i <= |script|
        invariant WellFormed(View()) && View() == Run(old(View()), script[..i])
      {
        assert script[..i + 1][..i] == script[..i];
        Handle(script[i]);
        i := i + 1;
      }
      assert script[..|script|] == script;
    }
  }
}
