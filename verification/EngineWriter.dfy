/** The engine's rows and queue against the single writer's database and queue. */
module EngineWriter {
  import opened Core
  import opened JobStore
  import opened Engine
  import opened EngineShape
  import opened EngineRuns
  import W = DbWriter
  import A = Attempt
  import L = Lifecycle

  // ------------------------------------------------------------------------------------------
  // The log of committed writes
  // ------------------------------------------------------------------------------------------

  /** The rows are the committed writes, folded in order. */
  ghost predicate Folded(w: World) {
    w.job == CommitAll(NewJob(w.past.count), w.past.committed)
  }

  lemma FoldOne(j: Job, ws: seq<Write>, x: Write)
    ensures CommitAll(j, ws + [x]) == Commit(CommitAll(j, ws), x)
  {
    assert (ws + [x])[..|ws|] == ws;
  }

  lemma ReplyKeepsFolded(w: World, v: A.Verdict, slow: bool)
    requires Folded(w)
    ensures Folded(DoReply(w, v, slow))
  {
  }

  lemma CommitKeepsFolded(w: World)
    requires Folded(w)
    ensures Folded(Next(w, CommitNext))
  {
    if w.queue != [] {
      FoldOne(NewJob(w.past.count), w.past.committed, w.queue[0].write);
    }
  }

  lemma PlanKeepsFolded(w: World)
    requires Folded(w)
    ensures Folded(Next(w, PlanNext))
  {
    FoldOne(NewJob(w.past.count), w.past.committed, AddItems(w.past.count));
    FoldOne(NewJob(w.past.count), w.past.committed, PutCheckpoint(PlanCheckpoint(w.past.planned)));
  }

  lemma RestartKeepsFolded(w: World)
    requires Folded(w)
    ensures Folded(Next(w, Restart))
  {
    FoldOne(NewJob(w.past.count), w.past.committed, Recovery(w.job.row));
  }

  lemma NextKeepsFolded(w: World, s: Step)
    requires Folded(w)
    ensures Folded(Next(w, s))
  {
    if s.CommitNext? {
      CommitKeepsFolded(w);
    } else if s.PlanNext? {
      PlanKeepsFolded(w);
    } else if s.Restart? {
      RestartKeepsFolded(w);
    } else if s.Reply? {
      ReplyKeepsFolded(w, A.Decide(s.reply), s.slow);
    } else {
      OthersKeepFolded(w, s);
    }
  }

  /** No other step touches the rows or the log of writes. */
  lemma OthersKeepFolded(w: World, s: Step)
    requires !s.CommitNext? && !s.PlanNext? && !s.Restart? && !s.Reply?
    ensures var w' := Next(w, s);
      w'.job == w.job && w'.past.committed == w.past.committed && w'.past.count == w.past.count
  {
  }

  lemma {:induction false} RunKeepsFolded(w: World, steps: seq<Step>)
    requires Folded(w)
    ensures Folded(Run(w, steps))
  {
    if steps != [] {
      var k := |steps| - 1;
      RunKeepsFolded(w, steps[..k]);
      NextKeepsFolded(Run(w, steps[..k]), steps[k]);
    }
  }

  // ------------------------------------------------------------------------------------------
  // A history of the writer with the same rows and the same queue
  // ------------------------------------------------------------------------------------------

  /** The operation behind a write: result batches are routine, everything else is critical. */
  function TaskOf(x: Write): W.Task<Job, ()> {
    W.Task((j: Job) => W.Done(Commit(j, x), ()), !x.UpdateItems?)
  }

  function TasksOf(ws: seq<Write>): (r: seq<W.Task<Job, ()>>)
    ensures |r| == |ws|
  {
    seq(|ws|, i requires 0 <= i < |ws| => TaskOf(ws[i]))
  }

  const FINE: W.Luck := W.Luck(true, true)

  /** Submit one operation and let the writer settle it. */
  function Settling(x: Write): seq<W.Event<Job, ()>> {
    [W.Submit(TaskOf(x)), W.Turn(FINE, FINE), W.Turn(FINE, FINE)]
  }

  /** All submissions settled successfully, nothing queued, nothing open. */
  ghost predicate Quiet(s: W.State<Job, ()>, j: Job, ws: seq<Write>) {
    && W.WellFormed(s) && s.db == CommitAll(j, ws) && s.tasks == TasksOf(ws) && |s.futures| == |ws|
    && (forall i :: 0 <= i < |s.futures| ==> s.futures[i].Resolved?)
    && s.queue == [] && s.pending == [] && !s.stopped
  }

  /** The transaction of one write. */
  lemma TransactOne(x: Write, db: Job)
    ensures W.Transact([TaskOf(x)], db, FINE) == W.Done(Commit(db, x), [()])
  {
    var one := [TaskOf(x)];
    assert one[..0] == [] && W.RunAll(one[..0], db) == W.Done(db, []);
    assert one[0].run(db) == W.Done(Commit(db, x), ());
    var unit: seq<()> := [()];
    assert W.RunAll(one, db) == W.Done(Commit(db, x), [] + unit);
    assert [] + unit == unit;
  }

  /** One more submission, and the first turn after it. */
  lemma SubmitAndTurn(s: W.State<Job, ()>, j: Job, ws: seq<Write>, x: Write)
    requires Quiet(s, j, ws)
    ensures var t := W.TurnOnce(W.SubmitOne(s, TaskOf(x)), FINE, FINE);
      && t.tasks == TasksOf(ws + [x]) && t.queue == [] && !t.stopped && |t.futures| == |ws| + 1
      && t.pending == (if x.UpdateItems? then [|ws|] else [])
      && (forall i :: 0 <= i < |ws| ==> t.futures[i].Resolved?)
      && (if x.UpdateItems? then t.db == s.db else t.db == Commit(s.db, x) && t.futures[|ws|].Resolved?)
  {
    var s1 := W.SubmitOne(s, TaskOf(x));
    var n := |ws|;
    assert s1.tasks == TasksOf(ws + [x]);
    assert s1.queue == [W.Work(n)] && s1.queue[1..] == [];
    assert W.Commit(s1.(queue := []), [], FINE) == s1.(queue := []) by {
      assert W.Lookup(s1.tasks, []) == [];
    }
    if !x.UpdateItems? {
      var m := s1.(queue := []);
      assert W.Lookup(m.tasks, [n]) == [TaskOf(x)];
      TransactOne(x, s.db);
      assert [n][..0] == [];
      assert W.Settle(m.futures, [n][..0], W.Transact([TaskOf(x)], s.db, FINE)) == m.futures;
    }
  }

  /** The second turn finds the queue empty and commits what is open. */
  lemma TurnAgain(t: W.State<Job, ()>, j: Job, ws: seq<Write>, x: Write, db: Job)
    requires W.WellFormed(t) && t.tasks == TasksOf(ws + [x]) && t.queue == [] && !t.stopped && |t.futures| == |ws| + 1
    requires t.pending == (if x.UpdateItems? then [|ws|] else [])
    requires forall i :: 0 <= i < |ws| ==> t.futures[i].Resolved?
    requires db == CommitAll(j, ws)
    requires if x.UpdateItems? then t.db == db else t.db == Commit(db, x) && t.futures[|ws|].Resolved?
    ensures Quiet(W.TurnOnce(t, FINE, FINE), j, ws + [x])
  {
    var n := |ws|;
    FoldOne(j, ws, x);
    if x.UpdateItems? {
      assert W.Lookup(t.tasks, [n]) == [TaskOf(x)];
      TransactOne(x, db);
      assert [n][..0] == [];
      assert W.Settle(t.futures, [n][..0], W.Transact([TaskOf(x)], db, FINE)) == t.futures;
    } else {
      assert W.Lookup(t.tasks, []) == [];
    }
  }

  /** One more write is submitted and settled. */
  lemma SettleOne(s: W.State<Job, ()>, j: Job, ws: seq<Write>, x: Write) returns (es: seq<W.Event<Job, ()>>)
    requires Quiet(s, j, ws)
    ensures W.WellFormed(s) && Quiet(W.Run(s, es), j, ws + [x])
  {
    es := Settling(x);
    assert es[..2][..1] == es[..1] && es[..1][..0] == [];
    assert W.Run(s, es[..1]) == W.SubmitOne(s, TaskOf(x));
    assert W.Run(s, es[..2]) == W.TurnOnce(W.SubmitOne(s, TaskOf(x)), FINE, FINE);
    SubmitAndTurn(s, j, ws, x);
    TurnAgain(W.Run(s, es[..2]), j, ws, x, s.db);
  }

  /** Some history of the writer leads from the job as created to this state. */
  ghost predicate Possible(j: Job, s: W.State<Job, ()>) {
    exists es :: W.Run(W.Init(j), es) == s
  }

  lemma {:induction false} PossibleGoesOn(j: Job, s: W.State<Job, ()>, more: seq<W.Event<Job, ()>>)
    requires Possible(j, s) && W.WellFormed(s)
    ensures Possible(j, W.Run(s, more))
  {
    var es :| W.Run(W.Init(j), es) == s;
    W.RunAppend(W.Init(j), es, more);
  }

  /** A state of the writer in which exactly these writes have been committed. */
  ghost predicate Holds(j: Job, s: W.State<Job, ()>, ws: seq<Write>) {
    Possible(j, s) && Quiet(s, j, ws)
  }

  lemma SettleLast(s: W.State<Job, ()>, j: Job, ws: seq<Write>) returns (t: W.State<Job, ()>)
    requires ws != [] && Holds(j, s, ws[..|ws| - 1])
    ensures Holds(j, t, ws)
  {
    var k := |ws| - 1;
    var es := SettleOne(s, j, ws[..k], ws[k]);
    assert ws[..k] + [ws[k]] == ws;
    t := W.Run(s, es);
    PossibleGoesOn(j, s, es);
  }

  lemma StartIsQuiet(j: Job)
    ensures Holds(j, W.Init(j), [])
  {
    var s: W.State<Job, ()> := W.Init(j);
    assert W.Run(s, []) == s;
  }

  /** Any writes can be committed by the writer, in their order and without a failure. */
  lemma {:induction false} WriterCommits(j: Job, ws: seq<Write>) returns (s: W.State<Job, ()>)
    ensures Holds(j, s, ws)
    decreases |ws|
  {
    if ws == [] {
      s := W.Init(j);
      StartIsQuiet(j);
    } else {
      var front := WriterCommits(j, ws[..|ws| - 1]);
      s := SettleLast(front, j, ws);
    }
  }

  /** The writes of a queue. */
  function Writes(queue: seq<Sent>): (r: seq<Write>)
    ensures |r| == |queue|
  {
    seq(|queue|, i requires 0 <= i < |queue| => queue[i].write)
  }

  /** What the executor has submitted and the writer still holds: the committed writes, then the queue. */
  function Submitted(w: World): seq<Write> {
    w.past.committed + Writes(w.queue)
  }

  lemma WritesAppend(queue: seq<Sent>, x: Sent)
    ensures Writes(queue + [x]) == Writes(queue) + [x.write]
  {
  }

  /** A commit takes the oldest submission. */
  lemma CommitTakesOldest(w: World)
    ensures Submitted(DoCommit(w)) == Submitted(w)
  {
    if w.queue != [] {
      assert Writes(w.queue) == [w.queue[0].write] + Writes(w.queue[1..]);
    }
  }

  /** A submission of either lane is the newest. */
  lemma SubmitIsNewest(w: World, e: Exec, lane: Lane)
    ensures Submitted(Submit(w, e, lane)) == Submitted(w) + (if e.results == [] then [] else [UpdateItems(e.results)])
  {
    WritesAppend(w.queue, Sent(lane, UpdateItems(e.results)));
  }

  lemma PutIsNewest(w: World)
    requires Awake(w) && w.exec.value.owed != [] && w.exec.value.owed[0].Put?
    ensures Submitted(DoMainWrites(w)) == Submitted(w) + [w.exec.value.owed[0].write]
  {
    WritesAppend(w.queue, Sent(Main, w.exec.value.owed[0].write));
  }

  /**
   The engine's rows are the writer's.  In every reachable state of every life the rows are the committed writes
   folded in order; some history of the writer has exactly those writes settled and exactly those rows; and every
   history of the writer that accepted those writes has them.
   */
  lemma RowsAreTheWritersRows(n: nat, planned: Action, lookup: L.Lookup, now: real, steps: seq<Step>)
      returns (es: seq<W.Event<Job, ()>>)
    ensures var w := Run(Init(n, planned, lookup, now), steps);
      && w.job == CommitAll(NewJob(n), w.past.committed)
      && Quiet(W.Run(W.Init(NewJob(n)), es), NewJob(n), w.past.committed)
      && W.Run(W.Init(NewJob(n)), es).db == w.job
  {
    var start := Init(n, planned, lookup, now);
    assert Folded(start);
    RunKeepsFolded(start, steps);
    PlanIsFixed(start, steps);
    var s := WriterCommits(NewJob(n), Run(start, steps).past.committed);
    es :| W.Run(W.Init(NewJob(n)), es) == s;
  }

  /** The other direction: whatever else a writer did, if it accepted these writes it holds these rows. */
  lemma WritersRowsAreTheRows(
    n: nat, planned: Action, lookup: L.Lookup, now: real, steps: seq<Step>, es: seq<W.Event<Job, ()>>, ws: seq<Write>)
    requires var s := W.Run(W.Init(NewJob(n)), es);
      && |ws| == |s.tasks| == |s.futures| && (forall i :: 0 <= i < |ws| ==> Performs(s.tasks[i], ws[i]))
      && Accepted(ws, s.futures) == Run(Init(n, planned, lookup, now), steps).past.committed
    ensures W.Run(W.Init(NewJob(n)), es).db == Run(Init(n, planned, lookup, now), steps).job
  {
    var start := Init(n, planned, lookup, now);
    assert Folded(start);
    RunKeepsFolded(start, steps);
    PlanIsFixed(start, steps);
    RowsFollowSubmissionOrder(NewJob(n), es, ws);
  }
}
