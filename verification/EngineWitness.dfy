/** Lives that show where the engine departs from what its documents promise, and how exactly. */
module EngineWitness {
  import opened Core
  import opened JobStore
  import opened Engine
  import opened EngineShape
  import opened EngineLedger
  import opened EngineFlow
  import opened EngineRuns
  import opened EngineGate
  import opened EngineLife
  import opened EngineWait
  import opened EngineRow
  import CB = CandidateBuffer
  import S = Scheduler
  import A = Attempt
  import L = Lifecycle

  // ------------------------------------------------------------------------------------------
  // Traces
  // ------------------------------------------------------------------------------------------

  lemma {:induction false} RunAppend(w: World, a: seq<Step>, b: seq<Step>)
    ensures Run(w, a + b) == Run(Run(w, a), b)
  {
    if b == [] {
      assert a + b == a;
    } else {
      var all := a + b;
      RunAppend(w, a, b[..|b| - 1]);
      assert all[..|all| - 1] == a + b[..|b| - 1] && all[|all| - 1] == b[|b| - 1];
    }
  }

  lemma {:induction false} RunKeepsFlow(w: World, steps: seq<Step>)
    requires Shape(w) && Flow(w)
    ensures Shape(Run(w, steps)) && Flow(Run(w, steps))
  {
    if steps != [] {
      var k := |steps| - 1;
      RunKeepsFlow(w, steps[..k]);
      NextKeepsShape(Run(w, steps[..k]), steps[k]);
      NextKeepsFlow(Run(w, steps[..k]), steps[k]);
    }
  }

  /** Four stretches of a life, one after the other. */
  lemma {:induction false} RunFour(w: World, a: seq<Step>, b: seq<Step>, c: seq<Step>, d: seq<Step>)
    ensures Run(w, a + b + c + d) == Run(Run(Run(Run(w, a), b), c), d)
  {
    RunAppend(w, a, b);
    RunAppend(w, a + b, c);
    RunAppend(w, a + b + c, d);
  }

  lemma RunOne(w: World, a: Step)
    ensures Run(w, [a]) == Next(w, a)
  {
    assert [a][..0] == [];
  }

  lemma RunTwo(w: World, a: Step, b: Step)
    ensures Run(w, [a, b]) == Next(Next(w, a), b)
  {
    assert [a, b][..1] == [a];
    RunOne(w, a);
  }

  lemma RunThree(w: World, a: Step, b: Step, c: Step)
    ensures Run(w, [a, b, c]) == Next(Next(Next(w, a), b), c)
  {
    assert [a, b, c][..2] == [a, b];
    RunTwo(w, a, b);
  }

  // ------------------------------------------------------------------------------------------
  // From launch to the first RPC
  // ------------------------------------------------------------------------------------------

  /** Nothing in flight, nothing buffered, nothing owed: the head of the loop. */
  ghost predicate AtTop(w: World) {
    Shape(w) && Flow(w) && Free(w) && w.exec.value.pc.Top? && w.queue == [] && w.exec.value.results == []
  }

  /** Some item is still owed an attempt. */
  ghost predicate SomePending(items: seq<Item>) {
    exists x: nat :: IsPending(items, x)
  }

  function Launching(interval: real): seq<Step> {
    [Launch(interval), MainWrites, CommitNext]
  }

  /** Launching a run and committing its RUNNING row. */
  lemma LaunchSteps(w: World, interval: real)
    requires w.queue == [] && Launchable(w) && S.InRange(interval)
    ensures var e := NewExec(w, S.Create(interval).value);
      Run(w, Launching(interval)) == w.(
        job := w.job.(row := w.job.row.(state := Running)), exec := Some(e.(owed := [])),
        past := w.past.(runs := w.past.runs + 1, missed := {}, committed := w.past.committed + [SetRow(Running)]))
  {
    RunAppend(w, [Launch(interval)], [MainWrites, CommitNext]);
    assert Launching(interval) == [Launch(interval)] + [MainWrites, CommitNext];
    RunOne(w, Launch(interval));
    PutAndCommit(DoLaunch(w, interval), SetRow(Running), []);
  }

  lemma StartRun(w: World, interval: real)
    requires Shape(w) && Flow(w) && Launchable(w) && S.InRange(interval)
    ensures var u := Run(w, Launching(interval));
      && AtTop(u) && u.past.missed == {} && u.exec.value.buf == CB.New(PREFETCH_MIN) && u.exec.value.timer.Idle?
  {
    RunKeepsFlow(w, Launching(interval));
    LaunchSteps(w, interval);
  }

  const FILLING: seq<Step> := [Pop(true, false), WorkerReads, Pop(true, false)]

  /** A pop on a new buffer asks for rows, and the worker reads them. */
  lemma AskForRows(w: World)
    requires Free(w) && w.exec.value.pc.Top? && w.exec.value.buf == CB.New(PREFETCH_MIN)
    ensures Next(Next(w, Pop(true, false)), WorkerReads) ==
      WithExec(w, w.exec.value.(buf := w.exec.value.buf.(loading := CB.Loaded(CB.PendingChunk(w.job.items, -1, PREFETCH_MIN)))))
  {
  }

  /** Whatever is pending and not missed lies ahead of a run at the head of its loop. */
  lemma PendingIsAhead(w: World, x: nat)
    requires AtTop(w) && w.past.missed == {} && IsPending(w.job.items, x)
    ensures CB.Loose(w.exec.value.buf, w.job.items) && CB.Rest(w.exec.value.buf, w.job.items) != []
  {
    assert Pipe(w) == [];
    assert Covers(w.job.items, LineOf(w), w.past.missed);
    assert x in LineOf(w);
    assert LineOf(w) == Named(CB.Rest(w.exec.value.buf, w.job.items));
  }

  /** Rows that leave something ahead are not empty. */
  lemma RowsAreThere(b: CB.Buf, items: seq<Item>)
    requires CB.Loose(b, items) && b.loading.Loaded? && b.queue == [] && CB.Rest(b, items) != []
    ensures CB.TakeRows(b).queue != []
  {
  }

  lemma PopTakesRows(w: World)
    requires Free(w) && w.exec.value.pc.Top? && w.exec.value.buf.queue == [] && w.exec.value.buf.loading.Loaded?
    ensures Next(w, Pop(true, false)) == WithExec(w, w.exec.value.(buf := CB.TakeRows(w.exec.value.buf)))
  {
  }

  /** The rows that arrive are not empty. */
  lemma RowsArrive(w: World)
    requires AtTop(w) && w.past.missed == {} && SomePending(w.job.items)
    requires w.exec.value.buf.queue == [] && w.exec.value.buf.loading.Loaded?
    ensures var u := Next(w, Pop(true, false));
      u == WithExec(w, w.exec.value.(buf := CB.TakeRows(w.exec.value.buf))) && u.exec.value.buf.queue != []
  {
    var x: nat :| IsPending(w.job.items, x);
    PendingIsAhead(w, x);
    PopTakesRows(w);
    RowsAreThere(w.exec.value.buf, w.job.items);
  }

  /** The first fill of a run's buffer. */
  lemma FillBuffer(w: World)
    requires AtTop(w) && w.past.missed == {} && w.exec.value.buf == CB.New(PREFETCH_MIN) && SomePending(w.job.items)
    ensures var u := Run(w, FILLING);
      && AtTop(u) && u.exec.value.buf.queue != [] && u == WithExec(w, w.exec.value.(buf := u.exec.value.buf))
      && u.exec.value.buf.loading.NotLoading? && !u.exec.value.buf.exhausted
  {
    RunKeepsFlow(w, FILLING);
    RunKeepsFlow(w, [Pop(true, false), WorkerReads]);
    RunThree(w, Pop(true, false), WorkerReads, Pop(true, false));
    RunTwo(w, Pop(true, false), WorkerReads);
    AskForRows(w);
    RowsArrive(Run(w, [Pop(true, false), WorkerReads]));
  }

  /** The candidate is taken in hand. */
  lemma TakeFirst(w: World)
    requires Free(w) && w.exec.value.pc.Top? && w.exec.value.buf.queue != []
    ensures var u := Next(w, Pop(true, false));
      && Free(u) && u.exec.value.pc.Delay? && u.exec.value.pc.hand.transient == 0
      && u == WithExec(w, w.exec.value.(pc := u.exec.value.pc, buf := u.exec.value.buf))
  {
  }

  function Taking(interval: real): seq<Step> {
    Launching(interval) + FILLING + [Pop(true, false)]
  }

  /** From launch to the first candidate in hand. */
  lemma FirstCandidate(w: World, interval: real)
    requires Shape(w) && Flow(w) && Launchable(w) && S.InRange(interval) && SomePending(w.job.items)
    ensures var u := Run(w, Taking(interval));
      var e := NewExec(w, S.Create(interval).value);
      && Shape(u) && Flow(u) && Free(u) && u.exec.value.pc.Delay? && u.queue == [] && u.exec.value.results == []
      && u.exec.value.pc.hand.transient == 0
      && u.exec.value.sched == e.sched && u.exec.value.action == e.action && u.exec.value.launched == w.now
      && u.now == w.now && u.lookup == w.lookup && u.job == w.job.(row := w.job.row.(state := Running))
      && u.past == w.past.(runs := w.past.runs + 1, missed := {}, committed := u.past.committed)
  {
    RunKeepsFlow(w, Taking(interval));
    StartRun(w, interval);
    LaunchSteps(w, interval);
    var u := Run(w, Launching(interval));
    FillBuffer(u);
    TakeFirst(Run(u, FILLING));
    RunAppend(w, Launching(interval), FILLING);
    RunAppend(w, Launching(interval) + FILLING, [Pop(true, false)]);
    RunOne(Run(u, FILLING), Pop(true, false));
  }

  /** How long the looked-up gate keeps a new run from sending. */
  function Holdup(w: World): (r: real)
    ensures r >= 0.0
  {
    L.RemainingWait(L.OwnGate(w.lookup, w.job.row), w.now)
  }

  function Sending(w: World, interval: real): seq<Step> {
    Taking(interval) + [Tick(Holdup(w)), Send]
  }

  lemma TickSteps(h: World, dt: real)
    requires dt >= 0.0
    ensures Next(h, Tick(dt)) == h.(now := h.now + dt)
  {
  }

  /** What the RPC that leaves a state adds to it. */
  lemma SendIsLogged(h: World)
    requires CanSend(h)
    ensures var u := Next(h, Send);
      && Called(u) && u.exec.value.pc.hand.transient == h.exec.value.pc.hand.transient
      && u.queue == h.queue && u.exec.value.results == h.exec.value.results && u.now == h.now && u.lookup == h.lookup
      && u.job == h.job && u.past == h.past.(rpcs := u.past.rpcs) && |u.past.rpcs| == |h.past.rpcs| + 1
      && u.past.rpcs[..|h.past.rpcs|] == h.past.rpcs
      && var r := u.past.rpcs[|h.past.rpcs|];
      && r.at == h.now && r.interval == h.exec.value.sched.interval && r.gate == h.past.gate && r.run == h.past.runs
      && r.done == |h.past.concluded|
  {
  }

  /** The scheduler of a new run holds back exactly until the looked-up gate. */
  lemma NewScheduler(w: World, interval: real)
    requires S.InRange(interval) && w.now >= 0.0
    ensures var sched := NewExec(w, S.Create(interval).value).sched;
      S.RemainingDelay(sched, Earliest(w)) == 0.0 && sched.interval == interval
  {
  }

  /** The candidate in hand, at the instant it may be sent. */
  function Due(w: World, interval: real): World {
    Next(Run(w, Taking(interval)), Tick(Holdup(w)))
  }

  lemma SendingSteps(w: World, interval: real)
    ensures Run(w, Sending(w, interval)) == Next(Due(w, interval), Send)
  {
    RunAppend(w, Taking(interval), [Tick(Holdup(w)), Send]);
    RunTwo(Run(w, Taking(interval)), Tick(Holdup(w)), Send);
  }

  lemma DueIsReady(w: World, interval: real)
    requires Shape(w) && Flow(w) && Launchable(w) && S.InRange(interval) && SomePending(w.job.items) && w.now >= 0.0
    ensures var h := Due(w, interval);
      && Free(h) && h.exec.value.pc.Delay? && h.exec.value.pc.hand.transient == 0 && h.queue == []
      && h.exec.value.results == [] && h.now == Earliest(w) && h.lookup == w.lookup
      && h.exec.value.sched.interval == interval && S.RemainingDelay(h.exec.value.sched, h.now) == 0.0
      && h.job == w.job.(row := w.job.row.(state := Running))
      && h.past == w.past.(runs := w.past.runs + 1, missed := {}, committed := h.past.committed)
  {
    FirstCandidate(w, interval);
    NewScheduler(w, interval);
    TickSteps(Run(w, Taking(interval)), Holdup(w));
  }

  /** A run launched now sends its first RPC at the earliest instant, at the cadence it was launched with. */
  lemma FirstRpc(w: World, interval: real)
    requires Shape(w) && Flow(w) && Launchable(w) && S.InRange(interval) && SomePending(w.job.items) && w.now >= 0.0
    ensures var u := Run(w, Sending(w, interval));
      && Shape(u) && Flow(u) && Called(u) && u.exec.value.pc.hand.transient == 0
      && u.queue == [] && u.exec.value.results == [] && u.now == Earliest(w) && u.lookup == w.lookup
      && u.job == w.job.(row := w.job.row.(state := Running))
      && |u.past.rpcs| == |w.past.rpcs| + 1 && u.past.rpcs[..|w.past.rpcs|] == w.past.rpcs
      && var r := u.past.rpcs[|w.past.rpcs|];
      && r.at == Earliest(w) && r.interval == interval && r.gate == w.past.gate && r.run == w.past.runs + 1
      && r.done == |w.past.concluded| && u.past.concluded == w.past.concluded
      && u.past.crashes == w.past.crashes && u.past.rejected == w.past.rejected
  {
    RunKeepsFlow(w, Sending(w, interval));
    DueIsReady(w, interval);
    SendingSteps(w, interval);
    SendIsLogged(Due(w, interval));
  }

  // ------------------------------------------------------------------------------------------
  // Planning
  // ------------------------------------------------------------------------------------------

  const PLANNING: seq<Step> := [PlanNext, PlanNext, PlanNext]

  /** A plan whose three commits all happened. */
  lemma PlanAll(n: nat, planned: Action, lookup: L.Lookup, now: real)
    ensures var w := Run(Init(n, planned, lookup, now), PLANNING);
      && Shape(w) && Flow(w) && Launchable(w) && |w.job.items| == n && (n > 0 ==> SomePending(w.job.items))
      && w.job.row.waitingUntil.None? && w.job.row.state.Ready? && w.job.row.processed == 0 && w.job.row.failed == 0
      && w.queue == [] && w.now == now && w.lookup == lookup && !w.planning && w.past.author.Planner?
      && w.past.rpcs == [] && w.past.gate.None? && w.past.rejected == 0 && w.past.crashes == 0 && w.past.concluded == []
  {
    InitFlows(n, planned, lookup, now);
    RunKeepsFlow(Init(n, planned, lookup, now), PLANNING);
    RunThree(Init(n, planned, lookup, now), PlanNext, PlanNext, PlanNext);
    var w := Run(Init(n, planned, lookup, now), PLANNING);
    AddedArePending(NewJob(n), n);
    if n > 0 {
      assert IsPending(w.job.items, 0);
    }
  }

  /**
   A crash between the planner's second and third commit: every REMOVE plan is read back as INVITE although no
   executor has ever written a checkpoint.
   */
  lemma CrashInPlanningLosesTheAction(n: nat, lookup: L.Lookup, now: real) returns (steps: seq<Step>)
    ensures var w := Run(Init(n, Remove, lookup, now), steps);
      w.past.author.Nobody? && HasItems(w) && w.exec.Some? && w.exec.value.action.Invite?
  {
    steps := [PlanNext, PlanNext, Crash] + [Launch(5.0)];
    var w := Init(n, Remove, lookup, now);
    RunAppend(w, [PlanNext, PlanNext, Crash], [Launch(5.0)]);
    RunThree(w, PlanNext, PlanNext, Crash);
    RunOne(Run(w, [PlanNext, PlanNext, Crash]), Launch(5.0));
  }

  const FINDING_NOTHING: seq<Step> := [Pop(true, false), WorkerReads, Pop(true, false)] + [Pop(true, false)]

  /** A run that reads an empty table stops looking. */
  lemma FindNothing(w: World)
    requires Free(w) && w.exec.value.pc.Top? && w.exec.value.buf == CB.New(PREFETCH_MIN) && w.job.items == []
    ensures Run(w, FINDING_NOTHING) == WithExec(w, w.exec.value.(
      pc := Finish, owed := [FlushFirst], buf := w.exec.value.buf.(exhausted := true)))
  {
    RunAppend(w, [Pop(true, false), WorkerReads, Pop(true, false)], [Pop(true, false)]);
    RunThree(w, Pop(true, false), WorkerReads, Pop(true, false));
    RunOne(Run(w, [Pop(true, false), WorkerReads, Pop(true, false)]), Pop(true, false));
    AskForRows(w);
    assert CB.PendingChunk([], -1, PREFETCH_MIN) == [];
  }

  /** An empty result buffer makes a forced flush a no-op. */
  lemma FlushNothing(w: World, rest: seq<Owed>)
    requires Awake(w) && w.exec.value.results == [] && w.exec.value.owed == [FlushFirst] + rest
    ensures Run(w, [MainWrites]) == WithExec(w, w.exec.value.(owed := rest))
  {
    RunOne(w, MainWrites);
    assert w.exec.value.owed[1..] == rest;
  }

  /** Submitting the next owed row change and committing it. */
  lemma PutAndCommit(w: World, x: Write, rest: seq<Owed>)
    requires w.exec.Some? && w.queue == [] && w.exec.value.owed == [Put(x)] + rest
    ensures Run(w, [MainWrites, CommitNext]) ==
      w.(job := Commit(w.job, x), exec := Some(w.exec.value.(owed := rest)), past := Committed(w.past, x))
  {
    RunTwo(w, MainWrites, CommitNext);
    assert w.exec.value.owed[1..] == rest;
    var w1 := DoMainWrites(w);
    assert w1.queue == [Sent(Main, x)] && w1.queue[1..] == [];
  }

  const CLOSING: seq<Step> := [MainWrites, Summarize] + [MainWrites, CommitNext]

  lemma SummarySteps(w: World)
    requires Awake(w) && w.queue == [] && w.exec.value.results == [] && w.exec.value.pc.Finish?
    requires w.exec.value.owed == [FlushFirst]
    ensures Run(w, [MainWrites, Summarize]) == WithExec(w, w.exec.value.(
      pc := Exit, owed := [Put(SetFinal(FinalLabel(w.job.row)))]))
  {
    RunTwo(w, MainWrites, Summarize);
    assert w.exec.value.owed[1..] == [];
  }

  /** The final summary of a run with nothing buffered or in flight. */
  lemma CloseRun(w: World)
    requires Awake(w) && w.queue == [] && w.exec.value.results == [] && w.exec.value.pc.Finish?
    requires w.exec.value.owed == [FlushFirst]
    ensures var u := Run(w, CLOSING);
      && u.job == Commit(w.job, SetFinal(FinalLabel(w.job.row))) && u.stage == w.stage && u.planning == w.planning
      && u.past == Committed(w.past, SetFinal(FinalLabel(w.job.row)))
  {
    RunAppend(w, [MainWrites, Summarize], [MainWrites, CommitNext]);
    SummarySteps(w);
    PutAndCommit(Run(w, [MainWrites, Summarize]), SetFinal(FinalLabel(w.job.row)), []);
  }

  const EMPTY_RUN: seq<Step> := Launching(5.0) + FINDING_NOTHING + CLOSING

  /** What the end of an empty run leaves. */
  lemma EmptyEnd(b: World)
    requires Awake(b) && b.queue == [] && b.exec.value.results == [] && b.exec.value.pc.Finish?
    requires b.exec.value.owed == [FlushFirst] && b.job.items == [] && Tallied(b.job)
    ensures var u := Run(b, CLOSING);
      && u.job.row.state.Completed? && u.job.row.processed == 0 && u.job.row.total == b.job.row.total
      && u.job.items == [] && u.stage == b.stage && u.planning == b.planning && u.past.count == b.past.count
      && u.past.crashes == b.past.crashes && u.past.rejected == b.past.rejected
  {
    CloseRun(b);
  }

  lemma EmptySteps(w: World)
    ensures Run(w, EMPTY_RUN) == Run(Run(Run(w, Launching(5.0)), FINDING_NOTHING), CLOSING)
  {
    RunAppend(w, Launching(5.0), FINDING_NOTHING);
    RunAppend(w, Launching(5.0) + FINDING_NOTHING, CLOSING);
  }

  /** A job row without items: its run completes at once. */
  lemma EmptyRun(w: World)
    requires Shape(w) && Flow(w) && Launchable(w) && w.job.items == []
    ensures var u := Run(w, EMPTY_RUN);
      && u.job.row.state.Completed? && u.job.row.processed == 0 && u.job.row.total == w.job.row.total
      && u.job.items == [] && u.stage == w.stage && u.planning == w.planning && u.past.count == w.past.count
      && u.past.crashes == w.past.crashes && u.past.rejected == w.past.rejected
  {
    LaunchSteps(w, 5.0);
    var a := Run(w, Launching(5.0));
    FindNothing(a);
    EmptyEnd(Run(a, FINDING_NOTHING));
    EmptySteps(w);
  }

  /**
   A crash between the planner's first and second commit: every plan can end COMPLETED with its total on the row,
   nothing processed and no items.
   */
  lemma CrashInPlanningCompletesEmpty(n: nat, planned: Action, lookup: L.Lookup, now: real) returns (steps: seq<Step>)
    ensures var w := Run(Init(n, planned, lookup, now), steps);
      w.job.row.state.Completed? && w.job.row.total == n && w.job.row.processed == 0 && w.job.items == []
  {
    var w := Init(n, planned, lookup, now);
    InitFlows(n, planned, lookup, now);
    RunKeepsFlow(w, [PlanNext, Crash]);
    RunTwo(w, PlanNext, Crash);
    EmptyRun(Run(w, [PlanNext, Crash]));
    RunAppend(w, [PlanNext, Crash], EMPTY_RUN);
    steps := [PlanNext, Crash] + EMPTY_RUN;
  }

  /** Items added to a completed job are missed. */
  lemma ItemsComeTooLate(w: World)
    requires Flow(w) && w.planning && w.stage.Created? && w.job.row.state.Completed? && w.job.items == []
    ensures var u := DoPlan(w);
      && u.job.row.state.Completed? && |u.job.items| == w.past.count && u.past.missed == Upto(w.past.count)
      && (forall i :: 0 <= i < |u.job.items| ==> Pending(u.job.items[i].state))
      && u.past.crashes == w.past.crashes && u.past.rejected == w.past.rejected
  {
    NoItemsNoLine(w);
  }

  /** Without any crash: a run started before the items are added completes, and the items stay pending for ever. */
  lemma EarlyStartMissesTheItems(n: nat, planned: Action, lookup: L.Lookup, now: real) returns (steps: seq<Step>)
    ensures var w := Run(Init(n, planned, lookup, now), steps);
      && w.past.crashes == 0 && w.past.rejected == 0
      && w.job.row.state.Completed? && |w.job.items| == n && w.past.missed == Upto(n)
      && forall i :: 0 <= i < |w.job.items| ==> Pending(w.job.items[i].state)
  {
    var w := Init(n, planned, lookup, now);
    InitFlows(n, planned, lookup, now);
    var early := [PlanNext] + EMPTY_RUN;
    RunKeepsFlow(w, early);
    RunKeepsFlow(w, [PlanNext]);
    RunOne(w, PlanNext);
    EmptyRun(Run(w, [PlanNext]));
    RunAppend(w, [PlanNext], EMPTY_RUN);
    ItemsComeTooLate(Run(w, early));
    RunAppend(w, early, [PlanNext]);
    RunOne(Run(w, early), PlanNext);
    steps := early + [PlanNext];
  }

  // ------------------------------------------------------------------------------------------
  // Pause, rate limit, crash
  // ------------------------------------------------------------------------------------------

  const PAUSING: seq<Step> := [Observe(Pause)] + [MainWrites] + [MainWrites, CommitNext] + [Leave]

  /** A forced flush of nothing, then one row change. */
  lemma FlushThenPut(w: World, x: Write)
    requires Awake(w) && w.queue == [] && w.exec.value.results == [] && w.exec.value.owed == [FlushFirst, Put(x)]
    ensures Run(Run(w, [MainWrites]), [MainWrites, CommitNext]) ==
      w.(job := Commit(w.job, x), exec := Some(w.exec.value.(owed := [])), past := Committed(w.past, x))
  {
    FlushNothing(w, [Put(x)]);
    PutAndCommit(Run(w, [MainWrites]), x, []);
  }

  lemma PauseSteps(w: World)
    ensures Run(w, PAUSING) == DoLeave(Run(Run(DoObserve(w, Pause), [MainWrites]), [MainWrites, CommitNext]))
  {
    RunFour(w, [Observe(Pause)], [MainWrites], [MainWrites, CommitNext], [Leave]);
    RunOne(w, Observe(Pause));
    RunOne(Run(Run(DoObserve(w, Pause), [MainWrites]), [MainWrites, CommitNext]), Leave);
  }

  /** Pausing a run that has nothing buffered writes PAUSED, keeps the deadline, and ends the run. */
  lemma PauseRun(w: World)
    requires Free(w) && w.queue == [] && w.exec.value.results == []
    requires w.exec.value.pc.Top? || w.exec.value.pc.Backoff? || w.exec.value.pc.ServerWait?
    ensures Run(w, PAUSING) == w.(
      exec := None, job := w.job.(row := w.job.row.(state := Paused)), past := Committed(w.past, SetRow(Paused)))
  {
    PauseSteps(w);
    FlushThenPut(DoObserve(w, Pause), SetRow(Paused));
  }

  /** FLOOD_WAIT of one minute. */
  const FLOOD: Option<A.Exc> :=
    Some(A.Exc(true, false, false, false, false, false, false, false, false, Some(60), None))

  const FLOODED: seq<Step> := [Reply(FLOOD, false)] + [MainWrites] + [MainWrites, CommitNext] + [MainWrites, CommitNext]

  lemma FloodSteps(w: World)
    ensures Run(w, FLOODED) ==
      Run(Run(Run(Run(w, [Reply(FLOOD, false)]), [MainWrites]), [MainWrites, CommitNext]), [MainWrites, CommitNext])
  {
    RunFour(w, [Reply(FLOOD, false)], [MainWrites], [MainWrites, CommitNext], [MainWrites, CommitNext]);
  }

  /** A rate limit persists its deadline before anything else happens. */
  lemma FloodRun(w: World)
    requires Called(w) && w.queue == [] && w.exec.value.results == []
    ensures var u := Run(w, FLOODED);
      && Free(u) && u.queue == [] && u.exec.value.pc.ServerWait? && u.exec.value.results == []
      && u.now == w.now && u.lookup == w.lookup
      && u.past.gate == Some(w.now + 60.0) == u.job.row.waitingUntil && u.past.author.Executor?
      && u.past.crashes == w.past.crashes
  {
    RunOne(w, Reply(FLOOD, false));
    var w1 := Run(w, [Reply(FLOOD, false)]);
    var h := w.exec.value.pc.hand;
    FloodIsAMinute();
    var x := MarkRetry(h.ordinal, h.attempts);
    var y := SetState(WaitingServer, Some(w.now + 60.0), Some(Behind(h.ordinal)), false);
    assert w1.exec.value.owed == [FlushFirst] + [Put(x), Put(y)];
    FlushNothing(w1, [Put(x), Put(y)]);
    var w2 := Run(w1, [MainWrites]);
    assert [Put(x), Put(y)] == [Put(x)] + [Put(y)];
    PutAndCommit(w2, x, [Put(y)]);
    var w3 := Run(w2, [MainWrites, CommitNext]);
    PutAndCommit(w3, y, []);
    FloodSteps(w);
  }

  /** The first RPC of a life is out, and nothing else has happened. */
  ghost predicate FirstIsOut(u: World, lookup: L.Lookup, now: real) {
    && Shape(u) && Flow(u) && Called(u) && u.exec.value.pc.hand.transient == 0
    && u.queue == [] && u.exec.value.results == [] && u.now == now && u.lookup == lookup
    && u.job.row.waitingUntil.None? && u.job.row.state.Running? && u.past.concluded == []
    && |u.past.rpcs| == 1 && u.past.rpcs[0].at == now && u.past.rpcs[0].done == 0
    && u.past.crashes == 0 && u.past.rejected == 0
  }

  /** Every plan has a life up to its first RPC. */
  lemma FirstOfLife(n: nat, planned: Action, lookup: L.Lookup, now: real) returns (first: seq<Step>)
    requires n > 0 && now >= 0.0
    ensures FirstIsOut(Run(Init(n, planned, lookup, now), first), lookup, now)
  {
    PlanAll(n, planned, lookup, now);
    var start := Init(n, planned, lookup, now);
    var more := FirstOfRun(Run(start, PLANNING));
    RunAppend(start, PLANNING, more);
    first := PLANNING + more;
  }

  lemma FirstOfRun(w: World) returns (more: seq<Step>)
    requires Shape(w) && Flow(w) && Launchable(w) && SomePending(w.job.items) && w.now >= 0.0
    requires w.job.row.waitingUntil.None? && w.past.rpcs == [] && w.past.concluded == []
    requires w.past.crashes == 0 && w.past.rejected == 0
    ensures FirstIsOut(Run(w, more), w.lookup, w.now)
  {
    FirstRpc(w, 5.0);
    more := Sending(w, 5.0);
  }

  /** Time does not run backwards. */
  lemma {:induction false} TimeGoesOn(w: World, steps: seq<Step>)
    ensures w.now <= Run(w, steps).now
  {
    if steps != [] {
      var k := |steps| - 1;
      TimeGoesOn(w, steps[..k]);
      if steps[k].Launch? || steps[k].Send? {
      } else {
        OtherStepsKeepClock(Run(w, steps[..k]), steps[k]);
      }
    }
  }

  // ------------------------------------------------------------------------------------------
  // The wait gate under the overriding lookup
  // ------------------------------------------------------------------------------------------

  /** A job paused while its server wait still lies ahead. */
  ghost predicate PausedInWait(w: World) {
    && w.exec.None? && w.job.row.state.Paused? && SomePending(w.job.items)
    && w.job.row.waitingUntil == w.past.gate && !Passed(w.past.gate, w.now) && 0.0 <= w.now
  }

  /**
   With the overriding lookup, resuming a job paused inside its server wait sends an RPC before the
   deadline: the exact complement of a safe launch.
   */
  lemma PausedResumeIsEarly(w: World) returns (steps: seq<Step>)
    requires Shape(w) && Flow(w) && w.lookup.V12? && PausedInWait(w)
    ensures var rpcs := Run(w, steps).past.rpcs;
      rpcs != [] && !Passed(rpcs[|rpcs| - 1].gate, rpcs[|rpcs| - 1].at)
  {
    steps := Sending(w, 5.0);
    FirstRpc(w, 5.0);
  }

  /** Rate limit, then pause: the job is paused inside its server wait. */
  lemma FloodThenPause(w: World)
    requires Shape(w) && Flow(w) && Called(w) && w.queue == [] && w.exec.value.results == [] && 0.0 <= w.now
    ensures var u := Run(w, FLOODED + PAUSING);
      && Shape(u) && Flow(u) && PausedInWait(u) && u.lookup == w.lookup && u.past.author.Executor?
      && u.past.crashes == w.past.crashes
  {
    FloodRun(w);
    var a := Run(w, FLOODED);
    RunKeepsFlow(w, FLOODED);
    HandIsPending(a);
    PauseRun(a);
    RunAppend(w, FLOODED, PAUSING);
    RunKeepsFlow(w, FLOODED + PAUSING);
    var u := Run(w, FLOODED + PAUSING);
    assert IsPending(u.job.items, a.exec.value.pc.hand.ordinal);
  }

  /** Every plan can be paused inside its first server wait. */
  lemma PausedLife(n: nat, planned: Action, lookup: L.Lookup, now: real) returns (life: seq<Step>)
    requires n > 0 && now >= 0.0
    ensures var u := Run(Init(n, planned, lookup, now), life);
      && Shape(u) && Flow(u) && PausedInWait(u) && u.lookup == lookup && u.past.author.Executor? && u.past.crashes == 0
  {
    var w := Init(n, planned, lookup, now);
    var first := FirstOfLife(n, planned, lookup, now);
    FloodThenPause(Run(w, first));
    RunAppend(w, first, FLOODED + PAUSING);
    life := first + (FLOODED + PAUSING);
  }

  /**
   With the overriding lookup the promise fails for every plan: rate limit, pause, resume sends an RPC
   before the persisted deadline.
   */
  lemma OverridingLookupLosesTheGate(n: nat, planned: Action, now: real) returns (steps: seq<Step>)
    requires n > 0 && now >= 0.0
    ensures var rpcs := Run(Init(n, planned, L.V12, now), steps).past.rpcs;
      rpcs != [] && !Passed(rpcs[|rpcs| - 1].gate, rpcs[|rpcs| - 1].at)
  {
    var w := Init(n, planned, L.V12, now);
    var paused := PausedLife(n, planned, L.V12, now);
    var more := PausedResumeIsEarly(Run(w, paused));
    RunAppend(w, paused, more);
    steps := paused + more;
  }

  /** Every REMOVE plan has a life, without a crash in planning, in which a later run of the job performs INVITE. */
  lemma RemovePlanRunsAsInvite(n: nat, lookup: L.Lookup, now: real) returns (steps: seq<Step>)
    requires n > 0 && now >= 0.0
    ensures var w := Run(Init(n, Remove, lookup, now), steps);
      w.past.crashes == 0 && w.past.author.Executor? && w.exec.Some? && w.exec.value.action.Invite?
  {
    var w := Init(n, Remove, lookup, now);
    var life := PausedLife(n, Remove, lookup, now);
    PlannedActionIsReadBack(n, Remove, lookup, now, life, 5.0);
    RunAppend(w, life, [Launch(5.0)]);
    RunOne(Run(w, life), Launch(5.0));
    steps := life + [Launch(5.0)];
  }

  // ------------------------------------------------------------------------------------------
  // A crash while a deadline is under way
  // ------------------------------------------------------------------------------------------

  /** Back to a launchable job after a crash in the middle of a run. */
  lemma CrashAndRestart(w: World)
    requires w.job.row.state.Running?
    ensures var u := Run(w, [Crash, Restart]);
      && u.exec.None? && u.queue == [] && u.now == w.now && u.lookup == w.lookup && u.stage == w.stage
      && u.job == w.job.(row := u.job.row) && u.job.row.state.Paused? && u.job.row.waitingUntil == w.job.row.waitingUntil
      && u.past.rpcs == w.past.rpcs
  {
    RunTwo(w, Crash, Restart);
  }

  /**
   The other half of the exact condition of `EngineWait.RateLimitIsHonoured`: from every reachable state in which an
   announced deadline lies ahead and is still owed or in flight, some continuation that starts with a crash sends
   before it, in any life with the overriding lookup and in any safe one with either.
   */
  lemma CrashWhileUnderwayLosesTheLimit(
    n: nat, planned: Action, lookup: L.Lookup, now: real, steps: seq<Step>, until: real) returns (more: seq<Step>)
    requires now >= 0.0 && (SafeRun(Init(n, planned, lookup, now), steps) || lookup.V12?)
    requires var w := Run(Init(n, planned, lookup, now), steps); Underway(w) && w.now < until
    ensures var w := Run(Init(n, planned, lookup, now), steps);
      var rpcs := Run(w, more).past.rpcs;
      && more != [] && more[0].Crash?
      && |rpcs| == |w.past.rpcs| + 1 && rpcs[|w.past.rpcs|].at < until
  {
    var w := Run(Init(n, planned, lookup, now), steps);
    ReachableIsSound(n, planned, lookup, now, steps);
    NothingRemembersIt(n, planned, lookup, now, steps);
    PlanIsFixed(Init(n, planned, lookup, now), steps);
    TimeGoesOn(Init(n, planned, lookup, now), steps);
    HandIsPending(w);
    CrashAndRestart(w);
    RunKeepsFlow(w, [Crash, Restart]);
    var d := Run(w, [Crash, Restart]);
    assert IsPending(d.job.items, w.exec.value.pc.hand.ordinal);
    FirstRpc(d, 5.0);
    more := [Crash, Restart] + Sending(d, 5.0);
    RunAppend(w, [Crash, Restart], Sending(d, 5.0));
  }

  lemma LimitGetsUnderway(w: World, v: A.Verdict)
    requires Shape(w) && Called(w) && v == A.WaitFor(60)
    ensures var u := DoReply(w, v, false); Underway(u) && Only(u, w.now + 60.0) && u.now == w.now
  {
    Announced(w, v, false);
    var owed := DoReply(w, v, false).exec.value.owed;
    assert owed[2].Put? && Bears(owed[2].write);
  }

  lemma FloodIsAMinute()
    ensures A.Decide(FLOOD) == A.WaitFor(60)
  {
  }

  lemma FloodGetsUnderway(start: World, first: seq<Step>, w: World) returns (steps: seq<Step>)
    requires w == Run(start, first) && Shape(w) && Called(w)
    ensures var u := Run(start, steps);
      Underway(u) && Only(u, w.now + 60.0) && u.now == w.now
  {
    steps := first + [Reply(FLOOD, false)];
    FloodIsAMinute();
    LimitGetsUnderway(w, A.Decide(FLOOD));
    RunAppend(start, first, [Reply(FLOOD, false)]);
    RunOne(w, Reply(FLOOD, false));
  }

  /** Every plan gets as far as an unanswered RPC. */
  lemma SomeRpcIsOut(n: nat, planned: Action, lookup: L.Lookup, now: real) returns (first: seq<Step>)
    requires n > 0 && now >= 0.0
    ensures var u := Run(Init(n, planned, lookup, now), first); Shape(u) && Called(u) && u.now == now
  {
    first := FirstOfLife(n, planned, lookup, now);
  }

  /** Such states exist: every plan reaches one with the reply to its first RPC, a minute ahead of its deadline. */
  lemma EveryPlanCanBeUnderway(n: nat, planned: Action, lookup: L.Lookup, now: real) returns (steps: seq<Step>)
    requires n > 0 && now >= 0.0
    ensures var w := Run(Init(n, planned, lookup, now), steps);
      w.now == now && Underway(w) && Only(w, now + 60.0)
  {
    var first := SomeRpcIsOut(n, planned, lookup, now);
    var start := Init(n, planned, lookup, now);
    steps := FloodGetsUnderway(start, first, Run(start, first));
  }

  // ------------------------------------------------------------------------------------------
  // Cadence across runs
  // ------------------------------------------------------------------------------------------

  /**
   The other half of the exact condition of `EngineLife.CadenceAcrossRuns`: from every reachable state in which a
   job with a pending item can be launched at a cadence that its earliest RPC would not keep, a continuation that
   starts with that launch breaks the cadence.
   */
  lemma EarlyLaunchBreaksCadence(
    n: nat, planned: Action, lookup: L.Lookup, now: real, steps: seq<Step>, interval: real) returns (more: seq<Step>)
    requires now >= 0.0 && S.InRange(interval)
    requires var w := Run(Init(n, planned, lookup, now), steps);
      Launchable(w) && SomePending(w.job.items) && !SpacedLaunch(w, interval)
    ensures var w := Run(Init(n, planned, lookup, now), steps);
      var rpcs := Run(w, more).past.rpcs;
      var k := |w.past.rpcs|;
      && more != [] && more[0] == Launch(interval)
      && 0 < k < |rpcs| && rpcs[k - 1].at + rpcs[k].interval > rpcs[k].at && !AllPaced(rpcs)
  {
    var w := Run(Init(n, planned, lookup, now), steps);
    ReachableIsSound(n, planned, lookup, now, steps);
    TimeGoesOn(Init(n, planned, lookup, now), steps);
    FirstRpc(w, interval);
    more := Sending(w, interval);
    var rpcs, k := Run(w, more).past.rpcs, |w.past.rpcs|;
    assert rpcs[k - 1] == w.past.rpcs[k - 1];
  }

  /** A connection error. */
  const NETWORK: Option<A.Exc> :=
    Some(A.Exc(false, false, false, false, false, false, false, true, false, None, None))

  const DROPPED: seq<Step> := [Reply(NETWORK, false)] + PAUSING

  lemma NetworkBacksOff()
    ensures A.Decide(NETWORK) == A.BackOff
  {
  }

  /** The run waits to try again. */
  lemma Drop(w: World, v: A.Verdict)
    requires Called(w) && v == A.BackOff
    ensures var u := DoReply(w, v, false);
      && Free(u) && u.exec.value.pc.Backoff? && u == WithExec(w, w.exec.value.(pc := u.exec.value.pc))
  {
  }

  lemma DropSteps(w: World)
    requires Called(w)
    ensures var u := Run(w, [Reply(NETWORK, false)]);
      && Free(u) && u.exec.value.pc.Backoff? && u == WithExec(w, w.exec.value.(pc := u.exec.value.pc))
  {
    RunOne(w, Reply(NETWORK, false));
    NetworkBacksOff();
    Drop(w, A.Decide(NETWORK));
  }

  /** A transient failure, then pause. */
  lemma DropThenPause(w: World)
    requires Shape(w) && Flow(w) && Called(w) && w.queue == [] && w.exec.value.results == [] && w.job.row.waitingUntil.None?
    ensures var u := Run(w, DROPPED);
      && Shape(u) && Flow(u) && Launchable(u) && SomePending(u.job.items) && u.job.row.waitingUntil.None?
      && u.now == w.now && u.past == Committed(w.past, SetRow(Paused))
  {
    DropSteps(w);
    PauseRun(Run(w, [Reply(NETWORK, false)]));
    RunAppend(w, [Reply(NETWORK, false)], PAUSING);
    RunKeepsFlow(w, DROPPED);
    HandIsPending(w);
    var u := Run(w, DROPPED);
    assert IsPending(u.job.items, w.exec.value.pc.hand.ordinal);
  }

  /**
   A connection error, a pause and a resume send the same item twice at the same instant, for every plan, both
   actions and both lookups, without any crash.
   */
  lemma ResumeBreaksCadence(n: nat, planned: Action, lookup: L.Lookup, now: real) returns (steps: seq<Step>)
    requires n > 0 && now >= 0.0
    ensures var w := Run(Init(n, planned, lookup, now), steps);
      var rpcs := w.past.rpcs;
      && w.past.crashes == 0 && w.past.rejected == 0
      && |rpcs| == 2 && rpcs[0].at == rpcs[1].at == now && rpcs[0].ordinal == rpcs[1].ordinal
  {
    var start := Init(n, planned, lookup, now);
    var first := FirstOfLife(n, planned, lookup, now);
    DropThenPause(Run(start, first));
    RunAppend(start, first, DROPPED);
    var paused := Run(start, first + DROPPED);
    FirstRpc(paused, 5.0);
    RunAppend(start, first + DROPPED, Sending(paused, 5.0));
    steps := first + DROPPED + Sending(paused, 5.0);
    ReachableIsSound(n, planned, lookup, now, steps);
    var rpcs := Run(start, steps).past.rpcs;
    assert rpcs[0] == paused.past.rpcs[0];
    assert History(Front(Run(start, steps)), Run(start, steps).past);
  }

  // ------------------------------------------------------------------------------------------
  // The final summary
  // ------------------------------------------------------------------------------------------

  function FailedIn(us: seq<Update>): nat {
    if us == [] then 0 else FailedIn(us[..|us| - 1]) + (if us[|us| - 1].state.ItemFailed? then 1 else 0)
  }

  /** Each result in flight adds itself to the count of its state. */
  lemma {:induction false} FailedAfterBatch(items: seq<Item>, us: seq<Update>)
    requires forall j :: 0 <= j < |us| ==> IsPending(items, us[j].ordinal)
    requires forall i, j :: 0 <= i < j < |us| ==> us[i].ordinal != us[j].ordinal
    ensures Count(PutItems(items, us), ItemFailed) == Count(items, ItemFailed) + FailedIn(us)
  {
    if us != [] {
      var k := |us| - 1;
      assert forall j :: 0 <= j < k ==> us[..k][j] == us[j];
      FailedAfterBatch(items, us[..k]);
      PutElsewhere(items, us[..k], us[k].ordinal);
      CountAfterPut(PutItems(items, us[..k]), us[k], ItemFailed);
    }
  }

  /** The job once the writes in flight have committed. */
  ghost function Drained(w: World): Job
    decreases |w.queue|
  {
    if w.queue == [] then w.job else Drained(DoCommit(w))
  }

  /** A free coroutine has at most one batch in flight, the delayed one. */
  lemma OneInFlight(w: World)
    requires Shape(w) && Free(w) && w.queue != []
    ensures |w.queue| == 1 && w.queue[0].lane.Delayed? && w.queue[0].write.UpdateItems?
    ensures Inflight(w.queue) == w.queue[0].write.updates
    ensures Drained(w) == Commit(w.job, w.queue[0].write)
  {
    assert w.queue[0].lane.Delayed? by {
      assert w.queue[0].lane.Main? ==> Busy(w.queue, Main);
    }
    if |w.queue| == 2 {
      TwoMeansBusy(w.queue);
    }
    assert w.queue[1..] == [] && Inflight(w.queue[1..]) == [];
    assert Drained(DoCommit(w)) == DoCommit(w).job;
  }

  /**
   The completion label is read from the committed row.  It agrees with the final count of failures
   exactly when a failure is already counted or no failed result is still in flight.
   */
  lemma CompletionLabelIsExact(w: World)
    requires Shape(w) && Flow(w) && Free(w) && w.exec.value.pc.Finish?
    ensures (FinalLabel(w.job.row) == FinalLabel(Drained(w).row)) <==>
      (w.job.row.failed > 0 || FailedIn(Inflight(w.queue)) == 0)
  {
    if w.queue != [] {
      OneInFlight(w);
      var us := w.queue[0].write.updates;
      PipeIsPending(w);
      SortedMeans(Ordinals(Pipe(w)));
      assert forall k :: 0 <= k < |us| ==> us[k] == Pipe(w)[k] && Ordinals(Pipe(w))[k] == us[k].ordinal;
      FailedAfterBatch(w.job.items, us);
    }
  }

  /** A candidate without keys fails on the spot; its result waits in the buffer. */
  lemma FailHead(w: World)
    requires Free(w) && w.exec.value.pc.Top? && w.exec.value.results == [] && w.exec.value.buf.queue != []
    ensures var c := w.exec.value.buf.queue[0];
      var u := Next(w, Pop(false, false));
      && u == WithExec(w, w.exec.value.(
           pc := Recorded, buf := CB.TakeHead(w.exec.value.buf), results := [Update(c.ordinal, ItemFailed, c.attempts)])).(
           past := w.past.(concluded := w.past.concluded + [c.ordinal]))
  {
    var c := w.exec.value.buf.queue[0];
    assert w.exec.value.results + [Update(c.ordinal, ItemFailed, c.attempts)] == [Update(c.ordinal, ItemFailed, c.attempts)];
  }

  /** The delayed flush wakes up and submits what is in the buffer. */
  lemma FlushLater(w: World)
    requires Free(w) && w.queue == [] && w.exec.value.pc.Recorded? && w.exec.value.timer.Idle? && w.exec.value.results != []
    ensures Next(Next(w, Schedule), TimerFires) ==
      WithExec(w, w.exec.value.(pc := Top, timer := Writing, results := [])).(
        queue := [Sent(Delayed, UpdateItems(w.exec.value.results))])
  {
    assert [] + [Sent(Delayed, UpdateItems(w.exec.value.results))] == [Sent(Delayed, UpdateItems(w.exec.value.results))];
  }

  const FAILING: seq<Step> := [Pop(false, false), Schedule, TimerFires]

  /** A run whose only result is a failure still in flight from the delayed flush. */
  ghost predicate FailureInFlight(w: World) {
    && Shape(w) && Flow(w) && Free(w) && w.exec.value.pc.Top? && w.exec.value.results == []
    && |w.queue| == 1 && w.queue[0].lane.Delayed? && w.queue[0].write.UpdateItems?
    && |w.queue[0].write.updates| == 1 && w.queue[0].write.updates[0].state.ItemFailed?
    && |w.job.items| == 1 && w.past.rejected == 0 && w.past.missed == {}
  }

  lemma FailsInFlight(w: World)
    requires AtTop(w) && w.exec.value.timer.Idle? && w.exec.value.buf.queue != []
    requires |w.job.items| == 1 && w.past.rejected == 0 && w.past.missed == {}
    requires w.exec.value.buf.loading.NotLoading? && !w.exec.value.buf.exhausted
    ensures var u := Run(w, FAILING);
      FailureInFlight(u) && u.job == w.job && u.exec.value.buf == CB.TakeHead(w.exec.value.buf)
  {
    RunThree(w, Pop(false, false), Schedule, TimerFires);
    RunKeepsFlow(w, FAILING);
    FailHead(w);
    FlushLater(Next(w, Pop(false, false)));
    NotBusyDelayed(Run(w, FAILING).queue);
  }

  lemma NotBusyDelayed(queue: seq<Sent>)
    requires |queue| == 1 && queue[0].lane.Delayed?
    ensures !Busy(queue, Main)
  {
  }

  /** With its only item concluded the run has nothing ahead. */
  lemma NothingAhead(w: World)
    requires FailureInFlight(w)
    ensures CB.Loose(w.exec.value.buf, w.job.items) && CB.Rest(w.exec.value.buf, w.job.items) == []
    ensures w.job.row.processed == 0
  {
    OneInFlight(w);
    var us := w.queue[0].write.updates;
    assert Pipe(w) == us;
    PipeIsPending(w);
    assert us[0].ordinal == w.job.row.processed == 0;
    ShortLine(LineOf(w), 1);
    TopAhead(w.exec.value, w.job.items);
  }

  const ENDING: seq<Step> := [WorkerReads, Pop(true, false), Pop(true, false)]

  /** An empty read exhausts the buffer, and the next pop ends the loop. */
  lemma EmptyRead(w: World)
    requires Free(w) && w.exec.value.pc.Top? && w.exec.value.buf.queue == [] && w.exec.value.buf.loading.Reading?
    requires CB.Loose(w.exec.value.buf, w.job.items) && CB.Rest(w.exec.value.buf, w.job.items) == []
    ensures Run(w, ENDING) ==
      WithExec(w, w.exec.value.(pc := Finish, owed := [FlushFirst],
                                buf := w.exec.value.buf.(loading := CB.NotLoading, exhausted := true)))
  {
    RunThree(w, WorkerReads, Pop(true, false), Pop(true, false));
    assert CB.PendingFrom(w.job.items, w.exec.value.buf.lastLoaded + 1) == [];
  }

  /** Popping the only item leaves an empty queue and a new fill under way. */
  lemma OneItemBuffer(w: World)
    requires AtTop(w) && |w.job.items| == 1
    requires w.exec.value.buf.queue != [] && w.exec.value.buf.loading.NotLoading? && !w.exec.value.buf.exhausted
    ensures CB.TakeHead(w.exec.value.buf).queue == [] && CB.TakeHead(w.exec.value.buf).loading.Reading?
  {
    var b := w.exec.value.buf;
    assert Pipe(w) == [];
    TopAhead(w.exec.value, w.job.items);
    assert |b.queue| <= |LineOf(w)|;
    ShortLine(LineOf(w), 1);
    assert b.queue[1..] == [];
  }

  /** A run that finds nothing left to do while its only result, a failure, is in flight. */
  ghost predicate EndsWithFailure(w: World) {
    && Shape(w) && Flow(w) && w.exec.Some? && w.exec.value.pc.Finish? && w.exec.value.owed == [FlushFirst]
    && w.exec.value.results == [] && |w.queue| == 1 && w.queue[0].lane.Delayed? && w.queue[0].write.UpdateItems?
    && |w.queue[0].write.updates| == 1 && w.queue[0].write.updates[0].state.ItemFailed?
    && |w.job.items| == 1 && w.job.row.failed == 0 && w.job.row.processed == 0 && Pending(w.job.items[0].state)
  }

  lemma FailureEnds(c: World)
    requires FailureInFlight(c) && c.job.row.failed == 0 && c.exec.value.buf.queue == [] && c.exec.value.buf.loading.Reading?
    ensures EndsWithFailure(Run(c, ENDING))
  {
    NothingAhead(c);
    EmptyRead(c);
    RunKeepsFlow(c, ENDING);
  }

  /** From a filled buffer to there. */
  lemma FailureRuns(b: World)
    requires AtTop(b) && b.exec.value.timer.Idle? && b.exec.value.buf.queue != []
    requires |b.job.items| == 1 && b.past.rejected == 0 && b.past.missed == {} && b.job.row.failed == 0
    requires b.exec.value.buf.loading.NotLoading? && !b.exec.value.buf.exhausted
    ensures EndsWithFailure(Run(Run(b, FAILING), ENDING))
  {
    OneItemBuffer(b);
    FailsInFlight(b);
    FailureEnds(Run(b, FAILING));
  }

  /** From a planned job of one item to there. */
  lemma FailureFrom(w: World)
    requires Shape(w) && Flow(w) && Launchable(w) && |w.job.items| == 1 && SomePending(w.job.items)
    requires w.job.row.failed == 0 && w.past.rejected == 0
    ensures EndsWithFailure(Run(Run(Run(Run(w, Launching(5.0)), FILLING), FAILING), ENDING))
  {
    StartRun(w, 5.0);
    LaunchSteps(w, 5.0);
    var a := Run(w, Launching(5.0));
    FillBuffer(a);
    FailureRuns(Run(a, FILLING));
  }

  /** A one-item plan whose only result is a failure in flight while its run finds nothing left to do. */
  lemma FailureAtTheEnd(planned: Action, lookup: L.Lookup, now: real) returns (steps: seq<Step>)
    ensures EndsWithFailure(Run(Init(1, planned, lookup, now), steps))
  {
    var start := Init(1, planned, lookup, now);
    PlanAll(1, planned, lookup, now);
    FailureFrom(Run(start, PLANNING));
    FailingSteps(start);
    steps := PLANNING + Launching(5.0) + FILLING + FAILING + ENDING;
  }

  lemma FailingSteps(start: World)
    ensures Run(start, PLANNING + Launching(5.0) + FILLING + FAILING + ENDING) ==
      Run(Run(Run(Run(Run(start, PLANNING), Launching(5.0)), FILLING), FAILING), ENDING)
  {
    RunAppend(start, PLANNING, Launching(5.0));
    RunAppend(start, PLANNING + Launching(5.0), FILLING);
    RunAppend(start, PLANNING + Launching(5.0) + FILLING, FAILING);
    RunAppend(start, PLANNING + Launching(5.0) + FILLING + FAILING, ENDING);
  }

  const LABELLING: seq<Step> := [MainWrites, Summarize, MainWrites]

  /** The label is taken from the row before the failure arrives. */
  lemma LabelTaken(w: World)
    requires w.exec.Some? && w.exec.value.pc.Finish? && w.exec.value.owed == [FlushFirst] && w.exec.value.results == []
    requires |w.queue| == 1 && w.queue[0].lane.Delayed?
    ensures var u := Run(w, LABELLING);
      u.job == w.job && u.queue == w.queue + [Sent(Main, SetFinal(FinalLabel(w.job.row)))]
  {
    RunThree(w, MainWrites, Summarize, MainWrites);
    NotBusyDelayed(w.queue);
    assert w.exec.value.owed[1..] == [];
    var w2 := Next(Next(w, MainWrites), Summarize);
    assert w2.exec.value.owed == [Put(SetFinal(FinalLabel(w.job.row)))];
  }

  /** Both writes commit: the job ends COMPLETED with a failure on its row. */
  lemma StaleLabelCommits(w: World, u: World)
    requires |w.queue| == 1 && w.queue[0].write.UpdateItems? && Tallied(w.job) && w.job.row.failed == 0
    requires |w.queue[0].write.updates| == 1 && w.queue[0].write.updates[0].state.ItemFailed?
    requires IsPending(w.job.items, w.queue[0].write.updates[0].ordinal)
    requires u.job == w.job && u.queue == w.queue + [Sent(Main, SetFinal(Completed))]
    ensures var v := Run(u, [CommitNext, CommitNext]);
      v.job.row.state.Completed? && v.job.row.failed == 1
  {
    RunTwo(u, CommitNext, CommitNext);
    var us := w.queue[0].write.updates;
    assert u.queue[1..] == [Sent(Main, SetFinal(Completed))];
    assert us == [us[0]] && us[..0] == [] && FailedIn(us) == 1;
    FailedAfterBatch(w.job.items, us);
  }

  /** A one-item plan can end COMPLETED, the label for no failures, with its only item FAILED. */
  lemma CompletionLabelCanBeStale(planned: Action, lookup: L.Lookup, now: real) returns (steps: seq<Step>)
    ensures var w := Run(Init(1, planned, lookup, now), steps);
      w.job.row.state.Completed? && w.job.row.failed == 1
  {
    var start := Init(1, planned, lookup, now);
    var first := FailureAtTheEnd(planned, lookup, now);
    var w := Run(start, first);
    LabelTaken(w);
    PipeIsPending(w);
    assert w.queue[1..] == [] && Inflight(w.queue[1..]) == [];
    assert Pipe(w) == w.queue[0].write.updates;
    StaleLabelCommits(w, Run(w, LABELLING));
    RunAppend(start, first, LABELLING);
    RunAppend(start, first + LABELLING, [CommitNext, CommitNext]);
    steps := first + LABELLING + [CommitNext, CommitNext];
  }

  lemma RejectedAtTheEnd(w: World)
    requires EndsWithFailure(w)
    ensures var v := Run(Run(w, [RejectNext]), CLOSING);
      v.job.row.state.Completed? && |v.job.items| == 1 && Pending(v.job.items[0].state)
  {
    RunOne(w, RejectNext);
    var u := Run(w, [RejectNext]);
    assert u.queue == [];
    CloseRun(u);
  }

  /** A rejected delayed flush is seen by nobody: a one-item plan can end COMPLETED with its only item still pending. */
  lemma RejectedFlushIsNeverSeen(planned: Action, lookup: L.Lookup, now: real) returns (steps: seq<Step>)
    ensures var w := Run(Init(1, planned, lookup, now), steps);
      w.job.row.state.Completed? && |w.job.items| == 1 && Pending(w.job.items[0].state)
  {
    var start := Init(1, planned, lookup, now);
    var first := FailureAtTheEnd(planned, lookup, now);
    RejectedAtTheEnd(Run(start, first));
    RunAppend(start, first, [RejectNext]);
    RunAppend(start, first + [RejectNext], CLOSING);
    steps := first + [RejectNext] + CLOSING;
  }
}
