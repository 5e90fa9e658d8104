/**
 The job row over whole lives: terminal states absorb, the persisted server gate is respected, attempts keep
 their cadence, and what becomes of the planned action.
 */
module EngineGate {
  import opened Core
  import opened JobStore
  import opened Engine
  import opened EngineShape
  import CB = CandidateBuffer
  import S = Scheduler
  import A = Attempt

  /** The gate lies behind. */
  predicate Passed(gate: Option<real>, now: real) {
    gate.Some? ==> gate.value <= now
  }

  /** The gate watched by the invariant: the last persisted deadline, or nothing when deadlines are not the point. */
  function Watched(w: World, strict: bool): Option<real> {
    if strict then w.past.gate else None
  }

  /** What each row change on its way to the table may say, given where its run stands. */
  ghost predicate Sane(x: Write, e: Exec, gate: Option<real>, now: real) {
    x.SetState? ==>
      && !x.state.Ready?
      && (x.until.Some? ==> x.state.WaitingServer? && e.pc.ServerWait? && x.until.value <= e.sched.serverUntil)
      && (x.clearWaiting && !Terminal(x.state) ==> e.pc.Delay? && x.until.None? && Passed(gate, now))
      && (x.checkpoint.Some? ==> x.checkpoint.value.action.None?)
      && (Terminal(x.state) ==> e.pc.Exit?)
  }

  predicate Ends(x: Write) {
    x.SetState? && Terminal(x.state)
  }

  ghost predicate QueueSane(queue: seq<Sent>, e: Exec, gate: Option<real>, now: real) {
    forall i :: 0 <= i < |queue| ==>
      Sane(queue[i].write, e, gate, now) && (Ends(queue[i].write) ==> e.owed == [])
  }

  ghost predicate OwedSane(e: Exec, gate: Option<real>, now: real) {
    forall i :: 0 <= i < |e.owed| && e.owed[i].Put? ==>
      Sane(e.owed[i].write, e, gate, now) && (Ends(e.owed[i].write) ==> i == |e.owed| - 1)
  }

  /** The running scheduler covers the persisted gate, or the gate lies behind. */
  ghost predicate Covered(e: Exec, gate: Option<real>, now: real) {
    Passed(gate, now) || gate.value <= e.sched.serverUntil
  }

  /** The table remembers the gate of a job that may still run, unless it lies behind. */
  ghost predicate Remembered(row: Row, gate: Option<real>, now: real) {
    && (!Terminal(row.state) ==> Passed(gate, now) || row.waitingUntil == gate)
    && (row.state.Ready? ==> gate.None?)
  }

  ghost predicate ActionKept(w: World) {
    w.job.row.checkpoint.action == if w.past.author.Planner? then Some(w.past.planned) else None
  }

  ghost predicate ExecGate(w: World, e: Exec, strict: bool) {
    && S.Inv(e.sched)
    && QueueSane(w.queue, e, Watched(w, strict), w.now)
    && OwedSane(e, Watched(w, strict), w.now)
    && Covered(e, Watched(w, strict), w.now)
    && (Terminal(w.job.row.state) ==> e.pc.Exit? && e.owed == [] && w.queue == [])
    && (e.action == w.past.planned || e.action.Invite?)
  }

  ghost predicate Gate(w: World, strict: bool) {
    && Remembered(w.job.row, Watched(w, strict), w.now)
    && ActionKept(w)
    && (w.exec.Some? ==> ExecGate(w, w.exec.value, strict))
  }

  /** A launch that loses no deadline: always with the base lookup; with the override, not from PAUSED with a wait ahead. */
  predicate SafeLaunch(w: World) {
    w.lookup.Base? || !(w.job.row.state.Paused? && !Passed(w.job.row.waitingUntil, w.now))
  }

  predicate SafeStep(w: World, s: Step) {
    s.Launch? ==> SafeLaunch(w)
  }

  // ------------------------------------------------------------------------------------------
  // Steps
  // ------------------------------------------------------------------------------------------

  /** A free main coroutine has no row change in flight. */
  lemma FreeQueueSane(queue: seq<Sent>, e: Exec, e': Exec, gate: Option<real>, now: real)
    requires ExecShape(queue, e) && !Busy(queue, Main)
    ensures QueueSane(queue, e', gate, now)
  {
    forall i | 0 <= i < |queue|
      ensures Sane(queue[i].write, e', gate, now) && (Ends(queue[i].write) ==> e'.owed == [])
    {
      assert queue[i].lane.Delayed?;
    }
  }

  lemma TickKeepsGate(w: World, dt: real, strict: bool)
    requires Gate(w, strict)
    ensures Gate(Next(w, Tick(dt)), strict)
  {
  }

  lemma LaunchKeepsGate(w: World, interval: real, strict: bool)
    requires Shape(w) && Gate(w, strict) && (strict ==> SafeLaunch(w))
    ensures Gate(DoLaunch(w, interval), strict)
  {
    if Launchable(w) && S.Create(interval).Some? {
      var e := NewExec(w, S.Create(interval).value);
      assert Covered(e, Watched(w, strict), w.now);
    }
  }

  lemma CommitRowKeepsGate(w: World, strict: bool)
    requires Shape(w) && Gate(w, strict) && w.queue != []
    ensures var w' := DoCommit(w);
      && Remembered(w'.job.row, Watched(w', strict), w'.now) && ActionKept(w')
      && Covered(w.exec.value, Watched(w', strict), w'.now)
  {
    var x := w.queue[0].write;
    assert Sane(x, w.exec.value, Watched(w, strict), w.now);
    match x
    case UpdateItems(us) =>
    case MarkRetry(o, attempts) =>
    case SetState(state, until, cp, clear) =>
      assert w.queue[0].lane.Main?;
  }

  /** Once a row change is at the head of the lane, no other is in flight or owed that it could contradict. */
  lemma CommitQueueKeepsGate(w: World, strict: bool)
    requires Shape(w) && Gate(w, strict) && w.queue != []
    ensures var w' := DoCommit(w);
      && QueueSane(w'.queue, w.exec.value, Watched(w', strict), w'.now)
      && OwedSane(w.exec.value, Watched(w', strict), w'.now)
  {
    var e := w.exec.value;
    var w' := DoCommit(w);
    var x := w.queue[0].write;
    assert Sane(x, e, Watched(w, strict), w.now);
    forall i | 0 <= i < |w'.queue|
      ensures Sane(w'.queue[i].write, e, Watched(w', strict), w'.now) && (Ends(w'.queue[i].write) ==> e.owed == [])
    {
      assert w'.queue[i] == w.queue[i + 1];
    }
  }

  lemma CommitKeepsGate(w: World, strict: bool)
    requires Shape(w) && Gate(w, strict)
    ensures Gate(DoCommit(w), strict)
  {
    if w.queue != [] {
      var e := w.exec.value;
      var x := w.queue[0].write;
      CommitRowKeepsGate(w, strict);
      CommitQueueKeepsGate(w, strict);
      assert Sane(x, e, Watched(w, strict), w.now);
      if x.SetState? && Terminal(x.state) {
        assert w.queue[0].lane.Main?;
      }
    }
  }

  lemma SubmitKeepsGate(w: World, e: Exec, lane: Lane, strict: bool)
    requires Remembered(w.job.row, Watched(w, strict), w.now) && ActionKept(w) && ExecGate(w, e, strict)
    requires e.results != [] ==> !Terminal(w.job.row.state)
    ensures Gate(Submit(w, e, lane), strict)
  {
  }

  lemma TimerFiresKeepsGate(w: World, strict: bool)
    requires Shape(w) && Gate(w, strict)
    ensures Gate(DoTimerFires(w), strict)
  {
    if w.exec.Some? && w.exec.value.timer.Sleeping? {
      var e := w.exec.value;
      SubmitKeepsGate(w, e.(timer := if e.results == [] then Idle else Writing), Delayed, strict);
    }
  }

  lemma MainWritesKeepsGate(w: World, strict: bool)
    requires Shape(w) && Gate(w, strict)
    ensures Gate(DoMainWrites(w), strict)
  {
    if Awake(w) && w.exec.value.owed != [] {
      var e := w.exec.value;
      var rest := e.(owed := e.owed[1..]);
      FreeQueueSane(w.queue, e, rest, Watched(w, strict), w.now);
      assert forall i :: 0 <= i < |rest.owed| ==> rest.owed[i] == e.owed[i + 1];
      assert ExecGate(w, rest, strict);
      match e.owed[0]
      case FlushFirst => SubmitKeepsGate(w, rest, Main, strict);
      case Put(x) =>
        assert Sane(x, e, Watched(w, strict), w.now);
        assert Ends(x) ==> rest.owed == [];
        assert QueueSane(w.queue + [Sent(Main, x)], rest, Watched(w, strict), w.now);
    }
  }

  /** A step of a free main coroutine that only moves it and queues sane writes. */
  lemma TurnKeepsGate(w: World, e: Exec, past: Past, strict: bool)
    requires Shape(w) && Gate(w, strict) && Free(w)
    requires past == w.past.(rpcs := past.rpcs, concluded := past.concluded)
    requires S.Inv(e.sched) && w.exec.value.sched.serverUntil <= e.sched.serverUntil
    requires e.action == w.exec.value.action
    requires OwedSane(e, Watched(w, strict), w.now)
    requires !w.exec.value.pc.Exit?
    ensures Gate(WithExec(w, e).(past := past), strict)
    ensures ExecGate(w.(past := past), e, strict) && !Terminal(w.job.row.state)
  {
    FreeQueueSane(w.queue, w.exec.value, e, Watched(w, strict), w.now);
  }

  lemma ConcludeKeepsGate(w: World, e: Exec, u: Update, past: Past, slow: bool, strict: bool)
    requires Shape(w) && Gate(w, strict) && Free(w) && !w.exec.value.pc.Exit?
    requires past == w.past.(rpcs := past.rpcs, concluded := past.concluded)
    requires S.Inv(e.sched) && w.exec.value.sched.serverUntil <= e.sched.serverUntil
    requires e.action == w.exec.value.action && e.owed == []
    ensures Gate(Conclude(w.(past := past), e, u, slow), strict)
  {
    var e' := e.(pc := Recorded, results := e.results + [u]);
    var past' := past.(concluded := past.concluded + [u.ordinal]);
    TurnKeepsGate(w, e', past', strict);
    if |e'.results| >= RESULT_BATCH || slow {
      SubmitKeepsGate(w.(past := past'), e', Main, strict);
    }
  }

  lemma PopKeepsGate(w: World, usable: bool, slow: bool, strict: bool)
    requires Shape(w) && Gate(w, strict)
    ensures Gate(DoPop(w, usable, slow), strict)
  {
    if Free(w) && w.exec.value.pc.Top? {
      var e := w.exec.value;
      var b := e.buf;
      if b.queue != [] && !usable {
        ConcludeKeepsGate(w, e.(buf := CB.TakeHead(b)), Update(b.queue[0].ordinal, ItemFailed, b.queue[0].attempts), w.past, slow, strict);
      } else {
        TurnKeepsGate(w, DoPop(w, usable, slow).exec.value, w.past, strict);
      }
    }
  }

  lemma SendKeepsGate(w: World, strict: bool)
    requires Shape(w) && Gate(w, strict)
    ensures Gate(DoSend(w), strict)
  {
    if CanSend(w) {
      TurnKeepsGate(w, DoSend(w).exec.value, DoSend(w).past, strict);
    }
  }

  lemma ReplyKeepsGate(w: World, v: A.Verdict, slow: bool, strict: bool)
    requires Shape(w) && Gate(w, strict)
    requires v.WaitFor? ==> v.seconds >= 1
    ensures Gate(DoReply(w, v, slow), strict)
  {
    if Called(w) {
      var e := w.exec.value;
      var h := e.pc.hand;
      if v.Conclude? {
        ConcludeKeepsGate(
          w, e.(sched := S.MarkStable(e.sched, w.now)), Update(h.ordinal, v.state, h.attempts), w.past, slow, strict);
      } else {
        var e' := DoReply(w, v, slow).exec.value;
        assert OwedSane(e', Watched(w, strict), w.now);
        TurnKeepsGate(w, e', w.past, strict);
      }
    }
  }

  lemma WakeKeepsGate(w: World, slow: bool, strict: bool)
    requires Shape(w) && Gate(w, strict)
    ensures Gate(DoWake(w, slow), strict)
  {
    if Free(w) && (w.exec.value.pc.Backoff? || w.exec.value.pc.ServerWait?) {
      var e := w.exec.value;
      var h := e.pc.hand;
      if e.pc.Backoff? && h.transient >= |TRANSIENT_DELAYS| {
        ConcludeKeepsGate(w, e, Update(h.ordinal, ItemFailed, h.attempts), w.past, slow, strict);
      } else {
        var e' := DoWake(w, slow).exec.value;
        assert OwedSane(e', Watched(w, strict), w.now);
        TurnKeepsGate(w, e', w.past, strict);
      }
    }
  }

  lemma OtherTurnsKeepGate(w: World, s: Step, strict: bool)
    requires Shape(w) && Gate(w, strict) && (s.Observe? || s.Schedule? || s.Summarize?)
    ensures Gate(Next(w, s), strict)
  {
    var w' := Next(w, s);
    if w' != w {
      TurnKeepsGate(w, w'.exec.value, w.past, strict);
    }
  }

  lemma RestKeepsGate(w: World, s: Step, strict: bool)
    requires Shape(w) && Gate(w, strict) && (s.TimerEnds? || s.WorkerReads? || s.Leave? || s.Crash? || s.Restart?)
    ensures Gate(Next(w, s), strict)
  {
  }

  lemma PlanKeepsGate(w: World, strict: bool)
    requires Gate(w, strict)
    ensures Gate(DoPlan(w), strict)
  {
  }

  lemma RejectKeepsGate(w: World, strict: bool)
    requires Shape(w) && Gate(w, strict)
    ensures Gate(DoReject(w), strict)
  {
    var w' := DoReject(w);
    assert forall i :: 0 <= i < |w'.queue| && w' != w ==> w'.queue[i] == w.queue[i + 1];
  }

  lemma NextKeepsGate(w: World, s: Step, strict: bool)
    requires Shape(w) && Gate(w, strict) && (strict ==> SafeStep(w, s))
    ensures Gate(Next(w, s), strict)
  {
    match s
    case Tick(dt) => TickKeepsGate(w, dt, strict);
    case PlanNext => PlanKeepsGate(w, strict);
    case RejectNext => RejectKeepsGate(w, strict);
    case Launch(interval) => LaunchKeepsGate(w, interval, strict);
    case CommitNext => CommitKeepsGate(w, strict);
    case TimerFires => TimerFiresKeepsGate(w, strict);
    case MainWrites => MainWritesKeepsGate(w, strict);
    case Pop(usable, slow) => PopKeepsGate(w, usable, slow, strict);
    case Send => SendKeepsGate(w, strict);
    case Reply(reply, slow) => ReplyKeepsGate(w, A.Decide(reply), slow, strict);
    case Wake(slow) => WakeKeepsGate(w, slow, strict);
    case Observe(_) => OtherTurnsKeepGate(w, s, strict);
    case Schedule => OtherTurnsKeepGate(w, s, strict);
    case Summarize => OtherTurnsKeepGate(w, s, strict);
    case TimerEnds => RestKeepsGate(w, s, strict);
    case WorkerReads => RestKeepsGate(w, s, strict);
    case Leave => RestKeepsGate(w, s, strict);
    case Crash => RestKeepsGate(w, s, strict);
    case Restart => RestKeepsGate(w, s, strict);
  }
}
