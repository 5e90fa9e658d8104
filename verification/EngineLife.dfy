/** Theorems about time, lifecycle and the planned action over every life of a job. */
module EngineLife {
  import opened Core
  import opened JobStore
  import opened Engine
  import opened EngineShape
  import opened EngineFlow
  import opened EngineRuns
  import opened EngineGate
  import S = Scheduler
  import A = Attempt
  import L = Lifecycle

  // ------------------------------------------------------------------------------------------
  // The log of RPCs against the clock
  // ------------------------------------------------------------------------------------------

  /** Consecutive RPCs of one run are at least the cadence in force apart. */
  ghost predicate Paced(a: Rpc, b: Rpc) {
    a.run <= b.run && (a.run == b.run ==> a.at + b.interval <= b.at)
  }

  /** The RPC belongs to a run launched before it, at an allowed cadence, and in a strict life behind the gate. */
  ghost predicate RpcOk(r: Rpc, runs: nat, strict: bool) {
    r.run <= runs && r.launched <= r.at && S.InRange(r.interval) && (strict ==> Passed(r.gate, r.at))
  }

  ghost predicate LogOk(rpcs: seq<Rpc>, runs: nat, strict: bool) {
    && (forall i :: 0 <= i < |rpcs| ==> RpcOk(rpcs[i], runs, strict))
    && (forall i :: 0 < i < |rpcs| ==> Paced(rpcs[i - 1], rpcs[i]))
  }

  /** The current run has sent an RPC. */
  predicate HasSent(w: World) {
    w.past.rpcs != [] && w.past.rpcs[|w.past.rpcs| - 1].run == w.past.runs
  }

  ghost predicate Clock(w: World, strict: bool) {
    && LogOk(w.past.rpcs, w.past.runs, strict)
    && (w.exec.Some? ==>
          && w.exec.value.launched <= w.now
          && (HasSent(w) ==> w.exec.value.sched.last == Some(w.past.rpcs[|w.past.rpcs| - 1].at))
          && (w.exec.value.pc.Calling? ==> HasSent(w)))
  }

  /** What a step other than launching or sending does to the log and the run's clock: nothing. */
  ghost predicate SameClock(w: World, w': World) {
    && w'.past.rpcs == w.past.rpcs && w'.past.runs == w.past.runs && w.now <= w'.now
    && (w'.exec.Some? ==>
          && w.exec.Some? && w'.exec.value.launched == w.exec.value.launched
          && w'.exec.value.sched.last == w.exec.value.sched.last
          && w.exec.value.sched.serverUntil <= w'.exec.value.sched.serverUntil
          && (w'.exec.value.pc.Calling? ==> w.exec.value.pc.Calling?)
          && (!w.exec.value.pc.Calling? ==> w'.exec.value.sched.interval == w.exec.value.sched.interval))
  }

  lemma ReplyKeepsClock(w: World, v: A.Verdict, slow: bool)
    ensures SameClock(w, DoReply(w, v, slow))
  {
  }

  lemma ReplyStepKeepsClock(w: World, s: Step)
    requires s.Reply?
    ensures SameClock(w, Next(w, s))
  {
    ReplyKeepsClock(w, A.Decide(s.reply), s.slow);
  }

  lemma PopKeepsClock(w: World, s: Step)
    requires s.Pop? || s.Wake?
    ensures SameClock(w, Next(w, s))
  {
  }

  lemma LanesKeepClock(w: World, s: Step)
    requires OfLanes(s) || s.RejectNext?
    ensures SameClock(w, Next(w, s))
  {
  }

  lemma EdgesKeepClock(w: World, s: Step)
    requires s.Tick? || s.PlanNext? || s.Crash? || s.Restart? || s.Leave?
    ensures SameClock(w, Next(w, s))
  {
  }

  lemma TurnsKeepClock(w: World, s: Step)
    requires s.Observe? || s.Schedule? || s.Summarize?
    ensures SameClock(w, Next(w, s))
  {
  }

  lemma OtherStepsKeepClock(w: World, s: Step)
    requires !s.Launch? && !s.Send?
    ensures SameClock(w, Next(w, s))
  {
    if s.Reply? {
      ReplyStepKeepsClock(w, s);
    } else if s.Pop? || s.Wake? {
      PopKeepsClock(w, s);
    } else if OfLanes(s) || s.RejectNext? {
      LanesKeepClock(w, s);
    } else if s.Observe? || s.Schedule? || s.Summarize? {
      TurnsKeepClock(w, s);
    } else {
      EdgesKeepClock(w, s);
    }
  }

  lemma LaunchKeepsClock(w: World, interval: real, strict: bool)
    requires Clock(w, strict)
    ensures Clock(DoLaunch(w, interval), strict)
    ensures DoLaunch(w, interval) != w ==> !HasSent(DoLaunch(w, interval))
  {
    if DoLaunch(w, interval) != w {
      var rpcs := w.past.rpcs;
      assert rpcs != [] ==> RpcOk(rpcs[|rpcs| - 1], w.past.runs, strict);
      assert forall i :: 0 <= i < |rpcs| ==> RpcOk(rpcs[i], w.past.runs, strict);
    }
  }

  lemma SendKeepsClock(w: World, strict: bool)
    requires Gate(w, strict) && Clock(w, strict)
    ensures Clock(DoSend(w), strict)
  {
    if CanSend(w) {
      var rpcs, rpcs' := w.past.rpcs, DoSend(w).past.rpcs;
      S.DelayMeaning(w.exec.value.sched, w.now);
      var r := rpcs'[|rpcs|];
      assert rpcs' == rpcs + [r];
      assert RpcOk(r, w.past.runs, strict);
      assert rpcs != [] ==> RpcOk(rpcs[|rpcs| - 1], w.past.runs, strict) && Paced(rpcs[|rpcs| - 1], r);
    }
  }

  lemma NextKeepsClock(w: World, s: Step, strict: bool)
    requires Gate(w, strict) && Clock(w, strict)
    ensures Clock(Next(w, s), strict)
  {
    if s.Launch? {
      LaunchKeepsClock(w, s.interval, strict);
    } else if s.Send? {
      SendKeepsClock(w, strict);
    } else {
      OtherStepsKeepClock(w, s);
    }
  }

  ghost predicate Alive(w: World, strict: bool) {
    Shape(w) && Gate(w, strict) && Clock(w, strict)
  }

  /** Every launch in the life is a safe one. */
  ghost predicate SafeRun(w: World, steps: seq<Step>) {
    forall k :: 0 <= k < |steps| ==> SafeStep(Run(w, steps[..k]), steps[k])
  }

  lemma SafePrefix(w: World, steps: seq<Step>, k: nat)
    requires SafeRun(w, steps) && k <= |steps|
    ensures SafeRun(w, steps[..k])
  {
    assert forall j :: 0 <= j < k ==> steps[..k][..j] == steps[..j];
  }

  lemma {:induction false} RunKeepsAlive(w: World, steps: seq<Step>, strict: bool)
    requires Alive(w, strict) && (strict ==> SafeRun(w, steps))
    ensures Alive(Run(w, steps), strict)
  {
    if steps != [] {
      var k := |steps| - 1;
      var m := Run(w, steps[..k]);
      if strict {
        SafePrefix(w, steps, k);
      }
      RunKeepsAlive(w, steps[..k], strict);
      NextKeepsShape(m, steps[k]);
      NextKeepsGate(m, steps[k], strict);
      NextKeepsClock(m, steps[k], strict);
    }
  }

  lemma InitIsAlive(n: nat, planned: Action, lookup: L.Lookup, now: real, strict: bool)
    ensures Alive(Init(n, planned, lookup, now), strict)
  {
  }

  lemma ReachableIsAlive(n: nat, planned: Action, lookup: L.Lookup, now: real, steps: seq<Step>)
    ensures Alive(Run(Init(n, planned, lookup, now), steps), false)
  {
    InitIsAlive(n, planned, lookup, now, false);
    RunKeepsAlive(Init(n, planned, lookup, now), steps, false);
  }

  lemma SafeIsAlive(n: nat, planned: Action, lookup: L.Lookup, now: real, steps: seq<Step>)
    requires SafeRun(Init(n, planned, lookup, now), steps)
    ensures Alive(Run(Init(n, planned, lookup, now), steps), true)
  {
    InitIsAlive(n, planned, lookup, now, true);
    RunKeepsAlive(Init(n, planned, lookup, now), steps, true);
  }

  /** With the base lookup every launch is safe. */
  lemma BaseIsSafe(w: World, steps: seq<Step>)
    requires w.lookup.Base?
    ensures SafeRun(w, steps)
  {
    forall k | 0 <= k < |steps|
      ensures SafeStep(Run(w, steps[..k]), steps[k])
    {
      PlanIsFixed(w, steps[..k]);
    }
  }

  // ------------------------------------------------------------------------------------------
  // Gate and cadence
  // ------------------------------------------------------------------------------------------

  /**
   Over any life in which every launch is safe, no RPC is sent before the deadline last persisted in
   `waiting_until`, whatever rate limits, pauses, crashes, restarts and resumes happen.
   */
  lemma GateIsRespected(n: nat, planned: Action, lookup: L.Lookup, now: real, steps: seq<Step>)
    requires SafeRun(Init(n, planned, lookup, now), steps)
    ensures var rpcs := Run(Init(n, planned, lookup, now), steps).past.rpcs;
      forall i :: 0 <= i < |rpcs| ==> Passed(rpcs[i].gate, rpcs[i].at)
  {
    SafeIsAlive(n, planned, lookup, now, steps);
    var w := Run(Init(n, planned, lookup, now), steps);
    assert forall i :: 0 <= i < |w.past.rpcs| ==> RpcOk(w.past.rpcs[i], w.past.runs, true);
  }

  /** With the base lookup every launch is safe. */
  lemma BaseLookupRespectsGate(n: nat, planned: Action, now: real, steps: seq<Step>)
    ensures var rpcs := Run(Init(n, planned, L.Base, now), steps).past.rpcs;
      forall i :: 0 <= i < |rpcs| ==> Passed(rpcs[i].gate, rpcs[i].at)
  {
    BaseIsSafe(Init(n, planned, L.Base, now), steps);
    GateIsRespected(n, planned, L.Base, now, steps);
  }

  /**
   Cadence over every life: the interval in force lies between 3 and 10 seconds, two consecutive RPCs of one run
   are at least the current interval apart, and no RPC precedes the launch of its run.
   */
  lemma CadenceIsKept(n: nat, planned: Action, lookup: L.Lookup, now: real, steps: seq<Step>)
    ensures var rpcs := Run(Init(n, planned, lookup, now), steps).past.rpcs;
      && (forall i :: 0 <= i < |rpcs| ==> S.InRange(rpcs[i].interval) && rpcs[i].launched <= rpcs[i].at)
      && (forall i :: 0 < i < |rpcs| ==> Paced(rpcs[i - 1], rpcs[i]))
  {
    ReachableIsAlive(n, planned, lookup, now, steps);
    var w := Run(Init(n, planned, lookup, now), steps);
    assert forall i :: 0 <= i < |w.past.rpcs| ==> RpcOk(w.past.rpcs[i], w.past.runs, false);
  }

  /** Over every life k RPCs of one run span at least 3(k-1) seconds. */
  lemma RateIsBounded(n: nat, planned: Action, lookup: L.Lookup, now: real, steps: seq<Step>, i: nat, j: nat)
    requires var rpcs := Run(Init(n, planned, lookup, now), steps).past.rpcs;
      i <= j < |rpcs| && rpcs[i].run == rpcs[j].run
    ensures var rpcs := Run(Init(n, planned, lookup, now), steps).past.rpcs;
      rpcs[j].at - rpcs[i].at >= MIN_INTERVAL * (j - i) as real
  {
    ReachableIsAlive(n, planned, lookup, now, steps);
    var w := Run(Init(n, planned, lookup, now), steps);
    LogIsSpread(w.past.rpcs, w.past.runs, i, j);
  }

  lemma {:induction false} LogIsSpread(rpcs: seq<Rpc>, runs: nat, i: nat, j: nat)
    requires LogOk(rpcs, runs, false) && i <= j < |rpcs| && rpcs[i].run == rpcs[j].run
    ensures rpcs[j].at - rpcs[i].at >= MIN_INTERVAL * (j - i) as real
    decreases j
  {
    if i < j {
      assert Paced(rpcs[j - 1], rpcs[j]) && RpcOk(rpcs[j], runs, false);
      RunsAscend(rpcs, runs, i, j - 1);
      LogIsSpread(rpcs, runs, i, j - 1);
      assert MIN_INTERVAL * (j - i) as real == MIN_INTERVAL * (j - 1 - i) as real + MIN_INTERVAL;
    }
  }

  lemma {:induction false} RunsAscend(rpcs: seq<Rpc>, runs: nat, i: nat, j: nat)
    requires LogOk(rpcs, runs, false) && i <= j < |rpcs|
    ensures rpcs[i].run <= rpcs[j].run
    decreases j
  {
    if i < j {
      assert Paced(rpcs[j - 1], rpcs[j]);
      RunsAscend(rpcs, runs, i, j - 1);
    }
  }

  // ------------------------------------------------------------------------------------------
  // Cadence across runs
  // ------------------------------------------------------------------------------------------

  /** The earliest instant at which a run launched now can send: at once, or when the looked-up gate has passed. */
  function Earliest(w: World): real {
    w.now + L.RemainingWait(L.OwnGate(w.lookup, w.job.row), w.now)
  }

  /** A launch that cannot send before its cadence allows, counted from the last RPC of the runs before. */
  predicate SpacedLaunch(w: World, interval: real) {
    w.past.rpcs != [] ==> w.past.rpcs[|w.past.rpcs| - 1].at + interval <= Earliest(w)
  }

  ghost predicate SpacedRun(w: World, steps: seq<Step>) {
    forall k :: 0 <= k < |steps| && steps[k].Launch? ==> SpacedLaunch(Run(w, steps[..k]), steps[k].interval)
  }

  /** Any two consecutive RPCs, of whatever runs, are at least the current interval apart. */
  ghost predicate AllPaced(rpcs: seq<Rpc>) {
    forall i :: 0 < i < |rpcs| ==> rpcs[i - 1].at + rpcs[i].interval <= rpcs[i].at
  }

  /** A run that has not sent yet will not send too early. */
  ghost predicate Even(w: World) {
    && AllPaced(w.past.rpcs)
    && (w.exec.Some? && !HasSent(w) && w.past.rpcs != [] ==>
          w.past.rpcs[|w.past.rpcs| - 1].at + w.exec.value.sched.interval
            <= Max(w.exec.value.launched, w.exec.value.sched.serverUntil))
  }

  lemma LaunchKeepsEven(w: World, interval: real)
    requires Clock(w, false) && Even(w) && SpacedLaunch(w, interval)
    ensures Even(DoLaunch(w, interval))
  {
  }

  lemma SendKeepsEven(w: World)
    requires Gate(w, false) && Clock(w, false) && Even(w)
    ensures Even(DoSend(w))
  {
    if CanSend(w) {
      var rpcs, rpcs' := w.past.rpcs, DoSend(w).past.rpcs;
      S.DelayMeaning(w.exec.value.sched, w.now);
      var r := rpcs'[|rpcs|];
      assert rpcs' == rpcs + [r];
      assert rpcs != [] ==> rpcs[|rpcs| - 1].at + r.interval <= r.at;
      assert forall i :: 0 < i < |rpcs'| ==> rpcs'[i - 1].at + rpcs'[i].interval <= rpcs'[i].at;
    }
  }

  lemma NextKeepsEven(w: World, s: Step)
    requires Gate(w, false) && Clock(w, false) && Even(w)
    requires s.Launch? ==> SpacedLaunch(w, s.interval)
    ensures Even(Next(w, s))
  {
    if s.Launch? {
      LaunchKeepsEven(w, s.interval);
    } else if s.Send? {
      SendKeepsEven(w);
    } else {
      OtherStepsKeepClock(w, s);
    }
  }

  lemma {:induction false} RunKeepsEven(w: World, steps: seq<Step>)
    requires Alive(w, false) && Even(w) && SpacedRun(w, steps)
    ensures Even(Run(w, steps))
  {
    if steps != [] {
      var k := |steps| - 1;
      assert forall j :: 0 <= j < k ==> steps[..k][..j] == steps[..j];
      RunKeepsEven(w, steps[..k]);
      RunKeepsAlive(w, steps[..k], false);
      NextKeepsEven(Run(w, steps[..k]), steps[k]);
    }
  }

  /**
   Cadence across runs: if no launch could send too early, all RPCs of the life are at least the current interval
   apart, over pauses, crashes and resumes.  `EngineWitness.EarlyLaunchBreaksCadence` shows that one launch that
   could send too early is enough to break it.
   */
  lemma CadenceAcrossRuns(n: nat, planned: Action, lookup: L.Lookup, now: real, steps: seq<Step>)
    requires SpacedRun(Init(n, planned, lookup, now), steps)
    ensures AllPaced(Run(Init(n, planned, lookup, now), steps).past.rpcs)
  {
    InitIsAlive(n, planned, lookup, now, false);
    RunKeepsEven(Init(n, planned, lookup, now), steps);
  }

  // ------------------------------------------------------------------------------------------
  // Lifecycle
  // ------------------------------------------------------------------------------------------

  /** In a terminal state only the planner may still write, and it changes no state and no result. */
  lemma TerminalStepKeepsJob(w: World, s: Step)
    requires Alive(w, false) && Terminal(w.job.row.state)
    ensures Next(w, s).job == w.job || (w.planning && s.PlanNext?)
    ensures Next(w, s).job.row.state == w.job.row.state && Next(w, s).job.row.waitingUntil == w.job.row.waitingUntil
    ensures Next(w, s).planning ==> w.planning
  {
    if w.exec.Some? {
      assert ExecGate(w, w.exec.value, false);
    }
  }

  /**
   Terminal states absorb although no writer validates transitions: the state never changes again, and once the
   planner is done (or gone) nothing of the job does.
   */
  lemma {:induction false} TerminalStatesAbsorb(n: nat, planned: Action, lookup: L.Lookup, now: real, steps: seq<Step>, more: seq<Step>)
    requires Terminal(Run(Init(n, planned, lookup, now), steps).job.row.state)
    ensures var w := Run(Init(n, planned, lookup, now), steps);
      && Run(w, more).job.row.state == w.job.row.state
      && (!w.planning ==> Run(w, more).job == w.job && !Run(w, more).planning)
  {
    var w := Run(Init(n, planned, lookup, now), steps);
    if more != [] {
      var k := |more| - 1;
      TerminalStatesAbsorb(n, planned, lookup, now, steps, more[..k]);
      ReachableIsAlive(n, planned, lookup, now, steps);
      RunKeepsAlive(w, more[..k], false);
      TerminalStepKeepsJob(Run(w, more[..k]), more[k]);
    }
  }

  /** Every step of every life makes only transitions `validate_transition` accepts. */
  lemma EveryTransitionIsAllowed(n: nat, planned: Action, lookup: L.Lookup, now: real, steps: seq<Step>, s: Step)
    ensures var w := Run(Init(n, planned, lookup, now), steps);
      L.TransitionAllowed(w.job.row.state, Next(w, s).job.row.state)
  {
    var w := Run(Init(n, planned, lookup, now), steps);
    ReachableIsAlive(n, planned, lookup, now, steps);
    if Terminal(w.job.row.state) {
      TerminalStepKeepsJob(w, s);
    }
  }

  /**
   The action a run reads back is the planned one exactly when the plan was INVITE, or the planner's checkpoint has
   committed and no executor checkpoint has replaced it; otherwise a REMOVE job runs as INVITE.  Restart
   normalisation keeps the action.
   */
  lemma PlannedActionIsReadBack(n: nat, planned: Action, lookup: L.Lookup, now: real, steps: seq<Step>, interval: real)
    requires var w := Run(Init(n, planned, lookup, now), steps); Launchable(w) && S.InRange(interval)
    ensures var w := Run(Init(n, planned, lookup, now), steps);
      var run := Next(w, Launch(interval));
      && run.exec.Some?
      && (run.exec.value.action == planned <==> planned.Invite? || w.past.author.Planner?)
      && (run.exec.value.action != planned ==> run.exec.value.action.Invite?)
      && Next(w, Restart).job.row.checkpoint.action == w.job.row.checkpoint.action
  {
    ReachableIsAlive(n, planned, lookup, now, steps);
    PlanIsFixed(Init(n, planned, lookup, now), steps);
  }
}
