/** What the row says while a run is live, and so what a crash finds. */
module EngineRow {
  import opened Core
  import opened JobStore
  import opened Engine
  import opened EngineShape
  import opened EngineFlow
  import opened EngineRuns
  import opened EngineGate
  import opened EngineLife
  import opened EngineWait
  import S = Scheduler
  import A = Attempt
  import L = Lifecycle

  predicate Raises(x: Write) {
    x.SetState? && x.state.Running?
  }

  /** The row is about to become RUNNING. */
  ghost predicate Rising(w: World) {
    || (w.exec.Some? && exists i :: 0 <= i < |w.exec.value.owed| && w.exec.value.owed[i].Put? && Raises(w.exec.value.owed[i].write))
    || (exists i :: 0 <= i < |w.queue| && Raises(w.queue[i].write))
  }

  /** A row change makes the job RUNNING, announces a deadline, or belongs to a run on its way out. */
  ghost predicate Said(x: Write, e: Exec) {
    x.SetState? ==> Raises(x) || (Bears(x) && !Raises(x) && e.pc.ServerWait?) || e.pc.Exit?
  }

  ghost predicate QueueSaid(queue: seq<Sent>, e: Exec) {
    forall i :: 0 <= i < |queue| ==> Said(queue[i].write, e) && (queue[i].write.SetState? ==> e.owed == [])
  }

  ghost predicate OwedSaid(e: Exec) {
    forall i :: 0 <= i < |e.owed| && e.owed[i].Put? ==>
      Said(e.owed[i].write, e) && (e.owed[i].write.SetState? ==> i == |e.owed| - 1)
  }

  /** A live run has a RUNNING row, unless it is waiting for the server or about to say something else. */
  ghost predicate RowSays(w: World, e: Exec) {
    e.pc.Exit? || Rising(w) || (e.pc.ServerWait? && !Underway(w)) || w.job.row.state.Running?
  }

  /** The row remembers no deadline but the last persisted one, which lies behind whenever a new one may be announced. */
  ghost predicate Steady(w: World, strict: bool) {
    && (w.job.row.waitingUntil.Some? ==> w.job.row.waitingUntil == w.past.gate)
    && (w.exec.Some? ==>
          var e := w.exec.value;
          && QueueSaid(w.queue, e) && OwedSaid(e) && RowSays(w, e)
          && (strict && (e.pc.Calling? || (e.pc.ServerWait? && Underway(w))) ==> Passed(w.past.gate, w.now)))
  }

  // ------------------------------------------------------------------------------------------
  // Steps
  // ------------------------------------------------------------------------------------------

  /** A free coroutine has no row change in flight. */
  lemma FreeQueueSaid(queue: seq<Sent>, e: Exec, e': Exec)
    requires ExecShape(queue, e) && !Busy(queue, Main)
    ensures QueueSaid(queue, e') && forall i :: 0 <= i < |queue| ==> queue[i].write.UpdateItems?
  {
    forall i | 0 <= i < |queue|
      ensures queue[i].write.UpdateItems?
    {
      assert queue[i].lane.Delayed?;
    }
  }

  /** A free run that is not over has a RUNNING row or is waiting for the server. */
  lemma FreeIsRunning(w: World, strict: bool)
    requires Shape(w) && Steady(w, strict) && Free(w)
    ensures !Underway(w) && !Rising(w)
    ensures w.exec.value.pc.Exit? || w.exec.value.pc.ServerWait? || w.job.row.state.Running?
  {
    FreeQueueSaid(w.queue, w.exec.value, w.exec.value);
  }

  /** A step of the free coroutine. */
  lemma TurnKeepsSteady(w: World, e': Exec, past: Past, strict: bool)
    requires Shape(w) && Steady(w, strict) && Free(w) && !w.exec.value.pc.Exit?
    requires past.gate == w.past.gate && OwedSaid(e')
    requires w.exec.value.pc.ServerWait? ==>
      e'.pc.Exit? || exists i :: 0 <= i < |e'.owed| && e'.owed[i].Put? && Raises(e'.owed[i].write)
    requires strict && (e'.pc.Calling? || e'.pc.ServerWait?) ==> Passed(w.past.gate, w.now)
    ensures Steady(WithExec(w, e').(past := past), strict)
  {
    FreeIsRunning(w, strict);
    FreeQueueSaid(w.queue, w.exec.value, e');
  }

  /** A batch of results joins the queue. */
  lemma SubmitKeepsSteady(w: World, e: Exec, lane: Lane, strict: bool)
    requires Steady(WithExec(w, e), strict)
    ensures Steady(Submit(w, e, lane), strict)
  {
    var w1, w' := WithExec(w, e), Submit(w, e, lane);
    assert w'.exec.value.owed == e.owed && w'.exec.value.pc == e.pc;
    assert forall i :: 0 <= i < |w.queue| ==> w'.queue[i] == w.queue[i];
    assert Underway(w1) <==> Underway(w');
    assert Rising(w1) <==> Rising(w');
  }

  lemma ConcludeKeepsSteady(w: World, e: Exec, u: Update, slow: bool, strict: bool)
    requires Shape(w) && Steady(w, strict) && Free(w) && !w.exec.value.pc.Exit? && !w.exec.value.pc.ServerWait?
    requires e.owed == []
    ensures Steady(Conclude(w, e, u, slow), strict)
  {
    var e' := e.(pc := Recorded, results := e.results + [u]);
    var past := w.past.(concluded := w.past.concluded + [u.ordinal]);
    TurnKeepsSteady(w, e', past, strict);
    if |e'.results| >= RESULT_BATCH || slow {
      SubmitKeepsSteady(w.(past := past), e', Main, strict);
    }
  }

  lemma CommitKeepsSteady(w: World, strict: bool)
    requires Shape(w) && Gate(w, false) && Steady(w, strict)
    ensures Steady(DoCommit(w), strict)
  {
    if w.queue != [] {
      var x := w.queue[0].write;
      var e := w.exec.value;
      var w' := DoCommit(w);
      assert Sane(x, e, None, w.now) && Said(x, e);
      assert forall i :: 0 <= i < |w'.queue| ==> w'.queue[i] == w.queue[i + 1];
      assert forall i :: 0 < i < |w.queue| ==> w.queue[i] == w'.queue[i - 1];
      if x.SetState? {
        assert w.queue[0].lane.Main?;
        assert w'.queue == [] && e.owed == [];
      } else {
        assert Underway(w') <==> Underway(w);
        assert Rising(w') <==> Rising(w);
      }
    }
  }

  lemma RejectKeepsSteady(w: World, strict: bool)
    requires Steady(w, strict) && Shape(w)
    ensures Steady(DoReject(w), strict)
  {
    var w' := DoReject(w);
    if w' != w {
      assert forall i :: 0 <= i < |w'.queue| ==> w'.queue[i] == w.queue[i + 1];
      assert forall i :: 0 < i < |w.queue| ==> w.queue[i] == w'.queue[i - 1];
      assert Underway(w') <==> Underway(w);
      assert Rising(w') <==> Rising(w);
    }
  }

  lemma TimerFiresKeepsSteady(w: World, strict: bool)
    requires Steady(w, strict)
    ensures Steady(DoTimerFires(w), strict)
  {
    if w.exec.Some? && w.exec.value.timer.Sleeping? {
      var e := w.exec.value;
      var e' := e.(timer := if e.results == [] then Idle else Writing);
      var w1 := WithExec(w, e');
      assert Underway(w1) <==> Underway(w);
      assert Rising(w1) <==> Rising(w);
      assert Steady(w1, strict);
      SubmitKeepsSteady(w, e', Delayed, strict);
    }
  }

  /** The next owed write moves to the queue. */
  lemma PutKeepsSteady(w: World, e: Exec, x: Write, strict: bool)
    requires Shape(w) && Steady(w, strict) && Awake(w) && w.exec == Some(e) && e.owed != [] && e.owed[0] == Put(x)
    ensures Steady(DoMainWrites(w), strict)
  {
    var w' := DoMainWrites(w);
    var rest := w'.exec.value;
    FreeQueueSaid(w.queue, e, rest);
    assert forall i :: 0 <= i < |rest.owed| ==> rest.owed[i] == e.owed[i + 1];
    assert forall i :: 0 < i < |e.owed| ==> e.owed[i] == rest.owed[i - 1];
    assert forall i :: 0 <= i < |w.queue| ==> w'.queue[i] == w.queue[i];
    assert w'.queue[|w.queue|] == Sent(Main, x);
    assert Underway(w') <==> Underway(w);
    assert Rising(w') <==> Rising(w);
  }

  lemma MainWritesKeepsSteady(w: World, strict: bool)
    requires Shape(w) && Steady(w, strict)
    ensures Steady(DoMainWrites(w), strict)
  {
    if Awake(w) && w.exec.value.owed != [] {
      var e := w.exec.value;
      if e.owed[0].Put? {
        PutKeepsSteady(w, e, e.owed[0].write, strict);
      } else {
        var rest := e.(owed := e.owed[1..]);
        var w1 := WithExec(w, rest);
        FreeQueueSaid(w.queue, e, rest);
        assert forall i :: 0 <= i < |rest.owed| ==> rest.owed[i] == e.owed[i + 1];
        assert forall i :: 0 < i < |e.owed| ==> e.owed[i] == rest.owed[i - 1];
        assert Underway(w1) <==> Underway(w);
        assert Rising(w1) <==> Rising(w);
        SubmitKeepsSteady(w, rest, Main, strict);
      }
    }
  }

  lemma SendKeepsSteady(w: World, strict: bool)
    requires Shape(w) && Gate(w, strict) && Steady(w, strict)
    ensures Steady(DoSend(w), strict)
  {
    if CanSend(w) {
      if strict && w.past.gate.Some? {
        SendMeansPassed(w, w.past.gate.value);
      }
      TurnKeepsSteady(w, DoSend(w).exec.value, DoSend(w).past, strict);
    }
  }

  lemma ReplyKeepsSteady(w: World, v: A.Verdict, slow: bool, strict: bool)
    requires Shape(w) && Steady(w, strict)
    ensures Steady(DoReply(w, v, slow), strict)
  {
    if Called(w) {
      var e := w.exec.value;
      if v.Conclude? {
        ConcludeKeepsSteady(
          w, e.(sched := S.MarkStable(e.sched, w.now)), Update(e.pc.hand.ordinal, v.state, e.pc.hand.attempts), slow, strict);
      } else {
        TurnKeepsSteady(w, DoReply(w, v, slow).exec.value, w.past, strict);
      }
    }
  }

  lemma PopKeepsSteady(w: World, usable: bool, slow: bool, strict: bool)
    requires Shape(w) && Steady(w, strict)
    ensures Steady(DoPop(w, usable, slow), strict)
  {
    if Free(w) && w.exec.value.pc.Top? {
      var e := w.exec.value;
      if e.buf.queue != [] && !usable {
        var c := e.buf.queue[0];
        ConcludeKeepsSteady(
          w, e.(buf := DoPop(w, true, slow).exec.value.buf), Update(c.ordinal, ItemFailed, c.attempts), slow, strict);
      } else {
        TurnKeepsSteady(w, DoPop(w, usable, slow).exec.value, w.past, strict);
      }
    }
  }

  lemma WakeKeepsSteady(w: World, slow: bool, strict: bool)
    requires Shape(w) && Steady(w, strict)
    ensures Steady(DoWake(w, slow), strict)
  {
    var w' := DoWake(w, slow);
    if w' != w {
      var e := w.exec.value;
      if e.pc.Backoff? && e.pc.hand.transient >= |TRANSIENT_DELAYS| {
        ConcludeKeepsSteady(w, e, Update(e.pc.hand.ordinal, ItemFailed, e.pc.hand.attempts), slow, strict);
      } else {
        if e.pc.ServerWait? {
          assert w'.exec.value.owed[0].Put? && Raises(w'.exec.value.owed[0].write);
        }
        TurnKeepsSteady(w, w'.exec.value, w.past, strict);
      }
    }
  }

  lemma TurnsKeepSteady(w: World, s: Step, strict: bool)
    requires Shape(w) && Steady(w, strict) && (s.Observe? || s.Schedule? || s.Summarize?)
    ensures Steady(Next(w, s), strict)
  {
    var w' := Next(w, s);
    if w' != w {
      TurnKeepsSteady(w, w'.exec.value, w.past, strict);
    }
  }

  lemma LaunchKeepsSteady(w: World, interval: real, strict: bool)
    requires Shape(w) && Steady(w, strict)
    ensures Steady(DoLaunch(w, interval), strict)
  {
    var w' := DoLaunch(w, interval);
    if w' != w {
      assert w'.exec.value.owed[0].Put? && Raises(w'.exec.value.owed[0].write);
    }
  }

  /** The same run, row and queue at a later time. */
  lemma SameKeepsSteady(w: World, w': World, strict: bool)
    requires Steady(w, strict) && w.exec.Some? && w'.exec.Some? && w'.queue == w.queue && w.now <= w'.now
    requires w'.exec.value.pc == w.exec.value.pc && w'.exec.value.owed == w.exec.value.owed
    requires w'.job.row.state == w.job.row.state && w'.job.row.waitingUntil == w.job.row.waitingUntil
    requires w'.past.gate == w.past.gate
    ensures Steady(w', strict)
  {
    assert Underway(w') <==> Underway(w);
    assert Rising(w') <==> Rising(w);
  }

  /** Steps that change neither the run's writes nor its place. */
  lemma OthersKeepSteady(w: World, s: Step, strict: bool)
    requires Shape(w) && Steady(w, strict)
    requires s.Tick? || s.PlanNext? || s.TimerEnds? || s.WorkerReads? || s.Leave? || s.Crash? || s.Restart?
    ensures Steady(Next(w, s), strict)
  {
    if s.Leave? || s.Crash? || s.Restart? {
      EndsKeepSteady(w, s, strict);
    } else {
      RestsKeepSteady(w, s, strict);
    }
  }

  lemma EndsKeepSteady(w: World, s: Step, strict: bool)
    requires Shape(w) && Steady(w, strict) && (s.Leave? || s.Crash? || s.Restart?)
    ensures Steady(Next(w, s), strict)
  {
    var w' := Next(w, s);
    if w.exec.Some? && w'.exec.Some? {
      SameKeepsSteady(w, w', strict);
    }
  }

  lemma RestsKeepSteady(w: World, s: Step, strict: bool)
    requires Shape(w) && Steady(w, strict) && (s.Tick? || s.PlanNext? || s.TimerEnds? || s.WorkerReads?)
    ensures Steady(Next(w, s), strict)
  {
    if w.exec.Some? {
      SameKeepsSteady(w, Next(w, s), strict);
    }
  }

  lemma NextKeepsSteady(w: World, s: Step, strict: bool)
    requires Alive(w, strict) && Gate(w, false) && Steady(w, strict)
    ensures Steady(Next(w, s), strict)
  {
    match s
    case Launch(interval) => LaunchKeepsSteady(w, interval, strict);
    case CommitNext => CommitKeepsSteady(w, strict);
    case RejectNext => RejectKeepsSteady(w, strict);
    case TimerFires => TimerFiresKeepsSteady(w, strict);
    case MainWrites => MainWritesKeepsSteady(w, strict);
    case Pop(usable, slow) => PopKeepsSteady(w, usable, slow, strict);
    case Send => SendKeepsSteady(w, strict);
    case Reply(reply, slow) => ReplyKeepsSteady(w, A.Decide(reply), slow, strict);
    case Wake(slow) => WakeKeepsSteady(w, slow, strict);
    case Observe(_) => TurnsKeepSteady(w, s, strict);
    case Schedule => TurnsKeepSteady(w, s, strict);
    case Summarize => TurnsKeepSteady(w, s, strict);
    case _ => OthersKeepSteady(w, s, strict);
  }

  lemma {:induction false} RunKeepsSteady(w: World, steps: seq<Step>, strict: bool)
    requires Alive(w, strict) && Alive(w, false) && Steady(w, strict) && (strict ==> SafeRun(w, steps))
    ensures Steady(Run(w, steps), strict)
  {
    if steps != [] {
      var k := |steps| - 1;
      if strict {
        SafePrefix(w, steps, k);
      }
      RunKeepsSteady(w, steps[..k], strict);
      RunKeepsAlive(w, steps[..k], strict);
      RunKeepsAlive(w, steps[..k], false);
      NextKeepsSteady(Run(w, steps[..k]), steps[k], strict);
    }
  }

  /**
   While a deadline is under way the row is RUNNING with no deadline ahead that the lookup would find after a
   restart, in any life with the overriding lookup and in any safe one with either.
   */
  lemma NothingRemembersIt(n: nat, planned: Action, lookup: L.Lookup, now: real, steps: seq<Step>)
    requires SafeRun(Init(n, planned, lookup, now), steps) || lookup.V12?
    requires var w := Run(Init(n, planned, lookup, now), steps); Underway(w)
    ensures var w := Run(Init(n, planned, lookup, now), steps);
      && w.exec.Some? && w.exec.value.pc.ServerWait? && w.job.row.state.Running?
      && (lookup.Base? ==> Passed(w.job.row.waitingUntil, w.now))
  {
    var start := Init(n, planned, lookup, now);
    var w := Run(start, steps);
    InitIsAlive(n, planned, lookup, now, false);
    InitIsAlive(n, planned, lookup, now, true);
    RunKeepsAlive(start, steps, false);
    RunKeepsSteady(start, steps, false);
    if lookup.Base? {
      RunKeepsSteady(start, steps, true);
    }
    UnderwayRow(w);
  }

  lemma UnderwayRow(w: World)
    requires Alive(w, false) && Steady(w, false) && Underway(w)
    ensures w.exec.Some? && w.exec.value.pc.ServerWait? && w.job.row.state.Running?
  {
    if w.exec.Some? {
      var e := w.exec.value;
      assert ExecGate(w, e, false);
      assert forall i :: 0 <= i < |e.owed| && e.owed[i].Put? ==> Sane(e.owed[i].write, e, None, w.now);
      assert forall i :: 0 <= i < |w.queue| ==> Sane(w.queue[i].write, e, None, w.now);
    }
  }
}
