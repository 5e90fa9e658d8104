/**
 What the row says, step by step, and how a run ends: in the state it was told, by the user, by the server or by its own
 summary.  What a run was told is read off the steps of the life.
 */
module EngineEndings {
  import opened Core
  import opened JobStore
  import opened Engine
  import opened EngineShape
  import opened EngineFlow
  import EngineReplies
  import EngineRuns
  import A = Attempt
  import H = Handlers
  import L = Lifecycle
  import S = Scheduler

  // ------------------------------------------------------------------------------------------
  // What the row is about to say
  // ------------------------------------------------------------------------------------------

  datatype Mark = Mark(state: JobState, until: Option<real>)

  function Marked(m: Mark, x: Write): Mark {
    if x.SetState? then Mark(x.state, if x.until.Some? || x.clearWaiting then x.until else m.until) else m
  }

  function AfterQueue(m: Mark, queue: seq<Sent>): Mark
    decreases |queue|
  {
    if queue == [] then m else AfterQueue(Marked(m, queue[0].write), queue[1..])
  }

  function AfterOwed(m: Mark, owed: seq<Owed>): Mark
    decreases |owed|
  {
    if owed == [] then m else AfterOwed(if owed[0].Put? then Marked(m, owed[0].write) else m, owed[1..])
  }

  function RowMark(row: Row): Mark {
    Mark(row.state, row.waitingUntil)
  }

  /** State and deadline of the row once everything in flight and owed has been written. */
  function Heading(w: World): Mark {
    AfterOwed(AfterQueue(RowMark(w.job.row), w.queue), if w.exec.Some? then w.exec.value.owed else [])
  }

  lemma {:induction false} AfterAppend(m: Mark, queue: seq<Sent>, x: Sent)
    ensures AfterQueue(m, queue + [x]) == Marked(AfterQueue(m, queue), x.write)
    decreases |queue|
  {
    if queue == [] {
      assert queue + [x] == [x] && [x][1..] == [];
    } else {
      assert (queue + [x])[1..] == queue[1..] + [x];
      AfterAppend(Marked(m, queue[0].write), queue[1..], x);
    }
  }

  /** Batches in flight say nothing. */
  lemma {:induction false} BatchesSayNothing(m: Mark, queue: seq<Sent>)
    requires forall i :: 0 <= i < |queue| ==> !queue[i].write.SetState?
    ensures AfterQueue(m, queue) == m
    decreases |queue|
  {
    if queue != [] {
      BatchesSayNothing(m, queue[1..]);
    }
  }

  // ------------------------------------------------------------------------------------------
  // What a run was told
  // ------------------------------------------------------------------------------------------

  /** A place where `_handle_control` is looked at. */
  predicate Controllable(w: World) {
    Free(w) && (w.exec.value.pc.Top? || w.exec.value.pc.Delay? || w.exec.value.pc.Backoff? || w.exec.value.pc.ServerWait?)
  }

  /** The state in which an exception of the server ends the run, if it does. */
  ghost function Halting(e: A.Exc): Option<JobState> {
    var wait := if e.seconds.Some? then e.seconds else e.value;
    if e.rate then (if wait.Some? && wait.value > 0 then None else Some(RateLimited))
    else if !EngineReplies.Personal(e) && (e.permission || e.auth) then Some(Paused)
    else None
  }

  /** What one step tells the run to end as. */
  ghost function ToldIn(w: World, s: Step): Option<JobState> {
    if s.Observe? && Controllable(w) then Some(if s.control == Stop then Cancelled else Paused)
    else if s.Reply? && Called(w) && s.reply.Some? then Halting(s.reply.value)
    else if s.Summarize? && Free(w) && w.exec.value.pc.Finish? then
      Some(if w.job.row.failed > 0 then CompletedWithErrors else Completed)
    else None
  }

  /** What the live run, or the last one if it was not cut off by a crash, was told last. */
  ghost function Told(w: World, steps: seq<Step>): Option<JobState> {
    if steps == [] then None
    else
      var k := |steps| - 1;
      var m := Run(w, steps[..k]);
      if ToldIn(m, steps[k]).Some? then ToldIn(m, steps[k])
      else if (m.exec.None? && Next(m, steps[k]).exec.Some?) || steps[k].Crash? then None
      else Told(w, steps[..k])
  }

  /** The states a run ends in that leave no deadline behind. */
  predicate Closed(s: JobState) {
    s == Cancelled || s == Completed || s == CompletedWithErrors
  }

  ghost predicate Ends(m: Mark, told: JobState) {
    && m.state == told
    && (Closed(told) || told == Paused || told == RateLimited)
    && (Closed(told) ==> m.until == None)
  }

  /** RUNNING while the run goes on, WAITING_SERVER with the scheduler's own deadline while it waits. */
  ghost predicate Goes(m: Mark, e: Exec) {
    if e.pc.ServerWait? then m == Mark(WaitingServer, Some(e.sched.serverUntil))
    else m.state == Running && (InHand(e.pc) && e.pc.hand.waits > 0 ==> m.until == None)
  }

  ghost predicate Says(w: World, told: Option<JobState>) {
    match w.exec
    case None => told.Some? ==> Ends(Heading(w), told.value)
    case Some(e) =>
      && (e.pc.Exit? <==> told.Some?)
      && (e.pc.Exit? ==> Ends(Heading(w), told.value))
      && (!e.pc.Exit? ==> Goes(Heading(w), e))
      && (e.pc.Calling? ==> e.sched.serverUntil <= w.now)
  }

  // ------------------------------------------------------------------------------------------
  // Steps
  // ------------------------------------------------------------------------------------------

  /** The run and what the row is heading for are the same. */
  ghost predicate SameCourse(w: World, w': World) {
    && Heading(w') == Heading(w) && w.now <= w'.now
    && (w'.exec.Some? <==> w.exec.Some?)
    && (w.exec.Some? ==> w'.exec.value.pc == w.exec.value.pc && w'.exec.value.sched == w.exec.value.sched)
  }

  lemma SubmitSaysNothing(w: World, e: Exec, lane: Lane)
    ensures Heading(Submit(w, e, lane)) == Heading(WithExec(w, e))
  {
    AfterAppend(RowMark(w.job.row), w.queue, Sent(lane, UpdateItems(e.results)));
  }

  lemma CommitSaysTheSame(w: World)
    ensures Heading(DoCommit(w)) == Heading(w)
  {
    if w.queue != [] {
      assert RowMark(DoCommit(w).job.row) == Marked(RowMark(w.job.row), w.queue[0].write);
    }
  }

  lemma RejectSaysTheSame(w: World)
    ensures Heading(DoReject(w)) == Heading(w)
  {
  }

  lemma MainWritesSaysTheSame(w: World)
    requires Awake(w) && w.exec.value.owed != []
    ensures Heading(DoMainWrites(w)) == Heading(w)
  {
    var e := w.exec.value;
    var rest := e.(owed := e.owed[1..]);
    if e.owed[0].FlushFirst? {
      SubmitSaysNothing(w, rest, Main);
    } else {
      AfterAppend(RowMark(w.job.row), w.queue, Sent(Main, e.owed[0].write));
    }
  }

  lemma TimerFiresSaysTheSame(w: World)
    ensures Heading(DoTimerFires(w)) == Heading(w)
  {
    if w.exec.Some? && w.exec.value.timer.Sleeping? {
      var e := w.exec.value;
      SubmitSaysNothing(w, e.(timer := if e.results == [] then Idle else Writing), Delayed);
    }
  }

  /** Steps that only move writes along, or do not concern the row at all. */
  predicate Beside(s: Step) {
    s.Tick? || s.PlanNext? || s.CommitNext? || s.RejectNext? || s.TimerFires? || s.TimerEnds? || s.WorkerReads? || s.MainWrites?
  }

  lemma BesideStaysOnCourse(w: World, s: Step)
    requires Beside(s)
    ensures SameCourse(w, Next(w, s))
  {
    match s
    case CommitNext => CommitSaysTheSame(w);
    case RejectNext => RejectSaysTheSame(w);
    case TimerFires => TimerFiresSaysTheSame(w);
    case MainWrites =>
      if Awake(w) && w.exec.value.owed != [] {
        MainWritesSaysTheSame(w);
      }
    case _ =>
  }

  /** A free coroutine takes on new writes. */
  lemma OwesNow(w: World, e: Exec)
    requires w.exec.Some? && w.exec.value.owed == []
    ensures Heading(WithExec(w, e)) == AfterOwed(Heading(w), e.owed)
  {
  }

  lemma OwedOnce(m: Mark, x: Write)
    ensures AfterOwed(m, [Put(x)]) == Marked(m, x) && AfterOwed(m, [FlushFirst, Put(x)]) == Marked(m, x)
  {
    assert [Put(x)][1..] == [] && [FlushFirst, Put(x)][1..] == [Put(x)];
  }

  lemma RetrySays(m: Mark, h: Hand, x: Write)
    ensures AfterOwed(m, RetryWrites(h, x)) == Marked(m, x)
  {
    var owed := RetryWrites(h, x);
    assert owed[1..] == [Put(MarkRetry(h.ordinal, h.attempts)), Put(x)] && owed[1..][1..] == [Put(x)];
    OwedOnce(m, x);
  }

  lemma ConcludeSays(w: World, e: Exec, u: Update, slow: bool)
    requires w.exec.Some? && w.exec.value.owed == [] && e.owed == []
    ensures Heading(Conclude(w, e, u, slow)) == Heading(w)
  {
    var e' := e.(pc := Recorded, results := e.results + [u]);
    var w' := w.(past := w.past.(concluded := w.past.concluded + [u.ordinal]));
    SubmitSaysNothing(w', e', Main);
  }

  lemma ObserveSays(w: World, c: Control, told: Option<JobState>)
    requires Says(w, told)
    ensures Says(DoObserve(w, c), if Controllable(w) then Some(if c == Stop then Cancelled else Paused) else told)
  {
    if Controllable(w) {
      var x := if c.Stop? then SetFinal(Cancelled) else SetRow(Paused);
      OwedOnce(Heading(w), x);
      OwesNow(w, DoObserve(w, c).exec.value);
    }
  }

  lemma PopSays(w: World, usable: bool, slow: bool, told: Option<JobState>)
    requires Says(w, told)
    ensures Says(DoPop(w, usable, slow), told)
  {
    if Free(w) && w.exec.value.pc.Top? {
      var e := w.exec.value;
      if e.buf.queue != [] && !usable {
        var c := e.buf.queue[0];
        ConcludeSays(w, e.(buf := DoPop(w, true, slow).exec.value.buf), Update(c.ordinal, ItemFailed, c.attempts), slow);
      } else {
        OwesNow(w, DoPop(w, usable, slow).exec.value);
        assert [FlushFirst][1..] == [];
      }
    }
  }

  lemma SendSays(w: World, told: Option<JobState>)
    requires Says(w, told)
    ensures Says(DoSend(w), told)
  {
    if CanSend(w) {
      S.DelayMeaning(w.exec.value.sched, w.now);
      OwesNow(w, DoSend(w).exec.value);
    }
  }

  lemma AnswerSays(w: World, v: A.Verdict, slow: bool, told: Option<JobState>)
    requires Says(w, told) && Called(w) && !v.Conclude? && (v.WaitFor? ==> v.seconds >= 1)
    ensures Says(DoReply(w, v, slow), if v.HaltIndefinite? then Some(RateLimited) else if v.HaltPaused? then Some(Paused) else told)
  {
    var h := w.exec.value.pc.hand;
    OwesNow(w, DoReply(w, v, slow).exec.value);
    if v.WaitFor? {
      RetrySays(
        Heading(w), h, SetState(WaitingServer, Some(w.now + v.seconds as real), Some(Behind(h.ordinal)), false));
    } else if v.HaltIndefinite? {
      RetrySays(Heading(w), h, SetState(RateLimited, None, Some(Behind(h.ordinal)), false));
    } else if v.HaltPaused? {
      RetrySays(Heading(w), h, SetState(Paused, None, Some(Behind(h.ordinal)), false));
    }
  }

  lemma ReplySays(w: World, reply: Option<A.Exc>, slow: bool, told: Option<JobState>)
    requires Says(w, told) && Called(w)
    ensures Says(DoReply(w, A.Decide(reply), slow),
      if reply.Some? && Halting(reply.value).Some? then Halting(reply.value) else told)
  {
    var v := A.Decide(reply);
    if reply.Some? {
      A.ReplyMeaning(reply.value);
    }
    if v.Conclude? {
      var e := w.exec.value;
      ConcludeSays(
        w, e.(sched := S.MarkStable(e.sched, w.now)), Update(e.pc.hand.ordinal, v.state, e.pc.hand.attempts), slow);
    } else {
      AnswerSays(w, v, slow, told);
    }
  }

  lemma WakeSays(w: World, slow: bool, told: Option<JobState>)
    requires Says(w, told)
    ensures Says(DoWake(w, slow), told)
  {
    if DoWake(w, slow) != w {
      var e := w.exec.value;
      if e.pc.Backoff? && e.pc.hand.transient >= |TRANSIENT_DELAYS| {
        ConcludeSays(w, e, Update(e.pc.hand.ordinal, ItemFailed, e.pc.hand.attempts), slow);
      } else {
        OwedOnce(Heading(w), SetFinal(Running));
        OwesNow(w, DoWake(w, slow).exec.value);
      }
    }
  }

  lemma SummarizeSays(w: World, told: Option<JobState>)
    requires Says(w, told)
    ensures Says(DoSummarize(w),
      if Free(w) && w.exec.value.pc.Finish? then Some(if w.job.row.failed > 0 then CompletedWithErrors else Completed) else told)
  {
    if Free(w) && w.exec.value.pc.Finish? {
      OwedOnce(Heading(w), SetFinal(FinalLabel(w.job.row)));
      OwesNow(w, DoSummarize(w).exec.value);
    }
  }

  lemma LaunchSays(w: World, interval: real, told: Option<JobState>)
    requires Says(w, told)
    ensures Says(DoLaunch(w, interval), if DoLaunch(w, interval) != w then None else told)
  {
    if DoLaunch(w, interval) != w {
      OwedOnce(AfterQueue(RowMark(w.job.row), w.queue), SetRow(Running));
    }
  }

  /** A run that leaves has nothing in flight. */
  lemma LeaveSays(w: World, told: Option<JobState>)
    requires Says(w, told)
    ensures Says(DoLeave(w), told)
  {
  }

  lemma RestartSays(w: World, told: Option<JobState>)
    requires Says(w, told) && Shape(w)
    ensures Says(DoRestart(w), told)
  {
    if w.exec.None? && told.Some? {
      assert AfterQueue(RowMark(w.job.row), w.queue) == RowMark(w.job.row);
    }
  }

  ghost function ToldNext(w: World, s: Step, told: Option<JobState>): Option<JobState> {
    if ToldIn(w, s).Some? then ToldIn(w, s)
    else if (w.exec.None? && Next(w, s).exec.Some?) || s.Crash? then None
    else told
  }

  /** The steps of the run itself. */
  lemma TurnSays(w: World, s: Step, told: Option<JobState>)
    requires Shape(w) && Says(w, told) && !Beside(s) && !s.Launch? && !s.Restart? && !s.Crash? && !s.Leave?
    ensures Says(Next(w, s), ToldNext(w, s, told))
  {
    match s
    case Observe(c) => ObserveSays(w, c, told);
    case Pop(usable, slow) => PopSays(w, usable, slow, told);
    case Send => SendSays(w, told);
    case Reply(reply, slow) =>
      if Called(w) {
        ReplySays(w, reply, slow, told);
      }
    case Wake(slow) => WakeSays(w, slow, told);
    case Schedule =>
      if Free(w) {
        OwesNow(w, Next(w, s).exec.value);
      }
    case Summarize => SummarizeSays(w, told);
  }

  /** Where a run begins and ends. */
  lemma EdgeSays(w: World, s: Step, told: Option<JobState>)
    requires Shape(w) && Says(w, told) && (s.Launch? || s.Restart? || s.Crash? || s.Leave?)
    ensures Says(Next(w, s), ToldNext(w, s, told))
  {
    match s
    case Launch(interval) => LaunchSays(w, interval, told);
    case Restart => RestartSays(w, told);
    case Leave => LeaveSays(w, told);
    case Crash =>
  }

  lemma StepSays(w: World, s: Step, told: Option<JobState>)
    requires Shape(w) && Says(w, told)
    ensures Says(Next(w, s), ToldNext(w, s, told))
  {
    if Beside(s) {
      BesideStaysOnCourse(w, s);
    } else if s.Launch? || s.Restart? || s.Crash? || s.Leave? {
      EdgeSays(w, s, told);
    } else {
      TurnSays(w, s, told);
    }
  }

  lemma {:induction false} RunSays(w: World, steps: seq<Step>)
    requires Shape(w) && Says(w, None)
    ensures Shape(Run(w, steps)) && Says(Run(w, steps), Told(w, steps))
  {
    if steps != [] {
      var k := |steps| - 1;
      RunSays(w, steps[..k]);
      NextKeepsShape(Run(w, steps[..k]), steps[k]);
      StepSays(Run(w, steps[..k]), steps[k], Told(w, steps[..k]));
    }
  }

  // ------------------------------------------------------------------------------------------
  // Theorems
  // ------------------------------------------------------------------------------------------

  /** A free coroutine finds on the row what everything so far was heading for. */
  lemma FreeFindsTheRow(w: World)
    requires Shape(w) && (w.exec.None? || Free(w))
    ensures Heading(w) == RowMark(w.job.row)
    ensures w.exec.Some? && w.exec.value.pc.Exit? ==> w.queue == [] && w.exec.value.results == []
  {
    if w.exec.Some? {
      forall i | 0 <= i < |w.queue|
        ensures !w.queue[i].write.SetState?
      {
        assert w.queue[i].lane.Delayed?;
      }
    }
    BatchesSayNothing(RowMark(w.job.row), w.queue);
  }

  /**
   The row follows the run.  In every life, whenever the coroutine awaits no write: while the run goes on the row is
   RUNNING, without a deadline once a rate limit has been slept out for the candidate in hand; while it waits the row is
   WAITING_SERVER with exactly the deadline the scheduler sleeps out; a run that is to end finds the state it was told on
   the row, and every result of its own durable.
   */
  lemma RowFollowsRun(n: nat, planned: Action, lookup: L.Lookup, now: real, steps: seq<Step>)
    requires Free(Run(Init(n, planned, lookup, now), steps))
    ensures var w := Run(Init(n, planned, lookup, now), steps);
      var told := Told(Init(n, planned, lookup, now), steps);
      var e := w.exec.value;
      && (e.pc.Exit? <==> told.Some?)
      && (e.pc.Exit? ==> w.job.row.state == told.value && w.queue == [] && e.results == [])
      && (e.pc.ServerWait? ==> w.job.row.state == WaitingServer && w.job.row.waitingUntil == Some(e.sched.serverUntil))
      && (!e.pc.Exit? && !e.pc.ServerWait? ==>
            w.job.row.state == Running && (InHand(e.pc) && e.pc.hand.waits > 0 ==> w.job.row.waitingUntil == None))
  {
    RunSays(Init(n, planned, lookup, now), steps);
    FreeFindsTheRow(Run(Init(n, planned, lookup, now), steps));
  }

  /**
   A run ends as it was told.  In every life a run that has ended, not by a crash, has left the row CANCELLED if it was
   stopped, PAUSED if it was paused or the account is barred, RATE_LIMITED if the server gave no duration, and otherwise
   with the label of its summary; stopped and completed jobs have no deadline.
   */
  lemma RunEndsAsTold(n: nat, planned: Action, lookup: L.Lookup, now: real, steps: seq<Step>)
    requires Run(Init(n, planned, lookup, now), steps).exec.None?
    ensures var w := Run(Init(n, planned, lookup, now), steps);
      var told := Told(Init(n, planned, lookup, now), steps);
      told.Some? ==> w.job.row.state == told.value && (Closed(told.value) ==> w.job.row.waitingUntil == None)
  {
    RunSays(Init(n, planned, lookup, now), steps);
    FreeFindsTheRow(Run(Init(n, planned, lookup, now), steps));
  }

  /** What restart normalisation does to the row of this job is what `NormalizeRow` says, and it does nothing else. */
  lemma RestartNormalizes(w: World)
    requires w.exec.None?
    ensures Next(w, Restart).job == w.job.(row := L.NormalizeRow(w.job.row, w.now))
    ensures Next(w, Restart) == w.(job := Next(w, Restart).job, past := w.past.(committed := Next(w, Restart).past.committed))
  {
  }

  /** The rows this job can be launched from are exactly those one of the two commands lets through. */
  lemma LaunchableAsCommanded(w: World, interval: real, account: int, env: H.Env)
    requires w.exec.None? && !w.stage.Unplanned?
    requires env.row.Some? && env.row.value == H.JobRow(true, w.job.row.state, Some(account), env.row.value.target)
    requires env.row.value.target.Some? && env.enabled && env.group
    ensures Next(w, Launch(interval)) != w <==>
      || H.StartRefusal({}, 0, account, interval, env).None?
      || H.ResumeRefusal({}, 0, interval, env).None?
  {
    H.StartRefusalMeaning({}, 0, account, interval, env);
    H.ResumeRefusalMeaning({}, 0, interval, env);
  }
}
