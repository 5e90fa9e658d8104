/**
 A rate limit from the moment the server announces it: before the deadline is even persisted, through pause,
 stop, restart normalisation and resume, until it lies behind.
 */
module EngineWait {
  import opened Core
  import opened JobStore
  import opened Engine
  import opened EngineShape
  import opened EngineFlow
  import opened EngineRuns
  import opened EngineGate
  import opened EngineLife
  import S = Scheduler
  import A = Attempt
  import L = Lifecycle

  /** The write carries a deadline. */
  predicate Bears(x: Write) {
    x.SetState? && x.until.Some?
  }

  /** The deadline is owed by the main coroutine, or on its way to the table. */
  ghost predicate Underway(w: World) {
    || (w.exec.Some? && exists i :: 0 <= i < |w.exec.value.owed| && w.exec.value.owed[i].Put? && Bears(w.exec.value.owed[i].write))
    || (exists i :: 0 <= i < |w.queue| && w.queue[i].lane.Main? && Bears(w.queue[i].write))
  }

  /** No other deadline is. */
  ghost predicate Only(w: World, until: real) {
    && (w.exec.Some? ==> forall i :: 0 <= i < |w.exec.value.owed| && w.exec.value.owed[i].Put? && Bears(w.exec.value.owed[i].write) ==>
          w.exec.value.owed[i].write.until == Some(until))
    && (forall i :: 0 <= i < |w.queue| && Bears(w.queue[i].write) ==> w.queue[i].write.until == Some(until))
  }

  /** The announced deadline is on its way or persisted, and no reply is outstanding. */
  ghost predicate Kept(w: World, until: real) {
    && Only(w, until) && (Underway(w) || w.past.gate == Some(until))
    && (w.exec.Some? ==> !w.exec.value.pc.Calling?)
  }

  /** Nothing has been sent since the announcement, or the deadline lies behind. */
  ghost predicate Told(w: World, until: real, n: nat) {
    && n <= |w.past.rpcs|
    && (forall i :: n <= i < |w.past.rpcs| ==> until <= w.past.rpcs[i].at)
    && (until <= w.now || (|w.past.rpcs| == n && Kept(w, until)))
  }

  // ------------------------------------------------------------------------------------------
  // Steps
  // ------------------------------------------------------------------------------------------

  /** While the deadline is under way the main coroutine does nothing else. */
  lemma UnderwayIsNotFree(w: World)
    requires Underway(w)
    ensures !Free(w)
  {
  }

  lemma CommitKeepsTold(w: World, until: real)
    requires Kept(w, until)
    ensures Kept(DoCommit(w), until)
  {
    if w.queue != [] {
      var w' := DoCommit(w);
      assert forall i :: 0 <= i < |w'.queue| ==> w'.queue[i] == w.queue[i + 1];
      assert forall i :: 0 < i < |w.queue| ==> w.queue[i] == w'.queue[i - 1];
    }
  }

  lemma RejectKeepsTold(w: World, until: real)
    requires Kept(w, until)
    ensures Kept(DoReject(w), until)
  {
    var w' := DoReject(w);
    if w' != w {
      assert forall i :: 0 <= i < |w'.queue| ==> w'.queue[i] == w.queue[i + 1];
      assert forall i :: 0 < i < |w.queue| ==> w.queue[i] == w'.queue[i - 1];
    }
  }

  /** Appending a batch of results changes nothing. */
  lemma SubmitKeepsKept(w: World, e: Exec, lane: Lane, until: real)
    requires Kept(WithExec(w, e), until)
    ensures Kept(Submit(w, e, lane), until)
  {
    var w1, w' := WithExec(w, e), Submit(w, e, lane);
    assert w'.exec.value.owed == e.owed;
    assert forall i :: 0 <= i < |w.queue| ==> w'.queue[i] == w.queue[i];
    assert Underway(w1) ==> Underway(w');
  }

  lemma MainWritesKeepsTold(w: World, until: real)
    requires Kept(w, until)
    ensures Kept(DoMainWrites(w), until)
  {
    if Awake(w) && w.exec.value.owed != [] {
      var e := w.exec.value;
      var rest := e.(owed := e.owed[1..]);
      assert forall i :: 0 <= i < |rest.owed| ==> rest.owed[i] == e.owed[i + 1];
      assert forall i :: 0 < i < |e.owed| ==> e.owed[i] == rest.owed[i - 1];
      match e.owed[0] {
        case FlushFirst =>
          SubmitKeepsKept(w, rest, Main, until);
        case Put(x) =>
          var w' := DoMainWrites(w);
          assert forall i :: 0 <= i < |w.queue| ==> w'.queue[i] == w.queue[i];
          assert w'.queue[|w.queue|] == Sent(Main, x);
      }
    }
  }

  lemma TimerFiresKeepsTold(w: World, until: real)
    requires Kept(w, until)
    ensures Kept(DoTimerFires(w), until)
  {
    if w.exec.Some? && w.exec.value.timer.Sleeping? {
      var e := w.exec.value;
      var e' := e.(timer := if e.results == [] then Idle else Writing);
      assert Kept(WithExec(w, e'), until);
      SubmitKeepsKept(w, e', Delayed, until);
    }
  }

  /** A result recorded by a free coroutine. */
  lemma ConcludeKeepsKept(w: World, e: Exec, u: Update, slow: bool, until: real)
    requires Only(w, until) && w.past.gate == Some(until) && e.owed == []
    ensures Kept(Conclude(w, e, u, slow), until)
  {
    var e' := e.(pc := Recorded, results := e.results + [u]);
    var w' := w.(past := w.past.(concluded := w.past.concluded + [u.ordinal]));
    assert Kept(WithExec(w', e'), until);
    if |e'.results| >= RESULT_BATCH || slow {
      SubmitKeepsKept(w', e', Main, until);
    }
  }

  lemma PopKeepsTold(w: World, usable: bool, slow: bool, until: real)
    requires Kept(w, until)
    ensures Kept(Next(w, Pop(usable, slow)), until)
  {
    if Free(w) {
      FreePopKeepsTold(w, usable, slow, until);
    }
  }

  lemma WakeKeepsTold(w: World, slow: bool, until: real)
    requires Kept(w, until)
    ensures Kept(Next(w, Wake(slow)), until)
  {
    if Free(w) {
      FreeWakeKeepsTold(w, slow, until);
    }
  }

  lemma ObserveKeepsTold(w: World, c: Control, until: real)
    requires Kept(w, until)
    ensures Kept(Next(w, Observe(c)), until)
  {
  }

  lemma ScheduleKeepsTold(w: World, until: real)
    requires Kept(w, until)
    ensures Kept(Next(w, Schedule), until)
  {
  }

  lemma SummarizeKeepsTold(w: World, until: real)
    requires Kept(w, until)
    ensures Kept(Next(w, Summarize), until)
  {
  }

  lemma LeaveKeepsTold(w: World, until: real)
    requires Kept(w, until)
    ensures Kept(Next(w, Leave), until)
  {
  }

  lemma FreePopKeepsTold(w: World, usable: bool, slow: bool, until: real)
    requires Kept(w, until) && Free(w)
    ensures Kept(DoPop(w, usable, slow), until)
  {
    var e := w.exec.value;
    if e.pc.Top? && e.buf.queue != [] && !usable {
      var c := e.buf.queue[0];
      ConcludeKeepsKept(w, e.(buf := DoPop(w, true, slow).exec.value.buf), Update(c.ordinal, ItemFailed, c.attempts), slow, until);
    }
  }

  lemma FreeWakeKeepsTold(w: World, slow: bool, until: real)
    requires Kept(w, until) && Free(w)
    ensures Kept(DoWake(w, slow), until)
  {
    var e := w.exec.value;
    if e.pc.Backoff? && e.pc.hand.transient >= |TRANSIENT_DELAYS| {
      ConcludeKeepsKept(w, e, Update(e.pc.hand.ordinal, ItemFailed, e.pc.hand.attempts), slow, until);
    }
  }

  /** Whoever may send has seen the persisted deadline pass. */
  lemma SendMeansPassed(w: World, until: real)
    requires Gate(w, true) && CanSend(w) && w.past.gate == Some(until)
    ensures until <= w.now
  {
    S.DelayMeaning(w.exec.value.sched, w.now);
  }

  lemma SendKeepsTold(w: World, until: real, n: nat)
    requires Gate(w, true) && Told(w, until, n)
    ensures Told(DoSend(w), until, n)
  {
    if CanSend(w) {
      if !(until <= w.now) && w.past.gate != Some(until) {
        UnderwayIsNotFree(w);
      } else if w.past.gate == Some(until) {
        SendMeansPassed(w, until);
      }
    }
  }

  lemma ReplyKeepsTold(w: World, v: A.Verdict, slow: bool, until: real, n: nat)
    requires Told(w, until, n)
    ensures Told(DoReply(w, v, slow), until, n)
  {
    ReplyKeepsLog(w, v, slow);
    ReplyFixesPlan(w, v, slow);
  }

  /** The steps of the main coroutine that need it free, other than sending. */
  lemma FreeStepKeepsTold(w: World, s: Step, until: real)
    requires Kept(w, until)
    requires s.Observe? || s.Pop? || s.Wake? || s.Schedule? || s.Summarize? || s.Leave?
    ensures Kept(Next(w, s), until)
  {
    match s {
      case Pop(usable, slow) => PopKeepsTold(w, usable, slow, until);
      case Wake(slow) => WakeKeepsTold(w, slow, until);
      case Observe(c) => ObserveKeepsTold(w, c, until);
      case Schedule => ScheduleKeepsTold(w, until);
      case Summarize => SummarizeKeepsTold(w, until);
      case Leave => LeaveKeepsTold(w, until);
    }
  }

  lemma OtherStepKeepsTold(w: World, s: Step, until: real)
    requires Shape(w) && Kept(w, until)
    requires s.Tick? || s.PlanNext? || s.Launch? || s.TimerEnds? || s.WorkerReads? || s.Restart?
    ensures Kept(Next(w, s), until)
  {
  }

  /** Every step but sending, and a crash only once the deadline is persisted. */
  lemma StepKeepsKept(w: World, s: Step, until: real)
    requires Shape(w) && Kept(w, until) && !s.Send? && !s.Reply? && (s.Crash? ==> !Underway(w))
    ensures Kept(Next(w, s), until)
  {
    if s.CommitNext? {
      CommitKeepsTold(w, until);
    } else if s.RejectNext? {
      RejectKeepsTold(w, until);
    } else if s.MainWrites? {
      MainWritesKeepsTold(w, until);
    } else if s.TimerFires? {
      TimerFiresKeepsTold(w, until);
    } else if s.Tick? || s.PlanNext? || s.Launch? || s.TimerEnds? || s.WorkerReads? || s.Restart? {
      OtherStepKeepsTold(w, s, until);
    } else if !s.Crash? {
      FreeStepKeepsTold(w, s, until);
    }
  }

  lemma NextKeepsTold(w: World, s: Step, until: real, n: nat)
    requires Shape(w) && Gate(w, true) && Told(w, until, n) && (s.Crash? ==> !Underway(w))
    ensures Told(Next(w, s), until, n)
  {
    if s.Send? {
      SendKeepsTold(w, until, n);
    } else if s.Reply? {
      ReplyKeepsTold(w, A.Decide(s.reply), s.slow, until, n);
    } else {
      NotSending(w, s);
      if !(until <= w.now) {
        StepKeepsKept(w, s, until);
      }
    }
  }

  lemma NotSending(w: World, s: Step)
    requires !s.Send? && !s.Reply?
    ensures Next(w, s).past.rpcs == w.past.rpcs && w.now <= Next(w, s).now
  {
  }

  // ------------------------------------------------------------------------------------------
  // Theorems
  // ------------------------------------------------------------------------------------------

  /** No crash comes between the announcement of a deadline and its commit. */
  ghost predicate NothingLost(w: World, steps: seq<Step>) {
    forall k :: 0 <= k < |steps| && steps[k].Crash? ==> !Underway(Run(w, steps[..k]))
  }

  lemma {:induction false} RunKeepsTold(w: World, steps: seq<Step>, until: real, n: nat)
    requires Alive(w, true) && SafeRun(w, steps) && NothingLost(w, steps) && Told(w, until, n)
    ensures Told(Run(w, steps), until, n)
  {
    if steps != [] {
      var k := |steps| - 1;
      assert forall j :: 0 <= j < k ==> steps[..k][..j] == steps[..j];
      RunKeepsTold(w, steps[..k], until, n);
      RunKeepsAlive(w, steps[..k], true);
      NextKeepsTold(Run(w, steps[..k]), steps[k], until, n);
    }
  }

  /** The announcement itself: the deadline is owed before anything else can happen. */
  lemma Announced(w: World, v: A.Verdict, slow: bool)
    requires Shape(w) && Called(w) && v.WaitFor?
    ensures var w1 := DoReply(w, v, slow);
      Told(w1, w.now + v.seconds as real, |w1.past.rpcs|)
  {
    var w1 := DoReply(w, v, slow);
    var owed := w1.exec.value.owed;
    assert owed[2].Put? && Bears(owed[2].write);
    forall i | 0 <= i < |w1.queue|
      ensures !Bears(w1.queue[i].write)
    {
      assert w.queue[i].lane.Delayed? by {
        assert w.queue[i].lane.Main? ==> Busy(w.queue, Main);
      }
    }
  }

  lemma ReplyKeepsAlive(w: World, reply: Option<A.Exc>, slow: bool)
    requires Alive(w, true)
    ensures Alive(Next(w, Reply(reply, slow)), true)
  {
    NextKeepsShape(w, Reply(reply, slow));
    NextKeepsGate(w, Reply(reply, slow), true);
    NextKeepsClock(w, Reply(reply, slow), true);
  }

  /** A reply that announces a deadline, in any state of a life. */
  lemma AnnouncedByReply(w: World, reply: Option<A.Exc>, slow: bool)
    requires Alive(w, true) && Called(w) && A.Decide(reply).WaitFor?
    ensures var w1 := Next(w, Reply(reply, slow));
      Alive(w1, true) && Told(w1, w.now + A.Decide(reply).seconds as real, |w1.past.rpcs|)
  {
    Announced(w, A.Decide(reply), slow);
    ReplyKeepsAlive(w, reply, slow);
  }

  /** From the announcement over any continuation whose launches are safe. */
  lemma {:induction false} LimitHolds(w: World, reply: Option<A.Exc>, slow: bool, more: seq<Step>)
    requires Alive(w, true) && Called(w) && A.Decide(reply).WaitFor?
    requires SafeRun(Next(w, Reply(reply, slow)), more) && NothingLost(Next(w, Reply(reply, slow)), more)
    ensures var w1 := Next(w, Reply(reply, slow));
      Told(Run(w1, more), w.now + A.Decide(reply).seconds as real, |w1.past.rpcs|)
  {
    AnnouncedByReply(w, reply, slow);
    var w1 := Next(w, Reply(reply, slow));
    RunKeepsTold(w1, more, w.now + A.Decide(reply).seconds as real, |w1.past.rpcs|);
  }

  /**
   A rate limit of s seconds is honoured from the moment it is announced: over any life whose launches are safe
   (all of them with the base lookup) no RPC follows the reply within s seconds, whatever flushes, pauses, stops,
   crashes, restarts and resumes happen, unless the process crashes before the deadline is committed.
   */
  lemma {:induction false} RateLimitIsHonoured(
    n: nat, planned: Action, lookup: L.Lookup, now: real, steps: seq<Step>, reply: Option<A.Exc>, slow: bool,
    more: seq<Step>)
    requires SafeRun(Init(n, planned, lookup, now), steps)
    requires var w := Run(Init(n, planned, lookup, now), steps);
      && Called(w) && A.Decide(reply).WaitFor?
      && SafeRun(Next(w, Reply(reply, slow)), more) && NothingLost(Next(w, Reply(reply, slow)), more)
    ensures var w := Run(Init(n, planned, lookup, now), steps);
      var w1 := Next(w, Reply(reply, slow));
      var rpcs := Run(w1, more).past.rpcs;
      forall i :: |w1.past.rpcs| <= i < |rpcs| ==> w.now + A.Decide(reply).seconds as real <= rpcs[i].at
  {
    var w := Run(Init(n, planned, lookup, now), steps);
    assert Alive(w, true) by {
      SafeIsAlive(n, planned, lookup, now, steps);
    }
    LimitHolds(w, reply, slow, more);
  }
}
