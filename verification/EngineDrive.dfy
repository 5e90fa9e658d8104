/**
 Runs do end.  From every reachable world with a live run, the run's own steps and the commits of the writer can bring
 it to its end, whatever has happened before; a run that was not told otherwise completes the job.
 */
module EngineDrive {
  import opened Core
  import opened JobStore
  import opened Engine
  import opened EngineShape
  import opened EngineLedger
  import opened EngineFlow
  import opened EngineEndings
  import EngineReplies
  import EngineRuns
  import EngineWitness
  import A = Attempt
  import CB = CandidateBuffer
  import L = Lifecycle
  import S = Scheduler

  /** The steps of a run that nobody disturbs: its own, its worker's, the writer's commits, and time. */
  predicate Own(s: Step) {
    || s.Tick? || s.CommitNext? || s.WorkerReads? || s.MainWrites? || s.Pop? || s.Send? || s.Wake? || s.Schedule?
    || s.Summarize? || s.Leave? || (s.Reply? && s.reply == None)
  }

  ghost predicate AllOwn(steps: seq<Step>) {
    forall i :: 0 <= i < |steps| ==> Own(steps[i])
  }

  ghost predicate Good(w: World) {
    Shape(w) && Flow(w)
  }

  /** The run has no other end before it than completing the job. */
  ghost predicate Completing(w: World) {
    w.exec.Some? && (!w.exec.value.pc.Exit? || Ended(Heading(w).state))
  }

  /** What undisturbed steps leave alone. */
  ghost predicate SameStory(w: World, w': World) {
    && w'.past.missed == w.past.missed && w'.past.rejected == w.past.rejected && w'.past.crashes == w.past.crashes
    && w'.past.runs == w.past.runs && w'.stage == w.stage && w'.planning == w.planning
    && w'.past.planned == w.past.planned && w'.past.count == w.past.count && w'.lookup == w.lookup
    && |w'.job.items| == |w.job.items|
  }

  // ------------------------------------------------------------------------------------------
  // How much is left to do
  // ------------------------------------------------------------------------------------------

  /** Items without a result, durable or on its way. */
  ghost function Open(w: World): nat
    requires Flow(w)
  {
    EngineRuns.FrontIsBounded(w);
    |w.job.items| - Front(w)
  }

  /** How far the run is from its next conclusion, or from its end. */
  function Rank(e: Exec, now: real): nat {
    match e.pc
    case Recorded => 10
    case Top =>
      if e.buf.queue != [] then 6
      else if e.buf.loading.Loaded? then 7
      else if e.buf.loading.Reading? then 8
      else if e.buf.exhausted then 6
      else 9
    case ServerWait(_) => if S.RemainingDelay(e.sched, now) > 0.0 then 7 else 6
    case Backoff(_) => 6
    case Delay(_) => if S.RemainingDelay(e.sched, now) > 0.0 then 5 else 4
    case Calling(_) => 3
    case Finish => 3
    case Exit => 2
  }

  function Backlog(w: World): nat
    requires w.exec.Some?
  {
    2 * |w.exec.value.owed| + |w.queue|
  }

  /** The step a run can always take. */
  function Onward(w: World): Step
    requires w.exec.Some?
  {
    var e := w.exec.value;
    if w.queue != [] then CommitNext
    else if e.owed != [] then MainWrites
    else match e.pc
      case Recorded => Schedule
      case Top => if e.buf.queue == [] && e.buf.loading.Reading? then WorkerReads else Pop(true, false)
      case ServerWait(_) => if S.RemainingDelay(e.sched, w.now) > 0.0 then Tick(S.RemainingDelay(e.sched, w.now)) else Wake(false)
      case Backoff(_) => Wake(false)
      case Delay(_) => if S.RemainingDelay(e.sched, w.now) > 0.0 then Tick(S.RemainingDelay(e.sched, w.now)) else Send
      case Calling(_) => Reply(None, false)
      case Finish => Summarize
      case Exit => Leave
  }

  /** One step nearer to the end, with so many items open before and after. */
  ghost predicate Nearer(w: World, open: nat, w': World, open': nat)
    requires w.exec.Some?
  {
    w'.exec.Some? ==>
      || open' < open
      || (open' == open && Rank(w'.exec.value, w'.now) < Rank(w.exec.value, w.now))
      || (open' == open && Rank(w'.exec.value, w'.now) == Rank(w.exec.value, w.now) && Backlog(w') < Backlog(w))
  }

  // ------------------------------------------------------------------------------------------
  // Every step onward is one
  // ------------------------------------------------------------------------------------------

  lemma OwnKeepsStory(w: World, s: Step)
    requires Shape(w) && Own(s)
    ensures SameStory(w, Next(w, s))
  {
    if s.Reply? {
      ReplyKeepsStory(w, A.Decide(s.reply), s.slow);
    } else if s.CommitNext? {
      CommitKeepsStory(w);
    } else if s.Pop? || s.Wake? {
      CandidateKeepsStory(w, s);
    } else {
      TurnKeepsStory(w, s);
    }
  }

  lemma CandidateKeepsStory(w: World, s: Step)
    requires s.Pop? || s.Wake?
    ensures SameStory(w, Next(w, s))
  {
  }

  lemma CommitKeepsStory(w: World)
    requires Shape(w)
    ensures SameStory(w, Next(w, CommitNext))
  {
    if w.queue != [] {
      assert Executors(w.queue[0].write);
    }
  }

  lemma TurnKeepsStory(w: World, s: Step)
    requires Own(s) && !s.Reply? && !s.CommitNext? && !s.Pop? && !s.Wake?
    ensures SameStory(w, Next(w, s))
  {
  }

  lemma ReplyKeepsStory(w: World, v: A.Verdict, slow: bool)
    ensures SameStory(w, DoReply(w, v, slow))
  {
  }

  /** Writes move on. */
  lemma BacklogShrinks(w: World)
    requires w.exec.Some? && (w.queue != [] || w.exec.value.owed != [])
    ensures var w' := Next(w, Onward(w));
      && w'.exec.Some? && w'.now == w.now && Backlog(w') < Backlog(w)
      && w'.exec.value.pc == w.exec.value.pc && w'.exec.value.buf == w.exec.value.buf && w'.exec.value.sched == w.exec.value.sched
  {
  }

  /** The run moves on without concluding anything, or leaves. */
  lemma RankFalls(w: World)
    requires Shape(w) && w.exec.Some? && w.queue == [] && w.exec.value.owed == []
    requires !w.exec.value.pc.Calling? && !w.exec.value.pc.Backoff?
    requires !w.exec.value.pc.Exit? ==> CB.Loose(w.exec.value.buf, w.job.items)
    ensures var w' := Next(w, Onward(w));
      w'.exec.Some? ==> Rank(w'.exec.value, w'.now) < Rank(w.exec.value, w.now)
  {
    var e := w.exec.value;
    S.DelayMeaning(e.sched, w.now);
    if e.pc.Top? && e.buf.queue == [] && e.buf.loading.Loaded? {
      assert Next(w, Onward(w)) == WithExec(w, e.(buf := CB.TakeRows(e.buf)));
    }
  }

  /** An RPC that succeeds concludes its item. */
  lemma ReplyConcludes(w: World)
    requires Good(w) && Called(w)
    ensures Flow(Next(w, Reply(None, false))) && Open(Next(w, Reply(None, false))) < Open(w)
  {
    var w' := Next(w, Reply(None, false));
    NextKeepsFlow(w, Reply(None, false));
    EngineReplies.ReplyRecords(w, None, false);
    EngineReplies.ReplyKeepsItems(w, None, false);
    assert Front(w') == Front(w) + 1;
  }

  lemma FrontMoves(w: World, w': World, u: Update)
    requires w'.job == w.job && Pipe(w') == Cat(Pipe(w), [u])
    ensures Front(w') == Front(w) + 1
  {
  }

  lemma LastBackoff(w: World)
    requires Good(w) && Free(w) && w.exec.value.pc.Backoff? && w.exec.value.pc.hand.transient >= |TRANSIENT_DELAYS|
    ensures Front(Next(w, Wake(false))) == Front(w) + 1
  {
    var h := w.exec.value.pc.hand;
    HandConcludes(w, w.exec.value, ItemFailed, false);
    LastWake(w);
    FrontMoves(w, Next(w, Wake(false)), Update(h.ordinal, ItemFailed, h.attempts));
  }

  lemma LastWake(w: World)
    requires Free(w) && w.exec.value.pc.Backoff? && w.exec.value.pc.hand.transient >= |TRANSIENT_DELAYS|
    ensures var h := w.exec.value.pc.hand;
      Next(w, Wake(false)) == Conclude(w, w.exec.value, Update(h.ordinal, ItemFailed, h.attempts), false)
    ensures Next(w, Wake(false)).job == w.job && Next(w, Wake(false)).exec.Some?
  {
  }

  lemma OtherWake(w: World)
    requires Free(w) && w.exec.value.pc.Backoff? && w.exec.value.pc.hand.transient < |TRANSIENT_DELAYS|
    ensures var e := w.exec.value; Next(w, Wake(false)) == WithExec(w, e.(pc := Delay(e.pc.hand)))
  {
  }

  /** A back-off ends in another attempt or in a failure. */
  lemma BackoffEnds(w: World)
    requires Good(w) && Free(w) && w.exec.value.pc.Backoff? && Flow(Next(w, Wake(false)))
    ensures Nearer(w, Open(w), Next(w, Wake(false)), Open(Next(w, Wake(false))))
  {
    if w.exec.value.pc.hand.transient >= |TRANSIENT_DELAYS| {
      LastBackoff(w);
      LastWake(w);
    } else {
      OtherWake(w);
      TurnKeepsFlow(w, Next(w, Wake(false)).exec.value);
    }
  }

  /** The steps onward that conclude nothing leave as much to do. */
  lemma OpenStays(w: World)
    requires Good(w) && w.exec.Some?
    requires w.queue != [] || w.exec.value.owed != [] || !(w.exec.value.pc.Calling? || w.exec.value.pc.Backoff?)
    ensures Flow(Next(w, Onward(w))) && Open(Next(w, Onward(w))) == Open(w)
  {
    var s := Onward(w);
    NextKeepsFlow(w, s);
    OwnKeepsStory(w, s);
    FrontStays(w);
  }

  lemma FrontStays(w: World)
    requires Good(w) && w.exec.Some?
    requires w.queue != [] || w.exec.value.owed != [] || !(w.exec.value.pc.Calling? || w.exec.value.pc.Backoff?)
    ensures Front(Next(w, Onward(w))) == Front(w)
  {
    OnwardAsks(w);
    StepFront(w, Onward(w));
  }

  lemma OnwardAsks(w: World)
    requires w.exec.Some?
    requires w.queue != [] || w.exec.value.owed != [] || !(w.exec.value.pc.Calling? || w.exec.value.pc.Backoff?)
    ensures var s := Onward(w);
      && !s.Crash? && !s.RejectNext? && !s.Reply?
      && (s.Pop? ==> s == Pop(true, false))
      && (s.Wake? ==> s == Wake(false) && w.queue == [] && w.exec.value.owed == [] && w.exec.value.pc.ServerWait?)
  {
  }

  lemma StepFront(w: World, s: Step)
    requires Good(w) && !s.Crash? && !s.RejectNext? && !s.Reply?
    requires s.Pop? ==> s == Pop(true, false)
    requires s.Wake? ==> s == Wake(false) && Free(w) && w.exec.value.pc.ServerWait?
    ensures Front(Next(w, s)) == Front(w)
  {
    if s.Pop? {
      PopFront(w);
    } else if s.Wake? {
      WaitIsOver(w);
    } else if s.Send? {
      SendConcludesNothing(w);
    } else {
      QuietFront(w, s);
    }
  }

  lemma PopFront(w: World)
    requires Good(w)
    ensures Front(Next(w, Pop(true, false))) == Front(w)
  {
    EngineReplies.OtherPop(w, true, false);
    EngineReplies.OtherPopIsQuiet(w, true, false);
  }

  lemma QuietFront(w: World, s: Step)
    requires Good(w) && !Concludes(s) && !s.Send? && !s.Crash? && !s.RejectNext?
    ensures Front(Next(w, s)) == Front(w)
  {
    EngineRuns.QuietHistory(w, s);
  }

  lemma WaitIsOver(w: World)
    requires Good(w) && Free(w) && w.exec.value.pc.ServerWait?
    ensures Front(Next(w, Wake(false))) == Front(w)
  {
    if DoWake(w, false) != w {
      WakeMeans(w);
      WokenFront(w, w.exec.value.(pc := Delay(w.exec.value.pc.hand), owed := [Put(SetFinal(Running))]));
    }
  }

  lemma WokenFront(w: World, e: Exec)
    requires Good(w) && Free(w) && w.exec.value.pc.ServerWait?
    requires e == w.exec.value.(pc := Delay(w.exec.value.pc.hand), owed := [Put(SetFinal(Running))])
    ensures Front(WithExec(w, e)) == Front(w)
  {
    TurnKeepsFlow(w, e);
  }

  lemma WakeMeans(w: World)
    requires Free(w) && w.exec.value.pc.ServerWait? && DoWake(w, false) != w
    ensures var e := w.exec.value;
      Next(w, Wake(false)) == WithExec(w, e.(pc := Delay(e.pc.hand), owed := [Put(SetFinal(Running))]))
  {
  }

  lemma SendConcludesNothing(w: World)
    requires Good(w)
    ensures Front(Next(w, Send)) == Front(w)
  {
    MainKeepsFlow(w, Send);
    SendKeepsJob(w);
  }

  lemma SendKeepsJob(w: World)
    ensures Next(w, Send).job == w.job
  {
  }

  lemma WritesAreNearer(w: World)
    requires Good(w) && w.exec.Some? && (w.queue != [] || w.exec.value.owed != []) && Flow(Next(w, Onward(w)))
    ensures Nearer(w, Open(w), Next(w, Onward(w)), Open(Next(w, Onward(w))))
  {
    OpenStays(w);
    FewerWrites(w, Open(w));
  }

  lemma FewerWrites(w: World, open: nat)
    requires w.exec.Some? && (w.queue != [] || w.exec.value.owed != [])
    ensures Nearer(w, open, Next(w, Onward(w)), open)
  {
    BacklogShrinks(w);
  }

  lemma LowerRank(w: World, open: nat)
    requires Shape(w) && w.exec.Some? && w.queue == [] && w.exec.value.owed == []
    requires !w.exec.value.pc.Calling? && !w.exec.value.pc.Backoff?
    requires !w.exec.value.pc.Exit? ==> CB.Loose(w.exec.value.buf, w.job.items)
    ensures Nearer(w, open, Next(w, Onward(w)), open)
  {
    RankFalls(w);
  }

  lemma TurnsAreNearer(w: World)
    requires Good(w) && w.exec.Some? && w.queue == [] && w.exec.value.owed == [] && Flow(Next(w, Onward(w)))
    requires !w.exec.value.pc.Calling? && !w.exec.value.pc.Backoff?
    ensures Nearer(w, Open(w), Next(w, Onward(w)), Open(Next(w, Onward(w))))
  {
    OpenStays(w);
    LowerRank(w, Open(w));
  }

  lemma OnwardIsNearer(w: World)
    requires Good(w) && w.exec.Some? && Flow(Next(w, Onward(w)))
    ensures Nearer(w, Open(w), Next(w, Onward(w)), Open(Next(w, Onward(w))))
  {
    if w.queue != [] || w.exec.value.owed != [] {
      WritesAreNearer(w);
    } else if w.exec.value.pc.Calling? {
      ReplyConcludes(w);
    } else if w.exec.value.pc.Backoff? {
      BackoffEnds(w);
    } else {
      TurnsAreNearer(w);
    }
  }

  lemma OnwardIsOwn(w: World)
    requires w.exec.Some?
    ensures Own(Onward(w))
  {
  }

  lemma NextIsGood(w: World, s: Step)
    requires Good(w)
    ensures Good(Next(w, s))
  {
    NextKeepsShape(w, s);
    NextKeepsFlow(w, s);
  }

  // ------------------------------------------------------------------------------------------
  // Where it ends
  // ------------------------------------------------------------------------------------------

  /** A run that is to end keeps to what its row is heading for. */
  lemma ExitStays(w: World)
    requires Good(w) && w.exec.Some? && w.exec.value.pc.Exit?
    ensures var w' := Next(w, Onward(w));
      if w'.exec.Some? then w'.exec.value.pc.Exit? && Heading(w') == Heading(w) else RowMark(w'.job.row) == Heading(w)
  {
    if w.queue != [] || w.exec.value.owed != [] {
      BesideStaysOnCourse(w, Onward(w));
    }
  }

  /** A run that goes on is not cut short: it ends by its summary. */
  lemma GoesOnToTheEnd(w: World)
    requires Good(w) && w.exec.Some? && !w.exec.value.pc.Exit?
    ensures Completing(Next(w, Onward(w)))
  {
    var s := Onward(w);
    if Beside(s) {
      BesideStaysOnCourse(w, s);
    } else if s.Summarize? {
      SummaryCompletes(w);
    } else if s.Reply? {
      EngineReplies.ReplyRecords(w, None, false);
    } else {
      TurnGoesOn(w);
    }
  }

  lemma SummaryCompletes(w: World)
    requires Free(w) && w.exec.value.pc.Finish?
    ensures Completing(Next(w, Summarize))
  {
    OwedOnce(Heading(w), SetFinal(FinalLabel(w.job.row)));
    OwesNow(w, DoSummarize(w).exec.value);
  }

  lemma TurnGoesOn(w: World)
    requires w.exec.Some? && !w.exec.value.pc.Exit? && !Beside(Onward(w)) && !Onward(w).Summarize? && !Onward(w).Reply?
    ensures Next(w, Onward(w)).exec.Some? && !Next(w, Onward(w)).exec.value.pc.Exit?
  {
  }

  /** What a drive from `w` leaves behind. */
  ghost predicate DrivenTo(w: World, t: World)
    requires w.exec.Some?
  {
    && Good(t) && t.exec.None? && SameStory(w, t)
    && (w.exec.value.pc.Exit? ==> RowMark(t.job.row) == Heading(w))
    && (Completing(w) ==> Ended(t.job.row.state))
  }

  /** One step of a drive. */
  ghost predicate Leads(w: World, w': World)
    requires w.exec.Some?
  {
    && SameStory(w, w')
    && (w.exec.value.pc.Exit? ==>
          if w'.exec.Some? then w'.exec.value.pc.Exit? && Heading(w') == Heading(w) else RowMark(w'.job.row) == Heading(w))
    && (!w.exec.value.pc.Exit? ==> Completing(w'))
  }

  lemma OnwardLeads(w: World)
    requires Good(w) && w.exec.Some?
    ensures Leads(w, Next(w, Onward(w)))
  {
    OnwardIsOwn(w);
    OwnKeepsStory(w, Onward(w));
    if w.exec.value.pc.Exit? {
      ExitStays(w);
    } else {
      GoesOnToTheEnd(w);
    }
  }

  /** A drive from the next world is one from this. */
  lemma DrivenFurther(w: World, w': World, t: World)
    requires w.exec.Some? && Leads(w, w')
    requires if w'.exec.Some? then DrivenTo(w', t) else Good(t) && t == w'
    ensures DrivenTo(w, t)
  {
  }

  lemma StepOfDrive(w: World)
    requires Good(w) && w.exec.Some?
    ensures var w' := Next(w, Onward(w));
      Good(w') && Leads(w, w') && Nearer(w, Open(w), w', Open(w'))
  {
    NextIsGood(w, Onward(w));
    OnwardIsNearer(w);
    OnwardLeads(w);
  }

  /** The step and the drive after it are a drive. */
  lemma OneStepMore(w: World, rest: seq<Step>)
    requires w.exec.Some? && Leads(w, Next(w, Onward(w))) && AllOwn(rest)
    requires
      var w' := Next(w, Onward(w));
      if w'.exec.Some? then DrivenTo(w', Run(w', rest)) else Good(w') && rest == []
    ensures AllOwn([Onward(w)] + rest) && DrivenTo(w, Run(w, [Onward(w)] + rest))
  {
    OnwardIsOwn(w);
    EngineWitness.RunAppend(w, [Onward(w)], rest);
    EngineWitness.RunOne(w, Onward(w));
    DrivenFurther(w, Next(w, Onward(w)), Run(Next(w, Onward(w)), rest));
  }

  lemma {:induction false} DriveOn(w: World, open: nat) returns (steps: seq<Step>)
    requires Good(w) && w.exec.Some? && open == Open(w)
    ensures AllOwn(steps) && DrivenTo(w, Run(w, steps))
    decreases open, Rank(w.exec.value, w.now), Backlog(w)
  {
    StepOfDrive(w);
    var w' := Next(w, Onward(w));
    var rest: seq<Step> := [];
    if w'.exec.Some? {
      rest := DriveOn(w', Open(w'));
    }
    OneStepMore(w, rest);
    steps := [Onward(w)] + rest;
  }

  /**
   From every reachable world with a live run, undisturbed steps bring the run to its end.  A run that was told how to
   end ends so; any other completes the job, and leaves pending exactly the items it had missed before.
   */
  lemma EveryRunCanEnd(n: nat, planned: Action, lookup: L.Lookup, now: real, steps: seq<Step>) returns (more: seq<Step>)
    requires Run(Init(n, planned, lookup, now), steps).exec.Some?
    ensures AllOwn(more)
    ensures var w := Run(Init(n, planned, lookup, now), steps);
      var told := Told(Init(n, planned, lookup, now), steps);
      var t := Run(Init(n, planned, lookup, now), steps + more);
      && t.exec.None?
      && (told.Some? ==> t.job.row.state == told.value)
      && (told.None? ==>
            && (t.job.row.state == Completed || t.job.row.state == CompletedWithErrors)
            && forall x: nat :: x < |t.job.items| ==> (Pending(t.job.items[x].state) <==> x in w.past.missed))
  {
    var start := Init(n, planned, lookup, now);
    EngineRuns.ReachableIsSound(n, planned, lookup, now, steps);
    RunSays(start, steps);
    more := DriveOn(Run(start, steps), Open(Run(start, steps)));
    EngineWitness.RunAppend(start, steps, more);
    if Told(start, steps).None? {
      EngineRuns.CompletionMeansAllConcluded(n, planned, lookup, now, steps + more);
      PendingMeansMissed(Run(start, steps + more));
    }
  }

  lemma PendingMeansMissed(t: World)
    requires forall x: nat :: IsPending(t.job.items, x) <==> x in t.past.missed
    ensures forall x: nat :: x < |t.job.items| ==> (Pending(t.job.items[x].state) <==> x in t.past.missed)
  {
    forall x: nat | x < |t.job.items|
      ensures Pending(t.job.items[x].state) <==> x in t.past.missed
    {
      assert IsPending(t.job.items, x) <==> Pending(t.job.items[x].state);
    }
  }

  /**
   Every job that may be resumed can be finished.  From every reachable world without a live run in which the row is
   READY, PAUSED or WAITING_SERVER, whatever crashed or was lost before, a launch at any allowed interval followed by
   undisturbed steps completes the job with no item pending; the whole plan, if its items are in the table.
   */
  lemma EveryJobCanFinish(
    n: nat, planned: Action, lookup: L.Lookup, now: real, steps: seq<Step>, interval: real) returns (more: seq<Step>)
    requires var w := Run(Init(n, planned, lookup, now), steps);
      && w.exec.None? && !w.stage.Unplanned? && 3.0 <= interval <= 10.0
      && (w.job.row.state == Ready || w.job.row.state == Paused || w.job.row.state == WaitingServer)
    ensures AllOwn(more)
    ensures var w := Run(Init(n, planned, lookup, now), steps);
      var t := Run(Init(n, planned, lookup, now), steps + [Launch(interval)] + more);
      && t.exec.None? && (t.job.row.state == Completed || t.job.row.state == CompletedWithErrors)
      && (forall i :: 0 <= i < |t.job.items| ==> !Pending(t.job.items[i].state))
      && (w.stage == Filled || w.stage == Signed ==> t.job.row.processed == t.job.row.total == n)
  {
    var start := Init(n, planned, lookup, now);
    var launched := steps + [Launch(interval)];
    EngineRuns.ReachableIsSound(n, planned, lookup, now, launched);
    EngineWitness.RunAppend(start, steps, [Launch(interval)]);
    EngineWitness.RunOne(Run(start, steps), Launch(interval));
    LaunchStarts(Run(start, steps), interval);
    more := DriveOn(Run(start, launched), Open(Run(start, launched)));
    EngineWitness.RunAppend(start, launched, more);
    FinishedJob(n, planned, lookup, now, launched + more);
  }

  lemma LaunchStarts(w: World, interval: real)
    requires w.exec.None? && !w.stage.Unplanned? && 3.0 <= interval <= 10.0
    requires w.job.row.state == Ready || w.job.row.state == Paused || w.job.row.state == WaitingServer
    ensures var w' := Next(w, Launch(interval));
      && w'.exec.Some? && !w'.exec.value.pc.Exit? && w'.past.missed == {} && w'.stage == w.stage
  {
  }

  /** A completed job that missed nothing. */
  lemma FinishedJob(n: nat, planned: Action, lookup: L.Lookup, now: real, life: seq<Step>)
    requires var t := Run(Init(n, planned, lookup, now), life); Ended(t.job.row.state) && t.past.missed == {}
    ensures var t := Run(Init(n, planned, lookup, now), life);
      && (forall i :: 0 <= i < |t.job.items| ==> !Pending(t.job.items[i].state))
      && (t.stage == Filled || t.stage == Signed ==> t.job.row.processed == t.job.row.total == n)
  {
    EngineRuns.CompletionMeansAllConcluded(n, planned, lookup, now, life);
    EngineRuns.ReachableIsSound(n, planned, lookup, now, life);
    EngineRuns.PlanIsFixed(Init(n, planned, lookup, now), life);
    assert StageOk(Run(Init(n, planned, lookup, now), life));
  }
}
