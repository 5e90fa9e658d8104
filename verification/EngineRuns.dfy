/** What the discipline of the lanes and the flow of results mean over whole lives of a job. */
module EngineRuns {
  import opened Core
  import opened JobStore
  import opened Engine
  import opened EngineShape
  import opened EngineFlow
  import opened EngineLedger
  import A = Attempt
  import L = Lifecycle

  /** Results a crash can cost: a delayed batch of 19 and a main batch of 20. */
  const MAX_VOLATILE: nat := 2 * RESULT_BATCH - 1

  lemma PipeIsBounded(w: World)
    requires Shape(w)
    ensures |Pipe(w)| <= MAX_VOLATILE
  {
    if |w.queue| >= 1 {
      var t := w.queue[1..];
      assert Inflight(w.queue) == Updates(w.queue[0].write) + Inflight(t);
      if |w.queue| == 2 {
        assert t[0] == w.queue[1] && t[1..] == [] && Inflight(t[1..]) == [];
        assert Busy(w.queue, Main) by {
          assert w.queue[1].lane.Main?;
        }
      } else {
        assert t == [];
        assert w.queue[0].lane.Main? ==> Busy(w.queue, Main);
      }
    }
  }

  // ------------------------------------------------------------------------------------------
  // What a step adds to the history
  // ------------------------------------------------------------------------------------------

  /** At most one RPC, in a whole life for the item at the front. */
  ghost predicate OneRpc(front: nat, p: Past, p': Past) {
    || p'.rpcs == p.rpcs
    || exists r: Rpc ::
         p'.rpcs == p.rpcs + [r] && r.done == |p.concluded| && (p.rejected == 0 ==> r.ordinal == front)
  }

  /** Nothing happens to the counts of mishaps, and at most one item is concluded, in a whole life the front one. */
  ghost predicate Advances(front: nat, p: Past, front': nat, p': Past) {
    && p'.crashes == p.crashes && p'.rejected == p.rejected
    && ((front' == front && p'.concluded == p.concluded)
        || (front' == front + 1 && |p'.concluded| == |p.concluded| + 1
            && (p.rejected == 0 ==> p'.concluded == p.concluded + [front])))
  }

  /** A crash or a rejected flush, with what it costs. */
  ghost predicate Loses(front: nat, p: Past, front': nat, p': Past) {
    && p'.concluded == p.concluded
    && ((p'.crashes == p.crashes + 1 && p'.rejected == p.rejected && front <= front' + MAX_VOLATILE)
        || (p'.crashes == p.crashes && p'.rejected == p.rejected + 1 && front < front' + RESULT_BATCH))
  }

  ghost predicate Moves(front: nat, p: Past, front': nat, p': Past) {
    OneRpc(front, p, p') && (Advances(front, p, front', p') || Loses(front, p, front', p'))
  }

  ghost predicate WorldMoves(w: World, w': World) {
    Moves(Front(w), w.past, Front(w'), w'.past)
  }

  lemma SendHistory(w: World)
    requires Shape(w) && Flow(w)
    ensures WorldMoves(w, DoSend(w))
  {
    if CanSend(w) {
      SendKeepsFlow(w);
      HandIsPending(w);
      var rpcs := DoSend(w).past.rpcs;
      var r := rpcs[|rpcs| - 1];
      assert rpcs == w.past.rpcs + [r];
      assert OneRpc(Front(w), w.past, DoSend(w).past);
    }
  }

  /** No step but a crash, a rejection and a send touches these. */
  lemma LogIsKept(w: World, s: Step)
    requires !s.Send? && !s.Crash? && !s.RejectNext?
    ensures var p := Next(w, s).past;
      p.rpcs == w.past.rpcs && p.crashes == w.past.crashes && p.rejected == w.past.rejected
    ensures !Concludes(s) ==> Next(w, s).past.concluded == w.past.concluded
  {
    match s
    case Reply(reply, slow) => ReplyKeepsLog(w, A.Decide(reply), slow);
    case _ =>
  }

  lemma ReplyKeepsLog(w: World, v: A.Verdict, slow: bool)
    ensures var p := DoReply(w, v, slow).past;
      p.rpcs == w.past.rpcs && p.crashes == w.past.crashes && p.rejected == w.past.rejected
  {
  }

  /** Steps of the main coroutine that conclude nothing. */
  lemma MainFront(w: World, s: Step)
    requires Shape(w) && Flow(w) && (s.Observe? || s.Schedule? || s.Summarize? || s.Leave?)
    ensures Front(Next(w, s)) == Front(w)
  {
    MainKeepsFlow(w, s);
    MainKeepsJob(w, s);
  }

  lemma MainKeepsJob(w: World, s: Step)
    requires s.Observe? || s.Schedule? || s.Summarize? || s.Leave?
    ensures Next(w, s).job == w.job
  {
  }

  /** What one step adds to the history. */
  lemma StepHistory(w: World, s: Step)
    requires Shape(w) && Flow(w)
    ensures WorldMoves(w, Next(w, s))
  {
    if s.Send? {
      SendHistory(w);
    } else if s.Crash? || s.RejectNext? {
      LossHistory(w, s);
    } else {
      LogIsKept(w, s);
      QuietHistory(w, s);
    }
  }

  lemma LossHistory(w: World, s: Step)
    requires Shape(w) && Flow(w) && (s.Crash? || s.RejectNext?)
    ensures WorldMoves(w, Next(w, s))
  {
    if s.Crash? {
      CrashKeepsFlow(w);
      PipeIsBounded(w);
    } else {
      RejectKeepsFlow(w);
    }
  }

  /** A step that sends and loses nothing concludes at most one item. */
  lemma QuietHistory(w: World, s: Step)
    requires Shape(w) && Flow(w) && !s.Send? && !s.Crash? && !s.RejectNext?
    ensures if Concludes(s) then OneMore(w, Next(w, s)) else Front(Next(w, s)) == Front(w)
  {
    if Concludes(s) {
      ConcludingKeepsFlow(w, s);
    } else if OfLanes(s) {
      LanesKeepFlow(w, s);
    } else if Around(s) {
      AroundKeepsFlow(w, s);
    } else {
      MainFront(w, s);
    }
  }

  ghost predicate Nondecreasing(rpcs: seq<Rpc>) {
    forall i, j :: 0 <= i < j < |rpcs| ==> rpcs[i].ordinal <= rpcs[j].ordinal
  }

  /** The conclusions not in the front were lost to crashes and rejected flushes. */
  ghost predicate History(front: nat, p: Past) {
    && |p.concluded| <= front + MAX_VOLATILE * p.crashes + (RESULT_BATCH - 1) * p.rejected
    && (p.crashes == 0 && p.rejected == 0 ==>
          && p.concluded == Range(0, front)
          && Nondecreasing(p.rpcs)
          && (forall i :: 0 <= i < |p.rpcs| ==> p.rpcs[i].ordinal == p.rpcs[i].done <= front))
  }

  lemma MovesKeepHistory(front: nat, p: Past, front': nat, p': Past)
    requires History(front, p) && Moves(front, p, front', p')
    ensures History(front', p')
  {
    if p'.crashes == 0 && p'.rejected == 0 {
      assert p'.concluded == Range(0, front');
    }
  }

  ghost predicate Sound(w: World) {
    Shape(w) && Flow(w) && History(Front(w), w.past)
  }

  lemma {:induction false} RunIsSound(w: World, steps: seq<Step>)
    requires Sound(w)
    ensures Sound(Run(w, steps))
  {
    if steps != [] {
      var k := |steps| - 1;
      RunIsSound(w, steps[..k]);
      var m := Run(w, steps[..k]);
      NextKeepsShape(m, steps[k]);
      NextKeepsFlow(m, steps[k]);
      StepHistory(m, steps[k]);
      MovesKeepHistory(Front(m), m.past, Front(Next(m, steps[k])), Next(m, steps[k]).past);
    }
  }

  lemma InitIsSound(n: nat, planned: Action, lookup: L.Lookup, now: real)
    ensures Sound(Init(n, planned, lookup, now))
  {
    InitFlows(n, planned, lookup, now);
  }

  lemma InitFlows(n: nat, planned: Action, lookup: L.Lookup, now: real)
    ensures var w := Init(n, planned, lookup, now); Shape(w) && Flow(w) && Front(w) == 0
  {
    var w := Init(n, planned, lookup, now);
    assert Pipe(w) == [] && LineOf(w) == [];
    assert Ledger(w.job, [], {}, false, true);
  }

  lemma ReachableIsSound(n: nat, planned: Action, lookup: L.Lookup, now: real, steps: seq<Step>)
    ensures Sound(Run(Init(n, planned, lookup, now), steps))
  {
    InitIsSound(n, planned, lookup, now);
    RunIsSound(Init(n, planned, lookup, now), steps);
  }

  /** Neither the action nor the size of a plan changes. */
  lemma {:induction false} PlanIsFixed(w: World, steps: seq<Step>)
    ensures Run(w, steps).past.count == w.past.count && Run(w, steps).past.planned == w.past.planned
    ensures Run(w, steps).lookup == w.lookup
  {
    if steps != [] {
      PlanIsFixed(w, steps[..|steps| - 1]);
      StepFixesPlan(Run(w, steps[..|steps| - 1]), steps[|steps| - 1]);
    }
  }

  lemma StepFixesPlan(w: World, s: Step)
    ensures Next(w, s).past.count == w.past.count && Next(w, s).past.planned == w.past.planned
    ensures Next(w, s).lookup == w.lookup
  {
    match s
    case Reply(reply, slow) => ReplyFixesPlan(w, A.Decide(reply), slow);
    case _ =>
  }

  lemma ReplyFixesPlan(w: World, v: A.Verdict, slow: bool)
    ensures var w' := DoReply(w, v, slow);
      w'.past.count == w.past.count && w'.past.planned == w.past.planned && w'.lookup == w.lookup && w'.now == w.now
  {
  }

  // ------------------------------------------------------------------------------------------
  // Theorems
  // ------------------------------------------------------------------------------------------

  /** The items of the plan are in the table. */
  predicate HasItems(w: World) {
    w.stage.Filled? || w.stage.Signed?
  }

  /**
   Resuming is continuing.  Over any sequence of runs of one job, ended by pause, stop, permission or auth
   halt, rate limit or completion, without a crash or a rejected flush, the items concluded are 0, 1, 2, ... in
   that order: each once, none skipped.  Every RPC is for the first item not concluded when it was sent, so the
   ordinals attempted never decrease and an interrupted item is the first one the next run attempts.
   */
  lemma ResumeIsContinuation(n: nat, planned: Action, lookup: L.Lookup, now: real, steps: seq<Step>)
    requires var p := Run(Init(n, planned, lookup, now), steps).past; p.crashes == 0 && p.rejected == 0
    ensures var w := Run(Init(n, planned, lookup, now), steps);
      && w.past.concluded == Range(0, |w.past.concluded|) && |w.past.concluded| <= n
      && (forall i :: 0 <= i < |w.past.rpcs| ==> w.past.rpcs[i].ordinal == w.past.rpcs[i].done)
      && Nondecreasing(w.past.rpcs)
      && (w.exec.Some? && InHand(w.exec.value.pc) ==> w.exec.value.pc.hand.ordinal == |w.past.concluded|)
      && (Ended(w.job.row.state) ==> |w.past.concluded| == w.job.row.processed)
  {
    ReachableIsSound(n, planned, lookup, now, steps);
    PlanIsFixed(Init(n, planned, lookup, now), steps);
    var w := Run(Init(n, planned, lookup, now), steps);
    FrontIsBounded(w);
    if w.exec.Some? && InHand(w.exec.value.pc) {
      HandIsPending(w);
    }
    if Ended(w.job.row.state) {
      EndedHasNoLine(w);
    }
  }

  /** The pipe continues the durable items and stays within the plan. */
  lemma FrontIsBounded(w: World)
    requires Flow(w)
    ensures Front(w) <= |w.job.items| <= w.past.count
  {
    PipeIsPending(w);
    SortedMeans(Ordinals(Pipe(w)));
    assert forall k :: 0 <= k < |Pipe(w)| ==> Ordinals(Pipe(w))[k] == Pipe(w)[k].ordinal;
    ResultsGrow(w.job.items, Pipe(w));
    CountsPartition(PutItems(w.job.items, Pipe(w)));
  }

  /**
   Two lanes lose and reorder nothing.  In every reachable state at most 39 results are not yet durable, they are
   results for distinct pending items in ascending order, and the result counters of the row are exact.  Unless a
   flush was rejected the durable items are a prefix that the pipe continues without gap.  `total` is processed +
   READY + RETRY exactly when the items are in the table (or the plan is empty).
   */
  lemma TwoLanesKeepOrder(n: nat, planned: Action, lookup: L.Lookup, now: real, steps: seq<Step>)
    ensures var w := Run(Init(n, planned, lookup, now), steps);
      && |Pipe(w)| <= MAX_VOLATILE
      && Sorted(Ordinals(Pipe(w)))
      && (forall j :: 0 <= j < |Pipe(w)| ==> IsPending(w.job.items, Pipe(w)[j].ordinal) && !Pending(Pipe(w)[j].state))
      && (w.past.rejected == 0 ==>
            && Prefix(w.job)
            && forall j :: 0 <= j < |Pipe(w)| ==> Pipe(w)[j].ordinal == w.job.row.processed + j)
      && Tallied(w.job) && w.job.row.total == n
      && (w.job.row.total == w.job.row.processed + Count(w.job.items, ItemReady) + Count(w.job.items, ItemRetry)
          <==> HasItems(w) || n == 0)
  {
    ReachableIsSound(n, planned, lookup, now, steps);
    PlanIsFixed(Init(n, planned, lookup, now), steps);
    var w := Run(Init(n, planned, lookup, now), steps);
    PipeIsBounded(w);
    PipeInOrder(w);
    TotalOf(w);
  }

  /** The pipe of a sound state. */
  lemma PipeInOrder(w: World)
    requires Flow(w)
    ensures Sorted(Ordinals(Pipe(w)))
    ensures forall j :: 0 <= j < |Pipe(w)| ==> IsPending(w.job.items, Pipe(w)[j].ordinal) && !Pending(Pipe(w)[j].state)
    ensures w.past.rejected == 0 ==>
      Prefix(w.job) && forall j :: 0 <= j < |Pipe(w)| ==> Pipe(w)[j].ordinal == w.job.row.processed + j
  {
    PipeIsPending(w);
  }

  /** What `total` is worth in a sound state. */
  lemma TotalOf(w: World)
    requires Flow(w)
    ensures Tallied(w.job) && w.job.row.total == w.past.count
    ensures w.job.row.total == w.job.row.processed + Count(w.job.items, ItemReady) + Count(w.job.items, ItemRetry)
      <==> HasItems(w) || w.past.count == 0
  {
    TotalIsConserved(w.job);
  }

  /**
   Every row change commits after every result concluded before it: when PAUSED, CANCELLED, RATE_LIMITED,
   WAITING_SERVER or a completion reaches the table, no result is left behind it.
   */
  lemma RowChangesFollowResults(n: nat, planned: Action, lookup: L.Lookup, now: real, steps: seq<Step>)
    requires var w := Run(Init(n, planned, lookup, now), steps); w.queue != [] && w.queue[0].write.SetState?
    ensures var w := Run(Init(n, planned, lookup, now), steps);
      && Pipe(w) == []
      && Next(w, CommitNext).job.row.state == w.queue[0].write.state
      && Next(w, CommitNext).job.row.processed == Front(w)
  {
    ReachableIsSound(n, planned, lookup, now, steps);
    RowChangeCommits(Run(Init(n, planned, lookup, now), steps));
  }

  lemma RowChangeCommits(w: World)
    requires Shape(w) && w.queue != [] && w.queue[0].write.SetState?
    ensures Pipe(w) == [] && DoCommit(w).job.row.state == w.queue[0].write.state
    ensures DoCommit(w).job.row.processed == Front(w)
  {
    RowChangeIsLast(w);
  }

  /** A write of the main lane at the head of the queue has nothing behind it. */
  lemma RowChangeIsLast(w: World)
    requires Shape(w) && w.queue != [] && !w.queue[0].write.UpdateItems?
    ensures Pipe(w) == []
  {
    assert w.queue[0].lane.Main?;
    assert Busy(w.queue, Main);
    assert w.queue[1..] == [] && Inflight(w.queue[1..]) == [];
    assert Updates(w.queue[0].write) == [] && w.exec.value.results == [];
  }

  /**
   The items a completed job leaves pending are exactly the ones its last run missed: those of a delayed flush
   rejected in that run, or all of them if they were added after the run had found the table empty.  So a
   completed job has no pending item exactly when nothing was missed, and has concluded the whole plan exactly
   when, besides, the items were in the table at all.
   */
  lemma CompletionMeansAllConcluded(n: nat, planned: Action, lookup: L.Lookup, now: real, steps: seq<Step>)
    requires Ended(Run(Init(n, planned, lookup, now), steps).job.row.state)
    ensures var w := Run(Init(n, planned, lookup, now), steps);
      && (forall x: nat :: IsPending(w.job.items, x) <==> x in w.past.missed)
      && ((forall i :: 0 <= i < |w.job.items| ==> !Pending(w.job.items[i].state)) <==> w.past.missed == {})
      && (w.job.row.processed == n <==> (HasItems(w) && w.past.missed == {}) || n == 0)
  {
    ReachableIsSound(n, planned, lookup, now, steps);
    PlanIsFixed(Init(n, planned, lookup, now), steps);
    var w := Run(Init(n, planned, lookup, now), steps);
    EndedHasNoLine(w);
    MissedArePending(w);
    CountsPartition(w.job.items);
    NonePending(w.job.items);
  }

  lemma MissedArePending(w: World)
    requires Shape(w) && Flow(w) && Ended(w.job.row.state) && LineOf(w) == []
    ensures forall x: nat :: IsPending(w.job.items, x) <==> x in w.past.missed
    ensures (forall i :: 0 <= i < |w.job.items| ==> !Pending(w.job.items[i].state)) <==> w.past.missed == {}
  {
    assert Covers(w.job.items, [], w.past.missed);
    if w.past.missed != {} {
      var x :| x in w.past.missed;
      assert IsPending(w.job.items, x);
    } else {
      forall i | 0 <= i < |w.job.items|
        ensures !Pending(w.job.items[i].state)
      {
        assert !IsPending(w.job.items, i);
      }
    }
  }

  /** READY and RETRY count the pending items. */
  lemma {:induction false} NonePending(items: seq<Item>)
    ensures Count(items, ItemReady) + Count(items, ItemRetry) == 0 <==>
      forall i :: 0 <= i < |items| ==> !Pending(items[i].state)
  {
    if items != [] {
      NonePending(items[..|items| - 1]);
    }
  }

  /**
   A crash costs at most the 39 results not yet durable and a rejected flush at most 19: over a life at most
   n + 39 crashes + 19 rejections conclusions happen, and the candidate in hand is never a durable item.
   */
  lemma CrashCostIsBounded(n: nat, planned: Action, lookup: L.Lookup, now: real, steps: seq<Step>)
    ensures var w := Run(Init(n, planned, lookup, now), steps);
      && |w.past.concluded| <= n + MAX_VOLATILE * w.past.crashes + (RESULT_BATCH - 1) * w.past.rejected
      && Next(w, Crash).job == w.job && Front(Next(w, Crash)) >= Front(w) - MAX_VOLATILE
      && (w.exec.Some? && InHand(w.exec.value.pc) ==> IsPending(w.job.items, w.exec.value.pc.hand.ordinal))
  {
    ReachableIsSound(n, planned, lookup, now, steps);
    PlanIsFixed(Init(n, planned, lookup, now), steps);
    var w := Run(Init(n, planned, lookup, now), steps);
    FrontIsBounded(w);
    CrashCost(w);
    if w.exec.Some? && InHand(w.exec.value.pc) {
      HandIsPending(w);
    }
  }

  lemma CrashCost(w: World)
    requires Shape(w)
    ensures Next(w, Crash).job == w.job && Front(Next(w, Crash)) >= Front(w) - MAX_VOLATILE
  {
    PipeIsBounded(w);
  }

  /**
   Over every life each RPC spent on the candidate in hand is paid for by a rate limit or one of at most
   three transient failures of this run, or is still unanswered, and is counted in its attempts.
   */
  lemma AttemptsAreAccounted(n: nat, planned: Action, lookup: L.Lookup, now: real, steps: seq<Step>)
    ensures var w := Run(Init(n, planned, lookup, now), steps);
      w.exec.Some? && InHand(w.exec.value.pc) ==>
        var h := w.exec.value.pc.hand;
        && h.attempts == h.persisted + h.transient + h.waits + (if w.exec.value.pc.Calling? then 1 else 0)
        && h.transient <= |TRANSIENT_DELAYS|
        && (!w.exec.value.pc.Backoff? ==> h.transient < |TRANSIENT_DELAYS|)
  {
    ReachableIsSound(n, planned, lookup, now, steps);
  }
}
