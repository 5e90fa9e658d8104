/** Who may have writes in flight when: the discipline of the two flush lanes. */
module EngineShape {
  import opened Core
  import opened JobStore
  import opened Engine
  import CB = CandidateBuffer
  import S = Scheduler
  import A = Attempt

  /** At most one write per lane is in flight, the delayed one first. */
  ghost predicate Lanes(queue: seq<Sent>) {
    && |queue| <= 2
    && (|queue| == 2 ==> queue[0].lane.Delayed? && queue[1].lane.Main?)
  }

  /** The writes an executor makes. */
  predicate Executors(x: Write) {
    x.UpdateItems? || x.MarkRetry? || x.SetState?
  }

  /** A delayed write is a batch of at most 19 results; a main batch has at most 20. */
  ghost predicate Batches(queue: seq<Sent>) {
    forall i :: 0 <= i < |queue| ==>
      && Executors(queue[i].write)
      && (queue[i].lane.Delayed? ==> queue[i].write.UpdateItems?)
      && (queue[i].write.UpdateItems? ==>
            0 < |queue[i].write.updates| <= if queue[i].lane.Delayed? then RESULT_BATCH - 1 else RESULT_BATCH)
  }

  /** A forced flush comes before every row change it is owed with. */
  ghost predicate OwedShape(owed: seq<Owed>) {
    && (forall i :: 0 < i < |owed| ==> owed[i].Put?)
    && (forall i :: 0 <= i < |owed| && owed[i].Put? ==> Executors(owed[i].write) && !owed[i].write.UpdateItems?)
  }

  predicate FlushOwed(owed: seq<Owed>) {
    owed != [] && owed[0].FlushFirst?
  }

  /** Places the main coroutine reaches only after a forced flush. */
  predicate Quiet(pc: Pc) {
    pc.ServerWait? || pc.Finish? || pc.Exit?
  }

  ghost predicate ExecShape(queue: seq<Sent>, e: Exec) {
    && Lanes(queue)
    && Batches(queue)
    && OwedShape(e.owed)
    && |e.results| < RESULT_BATCH
    && (Busy(queue, Delayed) ==> e.timer.Writing?)
    && (Busy(queue, Main) ==> e.results == [])
    && (e.owed != [] && !FlushOwed(e.owed) ==> e.results == [])
    && (Quiet(e.pc) && !FlushOwed(e.owed) ==> e.results == [])
    && (e.pc.Exit? && e.owed == [] ==> queue == [] || queue[|queue| - 1].lane.Main?)
    && (FlushOwed(e.owed) ==> !Busy(queue, Main))
    && (e.pc.Exit? && FlushOwed(e.owed) ==> |e.owed| > 1)
  }

  ghost predicate Shape(w: World) {
    match w.exec
    case None => w.queue == []
    case Some(e) => ExecShape(w.queue, e)
  }

  lemma BusyAppend(queue: seq<Sent>, x: Sent, lane: Lane)
    ensures Busy(queue + [x], lane) <==> Busy(queue, lane) || x.lane == lane
  {
    var q := queue + [x];
    assert q[|queue|] == x;
    if Busy(queue, lane) {
      var i :| 0 <= i < |queue| && queue[i].lane == lane;
      assert q[i].lane == lane;
    }
  }

  lemma SomeoneIsBusy(queue: seq<Sent>)
    requires queue != []
    ensures Busy(queue, Main) || Busy(queue, Delayed)
  {
    assert Busy(queue, queue[0].lane);
  }

  lemma TwoMeansBusy(queue: seq<Sent>)
    requires Lanes(queue) && |queue| == 2
    ensures Busy(queue, Main)
  {
    assert queue[1].lane.Main?;
  }

  lemma BusyTail(queue: seq<Sent>, lane: Lane)
    requires queue != [] && Busy(queue[1..], lane)
    ensures Busy(queue, lane)
  {
    var i :| 0 <= i < |queue| - 1 && queue[1..][i].lane == lane;
    assert queue[i + 1].lane == lane;
  }

  /** The main coroutine flushes while it awaits nothing and owes no flush. */
  lemma MainSubmitKeepsShape(w: World, e: Exec)
    requires ExecShape(w.queue, e.(results := [])) && |e.results| <= RESULT_BATCH
    requires !Busy(w.queue, Main) && !FlushOwed(e.owed)
    ensures Shape(Submit(w, e, Main))
  {
    var x := Sent(Main, UpdateItems(e.results));
    BusyAppend(w.queue, x, Main);
    BusyAppend(w.queue, x, Delayed);
  }

  lemma LaunchKeepsShape(w: World, interval: real)
    requires Shape(w)
    ensures Shape(DoLaunch(w, interval))
  {
  }

  lemma CommitKeepsShape(w: World)
    requires Shape(w)
    ensures Shape(DoCommit(w))
  {
    if w.queue != [] {
      if Busy(w.queue[1..], Main) {
        BusyTail(w.queue, Main);
      }
      if Busy(w.queue[1..], Delayed) {
        BusyTail(w.queue, Delayed);
      }
      if |w.queue| == 2 {
        assert w.queue[1].lane.Main?;
      }
    }
  }

  lemma RejectKeepsShape(w: World)
    requires Shape(w)
    ensures Shape(DoReject(w))
  {
    if w.queue != [] {
      CommitKeepsShape(w);
      assert w.exec.Some? ==> ExecShape(w.queue[1..], w.exec.value);
    }
  }

  lemma TimerFiresKeepsShape(w: World)
    requires Shape(w)
    ensures Shape(DoTimerFires(w))
  {
    if w.exec.Some? && w.exec.value.timer.Sleeping? {
      var e := w.exec.value;
      if e.results != [] {
        if w.queue != [] {
          SomeoneIsBusy(w.queue);
        }
        var x := Sent(Delayed, UpdateItems(e.results));
        BusyAppend(w.queue, x, Main);
      }
    }
  }

  lemma MainWritesKeepsShape(w: World)
    requires Shape(w)
    ensures Shape(DoMainWrites(w))
  {
    if Awake(w) && w.exec.value.owed != [] {
      var e := w.exec.value;
      var rest := e.(owed := e.owed[1..]);
      match e.owed[0]
      case FlushFirst => MainSubmitKeepsShape(w, rest);
      case Put(x) =>
        BusyAppend(w.queue, Sent(Main, x), Main);
        BusyAppend(w.queue, Sent(Main, x), Delayed);
    }
  }

  lemma ConcludeKeepsShape(w: World, e: Exec, u: Update, slow: bool)
    requires ExecShape(w.queue, e) && !Busy(w.queue, Main) && e.owed == []
    ensures Shape(Conclude(w, e, u, slow))
  {
    var e' := e.(pc := Recorded, results := e.results + [u]);
    if |e'.results| >= RESULT_BATCH || slow {
      MainSubmitKeepsShape(w.(past := Conclude(w, e, u, slow).past), e');
    }
  }

  lemma PopKeepsShape(w: World, usable: bool, slow: bool)
    requires Shape(w)
    ensures Shape(DoPop(w, usable, slow))
  {
    if Free(w) && w.exec.value.pc.Top? && w.exec.value.buf.queue != [] && !usable {
      var e := w.exec.value;
      var c := e.buf.queue[0];
      ConcludeKeepsShape(w, e.(buf := CB.TakeHead(e.buf)), Update(c.ordinal, ItemFailed, c.attempts), slow);
    }
  }

  lemma AnswerKeepsShape(w: World, e: Exec, h: Hand, v: A.Verdict, slow: bool)
    requires ExecShape(w.queue, e) && !Busy(w.queue, Main) && e.owed == []
    ensures Shape(Answer(w, e, h, v, slow))
  {
    if v.Conclude? {
      ConcludeKeepsShape(w, e.(sched := S.MarkStable(e.sched, w.now)), Update(h.ordinal, v.state, h.attempts), slow);
    }
  }

  lemma ReplyKeepsShape(w: World, v: A.Verdict, slow: bool)
    requires Shape(w)
    ensures Shape(DoReply(w, v, slow))
  {
    if Called(w) {
      AnswerKeepsShape(w, w.exec.value, w.exec.value.pc.hand, v, slow);
    }
  }

  lemma WakeKeepsShape(w: World, slow: bool)
    requires Shape(w)
    ensures Shape(DoWake(w, slow))
  {
    if Free(w) && w.exec.value.pc.Backoff? {
      var e := w.exec.value;
      var h := e.pc.hand;
      ConcludeKeepsShape(w, e, Update(h.ordinal, ItemFailed, h.attempts), slow);
    }
  }

  lemma LeaveKeepsShape(w: World)
    requires Shape(w)
    ensures Shape(DoLeave(w))
  {
    if w.exec.Some? && w.queue != [] {
      assert w.queue[|w.queue| - 1].lane.Main? ==> Busy(w.queue, Main);
    }
  }

  /** Steps that neither submit nor commit a write. */
  predicate Plain(s: Step) {
    || s.Tick? || s.PlanNext? || s.TimerEnds? || s.WorkerReads? || s.Observe? || s.Send? || s.Schedule? || s.Summarize?
    || s.Crash? || s.Restart?
  }

  lemma PlainKeepsShape(w: World, s: Step)
    requires Shape(w) && Plain(s)
    ensures Shape(Next(w, s))
  {
    if s.Observe? || s.Send? || s.Schedule? || s.Summarize? {
      PlainTurnKeepsShape(w, s);
    }
  }

  lemma PlainTurnKeepsShape(w: World, s: Step)
    requires Shape(w) && (s.Observe? || s.Send? || s.Schedule? || s.Summarize?)
    ensures Shape(Next(w, s))
  {
  }

  /** Every step keeps the discipline. */
  lemma NextKeepsShape(w: World, s: Step)
    requires Shape(w)
    ensures Shape(Next(w, s))
  {
    match s
    case Launch(interval) => LaunchKeepsShape(w, interval);
    case CommitNext => CommitKeepsShape(w);
    case RejectNext => RejectKeepsShape(w);
    case TimerFires => TimerFiresKeepsShape(w);
    case MainWrites => MainWritesKeepsShape(w);
    case Pop(usable, slow) => PopKeepsShape(w, usable, slow);
    case Reply(reply, slow) => ReplyKeepsShape(w, A.Decide(reply), slow);
    case Wake(slow) => WakeKeepsShape(w, slow);
    case Leave => LeaveKeepsShape(w);
    case _ => PlainKeepsShape(w, s);
  }
}
