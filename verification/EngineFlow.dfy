/**
 Where every item is: concluded in the table, in flight, in the result buffer, in hand, still to be handed out by
 the prefetch buffer, or missed by the run.  The results in flight and in the buffer, the candidate in hand and the
 rest of the buffer form one line (`EngineLedger`).
 */
module EngineFlow {
  import opened Core
  import opened JobStore
  import opened Engine
  import opened EngineShape
  import opened EngineLedger
  import CB = CandidateBuffer
  import S = Scheduler
  import A = Attempt

  function Updates(x: Write): seq<Update> {
    if x.UpdateItems? then x.updates else []
  }

  /** The results submitted and not yet committed, in submission order. */
  function Inflight(queue: seq<Sent>): seq<Update> {
    if queue == [] then [] else Cat(Updates(queue[0].write), Inflight(queue[1..]))
  }

  /** Results concluded by the run and not yet durable. */
  function Pipe(w: World): seq<Update> {
    Cat(Inflight(w.queue), if w.exec.Some? then w.exec.value.results else [])
  }

  /** How many conclusions are durable or on their way. */
  function Front(w: World): nat {
    w.job.row.processed + |Pipe(w)|
  }

  predicate InHand(pc: Pc) {
    pc.Delay? || pc.Calling? || pc.Backoff? || pc.ServerWait?
  }

  function HandOf(pc: Pc): seq<nat> {
    if InHand(pc) then [pc.hand.ordinal] else []
  }

  /** What the run will attempt: the candidate in hand and the rest of the buffer. */
  ghost function Ahead(e: Exec, items: seq<Item>): seq<nat> {
    if e.pc.Exit? || e.buf.lastLoaded < -1 then [] else Cat(HandOf(e.pc), Named(CB.Rest(e.buf, items)))
  }

  ghost function LineOf(w: World): seq<nat> {
    Cat(Ordinals(Pipe(w)), if w.exec.Some? then Ahead(w.exec.value, w.job.items) else [])
  }

  predicate Completes(x: Write) {
    x.SetState? && Ended(x.state)
  }

  ghost predicate QueueCompletes(queue: seq<Sent>) {
    exists i :: 0 <= i < |queue| && Completes(queue[i].write)
  }

  ghost predicate OwedCompletes(owed: seq<Owed>) {
    exists i :: 0 <= i < |owed| && owed[i].Put? && Completes(owed[i].write)
  }

  /** The run is to conclude every pending item it has not missed, or already has. */
  ghost predicate Full(w: World) {
    || (w.exec.Some? && (!w.exec.value.pc.Exit? || OwedCompletes(w.exec.value.owed) || QueueCompletes(w.queue)))
    || Ended(w.job.row.state)
  }

  /** An item marked RETRY is pending and not in the pipe; a completion is the last word of a spent run. */
  ghost predicate WriteOk(x: Write, items: seq<Item>, pipe: seq<Update>, e: Exec) {
    && (x.MarkRetry? ==>
          && IsPending(items, x.ordinal) && x.ordinal !in Ordinals(pipe)
          && (!e.pc.Exit? ==> x.ordinal <= e.buf.lastLoaded))
    && (Completes(x) ==> e.pc.Exit? && e.buf.exhausted)
  }

  ghost predicate QueueOk(queue: seq<Sent>, items: seq<Item>, pipe: seq<Update>, e: Exec) {
    forall i :: 0 <= i < |queue| ==>
      WriteOk(queue[i].write, items, pipe, e) && (Completes(queue[i].write) ==> e.owed == [])
  }

  ghost predicate OwedOk(items: seq<Item>, pipe: seq<Update>, e: Exec) {
    forall i :: 0 <= i < |e.owed| && e.owed[i].Put? ==>
      WriteOk(e.owed[i].write, items, pipe, e) && (Completes(e.owed[i].write) ==> i == |e.owed| - 1)
  }

  /** Everything concluded or in hand was loaded before. */
  ghost predicate AllLoaded(pipe: seq<Update>, e: Exec) {
    && (forall k :: 0 <= k < |pipe| ==> pipe[k].ordinal <= e.buf.lastLoaded)
    && (InHand(e.pc) ==> e.pc.hand.ordinal <= e.buf.lastLoaded)
  }

  /** Every RPC of this run on the candidate in hand is accounted for. */
  ghost predicate HandOk(pc: Pc) {
    InHand(pc) ==>
      && pc.hand.attempts == pc.hand.persisted + pc.hand.transient + pc.hand.waits + (if pc.Calling? then 1 else 0)
      && pc.hand.transient <= (if pc.Backoff? then 3 else 2)
  }

  ghost predicate ExecFlow(items: seq<Item>, queue: seq<Sent>, pipe: seq<Update>, e: Exec) {
    && HandOk(e.pc)
    && (!e.pc.Exit? ==> CB.Loose(e.buf, items) && AllLoaded(pipe, e))
    && (e.pc.Finish? ==> e.buf.exhausted && e.buf.queue == [])
    && QueueOk(queue, items, pipe, e)
    && OwedOk(items, pipe, e)
  }

  /** How far the plan is. */
  ghost predicate StageOk(w: World) {
    && |w.job.items| == (if w.stage.Unplanned? || w.stage.Created? then 0 else w.past.count)
    && w.job.row.total == w.past.count
    && (w.stage.Unplanned? ==> w.exec.None? && w.job.row.state.Ready?)
  }

  /** Nothing is left to do in a completed job. */
  ghost predicate EndedOk(w: World) {
    Ended(w.job.row.state) && w.exec.Some? ==> w.exec.value.pc.Exit? && w.exec.value.owed == [] && w.queue == []
  }

  ghost predicate Flow(w: World) {
    && Ledger(w.job, LineOf(w), w.past.missed, Full(w), w.past.rejected == 0)
    && Concluding(Pipe(w))
    && StageOk(w)
    && EndedOk(w)
    && (w.exec.Some? ==> ExecFlow(w.job.items, w.queue, Pipe(w), w.exec.value))
  }

  // ------------------------------------------------------------------------------------------
  // Lines
  // ------------------------------------------------------------------------------------------

  lemma {:induction false} InflightAppend(queue: seq<Sent>, x: Sent)
    ensures Inflight(queue + [x]) == Cat(Inflight(queue), Updates(x.write))
  {
    if queue == [] {
      assert queue + [x] == [x] && [x][1..] == [];
    } else {
      assert (queue + [x])[1..] == queue[1..] + [x];
      InflightAppend(queue[1..], x);
      CatAssociates(Updates(queue[0].write), Inflight(queue[1..]), Updates(x.write));
    }
  }

  /** The head of the queue is the head of the line. */
  lemma HeadOfLine(w: World, x: Write, rest: seq<Update>)
    requires w.queue != [] && x == w.queue[0].write
    requires rest == Cat(Inflight(w.queue[1..]), if w.exec.Some? then w.exec.value.results else [])
    ensures Pipe(w) == Cat(Updates(x), rest)
    ensures LineOf(w) == Cat(Ordinals(Updates(x)),
      Cat(Ordinals(rest), if w.exec.Some? then Ahead(w.exec.value, w.job.items) else []))
  {
    CatAssociates(Updates(x), Inflight(w.queue[1..]), if w.exec.Some? then w.exec.value.results else []);
    OrdinalsCat(Updates(x), rest);
    CatAssociates(
      Ordinals(Updates(x)), Ordinals(rest), if w.exec.Some? then Ahead(w.exec.value, w.job.items) else []);
  }

  /** What lies first ahead is pending, not missed, not in the pipe and, in a whole life, the next item. */
  lemma HeadOfAhead(w: World, o: nat)
    requires Flow(w) && w.exec.Some?
    requires Ahead(w.exec.value, w.job.items) != [] && Ahead(w.exec.value, w.job.items)[0] == o
    ensures IsPending(w.job.items, o) && o !in Ordinals(Pipe(w)) && o !in w.past.missed
    ensures w.past.rejected == 0 ==> o == Front(w)
  {
    var os, ahead := Ordinals(Pipe(w)), Ahead(w.exec.value, w.job.items);
    SortedParts(os, ahead);
    PendingParts(w.job, os, ahead, w.past.missed, Full(w), w.past.rejected == 0);
  }

  /** The candidate in hand is the head of what lies ahead. */
  lemma HandIsHead(e: Exec, items: seq<Item>)
    requires InHand(e.pc) && -1 <= e.buf.lastLoaded
    ensures Ahead(e, items) == Cat([e.pc.hand.ordinal], Named(CB.Rest(e.buf, items)))
    ensures Ahead(e, items) != [] && Ahead(e, items)[0] == e.pc.hand.ordinal
  {
  }

  /** The candidate in hand is pending and not in the pipe. */
  lemma HandIsPending(w: World)
    requires Flow(w) && w.exec.Some? && InHand(w.exec.value.pc)
    ensures var o := w.exec.value.pc.hand.ordinal;
      && IsPending(w.job.items, o) && o !in Ordinals(Pipe(w)) && o !in w.past.missed
      && (w.past.rejected == 0 ==> o == Front(w))
  {
    HandIsHead(w.exec.value, w.job.items);
    HeadOfAhead(w, w.exec.value.pc.hand.ordinal);
  }

  // ------------------------------------------------------------------------------------------
  // Commits and rejections
  // ------------------------------------------------------------------------------------------

  /** The log of RPCs and conclusions is none of the ledger's business. */
  lemma FlowIgnoresLog(w: World, p: Past)
    requires Flow(w) && p.missed == w.past.missed && p.rejected == w.past.rejected && p.count == w.past.count
    ensures Flow(w.(past := p))
  {
    assert LineOf(w.(past := p)) == LineOf(w);
  }

  /** Writing rows the buffer has passed does not change what lies ahead. */
  lemma AheadIgnoresBehind(e: Exec, items: seq<Item>, items': seq<Item>)
    requires |items'| == |items| && (!e.pc.Exit? ==> CB.Loose(e.buf, items))
    requires !e.pc.Exit? ==> forall i :: 0 <= i < |items| && e.buf.lastLoaded < i ==> items[i] == items'[i]
    ensures Ahead(e, items') == Ahead(e, items)
    ensures !e.pc.Exit? ==> CB.Loose(e.buf, items')
  {
    if !e.pc.Exit? {
      CB.WritesBehindRest(e.buf, items, items');
    }
  }

  /** What a committed write leaves of the rows ahead. */
  lemma CommitLeavesAhead(job: Job, x: Write, e: Exec)
    requires Executors(x) && (x.MarkRetry? && !e.pc.Exit? ==> x.ordinal <= e.buf.lastLoaded)
    requires !e.pc.Exit? ==> CB.Loose(e.buf, job.items) && AllLoaded(Updates(x), e)
    ensures var items := Commit(job, x).items;
      Ahead(e, items) == Ahead(e, job.items) && (!e.pc.Exit? ==> CB.Loose(e.buf, items))
  {
    var items := Commit(job, x).items;
    if !e.pc.Exit? {
      forall i | 0 <= i < |items| && e.buf.lastLoaded < i
        ensures job.items[i] == items[i]
      {
        if x.UpdateItems? {
          PutElsewhere(job.items, x.updates, i);
        }
      }
    }
    AheadIgnoresBehind(e, job.items, items);
  }

  /** With a shorter pipe every write is still in order. */
  lemma ShorterPipe(y: Write, items: seq<Item>, us: seq<Update>, rest: seq<Update>, e: Exec)
    requires WriteOk(y, items, Cat(us, rest), e)
    ensures WriteOk(y, items, rest, e)
  {
    OrdinalsCat(us, rest);
    if y.MarkRetry? {
      CatHolds(Ordinals(us), Ordinals(rest), y.ordinal);
    }
  }

  /** An item outside a committed write is as pending as before. */
  lemma CommitLeavesPending(job: Job, x: Write, o: nat)
    requires Executors(x) && IsPending(job.items, o)
    requires x.UpdateItems? ==> o !in Ordinals(x.updates)
    ensures IsPending(Commit(job, x).items, o)
  {
    if x.UpdateItems? {
      assert forall k :: 0 <= k < |x.updates| ==> Ordinals(x.updates)[k] == x.updates[k].ordinal;
      assert forall k :: 0 <= k < |x.updates| ==> Ordinals(x.updates)[k] in Ordinals(x.updates);
      PutElsewhere(job.items, x.updates, o);
    }
  }

  /** The writes behind a committed one stay in order. */
  lemma CommitLeavesWrites(job: Job, x: Write, rest: seq<Update>, y: Write, e: Exec)
    requires Executors(x) && WriteOk(y, job.items, Cat(Updates(x), rest), e)
    ensures WriteOk(y, Commit(job, x).items, rest, e)
  {
    ShorterPipe(y, job.items, Updates(x), rest, e);
    if y.MarkRetry? {
      OrdinalsCat(Updates(x), rest);
      CatHolds(Ordinals(Updates(x)), Ordinals(rest), y.ordinal);
      CommitLeavesPending(job, x, y.ordinal);
    }
  }

  lemma CommitKeepsLedger(job: Job, x: Write, rest: seq<nat>, missed: set<nat>, full: bool, whole: bool)
    requires Executors(x) && Ledger(job, Cat(Ordinals(Updates(x)), rest), missed, full, whole) && Concluding(Updates(x))
    requires x.MarkRetry? ==> IsPending(job.items, x.ordinal)
    ensures Ledger(Commit(job, x), rest, missed, full, whole)
    ensures Commit(job, x).row.processed == job.row.processed + |Updates(x)|
  {
    if x.UpdateItems? {
      CommitBatch(job, x.updates, rest, missed, full, whole);
    } else {
      assert Ordinals(Updates(x)) == [];
      if x.MarkRetry? {
        CommitRetry(job, x.ordinal, x.attempts, rest, missed, full, whole);
      }
    }
  }

  /** The pipe is sorted and its items are pending. */
  lemma PipeIsPending(w: World)
    requires Flow(w)
    ensures Sorted(Ordinals(Pipe(w)))
    ensures forall k :: 0 <= k < |Pipe(w)| ==> IsPending(w.job.items, Pipe(w)[k].ordinal)
    ensures w.past.rejected == 0 ==> forall k :: 0 <= k < |Pipe(w)| ==> Pipe(w)[k].ordinal == w.job.row.processed + k
  {
    var os, ahead := Ordinals(Pipe(w)), if w.exec.Some? then Ahead(w.exec.value, w.job.items) else [];
    SortedParts(os, ahead);
    PendingParts(w.job, os, ahead, w.past.missed, Full(w), w.past.rejected == 0);
    assert forall k :: 0 <= k < |os| ==> os[k] == Pipe(w)[k].ordinal;
  }

  lemma ConcludingParts(us: seq<Update>, rest: seq<Update>)
    requires Concluding(Cat(us, rest))
    ensures Concluding(us) && Concluding(rest)
  {
    if us != [] && rest != [] {
      assert forall k :: 0 <= k < |us| ==> us[k] == (us + rest)[k];
      assert forall k :: 0 <= k < |rest| ==> rest[k] == (us + rest)[|us| + k];
    }
  }

  lemma LoadedParts(us: seq<Update>, rest: seq<Update>, e: Exec)
    requires AllLoaded(Cat(us, rest), e)
    ensures AllLoaded(us, e) && AllLoaded(rest, e)
  {
    if us != [] && rest != [] {
      assert forall k :: 0 <= k < |us| ==> us[k] == (us + rest)[k];
      assert forall k :: 0 <= k < |rest| ==> rest[k] == (us + rest)[|us| + k];
    }
  }

  /** Committing the oldest write: the rows, the line, the writes behind it. */
  lemma CommitParts(w: World, x: Write, e: Exec, rest: seq<Update>)
    requires Shape(w) && Flow(w) && w.queue != [] && x == w.queue[0].write && w.exec == Some(e)
    requires rest == Cat(Inflight(w.queue[1..]), e.results)
    ensures var job := Commit(w.job, x);
      && Ledger(job, Cat(Ordinals(rest), Ahead(e, job.items)), w.past.missed, Full(w), w.past.rejected == 0)
      && Concluding(rest) && |job.items| == |w.job.items|
      && (!e.pc.Exit? ==> CB.Loose(e.buf, job.items))
      && job.row.processed + |rest| == Front(w)
  {
    HeadOfLine(w, x, rest);
    assert Executors(x);
    assert WriteOk(x, w.job.items, Pipe(w), e);
    ConcludingParts(Updates(x), rest);
    CommitKeepsLedger(w.job, x, Cat(Ordinals(rest), Ahead(e, w.job.items)), w.past.missed, Full(w), w.past.rejected == 0);
    if !e.pc.Exit? {
      LoadedParts(Updates(x), rest, e);
    }
    CommitLeavesAhead(w.job, x, e);
  }

  lemma CommitKeepsWrites(w: World, x: Write, e: Exec, rest: seq<Update>)
    requires Shape(w) && Flow(w) && w.queue != [] && x == w.queue[0].write && w.exec == Some(e)
    requires rest == Cat(Inflight(w.queue[1..]), e.results)
    ensures var items := Commit(w.job, x).items;
      && QueueOk(w.queue[1..], items, rest, e) && OwedOk(items, rest, e)
      && (!e.pc.Exit? ==> AllLoaded(rest, e))
  {
    HeadOfLine(w, x, rest);
    if !e.pc.Exit? {
      LoadedParts(Updates(x), rest, e);
    }
    QueueAfterCommit(w.job, x, rest, w.queue, e);
    OwedAfterCommit(w.job, x, rest, e);
  }

  lemma QueueAfterCommit(job: Job, x: Write, rest: seq<Update>, queue: seq<Sent>, e: Exec)
    requires Executors(x) && queue != [] && QueueOk(queue, job.items, Cat(Updates(x), rest), e)
    ensures QueueOk(queue[1..], Commit(job, x).items, rest, e)
  {
    var t := queue[1..];
    forall i | 0 <= i < |t|
      ensures WriteOk(t[i].write, Commit(job, x).items, rest, e) && (Completes(t[i].write) ==> e.owed == [])
    {
      assert t[i] == queue[i + 1];
      CommitLeavesWrites(job, x, rest, t[i].write, e);
    }
  }

  lemma OwedAfterCommit(job: Job, x: Write, rest: seq<Update>, e: Exec)
    requires Executors(x) && OwedOk(job.items, Cat(Updates(x), rest), e)
    ensures OwedOk(Commit(job, x).items, rest, e)
  {
    forall i | 0 <= i < |e.owed| && e.owed[i].Put?
      ensures WriteOk(e.owed[i].write, Commit(job, x).items, rest, e)
    {
      CommitLeavesWrites(job, x, rest, e.owed[i].write, e);
    }
  }

  /** Completion stays where it is: still to be written, or in the row. */
  lemma CommitKeepsFull(w: World, x: Write, e: Exec)
    requires Shape(w) && Flow(w) && w.queue != [] && x == w.queue[0].write && w.exec == Some(e)
    ensures Full(DoCommit(w)) <==> Full(w)
    ensures EndedOk(DoCommit(w)) && StageOk(DoCommit(w))
  {
    var w' := DoCommit(w);
    assert forall i :: 0 <= i < |w'.queue| ==> w'.queue[i] == w.queue[i + 1];
    assert QueueCompletes(w.queue) <==> Completes(x) || QueueCompletes(w'.queue) by {
      assert forall i :: 0 < i < |w.queue| ==> w.queue[i] == w'.queue[i - 1];
    }
    if Completes(x) {
      assert WriteOk(x, w.job.items, Pipe(w), e) && e.owed == [];
      assert w.queue[0].lane.Main?;
    }
  }

  lemma CommitKeepsFlow(w: World)
    requires Shape(w) && Flow(w)
    ensures Flow(Next(w, CommitNext)) && Front(Next(w, CommitNext)) == Front(w)
  {
    if w.queue != [] {
      var x := w.queue[0].write;
      var e := w.exec.value;
      var rest := Cat(Inflight(w.queue[1..]), e.results);
      CommitParts(w, x, e, rest);
      CommitKeepsWrites(w, x, e, rest);
      CommitKeepsFull(w, x, e);
    }
  }

  lemma RejectKeepsFlow(w: World)
    requires Shape(w) && Flow(w)
    ensures Flow(Next(w, RejectNext))
    ensures Next(w, RejectNext) != w ==> Front(w) < Front(Next(w, RejectNext)) + RESULT_BATCH
  {
    if w.queue != [] && w.queue[0].lane.Delayed? {
      var x := w.queue[0].write;
      var e := w.exec.value;
      var rest := Cat(Inflight(w.queue[1..]), e.results);
      HeadOfLine(w, x, rest);
      RejectBatch(
        w.job, x.updates, Cat(Ordinals(rest), Ahead(e, w.job.items)), w.past.missed, Full(w), w.past.rejected == 0);
      RejectKeepsWrites(w, x, e, rest);
    }
  }

  lemma RejectKeepsWrites(w: World, x: Write, e: Exec, rest: seq<Update>)
    requires Flow(w) && w.queue != [] && x == w.queue[0].write && x.UpdateItems? && w.exec == Some(e)
    requires Pipe(w) == Cat(x.updates, rest)
    ensures ExecFlow(w.job.items, w.queue[1..], rest, e) && Concluding(rest)
    ensures QueueCompletes(w.queue[1..]) <==> QueueCompletes(w.queue)
  {
    var t := w.queue[1..];
    ConcludingParts(x.updates, rest);
    if !e.pc.Exit? {
      LoadedParts(x.updates, rest, e);
    }
    forall i | 0 <= i < |t|
      ensures WriteOk(t[i].write, w.job.items, rest, e) && (Completes(t[i].write) ==> e.owed == [])
    {
      assert t[i] == w.queue[i + 1];
      ShorterPipe(t[i].write, w.job.items, x.updates, rest, e);
    }
    forall i | 0 <= i < |e.owed| && e.owed[i].Put?
      ensures WriteOk(e.owed[i].write, w.job.items, rest, e)
    {
      ShorterPipe(e.owed[i].write, w.job.items, x.updates, rest, e);
    }
    TailCompletes(w.queue);
  }

  lemma TailCompletes(queue: seq<Sent>)
    requires queue != [] && !Completes(queue[0].write)
    ensures QueueCompletes(queue[1..]) <==> QueueCompletes(queue)
  {
    var t := queue[1..];
    assert forall i :: 0 <= i < |t| ==> t[i] == queue[i + 1];
    assert forall i :: 0 < i < |queue| ==> queue[i] == t[i - 1];
  }

  // ------------------------------------------------------------------------------------------
  // Submitting
  // ------------------------------------------------------------------------------------------

  /** Handing the buffer to a lane leaves the pipe as it was. */
  lemma SubmitKeepsFlow(w: World, e: Exec, lane: Lane)
    requires Flow(WithExec(w, e)) && (e.results != [] ==> !Ended(w.job.row.state))
    ensures Flow(Submit(w, e, lane)) && Pipe(Submit(w, e, lane)) == Pipe(WithExec(w, e))
  {
    if e.results != [] {
      var x := Sent(lane, UpdateItems(e.results));
      var w1, w' := WithExec(w, e), Submit(w, e, lane);
      InflightAppend(w.queue, x);
      assert Pipe(w') == Pipe(w1);
      assert Ahead(w'.exec.value, w.job.items) == Ahead(e, w.job.items);
      assert forall i :: 0 <= i < |w.queue| ==> w'.queue[i] == w.queue[i];
      assert QueueCompletes(w'.queue) <==> QueueCompletes(w.queue);
      SubmittedOk(w.queue, x, w.job.items, Pipe(w1), e);
    }
  }

  lemma SubmittedOk(queue: seq<Sent>, x: Sent, items: seq<Item>, pipe: seq<Update>, e: Exec)
    requires ExecFlow(items, queue, pipe, e) && x.write.UpdateItems?
    ensures ExecFlow(items, queue + [x], pipe, e.(results := []))
  {
  }

  /** The same run with fewer writes owed or another timer. */
  lemma SameRunKeepsFlow(w: World, e: Exec, e': Exec)
    requires Flow(w) && w.exec == Some(e) && e' == e.(owed := e'.owed, timer := e'.timer)
    requires OwedOk(w.job.items, Pipe(w), e') && QueueOk(w.queue, w.job.items, Pipe(w), e')
    requires OwedCompletes(e'.owed) <==> OwedCompletes(e.owed)
    requires e.owed == [] ==> e'.owed == []
    ensures Flow(WithExec(w, e')) && Pipe(WithExec(w, e')) == Pipe(w)
  {
    assert LineOf(WithExec(w, e')) == LineOf(w);
  }

  lemma DoTimerFiresKeepsFlow(w: World)
    requires Shape(w) && Flow(w)
    ensures Flow(DoTimerFires(w)) && Pipe(DoTimerFires(w)) == Pipe(w)
  {
    if w.exec.Some? && w.exec.value.timer.Sleeping? {
      var e := w.exec.value;
      var e' := e.(timer := if e.results == [] then Idle else Writing);
      SameRunKeepsFlow(w, e, e');
      SubmitKeepsFlow(w, e', Delayed);
    }
  }

  lemma TimerFiresKeepsFlow(w: World)
    requires Shape(w) && Flow(w)
    ensures Flow(Next(w, TimerFires)) && Pipe(Next(w, TimerFires)) == Pipe(w) && Front(Next(w, TimerFires)) == Front(w)
  {
    DoTimerFiresKeepsFlow(w);
  }

  /** One write less is owed. */
  lemma OwedTail(items: seq<Item>, pipe: seq<Update>, e: Exec)
    requires OwedOk(items, pipe, e) && e.owed != []
    ensures OwedOk(items, pipe, e.(owed := e.owed[1..]))
    ensures e.owed[0].Put? ==>
      WriteOk(e.owed[0].write, items, pipe, e) && (Completes(e.owed[0].write) ==> e.owed[1..] == [])
    ensures OwedCompletes(e.owed) <==> (e.owed[0].Put? && Completes(e.owed[0].write)) || OwedCompletes(e.owed[1..])
  {
    var t := e.owed[1..];
    assert forall i :: 0 <= i < |t| ==> t[i] == e.owed[i + 1];
    assert forall i :: 0 < i < |e.owed| ==> e.owed[i] == t[i - 1];
  }

  /** A row change joins the lane without touching the pipe. */
  lemma PutKeepsFlow(w: World, x: Write, e: Exec, rest: Exec)
    requires Shape(w) && Flow(w) && Awake(w) && w.exec == Some(e) && e.owed != [] && e.owed[0] == Put(x)
    requires rest == e.(owed := e.owed[1..])
    ensures var w' := WithExec(w, rest).(queue := w.queue + [Sent(Main, x)]);
      Flow(w') && Pipe(w') == Pipe(w)
  {
    var w' := WithExec(w, rest).(queue := w.queue + [Sent(Main, x)]);
    OwedTail(w.job.items, Pipe(w), e);
    InflightAppend(w.queue, Sent(Main, x));
    assert Pipe(w') == Pipe(w);
    assert LineOf(w') == LineOf(w);
    PutOk(w.queue, x, w.job.items, Pipe(w), e, rest);
  }

  lemma PutOk(queue: seq<Sent>, x: Write, items: seq<Item>, pipe: seq<Update>, e: Exec, rest: Exec)
    requires ExecShape(queue, e) && !Busy(queue, Main) && ExecFlow(items, queue, pipe, e)
    requires rest == e.(owed := rest.owed) && OwedOk(items, pipe, rest)
    requires WriteOk(x, items, pipe, e) && (Completes(x) ==> rest.owed == [])
    ensures ExecFlow(items, queue + [Sent(Main, x)], pipe, rest)
    ensures QueueCompletes(queue + [Sent(Main, x)]) <==> Completes(x)
    ensures !QueueCompletes(queue)
  {
    var longer := queue + [Sent(Main, x)];
    FreeQueueOk(queue, e, items, pipe, rest);
    assert forall i :: 0 <= i < |queue| ==> longer[i] == queue[i];
    assert longer[|queue|] == Sent(Main, x);
  }

  /** A free main coroutine has only delayed batches in flight. */
  lemma FreeQueueOk(queue: seq<Sent>, e: Exec, items: seq<Item>, pipe: seq<Update>, e': Exec)
    requires ExecShape(queue, e) && !Busy(queue, Main)
    ensures QueueOk(queue, items, pipe, e') && !QueueCompletes(queue)
  {
    forall i | 0 <= i < |queue|
      ensures queue[i].write.UpdateItems?
    {
      assert queue[i].lane.Delayed?;
    }
  }

  lemma DoMainWritesKeepsFlow(w: World)
    requires Shape(w) && Flow(w)
    ensures Flow(DoMainWrites(w)) && Pipe(DoMainWrites(w)) == Pipe(w)
  {
    if Awake(w) && w.exec.value.owed != [] {
      var e := w.exec.value;
      var rest := e.(owed := e.owed[1..]);
      if e.owed[0].FlushFirst? {
        OwedTail(w.job.items, Pipe(w), e);
        FreeQueueOk(w.queue, e, w.job.items, Pipe(w), rest);
        SameRunKeepsFlow(w, e, rest);
        SubmitKeepsFlow(w, rest, Main);
      } else {
        PutKeepsFlow(w, e.owed[0].write, e, rest);
      }
    }
  }

  lemma MainWritesKeepsFlow(w: World)
    requires Shape(w) && Flow(w)
    ensures Flow(Next(w, MainWrites)) && Pipe(Next(w, MainWrites)) == Pipe(w) && Front(Next(w, MainWrites)) == Front(w)
  {
    DoMainWritesKeepsFlow(w);
  }

  // ------------------------------------------------------------------------------------------
  // The main coroutine
  // ------------------------------------------------------------------------------------------

  /** A step of the free coroutine that keeps its line and its results. */
  lemma TurnKeepsFlow(w: World, e': Exec)
    requires Shape(w) && Flow(w) && Free(w) && !w.exec.value.pc.Exit? && !e'.pc.Exit?
    requires e'.results == w.exec.value.results && Ahead(e', w.job.items) == Ahead(w.exec.value, w.job.items)
    requires HandOk(e'.pc) && CB.Loose(e'.buf, w.job.items) && AllLoaded(Pipe(w), e')
    requires e'.pc.Finish? ==> e'.buf.exhausted && e'.buf.queue == []
    requires OwedOk(w.job.items, Pipe(w), e')
    ensures Flow(WithExec(w, e')) && Pipe(WithExec(w, e')) == Pipe(w)
  {
    FreeQueueOk(w.queue, w.exec.value, w.job.items, Pipe(w), e');
  }

  /** A step by which the run gives up what lies ahead, with row changes that complete nothing. */
  lemma ExitKeepsFlow(w: World, e': Exec)
    requires Shape(w) && Flow(w) && Free(w) && !w.exec.value.pc.Exit? && e'.pc.Exit?
    requires e'.results == w.exec.value.results && OwedOk(w.job.items, Pipe(w), e') && !OwedCompletes(e'.owed)
    ensures Flow(WithExec(w, e')) && Pipe(WithExec(w, e')) == Pipe(w)
  {
    var e := w.exec.value;
    FreeQueueOk(w.queue, e, w.job.items, Pipe(w), e');
    LetGo(w.job, Ordinals(Pipe(w)), Ahead(e, w.job.items), w.past.missed, Full(w), w.past.rejected == 0);
    assert LineOf(WithExec(w, e')) == Ordinals(Pipe(w));
  }

  /** A result joins the pipe at the place its item had at the head of what lay ahead. */
  lemma RecordKeepsLine(w: World, e: Exec, u: Update, w1: World)
    requires w.exec.Some? && !w.exec.value.pc.Exit? && -1 <= e.buf.lastLoaded
    requires e.results == w.exec.value.results + [u] && e.pc.Recorded?
    requires Ahead(w.exec.value, w.job.items) == Cat([u.ordinal], Named(CB.Rest(e.buf, w.job.items)))
    requires w1 == WithExec(w, e).(past := w1.past)
    ensures Pipe(w1) == Cat(Pipe(w), [u]) && LineOf(w1) == LineOf(w)
  {
    var rest := Named(CB.Rest(e.buf, w.job.items));
    var results := w.exec.value.results;
    assert e.results == Cat(results, [u]);
    CatAssociates(Inflight(w.queue), results, [u]);
    OrdinalsCat(Pipe(w), [u]);
    assert Ordinals([u]) == [u.ordinal];
    CatAssociates(Ordinals(Pipe(w)), [u.ordinal], rest);
  }

  /** A pipe with one result more. */
  lemma OneMoreResult(pipe: seq<Update>, u: Update, e: Exec)
    requires Concluding(pipe) && AllLoaded(pipe, e) && !Pending(u.state) && u.ordinal <= e.buf.lastLoaded
    ensures Concluding(Cat(pipe, [u])) && AllLoaded(Cat(pipe, [u]), e)
  {
  }

  lemma RecordKeepsFlow(w: World, e: Exec, u: Update, w1: World)
    requires Shape(w) && Flow(w) && Free(w) && !w.exec.value.pc.Exit?
    requires e.results == w.exec.value.results + [u] && e.owed == [] && e.pc.Recorded? && !Pending(u.state)
    requires CB.Loose(e.buf, w.job.items) && AllLoaded(Pipe(w), e) && u.ordinal <= e.buf.lastLoaded
    requires Ahead(w.exec.value, w.job.items) == Cat([u.ordinal], Named(CB.Rest(e.buf, w.job.items)))
    requires w1 == WithExec(w, e).(past := w.past.(concluded := w1.past.concluded))
    ensures Flow(w1) && Pipe(w1) == Cat(Pipe(w), [u])
  {
    RecordKeepsLine(w, e, u, w1);
    OneMoreResult(Pipe(w), u, e);
    FreeQueueOk(w.queue, w.exec.value, w.job.items, Pipe(w1), e);
  }

  /** What one step adds to the conclusions: nothing, or one, which in a whole life is the next item. */
  ghost predicate OneMore(w: World, w': World) {
    || (Front(w') == Front(w) && w'.past.concluded == w.past.concluded)
    || (Front(w') == Front(w) + 1 && |w'.past.concluded| == |w.past.concluded| + 1
        && (w.past.rejected == 0 ==> w'.past.concluded == w.past.concluded + [Front(w)]))
  }

  /** A concluded item moves the front by one. */
  lemma ConcludeIsOneMore(w: World, e: Exec, u: Update, slow: bool)
    requires Flow(w) && w.exec.Some? && -1 <= e.buf.lastLoaded
    requires Pipe(Conclude(w, e, u, slow)) == Cat(Pipe(w), [u])
    requires Ahead(w.exec.value, w.job.items) == Cat([u.ordinal], Named(CB.Rest(e.buf, w.job.items)))
    ensures OneMore(w, Conclude(w, e, u, slow))
  {
    HeadOfAhead(w, u.ordinal);
  }

  lemma ConcludeKeepsFlow(w: World, e: Exec, u: Update, slow: bool)
    requires Shape(w) && Flow(w) && Free(w) && !w.exec.value.pc.Exit?
    requires e.results == w.exec.value.results && e.owed == [] && !Pending(u.state)
    requires CB.Loose(e.buf, w.job.items) && AllLoaded(Pipe(w), e.(pc := Recorded)) && u.ordinal <= e.buf.lastLoaded
    requires Ahead(w.exec.value, w.job.items) == Cat([u.ordinal], Named(CB.Rest(e.buf, w.job.items)))
    ensures Flow(Conclude(w, e, u, slow)) && OneMore(w, Conclude(w, e, u, slow))
    ensures Pipe(Conclude(w, e, u, slow)) == Cat(Pipe(w), [u])
  {
    var e' := e.(pc := Recorded, results := e.results + [u]);
    var w0 := w.(past := w.past.(concluded := w.past.concluded + [u.ordinal]));
    RecordKeepsFlow(w, e', u, WithExec(w0, e'));
    if |e'.results| >= RESULT_BATCH || slow {
      SubmitKeepsFlow(w0, e', Main);
    }
    ConcludeIsOneMore(w, e, u, slow);
  }

  lemma NamedHead(cs: seq<CB.Candidate>)
    requires cs != []
    ensures Named(cs) == Cat([cs[0].ordinal], Named(cs[1..]))
  {
    if |cs| > 1 {
      assert Named(cs) == [cs[0].ordinal] + Named(cs[1..]);
    } else {
      assert Named(cs) == [cs[0].ordinal];
    }
  }

  /** What lies ahead depends on the candidate in hand and the rest of the buffer only. */
  lemma SameAhead(e: Exec, e': Exec, items: seq<Item>)
    requires !e.pc.Exit? && !e'.pc.Exit? && -1 <= e.buf.lastLoaded && -1 <= e'.buf.lastLoaded
    requires HandOf(e'.pc) == HandOf(e.pc) && CB.Rest(e'.buf, items) == CB.Rest(e.buf, items)
    ensures Ahead(e', items) == Ahead(e, items)
  {
  }

  lemma TopAhead(e: Exec, items: seq<Item>)
    requires e.pc.Top? && -1 <= e.buf.lastLoaded
    ensures Ahead(e, items) == Named(CB.Rest(e.buf, items))
  {
  }

  /** The head of the buffer's queue is the head of what lies ahead. */
  lemma PopTakesHead(w: World, c: CB.Candidate, e': Exec)
    requires Flow(w) && w.exec.Some? && w.exec.value.pc.Top? && w.exec.value.buf.queue != []
    requires c == w.exec.value.buf.queue[0] && e' == w.exec.value.(buf := CB.TakeHead(w.exec.value.buf))
    ensures CB.Loose(e'.buf, w.job.items) && e'.buf.lastLoaded == w.exec.value.buf.lastLoaded
    ensures c.ordinal <= e'.buf.lastLoaded
    ensures Ahead(w.exec.value, w.job.items) == Cat([c.ordinal], Named(CB.Rest(e'.buf, w.job.items)))
  {
    var b := w.exec.value.buf;
    TopAhead(w.exec.value, w.job.items);
    CB.TakeHeadRest(b, w.job.items);
    NamedHead(CB.Rest(b, w.job.items));
  }

  lemma PopUsableKeepsFlow(w: World, c: CB.Candidate, e': Exec)
    requires Shape(w) && Flow(w) && Free(w) && w.exec.value.pc.Top? && w.exec.value.buf.queue != []
    requires c == w.exec.value.buf.queue[0]
    requires e' == w.exec.value.(buf := CB.TakeHead(w.exec.value.buf), pc := Delay(Hand(c.ordinal, c.attempts, c.attempts, 0, 0)))
    ensures Flow(WithExec(w, e')) && Pipe(WithExec(w, e')) == Pipe(w)
  {
    PopTakesHead(w, c, e'.(pc := Top));
    TurnKeepsFlow(w, e');
  }

  lemma PopUnusableKeepsFlow(w: World, c: CB.Candidate, slow: bool)
    requires Shape(w) && Flow(w) && Free(w) && w.exec.value.pc.Top? && w.exec.value.buf.queue != []
    requires c == w.exec.value.buf.queue[0]
    ensures var e' := w.exec.value.(buf := CB.TakeHead(w.exec.value.buf));
      var w' := Conclude(w, e', Update(c.ordinal, ItemFailed, c.attempts), slow);
      Flow(w') && OneMore(w, w') && Pipe(w') == Cat(Pipe(w), [Update(c.ordinal, ItemFailed, c.attempts)])
  {
    var e' := w.exec.value.(buf := CB.TakeHead(w.exec.value.buf));
    PopTakesHead(w, c, e');
    ConcludeKeepsFlow(w, e', Update(c.ordinal, ItemFailed, c.attempts), slow);
  }

  lemma PopHeadKeepsFlow(w: World, usable: bool, slow: bool)
    requires Shape(w) && Flow(w) && Free(w) && w.exec.value.pc.Top? && w.exec.value.buf.queue != []
    ensures Flow(DoPop(w, usable, slow)) && OneMore(w, DoPop(w, usable, slow))
  {
    var c := w.exec.value.buf.queue[0];
    if usable {
      PopUsableKeepsFlow(w, c, DoPop(w, usable, slow).exec.value);
    } else {
      PopUnusableKeepsFlow(w, c, slow);
    }
  }

  /** The buffer moves on without changing what it will hand out. */
  lemma BufferKeepsFlow(w: World, b': CB.Buf)
    requires Shape(w) && Flow(w) && Free(w) && w.exec.value.pc.Top?
    requires CB.Loose(b', w.job.items) && w.exec.value.buf.lastLoaded <= b'.lastLoaded
    requires CB.Rest(b', w.job.items) == CB.Rest(w.exec.value.buf, w.job.items)
    ensures var w' := WithExec(w, w.exec.value.(buf := b')); Flow(w') && Pipe(w') == Pipe(w)
  {
    var e' := w.exec.value.(buf := b');
    SameAhead(w.exec.value, e', w.job.items);
    TurnKeepsFlow(w, e');
  }

  lemma LoopEndKeepsFlow(w: World)
    requires Shape(w) && Flow(w) && Free(w) && w.exec.value.pc.Top?
    requires w.exec.value.buf.queue == [] && w.exec.value.buf.exhausted
    ensures var w' := WithExec(w, w.exec.value.(pc := Finish, owed := [FlushFirst])); Flow(w') && Pipe(w') == Pipe(w)
  {
    var e' := w.exec.value.(pc := Finish, owed := [FlushFirst]);
    SameAhead(w.exec.value, e', w.job.items);
    TurnKeepsFlow(w, e');
  }

  lemma PopRestKeepsFlow(w: World, usable: bool, slow: bool)
    requires Shape(w) && Flow(w) && Free(w) && w.exec.value.pc.Top? && w.exec.value.buf.queue == []
    ensures Flow(DoPop(w, usable, slow)) && Pipe(DoPop(w, usable, slow)) == Pipe(w)
  {
    var b := w.exec.value.buf;
    if b.loading.Loaded? {
      CB.TakeRowsRest(b, w.job.items);
      BufferKeepsFlow(w, CB.TakeRows(b));
    } else if b.loading.NotLoading? && b.exhausted {
      LoopEndKeepsFlow(w);
    } else {
      CB.SubmitFillRest(b, w.job.items);
      BufferKeepsFlow(w, CB.SubmitFill(b));
    }
  }

  lemma DoPopKeepsFlow(w: World, usable: bool, slow: bool)
    requires Shape(w) && Flow(w)
    ensures Flow(DoPop(w, usable, slow)) && OneMore(w, DoPop(w, usable, slow))
  {
    if Free(w) && w.exec.value.pc.Top? {
      if w.exec.value.buf.queue != [] {
        PopHeadKeepsFlow(w, usable, slow);
      } else {
        PopRestKeepsFlow(w, usable, slow);
      }
    }
  }

  lemma PopKeepsFlow(w: World, usable: bool, slow: bool)
    requires Shape(w) && Flow(w)
    ensures Flow(Next(w, Pop(usable, slow))) && OneMore(w, Next(w, Pop(usable, slow)))
  {
    var w' := Next(w, Pop(usable, slow));
    assert w' == DoPop(w, usable, slow);
    assert Flow(w') && OneMore(w, w') by {
      DoPopKeepsFlow(w, usable, slow);
    }
  }

  lemma SendKeepsFlow(w: World)
    requires Shape(w) && Flow(w)
    ensures Flow(Next(w, Send)) && Pipe(Next(w, Send)) == Pipe(w)
  {
    if CanSend(w) {
      var e' := DoSend(w).exec.value;
      TurnKeepsFlow(w, e');
      FlowIgnoresLog(WithExec(w, e'), DoSend(w).past);
    }
  }

  /** Marking the candidate in hand RETRY is in order. */
  lemma RetryIsOk(w: World, h: Hand, row: Write, e': Exec)
    requires Flow(w) && w.exec.Some? && InHand(w.exec.value.pc) && w.exec.value.pc.hand.ordinal == h.ordinal
    requires row.SetState? && !Completes(row) && e'.owed == RetryWrites(h, row) && e'.buf == w.exec.value.buf
    ensures OwedOk(w.job.items, Pipe(w), e') && !OwedCompletes(e'.owed)
  {
    HandIsPending(w);
  }

  lemma WaitKeepsFlow(w: World, e': Exec, row: Write)
    requires Shape(w) && Flow(w) && Called(w)
    requires e'.pc.ServerWait? && e'.pc.hand == w.exec.value.pc.hand.(waits := w.exec.value.pc.hand.waits + 1)
    requires e' == w.exec.value.(pc := e'.pc, sched := e'.sched, owed := e'.owed)
    requires row.SetState? && !Completes(row) && e'.owed == RetryWrites(w.exec.value.pc.hand, row)
    ensures Flow(WithExec(w, e')) && Pipe(WithExec(w, e')) == Pipe(w)
  {
    RetryIsOk(w, w.exec.value.pc.hand, row, e');
    TurnKeepsFlow(w, e');
  }

  lemma HaltKeepsFlow(w: World, e': Exec, row: Write)
    requires Shape(w) && Flow(w) && Called(w)
    requires row.SetState? && !Completes(row)
    requires e' == w.exec.value.(pc := Exit, owed := RetryWrites(w.exec.value.pc.hand, row))
    ensures Flow(WithExec(w, e')) && Pipe(WithExec(w, e')) == Pipe(w)
  {
    RetryIsOk(w, w.exec.value.pc.hand, row, e');
    ExitKeepsFlow(w, e');
  }

  /** The candidate in hand is concluded. */
  lemma HandConcludes(w: World, e: Exec, state: ItemState, slow: bool)
    requires Shape(w) && Flow(w) && Free(w) && InHand(w.exec.value.pc) && !Pending(state)
    requires e == w.exec.value.(sched := e.sched)
    ensures var h := w.exec.value.pc.hand;
      var w' := Conclude(w, e, Update(h.ordinal, state, h.attempts), slow);
      Flow(w') && OneMore(w, w') && Pipe(w') == Cat(Pipe(w), [Update(h.ordinal, state, h.attempts)])
  {
    var h := w.exec.value.pc.hand;
    HandIsHead(w.exec.value, w.job.items);
    ConcludeKeepsFlow(w, e, Update(h.ordinal, state, h.attempts), slow);
  }

  /** A reply that does not conclude. */
  lemma ReplyHolds(w: World, v: A.Verdict, slow: bool)
    requires Shape(w) && Flow(w) && Called(w) && !v.Conclude?
    ensures Flow(DoReply(w, v, slow)) && Pipe(DoReply(w, v, slow)) == Pipe(w)
  {
    var h := w.exec.value.pc.hand;
    var e' := DoReply(w, v, slow).exec.value;
    if v.WaitFor? {
      var until := w.now + v.seconds as real;
      WaitKeepsFlow(w, e', SetState(WaitingServer, Some(until), Some(Behind(h.ordinal)), false));
    } else if v.BackOff? {
      TurnKeepsFlow(w, e');
    } else {
      var state := if v.HaltPaused? then Paused else RateLimited;
      HaltKeepsFlow(w, e', SetState(state, None, Some(Behind(h.ordinal)), false));
    }
  }

  lemma ReplyKeepsFlow(w: World, v: A.Verdict, slow: bool)
    requires Shape(w) && Flow(w)
    requires v.Conclude? ==> !Pending(v.state)
    ensures Flow(DoReply(w, v, slow)) && OneMore(w, DoReply(w, v, slow))
  {
    if Called(w) {
      if v.Conclude? {
        var e := w.exec.value;
        HandConcludes(w, e.(sched := S.MarkStable(e.sched, w.now)), v.state, slow);
      } else {
        ReplyHolds(w, v, slow);
      }
    }
  }

  lemma DoWakeKeepsFlow(w: World, slow: bool)
    requires Shape(w) && Flow(w)
    ensures Flow(DoWake(w, slow)) && OneMore(w, DoWake(w, slow))
  {
    if DoWake(w, slow) != w {
      var e := w.exec.value;
      if e.pc.Backoff? && e.pc.hand.transient >= |TRANSIENT_DELAYS| {
        HandConcludes(w, e, ItemFailed, slow);
      } else {
        TurnKeepsFlow(w, DoWake(w, slow).exec.value);
      }
    }
  }

  lemma WakeKeepsFlow(w: World, slow: bool)
    requires Shape(w) && Flow(w)
    ensures Flow(Next(w, Wake(slow))) && OneMore(w, Next(w, Wake(slow)))
  {
    DoWakeKeepsFlow(w, slow);
  }

  lemma ObserveKeepsFlow(w: World, c: Control)
    requires Shape(w) && Flow(w)
    ensures Flow(Next(w, Observe(c))) && Pipe(Next(w, Observe(c))) == Pipe(w)
  {
    if DoObserve(w, c) != w {
      ExitKeepsFlow(w, DoObserve(w, c).exec.value);
    }
  }

  lemma ScheduleKeepsFlow(w: World)
    requires Shape(w) && Flow(w)
    ensures Flow(Next(w, Schedule)) && Pipe(Next(w, Schedule)) == Pipe(w)
  {
    if Free(w) && w.exec.value.pc.Recorded? {
      TurnKeepsFlow(w, DoSchedule(w).exec.value);
    }
  }

  /** The run has nothing ahead and says so. */
  lemma SummarizeKeepsFlow(w: World)
    requires Shape(w) && Flow(w)
    ensures Flow(Next(w, Summarize)) && Pipe(Next(w, Summarize)) == Pipe(w)
  {
    if Free(w) && w.exec.value.pc.Finish? {
      var e := w.exec.value;
      var e' := DoSummarize(w).exec.value;
      FreeQueueOk(w.queue, e, w.job.items, Pipe(w), e');
      assert Ahead(e, w.job.items) == [];
      assert e'.owed[0].Put? && Completes(e'.owed[0].write);
      assert LineOf(DoSummarize(w)) == LineOf(w);
    }
  }

  // ------------------------------------------------------------------------------------------
  // Launching, planning, ending
  // ------------------------------------------------------------------------------------------

  /** A new run has every pending item ahead. */
  lemma LaunchKeepsFlow(w: World, interval: real)
    requires Shape(w) && Flow(w)
    ensures Flow(Next(w, Launch(interval))) && Pipe(Next(w, Launch(interval))) == Pipe(w)
  {
    if Launchable(w) && S.Create(interval).Some? {
      var w' := DoLaunch(w, interval);
      var e := w'.exec.value;
      assert LineOf(w) == [];
      NewLine(w.job, w.past.missed, Full(w), w.past.rejected == 0);
      NewRunLine(w', e);
    }
  }

  /** The line of a run with a new buffer. */
  lemma NewRunLine(w: World, e: Exec)
    requires w.exec == Some(e) && e.pc.Top? && e.buf == CB.New(PREFETCH_MIN) && e.results == [] && w.queue == []
    ensures Pipe(w) == [] && LineOf(w) == Named(CB.PendingFrom(w.job.items, 0)) && CB.Loose(e.buf, w.job.items)
  {
    CB.NewRest(PREFETCH_MIN, w.job.items);
    TopAhead(e, w.job.items);
  }

  lemma WorkerReadsKeepsFlow(w: World)
    requires Flow(w)
    ensures Flow(Next(w, WorkerReads)) && Pipe(Next(w, WorkerReads)) == Pipe(w)
  {
    var w' := DoWorkerReads(w);
    if w' != w {
      ReadKeepsAhead(w.exec.value, w'.exec.value, w.job.items);
      ReadKeepsExec(w.job.items, w.queue, Pipe(w), w.exec.value, w'.exec.value);
      assert LineOf(w') == LineOf(w);
    }
  }

  lemma ReadKeepsAhead(e: Exec, e': Exec, items: seq<Item>)
    requires -1 <= e.buf.lastLoaded && e' == e.(buf := CB.WorkerRead(e.buf, items))
    requires !e.pc.Exit? ==> CB.Loose(e.buf, items)
    ensures Ahead(e', items) == Ahead(e, items) && (!e.pc.Exit? ==> CB.Loose(e'.buf, items))
  {
    if !e.pc.Exit? {
      CB.WorkerReadRest(e.buf, items);
      SameAhead(e, e', items);
    }
  }

  lemma ReadKeepsExec(items: seq<Item>, queue: seq<Sent>, pipe: seq<Update>, e: Exec, e': Exec)
    requires ExecFlow(items, queue, pipe, e) && -1 <= e.buf.lastLoaded && e' == e.(buf := CB.WorkerRead(e.buf, items))
    requires !e.pc.Exit? ==> CB.Loose(e'.buf, items)
    ensures ExecFlow(items, queue, pipe, e')
  {
  }

  lemma TimerEndsKeepsFlow(w: World)
    requires Flow(w)
    ensures Flow(Next(w, TimerEnds)) && Pipe(Next(w, TimerEnds)) == Pipe(w)
  {
    if DoTimerEnds(w) != w {
      SameRunKeepsFlow(w, w.exec.value, DoTimerEnds(w).exec.value);
    }
  }

  /** Without items nothing is in line. */
  lemma NoItemsNoLine(w: World)
    requires Flow(w) && w.job.items == []
    ensures LineOf(w) == [] && w.past.missed == {} && Pipe(w) == []
    ensures w.exec.Some? ==> Ahead(w.exec.value, []) == []
  {
    NoItems(w.job, LineOf(w), w.past.missed, Full(w), w.past.rejected == 0);
  }

  /** A run that has not read yet will read the new items. */
  lemma UnreadBuffer(e: Exec, items: seq<Item>)
    requires CB.Loose(e.buf, []) && !e.pc.Exit? && Ahead(e, []) == [] && !CB.Spent(e.buf)
    ensures CB.Loose(e.buf, items) && Ahead(e, items) == Named(CB.PendingFrom(items, 0))
  {
    assert Named(CB.Rest(e.buf, [])) == [];
    assert |CB.Rest(e.buf, [])| == 0;
    assert CB.PendingFrom([], 0) == [];
    assert e.buf.queue == [];
    assert e.buf.lastLoaded == -1;
    assert CB.Rest(e.buf, items) == CB.PendingFrom(items, 0);
  }

  /** Items that come too late for the run. */
  lemma LateItemsKeepFlow(w: World, w': World)
    requires Shape(w) && Flow(w) && w.planning && w.stage.Created? && w.job.items == [] && Noticed(w) && w' == DoPlan(w)
    ensures Flow(w') && Pipe(w') == Pipe(w)
  {
    NoItemsNoLine(w);
    AddedArePending(w.job, w.past.count);
    AddedTooLate(w.job, w.past.count, w.past.missed, Full(w), w.past.rejected == 0);
    if w.exec.Some? {
      SpentAhead(w.exec.value, w'.job.items);
    }
    assert LineOf(w') == [];
  }

  /** A spent buffer will not see new items. */
  lemma SpentAhead(e: Exec, items: seq<Item>)
    requires Ahead(e, []) == [] && (e.pc.Exit? || (CB.Spent(e.buf) && CB.Loose(e.buf, [])))
    ensures Ahead(e, items) == [] && (!e.pc.Exit? ==> CB.Loose(e.buf, items))
  {
    if !e.pc.Exit? {
      assert |Cat(HandOf(e.pc), Named(e.buf.queue))| == 0;
    }
  }

  /** Items added while nobody looks. */
  lemma IdleItemsKeepFlow(w: World, w': World)
    requires Shape(w) && Flow(w) && w.planning && w.stage.Created? && w.job.items == [] && !Noticed(w) && w' == DoPlan(w)
    requires w.exec.Some? ==> w.exec.value.pc.Exit?
    ensures Flow(w') && Pipe(w') == Pipe(w)
  {
    NoItemsNoLine(w);
    AddedArePending(w.job, w.past.count);
    AddedInTime(w.job, w.past.count, w.past.missed, Full(w), w.past.rejected == 0);
    assert LineOf(w') == [];
    assert w.exec.Some? ==> ExecFlow(w.job.items, w.queue, Pipe(w), w.exec.value);
    assert !Full(w');
  }

  /** Items the run has yet to read. */
  lemma FreshItemsKeepFlow(w: World, w': World)
    requires Shape(w) && Flow(w) && w.planning && w.stage.Created? && w.job.items == [] && !Noticed(w) && w' == DoPlan(w)
    requires w.exec.Some? && !w.exec.value.pc.Exit?
    ensures Flow(w') && Pipe(w') == Pipe(w)
  {
    NoItemsNoLine(w);
    AddedArePending(w.job, w.past.count);
    AddedInTime(w.job, w.past.count, w.past.missed, Full(w), w.past.rejected == 0);
    UnreadBuffer(w.exec.value, w'.job.items);
    assert LineOf(w') == Named(CB.PendingFrom(w'.job.items, 0));
  }

  lemma AddItemsKeepsFlow(w: World)
    requires Shape(w) && Flow(w) && w.planning && w.stage.Created?
    ensures Flow(DoPlan(w)) && Pipe(DoPlan(w)) == Pipe(w) && DoPlan(w).job.row.processed == w.job.row.processed
  {
    if Noticed(w) {
      LateItemsKeepFlow(w, DoPlan(w));
    } else if w.exec.Some? && !w.exec.value.pc.Exit? {
      FreshItemsKeepFlow(w, DoPlan(w));
    } else {
      IdleItemsKeepFlow(w, DoPlan(w));
    }
  }

  lemma PlanKeepsFlow(w: World)
    requires Shape(w) && Flow(w)
    ensures Flow(Next(w, PlanNext)) && Pipe(Next(w, PlanNext)) == Pipe(w) && Front(Next(w, PlanNext)) == Front(w)
  {
    if w.planning && w.stage.Created? {
      AddItemsKeepsFlow(w);
    } else {
      OtherPlansKeepFlow(w);
    }
  }

  lemma OtherPlansKeepFlow(w: World)
    requires Flow(w) && !(w.planning && w.stage.Created?)
    ensures Flow(DoPlan(w)) && Pipe(DoPlan(w)) == Pipe(w) && Front(DoPlan(w)) == Front(w)
  {
    var w' := DoPlan(w);
    assert w'.job.items == w.job.items && Pipe(w') == Pipe(w) && LineOf(w') == LineOf(w);
    assert Ledger(w'.job, LineOf(w'), w'.past.missed, Full(w'), w'.past.rejected == 0);
  }

  /** Nothing is in line in a completed job. */
  lemma EndedHasNoLine(w: World)
    requires Shape(w) && Flow(w) && Ended(w.job.row.state)
    ensures LineOf(w) == []
  {
  }

  lemma LeaveKeepsFlow(w: World)
    requires Shape(w) && Flow(w)
    ensures Flow(Next(w, Leave)) && Pipe(Next(w, Leave)) == Pipe(w)
  {
    if DoLeave(w) != w {
      LeaveKeepsShape(w);
      assert Pipe(w) == [];
      assert LineOf(DoLeave(w)) == LineOf(w);
    }
  }

  /** A crash loses the pipe and what lies ahead, and nothing else. */
  lemma CrashKeepsFlow(w: World)
    requires Shape(w) && Flow(w)
    ensures Flow(Next(w, Crash)) && Pipe(Next(w, Crash)) == []
  {
    var w' := DoCrash(w);
    assert LineOf(w') == [];
    if Ended(w.job.row.state) {
      EndedHasNoLine(w);
    } else {
      LetGo(w.job, [], LineOf(w), w.past.missed, Full(w), w.past.rejected == 0);
    }
  }

  lemma DoRestartKeepsFlow(w: World)
    requires Shape(w) && Flow(w)
    ensures Flow(DoRestart(w)) && Pipe(DoRestart(w)) == Pipe(w)
    ensures DoRestart(w).job.row.processed == w.job.row.processed
  {
    assert LineOf(DoRestart(w)) == LineOf(w);
  }

  lemma RestartKeepsFlow(w: World)
    requires Shape(w) && Flow(w)
    ensures Flow(Next(w, Restart)) && Pipe(Next(w, Restart)) == Pipe(w) && Front(Next(w, Restart)) == Front(w)
  {
    DoRestartKeepsFlow(w);
  }

  // ------------------------------------------------------------------------------------------
  // Every step
  // ------------------------------------------------------------------------------------------

  /** The steps of the main coroutine that conclude nothing. */
  lemma MainKeepsFlow(w: World, s: Step)
    requires Shape(w) && Flow(w)
    requires s.Observe? || s.Send? || s.Schedule? || s.Summarize? || s.Leave?
    ensures Flow(Next(w, s)) && Pipe(Next(w, s)) == Pipe(w)
  {
    if s.Observe? {
      ObserveKeepsFlow(w, s.control);
    } else if s.Send? {
      SendKeepsFlow(w);
    } else {
      LastStepsKeepFlow(w, s);
    }
  }

  lemma LastStepsKeepFlow(w: World, s: Step)
    requires Shape(w) && Flow(w) && (s.Schedule? || s.Summarize? || s.Leave?)
    ensures Flow(Next(w, s)) && Pipe(Next(w, s)) == Pipe(w)
  {
    if s.Schedule? {
      ScheduleKeepsFlow(w);
    } else if s.Summarize? {
      SummarizeKeepsFlow(w);
    } else {
      LeaveKeepsFlow(w);
    }
  }

  lemma TickKeepsFlow(w: World, dt: real)
    requires Flow(w)
    ensures Flow(Next(w, Tick(dt))) && Pipe(Next(w, Tick(dt))) == Pipe(w)
  {
    assert LineOf(Next(w, Tick(dt))) == LineOf(w);
  }

  /** The steps that may conclude an item. */
  predicate Concludes(s: Step) {
    s.Pop? || s.Reply? || s.Wake?
  }

  lemma ConcludingKeepsFlow(w: World, s: Step)
    requires Shape(w) && Flow(w) && Concludes(s)
    ensures Flow(Next(w, s)) && OneMore(w, Next(w, s))
  {
    if s.Pop? {
      PopKeepsFlow(w, s.usable, s.slow);
    } else if s.Reply? {
      ReplyStepKeepsFlow(w, s);
    } else {
      WakeKeepsFlow(w, s.slow);
    }
  }

  lemma ReplyStepKeepsFlow(w: World, s: Step)
    requires Shape(w) && Flow(w) && s.Reply?
    ensures Flow(Next(w, s)) && OneMore(w, Next(w, s))
  {
    var w' := Next(w, s);
    assert w' == DoReply(w, A.Decide(s.reply), s.slow);
    assert Flow(w') && OneMore(w, w') by {
      ReplyKeepsFlow(w, A.Decide(s.reply), s.slow);
    }
  }

  /** The steps between the lanes and the table. */
  predicate OfLanes(s: Step) {
    s.CommitNext? || s.TimerFires? || s.TimerEnds? || s.WorkerReads? || s.MainWrites?
  }

  lemma LanesKeepFlow(w: World, s: Step)
    requires Shape(w) && Flow(w) && OfLanes(s)
    ensures Flow(Next(w, s)) && Front(Next(w, s)) == Front(w)
    ensures !s.CommitNext? ==> Pipe(Next(w, s)) == Pipe(w)
  {
    if s.CommitNext? {
      CommitKeepsFlow(w);
    } else if s.TimerFires? {
      TimerFiresKeepsFlow(w);
    } else if s.MainWrites? {
      MainWritesKeepsFlow(w);
    } else {
      BackgroundKeepsFlow(w, s);
    }
  }

  lemma BackgroundKeepsFlow(w: World, s: Step)
    requires Flow(w) && (s.TimerEnds? || s.WorkerReads?)
    ensures Flow(Next(w, s)) && Pipe(Next(w, s)) == Pipe(w) && Front(Next(w, s)) == Front(w)
  {
    if s.TimerEnds? {
      TimerEndsKeepsFlow(w);
    } else {
      WorkerReadsKeepsFlow(w);
    }
  }

  /** The steps around a run. */
  predicate Around(s: Step) {
    s.Tick? || s.PlanNext? || s.Launch? || s.Restart?
  }

  lemma AroundKeepsFlow(w: World, s: Step)
    requires Shape(w) && Flow(w) && Around(s)
    ensures Flow(Next(w, s)) && Pipe(Next(w, s)) == Pipe(w) && Front(Next(w, s)) == Front(w)
  {
    if s.Tick? {
      TickKeepsFlow(w, s.dt);
    } else if s.PlanNext? {
      PlanKeepsFlow(w);
    } else if s.Launch? {
      LaunchKeepsFlow(w, s.interval);
    } else {
      RestartKeepsFlow(w);
    }
  }

  /** Every step keeps every item accounted for. */
  lemma NextKeepsFlow(w: World, s: Step)
    requires Shape(w) && Flow(w)
    ensures Flow(Next(w, s))
  {
    if Concludes(s) {
      ConcludingKeepsFlow(w, s);
    } else if OfLanes(s) {
      LanesKeepFlow(w, s);
    } else if Around(s) {
      AroundKeepsFlow(w, s);
    } else if s.Crash? {
      CrashKeepsFlow(w);
    } else if s.RejectNext? {
      RejectKeepsFlow(w);
    } else {
      MainKeepsFlow(w, s);
    }
  }
}
