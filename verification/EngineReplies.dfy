/**
 What the table says about an item against what was heard of it.  The words a life hears are read off its steps: every
 reply of the server to an outstanding RPC, and every candidate popped without its keys.  An item's result, durable or
 on its way, is the one its last word deserves.
 */
module EngineReplies {
  import opened Core
  import opened JobStore
  import opened Engine
  import opened EngineShape
  import opened EngineLedger
  import opened EngineFlow
  import EngineRuns
  import A = Attempt
  import CB = CandidateBuffer
  import L = Lifecycle
  import S = Scheduler

  /** What is heard of a candidate: that it lacks its keys, or the server's reply. */
  datatype Word = Keyless | Said(reply: Option<A.Exc>)

  /** The word, the attempts counted by then, and the transient failures of this run before it. */
  datatype Heard = Heard(ordinal: nat, attempts: nat, earlier: nat, word: Word)

  predicate AtTop(w: World) {
    Free(w) && w.exec.value.pc.Top? && w.exec.value.buf.queue != []
  }

  /** What one step makes known. */
  function HeardIn(w: World, s: Step): seq<Heard> {
    if s.Reply? && Called(w) then
      var h := w.exec.value.pc.hand;
      [Heard(h.ordinal, h.attempts, h.transient, Said(s.reply))]
    else if s.Pop? && AtTop(w) && !s.usable then
      var c := w.exec.value.buf.queue[0];
      [Heard(c.ordinal, c.attempts, 0, Keyless)]
    else []
  }

  /** Everything a life hears, in order. */
  function Hears(w: World, steps: seq<Step>): seq<Heard> {
    if steps == [] then []
    else
      var k := |steps| - 1;
      Hears(w, steps[..k]) + HeardIn(Run(w, steps[..k]), steps[k])
  }

  /** The last thing heard of an item. */
  function LastWord(hs: seq<Heard>, o: nat): Option<Heard> {
    if hs == [] then None
    else if hs[|hs| - 1].ordinal == o then Some(hs[|hs| - 1])
    else LastWord(hs[..|hs| - 1], o)
  }

  /** The exception is about this user. */
  ghost predicate Personal(e: A.Exc) {
    !e.rate && (e.privacy || e.already || e.notEligible || (!e.permission && !e.auth && e.invalid))
  }

  /** It is none of the user's, the limit's or the account's business, and may pass. */
  ghost predicate Passing(e: A.Exc) {
    !e.rate && !Personal(e) && !e.permission && !e.auth && (e.connection || e.server)
  }

  /** ... or will not. */
  ghost predicate Lasting(e: A.Exc) {
    !e.rate && !Personal(e) && !e.permission && !e.auth && !e.connection && !e.server
  }

  /**
   The result a word deserves: SUCCESS without exception, SKIPPED for an exception about the user, FAILED for any other
   that is no limit and not about the account, a passing one only the third time, and FAILED without keys.
   */
  ghost predicate Deserved(h: Heard, state: ItemState) {
    match h.word
    case Keyless => state == ItemFailed
    case Said(None) => state == ItemSuccess
    case Said(Some(e)) =>
      || (state == ItemSkipped && Personal(e))
      || (state == ItemFailed && (Lasting(e) || (Passing(e) && h.earlier == 2)))
  }

  /** The result is the one the last word on its item deserves, with the attempts counted by then. */
  ghost predicate Justified(hs: seq<Heard>, u: Update) {
    && LastWord(hs, u.ordinal).Some?
    && u.attempts == LastWord(hs, u.ordinal).value.attempts
    && Deserved(LastWord(hs, u.ordinal).value, u.state)
  }

  // ------------------------------------------------------------------------------------------
  // What one reply does
  // ------------------------------------------------------------------------------------------

  /** The writes owed for a candidate that is kept for later: what is buffered, its attempts, then the row. */
  ghost predicate KeptForLater(e: Exec, h: Hand, state: JobState, until: Option<real>) {
    e.owed == [
      FlushFirst,
      Put(MarkRetry(h.ordinal, h.attempts)),
      Put(SetState(state, until, Some(Checkpoint(None, Some(h.ordinal - 1), false)), false))]
  }

  /** A reply that keeps the candidate: nothing is concluded. */
  ghost predicate Keeps(w: World, w': World, e: A.Exc)
    requires Called(w)
  {
    w'.exec.Some? && Pipe(w') == Pipe(w) && w'.past == w.past && KeepsInHand(w.exec.value, w'.exec.value, w.now, e)
  }

  /** Where the run stands then and what it owes. */
  ghost predicate KeepsInHand(x: Exec, x': Exec, now: real, e: A.Exc)
    requires x.pc.Calling?
  {
    var h := x.pc.hand;
    var wait := if e.seconds.Some? then e.seconds else e.value;
    && (e.rate && wait.Some? && wait.value > 0 ==>
          && x'.pc == ServerWait(h.(waits := h.waits + 1))
          && KeptForLater(x', h, WaitingServer, Some(now + wait.value as real))
          && x'.sched == S.ApplyServerWait(x.sched, now, wait.value as real))
    && (e.rate && !(wait.Some? && wait.value > 0) ==> x'.pc == Exit && KeptForLater(x', h, RateLimited, None))
    && (!e.rate && !Personal(e) && (e.permission || e.auth) ==> x'.pc == Exit && KeptForLater(x', h, Paused, None))
    && (Passing(e) ==> x'.pc == Backoff(h.(transient := h.transient + 1)) && x'.owed == [] && x'.sched == x.sched)
  }

  /** The candidate's result joins the pipe and the run goes on; the scheduler is told of a stable candidate. */
  ghost predicate Records(w: World, w': World, state: ItemState)
    requires Called(w)
  {
    var h := w.exec.value.pc.hand;
    && Pipe(w') == Cat(Pipe(w), [Update(h.ordinal, state, h.attempts)])
    && w'.past.concluded == w.past.concluded + [h.ordinal]
    && w'.exec.Some? && w'.exec.value.pc == Recorded && w'.exec.value.owed == []
    && w'.exec.value.sched == S.MarkStable(w.exec.value.sched, w.now)
  }

  lemma ReplyRecords(w: World, reply: Option<A.Exc>, slow: bool)
    requires Shape(w) && Flow(w) && Called(w) && A.Decide(reply).Conclude?
    ensures Records(w, Next(w, Reply(reply, slow)), A.Decide(reply).state)
  {
    var e := w.exec.value.(sched := S.MarkStable(w.exec.value.sched, w.now));
    HandRecorded(w, e, A.Decide(reply).state, slow);
    RecordedReply(w, reply, slow);
  }

  lemma RecordedReply(w: World, reply: Option<A.Exc>, slow: bool)
    requires Called(w) && A.Decide(reply).Conclude?
    requires
      var e := w.exec.value.(sched := S.MarkStable(w.exec.value.sched, w.now));
      var u := Update(e.pc.hand.ordinal, A.Decide(reply).state, e.pc.hand.attempts);
      Records(w, Conclude(w, e, u, slow), A.Decide(reply).state)
    ensures Records(w, Next(w, Reply(reply, slow)), A.Decide(reply).state)
  {
    ReplyConcludes(w, A.Decide(reply), slow);
    assert Next(w, Reply(reply, slow)) == DoReply(w, A.Decide(reply), slow);
  }

  /** A deciding reply, as the step it is. */
  lemma ReplyConcludes(w: World, v: A.Verdict, slow: bool)
    requires Called(w) && v.Conclude?
    ensures var e := w.exec.value;
      DoReply(w, v, slow)
      == Conclude(w, e.(sched := S.MarkStable(e.sched, w.now)),
                  Update(e.pc.hand.ordinal, v.state, e.pc.hand.attempts), slow)
  {
  }

  lemma HandRecorded(w: World, e: Exec, state: ItemState, slow: bool)
    requires Shape(w) && Flow(w) && Called(w) && !Pending(state)
    requires e == w.exec.value.(sched := S.MarkStable(w.exec.value.sched, w.now))
    ensures var h := w.exec.value.pc.hand;
      Records(w, Conclude(w, e, Update(h.ordinal, state, h.attempts), slow), state)
  {
    var h := w.exec.value.pc.hand;
    HandConcludes(w, e, state, slow);
    RunAfterConclude(w, e, Update(h.ordinal, state, h.attempts), slow);
  }

  /** The run after a result has joined the buffer, flushed at once or not. */
  lemma RunAfterConclude(w: World, e: Exec, u: Update, slow: bool)
    requires e.owed == []
    ensures var w' := Conclude(w, e, u, slow);
      && w'.past.concluded == w.past.concluded + [u.ordinal]
      && w'.exec.Some? && w'.exec.value.pc == Recorded && w'.exec.value.owed == [] && w'.exec.value.sched == e.sched
  {
  }

  lemma ReplyKeepsCandidate(w: World, e: A.Exc, slow: bool)
    requires Shape(w) && Flow(w) && Called(w) && !A.Decide(Some(e)).Conclude?
    ensures Keeps(w, Next(w, Reply(Some(e), slow)), e)
  {
    ReplyHolds(w, A.Decide(Some(e)), slow);
    HeldKeeps(w, e, slow);
  }

  lemma HeldKeeps(w: World, e: A.Exc, slow: bool)
    requires Called(w) && !A.Decide(Some(e)).Conclude?
    requires Pipe(DoReply(w, A.Decide(Some(e)), slow)) == Pipe(w)
    ensures Keeps(w, Next(w, Reply(Some(e), slow)), e)
  {
    HeldRun(w, A.Decide(Some(e)), slow);
    HeldInHand(w, e, A.Decide(Some(e)), slow);
    assert Next(w, Reply(Some(e), slow)) == DoReply(w, A.Decide(Some(e)), slow);
  }

  lemma HeldRun(w: World, v: A.Verdict, slow: bool)
    requires Called(w) && !v.Conclude?
    ensures DoReply(w, v, slow).exec.Some? && DoReply(w, v, slow).past == w.past
  {
  }

  lemma HeldInHand(w: World, e: A.Exc, v: A.Verdict, slow: bool)
    requires Called(w) && v == A.Decide(Some(e)) && !v.Conclude?
    ensures DoReply(w, v, slow).exec.Some?
    ensures KeepsInHand(w.exec.value, DoReply(w, v, slow).exec.value, w.now, e)
  {
    A.ReplyMeaning(e);
  }

  /** What a reply to an outstanding RPC does, by what its exception carries. */
  ghost predicate Answered(w: World, w': World, reply: Option<A.Exc>)
    requires Called(w)
  {
    match reply
    case None => Records(w, w', ItemSuccess)
    case Some(e) =>
      && (Personal(e) ==> Records(w, w', ItemSkipped))
      && (Lasting(e) ==> Records(w, w', ItemFailed))
      && (!Personal(e) && !Lasting(e) ==> Keeps(w, w', e))
  }

  lemma ReplyAnswers(w: World, reply: Option<A.Exc>, slow: bool)
    requires Shape(w) && Flow(w) && Called(w)
    ensures Answered(w, Next(w, Reply(reply, slow)), reply)
  {
    if reply.Some? {
      A.ReplyMeaning(reply.value);
    }
    if A.Decide(reply).Conclude? {
      ReplyRecords(w, reply, slow);
    } else {
      ReplyKeepsCandidate(w, reply.value, slow);
    }
  }

  /** Wherever in its life a job is: what the reply to an outstanding RPC does, by what its exception carries. */
  lemma EveryReplyIsAnswered(
    n: nat, planned: Action, lookup: L.Lookup, now: real, steps: seq<Step>, reply: Option<A.Exc>, slow: bool)
    requires Called(Run(Init(n, planned, lookup, now), steps))
    ensures var w := Run(Init(n, planned, lookup, now), steps);
      Answered(w, Next(w, Reply(reply, slow)), reply)
  {
    EngineRuns.ReachableIsSound(n, planned, lookup, now, steps);
    ReplyAnswers(Run(Init(n, planned, lookup, now), steps), reply, slow);
  }

  /** More than two seconds have passed since the last flush, as far as this step can tell. */
  predicate Overdue(s: Step) {
    (s.Pop? || s.Reply? || s.Wake?) && s.slow
  }

  /**
   Every result is flushed in time: the step that concludes an item submits all results, and awaits them, if there are
   twenty now or the last flush is overdue; otherwise it adds its result to the buffer and submits nothing.
   */
  lemma EveryResultIsFlushedInTime(n: nat, planned: Action, lookup: L.Lookup, now: real, steps: seq<Step>, s: Step)
    requires var w := Run(Init(n, planned, lookup, now), steps);
      |Next(w, s).past.concluded| > |w.past.concluded|
    ensures var w := Run(Init(n, planned, lookup, now), steps);
      var w' := Next(w, s);
      && w.exec.Some? && w'.exec.Some? && |w.exec.value.results| < 20
      && (|w.exec.value.results| == 19 || Overdue(s) ==>
            w'.exec.value.results == [] && |w'.queue| == |w.queue| + 1 && Busy(w'.queue, Main))
      && (|w.exec.value.results| < 19 && !Overdue(s) ==>
            w'.queue == w.queue && |w'.exec.value.results| == |w.exec.value.results| + 1)
  {
    EngineRuns.ReachableIsSound(n, planned, lookup, now, steps);
    ConclusionIsFlushed(Run(Init(n, planned, lookup, now), steps), s);
  }

  ghost predicate Flushed(w: World, w': World, slow: bool) {
    && w.exec.Some? && w'.exec.Some? && |w.exec.value.results| < 20
    && (|w.exec.value.results| == 19 || slow ==>
          w'.exec.value.results == [] && |w'.queue| == |w.queue| + 1 && Busy(w'.queue, Main))
    && (|w.exec.value.results| < 19 && !slow ==>
          w'.queue == w.queue && |w'.exec.value.results| == |w.exec.value.results| + 1)
  }

  lemma ConcludeFlushes(w: World, e: Exec, u: Update, slow: bool)
    requires Shape(w) && w.exec.Some? && e.results == w.exec.value.results
    ensures Flushed(w, Conclude(w, e, u, slow), slow)
  {
    var w' := Conclude(w, e, u, slow);
    if |e.results| == 19 || slow {
      assert w'.queue[|w.queue|].lane == Main;
    }
  }

  lemma ConclusionIsFlushed(w: World, s: Step)
    requires Shape(w) && |Next(w, s).past.concluded| > |w.past.concluded|
    ensures Flushed(w, Next(w, s), Overdue(s))
  {
    if !Concludes(s) {
      OnlyThreeConclude(w, s);
    } else if s.Pop? {
      var e := w.exec.value;
      var c := e.buf.queue[0];
      ConcludeFlushes(w, e.(buf := CB.TakeHead(e.buf)), Update(c.ordinal, ItemFailed, c.attempts), s.slow);
    } else if s.Reply? {
      ReplyIsFlushed(w, A.Decide(s.reply), s.slow);
    } else {
      var h := w.exec.value.pc.hand;
      ConcludeFlushes(w, w.exec.value, Update(h.ordinal, ItemFailed, h.attempts), s.slow);
    }
  }

  lemma OnlyThreeConclude(w: World, s: Step)
    requires !Concludes(s)
    ensures Next(w, s).past.concluded == w.past.concluded
  {
  }

  lemma ReplyIsFlushed(w: World, v: A.Verdict, slow: bool)
    requires Shape(w) && |DoReply(w, v, slow).past.concluded| > |w.past.concluded|
    ensures Flushed(w, DoReply(w, v, slow), slow)
  {
    var e := w.exec.value;
    ConcludeFlushes(w, e.(sched := S.MarkStable(e.sched, w.now)), Update(e.pc.hand.ordinal, v.state, e.pc.hand.attempts), slow);
  }

  // ------------------------------------------------------------------------------------------
  // Words and results
  // ------------------------------------------------------------------------------------------

  ghost predicate PipeJustified(hs: seq<Heard>, pipe: seq<Update>) {
    forall k :: 0 <= k < |pipe| ==> Justified(hs, pipe[k])
  }

  /** The result an item has in the table. */
  function ResultOf(items: seq<Item>, x: nat): Update
    requires x < |items|
  {
    Update(x, items[x].state, items[x].attempts)
  }

  ghost predicate TableJustified(hs: seq<Heard>, items: seq<Item>) {
    forall x: nat :: x < |items| && !Pending(items[x].state) ==> Justified(hs, ResultOf(items, x))
  }

  /** A back-off was caused by a passing exception. */
  ghost predicate BackoffHeard(hs: seq<Heard>, pc: Pc) {
    pc.Backoff? ==>
      var last := LastWord(hs, pc.hand.ordinal);
      && last.Some? && last.value.attempts == pc.hand.attempts && last.value.earlier + 1 == pc.hand.transient
      && last.value.word.Said? && last.value.word.reply.Some? && Passing(last.value.word.reply.value)
  }

  ghost predicate AllJustified(hs: seq<Heard>, w: World) {
    && PipeJustified(hs, Pipe(w))
    && TableJustified(hs, w.job.items)
    && (w.exec.Some? ==> BackoffHeard(hs, w.exec.value.pc))
  }

  lemma LastWordAfter(hs: seq<Heard>, h: Heard, o: nat)
    ensures LastWord(hs + [h], o) == if h.ordinal == o then Some(h) else LastWord(hs, o)
  {
    assert (hs + [h])[..|hs|] == hs;
  }

  /** A word on an item without result disturbs no other. */
  lemma WordOnPending(hs: seq<Heard>, h: Heard, pipe: seq<Update>, items: seq<Item>)
    requires PipeJustified(hs, pipe) && TableJustified(hs, items)
    requires h.ordinal !in Ordinals(pipe) && IsPending(items, h.ordinal)
    ensures PipeJustified(hs + [h], pipe) && TableJustified(hs + [h], items)
  {
    forall k | 0 <= k < |pipe|
      ensures Justified(hs + [h], pipe[k])
    {
      assert Ordinals(pipe)[k] in Ordinals(pipe);
      LastWordAfter(hs, h, pipe[k].ordinal);
    }
    forall x: nat | x < |items| && !Pending(items[x].state)
      ensures Justified(hs + [h], ResultOf(items, x))
    {
      LastWordAfter(hs, h, x);
    }
  }

  lemma OneMoreJustified(hs: seq<Heard>, pipe: seq<Update>, u: Update)
    requires PipeJustified(hs, pipe) && Justified(hs, u)
    ensures PipeJustified(hs, Cat(pipe, [u]))
  {
  }

  lemma PartsJustified(hs: seq<Heard>, us: seq<Update>, rest: seq<Update>)
    requires PipeJustified(hs, Cat(us, rest))
    ensures PipeJustified(hs, us) && PipeJustified(hs, rest)
  {
    if us != [] && rest != [] {
      assert forall k :: 0 <= k < |us| ==> us[k] == (us + rest)[k];
      assert forall k :: 0 <= k < |rest| ==> rest[k] == (us + rest)[|us| + k];
    }
  }

  /** Justified results reach the table. */
  lemma BatchJustifies(hs: seq<Heard>, items: seq<Item>, us: seq<Update>)
    requires TableJustified(hs, items) && PipeJustified(hs, us)
    requires Sorted(Ordinals(us)) && forall k :: 0 <= k < |us| ==> us[k].ordinal < |items|
    ensures TableJustified(hs, PutItems(items, us))
  {
    var after := PutItems(items, us);
    var os := Ordinals(us);
    SortedMeans(os);
    assert forall k :: 0 <= k < |us| ==> os[k] == us[k].ordinal;
    forall x: nat | x < |after| && !Pending(after[x].state)
      ensures Justified(hs, ResultOf(after, x))
    {
      if k :| 0 <= k < |us| && us[k].ordinal == x {
        PutHere(items, us, k);
        assert ResultOf(after, x) == us[k];
      } else {
        PutElsewhere(items, us, x);
      }
    }
  }

  /** The oldest write commits. */
  lemma CommitJustifies(hs: seq<Heard>, w: World)
    requires Shape(w) && Flow(w) && AllJustified(hs, w)
    ensures AllJustified(hs, Next(w, CommitNext))
  {
    if w.queue != [] {
      var x := w.queue[0].write;
      var e := w.exec.value;
      var rest := Cat(Inflight(w.queue[1..]), e.results);
      HeadOfLine(w, x, rest);
      PartsJustified(hs, Updates(x), rest);
      PipeIsPending(w);
      assert WriteOk(x, w.job.items, Pipe(w), e) && Executors(x);
      if x.UpdateItems? {
        FirstOfPipe(w, x.updates, rest);
        BatchJustifies(hs, w.job.items, x.updates);
      }
    }
  }

  /** The first results of the pipe are in order and pending. */
  lemma FirstOfPipe(w: World, us: seq<Update>, rest: seq<Update>)
    requires Flow(w) && Pipe(w) == Cat(us, rest)
    ensures Sorted(Ordinals(us)) && forall k :: 0 <= k < |us| ==> us[k].ordinal < |w.job.items|
  {
    PipeIsPending(w);
    OrdinalsCat(us, rest);
    SortedParts(Ordinals(us), Ordinals(rest));
    assert forall k :: 0 <= k < |us| ==> us[k] == Pipe(w)[k];
  }

  /** The oldest write is rolled back. */
  lemma RejectJustifies(hs: seq<Heard>, w: World)
    requires Shape(w) && AllJustified(hs, w)
    ensures AllJustified(hs, DoReject(w))
  {
    if w.queue != [] {
      var rest := Cat(Inflight(w.queue[1..]), w.exec.value.results);
      HeadOfLine(w, w.queue[0].write, rest);
      PartsJustified(hs, Updates(w.queue[0].write), rest);
    }
  }

  /** Everything in RAM is lost. */
  lemma CrashJustifies(hs: seq<Heard>, w: World)
    requires AllJustified(hs, w)
    ensures AllJustified(hs, DoCrash(w))
  {
  }

  lemma LossJustifies(hs: seq<Heard>, w: World, s: Step)
    requires Shape(w) && AllJustified(hs, w) && (s.RejectNext? || s.Crash?)
    ensures AllJustified(hs, Next(w, s))
  {
    if s.RejectNext? {
      RejectJustifies(hs, w);
    } else {
      CrashJustifies(hs, w);
    }
  }

  lemma ReplyJustifies(hs: seq<Heard>, w: World, reply: Option<A.Exc>, slow: bool)
    requires Shape(w) && Flow(w) && AllJustified(hs, w) && Called(w)
    ensures var h := w.exec.value.pc.hand;
      AllJustified(hs + [Heard(h.ordinal, h.attempts, h.transient, Said(reply))], Next(w, Reply(reply, slow)))
  {
    var h := w.exec.value.pc.hand;
    var word := Heard(h.ordinal, h.attempts, h.transient, Said(reply));
    HandIsPending(w);
    WordOnPending(hs, word, Pipe(w), w.job.items);
    LastWordAfter(hs, word, h.ordinal);
    ReplyAnswers(w, reply, slow);
    if A.Decide(reply).Conclude? {
      ReplyRecords(w, reply, slow);
      if reply.Some? {
        A.ReplyMeaning(reply.value);
      }
      OneMoreJustified(hs + [word], Pipe(w), Update(h.ordinal, A.Decide(reply).state, h.attempts));
      ReplyKeepsItems(w, reply, slow);
    } else {
      A.ReplyMeaning(reply.value);
      ReplyKeepsItems(w, reply, slow);
    }
  }

  lemma ReplyKeepsItems(w: World, reply: Option<A.Exc>, slow: bool)
    ensures Next(w, Reply(reply, slow)).job == w.job
  {
  }

  lemma PopJustifies(hs: seq<Heard>, w: World, usable: bool, slow: bool)
    requires Shape(w) && Flow(w) && AllJustified(hs, w)
    ensures AllJustified(hs + HeardIn(w, Pop(usable, slow)), Next(w, Pop(usable, slow)))
  {
    if AtTop(w) && !usable {
      KeylessJustifies(hs, w, slow);
    } else {
      assert HeardIn(w, Pop(usable, slow)) == [] && hs + [] == hs;
      OtherPop(w, usable, slow);
      OtherPopIsQuiet(w, usable, slow);
    }
  }

  /** A pop that hears nothing concludes nothing. */
  lemma OtherPop(w: World, usable: bool, slow: bool)
    requires Shape(w) && Flow(w) && !(AtTop(w) && !usable)
    ensures Pipe(Next(w, Pop(usable, slow))) == Pipe(w)
  {
    var w' := Next(w, Pop(usable, slow));
    assert w' == DoPop(w, usable, slow);
    assert Pipe(w') == Pipe(w) by {
      OtherDoPop(w, usable, slow);
    }
  }

  lemma OtherDoPop(w: World, usable: bool, slow: bool)
    requires Shape(w) && Flow(w) && !(AtTop(w) && !usable)
    ensures Pipe(DoPop(w, usable, slow)) == Pipe(w)
  {
    if AtTop(w) {
      PopUsableKeepsFlow(w, w.exec.value.buf.queue[0], DoPop(w, usable, slow).exec.value);
    } else if Free(w) && w.exec.value.pc.Top? {
      PopRestKeepsFlow(w, usable, slow);
    } else {
      assert DoPop(w, usable, slow) == w;
    }
  }

  lemma OtherPopIsQuiet(w: World, usable: bool, slow: bool)
    requires !(AtTop(w) && !usable)
    ensures var w' := Next(w, Pop(usable, slow));
      w'.job == w.job && (w'.exec.Some? && w'.exec.value.pc.Backoff? ==> w.exec == w'.exec)
  {
  }

  /** A candidate without its keys is concluded as it is popped. */
  lemma KeylessPop(w: World, slow: bool)
    requires Shape(w) && Flow(w) && AtTop(w)
    ensures var w' := Next(w, Pop(false, slow));
      var c := w.exec.value.buf.queue[0];
      && Pipe(w') == Cat(Pipe(w), [Update(c.ordinal, ItemFailed, c.attempts)]) && w'.job == w.job
      && w'.exec.Some? && w'.exec.value.pc == Recorded
  {
    PopUnusableKeepsFlow(w, w.exec.value.buf.queue[0], slow);
    KeylessConcludes(w, slow);
  }

  lemma KeylessConcludes(w: World, slow: bool)
    requires AtTop(w)
    ensures var w' := Next(w, Pop(false, slow));
      var c := w.exec.value.buf.queue[0];
      && w' == Conclude(
        w, w.exec.value.(buf := CB.TakeHead(w.exec.value.buf)), Update(c.ordinal, ItemFailed, c.attempts), slow)
      && w'.job == w.job && w'.exec.Some? && w'.exec.value.pc == Recorded
  {
  }

  /** ... and was neither concluded nor on its way before. */
  lemma TopIsPending(w: World)
    requires Shape(w) && Flow(w) && AtTop(w)
    ensures var o := w.exec.value.buf.queue[0].ordinal; IsPending(w.job.items, o) && o !in Ordinals(Pipe(w))
  {
    var c := w.exec.value.buf.queue[0];
    PopTakesHead(w, c, w.exec.value.(buf := CB.TakeHead(w.exec.value.buf)));
    HeadOfAhead(w, c.ordinal);
  }

  lemma KeylessJustifies(hs: seq<Heard>, w: World, slow: bool)
    requires Shape(w) && Flow(w) && AllJustified(hs, w) && AtTop(w)
    ensures var c := w.exec.value.buf.queue[0];
      AllJustified(hs + [Heard(c.ordinal, c.attempts, 0, Keyless)], Next(w, Pop(false, slow)))
  {
    var c := w.exec.value.buf.queue[0];
    var word := Heard(c.ordinal, c.attempts, 0, Keyless);
    KeylessPop(w, slow);
    TopIsPending(w);
    WordOnPending(hs, word, Pipe(w), w.job.items);
    LastWordAfter(hs, word, c.ordinal);
    OneMoreJustified(hs + [word], Pipe(w), Update(c.ordinal, ItemFailed, c.attempts));
  }

  lemma WakeJustifies(hs: seq<Heard>, w: World, slow: bool)
    requires Shape(w) && Flow(w) && AllJustified(hs, w)
    ensures AllJustified(hs, Next(w, Wake(slow)))
  {
    if Free(w) && w.exec.value.pc.Backoff? && w.exec.value.pc.hand.transient >= |TRANSIENT_DELAYS| {
      LastTransientWake(hs, w, slow);
    } else if DoWake(w, slow) != w {
      TurnKeepsFlow(w, DoWake(w, slow).exec.value);
      OtherWake(hs, w, slow);
    }
  }

  /** The third back-off is over. */
  lemma LastTransientWake(hs: seq<Heard>, w: World, slow: bool)
    requires Shape(w) && Flow(w) && AllJustified(hs, w)
    requires Free(w) && w.exec.value.pc.Backoff? && w.exec.value.pc.hand.transient >= |TRANSIENT_DELAYS|
    ensures AllJustified(hs, Next(w, Wake(slow)))
  {
    ThirdIsLast(hs, w);
    HandConcludes(w, w.exec.value, ItemFailed, slow);
    LastWake(hs, w, slow);
  }

  lemma LastWake(hs: seq<Heard>, w: World, slow: bool)
    requires AllJustified(hs, w) && Free(w) && w.exec.value.pc.Backoff?
    requires w.exec.value.pc.hand.transient >= |TRANSIENT_DELAYS|
    requires var h := w.exec.value.pc.hand;
      var u := Update(h.ordinal, ItemFailed, h.attempts);
      Justified(hs, u) && Pipe(Conclude(w, w.exec.value, u, slow)) == Cat(Pipe(w), [u])
    ensures AllJustified(hs, Next(w, Wake(slow)))
  {
    var h := w.exec.value.pc.hand;
    var u := Update(h.ordinal, ItemFailed, h.attempts);
    OneMoreJustified(hs, Pipe(w), u);
    JustifiedConclusion(hs, w, w.exec.value, u, slow);
    assert Next(w, Wake(slow)) == Conclude(w, w.exec.value, u, slow);
  }

  lemma ThirdIsLast(hs: seq<Heard>, w: World)
    requires Flow(w) && AllJustified(hs, w) && w.exec.Some?
    requires w.exec.value.pc.Backoff? && w.exec.value.pc.hand.transient >= |TRANSIENT_DELAYS|
    ensures var h := w.exec.value.pc.hand;
      Justified(hs, Update(h.ordinal, ItemFailed, h.attempts))
  {
  }

  lemma JustifiedConclusion(hs: seq<Heard>, w: World, e: Exec, u: Update, slow: bool)
    requires AllJustified(hs, w) && PipeJustified(hs, Pipe(Conclude(w, e, u, slow)))
    ensures AllJustified(hs, Conclude(w, e, u, slow))
  {
  }

  lemma OtherWake(hs: seq<Heard>, w: World, slow: bool)
    requires AllJustified(hs, w) && DoWake(w, slow) != w && Pipe(DoWake(w, slow)) == Pipe(w)
    requires !(Free(w) && w.exec.value.pc.Backoff? && w.exec.value.pc.hand.transient >= |TRANSIENT_DELAYS|)
    ensures AllJustified(hs, DoWake(w, slow))
  {
  }

  /** The steps that neither hear nor conclude nor lose nor commit anything. */
  lemma QuietJustifies(hs: seq<Heard>, w: World, s: Step)
    requires Shape(w) && Flow(w) && AllJustified(hs, w)
    requires !Concludes(s) && !s.CommitNext? && !s.RejectNext? && !s.Crash?
    ensures AllJustified(hs, Next(w, s))
  {
    if OfLanes(s) {
      LanesKeepFlow(w, s);
    } else if Around(s) {
      AroundKeepsFlow(w, s);
    } else {
      MainKeepsFlow(w, s);
    }
    QuietKeepsResults(w, s);
  }

  lemma QuietKeepsResults(w: World, s: Step)
    requires Flow(w) && !Concludes(s) && !s.CommitNext? && !s.RejectNext? && !s.Crash?
    ensures forall x: nat :: x < |Next(w, s).job.items| && !Pending(Next(w, s).job.items[x].state) ==>
      x < |w.job.items| && Next(w, s).job.items[x] == w.job.items[x]
    ensures Next(w, s).exec.Some? && Next(w, s).exec.value.pc.Backoff? ==>
      w.exec.Some? && w.exec.value.pc == Next(w, s).exec.value.pc
  {
  }

  lemma StepJustifies(hs: seq<Heard>, w: World, s: Step)
    requires Shape(w) && Flow(w) && AllJustified(hs, w)
    ensures AllJustified(hs + HeardIn(w, s), Next(w, s))
  {
    if s.Pop? {
      PopJustifies(hs, w, s.usable, s.slow);
    } else if s.Reply? && Called(w) {
      ReplyJustifies(hs, w, s.reply, s.slow);
    } else {
      assert HeardIn(w, s) == [] && hs + [] == hs;
      if s.Wake? {
        WakeJustifies(hs, w, s.slow);
      } else if s.CommitNext? {
        CommitJustifies(hs, w);
      } else if s.RejectNext? || s.Crash? {
        LossJustifies(hs, w, s);
      } else if !s.Reply? {
        QuietJustifies(hs, w, s);
      }
    }
  }

  lemma {:induction false} RunJustifies(w: World, steps: seq<Step>)
    requires EngineRuns.Sound(w) && AllJustified([], w)
    ensures AllJustified(Hears(w, steps), Run(w, steps))
  {
    if steps != [] {
      var k := |steps| - 1;
      EngineRuns.RunIsSound(w, steps[..k]);
      RunJustifies(w, steps[..k]);
      StepJustifies(Hears(w, steps[..k]), Run(w, steps[..k]), steps[k]);
    }
  }

  /**
   Every result is the one its item's last word deserves.  In every life, whatever crashed or was rejected in it, each
   item with a result in the table, and each result on its way there, has the state that the last thing heard of that
   item deserves and the attempts counted when it was heard.
   */
  lemma ResultsAreDeserved(n: nat, planned: Action, lookup: L.Lookup, now: real, steps: seq<Step>)
    ensures var w := Run(Init(n, planned, lookup, now), steps);
      var hs := Hears(Init(n, planned, lookup, now), steps);
      && (forall x: nat :: x < |w.job.items| && !Pending(w.job.items[x].state) ==> Justified(hs, ResultOf(w.job.items, x)))
      && (forall k :: 0 <= k < |Pipe(w)| ==> Justified(hs, Pipe(w)[k]))
  {
    EngineRuns.InitIsSound(n, planned, lookup, now);
    EngineRuns.InitFlows(n, planned, lookup, now);
    RunJustifies(Init(n, planned, lookup, now), steps);
  }

  // ------------------------------------------------------------------------------------------
  // Attempts from run to run
  // ------------------------------------------------------------------------------------------

  /** Candidates carry the attempts their rows hold. */
  ghost predicate Carried(items: seq<Item>, cs: seq<CB.Candidate>) {
    forall k :: 0 <= k < |cs| ==> cs[k].ordinal < |items| && cs[k].attempts == items[cs[k].ordinal].attempts
  }

  /** Only the candidate in hand is marked RETRY. */
  ghost predicate RetriesHand(x: Write, pc: Pc) {
    x.MarkRetry? ==> pc.ServerWait? && pc.hand.ordinal == x.ordinal
  }

  ghost predicate Faithful(items: seq<Item>, queue: seq<Sent>, e: Exec) {
    !e.pc.Exit? ==>
      && Carried(items, e.buf.queue)
      && (forall i :: 0 <= i < |queue| ==> RetriesHand(queue[i].write, e.pc))
      && (forall i :: 0 <= i < |e.owed| && e.owed[i].Put? ==> RetriesHand(e.owed[i].write, e.pc))
  }

  ghost predicate AllFaithful(w: World) {
    w.exec.Some? ==> Faithful(w.job.items, w.queue, w.exec.value)
  }

  /** A free coroutine marks nothing. */
  lemma FreeMarksNothing(w: World)
    requires Shape(w) && Free(w)
    ensures forall i :: 0 <= i < |w.queue| ==> !w.queue[i].write.MarkRetry?
  {
    forall i | 0 <= i < |w.queue|
      ensures w.queue[i].write.UpdateItems?
    {
      assert w.queue[i].lane.Delayed?;
    }
  }

  /** What is still to be popped is neither in the pipe nor in hand. */
  lemma QueueIsAhead(w: World, k: nat)
    requires Flow(w) && w.exec.Some? && !w.exec.value.pc.Exit? && k < |w.exec.value.buf.queue|
    ensures var o := w.exec.value.buf.queue[k].ordinal;
      o !in Ordinals(Pipe(w)) && (InHand(w.exec.value.pc) ==> o != w.exec.value.pc.hand.ordinal)
  {
    var e := w.exec.value;
    var rest := Named(CB.Rest(e.buf, w.job.items));
    var hand := HandOf(e.pc);
    assert rest[k] == e.buf.queue[k].ordinal;
    SortedParts(Ordinals(Pipe(w)), Ahead(e, w.job.items));
    SortedParts(hand, rest);
    CatHolds(hand, rest, rest[k]);
    assert rest[k] in Ahead(e, w.job.items);
    if InHand(e.pc) {
      assert hand[0] in hand;
    }
  }

  lemma CommitIsFaithful(w: World)
    requires Shape(w) && Flow(w) && AllFaithful(w)
    ensures AllFaithful(Next(w, CommitNext))
  {
    if w.queue != [] && !w.exec.value.pc.Exit? {
      var x := w.queue[0].write;
      var e := w.exec.value;
      HeadOfLine(w, x, Cat(Inflight(w.queue[1..]), e.results));
      forall k | 0 <= k < |e.buf.queue|
        ensures var o := e.buf.queue[k].ordinal;
          o < |w.job.items| && Commit(w.job, x).items[o] == w.job.items[o]
      {
        QueueIsAhead(w, k);
        CommitSpares(w, x, e.buf.queue[k].ordinal);
      }
      assert forall i :: 0 <= i < |w.queue[1..]| ==> w.queue[1..][i] == w.queue[i + 1];
    }
  }

  /** A committed write leaves a row alone that is neither in the pipe nor in hand. */
  lemma CommitSpares(w: World, x: Write, o: nat)
    requires Shape(w) && Flow(w) && AllFaithful(w) && w.queue != [] && x == w.queue[0].write
    requires w.exec.Some? && !w.exec.value.pc.Exit? && o < |w.job.items|
    requires o !in Ordinals(Pipe(w)) && (InHand(w.exec.value.pc) ==> o != w.exec.value.pc.hand.ordinal)
    ensures |Commit(w.job, x).items| == |w.job.items| && Commit(w.job, x).items[o] == w.job.items[o]
  {
    assert Executors(x) && RetriesHand(x, w.exec.value.pc);
    if x.UpdateItems? {
      var rest := Cat(Inflight(w.queue[1..]), w.exec.value.results);
      HeadOfLine(w, x, rest);
      forall k | 0 <= k < |x.updates|
        ensures x.updates[k].ordinal != o
      {
        assert x.updates[k] == Pipe(w)[k];
        assert Ordinals(Pipe(w))[k] in Ordinals(Pipe(w));
      }
      PutElsewhere(w.job.items, x.updates, o);
    }
  }

  /** Rows read from the table carry its attempts. */
  lemma ReadIsFaithful(b: CB.Buf, items: seq<Item>)
    requires CB.Loose(b, items) && b.loading.Loaded? && b.queue == []
    ensures Carried(items, CB.TakeRows(b).queue)
  {
    if b.loading.rows != [] {
      CB.PendingMeaning(items, b.lastLoaded + 1, |items|);
      var all := CB.PendingFrom(items, b.lastLoaded + 1);
      assert forall k :: 0 <= k < |b.loading.rows| ==> b.loading.rows[k] == all[k] && all[k] in all;
    }
  }

  /** Handing results to a lane marks nothing. */
  lemma SubmitIsFaithful(w: World, e: Exec, lane: Lane)
    requires Faithful(w.job.items, w.queue, e)
    ensures AllFaithful(Submit(w, e, lane)) && Submit(w, e, lane).job == w.job
  {
  }

  lemma ConcludeIsFaithful(w: World, e: Exec, u: Update, slow: bool)
    requires Faithful(w.job.items, w.queue, e.(pc := Recorded))
    ensures AllFaithful(Conclude(w, e, u, slow))
  {
    var e' := e.(pc := Recorded, results := e.results + [u]);
    SubmitIsFaithful(w.(past := w.past.(concluded := w.past.concluded + [u.ordinal])), e', Main);
  }

  /** A free coroutine that owes nothing it would mark. */
  lemma FreeIsFaithful(w: World, e: Exec)
    requires Shape(w) && Free(w) && Carried(w.job.items, e.buf.queue)
    requires forall i :: 0 <= i < |e.owed| && e.owed[i].Put? ==> RetriesHand(e.owed[i].write, e.pc)
    ensures Faithful(w.job.items, w.queue, e)
  {
    FreeMarksNothing(w);
  }

  lemma PopIsFaithful(w: World, usable: bool, slow: bool)
    requires Shape(w) && Flow(w) && AllFaithful(w)
    ensures AllFaithful(DoPop(w, usable, slow))
  {
    if AtTop(w) {
      HeadIsFaithful(w, usable, slow);
    } else if Free(w) && w.exec.value.pc.Top? {
      BufferIsFaithful(w, usable, slow);
    }
  }

  lemma HeadIsFaithful(w: World, usable: bool, slow: bool)
    requires Shape(w) && AllFaithful(w) && AtTop(w)
    ensures AllFaithful(DoPop(w, usable, slow))
  {
    var e := w.exec.value;
    var e' := e.(buf := CB.TakeHead(e.buf));
    var c := e.buf.queue[0];
    assert Carried(w.job.items, e'.buf.queue);
    if usable {
      FreeIsFaithful(w, e'.(pc := Delay(Hand(c.ordinal, c.attempts, c.attempts, 0, 0))));
    } else {
      FreeIsFaithful(w, e'.(pc := Recorded));
      ConcludeIsFaithful(w, e', Update(c.ordinal, ItemFailed, c.attempts), slow);
    }
  }

  lemma BufferIsFaithful(w: World, usable: bool, slow: bool)
    requires Shape(w) && Flow(w) && AllFaithful(w) && Free(w) && w.exec.value.pc.Top? && w.exec.value.buf.queue == []
    ensures AllFaithful(DoPop(w, usable, slow))
  {
    if w.exec.value.buf.loading.Loaded? {
      ReadIsFaithful(w.exec.value.buf, w.job.items);
    }
    FreeIsFaithful(w, DoPop(w, usable, slow).exec.value);
  }

  lemma ReplyIsFaithful(w: World, v: A.Verdict, slow: bool)
    requires Shape(w) && AllFaithful(w)
    ensures AllFaithful(DoReply(w, v, slow))
  {
    if Called(w) {
      var e := w.exec.value;
      if v.Conclude? {
        var e' := e.(sched := S.MarkStable(e.sched, w.now));
        FreeIsFaithful(w, e'.(pc := Recorded));
        ConcludeIsFaithful(w, e', Update(e.pc.hand.ordinal, v.state, e.pc.hand.attempts), slow);
      } else if !DoReply(w, v, slow).exec.value.pc.Exit? {
        FreeIsFaithful(w, DoReply(w, v, slow).exec.value);
      }
    }
  }

  lemma WakeIsFaithful(w: World, slow: bool)
    requires Shape(w) && AllFaithful(w)
    ensures AllFaithful(DoWake(w, slow))
  {
    if Free(w) && w.exec.value.pc.Backoff? && w.exec.value.pc.hand.transient >= |TRANSIENT_DELAYS| {
      var e := w.exec.value;
      FreeIsFaithful(w, e.(pc := Recorded));
      ConcludeIsFaithful(w, e, Update(e.pc.hand.ordinal, ItemFailed, e.pc.hand.attempts), slow);
    } else if DoWake(w, slow) != w {
      FreeIsFaithful(w, DoWake(w, slow).exec.value);
    }
  }

  /** One write less is in flight. */
  lemma TailIsFaithful(items: seq<Item>, queue: seq<Sent>, e: Exec)
    requires queue != [] && Faithful(items, queue, e)
    ensures Faithful(items, queue[1..], e)
  {
    assert forall i :: 0 <= i < |queue[1..]| ==> queue[1..][i] == queue[i + 1];
  }

  lemma RejectIsFaithful(w: World)
    requires Shape(w) && AllFaithful(w)
    ensures AllFaithful(DoReject(w))
  {
    if w.queue != [] {
      TailIsFaithful(w.job.items, w.queue, w.exec.value);
    }
  }

  lemma MainWritesIsFaithful(w: World)
    requires Shape(w) && AllFaithful(w)
    ensures AllFaithful(DoMainWrites(w))
  {
    if Awake(w) && w.exec.value.owed != [] {
      var e := w.exec.value;
      var rest := e.(owed := e.owed[1..]);
      assert forall i :: 0 <= i < |rest.owed| ==> rest.owed[i] == e.owed[i + 1];
      if e.owed[0].FlushFirst? {
        SubmitIsFaithful(w, rest, Main);
      }
    }
  }

  lemma BackgroundIsFaithful(w: World, s: Step)
    requires AllFaithful(w) && (s.TimerFires? || s.TimerEnds? || s.WorkerReads?)
    ensures AllFaithful(Next(w, s))
  {
    if s.TimerFires? && DoTimerFires(w) != w {
      var e := w.exec.value;
      SubmitIsFaithful(w, e.(timer := if e.results == [] then Idle else Writing), Delayed);
    }
  }

  /** Items are added to a table that had none, so that nothing is in the buffer. */
  lemma PlanIsFaithful(w: World)
    requires Flow(w) && AllFaithful(w)
    ensures AllFaithful(DoPlan(w))
  {
  }

  /** The steps of the coroutine that mark nothing. */
  lemma TurnIsFaithful(w: World, s: Step)
    requires Shape(w) && AllFaithful(w) && (s.Observe? || s.Send? || s.Schedule? || s.Summarize?)
    ensures AllFaithful(Next(w, s))
  {
    if Free(w) && !Next(w, s).exec.value.pc.Exit? {
      FreeIsFaithful(w, Next(w, s).exec.value);
    }
  }

  lemma AroundIsFaithful(w: World, s: Step)
    requires Shape(w) && AllFaithful(w) && (s.Tick? || s.Launch? || s.Leave? || s.Crash? || s.Restart?)
    ensures AllFaithful(Next(w, s))
  {
  }

  lemma CandidateIsFaithful(w: World, s: Step)
    requires Shape(w) && Flow(w) && AllFaithful(w) && (s.Pop? || s.Reply? || s.Wake? || s.PlanNext?)
    ensures AllFaithful(Next(w, s))
  {
    match s
    case Pop(usable, slow) => PopIsFaithful(w, usable, slow);
    case Reply(reply, slow) => ReplyIsFaithful(w, A.Decide(reply), slow);
    case Wake(slow) => WakeIsFaithful(w, slow);
    case PlanNext => PlanIsFaithful(w);
  }

  lemma WriteIsFaithful(w: World, s: Step)
    requires Shape(w) && Flow(w) && AllFaithful(w) && (s.CommitNext? || s.RejectNext? || s.MainWrites?)
    ensures AllFaithful(Next(w, s))
  {
    match s
    case CommitNext => CommitIsFaithful(w);
    case RejectNext => RejectIsFaithful(w);
    case MainWrites => MainWritesIsFaithful(w);
  }

  lemma StepIsFaithful(w: World, s: Step)
    requires Shape(w) && Flow(w) && AllFaithful(w)
    ensures AllFaithful(Next(w, s))
  {
    if s.Pop? || s.Reply? || s.Wake? || s.PlanNext? {
      CandidateIsFaithful(w, s);
    } else if s.CommitNext? || s.RejectNext? || s.MainWrites? {
      WriteIsFaithful(w, s);
    } else if s.TimerFires? || s.TimerEnds? || s.WorkerReads? {
      BackgroundIsFaithful(w, s);
    } else if s.Observe? || s.Send? || s.Schedule? || s.Summarize? {
      TurnIsFaithful(w, s);
    } else {
      AroundIsFaithful(w, s);
    }
  }

  lemma {:induction false} RunIsFaithful(w: World, steps: seq<Step>)
    requires EngineRuns.Sound(w) && AllFaithful(w)
    ensures AllFaithful(Run(w, steps))
  {
    if steps != [] {
      var k := |steps| - 1;
      EngineRuns.RunIsSound(w, steps[..k]);
      RunIsFaithful(w, steps[..k]);
      StepIsFaithful(Run(w, steps[..k]), steps[k]);
    }
  }

  /**
   No attempt is forgotten between runs once it is persisted: in every life a candidate that is popped with its keys is
   pending, and comes into hand with exactly the attempts its row holds, to which the RPCs of this run are added.
   */
  lemma AttemptsAreCarriedOver(n: nat, planned: Action, lookup: L.Lookup, now: real, steps: seq<Step>, slow: bool)
    requires AtTop(Run(Init(n, planned, lookup, now), steps))
    ensures var w := Run(Init(n, planned, lookup, now), steps);
      var o := w.exec.value.buf.queue[0].ordinal;
      && o < |w.job.items| && Pending(w.job.items[o].state)
      && Next(w, Pop(true, slow)).exec.Some?
      && Next(w, Pop(true, slow)).exec.value.pc == Delay(Hand(o, w.job.items[o].attempts, w.job.items[o].attempts, 0, 0))
  {
    EngineRuns.ReachableIsSound(n, planned, lookup, now, steps);
    EngineRuns.InitIsSound(n, planned, lookup, now);
    RunIsFaithful(Init(n, planned, lookup, now), steps);
    PopCarries(Run(Init(n, planned, lookup, now), steps), slow);
  }

  lemma PopCarries(w: World, slow: bool)
    requires Shape(w) && Flow(w) && AllFaithful(w) && AtTop(w)
    ensures var o := w.exec.value.buf.queue[0].ordinal;
      && o < |w.job.items| && Pending(w.job.items[o].state)
      && Next(w, Pop(true, slow)).exec.Some?
      && Next(w, Pop(true, slow)).exec.value.pc == Delay(Hand(o, w.job.items[o].attempts, w.job.items[o].attempts, 0, 0))
  {
    TopIsPending(w);
    assert w.exec.value.buf.queue[0].attempts == w.job.items[w.exec.value.buf.queue[0].ordinal].attempts;
  }
}
