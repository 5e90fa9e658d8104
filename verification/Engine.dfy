/**
 One migration job from planning to completion: the three commits of `_persist` (`migration/planner.py`), its
 durable rows, the FIFO lane of writes in front of them, and the run of `MigrationExecutor`
 (`migration/executor.py`) with its prefetch buffer, scheduler, result buffer and delayed flush task, together
 with the commands that start, pause, stop and resume it, process crashes and restart normalisation.

 A step is what one thread of control does between two awaits; every interleaving of steps is a behaviour.
 A step that is not enabled leaves the world unchanged.  Writes commit in submission order
 (`EngineWriter.RowsAreTheWritersRows`); of the executor's writes only a delayed flush may be rejected.  Time is
 one clock that does not advance inside a step.
 */
module Engine {
  import opened Core
  import opened JobStore
  import CB = CandidateBuffer
  import S = Scheduler
  import A = Attempt
  import L = Lifecycle

  /** Who awaits a write: the main coroutine or the delayed flush task. */
  datatype Lane = Main | Delayed

  datatype Sent = Sent(lane: Lane, write: Write)

  /** The candidate being attempted: RPCs and waits spent on it in this run. */
  datatype Hand = Hand(ordinal: nat, persisted: nat, attempts: nat, transient: nat, waits: nat)

  /** Where the main coroutine stands once the writes it still owes are done. */
  datatype Pc =
    | Top                       // head of the loop in `run`
    | Delay(hand: Hand)         // sleeping before the RPC
    | Calling(hand: Hand)       // RPC sent, reply outstanding
    | Backoff(hand: Hand)       // sleeping after a transient failure
    | ServerWait(hand: Hand)    // sleeping out a rate limit
    | Recorded                  // result recorded, delayed flush not yet scheduled
    | Finish                    // no candidate left, final summary next
    | Exit                      // run is over once the owed writes are done

  /** A write the main coroutine owes: a forced flush, or one row change. */
  datatype Owed = FlushFirst | Put(write: Write)

  /** The delayed flush task. */
  datatype Timer = Idle | Sleeping | Writing

  datatype Exec = Exec(
    pc: Pc,
    owed: seq<Owed>,
    results: seq<Update>,
    timer: Timer,
    buf: CB.Buf,
    sched: S.Sched,
    action: Action,
    launched: real)

  /** How much of a plan is durable: nothing, the job row, its items, the planner's checkpoint. */
  datatype Stage = Unplanned | Created | Filled | Signed

  /** Who wrote the checkpoint last. */
  datatype Author = Nobody | Planner | Executor

  /**
   One RPC: the run that sent it and when that run was launched, its item, how many items had been concluded
   before it, when it was sent, the cadence in force, the last persisted server gate, and the action performed.
   */
  datatype Rpc = Rpc(
    run: nat, launched: real, ordinal: nat, done: nat, at: real, interval: real, gate: Option<real>, action: Action)

  /**
   `missed` are the items the current run (or the last one) leaves behind: those whose results a rejected flush
   lost, and all of them if they were added after the run had found the table empty.
   */
  datatype Past = Past(
    planned: Action,
    count: nat,
    runs: nat,
    crashes: nat,
    rejected: nat,
    rpcs: seq<Rpc>,
    concluded: seq<int>,
    missed: set<nat>,
    gate: Option<real>,
    author: Author,
    committed: seq<Write>)

  /** `planning` while the planner is alive. */
  datatype World = World(
    job: Job,
    queue: seq<Sent>,
    exec: Option<Exec>,
    stage: Stage,
    planning: bool,
    now: real,
    lookup: L.Lookup,
    past: Past)

  datatype Control = Pause | Stop

  datatype Step =
    | Tick(dt: real)
    | PlanNext
    | Launch(interval: real)
    | CommitNext
    | RejectNext
    | TimerFires
    | TimerEnds
    | WorkerReads
    | MainWrites
    | Observe(control: Control)
    | Pop(usable: bool, slow: bool)
    | Send
    | Reply(reply: Option<A.Exc>, slow: bool)
    | Wake(slow: bool)
    | Schedule
    | Summarize
    | Leave
    | Crash
    | Restart

  /** Before the first commit of the planner; the row is the one `create` will insert. */
  function Init(n: nat, planned: Action, lookup: L.Lookup, now: real): World {
    World(NewJob(n), [], None, Unplanned, true, now, lookup,
          Past(planned, n, 0, 0, 0, [], [], {}, None, Nobody, []))
  }

  // ------------------------------------------------------------------------------------------
  // Steps
  // ------------------------------------------------------------------------------------------

  predicate Busy(queue: seq<Sent>, lane: Lane) {
    exists i :: 0 <= i < |queue| && queue[i].lane == lane
  }

  /** The main coroutine is not awaiting a write. */
  predicate Awake(w: World) {
    w.exec.Some? && !Busy(w.queue, Main)
  }

  /** ... and owes none. */
  predicate Free(w: World) {
    Awake(w) && w.exec.value.owed == []
  }

  function WithExec(w: World, e: Exec): World {
    w.(exec := Some(e))
  }

  function SetRow(state: JobState): Write {
    SetState(state, None, None, false)
  }

  function SetFinal(state: JobState): Write {
    SetState(state, None, None, true)
  }

  /** The checkpoint of an interrupted candidate: everything before it is concluded. */
  function Behind(ordinal: nat): Checkpoint {
    Checkpoint(None, Some(ordinal - 1), false)
  }

  /** `_start/_resume`: a new executor with a fresh scheduler that honours the looked-up server gate. */
  function NewExec(w: World, sched: S.Sched): Exec {
    var remaining := L.RemainingWait(L.OwnGate(w.lookup, w.job.row), w.now);
    Exec(
      Top, [Put(SetRow(Running))], [], Idle, CB.New(PREFETCH_MIN),
      if remaining > 0.0 then S.ApplyServerWait(sched, w.now, remaining) else sched,
      if w.job.row.checkpoint.action.Some? then w.job.row.checkpoint.action.value else Invite,
      w.now)
  }

  predicate Launchable(w: World) {
    && !w.stage.Unplanned? && w.exec.None?
    && (w.job.row.state.Ready? || w.job.row.state.Paused? || w.job.row.state.WaitingServer?)
  }

  function DoLaunch(w: World, interval: real): World {
    if Launchable(w) && S.Create(interval).Some? then
      WithExec(w, NewExec(w, S.Create(interval).value)).(past := w.past.(runs := w.past.runs + 1, missed := {}))
    else w
  }

  predicate WritesCheckpoint(x: Write) {
    (x.UpdateItems? && x.updates != []) || (x.SetState? && x.checkpoint.Some?)
  }

  /** A write of the executor, or of restart normalisation, reaches the rows. */
  function Committed(p: Past, x: Write): Past {
    p.(gate := if x.SetState? && x.until.Some? then x.until else p.gate,
       author := if WritesCheckpoint(x) then Executor else p.author,
       committed := p.committed + [x])
  }

  function DoCommit(w: World): World {
    if w.queue == [] then w
    else
      var x := w.queue[0].write;
      w.(job := Commit(w.job, x), queue := w.queue[1..], past := Committed(w.past, x))
  }

  function Ordinals(us: seq<Update>): (r: seq<nat>)
    ensures |r| == |us| && forall i :: 0 <= i < |us| ==> r[i] == us[i].ordinal
  {
    seq(|us|, i requires 0 <= i < |us| => us[i].ordinal)
  }

  /** The transaction of a delayed flush is rolled back; its exception is seen by nobody. */
  function DoReject(w: World): World {
    if w.queue != [] && w.queue[0].lane.Delayed? && w.queue[0].write.UpdateItems? then
      w.(queue := w.queue[1..],
         past := w.past.(
           rejected := w.past.rejected + 1,
           missed := w.past.missed + (set o | o in Ordinals(w.queue[0].write.updates))))
    else w
  }

  /** The ordinals below `n`. */
  function Upto(n: nat): (r: set<nat>)
    ensures forall x: nat :: x in r <==> x < n
  {
    if n == 0 then {} else Upto(n - 1) + {n - 1}
  }

  predicate Ended(s: JobState) {
    s.Completed? || s.CompletedWithErrors?
  }

  /** The run has found the table empty already, or has even completed. */
  predicate Noticed(w: World) {
    (w.exec.Some? && CB.Spent(w.exec.value.buf)) || Ended(w.job.row.state)
  }

  /** The next of the planner's commits: the row, the items, the checkpoint. */
  function DoPlan(w: World): World {
    if !w.planning then w
    else match w.stage
      case Unplanned => w.(stage := Created)
      case Created =>
        var x := AddItems(w.past.count);
        w.(job := Commit(w.job, x), stage := Filled,
           past := w.past.(
             missed := w.past.missed + (if Noticed(w) then Upto(w.past.count) else {}),
             committed := w.past.committed + [x]))
      case Filled =>
        var x := PutCheckpoint(PlanCheckpoint(w.past.planned));
        w.(job := Commit(w.job, x), stage := Signed, planning := false,
           past := w.past.(author := Planner, committed := w.past.committed + [x]))
      case Signed => w.(planning := false)
  }

  /** `_flush` up to its await: the whole buffer becomes one submitted batch. */
  function Submit(w: World, e: Exec, lane: Lane): World {
    if e.results == [] then WithExec(w, e)
    else WithExec(w, e.(results := [])).(queue := w.queue + [Sent(lane, UpdateItems(e.results))])
  }

  function DoTimerFires(w: World): World {
    if w.exec.Some? && w.exec.value.timer.Sleeping? then
      var e := w.exec.value;
      Submit(w, e.(timer := if e.results == [] then Idle else Writing), Delayed)
    else w
  }

  function DoTimerEnds(w: World): World {
    if w.exec.Some? && w.exec.value.timer.Writing? && !Busy(w.queue, Delayed)
    then WithExec(w, w.exec.value.(timer := Idle)) else w
  }

  function DoWorkerReads(w: World): World {
    if w.exec.Some? && -1 <= w.exec.value.buf.lastLoaded
    then WithExec(w, w.exec.value.(buf := CB.WorkerRead(w.exec.value.buf, w.job.items))) else w
  }

  /** The main coroutine submits the next write it owes and awaits it. */
  function DoMainWrites(w: World): World {
    if Awake(w) && w.exec.value.owed != [] then
      var e := w.exec.value;
      var rest := e.(owed := e.owed[1..]);
      match e.owed[0]
      case FlushFirst => Submit(w, rest, Main)
      case Put(x) => WithExec(w, rest).(queue := w.queue + [Sent(Main, x)])
    else w
  }

  /** `_handle_control`. */
  function DoObserve(w: World, c: Control): World {
    if Free(w) && (w.exec.value.pc.Top? || w.exec.value.pc.Delay? || w.exec.value.pc.Backoff? || w.exec.value.pc.ServerWait?) then
      WithExec(w, w.exec.value.(
        pc := Exit,
        owed := [FlushFirst, Put(if c.Stop? then SetFinal(Cancelled) else SetRow(Paused))]))
    else w
  }

  /** A result joins the buffer; a full or overdue buffer is flushed and awaited at once. */
  function Conclude(w: World, e: Exec, u: Update, slow: bool): World {
    var e' := e.(pc := Recorded, results := e.results + [u]);
    var w' := w.(past := w.past.(concluded := w.past.concluded + [u.ordinal]));
    if |e'.results| >= RESULT_BATCH || slow then Submit(w', e', Main) else WithExec(w', e')
  }

  /** `pop`, in the pieces between its awaits, and the check of the candidate's keys. */
  function DoPop(w: World, usable: bool, slow: bool): World {
    if Free(w) && w.exec.value.pc.Top? then
      var e := w.exec.value;
      var b := e.buf;
      if b.queue != [] then
        var c := b.queue[0];
        var e' := e.(buf := CB.TakeHead(b));
        if usable then WithExec(w, e'.(pc := Delay(Hand(c.ordinal, c.attempts, c.attempts, 0, 0))))
        else Conclude(w, e', Update(c.ordinal, ItemFailed, c.attempts), slow)
      else if b.loading.Loaded? then WithExec(w, e.(buf := CB.TakeRows(b)))
      else if b.loading.NotLoading? && b.exhausted then WithExec(w, e.(pc := Finish, owed := [FlushFirst]))
      else WithExec(w, e.(buf := CB.SubmitFill(b)))
    else w
  }

  function RetryWrites(h: Hand, row: Write): seq<Owed> {
    [FlushFirst, Put(MarkRetry(h.ordinal, h.attempts)), Put(row)]
  }

  /** The branches after the reply; `h` already counts the RPC. */
  function Answer(w: World, e: Exec, h: Hand, v: A.Verdict, slow: bool): World {
    match v
    case Conclude(state) =>
      Conclude(w, e.(sched := S.MarkStable(e.sched, w.now)), Update(h.ordinal, state, h.attempts), slow)
    case WaitFor(seconds) =>
      var until := w.now + seconds as real;
      WithExec(w, e.(
        pc := ServerWait(h.(waits := h.waits + 1)),
        sched := S.ApplyServerWait(e.sched, w.now, seconds as real),
        owed := RetryWrites(h, SetState(WaitingServer, Some(until), Some(Behind(h.ordinal)), false))))
    case HaltIndefinite =>
      WithExec(w, e.(pc := Exit, owed := RetryWrites(h, SetState(RateLimited, None, Some(Behind(h.ordinal)), false))))
    case HaltPaused =>
      WithExec(w, e.(pc := Exit, owed := RetryWrites(h, SetState(Paused, None, Some(Behind(h.ordinal)), false))))
    case BackOff =>
      WithExec(w, e.(pc := Backoff(h.(transient := h.transient + 1))))
  }

  predicate CanSend(w: World) {
    Free(w) && w.exec.value.pc.Delay? && S.RemainingDelay(w.exec.value.sched, w.now) == 0.0
  }

  /** The RPC leaves, once the scheduler's delay has run out. */
  function DoSend(w: World): World {
    if CanSend(w) then
      var e := w.exec.value;
      var h := e.pc.hand;
      WithExec(w, e.(pc := Calling(h.(attempts := h.attempts + 1)), sched := S.MarkAttempt(e.sched, w.now))).(
        past := w.past.(rpcs := w.past.rpcs + [
          Rpc(w.past.runs, e.launched, h.ordinal, |w.past.concluded|, w.now, e.sched.interval, w.past.gate, e.action)]))
    else w
  }

  predicate Called(w: World) {
    Free(w) && w.exec.value.pc.Calling?
  }

  /** Its reply arrives. */
  function DoReply(w: World, v: A.Verdict, slow: bool): World {
    if Called(w) then Answer(w, w.exec.value, w.exec.value.pc.hand, v, slow) else w
  }

  /** A back-off or a server wait has run out. */
  function DoWake(w: World, slow: bool): World {
    if Free(w) && w.exec.value.pc.Backoff? then
      var e := w.exec.value;
      var h := e.pc.hand;
      if h.transient >= |TRANSIENT_DELAYS| then Conclude(w, e, Update(h.ordinal, ItemFailed, h.attempts), slow)
      else WithExec(w, e.(pc := Delay(h)))
    else if Free(w) && w.exec.value.pc.ServerWait? && S.RemainingDelay(w.exec.value.sched, w.now) == 0.0 then
      WithExec(w, w.exec.value.(pc := Delay(w.exec.value.pc.hand), owed := [Put(SetFinal(Running))]))
    else w
  }

  /** `_schedule_flush`. */
  function DoSchedule(w: World): World {
    if Free(w) && w.exec.value.pc.Recorded? then
      var e := w.exec.value;
      WithExec(w, e.(pc := Top, timer := if e.timer.Idle? then Sleeping else e.timer))
    else w
  }

  function FinalLabel(row: Row): JobState {
    if row.failed > 0 then CompletedWithErrors else Completed
  }

  /** The final summary is read from the committed row. */
  function DoSummarize(w: World): World {
    if Free(w) && w.exec.value.pc.Finish? then
      WithExec(w, w.exec.value.(pc := Exit, owed := [Put(SetFinal(FinalLabel(w.job.row)))]))
    else w
  }

  /** The run returns; the delayed flush task is cancelled. */
  function DoLeave(w: World): World {
    if Free(w) && w.exec.value.pc.Exit? then w.(exec := None) else w
  }

  function DoCrash(w: World): World {
    w.(exec := None, queue := [], planning := false, past := w.past.(crashes := w.past.crashes + 1))
  }

  /** What restart normalisation writes to the row. */
  function Recovery(row: Row): Write {
    SetState(Paused, None, Some(row.checkpoint.(recovered := true)), false)
  }

  function DoRestart(w: World): World {
    if w.exec.None? && L.NormalizeRow(w.job.row, w.now) != w.job.row then
      w.(job := Commit(w.job, Recovery(w.job.row)), past := w.past.(committed := w.past.committed + [Recovery(w.job.row)]))
    else w
  }

  function Next(w: World, s: Step): World {
    match s
    case Tick(dt) => if dt >= 0.0 then w.(now := w.now + dt) else w
    case PlanNext => DoPlan(w)
    case Launch(interval) => DoLaunch(w, interval)
    case CommitNext => DoCommit(w)
    case RejectNext => DoReject(w)
    case TimerFires => DoTimerFires(w)
    case TimerEnds => DoTimerEnds(w)
    case WorkerReads => DoWorkerReads(w)
    case MainWrites => DoMainWrites(w)
    case Observe(c) => DoObserve(w, c)
    case Pop(usable, slow) => DoPop(w, usable, slow)
    case Send => DoSend(w)
    case Reply(reply, slow) => DoReply(w, A.Decide(reply), slow)
    case Wake(slow) => DoWake(w, slow)
    case Schedule => DoSchedule(w)
    case Summarize => DoSummarize(w)
    case Leave => DoLeave(w)
    case Crash => DoCrash(w)
    case Restart => DoRestart(w)
  }

  /** A whole life of the job. */
  function Run(w: World, steps: seq<Step>): World {
    if steps == [] then w else Next(Run(w, steps[..|steps| - 1]), steps[|steps| - 1])
  }
}
