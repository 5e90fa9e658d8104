/**
 One job's durable rows (`jobs` and `migration_items`) and the writes the engine makes to them
 (`jobs/repository.py`).  Item `i` of the sequence is the row with ordinal `i`, as `submit_add_items`
 numbers them.
 */
module JobStore {
  import opened Core
  import DbWriter

  datatype Item = Item(state: ItemState, attempts: nat)

  /** The keys the engine keeps in `checkpoint_json`. */
  datatype Checkpoint = Checkpoint(action: Option<Action>, lastOrdinal: Option<int>, recovered: bool)

  datatype Row = Row(
    state: JobState,
    waitingUntil: Option<real>,
    checkpoint: Checkpoint,
    total: nat,
    processed: nat,
    success: nat,
    skipped: nat,
    failed: nat)

  datatype Job = Job(row: Row, items: seq<Item>)

  datatype Update = Update(ordinal: nat, state: ItemState, attempts: nat)

  /** The writes that reach a job's rows: three of the executor's, two of the planner's. */
  datatype Write =
    | UpdateItems(updates: seq<Update>)
    | MarkRetry(ordinal: nat, attempts: nat)
    | SetState(state: JobState, until: Option<real>, checkpoint: Option<Checkpoint>, clearWaiting: bool)
    | AddItems(count: nat)
    | PutCheckpoint(value: Checkpoint)

  /** Number of items in one state: SQL's SUM(state = ?). */
  function Count(items: seq<Item>, s: ItemState): (n: nat)
    ensures n <= |items|
  {
    if items == [] then 0
    else Count(items[..|items| - 1], s) + if items[|items| - 1].state == s then 1 else 0
  }

  /** UPDATE ... WHERE ordinal=?: an ordinal without a row changes nothing. */
  function PutItem(items: seq<Item>, u: Update): (r: seq<Item>)
    ensures |r| == |items|
  {
    if u.ordinal < |items| then items[u.ordinal := Item(u.state, u.attempts)] else items
  }

  function PutItems(items: seq<Item>, us: seq<Update>): (r: seq<Item>)
    ensures |r| == |items|
  {
    if us == [] then items else PutItem(PutItems(items, us[..|us| - 1]), us[|us| - 1])
  }

  function Recount(row: Row, items: seq<Item>): Row {
    var success := Count(items, ItemSuccess);
    var skipped := Count(items, ItemSkipped);
    var failed := Count(items, ItemFailed);
    row.(processed := success + skipped + failed, success := success, skipped := skipped, failed := failed)
  }

  /** The checkpoint a result batch leaves: the whole JSON value is replaced. */
  function BatchCheckpoint(us: seq<Update>): Checkpoint
    requires us != []
  {
    Checkpoint(None, Some(us[|us| - 1].ordinal), false)
  }

  /** INSERT OR IGNORE of the ordinals below `count`: rows that exist stay as they are. */
  function WithItems(items: seq<Item>, count: nat): (r: seq<Item>)
    ensures |r| == if count <= |items| then |items| else count
    ensures items <= r
    ensures forall i :: |items| <= i < |r| ==> r[i] == Item(ItemReady, 0)
  {
    if count <= |items| then items else items + seq(count - |items|, i => Item(ItemReady, 0))
  }

  /** The effect of one committed write. */
  function Commit(j: Job, w: Write): (k: Job)
    ensures !w.AddItems? ==> |k.items| == |j.items| && k.row.total == j.row.total
  {
    match w
    case UpdateItems(us) =>
      var items := PutItems(j.items, us);
      Job(Recount(j.row, items).(checkpoint := if us == [] then j.row.checkpoint else BatchCheckpoint(us)), items)
    case MarkRetry(o, attempts) => j.(items := PutItem(j.items, Update(o, ItemRetry, attempts)))
    case SetState(state, until, cp, clear) =>
      j.(row := j.row.(
        state := state,
        waitingUntil := if until.Some? || clear then until else j.row.waitingUntil,
        checkpoint := if cp.Some? then cp.value else j.row.checkpoint))
    case AddItems(count) => Job(j.row.(total := count), WithItems(j.items, count))
    case PutCheckpoint(cp) => j.(row := j.row.(checkpoint := cp))
  }

  function CommitAll(j: Job, ws: seq<Write>): Job {
    if ws == [] then j else Commit(CommitAll(j, ws[..|ws| - 1]), ws[|ws| - 1])
  }

  /** The row `create` inserts for a plan of `n` items: READY, the total already in it, no items yet. */
  function NewJob(n: nat): Job {
    Job(Row(Ready, None, Checkpoint(None, None, false), n, 0, 0, 0, 0), [])
  }

  /** The checkpoint the planner leaves. */
  function PlanCheckpoint(action: Action): Checkpoint {
    Checkpoint(Some(action), None, false)
  }

  // ------------------------------------------------------------------------------------------
  // Counters
  // ------------------------------------------------------------------------------------------

  /** The result counters of the job row agree with its items. */
  ghost predicate Tallied(j: Job) {
    && j.row.success == Count(j.items, ItemSuccess)
    && j.row.skipped == Count(j.items, ItemSkipped)
    && j.row.failed == Count(j.items, ItemFailed)
    && j.row.processed == j.row.success + j.row.skipped + j.row.failed
  }

  /** ... and `total` does too. */
  ghost predicate CountersExact(j: Job) {
    Tallied(j) && j.row.total == |j.items|
  }

  /** Every item is in exactly one state. */
  lemma {:induction false} CountsPartition(items: seq<Item>)
    ensures Count(items, ItemReady) + Count(items, ItemRetry) + Count(items, ItemSuccess)
      + Count(items, ItemSkipped) + Count(items, ItemFailed) == |items|
  {
    if items != [] {
      CountsPartition(items[..|items| - 1]);
    }
  }

  /** Writing one item moves it from its old state's count to its new state's count. */
  lemma {:induction false} CountAfterPut(items: seq<Item>, u: Update, s: ItemState)
    requires u.ordinal < |items|
    ensures Count(PutItem(items, u), s) + (if items[u.ordinal].state == s then 1 else 0)
         == Count(items, s) + (if u.state == s then 1 else 0)
  {
    var k := |items| - 1;
    var after := PutItem(items, u);
    if u.ordinal == k {
      assert after[..k] == items[..k];
    } else {
      assert after[..k] == PutItem(items[..k], u);
      CountAfterPut(items[..k], u, s);
    }
  }

  /** What `total` is made of: exactly when it is the number of items. */
  lemma TotalIsConserved(j: Job)
    requires Tallied(j)
    ensures j.row.total == j.row.processed + Count(j.items, ItemReady) + Count(j.items, ItemRetry) <==>
      j.row.total == |j.items|
  {
    CountsPartition(j.items);
  }

  /** New READY items change no result count. */
  lemma {:induction false} CountWithItems(items: seq<Item>, count: nat, s: ItemState)
    requires !s.ItemReady?
    ensures Count(WithItems(items, count), s) == Count(items, s)
    decreases count
  {
    if count > |items| {
      CountWithItems(items, count - 1, s);
      assert WithItems(items, count)[..count - 1] == WithItems(items, count - 1);
    } else {
      assert WithItems(items, count) == items;
    }
  }

  /**
   Which writes keep the result counters: result batches, state changes, new items and checkpoints always do;
   `submit_mark_retry`, which does not recount, does so exactly when the item it marks was still pending (or has
   no row).
   */
  lemma TalliedAfter(j: Job, w: Write)
    requires Tallied(j)
    ensures Tallied(Commit(j, w)) <==> (w.MarkRetry? && w.ordinal < |j.items| ==> Pending(j.items[w.ordinal].state))
  {
    if w.MarkRetry? && w.ordinal < |j.items| {
      var u := Update(w.ordinal, ItemRetry, w.attempts);
      CountAfterPut(j.items, u, ItemSuccess);
      CountAfterPut(j.items, u, ItemSkipped);
      CountAfterPut(j.items, u, ItemFailed);
    } else if w.AddItems? {
      CountWithItems(j.items, w.count, ItemSuccess);
      CountWithItems(j.items, w.count, ItemSkipped);
      CountWithItems(j.items, w.count, ItemFailed);
    }
  }

  /** ... and `total` with them, unless fewer items are added than the job already has. */
  lemma CountersExactAfter(j: Job, w: Write)
    requires CountersExact(j)
    ensures CountersExact(Commit(j, w)) <==>
      && (w.MarkRetry? && w.ordinal < |j.items| ==> Pending(j.items[w.ordinal].state))
      && (w.AddItems? ==> |j.items| <= w.count)
  {
    TalliedAfter(j, w);
  }

  /** What a result batch leaves beside its items: the whole checkpoint is the last update's ordinal. */
  lemma BatchMeaning(j: Job, us: seq<Update>)
    ensures var row := Commit(j, UpdateItems(us)).row;
      && row.state == j.row.state && row.waitingUntil == j.row.waitingUntil && row.total == j.row.total
      && (us == [] ==> row.checkpoint == j.row.checkpoint)
      && (us != [] ==>
            && row.checkpoint.lastOrdinal == Some(us[|us| - 1].ordinal)
            && row.checkpoint.action == None && row.checkpoint.recovered == false)
  {
  }

  /** What marking an item for retry leaves: its attempts, for whoever reads the row next, and nothing else. */
  lemma RetryMeaning(j: Job, o: nat, attempts: nat)
    ensures var k := Commit(j, MarkRetry(o, attempts));
      && k.row == j.row && |k.items| == |j.items|
      && (o < |j.items| ==> k.items[o].state == ItemRetry && k.items[o].attempts == attempts)
      && forall i :: 0 <= i < |j.items| && i != o ==> k.items[i] == j.items[i]
  {
  }

  /** What a state change leaves: the state, and deadline and checkpoint only where the call names them. */
  lemma StateMeaning(j: Job, state: JobState, until: Option<real>, cp: Option<Checkpoint>, clear: bool)
    ensures var k := Commit(j, SetState(state, until, cp, clear));
      && k.items == j.items && k.row.state == state
      && (until.Some? ==> k.row.waitingUntil == until)
      && (until.None? && clear ==> k.row.waitingUntil == None)
      && (until.None? && !clear ==> k.row.waitingUntil == j.row.waitingUntil)
      && (cp.Some? ==> Some(k.row.checkpoint) == cp) && (cp.None? ==> k.row.checkpoint == j.row.checkpoint)
      && k.row == j.row.(state := k.row.state, waitingUntil := k.row.waitingUntil, checkpoint := k.row.checkpoint)
  {
  }

  /** Number of items with a result. */
  function Results(items: seq<Item>): nat {
    Count(items, ItemSuccess) + Count(items, ItemSkipped) + Count(items, ItemFailed)
  }

  /** Results for distinct pending items are counted once each. */
  lemma {:induction false} ResultsGrow(items: seq<Item>, us: seq<Update>)
    requires forall k :: 0 <= k < |us| ==>
      us[k].ordinal < |items| && Pending(items[us[k].ordinal].state) && !Pending(us[k].state)
    requires forall k, l :: 0 <= k < l < |us| ==> us[k].ordinal != us[l].ordinal
    ensures Results(PutItems(items, us)) == Results(items) + |us|
  {
    if us != [] {
      var k := |us| - 1;
      ResultsGrow(items, us[..k]);
      PutElsewhere(items, us[..k], us[k].ordinal);
      var mid := PutItems(items, us[..k]);
      CountAfterPut(mid, us[k], ItemSuccess);
      CountAfterPut(mid, us[k], ItemSkipped);
      CountAfterPut(mid, us[k], ItemFailed);
    }
  }

  /** A row no update names stays as it is. */
  lemma {:induction false} PutElsewhere(items: seq<Item>, us: seq<Update>, o: nat)
    requires o < |items| && forall k :: 0 <= k < |us| ==> us[k].ordinal != o
    ensures PutItems(items, us)[o] == items[o]
  {
    if us != [] {
      PutElsewhere(items, us[..|us| - 1], o);
    }
  }

  /** A row that exactly one update names takes that update. */
  lemma {:induction false} PutHere(items: seq<Item>, us: seq<Update>, k: nat)
    requires k < |us| && us[k].ordinal < |items|
    requires forall i, j :: 0 <= i < j < |us| ==> us[i].ordinal != us[j].ordinal
    ensures PutItems(items, us)[us[k].ordinal] == Item(us[k].state, us[k].attempts)
  {
    var last := |us| - 1;
    if k < last {
      PutHere(items, us[..last], k);
    }
  }

  // ------------------------------------------------------------------------------------------
  // The same writes sent through the writer
  // ------------------------------------------------------------------------------------------

  /** The operation `task` performs exactly the write `w`. */
  ghost predicate Performs(task: DbWriter.Task<Job, ()>, w: Write) {
    forall j: Job :: task.run(j) == DbWriter.Done(Commit(j, w), ())
  }

  /** The writes whose futures succeeded, in submission order. */
  ghost function Accepted(ws: seq<Write>, futures: seq<DbWriter.Future<()>>): seq<Write>
    requires |ws| == |futures|
  {
    if ws == [] then []
    else
      var k := |ws| - 1;
      Accepted(ws[..k], futures[..k]) + (if futures[k].Resolved? then [ws[k]] else [])
  }

  lemma {:induction false} SerialIsCommitAll(
    j: Job, ws: seq<Write>, tasks: seq<DbWriter.Task<Job, ()>>, futures: seq<DbWriter.Future<()>>)
    requires |ws| == |tasks| == |futures|
    requires forall i :: 0 <= i < |ws| ==> Performs(tasks[i], ws[i])
    ensures DbWriter.Serial(j, tasks, futures) == Some(CommitAll(j, Accepted(ws, futures)))
  {
    if ws != [] {
      var k := |ws| - 1;
      var front := Accepted(ws[..k], futures[..k]);
      SerialIsCommitAll(j, ws[..k], tasks[..k], futures[..k]);
      if futures[k].Resolved? {
        assert Performs(tasks[k], ws[k]) && futures[k].value == ();
        assert (front + [ws[k]])[..|front|] == front;
      } else {
        assert front + [] == front;
      }
    }
  }

  /**
   Over every history of the writer, whatever failed, the job's rows are the writes whose futures succeeded,
   folded in submission order.
   */
  lemma RowsFollowSubmissionOrder(j: Job, es: seq<DbWriter.Event<Job, ()>>, ws: seq<Write>)
    requires var s := DbWriter.Run(DbWriter.Init(j), es);
      |ws| == |s.tasks| && forall i :: 0 <= i < |ws| ==> Performs(s.tasks[i], ws[i])
    ensures var s := DbWriter.Run(DbWriter.Init(j), es);
      |s.futures| == |ws| && s.db == CommitAll(j, Accepted(ws, s.futures))
  {
    var s := DbWriter.Run(DbWriter.Init(j), es);
    DbWriter.WriterRefinesSequentialStore(j, es);
    SerialIsCommitAll(j, ws, s.tasks, s.futures);
  }

  // ------------------------------------------------------------------------------------------
  // The repository's tables, updated in place
  // ------------------------------------------------------------------------------------------

  /** The two tables of one job; each method is the body of the corresponding submitted operation. */
  class Tables {
    var row: Row
    var items: seq<Item>

    ghost function View(): Job
      reads this
    {
      Job(row, items)
    }

    /** `create`. */
    constructor (total: nat)
      ensures View() == NewJob(total)
    {
      row := Row(Ready, None, Checkpoint(None, None, false), total, 0, 0, 0, 0);
      items := [];
    }

    /** `submit_add_items`: executemany of INSERT OR IGNORE, then the total. */
    method AddItems(count: nat)
      modifies this
      ensures View() == Commit(old(View()), Write.AddItems(count))
      ensures forall i :: 0 <= i < |old(items)| ==> items[i] == old(items)[i]
      ensures forall i :: |old(items)| <= i < count ==> items[i] == Item(ItemReady, 0)
    {
      for i := 0 to count
        invariant row == old(row) && items == WithItems(old(items), i)
      {
        if i >= |items| {
          items := items + [Item(ItemReady, 0)];
        }
      }
      row := row.(total := count);
    }

    /** `submit_checkpoint`. */
    method SaveCheckpoint(value: Checkpoint)
      modifies this`row
      ensures View() == Commit(old(View()), PutCheckpoint(value))
    {
      row := row.(checkpoint := value);
    }

    method CountIn(s: ItemState) returns (n: nat)
      ensures n == Count(items, s)
    {
      n := 0;
      var i := 0;
      while i < |items|
        invariant 0 <= i <= |items| && n == Count(items[..i], s)
      {
        assert items[..i + 1][..i] == items[..i];
        if items[i].state == s {
          n := n + 1;
        }
        i := i + 1;
      }
      assert items[..|items|] == items;
    }

    method UpdateItemsBatch(updates: seq<Update>)
      modifies this
      ensures View() == Commit(old(View()), UpdateItems(updates))
    {
      var i := 0;
      while i < |updates|
        invariant 0 <= i <= |updates| && row == old(row)
        invariant items == PutItems(old(items), updates[..i])
      {
        assert updates[..i + 1][..i] == updates[..i];
        if updates[i].ordinal < |items| {
          items := items[updates[i].ordinal := Item(updates[i].state, updates[i].attempts)];
        }
        i := i + 1;
      }
      assert updates[..|updates|] == updates;
      var success := CountIn(ItemSuccess);
      var skipped := CountIn(ItemSkipped);
      var failed := CountIn(ItemFailed);
      row := row.(processed := success + skipped + failed, success := success, skipped := skipped, failed := failed);
      if updates != [] {
        row := row.(checkpoint := BatchCheckpoint(updates));
      }
    }

    method MarkForRetry(ordinal: nat, attempts: nat)
      modifies this`items
      ensures View() == Commit(old(View()), MarkRetry(ordinal, attempts))
    {
      if ordinal < |items| {
        items := items[ordinal := Item(ItemRetry, attempts)];
      }
    }

    method Transition(state: JobState, until: Option<real>, checkpoint: Option<Checkpoint>, clearWaiting: bool)
      modifies this`row
      ensures View() == Commit(old(View()), SetState(state, until, checkpoint, clearWaiting))
    {
      row := row.(state := state);
      if until.Some? || clearWaiting {
        row := row.(waitingUntil := until);
      }
      if checkpoint.Some? {
        row := row.(checkpoint := checkpoint.value);
      }
    }
  }
}
