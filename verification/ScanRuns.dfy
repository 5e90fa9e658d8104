/**
 How scans end, over whole lives: cancelled exactly if the user asked for it, completed otherwise, and with which offset.
 */
module ScanRuns {
  import opened Core
  import opened MemberStore
  import opened Ingest
  import opened Scanner

  // ------------------------------------------------------------------------------------------
  // Cancelled or completed
  // ------------------------------------------------------------------------------------------

  /** A scan of this job can be started. */
  predicate Startable(w: World) {
    w.live.None? && (w.state.Ready? || w.state.Paused?)
  }

  /** The user has cancelled the scan that is live, or that was live last. */
  ghost predicate Asked(src: Source, w: World, steps: seq<Step>) {
    steps != [] &&
    var k := |steps| - 1;
    var m := Run(src, w, steps[..k]);
    if steps[k].Cancel? && m.live.Some? then true
    else if steps[k].Start? && Startable(m) then false
    else Asked(src, w, steps[..k])
  }

  /** The offset that scan began with. */
  ghost function Began(src: Source, w: World, steps: seq<Step>): nat {
    if steps == [] then 0
    else
      var k := |steps| - 1;
      var m := Run(src, w, steps[..k]);
      if steps[k].Start? && Startable(m) then m.saved.offset else Began(src, w, steps[..k])
  }

  /** RAM and row know whether the user asked. */
  ghost predicate Knows(w: World, asked: bool) {
    && (w.live.Some? ==> (w.live.value.cancel <==> asked) && (w.live.value.cancelled ==> asked))
    && (w.state.Cancelled? ==> asked)
    && (w.state.Completed? ==> !asked)
    && (w.state.Cancelled? || w.state.Completed? ==> w.live.None?)
  }

  lemma StepKnows(src: Source, w: World, step: Step, asked: bool)
    requires Knows(w, asked) && (w.live.Some? ==> w.state.Running?)
    ensures Knows(Next(src, w, step),
      if step.Cancel? && w.live.Some? then true else if step.Start? && Startable(w) then false else asked)
  {
  }

  lemma {:induction false} RunKnows(src: Source, db: DB, steps: seq<Step>)
    requires Inv(db) && src.target.dataset in db.counts
    ensures Knows(Run(src, Init(db), steps), Asked(src, Init(db), steps))
  {
    if steps != [] {
      var k := |steps| - 1;
      RunKnows(src, db, steps[..k]);
      RunKeepsScan(src, UidsOf(db, src.target.dataset), Init(db), steps[..k]);
      StepKnows(src, Run(src, Init(db), steps[..k]), steps[k], Asked(src, Init(db), steps[..k]));
    }
  }

  /**
   Over every life a scan ends CANCELLED only if the user asked while it was live, and COMPLETED only if not; and a
   scan that finishes ends one of the two ways, by whether the user asked.
   */
  lemma ScanEndsAsAsked(src: Source, db: DB, steps: seq<Step>)
    requires Inv(db) && src.target.dataset in db.counts
    ensures var w := Run(src, Init(db), steps);
      var asked := Asked(src, Init(db), steps);
      && (w.state.Cancelled? ==> asked) && (w.state.Completed? ==> !asked)
      && (w.live.Some? && Next(src, w, Finish) != w ==>
            Next(src, w, Finish).live.None? && Next(src, w, Finish).state == if asked then Cancelled else Completed)
  {
    RunKnows(src, db, steps);
  }

  /** Once cancelled, the scan fetches no further page, in every life and whatever step comes next. */
  lemma CancelStopsTheProducer(src: Source, db: DB, steps: seq<Step>, step: Step)
    requires Inv(db) && src.target.dataset in db.counts && Run(src, Init(db), steps).live.Some?
    requires step.Cancel? || Run(src, Init(db), steps).live.value.cancel
    ensures var w := Run(src, Init(db), steps);
      var t := Next(src, w, step);
      t.live.Some? ==> t.live.value.cancel && t.live.value.produced == w.live.value.produced
  {
  }

  // ------------------------------------------------------------------------------------------
  // The offset a scan ends with
  // ------------------------------------------------------------------------------------------

  /**
   The offset an undisturbed scan saves last: `saved` so far, the next page at `at`, ids `seen`, `held` members in the
   open batch.  A batch is saved when it has 250 members, and at the end if it has any.
   */
  function FinalOffset(src: Source, saved: nat, at: nat, seen: set<int>, held: nat): nat
    requires at <= |src.people|
    decreases |src.people| - at
  {
    var end := PageEnd(src, at);
    if end == at then (if held == 0 then saved else at)
    else
      var r := Absorb(seen, [], src.people[at..end]);
      if held + |r.1| >= 250 then FinalOffset(src, end, end, r.0, 0)
      else FinalOffset(src, saved, end, r.0, held + |r.1|)
  }

  /** Where a live scan will end. */
  function Destiny(src: Source, s: Session): nat
    requires s.reached <= |src.people|
  {
    match s.consumer
    case Getting => FinalOffset(src, s.cp.offset, s.reached, s.seen, |s.batch|)
    case Ingesting(last) => if last then s.reached else FinalOffset(src, s.reached, s.reached, s.seen, 0)
    case Checkpointing(last) => if last then s.reached else FinalOffset(src, s.reached, s.reached, s.seen, 0)
    case Drained => s.cp.offset
  }

  /** The pages in transit are the ones the list has. */
  predicate Paged(src: Source, queue: seq<Envelope>, at: nat) {
    queue == [] || queue[0].Sentinel?
    || (at <= |src.people| && at < queue[0].next == PageEnd(src, at) && Paged(src, queue[1..], queue[0].next))
  }

  /** What the batch holds before a page is of no concern to absorbing it. */
  lemma {:induction false} AbsorbShift(seen: set<int>, batch: seq<Member>, page: seq<Member>)
    ensures Absorb(seen, batch, page) == (Absorb(seen, [], page).0, batch + Absorb(seen, [], page).1)
    decreases |page|
  {
    if page == [] {
      assert batch + [] == batch;
    } else {
      var m := page[0];
      if m.uid.None? {
        AbsorbShift(seen, batch + [m], page[1..]);
        AbsorbShift(seen, [m], page[1..]);
        assert [] + [m] == [m];
        var rest := Absorb(seen, [], page[1..]).1;
        assert (batch + [m]) + rest == batch + ([m] + rest);
      } else if m.uid.value in seen {
        AbsorbShift(seen, batch, page[1..]);
      } else {
        AbsorbShift(seen + {m.uid.value}, batch + [m], page[1..]);
        AbsorbShift(seen + {m.uid.value}, [m], page[1..]);
        assert [] + [m] == [m];
        var rest := Absorb(seen + {m.uid.value}, [], page[1..]).1;
        assert (batch + [m]) + rest == batch + ([m] + rest);
      }
    }
  }

  /** An undisturbed scan: its pages are in place and it will end where it was to end. */
  ghost predicate OnCourse(src: Source, s: Session, goal: nat) {
    s.reached <= |src.people| && Paged(src, InTransit(s), s.reached) && Destiny(src, s) == goal
  }

  lemma {:induction false} PagedAppend(src: Source, queue: seq<Envelope>, at: nat, mid: nat, e: Envelope)
    requires Paged(src, queue, at) && Slices(src.people, queue, at, mid) && !HasSentinel(queue)
    requires e.Sentinel? || (mid <= |src.people| && mid < e.next == PageEnd(src, mid))
    ensures Paged(src, queue + [e], at)
    decreases |queue|
  {
    if queue == [] {
      assert queue + [e] == [e] && [e][1..] == [];
    } else {
      assert (queue + [e])[1..] == queue[1..] + [e];
      assert |queue| > 1 && HasSentinel(queue[1..]) ==> HasSentinel(queue);
      PagedAppend(src, queue[1..], queue[0].next, mid, e);
    }
  }

  lemma FetchKeepsCourse(src: Source, s: Session, goal: nat)
    requires PipeInv(src, s) && OnCourse(src, s, goal) && s.producer.Fetching?
    ensures OnCourse(src, FetchPage(src, s), goal)
  {
    var s' := FetchPage(src, s);
    assert InTransit(s) == s.queue && InTransit(s') == s.queue + [s'.producer.envelope];
    PagedAppend(src, s.queue, s.reached, s.produced, s'.producer.envelope);
  }

  lemma GetKeepsCourse(src: Source, s: Session, goal: nat)
    requires PipeInv(src, s) && OnCourse(src, s, goal) && !s.cancel && s.consumer.Getting? && s.queue != []
    ensures OnCourse(src, GetNext(s), goal)
  {
    Dequeue(src, s);
    var s' := GetNext(s);
    assert InTransit(s') == InTransit(s)[1..];
    if s.queue[0].Page? {
      AbsorbShift(s.seen, s.batch, s.queue[0].members);
    } else {
      assert s.queue == [Sentinel];
      assert s.reached == |src.people|;
    }
  }

  lemma PutKeepsCourse(src: Source, s: Session, goal: nat)
    requires OnCourse(src, s, goal) && s.producer.Putting?
    ensures OnCourse(src, PutNext(s), goal)
  {
    assert InTransit(PutNext(s)) == InTransit(s);
  }

  lemma SaveKeepsCourse(src: Source, w: World, s: Session, goal: nat)
    requires DataInv(src, UidsOf(w.db, src.target.dataset), s) && OnCourse(src, s, goal) && s.consumer.Checkpointing?
    ensures SaveCheckpoint(w, s).live.Some? && OnCourse(src, SaveCheckpoint(w, s).live.value, goal)
  {
    assert InTransit(SaveCheckpoint(w, s).live.value) == InTransit(s);
  }

  lemma IngestKeepsCourse(src: Source, w: World, s: Session, goal: nat)
    requires OnCourse(src, s, goal) && s.consumer.Ingesting?
    requires Inv(w.db) && src.target.dataset in w.db.counts
    ensures IngestBatchOf(src, w, s).live.Some? && OnCourse(src, IngestBatchOf(src, w, s).live.value, goal)
  {
    IngestAccounting(w.db, src.target, s.batch);
    BatchKeepsCourse(src, w, s, goal);
  }

  lemma BatchKeepsCourse(src: Source, w: World, s: Session, goal: nat)
    requires OnCourse(src, s, goal) && s.consumer.Ingesting? && Ingest.Ingest(w.db, src.target, s.batch).Tally?
    ensures IngestBatchOf(src, w, s).live.Some? && OnCourse(src, IngestBatchOf(src, w, s).live.value, goal)
  {
    assert InTransit(IngestBatchOf(src, w, s).live.value) == InTransit(s);
  }

  /** An undisturbed scan is on course for the offset its list and its start determine; a completed one has reached it. */
  ghost predicate Heads(src: Source, w: World, asked: bool, goal: nat) {
    && (w.live.Some? && !asked ==> OnCourse(src, w.live.value, goal))
    && (w.state.Completed? ==> w.saved.offset == goal)
  }

  ghost function Goal(src: Source, start: nat): nat {
    if start <= |src.people| then FinalOffset(src, start, start, {}, 0) else 0
  }

  lemma StepHeads(src: Source, base: set<int>, w: World, step: Step, asked: bool, goal: nat)
    requires ScanInv(src, base, w) && Knows(w, asked) && Heads(src, w, asked, goal)
    requires !(step.Cancel? && w.live.Some?) && !(step.Start? && Startable(w))
    ensures Heads(src, Next(src, w, step), asked, goal)
  {
    if w.live.Some? && !asked {
      var s := w.live.value;
      if step.Fetch? && s.producer.Fetching? {
        FetchKeepsCourse(src, s, goal);
      } else if step.Get? && s.consumer.Getting? && s.queue != [] {
        GetKeepsCourse(src, s, goal);
      } else if step.Put? && s.producer.Putting? {
        PutKeepsCourse(src, s, goal);
      } else if step.CommitIngest? && s.consumer.Ingesting? {
        IngestKeepsCourse(src, w, s, goal);
      } else if step.CommitCheckpoint? && s.consumer.Checkpointing? {
        SaveKeepsCourse(src, w, s, goal);
      }
    }
  }

  lemma StartHeads(src: Source, base: set<int>, w: World)
    requires ScanInv(src, base, w) && Startable(w)
    ensures Heads(src, Next(src, w, Start), false, Goal(src, w.saved.offset))
  {
    var s := NewSession(w.saved);
    assert InTransit(s) == [];
  }

  lemma {:induction false} RunHeads(src: Source, db: DB, steps: seq<Step>)
    requires Inv(db) && src.target.dataset in db.counts
    ensures Heads(src, Run(src, Init(db), steps), Asked(src, Init(db), steps), Goal(src, Began(src, Init(db), steps)))
  {
    if steps != [] {
      var k := |steps| - 1;
      var base := UidsOf(db, src.target.dataset);
      var m := Run(src, Init(db), steps[..k]);
      RunHeads(src, db, steps[..k]);
      RunKnows(src, db, steps[..k]);
      RunKeepsScan(src, base, Init(db), steps[..k]);
      if steps[k].Start? && Startable(m) {
        StartHeads(src, base, m);
      } else if !(steps[k].Cancel? && m.live.Some?) {
        StepHeads(src, base, m, steps[k], Asked(src, Init(db), steps[..k]), Goal(src, Began(src, Init(db), steps[..k])));
      }
    }
  }

  // ------------------------------------------------------------------------------------------
  // What that offset is
  // ------------------------------------------------------------------------------------------

  /** A page that adds nothing to the batch holds nothing but ids seen before. */
  lemma {:induction false} AbsorbNothing(seen: set<int>, page: seq<Member>)
    requires Absorb(seen, [], page).1 == []
    ensures forall m :: m in page ==> m.uid.Some? && m.uid.value in seen
    decreases |page|
  {
    if page != [] {
      var m := page[0];
      assert page == [m] + page[1..];
      if m.uid.Some? && m.uid.value in seen {
        AbsorbNothing(seen, page[1..]);
      } else {
        AbsorbMeaning(if m.uid.None? then seen else seen + {m.uid.value}, [] + [m], page[1..]);
        assert false;
      }
    }
  }

  /** Everybody from `r` on has a Telegram id that somebody from `k` below `r` has too. */
  ghost predicate OnlyRepeats(people: seq<Member>, k: nat, r: nat)
    requires k <= r <= |people|
  {
    forall i :: r <= i < |people| ==> people[i].uid.Some? && people[i].uid.value in Uids(people[k..r])
  }

  /** Everybody between the last save and the next page is a repeat while the batch is empty. */
  ghost predicate BehindRepeats(people: seq<Member>, k: nat, saved: nat, at: nat)
    requires k <= saved <= at <= |people|
  {
    forall i :: saved <= i < at ==> people[i].uid.Some? && people[i].uid.value in Uids(people[k..saved])
  }

  lemma {:induction false} FinalOffsetIs(src: Source, k: nat, saved: nat, at: nat, seen: set<int>, held: nat)
    requires k <= saved <= at <= |src.people| && seen == Uids(src.people[k..at])
    requires held == 0 ==> BehindRepeats(src.people, k, saved, at)
    requires src.kind.Chat? ==> at == 0 || at == |src.people|
    ensures saved <= FinalOffset(src, saved, at, seen, held) <= |src.people|
    ensures OnlyRepeats(src.people, k, FinalOffset(src, saved, at, seen, held))
    decreases |src.people| - at
  {
    var people := src.people;
    var end := PageEnd(src, at);
    if end != at {
      var r := Absorb(seen, [], people[at..end]);
      SeenGrows(people, k, at, end);
      if held + |r.1| >= 250 {
        FinalOffsetIs(src, k, end, end, r.0, 0);
      } else {
        if held + |r.1| == 0 {
          NothingNew(people, k, saved, at, end);
        }
        FinalOffsetIs(src, k, saved, end, r.0, held + |r.1|);
      }
    } else {
      ListEnds(src, at);
    }
  }

  /** The ids seen are those of the pages absorbed. */
  lemma SeenGrows(people: seq<Member>, k: nat, at: nat, end: nat)
    requires k <= at <= end <= |people|
    ensures Absorb(Uids(people[k..at]), [], people[at..end]).0 == Uids(people[k..end])
  {
    AbsorbMeaning(Uids(people[k..at]), [], people[at..end]);
    assert people[k..end] == people[k..at] + people[at..end];
    UidsSplit(people[k..at], people[at..end]);
  }

  /** Without another page the list has ended. */
  lemma ListEnds(src: Source, at: nat)
    requires at <= |src.people| && PageEnd(src, at) == at
    requires src.kind.Chat? ==> at == 0 || at == |src.people|
    ensures at == |src.people|
  {
  }

  /** A page of repeats behind repeats. */
  lemma NothingNew(people: seq<Member>, k: nat, saved: nat, at: nat, end: nat)
    requires k <= saved <= at <= end <= |people| && BehindRepeats(people, k, saved, at)
    requires Absorb(Uids(people[k..at]), [], people[at..end]).1 == []
    ensures BehindRepeats(people, k, saved, end)
  {
    AbsorbNothing(Uids(people[k..at]), people[at..end]);
    assert people[k..at] == people[k..saved] + people[saved..at];
    UidsSplit(people[k..saved], people[saved..at]);
    forall i | saved <= i < end
      ensures people[i].uid.Some? && people[i].uid.value in Uids(people[k..saved])
    {
      if at <= i {
        assert people[at..end][i - at] == people[i] && people[i] in people[at..end];
      }
    }
  }

  /** Somebody in the list has a Telegram id that somebody before has. */
  ghost predicate HasRepeats(people: seq<Member>) {
    exists i, j :: 0 <= j < i < |people| && people[i].uid.Some? && people[j].uid == people[i].uid
  }

  /** A start at a page boundary ends behind everybody but repeats; without repeats, behind everybody. */
  lemma GoalMeaning(src: Source, start: nat)
    requires Boundary(src, start)
    ensures start <= Goal(src, start) <= |src.people| && OnlyRepeats(src.people, start, Goal(src, start))
    ensures !HasRepeats(src.people) ==> Goal(src, start) == |src.people|
  {
    var people := src.people;
    var r := Goal(src, start);
    assert people[start..start] == [] && Uids(people[start..start]) == {};
    FinalOffsetIs(src, start, start, start, {}, 0);
    if r < |people| {
      assert people[r].uid.value in Uids(people[start..r]);
      var m :| m in people[start..r] && m.uid.Some? && m.uid.value == people[r].uid.value;
      var j :| 0 <= j < r - start && people[start..r][j] == m;
      assert people[start + j].uid == people[r].uid;
    }
  }

  lemma {:induction false} BeganAtBoundary(src: Source, db: DB, steps: seq<Step>)
    requires Inv(db) && src.target.dataset in db.counts
    ensures Boundary(src, Began(src, Init(db), steps))
  {
    if steps != [] {
      BeganAtBoundary(src, db, steps[..|steps| - 1]);
      RunKeepsScan(src, UidsOf(db, src.target.dataset), Init(db), steps[..|steps| - 1]);
    }
  }

  /**
   The offset of a completed scan, over every life: exactly the one its list and its starting offset determine.  Nobody
   behind it but repeats of people before it, so that it is the end of the list if the list has no repeats.
   */
  lemma CompletedOffset(src: Source, db: DB, steps: seq<Step>)
    requires Inv(db) && src.target.dataset in db.counts
    requires Run(src, Init(db), steps).state.Completed?
    ensures var w := Run(src, Init(db), steps);
      var start := Began(src, Init(db), steps);
      && start <= w.saved.offset <= |src.people|
      && w.saved.offset == FinalOffset(src, start, start, {}, 0)
      && OnlyRepeats(src.people, start, w.saved.offset)
      && (!HasRepeats(src.people) ==> w.saved.offset == |src.people|)
  {
    RunHeads(src, db, steps);
    BeganAtBoundary(src, db, steps);
    GoalMeaning(src, Began(src, Init(db), steps));
  }

  // ------------------------------------------------------------------------------------------
  // Scans do complete
  // ------------------------------------------------------------------------------------------

  /** Steps of the scan's own, each of which changes the world. */
  ghost predicate Driven(src: Source, w: World, more: seq<Step>) {
    more == [] ||
    var k := |more| - 1;
    var m := Run(src, w, more[..k]);
    Driven(src, w, more[..k]) && Own(more[k]) && Next(src, m, more[k]) != m
  }

  lemma {:induction false} RunAppend(src: Source, w: World, a: seq<Step>, b: seq<Step>)
    ensures Run(src, w, a + b) == Run(src, Run(src, w, a), b)
  {
    if b == [] {
      assert a + b == a;
    } else {
      var k := |b| - 1;
      RunAppend(src, w, a, b[..k]);
      assert (a + b)[..|a + b| - 1] == a + b[..k];
    }
  }

  /** The scan's own steps ask for nothing and start nothing. */
  lemma {:induction false} OwnStepsAskNothing(src: Source, w: World, a: seq<Step>, b: seq<Step>)
    requires Driven(src, Run(src, w, a), b)
    ensures Asked(src, w, a + b) == Asked(src, w, a) && Began(src, w, a + b) == Began(src, w, a)
  {
    if b == [] {
      assert a + b == a;
    } else {
      var k := |b| - 1;
      OwnStepsAskNothing(src, w, a, b[..k]);
      assert (a + b)[..|a + b| - 1] == a + b[..k] && (a + b)[|a + b| - 1] == b[k];
    }
  }

  /** A live scan that nothing but its own steps moves stays live or has finished. */
  lemma {:induction false} DrivenStaysRunning(src: Source, base: set<int>, w: World, more: seq<Step>)
    requires ScanInv(src, base, w) && w.live.Some? && Driven(src, w, more)
    ensures var t := Run(src, w, more);
      && (t.live.None? ==> t.state.Completed? || t.state.Cancelled?)
      && |more| + Work(src, t) <= Work(src, w)
  {
    if more != [] {
      var k := |more| - 1;
      DrivenStaysRunning(src, base, w, more[..k]);
      RunKeepsScan(src, base, w, more[..k]);
      DrivenStep(src, base, Run(src, w, more[..k]), more[k]);
    }
  }

  lemma DrivenStep(src: Source, base: set<int>, m: World, step: Step)
    requires ScanInv(src, base, m) && Own(step) && Next(src, m, step) != m
    ensures Work(src, Next(src, m, step)) < Work(src, m)
    ensures Next(src, m, step).live.None? ==>
      && (m.live.Some? ==> Next(src, m, step).state.Completed? || Next(src, m, step).state.Cancelled?)
      && (m.live.None? ==> Next(src, m, step).state == m.state)
  {
    StepsUseWork(src, base, m, step);
    StepStaysRunning(src, m, step);
  }

  lemma StepStaysRunning(src: Source, m: World, step: Step)
    requires Own(step)
    ensures Next(src, m, step).live.None? ==>
      && (m.live.Some? ==> Next(src, m, step).state.Completed? || Next(src, m, step).state.Cancelled?)
      && (m.live.None? ==> Next(src, m, step).state == m.state)
  {
  }

  /**
   A live scan of any reachable world that the user has not cancelled, driven by its own enabled steps until it is no
   longer live, has completed: the dataset has the Telegram ids that ingesting the list once would give it, and the
   saved offset is the one the list determines, its end if the list has no repeats.  No such drive is longer than the
   remaining work.
   */
  lemma DrivenScanCompletes(src: Source, db: DB, steps: seq<Step>, more: seq<Step>)
    requires Inv(db) && src.target.dataset in db.counts
    requires Run(src, Init(db), steps).live.Some? && !Asked(src, Init(db), steps)
    requires Driven(src, Run(src, Init(db), steps), more)
    ensures var t := Run(src, Run(src, Init(db), steps), more);
      var once := Ingest.Ingest(db, src.target, src.people);
      && |more| <= Work(src, Run(src, Init(db), steps)) && once.Tally?
      && (t.live.None? ==>
            && t.state.Completed?
            && UidsOf(t.db, src.target.dataset) == UidsOf(once.db, src.target.dataset)
            && t.saved.offset == Goal(src, Began(src, Init(db), steps))
            && (!HasRepeats(src.people) ==> t.saved.offset == |src.people|))
  {
    var base := UidsOf(db, src.target.dataset);
    RunKeepsScan(src, base, Init(db), steps);
    DrivenStaysRunning(src, base, Run(src, Init(db), steps), more);
    IngestUids(db, src.target, src.people);
    RunAppend(src, Init(db), steps, more);
    if Run(src, Init(db), steps + more).live.None? {
      OwnStepsAskNothing(src, Init(db), steps, more);
      RunKnows(src, db, steps + more);
      CompletedScanIsComplete(src, db, steps + more);
      CompletedOffset(src, db, steps + more);
    }
  }

  /** ... and such a drive exists from every such world: taking the enabled step each time. */
  lemma {:induction false} DriveOn(src: Source, base: set<int>, w: World) returns (more: seq<Step>)
    requires ScanInv(src, base, w)
    ensures Driven(src, w, more) && Run(src, w, more).live.None?
    decreases Work(src, w)
  {
    if w.live.None? {
      more := [];
    } else {
      var step := Enabled(w.live.value);
      EnabledChanges(src, base, w, w.live.value);
      StepsUseWork(src, base, w, step);
      NextKeeps(src, base, w, step);
      var rest := DriveOn(src, base, Next(src, w, step));
      more := [step] + rest;
      DrivenFirst(src, w, step, rest);
    }
  }

  lemma {:induction false} DrivenFirst(src: Source, w: World, step: Step, rest: seq<Step>)
    requires Own(step) && Next(src, w, step) != w && Driven(src, Next(src, w, step), rest)
    ensures Driven(src, w, [step] + rest) && Run(src, w, [step] + rest) == Run(src, Next(src, w, step), rest)
  {
    assert [step][..0] == [] && Run(src, w, [step]) == Next(src, w, step);
    if rest == [] {
      assert [step] + rest == [step];
      assert Driven(src, w, []);
    } else {
      var k := |rest| - 1;
      DrivenFirst(src, w, step, rest[..k]);
      assert ([step] + rest)[..|rest|] == [step] + rest[..k];
    }
  }

  /** From every reachable world with a live scan that the user has not cancelled some drive completes it. */
  lemma EveryScanCanComplete(src: Source, db: DB, steps: seq<Step>) returns (more: seq<Step>)
    requires Inv(db) && src.target.dataset in db.counts
    requires Run(src, Init(db), steps).live.Some? && !Asked(src, Init(db), steps)
    ensures Driven(src, Run(src, Init(db), steps), more)
    ensures Run(src, Init(db), steps + more).state.Completed? && Run(src, Init(db), steps + more).live.None?
  {
    RunKeepsScan(src, UidsOf(db, src.target.dataset), Init(db), steps);
    more := DriveOn(src, UidsOf(db, src.target.dataset), Run(src, Init(db), steps));
    DrivenScanCompletes(src, db, steps, more);
    RunAppend(src, Init(db), steps, more);
  }

  // ------------------------------------------------------------------------------------------
  // A list with a repeat
  // ------------------------------------------------------------------------------------------

  /** A member known by nothing but a Telegram id. */
  function Nobody(uid: int): Member {
    Member(Some(uid), None, NO_PROFILE, None)
  }

  /** Four hundred people, and the first of them once more. */
  function WithRepeat(): (people: seq<Member>)
    ensures |people| == 401 && forall i :: 0 <= i < 401 ==> people[i] == Nobody(if i < 400 then i else 0)
  {
    seq(401, i => Nobody(if i < 400 then i else 0))
  }

  /** A page of new ids goes into the batch whole. */
  lemma {:induction false} AbsorbFresh(seen: set<int>, page: seq<Member>)
    requires forall i :: 0 <= i < |page| ==> page[i].uid.Some? && page[i].uid.value !in seen
    requires forall i, j :: 0 <= i < j < |page| ==> page[i].uid != page[j].uid
    ensures |Absorb(seen, [], page).1| == |page|
    decreases |page|
  {
    if page != [] {
      var m := page[0];
      assert [] + [m] == [m];
      AbsorbFresh(seen + {m.uid.value}, page[1..]);
      AbsorbShift(seen + {m.uid.value}, [m], page[1..]);
    }
  }

  /** The ids of a stretch of these people. */
  lemma UidsBelow(people: seq<Member>, k: nat)
    requires k <= 400 && people == WithRepeat()
    ensures forall x :: x in Uids(people[..k]) <==> 0 <= x < k
  {
    forall x
      ensures x in Uids(people[..k]) <==> 0 <= x < k
    {
      if 0 <= x < k {
        assert people[..k][x] == Nobody(x) && Nobody(x) in people[..k];
      }
    }
  }

  /** A page of the first four hundred goes into the batch whole. */
  lemma PageOfNew(people: seq<Member>, at: nat)
    requires people == WithRepeat() && at <= 200
    ensures Absorb(Uids(people[..at]), [], people[at..at + 200]).0 == Uids(people[..at + 200])
    ensures |Absorb(Uids(people[..at]), [], people[at..at + 200]).1| == 200
  {
    UidsBelow(people, at);
    AbsorbFresh(Uids(people[..at]), people[at..at + 200]);
    AbsorbMeaning(Uids(people[..at]), [], people[at..at + 200]);
    assert people[..at + 200] == people[..at] + people[at..at + 200];
    UidsSplit(people[..at], people[at..at + 200]);
  }

  /** The last of them is no news. */
  lemma LastPageIsOld(src: Source)
    requires src.people == WithRepeat() && src.kind == Channel
    ensures FinalOffset(src, 400, 400, Uids(src.people[..400]), 0) == 400
  {
    var people := src.people;
    var all := Uids(people[..400]);
    UidsBelow(people, 400);
    assert people[400..401] == [Nobody(0)] && [Nobody(0)][1..] == [];
    assert Absorb(all, [], people[400..401]) == (all, []);
    assert FinalOffset(src, 400, 401, all, 0) == 400;
  }

  /** The scan of this list in a channel is to end one short. */
  lemma GoalFallsShort(t: Target)
    ensures Goal(Source(WithRepeat(), Channel, t), 0) == 400 && HasRepeats(WithRepeat())
  {
    var people := WithRepeat();
    var src := Source(people, Channel, t);
    assert people[400].uid == people[0].uid;
    assert people[..0] == [] && Uids(people[..0]) == {};
    PageOfNew(people, 0);
    PageOfNew(people, 200);
    LastPageIsOld(src);
    assert FinalOffset(src, 0, 200, Uids(people[..200]), 200) == 400;
    assert FinalOffset(src, 0, 0, Uids(people[..0]), 0) == 400;
  }

  /**
   The offset of a completed scan can fall behind the list: into every dataset of every store there is a scan without
   crash, cancel or failure of a list of 401 that completes with the offset 400.
   */
  lemma OffsetCanFallBehind(db: DB, t: Target) returns (steps: seq<Step>)
    requires Inv(db) && t.dataset in db.counts
    ensures var src := Source(WithRepeat(), Channel, t);
      var w := Run(src, Init(db), [Start] + steps);
      && Driven(src, Run(src, Init(db), [Start]), steps)
      && w.state.Completed? && w.saved.offset == 400 < |src.people|
  {
    var src := Source(WithRepeat(), Channel, t);
    var start: seq<Step> := [Start];
    assert start[..0] == [];
    assert Run(src, Init(db), start) == DoStart(Init(db));
    assert Began(src, Init(db), start) == 0;
    steps := EveryScanCanComplete(src, db, start);
    DrivenScanCompletes(src, db, start, steps);
    RunAppend(src, Init(db), start, steps);
    GoalFallsShort(t);
  }

  // ------------------------------------------------------------------------------------------
  // What the checkpoint counts
  // ------------------------------------------------------------------------------------------

  /** Members of a batch without identity. */
  function Unidentified(batch: seq<Member>): nat {
    if batch == [] then 0
    else Unidentified(batch[..|batch| - 1]) + if Identified(batch[|batch| - 1]) then 0 else 1
  }

  lemma {:induction false} FoldCountsInvalid(db: DB, t: Target, batch: seq<Member>)
    requires Inv(db) && t.dataset in db.counts
    ensures Fold(db, t, batch).Tally? && Fold(db, t, batch).invalid == Unidentified(batch)
  {
    if batch != [] {
      var front := batch[..|batch| - 1];
      FoldKeeps(db, t, front);
      FoldCountsInvalid(db, t, front);
      UpsertKeeps(Fold(db, t, front).db, batch[|batch| - 1]);
    }
  }

  /**
   In every life, a batch that commits moves the checkpoint in RAM to the end of the pages absorbed, raises `accepted` by
   the growth of the dataset plus the merges inside it, and `invalid` by the members without identity; the checkpoint
   write that follows saves exactly that.
   */
  lemma CheckpointCounts(src: Source, db: DB, steps: seq<Step>)
    requires Inv(db) && src.target.dataset in db.counts
    requires var w := Run(src, Init(db), steps); w.live.Some? && w.live.value.consumer.Ingesting?
    ensures var w := Run(src, Init(db), steps);
      var s := w.live.value;
      var d := src.target.dataset;
      var w' := Next(src, w, CommitIngest);
      && w'.live.Some? && w'.saved == w.saved
      && w'.live.value.cp.offset == s.reached
      && w'.live.value.cp.accepted - s.cp.accepted ==
           |MembersOf(w'.db, d)| - |MembersOf(w.db, d)| + Collapsed(w.db, src.target, s.batch, d)
      && w'.live.value.cp.invalid == s.cp.invalid + Unidentified(s.batch)
      && Next(src, w', CommitCheckpoint).saved == w'.live.value.cp
  {
    RunKeepsScan(src, UidsOf(db, src.target.dataset), Init(db), steps);
    BatchCounts(src, Run(src, Init(db), steps));
  }

  lemma BatchCounts(src: Source, w: World)
    requires Inv(w.db) && src.target.dataset in w.db.counts && w.live.Some? && w.live.value.consumer.Ingesting?
    ensures var s := w.live.value;
      var d := src.target.dataset;
      var w' := Next(src, w, CommitIngest);
      && w'.live.Some? && w'.saved == w.saved
      && w'.live.value.cp.offset == s.reached
      && w'.live.value.cp.accepted - s.cp.accepted ==
           |MembersOf(w'.db, d)| - |MembersOf(w.db, d)| + Collapsed(w.db, src.target, s.batch, d)
      && w'.live.value.cp.invalid == s.cp.invalid + Unidentified(s.batch)
      && Next(src, w', CommitCheckpoint).saved == w'.live.value.cp
  {
    IngestAccounting(w.db, src.target, w.live.value.batch);
    FoldCountsInvalid(w.db, src.target, w.live.value.batch);
    assert Next(src, w, CommitIngest) == IngestBatchOf(src, w, w.live.value);
  }

  // ------------------------------------------------------------------------------------------
  // Failures and fresh starts
  // ------------------------------------------------------------------------------------------

  /** No scan is live and none can be started any more. */
  predicate Over(w: World) {
    w.live.None? && (w.state == Completed || w.state == Cancelled || w.state == Failed)
  }

  /** A scan that is over stays as it is. */
  lemma {:induction false} OverStays(src: Source, w: World, more: seq<Step>)
    requires Over(w)
    ensures Run(src, w, more) == w
  {
    if more != [] {
      OverStays(src, w, more[..|more| - 1]);
    }
  }

  /**
   An exception ends a live scan for good, in every life: FAILED, with the checkpoint it had in RAM, after the batch
   whose write was already queued; and so for ever.
   */
  lemma FailureIsFinal(src: Source, db: DB, steps: seq<Step>, more: seq<Step>)
    requires Inv(db) && src.target.dataset in db.counts && Run(src, Init(db), steps).live.Some?
    ensures var w := Run(src, Init(db), steps);
      var s := w.live.value;
      var t := Next(src, w, Fail);
      && t.live == None && t.state == Failed && t.saved == s.cp
      && (if s.consumer.Ingesting? then t.db == Next(src, w, CommitIngest).db else t.db == w.db)
      && Run(src, t, more) == t
  {
    RunKeepsScan(src, UidsOf(db, src.target.dataset), Init(db), steps);
    FailureEnds(src, Run(src, Init(db), steps));
    OverStays(src, Next(src, Run(src, Init(db), steps), Fail), more);
  }

  lemma FailureEnds(src: Source, w: World)
    requires w.live.Some? && Inv(w.db) && src.target.dataset in w.db.counts
    ensures var s := w.live.value;
      var t := Next(src, w, Fail);
      && t.live == None && t.state == Failed && t.saved == s.cp
      && (if s.consumer.Ingesting? then t.db == Next(src, w, CommitIngest).db else t.db == w.db)
  {
    assert Next(src, w, Fail) == DoFail(src, w, w.live.value);
    if w.live.value.consumer.Ingesting? {
      IngestAccounting(w.db, src.target, w.live.value.batch);
      assert Next(src, w, CommitIngest) == IngestBatchOf(src, w, w.live.value);
    }
  }

  /** What a scan starts with: the saved checkpoint, whose count of invalid members its first write drops. */
  lemma StartMeaning(src: Source, w: World)
    requires w.live == None && (w.state == Ready || w.state == Paused)
    ensures var t := Next(src, w, Start);
      && t.db == w.db && t.state == Running && t.live.Some?
      && t.saved.offset == w.saved.offset && t.saved.accepted == w.saved.accepted && t.saved.invalid == 0
      && t.live.value.cp == w.saved && t.live.value.reached == t.live.value.produced == w.saved.offset
      && t.live.value.batch == [] && t.live.value.queue == [] && t.live.value.seen == {} && !t.live.value.cancel
  {
  }

  /**
   Whatever crashed, a scan that is not over can be brought to its end: from every reachable world without a live scan,
   normalising the job, starting it and taking its own steps completes it.
   */
  lemma EveryScanCanRestart(src: Source, db: DB, steps: seq<Step>) returns (more: seq<Step>)
    requires Inv(db) && src.target.dataset in db.counts
    requires Run(src, Init(db), steps).live.None? && !Over(Run(src, Init(db), steps))
    ensures Driven(src, Run(src, Init(db), steps + [Normalize, Start]), more)
    ensures Run(src, Init(db), steps + [Normalize, Start] + more).state.Completed?
  {
    var life := steps + [Normalize, Start];
    var w := Run(src, Init(db), steps);
    NotOverIsPaused(src, db, steps);
    assert life[..|life| - 1] == steps + [Normalize] && (steps + [Normalize])[..|steps|] == steps;
    assert Run(src, Init(db), steps + [Normalize]) == Next(src, w, Normalize);
    assert Startable(Next(src, w, Normalize));
    more := EveryScanCanComplete(src, db, life);
  }

  /** Between scans the job is READY, PAUSED, over, or RUNNING until it is normalised. */
  lemma {:induction false} NotOverIsPaused(src: Source, db: DB, steps: seq<Step>)
    ensures var w := Run(src, Init(db), steps);
      w.live.None? ==> w.state.Ready? || w.state.Paused? || w.state.Running? || Over(w)
    ensures var w := Run(src, Init(db), steps); w.live.Some? ==> w.state.Running?
  {
    if steps != [] {
      NotOverIsPaused(src, db, steps[..|steps| - 1]);
      StepIsBetween(src, Run(src, Init(db), steps[..|steps| - 1]), steps[|steps| - 1]);
    }
  }

  lemma StepIsBetween(src: Source, w: World, step: Step)
    requires w.live.None? ==> w.state.Ready? || w.state.Paused? || w.state.Running? || Over(w)
    requires w.live.Some? ==> w.state.Running?
    ensures var t := Next(src, w, step);
      && (t.live.None? ==> t.state.Ready? || t.state.Paused? || t.state.Running? || Over(t))
      && (t.live.Some? ==> t.state.Running?)
  {
  }
}
