/**
 The ledger of one run: which pending items it still has to conclude, in which order, and which ones it leaves
 behind.  Everything here is about a job, a line of ordinals and a set of missed ones; `EngineFlow` says what
 these are in a state of the engine.
 */
module EngineLedger {
  import opened Core
  import opened JobStore
  import opened Engine
  import CB = CandidateBuffer

  // ------------------------------------------------------------------------------------------
  // Lines
  // ------------------------------------------------------------------------------------------

  /** Concatenation that leaves its arguments alone when one of them is empty. */
  function Cat<T(==)>(a: seq<T>, b: seq<T>): (r: seq<T>)
    ensures |r| == |a| + |b|
  {
    if a == [] then b else if b == [] then a else a + b
  }

  lemma CatAssociates<T>(a: seq<T>, b: seq<T>, c: seq<T>)
    ensures Cat(Cat(a, b), c) == Cat(a, Cat(b, c))
  {
    if a != [] && b != [] && c != [] {
      assert (a + b) + c == a + (b + c);
    }
  }

  lemma CatHolds<T>(a: seq<T>, b: seq<T>, x: T)
    ensures x in Cat(a, b) <==> x in a || x in b
  {
  }

  lemma OrdinalsCat(a: seq<Update>, b: seq<Update>)
    ensures Ordinals(Cat(a, b)) == Cat(Ordinals(a), Ordinals(b))
  {
    if a != [] && b != [] {
      assert Ordinals(a + b) == Ordinals(a) + Ordinals(b);
    }
  }

  ghost predicate InOrder(line: seq<nat>, i: nat, j: nat) {
    i < |line| && j < |line| && line[i] < line[j]
  }

  ghost predicate Sorted(line: seq<nat>) {
    forall i: nat, j: nat :: i < j < |line| ==> InOrder(line, i, j)
  }

  /** Sortedness spelled out. */
  lemma SortedMeans(line: seq<nat>)
    ensures Sorted(line) <==> forall i, j :: 0 <= i < j < |line| ==> line[i] < line[j]
  {
    if Sorted(line) {
      forall i, j | 0 <= i < j < |line|
        ensures line[i] < line[j]
      {
        assert InOrder(line, i, j);
      }
    }
  }

  ghost predicate IsPending(items: seq<Item>, x: nat) {
    x < |items| && Pending(items[x].state)
  }

  /** The same of an item already found, so that finding it again is not tried. */
  ghost predicate StillPending(items: seq<Item>, x: nat) {
    x < |items| && Pending(items[x].state)
  }

  /** Exactly the items below `processed` are concluded. */
  ghost predicate Prefix(job: Job) {
    && job.row.processed <= |job.items|
    && forall i :: 0 <= i < |job.items| ==> (Pending(job.items[i].state) <==> job.row.processed <= i)
  }

  /** Every pending item is in line or missed. */
  ghost predicate Covers(items: seq<Item>, line: seq<nat>, missed: set<nat>) {
    forall x :: IsPending(items, x) ==> x in missed || x in line
  }

  /**
   The items in line are pending, ascending and not missed; the missed ones are pending; a full ledger has every
   pending item; and in a whole life (no flush rejected) the concluded items are a prefix that the line continues.
   */
  ghost predicate Ledger(job: Job, line: seq<nat>, missed: set<nat>, full: bool, whole: bool) {
    && Tallied(job)
    && Sorted(line)
    && (forall k :: 0 <= k < |line| ==> StillPending(job.items, line[k]) && line[k] !in missed)
    && (forall x :: x in missed ==> StillPending(job.items, x))
    && (full ==> Covers(job.items, line, missed))
    && (whole ==> Prefix(job) && Continues(job, line) && (missed != {} ==> line == []))
  }

  /** The line starts where the concluded items end. */
  ghost predicate Continues(job: Job, line: seq<nat>) {
    forall k :: 0 <= k < |line| ==> line[k] == job.row.processed + k
  }

  // ------------------------------------------------------------------------------------------
  // Results reach the table
  // ------------------------------------------------------------------------------------------

  ghost predicate Concluding(us: seq<Update>) {
    forall k :: 0 <= k < |us| ==> !Pending(us[k].state)
  }

  /** The first results of the line are written: their items, and no others, stop being pending. */
  lemma PendingAfterBatch(items: seq<Item>, us: seq<Update>, x: nat)
    requires Sorted(Ordinals(us)) && Concluding(us)
    requires forall k :: 0 <= k < |us| ==> us[k].ordinal < |items|
    ensures IsPending(PutItems(items, us), x) <==> IsPending(items, x) && x !in Ordinals(us)
  {
    var os := Ordinals(us);
    SortedMeans(os);
    assert forall k :: 0 <= k < |us| ==> os[k] == us[k].ordinal;
    if x < |items| {
      if x in os {
        var k :| 0 <= k < |us| && os[k] == x;
        PutHere(items, us, k);
      } else {
        assert forall k :: 0 <= k < |us| ==> us[k].ordinal != x by {
          assert forall k :: 0 <= k < |us| ==> os[k] in os;
        }
        PutElsewhere(items, us, x);
      }
    }
  }

  lemma BatchTallies(job: Job, us: seq<Update>)
    requires Tallied(job) && Sorted(Ordinals(us)) && Concluding(us)
    requires forall k :: 0 <= k < |us| ==> IsPending(job.items, us[k].ordinal)
    ensures var after := Commit(job, UpdateItems(us));
      Tallied(after) && after.row.processed == job.row.processed + |us|
  {
    SortedMeans(Ordinals(us));
    assert forall k :: 0 <= k < |us| ==> Ordinals(us)[k] == us[k].ordinal;
    TalliedAfter(job, UpdateItems(us));
    ResultsGrow(job.items, us);
  }

  /** The parts of a sorted line are sorted, and the second lies wholly behind the first. */
  lemma SortedParts(os: seq<nat>, rest: seq<nat>)
    requires Sorted(Cat(os, rest))
    ensures Sorted(os) && Sorted(rest)
    ensures forall k :: 0 <= k < |rest| ==> rest[k] !in os
  {
    if os != [] && rest != [] {
      var line := os + rest;
      SortedMeans(line);
      SortedMeans(os);
      SortedMeans(rest);
      assert forall k :: 0 <= k < |os| ==> os[k] == line[k];
      assert forall k :: 0 <= k < |rest| ==> rest[k] == line[|os| + k];
      forall k | 0 <= k < |rest|
        ensures rest[k] !in os
      {
        assert forall i :: 0 <= i < |os| ==> line[i] < line[|os| + k];
      }
    }
  }

  /** Both parts of a line in a ledger are pending and not missed. */
  lemma PendingParts(job: Job, os: seq<nat>, rest: seq<nat>, missed: set<nat>, full: bool, whole: bool)
    requires Ledger(job, Cat(os, rest), missed, full, whole)
    ensures forall k :: 0 <= k < |os| ==> StillPending(job.items, os[k]) && os[k] !in missed
    ensures forall k :: 0 <= k < |rest| ==> StillPending(job.items, rest[k]) && rest[k] !in missed
    ensures whole ==> Continues(job, os) && forall k :: 0 <= k < |rest| ==> rest[k] == job.row.processed + |os| + k
    ensures whole && missed != {} ==> os == [] && rest == []
  {
    if os != [] && rest != [] {
      var line := os + rest;
      assert forall k :: 0 <= k < |os| ==> os[k] == line[k];
      assert forall k :: 0 <= k < |rest| ==> rest[k] == line[|os| + k];
    }
  }

  /** A line that loses its head together with the pending items the head names. */
  lemma LedgerTail(job: Job, after: Job, os: seq<nat>, rest: seq<nat>, missed: set<nat>, full: bool, whole: bool)
    requires Ledger(job, Cat(os, rest), missed, full, whole) && Tallied(after)
    requires forall x: nat :: IsPending(after.items, x) <==> IsPending(job.items, x) && x !in os
    requires whole ==> Prefix(after) && after.row.processed == job.row.processed + |os|
    ensures Ledger(after, rest, missed, full, whole)
  {
    SortedParts(os, rest);
    PendingParts(job, os, rest, missed, full, whole);
    forall k | 0 <= k < |rest|
      ensures StillPending(after.items, rest[k])
    {
      assert IsPending(after.items, rest[k]);
    }
    forall x | x in missed
      ensures StillPending(after.items, x)
    {
      assert IsPending(after.items, x);
    }
    forall x: nat | IsPending(after.items, x)
      ensures full ==> x in missed || x in rest
    {
      CatHolds(os, rest, x);
    }
  }

  /** Committing the oldest results takes exactly them out of the line. */
  lemma CommitBatch(job: Job, us: seq<Update>, rest: seq<nat>, missed: set<nat>, full: bool, whole: bool)
    requires Ledger(job, Cat(Ordinals(us), rest), missed, full, whole) && Concluding(us)
    ensures Ledger(Commit(job, UpdateItems(us)), rest, missed, full, whole)
    ensures Commit(job, UpdateItems(us)).row.processed == job.row.processed + |us|
  {
    var os := Ordinals(us);
    var after := Commit(job, UpdateItems(us));
    SortedParts(os, rest);
    PendingParts(job, os, rest, missed, full, whole);
    assert forall k :: 0 <= k < |us| ==> os[k] == us[k].ordinal;
    BatchTallies(job, us);
    forall x: nat
      ensures IsPending(after.items, x) <==> IsPending(job.items, x) && x !in os
    {
      PendingAfterBatch(job.items, us, x);
    }
    if whole {
      PrefixAfterBatch(job, after, us);
    }
    LedgerTail(job, after, os, rest, missed, full, whole);
  }

  lemma PrefixAfterBatch(job: Job, after: Job, us: seq<Update>)
    requires Prefix(job) && |after.items| == |job.items| && after.row.processed == job.row.processed + |us|
    requires forall k :: 0 <= k < |us| ==> us[k].ordinal == job.row.processed + k && us[k].ordinal < |job.items|
    requires forall x: nat :: IsPending(after.items, x) <==> IsPending(job.items, x) && x !in Ordinals(us)
    ensures Prefix(after)
  {
    var d := job.row.processed;
    var os := Ordinals(us);
    if us != [] {
      assert us[|us| - 1].ordinal == d + |us| - 1;
    }
    forall i | 0 <= i < |after.items|
      ensures Pending(after.items[i].state) <==> after.row.processed <= i
    {
      assert IsPending(after.items, i) <==> IsPending(job.items, i) && i !in os;
      if d <= i < d + |us| {
        assert os[i - d] == i;
      }
    }
  }

  /** Marking a pending item RETRY changes nothing the ledger speaks of. */
  lemma CommitRetry(job: Job, o: nat, attempts: nat, line: seq<nat>, missed: set<nat>, full: bool, whole: bool)
    requires Ledger(job, line, missed, full, whole) && IsPending(job.items, o)
    ensures Ledger(Commit(job, MarkRetry(o, attempts)), line, missed, full, whole)
  {
    TalliedAfter(job, MarkRetry(o, attempts));
    var after := Commit(job, MarkRetry(o, attempts));
    assert forall x: nat :: IsPending(after.items, x) <==> IsPending(job.items, x);
  }

  /** A rejected batch moves its items from the line to the missed ones. */
  lemma RejectBatch(job: Job, us: seq<Update>, rest: seq<nat>, missed: set<nat>, full: bool, whole: bool)
    requires Ledger(job, Cat(Ordinals(us), rest), missed, full, whole)
    ensures Ledger(job, rest, missed + (set o | o in Ordinals(us)), full, false)
  {
    var os := Ordinals(us);
    var gone := set o | o in os;
    SortedParts(os, rest);
    PendingParts(job, os, rest, missed, full, whole);
    forall x | x in gone
      ensures StillPending(job.items, x)
    {
      var k :| 0 <= k < |os| && os[k] == x;
    }
    forall x: nat | IsPending(job.items, x)
      ensures full ==> x in missed + gone || x in rest
    {
      CatHolds(os, rest, x);
    }
  }

  /** A run that ends early lets go of the end of its line. */
  lemma LetGo(job: Job, kept: seq<nat>, gone: seq<nat>, missed: set<nat>, full: bool, whole: bool)
    requires Ledger(job, Cat(kept, gone), missed, full, whole)
    ensures Ledger(job, kept, missed, false, whole)
  {
    SortedParts(kept, gone);
    PendingParts(job, kept, gone, missed, full, whole);
  }

  // ------------------------------------------------------------------------------------------
  // A new run, and new items
  // ------------------------------------------------------------------------------------------

  /** The ordinals of candidates. */
  function Named(cs: seq<CB.Candidate>): (r: seq<nat>)
    ensures |r| == |cs| && forall i :: 0 <= i < |cs| ==> r[i] == cs[i].ordinal
  {
    seq(|cs|, i requires 0 <= i < |cs| => cs[i].ordinal)
  }

  /** The pending rows are exactly the pending items. */
  lemma {:induction false} PendingListed(items: seq<Item>, lo: nat, x: nat)
    requires lo <= |items|
    ensures x in Named(CB.PendingFrom(items, lo)) <==> lo <= x && IsPending(items, x)
    decreases |items| - lo
  {
    if lo < |items| {
      PendingListed(items, lo + 1, x);
      var rest := CB.PendingFrom(items, lo + 1);
      var head := if Pending(items[lo].state) then [CB.Candidate(lo, items[lo].attempts)] else [];
      assert CB.PendingFrom(items, lo) == head + rest;
      assert Named(head + rest) == Named(head) + Named(rest);
      assert Named(head) == if Pending(items[lo].state) then [lo] else [];
    }
  }

  /** A new run has every pending item in line. */
  lemma NewLine(job: Job, missed: set<nat>, full: bool, whole: bool)
    requires Ledger(job, [], missed, full, whole)
    ensures Ledger(job, Named(CB.PendingFrom(job.items, 0)), {}, true, whole)
  {
    var line := Named(CB.PendingFrom(job.items, 0));
    CB.PendingAscends(job.items, 0, |job.items|);
    SortedMeans(line);
    forall x: nat
      ensures x in line <==> IsPending(job.items, x)
    {
      PendingListed(job.items, 0, x);
    }
    assert forall k :: 0 <= k < |line| ==> line[k] in line;
    if whole {
      SortedInterval(line, job.row.processed, |job.items|);
    }
  }

  lemma HeadAndTail(line: seq<nat>, x: nat)
    requires line != []
    ensures x in line <==> x == line[0] || x in line[1..]
  {
    assert line == [line[0]] + line[1..];
  }

  /** An ascending sequence of exactly the numbers from `lo` below `hi` counts them off. */
  lemma {:induction false} SortedInterval(line: seq<nat>, lo: nat, hi: nat)
    requires Sorted(line) && forall x: nat :: x in line <==> lo <= x < hi
    ensures forall k :: 0 <= k < |line| ==> line[k] == lo + k
    decreases |line|
  {
    if line != [] {
      assert line[0] in line && lo in line;
      var tail := line[1..];
      SortedMeans(line);
      SortedMeans(tail);
      assert forall i :: 0 <= i < |tail| ==> tail[i] == line[i + 1] && line[0] < tail[i];
      assert line[0] == lo;
      forall x: nat
        ensures x in tail <==> lo + 1 <= x < hi
      {
        HeadAndTail(line, x);
      }
      SortedInterval(tail, lo + 1, hi);
    }
  }

  /** An ascending line of ordinals below `n` is no longer than `n`. */
  lemma {:induction false} ShortLine(line: seq<nat>, n: nat)
    requires Sorted(line) && forall k :: 0 <= k < |line| ==> line[k] < n
    ensures |line| <= n
    decreases n
  {
    if line != [] {
      var k := |line| - 1;
      SortedMeans(line);
      SortedMeans(line[..k]);
      assert forall j :: 0 <= j < k ==> line[..k][j] == line[j] && line[j] < line[k];
      ShortLine(line[..k], line[k]);
    }
  }

  /** Without items nothing is in line and nothing is missed. */
  lemma NoItems(job: Job, line: seq<nat>, missed: set<nat>, full: bool, whole: bool)
    requires Ledger(job, line, missed, full, whole) && job.items == []
    ensures line == [] && missed == {}
  {
    ShortLine(line, 0);
    assert forall x :: x in missed ==> StillPending(job.items, x);
  }

  /** Items added to an empty job are all pending. */
  lemma AddedArePending(job: Job, n: nat)
    requires Tallied(job) && job.items == []
    ensures var after := Commit(job, AddItems(n));
      && Tallied(after) && after.row.processed == 0 && |after.items| == n
      && Prefix(after) && forall x: nat :: IsPending(after.items, x) <==> x < n
  {
    TalliedAfter(job, AddItems(n));
  }

  /** A run that has found the table empty misses all of them. */
  lemma AddedTooLate(job: Job, n: nat, missed: set<nat>, full: bool, whole: bool)
    requires Ledger(job, [], missed, full, whole) && job.items == []
    ensures Ledger(Commit(job, AddItems(n)), [], missed + Upto(n), full, whole)
  {
    AddedArePending(job, n);
  }

  /** Nobody has looked yet. */
  lemma AddedInTime(job: Job, n: nat, missed: set<nat>, full: bool, whole: bool)
    requires Ledger(job, [], missed, full, whole) && job.items == []
    ensures missed == {}
    ensures Ledger(Commit(job, AddItems(n)), [], {}, false, whole)
    ensures Ledger(Commit(job, AddItems(n)), Named(CB.PendingFrom(Commit(job, AddItems(n)).items, 0)), {}, true, whole)
  {
    AddedArePending(job, n);
    NoItems(job, [], missed, full, whole);
    NewLine(Commit(job, AddItems(n)), {}, false, whole);
  }
}
