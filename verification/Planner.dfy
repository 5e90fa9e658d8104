/**
 Planning a job (`migration/planner.py`) from the rows of a dataset and a read of the target group
 (`migration/precheck.py`).
 */
module Planner {
  import opened Core
  import opened MemberStore
  import opened Paging
  import Ingest

  // ------------------------------------------------------------------------------------------
  // Source labels: joined by the query, split by the filter
  // ------------------------------------------------------------------------------------------

  const SEP: char := 31 as char

  /** GROUP_CONCAT of a group's labels; no rows give NULL, read as the empty string. */
  function Join(labels: seq<string>): string {
    if labels == [] then []
    else if |labels| == 1 then labels[0]
    else labels[0] + [SEP] + Join(labels[1..])
  }

  /** `str.split` on the separator. */
  function Split(s: string): (r: seq<string>)
    ensures r != []
  {
    if s == [] then [[]]
    else if s[0] == SEP then [[]] + Split(s[1..])
    else var rest := Split(s[1..]); [[s[0]] + rest[0]] + rest[1..]
  }

  /** The non-empty parts: the labels the filter sees. */
  function Present(joined: string): set<string> {
    set part | part in Split(joined) && part != []
  }

  function NonEmpty(labels: seq<string>): set<string> {
    set l | l in labels && l != []
  }

  lemma {:induction false} SplitParts(s: string)
    ensures forall part :: part in Split(s) ==> SEP !in part
    ensures SEP !in s ==> Split(s) == [s]
  {
    if s != [] {
      SplitParts(s[1..]);
      if s[0] != SEP {
        var rest := Split(s[1..]);
        assert rest[0] in rest;
        assert forall part :: part in rest[1..] ==> part in rest;
        assert [s[0]] + s[1..] == s;
      }
    }
  }

  /** A label without separator in front of a joined rest is split off whole. */
  lemma {:induction false} SplitFirst(l: string, s: string)
    requires SEP !in l
    ensures Split(l + [SEP] + s) == [l] + Split(s)
  {
    if l == [] {
      assert l + [SEP] + s == [SEP] + s;
      assert ([SEP] + s)[1..] == s;
    } else {
      var whole := l + [SEP] + s;
      assert whole[1..] == l[1..] + [SEP] + s;
      SplitFirst(l[1..], s);
      assert Split(whole) == [[l[0]] + l[1..]] + Split(s);
      assert [l[0]] + l[1..] == l;
    }
  }

  lemma {:induction false} SplitJoin(labels: seq<string>)
    requires labels != [] && forall l :: l in labels ==> SEP !in l
    ensures Split(Join(labels)) == labels
  {
    if |labels| == 1 {
      SplitParts(labels[0]);
    } else {
      assert labels[0] in labels;
      assert forall l :: l in labels[1..] ==> l in labels;
      SplitJoin(labels[1..]);
      SplitFirst(labels[0], Join(labels[1..]));
      assert labels == [labels[0]] + labels[1..];
    }
  }

  /** Joining and splitting returns the non-empty labels exactly when no label contains the separator. */
  lemma LabelsRoundTrip(labels: seq<string>)
    ensures Present(Join(labels)) == NonEmpty(labels) <==> forall l :: l in labels ==> SEP !in l
  {
    SplitParts(Join(labels));
    if labels == [] {
      assert Split([]) == [[]];
      assert Present(Join(labels)) == {};
    } else if forall l :: l in labels ==> SEP !in l {
      SplitJoin(labels);
    } else {
      var l :| l in labels && SEP in l;
      assert l in NonEmpty(labels);
      assert l !in Present(Join(labels));
    }
  }

  // ------------------------------------------------------------------------------------------
  // Rows and the filter
  // ------------------------------------------------------------------------------------------

  /** One row of `_rows`. */
  datatype PlanRow = PlanRow(
    member: nat, uid: Option<int>, username: Option<string>, bot: bool, deleted: bool,
    activity: Option<string>, accessHash: Option<int>, labels: string)

  datatype FilterSpec = FilterSpec(
    excludeBot: bool, excludeDeleted: bool, usernameRequired: bool,
    activity: set<string>, source: set<string>, excludeProcessed: set<int>, excludeTarget: set<int>)

  /** The row can be addressed at all. */
  predicate Addressable(row: PlanRow) {
    row.uid.Some? && row.accessHash.Some?
  }

  /** `_valid`. */
  predicate Valid(row: PlanRow, spec: FilterSpec) {
    && Addressable(row)
    && !(spec.excludeBot && row.bot)
    && !(spec.excludeDeleted && row.deleted)
    && !(spec.usernameRequired && (row.username.None? || row.username.value == ""))
    && (spec.activity == {} || (if row.activity.Some? then row.activity.value else "") in spec.activity)
    && (spec.source == {} || Allowed(spec) * Present(row.labels) != {})
  }

  function Allowed(spec: FilterSpec): set<string> {
    set v | v in spec.source :: Lower(TrimRight(TrimLeft(v)))
  }

  datatype Coverage = Complete | Partial | Unavailable

  datatype Precheck = Precheck(ids: set<int>, coverage: Coverage)

  /** What a plan is made from. */
  datatype Request = Request(action: Action, spec: FilterSpec, processed: set<int>, target: Precheck)

  /** Rows that pass the filter, leaving duplicates and the target aside. */
  predicate Wanted(row: PlanRow, q: Request) {
    && Valid(row, q.spec)
    && (q.action.Invite? ==>
          row.uid.value !in q.processed && row.uid.value !in q.spec.excludeProcessed && row.uid.value !in q.spec.excludeTarget)
  }

  /** An earlier row already stands for the same user. */
  ghost predicate Duplicate(rows: seq<PlanRow>, i: nat, q: Request)
    requires i < |rows|
  {
    exists j :: 0 <= j < i && Wanted(rows[j], q) && rows[j].uid == rows[i].uid
  }

  /** The user's place makes the action pointless: already there, or not there to remove. */
  predicate Pointless(row: PlanRow, q: Request) {
    row.uid.Some? && (q.action.Invite? <==> row.uid.value in q.target.ids)
  }

  datatype Verdict = Invalid | Filtered | Settled | Chosen

  /** What becomes of row `i`, stated without the loop. */
  ghost function Fate(rows: seq<PlanRow>, i: nat, q: Request): Verdict
    requires i < |rows|
  {
    if !Addressable(rows[i]) then Invalid
    else if !Wanted(rows[i], q) || Duplicate(rows, i, q) then Filtered
    else if Pointless(rows[i], q) then Settled
    else Chosen
  }

  datatype Presence = KnownAbsent | UnknownTargetState

  datatype PlanItem = PlanItem(member: nat, presence: Presence)

  datatype Summary = Summary(total: nat, filtered: nat, already: nat, invalid: nat, ready: nat)

  /** The indices of the chosen rows among the first `n`. */
  ghost function Picks(rows: seq<PlanRow>, n: nat, q: Request): seq<nat>
    requires n <= |rows|
  {
    if n == 0 then []
    else Picks(rows, n - 1, q) + (if Fate(rows, n - 1, q) == Chosen then [n - 1] else [])
  }

  ghost function CountOf(rows: seq<PlanRow>, n: nat, q: Request, v: Verdict): nat
    requires n <= |rows|
  {
    if n == 0 then 0 else CountOf(rows, n - 1, q, v) + (if Fate(rows, n - 1, q) == v then 1 else 0)
  }

  /** What the plan says about the user in the target. */
  function PresenceIn(q: Request): Presence {
    if q.action.Remove? || q.target.coverage.Complete? then KnownAbsent else UnknownTargetState
  }

  /** The items of a plan: one per chosen row, in row order. */
  ghost predicate ItemsFollow(rows: seq<PlanRow>, n: nat, q: Request, items: seq<PlanItem>)
    requires n <= |rows|
  {
    && |items| == |Picks(rows, n, q)|
    && forall k :: 0 <= k < |items| ==>
         Picks(rows, n, q)[k] < n && items[k] == PlanItem(rows[Picks(rows, n, q)[k]].member, PresenceIn(q))
  }

  ghost predicate SummaryFollows(rows: seq<PlanRow>, n: nat, q: Request, s: Summary)
    requires n <= |rows|
  {
    s == Summary(n, CountOf(rows, n, q, Filtered), CountOf(rows, n, q, Settled), CountOf(rows, n, q, Invalid),
                 CountOf(rows, n, q, Chosen))
  }

  // ------------------------------------------------------------------------------------------
  // What the declarative plan promises
  // ------------------------------------------------------------------------------------------

  /** The plan shuts this row out, whatever the target says: one reason per line. */
  ghost predicate ShutOut(row: PlanRow, q: Request)
    requires row.uid.Some?
  {
    || (row.bot && q.spec.excludeBot)
    || (row.deleted && q.spec.excludeDeleted)
    || (q.spec.usernameRequired && (row.username == None || row.username == Some("")))
    || (q.spec.activity != {} && row.activity.Some? && row.activity.value !in q.spec.activity)
    || (q.spec.activity != {} && row.activity.None? && "" !in q.spec.activity)
    || (q.spec.source != {} && forall v :: v in q.spec.source ==> Lower(TrimRight(TrimLeft(v))) !in Present(row.labels))
    || (q.action == Invite && row.uid.value in q.processed + q.spec.excludeProcessed + q.spec.excludeTarget)
  }

  /** Another row before it stands for the same user and is not shut out. */
  ghost predicate Preceded(rows: seq<PlanRow>, i: nat, q: Request)
    requires i < |rows|
  {
    exists j :: 0 <= j < i && rows[j].uid.Some? && rows[j].accessHash.Some? && rows[j].uid == rows[i].uid && !ShutOut(rows[j], q)
  }

  lemma WantedMeaning(row: PlanRow, q: Request)
    ensures Wanted(row, q) <==> row.uid.Some? && row.accessHash.Some? && !ShutOut(row, q)
  {
    if row.uid.Some? && row.accessHash.Some? && q.spec.source != {} {
      var allowed := Allowed(q.spec);
      assert forall v :: v in q.spec.source ==> Lower(TrimRight(TrimLeft(v))) in allowed;
      if allowed * Present(row.labels) != {} {
        var l :| l in allowed * Present(row.labels);
        var v :| v in q.spec.source && l == Lower(TrimRight(TrimLeft(v)));
      } else {
        assert forall v :: v in q.spec.source && Lower(TrimRight(TrimLeft(v))) in Present(row.labels) ==>
          Lower(TrimRight(TrimLeft(v))) in allowed * Present(row.labels);
      }
    }
  }

  /** What becomes of a row, by its columns and the flags of the request alone. */
  lemma FateMeaning(rows: seq<PlanRow>, i: nat, q: Request)
    requires i < |rows|
    ensures var row := rows[i];
      && (Fate(rows, i, q) == Invalid <==> row.uid.None? || row.accessHash.None?)
      && (Fate(rows, i, q) == Filtered <==>
            row.uid.Some? && row.accessHash.Some? && (ShutOut(row, q) || Preceded(rows, i, q)))
      && (Fate(rows, i, q) == Settled <==>
            && row.uid.Some? && row.accessHash.Some? && !ShutOut(row, q) && !Preceded(rows, i, q)
            && (if q.action == Invite then row.uid.value in q.target.ids else row.uid.value !in q.target.ids))
  {
    WantedMeaning(rows[i], q);
    forall j | 0 <= j < i
      ensures Wanted(rows[j], q) <==> rows[j].uid.Some? && rows[j].accessHash.Some? && !ShutOut(rows[j], q)
    {
      WantedMeaning(rows[j], q);
    }
  }

  /** The picks are exactly the chosen rows, in order. */
  lemma {:induction false} PicksMeaning(rows: seq<PlanRow>, n: nat, q: Request)
    requires n <= |rows|
    ensures forall i :: i in Picks(rows, n, q) <==> 0 <= i < n && Fate(rows, i, q) == Chosen
    ensures forall k, l :: 0 <= k < l < |Picks(rows, n, q)| ==> Picks(rows, n, q)[k] < Picks(rows, n, q)[l]
    ensures |Picks(rows, n, q)| == CountOf(rows, n, q, Chosen)
  {
    if n > 0 {
      PicksMeaning(rows, n - 1, q);
      var rest := Picks(rows, n - 1, q);
      forall k | 0 <= k < |rest|
        ensures rest[k] < n - 1
      {
        assert rest[k] in rest;
      }
      assert Picks(rows, n, q) == rest + (if Fate(rows, n - 1, q) == Chosen then [n - 1] else []);
    }
  }

  /** Every row is accounted for exactly once: total = filtered + already + invalid + ready. */
  lemma {:induction false} RowsArePartitioned(rows: seq<PlanRow>, n: nat, q: Request)
    requires n <= |rows|
    ensures n == CountOf(rows, n, q, Filtered) + CountOf(rows, n, q, Settled) + CountOf(rows, n, q, Invalid)
      + CountOf(rows, n, q, Chosen)
  {
    if n > 0 {
      RowsArePartitioned(rows, n - 1, q);
    }
  }

  /** No user is planned twice. */
  lemma PickedUsersAreDistinct(rows: seq<PlanRow>, n: nat, q: Request, k: nat, l: nat)
    requires n <= |rows| && k < l < |Picks(rows, n, q)|
    ensures var p := Picks(rows, n, q);
      p[k] < n && p[l] < n && rows[p[k]].uid.Some? && rows[p[l]].uid.Some? && rows[p[k]].uid != rows[p[l]].uid
  {
    PicksMeaning(rows, n, q);
    var p := Picks(rows, n, q);
    assert p[k] in p && p[l] in p;
    assert Fate(rows, p[l], q) == Chosen && Wanted(rows[p[k]], q);
  }

  // ------------------------------------------------------------------------------------------
  // The loops
  // ------------------------------------------------------------------------------------------

  /** The users of the wanted rows among the first `n`. */
  ghost function Seen(rows: seq<PlanRow>, n: nat, q: Request): set<int>
    requires n <= |rows|
  {
    set j | 0 <= j < n && Wanted(rows[j], q) :: rows[j].uid.value
  }

  /** One row more, decided the way the loops decide. */
  lemma OneRow(rows: seq<PlanRow>, i: nat, q: Request, seen: set<int>)
    requires i < |rows| && seen == Seen(rows, i, q)
    ensures Addressable(rows[i]) ==> (rows[i].uid.value in seen <==> Duplicate(rows, i, q))
    ensures Seen(rows, i + 1, q) == if Wanted(rows[i], q) then seen + {rows[i].uid.value} else seen
  {
    if Addressable(rows[i]) && rows[i].uid.value in seen {
      var j :| 0 <= j < i && Wanted(rows[j], q) && rows[j].uid.value == rows[i].uid.value;
      assert rows[j].uid == rows[i].uid;
    }
  }

  /** The items with one row more. */
  lemma FollowOne(rows: seq<PlanRow>, i: nat, q: Request, items: seq<PlanItem>)
    requires i < |rows| && ItemsFollow(rows, i, q, items)
    ensures Fate(rows, i, q) == Chosen ==> ItemsFollow(rows, i + 1, q, items + [PlanItem(rows[i].member, PresenceIn(q))])
    ensures Fate(rows, i, q) != Chosen ==> ItemsFollow(rows, i + 1, q, items)
  {
    var before, after := Picks(rows, i, q), Picks(rows, i + 1, q);
    if Fate(rows, i, q) == Chosen {
      assert after == before + [i];
    } else {
      assert after == before;
    }
  }

  /** `create_plan`. */
  method CreatePlan(rows: seq<PlanRow>, spec: FilterSpec, processed: set<int>, target: Precheck)
      returns (items: seq<PlanItem>, summary: Summary)
    ensures var q := Request(Invite, spec, processed, target);
      ItemsFollow(rows, |rows|, q, items) && SummaryFollows(rows, |rows|, q, summary)
    ensures summary.total == summary.filtered + summary.already + summary.invalid + summary.ready
    ensures summary.ready == |items| && summary.total == |rows|
  {
    ghost var q := Request(Invite, spec, processed, target);
    var seen: set<int> := {};
    var invalid, filtered, already := 0, 0, 0;
    items := [];
    for i := 0 to |rows|
      invariant seen == Seen(rows, i, q) && ItemsFollow(rows, i, q, items)
      invariant SummaryFollows(rows, i, q, Summary(i, filtered, already, invalid, CountOf(rows, i, q, Chosen)))
    {
      var row := rows[i];
      OneRow(rows, i, q, seen);
      FollowOne(rows, i, q, items);
      if !Addressable(row) {
        invalid := invalid + 1;
      } else if || row.uid.value in seen || !Valid(row, spec) || row.uid.value in processed
                || row.uid.value in spec.excludeProcessed || row.uid.value in spec.excludeTarget {
        assert seen == Seen(rows, i + 1, q);
        filtered := filtered + 1;
      } else {
        seen := seen + {row.uid.value};
        if row.uid.value in target.ids {
          already := already + 1;
        } else {
          items := items + [PlanItem(row.member, if target.coverage.Complete? then KnownAbsent else UnknownTargetState)];
        }
      }
    }
    summary := Summary(|rows|, filtered, already, invalid, |items|);
    PicksMeaning(rows, |rows|, q);
    RowsArePartitioned(rows, |rows|, q);
  }

  /** `create_remove_plan`; None is the RuntimeError when the target could not be read at all. */
  method CreateRemovePlan(rows: seq<PlanRow>, spec: FilterSpec, target: Precheck)
      returns (plan: Option<(seq<PlanItem>, Summary)>)
    ensures plan.None? <==> target.coverage.Unavailable?
    ensures plan.Some? ==>
      var (items, summary) := plan.value;
      var q := Request(Remove, spec, {}, target);
      && ItemsFollow(rows, |rows|, q, items) && SummaryFollows(rows, |rows|, q, summary)
      && summary.total == summary.filtered + summary.already + summary.invalid + summary.ready
      && summary.ready == |items| && summary.total == |rows|
  {
    if target.coverage.Unavailable? {
      return None;
    }
    ghost var q := Request(Remove, spec, {}, target);
    var seen: set<int> := {};
    var invalid, filtered, absent := 0, 0, 0;
    var items: seq<PlanItem> := [];
    for i := 0 to |rows|
      invariant seen == Seen(rows, i, q) && ItemsFollow(rows, i, q, items)
      invariant SummaryFollows(rows, i, q, Summary(i, filtered, absent, invalid, CountOf(rows, i, q, Chosen)))
    {
      var row := rows[i];
      OneRow(rows, i, q, seen);
      FollowOne(rows, i, q, items);
      if !Addressable(row) {
        invalid := invalid + 1;
      } else if row.uid.value in seen || !Valid(row, spec) {
        assert seen == Seen(rows, i + 1, q);
        filtered := filtered + 1;
      } else {
        seen := seen + {row.uid.value};
        if row.uid.value !in target.ids {
          absent := absent + 1;
        } else {
          items := items + [PlanItem(row.member, KnownAbsent)];
        }
      }
    }
    PicksMeaning(rows, |rows|, q);
    RowsArePartitioned(rows, |rows|, q);
    return Some((items, Summary(|rows|, filtered, absent, invalid, |items|)));
  }

  // ------------------------------------------------------------------------------------------
  // Planning from the store
  // ------------------------------------------------------------------------------------------

  function ProvTags(db: DB, d: int, m: nat): set<string> {
    set p | p in db.provenance && p.dataset == d && p.member == m :: Lower(p.tag)
  }

  /** GROUP_CONCAT may list a member's provenance in any order. */
  ghost predicate IsConcat(tags: set<string>, joined: string) {
    exists ls: seq<string> {:trigger Join(ls)} :: joined == Join(ls) && (forall l :: l in ls <==> l in tags)
  }

  /** `_rows`: the dataset in member order, joined with the account's peer hints and the source labels. */
  ghost predicate Queried(db: DB, account: int, d: int, rows: seq<PlanRow>) {
    var ids := Ascending(MembersOf(db, d));
    && |rows| == |ids|
    && forall i :: 0 <= i < |rows| ==>
         && ids[i] in db.rows && rows[i].member == ids[i]
         && rows[i].uid == db.rows[ids[i]].uid && rows[i].username == db.rows[ids[i]].username
         && rows[i].bot == db.rows[ids[i]].profile.bot && rows[i].deleted == db.rows[ids[i]].profile.deleted
         && rows[i].activity == db.rows[ids[i]].profile.activity
         && rows[i].accessHash == HashOf(db, account, rows[i].uid)
         && IsConcat(ProvTags(db, d, ids[i]), rows[i].labels)
  }

  function HashOf(db: DB, account: int, uid: Option<int>): Option<int> {
    if uid.Some? && (account, uid.value) in db.peers then Some(db.peers[(account, uid.value)].hash) else None
  }

  /** One row per user: on rows read from the store the duplicate test never fires. */
  lemma NoDuplicates(db: DB, account: int, d: int, rows: seq<PlanRow>, q: Request, i: nat)
    requires Inv(db) && Queried(db, account, d, rows) && i < |rows|
    ensures !Duplicate(rows, i, q)
  {
    AscendingMeaning(MembersOf(db, d));
    forall j | 0 <= j < i && rows[j].uid.Some?
      ensures rows[j].uid != rows[i].uid
    {
      assert rows[j].member < rows[i].member;
    }
  }

  /** The members of rows read from the store. */
  lemma RowsOfStore(db: DB, account: int, d: int, rows: seq<PlanRow>)
    requires Queried(db, account, d, rows)
    ensures forall i :: 0 <= i < |rows| ==>
      && rows[i].member in MembersOf(db, d) && rows[i].member in db.rows && db.rows[rows[i].member].uid == rows[i].uid
    ensures forall i, j :: 0 <= i < j < |rows| ==> rows[i].member < rows[j].member
  {
    AscendingMeaning(MembersOf(db, d));
  }

  /** From the store, exactly the rows that pass the filter and whose place makes the action worthwhile are picked. */
  lemma PicksFromStore(db: DB, account: int, d: int, rows: seq<PlanRow>, q: Request, i: nat)
    requires Inv(db) && Queried(db, account, d, rows) && i < |rows|
    ensures i in Picks(rows, |rows|, q) <==> Wanted(rows[i], q) && !Pointless(rows[i], q)
  {
    PicksMeaning(rows, |rows|, q);
    NoDuplicates(db, account, d, rows, q, i);
  }

  /** Some row with a Telegram id is this member's. */
  ghost predicate HasUserRow(rows: seq<PlanRow>, member: nat) {
    exists i :: 0 <= i < |rows| && rows[i].member == member && rows[i].uid.Some?
  }

  lemma ItemMembers(rows: seq<PlanRow>, q: Request, items: seq<PlanItem>)
    requires ItemsFollow(rows, |rows|, q, items)
    requires forall i, j :: 0 <= i < j < |rows| ==> rows[i].member < rows[j].member
    ensures forall k :: 0 <= k < |items| ==> HasUserRow(rows, items[k].member)
    ensures forall k, l :: 0 <= k < l < |items| ==> items[k].member < items[l].member
  {
    PicksMeaning(rows, |rows|, q);
    var p := Picks(rows, |rows|, q);
    forall k | 0 <= k < |items|
      ensures HasUserRow(rows, items[k].member)
    {
      assert p[k] in p;
      assert rows[p[k]].member == items[k].member;
    }
  }

  /**
   The members of a plan made from the store are in increasing order and each is a row of the dataset with a
   Telegram id, so that planning keeps the store's references sound.
   */
  lemma PlanFromStore(db: DB, account: int, d: int, rows: seq<PlanRow>, q: Request, items: seq<PlanItem>)
    requires Inv(db) && Queried(db, account, d, rows) && ItemsFollow(rows, |rows|, q, items)
    ensures forall k :: 0 <= k < |items| ==>
      items[k].member in MembersOf(db, d) && items[k].member in db.rows && db.rows[items[k].member].uid.Some?
    ensures forall k, l :: 0 <= k < l < |items| ==> items[k].member < items[l].member
    ensures Inv(db.(planned := db.planned + (set it | it in items :: it.member)))
  {
    RowsOfStore(db, account, d, rows);
    ItemMembers(rows, q, items);
    forall k | 0 <= k < |items|
      ensures items[k].member in MembersOf(db, d) && items[k].member in db.rows && db.rows[items[k].member].uid.Some?
    {
      assert HasUserRow(rows, items[k].member);
    }
  }

  /** The source filter, in terms of the stored labels. */
  lemma SourceFilterMeaning(db: DB, account: int, d: int, rows: seq<PlanRow>, i: nat)
    requires Queried(db, account, d, rows) && i < |rows|
    requires forall tag :: tag in ProvTags(db, d, rows[i].member) ==> SEP !in tag
    ensures Present(rows[i].labels) == ProvTags(db, d, rows[i].member) - {""}
  {
    var tags := ProvTags(db, d, rows[i].member);
    assert IsConcat(tags, rows[i].labels);
    var ls: seq<string> :| rows[i].labels == Join(ls) && (forall l :: l in ls <==> l in tags);
    LabelsRoundTrip(ls);
    assert NonEmpty(ls) == tags - {""};
  }

  // ------------------------------------------------------------------------------------------
  // Reading the target
  // ------------------------------------------------------------------------------------------

  function AllOf(pages: seq<seq<Member>>): seq<Member> {
    if pages == [] then [] else AllOf(pages[..|pages| - 1]) + pages[|pages| - 1]
  }

  /** What a read that got these pages reports. */
  function Report(pages: seq<seq<Member>>, failed: bool): Precheck {
    var ids := Ingest.Uids(AllOf(pages));
    Precheck(ids, if !failed then Complete else if ids != {} then Partial else Unavailable)
  }

  /** These are pages of the stable list `people`: all of them unless the read failed. */
  ghost predicate PagesOf(people: seq<Member>, pages: seq<seq<Member>>, failed: bool) {
    AllOf(pages) <= people && (!failed ==> AllOf(pages) == people)
  }

  /** What a read of the target guarantees when `people` are really there. */
  ghost predicate ReadOf(people: seq<Member>, target: Precheck) {
    target.ids <= Ingest.Uids(people) && (target.coverage.Complete? ==> target.ids == Ingest.Uids(people))
  }

  /** Pages of a stable list, all of them unless the read failed, give such a read. */
  lemma ReadIsSound(people: seq<Member>, pages: seq<seq<Member>>, failed: bool)
    requires PagesOf(people, pages, failed)
    ensures ReadOf(people, Report(pages, failed))
  {
    assert forall m :: m in AllOf(pages) ==> m in people;
  }

  /** `TargetPrecheck.run` over the pages that arrived before the read ended or failed. */
  method ReadTarget(pages: seq<seq<Member>>, failed: bool) returns (r: Precheck)
    ensures r == Report(pages, failed)
    ensures r.coverage.Complete? <==> !failed
    ensures r.coverage.Unavailable? <==> failed && r.ids == {}
    ensures forall people :: PagesOf(people, pages, failed) ==> ReadOf(people, r)
  {
    var ids: set<int> := {};
    for i := 0 to |pages|
      invariant ids == Ingest.Uids(AllOf(pages[..i]))
    {
      assert pages[..i + 1][..i] == pages[..i];
      var page := pages[i];
      for j := 0 to |page|
        invariant ids == Ingest.Uids(AllOf(pages[..i])) + Ingest.Uids(page[..j])
      {
        assert page[..j + 1] == page[..j] + [page[j]];
        if page[j].uid.Some? {
          ids := ids + {page[j].uid.value};
        }
      }
      assert page[..|page|] == page;
    }
    assert pages[..|pages|] == pages;
    r := Precheck(ids, if !failed then Complete else if ids != {} then Partial else Unavailable);
    forall people | PagesOf(people, pages, failed)
      ensures ReadOf(people, r)
    {
      ReadIsSound(people, pages, failed);
    }
  }

  /**
   A plan made after reading these pages of a target whose members are `people`: a user planned for INVITE as known
   absent is absent, which is said exactly after a complete read; a user planned for REMOVE is there, even after a
   partial one, although the plan says KNOWN_ABSENT of every one of them.
   */
  lemma PlannedPresence(
    people: seq<Member>, pages: seq<seq<Member>>, failed: bool, rows: seq<PlanRow>, q: Request, items: seq<PlanItem>, k: nat)
    requires PagesOf(people, pages, failed) && q.target == Report(pages, failed)
    requires ItemsFollow(rows, |rows|, q, items) && k < |items|
    ensures var row := rows[Picks(rows, |rows|, q)[k]];
      && row.uid.Some? && row.member == items[k].member
      && (q.action.Invite? && items[k].presence.KnownAbsent? ==> row.uid.value !in Ingest.Uids(people))
      && (q.action.Invite? ==> (items[k].presence.KnownAbsent? <==> !failed))
      && (q.action.Remove? ==> row.uid.value in Ingest.Uids(people) && items[k].presence == KnownAbsent)
  {
    ReadIsSound(people, pages, failed);
    PicksMeaning(rows, |rows|, q);
    assert Picks(rows, |rows|, q)[k] in Picks(rows, |rows|, q);
  }

  // ------------------------------------------------------------------------------------------
  // Persisting the items
  // ------------------------------------------------------------------------------------------

  /** A migration item row: ordinal, member, presence. */
  datatype ItemRow = ItemRow(ordinal: nat, item: PlanItem)

  /** The unique index on (job, member) lets this row in. */
  predicate Fits(table: seq<ItemRow>, member: nat) {
    forall r :: r in table ==> r.item.member != member
  }

  /** The members among the first `n` items are all different. */
  predicate Distinct(items: seq<PlanItem>, n: nat)
    requires n <= |items|
  {
    forall k, l :: 0 <= k < l < n ==> items[k].member != items[l].member
  }

  /**
   `submit_add_items` with INSERT OR IGNORE: the table holds one row per member, and the stored total is its
   size, with item `i` at ordinal `i`, exactly when the members are distinct (as in a plan from the store).
   */
  method AddItems(items: seq<PlanItem>) returns (table: seq<ItemRow>, total: nat)
    ensures total == |items|
    ensures forall r :: r in table ==> r.ordinal < |items| && r.item == items[r.ordinal]
    ensures forall k :: 0 <= k < |items| ==> !Fits(table, items[k].member)
    ensures |table| == total <==> Distinct(items, |items|)
    ensures Distinct(items, |items|) ==> forall i :: 0 <= i < |table| ==> table[i] == ItemRow(i, items[i])
  {
    table := [];
    for i := 0 to |items|
      invariant |table| <= i
      invariant forall r :: r in table ==> r.ordinal < i && r.item == items[r.ordinal]
      invariant forall k :: 0 <= k < i ==> !Fits(table, items[k].member)
      invariant |table| == i <==> Distinct(items, i)
      invariant |table| == i ==> forall j :: 0 <= j < i ==> table[j] == ItemRow(j, items[j])
    {
      if Fits(table, items[i].member) {
        AppendFits(items, table, i);
        table := table + [ItemRow(i, items[i])];
      } else {
        RepeatBreaks(items, table, i);
      }
    }
    total := |items|;
  }

  lemma RepeatBreaks(items: seq<PlanItem>, table: seq<ItemRow>, i: nat)
    requires i < |items| && !Fits(table, items[i].member)
    requires forall r :: r in table ==> r.ordinal < i && r.item == items[r.ordinal]
    ensures !Distinct(items, i + 1)
  {
    var r :| r in table && r.item.member == items[i].member;
    assert items[r.ordinal].member == items[i].member;
  }

  lemma AppendFits(items: seq<PlanItem>, table: seq<ItemRow>, i: nat)
    requires i < |items| && Fits(table, items[i].member)
    requires forall r :: r in table ==> r.ordinal < i && r.item == items[r.ordinal]
    requires forall k :: 0 <= k < i ==> !Fits(table, items[k].member)
    ensures forall k :: 0 <= k < i ==> items[k].member != items[i].member
    ensures forall k :: 0 <= k <= i ==> !Fits(table + [ItemRow(i, items[i])], items[k].member)
    ensures Distinct(items, i + 1) <==> Distinct(items, i)
    ensures forall r :: r in table + [ItemRow(i, items[i])] ==> r.ordinal <= i && r.item == items[r.ordinal]
  {
    var longer := table + [ItemRow(i, items[i])];
    assert longer[|table|] in longer;
    forall k | 0 <= k < i
      ensures !Fits(longer, items[k].member)
    {
      assert !Fits(table, items[k].member);
      var r :| r in table && r.item.member == items[k].member;
      assert r in longer;
    }
  }
}
