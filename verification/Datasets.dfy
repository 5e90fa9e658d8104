/**
 Combining two datasets into a new one (`combine` in `datasets/service.py`): SQL grouping and counting
 against set algebra, with provenance and the stored size.
 */
module Datasets {
  import opened Core
  import opened MemberStore
  import opened Paging

  datatype SetOp = Union | Intersection | Difference

  function UpperChar(c: char): char {
    if 'a' <= c <= 'z' then ((c as int) - ('a' as int) + ('A' as int)) as char else c
  }

  function Upper(s: string): string {
    seq(|s|, i requires 0 <= i < |s| => UpperChar(s[i]))
  }

  /** The operation named by the caller, in any case; None is the ValueError. */
  function ParseOp(operation: string): Option<SetOp> {
    var op := Upper(operation);
    if op == "UNION" then Some(Union)
    else if op == "INTERSECTION" then Some(Intersection)
    else if op == "DIFFERENCE" then Some(Difference)
    else None
  }

  /** The text is this word, letter by letter in either case. */
  ghost predicate Spells(text: string, upper: string, lower: string)
    requires |upper| == |lower|
  {
    |text| == |upper| && forall i :: 0 <= i < |text| ==> text[i] == upper[i] || text[i] == lower[i]
  }

  lemma UpperSpells(text: string, upper: string, lower: string)
    requires |upper| == |lower|
    requires forall i :: 0 <= i < |upper| ==> 'A' <= upper[i] <= 'Z' && lower[i] as int == upper[i] as int + 32
    ensures Upper(text) == upper <==> Spells(text, upper, lower)
  {
    if |text| == |upper| {
      assert forall i :: 0 <= i < |text| ==> (UpperChar(text[i]) == upper[i] <==> text[i] == upper[i] || text[i] == lower[i]);
      assert forall i :: 0 <= i < |text| ==> Upper(text)[i] == UpperChar(text[i]);
    }
  }

  /** Which texts name which operation. */
  lemma ParseOpMeaning(text: string)
    ensures ParseOp(text) == Some(Union) <==> Spells(text, "UNION", "union")
    ensures ParseOp(text) == Some(Intersection) <==> Spells(text, "INTERSECTION", "intersection")
    ensures ParseOp(text) == Some(Difference) <==> Spells(text, "DIFFERENCE", "difference")
  {
    UpperSpells(text, "UNION", "union");
    UpperSpells(text, "INTERSECTION", "intersection");
    UpperSpells(text, "DIFFERENCE", "difference");
  }

  /** The distinct `dataset_id` values of one member's group, among the two sources. */
  function Group(db: DB, a: int, b: int, m: nat): set<int> {
    set p | p in db.memberships && p.1 == m && (p.0 == a || p.0 == b) :: p.0
  }

  /** The rows of dataset_members WHERE dataset_id IN (a, b), grouped. */
  function Grouped(db: DB, a: int, b: int): set<nat> {
    set p | p in db.memberships && (p.0 == a || p.0 == b) :: p.1
  }

  /** What the SELECT of each operation returns. */
  function Selected(db: DB, a: int, b: int, op: SetOp): set<nat> {
    match op
    case Union => Grouped(db, a, b)
    case Intersection => set m | m in Grouped(db, a, b) && |Group(db, a, b, m)| == 2
    case Difference => set p | p in db.memberships && p.0 == a && (b, p.1) !in db.memberships :: p.1
  }

  /** The operation on the two member sets. */
  function Algebra(x: set<nat>, y: set<nat>, op: SetOp): set<nat> {
    match op
    case Union => x + y
    case Intersection => x * y
    case Difference => x - y
  }

  lemma InDataset(db: DB, d: int, m: nat)
    ensures m in MembersOf(db, d) <==> (d, m) in db.memberships
  {
    assert (d, m) in db.memberships ==> (d, m).1 in MembersOf(db, d);
  }

  /** Counting distinct datasets finds exactly the members of both, for two different datasets. */
  lemma GroupCounts(db: DB, a: int, b: int, m: nat)
    requires a != b
    ensures |Group(db, a, b, m)| == 2 <==> (a, m) in db.memberships && (b, m) in db.memberships
  {
    var g := Group(db, a, b, m);
    assert a in g <==> (a, m) in db.memberships;
    assert b in g <==> (b, m) in db.memberships;
    if a in g && b in g {
      assert g == {a, b};
    } else if a in g {
      assert g == {a};
    } else if b in g {
      assert g == {b};
    } else {
      assert g == {};
    }
  }

  /** Grouping one dataset with itself never reaches a count of two. */
  lemma SelfGroup(db: DB, a: int, m: nat)
    ensures |Group(db, a, a, m)| <= 1
  {
    if Group(db, a, a, m) != {} {
      assert Group(db, a, a, m) == {a};
    }
  }

  /**
   The SQL agrees with set algebra unless a non-empty dataset is intersected with itself: there the
   result is empty.
   */
  lemma GroupingIsAlgebra(db: DB, a: int, b: int, op: SetOp)
    ensures Selected(db, a, b, op) == Algebra(MembersOf(db, a), MembersOf(db, b), op)
      <==> !(a == b && op.Intersection? && MembersOf(db, a) != {})
    ensures a == b && op.Intersection? ==> Selected(db, a, b, op) == {}
  {
    var s := Selected(db, a, b, op);
    if a == b && op.Intersection? {
      forall m
        ensures m !in s
      {
        SelfGroup(db, a, m);
      }
      assert Algebra(MembersOf(db, a), MembersOf(db, b), op) == MembersOf(db, a);
    } else {
      forall m
        ensures m in s <==> m in Algebra(MembersOf(db, a), MembersOf(db, b), op)
      {
        SelectedMeaning(db, a, b, op, m);
      }
    }
  }

  lemma SelectedMeaning(db: DB, a: int, b: int, op: SetOp, m: nat)
    requires a != b || !op.Intersection?
    ensures m in Selected(db, a, b, op) <==> m in Algebra(MembersOf(db, a), MembersOf(db, b), op)
  {
    InDataset(db, a, m);
    InDataset(db, b, m);
    if a != b {
      GroupCounts(db, a, b, m);
    }
    assert (a, m) in db.memberships ==> (a, m).1 in Grouped(db, a, b);
    assert (b, m) in db.memberships ==> (b, m).1 in Grouped(db, a, b);
    assert op.Difference? && (a, m) in db.memberships && (b, m) !in db.memberships ==> (a, m).1 in Selected(db, a, b, op);
  }

  /** The provenance rows one source contributes. */
  function ProvFrom(db: DB, d: int, source: int, tag: string): set<Prov> {
    set m | m in MembersOf(db, source) :: Prov(d, m, source, -1, tag)
  }

  /** The provenance of one member of one dataset. */
  function ProvOfMember(db: DB, d: int, m: nat): set<Prov> {
    set p | p in db.provenance && p.dataset == d && p.member == m
  }

  /** One provenance row per source that holds the member. */
  function Sources(db: DB, d: int, m: nat, a: int, b: int): set<Prov> {
    (if m in MembersOf(db, a) then {Prov(d, m, a, -1, "A")} else {})
    + (if m in MembersOf(db, b) then {Prov(d, m, b, -1, "B")} else {})
  }

  /** The membership rows of one dataset, from a list or from a set of members. */
  function Listed(d: int, ids: seq<nat>): set<(int, nat)> {
    set m | m in ids :: (d, m)
  }

  function Rows(d: int, members: set<nat>): set<(int, nat)> {
    set m | m in members :: (d, m)
  }

  class DatasetService {
    var db: DB

    constructor (db: DB)
      ensures this.db == db
    {
      this.db := db;
    }

    /** executemany of INSERT OR IGNORE. */
    method InsertMembers(d: int, ids: seq<nat>)
      modifies this
      ensures db == old(db).(memberships := db.memberships)
      ensures db.memberships == old(db.memberships) + Listed(d, ids)
    {
      for i := 0 to |ids|
        invariant db == old(db).(memberships := db.memberships)
        invariant db.memberships == old(db.memberships) + Listed(d, ids[..i])
      {
        assert ids[..i + 1] == ids[..i] + [ids[i]];
        db := db.(memberships := db.memberships + {(d, ids[i])});
      }
      assert ids[..|ids|] == ids;
    }

    /** The loop over the two sources. */
    method InsertProvenance(made: int, a: int, b: int)
      modifies this
      ensures db == old(db).(provenance := db.provenance)
      ensures db.provenance == old(db.provenance) + ProvFrom(old(db), made, a, "A") + ProvFrom(old(db), made, b, "B")
    {
      var sources := [(a, "A"), (b, "B")];
      for i := 0 to |sources|
        invariant db == old(db).(provenance := db.provenance)
        invariant db.provenance == old(db.provenance)
          + (if i > 0 then ProvFrom(old(db), made, a, "A") else {})
          + (if i > 1 then ProvFrom(old(db), made, b, "B") else {})
      {
        var (source, tag) := sources[i];
        assert MembersOf(db, source) == MembersOf(old(db), source);
        db := db.(provenance := db.provenance + ProvFrom(db, made, source, tag));
      }
    }

    /** The transaction: the dataset, its members, their provenance, its size. */
    method Transaction(made: int, a: int, b: int, op: SetOp)
      requires made !in db.counts && made != a && made != b
      modifies this
      ensures Combined(old(db), db, made, a, b, op)
    {
      db := db.(counts := db.counts[made := 0]);
      var ids := Ascending(Selected(db, a, b, op));
      InsertMembers(made, ids);
      ghost var filled := db;
      InsertProvenance(made, a, b);
      db := db.(counts := db.counts[made := |ids|]);
      Assembled(old(db), filled, db, made, ids, a, b, op);
    }

    /** `combine` into the new dataset `made`; None is the ValueError for an unknown operation. */
    method Combine(made: int, a: int, b: int, operation: string) returns (r: Option<int>)
      requires Inv(db) && made !in db.counts && made != a && made != b
      modifies this
      ensures r.Some? <==>
        Spells(operation, "UNION", "union") || Spells(operation, "INTERSECTION", "intersection")
        || Spells(operation, "DIFFERENCE", "difference")
      ensures ParseOp(operation).None? ==> r.None? && db == old(db)
      ensures ParseOp(operation).Some? ==>
        r == Some(made) && Inv(db) && CombinesTo(old(db), db, made, a, b, ParseOp(operation).value)
    {
      var op := ParseOp(operation);
      ParseOpMeaning(operation);
      if op.None? {
        return None;
      }
      Transaction(made, a, b, op.value);
      CombineMeaning(old(db), db, made, a, b, op.value);
      r := Some(made);
    }
  }

  /**
   What a combination means: the new dataset's members are the selected ones, its stored count is its
   size, each member's provenance names exactly the sources that hold it, and no other dataset changes.
   */
  ghost predicate CombinesTo(db: DB, db': DB, made: int, a: int, b: int, op: SetOp) {
    && MembersOf(db', made) == Selected(db, a, b, op)
    && db'.counts == db.counts[made := |MembersOf(db', made)|]
    && (forall m :: m in MembersOf(db', made) ==> ProvOfMember(db', made, m) == Sources(db, made, m, a, b))
    && (forall p :: p in db'.memberships && p.0 != made <==> p in db.memberships)
    && (forall p :: p in db'.provenance && p.dataset != made <==> p in db.provenance)
    && db'.rows == db.rows && db'.peers == db.peers && db'.planned == db.planned
  }

  lemma ListedPairs(made: int, found: set<nat>)
    ensures Listed(made, Ascending(found)) == Rows(made, found)
  {
    AscendingMeaning(found);
  }

  /** Sources with the same members contribute the same provenance. */
  lemma SameSources(db: DB, mid: DB, made: int, a: int, b: int)
    requires MembersOf(mid, a) == MembersOf(db, a) && MembersOf(mid, b) == MembersOf(db, b)
    ensures ProvFrom(mid, made, a, "A") == ProvFrom(db, made, a, "A") && ProvFrom(mid, made, b, "B") == ProvFrom(db, made, b, "B")
  {
  }

  /** What is selected depends on the memberships only. */
  lemma SameSelection(db: DB, db': DB, a: int, b: int, op: SetOp)
    requires db'.memberships == db.memberships
    ensures Selected(db', a, b, op) == Selected(db, a, b, op)
  {
    assert forall m :: Group(db', a, b, m) == Group(db, a, b, m);
  }

  /** Creating the dataset and filling it changes neither source. */
  lemma SourcesUntouched(db: DB, mid: DB, made: int, ids: seq<nat>, a: int, b: int)
    requires mid.memberships == db.memberships + Listed(made, ids) && made != a && made != b
    ensures MembersOf(mid, a) == MembersOf(db, a) && MembersOf(mid, b) == MembersOf(db, b)
  {
    forall m
      ensures m in MembersOf(mid, a) <==> m in MembersOf(db, a)
      ensures m in MembersOf(mid, b) <==> m in MembersOf(db, b)
    {
      InDataset(mid, a, m);
      InDataset(db, a, m);
      InDataset(mid, b, m);
      InDataset(db, b, m);
    }
  }

  /** The tables after the last statement. */
  ghost predicate Combined(db: DB, db': DB, made: int, a: int, b: int, op: SetOp) {
    && db'.memberships == db.memberships + Rows(made, Selected(db, a, b, op))
    && db'.provenance == db.provenance + ProvFrom(db, made, a, "A") + ProvFrom(db, made, b, "B")
    && db'.counts == db.counts[made := |Selected(db, a, b, op)|]
    && db' == db.(memberships := db'.memberships, provenance := db'.provenance, counts := db'.counts)
  }

  /** The four statements together. */
  lemma Assembled(db: DB, filled: DB, db': DB, made: int, ids: seq<nat>, a: int, b: int, op: SetOp)
    requires made != a && made != b
    requires var start := db.(counts := db.counts[made := 0]);
      && ids == Ascending(Selected(start, a, b, op))
      && filled == start.(memberships := db.memberships + Listed(made, ids))
    requires db' == filled.(
      provenance := filled.provenance + ProvFrom(filled, made, a, "A") + ProvFrom(filled, made, b, "B"),
      counts := filled.counts[made := |ids|])
    ensures Combined(db, db', made, a, b, op)
  {
    SameSelection(db, db.(counts := db.counts[made := 0]), a, b, op);
    ListedPairs(made, Selected(db, a, b, op));
    SourcesUntouched(db, filled, made, ids, a, b);
    SameSources(db, filled, made, a, b);
    assert db'.counts == db.counts[made := |ids|];
  }

  lemma CombineMeaning(db: DB, db': DB, made: int, a: int, b: int, op: SetOp)
    requires Inv(db) && made !in db.counts && made != a && made != b
    requires Combined(db, db', made, a, b, op)
    ensures Inv(db') && CombinesTo(db, db', made, a, b, op)
  {
  }
}
