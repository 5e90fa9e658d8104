/**
 The member identity store (`members/repository.py`): upsert by Telegram id or by username, upgrade of
 username-only rows, merging of duplicate rows, and batch ingest into a dataset.

 Tables are maps and sets; a constraint that SQLite would enforce by raising is modelled as `Raised`.
 */
module MemberStore {
  import opened Core

  // ------------------------------------------------------------------------------------------
  // Usernames
  // ------------------------------------------------------------------------------------------

  predicate Blank(c: char) {
    c == ' ' || c == '\t' || c == '\n' || c == '\r'
  }

  function TrimLeft(s: string): string {
    if s != [] && Blank(s[0]) then TrimLeft(s[1..]) else s
  }

  function TrimRight(s: string): string {
    if s != [] && Blank(s[|s| - 1]) then TrimRight(s[..|s| - 1]) else s
  }

  function DropAt(s: string): string {
    if s != [] && s[0] == '@' then DropAt(s[1..]) else s
  }

  /** `_clean_username`. */
  function Clean(u: Option<string>): (r: Option<string>)
    ensures r.Some? ==> r.value != []
  {
    if u.None? then None
    else
      var c := DropAt(TrimRight(TrimLeft(u.value)));
      if c == [] then None else Some(c)
  }

  function LowerChar(c: char): char {
    if 'A' <= c <= 'Z' then ((c as int) - ('A' as int) + ('a' as int)) as char else c
  }

  /** SQLite's `lower`, which folds ASCII letters only. */
  function Lower(s: string): (r: string)
    ensures |r| == |s|
  {
    seq(|s|, i requires 0 <= i < |s| => LowerChar(s[i]))
  }

  ghost predicate AllBlank(s: string) {
    forall i :: 0 <= i < |s| ==> s[i] == ' ' || s[i] == '\t' || s[i] == '\n' || s[i] == '\r'
  }

  ghost predicate AllAt(s: string) {
    forall i :: 0 <= i < |s| ==> s[i] == '@'
  }

  /** Nothing to trim on either side. */
  ghost predicate Trimmed(s: string) {
    s != [] ==> !AllBlank(s[..1]) && !AllBlank(s[|s| - 1..])
  }

  lemma {:induction false} TrimLeftDrops(l: string, s: string, r: string)
    requires AllBlank(l) && Trimmed(s) && s != []
    ensures TrimLeft(l + s + r) == s + r
    decreases |l|
  {
    if l == [] {
      assert s[..1] == [s[0]] && l + s + r == s + r;
    } else {
      TrimLeftDrops(l[1..], s, r);
      assert (l + s + r)[1..] == l[1..] + s + r;
    }
  }

  lemma {:induction false} TrimRightDrops(s: string, r: string)
    requires AllBlank(r) && Trimmed(s)
    ensures TrimRight(s + r) == s
    decreases |r|
  {
    if r == [] {
      assert s + r == s;
      assert s != [] ==> s[|s| - 1..] == [s[|s| - 1]];
    } else {
      TrimRightDrops(s, r[..|r| - 1]);
      assert (s + r)[..|s + r| - 1] == s + r[..|r| - 1];
    }
  }

  lemma {:induction false} BlankTrimsAway(r: string)
    requires AllBlank(r)
    ensures TrimLeft(r) == []
    decreases |r|
  {
    if r != [] {
      BlankTrimsAway(r[1..]);
    }
  }

  lemma {:induction false} DropsAts(a: string, c: string)
    requires AllAt(a) && (c != [] ==> c[0] != '@')
    ensures DropAt(a + c) == c
    decreases |a|
  {
    if a == [] {
      assert a + c == c;
    } else {
      DropsAts(a[1..], c);
      assert (a + c)[1..] == a[1..] + c;
    }
  }

  /**
   What a username is cleaned to: blanks around it go first, then the at signs in front; what is left is the name, and
   there is none if nothing is left.
   */
  lemma CleanMeaning(l: string, a: string, c: string, r: string)
    requires AllBlank(l) && AllAt(a) && Trimmed(a + c) && (c != [] ==> c[0] != '@') && AllBlank(r)
    ensures Clean(Some(l + a + c + r)) == if c == [] then None else Some(c)
  {
    var s := a + c;
    assert l + a + c + r == l + s + r;
    if s == [] {
      assert l + s + r == l + r && AllBlank(l + r);
      BlankTrimsAway(l + r);
    } else {
      TrimLeftDrops(l, s, r);
      TrimRightDrops(s, r);
      DropsAts(a, c);
    }
  }

  lemma BlanksInFront(u: string) returns (l: string, rest: string)
    ensures u == l + rest && AllBlank(l) && (rest != [] ==> !Blank(rest[0]))
  {
    l, rest := [], u;
    while rest != [] && Blank(rest[0])
      invariant u == l + rest && AllBlank(l)
      decreases |rest|
    {
      l, rest := l + [rest[0]], rest[1..];
    }
  }

  lemma BlanksBehind(u: string) returns (rest: string, r: string)
    ensures u == rest + r && AllBlank(r) && (rest != [] ==> !Blank(rest[|rest| - 1]))
  {
    rest, r := u, [];
    while rest != [] && Blank(rest[|rest| - 1])
      invariant u == rest + r && AllBlank(r)
      decreases |rest|
    {
      rest, r := rest[..|rest| - 1], [rest[|rest| - 1]] + r;
    }
  }

  lemma AtsInFront(u: string) returns (a: string, c: string)
    ensures u == a + c && AllAt(a) && (c != [] ==> c[0] != '@')
  {
    a, c := [], u;
    while c != [] && c[0] == '@'
      invariant u == a + c && AllAt(a)
      decreases |c|
    {
      a, c := a + [c[0]], c[1..];
    }
  }

  /** Every text is of that kind. */
  lemma EveryNameSplits(u: string) returns (l: string, a: string, c: string, r: string)
    ensures AllBlank(l) && AllAt(a) && Trimmed(a + c) && (c != [] ==> c[0] != '@') && AllBlank(r) && u == l + a + c + r
  {
    var rest, middle;
    l, rest := BlanksInFront(u);
    middle, r := BlanksBehind(rest);
    a, c := AtsInFront(middle);
    if middle != [] {
      assert middle[0] == rest[0];
      assert middle[..1] == [middle[0]] && middle[|middle| - 1..] == [middle[|middle| - 1]];
    }
  }

  /** Two characters fold alike: the same, or the same ASCII letter. */
  predicate FoldAlike(c: char, d: char) {
    || c == d
    || ('A' <= c <= 'Z' && d as int == c as int + 32)
    || ('A' <= d <= 'Z' && c as int == d as int + 32)
  }

  /** Usernames are the same up to the case of ASCII letters exactly when they fold to the same. */
  lemma LowerMeaning(s: string, t: string)
    ensures Lower(s) == Lower(t) <==> |s| == |t| && forall i :: 0 <= i < |s| ==> FoldAlike(s[i], t[i])
  {
    if |s| == |t| {
      assert forall i :: 0 <= i < |s| ==> (LowerChar(s[i]) == LowerChar(t[i]) <==> FoldAlike(s[i], t[i]));
      assert forall i :: 0 <= i < |s| ==> Lower(s)[i] == LowerChar(s[i]) && Lower(t)[i] == LowerChar(t[i]);
    }
  }

  // ------------------------------------------------------------------------------------------
  // Tables
  // ------------------------------------------------------------------------------------------

  datatype Profile = Profile(
    firstName: Option<string>, lastName: Option<string>, phone: Option<string>,
    bot: bool, deleted: bool, activity: Option<string>, lastSeen: Option<string>)

  /** A member as scanned or imported. */
  datatype Member = Member(uid: Option<int>, username: Option<string>, profile: Profile, accessHash: Option<int>)

  datatype MRow = MRow(uid: Option<int>, username: Option<string>, profile: Profile)

  /** A provenance row under its null-safe unique key: -1 and "" stand for NULL. */
  datatype Prov = Prov(dataset: int, member: nat, sourceDataset: int, sourceGroup: int, tag: string)

  datatype Peer = Peer(hash: int, username: Option<string>)

  /** `planned` are the member ids referenced by `migration_items`; `nextId` is AUTOINCREMENT's next value. */
  datatype DB = DB(
    rows: map<nat, MRow>,
    nextId: nat,
    memberships: set<(int, nat)>,
    provenance: set<Prov>,
    counts: map<int, nat>,
    peers: map<(int, int), Peer>,
    planned: set<nat>)

  /** The members of a dataset. */
  function MembersOf(db: DB, d: int): set<nat> {
    set p | p in db.memberships && p.0 == d :: p.1
  }

  /** The Telegram ids of a dataset. */
  function UidsOf(db: DB, d: int): set<int> {
    set m | m in MembersOf(db, d) && m in db.rows && db.rows[m].uid.Some? :: db.rows[m].uid.value
  }

  predicate HasUid(rows: map<nat, MRow>, m: nat, uid: int) {
    m in rows && rows[m].uid == Some(uid)
  }

  /** A row without Telegram id whose username folds to `name`. */
  predicate IsFallback(rows: map<nat, MRow>, m: nat, name: string) {
    m in rows && rows[m].uid.None? && rows[m].username.Some? && Lower(rows[m].username.value) == name
  }

  ghost function ByUid(rows: map<nat, MRow>, uid: int): (r: Option<nat>)
    ensures r.Some? ==> HasUid(rows, r.value, uid)
    ensures r.None? ==> forall m :: !HasUid(rows, m, uid)
  {
    if exists m :: HasUid(rows, m, uid) then
      var m :| HasUid(rows, m, uid);
      Some(m)
    else None
  }

  ghost function ByName(rows: map<nat, MRow>, username: Option<string>): (r: Option<nat>)
    ensures r.Some? ==> username.Some? && IsFallback(rows, r.value, Lower(username.value))
    ensures r.None? && username.Some? ==> forall m :: !IsFallback(rows, m, Lower(username.value))
  {
    if username.Some? && exists m :: IsFallback(rows, m, Lower(username.value)) then
      var m :| IsFallback(rows, m, Lower(username.value));
      Some(m)
    else None
  }

  // ------------------------------------------------------------------------------------------
  // Operations
  // ------------------------------------------------------------------------------------------

  /** INSERT OR IGNORE ... SELECT of the fallback row's memberships, then DELETE with its cascades. */
  function MoveMemberships(ps: set<(int, nat)>, f: nat, c: nat): set<(int, nat)> {
    (set p | p in ps && p.1 != f) + (set p | p in ps && p.1 == f :: (p.0, c))
  }

  function MoveProvenance(ps: set<Prov>, f: nat, c: nat): set<Prov> {
    (set p | p in ps && p.member != f) + (set p | p in ps && p.member == f :: p.(member := c))
  }

  /** `_merge_fallback_row` for two different rows, once the DELETE is allowed. */
  function Merge(db: DB, f: nat, c: nat): DB
  {
    db.(rows := db.rows - {f},
        memberships := MoveMemberships(db.memberships, f, c),
        provenance := MoveProvenance(db.provenance, f, c))
  }

  /** An upsert either raises (a planned row would be deleted) or leaves the tables and the row's id. */
  datatype Upserted = Raised | Kept(db: DB, id: Option<nat>, merged: Option<nat>)

  function PutRow(db: DB, id: nat, row: MRow): DB {
    db.(rows := db.rows[id := row])
  }

  function AddRow(db: DB, row: MRow): DB {
    db.(rows := db.rows[db.nextId := row], nextId := db.nextId + 1)
  }

  /** The branch for a member with a Telegram id. */
  ghost function UpsertUid(db: DB, uid: int, row: MRow): Upserted {
    var existing := ByUid(db.rows, uid);
    var fallback := ByName(db.rows, row.username);
    if existing.None? && fallback.Some? then Kept(PutRow(db, fallback.value, row), fallback, None)
    else
      var id := if existing.Some? then existing.value else db.nextId;
      var db1 := if existing.Some? then PutRow(db, id, row) else AddRow(db, row);
      if fallback.Some? && fallback.value != id then
        if fallback.value in db.planned then Raised
        else Kept(Merge(db1, fallback.value, id), Some(id), fallback)
      else Kept(db1, Some(id), None)
  }

  /** The branch for a member known only by username. */
  ghost function UpsertName(db: DB, row: MRow): Upserted {
    var found := ByName(db.rows, row.username);
    if found.Some? then Kept(PutRow(db, found.value, row), found, None)
    else Kept(AddRow(db, row), Some(db.nextId), None)
  }

  /** `_upsert_one`. */
  ghost function Upsert(db: DB, m: Member): Upserted {
    var name := Clean(m.username);
    var row := MRow(m.uid, name, m.profile);
    if m.uid.Some? then UpsertUid(db, m.uid.value, row)
    else if name.Some? then UpsertName(db, row)
    else Kept(db, None, None)
  }

  // ------------------------------------------------------------------------------------------
  // Invariant
  // ------------------------------------------------------------------------------------------

  ghost predicate UniqueUids(rows: map<nat, MRow>) {
    forall a, b :: a in rows && b in rows && rows[a].uid.Some? && rows[a].uid == rows[b].uid ==> a == b
  }

  ghost predicate UniqueNames(rows: map<nat, MRow>) {
    forall a, b, name :: IsFallback(rows, a, name) && IsFallback(rows, b, name) ==> a == b
  }

  ghost predicate References(db: DB) {
    && (forall m :: m in db.rows ==> m < db.nextId && (db.rows[m].uid.None? ==> db.rows[m].username.Some?))
    && (forall p :: p in db.memberships ==> p.0 in db.counts && p.1 in db.rows)
    && (forall p :: p in db.provenance ==> p.dataset in db.counts && p.member in db.rows)
    && (forall m :: m in db.planned ==> m in db.rows && db.rows[m].uid.Some?)
  }

  ghost predicate Inv(db: DB) {
    UniqueUids(db.rows) && UniqueNames(db.rows) && References(db)
  }

  lemma ByUidIs(rows: map<nat, MRow>, uid: int, m: nat)
    requires UniqueUids(rows) && HasUid(rows, m, uid)
    ensures ByUid(rows, uid) == Some(m)
  {
  }

  lemma ByNameIs(rows: map<nat, MRow>, username: string, m: nat)
    requires UniqueNames(rows) && IsFallback(rows, m, Lower(username))
    ensures ByName(rows, Some(username)) == Some(m)
  {
  }

  // ------------------------------------------------------------------------------------------
  // Rows: uniqueness and permanence
  // ------------------------------------------------------------------------------------------

  /** No other row carries the identity of `row`. */
  ghost predicate Free(rows: map<nat, MRow>, id: nat, row: MRow) {
    && (row.uid.Some? ==> forall m :: HasUid(rows, m, row.uid.value) ==> m == id)
    && (row.uid.None? ==> row.username.Some? && forall m :: IsFallback(rows, m, Lower(row.username.value)) ==> m == id)
  }

  /** An assigned Telegram id never changes and its row is never deleted. */
  ghost predicate Permanent(rows: map<nat, MRow>, rows': map<nat, MRow>) {
    forall m :: m in rows && rows[m].uid.Some? ==> m in rows' && rows'[m].uid == rows[m].uid
  }

  lemma SetRowKeepsUnique(rows: map<nat, MRow>, id: nat, row: MRow)
    requires UniqueUids(rows) && UniqueNames(rows) && Free(rows, id, row)
    ensures UniqueUids(rows[id := row]) && UniqueNames(rows[id := row])
  {
    var rows' := rows[id := row];
    forall a, b, name | IsFallback(rows', a, name) && IsFallback(rows', b, name)
      ensures a == b
    {
      assert a != id ==> IsFallback(rows, a, name);
      assert b != id ==> IsFallback(rows, b, name);
    }
    forall a, b | a in rows' && b in rows' && rows'[a].uid.Some? && rows'[a].uid == rows'[b].uid
      ensures a == b
    {
      assert a != id ==> HasUid(rows, a, rows'[a].uid.value);
      assert b != id ==> HasUid(rows, b, rows'[b].uid.value);
    }
  }

  lemma PutRowKeeps(db: DB, id: nat, row: MRow)
    requires Inv(db) && id in db.rows && Free(db.rows, id, row)
    requires db.rows[id].uid.Some? ==> row.uid == db.rows[id].uid
    ensures Inv(PutRow(db, id, row)) && Permanent(db.rows, PutRow(db, id, row).rows)
  {
    SetRowKeepsUnique(db.rows, id, row);
  }

  lemma AddRowKeeps(db: DB, row: MRow)
    requires Inv(db) && Free(db.rows, db.nextId, row)
    ensures Inv(AddRow(db, row)) && Permanent(db.rows, AddRow(db, row).rows)
  {
    SetRowKeepsUnique(db.rows, db.nextId, row);
  }

  /** `members` with `c` in the place of `f`. */
  function Moved(members: set<nat>, f: nat, c: nat): set<nat> {
    (members - {f}) + (if f in members then {c} else {})
  }

  /** After a merge every dataset holds the canonical row exactly if it held either row, and no longer the fallback. */
  lemma MergedMembers(db: DB, f: nat, c: nat, d: int)
    requires f != c
    ensures MembersOf(Merge(db, f, c), d) == Moved(MembersOf(db, d), f, c)
  {
    var after := MembersOf(Merge(db, f, c), d);
    forall m
      ensures m in after <==> m in Moved(MembersOf(db, d), f, c)
    {
      var moved := Merge(db, f, c).memberships;
      assert m in after <==> (d, m) in moved;
      assert m in MembersOf(db, d) <==> (d, m) in db.memberships;
      assert f in MembersOf(db, d) <==> (d, f) in db.memberships;
    }
  }

  /** The datasets of the canonical row after a merge are exactly the union of both rows' datasets. */
  lemma MergeUnitesDatasets(db: DB, f: nat, c: nat, d: int)
    requires f != c
    ensures (d, c) in Merge(db, f, c).memberships <==> (d, c) in db.memberships || (d, f) in db.memberships
    ensures (d, f) !in Merge(db, f, c).memberships
    ensures forall m :: m != c && m != f ==> ((d, m) in Merge(db, f, c).memberships <==> (d, m) in db.memberships)
  {
  }

  /** A dataset that held both rows shrinks by one; any other keeps its size. */
  lemma MergedSize(db: DB, f: nat, c: nat, d: int)
    requires f != c
    ensures |MembersOf(Merge(db, f, c), d)| ==
      |MembersOf(db, d)| - (if f in MembersOf(db, d) && c in MembersOf(db, d) then 1 else 0)
  {
    MergedMembers(db, f, c, d);
    var before := MembersOf(db, d);
    if f in before {
      assert |before - {f}| == |before| - 1;
      if c in before {
        assert (before - {f}) + {c} == before - {f};
      }
    } else {
      assert before - {f} == before;
      assert before + {} == before;
    }
  }

  lemma MergeKeeps(db: DB, f: nat, c: nat)
    requires Inv(db) && f in db.rows && c in db.rows && f != c
    requires db.rows[f].uid.None? && f !in db.planned
    ensures Inv(Merge(db, f, c)) && Permanent(db.rows, Merge(db, f, c).rows)
  {
    var db' := Merge(db, f, c);
    forall a, b, name | IsFallback(db'.rows, a, name) && IsFallback(db'.rows, b, name)
      ensures a == b
    {
      assert IsFallback(db.rows, a, name) && IsFallback(db.rows, b, name);
    }
  }

  // ------------------------------------------------------------------------------------------
  // Upsert
  // ------------------------------------------------------------------------------------------

  /** No username-only row is left for this username. */
  ghost predicate NoFallback(rows: map<nat, MRow>, username: Option<string>) {
    username.Some? ==> forall m :: !IsFallback(rows, m, Lower(username.value))
  }

  /** What an upsert of a member with an identity leaves behind. */
  ghost predicate UpsertOk(db: DB, row: MRow, r: Upserted) {
    && r.Kept? && r.id.Some?
    && Inv(r.db) && Permanent(db.rows, r.db.rows)
    && r.id.value in r.db.rows && r.db.rows[r.id.value] == row
    && r.db.counts == db.counts && r.db.planned == db.planned && r.db.peers == db.peers
    && (row.uid.Some? ==> NoFallback(r.db.rows, row.username))
    && (r.merged.None? ==> r.db.memberships == db.memberships && r.db.provenance == db.provenance)
    && (r.merged.Some? ==>
          && r.merged.value != r.id.value && r.merged.value in db.rows && db.rows[r.merged.value].uid.None?
          && r.db.memberships == MoveMemberships(db.memberships, r.merged.value, r.id.value)
          && r.db.provenance == MoveProvenance(db.provenance, r.merged.value, r.id.value))
  }

  /** A row with the same Telegram id and no fallback left is simply rewritten. */
  lemma RewriteKeeps(db: DB, uid: int, row: MRow, e: nat)
    requires Inv(db) && row.uid == Some(uid) && HasUid(db.rows, e, uid)
    requires ByName(db.rows, row.username).None?
    ensures UpsertUid(db, uid, row) == Kept(PutRow(db, e, row), Some(e), None)
    ensures UpsertOk(db, row, UpsertUid(db, uid, row))
  {
    ByUidIs(db.rows, uid, e);
    PutRowKeeps(db, e, row);
    NoFallbackAfter(db.rows, db.rows[e := row], e, row);
  }

  lemma NoFallbackAfter(rows: map<nat, MRow>, rows': map<nat, MRow>, id: nat, row: MRow)
    requires row.uid.Some? && rows' == rows[id := row]
    requires row.username.Some? ==> forall m :: IsFallback(rows, m, Lower(row.username.value)) ==> m == id
    ensures NoFallback(rows', row.username)
  {
    if row.username.Some? {
      var name := Lower(row.username.value);
      assert forall m :: IsFallback(rows', m, name) ==> m != id && IsFallback(rows, m, name);
    }
  }

  /** A username-only row is upgraded in place when its Telegram id is first seen. */
  lemma UpgradeKeeps(db: DB, uid: int, row: MRow, f: nat)
    requires Inv(db) && row.uid == Some(uid) && ByUid(db.rows, uid).None? && ByName(db.rows, row.username) == Some(f)
    ensures UpsertUid(db, uid, row) == Kept(PutRow(db, f, row), Some(f), None)
    ensures UpsertOk(db, row, UpsertUid(db, uid, row))
  {
    PutRowKeeps(db, f, row);
    assert forall m :: IsFallback(db.rows, m, Lower(row.username.value)) ==> m == f;
    NoFallbackAfter(db.rows, db.rows[f := row], f, row);
  }

  /** A new Telegram id without a fallback row gets a row of its own. */
  lemma InsertKeeps(db: DB, uid: int, row: MRow)
    requires Inv(db) && row.uid == Some(uid) && ByUid(db.rows, uid).None? && ByName(db.rows, row.username).None?
    ensures UpsertOk(db, row, UpsertUid(db, uid, row))
  {
    AddRowKeeps(db, row);
    NoFallbackAfter(db.rows, db.rows[db.nextId := row], db.nextId, row);
  }

  /** Two rows for one person are merged; the deleted one is never a planned one. */
  lemma MergeRowKeeps(db: DB, uid: int, row: MRow, e: nat, f: nat)
    requires Inv(db) && row.uid == Some(uid) && HasUid(db.rows, e, uid) && ByName(db.rows, row.username) == Some(f)
    ensures f !in db.planned && f != e
    ensures UpsertUid(db, uid, row) == Kept(Merge(PutRow(db, e, row), f, e), Some(e), Some(f))
    ensures UpsertOk(db, row, UpsertUid(db, uid, row))
  {
    ByUidIs(db.rows, uid, e);
    PutRowKeeps(db, e, row);
    var db1 := PutRow(db, e, row);
    MergeKeeps(db1, f, e);
    var after := Merge(db1, f, e).rows;
    var name := Lower(row.username.value);
    assert forall m :: IsFallback(after, m, name) ==> m != f && IsFallback(db.rows, m, name);
    assert IsFallback(db.rows, f, name);
  }

  lemma UpsertUidKeeps(db: DB, uid: int, row: MRow)
    requires Inv(db) && row.uid == Some(uid)
    ensures UpsertOk(db, row, UpsertUid(db, uid, row))
  {
    var existing := ByUid(db.rows, uid);
    var fallback := ByName(db.rows, row.username);
    if existing.None? && fallback.Some? {
      UpgradeKeeps(db, uid, row, fallback.value);
    } else if existing.None? {
      InsertKeeps(db, uid, row);
    } else if fallback.None? {
      RewriteKeeps(db, uid, row, existing.value);
    } else {
      MergeRowKeeps(db, uid, row, existing.value, fallback.value);
    }
  }

  lemma UpsertNameKeeps(db: DB, row: MRow)
    requires Inv(db) && row.uid.None? && row.username.Some?
    ensures UpsertOk(db, row, UpsertName(db, row))
  {
    var found := ByName(db.rows, row.username);
    if found.Some? {
      assert forall m :: IsFallback(db.rows, m, Lower(row.username.value)) ==> m == found.value;
      PutRowKeeps(db, found.value, row);
    } else {
      AddRowKeeps(db, row);
    }
  }

  /** The member has a Telegram id or a username left after cleaning. */
  predicate Identified(m: Member) {
    m.uid.Some? || Clean(m.username).Some?
  }

  function RowOf(m: Member): MRow {
    MRow(m.uid, Clean(m.username), m.profile)
  }

  /**
   Every upsert keeps one row per Telegram id and one id-less row per folded username, never changes or
   deletes an assigned id, never raises, and leaves the member's own row under the returned id.
   */
  lemma UpsertKeeps(db: DB, m: Member)
    requires Inv(db)
    ensures if Identified(m) then UpsertOk(db, RowOf(m), Upsert(db, m)) else Upsert(db, m) == Kept(db, None, None)
  {
    if m.uid.Some? {
      UpsertUidKeeps(db, m.uid.value, RowOf(m));
    } else if Clean(m.username).Some? {
      UpsertNameKeeps(db, RowOf(m));
    }
  }

  /** Rows other than the upserted one and the merged one are untouched. */
  lemma OtherRowsStay(db: DB, m: Member)
    requires Inv(db) && Identified(m)
    ensures var r := Upsert(db, m);
      && r.Kept? && r.id.Some?
      && (forall x :: x in r.db.rows && x != r.id.value ==> x in db.rows && r.db.rows[x] == db.rows[x])
      && (forall x :: x in db.rows && x != r.id.value && r.merged != Some(x) ==> x in r.db.rows)
  {
    UpsertKeeps(db, m);
  }

  /**
   Which row an upsert writes: the one of the Telegram id; else the username-only row of the same name, which so gets the
   id and stays itself; else a new one.  A username-only row is merged away exactly if the id has another row already.
   */
  lemma UpsertMeaning(db: DB, m: Member, x: nat, y: nat)
    requires Inv(db) && Identified(m)
    ensures var r := Upsert(db, m);
      var name := Clean(m.username);
      && r.Kept? && r.id.Some? && r.id.value in r.db.rows && r.db.rows[r.id.value] == MRow(m.uid, name, m.profile)
      && (m.uid.Some? && HasUid(db.rows, x, m.uid.value) ==>
            && r.id == Some(x)
            && (name.Some? && IsFallback(db.rows, y, Lower(name.value)) ==> r.merged == Some(y) && y !in r.db.rows))
      && ((forall z :: m.uid.Some? ==> !HasUid(db.rows, z, m.uid.value)) ==>
            && r.merged == None
            && (name.Some? && IsFallback(db.rows, y, Lower(name.value)) ==> r.id == Some(y) && r.db.nextId == db.nextId)
            && ((forall z :: name.Some? ==> !IsFallback(db.rows, z, Lower(name.value))) ==>
                  r.id == Some(db.nextId) && r.db.nextId == db.nextId + 1))
  {
    UpsertKeeps(db, m);
    var name := Clean(m.username);
    if m.uid.Some? && HasUid(db.rows, x, m.uid.value) {
      ByUidIs(db.rows, m.uid.value, x);
    }
    if name.Some? && IsFallback(db.rows, y, Lower(name.value)) {
      ByNameIs(db.rows, name.value, y);
    }
  }

  /** How a dataset's rows and members moved, reduced to what its Telegram ids depend on. */
  lemma UidsAfter(db: DB, db': DB, id: nat, merged: Option<nat>, uid: Option<int>, d: int)
    requires forall x :: x in db'.rows && x != id ==> x in db.rows && db'.rows[x] == db.rows[x]
    requires forall x :: x in db.rows && x != id && merged != Some(x) ==> x in db'.rows
    requires merged.Some? ==> merged.value in db.rows && db.rows[merged.value].uid.None? && merged.value != id
    requires id in db'.rows && db'.rows[id].uid == uid
    requires id in db.rows && db.rows[id].uid.Some? ==> db.rows[id].uid == uid
    requires merged.None? ==> MembersOf(db', d) == MembersOf(db, d)
    requires merged.Some? ==> MembersOf(db', d) == Moved(MembersOf(db, d), merged.value, id)
    ensures UidsOf(db', d) == UidsOf(db, d) + (if uid.Some? && id in MembersOf(db', d) then {uid.value} else {})
  {
    var extra := if uid.Some? && id in MembersOf(db', d) then {uid.value} else {};
    forall u | u in UidsOf(db', d)
      ensures u in UidsOf(db, d) + extra
    {
      var x :| x in MembersOf(db', d) && x in db'.rows && db'.rows[x].uid == Some(u);
      assert x != id ==> x in MembersOf(db, d) && x in db.rows && db.rows[x].uid == Some(u);
    }
    forall u | u in UidsOf(db, d)
      ensures u in UidsOf(db', d)
    {
      var x :| x in MembersOf(db, d) && x in db.rows && db.rows[x].uid == Some(u);
      assert x in MembersOf(db', d) && x in db'.rows && db'.rows[x].uid == Some(u);
    }
    if extra != {} {
      assert uid.value in UidsOf(db', d);
    }
  }

  /** The members of a dataset after an upsert. */
  lemma UpsertMembers(db: DB, m: Member, d: int)
    requires Inv(db) && Identified(m)
    ensures var r := Upsert(db, m);
      && r.Kept? && r.id.Some?
      && (r.merged.None? ==> MembersOf(r.db, d) == MembersOf(db, d))
      && (r.merged.Some? ==> MembersOf(r.db, d) == Moved(MembersOf(db, d), r.merged.value, r.id.value))
  {
    UpsertKeeps(db, m);
    var r := Upsert(db, m);
    if r.merged.Some? {
      MergedMembers(db, r.merged.value, r.id.value, d);
      assert MembersOf(r.db, d) == MembersOf(Merge(db, r.merged.value, r.id.value), d);
    } else {
      assert MembersOf(r.db, d) == MembersOf(db, d);
    }
  }

  /** The Telegram ids of a dataset change only by the id just upserted, where its row belongs. */
  lemma UpsertUids(db: DB, m: Member, d: int)
    requires Inv(db) && Identified(m)
    ensures var r := Upsert(db, m);
      r.Kept? && r.id.Some? &&
      UidsOf(r.db, d) == UidsOf(db, d) + (if m.uid.Some? && r.id.value in MembersOf(r.db, d) then {m.uid.value} else {})
  {
    UpsertKeeps(db, m);
    OtherRowsStay(db, m);
    UpsertMembers(db, m, d);
    var r := Upsert(db, m);
    UidsAfter(db, r.db, r.id.value, r.merged, m.uid, d);
  }

  /** This upsert merged two rows that were both in dataset `d`. */
  predicate Collapses(db: DB, r: Upserted, d: int) {
    r.Kept? && r.id.Some? && r.merged.Some? && (d, r.merged.value) in db.memberships && (d, r.id.value) in db.memberships
  }

  /** An upsert never grows a dataset, and shrinks it by one exactly when it merges two of its rows. */
  lemma UpsertSize(db: DB, m: Member, d: int)
    requires Inv(db) && Identified(m)
    ensures var r := Upsert(db, m);
      r.Kept? && |MembersOf(r.db, d)| == |MembersOf(db, d)| - (if Collapses(db, r, d) then 1 else 0)
  {
    UpsertKeeps(db, m);
    UpsertMembers(db, m, d);
    var r := Upsert(db, m);
    if r.merged.Some? {
      var f, c := r.merged.value, r.id.value;
      MergedMembers(db, f, c, d);
      MergedSize(db, f, c, d);
      assert f in MembersOf(db, d) <==> (d, f) in db.memberships;
      assert c in MembersOf(db, d) <==> (d, c) in db.memberships;
    }
  }
}
