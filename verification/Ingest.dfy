/**
 Batch ingest into a dataset (`submit_ingest_batch`): what a batch adds, how sizes and stored counts move,
 what a replay does, and the store invariant over every sequence of operations.
 */
module Ingest {
  import opened Core
  import opened MemberStore

  /** Where a batch goes; group -1 stands for NULL. */
  datatype Target = Target(dataset: int, group: int, account: Option<int>, tag: string)

  /** The summary together with the tables; `Aborted` when a foreign key raised and the writer rolled back. */
  datatype Tally = Aborted | Tally(db: DB, accepted: nat, invalid: nat, ids: seq<nat>)

  function PeersAfter(peers: map<(int, int), Peer>, t: Target, m: Member): map<(int, int), Peer> {
    if t.account.Some? && m.uid.Some? && m.accessHash.Some? then
      peers[(t.account.value, m.uid.value) := Peer(m.accessHash.value, Clean(m.username))]
    else peers
  }

  function ProvOf(t: Target, id: nat): Prov {
    Prov(t.dataset, id, -1, t.group, t.tag)
  }

  /** Membership, provenance and peer hint of one upserted member. */
  function Record(db: DB, t: Target, id: nat, m: Member): DB {
    db.(memberships := db.memberships + {(t.dataset, id)},
        provenance := db.provenance + {ProvOf(t, id)},
        peers := PeersAfter(db.peers, t, m))
  }

  ghost function Step(s: Tally, t: Target, m: Member): Tally {
    if s.Aborted? then s else
    match Upsert(s.db, m)
    case Raised => Aborted
    case Kept(db, id, _) =>
      if id.None? then s.(db := db, invalid := s.invalid + 1)
      else if t.dataset !in db.counts then Aborted
      else Tally(Record(db, t, id.value, m),
                 s.accepted + (if (t.dataset, id.value) in db.memberships then 0 else 1),
                 s.invalid, s.ids + [id.value])
  }

  ghost function Fold(db: DB, t: Target, batch: seq<Member>): Tally {
    if batch == [] then Tally(db, 0, 0, [])
    else Step(Fold(db, t, batch[..|batch| - 1]), t, batch[|batch| - 1])
  }

  /** The closing UPDATE of `member_count`. */
  function Recount(db: DB, d: int): DB {
    if d in db.counts then db.(counts := db.counts[d := |MembersOf(db, d)|]) else db
  }

  ghost function Ingest(db: DB, t: Target, batch: seq<Member>): Tally {
    var s := Fold(db, t, batch);
    if s.Aborted? then s else s.(db := Recount(s.db, t.dataset))
  }

  // ------------------------------------------------------------------------------------------
  // One member
  // ------------------------------------------------------------------------------------------

  /** Recording adds the row to the target dataset and to no other. */
  lemma RecordMembers(db: DB, t: Target, id: nat, m: Member, d: int)
    ensures MembersOf(Record(db, t, id, m), d) == MembersOf(db, d) + (if d == t.dataset then {id} else {})
  {
    var db' := Record(db, t, id, m);
    forall x
      ensures x in MembersOf(db', d) <==> x in MembersOf(db, d) + (if d == t.dataset then {id} else {})
    {
      assert x in MembersOf(db', d) <==> (d, x) in db'.memberships;
      assert x in MembersOf(db, d) <==> (d, x) in db.memberships;
    }
  }

  /** A step of an identified member into an existing dataset goes through and keeps the store sound. */
  lemma StepKeeps(s: Tally, t: Target, m: Member)
    requires s.Tally? && Inv(s.db) && t.dataset in s.db.counts
    ensures var s' := Step(s, t, m);
      && s'.Tally? && Inv(s'.db) && Permanent(s.db.rows, s'.db.rows)
      && s'.db.counts == s.db.counts && s'.db.planned == s.db.planned
      && |s'.ids| + s'.invalid == |s.ids| + s.invalid + 1
      && s'.accepted - s.accepted <= |s'.ids| - |s.ids|
  {
    UpsertKeeps(s.db, m);
  }

  /** How one step moves the size of any dataset. */
  lemma StepSize(s: Tally, t: Target, m: Member, d: int)
    requires s.Tally? && Inv(s.db) && t.dataset in s.db.counts
    ensures var s' := Step(s, t, m);
      s'.Tally? && |MembersOf(s'.db, d)| == |MembersOf(s.db, d)|
        + (if d == t.dataset then s'.accepted - s.accepted else 0)
        - (if Collapses(s.db, Upsert(s.db, m), d) then 1 else 0)
  {
    UpsertKeeps(s.db, m);
    if Identified(m) {
      UpsertSize(s.db, m, d);
      var r := Upsert(s.db, m);
      RecordMembers(r.db, t, r.id.value, m, d);
      var before := MembersOf(r.db, d);
      assert r.id.value in before <==> (d, r.id.value) in r.db.memberships;
      if d == t.dataset && r.id.value in before {
        assert before + {r.id.value} == before;
      }
    }
  }

  /** The Telegram ids of the target dataset after one step. */
  lemma StepUids(s: Tally, t: Target, m: Member)
    requires s.Tally? && Inv(s.db) && t.dataset in s.db.counts
    ensures var s' := Step(s, t, m);
      s'.Tally? && UidsOf(s'.db, t.dataset) == UidsOf(s.db, t.dataset) + (if m.uid.Some? then {m.uid.value} else {})
  {
    UpsertKeeps(s.db, m);
    if Identified(m) {
      var d := t.dataset;
      UpsertUids(s.db, m, d);
      var r := Upsert(s.db, m);
      var id := r.id.value;
      RecordMembers(r.db, t, id, m, d);
      var db' := Record(r.db, t, id, m);
      assert UidsOf(db', d) == UidsOf(r.db, d) + (if m.uid.Some? then {m.uid.value} else {}) by {
        RecordUids(r.db, db', id, d);
      }
    }
  }

  lemma RecordUids(db: DB, db': DB, id: nat, d: int)
    requires db'.rows == db.rows && id in db.rows && MembersOf(db', d) == MembersOf(db, d) + {id}
    ensures UidsOf(db', d) == UidsOf(db, d) + (if db.rows[id].uid.Some? then {db.rows[id].uid.value} else {})
  {
    var extra := if db.rows[id].uid.Some? then {db.rows[id].uid.value} else {};
    forall u | u in UidsOf(db, d)
      ensures u in UidsOf(db', d)
    {
      var x :| x in MembersOf(db, d) && x in db.rows && db.rows[x].uid == Some(u);
      assert x in MembersOf(db', d);
    }
    if extra != {} {
      assert id in MembersOf(db', d);
    }
  }

  // ------------------------------------------------------------------------------------------
  // A whole batch
  // ------------------------------------------------------------------------------------------

  function Uids(batch: seq<Member>): set<int> {
    set m | m in batch && m.uid.Some? :: m.uid.value
  }

  /** How many merges of this batch found both rows in dataset `d`. */
  ghost function Collapsed(db: DB, t: Target, batch: seq<Member>, d: int): nat {
    if batch == [] then 0
    else
      var front := batch[..|batch| - 1];
      var s := Fold(db, t, front);
      Collapsed(db, t, front, d)
        + (if s.Tally? && Collapses(s.db, Upsert(s.db, batch[|batch| - 1]), d) then 1 else 0)
  }

  lemma {:induction false} FoldKeeps(db: DB, t: Target, batch: seq<Member>)
    requires Inv(db) && t.dataset in db.counts
    ensures var s := Fold(db, t, batch);
      && s.Tally? && Inv(s.db) && Permanent(db.rows, s.db.rows)
      && s.db.counts == db.counts && s.db.planned == db.planned
      && |s.ids| + s.invalid == |batch| && s.accepted <= |s.ids|
  {
    if batch != [] {
      var front := batch[..|batch| - 1];
      FoldKeeps(db, t, front);
      StepKeeps(Fold(db, t, front), t, batch[|batch| - 1]);
    }
  }

  lemma {:induction false} FoldSize(db: DB, t: Target, batch: seq<Member>, d: int)
    requires Inv(db) && t.dataset in db.counts
    ensures var s := Fold(db, t, batch);
      s.Tally? && |MembersOf(s.db, d)| ==
        |MembersOf(db, d)| + (if d == t.dataset then s.accepted else 0) - Collapsed(db, t, batch, d)
  {
    if batch != [] {
      var front := batch[..|batch| - 1];
      FoldKeeps(db, t, front);
      FoldSize(db, t, front, d);
      StepSize(Fold(db, t, front), t, batch[|batch| - 1], d);
    }
  }

  lemma {:induction false} FoldUids(db: DB, t: Target, batch: seq<Member>)
    requires Inv(db) && t.dataset in db.counts
    ensures var s := Fold(db, t, batch);
      s.Tally? && UidsOf(s.db, t.dataset) == UidsOf(db, t.dataset) + Uids(batch)
  {
    if batch != [] {
      var front, last := batch[..|batch| - 1], batch[|batch| - 1];
      FoldKeeps(db, t, front);
      FoldUids(db, t, front);
      StepUids(Fold(db, t, front), t, last);
      assert batch == front + [last];
      assert Uids(batch) == Uids(front) + (if last.uid.Some? then {last.uid.value} else {});
    }
  }

  lemma RecountSame(db: DB, d: int, x: int)
    ensures MembersOf(Recount(db, d), x) == MembersOf(db, x) && UidsOf(Recount(db, d), x) == UidsOf(db, x)
  {
    assert MembersOf(Recount(db, d), x) == MembersOf(db, x);
  }

  /**
   Accounting of one batch: the dataset grows by exactly `accepted` minus the merges that found both rows
   in it, and its stored count is exact afterwards.
   */
  lemma IngestAccounting(db: DB, t: Target, batch: seq<Member>)
    requires Inv(db) && t.dataset in db.counts
    ensures var s := Ingest(db, t, batch);
      && s.Tally? && Inv(s.db)
      && |MembersOf(s.db, t.dataset)| == |MembersOf(db, t.dataset)| + s.accepted - Collapsed(db, t, batch, t.dataset)
      && s.db.counts == db.counts[t.dataset := |MembersOf(s.db, t.dataset)|]
      && |s.ids| + s.invalid == |batch| && s.accepted <= |s.ids|
  {
    FoldKeeps(db, t, batch);
    FoldSize(db, t, batch, t.dataset);
    RecountSame(Fold(db, t, batch).db, t.dataset, t.dataset);
  }

  /**
   The stored count of every other dataset drifts upwards by exactly the merges that collapsed two of its
   rows: an exact count stays exact if and only if there was none.
   */
  lemma OtherCountsDrift(db: DB, t: Target, batch: seq<Member>, d: int)
    requires Inv(db) && t.dataset in db.counts && d in db.counts && d != t.dataset
    ensures var s := Ingest(db, t, batch);
      && s.Tally? && d in s.db.counts
      && s.db.counts[d] - |MembersOf(s.db, d)| == db.counts[d] - |MembersOf(db, d)| + Collapsed(db, t, batch, d)
  {
    FoldKeeps(db, t, batch);
    FoldSize(db, t, batch, d);
    RecountSame(Fold(db, t, batch).db, t.dataset, d);
  }

  /** The Telegram ids of the dataset gain exactly those of the batch, whatever was merged or upgraded. */
  lemma IngestUids(db: DB, t: Target, batch: seq<Member>)
    requires Inv(db) && t.dataset in db.counts
    ensures var s := Ingest(db, t, batch);
      s.Tally? && UidsOf(s.db, t.dataset) == UidsOf(db, t.dataset) + Uids(batch)
  {
    FoldUids(db, t, batch);
    RecountSame(Fold(db, t, batch).db, t.dataset, t.dataset);
  }

  /** A batch into a dataset that does not exist is refused exactly when one of its members has an identity. */
  lemma {:induction false} MissingDatasetAborts(db: DB, t: Target, batch: seq<Member>)
    requires Inv(db) && t.dataset !in db.counts
    ensures Fold(db, t, batch).Aborted? <==> exists m :: m in batch && Identified(m)
    ensures Fold(db, t, batch).Tally? ==> Fold(db, t, batch) == Tally(db, 0, |batch|, [])
  {
    if batch != [] {
      var front, last := batch[..|batch| - 1], batch[|batch| - 1];
      assert batch == front + [last];
      MissingDatasetAborts(db, t, front);
      UpsertKeeps(db, last);
    }
  }

  // ------------------------------------------------------------------------------------------
  // Replay
  // ------------------------------------------------------------------------------------------

  ghost predicate SettledAt(db: DB, t: Target, uid: int, e: nat) {
    HasUid(db.rows, e, uid) && (t.dataset, e) in db.memberships && ProvOf(t, e) in db.provenance
  }

  /** Everything a re-ingest of this member would insert is already there. */
  ghost predicate Settled(db: DB, t: Target, m: Member) {
    && m.uid.Some? && NoFallback(db.rows, Clean(m.username))
    && exists e :: SettledAt(db, t, m.uid.value, e)
  }

  predicate AllHaveUids(batch: seq<Member>) {
    forall m :: m in batch ==> m.uid.Some?
  }

  /** An upsert of a member with a Telegram id creates no username-only row. */
  lemma NoNewFallback(db: DB, m: Member, name: Option<string>)
    requires Inv(db) && m.uid.Some? && NoFallback(db.rows, name)
    ensures Upsert(db, m).Kept? && NoFallback(Upsert(db, m).db.rows, name)
  {
    OtherRowsStay(db, m);
    UpsertKeeps(db, m);
    var r := Upsert(db, m);
    if name.Some? {
      assert forall x :: IsFallback(r.db.rows, x, Lower(name.value)) ==> IsFallback(db.rows, x, Lower(name.value));
    }
  }

  lemma StepSettles(s: Tally, t: Target, m: Member)
    requires s.Tally? && Inv(s.db) && t.dataset in s.db.counts && m.uid.Some?
    ensures var s' := Step(s, t, m); s'.Tally? && Settled(s'.db, t, m)
  {
    UpsertKeeps(s.db, m);
    var r := Upsert(s.db, m);
    var db' := Step(s, t, m).db;
    assert SettledAt(db', t, m.uid.value, r.id.value);
  }

  lemma StepKeepsSettled(s: Tally, t: Target, m: Member, n: Member)
    requires s.Tally? && Inv(s.db) && t.dataset in s.db.counts && m.uid.Some? && Settled(s.db, t, n)
    ensures var s' := Step(s, t, m); s'.Tally? && Settled(s'.db, t, n)
  {
    UpsertKeeps(s.db, m);
    NoNewFallback(s.db, m, Clean(n.username));
    var e: nat :| SettledAt(s.db, t, n.uid.value, e);
    var r := Upsert(s.db, m);
    var db' := Step(s, t, m).db;
    assert r.merged != Some(e);
    assert SettledAt(db', t, n.uid.value, e);
  }

  lemma {:induction false} FoldSettles(db: DB, t: Target, batch: seq<Member>)
    requires Inv(db) && t.dataset in db.counts && AllHaveUids(batch)
    ensures var s := Fold(db, t, batch); s.Tally? && forall m :: m in batch ==> Settled(s.db, t, m)
  {
    FoldKeeps(db, t, batch);
    if batch != [] {
      var front, last := batch[..|batch| - 1], batch[|batch| - 1];
      assert batch == front + [last];
      FoldKeeps(db, t, front);
      FoldSettles(db, t, front);
      var s := Fold(db, t, front);
      StepSettles(s, t, last);
      forall m | m in front
        ensures Settled(Step(s, t, last).db, t, m)
      {
        StepKeepsSettled(s, t, last, m);
      }
    }
  }

  /** The row and the peer hint the last member with this Telegram id leaves behind. */
  function LastRow(batch: seq<Member>, uid: int): Option<MRow> {
    if batch == [] then None
    else if batch[|batch| - 1].uid == Some(uid) then Some(RowOf(batch[|batch| - 1]))
    else LastRow(batch[..|batch| - 1], uid)
  }

  function LastPeer(batch: seq<Member>, uid: int): Option<Peer> {
    if batch == [] then None
    else
      var m := batch[|batch| - 1];
      if m.uid == Some(uid) && m.accessHash.Some? then Some(Peer(m.accessHash.value, Clean(m.username)))
      else LastPeer(batch[..|batch| - 1], uid)
  }

  /** Rows with a Telegram id are the old ones overwritten by the batch, where they existed. */
  ghost predicate RowsWritten(rows: map<nat, MRow>, batch: seq<Member>) {
    forall x :: x in rows && rows[x].uid.Some? && LastRow(batch, rows[x].uid.value).Some? ==>
      rows[x] == LastRow(batch, rows[x].uid.value).value
  }

  ghost predicate PeersWritten(peers: map<(int, int), Peer>, t: Target, batch: seq<Member>) {
    t.account.Some? ==> forall u :: LastPeer(batch, u).Some? ==>
      (t.account.value, u) in peers && peers[(t.account.value, u)] == LastPeer(batch, u).value
  }

  lemma {:induction false} FoldWrites(db: DB, t: Target, batch: seq<Member>)
    requires Inv(db) && t.dataset in db.counts && AllHaveUids(batch)
    ensures var s := Fold(db, t, batch);
      s.Tally? && RowsWritten(s.db.rows, batch) && PeersWritten(s.db.peers, t, batch)
  {
    if batch != [] {
      var front, last := batch[..|batch| - 1], batch[|batch| - 1];
      FoldKeeps(db, t, front);
      FoldWrites(db, t, front);
      StepKeeps(Fold(db, t, front), t, last);
      StepWritesRows(Fold(db, t, front), t, last, front, batch);
      StepWritesPeers(Fold(db, t, front), t, last, front, batch);
    }
  }

  lemma StepWritesRows(s: Tally, t: Target, last: Member, front: seq<Member>, batch: seq<Member>)
    requires s.Tally? && Inv(s.db) && t.dataset in s.db.counts && last.uid.Some? && batch == front + [last]
    requires RowsWritten(s.db.rows, front)
    ensures Step(s, t, last).Tally? && RowsWritten(Step(s, t, last).db.rows, batch)
  {
    UpsertKeeps(s.db, last);
    OtherRowsStay(s.db, last);
    assert batch[..|batch| - 1] == front;
    var r := Upsert(s.db, last);
    var rows := r.db.rows;
    forall x | x in rows && rows[x].uid.Some? && LastRow(batch, rows[x].uid.value).Some?
      ensures rows[x] == LastRow(batch, rows[x].uid.value).value
    {
      if rows[x].uid == last.uid {
        assert x == r.id.value;
      }
    }
  }

  lemma StepWritesPeers(s: Tally, t: Target, last: Member, front: seq<Member>, batch: seq<Member>)
    requires s.Tally? && Inv(s.db) && t.dataset in s.db.counts && last.uid.Some? && batch == front + [last]
    requires PeersWritten(s.db.peers, t, front)
    ensures Step(s, t, last).Tally? && PeersWritten(Step(s, t, last).db.peers, t, batch)
  {
    UpsertKeeps(s.db, last);
    assert batch[..|batch| - 1] == front;
  }

  /** A replayed member only rewrites its own row and peer hint. */
  lemma ReplayStep(s: Tally, t: Target, m: Member)
    requires s.Tally? && Inv(s.db) && t.dataset in s.db.counts && Settled(s.db, t, m)
    ensures var s' := Step(s, t, m);
      exists e :: HasUid(s.db.rows, e, m.uid.value)
        && s'.Tally? && s'.accepted == s.accepted && s'.invalid == s.invalid
        && s'.db == s.db.(rows := s.db.rows[e := RowOf(m)], peers := PeersAfter(s.db.peers, t, m))
  {
    var e :| SettledAt(s.db, t, m.uid.value, e);
    RewriteKeeps(s.db, m.uid.value, RowOf(m), e);
    assert s.db.memberships + {(t.dataset, e)} == s.db.memberships;
    assert s.db.provenance + {ProvOf(t, e)} == s.db.provenance;
  }

  function Overwritten(row: MRow, prefix: seq<Member>): MRow {
    if row.uid.Some? && LastRow(prefix, row.uid.value).Some? then LastRow(prefix, row.uid.value).value else row
  }

  /** The state of a replay after a prefix: only rows and peer hints of that prefix have moved. */
  ghost predicate Replaying(start: DB, s: Tally, t: Target, prefix: seq<Member>) {
    && s.Tally? && s.accepted == 0 && s.invalid == 0
    && s.db == start.(rows := s.db.rows, peers := s.db.peers)
    && s.db.rows.Keys == start.rows.Keys
    && (forall x :: x in start.rows ==> s.db.rows[x] == Overwritten(start.rows[x], prefix))
    && (forall k :: k in s.db.peers ==>
          || (k in start.peers && s.db.peers[k] == start.peers[k])
          || (t.account == Some(k.0) && LastPeer(prefix, k.1) == Some(s.db.peers[k])))
    && (forall k :: k in start.peers ==> k in s.db.peers)
  }

  lemma {:induction false} LastRowUid(batch: seq<Member>, uid: int)
    ensures LastRow(batch, uid).Some? ==> LastRow(batch, uid).value.uid == Some(uid)
  {
    if batch != [] {
      LastRowUid(batch[..|batch| - 1], uid);
    }
  }

  lemma ReplayingRows(start: DB, rows: map<nat, MRow>, e: nat, front: seq<Member>, m: Member, batch: seq<Member>)
    requires UniqueUids(rows) && rows.Keys == start.rows.Keys && batch == front + [m] && m.uid.Some?
    requires forall x :: x in start.rows ==> rows[x] == Overwritten(start.rows[x], front)
    requires HasUid(rows, e, m.uid.value)
    ensures var rows' := rows[e := RowOf(m)];
      rows'.Keys == rows.Keys && forall x :: x in start.rows ==> rows'[x] == Overwritten(start.rows[x], batch)
  {
    assert batch[..|batch| - 1] == front;
    forall x | x in start.rows
      ensures rows[e := RowOf(m)][x] == Overwritten(start.rows[x], batch)
    {
      if start.rows[x].uid.Some? {
        LastRowUid(front, start.rows[x].uid.value);
      }
    }
  }

  lemma ReplayingStep(start: DB, s: Tally, t: Target, front: seq<Member>, m: Member, batch: seq<Member>)
    requires Inv(start) && Replaying(start, s, t, front) && batch == front + [m]
    requires Inv(s.db) && t.dataset in s.db.counts && Settled(s.db, t, m)
    ensures Replaying(start, Step(s, t, m), t, batch)
  {
    ReplayStep(s, t, m);
    assert batch[..|batch| - 1] == front;
    var s' := Step(s, t, m);
    var e: nat :| HasUid(s.db.rows, e, m.uid.value) && s'.Tally? && s'.db.rows == s.db.rows[e := RowOf(m)];
    ReplayingRows(start, s.db.rows, e, front, m, batch);
  }

  lemma {:induction false} ReplayFold(start: DB, t: Target, batch: seq<Member>)
    requires Inv(start) && t.dataset in start.counts && AllHaveUids(batch)
    requires forall m :: m in batch ==> Settled(start, t, m)
    ensures Replaying(start, Fold(start, t, batch), t, batch)
  {
    if batch != [] {
      var front, last := batch[..|batch| - 1], batch[|batch| - 1];
      assert batch == front + [last];
      ReplayFold(start, t, front);
      FoldKeeps(start, t, front);
      StaysSettled(start, t, front, last);
      ReplayingStep(start, Fold(start, t, front), t, front, last, batch);
    }
  }

  lemma {:induction false} StaysSettled(start: DB, t: Target, batch: seq<Member>, m: Member)
    requires Inv(start) && t.dataset in start.counts && AllHaveUids(batch) && Settled(start, t, m)
    ensures Fold(start, t, batch).Tally? && Settled(Fold(start, t, batch).db, t, m)
  {
    if batch != [] {
      var front, last := batch[..|batch| - 1], batch[|batch| - 1];
      FoldKeeps(start, t, front);
      StaysSettled(start, t, front, m);
      StepKeepsSettled(Fold(start, t, front), t, last, m);
    }
  }

  lemma ReplayIsIdentity(start: DB, s: Tally, t: Target, batch: seq<Member>)
    requires Replaying(start, s, t, batch) && RowsWritten(start.rows, batch) && PeersWritten(start.peers, t, batch)
    ensures s.db == start
  {
    assert forall x :: x in start.rows ==> s.db.rows[x] == start.rows[x];
    assert s.db.rows == start.rows;
    forall k | k in s.db.peers
      ensures k in start.peers && s.db.peers[k] == start.peers[k]
    {
      assert k == (k.0, k.1);
    }
    assert s.db.peers == start.peers;
  }

  /**
   Replay: ingesting a batch of members with Telegram ids a second time accepts nothing and changes no
   row, membership, provenance, peer hint, count or planned item.
   */
  lemma ReplayChangesNothing(db: DB, t: Target, batch: seq<Member>)
    requires Inv(db) && t.dataset in db.counts && AllHaveUids(batch)
    ensures var first := Ingest(db, t, batch);
      && first.Tally?
      && var again := Ingest(first.db, t, batch);
      again.Tally? && again.accepted == 0 && again.invalid == 0 && again.db == first.db
  {
    FoldKeeps(db, t, batch);
    FoldSettles(db, t, batch);
    FoldWrites(db, t, batch);
    var mid := Fold(db, t, batch).db;
    var start := Recount(mid, t.dataset);
    forall m | m in batch
      ensures Settled(start, t, m)
    {
      var e :| SettledAt(mid, t, m.uid.value, e);
      assert SettledAt(start, t, m.uid.value, e);
    }
    ReplayFold(start, t, batch);
    ReplayIsIdentity(start, Fold(start, t, batch), t, batch);
    RecountSame(mid, t.dataset, t.dataset);
  }

  // ------------------------------------------------------------------------------------------
  // Every sequence of operations
  // ------------------------------------------------------------------------------------------

  /** What happens to the store: a new dataset, a batch, or a plan over some members. */
  datatype Op = NewDataset(d: int) | AddBatch(t: Target, batch: seq<Member>) | PlanFrom(ids: set<nat>)

  /** The planner takes only rows with a Telegram id. */
  function Plannable(db: DB, ids: set<nat>): set<nat> {
    set m | m in ids && m in db.rows && db.rows[m].uid.Some?
  }

  ghost function Apply(db: DB, op: Op): DB {
    match op
    case NewDataset(d) => if d in db.counts then db else db.(counts := db.counts[d := 0])
    case AddBatch(t, batch) => var s := Ingest(db, t, batch); if s.Tally? then s.db else db
    case PlanFrom(ids) => db.(planned := db.planned + Plannable(db, ids))
  }

  ghost function ApplyAll(db: DB, ops: seq<Op>): DB
    decreases |ops|
  {
    if ops == [] then db else ApplyAll(Apply(db, ops[0]), ops[1..])
  }

  /** Stored dataset sizes are never too small. */
  ghost predicate CountsCover(db: DB) {
    forall d :: d in db.counts ==> |MembersOf(db, d)| <= db.counts[d]
  }

  const EMPTY: DB := DB(map[], 0, {}, {}, map[], map[], {})

  lemma BatchKeeps(db: DB, t: Target, batch: seq<Member>)
    requires Inv(db) && CountsCover(db)
    ensures var db' := Apply(db, AddBatch(t, batch));
      Inv(db') && CountsCover(db') && Permanent(db.rows, db'.rows) && db.planned <= db'.planned
  {
    if t.dataset in db.counts {
      IngestAccounting(db, t, batch);
      FoldKeeps(db, t, batch);
      forall d | d in db.counts && d != t.dataset
        ensures |MembersOf(Ingest(db, t, batch).db, d)| <= Ingest(db, t, batch).db.counts[d]
      {
        OtherCountsDrift(db, t, batch, d);
      }
    } else {
      MissingDatasetAborts(db, t, batch);
    }
  }

  lemma ApplyKeeps(db: DB, op: Op)
    requires Inv(db) && CountsCover(db)
    ensures var db' := Apply(db, op);
      Inv(db') && CountsCover(db') && Permanent(db.rows, db'.rows) && db.planned <= db'.planned
  {
    if op.AddBatch? {
      BatchKeeps(db, op.t, op.batch);
    } else {
      var db' := Apply(db, op);
      forall d
        ensures MembersOf(db', d) == MembersOf(db, d)
      {
      }
      if op.NewDataset? && op.d !in db.counts {
        assert MembersOf(db, op.d) == {};
      }
    }
  }

  /**
   Over every sequence of operations from an empty store: one row per Telegram id, one id-less row per folded
   username, no dangling reference (planned rows included), stored counts never too small; and whatever happens
   later, an assigned Telegram id keeps its row and a planned row stays.
   */
  lemma IdentityOverRuns(before: seq<Op>, later: seq<Op>)
    ensures var db := ApplyAll(EMPTY, before); var db' := ApplyAll(db, later);
      && Inv(db) && CountsCover(db) && Inv(db') && CountsCover(db')
      && Permanent(db.rows, db'.rows) && db.planned <= db'.planned <= db'.rows.Keys
  {
    forall d
      ensures MembersOf(EMPTY, d) == {}
    {
    }
    RunKeeps(EMPTY, before);
    RunKeeps(ApplyAll(EMPTY, before), later);
  }

  lemma {:induction false} RunKeeps(db: DB, ops: seq<Op>)
    requires Inv(db) && CountsCover(db)
    ensures var db' := ApplyAll(db, ops);
      Inv(db') && CountsCover(db') && Permanent(db.rows, db'.rows) && db.planned <= db'.planned
    decreases |ops|
  {
    if ops != [] {
      ApplyKeeps(db, ops[0]);
      RunKeeps(Apply(db, ops[0]), ops[1..]);
    }
  }

  // ------------------------------------------------------------------------------------------
  // Counts of other datasets do go stale
  // ------------------------------------------------------------------------------------------

  const NO_PROFILE: Profile := Profile(None, None, None, false, false, None, None)

  /** One person, seen first by Telegram id, then by username, then by both. */
  const BY_ID: Member := Member(Some(7), None, NO_PROFILE, None)
  const BY_NAME: Member := Member(None, Some("a"), NO_PROFILE, None)
  const BY_BOTH: Member := Member(Some(7), Some("a"), NO_PROFILE, None)

  const FIRST: Target := Target(1, -1, None, "")
  const SECOND: Target := Target(2, -1, None, "")

  lemma NameIsClean()
    ensures Clean(Some("a")) == Some("a")
  {
    assert TrimLeft("a") == "a" && TrimRight("a") == "a" && DropAt("a") == "a";
  }

  /** The store with both datasets and nobody in them. */
  const TWO_DATASETS: DB := EMPTY.(counts := map[1 := 0, 2 := 0])

  /** The store after the first sighting. */
  function AfterId(): DB {
    TWO_DATASETS.(rows := map[0 := RowOf(BY_ID)], nextId := 1, memberships := {(1, 0)}, provenance := {ProvOf(FIRST, 0)})
  }

  /** ... and after the second. */
  function AfterName(): DB {
    AfterId().(rows := AfterId().rows[1 := RowOf(BY_NAME)], nextId := 2,
               memberships := {(1, 0), (1, 1)}, provenance := {ProvOf(FIRST, 0), ProvOf(FIRST, 1)})
  }

  lemma SeenById()
    ensures Step(Tally(TWO_DATASETS, 0, 0, []), FIRST, BY_ID) == Tally(AfterId(), 1, 0, [0])
  {
    assert ByUid(TWO_DATASETS.rows, 7).None? && ByName(TWO_DATASETS.rows, None).None?;
    assert Clean(None) == None;
    assert TWO_DATASETS.rows[0 := RowOf(BY_ID)] == map[0 := RowOf(BY_ID)];
    assert TWO_DATASETS.memberships + {(1, 0)} == {(1, 0)};
    assert TWO_DATASETS.provenance + {ProvOf(FIRST, 0)} == {ProvOf(FIRST, 0)};
    assert [] + [0] == [0];
  }

  lemma SeenByName()
    ensures Step(Tally(AfterId(), 1, 0, [0]), FIRST, BY_NAME) == Tally(AfterName(), 2, 0, [0, 1])
  {
    NameIsClean();
    var db := AfterId();
    assert ByName(db.rows, Some("a")).None? by {
      assert forall m: nat :: !IsFallback(db.rows, m, Lower("a"));
    }
    assert db.memberships + {(1, 1)} == {(1, 0), (1, 1)};
    assert db.provenance + {ProvOf(FIRST, 1)} == {ProvOf(FIRST, 0), ProvOf(FIRST, 1)};
    assert [0] + [1] == [0, 1];
  }

  /** Both sightings in one batch: two rows for one person, and an exact count of two. */
  lemma TwoSightings()
    ensures Ingest(TWO_DATASETS, FIRST, [BY_ID, BY_NAME]) == Tally(AfterName().(counts := map[1 := 2, 2 := 0]), 2, 0, [0, 1])
  {
    var batch := [BY_ID, BY_NAME];
    assert batch[..1] == [BY_ID] && [BY_ID][..0] == [];
    assert Fold(TWO_DATASETS, FIRST, []) == Tally(TWO_DATASETS, 0, 0, []);
    SeenById();
    assert Fold(TWO_DATASETS, FIRST, [BY_ID]) == Tally(AfterId(), 1, 0, [0]);
    SeenByName();
    assert Fold(TWO_DATASETS, FIRST, batch) == Tally(AfterName(), 2, 0, [0, 1]);
    BothAreMembers(AfterName());
    assert AfterName().counts[1 := 2] == map[1 := 2, 2 := 0];
  }

  lemma BothAreMembers(db: DB)
    requires db.memberships == {(1, 0), (1, 1)}
    ensures MembersOf(db, 1) == {0, 1} && |MembersOf(db, 1)| == 2
  {
    assert (1, 0) in db.memberships && (1, 1) in db.memberships;
    assert MembersOf(db, 1) == {0, 1};
  }

  /** The person seen by both merges the rows: dataset 1 shrinks, its stored count does not. */
  lemma SightingMerges(db: DB)
    requires Inv(db) && db.rows == AfterName().rows && db.memberships == {(1, 0), (1, 1)} && db.counts == map[1 := 2, 2 := 0]
    ensures var s := Ingest(db, SECOND, [BY_BOTH]);
      s.Tally? && 1 in s.db.counts && s.db.counts[1] == 2 && |MembersOf(s.db, 1)| == 1
  {
    NameIsClean();
    BothAreMembers(db);
    assert IsFallback(db.rows, 1, Lower("a"));
    ByNameIs(db.rows, "a", 1);
    MergeRowKeeps(db, 7, RowOf(BY_BOTH), 0, 1);
    assert Upsert(db, BY_BOTH) == UpsertUid(db, 7, RowOf(BY_BOTH));
    assert [BY_BOTH][..0] == [];
    assert Fold(db, SECOND, []) == Tally(db, 0, 0, []);
    assert Collapsed(db, SECOND, [], 1) == 0;
    assert Collapsed(db, SECOND, [BY_BOTH], 1) == 1;
    OtherCountsDrift(db, SECOND, [BY_BOTH], 1);
    IngestAccounting(db, SECOND, [BY_BOTH]);
  }

  const SIGHTINGS: seq<Op> := [NewDataset(1), NewDataset(2), AddBatch(FIRST, [BY_ID, BY_NAME])]

  /** What the first three operations leave. */
  lemma AfterSightings()
    ensures ApplyAll(EMPTY, SIGHTINGS) == AfterName().(counts := map[1 := 2, 2 := 0])
  {
    TwoSightings();
    var one := Apply(EMPTY, NewDataset(1));
    assert Apply(one, NewDataset(2)) == TWO_DATASETS;
    ApplyThree(EMPTY, SIGHTINGS[0], SIGHTINGS[1], SIGHTINGS[2]);
  }

  lemma ApplyThree(db: DB, a: Op, b: Op, c: Op)
    ensures ApplyAll(db, [a, b, c]) == Apply(Apply(Apply(db, a), b), c)
  {
    var two := Apply(Apply(db, a), b);
    assert [c][1..] == [] && ApplyAll(two, [c]) == Apply(two, c);
    assert [b, c][1..] == [c] && ApplyAll(Apply(db, a), [b, c]) == ApplyAll(two, [c]);
    assert [a, b, c][1..] == [b, c];
  }

  /**
   From an empty store: one person enters dataset 1 by Telegram id and by username, with an exact count of two; seen
   by both in a batch for dataset 2, the two rows merge, and dataset 1 has one member and a stored count of two.
   */
  lemma StoredCountGoesStale()
    ensures var before := ApplyAll(EMPTY, SIGHTINGS);
      1 in before.counts && before.counts[1] == |MembersOf(before, 1)| == 2
    ensures var after := Apply(ApplyAll(EMPTY, SIGHTINGS), AddBatch(SECOND, [BY_BOTH]));
      1 in after.counts && after.counts[1] == 2 && |MembersOf(after, 1)| == 1
  {
    IdentityOverRuns(SIGHTINGS, []);
    AfterSightings();
    var before := ApplyAll(EMPTY, SIGHTINGS);
    BothAreMembers(before);
    SightingMerges(before);
  }

  // ------------------------------------------------------------------------------------------
  // The repository object
  // ------------------------------------------------------------------------------------------

  /** Copying a row's entries to another row and then deleting its own is moving them. */
  lemma CopyThenDelete(ps: set<(int, nat)>, qs: set<Prov>, f: nat, c: nat)
    requires f != c
    ensures var copied := ps + (set p | p in ps && p.1 == f :: (p.0, c));
      (set p | p in copied && p.1 != f) == MoveMemberships(ps, f, c)
    ensures var copied := qs + (set q | q in qs && q.member == f :: q.(member := c));
      (set q | q in copied && q.member != f) == MoveProvenance(qs, f, c)
  {
  }

  class MemberRepository {
    var rows: map<nat, MRow>
    var nextId: nat
    var memberships: set<(int, nat)>
    var provenance: set<Prov>
    var counts: map<int, nat>
    var peers: map<(int, int), Peer>
    var planned: set<nat>

    function View(): DB
      reads this
    {
      DB(rows, nextId, memberships, provenance, counts, peers, planned)
    }

    constructor ()
      ensures View() == EMPTY && Inv(View()) && CountsCover(View())
    {
      rows, nextId, memberships, provenance := map[], 0, {}, {};
      counts, peers, planned := map[], map[], {};
      new;
      IdentityOverRuns([], []);
    }

    method FindByUid(uid: int) returns (r: Option<nat>)
      requires UniqueUids(rows)
      ensures r == ByUid(rows, uid)
    {
      if m :| m in rows && rows[m].uid == Some(uid) {
        r := Some(m);
        ByUidIs(rows, uid, m);
      } else {
        r := None;
        assert forall m: nat :: !HasUid(rows, m, uid);
      }
    }

    method FindByName(username: Option<string>) returns (r: Option<nat>)
      requires UniqueNames(rows)
      ensures r == ByName(rows, username)
    {
      if username.None? {
        return None;
      }
      var name := Lower(username.value);
      if m :| m in rows && IsFallback(rows, m, name) {
        r := Some(m);
        ByNameIs(rows, username.value, m);
      } else {
        r := None;
        assert forall m: nat :: !IsFallback(rows, m, name);
      }
    }

    /** `_merge_fallback_row`; `raised` is the foreign key of a planned item refusing the DELETE. */
    method MergeFallbackRow(fallback: nat, canonical: nat) returns (raised: bool)
      requires Inv(View())
      modifies this
      ensures raised == (fallback != canonical && fallback in planned)
      ensures !raised ==> View() == (if fallback == canonical then old(View()) else Merge(old(View()), fallback, canonical))
      ensures planned == old(planned)
    {
      if fallback == canonical {
        return false;
      }
      memberships := memberships + (set p | p in memberships && p.1 == fallback :: (p.0, canonical));
      provenance := provenance + (set p | p in provenance && p.member == fallback :: p.(member := canonical));
      if fallback in planned {
        return true;
      }
      rows := rows - {fallback};
      memberships := set p | p in memberships && p.1 != fallback;
      provenance := set p | p in provenance && p.member != fallback;
      CopyThenDelete(old(memberships), old(provenance), fallback, canonical);
      return false;
    }

    /** `_upsert_one` on an identity-sound store never raises and returns the member's row. */
    method UpsertOne(m: Member) returns (id: Option<nat>)
      requires Inv(View())
      modifies this
      ensures var r := Upsert(old(View()), m); r.Kept? && r.db == View() && r.id == id
      ensures Inv(View()) && Permanent(old(rows), rows) && (id.Some? <==> Identified(m))
    {
      UpsertKeeps(View(), m);
      var username := Clean(m.username);
      var row := MRow(m.uid, username, m.profile);
      if m.uid.Some? {
        var existing := FindByUid(m.uid.value);
        var fallback := FindByName(username);
        if existing.None? && fallback.Some? {
          rows := rows[fallback.value := row];
          return fallback;
        }
        if existing.Some? {
          rows := rows[existing.value := row];
          id := existing;
        } else {
          rows := rows[nextId := row];
          id := Some(nextId);
          nextId := nextId + 1;
        }
        if fallback.Some? && fallback.value != id.value {
          PutRowKeeps(old(View()), existing.value, row);
          var raised := MergeFallbackRow(fallback.value, id.value);
        }
        return id;
      }
      if username.Some? {
        var found := FindByName(username);
        if found.Some? {
          rows := rows[found.value := row];
          return found;
        }
        rows := rows[nextId := row];
        nextId := nextId + 1;
        return Some(nextId - 1);
      }
      return None;
    }

    /** The loop body of the batch; on `!ok` the dataset's foreign key raised. */
    method IngestOne(t: Target, m: Member, accepted: nat, invalid: nat, ids: seq<nat>)
        returns (ok: bool, accepted': nat, invalid': nat, ids': seq<nat>)
      requires Inv(View())
      modifies this
      ensures ok == Step(Tally(old(View()), accepted, invalid, ids), t, m).Tally?
      ensures ok ==> Step(Tally(old(View()), accepted, invalid, ids), t, m) == Tally(View(), accepted', invalid', ids')
      ensures ok ==> Inv(View()) && counts == old(counts)
      ensures !ok ==> t.dataset !in old(counts) && Identified(m)
    {
      ghost var before := Tally(View(), accepted, invalid, ids);
      UpsertKeeps(View(), m);
      var id := UpsertOne(m);
      if id.None? {
        return true, accepted, invalid + 1, ids;
      }
      if t.dataset !in counts {
        return false, accepted, invalid, ids;
      }
      StepKeeps(before, t, m);
      accepted', invalid', ids' := accepted, invalid, ids + [id.value];
      if (t.dataset, id.value) !in memberships {
        accepted' := accepted + 1;
      }
      memberships := memberships + {(t.dataset, id.value)};
      provenance := provenance + {ProvOf(t, id.value)};
      peers := PeersAfter(peers, t, m);
      ok := true;
    }

    /** The transaction of `submit_ingest_batch`; on `!ok` a foreign key raised and the writer rolls back. */
    method IngestBatch(t: Target, batch: seq<Member>) returns (ok: bool, accepted: nat, invalid: nat, ids: seq<nat>)
      requires Inv(View())
      modifies this
      ensures ok == Ingest(old(View()), t, batch).Tally?
      ensures ok ==> Ingest(old(View()), t, batch) == Tally(View(), accepted, invalid, ids) && Inv(View())
      ensures ok <==> t.dataset in old(counts) || forall m :: m in batch ==> !Identified(m)
    {
      ok, accepted, invalid, ids := true, 0, 0, [];
      ghost var start := View();
      for i := 0 to |batch|
        invariant ok && Fold(start, t, batch[..i]) == Tally(View(), accepted, invalid, ids)
        invariant Inv(View()) && counts == start.counts
      {
        assert batch[..i + 1][..i] == batch[..i];
        ok, accepted, invalid, ids := IngestOne(t, batch[i], accepted, invalid, ids);
        if !ok {
          assert batch[i] in batch;
          MissingDatasetAborts(start, t, batch);
          return;
        }
      }
      assert batch[..|batch|] == batch;
      if t.dataset in counts {
        counts := counts[t.dataset := |MembersOf(View(), t.dataset)|];
      } else {
        MissingDatasetAborts(start, t, batch);
      }
    }
  }
}
