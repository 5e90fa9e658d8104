/**
 What one batch leaves in the tables (`submit_ingest_batch`): memberships and provenance of every dataset, column by
 column, and the peer hints.  Merges move the entries of a row to the row it is merged into; the batch adds its own.
 */
module IngestTables {
  import opened Core
  import opened MemberStore
  import opened Ingest

  /** One upsert moves row `x` to where its entries are afterwards. */
  function Carry(r: Upserted, x: nat): nat {
    if r.Kept? && r.id.Some? && r.merged == Some(x) then r.id.value else x
  }

  /** Where the entries of row `x` are after the batch. */
  ghost function Home(db: DB, t: Target, batch: seq<Member>, x: nat): nat {
    if batch == [] then x
    else
      var front := batch[..|batch| - 1];
      var s := Fold(db, t, front);
      var y := Home(db, t, front, x);
      if s.Tally? then Carry(Upsert(s.db, batch[|batch| - 1]), y) else y
  }

  /** The rows of the members of the batch with an identity, as they stand after it. */
  ghost function Touched(db: DB, t: Target, batch: seq<Member>): set<nat> {
    if batch == [] then {}
    else
      var front := batch[..|batch| - 1];
      var s := Fold(db, t, front);
      var before := Touched(db, t, front);
      if s.Aborted? then before
      else
        var r := Upsert(s.db, batch[|batch| - 1]);
        if r.Kept? && r.id.Some? then (set x | x in before :: Carry(r, x)) + {r.id.value} else before
  }

  /** The provenance that was there, with every row's entries at their home. */
  ghost function Rehomed(ps: set<Prov>, db: DB, t: Target, batch: seq<Member>): set<Prov> {
    set q | q in ps :: Prov(q.dataset, Home(db, t, batch, q.member), q.sourceDataset, q.sourceGroup, q.tag)
  }

  /** The batch's own provenance: no source dataset, its group and its label. */
  function Own(t: Target, rows: set<nat>): set<Prov> {
    set x | x in rows :: Prov(t.dataset, x, -1, t.group, t.tag)
  }

  ghost function RehomedPairs(ps: set<(int, nat)>, db: DB, t: Target, batch: seq<Member>): set<(int, nat)> {
    set q | q in ps :: (q.0, Home(db, t, batch, q.1))
  }

  function OwnPairs(t: Target, rows: set<nat>): set<(int, nat)> {
    set x | x in rows :: (t.dataset, x)
  }

  // ------------------------------------------------------------------------------------------
  // One member
  // ------------------------------------------------------------------------------------------

  /** What an upsert does to the entries of all rows. */
  lemma UpsertCarries(db: DB, m: Member)
    requires Inv(db)
    ensures var r := Upsert(db, m);
      && r.Kept? && (r.id.Some? <==> Identified(m)) && (r.merged.Some? ==> r.id.Some?)
      && r.db.provenance == (set q | q in db.provenance :: q.(member := Carry(r, q.member)))
      && r.db.memberships == (set q | q in db.memberships :: (q.0, Carry(r, q.1)))
      && r.db.peers == db.peers
  {
    UpsertKeeps(db, m);
    var r := Upsert(db, m);
    if r.merged.Some? {
      MoveIsCarry(db, r, r.merged.value, r.id.value);
    } else {
      assert forall q :: q in db.provenance ==> q.(member := Carry(r, q.member)) == q;
      assert forall q :: q in db.memberships ==> (q.0, Carry(r, q.1)) == q;
    }
  }

  lemma MoveIsCarry(db: DB, r: Upserted, f: nat, c: nat)
    requires r.Kept? && r.id == Some(c) && r.merged == Some(f) && f != c
    ensures MoveProvenance(db.provenance, f, c) == (set q | q in db.provenance :: q.(member := Carry(r, q.member)))
    ensures MoveMemberships(db.memberships, f, c) == (set q | q in db.memberships :: (q.0, Carry(r, q.1)))
  {
    var ps := db.provenance;
    var carried := set q | q in ps :: q.(member := Carry(r, q.member));
    forall p
      ensures p in MoveProvenance(ps, f, c) <==> p in carried
    {
      if p in MoveProvenance(ps, f, c) {
        if !(p in ps && p.member != f) {
          var q :| q in ps && q.member == f && p == q.(member := c);
          assert p == q.(member := Carry(r, q.member));
        } else {
          assert p == p.(member := Carry(r, p.member));
        }
      }
    }
    var ms := db.memberships;
    var moved := set q | q in ms :: (q.0, Carry(r, q.1));
    forall p
      ensures p in MoveMemberships(ms, f, c) <==> p in moved
    {
      if p in MoveMemberships(ms, f, c) {
        if !(p in ms && p.1 != f) {
          var q :| q in ms && q.1 == f && p == (q.0, c);
          assert p == (q.0, Carry(r, q.1));
        } else {
          assert p == (p.0, Carry(r, p.1));
        }
      }
    }
  }

  // ------------------------------------------------------------------------------------------
  // A whole batch
  // ------------------------------------------------------------------------------------------

  /** The tables after the members folded so far. */
  ghost predicate Tables(db: DB, t: Target, batch: seq<Member>, s: Tally) {
    && s.Tally?
    && s.db.provenance == Rehomed(db.provenance, db, t, batch) + Own(t, Touched(db, t, batch))
    && s.db.memberships == RehomedPairs(db.memberships, db, t, batch) + OwnPairs(t, Touched(db, t, batch))
  }

  lemma StepTables(db: DB, t: Target, front: seq<Member>, m: Member)
    requires Inv(db) && t.dataset in db.counts && Tables(db, t, front, Fold(db, t, front))
    ensures Tables(db, t, front + [m], Fold(db, t, front + [m]))
  {
    var batch := front + [m];
    assert batch[..|batch| - 1] == front;
    FoldKeeps(db, t, front);
    var s := Fold(db, t, front);
    var r := Upsert(s.db, m);
    UpsertCarries(s.db, m);
    UpsertKeeps(s.db, m);
    StepProvenance(db, t, front, m, s, r);
    StepPairs(db, t, front, m, s, r);
  }

  lemma StepProvenance(db: DB, t: Target, front: seq<Member>, m: Member, s: Tally, r: Upserted)
    requires s == Fold(db, t, front) && s.Tally? && r == Upsert(s.db, m) && r.Kept? && (r.merged.Some? ==> r.id.Some?)
    requires s.db.provenance == Rehomed(db.provenance, db, t, front) + Own(t, Touched(db, t, front))
    requires r.db.provenance == (set q | q in s.db.provenance :: q.(member := Carry(r, q.member)))
    ensures Rehomed(db.provenance, db, t, front + [m]) + Own(t, Touched(db, t, front + [m])) ==
      r.db.provenance + if r.id.Some? then {Prov(t.dataset, r.id.value, -1, t.group, t.tag)} else {}
  {
    var batch := front + [m];
    assert batch[..|batch| - 1] == front;
    var left := Rehomed(db.provenance, db, t, batch) + Own(t, Touched(db, t, batch));
    var right := r.db.provenance + if r.id.Some? then {Prov(t.dataset, r.id.value, -1, t.group, t.tag)} else {};
    forall p | p in Rehomed(db.provenance, db, t, batch)
      ensures p in right
    {
      var q :| q in db.provenance
        && p == Prov(q.dataset, Home(db, t, batch, q.member), q.sourceDataset, q.sourceGroup, q.tag);
      var mid := Prov(q.dataset, Home(db, t, front, q.member), q.sourceDataset, q.sourceGroup, q.tag);
      assert mid in s.db.provenance && p == mid.(member := Carry(r, mid.member));
    }
    forall p | p in Own(t, Touched(db, t, batch))
      ensures p in right
    {
      if !(r.id.Some? && p.member == r.id.value) {
        var x :| x in Touched(db, t, front) && p.member == Carry(r, x);
        var mid := Prov(t.dataset, x, -1, t.group, t.tag);
        assert mid in s.db.provenance && p == mid.(member := Carry(r, mid.member));
      }
    }
    forall p | p in r.db.provenance
      ensures p in left
    {
      var mid :| mid in s.db.provenance && p == mid.(member := Carry(r, mid.member));
      if mid in Rehomed(db.provenance, db, t, front) {
        var q :| q in db.provenance
          && mid == Prov(q.dataset, Home(db, t, front, q.member), q.sourceDataset, q.sourceGroup, q.tag);
        assert p == Prov(q.dataset, Home(db, t, batch, q.member), q.sourceDataset, q.sourceGroup, q.tag);
      } else {
        assert Carry(r, mid.member) in Touched(db, t, batch);
      }
    }
  }

  lemma StepPairs(db: DB, t: Target, front: seq<Member>, m: Member, s: Tally, r: Upserted)
    requires s == Fold(db, t, front) && s.Tally? && r == Upsert(s.db, m) && r.Kept? && (r.merged.Some? ==> r.id.Some?)
    requires s.db.memberships == RehomedPairs(db.memberships, db, t, front) + OwnPairs(t, Touched(db, t, front))
    requires r.db.memberships == (set q | q in s.db.memberships :: (q.0, Carry(r, q.1)))
    ensures RehomedPairs(db.memberships, db, t, front + [m]) + OwnPairs(t, Touched(db, t, front + [m])) ==
      r.db.memberships + if r.id.Some? then {(t.dataset, r.id.value)} else {}
  {
    PairsArrive(db, t, front, m, s, r);
    PairsComeFrom(db, t, front, m, s, r);
  }

  lemma PairsArrive(db: DB, t: Target, front: seq<Member>, m: Member, s: Tally, r: Upserted)
    requires s == Fold(db, t, front) && s.Tally? && r == Upsert(s.db, m) && r.Kept? && (r.merged.Some? ==> r.id.Some?)
    requires s.db.memberships == RehomedPairs(db.memberships, db, t, front) + OwnPairs(t, Touched(db, t, front))
    requires r.db.memberships == (set q | q in s.db.memberships :: (q.0, Carry(r, q.1)))
    ensures RehomedPairs(db.memberships, db, t, front + [m]) + OwnPairs(t, Touched(db, t, front + [m])) <=
      r.db.memberships + if r.id.Some? then {(t.dataset, r.id.value)} else {}
  {
    var batch := front + [m];
    assert batch[..|batch| - 1] == front;
    var right := r.db.memberships + if r.id.Some? then {(t.dataset, r.id.value)} else {};
    forall p | p in RehomedPairs(db.memberships, db, t, batch)
      ensures p in right
    {
      var q :| q in db.memberships && p == (q.0, Home(db, t, batch, q.1));
      var mid := (q.0, Home(db, t, front, q.1));
      assert mid in s.db.memberships && p == (mid.0, Carry(r, mid.1));
    }
    forall p | p in OwnPairs(t, Touched(db, t, batch))
      ensures p in right
    {
      if !(r.id.Some? && p.1 == r.id.value) {
        var x :| x in Touched(db, t, front) && p.1 == Carry(r, x);
        var mid := (t.dataset, x);
        assert mid in s.db.memberships && p == (mid.0, Carry(r, mid.1));
      }
    }
  }

  lemma PairsComeFrom(db: DB, t: Target, front: seq<Member>, m: Member, s: Tally, r: Upserted)
    requires s == Fold(db, t, front) && s.Tally? && r == Upsert(s.db, m) && r.Kept? && (r.merged.Some? ==> r.id.Some?)
    requires s.db.memberships == RehomedPairs(db.memberships, db, t, front) + OwnPairs(t, Touched(db, t, front))
    requires r.db.memberships == (set q | q in s.db.memberships :: (q.0, Carry(r, q.1)))
    ensures r.db.memberships + (if r.id.Some? then {(t.dataset, r.id.value)} else {}) <=
      RehomedPairs(db.memberships, db, t, front + [m]) + OwnPairs(t, Touched(db, t, front + [m]))
  {
    var batch := front + [m];
    assert batch[..|batch| - 1] == front;
    forall p | p in r.db.memberships
      ensures p in RehomedPairs(db.memberships, db, t, batch) + OwnPairs(t, Touched(db, t, batch))
    {
      var mid :| mid in s.db.memberships && p == (mid.0, Carry(r, mid.1));
      if mid in RehomedPairs(db.memberships, db, t, front) {
        var q :| q in db.memberships && mid == (q.0, Home(db, t, front, q.1));
        assert p == (q.0, Home(db, t, batch, q.1));
      } else {
        assert Carry(r, mid.1) in Touched(db, t, batch);
      }
    }
  }

  lemma {:induction false} FoldTables(db: DB, t: Target, batch: seq<Member>)
    requires Inv(db) && t.dataset in db.counts
    ensures Tables(db, t, batch, Fold(db, t, batch))
  {
    if batch == [] {
      assert forall q :: q in db.provenance ==> Prov(q.dataset, q.member, q.sourceDataset, q.sourceGroup, q.tag) == q;
      assert forall q :: q in db.memberships ==> (q.0, q.1) == q;
      assert Rehomed(db.provenance, db, t, []) == db.provenance && RehomedPairs(db.memberships, db, t, []) == db.memberships;
      assert Own(t, {}) == {} && OwnPairs(t, {}) == {};
    } else {
      var front, last := batch[..|batch| - 1], batch[|batch| - 1];
      assert batch == front + [last];
      FoldTables(db, t, front);
      StepTables(db, t, front, last);
    }
  }

  /** A row with a Telegram id keeps its entries; every row's entries end at a row that exists. */
  lemma {:induction false} HomeExists(db: DB, t: Target, batch: seq<Member>, x: nat)
    requires Inv(db) && t.dataset in db.counts && x in db.rows
    ensures var s := Fold(db, t, batch);
      && s.Tally? && Home(db, t, batch, x) in s.db.rows
      && (db.rows[x].uid.Some? ==> Home(db, t, batch, x) == x && s.db.rows[x].uid == db.rows[x].uid)
  {
    FoldKeeps(db, t, batch);
    if batch != [] {
      var front, last := batch[..|batch| - 1], batch[|batch| - 1];
      assert batch == front + [last];
      HomeExists(db, t, front, x);
      FoldKeeps(db, t, front);
      StaysInTable(Fold(db, t, front).db, last, Home(db, t, front, x));
    }
  }

  lemma StaysInTable(db: DB, m: Member, x: nat)
    requires Inv(db) && x in db.rows
    ensures var r := Upsert(db, m);
      && r.Kept? && Carry(r, x) in r.db.rows
      && (db.rows[x].uid.Some? ==> Carry(r, x) == x && r.db.rows[x].uid == db.rows[x].uid)
  {
    UpsertKeeps(db, m);
    if Identified(m) {
      OtherRowsStay(db, m);
    }
  }

  /** The touched rows exist, and the row of every Telegram id of the batch is one of them. */
  lemma {:induction false} TouchedExist(db: DB, t: Target, batch: seq<Member>)
    requires Inv(db) && t.dataset in db.counts
    ensures var s := Fold(db, t, batch);
      && s.Tally? && (forall x :: x in Touched(db, t, batch) ==> x in s.db.rows)
      && (forall u :: u in Uids(batch) ==> exists x :: x in Touched(db, t, batch) && HasUid(s.db.rows, x, u))
      && (Touched(db, t, batch) == {} <==> forall m :: m in batch ==> !Identified(m))
  {
    FoldKeeps(db, t, batch);
    if batch != [] {
      var front, last := batch[..|batch| - 1], batch[|batch| - 1];
      assert batch == front + [last];
      TouchedExist(db, t, front);
      FoldKeeps(db, t, front);
      TouchedStep(db, t, front, last, batch);
    }
  }

  lemma TouchedStep(db: DB, t: Target, front: seq<Member>, last: Member, batch: seq<Member>)
    requires Inv(db) && t.dataset in db.counts && batch == front + [last]
    requires var s := Fold(db, t, front);
      && s.Tally? && Inv(s.db) && s.db.counts == db.counts && (forall x :: x in Touched(db, t, front) ==> x in s.db.rows)
      && (forall u :: u in Uids(front) ==> exists x :: x in Touched(db, t, front) && HasUid(s.db.rows, x, u))
      && (Touched(db, t, front) == {} <==> forall m :: m in front ==> !Identified(m))
    ensures var s := Fold(db, t, batch);
      && s.Tally? && (forall x :: x in Touched(db, t, batch) ==> x in s.db.rows)
      && (forall u :: u in Uids(batch) ==> exists x :: x in Touched(db, t, batch) && HasUid(s.db.rows, x, u))
      && (Touched(db, t, batch) == {} <==> forall m :: m in batch ==> !Identified(m))
  {
    assert batch[..|batch| - 1] == front;
    var s := Fold(db, t, front);
    var r := Upsert(s.db, last);
    UpsertKeeps(s.db, last);
    assert Fold(db, t, batch).Tally? && Fold(db, t, batch).db.rows == r.db.rows;
    forall x | x in Touched(db, t, front)
      ensures Carry(r, x) in r.db.rows
    {
      StaysInTable(s.db, last, x);
    }
    forall u | u in Uids(batch)
      ensures exists x :: x in Touched(db, t, batch) && HasUid(r.db.rows, x, u)
    {
      if last.uid == Some(u) {
        assert r.id.value in Touched(db, t, batch) && HasUid(r.db.rows, r.id.value, u);
      } else {
        assert u in Uids(front);
        var x :| x in Touched(db, t, front) && HasUid(s.db.rows, x, u);
        StaysInTable(s.db, last, x);
        assert x == Carry(r, x) && HasUid(r.db.rows, x, u);
        assert x in Touched(db, t, batch);
      }
    }
    if Identified(last) {
      assert r.id.value in Touched(db, t, batch);
    }
  }

  /**
   What a batch does to provenance and memberships, of every dataset: what was there, moved along the merges to rows that
   exist, and beside it exactly one entry per row of an identified member, in the batch's dataset, without source
   dataset, with the batch's group and label.
   */
  lemma BatchTables(db: DB, t: Target, batch: seq<Member>)
    requires Inv(db) && t.dataset in db.counts
    ensures var s := Ingest.Ingest(db, t, batch);
      && s.Tally?
      && s.db.provenance ==
           (set q | q in db.provenance :: Prov(q.dataset, Home(db, t, batch, q.member), q.sourceDataset, q.sourceGroup, q.tag))
           + (set x | x in Touched(db, t, batch) :: Prov(t.dataset, x, -1, t.group, t.tag))
      && s.db.memberships ==
           (set q | q in db.memberships :: (q.0, Home(db, t, batch, q.1))) + (set x | x in Touched(db, t, batch) :: (t.dataset, x))
      && (forall x :: x in db.rows ==>
            Home(db, t, batch, x) in s.db.rows && (db.rows[x].uid.Some? ==> Home(db, t, batch, x) == x))
      && (forall x :: x in Touched(db, t, batch) ==> x in s.db.rows)
      && (forall u :: u in Uids(batch) ==> exists x :: x in Touched(db, t, batch) && HasUid(s.db.rows, x, u))
  {
    FoldTables(db, t, batch);
    TouchedExist(db, t, batch);
    forall x | x in db.rows
      ensures Home(db, t, batch, x) in Fold(db, t, batch).db.rows
      ensures db.rows[x].uid.Some? ==> Home(db, t, batch, x) == x
    {
      HomeExists(db, t, batch, x);
    }
  }

  // ------------------------------------------------------------------------------------------
  // Peer hints
  // ------------------------------------------------------------------------------------------

  /** The last member of the batch with this Telegram id and an access hash. */
  function LastHint(batch: seq<Member>, uid: int): Option<Member> {
    if batch == [] then None
    else
      var m := batch[|batch| - 1];
      if m.uid == Some(uid) && m.accessHash.Some? then Some(m) else LastHint(batch[..|batch| - 1], uid)
  }

  /** The hint of one account and user after the batch. */
  ghost predicate HintIs(peers: map<(int, int), Peer>, before: map<(int, int), Peer>, t: Target, batch: seq<Member>, k: (int, int)) {
    if t.account == Some(k.0) && LastHint(batch, k.1).Some? then
      var m := LastHint(batch, k.1).value;
      k in peers && Some(peers[k].hash) == m.accessHash && peers[k].username == Clean(m.username)
    else (k in peers <==> k in before) && (k in before ==> peers[k] == before[k])
  }

  /** One more member. */
  lemma StepHints(db: DB, t: Target, batch: seq<Member>, k: (int, int))
    requires batch != []
    requires var front := batch[..|batch| - 1];
      && Fold(db, t, batch).Tally? && Fold(db, t, front).Tally? && Upsert(Fold(db, t, front).db, batch[|batch| - 1]).Kept?
      && HintIs(Fold(db, t, front).db.peers, db.peers, t, front, k)
      && Upsert(Fold(db, t, front).db, batch[|batch| - 1]).db.peers == Fold(db, t, front).db.peers
      && (Identified(batch[|batch| - 1]) <==> Upsert(Fold(db, t, front).db, batch[|batch| - 1]).id.Some?)
    ensures HintIs(Fold(db, t, batch).db.peers, db.peers, t, batch, k)
  {
    assert k == (k.0, k.1);
  }

  /** A batch rewrites the hints of its own account, by its last word on each user, and no others. */
  lemma {:induction false} BatchHints(db: DB, t: Target, batch: seq<Member>, k: (int, int))
    requires Inv(db) && t.dataset in db.counts
    ensures Ingest.Ingest(db, t, batch).Tally? && HintIs(Ingest.Ingest(db, t, batch).db.peers, db.peers, t, batch, k)
  {
    FoldKeeps(db, t, batch);
    if batch != [] {
      var front, last := batch[..|batch| - 1], batch[|batch| - 1];
      FoldKeeps(db, t, front);
      BatchHints(db, t, front, k);
      UpsertKeeps(Fold(db, t, front).db, last);
      StepHints(db, t, batch, k);
    }
  }

  // ------------------------------------------------------------------------------------------
  // The ids reported
  // ------------------------------------------------------------------------------------------

  /** The members of a batch that have an identity, in order. */
  function Known(batch: seq<Member>): seq<Member> {
    if batch == [] then []
    else
      var m := batch[|batch| - 1];
      Known(batch[..|batch| - 1]) + if Identified(m) then [m] else []
  }

  /** The ids are those of the rows of these members, in order. */
  ghost predicate IdsFollow(rows: map<nat, MRow>, known: seq<Member>, ids: seq<nat>) {
    && |ids| == |known|
    && forall k :: 0 <= k < |known| && known[k].uid.Some? ==> HasUid(rows, ids[k], known[k].uid.value)
  }

  /** A batch reports one id per identified member, in order; for a Telegram id it is the id of that user's row. */
  lemma {:induction false} BatchIds(db: DB, t: Target, batch: seq<Member>)
    requires Inv(db) && t.dataset in db.counts
    ensures var s := Ingest.Ingest(db, t, batch);
      && s.Tally? && IdsFollow(s.db.rows, Known(batch), s.ids) && |s.ids| + s.invalid == |batch|
  {
    FoldKeeps(db, t, batch);
    if batch != [] {
      var front, last := batch[..|batch| - 1], batch[|batch| - 1];
      FoldKeeps(db, t, front);
      BatchIds(db, t, front);
      StepKeeps(Fold(db, t, front), t, last);
      UpsertKeeps(Fold(db, t, front).db, last);
      StepIds(Fold(db, t, front), t, last, Known(front));
    }
  }

  lemma StepIds(s: Tally, t: Target, m: Member, known: seq<Member>)
    requires s.Tally? && Inv(s.db) && t.dataset in s.db.counts && IdsFollow(s.db.rows, known, s.ids)
    ensures var s' := Step(s, t, m);
      s'.Tally? && IdsFollow(s'.db.rows, known + (if Identified(m) then [m] else []), s'.ids)
  {
    StepKeeps(s, t, m);
    UpsertKeeps(s.db, m);
    var s' := Step(s, t, m);
    assert Permanent(s.db.rows, s'.db.rows);
    assert IdsFollow(s'.db.rows, known, s.ids);
  }
}
