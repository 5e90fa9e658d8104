/**
 Reading a dataset in member order (`page` and `iter_dataset_rows` in `members/repository.py`).
 */
module Paging {
  import opened Core
  import opened MemberStore

  lemma SmallestExists(s: set<nat>) returns (m: nat)
    requires s != {}
    ensures m in s && forall x :: x in s ==> m <= x
    decreases s
  {
    var some :| some in s;
    m := some;
    var others := s - {some};
    assert s == others + {some};
    if others != {} {
      var rest := SmallestExists(others);
      m := if rest < some then rest else some;
    }
  }

  function Smallest(s: set<nat>): (m: nat)
    requires s != {}
    ensures m in s && forall x :: x in s ==> m <= x
  {
    assert exists m :: m in s && forall x :: x in s ==> m <= x by {
      var m := SmallestExists(s);
    }
    var m :| m in s && forall x :: x in s ==> m <= x;
    m
  }

  /** ORDER BY id. */
  function Ascending(s: set<nat>): (r: seq<nat>)
    ensures |r| == |s|
  {
    if s == {} then []
    else
      var m := Smallest(s);
      [m] + Ascending(s - {m})
  }

  /** The listing of a set holds each of its elements exactly once, in increasing order. */
  lemma {:induction false} AscendingMeaning(s: set<nat>)
    ensures forall x :: x in Ascending(s) <==> x in s
    ensures forall i, j :: 0 <= i < j < |Ascending(s)| ==> Ascending(s)[i] < Ascending(s)[j]
  {
    if s != {} {
      var m := Smallest(s);
      var rest := Ascending(s - {m});
      AscendingMeaning(s - {m});
      assert Ascending(s) == [m] + rest;
      assert forall i :: 0 <= i < |rest| ==> rest[i] in s - {m};
    }
  }

  /** The limit actually applied. */
  function SafeLimit(limit: int): (r: nat)
    ensures 1 <= r <= 1000 && (1 <= limit <= 1000 ==> r == limit)
    ensures (limit > 1000 ==> r == 1000) && (limit < 1 ==> r == 1)
  {
    if limit < 1 then 1 else if limit > 1000 then 1000 else limit
  }

  /** LIMIT and OFFSET. */
  function Slice(ids: seq<nat>, offset: nat, limit: nat): (r: seq<nat>)
    ensures |r| <= limit
    ensures r == [] <==> limit == 0 || offset >= |ids|
  {
    if offset >= |ids| then []
    else if offset + limit >= |ids| then ids[offset..]
    else ids[offset..offset + limit]
  }

  /** `page` on one dataset: the ids of the rows, and the dataset's size. */
  function PageOf(db: DB, d: int, offset: int, limit: int): (r: (seq<nat>, nat))
    ensures |r.0| <= 1000 && r.1 == |MembersOf(db, d)|
    ensures offset >= 0 ==> forall i :: 0 <= i < |r.0| ==>
      offset + i < |MembersOf(db, d)| && r.0[i] == Ascending(MembersOf(db, d))[offset + i]
    ensures offset < 0 ==> forall i :: 0 <= i < |r.0| ==> i < |MembersOf(db, d)| && r.0[i] == Ascending(MembersOf(db, d))[i]
  {
    var ids := Ascending(MembersOf(db, d));
    (Slice(ids, if offset < 0 then 0 else offset, SafeLimit(limit)), |ids|)
  }

  function Flatten(chunks: seq<seq<nat>>): seq<nat> {
    if chunks == [] then [] else Flatten(chunks[..|chunks| - 1]) + chunks[|chunks| - 1]
  }

  lemma AppendChunk(ids: seq<nat>, chunks: seq<seq<nat>>, offset: nat, limit: nat)
    requires offset <= |ids| && Flatten(chunks) == ids[..offset]
    ensures var page := Slice(ids, offset, limit);
      && offset + |page| <= |ids| && Flatten(chunks + [page]) == ids[..offset + |page|]
      && (|page| == limit || offset + |page| == |ids|)
  {
    var page := Slice(ids, offset, limit);
    assert (chunks + [page])[..|chunks|] == chunks;
    assert ids[..offset] + page == ids[..offset + |page|];
  }

  /**
   `iter_dataset_rows`: whatever chunk size is asked for, the chunks together are every member once in id
   order, each but the last has the clamped size, and the iteration ends.
   */
  method IterDatasetRows(db: DB, d: int, chunkSize: int := 2000) returns (chunks: seq<seq<nat>>)
    ensures forall x :: x in Flatten(chunks) <==> x in MembersOf(db, d)
    ensures forall i, j :: 0 <= i < j < |Flatten(chunks)| ==> Flatten(chunks)[i] < Flatten(chunks)[j]
    ensures Flatten(chunks) == Ascending(MembersOf(db, d))
    ensures forall i :: 0 <= i < |chunks| ==> 0 < |chunks[i]| <= 1000
    ensures forall i :: 0 <= i < |chunks| - 1 ==>
      && (chunkSize >= 1000 ==> |chunks[i]| == 1000)
      && (1 <= chunkSize < 1000 ==> |chunks[i]| == chunkSize)
      && (chunkSize < 1 ==> |chunks[i]| == 1)
    ensures chunkSize <= 1000 ==> forall i :: 0 <= i < |chunks| ==> |chunks[i]| <= chunkSize || |chunks[i]| == 1
  {
    chunks := [];
    var offset := 0;
    ghost var ids := Ascending(MembersOf(db, d));
    ghost var limit := SafeLimit(chunkSize);
    while true
      invariant 0 <= offset <= |ids| && Flatten(chunks) == ids[..offset]
      invariant forall i :: 0 <= i < |chunks| ==> 0 < |chunks[i]| <= limit
      invariant offset < |ids| ==> forall i :: 0 <= i < |chunks| ==> |chunks[i]| == limit
      invariant forall i :: 0 <= i < |chunks| - 1 ==> |chunks[i]| == limit
      decreases |ids| - offset
    {
      var rows := PageOf(db, d, offset, chunkSize).0;
      assert rows == Slice(ids, offset, limit);
      if rows == [] {
        assert ids[..offset] == ids;
        AscendingMeaning(MembersOf(db, d));
        return;
      }
      AppendChunk(ids, chunks, offset, limit);
      chunks := chunks + [rows];
      offset := offset + |rows|;
    }
  }
}
