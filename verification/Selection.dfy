/** What ORDER BY with LIMIT may return when ties come in any order. */
module Selection {
  import opened Prelude

  type Id = nat

  /** Up to `limit` ids of `at`, lowest first; what is left out is no lower than anything chosen. */
  ghost predicate Lowest(at: map<Id, int>, limit: nat, ids: seq<Id>) {
    && |ids| <= limit
    && (forall i :: 0 <= i < |ids| ==> ids[i] in at)
    && (forall i, j :: 0 <= i < j < |ids| ==> ids[i] != ids[j] && at[ids[i]] <= at[ids[j]])
    && (forall id :: id in at && id !in ids ==>
          |ids| == limit && forall other :: other in ids ==> at[other] <= at[id])
  }

  lemma {:induction false} LowestExists(at: map<Id, int>, ids: set<Id>) returns (first: Id)
    requires ids != {} && ids <= at.Keys
    ensures first in ids && forall id :: id in ids ==> at[first] <= at[id]
    decreases |ids|
  {
    first :| first in ids;
    if ids == {first} {
    } else {
      var rest := ids - {first};
      assert rest == {} ==> ids == {first};
      var other := LowestExists(at, rest);
      assert forall id :: id in ids ==> id == first || id in rest;
      if at[other] < at[first] {
        first := other;
      }
    }
  }

  /** Selection in progress: `ids` came first, `left` is still to be ordered. */
  ghost predicate Selected(at: map<Id, int>, ids: seq<Id>, left: set<Id>) {
    && left <= at.Keys
    && (forall i :: 0 <= i < |ids| ==> ids[i] in at && ids[i] !in left)
    && (forall id :: id in at ==> id in ids || id in left)
    && (forall i, j :: 0 <= i < j < |ids| ==> ids[i] != ids[j] && at[ids[i]] <= at[ids[j]])
    && (forall i, id :: 0 <= i < |ids| && id in left ==> at[ids[i]] <= at[id])
  }

  lemma SelectNext(at: map<Id, int>, ids: seq<Id>, left: set<Id>, first: Id)
    requires Selected(at, ids, left) && first in left
    requires forall id :: id in left ==> at[first] <= at[id]
    ensures Selected(at, ids + [first], left - {first})
  {
    var ids' := ids + [first];
    assert forall i :: 0 <= i < |ids| ==> ids'[i] == ids[i];
    forall id | id in at
      ensures id in ids' || id in left - {first}
    {
      if id in ids {
        var i :| 0 <= i < |ids| && ids[i] == id;
        assert ids'[i] == id;
      } else if id == first {
        assert ids'[|ids|] == id;
      }
    }
  }

  method SelectLowest(at: map<Id, int>, limit: nat) returns (ids: seq<Id>)
    ensures Lowest(at, limit, ids)
  {
    ids := [];
    var left := at.Keys;
    while |ids| < limit && left != {}
      invariant |ids| <= limit && Selected(at, ids, left)
      decreases |left|
    {
      ghost var lowest := LowestExists(at, left);
      var first :| first in left && forall id :: id in left ==> at[first] <= at[id];
      SelectNext(at, ids, left, first);
      ids := ids + [first];
      left := left - {first};
    }
    assert forall id :: id in at && id !in ids ==> id in left;
  }

  /** Unless the limit cuts it short, a selection is everything there is. */
  lemma LowestIsAll(at: map<Id, int>, limit: nat, ids: seq<Id>)
    requires Lowest(at, limit, ids)
    ensures |ids| == Min(limit, |at|)
    ensures |at| <= limit ==> Elements(ids) == at.Keys
  {
    DistinctSize(ids);
    forall id | id in ids
      ensures id in at
    {
      var i :| 0 <= i < |ids| && ids[i] == id;
    }
    SubsetSize(Elements(ids), at.Keys);
    assert |at| == |at.Keys|;
    if id :| id in at && id !in ids {
      SubsetSize(Elements(ids), at.Keys - {id});
    } else {
      assert Elements(ids) == at.Keys;
    }
  }
}
