/** The history of closed periods (TripHistory.tsx and App.tsx:289-294):
    deletion by id, the search for the record a confirmation names, the
    newest-first display order, and the two-step delete confirmation. */
module History {
  import opened Types
  import opened Totals

  /** `records.filter(r => r.id !== id)`: the records whose id is not `id`. */
  function RemoveId(rs: seq<BudgetRecord>, id: int): (kept: seq<BudgetRecord>)
    ensures |kept| <= |rs|
    ensures forall i :: 0 <= i < |kept| ==> kept[i].id != id
    decreases |rs|
  {
    if rs == [] then []
    else
      var last := rs[|rs| - 1];
      RemoveId(rs[..|rs| - 1], id) + (if last.id == id then [] else [last])
  }

  /** A record is kept exactly when it was there and does not carry `id`. */
  lemma {:induction false} RemoveIdMembers(rs: seq<BudgetRecord>, id: int, r: BudgetRecord)
    ensures r in RemoveId(rs, id) <==> r in rs && r.id != id
    decreases |rs|
  {
    if rs != [] {
      var init, last := rs[..|rs| - 1], rs[|rs| - 1];
      SplitLast(rs);
      RemoveIdMembers(init, id, r);
      assert RemoveId(rs, id) == RemoveId(init, id) + (if last.id == id then [] else [last]);
    }
  }

  /** Deletion keeps the relative order: it works piece by piece. */
  lemma {:induction false} RemoveIdConcat(a: seq<BudgetRecord>, b: seq<BudgetRecord>, id: int)
    ensures RemoveId(a + b, id) == RemoveId(a, id) + RemoveId(b, id)
    decreases |b|
  {
    if b == [] {
      assert a + b == a;
    } else {
      var b' := b[..|b| - 1];
      assert (a + b)[..|a + b| - 1] == a + b';
      RemoveIdConcat(a, b', id);
    }
  }

  /** Deleting an id that no record carries changes nothing. */
  lemma {:induction false} RemoveIdAbsent(rs: seq<BudgetRecord>, id: int)
    requires forall i :: 0 <= i < |rs| ==> rs[i].id != id
    ensures RemoveId(rs, id) == rs
    decreases |rs|
  {
    if rs != [] {
      var init, last := rs[..|rs| - 1], rs[|rs| - 1];
      assert RemoveId(init, id) == init by {
        forall i | 0 <= i < |init| ensures init[i].id != id {
          assert init[i] == rs[i];
        }
        RemoveIdAbsent(init, id);
      }
      assert RemoveId(rs, id) == RemoveId(init, id) + [last] by {
        assert last.id != id;
      }
      SplitLast(rs);
    }
  }

  /** When exactly one record carries the id, deletion removes that record
      and keeps all the others, in their order. */
  lemma {:induction false} RemoveIdUnique(rs: seq<BudgetRecord>, id: int, k: nat)
    requires k < |rs| && rs[k].id == id
    requires forall i :: 0 <= i < |rs| && i != k ==> rs[i].id != id
    ensures RemoveId(rs, id) == rs[..k] + rs[k + 1..]
  {
    var before, after := rs[..k], rs[k + 1..];
    assert RemoveId(before, id) == before by {
      forall i | 0 <= i < |before| ensures before[i].id != id {
        assert before[i] == rs[i];
      }
      RemoveIdAbsent(before, id);
    }
    assert RemoveId(after, id) == after by {
      forall i | 0 <= i < |after| ensures after[i].id != id {
        assert after[i] == rs[k + 1 + i];
      }
      RemoveIdAbsent(after, id);
    }
    assert RemoveId(before + [rs[k]], id) == before by {
      RemoveIdConcat(before, [rs[k]], id);
      assert [rs[k]][..0] == [];
    }
    SplitAt(rs, k);
    RemoveIdConcat(before + [rs[k]], after, id);
  }

  /** A non-empty list is its front followed by its last record. */
  lemma SplitLast(rs: seq<BudgetRecord>)
    requires rs != []
    ensures rs == rs[..|rs| - 1] + [rs[|rs| - 1]]
  {
  }

  /** A list is the part before position k, the k-th record and the rest. */
  lemma SplitAt(rs: seq<BudgetRecord>, k: nat)
    requires k < |rs|
    ensures rs == rs[..k] + [rs[k]] + rs[k + 1..]
  {
  }

  /** Deleting a record whose id is unique lowers the grand total by exactly
      that record's stored total. */
  lemma {:induction false} GrandTotalAfterDelete(rs: seq<BudgetRecord>, id: int, k: nat)
    requires k < |rs| && rs[k].id == id
    requires forall i :: 0 <= i < |rs| && i != k ==> rs[i].id != id
    ensures GrandTotal(RemoveId(rs, id)) == GrandTotal(rs) - rs[k].total
  {
    RemoveIdUnique(rs, id, k);
    var before, after := rs[..k], rs[k + 1..];
    SplitAt(rs, k);
    GrandTotalConcat(before + [rs[k]], after);
    GrandTotalAppend(before, rs[k]);
    GrandTotalConcat(before, after);
  }

  /** The position `find` stops at: the first record whose id equals the
      pending id; none when nothing is pending (no number equals null). */
  function FindIndex(rs: seq<BudgetRecord>, id: Option<int>): (k: Option<nat>)
    ensures id.None? ==> k.None?
    ensures k.Some? ==> k.value < |rs| && Some(rs[k.value].id) == id
    ensures k.Some? ==> forall j :: 0 <= j < k.value ==> Some(rs[j].id) != id
    ensures k.None? ==> forall j :: 0 <= j < |rs| ==> Some(rs[j].id) != id
    decreases |rs|
  {
    if rs == [] then None
    else if Some(rs[0].id) == id then Some(0)
    else
      match FindIndex(rs[1..], id)
      case None => None
      case Some(j) => Some(j + 1)
  }

  /** `trips.find(t => t.id === deleteConfirmationId)`: the first record
      with the id, if any. */
  function FindById(rs: seq<BudgetRecord>, id: Option<int>): (found: Option<BudgetRecord>)
    ensures found.Some? ==> found.value in rs && Some(found.value.id) == id
    ensures found.Some? ==>
              exists k :: 0 <= k < |rs| && rs[k] == found.value && forall j :: 0 <= j < k ==> Some(rs[j].id) != id
    ensures found.None? <==> forall r :: r in rs ==> Some(r.id) != id
  {
    match FindIndex(rs, id)
    case None => None
    case Some(k) => Some(rs[k])
  }

  /** `[...trips].reverse()`: a reversed copy, so the newest record comes first. */
  function DisplayOrder(rs: seq<BudgetRecord>): (shown: seq<BudgetRecord>)
    ensures |shown| == |rs|
    ensures forall k :: 0 <= k < |rs| ==> shown[k] == rs[|rs| - 1 - k]
    decreases |rs|
  {
    if rs == [] then [] else DisplayOrder(rs[1..]) + [rs[0]]
  }

  /** Reversing the display order gives the stored order back, and after a
      period is closed its record is the first one shown. */
  lemma DisplayOrderInverse(rs: seq<BudgetRecord>, r: BudgetRecord)
    ensures DisplayOrder(DisplayOrder(rs)) == rs
    ensures DisplayOrder(rs + [r])[0] == r
    ensures DisplayOrder(rs + [r])[1..] == DisplayOrder(rs)
  {
  }

  /** The history list's delete confirmation: the id whose deletion is
      pending, none when no confirmation is shown. */
  class HistoryBrowser {
    var deleteConfirmationId: Option<int>

    constructor ()
      ensures deleteConfirmationId.None?
    {
      deleteConfirmationId := None;
    }

    /** The confirmation dialog is shown exactly while an id is pending. */
    predicate ConfirmationShown()
      reads this
    {
      deleteConfirmationId.Some?
    }

    /** The record the confirmation names. */
    function RecordToDelete(trips: seq<BudgetRecord>): (r: Option<BudgetRecord>)
      reads this
      ensures r.Some? ==> ConfirmationShown() && r.value in trips && Some(r.value.id) == deleteConfirmationId
      ensures r.Some? ==>
                exists k :: 0 <= k < |trips| && trips[k] == r.value
                  && forall j :: 0 <= j < k ==> Some(trips[j].id) != deleteConfirmationId
      ensures r.None? <==> forall t :: t in trips ==> Some(t.id) != deleteConfirmationId
    {
      FindById(trips, deleteConfirmationId)
    }

    /** Clicking a record's delete button only records the pending id. */
    method DeleteClick(id: int)
      modifies this
      ensures deleteConfirmationId == Some(id)
    {
      deleteConfirmationId := Some(id);
    }

    /** Confirming hands the pending id to the delete handler once and
      clears it; with nothing pending nothing happens. */
    method ConfirmDelete() returns (deleteCall: Option<int>)
      modifies this
      ensures deleteCall == old(deleteConfirmationId)
      ensures deleteConfirmationId.None?
    {
      deleteCall := None;
      if deleteConfirmationId.Some? {
        deleteCall := deleteConfirmationId;
        deleteConfirmationId := None;
      }
    }

    /** Cancelling clears the pending id and deletes nothing. */
    method CancelDelete()
      modifies this
      ensures deleteConfirmationId.None?
    {
      deleteConfirmationId := None;
    }
  }
}
