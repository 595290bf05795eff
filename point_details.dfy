/** The point details dialog (`components/PointDetailsModal.tsx`): toggling a
    checklist item derives the point's status from the checklist; photos and
    notes are edited locally and saved together. Checklist items are values
    here, so the toggle does not reach the objects the point shares with the
    templates. */
module PointDetails {
  import opened Types

  /** The number of ticked items. */
  function DoneCount(cl: seq<ChecklistItem>): (n: nat)
    ensures n <= |cl|
  {
    if |cl| == 0 then 0 else (if cl[0].done then 1 else 0) + DoneCount(cl[1..])
  }

  /** Every item is ticked exactly when the count reaches the length. */
  lemma {:induction false} AllDoneCount(cl: seq<ChecklistItem>)
    ensures (forall i :: 0 <= i < |cl| ==> cl[i].done) <==> DoneCount(cl) == |cl|
  {
    if |cl| > 0 {
      var t := cl[1..];
      AllDoneCount(t);
      assert (forall i :: 0 <= i < |cl| ==> cl[i].done)
        <==> cl[0].done && forall i :: 0 <= i < |t| ==> t[i].done
      by {
        assert forall i :: 0 <= i < |t| ==> t[i] == cl[i + 1];
      }
    }
  }

  /** Some item is ticked exactly when the count is positive. */
  lemma {:induction false} SomeDoneCount(cl: seq<ChecklistItem>)
    ensures (exists i :: 0 <= i < |cl| && cl[i].done) <==> DoneCount(cl) > 0
  {
    if |cl| > 0 {
      SomeDoneCount(cl[1..]);
      if exists i :: 0 <= i < |cl| && cl[i].done {
        var i :| 0 <= i < |cl| && cl[i].done;
        if i > 0 { assert cl[1..][i - 1].done; }
      }
    }
  }

  /** The status `handleChecklistChange` reports: Completed when every item is
      ticked (`every`), InProgress when some are (`some`), Pending otherwise. */
  function DerivedStatus(cl: seq<ChecklistItem>): PointStatus
  {
    if forall i :: 0 <= i < |cl| ==> cl[i].done then Completed
    else if exists i :: 0 <= i < |cl| && cl[i].done then InProgress
    else Pending
  }

  /** The status in terms of the number of ticked items; it is never Alert, so
      an Alert set elsewhere is overwritten by the first toggle. */
  lemma DerivedStatusByCount(cl: seq<ChecklistItem>)
    ensures DerivedStatus(cl) != Alert
    ensures DerivedStatus(cl) == Completed <==> DoneCount(cl) == |cl|
    ensures DerivedStatus(cl) == InProgress <==> 0 < DoneCount(cl) < |cl|
    ensures DerivedStatus(cl) == Pending <==> DoneCount(cl) == 0 < |cl|
  {
    AllDoneCount(cl);
    SomeDoneCount(cl);
  }

  /** The checklist with item `i` flipped. */
  function Toggled(cl: seq<ChecklistItem>, i: nat): (r: seq<ChecklistItem>)
    requires i < |cl|
    ensures |r| == |cl| && r[i].name == cl[i].name && r[i].done == !cl[i].done
    ensures forall j :: 0 <= j < |cl| && j != i ==> r[j] == cl[j]
  {
    cl[i := cl[i].(done := !cl[i].done)]
  }

  /** Toggling the same item twice restores the checklist. */
  lemma ToggleTwice(cl: seq<ChecklistItem>, i: nat)
    requires i < |cl|
    ensures Toggled(Toggled(cl, i), i) == cl
  {
  }

  /** A toggle moves the ticked count by exactly one, up when the item was open. */
  lemma {:induction false} ToggledDoneCount(cl: seq<ChecklistItem>, i: nat)
    requires i < |cl|
    ensures DoneCount(Toggled(cl, i)) == if cl[i].done then DoneCount(cl) - 1 else DoneCount(cl) + 1
  {
    var r := Toggled(cl, i);
    if i == 0 {
      assert r[1..] == cl[1..];
    } else {
      assert r[1..] == Toggled(cl[1..], i - 1);
      ToggledDoneCount(cl[1..], i - 1);
    }
  }

  /** Ticking the last open item completes the point; unticking an item of a
      completed checklist with more than one item puts it back in progress. */
  lemma ToggleCompletes(cl: seq<ChecklistItem>, i: nat)
    requires i < |cl|
    ensures !cl[i].done && DoneCount(cl) == |cl| - 1 ==> DerivedStatus(Toggled(cl, i)) == Completed
    ensures cl[i].done && DoneCount(cl) == |cl| > 1 ==> DerivedStatus(Toggled(cl, i)) == InProgress
  {
    ToggledDoneCount(cl, i);
    DerivedStatusByCount(Toggled(cl, i));
  }

  /** The report `handleChecklistChange` sends to `onUpdateStatus`. */
  datatype StatusUpdate = StatusUpdate(pointId: string, status: PointStatus, checklist: seq<ChecklistItem>)

  /** The dialog's local copy of the point's checklist, notes and photos. */
  class PointDetailsForm {
    var point: ProjectPoint
    var checklist: seq<ChecklistItem>
    var notes: string
    var photos: seq<string>

    predicate Synced()
      reads this
    {
      checklist == point.checklist && notes == point.notes && photos == point.photos
    }

    constructor(p: ProjectPoint)
      ensures point == p && Synced()
    {
      point := p;
      checklist, notes, photos := p.checklist, p.notes, p.photos;
    }

    /** The effect that re-seeds the local copy whenever the point changes. */
    method SyncFrom(p: ProjectPoint)
      modifies this
      ensures point == p && Synced()
    {
      point := p;
      checklist, notes, photos := p.checklist, p.notes, p.photos;
    }

    /** `handleChecklistChange`: flip item `index` and report the point's id,
        the status derived from the new checklist and the new checklist. */
    method ToggleChecklist(index: nat) returns (update: StatusUpdate)
      requires index < |checklist|
      modifies this`checklist
      ensures checklist == Toggled(old(checklist), index)
      ensures update == StatusUpdate(point.id, DerivedStatus(checklist), checklist)
    {
      var newChecklist := checklist[index := checklist[index].(done := !checklist[index].done)];
      checklist := newChecklist;
      var allDone := forall i :: 0 <= i < |newChecklist| ==> newChecklist[i].done;
      var someDone := exists i :: 0 <= i < |newChecklist| && newChecklist[i].done;
      var newStatus := point.status;
      if allDone {
        newStatus := Completed;
      } else if someDone {
        newStatus := InProgress;
      } else {
        newStatus := Pending;
      }
      update := StatusUpdate(point.id, newStatus, newChecklist);
    }

    /** `handleAddPhoto`: one more photo, at the end; the URL is a parameter. */
    method AddPhoto(url: string)
      modifies this`photos
      ensures photos == old(photos) + [url]
    {
      photos := photos + [url];
    }

    /** `handleSaveAndClose`: the point's id with the current notes and photos. */
    method SaveAndClose() returns (pointId: string, details: UpdatePointDetailsPayload)
      ensures pointId == point.id && details.notes == notes && details.photos == photos
    {
      pointId := point.id;
      details := UpdatePointDetailsPayload(notes, photos);
    }
  }
}
