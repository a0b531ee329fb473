/** The drivers page: trip counts from the freights aggregate, the search
    box, the status label, and the delete with its two outcomes. */
module Drivers {
  import opened Wrappers
  import opened Rows
  import opened Tables
  import opened Seqs
  import opened Text

  /** A fetched driver: its row and its freight-count aggregate, which may
      be missing. */
  datatype FetchedDriver = FetchedDriver(row: DriverRow, freights: Option<seq<nat>>)

  datatype DriverWithTrips = DriverWithTrips(row: DriverRow, trips: nat)

  datatype DeleteModal = DeleteModal(isOpen: bool, driverId: Option<string>, driverName: string)
  datatype ErrorModal = ErrorModal(isOpen: bool, message: string)

  const ClosedDeleteModal := DeleteModal(false, None, "")
  const LinkedFreightsMessage := "Não é possível excluir este motorista pois ele possui fretes vinculados. Exclua os fretes primeiro."

  /** The trip count: the first aggregate entry's count, 0 when there is none. */
  function TripsOf(d: FetchedDriver): (n: nat)
    ensures d.freights.Some? && |d.freights.value| > 0 ==> n == d.freights.value[0]
    ensures d.freights.None? || d.freights.value == [] ==> n == 0
  {
    if d.freights.Some? && |d.freights.value| > 0 then d.freights.value[0] else 0
  }

  /** The fetched rows with their trip counts, in fetched order. */
  function WithTrips(data: seq<FetchedDriver>): (r: seq<DriverWithTrips>)
    ensures |r| == |data|
    ensures forall i :: 0 <= i < |data| ==> r[i].row == data[i].row && r[i].trips == TripsOf(data[i])
  {
    seq(|data|, i requires 0 <= i < |data| => DriverWithTrips(data[i].row, TripsOf(data[i])))
  }

  /** The lower-cased term occurs in the lower-cased name or plate. */
  predicate Matches(d: DriverWithTrips, term: string) {
    var t := Lower(term);
    || Includes(Lower(d.row.name), t)
    || (d.row.license_plate.Some? && Includes(Lower(d.row.license_plate.value), t))
  }

  function FilteredDrivers(list: seq<DriverWithTrips>, term: string): (r: seq<DriverWithTrips>)
    ensures forall d :: d in r <==> d in list && Matches(d, term)
    ensures forall d :: multiset(r)[d] == if Matches(d, term) then multiset(list)[d] else 0
    ensures IsSubsequence(r, list)
  {
    FilterIsSubsequence(list, d => Matches(d, term));
    Filter(list, d => Matches(d, term))
  }

  lemma {:induction false} EmptySearchKeepsAll(list: seq<DriverWithTrips>)
    ensures FilteredDrivers(list, "") == list
  {
    forall i | 0 <= i < |list| ensures Matches(list[i], "") {
      IncludesEmpty(Lower(list[i].row.name));
    }
    FilterKeepsAll(list, d => Matches(d, ""));
  }

  /** The list without the drivers carrying `id`, in order. */
  function RemoveById(list: seq<DriverWithTrips>, id: string): (r: seq<DriverWithTrips>)
    ensures forall d :: d in r <==> d in list && d.row.id != id
    ensures forall d :: multiset(r)[d] == if d.row.id != id then multiset(list)[d] else 0
    ensures IsSubsequence(r, list)
  {
    FilterIsSubsequence(list, (d: DriverWithTrips) => d.row.id != id);
    Filter(list, (d: DriverWithTrips) => d.row.id != id)
  }

  /** The shown status: a missing or empty status reads "Indefinido". */
  function StatusLabel(s: Option<DriverStatus>): (r: string)
    ensures s.None? || DriverStatusText(s.value) == "" ==> r == "Indefinido"
    ensures s.Some? && DriverStatusText(s.value) != "" ==> r == DriverStatusText(s.value)
  {
    if s.Some? && DriverStatusText(s.value) != "" then DriverStatusText(s.value) else "Indefinido"
  }

  class DriversPage {
    const db: Database
    var drivers: seq<DriverWithTrips>
    var deleteModal: DeleteModal
    var errorModal: ErrorModal

    constructor (db: Database)
      ensures this.db == db && drivers == []
      ensures deleteModal == ClosedDeleteModal && errorModal == ErrorModal(false, "")
    {
      this.db := db;
      drivers := [];
      deleteModal := ClosedDeleteModal;
      errorModal := ErrorModal(false, "");
    }

    /** Applies a fetch: on error the list stays; a null result empties it. */
    method FetchDrivers(fetchFailed: bool, data: Option<seq<FetchedDriver>>)
      modifies this
      ensures fetchFailed ==> drivers == old(drivers)
      ensures !fetchFailed ==> drivers == if data.Some? then WithTrips(data.value) else []
      ensures deleteModal == old(deleteModal) && errorModal == old(errorModal)
    {
      if !fetchFailed {
        drivers := if data.Some? then WithTrips(data.value) else [];
      }
    }

    method ConfirmDelete(id: string, name: string)
      modifies this
      ensures deleteModal == DeleteModal(true, Some(id), name)
      ensures drivers == old(drivers) && errorModal == old(errorModal)
    {
      deleteModal := DeleteModal(true, Some(id), name);
    }

    /** Deletes the driver awaiting confirmation. On success the driver leaves
        the list; on failure (a freight still references the driver, or the
        backend errs) the list stays and the error modal opens. Either way
        the delete modal resets. */
    method HandleDelete(deleteFailed: bool)
      requires db.Valid()
      modifies this, db
      ensures db.Valid()
      ensures old(deleteModal).driverId.None? || old(deleteModal).driverId.value == "" ==>
        && drivers == old(drivers) && deleteModal == old(deleteModal) && errorModal == old(errorModal)
        && db.drivers == old(db.drivers) && db.freights == old(db.freights) && db.log == old(db.log)
      ensures old(deleteModal).driverId.Some? && old(deleteModal).driverId.value != "" ==>
        var id := old(deleteModal).driverId.value;
        var failed := deleteFailed || Referenced(old(db.freights), id);
        && deleteModal == ClosedDeleteModal
        && db.freights == old(db.freights)
        && db.log == old(db.log) + [DriverDeletion(id)]
        && (failed ==>
              && drivers == old(drivers) && db.drivers == old(db.drivers)
              && errorModal == ErrorModal(true, LinkedFreightsMessage))
        && (!failed ==>
              && drivers == RemoveById(old(drivers), id) && db.drivers == Without(old(db.drivers), id)
              && errorModal == old(errorModal))
    {
      if deleteModal.driverId.None? || deleteModal.driverId.value == "" {
        return;
      }
      var id := deleteModal.driverId.value;
      var error := db.DeleteDriver(id, deleteFailed);
      if error {
        deleteModal := ClosedDeleteModal;
        errorModal := ErrorModal(true, LinkedFreightsMessage);
        return;
      }
      drivers := RemoveById(drivers, id);
      deleteModal := ClosedDeleteModal;
    }

    /** Closes the delete confirmation; the pending driver stays recorded. */
    method CloseDeleteModal()
      modifies this
      ensures deleteModal == old(deleteModal).(isOpen := false)
      ensures drivers == old(drivers) && errorModal == old(errorModal)
    {
      deleteModal := deleteModal.(isOpen := false);
    }

    /** The confirmation's confirm button: runs the delete, then closes the
        modal, which the delete has already reset unless nothing was pending. */
    method ConfirmAndClose(deleteFailed: bool)
      requires db.Valid()
      modifies this, db
      ensures db.Valid()
      ensures old(deleteModal).driverId.None? || old(deleteModal).driverId.value == "" ==>
        && deleteModal == old(deleteModal).(isOpen := false)
        && drivers == old(drivers) && errorModal == old(errorModal)
        && db.drivers == old(db.drivers) && db.freights == old(db.freights) && db.log == old(db.log)
      ensures old(deleteModal).driverId.Some? && old(deleteModal).driverId.value != "" ==>
        var id := old(deleteModal).driverId.value;
        var failed := deleteFailed || Referenced(old(db.freights), id);
        && deleteModal == ClosedDeleteModal
        && db.freights == old(db.freights)
        && db.log == old(db.log) + [DriverDeletion(id)]
        && (failed ==>
              && drivers == old(drivers) && db.drivers == old(db.drivers)
              && errorModal == ErrorModal(true, LinkedFreightsMessage))
        && (!failed ==>
              && drivers == RemoveById(old(drivers), id) && db.drivers == Without(old(db.drivers), id)
              && errorModal == old(errorModal))
    {
      HandleDelete(deleteFailed);
      CloseDeleteModal();
    }
  }
}
