/** The freights page: the local list of freights joined with their drivers,
    the status change and the delete with their two-table writes, and the
    search box. */
module Freights {
  import opened Wrappers
  import opened Rows
  import opened Tables
  import opened Seqs
  import opened Text

  /** A freight as the page holds it: the row joined with its driver's row;
      the join is null when there is no driver. */
  datatype FreightView = FreightView(row: FreightRow, driver: Option<DriverRow>)

  datatype DeleteModal = DeleteModal(isOpen: bool, freightId: Option<string>)

  const StatusErrorAlert := "Erro ao atualizar status"
  const DeleteErrorAlert := "Erro ao excluir frete"

  /** The driver status that goes with a freight status. */
  function DriverStatusFor(s: FreightStatus): (r: DriverStatus)
    ensures r == Disponivel <==> s == Pago || s == Descarregado
    ensures r == Disponivel || r == EmViagem
  {
    if s == Pago || s == Descarregado then Disponivel else EmViagem
  }

  /** The status shown for a freight: a missing status shows as in transit. */
  function DisplayedStatus(f: FreightRow): (r: FreightStatus)
    ensures f.status.Some? ==> r == f.status.value
    ensures f.status.None? ==> r == EmTransito
  {
    f.status.GetOr(EmTransito)
  }

  /** The first listed freight with that id. */
  function FindById(list: seq<FreightView>, id: string): (r: Option<FreightView>)
    ensures r.None? <==> forall i :: 0 <= i < |list| ==> list[i].row.id != id
    ensures r.Some? ==> exists i :: 0 <= i < |list| && list[i] == r.value && list[i].row.id == id
                          && forall j :: 0 <= j < i ==> list[j].row.id != id
  {
    if list == [] then None
    else if list[0].row.id == id then Some(list[0])
    else
      var r := FindById(list[1..], id);
      if r.Some? then
        var i :| 0 <= i < |list[1..]| && list[1..][i] == r.value && list[1..][i].row.id == id
                 && forall j :: 0 <= j < i ==> list[1..][j].row.id != id;
        assert list[i + 1] == r.value;
        r
      else r
  }

  /** The driver whose status follows a change to freight `id`: the driver of
      the first listed freight with that id, when it has one. */
  function SyncTarget(list: seq<FreightView>, id: string): (r: Option<string>)
    ensures r.Some? <==> FindById(list, id).Some? && HasDriver(FindById(list, id).value.row)
    ensures r.Some? ==> r.value != "" && Some(r.value) == FindById(list, id).value.row.driver_id
  {
    var f := FindById(list, id);
    if f.Some? && HasDriver(f.value.row) then Some(f.value.row.driver_id.value) else None
  }

  /** The list with every freight carrying `id` given status `s`. */
  function WithStatusById(list: seq<FreightView>, id: string, s: FreightStatus): (r: seq<FreightView>)
    ensures |r| == |list|
    ensures forall i :: 0 <= i < |list| && list[i].row.id == id ==>
              r[i] == list[i].(row := list[i].row.(status := Some(s)))
    ensures forall i :: 0 <= i < |list| && list[i].row.id != id ==> r[i] == list[i]
  {
    if list == [] then []
    else
      var head := if list[0].row.id == id then list[0].(row := list[0].row.(status := Some(s))) else list[0];
      var r := [head] + WithStatusById(list[1..], id, s);
      assert forall i :: 1 <= i < |list| ==> list[i] == list[1..][i - 1] && r[i] == WithStatusById(list[1..], id, s)[i - 1];
      r
  }

  /** The list without the freights carrying `id`, in order. */
  function RemoveById(list: seq<FreightView>, id: string): (r: seq<FreightView>)
    ensures forall f :: f in r <==> f in list && f.row.id != id
    ensures forall f :: multiset(r)[f] == if f.row.id != id then multiset(list)[f] else 0
    ensures IsSubsequence(r, list)
  {
    FilterIsSubsequence(list, (f: FreightView) => f.row.id != id);
    Filter(list, (f: FreightView) => f.row.id != id)
  }

  /** Removing an id that is not listed leaves the list as it was. */
  lemma RemoveAbsentId(list: seq<FreightView>, id: string)
    requires forall i :: 0 <= i < |list| ==> list[i].row.id != id
    ensures RemoveById(list, id) == list
  {
    FilterKeepsAll(list, (f: FreightView) => f.row.id != id);
  }

  /** The search predicate: the lower-cased term occurs in the lower-cased
      driver name, destination or driver plate. */
  predicate Matches(f: FreightView, term: string) {
    var t := Lower(term);
    || (f.driver.Some? && Includes(Lower(f.driver.value.name), t))
    || Includes(Lower(f.row.destination), t)
    || (f.driver.Some? && f.driver.value.license_plate.Some? && Includes(Lower(f.driver.value.license_plate.value), t))
  }

  function FilteredFreights(list: seq<FreightView>, term: string): (r: seq<FreightView>)
    ensures forall f :: f in r <==> f in list && Matches(f, term)
    ensures forall f :: multiset(r)[f] == if Matches(f, term) then multiset(list)[f] else 0
    ensures IsSubsequence(r, list)
  {
    FilterIsSubsequence(list, f => Matches(f, term));
    Filter(list, f => Matches(f, term))
  }

  /** An empty search term keeps every freight. */
  lemma {:induction false} EmptySearchKeepsAll(list: seq<FreightView>)
    ensures FilteredFreights(list, "") == list
  {
    forall i | 0 <= i < |list| ensures Matches(list[i], "") {
      IncludesEmpty(Lower(list[i].row.destination));
    }
    FilterKeepsAll(list, f => Matches(f, ""));
  }

  /** The status change leaves the list's ids, and so its order, as they were. */
  lemma {:induction false} StatusChangeKeepsIds(list: seq<FreightView>, id: string, s: FreightStatus)
    ensures |WithStatusById(list, id, s)| == |list|
    ensures forall i :: 0 <= i < |list| ==> WithStatusById(list, id, s)[i].row.id == list[i].row.id
    ensures forall i :: 0 <= i < |list| && list[i].row.id == id ==> WithStatusById(list, id, s)[i].row.status == Some(s)
  {
  }

  class FreightsPage {
    const db: Database
    var freights: seq<FreightView>
    var deleteModal: DeleteModal
    var alerts: seq<string>

    constructor (db: Database, freights: seq<FreightView>)
      ensures this.db == db && this.freights == freights
      ensures deleteModal == DeleteModal(false, None) && alerts == []
    {
      this.db := db;
      this.freights := freights;
      deleteModal := DeleteModal(false, None);
      alerts := [];
    }

    /** Opens the delete confirmation for freight `id`. */
    method ConfirmDelete(id: string)
      modifies this
      ensures deleteModal == DeleteModal(true, Some(id))
      ensures freights == old(freights) && alerts == old(alerts)
    {
      deleteModal := DeleteModal(true, Some(id));
    }

    /** Writes the new status to the freight row; only when that succeeds,
        sets the status of the freight's driver (if the listed freight has
        one) and then rebuilds the local list. The driver write's own error
        is not looked at. */
    method HandleStatusChange(freightId: string, newStatus: FreightStatus, updateFailed: bool, driverUpdateFailed: bool)
      requires db.Valid()
      modifies this, db
      ensures db.Valid()
      ensures deleteModal == old(deleteModal)
      ensures updateFailed ==>
        && freights == old(freights)
        && db.freights == old(db.freights) && db.drivers == old(db.drivers)
        && db.log == old(db.log) + [FreightStatusUpdate(freightId, newStatus)]
        && alerts == old(alerts) + [StatusErrorAlert]
      ensures !updateFailed ==>
        var target := SyncTarget(old(freights), freightId);
        && freights == WithStatusById(old(freights), freightId, newStatus)
        && db.freights == WithFreightStatus(old(db.freights), freightId, newStatus)
        && db.drivers == (if target.Some? && !driverUpdateFailed
                          then WithDriverStatus(old(db.drivers), target.value, DriverStatusFor(newStatus))
                          else old(db.drivers))
        && db.log == old(db.log) + [FreightStatusUpdate(freightId, newStatus)]
                     + (if target.Some? then [DriverStatusUpdate(target.value, DriverStatusFor(newStatus))] else [])
        && alerts == old(alerts)
    {
      var error := db.UpdateFreightStatus(freightId, newStatus, updateFailed);
      if error {
        alerts := alerts + [StatusErrorAlert];
        return;
      }
      var target := SyncTarget(freights, freightId);
      if target.Some? {
        var _ := db.UpdateDriverStatus(target.value, DriverStatusFor(newStatus), driverUpdateFailed);
      }
      freights := WithStatusById(freights, freightId, newStatus);
    }

    /** Deletes the freight awaiting confirmation: first releases its driver,
        then deletes the row; the local list and the modal change only when
        the delete succeeded. */
    method HandleDelete(driverUpdateFailed: bool, deleteFailed: bool)
      requires db.Valid()
      modifies this, db
      ensures db.Valid()
      ensures old(deleteModal).freightId.None? || old(deleteModal).freightId.value == "" ==>
        && freights == old(freights) && deleteModal == old(deleteModal) && alerts == old(alerts)
        && db.freights == old(db.freights) && db.drivers == old(db.drivers) && db.log == old(db.log)
      ensures old(deleteModal).freightId.Some? && old(deleteModal).freightId.value != "" ==>
        var id := old(deleteModal).freightId.value;
        var target := SyncTarget(old(freights), id);
        && db.drivers == (if target.Some? && !driverUpdateFailed
                          then WithDriverStatus(old(db.drivers), target.value, Disponivel)
                          else old(db.drivers))
        && db.log == old(db.log) + (if target.Some? then [DriverStatusUpdate(target.value, Disponivel)] else [])
                     + [FreightDeletion(id)]
        && (deleteFailed ==>
              && freights == old(freights) && deleteModal == old(deleteModal)
              && db.freights == old(db.freights)
              && alerts == old(alerts) + [DeleteErrorAlert])
        && (!deleteFailed ==>
              && freights == RemoveById(old(freights), id)
              && deleteModal == DeleteModal(false, None)
              && db.freights == Without(old(db.freights), id)
              && alerts == old(alerts))
    {
      if deleteModal.freightId.None? || deleteModal.freightId.value == "" {
        return;
      }
      var id := deleteModal.freightId.value;
      var target := SyncTarget(freights, id);
      if target.Some? {
        var _ := db.UpdateDriverStatus(target.value, Disponivel, driverUpdateFailed);
      }
      var error := db.DeleteFreight(id, deleteFailed);
      if error {
        alerts := alerts + [DeleteErrorAlert];
        return;
      }
      freights := RemoveById(freights, id);
      deleteModal := DeleteModal(false, None);
    }

    /** Closes the delete confirmation; the pending id stays. */
    method CloseDeleteModal()
      modifies this
      ensures deleteModal == DeleteModal(false, old(deleteModal).freightId)
      ensures freights == old(freights) && alerts == old(alerts)
    {
      deleteModal := DeleteModal(false, deleteModal.freightId);
    }

    /** The confirmation's confirm button: starts the delete, then closes the
        modal. The modal ends closed either way; it still holds the id after
        a failed delete and no id after a successful one. */
    method ConfirmAndClose(driverUpdateFailed: bool, deleteFailed: bool)
      requires db.Valid()
      modifies this, db
      ensures db.Valid()
      ensures !deleteModal.isOpen
      ensures old(deleteModal).freightId.None? || old(deleteModal).freightId.value == "" ==>
        && deleteModal.freightId == old(deleteModal).freightId
        && freights == old(freights) && alerts == old(alerts)
        && db.freights == old(db.freights) && db.drivers == old(db.drivers) && db.log == old(db.log)
      ensures old(deleteModal).freightId.Some? && old(deleteModal).freightId.value != "" ==>
        var id := old(deleteModal).freightId.value;
        var target := SyncTarget(old(freights), id);
        && db.drivers == (if target.Some? && !driverUpdateFailed
                          then WithDriverStatus(old(db.drivers), target.value, Disponivel)
                          else old(db.drivers))
        && db.log == old(db.log) + (if target.Some? then [DriverStatusUpdate(target.value, Disponivel)] else [])
                     + [FreightDeletion(id)]
        && (deleteFailed ==>
              && deleteModal == DeleteModal(false, Some(id))
              && freights == old(freights) && db.freights == old(db.freights)
              && alerts == old(alerts) + [DeleteErrorAlert])
        && (!deleteFailed ==>
              && deleteModal == DeleteModal(false, None)
              && freights == RemoveById(old(freights), id)
              && db.freights == Without(old(db.freights), id)
              && alerts == old(alerts))
    {
      HandleDelete(driverUpdateFailed, deleteFailed);
      CloseDeleteModal();
    }
  }
}
