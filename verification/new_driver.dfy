/** The new-driver dialog: the row it inserts and the form reset. */
module NewDriver {
  import opened Wrappers
  import opened Rows
  import opened Tables
  import opened Text

  datatype DriverForm = DriverForm(name: string, license_plate: string, phone: string)

  const EmptyForm := DriverForm("", "", "")

  const SaveErrorAlert := "Erro ao salvar motorista"

  /** The row the backend stores: the plate upper-cased, name and phone as
      typed, available; `id` and `createdAt` are generated by the backend. */
  function NewDriverRow(f: DriverForm, userId: string, id: string, createdAt: string): (r: DriverRow)
    ensures r.id == id && r.user_id == userId && r.created_at == Some(createdAt)
    ensures r.name == f.name && r.phone == Some(f.phone)
    ensures r.license_plate.Some? && |r.license_plate.value| == |f.license_plate|
    ensures forall i :: 0 <= i < |f.license_plate| ==> r.license_plate.value[i] == UpperChar(f.license_plate[i])
    ensures forall c :: c in r.license_plate.value ==> !IsLowerAscii(c)
    ensures r.status == Some(Disponivel) && r.rating.None?
  {
    DriverRow(
      created_at := Some(createdAt),
      id := id,
      license_plate := Some(Upper(f.license_plate)),
      name := f.name,
      phone := Some(f.phone),
      status := Some(Disponivel),
      user_id := userId,
      rating := None)
  }


  class NewDriverModal {
    const db: Database
    var form: DriverForm
    var saved: bool
    var alerts: seq<string>

    constructor (db: Database)
      ensures this.db == db && form == EmptyForm && !saved && alerts == []
    {
      this.db := db;
      form := EmptyForm;
      saved := false;
      alerts := [];
    }

    /** Submits the form: nothing without a signed-in user; otherwise inserts
        the driver and resets the form only when the insert succeeded. */
    method HandleSubmit(user: Option<string>, newId: string, createdAt: string, insertFailed: bool)
      requires db.Valid()
      modifies this, db
      ensures db.Valid()
      ensures db.freights == old(db.freights)
      ensures user.None? ==>
        && form == old(form) && saved == old(saved) && alerts == old(alerts)
        && db.drivers == old(db.drivers) && db.log == old(db.log)
      ensures user.Some? ==>
        var row := NewDriverRow(old(form), user.value, newId, createdAt);
        var error := insertFailed || newId in old(db.drivers);
        && db.log == old(db.log) + [DriverInsertion(row)]
        && (error ==>
              && form == old(form) && saved == old(saved) && alerts == old(alerts) + [SaveErrorAlert]
              && db.drivers == old(db.drivers))
        && (!error ==>
              && form == EmptyForm && saved && alerts == old(alerts)
              && db.drivers == old(db.drivers)[newId := row])
    {
      if user.None? {
        return;
      }
      var row := NewDriverRow(form, user.value, newId, createdAt);
      var error := db.InsertDriver(row, insertFailed);
      if error {
        alerts := alerts + [SaveErrorAlert];
        return;
      }
      saved := true;
      form := EmptyForm;
    }
  }
}
