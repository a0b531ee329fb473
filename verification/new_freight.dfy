/** The new-freight dialog: the derived sacks and total, the row it inserts,
    the driver it marks as travelling, and the form reset. */
module NewFreight {
  import opened Wrappers
  import opened Rows
  import opened Tables

  datatype FreightForm = FreightForm(
    date: string,
    product: string,
    driver_id: string,
    destination: string,
    weightLoaded: real,
    unitPrice: real)

  datatype Calculations = Calculations(sacksAmount: real, totalValue: real)

  /** Kilograms in one sack. */
  const SackWeight: real := 60.0

  const SaveErrorAlert := "Erro ao salvar frete"

  /** The form as the dialog opens and after a save: today's date, soy, no
      driver, no destination, zero weight and price. */
  function DefaultForm(today: string): (f: FreightForm)
    ensures f.date == today && f.product == "SOJA" && f.driver_id == "" && f.destination == ""
    ensures f.weightLoaded == 0.0 && f.unitPrice == 0.0
  {
    FreightForm(today, "SOJA", "", "", 0.0, 0.0)
  }

  /** A typed amount: an unparsable input (`None`) counts as 0. */
  function ParseAmount(parsed: Option<real>): (r: real)
    ensures parsed.None? ==> r == 0.0
    ensures parsed.Some? ==> r == parsed.value
  {
    parsed.GetOr(0.0)
  }

  function WithWeightInput(f: FreightForm, parsed: Option<real>): (r: FreightForm)
    ensures r.weightLoaded == ParseAmount(parsed)
    ensures r.(weightLoaded := f.weightLoaded) == f
  {
    f.(weightLoaded := ParseAmount(parsed))
  }

  function WithPriceInput(f: FreightForm, parsed: Option<real>): (r: FreightForm)
    ensures r.unitPrice == ParseAmount(parsed)
    ensures r.(unitPrice := f.unitPrice) == f
  {
    f.(unitPrice := ParseAmount(parsed))
  }

  /** sacks = weight / 60 and total = sacks * unit price. */
  function Calculate(f: FreightForm): (c: Calculations)
    ensures c.sacksAmount * SackWeight == f.weightLoaded
    ensures c.totalValue * SackWeight == f.weightLoaded * f.unitPrice
    ensures f.weightLoaded >= 0.0 && f.unitPrice >= 0.0 ==> c.sacksAmount >= 0.0 && c.totalValue >= 0.0
  {
    var sacks := f.weightLoaded / SackWeight;
    Calculations(sacks, sacks * f.unitPrice)
  }

  /** The row the backend stores for a submitted form; `id` and `createdAt`
      are the values the backend generates. */
  function NewFreightRow(f: FreightForm, userId: string, id: string, createdAt: string): (r: FreightRow)
    ensures r.id == id && r.user_id == userId && r.created_at == Some(createdAt)
    ensures r.date == f.date && r.product == f.product && r.destination == f.destination
    ensures r.weight_loaded == f.weightLoaded && r.unit_price == f.unitPrice
    ensures r.sacks_amount == Some(Calculate(f).sacksAmount) && r.total_value == Calculate(f).totalValue
    ensures r.weight_sack == Some(SackWeight) && r.status == Some(EmTransito)
    ensures r.driver_id == (if f.driver_id == "" then None else Some(f.driver_id))
    ensures r.discharge_date.None? && r.invoice_number.None? && r.origin.None?
    ensures r.receipts.None? && r.to_receive.None?
  {
    var c := Calculate(f);
    FreightRow(
      created_at := Some(createdAt),
      date := f.date,
      destination := f.destination,
      discharge_date := None,
      driver_id := if f.driver_id == "" then None else Some(f.driver_id),
      id := id,
      invoice_number := None,
      origin := None,
      product := f.product,
      receipts := None,
      sacks_amount := Some(c.sacksAmount),
      status := Some(EmTransito),
      to_receive := None,
      total_value := c.totalValue,
      unit_price := f.unitPrice,
      user_id := userId,
      weight_loaded := f.weightLoaded,
      weight_sack := Some(SackWeight))
  }

  class NewFreightModal {
    const db: Database
    var form: FreightForm
    var saved: bool
    var alerts: seq<string>

    constructor (db: Database, today: string)
      ensures this.db == db && form == DefaultForm(today) && !saved && alerts == []
    {
      this.db := db;
      form := DefaultForm(today);
      saved := false;
      alerts := [];
    }

    /** Submits the form: nothing without a signed-in user; otherwise inserts
        the freight and, only when that succeeded and a driver was chosen,
        marks the driver as travelling (that write's error is not looked
        at), reports the save and resets the form. A failed insert keeps the
        form. */
    method HandleSubmit(user: Option<string>, newId: string, createdAt: string, today: string,
                        insertFailed: bool, driverUpdateFailed: bool)
      requires db.Valid()
      modifies this, db
      ensures db.Valid()
      ensures user.None? ==>
        && form == old(form) && saved == old(saved) && alerts == old(alerts)
        && db.freights == old(db.freights) && db.drivers == old(db.drivers) && db.log == old(db.log)
      ensures user.Some? ==>
        var row := NewFreightRow(old(form), user.value, newId, createdAt);
        var error := insertFailed || newId in old(db.freights)
                     || (row.driver_id.Some? && row.driver_id.value !in old(db.drivers));
        && (error ==>
              && form == old(form) && saved == old(saved) && alerts == old(alerts) + [SaveErrorAlert]
              && db.freights == old(db.freights) && db.drivers == old(db.drivers)
              && db.log == old(db.log) + [FreightInsertion(row)])
        && (!error ==>
              && form == DefaultForm(today) && saved && alerts == old(alerts)
              && db.freights == old(db.freights)[newId := row]
              && db.drivers == (if old(form).driver_id != "" && !driverUpdateFailed
                                then WithDriverStatus(old(db.drivers), old(form).driver_id, EmViagem)
                                else old(db.drivers))
              && db.log == old(db.log) + [FreightInsertion(row)]
                           + (if old(form).driver_id != "" then [DriverStatusUpdate(old(form).driver_id, EmViagem)] else []))
    {
      if user.None? {
        return;
      }
      var row := NewFreightRow(form, user.value, newId, createdAt);
      var error := db.InsertFreight(row, insertFailed);
      if error {
        alerts := alerts + [SaveErrorAlert];
        return;
      }
      if form.driver_id != "" {
        var _ := db.UpdateDriverStatus(form.driver_id, EmViagem, driverUpdateFailed);
      }
      saved := true;
      form := DefaultForm(today);
    }
  }
}
