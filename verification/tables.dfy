/** The backend's `freights` and `drivers` tables as in-memory maps keyed by
    row id, the writes the pages issue against them, and the foreign key from
    `freights.driver_id` to `drivers.id` that the backend enforces. */
module Tables {
  import opened Wrappers
  import opened Rows

  type FreightTable = map<string, FreightRow>
  type DriverTable = map<string, DriverRow>

  /** A write request as issued to the backend, whatever its outcome. */
  datatype Request =
    | FreightStatusUpdate(freightId: string, freightStatus: FreightStatus)
    | DriverStatusUpdate(driverId: string, driverStatus: DriverStatus)
    | FreightDeletion(freightId: string)
    | DriverDeletion(driverId: string)
    | FreightInsertion(freight: FreightRow)
    | DriverInsertion(driver: DriverRow)

  /** Every row is stored under its own id and every freight's driver exists. */
  ghost predicate Consistent(freights: FreightTable, drivers: DriverTable) {
    && (forall k :: k in freights ==> freights[k].id == k)
    && (forall k :: k in drivers ==> drivers[k].id == k)
    && (forall k :: k in freights && freights[k].driver_id.Some? ==> freights[k].driver_id.value in drivers)
  }

  /** Some freight row points at the driver (the foreign key blocks its deletion). */
  predicate Referenced(freights: FreightTable, driverId: string) {
    exists k | k in freights :: freights[k].driver_id == Some(driverId)
  }

  /** The freight with key `id` gets status `s`; a missing id matches no row. */
  function WithFreightStatus(t: FreightTable, id: string, s: FreightStatus): (r: FreightTable)
    ensures r.Keys == t.Keys
    ensures id in t ==> r[id] == t[id].(status := Some(s))
    ensures forall k :: k in t && k != id ==> r[k] == t[k]
  {
    if id in t then t[id := t[id].(status := Some(s))] else t
  }

  /** The driver with key `id` gets status `s`; only that driver's row changes. */
  function WithDriverStatus(t: DriverTable, id: string, s: DriverStatus): (r: DriverTable)
    ensures r.Keys == t.Keys
    ensures id in t ==> r[id] == t[id].(status := Some(s))
    ensures forall k :: k in t && k != id ==> r[k] == t[k]
  {
    if id in t then t[id := t[id].(status := Some(s))] else t
  }

  /** The row with key `id` goes, the others stay. */
  function Without<R>(t: map<string, R>, id: string): (r: map<string, R>)
    ensures r.Keys == t.Keys - {id}
    ensures forall k :: k in r ==> r[k] == t[k]
  {
    t - {id}
  }

  lemma StatusUpdatesKeepConsistent(freights: FreightTable, drivers: DriverTable, fid: string, fs: FreightStatus, did: string, ds: DriverStatus)
    requires Consistent(freights, drivers)
    ensures Consistent(WithFreightStatus(freights, fid, fs), drivers)
    ensures Consistent(freights, WithDriverStatus(drivers, did, ds))
  {
  }

  lemma DeletionsKeepConsistent(freights: FreightTable, drivers: DriverTable, fid: string, did: string)
    requires Consistent(freights, drivers)
    ensures Consistent(Without(freights, fid), drivers)
    ensures !Referenced(freights, did) ==> Consistent(freights, Without(drivers, did))
  {
    if !Referenced(freights, did) {
      forall k | k in freights && freights[k].driver_id.Some?
        ensures freights[k].driver_id.value in Without(drivers, did)
      {
        assert freights[k].driver_id != Some(did);
      }
    }
  }

  class Database {
    var freights: FreightTable
    var drivers: DriverTable
    var log: seq<Request>

    ghost predicate Valid()
      reads this
    {
      Consistent(freights, drivers)
    }

    constructor ()
      ensures Valid() && freights == map[] && drivers == map[] && log == []
    {
      freights, drivers, log := map[], map[], [];
    }

    /** Updates a freight's status; `failed` is the backend's error answer. */
    method UpdateFreightStatus(id: string, s: FreightStatus, failed: bool) returns (error: bool)
      requires Valid()
      modifies this
      ensures Valid() && error == failed
      ensures freights == if failed then old(freights) else WithFreightStatus(old(freights), id, s)
      ensures drivers == old(drivers)
      ensures log == old(log) + [FreightStatusUpdate(id, s)]
    {
      StatusUpdatesKeepConsistent(freights, drivers, id, s, id, Disponivel);
      error := failed;
      if !failed {
        freights := WithFreightStatus(freights, id, s);
      }
      log := log + [FreightStatusUpdate(id, s)];
    }

    method UpdateDriverStatus(id: string, s: DriverStatus, failed: bool) returns (error: bool)
      requires Valid()
      modifies this
      ensures Valid() && error == failed
      ensures drivers == if failed then old(drivers) else WithDriverStatus(old(drivers), id, s)
      ensures freights == old(freights)
      ensures log == old(log) + [DriverStatusUpdate(id, s)]
    {
      StatusUpdatesKeepConsistent(freights, drivers, id, Pago, id, s);
      error := failed;
      if !failed {
        drivers := WithDriverStatus(drivers, id, s);
      }
      log := log + [DriverStatusUpdate(id, s)];
    }

    method DeleteFreight(id: string, failed: bool) returns (error: bool)
      requires Valid()
      modifies this
      ensures Valid() && error == failed
      ensures freights == if failed then old(freights) else Without(old(freights), id)
      ensures drivers == old(drivers)
      ensures log == old(log) + [FreightDeletion(id)]
    {
      DeletionsKeepConsistent(freights, drivers, id, id);
      error := failed;
      if !failed {
        freights := Without(freights, id);
      }
      log := log + [FreightDeletion(id)];
    }

    /** Deleting a driver that a freight still references violates the
        foreign key, so the backend answers with an error. */
    method DeleteDriver(id: string, failed: bool) returns (error: bool)
      requires Valid()
      modifies this
      ensures Valid() && error == (failed || Referenced(old(freights), id))
      ensures drivers == if error then old(drivers) else Without(old(drivers), id)
      ensures freights == old(freights)
      ensures log == old(log) + [DriverDeletion(id)]
    {
      DeletionsKeepConsistent(freights, drivers, id, id);
      error := failed || Referenced(freights, id);
      if !error {
        drivers := Without(drivers, id);
      }
      log := log + [DriverDeletion(id)];
    }

    /** Inserting a row whose id exists (primary key) or whose driver does not
        (foreign key) fails. */
    method InsertFreight(row: FreightRow, failed: bool) returns (error: bool)
      requires Valid()
      modifies this
      ensures Valid()
      ensures error == (failed || row.id in old(freights) || (row.driver_id.Some? && row.driver_id.value !in old(drivers)))
      ensures freights == if error then old(freights) else old(freights)[row.id := row]
      ensures drivers == old(drivers)
      ensures log == old(log) + [FreightInsertion(row)]
    {
      error := failed || row.id in freights || (row.driver_id.Some? && row.driver_id.value !in drivers);
      if !error {
        freights := freights[row.id := row];
      }
      log := log + [FreightInsertion(row)];
    }

    method InsertDriver(row: DriverRow, failed: bool) returns (error: bool)
      requires Valid()
      modifies this
      ensures Valid()
      ensures error == (failed || row.id in old(drivers))
      ensures drivers == if error then old(drivers) else old(drivers)[row.id := row]
      ensures freights == old(freights)
      ensures log == old(log) + [DriverInsertion(row)]
    {
      error := failed || row.id in drivers;
      if !error {
        drivers := drivers[row.id := row];
      }
      log := log + [DriverInsertion(row)];
    }
  }
}
