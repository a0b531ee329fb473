/** The two rows the backend stores, `drivers` and `freights`, with their
    nullable columns as `Option`s, and the status vocabularies. */
module Rows {
  import opened Wrappers

  /** The five freight statuses the status select offers. */
  datatype FreightStatus = EmTransito | Descarregado | Pago | Atrasado | Agendado

  /** The text stored in the `status` column for a freight status. */
  function StatusCode(s: FreightStatus): (r: string)
    ensures |r| > 0
  {
    match s
    case EmTransito => "EM_TRANSITO"
    case Descarregado => "DESCARREGADO"
    case Pago => "PAGO"
    case Atrasado => "ATRASADO"
    case Agendado => "AGENDADO"
  }

  /** Driver statuses are free text in the backend; the pages write only
      'Disponível' and 'Em Viagem'. */
  datatype DriverStatus = Disponivel | EmViagem | Other(text: string)

  function DriverStatusText(s: DriverStatus): string {
    match s
    case Disponivel => "Disponível"
    case EmViagem => "Em Viagem"
    case Other(t) => t
  }

  datatype DriverRow = DriverRow(
    created_at: Option<string>,
    id: string,
    license_plate: Option<string>,
    name: string,
    phone: Option<string>,
    status: Option<DriverStatus>,
    user_id: string,
    rating: Option<real>)

  datatype FreightRow = FreightRow(
    created_at: Option<string>,
    date: string,
    destination: string,
    discharge_date: Option<string>,
    driver_id: Option<string>,
    id: string,
    invoice_number: Option<string>,
    origin: Option<string>,
    product: string,
    receipts: Option<real>,
    sacks_amount: Option<real>,
    status: Option<FreightStatus>,
    to_receive: Option<real>,
    total_value: real,
    unit_price: real,
    user_id: string,
    weight_loaded: real,
    weight_sack: Option<real>)

  /** JavaScript truthiness of `driver_id`: null and the empty string both
      mean "no driver". */
  predicate HasDriver(f: FreightRow) {
    f.driver_id.Some? && f.driver_id.value != ""
  }
}
