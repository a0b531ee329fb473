/** The dashboard counters over all freights and the status badge of the
    recent freights. */
module Dashboard {
  import opened Wrappers
  import opened Rows
  import opened Seqs
  import opened Text

  /** A fetched freight, reduced to its total value and its status. */
  datatype RevenueRow = RevenueRow(total_value: Option<real>, status: Option<FreightStatus>)

  /** The four counters, as numbers; the page turns them into text. */
  datatype Stats = Stats(trips: nat, revenue: real, drivers: nat, pending: nat)

  const InitialStats := Stats(0, 0.0, 0, 0)

  /** The sum of the freights' total values, a missing value counting as 0. */
  function TotalRevenue(rows: seq<RevenueRow>): real {
    if rows == [] then 0.0 else rows[0].total_value.GetOr(0.0) + TotalRevenue(rows[1..])
  }

  predicate IsPending(r: RevenueRow) {
    r.status != Some(Pago)
  }

  /** The number of freights not yet paid; a missing status counts as pending. */
  function PendingCount(rows: seq<RevenueRow>): (n: nat)
    ensures n <= |rows|
  {
    |Filter(rows, IsPending)|
  }

  /** An independent count of the paid freights. */
  function PaidCount(rows: seq<RevenueRow>): nat {
    if rows == [] then 0 else (if rows[0].status == Some(Pago) then 1 else 0) + PaidCount(rows[1..])
  }

  /** Every freight is either paid or pending, so the two counts add up to
      the number of trips. */
  lemma {:induction false} PendingPlusPaid(rows: seq<RevenueRow>)
    ensures PendingCount(rows) + PaidCount(rows) == |rows|
  {
    if rows != [] {
      PendingPlusPaid(rows[1..]);
    }
  }

  lemma {:induction false} TotalRevenueAppend(a: seq<RevenueRow>, b: seq<RevenueRow>)
    ensures TotalRevenue(a + b) == TotalRevenue(a) + TotalRevenue(b)
  {
    if a == [] {
      assert a + b == b;
    } else {
      assert (a + b)[1..] == a[1..] + b;
      TotalRevenueAppend(a[1..], b);
    }
  }

  /** The stats are replaced only when the all-freights query returned rows;
      a missing driver count shows as 0. */
  function UpdateStats(current: Stats, allFreights: Option<seq<RevenueRow>>, driversCount: Option<nat>): (r: Stats)
    ensures allFreights.None? ==> r == current
    ensures allFreights.Some? ==>
      && r.trips == |allFreights.value|
      && r.revenue == TotalRevenue(allFreights.value)
      && r.pending == PendingCount(allFreights.value) <= r.trips
      && r.drivers == (if driversCount.Some? then driversCount.value else 0)
  {
    match allFreights
    case None => current
    case Some(rows) => Stats(|rows|, TotalRevenue(rows), driversCount.GetOr(0), PendingCount(rows))
  }

  /** The badge text: the status code with its first '_' turned into a
      space, or "Registrado" when there is no status. */
  function StatusBadge(s: Option<FreightStatus>): (r: string)
    ensures s.None? ==> r == "Registrado"
    ensures s.Some? ==> |r| == |StatusCode(s.value)|
    ensures s.Some? ==> forall j :: 0 <= j < |r| && j != IndexOf(StatusCode(s.value), '_') ==> r[j] == StatusCode(s.value)[j]
    ensures s.Some? && '_' in StatusCode(s.value) ==> r[IndexOf(StatusCode(s.value), '_')] == ' '
  {
    match s
    case None => "Registrado"
    case Some(st) => ReplaceFirst(StatusCode(st), '_', ' ')
  }

  /** The in-transit badge reads "EM TRANSITO". */
  lemma StatusBadgeInTransit()
    ensures StatusBadge(Some(EmTransito)) == "EM TRANSITO"
  {
    var t := "EM_TRANSITO";
    assert t[0] != '_' && t[1] != '_' && t[2] == '_';
    IndexOfFirst(t, '_', 2);
    assert t[..2] + [' '] + t[3..] == "EM TRANSITO";
  }

  /** A code without '_' shows unchanged. */
  lemma StatusBadgePaid()
    ensures StatusBadge(Some(Pago)) == "PAGO"
  {
    var t := "PAGO";
    assert forall j :: 0 <= j < |t| ==> t[j] != '_';
  }
}
