/** The finance page: the commission of 5 per ton over all fetched freights,
    the per-day buckets of the current month, the largest bucket value, the
    best day, and the latest movements. */
module Finance {
  import opened Wrappers
  import opened Rows
  import opened Seqs
  import opened Calendar

  /** A fetched freight with its driver's name. `date` is the loading date as
      the `Date` built from it reads back; `None` is an invalid date. */
  datatype FinanceRow = FinanceRow(
    id: string,
    weight_loaded: Option<real>,
    status: Option<FreightStatus>,
    date: Option<CalendarDate>,
    product: string,
    origin: Option<string>,
    destination: string,
    driverName: Option<string>)

  const CommissionPerTon: real := 5.0

  /** A freight's weight, a missing weight counting as 0. */
  function WeightOf(f: FinanceRow): real {
    f.weight_loaded.GetOr(0.0)
  }

  /** The sum of the freights' weights. */
  function TotalWeight(rows: seq<FinanceRow>): real {
    if rows == [] then 0.0 else WeightOf(rows[0]) + TotalWeight(rows[1..])
  }

  lemma {:induction false} TotalWeightAppend(a: seq<FinanceRow>, b: seq<FinanceRow>)
    ensures TotalWeight(a + b) == TotalWeight(a) + TotalWeight(b)
  {
    if a == [] {
      assert a + b == b;
    } else {
      assert (a + b)[1..] == a[1..] + b;
      TotalWeightAppend(a[1..], b);
    }
  }

  lemma {:induction false} TotalWeightNonNegative(rows: seq<FinanceRow>)
    requires forall i :: 0 <= i < |rows| ==> WeightOf(rows[i]) >= 0.0
    ensures TotalWeight(rows) >= 0.0
  {
    if rows != [] {
      TotalWeightNonNegative(rows[1..]);
    }
  }

  /** The freight's date falls in the month and year of `today`. */
  predicate InMonth(f: FinanceRow, today: CalendarDate) {
    f.date.Some? && f.date.value.month == today.month && f.date.value.year == today.year
  }

  datatype DayStat = DayStat(day: int, value: real, count: int)

  /** The seed of the best-day reduction. */
  const NoDay := DayStat(0, 0.0, 0)

  /** `n` empty buckets, bucket `i` standing for day `i + 1`. */
  function InitialBuckets(n: nat): (b: seq<DayStat>)
    ensures |b| == n
    ensures forall i :: 0 <= i < n ==> b[i] == DayStat(i + 1, 0.0, 0)
  {
    seq(n, i => DayStat(i + 1, 0.0, 0))
  }

  /** One step of the `forEach`: a current-month freight whose bucket exists
      adds its commission and one trip to that bucket. */
  function AddFreight(b: seq<DayStat>, f: FinanceRow, today: CalendarDate): (r: seq<DayStat>)
    ensures |r| == |b|
  {
    if InMonth(f, today) && 0 <= f.date.value.day - 1 < |b| then
      var k := f.date.value.day - 1;
      b[k := DayStat(b[k].day, b[k].value + WeightOf(f) * CommissionPerTon, b[k].count + 1)]
    else b
  }

  /** The buckets after the `forEach` has visited every row, in order. */
  function Buckets(rows: seq<FinanceRow>, today: CalendarDate): (b: seq<DayStat>)
    requires 0 <= today.month < 12
    ensures |b| == DaysInMonth(today.year, today.month)
  {
    if rows == [] then InitialBuckets(DaysInMonth(today.year, today.month))
    else AddFreight(Buckets(rows[..|rows| - 1], today), rows[|rows| - 1], today)
  }

  /** Builds the month's buckets in an array and updates them in place, one
      fetched freight at a time. */
  method AggregateDaily(rows: seq<FinanceRow>, today: CalendarDate) returns (daily: array<DayStat>)
    requires 0 <= today.month < 12
    ensures daily[..] == Buckets(rows, today)
  {
    var n := DaysInMonth(today.year, today.month);
    daily := new DayStat[n](i => DayStat(i + 1, 0.0, 0));
    assert daily[..] == InitialBuckets(n);
    for k := 0 to |rows|
      invariant daily.Length == n
      invariant daily[..] == Buckets(rows[..k], today)
    {
      assert rows[..k + 1][..k] == rows[..k];
      var f := rows[k];
      if InMonth(f, today) {
        var dayIndex := f.date.value.day - 1;
        if 0 <= dayIndex < daily.Length {
          daily[dayIndex] := DayStat(daily[dayIndex].day, daily[dayIndex].value + WeightOf(f) * CommissionPerTon, daily[dayIndex].count + 1);
        }
      }
    }
    assert rows[..|rows|] == rows;
  }

  /** The current-month freights, in fetched order. */
  function MonthRows(rows: seq<FinanceRow>, today: CalendarDate): seq<FinanceRow> {
    Filter(rows, f => InMonth(f, today))
  }

  /** The current-month freights dated on day `d`. */
  function DayRows(rows: seq<FinanceRow>, today: CalendarDate, d: int): seq<FinanceRow> {
    Filter(rows, f => InMonth(f, today) && f.date.value.day == d)
  }

  /** One visited freight changes bucket `i` only when dated that day. */
  lemma AddFreightAt(b: seq<DayStat>, f: FinanceRow, today: CalendarDate, i: int)
    requires 0 <= i < |b|
    ensures AddFreight(b, f, today)[i] ==
      if InMonth(f, today) && f.date.value.day == i + 1
      then DayStat(b[i].day, b[i].value + WeightOf(f) * CommissionPerTon, b[i].count + 1)
      else b[i]
  {
  }

  /** Bucket `i` is day `i + 1` and holds the commission and the number of
      the current-month freights dated that day. */
  lemma {:induction false} BucketContents(rows: seq<FinanceRow>, today: CalendarDate, i: int)
    requires 0 <= today.month < 12
    requires 0 <= i < DaysInMonth(today.year, today.month)
    ensures Buckets(rows, today)[i].day == i + 1
    ensures Buckets(rows, today)[i].count == |DayRows(rows, today, i + 1)|
    ensures Buckets(rows, today)[i].value == CommissionPerTon * TotalWeight(DayRows(rows, today, i + 1))
  {
    if rows != [] {
      var init, last := rows[..|rows| - 1], rows[|rows| - 1];
      assert rows == init + [last];
      BucketContents(init, today, i);
      AddFreightAt(Buckets(init, today), last, today, i);
      var p := (f: FinanceRow) => InMonth(f, today) && f.date.value.day == i + 1;
      FilterConcat(init, [last], p);
      assert Filter([last], p) == if p(last) then [last] else [];
      TotalWeightAppend(Filter(init, p), Filter([last], p));
    }
  }

  function SumCounts(b: seq<DayStat>): int {
    if b == [] then 0 else b[0].count + SumCounts(b[1..])
  }

  function SumValues(b: seq<DayStat>): real {
    if b == [] then 0.0 else b[0].value + SumValues(b[1..])
  }

  lemma {:induction false} SumsOfUpdate(b: seq<DayStat>, k: int, s: DayStat)
    requires 0 <= k < |b|
    ensures SumCounts(b[k := s]) == SumCounts(b) - b[k].count + s.count
    ensures SumValues(b[k := s]) == SumValues(b) - b[k].value + s.value
  {
    if k > 0 {
      assert b[k := s][1..] == b[1..][k - 1 := s];
      SumsOfUpdate(b[1..], k - 1, s);
    } else {
      assert b[k := s][1..] == b[1..];
    }
  }

  /** Every fetched date is one a `Date` object can hold. */
  ghost predicate DatesValid(rows: seq<FinanceRow>) {
    forall i :: 0 <= i < |rows| && rows[i].date.Some? ==> ValidDate(rows[i].date.value)
  }

  /** The bounds guard never drops a current-month freight with a real date. */
  lemma GuardNeverRejects(f: FinanceRow, today: CalendarDate)
    requires 0 <= today.month < 12
    requires InMonth(f, today) && ValidDate(f.date.value)
    ensures 0 <= f.date.value.day - 1 < |Buckets([], today)|
  {
  }

  /** One visited freight adds one trip and its commission to the totals
      exactly when it is a current-month freight. */
  lemma AddFreightTotals(b: seq<DayStat>, f: FinanceRow, today: CalendarDate)
    requires 0 <= today.month < 12
    requires |b| == DaysInMonth(today.year, today.month)
    requires f.date.Some? ==> ValidDate(f.date.value)
    ensures SumCounts(AddFreight(b, f, today)) == SumCounts(b) + (if InMonth(f, today) then 1 else 0)
    ensures SumValues(AddFreight(b, f, today)) == SumValues(b) + (if InMonth(f, today) then CommissionPerTon * WeightOf(f) else 0.0)
  {
    if InMonth(f, today) {
      GuardNeverRejects(f, today);
      var k := f.date.value.day - 1;
      SumsOfUpdate(b, k, DayStat(b[k].day, b[k].value + WeightOf(f) * CommissionPerTon, b[k].count + 1));
    }
  }

  /** Over all buckets, the trips add up to the number of current-month
      freights and the values to 5 times their weight. */
  lemma {:induction false} BucketTotals(rows: seq<FinanceRow>, today: CalendarDate)
    requires 0 <= today.month < 12
    requires DatesValid(rows)
    ensures SumCounts(Buckets(rows, today)) == |MonthRows(rows, today)|
    ensures SumValues(Buckets(rows, today)) == CommissionPerTon * TotalWeight(MonthRows(rows, today))
  {
    if rows == [] {
      ZeroSums(InitialBuckets(DaysInMonth(today.year, today.month)));
    } else {
      var init, last := rows[..|rows| - 1], rows[|rows| - 1];
      assert rows == init + [last];
      assert DatesValid(init) by {
        forall i | 0 <= i < |init| && init[i].date.Some? ensures ValidDate(init[i].date.value) {
          assert init[i] == rows[i];
        }
      }
      BucketTotals(init, today);
      AddFreightTotals(Buckets(init, today), last, today);
      var p := (f: FinanceRow) => InMonth(f, today);
      FilterConcat(init, [last], p);
      assert Filter([last], p) == if p(last) then [last] else [];
      TotalWeightAppend(Filter(init, p), Filter([last], p));
    }
  }

  lemma {:induction false} ZeroSums(b: seq<DayStat>)
    requires forall i :: 0 <= i < |b| ==> b[i].count == 0 && b[i].value == 0.0
    ensures SumCounts(b) == 0 && SumValues(b) == 0.0
  {
    if b != [] {
      ZeroSums(b[1..]);
    }
  }

  function Max(a: real, b: real): real { if a >= b then a else b }

  /** The largest bucket value, never below 1 (it scales the chart). */
  function MaxDailyValue(b: seq<DayStat>): (r: real)
    ensures r >= 1.0
    ensures forall i :: 0 <= i < |b| ==> b[i].value <= r
    ensures r == 1.0 || exists i :: 0 <= i < |b| && b[i].value == r
  {
    if b == [] then 1.0
    else
      var rest := MaxDailyValue(b[1..]);
      assert forall i :: 1 <= i < |b| ==> b[i] == b[1..][i - 1];
      Max(b[0].value, rest)
  }

  /** The reducer: keeps the earlier bucket only when strictly larger. */
  function Better(prev: DayStat, current: DayStat): DayStat {
    if prev.value > current.value then prev else current
  }

  /** The buckets reduced by `Better`, starting from the empty day-0 bucket. */
  function BestDay(b: seq<DayStat>): (r: DayStat)
    ensures r.value >= 0.0
    ensures forall i :: 0 <= i < |b| ==> b[i].value <= r.value
    ensures r == NoDay || r in b
  {
    if b == [] then NoDay
    else
      var prev := BestDay(b[..|b| - 1]);
      assert forall i :: 0 <= i < |b| - 1 ==> b[i] == b[..|b| - 1][i];
      Better(prev, b[|b| - 1])
  }

  /** With no negative bucket, the best day is a bucket of maximal value and
      every later bucket is strictly smaller: ties go to the later day. */
  lemma {:induction false} BestDayTieGoesLater(b: seq<DayStat>)
    requires |b| > 0
    requires forall i :: 0 <= i < |b| ==> b[i].value >= 0.0
    ensures exists j :: 0 <= j < |b| && b[j] == BestDay(b) && forall i :: j < i < |b| ==> b[i].value < b[j].value
  {
    var last := |b| - 1;
    var init := b[..last];
    var prev := BestDay(init);
    assert BestDay(b) == Better(prev, b[last]);
    assert last == 0 ==> init == [];
    if prev.value > b[last].value {
      assert last > 0;
      assert forall i :: 0 <= i < last ==> init[i] == b[i];
      BestDayTieGoesLater(init);
      var j :| 0 <= j < last && init[j] == prev && forall i :: j < i < last ==> init[i].value < init[j].value;
      assert b[j] == BestDay(b);
      assert forall i :: j < i < |b| ==> b[i].value < b[j].value;
    } else {
      assert b[last] == BestDay(b);
    }
  }

  /** A month without activity has its last day as best day. */
  lemma {:induction false} QuietMonthBestDayIsLast(b: seq<DayStat>)
    requires |b| > 0
    requires forall i :: 0 <= i < |b| ==> b[i].value == 0.0
    ensures BestDay(b) == b[|b| - 1]
  {
  }

  /** The first five movements, in fetched order. */
  function LatestMovements(rows: seq<FinanceRow>): (r: seq<FinanceRow>)
    ensures |r| == if |rows| < 5 then |rows| else 5
    ensures r <= rows
  {
    if |rows| < 5 then rows else rows[..5]
  }

  ghost predicate DaysAscending(b: seq<DayStat>) {
    forall i, j :: 0 <= i < j < |b| ==> b[i].day < b[j].day
  }

  ghost predicate DaysDescending(b: seq<DayStat>) {
    forall i, j :: 0 <= i < j < |b| ==> b[i].day > b[j].day
  }

  lemma DaysAscendingTail(b: seq<DayStat>)
    requires DaysAscending(b) && b != []
    ensures DaysAscending(b[1..])
    ensures forall x :: x in b[1..] ==> b[0].day < x.day
  {
    forall i, j | 0 <= i < j < |b[1..]| ensures b[1..][i].day < b[1..][j].day {
      assert b[1..][i] == b[i + 1] && b[1..][j] == b[j + 1];
    }
  }

  lemma DaysAscendingCons(x: DayStat, rest: seq<DayStat>)
    requires DaysAscending(rest)
    requires forall y :: y in rest ==> x.day < y.day
    ensures DaysAscending([x] + rest)
  {
    var r := [x] + rest;
    forall i, j | 0 <= i < j < |r| ensures r[i].day < r[j].day {
      assert r[j] == rest[j - 1];
      if i > 0 { assert r[i] == rest[i - 1]; }
    }
  }

  lemma {:induction false} FilterKeepsAscending(b: seq<DayStat>, p: DayStat -> bool)
    requires DaysAscending(b)
    ensures DaysAscending(Filter(b, p))
  {
    if b != [] {
      DaysAscendingTail(b);
      FilterKeepsAscending(b[1..], p);
      if p(b[0]) {
        DaysAscendingCons(b[0], Filter(b[1..], p));
      }
    }
  }

  /** The daily list: the buckets with a positive value, most recent day first. */
  function DailyList(b: seq<DayStat>): (r: seq<DayStat>)
    ensures forall s :: s in r <==> s in b && s.value > 0.0
    ensures forall s :: multiset(r)[s] == if s.value > 0.0 then multiset(b)[s] else 0
  {
    var kept := Filter(b, (s: DayStat) => s.value > 0.0);
    var r := Reverse(kept);
    assert forall s :: s in r <==> s in kept by {
      forall s | s in kept ensures s in r {
        var k :| 0 <= k < |kept| && kept[k] == s;
        assert r[|kept| - 1 - k] == s;
      }
    }
    r
  }

  /** Over day-ascending buckets the daily list is ordered by day descending,
      which is the order the page sorts it into (latest day first). */
  lemma DailyListDescending(b: seq<DayStat>)
    requires DaysAscending(b)
    ensures DaysDescending(DailyList(b))
  {
    FilterKeepsAscending(b, (s: DayStat) => s.value > 0.0);
  }

  /** The month's buckets are day-ascending, so the lemma above applies to them. */
  lemma BucketsAscending(rows: seq<FinanceRow>, today: CalendarDate)
    requires 0 <= today.month < 12
    ensures DaysAscending(Buckets(rows, today))
  {
    forall i | 0 <= i < |Buckets(rows, today)| ensures Buckets(rows, today)[i].day == i + 1 {
      BucketContents(rows, today, i);
    }
  }

  datatype Summary = Summary(
    totalRevenue: real,
    totalReceipts: real,
    totalPending: real,
    profitMargin: real,
    dailyStats: seq<DayStat>,
    maxDailyValue: real,
    bestDay: DayStat,
    totalTrucks: nat)

  const InitialSummary := Summary(0.0, 0.0, 0.0, 0.0, [], 1.0, NoDay, 0)

  /** Everything the page derives from one fetch. */
  method ComputeSummary(rows: seq<FinanceRow>, today: CalendarDate) returns (s: Summary, movements: seq<FinanceRow>)
    requires 0 <= today.month < 12
    ensures s.totalRevenue == CommissionPerTon * TotalWeight(rows)
    ensures s.totalReceipts == 0.0 && s.totalPending == 0.0 && s.profitMargin == 0.0
    ensures s.dailyStats == Buckets(rows, today)
    ensures s.maxDailyValue == MaxDailyValue(s.dailyStats)
    ensures s.bestDay == BestDay(s.dailyStats)
    ensures s.totalTrucks == |rows|
    ensures movements == LatestMovements(rows)
  {
    var totalWeight := TotalWeight(rows);
    var daily := AggregateDaily(rows, today);
    var stats := daily[..];
    s := Summary(totalWeight * CommissionPerTon, 0.0, 0.0, 0.0, stats, MaxDailyValue(stats), BestDay(stats), |rows|);
    movements := LatestMovements(rows);
  }

  class FinancePage {
    var summary: Summary
    var transactions: seq<FinanceRow>
    var loading: bool

    constructor ()
      ensures summary == InitialSummary && transactions == [] && loading
    {
      summary, transactions, loading := InitialSummary, [], true;
    }

    /** Applies a fetch: an error or a null result keeps what is shown. */
    method FetchFinanceData(fetchFailed: bool, data: Option<seq<FinanceRow>>, today: CalendarDate)
      requires 0 <= today.month < 12
      modifies this
      ensures !loading
      ensures fetchFailed || data.None? ==> summary == old(summary) && transactions == old(transactions)
      ensures !fetchFailed && data.Some? ==>
        && summary.totalRevenue == CommissionPerTon * TotalWeight(data.value)
        && summary.totalReceipts == 0.0 && summary.totalPending == 0.0 && summary.profitMargin == 0.0
        && summary.dailyStats == Buckets(data.value, today)
        && summary.maxDailyValue == MaxDailyValue(summary.dailyStats)
        && summary.bestDay == BestDay(summary.dailyStats)
        && summary.totalTrucks == |data.value|
        && transactions == LatestMovements(data.value)
    {
      if !fetchFailed && data.Some? {
        summary, transactions := ComputeSummary(data.value, today);
      }
      loading := false;
    }
  }
}
