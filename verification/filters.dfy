/** The draft state of the freight filter dialog and the handlers that
    rebuild it: status toggling, clearing, and product and driver choice. */
module FreightFilters {
  import opened Seqs
  import opened Text

  datatype FilterState = FilterState(
    startDate: string,
    endDate: string,
    status: seq<string>,
    driverId: string,
    product: string)

  /** Empty dates, no status, every driver and every product. */
  const InitialFilters := FilterState("", "", [], "", "")

  const AllProductsLabel := "Todos os produtos"

  ghost predicate NoDuplicates(xs: seq<string>) {
    forall i, j :: 0 <= i < j < |xs| ==> xs[i] != xs[j]
  }

  /** Every copy of `x` removed; the other entries keep their order. */
  function RemoveAll(xs: seq<string>, x: string): (r: seq<string>)
    ensures x !in r
    ensures forall y :: y != x ==> (y in r <==> y in xs)
    ensures forall y :: multiset(r)[y] == if y == x then 0 else multiset(xs)[y]
    ensures IsSubsequence(r, xs)
  {
    FilterIsSubsequence(xs, y => y != x);
    Filter(xs, y => y != x)
  }

  /** Removing a value that is absent changes nothing. */
  lemma RemoveAbsent(xs: seq<string>, x: string)
    requires x !in xs
    ensures RemoveAll(xs, x) == xs
  {
    FilterKeepsAll(xs, y => y != x);
  }

  /** Adds `s` to the chosen statuses when absent (at the end), removes every
      copy of it when present; nothing else in the draft changes. */
  function ToggleStatus(f: FilterState, s: string): (r: FilterState)
    ensures s in r.status <==> s !in f.status
    ensures s !in f.status ==> r.status == f.status + [s]
    ensures s in f.status ==> r.status == RemoveAll(f.status, s)
    ensures r.startDate == f.startDate && r.endDate == f.endDate
    ensures r.driverId == f.driverId && r.product == f.product
  {
    f.(status := if s in f.status then RemoveAll(f.status, s) else f.status + [s])
  }

  /** Toggling keeps every other status, and the order among them. */
  lemma {:induction false} ToggleKeepsOtherStatuses(f: FilterState, s: string)
    ensures RemoveAll(ToggleStatus(f, s).status, s) == RemoveAll(f.status, s)
  {
    if s in f.status {
      FilterIdempotent(f.status, y => y != s);
    } else {
      FilterConcat(f.status, [s], y => y != s);
      assert Filter([s], y => y != s) == [];
    }
  }

  /** Toggling an absent status twice gives back the draft it started from. */
  lemma {:induction false} ToggleTwiceRestores(f: FilterState, s: string)
    requires s !in f.status
    ensures ToggleStatus(ToggleStatus(f, s), s) == f
  {
    FilterConcat(f.status, [s], y => y != s);
    assert Filter([s], y => y != s) == [];
    RemoveAbsent(f.status, s);
  }

  lemma {:induction false} SubsequenceKeepsNoDuplicates(r: seq<string>, xs: seq<string>)
    requires IsSubsequence(r, xs) && NoDuplicates(xs)
    ensures NoDuplicates(r)
    decreases |xs|
  {
    if r != [] && xs != [] {
      assert NoDuplicates(xs[1..]);
      if r[0] == xs[0] && IsSubsequence(r[1..], xs[1..]) {
        SubsequenceKeepsNoDuplicates(r[1..], xs[1..]);
        SubsequenceMembers(r[1..], xs[1..]);
        forall j | 0 < j < |r| ensures r[0] != r[j] {
          assert r[j] == r[1..][j - 1] && r[j] in r[1..];
          var k :| 0 <= k < |xs[1..]| && xs[1..][k] == r[j];
          assert xs[0] != xs[k + 1];
        }
      } else {
        SubsequenceKeepsNoDuplicates(r, xs[1..]);
      }
    }
  }

  lemma {:induction false} SubsequenceMembers(r: seq<string>, xs: seq<string>)
    requires IsSubsequence(r, xs)
    ensures forall y :: y in r ==> y in xs
    decreases |xs|
  {
    if r != [] && xs != [] {
      if r[0] == xs[0] && IsSubsequence(r[1..], xs[1..]) {
        SubsequenceMembers(r[1..], xs[1..]);
        assert r == [r[0]] + r[1..];
      } else {
        SubsequenceMembers(r, xs[1..]);
      }
    }
  }

  /** A draft without repeated statuses keeps none after a toggle. */
  lemma ToggleKeepsNoDuplicates(f: FilterState, s: string)
    requires NoDuplicates(f.status)
    ensures NoDuplicates(ToggleStatus(f, s).status)
  {
    if s in f.status {
      SubsequenceKeepsNoDuplicates(RemoveAll(f.status, s), f.status);
    }
  }

  /** "Limpar": the draft and the filters handed to the page both become the
      initial filters. */
  function HandleClear(draft: FilterState): (r: (FilterState, FilterState))
    ensures r.0 == r.1
    ensures r.0.startDate == "" && r.0.endDate == "" && r.0.status == []
    ensures r.0.driverId == "" && r.0.product == ""
  {
    (InitialFilters, InitialFilters)
  }

  /** Choosing a product; the empty string is "Todos os produtos". */
  function SelectProduct(f: FilterState, product: string): (r: FilterState)
    ensures r.product == product
    ensures r.startDate == f.startDate && r.endDate == f.endDate
    ensures r.status == f.status && r.driverId == f.driverId
  {
    f.(product := product)
  }

  /** Choosing a driver; the empty string is "Todos os motoristas". */
  function SelectDriver(f: FilterState, driverId: string): (r: FilterState)
    ensures r.driverId == driverId
    ensures r.startDate == f.startDate && r.endDate == f.endDate
    ensures r.status == f.status && r.product == f.product
  {
    f.(driverId := driverId)
  }

  /** First character upper-cased, the rest lower-cased. */
  function Capitalize(s: string): (r: string)
    ensures |r| == |s|
    ensures |s| > 0 ==> r[0] == UpperChar(s[0])
    ensures forall i :: 1 <= i < |s| ==> r[i] == LowerChar(s[i])
  {
    if s == [] then [] else [UpperChar(s[0])] + Lower(s[1..])
  }

  /** The text on the product button. */
  function ProductLabel(product: string): (r: string)
    ensures product == "" ==> r == AllProductsLabel
    ensures product != "" ==> r == Capitalize(product)
  {
    if product == "" then AllProductsLabel else Capitalize(product)
  }

  /** The three product codes show as "Soja", "Milho" and "Sorgo". */
  lemma ProductLabels()
    ensures ProductLabel("SOJA") == "Soja"
    ensures ProductLabel("MILHO") == "Milho"
    ensures ProductLabel("SORGO") == "Sorgo"
  {
    assert Capitalize("SOJA") == "Soja";
    assert Capitalize("MILHO") == "Milho";
    assert Capitalize("SORGO") == "Sorgo";
  }
}
