/** The global investor dashboard of src/App.jsx (`GlobalInvestorComparison`): the burden table
    built from the loaded snapshot, its header-driven sort, the insight cards, and the
    three-band colour of the table cells. */
module Dashboard {
  import opened Tables
  import opened Records
  import opened Display
  import Burden
  import Ordering
  import Scraper
  import TaxEngine

  // ---------------------------------------------------------------------------------------
  // getColorByValue
  // ---------------------------------------------------------------------------------------

  /** `getColorByValue(value, max, reverse)`: bands of value / max below 0.3, below 0.6 and
      from 0.6 up; `reverse` (lower is better) paints the low band green and the high band red,
      otherwise the other way round. */
  function ColorByValue(value: real, max: real, reverse: bool): (c: Colour)
    requires max != 0.0
    ensures c == Emerald || c == Amber || c == Red
    ensures c == Amber <==> 0.3 <= value / max < 0.6
  {
    var normalized := value / max;
    if reverse then
      if normalized < 0.3 then Emerald else if normalized < 0.6 then Amber else Red
    else
      if normalized < 0.3 then Red else if normalized < 0.6 then Amber else Emerald
  }

  /** `reverse` only exchanges the red and green ends; the middle band stays amber. */
  lemma ColorByValueReverse(value: real, max: real)
    requires max != 0.0
    ensures ColorByValue(value, max, true) == SwapEnds(ColorByValue(value, max, false))
  {
  }

  /** How alarming a cell colour is: green 0, amber 1, red 2. */
  function Severity(c: Colour): nat
  {
    match c
    case Emerald => 0
    case Amber => 1
    case Red => 2
    case _ => 1
  }

  /** For a positive maximum, with `reverse` the colour is green exactly below 30 % of the
      maximum and red exactly from 60 % of it. */
  lemma ColorByValueBands(value: real, max: real)
    requires max > 0.0
    ensures ColorByValue(value, max, true) == Emerald <==> value < 0.3 * max
    ensures ColorByValue(value, max, true) == Red <==> value >= 0.6 * max
  {
    DivisionCompares(value, 0.3, max);
    DivisionCompares(value, 0.6, max);
  }

  /** x / m < f exactly when x < f * m, for m > 0. */
  lemma DivisionCompares(x: real, f: real, m: real)
    requires m > 0.0
    ensures x / m < f <==> x < f * m
  {
    assert x == (x / m) * m;
    if x / m < f {
      assert (f - x / m) * m > 0.0;
    } else {
      assert (x / m - f) * m >= 0.0;
    }
  }

  /** For a positive maximum and with `reverse`, a larger value never gets a calmer colour. */
  lemma ColorByValueMonotone(v: real, w: real, max: real)
    requires max > 0.0 && v <= w
    ensures Severity(ColorByValue(v, max, true)) <= Severity(ColorByValue(w, max, true))
  {
    ColorByValueBands(v, max);
    ColorByValueBands(w, max);
  }

  // ---------------------------------------------------------------------------------------
  // burdenData
  // ---------------------------------------------------------------------------------------

  /** One row of the burden table: `{ key, ...jurisdiction, burden }`. */
  datatype Row = Row(key: string, data: JurisdictionRecord, burden: Burden.Breakdown)

  /** The row of one jurisdiction for the investment amount. */
  function RowOf(entry: (string, JurisdictionRecord), amount: real): Row
    requires amount != 0.0
  {
    var j := entry.1;
    Row(entry.0, j, Burden.Compute(amount, j.corporateTax.standard, j.capitalGainsTax, j.dividendTax))
  }

  /** `burdenData`: no rows before the snapshot is loaded; afterwards one row per jurisdiction
      of the snapshot, in the snapshot's order. */
  function BurdenData(taxData: Option<Scraper.Snapshot>, amount: real): (rows: seq<Row>)
    requires amount != 0.0 || taxData.None? || taxData.value.jurisdictions == []
    ensures taxData.None? ==> rows == []
    ensures taxData.Some? ==> |rows| == |taxData.value.jurisdictions|
    ensures taxData.Some? ==> forall i :: 0 <= i < |rows| ==>
      var (key, j) := taxData.value.jurisdictions[i];
      var b := rows[i].burden;
      && rows[i].key == key
      && rows[i].data == j
      && b.corporate == amount * j.corporateTax.standard
      && b.capitalGains == amount * 0.2 * j.capitalGainsTax
      && b.dividends == (amount - b.corporate) * 0.5 * j.dividendTax
      && b.total == b.corporate + b.capitalGains + b.dividends
      && b.effectiveRate == b.total / amount * 100.0
  {
    match taxData
    case None => []
    case Some(d) =>
      seq(|d.jurisdictions|, i requires 0 <= i < |d.jurisdictions| => RowOf(d.jurisdictions[i], amount))
  }

  /** With rates in [0, 1] and a positive amount, every part of every row is non-negative and
      every effective rate lies between the row's corporate rate and 120 %. */
  lemma BurdenDataNonNegative(taxData: Option<Scraper.Snapshot>, amount: real)
    requires amount > 0.0
    requires taxData.Some? ==> TableRatesValid(taxData.value.jurisdictions)
    ensures forall r :: r in BurdenData(taxData, amount) ==>
      && 0.0 <= r.burden.corporate
      && 0.0 <= r.burden.capitalGains
      && 0.0 <= r.burden.dividends
      && 0.0 <= r.burden.total
      && 100.0 * r.data.corporateTax.standard <= r.burden.effectiveRate <= 120.0
  {
    var rows := BurdenData(taxData, amount);
    forall r | r in rows
      ensures && 0.0 <= r.burden.corporate
              && 0.0 <= r.burden.capitalGains
              && 0.0 <= r.burden.dividends
              && 0.0 <= r.burden.total
              && 100.0 * r.data.corporateTax.standard <= r.burden.effectiveRate <= 120.0
    {
      var i :| 0 <= i < |rows| && rows[i] == r;
      var j := taxData.value.jurisdictions[i].1;
      Burden.ComputeBounds(amount, j.corporateTax.standard, j.capitalGainsTax, j.dividendTax);
    }
  }

  /** On the fallback snapshot every row carries exactly the burden that the tax engine's
      `calculateTotalTaxBurden` gives for the same key from its own comparison table. */
  lemma FallbackRowsMatchEngine(snapshot: Scraper.Snapshot, amount: real, i: nat)
    requires amount != 0.0
    requires snapshot.jurisdictions == Scraper.FALLBACK_JURISDICTIONS
    requires i < |snapshot.jurisdictions|
    ensures var row := BurdenData(Some(snapshot), amount)[i];
      TaxEngine.TotalTaxBurden(amount, row.key) == TaxEngine.Computed(row.burden)
  {
    var row := BurdenData(Some(snapshot), amount)[i];
    Scraper.FallbackKeys();
    Scraper.FallbackAgreesWithComparison(i);
    TaxEngine.GlobalKeysDistinct();
    TaxEngine.GlobalKeys();
    LookupAt(TaxEngine.GLOBAL_COMPARISON, i);
    assert row.key == TaxEngine.GLOBAL_KEYS[i];
  }

  // ---------------------------------------------------------------------------------------
  // sortedData and handleSort
  // ---------------------------------------------------------------------------------------

  /** The five sortable columns: 'city', 'corporateTax', 'capitalGainsTax', 'dividendTax' and
      'effectiveRate'. */
  datatype SortKey = ByCity | ByCorporateTax | ByCapitalGainsTax | ByDividendTax | ByEffectiveRate

  datatype Direction = Asc | Desc

  datatype SortConfig = SortConfig(key: SortKey, direction: Direction)

  /** The state the dashboard starts in. */
  const INITIAL_SORT: SortConfig := SortConfig(ByEffectiveRate, Asc)

  /** The numeric column a key selects. */
  function Field(key: SortKey, r: Row): real
    requires key != ByCity
  {
    match key
    case ByCorporateTax => r.data.corporateTax.standard
    case ByCapitalGainsTax => r.data.capitalGainsTax
    case ByDividendTax => r.data.dividendTax
    case ByEffectiveRate => r.burden.effectiveRate
  }

  /** `aVal > bVal` for the selected column (cities compare as strings). */
  predicate Above(key: SortKey, a: Row, b: Row)
  {
    if key == ByCity then Ordering.Less(b.data.city, a.data.city) else Field(key, a) > Field(key, b)
  }

  /** The comparator: ascending returns 1 when a's value is above b's, descending when it is
      below; otherwise (ties included) -1. It never returns 0. */
  function Compare(config: SortConfig, a: Row, b: Row): (c: int)
    ensures c == 1 || c == -1
  {
    if config.direction == Asc then (if Above(config.key, a, b) then 1 else -1)
    else (if Above(config.key, b, a) then 1 else -1)
  }

  /** The comparator lets `a` stay before `b`. */
  predicate InOrder(config: SortConfig, a: Row, b: Row)
  {
    Compare(config, a, b) == -1
  }

  /** Every earlier row may stay before every later one. */
  predicate Sorted(config: SortConfig, s: seq<Row>)
  {
    forall i, j :: 0 <= i < j < |s| ==> InOrder(config, s[i], s[j])
  }

  /** When the comparator wants to swap two rows, the swapped pair is in order. */
  lemma InOrderFlip(config: SortConfig, a: Row, b: Row)
    requires !InOrder(config, a, b)
    ensures InOrder(config, b, a)
  {
    if config.key == ByCity {
      Ordering.LessAsymmetric(a.data.city, b.data.city);
    }
  }

  /** Being in order is transitive. */
  lemma InOrderTransitive(config: SortConfig, a: Row, b: Row, c: Row)
    requires InOrder(config, a, b) && InOrder(config, b, c)
    ensures InOrder(config, a, c)
  {
    if config.key == ByCity {
      if config.direction == Asc {
        Ordering.AtMostTransitive(a.data.city, b.data.city, c.data.city);
      } else {
        Ordering.AtMostTransitive(c.data.city, b.data.city, a.data.city);
      }
    }
  }

  /** What a sorted table means column by column: ascending puts no value above a later one,
      descending puts none below a later one. */
  lemma SortedMeans(config: SortConfig, s: seq<Row>, i: nat, j: nat)
    requires Sorted(config, s)
    requires i < j < |s|
    ensures config.key != ByCity && config.direction == Asc ==>
              Field(config.key, s[i]) <= Field(config.key, s[j])
    ensures config.key != ByCity && config.direction == Desc ==>
              Field(config.key, s[i]) >= Field(config.key, s[j])
    ensures config.key == ByCity && config.direction == Asc ==>
              !Ordering.Less(s[j].data.city, s[i].data.city)
    ensures config.key == ByCity && config.direction == Desc ==>
              !Ordering.Less(s[i].data.city, s[j].data.city)
  {
    assert InOrder(config, s[i], s[j]);
  }

  /** `setSortConfig(prev => ...)` in `handleSort(key)`: the key becomes the clicked one, and
      the direction is descending exactly when that key was already sorted ascending. */
  function NextSortConfig(prev: SortConfig, key: SortKey): (next: SortConfig)
    ensures next.key == key
    ensures next.direction == Desc <==> prev.key == key && prev.direction == Asc
  {
    SortConfig(key, if prev.key == key && prev.direction == Asc then Desc else Asc)
  }

  /** Clicking the same header again and again alternates ascending and descending; clicking
      a new header always starts ascending. */
  lemma HeaderClicksAlternate(prev: SortConfig, key: SortKey)
    ensures prev.key != key ==> NextSortConfig(prev, key) == SortConfig(key, Asc)
    ensures prev.key == key ==> NextSortConfig(prev, key).direction != prev.direction
    ensures NextSortConfig(NextSortConfig(prev, key), key).direction
            != NextSortConfig(prev, key).direction
  {
  }

  /** The dashboard's sort state and its table sort. */
  class InvestorComparison {
    var sortConfig: SortConfig

    constructor()
      ensures sortConfig == INITIAL_SORT
    {
      sortConfig := INITIAL_SORT;
    }

    /** A click on the header of column `key`. */
    method HandleSort(key: SortKey)
      modifies this
      ensures sortConfig == NextSortConfig(old(sortConfig), key)
    {
      sortConfig := NextSortConfig(sortConfig, key);
    }

    /** `sortedData`: a sorted copy of the rows (the rows themselves are left as they are);
        an insertion sort on a fresh array with the dashboard's comparator. */
    method SortedData(burdenData: seq<Row>) returns (sorted: seq<Row>)
      ensures multiset(sorted) == multiset(burdenData)
      ensures Sorted(sortConfig, sorted)
    {
      if |burdenData| == 0 {
        return [];
      }
      var config := sortConfig;
      var a := new Row[|burdenData|](i requires 0 <= i < |burdenData| => burdenData[i]);
      assert a[..] == burdenData;
      var i := 1;
      while i < a.Length
        invariant 1 <= i <= a.Length
        invariant multiset(a[..]) == multiset(burdenData)
        invariant InsertionInvariant(config, a[..], i - 1, i)
      {
        InsertAt(config, a, i);
        i := i + 1;
      }
      assert InsertionInvariant(config, a[..], a.Length - 1, a.Length);
      sorted := a[..];
    }
  }

  /** One pass of the insertion sort: the row at position i moves left past every row that
      the comparator wants after it, so that the first i + 1 rows end up sorted. */
  method InsertAt(config: SortConfig, a: array<Row>, i: int)
    requires 1 <= i < a.Length
    requires InsertionInvariant(config, a[..], i - 1, i)
    modifies a
    ensures multiset(a[..]) == multiset(old(a[..]))
    ensures InsertionInvariant(config, a[..], i, i + 1)
  {
    assert InsertionInvariant(config, a[..], i, i);
    var j := i;
    while j > 0 && Compare(config, a[j - 1], a[j]) == 1
      invariant 0 <= j <= i
      invariant multiset(a[..]) == multiset(old(a[..]))
      invariant InsertionInvariant(config, a[..], i, j)
    {
      ghost var before := a[..];
      SwapStep(config, before, i, j);
      a[j - 1], a[j] := a[j], a[j - 1];
      assert a[..] == before[j - 1 := before[j]][j := before[j - 1]];
      j := j - 1;
    }
    StopStep(config, a[..], i, j);
  }

  /** While the row that started at position i moves left and now sits at j, every pair of
      the first i + 1 rows that does not involve position j is in order. */
  predicate InsertionInvariant(config: SortConfig, s: seq<Row>, i: int, j: int)
  {
    forall p, q :: 0 <= p < q <= i && q < |s| && q != j ==> InOrder(config, s[p], s[q])
  }

  /** Swapping the moving row with a left neighbour that should come after it keeps the
      invariant, one position further left. */
  lemma SwapStep(config: SortConfig, s: seq<Row>, i: int, j: int)
    requires 0 < j <= i < |s|
    requires InsertionInvariant(config, s, i, j)
    requires !InOrder(config, s[j - 1], s[j])
    ensures InsertionInvariant(config, s[j - 1 := s[j]][j := s[j - 1]], i, j - 1)
  {
    var t := s[j - 1 := s[j]][j := s[j - 1]];
    InOrderFlip(config, s[j - 1], s[j]);
    forall p, q | 0 <= p < q <= i && q < |t| && q != j - 1
      ensures InOrder(config, t[p], t[q])
    {
      if p == j - 1 {
        assert t[p] == s[j];
        if q == j {
          assert t[q] == s[j - 1];
        } else {
          assert t[q] == s[q];
        }
      } else if q == j {
        assert t[q] == s[j - 1] && t[p] == s[p];
      } else if p == j {
        assert t[p] == s[j - 1] && t[q] == s[q];
      } else {
        assert t[p] == s[p] && t[q] == s[q];
      }
    }
  }

  /** Once the moving row has a left neighbour that may stay before it (or none), the first
      i + 1 rows are sorted. */
  lemma StopStep(config: SortConfig, s: seq<Row>, i: int, j: int)
    requires 0 <= j <= i < |s|
    requires InsertionInvariant(config, s, i, j)
    requires j == 0 || InOrder(config, s[j - 1], s[j])
    ensures InsertionInvariant(config, s, i, i + 1)
  {
    forall p, q | 0 <= p < q <= i && q < |s| && q != i + 1
      ensures InOrder(config, s[p], s[q])
    {
      if q == j && p < j - 1 {
        InOrderTransitive(config, s[p], s[j - 1], s[j]);
      }
    }
  }

  // ---------------------------------------------------------------------------------------
  // insights
  // ---------------------------------------------------------------------------------------

  /** The effective rates of the rows, in order. */
  function Rates(rows: seq<Row>): (xs: seq<real>)
    ensures |xs| == |rows|
    ensures forall i :: 0 <= i < |rows| ==> xs[i] == rows[i].burden.effectiveRate
  {
    seq(|rows|, i requires 0 <= i < |rows| => rows[i].burden.effectiveRate)
  }

  /** The position of the first smallest value: where a stable ascending sort puts its first
      element from. */
  function FirstMinIndex(xs: seq<real>): (k: nat)
    requires |xs| > 0
    ensures k < |xs|
    ensures forall i :: 0 <= i < |xs| ==> xs[k] <= xs[i]
    ensures forall i :: 0 <= i < k ==> xs[i] > xs[k]
  {
    if |xs| == 1 then 0
    else
      var k := FirstMinIndex(xs[..|xs| - 1]);
      if xs[|xs| - 1] < xs[k] then |xs| - 1 else k
  }

  /** The position of the first largest value: where a stable descending sort puts its first
      element from. */
  function FirstMaxIndex(xs: seq<real>): (k: nat)
    requires |xs| > 0
    ensures k < |xs|
    ensures forall i :: 0 <= i < |xs| ==> xs[i] <= xs[k]
    ensures forall i :: 0 <= i < k ==> xs[i] < xs[k]
  {
    if |xs| == 1 then 0
    else
      var k := FirstMaxIndex(xs[..|xs| - 1]);
      if xs[|xs| - 1] > xs[k] then |xs| - 1 else k
  }

  datatype Insights = Insights(best: Row, worst: Row, zeroCapGains: seq<Row>,
                               zeroDividends: seq<Row>, savings: real)

  predicate NoCapitalGainsTax(r: Row) { r.data.capitalGainsTax == 0.0 }

  predicate NoDividendTax(r: Row) { r.data.dividendTax == 0.0 }

  /** `insights`: nothing for an empty table; otherwise the first row of lowest and the first
      row of highest effective rate, the rows without capital-gains tax and without dividend
      tax (a filter keeps their order), and the total saved by choosing the best over the
      worst. */
  function GetInsights(rows: seq<Row>): (r: Option<Insights>)
    ensures r.None? <==> rows == []
    ensures r.Some? ==>
      && (exists k :: 0 <= k < |rows| && rows[k] == r.value.best
            && forall i :: 0 <= i < k ==> rows[i].burden.effectiveRate > rows[k].burden.effectiveRate)
      && (exists k :: 0 <= k < |rows| && rows[k] == r.value.worst
            && forall i :: 0 <= i < k ==> rows[i].burden.effectiveRate < rows[k].burden.effectiveRate)
      && (forall i :: 0 <= i < |rows| ==>
            r.value.best.burden.effectiveRate <= rows[i].burden.effectiveRate
              <= r.value.worst.burden.effectiveRate)
      && r.value.savings == r.value.worst.burden.total - r.value.best.burden.total
    ensures r.Some? ==> forall i :: 0 <= i < |rows| ==>
      && (rows[i] in r.value.zeroCapGains <==> rows[i].data.capitalGainsTax == 0.0)
      && (rows[i] in r.value.zeroDividends <==> rows[i].data.dividendTax == 0.0)
    ensures r.Some? ==>
      && r.value.zeroCapGains == Filter(rows, NoCapitalGainsTax)
      && r.value.zeroDividends == Filter(rows, NoDividendTax)
  {
    if rows == [] then None
    else
      var b := FirstMinIndex(Rates(rows));
      var w := FirstMaxIndex(Rates(rows));
      var best, worst := rows[b], rows[w];
      Some(Insights(best, worst, Filter(rows, NoCapitalGainsTax), Filter(rows, NoDividendTax),
                    worst.burden.total - best.burden.total))
  }

  /** For a positive amount the savings are never negative: they are the gap between the
      worst and the best effective rate, applied to the amount. */
  lemma InsightsSavings(taxData: Option<Scraper.Snapshot>, amount: real)
    requires amount > 0.0
    requires GetInsights(BurdenData(taxData, amount)).Some?
    ensures var ins := GetInsights(BurdenData(taxData, amount)).value;
      && ins.savings == Gap(ins.best.burden, ins.worst.burden, amount)
      && ins.savings >= 0.0
  {
    var rows := BurdenData(taxData, amount);
    assert forall i :: 0 <= i < |rows| ==> RateOfTotal(rows[i].burden, amount);
    SavingsFromRates(rows, amount);
  }

  /** The savings of rows whose effective rates are their totals over the amount. */
  lemma SavingsFromRates(rows: seq<Row>, amount: real)
    requires amount > 0.0 && rows != []
    requires forall i :: 0 <= i < |rows| ==> RateOfTotal(rows[i].burden, amount)
    ensures var ins := GetInsights(rows).value;
      && ins.savings == Gap(ins.best.burden, ins.worst.burden, amount)
      && ins.savings >= 0.0
  {
    var ins := GetInsights(rows).value;
    assert && RateOfTotal(ins.best.burden, amount) && RateOfTotal(ins.worst.burden, amount)
           && ins.best.burden.effectiveRate <= ins.worst.burden.effectiveRate
           && ins.savings == ins.worst.burden.total - ins.best.burden.total
    by {
      var w := FirstMaxIndex(Rates(rows));
      var b := FirstMinIndex(Rates(rows));
      assert ins.worst == rows[w] && ins.best == rows[b];
    }
    SavingsGap(ins.best.burden, ins.worst.burden, amount);
  }

  /** The difference of two totals is the difference of their effective rates applied to the
      amount, and it is not negative when the second rate is the larger. */
  lemma SavingsGap(best: Burden.Breakdown, worst: Burden.Breakdown, amount: real)
    requires amount > 0.0
    requires RateOfTotal(best, amount) && RateOfTotal(worst, amount)
    requires best.effectiveRate <= worst.effectiveRate
    ensures worst.total - best.total == Gap(best, worst, amount)
    ensures worst.total - best.total >= 0.0
  {
    TotalFromRate(best, amount);
    TotalFromRate(worst, amount);
    Burden.MulNonNegative(worst.effectiveRate - best.effectiveRate, amount / 100.0);
  }

  /** The difference of two effective rates, applied to the amount. */
  function Gap(best: Burden.Breakdown, worst: Burden.Breakdown, amount: real): real
  {
    (worst.effectiveRate - best.effectiveRate) * amount / 100.0
  }

  /** The effective rate of a breakdown is its total as a percentage of the amount. */
  predicate RateOfTotal(b: Burden.Breakdown, amount: real)
    requires amount != 0.0
  {
    b.effectiveRate == b.total / amount * 100.0
  }

  /** A total is its effective rate applied to the amount. */
  lemma TotalFromRate(b: Burden.Breakdown, amount: real)
    requires amount != 0.0
    requires b.effectiveRate == b.total / amount * 100.0
    ensures b.total == b.effectiveRate * amount / 100.0
  {
  }
}
