/** The side-by-side terminal of src/components/SideBySideComparison.jsx: the burden of two
    selected jurisdictions A and B for one investment amount, their field-wise difference
    B - A, the colour and sign of each difference, and the verdict line. */
module SideBySide {
  import opened Tables
  import opened Records
  import opened Display
  import Burden
  import Scraper

  function Abs(x: real): (a: real)
    ensures a >= 0.0 && (a == x || a == -x)
  {
    if x < 0.0 then -x else x
  }

  // ---------------------------------------------------------------------------------------
  // diff
  // ---------------------------------------------------------------------------------------

  /** The field-wise difference `burdenB - burdenA` (a positive field means B is worse). */
  function Diff(a: Burden.Breakdown, b: Burden.Breakdown): (d: Burden.Breakdown)
    ensures b.corporate == a.corporate + d.corporate
    ensures b.capitalGains == a.capitalGains + d.capitalGains
    ensures b.dividends == a.dividends + d.dividends
    ensures b.total == a.total + d.total
    ensures b.effectiveRate == a.effectiveRate + d.effectiveRate
  {
    Burden.Breakdown(b.corporate - a.corporate, b.capitalGains - a.capitalGains,
                     b.dividends - a.dividends, b.total - a.total,
                     b.effectiveRate - a.effectiveRate)
  }

  /** Every field negated. */
  function Negated(d: Burden.Breakdown): Burden.Breakdown
  {
    Burden.Breakdown(-d.corporate, -d.capitalGains, -d.dividends, -d.total, -d.effectiveRate)
  }

  /** Swapping A and B negates every difference; comparing a jurisdiction with itself gives
      all zeros. */
  lemma DiffAntisymmetric(a: Burden.Breakdown, b: Burden.Breakdown)
    ensures Diff(b, a) == Negated(Diff(a, b))
    ensures Diff(a, a) == Burden.Breakdown(0.0, 0.0, 0.0, 0.0, 0.0)
  {
  }

  /** When both totals are the sums of their parts, so is the difference of the totals. */
  lemma DiffOfSums(a: Burden.Breakdown, b: Burden.Breakdown)
    requires a.total == a.corporate + a.capitalGains + a.dividends
    requires b.total == b.corporate + b.capitalGains + b.dividends
    ensures var d := Diff(a, b); d.total == d.corporate + d.capitalGains + d.dividends
  {
  }

  // ---------------------------------------------------------------------------------------
  // Colours and signs
  // ---------------------------------------------------------------------------------------

  /** `getDiffColor`: neutral when the difference is below 100 in absolute value, otherwise
      red when B is worse and green when B is better. */
  function DiffColor(value: real): (c: Colour)
    ensures c == Slate <==> -100.0 < value < 100.0
    ensures c == Red <==> value >= 100.0
    ensures c == Emerald <==> value <= -100.0
  {
    if Abs(value) < 100.0 then Slate else if value > 0.0 then Red else Emerald
  }

  /** The colour of a `DiffRow`: red above 100, green below -100, neutral otherwise. */
  function DiffRowColor(diff: real): (c: Colour)
    ensures c == Red <==> diff > 100.0
    ensures c == Emerald <==> diff < -100.0
    ensures c == Slate <==> -100.0 <= diff <= 100.0
  {
    if diff > 100.0 then Red else if diff < -100.0 then Emerald else Slate
  }

  /** The two colour rules of the component differ exactly at a difference of plus or minus
      100, where the total row is already coloured and a component row is still neutral. */
  lemma DiffColoursDisagreeOnlyAtTheBoundary(v: real)
    ensures DiffColor(v) != DiffRowColor(v) <==> v == 100.0 || v == -100.0
    ensures v == 100.0 ==> DiffColor(v) == Red && DiffRowColor(v) == Slate
  {
  }

  /** Negating a difference exchanges red and green under both rules. */
  lemma DiffColorsAntisymmetric(v: real)
    ensures DiffColor(-v) == SwapEnds(DiffColor(v))
    ensures DiffRowColor(-v) == SwapEnds(DiffRowColor(v))
  {
  }

  /** The effective-rate row is coloured as `getDiffColor(diff.effectiveRate * 1000)`: it is
      neutral exactly while the rates differ by less than a tenth of a percentage point. */
  function EffectiveRateColor(rateDiff: real): (c: Colour)
    ensures c == Slate <==> -0.1 < rateDiff < 0.1
    ensures c == Red <==> rateDiff >= 0.1
    ensures c == Emerald <==> rateDiff <= -0.1
  {
    DiffColor(rateDiff * 1000.0)
  }

  // ---------------------------------------------------------------------------------------
  // Verdict
  // ---------------------------------------------------------------------------------------

  /** The verdict line: a named city saves or costs an amount more, or the burdens are
      equivalent. */
  datatype Verdict = Saves(city: string, amount: real) | CostsMore(city: string, amount: real)
                   | Equivalent

  /** The verdict as the component writes it: with `diff.total` = B - A below -1000 it says A
      saves |diff.total|, above 1000 that A costs |diff.total| more. */
  function VerdictAsWritten(dataA: JurisdictionRecord, diffTotal: real): (v: Verdict)
    ensures v.Saves? <==> diffTotal < -1000.0
    ensures v.CostsMore? <==> diffTotal > 1000.0
    ensures !v.Equivalent? ==> v.city == dataA.city && v.amount == Abs(diffTotal)
  {
    if diffTotal < -1000.0 then Saves(dataA.city, Abs(diffTotal))
    else if diffTotal > 1000.0 then CostsMore(dataA.city, Abs(diffTotal))
    else Equivalent
  }

  /** As written, the verdict credits A with a saving exactly when A carries the larger
      burden, and says A costs more exactly when A carries the smaller one. */
  lemma VerdictAsWrittenIsReversed(dataA: JurisdictionRecord, burdenA: Burden.Breakdown,
                                   burdenB: Burden.Breakdown)
    ensures var v := VerdictAsWritten(dataA, Diff(burdenA, burdenB).total);
      && (v.Saves? ==> burdenA.total == burdenB.total + v.amount && v.amount > 1000.0)
      && (v.CostsMore? ==> burdenB.total == burdenA.total + v.amount && v.amount > 1000.0)
  {
  }

  /** The verdict with the saving credited to the right side: A saves |diff.total| when B is
      more than 1000 worse, and costs that much more when B is more than 1000 better. */
  function VerdictOf(dataA: JurisdictionRecord, diffTotal: real): (v: Verdict)
    ensures v.Saves? <==> diffTotal > 1000.0
    ensures v.CostsMore? <==> diffTotal < -1000.0
    ensures !v.Equivalent? ==> v.city == dataA.city && v.amount == Abs(diffTotal)
  {
    if diffTotal > 1000.0 then Saves(dataA.city, Abs(diffTotal))
    else if diffTotal < -1000.0 then CostsMore(dataA.city, Abs(diffTotal))
    else Equivalent
  }

  /** The corrected verdict is truthful: A saves x exactly when its burden is x below B's,
      with x over 1000, and costs x more exactly when its burden is x above B's. */
  lemma VerdictTruthful(dataA: JurisdictionRecord, burdenA: Burden.Breakdown,
                        burdenB: Burden.Breakdown)
    ensures var v := VerdictOf(dataA, Diff(burdenA, burdenB).total);
      && (v.Saves? ==> burdenB.total == burdenA.total + v.amount && v.amount > 1000.0)
      && (v.CostsMore? ==> burdenA.total == burdenB.total + v.amount && v.amount > 1000.0)
      && (v.Equivalent? <==> Abs(burdenB.total - burdenA.total) <= 1000.0)
  {
  }

  // ---------------------------------------------------------------------------------------
  // The comparison
  // ---------------------------------------------------------------------------------------

  /** Everything the terminal shows about A against B. */
  datatype Comparison = Comparison(
    dataA: JurisdictionRecord,
    dataB: JurisdictionRecord,
    burdenA: Burden.Breakdown,
    burdenB: Burden.Breakdown,
    diff: Burden.Breakdown,
    verdict: Verdict)

  /** `calculateBurden(data)`: the three-part burden at the jurisdiction's rates. */
  function CalculateBurden(data: JurisdictionRecord, amount: real): (b: Burden.Breakdown)
    requires amount != 0.0
    ensures b.total == b.corporate + b.capitalGains + b.dividends
    ensures b.effectiveRate == b.total / amount * 100.0
    ensures b.dividends == (amount - b.corporate) * Burden.DISTRIBUTED_SHARE * data.dividendTax
  {
    Burden.Compute(amount, data.corporateTax.standard, data.capitalGainsTax, data.dividendTax)
  }

  /** A snapshot is loaded and has both selected keys: the component's guards let it past. */
  predicate BothSelected(taxData: Option<Scraper.Snapshot>, cityA: string, cityB: string)
  {
    && taxData.Some?
    && Lookup(taxData.value.jurisdictions, cityA).Some?
    && Lookup(taxData.value.jurisdictions, cityB).Some?
  }

  /** The component for selections A and B: nothing when no snapshot is loaded or either key
      is missing from it; otherwise the two burdens, their difference and the verdict the
      component displays (the as-written one; `VerdictOf` is its correction). */
  function Compare(taxData: Option<Scraper.Snapshot>, cityA: string, cityB: string, amount: real)
    : (r: Option<Comparison>)
    requires amount != 0.0 || !BothSelected(taxData, cityA, cityB)
    ensures r.None? <==> !BothSelected(taxData, cityA, cityB)
    ensures r.Some? ==>
      && r.value.dataA == Lookup(taxData.value.jurisdictions, cityA).value
      && r.value.dataB == Lookup(taxData.value.jurisdictions, cityB).value
      && r.value.burdenA == CalculateBurden(r.value.dataA, amount)
      && r.value.burdenB == CalculateBurden(r.value.dataB, amount)
      && r.value.diff == Diff(r.value.burdenA, r.value.burdenB)
      && r.value.verdict == VerdictAsWritten(r.value.dataA, r.value.diff.total)
  {
    match taxData
    case None => None
    case Some(d) =>
      match (Lookup(d.jurisdictions, cityA), Lookup(d.jurisdictions, cityB))
      case (Some(dataA), Some(dataB)) =>
        var burdenA := CalculateBurden(dataA, amount);
        var burdenB := CalculateBurden(dataB, amount);
        var diff := Diff(burdenA, burdenB);
        Some(Comparison(dataA, dataB, burdenA, burdenB, diff, VerdictAsWritten(dataA, diff.total)))
      case _ => None
  }

  /** Swapping the two selections shows the same two burdens the other way round, negates
      every difference, and turns "A saves x" into "B costs x more". */
  lemma CompareSwapped(taxData: Option<Scraper.Snapshot>, cityA: string, cityB: string,
                       amount: real)
    requires amount != 0.0 || !BothSelected(taxData, cityA, cityB)
    ensures Compare(taxData, cityA, cityB, amount).Some?
            <==> Compare(taxData, cityB, cityA, amount).Some?
    ensures Compare(taxData, cityA, cityB, amount).Some? ==>
      var ab, ba := Compare(taxData, cityA, cityB, amount).value,
                    Compare(taxData, cityB, cityA, amount).value;
      && ba.burdenA == ab.burdenB && ba.burdenB == ab.burdenA
      && ba.diff == Negated(ab.diff)
      && (ab.verdict.Saves? ==> ba.verdict == CostsMore(ab.dataB.city, ab.verdict.amount))
      && (ab.verdict.CostsMore? ==> ba.verdict == Saves(ab.dataB.city, ab.verdict.amount))
      && (ab.verdict.Equivalent? <==> ba.verdict.Equivalent?)
  {
    if BothSelected(taxData, cityA, cityB) {
      var t := taxData.value.jurisdictions;
      var dataA, dataB := Lookup(t, cityA).value, Lookup(t, cityB).value;
      var burdenA, burdenB := CalculateBurden(dataA, amount), CalculateBurden(dataB, amount);
      DiffAntisymmetric(burdenA, burdenB);
      SwappedVerdict(dataA, dataB, Diff(burdenA, burdenB).total);
    }
  }

  /** Negating the total difference and exchanging the cities mirrors the verdict. */
  lemma SwappedVerdict(dataA: JurisdictionRecord, dataB: JurisdictionRecord, d: real)
    ensures var v, w := VerdictAsWritten(dataA, d), VerdictAsWritten(dataB, -d);
      && (v.Saves? ==> w == CostsMore(dataB.city, v.amount))
      && (v.CostsMore? ==> w == Saves(dataB.city, v.amount))
      && (v.Equivalent? <==> w.Equivalent?)
  {
  }

  /** Comparing a jurisdiction with itself shows no difference and an equivalent burden. */
  lemma CompareWithItself(taxData: Option<Scraper.Snapshot>, city: string, amount: real)
    requires amount != 0.0 || !BothSelected(taxData, city, city)
    requires Compare(taxData, city, city, amount).Some?
    ensures Compare(taxData, city, city, amount).value.diff == Burden.Breakdown(0.0, 0.0, 0.0, 0.0, 0.0)
    ensures Compare(taxData, city, city, amount).value.verdict == Equivalent
  {
  }

  /** The selections the terminal opens with, and its initial amount. */
  const INITIAL_A: string := "SINGAPORE"
  const INITIAL_B: string := "DUBAI"
  const INITIAL_AMOUNT: real := 1000000.0

  /** On the fallback snapshot the opening view compares Singapore (a burden of 170,000) with
      Dubai (90,000): the difference is -80,000. The verdict shown then says Singapore saves
      80,000; the corrected verdict says that Singapore costs 80,000 more. */
  lemma InitialView(snapshot: Scraper.Snapshot)
    requires snapshot.jurisdictions == Scraper.FALLBACK_JURISDICTIONS
    ensures Compare(Some(snapshot), INITIAL_A, INITIAL_B, INITIAL_AMOUNT).Some?
    ensures var c := Compare(Some(snapshot), INITIAL_A, INITIAL_B, INITIAL_AMOUNT).value;
      && c.burdenA.total == 170000.0
      && c.burdenB.total == 90000.0
      && c.diff.total == -80000.0
      && c.verdict == Saves("Singapur", 80000.0)
      && VerdictOf(c.dataA, c.diff.total) == CostsMore("Singapur", 80000.0)
  {
    var t := snapshot.jurisdictions;
    Scraper.FallbackKeys();
    LookupAt(t, 6);
    LookupAt(t, 7);
    assert t[6].0 == INITIAL_A && t[7].0 == INITIAL_B;
  }
}
