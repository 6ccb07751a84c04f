/** The profit-and-loss waterfall of src/components/ProSimulator.jsx: from revenue, through
    sector-adjusted costs, depreciation, corporate tax net of sector credits, and the split
    into dividends and retained earnings, to the net profit after the dividend tax and the
    capital-gains tax on an exit. */
module ProSimulator {
  import opened Tables
  import opened Records
  import opened Display
  import Scraper

  /** The four sectors of the selector. */
  datatype Sector = Tech | RealEstate | Industrial | Financial

  /** The numeric and flag fields of one `SECTORS` entry (labels and descriptions are display
      text); an absent field is None. */
  datatype SectorConfig = SectorConfig(
    rdIntensity: Option<real>,
    ipAdvantages: bool,
    depreciationRate: Option<real>,
    propertyTaxImpact: Option<real>,
    capitalAllowances: Option<real>,
    energyCredits: bool,
    regulatoryCompliance: Option<real>,
    applicableCredits: seq<string>)

  /** `SECTORS[sector]`. */
  function Sectors(sector: Sector): (config: SectorConfig)
    ensures sector == Tech <==> config.rdIntensity.Some?
    ensures sector == RealEstate <==> config.depreciationRate.Some?
    ensures sector == Financial <==> config.regulatoryCompliance.Some?
  {
    match sector
    case Tech => SectorConfig(Some(0.15), true, None, None, None, false, None,
                              ["rdTaxCredit", "patentBox"])
    case RealEstate => SectorConfig(None, false, Some(0.04), Some(0.01), None, false, None, [])
    case Industrial => SectorConfig(None, false, None, None, Some(0.20), true, None, [])
    case Financial => SectorConfig(None, false, None, None, None, false, Some(0.03), [])
  }

  /** The result of the `calculations` block. */
  datatype Calculations = Calculations(
    grossRevenue: real,
    operatingCosts: real,
    ebitda: real,
    ebitdaMargin: real,
    depreciation: real,
    ebit: real,
    corporateTax: real,
    taxCredits: real,
    netCorporateTax: real,
    netProfitBeforeDistribution: real,
    dividendsDistributed: real,
    dividendTax: real,
    retainedEarnings: real,
    capitalGain: real,
    capitalGainsTax: real,
    finalNetProfit: real,
    totalTaxes: real,
    effectiveTaxRate: real,
    returnOnRevenue: real)

  /** The share of revenue that a sector adds to the operating costs: R&D for technology,
      energy for industry, compliance for financial services. */
  function CostSurcharge(sector: Sector): real
  {
    match sector
    case Tech => 0.15
    case Industrial => 0.08
    case Financial => 0.03
    case RealEstate => 0.0
  }

  /** The share of revenue written off as depreciation. */
  function DepreciationShare(sector: Sector): real
  {
    match sector
    case RealEstate => 0.04
    case Industrial => 0.05
    case _ => 0.02
  }

  /** The sector credits a jurisdiction grants: the R&D credit on the technology R&D spend
      when the jurisdiction offers one, and 2 % of revenue for industry when it offers energy
      credits; nothing otherwise. */
  function TaxCredits(sector: Sector, j: JurisdictionRecord, revenue: real): (credits: real)
    ensures sector == Tech && j.incentives.Some? && j.incentives.value.rdTaxCreditRate.Some? ==>
      credits == revenue * 0.15 * j.incentives.value.rdTaxCreditRate.value
    ensures sector == Industrial && j.incentives.Some? && j.incentives.value.energyCredits ==>
      credits == revenue * 0.02
    ensures credits != 0.0 ==>
      && j.incentives.Some?
      && ((sector == Tech && j.incentives.value.rdTaxCreditRate.Some?)
          || (sector == Industrial && j.incentives.value.energyCredits))
  {
    match j.incentives
    case None => 0.0
    case Some(inc) =>
      if sector == Tech && inc.rdTaxCreditRate.Some? then revenue * 0.15 * inc.rdTaxCreditRate.value
      else if sector == Industrial && inc.energyCredits then revenue * 0.02
      else 0.0
  }

  /** With rates in [0, 1] and a non-negative revenue the credits are never negative. */
  lemma TaxCreditsNonNegative(sector: Sector, j: JurisdictionRecord, revenue: real)
    requires RatesValid(j) && revenue >= 0.0
    ensures TaxCredits(sector, j, revenue) >= 0.0
  {
    if j.incentives.Some? && j.incentives.value.rdTaxCreditRate.Some? {
      var rate := j.incentives.value.rdTaxCreditRate.value;
      assert revenue * 0.15 * rate >= 0.0 by {
        assert revenue * 0.15 >= 0.0;
      }
    }
  }

  /** No record of the fallback snapshot carries incentives, so on it the simulator never
      grants a credit. */
  lemma FallbackHasNoCredits(sector: Sector, revenue: real, i: nat)
    requires i < |Scraper.FALLBACK_JURISDICTIONS|
    ensures TaxCredits(sector, Scraper.FALLBACK_JURISDICTIONS[i].1, revenue) == 0.0
  {
  }

  /** `Math.max(0, corporateTax - taxCredits)`. */
  function NetOfCredits(corporateTax: real, credits: real): (net: real)
    ensures net >= 0.0 && net >= corporateTax - credits
    ensures net == 0.0 || net == corporateTax - credits
    ensures corporateTax >= 0.0 && credits >= 0.0 ==> net <= corporateTax
  {
    if corporateTax - credits > 0.0 then corporateTax - credits else 0.0
  }

  /** The relations between the amounts of the waterfall for jurisdiction `j`: each line is
      computed from the ones above it as the `calculations` block does (the three ratios to
      revenue are stated beside it). */
  predicate Waterfall(c: Calculations, j: JurisdictionRecord, sector: Sector, revenue: real,
                      costRatio: real, distributionRatio: real)
  {
    && Operating(c, sector, revenue, costRatio)
    && Taxation(c, j, sector, revenue, distributionRatio)
  }

  /** From revenue down to EBIT. */
  predicate Operating(c: Calculations, sector: Sector, revenue: real, costRatio: real)
  {
    && c.grossRevenue == revenue
    && c.operatingCosts == revenue * costRatio + revenue * CostSurcharge(sector)
    && c.ebitda == revenue - c.operatingCosts
    && c.depreciation == revenue * DepreciationShare(sector)
    && c.ebit == revenue - c.operatingCosts - c.depreciation
  }

  /** From EBIT down to the final net profit. */
  predicate Taxation(c: Calculations, j: JurisdictionRecord, sector: Sector, revenue: real,
                     distributionRatio: real)
  {
    TaxChain(j, sector, revenue, c.ebit, distributionRatio, c.corporateTax, c.taxCredits,
             c.netCorporateTax, c.netProfitBeforeDistribution, c.dividendsDistributed,
             c.dividendTax, c.retainedEarnings, c.capitalGain, c.capitalGainsTax,
             c.finalNetProfit, c.totalTaxes)
  }

  /** The relations between EBIT and the lines below it: corporate tax at the standard rate,
      credits of the sector, the tax net of credits, the profit before distribution split
      into dividends and retained earnings, the dividend tax, a capital gain of twice the
      retained earnings (an exit at three times them) taxed at the capital-gains rate, the
      total of the three taxes, and what remains of dividends and exit after them. */
  predicate TaxChain(j: JurisdictionRecord, sector: Sector, revenue: real, ebit: real,
                     distributionRatio: real, corporateTax: real, taxCredits: real,
                     netCorporateTax: real, netProfitBeforeDistribution: real,
                     dividendsDistributed: real, dividendTax: real, retainedEarnings: real,
                     capitalGain: real, capitalGainsTax: real, finalNetProfit: real,
                     totalTaxes: real)
  {
    && corporateTax == ebit * j.corporateTax.standard
    && taxCredits == TaxCredits(sector, j, revenue)
    && netCorporateTax == NetOfCredits(corporateTax, taxCredits)
    && netProfitBeforeDistribution == ebit - netCorporateTax
    && dividendsDistributed == netProfitBeforeDistribution * distributionRatio
    && dividendsDistributed + retainedEarnings == netProfitBeforeDistribution
    && dividendTax == dividendsDistributed * j.dividendTax
    && capitalGain == 2.0 * retainedEarnings
    && capitalGainsTax == capitalGain * j.capitalGainsTax
    && totalTaxes == netCorporateTax + dividendTax + capitalGainsTax
    && finalNetProfit == (dividendsDistributed - dividendTax)
                         + (3.0 * retainedEarnings - capitalGainsTax)
  }

  /** The `calculations` block for the selected sector and inputs, on the record of the
      selected jurisdiction as the component looks it up in the snapshot (None when it is
      missing): nothing without a record; otherwise the whole chain, in which every euro of
      EBIT and of the exit gain ends up either as tax or as net profit. */
  method Calculate(selected: Option<JurisdictionRecord>, sector: Sector, revenue: real,
                   costRatio: real, distributionRatio: real)
    returns (r: Option<Calculations>)
    requires revenue != 0.0 || selected.None?
    ensures r.None? <==> selected.None?
    ensures r.Some? ==> Waterfall(r.value, selected.value, sector, revenue, costRatio, distributionRatio)
    ensures r.Some? ==>
      && r.value.ebitdaMargin == r.value.ebitda / revenue * 100.0
      && r.value.effectiveTaxRate == r.value.totalTaxes / revenue * 100.0
      && r.value.returnOnRevenue == r.value.finalNetProfit / revenue * 100.0
    ensures r.Some? ==>
      r.value.finalNetProfit + r.value.totalTaxes == r.value.ebit + r.value.capitalGain
  {
    if selected.None? {
      return None;
    }
    var jurisdiction := selected.value;

    // 1. Revenue
    var grossRevenue := revenue;

    // 2. Operating costs, adjusted by sector
    var operatingCosts := OperatingCosts(sector, revenue, costRatio);

    // 3. EBITDA
    var ebitda := grossRevenue - operatingCosts;

    // 4. Depreciation
    var depreciation := Depreciation(sector, revenue);

    // 5. EBIT, the taxable profit
    var ebit := ebitda - depreciation;

    // 6. to 12. Taxes, distribution and exit
    var corporateTax, taxCredits, netCorporateTax, netProfitBeforeDistribution,
        dividendsDistributed, dividendTax, retainedEarnings, capitalGain, capitalGainsTax,
        finalNetProfit, totalTaxes :=
      TaxLines(sector, jurisdiction, revenue, ebit, distributionRatio);
    var effectiveTaxRate := (totalTaxes / grossRevenue) * 100.0;

    r := Some(Calculations(
      grossRevenue, operatingCosts, ebitda, (ebitda / grossRevenue) * 100.0, depreciation, ebit,
      corporateTax, taxCredits, netCorporateTax, netProfitBeforeDistribution,
      dividendsDistributed, dividendTax, retainedEarnings, capitalGain, capitalGainsTax,
      finalNetProfit, totalTaxes, effectiveTaxRate, (finalNetProfit / grossRevenue) * 100.0));
  }

  /** Steps 6 to 12: from EBIT through the corporate tax net of credits, the dividend split
      and the exit at three times the retained earnings, to the final net profit. */
  method TaxLines(sector: Sector, jurisdiction: JurisdictionRecord, revenue: real, ebit: real,
                  distributionRatio: real)
    returns (corporateTax: real, taxCredits: real, netCorporateTax: real,
             netProfitBeforeDistribution: real, dividendsDistributed: real, dividendTax: real,
             retainedEarnings: real, capitalGain: real, capitalGainsTax: real,
             finalNetProfit: real, totalTaxes: real)
    ensures TaxChain(jurisdiction, sector, revenue, ebit, distributionRatio, corporateTax,
                     taxCredits, netCorporateTax, netProfitBeforeDistribution,
                     dividendsDistributed, dividendTax, retainedEarnings, capitalGain,
                     capitalGainsTax, finalNetProfit, totalTaxes)
    ensures finalNetProfit + totalTaxes == ebit + capitalGain
  {
    // 6. Corporate tax
    corporateTax := ebit * jurisdiction.corporateTax.standard;

    // 7. Sector credits
    taxCredits := Credits(sector, jurisdiction, revenue);
    netCorporateTax := NetOfCredits(corporateTax, taxCredits);

    // 8. Net profit before distribution
    netProfitBeforeDistribution := ebit - netCorporateTax;

    // 9. Dividends
    dividendsDistributed := netProfitBeforeDistribution * distributionRatio;
    dividendTax := dividendsDistributed * jurisdiction.dividendTax;

    // 10. Retained earnings
    retainedEarnings := netProfitBeforeDistribution - dividendsDistributed;

    // 11. Exit at three times the retained earnings
    var exitValue := retainedEarnings * 3.0;
    capitalGain := exitValue - retainedEarnings;
    capitalGainsTax := capitalGain * jurisdiction.capitalGainsTax;

    // 12. Net of all taxes
    var dividendsAfterTax := dividendsDistributed - dividendTax;
    var exitProceedsAfterTax := exitValue - capitalGainsTax;
    finalNetProfit := dividendsAfterTax + exitProceedsAfterTax;

    totalTaxes := netCorporateTax + dividendTax + capitalGainsTax;
  }

  /** Step 2: the operating costs, `revenue * costRatio` plus the sector's surcharge. */
  method OperatingCosts(sector: Sector, revenue: real, costRatio: real)
    returns (operatingCosts: real)
    ensures operatingCosts == revenue * costRatio + revenue * CostSurcharge(sector)
  {
    var sectorConfig := Sectors(sector);
    operatingCosts := revenue * costRatio;
    if sector == Tech {
      var rdExpense := revenue * sectorConfig.rdIntensity.value;
      operatingCosts := operatingCosts + rdExpense;
    }
    if sector == Industrial {
      var energyCosts := revenue * 0.08;
      operatingCosts := operatingCosts + energyCosts;
    }
    if sector == Financial {
      var complianceCosts := revenue * sectorConfig.regulatoryCompliance.value;
      operatingCosts := operatingCosts + complianceCosts;
    }
  }

  /** Step 4: the depreciation of the sector. */
  method Depreciation(sector: Sector, revenue: real) returns (depreciation: real)
    ensures depreciation == revenue * DepreciationShare(sector)
  {
    var sectorConfig := Sectors(sector);
    depreciation := 0.0;
    if sector == RealEstate {
      depreciation := revenue * sectorConfig.depreciationRate.value;
    } else if sector == Industrial {
      depreciation := revenue * 0.05;
    } else {
      depreciation := revenue * 0.02;
    }
  }

  /** Step 7: the credits accumulated for the sector and the jurisdiction. */
  method Credits(sector: Sector, jurisdiction: JurisdictionRecord, revenue: real)
    returns (taxCredits: real)
    ensures taxCredits == TaxCredits(sector, jurisdiction, revenue)
  {
    var sectorConfig := Sectors(sector);
    taxCredits := 0.0;
    if sector == Tech && jurisdiction.incentives.Some?
       && jurisdiction.incentives.value.rdTaxCreditRate.Some? {
      var rdExpense := revenue * sectorConfig.rdIntensity.value;
      taxCredits := taxCredits + rdExpense * jurisdiction.incentives.value.rdTaxCreditRate.value;
    }
    if sector == Industrial && jurisdiction.incentives.Some?
       && jurisdiction.incentives.value.energyCredits {
      taxCredits := taxCredits + revenue * 0.02;
    }
  }

  /** For a jurisdiction with rates in [0, 1], a positive revenue, a distribution ratio in
      [0, 1] and a non-negative EBIT, the credits can only lower the corporate tax, the
      retained earnings are never negative and neither is the final net profit. */
  lemma WaterfallBounds(c: Calculations, j: JurisdictionRecord, sector: Sector, revenue: real,
                        distributionRatio: real)
    requires revenue > 0.0 && RatesValid(j) && 0.0 <= distributionRatio <= 1.0
    requires Taxation(c, j, sector, revenue, distributionRatio)
    requires c.ebit >= 0.0
    ensures 0.0 <= c.netCorporateTax <= c.corporateTax <= c.ebit
    ensures 0.0 <= c.dividendsDistributed <= c.netProfitBeforeDistribution
    ensures 0.0 <= c.retainedEarnings
    ensures 0.0 <= c.finalNetProfit
  {
    TaxCreditsNonNegative(sector, j, revenue);
    ChainBounds(c.ebit, j.corporateTax.standard, c.corporateTax, c.taxCredits,
                c.netCorporateTax, c.netProfitBeforeDistribution, distributionRatio,
                c.dividendsDistributed, c.retainedEarnings, j.dividendTax, c.dividendTax,
                c.capitalGain, j.capitalGainsTax, c.capitalGainsTax, c.finalNetProfit);
  }

  /** The steps of WaterfallBounds on the amounts alone. */
  lemma ChainBounds(ebit: real, corporateRate: real, corporateTax: real, credits: real,
                    netCorporateTax: real, profit: real, distributionRatio: real,
                    dividends: real, retained: real, dividendRate: real, dividendTax: real,
                    capitalGain: real, capitalGainsRate: real, capitalGainsTax: real,
                    finalNetProfit: real)
    requires ebit >= 0.0 && IsRate(corporateRate) && credits >= 0.0
    requires 0.0 <= distributionRatio <= 1.0 && IsRate(dividendRate) && IsRate(capitalGainsRate)
    requires corporateTax == ebit * corporateRate
    requires netCorporateTax == NetOfCredits(corporateTax, credits)
    requires profit == ebit - netCorporateTax
    requires dividends == profit * distributionRatio && dividends + retained == profit
    requires dividendTax == dividends * dividendRate
    requires capitalGain == 2.0 * retained && capitalGainsTax == capitalGain * capitalGainsRate
    requires finalNetProfit == (dividends - dividendTax) + (3.0 * retained - capitalGainsTax)
    ensures 0.0 <= netCorporateTax <= corporateTax <= ebit
    ensures 0.0 <= dividends <= profit
    ensures 0.0 <= retained && 0.0 <= finalNetProfit
  {
    CorporateStep(ebit, corporateRate, corporateTax, credits, netCorporateTax);
    ScaledBetween(profit, distributionRatio, dividends);
    ScaledBetween(dividends, dividendRate, dividendTax);
    assert 0.0 <= capitalGain;
    ScaledBetween(capitalGain, capitalGainsRate, capitalGainsTax);
    Remainders(dividends, retained, profit, dividendTax, capitalGain, capitalGainsTax,
               finalNetProfit);
  }

  /** The corporate tax on a non-negative EBIT at a rate in [0, 1], lowered by non-negative
      credits and floored at 0, lies between 0 and the EBIT. */
  lemma CorporateStep(ebit: real, rate: real, corporateTax: real, credits: real, net: real)
    requires ebit >= 0.0 && IsRate(rate) && credits >= 0.0
    requires corporateTax == ebit * rate
    requires net == NetOfCredits(corporateTax, credits)
    ensures 0.0 <= net <= corporateTax <= ebit
  {
    MulBetween(ebit, rate);
  }

  /** `part` is `whole` times a rate in [0, 1]. */
  lemma ScaledBetween(whole: real, rate: real, part: real)
    requires whole >= 0.0 && 0.0 <= rate <= 1.0 && part == whole * rate
    ensures 0.0 <= part <= whole
  {
    MulBetween(whole, rate);
  }

  /** What is left of a non-negative profit split into dividends and retained earnings, after
      the dividend tax and the capital-gains tax, is not negative. */
  lemma Remainders(dividends: real, retained: real, profit: real, dividendTax: real,
                   capitalGain: real, capitalGainsTax: real, finalNetProfit: real)
    requires 0.0 <= dividends <= profit && dividends + retained == profit
    requires 0.0 <= dividendTax <= dividends
    requires capitalGain == 2.0 * retained && capitalGainsTax <= capitalGain
    requires finalNetProfit == (dividends - dividendTax) + (3.0 * retained - capitalGainsTax)
    ensures 0.0 <= retained && 0.0 <= finalNetProfit
  {
  }

  /** A non-negative amount times a rate in [0, 1] lies between 0 and the amount. */
  lemma MulBetween(x: real, rate: real)
    requires x >= 0.0 && 0.0 <= rate <= 1.0
    ensures 0.0 <= x * rate <= x
  {
    assert x * rate <= x * 1.0;
  }

  /** `WaterfallStep.getColor`: green for revenue and credits, blue for profit lines, red for
      costs and taxes, purple for the final line, grey for any other type. */
  function StepColor(stepType: string): (c: Colour)
    ensures c == Emerald <==> stepType == "revenue" || stepType == "credit"
    ensures c == Blue <==> stepType == "profit"
    ensures c == Red <==> stepType == "cost" || stepType == "tax"
    ensures c == Purple <==> stepType == "final"
    ensures c == Grey <==> stepType !in STEP_TYPES
  {
    if stepType == "revenue" then Emerald
    else if stepType == "profit" then Blue
    else if stepType == "cost" || stepType == "tax" then Red
    else if stepType == "credit" then Emerald
    else if stepType == "final" then Purple
    else Grey
  }

  /** The step types the waterfall uses. */
  const STEP_TYPES: seq<string> := ["revenue", "cost", "profit", "tax", "credit", "final"]
}
