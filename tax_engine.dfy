/** The tax engine of the dashboard (src/taxEngine.js): the French reference figures
    (TAX_DATA), the European and global comparison tables, the two-bracket French corporate
    tax, the micro-entrepreneur social charges, the total tax burden of a jurisdiction and the
    chart series of the investor view. */
module TaxEngine {
  import opened Tables
  import opened Records
  import Burden

  // ---------------------------------------------------------------------------------------
  // TAX_DATA: the French reference figures

  /** A bracket applies `rate` to the profit up to `threshold`; None is an unbounded top
      bracket (`threshold: Infinity`). */
  datatype Bracket = Bracket(threshold: Option<real>, rate: real, caption: string)

  datatype CorporateTaxInfo = CorporateTaxInfo(
    name: string, rates: seq<Bracket>, source: string, description: string)

  datatype VatInfo = VatInfo(
    name: string, standardRate: real, reducedRates: seq<real>, source: string, description: string)

  datatype MicroCategory = MicroCategory(
    socialRate: real, taxAllowance: real, caption: string, liberatoire: real)

  datatype MicroEntrepreneurInfo = MicroEntrepreneurInfo(
    name: string, categories: seq<(string, MicroCategory)>, source: string, description: string)

  datatype CfeInfo = CfeInfo(name: string, source: string, description: string)

  datatype TaxData = TaxData(
    corporateTax: CorporateTaxInfo,
    vat: VatInfo,
    microEntrepreneur: MicroEntrepreneurInfo,
    cfe: CfeInfo)

  const TAX_DATA: TaxData := TaxData(
    CorporateTaxInfo(
      "Impôt sur les Sociétés (IS)",
      [ Bracket(Some(42500.0), 0.15, "Taux réduit (PME)"),
        Bracket(None, 0.25, "Taux normal") ],
      "https://www.impots.gouv.fr/professionnel/limpot-sur-les-societes",
      "S'applique aux bénéfices des sociétés (SARL, SAS, etc.). Le taux réduit s'applique sous conditions de CA et de capital."),
    VatInfo(
      "Taxe sur la Valeur Ajoutée (TVA)",
      0.20,
      [0.10, 0.055, 0.021],
      "https://www.service-public.fr/professionnels/vosdroits/F23567",
      "Collectée par l'entreprise pour l'État. Le taux normal est de 20% en France métropolitaine."),
    MicroEntrepreneurInfo(
      "Régime Micro-entrepreneur",
      [ ("VENTE", MicroCategory(0.123, 0.71, "Achat / Revente", 0.01)),
        ("PRESTATION_SERVICE_BIC", MicroCategory(0.212, 0.50, "Prestation de services (BIC)", 0.017)),
        ("LIBERAL", MicroCategory(0.231, 0.34, "Profession Libérale (BNC)", 0.022)) ],
      "https://www.autoentrepreneur.urssaf.fr/",
      "Calculé sur le chiffre d'affaires brut."),
    CfeInfo(
      "Cotisation Foncière des Entreprises (CFE)",
      "https://www.service-public.fr/professionnels/vosdroits/F23547",
      "Taxe locale basée sur la valeur locative. Exonération la première année."))

  /** Every rate of the reference figures is a fraction in [0, 1]. */
  predicate TaxDataRatesValid(d: TaxData)
  {
    && (forall i :: 0 <= i < |d.corporateTax.rates| ==> IsRate(d.corporateTax.rates[i].rate))
    && IsRate(d.vat.standardRate)
    && (forall i :: 0 <= i < |d.vat.reducedRates| ==> IsRate(d.vat.reducedRates[i]))
    && (forall i :: 0 <= i < |d.microEntrepreneur.categories| ==>
          var c := d.microEntrepreneur.categories[i].1;
          IsRate(c.socialRate) && IsRate(c.taxAllowance) && IsRate(c.liberatoire))
  }

  lemma TaxDataValid()
    ensures TaxDataRatesValid(TAX_DATA)
    ensures DistinctKeys(TAX_DATA.microEntrepreneur.categories)
  {
  }

  // ---------------------------------------------------------------------------------------
  // EUROPE_COMPARISON and GLOBAL_COMPARISON

  datatype CorporateTaxEntry = CorporateTaxEntry(
    standard: real, reduced: Option<real>, threshold: Option<real>, description: string)

  datatype VatEntry = VatEntry(standard: real, reduced: seq<real>)

  datatype ComparisonEntry = ComparisonEntry(
    city: string,
    country: string,
    corporateTax: CorporateTaxEntry,
    vat: VatEntry,
    capitalGainsTax: real,
    dividendTax: real,
    startupRate: real,
    source: string,
    apiSource: string,
    notes: Option<string>)

  const EUROPE_COMPARISON: seq<(string, ComparisonEntry)> := [
    ("PARIS", ComparisonEntry("París", "Francia",
      CorporateTaxEntry(0.25, Some(0.15), Some(42500.0), "15% hasta €42.500, 25% resto"),
      VatEntry(0.20, [0.10, 0.055]),
      0.25, 0.30, 0.15,
      "https://www.impots.gouv.fr/", "recherche-entreprises.api.gouv.fr", None)),
    ("MADRID", ComparisonEntry("Madrid", "España",
      CorporateTaxEntry(0.25, Some(0.15), None, "25% general, 15% nuevas empresas (2 años)"),
      VatEntry(0.21, [0.10, 0.04]),
      0.25, 0.19, 0.15,
      "https://sede.agenciatributaria.gob.es/", "Agencia Tributaria", None)),
    ("BERLIN", ComparisonEntry("Berlín", "Alemania",
      CorporateTaxEntry(0.30, None, None, "~30% combinado (15% + 5.5% + ~9.5%)"),
      VatEntry(0.19, [0.07]),
      0.26, 0.26, 0.30,
      "https://www.bundesfinanzministerium.de/", "BMF Datenportal", None)),
    ("LONDON", ComparisonEntry("Londres", "Reino Unido",
      CorporateTaxEntry(0.25, Some(0.19), Some(50000.0), "19% hasta £50k, 25% sobre £250k"),
      VatEntry(0.20, [0.05, 0.0]),
      0.20, 0.339, 0.19,
      "https://www.gov.uk/topic/business-tax/corporation-tax", "HMRC", None)),
    ("AMSTERDAM", ComparisonEntry("Ámsterdam", "Países Bajos",
      CorporateTaxEntry(0.258, Some(0.19), Some(200000.0), "19% hasta €200k, 25.8% resto"),
      VatEntry(0.21, [0.09]),
      0.258, 0.15, 0.19,
      "https://www.belastingdienst.nl/", "Belastingdienst", None)),
    ("ROME", ComparisonEntry("Roma", "Italia",
      CorporateTaxEntry(0.24, None, None, "24% IRES + 3.9% IRAP"),
      VatEntry(0.22, [0.10, 0.05, 0.04]),
      0.26, 0.26, 0.24,
      "https://www.agenziaentrate.gov.it/", "Agenzia delle Entrate", None))
  ]

  /** The four jurisdictions that the global table adds after the European ones. */
  const GLOBAL_ADDITIONS: seq<(string, ComparisonEntry)> := [
    ("SINGAPORE", ComparisonEntry("Singapur", "Singapur",
      CorporateTaxEntry(0.17, Some(0.085), Some(200000.0), "17% estándar, exenciones para startups"),
      VatEntry(0.09, []),
      0.0, 0.0, 0.085,
      "https://www.iras.gov.sg/", "IRAS Tax Authority",
      Some("0% capital gains, 0% dividendos (sistema one-tier)"))),
    ("DUBAI", ComparisonEntry("Dubái", "Emiratos Árabes Unidos",
      CorporateTaxEntry(0.09, Some(0.0), Some(375000.0), "0% hasta AED 375k, 9% resto"),
      VatEntry(0.05, []),
      0.0, 0.0, 0.0,
      "https://mof.gov.ae/", "Ministry of Finance UAE / FTA",
      Some("0% capital gains, 0% dividendos, Free Zones con 0%"))),
    ("NEW_YORK", ComparisonEntry("Nueva York", "Estados Unidos",
      CorporateTaxEntry(0.2825, None, None, "21% federal + 7.25% NY = 28.25%"),
      VatEntry(0.08875, []),
      0.21, 0.238, 0.2825,
      "https://www.irs.gov/", "IRS + NY Department of Taxation",
      Some("Sales tax varía por condado"))),
    ("TORONTO", ComparisonEntry("Toronto", "Canadá",
      CorporateTaxEntry(0.265, Some(0.122), Some(500000.0), "15% federal + 11.5% Ontario"),
      VatEntry(0.13, []),
      0.1325, 0.3953, 0.122,
      "https://www.canada.ca/en/revenue-agency.html", "Canada Revenue Agency (CRA)",
      Some("HST 13% en Ontario, tasa pequeñas empresas 12.2%")))
  ]

  /** `{ ...EUROPE_COMPARISON, SINGAPORE, DUBAI, NEW_YORK, TORONTO }`. */
  const GLOBAL_COMPARISON: seq<(string, ComparisonEntry)> := EUROPE_COMPARISON + GLOBAL_ADDITIONS

  /** Every rate field of a comparison entry is a fraction in [0, 1]. */
  predicate EntryRatesValid(e: ComparisonEntry)
  {
    && IsRate(e.corporateTax.standard)
    && (e.corporateTax.reduced.Some? ==> IsRate(e.corporateTax.reduced.value))
    && IsRate(e.vat.standard)
    && (forall i :: 0 <= i < |e.vat.reduced| ==> IsRate(e.vat.reduced[i]))
    && IsRate(e.capitalGainsTax)
    && IsRate(e.dividendTax)
    && IsRate(e.startupRate)
  }

  /** The global table keeps every European entry unchanged, in the same order, and adds
      four more after them. */
  lemma GlobalExtendsEurope()
    ensures |GLOBAL_COMPARISON| == |EUROPE_COMPARISON| + 4
    ensures GLOBAL_COMPARISON[..|EUROPE_COMPARISON|] == EUROPE_COMPARISON
    ensures GLOBAL_COMPARISON[|EUROPE_COMPARISON|..] == GLOBAL_ADDITIONS
    ensures forall k :: k in Keys(EUROPE_COMPARISON) ==>
      Lookup(GLOBAL_COMPARISON, k) == Lookup(EUROPE_COMPARISON, k)
  {
    forall k | k in Keys(EUROPE_COMPARISON)
      ensures Lookup(GLOBAL_COMPARISON, k) == Lookup(EUROPE_COMPARISON, k)
    {
      LookupAppend(EUROPE_COMPARISON, GLOBAL_ADDITIONS, k);
    }
  }

  const GLOBAL_KEYS: seq<string> := ["PARIS", "MADRID", "BERLIN", "LONDON", "AMSTERDAM", "ROME",
                                      "SINGAPORE", "DUBAI", "NEW_YORK", "TORONTO"]

  /** The keys of the global table, in order; no key occurs twice. */
  lemma GlobalKeys()
    ensures Keys(GLOBAL_COMPARISON) == GLOBAL_KEYS
  {
    var ks := Keys(GLOBAL_COMPARISON);
    assert |ks| == |GLOBAL_KEYS|;
    forall i | 0 <= i < |ks| ensures ks[i] == GLOBAL_KEYS[i] {
      if i < |EUROPE_COMPARISON| {
        assert GLOBAL_COMPARISON[i] == EUROPE_COMPARISON[i];
      } else {
        assert GLOBAL_COMPARISON[i] == GLOBAL_ADDITIONS[i - |EUROPE_COMPARISON|];
      }
    }
  }

  /** No key of the global table occurs twice. */
  lemma GlobalKeysDistinct()
    ensures DistinctKeys(GLOBAL_COMPARISON)
  {
    GlobalKeys();
    GlobalKeyListDistinct();
    DistinctKeysFromKeys(GLOBAL_COMPARISON);
  }

  lemma GlobalKeyListDistinct()
    ensures forall i, j :: 0 <= i < j < |GLOBAL_KEYS| ==> GLOBAL_KEYS[i] != GLOBAL_KEYS[j]
  {
    var ks := GLOBAL_KEYS;
    assert forall i, j :: 0 <= i < j < |ks| ==> |ks[i]| != |ks[j]| || ks[i][0] != ks[j][0];
  }

  /** Every rate of the comparison tables is a fraction in [0, 1]. */
  lemma ComparisonRatesValid()
    ensures forall i :: 0 <= i < |GLOBAL_COMPARISON| ==> EntryRatesValid(GLOBAL_COMPARISON[i].1)
  {
  }

  // ---------------------------------------------------------------------------------------
  // calculateCorporateTax

  const REDUCED_RATE_CEILING: real := 42500.0
  const REDUCED_RATE: real := 0.15
  const NORMAL_RATE: real := 0.25

  /** The French two-bracket corporate tax: nothing on a loss or zero profit, 15 % up to
      €42,500, 25 % on the rest. */
  function CorporateTax(profit: real): (tax: real)
    ensures profit <= 0.0 ==> tax == 0.0
    ensures 0.0 < profit <= REDUCED_RATE_CEILING ==> tax == REDUCED_RATE * profit
    ensures 0.0 <= profit ==> REDUCED_RATE * profit <= tax <= NORMAL_RATE * profit
    ensures REDUCED_RATE_CEILING < profit ==>
      tax == 6375.0 + NORMAL_RATE * (profit - REDUCED_RATE_CEILING)
  {
    if profit <= 0.0 then 0.0
    else if profit <= REDUCED_RATE_CEILING then profit * REDUCED_RATE
    else REDUCED_RATE_CEILING * REDUCED_RATE + (profit - REDUCED_RATE_CEILING) * NORMAL_RATE
  }

  /** A reference definition of a progressive tax: each bracket taxes, at its own rate, the
      part of the profit between the previous bracket's threshold (`floor`) and its own. */
  function ProgressiveTax(brackets: seq<Bracket>, floor: real, profit: real): real
    decreases |brackets|
  {
    if brackets == [] || profit <= floor then 0.0
    else match brackets[0].threshold
      case None => (profit - floor) * brackets[0].rate
      case Some(ceiling) =>
        if profit <= ceiling then (profit - floor) * brackets[0].rate
        else (ceiling - floor) * brackets[0].rate + ProgressiveTax(brackets[1..], ceiling, profit)
  }

  /** calculateCorporateTax is exactly the progressive tax over the brackets published in
      TAX_DATA.CORPORATE_TAX.rates. */
  lemma CorporateTaxMatchesBrackets(profit: real)
    ensures CorporateTax(profit) == ProgressiveTax(TAX_DATA.corporateTax.rates, 0.0, profit)
  {
    var rates := TAX_DATA.corporateTax.rates;
    assert rates[1..] == [Bracket(None, 0.25, "Taux normal")];
  }

  /** More profit never means less tax. */
  lemma CorporateTaxMonotone(p: real, q: real)
    requires p <= q
    ensures CorporateTax(p) <= CorporateTax(q)
  {
  }

  /** The tax changes by at most 25 % of the change in profit, so it is continuous, at the
      €42,500 threshold as everywhere else. */
  lemma CorporateTaxContinuous(p: real, q: real)
    requires p <= q
    ensures CorporateTax(q) - CorporateTax(p) <= NORMAL_RATE * (q - p)
  {
  }

  // ---------------------------------------------------------------------------------------
  // calculateMicroSocial

  /** Social charges of a micro-entrepreneur: the turnover times the social rate of the
      category, or 0 for a category that TAX_DATA does not list. */
  function MicroSocial(turnover: real, category: string): (charges: real)
    ensures category == "VENTE" ==> charges == 0.123 * turnover
    ensures category == "PRESTATION_SERVICE_BIC" ==> charges == 0.212 * turnover
    ensures category == "LIBERAL" ==> charges == 0.231 * turnover
    ensures category != "VENTE" && category != "PRESTATION_SERVICE_BIC" && category != "LIBERAL"
      ==> charges == 0.0
  {
    match Lookup(TAX_DATA.microEntrepreneur.categories, category)
    case None => 0.0
    case Some(cat) => turnover * cat.socialRate
  }

  /** On a non-negative turnover the charges are between 0 and 23.1 % of it. */
  lemma MicroSocialBounds(turnover: real, category: string)
    requires 0.0 <= turnover
    ensures 0.0 <= MicroSocial(turnover, category) <= 0.231 * turnover
  {
  }

  // ---------------------------------------------------------------------------------------
  // calculateTotalTaxBurden

  /** The result of calculateTotalTaxBurden: the number 0 for an unknown jurisdiction,
      otherwise the breakdown record. */
  datatype TotalBurden = Zero | Computed(breakdown: Burden.Breakdown)

  function TotalTaxBurden(profit: real, jurisdiction: string): (r: TotalBurden)
    requires profit != 0.0 || jurisdiction !in GLOBAL_KEYS
    ensures r.Zero? <==> jurisdiction !in GLOBAL_KEYS
    ensures r.Computed? ==>
      && Lookup(GLOBAL_COMPARISON, jurisdiction).Some?
      && var j := Lookup(GLOBAL_COMPARISON, jurisdiction).value;
      r.breakdown == Burden.Compute(profit, j.corporateTax.standard, j.capitalGainsTax, j.dividendTax)
  {
    GlobalKeys();
    match Lookup(GLOBAL_COMPARISON, jurisdiction)
    case None => Zero
    case Some(j) =>
      Computed(Burden.Compute(profit, j.corporateTax.standard, j.capitalGainsTax, j.dividendTax))
  }

  /** For a positive profit every known jurisdiction carries a non-negative burden whose
      effective rate lies between its standard corporate rate and 120 %. */
  lemma TotalTaxBurdenBounds(profit: real, jurisdiction: string)
    requires profit > 0.0
    requires jurisdiction in GLOBAL_KEYS
    ensures Lookup(GLOBAL_COMPARISON, jurisdiction).Some?
    ensures var j := Lookup(GLOBAL_COMPARISON, jurisdiction).value;
      var b := TotalTaxBurden(profit, jurisdiction).breakdown;
      && 0.0 <= b.corporate && 0.0 <= b.capitalGains && 0.0 <= b.dividends
      && 100.0 * j.corporateTax.standard <= b.effectiveRate <= 120.0
  {
    GlobalKeys();
    ComparisonRatesValid();
    var j := Lookup(GLOBAL_COMPARISON, jurisdiction).value;
    assert EntryRatesValid(j);
    Burden.ComputeBounds(profit, j.corporateTax.standard, j.capitalGainsTax, j.dividendTax);
  }

  // ---------------------------------------------------------------------------------------
  // getInvestorMetrics (getComparisonChartData is the same function)

  /** Chart series, one entry per jurisdiction of GLOBAL_COMPARISON, as percentages. */
  datatype InvestorMetrics = InvestorMetrics(
    labels: seq<string>,
    corporateTax: seq<real>,
    capitalGains: seq<real>,
    dividendTax: seq<real>,
    vat: seq<real>)

  function GetInvestorMetrics(): (m: InvestorMetrics)
    ensures var js := Values(GLOBAL_COMPARISON);
      && |m.labels| == |m.corporateTax| == |m.capitalGains| == |m.dividendTax| == |m.vat| == |js|
      && forall i :: 0 <= i < |js| ==>
        && m.labels[i] == js[i].city
        && m.corporateTax[i] == js[i].corporateTax.standard * 100.0
        && m.capitalGains[i] == js[i].capitalGainsTax * 100.0
        && m.dividendTax[i] == js[i].dividendTax * 100.0
        && m.vat[i] == js[i].vat.standard * 100.0
  {
    var js := Values(GLOBAL_COMPARISON);
    InvestorMetrics(
      seq(|js|, i requires 0 <= i < |js| => js[i].city),
      seq(|js|, i requires 0 <= i < |js| => js[i].corporateTax.standard * 100.0),
      seq(|js|, i requires 0 <= i < |js| => js[i].capitalGainsTax * 100.0),
      seq(|js|, i requires 0 <= i < |js| => js[i].dividendTax * 100.0),
      seq(|js|, i requires 0 <= i < |js| => js[i].vat.standard * 100.0))
  }

  /** Every chart value is a percentage in [0, 100], and the series has ten points. */
  lemma InvestorMetricsArePercentages()
    ensures var m := GetInvestorMetrics();
      && |m.labels| == 10
      && forall i :: 0 <= i < |m.labels| ==>
        && 0.0 <= m.corporateTax[i] <= 100.0
        && 0.0 <= m.capitalGains[i] <= 100.0
        && 0.0 <= m.dividendTax[i] <= 100.0
        && 0.0 <= m.vat[i] <= 100.0
  {
    ComparisonRatesValid();
  }
}
