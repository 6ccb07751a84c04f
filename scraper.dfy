/** The snapshot builder of backend/scraper.js: it attempts one fetch per configured tax
    authority, records one outcome per authority, and publishes the hand-verified fallback
    jurisdiction table unchanged next to those outcomes.

    The HTTP request is an oracle `fetch` from a source to what was observed (a response, or
    an exception with its message, and the clock reading when the attempt finished). The clock
    reading taken for `lastUpdate` is the parameter `now`; the reading taken when the module was
    loaded (the fallback's own `lastUpdate`) is the parameter `loadedAt`. */
module Scraper {
  import opened Tables
  import opened Records
  import TaxEngine

  /** An ISO-8601 clock reading (`new Date().toISOString()`). */
  type Timestamp = string

  // ---------------------------------------------------------------------------------------
  // The configured sources
  // ---------------------------------------------------------------------------------------

  const FRANCE: Source := Source(
    "https://www.impots.gouv.fr/professionnel/limpot-sur-les-societes",
    "Direction Générale des Finances Publiques (DGFIP)",
    "Francia")
  const SPAIN: Source := Source(
    "https://sede.agenciatributaria.gob.es/Sede/impuestos-tasas/impuesto-sociedades.html",
    "Agencia Tributaria",
    "España")
  const UK: Source := Source(
    "https://www.gov.uk/topic/business-tax/corporation-tax",
    "HM Revenue & Customs (HMRC)",
    "Reino Unido")
  const SINGAPORE: Source := Source(
    "https://www.iras.gov.sg/taxes/corporate-income-tax/basics-of-corporate-income-tax/corporate-income-tax-rate-rebates-and-tax-exemption-schemes",
    "Inland Revenue Authority of Singapore (IRAS)",
    "Singapur")

  /** The authorities the builder fetches, in the order it fetches them. */
  const SOURCES: seq<(string, Source)> :=
    [("FRANCE", FRANCE), ("SPAIN", SPAIN), ("UK", UK), ("SINGAPORE", SINGAPORE)]

  const SOURCE_KEYS: seq<string> := ["FRANCE", "SPAIN", "UK", "SINGAPORE"]

  /** The sources table is keyed FRANCE, SPAIN, UK, SINGAPORE, each key once. */
  lemma SourceKeys()
    ensures Keys(SOURCES) == SOURCE_KEYS
    ensures DistinctKeys(SOURCES)
  {
    DistinctKeysFromKeys(SOURCES);
  }

  // ---------------------------------------------------------------------------------------
  // One fetch
  // ---------------------------------------------------------------------------------------

  /** What one GET request did: it produced a response (whose body is not used), or it threw
      an exception carrying a message (network error, timeout, non-2xx status). */
  datatype FetchOutcome = Responded | Threw(message: string)

  /** One attempt as observed: its outcome and the clock reading right after it. */
  datatype FetchObservation = FetchObservation(outcome: FetchOutcome, finishedAt: Timestamp)

  /** `{ success, error?, timestamp, source }`; `error` is absent on success. */
  datatype ScrapeResult = ScrapeResult(success: bool, error: Option<string>, timestamp: Timestamp,
                                       source: Source)

  /** `scrapeTaxRate`: never fails; a thrown exception becomes an unsuccessful result. */
  function ScrapeTaxRate(source: Source, observed: FetchObservation): (r: ScrapeResult)
    ensures r.source == source
    ensures r.timestamp == observed.finishedAt
    ensures r.success <==> observed.outcome.Responded?
    ensures r.success ==> r.error.None?
    ensures !r.success ==> r.error == Some(observed.outcome.message)
  {
    match observed.outcome
    case Responded => ScrapeResult(true, None, observed.finishedAt, source)
    case Threw(message) => ScrapeResult(false, Some(message), observed.finishedAt, source)
  }

  // ---------------------------------------------------------------------------------------
  // The fallback snapshot
  // ---------------------------------------------------------------------------------------

  const VERIFIED: string := "2024-02-13"
  const UPDATE_FREQUENCY: string := "6 horas"
  const NOTE: string :=
    "Datos oficiales verificados. Se actualizan automáticamente cada 6 horas desde fuentes gubernamentales."

  /** The hand-verified jurisdiction table. Absent optional fields are None; no record carries
      `incentives`. */
  const FALLBACK_JURISDICTIONS: seq<(string, JurisdictionRecord)> := [
    ("PARIS", JurisdictionRecord("París", "Francia",
      CorporateTax(0.25, Some(0.15), Some(42500.0)), Vat(0.20),
      0.25, 0.30, 0.15, FRANCE, VERIFIED, None, None)),
    ("MADRID", JurisdictionRecord("Madrid", "España",
      CorporateTax(0.25, Some(0.15), None), Vat(0.21),
      0.25, 0.19, 0.15, SPAIN, VERIFIED, None, None)),
    ("BERLIN", JurisdictionRecord("Berlín", "Alemania",
      CorporateTax(0.30, None, None), Vat(0.19),
      0.26, 0.26, 0.30,
      Source("https://www.bundesfinanzministerium.de/", "Bundesministerium der Finanzen (BMF)",
             "Alemania"),
      VERIFIED, None, None)),
    ("LONDON", JurisdictionRecord("Londres", "Reino Unido",
      CorporateTax(0.25, Some(0.19), Some(50000.0)), Vat(0.20),
      0.20, 0.339, 0.19, UK, VERIFIED, None, None)),
    ("AMSTERDAM", JurisdictionRecord("Ámsterdam", "Países Bajos",
      CorporateTax(0.258, Some(0.19), Some(200000.0)), Vat(0.21),
      0.258, 0.15, 0.19,
      Source("https://www.belastingdienst.nl/", "Belastingdienst", "Países Bajos"),
      VERIFIED, None, None)),
    ("ROME", JurisdictionRecord("Roma", "Italia",
      CorporateTax(0.24, None, None), Vat(0.22),
      0.26, 0.26, 0.24,
      Source("https://www.agenziaentrate.gov.it/", "Agenzia delle Entrate", "Italia"),
      VERIFIED, None, None)),
    ("SINGAPORE", JurisdictionRecord("Singapur", "Singapur",
      CorporateTax(0.17, Some(0.085), Some(200000.0)), Vat(0.09),
      0.0, 0.0, 0.085, SINGAPORE, VERIFIED,
      Some("0% capital gains, 0% dividendos (sistema one-tier)"), None)),
    ("DUBAI", JurisdictionRecord("Dubái", "Emiratos Árabes Unidos",
      CorporateTax(0.09, Some(0.0), Some(375000.0)), Vat(0.05),
      0.0, 0.0, 0.0,
      Source("https://mof.gov.ae/", "Ministry of Finance UAE", "EAU"),
      VERIFIED, Some("0% capital gains, 0% dividendos"), None)),
    ("NEW_YORK", JurisdictionRecord("Nueva York", "Estados Unidos",
      CorporateTax(0.2825, None, None), Vat(0.08875),
      0.21, 0.238, 0.2825,
      Source("https://www.irs.gov/", "Internal Revenue Service (IRS)", "USA"),
      VERIFIED, Some("21% federal + 7.25% NY"), None)),
    ("TORONTO", JurisdictionRecord("Toronto", "Canadá",
      CorporateTax(0.265, Some(0.122), Some(500000.0)), Vat(0.13),
      0.1325, 0.3953, 0.122,
      Source("https://www.canada.ca/en/revenue-agency.html", "Canada Revenue Agency (CRA)",
             "Canadá"),
      VERIFIED, Some("15% federal + 11.5% Ontario"), None))
  ]

  /** `FALLBACK_DATA`, whose `lastUpdate` is the clock reading when the module was loaded. */
  datatype FallbackData = FallbackData(lastUpdate: Timestamp, updateFrequency: string,
                                       note: string,
                                       jurisdictions: seq<(string, JurisdictionRecord)>)

  function Fallback(loadedAt: Timestamp): (f: FallbackData)
    ensures f.lastUpdate == loadedAt
    ensures f.jurisdictions == FALLBACK_JURISDICTIONS
  {
    FallbackData(loadedAt, UPDATE_FREQUENCY, NOTE, FALLBACK_JURISDICTIONS)
  }

  /** Every rate of the fallback table is a fraction in [0, 1]. */
  lemma FallbackRatesValid()
    ensures TableRatesValid(FALLBACK_JURISDICTIONS)
  {
  }

  /** The fallback table has the same keys, in the same order, as the dashboard's global
      comparison table, each key once. */
  lemma FallbackKeys()
    ensures Keys(FALLBACK_JURISDICTIONS) == TaxEngine.GLOBAL_KEYS
    ensures DistinctKeys(FALLBACK_JURISDICTIONS)
  {
    var ks := Keys(FALLBACK_JURISDICTIONS);
    assert |ks| == |TaxEngine.GLOBAL_KEYS|;
    forall i | 0 <= i < |ks| ensures ks[i] == TaxEngine.GLOBAL_KEYS[i] {
    }
    TaxEngine.GlobalKeysDistinct();
    TaxEngine.GlobalKeys();
    DistinctKeysFromKeys(FALLBACK_JURISDICTIONS);
  }

  /** The fallback record of each jurisdiction carries the same corporate, VAT, capital-gains,
      dividend and startup rates (and the same reduced rate and threshold) as the global
      comparison table of the tax engine. */
  lemma FallbackAgreesWithComparison(i: nat)
    requires i < |FALLBACK_JURISDICTIONS|
    ensures i < |TaxEngine.GLOBAL_COMPARISON|
    ensures FALLBACK_JURISDICTIONS[i].0 == TaxEngine.GLOBAL_COMPARISON[i].0
    ensures var j, e := FALLBACK_JURISDICTIONS[i].1, TaxEngine.GLOBAL_COMPARISON[i].1;
      && j.corporateTax.standard == e.corporateTax.standard
      && j.corporateTax.reduced == e.corporateTax.reduced
      && j.corporateTax.threshold == e.corporateTax.threshold
      && j.vat.standard == e.vat.standard
      && j.capitalGainsTax == e.capitalGainsTax
      && j.dividendTax == e.dividendTax
      && j.startupRate == e.startupRate
      && j.city == e.city
      && j.country == e.country
  {
    TaxEngine.GlobalExtendsEurope();
    if i < 6 {
      assert TaxEngine.GLOBAL_COMPARISON[i] == TaxEngine.EUROPE_COMPARISON[i];
    } else {
      assert TaxEngine.GLOBAL_COMPARISON[i] == TaxEngine.GLOBAL_ADDITIONS[i - 6];
    }
  }

  // ---------------------------------------------------------------------------------------
  // The snapshot
  // ---------------------------------------------------------------------------------------

  /** The published snapshot (`tax-data.json`): the fallback fields, a fresh `lastUpdate`, and
      one scrape result per source key. */
  datatype Snapshot = Snapshot(
    lastUpdate: Timestamp,
    updateFrequency: string,
    note: string,
    jurisdictions: seq<(string, JurisdictionRecord)>,
    scrapeResults: seq<(string, ScrapeResult)>)

  /** The results of attempting the given sources one after another, each with its own
      observation: the specification of the builder's loop. */
  function ScrapeAll(sources: seq<(string, Source)>, fetch: Source -> FetchObservation)
    : (rs: seq<(string, ScrapeResult)>)
    ensures |rs| == |sources|
  {
    if sources == [] then []
    else [(sources[0].0, ScrapeTaxRate(sources[0].1, fetch(sources[0].1)))]
         + ScrapeAll(sources[1..], fetch)
  }

  /** Entry i of the results belongs to source i and is that source's own outcome, whatever
      the outcomes of the other sources. */
  lemma {:induction false} ScrapeAllAt(sources: seq<(string, Source)>,
                                       fetch: Source -> FetchObservation, i: nat)
    requires i < |sources|
    ensures ScrapeAll(sources, fetch)[i].0 == sources[i].0
    ensures ScrapeAll(sources, fetch)[i].1 == ScrapeTaxRate(sources[i].1, fetch(sources[i].1))
  {
    if i > 0 {
      ScrapeAllAt(sources[1..], fetch, i - 1);
    }
  }

  /** Attempting `a` and then `b` gives the results of `a` followed by those of `b`: a
      failing source does not stop, or change, the attempts after it. */
  lemma {:induction false} ScrapeAllAppend(a: seq<(string, Source)>, b: seq<(string, Source)>,
                                           fetch: Source -> FetchObservation)
    ensures ScrapeAll(a + b, fetch) == ScrapeAll(a, fetch) + ScrapeAll(b, fetch)
  {
    if a == [] {
      assert a + b == b;
    } else {
      assert (a + b)[0] == a[0];
      assert (a + b)[1..] == a[1..] + b;
      ScrapeAllAppend(a[1..], b, fetch);
    }
  }

  /** The results have the keys of the sources, in the same order. */
  lemma {:induction false} ScrapeAllKeys(sources: seq<(string, Source)>,
                                         fetch: Source -> FetchObservation)
    ensures Keys(ScrapeAll(sources, fetch)) == Keys(sources)
  {
    var rs := ScrapeAll(sources, fetch);
    forall i | 0 <= i < |rs| ensures Keys(rs)[i] == Keys(sources)[i] {
      ScrapeAllAt(sources, fetch, i);
    }
  }

  /** `scrapeTaxData` without the file write: spread the fallback into the results with a
      fresh `lastUpdate` and an empty `scrapeResults`, then assign one result per source. */
  method ScrapeTaxData(fetch: Source -> FetchObservation, loadedAt: Timestamp, now: Timestamp)
    returns (results: Snapshot)
    ensures results.lastUpdate == now
    ensures results.updateFrequency == Fallback(loadedAt).updateFrequency
    ensures results.note == Fallback(loadedAt).note
    ensures results.jurisdictions == Fallback(loadedAt).jurisdictions
    ensures results.scrapeResults == ScrapeAll(SOURCES, fetch)
  {
    var fallback := Fallback(loadedAt);
    results := Snapshot(now, fallback.updateFrequency, fallback.note, fallback.jurisdictions, []);
    var i := 0;
    while i < |SOURCES|
      invariant 0 <= i <= |SOURCES|
      invariant results.lastUpdate == now
      invariant results.updateFrequency == fallback.updateFrequency
      invariant results.note == fallback.note
      invariant results.jurisdictions == fallback.jurisdictions
      invariant results.scrapeResults == ScrapeAll(SOURCES[..i], fetch)
    {
      var key, source := SOURCES[i].0, SOURCES[i].1;
      var result := ScrapeTaxRate(source, fetch(source));
      ScrapeStep(fetch, i);
      results := results.(scrapeResults := Put(results.scrapeResults, key, result));
      i := i + 1;
    }
    assert SOURCES[..i] == SOURCES;
  }

  /** One turn of the builder's loop: assigning source i's result under its key, which the
      earlier turns have not used, appends that result to the results so far. */
  lemma ScrapeStep(fetch: Source -> FetchObservation, i: nat)
    requires i < |SOURCES|
    ensures Put(ScrapeAll(SOURCES[..i], fetch), SOURCES[i].0,
                ScrapeTaxRate(SOURCES[i].1, fetch(SOURCES[i].1)))
            == ScrapeAll(SOURCES[..i + 1], fetch)
  {
    var done := ScrapeAll(SOURCES[..i], fetch);
    assert SOURCES[i].0 !in Keys(done) by {
      SourceKeys();
      ScrapeAllKeys(SOURCES[..i], fetch);
      assert Keys(SOURCES[..i]) == SOURCE_KEYS[..i];
    }
    PutNew(done, SOURCES[i].0, ScrapeTaxRate(SOURCES[i].1, fetch(SOURCES[i].1)));
    ScrapeAllAppend(SOURCES[..i], [SOURCES[i]], fetch);
    assert SOURCES[..i + 1] == SOURCES[..i] + [SOURCES[i]];
  }

  /** The snapshot records one result under each of FRANCE, SPAIN, UK and SINGAPORE, and the
      result under each key is that source's own outcome. */
  lemma SnapshotResults(fetch: Source -> FetchObservation, k: nat)
    requires k < |SOURCES|
    ensures Keys(ScrapeAll(SOURCES, fetch)) == SOURCE_KEYS
    ensures Lookup(ScrapeAll(SOURCES, fetch), SOURCE_KEYS[k])
            == Some(ScrapeTaxRate(SOURCES[k].1, fetch(SOURCES[k].1)))
  {
    var rs := ScrapeAll(SOURCES, fetch);
    SourceKeys();
    ScrapeAllKeys(SOURCES, fetch);
    DistinctKeysFromKeys(rs);
    ScrapeAllAt(SOURCES, fetch, k);
    LookupAt(rs, k);
  }

  /** Two runs whose fetches observe every source alike record the same results (the rest of
      the snapshot is the fallback and the clock reading, whatever the fetches do). */
  lemma SnapshotIndependentOfOutcomes(fetch: Source -> FetchObservation,
                                      fetch': Source -> FetchObservation)
    requires forall i :: 0 <= i < |SOURCES| ==> fetch(SOURCES[i].1) == fetch'(SOURCES[i].1)
    ensures ScrapeAll(SOURCES, fetch) == ScrapeAll(SOURCES, fetch')
  {
    var rs, rs' := ScrapeAll(SOURCES, fetch), ScrapeAll(SOURCES, fetch');
    forall i | 0 <= i < |SOURCES| ensures rs[i] == rs'[i] {
      ScrapeAllAt(SOURCES, fetch, i);
      ScrapeAllAt(SOURCES, fetch', i);
    }
  }
}
