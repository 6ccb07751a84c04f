/** The jurisdiction record of the published snapshot (`tax-data.json`), shared by the
    snapshot builder (backend/scraper.js) and by the dashboard components that read it. */
module Records {
  import opened Tables

  /** Rates are fractions (0.25 is 25 %), never percentages. */
  predicate IsRate(r: real)
  {
    0.0 <= r <= 1.0
  }

  /** A tax authority that the scraper fetches, and that a record cites as its source. */
  datatype Source = Source(url: string, name: string, country: string)

  /** `corporateTax: { standard, reduced?, threshold? }`; an absent field is None. */
  datatype CorporateTax = CorporateTax(standard: real, reduced: Option<real>, threshold: Option<real>)

  /** `vat: { standard }`. */
  datatype Vat = Vat(standard: real)

  /** `incentives: { rdTaxCredit?: { rate }, energyCredits? }`, read by the simulator with
      optional chaining. No record of the fallback table carries it. */
  datatype Incentives = Incentives(rdTaxCreditRate: Option<real>, energyCredits: bool)

  datatype JurisdictionRecord = JurisdictionRecord(
    city: string,
    country: string,
    corporateTax: CorporateTax,
    vat: Vat,
    capitalGainsTax: real,
    dividendTax: real,
    startupRate: real,
    source: Source,
    verified: string,
    notes: Option<string>,
    incentives: Option<Incentives>)

  /** Every rate field of a record is a fraction in [0, 1]. */
  predicate RatesValid(j: JurisdictionRecord)
  {
    && IsRate(j.corporateTax.standard)
    && (j.corporateTax.reduced.Some? ==> IsRate(j.corporateTax.reduced.value))
    && IsRate(j.vat.standard)
    && IsRate(j.capitalGainsTax)
    && IsRate(j.dividendTax)
    && IsRate(j.startupRate)
    && (j.incentives.Some? && j.incentives.value.rdTaxCreditRate.Some? ==>
          IsRate(j.incentives.value.rdTaxCreditRate.value))
  }

  /** Every record of a jurisdiction table has valid rates. */
  predicate TableRatesValid(t: seq<(string, JurisdictionRecord)>)
  {
    forall i :: 0 <= i < |t| ==> RatesValid(t[i].1)
  }
}
