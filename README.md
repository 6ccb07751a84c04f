# Global tax comparison for investors — a Dafny model

The application compares the tax burden an investor carries in ten jurisdictions: six European
cities (Paris, Madrid, Berlin, London, Amsterdam, Rome) and Singapore, Dubai, New York and Toronto.
This project models its calculating core and proves properties of it:

- the tax engine's French two-bracket corporate tax, micro-entrepreneur social charges, the
  three-part "total tax burden" and the chart series, over its static rate tables
  (`TaxEngine`, with the shared burden formula in `Burden`);
- the snapshot builder, which tries every official source once (the HTTP fetch is an oracle
  that responds or throws), copies the hand-verified fallback table and records one scrape
  result per source (`Scraper`);
- the investor dashboard: the burden table, its header-click sort state and the sorted copy,
  the insight cards and the three-band cell colour (`Dashboard`, with the string order its
  sort uses in `Ordering`);
- the side-by-side terminal: the burdens of two jurisdictions, their field-wise difference
  B − A, the colour and sign rules and the verdict (`SideBySide`);
- the profit-and-loss waterfall of the sector simulator (`ProSimulator`).

Amounts and rates are `real`. JavaScript objects used as dictionaries are ordered key/value
sequences (`Tables`), because the code iterates them with `Object.entries` / `Object.values` in
insertion order. Colours are the constructors of `Display.Colour`; `Display.Hex` gives their
CSS values. The clock readings (`new Date().toISOString()`) are parameters: `loadedAt` for the
module-load time the fallback data records, `now` for the builder's fresh `lastUpdate`, and
each fetch observation's `finishedAt` for a scrape result's timestamp.

Where the code and its surrounding description differ, the model follows the code: the
side-by-side component shows its verdict as written, and the corrected verdict is modelled
and proved beside it (see Findings).

## Model

| member | source | states |
|---|---|---|
| TaxEngine.TaxDataValid | src/taxEngine.js:30-62 | every rate of TAX_DATA (corporate brackets, VAT standard and reduced rates, each micro-entrepreneur category's social rate, allowance and liberatoire rate) lies in [0, 1], and the category keys are distinct |
| TaxEngine.GlobalExtendsEurope | src/taxEngine.js:111-145 | GLOBAL_COMPARISON is EUROPE_COMPARISON, unchanged and in order, followed by four more entries; every European key looks up the same entry in both tables |
| TaxEngine.GlobalKeys | src/taxEngine.js:65-145 | the global table's keys are PARIS … ROME, SINGAPORE, DUBAI, NEW_YORK, TORONTO, in that order |
| TaxEngine.GlobalKeysDistinct | src/taxEngine.js:65-145 | no key of the global table occurs twice |
| TaxEngine.GlobalKeyListDistinct | src/taxEngine.js:65-145 | the ten jurisdiction keys are pairwise different |
| TaxEngine.ComparisonRatesValid | src/taxEngine.js:65-145 | every rate of every comparison entry (corporate standard and reduced, VAT standard and reduced, capital gains, dividends, startup) lies in [0, 1] |
| TaxEngine.CorporateTax | src/taxEngine.js:147-156 | 0 for a profit ≤ 0; exactly 15 % of a profit up to 42,500; 6,375 + 25 % of the excess above 42,500; for profit ≥ 0 between 15 % and 25 % of the profit |
| TaxEngine.CorporateTaxMatchesBrackets | src/taxEngine.js:33-36 | the function equals a reference progressive-tax function evaluated over the bracket list TAX_DATA publishes |
| TaxEngine.CorporateTaxMonotone | src/taxEngine.js:147-156 | more profit never means less tax |
| TaxEngine.CorporateTaxContinuous | src/taxEngine.js:150-154 | the tax grows by at most 25 % of the growth in profit, so it has no jump at the 42,500 threshold |
| TaxEngine.MicroSocial | src/taxEngine.js:158-162 | 12.3 %, 21.2 % or 23.1 % of the turnover for VENTE, PRESTATION_SERVICE_BIC and LIBERAL; 0 for any other category |
| TaxEngine.MicroSocialBounds | src/taxEngine.js:158-162 | on a non-negative turnover the charges lie between 0 and 23.1 % of it |
| TaxEngine.TotalTaxBurden | src/taxEngine.js:165-180 | the number 0 exactly for a key outside the global table; otherwise the three-part burden at that jurisdiction's rates |
| TaxEngine.TotalTaxBurdenBounds | src/taxEngine.js:165-180 | for a positive profit and a known key, every part is non-negative and the effective rate lies between the corporate rate and 120 % |
| TaxEngine.GetInvestorMetrics | src/taxEngine.js:182-191 | five series of the same length as the global table, entry i being jurisdiction i's city, or its corporate, capital-gains, dividend or VAT rate times 100 |
| TaxEngine.InvestorMetricsArePercentages | src/taxEngine.js:182-191 | the series have ten points and every value lies in [0, 100] |
| Burden.Compute | src/taxEngine.js:169-178 | the total is the sum of the three parts and equals amount × the combined rate (corporate rate + 20 % of the capital-gains rate + half the dividend rate on what corporate tax leaves); effective rate = total / amount × 100 = 100 × the combined rate |
| Burden.CombinedRateBounds | src/taxEngine.js:169-178 | with rates in [0, 1] the combined rate is at least the corporate rate and at most 1.2 |
| Burden.ComputeBounds | src/App.jsx:148-151 | with rates in [0, 1] and a positive amount every part is non-negative, the total is at most 1.2 × the amount, and the effective rate lies between the corporate rate and 120 % |
| Burden.CombinedRateMonotone | src/taxEngine.js:169-178 | the combined rate grows with each of the three rates |
| Burden.ComputeTotalMonotone | src/taxEngine.js:169-178 | for a positive amount, a jurisdiction whose three rates are each no higher than another's never carries the larger total |
| Burden.ComputeRateMonotone | src/taxEngine.js:169-178 | under the same conditions its effective rate is never the larger either |
| Burden.ScaleMonotone | src/taxEngine.js:169-178 | two totals that are a positive amount times rates r <= r' are in the same order |
| Burden.ComputeScales | src/taxEngine.js:169-178 | the effective rate does not depend on the amount; the total scales linearly with it |
| Scraper.SourceKeys | backend/scraper.js:11-32 | the sources are keyed FRANCE, SPAIN, UK, SINGAPORE, each key once |
| Scraper.ScrapeTaxRate | backend/scraper.js:35-65 | never fails: success exactly when the fetch responded, no error then; otherwise the exception's message as error; always the source and the timestamp read after the fetch |
| Scraper.Fallback | backend/scraper.js:68-182 | the fallback data carries the module-load timestamp and the hand-verified jurisdiction table |
| Scraper.FallbackRatesValid | backend/scraper.js:72-181 | every rate of every fallback record lies in [0, 1] |
| Scraper.FallbackKeys | backend/scraper.js:72-181 | the fallback table has the global comparison table's ten keys, in the same order, each once |
| Scraper.FallbackAgreesWithComparison | backend/scraper.js:72-181 | fallback record i has the same key, city, country and corporate (standard, reduced, threshold), VAT, capital-gains, dividend and startup rates as entry i of the tax engine's global table |
| Scraper.ScrapeAll | backend/scraper.js:195-198 | one result per source, in source order |
| Scraper.ScrapeAllAt | backend/scraper.js:195-198 | result i carries source i's key and exactly that source's own scrape result, whatever the other outcomes |
| Scraper.ScrapeAllAppend | backend/scraper.js:56-64 | attempting a then b gives a's results followed by b's: a failure does not stop or alter the later attempts |
| Scraper.ScrapeAllKeys | backend/scraper.js:195-198 | the results have the sources' keys in the same order |
| Scraper.ScrapeTaxData | backend/scraper.js:185-198 | lastUpdate is the fresh clock reading; update frequency, note and jurisdictions are the fallback's, verbatim; the results are those of attempting every source in order |
| Scraper.ScrapeStep | backend/scraper.js:195-198 | assigning source i's result under its key, not yet used by the earlier turns, appends it to the results of sources 0 … i − 1 |
| Scraper.SnapshotResults | backend/scraper.js:195-198 | the recorded results are keyed exactly FRANCE, SPAIN, UK, SINGAPORE, and the lookup of each key gives that source's own result |
| Scraper.SnapshotIndependentOfOutcomes | backend/scraper.js:188-198 | runs whose fetches observe every source alike record the same results |
| Dashboard.ColorByValue | src/App.jsx:60-72 | always green, amber or red; amber exactly when value / max is in [0.3, 0.6) |
| Dashboard.ColorByValueReverse | src/App.jsx:62-71 | `reverse` exchanges the red and green ends and leaves amber in the middle |
| Dashboard.ColorByValueBands | src/App.jsx:62-66 | for a positive max and reverse: green exactly below 30 % of max, red exactly from 60 % of it |
| Dashboard.ColorByValueMonotone | src/App.jsx:62-66 | for a positive max and reverse, a larger value never gets a less alarming colour |
| Dashboard.BurdenData | src/App.jsx:144-165 | no rows before the snapshot is loaded; then one row per jurisdiction, in order, with its key, its record and the three-part burden at the investment amount, total = sum of the parts, effective rate = total / amount × 100 |
| Dashboard.BurdenDataNonNegative | src/App.jsx:148-151 | with rates in [0, 1] and a positive amount every part and total of every row is non-negative, and each effective rate lies between the row's corporate rate and 120 % |
| Dashboard.FallbackRowsMatchEngine | src/App.jsx:147-164 | on the fallback snapshot each row's burden is exactly what the tax engine's calculateTotalTaxBurden gives for the same key |
| Dashboard.Compare | src/App.jsx:170-195 | the comparator returns 1 or −1, never 0 |
| Dashboard.InOrderFlip | src/App.jsx:190-194 | when the comparator would swap a and b, b before a is in order |
| Dashboard.InOrderTransitive | src/App.jsx:170-195 | being in order under the comparator is transitive, for numeric columns and for city names alike |
| Dashboard.SortedMeans | src/App.jsx:190-194 | in a sorted table an ascending column never has a value above a later one, a descending column never one below it; cities compare as strings |
| Dashboard.NextSortConfig | src/App.jsx:212-217 | the key becomes the clicked one; the direction is descending exactly when that key was already the key and ascending |
| Dashboard.HeaderClicksAlternate | src/App.jsx:212-217 | a new header starts ascending; clicking the same header again always flips the direction |
| Dashboard.InvestorComparison.constructor | src/App.jsx:129 | the dashboard starts sorted by effective rate, ascending |
| Dashboard.InvestorComparison.HandleSort | src/App.jsx:212-217 | the new sort state is NextSortConfig of the old one and the clicked key |
| Dashboard.InvestorComparison.SortedData | src/App.jsx:167-198 | the result is a permutation of the rows (same multiset) and every earlier row is in order with every later one under the comparator of the current sort state; the input is not changed |
| Dashboard.InsertAt | src/App.jsx:170-195 | one insertion pass on the array: the rows stay a permutation, and the first i + 1 rows end up in order under the comparator |
| Dashboard.Rates | src/App.jsx:203-204 | the effective rates of the rows, one per row, in order |
| Dashboard.FirstMinIndex | src/App.jsx:203 | the position of a smallest value that no earlier position shares: the element a stable ascending sort puts first |
| Dashboard.FirstMaxIndex | src/App.jsx:204 | the position of a largest value that no earlier position shares: the element a stable descending sort puts first |
| Dashboard.GetInsights | src/App.jsx:200-209 | nothing exactly for an empty table; otherwise best and worst are the first rows of lowest and of highest effective rate, every row's rate lies between theirs, savings = worst total − best total, and zeroCapGains / zeroDividends are the filters of the table by a capital-gains / dividend rate of 0 (Tables.FilterPositions: the matching rows, each once, in table order) |
| Tables.FilterPositions | src/App.jsx:205-206 | `Array.filter` keeps exactly the entries that satisfy the predicate, each once, at strictly increasing positions of the original |
| Dashboard.InsightsSavings | src/App.jsx:200-209 | for a positive amount the savings equal the gap between worst and best effective rate applied to the amount, and are never negative |
| Dashboard.SavingsFromRates | src/App.jsx:203-207 | the same for any rows whose effective rates are their totals over the amount |
| Dashboard.SavingsGap | src/App.jsx:207 | the difference of two totals is the difference of their rates applied to the amount, non-negative when the second rate is the larger |
| Dashboard.TotalFromRate | src/App.jsx:161 | a total is its effective rate applied to the amount |
| Ordering.LessIrreflexive | src/App.jsx:176-178 | no city name sorts before itself |
| Ordering.LessTransitive | src/App.jsx:176-178 | string order is transitive |
| Ordering.LessTotal | src/App.jsx:176-178 | of two different strings one is below the other |
| Ordering.LessAsymmetric | src/App.jsx:176-178 | a string below another is not above it |
| Ordering.AtMostTransitive | src/App.jsx:190-194 | "not above" is transitive, as the sort's order needs |
| Display.Hex | src/App.jsx:64-70 | each colour is a seven-character CSS hex string |
| Display.SignPrefix | src/components/SideBySideComparison.jsx:52-55 | '+' exactly for zero and above, nothing exactly below zero |
| SideBySide.Abs | src/components/SideBySideComparison.jsx:48 | the non-negative one of x and −x |
| SideBySide.CalculateBurden | src/components/SideBySideComparison.jsx:21-33 | total = sum of the three parts, effective rate = total / amount × 100, dividends on half of what corporate tax leaves |
| SideBySide.Diff | src/components/SideBySideComparison.jsx:39-45 | every field of B equals A's field plus the difference |
| SideBySide.DiffAntisymmetric | src/components/SideBySideComparison.jsx:39-45 | swapping A and B negates every field; A against itself gives all zeros |
| SideBySide.DiffOfSums | src/components/SideBySideComparison.jsx:39-45 | the total difference is the sum of the component differences |
| SideBySide.DiffColor | src/components/SideBySideComparison.jsx:47-50 | neutral exactly when −100 < value < 100, red exactly from 100 up, green exactly from −100 down |
| SideBySide.DiffRowColor | src/components/SideBySideComparison.jsx:248-249 | red exactly above 100, green exactly below −100, neutral otherwise |
| SideBySide.DiffColoursDisagreeOnlyAtTheBoundary | src/components/SideBySideComparison.jsx:47-50 | the total-row rule and the component-row rule give different colours exactly at ±100 |
| SideBySide.DiffColorsAntisymmetric | src/components/SideBySideComparison.jsx:47-50 | negating a difference exchanges red and green under both rules |
| SideBySide.EffectiveRateColor | src/components/SideBySideComparison.jsx:162 | the effective-rate row is neutral exactly while the rates differ by less than 0.1 percentage point, red from +0.1, green from −0.1 |
| SideBySide.VerdictAsWritten | src/components/SideBySideComparison.jsx:169-179 | "A saves |d|" exactly when d < −1000, "A costs |d| more" exactly when d > 1000, equivalent otherwise |
| SideBySide.VerdictAsWrittenIsReversed | src/components/SideBySideComparison.jsx:169-179 | as written, "A saves x" is shown exactly when A's burden is x above B's, and "A costs x more" when it is x below |
| SideBySide.VerdictOf | src/components/SideBySideComparison.jsx:169-179 | corrected: "A saves \|d\|" exactly when d > 1000, "A costs \|d\| more" exactly when d < −1000 |
| SideBySide.VerdictTruthful | src/components/SideBySideComparison.jsx:169-179 | the corrected verdict says A saves x exactly when A's burden is x below B's, costs more when above, and is equivalent exactly when the totals differ by at most 1000 |
| SideBySide.Compare | src/components/SideBySideComparison.jsx:12-45 | nothing exactly when no snapshot is loaded or either key is missing; otherwise the two records, their burdens, the difference B − A and the verdict as the component writes it (VerdictAsWritten) |
| SideBySide.CompareSwapped | src/components/SideBySideComparison.jsx:35-45 | swapping the selections exchanges the burdens, negates the difference, and turns "A saves x" into "B costs x more" |
| SideBySide.CompareWithItself | src/components/SideBySideComparison.jsx:39-45 | a jurisdiction against itself shows no difference and an equivalent burden |
| SideBySide.InitialView | src/components/SideBySideComparison.jsx:8-10 | on the fallback snapshot the opening view (Singapore against Dubai, 1,000,000) shows totals 170,000 and 90,000 and difference −80,000; the verdict shown says Singapore saves 80,000, while the corrected verdict says it costs 80,000 more |
| ProSimulator.Sectors | src/components/ProSimulator.jsx:9-36 | only technology has an R&D intensity, only real estate a depreciation rate, only financial services a compliance overhead |
| ProSimulator.TaxCredits | src/components/ProSimulator.jsx:96-103 | the R&D credit (15 % of revenue × the credit rate) for technology when the jurisdiction offers one, 2 % of revenue for industry with energy credits, and 0 in every other case |
| ProSimulator.TaxCreditsNonNegative | src/components/ProSimulator.jsx:96-103 | with rates in [0, 1] and a non-negative revenue the credits are non-negative |
| ProSimulator.FallbackHasNoCredits | src/components/ProSimulator.jsx:96-103 | on the fallback table no sector ever receives a credit |
| ProSimulator.NetOfCredits | src/components/ProSimulator.jsx:106 | max(0, tax − credits): non-negative, one of the two, and no more than the tax when tax and credits are non-negative |
| ProSimulator.Calculate | src/components/ProSimulator.jsx:50-152 | nothing exactly when the selected jurisdiction's record is missing; otherwise every line of the waterfall as the block computes it, the three ratios to revenue, and final net profit + total taxes = EBIT + capital gain |
| ProSimulator.TaxLines | src/components/ProSimulator.jsx:92-129 | from EBIT: corporate tax at the standard rate, the sector credits, the tax net of them, the profit split into dividends and retained earnings, the dividend tax, a capital gain of twice the retained earnings and its tax, total taxes, and final net profit + total taxes = EBIT + capital gain |
| ProSimulator.OperatingCosts | src/components/ProSimulator.jsx:60-74 | revenue × cost ratio plus 15 % (technology), 8 % (industry), 3 % (financial) or 0 (real estate) of revenue |
| ProSimulator.Depreciation | src/components/ProSimulator.jsx:79-87 | 4 % of revenue for real estate, 5 % for industry, 2 % otherwise |
| ProSimulator.Credits | src/components/ProSimulator.jsx:96-103 | the accumulated credits equal TaxCredits |
| ProSimulator.WaterfallBounds | src/components/ProSimulator.jsx:106-126 | with rates and distribution ratio in [0, 1] and EBIT ≥ 0: 0 ≤ net corporate tax ≤ corporate tax ≤ EBIT, dividends lie between 0 and the pre-distribution profit, retained earnings and final net profit are non-negative |
| ProSimulator.ChainBounds | src/components/ProSimulator.jsx:106-126 | the same bounds stated on the amounts alone |
| ProSimulator.Remainders | src/components/ProSimulator.jsx:116-126 | what a non-negative profit leaves after the dividend split and both taxes is non-negative |
| ProSimulator.StepColor | src/components/ProSimulator.jsx:332-339 | green exactly for revenue and credit, blue for profit, red for cost and tax, purple for final, grey exactly for any other step type |

## Left out

- Network and file I/O: the `axios` request, its headers and 10-second timeout, and the
  `cheerio` parse in `scrapeTaxRate` are one fetch observation (responded or threw with a
  message); the `fs.writeFileSync` / `JSON.stringify` of the snapshot (backend/scraper.js:200-205)
  and the console logging are not modelled.
- Timing and concurrency of the `await`s: the builder's attempts are modelled in sequence, as
  the loop runs them, each with its own observation and clock reading.
- `loadTaxData` and its module globals (src/taxEngine.js:8-27), the dashboard's
  `fetch('/tax-data.json')` effect and loading flag, and `searchBusinesses` in src/api.js: they
  only load data over the network; a loaded snapshot is an `Option<Snapshot>` parameter.
- backend/server.js (a cron timer and signal handling), src/components/ReportExporter.jsx (PDF
  export through foreign libraries), src/components/LanguageSelector.jsx and src/i18n.js
  (translation wiring): not part of this model.
- React rendering, JSX, number formatting (`toFixed`, `toLocaleString`), `hsl` colour strings, and
  the chart and European-table components.
- Floating point: amounts and rates are exact reals, so IEEE-754 rounding is not modelled.
- TotalTaxBurden, BurdenData, Compare and Calculate require a non-zero amount (or revenue) only
  past their guards, where the code divides by it; an unknown key, no snapshot, an empty table,
  a missing selection or a missing jurisdiction return before any division and are modelled
  for every amount. Burden.Compute, CalculateBurden and ColorByValue divide unconditionally
  and require a non-zero amount (or maximum): JavaScript would produce NaN or Infinity there,
  which the real-valued model does not represent.
- Dashboard.InvestorComparison.SortedData: the tie order of JavaScript's `Array.sort` with a
  comparator that never returns 0 is implementation-defined; the model proves a sorted
  permutation and leaves the order of ties open.
- Dashboard.SortKey: only the five column keys the table headers use; a sort key string
  outside them is not modelled.
- Ordering.Less compares Dafny characters (code points); JavaScript compares UTF-16 code units.
  The two orders agree on the city names of the tables, which are all in the Basic
  Multilingual Plane.
- Property lookups by keys that the prototype of a JavaScript object also has (such as
  `constructor`) are not modelled; a lookup only finds the table's own keys.
- `getComparisonChartData` is the same function as `getInvestorMetrics` and has no member
  of its own.
- The side-by-side terminal and the simulator test `taxData.jurisdictions` for absence; a
  loaded snapshot always has the field in the model, so only an absent snapshot is modelled.
- ProSimulator.Calculate takes the selected jurisdiction's record as the component looks it up
  (src/components/ProSimulator.jsx:50), None when the key is missing or no snapshot is loaded;
  the component's own early `return null` without a snapshot (line 47) is rendering.
- The simulator's `exitValue` is a local of the block, not a returned field; the model states
  it through `capitalGain` = 2 × retained earnings and the 3 × retained earnings in the final
  net profit.
- SECTORS labels and descriptions, and the TAX_DATA / comparison-table prose fields other than
  those the model's records keep, are display text.

## Findings

| source | as written | input that shows it | evidently intended | confidence | as-written member | corrected member |
|---|---|---|---|---|---|---|
| src/components/SideBySideComparison.jsx:169-179 | with `diff.total` = B − A below −1000 the verdict says A saves \|diff.total\|, and above 1000 that A costs that much more | the opening view on the fallback data: A = Singapore (total 170,000), B = Dubai (90,000), amount 1,000,000, so diff.total = −80,000 and the verdict reads "Singapur saves $80,000" although Singapore costs 80,000 more | A saves when B is worse (diff.total > 1000) and costs more when B is better (diff.total < −1000), matching the diff colours, where a positive difference means B is worse | medium, not executed | SideBySide.VerdictAsWrittenIsReversed, SideBySide.InitialView | SideBySide.VerdictTruthful |
