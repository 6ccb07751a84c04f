/** The three-part "total tax burden" on an amount, as computed by `calculateTotalTaxBurden`
    (src/taxEngine.js), by `burdenData` (src/App.jsx) and by `calculateBurden`
    (src/components/SideBySideComparison.jsx): corporate tax on the whole amount, capital-gains
    tax on 20 % of it, and dividend tax on half of what is left after corporate tax. */
module Burden {
  import opened Records

  /** Share of the amount assumed to be realised as capital gains. */
  const CAPITAL_GAINS_SHARE: real := 0.2
  /** Share of the after-corporate-tax amount assumed to be distributed as dividends. */
  const DISTRIBUTED_SHARE: real := 0.5

  datatype Breakdown = Breakdown(
    corporate: real,
    capitalGains: real,
    dividends: real,
    total: real,
    effectiveRate: real)

  /** The single rate that the three-part formula amounts to, as a fraction of the amount. */
  function CombinedRate(corporateRate: real, capitalGainsRate: real, dividendRate: real): real
  {
    corporateRate + CAPITAL_GAINS_SHARE * capitalGainsRate
      + DISTRIBUTED_SHARE * (1.0 - corporateRate) * dividendRate
  }

  /** The burden on `amount` at the given rates. */
  function Compute(amount: real, corporateRate: real, capitalGainsRate: real, dividendRate: real)
    : (b: Breakdown)
    requires amount != 0.0
    ensures b.total == b.corporate + b.capitalGains + b.dividends
    ensures b.total == amount * CombinedRate(corporateRate, capitalGainsRate, dividendRate)
    ensures b.effectiveRate == b.total / amount * 100.0
    ensures b.effectiveRate == 100.0 * CombinedRate(corporateRate, capitalGainsRate, dividendRate)
  {
    var corporate := amount * corporateRate;
    var capitalGains := amount * CAPITAL_GAINS_SHARE * capitalGainsRate;
    var dividends := (amount - corporate) * DISTRIBUTED_SHARE * dividendRate;
    var total := corporate + capitalGains + dividends;
    Distribute(amount, corporateRate, capitalGainsRate, dividendRate);
    DivideBack(amount, CombinedRate(corporateRate, capitalGainsRate, dividendRate));
    Breakdown(corporate, capitalGains, dividends, total, (total / amount) * 100.0)
  }

  /** The three parts, written out, add up to the amount times the combined rate. */
  lemma Distribute(a: real, c: real, g: real, d: real)
    ensures a * c + a * CAPITAL_GAINS_SHARE * g + (a - a * c) * DISTRIBUTED_SHARE * d
            == a * CombinedRate(c, g, d)
  {
  }

  lemma DivideBack(a: real, x: real)
    requires a != 0.0
    ensures (a * x) / a == x
  {
  }

  lemma MulNonNegative(x: real, y: real)
    requires 0.0 <= x && 0.0 <= y
    ensures 0.0 <= x * y
  {
  }

  /** With rates in [0, 1] the combined rate lies between the corporate rate and 1.2. */
  lemma CombinedRateBounds(corporateRate: real, capitalGainsRate: real, dividendRate: real)
    requires IsRate(corporateRate) && IsRate(capitalGainsRate) && IsRate(dividendRate)
    ensures corporateRate <= CombinedRate(corporateRate, capitalGainsRate, dividendRate) <= 1.2
  {
    var c, g, d := corporateRate, capitalGainsRate, dividendRate;
    assert 0.0 <= (1.0 - c) * d <= 1.0 - c by {
      assert 0.0 <= 1.0 - c;
      MulBounded(1.0 - c, d);
    }
  }

  /** 0 <= x * y <= x for x >= 0 and y in [0, 1]. */
  lemma MulBounded(x: real, y: real)
    requires 0.0 <= x && IsRate(y)
    ensures 0.0 <= x * y <= x
  {
    assert x * y <= x * 1.0;
  }

  /** With rates in [0, 1] and a positive amount, every part of the burden is non-negative,
      the corporate part never exceeds the amount, and the effective rate lies between the
      corporate rate (as a percentage) and 120 %. */
  lemma ComputeBounds(amount: real, corporateRate: real, capitalGainsRate: real, dividendRate: real)
    requires amount > 0.0
    requires IsRate(corporateRate) && IsRate(capitalGainsRate) && IsRate(dividendRate)
    ensures var b := Compute(amount, corporateRate, capitalGainsRate, dividendRate);
      && 0.0 <= b.corporate <= amount
      && 0.0 <= b.capitalGains
      && 0.0 <= b.dividends
      && 0.0 <= b.total <= 1.2 * amount
      && 100.0 * corporateRate <= b.effectiveRate <= 120.0
  {
    var b := Compute(amount, corporateRate, capitalGainsRate, dividendRate);
    var r := CombinedRate(corporateRate, capitalGainsRate, dividendRate);
    assert 0.0 <= b.corporate <= amount by { MulBounded(amount, corporateRate); }
    assert 0.0 <= b.capitalGains by {
      MulNonNegative(amount * CAPITAL_GAINS_SHARE, capitalGainsRate);
    }
    assert 0.0 <= b.dividends by {
      MulNonNegative((amount - b.corporate) * DISTRIBUTED_SHARE, dividendRate);
    }
    assert corporateRate <= r <= 1.2 by {
      CombinedRateBounds(corporateRate, capitalGainsRate, dividendRate);
    }
    assert b.total <= 1.2 * amount by {
      MulNonNegative(amount, 1.2 - r);
    }
  }

  /** The combined rate grows with each of the three rates. */
  lemma CombinedRateMonotone(c: real, g: real, d: real, c': real, g': real, d': real)
    requires IsRate(c) && IsRate(g) && IsRate(d) && IsRate(c') && IsRate(g') && IsRate(d')
    requires c <= c' && g <= g' && d <= d'
    ensures CombinedRate(c, g, d) <= CombinedRate(c', g', d')
  {
    // CombinedRate(c, g, d) = c * (1 - d / 2) + g / 5 + d / 2
    assert CombinedRate(c, g, d) == c * (1.0 - 0.5 * d) + 0.2 * g + 0.5 * d;
    assert CombinedRate(c', g', d') == c' * (1.0 - 0.5 * d') + 0.2 * g' + 0.5 * d';
    MulNonNegative(c' - c, 1.0 - 0.5 * d);
    assert c' * (1.0 - 0.5 * d) - c * (1.0 - 0.5 * d) == (c' - c) * (1.0 - 0.5 * d);
    MulNonNegative(d' - d, 1.0 - c');
    assert c' * (1.0 - 0.5 * d') + 0.5 * d' - (c' * (1.0 - 0.5 * d) + 0.5 * d)
        == 0.5 * ((d' - d) * (1.0 - c'));
  }

  /** For a positive amount, a jurisdiction whose three rates are each no higher than
      another's never carries the larger total burden. */
  lemma ComputeTotalMonotone(amount: real, c: real, g: real, d: real, c': real, g': real, d': real)
    requires amount > 0.0
    requires IsRate(c) && IsRate(g) && IsRate(d) && IsRate(c') && IsRate(g') && IsRate(d')
    requires c <= c' && g <= g' && d <= d'
    ensures Compute(amount, c, g, d).total <= Compute(amount, c', g', d').total
  {
    CombinedRateMonotone(c, g, d, c', g', d');
    ScaleMonotone(amount, CombinedRate(c, g, d), CombinedRate(c', g', d'),
      Compute(amount, c, g, d).total, Compute(amount, c', g', d').total);
  }

  /** Scaling by a positive amount keeps the order. */
  lemma ScaleMonotone(amount: real, r: real, r': real, t: real, t': real)
    requires amount > 0.0 && r <= r'
    requires t == amount * r && t' == amount * r'
    ensures t <= t'
  {
    assert amount * (r' - r) >= 0.0;
  }

  /** Under the same conditions the effective rate is never the larger either. */
  lemma ComputeRateMonotone(amount: real, c: real, g: real, d: real, c': real, g': real, d': real)
    requires amount > 0.0
    requires IsRate(c) && IsRate(g) && IsRate(d) && IsRate(c') && IsRate(g') && IsRate(d')
    requires c <= c' && g <= g' && d <= d'
    ensures Compute(amount, c, g, d).effectiveRate <= Compute(amount, c', g', d').effectiveRate
  {
    CombinedRateMonotone(c, g, d, c', g', d');
  }

  /** The effective rate does not depend on the amount, and the total scales with it. */
  lemma ComputeScales(amount: real, k: real, c: real, g: real, d: real)
    requires amount != 0.0 && k != 0.0
    ensures Compute(k * amount, c, g, d).effectiveRate == Compute(amount, c, g, d).effectiveRate
    ensures Compute(k * amount, c, g, d).total == k * Compute(amount, c, g, d).total
  {
  }
}
