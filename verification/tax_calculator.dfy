/** Tax on a subtotal from a per-country configuration. Amounts are exact
    reals; `Round2` is rounding to two decimal places with ties away from
    zero, which is what `toFixed(2)` does on an exact decimal. */
module TaxCalculator {
  import opened Wrappers
  import opened Lookup
  import opened Entities

  datatype TaxResult = TaxResult(rate: real, taxAmount: real, total: real, taxType: string)

  function Abs(x: real): real
  {
    if x < 0.0 then -x else x
  }

  /** `x` in hundredths, rounded to the nearest whole number; a tie goes
      away from zero. */
  function Cents(x: real): int
  {
    if x >= 0.0 then (x * 100.0 + 0.5).Floor else -(((-x) * 100.0 + 0.5).Floor)
  }

  /** `x` rounded to a whole number of hundredths. */
  function Round2(x: real): real
  {
    Cents(x) as real / 100.0
  }

  /** `Round2(x)` is a whole number of hundredths at most half a hundredth
      from `x`, and it keeps the sign of a non-negative `x`. */
  lemma Round2Bounds(x: real)
    ensures Round2(x) * 100.0 == Cents(x) as real
    ensures Abs(Round2(x) - x) <= 0.005
    ensures x >= 0.0 ==> Round2(x) >= 0.0
  {
    var c := Cents(x);
    assert x >= 0.0 ==> c as real <= x * 100.0 + 0.5 < c as real + 1.0;
    assert x < 0.0 ==> -c as real <= (-x) * 100.0 + 0.5 < -c as real + 1.0;
  }

  /** No whole number of hundredths is closer to `x` than `Round2(x)`. */
  lemma Round2IsNearest(x: real, k: int)
    ensures Abs(Round2(x) - x) <= Abs(k as real / 100.0 - x)
  {
    Round2Bounds(x);
    var r := Round2(x);
    var m := Cents(x);
    assert r == m as real / 100.0;
    if k != m {
      assert Abs(k as real / 100.0 - r) >= 0.01;
    }
  }

  /** A tie, an amount exactly half a cent above or below a whole number of
      cents, is rounded away from zero, as `toFixed(2)` does. */
  lemma Round2TiesAwayFromZero(k: nat)
    ensures Round2((k as real + 0.5) / 100.0) == (k + 1) as real / 100.0
    ensures Round2(-(k as real + 0.5) / 100.0) == -((k + 1) as real) / 100.0
  {
    var x := (k as real + 0.5) / 100.0;
    assert x * 100.0 + 0.5 == (k + 1) as real;
    assert Cents(x) == k + 1;
    assert Cents(-x) == -(k + 1);
  }

  /** Rounding preserves order. */
  lemma Round2Monotonic(x: real, y: real)
    requires x <= y
    ensures Round2(x) <= Round2(y)
  {
    if 0.0 <= x {
      assert Cents(x) <= Cents(y);
    } else if y < 0.0 {
      assert ((-y) * 100.0 + 0.5).Floor <= ((-x) * 100.0 + 0.5).Floor;
    }
  }

  /** The unrounded tax on `subtotal` at `percent` per cent. */
  function TaxOn(subtotal: real, percent: real): real
  {
    subtotal * percent / 100.0
  }

  /** The configuration used for `country`: the first one whose country is
      exactly `country`. */
  function FindTaxConfig(configs: seq<TaxConfig>, country: string): Option<nat>
  {
    FirstIndex(configs, (c: TaxConfig) => c.country == country)
  }

  /** Rate (as a percentage), rounded tax, rounded total and tax type for a
      subtotal. The total is rounded from the unrounded tax. */
  function Calculate(configs: seq<TaxConfig>, country: string, subtotal: real): (r: TaxResult)
    ensures r.taxAmount == Round2(TaxOn(subtotal, r.rate))
    ensures r.total == Round2(subtotal + TaxOn(subtotal, r.rate))
    ensures FindTaxConfig(configs, country).None? ==> r.rate == 0.0 && r.taxType == "N/A"
    ensures FindTaxConfig(configs, country).Some? ==>
              var c := configs[FindTaxConfig(configs, country).value];
              c.country == country && r.rate == c.rate && r.taxType == c.taxType
  {
    // The calculator divides the configured percentage by 100 and multiplies
    // the rate back by 100 for the result; on exact reals that is the percentage.
    match FindTaxConfig(configs, country)
    case Some(i) => Taxed(subtotal, configs[i].rate, configs[i].taxType)
    case None => Taxed(subtotal, 0.0, "N/A")
  }

  function Taxed(subtotal: real, percent: real, taxType: string): TaxResult
  {
    var taxAmount := TaxOn(subtotal, percent);
    TaxResult(percent, Round2(taxAmount), Round2(subtotal + taxAmount), taxType)
  }

  /** The configuration used for `country`, if any, has a non-negative rate. */
  predicate PickedRateNonNegative(configs: seq<TaxConfig>, country: string)
  {
    FindTaxConfig(configs, country).Some? ==> configs[FindTaxConfig(configs, country).value].rate >= 0.0
  }

  /** Without a configuration for the country there is no tax. */
  lemma CalculateWithoutConfig(configs: seq<TaxConfig>, country: string, subtotal: real)
    requires forall c :: c in configs ==> c.country != country
    ensures var r := Calculate(configs, country, subtotal);
            r.rate == 0.0 && r.taxAmount == 0.0 && r.total == Round2(subtotal) && r.taxType == "N/A"
  {
  }

  /** The total is within one cent of the subtotal plus the rounded tax. */
  lemma CalculateTotalNearSum(configs: seq<TaxConfig>, country: string, subtotal: real)
    ensures var r := Calculate(configs, country, subtotal);
            Abs(r.total - (subtotal + r.taxAmount)) <= 0.01
  {
    var r := Calculate(configs, country, subtotal);
    var tax := TaxOn(subtotal, r.rate);
    Round2Bounds(tax);
    Round2Bounds(subtotal + tax);
  }

  /** The total need not equal the subtotal plus the rounded tax: a
      sub-cent subtotal taxed at 100% has a rounded tax of 0 but a rounded
      total of one cent. */
  lemma CalculateTotalCanDifferFromSum()
    ensures var r := Calculate([TaxConfig(0, "IN", 100.0, "GST")], "IN", 0.004);
            r.taxAmount == 0.0 && r.total == 0.01 && r.total != 0.004 + r.taxAmount
  {
    assert Cents(0.004) == 0;
    assert Cents(0.008) == 1;
  }

  /** Adding a non-negative whole number of cents commutes with rounding a
      non-negative amount. */
  lemma Round2ShiftWholeCents(k: nat, t: real)
    requires t >= 0.0
    ensures Round2(k as real / 100.0 + t) == k as real / 100.0 + Round2(t)
  {
    var y := t * 100.0 + 0.5;
    assert (k as real / 100.0 + t) * 100.0 + 0.5 == k as real + y;
    assert (k as real + y).Floor == k + y.Floor;
  }

  /** For a subtotal of whole cents at a non-negative rate the total is
      exactly the subtotal plus the rounded tax, so a difference needs a
      sub-cent subtotal or a negative amount. */
  lemma CalculateTotalIsSumForWholeCents(configs: seq<TaxConfig>, country: string, k: nat)
    requires PickedRateNonNegative(configs, country)
    ensures var r := Calculate(configs, country, k as real / 100.0);
            r.total == k as real / 100.0 + r.taxAmount
  {
    var subtotal := k as real / 100.0;
    var r := Calculate(configs, country, subtotal);
    TaxOnNonNegative(subtotal, r.rate);
    Round2ShiftWholeCents(k, TaxOn(subtotal, r.rate));
  }

  lemma TaxOnNonNegative(subtotal: real, percent: real)
    requires subtotal >= 0.0 && percent >= 0.0
    ensures TaxOn(subtotal, percent) >= 0.0
  {
  }

  /** A non-negative subtotal at a non-negative rate gives a non-negative
      tax and a total no smaller than the rounded subtotal. */
  lemma CalculateNonNegative(configs: seq<TaxConfig>, country: string, subtotal: real)
    requires subtotal >= 0.0
    requires PickedRateNonNegative(configs, country)
    ensures var r := Calculate(configs, country, subtotal);
            r.taxAmount >= 0.0 && r.total >= Round2(subtotal)
  {
    var r := Calculate(configs, country, subtotal);
    var tax := TaxOn(subtotal, r.rate);
    TaxOnNonNegative(subtotal, r.rate);
    Round2Bounds(tax);
    Round2Monotonic(subtotal, subtotal + tax);
  }
}
