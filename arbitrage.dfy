/**
 * Triangular-arbitrage arithmetic of the AUD -> USDT -> CNY calculator.
 *
 * One unit of AUD is converted to CNY twice: through USDT (two hops at the
 * AUD/USDT and USDT/CNY rates) and directly (one hop at the AUD/CNY cross
 * rate). The relative spread between the two outcomes, in percent, decides
 * whether an arbitrage opportunity is reported. Exchange rates are modelled
 * as exact reals; the floating-point rounding of the Python script is abstracted.
 */
module ArbitrageCalculator {

  /** The amount of AUD the calculator starts from. */
  const InitialAud: real := 1.0

  // Ranges of the three rate sliders.
  const AudUsdtMin: real := 0.4
  const AudUsdtMax: real := 0.6
  const UsdtCnyMin: real := 6.5
  const UsdtCnyMax: real := 7.5
  const AudCnyMin: real := 4.0
  const AudCnyMax: real := 6.0

  // Values the sliders start at.
  const AudUsdtDefault: real := 0.5
  const UsdtCnyDefault: real := 7.0
  const AudCnyDefault: real := 4.8

  // Sign and monotonicity of real multiplication, used by the proofs below.

  lemma MulSign(a: real, b: real)
    requires b > 0.0
    ensures a * b > 0.0 <==> a > 0.0
    ensures a * b < 0.0 <==> a < 0.0
  {
  }

  lemma MulMono(a: real, b: real, c: real)
    requires a <= b && c >= 0.0
    ensures a * c <= b * c
  {
  }

  /** The rates the three sliders can deliver. */
  predicate InSliderRange(audUsdt: real, usdtCny: real, audCny: real) {
    && AudUsdtMin <= audUsdt <= AudUsdtMax
    && UsdtCnyMin <= usdtCny <= UsdtCnyMax
    && AudCnyMin <= audCny <= AudCnyMax
  }

  /** CNY obtained for `initial` AUD along AUD -> USDT -> CNY. */
  function ViaAmount(initial: real, audUsdt: real, usdtCny: real): (r: real)
    ensures initial > 0.0 && audUsdt > 0.0 && usdtCny > 0.0 ==> r > 0.0
  {
    initial * audUsdt * usdtCny
  }

  /** CNY obtained for `initial` AUD at the direct AUD/CNY rate. */
  function DirectAmount(initial: real, audCny: real): (r: real)
    ensures r == 0.0 <==> initial == 0.0 || audCny == 0.0
    ensures initial > 0.0 && audCny > 0.0 ==> r > 0.0
  {
    initial * audCny
  }

  /** Relative gain, in percent, of the via-path amount over the direct one;
      exactly 0 when the direct amount is 0 (no division takes place). */
  function ProfitPercent(via: real, direct: real): (r: real)
    ensures direct == 0.0 ==> r == 0.0
    ensures direct != 0.0 ==> via == direct * (1.0 + r / 100.0)
    ensures r == 0.0 <==> direct == 0.0 || via == direct
  {
    if direct == 0.0 then 0.0 else (via - direct) / direct * 100.0
  }

  /** The verdict of the calculator: an opportunity exists when the profit
      percentage is strictly positive. */
  predicate HasOpportunity(profit: real) {
    profit > 0.0
  }

  /** What one run of the calculator computes and reports. */
  datatype Report = Report(via: real, direct: real, profit: real, opportunity: bool)

  /** One run of the calculator for the three slider rates, starting from
      InitialAud. */
  function Calculate(audUsdt: real, usdtCny: real, audCny: real): (r: Report)
    requires InSliderRange(audUsdt, usdtCny, audCny)
    ensures r.via == audUsdt * usdtCny && r.direct == audCny
    ensures r.direct > 0.0
    ensures r.via == r.direct * (1.0 + r.profit / 100.0)
    ensures r.opportunity <==> audUsdt * usdtCny > audCny
    ensures -170.0 / 3.0 <= r.profit <= 12.5
  {
    var via := ViaAmount(InitialAud, audUsdt, usdtCny);
    var direct := DirectAmount(InitialAud, audCny);
    var profit := ProfitPercent(via, direct);
    OpportunityIffGain(via, direct);
    SliderProfitBounds(audUsdt, usdtCny, audCny);
    Report(via, direct, profit, HasOpportunity(profit))
  }

  /** The calculator reports an opportunity exactly when the via path yields
      strictly more than the direct path (for a positive direct amount), or
      strictly less for a negative one; equal amounts and a zero direct amount
      never count as an opportunity. */
  lemma OpportunityIffGain(via: real, direct: real)
    ensures HasOpportunity(ProfitPercent(via, direct)) <==>
            (direct > 0.0 && via > direct) || (direct < 0.0 && via < direct)
  {
  }

  /** Corollary for the calculator's setting: with a positive direct amount an
      opportunity is reported iff the via path yields strictly more. */
  lemma OpportunityIffViaExceedsDirect(via: real, direct: real)
    requires direct > 0.0
    ensures HasOpportunity(ProfitPercent(via, direct)) <==> via > direct
  {
  }

  /** With positive amounts on both paths the loss is always less than 100%. */
  lemma ProfitAboveMinusHundred(via: real, direct: real)
    requires via > 0.0 && direct > 0.0
    ensures ProfitPercent(via, direct) > -100.0
  {
    var q := (via - direct) / direct;
    assert q * direct == via - direct;
    assert (q + 1.0) * direct == via;
    MulSign(q + 1.0, direct);
  }

  /** For a positive amount and positive rates the loss is less than 100%. */
  lemma PositiveRatesProfitAboveMinusHundred(initial: real, audUsdt: real, usdtCny: real, audCny: real)
    requires initial > 0.0 && audUsdt > 0.0 && usdtCny > 0.0 && audCny > 0.0
    ensures ProfitPercent(ViaAmount(initial, audUsdt, usdtCny), DirectAmount(initial, audCny)) > -100.0
  {
    ProfitAboveMinusHundred(ViaAmount(initial, audUsdt, usdtCny), DirectAmount(initial, audCny));
  }

  /** Scaling both amounts by the same nonzero factor leaves the profit
      percentage unchanged. */
  lemma ProfitScaleInvariant(k: real, via: real, direct: real)
    requires k != 0.0
    ensures ProfitPercent(k * via, k * direct) == ProfitPercent(via, direct)
  {
  }

  /** The profit percentage does not depend on the starting amount: for any
      nonzero amount it is the one computed for InitialAud. */
  lemma ProfitIndependentOfInitial(initial: real, audUsdt: real, usdtCny: real, audCny: real)
    requires initial != 0.0
    ensures ProfitPercent(ViaAmount(initial, audUsdt, usdtCny), DirectAmount(initial, audCny))
         == ProfitPercent(ViaAmount(InitialAud, audUsdt, usdtCny), DirectAmount(InitialAud, audCny))
  {
  }

  /** On the slider ranges the direct amount for InitialAud is positive, so
      the zero guard is never taken and the profit is the plain spread. */
  lemma SliderGuardUnreachable(audUsdt: real, usdtCny: real, audCny: real)
    requires InSliderRange(audUsdt, usdtCny, audCny)
    ensures DirectAmount(InitialAud, audCny) >= AudCnyMin
    ensures var via, direct := ViaAmount(InitialAud, audUsdt, usdtCny), DirectAmount(InitialAud, audCny);
            ProfitPercent(via, direct) * direct == (via - direct) * 100.0
  {
  }

  /** On the slider ranges one AUD yields between 2.6 and 4.5 CNY via USDT. */
  lemma SliderViaBounds(audUsdt: real, usdtCny: real)
    requires AudUsdtMin <= audUsdt <= AudUsdtMax && UsdtCnyMin <= usdtCny <= UsdtCnyMax
    ensures 2.6 <= ViaAmount(InitialAud, audUsdt, usdtCny) <= 4.5
  {
    MulMono(0.4, audUsdt, 6.5);
    assert 2.6 <= audUsdt * 6.5;
    MulMono(6.5, usdtCny, audUsdt);
    assert 6.5 * audUsdt <= usdtCny * audUsdt;
    assert usdtCny * audUsdt == audUsdt * usdtCny;
    assert 2.6 <= audUsdt * usdtCny;
    MulMono(audUsdt, 0.6, usdtCny);
    assert audUsdt * usdtCny <= 0.6 * usdtCny;
    MulMono(usdtCny, 7.5, 0.6);
    assert usdtCny * 0.6 <= 4.5;
    assert ViaAmount(InitialAud, audUsdt, usdtCny) == audUsdt * usdtCny;
  }

  /** On the slider ranges the profit percentage lies between the values at
      the two extreme corners of the ranges. */
  lemma SliderProfitBounds(audUsdt: real, usdtCny: real, audCny: real)
    requires InSliderRange(audUsdt, usdtCny, audCny)
    ensures -170.0 / 3.0 <= ProfitPercent(ViaAmount(InitialAud, audUsdt, usdtCny), DirectAmount(InitialAud, audCny)) <= 12.5
  {
    SliderViaBounds(audUsdt, usdtCny);
    var via := ViaAmount(InitialAud, audUsdt, usdtCny);
    SpreadBounds(via, audCny);
  }

  /** A via amount in [2.6, 4.5] against a direct amount in [4, 6] gives a
      profit percentage in [-170/3, 12.5]. */
  lemma SpreadBounds(via: real, direct: real)
    requires 2.6 <= via <= 4.5 && AudCnyMin <= direct <= AudCnyMax
    ensures -170.0 / 3.0 <= ProfitPercent(via, direct) <= 12.5
  {
    // The profit is q * 100 with q * direct == via - direct.
    var q := (via - direct) / direct;
    assert q * direct == via - direct;
    assert ProfitPercent(via, direct) == q * 100.0;
    // via >= 13/30 * direct, so q >= -17/30
    MulMono(direct, 6.0, 13.0 / 30.0);
    assert (q + 17.0 / 30.0) * direct == via - 13.0 / 30.0 * direct;
    assert 13.0 / 30.0 * direct <= 2.6;
    assert (q + 17.0 / 30.0) * direct >= 0.0;
    MulSign(q + 17.0 / 30.0, direct);
    assert q >= -17.0 / 30.0;
    // via <= 9/8 * direct, so q <= 1/8
    MulMono(4.0, direct, 9.0 / 8.0);
    assert (1.0 / 8.0 - q) * direct == 9.0 / 8.0 * direct - via;
    assert 9.0 / 8.0 * direct >= 4.5;
    assert (1.0 / 8.0 - q) * direct >= 0.0;
    MulSign(1.0 / 8.0 - q, direct);
    assert q <= 1.0 / 8.0;
  }

  /** Both bounds of SliderProfitBounds are reached by slider settings, and
      so both verdicts occur. */
  lemma SliderProfitBoundsTight()
    ensures InSliderRange(AudUsdtMin, UsdtCnyMin, AudCnyMax)
    ensures Calculate(AudUsdtMin, UsdtCnyMin, AudCnyMax).profit == -170.0 / 3.0
    ensures !Calculate(AudUsdtMin, UsdtCnyMin, AudCnyMax).opportunity
    ensures InSliderRange(AudUsdtMax, UsdtCnyMax, AudCnyMin)
    ensures Calculate(AudUsdtMax, UsdtCnyMax, AudCnyMin).profit == 12.5
    ensures Calculate(AudUsdtMax, UsdtCnyMax, AudCnyMin).opportunity
  {
  }

  /** The calculator at its default slider positions: 3.5 CNY via USDT,
      4.8 CNY direct, a loss of 325/12 percent (about 27.08%), no opportunity. */
  lemma DefaultSliders()
    ensures InSliderRange(AudUsdtDefault, UsdtCnyDefault, AudCnyDefault)
    ensures Calculate(AudUsdtDefault, UsdtCnyDefault, AudCnyDefault)
         == Report(3.5, 4.8, -325.0 / 12.0, false)
  {
  }
}
