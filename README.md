# Triangular-arbitrage calculator (AUD → USDT → CNY), modelled in Dafny

The calculator takes three exchange rates from sliders: AUD/USDT, USDT/CNY, and the
direct AUD/CNY cross rate. It starts from one AUD and computes two CNY amounts. The
via-path amount converts through USDT in two hops. The direct amount uses the cross
rate. It then computes the relative spread of the via path over the direct path, in
percent. A zero direct amount gives a spread of exactly 0, and no division is done.
A strictly positive spread is reported as an arbitrage opportunity. Anything else is
reported as no opportunity.

`arbitrage.dfy` holds one module, `ArbitrageCalculator`, made of pure functions over
`real`:

- `ViaAmount`, `DirectAmount` and `ProfitPercent` are total arithmetic functions.
- `HasOpportunity` is the strict `> 0` verdict.
- `InSliderRange` states the slider bounds.
- `Calculate` is one run of the script for one slider setting. Its precondition is
  the slider bounds, and it returns a `Report` of the four computed values.

The lemmas state how the verdict relates to the two amounts, and that the spread
does not depend on the starting amount. They also show that the spread stays above
−100% and that the zero guard cannot be reached from the sliders. Finally they give
the exact range of the spread over the slider box.

The calculator has no target-profit solver, no tolerance band and no live rate
feed. Its verdict is the plain two-way `> 0` test of arbitrage_calculator.py:42.

## Model

| member | source | states |
|---|---|---|
| ArbitrageCalculator.ViaAmount | arbitrage_calculator.py:25 | the via-path amount, the product of the amount and the two hop rates, is positive for a positive amount and positive rates |
| ArbitrageCalculator.DirectAmount | arbitrage_calculator.py:28 | the direct amount is zero exactly when the amount or the rate is zero, and positive when both are positive |
| ArbitrageCalculator.ProfitPercent | arbitrage_calculator.py:34-37 | a zero direct amount gives exactly 0; otherwise the result r satisfies via = direct · (1 + r/100), so it is the relative gain in percent; r is 0 exactly when the direct amount is 0 or the two amounts are equal |
| ArbitrageCalculator.Calculate | arbitrage_calculator.py:10-45 | for a slider setting and 1 AUD: via = AUD/USDT · USDT/CNY, direct = AUD/CNY > 0, the profit relates the two amounts as above, an opportunity is reported exactly when via > direct, and the profit lies in [−170/3, 12.5] |
| ArbitrageCalculator.OpportunityIffGain | arbitrage_calculator.py:34-45 | an opportunity is reported exactly when the direct amount is positive and the via amount is strictly larger, or the direct amount is negative and the via amount is strictly smaller; equal amounts and a zero direct amount never count |
| ArbitrageCalculator.OpportunityIffViaExceedsDirect | arbitrage_calculator.py:37-45 | for a positive direct amount, an opportunity is reported exactly when via > direct (equality is no opportunity) |
| ArbitrageCalculator.ProfitAboveMinusHundred | arbitrage_calculator.py:37 | with positive via and direct amounts the profit percentage is strictly greater than −100 |
| ArbitrageCalculator.PositiveRatesProfitAboveMinusHundred | arbitrage_calculator.py:25-37 | for a positive amount and positive rates the profit percentage is strictly greater than −100 |
| ArbitrageCalculator.ProfitScaleInvariant | arbitrage_calculator.py:34-37 | scaling the via and direct amounts by the same nonzero factor leaves the profit percentage unchanged |
| ArbitrageCalculator.ProfitIndependentOfInitial | arbitrage_calculator.py:22-37 | for any nonzero starting amount the profit percentage equals the one for the fixed starting amount of 1 AUD |
| ArbitrageCalculator.SliderGuardUnreachable | arbitrage_calculator.py:16-37 | on the slider ranges the direct amount for 1 AUD is at least 4, so the zero guard is never taken and profit · direct = (via − direct) · 100 |
| ArbitrageCalculator.SliderViaBounds | arbitrage_calculator.py:10-25 | on the AUD/USDT and USDT/CNY slider ranges one AUD yields between 2.6 and 4.5 CNY via USDT |
| ArbitrageCalculator.SpreadBounds | arbitrage_calculator.py:37 | a via amount in [2.6, 4.5] against a direct amount in [4, 6] gives a profit percentage in [−170/3, 12.5] |
| ArbitrageCalculator.SliderProfitBounds | arbitrage_calculator.py:10-37 | on the slider ranges the profit percentage lies in [−170/3, 12.5] |
| ArbitrageCalculator.SliderProfitBoundsTight | arbitrage_calculator.py:10-45 | AUD/USDT and USDT/CNY at their minimum with AUD/CNY at its maximum give exactly −170/3 and no opportunity; the opposite corner gives exactly 12.5 and an opportunity |
| ArbitrageCalculator.DefaultSliders | arbitrage_calculator.py:10-45 | at the default slider positions (0.5, 7.0, 4.8) the calculator gives 3.5 CNY via USDT, 4.8 CNY direct, a profit of −325/12 % (about −27.08 %) and no opportunity |

`HasOpportunity` is the strict `> 0` test of arbitrage_calculator.py:42. Its meaning in
terms of the two amounts is stated by `OpportunityIffGain` and
`OpportunityIffViaExceedsDirect`.

## Left out

- Page rendering: the title, headers, slider widgets, result lines and the
  success/error banners (arbitrage_calculator.py:1-19, 30-31, 39, 43, 45). Widget I/O
  has no content to verify beyond the slider ranges. Those ranges are `InSliderRange`,
  and the banner choice is the `opportunity` field of `Report`.
- Formatting of the amounts to 4 decimals and of the percentage to 2 decimals
  (lines 30, 31, 39). This is presentation with float rounding.
- IEEE-754 floating-point behaviour. Rates and amounts are exact reals, so rounding
  noise, and a direct amount that underflows to zero, are not modelled.
- The slider step sizes (0.001, 0.01, 0.01). `InSliderRange` allows every real in
  each range. That is a superset of the values the sliders produce, so every
  property proved over the range also holds for the stepped values.
