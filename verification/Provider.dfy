/**
 Cost accounting of provider runs, and the request loop that keeps a run within its budget.
 */
module Provider {
  import opened Common

  datatype Usage = Usage(input: nat, cached: nat, written: nat, output: nat, reasoning: nat)

  datatype LongContext = LongContext(threshold: nat, inputNum: nat, inputDen: nat, outputNum: nat, outputDen: nat)

  /** Rates in micro-dollars per million tokens. */
  datatype RateCard = RateCard(uncached: nat, cached: nat, written: nat, output: nat, long: Option<LongContext>)

  const MAX_SAFE: nat := 9_007_199_254_740_991
  const MILLION: nat := 1_000_000

  /** The schema demands positive multipliers. */
  predicate CardOk(card: RateCard) {
    card.long.Some? ==> card.long.value.inputDen > 0 && card.long.value.outputDen > 0
  }

  predicate UsageOk(u: Usage) {
    && u.input <= MAX_SAFE && u.cached <= MAX_SAFE && u.written <= MAX_SAFE && u.output <= MAX_SAFE
       && u.reasoning <= MAX_SAFE
    && u.cached + u.written <= u.input
  }

  /** Categories that fit the total, the part of the check that arithmetic rests on. */
  predicate Consistent(u: Usage) {
    u.cached + u.written <= u.input
  }

  function DivideRoundUp(numerator: nat, denominator: nat): nat
    requires denominator > 0
  {
    (numerator + denominator - 1) / denominator
  }

  function InputNumerator(u: Usage, card: RateCard): nat
    requires Consistent(u)
  {
    (u.input - u.cached - u.written) * card.uncached + u.cached * card.cached + u.written * card.written
  }

  function Cost(u: Usage, card: RateCard): nat
    requires Consistent(u) && CardOk(card)
  {
    var long := card.long.Some? && u.input > card.long.value.threshold;
    var inputNum := if long then card.long.value.inputNum else 1;
    var inputDen := if long then card.long.value.inputDen else 1;
    var outputNum := if long then card.long.value.outputNum else 1;
    var outputDen := if long then card.long.value.outputDen else 1;
    var numerator := InputNumerator(u, card) * inputNum * outputDen + u.output * card.output * outputNum * inputDen;
    DivideRoundUp(numerator, Denominator(inputDen, outputDen))
  }

  function Denominator(inputDen: nat, outputDen: nat): (d: nat)
    requires inputDen > 0 && outputDen > 0
    ensures d > 0
  {
    MILLION * inputDen * outputDen
  }

  /** calculateProviderCostMicroUsd; `None` is an error. */
  function CalculateCost(u: Usage, card: RateCard): Option<nat>
    requires CardOk(card)
  {
    if !UsageOk(u) || Cost(u, card) > MAX_SAFE then None else Some(Cost(u, card))
  }

  /** The usage that an estimate assumes: all input uncached, all output used. */
  function Worst(maxInput: nat, maxOutput: nat): Usage {
    Usage(maxInput, 0, 0, maxOutput, 0)
  }

  function EstimateCost(maxInput: nat, maxOutput: nat, card: RateCard): Option<nat>
    requires CardOk(card)
  {
    CalculateCost(Worst(maxInput, maxOutput), card)
  }

  function Plus(u: Usage, v: Usage): Usage {
    Usage(u.input + v.input, u.cached + v.cached, u.written + v.written, u.output + v.output, u.reasoning + v.reasoning)
  }

  const NOTHING := Usage(0, 0, 0, 0, 0)

  // ----- without a long-context tier -----

  function Numerator(u: Usage, card: RateCard): nat
    requires Consistent(u)
  {
    InputNumerator(u, card) + u.output * card.output
  }

  lemma FlatCost(u: Usage, card: RateCard)
    requires Consistent(u) && card.long.None?
    ensures Cost(u, card) == DivideRoundUp(Numerator(u, card), MILLION)
  {
  }

  lemma NumeratorAdds(u: Usage, v: Usage, card: RateCard)
    requires Consistent(u) && Consistent(v)
    ensures Consistent(Plus(u, v)) && Numerator(Plus(u, v), card) == Numerator(u, card) + Numerator(v, card)
  {
    Distribute(u.input - u.cached - u.written, v.input - v.cached - v.written, card.uncached);
    Distribute(u.cached, v.cached, card.cached);
    Distribute(u.written, v.written, card.written);
    Distribute(u.output, v.output, card.output);
  }

  lemma Distribute(a: nat, b: nat, r: nat)
    ensures (a + b) * r == a * r + b * r
  {
  }

  /** Rounding once is never dearer than rounding twice. */
  lemma CostSubadditive(u: Usage, v: Usage, card: RateCard)
    requires Consistent(u) && Consistent(v) && card.long.None?
    ensures Cost(Plus(u, v), card) <= Cost(u, card) + Cost(v, card)
  {
    NumeratorAdds(u, v, card);
    FlatCost(u, card);
    FlatCost(v, card);
    FlatCost(Plus(u, v), card);
  }

  predicate RatesOk(card: RateCard) {
    card.cached <= card.uncached && card.written <= card.uncached
  }

  predicate Within(u: Usage, maxInput: nat, maxOutput: nat) {
    Consistent(u) && u.input <= maxInput && u.output <= maxOutput
  }

  lemma MulMonotone(a: nat, b: nat, r: nat, s: nat)
    requires a <= b && r <= s
    ensures a * r <= b * s
  {
    assert a * r <= b * r by { Distribute(a, b - a, r); }
    assert b * r <= b * s by { Distribute(r, s - r, b); }
  }

  lemma EstimateBounds(u: Usage, maxInput: nat, maxOutput: nat, card: RateCard)
    requires Within(u, maxInput, maxOutput) && card.long.None? && RatesOk(card)
    ensures Cost(u, card) <= Cost(Worst(maxInput, maxOutput), card)
  {
    var plain := u.input - u.cached - u.written;
    MulMonotone(u.cached, u.cached, card.cached, card.uncached);
    MulMonotone(u.written, u.written, card.written, card.uncached);
    Distribute(plain, u.cached, card.uncached);
    Distribute(plain + u.cached, u.written, card.uncached);
    MulMonotone(u.input, maxInput, card.uncached, card.uncached);
    MulMonotone(u.output, maxOutput, card.output, card.output);
    assert Numerator(u, card) <= Numerator(Worst(maxInput, maxOutput), card);
    FlatCost(u, card);
    FlatCost(Worst(maxInput, maxOutput), card);
  }

  lemma MillionTokens(u: Usage, card: RateCard, rate: nat)
    requires Consistent(u) && card.long.None? && Numerator(u, card) == MILLION * rate
    ensures Cost(u, card) == rate
  {
    FlatCost(u, card);
  }

  /**
   Without a long-context tier, the estimate bounds every request within its limits, whatever the limits, exactly if
   neither cache rate exceeds the uncached rate.
   */
  lemma EstimateBoundsIffRates(card: RateCard)
    requires card.long.None?
    ensures (forall u, maxInput, maxOutput :: Within(u, maxInput, maxOutput) ==>
               Cost(u, card) <= Cost(Worst(maxInput, maxOutput), card)) <==> RatesOk(card)
  {
    if RatesOk(card) {
      forall u, maxInput, maxOutput | Within(u, maxInput, maxOutput)
        ensures Cost(u, card) <= Cost(Worst(maxInput, maxOutput), card)
      {
        EstimateBounds(u, maxInput, maxOutput, card);
      }
    } else {
      var plain, cached, written := Worst(MILLION, 0), Usage(MILLION, MILLION, 0, 0, 0),
          Usage(MILLION, 0, MILLION, 0, 0);
      MillionTokens(plain, card, card.uncached);
      MillionTokens(cached, card, card.cached);
      MillionTokens(written, card, card.written);
      assert Within(cached, MILLION, 0) && Within(written, MILLION, 0);
    }
  }

  // ----- long-context tiers -----

  /** The multipliers of the schema are positive, and so is the threshold. */
  predicate TierOk(tier: LongContext) {
    tier.threshold > 0 && tier.inputNum > 0 && tier.inputDen > 0 && tier.outputNum > 0 && tier.outputDen > 0
  }

  /**
   The input multiplier is no surcharge, and no discount that makes one token over the threshold cheaper than the
   threshold.
   */
  predicate InputHarmless(tier: LongContext) {
    tier.inputNum <= tier.inputDen && tier.inputDen * tier.threshold <= tier.inputNum * (tier.threshold + 1)
  }

  predicate TierHarmless(tier: LongContext) {
    tier.outputNum == tier.outputDen && InputHarmless(tier)
  }

  /** A card whose tier, if it has one, is harmless wherever it applies to a rate that is not zero. */
  predicate HarmlessFor(card: RateCard) {
    card.long.Some? ==>
      && (card.output == 0 || card.long.value.outputNum == card.long.value.outputDen)
      && (card.uncached == 0 || InputHarmless(card.long.value))
  }

  lemma Assoc(a: nat, b: nat, c: nat)
    ensures a * b * c == a * (b * c)
  {
  }

  lemma PositiveProduct(a: nat, b: nat)
    requires a > 0 && b > 0
    ensures a * b > 0
  {
  }

  lemma RoundUpScale(n: nat, d: nat, k: nat)
    requires d > 0 && k > 0
    ensures d * k > 0 && DivideRoundUp(n * k, d * k) == DivideRoundUp(n, d)
  {
    var q, dk, nk := DivideRoundUp(n, d), d * k, n * k;
    PositiveProduct(d, k);
    RoundUpIs(n, d, q);
    MulMonotone(n, q * d, k, k);
    Assoc(q, d, k);
    assert nk <= q * dk;
    if q > 0 {
      MulStrict((q - 1) * d, n, k);
      Assoc(q - 1, d, k);
      assert (q - 1) * dk < nk;
    }
    RoundUpUnique(nk, dk, q);
  }

  lemma MulStrict(a: nat, b: nat, k: nat)
    requires a < b && k > 0
    ensures a * k < b * k
  {
    Distribute(a, b - a, k);
  }

  /** The rounded quotient is the least number that covers the numerator. */
  lemma RoundUpIs(n: nat, d: nat, q: nat)
    requires d > 0 && q == DivideRoundUp(n, d)
    ensures n <= q * d && (q > 0 ==> (q - 1) * d < n) && (q == 0 ==> n == 0)
  {
    var m := n + d - 1;
    assert m == d * (m / d) + m % d;
    assert q * d == d * (m / d);
    if q > 0 { assert (q - 1) * d == q * d - d; }
  }

  lemma RoundUpUnique(n: nat, d: nat, q: nat)
    requires d > 0 && n <= q * d && (q > 0 ==> (q - 1) * d < n)
    ensures DivideRoundUp(n, d) == q
  {
    var p := DivideRoundUp(n, d);
    RoundUpIs(n, d, p);
    if p < q { MulMonotone(p, q - 1, d, d); }
    if q < p { MulMonotone(q, p - 1, d, d); }
  }

  lemma RoundUpMonotone(n: nat, m: nat, d: nat)
    requires d > 0 && n <= m
    ensures DivideRoundUp(n, d) <= DivideRoundUp(m, d)
  {
    var p, q := DivideRoundUp(n, d), DivideRoundUp(m, d);
    RoundUpIs(n, d, p);
    RoundUpIs(m, d, q);
    if q < p { MulMonotone(q, p - 1, d, d); }
  }

  lemma RoundUpSubadditive(n: nat, m: nat, d: nat)
    requires d > 0
    ensures DivideRoundUp(n + m, d) <= DivideRoundUp(n, d) + DivideRoundUp(m, d)
  {
    var p, q, r := DivideRoundUp(n, d), DivideRoundUp(m, d), DivideRoundUp(n + m, d);
    RoundUpIs(n, d, p);
    RoundUpIs(m, d, q);
    RoundUpIs(n + m, d, r);
    Distribute(p, q, d);
    if p + q < r { MulMonotone(p + q, r - 1, d, d); }
  }

  // ----- the guarantee of the preflight check -----

  predicate IsLong(u: Usage, tier: LongContext) {
    u.input > tier.threshold
  }

  /** Under a harmless tier the cost is this numerator over a fixed denominator. */
  function TierNumerator(u: Usage, card: RateCard, tier: LongContext): nat
    requires Consistent(u)
  {
    InputNumerator(u, card) * (if IsLong(u, tier) then tier.inputNum else tier.inputDen)
        + u.output * card.output * tier.inputDen
  }

  lemma HarmlessCost(u: Usage, card: RateCard, tier: LongContext)
    requires Consistent(u) && card.long == Some(tier) && TierOk(tier) && HarmlessFor(card)
    ensures MILLION * tier.inputDen > 0
    ensures Cost(u, card) == DivideRoundUp(TierNumerator(u, card, tier), MILLION * tier.inputDen)
  {
    var n, out := InputNumerator(u, card), u.output * card.output;
    var top := TierNumerator(u, card, tier);
    if IsLong(u, tier) {
      assert out * tier.outputNum == out * tier.outputDen by { if card.output == 0 { assert out == 0; } }
      assert n * tier.inputNum * tier.outputDen + out * tier.outputNum * tier.inputDen == top * tier.outputDen by {
        LongTop(n, out, tier);
      }
      RoundUpScale(top, MILLION * tier.inputDen, tier.outputDen);
    } else {
      assert (n + out) * tier.inputDen == top by { Distribute(n, out, tier.inputDen); }
      RoundUpScale(n + out, MILLION, tier.inputDen);
    }
  }

  lemma LongTop(n: nat, out: nat, tier: LongContext)
    requires out * tier.outputNum == out * tier.outputDen
    ensures n * tier.inputNum * tier.outputDen + out * tier.outputNum * tier.inputDen ==
            (n * tier.inputNum + out * tier.inputDen) * tier.outputDen
  {
    Distribute(n * tier.inputNum, out * tier.inputDen, tier.outputDen);
    assert out * tier.outputNum * tier.inputDen == out * tier.outputDen * tier.inputDen;
    Swap3(out, tier.outputDen, tier.inputDen);
  }

  lemma Swap3(a: nat, b: nat, c: nat)
    ensures a * b * c == a * c * b
  {
  }

  /** More input is never priced at a higher multiplier, and the estimate covers every reply within its limits. */
  lemma TierNumeratorAdds(u: Usage, v: Usage, card: RateCard, tier: LongContext)
    requires Consistent(u) && Consistent(v) && (card.uncached == 0 || InputHarmless(tier)) && RatesOk(card)
    ensures Consistent(Plus(u, v))
    ensures TierNumerator(Plus(u, v), card, tier) <= TierNumerator(u, card, tier) + TierNumerator(v, card, tier)
  {
    var w := Plus(u, v);
    var nu, nv, nw := InputNumerator(u, card), InputNumerator(v, card), InputNumerator(w, card);
    InputAdds(u, v, card);
    var mu := if IsLong(u, tier) then tier.inputNum else tier.inputDen;
    var mv := if IsLong(v, tier) then tier.inputNum else tier.inputDen;
    var mw := if IsLong(w, tier) then tier.inputNum else tier.inputDen;
    if card.uncached == 0 {
      ZeroInput(u, card);
      ZeroInput(v, card);
    } else {
      MulMonotone(nu, nu, mw, mu);
      MulMonotone(nv, nv, mw, mv);
    }
    Distribute(nu, nv, mw);
    Distribute(u.output, v.output, card.output);
    Distribute(u.output * card.output, v.output * card.output, tier.inputDen);
  }

  lemma InputAdds(u: Usage, v: Usage, card: RateCard)
    requires Consistent(u) && Consistent(v)
    ensures Consistent(Plus(u, v))
    ensures InputNumerator(Plus(u, v), card) == InputNumerator(u, card) + InputNumerator(v, card)
  {
    Distribute(u.input - u.cached - u.written, v.input - v.cached - v.written, card.uncached);
    Distribute(u.cached, v.cached, card.cached);
    Distribute(u.written, v.written, card.written);
  }

  lemma ZeroInput(u: Usage, card: RateCard)
    requires Consistent(u) && card.uncached == 0 && RatesOk(card)
    ensures InputNumerator(u, card) == 0
  {
  }

  lemma InputBounded(u: Usage, card: RateCard)
    requires Consistent(u) && RatesOk(card)
    ensures InputNumerator(u, card) <= u.input * card.uncached
  {
    var plain := u.input - u.cached - u.written;
    MulMonotone(u.cached, u.cached, card.cached, card.uncached);
    MulMonotone(u.written, u.written, card.written, card.uncached);
    Distribute(plain, u.cached, card.uncached);
    Distribute(plain + u.cached, u.written, card.uncached);
  }

  lemma WorstCovers(u: Usage, maxInput: nat, maxOutput: nat, card: RateCard, tier: LongContext)
    requires Within(u, maxInput, maxOutput) && RatesOk(card) && (card.uncached == 0 || InputHarmless(tier))
    ensures TierNumerator(u, card, tier) <= TierNumerator(Worst(maxInput, maxOutput), card, tier)
  {
    var worst, r := Worst(maxInput, maxOutput), card.uncached;
    InputBounded(u, card);
    var nu := InputNumerator(u, card);
    assert InputNumerator(worst, card) == maxInput * r;
    MulMonotone(u.output, maxOutput, card.output, card.output);
    MulMonotone(u.output * card.output, maxOutput * card.output, tier.inputDen, tier.inputDen);
    MulMonotone(u.input, maxInput, r, r);
    if r == 0 {
      ZeroInput(u, card);
    } else if IsLong(worst, tier) && !IsLong(u, tier) {
      CrossingCovered(u.input, maxInput, r, tier);
      MulMonotone(nu, u.input * r, tier.inputDen, tier.inputDen);
    } else {
      var m := if IsLong(u, tier) then tier.inputNum else tier.inputDen;
      MulMonotone(nu, maxInput * r, m, m);
    }
  }

  /** A request that stays at the threshold costs no more than one token beyond it does. */
  lemma CrossingCovered(input: nat, maxInput: nat, r: nat, tier: LongContext)
    requires InputHarmless(tier) && input <= tier.threshold < maxInput
    ensures input * r * tier.inputDen <= maxInput * r * tier.inputNum
  {
    Swap3(input, r, tier.inputDen);
    Swap3(maxInput, r, tier.inputNum);
    MulMonotone(input, tier.threshold, tier.inputDen, tier.inputDen);
    MulMonotone(tier.threshold + 1, maxInput, tier.inputNum, tier.inputNum);
    assert input * tier.inputDen <= maxInput * tier.inputNum;
    MulMonotone(input * tier.inputDen, maxInput * tier.inputNum, r, r);
  }

  /** One more request that stays within its limits costs at most its estimate. */
  lemma CostGrowsByEstimate(u: Usage, v: Usage, maxInput: nat, maxOutput: nat, card: RateCard)
    requires Consistent(u) && Within(v, maxInput, maxOutput) && RatesOk(card)
    requires (card.long.Some? ==> TierOk(card.long.value)) && HarmlessFor(card)
    ensures Consistent(Plus(u, v)) && Cost(Plus(u, v), card) <= Cost(u, card) + Cost(Worst(maxInput, maxOutput), card)
  {
    if card.long.None? {
      CostSubadditive(u, v, card);
      EstimateBounds(v, maxInput, maxOutput, card);
    } else {
      var tier, worst := card.long.value, Worst(maxInput, maxOutput);
      var d := MILLION * tier.inputDen;
      TierNumeratorAdds(u, v, card, tier);
      WorstCovers(v, maxInput, maxOutput, card, tier);
      HarmlessCost(u, card, tier);
      HarmlessCost(worst, card, tier);
      HarmlessCost(Plus(u, v), card, tier);
      var nu, nw := TierNumerator(u, card, tier), TierNumerator(worst, card, tier);
      RoundUpMonotone(TierNumerator(Plus(u, v), card, tier), nu + nw, d);
      RoundUpSubadditive(nu, nw, d);
    }
  }

  // ----- the exact price -----

  function Ratio(num: nat, den: nat): real
    requires den > 0
  {
    num as real / den as real
  }

  /** The exact price in micro-dollars. */
  function Price(u: Usage, card: RateCard): real
    requires Consistent(u) && CardOk(card)
  {
    var long := card.long.Some? && u.input > card.long.value.threshold;
    var input := (u.input - u.cached - u.written) * card.uncached + u.cached * card.cached + u.written * card.written;
    var output := u.output * card.output;
    (input as real * (if long then Ratio(card.long.value.inputNum, card.long.value.inputDen) else 1.0)
     + output as real * (if long then Ratio(card.long.value.outputNum, card.long.value.outputDen)
                         else 1.0)) / 1_000_000.0
  }

  lemma Scale(x: real, num: nat, den: nat, d: real)
    requires den > 0
    ensures x * Ratio(num, den) * (den as real * d) == x * num as real * d
  {
    assert Ratio(num, den) * den as real == num as real;
    assert x * Ratio(num, den) * (den as real * d) == x * (Ratio(num, den) * den as real) * d;
  }

  lemma PriceTimes(x: nat, y: nat, a: nat, b: nat, c: nat, d: nat)
    requires b > 0 && d > 0
    ensures (x as real * Ratio(a, b) + y as real * Ratio(c, d)) * (b as real * d as real) ==
            (x * a * d + y * c * b) as real
  {
    var X, Y, B, D := x as real, y as real, b as real, d as real;
    Scale(X, a, b, D);
    Scale(Y, c, d, B);
    assert (X * Ratio(a, b) + Y * Ratio(c, d)) * (B * D) == X * Ratio(a, b) * (B * D) + Y * Ratio(c, d) * (D * B);
  }

  lemma Bracket(n: nat, d: nat, q: nat, p: real)
    requires d > 0 && q == DivideRoundUp(n, d) && p * d as real == n as real
    ensures p <= q as real < p + 1.0
  {
    RoundUpIs(n, d, q);
    assert (q * d) as real == q as real * d as real;
    if p > q as real { Grows(q as real, p, d as real); }
    if q as real >= p + 1.0 {
      if q == 0 {
        Grows(p, 0.0, d as real);
      } else {
        assert ((q - 1) * d) as real == (q as real - 1.0) * d as real;
        if p < q as real - 1.0 { Grows(p, q as real - 1.0, d as real); }
      }
    }
  }

  lemma Grows(x: real, y: real, d: real)
    requires x < y && d > 0.0
    ensures x * d < y * d
  {
  }

  lemma Rounded(x: nat, y: nat, a: nat, b: nat, c: nat, d: nat, p: real)
    requires b > 0 && d > 0 && p * 1_000_000.0 == x as real * Ratio(a, b) + y as real * Ratio(c, d)
    ensures p <= DivideRoundUp(x * a * d + y * c * b, Denominator(b, d)) as real < p + 1.0
  {
    var n, den := x * a * d + y * c * b, Denominator(b, d);
    PriceTimes(x, y, a, b, c, d);
    Cube(p, b as real, d as real);
    assert (MILLION * b * d) as real == (MILLION * b) as real * d as real == MILLION as real * b as real * d as real;
    Bracket(n, den, DivideRoundUp(n, den), p);
  }

  lemma Cube(p: real, b: real, d: real)
    ensures p * (1_000_000.0 * b * d) == (p * 1_000_000.0) * (b * d)
  {
  }

  /** The factors that apply to a usage: numerator and denominator for input, and for output. */
  predicate Factors(u: Usage, card: RateCard, a: nat, b: nat, c: nat, d: nat) {
    if card.long.Some? && u.input > card.long.value.threshold
    then a == card.long.value.inputNum && b == card.long.value.inputDen && c == card.long.value.outputNum
         && d == card.long.value.outputDen
    else a == 1 && b == 1 && c == 1 && d == 1
  }

  lemma CostFactors(u: Usage, card: RateCard, a: nat, b: nat, c: nat, d: nat)
    requires Consistent(u) && CardOk(card) && Factors(u, card, a, b, c, d)
    ensures b > 0 && d > 0
    ensures Cost(u, card) ==
            DivideRoundUp(InputNumerator(u, card) * a * d + u.output * card.output * c * b, Denominator(b, d))
  {
  }

  lemma PriceFactors(u: Usage, card: RateCard, a: nat, b: nat, c: nat, d: nat)
    requires Consistent(u) && CardOk(card) && Factors(u, card, a, b, c, d) && b > 0 && d > 0
    ensures Price(u, card) * 1_000_000.0 ==
            InputNumerator(u, card) as real * Ratio(a, b) + (u.output * card.output) as real * Ratio(c, d)
  {
  }

  /** The cost is the exact price, rounded up to the next micro-dollar. */
  lemma CostIsPriceRoundedUp(u: Usage, card: RateCard)
    requires Consistent(u) && CardOk(card)
    ensures Price(u, card) <= Cost(u, card) as real < Price(u, card) + 1.0
  {
    var long := card.long.Some? && u.input > card.long.value.threshold;
    var a := if long then card.long.value.inputNum else 1;
    var b := if long then card.long.value.inputDen else 1;
    var c := if long then card.long.value.outputNum else 1;
    var d := if long then card.long.value.outputDen else 1;
    CostFactors(u, card, a, b, c, d);
    PriceFactors(u, card, a, b, c, d);
    Rounded(InputNumerator(u, card), u.output * card.output, a, b, c, d, Price(u, card));
  }
}
