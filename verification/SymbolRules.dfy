/** Step and tick rules of a symbol, over exact decimals. */
module SymbolRules {
  import opened Domain
  import opened Decimals

  datatype SymbolInfo = SymbolInfo(
    stepSize: Decimal, minQty: Decimal, maxQty: Decimal,
    tickSize: Decimal, minPrice: Decimal, maxPrice: Decimal)

  datatype Violation =
    | NoViolation
    | QuantityStepUnavailable | QuantityStepMismatch | QuantityBelowMinimum | QuantityAboveMaximum
    | PriceTickUnavailable | PriceTickMismatch | PriceBelowMinimum | PriceAboveMaximum

  datatype Validation = Validation(violation: Violation, correction: Option<Decimal>)

  function FloorToStep(v: Decimal, step: Decimal): Decimal {
    if step <= 0 then v else (v / step) * step
  }

  function CeilToStep(v: Decimal, step: Decimal): Decimal {
    if step <= 0 then v else (-((-v) / step)) * step
  }

  predicate IsIncrementValid(v: Decimal, increment: Decimal)
    requires increment > 0
  {
    v % increment == 0
  }

  function GetNearestIncrement(v: Decimal, increment: Decimal): Decimal {
    var lower := FloorToStep(v, increment);
    var upper := CeilToStep(v, increment);
    if lower <= 0 then upper else if v - lower < upper - v then lower else upper
  }

  function ValidateQuantity(quantity: Decimal, info: SymbolInfo): Validation {
    if info.stepSize <= 0 then Validation(QuantityStepUnavailable, None)
    else if !IsIncrementValid(quantity, info.stepSize) then
      Validation(QuantityStepMismatch, Some(CeilToStep(quantity, info.stepSize)))
    else if info.minQty > 0 && quantity < info.minQty then Validation(QuantityBelowMinimum, None)
    else if info.maxQty > 0 && quantity > info.maxQty then Validation(QuantityAboveMaximum, None)
    else Validation(NoViolation, None)
  }

  function ValidatePrice(price: Decimal, info: SymbolInfo): Validation {
    if info.tickSize <= 0 then Validation(PriceTickUnavailable, None)
    else if !IsIncrementValid(price, info.tickSize) then
      Validation(PriceTickMismatch, Some(GetNearestIncrement(price, info.tickSize)))
    else if info.minPrice > 0 && price < info.minPrice then Validation(PriceBelowMinimum, None)
    else if info.maxPrice > 0 && price > info.maxPrice then Validation(PriceAboveMaximum, None)
    else Validation(NoViolation, None)
  }

  // ---- Steps ----

  ghost predicate IsMultiple(v: int, step: int) {
    exists k :: v == k * step
  }

  function Abs(v: int): nat {
    if v < 0 then -v else v
  }

  lemma MultipleIffValid(v: Decimal, step: Decimal)
    requires step > 0
    ensures IsMultiple(v, step) <==> IsIncrementValid(v, step)
  {
    if IsMultiple(v, step) {
      var k :| v == k * step;
      WholeMultiple(k, step);
    }
    if IsIncrementValid(v, step) {
      assert v == (v / step) * step;
    }
  }

  /** The floor is the greatest multiple not above the value and the ceiling the least one not below; they
      are the value itself for a multiple and neighbours otherwise. */
  lemma FloorAndCeiling(v: Decimal, step: Decimal)
    requires step > 0
    ensures FloorToStep(v, step) <= v <= CeilToStep(v, step)
    ensures IsMultiple(FloorToStep(v, step), step) && IsMultiple(CeilToStep(v, step), step)
    ensures CeilToStep(v, step) == if IsMultiple(v, step) then FloorToStep(v, step) else FloorToStep(v, step) + step
    ensures forall m :: IsMultiple(m, step) && m <= v ==> m <= FloorToStep(v, step)
    ensures forall m :: IsMultiple(m, step) && v <= m ==> CeilToStep(v, step) <= m
  {
    MultipleIffValid(v, step);
    CeilingOfFloor(v, step);
    forall m | IsMultiple(m, step)
      ensures m <= v ==> m <= FloorToStep(v, step)
      ensures v <= m ==> CeilToStep(v, step) <= m
    {
      var k :| m == k * step;
      Neighbours(v, step, k);
    }
  }

  lemma CeilingOfFloor(v: Decimal, step: Decimal)
    requires step > 0
    ensures FloorToStep(v, step) <= v <= CeilToStep(v, step)
    ensures CeilToStep(v, step) == if v % step == 0 then FloorToStep(v, step) else FloorToStep(v, step) + step
    ensures v - FloorToStep(v, step) < step
  {
    var q, r := v / step, v % step;
    assert v == q * step + r;
    if r == 0 {
      WholeMultiple(-q, step);
      MinusTimes(-q, step);
      assert -v == (-q) * step;
    } else {
      QuotientOf(-v, -q - 1, step - r, step);
      assert (q + 1) * step == q * step + step;
    }
  }

  lemma QuotientOf(v: int, q: int, r: int, step: int)
    requires step > 0 && 0 <= r < step && v == q * step + r
    ensures v / step == q
  {
    FactorBound(q - v / step, step);
    assert (q - v / step) * step == v % step - r;
  }

  lemma Neighbours(v: Decimal, step: Decimal, k: int)
    requires step > 0
    ensures k * step <= v ==> k * step <= FloorToStep(v, step)
    ensures v <= k * step ==> CeilToStep(v, step) <= k * step
  {
    CeilingOfFloor(v, step);
    var q := v / step;
    FactorBound(k - q, step);
    FactorBound(k - q - 1, step);
    FactorBound(q - k, step);
    assert (k - q) * step == k * step - q * step;
    assert (k - q - 1) * step == k * step - q * step - step;
    assert (q - k) * step == q * step - k * step;
  }

  // ---- Verdicts ----

  /** A quantity's verdict names the rule it breaks, the step first, then the minimum, then the maximum; a
      limit that is not positive is no limit. */
  lemma QuantityVerdictNamesTheRule(quantity: Decimal, info: SymbolInfo)
    ensures var verdict := ValidateQuantity(quantity, info).violation;
      && (verdict == QuantityStepUnavailable <==> info.stepSize <= 0)
      && (verdict == QuantityStepMismatch <==> info.stepSize > 0 && !IsMultiple(quantity, info.stepSize))
      && (verdict == QuantityBelowMinimum <==>
            info.stepSize > 0 && IsMultiple(quantity, info.stepSize) && 0 < info.minQty && quantity < info.minQty)
      && (verdict == QuantityAboveMaximum <==>
            && info.stepSize > 0 && IsMultiple(quantity, info.stepSize)
            && (0 < info.minQty ==> info.minQty <= quantity) && 0 < info.maxQty && quantity > info.maxQty)
      && verdict in {NoViolation, QuantityStepUnavailable, QuantityStepMismatch, QuantityBelowMinimum,
                     QuantityAboveMaximum}
  {
    if info.stepSize > 0 {
      MultipleIffValid(quantity, info.stepSize);
    }
  }

  lemma PriceVerdictNamesTheRule(price: Decimal, info: SymbolInfo)
    ensures var verdict := ValidatePrice(price, info).violation;
      && (verdict == PriceTickUnavailable <==> info.tickSize <= 0)
      && (verdict == PriceTickMismatch <==> info.tickSize > 0 && !IsMultiple(price, info.tickSize))
      && (verdict == PriceBelowMinimum <==>
            info.tickSize > 0 && IsMultiple(price, info.tickSize) && 0 < info.minPrice && price < info.minPrice)
      && (verdict == PriceAboveMaximum <==>
            && info.tickSize > 0 && IsMultiple(price, info.tickSize)
            && (0 < info.minPrice ==> info.minPrice <= price) && 0 < info.maxPrice && price > info.maxPrice)
      && verdict in {NoViolation, PriceTickUnavailable, PriceTickMismatch, PriceBelowMinimum, PriceAboveMaximum}
  {
    if info.tickSize > 0 {
      MultipleIffValid(price, info.tickSize);
    }
  }

  // ---- Corrections ----

  /** The tick proposed for a positive price is a positive multiple of the tick, no positive multiple is
      closer, and of two equally close ones it is the higher. */
  lemma NearestTick(price: Decimal, tick: Decimal)
    requires price > 0 && tick > 0
    ensures var nearest := GetNearestIncrement(price, tick);
      && nearest > 0 && IsMultiple(nearest, tick)
      && forall m :: m > 0 && IsMultiple(m, tick) ==>
           Abs(price - nearest) < Abs(price - m) || (Abs(price - nearest) == Abs(price - m) && m <= nearest)
  {
    FloorAndCeiling(price, tick);
  }

  /** A correction is proposed for a price exactly when it is no multiple of a usable tick; it is positive
      exactly for a positive price, and proposing it again finds no tick mismatch. */
  lemma PriceCorrectionsRevalidate(price: Decimal, info: SymbolInfo)
    ensures var answer := ValidatePrice(price, info);
      && (answer.correction.Some? <==> info.tickSize > 0 && !IsMultiple(price, info.tickSize))
      && (answer.correction.Some? ==>
            && answer.violation == PriceTickMismatch
            && (answer.correction.value > 0 <==> price > 0)
            && ValidatePrice(answer.correction.value, info).violation !in {PriceTickMismatch, PriceTickUnavailable})
  {
    if info.tickSize > 0 {
      MultipleIffValid(price, info.tickSize);
      FloorAndCeiling(price, info.tickSize);
      MultipleIffValid(GetNearestIncrement(price, info.tickSize), info.tickSize);
      assert IsMultiple(0, info.tickSize) by { assert 0 == 0 * info.tickSize; }
    }
  }

  /** The quantity proposed is the least multiple of the step that is not below the one entered. */
  lemma QuantityCorrectionsRevalidate(quantity: Decimal, info: SymbolInfo)
    ensures var answer := ValidateQuantity(quantity, info);
      && (answer.correction.Some? <==> info.stepSize > 0 && !IsMultiple(quantity, info.stepSize))
      && (answer.correction.Some? ==>
            var proposed := answer.correction.value;
            && answer.violation == QuantityStepMismatch
            && quantity < proposed < quantity + info.stepSize && IsMultiple(proposed, info.stepSize)
            && ValidateQuantity(proposed, info).violation !in {QuantityStepMismatch, QuantityStepUnavailable})
  {
    if info.stepSize > 0 {
      MultipleIffValid(quantity, info.stepSize);
      FloorAndCeiling(quantity, info.stepSize);
      MultipleIffValid(CeilToStep(quantity, info.stepSize), info.stepSize);
    }
  }

  /** A quantity or price passes exactly if it is a multiple within the limits that are set. */
  lemma ValidIff(v: Decimal, info: SymbolInfo)
    ensures ValidateQuantity(v, info).violation == NoViolation
            <==> info.stepSize > 0 && IsMultiple(v, info.stepSize)
                 && (info.minQty > 0 ==> info.minQty <= v) && (info.maxQty > 0 ==> v <= info.maxQty)
    ensures ValidatePrice(v, info).violation == NoViolation
            <==> info.tickSize > 0 && IsMultiple(v, info.tickSize)
                 && (info.minPrice > 0 ==> info.minPrice <= v) && (info.maxPrice > 0 ==> v <= info.maxPrice)
  {
    if info.stepSize > 0 {
      MultipleIffValid(v, info.stepSize);
    }
    if info.tickSize > 0 {
      MultipleIffValid(v, info.tickSize);
    }
  }

  /** What is proposed for a price with a fractional tick is also what the printed proposal says. */
  lemma ProposalsPrintFaithfully(price: Decimal, tick: Decimal)
    requires tick > 0 && tick % Place(0) != 0
    ensures ParseDecimal(FormatByStep(GetNearestIncrement(price, tick), tick)) == Some(GetNearestIncrement(price, tick))
  {
    FloorAndCeiling(price, tick);
    MultipleIffValid(GetNearestIncrement(price, tick), tick);
    FractionalStepsReadBack(GetNearestIncrement(price, tick), tick);
    hide ParseDecimal, FormatByStep;
  }
}
