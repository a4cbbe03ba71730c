/** Exercise 2: the two per-building loss formulas, with the discount rate
    supplied by the caller. */
module LossFormula {
  import opened Powers
  import opened BuildingData
  import LossesCalculator

  /** The factor `(1 + standardDiscountRate) ** yearsOut` both formulas divide by. */
  function DiscountFactor(standardDiscountRate: real, yearsOut: nat): (d: real)
    ensures d == 0.0 <==> standardDiscountRate == -1.0 && yearsOut > 0
    ensures standardDiscountRate > -1.0 ==> d > 0.0
  {
    Pow(1.0 + standardDiscountRate, yearsOut)
  }

  /** The simple formula: inflate the construction cost, scale it by the
      probability of no hazard in any year, discount it to the present. */
  function SimpleLoss(b: Building, yearsOut: nat, standardDiscountRate: real): (r: real)
    requires DiscountFactor(standardDiscountRate, yearsOut) != 0.0
    ensures yearsOut == 0 ==> r == b.constructionCost
    ensures b.hazardProbability == 1.0 && yearsOut > 0 ==> r == 0.0
    ensures b.hazardProbability == 0.0 ==>
      r * DiscountFactor(standardDiscountRate, yearsOut) == b.constructionCost * Pow(1.0 + b.inflationRate, yearsOut)
  {
    PowOne(yearsOut);
    var futureCost := b.constructionCost * Pow(1.0 + b.inflationRate, yearsOut);
    var riskAdjustedLoss := futureCost * Pow(1.0 - b.hazardProbability, yearsOut);
    riskAdjustedLoss / DiscountFactor(standardDiscountRate, yearsOut)
  }

  /** The exponent of the complex formula: inflation rate times floor area over 1000. */
  function Exponent(b: Building): (x: real)
    ensures b.inflationRate == 0.0 || b.floorArea == 0.0 ==> x == 0.0
  {
    b.inflationRate * b.floorArea / 1000.0
  }

  /** The complex formula: the construction cost scaled by `exp(inflation * area / 1000)`
      and linearly by the hazard probability, then discounted. `exp` stands for
      Python's `math.exp`. */
  function ComplexLoss(b: Building, yearsOut: nat, standardDiscountRate: real, exp: real -> real): (r: real)
    requires DiscountFactor(standardDiscountRate, yearsOut) != 0.0
    ensures b.hazardProbability == 0.0 ==> r == 0.0
    ensures b.constructionCost == 0.0 ==> r == 0.0
    ensures yearsOut == 0 ==> r == b.constructionCost * exp(Exponent(b)) * b.hazardProbability
  {
    (b.constructionCost * exp(Exponent(b)) * b.hazardProbability)
      / DiscountFactor(standardDiscountRate, yearsOut)
  }

  /** The two sub-commands, as a closed set of formulas. */
  datatype Formula = Simple | Complex(exp: real -> real)

  /** The estimate the chosen formula gives one building. */
  function Loss(f: Formula, b: Building, yearsOut: nat, standardDiscountRate: real): real
    requires DiscountFactor(standardDiscountRate, yearsOut) != 0.0
  {
    match f
    case Simple => SimpleLoss(b, yearsOut, standardDiscountRate)
    case Complex(exp) => ComplexLoss(b, yearsOut, standardDiscountRate, exp)
  }

  /** At a 5% discount rate the simple formula is exercise 1's present value loss. */
  lemma SimpleMatchesPortfolio(b: Building, yearsOut: nat)
    ensures DiscountFactor(0.05, yearsOut) != 0.0
    ensures SimpleLoss(b, yearsOut, 0.05) == LossesCalculator.BuildingLoss(b, yearsOut)
  {
  }

  /** Simple losses of buildings with attributes in range are never negative
      when the discount rate is above -100%. */
  lemma SimpleLossNonnegative(b: Building, yearsOut: nat, standardDiscountRate: real)
    requires b.constructionCost >= 0.0 && b.inflationRate >= -1.0 && 0.0 <= b.hazardProbability <= 1.0
    requires standardDiscountRate > -1.0
    ensures SimpleLoss(b, yearsOut, standardDiscountRate) >= 0.0
  {
  }

  /** With hazard probability one, the complex loss is the discounted exponential term. */
  lemma ComplexLossFullHazard(b: Building, yearsOut: nat, standardDiscountRate: real, exp: real -> real)
    requires DiscountFactor(standardDiscountRate, yearsOut) != 0.0
    requires b.hazardProbability == 1.0
    ensures ComplexLoss(b, yearsOut, standardDiscountRate, exp) * DiscountFactor(standardDiscountRate, yearsOut)
      == b.constructionCost * exp(Exponent(b))
  {
  }

  /** Division by a non-zero real distributes over a linear combination. */
  lemma DivLinear(c: real, x: real, y: real, d: real)
    requires d != 0.0
    ensures (c * x + y) / d == c * (x / d) + y / d
  {
  }

  /** The complex loss is linear in the hazard probability. */
  lemma ComplexLossLinearInHazard(b: Building, yearsOut: nat, standardDiscountRate: real, exp: real -> real,
                                  c: real, p: real, q: real)
    requires DiscountFactor(standardDiscountRate, yearsOut) != 0.0
    ensures ComplexLoss(b.(hazardProbability := c * p + q), yearsOut, standardDiscountRate, exp)
      == c * ComplexLoss(b.(hazardProbability := p), yearsOut, standardDiscountRate, exp)
         + ComplexLoss(b.(hazardProbability := q), yearsOut, standardDiscountRate, exp)
  {
    var d := DiscountFactor(standardDiscountRate, yearsOut);
    var a := b.constructionCost * exp(Exponent(b));
    var bp, bq, br := b.(hazardProbability := p), b.(hazardProbability := q), b.(hazardProbability := c * p + q);
    assert Exponent(bp) == Exponent(bq) == Exponent(br) == Exponent(b);
    assert a * (c * p + q) == c * (a * p) + a * q;
    DivLinear(c, a * p, a * q, d);
  }

  /** The complex loss is linear in the construction cost. */
  lemma ComplexLossLinearInCost(b: Building, yearsOut: nat, standardDiscountRate: real, exp: real -> real,
                                c: real, x: real, y: real)
    requires DiscountFactor(standardDiscountRate, yearsOut) != 0.0
    ensures ComplexLoss(b.(constructionCost := c * x + y), yearsOut, standardDiscountRate, exp)
      == c * ComplexLoss(b.(constructionCost := x), yearsOut, standardDiscountRate, exp)
         + ComplexLoss(b.(constructionCost := y), yearsOut, standardDiscountRate, exp)
  {
    var d := DiscountFactor(standardDiscountRate, yearsOut);
    var e := exp(Exponent(b));
    var h := b.hazardProbability;
    var b1, b2, b3 := b.(constructionCost := x), b.(constructionCost := y), b.(constructionCost := c * x + y);
    assert Exponent(b1) == Exponent(b2) == Exponent(b3) == Exponent(b);
    assert (c * x + y) * e * h == c * (x * e * h) + y * e * h;
    DivLinear(c, x * e * h, y * e * h, d);
  }

  /** When the exponent is zero (no inflation or no floor area) and `exp(0) = 1`,
      the complex loss is the discounted product of cost and hazard probability. */
  lemma ComplexLossZeroExponent(b: Building, yearsOut: nat, standardDiscountRate: real, exp: real -> real)
    requires DiscountFactor(standardDiscountRate, yearsOut) != 0.0
    requires exp(0.0) == 1.0
    requires b.inflationRate == 0.0 || b.floorArea == 0.0
    ensures ComplexLoss(b, yearsOut, standardDiscountRate, exp) * DiscountFactor(standardDiscountRate, yearsOut)
      == b.constructionCost * b.hazardProbability
  {
  }

  /** Complex losses are never negative for a non-negative cost and hazard
      probability, a positive `exp` value and a discount rate above -100%. */
  lemma ComplexLossNonnegative(b: Building, yearsOut: nat, standardDiscountRate: real, exp: real -> real)
    requires b.constructionCost >= 0.0 && b.hazardProbability >= 0.0
    requires exp(Exponent(b)) > 0.0
    requires standardDiscountRate > -1.0
    ensures ComplexLoss(b, yearsOut, standardDiscountRate, exp) >= 0.0
  {
  }
}
