/** Exercise 1: the portfolio calculator. Every building's construction cost
    is compounded by inflation, scaled by the chance of surviving the hazard in
    each year, discounted at a fixed 5% a year, and added to a running total.
    A maintenance cost is computed per building but kept out of the total. */
module LossesCalculator {
  import opened Powers
  import opened BuildingData

  /** The hard-coded annual discount rate. */
  const DiscountRate: real := 0.05

  /** The flat maintenance rate per square meter. */
  const MaintenanceRate: real := 50.0

  /** Construction cost compounded annually by the inflation rate. */
  function FutureCost(constructionCost: real, inflationRate: real, yearsOut: nat): (r: real)
    ensures yearsOut == 0 ==> r == constructionCost
    ensures inflationRate == 0.0 ==> r == constructionCost
    ensures constructionCost >= 0.0 && inflationRate >= -1.0 ==> r >= 0.0
  {
    PowOne(yearsOut);
    constructionCost * Pow(1.0 + inflationRate, yearsOut)
  }

  /** Future cost scaled by the probability of no hazard in any of the years. */
  function RiskAdjustedLoss(futureCost: real, hazardProbability: real, yearsOut: nat): (r: real)
    ensures yearsOut == 0 ==> r == futureCost
    ensures hazardProbability == 1.0 && yearsOut > 0 ==> r == 0.0
    ensures hazardProbability == 0.0 ==> r == futureCost
    ensures futureCost >= 0.0 && hazardProbability <= 1.0 ==> r >= 0.0
  {
    PowOne(yearsOut);
    futureCost * Pow(1.0 - hazardProbability, yearsOut)
  }

  /** The amount that grows to `riskAdjustedLoss` after `yearsOut` years at the discount rate. */
  function PresentValue(riskAdjustedLoss: real, yearsOut: nat): (r: real)
    ensures r * Pow(1.0 + DiscountRate, yearsOut) == riskAdjustedLoss
    ensures riskAdjustedLoss >= 0.0 ==> r >= 0.0
  {
    riskAdjustedLoss / Pow(1.0 + DiscountRate, yearsOut)
  }

  /** Annual maintenance cost of a building. */
  function MaintenanceCost(floorArea: real): (r: real)
    ensures floorArea >= 0.0 ==> r >= 0.0
    ensures floorArea == 0.0 <==> r == 0.0
  {
    floorArea * MaintenanceRate
  }

  /** Annual maintenance discounted by a single year, then multiplied by the years. */
  function TotalMaintenanceCost(maintenanceCost: real, yearsOut: nat): (r: real)
    ensures r * (1.0 + DiscountRate) == maintenanceCost * yearsOut as real
    ensures yearsOut == 0 ==> r == 0.0
  {
    maintenanceCost / (1.0 + DiscountRate) * yearsOut as real
  }

  /** What one building adds to the portfolio total: its present value loss only. */
  function BuildingLoss(b: Building, yearsOut: nat): (r: real)
    ensures yearsOut == 0 ==> r == b.constructionCost
    ensures b.hazardProbability == 1.0 && yearsOut > 0 ==> r == 0.0
  {
    PresentValue(
      RiskAdjustedLoss(FutureCost(b.constructionCost, b.inflationRate, yearsOut), b.hazardProbability, yearsOut),
      yearsOut)
  }

  /** The sum of every building's loss, in list order, duplicates included. */
  function PortfolioLoss(yearsOut: nat, bs: seq<Building>): real
  {
    if bs == [] then 0.0
    else PortfolioLoss(yearsOut, bs[..|bs| - 1]) + BuildingLoss(bs[|bs| - 1], yearsOut)
  }

  /** The sum of the construction costs of `bs`. */
  function TotalConstructionCost(bs: seq<Building>): real
  {
    if bs == [] then 0.0
    else TotalConstructionCost(bs[..|bs| - 1]) + bs[|bs| - 1].constructionCost
  }

  /** The loop of `calculate_projected_losses`: walk the buildings and accumulate
      each present value loss. The maintenance figures are computed as the
      source computes them and then dropped. */
  method CalculateProjectedLosses(yearsOut: nat, buildingData: seq<Building>) returns (totalLoss: real)
    ensures totalLoss == PortfolioLoss(yearsOut, buildingData)
    ensures buildingData == [] ==> totalLoss == 0.0
  {
    totalLoss := 0.0;
    for i := 0 to |buildingData|
      invariant totalLoss == PortfolioLoss(yearsOut, buildingData[..i])
    {
      var building := buildingData[i];
      var futureCost := FutureCost(building.constructionCost, building.inflationRate, yearsOut);
      var riskAdjustedLoss := RiskAdjustedLoss(futureCost, building.hazardProbability, yearsOut);
      var presentValueLoss := PresentValue(riskAdjustedLoss, yearsOut);
      var maintenanceCost := MaintenanceCost(building.floorArea);
      var totalMaintenanceCost := TotalMaintenanceCost(maintenanceCost, yearsOut);
      assert buildingData[..i + 1][..i] == buildingData[..i];
      totalLoss := totalLoss + presentValueLoss;
    }
    assert buildingData[..|buildingData|] == buildingData;
  }

  /** The total of a concatenation is the sum of the totals. */
  lemma {:induction false} PortfolioLossConcat(yearsOut: nat, s: seq<Building>, t: seq<Building>)
    ensures PortfolioLoss(yearsOut, s + t) == PortfolioLoss(yearsOut, s) + PortfolioLoss(yearsOut, t)
    decreases |t|
  {
    if t == [] {
      assert s + t == s;
    } else {
      var t' := t[..|t| - 1];
      assert (s + t)[..|s + t| - 1] == s + t';
      assert (s + t)[|s + t| - 1] == t[|t| - 1];
      PortfolioLossConcat(yearsOut, s, t');
    }
  }

  /** Taking one building out of the list takes exactly its loss out of the total. */
  lemma PortfolioLossRemove(yearsOut: nat, t: seq<Building>, j: nat)
    requires j < |t|
    ensures PortfolioLoss(yearsOut, t) == PortfolioLoss(yearsOut, t[..j] + t[j + 1..]) + BuildingLoss(t[j], yearsOut)
  {
    assert t == t[..j] + ([t[j]] + t[j + 1..]);
    PortfolioLossConcat(yearsOut, t[..j], [t[j]] + t[j + 1..]);
    PortfolioLossConcat(yearsOut, [t[j]], t[j + 1..]);
    PortfolioLossConcat(yearsOut, t[..j], t[j + 1..]);
    assert [t[j]][..0] == [];
  }

  lemma MultisetRemove(t: seq<Building>, j: nat)
    requires j < |t|
    ensures multiset(t[..j] + t[j + 1..]) == multiset(t) - multiset{t[j]}
  {
    assert t == t[..j] + [t[j]] + t[j + 1..];
  }

  /** Reordering the buildings leaves the total unchanged. */
  lemma {:induction false} PortfolioLossPermutation(yearsOut: nat, s: seq<Building>, t: seq<Building>)
    requires multiset(s) == multiset(t)
    ensures PortfolioLoss(yearsOut, s) == PortfolioLoss(yearsOut, t)
    decreases |s|
  {
    if s == [] {
      assert |t| == |multiset(t)| == 0;
    } else {
      var x := s[|s| - 1];
      assert x in multiset(t);
      var j :| 0 <= j < |t| && t[j] == x;
      MultisetRemove(s, |s| - 1);
      MultisetRemove(t, j);
      assert s[..|s| - 1] + s[|s|..] == s[..|s| - 1];
      PortfolioLossPermutation(yearsOut, s[..|s| - 1], t[..j] + t[j + 1..]);
      PortfolioLossRemove(yearsOut, t, j);
    }
  }

  /** With no years to project, every building contributes its construction cost. */
  lemma {:induction false} PortfolioLossYearsZero(bs: seq<Building>)
    ensures PortfolioLoss(0, bs) == TotalConstructionCost(bs)
  {
    if bs != [] {
      PortfolioLossYearsZero(bs[..|bs| - 1]);
    }
  }

  /** A building certain to be hit by the hazard adds nothing once a year is projected. */
  lemma PortfolioLossFullHazard(yearsOut: nat, s: seq<Building>, b: Building, t: seq<Building>)
    requires b.hazardProbability == 1.0 && yearsOut > 0
    ensures PortfolioLoss(yearsOut, s + [b] + t) == PortfolioLoss(yearsOut, s + t)
  {
    PortfolioLossConcat(yearsOut, s + [b], t);
    PortfolioLossConcat(yearsOut, s, [b]);
    PortfolioLossConcat(yearsOut, s, t);
    assert [b][..0] == [];
  }

  /** Two buildings that differ at most in floor area. */
  predicate SameExceptFloorArea(b: Building, c: Building)
  {
    b.(floorArea := c.floorArea) == c
  }

  /** The total never depends on floor area: the maintenance cost, the only
      use of it, is not part of the total. */
  lemma {:induction false} PortfolioLossIgnoresFloorArea(yearsOut: nat, bs: seq<Building>, cs: seq<Building>)
    requires |bs| == |cs|
    requires forall i :: 0 <= i < |bs| ==> SameExceptFloorArea(bs[i], cs[i])
    ensures PortfolioLoss(yearsOut, bs) == PortfolioLoss(yearsOut, cs)
  {
    if bs != [] {
      PortfolioLossIgnoresFloorArea(yearsOut, bs[..|bs| - 1], cs[..|cs| - 1]);
      var b, c := bs[|bs| - 1], cs[|cs| - 1];
      assert SameExceptFloorArea(b, c);
      assert b.constructionCost == c.constructionCost && b.inflationRate == c.inflationRate
        && b.hazardProbability == c.hazardProbability;
    }
  }

  /** Attributes in their meaningful ranges: a non-negative cost, an inflation
      rate no lower than -100% and a hazard probability in [0, 1]. */
  predicate InRange(b: Building)
  {
    b.constructionCost >= 0.0 && b.inflationRate >= -1.0 && 0.0 <= b.hazardProbability <= 1.0
  }

  /** Buildings with attributes in range never make the total negative. */
  lemma {:induction false} PortfolioLossNonnegative(yearsOut: nat, bs: seq<Building>)
    requires forall i :: 0 <= i < |bs| ==> InRange(bs[i])
    ensures PortfolioLoss(yearsOut, bs) >= 0.0
  {
    if bs != [] {
      PortfolioLossNonnegative(yearsOut, bs[..|bs| - 1]);
      assert InRange(bs[|bs| - 1]);
    }
  }
}
