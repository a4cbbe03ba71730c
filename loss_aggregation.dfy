/** Exercise 2: collecting per-building estimates in a dictionary keyed by
    building identifier, and summing the dictionary's values. A later building
    with an identifier already seen overwrites the earlier estimate. */
module LossAggregation {
  import opened BuildingData
  import opened LossFormula
  import LossesCalculator

  /** The one runtime failure of the estimate loop: dividing by a zero discount factor. */
  datatype LossError = ZeroDivisionError

  datatype Result<T> = Ok(value: T) | Err(error: LossError)

  /** The dictionary the estimate loop has built after the buildings `bs`. */
  function Tabulate(f: Formula, bs: seq<Building>, yearsOut: nat, standardDiscountRate: real): map<string, real>
    requires bs == [] || DiscountFactor(standardDiscountRate, yearsOut) != 0.0
  {
    if bs == [] then map[]
    else
      var b := bs[|bs| - 1];
      Tabulate(f, bs[..|bs| - 1], yearsOut, standardDiscountRate)[b.buildingId := Loss(f, b, yearsOut, standardDiscountRate)]
  }

  /** Some key of a non-empty dictionary. */
  ghost function PickKey(m: map<string, real>): (k: string)
    requires m != map[]
    ensures k in m
  {
    var k :| k in m; k
  }

  /** The sum of the values of `m`, in no particular order. */
  ghost function SumValues(m: map<string, real>): real
    decreases |m|
  {
    if m == map[] then 0.0
    else
      var k := PickKey(m);
      assert |m - {k}| < |m| by {
        assert (m - {k}).Keys == m.Keys - {k};
      }
      m[k] + SumValues(m - {k})
  }

  /** Reference total: each building counts unless a later building has its identifier. */
  function DedupTotal(f: Formula, bs: seq<Building>, yearsOut: nat, standardDiscountRate: real): real
    requires bs == [] || DiscountFactor(standardDiscountRate, yearsOut) != 0.0
  {
    if bs == [] then 0.0
    else
      (if bs[0].buildingId in Ids(bs[1..]) then 0.0 else Loss(f, bs[0], yearsOut, standardDiscountRate))
      + DedupTotal(f, bs[1..], yearsOut, standardDiscountRate)
  }

  /** The plain sum of every building's estimate over the input list. */
  function ListTotal(f: Formula, bs: seq<Building>, yearsOut: nat, standardDiscountRate: real): real
    requires bs == [] || DiscountFactor(standardDiscountRate, yearsOut) != 0.0
  {
    if bs == [] then 0.0
    else Loss(f, bs[0], yearsOut, standardDiscountRate) + ListTotal(f, bs[1..], yearsOut, standardDiscountRate)
  }

  /** The first loop of `_simple_loss` and `_complex_loss`: compute each building's
      estimate and store it under its identifier. A zero discount factor makes the
      first division fail, so a non-empty input then yields an error. */
  method EstimateLosses(f: Formula, yearsOut: nat, standardDiscountRate: real, buildings: seq<Building>)
    returns (r: Result<map<string, real>>)
    ensures r.Err? <==> buildings != [] && standardDiscountRate == -1.0 && yearsOut > 0
    ensures r.Ok? ==> r.value == Tabulate(f, buildings, yearsOut, standardDiscountRate)
    ensures r.Ok? ==> r.value.Keys == Ids(buildings)
    ensures r.Ok? ==> forall i | LastOccurrence(buildings, i) ::
      buildings[i].buildingId in r.value
      && r.value[buildings[i].buildingId] == Loss(f, buildings[i], yearsOut, standardDiscountRate)
  {
    var lossEstimates: map<string, real> := map[];
    for i := 0 to |buildings|
      invariant i > 0 ==> DiscountFactor(standardDiscountRate, yearsOut) != 0.0
      invariant lossEstimates == Tabulate(f, buildings[..i], yearsOut, standardDiscountRate)
    {
      var building := buildings[i];
      if DiscountFactor(standardDiscountRate, yearsOut) == 0.0 {
        return Err(ZeroDivisionError);
      }
      var lossEstimate := Loss(f, building, yearsOut, standardDiscountRate);
      assert buildings[..i + 1][..i] == buildings[..i];
      lossEstimates := lossEstimates[building.buildingId := lossEstimate];
    }
    assert buildings[..|buildings|] == buildings;
    TabulateKeys(f, buildings, yearsOut, standardDiscountRate);
    forall i | LastOccurrence(buildings, i)
      ensures buildings[i].buildingId in lossEstimates
      ensures lossEstimates[buildings[i].buildingId] == Loss(f, buildings[i], yearsOut, standardDiscountRate)
    {
      TabulateLastWins(f, buildings, yearsOut, standardDiscountRate, i);
    }
    r := Ok(lossEstimates);
  }

  /** The second loop: add up the values of the dictionary, visiting its keys in any order. */
  method TotalLoss(lossEstimates: map<string, real>) returns (totalLoss: real)
    ensures totalLoss == SumValues(lossEstimates)
  {
    totalLoss := 0.0;
    var rest := lossEstimates;
    while rest != map[]
      invariant totalLoss + SumValues(rest) == SumValues(lossEstimates)
      decreases |rest|
    {
      var buildingId :| buildingId in rest;
      SumValuesRemove(rest, buildingId);
      totalLoss := totalLoss + rest[buildingId];
      assert (rest - {buildingId}).Keys == rest.Keys - {buildingId};
      rest := rest - {buildingId};
    }
  }

  /** `_simple_loss`: estimate every building with the simple formula, then total the dictionary. */
  method SimpleLossTotal(yearsOut: nat, standardDiscountRate: real, buildings: seq<Building>) returns (r: Result<real>)
    ensures r.Err? <==> buildings != [] && standardDiscountRate == -1.0 && yearsOut > 0
    ensures r.Ok? ==> r.value == DedupTotal(Simple, buildings, yearsOut, standardDiscountRate)
    ensures r.Ok? && DistinctIds(buildings) ==> r.value == ListTotal(Simple, buildings, yearsOut, standardDiscountRate)
  {
    var estimates := EstimateLosses(Simple, yearsOut, standardDiscountRate, buildings);
    if estimates.Err? {
      return Err(estimates.error);
    }
    var totalLoss := TotalLoss(estimates.value);
    TabulateTotal(Simple, buildings, yearsOut, standardDiscountRate);
    if DistinctIds(buildings) {
      DistinctTotal(Simple, buildings, yearsOut, standardDiscountRate);
    }
    r := Ok(totalLoss);
  }

  /** `_complex_loss`: the same pipeline with the complex formula; `exp` stands for `math.exp`. */
  method ComplexLossTotal(yearsOut: nat, standardDiscountRate: real, exp: real -> real, buildings: seq<Building>)
    returns (r: Result<real>)
    ensures r.Err? <==> buildings != [] && standardDiscountRate == -1.0 && yearsOut > 0
    ensures r.Ok? ==> r.value == DedupTotal(Complex(exp), buildings, yearsOut, standardDiscountRate)
    ensures r.Ok? && DistinctIds(buildings) ==> r.value == ListTotal(Complex(exp), buildings, yearsOut, standardDiscountRate)
  {
    var estimates := EstimateLosses(Complex(exp), yearsOut, standardDiscountRate, buildings);
    if estimates.Err? {
      return Err(estimates.error);
    }
    var totalLoss := TotalLoss(estimates.value);
    TabulateTotal(Complex(exp), buildings, yearsOut, standardDiscountRate);
    if DistinctIds(buildings) {
      DistinctTotal(Complex(exp), buildings, yearsOut, standardDiscountRate);
    }
    r := Ok(totalLoss);
  }

  /** The dictionary's keys are exactly the identifiers in the input. */
  lemma {:induction false} TabulateKeys(f: Formula, bs: seq<Building>, yearsOut: nat, standardDiscountRate: real)
    requires bs == [] || DiscountFactor(standardDiscountRate, yearsOut) != 0.0
    ensures Tabulate(f, bs, yearsOut, standardDiscountRate).Keys == Ids(bs)
  {
    if bs != [] {
      var s := bs[..|bs| - 1];
      TabulateKeys(f, s, yearsOut, standardDiscountRate);
      IdsSnoc(s, bs[|bs| - 1]);
      assert s + [bs[|bs| - 1]] == bs;
    }
  }

  /** For each identifier, the dictionary holds the estimate of its last occurrence. */
  lemma {:induction false} TabulateLastWins(f: Formula, bs: seq<Building>, yearsOut: nat, standardDiscountRate: real, i: int)
    requires bs == [] || DiscountFactor(standardDiscountRate, yearsOut) != 0.0
    requires LastOccurrence(bs, i)
    ensures bs[i].buildingId in Tabulate(f, bs, yearsOut, standardDiscountRate)
    ensures Tabulate(f, bs, yearsOut, standardDiscountRate)[bs[i].buildingId] == Loss(f, bs[i], yearsOut, standardDiscountRate)
  {
    if i < |bs| - 1 {
      var s := bs[..|bs| - 1];
      assert LastOccurrence(s, i);
      TabulateLastWins(f, s, yearsOut, standardDiscountRate, i);
    }
  }

  /** Building the dictionary front to back: the first building's entry, overwritten
      by whatever the rest of the list stores. */
  lemma {:induction false} TabulateCons(f: Formula, bs: seq<Building>, yearsOut: nat, standardDiscountRate: real)
    requires bs != [] && DiscountFactor(standardDiscountRate, yearsOut) != 0.0
    ensures Tabulate(f, bs, yearsOut, standardDiscountRate)
      == map[bs[0].buildingId := Loss(f, bs[0], yearsOut, standardDiscountRate)] + Tabulate(f, bs[1..], yearsOut, standardDiscountRate)
    decreases |bs|
  {
    if |bs| == 1 {
      assert bs[..0] == [] && bs[1..] == [];
    } else {
      var s := bs[..|bs| - 1];
      var b := bs[|bs| - 1];
      TabulateCons(f, s, yearsOut, standardDiscountRate);
      TabulateSnoc(f, bs[1..], s[1..], b, yearsOut, standardDiscountRate);
      UnionUpdate(map[bs[0].buildingId := Loss(f, bs[0], yearsOut, standardDiscountRate)],
        Tabulate(f, s[1..], yearsOut, standardDiscountRate), b.buildingId, Loss(f, b, yearsOut, standardDiscountRate));
    }
  }

  /** One more step of the estimate loop, for any split of the list into a prefix and a last building. */
  lemma TabulateSnoc(f: Formula, bs: seq<Building>, s: seq<Building>, b: Building, yearsOut: nat, standardDiscountRate: real)
    requires bs == s + [b] && DiscountFactor(standardDiscountRate, yearsOut) != 0.0
    ensures Tabulate(f, bs, yearsOut, standardDiscountRate)
      == Tabulate(f, s, yearsOut, standardDiscountRate)[b.buildingId := Loss(f, b, yearsOut, standardDiscountRate)]
  {
    assert bs[..|bs| - 1] == s;
  }

  /** Updating a right-biased union updates its right operand. */
  lemma UnionUpdate(a: map<string, real>, c: map<string, real>, k: string, v: real)
    ensures (a + c)[k := v] == a + c[k := v]
  {
  }

  /** Any key can be taken out of a sum of values first. */
  lemma {:induction false} SumValuesRemove(m: map<string, real>, k: string)
    requires k in m
    ensures SumValues(m) == m[k] + SumValues(m - {k})
    decreases |m|
  {
    var p := PickKey(m);
    if p != k {
      assert (m - {p}).Keys == m.Keys - {p};
      assert (m - {k}).Keys == m.Keys - {k};
      SumValuesRemove(m - {p}, k);
      SumValuesRemove(m - {k}, p);
      assert m - {p} - {k} == m - {k} - {p};
    }
  }

  /** Adding a fresh key adds its value to the sum. */
  lemma SumValuesInsert(m: map<string, real>, k: string, v: real)
    requires k !in m
    ensures SumValues(m[k := v]) == SumValues(m) + v
  {
    SumValuesRemove(m[k := v], k);
    assert m[k := v] - {k} == m;
  }

  /** The sum over the dictionary is the reference total that counts each identifier once. */
  lemma {:induction false} TabulateTotal(f: Formula, bs: seq<Building>, yearsOut: nat, standardDiscountRate: real)
    requires bs == [] || DiscountFactor(standardDiscountRate, yearsOut) != 0.0
    ensures SumValues(Tabulate(f, bs, yearsOut, standardDiscountRate)) == DedupTotal(f, bs, yearsOut, standardDiscountRate)
    decreases |bs|
  {
    if bs != [] {
      var k := bs[0].buildingId;
      var v := Loss(f, bs[0], yearsOut, standardDiscountRate);
      var rest := Tabulate(f, bs[1..], yearsOut, standardDiscountRate);
      TabulateTotal(f, bs[1..], yearsOut, standardDiscountRate);
      TabulateCons(f, bs, yearsOut, standardDiscountRate);
      TabulateKeys(f, bs[1..], yearsOut, standardDiscountRate);
      if k in Ids(bs[1..]) {
        assert map[k := v] + rest == rest;
      } else {
        assert map[k := v] + rest == rest[k := v];
        SumValuesInsert(rest, k, v);
      }
    }
  }

  /** Without duplicate identifiers, the dictionary total is the sum over the input list. */
  lemma {:induction false} DistinctTotal(f: Formula, bs: seq<Building>, yearsOut: nat, standardDiscountRate: real)
    requires bs == [] || DiscountFactor(standardDiscountRate, yearsOut) != 0.0
    requires DistinctIds(bs)
    ensures DedupTotal(f, bs, yearsOut, standardDiscountRate) == ListTotal(f, bs, yearsOut, standardDiscountRate)
    decreases |bs|
  {
    if bs != [] {
      assert DistinctIds(bs[1..]) by {
        forall i, j | 0 <= i < j < |bs| - 1 ensures bs[1..][i].buildingId != bs[1..][j].buildingId {
          assert bs[1..][i] == bs[i + 1] && bs[1..][j] == bs[j + 1];
        }
      }
      DistinctTotal(f, bs[1..], yearsOut, standardDiscountRate);
      assert bs[0].buildingId !in Ids(bs[1..]) by {
        forall j | 0 <= j < |bs| - 1 ensures bs[1..][j].buildingId != bs[0].buildingId {
          assert bs[1..][j] == bs[j + 1];
        }
      }
    }
  }

  /** A building followed later by another with its identifier leaves the dictionary total
      unchanged: the later estimate overwrites it. */
  lemma EarlierDuplicateIgnored(f: Formula, b: Building, bs: seq<Building>, yearsOut: nat, standardDiscountRate: real)
    requires DiscountFactor(standardDiscountRate, yearsOut) != 0.0
    requires b.buildingId in Ids(bs)
    ensures SumValues(Tabulate(f, [b] + bs, yearsOut, standardDiscountRate))
      == SumValues(Tabulate(f, bs, yearsOut, standardDiscountRate))
  {
    TabulateTotal(f, [b] + bs, yearsOut, standardDiscountRate);
    TabulateTotal(f, bs, yearsOut, standardDiscountRate);
    assert ([b] + bs)[1..] == bs;
  }

  /** At a 5% discount rate, the list total of the simple formula is exercise 1's portfolio total. */
  lemma {:induction false} SimpleTotalMatchesPortfolio(bs: seq<Building>, yearsOut: nat)
    ensures DiscountFactor(0.05, yearsOut) != 0.0
    ensures ListTotal(Simple, bs, yearsOut, 0.05) == LossesCalculator.PortfolioLoss(yearsOut, bs)
    decreases |bs|
  {
    if bs != [] {
      SimpleTotalMatchesPortfolio(bs[1..], yearsOut);
      SimpleMatchesPortfolio(bs[0], yearsOut);
      assert bs == [bs[0]] + bs[1..];
      LossesCalculator.PortfolioLossConcat(yearsOut, [bs[0]], bs[1..]);
      assert [bs[0]][..0] == [];
    }
  }
}
