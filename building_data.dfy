/** The building record both calculators read from their JSON input. */
module BuildingData {

  /** One input row: an identifier and four numeric attributes, none of them validated. */
  datatype Building = Building(
    buildingId: string,
    floorArea: real,
    constructionCost: real,
    hazardProbability: real,
    inflationRate: real)

  /** The set of identifiers that occur in `bs`. */
  function Ids(bs: seq<Building>): set<string>
  {
    set i | 0 <= i < |bs| :: bs[i].buildingId
  }

  /** No identifier occurs twice in `bs`. */
  predicate DistinctIds(bs: seq<Building>)
  {
    forall i, j :: 0 <= i < j < |bs| ==> bs[i].buildingId != bs[j].buildingId
  }

  /** Position `i` holds the last building in `bs` with its identifier. */
  predicate LastOccurrence(bs: seq<Building>, i: int)
  {
    0 <= i < |bs| && forall j :: i < j < |bs| ==> bs[j].buildingId != bs[i].buildingId
  }

  lemma IdsSnoc(bs: seq<Building>, b: Building)
    ensures Ids(bs + [b]) == Ids(bs) + {b.buildingId}
  {
    var s := bs + [b];
    assert s[|bs|] == b;
    forall k | k in Ids(bs) ensures k in Ids(s) {
      var i :| 0 <= i < |bs| && bs[i].buildingId == k;
      assert s[i] == bs[i];
    }
  }
}
