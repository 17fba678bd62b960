/**
 * The buildings panel's price list and its buy button. Each building has a
 * base cost; its price is `floor(baseCost * 1.15^owned)`, where `owned` is
 * read from the building counters by their plural names. The panel
 * receives the counters untyped: the first five are read as they are, so a
 * missing one makes the price NaN and the button disabled, while the last
 * three fall back to 0.
 */
module BuildingsPanel {
  import opened Numbers
  import opened GameTypes
  import opened Shop

  /** One row of the table: the id passed to the handler, the base cost, the counter it reads. */
  datatype BuildingOffer = BuildingOffer(id: string, baseCost: int, counter: string, missingIsZero: bool)

  /**
   * `buildingData`: eight rows whose base costs rise strictly, and whose
   * missing counters read as zero only in the last three rows.
   */
  function BuildingTable(): (r: seq<BuildingOffer>)
    ensures |r| == 8
    ensures forall i, j :: 0 <= i < j < |r| ==> r[i].baseCost < r[j].baseCost
    ensures forall i :: 0 <= i < |r| ==> (r[i].missingIsZero <==> i >= 5)
  {
    [
    BuildingOffer("coinMine", 100, "coinMines", false),
    BuildingOffer("gemFactory", 1000, "gemFactories", false),
    BuildingOffer("energyPlant", 5000, "energyPlants", false),
    BuildingOffer("researchLab", 50000, "researchLabs", false),
    BuildingOffer("quantumComputer", 1000000, "quantumComputers", false),
    BuildingOffer("spaceStation", 10000000, "spaceStations", true),
    BuildingOffer("timeMachine", 100000000, "timeMachines", true),
    BuildingOffer("dimensionalRift", 1000000000, "dimensionalRifts", true)
    ]
  }

  /** The counters as the panel receives them, keyed by their plural names. */
  function CountersOf(b: Buildings): map<string, nat> {
    map["coinMines" := b.coinMines, "gemFactories" := b.gemFactories, "energyPlants" := b.energyPlants,
        "researchLabs" := b.researchLabs, "quantumComputers" := b.quantumComputers,
        "spaceStations" := b.spaceStations, "timeMachines" := b.timeMachines,
        "dimensionalRifts" := b.dimensionalRifts]
  }

  /** The `owned` of a row; None stands for the undefined a missing counter gives. */
  function Owned(offer: BuildingOffer, counters: map<string, nat>): Option<nat> {
    if offer.counter in counters then Some(counters[offer.counter])
    else if offer.missingIsZero then Some(0)
    else None
  }

  /** `Math.floor(baseCost * Math.pow(1.15, owned))`; None stands for NaN. */
  function Cost(offer: BuildingOffer, counters: map<string, nat>): Option<int> {
    match Owned(offer, counters)
    case None => None
    case Some(n) => Some((offer.baseCost as real * Pow(1.15, n)).Floor)
  }

  /** The button's `canAfford`: a comparison with NaN is false. */
  predicate CanAfford(coins: real, offer: BuildingOffer, counters: map<string, nat>) {
    Cost(offer, counters).Some? && coins >= Cost(offer, counters).value as real
  }

  /** The call a click on the button makes, if any: the id and the displayed cost. */
  function Dispatch(coins: real, offer: BuildingOffer, counters: map<string, nat>): (r: Option<(string, int)>)
    ensures r.Some? <==> CanAfford(coins, offer, counters)
    ensures r.Some? ==> r.value == (offer.id, Cost(offer, counters).value)
  {
    if CanAfford(coins, offer, counters) then Some((offer.id, Cost(offer, counters).value)) else None
  }

  /** The state after a click on row i of the panel. */
  function ClickBuilding(s: GameState, i: nat): GameState
    requires i < |BuildingTable()|
  {
    match Dispatch(s.coins, BuildingTable()[i], CountersOf(s.buildings))
    case None => s
    case Some(call) => BuildingPurchase(s, call.0, call.1 as real)
  }

  /** With none owned the price is the base cost. */
  lemma CostAtZeroIsBase(offer: BuildingOffer, counters: map<string, nat>)
    requires Owned(offer, counters) == Some(0)
    ensures Cost(offer, counters) == Some(offer.baseCost)
  {
  }

  /** Every row's price strictly increases with the number owned. */
  lemma CostIncreases(i: nat, m: nat, n: nat)
    requires i < |BuildingTable()| && m < n
    ensures var c := BuildingTable()[i].baseCost as real;
      (c * Pow(1.15, m)).Floor < (c * Pow(1.15, n)).Floor
  {
    var c := BuildingTable()[i].baseCost as real;
    assert c >= 100.0;
    assert c * (1.15 - 1.0) >= 1.0;
    FloorPowStrictlyIncreasing(c, 1.15, m, n);
  }

  /**
   * Every row names a case of the building switch, and the counter it reads
   * is the one that case increments.
   */
  lemma RowsNameSwitchCases(b: Buildings)
    ensures forall i :: 0 <= i < |BuildingTable()| ==>
      var o := BuildingTable()[i];
      BuildingKindOf(o.id).Some? && Owned(o, CountersOf(b)) == Some(OwnedOf(b, BuildingKindOf(o.id).value))
  {
  }

  /**
   * A missing counter: for the last three rows it counts as none owned, so
   * the price is the base cost; for the first five the price is NaN and the
   * button never fires.
   */
  lemma MissingCounters(i: nat, counters: map<string, nat>, coins: real)
    requires i < |BuildingTable()| && BuildingTable()[i].counter !in counters
    ensures i >= 5 ==> Cost(BuildingTable()[i], counters) == Some(BuildingTable()[i].baseCost)
    ensures i < 5 ==> Dispatch(coins, BuildingTable()[i], counters).None?
  {
  }

  /** The button's test is the negation of the handler's rejection test, on the game's own counters. */
  lemma CanAffordIsHandlerGuard(s: GameState, i: nat)
    requires i < |BuildingTable()|
    ensures Cost(BuildingTable()[i], CountersOf(s.buildings)).Some?
    ensures CanAfford(s.coins, BuildingTable()[i], CountersOf(s.buildings)) <==>
      !(s.coins < Cost(BuildingTable()[i], CountersOf(s.buildings)).value as real)
  {
  }

  /**
   * A click on a row goes through exactly when it is affordable, and then
   * the purchase is accepted: it charges the displayed cost, adds one to
   * the row's own counter, and the row's price rises.
   */
  lemma ClickBuysAndRaisesPrice(s: GameState, i: nat)
    requires i < |BuildingTable()|
    ensures var offer := BuildingTable()[i];
      var r := ClickBuilding(s, i);
      && (!CanAfford(s.coins, offer, CountersOf(s.buildings)) ==> r == s)
      && (CanAfford(s.coins, offer, CountersOf(s.buildings)) ==>
            var cost := Cost(offer, CountersOf(s.buildings)).value;
            && r.coins == s.coins - cost as real
            && r.statistics.totalBuildingsBuilt == s.statistics.totalBuildingsBuilt + 1
            && Owned(offer, CountersOf(r.buildings)).value == Owned(offer, CountersOf(s.buildings)).value + 1
            && Cost(offer, CountersOf(r.buildings)).value > cost)
  {
    var offer := BuildingTable()[i];
    if CanAfford(s.coins, offer, CountersOf(s.buildings)) {
      RowOwned(s.buildings, i);
      var k := BuildingKindOf(offer.id).value;
      var cost := Cost(offer, CountersOf(s.buildings)).value;
      BuildingAccepted(s, offer.id, cost as real);
      var r := ClickBuilding(s, i);
      assert r == BuildingPurchase(s, offer.id, cost as real);
      RowOwned(r.buildings, i);
      var n := OwnedOf(s.buildings, k);
      assert OwnedOf(r.buildings, k) == n + 1;
      CostIncreases(i, n, n + 1);
    }
  }

  /** Row i names a building case, and shows that case's counter. */
  lemma RowOwned(b: Buildings, i: nat)
    requires i < |BuildingTable()|
    ensures BuildingKindOf(BuildingTable()[i].id).Some?
    ensures Owned(BuildingTable()[i], CountersOf(b)) == Some(OwnedOf(b, BuildingKindOf(BuildingTable()[i].id).value))
  {
    RowsNameSwitchCases(b);
  }
}
