/**
 * The upgrade shop's price list and its buy button. Four upgrades are paid
 * in coins on a geometric curve, six in gems on a linear one; a button
 * calls the purchase handler only when the balance its cost type names
 * covers the displayed cost.
 */
module UpgradeShop {
  import opened Numbers
  import opened GameTypes
  import opened Shop

  /** One row of the price list, as the button passes it on. */
  datatype UpgradeOffer = UpgradeOffer(id: string, cost: int, costType: CostType, level: nat)

  /** `Math.floor(c * Math.pow(b, level))`. */
  function GeometricCost(c: real, b: real, level: nat): int {
    (c * Pow(b, level)).Floor
  }

  /** The price list for the current levels, in display order. */
  function UpgradeOffers(u: Upgrades): (r: seq<UpgradeOffer>)
    ensures |r| == 10
  {
    [ UpgradeOffer("clickPower", GeometricCost(50.0, 2.0, u.clickPowerLevel), CoinsCost, u.clickPowerLevel),
      UpgradeOffer("autoClicker", GeometricCost(100.0, 1.5, u.autoClickerLevel), CoinsCost, u.autoClickerLevel),
      UpgradeOffer("multiplier", GeometricCost(1000.0, 3.0, u.multiplierLevel), CoinsCost, u.multiplierLevel),
      UpgradeOffer("energy", GeometricCost(5000.0, 2.5, u.energyLevel), CoinsCost, u.energyLevel),
      UpgradeOffer("gemMiner", 10 + u.gemMinerLevel * 5, GemsCost, u.gemMinerLevel),
      UpgradeOffer("luckyClick", 25 + u.luckyClickLevel * 15, GemsCost, u.luckyClickLevel),
      UpgradeOffer("criticalHit", 50 + u.criticalHitLevel * 25, GemsCost, u.criticalHitLevel),
      UpgradeOffer("energyEfficiency", 100 + u.energyEfficiencyLevel * 50, GemsCost, u.energyEfficiencyLevel),
      UpgradeOffer("megaClick", 200 + u.megaClickLevel * 100, GemsCost, u.megaClickLevel),
      UpgradeOffer("quantumBoost", 500 + u.quantumBoostLevel * 250, GemsCost, u.quantumBoostLevel) ]
  }

  /** The button's `canAfford`. */
  predicate CanAfford(coins: real, gems: real, offer: UpgradeOffer) {
    if offer.costType == CoinsCost then coins >= offer.cost as real else gems >= offer.cost as real
  }

  /** The call a click on the button makes, if any. */
  function Dispatch(coins: real, gems: real, offer: UpgradeOffer): (r: Option<UpgradeOffer>)
    ensures r.Some? <==> CanAfford(coins, gems, offer)
    ensures r.Some? ==> r.value == offer
  {
    if CanAfford(coins, gems, offer) then Some(offer) else None
  }

  /** The state after a click on row i of the price list. */
  function ClickOffer(s: GameState, i: nat): GameState
    requires i < 10
  {
    var offer := UpgradeOffers(s.upgrades)[i];
    match Dispatch(s.coins, s.gems, offer)
    case None => s
    case Some(o) => UpgradePurchase(s, o.id, o.cost as real, o.costType)
  }

  /** The button's test is the handler's own affordability test. */
  lemma CanAffordIsHandlerGuard(s: GameState, offer: UpgradeOffer)
    ensures CanAfford(s.coins, s.gems, offer) <==> CanPay(s, offer.cost as real, offer.costType)
  {
  }

  /** Every row names a case of the purchase switch, and shows that case's level. */
  lemma OffersNameSwitchCases(u: Upgrades)
    ensures forall i :: 0 <= i < 10 ==>
      var o := UpgradeOffers(u)[i];
      UpgradeKindOf(o.id).Some? && o.level == LevelOf(u, UpgradeKindOf(o.id).value)
  {
  }

  /** The gem prices are linear in the level, with the six bases and steps of the table. */
  lemma GemCostsLinear(u: Upgrades)
    ensures forall i :: 4 <= i < 10 ==>
      var o := UpgradeOffers(u)[i];
      o.costType == GemsCost &&
      o.cost == [10, 25, 50, 100, 200, 500][i - 4] + [5, 15, 25, 50, 100, 250][i - 4] * o.level
  {
  }

  /** At level 0 the coin prices are 50, 100, 1000 and 5000. */
  lemma CoinCostsAtLevelZero(u: Upgrades)
    requires u.clickPowerLevel == 0 && u.autoClickerLevel == 0 && u.multiplierLevel == 0 && u.energyLevel == 0
    ensures forall i :: 0 <= i < 4 ==> UpgradeOffers(u)[i].costType == CoinsCost
    ensures [UpgradeOffers(u)[0].cost, UpgradeOffers(u)[1].cost, UpgradeOffers(u)[2].cost, UpgradeOffers(u)[3].cost]
      == [50, 100, 1000, 5000]
  {
  }

  /** Each coin price strictly increases with its level. */
  lemma CoinCostsIncrease(m: nat, n: nat)
    requires m < n
    ensures GeometricCost(50.0, 2.0, m) < GeometricCost(50.0, 2.0, n)
    ensures GeometricCost(100.0, 1.5, m) < GeometricCost(100.0, 1.5, n)
    ensures GeometricCost(1000.0, 3.0, m) < GeometricCost(1000.0, 3.0, n)
    ensures GeometricCost(5000.0, 2.5, m) < GeometricCost(5000.0, 2.5, n)
  {
    FloorPowStrictlyIncreasing(50.0, 2.0, m, n);
    FloorPowStrictlyIncreasing(100.0, 1.5, m, n);
    FloorPowStrictlyIncreasing(1000.0, 3.0, m, n);
    FloorPowStrictlyIncreasing(5000.0, 2.5, m, n);
  }

  /**
   * A click on a row goes through exactly when it is affordable, and then
   * the purchase is accepted: it charges the displayed cost and the row's
   * price rises.
   */
  lemma ClickBuysAndRaisesPrice(s: GameState, i: nat)
    requires i < 10
    ensures var offer := UpgradeOffers(s.upgrades)[i];
      var r := ClickOffer(s, i);
      && (!CanAfford(s.coins, s.gems, offer) ==> r == s)
      && (CanAfford(s.coins, s.gems, offer) ==>
            r.statistics.totalUpgradesPurchased == s.statistics.totalUpgradesPurchased + 1
            && r.coins == s.coins - (if offer.costType == CoinsCost then offer.cost as real else 0.0)
            && r.gems == s.gems - (if offer.costType == GemsCost then offer.cost as real else 0.0)
            && UpgradeOffers(r.upgrades)[i].cost > offer.cost)
  {
    var offer := UpgradeOffers(s.upgrades)[i];
    if CanAfford(s.coins, s.gems, offer) {
      OffersNameSwitchCases(s.upgrades);
      var k := UpgradeKindOf(offer.id).value;
      UpgradeCharges(s, offer.id, offer.cost as real, offer.costType);
      UpgradeRaisesOwnLevel(s, offer.id, offer.cost as real, offer.costType, k);
      var r := ClickOffer(s, i);
      OffersNameSwitchCases(r.upgrades);
      assert UpgradeOffers(r.upgrades)[i].level == offer.level + 1;
      if i < 4 {
        CoinCostsIncrease(offer.level, offer.level + 1);
      }
    }
  }
}
