/**
 * The two purchase handlers. Each first checks that the relevant balance
 * covers the cost passed in by the caller, then charges it, counts the
 * purchase, and switches on the kind name; a name the switch does not know
 * abandons the purchase and leaves the state as it was.
 */
module Shop {
  import opened Numbers
  import opened GameTypes

  datatype CostType = CoinsCost | GemsCost

  datatype UpgradeKind =
    | ClickPowerUpgrade | AutoClickerUpgrade | MultiplierUpgrade | EnergyUpgrade | GemMinerUpgrade
    | LuckyClickUpgrade | CriticalHitUpgrade | EnergyEfficiencyUpgrade | MegaClickUpgrade | QuantumBoostUpgrade

  datatype BuildingKind =
    | CoinMine | GemFactory | EnergyPlant | ResearchLab | QuantumComputer
    | SpaceStation | TimeMachine | DimensionalRift

  // ---- names of the switch cases ----

  function UpgradeName(k: UpgradeKind): string {
    match k
    case ClickPowerUpgrade => "clickPower"
    case AutoClickerUpgrade => "autoClicker"
    case MultiplierUpgrade => "multiplier"
    case EnergyUpgrade => "energy"
    case GemMinerUpgrade => "gemMiner"
    case LuckyClickUpgrade => "luckyClick"
    case CriticalHitUpgrade => "criticalHit"
    case EnergyEfficiencyUpgrade => "energyEfficiency"
    case MegaClickUpgrade => "megaClick"
    case QuantumBoostUpgrade => "quantumBoost"
  }

  /** The case of the upgrade switch a name selects, if any. */
  function UpgradeKindOf(name: string): Option<UpgradeKind> {
    match name
    case "clickPower" => Some(ClickPowerUpgrade)
    case "autoClicker" => Some(AutoClickerUpgrade)
    case "multiplier" => Some(MultiplierUpgrade)
    case "energy" => Some(EnergyUpgrade)
    case "gemMiner" => Some(GemMinerUpgrade)
    case "luckyClick" => Some(LuckyClickUpgrade)
    case "criticalHit" => Some(CriticalHitUpgrade)
    case "energyEfficiency" => Some(EnergyEfficiencyUpgrade)
    case "megaClick" => Some(MegaClickUpgrade)
    case "quantumBoost" => Some(QuantumBoostUpgrade)
    case _ => None
  }

  /** A name selects exactly the kind that carries it. */
  lemma UpgradeNamesSelectTheirCase(name: string, k: UpgradeKind)
    ensures UpgradeKindOf(name) == Some(k) <==> name == UpgradeName(k)
  {
  }

  function BuildingName(k: BuildingKind): string {
    match k
    case CoinMine => "coinMine"
    case GemFactory => "gemFactory"
    case EnergyPlant => "energyPlant"
    case ResearchLab => "researchLab"
    case QuantumComputer => "quantumComputer"
    case SpaceStation => "spaceStation"
    case TimeMachine => "timeMachine"
    case DimensionalRift => "dimensionalRift"
  }

  /** The case of the building switch a name selects, if any. */
  function BuildingKindOf(name: string): Option<BuildingKind> {
    match name
    case "coinMine" => Some(CoinMine)
    case "gemFactory" => Some(GemFactory)
    case "energyPlant" => Some(EnergyPlant)
    case "researchLab" => Some(ResearchLab)
    case "quantumComputer" => Some(QuantumComputer)
    case "spaceStation" => Some(SpaceStation)
    case "timeMachine" => Some(TimeMachine)
    case "dimensionalRift" => Some(DimensionalRift)
    case _ => None
  }

  /** A name selects exactly the kind that carries it. */
  lemma BuildingNamesSelectTheirCase(name: string, k: BuildingKind)
    ensures BuildingKindOf(name) == Some(k) <==> name == BuildingName(k)
  {
  }

  // ---- counters by kind ----

  function LevelOf(u: Upgrades, k: UpgradeKind): nat {
    match k
    case ClickPowerUpgrade => u.clickPowerLevel
    case AutoClickerUpgrade => u.autoClickerLevel
    case MultiplierUpgrade => u.multiplierLevel
    case EnergyUpgrade => u.energyLevel
    case GemMinerUpgrade => u.gemMinerLevel
    case LuckyClickUpgrade => u.luckyClickLevel
    case CriticalHitUpgrade => u.criticalHitLevel
    case EnergyEfficiencyUpgrade => u.energyEfficiencyLevel
    case MegaClickUpgrade => u.megaClickLevel
    case QuantumBoostUpgrade => u.quantumBoostLevel
  }

  /** The plural counter a building kind increments. */
  function OwnedOf(b: Buildings, k: BuildingKind): nat {
    match k
    case CoinMine => b.coinMines
    case GemFactory => b.gemFactories
    case EnergyPlant => b.energyPlants
    case ResearchLab => b.researchLabs
    case QuantumComputer => b.quantumComputers
    case SpaceStation => b.spaceStations
    case TimeMachine => b.timeMachines
    case DimensionalRift => b.dimensionalRifts
  }

  // ---- buyUpgrade ----

  /** The affordability test of the purchase: the balance named by the cost type covers the cost. */
  predicate CanPay(s: GameState, cost: real, costType: CostType) {
    match costType
    case CoinsCost => s.coins >= cost
    case GemsCost => s.gems >= cost
  }

  /** The charge and the statistics update that precede the switch. */
  function ChargeUpgrade(s: GameState, cost: real, costType: CostType): GameState {
    var charged := match costType
      case CoinsCost => s.(coins := s.coins - cost)
      case GemsCost => s.(gems := s.gems - cost);
    charged.(statistics := s.statistics.(
      totalUpgradesPurchased := s.statistics.totalUpgradesPurchased + 1,
      gemsSpent := s.statistics.gemsSpent + (if costType == GemsCost then cost else 0.0)))
  }

  /** What one switch case does: its level plus one, and the four effect-bearing upgrades their effect. */
  function UpgradeEffect(s: GameState, k: UpgradeKind): GameState {
    var u := s.upgrades;
    match k
    case ClickPowerUpgrade =>
      s.(clickPower := s.clickPower * 2.0, upgrades := u.(clickPowerLevel := u.clickPowerLevel + 1))
    case AutoClickerUpgrade =>
      s.(autoClickers := s.autoClickers + 1, upgrades := u.(autoClickerLevel := u.autoClickerLevel + 1))
    case MultiplierUpgrade =>
      s.(prestige := s.prestige.(multiplier := s.prestige.multiplier + 0.5),
         upgrades := u.(multiplierLevel := u.multiplierLevel + 1))
    case EnergyUpgrade =>
      s.(maxEnergy := s.maxEnergy + 50.0, energyRegenRate := s.energyRegenRate + 0.5,
         upgrades := u.(energyLevel := u.energyLevel + 1))
    case GemMinerUpgrade => s.(upgrades := u.(gemMinerLevel := u.gemMinerLevel + 1))
    case LuckyClickUpgrade => s.(upgrades := u.(luckyClickLevel := u.luckyClickLevel + 1))
    case CriticalHitUpgrade => s.(upgrades := u.(criticalHitLevel := u.criticalHitLevel + 1))
    case EnergyEfficiencyUpgrade => s.(upgrades := u.(energyEfficiencyLevel := u.energyEfficiencyLevel + 1))
    case MegaClickUpgrade => s.(upgrades := u.(megaClickLevel := u.megaClickLevel + 1))
    case QuantumBoostUpgrade => s.(upgrades := u.(quantumBoostLevel := u.quantumBoostLevel + 1))
  }

  /** `buyUpgrade` as a transition of the state. */
  function UpgradePurchase(prev: GameState, upgradeType: string, cost: real, costType: CostType): GameState {
    if !CanPay(prev, cost, costType) then prev
    else match UpgradeKindOf(upgradeType)
      case None => prev
      case Some(k) => UpgradeEffect(ChargeUpgrade(prev, cost, costType), k)
  }

  /** The handler step by step: the guard, the charged copy, then the field updates of the switch. */
  method BuyUpgrade(prev: GameState, upgradeType: string, cost: real, costType: CostType) returns (next: GameState)
    ensures next == UpgradePurchase(prev, upgradeType, cost, costType)
  {
    var canAfford := if costType == CoinsCost then prev.coins >= cost else prev.gems >= cost;
    if !canAfford {
      return prev;
    }
    next := if costType == CoinsCost then prev.(coins := prev.coins - cost) else prev.(gems := prev.gems - cost);
    next := next.(statistics := prev.statistics.(
      totalUpgradesPurchased := prev.statistics.totalUpgradesPurchased + 1,
      gemsSpent := prev.statistics.gemsSpent + (if costType == GemsCost then cost else 0.0)));
    assert next == ChargeUpgrade(prev, cost, costType);
    var u := next.upgrades;
    match upgradeType
    case "clickPower" =>
      next := next.(clickPower := next.clickPower * 2.0);
      next := next.(upgrades := u.(clickPowerLevel := u.clickPowerLevel + 1));
    case "autoClicker" =>
      next := next.(autoClickers := next.autoClickers + 1);
      next := next.(upgrades := u.(autoClickerLevel := u.autoClickerLevel + 1));
    case "multiplier" =>
      next := next.(prestige := next.prestige.(multiplier := next.prestige.multiplier + 0.5));
      next := next.(upgrades := u.(multiplierLevel := u.multiplierLevel + 1));
    case "energy" =>
      next := next.(maxEnergy := next.maxEnergy + 50.0);
      next := next.(energyRegenRate := next.energyRegenRate + 0.5);
      next := next.(upgrades := u.(energyLevel := u.energyLevel + 1));
    case "gemMiner" =>
      next := next.(upgrades := u.(gemMinerLevel := u.gemMinerLevel + 1));
    case "luckyClick" =>
      next := next.(upgrades := u.(luckyClickLevel := u.luckyClickLevel + 1));
    case "criticalHit" =>
      next := next.(upgrades := u.(criticalHitLevel := u.criticalHitLevel + 1));
    case "energyEfficiency" =>
      next := next.(upgrades := u.(energyEfficiencyLevel := u.energyEfficiencyLevel + 1));
    case "megaClick" =>
      next := next.(upgrades := u.(megaClickLevel := u.megaClickLevel + 1));
    case "quantumBoost" =>
      next := next.(upgrades := u.(quantumBoostLevel := u.quantumBoostLevel + 1));
    case _ =>
      return prev;
  }

  /**
   * The upgrade purchase leaves the state unchanged exactly when the
   * balance does not cover the cost or the name is not a switch case.
   */
  lemma UpgradeRejectedExactly(prev: GameState, upgradeType: string, cost: real, costType: CostType)
    ensures UpgradePurchase(prev, upgradeType, cost, costType) == prev <==>
      !CanPay(prev, cost, costType) || UpgradeKindOf(upgradeType).None?
  {
    var r := UpgradePurchase(prev, upgradeType, cost, costType);
    if CanPay(prev, cost, costType) && UpgradeKindOf(upgradeType).Some? {
      assert r.statistics.totalUpgradesPurchased == prev.statistics.totalUpgradesPurchased + 1;
    }
  }

  /**
   * An accepted upgrade charges exactly the cost to the balance its cost
   * type names, counts one purchase, and adds gem costs to the gems spent.
   */
  lemma UpgradeCharges(prev: GameState, upgradeType: string, cost: real, costType: CostType)
    requires CanPay(prev, cost, costType) && UpgradeKindOf(upgradeType).Some?
    ensures var r := UpgradePurchase(prev, upgradeType, cost, costType);
      && r.coins == prev.coins - (if costType == CoinsCost then cost else 0.0)
      && r.gems == prev.gems - (if costType == GemsCost then cost else 0.0)
      && r.statistics.totalUpgradesPurchased == prev.statistics.totalUpgradesPurchased + 1
      && r.statistics.gemsSpent == prev.statistics.gemsSpent + (if costType == GemsCost then cost else 0.0)
      && r.energy == prev.energy && r.totalCoins == prev.totalCoins && r.totalGems == prev.totalGems
      && r.buildings == prev.buildings && r.achievements == prev.achievements
  {
    var c := ChargeUpgrade(prev, cost, costType);
    var r := UpgradeEffect(c, UpgradeKindOf(upgradeType).value);
    assert r.coins == c.coins && r.gems == c.gems && r.statistics == c.statistics;
  }

  /** An accepted upgrade raises its own level by one and leaves the other nine alone. */
  lemma UpgradeRaisesOwnLevel(prev: GameState, upgradeType: string, cost: real, costType: CostType, k': UpgradeKind)
    requires CanPay(prev, cost, costType) && UpgradeKindOf(upgradeType).Some?
    ensures var r := UpgradePurchase(prev, upgradeType, cost, costType);
      LevelOf(r.upgrades, k') == LevelOf(prev.upgrades, k') + (if k' == UpgradeKindOf(upgradeType).value then 1 else 0)
  {
    var c := ChargeUpgrade(prev, cost, costType);
    assert c.upgrades == prev.upgrades;
  }

  /**
   * The effect of an accepted upgrade: click power doubles, one auto
   * clicker is added, the multiplier gains 0.5, or the energy cap gains 50
   * and the regeneration 0.5; the other six kinds only raise their level.
   */
  lemma UpgradeEffects(prev: GameState, upgradeType: string, cost: real, costType: CostType)
    requires CanPay(prev, cost, costType) && UpgradeKindOf(upgradeType).Some?
    ensures var r := UpgradePurchase(prev, upgradeType, cost, costType);
      var k := UpgradeKindOf(upgradeType).value;
      && r.clickPower == (if k == ClickPowerUpgrade then 2.0 * prev.clickPower else prev.clickPower)
      && r.autoClickers == (if k == AutoClickerUpgrade then prev.autoClickers + 1 else prev.autoClickers)
      && r.prestige.multiplier == (if k == MultiplierUpgrade then prev.prestige.multiplier + 0.5 else prev.prestige.multiplier)
      && r.maxEnergy == (if k == EnergyUpgrade then prev.maxEnergy + 50.0 else prev.maxEnergy)
      && r.energyRegenRate == (if k == EnergyUpgrade then prev.energyRegenRate + 0.5 else prev.energyRegenRate)
  {
    var c := ChargeUpgrade(prev, cost, costType);
    assert c.clickPower == prev.clickPower && c.autoClickers == prev.autoClickers && c.prestige == prev.prestige;
    assert c.maxEnergy == prev.maxEnergy && c.energyRegenRate == prev.energyRegenRate;
  }

  // ---- buyBuilding ----

  /** What one building case does: its plural counter plus one. */
  function BuildingEffect(s: GameState, k: BuildingKind): GameState {
    var b := s.buildings;
    match k
    case CoinMine => s.(buildings := b.(coinMines := b.coinMines + 1))
    case GemFactory => s.(buildings := b.(gemFactories := b.gemFactories + 1))
    case EnergyPlant => s.(buildings := b.(energyPlants := b.energyPlants + 1))
    case ResearchLab => s.(buildings := b.(researchLabs := b.researchLabs + 1))
    case QuantumComputer => s.(buildings := b.(quantumComputers := b.quantumComputers + 1))
    case SpaceStation => s.(buildings := b.(spaceStations := b.spaceStations + 1))
    case TimeMachine => s.(buildings := b.(timeMachines := b.timeMachines + 1))
    case DimensionalRift => s.(buildings := b.(dimensionalRifts := b.dimensionalRifts + 1))
  }

  /** `buyBuilding` as a transition of the state: buildings are always paid in coins. */
  function BuildingPurchase(prev: GameState, buildingType: string, cost: real): GameState {
    if prev.coins < cost then prev
    else match BuildingKindOf(buildingType)
      case None => prev
      case Some(k) =>
        BuildingEffect(prev.(coins := prev.coins - cost,
                             statistics := prev.statistics.(totalBuildingsBuilt := prev.statistics.totalBuildingsBuilt + 1)), k)
  }

  /** The handler step by step. */
  method BuyBuilding(prev: GameState, buildingType: string, cost: real) returns (next: GameState)
    ensures next == BuildingPurchase(prev, buildingType, cost)
  {
    if prev.coins < cost {
      return prev;
    }
    next := prev.(coins := prev.coins - cost);
    next := next.(statistics := prev.statistics.(totalBuildingsBuilt := prev.statistics.totalBuildingsBuilt + 1));
    var b := next.buildings;
    match buildingType
    case "coinMine" => next := next.(buildings := b.(coinMines := b.coinMines + 1));
    case "gemFactory" => next := next.(buildings := b.(gemFactories := b.gemFactories + 1));
    case "energyPlant" => next := next.(buildings := b.(energyPlants := b.energyPlants + 1));
    case "researchLab" => next := next.(buildings := b.(researchLabs := b.researchLabs + 1));
    case "quantumComputer" => next := next.(buildings := b.(quantumComputers := b.quantumComputers + 1));
    case "spaceStation" => next := next.(buildings := b.(spaceStations := b.spaceStations + 1));
    case "timeMachine" => next := next.(buildings := b.(timeMachines := b.timeMachines + 1));
    case "dimensionalRift" => next := next.(buildings := b.(dimensionalRifts := b.dimensionalRifts + 1));
    case _ => return prev;
  }

  /**
   * The building purchase leaves the state unchanged exactly when the coins
   * do not cover the cost or the name is not a switch case.
   */
  lemma BuildingRejectedExactly(prev: GameState, buildingType: string, cost: real)
    ensures BuildingPurchase(prev, buildingType, cost) == prev <==>
      prev.coins < cost || BuildingKindOf(buildingType).None?
  {
    var r := BuildingPurchase(prev, buildingType, cost);
    if prev.coins >= cost && BuildingKindOf(buildingType).Some? {
      assert r.statistics.totalBuildingsBuilt == prev.statistics.totalBuildingsBuilt + 1;
    }
  }

  /**
   * An accepted building charges exactly the cost in coins, counts one
   * building, and raises exactly its own counter by one.
   */
  lemma BuildingAccepted(prev: GameState, buildingType: string, cost: real)
    requires prev.coins >= cost && BuildingKindOf(buildingType).Some?
    ensures var r := BuildingPurchase(prev, buildingType, cost);
      var k := BuildingKindOf(buildingType).value;
      && r.coins == prev.coins - cost
      && r.gems == prev.gems
      && r.statistics == prev.statistics.(totalBuildingsBuilt := prev.statistics.totalBuildingsBuilt + 1)
      && (forall k' :: OwnedOf(r.buildings, k') == OwnedOf(prev.buildings, k') + (if k' == k then 1 else 0))
      && r == prev.(coins := r.coins, statistics := r.statistics, buildings := r.buildings)
  {
  }
}
