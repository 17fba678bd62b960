/**
 * The three bodies run once a second: play time, energy regeneration, and
 * passive production from auto clickers and buildings.
 */
module Ticks {
  import opened Numbers
  import opened GameTypes
  import opened BattlePassRules

  // ---- play time ----

  /** One second more of play time; the player was last active now. Nothing else changes. */
  function PlayTimeTick(prev: GameState, now: int): (r: GameState)
    ensures r.statistics.totalTimePlayedMs == prev.statistics.totalTimePlayedMs + 1000
    ensures r.player.lastActive == now
    ensures r.statistics.(totalTimePlayedMs := prev.statistics.totalTimePlayedMs) == prev.statistics
    ensures r.player.(lastActive := prev.player.lastActive) == prev.player
    ensures r.(statistics := prev.statistics, player := prev.player) == prev
  {
    prev.(statistics := prev.statistics.(totalTimePlayedMs := prev.statistics.totalTimePlayedMs + 1000),
          player := prev.player.(lastActive := now))
  }

  // ---- energy regeneration ----

  /** Below the cap, energy grows by the regeneration rate, clamped at the cap; at or above it nothing happens. */
  function EnergyTick(prev: GameState): (r: GameState)
    ensures prev.energy >= prev.maxEnergy ==> r == prev
    ensures prev.energy < prev.maxEnergy ==>
      r == prev.(energy := MinR(prev.maxEnergy, prev.energy + prev.energyRegenRate))
  {
    if prev.energy < prev.maxEnergy then
      prev.(energy := MinR(prev.maxEnergy, prev.energy + prev.energyRegenRate))
    else prev
  }

  /**
   * Regeneration keeps energy within [0, maxEnergy], never lowers it, and
   * fills it to the cap once the rate covers the gap.
   */
  lemma EnergyTickKeepsBounds(s: GameState)
    requires 0.0 <= s.energy <= s.maxEnergy && s.energyRegenRate >= 0.0
    ensures var r := EnergyTick(s);
      && 0.0 <= r.energy <= r.maxEnergy && r.maxEnergy == s.maxEnergy
      && r.energy >= s.energy
      && (s.energy + s.energyRegenRate >= s.maxEnergy ==> r.energy == s.maxEnergy)
      && (s.energy + s.energyRegenRate < s.maxEnergy ==> r.energy == s.energy + s.energyRegenRate)
  {
  }

  // ---- production ----

  /** Coins from auto clickers and the four coin buildings, at the prestige multiplier. */
  function BaseCoins(s: GameState): real {
    var b := s.buildings;
    var m := s.prestige.multiplier;
    (if s.autoClickers > 0 then s.autoClickers as real * s.autoClickerPower * m else 0.0)
      + b.coinMines as real * 1.0 * m
      + b.spaceStations as real * 100.0 * m
      + b.timeMachines as real * 1000.0 * m
      + b.dimensionalRifts as real * 10000.0 * m
  }

  /** `1 + 0.1 * researchLabs` when there is a lab. */
  function ResearchBonus(b: Buildings): real {
    if b.researchLabs > 0 then 1.0 + b.researchLabs as real * 0.1 else 1.0
  }

  /** `1.05 ^ quantumComputers` when there is a quantum computer. */
  function QuantumBonus(b: Buildings): real {
    if b.quantumComputers > 0 then Pow(1.05, b.quantumComputers) else 1.0
  }

  /** What one pet multiplies the coins by: `1 + 0.1 * level` when it is active. */
  function PetFactor(p: Pet): real {
    if p.isActive then 1.0 + p.level as real * 0.1 else 1.0
  }

  /** The product of the pet factors, in list order. */
  function PetBonus(pets: seq<Pet>): real {
    if pets == [] then 1.0 else PetBonus(pets[..|pets| - 1]) * PetFactor(pets[|pets| - 1])
  }

  function CoinsPerTick(s: GameState): real {
    BaseCoins(s) * ResearchBonus(s.buildings) * QuantumBonus(s.buildings) * PetBonus(s.pets)
  }

  function GemsPerTick(s: GameState): real {
    s.buildings.gemFactories as real * 0.1 * ResearchBonus(s.buildings) * QuantumBonus(s.buildings)
  }

  /**
   * The production tick as a transition: coins and gems and their totals
   * grow by the tick's production, energy by two per plant up to the cap,
   * the pass by one experience per thousand coins, the best rate is
   * remembered, and the player's power is recomputed from the totals as
   * they were before the tick.
   */
  function Produce(prev: GameState): GameState {
    var coins := CoinsPerTick(prev);
    var gems := GemsPerTick(prev);
    prev.(coins := prev.coins + coins,
          totalCoins := prev.totalCoins + coins,
          gems := prev.gems + gems,
          totalGems := prev.totalGems + gems,
          energy := MinR(prev.maxEnergy, prev.energy + prev.buildings.energyPlants as real * 2.0),
          battlePass := AddPassExperience(prev.battlePass, (coins / 1000.0).Floor),
          player := prev.player.(totalPower := prev.totalCoins + prev.totalGems * 100.0),
          statistics := prev.statistics.(highestCoinsPerSecond := MaxR(prev.statistics.highestCoinsPerSecond, coins)))
  }

  /** The first half of the tick body: the running gains and the research and quantum bonuses. */
  method BuildingGains(prev: GameState) returns (coinsGained: real, gemsGained: real, energyGained: real)
    ensures coinsGained == BaseCoins(prev) * ResearchBonus(prev.buildings) * QuantumBonus(prev.buildings)
    ensures gemsGained == GemsPerTick(prev)
    ensures energyGained == prev.buildings.energyPlants as real * 2.0
  {
    var b := prev.buildings;
    var m := prev.prestige.multiplier;
    coinsGained, gemsGained, energyGained := 0.0, 0.0, 0.0;
    if prev.autoClickers > 0 {
      coinsGained := coinsGained + prev.autoClickers as real * prev.autoClickerPower * m;
    }
    coinsGained := coinsGained + b.coinMines as real * 1.0 * m;
    gemsGained := gemsGained + b.gemFactories as real * 0.1;
    energyGained := energyGained + b.energyPlants as real * 2.0;
    coinsGained := coinsGained + b.spaceStations as real * 100.0 * m;
    coinsGained := coinsGained + b.timeMachines as real * 1000.0 * m;
    coinsGained := coinsGained + b.dimensionalRifts as real * 10000.0 * m;
    assert coinsGained == BaseCoins(prev);
    if b.researchLabs > 0 {
      var researchBonus := 1.0 + b.researchLabs as real * 0.1;
      coinsGained := coinsGained * researchBonus;
      gemsGained := gemsGained * researchBonus;
    }
    if b.quantumComputers > 0 {
      var quantumBonus := Pow(1.05, b.quantumComputers);
      coinsGained := coinsGained * quantumBonus;
      gemsGained := gemsGained * quantumBonus;
    }
  }

  /** The loop over the pets: each active one multiplies the coins by its factor. */
  method ApplyPetBonuses(pets: seq<Pet>, coins: real) returns (coinsGained: real)
    ensures coinsGained == coins * PetBonus(pets)
  {
    coinsGained := coins;
    var i := 0;
    while i < |pets|
      invariant 0 <= i <= |pets|
      invariant coinsGained == coins * PetBonus(pets[..i])
    {
      var pet := pets[i];
      assert pets[..i + 1][..i] == pets[..i];
      if pet.isActive {
        var petBonus := pet.level as real * 0.1;
        coinsGained := coinsGained * (1.0 + petBonus);
      }
      i := i + 1;
    }
    assert pets[..i] == pets;
  }

  /** The tick body step by step: the gains, the pets, the pass rollover, the new state. */
  method ProductionTick(prev: GameState) returns (next: GameState)
    ensures next == Produce(prev)
  {
    var coinsGained, gemsGained, energyGained := BuildingGains(prev);
    coinsGained := ApplyPetBonuses(prev.pets, coinsGained);
    assert coinsGained == CoinsPerTick(prev);
    var newHighestCPS := MaxR(prev.statistics.highestCoinsPerSecond, coinsGained);
    var battlePassExp := (coinsGained / 1000.0).Floor;
    var newBattlePass := prev.battlePass;
    if battlePassExp > 0 {
      newBattlePass := newBattlePass.(experience := newBattlePass.experience + battlePassExp);
      newBattlePass := RollOverLoop(newBattlePass);
    }
    assert newBattlePass == AddPassExperience(prev.battlePass, battlePassExp);
    next := prev.(coins := prev.coins + coinsGained,
                  totalCoins := prev.totalCoins + coinsGained,
                  gems := prev.gems + gemsGained,
                  totalGems := prev.totalGems + gemsGained,
                  energy := MinR(prev.maxEnergy, prev.energy + energyGained),
                  battlePass := newBattlePass,
                  player := prev.player.(totalPower := prev.totalCoins + prev.totalGems * 100.0),
                  statistics := prev.statistics.(highestCoinsPerSecond := newHighestCPS));
  }

  /** Active pets each add at least nothing: the pet bonus is at least 1. */
  lemma {:induction false} PetBonusAtLeastOne(pets: seq<Pet>)
    ensures PetBonus(pets) >= 1.0
  {
    if pets != [] {
      PetBonusAtLeastOne(pets[..|pets| - 1]);
      var f := PetFactor(pets[|pets| - 1]);
      assert f >= 1.0;
      assert PetBonus(pets[..|pets| - 1]) * f >= PetBonus(pets[..|pets| - 1]) * 1.0;
    }
  }

  /** Inactive pets do not count: with no active pet the bonus is exactly 1. */
  lemma {:induction false} PetBonusOfInactivePets(pets: seq<Pet>)
    requires forall i :: 0 <= i < |pets| ==> !pets[i].isActive
    ensures PetBonus(pets) == 1.0
  {
    if pets != [] {
      PetBonusOfInactivePets(pets[..|pets| - 1]);
    }
  }

  /**
   * The coins of a tick in closed form: auto clickers and coin buildings,
   * weighted 1, 100, 1000 and 10000, times the prestige multiplier, the
   * research and quantum bonuses and the pet bonus.
   */
  lemma CoinsPerTickFormula(s: GameState)
    ensures CoinsPerTick(s) ==
      (s.autoClickers as real * s.autoClickerPower + s.buildings.coinMines as real
       + 100.0 * s.buildings.spaceStations as real + 1000.0 * s.buildings.timeMachines as real
       + 10000.0 * s.buildings.dimensionalRifts as real)
      * s.prestige.multiplier * ResearchBonus(s.buildings) * QuantumBonus(s.buildings) * PetBonus(s.pets)
  {
    var b := s.buildings;
    var m := s.prestige.multiplier;
    var auto := s.autoClickers as real * s.autoClickerPower;
    if s.autoClickers == 0 {
      assert auto == 0.0;
    }
    assert b.coinMines as real * 1.0 * m == b.coinMines as real * m;
    assert b.spaceStations as real * 100.0 * m == (100.0 * b.spaceStations as real) * m;
    assert b.timeMachines as real * 1000.0 * m == (1000.0 * b.timeMachines as real) * m;
    assert b.dimensionalRifts as real * 10000.0 * m == (10000.0 * b.dimensionalRifts as real) * m;
    assert auto * m + b.coinMines as real * m + (100.0 * b.spaceStations as real) * m
           + (1000.0 * b.timeMachines as real) * m + (10000.0 * b.dimensionalRifts as real) * m
        == (auto + b.coinMines as real + 100.0 * b.spaceStations as real + 1000.0 * b.timeMachines as real
            + 10000.0 * b.dimensionalRifts as real) * m;
  }

  /**
   * What a tick adds: coins and their total rise together by the coins of
   * the tick, gems and their total by the gems of the tick, which carry no
   * pet bonus; the best rate is the running maximum; the player's power
   * comes from the totals before the tick.
   */
  lemma ProductionGains(s: GameState)
    ensures var r := Produce(s);
      && r.coins - s.coins == r.totalCoins - s.totalCoins == CoinsPerTick(s)
      && r.gems - s.gems == r.totalGems - s.totalGems == GemsPerTick(s)
      && r.statistics.highestCoinsPerSecond >= s.statistics.highestCoinsPerSecond
      && r.statistics.highestCoinsPerSecond >= CoinsPerTick(s)
      && (r.statistics.highestCoinsPerSecond == s.statistics.highestCoinsPerSecond
          || r.statistics.highestCoinsPerSecond == CoinsPerTick(s))
      && r.player.totalPower == s.totalCoins + s.totalGems * 100.0
      && r.level == s.level && r.upgrades == s.upgrades && r.buildings == s.buildings && r.pets == s.pets
  {
  }

  /** With non-negative rates a tick never takes coins or gems away. */
  lemma ProductionNonNegative(s: GameState)
    requires s.prestige.multiplier >= 0.0 && s.autoClickerPower >= 0.0
    ensures CoinsPerTick(s) >= 0.0 && GemsPerTick(s) >= 0.0
  {
    var b := s.buildings;
    PetBonusAtLeastOne(s.pets);
    PowAtLeastOne(1.05, b.quantumComputers);
    assert BaseCoins(s) >= 0.0;
    assert ResearchBonus(b) >= 1.0 && QuantumBonus(b) >= 1.0;
    var x := BaseCoins(s) * ResearchBonus(b);
    assert x >= 0.0;
    var y := x * QuantumBonus(b);
    assert y >= 0.0;
    assert y * PetBonus(s.pets) >= 0.0;
    assert s.buildings.gemFactories as real * 0.1 >= 0.0;
  }

  /** The tick keeps energy within [0, maxEnergy] and the pass below its threshold. */
  lemma ProductionKeepsBounds(s: GameState)
    requires 0.0 <= s.energy <= s.maxEnergy
    requires 0 <= s.battlePass.experience < s.battlePass.experienceToNext
    ensures var r := Produce(s);
      && 0.0 <= r.energy <= r.maxEnergy
      && 0 <= r.battlePass.experience < r.battlePass.experienceToNext
      && r.battlePass.level >= s.battlePass.level
  {
    AddPassExperienceKeepsBounds(s.battlePass, (CoinsPerTick(s) / 1000.0).Floor);
  }

  /** Ten coin mines at multiplier 1, with nothing else producing, add exactly ten coins. */
  lemma TenCoinMinesAddTen(s: GameState)
    requires s.autoClickers == 0 && s.prestige.multiplier == 1.0
    requires s.buildings == Buildings(10, 0, 0, 0, 0, 0, 0, 0)
    requires forall i :: 0 <= i < |s.pets| ==> !s.pets[i].isActive
    ensures Produce(s).coins == s.coins + 10.0
    ensures Produce(s).totalCoins == s.totalCoins + 10.0
    ensures Produce(s).battlePass == s.battlePass
  {
    PetBonusOfInactivePets(s.pets);
    assert CoinsPerTick(s) == 10.0;
    assert (10.0 / 1000.0).Floor == 0;
  }
}
