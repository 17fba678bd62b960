/**
 * A click on the main button. The click streak counts clicks less than a
 * second apart. The click earns the click power times the prestige
 * multiplier in coins and one experience; a critical roll multiplies the
 * coins by 5 and the experience by 2, a lucky roll adds a gem, and a mega
 * click (streak of 10 with at least 10 energy) multiplies the coins by 10
 * and the experience by 5. Reaching the experience threshold gains exactly
 * one level with a coin and gem bonus and restarts the experience at 0.
 * The pass gains one experience per hundred coins, the achievements are
 * re-evaluated, and a streak of 10 drains 10 energy.
 */
module ClickRules {
  import opened Numbers
  import opened GameTypes
  import opened BattlePassRules
  import opened AchievementRules

  // ---- the click streak ----

  /** The streak after a click at `now`: one more within a second of the last click, otherwise 1. */
  function NextStreak(lastClickTime: int, streak: nat, now: int): (r: nat)
    ensures 1 <= r <= streak + 1
    ensures r > 1 ==> now - lastClickTime < 1000
  {
    if now - lastClickTime < 1000 then streak + 1 else 1
  }

  /** The last click time and the streak, kept between clicks. */
  class ClickTracker {
    var lastClickTime: int
    var streak: nat

    constructor()
      ensures lastClickTime == 0 && streak == 0
    {
      lastClickTime := 0;
      streak := 0;
    }

    /** Record a click at `now`. */
    method Register(now: int)
      modifies this
      ensures streak == NextStreak(old(lastClickTime), old(streak), now)
      ensures lastClickTime == now
    {
      var timeSinceLastClick := now - lastClickTime;
      if timeSinceLastClick < 1000 {
        streak := streak + 1;
      } else {
        streak := 1;
      }
      lastClickTime := now;
    }
  }

  /** The streak after clicks at the given times, starting from a tracker state. */
  function StreakAfter(lastClickTime: int, streak: nat, times: seq<int>): nat
    decreases |times|
  {
    if times == [] then streak
    else StreakAfter(times[0], NextStreak(lastClickTime, streak, times[0]), times[1..])
  }

  /** Clicks each less than a second after the one before add one each to the streak. */
  lemma {:induction false} RapidClicksBuildStreak(lastClickTime: int, streak: nat, times: seq<int>)
    requires times != [] ==> times[0] - lastClickTime < 1000
    requires forall i :: 0 < i < |times| ==> times[i] - times[i - 1] < 1000
    ensures StreakAfter(lastClickTime, streak, times) == streak + |times|
    decreases |times|
  {
    if times != [] {
      RapidClicksBuildStreak(times[0], streak + 1, times[1..]);
    }
  }

  // ---- the rolls ----

  /** The two random draws of a click, each in [0, 1). */
  datatype ClickRolls = ClickRolls(critical: real, lucky: real)

  function CriticalChance(u: Upgrades): real {
    0.05 + u.criticalHitLevel as real * 0.02
  }

  function LuckyChance(u: Upgrades): real {
    0.02 + u.luckyClickLevel as real * 0.01
  }

  predicate IsCritical(prev: GameState, rolls: ClickRolls) {
    rolls.critical < CriticalChance(prev.upgrades)
  }

  predicate IsLucky(prev: GameState, rolls: ClickRolls) {
    rolls.lucky < LuckyChance(prev.upgrades)
  }

  /** A mega click needs both the streak and the energy. */
  predicate IsMega(prev: GameState, streak: nat) {
    prev.energy >= 10.0 && streak >= 10
  }

  /** The click power of the click: the stored power times the prestige multiplier. */
  function EffectivePower(prev: GameState): real {
    prev.clickPower * prev.prestige.multiplier
  }

  /** Coins from the click itself, before any level-up bonus. */
  function RolledCoins(prev: GameState, streak: nat, rolls: ClickRolls): real {
    EffectivePower(prev) * (if IsCritical(prev, rolls) then 5.0 else 1.0) * (if IsMega(prev, streak) then 10.0 else 1.0)
  }

  function RolledGems(prev: GameState, rolls: ClickRolls): real {
    if IsLucky(prev, rolls) then 1.0 else 0.0
  }

  function RolledExperience(prev: GameState, streak: nat, rolls: ClickRolls): int {
    1 * (if IsCritical(prev, rolls) then 2 else 1) * (if IsMega(prev, streak) then 5 else 1)
  }

  // ---- the level-up ----

  /** The experience threshold after reaching `newLevel`: `floor(100 * 1.5^(newLevel-1))`. */
  function LevelThreshold(newLevel: nat): (t: int)
    requires newLevel >= 1
    ensures t >= 100
  {
    PowAtLeastOne(1.5, newLevel - 1);
    (100.0 * Pow(1.5, newLevel - 1)).Floor
  }

  predicate LevelsUp(prev: GameState, experienceGained: int) {
    prev.experience + experienceGained >= prev.experienceToNext
  }

  // ---- the click ----

  function ClickCoins(prev: GameState, streak: nat, rolls: ClickRolls): real {
    RolledCoins(prev, streak, rolls)
      + (if LevelsUp(prev, RolledExperience(prev, streak, rolls)) then (prev.level + 1) as real * 100.0 else 0.0)
  }

  function ClickGems(prev: GameState, streak: nat, rolls: ClickRolls): real {
    RolledGems(prev, rolls)
      + (if LevelsUp(prev, RolledExperience(prev, streak, rolls)) then ((prev.level + 1) / 5) as real else 0.0)
  }

  /**
   * The state a click leaves, given what it gained, its new level and
   * experience, and the new battle pass.
   */
  function Clicked(prev: GameState, streak: nat, coinsGained: real, gemsGained: real,
                   newLevel: nat, newExperience: int, newExperienceToNext: int,
                   isCritical: bool, isLucky: bool, newBattlePass: BattlePass): GameState {
    var newTotalCoins := prev.totalCoins + coinsGained;
    var newTotalGems := prev.totalGems + gemsGained;
    var ctx := ClickContext(prev.statistics.totalClicks + 1, newTotalCoins, newTotalGems, isCritical, isLucky, streak);
    prev.(coins := prev.coins + coinsGained,
          totalCoins := newTotalCoins,
          gems := prev.gems + gemsGained,
          totalGems := newTotalGems,
          level := newLevel,
          experience := newExperience,
          experienceToNext := newExperienceToNext,
          energy := MaxR(0.0, prev.energy - (if streak >= 10 then 10.0 else 0.0)),
          achievements := CheckAchievements(prev.achievements, ctx),
          battlePass := newBattlePass,
          player := prev.player.(level := newLevel, totalPower := newTotalCoins + newTotalGems * 100.0),
          statistics := prev.statistics.(
            totalClicks := prev.statistics.totalClicks + 1,
            criticalHits := prev.statistics.criticalHits + (if isCritical then 1 else 0),
            luckyClicks := prev.statistics.luckyClicks + (if isLucky then 1 else 0),
            highestClickPower := MaxR(prev.statistics.highestClickPower, EffectivePower(prev))))
  }

  /** `handleClick` as a transition, for the streak already updated and the two draws. */
  function Click(prev: GameState, streak: nat, rolls: ClickRolls): GameState {
    var coinsGained := ClickCoins(prev, streak, rolls);
    var up := LevelsUp(prev, RolledExperience(prev, streak, rolls));
    var newLevel := if up then prev.level + 1 else prev.level;
    Clicked(prev, streak, coinsGained, ClickGems(prev, streak, rolls),
            newLevel,
            if up then 0 else prev.experience + RolledExperience(prev, streak, rolls),
            if up then LevelThreshold(newLevel) else prev.experienceToNext,
            IsCritical(prev, rolls), IsLucky(prev, rolls),
            AddPassExperience(prev.battlePass, (coinsGained / 100.0).Floor))
  }

  /** The rolls of the click body: base gains, then the critical, lucky and mega multipliers. */
  method RollClick(prev: GameState, streak: nat, rolls: ClickRolls)
    returns (coinsGained: real, gemsGained: real, experienceGained: int, isCritical: bool, isLucky: bool)
    ensures coinsGained == RolledCoins(prev, streak, rolls) && gemsGained == RolledGems(prev, rolls)
    ensures experienceGained == RolledExperience(prev, streak, rolls)
    ensures isCritical == IsCritical(prev, rolls) && isLucky == IsLucky(prev, rolls)
  {
    var clickPower := prev.clickPower * prev.prestige.multiplier;
    coinsGained := clickPower;
    gemsGained := 0.0;
    experienceGained := 1;
    isCritical := false;
    isLucky := false;
    var criticalChance := 0.05 + prev.upgrades.criticalHitLevel as real * 0.02;
    if rolls.critical < criticalChance {
      coinsGained := coinsGained * 5.0;
      experienceGained := experienceGained * 2;
      isCritical := true;
    }
    var luckyChance := 0.02 + prev.upgrades.luckyClickLevel as real * 0.01;
    if rolls.lucky < luckyChance {
      gemsGained := gemsGained + 1.0;
      isLucky := true;
    }
    if prev.energy >= 10.0 && streak >= 10 {
      coinsGained := coinsGained * 10.0;
      experienceGained := experienceGained * 5;
    }
  }

  /** The level-up step of the click body. */
  method LevelUpStep(prev: GameState, experienceGained: int)
    returns (newLevel: nat, newExperience: int, newExperienceToNext: int, bonusCoins: real, bonusGems: real)
    ensures LevelsUp(prev, experienceGained) ==>
      newLevel == prev.level + 1 && newExperience == 0 && newExperienceToNext == LevelThreshold(newLevel)
      && bonusCoins == newLevel as real * 100.0 && bonusGems == (newLevel / 5) as real
    ensures !LevelsUp(prev, experienceGained) ==>
      newLevel == prev.level && newExperience == prev.experience + experienceGained
      && newExperienceToNext == prev.experienceToNext && bonusCoins == 0.0 && bonusGems == 0.0
  {
    newLevel := prev.level;
    newExperience := prev.experience + experienceGained;
    newExperienceToNext := prev.experienceToNext;
    bonusCoins, bonusGems := 0.0, 0.0;
    if newExperience >= newExperienceToNext {
      newLevel := newLevel + 1;
      newExperience := 0;
      newExperienceToNext := LevelThreshold(newLevel);
      bonusCoins := newLevel as real * 100.0;
      bonusGems := (newLevel / 5) as real;
    }
  }

  /** The pass step shared with the production tick: add the experience, then roll over. */
  method PassStep(bp: BattlePass, battlePassExp: int) returns (newBattlePass: BattlePass)
    ensures newBattlePass == AddPassExperience(bp, battlePassExp)
  {
    newBattlePass := bp;
    if battlePassExp > 0 {
      newBattlePass := newBattlePass.(experience := newBattlePass.experience + battlePassExp);
      newBattlePass := RollOverLoop(newBattlePass);
    }
  }

  /** The gains of the click body: the rolls, then the level-up and its bonus. */
  method ClickGains(prev: GameState, streak: nat, rolls: ClickRolls)
    returns (coinsGained: real, gemsGained: real, newLevel: nat, newExperience: int, newExperienceToNext: int,
             isCritical: bool, isLucky: bool)
    ensures coinsGained == ClickCoins(prev, streak, rolls) && gemsGained == ClickGems(prev, streak, rolls)
    ensures isCritical == IsCritical(prev, rolls) && isLucky == IsLucky(prev, rolls)
    ensures LevelsUp(prev, RolledExperience(prev, streak, rolls)) ==>
      newLevel == prev.level + 1 && newExperience == 0 && newExperienceToNext == LevelThreshold(newLevel)
    ensures !LevelsUp(prev, RolledExperience(prev, streak, rolls)) ==>
      newLevel == prev.level && newExperience == prev.experience + RolledExperience(prev, streak, rolls)
      && newExperienceToNext == prev.experienceToNext
  {
    var experienceGained;
    coinsGained, gemsGained, experienceGained, isCritical, isLucky := RollClick(prev, streak, rolls);
    var bonusCoins, bonusGems;
    newLevel, newExperience, newExperienceToNext, bonusCoins, bonusGems := LevelUpStep(prev, experienceGained);
    coinsGained := coinsGained + bonusCoins;
    gemsGained := gemsGained + bonusGems;
  }

  /** The body of the state update, for the streak already updated. */
  method ClickBody(prev: GameState, streak: nat, rolls: ClickRolls) returns (next: GameState)
    ensures next == Click(prev, streak, rolls)
  {
    var coinsGained, gemsGained, newLevel, newExperience, newExperienceToNext, isCritical, isLucky :=
      ClickGains(prev, streak, rolls);
    var newBattlePass := PassStep(prev.battlePass, (coinsGained / 100.0).Floor);
    next := Clicked(prev, streak, coinsGained, gemsGained, newLevel, newExperience, newExperienceToNext,
                    isCritical, isLucky, newBattlePass);
  }

  /** The click handler: the streak refs are updated first, then the state. */
  method HandleClick(tracker: ClickTracker, prev: GameState, now: int, rolls: ClickRolls) returns (next: GameState)
    modifies tracker
    ensures tracker.streak == NextStreak(old(tracker.lastClickTime), old(tracker.streak), now)
    ensures tracker.lastClickTime == now
    ensures next == Click(prev, tracker.streak, rolls)
  {
    tracker.Register(now);
    next := ClickBody(prev, tracker.streak, rolls);
  }

  // ---- properties ----

  /**
   * What a click earns: coins and their total rise by the same amount, the
   * rolled coins plus the level-up bonus; gems likewise; one click is
   * counted, and a critical or lucky roll is counted as such.
   */
  lemma ClickEarnings(prev: GameState, streak: nat, rolls: ClickRolls)
    ensures var r := Click(prev, streak, rolls);
      var up := LevelsUp(prev, RolledExperience(prev, streak, rolls));
      && r.coins - prev.coins == r.totalCoins - prev.totalCoins
      && r.coins - prev.coins ==
           prev.clickPower * prev.prestige.multiplier
             * (if IsCritical(prev, rolls) then 5.0 else 1.0) * (if IsMega(prev, streak) then 10.0 else 1.0)
           + (if up then (prev.level + 1) as real * 100.0 else 0.0)
      && r.gems - prev.gems == r.totalGems - prev.totalGems
      && r.gems - prev.gems == (if IsLucky(prev, rolls) then 1.0 else 0.0) + (if up then ((prev.level + 1) / 5) as real else 0.0)
      && r.statistics.totalClicks == prev.statistics.totalClicks + 1
      && r.statistics.criticalHits == prev.statistics.criticalHits + (if IsCritical(prev, rolls) then 1 else 0)
      && r.statistics.luckyClicks == prev.statistics.luckyClicks + (if IsLucky(prev, rolls) then 1 else 0)
  {
  }

  /**
   * The experience of a click is 1, doubled by a critical and multiplied by
   * 5 by a mega click. Reaching the threshold gains exactly one level,
   * restarts the experience at 0, whatever the excess, and sets the next
   * threshold to `floor(100 * 1.5^(level-1))`; otherwise the experience grows.
   */
  lemma ClickExperience(prev: GameState, streak: nat, rolls: ClickRolls)
    ensures var r := Click(prev, streak, rolls);
      var gained := (if IsCritical(prev, rolls) then 2 else 1) * (if IsMega(prev, streak) then 5 else 1);
      && RolledExperience(prev, streak, rolls) == gained
      && (prev.experience + gained >= prev.experienceToNext ==>
            r.level == prev.level + 1 && r.experience == 0
            && r.experienceToNext == (100.0 * Pow(1.5, prev.level)).Floor)
      && (prev.experience + gained < prev.experienceToNext ==>
            r.level == prev.level && r.experience == prev.experience + gained
            && r.experienceToNext == prev.experienceToNext)
      && r.player.level == r.level
  {
  }

  /** A click keeps the experience below its threshold, and the pass below its own. */
  lemma ClickKeepsExperienceBounds(prev: GameState, streak: nat, rolls: ClickRolls)
    requires 0 <= prev.experience < prev.experienceToNext
    requires 0 <= prev.battlePass.experience < prev.battlePass.experienceToNext
    ensures var r := Click(prev, streak, rolls);
      && 0 <= r.experience < r.experienceToNext
      && 0 <= r.battlePass.experience < r.battlePass.experienceToNext
  {
    AddPassExperienceKeepsBounds(prev.battlePass, (ClickCoins(prev, streak, rolls) / 100.0).Floor);
  }

  /**
   * Energy after a click: a streak of 10 drains 10, clamped at 0, whether
   * or not the click was mega; energy stays within [0, maxEnergy].
   */
  lemma ClickEnergy(prev: GameState, streak: nat, rolls: ClickRolls)
    requires 0.0 <= prev.energy <= prev.maxEnergy
    ensures var r := Click(prev, streak, rolls);
      && r.energy == (if streak >= 10 then MaxR(0.0, prev.energy - 10.0) else prev.energy)
      && 0.0 <= r.energy <= r.maxEnergy
  {
  }

  /**
   * With a streak of 10 but less than 10 energy the click is not mega, yet
   * the energy is still drained, down to 0.
   */
  lemma DrainWithoutMega(prev: GameState, streak: nat, rolls: ClickRolls)
    requires streak >= 10 && 0.0 <= prev.energy < 10.0
    ensures !IsMega(prev, streak)
    ensures Click(prev, streak, rolls).energy == 0.0
    ensures RolledCoins(prev, streak, rolls) == EffectivePower(prev) * (if IsCritical(prev, rolls) then 5.0 else 1.0)
  {
  }

  /**
   * The excess experience of a level-up is lost: one experience short of a
   * threshold of 100, a critical click gains 2 and ends at 0, not 1.
   */
  lemma LevelUpDropsExcess(prev: GameState, streak: nat, rolls: ClickRolls)
    requires prev.experience == 99 && prev.experienceToNext == 100
    requires IsCritical(prev, rolls) && !IsMega(prev, streak)
    ensures Click(prev, streak, rolls).experience == 0
    ensures Click(prev, streak, rolls).level == prev.level + 1
  {
  }

  /** Completed achievements stay completed through a click. */
  lemma ClickKeepsAchievements(prev: GameState, streak: nat, rolls: ClickRolls, i: nat)
    requires i < |prev.achievements| && prev.achievements[i].completed
    ensures var r := Click(prev, streak, rolls);
      |r.achievements| == |prev.achievements| && r.achievements[i] == prev.achievements[i]
  {
  }
}
