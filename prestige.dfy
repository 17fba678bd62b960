/**
 * Prestige and reset. Prestige needs a million lifetime coins; it turns
 * `floor(sqrt(totalCoins / 1e6))` into prestige points and starts the run
 * over from the initial state, keeping the prestige record (raised), the
 * achievements, the player, the social and collection features and the
 * settings. Reset starts over from the initial state and keeps nothing.
 */
module PrestigeRules {
  import opened Numbers
  import opened GameTypes
  import opened InitialState
  import Shop

  /** `Math.floor(Math.sqrt(totalCoins / 1000000))` for a non-negative total. */
  function PrestigePoints(totalCoins: real): (p: nat)
    requires totalCoins >= 0.0
    ensures (p * p) as real <= totalCoins / 1000000.0 < ((p + 1) * (p + 1)) as real
  {
    var x := totalCoins / 1000000.0;
    var k: nat := x.Floor;
    var p := ISqrt(k);
    assert (p + 1) * (p + 1) >= k + 1;
    p
  }

  /** The prestige record after earning `p` points. */
  function RaisedPrestige(before: Prestige, p: nat): Prestige {
    Prestige(before.level + 1, before.points + p, 1.0 + (before.points + p) as real * 0.1, before.tokens + p / 10)
  }

  /** `prestige`: below a million lifetime coins nothing happens. */
  function DoPrestige(prev: GameState, env: Env): (r: GameState) {
    if prev.totalCoins < 1000000.0 then prev
    else
      var p := PrestigePoints(prev.totalCoins);
      Initial(env).(
        prestige := RaisedPrestige(prev.prestige, p),
        achievements := prev.achievements,
        player := prev.player,
        guild := prev.guild,
        leaderboard := prev.leaderboard,
        socialFeatures := prev.socialFeatures,
        battlePass := prev.battlePass,
        tournaments := prev.tournaments,
        pets := prev.pets,
        artifacts := prev.artifacts,
        worldEvents := prev.worldEvents,
        statistics := prev.statistics.(prestigeCount := prev.statistics.prestigeCount + 1),
        settings := prev.settings,
        notifications := prev.notifications)
  }

  /** `resetGame`: the initial state, whatever came before. */
  function ResetGame(prev: GameState, env: Env): (r: GameState)
    ensures r.coins == 0.0 && r.gems == 0.0 && r.totalCoins == 0.0 && r.level == 1
    ensures r.prestige == Prestige(0, 0, 1.0, 0) && r.achievements == AchievementsData.Catalog()
  {
    Initial(env)
  }

  /** Below a million lifetime coins, prestige changes nothing. */
  lemma PrestigeNeedsAMillion(s: GameState, env: Env)
    requires 0.0 <= s.totalCoins < 1000000.0
    ensures DoPrestige(s, env) == s
  {
  }

  /**
   * Above the threshold: at least one point is earned; the prestige level
   * rises by one, the points by p, the tokens by floor(p/10), and the
   * multiplier becomes 1 + points/10; one more prestige is counted.
   */
  lemma PrestigeRaises(s: GameState, env: Env)
    requires s.totalCoins >= 1000000.0
    ensures var p := PrestigePoints(s.totalCoins);
      var r := DoPrestige(s, env);
      && p >= 1
      && r.prestige.level == s.prestige.level + 1
      && r.prestige.points == s.prestige.points + p
      && r.prestige.multiplier == 1.0 + r.prestige.points as real * 0.1
      && r.prestige.tokens == s.prestige.tokens + p / 10
      && r.statistics.prestigeCount == s.statistics.prestigeCount + 1
      && r.statistics.(prestigeCount := s.statistics.prestigeCount) == s.statistics
  {
    var p := PrestigePoints(s.totalCoins);
    assert s.totalCoins / 1000000.0 >= 1.0;
    if p == 0 {
      assert false;
    }
  }

  /**
   * Above the threshold the run starts over: every field is the initial
   * state's (so the economy, rates, upgrades, buildings, level and
   * challenges restart, including the energy regeneration rate and the
   * auto-clicker power an upgrade may have raised), except the raised
   * prestige record, the counted statistics and the listed features,
   * which are carried over verbatim. The player record is carried too, so
   * its level no longer matches the reset level.
   */
  lemma PrestigeStartsOver(s: GameState, env: Env)
    requires s.totalCoins >= 1000000.0
    ensures var r := DoPrestige(s, env);
      var i := Initial(env);
      && r.coins == 0.0 && r.totalCoins == 0.0 && r.gems == 0.0 && r.totalGems == 0.0
      && r.clickPower == 1.0 && r.autoClickers == 0 && r.autoClickerPower == 1.0
      && r.energy == 100.0 && r.maxEnergy == 100.0 && r.energyRegenRate == 1.0
      && r.level == 1 && r.experience == 0 && r.experienceToNext == 100
      && r.upgrades == i.upgrades && r.buildings == i.buildings && r.challenges == env.challenges
      && r.achievements == s.achievements && r.player == s.player && r.guild == s.guild
      && r.leaderboard == s.leaderboard && r.socialFeatures == s.socialFeatures
      && r.battlePass == s.battlePass && r.tournaments == s.tournaments
      && r.pets == s.pets && r.artifacts == s.artifacts && r.worldEvents == s.worldEvents
      && r.settings == s.settings && r.notifications == s.notifications
      && r == i.(prestige := r.prestige, achievements := s.achievements, player := s.player,
                 guild := s.guild, leaderboard := s.leaderboard, socialFeatures := s.socialFeatures,
                 battlePass := s.battlePass, tournaments := s.tournaments, pets := s.pets,
                 artifacts := s.artifacts, worldEvents := s.worldEvents,
                 statistics := s.statistics.(prestigeCount := s.statistics.prestigeCount + 1),
                 settings := s.settings, notifications := s.notifications)
  {
  }

  /**
   * A prestige that starts from the multiplier its points give raises the
   * multiplier by at least 0.1. Without that condition it need not: the
   * new multiplier is recomputed from the points alone.
   */
  lemma PrestigeMultiplierGrows(s: GameState, env: Env)
    requires s.totalCoins >= 1000000.0
    requires s.prestige.multiplier == 1.0 + s.prestige.points as real * 0.1
    ensures DoPrestige(s, env).prestige.multiplier >= s.prestige.multiplier + 0.1
  {
    PrestigeRaises(s, env);
  }

  /**
   * The 0.5 a multiplier upgrade adds is lost at the next prestige: from no
   * prestige points and between one and four million lifetime coins, an
   * upgrade takes the multiplier to 1.5 and the prestige after it brings
   * it down to 1.1.
   */
  lemma PrestigeLowersUpgradedMultiplier(s: GameState, env: Env, cost: real)
    requires s.prestige.points == 0 && s.prestige.multiplier == 1.0
    requires 1000000.0 <= s.totalCoins < 4000000.0
    requires 0.0 <= cost <= s.gems
    ensures var u := Shop.UpgradePurchase(s, "multiplier", cost, Shop.GemsCost);
      && u.prestige.multiplier == 1.5
      && DoPrestige(u, env).prestige.multiplier == 1.1
      && DoPrestige(u, env).prestige.multiplier < u.prestige.multiplier
  {
    var u := Shop.UpgradePurchase(s, "multiplier", cost, Shop.GemsCost);
    assert u.prestige.multiplier == 1.5;
    assert u.totalCoins == s.totalCoins;
    PointsAre(u.totalCoins, 1);
  }

  /**
   * Points for 1e6, 4e6 and 1e8 lifetime coins: 1, 2 and 10, the last
   * of which also earns a token.
   */
  lemma PrestigePointExamples()
    ensures PrestigePoints(1000000.0) == 1
    ensures PrestigePoints(4000000.0) == 2
    ensures PrestigePoints(99000000.0) == 9
    ensures PrestigePoints(100000000.0) == 10 && PrestigePoints(100000000.0) / 10 == 1
  {
    PointsAre(1000000.0, 1);
    PointsAre(4000000.0, 2);
    PointsAre(99000000.0, 9);
    PointsAre(100000000.0, 10);
  }

  /** The points are the unique p whose square bracket holds the total in millions. */
  lemma PointsAre(totalCoins: real, p: nat)
    requires totalCoins >= 0.0
    requires (p * p) as real <= totalCoins / 1000000.0 < ((p + 1) * (p + 1)) as real
    ensures PrestigePoints(totalCoins) == p
  {
    var q := PrestigePoints(totalCoins);
    if q < p {
      MulMono(q + 1, p);
      assert false;
    }
    if q > p {
      MulMono(p + 1, q);
      assert false;
    }
  }

  lemma MulMono(a: nat, b: nat)
    requires a <= b
    ensures a * a <= b * b
  {
    assert a * a <= a * b <= b * b;
  }
}
