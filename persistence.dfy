/**
 * Saving and loading. The state is saved whole whenever it changes and
 * auto-save is on; a reset removes the save. Loading starts from the
 * initial state and lays the saved record over it: a saved top-level field
 * replaces the initial one; the eight flat sub-records are merged field by
 * field, so a field missing from an older save keeps its initial value;
 * achievements and challenges are merged by id onto the current catalogs;
 * the remaining lists fall back to the initial ones when missing. No save,
 * or one that does not parse, loads as the initial state.
 */
module Persistence {
  import opened Numbers
  import opened GameTypes
  import opened ById
  import opened AchievementsData
  import opened InitialState

  function AchievementKey(a: Achievement): string { a.id }

  function ChallengeKey(c: Challenge): string { c.id }

  /** A saved `upgrades` record: any of its fields may be missing. */
  datatype SavedUpgrades = SavedUpgrades(
    clickPowerLevel: Option<nat>,
    autoClickerLevel: Option<nat>,
    multiplierLevel: Option<nat>,
    energyLevel: Option<nat>,
    gemMinerLevel: Option<nat>,
    luckyClickLevel: Option<nat>,
    criticalHitLevel: Option<nat>,
    energyEfficiencyLevel: Option<nat>,
    megaClickLevel: Option<nat>,
    quantumBoostLevel: Option<nat>)

  /** `{ ...initial.upgrades, ...saved.upgrades }`. */
  function MergeUpgrades(d: Upgrades, p: Option<SavedUpgrades>): Upgrades {
    if p.None? then d
    else Upgrades(
      p.value.clickPowerLevel.GetOr(d.clickPowerLevel),
      p.value.autoClickerLevel.GetOr(d.autoClickerLevel),
      p.value.multiplierLevel.GetOr(d.multiplierLevel),
      p.value.energyLevel.GetOr(d.energyLevel),
      p.value.gemMinerLevel.GetOr(d.gemMinerLevel),
      p.value.luckyClickLevel.GetOr(d.luckyClickLevel),
      p.value.criticalHitLevel.GetOr(d.criticalHitLevel),
      p.value.energyEfficiencyLevel.GetOr(d.energyEfficiencyLevel),
      p.value.megaClickLevel.GetOr(d.megaClickLevel),
      p.value.quantumBoostLevel.GetOr(d.quantumBoostLevel))
  }

  function SaveUpgrades(x: Upgrades): SavedUpgrades {
    SavedUpgrades(
      Some(x.clickPowerLevel), Some(x.autoClickerLevel), Some(x.multiplierLevel), Some(x.energyLevel),
      Some(x.gemMinerLevel), Some(x.luckyClickLevel), Some(x.criticalHitLevel),
      Some(x.energyEfficiencyLevel), Some(x.megaClickLevel), Some(x.quantumBoostLevel))
  }

  /** A saved `buildings` record: any of its fields may be missing. */
  datatype SavedBuildings = SavedBuildings(
    coinMines: Option<nat>,
    gemFactories: Option<nat>,
    energyPlants: Option<nat>,
    researchLabs: Option<nat>,
    quantumComputers: Option<nat>,
    spaceStations: Option<nat>,
    timeMachines: Option<nat>,
    dimensionalRifts: Option<nat>)

  /** `{ ...initial.buildings, ...saved.buildings }`. */
  function MergeBuildings(d: Buildings, p: Option<SavedBuildings>): Buildings {
    if p.None? then d
    else Buildings(
      p.value.coinMines.GetOr(d.coinMines),
      p.value.gemFactories.GetOr(d.gemFactories),
      p.value.energyPlants.GetOr(d.energyPlants),
      p.value.researchLabs.GetOr(d.researchLabs),
      p.value.quantumComputers.GetOr(d.quantumComputers),
      p.value.spaceStations.GetOr(d.spaceStations),
      p.value.timeMachines.GetOr(d.timeMachines),
      p.value.dimensionalRifts.GetOr(d.dimensionalRifts))
  }

  function SaveBuildings(x: Buildings): SavedBuildings {
    SavedBuildings(
      Some(x.coinMines), Some(x.gemFactories), Some(x.energyPlants), Some(x.researchLabs),
      Some(x.quantumComputers), Some(x.spaceStations), Some(x.timeMachines), Some(x.dimensionalRifts))
  }

  /** A saved `prestige` record: any of its fields may be missing. */
  datatype SavedPrestige = SavedPrestige(
    level: Option<nat>,
    points: Option<nat>,
    multiplier: Option<real>,
    tokens: Option<nat>)

  /** `{ ...initial.prestige, ...saved.prestige }`. */
  function MergePrestige(d: Prestige, p: Option<SavedPrestige>): Prestige {
    if p.None? then d
    else Prestige(
      p.value.level.GetOr(d.level),
      p.value.points.GetOr(d.points),
      p.value.multiplier.GetOr(d.multiplier),
      p.value.tokens.GetOr(d.tokens))
  }

  function SavePrestige(x: Prestige): SavedPrestige {
    SavedPrestige(
      Some(x.level), Some(x.points), Some(x.multiplier), Some(x.tokens))
  }

  /** A saved `statistics` record: any of its fields may be missing. */
  datatype SavedStatistics = SavedStatistics(
    totalClicks: Option<nat>,
    totalTimePlayedMs: Option<nat>,
    highestCoinsPerSecond: Option<real>,
    highestClickPower: Option<real>,
    totalUpgradesPurchased: Option<nat>,
    totalBuildingsBuilt: Option<nat>,
    prestigeCount: Option<nat>,
    achievementsUnlocked: Option<nat>,
    challengesCompleted: Option<nat>,
    criticalHits: Option<nat>,
    luckyClicks: Option<nat>,
    energySpent: Option<real>,
    gemsSpent: Option<real>)

  /** `{ ...initial.statistics, ...saved.statistics }`. */
  function MergeStatistics(d: Statistics, p: Option<SavedStatistics>): Statistics {
    if p.None? then d
    else Statistics(
      p.value.totalClicks.GetOr(d.totalClicks),
      p.value.totalTimePlayedMs.GetOr(d.totalTimePlayedMs),
      p.value.highestCoinsPerSecond.GetOr(d.highestCoinsPerSecond),
      p.value.highestClickPower.GetOr(d.highestClickPower),
      p.value.totalUpgradesPurchased.GetOr(d.totalUpgradesPurchased),
      p.value.totalBuildingsBuilt.GetOr(d.totalBuildingsBuilt),
      p.value.prestigeCount.GetOr(d.prestigeCount),
      p.value.achievementsUnlocked.GetOr(d.achievementsUnlocked),
      p.value.challengesCompleted.GetOr(d.challengesCompleted),
      p.value.criticalHits.GetOr(d.criticalHits),
      p.value.luckyClicks.GetOr(d.luckyClicks),
      p.value.energySpent.GetOr(d.energySpent),
      p.value.gemsSpent.GetOr(d.gemsSpent))
  }

  function SaveStatistics(x: Statistics): SavedStatistics {
    SavedStatistics(
      Some(x.totalClicks), Some(x.totalTimePlayedMs), Some(x.highestCoinsPerSecond),
      Some(x.highestClickPower), Some(x.totalUpgradesPurchased), Some(x.totalBuildingsBuilt),
      Some(x.prestigeCount), Some(x.achievementsUnlocked), Some(x.challengesCompleted), Some(x.criticalHits),
      Some(x.luckyClicks), Some(x.energySpent), Some(x.gemsSpent))
  }

  /** A saved `settings` record: any of its fields may be missing. */
  datatype SavedSettings = SavedSettings(
    soundEnabled: Option<bool>,
    musicEnabled: Option<bool>,
    particlesEnabled: Option<bool>,
    autoSaveEnabled: Option<bool>,
    notificationsEnabled: Option<bool>,
    theme: Option<Theme>)

  /** `{ ...initial.settings, ...saved.settings }`. */
  function MergeSettings(d: Settings, p: Option<SavedSettings>): Settings {
    if p.None? then d
    else Settings(
      p.value.soundEnabled.GetOr(d.soundEnabled),
      p.value.musicEnabled.GetOr(d.musicEnabled),
      p.value.particlesEnabled.GetOr(d.particlesEnabled),
      p.value.autoSaveEnabled.GetOr(d.autoSaveEnabled),
      p.value.notificationsEnabled.GetOr(d.notificationsEnabled),
      p.value.theme.GetOr(d.theme))
  }

  function SaveSettings(x: Settings): SavedSettings {
    SavedSettings(
      Some(x.soundEnabled), Some(x.musicEnabled), Some(x.particlesEnabled), Some(x.autoSaveEnabled),
      Some(x.notificationsEnabled), Some(x.theme))
  }

  /** A saved `player` record: any of its fields may be missing. */
  datatype SavedPlayer = SavedPlayer(
    id: Option<string>,
    username: Option<string>,
    avatar: Option<string>,
    title: Option<string>,
    level: Option<nat>,
    totalPower: Option<real>,
    joinDate: Option<int>,
    lastActive: Option<int>,
    country: Option<string>,
    reputation: Option<int>,
    vipLevel: Option<nat>)

  /** `{ ...initial.player, ...saved.player }`. */
  function MergePlayer(d: Player, p: Option<SavedPlayer>): Player {
    if p.None? then d
    else Player(
      p.value.id.GetOr(d.id),
      p.value.username.GetOr(d.username),
      p.value.avatar.GetOr(d.avatar),
      p.value.title.GetOr(d.title),
      p.value.level.GetOr(d.level),
      p.value.totalPower.GetOr(d.totalPower),
      p.value.joinDate.GetOr(d.joinDate),
      p.value.lastActive.GetOr(d.lastActive),
      p.value.country.GetOr(d.country),
      p.value.reputation.GetOr(d.reputation),
      p.value.vipLevel.GetOr(d.vipLevel))
  }

  function SavePlayer(x: Player): SavedPlayer {
    SavedPlayer(
      Some(x.id), Some(x.username), Some(x.avatar), Some(x.title), Some(x.level), Some(x.totalPower),
      Some(x.joinDate), Some(x.lastActive), Some(x.country), Some(x.reputation), Some(x.vipLevel))
  }

  /** A saved `socialFeatures` record: any of its fields may be missing. */
  datatype SavedSocialFeatures = SavedSocialFeatures(
    friendRequests: Option<seq<FriendRequest>>,
    giftsSent: Option<nat>,
    giftsReceived: Option<nat>,
    referrals: Option<seq<string>>,
    socialPoints: Option<nat>)

  /** `{ ...initial.socialFeatures, ...saved.socialFeatures }`. */
  function MergeSocialFeatures(d: SocialFeatures, p: Option<SavedSocialFeatures>): SocialFeatures {
    if p.None? then d
    else SocialFeatures(
      p.value.friendRequests.GetOr(d.friendRequests),
      p.value.giftsSent.GetOr(d.giftsSent),
      p.value.giftsReceived.GetOr(d.giftsReceived),
      p.value.referrals.GetOr(d.referrals),
      p.value.socialPoints.GetOr(d.socialPoints))
  }

  function SaveSocialFeatures(x: SocialFeatures): SavedSocialFeatures {
    SavedSocialFeatures(
      Some(x.friendRequests), Some(x.giftsSent), Some(x.giftsReceived), Some(x.referrals),
      Some(x.socialPoints))
  }

  /** A saved `battlePass` record: any of its fields may be missing. */
  datatype SavedBattlePass = SavedBattlePass(
    season: Option<nat>,
    level: Option<nat>,
    experience: Option<int>,
    experienceToNext: Option<int>,
    isPremium: Option<bool>,
    rewards: Option<seq<BattlePassReward>>,
    claimedRewards: Option<seq<string>>)

  /** `{ ...initial.battlePass, ...saved.battlePass }`. */
  function MergeBattlePass(d: BattlePass, p: Option<SavedBattlePass>): BattlePass {
    if p.None? then d
    else BattlePass(
      p.value.season.GetOr(d.season),
      p.value.level.GetOr(d.level),
      p.value.experience.GetOr(d.experience),
      p.value.experienceToNext.GetOr(d.experienceToNext),
      p.value.isPremium.GetOr(d.isPremium),
      p.value.rewards.GetOr(d.rewards),
      p.value.claimedRewards.GetOr(d.claimedRewards))
  }

  function SaveBattlePass(x: BattlePass): SavedBattlePass {
    SavedBattlePass(
      Some(x.season), Some(x.level), Some(x.experience), Some(x.experienceToNext), Some(x.isPremium),
      Some(x.rewards), Some(x.claimedRewards))
  }

  /** A parsed save: any top-level field may be missing. */
  datatype Snapshot = Snapshot(
    coins: Option<real>,
    totalCoins: Option<real>,
    clickPower: Option<real>,
    autoClickers: Option<nat>,
    autoClickerPower: Option<real>,
    gems: Option<real>,
    totalGems: Option<real>,
    energy: Option<real>,
    maxEnergy: Option<real>,
    energyRegenRate: Option<real>,
    level: Option<nat>,
    experience: Option<int>,
    experienceToNext: Option<int>,
    upgrades: Option<SavedUpgrades>,
    buildings: Option<SavedBuildings>,
    achievements: Option<seq<Achievement>>,
    prestige: Option<SavedPrestige>,
    challenges: Option<seq<Challenge>>,
    statistics: Option<SavedStatistics>,
    settings: Option<SavedSettings>,
    player: Option<SavedPlayer>,
    guild: Option<Option<Guild>>,
    leaderboard: Option<seq<LeaderboardEntry>>,
    socialFeatures: Option<SavedSocialFeatures>,
    battlePass: Option<SavedBattlePass>,
    tournaments: Option<seq<Tournament>>,
    pets: Option<seq<Pet>>,
    artifacts: Option<seq<Artifact>>,
    worldEvents: Option<seq<WorldEvent>>,
    notifications: Option<seq<Notification>>)

  /** The save of a state: every field present. */
  function Save(s: GameState): Snapshot {
    Snapshot(
      Some(s.coins),
      Some(s.totalCoins),
      Some(s.clickPower),
      Some(s.autoClickers),
      Some(s.autoClickerPower),
      Some(s.gems),
      Some(s.totalGems),
      Some(s.energy),
      Some(s.maxEnergy),
      Some(s.energyRegenRate),
      Some(s.level),
      Some(s.experience),
      Some(s.experienceToNext),
      Some(SaveUpgrades(s.upgrades)),
      Some(SaveBuildings(s.buildings)),
      Some(s.achievements),
      Some(SavePrestige(s.prestige)),
      Some(s.challenges),
      Some(SaveStatistics(s.statistics)),
      Some(SaveSettings(s.settings)),
      Some(SavePlayer(s.player)),
      Some(s.guild),
      Some(s.leaderboard),
      Some(SaveSocialFeatures(s.socialFeatures)),
      Some(SaveBattlePass(s.battlePass)),
      Some(s.tournaments),
      Some(s.pets),
      Some(s.artifacts),
      Some(s.worldEvents),
      Some(s.notifications))
  }

  /** A save with no field at all. */
  function EmptySnapshot(): Snapshot {
    Snapshot(
      None, None, None, None, None, None, None, None, None, None, None, None, None, None, None, None, None, None, None, None, None, None, None, None, None, None, None, None, None, None)
  }

  /** The load-time merge of a parsed save over the initial state. */
  function Merge(p: Snapshot, env: Env): GameState {
    var d := Initial(env);
    GameState(
      p.coins.GetOr(d.coins),
      p.totalCoins.GetOr(d.totalCoins),
      p.clickPower.GetOr(d.clickPower),
      p.autoClickers.GetOr(d.autoClickers),
      p.autoClickerPower.GetOr(d.autoClickerPower),
      p.gems.GetOr(d.gems),
      p.totalGems.GetOr(d.totalGems),
      p.energy.GetOr(d.energy),
      p.maxEnergy.GetOr(d.maxEnergy),
      p.energyRegenRate.GetOr(d.energyRegenRate),
      p.level.GetOr(d.level),
      p.experience.GetOr(d.experience),
      p.experienceToNext.GetOr(d.experienceToNext),
      MergeUpgrades(d.upgrades, p.upgrades),
      MergeBuildings(d.buildings, p.buildings),
      MergeById(p.achievements.GetOr([]), Catalog(), AchievementKey),
      MergePrestige(d.prestige, p.prestige),
      MergeById(p.challenges.GetOr([]), env.challenges, ChallengeKey),
      MergeStatistics(d.statistics, p.statistics),
      MergeSettings(d.settings, p.settings),
      MergePlayer(d.player, p.player),
      p.guild.GetOr(d.guild),
      p.leaderboard.GetOr(d.leaderboard),
      MergeSocialFeatures(d.socialFeatures, p.socialFeatures),
      MergeBattlePass(d.battlePass, p.battlePass),
      p.tournaments.GetOr(d.tournaments),
      p.pets.GetOr(d.pets),
      p.artifacts.GetOr(d.artifacts),
      p.worldEvents.GetOr(d.worldEvents),
      p.notifications.GetOr(d.notifications))
  }

  /** The initial state of a session: the merge when a save parsed, the initial state otherwise. */
  function Load(stored: Option<Snapshot>, env: Env): GameState {
    match stored
    case None => Initial(env)
    case Some(p) => Merge(p, env)
  }

  /** The auto-save effect: the save is replaced only while auto-save is on. */
  function AutoSave(stored: Option<Snapshot>, s: GameState): (r: Option<Snapshot>)
    ensures s.settings.autoSaveEnabled ==> r == Some(Save(s))
    ensures !s.settings.autoSaveEnabled ==> r == stored
  {
    if s.settings.autoSaveEnabled then Some(Save(s)) else stored
  }

  /** A save that does not exist and a save with no fields both load as the initial state. */
  lemma EmptySaveLoadsInitial(env: Env)
    ensures Load(None, env) == Initial(env)
    ensures Load(Some(EmptySnapshot()), env) == Initial(env)
  {
    MergeEmpty(Catalog(), AchievementKey);
    MergeEmpty(env.challenges, ChallengeKey);
  }

  /**
   * Whatever the save holds, the loaded achievements and challenges are the
   * current catalogs' ids in the catalogs' order, each entry either the
   * catalog's or a saved record with that id.
   */
  lemma LoadKeepsCatalogs(p: Snapshot, env: Env)
    ensures var r := Load(Some(p), env);
      && Ids(r.achievements, AchievementKey) == Ids(Catalog(), AchievementKey)
      && Ids(r.challenges, ChallengeKey) == Ids(env.challenges, ChallengeKey)
      && (forall i :: 0 <= i < |r.achievements| ==>
            r.achievements[i] == Catalog()[i] || r.achievements[i] in p.achievements.GetOr([]))
      && (forall i :: 0 <= i < |r.challenges| ==>
            r.challenges[i] == env.challenges[i] || r.challenges[i] in p.challenges.GetOr([]))
  {
  }

  /**
   * A saved state loads back as itself, provided its achievements and
   * challenges list the current catalogs' ids, once each and in order;
   * otherwise the id merge reshapes them.
   */
  lemma SaveLoadRoundTrip(s: GameState, env: Env)
    requires Ids(s.achievements, AchievementKey) == Ids(Catalog(), AchievementKey)
    requires DistinctIds(s.achievements, AchievementKey)
    requires Ids(s.challenges, ChallengeKey) == Ids(env.challenges, ChallengeKey)
    requires DistinctIds(s.challenges, ChallengeKey)
    ensures Load(Some(Save(s)), env) == s
  {
    MergeRoundTrip(s.achievements, Catalog(), AchievementKey);
    MergeRoundTrip(s.challenges, env.challenges, ChallengeKey);
  }

  /**
   * With auto-save on, what is stored after a change loads back as the
   * changed state; with it off, the store keeps the earlier save.
   */
  lemma AutoSaveRestores(stored: Option<Snapshot>, s: GameState, env: Env)
    requires Ids(s.achievements, AchievementKey) == Ids(Catalog(), AchievementKey)
    requires DistinctIds(s.achievements, AchievementKey)
    requires Ids(s.challenges, ChallengeKey) == Ids(env.challenges, ChallengeKey)
    requires DistinctIds(s.challenges, ChallengeKey)
    ensures s.settings.autoSaveEnabled ==> Load(AutoSave(stored, s), env) == s
    ensures !s.settings.autoSaveEnabled ==> Load(AutoSave(stored, s), env) == Load(stored, env)
  {
    SaveLoadRoundTrip(s, env);
  }

  /**
   * A save from an older version whose upgrades lack a level loads that
   * level at its initial 0 and keeps the saved ones.
   */
  lemma MissingUpgradeLevelIsZero(p: Snapshot, env: Env)
    requires p.upgrades.Some? && p.upgrades.value.quantumBoostLevel.None?
    requires p.upgrades.value.clickPowerLevel.Some?
    ensures Load(Some(p), env).upgrades.quantumBoostLevel == 0
    ensures Load(Some(p), env).upgrades.clickPowerLevel == p.upgrades.value.clickPowerLevel.value
  {
  }
}
