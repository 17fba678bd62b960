/**
 * The record shapes of the game's single aggregate, `GameState`, and of the
 * records it holds. Only the fields that the engine reads or writes are
 * kept. Coins, gems, multipliers and energy are `real` (the engine
 * multiplies them by 0.1, 0.5, 1.05^n, ...); counts and levels are `nat`.
 */
module GameTypes {
  import opened Numbers

  datatype Rarity = Common | Rare | Epic | Legendary | Mythic

  // ---- achievements and challenges ----

  datatype AchievementRewardType = RewardCoins | RewardGems | RewardEnergy | RewardMultiplier | RewardPrestige

  datatype AchievementCategory = Clicking | Earning | Upgrading | PrestigeCategory | Special | SocialCategory

  /** `progress` is absent in the catalog and written by the evaluator. */
  datatype Achievement = Achievement(
    id: string,
    name: string,
    target: int,
    completed: bool,
    reward: int,
    rewardType: AchievementRewardType,
    category: AchievementCategory,
    rarity: Rarity,
    hidden: bool,
    progress: Option<real>)

  datatype Challenge = Challenge(
    id: string,
    target: int,
    active: bool,
    completed: bool,
    progress: real,
    timeLimit: Option<int>,
    startTime: Option<int>)

  // ---- the flat sub-objects that the loader merges key by key ----

  datatype Upgrades = Upgrades(
    clickPowerLevel: nat,
    autoClickerLevel: nat,
    multiplierLevel: nat,
    energyLevel: nat,
    gemMinerLevel: nat,
    luckyClickLevel: nat,
    criticalHitLevel: nat,
    energyEfficiencyLevel: nat,
    megaClickLevel: nat,
    quantumBoostLevel: nat)

  datatype Buildings = Buildings(
    coinMines: nat,
    gemFactories: nat,
    energyPlants: nat,
    researchLabs: nat,
    quantumComputers: nat,
    spaceStations: nat,
    timeMachines: nat,
    dimensionalRifts: nat)

  datatype Prestige = Prestige(level: nat, points: nat, multiplier: real, tokens: nat)

  datatype Statistics = Statistics(
    totalClicks: nat,
    totalTimePlayedMs: nat,
    highestCoinsPerSecond: real,
    highestClickPower: real,
    totalUpgradesPurchased: nat,
    totalBuildingsBuilt: nat,
    prestigeCount: nat,
    achievementsUnlocked: nat,
    challengesCompleted: nat,
    criticalHits: nat,
    luckyClicks: nat,
    energySpent: real,
    gemsSpent: real)

  datatype Theme = Dark | Neon | Retro

  datatype Settings = Settings(
    soundEnabled: bool,
    musicEnabled: bool,
    particlesEnabled: bool,
    autoSaveEnabled: bool,
    notificationsEnabled: bool,
    theme: Theme)

  datatype Player = Player(
    id: string,
    username: string,
    avatar: string,
    title: string,
    level: nat,
    totalPower: real,
    joinDate: int,
    lastActive: int,
    country: string,
    reputation: int,
    vipLevel: nat)

  datatype FriendRequest = FriendRequest(id: string, fromPlayerId: string, fromUsername: string, timestamp: int)

  datatype SocialFeatures = SocialFeatures(
    friendRequests: seq<FriendRequest>,
    giftsSent: nat,
    giftsReceived: nat,
    referrals: seq<string>,
    socialPoints: nat)

  // ---- battle pass ----

  datatype PassTier = Free | Premium

  datatype PassRewardKind = PassCoins | PassGems | PassCosmetic | PassBoost | PassPet | PassArtifact

  datatype PassRewardItem = PassRewardItem(kind: PassRewardKind, amount: Option<int>, itemId: Option<string>)

  datatype BattlePassReward = BattlePassReward(id: string, level: nat, tier: PassTier, reward: PassRewardItem, claimed: bool)

  datatype BattlePass = BattlePass(
    season: nat,
    level: nat,
    experience: int,
    experienceToNext: int,
    isPremium: bool,
    rewards: seq<BattlePassReward>,
    claimedRewards: seq<string>)

  // ---- guild, leaderboard, tournaments ----

  datatype GuildRole = Leader | Officer | Member

  datatype GuildMember = GuildMember(playerId: string, username: string, role: GuildRole, contribution: real, joinDate: int, lastActive: int)

  datatype Guild = Guild(
    id: string,
    name: string,
    description: string,
    level: nat,
    members: seq<GuildMember>,
    maxMembers: nat,
    totalPower: real,
    treasury: real,
    createdAt: int,
    isPublic: bool,
    minLevel: nat,
    minPower: real)

  datatype LeaderboardEntry = LeaderboardEntry(rank: nat, playerId: string, username: string, score: real)

  datatype TournamentParticipant = TournamentParticipant(playerId: string, username: string, score: real, rank: nat)

  datatype TournamentStatus = Upcoming | Active | Ended

  datatype Tournament = Tournament(
    id: string,
    name: string,
    participants: seq<TournamentParticipant>,
    entryFee: real,
    maxParticipants: nat,
    status: TournamentStatus)

  // ---- pets and artifacts ----

  datatype PetAbility = PetAbility(id: string, name: string, cooldown: int, lastUsed: int)

  datatype Pet = Pet(
    id: string,
    name: string,
    petType: string,
    level: nat,
    experience: int,
    rarity: Rarity,
    abilities: seq<PetAbility>,
    isActive: bool,
    happiness: int,
    lastFed: int)

  datatype ArtifactType = Weapon | Armor | Accessory | Relic

  datatype StatType = ClickPowerStat | CoinMultiplierStat | GemChanceStat | EnergyRegenStat | CriticalChanceStat

  datatype ArtifactStat = ArtifactStat(statType: StatType, value: int, percentage: bool)

  datatype Artifact = Artifact(
    id: string,
    name: string,
    artifactType: ArtifactType,
    rarity: Rarity,
    level: nat,
    stats: seq<ArtifactStat>,
    isEquipped: bool)

  // ---- world events ----

  datatype WorldEventReward = WorldEventReward(threshold: real, coins: real, gems: real, items: seq<string>, claimed: bool)

  datatype WorldEvent = WorldEvent(
    id: string,
    name: string,
    globalProgress: real,
    globalTarget: real,
    playerProgress: real,
    rewards: seq<WorldEventReward>,
    isActive: bool)

  datatype Notification = Notification(id: string, title: string, timestamp: int, read: bool)

  // ---- the aggregate ----

  datatype GameState = GameState(
    coins: real,
    totalCoins: real,
    clickPower: real,
    autoClickers: nat,
    autoClickerPower: real,
    gems: real,
    totalGems: real,
    energy: real,
    maxEnergy: real,
    energyRegenRate: real,
    level: nat,
    experience: int,
    experienceToNext: int,
    upgrades: Upgrades,
    buildings: Buildings,
    achievements: seq<Achievement>,
    prestige: Prestige,
    challenges: seq<Challenge>,
    statistics: Statistics,
    settings: Settings,
    player: Player,
    guild: Option<Guild>,
    leaderboard: seq<LeaderboardEntry>,
    socialFeatures: SocialFeatures,
    battlePass: BattlePass,
    tournaments: seq<Tournament>,
    pets: seq<Pet>,
    artifacts: seq<Artifact>,
    worldEvents: seq<WorldEvent>,
    notifications: seq<Notification>)
}
