/**
 * The state a new game starts from, and that a reset or a prestige starts
 * over from. The parts that are random placeholder content or read from the
 * clock when the module loads (leaderboard, friend requests, tournaments,
 * world events, player id and name, the load time) and the challenge
 * catalog are supplied by an environment, fixed for the whole session.
 */
module InitialState {
  import opened Numbers
  import opened GameTypes
  import opened AchievementsData
  import opened BattlePassRules

  datatype Env = Env(
    challenges: seq<Challenge>,
    leaderboard: seq<LeaderboardEntry>,
    friendRequests: seq<FriendRequest>,
    tournaments: seq<Tournament>,
    worldEvents: seq<WorldEvent>,
    playerId: string,
    username: string,
    now: int)

  const NoUpgrades := Upgrades(0, 0, 0, 0, 0, 0, 0, 0, 0, 0)
  const NoBuildings := Buildings(0, 0, 0, 0, 0, 0, 0, 0)
  const FreshPrestige := Prestige(0, 0, 1.0, 0)
  const FreshStatistics := Statistics(0, 0, 0.0, 0.0, 0, 0, 0, 0, 0, 0, 0, 0.0, 0.0)
  const DefaultSettings := Settings(true, true, true, true, true, Neon)

  function InitialPlayer(env: Env): Player {
    Player(env.playerId, env.username, "default", "Novice Clicker", 1, 0.0, env.now, env.now, "\U{1F30D}", 100, 0)
  }

  function InitialBattlePass(): BattlePass {
    BattlePass(1, 1, 0, 1000, false, PassRewards(), [])
  }

  /** `initialGameState`. */
  function Initial(env: Env): GameState {
    GameState(
      0.0, 0.0, 1.0, 0, 1.0, 0.0, 0.0, 100.0, 100.0, 1.0,
      1, 0, 100,
      NoUpgrades, NoBuildings,
      Catalog(), FreshPrestige, env.challenges,
      FreshStatistics, DefaultSettings,
      InitialPlayer(env), None, env.leaderboard,
      SocialFeatures(env.friendRequests, 0, 0, [], 0),
      InitialBattlePass(), env.tournaments,
      [], [], env.worldEvents, [])
  }
}
