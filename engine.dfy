/**
 * The engine as one state machine: every player action, feature handler
 * and tick is a step from the current state, and a run is a sequence of
 * steps. The invariant below holds of the initial state and survives every
 * step: balances and lifetime totals are never negative, energy stays
 * within its cap, both experience bars stay below their thresholds, and
 * the rates, rewards and pet happiness stay in range.
 */
module Engine {
  import opened Numbers
  import opened GameTypes
  import opened ById
  import opened AchievementsData
  import opened AchievementRules
  import opened BattlePassRules
  import opened InitialState
  import opened Ticks
  import opened ClickRules
  import opened Shop
  import opened PrestigeRules
  import opened PetRules
  import opened SocialRules
  import opened WorldEventRules
  import opened ArtifactRules

  /** One step, with everything the handler reads from outside the state as arguments. */
  datatype Action =
    | ClickAction(streak: nat, rolls: ClickRolls)
    | BuyUpgradeAction(upgradeType: string, cost: real, costType: CostType)
    | BuyBuildingAction(buildingType: string, buildingCost: real)
    | PrestigeAction
    | ResetAction
    | SummonPetAction(summonTime: nat, summonDraws: SummonDraws)
    | FeedPetAction(feedPetId: string, feedTime: int)
    | ActivatePetAction(activePetId: string)
    | UsePetAbilityAction(abilityPetId: string, abilityId: string, useTime: int)
    | JoinGuildAction(guildId: string, joinTime: int)
    | CreateGuildAction(guildName: string, guildDescription: string, createTime: nat)
    | JoinTournamentAction(tournamentId: string)
    | SendGiftAction(playerId: string, giftType: string)
    | ClaimPassRewardAction(rewardId: string)
    | UpgradeToPremiumAction
    | ParticipateWorldEventAction(eventId: string)
    | ClaimWorldEventRewardAction(rewardEventId: string, rewardIndex: Option<int>)
    | ForgeArtifactAction(forgeTime: nat, forgeDraws: ForgeDraws)
    | EquipArtifactAction(equipArtifactId: string)
    | UpgradeArtifactAction(upgradeArtifactId: string)
    | PlayTimeTickAction(tickTime: int)
    | EnergyTickAction
    | ProductionTickAction

  /** The random draws of an action lie in the ranges `Math.random` produces. */
  predicate ValidAction(a: Action) {
    match a
    case SummonPetAction(_, d) => ValidSummonDraws(d)
    case ForgeArtifactAction(_, d) => ValidForgeDraws(d)
    case _ => true
  }

  /** The state after one step. */
  function Apply(s: GameState, env: Env, a: Action): GameState
    requires ValidAction(a)
  {
    match a
    case ClickAction(streak, rolls) => Click(s, streak, rolls)
    case BuyUpgradeAction(t, cost, costType) => UpgradePurchase(s, t, cost, costType)
    case BuyBuildingAction(t, cost) => BuildingPurchase(s, t, cost)
    case PrestigeAction => DoPrestige(s, env)
    case ResetAction => ResetGame(s, env)
    case SummonPetAction(now, d) => Summon(s, now, d)
    case FeedPetAction(petId, now) => FeedPet(s, petId, now)
    case ActivatePetAction(petId) => ActivatePet(s, petId)
    case UsePetAbilityAction(petId, abilityId, now) => UsePetAbility(s, petId, abilityId, now)
    case JoinGuildAction(guildId, now) => JoinGuild(s, guildId, now)
    case CreateGuildAction(name, description, now) => CreateGuild(s, name, description, now)
    case JoinTournamentAction(id) => JoinTournament(s, id)
    case SendGiftAction(playerId, giftType) => SendGift(s, playerId, giftType)
    case ClaimPassRewardAction(id) => ClaimBattlePassReward(s, id)
    case UpgradeToPremiumAction => UpgradeToPremium(s)
    case ParticipateWorldEventAction(id) => ParticipateWorldEvent(s, id)
    case ClaimWorldEventRewardAction(id, k) => ClaimWorldEventReward(s, id, k)
    case ForgeArtifactAction(now, d) => Forge(s, now, d)
    case EquipArtifactAction(id) => EquipArtifact(s, id)
    case UpgradeArtifactAction(id) => UpgradeArtifact(s, id)
    case PlayTimeTickAction(now) => PlayTimeTick(s, now)
    case EnergyTickAction => EnergyTick(s)
    case ProductionTickAction => Produce(s)
  }

  // ---- the invariant ----

  /** Every battle-pass reward pays a non-negative amount. */
  predicate PassAmountsNonNegative(rewards: seq<BattlePassReward>) {
    forall i :: 0 <= i < |rewards| ==> rewards[i].reward.amount.Some? ==> rewards[i].reward.amount.value >= 0
  }

  /** Every world-event reward pays non-negative coins and gems. */
  predicate EventRewardsNonNegative(events: seq<WorldEvent>) {
    forall i, j :: 0 <= i < |events| && 0 <= j < |events[i].rewards| ==>
      events[i].rewards[j].coins >= 0.0 && events[i].rewards[j].gems >= 0.0
  }

  predicate EconomyOk(s: GameState) {
    && s.coins >= 0.0 && s.gems >= 0.0 && s.totalCoins >= 0.0 && s.totalGems >= 0.0
    && s.clickPower >= 0.0 && s.autoClickerPower >= 0.0 && s.prestige.multiplier >= 1.0
  }

  predicate BarsOk(s: GameState) {
    && 0.0 <= s.energy <= s.maxEnergy && s.energyRegenRate >= 0.0
    && 0 <= s.experience < s.experienceToNext
    && 0 <= s.battlePass.experience < s.battlePass.experienceToNext
  }

  predicate ContentOk(s: GameState) {
    && PassAmountsNonNegative(s.battlePass.rewards)
    && EventRewardsNonNegative(s.worldEvents)
    && (forall i :: 0 <= i < |s.pets| ==> 0 <= s.pets[i].happiness <= 100)
  }

  predicate Inv(s: GameState) {
    EconomyOk(s) && BarsOk(s) && ContentOk(s)
  }

  /** The placeholder world events pay non-negative rewards. */
  predicate EnvOk(env: Env) {
    EventRewardsNonNegative(env.worldEvents)
  }

  /** The initial state satisfies the invariant. */
  lemma InitialInv(env: Env)
    requires EnvOk(env)
    ensures Inv(Initial(env))
    ensures Initial(env).coins == 0.0 && Initial(env).energy == Initial(env).maxEnergy
  {
    var rs := PassRewards();
    forall i | 0 <= i < |rs| && rs[i].reward.amount.Some?
      ensures rs[i].reward.amount.value >= 0
    {
      var level := i / 2 + 1;
      if i % 2 == 0 {
        assert rs[i] == FreeReward(level);
      } else {
        assert rs[i] == PremiumReward(level);
      }
    }
  }

  // ---- one lemma per kind of step ----

  lemma ClickKeepsInv(s: GameState, streak: nat, rolls: ClickRolls)
    requires Inv(s)
    ensures Inv(Click(s, streak, rolls))
  {
    var r := Click(s, streak, rolls);
    ClickEarnings(s, streak, rolls);
    ClickKeepsExperienceBounds(s, streak, rolls);
    ClickEnergy(s, streak, rolls);
    var p := EffectivePower(s);
    assert p >= 0.0 by { assert s.clickPower >= 0.0 && s.prestige.multiplier >= 1.0; }
    var c := p * (if IsCritical(s, rolls) then 5.0 else 1.0);
    assert c >= 0.0;
    assert RolledCoins(s, streak, rolls) >= 0.0 by {
      assert RolledCoins(s, streak, rolls) == c * (if IsMega(s, streak) then 10.0 else 1.0);
    }
    assert r.coins >= s.coins && r.totalCoins >= s.totalCoins;
    assert r.battlePass.rewards == s.battlePass.rewards;
  }

  lemma UpgradeKeepsInv(s: GameState, t: string, cost: real, costType: CostType)
    requires Inv(s)
    ensures Inv(UpgradePurchase(s, t, cost, costType))
  {
    if CanPay(s, cost, costType) && UpgradeKindOf(t).Some? {
      UpgradeCharges(s, t, cost, costType);
      UpgradeEffects(s, t, cost, costType);
      var r := UpgradePurchase(s, t, cost, costType);
      var c := ChargeUpgrade(s, cost, costType);
      assert r.battlePass == s.battlePass && r.worldEvents == s.worldEvents && r.pets == s.pets;
      assert r.experience == s.experience && r.experienceToNext == s.experienceToNext;
    }
  }

  lemma BuildingKeepsInv(s: GameState, t: string, cost: real)
    requires Inv(s)
    ensures Inv(BuildingPurchase(s, t, cost))
  {
    if s.coins >= cost && BuildingKindOf(t).Some? {
      BuildingAccepted(s, t, cost);
    }
  }

  lemma PrestigeKeepsInv(s: GameState, env: Env)
    requires Inv(s) && EnvOk(env)
    ensures Inv(DoPrestige(s, env))
    ensures Inv(ResetGame(s, env))
  {
    InitialInv(env);
    if s.totalCoins >= 1000000.0 {
      PrestigeRaises(s, env);
    }
  }

  lemma PetsKeepInv(s: GameState, env: Env, a: Action)
    requires Inv(s) && ValidAction(a)
    requires a.SummonPetAction? || a.FeedPetAction? || a.ActivatePetAction? || a.UsePetAbilityAction?
    ensures Inv(Apply(s, env, a))
  {
    match a
    case SummonPetAction(now, d) => SummonEffect(s, now, d);
    case FeedPetAction(petId, now) =>
      FeedEffect(s, petId, now);
      var r := FeedPet(s, petId, now);
      forall i | 0 <= i < |r.pets|
        ensures 0 <= r.pets[i].happiness <= 100
      {
        FedPetBounds(s.pets[i], now);
      }
    case ActivatePetAction(petId) =>
    case UsePetAbilityAction(petId, abilityId, now) =>
      UseEffect(s, petId, abilityId, now);
  }

  lemma SocialKeepsInv(s: GameState, env: Env, a: Action)
    requires Inv(s)
    requires a.JoinGuildAction? || a.CreateGuildAction? || a.JoinTournamentAction? || a.SendGiftAction?
    ensures Inv(Apply(s, env, a))
  {
    match a
    case JoinGuildAction(guildId, now) =>
    case CreateGuildAction(name, description, now) =>
    case JoinTournamentAction(id) => JoinTournamentEffect(s, id);
    case SendGiftAction(playerId, giftType) => SendGiftEffect(s, playerId, giftType);
  }

  lemma PassKeepsInv(s: GameState, rewardId: string)
    requires Inv(s)
    ensures Inv(ClaimBattlePassReward(s, rewardId))
    ensures Inv(UpgradeToPremium(s))
  {
    if ClaimAllowed(s.battlePass, rewardId) {
      var k := IndexById(s.battlePass.rewards, RewardId, rewardId).value;
      var item := s.battlePass.rewards[k].reward;
      assert CoinCredit(item) >= 0.0 && GemCredit(item) >= 0.0;
      var r := ClaimBattlePassReward(s, rewardId);
      assert PassAmountsNonNegative(r.battlePass.rewards);
    }
  }

  lemma EventsKeepInv(s: GameState, env: Env, a: Action)
    requires Inv(s)
    requires a.ParticipateWorldEventAction? || a.ClaimWorldEventRewardAction?
    ensures Inv(Apply(s, env, a))
  {
    match a
    case ParticipateWorldEventAction(id) =>
      ParticipateEffect(s, id);
      var r := ParticipateWorldEvent(s, id);
      assert EventRewardsNonNegative(r.worldEvents) by {
        forall i, j | 0 <= i < |r.worldEvents| && 0 <= j < |r.worldEvents[i].rewards|
          ensures r.worldEvents[i].rewards[j].coins >= 0.0 && r.worldEvents[i].rewards[j].gems >= 0.0
        {
          assert r.worldEvents[i].rewards == s.worldEvents[i].rewards;
        }
      }
    case ClaimWorldEventRewardAction(id, k) =>
      ClaimEventEffect(s, id, k);
      if EventClaimAllowed(s.worldEvents, id, k) {
        var reward := FindEventReward(s.worldEvents, id, k).value;
        var e := IndexById(s.worldEvents, EventKey, id).value;
        assert reward == s.worldEvents[e].rewards[k.value];
        assert reward.coins >= 0.0 && reward.gems >= 0.0;
        var r := ClaimWorldEventReward(s, id, k);
        assert EventRewardsNonNegative(r.worldEvents) by {
          forall i, j | 0 <= i < |r.worldEvents| && 0 <= j < |r.worldEvents[i].rewards|
            ensures r.worldEvents[i].rewards[j].coins >= 0.0 && r.worldEvents[i].rewards[j].gems >= 0.0
          {
            if s.worldEvents[i].id == id && k.value < |s.worldEvents[i].rewards| && j != k.value {
              assert r.worldEvents[i].rewards[j] == s.worldEvents[i].rewards[j];
            }
          }
        }
      }
  }

  lemma ArtifactsKeepInv(s: GameState, env: Env, a: Action)
    requires Inv(s) && ValidAction(a)
    requires a.ForgeArtifactAction? || a.EquipArtifactAction? || a.UpgradeArtifactAction?
    ensures Inv(Apply(s, env, a))
  {
    match a
    case ForgeArtifactAction(now, d) =>
    case EquipArtifactAction(id) =>
    case UpgradeArtifactAction(id) => UpgradeArtifactEffect(s, id);
  }

  lemma TicksKeepInv(s: GameState, now: int)
    requires Inv(s)
    ensures Inv(PlayTimeTick(s, now))
    ensures Inv(EnergyTick(s))
    ensures Inv(Produce(s))
  {
    EnergyTickKeepsBounds(s);
    ProductionNonNegative(s);
    ProductionGains(s);
    ProductionKeepsBounds(s);
    AddPassExperienceKeepsBounds(s.battlePass, (CoinsPerTick(s) / 1000.0).Floor);
  }

  /** Every step keeps the invariant. */
  lemma ApplyKeepsInv(s: GameState, env: Env, a: Action)
    requires Inv(s) && EnvOk(env) && ValidAction(a)
    ensures Inv(Apply(s, env, a))
  {
    match a
    case ClickAction(streak, rolls) => ClickKeepsInv(s, streak, rolls);
    case BuyUpgradeAction(t, cost, costType) => UpgradeKeepsInv(s, t, cost, costType);
    case BuyBuildingAction(t, cost) => BuildingKeepsInv(s, t, cost);
    case PrestigeAction => PrestigeKeepsInv(s, env);
    case ResetAction => PrestigeKeepsInv(s, env);
    case SummonPetAction(_, _) => PetsKeepInv(s, env, a);
    case FeedPetAction(_, _) => PetsKeepInv(s, env, a);
    case ActivatePetAction(_) => PetsKeepInv(s, env, a);
    case UsePetAbilityAction(_, _, _) => PetsKeepInv(s, env, a);
    case JoinGuildAction(_, _) => SocialKeepsInv(s, env, a);
    case CreateGuildAction(_, _, _) => SocialKeepsInv(s, env, a);
    case JoinTournamentAction(_) => SocialKeepsInv(s, env, a);
    case SendGiftAction(_, _) => SocialKeepsInv(s, env, a);
    case ClaimPassRewardAction(id) => PassKeepsInv(s, id);
    case UpgradeToPremiumAction => PassKeepsInv(s, "");
    case ParticipateWorldEventAction(_) => EventsKeepInv(s, env, a);
    case ClaimWorldEventRewardAction(_, _) => EventsKeepInv(s, env, a);
    case ForgeArtifactAction(_, _) => ArtifactsKeepInv(s, env, a);
    case EquipArtifactAction(_) => ArtifactsKeepInv(s, env, a);
    case UpgradeArtifactAction(_) => ArtifactsKeepInv(s, env, a);
    case PlayTimeTickAction(now) => TicksKeepInv(s, now);
    case EnergyTickAction => TicksKeepInv(s, 0);
    case ProductionTickAction => TicksKeepInv(s, 0);
  }

  /** The state after a run of steps. */
  function Run(s: GameState, env: Env, actions: seq<Action>): GameState
    requires forall i :: 0 <= i < |actions| ==> ValidAction(actions[i])
    decreases |actions|
  {
    if actions == [] then s
    else
      Run(Apply(s, env, actions[0]), env, actions[1..])
  }

  /**
   * From the initial state, whatever the player does and however the ticks
   * interleave, coins and gems are never negative and energy never leaves
   * [0, maxEnergy].
   */
  lemma {:induction false} RunKeepsInv(s: GameState, env: Env, actions: seq<Action>)
    requires Inv(s) && EnvOk(env)
    requires forall i :: 0 <= i < |actions| ==> ValidAction(actions[i])
    ensures Inv(Run(s, env, actions))
    ensures var r := Run(s, env, actions); r.coins >= 0.0 && r.gems >= 0.0 && 0.0 <= r.energy <= r.maxEnergy
    decreases |actions|
  {
    if actions != [] {
      ApplyKeepsInv(s, env, actions[0]);
      RunKeepsInv(Apply(s, env, actions[0]), env, actions[1..]);
    }
  }
}
