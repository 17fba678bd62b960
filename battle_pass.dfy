/**
 * The battle pass: its 200 generated reward tiers, the level rollover that
 * both the click handler and the production tick run after adding pass
 * experience, and the two battle-pass handlers (claim a reward, buy the
 * premium pass).
 */
module BattlePassRules {
  import opened Numbers
  import opened GameTypes
  import opened ById

  // ---- reward generation ----

  /** The free tier of a level: gems every tenth level, coins otherwise. */
  function FreeReward(level: nat): BattlePassReward {
    BattlePassReward(
      "free-" + NatToString(level), level, Free,
      if level % 10 == 0 then PassRewardItem(PassGems, Some(level * 10), None)
      else PassRewardItem(PassCoins, Some(level * 100), None),
      false)
  }

  /**
   * The premium tier of a level. The pet branch is tested after the
   * cosmetic branch, and every multiple of 15 is a multiple of 5, so it is
   * never taken (see NoPremiumPetReward).
   */
  function PremiumReward(level: nat): BattlePassReward {
    BattlePassReward(
      "premium-" + NatToString(level), level, Premium,
      PassRewardItem(
        if level % 5 == 0 then PassCosmetic else if level % 15 == 0 then PassPet else PassGems,
        if level % 5 == 0 then None else Some(level * 20),
        if level % 5 == 0 then Some("cosmetic-" + NatToString(level))
        else if level % 15 == 0 then Some("pet-" + NatToString(level))
        else None),
      false)
  }

  /** The reward list in push order: free then premium, for levels 1 to 100. */
  function PassRewards(): seq<BattlePassReward> {
    seq(200, i requires 0 <= i < 200 => if i % 2 == 0 then FreeReward(i / 2 + 1) else PremiumReward(i / 2 + 1))
  }

  function RewardId(r: BattlePassReward): string {
    r.id
  }

  /** `generateBattlePassRewards`: the `for`/`push` loop over levels 1..100. */
  method GenerateBattlePassRewards() returns (rewards: seq<BattlePassReward>)
    ensures rewards == PassRewards()
  {
    rewards := [];
    for level := 1 to 101
      invariant |rewards| == 2 * (level - 1)
      invariant forall i :: 0 <= i < |rewards| ==> rewards[i] == PassRewards()[i]
    {
      rewards := rewards + [FreeReward(level)];
      rewards := rewards + [PremiumReward(level)];
    }
  }

  /**
   * The generated tiers: 200 unclaimed rewards, a free one then a premium
   * one for each level 1..100, with pairwise distinct ids.
   */
  lemma PassRewardsShape()
    ensures |PassRewards()| == 200
    ensures forall i :: 0 <= i < 200 ==>
      !PassRewards()[i].claimed && PassRewards()[i].level == i / 2 + 1 && (PassRewards()[i].tier == Free <==> i % 2 == 0)
    ensures DistinctIds(PassRewards(), RewardId)
  {
    var rs := PassRewards();
    forall i, j | 0 <= i < j < |rs|
      ensures RewardId(rs[i]) != RewardId(rs[j])
    {
      var li, lj := i / 2 + 1, j / 2 + 1;
      if i % 2 != j % 2 {
        assert rs[i].id[0] != rs[j].id[0];
      } else if i % 2 == 0 {
        assert li != lj;
        if rs[i].id == rs[j].id {
          assert NatToString(li) == rs[i].id[5..] == rs[j].id[5..] == NatToString(lj);
          NatToStringInjective(li, lj);
        }
      } else {
        assert li != lj;
        if rs[i].id == rs[j].id {
          assert NatToString(li) == rs[i].id[8..] == rs[j].id[8..] == NatToString(lj);
          NatToStringInjective(li, lj);
        }
      }
    }
  }

  /** As written, no premium tier ever carries a pet. */
  lemma NoPremiumPetReward(level: nat)
    ensures PremiumReward(level).reward.kind != PassPet
    ensures level % 15 == 0 ==> PremiumReward(level).reward.kind == PassCosmetic
  {
  }

  // ---- level rollover ----

  /** `Math.floor(1000 * Math.pow(1.1, level))`, the pass threshold after reaching `level`. */
  function PassThreshold(level: nat): (t: int)
    ensures t >= 1000
  {
    PowAtLeastOne(1.1, level);
    (1000.0 * Pow(1.1, level)).Floor
  }

  /** The thresholds of `count` consecutive pass levels starting at `from`. */
  function ThresholdSum(from: nat, count: nat): int
    decreases count
  {
    if count == 0 then 0 else PassThreshold(from) + ThresholdSum(from + 1, count - 1)
  }

  /**
   * The state of the pass after the rollover loop. It ends below its
   * threshold, only level and experience and threshold change, and the
   * experience is conserved: what is left plus the thresholds of every level
   * gained (the stored one first, then the computed ones) is what was there.
   * A stored threshold that is not positive is replaced after one step, so
   * the loop ends on any pass.
   */
  function RollOver(bp: BattlePass): (r: BattlePass)
    ensures r.experience < r.experienceToNext
    ensures bp.experienceToNext > 0 ==> r.experienceToNext > 0
    ensures bp.experience >= 0 ==> r.experience >= 0
    ensures r.level >= bp.level
    ensures r == bp.(experience := r.experience, level := r.level, experienceToNext := r.experienceToNext)
    ensures r.level == bp.level ==> r == bp
    ensures r.level > bp.level ==>
      r.experienceToNext == PassThreshold(r.level) &&
      bp.experience == r.experience + bp.experienceToNext + ThresholdSum(bp.level + 1, r.level - bp.level - 1)
    decreases if bp.experienceToNext > 0 then 0 else 1, bp.experience
  {
    if bp.experience >= bp.experienceToNext then
      var next := bp.(experience := bp.experience - bp.experienceToNext,
                      level := bp.level + 1,
                      experienceToNext := PassThreshold(bp.level + 1));
      RollOver(next)
    else
      bp
  }

  /** The `while` loop itself, step by step. */
  method RollOverLoop(bp: BattlePass) returns (r: BattlePass)
    ensures r == RollOver(bp)
  {
    r := bp;
    while r.experience >= r.experienceToNext
      invariant RollOver(r) == RollOver(bp)
      decreases if r.experienceToNext > 0 then 0 else 1, r.experience
    {
      r := r.(experience := r.experience - r.experienceToNext);
      r := r.(level := r.level + 1);
      r := r.(experienceToNext := PassThreshold(r.level));
    }
  }

  /** Add pass experience; the rollover runs only when the gain is positive. */
  function AddPassExperience(bp: BattlePass, gained: int): (r: BattlePass)
    ensures gained <= 0 ==> r == bp
    ensures gained > 0 ==> r == RollOver(bp.(experience := bp.experience + gained))
  {
    if gained > 0 then RollOver(bp.(experience := bp.experience + gained)) else bp
  }

  /** A pass below its threshold stays below it after any gain, and never loses experience. */
  lemma AddPassExperienceKeepsBounds(bp: BattlePass, gained: int)
    requires 0 <= bp.experience < bp.experienceToNext
    ensures var r := AddPassExperience(bp, gained);
      0 <= r.experience < r.experienceToNext && r.level >= bp.level &&
      r.rewards == bp.rewards && r.claimedRewards == bp.claimedRewards && r.isPremium == bp.isPremium
  {
  }

  // ---- claiming and premium ----

  /** The reward a claim would find: the first one with that id. */
  function FindReward(bp: BattlePass, rewardId: string): Option<BattlePassReward> {
    FindById(bp.rewards, RewardId, rewardId)
  }

  /**
   * A claim goes through when the reward exists, is unclaimed, is at or
   * below the pass level, and is not premium on a free pass.
   */
  predicate ClaimAllowed(bp: BattlePass, rewardId: string) {
    var found := FindReward(bp, rewardId);
    && found.Some?
    && !found.value.claimed
    && bp.level >= found.value.level
    && (found.value.tier == Premium ==> bp.isPremium)
  }

  /** Coins a reward pays: its amount when it is a coin reward with a non-zero amount. */
  function CoinCredit(item: PassRewardItem): real {
    if item.kind == PassCoins && item.amount.Some? && item.amount.value != 0 then item.amount.value as real else 0.0
  }

  /** Gems a reward pays: its amount when it is a gem reward with a non-zero amount. */
  function GemCredit(item: PassRewardItem): real {
    if item.kind == PassGems && item.amount.Some? && item.amount.value != 0 then item.amount.value as real else 0.0
  }

  /** Every reward carrying the id is marked claimed; the others are untouched. */
  function MarkClaimed(rewards: seq<BattlePassReward>, rewardId: string): (r: seq<BattlePassReward>)
    ensures |r| == |rewards|
    ensures forall i :: 0 <= i < |r| ==> r[i] == if rewards[i].id == rewardId then rewards[i].(claimed := true) else rewards[i]
  {
    seq(|rewards|, i requires 0 <= i < |rewards| => if rewards[i].id == rewardId then rewards[i].(claimed := true) else rewards[i])
  }

  /**
   * `claimBattlePassReward`. A rejected claim leaves the state as it was.
   * An accepted one marks the reward claimed, appends its id to
   * `claimedRewards` and credits its coins or gems; the lifetime totals are
   * not touched.
   */
  function ClaimBattlePassReward(prev: GameState, rewardId: string): (r: GameState)
    ensures !ClaimAllowed(prev.battlePass, rewardId) ==> r == prev
    ensures ClaimAllowed(prev.battlePass, rewardId) ==>
      var item := FindReward(prev.battlePass, rewardId).value.reward;
      && r.coins == prev.coins + CoinCredit(item)
      && r.gems == prev.gems + GemCredit(item)
      && r.battlePass.claimedRewards == prev.battlePass.claimedRewards + [rewardId]
      && r.battlePass.rewards == MarkClaimed(prev.battlePass.rewards, rewardId)
      && r == prev.(coins := r.coins, gems := r.gems,
                    battlePass := prev.battlePass.(rewards := r.battlePass.rewards, claimedRewards := r.battlePass.claimedRewards))
  {
    if !ClaimAllowed(prev.battlePass, rewardId) then prev
    else
      var reward := FindReward(prev.battlePass, rewardId).value;
      prev.(coins := prev.coins + CoinCredit(reward.reward),
            gems := prev.gems + GemCredit(reward.reward),
            battlePass := prev.battlePass.(
              rewards := MarkClaimed(prev.battlePass.rewards, rewardId),
              claimedRewards := prev.battlePass.claimedRewards + [rewardId]))
  }

  /** Claiming the same reward a second time changes nothing. */
  lemma ClaimTwiceIsNoOp(s: GameState, rewardId: string)
    ensures var once := ClaimBattlePassReward(s, rewardId);
      ClaimBattlePassReward(once, rewardId) == once
  {
    var once := ClaimBattlePassReward(s, rewardId);
    if ClaimAllowed(s.battlePass, rewardId) {
      var rs := once.battlePass.rewards;
      var k := IndexById(rs, RewardId, rewardId);
      assert k.Some? by {
        var k0 := IndexById(s.battlePass.rewards, RewardId, rewardId);
        assert RewardId(rs[k0.value]) == rewardId;
      }
      assert rs[k.value].claimed;
      assert !ClaimAllowed(once.battlePass, rewardId);
    }
  }

  /** A claimed reward stays claimed: claims only ever set the flag. */
  lemma ClaimKeepsClaimedFlags(s: GameState, rewardId: string, i: nat)
    requires i < |s.battlePass.rewards| && s.battlePass.rewards[i].claimed
    ensures var r := ClaimBattlePassReward(s, rewardId).battlePass.rewards;
      i < |r| && r[i].claimed && r[i].id == s.battlePass.rewards[i].id
  {
  }

  /**
   * `upgradeToPremium`: costs 2000 gems, below that a no-op. It does not
   * check whether the pass is already premium, so buying twice pays twice.
   */
  function UpgradeToPremium(prev: GameState): (r: GameState)
    ensures prev.gems < 2000.0 ==> r == prev
    ensures prev.gems >= 2000.0 ==>
      r == prev.(gems := prev.gems - 2000.0, battlePass := prev.battlePass.(isPremium := true))
  {
    if prev.gems < 2000.0 then prev
    else prev.(gems := prev.gems - 2000.0, battlePass := prev.battlePass.(isPremium := true))
  }

  /** A second premium purchase on an already premium pass still takes 2000 gems. */
  lemma PremiumTwicePaysTwice(s: GameState)
    requires s.gems >= 4000.0
    ensures UpgradeToPremium(UpgradeToPremium(s)).gems == s.gems - 4000.0
    ensures UpgradeToPremium(UpgradeToPremium(s)).battlePass.isPremium
  {
  }
}
