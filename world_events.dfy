/**
 * World events: the player contributes to an active event, a hundred
 * times their click power at a time, and claims an event's reward once
 * the event's global progress reaches the reward's threshold.
 */
module WorldEventRules {
  import opened Numbers
  import opened GameTypes
  import opened ById

  function EventKey(e: WorldEvent): string { e.id }

  // ---- participateWorldEvent ----

  /** `Math.floor(clickPower * 100)`. */
  function Contribution(s: GameState): int {
    (s.clickPower * 100.0).Floor
  }

  /** Every event with the id gains the contribution, globally and for the player. */
  function Contributed(events: seq<WorldEvent>, eventId: string, c: int): (r: seq<WorldEvent>)
    ensures |r| == |events|
    ensures forall i :: 0 <= i < |r| ==>
      r[i] == if events[i].id == eventId
              then events[i].(globalProgress := events[i].globalProgress + c as real,
                              playerProgress := events[i].playerProgress + c as real)
              else events[i]
  {
    seq(|events|, i requires 0 <= i < |events| =>
      if events[i].id == eventId
      then events[i].(globalProgress := events[i].globalProgress + c as real,
                      playerProgress := events[i].playerProgress + c as real)
      else events[i])
  }

  /** `participateWorldEvent`: rejected when the event is missing or inactive; free otherwise. */
  function ParticipateWorldEvent(prev: GameState, eventId: string): GameState {
    match FindById(prev.worldEvents, EventKey, eventId)
    case None => prev
    case Some(e) =>
      if !e.isActive then prev
      else prev.(worldEvents := Contributed(prev.worldEvents, eventId, Contribution(prev)))
  }

  /**
   * A contribution goes through exactly when an event with the id exists
   * and is active; it then adds `floor(clickPower * 100)` to that event's
   * global and player progress, costs nothing, and changes nothing else.
   * With a non-negative click power, progress never goes down.
   */
  lemma ParticipateEffect(s: GameState, eventId: string)
    requires s.clickPower >= 0.0
    ensures var found := FindById(s.worldEvents, EventKey, eventId);
      var r := ParticipateWorldEvent(s, eventId);
      && (found.None? || !found.value.isActive ==> r == s)
      && (found.Some? && found.value.isActive ==>
            && r == s.(worldEvents := r.worldEvents)
            && |r.worldEvents| == |s.worldEvents|
            && Contribution(s) >= 0
            && (forall i :: 0 <= i < |s.worldEvents| && s.worldEvents[i].id == eventId ==>
                  && r.worldEvents[i].globalProgress == s.worldEvents[i].globalProgress + Contribution(s) as real
                  && r.worldEvents[i].playerProgress == s.worldEvents[i].playerProgress + Contribution(s) as real
                  && r.worldEvents[i].rewards == s.worldEvents[i].rewards)
            && (forall i :: 0 <= i < |s.worldEvents| && s.worldEvents[i].id != eventId ==>
                  r.worldEvents[i] == s.worldEvents[i]))
  {
    assert s.clickPower * 100.0 >= 0.0;
  }

  // ---- claimWorldEventReward ----

  /**
   * The reward a claim reads: `event.rewards[rewardIndex]` of the first
   * event with the id. The index is what `parseInt` made of the reward id;
   * None stands for NaN. An index outside the list reads nothing.
   */
  function FindEventReward(events: seq<WorldEvent>, eventId: string, rewardIndex: Option<int>): Option<WorldEventReward> {
    match FindById(events, EventKey, eventId)
    case None => None
    case Some(e) =>
      if rewardIndex.Some? && 0 <= rewardIndex.value < |e.rewards| then Some(e.rewards[rewardIndex.value]) else None
  }

  /** A claim goes through when the reward exists, is unclaimed, and the event's global progress reached its threshold. */
  predicate EventClaimAllowed(events: seq<WorldEvent>, eventId: string, rewardIndex: Option<int>) {
    var found := FindById(events, EventKey, eventId);
    var reward := FindEventReward(events, eventId, rewardIndex);
    && reward.Some?
    && !reward.value.claimed
    && found.value.globalProgress >= reward.value.threshold
  }

  /**
   * Every event with the id gets the slot at the index replaced by the
   * claimed copy of the reward that was read.
   */
  function MarkEventReward(events: seq<WorldEvent>, eventId: string, k: nat, claimed: WorldEventReward): (r: seq<WorldEvent>)
    ensures |r| == |events|
    ensures forall i :: 0 <= i < |r| ==>
      r[i] == if events[i].id == eventId && k < |events[i].rewards|
              then events[i].(rewards := events[i].rewards[k := claimed])
              else events[i]
  {
    seq(|events|, i requires 0 <= i < |events| =>
      if events[i].id == eventId && k < |events[i].rewards|
      then events[i].(rewards := events[i].rewards[k := claimed])
      else events[i])
  }

  /**
   * `claimWorldEventReward`: the coins and gems are credited, their
   * lifetime totals are not.
   */
  function ClaimWorldEventReward(prev: GameState, eventId: string, rewardIndex: Option<int>): GameState {
    if !EventClaimAllowed(prev.worldEvents, eventId, rewardIndex) then prev
    else
      var reward := FindEventReward(prev.worldEvents, eventId, rewardIndex).value;
      prev.(coins := prev.coins + reward.coins,
            gems := prev.gems + reward.gems,
            worldEvents := MarkEventReward(prev.worldEvents, eventId, rewardIndex.value, reward.(claimed := true)))
  }

  /**
   * A rejected claim (no such event, no reward at the index, already
   * claimed, or the threshold not reached) changes nothing. An accepted one
   * credits the reward's coins and gems but not `totalCoins`/`totalGems`,
   * and marks the reward claimed.
   */
  lemma ClaimEventEffect(s: GameState, eventId: string, rewardIndex: Option<int>)
    ensures var r := ClaimWorldEventReward(s, eventId, rewardIndex);
      && (!EventClaimAllowed(s.worldEvents, eventId, rewardIndex) ==> r == s)
      && (EventClaimAllowed(s.worldEvents, eventId, rewardIndex) ==>
            var reward := FindEventReward(s.worldEvents, eventId, rewardIndex).value;
            && r.coins == s.coins + reward.coins && r.gems == s.gems + reward.gems
            && r.totalCoins == s.totalCoins && r.totalGems == s.totalGems
            && FindEventReward(r.worldEvents, eventId, rewardIndex) == Some(reward.(claimed := true))
            && r == s.(coins := r.coins, gems := r.gems, worldEvents := r.worldEvents))
  {
    if EventClaimAllowed(s.worldEvents, eventId, rewardIndex) {
      ClaimedSlot(s.worldEvents, eventId, rewardIndex);
    }
  }

  /**
   * A claim never reads the event's active flag: a reward of an event that
   * has ended is still paid once its global progress reached the threshold.
   */
  lemma ClaimIgnoresIsActive(s: GameState, eventId: string, rewardIndex: Option<int>)
    requires FindById(s.worldEvents, EventKey, eventId).Some?
    requires !FindById(s.worldEvents, EventKey, eventId).value.isActive
    requires EventClaimAllowed(s.worldEvents, eventId, rewardIndex)
    ensures var reward := FindEventReward(s.worldEvents, eventId, rewardIndex).value;
      var r := ClaimWorldEventReward(s, eventId, rewardIndex);
      r.coins == s.coins + reward.coins && r.gems == s.gems + reward.gems
  {
  }

  /** After an accepted claim, the slot the claim reads holds the claimed reward. */
  lemma ClaimedSlot(events: seq<WorldEvent>, eventId: string, rewardIndex: Option<int>)
    requires EventClaimAllowed(events, eventId, rewardIndex)
    ensures var reward := FindEventReward(events, eventId, rewardIndex).value;
      var marked := MarkEventReward(events, eventId, rewardIndex.value, reward.(claimed := true));
      && FindEventReward(marked, eventId, rewardIndex) == Some(reward.(claimed := true))
      && FindById(marked, EventKey, eventId).value.globalProgress == FindById(events, EventKey, eventId).value.globalProgress
  {
    var reward := FindEventReward(events, eventId, rewardIndex).value;
    var k := rewardIndex.value;
    var marked := MarkEventReward(events, eventId, k, reward.(claimed := true));
    IndexSameKeys(events, marked, EventKey, EventKey, eventId);
    var j := IndexById(events, EventKey, eventId).value;
    assert FindById(marked, EventKey, eventId) == Some(marked[j]);
    assert marked[j].rewards == events[j].rewards[k := reward.(claimed := true)];
  }

  /** A reward is paid at most once: claiming it again changes nothing. */
  lemma ClaimEventTwiceIsNoOp(s: GameState, eventId: string, rewardIndex: Option<int>)
    ensures var once := ClaimWorldEventReward(s, eventId, rewardIndex);
      ClaimWorldEventReward(once, eventId, rewardIndex) == once
  {
    if EventClaimAllowed(s.worldEvents, eventId, rewardIndex) {
      ClaimedSlot(s.worldEvents, eventId, rewardIndex);
    }
  }

  /** A claim whose index is not a number, or is outside the reward list, is rejected. */
  lemma ClaimOutsideRewardsRejected(s: GameState, eventId: string, rewardIndex: Option<int>)
    requires FindById(s.worldEvents, EventKey, eventId).Some?
    requires var e := FindById(s.worldEvents, EventKey, eventId).value;
      rewardIndex.None? || rewardIndex.value < 0 || rewardIndex.value >= |e.rewards|
    ensures ClaimWorldEventReward(s, eventId, rewardIndex) == s
  {
  }
}
