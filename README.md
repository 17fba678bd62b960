# Pixel Clicker Ultimate: the game-state engine, modelled and verified in Dafny

This project models the game-state engine of the idle clicker game Pixel
Clicker Ultimate. The engine keeps one `GameState` aggregate. Each player
action, feature handler and one-second tick replaces that aggregate with a
new one computed from the previous one. Each such step is modelled as a
transition from the previous state (and the step's arguments) to the next.

The model covers:

- the click handler, with its streak, critical, lucky and mega
  multipliers, level-up, battle-pass experience and achievement check;
- upgrade and building purchases, and the price lists and buy buttons that
  decide which cost reaches them;
- prestige and reset;
- pets, guilds, tournaments, gifts, the battle pass, world events and
  artifacts;
- the three tick bodies: play time, energy regeneration and passive
  production;
- the weighted rarity roll, the battle-pass level rollover, and the
  generation of the 200 battle-pass tiers;
- loading a saved game (the field merge and the id-keyed achievement and
  challenge merges) and auto-saving;
- the static achievement catalog.

Randomness, the clock and the random placeholder content are parameters.
Each `Math.random()` becomes a draw argument: a `real` in [0, 1), or in
[0, 100) for the rarity roll. `Date.now()` becomes a `now` argument. The
mock leaderboard, friend requests, tournaments and world events, the random
player id and name, the load time and the challenge catalog are fields of an
`Env` record fixed for the session. Currencies, multipliers and energy are
exact `real`s, `Math.floor` is `.Floor`, and counts and levels are `nat`.

Where the imperative shape of the code carries the behaviour, the model keeps
it, and each such method is proved equal to a specification function:

- the rollover `while` loop (`BattlePassRules.RollOverLoop`);
- the cumulative-weight `for` loop with `break` (`RarityRoll.PickRarity`);
- the `for`/`push` tier generation (`BattlePassRules.GenerateBattlePassRewards`);
- the field increments of the two purchase switches (`Shop.BuyUpgrade`,
  `Shop.BuyBuilding`);
- the production tick's running sums and pet loop (`Ticks.ProductionTick`);
- the click body (`ClickRules.ClickBody`);
- the streak counter and last-click time that live across clicks
  (`ClickRules.ClickTracker`).

Module `Engine` gathers every step into one `Action` datatype. It proves an
invariant that holds initially and survives every step and every run of
steps. The invariant says:

- balances and lifetime totals are never negative;
- energy stays within [0, maxEnergy];
- the level and pass experience stay below their thresholds;
- click power, auto-clicker power and the multiplier stay in range;
- reward amounts are non-negative;
- pet happiness stays within [0, 100].

Files: `numbers.dfy` (powers, floors, integer square root, decimal
printing), `game_types.dfy` (the records), `by_id.dfy` (lookups and merges
by id), `achievements_data.dfy`, `achievement_rules.dfy`,
`battle_pass.dfy`, `rarity.dfy`, `initial_state.dfy`, `ticks.dfy`,
`click.dfy`, `shop.dfy`, `upgrade_shop.dfy`, `buildings_panel.dfy`,
`prestige.dfy`, `pets.dfy`, `social.dfy`, `world_events.dfy`,
`artifacts.dfy`, `persistence.dfy`, `engine.dfy`.

Some of the game's behaviour differs from what a player might expect,
and the model keeps it as it is:

- A level-up sets experience to 0 instead of carrying the excess over, and
  a click gains at most one level (`ClickRules.ClickExperience`,
  `ClickRules.LevelUpDropsExcess`).
- The 10-energy drain depends only on the streak, not on whether the click
  was mega (`ClickRules.ClickEnergy`, `ClickRules.DrainWithoutMega`).
- The production tick computes the player's power from the totals before
  the tick (`Ticks.ProductionGains`).

## Model

| member | source | states |
|---|---|---|
| AchievementsData.Catalog | src/data/achievements.ts:3-329 | the catalog has 26 entries, each starting uncompleted and without progress |
| AchievementsData.CatalogIdsDistinct | src/data/achievements.ts:6-318 | the catalog ids are pairwise distinct |
| AchievementsData.CatalogHiddenEntries | src/data/achievements.ts:305-328 | of the 26 entries exactly two are hidden: entry 24, `secret-combo`, and entry 25, `time-traveler`; no other entry is hidden |
| AchievementRules.Evaluate | src/hooks/useGameState.ts:1316-1371 | the verdict on an unfinished entry: click ids track the click count and complete at their threshold, coin and gem ids track the total and complete at their target, speed-demon completes at a streak of 100, any other id is reset |
| AchievementRules.CheckAchievements | src/hooks/useGameState.ts:1313-1373 | same length; every entry keeps everything but progress and completion; every unfinished entry gets a progress value |
| AchievementRules.CompletedNeverReverts | src/hooks/useGameState.ts:1315 | a completed achievement is returned unchanged, so completion never reverts |
| AchievementRules.ClickAchievementCompletes | src/hooks/useGameState.ts:1321-1344 | a click achievement completes exactly when the click count reaches its threshold; its progress is the click count |
| AchievementRules.CoinAchievementCompletes | src/hooks/useGameState.ts:1345-1352 | a coin achievement completes exactly when total coins reach its own target |
| AchievementRules.GemAchievementCompletes | src/hooks/useGameState.ts:1353-1358 | a gem achievement completes exactly when total gems reach its own target |
| AchievementRules.SpeedDemonCompletes | src/hooks/useGameState.ts:1359-1363 | speed-demon completes exactly on a streak of at least 100, with progress 0 |
| AchievementRules.UnmappedIdsReset | src/hooks/useGameState.ts:1364-1371 | every other unfinished entry is reset to progress 0 and not completed |
| AchievementRules.CheckIdempotent | src/hooks/useGameState.ts:1313-1373 | evaluating twice with the same context equals evaluating once |
| AchievementRules.ClickThresholdsMatchCatalog | src/data/achievements.ts:5-76 | the evaluator's hard-coded click thresholds are the catalog targets, and exactly the clicking entries have one |
| AchievementRules.CoinTargets | src/data/achievements.ts:80-139 | the coin achievements are entries 6-10 with targets 100, 1000, 1e6, 1e9, 1e12 |
| AchievementRules.GemTargets | src/data/achievements.ts:141-175 | the gem achievements are entries 11-13 with targets 1, 100, 1000 |
| BattlePassRules.PassRewards | src/hooks/useGameState.ts:212-239 | the reward list: for each level 1..100 a free tier and then a premium tier, unclaimed, the reward chosen by the level |
| BattlePassRules.GenerateBattlePassRewards | src/hooks/useGameState.ts:212-239 | the for/push loop yields the specified 200-tier list |
| BattlePassRules.PassRewardsShape | src/hooks/useGameState.ts:212-239 | 200 unclaimed tiers, free then premium for levels 1..100, with distinct ids |
| BattlePassRules.NoPremiumPetReward | src/hooks/useGameState.ts:229-231 | the pet branch is dead: every multiple of 15 is caught by the cosmetic test first |
| BattlePassRules.PassThreshold | src/hooks/useGameState.ts:435 | the threshold floor(1000*1.1^level) is at least 1000 |
| BattlePassRules.RollOver | src/hooks/useGameState.ts:430-437 | ends below the threshold; level never drops; only level, experience and threshold change; experience is conserved |
| BattlePassRules.RollOverLoop | src/hooks/useGameState.ts:432-436 | the while loop computes the rollover |
| BattlePassRules.AddPassExperience | src/hooks/useGameState.ts:514-523 | no gain leaves the pass alone; a positive gain is added, then rolled over |
| BattlePassRules.AddPassExperienceKeepsBounds | src/hooks/useGameState.ts:514-523 | a pass below its threshold stays below it and keeps its rewards and premium flag |
| BattlePassRules.MarkClaimed | src/hooks/useGameState.ts:1046-1048 | every reward with the id is marked claimed and the others are untouched |
| BattlePassRules.ClaimBattlePassReward | src/hooks/useGameState.ts:1033-1072 | rejected claims change nothing; accepted ones mark the reward, record its id and credit coins or gems, leaving the totals alone |
| BattlePassRules.ClaimTwiceIsNoOp | src/hooks/useGameState.ts:1037 | a second claim of the same reward is a no-op |
| BattlePassRules.ClaimKeepsClaimedFlags | src/hooks/useGameState.ts:1046-1048 | a claimed reward stays claimed |
| BattlePassRules.UpgradeToPremium | src/hooks/useGameState.ts:1074-1092 | below 2000 gems nothing happens; otherwise 2000 gems are charged and the pass becomes premium |
| BattlePassRules.PremiumTwicePaysTwice | src/hooks/useGameState.ts:1076-1090 | an already premium pass is charged again |
| RarityRoll.RarityFor | src/hooks/useGameState.ts:720-732 | the rarity whose cumulative-weight band (50, 30, 15, 4, 1) holds the draw |
| RarityRoll.PickRarity | src/hooks/useGameState.ts:722-732 | the cumulative-weight loop with break selects the closed-form rarity |
| RarityRoll.CumulativeValues | src/hooks/useGameState.ts:720 | the running weights are 50, 80, 95, 99, 100 |
| RarityRoll.RarityBands | src/hooks/useGameState.ts:722-732 | a draw in [0, 100) gets each rarity in a band as wide as its weight, both directions |
| RarityRoll.BandsAreCumulativeWeights | src/hooks/useGameState.ts:726-732 | band i lies between the cumulative weights before and after i |
| Ticks.PlayTimeTick | src/hooks/useGameState.ts:351-367 | play time grows by 1000 ms, last-active becomes now, and nothing else changes |
| Ticks.EnergyTick | src/hooks/useGameState.ts:370-384 | at or above the cap nothing happens; below it energy becomes min(cap, energy + regen) |
| Ticks.EnergyTickKeepsBounds | src/hooks/useGameState.ts:373-376 | energy stays in [0, maxEnergy], never drops, and fills up once regen covers the gap |
| Ticks.CoinsPerTick | src/hooks/useGameState.ts:394-424 | the coins of one tick: auto-clickers and the four coin buildings times the multiplier, times the research, quantum and active-pet bonuses |
| Ticks.GemsPerTick | src/hooks/useGameState.ts:400-416 | the gems of one tick: 0.1 per gem factory times the research and quantum bonuses |
| Ticks.Produce | src/hooks/useGameState.ts:387-460 | the production transition: balances and totals, energy up to the cap, pass experience, best rate and power |
| Ticks.BuildingGains | src/hooks/useGameState.ts:390-416 | the running sums equal the closed-form coins, gems and energy with the research and quantum bonuses |
| Ticks.ApplyPetBonuses | src/hooks/useGameState.ts:419-424 | the pet loop multiplies the coins by the product of the active pets' factors |
| Ticks.ProductionTick | src/hooks/useGameState.ts:387-460 | the tick body computes the production transition |
| Ticks.PetBonusAtLeastOne | src/hooks/useGameState.ts:419-424 | the pet bonus is at least 1 |
| Ticks.PetBonusOfInactivePets | src/hooks/useGameState.ts:420 | with no active pet the bonus is exactly 1 |
| Ticks.CoinsPerTickFormula | src/hooks/useGameState.ts:394-424 | coins per tick = (autoClickers*power + mines + 100 stations + 1000 machines + 10000 rifts) * multiplier * research * quantum * pets |
| Ticks.ProductionGains | src/hooks/useGameState.ts:439-457 | coins and their total rise together, gems likewise; highest rate is the running max; power from the totals before the tick |
| Ticks.ProductionNonNegative | src/hooks/useGameState.ts:394-424 | with non-negative rates a tick gains non-negative coins and gems |
| Ticks.ProductionKeepsBounds | src/hooks/useGameState.ts:445-446 | energy stays in [0, maxEnergy] and the pass below its threshold |
| Ticks.TenCoinMinesAddTen | src/hooks/useGameState.ts:399 | ten coin mines at multiplier 1 with nothing else add exactly 10 coins |
| ClickRules.NextStreak | src/hooks/useGameState.ts:467-471 | the streak grows by one only within a second of the last click, otherwise restarts at 1 |
| ClickRules.ClickTracker.constructor | src/hooks/useGameState.ts:339-340 | the last click time and streak start at 0 |
| ClickRules.ClickTracker.Register | src/hooks/useGameState.ts:464-472 | a click updates the streak by the rule and records the click time |
| ClickRules.RapidClicksBuildStreak | src/hooks/useGameState.ts:467-471 | clicks each under a second apart add one each to the streak |
| ClickRules.LevelThreshold | src/hooks/useGameState.ts:506 | the next level threshold floor(100*1.5^(level-1)) is at least 100 |
| ClickRules.Click | src/hooks/useGameState.ts:474-557 | the click transition: earnings, experience and level-up, pass experience, achievements, statistics and energy drain |
| ClickRules.RollClick | src/hooks/useGameState.ts:474-497 | the rolls compute the specified coins, gems, experience and flags |
| ClickRules.LevelUpStep | src/hooks/useGameState.ts:499-509 | the level-up branch gains one level, resets experience and adds the bonus, or leaves them |
| ClickRules.PassStep | src/hooks/useGameState.ts:514-523 | the pass experience and rollover of a click |
| ClickRules.ClickGains | src/hooks/useGameState.ts:474-509 | the gains, flags and level values of a click equal their specifications |
| ClickRules.ClickBody | src/hooks/useGameState.ts:474-557 | the click body computes the click transition |
| ClickRules.HandleClick | src/hooks/useGameState.ts:462-560 | the handler updates the streak and then applies the click with the new streak |
| ClickRules.ClickEarnings | src/hooks/useGameState.ts:474-512 | coins rise by clickPower*multiplier times 5 if critical times 10 if mega, plus the level bonus; gems by lucky plus floor(level/5); totals likewise |
| ClickRules.ClickExperience | src/hooks/useGameState.ts:477-509 | experience 1, x2 critical, x5 mega; reaching the threshold gains one level and resets experience to 0 |
| ClickRules.ClickKeepsExperienceBounds | src/hooks/useGameState.ts:499-523 | experience stays below its threshold, and so does the pass experience |
| ClickRules.ClickEnergy | src/hooks/useGameState.ts:543 | a streak of 10 drains 10 energy clamped at 0; energy stays in [0, maxEnergy] |
| ClickRules.DrainWithoutMega | src/hooks/useGameState.ts:494-497 | with a streak of 10 but under 10 energy the click is not mega yet still drains energy |
| ClickRules.LevelUpDropsExcess | src/hooks/useGameState.ts:503-505 | the excess experience of a level-up is lost |
| ClickRules.ClickKeepsAchievements | src/hooks/useGameState.ts:525-532 | completed achievements survive a click |
| Shop.UpgradeNamesSelectTheirCase | src/hooks/useGameState.ts:578-611 | every upgrade name selects its own switch case |
| Shop.BuildingNamesSelectTheirCase | src/hooks/useGameState.ts:635-658 | every building name selects its own switch case |
| Shop.UpgradePurchase | src/hooks/useGameState.ts:562-620 | the upgrade transition: unchanged when the balance is short or the name unknown, otherwise charge and apply the named case |
| Shop.BuyUpgrade | src/hooks/useGameState.ts:562-620 | the handler's guard, charge and in-place increments compute the purchase transition |
| Shop.UpgradeRejectedExactly | src/hooks/useGameState.ts:564-565 | the state is unchanged exactly when the balance is short or the name is unknown |
| Shop.UpgradeCharges | src/hooks/useGameState.ts:567-576 | an accepted upgrade charges exactly the cost to the named balance and counts one purchase |
| Shop.UpgradeRaisesOwnLevel | src/hooks/useGameState.ts:578-611 | only the purchased upgrade's level rises, by one |
| Shop.UpgradeEffects | src/hooks/useGameState.ts:579-594 | click power doubles; one auto clicker; multiplier +0.5; energy cap +50 and regen +0.5 |
| Shop.BuildingPurchase | src/hooks/useGameState.ts:622-667 | the building transition: unchanged when coins are short or the name unknown, otherwise charge and add one building |
| Shop.BuyBuilding | src/hooks/useGameState.ts:622-667 | the handler's guard, charge and increment compute the building transition |
| Shop.BuildingRejectedExactly | src/hooks/useGameState.ts:624 | the state is unchanged exactly when coins are short or the name is unknown |
| Shop.BuildingAccepted | src/hooks/useGameState.ts:626-658 | an accepted building charges the cost in coins, counts one, and raises only its own counter |
| UpgradeShop.UpgradeOffers | src/components/UpgradeShop.tsx:18-126 | the price list has ten rows |
| UpgradeShop.Dispatch | src/components/UpgradeShop.tsx:152-158 | a click dispatches the row exactly when it is affordable |
| UpgradeShop.ClickOffer | src/components/UpgradeShop.tsx:152-158 | a click on a row: the purchase with the displayed cost and currency when affordable, otherwise nothing |
| UpgradeShop.CanAffordIsHandlerGuard | src/components/UpgradeShop.tsx:152 | the button's test is the handler's own affordability test |
| UpgradeShop.OffersNameSwitchCases | src/components/UpgradeShop.tsx:20-120 | every row names a purchase case and shows its level |
| UpgradeShop.GemCostsLinear | src/components/UpgradeShop.tsx:64-124 | gem prices are 10+5L, 25+15L, 50+25L, 100+50L, 200+100L, 500+250L |
| UpgradeShop.CoinCostsAtLevelZero | src/components/UpgradeShop.tsx:24-58 | coin prices at level 0 are 50, 100, 1000, 5000 |
| UpgradeShop.CoinCostsIncrease | src/components/UpgradeShop.tsx:24-57 | each coin price strictly increases with its level |
| UpgradeShop.ClickBuysAndRaisesPrice | src/components/UpgradeShop.tsx:152-158 | an affordable click is accepted, charges the shown cost and raises the row's price; otherwise nothing changes |
| BuildingsPanel.BuildingTable | src/components/BuildingsPanel.tsx:19-100 | the eight rows of the panel, base costs rising strictly, a missing counter read as zero only in the last three |
| BuildingsPanel.Cost | src/components/BuildingsPanel.tsx:111 | the price floor(baseCost*1.15^owned), undefined when the counter is missing and not defaulted |
| BuildingsPanel.ClickBuilding | src/components/BuildingsPanel.tsx:111-118 | a click on a row: the purchase with the displayed cost when affordable, otherwise nothing |
| BuildingsPanel.Dispatch | src/components/BuildingsPanel.tsx:111-118 | a click dispatches the id and cost exactly when affordable |
| BuildingsPanel.CostAtZeroIsBase | src/components/BuildingsPanel.tsx:111 | with none owned the cost is the base cost |
| BuildingsPanel.CostIncreases | src/components/BuildingsPanel.tsx:111 | the cost strictly increases with the number owned |
| BuildingsPanel.RowsNameSwitchCases | src/components/BuildingsPanel.tsx:19-98 | every row names a building case and shows its counter |
| BuildingsPanel.MissingCounters | src/components/BuildingsPanel.tsx:76-96 | a missing counter of the last three rows counts as 0; one of the first five blocks the button |
| BuildingsPanel.CanAffordIsHandlerGuard | src/components/BuildingsPanel.tsx:112 | the button's test is the complement of the handler's rejection |
| BuildingsPanel.ClickBuysAndRaisesPrice | src/components/BuildingsPanel.tsx:111-118 | an affordable click is accepted, charges the cost and raises the row's price |
| PrestigeRules.DoPrestige | src/hooks/useGameState.ts:669-701 | the prestige transition: unchanged below a million lifetime coins, otherwise the initial state with the raised prestige record and the carried features |
| PrestigeRules.PrestigePoints | src/hooks/useGameState.ts:672 | the points p satisfy p^2 <= totalCoins/1e6 < (p+1)^2, i.e. floor(sqrt(totalCoins/1e6)) |
| PrestigeRules.PointsAre | src/hooks/useGameState.ts:672 | that p is unique |
| PrestigeRules.PrestigePointExamples | src/hooks/useGameState.ts:672-681 | 1e6, 4e6, 99e6 and 1e8 coins give 1, 2, 9 and 10 points, the last one token |
| PrestigeRules.ResetGame | src/hooks/useGameState.ts:703-708 | reset restores zero balances, the fresh prestige record and the catalog |
| PrestigeRules.PrestigeNeedsAMillion | src/hooks/useGameState.ts:670 | below a million lifetime coins prestige changes nothing |
| PrestigeRules.PrestigeRaises | src/hooks/useGameState.ts:676-697 | at least one point; level +1, points +p, multiplier 1+points/10, tokens +p/10, one more prestige counted |
| PrestigeRules.PrestigeStartsOver | src/hooks/useGameState.ts:674-698 | the new state is the initial one in every field (balances, click power, auto-clickers and their power, energy, its cap and its regeneration rate, level, upgrades, buildings, challenges) except the raised prestige record, the statistics with one more prestige, and the listed features carried verbatim |
| PrestigeRules.PrestigeMultiplierGrows | src/hooks/useGameState.ts:679 | a prestige starting from the multiplier its points give (1 + points/10) raises it by at least 0.1 |
| PrestigeRules.PrestigeLowersUpgradedMultiplier | src/hooks/useGameState.ts:586-679 | a prestige after a multiplier upgrade can lower the multiplier: with no points and 1e6-4e6 lifetime coins the upgrade gives 1.5 and the prestige brings it back to 1.1 |
| PetRules.Summon | src/hooks/useGameState.ts:711-763 | the summon transition: 100 gems for one new pet of the rolled rarity, active when it is the first |
| PetRules.SummonPet | src/hooks/useGameState.ts:711-763 | the handler computes the summon transition |
| PetRules.SummonEffect | src/hooks/useGameState.ts:713-761 | under 100 gems nothing changes; otherwise 100 gems buy one fresh pet, active only if it is the first |
| PetRules.SummonKeepsOneActive | src/hooks/useGameState.ts:750 | a summon keeps at most one pet active |
| PetRules.PetIdsDiffer | src/hooks/useGameState.ts:735 | summons at different times get different ids |
| PetRules.FeedPet | src/hooks/useGameState.ts:765-802 | the feed transition: 1000 coins, then every pet with the id fed |
| PetRules.FeedEffect | src/hooks/useGameState.ts:765-802 | under 1000 coins nothing changes; otherwise 1000 coins feed every pet with the id |
| PetRules.FeedWithoutMatchStillCharges | src/hooks/useGameState.ts:797-800 | feeding an unknown pet still costs 1000 coins |
| PetRules.FedPetBounds | src/hooks/useGameState.ts:773-789 | happiness +20 capped at 100, +50 experience, a level exactly when experience reaches 100 per level |
| PetRules.ActivatePet | src/hooks/useGameState.ts:804-819 | a pet is active exactly when its id is the argument |
| PetRules.ActivateLeavesOneActive | src/hooks/useGameState.ts:806-809 | with distinct ids at most one pet is active afterwards |
| PetRules.DuplicateIdsBothActive | src/hooks/useGameState.ts:806-809 | with duplicate ids two pets become active |
| PetRules.UsePetAbility | src/hooks/useGameState.ts:821-853 | the ability transition: rejected when the pet or ability is missing or cooling down, otherwise the use time is recorded |
| PetRules.UseAbility | src/hooks/useGameState.ts:838-840 | only abilities with the id record the use time |
| PetRules.UsedPets | src/hooks/useGameState.ts:834-845 | only pets with the id get their ability updated |
| PetRules.UseEffect | src/hooks/useGameState.ts:821-853 | rejected when the pet or ability is missing or cooling down; otherwise the use time is recorded |
| PetRules.UsedAbilityCoolsDown | src/hooks/useGameState.ts:828-832 | right after a use, the ability is rejected until its cooldown has passed |
| SocialRules.JoinGuild | src/hooks/useGameState.ts:856-901 | the join transition: the player becomes a member of a guild with the id |
| SocialRules.JoinGuildEffect | src/hooks/useGameState.ts:856-901 | the player becomes a plain member of a guild with that id, for free |
| SocialRules.CreateGuild | src/hooks/useGameState.ts:903-946 | the creation transition: 1000 gems for a new guild led by the player |
| SocialRules.CreateGuildEffect | src/hooks/useGameState.ts:903-946 | under 1000 gems nothing; otherwise 1000 gems make a level-1 guild led by the player |
| SocialRules.JoinTournament | src/hooks/useGameState.ts:949-985 | the entry transition: the fee of the first tournament with the id, the player appended |
| SocialRules.Entered | src/hooks/useGameState.ts:959-975 | every tournament with the id gets the player appended |
| SocialRules.JoinTournamentEffect | src/hooks/useGameState.ts:949-985 | accepted exactly when it exists and gems cover the fee; charges the fee and appends the player |
| SocialRules.JoinTournamentAt | src/hooks/useGameState.ts:951-983 | with distinct ids, joining charges that tournament's fee and appends the player to it |
| SocialRules.JoinTournamentTwice | src/hooks/useGameState.ts:951-983 | nothing stops a second entry, which pays again |
| SocialRules.SendGift | src/hooks/useGameState.ts:988-1030 | the gift transition: under ten gifts and with enough coins, the price charged and the gift counted |
| SocialRules.GiftCost | src/hooks/useGameState.ts:995-1010 | gift prices are non-negative |
| SocialRules.SendGiftEffect | src/hooks/useGameState.ts:988-1030 | accepted exactly under ten gifts and with enough coins; charges the price, counts the gift and 10 points |
| SocialRules.GiftsCapped | src/hooks/useGameState.ts:990 | no run of gifts takes the count past ten |
| SocialRules.UnknownGiftIsFreeButCounts | src/hooks/useGameState.ts:995-1028 | an unknown gift type is free yet counts |
| WorldEventRules.ParticipateWorldEvent | src/hooks/useGameState.ts:1095-1123 | the participation transition: floor(clickPower*100) added to an active event with the id |
| WorldEventRules.Contributed | src/hooks/useGameState.ts:1105-1114 | every event with the id gains the contribution globally and for the player |
| WorldEventRules.ParticipateEffect | src/hooks/useGameState.ts:1095-1123 | rejected when missing or inactive; otherwise adds floor(clickPower*100) and costs nothing |
| WorldEventRules.ClaimWorldEventReward | src/hooks/useGameState.ts:1125-1156 | the claim transition: the first event with the id, active or not, whose global progress reached the reward's threshold; an unclaimed reward there is credited and marked |
| WorldEventRules.ClaimIgnoresIsActive | src/hooks/useGameState.ts:1125-1134 | a claim on an event that is no longer active still credits the reward's coins and gems |
| WorldEventRules.MarkEventReward | src/hooks/useGameState.ts:1138-1145 | every event with the id gets the slot replaced by the claimed reward |
| WorldEventRules.ClaimEventEffect | src/hooks/useGameState.ts:1125-1156 | rejected claims change nothing; accepted ones credit coins and gems, not totals, and mark the reward |
| WorldEventRules.ClaimedSlot | src/hooks/useGameState.ts:1138-1145 | after a claim the slot it reads holds the claimed reward |
| WorldEventRules.ClaimEventTwiceIsNoOp | src/hooks/useGameState.ts:1132 | a reward is paid at most once |
| WorldEventRules.ClaimOutsideRewardsRejected | src/hooks/useGameState.ts:1130-1134 | a non-numeric or out-of-range index is rejected |
| ArtifactRules.Forge | src/hooks/useGameState.ts:1159-1212 | the forge transition: 500 gems for one new artifact of the rolled rarity |
| ArtifactRules.ForgeArtifact | src/hooks/useGameState.ts:1159-1212 | the handler computes the forge transition |
| ArtifactRules.ForgeEffect | src/hooks/useGameState.ts:1161-1210 | under 500 gems nothing; otherwise 500 gems buy one level-1 artifact with stats in [10,59] and [5,24] |
| ArtifactRules.NameTypeMayDiffer | src/hooks/useGameState.ts:1184-1187 | the name's type and the artifact's type are separate draws |
| ArtifactRules.EquipArtifact | src/hooks/useGameState.ts:1214-1229 | only artifacts with the id flip their equipped flag |
| ArtifactRules.EquipFlipsOnlyMatch | src/hooks/useGameState.ts:1216-1219 | the flag changes exactly on a match, and equipping twice restores the state |
| ArtifactRules.UpgradedStats | src/hooks/useGameState.ts:1247-1250 | each stat becomes floor(value*1.1) |
| ArtifactRules.Upgraded | src/hooks/useGameState.ts:1242-1254 | only artifacts with the id gain a level and raised stats |
| ArtifactRules.UpgradeArtifact | src/hooks/useGameState.ts:1231-1264 | the upgrade transition: 100 gems per level of the first artifact with the id, then a level and raised stats |
| ArtifactRules.UpgradeArtifactEffect | src/hooks/useGameState.ts:1231-1264 | accepted exactly when it exists and gems cover 100 per level; charges that |
| ArtifactRules.StatsNeverDrop | src/hooks/useGameState.ts:1249 | non-negative stats never drop, and stats of at least 10 rise |
| ArtifactRules.SmallStatsStay | src/hooks/useGameState.ts:1249 | stats below 10 gain nothing |
| ById.FindById | src/hooks/useGameState.ts:951 | the first record with the id, or none exactly when no record has it |
| ById.LastById | src/hooks/useGameState.ts:1300 | the last record with the id, as a map built from the list keeps it |
| ById.MergeById | src/hooks/useGameState.ts:1299-1304 | same length and ids as the defaults; each entry the saved record with that id or the default |
| ById.MergeEmpty | src/hooks/useGameState.ts:1299-1311 | merging nothing yields the defaults |
| ById.MergeRoundTrip | src/hooks/useGameState.ts:1299-1311 | saved records with the defaults' distinct ids merge back to themselves |
| InitialState.Initial | src/hooks/useGameState.ts:10-174 | the initial state, with the placeholder content and the clock reading taken from the environment |
| Persistence.Merge | src/hooks/useGameState.ts:309-328 | the load-time merge: each saved field over the initial one, nested records field by field, catalogs by id |
| Persistence.Load | src/hooks/useGameState.ts:304-336 | the session start: the merge when a save parsed, the initial state otherwise |
| Persistence.AutoSave | src/hooks/useGameState.ts:343-348 | with auto-save on the store holds the new state, otherwise it is unchanged |
| Persistence.EmptySaveLoadsInitial | src/hooks/useGameState.ts:304-336 | no save, or an empty one, loads the initial state |
| Persistence.LoadKeepsCatalogs | src/hooks/useGameState.ts:320-321 | loaded achievements and challenges follow the catalogs' ids and order |
| Persistence.SaveLoadRoundTrip | src/hooks/useGameState.ts:309-328 | a saved state whose lists match the catalogs loads back as itself |
| Persistence.AutoSaveRestores | src/hooks/useGameState.ts:343-348 | what auto-save stores loads back as the state |
| Persistence.MissingUpgradeLevelIsZero | src/hooks/useGameState.ts:312 | a level missing from an older save loads as 0 |
| Numbers.PickIndex | src/hooks/useGameState.ts:735-737 | floor(draw*n) is a valid index |
| Engine.Apply | src/hooks/useGameState.ts:351-1264 | one step: the transition of the handler or tick the action names |
| Engine.Inv | src/types/game.ts:1-70 | the invariant on the state: balances, totals, rates and rewards non-negative, energy within its cap, both bars below their thresholds, pet happiness in [0, 100] |
| Engine.Run | src/hooks/useGameState.ts:351-1264 | the state after a sequence of steps |
| Engine.InitialInv | src/hooks/useGameState.ts:10-175 | the initial state satisfies the invariant, with full energy |
| Engine.ClickKeepsInv | src/hooks/useGameState.ts:462-560 | a click keeps the invariant |
| Engine.UpgradeKeepsInv | src/hooks/useGameState.ts:562-620 | an upgrade purchase keeps the invariant |
| Engine.BuildingKeepsInv | src/hooks/useGameState.ts:622-667 | a building purchase keeps the invariant |
| Engine.PrestigeKeepsInv | src/hooks/useGameState.ts:669-708 | prestige and reset keep the invariant |
| Engine.PetsKeepInv | src/hooks/useGameState.ts:711-853 | the pet handlers keep the invariant |
| Engine.SocialKeepsInv | src/hooks/useGameState.ts:856-1030 | the guild, tournament and gift handlers keep the invariant |
| Engine.PassKeepsInv | src/hooks/useGameState.ts:1033-1092 | the battle-pass handlers keep the invariant |
| Engine.EventsKeepInv | src/hooks/useGameState.ts:1095-1156 | the world-event handlers keep the invariant |
| Engine.ArtifactsKeepInv | src/hooks/useGameState.ts:1159-1264 | the artifact handlers keep the invariant |
| Engine.TicksKeepInv | src/hooks/useGameState.ts:351-460 | the three ticks keep the invariant |
| Engine.ApplyKeepsInv | src/hooks/useGameState.ts:351-1264 | every step keeps the invariant |
| Engine.RunKeepsInv | src/hooks/useGameState.ts:351-1264 | any run of steps keeps it: coins and gems never go negative and energy stays in [0, maxEnergy] |

## Left out

- React plumbing: `useState`, `useEffect`, `useCallback`, `useRef` and the
  `setInterval` timers. Each tick body and handler is one direct call, and
  `Engine.Run` applies a sequence of them. The 1000 ms cadence and how the
  timers interleave are runtime concerns.
- Browser storage and JSON: `localStorage`, `JSON.parse` and
  `JSON.stringify`. A save is a `Snapshot` record whose fields are all
  optional. A missing or unparseable save is `None`. Saved fields of the
  wrong type, and `null` values, are not modelled.
- `toast` notifications and `console` output: they are outside the state.
- The mock generators, the random player id and name, the load time and the
  challenge catalog come from an `Env` parameter. Their content is not
  modelled. The challenge catalog is not part of this model.
- Aliasing: `buyUpgrade` and `buyBuilding` mutate nested objects shared with
  the previous state and with `initialGameState`. The model updates records
  cleanly instead. So it does not capture that a purchase also changes the
  initial state that later resets and prestiges start from. Double calls
  in React strict mode are not modelled either.
- Floating point: currencies, multipliers and powers are exact reals, so
  rounding in `0.1`, `1.05^n`, `1.15^n` and friends is not modelled.
  `Math.sqrt` is modelled as an exact integer square root of the floor,
  which gives the same point count.
- `parseInt` of a world-event reward id is an `Option<int>` argument, with
  `None` for NaN.
- WorldEventRules.MarkEventReward: when a second event shares the id and
  has fewer rewards than the index, JavaScript would grow its reward array
  with holes. The model leaves that event alone.
- PrestigeRules.DoPrestige reads `totalCoins` from the state it is applied
  to. The source reads it from the rendered state captured by the callback.
  The model does not capture that the two can differ.
- ClickRules.Click takes the streak after the click as an argument.
  `ClickRules.HandleClick` computes it from the `ClickTracker`.
- Pet ids come from the clock. Two summons in the same millisecond get the
  same id, so at most one active pet is not part of `Engine.Inv`.
  `PetRules.ActivateLeavesOneActive` proves it for distinct ids, and
  `PetRules.DuplicateIdsBothActive` shows it fails otherwise.
- Fields of `src/types/game.ts` that no handler reads or writes: trading,
  crafting, exploration, PvP, seasons, cosmetics, skills, quests, boosts,
  inventory and daily quests. Descriptions and icons are left out of the
  kept records.
- The presentation components, including the JSX of the upgrade shop and
  the buildings panel, the click button's cosmetic rolls and the particle
  system, are not part of this model.
- `Engine.Inv` leaves out progress and targets that no guard reads:
  challenge progress, tournament scores and guild contributions.
