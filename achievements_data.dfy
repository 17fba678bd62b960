/**
 * The static achievement catalog: 26 entries (clicking, earning, gems,
 * upgrading, prestige, special and two hidden ones). The loader and the
 * prestige reset read it as the default achievement list, and the progress
 * evaluator reads the coin and gem thresholds from its `target` fields.
 */
module AchievementsData {
  import opened Numbers
  import opened GameTypes

  /** The catalog. Every entry starts not completed and without progress. */
  function Catalog(): (r: seq<Achievement>)
    ensures |r| == 26
    ensures forall i :: 0 <= i < |r| ==> !r[i].completed && r[i].progress == None
  {
    [
      Achievement("first-click", "First Steps", 1, false, 10, RewardCoins, Clicking, Common, false, None),
      Achievement("hundred-clicks", "Click Enthusiast", 100, false, 100, RewardCoins, Clicking, Common, false, None),
      Achievement("thousand-clicks", "Click Master", 1000, false, 500, RewardCoins, Clicking, Rare, false, None),
      Achievement("ten-thousand-clicks", "Click Legend", 10000, false, 50, RewardGems, Clicking, Epic, false, None),
      Achievement("hundred-thousand-clicks", "Click God", 100000, false, 2, RewardMultiplier, Clicking, Legendary, false, None),
      Achievement("million-clicks", "Transcendent Clicker", 1000000, false, 1000, RewardPrestige, Clicking, Mythic, false, None),
      Achievement("hundred-coins", "Coin Collector", 100, false, 50, RewardCoins, Earning, Common, false, None),
      Achievement("thousand-coins", "Wealthy", 1000, false, 200, RewardCoins, Earning, Common, false, None),
      Achievement("million-coins", "Millionaire", 1000000, false, 100, RewardGems, Earning, Rare, false, None),
      Achievement("billion-coins", "Billionaire", 1000000000, false, 500, RewardGems, Earning, Epic, false, None),
      Achievement("trillion-coins", "Trillionaire", 1000000000000, false, 5, RewardMultiplier, Earning, Legendary, false, None),
      Achievement("first-gem", "Gem Hunter", 1, false, 100, RewardCoins, Earning, Common, false, None),
      Achievement("hundred-gems", "Gem Collector", 100, false, 1000, RewardCoins, Earning, Rare, false, None),
      Achievement("thousand-gems", "Gem Master", 1000, false, 3, RewardMultiplier, Earning, Epic, false, None),
      Achievement("first-upgrade", "Upgrader", 1, false, 25, RewardCoins, Upgrading, Common, false, None),
      Achievement("ten-upgrades", "Upgrade Enthusiast", 10, false, 500, RewardCoins, Upgrading, Common, false, None),
      Achievement("hundred-upgrades", "Upgrade Master", 100, false, 100, RewardGems, Upgrading, Rare, false, None),
      Achievement("first-prestige", "Ascension", 1, false, 1000, RewardCoins, PrestigeCategory, Rare, false, None),
      Achievement("ten-prestiges", "Reborn", 10, false, 200, RewardGems, PrestigeCategory, Epic, false, None),
      Achievement("critical-master", "Critical Master", 100, false, 50, RewardGems, Special, Rare, false, None),
      Achievement("lucky-streak", "Lucky Streak", 50, false, 25, RewardGems, Special, Rare, false, None),
      Achievement("energy-efficient", "Energy Efficient", 10000, false, 100, RewardGems, Special, Epic, false, None),
      Achievement("speed-demon", "Speed Demon", 100, false, 500, RewardCoins, Special, Epic, false, None),
      Achievement("idle-master", "Idle Master", 1000000, false, 200, RewardGems, Special, Legendary, false, None),
      Achievement("secret-combo", "???", 1, false, 1000, RewardGems, Special, Mythic, true, None),
      Achievement("time-traveler", "Time Traveler", 86400000, false, 10, RewardMultiplier, Special, Legendary, true, None)
    ]
  }

  /** Catalog ids are pairwise distinct, which the id-keyed merge relies on. */
  lemma CatalogIdsDistinct()
    ensures forall i, j :: 0 <= i < j < |Catalog()| ==> Catalog()[i].id != Catalog()[j].id
  {
  }

  /** Exactly two entries are hidden: `secret-combo` and `time-traveler`. */
  lemma CatalogHiddenEntries()
    ensures forall i :: 0 <= i < |Catalog()| ==>
      (Catalog()[i].hidden <==> Catalog()[i].id == "secret-combo" || Catalog()[i].id == "time-traveler")
    ensures |Catalog()| == 26
    ensures Catalog()[24].id == "secret-combo" && Catalog()[24].hidden
    ensures Catalog()[25].id == "time-traveler" && Catalog()[25].hidden
    ensures forall i :: 0 <= i < 24 ==> !Catalog()[i].hidden
  {
  }
}
