/**
 * Artifacts: forging one for 500 gems (a weighted rarity roll, a random
 * type, two random stats), toggling whether one is equipped, and upgrading
 * one for 100 gems per level, which raises its stats by 10%, rounded down.
 */
module ArtifactRules {
  import opened Numbers
  import opened GameTypes
  import opened ById
  import opened RarityRoll

  const ArtifactTypes: seq<ArtifactType> := [Weapon, Armor, Accessory, Relic]

  function ArtifactTypeName(t: ArtifactType): string {
    match t
    case Weapon => "weapon"
    case Armor => "armor"
    case Accessory => "accessory"
    case Relic => "relic"
  }

  function ArtifactKey(a: Artifact): string { a.id }

  // ---- forgeArtifact ----

  /**
   * The five draws of a forge: the rarity in [0, 100), then the type in the
   * name, the type itself, and the two stat values, each in [0, 1).
   */
  datatype ForgeDraws = ForgeDraws(rarity: real, nameType: real, artifactType: real, clickPower: real, coinMultiplier: real)

  predicate ValidForgeDraws(d: ForgeDraws) {
    && 0.0 <= d.nameType < 1.0 && 0.0 <= d.artifactType < 1.0
    && 0.0 <= d.clickPower < 1.0 && 0.0 <= d.coinMultiplier < 1.0
  }

  /** `'artifact-' + Date.now()`. */
  function ArtifactId(now: nat): string {
    "artifact-" + NatToString(now)
  }

  /** The new artifact: level 1, unequipped, a flat click-power stat and a percentage coin stat. */
  function ForgedArtifact(now: nat, d: ForgeDraws, rarity: Rarity): Artifact
    requires ValidForgeDraws(d)
  {
    Artifact(ArtifactId(now),
             RarityName(rarity) + " " + ArtifactTypeName(ArtifactTypes[PickIndex(d.nameType, 4)]),
             ArtifactTypes[PickIndex(d.artifactType, 4)],
             rarity, 1,
             [ArtifactStat(ClickPowerStat, PickIndex(d.clickPower, 50) + 10, false),
              ArtifactStat(CoinMultiplierStat, PickIndex(d.coinMultiplier, 20) + 5, true)],
             false)
  }

  /** `forgeArtifact` as a transition. */
  function Forge(prev: GameState, now: nat, d: ForgeDraws): GameState
    requires ValidForgeDraws(d)
  {
    if prev.gems < 500.0 then prev
    else prev.(gems := prev.gems - 500.0, artifacts := prev.artifacts + [ForgedArtifact(now, d, RarityFor(d.rarity))])
  }

  /** The handler: the gem guard, then the cumulative-weight loop, then the new artifact. */
  method ForgeArtifact(prev: GameState, now: nat, d: ForgeDraws) returns (next: GameState)
    requires ValidForgeDraws(d)
    ensures next == Forge(prev, now, d)
  {
    if prev.gems < 500.0 {
      return prev;
    }
    var selectedRarity := PickRarity(d.rarity);
    var newArtifact := ForgedArtifact(now, d, selectedRarity);
    next := prev.(gems := prev.gems - 500.0, artifacts := prev.artifacts + [newArtifact]);
  }

  /**
   * A forge below 500 gems changes nothing. Otherwise it takes 500 gems and
   * appends one unequipped artifact of level 1 with the rolled rarity, a
   * click-power stat in [10, 59] and a coin-multiplier percentage in [5, 24].
   */
  lemma ForgeEffect(s: GameState, now: nat, d: ForgeDraws)
    requires ValidForgeDraws(d)
    ensures s.gems < 500.0 ==> Forge(s, now, d) == s
    ensures s.gems >= 500.0 ==>
      var r := Forge(s, now, d);
      && r.gems == s.gems - 500.0
      && |r.artifacts| == |s.artifacts| + 1 && r.artifacts[..|s.artifacts|] == s.artifacts
      && var a := r.artifacts[|s.artifacts|];
      && a.id == ArtifactId(now) && a.level == 1 && !a.isEquipped && a.rarity == RarityFor(d.rarity)
      && |a.stats| == 2
      && a.stats[0].statType == ClickPowerStat && !a.stats[0].percentage && 10 <= a.stats[0].value <= 59
      && a.stats[1].statType == CoinMultiplierStat && a.stats[1].percentage && 5 <= a.stats[1].value <= 24
      && r == s.(gems := r.gems, artifacts := r.artifacts)
  {
  }

  /**
   * The name's type and the artifact's type are two separate draws, so a
   * forged artifact can be named after another type than its own.
   */
  lemma NameTypeMayDiffer(now: nat)
    ensures var a := ForgedArtifact(now, ForgeDraws(0.0, 0.0, 0.5, 0.0, 0.0), Common);
      a.name == "common weapon" && a.artifactType == Accessory
  {
    assert PickIndex(0.0, 4) == 0;
    assert PickIndex(0.5, 4) == 2;
  }

  // ---- equipArtifact ----

  /** `equipArtifact`: every artifact with the id flips its equipped flag. */
  function EquipArtifact(prev: GameState, artifactId: string): (r: GameState)
    ensures |r.artifacts| == |prev.artifacts|
    ensures forall i :: 0 <= i < |r.artifacts| ==>
      r.artifacts[i] == prev.artifacts[i].(isEquipped := if prev.artifacts[i].id == artifactId
                                                          then !prev.artifacts[i].isEquipped
                                                          else prev.artifacts[i].isEquipped)
    ensures r == prev.(artifacts := r.artifacts)
  {
    prev.(artifacts := seq(|prev.artifacts|, i requires 0 <= i < |prev.artifacts| =>
      prev.artifacts[i].(isEquipped := if prev.artifacts[i].id == artifactId
                                       then !prev.artifacts[i].isEquipped
                                       else prev.artifacts[i].isEquipped)))
  }

  /**
   * Equipping flips the flag of the artifacts with the id and of no other;
   * doing it twice restores the state.
   */
  lemma EquipFlipsOnlyMatch(s: GameState, artifactId: string)
    ensures var r := EquipArtifact(s, artifactId);
      forall i :: 0 <= i < |s.artifacts| ==>
        (r.artifacts[i].isEquipped != s.artifacts[i].isEquipped <==> s.artifacts[i].id == artifactId)
        && r.artifacts[i].(isEquipped := s.artifacts[i].isEquipped) == s.artifacts[i]
    ensures EquipArtifact(EquipArtifact(s, artifactId), artifactId) == s
  {
    var r2 := EquipArtifact(EquipArtifact(s, artifactId), artifactId);
    assert r2.artifacts == s.artifacts;
  }

  // ---- upgradeArtifact ----

  /** `Math.floor(value * 1.1)` on each stat. */
  function UpgradedStats(stats: seq<ArtifactStat>): (r: seq<ArtifactStat>)
    ensures |r| == |stats|
    ensures forall i :: 0 <= i < |r| ==> r[i] == stats[i].(value := (stats[i].value as real * 1.1).Floor)
  {
    seq(|stats|, i requires 0 <= i < |stats| => stats[i].(value := (stats[i].value as real * 1.1).Floor))
  }

  /** Every artifact with the id gains a level and its raised stats. */
  function Upgraded(artifacts: seq<Artifact>, artifactId: string): (r: seq<Artifact>)
    ensures |r| == |artifacts|
    ensures forall i :: 0 <= i < |r| ==>
      r[i] == if artifacts[i].id == artifactId
              then artifacts[i].(level := artifacts[i].level + 1, stats := UpgradedStats(artifacts[i].stats))
              else artifacts[i]
  {
    seq(|artifacts|, i requires 0 <= i < |artifacts| =>
      if artifacts[i].id == artifactId
      then artifacts[i].(level := artifacts[i].level + 1, stats := UpgradedStats(artifacts[i].stats))
      else artifacts[i])
  }

  /** The price of an upgrade: 100 gems per level of the first artifact with the id. */
  function UpgradeCost(a: Artifact): real {
    (a.level * 100) as real
  }

  /** `upgradeArtifact`: rejected when no artifact has the id or the gems do not cover the price. */
  function UpgradeArtifact(prev: GameState, artifactId: string): GameState {
    match FindById(prev.artifacts, ArtifactKey, artifactId)
    case None => prev
    case Some(a) =>
      if prev.gems < UpgradeCost(a) then prev
      else prev.(gems := prev.gems - UpgradeCost(a), artifacts := Upgraded(prev.artifacts, artifactId))
  }

  /**
   * An upgrade goes through exactly when the artifact exists and the gems
   * cover 100 per level; it then charges that, leaving gems non-negative,
   * raises the level of the artifacts with the id by one and their stats
   * by 10% rounded down.
   */
  lemma UpgradeArtifactEffect(s: GameState, artifactId: string)
    ensures var found := FindById(s.artifacts, ArtifactKey, artifactId);
      var r := UpgradeArtifact(s, artifactId);
      && (found.None? || s.gems < (found.value.level * 100) as real ==> r == s)
      && (found.Some? && s.gems >= (found.value.level * 100) as real ==>
            && r.gems == s.gems - (found.value.level * 100) as real && r.gems >= 0.0
            && r.artifacts == Upgraded(s.artifacts, artifactId)
            && r == s.(gems := r.gems, artifacts := r.artifacts))
  {
  }

  /**
   * A non-negative stat never drops through an upgrade, and one of at
   * least 10 strictly rises.
   */
  lemma StatsNeverDrop(stats: seq<ArtifactStat>)
    requires forall i :: 0 <= i < |stats| ==> stats[i].value >= 0
    ensures forall i :: 0 <= i < |stats| ==> UpgradedStats(stats)[i].value >= stats[i].value
    ensures forall i :: 0 <= i < |stats| && stats[i].value >= 10 ==> UpgradedStats(stats)[i].value > stats[i].value
  {
    forall i | 0 <= i < |stats|
      ensures UpgradedStats(stats)[i].value >= stats[i].value
      ensures stats[i].value >= 10 ==> UpgradedStats(stats)[i].value > stats[i].value
    {
      var v := stats[i].value;
      assert v as real * 1.1 == v as real + v as real / 10.0;
      if v >= 10 {
        assert v as real * 1.1 >= (v + 1) as real;
      }
    }
  }

  /** Small stats stay put: a stat below 10 gains nothing from an upgrade. */
  lemma SmallStatsStay(v: int)
    requires 0 <= v < 10
    ensures (v as real * 1.1).Floor == v
  {
    assert v as real <= v as real * 1.1 < (v + 1) as real;
  }
}
