/**
 * Pets: summoning one for 100 gems (a weighted rarity roll, a random type
 * and name), feeding one for 1000 coins, choosing the active one, and
 * using a pet's ability, which then cools down.
 */
module PetRules {
  import opened Numbers
  import opened GameTypes
  import opened ById
  import opened RarityRoll

  const PetTypes: seq<string> := ["dragon", "phoenix", "unicorn", "wolf", "cat", "robot", "crystal", "ghost"]

  function PetKey(p: Pet): string { p.id }

  function AbilityKey(a: PetAbility): string { a.id }

  // ---- summonPet ----

  /** The four draws of a summon: the rarity in [0, 100), then the name's type and number, then the type. */
  datatype SummonDraws = SummonDraws(rarity: real, nameType: real, nameNumber: real, petType: real)

  predicate ValidSummonDraws(d: SummonDraws) {
    0.0 <= d.nameType < 1.0 && 0.0 <= d.nameNumber < 1.0 && 0.0 <= d.petType < 1.0
  }

  /** `'pet-' + Date.now()`. */
  function PetId(now: nat): string {
    "pet-" + NatToString(now)
  }

  /** A type and a number below 1000, as the template literal prints them. */
  function PetName(d: SummonDraws): string
    requires ValidSummonDraws(d)
  {
    PetTypes[PickIndex(d.nameType, |PetTypes|)] + " " + NatToString(PickIndex(d.nameNumber, 1000))
  }

  /** Every summoned pet starts with this ability, never used. */
  const CoinBoost := PetAbility("ability-1", "Coin Boost", 300000, 0)

  function SummonedPet(prev: GameState, now: nat, d: SummonDraws, rarity: Rarity): Pet
    requires ValidSummonDraws(d)
  {
    Pet(PetId(now), PetName(d), PetTypes[PickIndex(d.petType, |PetTypes|)], 1, 0, rarity,
        [CoinBoost], |prev.pets| == 0, 100, now)
  }

  /** `summonPet` as a transition. */
  function Summon(prev: GameState, now: nat, d: SummonDraws): GameState
    requires ValidSummonDraws(d)
  {
    if prev.gems < 100.0 then prev
    else prev.(gems := prev.gems - 100.0, pets := prev.pets + [SummonedPet(prev, now, d, RarityFor(d.rarity))])
  }

  /** The handler: the gem guard, then the cumulative-weight loop, then the new pet. */
  method SummonPet(prev: GameState, now: nat, d: SummonDraws) returns (next: GameState)
    requires ValidSummonDraws(d)
    ensures next == Summon(prev, now, d)
  {
    if prev.gems < 100.0 {
      return prev;
    }
    var selectedRarity := PickRarity(d.rarity);
    var newPet := SummonedPet(prev, now, d, selectedRarity);
    next := prev.(gems := prev.gems - 100.0, pets := prev.pets + [newPet]);
  }

  /** At most one pet is active. */
  predicate AtMostOneActive(pets: seq<Pet>) {
    forall i, j :: 0 <= i < |pets| && 0 <= j < |pets| && pets[i].isActive && pets[j].isActive ==> i == j
  }

  /**
   * A summon below 100 gems changes nothing. Otherwise it takes 100 gems
   * and appends one pet of level 1, full happiness, the rolled rarity and
   * a never-used ability, which is active exactly when it is the first pet.
   */
  lemma SummonEffect(s: GameState, now: nat, d: SummonDraws)
    requires ValidSummonDraws(d)
    ensures s.gems < 100.0 ==> Summon(s, now, d) == s
    ensures s.gems >= 100.0 ==>
      var r := Summon(s, now, d);
      && r.gems == s.gems - 100.0
      && |r.pets| == |s.pets| + 1 && r.pets[..|s.pets|] == s.pets
      && var p := r.pets[|s.pets|];
      && p.id == PetId(now) && p.level == 1 && p.experience == 0 && p.happiness == 100
      && p.rarity == RarityFor(d.rarity) && p.abilities == [CoinBoost] && p.lastFed == now
      && (p.isActive <==> s.pets == [])
      && p.petType in PetTypes
      && r == s.(gems := r.gems, pets := r.pets)
  {
  }

  /** A summon keeps at most one pet active: only the first pet starts active. */
  lemma SummonKeepsOneActive(s: GameState, now: nat, d: SummonDraws)
    requires ValidSummonDraws(d) && AtMostOneActive(s.pets)
    ensures AtMostOneActive(Summon(s, now, d).pets)
  {
  }

  /** Summons at different times get different ids. */
  lemma PetIdsDiffer(a: nat, b: nat)
    requires a != b
    ensures PetId(a) != PetId(b)
  {
    if PetId(a) == PetId(b) {
      assert NatToString(a) == PetId(a)[4..] == PetId(b)[4..] == NatToString(b);
      NatToStringInjective(a, b);
    }
  }

  // ---- feedPet ----

  /** One feeding: +20 happiness capped at 100, +50 experience, a level when it reaches level * 100. */
  function FedPet(p: Pet, now: int): Pet {
    var newExperience := p.experience + 50;
    p.(happiness := if p.happiness + 20 < 100 then p.happiness + 20 else 100,
       experience := newExperience,
       level := if newExperience >= p.level * 100 then p.level + 1 else p.level,
       lastFed := now)
  }

  /** `feedPet`: the 1000 coins are charged whether or not a pet has that id. */
  function FeedPet(prev: GameState, petId: string, now: int): GameState {
    if prev.coins < 1000.0 then prev
    else prev.(coins := prev.coins - 1000.0,
               pets := seq(|prev.pets|, i requires 0 <= i < |prev.pets| =>
                 if prev.pets[i].id == petId then FedPet(prev.pets[i], now) else prev.pets[i]))
  }

  /**
   * A feeding below 1000 coins changes nothing; otherwise it takes 1000
   * coins, feeds every pet with the id and leaves the others as they were.
   */
  lemma FeedEffect(s: GameState, petId: string, now: int)
    ensures s.coins < 1000.0 ==> FeedPet(s, petId, now) == s
    ensures s.coins >= 1000.0 ==>
      var r := FeedPet(s, petId, now);
      && r.coins == s.coins - 1000.0
      && |r.pets| == |s.pets|
      && (forall i :: 0 <= i < |s.pets| ==>
            r.pets[i] == if s.pets[i].id == petId then FedPet(s.pets[i], now) else s.pets[i])
      && r == s.(coins := r.coins, pets := r.pets)
  {
  }

  /** Feeding a pet id that matches nothing still costs 1000 coins and changes nothing else. */
  lemma FeedWithoutMatchStillCharges(s: GameState, petId: string, now: int)
    requires s.coins >= 1000.0
    requires forall i :: 0 <= i < |s.pets| ==> s.pets[i].id != petId
    ensures FeedPet(s, petId, now) == s.(coins := s.coins - 1000.0)
  {
    assert FeedPet(s, petId, now).pets == s.pets;
  }

  /**
   * A feeding keeps happiness within [0, 100] and raises it by 20 up to the
   * cap, adds 50 experience, and gains a level exactly when the experience
   * reaches 100 per level.
   */
  lemma FedPetBounds(p: Pet, now: int)
    requires 0 <= p.happiness <= 100
    ensures var q := FedPet(p, now);
      && 0 <= q.happiness <= 100 && q.happiness >= p.happiness
      && q.happiness == (if p.happiness <= 80 then p.happiness + 20 else 100)
      && q.experience == p.experience + 50
      && (q.level == p.level + 1 <==> p.experience + 50 >= p.level * 100)
      && (q.level == p.level <==> p.experience + 50 < p.level * 100)
      && q.isActive == p.isActive && q.id == p.id && q.abilities == p.abilities
  {
  }

  // ---- activatePet ----

  /** `activatePet`: every pet becomes active exactly when its id is the argument. */
  function ActivatePet(prev: GameState, petId: string): (r: GameState)
    ensures |r.pets| == |prev.pets|
    ensures forall i :: 0 <= i < |r.pets| ==> r.pets[i] == prev.pets[i].(isActive := prev.pets[i].id == petId)
    ensures r == prev.(pets := r.pets)
  {
    prev.(pets := seq(|prev.pets|, i requires 0 <= i < |prev.pets| => prev.pets[i].(isActive := prev.pets[i].id == petId)))
  }

  /**
   * With distinct pet ids, activation leaves at most one pet active, and
   * exactly the one with the id when there is one.
   */
  lemma ActivateLeavesOneActive(s: GameState, petId: string)
    requires DistinctIds(s.pets, PetKey)
    ensures AtMostOneActive(ActivatePet(s, petId).pets)
    ensures forall i :: 0 <= i < |s.pets| ==> (ActivatePet(s, petId).pets[i].isActive <==> s.pets[i].id == petId)
  {
    var r := ActivatePet(s, petId);
    forall i, j | 0 <= i < |r.pets| && 0 <= j < |r.pets| && r.pets[i].isActive && r.pets[j].isActive
      ensures i == j
    {
      if i < j {
        assert false;
      } else if j < i {
        assert false;
      }
    }
  }

  /** Two pets with the same id are both activated: the one-active rule rests on distinct ids. */
  lemma DuplicateIdsBothActive(s: GameState)
    requires |s.pets| == 2 && s.pets[0].id == s.pets[1].id
    ensures !AtMostOneActive(ActivatePet(s, s.pets[0].id).pets)
  {
    var r := ActivatePet(s, s.pets[0].id);
    assert r.pets[0].isActive && r.pets[1].isActive;
  }

  // ---- usePetAbility ----

  /** The pet's abilities after using the one with that id at `now`. */
  function UseAbility(abilities: seq<PetAbility>, abilityId: string, now: int): (r: seq<PetAbility>)
    ensures |r| == |abilities|
    ensures forall i :: 0 <= i < |r| ==>
      r[i] == if abilities[i].id == abilityId then abilities[i].(lastUsed := now) else abilities[i]
  {
    seq(|abilities|, i requires 0 <= i < |abilities| =>
      if abilities[i].id == abilityId then abilities[i].(lastUsed := now) else abilities[i])
  }

  /** The pets after the use: every pet with the id gets its ability marked used. */
  function UsedPets(pets: seq<Pet>, petId: string, abilityId: string, now: int): (r: seq<Pet>)
    ensures |r| == |pets|
    ensures forall i :: 0 <= i < |r| ==>
      r[i] == if pets[i].id == petId then pets[i].(abilities := UseAbility(pets[i].abilities, abilityId, now)) else pets[i]
  {
    seq(|pets|, i requires 0 <= i < |pets| =>
      if pets[i].id == petId then pets[i].(abilities := UseAbility(pets[i].abilities, abilityId, now)) else pets[i])
  }

  /** The ability a use would find: the first pet with the id, then its first ability with the id. */
  function FindAbility(pets: seq<Pet>, petId: string, abilityId: string): Option<PetAbility> {
    match FindById(pets, PetKey, petId)
    case None => None
    case Some(pet) => FindById(pet.abilities, AbilityKey, abilityId)
  }

  /** `usePetAbility`: rejected when the pet or the ability is missing, or while it cools down. */
  function UsePetAbility(prev: GameState, petId: string, abilityId: string, now: int): GameState {
    match FindAbility(prev.pets, petId, abilityId)
    case None => prev
    case Some(ability) =>
      if now - ability.lastUsed < ability.cooldown then prev
      else prev.(pets := UsedPets(prev.pets, petId, abilityId, now))
  }

  /**
   * A use goes through exactly when the ability exists and its cooldown has
   * passed, and then it records `now` as the last use and changes nothing
   * but the pets.
   */
  lemma UseEffect(s: GameState, petId: string, abilityId: string, now: int)
    ensures var found := FindAbility(s.pets, petId, abilityId);
      var r := UsePetAbility(s, petId, abilityId, now);
      && (found.None? || now - found.value.lastUsed < found.value.cooldown ==> r == s)
      && (found.Some? && now - found.value.lastUsed >= found.value.cooldown ==>
            r == s.(pets := UsedPets(s.pets, petId, abilityId, now)))
  {
  }

  /**
   * After a use, the same ability is rejected until its cooldown has passed:
   * any later use at a time less than `cooldown` after it changes nothing.
   */
  lemma UsedAbilityCoolsDown(s: GameState, petId: string, abilityId: string, now: int, later: int)
    requires FindAbility(s.pets, petId, abilityId).Some?
    requires var a := FindAbility(s.pets, petId, abilityId).value; now - a.lastUsed >= a.cooldown
    requires later - now < FindAbility(s.pets, petId, abilityId).value.cooldown
    ensures var r := UsePetAbility(s, petId, abilityId, now);
      UsePetAbility(r, petId, abilityId, later) == r
  {
    var r := UsePetAbility(s, petId, abilityId, now);
    var pets := UsedPets(s.pets, petId, abilityId, now);
    assert r.pets == pets;
    IndexSameKeys(s.pets, pets, PetKey, PetKey, petId);
    var k := IndexById(s.pets, PetKey, petId).value;
    var pet := s.pets[k];
    var used := pets[k];
    assert FindById(pets, PetKey, petId) == Some(used);
    assert used.abilities == UseAbility(pet.abilities, abilityId, now);
    IndexSameKeys(pet.abilities, used.abilities, AbilityKey, AbilityKey, abilityId);
    var j := IndexById(pet.abilities, AbilityKey, abilityId).value;
    assert FindById(used.abilities, AbilityKey, abilityId) == Some(used.abilities[j]);
    assert used.abilities[j] == pet.abilities[j].(lastUsed := now);
  }
}
