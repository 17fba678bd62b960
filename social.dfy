/**
 * Guilds, tournaments and gifts. Joining a guild installs a fixed guild
 * record with the given id; creating one costs 1000 gems and makes the
 * player its leader; joining a tournament costs its entry fee in gems and
 * appends the player to its participants; a gift costs coins by its type,
 * at most ten gifts being sent.
 */
module SocialRules {
  import opened Numbers
  import opened GameTypes
  import opened ById

  function TournamentKey(t: Tournament): string { t.id }

  // ---- guilds ----

  /** The fixed guild a join installs: the player as a member, and its leader. */
  function MockGuild(prev: GameState, guildId: string, now: int): Guild {
    Guild(guildId, "Les Clickers Légendaires", "Une guilde pour les meilleurs clickers!", 5,
          [GuildMember(prev.player.id, prev.player.username, Member, 0.0, now, now),
           GuildMember("leader-1", "GuildMaster", Leader, 1000000.0, now - 86400000, now)],
          50, 5000000.0, 100000.0, now - 86400000, true, 1, 0.0)
  }

  /** `joinGuild`: free, always accepted, replacing any guild the player was in. */
  function JoinGuild(prev: GameState, guildId: string, now: int): GameState {
    prev.(guild := Some(MockGuild(prev, guildId, now)))
  }

  /** The player is a member of the guild they join. */
  predicate IsMemberOf(p: Player, g: Guild) {
    exists i :: 0 <= i < |g.members| && g.members[i].playerId == p.id
  }

  /**
   * Joining puts the player, as a plain member, into a guild with the
   * requested id, whatever guild they had, and costs nothing.
   */
  lemma JoinGuildEffect(s: GameState, guildId: string, now: int)
    ensures var r := JoinGuild(s, guildId, now);
      && r.guild.Some? && r.guild.value.id == guildId
      && IsMemberOf(s.player, r.guild.value)
      && r.guild.value.members[0].role == Member
      && |r.guild.value.members| <= r.guild.value.maxMembers
      && r == s.(guild := r.guild)
  {
    assert JoinGuild(s, guildId, now).guild.value.members[0].playerId == s.player.id;
  }

  /** `'guild-' + Date.now()`. */
  function GuildId(now: nat): string {
    "guild-" + NatToString(now)
  }

  /** `createGuild`: 1000 gems for a new guild led by the player and holding their power. */
  function CreateGuild(prev: GameState, name: string, description: string, now: nat): GameState {
    if prev.gems < 1000.0 then prev
    else prev.(gems := prev.gems - 1000.0,
               guild := Some(Guild(GuildId(now), name, description, 1,
                                   [GuildMember(prev.player.id, prev.player.username, Leader, 0.0, now, now)],
                                   20, prev.player.totalPower, 0.0, now, true, 1, 0.0)))
  }

  /**
   * A creation below 1000 gems changes nothing; otherwise it takes 1000
   * gems and installs a guild of level 1 with the given name whose only
   * member, the player, is its leader.
   */
  lemma CreateGuildEffect(s: GameState, name: string, description: string, now: nat)
    ensures s.gems < 1000.0 ==> CreateGuild(s, name, description, now) == s
    ensures s.gems >= 1000.0 ==>
      var r := CreateGuild(s, name, description, now);
      && r.gems == s.gems - 1000.0
      && r.guild.Some? && r.guild.value.name == name && r.guild.value.level == 1
      && |r.guild.value.members| == 1 && r.guild.value.members[0].playerId == s.player.id
      && r.guild.value.members[0].role == Leader
      && r.guild.value.totalPower == s.player.totalPower
      && r == s.(gems := r.gems, guild := r.guild)
  {
  }

  // ---- tournaments ----

  /** The participant record the player enters a tournament with. */
  function Entrant(p: Player, t: Tournament): TournamentParticipant {
    TournamentParticipant(p.id, p.username, 0.0, |t.participants| + 1)
  }

  /** Every tournament with the id gets the player appended. */
  function Entered(ts: seq<Tournament>, tournamentId: string, p: Player): (r: seq<Tournament>)
    ensures |r| == |ts|
    ensures forall i :: 0 <= i < |r| ==>
      r[i] == if ts[i].id == tournamentId then ts[i].(participants := ts[i].participants + [Entrant(p, ts[i])]) else ts[i]
  {
    seq(|ts|, i requires 0 <= i < |ts| =>
      if ts[i].id == tournamentId then ts[i].(participants := ts[i].participants + [Entrant(p, ts[i])]) else ts[i])
  }

  /**
   * `joinTournament`: rejected when no tournament has the id or the gems do
   * not cover the first one's entry fee. Neither the status, the maximum
   * number of participants nor an earlier entry is checked.
   */
  function JoinTournament(prev: GameState, tournamentId: string): GameState {
    match FindById(prev.tournaments, TournamentKey, tournamentId)
    case None => prev
    case Some(t) =>
      if prev.gems < t.entryFee then prev
      else prev.(gems := prev.gems - t.entryFee, tournaments := Entered(prev.tournaments, tournamentId, prev.player))
  }

  /**
   * A join goes through exactly when the tournament exists and the gems
   * cover its fee; it then charges the fee and appends the player, ranked
   * after the existing participants.
   */
  lemma JoinTournamentEffect(s: GameState, tournamentId: string)
    ensures var found := FindById(s.tournaments, TournamentKey, tournamentId);
      var r := JoinTournament(s, tournamentId);
      && (found.None? || s.gems < found.value.entryFee ==> r == s)
      && (found.Some? && s.gems >= found.value.entryFee ==>
            && r.gems == s.gems - found.value.entryFee
            && r.tournaments == Entered(s.tournaments, tournamentId, s.player)
            && r == s.(gems := r.gems, tournaments := r.tournaments))
  {
  }

  /**
   * With distinct ids, joining tournament i with enough gems charges its fee
   * and appends the player to it, ranked after its participants.
   */
  lemma JoinTournamentAt(s: GameState, i: nat)
    requires i < |s.tournaments| && DistinctIds(s.tournaments, TournamentKey)
    requires s.gems >= s.tournaments[i].entryFee
    ensures var t := s.tournaments[i];
      var r := JoinTournament(s, t.id);
      && r.gems == s.gems - t.entryFee
      && |r.tournaments| == |s.tournaments| && DistinctIds(r.tournaments, TournamentKey)
      && r.tournaments[i] == t.(participants := t.participants + [Entrant(s.player, t)])
      && r.player == s.player
  {
    var t := s.tournaments[i];
    FirstOfDistinct(s.tournaments, TournamentKey, i);
    var r := JoinTournament(s, t.id);
    assert r.tournaments == Entered(s.tournaments, t.id, s.player);
    assert forall j :: 0 <= j < |r.tournaments| ==> r.tournaments[j].id == s.tournaments[j].id;
  }

  /**
   * Nothing stops a second entry: joining twice with enough gems lists the
   * player twice and pays the fee twice.
   */
  lemma JoinTournamentTwice(s: GameState, i: nat)
    requires i < |s.tournaments| && DistinctIds(s.tournaments, TournamentKey)
    requires s.gems >= 2.0 * s.tournaments[i].entryFee && s.tournaments[i].entryFee >= 0.0
    ensures var id := s.tournaments[i].id;
      var r := JoinTournament(JoinTournament(s, id), id);
      && r.gems == s.gems - 2.0 * s.tournaments[i].entryFee
      && r.tournaments[i].participants == s.tournaments[i].participants + [
           TournamentParticipant(s.player.id, s.player.username, 0.0, |s.tournaments[i].participants| + 1),
           TournamentParticipant(s.player.id, s.player.username, 0.0, |s.tournaments[i].participants| + 2)]
  {
    JoinTournamentAt(s, i);
    var once := JoinTournament(s, s.tournaments[i].id);
    JoinTournamentAt(once, i);
  }

  // ---- gifts ----

  /** The price of a gift, in coins: energy 100, coins 1000, gems 10, anything else nothing. */
  function GiftCost(giftType: string): (c: real)
    ensures c >= 0.0
  {
    match giftType
    case "energy" => 100.0
    case "coins" => 1000.0
    case "gems" => 10.0
    case _ => 0.0
  }

  /** `sendGift`: refused from the tenth gift on, or when the coins do not cover the price. */
  function SendGift(prev: GameState, playerId: string, giftType: string): GameState {
    if prev.socialFeatures.giftsSent >= 10 then prev
    else if prev.coins < GiftCost(giftType) then prev
    else prev.(coins := prev.coins - GiftCost(giftType),
               socialFeatures := prev.socialFeatures.(giftsSent := prev.socialFeatures.giftsSent + 1,
                                                      socialPoints := prev.socialFeatures.socialPoints + 10))
  }

  /**
   * A gift goes through exactly when fewer than ten were sent and the coins
   * cover its price; it then takes the price, counts one gift and ten
   * social points, and leaves coins non-negative.
   */
  lemma SendGiftEffect(s: GameState, playerId: string, giftType: string)
    ensures var r := SendGift(s, playerId, giftType);
      var accepted := s.socialFeatures.giftsSent < 10 && s.coins >= GiftCost(giftType);
      && (!accepted ==> r == s)
      && (accepted ==>
            && r.coins == s.coins - GiftCost(giftType) && r.coins >= 0.0
            && r.socialFeatures.giftsSent == s.socialFeatures.giftsSent + 1
            && r.socialFeatures.socialPoints == s.socialFeatures.socialPoints + 10
            && r.socialFeatures.(giftsSent := s.socialFeatures.giftsSent, socialPoints := s.socialFeatures.socialPoints)
               == s.socialFeatures
            && r == s.(coins := r.coins, socialFeatures := r.socialFeatures))
  {
  }

  /** No sequence of gifts takes the count past ten. */
  lemma {:induction false} GiftsCapped(s: GameState, gifts: seq<string>)
    requires s.socialFeatures.giftsSent <= 10
    ensures SendGifts(s, gifts).socialFeatures.giftsSent <= 10
    ensures SendGifts(s, gifts).socialFeatures.giftsSent <= s.socialFeatures.giftsSent + |gifts|
    decreases |gifts|
  {
    if gifts != [] {
      GiftsCapped(SendGift(s, "", gifts[0]), gifts[1..]);
    }
  }

  /** A run of gifts of the given types, sent one after the other. */
  function SendGifts(s: GameState, gifts: seq<string>): GameState
    decreases |gifts|
  {
    if gifts == [] then s else SendGifts(SendGift(s, "", gifts[0]), gifts[1..])
  }

  /** A gift of an unknown type is free yet counts as one of the ten, and earns the social points. */
  lemma UnknownGiftIsFreeButCounts(s: GameState, giftType: string)
    requires giftType != "energy" && giftType != "coins" && giftType != "gems"
    requires s.socialFeatures.giftsSent < 10 && s.coins >= 0.0
    ensures var r := SendGift(s, "", giftType);
      r.coins == s.coins && r.socialFeatures.giftsSent == s.socialFeatures.giftsSent + 1
      && r.socialFeatures.socialPoints == s.socialFeatures.socialPoints + 10
  {
  }
}
