/**
 * The per-guild settings document (the `Guild` collection): its fields, the
 * defaults a freshly upserted document receives, and the bet-limit
 * invariant the settings form is meant to keep.
 */
module GuildModel {
  import opened Wrappers

  /**
   * The numeric settings of a guild. `initMultiplier` is kept in hundredths,
   * which is exact for every value the settings form accepts.
   */
  datatype Economy = Economy(
    initBalance: int, maxBet: int, minBet: int, xpLevel: int,
    initBalloon: int, initMobile: int, initBike: int, initCar: int, initCastle: int,
    initMultiplier: int, initLevel: int,
    maxBetLvl5: int, maxBetLvl15: int, maxBetLvl35: int,
    maxBetLvl75: int, maxBetLvl150: int, maxBetLvl300: int,
    rewardWork: int, rewardDaily: int, rewardWeekly: int)

  /** One document of the `Guild` collection; `None` channels are stored as `null`. */
  datatype GuildRecord = GuildRecord(
    guildId: string, lang: string, economyType: bool,
    commandChannel: Option<string>, logChannel: Option<string>,
    economy: Economy,
    levelStatus: bool, itemStatus: bool, vipServer: bool,
    commandsNotUsed: seq<string>)

  /**
   * The document an upsert creates for an absent guild: the schema's fixed
   * defaults, with the numeric defaults taken from the guild configuration.
   */
  function NewGuild(guildId: string, defaults: Economy): GuildRecord
  {
    GuildRecord(guildId, "en", false, None, None, defaults, true, true, false, [])
  }

  /** The guild document an upsert on `guildId` starts from. */
  function Current(guilds: map<string, GuildRecord>, guildId: string, defaults: Economy): (g: GuildRecord)
    ensures guildId in guilds ==> g == guilds[guildId]
    ensures guildId !in guilds ==> g.guildId == guildId && !g.vipServer && g.lang == "en" && g.economy == defaults
  {
    if guildId in guilds then guilds[guildId] else NewGuild(guildId, defaults)
  }

  /** The schema paths of the six bet-level tiers, in ascending level order. */
  const TIER_FIELDS: seq<string> :=
    ["maxBetLvl5", "maxBetLvl15", "maxBetLvl35", "maxBetLvl75", "maxBetLvl150", "maxBetLvl300"]

  /** The six tier ceilings, in ascending level order. */
  function TierAmounts(e: Economy): seq<int>
  {
    [e.maxBetLvl5, e.maxBetLvl15, e.maxBetLvl35, e.maxBetLvl75, e.maxBetLvl150, e.maxBetLvl300]
  }

  /**
   * `$set` of one tier path. A path the schema does not declare is dropped,
   * as Mongoose's strict mode drops it.
   */
  function SetTierField(e: Economy, field: string, v: int): (r: Economy)
    ensures field !in TIER_FIELDS ==> r == e
    ensures forall i :: 0 <= i < |TIER_FIELDS| ==>
              TierAmounts(r)[i] == if TIER_FIELDS[i] == field then v else TierAmounts(e)[i]
    ensures r.(maxBetLvl5 := e.maxBetLvl5, maxBetLvl15 := e.maxBetLvl15, maxBetLvl35 := e.maxBetLvl35,
               maxBetLvl75 := e.maxBetLvl75, maxBetLvl150 := e.maxBetLvl150, maxBetLvl300 := e.maxBetLvl300) == e
  {
    if field == "maxBetLvl5" then e.(maxBetLvl5 := v)
    else if field == "maxBetLvl15" then e.(maxBetLvl15 := v)
    else if field == "maxBetLvl35" then e.(maxBetLvl35 := v)
    else if field == "maxBetLvl75" then e.(maxBetLvl75 := v)
    else if field == "maxBetLvl150" then e.(maxBetLvl150 := v)
    else if field == "maxBetLvl300" then e.(maxBetLvl300 := v)
    else e
  }

  /**
   * The bet-limit invariant of a guild: every limit is non-negative,
   * `minBet <= maxBet`, and the tier ceilings are non-decreasing, lie between
   * `minBet` and `maxBet`.
   */
  predicate ConsistentBets(e: Economy)
  {
    var t := TierAmounts(e);
    0 <= e.minBet <= e.maxBet
    && (forall i :: 0 <= i < |t| ==> e.minBet <= t[i] <= e.maxBet)
    && (forall i :: 0 < i < |t| ==> t[i - 1] <= t[i])
  }
}
