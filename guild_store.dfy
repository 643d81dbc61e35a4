/**
 * The `Guild` collection as the handlers change it: the settings form's
 * single upsert and the premium flag set on a completed checkout.
 */
module GuildStore {
  import opened Wrappers
  import opened GuildModel
  import opened Settings

  /** The document after `$set: { vipServer: true }`. */
  function Activated(g: GuildRecord): (r: GuildRecord)
    ensures r.vipServer
  {
    g.(vipServer := true)
  }

  /** Setting the premium flag changes that flag and nothing else. */
  lemma ActivatedChangesOnlyFlag(g: GuildRecord)
    ensures Activated(g).(vipServer := g.vipServer) == g
    ensures Activated(Activated(g)) == Activated(g)
  {
  }

  class GuildStore {
    /** The documents of the collection, by `guildId` (the schema's unique key). */
    var guilds: map<string, GuildRecord>
    /** The numeric defaults the schema takes from the guild configuration. */
    const defaults: Economy

    /** Every document is stored under its own id. */
    ghost predicate Valid()
      reads this
    {
      forall id :: id in guilds ==> guilds[id].guildId == id
    }

    constructor (defaults: Economy)
      ensures Valid()
      ensures guilds == map[] && this.defaults == defaults
    {
      guilds := map[];
      this.defaults := defaults;
    }

    /**
     * `updateServerSettings`: every rejection leaves the collection as it
     * was; an accepted form upserts the one document of the guild, created
     * from the defaults when absent, and answers with the written document.
     */
    method UpdateServerSettings(req: SettingsRequest, cfg: SiteConfig) returns (r: Result<GuildRecord, SettingsError>)
      requires Valid()
      modifies this
      ensures Valid()
      ensures r.Err? <==> Validate(req, cfg).Err?
      ensures r.Err? ==> r.error == Validate(req, cfg).error && guilds == old(guilds)
      ensures r.Ok? ==> r.value == ApplySettings(Current(old(guilds), req.guildId, defaults), Validate(req, cfg).value)
                        && guilds == old(guilds)[req.guildId := r.value]
    {
      var checked := ValidateSettings(req, cfg);
      match checked
      case Err(e) =>
        return Err(e);
      case Ok(patch) =>
        var written := ApplySettings(Current(guilds, req.guildId, defaults), patch);
        guilds := guilds[req.guildId := written];
        return Ok(written);
    }

    /**
     * The checkout's guild write: upsert with `vipServer = true`, creating
     * the document from the defaults when absent.
     */
    method ActivatePremium(guildId: string)
      requires Valid()
      modifies this
      ensures Valid()
      ensures guilds == old(guilds)[guildId := Activated(Current(old(guilds), guildId, defaults))]
    {
      guilds := guilds[guildId := Activated(Current(guilds, guildId, defaults))];
    }
  }

  /**
   * Activation is idempotent on the whole collection: a second activation
   * of the same guild writes the document it already holds.
   */
  lemma ActivationIdempotent(guilds: map<string, GuildRecord>, guildId: string, defaults: Economy)
    ensures var once := guilds[guildId := Activated(Current(guilds, guildId, defaults))];
            once[guildId := Activated(Current(once, guildId, defaults))] == once
  {
  }

  /**
   * Activation touches one document: other guilds keep their documents,
   * and an existing document keeps every field but the premium flag.
   */
  lemma ActivationLocal(guilds: map<string, GuildRecord>, guildId: string, defaults: Economy)
    ensures var after := guilds[guildId := Activated(Current(guilds, guildId, defaults))];
            && (forall id :: id != guildId ==> (id in after <==> id in guilds))
            && (forall id :: id in guilds && id != guildId ==> after[id] == guilds[id])
            && after[guildId].vipServer
            && (guildId in guilds ==> after[guildId].(vipServer := guilds[guildId].vipServer) == guilds[guildId])
            && (guildId !in guilds ==> after[guildId].(vipServer := false) == NewGuild(guildId, defaults))
  {
  }
}
