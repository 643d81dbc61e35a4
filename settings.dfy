/**
 * The server-settings form handler: a chain of checks over the submitted
 * form, each stopping at the first failure with its own message, and, when
 * every check passes, the fully determined document that the single upsert
 * writes.
 */
module Settings {
  import opened Wrappers
  import opened JsNumber
  import opened Permissions
  import opened GuildModel

  /** The url-encoded request body: field name to submitted text. */
  type Form = map<string, string>

  /** One entry of the bet-level configuration: a player level and the setting path it limits. */
  datatype Tier = Tier(level: int, field: string)

  /** The bet-level configuration the guild schema is laid out for. */
  const STANDARD_TIERS: seq<Tier> :=
    [Tier(5, "maxBetLvl5"), Tier(15, "maxBetLvl15"), Tier(35, "maxBetLvl35"),
     Tier(75, "maxBetLvl75"), Tier(150, "maxBetLvl150"), Tier(300, "maxBetLvl300")]

  /** What the handler receives: bot presence, the session's guild list, the guild id and the form. */
  datatype SettingsRequest = SettingsRequest(
    botInServer: bool, session: seq<SessionGuild>, guildId: string, form: Form)

  /**
   * A conversion of submitted text to a number, reporting only whether the
   * result is an integer and which. `JsNumber.ParseNumber` is one such
   * conversion; it agrees with JavaScript's `Number` on integers of magnitude
   * at most 2^53, where a double is exact.
   */
  type Parser = string -> Option<int>

  /**
   * The configured language codes and bet-level tiers, and the text-to-number
   * conversion the handler applies to the form.
   */
  datatype SiteConfig = SiteConfig(languages: seq<string>, tiers: seq<Tier>, number: Parser)

  /**
   * One constructor per rejection message. `InvalidTierField` carries the
   * same message as `InvalidField`; it is kept apart because it is raised by
   * the tier loop, later in the chain.
   */
  datatype SettingsError =
    | BotNotInServer
    | PermissionDenied
    | InvalidLanguage
    | InvalidField(field: string)
    | MinAboveMax
    | InvalidMultiplier
    | InvalidTierField(field: string)
    | TierAboveMax(level: int)
    | TierBelowPrevious(level: int, previousLevel: int)
    | MinAboveTier

  /** The integer settings, in the order the handler checks them. */
  const INT_FIELDS: seq<string> :=
    ["initBalance", "maxBet", "minBet", "xpLevel",
     "initBalloon", "initMobile", "initBike", "initCar", "initCastle", "initLevel",
     "rewardWork", "rewardDaily", "rewardWeekly"]

  /** `Number(req.body[field])` when it is an integer; an absent field is `undefined`, hence NaN. */
  function NumberOf(num: Parser, form: Form, field: string): Option<int>
  {
    if field in form then num(form[field]) else None
  }

  /** `Number.isInteger(value) && value >= 0` for the field's value. */
  predicate IsCount(num: Parser, form: Form, field: string)
  {
    NumberOf(num, form, field).Some? && NumberOf(num, form, field).value >= 0
  }

  /** The integer value of a field, read only where the checks have established one. */
  function Val(num: Parser, form: Form, field: string): int
  {
    match NumberOf(num, form, field)
    case Some(v) => v
    case None => 0
  }

  /** `req.body.lang` is present, non-empty and one of the configured codes. */
  predicate LanguageOk(form: Form, languages: seq<string>)
  {
    "lang" in form && form["lang"] != "" && form["lang"] in languages
  }

  /** The text the multiplier pattern is tested against; `undefined` is tested as its name. */
  function MultiplierText(form: Form): string
  {
    if "initMultiplier" in form then form["initMultiplier"] else "undefined"
  }

  /** The multiplier check: the pattern matches and the value is not negative. */
  predicate MultiplierOk(form: Form)
  {
    IsValidMultiplier(MultiplierText(form)) && MultiplierHundredths(MultiplierText(form)) >= 0
  }

  /** The first of `fields[i..]` that is not a non-negative integer. */
  function FirstInvalidFrom(num: Parser, form: Form, fields: seq<string>, i: nat): Option<string>
    requires i <= |fields|
    decreases |fields| - i
  {
    if i == |fields| then None
    else if !IsCount(num, form, fields[i]) then Some(fields[i])
    else FirstInvalidFrom(num, form, fields, i + 1)
  }

  /** The integer-field loop reports nothing exactly when all fields are counts, else the first that is not. */
  lemma {:induction false} FirstInvalidFromSpec(num: Parser, form: Form, fields: seq<string>, i: nat)
    requires i <= |fields|
    decreases |fields| - i
    ensures var r := FirstInvalidFrom(num, form, fields, i);
            && (r.None? <==> forall j :: i <= j < |fields| ==> IsCount(num, form, fields[j]))
            && (r.Some? ==> exists j :: i <= j < |fields| && fields[j] == r.value && !IsCount(num, form, fields[j])
                                        && forall k :: i <= k < j ==> IsCount(num, form, fields[k]))
  {
    if i < |fields| && IsCount(num, form, fields[i]) {
      FirstInvalidFromSpec(num, form, fields, i + 1);
    }
  }

  /** The check the tier loop makes at index `i`. */
  function TierErrorAt(num: Parser, form: Form, tiers: seq<Tier>, maxBet: int, i: nat): Option<SettingsError>
    requires i < |tiers|
  {
    var f := tiers[i].field;
    if !IsCount(num, form, f) then Some(InvalidTierField(f))
    else if Val(num, form, f) > maxBet then Some(TierAboveMax(tiers[i].level))
    else if i > 0 && Val(num, form, f) < Val(num, form, tiers[i - 1].field) then
      Some(TierBelowPrevious(tiers[i].level, tiers[i - 1].level))
    else None
  }

  /** The first failing tier check at or after index `i`. */
  function TierCheckFrom(num: Parser, form: Form, tiers: seq<Tier>, maxBet: int, i: nat): Option<SettingsError>
    requires i <= |tiers|
    decreases |tiers| - i
  {
    if i == |tiers| then None
    else if TierErrorAt(num, form, tiers, maxBet, i).Some? then TierErrorAt(num, form, tiers, maxBet, i)
    else TierCheckFrom(num, form, tiers, maxBet, i + 1)
  }

  /** The tier loop reports nothing exactly when every tier passes, else the error of the first that fails. */
  lemma {:induction false} TierCheckFromSpec(num: Parser, form: Form, tiers: seq<Tier>, maxBet: int, i: nat)
    requires i <= |tiers|
    decreases |tiers| - i
    ensures var r := TierCheckFrom(num, form, tiers, maxBet, i);
            && (r.None? <==> forall j :: i <= j < |tiers| ==> TierErrorAt(num, form, tiers, maxBet, j).None?)
            && (r.Some? ==> exists j :: i <= j < |tiers| && TierErrorAt(num, form, tiers, maxBet, j) == r
                                        && forall k :: i <= k < j ==> TierErrorAt(num, form, tiers, maxBet, k).None?)
  {
    if i < |tiers| && TierErrorAt(num, form, tiers, maxBet, i).None? {
      TierCheckFromSpec(num, form, tiers, maxBet, i + 1);
    }
  }

  /** Every tier is a non-negative integer, at most `maxBet`, and at least the tier before it. */
  predicate TiersOk(num: Parser, form: Form, tiers: seq<Tier>, maxBet: int)
  {
    forall i :: 0 <= i < |tiers| ==>
      IsCount(num, form, tiers[i].field) && Val(num, form, tiers[i].field) <= maxBet
      && (i > 0 ==> Val(num, form, tiers[i - 1].field) <= Val(num, form, tiers[i].field))
  }

  /** `maxBets.some((max) => minBet > max)` */
  predicate MinAboveSomeTier(num: Parser, form: Form, tiers: seq<Tier>, minBet: int)
  {
    exists i :: 0 <= i < |tiers| && minBet > Val(num, form, tiers[i].field)
  }

  /** The `$set` document of an accepted form, field by field. */
  datatype SettingsPatch = SettingsPatch(
    lang: string, economyType: bool, commandChannel: Option<string>, logChannel: Option<string>,
    initBalance: int, maxBet: int, minBet: int, xpLevel: int,
    initBalloon: int, initMobile: int, initBike: int, initCar: int, initCastle: int,
    initMultiplier: int, initLevel: int,
    rewardWork: int, rewardDaily: int, rewardWeekly: int,
    levelStatus: bool, itemStatus: bool,
    tierValues: seq<(string, int)>)

  /** A checkbox is on exactly when the form carries the text "on". */
  predicate Checkbox(form: Form, key: string)
  {
    key in form && form[key] == "on"
  }

  /** `req.body[key] || null`: an absent or empty channel id is stored as null. */
  function Channel(form: Form, key: string): Option<string>
  {
    if key in form && form[key] != "" then Some(form[key]) else None
  }

  /** `betLevels.map((lvl) => [lvl.field, Number(req.body[lvl.field])])` */
  function TierValues(num: Parser, form: Form, tiers: seq<Tier>): (r: seq<(string, int)>)
    ensures |r| == |tiers|
    ensures forall i :: 0 <= i < |tiers| ==> r[i] == (tiers[i].field, Val(num, form, tiers[i].field))
  {
    if tiers == [] then [] else [(tiers[0].field, Val(num, form, tiers[0].field))] + TierValues(num, form, tiers[1..])
  }

  function BuildPatch(num: Parser, form: Form, tiers: seq<Tier>): SettingsPatch
    requires "lang" in form && IsValidMultiplier(MultiplierText(form))
  {
    SettingsPatch(
      form["lang"], Checkbox(form, "economyType"),
      Channel(form, "commandChannel"), Channel(form, "logChannel"),
      Val(num, form, "initBalance"), Val(num, form, "maxBet"), Val(num, form, "minBet"), Val(num, form, "xpLevel"),
      Val(num, form, "initBalloon"), Val(num, form, "initMobile"), Val(num, form, "initBike"),
      Val(num, form, "initCar"), Val(num, form, "initCastle"),
      MultiplierHundredths(MultiplierText(form)), Val(num, form, "initLevel"),
      Val(num, form, "rewardWork"), Val(num, form, "rewardDaily"), Val(num, form, "rewardWeekly"),
      Checkbox(form, "levelStatus"), Checkbox(form, "itemStatus"),
      TierValues(num, form, tiers))
  }

  /** The tier entries of a `$set`, applied in order, so a later duplicate wins. */
  function SetTiers(e: Economy, tierValues: seq<(string, int)>): Economy
    decreases |tierValues|
  {
    if tierValues == [] then e
    else SetTiers(SetTierField(e, tierValues[0].0, tierValues[0].1), tierValues[1..])
  }

  /** The document after the `$set` of an accepted form. */
  function ApplySettings(g: GuildRecord, p: SettingsPatch): GuildRecord
  {
    var e := g.economy.(
      initBalance := p.initBalance, maxBet := p.maxBet, minBet := p.minBet, xpLevel := p.xpLevel,
      initBalloon := p.initBalloon, initMobile := p.initMobile, initBike := p.initBike,
      initCar := p.initCar, initCastle := p.initCastle,
      initMultiplier := p.initMultiplier, initLevel := p.initLevel,
      rewardWork := p.rewardWork, rewardDaily := p.rewardDaily, rewardWeekly := p.rewardWeekly);
    g.(lang := p.lang, economyType := p.economyType,
       commandChannel := p.commandChannel, logChannel := p.logChannel,
       levelStatus := p.levelStatus, itemStatus := p.itemStatus,
       economy := SetTiers(e, p.tierValues))
  }

  /** The whole validation chain, in the handler's order. */
  function Validate(req: SettingsRequest, cfg: SiteConfig): Result<SettingsPatch, SettingsError>
  {
    if !req.botInServer then Err(BotNotInServer)
    else if !MayManage(req.session, req.guildId) then Err(PermissionDenied)
    else if !LanguageOk(req.form, cfg.languages) then Err(InvalidLanguage)
    else ValidateNumbers(cfg.number, req.form, cfg.tiers)
  }

  /** The numeric part of the chain, reached once the language is accepted. */
  function ValidateNumbers(num: Parser, form: Form, tiers: seq<Tier>): Result<SettingsPatch, SettingsError>
    requires "lang" in form
  {
    var bad := FirstInvalidFrom(num, form, INT_FIELDS, 0);
    if bad.Some? then Err(InvalidField(bad.value))
    else
      var maxBet, minBet := Val(num, form, "maxBet"), Val(num, form, "minBet");
      if minBet > maxBet then Err(MinAboveMax)
      else if !MultiplierOk(form) then Err(InvalidMultiplier)
      else ValidateTiers(num, form, tiers, maxBet, minBet)
  }

  /** The bet-level part of the chain, reached once the multiplier is accepted. */
  function ValidateTiers(num: Parser, form: Form, tiers: seq<Tier>, maxBet: int, minBet: int): Result<SettingsPatch, SettingsError>
    requires "lang" in form && IsValidMultiplier(MultiplierText(form))
  {
    var tierError := TierCheckFrom(num, form, tiers, maxBet, 0);
    if tierError.Some? then Err(tierError.value)
    else if MinAboveSomeTier(num, form, tiers, minBet) then Err(MinAboveTier)
    else Ok(BuildPatch(num, form, tiers))
  }

  /** The handler's loop over the integer fields: the first one that is not a non-negative integer. */
  method FindInvalidField(num: Parser, form: Form) returns (bad: Option<string>)
    ensures bad == FirstInvalidFrom(num, form, INT_FIELDS, 0)
  {
    var i := 0;
    while i < |INT_FIELDS|
      invariant 0 <= i <= |INT_FIELDS|
      invariant FirstInvalidFrom(num, form, INT_FIELDS, i) == FirstInvalidFrom(num, form, INT_FIELDS, 0)
    {
      var value := NumberOf(num, form, INT_FIELDS[i]);
      if value.None? || value.value < 0 {
        return Some(INT_FIELDS[i]);
      }
      i := i + 1;
    }
    return None;
  }

  /** The handler's loop over the bet-level tiers: the error of the first tier that fails. */
  method CheckTiers(num: Parser, form: Form, tiers: seq<Tier>, maxBet: int) returns (err: Option<SettingsError>)
    ensures err == TierCheckFrom(num, form, tiers, maxBet, 0)
  {
    var t := 0;
    while t < |tiers|
      invariant 0 <= t <= |tiers|
      invariant TierCheckFrom(num, form, tiers, maxBet, t) == TierCheckFrom(num, form, tiers, maxBet, 0)
    {
      var field := tiers[t].field;
      var value := NumberOf(num, form, field);
      if value.None? || value.value < 0 {
        return Some(InvalidTierField(field));
      }
      if value.value > maxBet {
        return Some(TierAboveMax(tiers[t].level));
      }
      if t > 0 && value.value < Val(num, form, tiers[t - 1].field) {
        return Some(TierBelowPrevious(tiers[t].level, tiers[t - 1].level));
      }
      t := t + 1;
    }
    return None;
  }

  /** `maxBets.some((max) => minBet > max)`, scanned in order. */
  method AnyTierBelow(num: Parser, form: Form, tiers: seq<Tier>, minBet: int) returns (found: bool)
    ensures found <==> MinAboveSomeTier(num, form, tiers, minBet)
  {
    var m := 0;
    while m < |tiers|
      invariant 0 <= m <= |tiers|
      invariant forall j :: 0 <= j < m ==> minBet <= Val(num, form, tiers[j].field)
    {
      if minBet > Val(num, form, tiers[m].field) {
        return true;
      }
      m := m + 1;
    }
    return false;
  }

  /** The handler's checks, run in the handler's order, each returning at its first failure. */
  method ValidateSettings(req: SettingsRequest, cfg: SiteConfig) returns (r: Result<SettingsPatch, SettingsError>)
    ensures r == Validate(req, cfg)
  {
    var num, form := cfg.number, req.form;
    if !req.botInServer { return Err(BotNotInServer); }
    if !MayManage(req.session, req.guildId) { return Err(PermissionDenied); }
    if !("lang" in form && form["lang"] != "" && form["lang"] in cfg.languages) {
      return Err(InvalidLanguage);
    }
    var bad := FindInvalidField(num, form);
    if bad.Some? { return Err(InvalidField(bad.value)); }

    var maxBet := Val(num, form, "maxBet");
    var minBet := Val(num, form, "minBet");
    if minBet > maxBet { return Err(MinAboveMax); }

    var text := MultiplierText(form);
    if !IsValidMultiplier(text) || MultiplierHundredths(text) < 0 {
      return Err(InvalidMultiplier);
    }

    var tierError := CheckTiers(num, form, cfg.tiers, maxBet);
    if tierError.Some? { return Err(tierError.value); }
    var below := AnyTierBelow(num, form, cfg.tiers, minBet);
    if below { return Err(MinAboveTier); }
    return Ok(BuildPatch(num, form, cfg.tiers));
  }

  /** The tier loop finds nothing exactly when the tiers satisfy the declarative tier rules. */
  lemma TierCheckIff(num: Parser, form: Form, tiers: seq<Tier>, maxBet: int)
    ensures TierCheckFrom(num, form, tiers, maxBet, 0).None? <==> TiersOk(num, form, tiers, maxBet)
  {
    TierCheckFromSpec(num, form, tiers, maxBet, 0);
    if TierCheckFrom(num, form, tiers, maxBet, 0).None? {
      forall i | 0 <= i < |tiers|
        ensures IsCount(num, form, tiers[i].field) && Val(num, form, tiers[i].field) <= maxBet
                && (i > 0 ==> Val(num, form, tiers[i - 1].field) <= Val(num, form, tiers[i].field))
      {
        assert TierErrorAt(num, form, tiers, maxBet, i).None?;
      }
    }
  }

  /** The stages of the chain, as independent conditions, in the handler's order. */
  predicate StagePasses(k: nat, req: SettingsRequest, cfg: SiteConfig)
  {
    if k == 0 then req.botInServer
    else if k == 1 then MayManage(req.session, req.guildId)
    else if k == 2 then LanguageOk(req.form, cfg.languages)
    else NumberStagePasses(k, cfg.number, req.form, cfg.tiers)
  }

  /** The stages from the integer fields on, which depend on the form and the tiers alone. */
  predicate NumberStagePasses(k: nat, num: Parser, form: Form, tiers: seq<Tier>)
  {
    if k == 3 then forall i :: 0 <= i < |INT_FIELDS| ==> IsCount(num, form, INT_FIELDS[i])
    else if k == 4 then Val(num, form, "minBet") <= Val(num, form, "maxBet")
    else if k == 5 then MultiplierOk(form)
    else if k == 6 then TiersOk(num, form, tiers, Val(num, form, "maxBet"))
    else if k == 7 then forall i :: 0 <= i < |tiers| ==> Val(num, form, "minBet") <= Val(num, form, tiers[i].field)
    else true
  }

  /** The stage whose failure produces an error. */
  function Stage(e: SettingsError): nat
  {
    match e
    case BotNotInServer => 0
    case PermissionDenied => 1
    case InvalidLanguage => 2
    case InvalidField(_) => 3
    case MinAboveMax => 4
    case InvalidMultiplier => 5
    case InvalidTierField(_) => 6
    case TierAboveMax(_) => 6
    case TierBelowPrevious(_, _) => 6
    case MinAboveTier => 7
  }

  /**
   * The form is accepted exactly when all eight stages pass, and a rejection
   * reports the first stage that fails: every earlier stage passed.
   */
  lemma ValidateReportsFirstFailure(req: SettingsRequest, cfg: SiteConfig)
    ensures Validate(req, cfg).Ok? <==> forall k :: 0 <= k < 8 ==> StagePasses(k, req, cfg)
    ensures Validate(req, cfg).Err? ==>
              var s := Stage(Validate(req, cfg).error);
              s < 8 && !StagePasses(s, req, cfg) && forall k :: 0 <= k < s ==> StagePasses(k, req, cfg)
  {
    if !req.botInServer {
      assert !StagePasses(0, req, cfg);
    } else if !MayManage(req.session, req.guildId) {
      assert !StagePasses(1, req, cfg);
    } else if !LanguageOk(req.form, cfg.languages) {
      assert !StagePasses(2, req, cfg);
    } else {
      assert Validate(req, cfg) == ValidateNumbers(cfg.number, req.form, cfg.tiers);
      NumbersReportFirstFailure(cfg.number, req.form, cfg.tiers);
      assert forall k :: 0 <= k < 3 ==> StagePasses(k, req, cfg);
      assert forall k :: 3 <= k ==> StagePasses(k, req, cfg) == NumberStagePasses(k, cfg.number, req.form, cfg.tiers);
    }
  }

  /** The numeric part of the chain reports the first of stages 3 to 7 that fails. */
  lemma NumbersReportFirstFailure(num: Parser, form: Form, tiers: seq<Tier>)
    requires "lang" in form
    ensures ValidateNumbers(num, form, tiers).Ok? <==> forall k :: 3 <= k < 8 ==> NumberStagePasses(k, num, form, tiers)
    ensures ValidateNumbers(num, form, tiers).Err? ==>
              var s := Stage(ValidateNumbers(num, form, tiers).error);
              3 <= s < 8 && !NumberStagePasses(s, num, form, tiers)
              && forall k :: 3 <= k < s ==> NumberStagePasses(k, num, form, tiers)
  {
    var maxBet, minBet := Val(num, form, "maxBet"), Val(num, form, "minBet");
    FirstInvalidFromSpec(num, form, INT_FIELDS, 0);
    if FirstInvalidFrom(num, form, INT_FIELDS, 0).Some? {
      assert !NumberStagePasses(3, num, form, tiers);
    } else if minBet > maxBet {
      assert !NumberStagePasses(4, num, form, tiers);
    } else if !MultiplierOk(form) {
      assert !NumberStagePasses(5, num, form, tiers);
    } else {
      assert ValidateNumbers(num, form, tiers) == ValidateTiers(num, form, tiers, maxBet, minBet);
      TiersReportFirstFailure(num, form, tiers, maxBet, minBet);
    }
  }

  /** The bet-level part of the chain reports stage 6 before stage 7. */
  lemma TiersReportFirstFailure(num: Parser, form: Form, tiers: seq<Tier>, maxBet: int, minBet: int)
    requires "lang" in form && IsValidMultiplier(MultiplierText(form))
    requires maxBet == Val(num, form, "maxBet") && minBet == Val(num, form, "minBet")
    ensures ValidateTiers(num, form, tiers, maxBet, minBet).Ok? <==>
              NumberStagePasses(6, num, form, tiers) && NumberStagePasses(7, num, form, tiers)
    ensures ValidateTiers(num, form, tiers, maxBet, minBet).Err? ==>
              var s := Stage(ValidateTiers(num, form, tiers, maxBet, minBet).error);
              (s == 6 && !NumberStagePasses(6, num, form, tiers))
              || (s == 7 && NumberStagePasses(6, num, form, tiers) && !NumberStagePasses(7, num, form, tiers))
  {
    TierCheckIff(num, form, tiers, maxBet);
    if TierCheckFrom(num, form, tiers, maxBet, 0).Some? {
      TierErrorStage(num, form, tiers, maxBet, 0);
    }
  }

  /** Every error the tier loop reports belongs to the tier stage. */
  lemma {:induction false} TierErrorStage(num: Parser, form: Form, tiers: seq<Tier>, maxBet: int, i: nat)
    requires i <= |tiers|
    decreases |tiers| - i
    ensures TierCheckFrom(num, form, tiers, maxBet, i).Some? ==> Stage(TierCheckFrom(num, form, tiers, maxBet, i).value) == 6
  {
    if i < |tiers| && TierErrorAt(num, form, tiers, maxBet, i).None? {
      TierErrorStage(num, form, tiers, maxBet, i + 1);
    }
  }

  /**
   * Within the integer fields and within the tiers, the one a rejection
   * names is the first that fails.
   */
  lemma ValidateReportsFirstItem(req: SettingsRequest, cfg: SiteConfig)
    ensures Validate(req, cfg).Err? && Validate(req, cfg).error.InvalidField? ==>
              exists j :: 0 <= j < |INT_FIELDS| && INT_FIELDS[j] == Validate(req, cfg).error.field
                          && !IsCount(cfg.number, req.form, INT_FIELDS[j])
                          && forall k :: 0 <= k < j ==> IsCount(cfg.number, req.form, INT_FIELDS[k])
    ensures Validate(req, cfg).Err? && Stage(Validate(req, cfg).error) == 6 ==>
              exists j :: 0 <= j < |cfg.tiers|
                          && TierErrorAt(cfg.number, req.form, cfg.tiers, Val(cfg.number, req.form, "maxBet"), j) == Some(Validate(req, cfg).error)
                          && forall k :: 0 <= k < j ==> TierErrorAt(cfg.number, req.form, cfg.tiers, Val(cfg.number, req.form, "maxBet"), k).None?
  {
    FirstInvalidFromSpec(cfg.number, req.form, INT_FIELDS, 0);
    TierCheckFromSpec(cfg.number, req.form, cfg.tiers, Val(cfg.number, req.form, "maxBet"), 0);
  }

  /** Along non-decreasing tiers, the first tier is the smallest. */
  lemma {:induction false} FirstTierSmallest(num: Parser, form: Form, tiers: seq<Tier>, maxBet: int, i: nat)
    requires TiersOk(num, form, tiers, maxBet) && i < |tiers|
    ensures Val(num, form, tiers[0].field) <= Val(num, form, tiers[i].field)
  {
    if i > 0 {
      FirstTierSmallest(num, form, tiers, maxBet, i - 1);
    }
  }

  /** Once the tier loop has passed, `minBet` exceeds some tier exactly when it exceeds the first. */
  lemma MinAboveSomeTierIffFirst(num: Parser, form: Form, tiers: seq<Tier>, maxBet: int, minBet: int)
    requires TiersOk(num, form, tiers, maxBet) && |tiers| > 0
    ensures MinAboveSomeTier(num, form, tiers, minBet) <==> minBet > Val(num, form, tiers[0].field)
  {
    if MinAboveSomeTier(num, form, tiers, minBet) {
      var i :| 0 <= i < |tiers| && minBet > Val(num, form, tiers[i].field);
      FirstTierSmallest(num, form, tiers, maxBet, i);
    }
  }

  /** Writing the standard tier entries sets the six tier fields to the submitted values. */
  lemma StandardTiersWritten(num: Parser, e: Economy, form: Form)
    ensures TierAmounts(SetTiers(e, TierValues(num, form, STANDARD_TIERS)))
            == [Val(num, form, "maxBetLvl5"), Val(num, form, "maxBetLvl15"), Val(num, form, "maxBetLvl35"),
                Val(num, form, "maxBetLvl75"), Val(num, form, "maxBetLvl150"), Val(num, form, "maxBetLvl300")]
  {
    var tv := TierValues(num, form, STANDARD_TIERS);
    var e1 := SetTierField(e, tv[0].0, tv[0].1);
    var e2 := SetTierField(e1, tv[1].0, tv[1].1);
    var e3 := SetTierField(e2, tv[2].0, tv[2].1);
    var e4 := SetTierField(e3, tv[3].0, tv[3].1);
    var e5 := SetTierField(e4, tv[4].0, tv[4].1);
    var e6 := SetTierField(e5, tv[5].0, tv[5].1);
    assert SetTiers(e5, tv[5..]) == e6 by { assert tv[5..][1..] == []; }
    assert SetTiers(e4, tv[4..]) == e6 by { assert tv[4..][1..] == tv[5..]; }
    assert SetTiers(e3, tv[3..]) == e6 by { assert tv[3..][1..] == tv[4..]; }
    assert SetTiers(e2, tv[2..]) == e6 by { assert tv[2..][1..] == tv[3..]; }
    assert SetTiers(e1, tv[1..]) == e6 by { assert tv[1..][1..] == tv[2..]; }
    assert SetTiers(e, tv) == e6;
  }

  /** The standard tiers name the six tier fields, in order. */
  lemma StandardFields()
    ensures |STANDARD_TIERS| == |TIER_FIELDS|
    ensures forall i :: 0 <= i < |STANDARD_TIERS| ==> STANDARD_TIERS[i].field == TIER_FIELDS[i]
  {
  }

  /** The same, tier by tier: the `i`-th tier field receives the `i`-th standard tier's value. */
  lemma StandardTierAt(num: Parser, e: Economy, form: Form)
    ensures |STANDARD_TIERS| == |TIER_FIELDS|
    ensures forall i :: 0 <= i < |STANDARD_TIERS| ==>
              STANDARD_TIERS[i].field == TIER_FIELDS[i]
              && TierAmounts(SetTiers(e, TierValues(num, form, STANDARD_TIERS)))[i] == Val(num, form, STANDARD_TIERS[i].field)
  {
    StandardTiersWritten(num, e, form);
  }

  /**
   * An accepted form passed every stage, and the patch it produces is the one
   * built from the form.
   */
  lemma AcceptedPatch(req: SettingsRequest, cfg: SiteConfig)
    requires Validate(req, cfg).Ok?
    ensures var num, form := cfg.number, req.form;
            && LanguageOk(form, cfg.languages)
            && (forall i :: 0 <= i < |INT_FIELDS| ==> IsCount(num, form, INT_FIELDS[i]))
            && Val(num, form, "minBet") <= Val(num, form, "maxBet")
            && MultiplierOk(form)
            && TiersOk(num, form, cfg.tiers, Val(num, form, "maxBet"))
            && (forall i :: 0 <= i < |cfg.tiers| ==> Val(num, form, "minBet") <= Val(num, form, cfg.tiers[i].field))
            && Validate(req, cfg).value == BuildPatch(num, form, cfg.tiers)
  {
    ValidateReportsFirstFailure(req, cfg);
    assert StagePasses(2, req, cfg) && StagePasses(3, req, cfg) && StagePasses(4, req, cfg);
    assert StagePasses(5, req, cfg) && StagePasses(6, req, cfg) && StagePasses(7, req, cfg);
  }

  /**
   * An accepted form sets the language to a configured code, each checkbox
   * to whether the form carries "on", and each channel to the submitted id,
   * an absent or empty one becoming null. The id, the premium flag and the
   * unused-command list are left as they were.
   */
  lemma AcceptedWrite(req: SettingsRequest, cfg: SiteConfig, g: GuildRecord)
    requires Validate(req, cfg).Ok?
    ensures var form := req.form;
            var w := ApplySettings(g, Validate(req, cfg).value);
            && w.guildId == g.guildId && w.vipServer == g.vipServer && w.commandsNotUsed == g.commandsNotUsed
            && "lang" in form && w.lang == form["lang"] && w.lang in cfg.languages
            && w.economyType == ("economyType" in form && form["economyType"] == "on")
            && w.levelStatus == ("levelStatus" in form && form["levelStatus"] == "on")
            && w.itemStatus == ("itemStatus" in form && form["itemStatus"] == "on")
            && (w.commandChannel.None? <==> "commandChannel" !in form || form["commandChannel"] == "")
            && (w.commandChannel.Some? ==> w.commandChannel.value == form["commandChannel"])
            && (w.logChannel.None? <==> "logChannel" !in form || form["logChannel"] == "")
            && (w.logChannel.Some? ==> w.logChannel.value == form["logChannel"])
  {
    AcceptedPatch(req, cfg);
  }

  /**
   * An accepted form writes each integer setting as the number its field
   * parses to, and the multiplier as the parsed decimal, in hundredths.
   */
  lemma AcceptedNumbers(req: SettingsRequest, cfg: SiteConfig, g: GuildRecord)
    requires Validate(req, cfg).Ok?
    ensures var num, form := cfg.number, req.form;
            var w := ApplySettings(g, Validate(req, cfg).value).economy;
            && NumberOf(num, form, "initBalance") == Some(w.initBalance)
            && NumberOf(num, form, "maxBet") == Some(w.maxBet)
            && NumberOf(num, form, "minBet") == Some(w.minBet)
            && NumberOf(num, form, "xpLevel") == Some(w.xpLevel)
            && NumberOf(num, form, "initBalloon") == Some(w.initBalloon)
            && NumberOf(num, form, "initMobile") == Some(w.initMobile)
            && NumberOf(num, form, "initBike") == Some(w.initBike)
            && NumberOf(num, form, "initCar") == Some(w.initCar)
            && NumberOf(num, form, "initCastle") == Some(w.initCastle)
            && NumberOf(num, form, "initLevel") == Some(w.initLevel)
            && NumberOf(num, form, "rewardWork") == Some(w.rewardWork)
            && NumberOf(num, form, "rewardDaily") == Some(w.rewardDaily)
            && NumberOf(num, form, "rewardWeekly") == Some(w.rewardWeekly)
            && IsValidMultiplier(MultiplierText(form))
            && w.initMultiplier == MultiplierHundredths(MultiplierText(form))
  {
    var num, form := cfg.number, req.form;
    var p := Validate(req, cfg).value;
    AcceptedPatch(req, cfg);
    assert IsCount(num, form, INT_FIELDS[0]) && IsCount(num, form, INT_FIELDS[1]) && IsCount(num, form, INT_FIELDS[2]);
    assert IsCount(num, form, INT_FIELDS[3]) && IsCount(num, form, INT_FIELDS[4]) && IsCount(num, form, INT_FIELDS[5]);
    assert IsCount(num, form, INT_FIELDS[6]) && IsCount(num, form, INT_FIELDS[7]) && IsCount(num, form, INT_FIELDS[8]);
    assert IsCount(num, form, INT_FIELDS[9]) && IsCount(num, form, INT_FIELDS[10]) && IsCount(num, form, INT_FIELDS[11]);
    assert IsCount(num, form, INT_FIELDS[12]);
    var e := g.economy.(
      initBalance := p.initBalance, maxBet := p.maxBet, minBet := p.minBet, xpLevel := p.xpLevel,
      initBalloon := p.initBalloon, initMobile := p.initMobile, initBike := p.initBike,
      initCar := p.initCar, initCastle := p.initCastle,
      initMultiplier := p.initMultiplier, initLevel := p.initLevel,
      rewardWork := p.rewardWork, rewardDaily := p.rewardDaily, rewardWeekly := p.rewardWeekly);
    SetTiersKeepsOthers(e, p.tierValues);
  }

  /** With the standard tiers, an accepted form writes each of the six tier fields as its parsed number. */
  lemma AcceptedTiers(req: SettingsRequest, cfg: SiteConfig, g: GuildRecord)
    requires cfg.tiers == STANDARD_TIERS
    requires Validate(req, cfg).Ok?
    ensures var num, form := cfg.number, req.form;
            var w := ApplySettings(g, Validate(req, cfg).value).economy;
            forall i :: 0 <= i < |TIER_FIELDS| ==> NumberOf(num, form, TIER_FIELDS[i]) == Some(TierAmounts(w)[i])
  {
    var num, form := cfg.number, req.form;
    var p := Validate(req, cfg).value;
    AcceptedPatch(req, cfg);
    var e := g.economy.(
      initBalance := p.initBalance, maxBet := p.maxBet, minBet := p.minBet, xpLevel := p.xpLevel,
      initBalloon := p.initBalloon, initMobile := p.initMobile, initBike := p.initBike,
      initCar := p.initCar, initCastle := p.initCastle,
      initMultiplier := p.initMultiplier, initLevel := p.initLevel,
      rewardWork := p.rewardWork, rewardDaily := p.rewardDaily, rewardWeekly := p.rewardWeekly);
    assert p.tierValues == TierValues(num, form, STANDARD_TIERS);
    assert ApplySettings(g, p).economy == SetTiers(e, p.tierValues);
    StandardTierAt(num, e, form);
    forall i | 0 <= i < |TIER_FIELDS|
      ensures NumberOf(num, form, TIER_FIELDS[i]) == Some(TierAmounts(ApplySettings(g, p).economy)[i])
    {
      assert IsCount(num, form, STANDARD_TIERS[i].field);
    }
  }

  /** Tier entries change only tier fields. */
  lemma {:induction false} SetTiersKeepsOthers(e: Economy, tv: seq<(string, int)>)
    decreases |tv|
    ensures var r := SetTiers(e, tv);
            r.(maxBetLvl5 := e.maxBetLvl5, maxBetLvl15 := e.maxBetLvl15, maxBetLvl35 := e.maxBetLvl35,
               maxBetLvl75 := e.maxBetLvl75, maxBetLvl150 := e.maxBetLvl150, maxBetLvl300 := e.maxBetLvl300) == e
  {
    if tv != [] {
      SetTiersKeepsOthers(SetTierField(e, tv[0].0, tv[0].1), tv[1..]);
    }
  }

  /**
   * With the standard tiers, the document an accepted form writes has
   * consistent bets: every tier lies between the minimum and maximum bet and
   * the tiers do not decrease with level.
   */
  lemma AcceptedSettingsConsistent(req: SettingsRequest, cfg: SiteConfig, g: GuildRecord)
    requires cfg.tiers == STANDARD_TIERS
    requires Validate(req, cfg).Ok?
    ensures ConsistentBets(ApplySettings(g, Validate(req, cfg).value).economy)
  {
    var num, form := cfg.number, req.form;
    AcceptedPatch(req, cfg);
    BuiltPatchConsistent(num, form, g);
  }

  /** The checks that bound the bets, applied to the patch built from the form. */
  lemma BuiltPatchConsistent(num: Parser, form: Form, g: GuildRecord)
    requires "lang" in form && MultiplierOk(form)
    requires forall i :: 0 <= i < |INT_FIELDS| ==> IsCount(num, form, INT_FIELDS[i])
    requires Val(num, form, "minBet") <= Val(num, form, "maxBet")
    requires TiersOk(num, form, STANDARD_TIERS, Val(num, form, "maxBet"))
    requires forall i :: 0 <= i < |STANDARD_TIERS| ==> Val(num, form, "minBet") <= Val(num, form, STANDARD_TIERS[i].field)
    ensures ConsistentBets(ApplySettings(g, BuildPatch(num, form, STANDARD_TIERS)).economy)
  {
    var w := ApplySettings(g, BuildPatch(num, form, STANDARD_TIERS)).economy;
    BuiltEconomy(num, form, g);
    assert IsCount(num, form, INT_FIELDS[1]) && IsCount(num, form, INT_FIELDS[2]);
    var t := TierAmounts(w);
    forall i | 0 <= i < |t|
      ensures w.minBet <= t[i] <= w.maxBet
      ensures i > 0 ==> t[i - 1] <= t[i]
    {
      assert Val(num, form, STANDARD_TIERS[i].field) == t[i];
      if i > 0 {
        assert Val(num, form, STANDARD_TIERS[i - 1].field) == t[i - 1];
      }
    }
  }

  /** The bet fields of the economy written by the patch built from the form. */
  lemma BuiltEconomy(num: Parser, form: Form, g: GuildRecord)
    requires "lang" in form && MultiplierOk(form)
    ensures var w := ApplySettings(g, BuildPatch(num, form, STANDARD_TIERS)).economy;
            && w.minBet == Val(num, form, "minBet") && w.maxBet == Val(num, form, "maxBet")
            && |TierAmounts(w)| == |STANDARD_TIERS|
            && forall i :: 0 <= i < |STANDARD_TIERS| ==> TierAmounts(w)[i] == Val(num, form, STANDARD_TIERS[i].field)
  {
    var p := BuildPatch(num, form, STANDARD_TIERS);
    var e := g.economy.(
      initBalance := p.initBalance, maxBet := p.maxBet, minBet := p.minBet, xpLevel := p.xpLevel,
      initBalloon := p.initBalloon, initMobile := p.initMobile, initBike := p.initBike,
      initCar := p.initCar, initCastle := p.initCastle,
      initMultiplier := p.initMultiplier, initLevel := p.initLevel,
      rewardWork := p.rewardWork, rewardDaily := p.rewardDaily, rewardWeekly := p.rewardWeekly);
    var w := ApplySettings(g, p).economy;
    assert w == SetTiers(e, p.tierValues);
    SetTiersKeepsOthers(e, p.tierValues);
    StandardTierAt(num, e, form);
  }

  /** With `ParseNumber` as the conversion, a field holding a decimal rendering is accepted with that value. */
  lemma DecimalFieldAccepted(form: Form, field: string, n: nat)
    requires field in form && form[field] == NatToString(n)
    ensures IsCount(ParseNumber, form, field) && Val(ParseNumber, form, field) == n
  {
    ParseNumberRoundTrip(n);
  }

  /** With `ParseNumber` as the conversion, a negative rendering is rejected. */
  lemma NegativeFieldRejected(form: Form, field: string, n: nat)
    requires n > 0 && field in form && form[field] == "-" + NatToString(n)
    ensures !IsCount(ParseNumber, form, field)
  {
    ParseNumberRoundTrip(n);
  }
}
