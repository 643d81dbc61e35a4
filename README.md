# Casino bot dashboard: settings, players, profiles, premium and schema defaults

This project models, in Dafny, the logic of a Discord casino bot's web dashboard. Administrators use the
dashboard to configure their guilds, and it keeps the guild and player documents in MongoDB. The model
covers five parts:

- **Settings form handler.** A chain of checks that stops at the first failure:
  - the bot is in the guild;
  - the caller is the owner or has the ADMINISTRATOR bit;
  - the language is a configured code;
  - the thirteen integer fields hold non-negative integers;
  - `minBet <= maxBet`;
  - the multiplier matches the two-decimal pattern;
  - the bet-level tiers, checked in order;
  - `minBet` is at most every tier.

  When all checks pass, the handler makes one upsert of a fully determined guild document. The store
  (`GuildStore.GuildStore`) is a class over a map of documents, and it is left unchanged on every
  rejection.
- **Player editor.** The request body is folded into a `$set` dictionary:
  - keys starting with `last` or `battlePass` are dropped;
  - a `parent.child` key is merged into one nested object per parent;
  - any other key is copied as given.

  It also covers the paged, profile-enriched, search-filtered player list.
- **Discord profile cache.** A read-through cache with a ten-minute lifetime. Failed fetches are not
  stored. `DiscordUsers.UserCache` is a class, and the clock and the fetch outcome are inputs.
- **Stripe webhook.** A completed checkout marks the guild premium (`vipServer`). The subscription is then
  recorded in the buyer's list: the first entry for the same guild is replaced in place, or the new entry
  is appended, or the list is created with this one entry.
- **Player schema defaults.** `getDefaultInfo` flattens the player schema descriptor into a
  default document, one nesting level deep. The descriptor is a JavaScript value (`InfoSchema.JsVal`)
  whose objects keep their keys in insertion order.

Inputs that come from outside the handlers are parameters:
- whether the bot is in the guild;
- the session's guild list;
- the configured languages and bet-level tiers;
- the text-to-number conversion;
- the current time;
- the outcome of the Discord request;
- the signature verification result;
- the storage failure points.

Each loop of the source is a method proved equal to a specification function. The properties are proved
about those functions.

## Model

| member | source | states |
|---|---|---|
| Text.FirstDot | controllers/serverController.js:351-352 | the index of the first dot, or the length; no dot occurs before it |
| Text.Lower | controllers/serverController.js:283 | `toLowerCase` keeps the length and lowers each ASCII letter |
| Permissions.IsAdmin | controllers/serverController.js:96 | `owner \|\| (BigInt(permissions) & 0x8n) === 0x8n`; AdminIff states it as a bit test |
| Permissions.MayManage | controllers/serverController.js:95-101 | the handler's gate: the session lists the guild and the first entry with its id passes the administrator test; MayManageFiltered relates it to the login filter |
| Permissions.AdministratorMask | controllers/serverController.js:96 | `permissions & 0x8` is 8 exactly when bit 3 of the mask is set, and 0 otherwise |
| Permissions.AdminIff | controllers/serverController.js:96 | the administrator test holds if and only if the caller owns the guild or bit 3 of the mask is set |
| Permissions.FindGuild | controllers/serverController.js:95 | `find` gives the first session guild with the id, or nothing exactly when no guild has it |
| Permissions.AdminGuilds | routes/auth.js:32-34 | the login filter keeps exactly the guilds that pass the administrator test |
| Permissions.MayManageFiltered | routes/dashboard.js:11-13 | on a filtered session list, the permission gate holds if and only if some administered guild has the id |
| JsNumber.ParseNumber | controllers/serverController.js:116 | `Number(str)` as an integer or not, in exact arithmetic: optional sign, digits, optional all-zero fraction; the empty string is 0 |
| JsNumber.ParseNumberRoundTrip | controllers/serverController.js:116-117 | the conversion reads every decimal rendering back as its value, with or without a minus sign (JavaScript agrees up to 2^53) |
| JsNumber.MultiplierAcceptsWhole | controllers/serverController.js:10-12 | every non-empty digit string matches the multiplier pattern and reads as that many whole units |
| JsNumber.MultiplierAcceptsFraction | controllers/serverController.js:10-12 | digits, a dot and one or two digits match the pattern; with two digits they read as the value in hundredths |
| JsNumber.IsValidMultiplier | controllers/serverController.js:10-12 | `/^\d+(\.\d{1,2})?$/`: digits up to the first dot, then nothing or one or two digits |
| JsNumber.MultiplierShape | controllers/serverController.js:10-12 | every matching string is a non-empty digit string, alone or followed by a dot and one or two digits; with the two acceptance lemmas, the pattern matches exactly these strings |
| JsNumber.MultiplierHundredths | controllers/serverController.js:136 | a matching multiplier is never negative, so the handler's `< 0` test never rejects on its own |
| JsNumber.MultiplierRoundTrip | controllers/serverController.js:10-12 | any value in hundredths, written as `<whole>.<two digits>`, matches the pattern and reads back as itself |
| GuildModel.Current | models/Guild.js:33-63 | the upsert starts from the stored document, or from a new one with the id, `lang = "en"`, no premium and the configured numeric defaults |
| GuildModel.SetTierField | controllers/serverController.js:210 | `$set` of a tier path changes that tier only; a path the schema lacks changes nothing |
| Settings.FirstInvalidFromSpec | controllers/serverController.js:115-123 | the integer-field loop reports nothing if and only if all fields are non-negative integers, and otherwise the first field that is not |
| Settings.FindInvalidField | controllers/serverController.js:115-123 | the loop returns the first field of the thirteen that is not a non-negative integer |
| Settings.TierCheckFromSpec | controllers/serverController.js:144-173 | the tier loop reports nothing if and only if no tier has an error, and otherwise the error of the first tier that has one |
| Settings.CheckTiers | controllers/serverController.js:144-173 | the tier loop returns the first tier error, in tier order |
| Settings.TierCheckIff | controllers/serverController.js:144-173 | the tier loop passes if and only if every tier is a non-negative integer, at most `maxBet` and at least its predecessor |
| Settings.AnyTierBelow | controllers/serverController.js:176-182 | the scan is true if and only if `minBet` exceeds some tier |
| Settings.TierValues | controllers/serverController.js:210 | one `(field, number)` pair per tier, in tier order |
| Settings.Validate | controllers/serverController.js:83-182 | the chain of checks as one function: the first failing check's error, or the patch to write; ValidateReportsFirstFailure states its meaning |
| Settings.ValidateSettings | controllers/serverController.js:83-182 | the handler's checks, run in order, give the result of the validation chain |
| Settings.ValidateReportsFirstFailure | controllers/serverController.js:86-182 | a form is accepted if and only if all eight stages pass; a rejection names a failing stage after which every earlier stage passed |
| Settings.NumbersReportFirstFailure | controllers/serverController.js:115-182 | the numeric stages (fields, min/max, multiplier, tiers, minimum against tiers) report their first failure, in that order |
| Settings.TiersReportFirstFailure | controllers/serverController.js:144-182 | a tier error is reported before the minimum-against-tiers check, which runs only once the tier loop passes |
| Settings.ValidateReportsFirstItem | controllers/serverController.js:115-173 | within the integer fields and within the tiers, the rejection names the first item that fails |
| Settings.FirstTierSmallest | controllers/serverController.js:163-172 | once the tiers pass, the first tier is the smallest |
| Settings.MinAboveSomeTierIffFirst | controllers/serverController.js:176-182 | once the tiers pass, `minBet` exceeds some tier if and only if it exceeds the first |
| Settings.StandardTiersWritten | controllers/serverController.js:210 | writing the six standard tiers sets the six tier fields to the six submitted numbers, in order |
| Settings.AcceptedPatch | controllers/serverController.js:185-214 | an accepted form passed every stage, and its patch is built from the form |
| Settings.AcceptedWrite | controllers/serverController.js:188-208 | the accepted write sets: the language to a configured code; each checkbox to whether the form says "on"; each channel to the submitted id, or null if absent or empty. It keeps the id, the premium flag and the unused-command list |
| Settings.AcceptedNumbers | controllers/serverController.js:193-206 | the accepted write stores each of the thirteen integers as its parsed value, and the multiplier in hundredths |
| Settings.AcceptedTiers | controllers/serverController.js:210 | with the standard tiers, the accepted write stores every tier field as its parsed value |
| Settings.SetTiersKeepsOthers | controllers/serverController.js:210 | tier entries change only tier fields |
| Settings.AcceptedSettingsConsistent | controllers/serverController.js:125-182 | with the standard tiers, an accepted write satisfies `0 <= minBet <= tier_i <= maxBet`, and the tiers never decrease with level |
| Settings.BuiltPatchConsistent | controllers/serverController.js:185-214 | the patch built from a form that passed the bet checks leaves consistent bets |
| Settings.BuiltEconomy | controllers/serverController.js:194-210 | the written minimum, maximum and tier values are the form's parsed numbers |
| Settings.DecimalFieldAccepted | controllers/serverController.js:116-117 | with `ParseNumber` as the conversion, a field holding a decimal rendering passes the integer check with that value |
| Settings.NegativeFieldRejected | controllers/serverController.js:117 | with `ParseNumber` as the conversion, a negative rendering fails the integer check |
| GuildStore.Activated | routes/stripeWebhook.js:35 | the activated document is premium |
| GuildStore.ActivatedChangesOnlyFlag | routes/stripeWebhook.js:33-37 | activation changes the premium flag and nothing else, and is idempotent |
| GuildStore.GuildStore.UpdateServerSettings | controllers/serverController.js:83-228 | a rejection returns the chain's first error and writes nothing. An acceptance writes only the guild's document: the current one or the schema's new one, with the patch applied. It returns that document |
| GuildStore.GuildStore.ActivatePremium | routes/stripeWebhook.js:33-37 | upserts the guild with `vipServer = true`, from the defaults when absent |
| GuildStore.ActivationIdempotent | routes/stripeWebhook.js:33-37 | activating twice writes the same collection as activating once |
| GuildStore.ActivationLocal | routes/stripeWebhook.js:33-37 | activation leaves other guilds alone. An existing document changes only its premium flag; an absent one is created from the defaults |
| PlayerPatch.PatchOf | controllers/serverController.js:344-357 | the patch as a fold over the body's entries in order; PatchKeys, PlainLastWins and DottedChildKept state what it holds |
| PlayerPatch.BuildPlayerPatch | controllers/serverController.js:344-357 | the loop over the body's entries builds the patch that the fold over the body defines |
| PlayerPatch.SkippedIff | controllers/serverController.js:344-349 | an entry is skipped exactly when its key starts with `last` or `battlePass` |
| PlayerPatch.TargetNotSkipped | controllers/serverController.js:348-353 | the top-level key an unskipped entry writes is never itself a skipped key |
| PlayerPatch.PatchNeverSkipped | controllers/serverController.js:347-357 | no key of the patch starts with `last` or `battlePass`, whatever the body |
| PlayerPatch.PatchKeys | controllers/serverController.js:347-357 | the patch's keys are exactly the top-level keys that unskipped entries write |
| PlayerPatch.PlainLastWins | controllers/serverController.js:354-356 | a plain key that no later entry overrides keeps its value verbatim |
| PlayerPatch.DottedChildKept | controllers/serverController.js:351-353 | `p.c` sets `patch[p][c]`; later keys with parent `p` and other children keep it |
| PlayerPatch.Segments | controllers/serverController.js:352 | for `p.c` and `p.c.rest`, the parent is `p` and the child is `c`; later segments are ignored |
| Players.FindPlayer | controllers/serverController.js:338 | the first document with the user id, or nothing exactly when none has it |
| Players.UpdateKeepsReserved | controllers/serverController.js:344-359 | the `$set` never adds, removes or changes a field starting with `last` or `battlePass` |
| Players.UpdateKeepsCooldowns | config/getInfoSchema.js:91-104 | every cooldown field of the default player document is left as it was by the editor |
| Players.UpdateWritesPlainKey | controllers/serverController.js:355-359 | a plain key that is not overridden is stored as given; fields outside the patch are kept |
| Players.PageNumber | controllers/serverController.js:284 | `parseInt(page) \|\| 1`: NaN and 0 fall back to page 1; any other number is kept |
| Players.TotalPages | controllers/serverController.js:315 | `ceil(total / 5)`: the pages cover the total, and the last page is not empty |
| Players.PageOf | controllers/serverController.js:286-290 | `skip` then `limit(5)`: at most five documents, and none past the end |
| Players.FirstPagesPrefix | controllers/serverController.js:284-290 | pages 1 to n, one after another, are the first `5n` documents |
| Players.PagesCoverCollection | controllers/serverController.js:284-315 | walking pages 1 to `totalPages` lists every document once, in order |
| Players.FilterPlayers | controllers/serverController.js:305-311 | the filter keeps exactly the players that match the search (all of them when the search is empty) |
| Players.FilterIsSubsequence | controllers/serverController.js:305-311 | the filtered list keeps the page's order |
| Players.EnrichAll | controllers/serverController.js:293-302 | one enriched player per page document: the document with `username` and `avatar` of the profile that one `getDiscordUser` lookup of its `userId` against the starting cache gives (the fresh cached entry, else the fetched profile, else the placeholder). Each page user ends with the entry that lookup leaves; other users' entries are untouched |
| Players.EnrichKeepsDocument | controllers/serverController.js:296-300 | an enriched player is its document with `username` and `avatar` present and nothing else changed |
| Players.PageFailureNotStored | controllers/serverController.js:259-266 | a user whose fetch fails has, after the whole page, the cache entry it had before, or none |
| Players.PageSuccessStored | controllers/serverController.js:249-258 | a page user without a fresh entry whose fetch succeeds ends with the fetched profile, stamped now |
| Players.EnrichPage | controllers/serverController.js:293-302 | the per-player lookups give the enriched players and the cache that the lookup chain defines |
| Players.PlayerStore.UpdateServerPlayer | controllers/serverController.js:326-366 | 401 without a session; 403 without the administrator test; 404 for an unknown player. 200 sets the patch on the first matching document only. Nothing is written unless the answer is 200 |
| Players.PlayerStore.GetServerPlayers | controllers/serverController.js:270-323 | 401, 403, or 500 on a negative skip, with the cache unchanged. Otherwise: the requested page, `ceil(total/5)` pages and the unfiltered total, with the page's enriched players filtered by the lowered search |
| Players.ListedPlayersFromPage | controllers/serverController.js:283-318 | the listed players are an ordered sub-list of the page, at most five, and include a page player exactly when it matches |
| DiscordUsers.Resolve | controllers/serverController.js:233-267 | one cache step: the answer, the next cache and whether Discord was asked; the four lemmas below state its behaviour |
| DiscordUsers.UserCache.GetDiscordUser | controllers/serverController.js:233-267 | the answer, the new cache and whether Discord was asked are those of one cache step |
| DiscordUsers.FreshEntryServed | controllers/serverController.js:234-239 | a fresh entry is answered without a fetch, whatever Discord would say, and the cache is unchanged |
| DiscordUsers.StaleEntryRefetched | controllers/serverController.js:241-266 | a miss or expired entry asks Discord. Success stores the profile, stamped now, for this user only. Failure answers `Unknown (<id>)` with the default avatar and stores nothing |
| DiscordUsers.StoredProfileLifetime | controllers/serverController.js:237-258 | a stored profile is served for the next ten minutes, and refetched from then on |
| DiscordUsers.FailureNotMemoised | controllers/serverController.js:259-266 | after a failure the next call asks Discord again |
| DiscordUsers.ResolveAgreeAt | controllers/serverController.js:234-266 | a lookup depends on the cache only through the user's own entry, and changes no other user's entry |
| DiscordUsers.ResolveTwice | controllers/serverController.js:234-266 | asking again at the same time, with the same Discord answer, gives the same profile and leaves the user's entry as it was |
| Subscriptions.NewEntry | routes/stripeWebhook.js:40-50 | the new entry is active, not cancelling, for the guild and created now. Each id is the session's when present and non-empty, and otherwise `unknown_subscription_id` or `unknown_customer_id` |
| Subscriptions.IndexOfGuild | routes/stripeWebhook.js:56 | `findIndex`: the first entry of the guild, or -1 exactly when none matches |
| Subscriptions.FindIndex | routes/stripeWebhook.js:56 | the scan returns `findIndex`'s answer |
| Subscriptions.Upsert | routes/stripeWebhook.js:55-62 | replace the first entry of the guild, or append; UpsertReplaces, UpsertAppends, UpsertIdempotent and UpsertKeepsUnique state it |
| Subscriptions.Record | routes/stripeWebhook.js:52-63 | create the user's list with the entry, or upsert into it; RecordCreates and RecordIdempotent state it |
| Subscriptions.UpsertReplaces | routes/stripeWebhook.js:56-58 | an existing entry for the guild is replaced at its index; length and all other entries are kept |
| Subscriptions.UpsertAppends | routes/stripeWebhook.js:59-60 | without an entry for the guild, the new one is appended; the old list is its prefix |
| Subscriptions.UpsertIdempotent | routes/stripeWebhook.js:52-63 | recording the same entry twice gives the list after recording it once |
| Subscriptions.UpsertKeepsUnique | routes/stripeWebhook.js:52-63 | unique guild ids stay unique, and the list then holds exactly one entry for the guild, the new one |
| Subscriptions.RecordCreates | routes/stripeWebhook.js:52-54 | a user without an aggregate gets one holding exactly the new entry |
| Subscriptions.RecordIdempotent | routes/stripeWebhook.js:52-63 | recording twice leaves the whole collection as recording once |
| Subscriptions.SubscriptionStore.RecordSubscription | routes/stripeWebhook.js:52-63 | find, then create or replace or push, then save: the collection becomes the recorded one |
| StripeWebhook.HandleWebhook | routes/stripeWebhook.js:12-107 | 400 and no writes for a failed signature. Otherwise 200: only a completed checkout writes, the guild first, then the subscription, and a failing write stops the rest |
| StripeWebhook.CompletedCheckoutEffect | routes/stripeWebhook.js:24-63 | other event types change nothing. A completed checkout makes the guild premium and leaves the buyer exactly one entry for it: the new active one |
| StripeWebhook.RedeliveryIdempotent | routes/stripeWebhook.js:31-63 | redelivering the same event leaves both collections as the first delivery did |
| InfoSchema.SetProp | config/getInfoSchema.js:142-146 | `obj[key] = v`: the key then holds v; every other key keeps its value and presence |
| InfoSchema.SetPropTwice | config/getInfoSchema.js:144-146 | assigning a key twice is assigning it once with the second value |
| InfoSchema.DefaultInfoOf | config/getInfoSchema.js:136-152 | the flattened document as a fold over the descriptor's entries; the DefaultInfo lemmas below state its keys and values |
| InfoSchema.GetDefaultInfo | config/getInfoSchema.js:136-152 | the nested loops build the document that the fold over the descriptor defines |
| InfoSchema.SubDefaultsDistinct | config/getInfoSchema.js:145-147 | with distinct sub-keys, the sub-object lists each sub-key once, in order, with its sub-value's default |
| InfoSchema.DefaultInfoKeys | config/getInfoSchema.js:140-149 | the document has a key exactly for each object-typed descriptor entry |
| InfoSchema.DefaultInfoLast | config/getInfoSchema.js:140-149 | an entry whose key is not repeated later gives that key its entry value |
| InfoSchema.DefaultInfoDistinct | config/getInfoSchema.js:140-149 | with distinct keys, the document lists each descriptor key once, in order, with its entry value |
| InfoSchema.DefaultInfoGet | config/getInfoSchema.js:140-149 | with distinct object-typed entries, each key holds its entry value |
| InfoSchema.TypedDefault | config/getInfoSchema.js:141-142 | the default of `{type, default: d}` is d, even a falsy one |
| InfoSchema.ObjectWithoutDefault | config/getInfoSchema.js:143-147 | an entry without `default` maps to the object of exactly its sub-keys, each with its default |
| InfoSchema.FieldsEntry | config/getInfoSchema.js:143-147 | a nested `{name: {type, default}}` entry maps each name to its default |
| InfoSchema.DescriptorKeysDistinct | config/getInfoSchema.js:78-119 | the descriptor's 21 keys are distinct |
| InfoSchema.DescriptorShape | config/getInfoSchema.js:78-119 | the descriptor has those keys, in order, each holding an object |
| InfoSchema.BalanceDefault | config/getInfoSchema.js:81 | a new player's balance is the configured starting balance |
| InfoSchema.LevelDefault | config/getInfoSchema.js:82 | a new player's level is the configured starting level |
| InfoSchema.ExperienceDefault | config/getInfoSchema.js:83 | a new player's experience is 0, the falsy default kept |
| InfoSchema.MultiplierDefault | config/getInfoSchema.js:105-108 | a new player's multiplier is the configured two-decimal text |
| InfoSchema.CooldownDefaults | config/getInfoSchema.js:91-104 | all fourteen cooldowns start with `last` and default to 0 |
| InfoSchema.UserIdDefaults | config/getInfoSchema.js:80 | `userId` has no default, so it maps to `{type, required, unique}`, each undefined |
| InfoSchema.UserIdEntry | config/getInfoSchema.js:80 | the `userId` entry's sub-values carry no default |
| InfoSchema.SwagDefaults | config/getInfoSchema.js:84-90 | `swag` is `{balloon, mobile, bike, car, castle}` at their configured amounts |
| InfoSchema.SwagEntry | config/getInfoSchema.js:84-90 | the `swag` entry maps each item to its configured amount |
| InfoSchema.BattlePassDefaults | config/getInfoSchema.js:109-117 | `battlePass` is `{active: false, level: 1, rewardsClaimed: [], experience: 0}` |
| InfoSchema.BattlePassEntry | config/getInfoSchema.js:109-117 | the `battlePass` entry maps each sub-field to its default |

## Left out

- JavaScript's `Number(str)` is a parameter of the settings model (`Settings.Parser`). It reports only whether the value is an integer, and which one. `JsNumber.ParseNumber` is one such conversion, without whitespace, exponents, or hexadecimal, binary (`0b`) and octal (`0o`) literals, which `Number` accepts.
- JsNumber.ParseNumber: reads in exact arithmetic, whereas `Number` rounds to the nearest double. They differ above 2^53 (`"9007199254740993"` is 9007199254740992 in JavaScript) and on fractions below double precision (`"1.0000000000000001"` is 1 in JavaScript and passes the integer check; here it is not an integer).
- JsNumber.ParseNumberRoundTrip: the round trip is of `ParseNumber`; for JavaScript's `Number` it holds only up to 2^53.
- Settings.DecimalFieldAccepted: stated with `ParseNumber`; with JavaScript's `Number`, a rendering above 2^53 passes with a rounded value.
- The settings form is a map from field names to strings (an urlencoded form). JSON bodies and extended-urlencoded nested values, whose numbers, arrays and objects behave differently under `Number`, the pattern test and `|| null`, are not modelled.
- The multiplier is stored in hundredths rather than as a JavaScript number. This is exact for every value the pattern accepts. The `toFixed(2)` of the configured multiplier default is taken as given text.
- `Settings.AcceptedSettingsConsistent`, `Settings.AcceptedTiers`: these are stated for the six standard tiers only, the tier layout of the guild schema. With another tier configuration, tier paths that are not in the schema are dropped (strict mode), and a duplicated tier path lets the later write win.
- Mongoose casting, validation and strict mode are modelled only as far as dropping undeclared tier paths. Database errors on the settings and player handlers' catch paths are not modelled.
- The settings page listing and the server list (`getServers`) are not part of this model. The server list reads `guildDB.premium`, which is not a schema field; the model follows the schema's `vipServer`.
- In the player editor, spreading an earlier non-object value under a parent is modelled as an empty object. This includes a string and an array: JavaScript would spread a string's characters and an array's indices, so `swag = [1, 2]` followed by `swag.x = 3` gives `{"0": 1, "1": 2, "x": 3}` there, and `{"x": 3}` here. A body given as anything but an object of entries is not modelled.
- `Players.PlayerStore.GetServerPlayers`: a document whose `userId` is not a string is matched as the empty string. In the source, such a document with a non-empty search makes `p.userId.includes` throw, and the handler answers 500; the model answers with the page and does not list that document (unless its username matches). The schema requires `userId`, so such documents come only from writes outside the dashboard. The search is lowered for ASCII letters only. A `search` given as an array is not modelled. The concurrent `Promise.all` lookups are modelled one after another, so the duplicate-miss race on the cache is not captured.
- The Discord user request, the OAuth guild listing, the gateway client and the Stripe SDK are inputs: the fetch outcome, the session list, bot presence and signature verification.
- The time is an input. `Date` objects are integers in milliseconds.
- `Subscriptions.NewEntry`: the period end is always null. The completed session carries the subscription as an id string, which has no `current_period_end`.
- The purchase notification embed and its channel delivery are not modelled. Their failure does not change the 200 answer.
- `InfoSchema.DefaultInfo`: configuration values are taken as already-parsed integers. A NaN from `parseInt` is not modelled. A `null` or `undefined` sub-value, whose `.default` would throw, is not modelled; `DefaultOf` gives `undefined` for it. The player descriptor has neither.
- OAuth login, sessions, CSRF, rate limiting, views and client-side rendering are not modelled.
