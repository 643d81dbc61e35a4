/**
 * The per-guild player collections as the dashboard reads and edits them:
 * the paged, profile-enriched, search-filtered player list and the player
 * editor's `$set`. Each guild's collection is a sequence of documents in
 * natural order.
 */
module Players {
  import opened Wrappers
  import opened Text
  import opened Permissions
  import opened PlayerPatch
  import opened DiscordUsers
  import InfoSchema

  /** One player document: field name to value. */
  type PlayerDoc = map<string, JsonValue>

  /** Players per page. */
  const PAGE_SIZE: nat := 5

  /** A string-valued field of a document; "" when absent or not a string. */
  function StringField(doc: PlayerDoc, key: string): string
  {
    if key in doc && doc[key].JStr? then doc[key].s else ""
  }

  /** `findOne({ userId })`: the first document of the collection with that user id. */
  function FindPlayer(docs: seq<PlayerDoc>, userId: string): (r: Option<nat>)
    ensures r.None? <==> forall i :: 0 <= i < |docs| ==> StringField(docs[i], "userId") != userId
    ensures r.Some? ==> r.value < |docs| && StringField(docs[r.value], "userId") == userId
                        && forall j :: 0 <= j < r.value ==> StringField(docs[j], "userId") != userId
  {
    if docs == [] then None
    else if StringField(docs[0], "userId") == userId then Some(0)
    else match FindPlayer(docs[1..], userId)
      case None => None
      case Some(k) =>
        assert forall j :: 1 <= j < k + 1 ==> docs[j] == docs[1..][j - 1];
        Some(k + 1)
  }

  /** `$set` of a patch: every top-level key of the patch replaces the document's field. */
  function ApplyPatch(doc: PlayerDoc, patch: Patch): PlayerDoc
  {
    doc + patch
  }

  /**
   * The player editor never changes a cooldown or battle-pass field,
   * whatever the body holds.
   */
  lemma UpdateKeepsReserved(doc: PlayerDoc, body: Body, k: string)
    requires StartsWith(k, "last") || StartsWith(k, "battlePass")
    ensures k in ApplyPatch(doc, PatchOf(body)) <==> k in doc
    ensures k in doc ==> ApplyPatch(doc, PatchOf(body))[k] == doc[k]
  {
    PatchNeverSkipped(body);
  }

  /**
   * The editor leaves every cooldown a new player's document starts with
   * exactly as it was, whatever the body holds.
   */
  lemma UpdateKeepsCooldowns(doc: PlayerDoc, body: Body, i: nat)
    requires i < |InfoSchema.COOLDOWN_FIELDS|
    ensures var k, r := InfoSchema.COOLDOWN_FIELDS[i], ApplyPatch(doc, PatchOf(body));
            (k in r <==> k in doc) && (k in doc ==> r[k] == doc[k])
  {
    InfoSchema.CooldownNames();
    UpdateKeepsReserved(doc, body, InfoSchema.COOLDOWN_FIELDS[i]);
  }

  /**
   * A plain key of the body that no later entry overrides is stored as
   * given; the document's other fields outside the patch are kept.
   */
  lemma UpdateWritesPlainKey(doc: PlayerDoc, body: Body, i: nat)
    requires i < |body| && !Skipped(body[i].0) && !Dotted(body[i].0)
    requires forall j :: i < j < |body| && !Skipped(body[j].0) ==> Target(body[j].0) != body[i].0
    ensures body[i].0 in ApplyPatch(doc, PatchOf(body))
    ensures ApplyPatch(doc, PatchOf(body))[body[i].0] == body[i].1
    ensures forall k :: k in doc && k !in PatchOf(body) ==> ApplyPatch(doc, PatchOf(body))[k] == doc[k]
  {
    PlainLastWins(body, i);
  }

  /** `parseInt(req.query.page) || 1`: NaN (`None`) and 0 fall back to the first page. */
  function PageNumber(parsed: Option<int>): (page: int)
    ensures page != 0
    ensures parsed.Some? && parsed.value != 0 ==> page == parsed.value
    ensures parsed.None? || parsed.value == 0 ==> page == 1
  {
    if parsed.Some? && parsed.value != 0 then parsed.value else 1
  }

  /** `(page - 1) * limit` */
  function Skip(page: int): int
  {
    (page - 1) * PAGE_SIZE
  }

  /** `Math.ceil(totalPlayers / limit)` */
  function TotalPages(total: nat): (r: nat)
    ensures r * PAGE_SIZE >= total
    ensures r > 0 ==> (r - 1) * PAGE_SIZE < total
  {
    (total + PAGE_SIZE - 1) / PAGE_SIZE
  }

  function Min(a: int, b: int): int
  {
    if a <= b then a else b
  }

  /** `find().skip(skip).limit(limit)` on a collection, for a non-negative skip. */
  function PageOf(docs: seq<PlayerDoc>, skip: nat): (r: seq<PlayerDoc>)
    ensures |r| <= PAGE_SIZE
    ensures skip >= |docs| ==> r == []
  {
    docs[Min(skip, |docs|)..Min(skip + PAGE_SIZE, |docs|)]
  }

  /** Pages `1..n` of a collection, one after the other. */
  function FirstPages(docs: seq<PlayerDoc>, n: nat): seq<PlayerDoc>
  {
    if n == 0 then [] else FirstPages(docs, n - 1) + PageOf(docs, (n - 1) * PAGE_SIZE)
  }

  /** The first `n` pages are the collection's first `5 n` documents. */
  lemma {:induction false} FirstPagesPrefix(docs: seq<PlayerDoc>, n: nat)
    ensures FirstPages(docs, n) == docs[..Min(n * PAGE_SIZE, |docs|)]
  {
    if n > 0 {
      FirstPagesPrefix(docs, n - 1);
      var a, b := Min((n - 1) * PAGE_SIZE, |docs|), Min(n * PAGE_SIZE, |docs|);
      assert docs[..a] + docs[a..b] == docs[..b];
    }
  }

  /** Walking pages 1 to `totalPages` lists every document once, in order. */
  lemma PagesCoverCollection(docs: seq<PlayerDoc>)
    ensures FirstPages(docs, TotalPages(|docs|)) == docs
  {
    FirstPagesPrefix(docs, TotalPages(|docs|));
    assert docs[..|docs|] == docs;
  }

  /** `p.userId.includes(search) || p.username.toLowerCase().includes(search)` */
  predicate Matches(view: PlayerDoc, search: string)
  {
    Includes(StringField(view, "userId"), search) || Includes(Lower(StringField(view, "username")), search)
  }

  /** The search filter, applied only for a non-empty search. */
  function FilterPlayers(views: seq<PlayerDoc>, search: string): (r: seq<PlayerDoc>)
    ensures |r| <= |views|
    ensures forall v :: v in r ==> v in views && (search == "" || Matches(v, search))
    ensures forall v :: v in views && (search == "" || Matches(v, search)) ==> v in r
  {
    if search == "" || views == [] then views
    else if Matches(views[0], search) then [views[0]] + FilterPlayers(views[1..], search)
    else FilterPlayers(views[1..], search)
  }

  /** `a` is `b` with some elements left out, order kept. */
  predicate Subsequence(a: seq<PlayerDoc>, b: seq<PlayerDoc>)
    decreases |b|
  {
    if a == [] then true
    else if b == [] then false
    else (a[0] == b[0] && Subsequence(a[1..], b[1..])) || Subsequence(a, b[1..])
  }

  /** Every sequence is a subsequence of itself. */
  lemma {:induction false} SubsequenceRefl(a: seq<PlayerDoc>)
    ensures Subsequence(a, a)
  {
    if a != [] {
      SubsequenceRefl(a[1..]);
    }
  }

  /** The filter keeps the page's order: its result is a subsequence of the page. */
  lemma {:induction false} FilterIsSubsequence(views: seq<PlayerDoc>, search: string)
    ensures Subsequence(FilterPlayers(views, search), views)
  {
    if search == "" || views == [] {
      SubsequenceRefl(views);
    } else {
      FilterIsSubsequence(views[1..], search);
      var rest := FilterPlayers(views[1..], search);
      if Matches(views[0], search) {
        assert ([views[0]] + rest)[1..] == rest;
      }
    }
  }

  /** `{ ...p.toObject(), username, avatar }` */
  function Enrich(doc: PlayerDoc, info: UserInfo): PlayerDoc
  {
    doc["username" := JStr(info.username)]["avatar" := JStr(info.avatar)]
  }

  /** The enriched players of a page, and the profile cache after their lookups. */
  datatype Enriched = Enriched(views: seq<PlayerDoc>, cache: map<string, UserInfo>)

  /** Some document of the page belongs to `userId`. */
  predicate OnPage(docs: seq<PlayerDoc>, userId: string)
  {
    exists i :: 0 <= i < |docs| && StringField(docs[i], "userId") == userId
  }

  /** A user is on a page extended by one document when on the old page or the owner of that document. */
  lemma OnPageSnoc(docs: seq<PlayerDoc>, doc: PlayerDoc)
    ensures forall userId :: OnPage(docs + [doc], userId) <==> OnPage(docs, userId) || userId == StringField(doc, "userId")
  {
    var page := docs + [doc];
    assert page[|docs|] == doc;
    forall userId | OnPage(docs, userId)
      ensures OnPage(page, userId)
    {
      var i :| 0 <= i < |docs| && StringField(docs[i], "userId") == userId;
      assert page[i] == docs[i];
    }
    forall userId | OnPage(page, userId) && userId != StringField(doc, "userId")
      ensures OnPage(docs, userId)
    {
      var i :| 0 <= i < |page| && StringField(page[i], "userId") == userId;
      assert i < |docs| && page[i] == docs[i];
    }
  }

  /**
   * One more lookup on a cache that agrees, user by user, with one independent
   * lookup per user of the page so far keeps that agreement for the page with
   * one more document, and answers as an independent lookup would.
   */
  lemma EnrichStep(cache: map<string, UserInfo>, docs: seq<PlayerDoc>, before: map<string, UserInfo>,
                   doc: PlayerDoc, now: int, fetch: string -> Option<UserData>)
    requires forall userId :: OnPage(docs, userId) ==>
               AgreeAt(before, Resolve(cache, userId, now, fetch(userId)).cache, userId)
    requires forall userId :: !OnPage(docs, userId) ==> AgreeAt(before, cache, userId)
    ensures var userId := StringField(doc, "userId");
            var lookup := Resolve(before, userId, now, fetch(userId));
            && lookup.info == Resolve(cache, userId, now, fetch(userId)).info
            && (forall u :: OnPage(docs + [doc], u) ==> AgreeAt(lookup.cache, Resolve(cache, u, now, fetch(u)).cache, u))
            && (forall u :: !OnPage(docs + [doc], u) ==> AgreeAt(lookup.cache, cache, u))
  {
    var userId := StringField(doc, "userId");
    var single := Resolve(cache, userId, now, fetch(userId));
    OnPageSnoc(docs, doc);
    ResolveAgreeAt(before, before, userId, now, fetch(userId));
    if OnPage(docs, userId) {
      ResolveAgreeAt(before, single.cache, userId, now, fetch(userId));
      ResolveTwice(cache, userId, now, fetch(userId));
    } else {
      ResolveAgreeAt(before, cache, userId, now, fetch(userId));
    }
  }

  /**
   * The page's profile lookups, one per player in page order, threading the
   * cache. Threading changes nothing a player sees: each player shows the
   * profile a single lookup against the starting cache would give, and each
   * user of the page ends with the entry that lookup would leave. The cache
   * entries of users not on the page are untouched.
   */
  function EnrichAll(cache: map<string, UserInfo>, docs: seq<PlayerDoc>, now: int,
                     fetch: string -> Option<UserData>): (r: Enriched)
    decreases |docs|
    ensures |r.views| == |docs|
    ensures forall i :: 0 <= i < |docs| ==>
              var userId := StringField(docs[i], "userId");
              r.views[i] == Enrich(docs[i], Resolve(cache, userId, now, fetch(userId)).info)
    ensures forall userId :: OnPage(docs, userId) ==>
              AgreeAt(r.cache, Resolve(cache, userId, now, fetch(userId)).cache, userId)
    ensures forall userId :: !OnPage(docs, userId) ==> AgreeAt(r.cache, cache, userId)
  {
    if docs == [] then Enriched([], cache)
    else
      var prefix := docs[..|docs| - 1];
      var before := EnrichAll(cache, prefix, now, fetch);
      var doc := docs[|docs| - 1];
      var lookup := Resolve(before.cache, StringField(doc, "userId"), now, fetch(StringField(doc, "userId")));
      assert docs == prefix + [doc];
      EnrichStep(cache, prefix, before.cache, doc, now, fetch);
      Enriched(before.views + [Enrich(doc, lookup.info)], lookup.cache)
  }

  /** Each enriched player differs from its document only in `username` and `avatar`. */
  lemma EnrichKeepsDocument(cache: map<string, UserInfo>, docs: seq<PlayerDoc>, now: int,
                            fetch: string -> Option<UserData>, i: nat)
    requires i < |docs|
    ensures var v := EnrichAll(cache, docs, now, fetch).views[i];
            && v - {"username", "avatar"} == docs[i] - {"username", "avatar"}
            && "username" in v && "avatar" in v
  {
  }

  /** No user of the page ends with a failed lookup stored: an entry is kept or removed only as before. */
  lemma PageFailureNotStored(cache: map<string, UserInfo>, docs: seq<PlayerDoc>, now: int,
                             fetch: string -> Option<UserData>, userId: string)
    requires fetch(userId).None?
    ensures AgreeAt(EnrichAll(cache, docs, now, fetch).cache, cache, userId)
  {
  }

  /** A page user without a fresh entry whose fetch succeeds ends with the fetched profile, stamped now. */
  lemma PageSuccessStored(cache: map<string, UserInfo>, docs: seq<PlayerDoc>, now: int,
                          fetch: string -> Option<UserData>, userId: string)
    requires OnPage(docs, userId) && fetch(userId).Some?
    requires userId !in cache || !Fresh(cache[userId], now)
    ensures var r := EnrichAll(cache, docs, now, fetch).cache;
            userId in r && r[userId] == InfoFrom(userId, fetch(userId).value, now)
  {
  }

  /** The page's `map` over `getDiscordUser`, one lookup per player in page order. */
  method EnrichPage(cache: UserCache, players: seq<PlayerDoc>, now: int,
                    fetch: string -> Option<UserData>) returns (views: seq<PlayerDoc>)
    modifies cache
    ensures Enriched(views, cache.entries) == EnrichAll(old(cache.entries), players, now, fetch)
  {
    views := [];
    for i := 0 to |players|
      invariant Enriched(views, cache.entries) == EnrichAll(old(cache.entries), players[..i], now, fetch)
    {
      assert players[..i + 1][..i] == players[..i];
      var userId := StringField(players[i], "userId");
      var info, fetched := cache.GetDiscordUser(userId, now, fetch(userId));
      views := views + [Enrich(players[i], info)];
    }
    assert players[..|players|] == players;
  }

  /** What the player list answers. */
  datatype PlayersResponse =
    | Unauthenticated
    | Forbidden
    | ServerError
    | PlayersPage(page: int, totalPages: nat, totalPlayers: nat, players: seq<PlayerDoc>)

  /** `req.query.search?.toLowerCase() || ""` */
  function SearchText(search: Option<string>): string
  {
    if search.Some? then Lower(search.value) else ""
  }

  class PlayerStore {
    /** Each guild's player collection, in natural order; an absent guild has an empty one. */
    var collections: map<string, seq<PlayerDoc>>

    constructor ()
      ensures collections == map[]
    {
      collections := map[];
    }

    function Docs(guildId: string): seq<PlayerDoc>
      reads this
    {
      if guildId in collections then collections[guildId] else []
    }

    /**
     * `updateServerPlayer`: 401 without a session, 403 without the
     * administrator test, 404 for an unknown player, otherwise the patch
     * built from the body is `$set` on the first matching document. Nothing
     * is written unless the answer is 200.
     */
    method UpdateServerPlayer(authenticated: bool, session: seq<SessionGuild>, guildId: string,
                              userId: string, body: Body) returns (status: int)
      modifies this
      ensures !authenticated ==> status == 401
      ensures authenticated && !MayManage(session, guildId) ==> status == 403
      ensures authenticated && MayManage(session, guildId) && FindPlayer(old(Docs(guildId)), userId).None? ==> status == 404
      ensures status != 200 ==> collections == old(collections)
      ensures status == 200 ==>
                authenticated && MayManage(session, guildId) && FindPlayer(old(Docs(guildId)), userId).Some?
                && var i := FindPlayer(old(Docs(guildId)), userId).value;
                   collections == old(collections)[guildId := old(Docs(guildId))[i := ApplyPatch(old(Docs(guildId))[i], PatchOf(body))]]
    {
      if !authenticated {
        return 401;
      }
      if !MayManage(session, guildId) {
        return 403;
      }
      var docs := Docs(guildId);
      var found := FindPlayer(docs, userId);
      if found.None? {
        return 404;
      }
      var patch := BuildPlayerPatch(body);
      var i := found.value;
      collections := collections[guildId := docs[i := ApplyPatch(docs[i], patch)]];
      return 200;
    }

    /**
     * `getServerPlayers`: the requested page of the guild's collection,
     * each player enriched with its cached or fetched profile, then
     * filtered by the search text. The totals count the whole collection.
     * MongoDB rejects a negative skip, which the handler answers with 500.
     */
    method GetServerPlayers(cache: UserCache, authenticated: bool, session: seq<SessionGuild>, guildId: string,
                            search: Option<string>, pageArg: Option<int>, now: int,
                            fetch: string -> Option<UserData>) returns (resp: PlayersResponse)
      modifies cache
      ensures !authenticated ==> resp == Unauthenticated && cache.entries == old(cache.entries)
      ensures authenticated && !MayManage(session, guildId) ==> resp == Forbidden && cache.entries == old(cache.entries)
      ensures authenticated && MayManage(session, guildId) && Skip(PageNumber(pageArg)) < 0 ==>
                resp == ServerError && cache.entries == old(cache.entries)
      ensures authenticated && MayManage(session, guildId) && Skip(PageNumber(pageArg)) >= 0 ==>
                var e := EnrichAll(old(cache.entries), PageOf(Docs(guildId), Skip(PageNumber(pageArg))), now, fetch);
                && resp == PlayersPage(PageNumber(pageArg), TotalPages(|Docs(guildId)|), |Docs(guildId)|,
                                       FilterPlayers(e.views, SearchText(search)))
                && cache.entries == e.cache
    {
      if !authenticated {
        return Unauthenticated;
      }
      if !MayManage(session, guildId) {
        return Forbidden;
      }
      var text := SearchText(search);
      var page := PageNumber(pageArg);
      var skip := (page - 1) * PAGE_SIZE;
      if skip < 0 {
        return ServerError;
      }
      var docs := Docs(guildId);
      var total := |docs|;
      var players := PageOf(docs, skip);

      var views := EnrichPage(cache, players, now, fetch);
      return PlayersPage(page, TotalPages(total), total, FilterPlayers(views, text));
    }
  }

  /**
   * The returned players are some of the page's players, in page order, at
   * most five; a player is returned exactly when it matches the search.
   */
  lemma ListedPlayersFromPage(views: seq<PlayerDoc>, search: string)
    requires |views| <= PAGE_SIZE
    ensures Subsequence(FilterPlayers(views, search), views)
    ensures |FilterPlayers(views, search)| <= PAGE_SIZE
    ensures forall v :: v in views ==> (v in FilterPlayers(views, search) <==> search == "" || Matches(v, search))
  {
    FilterIsSubsequence(views, search);
  }
}
