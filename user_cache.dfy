/**
 * The read-through cache of Discord user profiles behind the player list:
 * a module-level map from user id to the profile last fetched, trusted for
 * ten minutes. A failed fetch answers with a placeholder profile that is not
 * stored. The clock and the outcome of the Discord request are inputs.
 */
module DiscordUsers {
  import opened Wrappers

  /** Ten minutes, in milliseconds. */
  const CACHE_TTL: int := 10 * 60 * 1000

  const DEFAULT_AVATAR: string := "https://cdn.discordapp.com/embed/avatars/0.png"

  /** The fields of a successful `GET /users/{id}` the cache uses; `None` is a missing field. */
  datatype UserData = UserData(username: Option<string>, avatar: Option<string>)

  /** A cached (or placeholder) profile, stamped with the time it was produced. */
  datatype UserInfo = UserInfo(username: string, avatar: string, lastFetch: int)

  /** The outcome of one lookup: the profile, the cache after it, and whether Discord was asked. */
  datatype Lookup = Lookup(info: UserInfo, cache: map<string, UserInfo>, fetched: bool)

  function UnknownName(userId: string): string
  {
    "Unknown (" + userId + ")"
  }

  function AvatarUrl(userId: string, hash: string): string
  {
    "https://cdn.discordapp.com/avatars/" + userId + "/" + hash + ".png"
  }

  /** JavaScript truthiness of an optional string field: present and non-empty. */
  predicate Truthy(s: Option<string>)
  {
    s.Some? && s.value != ""
  }

  /** The profile built from a successful fetch. */
  function InfoFrom(userId: string, data: UserData, now: int): UserInfo
  {
    UserInfo(
      if Truthy(data.username) then data.username.value else UnknownName(userId),
      if Truthy(data.avatar) then AvatarUrl(userId, data.avatar.value) else DEFAULT_AVATAR,
      now)
  }

  /** The profile answered when the fetch fails. */
  function Placeholder(userId: string, now: int): UserInfo
  {
    UserInfo(UnknownName(userId), DEFAULT_AVATAR, now)
  }

  /** An entry is trusted while less than `CACHE_TTL` has passed since it was fetched. */
  predicate Fresh(info: UserInfo, now: int)
  {
    now - info.lastFetch < CACHE_TTL
  }

  /** One call of `getDiscordUser`, with `outcome` the fetch result (`None` for any failure). */
  function Resolve(cache: map<string, UserInfo>, userId: string, now: int, outcome: Option<UserData>): Lookup
  {
    if userId in cache && Fresh(cache[userId], now) then Lookup(cache[userId], cache, false)
    else match outcome
      case Some(data) =>
        var info := InfoFrom(userId, data, now);
        Lookup(info, cache[userId := info], true)
      case None => Lookup(Placeholder(userId, now), cache, true)
  }

  class UserCache {
    var entries: map<string, UserInfo>

    constructor ()
      ensures entries == map[]
    {
      entries := map[];
    }

    /** `getDiscordUser(userId)` at time `now`, the Discord request answering `outcome`. */
    method GetDiscordUser(userId: string, now: int, outcome: Option<UserData>) returns (info: UserInfo, fetched: bool)
      modifies this
      ensures Lookup(info, entries, fetched) == Resolve(old(entries), userId, now, outcome)
    {
      if userId in entries && now - entries[userId].lastFetch < CACHE_TTL {
        return entries[userId], false;
      }
      fetched := true;
      match outcome {
        case Some(data) =>
          var username := if data.username.Some? && data.username.value != "" then data.username.value
                          else UnknownName(userId);
          var avatar := if data.avatar.Some? && data.avatar.value != ""
                        then AvatarUrl(userId, data.avatar.value)
                        else DEFAULT_AVATAR;
          info := UserInfo(username, avatar, now);
          entries := entries[userId := info];
        case None =>
          info := UserInfo(UnknownName(userId), DEFAULT_AVATAR, now);
      }
    }
  }

  /** A fresh entry is answered from the cache, whatever Discord would say, and the cache is unchanged. */
  lemma FreshEntryServed(cache: map<string, UserInfo>, userId: string, now: int, a: Option<UserData>, b: Option<UserData>)
    requires userId in cache && Fresh(cache[userId], now)
    ensures Resolve(cache, userId, now, a) == Resolve(cache, userId, now, b)
    ensures Resolve(cache, userId, now, a) == Lookup(cache[userId], cache, false)
  {
  }

  /**
   * A miss or an expired entry asks Discord. Success stores the new profile,
   * stamped `now`, under this user only; failure answers the placeholder and
   * leaves the cache as it was, so the next call asks again.
   */
  lemma StaleEntryRefetched(cache: map<string, UserInfo>, userId: string, now: int, outcome: Option<UserData>)
    requires userId !in cache || !Fresh(cache[userId], now)
    ensures var r := Resolve(cache, userId, now, outcome);
            && r.fetched && r.info.lastFetch == now
            && (outcome.Some? ==> r.cache == cache[userId := r.info] && r.info == InfoFrom(userId, outcome.value, now))
            && (outcome.None? ==> r.cache == cache && r.info == Placeholder(userId, now))
  {
  }

  /**
   * After a successful fetch at `t`, every call for that user before `t + CACHE_TTL`
   * is a hit that returns the stored profile, and the first call at or after it
   * asks Discord again.
   */
  lemma StoredProfileLifetime(cache: map<string, UserInfo>, userId: string, t: int, data: UserData,
                              later: int, outcome: Option<UserData>)
    requires userId !in cache || !Fresh(cache[userId], t)
    requires t <= later
    ensures var stored := Resolve(cache, userId, t, Some(data)).cache;
            var next := Resolve(stored, userId, later, outcome);
            && (later < t + CACHE_TTL ==> next == Lookup(InfoFrom(userId, data, t), stored, false))
            && (later >= t + CACHE_TTL ==> next.fetched)
  {
  }

  /** A failure is not memoised: the user is still missing or stale, so the next call fetches. */
  lemma FailureNotMemoised(cache: map<string, UserInfo>, userId: string, t: int, later: int, outcome: Option<UserData>)
    requires userId !in cache || !Fresh(cache[userId], t)
    requires t <= later
    ensures var after := Resolve(cache, userId, t, None).cache;
            Resolve(after, userId, later, outcome).fetched
  {
  }

  /** Two caches hold the same entry for `userId`, or both lack one. */
  predicate AgreeAt(c1: map<string, UserInfo>, c2: map<string, UserInfo>, userId: string)
  {
    (userId in c1 <==> userId in c2) && (userId in c1 ==> c1[userId] == c2[userId])
  }

  /** A lookup depends on the cache only through the user's own entry, and touches no other entry. */
  lemma ResolveAgreeAt(c1: map<string, UserInfo>, c2: map<string, UserInfo>, userId: string, now: int,
                       outcome: Option<UserData>)
    requires AgreeAt(c1, c2, userId)
    ensures Resolve(c1, userId, now, outcome).info == Resolve(c2, userId, now, outcome).info
    ensures AgreeAt(Resolve(c1, userId, now, outcome).cache, Resolve(c2, userId, now, outcome).cache, userId)
    ensures forall other :: other != userId ==> AgreeAt(Resolve(c1, userId, now, outcome).cache, c1, other)
  {
  }

  /**
   * Asking again at the same time with the same Discord answer gives the same
   * profile and leaves the user's entry as the first lookup left it: a stored
   * profile is fresh, and a failure stored nothing.
   */
  lemma ResolveTwice(cache: map<string, UserInfo>, userId: string, now: int, outcome: Option<UserData>)
    ensures var first := Resolve(cache, userId, now, outcome);
            var second := Resolve(first.cache, userId, now, outcome);
            second.info == first.info && AgreeAt(second.cache, first.cache, userId)
  {
  }
}
