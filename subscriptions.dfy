/**
 * The per-user subscription aggregates (`UserSubscription`): a user's list
 * of premium subscriptions, at most one per guild as the checkout handler
 * maintains it, replaced in place or appended.
 */
module Subscriptions {
  import opened Wrappers

  /** One subscription entry; times are milliseconds since the epoch. */
  datatype Entry = Entry(
    guildId: string,
    stripeSubscriptionId: string,
    stripeCustomerId: string,
    createdAt: int,
    currentPeriodEnd: Option<int>,
    cancelAtPeriodEnd: bool,
    status: string)

  /**
   * The fields of a completed checkout session the handler reads: the
   * metadata set at checkout creation and the subscription and customer ids
   * (`None` when missing).
   */
  datatype CheckoutSession = CheckoutSession(
    guildId: string, userId: string, subscription: Option<string>, customer: Option<string>)

  /** `s || fallback` for an optional string: a missing or empty id falls back. */
  function OrElse(s: Option<string>, fallback: string): string
  {
    if s.Some? && s.value != "" then s.value else fallback
  }

  /**
   * The `subEntry` of a completed checkout created at `now`. The session's
   * `subscription` is an id string, so it has no `current_period_end` and
   * the period end is always null.
   */
  function NewEntry(session: CheckoutSession, now: int): (e: Entry)
    ensures e.guildId == session.guildId && e.createdAt == now
    ensures e.status == "active" && !e.cancelAtPeriodEnd && e.currentPeriodEnd.None?
    ensures session.subscription.Some? && session.subscription.value != ""
      ==> e.stripeSubscriptionId == session.subscription.value
    ensures session.subscription.None? || session.subscription.value == ""
      ==> e.stripeSubscriptionId == "unknown_subscription_id"
    ensures session.customer.Some? && session.customer.value != ""
      ==> e.stripeCustomerId == session.customer.value
    ensures session.customer.None? || session.customer.value == ""
      ==> e.stripeCustomerId == "unknown_customer_id"
    ensures e.stripeSubscriptionId != "" && e.stripeCustomerId != ""
  {
    Entry(session.guildId,
          OrElse(session.subscription, "unknown_subscription_id"),
          OrElse(session.customer, "unknown_customer_id"),
          now, None, false, "active")
  }

  /** `entries.findIndex((s) => s.guildId === guildId)` */
  function IndexOfGuild(entries: seq<Entry>, guildId: string): (r: int)
    ensures -1 <= r < |entries|
    ensures r == -1 <==> forall i :: 0 <= i < |entries| ==> entries[i].guildId != guildId
    ensures r >= 0 ==> entries[r].guildId == guildId && forall j :: 0 <= j < r ==> entries[j].guildId != guildId
  {
    if entries == [] then -1
    else if entries[0].guildId == guildId then 0
    else
      var k := IndexOfGuild(entries[1..], guildId);
      assert forall j :: 1 <= j < |entries| ==> entries[j] == entries[1..][j - 1];
      if k == -1 then -1 else k + 1
  }

  /** The handler's search, a scan from the front. */
  method FindIndex(entries: seq<Entry>, guildId: string) returns (idx: int)
    ensures idx == IndexOfGuild(entries, guildId)
  {
    var i := 0;
    while i < |entries|
      invariant 0 <= i <= |entries|
      invariant forall j :: 0 <= j < i ==> entries[j].guildId != guildId
    {
      if entries[i].guildId == guildId {
        return i;
      }
      i := i + 1;
    }
    return -1;
  }

  /** Replace the first entry of the same guild, or append. */
  function Upsert(entries: seq<Entry>, e: Entry): seq<Entry>
  {
    var i := IndexOfGuild(entries, e.guildId);
    if i == -1 then entries + [e] else entries[i := e]
  }

  /** An existing entry of the guild is replaced at its index; length and all other entries are kept. */
  lemma UpsertReplaces(entries: seq<Entry>, e: Entry)
    requires IndexOfGuild(entries, e.guildId) >= 0
    ensures var i, r := IndexOfGuild(entries, e.guildId), Upsert(entries, e);
            |r| == |entries| && r[i] == e && forall j :: 0 <= j < |r| && j != i ==> r[j] == entries[j]
  {
  }

  /** Without an entry of the guild, the new entry is appended and the old list is kept as a prefix. */
  lemma UpsertAppends(entries: seq<Entry>, e: Entry)
    requires forall i :: 0 <= i < |entries| ==> entries[i].guildId != e.guildId
    ensures var r := Upsert(entries, e);
            |r| == |entries| + 1 && r[..|entries|] == entries && r[|entries|] == e
  {
  }

  /** Recording the same entry twice leaves the list as recording it once. */
  lemma UpsertIdempotent(entries: seq<Entry>, e: Entry)
    ensures Upsert(Upsert(entries, e), e) == Upsert(entries, e)
  {
    var i := IndexOfGuild(entries, e.guildId);
    var once := Upsert(entries, e);
    if i == -1 {
      assert once[|entries|] == e;
      assert IndexOfGuild(once, e.guildId) == |entries| by {
        assert forall j :: 0 <= j < |entries| ==> once[j] == entries[j];
      }
    } else {
      assert IndexOfGuild(once, e.guildId) == i by {
        assert once[i] == e;
        assert forall j :: 0 <= j < i ==> once[j] == entries[j];
      }
    }
  }

  /** No two entries belong to the same guild. */
  predicate UniqueGuilds(entries: seq<Entry>)
  {
    forall i, j :: 0 <= i < j < |entries| ==> entries[i].guildId != entries[j].guildId
  }

  /**
   * Upserting keeps guild ids unique, and afterwards the list holds exactly
   * one entry of the guild: the new one.
   */
  lemma UpsertKeepsUnique(entries: seq<Entry>, e: Entry)
    requires UniqueGuilds(entries)
    ensures UniqueGuilds(Upsert(entries, e))
    ensures exists i :: 0 <= i < |Upsert(entries, e)| && Upsert(entries, e)[i] == e
                        && forall j :: 0 <= j < |Upsert(entries, e)| && Upsert(entries, e)[j].guildId == e.guildId ==> j == i
  {
    var i := IndexOfGuild(entries, e.guildId);
    var r := Upsert(entries, e);
    if i == -1 {
      assert r[|entries|] == e;
    } else {
      assert r[i] == e;
    }
  }

  /** A user's subscriptions, empty when the user has no aggregate yet. */
  function SubscriptionsOf(users: map<string, seq<Entry>>, userId: string): seq<Entry>
  {
    if userId in users then users[userId] else []
  }

  /** The collection after recording `e` for `userId`. */
  function Record(users: map<string, seq<Entry>>, userId: string, e: Entry): map<string, seq<Entry>>
  {
    users[userId := Upsert(SubscriptionsOf(users, userId), e)]
  }

  /** A user without an aggregate gets one holding exactly the new entry. */
  lemma RecordCreates(users: map<string, seq<Entry>>, userId: string, e: Entry)
    requires userId !in users
    ensures Record(users, userId, e)[userId] == [e]
  {
  }

  /** Recording is idempotent on the whole collection. */
  lemma RecordIdempotent(users: map<string, seq<Entry>>, userId: string, e: Entry)
    ensures Record(Record(users, userId, e), userId, e) == Record(users, userId, e)
  {
    UpsertIdempotent(SubscriptionsOf(users, userId), e);
  }

  class SubscriptionStore {
    /** The `UserSubscription` documents, by `userId` (the schema's unique key). */
    var users: map<string, seq<Entry>>

    constructor ()
      ensures users == map[]
    {
      users := map[];
    }

    /**
     * Find the user's aggregate or start a new one holding the entry;
     * otherwise assign the entry over the first one of the same guild, or
     * push it; then save.
     */
    method RecordSubscription(userId: string, e: Entry)
      modifies this
      ensures users == Record(old(users), userId, e)
    {
      if userId !in users {
        assert Upsert([], e) == [e];
        users := users[userId := [e]];
        return;
      }
      var subscriptions := users[userId];
      var existingIndex := FindIndex(subscriptions, e.guildId);
      if existingIndex != -1 {
        subscriptions := subscriptions[existingIndex := e];
      } else {
        subscriptions := subscriptions + [e];
      }
      users := users[userId := subscriptions];
    }
  }
}
