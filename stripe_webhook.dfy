/**
 * The Stripe webhook: a verified `checkout.session.completed` event marks
 * the guild premium and records the subscription for the buyer. The answer
 * is 400 for an event that fails signature verification and 200 for every
 * verified event, whether or not the database writes succeed.
 */
module StripeWebhook {
  import opened Wrappers
  import opened GuildModel
  import opened GuildStore
  import opened Subscriptions

  const CHECKOUT_COMPLETED: string := "checkout.session.completed"

  /**
   * Where the database part of the handler fails, if it does: the guild
   * upsert (nothing is written), or the subscription lookup or save (the
   * guild is already premium).
   */
  datatype DbFault = NoFault | GuildWriteFails | SubscriptionWriteFails

  /** The guild collection after the event. */
  function GuildsAfter(guilds: map<string, GuildRecord>, defaults: Economy, eventType: string,
                       session: CheckoutSession, fault: DbFault): map<string, GuildRecord>
  {
    if eventType != CHECKOUT_COMPLETED || fault == GuildWriteFails then guilds
    else guilds[session.guildId := Activated(Current(guilds, session.guildId, defaults))]
  }

  /** The subscription collection after the event. */
  function UsersAfter(users: map<string, seq<Entry>>, eventType: string, session: CheckoutSession,
                      now: int, fault: DbFault): map<string, seq<Entry>>
  {
    if eventType != CHECKOUT_COMPLETED || fault != NoFault then users
    else Record(users, session.userId, NewEntry(session, now))
  }

  /** The webhook route, for an event whose signature check gave `verified`. */
  method HandleWebhook(guildStore: GuildStore, subscriptionStore: SubscriptionStore,
                       verified: bool, eventType: string, session: CheckoutSession,
                       now: int, fault: DbFault) returns (status: int)
    requires guildStore.Valid()
    modifies guildStore, subscriptionStore
    ensures guildStore.Valid()
    ensures status == if verified then 200 else 400
    ensures !verified ==> guildStore.guilds == old(guildStore.guilds)
                          && subscriptionStore.users == old(subscriptionStore.users)
    ensures verified ==>
              guildStore.guilds == GuildsAfter(old(guildStore.guilds), guildStore.defaults, eventType, session, fault)
              && subscriptionStore.users == UsersAfter(old(subscriptionStore.users), eventType, session, now, fault)
  {
    if !verified {
      return 400;
    }
    if eventType == CHECKOUT_COMPLETED {
      if fault != GuildWriteFails {
        guildStore.ActivatePremium(session.guildId);
        if fault == NoFault {
          var subEntry := NewEntry(session, now);
          subscriptionStore.RecordSubscription(session.userId, subEntry);
        }
      }
    }
    return 200;
  }

  /**
   * Any other verified event type changes nothing; a completed checkout
   * with working storage leaves the guild premium and the buyer with
   * exactly one entry for the guild, the new active one.
   */
  lemma CompletedCheckoutEffect(guilds: map<string, GuildRecord>, defaults: Economy, users: map<string, seq<Entry>>,
                                eventType: string, session: CheckoutSession, now: int)
    requires forall u :: u in users ==> UniqueGuilds(users[u])
    ensures eventType != CHECKOUT_COMPLETED ==>
              GuildsAfter(guilds, defaults, eventType, session, NoFault) == guilds
              && UsersAfter(users, eventType, session, now, NoFault) == users
    ensures eventType == CHECKOUT_COMPLETED ==>
              var g := GuildsAfter(guilds, defaults, eventType, session, NoFault);
              var subs := UsersAfter(users, eventType, session, now, NoFault)[session.userId];
              && session.guildId in g && g[session.guildId].vipServer
              && UniqueGuilds(subs)
              && exists i :: 0 <= i < |subs| && subs[i] == NewEntry(session, now) && subs[i].status == "active"
                             && forall j :: 0 <= j < |subs| && subs[j].guildId == session.guildId ==> j == i
  {
    if eventType == CHECKOUT_COMPLETED {
      UpsertKeepsUnique(SubscriptionsOf(users, session.userId), NewEntry(session, now));
    }
  }

  /**
   * A redelivered event with the same creation time leaves both collections
   * as the first delivery did.
   */
  lemma RedeliveryIdempotent(guilds: map<string, GuildRecord>, defaults: Economy, users: map<string, seq<Entry>>,
                             eventType: string, session: CheckoutSession, now: int)
    ensures var g1 := GuildsAfter(guilds, defaults, eventType, session, NoFault);
            GuildsAfter(g1, defaults, eventType, session, NoFault) == g1
    ensures var u1 := UsersAfter(users, eventType, session, now, NoFault);
            UsersAfter(u1, eventType, session, now, NoFault) == u1
  {
    ActivationIdempotent(guilds, session.guildId, defaults);
    RecordIdempotent(users, session.userId, NewEntry(session, now));
  }
}
