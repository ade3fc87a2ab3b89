/**
 * The webhook endpoint: loaded from storage at startup, and on the Discord
 * `ready` event reused when cached, otherwise created on the target text
 * channel and persisted.
 */
module Endpoint {
  import opened Wrappers
  import opened Js
  import opened Bridge

  const WebhookKey := "discord_webhook"
  const WebhookName := "Linecord - Webhook"

  /** The outcome of `createWebhook`: a failure, or the new webhook's URL. */
  datatype Creation = CreationFailed | Created(url: string)

  /** What the `ready` handler learns from outside: the channel lookup and the creation result. */
  datatype ReadyExternals = ReadyExternals(channel: ChannelLookup, creation: Creation)

  /** The in-memory webhook agrees with the persisted one whenever it is set. */
  predicate Consistent(s: BridgeState) {
    Truthy(s.webhook) ==> Get(s.storage, WebhookKey) == s.webhook
  }

  /** The state at startup: the Discord client is not ready, the webhook is whatever storage holds. */
  function Load(storage: map<string, string>): (s: BridgeState)
    ensures Consistent(s)
    ensures !s.discordReady && s.storage == storage
    ensures WebhookKey in storage ==> s.webhook == Some(storage[WebhookKey])
    ensures WebhookKey !in storage ==> s.webhook == None
  {
    BridgeState(false, Get(storage, WebhookKey), storage)
  }

  /** The synchronous head of the `ready` handler: it goes on only when no webhook is cached. */
  predicate ReadyProceeds(s: BridgeState) {
    !Truthy(s.webhook)
  }

  /** The part of the `ready` handler after the channel lookup resumes; it does not look at the cache again. */
  function ReadyResume(s: BridgeState, x: ReadyExternals): Reaction {
    match x.channel
    case FetchFailed => Reaction(s, [Raise(ChannelUnavailable)])
    case NoChannel => Reaction(s, [])
    case Channel(kind) =>
      if kind != GuildText then Reaction(s, [])
      else match x.creation
        case CreationFailed => Reaction(s, [CreateWebhook(WebhookName), Raise(WebhookCreationFailed)])
        case Created(url) =>
          Reaction(s.(webhook := Some(url), storage := s.storage[WebhookKey := url]),
                   [CreateWebhook(WebhookName), Store(WebhookKey, url)])
  }

  /** One uninterrupted run of the `ready` handler. */
  function HandleReady(s: BridgeState, x: ReadyExternals): Reaction {
    if !ReadyProceeds(s) then Reaction(s, []) else ReadyResume(s, x)
  }

  /** A cached webhook is reused: nothing is created and nothing changes. */
  lemma CachedWebhookReused(s: BridgeState, x: ReadyExternals)
    requires Truthy(s.webhook)
    ensures HandleReady(s, x) == Reaction(s, [])
  {
  }

  /** Without a reachable text channel the webhook stays unset and no creation is requested. */
  lemma NoTextChannelNoWebhook(s: BridgeState, x: ReadyExternals)
    requires x.channel != Channel(GuildText)
    ensures HandleReady(s, x).state == s
    ensures forall e :: e in HandleReady(s, x).effects ==> !e.CreateWebhook? && !e.Store?
  {
  }

  /**
   * A created webhook is held in memory and under `discord_webhook` in
   * storage with the same URL; every other stored key is untouched.
   */
  lemma CreatedWebhookPersisted(s: BridgeState, x: ReadyExternals)
    requires !Truthy(s.webhook) && x.channel == Channel(GuildText) && x.creation.Created?
    ensures HandleReady(s, x).state.webhook == Some(x.creation.url)
    ensures Get(HandleReady(s, x).state.storage, "discord_webhook") == Some(x.creation.url)
    ensures forall k :: k != "discord_webhook" ==> Get(HandleReady(s, x).state.storage, k) == Get(s.storage, k)
    ensures HandleReady(s, x).effects == [CreateWebhook("Linecord - Webhook"), Store("discord_webhook", x.creation.url)]
  {
  }

  /** The `ready` handler keeps memory and storage in agreement, and never posts. */
  lemma ReadyPreservesConsistency(s: BridgeState, x: ReadyExternals)
    requires Consistent(s)
    ensures Consistent(HandleReady(s, x).state)
    ensures HandleReady(s, x).state.discordReady == s.discordReady
    ensures Posts(HandleReady(s, x).effects) == []
  {
  }

  /**
   * Two `ready` handlers that both pass the cache check before either
   * resumes both create a webhook; the first URL is then overwritten in
   * memory and in storage by the second.
   */
  lemma InterleavedReadiesCreateTwice(s: BridgeState, u1: string, u2: string)
    requires !Truthy(s.webhook)
    ensures ReadyProceeds(s)
    ensures var r1 := ReadyResume(s, ReadyExternals(Channel(GuildText), Created(u1)));
      var r2 := ReadyResume(r1.state, ReadyExternals(Channel(GuildText), Created(u2)));
      && Count(CreationRequested, r1.effects + r2.effects) == 2
      && Count(Persisted, r1.effects + r2.effects) == 2
      && r2.state.webhook == Some(u2)
      && Get(r2.state.storage, WebhookKey) == Some(u2)
  {
    var r1 := ReadyResume(s, ReadyExternals(Channel(GuildText), Created(u1)));
    var r2 := ReadyResume(r1.state, ReadyExternals(Channel(GuildText), Created(u2)));
    forall t: Tally
      ensures Count(t, r1.effects + r2.effects) == 2
    {
      CountPair(t, r1.effects[0], r1.effects[1]);
      CountPair(t, r2.effects[0], r2.effects[1]);
      CountAppend(t, r1.effects, r2.effects);
    }
  }
}
