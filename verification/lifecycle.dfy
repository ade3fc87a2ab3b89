/**
 * The bridge over its lifetime: the state loaded at startup and a sequence
 * of events, each handled to completion before the next, until a handler
 * ends in an unhandled rejection and the process stops.
 */
module Lifecycle {
  import opened Wrappers
  import opened Js
  import opened Messages
  import opened Media
  import opened Bridge
  import opened Relay
  import opened RelayProperties
  import opened Endpoint

  /** A LINE Square message, or the Discord client becoming ready, with what each handler learns from outside. */
  datatype Event =
    | LineMessage(msg: Message, mx: MessageExternals)
    | DiscordReady(rx: ReadyExternals)

  /**
   * One event, handled atomically with the message handler under gate `g`;
   * the Discord client counts as ready from its `ready` event on.
   */
  function Step(g: Gate, s: BridgeState, e: Event): Reaction {
    match e
    case LineMessage(msg, mx) => Reaction(s, HandleMessageWith(g, s, msg, mx))
    case DiscordReady(rx) => HandleReady(s.(discordReady := true), rx)
  }

  /**
   * Events handled one after another; the effects of all runs, in order.
   * A run that raises ends the process: no later event is handled.
   */
  function Run(g: Gate, s: BridgeState, events: seq<Event>): Reaction
    decreases |events|
  {
    if events == [] then Reaction(s, [])
    else
      var first := Step(g, s, events[0]);
      if Raises(first.effects) then first
      else
        var rest := Run(g, first.state, events[1..]);
        Reaction(rest.state, first.effects + rest.effects)
  }

  /** Every webhook the platform hands back has a non-empty URL. */
  predicate CreatesNonEmptyUrls(events: seq<Event>) {
    forall i :: 0 <= i < |events| && events[i].DiscordReady? && events[i].rx.creation.Created? ==>
      events[i].rx.creation.url != ""
  }

  /** A message event leaves the state exactly as it was. */
  lemma MessageKeepsState(g: Gate, s: BridgeState, msg: Message, mx: MessageExternals)
    ensures Step(g, s, LineMessage(msg, mx)).state == s
    ensures Count(Persisted, Step(g, s, LineMessage(msg, mx)).effects) == 0
    ensures Count(CreationRequested, Step(g, s, LineMessage(msg, mx)).effects) == 0
  {
    MessageLeavesEndpointAlone(g, s, msg, mx);
    CountNone(Persisted, HandleMessageWith(g, s, msg, mx));
    CountNone(CreationRequested, HandleMessageWith(g, s, msg, mx));
  }

  /** Every step keeps memory and storage in agreement on the webhook. */
  lemma StepPreservesConsistency(g: Gate, s: BridgeState, e: Event)
    requires Consistent(s)
    ensures Consistent(Step(g, s, e).state)
  {
  }

  /** From the state loaded at startup, memory and storage agree on the webhook after any run. */
  lemma {:induction false} RunPreservesConsistency(g: Gate, s: BridgeState, events: seq<Event>)
    requires Consistent(s)
    ensures Consistent(Run(g, s, events).state)
    decreases |events|
  {
    if events != [] {
      StepPreservesConsistency(g, s, events[0]);
      if !Raises(Step(g, s, events[0]).effects) {
        RunPreservesConsistency(g, Step(g, s, events[0]).state, events[1..]);
      }
    }
  }

  /**
   * After the process stops, a restart reloads the same webhook from
   * storage, so a cached webhook survives the crash.
   */
  lemma RestartRecoversWebhook(g: Gate, s: BridgeState, events: seq<Event>)
    requires Consistent(s)
    ensures var final := Run(g, s, events).state;
      Truthy(final.webhook) ==> Load(final.storage).webhook == final.webhook
  {
    RunPreservesConsistency(g, s, events);
  }

  /** A webhook post always targets the URL persisted under `discord_webhook`. */
  lemma PostsUseStoredWebhook(g: Gate, s: BridgeState, msg: Message, mx: MessageExternals)
    requires Consistent(s)
    ensures forall e :: e in HandleMessageWith(g, s, msg, mx) && e.Post? ==> Get(s.storage, "discord_webhook") == Some(e.webhook)
  {
    AtMostOneDelivery(g, s, msg, mx);
  }

  /**
   * A step requests and persists at most one webhook, neither when one was
   * cached; after a persisted creation one is cached, and a requested one
   * that left none cached ended the process.
   */
  lemma StepCreatesAtMostOnce(g: Gate, s: BridgeState, e: Event)
    requires e.DiscordReady? && e.rx.creation.Created? ==> e.rx.creation.url != ""
    ensures Count(CreationRequested, Step(g, s, e).effects) <= 1
    ensures Count(Persisted, Step(g, s, e).effects) <= 1
    ensures Truthy(s.webhook) ==>
      && Step(g, s, e).state.webhook == s.webhook
      && Count(CreationRequested, Step(g, s, e).effects) == 0
      && Count(Persisted, Step(g, s, e).effects) == 0
    ensures !Truthy(Step(g, s, e).state.webhook) ==> Count(Persisted, Step(g, s, e).effects) == 0
    ensures !Truthy(Step(g, s, e).state.webhook) && !Raises(Step(g, s, e).effects) ==>
      Count(CreationRequested, Step(g, s, e).effects) == 0
  {
    match e
    case LineMessage(msg, mx) =>
      MessageKeepsState(g, s, msg, mx);
    case DiscordReady(rx) =>
      var effects := Step(g, s, e).effects;
      forall t: Tally
        ensures Count(t, effects) == if |effects| == 2 then
          (if Tallied(t, effects[0]) then 1 else 0) + (if Tallied(t, effects[1]) then 1 else 0)
          else 0
      {
        if |effects| == 2 {
          CountPair(t, effects[0], effects[1]);
        } else {
          CountNone(t, effects);
        }
      }
      if |effects| == 2 && effects[1].Raise? {
        assert effects[1] in effects;
      }
  }

  /**
   * Handled one at a time, any number of events request at most one
   * webhook creation and persist at most one webhook over the life of the
   * process, and none at all when one was already cached.
   */
  lemma {:induction false} SequentialRunCreatesAtMostOnce(g: Gate, s: BridgeState, events: seq<Event>)
    requires CreatesNonEmptyUrls(events)
    ensures Count(CreationRequested, Run(g, s, events).effects) <= (if Truthy(s.webhook) then 0 else 1)
    ensures Count(Persisted, Run(g, s, events).effects) <= (if Truthy(s.webhook) then 0 else 1)
    ensures Truthy(s.webhook) ==> Run(g, s, events).state.webhook == s.webhook
    decreases |events|
  {
    if events != [] {
      var first := Step(g, s, events[0]);
      StepCreatesAtMostOnce(g, s, events[0]);
      if !Raises(first.effects) {
        assert CreatesNonEmptyUrls(events[1..]) by {
          forall i | 0 <= i < |events[1..]| && events[1..][i].DiscordReady? && events[1..][i].rx.creation.Created?
            ensures events[1..][i].rx.creation.url != ""
          {
            assert events[1..][i] == events[i + 1];
          }
        }
        SequentialRunCreatesAtMostOnce(g, first.state, events[1..]);
        CountAppend(CreationRequested, first.effects, Run(g, first.state, events[1..]).effects);
        CountAppend(Persisted, first.effects, Run(g, first.state, events[1..]).effects);
      }
    }
  }

  /**
   * A sticker without `STKVER` and without text reaches `null.replace` and
   * raises; the process stops, and a text message right after it is never
   * relayed, under either gate.
   */
  lemma NullTextStopsBridge(g: Gate)
    ensures var hook := "https://discord.com/api/webhooks/1/t";
      var s := BridgeState(true, Some(hook), map["discord_webhook" := hook]);
      var author := Author("alice", "https://profile.line-scdn.net/a");
      var x := MessageExternals(Channel(GuildText), false, _ => Unparseable, NotOk, t => t, true);
      var sticker := LineMessage(Message(TargetChat, author, Sticker, None, map[], false), x);
      var text := LineMessage(Message(TargetChat, author, Text, Some("hi"), map[], false), x);
      && Run(g, s, [text]).effects == [Post(hook, Payload("hi", "alice", "https://profile.line-scdn.net/a"))]
      && Run(g, s, [sticker, text]).effects == [Raise(ContentMissing)]
  {
    var hook := "https://discord.com/api/webhooks/1/t";
    var s := BridgeState(true, Some(hook), map["discord_webhook" := hook]);
    var author := Author("alice", "https://profile.line-scdn.net/a");
    var x := MessageExternals(Channel(GuildText), false, _ => Unparseable, NotOk, t => t, true);
    var sticker := LineMessage(Message(TargetChat, author, Sticker, None, map[], false), x);
    var text := LineMessage(Message(TargetChat, author, Text, Some("hi"), map[], false), x);
    var raised := Step(g, s, sticker).effects;
    assert raised == [Raise(ContentMissing)];
    assert raised[0] in raised;
    var sent := Step(g, s, text);
    assert sent.effects == [Post(hook, Payload("hi", "alice", "https://profile.line-scdn.net/a"))];
    assert !Raises(sent.effects);
    assert [text][1..] == [];
    assert Run(g, s, [text]).effects == sent.effects + [];
  }
}
