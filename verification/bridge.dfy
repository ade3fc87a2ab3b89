/**
 * The state the bridge keeps between events and the effects one handler
 * run has on the outside world.
 */
module Bridge {
  import opened Wrappers

  /**
   * `discordReady` is the Discord client's readiness, `webhook` the
   * in-memory webhook URL (`undefined` until loaded or created), `storage`
   * the LINE client's persisted key-value file.
   */
  datatype BridgeState = BridgeState(
    discordReady: bool,
    webhook: Option<string>,
    storage: map<string, string>)

  /** The JSON body of one webhook POST. */
  datatype Payload = Payload(content: string, username: string, avatarUrl: string)

  /** Why a handler ended in an unhandled promise rejection. */
  datatype Fault =
    | ChannelUnavailable
    | MediaUnavailable
    | MediaInfoUnparseable
    | UploadUnreachable
    | UploadReplyMalformed
    | ContentMissing
    | PostRejected
    | WebhookCreationFailed

  /** One externally visible action, in the order a handler performs them. */
  datatype Effect =
    | Upload(url: string)
    | Post(webhook: string, payload: Payload)
    | CreateWebhook(name: string)
    | Store(key: string, value: string)
    | Raise(fault: Fault)

  /** What a handler leaves behind: the next state and the effects of the run. */
  datatype Reaction = Reaction(state: BridgeState, effects: seq<Effect>)

  /** The result of looking up the target Discord channel. */
  datatype ChannelKind = GuildText | OtherKind
  datatype ChannelLookup = FetchFailed | NoChannel | Channel(kind: ChannelKind)

  /**
   * The run ended in an unhandled promise rejection. Under Deno, with no
   * `unhandledrejection` listener, that terminates the process.
   */
  predicate Raises(effects: seq<Effect>) {
    exists e | e in effects :: e.Raise?
  }

  /** The webhook posts among `effects`, in order. */
  function Posts(effects: seq<Effect>): (r: seq<Effect>)
    ensures |r| <= |effects|
    ensures forall e :: e in r <==> e in effects && e.Post?
  {
    if effects == [] then []
    else (if effects[0].Post? then [effects[0]] else []) + Posts(effects[1..])
  }

  /** Picking out the posts distributes over consecutive effects. */
  lemma {:induction false} PostsAppend(a: seq<Effect>, b: seq<Effect>)
    ensures Posts(a + b) == Posts(a) + Posts(b)
  {
    if a == [] {
      assert a + b == b;
    } else {
      assert (a + b)[0] == a[0];
      assert (a + b)[1..] == a[1..] + b;
      PostsAppend(a[1..], b);
    }
  }

  /** The payload delivered by a run, if it delivered one. */
  function Delivered(effects: seq<Effect>): Option<Payload> {
    var posts := Posts(effects);
    if posts == [] then None else Some(posts[0].payload)
  }

  /** What a count of effects tallies: persisted webhooks, or webhook creation requests. */
  datatype Tally = Persisted | CreationRequested

  predicate Tallied(t: Tally, e: Effect) {
    match t
    case Persisted => e.Store?
    case CreationRequested => e.CreateWebhook?
  }

  /** How many of `effects` are of the tallied kind. */
  function Count(t: Tally, effects: seq<Effect>): nat {
    if effects == [] then 0
    else (if Tallied(t, effects[0]) then 1 else 0) + Count(t, effects[1..])
  }

  /** Counting distributes over consecutive runs. */
  lemma {:induction false} CountAppend(t: Tally, a: seq<Effect>, b: seq<Effect>)
    ensures Count(t, a + b) == Count(t, a) + Count(t, b)
  {
    if a == [] {
      assert a + b == b;
    } else {
      assert (a + b)[0] == a[0];
      assert (a + b)[1..] == a[1..] + b;
      CountAppend(t, a[1..], b);
    }
  }

  lemma CountPair(t: Tally, a: Effect, b: Effect)
    ensures Count(t, [a, b]) == (if Tallied(t, a) then 1 else 0) + (if Tallied(t, b) then 1 else 0)
  {
    assert [a, b][1..] == [b];
    assert [b][1..] == [];
    assert Count(t, [b]) == (if Tallied(t, b) then 1 else 0) + Count(t, []);
    assert Count(t, [a, b]) == (if Tallied(t, a) then 1 else 0) + Count(t, [b]);
  }

  /** Effects with none of the tallied kind count zero. */
  lemma {:induction false} CountNone(t: Tally, effects: seq<Effect>)
    requires forall e :: e in effects ==> !Tallied(t, e)
    ensures Count(t, effects) == 0
  {
    if effects != [] {
      assert effects[0] in effects;
      assert forall e :: e in effects[1..] ==> e in effects;
      CountNone(t, effects[1..]);
    }
  }
}
