/**
 * The `square:message` handler: filter by chat, gate on the Discord side
 * being ready with a webhook, then relay the message as a sticker URL, a
 * re-hosted media URL or defanged text — at most one of them.
 */
module Relay {
  import opened Wrappers
  import opened Js
  import opened Messages
  import opened Media
  import opened Mentions
  import opened Bridge

  /** The one LINE Square chat that is relayed. */
  const TargetChat := "m45c50782d24820a6288b24f7a07365cc"

  /** The JSON body of a successful upload reply. */
  datatype UploadBody = BodyNotJson | BodyJson(downloadKey: Option<string>)

  /** The re-hosting service's answer: a network failure, a non-2xx status, or a 2xx with a body. */
  datatype UploadReply = Unreachable | NotOk | Accepted(body: UploadBody)

  /**
   * What the handler learns from outside: the channel lookup, whether the
   * media bytes could be fetched from LINE, `JSON.parse` of the media-info
   * field, the upload reply, `encodeURIComponent`, and whether the
   * webhook POST was fulfilled (`fetch` fulfils on any HTTP status and
   * rejects on a network failure or a malformed URL).
   */
  datatype MessageExternals = MessageExternals(
    channel: ChannelLookup,
    mediaFetched: bool,
    parseInfo: string -> MediaInfo,
    upload: UploadReply,
    encode: string -> string,
    postFulfilled: bool)

  /** The readiness gate as intended: the Discord client is ready and a webhook is cached. */
  predicate ReadinessGate(s: BridgeState) {
    s.discordReady && Truthy(s.webhook)
  }

  /**
   * The readiness gate as written: `!discord_client.isReady` negates the
   * `isReady` method itself, which is always truthy, so only the webhook
   * is examined.
   */
  predicate ReadinessGateAsWritten(s: BridgeState) {
    Truthy(s.webhook)
  }

  /** The sticker id the handler reads: `STKID`, provided `STKVER` is truthy. */
  function StickerId(metadata: map<string, string>): Option<string> {
    if Truthy(Get(metadata, StickerVersionKey)) then Get(metadata, StickerIdKey) else None
  }

  predicate Animated(metadata: map<string, string>) {
    Get(metadata, StickerOptionKey) == Some("A")
  }

  predicate IsStickerCase(msg: Message) {
    msg.contentType == Sticker && Truthy(StickerId(msg.metadata))
  }

  predicate IsMediaCase(msg: Message) {
    IsMedia(msg.contentType) && msg.hasData
  }

  /** The webhook post carrying `text` under the author's name and icon. */
  function Send(s: BridgeState, msg: Message, text: string): Effect
    requires Truthy(s.webhook)
  {
    Post(s.webhook.value, Payload(text, msg.author.displayName, msg.author.iconImage))
  }

  /** `send(text)`: the post, then an unhandled rejection if the POST rejected. */
  function Deliver(s: BridgeState, msg: Message, x: MessageExternals, text: string): seq<Effect>
    requires Truthy(s.webhook)
  {
    [Send(s, msg, text)] + (if x.postFulfilled then [] else [Raise(PostRejected)])
  }

  /** The media branch: fetch the bytes, upload them, post the download URL. */
  function MediaEffects(s: BridgeState, msg: Message, x: MessageExternals): seq<Effect>
    requires Truthy(s.webhook)
  {
    if !x.mediaFetched then [Raise(MediaUnavailable)]
    else match UploadFileName(msg.metadata, x.parseInfo)
      case None => [Raise(MediaInfoUnparseable)]
      case Some(name) =>
        var upload := Upload(UploadUrl(name, x.encode));
        match x.upload
        case Unreachable => [upload, Raise(UploadUnreachable)]
        case NotOk => [upload]
        case Accepted(BodyNotJson) => [upload, Raise(UploadReplyMalformed)]
        case Accepted(BodyJson(key)) =>
          if Truthy(key) then [upload] + Deliver(s, msg, x, DownloadUrl(key.value, x.encode))
          else [upload]
  }

  /** Everything after the readiness gate: look the channel up, then relay by content type. */
  function Dispatch(s: BridgeState, msg: Message, x: MessageExternals): seq<Effect>
    requires Truthy(s.webhook)
  {
    match x.channel
    case FetchFailed => [Raise(ChannelUnavailable)]
    case NoChannel => []
    case Channel(kind) =>
      if kind != GuildText then []
      else if IsStickerCase(msg) then
        Deliver(s, msg, x, StickerUrl(StickerId(msg.metadata).value, Animated(msg.metadata)))
      else if IsMediaCase(msg) then MediaEffects(s, msg, x)
      else if msg.content != Some("") then
        match msg.content
        case None => [Raise(ContentMissing)]
        case Some(text) => Deliver(s, msg, x, Neutralise(text))
      else []
  }

  /** Which readiness gate a handler run applies: the one in the code, or the intended one. */
  datatype Gate = AsWritten | Intended

  predicate GateOpen(g: Gate, s: BridgeState) {
    match g
    case AsWritten => ReadinessGateAsWritten(s)
    case Intended => ReadinessGate(s)
  }

  /** One run of the `square:message` handler under gate `g`. */
  function HandleMessageWith(g: Gate, s: BridgeState, msg: Message, x: MessageExternals): seq<Effect> {
    if msg.squareChatMid != TargetChat then []
    else if !GateOpen(g, s) then []
    else Dispatch(s, msg, x)
  }

  /** The handler as written in the source. */
  function HandleMessageAsWritten(s: BridgeState, msg: Message, x: MessageExternals): seq<Effect> {
    HandleMessageWith(AsWritten, s, msg, x)
  }

  /** The handler with the readiness gate corrected. */
  function HandleMessage(s: BridgeState, msg: Message, x: MessageExternals): seq<Effect> {
    HandleMessageWith(Intended, s, msg, x)
  }

  /** The handler under gate `g` reached its dispatch: right chat, gate open, a text channel found. */
  predicate Dispatches(g: Gate, s: BridgeState, msg: Message, x: MessageExternals) {
    msg.squareChatMid == TargetChat && GateOpen(g, s) && x.channel == Channel(GuildText)
  }
}
