/**
 * What the `square:message` handler promises, stated over all messages,
 * states and outside results, and for both readiness gates unless a lemma
 * names one.
 */
module RelayProperties {
  import opened Wrappers
  import opened Js
  import opened Strings
  import opened Messages
  import opened Media
  import opened Mentions
  import opened Bridge
  import opened Relay

  /** A message from any other chat has no effect at all, whatever it holds. */
  lemma ForeignChatIgnored(g: Gate, s: BridgeState, msg: Message, x: MessageExternals)
    requires msg.squareChatMid != TargetChat
    ensures HandleMessageWith(g, s, msg, x) == []
  {
  }

  /** Before the Discord client is ready, or while no webhook is cached, nothing happens. */
  lemma UnreadyBridgeIgnores(s: BridgeState, msg: Message, x: MessageExternals)
    requires !s.discordReady || !Truthy(s.webhook)
    ensures HandleMessage(s, msg, x) == []
  {
  }

  /** The message handler never creates nor persists a webhook. */
  lemma MessageLeavesEndpointAlone(g: Gate, s: BridgeState, msg: Message, x: MessageExternals)
    ensures forall e :: e in HandleMessageWith(g, s, msg, x) ==> !e.CreateWebhook? && !e.Store?
  {
  }

  /**
   * At most one webhook post per message; it goes to the cached webhook,
   * under the author's display name and icon, and only once the handler
   * has passed the filter, the gate and the channel check. A POST that
   * rejects leaves an unhandled rejection behind it.
   */
  lemma AtMostOneDelivery(g: Gate, s: BridgeState, msg: Message, x: MessageExternals)
    ensures |Posts(HandleMessageWith(g, s, msg, x))| <= 1
    ensures forall e :: e in HandleMessageWith(g, s, msg, x) && e.Post? ==>
      Truthy(s.webhook) && e.webhook == s.webhook.value
      && e.payload.username == msg.author.displayName
      && e.payload.avatarUrl == msg.author.iconImage
    ensures Delivered(HandleMessageWith(g, s, msg, x)).Some? ==> Dispatches(g, s, msg, x)
    ensures Delivered(HandleMessageWith(g, s, msg, x)).Some? && !x.postFulfilled ==>
      Raise(PostRejected) in HandleMessageWith(g, s, msg, x)
  {
    var effects := HandleMessageWith(g, s, msg, x);
    if msg.squareChatMid == TargetChat && GateOpen(g, s) {
      assert effects == Dispatch(s, msg, x);
      DispatchPosts(s, msg, x);
    } else {
      assert effects == [];
    }
  }

  /** The dispatch posts at most once, and a post that rejects raises. */
  lemma DispatchPosts(s: BridgeState, msg: Message, x: MessageExternals)
    requires Truthy(s.webhook)
    ensures Posts(Dispatch(s, msg, x)) == [] || Posts(Dispatch(s, msg, x)) == [Send(s, msg, Posts(Dispatch(s, msg, x))[0].payload.content)]
    ensures Posts(Dispatch(s, msg, x)) != [] && !x.postFulfilled ==> Raise(PostRejected) in Dispatch(s, msg, x)
  {
    var effects := Dispatch(s, msg, x);
    if x.channel != Channel(GuildText) {
      assert effects == [] || effects == [Raise(ChannelUnavailable)];
      assert Posts([Raise(ChannelUnavailable)]) == [];
    } else if IsStickerCase(msg) {
      var text := StickerUrl(StickerId(msg.metadata).value, Animated(msg.metadata));
      assert effects == Deliver(s, msg, x, text);
      DeliverPosts(s, msg, x, text);
    } else if IsMediaCase(msg) {
      assert effects == MediaEffects(s, msg, x);
      MediaPosts(s, msg, x);
    } else if msg.content.None? {
      assert effects == [Raise(ContentMissing)];
      assert Posts([Raise(ContentMissing)]) == [];
    } else if msg.content.value == "" {
      assert effects == [];
    } else {
      var text := Neutralise(msg.content.value);
      assert effects == Deliver(s, msg, x, text);
      DeliverPosts(s, msg, x, text);
    }
  }

  /** The media branch reaches the webhook exactly when bytes, name, a 2xx reply and a download key are all there. */
  predicate MediaReachesWebhook(msg: Message, x: MessageExternals) {
    x.mediaFetched && UploadFileName(msg.metadata, x.parseInfo).Some?
    && x.upload.Accepted? && x.upload.body.BodyJson? && Truthy(x.upload.body.downloadKey)
  }

  /** The media branch posts the download URL of the key exactly when it reaches the webhook. */
  lemma MediaPosts(s: BridgeState, msg: Message, x: MessageExternals)
    requires Truthy(s.webhook)
    ensures Posts(MediaEffects(s, msg, x)) ==
      if MediaReachesWebhook(msg, x) then [Send(s, msg, DownloadUrl(x.upload.body.downloadKey.value, x.encode))] else []
    ensures Posts(MediaEffects(s, msg, x)) != [] && !x.postFulfilled ==> Raise(PostRejected) in MediaEffects(s, msg, x)
  {
    if x.mediaFetched && UploadFileName(msg.metadata, x.parseInfo).Some? {
      var upload := Upload(UploadUrl(UploadFileName(msg.metadata, x.parseInfo).value, x.encode));
      assert Posts([upload]) == [];
      match x.upload
      case Unreachable =>
        PostsAppend([upload], [Raise(UploadUnreachable)]);
        assert Posts([Raise(UploadUnreachable)]) == [];
      case NotOk =>
      case Accepted(BodyNotJson) =>
        PostsAppend([upload], [Raise(UploadReplyMalformed)]);
        assert Posts([Raise(UploadReplyMalformed)]) == [];
      case Accepted(BodyJson(key)) =>
        if Truthy(key) {
          var text := DownloadUrl(key.value, x.encode);
          DeliverPosts(s, msg, x, text);
          PostsAppend([upload], Deliver(s, msg, x, text));
        }
    } else {
      assert Posts([Raise(MediaUnavailable)]) == [];
      assert Posts([Raise(MediaInfoUnparseable)]) == [];
    }
  }

  /** `send` posts the text once, as the author; a POST that rejects raises after it. */
  lemma DeliverPosts(s: BridgeState, msg: Message, x: MessageExternals, text: string)
    requires Truthy(s.webhook)
    ensures Posts(Deliver(s, msg, x, text)) == [Send(s, msg, text)]
    ensures !x.postFulfilled ==> Raise(PostRejected) in Deliver(s, msg, x, text)
  {
    var tail: seq<Effect> := if x.postFulfilled then [] else [Raise(PostRejected)];
    PostsAppend([Send(s, msg, text)], tail);
    assert Posts([Send(s, msg, text)]) == [Send(s, msg, text)];
    if !x.postFulfilled {
      assert Posts(tail) == [];
      assert Deliver(s, msg, x, text)[1] == Raise(PostRejected);
    }
  }

  /**
   * A sticker with a truthy `STKVER` and a non-empty `STKID` is relayed as
   * its CDN URL, the animated asset when `STKOPT` is `"A"`.
   */
  lemma StickerDelivered(g: Gate, s: BridgeState, msg: Message, x: MessageExternals)
    requires Dispatches(g, s, msg, x)
    requires msg.contentType == Sticker
    requires Truthy(Get(msg.metadata, "STKVER")) && Truthy(Get(msg.metadata, "STKID"))
    ensures HandleMessageWith(g, s, msg, x) == [Post(s.webhook.value, Payload(
      "https://stickershop.line-scdn.net/stickershop/v1/sticker/" + msg.metadata["STKID"] + "/android/"
        + (if Get(msg.metadata, "STKOPT") == Some("A") then "sticker_animation.png" else "sticker.png"),
      msg.author.displayName, msg.author.iconImage))]
      + (if x.postFulfilled then [] else [Raise(PostRejected)])
  {
  }

  /**
   * An image, video or file with data is relayed exactly when its bytes
   * were fetched, its upload name could be derived, and the upload
   * answered 2xx with a non-empty download key; the text is then the
   * download URL of that key. The upload is issued under the derived name
   * whenever the bytes were fetched and the name derived.
   */
  lemma MediaDelivered(g: Gate, s: BridgeState, msg: Message, x: MessageExternals)
    requires Dispatches(g, s, msg, x)
    requires IsMedia(msg.contentType) && msg.hasData
    ensures Delivered(HandleMessageWith(g, s, msg, x)).Some? <==>
      x.mediaFetched && UploadFileName(msg.metadata, x.parseInfo).Some?
      && x.upload.Accepted? && x.upload.body.BodyJson? && Truthy(x.upload.body.downloadKey)
    ensures Delivered(HandleMessageWith(g, s, msg, x)).Some? ==>
      Delivered(HandleMessageWith(g, s, msg, x)).value.content
        == "https://storage.evex.land/download?key=" + x.encode(x.upload.body.downloadKey.value)
    ensures forall u :: Upload(u) in HandleMessageWith(g, s, msg, x) <==>
      x.mediaFetched && UploadFileName(msg.metadata, x.parseInfo).Some?
      && u == "https://storage.evex.land/upload?filename=" + x.encode(UploadFileName(msg.metadata, x.parseInfo).value)
  {
    assert HandleMessageWith(g, s, msg, x) == MediaEffects(s, msg, x);
    MediaPosts(s, msg, x);
  }

  /** A refused upload drops the message silently: the upload, and nothing after it. */
  lemma RefusedUploadDropsSilently(g: Gate, s: BridgeState, msg: Message, x: MessageExternals)
    requires Dispatches(g, s, msg, x)
    requires IsMedia(msg.contentType) && msg.hasData
    requires x.mediaFetched && UploadFileName(msg.metadata, x.parseInfo).Some?
    requires x.upload == NotOk
    ensures |HandleMessageWith(g, s, msg, x)| == 1 && HandleMessageWith(g, s, msg, x)[0].Upload?
  {
  }

  /**
   * Everything that is neither a resolvable sticker nor media with data —
   * including a sticker without an id and media without data — takes the
   * text branch: relayed exactly when the text is non-empty, as the text
   * with its first `@everyone` and then its first `@here` defanged, and
   * verbatim when it holds neither. Absent text makes the handler throw.
   */
  lemma TextFallThrough(g: Gate, s: BridgeState, msg: Message, x: MessageExternals)
    requires Dispatches(g, s, msg, x)
    requires !IsStickerCase(msg) && !IsMediaCase(msg)
    ensures Delivered(HandleMessageWith(g, s, msg, x)).Some? <==> msg.content.Some? && msg.content.value != ""
    ensures Delivered(HandleMessageWith(g, s, msg, x)).Some? ==>
      Delivered(HandleMessageWith(g, s, msg, x)).value.content
        == ReplaceFirst(ReplaceFirst(msg.content.value, "@everyone", "@ everyone"), "@here", "@ here")
    ensures Delivered(HandleMessageWith(g, s, msg, x)).Some? ==>
      ((Delivered(HandleMessageWith(g, s, msg, x)).value.content == msg.content.value)
        <==> (!Occurs(msg.content.value, "@everyone") && !Occurs(msg.content.value, "@here")))
    ensures msg.content.None? ==> HandleMessageWith(g, s, msg, x) == [Raise(ContentMissing)]
  {
  }

  /** A message that is exactly `@everyone` arrives as `@ everyone`. */
  lemma BareEveryoneDefanged(g: Gate, s: BridgeState, msg: Message, x: MessageExternals)
    requires Dispatches(g, s, msg, x)
    requires msg.contentType == Text && msg.content == Some("@everyone")
    ensures Delivered(HandleMessageWith(g, s, msg, x)) == Some(Payload("@ everyone", msg.author.displayName, msg.author.iconImage))
  {
    assert HandleMessageWith(g, s, msg, x) == Deliver(s, msg, x, Neutralise("@everyone"));
    NeutraliseBareMentions();
  }

  /**
   * The readiness gate as written lets a message through before the
   * Discord client is ready: after a restart the webhook is loaded from
   * storage, so a text message is posted although the client is not ready.
   * The intended gate drops it.
   */
  lemma AsWrittenGateIgnoresReadiness()
    ensures var s := BridgeState(false, Some("https://discord.com/api/webhooks/1/t"), map["discord_webhook" := "https://discord.com/api/webhooks/1/t"]);
      var msg := Message(TargetChat, Author("alice", "https://profile.line-scdn.net/a"), Text, Some("hi"), map[], false);
      var x := MessageExternals(Channel(GuildText), false, _ => Unparseable, NotOk, t => t, true);
      && !s.discordReady
      && ReadinessGateAsWritten(s) && !ReadinessGate(s)
      && HandleMessageAsWritten(s, msg, x) == [Post("https://discord.com/api/webhooks/1/t", Payload("hi", "alice", "https://profile.line-scdn.net/a"))]
      && HandleMessage(s, msg, x) == []
  {
  }

  /**
   * The handler as written behaves exactly like the intended one would if
   * the Discord client were always ready: readiness is the only thing the
   * two gates disagree on.
   */
  lemma AsWrittenActsAsIfReady(s: BridgeState, msg: Message, x: MessageExternals)
    ensures HandleMessageAsWritten(s, msg, x) == HandleMessage(s.(discordReady := true), msg, x)
    ensures s.discordReady ==> HandleMessageAsWritten(s, msg, x) == HandleMessage(s, msg, x)
  {
    var t := s.(discordReady := true);
    if msg.squareChatMid == TargetChat && Truthy(s.webhook) {
      assert Dispatch(s, msg, x) == Dispatch(t, msg, x);
    }
  }
}
