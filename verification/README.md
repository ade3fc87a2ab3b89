# linecord relay — a Dafny model

linecord relays the messages of one LINE Square chat into one Discord text
channel through a webhook. This project models its core, `index.ts`:

- the `square:message` handler: the target-chat filter, the readiness gate,
  the dispatch on content type (sticker URL from a CDN template; image, video
  or file re-hosted on a storage service; otherwise text with its mass
  mentions defanged) and the webhook payload;
- the Discord `ready` handler with the initial load from storage: a cached
  webhook is reused, otherwise one is created on the target text channel and
  persisted under `discord_webhook`.

Each handler run is a pure function from the bridge state (Discord readiness,
cached webhook, persisted key-value storage) and the results of the outside
calls it makes to a `Reaction`: the next state and the ordered effects of the
run (`Upload`, `Post`, `CreateWebhook`, `Store`, and `Raise` for an unhandled
promise rejection). The outside results are parameters: the channel lookup,
whether LINE's object bytes could be fetched, `JSON.parse` of
`MEDIA_CONTENT_INFO`, the upload reply, whether the webhook POST was fulfilled or rejected, the result of
`createWebhook`, and
`encodeURIComponent` as an uninterpreted function.

JavaScript semantics kept explicit: `String.prototype.replace` with a string
pattern replaces the first occurrence only (`Strings.ReplaceFirst`, checked
against a reference definition of "first occurrence"); the empty string and
`undefined` are falsy (`Js.Truthy`); `null.replace` throws, so a text-branch
message without text ends in `Raise(ContentMissing)`; `JSON.parse(undefined)`
throws, so media without `FILE_NAME` and without `MEDIA_CONTENT_INFO` ends in
`Raise(MediaInfoUnparseable)`.

The model follows the code, including where the code does less than it evidently means to:
- A sticker whose `STKVER`/`STKID` are missing is not dropped; it falls through
  to the text branch (index.ts:78, 95).
- The `png` default applies only when the parsed media info has a missing or
  empty `extension`. Unparseable or missing media info throws (index.ts:83).
- The readiness gate as written does not test readiness (see Findings). The
  handler is defined once over a gate, `Relay.HandleMessageWith(g, ...)`:
  `HandleMessageAsWritten` is the code, `HandleMessage` the correction.
  Every lemma about the whole handler or about event runs takes the gate
  as a parameter and holds for both. The one exception is
  `RelayProperties.UnreadyBridgeIgnores`, which holds for the intended gate
  only; `AsWrittenGateIgnoresReadiness` and `AsWrittenActsAsIfReady` relate
  the two gates.
- Failures are not contained. A handler that throws leaves an unhandled
  promise rejection, and Deno then ends the process. Examples are absent
  text on the text branch, unparseable media info, and a failed
  `channels.fetch`, upload, webhook POST or `createWebhook`. `Lifecycle.Run` therefore
  stops at the first `Raise`. A restart reloads the webhook from storage
  (`Endpoint.Load`).

The modules are `Wrappers` (Option), `Js` (truthiness, property access), `Strings`
(search and first-occurrence replace), `Messages` (the inbound message),
`Media` (sticker, upload and download URLs, upload file name), `Mentions`
(mass-mention defanging), `Bridge` (state, payload, effects), `Relay` (the
message handler), `RelayProperties` (its properties), `Endpoint` (the `ready`
handler), and `Lifecycle` (event sequences).

## Model

| member | source | states |
|---|---|---|
| Strings.IndexOfFrom | index.ts:96 | the search from index k returns an occurrence of the pattern with none between k and it, and returns none exactly when no occurrence starts at or after k |
| Strings.IndexOf | index.ts:96 | a match is found exactly when the pattern occurs, and it is the first occurrence |
| Strings.ReplaceFirst | index.ts:96 | `replace` with a string pattern leaves text without the pattern unchanged and otherwise splices the replacement in at the first occurrence only |
| Strings.ReplaceFirstLength | index.ts:96 | replacing changes the length by the size difference exactly when the pattern occurs |
| Strings.ReplaceFirstLeavesLaterOccurrences | index.ts:96 | of two `@everyone`, only the first is defanged: the replace is not a replace-all |
| Mentions.Neutralise | index.ts:96 | defanging grows the text by at most two characters and never shrinks it |
| Mentions.NeutraliseIdentityIff | index.ts:96 | text is relayed verbatim if and only if it contains neither `@everyone` nor `@here` |
| Mentions.NeutraliseBareMentions | index.ts:96 | the text `@everyone` becomes `@ everyone` and `@here` becomes `@ here` |
| Media.StickerUrlRoundTrip | index.ts:79 | the sticker id and the animated/static choice can be read back from every sticker URL |
| Media.ParseStickerUrlSound | index.ts:79 | whatever parses as a sticker URL is exactly the sticker URL of what it parses to |
| Media.UploadFileName | index.ts:83 | the upload name is a truthy `FILE_NAME`; otherwise `image.` plus the parsed extension, `png` when that is absent or empty; no name when the media info is missing or does not parse |
| Media.UploadFileNameNonEmpty | index.ts:83 | a derived upload name is never empty, and without `FILE_NAME` it is `image.` followed by a non-empty extension |
| Media.UploadUrlInjective | index.ts:83 | with an injective URI encoding, distinct file names give distinct upload URLs |
| Media.DownloadUrlInjective | index.ts:92 | with an injective URI encoding, distinct download keys give distinct download URLs |
| RelayProperties.ForeignChatIgnored | index.ts:43-45 | under either gate, a message from any chat other than the target has no effect, whatever its content or the bridge state |
| RelayProperties.UnreadyBridgeIgnores | index.ts:49-51 | under the intended gate, a message has no effect when the Discord client is not ready or no webhook is cached |
| RelayProperties.MessageLeavesEndpointAlone | index.ts:42-100 | under either gate, the message handler never creates or persists a webhook |
| RelayProperties.AtMostOneDelivery | index.ts:59-97 | under either gate, a message yields at most one webhook post; it goes to the cached webhook with the author's display name and icon, only after the filter, that gate and the text-channel check passed, and a POST that rejects leaves an unhandled rejection |
| RelayProperties.DispatchPosts | index.ts:58-97 | past the channel lookup, every branch posts at most once, to the cached webhook as the author, and a POST that rejects raises |
| RelayProperties.MediaPosts | index.ts:80-94 | the media branch posts exactly once, the download URL of the returned key, when bytes, name, a 2xx reply and a non-empty key are all there, and never otherwise |
| RelayProperties.DeliverPosts | index.ts:59-74 | `send` posts the text once to the cached webhook as the author, and a POST that rejects raises after it |
| RelayProperties.StickerDelivered | index.ts:47-79 | once past the filter, either gate and the channel check, a sticker with truthy `STKVER` and `STKID` is posted as exactly the CDN URL of `STKID`, with `sticker_animation.png` when `STKOPT` is `A` and `sticker.png` otherwise, followed by an unhandled rejection exactly when the POST rejects |
| RelayProperties.MediaDelivered | index.ts:80-94 | once past the filter, either gate and the channel check, an image, video or file with data is posted if and only if the bytes were fetched, a name was derived, and the upload answered 2xx with a non-empty key; the post is the download URL of that key; the upload is issued under the derived name exactly when bytes and name are there |
| RelayProperties.RefusedUploadDropsSilently | index.ts:88-94 | under either gate, a non-2xx upload reply ends the run after the upload, with no post and no error |
| RelayProperties.TextFallThrough | index.ts:78-96 | once past the filter, either gate and the channel check, anything that is neither a resolvable sticker nor media with data is posted if and only if its text is non-empty, as the text with first `@everyone` then first `@here` defanged, unchanged exactly when it holds neither; absent text throws |
| RelayProperties.BareEveryoneDefanged | index.ts:95-96 | under either gate, a text message that is exactly `@everyone` is posted as `@ everyone` |
| RelayProperties.AsWrittenGateIgnoresReadiness | index.ts:49-51 | with the gate as written, a webhook loaded from storage lets a message be posted before the Discord client is ready, while the intended gate drops it |
| RelayProperties.AsWrittenActsAsIfReady | index.ts:49-97 | the handler as written behaves exactly as the intended one would if the Discord client were always ready, and the two agree whenever it is ready |
| Endpoint.Load | index.ts:28 | at startup the cached webhook is what storage holds under `discord_webhook`, so memory and storage agree |
| Endpoint.CachedWebhookReused | index.ts:126 | a `ready` event with a webhook cached creates nothing and changes nothing |
| Endpoint.NoTextChannelNoWebhook | index.ts:128-133 | a missing, unreachable or non-text channel leaves the state unchanged and requests no webhook |
| Endpoint.CreatedWebhookPersisted | index.ts:133-138 | a created webhook's URL is held in memory and under `discord_webhook` in storage, and no other stored key changes |
| Endpoint.ReadyPreservesConsistency | index.ts:123-141 | the `ready` handler keeps memory and storage in agreement on the webhook and never posts |
| Endpoint.InterleavedReadiesCreateTwice | index.ts:126-138 | for any two created URLs, two `ready` handlers suspended after the cache check make two `createWebhook` requests and persist twice, and the second URL overwrites the first in memory and in storage |
| Lifecycle.MessageKeepsState | index.ts:42-100 | under either gate, a message event leaves the bridge state exactly as it was and persists nothing |
| Lifecycle.StepPreservesConsistency | index.ts:28-141 | every event keeps memory and storage in agreement on the webhook |
| Lifecycle.RunPreservesConsistency | index.ts:28-141 | after any sequence of events handled one at a time, up to the first unhandled rejection, memory and storage agree on the webhook |
| Lifecycle.RestartRecoversWebhook | index.ts:28 | a webhook cached when the process stops is the one a restart loads from storage |
| Lifecycle.NullTextStopsBridge | index.ts:95-96 | a sticker without `STKVER` and without text throws at `replace`; the process stops, and a text message after it is not relayed, though it would be relayed on its own |
| Lifecycle.PostsUseStoredWebhook | index.ts:59-74 | every post targets the URL persisted under `discord_webhook` |
| Lifecycle.StepCreatesAtMostOnce | index.ts:123-141 | one event requests and persists at most one webhook, neither when one was cached (which it keeps), persists nothing unless it leaves one cached, and requests none without leaving one cached unless it raises; all of this only when `createWebhook` returns a non-empty URL |
| Lifecycle.SequentialRunCreatesAtMostOnce | index.ts:123-141 | handled one at a time up to the first unhandled rejection, any number of events request at most one `createWebhook` and persist at most one webhook, neither when one was already cached, and a cached webhook survives them; all of this only when every `createWebhook` returns a non-empty URL |

## Left out

- Client construction, login, the LINE `ready`, `pincall` and `update:authtoken` logging handlers, and the environment check (index.ts:1-27, 29-40, 102-121, 143): library calls and console output.
- The LINE rate limiter (index.ts:21): only its arguments (4 requests per 2000 ms) are visible; its implementation lives in the LINE client library, which is not part of this model.
- `console.log` of the metadata (index.ts:76).
- `channels.fetch`, `getMessageObsData`, the upload `fetch`, `createWebhook` and `FileStorage` are not executed; their results are parameters. The bytes fetched from LINE are reduced to "fetched or not".
- `JSON.parse` of `MEDIA_CONTENT_INFO` and of the upload reply is abstracted to its outcome; non-string `extension` or `downloadKey` values are modelled as strings.
- `encodeURIComponent` is an uninterpreted parameter; injectivity is assumed only where a lemma says so.
- The webhook POST's outcome is reduced to whether its promise was fulfilled or rejected (`postFulfilled`); an HTTP error status still fulfils it, and its response is never read, so it is not modelled.
- A call that never settles (a `fetch`, `channels.fetch` or `createWebhook` left pending) stalls its handler; each handler run is atomic here, so the model has no such outcome. For the final webhook POST its effects are the same as fulfilment.
- `contentMetadata` is taken to be always present; a missing record would make the sticker test read `undefined` and the media branch throw.
- Strings are Dafny sequences of Unicode scalar values, while JavaScript strings are UTF-16 code units. The two agree for the ASCII patterns `@everyone` and `@here` and for well-formed text; lone surrogates are not modelled.
- The second webhook check inside `send` (index.ts:60-62) always passes in an atomic run, since nothing clears the webhook.
- Interleaving of handlers at their `await` points is modelled only for the `ready` handler (`Endpoint.InterleavedReadiesCreateTwice`); message handlers are atomic, so out-of-order completion of two relays is not modelled.
- Lifecycle.SequentialRunCreatesAtMostOnce: holds only for events handled one at a time; interleaved `ready` handlers create twice (`Endpoint.InterleavedReadiesCreateTwice`).
- Lifecycle.StepCreatesAtMostOnce, Lifecycle.SequentialRunCreatesAtMostOnce: assume Discord never returns an empty webhook URL; an empty URL is falsy at index.ts:126, so each later `ready` event would create again.

## Findings

| source | as written | input that shows it | evidently intended | confidence | as-written member | corrected member |
|---|---|---|---|---|---|---|
| index.ts:49 | `!discord_client.isReady` negates the `isReady` method of the Discord client, which is always truthy, so only the webhook is examined | after a restart, storage holds `discord_webhook`; a text message from the target chat arrives before Discord's `ready`, and `channels.fetch` already returns the text channel; it is posted | `!discord_client.isReady()`: no relay until the client is ready | medium, not executed; depends on `@djs/client` exposing discord.js's `isReady()` method | Relay.HandleMessageAsWritten, RelayProperties.AsWrittenGateIgnoresReadiness | Relay.HandleMessage, RelayProperties.UnreadyBridgeIgnores |
