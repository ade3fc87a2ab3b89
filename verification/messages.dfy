/** The inbound LINE Square message as the relay sees it. */
module Messages {
  import opened Wrappers

  /** The content-type tag; every tag the relay does not dispatch on is `Other`. */
  datatype ContentType = Text | Sticker | Image | Video | File | Other

  datatype Author = Author(displayName: string, iconImage: string)

  /**
   * `content` is `None` when the platform sends no text (JavaScript `null`
   * or `undefined`); `hasData` says whether the message carries a reference
   * to a binary object (`message.data` is truthy).
   */
  datatype Message = Message(
    squareChatMid: string,
    author: Author,
    contentType: ContentType,
    content: Option<string>,
    metadata: map<string, string>,
    hasData: bool)

  /** Metadata keys the relay reads. */
  const StickerVersionKey := "STKVER"
  const StickerIdKey := "STKID"
  const StickerOptionKey := "STKOPT"
  const FileNameKey := "FILE_NAME"
  const MediaInfoKey := "MEDIA_CONTENT_INFO"

  predicate IsMedia(t: ContentType) {
    t == Image || t == Video || t == File
  }
}
