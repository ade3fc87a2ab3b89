/**
 * How a message's binary content becomes a public URL: sticker URLs are
 * built from a template, images, videos and files are re-hosted on a
 * storage service under a derived file name.
 */
module Media {
  import opened Wrappers
  import opened Js
  import opened Messages

  const StickerBase := "https://stickershop.line-scdn.net/stickershop/v1/sticker/"
  const AndroidDir := "/android/"
  const AnimatedAsset := "sticker_animation.png"
  const StaticAsset := "sticker.png"
  const UploadEndpoint := "https://storage.evex.land/upload?filename="
  const DownloadEndpoint := "https://storage.evex.land/download?key="
  const DefaultExtension := "png"

  function Asset(animated: bool): string {
    if animated then AnimatedAsset else StaticAsset
  }

  /** The CDN address of sticker `id`, animated or static. */
  function StickerUrl(id: string, animated: bool): string {
    StickerBase + id + AndroidDir + Asset(animated)
  }

  predicate StartsWith(s: string, prefix: string) {
    |prefix| <= |s| && s[..|prefix|] == prefix
  }

  predicate EndsWith(s: string, suffix: string) {
    |suffix| <= |s| && s[|s| - |suffix|..] == suffix
  }

  /** Reads the sticker id and the animation choice back out of a sticker URL. */
  function ParseStickerUrl(u: string): Option<(string, bool)> {
    if !StartsWith(u, StickerBase) then None
    else
      var rest := u[|StickerBase|..];
      if EndsWith(rest, AndroidDir + AnimatedAsset) then
        Some((rest[..|rest| - |AndroidDir + AnimatedAsset|], true))
      else if EndsWith(rest, AndroidDir + StaticAsset) then
        Some((rest[..|rest| - |AndroidDir + StaticAsset|], false))
      else None
  }

  /** Every sticker URL names its sticker id and asset unambiguously. */
  lemma StickerUrlRoundTrip(id: string, animated: bool)
    ensures ParseStickerUrl(StickerUrl(id, animated)) == Some((id, animated))
  {
    var u := StickerUrl(id, animated);
    assert u[..|StickerBase|] == StickerBase;
    var rest := u[|StickerBase|..];
    assert rest == id + AndroidDir + Asset(animated);
    var sa := AndroidDir + AnimatedAsset;
    var ss := AndroidDir + StaticAsset;
    if animated {
      assert rest[|rest| - |sa|..] == sa;
      assert rest[..|rest| - |sa|] == id;
    } else {
      assert rest[|rest| - |ss|..] == ss;
      assert rest[..|rest| - |ss|] == id;
      assert !EndsWith(rest, sa) by {
        if |sa| <= |rest| {
          assert rest[|rest| - 5] == 'r';
          assert rest[|rest| - |sa|..][|sa| - 5] == rest[|rest| - 5];
          assert sa[|sa| - 5] == 'n';
        }
      }
    }
  }

  /** Whatever parses as a sticker URL is the URL of what it parses to. */
  lemma ParseStickerUrlSound(u: string)
    ensures ParseStickerUrl(u).Some? ==>
      StickerUrl(ParseStickerUrl(u).value.0, ParseStickerUrl(u).value.1) == u
  {
  }

  /** Parsed media-info JSON: `None` stands for a missing or falsy `extension`; `Unparseable` for a throw. */
  datatype MediaInfo = Unparseable | Parsed(extension: Option<string>)

  /**
   * The file name the re-hosted object is uploaded under: the explicit
   * `FILE_NAME` when truthy, else `image.` plus the media-info extension,
   * `png` when that is absent or empty. `None` when the media info must be
   * parsed and cannot be (a missing key parses `undefined` and throws too).
   */
  function UploadFileName(metadata: map<string, string>, parseInfo: string -> MediaInfo): (r: Option<string>)
    ensures Truthy(Get(metadata, FileNameKey)) ==> r == Some(metadata[FileNameKey])
    ensures !Truthy(Get(metadata, FileNameKey)) ==>
      (r.Some? <==> MediaInfoKey in metadata && parseInfo(metadata[MediaInfoKey]).Parsed?)
    ensures !Truthy(Get(metadata, FileNameKey)) && r.Some? ==>
      var ext := parseInfo(metadata[MediaInfoKey]).extension;
      r.value == "image." + (if Truthy(ext) then ext.value else "png")
  {
    var fileName := Get(metadata, FileNameKey);
    if Truthy(fileName) then fileName
    else match Get(metadata, MediaInfoKey)
      case None => None
      case Some(raw) =>
        match parseInfo(raw)
        case Unparseable => None
        case Parsed(ext) => Some("image." + (if Truthy(ext) then ext.value else DefaultExtension))
  }

  /** A derived upload name is never empty, and a derived (not explicit) one always carries a non-empty extension. */
  lemma UploadFileNameNonEmpty(metadata: map<string, string>, parseInfo: string -> MediaInfo)
    ensures UploadFileName(metadata, parseInfo).Some? ==> UploadFileName(metadata, parseInfo).value != ""
    ensures UploadFileName(metadata, parseInfo).Some? && !Truthy(Get(metadata, FileNameKey)) ==>
      var n := UploadFileName(metadata, parseInfo).value;
      StartsWith(n, "image.") && |n| > |"image."|
  {
  }

  function UploadUrl(fileName: string, encode: string -> string): string {
    UploadEndpoint + encode(fileName)
  }

  function DownloadUrl(downloadKey: string, encode: string -> string): string {
    DownloadEndpoint + encode(downloadKey)
  }

  lemma PrefixCancels(p: string, a: string, b: string)
    requires p + a == p + b
    ensures a == b
  {
    assert a == (p + a)[|p|..];
  }

  /** With an injective URI encoding, distinct download keys give distinct download URLs. */
  lemma DownloadUrlInjective(encode: string -> string, k1: string, k2: string)
    requires forall a, b :: encode(a) == encode(b) ==> a == b
    ensures DownloadUrl(k1, encode) == DownloadUrl(k2, encode) ==> k1 == k2
  {
    if DownloadUrl(k1, encode) == DownloadUrl(k2, encode) {
      PrefixCancels(DownloadEndpoint, encode(k1), encode(k2));
    }
  }

  /** With an injective URI encoding, distinct file names give distinct upload URLs. */
  lemma UploadUrlInjective(encode: string -> string, n1: string, n2: string)
    requires forall a, b :: encode(a) == encode(b) ==> a == b
    ensures UploadUrl(n1, encode) == UploadUrl(n2, encode) ==> n1 == n2
  {
    if UploadUrl(n1, encode) == UploadUrl(n2, encode) {
      PrefixCancels(UploadEndpoint, encode(n1), encode(n2));
    }
  }
}
