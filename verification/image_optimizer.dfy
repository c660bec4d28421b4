/**
 * The image optimizer's decisions: which uploads it touches, the size an
 * oversized image is scaled to, the encoder settings, the rule that keeps a
 * re-encoded file only when it is smaller, the `.webp` name of an image and
 * when that copy is served, and the counters of a bulk run.
 *
 * The GD library is opaque: `probe` is `exif_imagetype` of a file's content,
 * `decode` the `imagecreatefrom*` / `imagesx` / `imagesy` step (None when
 * decoding fails), `encode` what `imagejpeg` / `imagepng` / `imagegif` /
 * `imagewebp` write for an image, an encoding and a size (None when they
 * write nothing).
 */
module ImageOptimizer {
  import opened Wrappers
  import opened Strings
  import opened Php
  import opened Host

  const SupportedTypes: seq<string> := ["image/jpeg", "image/png", "image/gif"]

  /** `is_supported_image_type`: a strict `in_array` over the three types. */
  predicate IsSupportedImageType(mime: string) {
    mime in SupportedTypes
  }

  /** What `exif_imagetype` reports. */
  datatype ImageType = Jpeg | Png | Gif | OtherType

  datatype Dims = Dims(width: nat, height: nat)

  /** A decoded image is at least one pixel each way. */
  type ImageSize = d: Dims | d.width >= 1 && d.height >= 1 witness Dims(1, 1)

  /** How the image is written back. */
  datatype Encoding = JpegAt(quality: int) | PngAt(level: int) | GifPlain | WebpAt(webpQuality: int)

  /**
   * `intval( $a / $b )` for integers and a positive divisor: PHP divides
   * exactly and `intval` truncates toward zero.
   */
  function TruncDiv(a: int, b: int): (q: int)
    requires b > 0
    ensures a >= 0 ==> 0 <= q && q * b <= a < q * b + b
    ensures a < 0 ==> q <= 0 && q * b - b < a <= q * b
  {
    if a >= 0 then a / b else -((-a) / b)
  }

  /** `! empty( $options[name] ) ? intval( $options[name] ) : default` */
  function Setting(options: Value, name: string, default: int): int {
    if !Empty(Get(options, name)) then IntVal(Get(options, name)) else default
  }

  function Quality(options: Value): int {
    Setting(options, "compression_quality", 80)
  }

  function MaxWidth(options: Value): int {
    Setting(options, "max_width", 2048)
  }

  function MaxHeight(options: Value): int {
    Setting(options, "max_height", 2048)
  }

  /** The settings default as the settings screen promises: quality 80, at most 2048 by 2048. */
  lemma SettingDefaults(options: Value)
    requires !IsSet(options, "compression_quality") && !IsSet(options, "max_width") && !IsSet(options, "max_height")
    ensures Quality(options) == 80 && MaxWidth(options) == 2048 && MaxHeight(options) == 2048
  {
  }

  /**
   * The size `optimize_image` writes. An image within the bounds keeps its
   * size; a larger one is scaled by `min( $max_width / $width, $max_height
   * / $height )` on both sides and truncated: the side with the smaller
   * ratio lands on its bound, the other side is scaled and truncated.
   */
  function Resize(size: ImageSize, maxWidth: int, maxHeight: int): (d: (int, int))
    ensures size.width <= maxWidth && size.height <= maxHeight ==> d == (size.width, size.height)
  {
    if size.width > maxWidth || size.height > maxHeight then
      if maxWidth * size.height <= maxHeight * size.width
      then (maxWidth, TruncDiv(size.height * maxWidth, size.width))
      else (TruncDiv(size.width * maxHeight, size.height), maxHeight)
    else (size.width, size.height)
  }

  /**
   * A resized image fits the bounds, is no larger than the original on
   * either side, and keeps the aspect ratio up to truncation: the scaled
   * side is the exact scaled length rounded down.
   */
  lemma ResizeFits(size: ImageSize, maxWidth: nat, maxHeight: nat)
    requires size.width > maxWidth || size.height > maxHeight
    ensures var d := Resize(size, maxWidth, maxHeight);
      0 <= d.0 <= maxWidth && 0 <= d.1 <= maxHeight
      && d.0 <= size.width && d.1 <= size.height
      && d.0 * size.height <= d.1 * size.width + size.width
      && d.1 * size.width <= d.0 * size.height + size.height
  {
    if maxWidth * size.height <= maxHeight * size.width {
      ScaleOther(size.width, size.height, maxWidth, maxHeight);
    } else {
      ScaleOther(size.height, size.width, maxHeight, maxWidth);
    }
  }

  /**
   * The side `a` with the smaller ratio `ma / a` is set to `ma`; the other
   * side `b` becomes `b * ma / a` rounded down, which fits `mb` and `b`.
   */
  lemma ScaleOther(a: int, b: int, ma: nat, mb: nat)
    requires a >= 1 && b >= 1 && (a > ma || b > mb) && ma * b <= mb * a
    ensures var q := TruncDiv(b * ma, a);
      ma < a && 0 <= q <= mb && q <= b && ma * b <= q * a + a && q * a <= ma * b
  {
    SmallerRatio(a, b, ma, mb);
    var x := b * ma;
    var q := TruncDiv(x, a);
    assert q == x / a;
    DivRemainder(x, a);
    DivBound(x, a, mb);
    assert x <= b * a by { MulLeft(b, ma, a); }
    DivBound(x, a, b);
  }

  /** A side over its bound, with the smaller ratio, is the one to shrink. */
  lemma SmallerRatio(a: int, b: int, ma: nat, mb: nat)
    requires a >= 1 && b >= 1 && (a > ma || b > mb) && ma * b <= mb * a
    ensures ma < a
  {
    if a <= ma {
      assert b > mb;
      MulLeft(a, ma, b);
      MulLeft(a, mb, b);
    }
  }

  lemma MulLeft(k: int, x: int, y: int)
    requires k >= 0 && x <= y
    ensures k * x <= k * y && x * k <= y * k
  {
  }

  lemma DivRemainder(x: nat, a: int)
    requires a > 0
    ensures (x / a) * a <= x < (x / a) * a + a
  {
  }

  /** Whole-number division by a positive divisor stays below a bound the dividend does. */
  lemma DivBound(a: nat, b: int, c: nat)
    requires b > 0 && a <= c * b
    ensures a / b <= c
  {
  }

  /** `intval( ( 100 - $quality ) / 10 )` */
  function PngLevel(quality: int): int {
    TruncDiv(100 - quality, 10)
  }

  /** For a quality from 1 to 100 the PNG level is a zlib level from 0 to 9. */
  lemma PngLevelRange(quality: int)
    requires 1 <= quality <= 100
    ensures 0 <= PngLevel(quality) <= 9
    ensures PngLevel(quality) == (100 - quality) / 10
  {
  }

  /** The default quality 80 writes PNG at level 2. */
  lemma PngLevelDefault()
    ensures PngLevel(80) == 2
  {
    PngLevelRange(80);
  }

  /** The encoder `optimize_image` uses for each type; other types are not handled. */
  function EncodingFor(kind: ImageType, quality: int): (e: Option<Encoding>)
    ensures e.None? <==> kind == OtherType
  {
    match kind
    case Jpeg => Some(JpegAt(quality))
    case Png => Some(PngAt(PngLevel(quality)))
    case Gif => Some(GifPlain)
    case OtherType => None
  }

  /** `$file_path . '.tmp'` */
  function TempFile(file: Path): (t: Path)
    requires |file| > 0
    ensures |t| == |file| && Parent(t) == Parent(file) && t != file
  {
    var t := Parent(file) + [Name(file) + ".tmp"];
    assert Name(t) != Name(file) by {
      assert |Name(t)| == |Name(file)| + 4;
    }
    t
  }

  /**
   * `optimize_image` on a file system: the file system afterwards and the
   * return value. The re-encoded image goes to the temp file; it replaces
   * the original only when it is strictly smaller, and is deleted otherwise.
   */
  function Optimize(fs: Fs, file: Path, options: Value, probe: string -> ImageType,
                    decode: string -> Option<ImageSize>, encode: (string, Encoding, (int, int)) -> Option<string>,
                    now: int): (Fs, bool)
  {
    if |file| == 0 || !IsFile(fs, file) then (fs, false)
    else
      var content := fs[file].content;
      match EncodingFor(probe(content), Quality(options))
      case None => (fs, false)
      case Some(enc) =>
        match decode(content)
        case None => (fs, false)
        case Some(size) =>
          var written := encode(content, enc, Resize(size, MaxWidth(options), MaxHeight(options)));
          var tmp := TempFile(file);
          var fs1 := if written.Some? then PutContents(fs, tmp, written.value, now) else fs;
          if !IsFile(fs1, tmp) then (fs1, false)
          else if Size(fs1, tmp) < Size(fs, file) then
            if CanMove(fs1, tmp, file) then (Move(fs1, tmp, file), true) else (fs1, false)
          else (Unlink(fs1, tmp), false)
  }

  /**
   * The keep-if-smaller rule: on success the file holds fewer bytes than
   * before and the temp file is gone; on failure the original is untouched;
   * and only the file and its temp file ever change.
   */
  lemma OptimizeKeepsSmaller(fs: Fs, file: Path, options: Value, probe: string -> ImageType,
                             decode: string -> Option<ImageSize>,
                             encode: (string, Encoding, (int, int)) -> Option<string>, now: int)
    requires |file| > 0
    ensures var (r, ok) := Optimize(fs, file, options, probe, decode, encode, now);
      (ok ==> IsFile(fs, file) && IsFile(r, file) && Size(r, file) < Size(fs, file) && TempFile(file) !in r)
      && (!ok && file in fs ==> file in r && r[file] == fs[file])
      && (forall p | p != file && p != TempFile(file) :: (p in r <==> p in fs) && (p in fs ==> r[p] == fs[p]))
  {
    var (r, ok) := Optimize(fs, file, options, probe, decode, encode, now);
    var tmp := TempFile(file);
    if IsFile(fs, file) {
      var content := fs[file].content;
      var enc := EncodingFor(probe(content), Quality(options));
      var size := decode(content);
      if enc.Some? && size.Some? {
        var written := encode(content, enc.value, Resize(size.value, MaxWidth(options), MaxHeight(options)));
        var fs1 := if written.Some? then PutContents(fs, tmp, written.value, now) else fs;
        assert fs1[file] == fs[file];
        if IsFile(fs1, tmp) && Size(fs1, tmp) < Size(fs, file) && CanMove(fs1, tmp, file) {
          assert r == (fs1 - {tmp})[file := fs1[tmp]];
        }
      }
    }
  }

  /** A re-encoding that is not smaller is thrown away: the temp file does not survive. */
  lemma OptimizeDiscardsLarger(fs: Fs, file: Path, options: Value, probe: string -> ImageType,
                               decode: string -> Option<ImageSize>,
                               encode: (string, Encoding, (int, int)) -> Option<string>, now: int)
    requires |file| > 0 && IsFile(fs, file)
    requires EncodingFor(probe(fs[file].content), Quality(options)).Some? && decode(fs[file].content).Some?
    requires var content := fs[file].content;
      var written := encode(content, EncodingFor(probe(content), Quality(options)).value,
                            Resize(decode(content).value, MaxWidth(options), MaxHeight(options)));
      written.Some? && |written.value| >= |content| && Writable(fs, TempFile(file))
    ensures var (r, ok) := Optimize(fs, file, options, probe, decode, encode, now);
      !ok && r == fs - {TempFile(file)}
  {
  }

  /**
   * `preg_replace( '/\.(jpg|jpeg|png)$/i', '.webp', $s )`. Without the `D`
   * modifier `$` also matches before a final newline.
   */
  function WebpName(s: string): (r: string)
    ensures !HasImageExt(s) ==> r == s
  {
    if ImageExtAt(s, |s|) > 0 then s[..|s| - ImageExtAt(s, |s|)] + ".webp"
    else if |s| > 0 && s[|s| - 1] == '\n' && ImageExtAt(s, |s| - 1) > 0 then
      s[..|s| - 1 - ImageExtAt(s, |s| - 1)] + ".webp\n"
    else s
  }

  /** The length of a `.jpg`, `.jpeg` or `.png` (any case) ending at `end`, or 0. */
  function ImageExtAt(s: string, end: nat): (n: nat)
    requires end <= |s|
    ensures n == 0 || (n <= end && (n == 4 || n == 5))
  {
    if end >= 4 && ToLower(s[end - 4..end]) in {".jpg", ".png"} then 4
    else if end >= 5 && ToLower(s[end - 5..end]) == ".jpeg" then 5
    else 0
  }

  predicate HasImageExt(s: string) {
    ImageExtAt(s, |s|) > 0 || (|s| > 0 && s[|s| - 1] == '\n' && ImageExtAt(s, |s| - 1) > 0)
  }

  /** `.webp` is not an image extension the rewrite looks for. */
  lemma WebpNotImageExt(s: string)
    ensures ImageExtAt(s + ".webp", |s + ".webp"|) == 0
  {
    var t := s + ".webp";
    assert t[|t| - 4..] == "webp";
    assert ToLower(t[|t| - 4..])[0] == 'w';
    assert t[|t| - 5..] == ".webp";
    assert ToLower(t[|t| - 5..])[1] == 'w';
  }

  /** An image name gets the `.webp` extension in place of its own. */
  lemma WebpNameEnds(s: string)
    requires ImageExtAt(s, |s|) > 0
    ensures EndsWith(WebpName(s), ".webp") && !HasImageExt(WebpName(s))
  {
    var r := WebpName(s);
    var stem := s[..|s| - ImageExtAt(s, |s|)];
    assert r == stem + ".webp";
    WebpNotImageExt(stem);
    assert r[|r| - 1] == 'p';
  }

  /** Rewriting twice is rewriting once. */
  lemma WebpNameIdempotent(s: string)
    ensures WebpName(WebpName(s)) == WebpName(s)
  {
    if ImageExtAt(s, |s|) > 0 {
      WebpNameEnds(s);
    } else if |s| > 0 && s[|s| - 1] == '\n' && ImageExtAt(s, |s| - 1) > 0 {
      var stem := s[..|s| - 1 - ImageExtAt(s, |s| - 1)];
      assert WebpName(s) == stem + ".webp\n";
      NewlineRewriteFinal(stem);
    }
  }

  /** A name rewritten before its final newline has no image extension left. */
  lemma NewlineRewriteFinal(stem: string)
    ensures !HasImageExt(stem + ".webp\n")
  {
    var r := stem + ".webp\n";
    assert r[..|r| - 1] == stem + ".webp";
    WebpNotImageExt(stem);
    assert r[|r| - 1] == '\n';
    assert ImageExtAt(r, |r|) == 0 by {
      assert ToLower(r[|r| - 4..|r|])[3] == '\n';
      assert ToLower(r[|r| - 5..|r|])[4] == '\n';
    }
    ImageExtAtPrefix(r, |r| - 1);
  }

  /** The extension ending at `end` only looks at the characters before `end`. */
  lemma ImageExtAtPrefix(s: string, end: nat)
    requires end <= |s|
    ensures ImageExtAt(s, end) == ImageExtAt(s[..end], end)
  {
    if end >= 4 {
      assert s[..end][end - 4..end] == s[end - 4..end];
    }
    if end >= 5 {
      assert s[..end][end - 5..end] == s[end - 5..end];
    }
  }

  /** A file's `.webp` sibling: the rewrite applies to the last segment. */
  function WebpPath(file: Path): (w: Path)
    requires |file| > 0
    ensures |w| == |file| && Parent(w) == Parent(file)
  {
    Parent(file) + [WebpName(Name(file))]
  }

  /**
   * `browser_supports_webp`: the `Accept` header, unslashed and sanitised
   * (`san.textField` stands for `sanitize_text_field( wp_unslash( … ) )`),
   * mentions `image/webp`.
   */
  predicate BrowserSupportsWebp(server: map<string, string>, san: Sanitisers) {
    "HTTP_ACCEPT" in server && Contains(san.textField(server["HTTP_ACCEPT"]), "image/webp")
  }

  /**
   * `maybe_serve_webp`: the URL with its image extension rewritten, only
   * outside admin, for a browser that accepts WebP, when the attachment's
   * file is known and its `.webp` sibling exists.
   */
  function MaybeServeWebp(url: string, isAdmin: bool, server: map<string, string>, san: Sanitisers,
                          attached: Option<Path>, fs: Fs): (r: string)
    ensures isAdmin || !BrowserSupportsWebp(server, san) || attached.None? ==> r == url
    ensures r == url || r == WebpName(url)
    ensures r != url ==> attached.Some? && |attached.value| > 0 && WebpPath(attached.value) in fs
  {
    if isAdmin || !BrowserSupportsWebp(server, san) then url
    else match attached
      case None => url
      case Some(file) =>
        if |file| > 0 && WebpPath(file) in fs then WebpName(url) else url
  }

  /** A URL without an image extension is served as it is. */
  lemma MaybeServeWebpPlain(url: string, isAdmin: bool, server: map<string, string>, san: Sanitisers,
                            attached: Option<Path>, fs: Fs)
    requires !HasImageExt(url)
    ensures MaybeServeWebp(url, isAdmin, server, san, attached, fs) == url
  {
  }

  /**
   * `create_webp_version` as written: it writes the WebP encoding of a JPEG
   * or PNG to the rewritten name, even when the rewrite left the name as it
   * was (a JPEG named `.jpe`, say).
   */
  function CreateWebpAsWritten(fs: Fs, file: Path, webpAvailable: bool, options: Value,
                               probe: string -> ImageType, decode: string -> Option<ImageSize>,
                               encode: (string, Encoding, (int, int)) -> Option<string>, now: int): (r: (Fs, bool))
    ensures r.1 ==> |file| > 0 && IsFile(r.0, WebpPath(file))
  {
    if !webpAvailable || |file| == 0 || !IsFile(fs, file) then (fs, false)
    else
      var content := fs[file].content;
      if probe(content) !in {Jpeg, Png} then (fs, false)
      else match decode(content)
        case None => (fs, false)
        case Some(size) =>
          var webp := WebpPath(file);
          match encode(content, WebpAt(Quality(options)), (size.width, size.height))
          case None => (fs, false)
          case Some(bytes) =>
            if Writable(fs, webp) then (fs[webp := File(bytes, now)], true) else (fs, false)
  }

  /** A JPEG called `photo.jpe` is overwritten by its own WebP encoding. */
  lemma CreateWebpOverwritesJpe(fs: Fs, dir: Path, options: Value, probe: string -> ImageType,
                                decode: string -> Option<ImageSize>,
                                encode: (string, Encoding, (int, int)) -> Option<string>, now: int)
    requires IsDir(fs, dir) && IsFile(fs, dir + ["photo.jpe"])
    requires var content := fs[dir + ["photo.jpe"]].content;
      probe(content) == Jpeg && decode(content).Some?
      && encode(content, WebpAt(Quality(options)), (decode(content).value.width, decode(content).value.height)).Some?
    ensures var file := dir + ["photo.jpe"];
      var content := fs[file].content;
      var size := decode(content).value;
      var (r, ok) := CreateWebpAsWritten(fs, file, true, options, probe, decode, encode, now);
      ok && file in r && r[file].content == encode(content, WebpAt(Quality(options)), (size.width, size.height)).value
  {
    var file := dir + ["photo.jpe"];
    assert Parent(file) == dir;
    assert ImageExtAt("photo.jpe", 9) == 0 by {
      assert ToLower("photo.jpe"[5..9])[3] == 'e';
      assert ToLower("photo.jpe"[4..9])[0] == 'o';
    }
    assert WebpPath(file) == file;
  }

  /**
   * `create_webp_version` writing only to a name the rewrite changed, so
   * the image it was made from is never overwritten.
   */
  function CreateWebp(fs: Fs, file: Path, webpAvailable: bool, options: Value,
                      probe: string -> ImageType, decode: string -> Option<ImageSize>,
                      encode: (string, Encoding, (int, int)) -> Option<string>, now: int): (r: (Fs, bool))
    ensures r.1 ==> |file| > 0 && IsFile(r.0, WebpPath(file)) && WebpPath(file) != file
    ensures r.1 ==> r.0 == fs[WebpPath(file) := r.0[WebpPath(file)]]
    ensures !r.1 ==> r.0 == fs
    ensures |file| > 0 && file in fs ==> file in r.0 && r.0[file] == fs[file]
  {
    if |file| > 0 && WebpPath(file) == file then (fs, false)
    else CreateWebpAsWritten(fs, file, webpAvailable, options, probe, decode, encode, now)
  }

  /** `optimize_on_upload` looks at an upload only when it names a file and a supported type. */
  predicate UploadHandled(upload: Value) {
    IsSet(upload, "file") && IsSet(upload, "type") && Get(upload, "type").Str?
    && IsSupportedImageType(Get(upload, "type").s)
  }

  class ImageOptimizer {
    const site: Site
    /** The `image_optimizer` section of the settings. */
    const options: Value
    /** Whether GD was built with WebP (`function_exists( 'imagewebp' )`). */
    const webpAvailable: bool
    const probe: string -> ImageType
    const decode: string -> Option<ImageSize>
    const encode: (string, Encoding, (int, int)) -> Option<string>

    constructor (site: Site, webpAvailable: bool, probe: string -> ImageType,
                 decode: string -> Option<ImageSize>, encode: (string, Encoding, (int, int)) -> Option<string>)
      ensures this.site == site && this.webpAvailable == webpAvailable
      ensures this.probe == probe && this.decode == decode && this.encode == encode
      ensures options == Section(site.options, "image_optimizer")
    {
      this.site := site;
      this.webpAvailable := webpAvailable;
      this.probe := probe;
      this.decode := decode;
      this.encode := encode;
      options := Section(site.options, "image_optimizer");
    }

    /** `! empty( $this->options['webp_conversion'] )` */
    predicate WebpConversion() {
      !Empty(Get(options, "webp_conversion"))
    }

    /** `optimize_image` */
    method OptimizeImage(file: Path, now: int) returns (ok: bool)
      modifies site`files
      ensures (site.files, ok) == Optimize(old(site.files), file, options, probe, decode, encode, now)
    {
      if |file| == 0 || !IsFile(site.files, file) {
        return false;
      }
      var content := site.files[file].content;
      var enc := EncodingFor(probe(content), Quality(options));
      if enc.None? {
        return false;
      }
      var image := decode(content);
      if image.None? {
        return false;
      }
      var originalSize := Size(site.files, file);
      var target := Resize(image.value, MaxWidth(options), MaxHeight(options));
      var tmp := TempFile(file);
      var written := encode(content, enc.value, target);
      if written.Some? {
        site.files := PutContents(site.files, tmp, written.value, now);
      }
      ok := false;
      if IsFile(site.files, tmp) {
        var newSize := Size(site.files, tmp);
        if newSize < originalSize {
          if CanMove(site.files, tmp, file) {
            site.files := Move(site.files, tmp, file);
            ok := true;
          }
        } else {
          site.files := Unlink(site.files, tmp);
        }
      }
    }

    /** `create_webp_version` */
    method CreateWebpVersion(file: Path, now: int) returns (ok: bool)
      modifies site`files
      ensures (site.files, ok) == CreateWebp(old(site.files), file, webpAvailable, options, probe, decode, encode, now)
    {
      if !webpAvailable || |file| == 0 || !IsFile(site.files, file) {
        return false;
      }
      var content := site.files[file].content;
      if probe(content) !in {Jpeg, Png} {
        return false;
      }
      var image := decode(content);
      if image.None? {
        return false;
      }
      var webp := WebpPath(file);
      if webp == file {
        return false;
      }
      var bytes := encode(content, WebpAt(Quality(options)), (image.value.width, image.value.height));
      if bytes.None? || !Writable(site.files, webp) {
        return false;
      }
      site.files := site.files[webp := File(bytes.value, now)];
      ok := true;
    }

    /**
     * `optimize_on_upload`: an upload without a file or a type, or of an
     * unsupported type, leaves the files alone; a supported one is
     * optimised, and given a WebP copy when that is on and the optimisation
     * succeeded. The upload itself is returned unchanged either way; `file`
     * is the path its `file` entry names.
     */
    method OptimizeOnUpload(upload: Value, file: Path, now: int) returns (r: Value)
      modifies site`files
      ensures r == upload
      ensures !UploadHandled(upload) ==> site.files == old(site.files)
      ensures UploadHandled(upload) ==>
        var (fs1, optimized) := Optimize(old(site.files), file, options, probe, decode, encode, now);
        site.files == if optimized && WebpConversion()
          then CreateWebp(fs1, file, webpAvailable, options, probe, decode, encode, now).0
          else fs1
    {
      r := upload;
      if !UploadHandled(upload) {
        return;
      }
      var optimized := OptimizeImage(file, now);
      if optimized && WebpConversion() {
        var _ := CreateWebpVersion(file, now);
      }
    }

    /**
     * `bulk_optimize`: every id counts exactly once, as skipped (no file),
     * success or failed.
     */
    method BulkOptimize(ids: seq<int>, attached: int -> Option<Path>, now: int)
      returns (success: nat, failed: nat, skipped: nat)
      modifies site`files
      ensures success + failed + skipped == |ids|
      ensures skipped >= Unattached(ids, attached)
    {
      success, failed, skipped := 0, 0, 0;
      for i := 0 to |ids|
        invariant success + failed + skipped == i
        invariant skipped >= Unattached(ids[..i], attached)
      {
        assert ids[..i + 1] == ids[..i] + [ids[i]];
        UnattachedAppend(ids[..i], ids[i], attached);
        var file := attached(ids[i]);
        if file.None? || file.value !in site.files {
          skipped := skipped + 1;
          continue;
        }
        var optimized := OptimizeImage(file.value, now);
        if optimized {
          success := success + 1;
          if WebpConversion() {
            var _ := CreateWebpVersion(file.value, now);
          }
        } else {
          failed := failed + 1;
        }
      }
      assert ids[..|ids|] == ids;
    }
  }

  /** How many of the ids have no attached file. */
  function Unattached(ids: seq<int>, attached: int -> Option<Path>): (n: nat)
    ensures n <= |ids|
  {
    if ids == [] then 0
    else Unattached(ids[..|ids| - 1], attached) + (if attached(ids[|ids| - 1]).None? then 1 else 0)
  }

  lemma UnattachedAppend(ids: seq<int>, id: int, attached: int -> Option<Path>)
    ensures Unattached(ids + [id], attached) == Unattached(ids, attached) + (if attached(id).None? then 1 else 0)
  {
    assert (ids + [id])[..|ids|] == ids;
  }
}
