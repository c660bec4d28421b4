/**
 * The asset manager's tag rewriting: `defer` on script tags, the
 * print-media swap on stylesheet tags, lazy-loading attributes on images and
 * iframes, and the page type that selects the critical CSS.
 */
module AssetManager {
  import opened Wrappers
  import opened Strings
  import opened Php
  import opened Host

  /** What `sso_defer_js_excluded` starts from. */
  const DeferExcludedDefault: seq<string> := ["jquery-core", "jquery"]

  /**
   * `defer_scripts`: an excluded handle, or a tag that already says `defer`
   * or `async`, is left alone; otherwise every ` src=` becomes ` defer src=`.
   */
  function DeferScripts(tag: string, handle: string, excluded: seq<string>): (r: string)
    ensures handle in excluded || Contains(tag, "defer") || Contains(tag, "async") ==> r == tag
    ensures !Contains(tag, " src=") ==> r == tag
    ensures !(handle in excluded || Contains(tag, "defer") || Contains(tag, "async")) ==>
      r == ReplaceAll(tag, " src=", " defer src=")
    ensures !(handle in excluded || Contains(tag, "defer") || Contains(tag, "async")) && Contains(tag, " src=") ==>
      Contains(r, " defer src=")
  {
    if handle in excluded then tag
    else if Contains(tag, "defer") || Contains(tag, "async") then tag
    else
      ReplaceAllUnchanged(tag, " src=", " defer src=");
      ReplaceAllInsertsIf(tag, " src=", " defer src=");
      ReplaceAll(tag, " src=", " defer src=")
  }

  /** `ReplaceAllAbsent` as an implication, for use inside a function body. */
  lemma ReplaceAllUnchanged(s: string, pat: string, rep: string)
    ensures !Contains(s, pat) ==> ReplaceAll(s, pat, rep) == s
  {
    if !Contains(s, pat) {
      ReplaceAllAbsent(s, pat, rep);
    }
  }

  /** `ReplaceAllInserts` as an implication, for use inside a function body. */
  lemma ReplaceAllInsertsIf(s: string, pat: string, rep: string)
    requires |pat| > 0
    ensures Contains(s, pat) ==> Contains(ReplaceAll(s, pat, rep), rep)
  {
    if Contains(s, pat) {
      ReplaceAllInserts(s, pat, rep);
    }
  }

  /** Deferring twice is deferring once. */
  lemma DeferScriptsIdempotent(tag: string, handle: string, excluded: seq<string>)
    ensures DeferScripts(DeferScripts(tag, handle, excluded), handle, excluded) == DeferScripts(tag, handle, excluded)
  {
    var r := DeferScripts(tag, handle, excluded);
    if r != tag {
      ReplaceAllInserts(tag, " src=", " defer src=");
      ContainsInfix(r, " defer src=", 1, 6);
      assert " defer src="[1..6] == "defer";
    }
  }

  /** Only ` src=` changes: taking ` defer ` back out restores the tag. */
  lemma DeferScriptsUndo(tag: string, handle: string, excluded: seq<string>)
    requires !Contains(tag, "defer")
    ensures ReplaceAll(DeferScripts(tag, handle, excluded), " defer src=", " src=") == tag
  {
    var rep := " defer src=";
    assert rep[..6] == " defer";
    if Contains(tag, " defer") {
      assert " defer"[1..6] == "defer";
      ContainsInfix(tag, " defer", 1, 6);
    }
    if DeferScripts(tag, handle, excluded) == tag {
      if Contains(tag, rep) {
        assert rep[1..6] == "defer";
        ContainsInfix(tag, rep, 1, 6);
      }
      ReplaceAllAbsent(tag, rep, " src=");
    } else {
      ReplaceAllRoundTrip(tag, " src=", rep, 6);
    }
  }

  /** `media='<media>'` */
  function MediaAttr(media: string): string {
    "media='" + media + "'"
  }

  /** `media='print' onload="this.media='<media>'"` */
  function PrintSwap(media: string): string {
    "media='print' onload=\"this.media='" + media + "'\""
  }

  /** The fixed head of `PrintSwap`, up to the second `m`. */
  const SwapHead := "media='print' onload=\"this."

  /**
   * `defer_styles`: an excluded handle is left alone; otherwise the tag loads
   * as print media and switches on load, followed by a `<noscript>` copy in
   * which the swap is undone.
   */
  function DeferStyles(tag: string, handle: string, media: string, excluded: seq<string>): (r: string)
    ensures handle in excluded ==> r == tag
    ensures handle !in excluded ==>
      var swapped := ReplaceAll(tag, MediaAttr(media), PrintSwap(media));
      StartsWith(r, swapped) && EndsWith(r, "</noscript>")
  {
    if handle in excluded then tag
    else
      var swapped := ReplaceAll(tag, MediaAttr(media), PrintSwap(media));
      var r := swapped + "<noscript>" + ReplaceAll(swapped, PrintSwap(media), MediaAttr(media)) + "</noscript>";
      assert r[..|swapped|] == swapped;
      r
  }

  /**
   * The `<noscript>` fallback is the original tag, unless the tag already
   * held the swap's own text.
   */
  lemma DeferStylesFallback(tag: string, handle: string, media: string, excluded: seq<string>)
    requires handle !in excluded && !Contains(tag, SwapHead)
    ensures DeferStyles(tag, handle, media, excluded)
         == ReplaceAll(tag, MediaAttr(media), PrintSwap(media)) + "<noscript>" + tag + "</noscript>"
  {
    var rep := PrintSwap(media);
    assert rep[..27] == SwapHead;
    assert forall j | 1 <= j < 27 :: rep[j] != rep[0];
    ReplaceAllRoundTrip(tag, MediaAttr(media), rep, 27);
  }

  /** A tag without the `media` attribute is only followed by a copy of itself. */
  lemma DeferStylesNoMedia(tag: string, handle: string, media: string, excluded: seq<string>)
    requires handle !in excluded && !Contains(tag, MediaAttr(media)) && !Contains(tag, SwapHead)
    ensures DeferStyles(tag, handle, media, excluded) == tag + "<noscript>" + tag + "</noscript>"
  {
    ReplaceAllAbsent(tag, MediaAttr(media), PrintSwap(media));
    DeferStylesFallback(tag, handle, media, excluded);
  }

  // ---------------------------------------------------------------------
  // The regular expressions of the lazy-loading filter.

  predicate IsQuote(c: char) {
    c == '"' || c == '\''
  }

  /** How many characters other than quotes follow position `i` (a greedy `[^"']*`). */
  function QuoteFreeRun(s: string, i: nat): (n: nat)
    requires i <= |s|
    ensures i + n <= |s|
    ensures forall j | i <= j < i + n :: !IsQuote(s[j])
    ensures i + n == |s| || IsQuote(s[i + n])
    decreases |s| - i
  {
    if i == |s| || IsQuote(s[i]) then 0 else 1 + QuoteFreeRun(s, i + 1)
  }

  /** `kw` (compared case-insensitively) and then a quote at position `i`. */
  predicate KeywordAt(s: string, kw: string, i: nat) {
    i + |kw| < |s| && ToLower(s[i..i + |kw|]) == kw && IsQuote(s[i + |kw|])
  }

  /** `kw["']([^"']{min,})` matches at `i`. */
  predicate QuotedAt(s: string, kw: string, min: nat, i: nat) {
    KeywordAt(s, kw, i) && QuoteFreeRun(s, i + |kw| + 1) >= min
  }

  /**
   * The leftmost match of `/kw["']([^"']{min,})/i` at or after `i`: where it
   * starts and where its greedy capture ends.
   */
  function FindQuoted(s: string, kw: string, min: nat, i: nat): (r: Option<(nat, nat)>)
    requires i <= |s|
    ensures r.Some? ==>
      i <= r.value.0 && QuotedAt(s, kw, min, r.value.0)
      && r.value.1 == r.value.0 + |kw| + 1 + QuoteFreeRun(s, r.value.0 + |kw| + 1)
    ensures forall j | i <= j < (if r.Some? then r.value.0 else |s|) :: !QuotedAt(s, kw, min, j)
    decreases |s| - i
  {
    if i == |s| then None
    else if QuotedAt(s, kw, min, i) then Some((i, i + |kw| + 1 + QuoteFreeRun(s, i + |kw| + 1)))
    else FindQuoted(s, kw, min, i + 1)
  }

  /** The capture of `/class=["']([^"']*)/i` in the attributes, if any. */
  function ClassValue(attrs: string): Option<string> {
    match FindQuoted(attrs, "class=", 0, 0)
    case Some((start, end)) => Some(attrs[start + 7..end])
    case None => None
  }

  /** A `src` match: the matched text and the captured URL. */
  datatype SrcMatch = SrcMatch(whole: string, url: string)

  /** `/src=["']([^"']+)/i` on the attributes: the match stops before the closing quote. */
  function FindSrc(attrs: string): (r: Option<SrcMatch>)
    ensures r.Some? ==> |r.value.url| > 0 && forall c | c in r.value.url :: !IsQuote(c)
  {
    match FindQuoted(attrs, "src=", 1, 0)
    case Some((start, end)) => Some(SrcMatch(attrs[start..end], attrs[start + 5..end]))
    case None => None
  }

  /** The same match extended over the closing quote when there is one. */
  function FindQuotedSrc(attrs: string): (r: Option<SrcMatch>)
    ensures r.Some? ==> |r.value.url| > 0
  {
    match FindQuoted(attrs, "src=", 1, 0)
    case Some((start, end)) =>
      Some(SrcMatch(attrs[start..if end < |attrs| then end + 1 else end], attrs[start + 5..end]))
    case None => None
  }

  const Placeholder := "data:image/svg+xml,%3Csvg xmlns='http://www.w3.org/2000/svg' viewBox='0 0 1 1'%3E%3C/svg%3E"

  /** The placeholder in `src`, followed by a space. */
  const PlaceholderSrc := "src=\"" + Placeholder + "\" "

  /** `data-src="<url>"` */
  function DataSrc(url: string): string {
    "data-src=\"" + url + "\""
  }

  /** What replaces a `src` match: the placeholder, and the real URL in `data-src`. */
  function SrcSwap(url: string): string {
    PlaceholderSrc + DataSrc(url)
  }

  /** `add_lazy_load_attributes` leaves the element alone. */
  predicate Declines(attrs: string) {
    Contains(attrs, "loading=")
    || (ClassValue(attrs).Some? && Contains(ClassValue(attrs).value, "no-lazy"))
  }

  /**
   * `add_lazy_load_attributes` as written: it replaces the `src` match,
   * which stops before the closing quote, by text that brings its own
   * closing quote; and it recognises an iframe only by a lower-case
   * `<iframe` at the start of the tag.
   */
  function LazyAttributesAsWritten(tag: string, attrs: string): (r: string)
    ensures Declines(attrs) ==> r == tag
  {
    if Contains(attrs, "loading=") then tag
    else if ClassValue(attrs).Some? && Contains(ClassValue(attrs).value, "no-lazy") then tag
    else
      var updated := attrs + " loading=\"lazy\"";
      var updated := match FindSrc(attrs)
        case Some(m) => ReplaceAll(updated, m.whole, SrcSwap(m.url))
        case None => updated;
      "<" + (if StartsWith(tag, "<iframe") then "iframe" else "img") + updated + ">"
  }

  /**
   * A keyword whose first letter does not occur, in either case, where the
   * keyword would fit is never found.
   */
  lemma {:induction false} FindQuotedNone(s: string, kw: string, min: nat, i: nat)
    requires i <= |s| && |kw| > 0
    requires forall j | i <= j && j + |kw| < |s| :: LowerChar(s[j]) != kw[0]
    ensures FindQuoted(s, kw, min, i) == None
    decreases |s| - i
  {
    if i < |s| {
      if i + |kw| < |s| {
        assert ToLower(s[i..i + |kw|])[0] == LowerChar(s[i]);
      }
      FindQuotedNone(s, kw, min, i + 1);
    }
  }

  /** The attributes ` src="<c>"` for one character `c`, and what the filter finds in them. */
  lemma OneCharSrc(c: char)
    requires !IsQuote(c) && c != 'l' && LowerChar(c) != 'c'
    ensures var attrs := " src=\"" + [c] + "\"";
      !Declines(attrs)
      && FindSrc(attrs) == Some(SrcMatch("src=\"" + [c], [c]))
      && FindQuotedSrc(attrs) == Some(SrcMatch("src=\"" + [c] + "\"", [c]))
  {
    var attrs := " src=\"" + [c] + "\"";
    OneCharKeeps(c);
    OneCharFinds(c);
    assert attrs[1..7] == "src=\"" + [c];
    assert attrs[1..8] == "src=\"" + [c] + "\"";
  }

  /** Neither `loading=` nor a `class` attribute is found in ` src="<c>"`. */
  lemma OneCharKeeps(c: char)
    requires c != 'l' && LowerChar(c) != 'c'
    ensures !Declines(" src=\"" + [c] + "\"")
  {
    var attrs := " src=\"" + [c] + "\"";
    NoFirstChar(attrs, "loading=");
    FindQuotedNone(attrs, "class=", 0, 0);
  }

  /** The `src` match in ` src="<c>"` starts at 1 and its capture ends at 7. */
  lemma OneCharFinds(c: char)
    requires !IsQuote(c)
    ensures FindQuoted(" src=\"" + [c] + "\"", "src=", 1, 0) == Some((1, 7))
  {
    var attrs := " src=\"" + [c] + "\"";
    assert ToLower(attrs[0..4])[0] == ' ';
    assert !QuotedAt(attrs, "src=", 1, 0);
    LowerSrc(attrs[1..5]);
    assert QuoteFreeRun(attrs, 7) == 0;
    assert QuoteFreeRun(attrs, 6) == 1;
    assert QuotedAt(attrs, "src=", 1, 1);
  }

  lemma LowerSrc(s: string)
    requires s == "src="
    ensures ToLower(s) == "src="
  {
    assert ToLower(s)[0] == 's' && ToLower(s)[1] == 'r' && ToLower(s)[2] == 'c' && ToLower(s)[3] == '=';
  }

  /** With a `src` attribute, the filter as written swaps the match it found. */
  lemma LazyAttributesAsWrittenSwap(tag: string, attrs: string)
    requires !Declines(attrs) && FindSrc(attrs).Some?
    ensures var m := FindSrc(attrs).value;
      LazyAttributesAsWritten(tag, attrs)
      == "<" + (if StartsWith(tag, "<iframe") then "iframe" else "img")
         + ReplaceAll(attrs + " loading=\"lazy\"", m.whole, SrcSwap(m.url)) + ">"
  {
  }

  /** The one replacement in ` src="<c>" loading="lazy"`, for a given match. */
  lemma SwapOnce(swap: string, pat: string, rest: string)
    requires |pat| > 0 && pat[0] == 's' && 's' !in rest
    ensures ReplaceAll(" " + pat + rest, pat, swap) == " " + swap + rest
  {
    assert " " + pat + rest == [' '] + (pat + rest);
    ReplaceAllSkip(' ', pat + rest, pat, swap);
    SwapTail(swap, pat, rest);
  }

  /** Once the leading space is skipped: the match, then nothing more. */
  lemma SwapTail(swap: string, pat: string, rest: string)
    requires |pat| > 0 && pat[0] == 's' && 's' !in rest
    ensures ReplaceAll(pat + rest, pat, swap) == swap + rest
  {
    ReplaceAllLeading(pat, rest, swap);
    NoFirstChar(rest, pat);
    ReplaceAllAbsent(rest, pat, swap);
  }

  /** The replacement the filter as written makes in ` src="<c>"`. */
  lemma SwapAsWritten(c: char)
    ensures ReplaceAll(" src=\"" + [c] + "\"" + " loading=\"lazy\"", "src=\"" + [c], SrcSwap([c]))
         == " " + SrcSwap([c]) + "\" loading=\"lazy\""
  {
    assert " src=\"" + [c] + "\"" + " loading=\"lazy\"" == " " + ("src=\"" + [c]) + "\" loading=\"lazy\"";
    SwapOnce(SrcSwap([c]), "src=\"" + [c], "\" loading=\"lazy\"");
  }

  /** `<img src="<c>">` is no iframe, in either case. */
  lemma ImgTag(c: char)
    ensures !StartsWith("<img src=\"" + [c] + "\">", "<iframe")
    ensures ElementName("<img src=\"" + [c] + "\">") == "img"
  {
    var tag := "<img src=\"" + [c] + "\">";
    assert tag[2] == 'm';
    assert ToLower(tag)[2] == 'm';
  }

  /** `<IFRAME src="<c>">` is an iframe once lower-cased. */
  lemma UpperIframeTag(c: char)
    ensures ElementName("<IFRAME src=\"" + [c] + "\">") == "iframe"
  {
    var tag := "<IFRAME src=\"" + [c] + "\">";
    var low := ToLower(tag);
    assert low[0] == '<' && low[1] == 'i' && low[2] == 'f' && low[3] == 'r' && low[4] == 'a' && low[5] == 'm' && low[6] == 'e';
    assert low[..7] == "<iframe";
  }

  /** The closing quote of the URL is left behind after `data-src="..."`. */
  lemma LazyAttributesDoubledQuote(c: char)
    requires !IsQuote(c) && c != 'l' && LowerChar(c) != 'c'
    ensures LazyAttributesAsWritten("<img src=\"" + [c] + "\">", " src=\"" + [c] + "\"")
         == "<" + "img" + (" " + SrcSwap([c]) + "\" loading=\"lazy\"") + ">"
  {
    var tag := "<img src=\"" + [c] + "\">";
    var attrs := " src=\"" + [c] + "\"";
    OneCharSrc(c);
    ImgTag(c);
    LazyAttributesAsWrittenSwap(tag, attrs);
    SwapAsWritten(c);
  }

  /** The filter as written names the element by a lower-case `<iframe` at the start of the tag. */
  lemma AsWrittenElement(tag: string, attrs: string)
    requires !Declines(attrs)
    ensures StartsWith(LazyAttributesAsWritten(tag, attrs), "<" + (if StartsWith(tag, "<iframe") then "iframe" else "img"))
  {
    var name := "<" + (if StartsWith(tag, "<iframe") then "iframe" else "img");
    var plain := attrs + " loading=\"lazy\"";
    var updated := match FindSrc(attrs)
      case Some(m) => ReplaceAll(plain, m.whole, SrcSwap(m.url))
      case None => plain;
    Bracketed(name, updated, ">");
  }

  /** An upper-case `<IFRAME` comes back as an `<img>`. */
  lemma LazyAttributesUpperCaseIframe(c: char)
    requires c != 'l' && LowerChar(c) != 'c'
    ensures StartsWith(LazyAttributesAsWritten("<IFRAME src=\"" + [c] + "\">", " src=\"" + [c] + "\""), "<img")
  {
    var tag := "<IFRAME src=\"" + [c] + "\">";
    OneCharKeeps(c);
    assert !StartsWith(tag, "<iframe") by { assert tag[1] != 'i'; }
    AsWrittenElement(tag, " src=\"" + [c] + "\"");
  }

  /** The element name kept by the lazy-loading filter: compared case-insensitively. */
  function ElementName(tag: string): string {
    if StartsWith(ToLower(tag), "<iframe") then "iframe" else "img"
  }

  /**
   * `add_lazy_load_attributes` replacing the whole `src="..."` attribute and
   * keeping iframes whatever the case of their tag.
   */
  function LazyAttributes(tag: string, attrs: string): (r: string)
    ensures Declines(attrs) ==> r == tag
    ensures !Declines(attrs) ==> StartsWith(r, "<" + ElementName(tag)) && EndsWith(r, ">")
    ensures !Declines(attrs) && FindQuotedSrc(attrs).None? ==> r == "<" + ElementName(tag) + attrs + " loading=\"lazy\">"
  {
    if Contains(attrs, "loading=") then tag
    else if ClassValue(attrs).Some? && Contains(ClassValue(attrs).value, "no-lazy") then tag
    else
      var updated := attrs + " loading=\"lazy\"";
      var updated := match FindQuotedSrc(attrs)
        case Some(m) => ReplaceAll(updated, m.whole, SrcSwap(m.url))
        case None => updated;
      Bracketed("<" + ElementName(tag), updated, ">");
      "<" + ElementName(tag) + updated + ">"
  }

  /** With a `src` attribute, the filter's result is the attribute swap, with `loading`. */
  lemma LazyAttributesSwap(tag: string, attrs: string)
    requires !Declines(attrs) && FindQuotedSrc(attrs).Some?
    ensures var m := FindQuotedSrc(attrs).value;
      LazyAttributes(tag, attrs)
      == "<" + ElementName(tag) + ReplaceAll(attrs + " loading=\"lazy\"", m.whole, SrcSwap(m.url)) + ">"
  {
  }

  /** Wherever the swap is made, the URL shows up in `data-src`. */
  lemma SwapShowsUrl(u: string, whole: string, url: string)
    requires |whole| > 0 && Contains(u, whole)
    ensures Contains(ReplaceAll(u, whole, SrcSwap(url)), DataSrc(url))
  {
    var swap := SrcSwap(url);
    ReplaceAllInserts(u, whole, swap);
    assert swap[|PlaceholderSrc|..|swap|] == DataSrc(url);
    ContainsInfix(ReplaceAll(u, whole, swap), swap, |PlaceholderSrc|, |swap|);
  }

  /** The `src` match lies within the attributes. */
  lemma SrcMatchOccurs(attrs: string, extra: string)
    requires FindQuotedSrc(attrs).Some?
    ensures |FindQuotedSrc(attrs).value.whole| > 0 && Contains(attrs + extra, FindQuotedSrc(attrs).value.whole)
  {
    var m := FindQuotedSrc(attrs).value;
    var start := FindQuoted(attrs, "src=", 1, 0).value.0;
    var end := FindQuoted(attrs, "src=", 1, 0).value.1;
    var e := if end < |attrs| then end + 1 else end;
    assert m.whole == attrs[start..e];
    assert (attrs + extra)[start..e] == m.whole;
    assert OccursAt(attrs + extra, m.whole, start);
    ContainsAt(attrs + extra, m.whole);
  }

  /** The original URL survives in `data-src`, properly quoted. */
  lemma LazyAttributesKeepUrl(tag: string, attrs: string)
    requires !Declines(attrs) && FindQuotedSrc(attrs).Some?
    ensures Contains(LazyAttributes(tag, attrs), DataSrc(FindQuotedSrc(attrs).value.url))
  {
    var m := FindQuotedSrc(attrs).value;
    var updated := attrs + " loading=\"lazy\"";
    SrcMatchOccurs(attrs, " loading=\"lazy\"");
    SwapShowsUrl(updated, m.whole, m.url);
    ContainsWithin("<" + ElementName(tag), ReplaceAll(updated, m.whole, SrcSwap(m.url)), ">", DataSrc(m.url));
    LazyAttributesSwap(tag, attrs);
  }

  /** The replacement the corrected filter makes in ` src="<c>"`. */
  lemma SwapQuoted(c: char)
    ensures ReplaceAll(" src=\"" + [c] + "\"" + " loading=\"lazy\"", "src=\"" + [c] + "\"", SrcSwap([c]))
         == " " + SrcSwap([c]) + " loading=\"lazy\""
  {
    assert " src=\"" + [c] + "\"" + " loading=\"lazy\"" == " " + ("src=\"" + [c] + "\"") + " loading=\"lazy\"";
    SwapOnce(SrcSwap([c]), "src=\"" + [c] + "\"", " loading=\"lazy\"");
  }

  /** The input of `LazyAttributesDoubledQuote`, now with one closing quote. */
  lemma LazyAttributesSingleQuote(c: char)
    requires !IsQuote(c) && c != 'l' && LowerChar(c) != 'c'
    ensures LazyAttributes("<img src=\"" + [c] + "\">", " src=\"" + [c] + "\"")
         == "<" + "img" + (" " + SrcSwap([c]) + " loading=\"lazy\"") + ">"
  {
    var tag := "<img src=\"" + [c] + "\">";
    var attrs := " src=\"" + [c] + "\"";
    OneCharSrc(c);
    ImgTag(c);
    LazyAttributesSwap(tag, attrs);
    SwapQuoted(c);
  }

  /** An element the filter names an iframe comes back as one. */
  lemma IframeKept(tag: string, attrs: string)
    requires !Declines(attrs) && ElementName(tag) == "iframe"
    ensures StartsWith(LazyAttributes(tag, attrs), "<iframe")
  {
    assert "<" + ElementName(tag) == "<iframe";
  }

  /** An upper-case `<IFRAME` stays an iframe. */
  lemma LazyAttributesKeepIframe(c: char)
    requires c != 'l' && LowerChar(c) != 'c'
    ensures StartsWith(LazyAttributes("<IFRAME src=\"" + [c] + "\">", " src=\"" + [c] + "\""), "<iframe")
  {
    OneCharKeeps(c);
    UpperIframeTag(c);
    IframeKept("<IFRAME src=\"" + [c] + "\">", " src=\"" + [c] + "\"");
  }

  // ---------------------------------------------------------------------
  // `preg_replace_callback` with `/<open([^>]+?)(?:\s*\/)?>/i`.

  /** The start of the run of white space that ends at `k`, not before `lo`. */
  function SpaceRunStart(s: string, lo: nat, k: nat): (q: nat)
    requires lo <= k <= |s|
    ensures lo <= q <= k
    ensures forall j | q <= j < k :: IsSpace(s[j])
    ensures q == lo || !IsSpace(s[q - 1])
    decreases k
  {
    if k > lo && IsSpace(s[k - 1]) then SpaceRunStart(s, lo, k - 1) else k
  }

  /**
   * A match at the start of `s`: where the lazy capture ends and where the
   * match ends. The capture runs up to the first `>`, less a trailing `/`
   * and the white space before it.
   */
  function TagAt(s: string, open: string): (r: Option<(nat, nat)>)
    ensures r.Some? ==> |open| < r.value.0 < r.value.1 <= |s| && s[r.value.1 - 1] == '>'
    ensures r.Some? ==> ToLower(s[..|open|]) == open
  {
    if |s| < |open| + 2 || ToLower(s[..|open|]) != open || s[|open|] == '>' then None
    else
      var e := IndexOf(s[|open| + 1..], '>');
      if |open| + 1 + e == |s| then None
      else
        var close := |open| + 1 + e;
        assert s[close] == s[|open| + 1..][e];
        var capEnd := if s[close - 1] == '/' && close - 1 >= |open| + 1
                      then SpaceRunStart(s, |open| + 1, close - 1)
                      else close;
        Some((capEnd, close + 1))
  }

  /**
   * Every match, left to right and without overlap, handed to `callback`
   * as (whole match, capture) and replaced by what it returns.
   */
  function ReplaceTags(s: string, open: string, callback: (string, string) -> string): string
    decreases |s|
  {
    match TagAt(s, open)
    case Some((capEnd, end)) => callback(s[..end], s[|open|..capEnd]) + ReplaceTags(s[end..], open, callback)
    case None => if |s| == 0 then "" else [s[0]] + ReplaceTags(s[1..], open, callback)
  }

  /** Content without the opening text (in any case) passes through unchanged. */
  lemma {:induction false} ReplaceTagsAbsent(s: string, open: string, callback: (string, string) -> string)
    requires !Contains(ToLower(s), open)
    ensures ReplaceTags(s, open, callback) == s
    decreases |s|
  {
    if |open| <= |s| {
      assert ToLower(s[..|open|]) == ToLower(s)[..|open|];
    }
    if |s| > 0 {
      assert ToLower(s[1..]) == ToLower(s)[1..];
      ReplaceTagsAbsent(s[1..], open, callback);
    }
  }

  /**
   * `add_lazy_loading`: nothing in feeds or on admin screens; images always,
   * iframes only when `lazy_load_iframes` is on.
   */
  function AddLazyLoading(content: string, req: PageRequest, options: Value): (r: string)
    ensures req.isFeed || req.isAdmin ==> r == content
    ensures !(req.isFeed || req.isAdmin) && Empty(Get(options, "lazy_load_iframes")) ==>
      r == ReplaceTags(content, "<img", LazyAttributes)
    ensures !(req.isFeed || req.isAdmin) && !Empty(Get(options, "lazy_load_iframes")) ==>
      r == ReplaceTags(ReplaceTags(content, "<img", LazyAttributes), "<iframe", LazyAttributes)
  {
    if req.isFeed || req.isAdmin then content
    else
      var images := ReplaceTags(content, "<img", LazyAttributes);
      if !Empty(Get(options, "lazy_load_iframes")) then ReplaceTags(images, "<iframe", LazyAttributes)
      else images
  }

  /** Content without images or iframes comes back as it was. */
  lemma AddLazyLoadingNoTags(content: string, req: PageRequest, options: Value)
    requires !Contains(ToLower(content), "<img") && !Contains(ToLower(content), "<iframe")
    ensures AddLazyLoading(content, req, options) == content
  {
    ReplaceTagsAbsent(content, "<img", LazyAttributes);
    ReplaceTagsAbsent(content, "<iframe", LazyAttributes);
  }

  /**
   * `get_page_type`: the first of front page, single post, page and archive
   * that holds, else `default`.
   */
  function PageType(req: PageRequest): (t: string)
    ensures t in {"front_page", "single", "page", "archive", "default"}
    ensures t == "front_page" <==> req.frontPage
    ensures t == "single" <==> !req.frontPage && req.single
    ensures t == "page" <==> !req.frontPage && !req.single && req.page
    ensures t == "archive" <==> !req.frontPage && !req.single && !req.page && req.archive
  {
    if req.frontPage then "front_page"
    else if req.single then "single"
    else if req.page then "page"
    else if req.archive then "archive"
    else "default"
  }
}
