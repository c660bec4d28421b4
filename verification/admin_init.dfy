/**
 * The admin side: the settings sanitiser registered for `sso_options`, the
 * two list sanitisers it uses, the asset guard, and the three AJAX handlers
 * (clear the cache, one-click optimisation, dashboard data).
 */
module AdminInit {
  import opened Wrappers
  import opened Strings
  import opened Php
  import opened Host
  import FileTree
  import Analytics
  import CacheManager

  /** The four module sections of `sso_options`, in the order they are sanitised. */
  const Sections: seq<string> := ["analytics", "cache", "asset_manager", "image_optimizer"]

  /** The four module switches, in the order they are sanitised. */
  const DisableFlags: seq<string> := ["disable_asset_manager", "disable_cache", "disable_analytics", "disable_image_optimizer"]

  /** `! empty( $v['name'] )` */
  function Flag(v: Value, name: string): (r: Value)
    ensures r.Bool? && (r.b <==> !Empty(Get(v, name)))
  {
    Bool(!Empty(Get(v, name)))
  }

  /** `absint( $v['name'] ?? default )` */
  function Number(v: Value, name: string, default: nat): (r: Value)
    ensures r.Int? && r.i >= 0
    ensures !IsSet(v, name) ==> r == Int(default)
    ensures IsSet(v, name) ==> r == Int(AbsInt(Get(v, name)))
  {
    Int(AbsInt(Coalesce(v, name, Int(default))))
  }

  /** The strings of `xs` that `empty()` does not reject, in order. */
  function KeepNonEmpty(xs: seq<string>): (r: seq<string>)
    ensures |r| <= |xs|
  {
    if xs == [] then []
    else KeepNonEmpty(xs[..|xs| - 1]) + (if EmptyString(xs[|xs| - 1]) then [] else [xs[|xs| - 1]])
  }

  lemma KeepNonEmptyAppend(xs: seq<string>, x: string)
    ensures KeepNonEmpty(xs + [x]) == KeepNonEmpty(xs) + (if EmptyString(x) then [] else [x])
  {
    assert (xs + [x])[..|xs|] == xs;
  }

  /** The strings kept are exactly those of `xs` that `empty()` does not reject. */
  lemma {:induction false} KeepNonEmptyMembers(xs: seq<string>)
    ensures forall x :: x in KeepNonEmpty(xs) <==> x in xs && !EmptyString(x)
  {
    if xs != [] {
      var init := xs[..|xs| - 1];
      KeepNonEmptyMembers(init);
      assert xs == init + [xs[|xs| - 1]];
    }
  }

  /** Every string of `xs` survives when `empty()` rejects none of them. */
  lemma {:induction false} KeepNonEmptyAll(xs: seq<string>)
    requires forall i :: 0 <= i < |xs| ==> !EmptyString(xs[i])
    ensures KeepNonEmpty(xs) == xs
  {
    if xs != [] {
      var init := xs[..|xs| - 1];
      KeepNonEmptyAll(init);
      assert KeepNonEmpty(xs) == KeepNonEmpty(init) + [xs[|xs| - 1]];
      assert xs == init + [xs[|xs| - 1]];
    }
  }

  /** `sanitize_text_field` of one element: an array element becomes `''`. */
  function CleanText(san: Sanitisers, v: Value): string {
    if v.Arr? then "" else san.textField(ToStr(v))
  }

  /** `esc_url_raw` of one element. */
  function CleanUrl(san: Sanitisers, v: Value): string {
    san.urlRaw(ToStr(v))
  }

  /** Each value through `sanitize_text_field`. */
  function CleanTexts(san: Sanitisers, vs: seq<Value>): (r: seq<string>)
    ensures |r| == |vs|
    ensures forall i :: 0 <= i < |vs| ==> r[i] == CleanText(san, vs[i])
  {
    seq(|vs|, i requires 0 <= i < |vs| => CleanText(san, vs[i]))
  }

  /** Each value through `esc_url_raw`. */
  function CleanUrls(san: Sanitisers, vs: seq<Value>): (r: seq<string>)
    ensures |r| == |vs|
    ensures forall i :: 0 <= i < |vs| ==> r[i] == CleanUrl(san, vs[i])
  {
    seq(|vs|, i requires 0 <= i < |vs| => CleanUrl(san, vs[i]))
  }

  /**
   * `sanitize_url_patterns` as written: anything but an array gives an empty
   * list, and that includes the string the cache page's textarea posts.
   */
  function PatternListAsWritten(san: Sanitisers, patterns: Value): seq<string> {
    if patterns.Arr? then KeepNonEmpty(CleanTexts(san, Values(patterns.entries))) else []
  }

  /** The lines of a textarea's value, as strings. */
  function Lines(s: string): (r: seq<Value>)
    ensures |r| == |Split(s, '\n')|
    ensures forall i :: 0 <= i < |r| ==> r[i] == Str(Split(s, '\n')[i])
  {
    var parts := Split(s, '\n');
    seq(|parts|, i requires 0 <= i < |parts| => Str(parts[i]))
  }

  /**
   * `sanitize_url_patterns` corrected: an array is cleaned as before, and the
   * textarea's string is read one pattern per line.
   */
  function PatternList(san: Sanitisers, patterns: Value): seq<string> {
    if patterns.Arr? then PatternListAsWritten(san, patterns)
    else if patterns.Str? then KeepNonEmpty(CleanTexts(san, Lines(patterns.s)))
    else []
  }

  /** What `sanitize_urls` keeps: nothing unless given an array. */
  function UrlList(san: Sanitisers, urls: Value): seq<string> {
    if urls.Arr? then KeepNonEmpty(CleanUrls(san, Values(urls.entries))) else []
  }

  /**
   * The textarea posts one string; as written every pattern in it is lost,
   * while the corrected reading keeps each line that cleans to a pattern.
   */
  lemma TextareaPatternsDropped(san: Sanitisers, s: string, i: nat)
    requires i < |Split(s, '\n')| && !EmptyString(san.textField(Split(s, '\n')[i]))
    ensures PatternListAsWritten(san, Str(s)) == []
    ensures san.textField(Split(s, '\n')[i]) in PatternList(san, Str(s))
  {
    var cleaned := CleanTexts(san, Lines(s));
    assert cleaned[i] == san.textField(Split(s, '\n')[i]);
    KeepNonEmptyMembers(cleaned);
  }

  /** Reading lines the text sanitiser leaves alone gives those lines. */
  lemma CleanLines(san: Sanitisers, text: string, xs: seq<string>)
    requires Split(text, '\n') == xs
    requires forall i :: 0 <= i < |xs| ==> san.textField(xs[i]) == xs[i]
    ensures CleanTexts(san, Lines(text)) == xs
  {
    var lines := Lines(text);
    var cleaned := CleanTexts(san, lines);
    forall i | 0 <= i < |xs| ensures cleaned[i] == xs[i] {
      assert lines[i] == Str(xs[i]);
    }
  }

  /**
   * The cache page shows the saved patterns joined by line breaks; saving
   * that text unchanged gives the same list back, provided each pattern is
   * one line the text sanitiser leaves as it is.
   */
  lemma PatternsRoundTrip(san: Sanitisers, xs: seq<string>)
    requires |xs| >= 1
    requires forall i :: 0 <= i < |xs| ==> '\n' !in xs[i] && !EmptyString(xs[i]) && san.textField(xs[i]) == xs[i]
    ensures PatternList(san, Str(Join(xs, "\n"))) == xs
  {
    SplitJoin(xs, '\n');
    CleanLines(san, Join(xs, "\n"), xs);
    KeepNonEmptyAll(xs);
  }

  /** Clean each value as text and keep what `empty()` does not reject. */
  method KeepCleanTexts(san: Sanitisers, vs: seq<Value>) returns (r: seq<string>)
    ensures r == KeepNonEmpty(CleanTexts(san, vs))
  {
    var cleaned := CleanTexts(san, vs);
    r := [];
    var i := 0;
    while i < |vs|
      invariant 0 <= i <= |vs|
      invariant r == KeepNonEmpty(cleaned[..i])
    {
      var c := cleaned[i];
      KeepNonEmptyAppend(cleaned[..i], c);
      assert cleaned[..i + 1] == cleaned[..i] + [c];
      if !EmptyString(c) {
        r := r + [c];
      }
      i := i + 1;
    }
    assert cleaned[..|vs|] == cleaned;
  }

  /** `sanitize_url_patterns` as written. */
  method SanitizeUrlPatternsAsWritten(san: Sanitisers, patterns: Value) returns (r: seq<string>)
    ensures r == PatternListAsWritten(san, patterns)
    ensures !patterns.Arr? ==> r == []
  {
    if !patterns.Arr? {
      return [];
    }
    r := KeepCleanTexts(san, Values(patterns.entries));
  }

  /** `sanitize_url_patterns`, reading a posted string one pattern per line. */
  method SanitizeUrlPatterns(san: Sanitisers, patterns: Value) returns (r: seq<string>)
    ensures r == PatternList(san, patterns)
    ensures patterns.Arr? ==> r == PatternListAsWritten(san, patterns)
  {
    if patterns.Arr? {
      r := KeepCleanTexts(san, Values(patterns.entries));
    } else if patterns.Str? {
      r := KeepCleanTexts(san, Lines(patterns.s));
    } else {
      r := [];
    }
  }

  /**
   * `sanitize_urls`: each element passed through `esc_url_raw`; the ones
   * `empty()` rejects dropped; anything but an array gives an empty list.
   */
  method SanitizeUrls(san: Sanitisers, urls: Value) returns (r: seq<string>)
    ensures r == UrlList(san, urls)
    ensures !urls.Arr? ==> r == []
  {
    if !urls.Arr? {
      return [];
    }
    var vs := Values(urls.entries);
    ghost var cleaned := CleanUrls(san, vs);
    r := [];
    var i := 0;
    while i < |vs|
      invariant 0 <= i <= |vs|
      invariant r == KeepNonEmpty(cleaned[..i])
    {
      var c := CleanUrl(san, vs[i]);
      KeepNonEmptyAppend(cleaned[..i], c);
      assert cleaned[..i + 1] == cleaned[..i] + [c];
      if !EmptyString(c) {
        r := r + [c];
      }
      i := i + 1;
    }
    assert cleaned[..|vs|] == cleaned;
  }

  /** A PHP list of strings. */
  function Strs(xs: seq<string>): Value {
    List(seq(|xs|, i requires 0 <= i < |xs| => Str(xs[i])))
  }

  /** The fields of each sanitised section, in the order they are built. */
  const AnalyticsNames: seq<string> := ["enabled", "track_web_vitals", "track_user_behavior", "retention_days"]
  const CacheNames: seq<string> := ["page_cache_enabled", "browser_cache", "cache_logged_in", "cache_ttl", "exclude_urls"]
  const AssetNames: seq<string> :=
    ["defer_js", "defer_css", "critical_css", "lazy_load_images", "lazy_load_iframes", "font_display_swap", "preload_fonts"]
  const ImageNames: seq<string> := ["auto_optimize", "webp_conversion", "compression_quality", "max_width", "max_height"]

  /** The sanitised `analytics` values. */
  function AnalyticsValues(a: Value): seq<Value> {
    [Flag(a, "enabled"), Flag(a, "track_web_vitals"), Flag(a, "track_user_behavior"),
     Number(a, "retention_days", 90)]
  }

  /** The sanitised `cache` values. */
  function CacheValues(san: Sanitisers, c: Value): seq<Value> {
    [Flag(c, "page_cache_enabled"), Flag(c, "browser_cache"), Flag(c, "cache_logged_in"),
     Number(c, "cache_ttl", 3600),
     Strs(PatternList(san, Coalesce(c, "exclude_urls", Arr([]))))]
  }

  /** The sanitised `asset_manager` values. */
  function AssetValues(san: Sanitisers, m: Value): seq<Value> {
    [Flag(m, "defer_js"), Flag(m, "defer_css"), Flag(m, "critical_css"), Flag(m, "lazy_load_images"),
     Flag(m, "lazy_load_iframes"), Flag(m, "font_display_swap"),
     Strs(UrlList(san, Coalesce(m, "preload_fonts", Arr([]))))]
  }

  /** The sanitised `image_optimizer` values. */
  function ImageValues(m: Value): seq<Value> {
    [Flag(m, "auto_optimize"), Flag(m, "webp_conversion"),
     Number(m, "compression_quality", 80), Number(m, "max_width", 2048), Number(m, "max_height", 2048)]
  }

  /** Names paired with values, as an array literal lists them. */
  function Zip(names: seq<string>, values: seq<Value>): (r: seq<(string, Value)>)
    requires |names| == |values|
    ensures |r| == |names|
    ensures forall i :: 0 <= i < |r| ==> r[i] == (names[i], values[i])
  {
    seq(|names|, i requires 0 <= i < |names| => (names[i], values[i]))
  }

  /** The sanitised form of the section named `name`, given the posted one. */
  function SectionFields(san: Sanitisers, name: string, v: Value): seq<(string, Value)> {
    if name == "analytics" then Zip(AnalyticsNames, AnalyticsValues(v))
    else if name == "cache" then Zip(CacheNames, CacheValues(san, v))
    else if name == "asset_manager" then Zip(AssetNames, AssetValues(san, v))
    else Zip(ImageNames, ImageValues(v))
  }

  /** `$sanitized['name'] = ...` when the posted section is an array. */
  function PutSection(es: seq<Entry>, san: Sanitisers, input: Value, name: string): seq<Entry> {
    var v := Get(input, name);
    if IsArray(v) then Put(es, StrKey(name), Record(SectionFields(san, name, v))) else es
  }

  /** `$sanitized['name'] = ! empty( $input['name'] )` */
  function PutFlag(es: seq<Entry>, input: Value, name: string): seq<Entry> {
    Put(es, StrKey(name), Flag(input, name))
  }

  /**
   * `sanitize_options`: each module section rebuilt from its known fields
   * when it was posted as an array, then the four module switches.
   */
  function SanitizeOptions(san: Sanitisers, input: Value): Value {
    var s1 := PutSection([], san, input, "analytics");
    var s2 := PutSection(s1, san, input, "cache");
    var s3 := PutSection(s2, san, input, "asset_manager");
    var s4 := PutSection(s3, san, input, "image_optimizer");
    var s5 := PutFlag(s4, input, "disable_asset_manager");
    var s6 := PutFlag(s5, input, "disable_cache");
    var s7 := PutFlag(s6, input, "disable_analytics");
    Arr(PutFlag(s7, input, "disable_image_optimizer"))
  }

  /** The first four steps: only section keys are ever written. */
  function SanitizedSections(san: Sanitisers, input: Value): seq<Entry> {
    var s1 := PutSection([], san, input, "analytics");
    var s2 := PutSection(s1, san, input, "cache");
    var s3 := PutSection(s2, san, input, "asset_manager");
    PutSection(s3, san, input, "image_optimizer")
  }

  lemma {:induction false} PutSectionLookup(es: seq<Entry>, san: Sanitisers, input: Value, name: string, k: Key)
    ensures Lookup(PutSection(es, san, input, name), k) ==
      if k == StrKey(name) && IsArray(Get(input, name)) then Record(SectionFields(san, name, Get(input, name)))
      else Lookup(es, k)
  {
    if IsArray(Get(input, name)) {
      PutLookup(es, StrKey(name), Record(SectionFields(san, name, Get(input, name))), k);
    }
  }

  lemma {:induction false} PutSectionKeys(es: seq<Entry>, san: Sanitisers, input: Value, name: string, k: Key)
    requires k in Keys(PutSection(es, san, input, name))
    ensures k in Keys(es) || k == StrKey(name)
  {
    if IsArray(Get(input, name)) {
      PutKeys(es, StrKey(name), Record(SectionFields(san, name, Get(input, name))));
    }
  }

  /** The section keys are untouched by the four switches that follow. */
  lemma {:induction false} SanitizedFromSections(san: Sanitisers, input: Value, k: Key)
    requires k !in [StrKey("disable_asset_manager"), StrKey("disable_cache"), StrKey("disable_analytics"), StrKey("disable_image_optimizer")]
    ensures Lookup(SanitizeOptions(san, input).entries, k) == Lookup(SanitizedSections(san, input), k)
  {
    var s4 := SanitizedSections(san, input);
    var s5 := PutFlag(s4, input, "disable_asset_manager");
    var s6 := PutFlag(s5, input, "disable_cache");
    var s7 := PutFlag(s6, input, "disable_analytics");
    PutLookup(s7, StrKey("disable_image_optimizer"), Flag(input, "disable_image_optimizer"), k);
    PutLookup(s6, StrKey("disable_analytics"), Flag(input, "disable_analytics"), k);
    PutLookup(s5, StrKey("disable_cache"), Flag(input, "disable_cache"), k);
    PutLookup(s4, StrKey("disable_asset_manager"), Flag(input, "disable_asset_manager"), k);
  }

  /**
   * Every module switch comes out as the boolean `! empty()` of what was
   * posted, so an absent switch turns the module back on.
   */
  lemma {:induction false} SanitizeOptionsFlags(san: Sanitisers, input: Value, name: string)
    requires name in DisableFlags
    ensures Get(SanitizeOptions(san, input), name) == Bool(!Empty(Get(input, name)))
  {
    var s4 := SanitizedSections(san, input);
    var s5 := PutFlag(s4, input, "disable_asset_manager");
    var s6 := PutFlag(s5, input, "disable_cache");
    var s7 := PutFlag(s6, input, "disable_analytics");
    var k := StrKey(name);
    PutLookup(s7, StrKey("disable_image_optimizer"), Flag(input, "disable_image_optimizer"), k);
    PutLookup(s6, StrKey("disable_analytics"), Flag(input, "disable_analytics"), k);
    PutLookup(s5, StrKey("disable_cache"), Flag(input, "disable_cache"), k);
    PutLookup(s4, StrKey("disable_asset_manager"), Flag(input, "disable_asset_manager"), k);
  }

  /**
   * A module section is present in the result exactly when it was posted as
   * an array, and then holds the sanitised form of what was posted.
   */
  lemma {:induction false} SanitizeOptionsSection(san: Sanitisers, input: Value, name: string)
    requires name in Sections
    ensures Get(SanitizeOptions(san, input), name) ==
      if IsArray(Get(input, name)) then Record(SectionFields(san, name, Get(input, name))) else Null
    ensures IsSet(SanitizeOptions(san, input), name) <==> IsArray(Get(input, name))
  {
    var k := StrKey(name);
    SanitizedFromSections(san, input, k);
    var s1 := PutSection([], san, input, "analytics");
    var s2 := PutSection(s1, san, input, "cache");
    var s3 := PutSection(s2, san, input, "asset_manager");
    PutSectionLookup(s3, san, input, "image_optimizer", k);
    PutSectionLookup(s2, san, input, "asset_manager", k);
    PutSectionLookup(s1, san, input, "cache", k);
    PutSectionLookup([], san, input, "analytics", k);
  }

  lemma {:induction false} SanitizedSectionsKeys(san: Sanitisers, input: Value, k: Key)
    requires k in Keys(SanitizedSections(san, input))
    ensures k.StrKey? && k.s in Sections
  {
    var s1 := PutSection([], san, input, "analytics");
    var s2 := PutSection(s1, san, input, "cache");
    var s3 := PutSection(s2, san, input, "asset_manager");
    PutSectionKeys(s3, san, input, "image_optimizer", k);
    if k in Keys(s3) {
      PutSectionKeys(s2, san, input, "asset_manager", k);
      if k in Keys(s2) {
        PutSectionKeys(s1, san, input, "cache", k);
        if k in Keys(s1) {
          PutSectionKeys([], san, input, "analytics", k);
        }
      }
    }
  }

  lemma {:induction false} PutFlagKeys(es: seq<Entry>, input: Value, name: string, k: Key)
    requires k in Keys(PutFlag(es, input, name))
    ensures k in Keys(es) || k == StrKey(name)
  {
    PutKeys(es, StrKey(name), Flag(input, name));
  }

  /** The result holds no key but the four sections and the four switches. */
  lemma {:induction false} SanitizeOptionsKeys(san: Sanitisers, input: Value, k: Key)
    requires k in Keys(SanitizeOptions(san, input).entries)
    ensures k.StrKey? && (k.s in Sections || k.s in DisableFlags)
  {
    var s4 := SanitizedSections(san, input);
    var s5 := PutFlag(s4, input, "disable_asset_manager");
    var s6 := PutFlag(s5, input, "disable_cache");
    var s7 := PutFlag(s6, input, "disable_analytics");
    PutFlagKeys(s7, input, "disable_image_optimizer", k);
    if k in Keys(s7) {
      PutFlagKeys(s6, input, "disable_analytics", k);
      if k in Keys(s6) {
        PutFlagKeys(s5, input, "disable_cache", k);
        if k in Keys(s5) {
          PutFlagKeys(s4, input, "disable_asset_manager", k);
          if k in Keys(s4) {
            SanitizedSectionsKeys(san, input, k);
          }
        }
      }
    }
  }

  /** No two fields share a name. */
  predicate DistinctNames(fields: seq<(string, Value)>) {
    forall i, j :: 0 <= i < j < |fields| ==> fields[i].0 != fields[j].0
  }

  /** Reading a named field of a record gives the value it was built with. */
  lemma {:induction false} RecordLookup(fields: seq<(string, Value)>, i: nat)
    requires DistinctNames(fields) && i < |fields|
    ensures Get(Record(fields), fields[i].0) == fields[i].1
  {
    var es := Record(fields).entries;
    if i > 0 {
      assert es[0].key == StrKey(fields[0].0) != StrKey(fields[i].0);
      assert es[1..] == Record(fields[1..]).entries;
      RecordLookup(fields[1..], i - 1);
    }
  }

  /** A name the record was not built with reads as `null`. */
  lemma {:induction false} RecordAbsent(fields: seq<(string, Value)>, name: string)
    requires forall i :: 0 <= i < |fields| ==> fields[i].0 != name
    ensures Get(Record(fields), name) == Null
  {
    var es := Record(fields).entries;
    if fields != [] {
      assert es[1..] == Record(fields[1..]).entries;
      RecordAbsent(fields[1..], name);
    }
  }

  predicate Distinct(names: seq<string>) {
    forall i, j :: 0 <= i < j < |names| ==> names[i] != names[j]
  }

  lemma SectionNamesDistinct(san: Sanitisers, name: string, v: Value)
    ensures DistinctNames(SectionFields(san, name, v))
  {
    assert Distinct(AnalyticsNames) && Distinct(CacheNames) && Distinct(AssetNames) && Distinct(ImageNames);
  }

  /**
   * Every field of a posted module section comes out as its `! empty()` or
   * `absint` form, and a number left out of the form takes its default:
   * 90 retention days, a 3600-second cache lifetime, quality 80 and
   * 2048-pixel bounds.
   */
  lemma SanitizedField(san: Sanitisers, input: Value, name: string, i: nat)
    requires name in Sections && IsArray(Get(input, name))
    requires i < |SectionFields(san, name, Get(input, name))|
    ensures var field := SectionFields(san, name, Get(input, name))[i];
      Get(Get(SanitizeOptions(san, input), name), field.0) == field.1
  {
    SanitizeOptionsSection(san, input, name);
    SectionNamesDistinct(san, name, Get(input, name));
    RecordLookup(SectionFields(san, name, Get(input, name)), i);
  }

  /** The numeric settings fall back to the documented defaults. */
  lemma SanitizedDefaults(san: Sanitisers, input: Value)
    ensures var a := Get(input, "analytics");
      IsArray(a) && !IsSet(a, "retention_days") ==>
      Get(Get(SanitizeOptions(san, input), "analytics"), "retention_days") == Int(90)
    ensures var c := Get(input, "cache");
      IsArray(c) && !IsSet(c, "cache_ttl") ==>
      Get(Get(SanitizeOptions(san, input), "cache"), "cache_ttl") == Int(3600)
    ensures var m := Get(input, "image_optimizer");
      IsArray(m) && !IsSet(m, "compression_quality") ==>
      Get(Get(SanitizeOptions(san, input), "image_optimizer"), "compression_quality") == Int(80)
    ensures var m := Get(input, "image_optimizer");
      IsArray(m) && !IsSet(m, "max_width") && !IsSet(m, "max_height") ==>
      Get(Get(SanitizeOptions(san, input), "image_optimizer"), "max_width") == Int(2048) &&
      Get(Get(SanitizeOptions(san, input), "image_optimizer"), "max_height") == Int(2048)
  {
    if IsArray(Get(input, "analytics")) {
      SanitizedField(san, input, "analytics", 3);
    }
    if IsArray(Get(input, "cache")) {
      SanitizedField(san, input, "cache", 3);
    }
    if IsArray(Get(input, "image_optimizer")) {
      SanitizedField(san, input, "image_optimizer", 2);
      SanitizedField(san, input, "image_optimizer", 3);
      SanitizedField(san, input, "image_optimizer", 4);
    }
  }

  /** A retention already stored as a non-negative integer is saved as it is. */
  lemma SavedRetention(san: Sanitisers, input: Value, n: nat)
    requires IsArray(Get(input, "analytics")) && Get(Get(input, "analytics"), "retention_days") == Int(n)
    ensures Get(Get(SanitizeOptions(san, input), "analytics"), "retention_days") == Int(n)
  {
    var a := Get(input, "analytics");
    SanitizedField(san, input, "analytics", 3);
    assert SectionFields(san, "analytics", a)[3] == ("retention_days", Number(a, "retention_days", 90));
  }

  /** A cache lifetime already stored as a non-negative integer is saved as it is. */
  lemma SavedCacheTtl(san: Sanitisers, input: Value, n: nat)
    requires IsArray(Get(input, "cache")) && Get(Get(input, "cache"), "cache_ttl") == Int(n)
    ensures Get(Get(SanitizeOptions(san, input), "cache"), "cache_ttl") == Int(n)
  {
    var c := Get(input, "cache");
    var fields := SectionFields(san, "cache", c);
    assert fields == Zip(CacheNames, CacheValues(san, c));
    assert fields[3] == (CacheNames[3], CacheValues(san, c)[3]);
    SanitizedField(san, input, "cache", 3);
  }

  /** A quality or bound already stored as a non-negative integer is saved as it is. */
  lemma SavedImageNumber(san: Sanitisers, input: Value, k: nat, n: nat)
    requires 2 <= k < |ImageNames|
    requires IsArray(Get(input, "image_optimizer")) && Get(Get(input, "image_optimizer"), ImageNames[k]) == Int(n)
    ensures Get(Get(SanitizeOptions(san, input), "image_optimizer"), ImageNames[k]) == Int(n)
  {
    var m := Get(input, "image_optimizer");
    var fields := SectionFields(san, "image_optimizer", m);
    assert fields == Zip(ImageNames, ImageValues(m));
    assert fields[k] == (ImageNames[k], ImageValues(m)[k]);
    assert ImageValues(m)[k] == Number(m, ImageNames[k], if k == 2 then 80 else 2048);
    SanitizedField(san, input, "image_optimizer", k);
  }

  /**
   * `array_replace_recursive` on two arrays, from the `i`-th replacement on:
   * each entry of `rep`, in order, replaces the same key of `base`, except
   * that where both values are arrays they are merged the same way.
   */
  function ReplaceFrom(base: seq<Entry>, rep: seq<Entry>, i: nat): seq<Entry>
    requires i <= |rep|
    decreases Arr(rep), 0, |rep| - i
  {
    if i == |rep| then base
    else
      assert rep[i] in rep;
      ReplaceFrom(Put(base, rep[i].key, Merged(Lookup(base, rep[i].key), rep[i].val)), rep, i + 1)
  }

  /** What a replaced key ends up holding, given its old and its new value. */
  function Merged(cur: Value, v: Value): Value
    decreases v, 1
  {
    if cur.Arr? && v.Arr? then Arr(ReplaceFrom(cur.entries, v.entries, 0)) else v
  }

  /** `array_replace_recursive( $base, $rep )`; a `base` that is not an array is a fatal `TypeError`. */
  function ReplaceRecursive(base: Value, rep: seq<Entry>): Option<seq<Entry>> {
    if base.Arr? then Some(ReplaceFrom(base.entries, rep, 0)) else None
  }

  /** A key no replacement names keeps its old value. */
  lemma {:induction false} ReplaceKeeps(base: seq<Entry>, rep: seq<Entry>, i: nat, k: Key)
    requires i <= |rep|
    requires forall j :: i <= j < |rep| ==> rep[j].key != k
    ensures Lookup(ReplaceFrom(base, rep, i), k) == Lookup(base, k)
    decreases |rep| - i
  {
    if i < |rep| {
      var v := Merged(Lookup(base, rep[i].key), rep[i].val);
      ReplaceKeeps(Put(base, rep[i].key, v), rep, i + 1, k);
      PutLookup(base, rep[i].key, v, k);
    }
  }

  /**
   * A key a replacement names ends with the new value, or with the merge of
   * the two when both are arrays.
   */
  lemma {:induction false} ReplaceSets(base: seq<Entry>, rep: seq<Entry>, i: nat, j: nat)
    requires i <= j < |rep| && UniqueKeys(rep)
    ensures Lookup(ReplaceFrom(base, rep, i), rep[j].key) == Merged(Lookup(base, rep[j].key), rep[j].val)
    decreases |rep| - i
  {
    var v := Merged(Lookup(base, rep[i].key), rep[i].val);
    var next := Put(base, rep[i].key, v);
    PutLookup(base, rep[i].key, v, rep[j].key);
    if i == j {
      ReplaceKeeps(next, rep, i + 1, rep[j].key);
    } else {
      ReplaceSets(next, rep, i + 1, j);
    }
  }

  /** Distinct names make distinct keys. */
  lemma RecordUnique(fields: seq<(string, Value)>)
    requires DistinctNames(fields)
    ensures UniqueKeys(Record(fields).entries)
  {
  }

  /** A merged section takes every scalar it is given... */
  lemma MergedListed(cur: Value, fields: seq<(string, Value)>, i: nat)
    requires DistinctNames(fields) && i < |fields| && !fields[i].1.Arr?
    ensures Get(Merged(cur, Record(fields)), fields[i].0) == fields[i].1
  {
    if cur.Arr? {
      RecordUnique(fields);
      ReplaceSets(cur.entries, Record(fields).entries, 0, i);
    } else {
      RecordLookup(fields, i);
    }
  }

  /** ...and keeps every other field of the old section. */
  lemma MergedOther(cur: Value, fields: seq<(string, Value)>, name: string)
    requires forall i :: 0 <= i < |fields| ==> fields[i].0 != name
    ensures Get(Merged(cur, Record(fields)), name) == Get(cur, name)
  {
    if cur.Arr? {
      ReplaceKeeps(cur.entries, Record(fields).entries, 0, StrKey(name));
    } else {
      RecordAbsent(fields, name);
    }
  }

  /** The settings the one-click optimisation switches on, section by section. */
  const OneClickAnalytics: seq<(string, Value)> :=
    [(AnalyticsNames[0], Bool(true)), (AnalyticsNames[1], Bool(true)), (AnalyticsNames[2], Bool(true))]
  const OneClickCache: seq<(string, Value)> :=
    [(CacheNames[0], Bool(true)), (CacheNames[1], Bool(true)), (CacheNames[3], Int(3600))]
  const OneClickAssets: seq<(string, Value)> :=
    [(AssetNames[0], Bool(true)), (AssetNames[1], Bool(true)), (AssetNames[3], Bool(true)), (AssetNames[5], Bool(true))]
  const OneClickImages: seq<(string, Value)> :=
    [(ImageNames[0], Bool(true)), (ImageNames[1], Bool(true)), (ImageNames[2], Int(85))]

  /** The one-click section for the module section named `Sections[j]`. */
  function OneClickSection(j: nat): seq<(string, Value)>
    requires j < 4
  {
    [OneClickAnalytics, OneClickCache, OneClickAssets, OneClickImages][j]
  }

  /** The array the one-click optimisation merges into the saved settings. */
  function OneClick(): seq<Entry> {
    Record(Zip(Sections, [Record(OneClickAnalytics), Record(OneClickCache), Record(OneClickAssets), Record(OneClickImages)])).entries
  }

  /** After the merge each module section is the old one with the one-click settings laid over it. */
  lemma OneClickMerge(current: seq<Entry>, j: nat)
    requires j < 4
    ensures Get(Arr(ReplaceFrom(current, OneClick(), 0)), Sections[j]) ==
      Merged(Get(Arr(current), Sections[j]), Record(OneClickSection(j)))
  {
    assert Distinct(Sections);
    var fields := Zip(Sections, [Record(OneClickAnalytics), Record(OneClickCache), Record(OneClickAssets), Record(OneClickImages)]);
    RecordUnique(fields);
    ReplaceSets(current, OneClick(), 0, j);
  }

  /** What `update_option` stores after the one-click merge: the registered sanitiser runs on it. */
  function OneClickStored(san: Sanitisers, current: seq<Entry>): Value {
    SanitizeOptions(san, Arr(ReplaceFrom(current, OneClick(), 0)))
  }

  /**
   * `update_option( 'sso_options', array_replace_recursive( $current, ... ) )`:
   * the value saved, or nothing when the merge is a fatal error.
   */
  function OneClickSave(san: Sanitisers, current: Value): Option<Value> {
    match ReplaceRecursive(current, OneClick())
    case None => None
    case Some(merged) => Some(SanitizeOptions(san, Arr(merged)))
  }

  /** Saved settings that are an array are merged and saved; anything else is fatal. */
  lemma OneClickSaveStores(san: Sanitisers, current: Value)
    ensures OneClickSave(san, current).None? <==> !current.Arr?
    ensures current.Arr? ==> OneClickSave(san, current) == Some(OneClickStored(san, current.entries))
  {
  }

  /** One sanitised field of one section of the stored one-click result. */
  lemma OneClickStoredField(san: Sanitisers, current: seq<Entry>, j: nat, k: nat)
    requires j < 4
    requires k < |SectionFields(san, Sections[j], Merged(Get(Arr(current), Sections[j]), Record(OneClickSection(j))))|
    ensures var m := Merged(Get(Arr(current), Sections[j]), Record(OneClickSection(j)));
      Get(Get(OneClickStored(san, current), Sections[j]), SectionFields(san, Sections[j], m)[k].0) ==
      SectionFields(san, Sections[j], m)[k].1
  {
    OneClickMerge(current, j);
    SanitizedField(san, Arr(ReplaceFrom(current, OneClick(), 0)), Sections[j], k);
  }

  /** The merged `analytics` section, field by field, after sanitising. */
  lemma StoredAnalytics(san: Sanitisers, current: seq<Entry>, k: nat)
    requires k < |AnalyticsNames|
    ensures var m := Merged(Get(Arr(current), "analytics"), Record(OneClickAnalytics));
      Get(Get(OneClickStored(san, current), "analytics"), AnalyticsNames[k]) == AnalyticsValues(m)[k]
  {
    var m := Merged(Get(Arr(current), "analytics"), Record(OneClickAnalytics));
    OneClickStoredField(san, current, 0, k);
    assert SectionFields(san, Sections[0], m) == Zip(AnalyticsNames, AnalyticsValues(m));
  }

  /** The merged `cache` section, field by field, after sanitising. */
  lemma StoredCache(san: Sanitisers, current: seq<Entry>, k: nat)
    requires k < |CacheNames|
    ensures var m := Merged(Get(Arr(current), "cache"), Record(OneClickCache));
      Get(Get(OneClickStored(san, current), "cache"), CacheNames[k]) == CacheValues(san, m)[k]
  {
    var m := Merged(Get(Arr(current), "cache"), Record(OneClickCache));
    OneClickStoredField(san, current, 1, k);
    assert SectionFields(san, Sections[1], m) == Zip(CacheNames, CacheValues(san, m));
  }

  /** The merged `asset_manager` section, field by field, after sanitising. */
  lemma StoredAssets(san: Sanitisers, current: seq<Entry>, k: nat)
    requires k < |AssetNames|
    ensures var m := Merged(Get(Arr(current), "asset_manager"), Record(OneClickAssets));
      Get(Get(OneClickStored(san, current), "asset_manager"), AssetNames[k]) == AssetValues(san, m)[k]
  {
    var m := Merged(Get(Arr(current), "asset_manager"), Record(OneClickAssets));
    OneClickStoredField(san, current, 2, k);
    assert SectionFields(san, Sections[2], m) == Zip(AssetNames, AssetValues(san, m));
  }

  /** The merged `image_optimizer` section, field by field, after sanitising. */
  lemma StoredImages(san: Sanitisers, current: seq<Entry>, k: nat)
    requires k < |ImageNames|
    ensures var m := Merged(Get(Arr(current), "image_optimizer"), Record(OneClickImages));
      Get(Get(OneClickStored(san, current), "image_optimizer"), ImageNames[k]) == ImageValues(m)[k]
  {
    var m := Merged(Get(Arr(current), "image_optimizer"), Record(OneClickImages));
    OneClickStoredField(san, current, 3, k);
    assert SectionFields(san, Sections[3], m) == Zip(ImageNames, ImageValues(m));
  }

  /** A switch the one-click settings turn on is stored on. */
  lemma StoredSwitchOn(san: Sanitisers, current: seq<Entry>, j: nat, i: nat)
    requires j < 4 && i < |OneClickSection(j)| && OneClickSection(j)[i].1 == Bool(true)
    ensures var m := Merged(Get(Arr(current), Sections[j]), Record(OneClickSection(j)));
      Flag(m, OneClickSection(j)[i].0) == Bool(true)
  {
    var fields := OneClickSection(j);
    assert DistinctNames(fields);
    MergedListed(Get(Arr(current), Sections[j]), fields, i);
  }

  /** A number the one-click settings give is stored as it is. */
  lemma StoredNumberSet(san: Sanitisers, current: seq<Entry>, j: nat, i: nat, default: nat)
    requires j < 4 && i < |OneClickSection(j)| && OneClickSection(j)[i].1.Int? && OneClickSection(j)[i].1.i >= 0
    ensures var m := Merged(Get(Arr(current), Sections[j]), Record(OneClickSection(j)));
      Number(m, OneClickSection(j)[i].0, default) == OneClickSection(j)[i].1
  {
    var fields := OneClickSection(j);
    assert DistinctNames(fields);
    MergedListed(Get(Arr(current), Sections[j]), fields, i);
  }

  /**
   * The one-click optimisation saves its own settings: every switch it lists
   * on, the cache lifetime 3600 and compression quality 85.
   */
  lemma OneClickAnalyticsOn(san: Sanitisers, current: seq<Entry>)
    ensures var stored := Get(OneClickStored(san, current), "analytics");
      Get(stored, "enabled") == Bool(true) && Get(stored, "track_web_vitals") == Bool(true) &&
      Get(stored, "track_user_behavior") == Bool(true)
  {
    StoredAnalytics(san, current, 0);
    StoredSwitchOn(san, current, 0, 0);
    StoredAnalytics(san, current, 1);
    StoredSwitchOn(san, current, 0, 1);
    StoredAnalytics(san, current, 2);
    StoredSwitchOn(san, current, 0, 2);
  }

  lemma OneClickCacheOn(san: Sanitisers, current: seq<Entry>)
    ensures var stored := Get(OneClickStored(san, current), "cache");
      Get(stored, "page_cache_enabled") == Bool(true) && Get(stored, "browser_cache") == Bool(true)
  {
    StoredCache(san, current, 0);
    StoredSwitchOn(san, current, 1, 0);
    StoredCache(san, current, 1);
    StoredSwitchOn(san, current, 1, 1);
  }

  lemma OneClickCacheTtl(san: Sanitisers, current: seq<Entry>)
    ensures Get(Get(OneClickStored(san, current), "cache"), "cache_ttl") == Int(3600)
  {
    StoredCache(san, current, 3);
    StoredNumberSet(san, current, 1, 2, 3600);
  }

  lemma OneClickDeferOn(san: Sanitisers, current: seq<Entry>)
    ensures var stored := Get(OneClickStored(san, current), "asset_manager");
      Get(stored, "defer_js") == Bool(true) && Get(stored, "defer_css") == Bool(true)
  {
    StoredAssets(san, current, 0);
    StoredSwitchOn(san, current, 2, 0);
    StoredAssets(san, current, 1);
    StoredSwitchOn(san, current, 2, 1);
  }

  lemma OneClickLazyImagesOn(san: Sanitisers, current: seq<Entry>)
    ensures var stored := Get(OneClickStored(san, current), "asset_manager");
      Get(stored, "lazy_load_images") == Bool(true) && Get(stored, "font_display_swap") == Bool(true)
  {
    StoredAssets(san, current, 3);
    StoredSwitchOn(san, current, 2, 2);
    StoredAssets(san, current, 5);
    StoredSwitchOn(san, current, 2, 3);
  }

  lemma OneClickImagesOn(san: Sanitisers, current: seq<Entry>)
    ensures var stored := Get(OneClickStored(san, current), "image_optimizer");
      Get(stored, "auto_optimize") == Bool(true) && Get(stored, "webp_conversion") == Bool(true)
  {
    StoredImages(san, current, 0);
    StoredSwitchOn(san, current, 3, 0);
    StoredImages(san, current, 1);
    StoredSwitchOn(san, current, 3, 1);
  }

  lemma OneClickQuality(san: Sanitisers, current: seq<Entry>)
    ensures Get(Get(OneClickStored(san, current), "image_optimizer"), "compression_quality") == Int(85)
  {
    StoredImages(san, current, 2);
    StoredNumberSet(san, current, 3, 2, 80);
  }

  /** The settings each one-click section leaves out. */
  lemma AnalyticsUnlisted()
    ensures forall i :: 0 <= i < |OneClickAnalytics| ==> OneClickAnalytics[i].0 != "retention_days"
  {
  }

  lemma CacheUnlisted()
    ensures forall i :: 0 <= i < |OneClickCache| ==> OneClickCache[i].0 != "cache_logged_in" && OneClickCache[i].0 != "exclude_urls"
  {
  }

  lemma AssetsUnlisted()
    ensures forall i :: 0 <= i < |OneClickAssets| ==>
      OneClickAssets[i].0 != "critical_css" && OneClickAssets[i].0 != "lazy_load_iframes" && OneClickAssets[i].0 != "preload_fonts"
  {
  }

  lemma ImagesUnlisted()
    ensures forall i :: 0 <= i < |OneClickImages| ==> OneClickImages[i].0 != "max_width" && OneClickImages[i].0 != "max_height"
  {
  }

  lemma OneClickKeepsAnalytics(san: Sanitisers, current: seq<Entry>)
    ensures var saved := Get(Arr(current), "analytics");
      Get(Get(OneClickStored(san, current), "analytics"), "retention_days") == Number(saved, "retention_days", 90)
  {
    StoredAnalytics(san, current, 3);
    AnalyticsUnlisted();
    MergedOther(Get(Arr(current), "analytics"), OneClickAnalytics, "retention_days");
  }

  lemma OneClickKeepsCache(san: Sanitisers, current: seq<Entry>)
    ensures var saved := Get(Arr(current), "cache");
      var stored := Get(OneClickStored(san, current), "cache");
      Get(stored, "cache_logged_in") == Flag(saved, "cache_logged_in") &&
      Get(stored, "exclude_urls") == Strs(PatternList(san, Coalesce(saved, "exclude_urls", Arr([]))))
  {
    var saved := Get(Arr(current), "cache");
    CacheUnlisted();
    StoredCache(san, current, 2);
    MergedOther(saved, OneClickCache, "cache_logged_in");
    StoredCache(san, current, 4);
    MergedOther(saved, OneClickCache, "exclude_urls");
  }

  lemma OneClickKeepsAssets(san: Sanitisers, current: seq<Entry>)
    ensures var saved := Get(Arr(current), "asset_manager");
      var stored := Get(OneClickStored(san, current), "asset_manager");
      Get(stored, "critical_css") == Flag(saved, "critical_css") &&
      Get(stored, "lazy_load_iframes") == Flag(saved, "lazy_load_iframes")
  {
    var saved := Get(Arr(current), "asset_manager");
    AssetsUnlisted();
    StoredAssets(san, current, 2);
    MergedOther(saved, OneClickAssets, "critical_css");
    StoredAssets(san, current, 4);
    MergedOther(saved, OneClickAssets, "lazy_load_iframes");
  }

  lemma OneClickKeepsFonts(san: Sanitisers, current: seq<Entry>)
    ensures var saved := Get(Arr(current), "asset_manager");
      Get(Get(OneClickStored(san, current), "asset_manager"), "preload_fonts") ==
      Strs(UrlList(san, Coalesce(saved, "preload_fonts", Arr([]))))
  {
    AssetsUnlisted();
    StoredAssets(san, current, 6);
    MergedOther(Get(Arr(current), "asset_manager"), OneClickAssets, "preload_fonts");
  }

  lemma OneClickKeepsImages(san: Sanitisers, current: seq<Entry>)
    ensures var saved := Get(Arr(current), "image_optimizer");
      var stored := Get(OneClickStored(san, current), "image_optimizer");
      Get(stored, "max_width") == Number(saved, "max_width", 2048) &&
      Get(stored, "max_height") == Number(saved, "max_height", 2048)
  {
    var saved := Get(Arr(current), "image_optimizer");
    ImagesUnlisted();
    StoredImages(san, current, 3);
    MergedOther(saved, OneClickImages, "max_width");
    StoredImages(san, current, 4);
    MergedOther(saved, OneClickImages, "max_height");
  }

  /** The admin menu slugs: the top-level page and its submenus. */
  const MenuSlugs: seq<string> :=
    ["smartsite-optimizer", "sso-asset-manager", "sso-cache", "sso-analytics", "sso-images", "sso-settings"]

  /** `enqueue_admin_assets` loads the admin styles and scripts only where this holds of the screen's hook. */
  predicate EnqueuesAssets(hook: string) {
    Contains(hook, "smartsite-optimizer") || Contains(hook, "sso-")
  }

  /**
   * Every page the plugin adds gets its assets, whatever the menu prefix of
   * its hook (`toplevel_page_...`, `smartsite_page_...`).
   */
  lemma PluginScreensEnqueue(prefix: string, i: nat)
    requires i < |MenuSlugs|
    ensures EnqueuesAssets(prefix + "_page_" + MenuSlugs[i])
  {
    var slug := MenuSlugs[i];
    var needle := if i == 0 then "smartsite-optimizer" else "sso-";
    assert StartsWith(slug, needle);
    ContainsWithin(prefix + "_page_", slug, "", needle);
    assert prefix + "_page_" + slug + "" == prefix + "_page_" + slug;
  }

  /** No `-` in `s` follows an `o` or an `e`. */
  predicate NoNeedleHyphen(s: string)
    decreases |s|
  {
    |s| < 2 || (!(s[1] == '-' && (s[0] == 'o' || s[0] == 'e')) && NoNeedleHyphen(s[1..]))
  }

  lemma {:induction false} NoNeedleHyphenAt(s: string, i: nat)
    requires NoNeedleHyphen(s) && 0 < i < |s| && s[i] == '-'
    ensures s[i - 1] != 'o' && s[i - 1] != 'e'
    decreases |s|
  {
    if i > 1 {
      NoNeedleHyphenAt(s[1..], i - 1);
    }
  }

  /**
   * A screen gets nothing when no `-` in its hook follows an `o` or an `e`:
   * both needles hold such a pair (`sso-`, `smartsite-optimizer`).
   */
  lemma OtherScreensSkip(hook: string)
    requires NoNeedleHyphen(hook)
    ensures !EnqueuesAssets(hook)
  {
    ContainsAt(hook, "smartsite-optimizer");
    ContainsAt(hook, "sso-");
    forall k | OccursAt(hook, "smartsite-optimizer", k)
      ensures false
    {
      var w := hook[k..k + 19];
      assert w == "smartsite-optimizer";
      assert hook[k + 9] == w[9] && hook[k + 8] == w[8];
      NoNeedleHyphenAt(hook, k + 9);
    }
    forall k | OccursAt(hook, "sso-", k)
      ensures false
    {
      var w := hook[k..k + 4];
      assert w == "sso-";
      assert hook[k + 3] == w[3] && hook[k + 2] == w[2];
      NoNeedleHyphenAt(hook, k + 3);
    }
  }

  /** The dashboard, plugins, media and posts screens get nothing. */
  lemma CoreScreensSkip(hook: string)
    requires hook == "index.php" || hook == "plugins.php" || hook == "upload.php" || hook == "edit.php"
    ensures !EnqueuesAssets(hook)
  {
    assert '-' !in hook;
    NoHyphenNoNeedle(hook);
    OtherScreensSkip(hook);
  }

  /** The general settings screen gets nothing. */
  lemma GeneralScreenSkip(hook: string)
    requires hook == "options-general.php"
    ensures !EnqueuesAssets(hook)
  {
    GeneralNoNeedle(hook);
    OtherScreensSkip(hook);
  }

  /** `options-general.php` has one `-`, and it follows an `s`. */
  lemma GeneralNoNeedle(hook: string)
    requires hook == "options-general.php"
    ensures NoNeedleHyphen(hook)
  {
    GeneralParts(hook);
    var a, b := hook[..7], hook[7..];
    assert b[1..] == hook[8..];
    NoHyphenNoNeedle(a);
    NoHyphenNoNeedle(b[1..]);
    assert NoNeedleHyphen(b);
    NoNeedleHyphenJoin(a, b);
    assert a + b == hook;
  }

  lemma GeneralParts(hook: string)
    requires hook == "options-general.php"
    ensures |hook| == 19 && '-' !in hook[..7] && '-' !in hook[8..] && hook[6] == 's' && hook[8] == 'g'
  {
    var c, d := hook[8..13], hook[13..];
    assert hook[8..] == c + d;
    assert '-' !in c && '-' !in d;
  }

  lemma {:induction false} NoHyphenNoNeedle(s: string)
    requires '-' !in s
    ensures NoNeedleHyphen(s)
    decreases |s|
  {
    if |s| >= 2 {
      assert s[1] in s;
      NoHyphenNoNeedle(s[1..]);
    }
  }

  lemma {:induction false} NoNeedleHyphenJoin(a: string, b: string)
    requires NoNeedleHyphen(a) && NoNeedleHyphen(b)
    requires |a| > 0 && |b| > 0 ==> !(b[0] == '-' && (a[|a| - 1] == 'o' || a[|a| - 1] == 'e'))
    ensures NoNeedleHyphen(a + b)
    decreases |a|
  {
    if |a| > 0 {
      NoNeedleHyphenJoin(a[1..], b);
      assert (a + b)[1..] == a[1..] + b;
      assert (a + b)[0] == a[0];
      if |a| > 1 {
        assert (a + b)[1] == a[1];
      } else if |b| > 0 {
        assert (a + b)[1] == b[0];
      }
    } else {
      assert a + b == b;
    }
  }

  /**
   * `ajax_clear_cache`: a bad nonce dies, a user without `manage_options`
   * is refused, and otherwise the cache manager, when the module is loaded,
   * clears every cache.
   */
  method AjaxClearCache(nonceOk: bool, canManage: bool, cm: CacheManager.CacheManager?) returns (reply: Reply)
    requires cm != null ==> WellFormed(cm.site.files)
    modifies if cm != null then {cm.site} else {}
    ensures !nonceOk ==> reply == Forbidden
    ensures nonceOk && !canManage ==> reply == Error("Unauthorized")
    ensures nonceOk && canManage && cm == null ==> reply == Error("Cache manager not available")
    ensures cm != null && !(nonceOk && canManage) ==> unchanged(cm.site)
    ensures nonceOk && canManage && cm != null ==>
      reply == Success("Cache cleared successfully") &&
      cm.site.files == FileTree.Cleared(FileTree.Cleared(old(cm.site.files), cm.cacheDir + ["pages"]), cm.cacheDir + ["objects"]) &&
      cm.site.cacheRows == [] && cm.site.objectCache == map[] &&
      cm.site.options == old(cm.site.options)
  {
    if !nonceOk {
      return Forbidden;
    }
    if !canManage {
      return Error("Unauthorized");
    }
    if cm != null {
      cm.ClearAllCache();
      return Success("Cache cleared successfully");
    }
    return Error("Cache manager not available");
  }

  /** The reply of `ajax_run_optimization`. */
  function OptimizationResults(cacheCleared: bool): Value {
    Record([("cache_cleared", Bool(cacheCleared)), ("settings_updated", Bool(true))])
  }

  /**
   * `ajax_run_optimization`: after the same checks, the optimisation itself
   * runs (below).
   */
  method AjaxRunOptimization(site: Site, san: Sanitisers, nonceOk: bool, canManage: bool, cm: CacheManager.CacheManager?)
    returns (reply: Reply)
    requires cm != null ==> cm.site == site && WellFormed(site.files)
    modifies site
    ensures !nonceOk ==> reply == Forbidden && unchanged(site)
    ensures nonceOk && !canManage ==> reply == Error("Unauthorized") && unchanged(site)
    ensures nonceOk && canManage ==>
      var saved := OneClickSave(san, GetOption(old(site.options), "sso_options"));
      if saved.None? then reply == Fatal && unchanged(site)
      else site.options == old(site.options)["sso_options" := saved.value] && reply == SuccessData(OptimizationResults(cm != null))
    ensures nonceOk && canManage && OneClickSave(san, GetOption(old(site.options), "sso_options")).Some? ==>
      if cm != null then
        site.files == FileTree.Cleared(FileTree.Cleared(old(site.files), cm.cacheDir + ["pages"]), cm.cacheDir + ["objects"]) &&
        site.cacheRows == [] && site.objectCache == map[]
      else unchanged(site`files, site`cacheRows, site`objectCache)
  {
    if !nonceOk {
      return Forbidden;
    }
    if !canManage {
      return Error("Unauthorized");
    }
    reply := RunOptimization(site, OneClickSave(san, GetOption(site.options, "sso_options")), cm);
  }

  /**
   * The optimisation, given the merged and sanitised settings `saved` (none
   * when the merge was a fatal error): they are saved, then every cache is
   * cleared when the cache module is loaded.
   */
  method RunOptimization(site: Site, saved: Option<Value>, cm: CacheManager.CacheManager?) returns (reply: Reply)
    requires cm != null ==> cm.site == site && WellFormed(site.files)
    modifies site
    ensures saved.None? ==> reply == Fatal && unchanged(site)
    ensures saved.Some? ==>
      site.options == old(site.options)["sso_options" := saved.value] && reply == SuccessData(OptimizationResults(cm != null))
    ensures saved.Some? && cm != null ==>
      site.files == FileTree.Cleared(FileTree.Cleared(old(site.files), cm.cacheDir + ["pages"]), cm.cacheDir + ["objects"]) &&
      site.cacheRows == [] && site.objectCache == map[]
    ensures cm == null ==> unchanged(site`files, site`cacheRows, site`objectCache)
  {
    if saved.None? {
      return Fatal;
    }
    site.options := site.options["sso_options" := saved.value];
    var cacheCleared := false;
    if cm != null {
      cm.ClearAllCache();
      cacheCleared := true;
    }
    reply := SuccessData(OptimizationResults(cacheCleared));
  }

  /** A read through the object cache: the cached value on a hit, else `computed`, which is then cached. */
  function Fetch(cache: map<(string, string), Value>, key: (string, string), computed: Value): (Value, map<(string, string), Value>) {
    if Analytics.CacheHit(cache, key) then (cache[key], cache) else (computed, cache[key := computed])
  }

  /**
   * `ajax_get_dashboard_data`: after the same checks, the last seven days of
   * vitals and the five top pages, each read through the object cache; an
   * empty array when the analytics module is not loaded. `vitals` and
   * `topPages` are what the two database queries would return.
   */
  method AjaxGetDashboardData(nonceOk: bool, canManage: bool, an: Analytics.Analytics?, vitals: Value, topPages: Value)
    returns (reply: Reply)
    modifies if an != null then {an.site} else {}
    ensures !nonceOk ==> reply == Forbidden
    ensures nonceOk && !canManage ==> reply == Error("Unauthorized")
    ensures nonceOk && canManage && an == null ==> reply == SuccessData(Arr([]))
    ensures an != null && !(nonceOk && canManage) ==> unchanged(an.site)
    ensures nonceOk && canManage && an != null ==>
      var first := Fetch(old(an.site.objectCache), ("sso", Analytics.AnalyticsDataKey(an.md5, "", 7)), vitals);
      var second := Fetch(first.1, ("sso", Analytics.TopPagesKey(5)), topPages);
      reply == SuccessData(Record([("vitals", first.0), ("top_pages", second.0)])) &&
      an.site.objectCache == second.1 && an.site.options == old(an.site.options)
  {
    if !nonceOk {
      return Forbidden;
    }
    if !canManage {
      return Error("Unauthorized");
    }
    if an == null {
      return SuccessData(Arr([]));
    }
    var v := an.GetAnalyticsData("", 7, vitals);
    var t := an.GetTopPages(5, topPages);
    reply := SuccessData(Record([("vitals", v), ("top_pages", t)]));
  }
}
