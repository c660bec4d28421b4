/**
 * Plugin activation: the three tables, the default settings (added only
 * when none are stored), the upload directories with their `.htaccess`
 * guards, the two cron hooks (scheduled only when not pending), then the
 * rewrite rules, the version and the activation time, in that order.
 */
module Activator {
  import opened Wrappers
  import opened Php
  import opened Host
  import opened FileTree
  import Plugin
  import AdminInit

  /** The tables `create_tables` passes to `dbDelta`, without the `$wpdb->prefix`. */
  const TableNames: seq<string> := ["sso_analytics", "sso_cache", "sso_web_vitals"]

  /** The hooks `schedule_events` schedules, each with its recurrence. */
  const Schedules: seq<(string, string)> := [("sso_clear_expired_cache", "hourly"), ("sso_cleanup_analytics", "daily")]

  /** What each new directory's `.htaccess` holds. */
  const DenyAll: string := "Deny from all"

  // The default settings, one section at a time: field names, then values.
  const AssetDefaultNames: seq<string> :=
    ["defer_js", "defer_css", "critical_css", "lazy_load_images", "lazy_load_iframes", "font_display_swap", "preload_fonts"]
  const AssetDefaultValues: seq<Value> :=
    [Bool(true), Bool(true), Bool(false), Bool(true), Bool(true), Bool(true), Arr([])]
  const CacheDefaultNames: seq<string> :=
    ["page_cache_enabled", "cache_ttl", "exclude_urls", "cache_logged_in", "browser_cache"]
  const CacheDefaultValues: seq<Value> := [Bool(true), Int(3600), Arr([]), Bool(false), Bool(true)]
  const AnalyticsDefaultNames: seq<string> := ["enabled", "track_web_vitals", "track_user_behavior", "retention_days"]
  const AnalyticsDefaultValues: seq<Value> := [Bool(true), Bool(true), Bool(true), Int(90)]
  const ImageDefaultNames: seq<string> :=
    ["auto_optimize", "webp_conversion", "compression_quality", "max_width", "max_height"]
  const ImageDefaultValues: seq<Value> := [Bool(true), Bool(true), Int(80), Int(2048), Int(2048)]
  const MinificationDefaultNames: seq<string> := ["minify_html", "minify_css", "minify_js"]
  const DnsPrefetchDefaultNames: seq<string> := ["enabled", "domains"]

  const SectionNames: seq<string> :=
    ["asset_manager", "cache", "analytics", "image_optimizer", "minification", "dns_prefetch"]

  function SectionDefaults(): (vs: seq<Value>)
    ensures |vs| == |SectionNames|
  {
    [Record(AdminInit.Zip(AssetDefaultNames, AssetDefaultValues)),
     Record(AdminInit.Zip(CacheDefaultNames, CacheDefaultValues)),
     Record(AdminInit.Zip(AnalyticsDefaultNames, AnalyticsDefaultValues)),
     Record(AdminInit.Zip(ImageDefaultNames, ImageDefaultValues)),
     Record(AdminInit.Zip(MinificationDefaultNames, [Bool(true), Bool(true), Bool(true)])),
     Record(AdminInit.Zip(DnsPrefetchDefaultNames, [Bool(true), Arr([])]))]
  }

  /** The `sso_options` value `set_default_options` adds. */
  function Defaults(): Value {
    Record(AdminInit.Zip(SectionNames, SectionDefaults()))
  }

  /** Reading section `i` of the defaults. */
  lemma DefaultSection(i: nat)
    requires i < |SectionNames|
    ensures Get(Defaults(), SectionNames[i]) == SectionDefaults()[i]
  {
    assert AdminInit.Distinct(SectionNames);
    AdminInit.RecordLookup(AdminInit.Zip(SectionNames, SectionDefaults()), i);
  }

  /** Reading field `i` of a section built from names and values. */
  lemma DefaultField(names: seq<string>, values: seq<Value>, i: nat)
    requires |names| == |values| && i < |names| && AdminInit.Distinct(names)
    ensures Get(Record(AdminInit.Zip(names, values)), names[i]) == values[i]
  {
    AdminInit.RecordLookup(AdminInit.Zip(names, values), i);
  }

  lemma DefaultCacheField(k: nat)
    requires k < |CacheDefaultNames|
    ensures IsArray(Get(Defaults(), "cache"))
    ensures Get(Get(Defaults(), "cache"), CacheDefaultNames[k]) == CacheDefaultValues[k]
  {
    DefaultSection(1);
    assert AdminInit.Distinct(CacheDefaultNames);
    DefaultField(CacheDefaultNames, CacheDefaultValues, k);
  }

  lemma DefaultAnalyticsField(k: nat)
    requires k < |AnalyticsDefaultNames|
    ensures IsArray(Get(Defaults(), "analytics"))
    ensures Get(Get(Defaults(), "analytics"), AnalyticsDefaultNames[k]) == AnalyticsDefaultValues[k]
  {
    DefaultSection(2);
    assert AdminInit.Distinct(AnalyticsDefaultNames);
    DefaultField(AnalyticsDefaultNames, AnalyticsDefaultValues, k);
  }

  lemma DefaultImageField(k: nat)
    requires k < |ImageDefaultNames|
    ensures IsArray(Get(Defaults(), "image_optimizer"))
    ensures Get(Get(Defaults(), "image_optimizer"), ImageDefaultNames[k]) == ImageDefaultValues[k]
  {
    DefaultSection(3);
    assert AdminInit.Distinct(ImageDefaultNames);
    DefaultField(ImageDefaultNames, ImageDefaultValues, k);
  }

  /**
   * The default cache lifetime is the 3600 seconds `sanitize_options` falls
   * back to, and saving the defaults keeps it.
   */
  lemma DefaultCacheTtl(san: Sanitisers)
    ensures Get(Get(Defaults(), "cache"), "cache_ttl") == Int(3600)
    ensures Get(Get(AdminInit.SanitizeOptions(san, Defaults()), "cache"), "cache_ttl") == Int(3600)
  {
    DefaultCacheField(1);
    AdminInit.SavedCacheTtl(san, Defaults(), 3600);
  }

  /** The default retention is the 90 days `sanitize_options` falls back to, and saving the defaults keeps it. */
  lemma DefaultRetention(san: Sanitisers)
    ensures Get(Get(Defaults(), "analytics"), "retention_days") == Int(90)
    ensures Get(Get(AdminInit.SanitizeOptions(san, Defaults()), "analytics"), "retention_days") == Int(90)
  {
    DefaultAnalyticsField(3);
    AdminInit.SavedRetention(san, Defaults(), 90);
  }

  /** One of the image numbers: stored by default and kept by saving. */
  lemma DefaultImageNumber(san: Sanitisers, k: nat, n: nat)
    requires 2 <= k < |ImageDefaultNames| && ImageDefaultValues[k] == Int(n)
    ensures Get(Get(Defaults(), "image_optimizer"), ImageDefaultNames[k]) == Int(n)
    ensures Get(Get(AdminInit.SanitizeOptions(san, Defaults()), "image_optimizer"), ImageDefaultNames[k]) == Int(n)
  {
    DefaultImageField(k);
    assert ImageDefaultNames[k] == AdminInit.ImageNames[k];
    AdminInit.SavedImageNumber(san, Defaults(), k, n);
  }

  /**
   * The default quality 80 and bounds 2048 are the values `sanitize_options`
   * falls back to, and saving the defaults keeps them.
   */
  lemma DefaultImageNumbers(san: Sanitisers)
    ensures var m := Get(Defaults(), "image_optimizer");
      Get(m, "compression_quality") == Int(80) && Get(m, "max_width") == Int(2048) && Get(m, "max_height") == Int(2048)
    ensures var m := Get(AdminInit.SanitizeOptions(san, Defaults()), "image_optimizer");
      Get(m, "compression_quality") == Int(80) && Get(m, "max_width") == Int(2048) && Get(m, "max_height") == Int(2048)
  {
    DefaultImageNumber(san, 2, 80);
    DefaultImageNumber(san, 3, 2048);
    DefaultImageNumber(san, 4, 2048);
  }

  method CreateTables(site: Site, prefix: string)
    modifies site`tables, site`journal
    ensures site.tables == old(site.tables) + {prefix + TableNames[0], prefix + TableNames[1], prefix + TableNames[2]}
    ensures site.journal == old(site.journal) +
      [DbDelta(prefix + TableNames[0]), DbDelta(prefix + TableNames[1]), DbDelta(prefix + TableNames[2])]
  {
    ghost var tables0 := site.tables;
    ghost var journal0 := site.journal;
    for i := 0 to |TableNames|
      invariant site.tables == tables0 + set j | 0 <= j < i :: prefix + TableNames[j]
      invariant site.journal == journal0 + seq(i, j requires 0 <= j < i => DbDelta(prefix + TableNames[j]))
    {
      var table := prefix + TableNames[i];
      site.tables := site.tables + {table};
      site.journal := site.journal + [DbDelta(table)];
      assert seq(i + 1, j requires 0 <= j < i + 1 => DbDelta(prefix + TableNames[j]))
          == seq(i, j requires 0 <= j < i => DbDelta(prefix + TableNames[j])) + [DbDelta(table)];
    }
    assert (set j | 0 <= j < 3 :: prefix + TableNames[j]) == {prefix + TableNames[0], prefix + TableNames[1], prefix + TableNames[2]};
  }

  /** `set_default_options`: `add_option`, which leaves settings already stored alone. */
  method SetDefaultOptions(site: Site)
    modifies site`options, site`journal
    ensures site.options == AddOptionTo(old(site.options), "sso_options", Defaults())
    ensures site.journal == old(site.journal) + [AddOption("sso_options")]
  {
    site.options := AddOptionTo(site.options, "sso_options", Defaults());
    site.journal := site.journal + [AddOption("sso_options")];
  }

  /** The directories `create_directories` makes, relative to `<uploads>/smartsite-optimizer`. */
  const DirTails: seq<Path> := [[], ["cache"], ["cache", "pages"], ["cache", "objects"], ["optimized-images"]]

  /** The directories `create_directories` makes, in order. */
  function Directories(uploads: Path): (dirs: seq<Path>)
    ensures |dirs| == |DirTails|
  {
    seq(|DirTails|, i requires 0 <= i < |DirTails| => uploads + ["smartsite-optimizer"] + DirTails[i])
  }

  /**
   * One directory: when nothing is at `d`, `wp_mkdir_p` it and write its
   * `.htaccess` unless one is already there; otherwise leave it alone.
   */
  function CreateDir(fs: Fs, d: Path, now: int): Fs {
    if d in fs then fs
    else
      var made := MkdirP(fs, d, now);
      var htaccess := d + [Htaccess];
      if htaccess in made then made else PutContents(made, htaccess, DenyAll, now)
  }

  /** The file system after the directories are handled in order. */
  function CreateDirs(fs: Fs, dirs: seq<Path>, now: int): Fs
    decreases |dirs|
  {
    if dirs == [] then fs else CreateDir(CreateDirs(fs, dirs[..|dirs| - 1], now), dirs[|dirs| - 1], now)
  }

  /** `create_directories` */
  method CreateDirectories(site: Site, uploads: Path, now: int)
    modifies site`files
    ensures site.files == CreateDirs(old(site.files), Directories(uploads), now)
  {
    var directories := Directories(uploads);
    ghost var files0 := site.files;
    for i := 0 to |directories|
      invariant site.files == CreateDirs(files0, directories[..i], now)
    {
      var dir := directories[i];
      assert directories[..i + 1][..i] == directories[..i];
      if dir !in site.files {
        site.files := MkdirP(site.files, dir, now);
        var htaccess := dir + [Htaccess];
        if htaccess !in site.files {
          site.files := PutContents(site.files, htaccess, DenyAll, now);
        }
      }
    }
    assert directories[..|directories|] == directories;
  }

  /** The list places every directory after its parent; the first sits directly in the uploads directory. */
  lemma ParentsFirst(uploads: Path)
    ensures Parent(Directories(uploads)[0]) == uploads
    ensures forall i | 1 <= i < |Directories(uploads)| ::
      exists j | 0 <= j < i :: Directories(uploads)[j] == Parent(Directories(uploads)[i])
  {
    var dirs := Directories(uploads);
    var base := uploads + ["smartsite-optimizer"];
    assert dirs[0] == base + [];
    assert Parent(dirs[1]) == dirs[0];
    assert Parent(dirs[2]) == dirs[1];
    assert Parent(dirs[3]) == dirs[1];
    assert Parent(dirs[4]) == dirs[0];
  }

  /** No two listed directories coincide, and none is another's `.htaccess`. */
  lemma TailsDistinct()
    ensures forall i, j | 0 <= j < i < |DirTails| :: DirTails[i] != DirTails[j] && DirTails[i] != DirTails[j] + [Htaccess]
  {
    var t := DirTails;
    assert "cache"[0] != "pages"[0];
    assert |Htaccess| == 9 && |"cache"| == 5 && |"pages"| == 5 && |"objects"| == 7 && |"optimized-images"| == 16;
    forall i, j | 0 <= j < i < |t|
      ensures t[i] != t[j] && t[i] != t[j] + [Htaccess]
    {
      if i == 1 || i == 4 {
        assert t[i] != t[j] + [Htaccess] by { assert t[i][0] != Htaccess; }
      } else if i == 2 {
        assert t[i][1] == "pages";
      } else {
        assert t[i][1] == "objects";
        assert j == 2 ==> t[j][1] == "pages";
      }
    }
  }

  /** `wp_mkdir_p` never changes an entry that is already there. */
  lemma MkdirPKeeps(fs: Fs, d: Path, now: int)
    ensures forall p | p in fs :: p in MkdirP(fs, d, now) && MkdirP(fs, d, now)[p] == fs[p]
  {
  }

  /** Handling a directory changes no entry that was already there. */
  lemma CreateDirKeeps(fs: Fs, d: Path, now: int)
    ensures forall p | p in fs :: p in CreateDir(fs, d, now) && CreateDir(fs, d, now)[p] == fs[p]
  {
    MkdirPKeeps(fs, d, now);
  }

  /** Creating the directories changes no entry that was already there: existing directories are untouched. */
  lemma {:induction false} CreateDirsKeeps(fs: Fs, dirs: seq<Path>, now: int)
    ensures forall p | p in fs :: p in CreateDirs(fs, dirs, now) && CreateDirs(fs, dirs, now)[p] == fs[p]
    decreases |dirs|
  {
    if dirs != [] {
      CreateDirsKeeps(fs, dirs[..|dirs| - 1], now);
      CreateDirKeeps(CreateDirs(fs, dirs[..|dirs| - 1], now), dirs[|dirs| - 1], now);
    }
  }

  /**
   * A missing directory whose parent exists is created, and gets a
   * `.htaccess` holding `Deny from all`; nothing else changes.
   */
  lemma CreateDirFresh(fs: Fs, d: Path, now: int)
    requires WellFormed(fs) && |d| >= 2 && IsDir(fs, Parent(d)) && d !in fs
    ensures CreateDir(fs, d, now) == fs[d := Dir(now)][d + [Htaccess] := File(DenyAll, now)]
    ensures WellFormed(CreateDir(fs, d, now))
  {
    var q := Parent(d);
    forall k | 1 <= k <= |q|
      ensures IsDir(fs, d[..k])
    {
      if k < |q| {
        AncestorIsDir(fs, q, k);
        assert q[..k] == d[..k];
      } else {
        assert d[..k] == q;
      }
    }
    forall p | p in Prefixes(d)
      ensures !IsFile(fs, p)
    {
      var i :| 1 <= i <= |d| && p == d[..i];
      if i == |d| {
        assert p == d;
      }
    }
    var made := map p | p in Prefixes(d) && p !in fs :: Dir(now);
    assert made == map[d := Dir(now)] by {
      assert d[..|d|] == d;
      forall p | p in Prefixes(d) && p !in fs
        ensures p == d
      {
        var i :| 1 <= i <= |d| && p == d[..i];
        assert i == |d|;
      }
    }
    var g := fs[d := Dir(now)];
    assert MkdirP(fs, d, now) == g;
    var h := d + [Htaccess];
    assert Parent(h) == d;
    assert h !in fs;
    assert h !in g;
    assert Writable(g, h);
  }

  /** Every entry after creating `dirs` was there before, or is one of them or its `.htaccess`. */
  predicate OnlyAdded(fs: Fs, r: Fs, dirs: seq<Path>) {
    forall p | p in r :: p in fs || exists i | 0 <= i < |dirs| :: p == dirs[i] || p == dirs[i] + [Htaccess]
  }

  /** Each directory of `dirs` exists, with its `.htaccess` holding `Deny from all`. */
  predicate AllGuarded(r: Fs, dirs: seq<Path>, now: int) {
    forall i | 0 <= i < |dirs| ::
      IsDir(r, dirs[i]) && dirs[i] + [Htaccess] in r && r[dirs[i] + [Htaccess]] == File(DenyAll, now)
  }

  /** Each directory is missing and at least two components deep. */
  predicate AllMissing(fs: Fs, dirs: seq<Path>) {
    forall i | 0 <= i < |dirs| :: |dirs[i]| >= 2 && dirs[i] !in fs
  }

  /** No directory repeats, and none is the `.htaccess` of an earlier one. */
  predicate NoClash(dirs: seq<Path>) {
    forall i, j | 0 <= j < i < |dirs| :: dirs[i] != dirs[j] && dirs[i] != dirs[j] + [Htaccess]
  }

  /** Each directory's parent exists already or is listed before it. */
  predicate ParentsBefore(fs: Fs, dirs: seq<Path>) {
    forall i | 0 <= i < |dirs| :: |dirs[i]| > 0 && (IsDir(fs, Parent(dirs[i])) || exists j | 0 <= j < i :: dirs[j] == Parent(dirs[i]))
  }

  /** The three conditions hold of every prefix of the list. */
  lemma PrefixConditions(fs: Fs, dirs: seq<Path>, n: nat)
    requires n <= |dirs|
    requires AllMissing(fs, dirs) && NoClash(dirs) && ParentsBefore(fs, dirs)
    ensures AllMissing(fs, dirs[..n]) && NoClash(dirs[..n]) && ParentsBefore(fs, dirs[..n])
  {
    PrefixMissing(fs, dirs, n);
    PrefixNoClash(dirs, n);
    PrefixParents(fs, dirs, n);
  }

  lemma PrefixMissing(fs: Fs, dirs: seq<Path>, n: nat)
    requires n <= |dirs| && AllMissing(fs, dirs)
    ensures AllMissing(fs, dirs[..n])
  {
    var init := dirs[..n];
    forall i | 0 <= i < n
      ensures |init[i]| >= 2 && init[i] !in fs
    {
      assert init[i] == dirs[i];
    }
  }

  lemma PrefixNoClash(dirs: seq<Path>, n: nat)
    requires n <= |dirs| && NoClash(dirs)
    ensures NoClash(dirs[..n])
  {
    var init := dirs[..n];
    forall i, j | 0 <= j < i < n
      ensures init[i] != init[j] && init[i] != init[j] + [Htaccess]
    {
      assert init[i] == dirs[i] && init[j] == dirs[j];
    }
  }

  lemma PrefixParents(fs: Fs, dirs: seq<Path>, n: nat)
    requires n <= |dirs| && ParentsBefore(fs, dirs)
    ensures ParentsBefore(fs, dirs[..n])
  {
    var init := dirs[..n];
    assert forall i | 0 <= i < n :: init[i] == dirs[i];
  }

  /**
   * Missing directories, each listed after its parent unless the parent
   * already exists, are all created and guarded, on a tree-shaped file
   * system that stays tree-shaped.
   */
  lemma {:induction false} CreateDirsFresh(fs: Fs, dirs: seq<Path>, now: int)
    requires WellFormed(fs)
    requires AllMissing(fs, dirs) && NoClash(dirs) && ParentsBefore(fs, dirs)
    ensures WellFormed(CreateDirs(fs, dirs, now))
    ensures AllGuarded(CreateDirs(fs, dirs, now), dirs, now)
    ensures OnlyAdded(fs, CreateDirs(fs, dirs, now), dirs)
    decreases |dirs|
  {
    if dirs != [] {
      var n := |dirs| - 1;
      var d := dirs[n];
      PrefixConditions(fs, dirs, n);
      CreateDirsFresh(fs, dirs[..n], now);
      var f := CreateDirs(fs, dirs[..n], now);
      CreateDirsKeeps(fs, dirs[..n], now);
      CreateDirsNext(fs, f, dirs, now);
      CreateDirFresh(f, d, now);
      assert CreateDir(f, d, now) == CreateDirs(fs, dirs, now);
      CreateDirsAfter(fs, f, dirs, now);
    }
  }

  /** Before the last directory is handled: it is missing and its parent exists. */
  lemma CreateDirsNext(fs: Fs, f: Fs, dirs: seq<Path>, now: int)
    requires |dirs| > 0
    requires AllMissing(fs, dirs) && NoClash(dirs) && ParentsBefore(fs, dirs)
    requires AllGuarded(f, dirs[..|dirs| - 1], now)
    requires forall p | p in fs :: p in f && f[p] == fs[p]
    requires OnlyAdded(fs, f, dirs[..|dirs| - 1])
    ensures dirs[|dirs| - 1] !in f && IsDir(f, Parent(dirs[|dirs| - 1]))
  {
    LastMissing(fs, f, dirs);
    LastParent(fs, f, dirs, now);
  }

  /** The last directory is neither on disk nor among those the earlier ones added. */
  lemma LastMissing(fs: Fs, f: Fs, dirs: seq<Path>)
    requires |dirs| > 0 && AllMissing(fs, dirs) && NoClash(dirs)
    requires OnlyAdded(fs, f, dirs[..|dirs| - 1])
    ensures dirs[|dirs| - 1] !in f
  {
    var n := |dirs| - 1;
    var init := dirs[..n];
    forall i | 0 <= i < n
      ensures dirs[n] != init[i] && dirs[n] != init[i] + [Htaccess]
    {
      assert init[i] == dirs[i];
    }
  }

  /** The parent of the last directory was on disk already or is an earlier one, now created. */
  lemma LastParent(fs: Fs, f: Fs, dirs: seq<Path>, now: int)
    requires |dirs| > 0 && ParentsBefore(fs, dirs)
    requires AllGuarded(f, dirs[..|dirs| - 1], now)
    requires forall p | p in fs :: p in f && f[p] == fs[p]
    ensures IsDir(f, Parent(dirs[|dirs| - 1]))
  {
    var n := |dirs| - 1;
    if !IsDir(fs, Parent(dirs[n])) {
      var j :| 0 <= j < n && dirs[j] == Parent(dirs[n]);
      assert dirs[..n][j] == dirs[j];
    }
  }

  /** After the last directory is handled, all of them are guarded and nothing else was added. */
  lemma CreateDirsAfter(fs: Fs, f: Fs, dirs: seq<Path>, now: int)
    requires |dirs| > 0
    requires var d := dirs[|dirs| - 1];
      |d| >= 2 && d !in f && f[d := Dir(now)][d + [Htaccess] := File(DenyAll, now)] == CreateDir(f, d, now)
    requires NoClash(dirs)
    requires AllGuarded(f, dirs[..|dirs| - 1], now)
    requires OnlyAdded(fs, f, dirs[..|dirs| - 1])
    ensures AllGuarded(CreateDir(f, dirs[|dirs| - 1], now), dirs, now)
    ensures OnlyAdded(fs, CreateDir(f, dirs[|dirs| - 1], now), dirs)
  {
    var n := |dirs| - 1;
    var init := dirs[..n];
    var d := dirs[n];
    var r := CreateDir(f, d, now);
    forall i | 0 <= i < |dirs|
      ensures IsDir(r, dirs[i]) && dirs[i] + [Htaccess] in r && r[dirs[i] + [Htaccess]] == File(DenyAll, now)
    {
      if i < n {
        assert init[i] == dirs[i];
        assert dirs[i] + [Htaccess] != d;
        assert dirs[i] + [Htaccess] != d + [Htaccess];
      }
    }
    forall p | p in r
      ensures p in fs || exists i | 0 <= i < |dirs| :: p == dirs[i] || p == dirs[i] + [Htaccess]
    {
      if p != d && p != d + [Htaccess] {
        assert p in f;
        if p !in fs {
          var i :| 0 <= i < n && (p == init[i] || p == init[i] + [Htaccess]);
          assert init[i] == dirs[i];
        }
      }
    }
  }

  /**
   * On a site where nothing exists yet under `<uploads>/smartsite-optimizer`,
   * activation creates every listed directory, each with a `.htaccess`
   * holding `Deny from all`.
   */
  lemma FreshInstall(fs: Fs, uploads: Path, now: int)
    requires WellFormed(fs) && |uploads| >= 1 && IsDir(fs, uploads)
    requires forall p | p in fs :: !(uploads + ["smartsite-optimizer"] <= p)
    ensures WellFormed(CreateDirs(fs, Directories(uploads), now))
    ensures AllGuarded(CreateDirs(fs, Directories(uploads), now), Directories(uploads), now)
  {
    var dirs := Directories(uploads);
    FreshMissing(fs, uploads);
    FreshNoClash(uploads);
    FreshParents(fs, uploads);
    CreateDirsFresh(fs, dirs, now);
  }

  lemma FreshMissing(fs: Fs, uploads: Path)
    requires |uploads| >= 1
    requires forall p | p in fs :: !(uploads + ["smartsite-optimizer"] <= p)
    ensures AllMissing(fs, Directories(uploads))
  {
    var dirs := Directories(uploads);
    var base := uploads + ["smartsite-optimizer"];
    forall i | 0 <= i < |dirs|
      ensures |dirs[i]| >= 2 && dirs[i] !in fs
    {
      assert dirs[i] == base + DirTails[i];
      assert base <= dirs[i];
    }
  }

  lemma FreshNoClash(uploads: Path)
    ensures NoClash(Directories(uploads))
  {
    var dirs := Directories(uploads);
    var base := uploads + ["smartsite-optimizer"];
    TailsDistinct();
    forall i, j | 0 <= j < i < |dirs|
      ensures dirs[i] != dirs[j] && dirs[i] != dirs[j] + [Htaccess]
    {
      assert dirs[i] == base + DirTails[i] && dirs[j] == base + DirTails[j];
      assert dirs[i][|base|..] == DirTails[i];
      assert dirs[j][|base|..] == DirTails[j];
      assert (dirs[j] + [Htaccess])[|base|..] == DirTails[j] + [Htaccess];
    }
  }

  lemma FreshParents(fs: Fs, uploads: Path)
    requires |uploads| >= 1 && IsDir(fs, uploads)
    ensures ParentsBefore(fs, Directories(uploads))
  {
    var dirs := Directories(uploads);
    ParentsFirst(uploads);
    forall i | 0 <= i < |dirs|
      ensures |dirs[i]| > 0 && (IsDir(fs, Parent(dirs[i])) || exists j | 0 <= j < i :: dirs[j] == Parent(dirs[i]))
    {
      assert dirs[i] == uploads + ["smartsite-optimizer"] + DirTails[i];
    }
  }

  /** `wp_next_scheduled` on a queue with one event appended. */
  lemma {:induction false} NextScheduledAppend(cron: seq<Event>, e: Event, h: string)
    ensures NextScheduled(cron + [e], h) ==
      if NextScheduled(cron, h).Some? then NextScheduled(cron, h)
      else if e.hook == h then Some(e.timestamp) else None
  {
    if cron != [] {
      assert (cron + [e])[1..] == cron[1..] + [e];
      NextScheduledAppend(cron[1..], e, h);
    }
  }

  /** Pending events of a hook on a queue with one event appended. */
  lemma {:induction false} PendingAppend(cron: seq<Event>, e: Event, h: string)
    ensures Pending(cron + [e], h) == Pending(cron, h) + if e.hook == h then 1 else 0
  {
    if cron != [] {
      assert (cron + [e])[1..] == cron[1..] + [e];
      PendingAppend(cron[1..], e, h);
    }
  }

  /** `if ( ! wp_next_scheduled( $hook ) ) wp_schedule_event( time(), $recurrence, $hook );` */
  function ScheduleIfMissing(cron: seq<Event>, hook: string, recurrence: string, now: int): seq<Event> {
    if Scheduled(cron, hook) then cron else cron + [Event(hook, now, recurrence)]
  }

  /** No pending event of the hook: `wp_next_scheduled` finds none. */
  lemma {:induction false} NothingPending(cron: seq<Event>, hook: string)
    requires Pending(cron, hook) == 0
    ensures NextScheduled(cron, hook).None?
  {
    if cron != [] {
      NothingPending(cron[1..], hook);
    }
  }

  /**
   * Scheduling a hook that has nothing pending leaves exactly one pending
   * occurrence of it, and no other hook changes.
   */
  lemma ScheduleFirst(cron: seq<Event>, hook: string, recurrence: string, now: int, h: string)
    requires Pending(cron, hook) == 0
    ensures Pending(ScheduleIfMissing(cron, hook, recurrence, now), h) == if h == hook then 1 else Pending(cron, h)
  {
    NothingPending(cron, hook);
    PendingAppend(cron, Event(hook, now, recurrence), h);
  }

  /**
   * Scheduling again changes nothing: once the hook is scheduled at a
   * non-zero time, `wp_next_scheduled` reports it.
   */
  lemma ScheduleIdempotent(cron: seq<Event>, hook: string, recurrence: string, now: int, later: int)
    requires now != 0 && NextScheduled(cron, hook) != Some(0)
    ensures ScheduleIfMissing(ScheduleIfMissing(cron, hook, recurrence, now), hook, recurrence, later)
         == ScheduleIfMissing(cron, hook, recurrence, now)
  {
    NextScheduledAppend(cron, Event(hook, now, recurrence), hook);
  }

  /** The queue after `schedule_events`. */
  function ScheduleAll(cron: seq<Event>, now: int): seq<Event> {
    var first := ScheduleIfMissing(cron, Schedules[0].0, Schedules[0].1, now);
    ScheduleIfMissing(first, Schedules[1].0, Schedules[1].1, now)
  }

  /** The `wp_schedule_event` calls `schedule_events` makes. */
  function ScheduleCalls(cron: seq<Event>): seq<HostCall> {
    (if Scheduled(cron, Schedules[0].0) then [] else [ScheduleEvent(Schedules[0].0)]) +
    (if Scheduled(ScheduleIfMissing(cron, Schedules[0].0, Schedules[0].1, 0), Schedules[1].0) then []
     else [ScheduleEvent(Schedules[1].0)])
  }

  /** `schedule_events` */
  method ScheduleEvents(site: Site, now: int)
    modifies site`cron, site`journal
    ensures site.cron == ScheduleAll(old(site.cron), now)
    ensures site.journal == old(site.journal) + ScheduleCalls(old(site.cron))
  {
    ghost var journal0 := site.journal;
    ghost var cron0 := site.cron;
    var first := NextScheduled(site.cron, "sso_clear_expired_cache");
    if !(first.Some? && first.value != 0) {
      site.cron := site.cron + [Event("sso_clear_expired_cache", now, "hourly")];
      site.journal := site.journal + [ScheduleEvent("sso_clear_expired_cache")];
    }
    UnscheduleOtherAppend(cron0, now, 0);
    var second := NextScheduled(site.cron, "sso_cleanup_analytics");
    if !(second.Some? && second.value != 0) {
      site.cron := site.cron + [Event("sso_cleanup_analytics", now, "daily")];
      site.journal := site.journal + [ScheduleEvent("sso_cleanup_analytics")];
    }
  }

  /** Whether the second hook is scheduled does not depend on when the first was appended. */
  lemma UnscheduleOtherAppend(cron: seq<Event>, now: int, other: int)
    ensures Scheduled(ScheduleIfMissing(cron, Schedules[0].0, Schedules[0].1, now), Schedules[1].0)
        == Scheduled(ScheduleIfMissing(cron, Schedules[0].0, Schedules[0].1, other), Schedules[1].0)
  {
    var h0, h1 := Schedules[0].0, Schedules[1].0;
    assert h0 != h1 by { assert |h0| != |h1|; }
    NextScheduledAppend(cron, Event(h0, now, Schedules[0].1), h1);
    NextScheduledAppend(cron, Event(h0, other, Schedules[0].1), h1);
  }

  /**
   * `activate`: tables, default settings, directories, scheduling, rewrite
   * rules, then the version and the activation time.
   */
  method Activate(site: Site, prefix: string, uploads: Path, now: int, localNow: int)
    modifies site`tables, site`options, site`files, site`cron, site`journal
    ensures site.tables == old(site.tables) + {prefix + TableNames[0], prefix + TableNames[1], prefix + TableNames[2]}
    ensures site.options == AddOptionTo(old(site.options), "sso_options", Defaults())
      ["sso_version" := Str(Plugin.Version)]["sso_activation_time" := Int(localNow)]
    ensures site.files == CreateDirs(old(site.files), Directories(uploads), now)
    ensures site.cron == ScheduleAll(old(site.cron), now)
    ensures site.journal == old(site.journal)
      + [DbDelta(prefix + TableNames[0]), DbDelta(prefix + TableNames[1]), DbDelta(prefix + TableNames[2])]
      + [AddOption("sso_options")]
      + ScheduleCalls(old(site.cron))
      + [FlushRewriteRules, UpdateOption("sso_version"), UpdateOption("sso_activation_time")]
  {
    CreateTables(site, prefix);
    ghost var tables, j1 := site.tables, site.journal;
    SetDefaultOptions(site);
    ghost var j2 := site.journal;
    CreateDirectories(site, uploads, now);
    ghost var files := site.files;
    ScheduleEvents(site, now);
    ghost var cron, j3 := site.cron, site.journal;
    site.journal := site.journal + [FlushRewriteRules];
    site.options := site.options["sso_version" := Str(Plugin.Version)];
    site.journal := site.journal + [UpdateOption("sso_version")];
    site.options := site.options["sso_activation_time" := Int(localNow)];
    site.journal := site.journal + [UpdateOption("sso_activation_time")];
    assert site.tables == tables && site.files == files && site.cron == cron;
    AppendThree(j3, FlushRewriteRules, UpdateOption("sso_version"), UpdateOption("sso_activation_time"));
  }

  lemma AppendThree<T>(s: seq<T>, a: T, b: T, c: T)
    ensures s + [a] + [b] + [c] == s + [a, b, c]
  {
  }
}
