/**
 * The file page cache: where a page's copy lives, when a request is served
 * from it, when a page is stored, the browser caching headers, and the
 * invalidation paths (one post, everything, expired rows).
 */
module CacheManager {
  import opened Wrappers
  import opened Strings
  import opened Php
  import opened Host
  import opened FileTree

  /** `cache_dir/pages/<first two characters of the key>/<key>.html` */
  function CacheFile(cacheDir: Path, key: Md5): (p: Path)
    ensures |p| == |cacheDir| + 3 && cacheDir < p && p[|cacheDir|] == "pages"
    ensures Name(p) == key + ".html"
    ensures StartsWith(Name(p), Name(Parent(p))) && |Name(Parent(p))| == 2
  {
    cacheDir + ["pages", key[..2], key + ".html"]
  }

  /** Distinct keys never share a cache file. */
  lemma CacheFileInjective(cacheDir: Path, k1: Md5, k2: Md5)
    requires CacheFile(cacheDir, k1) == CacheFile(cacheDir, k2)
    ensures k1 == k2
  {
    assert k1 + ".html" == k2 + ".html";
    assert k1 == (k1 + ".html")[..32];
  }

  /** The path as the plugin writes it out, segments joined by `/`. */
  lemma CacheFileString(cacheDir: Path, key: Md5)
    requires |cacheDir| > 0
    ensures Join(CacheFile(cacheDir, key), "/") == Join(cacheDir, "/") + "/" + ("pages" + "/" + key[..2] + "/" + (key + ".html"))
  {
    JoinAppend(cacheDir, ["pages", key[..2], key + ".html"], "/");
    JoinThree("pages", key[..2], key + ".html", "/");
  }

  /** `REQUEST_URI` through `esc_url_raw`, `''` when unset. */
  function RequestUrl(req: PageRequest, san: Sanitisers): string {
    if req.uri.Some? then san.urlRaw(req.uri.value) else ""
  }

  /** `get_cache_key`: one copy per URL and device class. */
  function CacheKey(req: PageRequest, san: Sanitisers, md5: string -> Md5): Md5 {
    md5(RequestUrl(req, san) + if req.mobile then "mobile" else "desktop")
  }

  /** The exclusion patterns: the values of `exclude_urls` when it is an array. */
  function Patterns(v: Value): (ps: seq<string>)
    ensures Empty(v) ==> ps == []
  {
    if v.Arr? then seq(|v.entries|, i requires 0 <= i < |v.entries| => ToStr(v.entries[i].val)) else []
  }

  /** Some pattern matches the URL. */
  predicate Excluded(patterns: seq<string>, url: string, fnmatch: (string, string) -> bool) {
    exists i | 0 <= i < |patterns| :: fnmatch(patterns[i], url)
  }

  /** `is_excluded_url`: the first matching pattern answers; no pattern, no exclusion. */
  method IsExcludedUrl(options: Value, req: PageRequest, san: Sanitisers, fnmatch: (string, string) -> bool)
    returns (excluded: bool)
    ensures excluded <==> Excluded(Patterns(Get(options, "exclude_urls")), RequestUrl(req, san), fnmatch)
  {
    var v := Get(options, "exclude_urls");
    if Empty(v) {
      return false;
    }
    var url := RequestUrl(req, san);
    if !v.Arr? {
      return false;
    }
    var i := 0;
    while i < |v.entries|
      invariant 0 <= i <= |v.entries|
      invariant forall j | 0 <= j < i :: !fnmatch(Patterns(v)[j], url)
    {
      if fnmatch(ToStr(v.entries[i].val), url) {
        assert fnmatch(Patterns(v)[i], url);
        return true;
      }
      i := i + 1;
    }
    return false;
  }

  /** The checks of `should_cache` other than the one about logged-in users. */
  predicate CommonGates(req: PageRequest, options: Value, san: Sanitisers, fnmatch: (string, string) -> bool) {
    && !(req.isAdmin || req.isFeed || req.isRobots || req.isTrackback)
    && "preview" !in req.query && "s" !in req.query
    && req.requestMethod == Some("GET")
    && !Excluded(Patterns(Get(options, "exclude_urls")), RequestUrl(req, san), fnmatch)
  }

  /**
   * `should_cache` as written: it refuses logged-in users when
   * `cache_logged_in` is on, and lets them through when it is off.
   * `filter` is what the `sso_should_cache` filter makes of `true`.
   */
  function ShouldCacheAsWritten(req: PageRequest, options: Value, san: Sanitisers,
                                fnmatch: (string, string) -> bool, filter: bool): (r: bool)
    ensures r ==> CommonGates(req, options, san, fnmatch)
    ensures r && req.loggedIn ==> Empty(Get(options, "cache_logged_in"))
  {
    if req.isAdmin || req.isFeed || req.isRobots || req.isTrackback then false
    else if "preview" in req.query || "s" in req.query then false
    else if !Empty(Get(options, "cache_logged_in")) && req.loggedIn then false
    else if req.requestMethod != Some("GET") then false
    else if Excluded(Patterns(Get(options, "exclude_urls")), RequestUrl(req, san), fnmatch) then false
    else filter
  }

  /**
   * With the settings as installed (`cache_logged_in` off), a logged-in
   * user's page view is cached under a key shared with every visitor.
   */
  lemma LoggedInCachedByDefault(req: PageRequest, options: Value, san: Sanitisers, fnmatch: (string, string) -> bool)
    requires CommonGates(req, options, san, fnmatch) && req.loggedIn
    requires Get(options, "cache_logged_in") == Bool(false)
    ensures ShouldCacheAsWritten(req, options, san, fnmatch, true)
  {
  }

  /**
   * `should_cache` with the logged-in rule the settings screen describes
   * ("Enable caching for logged-in users"): a logged-in user's page is cached
   * only when `cache_logged_in` is on.
   */
  function ShouldCache(req: PageRequest, options: Value, san: Sanitisers,
                       fnmatch: (string, string) -> bool, filter: bool): (r: bool)
    ensures r ==> CommonGates(req, options, san, fnmatch) && filter
    ensures r && req.loggedIn ==> !Empty(Get(options, "cache_logged_in"))
    ensures CommonGates(req, options, san, fnmatch) && filter && !req.loggedIn ==> r
  {
    if req.isAdmin || req.isFeed || req.isRobots || req.isTrackback then false
    else if "preview" in req.query || "s" in req.query then false
    else if Empty(Get(options, "cache_logged_in")) && req.loggedIn then false
    else if req.requestMethod != Some("GET") then false
    else if Excluded(Patterns(Get(options, "exclude_urls")), RequestUrl(req, san), fnmatch) then false
    else filter
  }

  /** The two versions differ only for logged-in users. */
  lemma ShouldCacheDiffersOnlyWhenLoggedIn(req: PageRequest, options: Value, san: Sanitisers,
                                           fnmatch: (string, string) -> bool, filter: bool)
    requires !req.loggedIn
    ensures ShouldCache(req, options, san, fnmatch, filter) == ShouldCacheAsWritten(req, options, san, fnmatch, filter)
  {
  }

  /** `cache_ttl`, or 3600 seconds when the setting is empty. */
  function Ttl(options: Value): (ttl: int)
    ensures Empty(Get(options, "cache_ttl")) ==> ttl == 3600
    ensures !Empty(Get(options, "cache_ttl")) ==> ttl == IntVal(Get(options, "cache_ttl"))
  {
    var t := Get(options, "cache_ttl");
    if !Empty(t) then IntVal(t) else 3600
  }

  /** The outcome of `serve_cached_page`. */
  datatype Served = Skipped | Hit(content: string) | Miss

  /** A copy is fresh while less than `ttl` seconds old. */
  predicate Fresh(fs: Fs, p: Path, now: int, ttl: int)
    requires p in fs
  {
    now - fs[p].mtime < ttl
  }

  /** What a cacheable request gets from the copy at `p`. */
  function ServeFrom(fs: Fs, p: Path, now: int, ttl: int): (r: Served)
    ensures r.Hit? <==> IsFile(fs, p) && Fresh(fs, p, now, ttl)
    ensures r.Hit? ==> r.content == fs[p].content
    ensures !r.Skipped?
  {
    if p in fs && Fresh(fs, p, now, ttl) && fs[p].File? then Hit(fs[p].content) else Miss
  }

  /** The file system after serving: a stale copy is deleted, nothing else changes. */
  function AfterServe(fs: Fs, p: Path, now: int, ttl: int): (r: Fs)
    ensures IsFile(fs, p) && !Fresh(fs, p, now, ttl) ==> r == fs - {p}
    ensures r == fs || r == fs - {p}
    ensures p in fs && Fresh(fs, p, now, ttl) ==> r == fs
  {
    if p in fs && !Fresh(fs, p, now, ttl) then WpDelete(fs, p) else fs
  }

  /** Output the plugin will store: at least 255 characters (and so not empty). */
  predicate Storable(output: string) {
    !EmptyString(output) && |output| >= 255
  }

  /** The file system after storing `output` at `p`, creating its directory when missing. */
  function Stored(fs: Fs, p: Path, output: string, now: int): Fs
    requires |p| > 0
  {
    var fs1 := if Parent(p) in fs then fs else MkdirP(fs, Parent(p), now);
    PutContents(fs1, p, output, now)
  }

  /** A stored copy is served until it is `ttl` seconds old. */
  lemma StoreThenServe(fs: Fs, p: Path, output: string, now: int, later: int, ttl: int)
    requires |p| > 1 && CanMkdir(fs, Parent(p)) && !IsDir(fs, p)
    requires now <= later < now + ttl
    ensures ServeFrom(Stored(fs, p, output, now), p, later, ttl) == Hit(output)
    ensures AfterServe(Stored(fs, p, output, now), p, later, ttl) == Stored(fs, p, output, now)
  {
    var d := Parent(p);
    var fs1 := if d in fs then fs else MkdirP(fs, d, now);
    assert d in Prefixes(d) by {
      assert d[..|d|] == d;
    }
    assert IsDir(fs1, d);
    if d !in fs {
      forall q | q in Prefixes(d)
        ensures q != p
      {
        var i :| 1 <= i <= |d| && q == d[..i];
      }
      assert !IsDir(fs1, p);
    }
  }

  /** The browser caching of a response: `max-age` and the `Expires` instant. */
  datatype BrowserCache = BrowserCache(maxAge: int, expires: int)

  /**
   * `set_browser_cache_headers`: no headers for admin screens or logged-in
   * users; an hour for the front page and blog home, a day for posts and
   * pages, a year for everything else.
   */
  function BrowserCacheFor(req: PageRequest, now: int): (r: Option<BrowserCache>)
    ensures r.None? <==> req.isAdmin || req.loggedIn
    ensures r.Some? ==> r.value.maxAge > 0 && r.value.expires == now + r.value.maxAge
    ensures r.Some? && (req.frontPage || req.home) ==> r.value.maxAge == 3600
    ensures r.Some? && !(req.frontPage || req.home) && (req.single || req.page) ==> r.value.maxAge == 86400
    ensures r.Some? && !(req.frontPage || req.home || req.single || req.page) ==> r.value.maxAge == 31536000
  {
    if req.isAdmin || req.loggedIn then None
    else
      var maxAge :=
        if req.frontPage || req.home then 3600
        else if req.single || req.page then 86400
        else 31536000;
      Some(BrowserCache(maxAge, now + maxAge))
  }

  function Expiration(r: CacheRow): int { r.expiration }

  class CacheManager {
    const site: Site
    /** The `cache` section of the settings, read when the module is built. */
    const options: Value
    const cacheDir: Path
    const md5: string -> Md5
    const fnmatch: (string, string) -> bool
    const san: Sanitisers

    constructor (site: Site, uploads: Path, md5: string -> Md5, fnmatch: (string, string) -> bool, san: Sanitisers)
      ensures this.site == site && this.md5 == md5 && this.fnmatch == fnmatch && this.san == san
      ensures options == Section(site.options, "cache")
      ensures cacheDir == uploads + ["smartsite-optimizer", "cache"]
    {
      this.site := site;
      this.md5 := md5;
      this.fnmatch := fnmatch;
      this.san := san;
      options := Section(site.options, "cache");
      cacheDir := uploads + ["smartsite-optimizer", "cache"];
    }

    /**
     * `serve_cached_page`: a fresh copy is a hit; a stale one is deleted and
     * the request misses; a request that is not cacheable is left alone.
     */
    method ServeCachedPage(req: PageRequest, filter: bool, now: int) returns (served: Served)
      modifies site`files
      ensures var p := CacheFile(cacheDir, CacheKey(req, san, md5));
        if ShouldCache(req, options, san, fnmatch, filter)
        then served == ServeFrom(old(site.files), p, now, Ttl(options))
          && site.files == AfterServe(old(site.files), p, now, Ttl(options))
        else served == Skipped && site.files == old(site.files)
    {
      if !ShouldCache(req, options, san, fnmatch, filter) {
        return Skipped;
      }
      var key := CacheKey(req, san, md5);
      var file := CacheFile(cacheDir, key);
      if file in site.files {
        var cacheTime := site.files[file].mtime;
        var ttl := Ttl(options);
        if now - cacheTime < ttl {
          if site.files[file].File? {
            return Hit(site.files[file].content);
          }
        } else {
          site.files := WpDelete(site.files, file);
        }
      }
      served := Miss;
    }

    /**
     * `cache_page`: store the captured output of a cacheable request when it
     * is at least 255 characters long, creating the shard directory first.
     */
    method CachePage(req: PageRequest, filter: bool, output: string, now: int)
      modifies site`files
      ensures var p := CacheFile(cacheDir, CacheKey(req, san, md5));
        site.files == if ShouldCache(req, options, san, fnmatch, filter) && Storable(output)
                      then Stored(old(site.files), p, output, now)
                      else old(site.files)
    {
      if !ShouldCache(req, options, san, fnmatch, filter) {
        return;
      }
      if EmptyString(output) || |output| < 255 {
        return;
      }
      var key := CacheKey(req, san, md5);
      var file := CacheFile(cacheDir, key);
      var dir := Parent(file);
      if dir !in site.files {
        site.files := MkdirP(site.files, dir, now);
      }
      site.files := PutContents(site.files, file, output, now);
    }

    /** `clear_post_cache`: delete the desktop and mobile copies of the post's permalink. */
    method ClearPostCache(postId: int, permalink: int -> string)
      modifies site`files
      ensures var desktop := CacheFile(cacheDir, md5(permalink(postId) + "desktop"));
        var mobile := CacheFile(cacheDir, md5(permalink(postId) + "mobile"));
        && site.files.Keys <= old(site.files).Keys
        && old(site.files).Keys - site.files.Keys <= {desktop, mobile}
        && (forall p | p in site.files :: site.files[p] == old(site.files)[p])
        && (IsFile(old(site.files), desktop) ==> desktop !in site.files)
        && (IsFile(old(site.files), mobile) ==> mobile !in site.files)
    {
      var url := permalink(postId);
      var file := CacheFile(cacheDir, md5(url + "desktop"));
      if file in site.files {
        site.files := WpDelete(site.files, file);
      }
      var mobileFile := CacheFile(cacheDir, md5(url + "mobile"));
      if mobileFile in site.files {
        site.files := WpDelete(site.files, mobileFile);
      }
    }

    /** `clear_expired_cache`: keep exactly the rows that have not expired. */
    method ClearExpiredCache(now: int)
      modifies site`cacheRows
      ensures site.cacheRows == KeepSince(old(site.cacheRows), Expiration, now)
      ensures forall r :: r in site.cacheRows <==> r in old(site.cacheRows) && r.expiration >= now
    {
      site.cacheRows := KeepSince(site.cacheRows, Expiration, now);
    }

    /**
     * `delete_directory_contents`: walk the entries `dirlist` shows (no
     * dot-names), deleting each file except `.htaccess` and removing each
     * subdirectory that ends up empty.
     */
    method DeleteDirectoryContents(dir: Path)
      requires WellFormed(site.files)
      modifies site`files
      ensures site.files == Cleared(old(site.files), dir)
      ensures WellFormed(site.files)
      decreases Under(site.files, dir)
    {
      if !IsDir(site.files, dir) {
        return;
      }
      var listing := site.files;
      var names := Listed(listing, dir);
      var todo := names;
      PartialNone(listing, dir);
      assert names - todo == {};
      while todo != {}
        invariant todo <= names
        invariant site.files == Partial(listing, dir, names - todo)
        decreases todo
      {
        var name :| name in todo;
        var done := names - todo;
        var path := dir + [name];
        ListedPath(listing, dir, name);
        if listing[path].Dir? {
          ghost var before := site.files;
          PartialWellFormed(listing, dir, done);
          WalkShrinks(listing, dir, done, name);
          DeleteDirectoryContents(path);
          assert site.files == Cleared(before, path);
          site.files := RemoveDir(site.files, path);
          StepDir(listing, dir, done, name);
        } else if name != Htaccess {
          site.files := WpDelete(site.files, path);
          StepFile(listing, dir, done, name);
        }
        todo := todo - {name};
        assert names - todo == done + {name};
      }
      assert names - todo == names;
      PartialComplete(listing, dir);
      PartialWellFormed(listing, dir, names);
    }

    /** `clear_all_cache`: both cache directories, the cache table and the object cache. */
    method ClearAllCache()
      requires WellFormed(site.files)
      modifies site`files, site`cacheRows, site`objectCache
      ensures site.files == Cleared(Cleared(old(site.files), cacheDir + ["pages"]), cacheDir + ["objects"])
      ensures site.cacheRows == [] && site.objectCache == map[]
    {
      DeleteDirectoryContents(cacheDir + ["pages"]);
      DeleteDirectoryContents(cacheDir + ["objects"]);
      site.cacheRows := [];
      site.objectCache := map[];
    }
  }
}
