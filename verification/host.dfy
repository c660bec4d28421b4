/**
 * The parts of the WordPress host the plugin reads and changes, as one
 * mutable `Site`: the file system (as the direct `WP_Filesystem`, `unlink`,
 * `rmdir` and `wp_mkdir_p` see it), the options table, the object cache,
 * the cron queue, the plugin's three database tables, and a journal of the
 * host calls whose effect lies outside this model (rewrite rules, `dbDelta`).
 */
module Host {
  import opened Wrappers
  import opened Php

  /** A file-system path as its segments: `a/b/c.html` is `["a", "b", "c.html"]`. */
  type Path = seq<string>

  datatype Node = File(content: string, mtime: int) | Dir(mtime: int)

  type Fs = map<Path, Node>

  /** What `md5()` returns: 32 lower-case hexadecimal digits. */
  type Md5 = s: string | |s| == 32 && forall i | 0 <= i < |s| :: s[i] in "0123456789abcdef"
    witness "00000000000000000000000000000000"

  function Name(p: Path): string
    requires |p| > 0
  {
    p[|p| - 1]
  }

  function Parent(p: Path): Path
    requires |p| > 0
  {
    p[..|p| - 1]
  }

  /** `is_dir` */
  predicate IsDir(fs: Fs, p: Path) {
    p in fs && fs[p].Dir?
  }

  /** `is_file` */
  predicate IsFile(fs: Fs, p: Path) {
    p in fs && fs[p].File?
  }

  /** `filesize` of a regular file. */
  function Size(fs: Fs, p: Path): nat
    requires IsFile(fs, p)
  {
    |fs[p].content|
  }

  /** Every entry of `fs` strictly inside `dir`, at any depth. */
  function Under(fs: Fs, dir: Path): set<Path> {
    set p | p in fs && dir < p
  }

  /** `unlink` / `wp_delete_file`: removes a regular file, and nothing else. */
  function Unlink(fs: Fs, p: Path): (r: Fs)
    ensures r == if IsFile(fs, p) then fs - {p} else fs
  {
    if IsFile(fs, p) then fs - {p} else fs
  }

  /** `rmdir`: removes a directory only when nothing is left inside it. */
  function RemoveDir(fs: Fs, p: Path): Fs {
    if IsDir(fs, p) && Under(fs, p) == {} then fs - {p} else fs
  }

  /**
   * `WP_Filesystem_Direct::delete($p)` without recursion: unlinks a file,
   * removes an empty directory.
   */
  function WpDelete(fs: Fs, p: Path): (r: Fs)
    ensures r == fs || r == fs - {p}
    ensures IsFile(fs, p) ==> r == fs - {p}
  {
    if IsFile(fs, p) then fs - {p} else RemoveDir(fs, p)
  }

  /**
   * A file system shaped like a tree: every entry below the top level sits
   * in a directory that is itself an entry.
   */
  predicate WellFormed(fs: Fs) {
    forall p | p in fs && |p| > 1 :: IsDir(fs, Parent(p))
  }

  /** Whether `put_contents` / `file_put_contents` can write `p`. */
  predicate Writable(fs: Fs, p: Path) {
    |p| > 0 && IsDir(fs, Parent(p)) && !IsDir(fs, p)
  }

  /** `put_contents` / `file_put_contents`: the file now holds `content`, written at `now`. */
  function PutContents(fs: Fs, p: Path, content: string, now: int): Fs {
    if Writable(fs, p) then fs[p := File(content, now)] else fs
  }

  /** The directories `wp_mkdir_p(p)` needs: every non-empty prefix of `p`. */
  function Prefixes(p: Path): set<Path> {
    set i | 1 <= i <= |p| :: p[..i]
  }

  /** `wp_mkdir_p` fails when a regular file stands where a directory is needed. */
  predicate CanMkdir(fs: Fs, p: Path) {
    forall q | q in Prefixes(p) :: !IsFile(fs, q)
  }

  /** `wp_mkdir_p`: creates every missing directory on the way to `p`. */
  function MkdirP(fs: Fs, p: Path, now: int): (r: Fs)
    ensures CanMkdir(fs, p) ==> IsDir(r, p) || |p| == 0
  {
    if CanMkdir(fs, p) then
      var made := map q | q in Prefixes(p) && q !in fs :: Dir(now);
      if |p| > 0 then
        assert p[..|p|] == p;
        assert p in Prefixes(p);
        fs + made
      else fs + made
    else fs
  }

  /** `rename` / `WP_Filesystem::move` with overwrite. */
  predicate CanMove(fs: Fs, src: Path, dst: Path) {
    IsFile(fs, src) && Writable(fs, dst) && src != dst
  }

  function Move(fs: Fs, src: Path, dst: Path): Fs {
    if CanMove(fs, src, dst) then (fs - {src})[dst := fs[src]] else fs
  }

  /** A scheduled cron event. */
  datatype Event = Event(hook: string, timestamp: int, recurrence: string)

  /** `wp_next_scheduled($hook)`: the first pending event of that hook. */
  function NextScheduled(cron: seq<Event>, hook: string): (r: Option<int>)
    ensures r.None? <==> forall i | 0 <= i < |cron| :: cron[i].hook != hook
  {
    if cron == [] then None
    else if cron[0].hook == hook then Some(cron[0].timestamp)
    else NextScheduled(cron[1..], hook)
  }

  /** `wp_next_scheduled($hook)` is truthy: a pending event with a non-zero timestamp comes first. */
  predicate Scheduled(cron: seq<Event>, hook: string) {
    var t := NextScheduled(cron, hook);
    t.Some? && t.value != 0
  }

  /** `wp_unschedule_event($timestamp, $hook)`: drops one matching event. */
  function Unschedule(cron: seq<Event>, timestamp: int, hook: string): seq<Event> {
    if cron == [] then []
    else if cron[0].hook == hook && cron[0].timestamp == timestamp then cron[1..]
    else [cron[0]] + Unschedule(cron[1..], timestamp, hook)
  }

  /** How many events of `hook` are pending. */
  function Pending(cron: seq<Event>, hook: string): nat {
    if cron == [] then 0
    else (if cron[0].hook == hook then 1 else 0) + Pending(cron[1..], hook)
  }

  /**
   * The rows a `DELETE ... WHERE column < bound` leaves, in their order:
   * exactly those whose column is at least `bound`.
   */
  function KeepSince<R(!new)>(rows: seq<R>, column: R -> int, bound: int): (kept: seq<R>)
    ensures forall r :: r in kept <==> r in rows && column(r) >= bound
    ensures |kept| <= |rows|
  {
    if rows == [] then []
    else (if column(rows[0]) >= bound then [rows[0]] else []) + KeepSince(rows[1..], column, bound)
  }

  /** Host calls whose effects are not otherwise part of the model. */
  datatype HostCall =
    | DbDelta(table: string)
    | AddOption(name: string)
    | UpdateOption(name: string)
    | ScheduleEvent(hook: string)
    | UnscheduleEvent(hook: string)
    | FlushRewriteRules
    | CacheFlush

  /** A row of `{prefix}sso_analytics`. */
  datatype AnalyticsRow = AnalyticsRow(
    pageUrl: string,
    metricType: string,
    metricValue: real,
    userAgent: Option<string>,
    ipAddress: Option<string>,
    createdAt: int)

  /**
   * A row of `{prefix}sso_web_vitals`. LCP, FID, TTFB and FCP are whole
   * milliseconds; CLS is in ten-thousandths (the column is `decimal(10,4)`).
   */
  datatype VitalsRow = VitalsRow(
    pageUrl: string,
    lcp: Option<int>,
    fid: Option<int>,
    cls: Option<int>,
    ttfb: Option<int>,
    fcp: Option<int>,
    score: int,
    deviceType: string,
    createdAt: int)

  /** A row of `{prefix}sso_cache`. */
  datatype CacheRow = CacheRow(cacheKey: string, cacheValue: string, cacheGroup: string, expiration: int)

  /** `add_option`: does nothing when the option already exists. */
  function AddOptionTo(options: map<string, Value>, name: string, v: Value): map<string, Value> {
    if name in options then options else options[name := v]
  }

  /** `get_option($name, array())` */
  function GetOption(options: map<string, Value>, name: string): Value {
    if name in options then options[name] else Arr([])
  }

  /**
   * One module's settings: `$all['section']` of the `sso_options` option,
   * or an empty array when that is not set.
   */
  function Section(options: map<string, Value>, section: string): Value {
    Coalesce(GetOption(options, "sso_options"), section, Arr([]))
  }

  /**
   * An AJAX request: the posted fields, the server variables, whether the
   * nonce checked out, and what `wp_is_mobile()` says about the client.
   */
  datatype Request = Request(post: map<string, string>, server: map<string, string>, nonceOk: bool, mobile: bool)

  /**
   * A front-end page request, as the conditional tags and superglobals
   * describe it: `is_admin()`, `is_feed()`, ..., the names present in
   * `$_GET`, `REQUEST_METHOD` and `REQUEST_URI` when set.
   */
  datatype PageRequest = PageRequest(
    isAdmin: bool, isFeed: bool, isRobots: bool, isTrackback: bool,
    query: set<string>, loggedIn: bool,
    requestMethod: Option<string>, uri: Option<string>, mobile: bool,
    frontPage: bool, home: bool, single: bool, page: bool, archive: bool)

  /**
   * How an AJAX handler ends: `wp_send_json_success` with a message or with
   * an array, `wp_send_json_error`, the `wp_die(-1, 403)` of a failed
   * `check_ajax_referer`, or a PHP fatal error, which sends no JSON at all.
   */
  datatype Reply = Success(message: string) | SuccessData(data: Value) | Error(message: string) | Forbidden | Fatal

  /**
   * The WordPress sanitisers, opaque to the model. Each stands for the
   * sanitiser applied after `wp_unslash`, as the plugin calls them.
   */
  datatype Sanitisers = Sanitisers(textField: string -> string, urlRaw: string -> string)

  class Site {
    var files: Fs
    var options: map<string, Value>
    /** The object cache, keyed by (group, key). */
    var objectCache: map<(string, string), Value>
    var cron: seq<Event>
    var tables: set<string>
    var analyticsRows: seq<AnalyticsRow>
    var vitalsRows: seq<VitalsRow>
    var cacheRows: seq<CacheRow>
    var journal: seq<HostCall>

    constructor (files: Fs, options: map<string, Value>)
      ensures this.files == files && this.options == options
      ensures objectCache == map[] && cron == [] && tables == {}
      ensures analyticsRows == [] && vitalsRows == [] && cacheRows == [] && journal == []
    {
      this.files := files;
      this.options := options;
      objectCache := map[];
      cron := [];
      tables := {};
      analyticsRows := [];
      vitalsRows := [];
      cacheRows := [];
      journal := [];
    }
  }
}
