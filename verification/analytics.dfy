/**
 * The analytics module: the web-vitals score, the rows the tracking
 * endpoints add to `sso_analytics` and `sso_web_vitals`, the retention
 * clean-up, and the object-cache keys of the dashboard getters.
 *
 * LCP, FID, TTFB and FCP are whole milliseconds and CLS is counted in
 * ten-thousandths, so the CLS limits 0.1 and 0.25 are 1000 and 2500.
 */
module Analytics {
  import opened Wrappers
  import opened Strings
  import opened Php
  import opened Host

  /**
   * `$v > $limit`. PHP compares `null` with a number as booleans
   * (`false > true`), so a vital that was not sent never exceeds a limit.
   */
  predicate Exceeds(v: Option<int>, limit: int) {
    v.Some? && v.value > limit
  }

  /**
   * The score of a page view: 100, less 40 when LCP is over 2.5 s, 20 when
   * FID is over 100 ms and 20 when CLS is over 0.1.
   */
  function PerformanceScore(lcp: Option<int>, fid: Option<int>, cls: Option<int>): (score: int)
    ensures 20 <= score <= 100 && score % 20 == 0
    ensures score == 100 <==> !Exceeds(lcp, 2500) && !Exceeds(fid, 100) && !Exceeds(cls, 1000)
    ensures score == 20 <==> Exceeds(lcp, 2500) && Exceeds(fid, 100) && Exceeds(cls, 1000)
  {
    100 - (if Exceeds(lcp, 2500) then 40 else 0)
        - (if Exceeds(fid, 100) then 20 else 0)
        - (if Exceeds(cls, 1000) then 20 else 0)
  }

  /**
   * The score as the plugin computes it, with its `elseif` branches for the
   * "poor" limits (4 s, 300 ms, 0.25): they can never run, because a value
   * over the poor limit is already over the good one.
   */
  method CalculatePerformanceScore(lcp: Option<int>, fid: Option<int>, cls: Option<int>) returns (score: int)
    ensures score == PerformanceScore(lcp, fid, cls)
  {
    score := 100;
    if Exceeds(lcp, 2500) {
      score := score - 40;
    } else if Exceeds(lcp, 4000) {
      assert false;
    }
    if Exceeds(fid, 100) {
      score := score - 20;
    } else if Exceeds(fid, 300) {
      assert false;
    }
    if Exceeds(cls, 1000) {
      score := score - 20;
    } else if Exceeds(cls, 2500) {
      assert false;
    }
    if score < 0 {
      score := 0;
    }
  }

  /** `a` is no worse than `b`: not sent, or sent and not larger. */
  predicate NoWorse(a: Option<int>, b: Option<int>) {
    a.None? || (b.Some? && a.value <= b.value)
  }

  /** A worse vital never raises the score. */
  lemma ScoreMonotone(lcp: Option<int>, fid: Option<int>, cls: Option<int>,
                      lcp': Option<int>, fid': Option<int>, cls': Option<int>)
    requires NoWorse(lcp, lcp') && NoWorse(fid, fid') && NoWorse(cls, cls')
    ensures PerformanceScore(lcp', fid', cls') <= PerformanceScore(lcp, fid, cls)
  {
  }

  /**
   * The visitor's address: the Client-IP header if sent, else
   * X-Forwarded-For, else the socket address, else `''`.
   */
  function UserIp(server: map<string, string>, san: Sanitisers): (ip: string)
    ensures "HTTP_CLIENT_IP" in server ==> ip == san.textField(server["HTTP_CLIENT_IP"])
    ensures "HTTP_CLIENT_IP" !in server && "HTTP_X_FORWARDED_FOR" in server ==>
      ip == san.textField(server["HTTP_X_FORWARDED_FOR"])
    ensures "HTTP_CLIENT_IP" !in server && "HTTP_X_FORWARDED_FOR" !in server && "REMOTE_ADDR" in server ==>
      ip == san.textField(server["REMOTE_ADDR"])
    ensures "HTTP_CLIENT_IP" !in server && "HTTP_X_FORWARDED_FOR" !in server && "REMOTE_ADDR" !in server ==>
      ip == ""
  {
    if "HTTP_CLIENT_IP" in server then san.textField(server["HTTP_CLIENT_IP"])
    else if "HTTP_X_FORWARDED_FOR" in server then san.textField(server["HTTP_X_FORWARDED_FOR"])
    else if "REMOTE_ADDR" in server then san.textField(server["REMOTE_ADDR"])
    else ""
  }

  /** `floatval` of a posted field, in the unit the model uses for it. */
  datatype Numbers = Numbers(
    floatval: string -> real,
    millis: string -> int,
    tenThousandths: string -> int)

  /** A posted text field through `sanitize_text_field`, `''` when absent. */
  function TextField(req: Request, san: Sanitisers, name: string): string {
    if name in req.post then san.textField(req.post[name]) else ""
  }

  /** The posted `page_url` through `esc_url_raw`, `''` when absent. */
  function PageUrl(req: Request, san: Sanitisers): string {
    if "page_url" in req.post then san.urlRaw(req.post["page_url"]) else ""
  }

  /** A posted vital, or `null` when it was not sent. */
  function Vital(req: Request, name: string, parse: string -> int): Option<int> {
    if name in req.post then Some(parse(req.post[name])) else None
  }

  /** The row `track_metric` inserts, stamped with `current_time('mysql')`, the site's local time. */
  function MetricRow(req: Request, san: Sanitisers, nums: Numbers, localNow: int): AnalyticsRow {
    AnalyticsRow(
      PageUrl(req, san),
      TextField(req, san, "metric_type"),
      if "metric_value" in req.post then nums.floatval(req.post["metric_value"]) else 0.0,
      Some(if "HTTP_USER_AGENT" in req.server then san.textField(req.server["HTTP_USER_AGENT"]) else ""),
      Some(UserIp(req.server, san)),
      localNow)
  }

  /** The row `track_web_vitals` inserts, stamped with the site's local time. */
  function VitalsRowOf(req: Request, san: Sanitisers, nums: Numbers, localNow: int): (row: VitalsRow)
    ensures row.score == PerformanceScore(row.lcp, row.fid, row.cls)
    ensures row.deviceType == (if req.mobile then "mobile" else "desktop")
  {
    var lcp := Vital(req, "lcp", nums.millis);
    var fid := Vital(req, "fid", nums.millis);
    var cls := Vital(req, "cls", nums.tenThousandths);
    VitalsRow(
      PageUrl(req, san), lcp, fid, cls,
      Vital(req, "ttfb", nums.millis), Vital(req, "fcp", nums.millis),
      PerformanceScore(lcp, fid, cls),
      if req.mobile then "mobile" else "desktop",
      localNow)
  }

  const EventPrefix := "custom_event_"

  /** The row `track_event` inserts for a custom event, stamped with the site's local time. */
  function EventRow(name: string, data: Value, floatval: Value -> real, localNow: int): (row: AnalyticsRow)
    ensures StartsWith(row.metricType, EventPrefix) && row.metricType[|EventPrefix|..] == name
    ensures IsSet(data, "url") ==> row.pageUrl == ToStr(Get(data, "url"))
    ensures !IsSet(data, "url") ==> row.pageUrl == ""
    ensures IsSet(data, "value") ==> row.metricValue == floatval(Get(data, "value"))
    ensures !IsSet(data, "value") ==> row.metricValue == 1.0
    ensures row.userAgent.None? && row.ipAddress.None? && row.createdAt == localNow
  {
    AnalyticsRow(
      if IsSet(data, "url") then ToStr(Get(data, "url")) else "",
      EventPrefix + name,
      if IsSet(data, "value") then floatval(Get(data, "value")) else 1.0,
      None, None, localNow)
  }

  /** `retention_days`, or 90 when the setting is empty. */
  function RetentionDays(options: Value): (days: int)
    ensures Empty(Get(options, "retention_days")) ==> days == 90
    ensures !Empty(Get(options, "retention_days")) ==> days == IntVal(Get(options, "retention_days"))
  {
    var d := Get(options, "retention_days");
    if !Empty(d) then IntVal(d) else 90
  }

  /**
   * `DATE_SUB(NOW(), INTERVAL days DAY)`, in seconds. `NOW()` is the database
   * server's clock `dbNow`, while rows carry the site's local time.
   */
  function Cutoff(dbNow: int, days: int): int {
    dbNow - days * 86400
  }

  function AnalyticsTime(r: AnalyticsRow): int { r.createdAt }

  function VitalsTime(r: VitalsRow): int { r.createdAt }

  const DataKeyPrefix := "sso_analytics_data_"
  const TopKeyPrefix := "sso_top_pages_"

  /** The object-cache key of `get_analytics_data($page_url, $days)`. */
  function AnalyticsDataKey(md5: string -> Md5, pageUrl: string, days: int): (key: string)
    ensures StartsWith(key, DataKeyPrefix) && |key| == |DataKeyPrefix| + 32
  {
    DataKeyPrefix + md5(pageUrl + "_" + IntToDecimal(days))
  }

  /** The object-cache key of `get_top_pages($limit)`. */
  function TopPagesKey(limit: int): (key: string)
    ensures StartsWith(key, TopKeyPrefix) && |key| > |TopKeyPrefix|
  {
    TopKeyPrefix + IntToDecimal(limit)
  }

  /** The keys the clean-up deletes are never keys the getters store. */
  lemma CleanupKeysNeverStored(md5: string -> Md5, pageUrl: string, days: int, limit: int)
    ensures AnalyticsDataKey(md5, pageUrl, days) != DataKeyPrefix
    ensures AnalyticsDataKey(md5, pageUrl, days) != TopKeyPrefix
    ensures TopPagesKey(limit) != DataKeyPrefix && TopPagesKey(limit) != TopKeyPrefix
  {
    assert TopPagesKey(limit)[4] == 't' != DataKeyPrefix[4];
  }

  /** Deleting the two bare prefixes leaves every cached getter result in place. */
  lemma PrefixDeleteKeepsGetters(md5: string -> Md5, cache: map<(string, string), Value>)
    ensures forall pageUrl, days :: CacheHit(cache, ("sso", AnalyticsDataKey(md5, pageUrl, days))) ==>
      CacheHit(cache - {("sso", DataKeyPrefix), ("sso", TopKeyPrefix)}, ("sso", AnalyticsDataKey(md5, pageUrl, days)))
    ensures forall limit :: CacheHit(cache, ("sso", TopPagesKey(limit))) ==>
      CacheHit(cache - {("sso", DataKeyPrefix), ("sso", TopKeyPrefix)}, ("sso", TopPagesKey(limit)))
  {
    forall pageUrl, days {
      CleanupKeysNeverStored(md5, pageUrl, days, 0);
    }
    forall limit {
      CleanupKeysNeverStored(md5, "", 0, limit);
    }
  }

  /** Whether a cache key belongs to one of the dashboard getters. */
  predicate GetterKey(key: (string, string)) {
    key.0 == "sso" && (StartsWith(key.1, DataKeyPrefix) || StartsWith(key.1, TopKeyPrefix))
  }

  /** `wp_cache_get` hits unless the key is absent or holds `false`. */
  predicate CacheHit(cache: map<(string, string), Value>, key: (string, string)) {
    key in cache && cache[key] != Bool(false)
  }

  class Analytics {
    const site: Site
    /** The `analytics` section of the settings, read when the module is built. */
    const options: Value
    const md5: string -> Md5

    constructor (site: Site, md5: string -> Md5)
      ensures this.site == site && this.md5 == md5
      ensures options == Section(site.options, "analytics")
    {
      this.site := site;
      this.md5 := md5;
      options := Section(site.options, "analytics");
    }

    /** The `sso_track_metric` endpoint. */
    method TrackMetric(req: Request, san: Sanitisers, nums: Numbers, insertOk: bool, localNow: int) returns (reply: Reply)
      modifies site`analyticsRows
      ensures !req.nonceOk ==> reply == Forbidden && site.analyticsRows == old(site.analyticsRows)
      ensures req.nonceOk && (EmptyString(TextField(req, san, "metric_type")) || EmptyString(PageUrl(req, san))) ==>
        reply == Error("Invalid parameters") && site.analyticsRows == old(site.analyticsRows)
      ensures site.analyticsRows ==
        old(site.analyticsRows) + (if reply == Success("Metric tracked") then [MetricRow(req, san, nums, localNow)] else [])
      ensures reply == Success("Metric tracked") <==>
        req.nonceOk && insertOk && !EmptyString(TextField(req, san, "metric_type")) && !EmptyString(PageUrl(req, san))
    {
      if !req.nonceOk {
        return Forbidden;
      }
      var metricType := TextField(req, san, "metric_type");
      var pageUrl := PageUrl(req, san);
      if EmptyString(metricType) || EmptyString(pageUrl) {
        return Error("Invalid parameters");
      }
      if insertOk {
        site.analyticsRows := site.analyticsRows + [MetricRow(req, san, nums, localNow)];
        reply := Success("Metric tracked");
      } else {
        reply := Error("Failed to track metric");
      }
    }

    /** The `sso_track_web_vitals` endpoint. */
    method TrackWebVitals(req: Request, san: Sanitisers, nums: Numbers, insertOk: bool, localNow: int) returns (reply: Reply)
      modifies site`vitalsRows
      ensures !req.nonceOk ==> reply == Forbidden && site.vitalsRows == old(site.vitalsRows)
      ensures req.nonceOk && EmptyString(PageUrl(req, san)) ==>
        reply == Error("Invalid parameters") && site.vitalsRows == old(site.vitalsRows)
      ensures site.vitalsRows ==
        old(site.vitalsRows) + (if reply == Success("Web vitals tracked") then [VitalsRowOf(req, san, nums, localNow)] else [])
      ensures reply == Success("Web vitals tracked") <==> req.nonceOk && insertOk && !EmptyString(PageUrl(req, san))
    {
      if !req.nonceOk {
        return Forbidden;
      }
      var pageUrl := PageUrl(req, san);
      var lcp := Vital(req, "lcp", nums.millis);
      var fid := Vital(req, "fid", nums.millis);
      var cls := Vital(req, "cls", nums.tenThousandths);
      if EmptyString(pageUrl) {
        return Error("Invalid parameters");
      }
      var score := CalculatePerformanceScore(lcp, fid, cls);
      var device := if req.mobile then "mobile" else "desktop";
      if insertOk {
        var row := VitalsRow(pageUrl, lcp, fid, cls, Vital(req, "ttfb", nums.millis), Vital(req, "fcp", nums.millis),
                             score, device, localNow);
        site.vitalsRows := site.vitalsRows + [row];
        reply := Success("Web vitals tracked");
      } else {
        reply := Error("Failed to track web vitals");
      }
    }

    /** The public `track_event` API: one row per event; true iff it was stored. */
    method TrackEvent(name: string, data: Value, floatval: Value -> real, insertOk: bool, localNow: int) returns (ok: bool)
      modifies site`analyticsRows
      ensures ok == insertOk
      ensures site.analyticsRows == old(site.analyticsRows) + (if ok then [EventRow(name, data, floatval, localNow)] else [])
    {
      if insertOk {
        site.analyticsRows := site.analyticsRows + [EventRow(name, data, floatval, localNow)];
      }
      ok := insertOk;
    }

    /**
     * `get_analytics_data`: the cached result when there is one, otherwise
     * the query's result, which is then cached. The query itself (SQL
     * averages per day) is the parameter `results`.
     */
    method GetAnalyticsData(pageUrl: string, days: int, results: Value) returns (data: Value)
      modifies site`objectCache
      ensures var key := ("sso", AnalyticsDataKey(md5, pageUrl, days));
        if CacheHit(old(site.objectCache), key)
        then data == old(site.objectCache)[key] && site.objectCache == old(site.objectCache)
        else data == results && site.objectCache == old(site.objectCache)[key := results]
    {
      var key := ("sso", AnalyticsDataKey(md5, pageUrl, days));
      if CacheHit(site.objectCache, key) {
        return site.objectCache[key];
      }
      data := results;
      site.objectCache := site.objectCache[key := data];
    }

    /** `get_top_pages`, cached like `get_analytics_data`. */
    method GetTopPages(limit: int, results: Value) returns (data: Value)
      modifies site`objectCache
      ensures var key := ("sso", TopPagesKey(limit));
        if CacheHit(old(site.objectCache), key)
        then data == old(site.objectCache)[key] && site.objectCache == old(site.objectCache)
        else data == results && site.objectCache == old(site.objectCache)[key := results]
    {
      var key := ("sso", TopPagesKey(limit));
      if CacheHit(site.objectCache, key) {
        return site.objectCache[key];
      }
      data := results;
      site.objectCache := site.objectCache[key := data];
    }

    /**
     * `cleanup_old_data` as written: drops the rows older than the retention
     * period from both tables, then deletes the two bare prefixes from the
     * object cache, which leaves every cached getter result in place.
     */
    method CleanupOldDataAsWritten(dbNow: int)
      modifies site`analyticsRows, site`vitalsRows, site`objectCache
      ensures site.analyticsRows == KeepSince(old(site.analyticsRows), AnalyticsTime, Cutoff(dbNow, RetentionDays(options)))
      ensures site.vitalsRows == KeepSince(old(site.vitalsRows), VitalsTime, Cutoff(dbNow, RetentionDays(options)))
      ensures site.objectCache == old(site.objectCache) - {("sso", DataKeyPrefix), ("sso", TopKeyPrefix)}
      ensures forall pageUrl, days :: CacheHit(old(site.objectCache), ("sso", AnalyticsDataKey(md5, pageUrl, days))) ==>
        CacheHit(site.objectCache, ("sso", AnalyticsDataKey(md5, pageUrl, days)))
      ensures forall limit :: CacheHit(old(site.objectCache), ("sso", TopPagesKey(limit))) ==>
        CacheHit(site.objectCache, ("sso", TopPagesKey(limit)))
    {
      var cutoff := Cutoff(dbNow, RetentionDays(options));
      PrefixDeleteKeepsGetters(md5, site.objectCache);
      site.analyticsRows := KeepSince(site.analyticsRows, AnalyticsTime, cutoff);
      site.vitalsRows := KeepSince(site.vitalsRows, VitalsTime, cutoff);
      site.objectCache := site.objectCache - {("sso", DataKeyPrefix), ("sso", TopKeyPrefix)};
    }

    /**
     * `cleanup_old_data` with the cache invalidation it sets out to do:
     * every cached getter result goes, every other cache entry stays.
     */
    method CleanupOldData(dbNow: int)
      modifies site`analyticsRows, site`vitalsRows, site`objectCache
      ensures site.analyticsRows == KeepSince(old(site.analyticsRows), AnalyticsTime, Cutoff(dbNow, RetentionDays(options)))
      ensures site.vitalsRows == KeepSince(old(site.vitalsRows), VitalsTime, Cutoff(dbNow, RetentionDays(options)))
      ensures forall key :: key in site.objectCache <==> key in old(site.objectCache) && !GetterKey(key)
      ensures forall key | key in site.objectCache :: site.objectCache[key] == old(site.objectCache)[key]
      ensures forall pageUrl, days :: !CacheHit(site.objectCache, ("sso", AnalyticsDataKey(md5, pageUrl, days)))
      ensures forall limit :: !CacheHit(site.objectCache, ("sso", TopPagesKey(limit)))
    {
      var cutoff := Cutoff(dbNow, RetentionDays(options));
      site.analyticsRows := KeepSince(site.analyticsRows, AnalyticsTime, cutoff);
      site.vitalsRows := KeepSince(site.vitalsRows, VitalsTime, cutoff);
      site.objectCache := map key | key in site.objectCache && !GetterKey(key) :: site.objectCache[key];
    }
  }
}
