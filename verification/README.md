# SmartSite Optimizer — a verified model of the plugin core

SmartSite Optimizer is a WordPress performance plugin. Its core has these parts:

- a file-based page cache with browser cache headers;
- rewriting of script, stylesheet, image and iframe tags (defer, print/onload swap, lazy loading);
- an image optimizer that scales, re-encodes and writes WebP copies of uploads;
- a Core Web Vitals collector with a 20–100 performance score;
- a settings sanitiser with a one-click "optimise everything" merge;
- a PSR-4-style class autoloader;
- activation and deactivation routines;
- WP-CLI cache commands.

This project models that core in Dafny and proves what each piece promises.

The WordPress host is one mutable object, `Host.Site`. It holds:

- the filesystem: a map from a path (a sequence of name segments) to a file (content, mtime) or a directory;
- the `wp_options` table, the object cache and the cron queue;
- the three plugin tables;
- a journal of coarse host calls (`dbDelta`, `add_option`, `wp_schedule_event`, `flush_rewrite_rules`, …), so that the order of steps can be stated.

PHP arrays are ordered key/value lists (`Php.Value`). `empty()`, `isset` and `??` follow PHP's rules, including `empty("0")`. `intval` and `absint` read strings as PHP 7.1 and later does on a 64-bit build. They take the numeric prefix after leading white space, including a fraction and an exponent, and truncate it toward zero. The result saturates at `PHP_INT_MIN`/`PHP_INT_MAX`, and a value too large for a double reads as 0.

Host functions whose internals are not plugin logic are parameters of the model:

- `md5`;
- `fnmatch`;
- `sanitize_text_field`, `esc_url_raw`;
- `get_permalink`;
- `version_compare`;
- the GD encoder and decoder;
- the result of each `$wpdb` insert.

Each plugin class that keeps state is a Dafny `class` whose methods update `Host.Site` in place. Each is proved against a specification function. The pure decisions (score, cache path, should-cache gate, tag rewriting, WebP names, sanitisation, class-to-file mapping) are functions with lemmas about them.

Modules follow the plugin's files:

| module | file |
|---|---|
| `Analytics` | `class-analytics.php` |
| `CacheManager` | `class-cache-manager.php` |
| `AssetManager` | `class-asset-manager.php` |
| `ImageOptimizer` | `class-image-optimizer.php` |
| `AdminInit` | `class-admin-init.php` |
| `Autoloader` | `class-autoloader.php` |
| `Activator` | `class-activator.php` |
| `Deactivator` | `class-deactivator.php` |
| `CacheCommand` | `class-cache-command.php` |
| `Plugin` | `smartsite-optimizer.php` |

Supporting modules:

- `Strings`: `str_replace`, `explode`/`implode`, `strtolower`;
- `Php`: arrays and truthiness;
- `Host`: the site and the WordPress filesystem and cron primitives;
- `FileTree`: the specifications of the recursive directory walks;
- `Wrappers`: `Option`.

## Model

| member | source | states |
|---|---|---|
| Analytics.PerformanceScore | src/includes/modules/class-analytics.php:175-197 | The score is a multiple of 20 in [20, 100]. It is 100 exactly when no vital is over its "good" threshold (LCP 2500 ms, FID 100 ms, CLS 0.1). It is 20 exactly when all three are over. |
| Analytics.CalculatePerformanceScore | src/includes/modules/class-analytics.php:175-197 | The step-by-step deduction, with its unreachable "poor" `elseif` branches, computes exactly `PerformanceScore`. So any LCP over 2500 costs 40, and any FID over 100 or CLS over 0.1 costs 20. |
| Analytics.ScoreMonotone | src/includes/modules/class-analytics.php:178-194 | Making any vital worse (or reporting it where it was missing) never raises the score. |
| Analytics.UserIp | src/includes/modules/class-analytics.php:345-357 | The Client-IP header wins, then X-Forwarded-For, then REMOTE_ADDR, otherwise the empty string; each value is sanitised. |
| Analytics.VitalsRowOf | src/includes/modules/class-analytics.php:126-158 | A web-vitals row carries the performance score of its own LCP/FID/CLS. Its device type is `mobile` or `desktop` as the request says. |
| Analytics.EventRow | src/includes/modules/class-analytics.php:373-382 | A custom event row's metric type is `custom_event_` followed by the event name. A set `url` is stored (as a string) as the page URL, else `''`. A set `value` is stored as its `floatval`, else 1. There is no user agent or IP, and the row is stamped with the site's local time `localNow` (`current_time('mysql')`). |
| Analytics.RetentionDays | src/includes/modules/class-analytics.php:312 | Retention is 90 days when the option is empty, else its integer value. |
| Analytics.AnalyticsDataKey | src/includes/modules/class-analytics.php:206-208 | The dashboard cache key is `sso_analytics_data_` followed by a 32-character md5 digest. |
| Analytics.TopPagesKey | src/includes/modules/class-analytics.php:275-277 | The top-pages cache key is `sso_top_pages_` followed by a non-empty decimal limit. |
| Analytics.CleanupKeysNeverStored | src/includes/modules/class-analytics.php:334-335 | No key a getter stores equals either bare prefix that cleanup deletes (the getters' keys are built at lines 207 and 276). |
| Analytics.PrefixDeleteKeepsGetters | src/includes/modules/class-analytics.php:334-335 | Deleting the two bare prefixes from the object cache leaves every cached dashboard and top-pages entry in place. |
| Analytics.Analytics.TrackMetric | src/includes/modules/class-analytics.php:85-118 | A bad nonce is refused with nothing stored. An empty metric type or page URL gives "Invalid parameters" with nothing stored. Success is reported iff the request is valid and the insert succeeded. The table then gains exactly `MetricRow`; on any other reply it is unchanged. |
| Analytics.Analytics.TrackWebVitals | src/includes/modules/class-analytics.php:123-165 | A bad nonce is refused. An empty page URL gives "Invalid parameters" with nothing stored. Success is reported iff the request is valid and the insert succeeded. The vitals table then gains exactly `VitalsRowOf`; on any other reply it is unchanged. |
| Analytics.Analytics.TrackEvent | src/includes/modules/class-analytics.php:366-387 | It returns true iff the insert succeeded. The analytics table then gains exactly `EventRow`, and nothing otherwise. |
| Analytics.Analytics.GetAnalyticsData | src/includes/modules/class-analytics.php:206-267 | A cached value under the md5 key is returned unchanged. Otherwise the fresh results are returned and stored under that key. |
| Analytics.Analytics.GetTopPages | src/includes/modules/class-analytics.php:275-306 | The same read-through caching under `sso_top_pages_<limit>`. |
| Analytics.Analytics.CleanupOldDataAsWritten | src/includes/modules/class-analytics.php:311-338 | Both tables keep exactly the rows not older than the retention cutoff, which is taken on the database clock `dbNow`. The object cache loses only the two bare prefix keys, so every cached getter entry survives (see Findings). |
| Analytics.Analytics.CleanupOldData | src/includes/modules/class-analytics.php:311-338 | Both tables keep exactly the rows not older than the cutoff on the database clock `dbNow`. The object cache loses exactly the getters' `sso_analytics_data_*` / `sso_top_pages_*` entries and keeps every other entry unchanged. |
| CacheManager.CacheFile | src/includes/modules/class-cache-manager.php:240-242 | The cache file lies three levels below the cache directory, under `pages`. It is named `<key>.html`, and its shard directory's two-character name is a prefix of the file name. |
| CacheManager.CacheFileInjective | src/includes/modules/class-cache-manager.php:240-242 | Distinct keys give distinct cache files. |
| CacheManager.CacheFileString | src/includes/modules/class-cache-manager.php:240-242 | Joined with `/`, the path is `cache_dir/pages/<key[0..2]>/<key>.html`. |
| CacheManager.Patterns | src/includes/modules/class-cache-manager.php:207-213 | An empty `exclude_urls` option yields no patterns. |
| CacheManager.IsExcludedUrl | src/includes/modules/class-cache-manager.php:206-220 | The loop with early return answers true iff some pattern `fnmatch`es the request URL. An empty list excludes nothing. |
| CacheManager.ShouldCacheAsWritten | src/includes/modules/class-cache-manager.php:176-199 | The gate as written only caches requests that pass all common gates: GET, no `preview` or `s`, not admin/feed/robots/trackback, not excluded. It refuses a logged-in user exactly when `cache_logged_in` is set (see Findings). |
| CacheManager.LoggedInCachedByDefault | src/includes/modules/class-cache-manager.php:185 | With the default `cache_logged_in = false`, the as-written gate caches a logged-in visitor's page. |
| CacheManager.ShouldCache | src/includes/modules/class-cache-manager.php:176-199 | Caching implies every common gate and the filter hook. A logged-in user is cached only when `cache_logged_in` is set. Every anonymous request that passes the gates is cached. |
| CacheManager.ShouldCacheDiffersOnlyWhenLoggedIn | src/includes/modules/class-cache-manager.php:185 | For anonymous visitors the corrected and as-written gates agree. |
| CacheManager.Ttl | src/includes/modules/class-cache-manager.php:106 | The TTL is 3600 seconds when the option is empty, otherwise the option's integer value. |
| CacheManager.ServeFrom | src/includes/modules/class-cache-manager.php:104-118 | A request hits iff the cache file exists and `now - mtime < ttl`, and a hit returns the file's content. |
| CacheManager.AfterServe | src/includes/modules/class-cache-manager.php:104-121 | An existing stale file is deleted. A fresh one is left as is. At most the cache file changes. |
| CacheManager.StoreThenServe | src/includes/modules/class-cache-manager.php:104-118 | A page stored at time `now` is served back verbatim at any time before `now + ttl`, and serving it deletes nothing (the file is written by `cache_page`, lines 157-166). |
| CacheManager.BrowserCacheFor | src/includes/modules/class-cache-manager.php:247-262 | No header is sent iff the user is in admin or logged in. Otherwise `max-age` is 3600 for front/home, 86400 for single/page and 31536000 for anything else, and `Expires` is now plus `max-age`. |
| CacheManager.CacheManager.constructor | src/includes/modules/class-cache-manager.php:46-51 | The manager reads the `cache` settings section and places its directory at `uploads/smartsite-optimizer/cache`. |
| CacheManager.CacheManager.ServeCachedPage | src/includes/modules/class-cache-manager.php:96-125 | A request the corrected gate `ShouldCache` refuses is skipped with the files untouched. Otherwise the reply is `ServeFrom` and the filesystem becomes `AfterServe` for the request's cache file. The gate is the corrected one of Finding 2, so a logged-in request with `cache_logged_in` off is skipped here, where the source serves it (see Left out). |
| CacheManager.CacheManager.CachePage | src/includes/modules/class-cache-manager.php:141-169 | Output is written to the request's cache file (creating its shard directory) only when the corrected gate `ShouldCache` admits the request and the output is at least 255 characters. Otherwise nothing changes. As with `ServeCachedPage`, the source also stores logged-in pages with `cache_logged_in` off (see Left out). |
| CacheManager.CacheManager.ClearPostCache | src/includes/modules/class-cache-manager.php:269-286 | Only the desktop and mobile cache files of the post's permalink may disappear, and each does if it was a file. Every other entry is unchanged. |
| CacheManager.CacheManager.ClearExpiredCache | src/includes/modules/class-cache-manager.php:308-321 | The cache table keeps exactly the rows whose expiration is not before now, in order. |
| CacheManager.CacheManager.DeleteDirectoryContents | src/includes/modules/class-cache-manager.php:350-374 | The recursive walk over what `dirlist($dir, false, false)` lists (no dot-names, line 355) leaves exactly `Cleared(fs, dir)`. Every entry below `dir` goes unless a step of its path below `dir` is a dot-name, or it is a directory still holding such an entry. The tree stays well formed. |
| CacheManager.CacheManager.ClearAllCache | src/includes/modules/class-cache-manager.php:291-303 | The `pages` and `objects` directories are cleared as `Cleared` says (dot-named entries and what lies below them survive), the cache table is emptied and the object cache is flushed. |
| FileTree.ClearedFile | src/includes/modules/class-cache-manager.php:355-372 | A file below the cleared directory survives exactly when a step of its path below that directory is a dot-name. So every `.htaccess` file survives unchanged, because the listing never shows it; the name test at line 369 never fires. |
| FileTree.ClearedDir | src/includes/modules/class-cache-manager.php:364-368 | A directory below the cleared one is removed exactly when nothing at or below it has a dot-name step, because `rmdir` only removes an empty directory. |
| AssetManager.DeferScripts | src/includes/modules/class-asset-manager.php:104-116 | An excluded handle, a tag that already has `defer` or `async`, or a tag without ` src=` is returned unchanged. Otherwise every ` src=` becomes ` defer src=`, and a tag with ` src=` then contains ` defer src=`. |
| AssetManager.DeferScriptsIdempotent | src/includes/modules/class-asset-manager.php:111-115 | Deferring an already deferred tag changes nothing. |
| AssetManager.DeferScriptsUndo | src/includes/modules/class-asset-manager.php:115 | Turning every ` defer src=` back into ` src=` recovers the original tag, so the rewrite only inserts `defer`. |
| AssetManager.DeferStyles | src/includes/modules/class-asset-manager.php:127-138 | An excluded handle is unchanged. Any other tag becomes the media-swapped tag followed by a `<noscript>` block. |
| AssetManager.DeferStylesFallback | src/includes/modules/class-asset-manager.php:134-135 | The `<noscript>` block holds the original tag with its media attribute restored. |
| AssetManager.DeferStylesNoMedia | src/includes/modules/class-asset-manager.php:134-135 | A tag without the matched media attribute gains only the `<noscript>` copy of itself. |
| AssetManager.FindSrc | src/includes/modules/class-asset-manager.php:242 | The as-written `src` match captures a non-empty, quote-free URL. |
| AssetManager.FindQuotedSrc | src/includes/modules/class-asset-manager.php:242-244 | The corrected match also captures a non-empty URL and includes its closing quote. |
| AssetManager.LazyAttributesAsWritten | src/includes/modules/class-asset-manager.php:226-238 | An element that declines lazy loading (`loading=` present, or a `no-lazy` class) is returned unchanged. |
| AssetManager.LazyAttributesAsWrittenSwap | src/includes/modules/class-asset-manager.php:240-247 | As written, the tag is rebuilt from the case-sensitive `<iframe` test, with `loading="lazy"` appended and the quote-less match replaced. |
| AssetManager.LazyAttributesDoubledQuote | src/includes/modules/class-asset-manager.php:242-244 | For `<img src="x">` the as-written rewrite leaves a stray `"` after the placeholder's `data-src` (see Findings). |
| AssetManager.LazyAttributesUpperCaseIframe | src/includes/modules/class-asset-manager.php:247 | As written, an upper-case `<IFRAME …>` comes back as an `<img>` (see Findings). |
| AssetManager.LazyAttributes | src/includes/modules/class-asset-manager.php:226-248 | A declining element is unchanged. Any other element is rebuilt with the same element name. Without a `src` it gains only `loading="lazy"`. |
| AssetManager.LazyAttributesSwap | src/includes/modules/class-asset-manager.php:240-247 | The matched `src="…"` is replaced by the placeholder plus `data-src`, and `loading="lazy"` is appended. |
| AssetManager.LazyAttributesKeepUrl | src/includes/modules/class-asset-manager.php:242-244 | The original URL survives as `data-src="<url>"`. |
| AssetManager.LazyAttributesSingleQuote | src/includes/modules/class-asset-manager.php:242-244 | For `<img src="x">` the corrected rewrite is well-quoted: the placeholder, then `loading="lazy"`. |
| AssetManager.IframeKept | src/includes/modules/class-asset-manager.php:247 | An iframe stays an iframe whatever its case. |
| AssetManager.LazyAttributesKeepIframe | src/includes/modules/class-asset-manager.php:247 | The upper-case `<IFRAME …>` from the Findings example stays an iframe. |
| AssetManager.TagAt | src/includes/modules/class-asset-manager.php:203-214 | A matched tag starts with the case-insensitive opening and ends at a `>`. |
| AssetManager.ReplaceTagsAbsent | src/includes/modules/class-asset-manager.php:203-214 | Content without the opening (in any case) is not touched by the tag rewrite. |
| AssetManager.AddLazyLoading | src/includes/modules/class-asset-manager.php:198-218 | Feeds and admin pages are unchanged. Otherwise images are rewritten, and iframes too only when `lazy_load_iframes` is set. Each tag is rewritten with the corrected callback `LazyAttributes` of Findings 3 and 4, not the as-written `LazyAttributesAsWritten` (see Left out). |
| AssetManager.AddLazyLoadingNoTags | src/includes/modules/class-asset-manager.php:198-218 | Content without images or iframes is returned unchanged. |
| AssetManager.PageType | src/includes/modules/class-asset-manager.php:178-190 | The type is the first of front_page, single, page and archive that holds, else `default`; each case is stated both ways. |
| ImageOptimizer.TruncDiv | src/includes/modules/class-image-optimizer.php:164-165 | `intval` of an exact quotient truncates toward zero for both signs. |
| ImageOptimizer.SettingDefaults | src/includes/modules/class-image-optimizer.php:159-160 | Unset settings give quality 80 and a 2048 × 2048 bound (quality at line 132). |
| ImageOptimizer.Resize | src/includes/modules/class-image-optimizer.php:159-165 | An image within the bounds keeps its dimensions. |
| ImageOptimizer.ResizeFits | src/includes/modules/class-image-optimizer.php:162-165 | A resized image fits within `max_width` × `max_height`, never grows, and keeps its aspect ratio to within one pixel (one ratio for both sides). |
| ImageOptimizer.ScaleOther | src/includes/modules/class-image-optimizer.php:162-165 | When one side is the binding bound, the other side scaled by the same ratio stays within its bound and its original size. |
| ImageOptimizer.PngLevelRange | src/includes/modules/class-image-optimizer.php:188 | For quality 1–100 the PNG level is `(100 - quality) / 10`, a value in 0–9. |
| ImageOptimizer.PngLevelDefault | src/includes/modules/class-image-optimizer.php:188 | The default quality 80 gives PNG level 2. |
| ImageOptimizer.EncodingFor | src/includes/modules/class-image-optimizer.php:183-194 | Only JPEG, PNG and GIF images are re-encoded. |
| ImageOptimizer.TempFile | src/includes/modules/class-image-optimizer.php:181 | The temp file sits beside the original and differs from it. |
| ImageOptimizer.OptimizeKeepsSmaller | src/includes/modules/class-image-optimizer.php:126-239 | A success means the original was replaced by a strictly smaller file and no temp file remains. On failure the original is intact. No other path changes. |
| ImageOptimizer.OptimizeDiscardsLarger | src/includes/modules/class-image-optimizer.php:198-213 | A re-encoding that is not smaller is deleted, and the function reports failure. |
| ImageOptimizer.WebpName | src/includes/modules/class-image-optimizer.php:270 | A name without a trailing `.jpg`/`.jpeg`/`.png` (any case) is unchanged. |
| ImageOptimizer.WebpNameEnds | src/includes/modules/class-image-optimizer.php:270 | A name with one of those endings ends in `.webp` afterwards. |
| ImageOptimizer.WebpNameIdempotent | src/includes/modules/class-image-optimizer.php:300-303 | Rewriting twice is the same as once. |
| ImageOptimizer.NewlineRewriteFinal | src/includes/modules/class-image-optimizer.php:270 | The `$` anchor also accepts a final newline. A name rewritten that way has no image ending left. |
| ImageOptimizer.WebpPath | src/includes/modules/class-image-optimizer.php:270 | The WebP copy lives in the same directory as the image. |
| ImageOptimizer.MaybeServeWebp | src/includes/modules/class-image-optimizer.php:290-322 | In admin, without `image/webp` in Accept, or for an unknown attachment, the URL is unchanged. Otherwise it is either unchanged or its WebP name, and the latter only when the `.webp` file exists. |
| ImageOptimizer.MaybeServeWebpPlain | src/includes/modules/class-image-optimizer.php:290-307 | A URL without an image ending is never rewritten. |
| ImageOptimizer.CreateWebpAsWritten | src/includes/modules/class-image-optimizer.php:247-281 | A success leaves a file at the computed WebP path. |
| ImageOptimizer.CreateWebpOverwritesJpe | src/includes/modules/class-image-optimizer.php:270-273 | For `photo.jpe` the WebP path equals the original path, so the JPEG is overwritten by WebP data (see Findings). |
| ImageOptimizer.CreateWebp | src/includes/modules/class-image-optimizer.php:247-281 | A success writes only the WebP path, which differs from the image. A failure changes nothing. The original image is never altered. |
| ImageOptimizer.ImageOptimizer.OptimizeImage | src/includes/modules/class-image-optimizer.php:126-239 | The new filesystem and result are exactly those of `Optimize`. |
| ImageOptimizer.ImageOptimizer.CreateWebpVersion | src/includes/modules/class-image-optimizer.php:247-281 | The new filesystem and result are exactly those of the corrected `CreateWebp` of Finding 5: a file whose WebP path is its own name (`.jpe`) is refused, where the source overwrites it (see Left out). |
| ImageOptimizer.ImageOptimizer.OptimizeOnUpload | src/includes/modules/class-image-optimizer.php:69-85 | The upload array is returned unchanged. An upload without a file or of an unsupported type touches nothing. Otherwise the image is optimised, then converted to WebP with the corrected `CreateWebp` only if that succeeded and conversion is enabled. |
| ImageOptimizer.ImageOptimizer.BulkOptimize | src/includes/modules/class-image-optimizer.php:341-370 | success + failed + skipped equals the number of ids, and every id without an attached file counts as skipped. |
| ImageOptimizer.UnattachedAppend | src/includes/modules/class-image-optimizer.php:349-353 | The count of unattached ids grows by one exactly for an appended unattached id. |
| AdminInit.Flag | src/admin/class-admin-init.php:169-215 | A sanitised flag is the boolean `!empty(field)`. |
| AdminInit.Number | src/admin/class-admin-init.php:205-207 | A sanitised number is a non-negative integer. It is the default when the field is unset, else `absint` of it (likewise lines 172 and 182). |
| AdminInit.KeepNonEmptyMembers | src/admin/class-admin-init.php:232-237 | The filtered list holds exactly the non-empty entries. |
| AdminInit.KeepNonEmptyAll | src/admin/class-admin-init.php:232-237 | A list with no empty entry is kept whole and in order. |
| AdminInit.KeepCleanTexts | src/admin/class-admin-init.php:231-239 | The loop keeps the sanitised entries that are non-empty, in order. The list never grows. |
| AdminInit.SanitizeUrlPatternsAsWritten | src/admin/class-admin-init.php:226-240 | Non-array input gives `[]`. An array gives its sanitised non-empty entries in order. |
| AdminInit.TextareaPatternsDropped | src/admin/class-admin-init.php:226-229 | A textarea string with a usable pattern is wiped to `[]` as written, but kept by the corrected sanitiser. The textarea is at src/templates/admin/cache.php line 67 (see Findings). |
| AdminInit.SanitizeUrlPatterns | src/admin/class-admin-init.php:226-240 | The corrected sanitiser behaves as written on arrays, and also splits a textarea string into lines. |
| AdminInit.PatternsRoundTrip | src/admin/class-admin-init.php:226-240 | Patterns shown one per line in the textarea and saved back come out as the same list. |
| AdminInit.SanitizeUrls | src/admin/class-admin-init.php:248-262 | Non-array input gives `[]`. An array gives its `esc_url_raw` results that are non-empty, in order. |
| AdminInit.SanitizeOptionsFlags | src/admin/class-admin-init.php:212-215 | Each `disable_*` key is always output, as `!empty(input[key])`. |
| AdminInit.SanitizeOptionsSection | src/admin/class-admin-init.php:167-209 | A section appears in the output iff the input section is an array, and then holds its sanitised fields. The cache section's `exclude_urls` goes through the corrected sanitiser of Finding 6, so a posted textarea string is kept as lines where the source stores `[]` (see Left out). |
| AdminInit.SanitizeOptionsKeys | src/admin/class-admin-init.php:163-218 | The output has no keys other than the four sections and the four flags. |
| AdminInit.SanitizedField | src/admin/class-admin-init.php:167-209 | Every field of a sanitised section can be read back from the output; the cache section's `exclude_urls` is the corrected sanitiser's result. |
| AdminInit.SanitizedDefaults | src/admin/class-admin-init.php:172-207 | Missing numbers default to retention 90, TTL 3600, quality 80 and 2048 × 2048. |
| AdminInit.SavedRetention | src/admin/class-admin-init.php:172 | A saved non-negative retention survives sanitising. |
| AdminInit.SavedCacheTtl | src/admin/class-admin-init.php:182 | A saved non-negative TTL survives sanitising. |
| AdminInit.SavedImageNumber | src/admin/class-admin-init.php:205-207 | Saved non-negative quality, width and height survive sanitising. |
| AdminInit.ReplaceSets | src/admin/class-admin-init.php:362 | The recursive replace sets every listed key to the merge of its old and new values. |
| AdminInit.ReplaceKeeps | src/admin/class-admin-init.php:362 | The recursive replace keeps the value of every unlisted key. |
| AdminInit.MergedListed | src/admin/class-admin-init.php:362 | A listed scalar overwrites the old value. |
| AdminInit.MergedOther | src/admin/class-admin-init.php:362 | An unlisted key keeps its old value. |
| AdminInit.OneClickMerge | src/admin/class-admin-init.php:338-362 | Each section of the merged options is the old section merged with the one-click values. |
| AdminInit.OneClickSaveStores | src/admin/class-admin-init.php:336-363 | Saving fails only when the stored option is not an array (a PHP fatal error). Otherwise it stores the sanitised merge. |
| AdminInit.OneClickAnalyticsOn | src/admin/class-admin-init.php:339-343 | After one-click, analytics, web-vitals and behaviour tracking are on. |
| AdminInit.OneClickCacheOn | src/admin/class-admin-init.php:344-348 | After one-click, the page cache and browser cache are on. |
| AdminInit.OneClickCacheTtl | src/admin/class-admin-init.php:347 | After one-click, the TTL is 3600. |
| AdminInit.OneClickDeferOn | src/admin/class-admin-init.php:349-351 | After one-click, JS and CSS deferral are on. |
| AdminInit.OneClickLazyImagesOn | src/admin/class-admin-init.php:352-353 | After one-click, image lazy loading and font-display swap are on. |
| AdminInit.OneClickImagesOn | src/admin/class-admin-init.php:356-357 | After one-click, auto-optimise and WebP conversion are on. |
| AdminInit.OneClickQuality | src/admin/class-admin-init.php:358 | After one-click, compression quality is 85. |
| AdminInit.OneClickKeepsAnalytics | src/admin/class-admin-init.php:338-363 | One-click keeps the saved retention (sanitised). |
| AdminInit.OneClickKeepsCache | src/admin/class-admin-init.php:338-363 | One-click keeps the saved `cache_logged_in`, and the saved `exclude_urls` through the corrected sanitiser of Finding 6. |
| AdminInit.OneClickKeepsAssets | src/admin/class-admin-init.php:338-363 | One-click keeps the saved `critical_css` and `lazy_load_iframes`. |
| AdminInit.OneClickKeepsFonts | src/admin/class-admin-init.php:338-363 | One-click keeps the saved `preload_fonts`. |
| AdminInit.OneClickKeepsImages | src/admin/class-admin-init.php:338-363 | One-click keeps the saved maximum width and height. |
| AdminInit.PluginScreensEnqueue | src/admin/class-admin-init.php:105-108 | Every plugin admin screen's hook passes the enqueue guard. |
| AdminInit.OtherScreensSkip | src/admin/class-admin-init.php:105-108 | A hook in which no `-` follows an `o` or an `e` enqueues nothing, since both needles (`sso-`, `smartsite-optimizer`) contain such a pair. |
| AdminInit.CoreScreensSkip | src/admin/class-admin-init.php:105-108 | The dashboard (`index.php`), plugins (`plugins.php`), media (`upload.php`) and posts (`edit.php`) screens enqueue nothing. |
| AdminInit.GeneralScreenSkip | src/admin/class-admin-init.php:105-108 | The general settings screen (`options-general.php`) enqueues nothing. |
| AdminInit.AjaxClearCache | src/admin/class-admin-init.php:309-324 | A bad nonce is forbidden. A user without `manage_options` gets "Unauthorized" and nothing changes. Without a cache manager the reply is "Cache manager not available". Otherwise all caches are cleared and success is replied. |
| AdminInit.AjaxRunOptimization | src/admin/class-admin-init.php:329-377 | A refused request changes nothing. Otherwise `sso_options` becomes the sanitised one-click merge and, when a cache manager exists, every cache is cleared. The reply reports whether the cache was cleared. |
| AdminInit.RunOptimization | src/admin/class-admin-init.php:362-376 | It stores the merged options and clears the caches only when a cache manager exists. |
| AdminInit.AjaxGetDashboardData | src/admin/class-admin-init.php:382-398 | Refusals as above. Without analytics the data is `[]`. Otherwise it is the 7-day vitals and top-5 pages through the read-through cache. |
| Autoloader.FormatFilename | src/includes/class-autoloader.php:82-84 | The file stem has the class name's length and no upper-case letter. Each character is the lower-cased original, except that `_` becomes `-`. |
| Autoloader.LowerAll | src/includes/class-autoloader.php:63-66 | Each intermediate segment is lower-cased, in order. |
| Autoloader.JoinSubdirs | src/includes/class-autoloader.php:63-66 | The lower-cased segments joined by `/` form the subdirectory path. |
| Autoloader.Autoload | src/includes/class-autoloader.php:31-74 | The step-by-step `array_shift`/`array_pop` construction requires exactly `plugin_dir + ClassFile(cls)`, and only if that file exists. A foreign class loads nothing. |
| Autoloader.ReplaceCharJoin | src/includes/class-autoloader.php:37 | Replacing `\` by `/` in a `\`-joined name gives the `/`-joined name. |
| Autoloader.StripAndSplit | src/includes/class-autoloader.php:36-39 | Removing the namespace and splitting on `/` recovers the class's segments. |
| Autoloader.ClassParts | src/includes/class-autoloader.php:36-39 | A namespaced class name splits back into its segments. |
| Autoloader.NamespacedClass | src/includes/class-autoloader.php:36-69 | A namespaced class maps to its resolved file. |
| Autoloader.MappedNamespace | src/includes/class-autoloader.php:41-59 | A first segment of Modules, Admin, CLI or Utils maps to its directory and is dropped. |
| Autoloader.OtherNamespace | src/includes/class-autoloader.php:41-59 | Any other first segment falls under `includes/` and is kept. |
| Autoloader.ForeignClass | src/includes/class-autoloader.php:32-34 | A class outside `SmartSiteOptimizer\` maps to nothing. |
| Autoloader.ActivatorFile | src/includes/class-autoloader.php:36-69 | `SmartSiteOptimizer\Activator` maps to `includes/class-activator.php`. |
| Deactivator.NextScheduledPending | src/includes/class-deactivator.php:38-42 | A next occurrence reported by the cron queue is one of its pending events. |
| Deactivator.UnscheduleNextPending | src/includes/class-deactivator.php:38-42 | Unscheduling a hook's next occurrence removes one pending occurrence of that hook if it had one, and none of any other hook. |
| Deactivator.DeactivationPending | src/includes/class-deactivator.php:32-44 | Deactivation removes exactly one pending occurrence of each plugin event that had one and leaves every other hook's queue alone. |
| Deactivator.ClearScheduledEvents | src/includes/class-deactivator.php:32-44 | The loop unschedules each event's next occurrence in turn and records one `wp_unschedule_event` call per scheduled event. |
| Deactivator.DeleteDirectoryContents | src/includes/class-deactivator.php:65-81 | The recursive walk leaves exactly `Purged(fs, dir)`, and the tree stays well formed. |
| Deactivator.PurgedRemoves | src/includes/class-deactivator.php:65-81 | An entry disappears iff it is a file strictly below the directory not named `.htaccess`. Every surviving entry is unchanged. |
| Deactivator.PurgedKeepsSkeleton | src/includes/class-deactivator.php:72-79 | Every directory and every `.htaccess` file survives. |
| Deactivator.PurgedIdempotent | src/includes/class-deactivator.php:65-81 | A second purge changes nothing, and nothing deletable is left. |
| Deactivator.FlushCache | src/includes/class-deactivator.php:49-58 | The cache directory is purged only if it exists. The object cache is then flushed. |
| Deactivator.Deactivate | src/includes/class-deactivator.php:22-27 | In order: events unscheduled, cache purged and flushed, rewrite rules flushed. |
| Plugin.Requirements | smartsite-optimizer.php:121-133 | There is no notice iff PHP ≥ 7.4 and WordPress ≥ 5.8. The PHP notice takes precedence. |
| Plugin.EnabledIffEmpty | smartsite-optimizer.php:141-155 | A module is enabled iff its `disable_*` flag is absent or falsy. |
| Plugin.EnabledAfterSave | smartsite-optimizer.php:141-155 | After saving the settings, a module is enabled iff its posted flag was empty. |
| Plugin.SmartSiteOptimizer.constructor | smartsite-optimizer.php:86-89 | A new plugin has no modules, no admin UI, no commands and no notices. |
| Plugin.SmartSiteOptimizer.LoadModules | smartsite-optimizer.php:138-158 | Each enabled module gets a fresh instance reading its own settings section. Every disabled one is left untouched. |
| Plugin.SmartSiteOptimizer.Init | smartsite-optimizer.php:104-114 | Failed requirements add the notice and load nothing. Otherwise the asset manager is on iff its flag is enabled or it already was, each other module is rebuilt iff enabled, admin is loaded only in admin context, and the CLI commands only under WP-CLI. |
| Plugin.SmartSiteOptimizer.CheckRequirements | smartsite-optimizer.php:121-133 | The result is `Requirements`, and a failing check queues its notice. |
| Plugin.SmartSiteOptimizer.LoadAdmin | smartsite-optimizer.php:163-167 | The admin UI is created only in admin context. |
| Plugin.SmartSiteOptimizer.LoadCli | smartsite-optimizer.php:172-177 | The CLI commands are registered only when `WP_CLI` is defined and true. |
| Plugin.Registry.GetInstance | smartsite-optimizer.php:76-81 | The first call creates the instance. Later calls return the same object. |
| Plugin.Registry.GetInstanceTwice | smartsite-optimizer.php:76-81 | Two calls in a row return the same object. |
| CacheCommand.PurgedAmongUnder | src/cli/class-cache-command.php:66-75 | Deleting every disposable file seen by the recursive iterator equals purging the directory. |
| CacheCommand.ClearedPlusLeft | src/cli/class-cache-command.php:66-75 | The files below a directory are the deleted ones plus the surviving `.htaccess` files, disjointly. |
| CacheCommand.CacheCommand.Clear | src/cli/class-cache-command.php:29-39 | Without a cache manager it errors. Otherwise every cache is cleared and success is logged. |
| CacheCommand.CacheCommand.ClearPages | src/cli/class-cache-command.php:51-76 | A missing pages directory errors with nothing changed. Otherwise every regular file except `.htaccess` is deleted, and the reported count is the number deleted. |
| CacheCommand.CacheCommand.Stats | src/cli/class-cache-command.php:88-111 | It counts every file below the cache directory (including `.htaccess`) and sums their sizes. Both are 0 without the directory. |
| Activator.DefaultCacheTtl | src/includes/class-activator.php:111-117 | The default TTL 3600 equals the sanitiser's fallback, and sanitising the defaults keeps it (fallback at src/admin/class-admin-init.php line 182). |
| Activator.DefaultRetention | src/includes/class-activator.php:118-123 | The default retention 90 equals the fallback and survives sanitising (fallback at src/admin/class-admin-init.php line 172). |
| Activator.DefaultImageNumbers | src/includes/class-activator.php:124-130 | The defaults for quality (80) and 2048 × 2048 equal the fallbacks and survive sanitising (fallbacks at src/admin/class-admin-init.php lines 205-207). |
| Activator.CreateTables | src/includes/class-activator.php:37-95 | The three plugin tables exist afterwards, each created by one `dbDelta`. |
| Activator.SetDefaultOptions | src/includes/class-activator.php:100-143 | `add_option` stores the defaults only when `sso_options` is missing. |
| Activator.CreateDirectories | src/includes/class-activator.php:148-170 | The loop creates the directory list in order, with `CreateDirs`. |
| Activator.ParentsFirst | src/includes/class-activator.php:152-158 | Every directory in the list comes after its parent. |
| Activator.CreateDirsKeeps | src/includes/class-activator.php:160-168 | Existing entries are never altered. |
| Activator.CreateDirFresh | src/includes/class-activator.php:160-168 | A missing directory is created with a `.htaccess` holding `Deny from all`. |
| Activator.CreateDirsFresh | src/includes/class-activator.php:160-168 | Creating missing directories in parent order guards every one of them with that `.htaccess`, adds nothing else and keeps the tree well formed. |
| Activator.FreshInstall | src/includes/class-activator.php:148-170 | On a site without plugin directories, activation creates all of them, each guarded. |
| Activator.ScheduleFirst | src/includes/class-activator.php:175-183 | Scheduling a hook that has nothing pending leaves exactly one pending occurrence. |
| Activator.ScheduleIdempotent | src/includes/class-activator.php:175-183 | A second schedule of an already scheduled hook changes nothing. |
| Activator.ScheduleEvents | src/includes/class-activator.php:175-183 | Each event is scheduled only if not already pending, and only those calls are recorded. |
| Activator.Activate | src/includes/class-activator.php:22-32 | In order: tables, defaults, directories, schedules, rewrite flush, version and activation time. |
| Host.WpDelete | src/includes/modules/class-cache-manager.php:120 | `wp_delete_file` removes at most the given path, and always removes a file. |
| Host.NextScheduled | src/includes/class-deactivator.php:39-40 | No next occurrence iff no pending event has the hook. |
| Host.KeepSince | src/includes/modules/class-cache-manager.php:313-318 | The `DELETE … WHERE column < bound` result keeps exactly the rows with column ≥ bound, never more rows. |
| Strings.ReplaceAllRoundTrip | src/includes/modules/class-asset-manager.php:115 | Replacing a pattern and then replacing the result back is the identity when the replacement does not occur in the input. |
| Strings.SplitJoin | src/includes/class-autoloader.php:37-39 | `explode` undoes `implode` for separator-free segments. |
| Php.StringToInt | src/includes/modules/class-analytics.php:312 | `intval` of option text is always a 64-bit PHP integer. |
| Php.DecimalRoundTrip | src/admin/class-admin-init.php:182 | Reading back an integer's decimal text gives the integer, saturated at `PHP_INT_MIN`/`PHP_INT_MAX`. It gives 0 beyond the double range. |
| Php.IntegerTextSaturates | src/includes/modules/class-analytics.php:312 | Digit text reads as its value up to `PHP_INT_MAX` and as `PHP_INT_MAX` above it. Text too large for a double reads as 0. |
| Php.NegativeTextSaturates | src/admin/class-admin-init.php:172 | Negative digit text reads as its value down to `PHP_INT_MIN` and as `PHP_INT_MIN` below it. |
| Php.ExponentRead | src/admin/class-admin-init.php:182 | `"1e3"` reads as 1000: the exponent is part of the number. |
| Php.FractionExponentRead | src/includes/modules/class-image-optimizer.php:132 | `"1.9e2"` reads as 190: the fraction digits are scaled by the exponent. |
| Php.FractionTruncated | src/includes/modules/class-image-optimizer.php:159 | `"-1.9"` reads as -1: the conversion truncates toward zero. |
| Php.NoNumberIsZero | src/includes/modules/class-analytics.php:312 | Text with no digit before or after the point (`"abc"`, `".e3"`) reads as 0. |
| Php.PaddedNumber | src/includes/modules/class-image-optimizer.php:160 | Leading white space is skipped and trailing text ignored: `" 12px"` reads as 12. |

## Left out

- Model choices:
  - Hook registration, templates, HTML rendering and script/style enqueueing are left out, as is `get_critical_css`, which only fills the object cache.
  - `header()`, `exit`, output buffering and WP-CLI logging formats beyond the exact messages are not modelled.
  - `md5`, `fnmatch`, `sanitize_text_field`, `esc_url_raw`, `get_permalink`, `floatval` parsing and `version_compare` are opaque parameters. Nothing is assumed of them beyond md5 giving 32 characters.
  - The clocks are separate parameters. `time()` is `now`. `current_time('mysql')`, the site's local time that stamps analytics rows, is `localNow`. MySQL `NOW()`, the database server's clock that the retention cutoff uses, is `dbNow`.
  - Strings are sequences of characters, one character per byte. So the `strlen( $output ) < 255` test (class-cache-manager.php:147) in `CacheManager.Storable` counts characters, and multi-byte UTF-8 output is not distinguished.
  - `$wpdb` inserts and the SQL aggregations in `get_analytics_data`/`get_top_pages` become parameters: whether the insert succeeded, and the aggregated results.
  - The GD library (`exif_imagetype`, `imagecreatefrom*`, `imagecopyresampled`, `imagejpeg`/`imagepng`/`imagewebp`) is a set of opaque functions. Only the type, dimension, quality and size decisions are modelled.
  - Each settings form is modelled as posting one section; the effect of saving one form over another's keys is not modelled.
  - `update_option` is taken to run `sanitize_options`, as the registered callback does.
  - The asset manager module is a flag in `Plugin`, because it keeps no state the core reads.
- Host behaviour:
  - The filesystem is a map of paths to files or directories. The deactivator's `is_dir` and the recursive iterator see that map.
  - `WP_Filesystem_Direct::dirlist` with `include_hidden` false lists the names of a directory that do not start with `.` (`FileTree.Listed`); `scandir` lists every name but `.` and `..` (`FileTree.Children`).
  - Well-formedness (every entry's parent is a directory) is a model invariant required by the recursive walks.
  - The cron queue appends new events rather than keeping them sorted by time.
  - A `wp_next_scheduled` timestamp of 0 counts as "not scheduled", as PHP's falsy test does. `Activator.ScheduleIdempotent` therefore requires a non-zero time.
- Out of scope:
  - Concurrency is not modelled: the simultaneous-miss race in the page cache, and cron running during activation.
  - Floating-point timing is replaced by integers: LCP and FID are milliseconds, CLS is ten-thousandths (the `decimal(10,4)` column).
  - The resize ratio is exact rational arithmetic followed by `intval`.
  - `src/cli/class-optimize-command.php` is not part of this model; it only passes post ids to `bulk_optimize`.
- Php.StringToInt: text PHP reads through a double is read exactly here and then truncated. PHP first rounds it to the nearest double. That covers text with a point or an exponent, and integer text beyond `PHP_INT_MAX`. The two differ only where the text has more significant digits than a double holds: `"2.99999999999999999"` reads as 2 here and as 3 in PHP. `Php.AbsInt` of `PHP_INT_MIN` is the integer 2^63, where PHP's `abs` returns a float of that value.
- Analytics.Analytics.GetAnalyticsData: the SQL that computes the averages is a parameter, so only the cache read-through is stated. The 900-second expiry given to `wp_cache_set` is not modelled: a stored entry stays in the object cache until it is deleted.
- Analytics.Analytics.GetTopPages: the 900-second expiry given to `wp_cache_set` is not modelled: a stored `sso_top_pages_<limit>` entry stays in the object cache until it is deleted.
- Analytics.Analytics.CleanupOldData: no relation between `localNow` (which stamps rows) and `dbNow` (which sets the cutoff) is assumed, so the offset between the site's time zone and the database clock is left to the caller. The same holds for Analytics.Analytics.CleanupOldDataAsWritten.
- ImageOptimizer.ImageOptimizer.BulkOptimize: success and failure of each id depend on the opaque encoder; only the counter identity and the skipped lower bound are stated. Its WebP step is the corrected `CreateWebp`.
- CacheManager.Patterns: only the empty case is stated; a non-empty value is read as the list of its string entries.
- CacheManager.CacheManager.ServeCachedPage: gated on the corrected `ShouldCache` (Finding 2), so it skips a logged-in request with `cache_logged_in` off; the source serves it from the cache and deletes a stale copy. The as-written gate is `ShouldCacheAsWritten`.
- CacheManager.CacheManager.CachePage: gated on the corrected `ShouldCache`, so it does not store a logged-in page with `cache_logged_in` off, which the source stores under the shared key.
- AssetManager.AddLazyLoading: rewrites with the corrected `LazyAttributes` (Findings 3 and 4); the source's callback is `LazyAttributesAsWritten`, which leaves a stray quote and rebuilds an upper-case `<IFRAME` as `<img`.
- ImageOptimizer.ImageOptimizer.CreateWebpVersion: follows the corrected `CreateWebp` (Finding 5) and refuses a file whose WebP path is its own name; the source writes WebP data over a `.jpe` original and reports success (`CreateWebpAsWritten`).
- ImageOptimizer.ImageOptimizer.OptimizeOnUpload: chains into the corrected `CreateWebp`, so a `.jpe` upload is not overwritten as it is in the source.
- AdminInit.SanitizeOptionsSection: the cache section's `exclude_urls` goes through the corrected `PatternList` (Finding 6), so a posted textarea string is kept as one pattern per line; the source stores `[]` (`SanitizeUrlPatternsAsWritten`).
- AdminInit.SanitizedField: the read-back cache fields include the corrected `exclude_urls`, as in `SanitizeOptionsSection`.
- AdminInit.OneClickKeepsCache: the kept `exclude_urls` is the corrected sanitiser's result, as in `SanitizeOptionsSection`.

## Findings

| source | as written | input that shows it | evidently intended | confidence | as-written member | corrected member |
|---|---|---|---|---|---|---|
| src/includes/modules/class-analytics.php:334-335 | cleanup deletes the bare keys `sso_analytics_data_` and `sso_top_pages_` | any cached dashboard entry `sso_analytics_data_<md5>` or `sso_top_pages_10` survives cleanup until its 900-second expiry | drop every cached getter entry so the dashboard stops showing deleted rows | high, not executed | Analytics.Analytics.CleanupOldDataAsWritten | Analytics.Analytics.CleanupOldData |
| src/includes/modules/class-cache-manager.php:185 | `! empty( cache_logged_in ) && is_user_logged_in()` refuses caching | a logged-in user with the default `cache_logged_in = false` gets cached under the shared key; ticking the box stops it | cache a logged-in user only when `cache_logged_in` is set | high, not executed | CacheManager.LoggedInCachedByDefault | CacheManager.ShouldCache |
| src/includes/modules/class-asset-manager.php:240-247 | the `src` match stops before the closing quote, so the quote is left after the new `data-src="…"` | `<img src="x">` becomes `<img src="data:…" data-src="x"" loading="lazy">` | replace the whole quoted `src` value | high, not executed | AssetManager.LazyAttributesDoubledQuote | AssetManager.LazyAttributesSingleQuote |
| src/includes/modules/class-asset-manager.php:247 | the element is chosen with a case-sensitive `<iframe` test, while the tag match is case-insensitive | `<IFRAME src="x">` is rebuilt as `<img …>` | keep the element name whatever its case | medium, not executed | AssetManager.LazyAttributesUpperCaseIframe | AssetManager.LazyAttributesKeepIframe |
| src/includes/modules/class-image-optimizer.php:270-273 | the WebP path is the original with `.jpg`/`.jpeg`/`.png` replaced, but `.jpe` JPEGs are accepted and keep their name | `photo.jpe` (JPEG) has WebP path `photo.jpe`, so the original is overwritten with WebP data | never write the WebP copy over the image | medium, not executed | ImageOptimizer.CreateWebpOverwritesJpe | ImageOptimizer.CreateWebp |
| src/admin/class-admin-init.php:226-229 | `sanitize_url_patterns` returns `[]` for a non-array, but the cache settings form posts `exclude_urls` as a textarea string (src/templates/admin/cache.php:67) | saving `/cart/*` from the form stores `exclude_urls = []` | split the textarea into one pattern per line | high, not executed | AdminInit.TextareaPatternsDropped | AdminInit.PatternsRoundTrip |
