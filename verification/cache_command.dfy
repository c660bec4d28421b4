/**
 * The `wp sso cache` WP-CLI commands: clear every cache through the cache
 * manager, clear the page cache while counting the pages removed, and
 * report how many files the cache holds and their total size.
 */
module CacheCommand {
  import opened Wrappers
  import opened Strings
  import opened Host
  import opened FileTree
  import CacheManager
  import Plugin

  /**
   * How a command ends: `WP_CLI::error`, which halts it, or the lines
   * written with `WP_CLI::log` followed by the `WP_CLI::success` message
   * when there is one.
   */
  datatype Output = Failed(error: string) | Finished(log: seq<string>, success: Option<string>)

  /** What `stats` reports. */
  datatype CacheStats = CacheStats(pageCacheFiles: nat, cacheSize: nat)

  /** `<uploads>/smartsite-optimizer/cache` */
  function CacheDir(uploads: Path): Path {
    uploads + ["smartsite-optimizer", "cache"]
  }

  /** `<uploads>/smartsite-optimizer/cache/pages` */
  function PagesDir(uploads: Path): Path {
    CacheDir(uploads) + ["pages"]
  }

  /** The regular files among `ps`. */
  function FilesAmong(fs: Fs, ps: set<Path>): set<Path> {
    set p | p in ps && IsFile(fs, p)
  }

  /** The files among `ps` other than `.htaccess`. */
  function DisposableAmong(fs: Fs, ps: set<Path>): set<Path> {
    set p | p in ps && Disposable(fs, p)
  }

  /** `fs` once the disposable files among `ps` are deleted. */
  function PurgedAmong(fs: Fs, ps: set<Path>): Fs {
    map p | p in fs && !(p in ps && Disposable(fs, p)) :: fs[p]
  }

  /** One more entry visited: a disposable one is deleted and counted, any other is left. */
  lemma PurgedAmongStep(fs: Fs, seen: set<Path>, p: Path)
    requires p !in seen && p in fs && |p| > 0
    ensures var f := PurgedAmong(fs, seen);
      && p in f && f[p] == fs[p]
      && (IsFile(f, p) && Name(p) != Htaccess <==> Disposable(fs, p))
      && PurgedAmong(fs, seen + {p}) == (if Disposable(fs, p) then Unlink(f, p) else f)
      && DisposableAmong(fs, seen + {p}) == DisposableAmong(fs, seen) + (if Disposable(fs, p) then {p} else {})
  {
    var f := PurgedAmong(fs, seen);
    if Disposable(fs, p) {
      assert PurgedAmong(fs, seen + {p}) == f - {p};
    } else {
      assert PurgedAmong(fs, seen + {p}) == f;
    }
  }

  /** Visiting everything below `dir` is the purge of `dir`. */
  lemma PurgedAmongUnder(fs: Fs, dir: Path)
    requires IsDir(fs, dir)
    ensures PurgedAmong(fs, Under(fs, dir)) == Purged(fs, dir)
    ensures DisposableAmong(fs, Under(fs, dir)) == DisposableUnder(fs, dir)
  {
  }

  /** `Cleared %d cached pages.` */
  function ClearedMessage(count: nat): string {
    "Cleared " + NatToDecimal(count) + " cached pages."
  }

  /**
   * Clearing the pages splits the files below the directory in two: those
   * it deletes and counts, and the `.htaccess` files it leaves.
   */
  lemma ClearedPlusLeft(fs: Fs, dir: Path)
    requires IsDir(fs, dir)
    ensures FilesAmong(fs, Under(fs, dir)) ==
      DisposableUnder(fs, dir) + FilesAmong(Purged(fs, dir), Under(Purged(fs, dir), dir))
    ensures DisposableUnder(fs, dir) !! FilesAmong(Purged(fs, dir), Under(Purged(fs, dir), dir))
    ensures forall p | p in FilesAmong(Purged(fs, dir), Under(Purged(fs, dir), dir)) :: HtaccessFile(fs, p)
    ensures |FilesAmong(fs, Under(fs, dir))| ==
      |DisposableUnder(fs, dir)| + |FilesAmong(Purged(fs, dir), Under(Purged(fs, dir), dir))|
  {
    var a := DisposableUnder(fs, dir);
    var b := FilesAmong(Purged(fs, dir), Under(Purged(fs, dir), dir));
    assert FilesAmong(fs, Under(fs, dir)) == a + b;
    assert a !! b;
  }

  class CacheCommand {
    /** The plugin instance, `sso()`. */
    const plugin: Plugin.SmartSiteOptimizer
    /** `wp_upload_dir()['basedir']` */
    const uploads: Path

    constructor (plugin: Plugin.SmartSiteOptimizer, uploads: Path)
      ensures this.plugin == plugin && this.uploads == uploads
    {
      this.plugin := plugin;
      this.uploads := uploads;
    }

    /** `clear`: every cache, through the plugin's cache manager; an error without one. */
    method Clear() returns (out: Output)
      requires plugin.cacheManager != null ==> WellFormed(plugin.cacheManager.site.files)
      modifies if plugin.cacheManager != null then {plugin.cacheManager.site} else {}
      ensures plugin.cacheManager == null ==> out == Failed("Cache manager is not available.")
      ensures plugin.cacheManager != null ==>
        var cm := plugin.cacheManager;
        && out == Finished(["Clearing all caches..."], Some("All caches cleared successfully."))
        && cm.site.files == Cleared(Cleared(old(cm.site.files), cm.cacheDir + ["pages"]), cm.cacheDir + ["objects"])
        && cm.site.cacheRows == [] && cm.site.objectCache == map[]
    {
      var cacheManager := plugin.cacheManager;
      if cacheManager == null {
        return Failed("Cache manager is not available.");
      }
      cacheManager.ClearAllCache();
      return Finished(["Clearing all caches..."], Some("All caches cleared successfully."));
    }

    /**
     * `clear_pages`: delete every regular file below the page cache except
     * `.htaccess`, and report how many were deleted.
     */
    method ClearPages() returns (out: Output)
      modifies plugin.site`files
      ensures var dir := PagesDir(uploads);
        if IsDir(old(plugin.site.files), dir) then
          && plugin.site.files == Purged(old(plugin.site.files), dir)
          && out == Finished(["Clearing page cache..."], Some(ClearedMessage(|DisposableUnder(old(plugin.site.files), dir)|)))
        else
          && plugin.site.files == old(plugin.site.files)
          && out == Failed("Page cache directory does not exist.")
    {
      var site := plugin.site;
      var dir := PagesDir(uploads);
      if !IsDir(site.files, dir) {
        return Failed("Page cache directory does not exist.");
      }
      var listing := site.files;
      var all := Under(listing, dir);
      var todo := all;
      var count := 0;
      ghost var deleted: set<Path> := {};
      while todo != {}
        invariant todo <= all
        invariant site.files == PurgedAmong(listing, all - todo)
        invariant deleted == DisposableAmong(listing, all - todo)
        invariant count == |deleted|
        decreases todo
      {
        var p :| p in todo;
        ghost var seen := all - todo;
        PurgedAmongStep(listing, seen, p);
        if IsFile(site.files, p) && Name(p) != Htaccess {
          site.files := Unlink(site.files, p);
          count := count + 1;
          deleted := deleted + {p};
        }
        todo := todo - {p};
        assert all - todo == seen + {p};
      }
      assert all - todo == all;
      PurgedAmongUnder(listing, dir);
      return Finished(["Clearing page cache..."], Some(ClearedMessage(count)));
    }

    /** `stats`: the number of files below the cache directory, `.htaccess` included, and their total size. */
    method Stats(sizeFormat: nat -> string) returns (stats: CacheStats, log: seq<string>)
      ensures var fs := plugin.site.files;
        var dir := CacheDir(uploads);
        stats == if IsDir(fs, dir) then CacheStats(|FilesAmong(fs, Under(fs, dir))|, SizeOf(fs, Under(fs, dir)))
                 else CacheStats(0, 0)
      ensures log == ["Cached pages: " + NatToDecimal(stats.pageCacheFiles), "Total cache size: " + sizeFormat(stats.cacheSize)]
    {
      var fs := plugin.site.files;
      var dir := CacheDir(uploads);
      var files := 0;
      var size := 0;
      if IsDir(fs, dir) {
        var all := Under(fs, dir);
        var todo := all;
        while todo != {}
          invariant todo <= all
          invariant files == |FilesAmong(fs, all - todo)|
          invariant size == SizeOf(fs, all - todo)
          decreases todo
        {
          var p :| p in todo;
          ghost var seen := all - todo;
          todo := todo - {p};
          assert all - todo == seen + {p} && p !in seen;
          SizeOfRemove(fs, seen + {p}, p);
          assert seen + {p} - {p} == seen;
          if IsFile(fs, p) {
            assert FilesAmong(fs, seen + {p}) == FilesAmong(fs, seen) + {p};
            files := files + 1;
            size := size + Size(fs, p);
          } else {
            assert FilesAmong(fs, seen + {p}) == FilesAmong(fs, seen);
          }
        }
        assert all - todo == all;
      }
      stats := CacheStats(files, size);
      log := ["Cached pages: " + NatToDecimal(files), "Total cache size: " + sizeFormat(size)];
    }
  }
}
