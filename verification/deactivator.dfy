/**
 * Plugin deactivation: the plugin's two cron hooks lose their next
 * occurrence, the file cache is emptied of everything but `.htaccess`
 * files and directories, the object cache is flushed, and the rewrite
 * rules are flushed last.
 */
module Deactivator {
  import opened Wrappers
  import opened Host
  import opened FileTree

  /** The cron hooks the plugin schedules. */
  const Events: seq<string> := ["sso_clear_expired_cache", "sso_cleanup_analytics"]

  /** `<uploads>/smartsite-optimizer/cache` */
  function CacheDir(uploads: Path): Path {
    uploads + ["smartsite-optimizer", "cache"]
  }

  /** One hook: its next occurrence is unscheduled when `wp_next_scheduled` is truthy. */
  function UnscheduleNext(cron: seq<Event>, hook: string): seq<Event> {
    if Scheduled(cron, hook) then Unschedule(cron, NextScheduled(cron, hook).value, hook) else cron
  }

  /** The queue after the hooks are handled in order. */
  function UnscheduleAll(cron: seq<Event>, hooks: seq<string>): seq<Event>
    decreases |hooks|
  {
    if hooks == [] then cron
    else UnscheduleNext(UnscheduleAll(cron, hooks[..|hooks| - 1]), hooks[|hooks| - 1])
  }

  /** The `wp_unschedule_event` calls made while handling the hooks in order. */
  function UnscheduleCalls(cron: seq<Event>, hooks: seq<string>): seq<HostCall>
    decreases |hooks|
  {
    if hooks == [] then []
    else
      var init := hooks[..|hooks| - 1];
      var h := hooks[|hooks| - 1];
      UnscheduleCalls(cron, init) + if Scheduled(UnscheduleAll(cron, init), h) then [UnscheduleEvent(h)] else []
  }

  /** The event `wp_next_scheduled` reports is pending. */
  lemma {:induction false} NextScheduledPending(cron: seq<Event>, hook: string)
    requires NextScheduled(cron, hook).Some?
    ensures exists i | 0 <= i < |cron| :: cron[i].hook == hook && cron[i].timestamp == NextScheduled(cron, hook).value
  {
    if cron[0].hook != hook {
      NextScheduledPending(cron[1..], hook);
      var i :| 0 <= i < |cron[1..]| && cron[1..][i].hook == hook && cron[1..][i].timestamp == NextScheduled(cron, hook).value;
      assert cron[i + 1] == cron[1..][i];
    }
  }

  /** Unscheduling a pending event removes one event of its hook and no other. */
  lemma {:induction false} UnschedulePending(cron: seq<Event>, t: int, hook: string, h: string)
    requires exists i | 0 <= i < |cron| :: cron[i].hook == hook && cron[i].timestamp == t
    ensures Pending(Unschedule(cron, t, hook), h) == Pending(cron, h) - if h == hook then 1 else 0
  {
    if !(cron[0].hook == hook && cron[0].timestamp == t) {
      var i :| 0 <= i < |cron| && cron[i].hook == hook && cron[i].timestamp == t;
      assert cron[1..][i - 1] == cron[i];
      UnschedulePending(cron[1..], t, hook, h);
      assert Unschedule(cron, t, hook)[1..] == Unschedule(cron[1..], t, hook);
    }
  }

  /** Unscheduling leaves the next occurrence of every other hook where it was. */
  lemma {:induction false} UnscheduleOther(cron: seq<Event>, t: int, hook: string, h: string)
    requires h != hook
    ensures NextScheduled(Unschedule(cron, t, hook), h) == NextScheduled(cron, h)
  {
    if cron != [] && !(cron[0].hook == hook && cron[0].timestamp == t) {
      UnscheduleOther(cron[1..], t, hook, h);
      assert Unschedule(cron, t, hook)[1..] == Unschedule(cron[1..], t, hook);
    }
  }

  /**
   * Handling a hook takes one occurrence of it off the queue exactly when
   * `wp_next_scheduled` reports one with a non-zero timestamp; no other
   * hook's events change in number.
   */
  lemma UnscheduleNextPending(cron: seq<Event>, hook: string, h: string)
    ensures Pending(UnscheduleNext(cron, hook), h) ==
      Pending(cron, h) - if h == hook && Scheduled(cron, hook) then 1 else 0
  {
    if Scheduled(cron, hook) {
      NextScheduledPending(cron, hook);
      UnschedulePending(cron, NextScheduled(cron, hook).value, hook, h);
    }
  }

  /**
   * After deactivation each of the plugin's hooks has one occurrence fewer
   * when it was scheduled (with a non-zero timestamp), and the same number
   * otherwise; events of other hooks are all still pending.
   */
  lemma DeactivationPending(cron: seq<Event>, h: string)
    ensures Pending(UnscheduleAll(cron, Events), h) ==
      Pending(cron, h) - if h in Events && Scheduled(cron, h) then 1 else 0
  {
    var h0, h1 := Events[0], Events[1];
    assert h0 != h1 by { assert |h0| != |h1|; }
    assert Events[..1] == [h0] && Events[..0] == [];
    var c1 := UnscheduleNext(cron, h0);
    assert UnscheduleAll(cron, Events) == UnscheduleNext(c1, h1);
    UnscheduleNextPending(cron, h0, h);
    UnscheduleNextPending(c1, h0, h);
    UnscheduleNextPending(c1, h1, h);
    if Scheduled(cron, h0) {
      UnscheduleOther(cron, NextScheduled(cron, h0).value, h0, h1);
    }
    assert Scheduled(c1, h1) == Scheduled(cron, h1);
  }

  /** `clear_scheduled_events` */
  method ClearScheduledEvents(site: Site)
    modifies site`cron, site`journal
    ensures site.cron == UnscheduleAll(old(site.cron), Events)
    ensures site.journal == old(site.journal) + UnscheduleCalls(old(site.cron), Events)
  {
    ghost var cron0 := site.cron;
    ghost var journal0 := site.journal;
    for i := 0 to |Events|
      invariant site.cron == UnscheduleAll(cron0, Events[..i])
      invariant site.journal == journal0 + UnscheduleCalls(cron0, Events[..i])
    {
      var event := Events[i];
      assert Events[..i + 1][..i] == Events[..i];
      var timestamp := NextScheduled(site.cron, event);
      if timestamp.Some? && timestamp.value != 0 {
        site.cron := Unschedule(site.cron, timestamp.value, event);
        site.journal := site.journal + [UnscheduleEvent(event)];
      }
    }
    assert Events[..|Events|] == Events;
  }

  /**
   * `delete_directory_contents`: walk `dir`, recursing into directories and
   * deleting every file except `.htaccess`; no directory is removed.
   */
  method DeleteDirectoryContents(site: Site, dir: Path)
    requires WellFormed(site.files)
    modifies site`files
    ensures site.files == Purged(old(site.files), dir)
    ensures WellFormed(site.files)
    decreases Under(site.files, dir)
  {
    if !IsDir(site.files, dir) {
      return;
    }
    var listing := site.files;
    var names := Children(listing, dir);
    var todo := names;
    PurgedPartNone(listing, dir);
    assert names - todo == {};
    while todo != {}
      invariant todo <= names
      invariant site.files == PurgedPart(listing, dir, names - todo)
      decreases todo
    {
      var name :| name in todo;
      var done := names - todo;
      var path := dir + [name];
      ChildPath(listing, dir, name);
      // `is_dir` on a child not visited yet sees what the listing saw.
      if listing[path].Dir? {
        ghost var before := site.files;
        PurgedPartWellFormed(listing, dir, done);
        PurgeShrinks(listing, dir, done, name);
        DeleteDirectoryContents(site, path);
        PurgeStepDir(listing, dir, done, name);
        assert site.files == Purged(before, path);
      } else if name != Htaccess {
        site.files := Unlink(site.files, path);
        PurgeStepFile(listing, dir, done, name);
      } else {
        PurgeStepFile(listing, dir, done, name);
      }
      todo := todo - {name};
      assert names - todo == done + {name};
    }
    assert names - todo == names;
    PurgedPartComplete(listing, dir);
    PurgedPartWellFormed(listing, dir, names);
  }

  /** `flush_cache`: purge the cache directory when it exists, then `wp_cache_flush`. */
  method FlushCache(site: Site, uploads: Path)
    requires WellFormed(site.files)
    modifies site`files, site`objectCache, site`journal
    ensures site.files == if CacheDir(uploads) in old(site.files) then Purged(old(site.files), CacheDir(uploads)) else old(site.files)
    ensures WellFormed(site.files)
    ensures site.objectCache == map[] && site.journal == old(site.journal) + [CacheFlush]
  {
    var cacheDir := CacheDir(uploads);
    if cacheDir in site.files {
      DeleteDirectoryContents(site, cacheDir);
    }
    site.objectCache := map[];
    site.journal := site.journal + [CacheFlush];
  }

  /** `deactivate`: unschedule, flush the caches, flush the rewrite rules, in that order. */
  method Deactivate(site: Site, uploads: Path)
    requires WellFormed(site.files)
    modifies site`cron, site`files, site`objectCache, site`journal
    ensures site.cron == UnscheduleAll(old(site.cron), Events)
    ensures site.files == Purged(old(site.files), CacheDir(uploads))
    ensures site.objectCache == map[]
    ensures site.journal == old(site.journal) + UnscheduleCalls(old(site.cron), Events) + [CacheFlush, FlushRewriteRules]
  {
    ClearScheduledEvents(site);
    FlushCache(site, uploads);
    site.journal := site.journal + [FlushRewriteRules];
  }

  /** The purge deletes every file below `dir` not named `.htaccess`, and nothing else. */
  lemma PurgedRemoves(fs: Fs, dir: Path, p: Path)
    requires IsDir(fs, dir) && p in fs
    ensures p !in Purged(fs, dir) <==> dir < p && IsFile(fs, p) && Name(p) != Htaccess
    ensures p in Purged(fs, dir) ==> Purged(fs, dir)[p] == fs[p]
  {
  }

  /** Every directory and every `.htaccess` file survives the purge, so its skeleton stays. */
  lemma PurgedKeepsSkeleton(fs: Fs, dir: Path)
    requires WellFormed(fs)
    ensures WellFormed(Purged(fs, dir))
    ensures forall p | IsDir(fs, p) :: IsDir(Purged(fs, dir), p)
    ensures forall p | HtaccessFile(fs, p) :: HtaccessFile(Purged(fs, dir), p)
  {
    if IsDir(fs, dir) {
      PurgedPartComplete(fs, dir);
      PurgedPartWellFormed(fs, dir, Children(fs, dir));
    }
  }

  /** Purging twice is purging once: nothing disposable is left below `dir`. */
  lemma PurgedIdempotent(fs: Fs, dir: Path)
    ensures Purged(Purged(fs, dir), dir) == Purged(fs, dir)
    ensures IsDir(fs, dir) ==> DisposableUnder(Purged(fs, dir), dir) == {}
  {
  }
}
