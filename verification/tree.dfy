/**
 * What the plugin's recursive directory walks leave behind. The cache
 * manager's walk lists directories without dot-names, so it keeps every
 * dot-named entry and what lies below one, and removes each subdirectory it
 * has emptied; the deactivator's walk sees every entry, keeps `.htaccess`
 * files and keeps directories.
 */
module FileTree {
  import opened Host

  const Htaccess := ".htaccess"

  predicate HtaccessFile(fs: Fs, q: Path) {
    IsFile(fs, q) && |q| > 0 && Name(q) == Htaccess
  }

  /** A dot-name: `dirlist` called with `include_hidden` false never lists it. */
  predicate HiddenName(n: string) {
    |n| > 0 && n[0] == '.'
  }

  lemma HtaccessHidden()
    ensures HiddenName(Htaccess)
  {
  }

  /** Some step of `p` below `dir` is a dot-name. */
  predicate HiddenBelow(dir: Path, p: Path) {
    exists i | |dir| <= i < |p| :: HiddenName(p[i])
  }

  /**
   * Whether the cache manager's walk of `dir` keeps entry `p`: the walk never
   * sees an entry with a dot-name on its way down from `dir`, and `rmdir`
   * cannot remove a directory that still holds such an entry.
   */
  predicate Kept(fs: Fs, dir: Path, p: Path) {
    exists q | q in fs && p <= q :: HiddenBelow(dir, q)
  }

  /** The file system after the cache manager clears `dir`. */
  function Cleared(fs: Fs, dir: Path): Fs {
    if IsDir(fs, dir) then map p | p in fs && !(dir < p && !Kept(fs, dir, p)) :: fs[p] else fs
  }

  /** The names listed in `dir` (what `scandir` returns, without `.` and `..`). */
  function Children(fs: Fs, dir: Path): set<string> {
    set p | p in fs && |p| == |dir| + 1 && dir < p :: p[|dir|]
  }

  /** The names `dirlist($dir, false, false)` returns: the children of `dir` without dot-names. */
  function Listed(fs: Fs, dir: Path): set<string> {
    set p | p in fs && |p| == |dir| + 1 && dir < p && !HiddenName(p[|dir|]) :: p[|dir|]
  }

  /** A name listed in `dir` is the last step of an entry's path. */
  lemma ChildPath(fs: Fs, dir: Path, name: string)
    requires name in Children(fs, dir)
    ensures dir + [name] in fs
  {
    var p :| p in fs && |p| == |dir| + 1 && dir < p && p[|dir|] == name;
    assert p[..|dir|] == dir;
    assert p == p[..|dir|] + [p[|dir|]];
  }

  /** A name `dirlist` returns is the last step of an entry's path, and no dot-name. */
  lemma ListedPath(fs: Fs, dir: Path, name: string)
    requires name in Listed(fs, dir)
    ensures dir + [name] in fs && !HiddenName(name)
  {
    var p :| p in fs && |p| == |dir| + 1 && dir < p && !HiddenName(p[|dir|]) && p[|dir|] == name;
    assert p[..|dir|] == dir;
    assert p == p[..|dir|] + [p[|dir|]];
  }

  /** Whether `p` is an entry the walk removes once the children `done` are processed. */
  predicate Removed(fs: Fs, dir: Path, done: set<string>, p: Path)
    requires p in fs
  {
    dir < p && p[|dir|] in done && !Kept(fs, dir, p)
  }

  /** The file system once the walk of `dir` has processed the children `done`. */
  function Partial(fs: Fs, dir: Path, done: set<string>): Fs {
    map p | p in fs && !Removed(fs, dir, done, p) :: fs[p]
  }

  lemma {:induction false} AncestorIsDir(fs: Fs, p: Path, k: nat)
    requires WellFormed(fs) && p in fs && 1 <= k < |p|
    ensures IsDir(fs, p[..k])
    decreases |p|
  {
    var q := Parent(p);
    if k < |q| {
      AncestorIsDir(fs, q, k);
      assert q[..k] == p[..k];
    } else {
      assert q == p[..k];
    }
  }

  lemma ChildOnPath(fs: Fs, dir: Path, p: Path)
    requires WellFormed(fs) && p in fs && dir < p
    ensures dir + [p[|dir|]] in fs && p[|dir|] in Children(fs, dir)
    ensures |p| > |dir| + 1 ==> IsDir(fs, dir + [p[|dir|]])
  {
    var c := p[..|dir| + 1];
    assert c == dir + [p[|dir|]];
    if |p| > |dir| + 1 {
      AncestorIsDir(fs, p, |dir| + 1);
    } else {
      assert c == p;
    }
    assert c in fs && |c| == |dir| + 1 && dir < c;
  }

  lemma PartialWellFormed(fs: Fs, dir: Path, done: set<string>)
    requires WellFormed(fs)
    ensures WellFormed(Partial(fs, dir, done))
  {
    var f := Partial(fs, dir, done);
    forall p | p in f && |p| > 1
      ensures IsDir(f, Parent(p))
    {
      var d := Parent(p);
      assert IsDir(fs, d);
      if dir < d && d[|dir|] in done {
        assert dir < p && p[|dir|] == d[|dir|];
        var q :| q in fs && p <= q && HiddenBelow(dir, q);
        assert q[..|d|] == p[..|d|] == d;
        assert Kept(fs, dir, d);
      }
    }
  }

  /** Before any child is processed, the walk has changed nothing. */
  lemma PartialNone(fs: Fs, dir: Path)
    ensures Partial(fs, dir, {}) == fs
  {
  }

  /** Once every listed child is processed, the walk has cleared `dir`. */
  lemma PartialComplete(fs: Fs, dir: Path)
    requires WellFormed(fs) && IsDir(fs, dir)
    ensures Partial(fs, dir, Listed(fs, dir)) == Cleared(fs, dir)
  {
    forall p | p in fs && dir < p
      ensures !Kept(fs, dir, p) ==> p[|dir|] in Listed(fs, dir)
    {
      if HiddenName(p[|dir|]) {
        assert HiddenBelow(dir, p);
        assert Kept(fs, dir, p);
      } else {
        ChildOnPath(fs, dir, p);
        var c := dir + [p[|dir|]];
        assert c in fs && |c| == |dir| + 1 && dir < c && !HiddenName(c[|dir|]);
      }
    }
  }

  /** Processing a listed file child: delete it. */
  lemma StepFile(fs: Fs, dir: Path, done: set<string>, n: string)
    requires WellFormed(fs) && n !in done && IsFile(fs, dir + [n]) && !HiddenName(n)
    ensures WpDelete(Partial(fs, dir, done), dir + [n]) == Partial(fs, dir, done + {n})
  {
    var c := dir + [n];
    var f := Partial(fs, dir, done);
    var t := Partial(fs, dir, done + {n});
    FileNotKept(fs, dir, n);
    assert c in f;
    var h := f - {c};
    forall p | p in fs
      ensures p in h <==> p in t
    {
      if dir < p && p[|dir|] == n {
        OnlyFileBelow(fs, dir, n, p);
      }
    }
    SubmapsOf(fs, h, t);
  }

  /** A listed file is not kept: nothing lies below it and its own name is no dot-name. */
  lemma FileNotKept(fs: Fs, dir: Path, n: string)
    requires WellFormed(fs) && IsFile(fs, dir + [n]) && !HiddenName(n)
    ensures !Kept(fs, dir, dir + [n])
  {
    var c := dir + [n];
    NotHiddenChild(dir, n);
    forall q | q in fs && c <= q
      ensures q == c
    {
      OnlyFileBelow(fs, dir, n, q);
    }
  }

  /** A child path with a plain name has no dot-name step below its parent. */
  lemma NotHiddenChild(dir: Path, n: string)
    requires !HiddenName(n)
    ensures !HiddenBelow(dir, dir + [n])
  {
    forall i | |dir| <= i < |dir + [n]|
      ensures !HiddenName((dir + [n])[i])
    {
      assert i == |dir|;
    }
  }

  /** Below a regular file there is nothing: the only path through child `n` is the file itself. */
  lemma OnlyFileBelow(fs: Fs, dir: Path, n: string, p: Path)
    requires WellFormed(fs) && IsFile(fs, dir + [n])
    requires p in fs && dir < p && p[|dir|] == n
    ensures p == dir + [n]
  {
    var c := dir + [n];
    if |p| > |c| {
      assert p[..|c|] == c;
      AncestorIsDir(fs, p, |c|);
      assert false;
    }
  }

  /** Below a listed child, the walk of the child keeps what the walk of its parent keeps. */
  lemma HiddenShift(dir: Path, n: string, q: Path)
    requires !HiddenName(n) && dir + [n] <= q
    ensures HiddenBelow(dir + [n], q) <==> HiddenBelow(dir, q)
  {
    if HiddenBelow(dir, q) {
      var i :| |dir| <= i < |q| && HiddenName(q[i]);
      assert q[|dir|] == n;
      assert i != |dir|;
    }
  }

  /** Within the subtree of an unprocessed listed child, the walk so far has changed nothing. */
  lemma SubtreeUntouched(fs: Fs, dir: Path, done: set<string>, n: string, p: Path)
    requires p in fs && dir + [n] <= p && n !in done && !HiddenName(n)
    ensures p in Partial(fs, dir, done) && Partial(fs, dir, done)[p] == fs[p]
    ensures Kept(Partial(fs, dir, done), dir + [n], p) <==> Kept(fs, dir, p)
  {
    var c := dir + [n];
    var f := Partial(fs, dir, done);
    assert p[|dir|] == n;
    if Kept(fs, dir, p) {
      var q :| q in fs && p <= q && HiddenBelow(dir, q);
      assert q[..|c|] == p[..|c|] == c;
      assert q[|dir|] == n;
      HiddenShift(dir, n, q);
      assert q in f;
    }
    if Kept(f, c, p) {
      var q :| q in f && p <= q && HiddenBelow(c, q);
      assert q[..|c|] == p[..|c|] == c;
      HiddenShift(dir, n, q);
      assert q in fs;
    }
  }

  /**
   * After the recursive walk of child `c`, something is left below `c`
   * exactly when the walk of `dir` keeps `c`.
   */
  lemma LeftBelowChild(fs: Fs, dir: Path, done: set<string>, n: string)
    requires n !in done && IsDir(fs, dir + [n]) && !HiddenName(n)
    ensures IsDir(Cleared(Partial(fs, dir, done), dir + [n]), dir + [n])
    ensures Under(Cleared(Partial(fs, dir, done), dir + [n]), dir + [n]) == {} <==> !Kept(fs, dir, dir + [n])
  {
    var c := dir + [n];
    var f := Partial(fs, dir, done);
    SubtreeUntouched(fs, dir, done, n, c);
    var g := Cleared(f, c);
    assert IsDir(f, c);
    if Kept(fs, dir, c) {
      var q :| q in fs && c <= q && HiddenBelow(dir, q);
      NotHiddenChild(dir, n);
      assert q != c;
      assert Kept(fs, dir, q);
      SubtreeUntouched(fs, dir, done, n, q);
      assert q in Under(g, c);
    }
    if Under(g, c) != {} {
      var p :| p in Under(g, c);
      SubtreeUntouched(fs, dir, done, n, p);
      assert Kept(fs, dir, p);
      var q :| q in fs && p <= q && HiddenBelow(dir, q);
      assert q[..|c|] == p[..|c|] == c;
      assert Kept(fs, dir, c);
    }
  }

  /** One entry after processing directory child `n`. */
  lemma StepDirEntry(fs: Fs, dir: Path, done: set<string>, n: string, p: Path)
    requires n !in done && IsDir(fs, dir + [n]) && p in fs && !HiddenName(n)
    ensures var g := Cleared(Partial(fs, dir, done), dir + [n]);
      (p in g && (p != dir + [n] || Kept(fs, dir, p))) <==> p in Partial(fs, dir, done + {n})
  {
    var c := dir + [n];
    var f := Partial(fs, dir, done);
    SubtreeUntouched(fs, dir, done, n, c);
    if dir < p && p[|dir|] == n {
      assert p[..|c|] == c;
      SubtreeUntouched(fs, dir, done, n, p);
    } else {
      assert !(c <= p);
    }
  }

  /** Processing a listed directory child: clear it recursively, then try `rmdir`. */
  lemma StepDir(fs: Fs, dir: Path, done: set<string>, n: string)
    requires n !in done && IsDir(fs, dir + [n]) && !HiddenName(n)
    ensures RemoveDir(Cleared(Partial(fs, dir, done), dir + [n]), dir + [n]) == Partial(fs, dir, done + {n})
  {
    var c := dir + [n];
    var g := Cleared(Partial(fs, dir, done), c);
    var t := Partial(fs, dir, done + {n});
    LeftBelowChild(fs, dir, done, n);
    var h := RemoveDir(g, c);
    assert h == if Kept(fs, dir, c) then g else g - {c};
    forall p | p in fs
      ensures p in h <==> p in t
    {
      StepDirEntry(fs, dir, done, n, p);
    }
    SubmapsOf(fs, h, t);
  }

  /** Two maps that agree with `fs` wherever defined, and have the same keys among those of `fs`, are equal. */
  lemma SubmapsOf(fs: Fs, h: Fs, t: Fs)
    requires forall p | p in h :: p in fs && h[p] == fs[p]
    requires forall p | p in t :: p in fs && t[p] == fs[p]
    requires forall p | p in fs :: p in h <==> p in t
    ensures h == t
  {
    assert h.Keys == t.Keys;
  }

  /** The subtree of a child is strictly smaller than what lies below its parent. */
  lemma WalkShrinks(fs: Fs, dir: Path, done: set<string>, n: string)
    requires n !in done && dir + [n] in fs
    ensures Under(Partial(fs, dir, done), dir + [n]) < Under(fs, dir)
  {
    var c := dir + [n];
    assert c in Under(fs, dir);
    assert c !in Under(Partial(fs, dir, done), c);
  }

  /**
   * What clearing does to a file below `dir`: it goes exactly when no step
   * of its path below `dir` is a dot-name. So every `.htaccess` file stays.
   */
  lemma ClearedFile(fs: Fs, dir: Path, p: Path)
    requires WellFormed(fs) && IsDir(fs, dir) && IsFile(fs, p) && dir < p
    ensures p in Cleared(fs, dir) <==> HiddenBelow(dir, p)
    ensures Name(p) == Htaccess ==> p in Cleared(fs, dir) && Cleared(fs, dir)[p] == fs[p]
  {
    forall q | q in fs && p <= q
      ensures q == p
    {
      if q != p {
        assert q[..|p|] == p;
        AncestorIsDir(fs, q, |p|);
      }
    }
    if Name(p) == Htaccess {
      assert HiddenName(p[|p| - 1]);
    }
  }

  /** A directory below `dir` goes exactly when nothing below it, itself included, has a dot-name step. */
  lemma ClearedDir(fs: Fs, dir: Path, p: Path)
    requires IsDir(fs, dir) && IsDir(fs, p) && dir < p
    ensures p !in Cleared(fs, dir) <==> forall q | q in fs && p <= q :: !HiddenBelow(dir, q)
  {
  }

  /** A regular file the walks delete: any file not named `.htaccess`. */
  predicate Disposable(fs: Fs, p: Path) {
    IsFile(fs, p) && !HtaccessFile(fs, p)
  }

  /** The file system once every disposable file below `dir` is deleted and everything else is kept. */
  function Purged(fs: Fs, dir: Path): Fs {
    if IsDir(fs, dir) then map p | p in fs && !(dir < p && Disposable(fs, p)) :: fs[p] else fs
  }

  /** The disposable files below `dir`. */
  function DisposableUnder(fs: Fs, dir: Path): set<Path> {
    set p | p in Under(fs, dir) && Disposable(fs, p)
  }

  /** The deactivator's walk once the children `done` of `dir` are processed. */
  function PurgedPart(fs: Fs, dir: Path, done: set<string>): Fs {
    map p | p in fs && !(dir < p && p[|dir|] in done && Disposable(fs, p)) :: fs[p]
  }

  lemma PurgedPartWellFormed(fs: Fs, dir: Path, done: set<string>)
    requires WellFormed(fs)
    ensures WellFormed(PurgedPart(fs, dir, done))
  {
  }

  /** Before any child is processed, the walk has changed nothing. */
  lemma PurgedPartNone(fs: Fs, dir: Path)
    ensures PurgedPart(fs, dir, {}) == fs
  {
  }

  lemma PurgedPartComplete(fs: Fs, dir: Path)
    requires WellFormed(fs) && IsDir(fs, dir)
    ensures PurgedPart(fs, dir, Children(fs, dir)) == Purged(fs, dir)
  {
    forall p | p in fs && dir < p
      ensures p[|dir|] in Children(fs, dir)
    {
      ChildOnPath(fs, dir, p);
    }
  }

  /** Processing a directory child: purge it recursively. */
  lemma PurgeStepDir(fs: Fs, dir: Path, done: set<string>, n: string)
    requires n !in done && IsDir(fs, dir + [n])
    ensures Purged(PurgedPart(fs, dir, done), dir + [n]) == PurgedPart(fs, dir, done + {n})
  {
    var c := dir + [n];
    var f := PurgedPart(fs, dir, done);
    assert IsDir(f, c);
    var g := Purged(f, c);
    assert g == map p | p in f && !(c < p && Disposable(f, p)) :: f[p];
    var t := PurgedPart(fs, dir, done + {n});
    forall p | p in fs
      ensures p in g <==> p in t
    {
      if dir < p && p[|dir|] == n {
        assert p[..|c|] == c;
        assert p in f && f[p] == fs[p];
        assert Disposable(f, p) <==> Disposable(fs, p);
        if p == c {
          assert p in g;
          assert p in t;
        } else {
          assert c < p;
          assert p in g <==> !Disposable(fs, p);
          assert p in t <==> !Disposable(fs, p);
        }
      } else {
        assert !(c < p);
        assert p in t <==> p in f;
        assert p in g <==> p in f;
      }
    }
    assert g.Keys == t.Keys;
  }

  /** Processing a file child: delete it unless it is `.htaccess`. */
  lemma PurgeStepFile(fs: Fs, dir: Path, done: set<string>, n: string)
    requires WellFormed(fs) && n !in done && IsFile(fs, dir + [n])
    ensures (if n != Htaccess then Unlink(PurgedPart(fs, dir, done), dir + [n]) else PurgedPart(fs, dir, done))
         == PurgedPart(fs, dir, done + {n})
  {
    var c := dir + [n];
    var f := PurgedPart(fs, dir, done);
    assert Name(c) == n;
    assert c in f;
    if n != Htaccess {
      PurgeFileDeleted(fs, dir, done, n);
    } else {
      PurgeFileKept(fs, dir, done, n);
    }
  }

  lemma PurgeFileDeleted(fs: Fs, dir: Path, done: set<string>, n: string)
    requires WellFormed(fs) && n !in done && IsFile(fs, dir + [n]) && n != Htaccess
    ensures PurgedPart(fs, dir, done) - {dir + [n]} == PurgedPart(fs, dir, done + {n})
  {
    forall p | p in fs && dir < p && p[|dir|] == n
      ensures p == dir + [n]
    {
      OnlyFileBelow(fs, dir, n, p);
    }
    assert Name(dir + [n]) == n;
  }

  lemma PurgeFileKept(fs: Fs, dir: Path, done: set<string>, n: string)
    requires WellFormed(fs) && n !in done && IsFile(fs, dir + [n]) && n == Htaccess
    ensures PurgedPart(fs, dir, done) == PurgedPart(fs, dir, done + {n})
  {
    forall p | p in fs && dir < p && p[|dir|] == n
      ensures p == dir + [n]
    {
      OnlyFileBelow(fs, dir, n, p);
    }
    assert Name(dir + [n]) == n;
  }

  /** The subtree of a child is strictly smaller than what lies below its parent. */
  lemma PurgeShrinks(fs: Fs, dir: Path, done: set<string>, n: string)
    requires n !in done && dir + [n] in fs
    ensures Under(PurgedPart(fs, dir, done), dir + [n]) < Under(fs, dir)
  {
    var c := dir + [n];
    assert c in Under(fs, dir);
    assert c !in Under(PurgedPart(fs, dir, done), c);
  }

  /** The total size of the regular files among `ps`. */
  ghost function SizeOf(fs: Fs, ps: set<Path>): nat
    decreases |ps|
  {
    if ps == {} then 0
    else
      var p :| p in ps;
      (if IsFile(fs, p) then Size(fs, p) else 0) + SizeOf(fs, ps - {p})
  }

  /** Any element can be taken first when summing sizes. */
  lemma {:induction false} SizeOfRemove(fs: Fs, ps: set<Path>, p: Path)
    requires p in ps
    ensures SizeOf(fs, ps) == (if IsFile(fs, p) then Size(fs, p) else 0) + SizeOf(fs, ps - {p})
    decreases |ps|
  {
    var q :| q in ps && SizeOf(fs, ps) == (if IsFile(fs, q) then Size(fs, q) else 0) + SizeOf(fs, ps - {q});
    if q != p {
      SizeOfRemove(fs, ps - {q}, p);
      SizeOfRemove(fs, ps - {p}, q);
      assert ps - {q} - {p} == ps - {p} - {q};
    }
  }
}
