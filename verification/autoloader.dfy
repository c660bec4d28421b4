/**
 * The class autoloader: a class of the plugin's namespace is looked up as
 * `class-<name>.php` under a directory chosen by its first namespace segment,
 * and the file is required when it exists.
 */
module Autoloader {
  import opened Wrappers
  import opened Strings

  /** The plugin's namespace prefix, `SmartSiteOptimizer\`. */
  const Namespace: string := "SmartSiteOptimizer\\"

  /** `$directory_map`: first namespace segments with a directory of their own. */
  const DirectoryMap: map<string, string> :=
    map["Modules" := "includes/modules", "Admin" := "admin", "CLI" := "cli", "Utils" := "includes/utils"]

  /** `format_filename`: lower case, with `-` for `_`. */
  function FormatFilename(name: string): (r: string)
    ensures |r| == |name|
    ensures forall i :: 0 <= i < |r| ==> !IsUpper(r[i]) && r[i] != '_'
    ensures forall i :: 0 <= i < |r| ==> LowerChar(name[i]) != '_' ==> r[i] == LowerChar(name[i])
    ensures forall i :: 0 <= i < |r| ==> LowerChar(name[i]) == '_' ==> r[i] == '-'
  {
    ReplaceChar(ToLower(name), '_', '-')
  }

  /** `class-<name>.php` */
  function FileName(name: string): string {
    "class-" + FormatFilename(name) + ".php"
  }

  /**
   * The segments of a class name: every `SmartSiteOptimizer\` removed, then
   * the name split at its backslashes (which become directory separators).
   */
  function Parts(cls: string): (parts: seq<string>)
    ensures |parts| >= 1
  {
    Split(ReplaceChar(ReplaceAll(cls, Namespace, ""), '\\', '/'), '/')
  }

  /** Each directory lower-cased and followed by a separator, in order. */
  function Subdirs(dirs: seq<string>): string {
    if dirs == [] then "" else ToLower(dirs[0]) + "/" + Subdirs(dirs[1..])
  }

  /**
   * The place the remaining segments name: the leading ones are directories,
   * the last one the class (an empty name when nothing remains).
   */
  function Locate(parts: seq<string>): string {
    if parts == [] then FileName("") else Subdirs(parts[..|parts| - 1]) + FileName(parts[|parts| - 1])
  }

  /** The file, relative to the plugin directory, that `autoload` looks for; none outside the namespace. */
  function ClassFile(cls: string): Option<string> {
    if !StartsWith(cls, Namespace) then None else Some(Resolve(Parts(cls)))
  }

  /** The mapped directory of the first segment, or `includes/` with every segment kept. */
  function Resolve(parts: seq<string>): string
    requires |parts| >= 1
  {
    if parts[0] in DirectoryMap then DirectoryMap[parts[0]] + "/" + Locate(parts[1..])
    else "includes/" + Locate(parts)
  }

  /** `array_map('strtolower', ...)` */
  function LowerAll(dirs: seq<string>): (r: seq<string>)
    ensures |r| == |dirs| && forall i :: 0 <= i < |dirs| ==> r[i] == ToLower(dirs[i])
  {
    seq(|dirs|, i requires 0 <= i < |dirs| => ToLower(dirs[i]))
  }

  /** `implode` of the lower-cased directories plus a final separator spells the same path. */
  lemma {:induction false} JoinSubdirs(dirs: seq<string>)
    requires |dirs| >= 1
    ensures Join(LowerAll(dirs), "/") + "/" == Subdirs(dirs)
  {
    if |dirs| > 1 {
      assert LowerAll(dirs)[1..] == LowerAll(dirs[1..]);
      JoinSubdirs(dirs[1..]);
    }
  }

  /** The directory chosen by the first segment, followed by the place of the segments left. */
  lemma ResolveSplit(all: seq<string>, dir: string, rest: seq<string>)
    requires |all| >= 1
    requires all[0] in DirectoryMap ==> dir == DirectoryMap[all[0]] + "/" && rest == all[1..]
    requires all[0] !in DirectoryMap ==> dir == "includes/" && rest == all
    ensures dir + Locate(rest) == Resolve(all)
  {
  }

  /**
   * `autoload`: the file required, if any. A class outside the namespace,
   * or one whose file does not exist, loads nothing.
   */
  method Autoload(cls: string, pluginDir: string, fileExists: string -> bool) returns (required: Option<string>)
    ensures ClassFile(cls).None? ==> required == None
    ensures ClassFile(cls).Some? ==>
      required == if fileExists(pluginDir + ClassFile(cls).value) then Some(pluginDir + ClassFile(cls).value) else None
  {
    if !StartsWith(cls, Namespace) {
      return None;
    }
    // Every namespace prefix removed, backslashes made slashes, then `explode`d;
    // `explode` never returns an empty array, so the first segment always exists.
    var parts := Parts(cls);
    ghost var all := parts;
    ghost var dir;
    var baseDir := pluginDir;
    var ns := parts[0];
    if ns in DirectoryMap {
      dir := DirectoryMap[ns] + "/";
      baseDir := baseDir + DirectoryMap[ns] + "/";
      parts := parts[1..];
    } else {
      dir := "includes/";
      baseDir := baseDir + "includes/";
    }
    assert baseDir == pluginDir + dir;
    ghost var prefix := baseDir;
    ghost var rest := parts;
    var className := if parts == [] then "" else parts[|parts| - 1];
    parts := if parts == [] then [] else parts[..|parts| - 1];
    ghost var sub := "";
    if parts != [] {
      var lowered := LowerAll(parts);
      JoinSubdirs(parts);
      sub := Join(lowered, "/") + "/";
      baseDir := baseDir + Join(lowered, "/") + "/";
      assert baseDir == prefix + sub;
    }
    var filename := "class-" + FormatFilename(className) + ".php";
    var file := baseDir + filename;
    assert sub == Subdirs(parts);
    LocateCases(rest);
    assert Locate(rest) == sub + filename;
    ResolveSplit(all, dir, rest);
    assert file == prefix + sub + filename;
    Regroup(pluginDir, dir, sub, filename);
    if fileExists(file) {
      return Some(file);
    }
    return None;
  }

  /** The remaining segments less the last are directories; the last, if any, is the class. */
  lemma LocateCases(rest: seq<string>)
    ensures Locate(rest) == Subdirs(if rest == [] then [] else rest[..|rest| - 1]) + FileName(if rest == [] then "" else rest[|rest| - 1])
  {
  }

  lemma Regroup(a: string, b: string, c: string, d: string)
    ensures (a + b) + c + d == a + (b + (c + d))
  {}

  /** A backslash-separated name reads with slashes once every backslash is replaced. */
  lemma {:induction false} ReplaceCharJoin(segs: seq<string>)
    requires |segs| >= 1
    requires forall i :: 0 <= i < |segs| ==> '\\' !in segs[i]
    ensures ReplaceChar(Join(segs, "\\"), '\\', '/') == Join(segs, "/")
  {
    if |segs| == 1 {
      assert ReplaceChar(segs[0], '\\', '/') == segs[0];
    } else {
      ReplaceCharJoin(segs[1..]);
      var a := segs[0];
      var b := Join(segs[1..], "\\");
      assert Join(segs, "\\") == a + "\\" + b;
      assert Join(segs, "/") == a + "/" + Join(segs[1..], "/");
      assert ReplaceChar(a + "\\" + b, '\\', '/') == ReplaceChar(a, '\\', '/') + "/" + ReplaceChar(b, '\\', '/');
      assert ReplaceChar(a, '\\', '/') == a;
    }
  }

  lemma StripAndSplit(ns: string, segs: seq<string>)
    requires |ns| > 0 && |segs| >= 1
    requires forall i :: 0 <= i < |segs| ==> '\\' !in segs[i] && '/' !in segs[i]
    requires !Contains(Join(segs, "\\"), ns)
    ensures Split(ReplaceChar(ReplaceAll(ns + Join(segs, "\\"), ns, ""), '\\', '/'), '/') == segs
  {
    var rest := Join(segs, "\\");
    ReplaceAllLeading(ns, rest, "");
    ReplaceAllAbsent(rest, ns, "");
    assert ReplaceAll(ns + rest, ns, "") == rest;
    ReplaceCharJoin(segs);
    SplitJoin(segs, '/');
  }

  /**
   * A class named by its segments under the namespace splits back into
   * those segments, provided they hold no separators and do not repeat the
   * namespace prefix.
   */
  lemma ClassParts(segs: seq<string>)
    requires |segs| >= 1
    requires forall i :: 0 <= i < |segs| ==> '\\' !in segs[i] && '/' !in segs[i]
    requires !Contains(Join(segs, "\\"), Namespace)
    ensures Parts(Namespace + Join(segs, "\\")) == segs
  {
    StripAndSplit(Namespace, segs);
  }

  lemma NamespacedClass(segs: seq<string>)
    requires |segs| >= 1
    requires forall i :: 0 <= i < |segs| ==> '\\' !in segs[i] && '/' !in segs[i]
    requires !Contains(Join(segs, "\\"), Namespace)
    ensures ClassFile(Namespace + Join(segs, "\\")) == Some(Resolve(segs))
  {
    var cls := Namespace + Join(segs, "\\");
    assert cls[..|Namespace|] == Namespace;
    ClassParts(segs);
  }

  /**
   * A first segment of `Modules`, `Admin`, `CLI` or `Utils` is replaced by
   * its directory; the segments between it and the class name become
   * lower-cased subdirectories in order.
   */
  lemma MappedNamespace(segs: seq<string>)
    requires |segs| >= 2 && segs[0] in DirectoryMap
    requires forall i :: 0 <= i < |segs| ==> '\\' !in segs[i] && '/' !in segs[i]
    requires !Contains(Join(segs, "\\"), Namespace)
    ensures ClassFile(Namespace + Join(segs, "\\")) ==
      Some(DirectoryMap[segs[0]] + "/" + (Subdirs(segs[1..|segs| - 1]) + FileName(segs[|segs| - 1])))
  {
    NamespacedClass(segs);
    ResolveMapped(segs);
  }

  lemma ResolveMapped(parts: seq<string>)
    requires |parts| >= 2 && parts[0] in DirectoryMap
    ensures Resolve(parts) == DirectoryMap[parts[0]] + "/" + (Subdirs(parts[1..|parts| - 1]) + FileName(parts[|parts| - 1]))
  {
    assert parts[1..][..|parts| - 2] == parts[1..|parts| - 1];
  }

  /** Any other first segment stays, as a lower-cased directory under `includes/`. */
  lemma OtherNamespace(segs: seq<string>)
    requires |segs| >= 1 && segs[0] !in DirectoryMap
    requires forall i :: 0 <= i < |segs| ==> '\\' !in segs[i] && '/' !in segs[i]
    requires !Contains(Join(segs, "\\"), Namespace)
    ensures ClassFile(Namespace + Join(segs, "\\")) ==
      Some("includes/" + (Subdirs(segs[..|segs| - 1]) + FileName(segs[|segs| - 1])))
  {
    NamespacedClass(segs);
    ResolveOther(segs);
  }

  lemma ResolveOther(parts: seq<string>)
    requires |parts| >= 1 && parts[0] !in DirectoryMap
    ensures Resolve(parts) == "includes/" + (Subdirs(parts[..|parts| - 1]) + FileName(parts[|parts| - 1]))
  {
  }

  /** Names outside the namespace load nothing. */
  lemma ForeignClass(cls: string)
    requires !StartsWith(cls, Namespace)
    ensures ClassFile(cls) == None
  {
  }

  lemma ActivatorPath()
    ensures "includes/" + ("" + FileName("Activator")) == "includes/class-activator.php"
  {
    var lower := "activator";
    assert forall i :: 0 <= i < |lower| ==> LowerChar("Activator"[i]) == lower[i];
    PlainName("Activator", lower);
  }

  /** A name whose lower-case form has no `_` is only lower-cased. */
  lemma PlainName(name: string, lower: string)
    requires |lower| == |name| && '_' !in lower
    requires forall i :: 0 <= i < |name| ==> LowerChar(name[i]) == lower[i]
    ensures FileName(name) == "class-" + lower + ".php"
  {
    assert FormatFilename(name) == lower;
  }

  /** `SmartSiteOptimizer\Activator` lives in `includes/class-activator.php`. */
  lemma ActivatorFile()
    ensures ClassFile("SmartSiteOptimizer\\Activator") == Some("includes/class-activator.php")
  {
    var segs := ["Activator"];
    var joined := Join(segs, "\\");
    assert joined == "Activator";
    assert Namespace + joined == "SmartSiteOptimizer\\Activator";
    NoFirstChar(joined, Namespace);
    assert "Activator" !in DirectoryMap;
    OtherNamespace(segs);
    assert segs[..0] == [];
    ActivatorPath();
  }
}
