/**
 * The PHP string functions the plugin relies on, over `string` (= `seq<char>`):
 * `strpos(...) !== false`, `strpos(...) === 0`, `str_replace`, `strtolower`,
 * `explode`, `implode` and integer-to-string conversion.
 */
module Strings {

  /** `strpos($s, $p) === 0` */
  predicate StartsWith(s: string, p: string) {
    |p| <= |s| && s[..|p|] == p
  }

  predicate EndsWith(s: string, p: string) {
    |p| <= |s| && s[|s| - |p|..] == p
  }

  /** `strpos($s, $p) !== false`: `p` occurs somewhere in `s`. */
  predicate Contains(s: string, p: string)
    decreases |s|
  {
    StartsWith(s, p) || (|s| > 0 && Contains(s[1..], p))
  }

  /** `p` occurs in `s` starting at index `i`. */
  predicate OccursAt(s: string, p: string, i: int) {
    0 <= i <= |s| - |p| && s[i..i + |p|] == p
  }

  /** The positional reading of Contains. */
  lemma {:induction false} ContainsAt(s: string, p: string)
    ensures Contains(s, p) <==> exists i :: OccursAt(s, p, i)
    decreases |s|
  {
    if StartsWith(s, p) {
      assert OccursAt(s, p, 0);
    } else if |s| > 0 {
      ContainsAt(s[1..], p);
      if Contains(s[1..], p) {
        var i :| OccursAt(s[1..], p, i);
        assert s[i + 1..i + 1 + |p|] == s[1..][i..i + |p|];
        assert OccursAt(s, p, i + 1);
      }
      if exists i :: OccursAt(s, p, i) {
        var i :| OccursAt(s, p, i);
        assert s[1..][i - 1..i - 1 + |p|] == s[i..i + |p|];
        assert OccursAt(s[1..], p, i - 1);
      }
    }
  }

  /** A text that contains `p` contains every piece of `p`. */
  lemma ContainsInfix(s: string, p: string, i: nat, j: nat)
    requires Contains(s, p) && i <= j <= |p|
    ensures Contains(s, p[i..j])
  {
    ContainsAt(s, p);
    var k :| OccursAt(s, p, k);
    assert s[k + i..k + j] == p[i..j] by {
      forall m | 0 <= m < j - i
        ensures s[k + i..k + j][m] == p[i..j][m]
      {
        assert s[k..k + |p|][i + m] == p[i + m];
      }
    }
    assert OccursAt(s, p[i..j], k + i);
    ContainsAt(s, p[i..j]);
  }

  /** A suffix of the text contains only what the text contains. */
  lemma ContainsSuffix(s: string, p: string, n: nat)
    requires n <= |s| && Contains(s[n..], p)
    ensures Contains(s, p)
  {
    ContainsAt(s[n..], p);
    var k :| OccursAt(s[n..], p, k);
    assert s[n + k..n + k + |p|] == s[n..][k..k + |p|];
    assert OccursAt(s, p, n + k);
    ContainsAt(s, p);
  }

  /** A text without the pattern's first character does not contain it. */
  lemma NoFirstChar(s: string, p: string)
    requires |p| > 0 && p[0] !in s
    ensures !Contains(s, p)
  {
    forall i | 0 <= i <= |s| - |p|
      ensures !OccursAt(s, p, i)
    {
      assert s[i..i + |p|][0] == s[i];
    }
    ContainsAt(s, p);
  }

  /** Text put around a text keeps what it contains. */
  lemma ContainsWithin(a: string, s: string, b: string, p: string)
    requires Contains(s, p)
    ensures Contains(a + s + b, p)
  {
    ContainsAt(s, p);
    var k :| OccursAt(s, p, k);
    assert (a + s + b)[|a| + k..|a| + k + |p|] == s[k..k + |p|];
    assert OccursAt(a + s + b, p, |a| + k);
    ContainsAt(a + s + b, p);
  }

  /**
   * `str_replace($pat, $rep, $s)`: every occurrence of `pat`, scanning left to
   * right without overlap, is replaced by `rep`. An empty `pat` changes nothing.
   */
  function ReplaceAll(s: string, pat: string, rep: string): string
    decreases |s|
  {
    if |pat| == 0 then s
    else if StartsWith(s, pat) then rep + ReplaceAll(s[|pat|..], pat, rep)
    else if |s| == 0 then ""
    else [s[0]] + ReplaceAll(s[1..], pat, rep)
  }

  /** Nothing to replace leaves the text as it was. */
  lemma {:induction false} ReplaceAllAbsent(s: string, pat: string, rep: string)
    requires !Contains(s, pat)
    ensures ReplaceAll(s, pat, rep) == s
    decreases |s|
  {
    if |pat| > 0 && |s| > 0 {
      ReplaceAllAbsent(s[1..], pat, rep);
    }
  }

  /** A leading occurrence is replaced first. */
  lemma ReplaceAllLeading(pat: string, rest: string, rep: string)
    requires |pat| > 0
    ensures ReplaceAll(pat + rest, pat, rep) == rep + ReplaceAll(rest, pat, rep)
  {
    assert (pat + rest)[..|pat|] == pat;
    assert (pat + rest)[|pat|..] == rest;
  }

  /** Where the pattern occurs, the replacement shows up in the result. */
  lemma {:induction false} ReplaceAllInserts(s: string, pat: string, rep: string)
    requires |pat| > 0 && Contains(s, pat)
    ensures Contains(ReplaceAll(s, pat, rep), rep)
    decreases |s|
  {
    if StartsWith(s, pat) {
      assert (rep + ReplaceAll(s[|pat|..], pat, rep))[..|rep|] == rep;
    } else {
      ReplaceAllInserts(s[1..], pat, rep);
      var r := ReplaceAll(s, pat, rep);
      assert r[1..] == ReplaceAll(s[1..], pat, rep);
      assert Contains(r[1..], rep);
    }
  }

  /** A leading character unlike the pattern's first one is kept as it is. */
  lemma ReplaceAllSkip(c: char, rest: string, pat: string, rep: string)
    requires |pat| > 0 && pat[0] != c
    ensures ReplaceAll([c] + rest, pat, rep) == [c] + ReplaceAll(rest, pat, rep)
  {
    var s := [c] + rest;
    assert !StartsWith(s, pat) by { assert s[0] == c; }
    assert s[1..] == rest;
  }

  /** Three pieces in a row start with the first and end with the last. */
  lemma Bracketed(a: string, b: string, c: string)
    ensures StartsWith(a + b + c, a) && EndsWith(a + b + c, c)
  {
    var s := a + b + c;
    assert s[..|a|] == a;
    assert s[|s| - |c|..] == c;
  }

  /** Starting with `p` is matching its first character, then the rest. */
  lemma StartsWithCons(t: string, p: string)
    requires |t| > 0 && |p| > 0
    ensures StartsWith(t, p) <==> t[0] == p[0] && StartsWith(t[1..], p[1..])
  {
    if t[0] == p[0] && StartsWith(t[1..], p[1..]) {
      assert t[..|p|] == [t[0]] + t[1..][..|p| - 1];
    }
    if StartsWith(t, p) {
      assert t[1..][..|p| - 1] == t[..|p|][1..];
    }
  }

  /** Starting with `p` means starting with every prefix of `p`. */
  lemma StartsWithPrefix(t: string, p: string, k: nat)
    requires k <= |p| && StartsWith(t, p)
    ensures StartsWith(t, p[..k])
  {
    assert t[..k] == t[..|p|][..k];
  }

  /**
   * The replacement text begins with `rep[0]`, so a result that begins with a
   * word free of that character took the word unchanged from the input.
   */
  lemma {:induction false} ReplaceAllKeepsPrefix(u: string, pat: string, rep: string, w: string)
    requires |pat| > 0 && |rep| > 0
    requires forall j :: 0 <= j < |w| ==> w[j] != rep[0]
    ensures StartsWith(ReplaceAll(u, pat, rep), w) ==> StartsWith(u, w)
    decreases |u|
  {
    var r := ReplaceAll(u, pat, rep);
    if |w| > 0 {
      if StartsWith(u, pat) {
        assert r[0] == rep[0];
      } else if |u| > 0 {
        var r1 := ReplaceAll(u[1..], pat, rep);
        assert r == [u[0]] + r1;
        assert r[1..] == r1;
        StartsWithCons(r, w);
        StartsWithCons(u, w);
        ReplaceAllKeepsPrefix(u[1..], pat, rep, w[1..]);
      }
    }
  }

  /**
   * Replacing `pat` by `rep` and then `rep` by `pat` gives back the input,
   * provided the input does not already contain the head `rep[..k]` of the
   * replacement, and that head repeats its first character nowhere else.
   */
  lemma {:induction false} ReplaceAllRoundTrip(t: string, pat: string, rep: string, k: nat)
    requires |pat| > 0 && 0 < k <= |rep|
    requires forall j :: 1 <= j < k ==> rep[j] != rep[0]
    requires !Contains(t, rep[..k])
    ensures ReplaceAll(ReplaceAll(t, pat, rep), rep, pat) == t
    decreases |t|
  {
    var f := ReplaceAll(t, pat, rep);
    if StartsWith(t, pat) {
      var rest := t[|pat|..];
      if Contains(rest, rep[..k]) {
        ContainsSuffix(t, rep[..k], |pat|);
      }
      ReplaceAllRoundTrip(rest, pat, rep, k);
      assert f == rep + ReplaceAll(rest, pat, rep);
      assert StartsWith(f, rep) by { assert f[..|rep|] == rep; }
      assert f[|rep|..] == ReplaceAll(rest, pat, rep);
      assert t == pat + rest;
    } else if |t| > 0 {
      var ft := ReplaceAll(t[1..], pat, rep);
      assert f == [t[0]] + ft;
      assert f[1..] == ft;
      // f cannot start with rep: its head rep[..k] would come from t itself
      var head := rep[..k];
      ReplaceAllKeepsPrefix(t[1..], pat, rep, head[1..]);
      StartsWithCons(t, head);
      StartsWithCons(f, head);
      assert StartsWith(f, rep) ==> StartsWith(f, head) by {
        if StartsWith(f, rep) { StartsWithPrefix(f, rep, k); }
      }
      assert !StartsWith(t, head);
      assert !StartsWith(f, rep);
      ReplaceAllRoundTrip(t[1..], pat, rep, k);
      assert ReplaceAll(f, rep, pat) == [t[0]] + ReplaceAll(ft, rep, pat);
      assert t == [t[0]] + t[1..];
    }
  }

  /** `strtolower` on ASCII letters. */
  function LowerChar(c: char): char {
    if 'A' <= c <= 'Z' then (c as int + 32) as char else c
  }

  predicate IsUpper(c: char) {
    'A' <= c <= 'Z'
  }

  function ToLower(s: string): (r: string)
    ensures |r| == |s|
    ensures forall i :: 0 <= i < |s| ==> r[i] == LowerChar(s[i]) && !IsUpper(r[i])
  {
    seq(|s|, i requires 0 <= i < |s| => LowerChar(s[i]))
  }

  /** `str_replace` of one character by another. */
  function ReplaceChar(s: string, from: char, to: char): (r: string)
    ensures |r| == |s|
    ensures forall i :: 0 <= i < |s| ==> r[i] == if s[i] == from then to else s[i]
  {
    seq(|s|, i requires 0 <= i < |s| => if s[i] == from then to else s[i])
  }

  /** Index of the first `c` in `s`, or `|s|` when there is none. */
  function IndexOf(s: string, c: char): (i: nat)
    ensures i <= |s|
    ensures i < |s| ==> s[i] == c
    ensures forall j :: 0 <= j < i ==> s[j] != c
  {
    if |s| == 0 then 0 else if s[0] == c then 0 else 1 + IndexOf(s[1..], c)
  }

  /** `explode($sep, $s)`: never empty, and the pieces hold no separator. */
  function Split(s: string, sep: char): (parts: seq<string>)
    ensures |parts| >= 1
    ensures forall i :: 0 <= i < |parts| ==> sep !in parts[i]
    decreases |s|
  {
    var i := IndexOf(s, sep);
    if i == |s| then [s] else [s[..i]] + Split(s[i + 1..], sep)
  }

  /** `implode($sep, $parts)` */
  function Join(parts: seq<string>, sep: string): string {
    if |parts| == 0 then ""
    else if |parts| == 1 then parts[0]
    else parts[0] + sep + Join(parts[1..], sep)
  }

  lemma {:induction false} JoinAppend(a: seq<string>, b: seq<string>, sep: string)
    requires |a| > 0 && |b| > 0
    ensures Join(a + b, sep) == Join(a, sep) + sep + Join(b, sep)
    decreases |a|
  {
    assert (a + b)[0] == a[0];
    assert (a + b)[1..] == a[1..] + b;
    if |a| > 1 {
      JoinAppend(a[1..], b, sep);
    }
  }

  lemma JoinTwo(a: string, b: string, sep: string)
    ensures Join([a, b], sep) == a + sep + b
  {
    assert [a, b][1..] == [b];
  }

  lemma JoinThree(a: string, b: string, c: string, sep: string)
    ensures Join([a, b, c], sep) == a + sep + b + sep + c
  {
    assert [a, b, c][1..] == [b, c];
    assert [b, c][1..] == [c];
    assert Join([c], sep) == c;
    assert Join([b, c], sep) == b + sep + c;
    assert Join([a, b, c], sep) == a + sep + (b + sep + c);
  }

  lemma {:induction false} JoinSplit(s: string, sep: char)
    ensures Join(Split(s, sep), [sep]) == s
    decreases |s|
  {
    var i := IndexOf(s, sep);
    if i < |s| {
      JoinSplit(s[i + 1..], sep);
      assert s == s[..i] + [sep] + s[i + 1..];
    }
  }

  /** Splitting what `implode` joined gives the pieces back when none holds the separator. */
  lemma {:induction false} SplitJoin(parts: seq<string>, sep: char)
    requires |parts| >= 1
    requires forall i :: 0 <= i < |parts| ==> sep !in parts[i]
    ensures Split(Join(parts, [sep]), sep) == parts
    decreases |parts|
  {
    if |parts| > 1 {
      var rest := Join(parts[1..], [sep]);
      assert Join(parts, [sep]) == parts[0] + [sep] + rest;
      SplitFirst(parts[0], sep, rest);
      SplitJoin(parts[1..], sep);
      assert parts == [parts[0]] + parts[1..];
    }
  }

  /** A string with no separator, then a separator: the first piece is that string. */
  lemma SplitFirst(a: string, sep: char, rest: string)
    requires sep !in a
    ensures Split(a + [sep] + rest, sep) == [a] + Split(rest, sep)
  {
    var s := a + [sep] + rest;
    var n := |a|;
    assert s[n] == sep;
    assert forall j :: 0 <= j < n ==> s[j] == a[j];
    assert IndexOf(s, sep) == n;
    assert s[..n] == a;
    assert s[n + 1..] == rest;
  }

  /** The decimal digits of a natural number, most significant first. */
  function NatToDecimal(n: nat): (r: string)
    ensures |r| > 0
    ensures forall i :: 0 <= i < |r| ==> '0' <= r[i] <= '9'
  {
    if n < 10 then [('0' as int + n) as char]
    else NatToDecimal(n / 10) + [('0' as int + n % 10) as char]
  }

  /** PHP's conversion of an integer to a string (`'x' . $n`). */
  function IntToDecimal(n: int): (r: string)
    ensures |r| > 0
  {
    if n < 0 then "-" + NatToDecimal(-n) else NatToDecimal(n)
  }
}
