/**
 * PHP values as the plugin's options and form input carry them: scalars and
 * ordered arrays, with the language rules the plugin leans on (`empty()`,
 * truthiness, `isset`, `??`, `intval`, `absint`, array assignment).
 */
module Php {
  import opened Strings

  datatype Key = IntKey(n: int) | StrKey(s: string)

  /** An array is an ordered list of entries; PHP keeps its keys distinct. */
  datatype Value = Null | Bool(b: bool) | Int(i: int) | Str(s: string) | Arr(entries: seq<Entry>)

  datatype Entry = Entry(key: Key, val: Value)

  /** `empty($s)` on a string: `''` and `'0'` are both empty. */
  predicate EmptyString(s: string) {
    s == "" || s == "0"
  }

  /** `empty($v)`, which is also what `! $v` tests on a set value. */
  predicate Empty(v: Value) {
    match v
    case Null => true
    case Bool(b) => !b
    case Int(i) => i == 0
    case Str(s) => EmptyString(s)
    case Arr(es) => es == []
  }

  predicate IsArray(v: Value) {
    v.Arr?
  }

  /** The keys of an array, in order. */
  function Keys(es: seq<Entry>): (ks: seq<Key>)
    ensures |ks| == |es|
  {
    if es == [] then [] else [es[0].key] + Keys(es[1..])
  }

  predicate UniqueKeys(es: seq<Entry>) {
    forall i, j :: 0 <= i < j < |es| ==> es[i].key != es[j].key
  }

  /** `$es[$k]`, or `null` when the key is absent. */
  function Lookup(es: seq<Entry>, k: Key): (v: Value)
  {
    if es == [] then Null
    else if es[0].key == k then es[0].val
    else Lookup(es[1..], k)
  }

  /** `$v['name']`: `null` when `v` is not an array or has no such key. */
  function Get(v: Value, name: string): Value {
    if v.Arr? then Lookup(v.entries, StrKey(name)) else Null
  }

  /** `isset($v['name'])` */
  predicate IsSet(v: Value, name: string) {
    Get(v, name) != Null
  }

  /** `$v['name'] ?? $default` */
  function Coalesce(v: Value, name: string, default: Value): Value {
    if IsSet(v, name) then Get(v, name) else default
  }

  /**
   * `$es[$k] = $v`: an existing key keeps its place and takes the new value,
   * a new key is appended.
   */
  function Put(es: seq<Entry>, k: Key, v: Value): seq<Entry> {
    if es == [] then [Entry(k, v)]
    else if es[0].key == k then [Entry(k, v)] + es[1..]
    else [es[0]] + Put(es[1..], k, v)
  }

  /** Assignment keeps the key order and appends a new key. */
  lemma {:induction false} PutKeys(es: seq<Entry>, k: Key, v: Value)
    ensures Keys(Put(es, k, v)) == if k in Keys(es) then Keys(es) else Keys(es) + [k]
  {
    if es != [] && es[0].key != k {
      PutKeys(es[1..], k, v);
      assert Put(es, k, v)[1..] == Put(es[1..], k, v);
    }
  }

  /** Assignment sets `k` and leaves every other key's value. */
  lemma {:induction false} PutLookup(es: seq<Entry>, k: Key, v: Value, k': Key)
    ensures Lookup(Put(es, k, v), k') == if k' == k then v else Lookup(es, k')
  {
    if es != [] && es[0].key != k {
      PutLookup(es[1..], k, v, k');
      assert Put(es, k, v)[1..] == Put(es[1..], k, v);
    }
  }

  /** An array of named fields, in the given order. */
  function Record(fields: seq<(string, Value)>): Value {
    Arr(seq(|fields|, i requires 0 <= i < |fields| => Entry(StrKey(fields[i].0), fields[i].1)))
  }

  /** A list: keys 0, 1, ... in order. */
  function List(items: seq<Value>): Value {
    Arr(seq(|items|, i requires 0 <= i < |items| => Entry(IntKey(i), items[i])))
  }

  /** The values of an array, in order (what `foreach` visits). */
  function Values(es: seq<Entry>): (vs: seq<Value>)
    ensures |vs| == |es|
    ensures forall i :: 0 <= i < |es| ==> vs[i] == es[i].val
  {
    seq(|es|, i requires 0 <= i < |es| => es[i].val)
  }

  predicate IsSpace(c: char) {
    c == ' ' || c == '\t' || c == '\n' || c == '\r' || c == '\U{000B}' || c == '\U{000C}'
  }

  predicate IsDigit(c: char) {
    '0' <= c <= '9'
  }

  /** `PHP_INT_MIN` and `PHP_INT_MAX` of a 64-bit build. */
  const PhpIntMin: int := -0x8000_0000_0000_0000
  const PhpIntMax: int := 0x7FFF_FFFF_FFFF_FFFF

  /**
   * The least magnitude that a correctly rounded `strtod` turns into infinity:
   * the largest double plus half a unit in its last place, (2^54 - 1) * 2^970.
   */
  const DoubleOverflow: nat :=
    0xffff_ffff_ffff_fc00_0000_0000_0000_0000_0000_0000_0000_0000_0000_0000_0000_0000_0000_0000_0000_0000_0000_0000_0000_0000_0000_0000_0000_0000_0000_0000_0000_0000_0000_0000_0000_0000_0000_0000_0000_0000_0000_0000_0000_0000_0000_0000_0000_0000_0000_0000_0000_0000_0000_0000_0000_0000_0000_0000_0000_0000_0000_0000_0000_0000

  function Pow10(n: nat): (p: nat)
    ensures p >= 1
  {
    if n == 0 then 1 else 10 * Pow10(n - 1)
  }

  /** The length of the leading run of decimal digits of `s`. */
  function DigitRun(s: string): (n: nat)
    ensures n <= |s|
    ensures forall i :: 0 <= i < n ==> IsDigit(s[i])
    ensures n == |s| || !IsDigit(s[n])
    decreases |s|
  {
    if |s| > 0 && IsDigit(s[0]) then 1 + DigitRun(s[1..]) else 0
  }

  predicate AllDigits(d: string) {
    forall i :: 0 <= i < |d| ==> IsDigit(d[i])
  }

  /** The value of a string of decimal digits, most significant first. */
  function DigitsValue(d: string): nat
    requires AllDigits(d)
    decreases |d|
  {
    if d == [] then 0 else DigitsValue(d[..|d| - 1]) * 10 + (d[|d| - 1] as int - '0' as int)
  }

  /**
   * The exponent part `(e|E)[sign]digits` at the head of `u`, 0 when `u` does
   * not start with one.
   */
  function Exponent(u: string): int {
    if |u| > 0 && (u[0] == 'e' || u[0] == 'E') then
      var v := u[1..];
      var w := if |v| > 0 && (v[0] == '-' || v[0] == '+') then v[1..] else v;
      var n := DigitRun(w);
      if |v| > 0 && v[0] == '-' then -(DigitsValue(w[..n]) as int) else DigitsValue(w[..n])
    else 0
  }

  /**
   * The unsigned number at the head of `t` as `(m, scale)`, worth `m * 10^scale`:
   * digits, an optional `.` and fraction digits, an optional exponent. A head
   * with no digit before or after the point is no number and gives `(0, 0)`.
   */
  function Unsigned(t: string): (r: (nat, int)) {
    var ip := DigitRun(t);
    var hasPoint := ip < |t| && t[ip] == '.';
    var fp := if hasPoint then DigitRun(t[ip + 1..]) else 0;
    var end := if hasPoint then ip + 1 + fp else ip;
    if ip == 0 && fp == 0 then (0, 0)
    else
      var mantissa := if hasPoint then t[..ip] + t[ip + 1..end] else t[..ip];
      (DigitsValue(mantissa), Exponent(t[end..]) - fp)
  }

  /** `m * 10^scale` truncated toward zero. */
  function Truncated(m: nat, scale: int): int {
    if scale >= 0 then m * Pow10(scale) else m / Pow10(-scale)
  }

  /** Whether `m * 10^scale` reads as an infinite double. */
  predicate Infinite(m: nat, scale: int) {
    if scale >= 0 then m * Pow10(scale) >= DoubleOverflow else m >= DoubleOverflow * Pow10(-scale)
  }

  /** The saturating conversion of a finite double to a PHP integer. */
  function Clamp(i: int): (r: int)
    ensures PhpIntMin <= r <= PhpIntMax
    ensures PhpIntMin <= i <= PhpIntMax ==> r == i
    ensures i > PhpIntMax ==> r == PhpIntMax
    ensures i < PhpIntMin ==> r == PhpIntMin
  {
    if i > PhpIntMax then PhpIntMax else if i < PhpIntMin then PhpIntMin else i
  }

  /**
   * `intval` of a string (PHP 7.1 and later): leading white space, then the
   * number `ReadNumber` finds.
   */
  function StringToInt(s: string): (r: int)
    ensures PhpIntMin <= r <= PhpIntMax
    decreases |s|
  {
    if |s| > 0 && IsSpace(s[0]) then StringToInt(s[1..]) else ReadNumber(s)
  }

  /**
   * An optional sign, then the numeric prefix with its fraction and exponent.
   */
  function ReadNumber(s: string): (r: int)
    ensures PhpIntMin <= r <= PhpIntMax
  {
    var t := if |s| > 0 && (s[0] == '-' || s[0] == '+') then s[1..] else s;
    var u := Unsigned(t);
    ToInteger(|s| > 0 && s[0] == '-', u.0, u.1)
  }

  /**
   * The PHP integer for the number `(-1 or 1) * m * 10^scale`: truncated toward
   * zero, saturated beyond the integer range, and 0 when the value is infinite
   * as a double.
   */
  function ToInteger(negative: bool, m: nat, scale: int): (r: int)
    ensures PhpIntMin <= r <= PhpIntMax
  {
    if Infinite(m, scale) then 0
    else if negative then Clamp(-Truncated(m, scale))
    else Clamp(Truncated(m, scale))
  }

  lemma {:induction false} NatToDecimalDigits(n: nat)
    ensures AllDigits(NatToDecimal(n))
    ensures DigitRun(NatToDecimal(n)) == |NatToDecimal(n)|
    ensures DigitsValue(NatToDecimal(n)) == n
  {
    var d := NatToDecimal(n);
    assert AllDigits(d);
    DigitRunAll(d);
    if n >= 10 {
      NatToDecimalDigits(n / 10);
      assert d[..|d| - 1] == NatToDecimal(n / 10);
    }
  }

  lemma DigitRunAll(d: string)
    requires AllDigits(d)
    ensures DigitRun(d) == |d|
  {
  }

  /** A plain run of digits is read as its value with scale 0. */
  lemma UnsignedDigits(d: string)
    requires d != [] && AllDigits(d)
    ensures Unsigned(d) == (DigitsValue(d), 0)
  {
    DigitRunAll(d);
    assert d[..|d|] == d;
  }

  /** A whole number reads as itself, saturated, or 0 when infinite. */
  lemma WholeNumber(negative: bool, v: nat)
    ensures ToInteger(negative, v, 0) == if v >= DoubleOverflow then 0 else Clamp(if negative then -(v as int) else v)
  {
    assert Truncated(v, 0) == v;
  }

  /** Plain digits, with or without a minus sign, read as their value. */
  lemma ReadDigits(d: string)
    requires d != [] && AllDigits(d)
    ensures ReadNumber(d) == ToInteger(false, DigitsValue(d), 0)
    ensures ReadNumber("-" + d) == ToInteger(true, DigitsValue(d), 0)
  {
    UnsignedDigits(d);
    assert IsDigit(d[0]);
    assert ("-" + d)[1..] == d;
  }

  /** White space aside, `intval` is `ReadNumber`. */
  lemma NoLeadingSpace(s: string)
    requires |s| > 0 && !IsSpace(s[0])
    ensures StringToInt(s) == ReadNumber(s)
  {
  }

  lemma DecimalStart(n: int)
    ensures !IsSpace(IntToDecimal(n)[0])
  {
    if n >= 0 {
      assert IsDigit(NatToDecimal(n)[0]);
    }
  }

  lemma ReadDecimal(n: int)
    ensures ReadNumber(IntToDecimal(n)) == if -(DoubleOverflow as int) < n < DoubleOverflow then Clamp(n) else 0
  {
    var k: nat := if n < 0 then -n else n;
    var d := NatToDecimal(k);
    NatToDecimalDigits(k);
    ReadDigits(d);
    WholeNumber(n < 0, k);
    if n < 0 {
      assert IntToDecimal(n) == "-" + d;
    } else {
      assert IntToDecimal(n) == d;
    }
  }

  /** Reading back the decimal form of an integer gives it, saturated. */
  lemma DecimalRoundTrip(n: int)
    ensures StringToInt(IntToDecimal(n)) == if -(DoubleOverflow as int) < n < DoubleOverflow then Clamp(n) else 0
  {
    ReadDecimal(n);
    DecimalStart(n);
    NoLeadingSpace(IntToDecimal(n));
  }

  /** `intval("1e3")` is 1000: the exponent is read. */
  lemma ExponentRead()
    ensures StringToInt("1e3") == 1000
  {
    var t := "1e3";
    assert DigitRun(t[1..]) == 0;
    assert DigitRun(t) == 1;
    assert DigitsValue(t[..1]) == 1;
    var w := t[2..];
    assert DigitRun(w) == 1 by { assert DigitRun(w[1..]) == 0; }
    assert DigitsValue(w[..1]) == 3;
    assert Exponent(t[1..]) == 3;
    assert Unsigned(t) == (1, 3);
    assert Pow10(3) == 1000;
  }

  /** `intval("1.9e2")` is 190: the fraction joins the mantissa before scaling. */
  lemma FractionExponentRead()
    ensures StringToInt("1.9e2") == 190
  {
    var t := "1.9e2";
    assert DigitRun(t[1..]) == 0;
    assert DigitRun(t) == 1;
    var f := t[2..];
    assert DigitRun(f) == 1 by { assert DigitRun(f[1..]) == 0; }
    var mantissa := t[..1] + t[2..3];
    assert mantissa == "19";
    assert DigitsValue(mantissa) == 19 by { assert DigitsValue(mantissa[..1]) == 1; }
    var w := t[4..];
    assert DigitRun(w) == 1 by { assert DigitRun(w[1..]) == 0; }
    assert DigitsValue(w[..1]) == 2;
    assert Exponent(t[3..]) == 2;
    assert Unsigned(t) == (19, 1);
    assert Pow10(1) == 10;
  }

  /** `intval("-1.9")` is -1: the fraction is truncated toward zero. */
  lemma FractionTruncated()
    ensures StringToInt("-1.9") == -1
  {
    var s := "-1.9";
    var t := s[1..];
    assert DigitRun(t[1..]) == 0;
    assert DigitRun(t) == 1;
    var f := t[2..];
    assert DigitRun(f) == 1 by { assert DigitRun(f[1..]) == 0; }
    var mantissa := t[..1] + t[2..3];
    assert DigitsValue(mantissa) == 19 by { assert DigitsValue(mantissa[..1]) == 1; }
    assert Exponent(t[3..]) == 0;
    assert Unsigned(t) == (19, -1);
    assert Pow10(1) == 10;
  }

  /** Text with no digit before or after the point reads as 0. */
  lemma NoNumberIsZero()
    ensures StringToInt("abc") == 0
    ensures StringToInt(".e3") == 0
  {
    var t := ".e3";
    assert DigitRun(t) == 0;
    assert DigitRun(t[1..]) == 0;
    assert Unsigned(t) == (0, 0);
    assert DigitRun("abc") == 0;
    assert Unsigned("abc") == (0, 0);
  }

  /** Leading white space is skipped and trailing text ignored. */
  lemma PaddedNumber()
    ensures StringToInt(" 12px") == 12
  {
    var s := " 12px";
    var t := s[1..];
    assert DigitRun(t[2..]) == 0;
    assert DigitRun(t[1..]) == 1;
    assert DigitRun(t) == 2;
    assert DigitsValue(t[..2]) == 12 by { assert DigitsValue(t[..2][..1]) == 1; }
    assert Exponent(t[2..]) == 0;
    assert Unsigned(t) == (12, 0);
  }

  /**
   * Integer text is read as its value, saturated at the 64-bit bounds; text
   * too long for a double reads as 0.
   */
  lemma IntegerTextSaturates(d: string)
    requires d != [] && AllDigits(d)
    ensures DigitsValue(d) <= PhpIntMax ==> StringToInt(d) == DigitsValue(d)
    ensures PhpIntMax < DigitsValue(d) < DoubleOverflow ==> StringToInt(d) == PhpIntMax
    ensures DigitsValue(d) >= DoubleOverflow ==> StringToInt(d) == 0
  {
    ReadDigits(d);
    WholeNumber(false, DigitsValue(d));
    NoLeadingSpace(d);
  }

  /** Negative integer text saturates at `PHP_INT_MIN`. */
  lemma NegativeTextSaturates(d: string)
    requires d != [] && AllDigits(d)
    ensures DigitsValue(d) <= -PhpIntMin ==> StringToInt("-" + d) == -(DigitsValue(d) as int)
    ensures -PhpIntMin < DigitsValue(d) < DoubleOverflow ==> StringToInt("-" + d) == PhpIntMin
  {
    ReadDigits(d);
    WholeNumber(true, DigitsValue(d));
    NoLeadingSpace("-" + d);
  }

  /** `intval($v)` */
  function IntVal(v: Value): int {
    match v
    case Null => 0
    case Bool(b) => if b then 1 else 0
    case Int(i) => i
    case Str(s) => StringToInt(s)
    case Arr(es) => if es == [] then 0 else 1
  }

  /** WordPress `absint($v)`: `abs( (int) $v )`. */
  function AbsInt(v: Value): (n: nat)
    ensures n == IntVal(v) || n == -IntVal(v)
  {
    var i := IntVal(v);
    if i < 0 then -i else i
  }

  /** `(string) $v` for the values options hold. */
  function ToStr(v: Value): string {
    match v
    case Null => ""
    case Bool(b) => if b then "1" else ""
    case Int(i) => IntToDecimal(i)
    case Str(s) => s
    case Arr(_) => "Array"
  }
}
