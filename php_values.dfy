/**
 * The PHP values that the repository and the response helper inspect, with the
 * few PHP conversions they rely on: `empty()`, `(array)`, `(string)`, `(int)`
 * and `strtolower`.
 */
module PhpValues {
  import opened Wrappers

  /** An array key after PHP's key normalisation (the key "5" is stored as 5). */
  datatype Key = IntKey(i: int) | StrKey(s: string)

  /** A PHP value. Floats, objects and resources are not modelled. */
  datatype Value =
    | Null
    | Bool(b: bool)
    | Int(i: int)
    | Str(s: string)
    | Arr(entries: Entries)

  /** The entries of a PHP array, in insertion order. */
  type Entries = seq<(Key, Value)>

  /** `$a[$k]` for a key that exists: the value of its entry. */
  function Lookup(es: Entries, k: Key): (r: Option<Value>)
    ensures r.Some? <==> exists i :: 0 <= i < |es| && es[i].0 == k
    ensures r.Some? ==> (k, r.value) in es
  {
    if |es| == 0 then None
    else if es[0].0 == k then Some(es[0].1)
    else
      var r := Lookup(es[1..], k);
      assert forall i :: 0 < i < |es| ==> es[i] == es[1..][i - 1];
      r
  }

  /** `xs` is `ys` with some entries deleted, the rest in their order: what a key filter on an array leaves. */
  predicate IsSubsequence<T(==)>(xs: seq<T>, ys: seq<T>) {
    |xs| == 0 ||
    (|ys| > 0 && ((xs[0] == ys[0] && IsSubsequence(xs[1..], ys[1..])) || IsSubsequence(xs, ys[1..])))
  }

  /** PHP's `empty()` on a value; an absent array key reads as `Null`, which is empty. */
  predicate IsEmpty(v: Value) {
    match v
    case Null => true
    case Bool(b) => !b
    case Int(i) => i == 0
    case Str(s) => s == "" || s == "0"
    case Arr(es) => |es| == 0
  }

  /** `(array)$v`: null becomes `[]`, a scalar becomes `[$v]`, an array stays itself. */
  function ArrayCast(v: Value): Entries {
    match v
    case Null => []
    case Arr(es) => es
    case _ => [(IntKey(0), v)]
  }

  predicate IsDigit(c: char) {
    '0' <= c <= '9'
  }

  /** The whitespace PHP skips before a numeric string: space, tab, newline, vertical tab, form feed, carriage return. */
  predicate IsSpace(c: char) {
    c == ' ' || 9 <= c as int <= 13
  }

  predicate AllDigits(s: string) {
    forall i :: 0 <= i < |s| ==> IsDigit(s[i])
  }

  function DigitChar(d: nat): (c: char)
    requires d < 10
    ensures IsDigit(c)
  {
    (48 + d) as char
  }

  function DigitValue(c: char): (d: nat)
    requires IsDigit(c)
    ensures d < 10
  {
    c as int - 48
  }

  /** The decimal digits of `n`, most significant first, without leading zeros. */
  function NatToString(n: nat): (s: string)
    ensures |s| > 0 && AllDigits(s)
    decreases n
  {
    if n < 10 then [DigitChar(n)] else NatToString(n / 10) + [DigitChar(n % 10)]
  }

  /** `(string)` of a PHP integer. */
  function IntToString(i: int): (s: string)
    ensures |s| > 0 && (s[0] == '-' || IsDigit(s[0]))
  {
    if i < 0 then "-" + NatToString(-i) else NatToString(i)
  }

  /** The number a string of decimal digits denotes. */
  function DigitsValue(s: string): nat
    requires AllDigits(s)
  {
    if |s| == 0 then 0 else DigitsValue(s[..|s| - 1]) * 10 + DigitValue(s[|s| - 1])
  }

  /** The longest prefix of `s` made of decimal digits. */
  function LeadingDigits(s: string): (r: string)
    ensures AllDigits(r) && r <= s
  {
    if |s| == 0 || !IsDigit(s[0]) then [] else [s[0]] + LeadingDigits(s[1..])
  }

  /** `s` without its leading whitespace. */
  function TrimStart(s: string): (r: string)
    ensures |r| == 0 || !IsSpace(r[0])
  {
    if |s| > 0 && IsSpace(s[0]) then TrimStart(s[1..]) else s
  }

  /** `(int)` of a string: leading whitespace, an optional sign, then the leading digits; anything else reads as 0. */
  function StrToInt(s: string): int {
    var t := TrimStart(s);
    if |t| > 0 && t[0] == '-' then 0 - DigitsValue(LeadingDigits(t[1..]))
    else if |t| > 0 && t[0] == '+' then DigitsValue(LeadingDigits(t[1..]))
    else DigitsValue(LeadingDigits(t))
  }

  /** `(int)$v`. */
  function IntCast(v: Value): int {
    match v
    case Null => 0
    case Bool(b) => if b then 1 else 0
    case Int(i) => i
    case Str(s) => StrToInt(s)
    case Arr(es) => if |es| == 0 then 0 else 1
  }

  /** `(string)$v`; an array converts to "Array" (PHP also raises a warning). */
  function ToStr(v: Value): string {
    match v
    case Null => ""
    case Bool(b) => if b then "1" else ""
    case Int(i) => IntToString(i)
    case Str(s) => s
    case Arr(_) => "Array"
  }

  /** ASCII lower-casing of one character, as `strtolower` does. */
  function LowerChar(c: char): char {
    if 'A' <= c <= 'Z' then (c as int + 32) as char else c
  }

  /** `strtolower($s)`. */
  function Lower(s: string): (r: string)
    ensures |r| == |s|
    ensures forall i :: 0 <= i < |s| ==> r[i] == LowerChar(s[i])
  {
    seq(|s|, i requires 0 <= i < |s| => LowerChar(s[i]))
  }

  lemma {:induction false} LeadingDigitsOfDigits(s: string)
    requires AllDigits(s)
    ensures LeadingDigits(s) == s
  {
    if |s| > 0 {
      LeadingDigitsOfDigits(s[1..]);
      assert [s[0]] + s[1..] == s;
    }
  }

  lemma {:induction false} NatToStringValue(n: nat)
    ensures DigitsValue(NatToString(n)) == n
    decreases n
  {
    if n >= 10 {
      NatToStringValue(n / 10);
      var s := NatToString(n / 10) + [DigitChar(n % 10)];
      assert s[..|s| - 1] == NatToString(n / 10);
    }
  }

  /** `(int)` undoes `(string)` on integers: the decimal text of `i` casts back to `i`. */
  lemma IntCastInvertsToStr(i: int)
    ensures IntCast(Str(ToStr(Int(i)))) == i
  {
    var s := IntToString(i);
    assert ToStr(Int(i)) == s;
    assert TrimStart(s) == s;
    if i < 0 {
      var d := NatToString(-i);
      assert s[0] == '-' && s[1..] == d;
      LeadingDigitsOfDigits(d);
      NatToStringValue(-i);
      assert StrToInt(s) == 0 - DigitsValue(d);
    } else {
      assert s == NatToString(i) && IsDigit(s[0]);
      LeadingDigitsOfDigits(s);
      NatToStringValue(i);
      assert StrToInt(s) == DigitsValue(s);
    }
  }

  /** Only a string can read as "asc" after `(string)` and `strtolower`: null, booleans, integers and arrays never do. */
  lemma LowerToStrOfNonString(v: Value)
    requires !v.Str?
    ensures Lower(ToStr(v)) != "asc"
  {
    match v
    case Null =>
    case Bool(b) =>
    case Arr(_) =>
      assert |Lower(ToStr(v))| == 5;
    case Int(i) =>
      var s := IntToString(i);
      if |s| == 3 {
        assert Lower(s)[0] == LowerChar(s[0]) == s[0];
      }
  }
}
