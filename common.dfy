/**
 * Optional values: JavaScript's `null`/`undefined` become `None`, except
 * where the two are printed and so must be told apart (`Nullable`).
 */
module Wrappers {

  datatype Option<+T> = None | Some(value: T) {

    /** The value, or `default` when absent. */
    function GetOr(default: T): T {
      match this
      case Some(v) => v
      case None => default
    }
  }

  /** A field a JSON object leaves out (`undefined`), sets to `null`, or gives a value. */
  datatype Nullable<+T> = Missing | NullValue | Present(value: T)
}

/**
 * The string operations of JavaScript that the pages use, on `seq<char>`.
 * Only the behaviour the pages rely on is modelled: `toLowerCase` folds
 * ASCII letters only.
 */
module Text {
  import opened Wrappers

  /** A JavaScript string is truthy when it is present and not empty. */
  predicate Truthy(s: Option<string>) {
    s.Some? && s.value != ""
  }

  /** `s || fallback` for an optional string. */
  function Or(s: Option<string>, fallback: string): (r: string)
    ensures Truthy(s) ==> r == s.value
    ensures !Truthy(s) ==> r == fallback
  {
    if Truthy(s) then s.value else fallback
  }

  /** `String(v)`, as a template literal or `encodeURIComponent` prints a field. */
  function Spelled(v: Nullable<string>): (r: string)
    ensures v.Present? ==> r == v.value
    ensures v.Missing? ==> r == "undefined"
    ensures v.NullValue? ==> r == "null"
  {
    match v
    case Present(t) => t
    case Missing => "undefined"
    case NullValue => "null"
  }

  /** The characters JavaScript's `trim` and the regular-expression class `\s` treat as white space. */
  predicate IsWhitespace(c: char) {
    || c == ' ' || c == '\t' || c == '\n' || c == '\r'
    || c == '\U{000B}' || c == '\U{000C}' || c == '\U{00A0}' || c == '\U{FEFF}'
    || c == '\U{1680}' || ('\U{2000}' <= c <= '\U{200A}')
    || c == '\U{2028}' || c == '\U{2029}' || c == '\U{202F}' || c == '\U{205F}' || c == '\U{3000}'
  }

  /** The line terminators, which `.` in a regular expression does not match. */
  predicate IsLineTerminator(c: char) {
    c == '\n' || c == '\r' || c == '\U{2028}' || c == '\U{2029}'
  }

  predicate IsDigit(c: char) {
    '0' <= c <= '9'
  }

  predicate AllDigits(s: string) {
    forall i :: 0 <= i < |s| ==> IsDigit(s[i])
  }

  /** `s.startsWith(p)` */
  predicate StartsWith(s: string, p: string) {
    p <= s
  }

  predicate OccursAt(s: string, sub: string, k: nat) {
    k + |sub| <= |s| && s[k..k + |sub|] == sub
  }

  /** The first position at or after `i` where `sub` occurs in `s`. */
  function IndexFrom(s: string, sub: string, i: nat): (r: Option<nat>)
    requires i <= |s|
    ensures r.Some? ==> i <= r.value && OccursAt(s, sub, r.value)
    ensures r.Some? ==> forall k :: i <= k < r.value ==> !OccursAt(s, sub, k)
    ensures r.None? ==> forall k :: i <= k ==> !OccursAt(s, sub, k)
    decreases |s| - i
  {
    if i + |sub| > |s| then None
    else if OccursAt(s, sub, i) then Some(i)
    else IndexFrom(s, sub, i + 1)
  }

  /** `s.indexOf(sub)`, with `None` for -1. */
  function IndexOf(s: string, sub: string): (r: Option<nat>)
    ensures r.Some? ==> OccursAt(s, sub, r.value) && forall k: nat :: k < r.value ==> !OccursAt(s, sub, k)
    ensures r.None? ==> forall k :: !OccursAt(s, sub, k)
  {
    IndexFrom(s, sub, 0)
  }

  /** The first index of character `c` in `s`, `None` when there is none. */
  function CharIndex(s: string, c: char): (r: Option<nat>)
    ensures r.Some? ==> r.value < |s| && s[r.value] == c && forall k :: 0 <= k < r.value ==> s[k] != c
    ensures r.None? ==> c !in s
  {
    if s == [] then None
    else if s[0] == c then Some(0)
    else match CharIndex(s[1..], c)
      case None => None
      case Some(k) => Some(k + 1)
  }

  /**
   * `s.split(sep)[0]`: the longest prefix of `s` without `sep`, which is
   * followed by `sep` unless it is all of `s`.
   */
  function FirstPiece(s: string, sep: char): (r: string)
    ensures r <= s && sep !in r
    ensures |r| < |s| ==> s[|r|] == sep
  {
    match CharIndex(s, sep)
    case None => s
    case Some(k) => s[..k]
  }

  /** `s.includes(sub)` */
  predicate Contains(s: string, sub: string) {
    IndexOf(s, sub).Some?
  }

  /** `s.replace(pat, rep)` with a string pattern: only the first occurrence is replaced. */
  function ReplaceFirst(s: string, pat: string, rep: string): (r: string)
    ensures !Contains(s, pat) ==> r == s
    ensures Contains(s, pat) ==>
              var k := IndexOf(s, pat).value;
              OccursAt(s, pat, k) && r == s[..k] + rep + s[k + |pat|..]
  {
    match IndexOf(s, pat)
    case None => s
    case Some(k) => s[..k] + rep + s[k + |pat|..]
  }

  function LowerChar(c: char): char {
    if 'A' <= c <= 'Z' then (c as int + 32) as char else c
  }

  /** `s.toLowerCase()`, folding ASCII letters. */
  function ToLower(s: string): (r: string)
    ensures |r| == |s|
    ensures forall i :: 0 <= i < |s| ==> r[i] == LowerChar(s[i])
  {
    seq(|s|, i requires 0 <= i < |s| => LowerChar(s[i]))
  }

  function TrimStart(s: string): (r: string)
    ensures |r| <= |s| && r == s[|s| - |r|..]
    ensures r == [] || !IsWhitespace(r[0])
    ensures forall i :: 0 <= i < |s| - |r| ==> IsWhitespace(s[i])
  {
    if s != [] && IsWhitespace(s[0]) then
      var r := TrimStart(s[1..]);
      assert s[1..][|s| - 1 - |r|..] == s[|s| - |r|..];
      r
    else s
  }

  function TrimEnd(s: string): (r: string)
    ensures |r| <= |s| && r == s[..|r|]
    ensures r == [] || !IsWhitespace(r[|r| - 1])
    ensures forall i :: |r| <= i < |s| ==> IsWhitespace(s[i])
  {
    if s != [] && IsWhitespace(s[|s| - 1]) then TrimEnd(s[..|s| - 1]) else s
  }

  predicate AllWhitespace(s: string) {
    forall i :: 0 <= i < |s| ==> IsWhitespace(s[i])
  }

  /**
   * `s.trim()`: `s` with its leading and trailing white space cut off, i.e.
   * the infix of `s` that neither starts nor ends with white space and is
   * surrounded only by white space.
   */
  function Trim(s: string): (r: string)
    ensures exists k: nat :: OccursAt(s, r, k) && AllWhitespace(s[..k]) && AllWhitespace(s[k + |r|..])
    ensures r == [] || (!IsWhitespace(r[0]) && !IsWhitespace(r[|r| - 1]))
  {
    var t := TrimStart(s);
    var r := TrimEnd(t);
    TrimParts(s, t, r);
    var k: nat := |s| - |t|;
    assert OccursAt(s, r, k) && AllWhitespace(s[..k]) && AllWhitespace(s[k + |r|..]);
    r
  }

  /** Trimming the start and then the end cuts white space only, on both sides. */
  lemma TrimParts(s: string, t: string, r: string)
    requires |t| <= |s| && t == s[|s| - |t|..] && forall i :: 0 <= i < |s| - |t| ==> IsWhitespace(s[i])
    requires |r| <= |t| && r == t[..|r|] && forall i :: |r| <= i < |t| ==> IsWhitespace(t[i])
    ensures var k := |s| - |t|;
            OccursAt(s, r, k) && AllWhitespace(s[..k]) && AllWhitespace(s[k + |r|..])
  {
    var k := |s| - |t|;
    assert s[k..] == t && t[..|r|] == r;
    assert s[k..k + |r|] == r;
    var before := s[..k];
    forall i | 0 <= i < |before|
      ensures IsWhitespace(before[i])
    {
      assert before[i] == s[i];
    }
    var after := s[k + |r|..];
    forall i | 0 <= i < |after|
      ensures IsWhitespace(after[i])
    {
      assert after[i] == t[|r| + i];
    }
  }

  /** A string is blank when trimming leaves nothing, i.e. when it is all white space. */
  predicate Blank(s: string) {
    Trim(s) == ""
  }

  lemma BlankIffAllWhitespace(s: string)
    ensures Blank(s) <==> forall i :: 0 <= i < |s| ==> IsWhitespace(s[i])
  {
    var t := TrimStart(s);
    if t != [] {
      assert t[0] == s[|s| - |t|];
    }
  }

  /** `s.replace(/\D/g, '')`: the ASCII digits of `s`, in order. */
  function DigitsOf(s: string): (r: string)
    ensures AllDigits(r) && |r| <= |s|
  {
    if s == [] then []
    else if IsDigit(s[0]) then [s[0]] + DigitsOf(s[1..])
    else DigitsOf(s[1..])
  }

  lemma DigitsOfAllDigits(s: string)
    requires AllDigits(s)
    ensures DigitsOf(s) == s
  {
  }

  lemma {:induction false} DigitsOfAppend(a: string, b: string)
    ensures DigitsOf(a + b) == DigitsOf(a) + DigitsOf(b)
  {
    if a == [] {
      assert a + b == b;
    } else {
      assert (a + b)[1..] == a[1..] + b;
      DigitsOfAppend(a[1..], b);
    }
  }

  function DigitChar(d: nat): char
    requires d < 10
  {
    ('0' as int + d) as char
  }

  function DigitValue(c: char): nat
    requires IsDigit(c)
  {
    c as int - '0' as int
  }

  /** The decimal value of a string of digits. */
  function DigitsValue(s: string): nat
    requires AllDigits(s)
  {
    if s == [] then 0 else DigitsValue(s[..|s| - 1]) * 10 + DigitValue(s[|s| - 1])
  }

  function Pow10(n: nat): (r: nat)
    ensures r >= 1
  {
    if n == 0 then 1 else 10 * Pow10(n - 1)
  }

  /** The value of a digit string is the value of its head shifted past its tail, plus the tail. */
  lemma {:induction false} DigitsValueAppend(a: string, b: string)
    requires AllDigits(a) && AllDigits(b)
    ensures AllDigits(a + b)
    ensures DigitsValue(a + b) == DigitsValue(a) * Pow10(|b|) + DigitsValue(b)
    decreases |b|
  {
    var ab := a + b;
    if b == [] {
      assert ab == a;
    } else {
      var init := b[..|b| - 1];
      var last := DigitValue(b[|b| - 1]);
      assert ab[..|ab| - 1] == a + init && ab[|ab| - 1] == b[|b| - 1];
      DigitsValueAppend(a, init);
      assert DigitsValue(ab) == DigitsValue(a + init) * 10 + last;
      assert DigitsValue(b) == DigitsValue(init) * 10 + last;
      ShiftDigit(DigitsValue(a), Pow10(|init|), DigitsValue(init), last);
    }
  }

  lemma ShiftDigit(x: int, p: int, y: int, d: int)
    ensures (x * p + y) * 10 + d == x * (p * 10) + (y * 10 + d)
  {
  }

  /** `n` digits spell a number below `10^n`. */
  lemma {:induction false} DigitsValueBound(s: string)
    requires AllDigits(s)
    ensures DigitsValue(s) < Pow10(|s|)
  {
    if s != [] {
      var init := s[..|s| - 1];
      DigitsValueBound(init);
      assert DigitsValue(init) + 1 <= Pow10(|init|);
      assert DigitsValue(s) <= (Pow10(|init|) - 1) * 10 + 9;
    }
  }

  /** `String(n)` for a natural number. */
  function NatToString(n: nat): (r: string)
    ensures r != [] && AllDigits(r)
  {
    if n < 10 then [DigitChar(n)] else NatToString(n / 10) + [DigitChar(n % 10)]
  }

  /** `String(i)` / `${i}` for an integer. */
  function IntToString(i: int): string {
    if i < 0 then "-" + NatToString(-i) else NatToString(i)
  }

  lemma {:induction false} NatToStringValue(n: nat)
    ensures DigitsValue(NatToString(n)) == n
  {
    if n >= 10 {
      var s := NatToString(n);
      NatToStringValue(n / 10);
      assert s[..|s| - 1] == NatToString(n / 10);
    }
  }

  lemma {:induction false} NatToStringLength(n: nat)
    ensures n < 10 ==> |NatToString(n)| == 1
    ensures 10 <= n < 100 ==> |NatToString(n)| == 2
    ensures 100 <= n < 1000 ==> |NatToString(n)| == 3
    ensures 1000 <= n < 10000 ==> |NatToString(n)| == 4
  {
    if n >= 10 {
      NatToStringLength(n / 10);
      assert |NatToString(n)| == |NatToString(n / 10)| + 1;
      assert 10 <= n < 100 ==> n / 10 < 10;
      assert 100 <= n < 1000 ==> 10 <= n / 10 < 100;
      assert 1000 <= n < 10000 ==> 100 <= n / 10 < 1000;
    }
  }

  /** `String(s).padStart(2, '0')` */
  function PadStart2(s: string): (r: string)
    ensures |s| < 2 ==> |r| == 2 && r[2 - |s|..] == s
    ensures forall i :: 0 <= i < 2 - |s| ==> r[i] == '0'
    ensures |s| >= 2 ==> r == s
  {
    if |s| >= 2 then s else seq(2 - |s|, _ => '0') + s
  }

  function LongestDigitPrefix(s: string): (r: string)
    ensures r <= s && AllDigits(r)
    ensures |r| < |s| ==> !IsDigit(s[|r|])
  {
    if s != [] && IsDigit(s[0]) then [s[0]] + LongestDigitPrefix(s[1..]) else []
  }

  predicate IsHexDigit(c: char) {
    IsDigit(c) || 'a' <= c <= 'f' || 'A' <= c <= 'F'
  }

  predicate AllHexDigits(s: string) {
    forall i :: 0 <= i < |s| ==> IsHexDigit(s[i])
  }

  function HexDigitValue(c: char): (r: nat)
    requires IsHexDigit(c)
    ensures r < 16
  {
    if IsDigit(c) then DigitValue(c)
    else if 'a' <= c <= 'f' then c as int - 'a' as int + 10
    else c as int - 'A' as int + 10
  }

  /** The hexadecimal value of a string of hexadecimal digits. */
  function HexValue(s: string): nat
    requires AllHexDigits(s)
  {
    if s == [] then 0 else HexValue(s[..|s| - 1]) * 16 + HexDigitValue(s[|s| - 1])
  }

  function LongestHexPrefix(s: string): (r: string)
    ensures r <= s && AllHexDigits(r)
    ensures |r| < |s| ==> !IsHexDigit(s[|r|])
  {
    if s != [] && IsHexDigit(s[0]) then [s[0]] + LongestHexPrefix(s[1..]) else []
  }

  /** A `0x` or `0X` prefix, which makes a radix-less `parseInt` read hexadecimal. */
  predicate HexPrefixed(s: string) {
    |s| >= 2 && s[0] == '0' && (s[1] == 'x' || s[1] == 'X')
  }

  /**
   * `parseInt(s)` without a radix: leading white space is skipped, then an
   * optional sign; after a `0x`/`0X` prefix the longest run of hexadecimal
   * digits is read, otherwise the longest run of decimal digits. `None`
   * stands for NaN.
   */
  function ParseInt(s: string): Option<int> {
    var t := TrimStart(s);
    var negative := t != [] && t[0] == '-';
    var body := if t != [] && (t[0] == '-' || t[0] == '+') then t[1..] else t;
    var digits := if HexPrefixed(body) then LongestHexPrefix(body[2..]) else LongestDigitPrefix(body);
    var v: int := if HexPrefixed(body) then HexValue(digits) else DigitsValue(digits);
    if digits == [] then None
    else if negative then Some(-v)
    else Some(v)
  }

  /** `parseInt("0x" + s)` for hexadecimal digits `s` is the number they spell in base 16. */
  lemma ParseIntOfHex(s: string)
    requires s != [] && AllHexDigits(s)
    ensures ParseInt("0x" + s) == Some(HexValue(s))
  {
    var t := "0x" + s;
    assert TrimStart(t) == t;
    assert HexPrefixed(t) && t[2..] == s;
    LongestHexOfHex(s);
  }

  lemma {:induction false} LongestHexOfHex(s: string)
    requires AllHexDigits(s)
    ensures LongestHexPrefix(s) == s
  {
    if s != [] {
      LongestHexOfHex(s[1..]);
    }
  }

  /** On a plain string of digits `parseInt` gives the number they spell. */
  lemma ParseIntOfDigits(s: string)
    requires s != [] && AllDigits(s)
    ensures ParseInt(s) == Some(DigitsValue(s))
  {
    assert TrimStart(s) == s;
    assert !HexPrefixed(s) by {
      if |s| >= 2 {
        assert IsDigit(s[1]);
      }
    }
    LongestDigitsOfDigits(s);
  }

  lemma {:induction false} LongestDigitsOfDigits(s: string)
    requires AllDigits(s)
    ensures LongestDigitPrefix(s) == s
  {
    if s != [] {
      LongestDigitsOfDigits(s[1..]);
    }
  }
}
