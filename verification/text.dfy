/**
 * String operations the services rely on: JavaScript's `includes`, the ASCII character
 * classes of its regular expressions, decimal rendering of numbers and `parseInt`, `join`,
 * `substring(0, n)`, `replace(c, '')`, the `a || b` fallback on strings, and the UTF-16
 * length that `.length` reports.
 */
module Text {
  import opened Wrappers

  // ---------------------------------------------------------------------------
  // Substrings

  /** `t` occurs in `s` starting at index `i`. */
  predicate StartsAt(s: string, t: string, i: int) {
    0 <= i && i + |t| <= |s| && s[i..i + |t|] == t
  }

  /** JavaScript's `s.includes(t)`: plain, literal substring containment. */
  predicate Contains(s: string, t: string) {
    exists i :: 0 <= i <= |s| - |t| && StartsAt(s, t, i)
  }

  lemma ContainsAt(s: string, t: string, i: int)
    requires StartsAt(s, t, i)
    ensures Contains(s, t)
  {
  }

  /** A text holds each of its infixes. */
  lemma ContainsInfix(a: string, t: string, b: string)
    ensures Contains(a + t + b, t)
  {
    assert (a + t + b)[|a|..|a| + |t|] == t;
    ContainsAt(a + t + b, t, |a|);
  }

  /** Containment is transitive: a text holding `u` holds every substring of `u`. */
  lemma ContainsTrans(s: string, u: string, t: string)
    requires Contains(s, u) && Contains(u, t)
    ensures Contains(s, t)
  {
    var i :| 0 <= i <= |s| - |u| && StartsAt(s, u, i);
    var j :| 0 <= j <= |u| - |t| && StartsAt(u, t, j);
    forall k | 0 <= k < |t|
      ensures s[i + j + k] == t[k]
    {
      assert s[i..i + |u|][j + k] == s[i + j + k];
      assert u[j..j + |t|][k] == u[j + k];
    }
    assert s[i + j..i + j + |t|] == t;
    ContainsAt(s, t, i + j);
  }

  /** A text that lacks one of the characters of `t` does not contain `t`. */
  lemma AbsentChar(s: string, t: string, k: nat)
    requires k < |t| && t[k] !in s
    ensures !Contains(s, t)
  {
    forall i | 0 <= i <= |s| - |t|
      ensures !StartsAt(s, t, i)
    {
      assert s[i..i + |t|][k] == s[i + k];
    }
  }

  /**
   * An occurrence of `t` in `a + [c] + b` lies inside `a`, inside `b`, or spans the separator
   * `c`, in which case `c` is one of the characters of `t`.
   */
  lemma SplitAt(a: string, c: char, b: string, t: string)
    ensures Contains(a + [c] + b, t) ==> Contains(a, t) || Contains(b, t) || c in t
  {
    var w := a + [c] + b;
    if Contains(w, t) {
      var i :| 0 <= i <= |w| - |t| && StartsAt(w, t, i);
      if i + |t| <= |a| {
        assert w[i..i + |t|] == a[i..i + |t|];
        assert StartsAt(a, t, i);
      } else if i > |a| {
        assert w[|a| + 1..] == b;
        assert w[i..i + |t|] == w[|a| + 1..][i - |a| - 1..i - |a| - 1 + |t|];
        assert StartsAt(b, t, i - |a| - 1);
      } else {
        assert w[i..i + |t|][|a| - i] == w[|a|] == c;
      }
    }
  }

  lemma ShorterNotContains(s: string, t: string)
    requires |s| < |t|
    ensures !Contains(s, t)
  {
  }

  /** Two pieces without `t`, joined by a character foreign to `t`, do not contain `t`. */
  lemma JoinNotContains(a: string, c: char, b: string, t: string)
    requires !Contains(a, t) && !Contains(b, t) && c !in t
    ensures !Contains(a + [c] + b, t)
  {
    SplitAt(a, c, b, t);
  }

  /** A text without the first `n` characters of `t` does not contain `t`. */
  lemma PrefixNotContains(s: string, t: string, n: nat)
    requires n <= |t| && !Contains(s, t[..n])
    ensures !Contains(s, t)
  {
    forall i | 0 <= i <= |s| - |t|
      ensures !StartsAt(s, t, i)
    {
      assert !StartsAt(s, t[..n], i);
      assert s[i..i + |t|][..n] == s[i..i + n];
    }
  }

  // ---------------------------------------------------------------------------
  // Character classes of the regular expressions (ASCII, as JavaScript has them without `u`)

  predicate IsDigit(c: char) { '0' <= c <= '9' }
  predicate IsAsciiLetter(c: char) { 'a' <= c <= 'z' || 'A' <= c <= 'Z' }
  predicate IsAlnum(c: char) { IsAsciiLetter(c) || IsDigit(c) }
  /** `\w`. */
  predicate IsWordChar(c: char) { IsAlnum(c) || c == '_' }
  /** The range `À-ſ` (Latin-1 Supplement letters and Latin Extended-A). */
  predicate IsLatinExtended(c: char) { '\U{00C0}' <= c <= '\U{017F}' }
  /** Characters that `.` does not match. */
  predicate IsLineTerminator(c: char) {
    c == '\n' || c == '\r' || c == '\U{2028}' || c == '\U{2029}'
  }

  // ---------------------------------------------------------------------------
  // Decimal numbers: template-literal rendering and `parseInt`

  function DigitChar(d: nat): (c: char)
    requires d < 10
    ensures IsDigit(c)
  {
    (('0' as int) + d) as char
  }

  function DigitValue(c: char): (d: nat)
    requires IsDigit(c)
    ensures d < 10
  {
    (c as int) - ('0' as int)
  }

  predicate AllDigits(s: string) {
    forall i :: 0 <= i < |s| ==> IsDigit(s[i])
  }

  /** Decimal rendering of a non-negative integer, as `${n}` produces it. */
  function NatToString(n: nat): (r: string)
    decreases n
  {
    if n < 10 then [DigitChar(n)] else NatToString(n / 10) + [DigitChar(n % 10)]
  }

  /** Decimal rendering of an integer, with a leading `-` when negative. */
  function IntToString(n: int): string {
    if n < 0 then "-" + NatToString(-n) else NatToString(n)
  }

  /** The value of a string of decimal digits, most significant first. */
  function DigitsValue(s: string): nat
    requires AllDigits(s)
    decreases |s|
  {
    if s == [] then 0 else DigitsValue(s[..|s| - 1]) * 10 + DigitValue(s[|s| - 1])
  }

  lemma {:induction false} NatToStringDigits(n: nat)
    ensures |NatToString(n)| > 0 && AllDigits(NatToString(n))
    ensures DigitsValue(NatToString(n)) == n
    decreases n
  {
    if n >= 10 {
      NatToStringDigits(n / 10);
      var s := NatToString(n / 10);
      var r := s + [DigitChar(n % 10)];
      assert r[..|r| - 1] == s;
      assert DigitValue(DigitChar(n % 10)) == n % 10;
    }
  }

  /**
   * The white space `parseInt` skips before the number: the ECMAScript WhiteSpace and
   * LineTerminator characters (tab, vertical tab, form feed, space, no-break space, the byte
   * order mark, the Unicode space separators, line feed, carriage return and the two Unicode
   * line and paragraph separators).
   */
  predicate IsJsSpace(c: char) {
    c == ' ' || c == '\t' || c == '\n' || c == '\r' || c == '\U{000B}' || c == '\U{000C}'
    || c == '\U{00A0}' || c == '\U{FEFF}' || c == '\U{1680}' || '\U{2000}' <= c <= '\U{200A}'
    || c == '\U{2028}' || c == '\U{2029}' || c == '\U{202F}' || c == '\U{205F}' || c == '\U{3000}'
  }

  function SkipSpaces(s: string): (r: string)
    ensures |r| <= |s| && (r == [] || !IsJsSpace(r[0]))
    decreases |s|
  {
    if s != [] && IsJsSpace(s[0]) then SkipSpaces(s[1..]) else s
  }

  /** Number of leading ASCII digits of `s`. */
  function LeadingDigits(s: string): (n: nat)
    ensures n <= |s| && AllDigits(s[..n]) && (n == |s| || !IsDigit(s[n]))
    decreases |s|
  {
    if s != [] && IsDigit(s[0]) then
      var k := LeadingDigits(s[1..]);
      assert s[..k + 1] == [s[0]] + s[1..][..k];
      k + 1
    else 0
  }

  predicate IsHexDigit(c: char) { IsDigit(c) || 'a' <= c <= 'f' || 'A' <= c <= 'F' }

  function HexDigitValue(c: char): (d: nat)
    requires IsHexDigit(c)
    ensures d < 16
  {
    if IsDigit(c) then DigitValue(c)
    else if 'a' <= c <= 'f' then (c as int) - ('a' as int) + 10
    else (c as int) - ('A' as int) + 10
  }

  predicate AllHexDigits(s: string) {
    forall i :: 0 <= i < |s| ==> IsHexDigit(s[i])
  }

  /** The value of a string of hexadecimal digits, most significant first. */
  function HexValue(s: string): nat
    requires AllHexDigits(s)
    decreases |s|
  {
    if s == [] then 0 else HexValue(s[..|s| - 1]) * 16 + HexDigitValue(s[|s| - 1])
  }

  /** Number of leading hexadecimal digits of `s`. */
  function LeadingHexDigits(s: string): (n: nat)
    ensures n <= |s| && AllHexDigits(s[..n]) && (n == |s| || !IsHexDigit(s[n]))
    decreases |s|
  {
    if s != [] && IsHexDigit(s[0]) then
      var k := LeadingHexDigits(s[1..]);
      assert s[..k + 1] == [s[0]] + s[1..][..k];
      k + 1
    else 0
  }

  /** The `0x` or `0X` prefix that makes `parseInt` without a radix read hexadecimal. */
  predicate HexPrefixed(u: string) {
    |u| >= 2 && u[0] == '0' && (u[1] == 'x' || u[1] == 'X')
  }

  /**
   * `parseInt(s)` without a radix: leading white space, an optional sign, then either `0x`
   * (or `0X`) and the longest run of hexadecimal digits, or the longest run of decimal
   * digits; no digits at all is `NaN`, written `None` here.
   */
  function ParseInt(s: string): (r: Option<int>)
    ensures var u := Unsigned(SkipSpaces(s));
      r.None? <==> if HexPrefixed(u) then LeadingHexDigits(u[2..]) == 0 else LeadingDigits(u) == 0
    ensures var u := Unsigned(SkipSpaces(s));
      r.Some? && !HexPrefixed(u) ==>
        var v: int := DigitsValue(u[..LeadingDigits(u)]);
        r.value == if SkipSpaces(s)[0] == '-' then -v else v
    ensures var u := Unsigned(SkipSpaces(s));
      r.Some? && HexPrefixed(u) ==>
        var v: int := HexValue(u[2..][..LeadingHexDigits(u[2..])]);
        r.value == if SkipSpaces(s)[0] == '-' then -v else v
  {
    var t := SkipSpaces(s);
    var u := Unsigned(t);
    if HexPrefixed(u) then
      var n := LeadingHexDigits(u[2..]);
      if n == 0 then None
      else
        var v: int := HexValue(u[2..][..n]);
        if t[0] == '-' then Some(-v) else Some(v)
    else
      var n := LeadingDigits(u);
      if n == 0 then None
      else
        var v: int := DigitsValue(u[..n]);
        if t[0] == '-' then Some(-v) else Some(v)
  }

  /** `parseInt("0x1A")` is 26 and `parseInt("0x")` is `NaN`, while `parseInt("1A")` is 1. */
  lemma HexPrefixExamples()
    ensures ParseInt("0x1A") == Some(26)
    ensures ParseInt("0x") == None
    ensures ParseInt("1A") == Some(1)
  {
    HexDigitsExample("0x1A");
    DecimalDigitsExample("1A");
    EmptyHexExample("0x");
  }

  lemma EmptyHexExample(s: string)
    requires s == "0x"
    ensures ParseInt(s) == None
  {
    assert SkipSpaces(s) == s && Unsigned(s) == s && HexPrefixed(s) && s[2..] == [];
  }

  lemma HexDigitsExample(s: string)
    requires s == "0x1A"
    ensures ParseInt(s) == Some(26)
  {
    assert SkipSpaces(s) == s && Unsigned(s) == s && HexPrefixed(s);
    var h := s[2..];
    assert h == "1A" && LeadingHexDigits(h) == 2 && h[..2] == h;
    assert h[..1] == "1";
    assert HexValue(h) == HexValue("1") * 16 + 10;
  }

  lemma DecimalDigitsExample(s: string)
    requires s == "1A"
    ensures ParseInt(s) == Some(1)
  {
    assert SkipSpaces(s) == s && Unsigned(s) == s && !HexPrefixed(s);
    var d := s[..1];
    assert LeadingDigits(s) == 1 && d == "1" && d[..0] == [];
    assert DigitsValue(d) == DigitValue('1') == 1;
  }

  function Unsigned(t: string): string {
    if t != [] && (t[0] == '-' || t[0] == '+') then t[1..] else t
  }

  lemma {:induction false} AllDigitsLeading(s: string)
    requires AllDigits(s)
    ensures LeadingDigits(s) == |s|
    decreases |s|
  {
    if s != [] {
      AllDigitsLeading(s[1..]);
    }
  }

  /** `parseInt(x) || 0`: the parsed value, or 0 when nothing parses. */
  function ParseCount(s: string): int {
    ParseInt(s).GetOr(0)
  }

  /** The largest integer a double holds exactly, `Number.MAX_SAFE_INTEGER`. */
  const MaxSafeInteger: int := 9_007_199_254_740_991

  /** `parseInt` reads back every safe integer that `${n}` renders. */
  lemma {:induction false} ParseIntRendered(n: int)
    requires -MaxSafeInteger <= n <= MaxSafeInteger
    ensures ParseInt(IntToString(n)) == Some(n)
  {
    var m: nat := if n < 0 then -n else n;
    NatToStringDigits(m);
    var d := NatToString(m);
    var s := IntToString(n);
    AllDigitsLeading(d);
    if n < 0 {
      assert s == "-" + d;
      assert SkipSpaces(s) == s;
      assert Unsigned(s) == d;
    } else {
      assert s == d;
      assert !IsJsSpace(d[0]);
      assert SkipSpaces(s) == s;
      assert Unsigned(s) == d;
    }
    assert |d| < 2 || IsDigit(d[1]);
    assert !HexPrefixed(d);
    assert d[..|d|] == d;
  }

  // ---------------------------------------------------------------------------
  // Other string helpers

  /** JavaScript's `a || b` on strings: the first one unless it is empty. */
  function OrElse(a: string, b: string): (r: string)
    ensures r == a || r == b
    ensures r == "" <==> a == "" && b == ""
  {
    if a != "" then a else b
  }

  /** `s.substring(0, n)` for `n >= 0`, counting characters. */
  function Prefix(s: string, n: nat): (r: string)
    ensures |r| == if |s| < n then |s| else n
    ensures r == s[..|r|]
  {
    if |s| < n then s else s[..n]
  }

  /** `parts.join(sep)`. */
  function Join(parts: seq<string>, sep: string): string
    decreases |parts|
  {
    if |parts| == 0 then ""
    else if |parts| == 1 then parts[0]
    else parts[0] + sep + Join(parts[1..], sep)
  }

  /** `s.replace(c, '')` with a one-character pattern: drops the first occurrence of `c`. */
  function RemoveFirst(s: string, c: char): (r: string)
    ensures c !in s ==> r == s
    ensures c in s ==> |r| == |s| - 1
    ensures s != [] && s[0] == c ==> r == s[1..]
    decreases |s|
  {
    if s == [] then []
    else if s[0] == c then s[1..]
    else [s[0]] + RemoveFirst(s[1..], c)
  }

  /** The UTF-16 code units of one character: two outside the BMP. */
  function Units(c: char): nat {
    if c as int >= 0x1_0000 then 2 else 1
  }

  /** `.length` of a JavaScript string: characters outside the BMP take two UTF-16 units. */
  function Utf16Length(s: string): (n: nat)
    ensures |s| <= n <= 2 * |s|
    decreases |s|
  {
    if s == [] then 0 else Units(s[0]) + Utf16Length(s[1..])
  }

  /**
   * `s.substring(0, n)` counted in UTF-16 units: the longest run of whole characters from the
   * start that fits in `n` units.
   */
  function Utf16Prefix(s: string, n: nat): (r: string)
    ensures |r| <= |s| && r == s[..|r|]
    ensures Utf16Length(r) <= n
    ensures |r| < |s| ==> Utf16Length(r) + Units(s[|r|]) > n
    ensures s != [] && n >= 2 ==> r != []
    decreases |s|
  {
    if s == [] || Units(s[0]) > n then []
    else
      var rest := Utf16Prefix(s[1..], n - Units(s[0]));
      assert ([s[0]] + rest)[1..] == rest;
      [s[0]] + rest
  }

  /** A string that fits is kept whole; on the BMP the prefix is the first `n` characters. */
  lemma {:induction false} Utf16PrefixFits(s: string, n: nat)
    ensures Utf16Length(s) <= n ==> Utf16Prefix(s, n) == s
    ensures (forall k :: 0 <= k < |s| ==> Units(s[k]) == 1) ==> Utf16Prefix(s, n) == Prefix(s, n)
    decreases |s|
  {
    if s != [] && Units(s[0]) <= n {
      Utf16PrefixFits(s[1..], n - Units(s[0]));
    }
  }
}
