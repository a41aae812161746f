/**
 * The JavaScript string operations the application relies on: the white-space
 * set of `String.prototype.trim` and of the regular-expression class `\s`,
 * `trim`, `includes`, and the global `parseInt` with no radix argument.
 */
module JsText {
  import opened Options

  /**
   * The WhiteSpace and LineTerminator code points of ECMA-262 (sections 12.2
   * and 12.3): tab, line feed, vertical tab, form feed, carriage return, space,
   * no-break space, ogham space mark, the spaces U+2000 to U+200A, line and
   * paragraph separator, narrow no-break space, medium mathematical space,
   * ideographic space and the byte order mark.
   */
  predicate IsSpace(c: char) {
    || c == '\t' || c == '\n' || c == '\U{000B}' || c == '\U{000C}' || c == '\r' || c == ' '
    || c == '\U{00A0}' || c == '\U{1680}' || ('\U{2000}' <= c <= '\U{200A}')
    || c == '\U{2028}' || c == '\U{2029}' || c == '\U{202F}' || c == '\U{205F}'
    || c == '\U{3000}' || c == '\U{FEFF}'
  }

  /** Every character of `s` is white space (true of the empty string). */
  predicate IsBlank(s: string) {
    forall i :: 0 <= i < |s| ==> IsSpace(s[i])
  }

  /** Number of white-space characters at the front of `s`. */
  function LeadingSpaces(s: string): (k: nat)
    ensures k <= |s|
    ensures forall i :: 0 <= i < k ==> IsSpace(s[i])
    ensures k < |s| ==> !IsSpace(s[k])
  {
    if |s| > 0 && IsSpace(s[0]) then 1 + LeadingSpaces(s[1..]) else 0
  }

  /** Number of white-space characters at the end of `s`. */
  function TrailingSpaces(s: string): (k: nat)
    ensures k <= |s|
    ensures forall i :: |s| - k <= i < |s| ==> IsSpace(s[i])
    ensures k < |s| ==> !IsSpace(s[|s| - k - 1])
  {
    if |s| > 0 && IsSpace(s[|s| - 1]) then 1 + TrailingSpaces(s[..|s| - 1]) else 0
  }

  /** `s.trimStart()`. */
  function TrimStart(s: string): (r: string)
    ensures |r| <= |s| && r == s[|s| - |r|..]
    ensures forall i :: 0 <= i < |s| - |r| ==> IsSpace(s[i])
    ensures r == [] || !IsSpace(r[0])
  {
    s[LeadingSpaces(s)..]
  }

  /** `s.trim()`: `s` without its leading and trailing white space. */
  function Trim(s: string): (r: string)
    ensures OccursAt(s, LeadingSpaces(s), r)
    ensures forall i :: LeadingSpaces(s) + |r| <= i < |s| ==> IsSpace(s[i])
    ensures r == [] || (!IsSpace(r[0]) && !IsSpace(r[|r| - 1]))
    ensures r == [] <==> IsBlank(s)
  {
    var k := LeadingSpaces(s);
    var t := s[k..];
    var r := t[..|t| - TrailingSpaces(t)];
    TrimFacts(s, k, t, r);
    r
  }

  lemma TrimFacts(s: string, k: nat, t: string, r: string)
    requires k == LeadingSpaces(s) && t == s[k..] && r == t[..|t| - TrailingSpaces(t)]
    ensures OccursAt(s, k, r)
    ensures forall i :: k + |r| <= i < |s| ==> IsSpace(s[i])
    ensures r == [] || (!IsSpace(r[0]) && !IsSpace(r[|r| - 1]))
    ensures r == [] <==> IsBlank(s)
  {
    assert s[k..k + |r|] == r;
    TrimTail(s, k, t, r);
    if r == [] {
      assert TrailingSpaces(t) == |t|;
    } else {
      assert r[0] == s[k];
    }
  }

  lemma TrimTail(s: string, k: nat, t: string, r: string)
    requires k <= |s| && t == s[k..] && r == t[..|t| - TrailingSpaces(t)]
    ensures forall i :: k + |r| <= i < |s| ==> IsSpace(s[i])
  {
    forall i | k + |r| <= i < |s|
      ensures IsSpace(s[i])
    {
      assert s[i] == t[i - k];
    }
  }

  /** `s` holds `sub` starting at index `i`. */
  predicate OccursAt(s: string, i: int, sub: string) {
    0 <= i && i + |sub| <= |s| && s[i..i + |sub|] == sub
  }

  /** `s.includes(sub)`. */
  predicate Contains(s: string, sub: string) {
    exists i :: 0 <= i <= |s| && OccursAt(s, i, sub)
  }

  /** A string that neither starts nor ends with white space is its own trim. */
  lemma TrimUnpadded(s: string)
    requires s == [] || (!IsSpace(s[0]) && !IsSpace(s[|s| - 1]))
    ensures Trim(s) == s
  {
    if s != [] {
      assert LeadingSpaces(s) == 0;
      assert TrailingSpaces(s) == 0;
    }
  }

  /**
   * `trim` is characterised by its result: whenever `s` is white space, then a
   * piece that neither starts nor ends with white space, then white space, that
   * piece is `s.trim()`.
   */
  lemma TrimCharacterised(a: string, r: string, b: string)
    requires IsBlank(a) && IsBlank(b)
    requires r == [] || (!IsSpace(r[0]) && !IsSpace(r[|r| - 1]))
    ensures Trim(a + r + b) == r
  {
    var s := a + r + b;
    var t := Trim(s);
    if r == [] {
      assert s == a + b;
      assert IsBlank(s) by {
        forall i | 0 <= i < |s| ensures IsSpace(s[i]) {
          if i < |a| { assert s[i] == a[i]; } else { assert s[i] == b[i - |a|]; }
        }
      }
    } else {
      var k := LeadingSpaces(s);
      assert s[|a|] == r[0];
      forall i | 0 <= i < |a| ensures IsSpace(s[i]) { assert s[i] == a[i]; }
      assert k == |a|;
      assert t != [] by { assert !IsSpace(s[|a|]); }
      forall i | |a| + |r| <= i < |s| ensures IsSpace(s[i]) { assert s[i] == b[i - |a| - |r|]; }
      assert s[|a| + |r| - 1] == r[|r| - 1];
      assert s[k + |t| - 1] == t[|t| - 1];
      assert |t| == |r|;
      assert t == s[|a|..|a| + |r|] == r;
    }
  }

  /** White space added around a text does not change its trim. */
  lemma TrimPadded(a: string, s: string, b: string)
    requires IsBlank(a) && IsBlank(b)
    ensures Trim(a + s + b) == Trim(s)
  {
    var k := LeadingSpaces(s);
    var r := Trim(s);
    var front, back := s[..k], s[k + |r|..];
    TrimSplits(s);
    BlankJoin(a, front);
    BlankJoin(back, b);
    Regroup(a, front, r, back, b);
    TrimCharacterised(a + front, r, back + b);
  }

  /** A text is its leading white space, its trim and its trailing white space. */
  lemma TrimSplits(s: string)
    ensures var k := LeadingSpaces(s); var r := Trim(s);
      && s == s[..k] + r + s[k + |r|..]
      && IsBlank(s[..k]) && IsBlank(s[k + |r|..])
  {
    var k := LeadingSpaces(s);
    var r := Trim(s);
    assert s[k..k + |r|] == r;
    assert s == s[..k] + s[k..k + |r|] + s[k + |r|..];
    var tail := s[k + |r|..];
    forall i | 0 <= i < |tail| ensures IsSpace(tail[i]) {
      assert tail[i] == s[k + |r| + i];
    }
  }

  lemma Regroup(a: string, front: string, r: string, back: string, b: string)
    ensures a + (front + r + back) + b == (a + front) + r + (back + b)
  {
  }

  lemma BlankJoin(a: string, b: string)
    requires IsBlank(a) && IsBlank(b)
    ensures IsBlank(a + b)
  {
    forall i | 0 <= i < |a + b| ensures IsSpace((a + b)[i]) {
      if i < |a| { assert (a + b)[i] == a[i]; } else { assert (a + b)[i] == b[i - |a|]; }
    }
  }

  /** What a piece `r` of `s` contains, `s` contains. */
  lemma ContainsWithin(s: string, i: int, r: string, sub: string)
    requires OccursAt(s, i, r) && Contains(r, sub)
    ensures Contains(s, sub)
  {
    var j :| 0 <= j <= |r| && OccursAt(r, j, sub);
    assert r == s[i..i + |r|];
    assert r[j..j + |sub|] == sub;
    forall k | 0 <= k < |sub|
      ensures s[i + j..i + j + |sub|][k] == sub[k]
    {
      assert sub[k] == r[j + k] == s[i + j + k];
    }
    assert OccursAt(s, i + j, sub);
  }

  /** The value of a digit in bases up to 36 (`0`-`9`, then `a`-`z` and `A`-`Z` from 10), 36 for a non-digit. */
  function DigitValue(c: char): (d: nat)
    ensures d <= 36
    ensures '0' <= c <= '9' ==> d == c as int - '0' as int
  {
    if '0' <= c <= '9' then c as nat - '0' as nat
    else if 'a' <= c <= 'z' then c as nat - 'a' as nat + 10
    else if 'A' <= c <= 'Z' then c as nat - 'A' as nat + 10
    else 36
  }

  /** Length of the longest prefix of `s` made of digits of base `radix`. */
  function DigitRun(s: string, radix: nat): (k: nat)
    ensures k <= |s|
    ensures forall i :: 0 <= i < k ==> DigitValue(s[i]) < radix
    ensures k < |s| ==> DigitValue(s[k]) >= radix
  {
    if |s| > 0 && DigitValue(s[0]) < radix then 1 + DigitRun(s[1..], radix) else 0
  }

  /** The number a string of digits denotes in base `radix`. */
  function ValueOf(digits: string, radix: nat): nat {
    if digits == [] then 0
    else ValueOf(digits[..|digits| - 1], radix) * radix + DigitValue(digits[|digits| - 1])
  }

  /**
   * The global `parseInt(s)` with no radix (ECMA-262 section 19.2.5): leading
   * white space is skipped, one `+` or `-` sign is read, a `0x`/`0X` prefix selects
   * base 16 (else base 10), and the longest run of digits that follows is the
   * number; None stands for NaN, the result when that run is empty. The loss of
   * precision above 2^53 is not modelled, and `-0` is 0.
   */
  function ParseInt(s: string): (r: Option<int>)
    ensures r.None? <==> DigitRun(Body(s), Radix(s)) == 0
    ensures r.Some? && r.value < 0 ==> Sign(s) == -1
  {
    var body := Body(s);
    var n := DigitRun(body, Radix(s));
    if n == 0 then None else Some(Sign(s) * ValueOf(body[..n], Radix(s)))
  }

  /** `s` with leading white space and one sign removed. */
  function Unsigned(s: string): string {
    var t := TrimStart(s);
    if |t| > 0 && (t[0] == '+' || t[0] == '-') then t[1..] else t
  }

  /** -1 when the first non-blank character of `s` is `-`, else 1. */
  function Sign(s: string): int {
    var t := TrimStart(s);
    if |t| > 0 && t[0] == '-' then -1 else 1
  }

  predicate HasHexPrefix(u: string) {
    |u| >= 2 && u[0] == '0' && (u[1] == 'x' || u[1] == 'X')
  }

  function Radix(s: string): nat {
    if HasHexPrefix(Unsigned(s)) then 16 else 10
  }

  /** The characters of `s` where the digits start. */
  function Body(s: string): string {
    var u := Unsigned(s);
    if HasHexPrefix(u) then u[2..] else u
  }

  /** `String(n)` for an integer: a minus sign for negatives, then decimal digits without leading zeros. */
  function Decimal(n: int): (r: string)
    ensures |r| > 0
    ensures r[0] == '-' <==> n < 0
    ensures forall i :: (if n < 0 then 1 else 0) <= i < |r| ==> '0' <= r[i] <= '9'
    decreases if n < 0 then -n + 1 else n
  {
    if n < 0 then "-" + Decimal(-n)
    else if n < 10 then [('0' as int + n) as char]
    else Decimal(n / 10) + [('0' as int + n % 10) as char]
  }

  predicate IsDecimalDigits(s: string) {
    forall i :: 0 <= i < |s| ==> '0' <= s[i] <= '9'
  }

  lemma {:induction false} DecimalOfNatIsDigits(n: nat)
    ensures IsDecimalDigits(Decimal(n))
    ensures ValueOf(Decimal(n), 10) == n
    ensures Decimal(n)[0] == '0' ==> n == 0
  {
    if n >= 10 {
      DecimalOfNatIsDigits(n / 10);
      var d := Decimal(n);
      assert d[..|d| - 1] == Decimal(n / 10);
    }
  }

  lemma DigitRunOfDigits(s: string)
    requires IsDecimalDigits(s)
    ensures DigitRun(s, 10) == |s|
  {
  }

  lemma TrimStartNoSpace(s: string)
    requires |s| > 0 && !IsSpace(s[0])
    ensures TrimStart(s) == s
  {
    assert LeadingSpaces(s) == 0;
  }

  lemma UnsignedDigits(d: string, m: string)
    requires |d| > 0 && IsDecimalDigits(d) && (d[0] == '0' ==> |d| == 1)
    requires m == "-" + d
    ensures Unsigned(d) == d && Unsigned(m) == d
    ensures Sign(d) == 1 && Sign(m) == -1
    ensures !HasHexPrefix(d)
  {
    TrimStartNoSpace(d);
    assert m[0] == '-' && m[1..] == d;
    TrimStartNoSpace(m);
  }

  lemma ParseIntOfBody(s: string, d: string, sign: int)
    requires Body(s) == d && Radix(s) == 10 && Sign(s) == sign && |d| > 0 && DigitRun(d, 10) == |d|
    ensures ParseInt(s) == Some(sign * ValueOf(d, 10))
  {
    assert d[..|d|] == d;
  }

  /** `parseInt` of a string of decimal digits without a leading zero, with or without a minus sign. */
  lemma ParseIntDigits(d: string, m: string)
    requires |d| > 0 && IsDecimalDigits(d) && (d[0] == '0' ==> |d| == 1)
    requires m == "-" + d
    ensures ParseInt(d) == Some(ValueOf(d, 10))
    ensures ParseInt(m) == Some(-(ValueOf(d, 10) as int))
  {
    ParseIntPositive(d, m);
    ParseIntNegative(d, m);
  }

  lemma ParseIntPositive(d: string, m: string)
    requires |d| > 0 && IsDecimalDigits(d) && (d[0] == '0' ==> |d| == 1)
    requires m == "-" + d
    ensures ParseInt(d) == Some(ValueOf(d, 10))
  {
    DigitRunOfDigits(d);
    UnsignedDigits(d, m);
    assert Body(d) == d && Radix(d) == 10;
    ParseIntOfBody(d, d, 1);
  }

  lemma ParseIntNegative(d: string, m: string)
    requires |d| > 0 && IsDecimalDigits(d) && (d[0] == '0' ==> |d| == 1)
    requires m == "-" + d
    ensures ParseInt(m) == Some(-(ValueOf(d, 10) as int))
  {
    DigitRunOfDigits(d);
    UnsignedDigits(d, m);
    assert Body(m) == d && Radix(m) == 10;
    ParseIntOfBody(m, d, -1);
  }

  lemma {:induction false} DigitRunStops(d: string, t: string)
    requires IsDecimalDigits(d)
    requires t == [] || DigitValue(t[0]) >= 10
    ensures DigitRun(d + t, 10) == |d|
  {
    if d != [] {
      assert (d + t)[0] == d[0] && (d + t)[1..] == d[1..] + t;
      DigitRunStops(d[1..], t);
    } else {
      assert d + t == t;
    }
  }

  /** `parseInt` reads the leading decimal digits and ignores whatever follows the first non-digit ("12abc" gives 12). */
  lemma ParseIntReadsLeadingDigits(d: string, t: string)
    requires |d| > 0 && IsDecimalDigits(d) && d[0] != '0'
    requires t == [] || DigitValue(t[0]) >= 10
    ensures ParseInt(d + t) == Some(ValueOf(d, 10))
  {
    var s := d + t;
    assert s[0] == d[0];
    TrimStartNoSpace(s);
    assert Unsigned(s) == s && Sign(s) == 1 && !HasHexPrefix(s);
    DigitRunStops(d, t);
    assert s[..|d|] == d;
  }

  /** A score stored as `String(n)` is read back by `parseInt` as `n`. */
  lemma {:induction false} ParseIntDecimal(n: int)
    ensures ParseInt(Decimal(n)) == Some(n)
  {
    var m: nat := if n < 0 then -n else n;
    DecimalOfNatIsDigits(m);
    ParseIntDigits(Decimal(m), "-" + Decimal(m));
    if n < 0 {
      assert Decimal(n) == "-" + Decimal(m);
    }
  }
}
