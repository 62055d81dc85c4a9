/** The string operations the application relies on: Python's `str.strip()`,
    `str.upper()` and `str(int)`, restricted to ASCII (see README). */
module Text {

  /** Python's `str.isspace()` on ASCII code points: space, `\t` to `\r`, and
      the four separators `\x1c` to `\x1f`. These are what `strip()` removes. */
  predicate IsSpace(c: char) {
    c == ' ' || ('\t' <= c <= '\r') || ('\U{1c}' <= c <= '\U{1f}')
  }

  predicate AllSpace(s: string) {
    forall k :: 0 <= k < |s| ==> IsSpace(s[k])
  }

  /** Python's `sub in s` for strings. */
  predicate IsSubstring(sub: string, s: string) {
    exists k :: 0 <= k <= |s| && sub <= s[k..]
  }

  /** Python's `s.lstrip()`: the suffix of `s` left after dropping leading whitespace. */
  function TrimStart(s: string): (r: string)
    ensures |r| <= |s| && r == s[|s| - |r|..]
    ensures forall k :: 0 <= k < |s| - |r| ==> IsSpace(s[k])
    ensures r == [] || !IsSpace(r[0])
  {
    if s != [] && IsSpace(s[0]) then TrimStart(s[1..]) else s
  }

  /** Python's `s.rstrip()`: the prefix of `s` left after dropping trailing whitespace. */
  function TrimEnd(s: string): (r: string)
    ensures |r| <= |s| && r == s[..|r|]
    ensures forall k :: |r| <= k < |s| ==> IsSpace(s[k])
    ensures r == [] || !IsSpace(r[|r| - 1])
  {
    if s != [] && IsSpace(s[|s| - 1]) then TrimEnd(s[..|s| - 1]) else s
  }

  /** Python's `s.strip()`. */
  function Strip(s: string): (r: string)
    ensures |r| <= |s|
    ensures r == [] || (!IsSpace(r[0]) && !IsSpace(r[|r| - 1]))
  {
    TrimEnd(TrimStart(s))
  }

  lemma {:induction false} TrimStartPadded(a: string, t: string)
    requires AllSpace(a)
    requires t == [] || !IsSpace(t[0])
    ensures TrimStart(a + t) == t
    decreases |a|
  {
    if a == [] {
      assert a + t == t;
    } else {
      assert (a + t)[1..] == a[1..] + t;
      TrimStartPadded(a[1..], t);
    }
  }

  lemma {:induction false} TrimEndPadded(t: string, b: string)
    requires AllSpace(b)
    requires t == [] || !IsSpace(t[|t| - 1])
    ensures TrimEnd(t + b) == t
    decreases |b|
  {
    if b == [] {
      assert t + b == t;
    } else {
      assert (t + b)[..|t + b| - 1] == t + b[..|b| - 1];
      TrimEndPadded(t, b[..|b| - 1]);
    }
  }

  /** `strip()` removes exactly the whitespace around a text that neither
      starts nor ends with whitespace: it is the unique such core. */
  lemma StripPadded(a: string, m: string, b: string)
    requires AllSpace(a) && AllSpace(b)
    requires m == [] || (!IsSpace(m[0]) && !IsSpace(m[|m| - 1]))
    ensures Strip(a + m + b) == m
  {
    if m == [] {
      assert a + m + b == (a + b) + [];
      TrimStartPadded(a + b, []);
    } else {
      assert a + m + b == a + (m + b);
      TrimStartPadded(a, m + b);
      TrimEndPadded(m, b);
    }
  }

  lemma TrimStartSplit(s: string) returns (a: string)
    ensures AllSpace(a) && s == a + TrimStart(s)
  {
    var r := TrimStart(s);
    a := s[..|s| - |r|];
    forall k | 0 <= k < |a|
      ensures IsSpace(a[k])
    {
      assert a[k] == s[k];
    }
  }

  lemma TrimEndSplit(s: string) returns (b: string)
    ensures AllSpace(b) && s == TrimEnd(s) + b
  {
    var r := TrimEnd(s);
    b := s[|r|..];
    forall k | 0 <= k < |b|
      ensures IsSpace(b[k])
    {
      assert b[k] == s[|r| + k];
    }
  }

  /** Every text is its stripped core with whitespace on both sides. */
  lemma StripSplit(s: string) returns (a: string, b: string)
    ensures AllSpace(a) && AllSpace(b)
    ensures s == a + Strip(s) + b
  {
    a := TrimStartSplit(s);
    b := TrimEndSplit(TrimStart(s));
  }

  lemma AllSpaceConcat(a: string, b: string)
    requires AllSpace(a) && AllSpace(b)
    ensures AllSpace(a + b)
  {
    forall k | 0 <= k < |a + b|
      ensures IsSpace((a + b)[k])
    {
      if k >= |a| {
        assert (a + b)[k] == b[k - |a|];
      }
    }
  }

  /** Whitespace appended to a text does not change what `strip()` keeps. */
  lemma StripAppendSpace(s: string, w: string)
    requires AllSpace(w)
    ensures Strip(s + w) == Strip(s)
  {
    var a, b := StripSplit(s);
    AllSpaceConcat(b, w);
    StripPadded(a, Strip(s), b + w);
    assert a + Strip(s) + (b + w) == s + w;
  }

  /** Stripping twice is stripping once. */
  lemma StripIdempotent(s: string)
    ensures Strip(Strip(s)) == Strip(s)
  {
    var r := Strip(s);
    var none: string := [];
    StripPadded(none, r, none);
    assert none + r + none == r;
  }

  /** Python's `c.upper()` on ASCII: `a`..`z` become `A`..`Z`, nothing else changes. */
  predicate IsLower(c: char) {
    'a' <= c <= 'z'
  }

  function UpperChar(c: char): char {
    if IsLower(c) then (c as int - 32) as char else c
  }

  /** Python's `s.upper()` on ASCII text. */
  function Upper(s: string): (r: string)
    ensures |r| == |s|
  {
    if s == [] then [] else Upper(s[..|s| - 1]) + [UpperChar(s[|s| - 1])]
  }

  /** Upper-casing works character by character. */
  lemma {:induction false} UpperAt(s: string)
    ensures forall k :: 0 <= k < |s| ==> Upper(s)[k] == UpperChar(s[k])
  {
    if s != [] {
      var init := s[..|s| - 1];
      UpperAt(init);
      assert forall k :: 0 <= k < |init| ==> Upper(s)[k] == Upper(init)[k] && s[k] == init[k];
    }
  }

  /** Upper-casing leaves no lower-case letter, turns each lower-case letter
      into the capital of the same letter, and keeps every other character. */
  lemma UpperCases(s: string)
    ensures forall k :: 0 <= k < |s| ==> !IsLower(Upper(s)[k])
    ensures forall k :: 0 <= k < |s| && !IsLower(s[k]) ==> Upper(s)[k] == s[k]
    ensures forall k :: 0 <= k < |s| && IsLower(s[k]) ==>
      'A' <= Upper(s)[k] <= 'Z' && Upper(s)[k] as int - 'A' as int == s[k] as int - 'a' as int
  {
    UpperAt(s);
  }

  /** Upper-casing twice is upper-casing once. */
  lemma UpperIdempotent(s: string)
    ensures Upper(Upper(s)) == Upper(s)
  {
    UpperCases(s);
    UpperAt(Upper(s));
  }

  predicate IsDigit(c: char) {
    '0' <= c <= '9'
  }

  function Digit(d: nat): (c: char)
    requires d < 10
  {
    ('0' as int + d) as char
  }

  /** Python's `str(n)` for a non-negative integer: its decimal digits, most
      significant first, without leading zeros. */
  function Decimal(n: nat): (r: string)
    ensures r != [] && forall k :: 0 <= k < |r| ==> IsDigit(r[k])
    ensures |r| > 1 ==> r[0] != '0'
    decreases n
  {
    if n < 10 then [Digit(n)] else Decimal(n / 10) + [Digit(n % 10)]
  }

  /** The value of a string of decimal digits: the reading direction of `Decimal`. */
  function DecimalValue(s: string): nat
    requires forall k :: 0 <= k < |s| ==> IsDigit(s[k])
  {
    if s == [] then 0
    else
      var last := s[|s| - 1];
      assert IsDigit(last);
      DecimalValue(s[..|s| - 1]) * 10 + (last as int - '0' as int)
  }

  lemma {:induction false} DecimalRoundTrip(n: nat)
    ensures DecimalValue(Decimal(n)) == n
    decreases n
  {
    if n >= 10 {
      var d := Decimal(n);
      assert d[..|d| - 1] == Decimal(n / 10);
      DecimalRoundTrip(n / 10);
    }
  }

  /** Python's `str(i)` for any integer. */
  function IntText(i: int): string {
    if i < 0 then "-" + Decimal(-i) else Decimal(i)
  }
}
