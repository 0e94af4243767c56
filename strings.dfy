/** The parts of Python's `str` that the core relies on: `strip`, `split`, `join`,
    `isdigit`, `int(...)`, slicing and code-point ordering. */
module Strings {
  import opened Wrappers

  /** `str.isspace()` for one character: the characters Python's `strip()` removes
      and the regular-expression class `\s` matches. */
  predicate IsSpace(c: char) {
    ('\U{0009}' <= c <= '\U{000D}') || ('\U{001C}' <= c <= '\U{0020}')
    || c == '\U{0085}' || c == '\U{00A0}' || c == '\U{1680}'
    || ('\U{2000}' <= c <= '\U{200A}') || c == '\U{2028}' || c == '\U{2029}'
    || c == '\U{202F}' || c == '\U{205F}' || c == '\U{3000}'
  }

  predicate IsDigit(c: char) { '0' <= c <= '9' }

  /** `s.isdigit()`: non-empty and every character a digit. */
  predicate IsDigits(s: string) {
    |s| > 0 && forall i :: 0 <= i < |s| ==> IsDigit(s[i])
  }

  /** A truthy optional string: neither `None` nor empty. */
  predicate Present(s: Option<string>) { s.Some? && s.value != "" }

  predicate HasNoEdgeSpace(s: string) {
    s == [] || (!IsSpace(s[0]) && !IsSpace(s[|s| - 1]))
  }

  predicate AllSpace(s: string) {
    forall i :: 0 <= i < |s| ==> IsSpace(s[i])
  }

  /** `s.lstrip()`: drops the whitespace prefix and nothing else. */
  function LStrip(s: string): (r: string)
    ensures |r| <= |s|
    ensures r == [] || !IsSpace(r[0])
  {
    if s != [] && IsSpace(s[0]) then LStrip(s[1..]) else s
  }

  /** What `lstrip` drops is whitespace, and what it keeps is a suffix. */
  lemma {:induction false} LStripIsSuffix(s: string)
    ensures LStrip(s) == s[|s| - |LStrip(s)|..]
    ensures AllSpace(s[..|s| - |LStrip(s)|])
  {
    if s != [] && IsSpace(s[0]) {
      LStripIsSuffix(s[1..]);
      var r := LStrip(s);
      var n := |s| - |r|;
      assert r == LStrip(s[1..]);
      forall k | 0 <= k < |r| ensures r[k] == s[n + k] {
        assert r[k] == s[1..][n - 1 + k];
      }
      forall k | 0 <= k < n ensures IsSpace(s[k]) {
        if k > 0 {
          assert s[k] == s[1..][..n - 1][k - 1];
        }
      }
    }
  }

  /** `s.rstrip()`: drops the whitespace suffix and nothing else. */
  function RStrip(s: string): (r: string)
    ensures |r| <= |s|
    ensures r == [] || !IsSpace(r[|r| - 1])
  {
    if s != [] && IsSpace(s[|s| - 1]) then RStrip(s[..|s| - 1]) else s
  }

  /** What `rstrip` drops is whitespace, and what it keeps is a prefix. */
  lemma {:induction false} RStripIsPrefix(s: string)
    ensures RStrip(s) == s[..|RStrip(s)|]
    ensures AllSpace(s[|RStrip(s)|..])
  {
    if s != [] && IsSpace(s[|s| - 1]) {
      var u := s[..|s| - 1];
      RStripIsPrefix(u);
      var r := RStrip(s);
      assert r == RStrip(u);
      forall k | 0 <= k < |r| ensures r[k] == s[k] {
        assert r[k] == u[k];
      }
      forall k | |r| <= k < |s| ensures IsSpace(s[k]) {
        if k < |s| - 1 {
          assert s[k] == u[|r|..][k - |r|];
        }
      }
    }
  }

  /** `s.strip()`. */
  function Strip(s: string): (r: string)
    ensures |r| <= |s|
    ensures HasNoEdgeSpace(r)
  {
    RStripIsPrefix(LStrip(s));
    RStrip(LStrip(s))
  }

  lemma {:induction false} LStripOfSpaces(pre: string, t: string)
    requires AllSpace(pre)
    requires t == [] || !IsSpace(t[0])
    ensures LStrip(pre + t) == t
  {
    if pre != [] {
      assert (pre + t)[1..] == pre[1..] + t;
      LStripOfSpaces(pre[1..], t);
    } else {
      assert pre + t == t;
    }
  }

  lemma {:induction false} RStripOfSpaces(t: string, post: string)
    requires AllSpace(post)
    requires t == [] || !IsSpace(t[|t| - 1])
    ensures RStrip(t + post) == t
  {
    if post != [] {
      assert (t + post)[..|t + post| - 1] == t + post[..|post| - 1];
      RStripOfSpaces(t, post[..|post| - 1]);
    } else {
      assert t + post == t;
    }
  }

  /** Stripping removes exactly the whitespace padding around a piece that has none
      at its own edges. */
  lemma StripOfPadded(pre: string, t: string, post: string)
    requires AllSpace(pre) && AllSpace(post) && HasNoEdgeSpace(t)
    ensures Strip(pre + t + post) == t
  {
    if t == [] {
      assert pre + t + post == pre + post;
      assert AllSpace(pre + post);
      LStripOfSpaces(pre + post, []);
      assert pre + post + [] == pre + post;
    } else {
      assert pre + t + post == pre + (t + post);
      LStripOfSpaces(pre, t + post);
      RStripOfSpaces(t, post);
    }
  }

  lemma StripIdempotent(s: string)
    ensures Strip(Strip(s)) == Strip(s)
  {
    var t := Strip(s);
    assert [] + t + [] == t;
    StripOfPadded([], t, []);
  }

  /** `s.split(sep)` for a one-character separator: always at least one piece. */
  function Split(s: string, sep: char): (parts: seq<string>)
    ensures |parts| >= 1
    ensures forall i :: 0 <= i < |parts| ==> sep !in parts[i]
    ensures Join(parts, [sep]) == s
  {
    if s == [] then [""]
    else
      var rest := Split(s[1..], sep);
      if s[0] == sep then
        assert Join([""] + rest, [sep]) == "" + [sep] + Join(rest, [sep]);
        [""] + rest
      else
        var parts := [[s[0]] + rest[0]] + rest[1..];
        assert Join(parts, [sep]) == [s[0]] + Join(rest, [sep]) by {
          if |rest| == 1 {
          } else {
            assert parts[1..] == rest[1..];
          }
        }
        parts
  }

  /** `sep.join(parts)`. */
  function Join(parts: seq<string>, sep: string): string {
    if parts == [] then ""
    else if |parts| == 1 then parts[0]
    else parts[0] + sep + Join(parts[1..], sep)
  }

  lemma {:induction false} JoinSplit(parts: seq<string>, sep: char)
    requires |parts| >= 1
    requires forall i :: 0 <= i < |parts| ==> sep !in parts[i]
    ensures Split(Join(parts, [sep]), sep) == parts
  {
    if |parts| == 1 {
      SplitWithoutSep(parts[0], sep);
    } else {
      JoinSplit(parts[1..], sep);
      SplitPrefix(parts[0], Join(parts[1..], [sep]), sep);
      assert Join(parts, [sep]) == parts[0] + ([sep] + Join(parts[1..], [sep]));
      assert [parts[0]] + parts[1..] == parts;
    }
  }

  lemma {:induction false} SplitWithoutSep(s: string, sep: char)
    requires sep !in s
    ensures Split(s, sep) == [s]
  {
    if s != [] {
      SplitWithoutSep(s[1..], sep);
      assert [s[0]] + s[1..] == s;
    }
  }

  lemma {:induction false} SplitPrefix(p: string, rest: string, sep: char)
    requires sep !in p
    ensures Split(p + ([sep] + rest), sep) == [p] + Split(rest, sep)
  {
    if p == [] {
      assert p + ([sep] + rest) == [sep] + rest;
      assert ([sep] + rest)[1..] == rest;
    } else {
      assert (p + ([sep] + rest))[1..] == p[1..] + ([sep] + rest);
      SplitPrefix(p[1..], rest, sep);
      assert [p[0]] + p[1..] == p;
    }
  }

  function DigitValue(c: char): nat requires IsDigit(c) { (c as int) - ('0' as int) }

  /** The decimal value of a string of digits. */
  function DigitsValue(s: string): nat
    requires forall i :: 0 <= i < |s| ==> IsDigit(s[i])
  {
    if s == [] then 0 else DigitsValue(s[..|s| - 1]) * 10 + DigitValue(s[|s| - 1])
  }

  /** Python's `int(s)` on a string: surrounding whitespace, an optional sign and a
      non-empty run of ASCII digits give `Some`; anything else is `None`, where
      Python raises `ValueError`. Unlike Python, the underscores Python accepts
      between digits (`"1_0"`) are rejected here too. */
  function ParseInt(s: string): Option<int> {
    ParseSigned(Strip(s))
  }

  /** An optional sign followed by at least one digit, and nothing else. */
  function ParseSigned(t: string): Option<int> {
    if t == [] then None
    else if (t[0] == '-' || t[0] == '+') && IsDigits(t[1..]) then
      Some(if t[0] == '-' then 0 - DigitsValue(t[1..]) as int else DigitsValue(t[1..]))
    else if IsDigits(t) then Some(DigitsValue(t))
    else None
  }

  lemma ParseIntOfDigits(s: string)
    requires IsDigits(s)
    ensures ParseInt(s) == Some(DigitsValue(s))
  {
    StripOfDigits(s);
    ParseSignedOfDigits(s);
  }

  lemma ParseSignedOfDigits(s: string)
    requires IsDigits(s)
    ensures ParseSigned(s) == Some(DigitsValue(s))
  {
    assert IsDigit(s[0]);
  }

  lemma StripOfDigits(s: string)
    requires IsDigits(s)
    ensures Strip(s) == s
  {
    var e: string := [];
    assert e + s + e == s;
    assert IsDigit(s[0]) && IsDigit(s[|s| - 1]);
    StripOfPadded(e, s, e);
  }

  function DigitChar(d: nat): char requires d < 10 { (('0' as int) + d) as char }

  /** `str(n)` for a natural number. */
  function NatToString(n: nat): (r: string)
    ensures IsDigits(r)
  {
    if n < 10 then [DigitChar(n)] else NatToString(n / 10) + [DigitChar(n % 10)]
  }

  /** `str(n)` for any integer. */
  function IntToString(n: int): string {
    if n < 0 then "-" + NatToString(-n) else NatToString(n)
  }

  lemma {:induction false} DigitsValueOfNatToString(n: nat)
    ensures DigitsValue(NatToString(n)) == n
  {
    if n >= 10 {
      var r := NatToString(n);
      assert r[..|r| - 1] == NatToString(n / 10);
      DigitsValueOfNatToString(n / 10);
    }
  }

  /** `int(str(n)) == n`. */
  lemma ParseIntToString(n: int)
    ensures ParseInt(IntToString(n)) == Some(n)
  {
    var m: nat := if n < 0 then -n else n;
    var d := NatToString(m);
    DigitsValueOfNatToString(m);
    if n < 0 {
      assert IntToString(n) == "-" + d;
      ParseIntOfNegative(d);
    } else {
      assert IntToString(n) == d;
      ParseIntOfDigits(d);
    }
  }

  lemma ParseIntOfNegative(d: string)
    requires IsDigits(d)
    ensures ParseInt("-" + d) == Some(0 - DigitsValue(d) as int)
  {
    var t := "-" + d;
    var e: string := [];
    assert e + t + e == t;
    assert !IsSpace(t[0]) && t[|t| - 1] == d[|d| - 1] && IsDigit(d[|d| - 1]);
    StripOfPadded(e, t, e);
    ParseSignedOfNegative(d);
  }

  lemma ParseSignedOfNegative(d: string)
    requires IsDigits(d)
    ensures ParseSigned("-" + d) == Some(0 - DigitsValue(d) as int)
  {
    assert ("-" + d)[1..] == d;
  }

  /** `s[:n]` for `n >= 0`. */
  function Prefix(s: string, n: nat): (r: string)
    ensures |r| == Min(n, |s|) && r == s[..|r|]
  {
    if n < |s| then s[..n] else s
  }

  function Repeat(c: char, n: nat): (r: string)
    ensures |r| == n && forall i :: 0 <= i < n ==> r[i] == c
  {
    if n == 0 then "" else [c] + Repeat(c, n - 1)
  }

  /** ASCII lower-casing of one character. */
  function LowerChar(c: char): char {
    if 'A' <= c <= 'Z' then ((c as int) + 32) as char else c
  }

  /** ASCII lower-casing; for the comparison with "true" this agrees with `str.lower()`. */
  function LowerAscii(s: string): (r: string)
    ensures |r| == |s|
  {
    if s == [] then "" else [LowerChar(s[0])] + LowerAscii(s[1..])
  }

  /** Code-point lexicographic order on strings (Python's `<=`). */
  predicate StrLe(a: string, b: string) {
    a == [] || (b != [] && (a[0] < b[0] || (a[0] == b[0] && StrLe(a[1..], b[1..]))))
  }

  lemma {:induction false} StrLeTotal(a: string, b: string)
    ensures StrLe(a, b) || StrLe(b, a)
  {
    if a != [] && b != [] && a[0] == b[0] {
      StrLeTotal(a[1..], b[1..]);
    }
  }

  lemma {:induction false} StrLeTransitive(a: string, b: string, c: string)
    requires StrLe(a, b) && StrLe(b, c)
    ensures StrLe(a, c)
  {
    if a != [] && b != [] && c != [] && a[0] == b[0] && b[0] == c[0] {
      StrLeTransitive(a[1..], b[1..], c[1..]);
    }
  }

  lemma {:induction false} StrLeAntisymmetric(a: string, b: string)
    requires StrLe(a, b) && StrLe(b, a)
    ensures a == b
  {
    if a != [] && b != [] {
      StrLeAntisymmetric(a[1..], b[1..]);
      assert a == [a[0]] + a[1..] && b == [b[0]] + b[1..];
    }
  }

  predicate StartsWith(s: string, p: string) { |p| <= |s| && s[..|p|] == p }

  predicate EndsWith(s: string, p: string) { |p| <= |s| && s[|s| - |p|..] == p }
}
