/**
 * String operations the storefront takes from JavaScript: `trim`, the `\d{6}` test,
 * ASCII upper-casing, `slice`, `includes`, UTF-16 `length` and decimal rendering of integers.
 */
module Text {
  import opened Wrappers

  /** ECMAScript WhiteSpace and LineTerminator code points, the set `String.prototype.trim` removes. */
  predicate IsWhitespace(c: char) {
    || c == ' ' || c == '\t' || c == '\n' || c == '\r'
    || c == '\U{000B}' || c == '\U{000C}' || c == '\U{00A0}' || c == '\U{1680}'
    || ('\U{2000}' <= c <= '\U{200A}')
    || c == '\U{2028}' || c == '\U{2029}' || c == '\U{202F}' || c == '\U{205F}'
    || c == '\U{3000}' || c == '\U{FEFF}'
  }

  predicate AllWhitespace(s: string) {
    forall i :: 0 <= i < |s| ==> IsWhitespace(s[i])
  }

  function TrimStart(s: string): (r: string)
    ensures |r| <= |s| && r == s[|s| - |r|..]
    ensures r == [] || !IsWhitespace(r[0])
    ensures AllWhitespace(s[..|s| - |r|])
  {
    if s != [] && IsWhitespace(s[0]) then TrimStart(s[1..]) else s
  }

  function TrimEnd(s: string): (r: string)
    ensures |r| <= |s| && r == s[..|r|]
    ensures r == [] || !IsWhitespace(r[|r| - 1])
    ensures AllWhitespace(s[|r|..])
  {
    if s != [] && IsWhitespace(s[|s| - 1]) then TrimEnd(s[..|s| - 1]) else s
  }

  /** `String.prototype.trim`: the input without leading and trailing whitespace. */
  function Trim(s: string): (r: string)
    ensures |r| <= |s|
    ensures r == [] || (!IsWhitespace(r[0]) && !IsWhitespace(r[|r| - 1]))
    ensures r == [] <==> AllWhitespace(s)
    ensures exists i, j :: WhitespaceAround(s, r, i, j)
  {
    var u := TrimEnd(TrimStart(s));
    assert u == [] <==> AllWhitespace(s) by {
      TrimBlank(s);
    }
    assert exists i, j :: WhitespaceAround(s, u, i, j) by {
      TrimIsSlice(s);
    }
    u
  }

  /** Trimming both ends leaves nothing exactly when the input is all whitespace. */
  lemma TrimBlank(s: string)
    ensures TrimEnd(TrimStart(s)) == [] <==> AllWhitespace(s)
  {
    var t := TrimStart(s);
    var u := TrimEnd(t);
    var n := |s| - |t|;
    if u == [] {
      assert t == [] by {
        assert t[|u|..] == t;
      }
      assert s[..n] == s;
    } else {
      assert u[0] == t[0] == s[n];
    }
  }

  /** `r` is the slice `s[i..j]` and everything around it in `s` is whitespace. */
  predicate WhitespaceAround(s: string, r: string, i: nat, j: nat) {
    i <= j <= |s| && r == s[i..j] && AllWhitespace(s[..i]) && AllWhitespace(s[j..])
  }

  /** Trimming both ends cuts out a slice whose surroundings are whitespace only. */
  lemma TrimIsSlice(s: string)
    ensures exists i, j :: WhitespaceAround(s, TrimEnd(TrimStart(s)), i, j)
  {
    var t := TrimStart(s);
    var u := TrimEnd(t);
    var i, j := |s| - |t|, |s| - |t| + |u|;
    assert WhitespaceAround(s, u, i, j) by {
      assert t == s[i..];
      assert s[i..j] == t[..|u|];
      assert s[j..] == t[|u|..];
    }
  }

  /** JavaScript's `v || fallback` on a possibly missing string: the empty string is falsy too. */
  function OrElse(v: Option<string>, fallback: string): (r: string)
    ensures r == fallback <==> v.None? || v.value == "" || v.value == fallback
    ensures r != fallback ==> v == Some(r)
  {
    if v.Some? && v.value != "" then v.value else fallback
  }

  /** A string JavaScript treats as empty once trimmed: `!s.trim()` holds exactly for these, by the
      last postcondition of `Trim`. */
  predicate IsBlank(s: string) {
    AllWhitespace(s)
  }

  predicate IsDigit(c: char) {
    '0' <= c <= '9'
  }

  /** The regular expression `/^\d{6}$/`: exactly six ASCII digits and nothing else. */
  predicate IsSixDigits(s: string) {
    |s| == 6 && forall i :: 0 <= i < |s| ==> IsDigit(s[i])
  }

  lemma SixDigitsNotBlank(s: string)
    requires IsSixDigits(s)
    ensures !IsBlank(s)
  {
    assert !IsWhitespace(s[0]);
  }

  predicate IsAsciiLower(c: char) {
    'a' <= c <= 'z'
  }

  function UpperChar(c: char): (u: char)
    ensures !IsAsciiLower(u)
    ensures !IsAsciiLower(c) ==> u == c
    ensures IsAsciiLower(c) ==> u as int == c as int - 32
  {
    if IsAsciiLower(c) then (c as int - 32) as char else c
  }

  /** `toUpperCase` on ASCII letters; every other character is kept. */
  function ToUpper(s: string): (r: string)
    ensures |r| == |s|
    ensures forall i :: 0 <= i < |r| ==> !IsAsciiLower(r[i])
    ensures forall i :: 0 <= i < |s| && !IsAsciiLower(s[i]) ==> r[i] == s[i]
    ensures forall i :: 0 <= i < |s| && IsAsciiLower(s[i]) ==> r[i] as int == s[i] as int - 32
  {
    seq(|s|, i requires 0 <= i < |s| => UpperChar(s[i]))
  }

  /** `slice(0, n)`: the first `n` characters, or the whole string when it is shorter. */
  function Take(s: string, n: nat): (r: string)
    ensures |r| == if |s| < n then |s| else n
    ensures r == s[..|r|]
  {
    if |s| <= n then s else s[..n]
  }

  /** `String.prototype.includes`: `part` occurs somewhere in `s`. */
  predicate Contains(s: string, part: string)
    decreases |s|
  {
    |part| <= |s| && (s[..|part|] == part || Contains(s[1..], part))
  }

  lemma {:induction false} ContainsAt(s: string, part: string, i: nat)
    requires i + |part| <= |s| && s[i..i + |part|] == part
    ensures Contains(s, part)
  {
    if i > 0 {
      assert s[1..][i - 1..i - 1 + |part|] == part;
      ContainsAt(s[1..], part, i - 1);
    }
  }

  /** A string lacking one of the characters of `part` cannot contain `part`. */
  lemma {:induction false} MissingCharNotContained(s: string, part: string, c: char)
    requires c in part && c !in s
    ensures !Contains(s, part)
    decreases |s|
  {
    if |part| <= |s| {
      var k :| 0 <= k < |part| && part[k] == c;
      assert s[..|part|][k] != part[k];
      MissingCharNotContained(s[1..], part, c);
    }
  }

  /** `String.prototype.length`: UTF-16 code units, two for a character outside the Basic Multilingual Plane. */
  function Utf16Length(s: string): (n: nat)
    ensures n >= |s|
  {
    if s == [] then 0 else (if s[0] as int > 0xFFFF then 2 else 1) + Utf16Length(s[1..])
  }

  function DigitChar(d: nat): (c: char)
    requires d < 10
    ensures IsDigit(c) && c as int - '0' as int == d
  {
    ('0' as int + d) as char
  }

  /** Decimal rendering of a natural number, as `String(n)` prints it. */
  function NatToString(n: nat): (r: string)
    ensures |r| >= 1
    ensures forall i :: 0 <= i < |r| ==> IsDigit(r[i])
    ensures |r| > 1 ==> r[0] != '0'
    ensures n < 10 <==> |r| == 1
  {
    if n < 10 then [DigitChar(n)] else NatToString(n / 10) + [DigitChar(n % 10)]
  }

  /** The value of a string of decimal digits, the partner of NatToString. */
  function DigitsValue(s: string): nat
    requires forall i :: 0 <= i < |s| ==> IsDigit(s[i])
  {
    if s == [] then 0
    else
      assert IsDigit(s[|s| - 1]);
      DigitsValue(s[..|s| - 1]) * 10 + (s[|s| - 1] as int - '0' as int)
  }

  lemma {:induction false} NatToStringRoundTrip(n: nat)
    ensures DigitsValue(NatToString(n)) == n
  {
    if n >= 10 {
      NatToStringRoundTrip(n / 10);
      var r := NatToString(n);
      assert r[..|r| - 1] == NatToString(n / 10);
    }
  }

  lemma {:induction false} NatToStringLength(n: nat)
    ensures n < 100 <==> |NatToString(n)| <= 2
  {
    if n >= 10 {
      NatToStringLength(n / 10);
    }
  }

  /** Decimal rendering of an integer, with a leading minus sign for a negative one. */
  function IntToString(i: int): (r: string)
    ensures |r| >= 1
    ensures i < 0 <==> r[0] == '-'
  {
    if i < 0 then "-" + NatToString(-i) else NatToString(i)
  }
}
