/**
 * The few JavaScript built-ins the demo's data generator and table renderer
 * rely on, stated over Dafny strings: `null`, `Number.prototype.toString` on
 * non-negative integers, `String.prototype.padStart`, `String.prototype.replace`
 * with a one-character pattern, `String.prototype.toUpperCase` (ASCII letters
 * only) and `Array.prototype.slice(0, n)`; plus `Contains`, a specification
 * predicate for substring occurrence.
 */
module JsBuiltins {

  /** JavaScript `null` for the fields that may hold it. */
  datatype Option<+T> = None | Some(value: T)

  predicate IsDigit(c: char) {
    '0' <= c <= '9'
  }

  predicate AllDigits(s: string) {
    forall i :: 0 <= i < |s| ==> IsDigit(s[i])
  }

  function DigitValue(c: char): (d: nat)
    requires IsDigit(c)
    ensures d < 10
  {
    c as int - '0' as int
  }

  function DigitChar(d: nat): (c: char)
    requires d < 10
    ensures IsDigit(c) && DigitValue(c) == d
  {
    ('0' as int + d) as char
  }

  /** `n.toString()`: the shortest decimal rendering of `n`. */
  function NatToString(n: nat): (s: string)
    ensures |s| >= 1 && AllDigits(s)
    ensures |s| > 1 ==> s[0] != '0'
  {
    if n < 10 then [DigitChar(n)] else NatToString(n / 10) + [DigitChar(n % 10)]
  }

  function Pow10(k: nat): (p: nat)
    ensures p >= 1
  {
    if k == 0 then 1 else 10 * Pow10(k - 1)
  }

  /** A number below 10^k renders in at most k digits. */
  lemma {:induction false} NatToStringLength(n: nat, k: nat)
    requires 1 <= k && n < Pow10(k)
    ensures |NatToString(n)| <= k
  {
    if n >= 10 {
      assert Pow10(1) == 10;
      NatToStringLength(n / 10, k - 1);
    }
  }

  /** The value of a string of decimal digits; the inverse of NatToString. */
  function ParseDecimal(s: string): nat
    requires AllDigits(s)
  {
    if s == [] then 0 else ParseDecimal(s[..|s| - 1]) * 10 + DigitValue(s[|s| - 1])
  }

  lemma {:induction false} ParseNatToString(n: nat)
    ensures ParseDecimal(NatToString(n)) == n
  {
    var s := NatToString(n);
    if n >= 10 {
      assert s[..|s| - 1] == NatToString(n / 10);
      ParseNatToString(n / 10);
    }
  }

  lemma NatToStringInjective(m: nat, n: nat)
    requires NatToString(m) == NatToString(n)
    ensures m == n
  {
    ParseNatToString(m);
    ParseNatToString(n);
  }

  function Repeat(c: char, n: nat): (s: string)
    ensures |s| == n && forall i :: 0 <= i < n ==> s[i] == c
  {
    seq(n, _ => c)
  }

  /** `s.padStart(width, fill)` with a one-character fill string. */
  function PadStart(s: string, width: nat, fill: char): (r: string)
    ensures |r| == if |s| >= width then |s| else width
    ensures r[|r| - |s|..] == s
    ensures forall i :: 0 <= i < |r| - |s| ==> r[i] == fill
  {
    if |s| >= width then s else Repeat(fill, width - |s|) + s
  }

  lemma {:induction false} ParseZeros(z: string)
    requires forall i :: 0 <= i < |z| ==> z[i] == '0'
    ensures AllDigits(z) && ParseDecimal(z) == 0
  {
    if z != [] {
      ParseZeros(z[..|z| - 1]);
    }
  }

  lemma {:induction false} ParseLeadingZeros(z: string, s: string)
    requires forall i :: 0 <= i < |z| ==> z[i] == '0'
    requires AllDigits(s)
    ensures AllDigits(z + s) && ParseDecimal(z + s) == ParseDecimal(s)
  {
    if s == [] {
      assert z + s == z;
      ParseZeros(z);
    } else {
      var t := z + s;
      assert t[..|t| - 1] == z + s[..|s| - 1];
      ParseLeadingZeros(z, s[..|s| - 1]);
    }
  }

  /** Zero-padding a decimal rendering loses nothing: the padded text still reads as `n`. */
  lemma PaddedDecimalRoundTrip(n: nat, width: nat)
    ensures AllDigits(PadStart(NatToString(n), width, '0'))
    ensures ParseDecimal(PadStart(NatToString(n), width, '0')) == n
  {
    var s := NatToString(n);
    ParseNatToString(n);
    if |s| < width {
      ParseLeadingZeros(Repeat('0', width - |s|), s);
    }
  }

  /** Distinct numbers have distinct zero-padded renderings, at any width. */
  lemma PaddedDecimalInjective(m: nat, n: nat, width: nat)
    requires m != n
    ensures PadStart(NatToString(m), width, '0') != PadStart(NatToString(n), width, '0')
  {
    PaddedDecimalRoundTrip(m, width);
    PaddedDecimalRoundTrip(n, width);
  }

  /** `s.replace(from, to)` with one-character strings: only the FIRST occurrence is replaced. */
  function ReplaceFirst(s: string, from: char, to: char): string
  {
    if s == [] then []
    else if s[0] == from then [to] + s[1..]
    else [s[0]] + ReplaceFirst(s[1..], from, to)
  }

  lemma {:induction false} ReplaceFirstSpec(s: string, from: char, to: char)
    ensures |ReplaceFirst(s, from, to)| == |s|
    ensures forall i :: 0 <= i < |s| ==>
      ReplaceFirst(s, from, to)[i] == if s[i] == from && from !in s[..i] then to else s[i]
  {
    if s != [] && s[0] != from {
      ReplaceFirstSpec(s[1..], from, to);
      forall i | 1 <= i < |s|
        ensures (s[i] == from && from !in s[..i]) == (s[1..][i - 1] == from && from !in s[1..][..i - 1])
      {
        assert s[..i] == [s[0]] + s[1..][..i - 1];
      }
    }
  }

  /** ReplaceFirst replaces the occurrence that follows a prefix free of `from`, and nothing after it. */
  lemma {:induction false} ReplaceFirstAfterPrefix(prefix: string, rest: string, from: char, to: char)
    requires from !in prefix
    ensures ReplaceFirst(prefix + [from] + rest, from, to) == prefix + [to] + rest
  {
    if prefix != [] {
      assert (prefix + [from] + rest)[1..] == prefix[1..] + [from] + rest;
      assert prefix[0] in prefix;
      ReplaceFirstAfterPrefix(prefix[1..], rest, from, to);
    }
  }

  function UpperChar(c: char): char {
    if 'a' <= c <= 'z' then (c as int - 32) as char else c
  }

  /** `s.toUpperCase()` for ASCII text. */
  function ToUpper(s: string): (r: string)
    ensures |r| == |s| && forall i :: 0 <= i < |s| ==> r[i] == UpperChar(s[i])
  {
    seq(|s|, i requires 0 <= i < |s| => UpperChar(s[i]))
  }

  lemma ToUpperAppend(a: string, b: string)
    ensures ToUpper(a + b) == ToUpper(a) + ToUpper(b)
  {
  }

  /** `pat` occurs somewhere in `s`: a specification predicate for stating what a generated URL carries. */
  predicate Contains(s: string, pat: string) {
    exists k :: 0 <= k <= |s| && pat <= s[k..]
  }

  lemma ContainsInfix(a: string, b: string, c: string)
    ensures Contains(a + b + c, b)
  {
    assert (a + b + c)[|a|..] == b + c;
  }

  /** Each half of an occurring concatenation occurs too. */
  lemma ContainsParts(s: string, a: string, b: string)
    requires Contains(s, a + b)
    ensures Contains(s, a) && Contains(s, b)
  {
    var k :| 0 <= k <= |s| && a + b <= s[k..];
    assert a <= s[k..];
    assert b <= s[k + |a|..];
  }

  /** `s.slice(0, n)`. */
  function Take<T>(s: seq<T>, n: nat): (r: seq<T>)
    ensures |r| == if |s| <= n then |s| else n
    ensures r <= s
  {
    if |s| <= n then s else s[..n]
  }

  /** Pushing element `i` of `s` onto its first `i` elements gives its first `i + 1`. */
  lemma PushPrefix<T>(s: seq<T>, i: nat)
    requires i < |s|
    ensures s[..i + 1] == s[..i] + [s[i]]
  {
  }
}
