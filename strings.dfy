/** The few JavaScript string operations the source uses, on `seq<char>`. */
module Strings {

  /** JavaScript's `\d`: the ASCII digits only. */
  predicate IsAsciiDigit(c: char)
  {
    '0' <= c <= '9'
  }

  predicate IsPrefix(t: string, s: string)
  {
    |t| <= |s| && s[..|t|] == t
  }

  /** `s.includes(t)`: `t` occurs in `s` at some position. */
  predicate Includes(s: string, t: string)
  {
    IsPrefix(t, s) || (|s| > 0 && Includes(s[1..], t))
  }

  lemma IncludesEmpty(s: string)
    ensures Includes(s, "")
  {
  }

  /** Nothing longer than `s` occurs in it. */
  lemma {:induction false} IncludesTooShort(s: string, t: string)
    requires |s| < |t|
    ensures !Includes(s, t)
  {
    if |s| > 0 {
      IncludesTooShort(s[1..], t);
    }
  }

  /** `Includes` agrees with the positional definition of a substring: an occurrence is found ... */
  lemma {:induction false} IncludesAt(s: string, t: string, i: nat)
    requires i + |t| <= |s| && s[i..i + |t|] == t
    ensures Includes(s, t)
  {
    if i > 0 {
      assert s[1..][i - 1..i - 1 + |t|] == t;
      IncludesAt(s[1..], t, i - 1);
    }
  }

  /** ... and `Includes` finds only such an occurrence. */
  lemma {:induction false} IncludesWhere(s: string, t: string) returns (i: nat)
    requires Includes(s, t)
    ensures i + |t| <= |s| && s[i..i + |t|] == t
  {
    if IsPrefix(t, s) {
      i := 0;
    } else {
      var j := IncludesWhere(s[1..], t);
      assert s[1..][j..j + |t|] == s[j + 1..j + 1 + |t|];
      i := j + 1;
    }
  }

  function DigitChar(d: nat): char
    requires d < 10
  {
    "0123456789"[d]
  }

  /** `n.toString()` for a non-negative integer. */
  function NatToString(n: nat): (r: string)
    ensures |r| > 0 && forall c :: c in r ==> IsAsciiDigit(c)
  {
    if n < 10 then [DigitChar(n)] else NatToString(n / 10) + [DigitChar(n % 10)]
  }

  /** `n.toString()` for an integer: a minus sign, then the decimal digits of |n|. */
  function IntToString(n: int): (r: string)
    ensures r != ""
    ensures (r[0] == '-') <==> n < 0
  {
    if n < 0 then "-" + NatToString(-n)
    else
      var r := NatToString(n);
      assert r[0] in r;
      r
  }

  /** The decimal value of a string of ASCII digits. */
  function DigitsValue(s: string): nat
    requires forall c :: c in s ==> IsAsciiDigit(c)
  {
    if |s| == 0 then 0
    else
      var d := s[|s| - 1];
      assert d in s && IsAsciiDigit(d);
      DigitsValue(s[..|s| - 1]) * 10 + (d as int - '0' as int)
  }

  /** Reading the digits back gives the number. */
  lemma {:induction false} NatToStringRoundTrip(n: nat)
    ensures DigitsValue(NatToString(n)) == n
  {
    var r := NatToString(n);
    if n >= 10 {
      NatToStringRoundTrip(n / 10);
      assert r[..|r| - 1] == NatToString(n / 10);
    }
  }

  /** `parts.join(sep)`. */
  function Join(parts: seq<string>, sep: string): string
  {
    if |parts| == 0 then ""
    else if |parts| == 1 then parts[0]
    else parts[0] + sep + Join(parts[1..], sep)
  }
}
