/**
 * Decimal numerals of integers, as JavaScript writes an integral number
 * into a template string (`${id}`), and their canonical parser.
 */
module Decimal {
  import opened Optional

  predicate IsDigit(c: char) {
    '0' <= c <= '9'
  }

  predicate AllDigits(s: string) {
    forall i :: 0 <= i < |s| ==> IsDigit(s[i])
  }

  /** A numeral without a sign and without leading zeros ("0" itself is canonical). */
  predicate Canonical(s: string) {
    |s| > 0 && AllDigits(s) && (s[0] == '0' ==> s == "0")
  }

  function Value(c: char): (d: nat)
    requires IsDigit(c)
    ensures d < 10
  {
    c as int - '0' as int
  }

  function Digit(d: nat): (c: char)
    requires d < 10
    ensures IsDigit(c) && Value(c) == d
  {
    (d + '0' as int) as char
  }

  /** The numeral of `n`, most significant digit first. */
  function NatToString(n: nat): (s: string)
    ensures Canonical(s)
  {
    if n < 10 then [Digit(n)] else NatToString(n / 10) + [Digit(n % 10)]
  }

  /** `String(n)` for an integral JavaScript number: a minus sign, then the numeral of |n|. */
  function IntToString(n: int): (s: string)
    ensures |s| > 0
    ensures forall i :: 0 <= i < |s| ==> IsDigit(s[i]) || (i == 0 && s[i] == '-')
  {
    if n < 0 then "-" + NatToString(-n) else NatToString(n)
  }

  function ParseNat(s: string): nat
    requires AllDigits(s)
  {
    if |s| == 0 then 0 else ParseNat(s[..|s| - 1]) * 10 + Value(s[|s| - 1])
  }

  /** Reads back exactly the numerals `IntToString` writes; anything else (leading zeros, "-0") is refused. */
  function ParseInt(s: string): Option<int> {
    if |s| > 0 && s[0] == '-' then
      if Canonical(s[1..]) && s[1..] != "0" then Some(0 - ParseNat(s[1..]) as int) else None
    else if Canonical(s) then Some(ParseNat(s))
    else None
  }

  lemma {:induction false} ParseNatToString(n: nat)
    ensures ParseNat(NatToString(n)) == n
  {
    if n >= 10 {
      ParseNatToString(n / 10);
      var s := NatToString(n);
      assert s[..|s| - 1] == NatToString(n / 10);
    }
  }

  lemma {:induction false} ParsePositive(s: string)
    requires |s| > 0 && AllDigits(s) && s[0] != '0'
    ensures ParseNat(s) > 0
  {
    if |s| > 1 {
      ParsePositive(s[..|s| - 1]);
    }
  }

  lemma {:induction false} NatToStringOfParse(s: string)
    requires Canonical(s)
    ensures NatToString(ParseNat(s)) == s
  {
    if |s| > 1 {
      var t, v := s[..|s| - 1], Value(s[|s| - 1]);
      ParsePositive(t);
      NatToStringOfParse(t);
      var n := ParseNat(s);
      assert n == ParseNat(t) * 10 + v;
      assert n / 10 == ParseNat(t) && n % 10 == v;
      assert s == t + [s[|s| - 1]];
    }
  }

  /** `ParseInt` inverts `IntToString`, in both directions: every integer has exactly one numeral. */
  lemma ParseIntIff(s: string, n: int)
    ensures ParseInt(s) == Some(n) <==> s == IntToString(n)
  {
    if s == IntToString(n) { ParseIntToString(n); }
    if ParseInt(s) == Some(n) { IntToStringOfParse(s, n); }
  }

  lemma ParseIntToString(n: int)
    ensures ParseInt(IntToString(n)) == Some(n)
  {
    var s := IntToString(n);
    if n < 0 {
      ParseNatToString(-n);
      assert s[1..] == NatToString(-n);
    } else {
      ParseNatToString(n);
    }
  }

  lemma IntToStringOfParse(s: string, n: int)
    requires ParseInt(s) == Some(n)
    ensures s == IntToString(n)
  {
    if |s| > 0 && s[0] == '-' {
      NatToStringOfParse(s[1..]);
      ParsePositive(s[1..]);
      assert s == "-" + s[1..];
    } else {
      NatToStringOfParse(s);
    }
  }

  /** Distinct integers are written differently, so an id can be read back from a path. */
  lemma IntToStringInjective(m: int, n: int)
    ensures IntToString(m) == IntToString(n) ==> m == n
  {
    ParseIntIff(IntToString(m), m);
    ParseIntIff(IntToString(n), n);
  }
}
