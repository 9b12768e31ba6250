/**
 * Reading the integer numerator of an auxiliary score string such as
 * "32/48": the text before the first '/' (the whole string when there is
 * none), read as an optionally signed decimal integer.
 */
module Numerals {
  import opened Options

  predicate IsDigit(c: char)
  {
    '0' <= c <= '9'
  }

  predicate AllDigits(s: string)
  {
    forall k :: 0 <= k < |s| ==> IsDigit(s[k])
  }

  /** The text before the first '/', or all of `s` when it has none. */
  function BeforeSlash(s: string): (p: string)
    ensures p <= s
    ensures '/' !in p
    ensures |p| < |s| ==> s[|p|] == '/'
  {
    if s == [] || s[0] == '/' then [] else [s[0]] + BeforeSlash(s[1..])
  }

  /** The value of a string of decimal digits, most significant first. */
  function DigitsValue(ds: string): nat
    requires AllDigits(ds)
  {
    if ds == [] then 0
    else DigitsValue(ds[..|ds| - 1]) * 10 + (ds[|ds| - 1] as int - '0' as int)
  }

  /** An optional '+' or '-' followed by at least one decimal digit; anything else does not parse. */
  function ParseInt(t: string): Option<int>
  {
    if |t| > 0 && (t[0] == '+' || t[0] == '-') then
      var ds := t[1..];
      if |ds| > 0 && AllDigits(ds) then
        var v: int := DigitsValue(ds);
        Some(if t[0] == '-' then -v else v)
      else None
    else if |t| > 0 && AllDigits(t) then Some(DigitsValue(t))
    else None
  }

  /** The integer numerator of a fraction string, if the text before the first '/' is an integer. */
  function ParseNumerator(s: string): Option<int>
  {
    ParseInt(BeforeSlash(s))
  }

  /** The decimal digits of a natural number, without leading zeros. */
  function Decimal(n: nat): (s: string)
    ensures |s| > 0 && AllDigits(s)
  {
    if n < 10 then [('0' as int + n) as char]
    else Decimal(n / 10) + [('0' as int + n % 10) as char]
  }

  /** The decimal form of an integer, with a '-' when it is negative. */
  function Signed(n: int): (s: string)
    ensures '/' !in s
  {
    if n < 0 then "-" + Decimal(-n) else Decimal(n)
  }

  lemma {:induction false} DecimalValue(n: nat)
    ensures DigitsValue(Decimal(n)) == n
  {
    if n >= 10 {
      var s := Decimal(n);
      DecimalValue(n / 10);
      assert s[..|s| - 1] == Decimal(n / 10);
    }
  }

  /** A non-empty run of digits reads as its value. */
  lemma ParseDigits(ds: string)
    requires |ds| > 0 && AllDigits(ds)
    ensures ParseInt(ds) == Some(DigitsValue(ds))
  {
    assert IsDigit(ds[0]);
  }

  /** A '-' followed by a non-empty run of digits reads as the negated value. */
  lemma ParseNegated(ds: string)
    requires |ds| > 0 && AllDigits(ds)
    ensures ParseInt("-" + ds) == Some(-(DigitsValue(ds) as int))
  {
    var t := "-" + ds;
    assert t[0] == '-' && t[1..] == ds;
  }

  /** Reading back a printed integer gives the integer. */
  lemma ParseSigned(n: int)
    ensures ParseInt(Signed(n)) == Some(n)
  {
    if n < 0 {
      DecimalValue(-n);
      ParseNegated(Decimal(-n));
    } else {
      DecimalValue(n);
      ParseDigits(Decimal(n));
    }
  }

  /** The text before the first '/' of `p + "/" + rest`, when `p` has no '/', is `p`. */
  lemma {:induction false} BeforeSlashOfFraction(p: string, rest: string)
    requires '/' !in p
    ensures BeforeSlash(p + "/" + rest) == p
  {
    if p != [] {
      assert (p + "/" + rest)[1..] == p[1..] + "/" + rest;
      BeforeSlashOfFraction(p[1..], rest);
    }
  }

  /** The numerator of "n/d" is n, whatever follows the slash. */
  lemma ParseNumeratorOfFraction(n: int, denominator: string)
    ensures ParseNumerator(Signed(n) + "/" + denominator) == Some(n)
  {
    BeforeSlashOfFraction(Signed(n), denominator);
    ParseSigned(n);
  }

  /** A string without '/' is read whole. */
  lemma ParseNumeratorWithoutSlash(s: string)
    requires '/' !in s
    ensures ParseNumerator(s) == ParseInt(s)
  {
    var p := BeforeSlash(s);
    assert |p| == |s|;
    assert p == s[..|p|] == s;
  }
  /** The score strings of the sample batches read as their numerators. */
  lemma SampleScoreStrings()
    ensures ParseNumerator("32/48") == Some(32)
    ensures ParseNumerator("28/48") == Some(28)
    ensures ParseNumerator("26/48") == Some(26)
  {
    assert Decimal(2) == "2" && Decimal(3) == "3";
    assert Decimal(32) == "32" && Decimal(28) == "28" && Decimal(26) == "26";
    assert Signed(32) + "/" + "48" == "32/48";
    assert Signed(28) + "/" + "48" == "28/48";
    assert Signed(26) + "/" + "48" == "26/48";
    ParseNumeratorOfFraction(32, "48");
    ParseNumeratorOfFraction(28, "48");
    ParseNumeratorOfFraction(26, "48");
  }
}
