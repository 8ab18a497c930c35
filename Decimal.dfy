/** Decimal text of integers: `String(n)` for an integer-valued number, the
    digit run a JSON reader or `parseInt` consumes, and their round trip. */
module Decimal {
  import opened Common
  import JsString

  predicate IsDigit(c: char)
  {
    '0' <= c <= '9'
  }

  predicate AllDigits(s: string)
  {
    forall i :: 0 <= i < |s| ==> IsDigit(s[i])
  }

  function DigitChar(d: nat): (c: char)
    requires d < 10
    ensures IsDigit(c)
  {
    ('0' as int + d) as char
  }

  /** The shortest decimal numeral of `n`. */
  function NatDigits(n: nat): (r: string)
    ensures |r| >= 1 && AllDigits(r)
    ensures |r| > 1 ==> r[0] != '0'
    decreases n
  {
    if n < 10 then [DigitChar(n)] else NatDigits(n / 10) + [DigitChar(n % 10)]
  }

  /** `String(i)` for an integer `i`. */
  function IntToString(i: int): (r: string)
    ensures |r| >= 1 && (r[0] == '-' || IsDigit(r[0]))
  {
    if i < 0 then "-" + NatDigits(-i) else NatDigits(i)
  }

  /** A numeral holds digits and at most a minus sign. */
  lemma NumeralChars(i: int)
    ensures forall k :: 0 <= k < |IntToString(i)| ==> IsDigit(IntToString(i)[k]) || IntToString(i)[k] == '-'
  {
    if i < 0 {
      var ds := NatDigits(-i);
      assert forall k :: 1 <= k < |ds| + 1 ==> ("-" + ds)[k] == ds[k - 1];
    }
  }

  /** The value of a run of decimal digits, most significant first. */
  function DigitsValue(ds: string): nat
    requires AllDigits(ds)
  {
    if |ds| == 0 then 0
    else DigitsValue(ds[..|ds| - 1]) * 10 + (ds[|ds| - 1] as int - '0' as int)
  }

  /** Reading back the numeral of `n` gives `n`. */
  lemma {:induction false} DigitsRoundTrip(n: nat)
    ensures DigitsValue(NatDigits(n)) == n
    decreases n
  {
    if n >= 10 {
      var ds := NatDigits(n);
      DigitsRoundTrip(n / 10);
      assert ds[..|ds| - 1] == NatDigits(n / 10);
    }
  }

  /** The longest prefix of `s` made of digits. */
  function LeadingDigits(s: string): (r: string)
    ensures |r| <= |s| && r == s[..|r|] && AllDigits(r)
    ensures |r| == |s| || !IsDigit(s[|r|])
  {
    if |s| > 0 && IsDigit(s[0]) then [s[0]] + LeadingDigits(s[1..]) else ""
  }

  lemma {:induction false} LeadingDigitsOfRun(ds: string, rest: string)
    requires AllDigits(ds)
    requires rest == [] || !IsDigit(rest[0])
    ensures LeadingDigits(ds + rest) == ds
    decreases |ds|
  {
    if |ds| > 0 {
      assert (ds + rest)[1..] == ds[1..] + rest;
      LeadingDigitsOfRun(ds[1..], rest);
    }
  }

  /** The value of the digit run at the front of `t`; None when there is none. */
  function UnsignedPrefix(t: string): Option<int>
  {
    var ds := LeadingDigits(t);
    if |ds| == 0 then None else Some(DigitsValue(ds) as int)
  }

  function Negate(r: Option<int>): Option<int>
  {
    if r.None? then None else Some(-r.value)
  }

  /** An optional sign and then a digit run at the very front of `t`. */
  function SignedPrefix(t: string): Option<int>
  {
    if |t| > 0 && t[0] == '-' then Negate(UnsignedPrefix(t[1..]))
    else if |t| > 0 && t[0] == '+' then UnsignedPrefix(t[1..])
    else UnsignedPrefix(t)
  }

  /** An optionally signed decimal integer at the front of `s`, as `parseInt`
      with no radix reads it once leading white space is gone; None where
      `parseInt` gives NaN. */
  function ParseLeadingInt(s: string): Option<int>
  {
    SignedPrefix(JsString.TrimStart(s))
  }

  /** A run of digits followed by a non-digit reads as its value. */
  lemma UnsignedRun(ds: string, rest: string)
    requires |ds| >= 1 && AllDigits(ds)
    requires rest == [] || !IsDigit(rest[0])
    ensures UnsignedPrefix(ds + rest) == Some(DigitsValue(ds) as int)
  {
    LeadingDigitsOfRun(ds, rest);
  }

  /** A minus sign in front is not white space: it negates the run that
      follows it. */
  lemma ParseMinus(t: string)
    ensures ParseLeadingInt("-" + t) == Negate(UnsignedPrefix(t))
  {
    var s := "-" + t;
    assert s[0] == '-' && s[1..] == t;
    JsString.TrimStartKeeps(s);
  }

  /** A digit is neither white space nor a sign. */
  lemma DigitIsPlain(c: char)
    requires IsDigit(c)
    ensures !JsString.IsWhiteSpace(c) && c != '-' && c != '+'
  {
  }

  /** A digit in front is not white space nor a sign: the run is read as it stands. */
  lemma ParseDigitFirst(ds: string, rest: string)
    requires |ds| >= 1 && AllDigits(ds)
    ensures ParseLeadingInt(ds + rest) == UnsignedPrefix(ds + rest)
  {
    var s := ds + rest;
    var c := s[0];
    assert c == ds[0];
    DigitIsPlain(c);
    JsString.TrimStartKeeps(s);
  }

  /** The numeral of a negative number is a minus sign before the numeral of
      its magnitude. */
  lemma NegativeNumeral(i: int, ds: string, rest: string)
    requires i < 0 && ds == NatDigits(-i)
    ensures IntToString(i) + rest == "-" + (ds + rest)
  {
    assert IntToString(i) == "-" + ds;
  }

  /** A minus sign before the numeral of `m` reads back as `-m`. */
  lemma NegativeReadsBack(m: nat, rest: string, s: string)
    requires rest == [] || !IsDigit(rest[0])
    requires s == "-" + (NatDigits(m) + rest)
    ensures ParseLeadingInt(s) == Some(-(m as int))
  {
    var ds := NatDigits(m);
    DigitsRoundTrip(m);
    UnsignedRun(ds, rest);
    NegatedRun(ds + rest, m);
  }

  /** A minus sign before text whose digit run reads as `v` reads as `-v`. */
  lemma NegatedRun(t: string, v: int)
    requires UnsignedPrefix(t) == Some(v)
    ensures ParseLeadingInt("-" + t) == Some(-v)
  {
    ParseMinus(t);
  }

  /** The numeral of a number that is not negative reads back. */
  lemma NonNegativeReadsBack(i: nat, rest: string)
    requires rest == [] || !IsDigit(rest[0])
    ensures ParseLeadingInt(NatDigits(i) + rest) == Some(i)
  {
    var ds := NatDigits(i);
    DigitsRoundTrip(i);
    UnsignedRun(ds, rest);
    ParseDigitFirst(ds, rest);
  }

  /** `parseInt` reads back what `String` wrote, whatever follows a non-digit. */
  lemma ParseIntToString(i: int, rest: string)
    requires rest == [] || !IsDigit(rest[0])
    ensures ParseLeadingInt(IntToString(i) + rest) == Some(i)
  {
    if i < 0 {
      NegativeToString(i, rest);
    } else {
      NonNegativeReadsBack(i, rest);
    }
  }

  lemma NegativeToString(i: int, rest: string)
    requires i < 0
    requires rest == [] || !IsDigit(rest[0])
    ensures ParseLeadingInt(IntToString(i) + rest) == Some(i)
  {
    var ds := NatDigits(-i);
    var s := IntToString(i) + rest;
    NegativeNumeral(i, ds, rest);
    NegativeReadsBack(-i, rest, s);
  }
}
