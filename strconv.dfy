/**
  Decimal conversions and prefix handling the bot takes from Go's `strconv`
  and `strings` packages: `strconv.Atoi` / `strconv.ParseInt(s, 10, 64)`
  (optional sign, then one or more ASCII digits), `strconv.Itoa` /
  `strconv.FormatInt(n, 10)` and `strings.HasPrefix` / `strings.TrimPrefix`.
  Integers are unbounded: the 64-bit range errors of the Go parser are not
  modelled here.
 */
module Strconv {
  import opened Wrappers

  predicate IsDigit(c: char) {
    '0' <= c <= '9'
  }

  predicate AllDigits(s: string) {
    forall i :: 0 <= i < |s| ==> IsDigit(s[i])
  }

  function DigitValue(c: char): (d: nat)
    requires IsDigit(c)
    ensures d < 10
  {
    c as int - '0' as int
  }

  function DigitChar(d: nat): (c: char)
    requires d < 10
    ensures IsDigit(c) && DigitValue(c) == d
  {
    ('0' as int + d) as char
  }

  /** The value of a string of decimal digits, most significant first. */
  function DigitsValue(s: string): nat
    requires AllDigits(s)
  {
    if s == [] then 0 else DigitsValue(s[..|s| - 1]) * 10 + DigitValue(s[|s| - 1])
  }

  /** `strconv.Atoi`: an optional '+' or '-' followed by at least one digit. */
  function ParseInt(s: string): Option<int>
  {
    if |s| > 0 && (s[0] == '+' || s[0] == '-') then
      var body := s[1..];
      if |body| > 0 && AllDigits(body) then
        var v: int := DigitsValue(body);
        Some(if s[0] == '-' then -v else v)
      else None
    else if |s| > 0 && AllDigits(s) then Some(DigitsValue(s))
    else None
  }

  /**
    `strconv.ParseInt` with its error discarded: a digit string gives its
    value, and any result other than 0 is a successful parse, so a string the
    parser refuses can only give 0.
   */
  function ParseIntOrZero(s: string): (n: int)
    ensures s != [] && AllDigits(s) ==> n == DigitsValue(s)
    ensures n != 0 ==> ParseInt(s) == Some(n)
  {
    match ParseInt(s)
    case Some(v) => v
    case None => 0
  }

  /** Decimal digits of a natural number, without leading zeros. */
  function FormatNat(n: nat): (s: string)
    ensures s != [] && AllDigits(s)
    ensures DigitsValue(s) == n
    ensures s[0] != '0' || s == "0"
  {
    if n < 10 then [DigitChar(n)]
    else
      var prefix := FormatNat(n / 10);
      var s := prefix + [DigitChar(n % 10)];
      assert s[..|s| - 1] == prefix;
      s
  }

  /** `strconv.Itoa` / `strconv.FormatInt(n, 10)`. */
  function FormatInt(n: int): (s: string)
    ensures s != []
    ensures n >= 0 <==> AllDigits(s)
  {
    if n < 0 then
      var s := "-" + FormatNat(-n);
      assert !IsDigit(s[0]);
      s
    else FormatNat(n)
  }

  predicate HasPrefix(s: string, prefix: string) {
    |prefix| <= |s| && s[..|prefix|] == prefix
  }

  function TrimPrefix(s: string, prefix: string): (r: string)
    ensures HasPrefix(s, prefix) ==> prefix + r == s
    ensures !HasPrefix(s, prefix) ==> r == s
  {
    if HasPrefix(s, prefix) then s[|prefix|..] else s
  }

  /** A non-empty digit string parses to its digit value. */
  lemma ParseDigits(s: string)
    requires s != [] && AllDigits(s)
    ensures ParseInt(s) == Some(DigitsValue(s))
  {
    assert IsDigit(s[0]);
  }

  /** The decimal printer is a right inverse of the parser. */
  lemma ParseFormat(n: int)
    ensures ParseInt(FormatInt(n)) == Some(n)
  {
    if n < 0 {
      var body := FormatNat(-n);
      assert ("-" + body)[1..] == body;
    } else {
      ParseDigits(FormatNat(n));
    }
  }

  /** Anything the parser accepts is a sign followed by digits, or digits alone. */
  lemma ParseAcceptsOnlyNumerals(s: string, n: int)
    requires ParseInt(s) == Some(n)
    ensures s != []
    ensures AllDigits(s) || ((s[0] == '+' || s[0] == '-') && |s| > 1 && AllDigits(s[1..]))
    ensures n < 0 ==> s[0] == '-'
  {
  }

  /** A sign followed by digits parses to the signed value of the digits. */
  lemma SignedParses(s: string)
    requires |s| > 1 && (s[0] == '+' || s[0] == '-') && AllDigits(s[1..])
    ensures var v: int := DigitsValue(s[1..]);
      ParseInt(s) == Some(if s[0] == '-' then -v else v)
  {
  }

  /** A plus sign and leading zeros are accepted: "+800" is 800 and "-05" is -5. */
  lemma ParseExamples()
    ensures ParseInt("+800") == Some(800)
    ensures ParseInt("-05") == Some(-5)
    ensures ParseInt("800") == Some(800)
    ensures ParseInt("8 00") == None && ParseInt("+") == None && ParseInt("") == None
  {
    SignedParses("+800");
    assert "+800"[1..] == "800";
    assert DigitsValue("800") == 800 by {
      assert "800"[..2] == "80" && "80"[..1] == "8";
    }
    SignedParses("-05");
    assert "-05"[1..] == "05";
    assert DigitsValue("05") == 5 by {
      assert "05"[..1] == "0";
    }
    ParseDigits("800");
    assert !IsDigit("8 00"[1]);
  }

  /** On canonical digit strings (no leading zero) printing undoes parsing. */
  lemma {:induction false} FormatDigits(s: string)
    requires s != [] && AllDigits(s)
    requires s[0] != '0' || |s| == 1
    ensures FormatNat(DigitsValue(s)) == s
  {
    var last := s[|s| - 1];
    if |s| == 1 {
      assert DigitsValue(s) == DigitValue(last);
    } else {
      var prefix := s[..|s| - 1];
      assert prefix[0] == s[0];
      FormatDigits(prefix);
      var n := DigitsValue(s);
      LeadingNonZero(prefix);
      assert n / 10 == DigitsValue(prefix) && n % 10 == DigitValue(last);
      assert s == prefix + [last];
    }
  }

  /** A digit string that does not start with 0 has value at least one. */
  lemma LeadingNonZero(s: string)
    requires s != [] && AllDigits(s)
    requires s[0] != '0'
    ensures DigitsValue(s) >= 1
  {
    if |s| > 1 {
      var prefix := s[..|s| - 1];
      assert prefix[0] == s[0];
      LeadingNonZero(prefix);
    }
  }
}
