/**
  The two regular expressions of `messageHandler`: `^\d{16}$` for the card
  number (bot.go:316) and `^\d+$` for the external ID (bot.go:357). Go's `\d`
  is the ASCII digit class and `$` without the multi-line flag matches only
  at the end of the text.
 */
module Patterns {
  import opened Wrappers
  import opened Strconv

  predicate IsCardNumber(s: string) {
    |s| == 16 && AllDigits(s)
  }

  predicate IsExternalID(s: string) {
    |s| > 0 && AllDigits(s)
  }

  /** Sample inputs: a card number and an ID accepted, the others rejected. */
  lemma PatternExamples()
    ensures IsCardNumber("1234567890123456")
    ensures !IsCardNumber("123")
    ensures !IsCardNumber("12345678901234ab")
    ensures IsExternalID("88005553535")
    ensures !IsExternalID("abc123")
    ensures !IsExternalID("")
  {
    assert "12345678901234ab"[14] == 'a';
    assert "abc123"[0] == 'a';
  }

  // A reference reading of the two expressions, token by token as a regular
  // expression engine consumes its input: `\d{n}` is n digit tokens, `\d+` is
  // one digit token followed by `\d*`, and the anchors demand that nothing is
  // left over.

  /** `^\d{n}$`: exactly n digits, consumed one at a time. */
  predicate MatchesDigitRun(s: string, n: nat) {
    if n == 0 then s == []
    else s != [] && IsDigit(s[0]) && MatchesDigitRun(s[1..], n - 1)
  }

  /** `^\d*$`. */
  predicate MatchesDigitStar(s: string) {
    s == [] || (IsDigit(s[0]) && MatchesDigitStar(s[1..]))
  }

  /** `^\d+$`, read as `\d\d*`. */
  predicate MatchesDigitPlus(s: string) {
    s != [] && IsDigit(s[0]) && MatchesDigitStar(s[1..])
  }

  lemma AllDigitsCons(s: string)
    requires s != []
    ensures AllDigits(s) <==> IsDigit(s[0]) && AllDigits(s[1..])
  {
    if IsDigit(s[0]) && AllDigits(s[1..]) {
      forall i | 0 < i < |s|
        ensures IsDigit(s[i])
      {
        assert s[i] == s[1..][i - 1];
      }
    }
  }

  lemma {:induction false} DigitRunIsAllDigits(s: string, n: nat)
    ensures MatchesDigitRun(s, n) <==> |s| == n && AllDigits(s)
  {
    if n > 0 && s != [] {
      DigitRunIsAllDigits(s[1..], n - 1);
      AllDigitsCons(s);
    }
  }

  lemma {:induction false} DigitStarIsAllDigits(s: string)
    ensures MatchesDigitStar(s) <==> AllDigits(s)
  {
    if s != [] {
      DigitStarIsAllDigits(s[1..]);
      AllDigitsCons(s);
    }
  }

  /** The card check accepts exactly what `^\d{16}$` matches. */
  lemma CardPatternMatches(s: string)
    ensures IsCardNumber(s) <==> MatchesDigitRun(s, 16)
  {
    DigitRunIsAllDigits(s, 16);
  }

  /** The ID check accepts exactly what `^\d+$` matches. */
  lemma IDPatternMatches(s: string)
    ensures IsExternalID(s) <==> MatchesDigitPlus(s)
  {
    if s != [] {
      DigitStarIsAllDigits(s[1..]);
      AllDigitsCons(s);
    }
  }
}
