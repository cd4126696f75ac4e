/**
  The deposit brackets and the cashback computed for an exact deposit amount
  at step 11 of the conversation (bot.go:276-296), and the percent shown when
  a bracket is chosen at step 1 (bot.go:247-257).

  Labels are compared verbatim. Four distinct low and mid labels occur in the
  bot: the amount check knows `LowLabel` and `MidLabel`; the start keyboard
  offers `StartLowLabel` instead of `LowLabel`; the percent display knows
  `PercentMidLabel` instead of `MidLabel`.
 */
module Cashback {
  import opened Wrappers

  const LowLabel: string := "от 500 до 1000 ₽"
  const MidLabel: string := "от 1001 до 1499 ₽"
  const HighLabel: string := "1500+ ₽"
  /** The first button of the start keyboard (bot.go:72). */
  const StartLowLabel: string := "от 500 до 1001 ₽"
  /** The mid label the percent display switches on (bot.go:251). */
  const PercentMidLabel: string := "от 1000 до 1499 ₽"

  /** The cap on the top bracket's cashback. */
  const HighCap: int := 1500

  function Min(a: int, b: int): int {
    if a <= b then a else b
  }

  /**
    The cashback for `amount` in the bracket labelled `range`, or None when
    the label is not one of the three the amount check knows or the amount is
    outside that bracket's bounds. Go's `/` on the positive products here
    agrees with Dafny's.
   */
  function CashbackFor(range: string, amount: int): Option<int>
  {
    if range == LowLabel then
      if 500 <= amount <= 1000 then Some(amount * 70 / 100) else None
    else if range == MidLabel then
      if 1001 <= amount <= 1499 then Some(amount * 50 / 100) else None
    else if range == HighLabel then
      if amount >= 1500 then Some(Min(amount * 30 / 100, HighCap)) else None
    else None
  }

  // An independent statement of the bracket table: bounds, rate and cap per bracket.

  datatype Bracket = Low | Mid | High

  function BracketOf(s: string): Option<Bracket> {
    if s == LowLabel then Some(Low)
    else if s == MidLabel then Some(Mid)
    else if s == HighLabel then Some(High)
    else None
  }

  /** Inclusive lower bound of a bracket. */
  function MinAmount(b: Bracket): int {
    match b
    case Low => 500
    case Mid => 1001
    case High => 1500
  }

  /** Inclusive upper bound, None when the bracket is open. */
  function MaxAmount(b: Bracket): Option<int> {
    match b
    case Low => Some(1000)
    case Mid => Some(1499)
    case High => None
  }

  function RatePercent(b: Bracket): int {
    match b
    case Low => 70
    case Mid => 50
    case High => 30
  }

  function Cap(b: Bracket): Option<int> {
    match b
    case High => Some(HighCap)
    case _ => None
  }

  predicate InBracket(b: Bracket, amount: int) {
    MinAmount(b) <= amount && (MaxAmount(b).Some? ==> amount <= MaxAmount(b).value)
  }

  function TableCashback(b: Bracket, amount: int): int {
    var raw := amount * RatePercent(b) / 100;
    if Cap(b).Some? then Min(raw, Cap(b).value) else raw
  }

  /** The amount check agrees with the bracket table, accepting and rejecting alike. */
  lemma CashbackMatchesTable(range: string, amount: int)
    ensures CashbackFor(range, amount).Some?
        <==> BracketOf(range).Some? && InBracket(BracketOf(range).value, amount)
    ensures CashbackFor(range, amount).Some?
        ==> CashbackFor(range, amount).value == TableCashback(BracketOf(range).value, amount)
  {
  }

  /** An accepted amount earns a positive cashback no larger than the deposit, capped in the top bracket. */
  lemma CashbackBounds(range: string, amount: int)
    requires CashbackFor(range, amount).Some?
    ensures 0 < CashbackFor(range, amount).value < amount
    ensures range == HighLabel ==> CashbackFor(range, amount).value <= HighCap
  {
  }

  /** Within one bracket a larger deposit never earns less. */
  lemma CashbackMonotone(range: string, a: int, b: int)
    requires CashbackFor(range, a).Some? && CashbackFor(range, b).Some?
    requires a <= b
    ensures CashbackFor(range, a).value <= CashbackFor(range, b).value
  {
    var r := RatePercent(BracketOf(range).value);
    assert a * r <= b * r;
    assert a * r / 100 <= b * r / 100;
  }

  /** The worked values: 800 in the low bracket, 1200 in the mid one, 10000 capped in the top one. */
  lemma CashbackExamples()
    ensures CashbackFor(LowLabel, 800) == Some(560)
    ensures CashbackFor(MidLabel, 1200) == Some(600)
    ensures CashbackFor(HighLabel, 10000) == Some(1500)
    ensures CashbackFor(HighLabel, 1500) == Some(450)
  {
  }

  /** The low label offered by the start keyboard is not one the amount check knows: every amount is rejected. */
  lemma StartLowLabelRejectsEveryAmount(amount: int)
    ensures CashbackFor(StartLowLabel, amount) == None
  {
  }

  // The percent shown after the bracket is chosen (bot.go:247-257).

  datatype Percent = Seventy | Fifty | ThirtyCapped | UnknownPercent

  function PercentShown(range: string): Percent {
    if range == LowLabel then Seventy
    else if range == PercentMidLabel then Fifty
    else if range == HighLabel then ThirtyCapped
    else UnknownPercent
  }

  function PercentValue(p: Percent): Option<int> {
    match p
    case Seventy => Some(70)
    case Fifty => Some(50)
    case ThirtyCapped => Some(30)
    case UnknownPercent => None
  }

  /**
    The percent shown agrees with the rate of the amount check for the low and
    top labels, but the mid label the amount check accepts shows an unknown
    percent, and the mid label that shows 50% accepts no amount.
   */
  lemma PercentShownVersusTable()
    ensures PercentValue(PercentShown(LowLabel)) == Some(RatePercent(Low))
    ensures PercentValue(PercentShown(HighLabel)) == Some(RatePercent(High))
    ensures PercentShown(MidLabel) == UnknownPercent && CashbackFor(MidLabel, 1200).Some?
    ensures PercentShown(PercentMidLabel) == Fifty
    ensures forall amount :: CashbackFor(PercentMidLabel, amount) == None
  {
  }
}
