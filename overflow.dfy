/**
  The cashback computation of bot.go:276-296 as Go evaluates it on a 64-bit
  platform: `amount` is an `int` already range-checked by `strconv.Atoi`, the
  products `amount * 70`, `amount * 50` and `amount * 30` wrap around modulo
  2^64, and `/` truncates toward zero. The rest of the model uses the
  mathematical version `Cashback.CashbackFor`; this module shows where the two
  part ways.
 */
module Overflow {
  import opened Wrappers
  import opened Cashback

  const TwoTo63: int := 0x8000_0000_0000_0000
  const TwoTo64: int := 0x1_0000_0000_0000_0000

  predicate IsInt64(x: int) {
    -TwoTo63 <= x < TwoTo63
  }

  /** Two's-complement wrap-around of a 64-bit signed result. */
  function Wrap64(x: int): (r: int)
    ensures IsInt64(r)
    ensures (r - x) % TwoTo64 == 0
    ensures IsInt64(x) ==> r == x
  {
    var m := x % TwoTo64;
    if m >= TwoTo63 then m - TwoTo64 else m
  }

  /** Go's integer division, which truncates toward zero. */
  function GoQuo(a: int, b: int): (q: int)
    requires b > 0
    ensures a >= 0 ==> q == a / b
    ensures a < 0 ==> q <= 0 && -q == (-a) / b
  {
    if a >= 0 then a / b else -((-a) / b)
  }

  /** The bracket switch as written, with 64-bit products. */
  function CashbackAsWritten(range: string, amount: int): Option<int>
    requires IsInt64(amount)
  {
    if range == LowLabel then
      if 500 <= amount <= 1000 then Some(GoQuo(Wrap64(amount * 70), 100)) else None
    else if range == MidLabel then
      if 1001 <= amount <= 1499 then Some(GoQuo(Wrap64(amount * 50), 100)) else None
    else if range == HighLabel then
      if amount >= 1500 then
        var c := GoQuo(Wrap64(amount * 30), 100);
        Some(if c > HighCap then HighCap else c)
      else None
    else None
  }

  /** While `amount * 30` fits in 64 bits the code as written computes the table's cashback. */
  lemma AsWrittenAgreesBelowOverflow(range: string, amount: int)
    requires 0 < amount && amount * 30 < TwoTo63
    ensures CashbackAsWritten(range, amount) == CashbackFor(range, amount)
  {
  }

  /**
    A top-bracket deposit of 400000000000000000, which `strconv.Atoi` accepts,
    wraps `amount * 30` to a negative number: the form records a negative
    cashback, which the cap does not catch.
   */
  lemma OverflowGivesNegativeCashback()
    ensures IsInt64(400000000000000000)
    ensures CashbackAsWritten(HighLabel, 400000000000000000) == Some(-64467440737095516)
    ensures CashbackFor(HighLabel, 400000000000000000) == Some(HighCap)
  {
    assert Wrap64(400000000000000000 * 30) == -6446744073709551616;
  }
}
