/**
 * The decimal parsers of Go's strconv package that the handlers use
 * (Atoi for pagination, ParseUint for path identifiers), with a printer
 * for the round trip.
 */
module Decimal {
  import opened Wrappers

  const Int64Max: int := 0x7FFF_FFFF_FFFF_FFFF

  predicate IsDigit(c: char)
  {
    '0' <= c <= '9'
  }

  predicate AllDigits(s: string)
  {
    forall k :: 0 <= k < |s| ==> IsDigit(s[k])
  }

  /** The number a string of decimal digits spells, most significant digit first. */
  function DigitsValue(s: string): nat
    requires AllDigits(s)
  {
    if s == "" then 0
    else DigitsValue(s[..|s| - 1]) * 10 + (s[|s| - 1] as int - '0' as int)
  }

  /**
   * strconv.ParseUint(s, 10, bitSize): one or more decimal digits, no sign,
   * and a value below 2^bitSize.
   */
  function ParseUint(s: string, bitSize: nat): (r: Option<nat>)
    ensures r.Some? ==> r.value < Pow2(bitSize)
  {
    if s == "" || !AllDigits(s) then None
    else if DigitsValue(s) >= Pow2(bitSize) then None
    else Some(DigitsValue(s))
  }

  function Pow2(n: nat): (p: nat)
    ensures p >= 1
  {
    if n == 0 then 1 else 2 * Pow2(n - 1)
  }

  /**
   * strconv.Atoi on a 64-bit platform: an optional '+' or '-', then one or
   * more decimal digits, with the value inside the range of int64.
   */
  function Atoi(s: string): (r: Option<int>)
    ensures r.Some? ==> -Int64Max - 1 <= r.value <= Int64Max
  {
    if s == "" then None
    else
      var negative := s[0] == '-';
      var body := if s[0] == '+' || s[0] == '-' then s[1..] else s;
      if body == "" || !AllDigits(body) then None
      else
        var v := DigitsValue(body);
        if negative then (if v <= Int64Max + 1 then Some(-(v as int)) else None)
        else (if v <= Int64Max then Some(v as int) else None)
  }

  /** The shortest decimal spelling of `n` (what strconv.Itoa prints). */
  function DecimalOf(n: nat): (s: string)
    ensures s != "" && AllDigits(s)
    ensures s[0] != '0' || n == 0
  {
    var d := ['0' + (n % 10) as char];
    if n < 10 then d else DecimalOf(n / 10) + d
  }

  /** Reading back a printed number gives the number. */
  lemma {:induction false} DigitsValueOfDecimal(n: nat)
    ensures DigitsValue(DecimalOf(n)) == n
  {
    if n >= 10 {
      var s := DecimalOf(n);
      DigitsValueOfDecimal(n / 10);
      assert s[..|s| - 1] == DecimalOf(n / 10);
    }
  }

  /** Atoi accepts every printed non-negative int64. */
  lemma AtoiDecimal(n: nat)
    requires n <= Int64Max
    ensures Atoi(DecimalOf(n)) == Some(n)
  {
    DigitsValueOfDecimal(n);
  }

  /** ParseUint accepts every printed number below its bound. */
  lemma ParseUintDecimal(n: nat, bitSize: nat)
    requires n < Pow2(bitSize)
    ensures ParseUint(DecimalOf(n), bitSize) == Some(n)
  {
    DigitsValueOfDecimal(n);
  }
}
