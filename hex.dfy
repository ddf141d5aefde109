/**
 * Lower-case Base16 ("hex") encoding of bytes, as in section 8 of RFC 4648
 * and Go's hex.EncodeToString, with the decoder that inverts it.
 */
module Hex {
  import opened Wrappers

  newtype byte = b: int | 0 <= b < 256

  /** The length in bytes of a SHA-256 digest, and of an HMAC-SHA256 tag (FIPS 180-4). */
  const DigestLength := 32

  /** What SHA-256 and HMAC-SHA256 produce: exactly 32 bytes. */
  type Digest = s: seq<byte> | |s| == DigestLength witness seq(DigestLength, _ => 0)

  /** The sixteen characters the encoder emits. */
  predicate IsLowerHex(c: char)
  {
    '0' <= c <= '9' || 'a' <= c <= 'f'
  }

  /** Value of one lower-case hex digit, or None for any other character. */
  function DigitValue(c: char): (v: Option<int>)
    ensures v.Some? <==> IsLowerHex(c)
    ensures v.Some? ==> 0 <= v.value < 16
  {
    if '0' <= c <= '9' then Some(c as int - '0' as int)
    else if 'a' <= c <= 'f' then Some(c as int - 'a' as int + 10)
    else None
  }

  /** The lower-case hex digit for `n`. */
  function HexDigit(n: int): (c: char)
    requires 0 <= n < 16
    ensures IsLowerHex(c) && DigitValue(c) == Some(n)
  {
    if n < 10 then ('0' as int + n) as char else ('a' as int + n - 10) as char
  }

  /** Two digits per byte, high nibble first. */
  function Encode(bs: seq<byte>): (s: string)
    ensures |s| == 2 * |bs|
    ensures forall k :: 0 <= k < |s| ==> IsLowerHex(s[k])
  {
    if bs == [] then ""
    else [HexDigit(bs[0] as int / 16), HexDigit(bs[0] as int % 16)] + Encode(bs[1..])
  }

  /** The bytes a lower-case hex string stands for; None for odd length or a non-digit. */
  function Decode(s: string): Option<seq<byte>>
  {
    if s == "" then Some([])
    else if |s| < 2 then None
    else
      match (DigitValue(s[0]), DigitValue(s[1]), Decode(s[2..]))
      case (Some(hi), Some(lo), Some(rest)) => Some([(hi * 16 + lo) as byte] + rest)
      case _ => None
  }

  /** Decoding undoes encoding. */
  lemma {:induction false} DecodeEncode(bs: seq<byte>)
    ensures Decode(Encode(bs)) == Some(bs)
  {
    if bs != [] {
      var s := Encode(bs);
      var b := bs[0] as int;
      assert s[2..] == Encode(bs[1..]);
      DecodeEncode(bs[1..]);
      assert (b / 16) * 16 + b % 16 == b;
      assert [bs[0]] + bs[1..] == bs;
    }
  }

  /** Distinct byte strings have distinct encodings. */
  lemma EncodeInjective(a: seq<byte>, b: seq<byte>)
    requires Encode(a) == Encode(b)
    ensures a == b
  {
    DecodeEncode(a);
    DecodeEncode(b);
  }
}
