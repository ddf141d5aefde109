/**
 * Webhook payload signatures: HMAC-SHA256 (RFC 2104 over FIPS 180-4) of
 * the payload keyed by the webhook secret, sent and checked as lower-case
 * Base16 (section 8 of RFC 4648), optionally behind a "sha256=" prefix.
 *
 * The keyed hash itself is not modelled: every member takes it as the
 * parameter `mac`, from the key (the secret's bytes) and the payload to
 * the digest.
 */
module Signature {
  import opened Wrappers
  import opened Text
  import opened Hex

  /** The keyed hash: secret and payload to its 32-byte digest. */
  type Mac = (string, seq<byte>) -> Digest

  const Prefix := "sha256="

  /** The hex digest of `payload` under `secret`. */
  function CalculateSignature(mac: Mac, payload: seq<byte>, secret: string): (sig: string)
    ensures |sig| == 2 * DigestLength
    ensures forall k :: 0 <= k < |sig| ==> IsLowerHex(sig[k])
  {
    Encode(mac(secret, payload))
  }

  /** `signature` without one leading "sha256=", if it has one. */
  function StripPrefix(signature: string): (sig: string)
    ensures HasPrefix(signature, Prefix) ==> signature == Prefix + sig
    ensures !HasPrefix(signature, Prefix) ==> sig == signature
  {
    if HasPrefix(signature, Prefix) then signature[|Prefix|..] else signature
  }

  /**
   * Checks a received signature: false when the secret or the signature
   * is empty; otherwise the signature, with one "sha256=" removed, must
   * equal the expected hex digest.
   */
  function ValidateSignature(mac: Mac, payload: seq<byte>, secret: string, signature: string): bool
  {
    if secret == "" || signature == "" then false
    else StripPrefix(signature) == CalculateSignature(mac, payload, secret)
  }

  /** The signature the sender computes: the digest when there is a secret, "" otherwise. */
  function OutgoingSignature(mac: Mac, payload: seq<byte>, secret: string): (sig: string)
    ensures secret == "" ==> sig == ""
    ensures secret != "" ==> |sig| == 2 * DigestLength
  {
    if secret != "" then CalculateSignature(mac, payload, secret) else ""
  }

  /** The X-Webhook-Signature header the sender adds: only for a non-empty signature, with the prefix. */
  function SignatureHeader(signature: string): (h: Option<string>)
    ensures h.Some? <==> signature != ""
    ensures h.Some? ==> StripPrefix(h.value) == signature
  {
    if signature != "" then Some(Prefix + signature) else None
  }

  // ---------------------------------------------------------------------------
  // Properties
  // ---------------------------------------------------------------------------

  /** A hex digest never starts with the prefix: its first character is not 's'. */
  lemma HexHasNoPrefix(s: string)
    requires forall k :: 0 <= k < |s| ==> IsLowerHex(s[k])
    ensures !HasPrefix(s, Prefix)
  {
    if |s| >= |Prefix| {
      assert s[..|Prefix|][0] == s[0];
    }
  }

  /**
   * Exactly two spellings are accepted for a non-empty secret: the bare
   * hex digest and the digest behind "sha256=".
   */
  lemma ValidateSignatureIff(mac: Mac, payload: seq<byte>, secret: string, signature: string)
    ensures var expected := CalculateSignature(mac, payload, secret);
            ValidateSignature(mac, payload, secret, signature) <==>
              secret != "" && signature != "" && (signature == expected || signature == Prefix + expected)
  {
    var expected := CalculateSignature(mac, payload, secret);
    HexHasNoPrefix(expected);
    if HasPrefix(signature, Prefix) {
      assert signature[..|Prefix|] == Prefix;
      assert (Prefix + expected)[|Prefix|..] == expected;
    } else {
      assert (Prefix + expected)[..|Prefix|] == Prefix;
    }
  }

  /** The bare digest validates for every non-empty secret. */
  lemma BareSignatureValidates(mac: Mac, payload: seq<byte>, secret: string)
    requires secret != ""
    ensures ValidateSignature(mac, payload, secret, CalculateSignature(mac, payload, secret))
  {
    ValidateSignatureIff(mac, payload, secret, CalculateSignature(mac, payload, secret));
  }

  /** The prefixed digest validates for every non-empty secret. */
  lemma PrefixedSignatureValidates(mac: Mac, payload: seq<byte>, secret: string)
    requires secret != ""
    ensures ValidateSignature(mac, payload, secret, Prefix + CalculateSignature(mac, payload, secret))
  {
    ValidateSignatureIff(mac, payload, secret, Prefix + CalculateSignature(mac, payload, secret));
  }

  /** Only one prefix is removed: a doubly prefixed digest is rejected. */
  lemma DoublePrefixRejected(mac: Mac, payload: seq<byte>, secret: string)
    ensures !ValidateSignature(mac, payload, secret, Prefix + Prefix + CalculateSignature(mac, payload, secret))
  {
    var expected := CalculateSignature(mac, payload, secret);
    var signature := Prefix + Prefix + expected;
    ValidateSignatureIff(mac, payload, secret, signature);
    assert |signature| == |Prefix| + |Prefix + expected|;
    assert signature[|Prefix|] == 's';
  }

  /** The digest of any other bytes is rejected, bare or prefixed. */
  lemma OtherDigestRejected(mac: Mac, payload: seq<byte>, secret: string, digest: seq<byte>)
    requires digest != mac(secret, payload)
    ensures !ValidateSignature(mac, payload, secret, Encode(digest))
    ensures !ValidateSignature(mac, payload, secret, Prefix + Encode(digest))
  {
    var expected := CalculateSignature(mac, payload, secret);
    ValidateSignatureIff(mac, payload, secret, Encode(digest));
    ValidateSignatureIff(mac, payload, secret, Prefix + Encode(digest));
    assert (Prefix + Encode(digest))[|Prefix|..] == Encode(digest);
    if Encode(digest) == expected {
      EncodeInjective(digest, mac(secret, payload));
    }
  }

  /** A receiver holding the same secret accepts every header the sender attaches. */
  lemma OutgoingHeaderValidates(mac: Mac, payload: seq<byte>, secret: string)
    ensures var h := SignatureHeader(OutgoingSignature(mac, payload, secret));
            h.Some? ==> ValidateSignature(mac, payload, secret, h.value)
    ensures secret != "" <==>
              SignatureHeader(OutgoingSignature(mac, payload, secret)).Some?
  {
    if secret != "" {
      PrefixedSignatureValidates(mac, payload, secret);
    }
  }
}
