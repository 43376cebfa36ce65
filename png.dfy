/** The PNG file signature, shared by the server's upload check and the client's preview check. */
module Png {
  import opened Common

  /** The eight signature bytes that open every PNG datastream
      (section 5.2 of the PNG specification, ISO/IEC 15948). */
  const Signature: seq<byte> := [0x89, 0x50, 0x4E, 0x47, 0x0D, 0x0A, 0x1A, 0x0A]

  /** `bytes` starts with the full PNG signature. */
  predicate HasSignature(bytes: seq<byte>)
  {
    |bytes| >= 8 && bytes[..8] == Signature
  }

  /** Fewer than eight bytes can never carry the signature. */
  lemma ShortInputHasNoSignature(bytes: seq<byte>)
    requires |bytes| < 8
    ensures !HasSignature(bytes)
  {
  }
}
