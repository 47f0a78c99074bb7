/**
 * The cryptographic library calls the credential code makes, as function values
 * the model is given rather than computes: SHA-256 of the UTF-8 bytes of a string,
 * BCrypt's HashPassword with a salt, and BCrypt's Verify.
 */
module Crypto {
  import opened Wrappers
  import opened Base64

  /**
   * `bcryptVerify` answers None where BCrypt.Verify throws, which it does when the
   * stored value is not a BCrypt hash at all.
   */
  datatype Primitives = Primitives(
    sha256: string -> seq<byte>,
    bcryptHash: (string, nat) -> string,
    bcryptVerify: (string, string) -> Option<bool>)
  {
    /** What the model relies on: 32-byte digests, 60-character BCrypt hashes, and Verify accepts what HashPassword produced. */
    ghost predicate Sound() {
      && (forall s :: |sha256(s)| == 32)
      && (forall token, salt :: bcryptVerify(token, bcryptHash(token, salt)) == Some(true))
      && (forall token, salt :: |bcryptHash(token, salt)| == 60 && LooksLikeBcrypt(bcryptHash(token, salt)))
    }

    /** BCrypt's Verify throws on a stored value that does not open with the `$` of a BCrypt hash. */
    ghost predicate RejectsForeignHashes() {
      forall token, stored :: !LooksLikeBcrypt(stored) ==> bcryptVerify(token, stored).None?
    }
  }

  predicate LooksLikeBcrypt(stored: string) {
    |stored| > 0 && stored[0] == '$'
  }

  /** DeviceTokenService.ComputeHash: base 64 of the SHA-256 digest; 44 characters for a sound digest. */
  function ComputeHash(p: Primitives, input: string): (h: string)
    ensures p.Sound() ==> |h| == 44
  {
    Encode(p.sha256(input))
  }

  /** A SHA-256 token hash is base 64 text, so it never passes for a BCrypt hash. */
  lemma ComputeHashIsNotBcrypt(p: Primitives, input: string)
    ensures !LooksLikeBcrypt(ComputeHash(p, input))
  {
    var h := ComputeHash(p, input);
    if |h| > 0 {
      assert IsAlphabetChar(h[0]) || h[0] == '=';
    }
  }
}
