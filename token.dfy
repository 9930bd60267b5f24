/** Conversation ids: a random salt followed by the SHA-1 hex digest of the
    salt and a fingerprint (`New_Conversation_Model::generate_signature`),
    and the check that recomputes the digest from a stored id
    (`is_signature_match` of the conversation model's tests). */
module Token {
  import opened Php

  /** Characters of random salt at the head of every id; the id column is
      CHAR(65), so the salt may not grow past this. */
  const SaltLength: nat := 25
  /** Characters of a SHA-1 digest written in hex. */
  const DigestLength: nat := 40
  /** Width of the Conversation id column. */
  const IdColumnWidth: nat := 65

  predicate IsHexDigit(c: char)
  {
    '0' <= c <= '9' || 'a' <= c <= 'f'
  }

  predicate IsHexDigest(h: string)
  {
    |h| == DigestLength && forall i :: 0 <= i < |h| ==> IsHexDigit(h[i])
  }

  function ZeroDigest(s: string): string
  {
    seq(DigestLength, _ => '0')
  }

  /** PHP's `sha1`, left uninterpreted: any function whose every result is
      40 lower-case hex digits. Nothing is assumed about collisions. */
  type Sha1 = f: string -> string | forall s :: IsHexDigest(f(s))
    witness ZeroDigest

  /** `generate_signature($input)`: the salt, then `sha1($salt . $input)`.
      The salt stands for `random_string(SALT_LENGTH)`. */
  function GenerateSignature(sha1: Sha1, salt: string, input: string): (id: string)
    requires |salt| == SaltLength
    ensures |id| == SaltLength + DigestLength == IdColumnWidth
    ensures id[..SaltLength] == salt
    ensures IsHexDigest(id[SaltLength..])
    ensures id[SaltLength..] == sha1(salt + input)
  {
    salt + sha1(salt + input)
  }

  /** `is_signature_match($submitted, $stored)`: the salt is the first 25
      characters of the stored id, the recorded digest the (at most) 40
      after them, and the two match when hashing the salt with the submitted
      fingerprint gives that digest. */
  function IsSignatureMatch(sha1: Sha1, submitted: string, stored: string): (b: bool)
    ensures b <==> |stored| >= IdColumnWidth
                   && sha1(stored[..SaltLength] + submitted) == stored[SaltLength..IdColumnWidth]
  {
    var salt := Substr(stored, 0, SaltLength);
    var originalHash := Substr(stored, SaltLength, DigestLength);
    var submittedHash := sha1(salt + submitted);
    assert |submittedHash| == DigestLength;
    submittedHash == originalHash
  }

  /** An id minted for a fingerprint verifies against that fingerprint. */
  lemma RoundTrip(sha1: Sha1, salt: string, input: string)
    requires |salt| == SaltLength
    ensures IsSignatureMatch(sha1, input, GenerateSignature(sha1, salt, input))
  {
  }

  /** An id verifies against some other string exactly when SHA-1 gives the
      same digest for both under the id's salt: the check is as strong as
      the hash and no stronger. */
  lemma MatchMeansEqualDigests(sha1: Sha1, salt: string, input: string, other: string)
    requires |salt| == SaltLength
    ensures IsSignatureMatch(sha1, other, GenerateSignature(sha1, salt, input))
            <==> sha1(salt + other) == sha1(salt + input)
  {
  }

  /** Whatever follows the first 65 characters of a stored id is ignored. */
  lemma MatchIgnoresTail(sha1: Sha1, submitted: string, stored: string, tail: string)
    requires |stored| >= IdColumnWidth
    ensures IsSignatureMatch(sha1, submitted, stored + tail) == IsSignatureMatch(sha1, submitted, stored)
  {
    assert (stored + tail)[..SaltLength] == stored[..SaltLength];
    assert (stored + tail)[SaltLength..IdColumnWidth] == stored[SaltLength..IdColumnWidth];
  }

  /** A stored id shorter than 65 characters leaves fewer than 40 characters
      of digest, which no SHA-1 hex digest equals: it never matches. */
  lemma ShortIdNeverMatches(sha1: Sha1, submitted: string, stored: string)
    requires |stored| < IdColumnWidth
    ensures |Substr(stored, SaltLength, DigestLength)| < DigestLength
    ensures !IsSignatureMatch(sha1, submitted, stored)
  {
  }
}
