/** An abstraction of the JSON Web Token library both the web app and the
    relay use. Signatures are not modelled: a signed token is its claims and
    validity window, and verification is an outcome the caller is handed. */
module Jwt {
  import opened Base

  /** The claims a token may carry. The relay reads `id` and `name`; the
      guest-token route writes `userId`, `userName`, `isGuest` and
      `isAuthenticated`. */
  datatype Claims = Claims(
    id: Option<string>,
    name: Option<string>,
    userId: Option<string>,
    userName: Option<string>,
    isGuest: Option<bool>,
    isAuthenticated: Option<bool>)

  /** A token as the library signs it: its claims and its lifetime in seconds. */
  datatype SignedToken = SignedToken(claims: Claims, expiresInSeconds: nat)

  /** What `jwt.verify` does with a token: it throws (bad signature, expired,
      malformed), or returns the decoded payload, which is a string when the
      token was signed over a plain string. */
  datatype Verification =
    | Threw
    | DecodedText(text: string)
    | DecodedObject(claims: Claims)

  /** Verifying a token this system signed: it decodes to its claims when
      checked with the same secret before it expires, and throws otherwise. */
  function Verify(t: SignedToken, sameSecret: bool, ageSeconds: nat): (v: Verification)
    ensures v.DecodedObject? <==> sameSecret && ageSeconds < t.expiresInSeconds
    ensures v.DecodedObject? ==> v.claims == t.claims
    ensures !v.DecodedText?
  {
    if sameSecret && ageSeconds < t.expiresInSeconds then DecodedObject(t.claims) else Threw
  }

  /** Expiry is final: a token that verifies at some age verified at every
      earlier age, one that fails at some age fails at every later age, and
      a wrong secret never verifies. */
  lemma VerifyExpiryMonotone(t: SignedToken, sameSecret: bool, earlier: nat, later: nat)
    requires earlier <= later
    ensures Verify(t, sameSecret, later).DecodedObject? ==> Verify(t, sameSecret, earlier) == Verify(t, sameSecret, later)
    ensures Verify(t, sameSecret, earlier).Threw? ==> Verify(t, sameSecret, later).Threw?
    ensures Verify(t, false, earlier).Threw?
  {
  }
}
