/**
  Signed tokens, with the cryptography abstracted away. A `Signer` stands for
  one key pair as a service sees it: `sign` is `jwt.sign` with the private key
  and RS256, `verify` is `jwt.verify` with the public key, the pinned algorithm
  and the audience that service passes (its answer is the one at the moment of
  the call, so the library's own signature, audience and `exp` checks live
  inside it), and `decode` is `jwt.decode`, which reads the claims without
  checking anything and yields nothing for a string that is not a token.
 */
module Jwt {
  import opened Wrappers

  /** The error classes of the `jsonwebtoken` library. */
  datatype ErrorName = TokenExpiredError | JsonWebTokenError | NotBeforeError

  datatype JwtError = JwtError(name: ErrorName, message: string)

  datatype Verified<+C> = Valid(claims: C) | Rejected(error: JwtError)

  datatype Signer<!C> = Signer(sign: C -> string, verify: string -> Verified<C>, decode: string -> Option<C>)

  /** The signer produces a non-empty token that the verifier accepts and from which both readers get the signed claims back. */
  ghost predicate RoundTrips<C>(k: Signer<C>, c: C) {
    k.sign(c) != "" && k.verify(k.sign(c)) == Valid(c) && k.decode(k.sign(c)) == Some(c)
  }

  /** Claims of a user-to-platform access token (minted by the brand application). */
  datatype UserClaims = UserClaims(
    sub: string,
    email: Option<string>,
    firstName: Option<string>,
    lastName: Option<string>,
    brandId: string,
    platformId: string,
    permissions: seq<string>,
    walletId: string,
    exp: int,
    iat: int,
    aud: string,
    nonce: string,
    jti: string)

  /** Claims of a machine token (minted by the client-credentials grant). */
  datatype MachineClaims = MachineClaims(
    iss: string,
    sub: string,
    aud: string,
    clientId: string,
    clientName: string,
    scope: Option<string>,
    exp: int,
    iat: int,
    jti: string,
    nonce: string)
}
