/**
  The brand application's token service: it mints user-to-platform access
  tokens, verifies them, and keeps an in-memory revocation map whose entries
  carry a deadline (milliseconds) after which a sweep may forget them.
 */
module BrandTokenService {
  import opened Wrappers
  import opened Js
  import opened Jwt

  /** Fifteen minutes, in seconds: the lifetime when the caller gives none. */
  const DefaultExpiresIn: int := 15 * 60

  /** The fixed `aud` claim of every user-to-platform token. */
  const PlatformAudience: string := "platform-service"

  const InvalidTokenPrefix: string := "Invalid token: "
  const RevokedReason: string := "Token has been revoked"
  const ExpiredReason: string := "Token has expired"
  const MissingIdError: string := "Token ID is required"

  /** The parts of the identity provider's `user_metadata` that reach the token. */
  datatype UserMetadata = UserMetadata(firstName: Option<string>, lastName: Option<string>)

  /** The authenticated user; `walletId == ""` stands for an absent `wallet_id`. */
  datatype User = User(id: string, email: Option<string>, metadata: Option<UserMetadata>, walletId: string)

  /** The `options` argument; `expiresIn == 0` and `walletId == ""` stand for absent (both are falsy). */
  datatype IssueOptions = IssueOptions(expiresIn: int, walletId: string)

  /** What `generatePlatformAccessToken` hands back to its caller. */
  datatype IssuedToken = IssuedToken(token: string, expiresAt: int, tokenId: string)

  /** Token id (`jti`) to the moment, in milliseconds, after which the entry may be swept. */
  type RevocationMap = map<string, int>

  /**
    The claim set of a new token. `tokenId` and `nonce` are the fresh random
    values (`randomUUID`, `randomBytes`), `nowMs` the clock reading.
   */
  function PlatformAccessClaims(user: User, platformId: string, permissions: seq<string>, brandId: string,
                                options: IssueOptions, tokenId: string, nonce: string, nowMs: int): (c: UserClaims)
    ensures c.sub == user.id && c.email == user.email
    ensures c.brandId == brandId && c.platformId == platformId && c.permissions == permissions
    ensures c.aud == PlatformAudience && c.jti == tokenId && c.nonce == nonce
    ensures c.iat * 1000 <= nowMs < c.iat * 1000 + 1000
    ensures options.expiresIn == 0 ==> c.exp == c.iat + DefaultExpiresIn
    ensures options.expiresIn != 0 ==> c.exp == c.iat + options.expiresIn
    ensures user.walletId != "" ==> c.walletId == user.walletId
    ensures user.walletId == "" ==> c.walletId == options.walletId
    ensures user.metadata.None? ==> c.firstName.None? && c.lastName.None?
    ensures user.metadata.Some? ==> c.firstName == user.metadata.value.firstName && c.lastName == user.metadata.value.lastName
  {
    var expiresIn := if options.expiresIn != 0 then options.expiresIn else DefaultExpiresIn;
    var issuedAt := Seconds(nowMs);
    var metadata := if user.metadata.Some? then user.metadata.value else UserMetadata(None, None);
    UserClaims(
      sub := user.id,
      email := user.email,
      firstName := metadata.firstName,
      lastName := metadata.lastName,
      brandId := brandId,
      platformId := platformId,
      permissions := permissions,
      walletId := OrElse(user.walletId, options.walletId),
      exp := issuedAt + expiresIn,
      iat := issuedAt,
      aud := PlatformAudience,
      nonce := nonce,
      jti := tokenId)
  }

  /** `generatePlatformAccessToken`: sign the claim set and report its id and expiry. */
  function GeneratePlatformAccessToken(signer: Signer<UserClaims>, user: User, platformId: string, permissions: seq<string>,
                                       brandId: string, options: IssueOptions, tokenId: string, nonce: string,
                                       nowMs: int): (r: IssuedToken)
    ensures var c := PlatformAccessClaims(user, platformId, permissions, brandId, options, tokenId, nonce, nowMs);
            r.token == signer.sign(c) && r.tokenId == c.jti && r.expiresAt == c.exp
  {
    var c := PlatformAccessClaims(user, platformId, permissions, brandId, options, tokenId, nonce, nowMs);
    IssuedToken(signer.sign(c), c.exp, c.jti)
  }

  /** `isTokenRevoked` */
  predicate IsTokenRevoked(revoked: RevocationMap, tokenId: string) {
    tokenId in revoked
  }

  /**
    `verifyPlatformAccessToken`: the library check, then revocation, then the
    service's own `exp < now` test; every failure is one error prefixed
    "Invalid token: ".
   */
  function VerifyPlatformAccessToken(signer: Signer<UserClaims>, revoked: RevocationMap, token: string, nowMs: int)
    : (r: Result<UserClaims>)
    ensures r.Ok? <==> && signer.verify(token).Valid?
                       && !IsTokenRevoked(revoked, signer.verify(token).claims.jti)
                       && signer.verify(token).claims.exp >= Seconds(nowMs)
    ensures r.Ok? ==> r.value == signer.verify(token).claims
    ensures r.Err? ==> StartsWith(r.error, InvalidTokenPrefix)
    ensures signer.verify(token).Valid? && IsTokenRevoked(revoked, signer.verify(token).claims.jti)
            ==> r == Err(InvalidTokenPrefix + RevokedReason)
  {
    match signer.verify(token)
    case Rejected(e) => Err(InvalidTokenPrefix + e.message)
    case Valid(decoded) =>
      if IsTokenRevoked(revoked, decoded.jti) then Err(InvalidTokenPrefix + RevokedReason)
      else if decoded.exp < Seconds(nowMs) then Err(InvalidTokenPrefix + ExpiredReason)
      else Ok(decoded)
  }

  /** The entries a sweep at `nowMs` keeps: those whose deadline has not passed. */
  function Unexpired(revoked: RevocationMap, nowMs: int): (r: RevocationMap)
    ensures forall k :: k in r <==> k in revoked && revoked[k] >= nowMs
    ensures forall k :: k in r ==> r[k] == revoked[k]
  {
    map k | k in revoked && revoked[k] >= nowMs :: revoked[k]
  }

  /** `cleanupRevokedTokens`: walk the entries, deleting each whose deadline is before `nowMs`. */
  method CleanupRevokedTokens(revoked: RevocationMap, nowMs: int) returns (r: RevocationMap)
    ensures r == Unexpired(revoked, nowMs)
  {
    r := revoked;
    var pending := revoked.Keys;
    while pending != {}
      invariant pending <= revoked.Keys
      invariant forall k :: k in r <==> k in revoked && (k in pending || revoked[k] >= nowMs)
      invariant forall k :: k in r ==> r[k] == revoked[k]
      decreases pending
    {
      var k :| k in pending;
      if revoked[k] < nowMs {
        r := r - {k};
      }
      pending := pending - {k};
    }
  }

  /**
    `revokeToken(tokenId, expiry)`: record the deadline `now + expiry * 1000`
    and sweep, both with the same clock reading.
   */
  function RevokeToken(revoked: RevocationMap, tokenId: string, expiry: int, nowMs: int): (r: Result<RevocationMap>)
    ensures r.Err? <==> tokenId == ""
    ensures r.Err? ==> r.error == MissingIdError
    ensures r.Ok? && expiry >= 0 ==> tokenId in r.value && r.value[tokenId] == nowMs + expiry * 1000
    ensures r.Ok? && expiry < 0 ==> tokenId !in r.value
    ensures r.Ok? ==> forall k :: k != tokenId ==> (k in r.value <==> k in revoked && revoked[k] >= nowMs)
    ensures r.Ok? ==> forall k :: k in r.value && k != tokenId ==> r.value[k] == revoked[k]
  {
    if tokenId == "" then Err(MissingIdError)
    else Ok(Unexpired(revoked[tokenId := nowMs + expiry * 1000], nowMs))
  }

  /** No entry is keyed by the empty id: `revokeToken` refuses it, so an absent `jti` is never revoked. */
  ghost predicate NoEmptyKey(revoked: RevocationMap) {
    "" !in revoked
  }

  lemma RevokeKeepsNoEmptyKey(revoked: RevocationMap, tokenId: string, expiry: int, nowMs: int)
    requires NoEmptyKey(revoked)
    ensures RevokeToken(revoked, tokenId, expiry, nowMs).Ok? ==> NoEmptyKey(RevokeToken(revoked, tokenId, expiry, nowMs).value)
  {
  }

  /** Revoking an id that is already revoked, at the same moment, keeps every entry and only moves its deadline. */
  lemma RevokeAgainOnlyMovesDeadline(revoked: RevocationMap, tokenId: string, first: int, second: int, nowMs: int)
    requires tokenId != "" && first >= 0 && second >= 0
    ensures var once := RevokeToken(revoked, tokenId, first, nowMs).value;
            var twice := RevokeToken(once, tokenId, second, nowMs).value;
            && twice.Keys == once.Keys
            && twice[tokenId] == nowMs + second * 1000
            && forall k :: k in once && k != tokenId ==> twice[k] == once[k]
  {
  }

  /** A negative expiry puts the deadline in the past, so the sweep in the same call drops the new entry. */
  lemma NegativeExpiryIsSweptAtOnce(revoked: RevocationMap, tokenId: string, expiry: int, nowMs: int)
    requires tokenId != "" && expiry < 0
    ensures !IsTokenRevoked(RevokeToken(revoked, tokenId, expiry, nowMs).value, tokenId)
  {
  }

  /**
    A freshly minted token verifies, and verification returns exactly the
    minted claims, as long as the signature scheme round-trips, its id is not
    revoked and the verifying clock has not passed its expiry second.
   */
  lemma IssueThenVerify(signer: Signer<UserClaims>, revoked: RevocationMap, user: User, platformId: string,
                        permissions: seq<string>, brandId: string, options: IssueOptions, tokenId: string,
                        nonce: string, issuedMs: int, verifyMs: int)
    requires var c := PlatformAccessClaims(user, platformId, permissions, brandId, options, tokenId, nonce, issuedMs);
             RoundTrips(signer, c) && Seconds(verifyMs) <= c.exp
    requires !IsTokenRevoked(revoked, tokenId)
    ensures var issued := GeneratePlatformAccessToken(signer, user, platformId, permissions, brandId, options, tokenId, nonce, issuedMs);
            var r := VerifyPlatformAccessToken(signer, revoked, issued.token, verifyMs);
            && r.Ok?
            && r.value == PlatformAccessClaims(user, platformId, permissions, brandId, options, tokenId, nonce, issuedMs)
            && r.value.jti == issued.tokenId && r.value.exp == issued.expiresAt
  {
  }

  /**
    A revoked id stays revoked exactly until its deadline: a sweep at any
    later moment, such as the one every later revocation runs, keeps it
    while the deadline has not passed and drops it afterwards.
   */
  lemma RevokedUntilDeadline(revoked: RevocationMap, tokenId: string, expiry: int, revokeMs: int, laterMs: int)
    requires tokenId != "" && expiry >= 0
    ensures var after := RevokeToken(revoked, tokenId, expiry, revokeMs).value;
            IsTokenRevoked(Unexpired(after, laterMs), tokenId) <==> laterMs <= revokeMs + expiry * 1000
  {
  }

  /** Once its id is revoked (with a non-negative expiry hint) a token fails verification as revoked. */
  lemma RevokeThenVerifyFails(signer: Signer<UserClaims>, revoked: RevocationMap, c: UserClaims, expiry: int,
                              revokeMs: int, verifyMs: int)
    requires RoundTrips(signer, c) && c.jti != "" && expiry >= 0
    ensures var after := RevokeToken(revoked, c.jti, expiry, revokeMs).value;
            VerifyPlatformAccessToken(signer, after, signer.sign(c), verifyMs) == Err(InvalidTokenPrefix + RevokedReason)
  {
  }
}
