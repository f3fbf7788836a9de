/**
  The brand application's platform routes: minting a token for a target
  platform (`POST /access-token`, `GET /access/:platformId`), revoking one
  (`POST /revoke-token`) and checking one (`POST /verify-token`). The user is
  the one the identity-provider middleware attached; the wallet fallback
  (`wallet-<random>`) and the fresh token id and nonce are parameters.
 */
module BrandPlatformRoutes {
  import opened Wrappers
  import opened Js
  import opened Jwt
  import opened Http
  import opened BrandTokenService

  /** The brand identifier this application stamps into every token. */
  const BrandId: string := "brand-portal"

  const DefaultPermissions: seq<string> := ["trading", "view_history"]

  /** The `maxAge` of the cookie carrying the token on the redirect page: fifteen minutes. */
  const AccessCookieMaxAgeMs: int := 15 * 60 * 1000

  /** The expiry hint, in seconds, used when a caller revokes by token id: a day. */
  const DefaultRevokeHint: int := 24 * 60 * 60

  /** The body of `POST /access-token`; `""` and `0` stand for absent fields. */
  datatype AccessTokenRequest = AccessTokenRequest(platformId: string, requestedScope: string, expiresIn: int)

  datatype AccessTokenBody =
    | AccessTokenError(error: string)
    | AccessTokenIssued(platformAccessToken: string, expiresAt: int, tokenId: string)

  /** The claims `POST /access-token` mints for a request that names a platform. */
  function AccessTokenClaims(user: User, req: AccessTokenRequest, fallbackWallet: string, tokenId: string,
                             nonce: string, nowMs: int): (c: UserClaims)
    ensures c.sub == user.id && c.brandId == BrandId && c.platformId == req.platformId && c.jti == tokenId
    ensures req.requestedScope != "" ==> c.permissions == [req.requestedScope]
    ensures req.requestedScope == "" ==> c.permissions == DefaultPermissions
    ensures req.expiresIn == 0 ==> c.exp == c.iat + DefaultExpiresIn
    ensures req.expiresIn != 0 ==> c.exp == c.iat + req.expiresIn
    ensures user.walletId != "" ==> c.walletId == user.walletId
    ensures user.walletId == "" ==> c.walletId == fallbackWallet
  {
    var permissions := if req.requestedScope != "" then [req.requestedScope] else DefaultPermissions;
    var walletId := OrElse(user.walletId, fallbackWallet);
    var expiresIn := if req.expiresIn != 0 then req.expiresIn else DefaultExpiresIn;
    PlatformAccessClaims(user, req.platformId, permissions, BrandId, IssueOptions(expiresIn, walletId), tokenId, nonce, nowMs)
  }

  /** `POST /access-token` */
  function AccessTokenRoute(signer: Signer<UserClaims>, user: User, req: AccessTokenRequest, fallbackWallet: string,
                            tokenId: string, nonce: string, nowMs: int): (r: Reply<AccessTokenBody>)
    ensures req.platformId == "" ==> r == Reply(400, AccessTokenError("Platform ID is required"))
    ensures req.platformId != "" ==>
              var c := AccessTokenClaims(user, req, fallbackWallet, tokenId, nonce, nowMs);
              r == Reply(200, AccessTokenIssued(signer.sign(c), c.exp, c.jti))
  {
    if req.platformId == "" then Reply(400, AccessTokenError("Platform ID is required"))
    else
      var permissions := if req.requestedScope != "" then [req.requestedScope] else DefaultPermissions;
      var walletId := OrElse(user.walletId, fallbackWallet);
      var expiresIn := if req.expiresIn != 0 then req.expiresIn else DefaultExpiresIn;
      var issued := GeneratePlatformAccessToken(signer, user, req.platformId, permissions, BrandId,
                                                IssueOptions(expiresIn, walletId), tokenId, nonce, nowMs);
      Reply(200, AccessTokenIssued(issued.token, issued.expiresAt, issued.tokenId))
  }

  /** What `GET /access/:platformId` hands the browser: the token in a cookie, and the cookie's lifetime. */
  datatype AccessPage = AccessPage(cookieToken: string, cookieMaxAgeMs: int)

  /** The claims `GET /access/:platformId` mints: default permissions and default lifetime, always. */
  function AccessClaims(user: User, platformId: string, fallbackWallet: string, tokenId: string, nonce: string,
                        nowMs: int): (c: UserClaims)
    ensures c.sub == user.id && c.brandId == BrandId && c.platformId == platformId && c.jti == tokenId
    ensures c.permissions == DefaultPermissions
    ensures c.exp == c.iat + DefaultExpiresIn
    ensures user.walletId != "" ==> c.walletId == user.walletId
    ensures user.walletId == "" ==> c.walletId == fallbackWallet
  {
    PlatformAccessClaims(user, platformId, DefaultPermissions, BrandId, IssueOptions(0, OrElse(user.walletId, fallbackWallet)),
                         tokenId, nonce, nowMs)
  }

  /** `GET /access/:platformId` */
  function AccessRoute(signer: Signer<UserClaims>, user: User, platformId: string, fallbackWallet: string,
                       tokenId: string, nonce: string, nowMs: int): (r: AccessPage)
    ensures r.cookieToken == signer.sign(AccessClaims(user, platformId, fallbackWallet, tokenId, nonce, nowMs))
    ensures r.cookieMaxAgeMs == AccessCookieMaxAgeMs
    ensures var c := AccessClaims(user, platformId, fallbackWallet, tokenId, nonce, nowMs);
            r.cookieMaxAgeMs == (c.exp - c.iat) * 1000
  {
    var issued := GeneratePlatformAccessToken(signer, user, platformId, DefaultPermissions, BrandId,
                                              IssueOptions(0, OrElse(user.walletId, fallbackWallet)), tokenId, nonce, nowMs);
    AccessPage(issued.token, AccessCookieMaxAgeMs)
  }

  /** The body of `POST /revoke-token`; `""` stands for an absent field. */
  datatype RevokeRequest = RevokeRequest(tokenId: string, token: string)

  datatype RevokeBody = RevokeError(error: string) | RevokeSuccess(message: string)

  const RevokedMessage: string := "Token successfully revoked"
  const AlreadyExpiredMessage: string := "Token already expired"

  /** The end of the handler: answer for the outcome of `revokeToken`. */
  function ReportRevocation(outcome: Result<RevocationMap>, revoked: RevocationMap): (h: Handled<RevokeBody, RevocationMap>)
  {
    match outcome
    case Err(_) => Handled(Reply(500, RevokeError("Failed to revoke token")), revoked)
    case Ok(after) => Handled(Reply(200, RevokeSuccess(RevokedMessage)), after)
  }

  /**
    `POST /revoke-token`: a token id wins over a token and is revoked with a
    one-day hint; a token alone is decoded without verification and revoked
    for the time it has left, unless it has none left.
   */
  function RevokeTokenRoute(signer: Signer<UserClaims>, revoked: RevocationMap, req: RevokeRequest, nowMs: int)
    : (h: Handled<RevokeBody, RevocationMap>)
    ensures req.tokenId == "" && req.token == "" ==>
              h == Handled(Reply(400, RevokeError("Either token_id or token is required")), revoked)
    ensures req.tokenId != "" ==>
              && h.reply == Reply(200, RevokeSuccess(RevokedMessage))
              && IsTokenRevoked(h.state, req.tokenId)
              && h.state[req.tokenId] == nowMs + DefaultRevokeHint * 1000
              && RevokeToken(revoked, req.tokenId, DefaultRevokeHint, nowMs) == Ok(h.state)
    ensures req.tokenId == "" && req.token != "" && signer.decode(req.token).None? ==>
              h == Handled(Reply(400, RevokeError("Invalid token format")), revoked)
    ensures req.tokenId == "" && req.token != "" && signer.decode(req.token).Some? ==>
              var d := signer.decode(req.token).value;
              var left := d.exp - Seconds(nowMs);
              && (left <= 0 ==> h == Handled(Reply(200, RevokeSuccess(AlreadyExpiredMessage)), revoked))
              && (left > 0 && d.jti == "" ==> h == Handled(Reply(500, RevokeError("Failed to revoke token")), revoked))
              && (left > 0 && d.jti != "" ==>
                    && h.reply == Reply(200, RevokeSuccess(RevokedMessage))
                    && IsTokenRevoked(h.state, d.jti)
                    && h.state[d.jti] == nowMs + left * 1000
                    && RevokeToken(revoked, d.jti, left, nowMs) == Ok(h.state))
  {
    if req.tokenId == "" && req.token == "" then
      Handled(Reply(400, RevokeError("Either token_id or token is required")), revoked)
    else if req.tokenId == "" then
      match signer.decode(req.token)
      case None => Handled(Reply(400, RevokeError("Invalid token format")), revoked)
      case Some(decoded) =>
        var expiryTime := decoded.exp - Seconds(nowMs);
        if expiryTime <= 0 then Handled(Reply(200, RevokeSuccess(AlreadyExpiredMessage)), revoked)
        else ReportRevocation(RevokeToken(revoked, decoded.jti, expiryTime, nowMs), revoked)
    else
      ReportRevocation(RevokeToken(revoked, req.tokenId, DefaultRevokeHint, nowMs), revoked)
  }

  /**
    Revoking by token keeps the entry exactly until the token's own expiry
    second is over: its deadline falls within the last second of the token's life.
   */
  lemma {:induction false} RevokeByTokenCoversLifetime(signer: Signer<UserClaims>, revoked: RevocationMap, token: string,
                                                       nowMs: int)
    requires token != "" && signer.decode(token).Some?
    requires signer.decode(token).value.jti != "" && signer.decode(token).value.exp > Seconds(nowMs)
    ensures var d := signer.decode(token).value;
            var h := RevokeTokenRoute(signer, revoked, RevokeRequest("", token), nowMs);
            && IsTokenRevoked(h.state, d.jti)
            && d.exp * 1000 <= h.state[d.jti] < d.exp * 1000 + 1000
  {
    var d := signer.decode(token).value;
    var s := Seconds(nowMs);
    assert nowMs + (d.exp - s) * 1000 == d.exp * 1000 + (nowMs - s * 1000);
  }

  datatype VerifyBody = VerifyError(error: string) | Verdict(valid: bool, payload: Option<UserClaims>, message: string)

  /** `POST /verify-token`: a debugging route that reports the verdict in a 200 either way. */
  function VerifyTokenRoute(signer: Signer<UserClaims>, revoked: RevocationMap, token: string, nowMs: int)
    : (r: Reply<VerifyBody>)
    ensures token == "" ==> r == Reply(400, VerifyError("Token is required"))
    ensures token != "" ==> r.status == 200 && r.body.Verdict?
    ensures token != "" ==>
              var v := VerifyPlatformAccessToken(signer, revoked, token, nowMs);
              (r.body.valid <==> v.Ok?) && (v.Ok? ==> r.body.payload == Some(v.value))
              && (v.Err? ==> r.body.payload.None? && r.body.message == v.error)
  {
    if token == "" then Reply(400, VerifyError("Token is required"))
    else match VerifyPlatformAccessToken(signer, revoked, token, nowMs)
      case Ok(decoded) => Reply(200, Verdict(true, Some(decoded), ""))
      case Err(message) => Reply(200, Verdict(false, None, message))
  }

  /** After `POST /revoke-token` with a token's id, `POST /verify-token` calls that token invalid. */
  lemma RevokeRouteThenVerifyRoute(signer: Signer<UserClaims>, revoked: RevocationMap, c: UserClaims,
                                   revokeMs: int, verifyMs: int)
    requires RoundTrips(signer, c) && c.jti != ""
    ensures var after := RevokeTokenRoute(signer, revoked, RevokeRequest(c.jti, ""), revokeMs).state;
            var r := VerifyTokenRoute(signer, after, signer.sign(c), verifyMs);
            r.body.Verdict? && !r.body.valid && r.body.message == InvalidTokenPrefix + RevokedReason
  {
  }
}
