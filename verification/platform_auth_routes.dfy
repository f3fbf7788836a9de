/**
  The trading platform's authentication routes: `/validate` turns a
  user-to-platform token into a platform session, `/logout` ends one and
  revokes the token it came from, `/session` and `/dashboard` read one.
  The platform keeps its own revocation set, separate from the brand's map.
 */
module PlatformAuthRoutes {
  import opened Wrappers
  import opened Js
  import opened Jwt
  import opened Http
  import opened PlatformMiddleware

  const BearerPrefix: string := "Bearer "

  /** The permissions `/validate` insists on. */
  const RequiredPermissions: seq<string> := ["trading"]

  /** The session cookie's `maxAge`: a day, whatever the token's own lifetime. */
  const SessionMaxAgeMs: int := 24 * 60 * 60 * 1000

  /** Token ids the platform has seen logged out (`revokedTokens.set(id, true)`). */
  type RevokedSet = set<string>

  /** The parts of a `/validate` request the handler reads; `""` stands for absent. */
  datatype ValidateRequest = ValidateRequest(
    verb: string, authorization: string, queryToken: string, bodyToken: string, acceptsHtml: bool)

  /** Where `/validate` finds the token: the Bearer header, then `?token=`, then a POSTed `token`. */
  function RequestToken(req: ValidateRequest): (t: string)
    ensures StartsWith(req.authorization, BearerPrefix) && |req.authorization| > |BearerPrefix| ==>
              t == req.authorization[|BearerPrefix|..]
    ensures !(StartsWith(req.authorization, BearerPrefix) && |req.authorization| > |BearerPrefix|) ==>
              t == (if req.queryToken != "" then req.queryToken
                    else if req.verb == "POST" then req.bodyToken
                    else "")
  {
    var fromHeader := if StartsWith(req.authorization, BearerPrefix) then req.authorization[|BearerPrefix|..] else "";
    var fromQuery := if fromHeader == "" && req.queryToken != "" then req.queryToken else fromHeader;
    if fromQuery == "" && req.verb == "POST" && req.bodyToken != "" then req.bodyToken else fromQuery
  }

  /** `WHITELIST_BRANDS` split on commas; `""` stands for the variable being unset. */
  function Whitelist(env: string): seq<string> {
    Split(env, ',')
  }

  /** A brand passes the whitelist built from a list of comma-free names exactly when it is one of them. */
  lemma WhitelistExactMatch(brands: seq<string>, brand: string)
    requires |brands| >= 1 && SeparatorFree(brands, ',')
    ensures brand in Whitelist(Join(brands, ',')) <==> brand in brands
  {
    SplitJoin(brands, ',');
  }

  /** With `WHITELIST_BRANDS` unset the whitelist is the single empty name, so only an empty `brand_id` passes. */
  lemma UnsetWhitelistAdmitsOnlyEmptyBrand(brand: string)
    ensures brand in Whitelist("") <==> brand == ""
  {
  }

  /** The session `/validate` establishes from verified claims. */
  function SessionFromClaims(c: UserClaims, sessionId: string, createdAt: int): (s: Session)
    ensures s.userId == c.sub && s.brandId == c.brandId && s.platformId == c.platformId
    ensures s.email == c.email && s.firstName == c.firstName && s.lastName == c.lastName
    ensures s.permissions == c.permissions && s.walletId == c.walletId
    ensures s.tokenId == c.jti && s.sessionId == sessionId && s.createdAt == createdAt
  {
    Session(c.sub, c.email, c.firstName, c.lastName, c.brandId, c.platformId, c.permissions, c.walletId,
            sessionId, c.jti, createdAt)
  }

  datatype ValidateOutcome =
    | Refused(status: int, error: string)
    | Established(status: int, session: Session, cookieMaxAgeMs: int)

  /** The checks after signature and audience, in order: revoked, brand, expiry, permission. */
  function FirstFailure(revoked: RevokedSet, whitelist: seq<string>, c: UserClaims, now: int): Option<ValidateOutcome> {
    if c.jti in revoked then Some(Refused(401, "Token has been revoked"))
    else if c.brandId !in whitelist then Some(Refused(403, "Brand is not authorized"))
    else if c.exp < now then Some(Refused(401, "Token has expired"))
    else if !IncludesAll(c.permissions, RequiredPermissions) then Some(Refused(403, "Insufficient permissions"))
    else None
  }

  /**
    `/validate`. `verify` is `jwt.verify` with the platform's public key,
    RS256 and audience "platform-service"; a failure there is rethrown and
    answered by the outer handler with a 500. `sessionId` is the fresh UUID.
   */
  function Validate(verify: string -> Verified<UserClaims>, whitelist: seq<string>, revoked: RevokedSet,
                    req: ValidateRequest, nowMs: int, sessionId: string): (r: ValidateOutcome)
    ensures RequestToken(req) == "" ==> r.Refused? && r.status == 400
    ensures RequestToken(req) != "" && verify(RequestToken(req)).Rejected? ==>
              r == Refused(500, "Failed to validate token")
    ensures RequestToken(req) != "" && verify(RequestToken(req)).Valid? ==>
              var c := verify(RequestToken(req)).claims;
              && (c.jti in revoked ==> r == Refused(401, "Token has been revoked"))
              && (c.jti !in revoked && c.brandId !in whitelist ==> r == Refused(403, "Brand is not authorized"))
              && (c.jti !in revoked && c.brandId in whitelist && c.exp < Seconds(nowMs) ==>
                    r == Refused(401, "Token has expired"))
              && (c.jti !in revoked && c.brandId in whitelist && c.exp >= Seconds(nowMs) && "trading" !in c.permissions ==>
                    r == Refused(403, "Insufficient permissions"))
    ensures r.Established? <==>
              && RequestToken(req) != "" && verify(RequestToken(req)).Valid?
              && var c := verify(RequestToken(req)).claims;
                 c.jti !in revoked && c.brandId in whitelist && c.exp >= Seconds(nowMs) && "trading" in c.permissions
    ensures r.Established? ==>
              && r.session == SessionFromClaims(verify(RequestToken(req)).claims, sessionId, Seconds(nowMs))
              && r.cookieMaxAgeMs == SessionMaxAgeMs
              && r.status == (if req.acceptsHtml then 302 else 200)
  {
    var token := RequestToken(req);
    if token == "" then
      Refused(400, "Token is required. It can be provided in Authorization header, query parameter, or POST body.")
    else match verify(token)
      case Rejected(_) => Refused(500, "Failed to validate token")
      case Valid(decoded) =>
        var now := Seconds(nowMs);
        match FirstFailure(revoked, whitelist, decoded, now)
        case Some(refusal) => refusal
        case None =>
          Established(if req.acceptsHtml then 302 else 200, SessionFromClaims(decoded, sessionId, now), SessionMaxAgeMs)
  }

  /**
    A session `/validate` establishes passes the platform's own guards:
    the cookie check (when the cookie reads back as written and the token
    carried a subject), the `trading` permission check and the brand check.
   */
  lemma EstablishedSessionPassesGuards(verify: string -> Verified<UserClaims>, whitelist: seq<string>,
                                       revoked: RevokedSet, req: ValidateRequest, nowMs: int, sessionId: string,
                                       cookie: string, parse: SessionParser)
    requires Validate(verify, whitelist, revoked, req, nowMs, sessionId).Established?
    requires sessionId != "" && cookie != ""
    requires var s := Validate(verify, whitelist, revoked, req, nowMs, sessionId).session;
             parse(cookie) == Some(s) && s.userId != "" && s.brandId != ""
    ensures var s := Validate(verify, whitelist, revoked, req, nowMs, sessionId).session;
            && RequirePlatformSession(cookie, parse) == Next(s)
            && RequirePermissions(RequiredPermissions, Some(s)) == Next(s)
            && RequireBrand(whitelist, Some(s)) == Next(s)
  {
  }

  /** `/logout`: the session's token id, when it has one, joins the revoked set. */
  function Logout(session: Session, revoked: RevokedSet): (after: RevokedSet)
    ensures session.tokenId != "" ==> session.tokenId in after
    ensures forall id :: id != session.tokenId ==> (id in after <==> id in revoked)
    ensures session.tokenId == "" ==> after == revoked
  {
    if session.tokenId != "" then revoked + {session.tokenId} else revoked
  }

  /** After logging out of a session, presenting the token it came from again is refused as revoked. */
  lemma LogoutThenValidateRefused(verify: string -> Verified<UserClaims>, whitelist: seq<string>, revoked: RevokedSet,
                                  req: ValidateRequest, nowMs: int, sessionId: string, laterMs: int, otherId: string)
    requires Validate(verify, whitelist, revoked, req, nowMs, sessionId).Established?
    requires verify(RequestToken(req)).claims.jti != ""
    ensures var s := Validate(verify, whitelist, revoked, req, nowMs, sessionId).session;
            Validate(verify, whitelist, Logout(s, revoked), req, laterMs, otherId) == Refused(401, "Token has been revoked")
  {
  }

  /** A token without a `jti` leaves nothing to revoke: after logout it can establish a new session. */
  lemma LogoutWithoutTokenIdRevokesNothing(verify: string -> Verified<UserClaims>, whitelist: seq<string>,
                                           revoked: RevokedSet, req: ValidateRequest, nowMs: int, sessionId: string,
                                           otherId: string)
    requires Validate(verify, whitelist, revoked, req, nowMs, sessionId).Established?
    requires verify(RequestToken(req)).claims.jti == ""
    ensures var s := Validate(verify, whitelist, revoked, req, nowMs, sessionId).session;
            Validate(verify, whitelist, Logout(s, revoked), req, nowMs, otherId).Established?
  {
  }

  /** What `/session` reports. */
  datatype SessionInfo = SessionInfo(userId: string, brand: string, platform: string, permissions: seq<string>,
                                     sessionAge: int)

  /** `/session`: the session's identity and its age in whole seconds. */
  function SessionRoute(session: Session, nowMs: int): (info: SessionInfo)
    ensures info.userId == session.userId && info.brand == session.brandId && info.platform == session.platformId
    ensures info.permissions == session.permissions
    ensures session.createdAt + info.sessionAge == Seconds(nowMs)
  {
    SessionInfo(session.userId, session.brandId, session.platformId, session.permissions, Seconds(nowMs) - session.createdAt)
  }

  /** A session read back in the second it was established is zero seconds old. */
  lemma FreshSessionHasAgeZero(verify: string -> Verified<UserClaims>, whitelist: seq<string>, revoked: RevokedSet,
                               req: ValidateRequest, nowMs: int, sessionId: string)
    requires Validate(verify, whitelist, revoked, req, nowMs, sessionId).Established?
    ensures SessionRoute(Validate(verify, whitelist, revoked, req, nowMs, sessionId).session, nowMs).sessionAge == 0
  {
  }

  /** What `/dashboard` reports: the session's identity and the CSRF token for its forms. */
  datatype Dashboard = Dashboard(userId: string, brand: string, platform: string, csrfToken: string)

  /** `/dashboard` */
  function DashboardRoute(hmac: Hmac, key: string, session: Session): (d: Dashboard)
    ensures d.userId == session.userId && d.brand == session.brandId && d.platform == session.platformId
    ensures d.csrfToken != "" ==> VerifyCsrf(hmac, key, "POST", Some(session), d.csrfToken, "").Next?
  {
    Dashboard(session.userId, session.brandId, session.platformId, GenerateCsrfToken(hmac, key, session))
  }
}
