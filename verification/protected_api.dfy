/**
  The mock resource server's guard, `authenticateM2M(requiredScope)`. It
  verifies a machine token with its own copy of the public key (or, with
  verification switched off, merely decodes it), then checks the issuer and
  the route's scope. It reads no issuance record and no revocation list.
 */
module ProtectedApi {
  import opened Wrappers
  import opened Js
  import opened Jwt
  import opened Http
  import opened M2MTokenService
  import opened M2MMiddleware

  /** How the process was started: `DISABLE_TOKEN_VERIFICATION === 'true'`, and whether a public key was found. */
  datatype Config = Config(verificationDisabled: bool, publicKeyLoaded: bool)

  const DataRead: string := "api:read"
  const EventsSubscribe: string := "events:subscribe"
  const DataWrite: string := "api:write"

  datatype Route = GetData | GetEvents | PostData

  /** The scope each protected route demands. */
  function RouteScope(route: Route): (scope: string)
    ensures scope != ""
  {
    match route
    case GetData => DataRead
    case GetEvents => EventsSubscribe
    case PostData => DataWrite
  }

  /** The three routes demand three different scopes. */
  lemma RouteScopesDistinct(a: Route, b: Route)
    requires a != b
    ensures RouteScope(a) != RouteScope(b)
  {
    assert DataRead[4] != EventsSubscribe[4];
    assert DataRead[4] != DataWrite[4];
    assert EventsSubscribe[4] != DataWrite[4];
  }

  /** The claims the guard works with, or the failure that sends it to its `catch`. */
  datatype Read = Claims(claims: MachineClaims) | Thrown(name: Option<ErrorName>)

  /** `jwt.verify` or, with verification off, `jwt.decode`, whose `null` makes `decoded.iss` a `TypeError`. */
  function ReadToken(signer: Signer<MachineClaims>, config: Config, token: string): Read
    requires config.verificationDisabled || config.publicKeyLoaded
  {
    if config.verificationDisabled then
      match signer.decode(token)
      case None => Thrown(None)
      case Some(c) => Claims(c)
    else
      match signer.verify(token)
      case Valid(c) => Claims(c)
      case Rejected(e) => Thrown(Some(e.name))
  }

  /** The `catch` block: expiry and signature errors are named, anything else is generic. */
  function Classify(name: Option<ErrorName>): (g: Gate<AttachedClient>)
    ensures g.Halt? && g.status == 401 && g.error == "invalid_token"
    ensures name == Some(TokenExpiredError) <==> g.detail == "Token has expired"
    ensures name == Some(JsonWebTokenError) <==> g.detail == "Invalid token signature"
  {
    if name == Some(TokenExpiredError) then Halt(401, "invalid_token", "Token has expired")
    else if name == Some(JsonWebTokenError) then Halt(401, "invalid_token", "Invalid token signature")
    else Halt(401, "invalid_token", "Token validation failed")
  }

  /** `authenticateM2M(requiredScope)`; an empty `requiredScope` skips the scope check. */
  function AuthenticateM2M(signer: Signer<MachineClaims>, config: Config, requiredScope: string, authorization: string)
    : (g: Gate<AttachedClient>)
    ensures !IsBearer(authorization) ==> g == Halt(401, "unauthorized", "Authentication required")
    ensures IsBearer(authorization) && !config.verificationDisabled && !config.publicKeyLoaded ==>
              g.Halt? && g.status == 500 && g.error == "server_error"
    ensures g.Next? <==>
              && IsBearer(authorization) && (config.verificationDisabled || config.publicKeyLoaded)
              && ReadToken(signer, config, BearerToken(authorization)).Claims?
              && var c := ReadToken(signer, config, BearerToken(authorization)).claims;
                 c.iss == Issuer && (requiredScope == "" || requiredScope in TokenScopes(c.scope))
    ensures g.Next? ==> g.value == Attach(ReadToken(signer, config, BearerToken(authorization)).claims)
    ensures IsBearer(authorization) && (config.verificationDisabled || config.publicKeyLoaded)
            && ReadToken(signer, config, BearerToken(authorization)).Claims?
            && ReadToken(signer, config, BearerToken(authorization)).claims.iss != Issuer ==>
              g == Halt(403, "invalid_token", "Token not issued by authorized service")
    ensures g.Halt? && g.error == "insufficient_scope" ==>
              g == Halt(403, "insufficient_scope", "Token does not have the required scope: " + requiredScope)
  {
    if !IsBearer(authorization) then Halt(401, "unauthorized", "Authentication required")
    else if !config.verificationDisabled && !config.publicKeyLoaded then
      Halt(500, "server_error", "The server is not properly configured to validate tokens. Check server logs.")
    else match ReadToken(signer, config, BearerToken(authorization))
      case Thrown(name) => Classify(name)
      case Claims(c) =>
        if c.iss != Issuer then Halt(403, "invalid_token", "Token not issued by authorized service")
        else if requiredScope != "" && requiredScope !in TokenScopes(c.scope) then
          Halt(403, "insufficient_scope", "Token does not have the required scope: " + requiredScope)
        else Next(Attach(c))
  }

  /** Every route scope is a single word. */
  lemma RouteScopeIsOneWord(route: Route)
    ensures ' ' !in RouteScope(route)
  {
    var scope := RouteScope(route);
    assert forall i | 0 <= i < |scope| :: scope[i] != ' ';
  }

  /**
    A token the grant minted for a scope passes the guard for that scope even
    after the machine-auth service has revoked it: the guard never consults
    the issuance records that make the service's own verification refuse it.
   */
  lemma {:induction false} RevokedTokenStillPasses(signer: Signer<MachineClaims>, config: Config, ledger: Ledger,
                                                   dir: ClientService.Directory, client: ClientService.ClientView,
                                                   scope: string, tokenId: string, nonce: string, nowMs: int,
                                                   revokedAtMs: int)
    requires var claims := MachineTokenClaims(client, [scope], tokenId, nonce, nowMs);
             RoundTrips(signer, claims) && ' ' !in signer.sign(claims)
    requires config.verificationDisabled || config.publicKeyLoaded
    requires scope != "" && ' ' !in scope && tokenId != "" && scope in ClientService.ScopesOf(dir, client.info.id)
    ensures GenerateClientCredentialsToken(signer, ledger, dir, client, scope, tokenId, nonce, nowMs, false, false).result.Ok?
    ensures var s := GenerateClientCredentialsToken(signer, ledger, dir, client, scope, tokenId, nonce, nowMs, false, false);
            var token := s.result.value.accessToken;
            var after := M2MTokenService.RevokeToken(s.state, tokenId, false, revokedAtMs).value;
            && VerifyToken(signer, after, token, false).Err?
            && AuthenticateM2M(signer, config, scope, BearerPrefix + token).Next?
  {
    SingleScopeGrant(signer, ledger, dir, client, scope, tokenId, nonce, nowMs);
    var s := GenerateClientCredentialsToken(signer, ledger, dir, client, scope, tokenId, nonce, nowMs, false, false);
    var claims := MachineTokenClaims(client, [scope], tokenId, nonce, nowMs);
    var token := s.result.value.accessToken;
    assert token == signer.sign(claims);
    BearerSchemeIsOneWord();
    SchemeCredentialOf(BearerScheme, token);
    GrantedScopesReadBack([scope]);
    assert ReadToken(signer, config, token) == Claims(claims);
  }
}
