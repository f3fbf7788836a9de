/**
  The machine-auth service's OAuth routes: the client-credentials grant
  (`POST /oauth/token`), introspection (`POST /oauth/introspect`) and
  revocation (`POST /oauth/revoke`). Client credentials come from an HTTP
  Basic header (base64 decoding is the parameter `base64`) or, for the grant
  and revocation, from the form body.
 */
module M2MAuthRoutes {
  import opened Wrappers
  import opened Js
  import opened Jwt
  import opened Http
  import opened ClientService
  import opened M2MTokenService

  const ClientCredentialsGrant: string := "client_credentials"
  const BasicScheme: string := "Basic"
  const BasicPrefix: string := BasicScheme + " "

  lemma BasicSchemeIsOneWord()
    ensures ' ' !in BasicScheme
  {
    assert forall i | 0 <= i < |BasicScheme| :: BasicScheme[i] != ' ';
  }

  /** Which store calls fail during one request. */
  datatype Faults = Faults(clientRead: bool, clientScopeRead: bool, grantScopeRead: bool, tokenInsert: bool,
                           tokenLookup: bool, tokenUpdate: bool)

  const NoFaults: Faults := Faults(false, false, false, false, false, false)

  /** A client id and, when the credential string had a colon, a secret. */
  datatype Credentials = Credentials(clientId: string, clientSecret: Option<string>)

  /**
    `[clientId, clientSecret] = credentials.split(':')`: the first two pieces,
    so a secret stops at its first colon and a string without one has no secret.
   */
  function ParseBasic(credentials: string): (c: Credentials)
    ensures ':' !in c.clientId
    ensures c.clientSecret.Some? ==> ':' !in c.clientSecret.value
    ensures ':' !in credentials ==> c == Credentials(credentials, None)
  {
    var pieces := Split(credentials, ':');
    assert ':' !in credentials ==> pieces == [credentials] by {
      if ':' !in credentials { SplitSingle(credentials, ':'); }
    }
    Credentials(pieces[0], if |pieces| > 1 then Some(pieces[1]) else None)
  }

  /** `authHeader && authHeader.startsWith('Basic ')` */
  predicate IsBasic(authorization: string) {
    StartsWith(authorization, BasicPrefix)
  }

  /** The credentials of a Basic header: the second space-separated piece, base64-decoded, split at ':'. */
  function BasicCredentials(base64: string -> string, authorization: string): Credentials
    requires IsBasic(authorization)
  {
    BasicSchemeIsOneWord();
    ParseBasic(base64(SchemeCredential(authorization, BasicScheme)))
  }

  /**
    A Basic header built from an id and a secret, neither holding a colon,
    with a space-free encoding, yields exactly that id and secret.
   */
  lemma {:induction false} BasicRoundTrip(base64: string -> string, encoded: string, id: string, secret: string)
    requires ' ' !in encoded && ':' !in id && ':' !in secret
    requires base64(encoded) == id + [':'] + secret
    ensures IsBasic(BasicPrefix + encoded)
    ensures BasicCredentials(base64, BasicPrefix + encoded) == Credentials(id, Some(secret))
  {
    BasicSchemeIsOneWord();
    SchemeCredentialOf(BasicScheme, encoded);
    SplitPrefix(id, ':', secret);
    SplitSingle(secret, ':');
  }

  /**
    A secret holding a colon is cut at it: the service sees only the part
    before the first colon (section 2 of RFC 7617 lets the password contain colons).
   */
  lemma {:induction false} BasicSecretStopsAtColon(base64: string -> string, encoded: string, id: string, head: string,
                                                   tail: string)
    requires ' ' !in encoded && ':' !in id && ':' !in head
    requires base64(encoded) == id + [':'] + head + [':'] + tail
    ensures IsBasic(BasicPrefix + encoded)
    ensures BasicCredentials(base64, BasicPrefix + encoded) == Credentials(id, Some(head))
  {
    BasicSchemeIsOneWord();
    SchemeCredentialOf(BasicScheme, encoded);
    assert id + [':'] + head + [':'] + tail == id + [':'] + (head + [':'] + tail);
    SplitPrefix(id, ':', head + [':'] + tail);
    SplitPrefix(head, ':', tail);
  }

  /**
    `validateClientCredentials(clientId, clientSecret)` as the introspection
    and revocation routes call it: with no secret, a client that exists makes
    hashing `undefined` throw a `TypeError` instead of the credential error.
   */
  function Authenticate(dir: Directory, hash: Sha256, c: Credentials, f: Faults): (r: Result<ClientView>)
    ensures r.Ok? <==> && c.clientSecret.Some? && !f.clientRead && c.clientId in dir.clients
                       && hash(c.clientSecret.value) == dir.clients[c.clientId].hashedSecret
    ensures r.Ok? ==> r.value.info == dir.clients[c.clientId].info
    ensures r.Err? ==> (r.error == InvalidCredentials <==> c.clientSecret.Some? || f.clientRead || c.clientId !in dir.clients)
  {
    match c.clientSecret
    case Some(secret) => ValidateClientCredentials(dir, hash, c.clientId, secret, f.clientRead, f.clientScopeRead)
    case None =>
      if f.clientRead || c.clientId !in dir.clients then Err(InvalidCredentials)
      else Err("The \"data\" argument must be of type string")
  }

  /** The JSON error body every OAuth route uses, or an empty or token-bearing success. */
  datatype OAuthBody =
    | OAuthError(error: string, description: string)
    | Granted(response: TokenResponse)
    | Empty

  const AuthenticationRequired: OAuthBody := OAuthError("invalid_client", "Client authentication required")
  const BadClient: OAuthBody := OAuthError("invalid_client", InvalidCredentials)
  const ServerError: OAuthBody := OAuthError("server_error", "An error occurred while processing the request")

  /** The catch block shared by the routes: the credential error is a 401, anything else a 500. */
  function Caught(error: string): (r: Reply<OAuthBody>)
    ensures r.status == 401 <==> error == InvalidCredentials
    ensures r.status == 401 || r == Reply(500, ServerError)
  {
    if error == InvalidCredentials then Reply(401, BadClient) else Reply(500, ServerError)
  }

  /** The form body of `POST /oauth/token`; `""` stands for an absent field. */
  datatype TokenRequest = TokenRequest(grantType: string, authorization: string, clientId: string,
                                       clientSecret: string, scope: string)

  /** The credentials the grant uses: the Basic header's when there is one, else the body's. */
  function GrantCredentials(base64: string -> string, req: TokenRequest): Credentials {
    if IsBasic(req.authorization) then BasicCredentials(base64, req.authorization)
    else Credentials(req.clientId, if req.clientSecret == "" then None else Some(req.clientSecret))
  }

  /** `!clientId || !clientSecret` */
  predicate Incomplete(c: Credentials) {
    c.clientId == "" || c.clientSecret.None? || c.clientSecret.value == ""
  }

  /** The scope string the grant asks for: the requested one, else all the client's scopes. */
  function ScopeAsked(req: TokenRequest, client: ClientView): string {
    OrElse(req.scope, Join(client.scopes, ' '))
  }

  /** `POST /oauth/token` */
  function TokenRoute(signer: Signer<MachineClaims>, ledger: Ledger, dir: Directory, hash: Sha256,
                      base64: string -> string, req: TokenRequest, tokenId: string, nonce: string, nowMs: int,
                      f: Faults)
    : (h: Handled<OAuthBody, Ledger>)
    ensures h.reply.status != 200 ==> h.state == ledger
    ensures req.grantType != ClientCredentialsGrant ==>
              h.reply == Reply(400, OAuthError("unsupported_grant_type", "Only client_credentials grant type is supported"))
    ensures req.grantType == ClientCredentialsGrant && Incomplete(GrantCredentials(base64, req)) ==>
              h.reply == Reply(401, AuthenticationRequired)
    ensures h.reply.status == 200 <==>
              var c := GrantCredentials(base64, req);
              && req.grantType == ClientCredentialsGrant && !Incomplete(c)
              && ValidateClientCredentials(dir, hash, c.clientId, c.clientSecret.value, f.clientRead, f.clientScopeRead).Ok?
              && !f.grantScopeRead
              && var client := ValidateClientCredentials(dir, hash, c.clientId, c.clientSecret.value, f.clientRead, f.clientScopeRead).value;
                 GrantedScopes(RequestedScopes(ScopeAsked(req, client)), ScopesOf(dir, client.info.id)) != []
    ensures h.reply.status == 200 ==>
              var c := GrantCredentials(base64, req);
              var client := ValidateClientCredentials(dir, hash, c.clientId, c.clientSecret.value, f.clientRead, f.clientScopeRead).value;
              var s := GenerateClientCredentialsToken(signer, ledger, dir, client, ScopeAsked(req, client), tokenId, nonce,
                                                      nowMs, f.grantScopeRead, f.tokenInsert);
              h == Handled(Reply(200, Granted(s.result.value)), s.state)
    ensures req.grantType == ClientCredentialsGrant && !Incomplete(GrantCredentials(base64, req))
            && ValidateClientCredentials(dir, hash, GrantCredentials(base64, req).clientId,
                                         GrantCredentials(base64, req).clientSecret.value, f.clientRead, f.clientScopeRead).Err? ==>
              h.reply == Reply(401, BadClient)
    ensures h.reply.status == 400 && req.grantType == ClientCredentialsGrant ==>
              h.reply.body == OAuthError("invalid_scope", NoValidScopes)
  {
    if req.grantType != ClientCredentialsGrant then
      Handled(Reply(400, OAuthError("unsupported_grant_type", "Only client_credentials grant type is supported")), ledger)
    else
      var c := GrantCredentials(base64, req);
      if Incomplete(c) then Handled(Reply(401, AuthenticationRequired), ledger)
      else match ValidateClientCredentials(dir, hash, c.clientId, c.clientSecret.value, f.clientRead, f.clientScopeRead)
        case Err(e) => Handled(Caught(e), ledger)
        case Ok(client) =>
          var s := GenerateClientCredentialsToken(signer, ledger, dir, client, ScopeAsked(req, client), tokenId, nonce,
                                                  nowMs, f.grantScopeRead, f.tokenInsert);
          match s.result
          case Ok(response) => Handled(Reply(200, Granted(response)), s.state)
          case Err(e) =>
            if e == NoValidScopes then Handled(Reply(400, OAuthError("invalid_scope", NoValidScopes)), ledger)
            else Handled(Caught(e), ledger)
  }

  /** The introspection answer (section 2.2 of RFC 7662), or an OAuth error. */
  datatype IntrospectBody =
    | IntrospectError(error: string, description: string)
    | Active(scope: Option<string>, clientId: string, tokenType: string, exp: int, iat: int, sub: string, iss: string,
             jti: string)
    | Inactive

  /** The active answer for verified claims. */
  function Describe(c: MachineClaims): IntrospectBody {
    Active(c.scope, c.clientId, "Bearer", c.exp, c.iat, c.sub, c.iss, c.jti)
  }

  /** `POST /oauth/introspect`: only a Basic header authenticates the caller. */
  function IntrospectRoute(signer: Signer<MachineClaims>, ledger: Ledger, dir: Directory, hash: Sha256,
                           base64: string -> string, token: string, authorization: string, f: Faults)
    : (r: Reply<IntrospectBody>)
    ensures token == "" ==> r == Reply(400, IntrospectError("invalid_request", "Token parameter is required"))
    ensures token != "" && !IsBasic(authorization) ==>
              r == Reply(401, IntrospectError("invalid_client", "Client authentication required"))
    ensures token != "" && IsBasic(authorization) ==>
              var auth := Authenticate(dir, hash, BasicCredentials(base64, authorization), f);
              var v := VerifyToken(signer, ledger, token, f.tokenLookup);
              && (auth.Err? && auth.error == InvalidCredentials ==> r == Reply(401, IntrospectError("invalid_client", InvalidCredentials)))
              && (auth.Err? && auth.error != InvalidCredentials ==> r.status == 500)
              && (auth.Ok? && v.Ok? ==> r == Reply(200, Describe(v.value)))
              && (auth.Ok? && v.Err? ==> r == Reply(200, Inactive))
  {
    if token == "" then Reply(400, IntrospectError("invalid_request", "Token parameter is required"))
    else if !IsBasic(authorization) then Reply(401, IntrospectError("invalid_client", "Client authentication required"))
    else match Authenticate(dir, hash, BasicCredentials(base64, authorization), f)
      case Err(e) =>
        if e == InvalidCredentials then Reply(401, IntrospectError("invalid_client", InvalidCredentials))
        else Reply(500, IntrospectError("server_error", "An error occurred while processing the request"))
      case Ok(_) =>
        match VerifyToken(signer, ledger, token, f.tokenLookup)
        case Ok(decoded) => Reply(200, Describe(decoded))
        case Err(_) => Reply(200, Inactive)
  }

  /** The form body of `POST /oauth/revoke`; `""` stands for an absent field. */
  datatype RevokeRequest = RevokeRequest(token: string, authorization: string, clientId: string, clientSecret: string)

  /** The credentials revocation uses and the step that checks them. */
  function RevokeCredentials(base64: string -> string, req: RevokeRequest): Credentials {
    if IsBasic(req.authorization) then BasicCredentials(base64, req.authorization)
    else Credentials(req.clientId, if req.clientSecret == "" then None else Some(req.clientSecret))
  }

  /** A revocation request that names a token and whose caller authenticates. */
  predicate RevokeAdmitted(dir: Directory, hash: Sha256, base64: string -> string, req: RevokeRequest, f: Faults) {
    && req.token != "" && (IsBasic(req.authorization) || !Incomplete(RevokeCredentials(base64, req)))
    && Authenticate(dir, hash, RevokeCredentials(base64, req), f).Ok?
  }

  /**
    `POST /oauth/revoke`. Following section 2.2 of RFC 7009, a token that
    cannot be decoded or carries no `jti` is answered with an empty 200.
   */
  function RevokeRoute(signer: Signer<MachineClaims>, ledger: Ledger, dir: Directory, hash: Sha256,
                       base64: string -> string, req: RevokeRequest, nowMs: int, f: Faults)
    : (h: Handled<OAuthBody, Ledger>)
    ensures h.state != ledger ==> h.reply == Reply(200, Empty) && signer.decode(req.token).Some?
    ensures req.token == "" ==>
              h == Handled(Reply(400, OAuthError("invalid_request", "Token parameter is required")), ledger)
    ensures req.token != "" && !IsBasic(req.authorization) && Incomplete(RevokeCredentials(base64, req)) ==>
              h == Handled(Reply(401, AuthenticationRequired), ledger)
    ensures req.token != "" && (IsBasic(req.authorization) || !Incomplete(RevokeCredentials(base64, req)))
            && Authenticate(dir, hash, RevokeCredentials(base64, req), f).Err? ==>
              h == Handled(Caught(Authenticate(dir, hash, RevokeCredentials(base64, req), f).error), ledger)
    ensures RevokeAdmitted(dir, hash, base64, req, f)
            && (signer.decode(req.token).None? || signer.decode(req.token).value.jti == "") ==>
              h == Handled(Reply(200, Empty), ledger)
    ensures h.reply.status == 403 <==>
              && RevokeAdmitted(dir, hash, base64, req, f)
              && signer.decode(req.token).Some? && signer.decode(req.token).value.jti != ""
              && signer.decode(req.token).value.clientId != RevokeCredentials(base64, req).clientId
    ensures h.reply.status == 403 ==>
              h == Handled(Reply(403, OAuthError("access_denied", "You can only revoke your own tokens")), ledger)
    ensures RevokeAdmitted(dir, hash, base64, req, f) && signer.decode(req.token).Some?
            && signer.decode(req.token).value.jti != ""
            && signer.decode(req.token).value.clientId == RevokeCredentials(base64, req).clientId ==>
              var d := signer.decode(req.token).value;
              && (f.tokenUpdate ==> h == Handled(Reply(500, ServerError), ledger))
              && (!f.tokenUpdate ==> h.reply == Reply(200, Empty) && RevokeToken(ledger, d.jti, false, nowMs) == Ok(h.state))
    ensures h.state != ledger ==>
              var d := signer.decode(req.token).value;
              && d.jti != "" && d.clientId == RevokeCredentials(base64, req).clientId
              && RevokeAdmitted(dir, hash, base64, req, f)
              && RevokeToken(ledger, d.jti, f.tokenUpdate, nowMs) == Ok(h.state)
  {
    if req.token == "" then Handled(Reply(400, OAuthError("invalid_request", "Token parameter is required")), ledger)
    else
      var c := RevokeCredentials(base64, req);
      if !IsBasic(req.authorization) && Incomplete(c) then Handled(Reply(401, AuthenticationRequired), ledger)
      else match Authenticate(dir, hash, c, f)
        case Err(e) => Handled(Caught(e), ledger)
        case Ok(_) =>
          match signer.decode(req.token)
          case None => Handled(Reply(200, Empty), ledger)
          case Some(decoded) =>
            if decoded.jti == "" then Handled(Reply(200, Empty), ledger)
            else if decoded.clientId != c.clientId then
              Handled(Reply(403, OAuthError("access_denied", "You can only revoke your own tokens")), ledger)
            else match RevokeToken(ledger, decoded.jti, f.tokenUpdate, nowMs)
              case Err(e) => Handled(Caught(e), ledger)
              case Ok(after) => Handled(Reply(200, Empty), after)
  }

  /** The claims the grant signs for a request whose credentials validate. */
  function GrantClaims(dir: Directory, hash: Sha256, base64: string -> string, req: TokenRequest, tokenId: string,
                       nonce: string, nowMs: int): MachineClaims
    requires !Incomplete(GrantCredentials(base64, req))
    requires ValidateClientCredentials(dir, hash, GrantCredentials(base64, req).clientId,
                                       GrantCredentials(base64, req).clientSecret.value, false, false).Ok?
  {
    var c := GrantCredentials(base64, req);
    var client := ValidateClientCredentials(dir, hash, c.clientId, c.clientSecret.value, false, false).value;
    MachineTokenClaims(client, GrantedScopes(RequestedScopes(ScopeAsked(req, client)), ScopesOf(dir, client.info.id)),
                       tokenId, nonce, nowMs)
  }

  /**
    A token minted by the grant introspects as active with the client, scope
    and id it was issued with, when its record was stored and the caller authenticates.
   */
  lemma TokenThenIntrospect(signer: Signer<MachineClaims>, ledger: Ledger, dir: Directory, hash: Sha256,
                            base64: string -> string, req: TokenRequest, tokenId: string, nonce: string, nowMs: int,
                            authorization: string)
    requires TokenRoute(signer, ledger, dir, hash, base64, req, tokenId, nonce, nowMs, NoFaults).reply.status == 200
    requires RoundTrips(signer, GrantClaims(dir, hash, base64, req, tokenId, nonce, nowMs))
    requires IsBasic(authorization) && Authenticate(dir, hash, BasicCredentials(base64, authorization), NoFaults).Ok?
    ensures var h := TokenRoute(signer, ledger, dir, hash, base64, req, tokenId, nonce, nowMs, NoFaults);
            var response := h.reply.body.response;
            var r := IntrospectRoute(signer, h.state, dir, hash, base64, response.accessToken, authorization, NoFaults);
            && r.status == 200 && r.body.Active?
            && r.body.clientId == dir.clients[GrantCredentials(base64, req).clientId].info.id
            && r.body.scope == Some(response.scope) && r.body.jti == tokenId
  {
    var h := TokenRoute(signer, ledger, dir, hash, base64, req, tokenId, nonce, nowMs, NoFaults);
    var c := GrantCredentials(base64, req);
    var client := ValidateClientCredentials(dir, hash, c.clientId, c.clientSecret.value, false, false).value;
    var granted := GrantedScopes(RequestedScopes(ScopeAsked(req, client)), ScopesOf(dir, client.info.id));
    var claims := MachineTokenClaims(client, granted, tokenId, nonce, nowMs);
    assert claims == GrantClaims(dir, hash, base64, req, tokenId, nonce, nowMs);
    assert h.state.issued[tokenId] == IssuedRecord(tokenId, client.info.id, granted, claims.exp, false);
    assert VerifyToken(signer, h.state, h.reply.body.response.accessToken, false) == Ok(claims);
  }

  /**
    Once the owning client revokes a token through the revocation route, the
    introspection route reports it inactive.
   */
  lemma RevokeThenIntrospect(signer: Signer<MachineClaims>, ledger: Ledger, dir: Directory, hash: Sha256,
                             base64: string -> string, req: RevokeRequest, nowMs: int, authorization: string)
    requires signer.decode(req.token).Some? && signer.verify(req.token) == Valid(signer.decode(req.token).value)
    requires RevokeAdmitted(dir, hash, base64, req, NoFaults)
    requires var d := signer.decode(req.token).value;
             d.jti != "" && d.clientId == RevokeCredentials(base64, req).clientId
    requires IsBasic(authorization) && Authenticate(dir, hash, BasicCredentials(base64, authorization), NoFaults).Ok?
    ensures var h := RevokeRoute(signer, ledger, dir, hash, base64, req, nowMs, NoFaults);
            IntrospectRoute(signer, h.state, dir, hash, base64, req.token, authorization, NoFaults) == Reply(200, Inactive)
  {
  }
}
