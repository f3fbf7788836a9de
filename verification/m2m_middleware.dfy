/**
  The machine-auth service's request guards: `requireClientToken`,
  `requireScope`, `requireAdmin` and `requireAuth`. A header that starts
  with `Bearer eyJ` is taken for an identity-provider user token and checked
  by `getUser` (the parameter `users`); any other Bearer token is a machine
  token checked by the token service.
 */
module M2MMiddleware {
  import opened Wrappers
  import opened Js
  import opened Jwt
  import opened Http
  import opened M2MTokenService

  const BearerScheme: string := "Bearer"
  const BearerPrefix: string := BearerScheme + " "

  /** Every identity-provider access token is a JWT whose base64 header starts with `eyJ`. */
  const UserTokenPrefix: string := BearerPrefix + "eyJ"

  const AdminScope: string := "admin"
  const AdminRole: string := "admin"

  lemma BearerSchemeIsOneWord()
    ensures ' ' !in BearerScheme
  {
    assert forall i | 0 <= i < |BearerScheme| :: BearerScheme[i] != ' ';
  }

  /** `authHeader && authHeader.startsWith('Bearer ')` */
  predicate IsBearer(authorization: string) {
    StartsWith(authorization, BearerPrefix)
  }

  /** `authHeader.split(' ')[1]` */
  function BearerToken(authorization: string): string
    requires IsBearer(authorization)
  {
    BearerSchemeIsOneWord();
    SchemeCredential(authorization, BearerScheme)
  }

  /** `decoded.scope ? decoded.scope.split(' ') : []` */
  function TokenScopes(scope: Option<string>): (scopes: seq<string>)
    ensures scope.None? || scope == Some("") ==> scopes == []
    ensures scope.Some? && scope.value != "" ==> Join(scopes, ' ') == scope.value
  {
    if scope.None? || scope.value == "" then []
    else JoinSplit(scope.value, ' '); Split(scope.value, ' ')
  }

  /** What the guards attach as `req.client`. */
  datatype AttachedClient = AttachedClient(id: string, name: string, scopes: seq<string>)

  function Attach(c: MachineClaims): AttachedClient {
    AttachedClient(c.clientId, c.clientName, TokenScopes(c.scope))
  }

  /** The part of an identity-provider user the admin guard reads: `app_metadata.role`, if any. */
  datatype User = User(id: string, role: Option<string>)

  /** Who a guard let through. */
  datatype Principal = UserPrincipal(user: User) | ClientPrincipal(client: AttachedClient)

  const AuthenticationRequired: string := "Authentication required"
  const InvalidOrExpired: string := "Invalid or expired token"
  const AdminRequired: string := "Admin access required"

  /** `requireClientToken` */
  function RequireClientToken(signer: Signer<MachineClaims>, ledger: Ledger, authorization: string, lookupFails: bool)
    : (g: Gate<AttachedClient>)
    ensures !IsBearer(authorization) ==> g == Halt(401, AuthenticationRequired, "")
    ensures IsBearer(authorization) ==>
              var v := VerifyToken(signer, ledger, BearerToken(authorization), lookupFails);
              && (v.Ok? ==> g == Next(Attach(v.value)))
              && (v.Err? ==> g == Halt(401, InvalidOrExpired, ""))
  {
    if !IsBearer(authorization) then Halt(401, AuthenticationRequired, "")
    else match VerifyToken(signer, ledger, BearerToken(authorization), lookupFails)
      case Ok(decoded) => Next(Attach(decoded))
      case Err(_) => Halt(401, InvalidOrExpired, "")
  }

  /** `requireScope(requiredScope)`, given what `requireClientToken` attached, if anything. */
  function RequireScope(client: Option<AttachedClient>, requiredScope: string): (g: Gate<AttachedClient>)
    ensures g.Next? <==> client.Some? && requiredScope in client.value.scopes
    ensures g.Next? ==> g.value == client.value
    ensures client.None? ==> g == Halt(401, AuthenticationRequired, "")
    ensures client.Some? && requiredScope !in client.value.scopes ==>
              g == Halt(403, "insufficient_scope", "The token does not have the required scope (" + requiredScope + ")")
  {
    match client
    case None => Halt(401, AuthenticationRequired, "")
    case Some(c) =>
      if requiredScope !in c.scopes then
        Halt(403, "insufficient_scope", "The token does not have the required scope (" + requiredScope + ")")
      else Next(c)
  }

  /** `requireAdmin` */
  function RequireAdmin(signer: Signer<MachineClaims>, ledger: Ledger, users: string -> Option<User>,
                        authorization: string, lookupFails: bool)
    : (g: Gate<Principal>)
    ensures !IsBearer(authorization) ==> g == Halt(401, AuthenticationRequired, "")
    ensures StartsWith(authorization, UserTokenPrefix) ==>
              var u := users(BearerToken(authorization));
              && (u.None? ==> g == Halt(401, InvalidOrExpired, ""))
              && (u.Some? && u.value.role != Some(AdminRole) ==> g == Halt(403, AdminRequired, ""))
              && (u.Some? && u.value.role == Some(AdminRole) ==> g == Next(UserPrincipal(u.value)))
    ensures IsBearer(authorization) && !StartsWith(authorization, UserTokenPrefix) ==>
              var v := VerifyToken(signer, ledger, BearerToken(authorization), lookupFails);
              && (v.Err? ==> g == Halt(401, InvalidOrExpired, ""))
              && (v.Ok? && AdminScope !in TokenScopes(v.value.scope) ==> g == Halt(403, AdminRequired, ""))
              && (v.Ok? && AdminScope in TokenScopes(v.value.scope) ==> g == Next(ClientPrincipal(Attach(v.value))))
  {
    if !IsBearer(authorization) then Halt(401, AuthenticationRequired, "")
    else if StartsWith(authorization, UserTokenPrefix) then
      match users(BearerToken(authorization))
      case None => Halt(401, InvalidOrExpired, "")
      case Some(user) =>
        if user.role != Some(AdminRole) then Halt(403, AdminRequired, "") else Next(UserPrincipal(user))
    else
      match VerifyToken(signer, ledger, BearerToken(authorization), lookupFails)
      case Err(_) => Halt(401, InvalidOrExpired, "")
      case Ok(decoded) =>
        if AdminScope !in TokenScopes(decoded.scope) then Halt(403, AdminRequired, "")
        else Next(ClientPrincipal(Attach(decoded)))
  }

  /** `requireAuth`: a user or a machine, no further check. */
  function RequireAuth(signer: Signer<MachineClaims>, ledger: Ledger, users: string -> Option<User>,
                       authorization: string, lookupFails: bool)
    : (g: Gate<Principal>)
    ensures !IsBearer(authorization) ==> g == Halt(401, AuthenticationRequired, "")
    ensures StartsWith(authorization, UserTokenPrefix) ==>
              var u := users(BearerToken(authorization));
              && (u.None? ==> g == Halt(401, InvalidOrExpired, ""))
              && (u.Some? ==> g == Next(UserPrincipal(u.value)))
    ensures IsBearer(authorization) && !StartsWith(authorization, UserTokenPrefix) ==>
              match RequireClientToken(signer, ledger, authorization, lookupFails)
              case Next(client) => g == Next(ClientPrincipal(client))
              case Halt(status, error, detail) => g == Halt(status, error, detail)
  {
    if !IsBearer(authorization) then Halt(401, AuthenticationRequired, "")
    else if StartsWith(authorization, UserTokenPrefix) then
      match users(BearerToken(authorization))
      case None => Halt(401, InvalidOrExpired, "")
      case Some(user) => Next(UserPrincipal(user))
    else
      match VerifyToken(signer, ledger, BearerToken(authorization), lookupFails)
      case Ok(decoded) => Next(ClientPrincipal(Attach(decoded)))
      case Err(_) => Halt(401, InvalidOrExpired, "")
  }

  /**
    A header that looks like a user token never reaches machine-token
    verification: the outcome of both guards is the same whatever the signer
    and the issuance records.
   */
  lemma UserTokensBypassMachineVerification(signer: Signer<MachineClaims>, other: Signer<MachineClaims>, ledger: Ledger,
                                            otherLedger: Ledger, users: string -> Option<User>, authorization: string,
                                            lookupFails: bool)
    requires StartsWith(authorization, UserTokenPrefix)
    ensures RequireAuth(signer, ledger, users, authorization, lookupFails)
            == RequireAuth(other, otherLedger, users, authorization, false)
    ensures RequireAdmin(signer, ledger, users, authorization, lookupFails)
            == RequireAdmin(other, otherLedger, users, authorization, false)
  {
    assert IsBearer(authorization) by {
      assert authorization[..|BearerPrefix|] == authorization[..|UserTokenPrefix|][..|BearerPrefix|];
    }
  }

  /** The scope list a guard reads off a minted token is exactly the list the grant allowed. */
  lemma {:induction false} GrantedScopesReadBack(granted: seq<string>)
    requires |granted| > 0 && forall s :: s in granted ==> s != "" && ' ' !in s
    ensures TokenScopes(Some(Join(granted, ' '))) == granted
  {
    assert SeparatorFree(granted, ' ') by {
      forall i | 0 <= i < |granted| ensures ' ' !in granted[i] {
        assert granted[i] in granted;
      }
    }
    SplitJoin(granted, ' ');
    assert Join(granted, ' ') != "" by {
      if |granted| == 1 {
        assert granted[0] in granted;
      } else {
        assert |Join(granted, ' ')| >= |granted[0]| + 1;
      }
    }
  }

  /**
    A token minted by the grant and recorded passes `requireClientToken`
    followed by `requireScope(s)` exactly when `s` was among the granted
    scopes (signed tokens are compact JWTs, so they hold no space).
   */
  lemma MintedTokenPassesScopeGuard(signer: Signer<MachineClaims>, ledger: Ledger, dir: ClientService.Directory,
                                    client: ClientService.ClientView, scope: string, tokenId: string, nonce: string,
                                    nowMs: int, required: string)
    requires GrantedScopes(RequestedScopes(scope), ClientService.ScopesOf(dir, client.info.id)) != []
    requires var claims := MachineTokenClaims(client, GrantedScopes(RequestedScopes(scope), ClientService.ScopesOf(dir, client.info.id)),
                                              tokenId, nonce, nowMs);
             RoundTrips(signer, claims) && ' ' !in signer.sign(claims)
    ensures var s := GenerateClientCredentialsToken(signer, ledger, dir, client, scope, tokenId, nonce, nowMs, false, false);
            var granted := GrantedScopes(RequestedScopes(scope), ClientService.ScopesOf(dir, client.info.id));
            var attached := RequireClientToken(signer, s.state, BearerPrefix + s.result.value.accessToken, false);
            && attached.Next?
            && (RequireScope(Some(attached.value), required).Next? <==> required in granted)
  {
    var s := GenerateClientCredentialsToken(signer, ledger, dir, client, scope, tokenId, nonce, nowMs, false, false);
    var granted := GrantedScopes(RequestedScopes(scope), ClientService.ScopesOf(dir, client.info.id));
    var claims := MachineTokenClaims(client, granted, tokenId, nonce, nowMs);
    var token := s.result.value.accessToken;
    BearerSchemeIsOneWord();
    SchemeCredentialOf(BearerScheme, token);
    assert VerifyToken(signer, s.state, token, false) == Ok(claims);
    GrantedScopesReadBack(granted);
  }

  /**
    Every token the grant signs is an RS256 JWT, whose encoded header starts
    with `eyJ`, so `Bearer <minted token>` always takes the user-token path:
    a minted token that passes `requireClientToken` is refused by
    `requireAdmin` and `requireAuth` unless the identity provider knows it
    as a user, whatever scopes it was granted.
   */
  lemma MintedTokenTakesUserPath(signer: Signer<MachineClaims>, ledger: Ledger, dir: ClientService.Directory,
                                 client: ClientService.ClientView, scope: string, tokenId: string, nonce: string,
                                 nowMs: int, users: string -> Option<User>)
    requires GrantedScopes(RequestedScopes(scope), ClientService.ScopesOf(dir, client.info.id)) != []
    requires var claims := MachineTokenClaims(client, GrantedScopes(RequestedScopes(scope), ClientService.ScopesOf(dir, client.info.id)),
                                              tokenId, nonce, nowMs);
             && RoundTrips(signer, claims) && ' ' !in signer.sign(claims)
             && StartsWith(signer.sign(claims), "eyJ") && users(signer.sign(claims)).None?
    ensures var s := GenerateClientCredentialsToken(signer, ledger, dir, client, scope, tokenId, nonce, nowMs, false, false);
            var header := BearerPrefix + s.result.value.accessToken;
            && RequireClientToken(signer, s.state, header, false).Next?
            && RequireAdmin(signer, s.state, users, header, false) == Halt(401, InvalidOrExpired, "")
            && RequireAuth(signer, s.state, users, header, false) == Halt(401, InvalidOrExpired, "")
  {
    var s := GenerateClientCredentialsToken(signer, ledger, dir, client, scope, tokenId, nonce, nowMs, false, false);
    var granted := GrantedScopes(RequestedScopes(scope), ClientService.ScopesOf(dir, client.info.id));
    var claims := MachineTokenClaims(client, granted, tokenId, nonce, nowMs);
    var token := s.result.value.accessToken;
    var header := BearerPrefix + token;
    BearerSchemeIsOneWord();
    SchemeCredentialOf(BearerScheme, token);
    assert VerifyToken(signer, s.state, token, false) == Ok(claims);
    assert StartsWith(header, UserTokenPrefix) by {
      assert header[..|UserTokenPrefix|] == BearerPrefix + token[..3];
    }
  }
}
