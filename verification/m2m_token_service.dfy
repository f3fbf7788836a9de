/**
  The machine-token service: the client-credentials grant mints a one-hour
  token for the intersection of the requested and allowed scopes and records
  its issuance; verification consults that record; revocation marks it and
  also notes the id in an in-memory map.
 */
module M2MTokenService {
  import opened Wrappers
  import opened Js
  import opened Jwt
  import opened ClientService

  const Issuer: string := "brand-platform-m2m"
  const ApiAudience: string := "api"

  /** One hour, in seconds: the lifetime of every machine token. */
  const MachineTokenLifetime: int := 60 * 60

  const NoValidScopes: string := "No valid scopes requested"
  const InvalidTokenPrefix: string := "Invalid token: "

  /** A row of `issued_tokens` (`expires_at` kept as epoch seconds). */
  datatype IssuedRecord = IssuedRecord(tokenId: string, clientId: string, scopes: seq<string>, expiresAt: int,
                                       revoked: bool)

  /** The issuance records keyed by token id, and the in-memory map of ids revoked by this process (id to revocation time). */
  datatype Ledger = Ledger(issued: map<string, IssuedRecord>, memory: map<string, int>)

  /** The grant's response body. */
  datatype TokenResponse = TokenResponse(accessToken: string, tokenType: string, expiresIn: int, scope: string)

  /** `scope.split(' ').filter(Boolean)` */
  function RequestedScopes(scope: string): (requested: seq<string>)
    ensures forall s :: s in requested ==> s != "" && ' ' !in s
  {
    NonEmpty(Split(scope, ' '))
  }

  /** Words separated by any run of spaces are requested in their order: the request splits at each space. */
  lemma {:induction false} RequestedScopesAppend(a: string, b: string)
    ensures RequestedScopes(a + " " + b) == RequestedScopes(a) + RequestedScopes(b)
  {
    SplitAppend(a, ' ', b);
    NonEmptyAppend(Split(a, ' '), Split(b, ' '));
  }

  /** A space-joined list of non-empty, space-free words is requested as exactly that list. */
  lemma {:induction false} RequestedScopesOfJoin(words: seq<string>)
    requires |words| >= 1
    requires forall i :: 0 <= i < |words| ==> words[i] != "" && ' ' !in words[i]
    ensures RequestedScopes(Join(words, ' ')) == words
  {
    SplitJoin(words, ' ');
  }

  /** `xs` is `ys` with some elements left out, the rest in order. */
  predicate Subsequence(xs: seq<string>, ys: seq<string>)
    decreases |ys|
  {
    if |xs| == 0 then true
    else if |ys| == 0 then false
    else (xs[0] == ys[0] && Subsequence(xs[1..], ys[1..])) || Subsequence(xs, ys[1..])
  }

  /** `requested.filter(s => allowed.includes(s))` */
  function GrantedScopes(requested: seq<string>, allowed: seq<string>): (granted: seq<string>)
    ensures forall s :: s in granted <==> s in requested && s in allowed
    ensures Subsequence(granted, requested)
    ensures |granted| <= |requested|
    ensures (forall i :: 0 <= i < |requested| ==> requested[i] in allowed) ==> granted == requested
  {
    if |requested| == 0 then []
    else
      var rest := GrantedScopes(requested[1..], allowed);
      assert forall s :: s in requested <==> s == requested[0] || s in requested[1..];
      if requested[0] in allowed then [requested[0]] + rest
      else rest
  }

  /** Filtering a concatenated request filters each part, so repeats and order survive the grant. */
  lemma {:induction false} GrantedScopesAppend(a: seq<string>, b: seq<string>, allowed: seq<string>)
    ensures GrantedScopes(a + b, allowed) == GrantedScopes(a, allowed) + GrantedScopes(b, allowed)
  {
    if |a| > 0 {
      assert (a + b)[0] == a[0];
      assert (a + b)[1..] == a[1..] + b;
      GrantedScopesAppend(a[1..], b, allowed);
    } else {
      assert a + b == b;
    }
  }

  /** The claim set of a machine token for `client`, granted `granted`. */
  function MachineTokenClaims(client: ClientView, granted: seq<string>, tokenId: string, nonce: string, nowMs: int)
    : (c: MachineClaims)
    ensures c.iss == Issuer && c.aud == ApiAudience
    ensures c.sub == client.info.id && c.clientId == client.info.id && c.clientName == client.info.name
    ensures c.scope == Some(Join(granted, ' '))
    ensures c.iat * 1000 <= nowMs < c.iat * 1000 + 1000
    ensures c.exp == c.iat + MachineTokenLifetime
    ensures c.jti == tokenId && c.nonce == nonce
  {
    var issuedAt := Seconds(nowMs);
    MachineClaims(
      iss := Issuer,
      sub := client.info.id,
      aud := ApiAudience,
      clientId := client.info.id,
      clientName := client.info.name,
      scope := Some(Join(granted, ' ')),
      exp := issuedAt + MachineTokenLifetime,
      iat := issuedAt,
      jti := tokenId,
      nonce := nonce)
  }

  /**
    `generateClientCredentialsToken`. The allowed scopes are read from the
    directory at issuance (`scopeReadFails` is that read failing); the
    issuance record is written afterwards, and a failing write
    (`insertFails`) does not fail the grant.
   */
  function GenerateClientCredentialsToken(signer: Signer<MachineClaims>, ledger: Ledger, dir: Directory,
                                          client: ClientView, scope: string, tokenId: string, nonce: string,
                                          nowMs: int, scopeReadFails: bool, insertFails: bool)
    : (s: Step<TokenResponse, Ledger>)
    ensures scopeReadFails ==> s.result.Err? && s.state == ledger && s.result.error != NoValidScopes
    ensures !scopeReadFails && GrantedScopes(RequestedScopes(scope), ScopesOf(dir, client.info.id)) == [] ==>
              s == Step(Err(NoValidScopes), ledger)
    ensures s.result.Ok? ==>
              var granted := GrantedScopes(RequestedScopes(scope), ScopesOf(dir, client.info.id));
              var c := MachineTokenClaims(client, granted, tokenId, nonce, nowMs);
              && !scopeReadFails && |granted| > 0
              && s.result.value == TokenResponse(signer.sign(c), "Bearer", MachineTokenLifetime, Join(granted, ' '))
              && s.state.memory == ledger.memory
              && (insertFails ==> s.state.issued == ledger.issued)
              && (!insertFails ==> s.state.issued == ledger.issued[tokenId := IssuedRecord(tokenId, client.info.id, granted, c.exp, false)])
    ensures !scopeReadFails && GrantedScopes(RequestedScopes(scope), ScopesOf(dir, client.info.id)) != [] ==> s.result.Ok?
  {
    var requested := RequestedScopes(scope);
    if scopeReadFails then Step(Err("Error fetching client scopes: read failed"), ledger)
    else
      var granted := GrantedScopes(requested, ScopesOf(dir, client.info.id));
      if |granted| == 0 then Step(Err(NoValidScopes), ledger)
      else
        var c := MachineTokenClaims(client, granted, tokenId, nonce, nowMs);
        var token := signer.sign(c);
        var stored := if insertFails then ledger
                      else ledger.(issued := ledger.issued[tokenId := IssuedRecord(tokenId, client.info.id, granted, c.exp, false)]);
        Step(Ok(TokenResponse(token, "Bearer", MachineTokenLifetime, Join(granted, ' '))), stored)
  }

  /** The scope string of an issued token splits back into exactly the granted list. */
  lemma GrantedScopeRoundTrip(scope: string, allowed: seq<string>)
    requires GrantedScopes(RequestedScopes(scope), allowed) != []
    ensures var granted := GrantedScopes(RequestedScopes(scope), allowed);
            Split(Join(granted, ' '), ' ') == granted
  {
    var granted := GrantedScopes(RequestedScopes(scope), allowed);
    assert SeparatorFree(granted, ' ') by {
      forall i | 0 <= i < |granted| ensures ' ' !in granted[i] {
        assert granted[i] in granted;
      }
    }
    SplitJoin(granted, ' ');
  }

  /** Of two requested scopes, only the allowed one is granted. */
  lemma {:induction false} GrantDropsUnallowed(first: string, second: string, allowed: seq<string>)
    requires first != "" && second != "" && ' ' !in first && ' ' !in second
    requires first in allowed && second !in allowed
    ensures Join(GrantedScopes(RequestedScopes(first + [' '] + second), allowed), ' ') == first
  {
    SplitPrefix(first, ' ', second);
    SplitSingle(second, ' ');
    var pieces := Split(first + [' '] + second, ' ');
    assert pieces == [first, second];
    assert pieces[1..] == [second];
    assert [second][1..] == [];
    assert NonEmpty([second]) == [second];
    assert NonEmpty(pieces) == [first] + NonEmpty([second]);
    assert [first, second][1..] == [second];
    assert GrantedScopes([first, second], allowed) == [first] + GrantedScopes([second], allowed);
    assert GrantedScopes([second], allowed) == [];
  }

  /** Requesting one allowed single-word scope grants exactly that scope, and the grant succeeds. */
  lemma {:induction false} SingleScopeGrant(signer: Signer<MachineClaims>, ledger: Ledger, dir: Directory,
                                            client: ClientView, scope: string, tokenId: string, nonce: string,
                                            nowMs: int)
    requires scope != "" && ' ' !in scope && scope in ScopesOf(dir, client.info.id)
    ensures GrantedScopes(RequestedScopes(scope), ScopesOf(dir, client.info.id)) == [scope]
    ensures GenerateClientCredentialsToken(signer, ledger, dir, client, scope, tokenId, nonce, nowMs, false, false).result.Ok?
  {
    SplitSingle(scope, ' ');
    assert NonEmpty([scope]) == [scope] + NonEmpty([]);
    assert GrantedScopes([scope], ScopesOf(dir, client.info.id)) == [scope] + GrantedScopes([], ScopesOf(dir, client.info.id));
  }

  /** Asking for more than allowed yields only the allowed part: `api:read api:admin` against `{api:read, api:write}` is `api:read`. */
  lemma SupersetRequestScenario()
    ensures Join(GrantedScopes(RequestedScopes("api:read api:admin"), ["api:read", "api:write"]), ' ') == "api:read"
  {
    var read, admin := "api:read", "api:admin";
    assert ' ' !in read by { assert forall i | 0 <= i < |read| :: read[i] != ' '; }
    assert ' ' !in admin by { assert forall i | 0 <= i < |admin| :: admin[i] != ' '; }
    assert "api:read api:admin" == read + [' '] + admin;
    GrantDropsUnallowed(read, admin, ["api:read", "api:write"]);
  }

  /**
    `verifyToken`: the library check (public key, RS256, no audience), then
    the issuance record, which must be readable and present (`.single()`
    fails on a missing row) and not revoked. The in-memory map is not consulted.
   */
  function VerifyToken(signer: Signer<MachineClaims>, ledger: Ledger, token: string, lookupFails: bool)
    : (r: Result<MachineClaims>)
    ensures r.Ok? <==> && signer.verify(token).Valid? && !lookupFails
                       && signer.verify(token).claims.jti in ledger.issued
                       && !ledger.issued[signer.verify(token).claims.jti].revoked
    ensures r.Ok? ==> r.value == signer.verify(token).claims
    ensures r.Err? ==> StartsWith(r.error, InvalidTokenPrefix)
  {
    match signer.verify(token)
    case Rejected(e) => Err(InvalidTokenPrefix + e.message)
    case Valid(decoded) =>
      if lookupFails || decoded.jti !in ledger.issued then Err(InvalidTokenPrefix + "Token validation error: no issuance record")
      else if ledger.issued[decoded.jti].revoked then Err(InvalidTokenPrefix + "Token has been revoked")
      else Ok(decoded)
  }

  /** Verification does not look at the in-memory map. */
  lemma VerifyIgnoresMemory(signer: Signer<MachineClaims>, ledger: Ledger, memory: map<string, int>, token: string,
                            lookupFails: bool)
    ensures VerifyToken(signer, ledger.(memory := memory), token, lookupFails) == VerifyToken(signer, ledger, token, lookupFails)
  {
  }

  /**
    `revokeToken`: mark the issuance record (an id with no record updates no
    row and is not an error), then note the id in memory; a failing store call
    leaves both untouched.
   */
  function RevokeToken(ledger: Ledger, tokenId: string, updateFails: bool, nowMs: int): (r: Result<Ledger>)
    ensures r.Err? <==> tokenId == "" || updateFails
    ensures tokenId == "" ==> r == Err("Token ID is required")
    ensures r.Ok? ==> IsTokenRevokedInMemory(r.value, tokenId) && r.value.memory == ledger.memory[tokenId := nowMs]
    ensures r.Ok? ==> r.value.issued.Keys == ledger.issued.Keys
    ensures r.Ok? && tokenId in ledger.issued ==> r.value.issued[tokenId] == ledger.issued[tokenId].(revoked := true)
    ensures r.Ok? ==> forall id :: id in ledger.issued && id != tokenId ==> r.value.issued[id] == ledger.issued[id]
  {
    if tokenId == "" then Err("Token ID is required")
    else if updateFails then Err("Error revoking token: update failed")
    else
      var issued := if tokenId in ledger.issued then ledger.issued[tokenId := ledger.issued[tokenId].(revoked := true)]
                    else ledger.issued;
      Ok(Ledger(issued, ledger.memory[tokenId := nowMs]))
  }

  /** `isTokenRevokedInMemory` */
  predicate IsTokenRevokedInMemory(ledger: Ledger, tokenId: string) {
    tokenId in ledger.memory
  }

  /**
    An id noted in memory stays there: neither a later revocation nor a grant
    removes it, since nothing in the service ever deletes from the map.
   */
  lemma MemoryRevocationPersists(signer: Signer<MachineClaims>, ledger: Ledger, tokenId: string, other: string,
                                 nowMs: int, dir: Directory, client: ClientView, scope: string, newId: string,
                                 nonce: string, insertFails: bool)
    requires IsTokenRevokedInMemory(ledger, tokenId)
    ensures other != "" ==> IsTokenRevokedInMemory(RevokeToken(ledger, other, false, nowMs).value, tokenId)
    ensures IsTokenRevokedInMemory(
              GenerateClientCredentialsToken(signer, ledger, dir, client, scope, newId, nonce, nowMs, false, insertFails).state,
              tokenId)
  {
  }

  /** A token minted with its record stored verifies to exactly its claims. */
  lemma IssueThenVerify(signer: Signer<MachineClaims>, ledger: Ledger, dir: Directory, client: ClientView, scope: string,
                        tokenId: string, nonce: string, nowMs: int)
    requires GrantedScopes(RequestedScopes(scope), ScopesOf(dir, client.info.id)) != []
    requires var granted := GrantedScopes(RequestedScopes(scope), ScopesOf(dir, client.info.id));
             RoundTrips(signer, MachineTokenClaims(client, granted, tokenId, nonce, nowMs))
    ensures var s := GenerateClientCredentialsToken(signer, ledger, dir, client, scope, tokenId, nonce, nowMs, false, false);
            var granted := GrantedScopes(RequestedScopes(scope), ScopesOf(dir, client.info.id));
            VerifyToken(signer, s.state, s.result.value.accessToken, false) == Ok(MachineTokenClaims(client, granted, tokenId, nonce, nowMs))
  {
  }

  /**
    A token whose issuance record could not be stored is still handed out,
    but never verifies: the record lookup finds no row.
   */
  lemma UnrecordedTokenNeverVerifies(signer: Signer<MachineClaims>, ledger: Ledger, dir: Directory, client: ClientView,
                                     scope: string, tokenId: string, nonce: string, nowMs: int)
    requires tokenId !in ledger.issued
    requires GrantedScopes(RequestedScopes(scope), ScopesOf(dir, client.info.id)) != []
    requires var granted := GrantedScopes(RequestedScopes(scope), ScopesOf(dir, client.info.id));
             RoundTrips(signer, MachineTokenClaims(client, granted, tokenId, nonce, nowMs))
    ensures var s := GenerateClientCredentialsToken(signer, ledger, dir, client, scope, tokenId, nonce, nowMs, false, true);
            s.result.Ok? && VerifyToken(signer, s.state, s.result.value.accessToken, false).Err?
  {
  }

  /** After a successful revocation of a recorded token, verification refuses it. */
  lemma RevokeThenVerifyFails(signer: Signer<MachineClaims>, ledger: Ledger, c: MachineClaims, nowMs: int)
    requires RoundTrips(signer, c) && c.jti != "" && c.jti in ledger.issued
    ensures var after := RevokeToken(ledger, c.jti, false, nowMs).value;
            VerifyToken(signer, after, signer.sign(c), false) == Err(InvalidTokenPrefix + "Token has been revoked")
  {
  }

  /** Revoking twice leaves the same records as revoking once; only the in-memory timestamp moves. */
  lemma RevokeIdempotent(ledger: Ledger, tokenId: string, firstMs: int, secondMs: int)
    requires tokenId != ""
    ensures var once := RevokeToken(ledger, tokenId, false, firstMs).value;
            var twice := RevokeToken(once, tokenId, false, secondMs).value;
            twice.issued == once.issued && twice.memory.Keys == once.memory.Keys
  {
  }
}
