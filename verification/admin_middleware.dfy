/**
  The second pair of guards in the machine-auth service: `adminAuth`, which
  compares the Bearer token with a configured static admin token, and
  `scopeAuth(requiredScopes)`, which verifies a machine token and demands
  every listed scope.
 */
module AdminMiddleware {
  import opened Wrappers
  import opened Js
  import opened Jwt
  import opened Http
  import opened M2MTokenService
  import opened M2MMiddleware

  /** The development fallback when `ADMIN_TOKEN` is unset or empty. */
  const DefaultAdminToken: string := "dev-admin-token"

  /** `process.env.ADMIN_TOKEN || 'dev-admin-token'` */
  function AdminToken(env: string): (t: string)
    ensures t != ""
    ensures env != "" ==> t == env
  {
    OrElse(env, DefaultAdminToken)
  }

  /** The fixed identity `verifyAdminToken` hands out. */
  datatype AdminIdentity = AdminIdentity(role: string, id: string, name: string)

  const SystemAdministrator: AdminIdentity := AdminIdentity("admin", "admin", "System Administrator")

  /** `verifyAdminToken` */
  function VerifyAdminToken(adminToken: string, token: string): (r: Result<AdminIdentity>)
    ensures r.Ok? <==> token == adminToken
    ensures r.Ok? ==> r.value == SystemAdministrator
    ensures r.Err? ==> r.error == "Invalid admin token"
  {
    if token == adminToken then Ok(SystemAdministrator) else Err("Invalid admin token")
  }

  const Unauthorized: string := "Unauthorized"
  const BadHeader: string := "Missing or invalid authorization header"

  /** `adminAuth` */
  function AdminAuth(adminToken: string, authorization: string): (g: Gate<AdminIdentity>)
    ensures !IsBearer(authorization) ==> g == Halt(401, Unauthorized, BadHeader)
    ensures g.Next? <==> IsBearer(authorization) && BearerToken(authorization) == adminToken
    ensures g.Next? ==> g.value == SystemAdministrator
    ensures IsBearer(authorization) && g.Halt? ==> g == Halt(401, Unauthorized, "Invalid admin token")
  {
    if !IsBearer(authorization) then Halt(401, Unauthorized, BadHeader)
    else match VerifyAdminToken(adminToken, BearerToken(authorization))
      case Ok(admin) => Next(admin)
      case Err(_) => Halt(401, Unauthorized, "Invalid admin token")
  }

  /** The configured admin token, sent as `Bearer <token>`, is let through; a space-free token is never cut short. */
  lemma AdminTokenAdmitted(env: string)
    requires ' ' !in AdminToken(env)
    ensures AdminAuth(AdminToken(env), BearerPrefix + AdminToken(env)) == Next(SystemAdministrator)
  {
    BearerSchemeIsOneWord();
    SchemeCredentialOf(BearerScheme, AdminToken(env));
  }

  /** With `ADMIN_TOKEN` unset, the well-known development token opens every admin route. */
  lemma UnsetAdminTokenAdmitsDefault()
    ensures AdminAuth(AdminToken(""), BearerPrefix + DefaultAdminToken) == Next(SystemAdministrator)
  {
    assert ' ' !in DefaultAdminToken by {
      assert forall i | 0 <= i < |DefaultAdminToken| :: DefaultAdminToken[i] != ' ';
    }
    AdminTokenAdmitted("");
  }

  /** `requiredScopes.join(', ')` */
  function Listed(required: seq<string>): string {
    if |required| == 0 then ""
    else if |required| == 1 then required[0]
    else required[0] + ", " + Listed(required[1..])
  }

  /**
    `scopeAuth(requiredScopes)`. An absent list is `[]`. With a non-empty list
    and a token without a `scope` claim, `decoded.scope.split` throws a
    `TypeError` inside the `try`, which lands in the same 401 as a failed verification.
   */
  function ScopeAuth(signer: Signer<MachineClaims>, ledger: Ledger, required: seq<string>, authorization: string,
                     lookupFails: bool)
    : (g: Gate<MachineClaims>)
    ensures !IsBearer(authorization) ==> g == Halt(401, Unauthorized, BadHeader)
    ensures g.Next? <==>
              && IsBearer(authorization)
              && VerifyToken(signer, ledger, BearerToken(authorization), lookupFails).Ok?
              && var decoded := VerifyToken(signer, ledger, BearerToken(authorization), lookupFails).value;
                 |required| == 0 || (decoded.scope.Some? && IncludesAll(Split(decoded.scope.value, ' '), required))
    ensures g.Next? ==> g.value == VerifyToken(signer, ledger, BearerToken(authorization), lookupFails).value
    ensures g.Halt? && g.status == 403 ==> g == Halt(403, "Forbidden", "Insufficient scope. Required: " + Listed(required))
    ensures g.Halt? && g.status != 403 ==> g.status == 401 && g.error == Unauthorized
    ensures IsBearer(authorization) && VerifyToken(signer, ledger, BearerToken(authorization), lookupFails).Err? ==>
              g == Halt(401, Unauthorized, InvalidTokenPrefix + VerifyToken(signer, ledger, BearerToken(authorization), lookupFails).error)
  {
    if !IsBearer(authorization) then Halt(401, Unauthorized, BadHeader)
    else match VerifyToken(signer, ledger, BearerToken(authorization), lookupFails)
      case Err(e) => Halt(401, Unauthorized, InvalidTokenPrefix + e)
      case Ok(decoded) =>
        if |required| == 0 then Next(decoded)
        else if decoded.scope.None? then
          Halt(401, Unauthorized, InvalidTokenPrefix + "Cannot read properties of undefined (reading 'split')")
        else if !IncludesAll(Split(decoded.scope.value, ' '), required) then
          Halt(403, "Forbidden", "Insufficient scope. Required: " + Listed(required))
        else Next(decoded)
  }

  /**
    For one required scope and a token with a non-empty `scope` claim,
    `scopeAuth([s])` lets a request through exactly when `requireClientToken`
    followed by `requireScope(s)` does.
   */
  lemma ScopeGuardsAgree(signer: Signer<MachineClaims>, ledger: Ledger, authorization: string, lookupFails: bool,
                         required: string)
    requires IsBearer(authorization)
    requires var v := VerifyToken(signer, ledger, BearerToken(authorization), lookupFails);
             v.Ok? ==> v.value.scope.Some? && v.value.scope.value != ""
    ensures var attached := RequireClientToken(signer, ledger, authorization, lookupFails);
            ScopeAuth(signer, ledger, [required], authorization, lookupFails).Next?
            <==> attached.Next? && RequireScope(Some(attached.value), required).Next?
  {
    assert forall x :: x in [required] <==> x == required;
  }

  /**
    The guards part ways on a verified token that carries no `scope` claim:
    `scopeAuth` answers 401 where `requireScope` answers 403.
   */
  lemma ScopelessTokenGuardsDisagree(signer: Signer<MachineClaims>, ledger: Ledger, authorization: string,
                                     required: string)
    requires IsBearer(authorization)
    requires var v := VerifyToken(signer, ledger, BearerToken(authorization), false);
             v.Ok? && v.value.scope.None?
    ensures ScopeAuth(signer, ledger, [required], authorization, false).status == 401
    ensures var attached := RequireClientToken(signer, ledger, authorization, false);
            attached.Next? && RequireScope(Some(attached.value), required).status == 403
  {
  }
}
