/**
  The trading platform's request guards: the session cookie, permission and
  brand checks that run after it, and the CSRF token derived from a session.
 */
module PlatformMiddleware {
  import opened Wrappers
  import opened Js
  import opened Http

  /**
    The platform session, as serialised into the `platform_session` cookie.
    `""` stands for a string field that is absent, `[]` for absent permissions
    (every check the source makes treats the two alike).
   */
  datatype Session = Session(
    userId: string,
    email: Option<string>,
    firstName: Option<string>,
    lastName: Option<string>,
    brandId: string,
    platformId: string,
    permissions: seq<string>,
    walletId: string,
    sessionId: string,
    tokenId: string,
    createdAt: int)

  /** `JSON.parse` of the cookie text: nothing for text that is not JSON. */
  type SessionParser = string -> Option<Session>

  /** The fields `requirePlatformSession` insists on. */
  predicate Complete(s: Session) {
    s.userId != "" && s.brandId != "" && s.sessionId != ""
  }

  /** `requirePlatformSession`: three distinct 401s, otherwise the parsed session, unchanged. */
  function RequirePlatformSession(cookie: string, parse: SessionParser): (g: Gate<Session>)
    ensures cookie == "" ==> g == Halt(401, "Platform session required", "")
    ensures cookie != "" && parse(cookie).None? ==> g == Halt(401, "Invalid session format", "")
    ensures cookie != "" && parse(cookie).Some? && !Complete(parse(cookie).value) ==>
              g == Halt(401, "Invalid session data", "")
    ensures g.Next? <==> cookie != "" && parse(cookie).Some? && Complete(parse(cookie).value)
    ensures g.Next? ==> g.value == parse(cookie).value
  {
    if cookie == "" then Halt(401, "Platform session required", "")
    else match parse(cookie)
      case None => Halt(401, "Invalid session format", "")
      case Some(session) =>
        if !Complete(session) then Halt(401, "Invalid session data", "")
        else Next(session)
  }

  /** `requirePermissions(required)`: every required permission must be held. */
  function RequirePermissions(required: seq<string>, session: Option<Session>): (g: Gate<Session>)
    ensures session.None? ==> g == Halt(401, "Platform session required", "")
    ensures session.Some? ==>
              (g.Next? <==> forall p :: p in required ==> p in session.value.permissions)
    ensures session.Some? && !g.Next? ==> g == Halt(403, "Insufficient permissions", "")
    ensures g.Next? ==> g.value == session.value
  {
    match session
    case None => Halt(401, "Platform session required", "")
    case Some(s) =>
      if !IncludesAll(s.permissions, required) then Halt(403, "Insufficient permissions", "")
      else Next(s)
  }

  /** With nothing required, any session passes. */
  lemma NoRequiredPermissionsPass(s: Session)
    ensures RequirePermissions([], Some(s)) == Next(s)
  {
  }

  /** `requireBrand(whitelist)`: the session's brand must be an element of the whitelist. */
  function RequireBrand(whitelist: seq<string>, session: Option<Session>): (g: Gate<Session>)
    ensures session.None? ==> g == Halt(401, "Platform session required", "")
    ensures session.Some? ==> (g.Next? <==> session.value.brandId in whitelist)
    ensures session.Some? && !g.Next? ==> g == Halt(403, "Brand is not authorized", "")
    ensures g.Next? ==> g.value == session.value
  {
    match session
    case None => Halt(401, "Platform session required", "")
    case Some(s) =>
      if s.brandId !in whitelist then Halt(403, "Brand is not authorized", "")
      else Next(s)
  }

  /** A keyed hash: `createHmac('sha256', key).update(message).digest('hex')`. */
  type Hmac = (string, string) -> string

  ghost predicate InjectiveInMessage(hmac: Hmac, key: string) {
    forall m1, m2 {:trigger hmac(key, m1), hmac(key, m2)} :: hmac(key, m1) == hmac(key, m2) ==> m1 == m2
  }

  const DefaultCsrfSecret: string := "default-csrf-secret"

  /** The HMAC key: `CSRF_SECRET` when set, else the built-in default. */
  function CsrfSecret(env: string): (key: string)
    ensures key != ""
    ensures env != "" ==> key == env
  {
    OrElse(env, DefaultCsrfSecret)
  }

  /** `generateCsrfToken`: the keyed hash of the session id followed directly by the user id. */
  function GenerateCsrfToken(hmac: Hmac, key: string, s: Session): (token: string)
    ensures InjectiveInMessage(hmac, key) ==> forall m :: hmac(key, m) == token <==> m == s.sessionId + s.userId
  {
    hmac(key, s.sessionId + s.userId)
  }

  /**
    With `CSRF_SECRET` unset the key is the public default, so a session's
    token is the keyed hash of its two ids under a key anyone can read: anyone
    who knows the ids can compute it.
   */
  lemma UnsetCsrfSecretIsPublic(hmac: Hmac, s: Session)
    ensures GenerateCsrfToken(hmac, CsrfSecret(""), s) == hmac("default-csrf-secret", s.sessionId + s.userId)
  {
  }

  /** The token depends on the two ids only through their concatenation. */
  lemma CsrfDependsOnConcatenation(hmac: Hmac, key: string, s1: Session, s2: Session)
    requires s1.sessionId + s1.userId == s2.sessionId + s2.userId
    ensures GenerateCsrfToken(hmac, key, s1) == GenerateCsrfToken(hmac, key, s2)
  {
  }

  /** Equal strings with equal endings have equal beginnings. */
  lemma AppendCancel(a: string, b: string, c: string)
    requires a + c == b + c
    ensures a == b
  {
    assert |a| == |b|;
    assert a == (a + c)[..|a|];
    assert b == (b + c)[..|b|];
  }

  /** The same user in two sessions gets two tokens, when the hash is injective. */
  lemma CsrfSeparatesSessions(hmac: Hmac, key: string, s1: Session, s2: Session)
    requires InjectiveInMessage(hmac, key)
    requires s1.userId == s2.userId && s1.sessionId != s2.sessionId
    ensures GenerateCsrfToken(hmac, key, s1) != GenerateCsrfToken(hmac, key, s2)
  {
    if s1.sessionId + s1.userId == s2.sessionId + s2.userId {
      AppendCancel(s1.sessionId, s2.sessionId, s1.userId);
    }
  }

  /**
    Without a separator the pair boundary is lost: session "ab" of user "c"
    and session "a" of user "bc" share a token under any hash.
   */
  lemma CsrfBoundaryCollision(hmac: Hmac, key: string, s: Session)
    ensures GenerateCsrfToken(hmac, key, s.(sessionId := "ab", userId := "c"))
         == GenerateCsrfToken(hmac, key, s.(sessionId := "a", userId := "bc"))
  {
    assert "ab" + "c" == "a" + "bc";
  }

  /** The methods `verifyCsrf` lets through unchecked. */
  predicate SafeMethod(verb: string) {
    verb == "GET" || verb == "HEAD" || verb == "OPTIONS"
  }

  /** `verifyCsrf`: the `x-csrf-token` header if present, else the body's `_csrf`, must equal the session's token. */
  function VerifyCsrf(hmac: Hmac, key: string, verb: string, session: Option<Session>, headerToken: string,
                      bodyToken: string): (g: Gate<()>)
    ensures SafeMethod(verb) ==> g.Next?
    ensures !SafeMethod(verb) && session.None? ==> g == Halt(401, "Platform session required", "")
    ensures !SafeMethod(verb) && session.Some? ==>
              var presented := if headerToken != "" then headerToken else bodyToken;
              (g.Next? <==> presented != "" && presented == GenerateCsrfToken(hmac, key, session.value))
    ensures !SafeMethod(verb) && session.Some? && !g.Next? ==> g == Halt(403, "Invalid CSRF token", "")
  {
    if SafeMethod(verb) then Next(())
    else match session
      case None => Halt(401, "Platform session required", "")
      case Some(s) =>
        var csrfToken := OrElse(headerToken, bodyToken);
        if csrfToken == "" || csrfToken != GenerateCsrfToken(hmac, key, s) then Halt(403, "Invalid CSRF token", "")
        else Next(())
  }

  /**
    The token handed out for a session is accepted on a state-changing request,
    in the header or, with no header, in the body; a different header wins over
    a correct body token and the request is refused.
   */
  lemma CsrfRoundTrip(hmac: Hmac, key: string, verb: string, s: Session, other: string)
    requires GenerateCsrfToken(hmac, key, s) != ""
    requires other != "" && other != GenerateCsrfToken(hmac, key, s)
    ensures VerifyCsrf(hmac, key, verb, Some(s), GenerateCsrfToken(hmac, key, s), other).Next?
    ensures VerifyCsrf(hmac, key, verb, Some(s), "", GenerateCsrfToken(hmac, key, s)).Next?
    ensures !SafeMethod(verb) ==>
              VerifyCsrf(hmac, key, verb, Some(s), other, GenerateCsrfToken(hmac, key, s)) == Halt(403, "Invalid CSRF token", "")
  {
  }
}
