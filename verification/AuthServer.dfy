// The token service with every request as one step: the grants and rotation of
// internal/api/oauth_token.go, the issuing paths of internal/api/otp.go and
// internal/api/passkeys_auth.go, revocation and introspection.

module AuthServer {
  import opened Wrappers
  import opened TtlStore
  import opened Scopes
  import opened Clients
  import Denylist
  import Otp
  import Passkeys
  import AuthCode
  import Runs

  const ISSUER := "komodo-auth-api"
  const USER_AUDIENCE := "komodo-apis:user"
  const SERVICE_AUDIENCE := "komodo-apis:service"
  const OTP_SCOPE := "otp:verified"
  const PASSKEY_SCOPE := "passkey:verified"

  const ACCESS_TTL: nat := 3600
  const REFRESH_TTL: nat := 2_592_000
  const USER_TTL: nat := 1800
  const SERVICE_TTL: nat := 30

  /** The claims that matter here; every token names one audience. */
  datatype Claims = Claims(
    issuer: string, jti: Id, subject: string, audience: seq<string>, azp: string, family: Id, scopes: seq<string>,
    exp: Time, iat: Time, notBefore: Time)

  /** Why a token exists: the history of an issued token. */
  datatype Origin =
    | OtpLogin(email: string, userId: string)
    | PasskeyLogin(challenge: string, session: LoginSession)
    | ClientGrant(requested: Option<string>, allowed: seq<string>)
    | CodeGrant(code: string, entry: AuthCodeEntry)
    | ServiceCall
    | Rotated(parent: nat)

  datatype Kind = Access | Refresh

  datatype Token = Token(claims: Claims, kind: Kind, origin: Origin)

  /** All tokens ever signed, in order.  A token is presented by its position:
      nothing that this service did not sign passes the signature check. */
  datatype Server = Server(store: Store, directory: Directory, tokens: seq<Token>, nextId: nat)

  /** Library functions and switches fixed for a run. */
  datatype Setup = Setup(hash: string -> string, s256: string -> string, codeGrant: bool)

  function WholeSeconds(t: Time): Time {
    t / SECOND * SECOND
  }

  /** Signs one token: a fresh jti, and times cut to the second. */
  function Sign(s: Server, kind: Kind, origin: Origin, subject: string, audience: string, azp: string, family: Id,
                ttl: nat, scopes: seq<string>): Server
  {
    var now := s.store.now;
    var claims := Claims(ISSUER, Id(s.nextId), subject, [audience], azp, family, scopes,
                         WholeSeconds(now + ttl * SECOND), WholeSeconds(now), WholeSeconds(now));
    s.(tokens := s.tokens + [Token(claims, kind, origin)], nextId := s.nextId + 1)
  }

  /** What a failed signature leaves behind: n ids drawn for nothing. */
  function Burn(s: Server, n: nat): Server {
    s.(nextId := s.nextId + n)
  }

  /** Whether the signatures of a request succeed. */
  datatype Signing = Signing(access: bool, refresh: bool)

  function SignAccess(s: Server, origin: Origin, subject: string, audience: string, ttl: nat,
                      scopes: seq<string>): Server
  {
    Sign(s, Access, origin, subject, audience, "", NoId, ttl, scopes)
  }

  /** A refresh token of a family of its own. */
  function SignFirstRefresh(s: Server, origin: Origin, subject: string, audience: string, azp: string,
                            scopes: seq<string>): Server
  {
    Sign(s.(nextId := s.nextId + 1), Refresh, origin, subject, audience, azp, Id(s.nextId), REFRESH_TTL, scopes)
  }

  /** ParseClaims: the signature is ours, and the token is valid already and has not
      expired. */
  function Parse(s: Server, token: nat): Option<Claims> {
    if token < |s.tokens| && s.tokens[token].claims.notBefore <= s.store.now < s.tokens[token].claims.exp then
      Some(s.tokens[token].claims)
    else None
  }

  datatype Error =
    | MissingToken | MissingCredentials | BadCredentials | InvalidScope | ScopeNotPermitted
    | Unparseable | NotARefreshToken | OtherClient | Revoked | CheckUnavailable | Banned | AudienceNotPermitted
    | SigningFailed
    | OtpRefused(outcome: Otp.Outcome)
    | LoginRefused(login: Passkeys.LoginError)
    | CodeRefused(exchange: AuthCode.ExchangeError)

  /** Positions of the tokens handed out. */
  datatype Reply =
    | Denied(error: Error)
    | AccessOnly(access: nat)
    | Pair(access: nat, refresh: nat)

  // ---- client_credentials -----------------------------------------------------------

  /** `known` is the answer of the scope validator. */
  datatype ClientRequest = ClientRequest(
    clientId: string, clientSecret: string, scope: Option<string>, known: bool, signs: Signing)

  function ClientAudience(rec: ClientRecord): string {
    if |rec.allowedAudiences| == 1 then rec.allowedAudiences[0] else SERVICE_AUDIENCE
  }

  function ClientRefusal(u: Setup, s: Server, q: ClientRequest, plan: Plan): Option<Error> {
    var rec := Authenticate(s.directory, u.hash, q.clientId, q.clientSecret);
    if q.clientId == "" || q.clientSecret == "" then Some(MissingCredentials)
    else if rec.None? then Some(BadCredentials)
    else if plan.checked != "" && !q.known then Some(InvalidScope)
    else if plan.checked != "" && !Permits(rec.value.allowedScopes, plan.checked) then Some(ScopeNotPermitted)
    else None
  }

  /** The tokens of a client whose request was accepted. */
  function SignGranted(s: Server, q: ClientRequest, rec: ClientRecord, plan: Plan): (Server, Reply) {
    var origin := ClientGrant(q.scope, rec.allowedScopes);
    var s1 := SignAccess(s, origin, q.clientId, ClientAudience(rec), ACCESS_TTL,
                         if plan.fields == [] then [] else ServiceScopes(q.clientId, plan.fields));
    if !q.signs.access then (Burn(s, 1), Denied(SigningFailed))
    else if !plan.offline then (s1, AccessOnly(|s.tokens|))
    else if !q.signs.refresh then (Burn(s1, 2), Denied(SigningFailed))
    else
      (SignFirstRefresh(s1, origin, q.clientId, SERVICE_AUDIENCE, q.clientId, [OFFLINE] + plan.fields),
       Pair(|s.tokens|, |s.tokens| + 1))
  }

  function GrantPlan(u: Setup, s: Server, q: ClientRequest, plan: Plan): (Server, Reply) {
    var refusal := ClientRefusal(u, s, q, plan);
    if refusal.Some? then (s, Denied(refusal.value))
    else
      SignGranted(s, q, Redacted(s.directory[q.clientId]), plan)
  }

  function ClientCredentials(u: Setup, s: Server, q: ClientRequest): (Server, Reply) {
    GrantPlan(u, s, q, PlanOf(q.scope))
  }

  // ---- refresh_token ------------------------------------------------------------------

  datatype RefreshNet = RefreshNet(jti: Net, family: Net, storeFamily: Net, storeJti: Net)

  /** `given` says whether the request carries a refresh token at all, and `banned`
      is what the fail-open customer gate says if it is asked. */
  datatype RefreshRequest = RefreshRequest(
    given: bool, token: nat, clientId: string, clientSecret: string, banned: bool, net: RefreshNet, signs: Signing)

  /** The denylist checks, and the family entry a replay leaves behind. */
  function RevocationCheck(s: Store, c: Claims, net: RefreshNet): (Store, Option<Error>) {
    var revoked := Denylist.IsRevoked(s, c.jti, net.jti);
    if revoked.Failure? then (s, Some(CheckUnavailable))
    else if revoked.value then
      (if c.family.Id? then Denylist.StoreRevokedFamily(s, c.family, c.exp - s.now, net.storeFamily).0 else s,
       Some(Revoked))
    else
      var family := Denylist.IsFamilyRevoked(s, c.family, net.family);
      if family.Failure? then (s, Some(CheckUnavailable))
      else (s, if family.value then Some(Revoked) else None)
  }

  predicate IsUserSession(c: Claims) {
    c.azp != "" && c.azp != c.subject
  }

  function RefreshAudience(c: Claims): string {
    if |c.audience| > 0 then c.audience[0] else SERVICE_AUDIENCE
  }

  predicate AudiencePermitted(rec: ClientRecord, c: Claims) {
    IsUserSession(c)
    || RefreshAudience(c) in (if rec.allowedAudiences == [] then [SERVICE_AUDIENCE] else rec.allowedAudiences)
  }

  /** What a refreshed access token carries. */
  function RefreshedScopes(c: Claims, clientId: string): seq<string> {
    if IsUserSession(c) then [PASSKEY_SCOPE] else ServiceScopes(clientId, WithoutOffline(c.scopes))
  }

  predicate BanApplies(c: Claims, banned: bool) {
    banned && forall i :: 0 <= i < |c.scopes| ==> !IsServiceScope(c.scopes[i])
  }

  /** Checks up to the denylist. */
  function RefreshRefusal(u: Setup, s: Server, q: RefreshRequest): Option<Error> {
    if !q.given then Some(MissingToken)
    else if q.clientId == "" || q.clientSecret == "" then Some(MissingCredentials)
    else if Authenticate(s.directory, u.hash, q.clientId, q.clientSecret).None? then Some(BadCredentials)
    else if Parse(s, q.token).None? then Some(Unparseable)
    else if OFFLINE !in Parse(s, q.token).value.scopes then Some(NotARefreshToken)
    else if Parse(s, q.token).value.azp != q.clientId then Some(OtherClient)
    else None
  }

  function SignRotatedAccess(s: Server, q: RefreshRequest, c: Claims): Server {
    SignAccess(s, Rotated(q.token), c.subject, RefreshAudience(c), ACCESS_TTL, RefreshedScopes(c, q.clientId))
  }

  /** The new access and refresh token of a rotation. */
  function SignRotated(s: Server, q: RefreshRequest, c: Claims): Server {
    var s1 := SignRotatedAccess(s, q, c);
    var s2 := if c.family.NoId? then Burn(s1, 1) else s1;
    Sign(s2, Refresh, Rotated(q.token), c.subject, RefreshAudience(c), q.clientId,
         if c.family.NoId? then Id(s1.nextId) else c.family, REFRESH_TTL, c.scopes)
  }

  function RefreshGrant(u: Setup, s: Server, q: RefreshRequest): (Server, Reply) {
    var refusal := RefreshRefusal(u, s, q);
    if refusal.Some? then (s, Denied(refusal.value))
    else
      var c := s.tokens[q.token].claims;
      var (store, denied) := RevocationCheck(s.store, c, q.net);
      var s1 := s.(store := store);
      if denied.Some? then (s1, Denied(denied.value))
      else if BanApplies(c, q.banned) then (s1, Denied(Banned))
      else if !AudiencePermitted(Redacted(s.directory[q.clientId]), c) then (s1, Denied(AudienceNotPermitted))
      else if !q.signs.access then (Burn(s1, 1), Denied(SigningFailed))
      else if !q.signs.refresh then
        (Burn(SignRotatedAccess(s1, q, c), if c.family.NoId? then 2 else 1), Denied(SigningFailed))
      else
        var s2 := SignRotated(s1, q, c);
        (s2.(store := Denylist.StoreRevoked(s2.store, c.jti, c.exp - s2.store.now, q.net.storeJti).0),
         Pair(|s.tokens|, |s.tokens| + 1))
  }

  // ---- The other issuing paths ----------------------------------------------------------

  /** `raw` is the code as it was submitted. */
  function OtpVerify(s: Server, email: string, raw: string, lookup: Otp.Lookup, net: Otp.HandlerNet, signs: bool):
    (Server, Reply)
  {
    var (store, outcome) := Otp.VerifyRequest(s.store, email, TrimSpace(raw), lookup, net);
    var s1 := s.(store := store);
    if !outcome.Verified? then (s1, Denied(OtpRefused(outcome)))
    else if !signs then (Burn(s1, 1), Denied(SigningFailed))
    else
      (SignAccess(s1, OtpLogin(email, outcome.subject), outcome.subject, USER_AUDIENCE, USER_TTL, [OTP_SCOPE]),
       AccessOnly(|s.tokens|))
  }

  datatype BeginError =
    | BadEmail | NoClientId | UnknownClient | BeginUnavailable | UnknownAccount | NoPasskeys | BeginFailed

  /** What keeps a passkey login from beginning; `lookup` and `existing` are the
      user and the number of passkeys that the customer service answers. */
  function BeginRefusal(d: Directory, parses: bool, clientId: string, lookup: Otp.Lookup, existing: nat,
                        c: Passkeys.Ceremony): Option<BeginError>
  {
    if !parses then Some(BadEmail)
    else if clientId == "" then Some(NoClientId)
    else if Lookup(d, clientId).None? then Some(UnknownClient)
    else if !c.serviceToken || lookup.LookupFailed? then Some(BeginUnavailable)
    else if lookup.NoAccount? || lookup.userId == "" then Some(UnknownAccount)
    else if !c.listed then Some(BeginUnavailable)
    else if existing == 0 then Some(NoPasskeys)
    else if !c.valid then Some(BeginFailed)
    else None
  }

  /** Begins a passkey login for a user the customer service knows. */
  function PasskeyBegin(s: Server, challenge: string, session: LoginSession, net: Net): Server {
    if session.clientId == "" || Lookup(s.directory, session.clientId).None? || session.userId == "" then s
    else if net.Refused? then s
    else s.(store := s.store.Set(LoginSessionKey(challenge), Login(session), Passkeys.SESSION_TTL))
  }

  function PasskeyComplete(s: Server, challenge: string, c: Passkeys.Ceremony, banned: bool, net: Passkeys.LoginNet,
                           signs: Signing): (Server, Reply)
  {
    var (store, login) := Passkeys.LoginComplete(s.store, challenge, c, banned, net);
    var s1 := s.(store := store);
    if login.Failure? then (s1, Denied(LoginRefused(login.error)))
    else SignLogin(s1, challenge, login.value, signs)
  }

  function SignLogin(s: Server, challenge: string, session: LoginSession, signs: Signing): (Server, Reply) {
    var origin := PasskeyLogin(challenge, session);
    var s1 := SignAccess(s, origin, session.userId, USER_AUDIENCE, USER_TTL, [PASSKEY_SCOPE]);
    if !signs.access then (Burn(s, 1), Denied(SigningFailed))
    else if !signs.refresh then (Burn(s1, 2), Denied(SigningFailed))
    else
      (SignFirstRefresh(s1, origin, session.userId, USER_AUDIENCE, session.clientId, [OFFLINE]),
       Pair(|s.tokens|, |s.tokens| + 1))
  }

  function CodeExchange(u: Setup, s: Server, q: AuthCode.ExchangeRequest, banned: bool, net: AuthCode.ExchangeNet,
                        signs: Signing): (Server, Reply)
  {
    var (store, entry) := AuthCode.Exchange(u.codeGrant, u.s256, s.directory, s.store, q, net);
    var s1 := s.(store := store);
    if entry.Failure? then (s1, Denied(CodeRefused(entry.error)))
    else if banned then (s1, Denied(Banned))
    else SignExchanged(s1, q, entry.value, signs)
  }

  function SignExchanged(s: Server, q: AuthCode.ExchangeRequest, entry: AuthCodeEntry, signs: Signing):
    (Server, Reply)
  {
    var origin, scopes := CodeGrant(q.code, entry), Fields(entry.scope);
    var s1 := SignAccess(s, origin, entry.userId, USER_AUDIENCE, ACCESS_TTL, scopes);
    if !signs.access then (Burn(s, 1), Denied(SigningFailed))
    else if !signs.refresh then (Burn(s1, 2), Denied(SigningFailed))
    else
      (SignFirstRefresh(s1, origin, entry.userId, USER_AUDIENCE, q.clientId, [OFFLINE] + scopes),
       Pair(|s.tokens|, |s.tokens| + 1))
  }

  function ServiceToken(s: Server): Server {
    SignAccess(s, ServiceCall, ISSUER, SERVICE_AUDIENCE, SERVICE_TTL, ["svc:" + ISSUER])
  }

  // ---- Revocation and introspection -------------------------------------------------------

  datatype RevokeRequest = RevokeRequest(token: nat, clientId: string, clientSecret: string, net: Net)

  /** Who may revoke: a client its own tokens, and for a user's token the client
      it was issued to, or anybody if it names none. */
  predicate MayRevoke(d: Directory, c: Claims, clientId: string) {
    if c.subject in d then c.subject == clientId else c.azp == "" || c.azp == clientId
  }

  datatype RevokeReply = RevokeDenied(error: Error) | NothingToRevoke | RevokeStored | RevokeFailed

  function Revoke(u: Setup, s: Server, q: RevokeRequest): (Server, RevokeReply) {
    if q.clientId == "" || q.clientSecret == "" then (s, RevokeDenied(MissingCredentials))
    else if Authenticate(s.directory, u.hash, q.clientId, q.clientSecret).None? then (s, RevokeDenied(BadCredentials))
    else if Parse(s, q.token).None? || Parse(s, q.token).value.jti.NoId? then (s, NothingToRevoke)
    else
      var c := s.tokens[q.token].claims;
      if !MayRevoke(s.directory, c, q.clientId) then (s, RevokeDenied(OtherClient))
      else
        var (store, stored) := Denylist.StoreRevoked(s.store, c.jti, c.exp - s.store.now, q.net);
        (s.(store := store), if stored.Success? then RevokeStored else RevokeFailed)
  }

  /** The `active` answer of introspection, which goes on when the check fails. */
  predicate Active(s: Server, token: nat, net: Net) {
    Parse(s, token).Some? &&
    var jti := Parse(s, token).value.jti;
    jti.Id? && net.Fine? ==> !s.store.Live(RevokedJti(jti))
  }

  /** What introspection tells about a token; times in seconds. */
  datatype Introspection =
    | Inactive
    | Details(scope: Option<string>, clientId: string, subject: string, audience: Option<string>, expires: nat,
              issued: nat)

  function DetailsOf(c: Claims): Introspection {
    Details(if c.scopes == [] then None else Some(Join(c.scopes)), c.subject, c.subject,
            if c.audience == [] then None else Some(c.audience[0]), c.exp / SECOND, c.iat / SECOND)
  }

  function Introspect(s: Server, token: nat, net: Net): Introspection {
    if Active(s, token, net) then DetailsOf(s.tokens[token].claims) else Inactive
  }

  // ---- Runs -----------------------------------------------------------------------------

  datatype Action =
    | Tick(d: nat)
    | Client(request: ClientRequest)
    | Rotate(rotation: RefreshRequest)
    | OtpLogsIn(email: string, otp: string, lookup: Otp.Lookup, otpNet: Otp.HandlerNet, otpSigns: bool)
    | PasskeyBegins(challenge: string, session: LoginSession, beginNet: Net)
    | PasskeyLogsIn(
        assertion: string, ceremony: Passkeys.Ceremony, loginBanned: bool, loginNet: Passkeys.LoginNet,
            loginSigns: Signing)
    | Authorizes(query: AuthCode.AuthorizeRequest, code: string, authorizeNet: Net)
    | Exchanges(
        exchange: AuthCode.ExchangeRequest, userBanned: bool, exchangeNet: AuthCode.ExchangeNet, exchangeSigns: Signing)
    | CallsService
    | Revokes(revocation: RevokeRequest)
    | Reloads(directory: Directory)
    | Other(op: Op)

  function Step(u: Setup, s: Server, a: Action): Server {
    match a
    case Tick(d) => s.(store := s.store.Tick(d))
    case Client(q) => ClientCredentials(u, s, q).0
    case Rotate(q) => RefreshGrant(u, s, q).0
    case OtpLogsIn(email, otp, lookup, net, signs) => OtpVerify(s, email, otp, lookup, net, signs).0
    case PasskeyBegins(challenge, session, net) => PasskeyBegin(s, challenge, session, net)
    case PasskeyLogsIn(challenge, c, banned, net, signs) => PasskeyComplete(s, challenge, c, banned, net, signs).0
    case Authorizes(q, code, net) => s.(store := AuthCode.Authorize(u.codeGrant, s.directory, s.store, q, code, net).0)
    case Exchanges(q, banned, net, signs) => CodeExchange(u, s, q, banned, net, signs).0
    case CallsService => ServiceToken(s)
    case Revokes(q) => Revoke(u, s, q).0
    case Reloads(d) => s.(directory := d)
    case Other(op) => s.(store := Apply(s.store, op))
  }

  function Machine(u: Setup): (Server, Action) -> Server {
    (s, a) => Step(u, s, a)
  }

  function Run(u: Setup, s: Server, actions: seq<Action>): Server {
    Runs.Run(Machine(u), s, actions)
  }

  function Initial(d: Directory, now: Time): Server {
    Server(Store(map[], now), d, [], 0)
  }

  /** The rest of the service keeps its hands off the denylist, the login
      sessions and the authorization codes. */
  predicate Unrelated(a: Action) {
    a.Other? ==>
      var key := a.op.key;
      !key.RevokedJti? && !key.RevokedFamily? && !key.LoginSessionKey? && !key.AuthCodeKey?
  }
}
