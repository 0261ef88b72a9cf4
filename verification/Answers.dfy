// Which request gets which answer, in terms of the registered clients, the claims and
// the store: exactly when each succeeds, and what each refusal says.

module Answers {
  import opened Wrappers
  import opened TtlStore
  import opened Scopes
  import opened Clients
  import opened AuthServer
  import opened TokenHistory
  import opened Sessions
  import Steps
  import opened Provenance
  import AuthCode
  import Denylist
  import Otp
  import Passkeys

  // ---- client_credentials -----------------------------------------------------------------

  function Requested(scope: Option<string>): string {
    if scope.Some? then scope.value else ""
  }

  predicate WantsRefresh(scope: Option<string>) {
    OFFLINE in Fields(Requested(scope))
  }

  /** Something besides offline_access is asked for. */
  predicate WantsScope(scope: Option<string>) {
    if WantsRefresh(scope) then exists f :: f in Fields(Requested(scope)) && f != OFFLINE else Requested(scope) != ""
  }

  /** Everything else that is asked for is allowed to the client. */
  predicate MayHave(allowed: seq<string>, scope: Option<string>) {
    "*" in allowed || (allowed != [] && forall f :: f in Fields(Requested(scope)) && f != OFFLINE ==> f in allowed)
  }

  lemma PlanWants(scope: Option<string>, allowed: seq<string>)
    ensures var plan := PlanOf(scope);
            && plan.offline == WantsRefresh(scope)
            && (plan.checked != "" <==> WantsScope(scope))
            && (Permits(allowed, plan.checked) <==> MayHave(allowed, scope))
  {
    var fs := Fields(Requested(scope));
    PlanChecksWhatItSigns(scope);
    assert WithoutOffline(fs) != [] ==> WithoutOffline(fs)[0] in WithoutOffline(fs);
    forall f | f in fs && f != OFFLINE ensures f in WithoutOffline(fs) {}
  }

  /** Exactly which clients get tokens, and which get a refresh token. */
  lemma ClientGrantIff(u: Setup, s: Server, q: ClientRequest)
    ensures var r := ClientCredentials(u, s, q).1;
            && (!r.Denied? <==>
                  && KnowsSecret(u, s, q.clientId, q.clientSecret)
                  && (WantsScope(q.scope) ==> q.known && MayHave(s.directory[q.clientId].allowedScopes, q.scope))
                  && q.signs.access && (WantsRefresh(q.scope) ==> q.signs.refresh))
            && (r.Pair? ==> WantsRefresh(q.scope)) && (r.AccessOnly? ==> !WantsRefresh(q.scope))
  {
    PlanWants(q.scope, if q.clientId in s.directory then s.directory[q.clientId].allowedScopes else []);
    GrantAnswers(u, s, q, PlanOf(q.scope));
  }

  lemma GrantAnswers(u: Setup, s: Server, q: ClientRequest, plan: Plan)
    ensures var r := GrantPlan(u, s, q, plan).1;
            && (!r.Denied? <==>
                  && KnowsSecret(u, s, q.clientId, q.clientSecret)
                  && (plan.checked != "" ==>
                        q.known && Permits(s.directory[q.clientId].allowedScopes, plan.checked))
                  && q.signs.access && (plan.offline ==> q.signs.refresh))
            && (r.Pair? ==> plan.offline) && (r.AccessOnly? ==> !plan.offline)
            && (r.Denied? ==>
                  match r.error
                  case MissingCredentials => q.clientId == "" || q.clientSecret == ""
                  case BadCredentials =>
                    && q.clientId != "" && q.clientSecret != ""
                    && (q.clientId !in s.directory || u.hash(q.clientSecret) != s.directory[q.clientId].secretHash)
                  case InvalidScope =>
                    KnowsSecret(u, s, q.clientId, q.clientSecret) && plan.checked != "" && !q.known
                  case ScopeNotPermitted =>
                    && KnowsSecret(u, s, q.clientId, q.clientSecret) && plan.checked != "" && q.known
                    && !Permits(s.directory[q.clientId].allowedScopes, plan.checked)
                  case SigningFailed =>
                    && KnowsSecret(u, s, q.clientId, q.clientSecret)
                    && (!q.signs.access || (plan.offline && !q.signs.refresh))
                  case _ => false)
  {
  }

  /** What each refusal says about the request. */
  lemma ClientAnswersExplain(u: Setup, s: Server, q: ClientRequest)
    requires ClientCredentials(u, s, q).1.Denied?
    ensures match ClientCredentials(u, s, q).1.error
            case MissingCredentials => q.clientId == "" || q.clientSecret == ""
            case BadCredentials =>
              && q.clientId != "" && q.clientSecret != ""
              && (q.clientId !in s.directory || u.hash(q.clientSecret) != s.directory[q.clientId].secretHash)
            case InvalidScope => KnowsSecret(u, s, q.clientId, q.clientSecret) && WantsScope(q.scope) && !q.known
            case ScopeNotPermitted =>
              && KnowsSecret(u, s, q.clientId, q.clientSecret) && WantsScope(q.scope) && q.known
              && !MayHave(s.directory[q.clientId].allowedScopes, q.scope)
            case SigningFailed =>
              && KnowsSecret(u, s, q.clientId, q.clientSecret)
              && (!q.signs.access || (WantsRefresh(q.scope) && !q.signs.refresh))
            case _ => false
  {
    PlanWants(q.scope, if q.clientId in s.directory then s.directory[q.clientId].allowedScopes else []);
    GrantAnswers(u, s, q, PlanOf(q.scope));
  }

  /** For whom and for what a client's tokens are. */
  lemma ClientTokens(u: Setup, s: Server, q: ClientRequest)
    requires !ClientCredentials(u, s, q).1.Denied?
    ensures q.clientId in s.directory && |s.tokens| < |ClientCredentials(u, s, q).0.tokens|
    ensures var ts, n := ClientCredentials(u, s, q).0.tokens, |s.tokens|;
            var fields, allowed := WithoutOffline(Fields(Requested(q.scope))), s.directory[q.clientId].allowedAudiences;
            && ts[n].claims.subject == q.clientId
            && ts[n].claims.audience == (if |allowed| == 1 then allowed else ["komodo-apis:service"])
            && ts[n].claims.scopes == (if fields == [] then [] else fields + ["svc:" + q.clientId])
            && (WantsRefresh(q.scope) ==>
                  && |ts| == n + 2 && ts[n + 1].claims.subject == q.clientId == ts[n + 1].claims.azp
                  && ts[n + 1].claims.audience == ["komodo-apis:service"]
                  && ts[n + 1].claims.scopes == [OFFLINE] + fields)
  {
    PlanChecksWhatItSigns(q.scope);
    GrantTokens(u, s, q, PlanOf(q.scope));
  }

  lemma GrantTokens(u: Setup, s: Server, q: ClientRequest, plan: Plan)
    requires !GrantPlan(u, s, q, plan).1.Denied?
    ensures q.clientId in s.directory && |s.tokens| < |GrantPlan(u, s, q, plan).0.tokens|
    ensures var ts, n := GrantPlan(u, s, q, plan).0.tokens, |s.tokens|;
            var allowed := s.directory[q.clientId].allowedAudiences;
            && ts[n].claims.subject == q.clientId
            && ts[n].claims.audience == (if |allowed| == 1 then allowed else ["komodo-apis:service"])
            && ts[n].claims.scopes == (if plan.fields == [] then [] else plan.fields + ["svc:" + q.clientId])
            && (plan.offline ==>
                  && |ts| == n + 2 && ts[n + 1].claims.subject == q.clientId == ts[n + 1].claims.azp
                  && ts[n + 1].claims.audience == ["komodo-apis:service"]
                  && ts[n + 1].claims.scopes == [OFFLINE] + plan.fields)
  {
    var allowed := s.directory[q.clientId].allowedAudiences;
    assert |allowed| == 1 ==> [allowed[0]] == allowed;
  }

  // ---- refresh_token ------------------------------------------------------------------------

  /** The checks on a refresh in the order they are made, by the refusal of each. */
  function Stage(e: Error): nat {
    match e
    case MissingToken => 0
    case MissingCredentials => 1
    case BadCredentials => 2
    case Unparseable => 3
    case NotARefreshToken => 4
    case OtherClient => 5
    case CheckUnavailable => 6
    case Revoked => 6
    case Banned => 7
    case AudienceNotPermitted => 8
    case SigningFailed => 9
    case _ => 10
  }

  /** A request that is refused has passed the checks before, and what each refusal says. */
  lemma RefreshAnswersExplain(u: Setup, s: Server, q: RefreshRequest)
    requires Inv(s) && RefreshGrant(u, s, q).1.Denied?
    ensures var n := Stage(RefreshGrant(u, s, q).1.error);
            && (n > 0 ==> q.given) && (n > 1 ==> q.clientId != "" && q.clientSecret != "")
            && (n > 2 ==> KnowsSecret(u, s, q.clientId, q.clientSecret))
            && (n > 3 ==> q.token < |s.tokens| && s.store.now < s.tokens[q.token].claims.exp)
            && (n > 4 ==> OFFLINE in s.tokens[q.token].claims.scopes)
            && (n > 5 ==> s.tokens[q.token].claims.azp == q.clientId)
            && (n > 6 ==> q.net.jti.Fine? && q.net.family.Fine? && NotDenied(s.store, s.tokens[q.token].claims))
            && (n > 7 ==> q.banned ==> exists x :: x in s.tokens[q.token].claims.scopes && "svc:" <= x)
            && (n > 8 ==> OwnAudienceAllowed(s.directory[q.clientId], s.tokens[q.token].claims)) && n < 10
    ensures match RefreshGrant(u, s, q).1.error
            case MissingToken => !q.given
            case MissingCredentials => q.clientId == "" || q.clientSecret == ""
            case BadCredentials =>
              q.clientId !in s.directory || u.hash(q.clientSecret) != s.directory[q.clientId].secretHash
            case Unparseable => q.token < |s.tokens| ==> s.tokens[q.token].claims.exp <= s.store.now
            case NotARefreshToken => OFFLINE !in s.tokens[q.token].claims.scopes
            case OtherClient => s.tokens[q.token].claims.azp != q.clientId
            case Revoked =>
              && q.net.jti.Fine?
              && (s.store.Live(RevokedJti(s.tokens[q.token].claims.jti))
                  || (q.net.family.Fine? && s.store.Live(RevokedFamily(s.tokens[q.token].claims.family))))
            case CheckUnavailable =>
              || !q.net.jti.Fine?
              || (!q.net.family.Fine? && !s.store.Live(RevokedJti(s.tokens[q.token].claims.jti)))
            case Banned => q.banned && forall x :: x in s.tokens[q.token].claims.scopes ==> !("svc:" <= x)
            case AudienceNotPermitted => !OwnAudienceAllowed(s.directory[q.clientId], s.tokens[q.token].claims)
            case SigningFailed => !q.signs.access || !q.signs.refresh
            case _ => false
  {
    if q.token < |s.tokens| {
      assert TokenOk(s.tokens, q.token);
      BannedIff(s.tokens[q.token].claims, q.banned);
    }
  }

  // ---- Logins and codes -----------------------------------------------------------------------

  /** Exactly which submissions of a one-time password log in, and as whom. */
  lemma OtpLoginIff(s: Server, email: string, raw: string, lookup: Otp.Lookup, net: Otp.HandlerNet, signs: bool)
    ensures var (t, r) := OtpVerify(s, email, raw, lookup, net, signs);
            && (!r.Denied? <==>
                  && TrimSpace(raw) != "" && s.store.Get(OtpCode(email)) == Some(Text(TrimSpace(raw)))
                  && !s.store.Live(OtpRedeemed(email)) && !Otp.GateClosed(s.store, email, net.attempt)
                  && net.verify == Otp.VerifyNet(Fine, Fine, Fine) && lookup.Account? && signs)
            && (!r.Denied? ==>
                  && r == AccessOnly(|s.tokens|) && |t.tokens| == |s.tokens| + 1
                  && var c := t.tokens[|s.tokens|].claims;
                     c.subject == lookup.userId && c.scopes == ["otp:verified"] && c.audience == ["komodo-apis:user"])
            && (r.Denied? ==>
                  t.tokens == s.tokens
                  && if r.error.SigningFailed? then !signs
                     else r.error.OtpRefused?
                          && Otp.Explains(s.store, email, TrimSpace(raw), lookup, net, r.error.outcome))
  {
    Otp.VerifiedIff(s.store, email, TrimSpace(raw), lookup, net);
    Otp.AnswersExplain(s.store, email, TrimSpace(raw), lookup, net);
  }

  /** Exactly which completions of a passkey login get tokens, and for whom. */
  lemma PasskeyLoginIff(s: Server, challenge: string, c: Passkeys.Ceremony, banned: bool, net: Passkeys.LoginNet,
                        signs: Signing)
    ensures var (t, r) := PasskeyComplete(s, challenge, c, banned, net, signs);
            && (!r.Denied? <==>
                  && Passkeys.WinsClaim(s.store, challenge, c, net) && c.remote.Fine? && !banned
                  && signs.access && signs.refresh)
            && (!r.Denied? ==>
                  && r == Pair(|s.tokens|, |s.tokens| + 1) && |t.tokens| == |s.tokens| + 2
                  && var session, access, refresh := s.store.entries[LoginSessionKey(challenge)].value.session,
                       t.tokens[|s.tokens|].claims, t.tokens[|s.tokens| + 1].claims;
                     && access.subject == refresh.subject == session.userId && refresh.azp == session.clientId
                     && access.audience == refresh.audience == ["komodo-apis:user"]
                     && access.scopes == ["passkey:verified"] && refresh.scopes == [OFFLINE])
            && (r.Denied? && !r.error.SigningFailed? ==> t.tokens == s.tokens && r.error.LoginRefused?)
  {
    Passkeys.LoginIff(s.store, challenge, c, banned, net);
  }

  /** Which passkey logins can begin, and what each refusal says. */
  lemma PasskeyBeginIff(d: Directory, parses: bool, clientId: string, lookup: Otp.Lookup, existing: nat,
                        c: Passkeys.Ceremony)
    ensures var e := BeginRefusal(d, parses, clientId, lookup, existing, c);
            && (e.None? <==>
                  && parses && clientId != "" && clientId in d && c.serviceToken
                  && lookup.Account? && lookup.userId != "" && c.listed && existing > 0 && c.valid)
            && (e.Some? ==>
                  match e.value
                  case BadEmail => !parses
                  case NoClientId => parses && clientId == ""
                  case UnknownClient => parses && clientId != "" && clientId !in d
                  case BeginUnavailable =>
                    parses && clientId in d && (!c.serviceToken || lookup.LookupFailed? || !c.listed)
                  case UnknownAccount =>
                    parses && clientId in d && c.serviceToken && (lookup.NoAccount? || lookup == Otp.Account(""))
                  case NoPasskeys => parses && clientId in d && c.listed && lookup.Account? && existing == 0
                  case BeginFailed => parses && clientId in d && c.listed && existing > 0 && !c.valid)
  {
  }

  /** A begun login is stored for five minutes. */
  lemma PasskeyBeginStores(s: Server, challenge: string, session: LoginSession, net: Net)
    requires session.clientId != "" && session.clientId in s.directory && session.userId != "" && !net.Refused?
    ensures PasskeyBegin(s, challenge, session, net) ==
            s.(store := s.store.Set(LoginSessionKey(challenge), Login(session), 300))
  {
  }

  /** Exactly which exchanges of a code get tokens, and for whom. */
  lemma CodeExchangeIff(u: Setup, s: Server, q: AuthCode.ExchangeRequest, banned: bool, net: AuthCode.ExchangeNet,
                        signs: Signing)
    ensures var (t, r) := CodeExchange(u, s, q, banned, net, signs);
            var key := AuthCodeKey(q.code);
            && (!r.Denied? <==>
                  && u.codeGrant && q.code != "" && q.verifier != "" && q.redirectUri != "" && q.clientId != ""
                  && q.clientId in s.directory && net.get.Fine? && s.store.Live(key)
                  && (var v := s.store.entries[key].value;
                      && v.AuthCode? && v.entry.clientId == q.clientId && v.entry.redirectUri == q.redirectUri
                      && v.entry.codeChallenge == u.s256(q.verifier))
                  && !banned && signs.access && signs.refresh)
            && (!r.Denied? ==>
                  && r == Pair(|s.tokens|, |s.tokens| + 1) && |t.tokens| == |s.tokens| + 2
                  && var entry, access, refresh := s.store.entries[key].value.entry,
                       t.tokens[|s.tokens|].claims, t.tokens[|s.tokens| + 1].claims;
                     && access.subject == refresh.subject == entry.userId && refresh.azp == entry.clientId
                     && access.audience == refresh.audience == ["komodo-apis:user"]
                     && access.scopes == Fields(entry.scope) && refresh.scopes == [OFFLINE] + Fields(entry.scope))
            && (r.Denied? && !r.error.SigningFailed? ==> t.tokens == s.tokens)
            && (r.Denied? && r.error.Banned? ==> banned)
  {
    AuthCode.ExchangedIff(u.codeGrant, u.s256, s.directory, s.store, q, net);
  }

  // ---- Revocation --------------------------------------------------------------------------------

  /** Who may revoke: a registered client its own tokens and nobody else those; any other
      token the client it names, or any client if it names none. */
  lemma RevokedIff(u: Setup, s: Server, q: RevokeRequest)
    requires Inv(s) && KnowsSecret(u, s, q.clientId, q.clientSecret)
    requires q.token < |s.tokens| && s.store.now < s.tokens[q.token].claims.exp
    ensures var c, (t, r) := s.tokens[q.token].claims, Revoke(u, s, q);
            if (c.subject in s.directory && c.subject == q.clientId)
               || (c.subject !in s.directory && (c.azp == "" || c.azp == q.clientId))
            then
              && r == (if q.net.Fine? then RevokeStored else RevokeFailed)
              && t == (if q.net.Refused? then s
                       else s.(store := s.store.Set(RevokedJti(c.jti), Sentinel, Denylist.TtlOf(c.exp - s.store.now))))
            else r == RevokeDenied(OtherClient) && t == s
  {
    assert TokenOk(s.tokens, q.token);
  }

  /** The other requests change nothing. */
  lemma RevokeRefusals(u: Setup, s: Server, q: RevokeRequest)
    ensures !KnowsSecret(u, s, q.clientId, q.clientSecret) ==>
              Revoke(u, s, q) == (s, RevokeDenied(if q.clientId == "" || q.clientSecret == "" then MissingCredentials
                                                  else BadCredentials))
    ensures KnowsSecret(u, s, q.clientId, q.clientSecret)
            && (q.token < |s.tokens| ==> s.tokens[q.token].claims.exp <= s.store.now) ==>
              Revoke(u, s, q) == (s, NothingToRevoke)
  {
  }

  /** Over every run, a token of a client_credentials grant that has not expired can be
      revoked by the client it was issued to, and by no other one, as long as that client
      is registered. */
  lemma ClientsRevokeTheirOwn(u: Setup, d: Directory, now: Time, actions: seq<Action>, q: RevokeRequest)
    returns (j: nat)
    requires forall a :: a in actions ==> Unrelated(a)
    requires var s := Run(u, Initial(d, now), actions);
             && q.token < |s.tokens| && s.tokens[q.token].origin.ClientGrant?
             && s.store.now < s.tokens[q.token].claims.exp && s.tokens[q.token].claims.subject in s.directory
             && KnowsSecret(u, s, q.clientId, q.clientSecret) && q.net.Fine?
    ensures j < |actions| && actions[j].Client?
    ensures |Run(u, Initial(d, now), actions[..j]).tokens| <= q.token
    ensures q.token < |Run(u, Initial(d, now), actions[..j + 1]).tokens|
    ensures Revoke(u, Run(u, Initial(d, now), actions), q).1 ==
            if q.clientId == actions[j].request.clientId then RevokeStored else RevokeDenied(OtherClient)
  {
    InvRun(u, d, now, actions);
    RevokedIff(u, Run(u, Initial(d, now), actions), q);
    j := ClientTokensNeededTheSecret(u, d, now, actions, q.token);
  }

  // ---- Introspection -------------------------------------------------------------------------------

  /** The tokens that the step signs name the issuer and are stamped with its time. */
  predicate Stamped(s: Server, t: Server) {
    s.tokens <= t.tokens &&
    forall i :: |s.tokens| <= i < |t.tokens| ==>
      var c := t.tokens[i].claims;
      && c.issuer == "komodo-auth-api" && c.iat == WholeSeconds(s.store.now) == c.notBefore
      && c.exp == WholeSeconds(s.store.now + Steps.LifetimeOf(t.tokens[i]) * SECOND)
  }

  lemma ClientStamps(u: Setup, s: Server, q: ClientRequest, plan: Plan)
    ensures Stamped(s, GrantPlan(u, s, q, plan).0)
  {
  }

  lemma RotationStamps(u: Setup, s: Server, q: RefreshRequest)
    ensures Stamped(s, RefreshGrant(u, s, q).0)
  {
    if RefreshRefusal(u, s, q).None? {
      var c := s.tokens[q.token].claims;
      SuccessorsStamped(s.(store := RevocationCheck(s.store, c, q.net).0), q, c);
      assert RevocationCheck(s.store, c, q.net).0.now == s.store.now;
    }
  }

  lemma SuccessorsStamped(s: Server, q: RefreshRequest, c: Claims)
    ensures Stamped(s, SignRotatedAccess(s, q, c)) && Stamped(s, SignRotated(s, q, c))
  {
  }

  lemma OtpStamps(s: Server, email: string, raw: string, lookup: Otp.Lookup, net: Otp.HandlerNet, signs: bool)
    ensures Stamped(s, OtpVerify(s, email, raw, lookup, net, signs).0)
  {
    Otp.VerifyRequestIsLocal(s.store, email, TrimSpace(raw), lookup, net);
  }

  lemma PasskeyStamps(s: Server, challenge: string, c: Passkeys.Ceremony, banned: bool, net: Passkeys.LoginNet,
                      signs: Signing)
    ensures Stamped(s, PasskeyComplete(s, challenge, c, banned, net, signs).0)
  {
  }

  lemma CodeStamps(u: Setup, s: Server, q: AuthCode.ExchangeRequest, banned: bool, net: AuthCode.ExchangeNet,
                   signs: Signing)
    ensures Stamped(s, CodeExchange(u, s, q, banned, net, signs).0)
  {
  }

  lemma StepStamps(u: Setup, s: Server, a: Action)
    ensures Stamped(s, Step(u, s, a))
  {
    match a
    case Client(q) => ClientStamps(u, s, q, PlanOf(q.scope));
    case Rotate(q) => RotationStamps(u, s, q);
    case OtpLogsIn(email, otp, lookup, net, signs) => OtpStamps(s, email, otp, lookup, net, signs);
    case PasskeyLogsIn(challenge, c, banned, net, signs) => PasskeyStamps(s, challenge, c, banned, net, signs);
    case Exchanges(q, banned, net, signs) => CodeStamps(u, s, q, banned, net, signs);
    case _ =>
  }

  /** Over every run, introspection reports a token exactly until it expires or is known to
      be revoked, with its subject, which also stands for the client, its audience, the
      second it was signed in and, a lifetime later, the second it expires in. */
  lemma IntrospectionTells(u: Setup, d: Directory, now: Time, actions: seq<Action>, i: nat, net: Net) returns (j: nat)
    requires forall a :: a in actions ==> Unrelated(a)
    requires i < |Run(u, Initial(d, now), actions).tokens|
    ensures j < |actions|
    ensures |Run(u, Initial(d, now), actions[..j]).tokens| <= i < |Run(u, Initial(d, now), actions[..j + 1]).tokens|
    ensures var s, at := Run(u, Initial(d, now), actions), Run(u, Initial(d, now), actions[..j]).store.now;
            var c, r := s.tokens[i].claims, Introspect(s, i, net);
            && (r.Details? <==> s.store.now < c.exp && !(net.Fine? && s.store.Live(RevokedJti(c.jti))))
            && (r.Details? ==>
                  && r.subject == r.clientId == c.subject && r.audience.Some? && [r.audience.value] == c.audience
                  && r.issued == at / SECOND && r.expires == at / SECOND + Steps.LifetimeOf(s.tokens[i]))
  {
    InvRun(u, d, now, actions);
    j := SignedByAStep(u, d, now, actions, i);
    var sj := Run(u, Initial(d, now), actions[..j]);
    StepStamps(u, sj, actions[j]);
    TellsToken(Run(u, Initial(d, now), actions), i, net, sj.store.now,
               Steps.LifetimeOf(Run(u, Initial(d, now), actions).tokens[i]));
  }

  lemma TellsToken(s: Server, i: nat, net: Net, at: Time, life: nat)
    requires Inv(s) && i < |s.tokens| && s.tokens[i].claims.iat == WholeSeconds(at)
    requires s.tokens[i].claims.exp == WholeSeconds(at + life * SECOND)
    ensures var c, r := s.tokens[i].claims, Introspect(s, i, net);
            && (r.Details? <==> s.store.now < c.exp && !(net.Fine? && s.store.Live(RevokedJti(c.jti))))
            && (r.Details? ==>
                  && r.subject == r.clientId == c.subject && r.audience.Some? && [r.audience.value] == c.audience
                  && r.issued == at / SECOND && r.expires == at / SECOND + life)
  {
    assert TokenOk(s.tokens, i);
    SecondsOf(at, life);
  }

  lemma SecondsOf(at: Time, life: nat)
    ensures WholeSeconds(at) / SECOND == at / SECOND
    ensures WholeSeconds(at + life * SECOND) / SECOND == at / SECOND + life
  {
    assert (at + life * SECOND) / SECOND == at / SECOND + life;
  }

  // ---- Which tokens an answer hands out ----------------------------------------------------------------

  /** An answer names the tokens that its request has signed, each as what it is; a refusal
      names none, and only a failed signature leaves one behind. */
  predicate HandsOut(s: Server, t: Server, r: Reply) {
    match r
    case Denied(e) =>
      || t.tokens == s.tokens
      || (e.SigningFailed? && |t.tokens| == |s.tokens| + 1 && t.tokens[|s.tokens|].kind.Access?)
    case AccessOnly(a) => a == |s.tokens| && |t.tokens| == a + 1 && t.tokens[a].kind.Access?
    case Pair(a, b) =>
      && a == |s.tokens| && b == a + 1 && |t.tokens| == a + 2
      && t.tokens[a].kind.Access? && t.tokens[b].kind.Refresh?
  }

  lemma AnswersHandOut(u: Setup, s: Server, q: ClientRequest, refresh: RefreshRequest, x: AuthCode.ExchangeRequest,
                       banned: bool, net: AuthCode.ExchangeNet, signs: Signing)
    ensures HandsOut(s, ClientCredentials(u, s, q).0, ClientCredentials(u, s, q).1)
    ensures HandsOut(s, RefreshGrant(u, s, refresh).0, RefreshGrant(u, s, refresh).1)
    ensures var (t, r) := CodeExchange(u, s, x, banned, net, signs); HandsOut(s, t, r)
  {
    GrantHandsOut(u, s, q, PlanOf(q.scope));
    RefreshHandsOut(u, s, refresh);
    CodeHandsOut(u, s, x, banned, net, signs);
  }

  lemma RefreshHandsOut(u: Setup, s: Server, q: RefreshRequest)
    ensures HandsOut(s, RefreshGrant(u, s, q).0, RefreshGrant(u, s, q).1)
  {
  }

  lemma CodeHandsOut(u: Setup, s: Server, q: AuthCode.ExchangeRequest, banned: bool, net: AuthCode.ExchangeNet,
                     signs: Signing)
    ensures var (t, r) := CodeExchange(u, s, q, banned, net, signs); HandsOut(s, t, r)
  {
  }

  lemma GrantHandsOut(u: Setup, s: Server, q: ClientRequest, plan: Plan)
    ensures HandsOut(s, GrantPlan(u, s, q, plan).0, GrantPlan(u, s, q, plan).1)
  {
  }

  lemma LoginsHandOut(s: Server, email: string, raw: string, lookup: Otp.Lookup, net: Otp.HandlerNet, signed: bool,
                      challenge: string, c: Passkeys.Ceremony, banned: bool, nets: Passkeys.LoginNet, signs: Signing)
    ensures var (t, r) := OtpVerify(s, email, raw, lookup, net, signed); HandsOut(s, t, r)
    ensures var (t, r) := PasskeyComplete(s, challenge, c, banned, nets, signs); HandsOut(s, t, r)
  {
  }
}
