// What a chain of refreshes keeps, and which tokens the refresh grant accepts.

module Sessions {
  import opened TtlStore
  import opened Scopes
  import opened Clients
  import opened AuthServer
  import opened TokenHistory
  import Passkeys
  import Otp

  /** The token a chain of rotations began with. */
  function Root(ts: seq<Token>, i: nat): (r: nat)
    requires i < |ts|
    ensures r <= i
  {
    if ts[i].origin.Rotated? && ts[i].origin.parent < i then Root(ts, ts[i].origin.parent) else i
  }

  lemma {:induction false} RootOfRefresh(ts: seq<Token>, i: nat)
    requires i < |ts| && forall j :: 0 <= j < |ts| ==> TokenOk(ts, j)
    requires ts[i].kind.Refresh?
    ensures var first, c := ts[Root(ts, i)], ts[i].claims;
            && first.kind.Refresh? && !first.origin.Rotated?
            && c.subject == first.claims.subject && c.azp == first.claims.azp && c.audience == first.claims.audience
            && c.family == first.claims.family && c.scopes == first.claims.scopes
  {
    assert TokenOk(ts, i);
    if ts[i].origin.Rotated? {
      RootOfRefresh(ts, ts[i].origin.parent);
    }
  }

  /** Over any number of rotations a refresh token keeps the subject, client,
      audience, family and scope list of the first one, under a new jti. */
  lemma RefreshTokensKeepTheirSession(u: Setup, d: Directory, now: Time, actions: seq<Action>, i: nat)
    requires forall a :: a in actions ==> Unrelated(a)
    requires i < |Run(u, Initial(d, now), actions).tokens| && Run(u, Initial(d, now), actions).tokens[i].kind.Refresh?
    ensures var ts := Run(u, Initial(d, now), actions).tokens;
            var first, c := ts[Root(ts, i)], ts[i].claims;
            && first.kind.Refresh? && !first.origin.Rotated?
            && c.subject == first.claims.subject && c.azp == first.claims.azp && c.audience == first.claims.audience
            && c.family == first.claims.family && c.scopes == first.claims.scopes
            && (ts[i].origin.Rotated? ==> c.jti != first.claims.jti)
  {
    InvRun(u, d, now, actions);
    RootOfRefresh(Run(u, Initial(d, now), actions).tokens, i);
  }

  /** A refreshed access token of a client carries the scopes granted to it first,
      followed by its service scope.  That is what the very first access token
      carried exactly when some scope besides offline_access was granted. */
  lemma RefreshedClientScopes(u: Setup, d: Directory, now: Time, actions: seq<Action>, i: nat)
    requires forall a :: a in actions ==> Unrelated(a)
    requires var ts := Run(u, Initial(d, now), actions).tokens;
             i < |ts| && ts[i].kind.Access? && ts[i].origin.Rotated? && ts[Root(ts, i)].origin.ClientGrant?
    ensures var ts := Run(u, Initial(d, now), actions).tokens;
            var first := ts[Root(ts, i)];
            var fields := PlanOf(first.origin.requested).fields;
            && first.kind.Refresh?
            && ts[i].claims.subject == first.claims.subject
            && ts[i].claims.scopes == fields + ["svc:" + first.claims.subject]
            && 0 < Root(ts, i)
            && ts[Root(ts, i) - 1].kind.Access? && ts[Root(ts, i) - 1].origin == first.origin
            && (ts[i].claims.scopes == ts[Root(ts, i) - 1].claims.scopes <==> fields != [])
  {
    InvRun(u, d, now, actions);
    RefreshedScopesOf(Run(u, Initial(d, now), actions).tokens, i);
  }

  lemma RefreshedScopesOf(ts: seq<Token>, i: nat)
    requires forall k :: 0 <= k < |ts| ==> TokenOk(ts, k)
    requires i < |ts| && ts[i].kind.Access? && ts[i].origin.Rotated? && ts[Root(ts, i)].origin.ClientGrant?
    ensures var first := ts[Root(ts, i)];
            var fields := PlanOf(first.origin.requested).fields;
            && first.kind.Refresh?
            && ts[i].claims.subject == first.claims.subject
            && ts[i].claims.scopes == fields + ["svc:" + first.claims.subject]
            && 0 < Root(ts, i)
            && ts[Root(ts, i) - 1].kind.Access? && ts[Root(ts, i) - 1].origin == first.origin
            && (ts[i].claims.scopes == ts[Root(ts, i) - 1].claims.scopes <==> fields != [])
  {
    var p := ts[i].origin.parent;
    assert TokenOk(ts, i);
    RootOfRefresh(ts, p);
    var r := Root(ts, i);
    assert TokenOk(ts, r) && TokenOk(ts, r - 1);
    var fields := PlanOf(ts[r].origin.requested).fields;
    PlanChecksWhatItSigns(ts[r].origin.requested);
    NothingToRemove(fields);
    WithoutOfflineConcat([OFFLINE], fields);
    assert WithoutOffline([OFFLINE] + fields) == fields;
    assert |fields + ["svc:" + ts[r].claims.subject]| > 0;
  }

  /** A refreshed access token of a user session carries passkey:verified only. */
  lemma RefreshedUserScopes(u: Setup, d: Directory, now: Time, actions: seq<Action>, i: nat)
    requires forall a :: a in actions ==> Unrelated(a)
    requires var ts := Run(u, Initial(d, now), actions).tokens;
             i < |ts| && ts[i].kind.Access? && ts[i].origin.Rotated?
             && ts[Root(ts, i)].claims.azp != ts[Root(ts, i)].claims.subject
    ensures Run(u, Initial(d, now), actions).tokens[i].claims.scopes == [PASSKEY_SCOPE]
  {
    InvRun(u, d, now, actions);
    var ts := Run(u, Initial(d, now), actions).tokens;
    assert TokenOk(ts, i);
    RootOfRefresh(ts, ts[i].origin.parent);
    assert TokenOk(ts, Root(ts, i));
  }

  /** Every scope of a client's access token, first or refreshed, other than its
      own service scope was allowed to that client when the chain began. */
  lemma ClientScopesWereAllowed(u: Setup, d: Directory, now: Time, actions: seq<Action>, i: nat, scope: string)
    requires forall a :: a in actions ==> Unrelated(a)
    requires var ts := Run(u, Initial(d, now), actions).tokens;
             && i < |ts| && ts[i].kind.Access? && ts[Root(ts, i)].origin.ClientGrant?
             && scope in ts[i].claims.scopes && scope != "svc:" + ts[i].claims.subject
    ensures var ts := Run(u, Initial(d, now), actions).tokens;
            var allowed := ts[Root(ts, i)].origin.allowed;
            "*" in allowed || scope in allowed
  {
    InvRun(u, d, now, actions);
    var ts := Run(u, Initial(d, now), actions).tokens;
    assert TokenOk(ts, i) && TokenOk(ts, Root(ts, i));
    if ts[i].origin.Rotated? {
      RefreshedClientScopes(u, d, now, actions, i);
    }
  }

  // ---- Which tokens the refresh grant accepts -----------------------------------------------

  /** Neither the token nor its family is on the denylist. */
  predicate NotDenied(s: Store, c: Claims) {
    !s.Live(RevokedJti(c.jti)) && !s.Live(RevokedFamily(c.family))
  }

  lemma PairIffChecksPass(u: Setup, s: Server, q: RefreshRequest)
    requires Inv(s)
    ensures RefreshGrant(u, s, q).1.Pair? <==>
            && q.given && q.clientId != "" && q.clientSecret != ""
            && Authenticate(s.directory, u.hash, q.clientId, q.clientSecret).Some?
            && q.token < |s.tokens| && s.store.now < s.tokens[q.token].claims.exp
            && s.tokens[q.token].kind.Refresh? && s.tokens[q.token].claims.azp == q.clientId
            && q.net.jti.Fine? && q.net.family.Fine? && NotDenied(s.store, s.tokens[q.token].claims)
            && !BanApplies(s.tokens[q.token].claims, q.banned)
            && AudiencePermitted(s.directory[q.clientId], s.tokens[q.token].claims)
            && q.signs.access && q.signs.refresh
  {
    if q.token < |s.tokens| {
      assert TokenOk(s.tokens, q.token);
    }
  }

  /** The token is a client's own and not a user's, its audience is the only one by
      default or one of the listed ones. */
  predicate OwnAudienceAllowed(rec: ClientRecord, c: Claims) {
    c.azp == c.subject ==>
      if rec.allowedAudiences == [] then c.audience == [SERVICE_AUDIENCE]
      else forall x :: x in c.audience ==> x in rec.allowedAudiences
  }

  /** Exactly the live refresh tokens that were signed for the presenting client, which
      proves itself by its secret, are accepted, unless the token or its family is
      denied, the client may no longer have its audience, or its user is banned. */
  lemma RefreshAcceptsIff(u: Setup, s: Server, q: RefreshRequest)
    requires Inv(s)
    ensures RefreshGrant(u, s, q).1.Pair? <==>
            && q.given && q.clientId != "" && q.clientSecret != ""
            && q.clientId in s.directory && u.hash(q.clientSecret) == s.directory[q.clientId].secretHash
            && q.token < |s.tokens|
            && var c := s.tokens[q.token].claims;
               && s.store.now < c.exp && s.tokens[q.token].kind.Refresh? && c.azp == q.clientId
               && q.net.jti.Fine? && q.net.family.Fine?
               && !s.store.Live(RevokedJti(c.jti)) && !s.store.Live(RevokedFamily(c.family))
               && (q.banned ==> exists x :: x in c.scopes && "svc:" <= x)
               && OwnAudienceAllowed(s.directory[q.clientId], c)
               && q.signs.access && q.signs.refresh
  {
    PairIffChecksPass(u, s, q);
    if q.token < |s.tokens| {
      assert TokenOk(s.tokens, q.token);
      BannedIff(s.tokens[q.token].claims, q.banned);
    }
  }

  lemma BannedIff(c: Claims, banned: bool)
    ensures BanApplies(c, banned) <==> banned && !exists x :: x in c.scopes && "svc:" <= x
  {
    forall i | 0 <= i < |c.scopes| ensures IsServiceScope(c.scopes[i]) ==> exists x :: x in c.scopes && "svc:" <= x {
      assert c.scopes[i] in c.scopes;
    }
    assert forall x :: x in c.scopes && "svc:" <= x ==> exists i :: 0 <= i < |c.scopes| && IsServiceScope(c.scopes[i]);
  }

  /** What decides about the audience: of the requests that pass every other check, a
      client's own are answered with a pair if the token's audience is listed, or is the
      service audience and nothing is listed, and otherwise refused with nothing signed;
      for a user's token the list plays no part. */
  lemma AudienceDecides(u: Setup, s: Server, q: RefreshRequest)
    requires Inv(s) && q.given && q.clientId != "" && q.clientSecret != "" && q.clientId in s.directory
    requires u.hash(q.clientSecret) == s.directory[q.clientId].secretHash && q.token < |s.tokens|
    requires s.tokens[q.token].kind.Refresh? && s.tokens[q.token].claims.azp == q.clientId
    requires s.store.now < s.tokens[q.token].claims.exp && q.net.jti.Fine? && q.net.family.Fine? && !q.banned
    requires NotDenied(s.store, s.tokens[q.token].claims) && q.signs == Signing(true, true)
    ensures |s.tokens[q.token].claims.audience| == 1
    ensures var c, allowed := s.tokens[q.token].claims, s.directory[q.clientId].allowedAudiences;
            var (t, r) := RefreshGrant(u, s, q);
            && (r.Pair? <==> c.azp != c.subject || (allowed == [] && c.audience == [SERVICE_AUDIENCE])
                             || c.audience[0] in allowed)
            && (!r.Pair? ==> r == Denied(AudienceNotPermitted) && t == s)
  {
    assert TokenOk(s.tokens, q.token);
    RefreshAcceptsIff(u, s, q);
  }

  /** The refresh token of a client that is registered for other audiences only is never
      accepted: it names the service audience, whatever the client is registered for. */
  lemma OtherAudienceCannotRefresh(u: Setup, s: Server, q: RefreshRequest)
    requires Inv(s) && q.token < |s.tokens| && s.tokens[q.token].origin.ClientGrant? && q.clientId in s.directory
    requires s.directory[q.clientId].allowedAudiences != []
    requires "komodo-apis:service" !in s.directory[q.clientId].allowedAudiences
    ensures RefreshGrant(u, s, q).1.Denied?
  {
    assert TokenOk(s.tokens, q.token);
    RefreshAcceptsIff(u, s, q);
  }

  /** No access token is ever refreshed, whatever its scopes say. */
  lemma OnlyRefreshTokensAreRefreshed(u: Setup, d: Directory, now: Time, actions: seq<Action>, q: RefreshRequest)
    requires forall a :: a in actions ==> Unrelated(a)
    requires RefreshGrant(u, Run(u, Initial(d, now), actions), q).1.Pair?
    ensures var s := Run(u, Initial(d, now), actions);
            s.tokens[q.token].kind.Refresh? && s.tokens[q.token].claims.azp == q.clientId
  {
    InvRun(u, d, now, actions);
    PairIffChecksPass(u, Run(u, Initial(d, now), actions), q);
  }

  // ---- User tokens never carry a service scope -------------------------------------------------

  /** Client ids and user ids come from disjoint sets, no client is registered for
      the user audience alone, and nothing is set by hand. */
  predicate Separated(isClient: string -> bool, a: Action) {
    && Unrelated(a)
    && (a.Reloads? ==> DirectoryOk(isClient, a.directory))
    && (a.OtpLogsIn? && a.lookup.Account? ==> !isClient(a.lookup.userId))
    && (a.PasskeyBegins? ==> !isClient(a.session.userId))
  }

  predicate DirectoryOk(isClient: string -> bool, d: Directory) {
    forall c :: c in d ==> isClient(c) && d[c].allowedAudiences != [USER_AUDIENCE]
  }

  predicate NoServiceScope(c: Claims) {
    forall i :: 0 <= i < |c.scopes| ==> !IsServiceScope(c.scopes[i])
  }

  predicate PlaneOk(isClient: string -> bool, t: Token) {
    t.claims.audience == [USER_AUDIENCE] ==>
      && NoServiceScope(t.claims)
      && (t.kind.Refresh? ==> IsUserSession(t.claims))
  }

  predicate PlaneInv(isClient: string -> bool, s: Server) {
    && DirectoryOk(isClient, s.directory)
    && (forall i :: 0 <= i < |s.tokens| ==> PlaneOk(isClient, s.tokens[i]))
    && (forall k :: k in s.store.entries && k.LoginSessionKey? && s.store.entries[k].value.Login? ==>
          isClient(s.store.entries[k].value.session.clientId) && !isClient(s.store.entries[k].value.session.userId))
  }

  lemma UserScopesAreNoServiceScopes()
    ensures !IsServiceScope(OTP_SCOPE) && !IsServiceScope(PASSKEY_SCOPE) && !IsServiceScope(OFFLINE)
  {
    assert "svc:"[0] == 's';
    assert OTP_SCOPE[0] == 'o' && PASSKEY_SCOPE[0] == 'p' && OFFLINE[0] == 'o';
  }

  lemma ClientKeepsPlanes(isClient: string -> bool, u: Setup, s: Server, q: ClientRequest)
    requires PlaneInv(isClient, s)
    ensures PlaneInv(isClient, ClientCredentials(u, s, q).0)
  {
    var t := ClientCredentials(u, s, q).0;
    forall i | 0 <= i < |t.tokens| ensures PlaneOk(isClient, t.tokens[i]) {
      if i < |s.tokens| {
        assert PlaneOk(isClient, s.tokens[i]);
      } else {
        assert s.directory[q.clientId].allowedAudiences != [USER_AUDIENCE];
        assert t.tokens[i].claims.audience != [USER_AUDIENCE];
      }
    }
  }

  lemma RotateKeepsPlanes(isClient: string -> bool, u: Setup, s: Server, q: RefreshRequest)
    requires PlaneInv(isClient, s) && Inv(s)
    ensures PlaneInv(isClient, RefreshGrant(u, s, q).0)
  {
    if RefreshRefusal(u, s, q).None? {
      var c := s.tokens[q.token].claims;
      var store := RevocationCheck(s.store, c, q.net).0;
      assert TokenOk(s.tokens, q.token);
      CheckKeepsPlanes(isClient, s, c, q.net);
      RotatedTokensKeepPlanes(isClient, s.(store := store), q, c);
    }
  }

  lemma CheckKeepsPlanes(isClient: string -> bool, s: Server, c: Claims, net: RefreshNet)
    requires PlaneInv(isClient, s) && Inv(s)
    ensures var t := s.(store := RevocationCheck(s.store, c, net).0); PlaneInv(isClient, t) && Inv(t)
  {
    CheckKeepsLogins(s.store, c, net);
    StoreKeepsInv(s, RevocationCheck(s.store, c, net).0);
  }

  lemma RotatedTokensKeepPlanes(isClient: string -> bool, s: Server, q: RefreshRequest, c: Claims)
    requires PlaneInv(isClient, s) && Inv(s) && q.token < |s.tokens| && c == s.tokens[q.token].claims
    requires s.tokens[q.token].kind.Refresh? && c.azp == q.clientId
    ensures PlaneInv(isClient, SignRotated(s, q, c)) && PlaneInv(isClient, SignRotatedAccess(s, q, c))
    ensures PlaneInv(isClient, s.(nextId := s.nextId + 1))
  {
    var t := SignRotated(s, q, c);
    UserScopesAreNoServiceScopes();
    assert TokenOk(s.tokens, q.token) && PlaneOk(isClient, s.tokens[q.token]);
    assert [RefreshAudience(c)] == c.audience;
    forall i | 0 <= i < |t.tokens| ensures PlaneOk(isClient, t.tokens[i]) {
      if i < |s.tokens| {
        assert PlaneOk(isClient, s.tokens[i]);
      }
    }
    assert forall i :: 0 <= i <= |s.tokens| ==> SignRotatedAccess(s, q, c).tokens[i] == t.tokens[i];
  }

  lemma LoginKeepsPlanes(isClient: string -> bool, s: Server, challenge: string, c: Passkeys.Ceremony, banned: bool,
                         net: Passkeys.LoginNet, signs: Signing)
    requires PlaneInv(isClient, s) && Inv(s)
    ensures PlaneInv(isClient, PasskeyComplete(s, challenge, c, banned, net, signs).0)
  {
    UserScopesAreNoServiceScopes();
    var t := PasskeyComplete(s, challenge, c, banned, net, signs).0;
    assert LoginSessionKey(challenge) in s.store.entries && s.store.entries[LoginSessionKey(challenge)].value.Login? ==>
        s.store.entries[LoginSessionKey(challenge)].value.session.clientId != "";
    forall i | 0 <= i < |t.tokens| ensures PlaneOk(isClient, t.tokens[i]) {
      if i < |s.tokens| {
        assert PlaneOk(isClient, s.tokens[i]);
      }
    }
  }

  lemma OtpKeepsPlanes(isClient: string -> bool, s: Server, email: string, raw: string, lookup: Otp.Lookup,
                       net: Otp.HandlerNet, signs: bool)
    requires PlaneInv(isClient, s)
    ensures PlaneInv(isClient, OtpVerify(s, email, raw, lookup, net, signs).0)
  {
    var otp := TrimSpace(raw);
    UserScopesAreNoServiceScopes();
    Otp.VerifyRequestIsLocal(s.store, email, otp, lookup, net);
    var outcome := Otp.VerifyRequest(s.store, email, otp, lookup, net).1;
    var t := OtpVerify(s, email, raw, lookup, net, signs).0;
    assert t.tokens == s.tokens || t.tokens == s.tokens + [t.tokens[|s.tokens|]];
    forall i | 0 <= i < |t.tokens| ensures PlaneOk(isClient, t.tokens[i]) {
      if i < |s.tokens| {
        assert PlaneOk(isClient, s.tokens[i]);
      }
    }
  }

  lemma PlaneInvStep(isClient: string -> bool, u: Setup, s: Server, a: Action)
    requires PlaneInv(isClient, s) && Inv(s) && Separated(isClient, a) && !u.codeGrant
    ensures PlaneInv(isClient, Step(u, s, a))
  {
    match a
    case Client(q) => ClientKeepsPlanes(isClient, u, s, q);
    case Rotate(q) => RotateKeepsPlanes(isClient, u, s, q);
    case OtpLogsIn(email, otp, lookup, net, signs) => OtpKeepsPlanes(isClient, s, email, otp, lookup, net, signs);
    case PasskeyLogsIn(challenge, c, banned, net, signs) =>
      LoginKeepsPlanes(isClient, s, challenge, c, banned, net, signs);
    case CallsService =>
      forall i | 0 <= i < |ServiceToken(s).tokens| ensures PlaneOk(isClient, ServiceToken(s).tokens[i]) {
        if i < |s.tokens| { assert PlaneOk(isClient, s.tokens[i]); }
      }
    case _ => OthersKeepPlanes(isClient, u, s, a);
  }

  lemma OthersKeepPlanes(isClient: string -> bool, u: Setup, s: Server, a: Action)
    requires PlaneInv(isClient, s) && Separated(isClient, a) && !u.codeGrant
    requires a.Tick? || a.PasskeyBegins? || a.Authorizes? || a.Exchanges? || a.Revokes? || a.Reloads? || a.Other?
    ensures PlaneInv(isClient, Step(u, s, a))
  {
    assert Step(u, s, a).tokens == s.tokens;
  }

  lemma {:induction false} PlaneInvRun(isClient: string -> bool, u: Setup, d: Directory, now: Time,
                                       actions: seq<Action>)
    requires DirectoryOk(isClient, d) && !u.codeGrant && forall a :: a in actions ==> Separated(isClient, a)
    ensures PlaneInv(isClient, Run(u, Initial(d, now), actions))
  {
    if actions != [] {
      var before := actions[..|actions| - 1];
      PlaneInvRun(isClient, u, d, now, before);
      InvRun(u, d, now, before);
      PlaneInvStep(isClient, u, Run(u, Initial(d, now), before), actions[|actions| - 1]);
    }
  }

  /** Why the registry must not list the user audience alone: exactly then does a
      client_credentials grant sign a user token with a service scope. */
  lemma ServiceScopeOnUserTokenIff(u: Setup, s: Server, q: ClientRequest)
    requires !ClientCredentials(u, s, q).1.Denied?
    ensures |s.tokens| < |ClientCredentials(u, s, q).0.tokens| && q.clientId in s.directory
    ensures var c := ClientCredentials(u, s, q).0.tokens[|s.tokens|].claims;
            c.audience == [USER_AUDIENCE] && !NoServiceScope(c) <==>
            s.directory[q.clientId].allowedAudiences == [USER_AUDIENCE] && PlanOf(q.scope).fields != []
  {
    var fields := PlanOf(q.scope).fields;
    var scopes := ServiceScopes(q.clientId, fields);
    assert IsServiceScope(scopes[|fields|]);
    FirstTokenOfGrant(u, s, q, PlanOf(q.scope));
  }

  lemma FirstTokenOfGrant(u: Setup, s: Server, q: ClientRequest, plan: Plan)
    requires !GrantPlan(u, s, q, plan).1.Denied?
    ensures |s.tokens| < |GrantPlan(u, s, q, plan).0.tokens| && q.clientId in s.directory
    ensures var c := GrantPlan(u, s, q, plan).0.tokens[|s.tokens|].claims;
            && (c.audience == [USER_AUDIENCE] <==> s.directory[q.clientId].allowedAudiences == [USER_AUDIENCE])
            && c.scopes == if plan.fields == [] then [] else ServiceScopes(q.clientId, plan.fields)
  {
    var allowed := s.directory[q.clientId].allowedAudiences;
    if |allowed| == 1 {
      assert allowed == [allowed[0]];
    }
  }

  /** With the authorization_code grant off, no token for the user audience ever
      carries a service scope, over any run of grants, refreshes and reloads. */
  lemma UserTokensCarryNoServiceScope(
    isClient: string -> bool, u: Setup, d: Directory, now: Time, actions: seq<Action>, i: nat, k: nat)
    requires DirectoryOk(isClient, d) && !u.codeGrant && forall a :: a in actions ==> Separated(isClient, a)
    requires var ts := Run(u, Initial(d, now), actions).tokens;
             i < |ts| && ts[i].claims.audience == [USER_AUDIENCE] && k < |ts[i].claims.scopes|
    ensures !IsServiceScope(Run(u, Initial(d, now), actions).tokens[i].claims.scopes[k])
  {
    PlaneInvRun(isClient, u, d, now, actions);
    assert PlaneOk(isClient, Run(u, Initial(d, now), actions).tokens[i]);
  }
}
