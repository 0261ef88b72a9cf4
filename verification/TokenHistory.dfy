// What holds of every token ever signed, over every run of the token service.

module TokenHistory {
  import opened TtlStore
  import opened Scopes
  import opened Clients
  import opened AuthServer
  import Denylist
  import Passkeys
  import AuthCode
  import Otp

  predicate Granted(allowed: seq<string>, fields: seq<string>) {
    "*" in allowed || forall f :: f in fields ==> f in allowed
  }

  /** The scopes of the access token that a client_credentials request gets. */
  function FirstScopes(clientId: string, fields: seq<string>): seq<string> {
    if fields == [] then [] else ServiceScopes(clientId, fields)
  }

  /** Token i against its origin and the tokens before it. */
  predicate TokenOk(ts: seq<Token>, i: nat)
    requires i < |ts|
  {
    var t := ts[i];
    var c := t.claims;
    && c.jti.Id? && |c.audience| == 1
    && (t.kind.Access? ==> c.azp == "" && c.family.NoId?)
    && (t.kind.Refresh? ==> c.azp != "" && c.family.Id? && OFFLINE in c.scopes)
    && match t.origin
       case OtpLogin(_, userId) =>
         t.kind.Access? && c.scopes == [OTP_SCOPE] && c.audience == [USER_AUDIENCE] && c.subject == userId
       case ServiceCall =>
         t.kind.Access? && c.audience == [SERVICE_AUDIENCE] && c.subject == ISSUER && c.scopes == ["svc:" + ISSUER]
       case PasskeyLogin(_, session) =>
         && c.audience == [USER_AUDIENCE] && c.subject == session.userId
         && (t.kind.Refresh? ==> c.azp == session.clientId)
         && c.scopes == if t.kind.Access? then [PASSKEY_SCOPE] else [OFFLINE]
       case CodeGrant(_, entry) =>
         && c.audience == [USER_AUDIENCE] && c.subject == entry.userId
         && (t.kind.Refresh? ==> c.azp == entry.clientId)
         && c.scopes == if t.kind.Access? then Fields(entry.scope) else [OFFLINE] + Fields(entry.scope)
       case ClientGrant(requested, allowed) =>
         var fields := PlanOf(requested).fields;
         && Granted(allowed, fields)
         && c.subject != ""
         && if t.kind.Access? then c.scopes == FirstScopes(c.subject, fields)
            else
              && c.azp == c.subject && c.audience == [SERVICE_AUDIENCE] && c.scopes == [OFFLINE] + fields
              && 0 < i && ts[i - 1].kind.Access? && ts[i - 1].origin == t.origin
                  && ts[i - 1].claims.subject == c.subject
       case Rotated(p) =>
         && p < i && ts[p].kind.Refresh?
         && RotatedFrom(ts[p].claims, t)
  }

  /** A rotation passes everything on except the jti and the expiry. */
  predicate RotatedFrom(from: Claims, t: Token) {
    && t.claims.subject == from.subject && t.claims.audience == from.audience && t.claims.jti != from.jti
    && if t.kind.Refresh?
       then t.claims.azp == from.azp && t.claims.family == from.family && t.claims.scopes == from.scopes
       else t.claims.scopes == RefreshedScopes(from, from.azp)
  }

  /** Ids are handed out in order. */
  predicate IdsOk(s: Server) {
    && (forall i :: 0 <= i < |s.tokens| && s.tokens[i].claims.jti.Id? ==> s.tokens[i].claims.jti.n < s.nextId)
    && (forall i :: 0 <= i < |s.tokens| && s.tokens[i].claims.family.Id? ==> s.tokens[i].claims.family.n < s.nextId)
    && (forall i, j :: 0 <= i < j < |s.tokens| ==> s.tokens[i].claims.jti != s.tokens[j].claims.jti)
  }

  predicate LoginsOk(s: Store) {
    forall k :: k in s.entries && k.LoginSessionKey? && s.entries[k].value.Login? ==>
      s.entries[k].value.session.clientId != ""
  }

  /** Every token is valid from the moment it was signed. */
  predicate StartsOk(s: Server) {
    forall i :: 0 <= i < |s.tokens| ==> s.tokens[i].claims.notBefore <= s.store.now
  }

  predicate Inv(s: Server) {
    && IdsOk(s) && LoginsOk(s.store) && StartsOk(s)
    && forall i :: 0 <= i < |s.tokens| ==> TokenOk(s.tokens, i)
  }

  // ---- Each step keeps it -----------------------------------------------------------------

  lemma TokenOkFrame(ts: seq<Token>, more: seq<Token>, i: nat)
    requires i < |ts| && TokenOk(ts, i)
    ensures TokenOk(ts + more, i)
  {
  }

  /** Signing one more token needs only that token to be in order. */
  lemma SignKeepsInv(s: Server, kind: Kind, origin: Origin, subject: string, audience: string, azp: string, family: Id,
                     ttl: nat, scopes: seq<string>)
    requires Inv(s) && (family.Id? ==> family.n < s.nextId)
    requires TokenOk(Sign(s, kind, origin, subject, audience, azp, family, ttl, scopes).tokens, |s.tokens|)
    ensures Inv(Sign(s, kind, origin, subject, audience, azp, family, ttl, scopes))
  {
    var t := Sign(s, kind, origin, subject, audience, azp, family, ttl, scopes);
    forall i | 0 <= i < |t.tokens| ensures TokenOk(t.tokens, i) {
      if i < |s.tokens| {
        TokenOkFrame(s.tokens, [t.tokens[|s.tokens|]], i);
      }
    }
  }

  lemma ClientKeepsInv(u: Setup, s: Server, q: ClientRequest)
    requires Inv(s)
    ensures Inv(ClientCredentials(u, s, q).0)
  {
    if ClientRefusal(u, s, q, PlanOf(q.scope)).None? {
      PlanChecksWhatItSigns(q.scope);
      SignGrantedKeepsInv(s, q, Redacted(s.directory[q.clientId]), PlanOf(q.scope));
    }
  }

  lemma BurnKeepsInv(s: Server, n: nat)
    requires Inv(s)
    ensures Inv(Burn(s, n))
  {
  }

  lemma SignGrantedKeepsInv(s: Server, q: ClientRequest, rec: ClientRecord, plan: Plan)
    requires Inv(s) && plan == PlanOf(q.scope) && OFFLINE !in plan.fields && q.clientId != ""
    requires Granted(rec.allowedScopes, plan.fields)
    ensures Inv(SignGranted(s, q, rec, plan).0)
  {
    var origin, first := ClientGrant(q.scope, rec.allowedScopes), FirstScopes(q.clientId, plan.fields);
    SignKeepsInv(s, Access, origin, q.clientId, ClientAudience(rec), "", NoId, ACCESS_TTL, first);
    var s1 := SignAccess(s, origin, q.clientId, ClientAudience(rec), ACCESS_TTL, first);
    BurnKeepsInv(s, 1);
    BurnKeepsInv(s1, 2);
    if plan.offline {
      SignKeepsInv(Burn(s1, 1), Refresh, origin, q.clientId, SERVICE_AUDIENCE, q.clientId, Id(s1.nextId), REFRESH_TTL,
                   [OFFLINE] + plan.fields);
    }
  }

  lemma RotateKeepsInv(u: Setup, s: Server, q: RefreshRequest)
    requires Inv(s)
    ensures Inv(RefreshGrant(u, s, q).0)
  {
    if RefreshRefusal(u, s, q).None? {
      var c := s.tokens[q.token].claims;
      var s1 := s.(store := RevocationCheck(s.store, c, q.net).0);
      assert TokenOk(s.tokens, q.token) && s.tokens[q.token].kind.Refresh?;
      CheckKeepsLogins(s.store, c, q.net);
      StoreKeepsInv(s, s1.store);
      RotatedTokensKeepInv(s1, q, c);
      DenyKeepsInv(SignRotated(s1, q, c), c, q.net.storeJti);
    }
  }

  lemma CheckKeepsLogins(s: Store, c: Claims, net: RefreshNet)
    requires LoginsOk(s)
    ensures var t := RevocationCheck(s, c, net).0; LoginsOk(t) && t.now == s.now
  {
  }

  lemma DenyKeepsInv(s: Server, c: Claims, net: Net)
    requires Inv(s)
    ensures Inv(s.(store := Denylist.StoreRevoked(s.store, c.jti, c.exp - s.store.now, net).0))
  {
    var store := Denylist.StoreRevoked(s.store, c.jti, c.exp - s.store.now, net).0;
    assert LoginsOk(store) && store.now == s.store.now;
    StoreKeepsInv(s, store);
  }

  lemma StoreKeepsInv(s: Server, store: Store)
    requires Inv(s) && LoginsOk(store) && s.store.now <= store.now
    ensures Inv(s.(store := store))
  {
  }

  lemma RotatedTokensKeepInv(s: Server, q: RefreshRequest, c: Claims)
    requires Inv(s) && q.token < |s.tokens| && c == s.tokens[q.token].claims
    requires s.tokens[q.token].kind.Refresh? && c.azp == q.clientId
    ensures Inv(SignRotated(s, q, c)) && Inv(Burn(s, 1)) && Inv(Burn(SignRotatedAccess(s, q, c), 1))
  {
    assert TokenOk(s.tokens, q.token);
    assert RefreshAudience(c) == c.audience[0] && [RefreshAudience(c)] == c.audience;
    SignKeepsInv(s, Access, Rotated(q.token), c.subject, RefreshAudience(c), "", NoId, ACCESS_TTL,
                 RefreshedScopes(c, q.clientId));
    var s1 := SignRotatedAccess(s, q, c);
    BurnKeepsInv(s, 1);
    BurnKeepsInv(s1, 1);
    SignKeepsInv(s1, Refresh, Rotated(q.token), c.subject, RefreshAudience(c), q.clientId, c.family, REFRESH_TTL,
                 c.scopes);
  }

  lemma LoginsKeepInv(s: Server, challenge: string, c: Passkeys.Ceremony, banned: bool, net: Passkeys.LoginNet,
                      signs: Signing)
    requires Inv(s)
    ensures Inv(PasskeyComplete(s, challenge, c, banned, net, signs).0)
  {
    var (store, login) := Passkeys.LoginComplete(s.store, challenge, c, banned, net);
    if login.Success? {
      assert LoginSessionKey(challenge) in s.store.entries;
      SignLoginKeepsInv(s.(store := store), challenge, login.value, signs);
    }
  }

  /** The tokens of a login carry the user and name the client of its session. */
  lemma SignLoginKeepsInv(s: Server, challenge: string, session: LoginSession, signs: Signing)
    requires Inv(s) && session.clientId != ""
    ensures Inv(SignLogin(s, challenge, session, signs).0)
  {
    var origin := PasskeyLogin(challenge, session);
    SignKeepsInv(s, Access, origin, session.userId, USER_AUDIENCE, "", NoId, USER_TTL, [PASSKEY_SCOPE]);
    var s1 := SignAccess(s, origin, session.userId, USER_AUDIENCE, USER_TTL, [PASSKEY_SCOPE]);
    BurnKeepsInv(s, 1);
    BurnKeepsInv(s1, 2);
    SignKeepsInv(Burn(s1, 1), Refresh, origin, session.userId, USER_AUDIENCE, session.clientId, Id(s1.nextId),
                 REFRESH_TTL, [OFFLINE]);
  }

  lemma ExchangeKeepsInv(u: Setup, s: Server, q: AuthCode.ExchangeRequest, banned: bool, net: AuthCode.ExchangeNet,
                         signs: Signing)
    requires Inv(s)
    ensures Inv(CodeExchange(u, s, q, banned, net, signs).0)
  {
    var (store, entry) := AuthCode.Exchange(u.codeGrant, u.s256, s.directory, s.store, q, net);
    if entry.Success? && !banned {
      SignExchangedKeepsInv(s.(store := store), q, entry.value, signs);
    }
  }

  /** The tokens of an exchange carry the user, scope and client of the code's entry. */
  lemma SignExchangedKeepsInv(s: Server, q: AuthCode.ExchangeRequest, entry: AuthCodeEntry, signs: Signing)
    requires Inv(s) && q.clientId != "" && q.clientId == entry.clientId
    ensures Inv(SignExchanged(s, q, entry, signs).0)
  {
    var origin, scopes := CodeGrant(q.code, entry), Fields(entry.scope);
    SignKeepsInv(s, Access, origin, entry.userId, USER_AUDIENCE, "", NoId, ACCESS_TTL, scopes);
    var s1 := SignAccess(s, origin, entry.userId, USER_AUDIENCE, ACCESS_TTL, scopes);
    BurnKeepsInv(s, 1);
    BurnKeepsInv(s1, 2);
    SignKeepsInv(Burn(s1, 1), Refresh, origin, entry.userId, USER_AUDIENCE, q.clientId, Id(s1.nextId), REFRESH_TTL,
                 [OFFLINE] + scopes);
  }

  lemma LoginsOkAfterOtp(s: Store, email: string, otp: string, lookup: Otp.Lookup, net: Otp.HandlerNet)
    requires LoginsOk(s)
    ensures var t := Otp.VerifyRequest(s, email, otp, lookup, net).0; LoginsOk(t) && t.now == s.now
  {
    Otp.VerifyRequestIsLocal(s, email, otp, lookup, net);
  }

  lemma OtpKeepsInv(s: Server, email: string, raw: string, lookup: Otp.Lookup, net: Otp.HandlerNet, signs: bool)
    requires Inv(s)
    ensures Inv(OtpVerify(s, email, raw, lookup, net, signs).0)
  {
    var otp := TrimSpace(raw);
    var (store, outcome) := Otp.VerifyRequest(s.store, email, otp, lookup, net);
    LoginsOkAfterOtp(s.store, email, otp, lookup, net);
    StoreKeepsInv(s, store);
    BurnKeepsInv(s.(store := store), 1);
    if outcome.Verified? {
      SignKeepsInv(s.(store := store), Access, OtpLogin(email, outcome.subject), outcome.subject, USER_AUDIENCE,
                   "", NoId, USER_TTL, [OTP_SCOPE]);
    }
  }

  lemma InvStep(u: Setup, s: Server, a: Action)
    requires Inv(s) && Unrelated(a)
    ensures Inv(Step(u, s, a))
  {
    match a
    case Client(q) => ClientKeepsInv(u, s, q);
    case Rotate(q) => RotateKeepsInv(u, s, q);
    case OtpLogsIn(email, otp, lookup, net, signs) => OtpKeepsInv(s, email, otp, lookup, net, signs);
    case PasskeyLogsIn(challenge, c, banned, net, signs) => LoginsKeepInv(s, challenge, c, banned, net, signs);
    case Exchanges(q, banned, net, signs) => ExchangeKeepsInv(u, s, q, banned, net, signs);
    case CallsService =>
      SignKeepsInv(s, Access, ServiceCall, ISSUER, SERVICE_AUDIENCE, "", NoId, SERVICE_TTL, ["svc:" + ISSUER]);
    case _ => OthersKeepInv(u, s, a);
  }

  lemma OthersKeepInv(u: Setup, s: Server, a: Action)
    requires Inv(s) && Unrelated(a)
    requires a.Tick? || a.PasskeyBegins? || a.Authorizes? || a.Revokes? || a.Reloads? || a.Other?
    ensures Inv(Step(u, s, a))
  {
    var t := Step(u, s, a);
    assert t.tokens == s.tokens && t.nextId == s.nextId && LoginsOk(t.store);
  }

  lemma {:induction false} InvRun(u: Setup, d: Directory, now: Time, actions: seq<Action>)
    requires forall a :: a in actions ==> Unrelated(a)
    ensures Inv(Run(u, Initial(d, now), actions))
  {
    if actions != [] {
      InvRun(u, d, now, actions[..|actions| - 1]);
      InvStep(u, Run(u, Initial(d, now), actions[..|actions| - 1]), actions[|actions| - 1]);
    }
  }
}
