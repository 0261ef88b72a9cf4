// What one request of the token service can do to the token history and to the
// denylist, stated without reference to the handlers.

module Steps {
  import opened Wrappers
  import opened TtlStore
  import opened Scopes
  import opened Clients
  import opened AuthServer
  import opened TokenHistory
  import opened Sessions
  import Denylist
  import AuthCode
  import Passkeys
  import Otp

  predicate IsDenylistKey(k: Key) {
    k.RevokedJti? || k.RevokedFamily?
  }

  ghost predicate SameDenylist(s: Store, t: Store) {
    forall k: Key :: IsDenylistKey(k) ==>
      && (k in s.entries <==> k in t.entries)
      && (k in s.entries ==> s.entries[k] == t.entries[k])
  }

  /** In seconds: a refresh token thirty days, an access token one hour, half an
      hour after a login by passkey or code, and half a minute for the service itself. */
  function LifetimeOf(t: Token): nat {
    if t.kind.Refresh? then 30 * 24 * 3600
    else match t.origin
      case OtpLogin(_, _) => 30 * 60
      case PasskeyLogin(_, _) => 30 * 60
      case ServiceCall => 30
      case _ => 3600
  }

  predicate FreshToken(s: Server, t: Token) {
    && t.claims.jti.Id? && s.nextId <= t.claims.jti.n
    && t.claims.exp == WholeSeconds(s.store.now + LifetimeOf(t) * SECOND)
    && (t.kind.Refresh? ==> t.claims.family.Id? && s.nextId <= t.claims.family.n)
  }

  /** The step may sign tokens, at most one of them a refresh token and that one in
      a family of its own, and keeps the denylist. */
  ghost predicate Issues(s: Server, t: Server) {
    && s.tokens <= t.tokens && s.nextId <= t.nextId && s.store.now <= t.store.now
    && SameDenylist(s.store, t.store)
    && (forall i :: |s.tokens| <= i < |t.tokens| ==> FreshToken(s, t.tokens[i]))
    && (forall i, j :: |s.tokens| <= i < j < |t.tokens| ==> t.tokens[i].kind.Access? || t.tokens[j].kind.Access?)
  }

  /** The step only writes the denylist entry of token n. */
  ghost predicate Denies(s: Server, t: Server, n: nat) {
    && n < |s.tokens| && s.store.now < s.tokens[n].claims.exp && s.tokens[n].claims.jti.Id?
    && t == s.(store := s.store.Set(RevokedJti(s.tokens[n].claims.jti), Sentinel,
                                    Denylist.TtlOf(s.tokens[n].claims.exp - s.store.now)))
  }

  /** The request presents a token that is on the denylist, and the entry for its
      family reaches the store. */
  predicate Detects(u: Setup, s: Server, q: RefreshRequest) {
    && RefreshRefusal(u, s, q).None?
    && q.net.jti.Fine? && !q.net.storeFamily.Refused?
    && s.store.Live(RevokedJti(s.tokens[q.token].claims.jti))
  }

  predicate Unexpired(s: Server, n: nat) {
    n < |s.tokens| && s.store.now < s.tokens[n].claims.exp
  }

  /** The server with the entry of the family of token n. */
  function FamilyDenied(s: Server, n: nat): Server
    requires Unexpired(s, n)
  {
    s.(store := s.store.Set(RevokedFamily(s.tokens[n].claims.family), Sentinel,
                            Denylist.TtlOf(s.tokens[n].claims.exp - s.store.now)))
  }

  /** The step writes that entry. */
  ghost predicate DeniesFamily(s: Server, t: Server, n: nat) {
    Unexpired(s, n) && s.tokens[n].claims.family.Id? && t == FamilyDenied(s, n)
  }

  /** The step accepts refresh token n: it signs an access and a refresh token that
      carries on its session, and denies n unless that write fails. */
  ghost predicate Rotates(s: Server, t: Server, n: nat, denies: bool) {
    && n < |s.tokens| && s.store.now < s.tokens[n].claims.exp && s.tokens[n].kind.Refresh?
    && s.tokens[n].claims.jti.Id? && s.tokens[n].claims.family.Id?
    && NotDenied(s.store, s.tokens[n].claims)
    && t.directory == s.directory && t.nextId == s.nextId + 2
    && |t.tokens| == |s.tokens| + 2 && s.tokens <= t.tokens
    && t.tokens[|s.tokens|].kind.Access? && t.tokens[|s.tokens|].claims.jti == Id(s.nextId)
    && t.tokens[|s.tokens|].claims.exp == WholeSeconds(s.store.now + LifetimeOf(t.tokens[|s.tokens|]) * SECOND)
    && t.tokens[|s.tokens| + 1].kind.Refresh?
    && t.tokens[|s.tokens|].origin == Rotated(n) == t.tokens[|s.tokens| + 1].origin
    && (var c := s.tokens[n].claims;
        t.tokens[|s.tokens| + 1].claims ==
        Claims(ISSUER, Id(s.nextId + 1), c.subject, c.audience, c.azp, c.family, c.scopes,
               WholeSeconds(s.store.now + LifetimeOf(t.tokens[|s.tokens| + 1]) * SECOND), WholeSeconds(s.store.now),
               WholeSeconds(s.store.now)))
    && t.store == if denies then s.store.Set(RevokedJti(s.tokens[n].claims.jti), Sentinel,
                                             Denylist.TtlOf(s.tokens[n].claims.exp - s.store.now))
                  else s.store
  }

  // ---- The handlers do no more ----------------------------------------------------------

  lemma ClientIssues(u: Setup, s: Server, q: ClientRequest)
    ensures Issues(s, ClientCredentials(u, s, q).0)
  {
    GrantIssues(u, s, q, PlanOf(q.scope));
  }

  lemma GrantIssues(u: Setup, s: Server, q: ClientRequest, plan: Plan)
    ensures Issues(s, GrantPlan(u, s, q, plan).0)
  {
  }

  lemma OtpIssues(s: Server, email: string, raw: string, lookup: Otp.Lookup, net: Otp.HandlerNet, signs: bool)
    ensures Issues(s, OtpVerify(s, email, raw, lookup, net, signs).0)
  {
    var otp := TrimSpace(raw);
    OtpKeepsDenylist(s.store, email, otp, lookup, net);
    var outcome := Otp.VerifyRequest(s.store, email, otp, lookup, net).1;
  }

  lemma OtpKeepsDenylist(s: Store, email: string, otp: string, lookup: Otp.Lookup, net: Otp.HandlerNet)
    ensures SameDenylist(s, Otp.VerifyRequest(s, email, otp, lookup, net).0)
    ensures Otp.VerifyRequest(s, email, otp, lookup, net).0.now == s.now
  {
    Otp.VerifyRequestIsLocal(s, email, otp, lookup, net);
  }

  lemma PasskeyIssues(s: Server, challenge: string, c: Passkeys.Ceremony, banned: bool, net: Passkeys.LoginNet,
                      signs: Signing)
    ensures Issues(s, PasskeyComplete(s, challenge, c, banned, net, signs).0)
  {
    var (store, login) := Passkeys.LoginComplete(s.store, challenge, c, banned, net);
    assert SameDenylist(s.store, store) && store.now == s.store.now;
    if login.Success? {
      SignLoginIssues(s.(store := store), challenge, login.value, signs);
    }
  }

  lemma SignLoginIssues(s: Server, challenge: string, session: LoginSession, signs: Signing)
    ensures Issues(s, SignLogin(s, challenge, session, signs).0)
  {
  }

  lemma ExchangeIssues(u: Setup, s: Server, q: AuthCode.ExchangeRequest, banned: bool, net: AuthCode.ExchangeNet,
                       signs: Signing)
    ensures Issues(s, CodeExchange(u, s, q, banned, net, signs).0)
  {
    var (store, entry) := AuthCode.Exchange(u.codeGrant, u.s256, s.directory, s.store, q, net);
    assert SameDenylist(s.store, store) && store.now == s.store.now;
    if entry.Success? && !banned {
      SignExchangedIssues(s.(store := store), q, entry.value, signs);
    }
  }

  lemma SignExchangedIssues(s: Server, q: AuthCode.ExchangeRequest, entry: AuthCodeEntry, signs: Signing)
    ensures Issues(s, SignExchanged(s, q, entry, signs).0)
  {
  }

  /** Requests that sign nothing and are no refresh or revocation. */
  lemma OthersIssue(u: Setup, s: Server, a: Action)
    requires Unrelated(a)
    requires a.Tick? || a.PasskeyBegins? || a.Authorizes? || a.CallsService? || a.Reloads? || a.Other?
    ensures Issues(s, Step(u, s, a))
  {
  }

  lemma StepIssues(u: Setup, s: Server, a: Action)
    requires Unrelated(a) && !a.Rotate? && !a.Revokes?
    ensures Issues(s, Step(u, s, a))
  {
    match a
    case Client(q) => ClientIssues(u, s, q);
    case OtpLogsIn(email, otp, lookup, net, signs) => OtpIssues(s, email, otp, lookup, net, signs);
    case PasskeyLogsIn(challenge, c, banned, net, signs) => PasskeyIssues(s, challenge, c, banned, net, signs);
    case Exchanges(q, banned, net, signs) => ExchangeIssues(u, s, q, banned, net, signs);
    case _ => OthersIssue(u, s, a);
  }

  lemma RevokeDenies(u: Setup, s: Server, q: RevokeRequest)
    ensures Revoke(u, s, q).0 == s || Denies(s, Revoke(u, s, q).0, q.token)
    ensures Revoke(u, s, q).1.RevokeStored? ==> Denies(s, Revoke(u, s, q).0, q.token)
  {
  }

  lemma AcceptedRefreshRotates(u: Setup, s: Server, q: RefreshRequest)
    requires Inv(s) && RefreshGrant(u, s, q).1.Pair?
    ensures Rotates(s, RefreshGrant(u, s, q).0, q.token, !q.net.storeJti.Refused?)
  {
    PairIffChecksPass(u, s, q);
    assert TokenOk(s.tokens, q.token);
    var c := s.tokens[q.token].claims;
    assert RevocationCheck(s.store, c, q.net) == (s.store, None);
    RotatedIsSigned(s, q, c);
  }

  lemma RotatedIsSigned(s: Server, q: RefreshRequest, c: Claims)
    requires q.token < |s.tokens| && c == s.tokens[q.token].claims && TokenOk(s.tokens, q.token)
    requires s.tokens[q.token].kind.Refresh? && c.azp == q.clientId
    ensures var t, n := SignRotated(s, q, c), |s.tokens|;
            && t == s.(tokens := t.tokens, nextId := s.nextId + 2) && s.tokens <= t.tokens && |t.tokens| == n + 2
            && t.tokens[n].kind.Access? && t.tokens[n].claims.jti == Id(s.nextId) && t.tokens[n + 1].kind.Refresh?
            && t.tokens[n].claims.exp == WholeSeconds(s.store.now + LifetimeOf(t.tokens[n]) * SECOND)
            && t.tokens[n].origin == Rotated(q.token) == t.tokens[n + 1].origin
            && t.tokens[n + 1].claims ==
               Claims(ISSUER, Id(s.nextId + 1), c.subject, c.audience, c.azp, c.family, c.scopes,
                      WholeSeconds(s.store.now + LifetimeOf(t.tokens[n + 1]) * SECOND), WholeSeconds(s.store.now),
                      WholeSeconds(s.store.now))
  {
    assert [RefreshAudience(c)] == c.audience;
  }

  lemma DetectionDeniesFamily(u: Setup, s: Server, q: RefreshRequest)
    requires Inv(s) && Detects(u, s, q)
    ensures RefreshGrant(u, s, q).1 == Denied(Revoked)
    ensures DeniesFamily(s, RefreshGrant(u, s, q).0, q.token)
  {
    assert TokenOk(s.tokens, q.token);
  }

  lemma RefusedRefreshChangesNothing(u: Setup, s: Server, q: RefreshRequest)
    requires Inv(s) && RefreshGrant(u, s, q).1.Denied? && RefreshGrant(u, s, q).1.error != SigningFailed
    requires !Detects(u, s, q)
    ensures RefreshGrant(u, s, q).0 == s
  {
    if RefreshRefusal(u, s, q).None? {
      assert TokenOk(s.tokens, q.token);
    }
  }

  /** A refresh whose signatures fail may have signed an access token; it denies nothing. */
  lemma FailedSigningDeniesNothing(u: Setup, s: Server, q: RefreshRequest)
    requires Inv(s) && RefreshGrant(u, s, q).1 == Denied(SigningFailed)
    ensures Issues(s, RefreshGrant(u, s, q).0) && RefreshGrant(u, s, q).0.store == s.store
    ensures var t := RefreshGrant(u, s, q).0;
            || t.tokens == s.tokens
            || (&& |t.tokens| == |s.tokens| + 1
                && t.tokens[|s.tokens|].kind.Access? && t.tokens[|s.tokens|].origin.Rotated?)
  {
    assert TokenOk(s.tokens, q.token);
  }

  /** Every step is of one of these kinds. */
  ghost predicate Summary(u: Setup, s: Server, a: Action, t: Server) {
    if a.Rotate? then
      var q := a.rotation;
      if Detects(u, s, q) then DeniesFamily(s, t, q.token)
      else t == s || Rotates(s, t, q.token, !q.net.storeJti.Refused?) || (Issues(s, t) && t.store == s.store)
    else if a.Revokes? then t == s || Denies(s, t, a.revocation.token)
    else Issues(s, t)
  }

  lemma StepSummary(u: Setup, s: Server, a: Action)
    requires Inv(s) && Unrelated(a)
    ensures Summary(u, s, a, Step(u, s, a))
  {
    if a.Rotate? {
      RotateSummary(u, s, a.rotation);
    } else if a.Revokes? {
      RevokeDenies(u, s, a.revocation);
    } else {
      StepIssues(u, s, a);
    }
  }

  lemma RotateSummary(u: Setup, s: Server, q: RefreshRequest)
    requires Inv(s)
    ensures Summary(u, s, Rotate(q), RefreshGrant(u, s, q).0)
  {
    if Detects(u, s, q) {
      DetectionDeniesFamily(u, s, q);
    } else if RefreshGrant(u, s, q).1 == Denied(SigningFailed) {
      FailedSigningDeniesNothing(u, s, q);
    } else if RefreshGrant(u, s, q).1.Denied? {
      RefusedRefreshChangesNothing(u, s, q);
    } else {
      AcceptedRefreshRotates(u, s, q);
    }
  }

  predicate Extends(s: Server, t: Server) {
    s.tokens <= t.tokens && s.nextId <= t.nextId && s.store.now <= t.store.now
  }

  lemma SummaryExtends(u: Setup, s: Server, a: Action, t: Server)
    requires Summary(u, s, a, t)
    ensures Extends(s, t)
  {
  }

  // ---- Lifetimes ------------------------------------------------------------------------------

  predicate LifetimesOk(s: Server) {
    forall i :: 0 <= i < |s.tokens| ==> s.tokens[i].claims.exp <= s.store.now + LifetimeOf(s.tokens[i]) * SECOND
  }

  lemma SummaryKeepsLifetimes(u: Setup, s: Server, a: Action, t: Server)
    requires Summary(u, s, a, t) && LifetimesOk(s)
    ensures LifetimesOk(t)
  {
    SummaryExtends(u, s, a, t);
    forall i | 0 <= i < |t.tokens| ensures t.tokens[i].claims.exp <= t.store.now + LifetimeOf(t.tokens[i]) * SECOND {
      if i < |s.tokens| {
        assert t.tokens[i] == s.tokens[i];
      } else if Issues(s, t) {
        assert FreshToken(s, t.tokens[i]);
      }
    }
  }

  /** At any time of any run no token has more to live than its kind allows. */
  lemma {:induction false} NoTokenLivesLonger(u: Setup, d: Directory, now: Time, actions: seq<Action>)
    requires forall a :: a in actions ==> Unrelated(a)
    ensures LifetimesOk(Run(u, Initial(d, now), actions))
  {
    if actions != [] {
      var before, a := actions[..|actions| - 1], actions[|actions| - 1];
      var s := Run(u, Initial(d, now), before);
      NoTokenLivesLonger(u, d, now, before);
      InvRun(u, d, now, before);
      StepSummary(u, s, a);
      SummaryKeepsLifetimes(u, s, a, Step(u, s, a));
    }
  }
}
