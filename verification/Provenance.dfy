// Where the tokens of a login or of a code exchange come from: the requests of the
// run that asked for them.

module Provenance {
  import opened Wrappers
  import opened TtlStore
  import opened Scopes
  import opened Clients
  import opened AuthServer
  import opened TokenHistory
  import AuthCode
  import Otp
  import Passkeys
  import Runs

  // ---- What one step can add -----------------------------------------------------------------

  /** The step stores this entry under this code, for an authorize request it accepts. */
  predicate StoresCode(u: Setup, s: Server, a: Action, code: string, entry: AuthCodeEntry) {
    && a.Authorizes? && a.code == code && AuthCode.EntryOf(a.query) == entry
    && AuthCode.AuthorizeRefusal(u.codeGrant, s.directory, a.query).None?
  }

  /** The step exchanges this code by the client, with the redirect URI and with a
      verifier that the entry asks for. */
  predicate ExchangesCode(u: Setup, a: Action, code: string, entry: AuthCodeEntry) {
    && a.Exchanges? && a.exchange.code == code && a.exchange.clientId == entry.clientId
    && a.exchange.redirectUri == entry.redirectUri && u.s256(a.exchange.verifier) == entry.codeChallenge
  }

  /** The step begins a login with this session for a registered client. */
  predicate BeginsLogin(s: Server, a: Action, challenge: string, session: LoginSession) {
    && a.PasskeyBegins? && a.challenge == challenge && a.session == session
    && session.userId != "" && session.clientId in s.directory
  }

  predicate CompletesLogin(a: Action, challenge: string) {
    a.PasskeyLogsIn? && a.assertion == challenge && a.ceremony.valid
  }

  predicate IsPayloadKey(k: Key) {
    k.AuthCodeKey? || k.LoginSessionKey?
  }

  /** Code entries and login sessions are the old ones, or gone. */
  ghost predicate PayloadsFrom(s: Store, t: Store) {
    forall k: Key :: IsPayloadKey(k) && k in t.entries ==> k in s.entries && t.entries[k].value == s.entries[k].value
  }

  /** Every token the step signs was asked for by it. */
  predicate SignsOwn(u: Setup, s: Server, a: Action, t: Server) {
    s.tokens <= t.tokens && forall i :: |s.tokens| <= i < |t.tokens| ==> TokenFrom(u, s, a, t.tokens[i])
  }

  lemma PlainSteps(u: Setup, s: Server, a: Action)
    requires Unrelated(a) && (a.Tick? || a.CallsService? || a.Revokes? || a.Reloads? || a.Other?)
    ensures PayloadsFrom(s.store, Step(u, s, a).store) && SignsOwn(u, s, a, Step(u, s, a))
  {
  }

  lemma ClientStep(u: Setup, s: Server, q: ClientRequest)
    ensures PayloadsFrom(s.store, ClientCredentials(u, s, q).0.store)
    ensures SignsOwn(u, s, Client(q), ClientCredentials(u, s, q).0)
  {
  }

  lemma RotationStep(u: Setup, s: Server, q: RefreshRequest)
    ensures PayloadsFrom(s.store, RefreshGrant(u, s, q).0.store)
    ensures SignsOwn(u, s, Rotate(q), RefreshGrant(u, s, q).0)
  {
    RotationSigns(u, s, q);
  }

  lemma RotationSigns(u: Setup, s: Server, q: RefreshRequest)
    ensures SignsOwn(u, s, Rotate(q), RefreshGrant(u, s, q).0)
  {
    var t := RefreshGrant(u, s, q).0;
    if RefreshRefusal(u, s, q).None? {
      var c := s.tokens[q.token].claims;
      var s1 := s.(store := RevocationCheck(s.store, c, q.net).0);
      SuccessorsRotate(s1, q, c);
      assert t.tokens == s.tokens || t.tokens == SignRotatedAccess(s1, q, c).tokens
             || t.tokens == SignRotated(s1, q, c).tokens;
    }
  }

  lemma SuccessorsRotate(s: Server, q: RefreshRequest, c: Claims)
    ensures var t := SignRotatedAccess(s, q, c);
            s.tokens <= t.tokens && forall i :: |s.tokens| <= i < |t.tokens| ==> t.tokens[i].origin == Rotated(q.token)
    ensures var t := SignRotated(s, q, c);
            s.tokens <= t.tokens && forall i :: |s.tokens| <= i < |t.tokens| ==> t.tokens[i].origin == Rotated(q.token)
  {
  }

  lemma OtpStep(u: Setup, s: Server, email: string, raw: string, lookup: Otp.Lookup, net: Otp.HandlerNet, signs: bool)
    ensures var t := OtpVerify(s, email, raw, lookup, net, signs).0;
            PayloadsFrom(s.store, t.store) && SignsOwn(u, s, OtpLogsIn(email, raw, lookup, net, signs), t)
  {
    Otp.VerifyRequestIsLocal(s.store, email, TrimSpace(raw), lookup, net);
    Otp.VerifiedIff(s.store, email, TrimSpace(raw), lookup, net);
  }

  /** The step is of one of these kinds. */
  ghost predicate Effect(u: Setup, s: Server, a: Action, t: Server) {
    && s.tokens <= t.tokens
    && (forall code :: AuthCodeKey(code) in t.store.entries ==> CodeFrom(u, s, a, t, code))
    && (forall challenge :: LoginSessionKey(challenge) in t.store.entries ==> SessionFrom(s, a, t, challenge))
    && (forall i :: |s.tokens| <= i < |t.tokens| ==> TokenFrom(u, s, a, t.tokens[i]))
  }

  predicate CodeFrom(u: Setup, s: Server, a: Action, t: Server, code: string)
    requires AuthCodeKey(code) in t.store.entries
  {
    var key, value := AuthCodeKey(code), t.store.entries[AuthCodeKey(code)].value;
    (key in s.store.entries && s.store.entries[key].value == value)
    || (value.AuthCode? && StoresCode(u, s, a, code, value.entry))
  }

  predicate SessionFrom(s: Server, a: Action, t: Server, challenge: string)
    requires LoginSessionKey(challenge) in t.store.entries
  {
    var key, value := LoginSessionKey(challenge), t.store.entries[LoginSessionKey(challenge)].value;
    (key in s.store.entries && s.store.entries[key].value == value)
    || (value.Login? && BeginsLogin(s, a, challenge, value.session))
  }

  predicate TokenFrom(u: Setup, s: Server, a: Action, token: Token) {
    match token.origin
    case CodeGrant(code, entry) =>
      ExchangesCode(u, a, code, entry) && s.store.Get(AuthCodeKey(code)) == Some(AuthCode(entry))
    case PasskeyLogin(challenge, session) =>
      CompletesLogin(a, challenge) && s.store.Get(LoginSessionKey(challenge)) == Some(Login(session))
    case OtpLogin(email, userId) =>
      && a.OtpLogsIn? && a.email == email && a.lookup == Otp.Account(userId)
      && s.store.Get(OtpCode(email)) == Some(Text(TrimSpace(a.otp))) && !s.store.Live(OtpRedeemed(email))
    case ClientGrant(requested, allowed) =>
      && a.Client? && KnowsSecret(u, s, a.request.clientId, a.request.clientSecret)
      && requested == a.request.scope && allowed == s.directory[a.request.clientId].allowedScopes
      && token.claims.subject == a.request.clientId
    case Rotated(p) =>
      && a.Rotate? && KnowsSecret(u, s, a.rotation.clientId, a.rotation.clientSecret)
      && a.rotation.token == p < |s.tokens| && s.tokens[p].claims.azp == a.rotation.clientId
    case ServiceCall => a.CallsService?
  }

  /** The client is registered and the secret is its own. */
  predicate KnowsSecret(u: Setup, s: Server, id: string, secret: string) {
    id != "" && secret != "" && id in s.directory && u.hash(secret) == s.directory[id].secretHash
  }

  lemma PayloadsFromEffect(u: Setup, s: Server, a: Action, t: Server)
    requires PayloadsFrom(s.store, t.store) && SignsOwn(u, s, a, t)
    ensures Effect(u, s, a, t)
  {
    forall code | AuthCodeKey(code) in t.store.entries ensures CodeFrom(u, s, a, t, code) {
      assert IsPayloadKey(AuthCodeKey(code));
    }
    forall challenge | LoginSessionKey(challenge) in t.store.entries ensures SessionFrom(s, a, t, challenge) {
      assert IsPayloadKey(LoginSessionKey(challenge));
    }
  }

  lemma ExchangeEffect(u: Setup, s: Server, q: AuthCode.ExchangeRequest, banned: bool, net: AuthCode.ExchangeNet,
                       signs: Signing)
    ensures Effect(u, s, Exchanges(q, banned, net, signs), CodeExchange(u, s, q, banned, net, signs).0)
  {
    var (store, entry) := AuthCode.Exchange(u.codeGrant, u.s256, s.directory, s.store, q, net);
    var t := CodeExchange(u, s, q, banned, net, signs).0;
    assert t.store == store;
    forall i | |s.tokens| <= i < |t.tokens|
      ensures TokenFrom(u, s, Exchanges(q, banned, net, signs), t.tokens[i])
    {
      assert entry.Success? && t.tokens[i].origin == CodeGrant(q.code, entry.value);
    }
  }

  lemma LoginEffect(u: Setup, s: Server, challenge: string, c: Passkeys.Ceremony, banned: bool, net: Passkeys.LoginNet,
                    signs: Signing)
    ensures Effect(u, s, PasskeyLogsIn(challenge, c, banned, net, signs),
                   PasskeyComplete(s, challenge, c, banned, net, signs).0)
  {
    var (store, login) := Passkeys.LoginComplete(s.store, challenge, c, banned, net);
    var t := PasskeyComplete(s, challenge, c, banned, net, signs).0;
    assert t.store == store;
    forall i | |s.tokens| <= i < |t.tokens|
      ensures TokenFrom(u, s, PasskeyLogsIn(challenge, c, banned, net, signs), t.tokens[i])
    {
      assert login.Success? && t.tokens[i].origin == PasskeyLogin(challenge, login.value);
    }
  }

  lemma StepEffect(u: Setup, s: Server, a: Action)
    requires Unrelated(a)
    ensures Effect(u, s, a, Step(u, s, a))
  {
    match a
    case Rotate(q) => RotationStep(u, s, q); PayloadsFromEffect(u, s, a, Step(u, s, a));
    case Client(q) => ClientStep(u, s, q); PayloadsFromEffect(u, s, a, Step(u, s, a));
    case OtpLogsIn(email, otp, lookup, net, signs) =>
      OtpStep(u, s, email, otp, lookup, net, signs);
      PayloadsFromEffect(u, s, a, Step(u, s, a));
    case PasskeyLogsIn(challenge, c, banned, net, signs) => LoginEffect(u, s, challenge, c, banned, net, signs);
    case Exchanges(q, banned, net, signs) => ExchangeEffect(u, s, q, banned, net, signs);
    case PasskeyBegins(challenge, session, net) =>
    case Authorizes(q, code, net) =>
    case _ => PlainSteps(u, s, a); PayloadsFromEffect(u, s, a, Step(u, s, a));
  }

  // ---- Over whole runs -----------------------------------------------------------------------------

  ghost predicate CodeStoredAt(u: Setup, s0: Server, actions: seq<Action>, k: nat, code: string, entry: AuthCodeEntry) {
    k < |actions| && StoresCode(u, Run(u, s0, actions[..k]), actions[k], code, entry)
  }

  ghost predicate CodeExchangedAt(
    u: Setup, s0: Server, actions: seq<Action>, j: nat, i: nat, code: string, entry: AuthCodeEntry)
  {
    && j < |actions| && ExchangesCode(u, actions[j], code, entry)
    && |Run(u, s0, actions[..j]).tokens| <= i < |Run(u, s0, actions[..j + 1]).tokens|
  }

  ghost predicate LoginBegunAt(u: Setup, s0: Server, actions: seq<Action>, k: nat, challenge: string,
                               session: LoginSession) {
    k < |actions| && BeginsLogin(Run(u, s0, actions[..k]), actions[k], challenge, session)
  }

  ghost predicate LoginCompletedAt(u: Setup, s0: Server, actions: seq<Action>, j: nat, i: nat, challenge: string) {
    && j < |actions| && CompletesLogin(actions[j], challenge)
    && |Run(u, s0, actions[..j]).tokens| <= i < |Run(u, s0, actions[..j + 1]).tokens|
  }

  /** Every code entry and login session in the store was put there by the run. */
  ghost predicate StoreRecorded(u: Setup, s0: Server, actions: seq<Action>, s: Store) {
    && (forall code :: AuthCodeKey(code) in s.entries ==>
          && s.entries[AuthCodeKey(code)].value.AuthCode?
          && exists k :: CodeStoredAt(u, s0, actions, k, code, s.entries[AuthCodeKey(code)].value.entry))
    && (forall challenge :: LoginSessionKey(challenge) in s.entries ==>
          && s.entries[LoginSessionKey(challenge)].value.Login?
          && exists k :: LoginBegunAt(u, s0, actions, k, challenge,
                                      s.entries[LoginSessionKey(challenge)].value.session))
  }

  ghost predicate TokenRecorded(u: Setup, s0: Server, actions: seq<Action>, i: nat, token: Token) {
    match token.origin
    case CodeGrant(code, entry) =>
      exists k, j :: k < j && CodeStoredAt(u, s0, actions, k, code, entry)
          && CodeExchangedAt(u, s0, actions, j, i, code, entry)
    case PasskeyLogin(challenge, session) =>
      exists k, j :: k < j && LoginBegunAt(u, s0, actions, k, challenge, session)
                     && LoginCompletedAt(u, s0, actions, j, i, challenge)
    case _ => true
  }

  ghost predicate Recorded(u: Setup, s0: Server, actions: seq<Action>) {
    var s := Run(u, s0, actions);
    && StoreRecorded(u, s0, actions, s.store)
    && forall i :: 0 <= i < |s.tokens| ==> TokenRecorded(u, s0, actions, i, s.tokens[i])
  }

  lemma TokenStaysRecorded(u: Setup, s0: Server, before: seq<Action>, a: Action, i: nat, token: Token)
    requires TokenRecorded(u, s0, before, i, token)
    ensures TokenRecorded(u, s0, before + [a], i, token)
  {
    var actions := before + [a];
    assert forall k :: 0 <= k <= |before| ==> actions[..k] == before[..k];
    match token.origin
    case CodeGrant(code, entry) =>
      var k, j :| k < j && CodeStoredAt(u, s0, before, k, code, entry)
          && CodeExchangedAt(u, s0, before, j, i, code, entry);
      assert CodeStoredAt(u, s0, actions, k, code, entry) && CodeExchangedAt(u, s0, actions, j, i, code, entry);
    case PasskeyLogin(challenge, session) =>
      var k, j :| k < j && LoginBegunAt(u, s0, before, k, challenge, session)
                  && LoginCompletedAt(u, s0, before, j, i, challenge);
      assert LoginBegunAt(u, s0, actions, k, challenge, session) && LoginCompletedAt(u, s0, actions, j, i, challenge);
    case _ =>
  }

  lemma NewTokenRecorded(u: Setup, s0: Server, before: seq<Action>, a: Action, i: nat)
    requires Recorded(u, s0, before) && Effect(u, Run(u, s0, before), a, Run(u, s0, before + [a]))
    requires |Run(u, s0, before).tokens| <= i < |Run(u, s0, before + [a]).tokens|
    ensures TokenRecorded(u, s0, before + [a], i, Run(u, s0, before + [a]).tokens[i])
  {
    var actions, s, token := before + [a], Run(u, s0, before), Run(u, s0, before + [a]).tokens[i];
    assert forall k :: 0 <= k <= |before| ==> actions[..k] == before[..k];
    assert before[..|before|] == before && actions[..|before| + 1] == actions;
    assert TokenFrom(u, s, a, token);
    match token.origin
    case CodeGrant(code, entry) =>
      var k :| CodeStoredAt(u, s0, before, k, code, entry);
      assert CodeStoredAt(u, s0, actions, k, code, entry) && CodeExchangedAt(u, s0, actions, |before|, i, code, entry);
    case PasskeyLogin(challenge, session) =>
      var k :| LoginBegunAt(u, s0, before, k, challenge, session);
      assert LoginBegunAt(u, s0, actions, k, challenge, session);
      assert LoginCompletedAt(u, s0, actions, |before|, i, challenge);
    case _ =>
  }

  lemma StoreStaysRecorded(u: Setup, s0: Server, before: seq<Action>, a: Action)
    requires Recorded(u, s0, before) && Effect(u, Run(u, s0, before), a, Run(u, s0, before + [a]))
    ensures StoreRecorded(u, s0, before + [a], Run(u, s0, before + [a]).store)
  {
    var actions, s, t := before + [a], Run(u, s0, before), Run(u, s0, before + [a]).store;
    assert forall k :: 0 <= k <= |before| ==> actions[..k] == before[..k];
    assert before[..|before|] == before;
    forall code | AuthCodeKey(code) in t.entries
      ensures t.entries[AuthCodeKey(code)].value.AuthCode?
      ensures exists k :: CodeStoredAt(u, s0, actions, k, code, t.entries[AuthCodeKey(code)].value.entry)
    {
      var key := AuthCodeKey(code);
      assert CodeFrom(u, s, a, Run(u, s0, actions), code);
      if key in s.store.entries && s.store.entries[key].value == t.entries[key].value {
        var k :| CodeStoredAt(u, s0, before, k, code, t.entries[key].value.entry);
        assert CodeStoredAt(u, s0, actions, k, code, t.entries[key].value.entry);
      } else {
        assert CodeStoredAt(u, s0, actions, |before|, code, t.entries[key].value.entry);
      }
    }
    forall challenge | LoginSessionKey(challenge) in t.entries
      ensures t.entries[LoginSessionKey(challenge)].value.Login?
      ensures exists k :: LoginBegunAt(u, s0, actions, k, challenge,
                                       t.entries[LoginSessionKey(challenge)].value.session)
    {
      var key := LoginSessionKey(challenge);
      assert SessionFrom(s, a, Run(u, s0, actions), challenge);
      if key in s.store.entries && s.store.entries[key].value == t.entries[key].value {
        var k :| LoginBegunAt(u, s0, before, k, challenge, t.entries[key].value.session);
        assert LoginBegunAt(u, s0, actions, k, challenge, t.entries[key].value.session);
      } else {
        assert LoginBegunAt(u, s0, actions, |before|, challenge, t.entries[key].value.session);
      }
    }
  }

  lemma {:induction false} RecordedRun(u: Setup, d: Directory, now: Time, actions: seq<Action>)
    requires forall a :: a in actions ==> Unrelated(a)
    ensures Recorded(u, Initial(d, now), actions)
  {
    if actions != [] {
      var before, a, s0 := actions[..|actions| - 1], actions[|actions| - 1], Initial(d, now);
      RecordedRun(u, d, now, before);
      assert before + [a] == actions;
      Runs.RunAppend(Machine(u), s0, before, a);
      StepEffect(u, Run(u, s0, before), a);
      StoreStaysRecorded(u, s0, before, a);
      forall i | 0 <= i < |Run(u, s0, actions).tokens|
        ensures TokenRecorded(u, s0, actions, i, Run(u, s0, actions).tokens[i])
      {
        if i < |Run(u, s0, before).tokens| {
          TokenStaysRecorded(u, s0, before, a, i, Run(u, s0, before).tokens[i]);
        } else {
          NewTokenRecorded(u, s0, before, a, i);
        }
      }
    }
  }

  /** Over every run, a token signed for an authorization code carries the user and
      the scope of an authorize request of that run, for a redirect URI registered
      then, and was signed by an exchange of that code with the same client and
      redirect URI and a verifier that meets the challenge (section 4.6 of RFC 7636,
      section 4.1.3 of RFC 6749); the refresh token names that client. */
  lemma CodeTokensMatchTheRequest(u: Setup, d: Directory, now: Time, actions: seq<Action>, i: nat)
    returns (k: nat, j: nat)
    requires forall a :: a in actions ==> Unrelated(a)
    requires i < |Run(u, Initial(d, now), actions).tokens|
    requires Run(u, Initial(d, now), actions).tokens[i].origin.CodeGrant?
    ensures k < j < |actions| && actions[k].Authorizes? && actions[j].Exchanges?
    ensures var q, x, s0 := actions[k].query, actions[j].exchange, Initial(d, now);
            && AuthCode.AuthorizeRefusal(u.codeGrant, Run(u, s0, actions[..k]).directory, q).None?
            && x.code == actions[k].code && x.clientId == q.clientId && x.redirectUri == q.redirectUri
            && u.s256(x.verifier) == q.codeChallenge
            && |Run(u, s0, actions[..j]).tokens| <= i < |Run(u, s0, actions[..j + 1]).tokens|
    ensures var q, t := actions[k].query, Run(u, Initial(d, now), actions).tokens[i];
            && t.claims.subject == q.userId && t.claims.audience == [USER_AUDIENCE]
            && if t.kind.Access? then t.claims.scopes == Fields(q.scope)
               else t.claims.scopes == [OFFLINE] + Fields(q.scope) && t.claims.azp == q.clientId
  {
    InvRun(u, d, now, actions);
    RecordedRun(u, d, now, actions);
    var s := Run(u, Initial(d, now), actions);
    assert TokenOk(s.tokens, i) && TokenRecorded(u, Initial(d, now), actions, i, s.tokens[i]);
    var o := s.tokens[i].origin;
    k, j :| k < j && CodeStoredAt(u, Initial(d, now), actions, k, o.code, o.entry)
            && CodeExchangedAt(u, Initial(d, now), actions, j, i, o.code, o.entry);
  }

  /** Over every run, a token signed for a passkey login carries the user of a login
      that was begun in that run, for a client registered then, and was signed by a
      valid completion of its challenge; the refresh token names that client. */
  lemma LoginTokensMatchTheSession(u: Setup, d: Directory, now: Time, actions: seq<Action>, i: nat)
    returns (k: nat, j: nat)
    requires forall a :: a in actions ==> Unrelated(a)
    requires i < |Run(u, Initial(d, now), actions).tokens|
    requires Run(u, Initial(d, now), actions).tokens[i].origin.PasskeyLogin?
    ensures k < j < |actions| && actions[k].PasskeyBegins? && actions[j].PasskeyLogsIn?
    ensures actions[j].assertion == actions[k].challenge && actions[j].ceremony.valid
    ensures actions[k].session.clientId in Run(u, Initial(d, now), actions[..k]).directory
    ensures |Run(u, Initial(d, now), actions[..j]).tokens| <= i < |Run(u, Initial(d, now), actions[..j + 1]).tokens|
    ensures var session, t := actions[k].session, Run(u, Initial(d, now), actions).tokens[i];
            && t.claims.subject == session.userId && t.claims.audience == [USER_AUDIENCE]
            && if t.kind.Access? then t.claims.scopes == [PASSKEY_SCOPE]
               else t.claims.scopes == [OFFLINE] && t.claims.azp == session.clientId
  {
    InvRun(u, d, now, actions);
    RecordedRun(u, d, now, actions);
    var s := Run(u, Initial(d, now), actions);
    assert TokenOk(s.tokens, i) && TokenRecorded(u, Initial(d, now), actions, i, s.tokens[i]);
    var o := s.tokens[i].origin;
    k, j :| k < j && LoginBegunAt(u, Initial(d, now), actions, k, o.challenge, o.session)
            && LoginCompletedAt(u, Initial(d, now), actions, j, i, o.challenge);
  }

  /** Every token was signed by one step of the run, which asked for it. */
  lemma {:induction false} SignedByAStep(u: Setup, d: Directory, now: Time, actions: seq<Action>, i: nat)
    returns (j: nat)
    requires forall a :: a in actions ==> Unrelated(a)
    requires i < |Run(u, Initial(d, now), actions).tokens|
    ensures j < |actions|
    ensures var s, t := Run(u, Initial(d, now), actions[..j]), Run(u, Initial(d, now), actions[..j + 1]);
            && |s.tokens| <= i < |t.tokens| && t == Step(u, s, actions[j])
            && t.tokens[i] == Run(u, Initial(d, now), actions).tokens[i] && TokenFrom(u, s, actions[j], t.tokens[i])
  {
    var before, a := actions[..|actions| - 1], actions[|actions| - 1];
    var s := Run(u, Initial(d, now), before);
    StepEffect(u, s, a);
    if i < |s.tokens| {
      j := SignedByAStep(u, d, now, before, i);
      assert actions[..j] == before[..j] && actions[..j + 1] == before[..j + 1];
    } else {
      j := |before|;
      assert actions[..j + 1] == actions;
    }
  }

  /** Over every run, a token of a client_credentials grant or of a refresh was signed
      for a request that presented the secret registered for its client at that moment;
      the first is that client's own and the second succeeds a token of that client. */
  lemma ClientTokensNeededTheSecret(u: Setup, d: Directory, now: Time, actions: seq<Action>, i: nat) returns (j: nat)
    requires forall a :: a in actions ==> Unrelated(a)
    requires i < |Run(u, Initial(d, now), actions).tokens|
    requires var o := Run(u, Initial(d, now), actions).tokens[i].origin; o.ClientGrant? || o.Rotated?
    ensures j < |actions| && (actions[j].Client? || actions[j].Rotate?)
    ensures |Run(u, Initial(d, now), actions[..j]).tokens| <= i < |Run(u, Initial(d, now), actions[..j + 1]).tokens|
    ensures var s, t := Run(u, Initial(d, now), actions[..j]), Run(u, Initial(d, now), actions).tokens[i];
            var (id, secret) :=
              if actions[j].Client? then (actions[j].request.clientId, actions[j].request.clientSecret)
              else (actions[j].rotation.clientId, actions[j].rotation.clientSecret);
            && id in s.directory && u.hash(secret) == s.directory[id].secretHash
            && (t.origin.ClientGrant? ==>
                  actions[j].Client? && t.claims.subject == id && t.origin.requested == actions[j].request.scope
                  && t.origin.allowed == s.directory[id].allowedScopes)
            && (t.origin.Rotated? ==>
                  actions[j].Rotate? && t.origin.parent == actions[j].rotation.token < |s.tokens|
                  && s.tokens[t.origin.parent].claims.azp == id)
  {
    j := SignedByAStep(u, d, now, actions, i);
  }

  /** Over every run, a token of an OTP login carries the user that the customer service
      named for the address, and was signed when the pending code of that address was
      submitted, white space around it aside, and had not been redeemed. */
  lemma OtpTokensMatchTheCode(u: Setup, d: Directory, now: Time, actions: seq<Action>, i: nat) returns (j: nat)
    requires forall a :: a in actions ==> Unrelated(a)
    requires i < |Run(u, Initial(d, now), actions).tokens|
    requires Run(u, Initial(d, now), actions).tokens[i].origin.OtpLogin?
    ensures j < |actions| && actions[j].OtpLogsIn? && actions[j].lookup.Account?
    ensures |Run(u, Initial(d, now), actions[..j]).tokens| <= i < |Run(u, Initial(d, now), actions[..j + 1]).tokens|
    ensures var s, c := Run(u, Initial(d, now), actions[..j]), Run(u, Initial(d, now), actions).tokens[i].claims;
            && c.subject == actions[j].lookup.userId && c.audience == [USER_AUDIENCE] && c.scopes == [OTP_SCOPE]
            && s.store.Get(OtpCode(actions[j].email)) == Some(Text(TrimSpace(actions[j].otp)))
            && !s.store.Live(OtpRedeemed(actions[j].email))
  {
    InvRun(u, d, now, actions);
    assert TokenOk(Run(u, Initial(d, now), actions).tokens, i);
    j := SignedByAStep(u, d, now, actions, i);
  }

  // ---- What introspection says about scopes ----------------------------------------------------------

  lemma {:induction false} ScopesAreWords(ts: seq<Token>, i: nat)
    requires i < |ts| && (forall j :: 0 <= j < |ts| ==> TokenOk(ts, j)) && Word("svc:" + ts[i].claims.subject)
    ensures forall x :: x in ts[i].claims.scopes ==> Word(x)
  {
    assert TokenOk(ts, i);
    ConstantScopesAreWords();
    var c := ts[i].claims;
    match ts[i].origin
    case ClientGrant(requested, _) => PlanChecksWhatItSigns(requested);
    case Rotated(p) =>
      ScopesAreWords(ts, p);
      assert TokenOk(ts, p);
    case _ =>
  }

  lemma ConstantScopesAreWords()
    ensures Word(OTP_SCOPE) && Word(PASSKEY_SCOPE) && Word(OFFLINE) && Word("svc:" + ISSUER)
  {
    OfflineIsAWord();
    assert forall i :: 0 <= i < |OTP_SCOPE| ==> OTP_SCOPE[i] == ':' || 'a' <= OTP_SCOPE[i] <= 'z';
    assert forall i :: 0 <= i < |PASSKEY_SCOPE| ==> PASSKEY_SCOPE[i] == ':' || 'a' <= PASSKEY_SCOPE[i] <= 'z';
    var svc := "svc:" + ISSUER;
    assert forall i :: 0 <= i < |svc| ==> svc[i] == ':' || svc[i] == '-' || 'a' <= svc[i] <= 'z';
  }

  /** Splitting the scope string that introspection reports gives exactly the token's
      scopes, in order, if the subject holds no white space. */
  lemma IntrospectedScopes(u: Setup, d: Directory, now: Time, actions: seq<Action>, i: nat)
    requires forall a :: a in actions ==> Unrelated(a)
    requires i < |Run(u, Initial(d, now), actions).tokens|
    requires Word("svc:" + Run(u, Initial(d, now), actions).tokens[i].claims.subject)
    ensures var c := Run(u, Initial(d, now), actions).tokens[i].claims;
            c.scopes == match DetailsOf(c).scope case Some(scope) => Fields(scope) case None => []
  {
    InvRun(u, d, now, actions);
    ScopesAreWords(Run(u, Initial(d, now), actions).tokens, i);
    FieldsOfJoin(Run(u, Initial(d, now), actions).tokens[i].claims.scopes);
  }
}
