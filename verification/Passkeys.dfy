// Passkey ceremonies: the registration cap (internal/api/passkeys_register.go)
// and one-time login completions (internal/api/passkeys_auth.go), on the session
// keys of internal/db/webauthn.go and the claim marker of internal/db/cache.go.

module Passkeys {
  import opened Wrappers
  import opened TtlStore
  import Runs
  import SingleUse

  const MAX_PASSKEYS: nat := 10
  const SESSION_TTL: Ttl := 300
  const CLAIM_TTL: Ttl := 300

  datatype CacheError = NotConfigured | SessionNotFound | CacheDown

  function RegistrationClaim(user: string): Key {
    SessionClaim("reg:" + user)
  }

  function LoginClaim(challenge: string): Key {
    SessionClaim("login:" + challenge)
  }

  // ---- Store methods ----------------------------------------------------------

  method ClaimSession(api: Redis?, sessionId: string, net: Net) returns (r: Result<bool, CacheError>)
    modifies api
    ensures api == null ==> r == Failure(NotConfigured)
    ensures api != null ==>
              && r == (if net.Fine? then Success(!old(api.State()).Live(SessionClaim(sessionId)))
                       else Failure(CacheDown))
              && api.State() == if net.Refused? then old(api.State())
                                else old(api.State()).SetNX(SessionClaim(sessionId), Sentinel, CLAIM_TTL)
  {
    if api == null {
      return Failure(NotConfigured);
    }
    var claimed := api.SetNX(SessionClaim(sessionId), Sentinel, CLAIM_TTL, net);
    r := if claimed.Failure? then Failure(CacheDown) else Success(claimed.value);
  }

  /** Keeps a session under its key for 300 s (both ceremonies). */
  method StoreSession(api: Redis?, key: Key, session: Value, net: Net) returns (r: Result<(), CacheError>)
    modifies api
    ensures api == null ==> r == Failure(NotConfigured)
    ensures api != null ==>
              && r == (if net.Fine? then Success(()) else Failure(CacheDown))
              && api.State() == if net.Refused? then old(api.State())
                  else old(api.State()).Set(key, session, SESSION_TTL)
  {
    if api == null {
      return Failure(NotConfigured);
    }
    var stored := api.Set(key, session, SESSION_TTL, net);
    r := if stored.Failure? then Failure(CacheDown) else Success(());
  }

  method GetSession(api: Redis?, key: Key, net: Net) returns (r: Result<Value, CacheError>)
    ensures r == if api == null then Failure(NotConfigured)
                 else if !net.Fine? then Failure(CacheDown)
                 else if api.State().Live(key) then Success(api.State().entries[key].value)
                 else Failure(SessionNotFound)
  {
    if api == null {
      return Failure(NotConfigured);
    }
    var raw := api.Get(key, net);
    if raw.Failure? {
      return Failure(CacheDown);
    }
    if raw.value.None? {
      return Failure(SessionNotFound);
    }
    return Success(raw.value.value);
  }

  method DeleteSession(api: Redis?, key: Key, net: Net) returns (r: Result<(), CacheError>)
    modifies api
    ensures api == null ==> r == Failure(NotConfigured)
    ensures api != null ==>
              && r == (if net.Fine? then Success(()) else Failure(CacheDown))
              && api.State() == if net.Refused? then old(api.State()) else old(api.State()).Delete(key)
  {
    if api == null {
      return Failure(NotConfigured);
    }
    var deleted := api.Delete(key, net);
    r := if deleted.Failure? then Failure(CacheDown) else Success(());
  }

  // ---- Registration -------------------------------------------------------------

  /** How the calls outside this service go; a created credential's reply may be lost. */
  datatype Ceremony = Ceremony(valid: bool, serviceToken: bool, listed: bool, remote: Net)

  datatype RegisterNet = RegisterNet(get: Net, claim: Net, delete: Net)

  datatype Reply = Ok | TooMany | Unavailable | Failed | NoSession | Replayed

  /** `challenge` is the fresh challenge that the session of this ceremony holds. */
  function RegisterBegin(s: Store, user: string, existing: nat, challenge: string, c: Ceremony, net: Net):
    (Store, Reply)
  {
    if !c.serviceToken || !c.listed then (s, Unavailable)
    else if existing >= MAX_PASSKEYS then (s, TooMany)
    else if !c.valid then (s, Failed)
    else (if net.Refused? then s else s.Set(RegistrationSession(user), Registration(challenge), SESSION_TTL),
          if net.Fine? then Ok else Failed)
  }

  /** The store afterwards, the number of credentials created, and the reply. */
  function RegisterComplete(s: Store, user: string, c: Ceremony, net: RegisterNet): (Store, nat, Reply) {
    if !net.get.Fine? then (s, 0, Failed)
    else if !s.Live(RegistrationSession(user)) then (s, 0, NoSession)
    else if !c.valid then (s, 0, Failed)
    else
      var s1 := if net.claim.Refused? then s else s.SetNX(RegistrationClaim(user), Sentinel, CLAIM_TTL);
      if !net.claim.Fine? then (s1, 0, Failed)
      else if s.Live(RegistrationClaim(user)) then (s1, 0, Replayed)
      else if !c.serviceToken || c.remote.Refused? then (s1, 0, Unavailable)
      else if c.remote.ReplyLost? then (s1, 1, Unavailable)
      else (if net.delete.Refused? then s1 else s1.Delete(RegistrationSession(user)), 1, Ok)
  }

  /** The customer service, as far as it counts credentials. */
  class CredentialTable {
    var count: map<string, nat>

    constructor ()
      ensures count == map[]
    {
      count := map[];
    }

    function Of(user: string): nat
      reads this
    {
      CountOf(count, user)
    }

    method Create(user: string, net: Net) returns (ok: bool)
      modifies this
      ensures ok == net.Fine?
      ensures count == if net.Refused? then old(count) else old(count)[user := old(Of(user)) + 1]
    {
      if !net.Refused? {
        count := count[user := Of(user) + 1];
      }
      ok := net.Fine?;
    }
  }

  function CountOf(count: map<string, nat>, user: string): nat {
    if user in count then count[user] else 0
  }

  method PasskeyRegisterBeginHandler(api: Redis, table: CredentialTable, user: string, challenge: string, c: Ceremony,
                                     net: Net)
    returns (r: Reply)
    modifies api
    ensures (api.State(), r) == RegisterBegin(old(api.State()), user, table.Of(user), challenge, c, net)
  {
    if !c.serviceToken || !c.listed {
      return Unavailable;
    }
    if table.Of(user) >= MAX_PASSKEYS {
      return TooMany;
    }
    if !c.valid {
      return Failed;
    }
    var stored := StoreSession(api, RegistrationSession(user), Registration(challenge), net);
    r := if stored.Failure? then Failed else Ok;
  }

  method PasskeyRegisterCompleteHandler(api: Redis, table: CredentialTable, user: string, c: Ceremony, net: RegisterNet)
    returns (r: Reply)
    modifies api, table
    ensures var (s, created, reply) := RegisterComplete(old(api.State()), user, c, net);
            && api.State() == s && r == reply
            && table.count ==
               if created == 0 then old(table.count) else old(table.count)[user := old(table.Of(user)) + created]
  {
    var session := GetSession(api, RegistrationSession(user), net.get);
    if session.Failure? {
      return if session.error.SessionNotFound? then NoSession else Failed;
    }
    if !c.valid {
      return Failed;
    }
    var claimed := ClaimSession(api, "reg:" + user, net.claim);
    if claimed.Failure? {
      return Failed;
    }
    if !claimed.value {
      return Replayed;
    }
    if !c.serviceToken {
      return Unavailable;
    }
    var created := table.Create(user, c.remote);
    if !created {
      return Unavailable;
    }
    var _ := DeleteSession(api, RegistrationSession(user), net.delete);
    return Ok;
  }

  // ---- The cap of ten -------------------------------------------------------------

  datatype Users = Users(store: Store, count: map<string, nat>)

  /** Users may also lose passkeys; only this service adds them. */
  datatype Action =
    | Tick(d: nat)
    | Begin(user: string, challenge: string, ceremony: Ceremony, net: Net)
    | Complete(user: string, ceremony: Ceremony, nets: RegisterNet)
    | Drop(user: string)
    | Other(op: Op)

  function Step(s: Users, a: Action): Users {
    match a
    case Tick(d) => s.(store := s.store.Tick(d))
    case Begin(u, challenge, c, net) =>
      s.(store := RegisterBegin(s.store, u, CountOf(s.count, u), challenge, c, net).0)
    case Complete(u, c, nets) =>
      var (store, created, _) := RegisterComplete(s.store, u, c, nets);
      Users(store, if created == 0 then s.count else s.count[u := CountOf(s.count, u) + created])
    case Drop(u) => s.(count := s.count[u := if CountOf(s.count, u) == 0 then 0 else CountOf(s.count, u) - 1])
    case Other(op) => s.(store := Apply(s.store, op))
  }

  function Run(s: Users, actions: seq<Action>): Users {
    Runs.Run(Step, s, actions)
  }

  predicate Unrelated(a: Action) {
    a.Other? ==> !a.op.key.RegistrationSession? && (a.op.key.SessionClaim? ==> !("reg:" <= a.op.key.session))
  }

  predicate SessionOk(s: Store, user: string) {
    RegistrationSession(user) in s.entries ==>
      var d := s.entries[RegistrationSession(user)].deadline;
      d.Some? && d.value <= s.now + SESSION_TTL * SECOND
  }

  predicate ClaimOk(s: Store, user: string) {
    RegistrationClaim(user) in s.entries ==> s.entries[RegistrationClaim(user)].deadline.Some?
  }

  /** A session that is still there is covered by a claim marker that outlives it. */
  predicate Blocked(s: Store, user: string) {
    RegistrationSession(user) in s.entries && s.entries[RegistrationSession(user)].deadline.Some? ==>
      && RegistrationClaim(user) in s.entries
      && s.entries[RegistrationClaim(user)].deadline.Some?
      && s.entries[RegistrationSession(user)].deadline.value <= s.entries[RegistrationClaim(user)].deadline.value
  }

  predicate UserInv(s: Users, user: string) {
    && SessionOk(s.store, user) && ClaimOk(s.store, user)
    && CountOf(s.count, user) <= MAX_PASSKEYS
    && (CountOf(s.count, user) == MAX_PASSKEYS ==> Blocked(s.store, user))
  }

  lemma UserInvStep(s: Users, a: Action, user: string)
    requires UserInv(s, user) && Unrelated(a)
    ensures UserInv(Step(s, a), user)
  {
    assert "reg:" <= "reg:" + user;
  }

  /** Nobody ever holds more than ten passkeys, although completing a
      registration never counts them and even if every session delete fails. */
  lemma {:induction false} AtMostTenPasskeys(now: Time, actions: seq<Action>, user: string)
    requires forall a :: a in actions ==> Unrelated(a)
    ensures UserInv(Run(Users(Store(map[], now), map[]), actions), user)
    ensures CountOf(Run(Users(Store(map[], now), map[]), actions).count, user) <= 10
  {
    if actions != [] {
      AtMostTenPasskeys(now, actions[..|actions| - 1], user);
      UserInvStep(Run(Users(Store(map[], now), map[]), actions[..|actions| - 1]), actions[|actions| - 1], user);
    }
  }

  // ---- What earns a passkey -----------------------------------------------------------

  /** A completion creates a passkey exactly for a response that passes the check, while
      the user's session is live and nobody has claimed it, if the call reaches the
      customer service. */
  predicate Earns(s: Store, user: string, c: Ceremony, net: RegisterNet) {
    && c.valid && net.get.Fine? && s.Live(RegistrationSession(user))
    && net.claim.Fine? && !s.Live(SessionClaim("reg:" + user))
    && c.serviceToken && !c.remote.Refused?
  }

  predicate EarnsStep(s: Users, a: Action, user: string) {
    a.Complete? && a.user == user && Earns(s.store, user, a.ceremony, a.nets)
  }

  predicate DropsStep(s: Users, a: Action, user: string) {
    a.Drop? && a.user == user && CountOf(s.count, user) > 0
  }

  /** No step creates a passkey in any other way, and one creates at most one. */
  lemma CountAfterStep(s: Users, a: Action, user: string)
    ensures CountOf(Step(s, a).count, user) ==
            CountOf(s.count, user) + (if EarnsStep(s, a, user) then 1 else 0) - (if DropsStep(s, a, user) then 1 else 0)
  {
  }

  /** The steps of a run that earn the user a passkey, and those that lose one. */
  function Earned(s: Users, actions: seq<Action>, user: string): nat {
    if actions == [] then 0
    else
      var before := actions[..|actions| - 1];
      Earned(s, before, user) + if EarnsStep(Run(s, before), actions[|actions| - 1], user) then 1 else 0
  }

  function Dropped(s: Users, actions: seq<Action>, user: string): nat {
    if actions == [] then 0
    else
      var before := actions[..|actions| - 1];
      Dropped(s, before, user) + if DropsStep(Run(s, before), actions[|actions| - 1], user) then 1 else 0
  }

  /** Over every run, a user's passkeys are those earned by valid completions of live and
      unclaimed sessions, less those lost. */
  lemma {:induction false} PasskeysAreEarned(s: Users, actions: seq<Action>, user: string)
    ensures CountOf(Run(s, actions).count, user) + Dropped(s, actions, user) ==
            CountOf(s.count, user) + Earned(s, actions, user)
  {
    if actions != [] {
      PasskeysAreEarned(s, actions[..|actions| - 1], user);
      CountAfterStep(Run(s, actions[..|actions| - 1]), actions[|actions| - 1], user);
    }
  }

  /** What a completion leaves behind that goes wrong.  A response that fails the check
      leaves everything as it was; one that cannot be persisted uses up the claim only,
      and one whose creation loses its reply has created a passkey all the same. */
  lemma FailedCompletions(s: Users, user: string, c: Ceremony, net: RegisterNet)
    ensures var t, r := Step(s, Complete(user, c, net)), RegisterComplete(s.store, user, c, net).2;
            var claimed := s.store.Set(SessionClaim("reg:" + user), Sentinel, 300);
            && (!c.valid ==> t == s && r in {Failed, NoSession})
            && (r == Ok <==> Earns(s.store, user, c, net) && c.remote.Fine?)
            && (Earns(s.store, user, c.(serviceToken := true, remote := Fine), net) ==>
                  && (!c.serviceToken || c.remote.Refused? ==> t == s.(store := claimed) && r == Unavailable)
                  && (c.serviceToken && c.remote.ReplyLost? ==> t.store == claimed && r == Unavailable)
                  && (c.serviceToken && c.remote.Fine? ==>
                        t.store == if net.delete.Refused? then claimed else claimed.Delete(RegistrationSession(user))))
  {
    assert CountOf(s.count, user) + 0 == CountOf(s.count, user);
  }

  /** What each refusal says about the request. */
  predicate RegisterExplains(s: Store, user: string, c: Ceremony, net: RegisterNet, r: Reply) {
    var live, claimed := s.Live(RegistrationSession(user)), s.Live(SessionClaim("reg:" + user));
    match r
    case Ok => Earns(s, user, c, net) && c.remote.Fine?
    case TooMany => false
    case Unavailable =>
      net.get.Fine? && live && c.valid && net.claim.Fine? && !claimed && (!c.serviceToken || !c.remote.Fine?)
    case Failed => !net.get.Fine? || (live && (!c.valid || !net.claim.Fine?))
    case NoSession => net.get.Fine? && !live
    case Replayed => net.get.Fine? && live && c.valid && net.claim.Fine? && claimed
  }

  lemma RegisterAnswersExplain(s: Store, user: string, c: Ceremony, net: RegisterNet)
    ensures RegisterExplains(s, user, c, net, RegisterComplete(s, user, c, net).2)
  {
  }

  /** A begin stores its session exactly for a user with fewer than ten, when every
      call it needs succeeds; what each answer says. */
  lemma BeginStoresIff(s: Store, user: string, existing: nat, challenge: string, c: Ceremony, net: Net)
    ensures var (t, r) := RegisterBegin(s, user, existing, challenge, c, net);
            var fits := c.serviceToken && c.listed && existing < 10 && c.valid;
            && t == (if fits && !net.Refused?
                     then s.Set(RegistrationSession(user), Registration(challenge), 300) else s)
            && (r == Ok <==> fits && net.Fine?)
            && (r == TooMany <==> c.serviceToken && c.listed && 10 <= existing)
            && (r == Unavailable <==> !c.serviceToken || !c.listed)
  {
  }

  // ---- Login ------------------------------------------------------------------------

  datatype LoginNet = LoginNet(get: Net, claim: Net, delete: Net)

  datatype LoginError =
    | NoLoginSession | StoreDown | ServiceDown | CeremonyFailed
    | ClaimFailed | AlreadyCompleted | NotPersisted | LoginBanned

  /** Checks up to the claim, in the order they are made. */
  function LoginRefusal(s: Store, challenge: string, c: Ceremony, get: Net): Option<LoginError> {
    var key := LoginSessionKey(challenge);
    if !get.Fine? then Some(StoreDown)
    else if !s.Live(key) then Some(NoLoginSession)
    else if !s.entries[key].value.Login? then Some(StoreDown)
    else if !c.serviceToken || !c.listed then Some(ServiceDown)
    else if !c.valid then Some(CeremonyFailed)
    else None
  }

  /** Store effect of one completion, and the session it logs in. */
  function LoginComplete(s: Store, challenge: string, c: Ceremony, banned: bool, net: LoginNet):
    (Store, Result<LoginSession, LoginError>)
  {
    var key, refusal := LoginSessionKey(challenge), LoginRefusal(s, challenge, c, net.get);
    if refusal.Some? then (s, Failure(refusal.value))
    else
      var s1 := if net.claim.Refused? then s else s.SetNX(LoginClaim(challenge), Sentinel, CLAIM_TTL);
      if !net.claim.Fine? then (s1, Failure(ClaimFailed))
      else if s.Live(LoginClaim(challenge)) then (s1, Failure(AlreadyCompleted))
      else if !c.remote.Fine? then (s1, Failure(NotPersisted))
      else
        (if net.delete.Refused? then s1 else s1.Delete(key),
         if banned then Failure(LoginBanned) else Success(s.entries[key].value.session))
  }

  method PasskeyLoginCompleteHandler(api: Redis, challenge: string, c: Ceremony, banned: bool, net: LoginNet)
    returns (r: Result<LoginSession, LoginError>)
    modifies api
    ensures (api.State(), r) == LoginComplete(old(api.State()), challenge, c, banned, net)
  {
    var session := GetSession(api, LoginSessionKey(challenge), net.get);
    if session.Failure? {
      return Failure(if session.error.SessionNotFound? then NoLoginSession else StoreDown);
    }
    if !session.value.Login? {
      return Failure(StoreDown);
    }
    if !c.serviceToken || !c.listed {
      return Failure(ServiceDown);
    }
    if !c.valid {
      return Failure(CeremonyFailed);
    }
    var claimed := ClaimSession(api, "login:" + challenge, net.claim);
    if claimed.Failure? {
      return Failure(ClaimFailed);
    }
    if !claimed.value {
      return Failure(AlreadyCompleted);
    }
    if !c.remote.Fine? {
      return Failure(NotPersisted);
    }
    var _ := DeleteSession(api, LoginSessionKey(challenge), net.delete);
    if banned {
      return Failure(LoginBanned);
    }
    return Success(session.value.session);
  }

  /** A completion passes the checks before the claim, and then the claim. */
  predicate WinsClaim(s: Store, challenge: string, c: Ceremony, net: LoginNet) {
    && net.get.Fine? && s.Live(LoginSessionKey(challenge)) && s.entries[LoginSessionKey(challenge)].value.Login?
    && c.serviceToken && c.listed && c.valid
    && net.claim.Fine? && !s.Live(SessionClaim("login:" + challenge))
  }

  /** Exactly which completions log in, and what the others leave behind: an update that
      is not persisted keeps the session, a banned customer's session is used up, and a
      response that fails the check changes nothing. */
  lemma LoginIff(s: Store, challenge: string, c: Ceremony, banned: bool, net: LoginNet)
    ensures var (t, r) := LoginComplete(s, challenge, c, banned, net);
            var claimed := s.Set(SessionClaim("login:" + challenge), Sentinel, 300);
            && (r.Success? <==> WinsClaim(s, challenge, c, net) && c.remote.Fine? && !banned)
            && (r.Success? ==> s.Get(LoginSessionKey(challenge)) == Some(Login(r.value)))
            && (!c.valid ==> t == s)
            && (WinsClaim(s, challenge, c, net) ==>
                  if !c.remote.Fine? then t == claimed && r == Failure(NotPersisted)
                  else
                    && t == (if net.delete.Refused? then claimed else claimed.Delete(LoginSessionKey(challenge)))
                    && (banned ==> r == Failure(LoginBanned)))
  {
  }

  /** What each refusal says about the request. */
  predicate LoginExplains(s: Store, challenge: string, c: Ceremony, banned: bool, net: LoginNet, e: LoginError) {
    var got, claimed := s.Get(LoginSessionKey(challenge)), s.Live(SessionClaim("login:" + challenge));
    var loaded := net.get.Fine? && got.Some? && got.value.Login?;
    match e
    case NoLoginSession => net.get.Fine? && got.None?
    case StoreDown => !net.get.Fine? || (got.Some? && !got.value.Login?)
    case ServiceDown => loaded && (!c.serviceToken || !c.listed)
    case CeremonyFailed => loaded && c.serviceToken && c.listed && !c.valid
    case ClaimFailed => loaded && c.serviceToken && c.listed && c.valid && !net.claim.Fine?
    case AlreadyCompleted => loaded && c.serviceToken && c.listed && c.valid && net.claim.Fine? && claimed
    case NotPersisted => WinsClaim(s, challenge, c, net) && !c.remote.Fine?
    case LoginBanned => WinsClaim(s, challenge, c, net) && c.remote.Fine? && banned
  }

  lemma LoginAnswersExplain(s: Store, challenge: string, c: Ceremony, banned: bool, net: LoginNet)
    ensures var r := LoginComplete(s, challenge, c, banned, net).1;
            r.Failure? ==> LoginExplains(s, challenge, c, banned, net, r.error)
  {
  }

  /** Completions of one challenge.  A failed delete is only logged, so the
      protocol is lenient; a call whose credential update fails stays Claimed. */
  function LoginProtocol(challenge: string, limit: Time): SingleUse.Protocol {
    SingleUse.Protocol(LoginSessionKey(challenge), LoginClaim(challenge), CLAIM_TTL, limit, false)
  }

  /** The three store steps of a completion, uninterrupted, are the handler. */
  lemma StepsRefineLogin(s: Store, challenge: string, c: Ceremony, net: LoginNet)
    requires net.get.Fine? && c.serviceToken && c.listed && c.valid && c.remote.Fine?
    requires s.Live(LoginSessionKey(challenge)) ==> s.entries[LoginSessionKey(challenge)].value.Login?
    ensures var p := LoginProtocol(challenge, 150 * SECOND);
            var end := SingleUse.Run(p, SingleUse.State(s, map[]),
                [SingleUse.Fetch(0, None), SingleUse.Claim(0, net.claim), SingleUse.Remove(0, net.delete)]);
            && end.store == LoginComplete(s, challenge, c, false, net).0
            && (0 in end.calls && end.calls[0].Passed? <==> LoginComplete(s, challenge, c, false, net).1.Success?)
  {
    var p := LoginProtocol(challenge, 150 * SECOND);
    Runs.Run3(SingleUse.Machine(p), SingleUse.State(s, map[]), SingleUse.Fetch(0, None), SingleUse.Claim(0, net.claim),
                   SingleUse.Remove(0, net.delete));
    SingleUse.StepsOfOneCall(p, s, None, net.claim, net.delete);
  }

  /** In every interleaving at most one completion of a challenge passes, if
      deletes reach the store and each completion takes less than 150 s. */
  lemma LoginIssuedAtMostOnce(challenge: string, s: Store, actions: seq<SingleUse.Action>)
    requires forall a :: a in actions ==>
      && SingleUse.Quiet(LoginProtocol(challenge, 150 * SECOND), a)
      && SingleUse.Deletes(LoginProtocol(challenge, 150 * SECOND), a)
    ensures SingleUse.AtMostOneSuccess(
              SingleUse.Run(LoginProtocol(challenge, 150 * SECOND), SingleUse.State(s, map[]), actions))
  {
    SingleUse.AtMostOne(LoginProtocol(challenge, 150 * SECOND), SingleUse.State(s, map[]), actions);
  }

  /** 150 s is the exact limit. */
  lemma LoginLimitIsExact(challenge: string, session: LoginSession, limit: Time)
    ensures limit <= 150 * SECOND <==>
            forall actions: seq<SingleUse.Action> ::
              (forall a :: a in actions ==> SingleUse.Quiet(LoginProtocol(challenge, limit), a)
                                            && SingleUse.Deletes(LoginProtocol(challenge, limit), a)) ==>
                SingleUse.AtMostOneSuccess(
                  SingleUse.Run(LoginProtocol(challenge, limit),
                                SingleUse.Fresh(LoginProtocol(challenge, limit), Login(session), 0), actions))
  {
    SingleUse.OneSuccessIffCallsAreShort(LoginProtocol(challenge, limit), Login(session), 0);
  }

  /** Once a completion has set the claim marker, whatever becomes of it (a lost
      reply, a failed credential update, the banned-customer gate), no other one
      passes within 300 s, whatever fails and however long calls take. */
  lemma NoLoginWithinClaim(challenge: string, s: Store, actions: seq<SingleUse.Action>, limit: Time,
                           failed: nat, later: nat)
    requires forall a :: a in actions ==> SingleUse.Quiet(LoginProtocol(challenge, limit), a)
    requires var t := SingleUse.Run(LoginProtocol(challenge, limit), SingleUse.State(s, map[]), actions);
             && failed in t.calls && SingleUse.Holds(t.calls[failed]) && failed != later
             && later in t.calls && t.calls[later].Passed?
             && t.calls[failed].at <= t.calls[later].at
    ensures var t := SingleUse.Run(LoginProtocol(challenge, limit), SingleUse.State(s, map[]), actions);
            t.calls[failed].at + 300 * SECOND <= t.calls[later].at
  {
    SingleUse.ClaimsApart(LoginProtocol(challenge, limit), SingleUse.State(s, map[]), actions, failed, later);
  }

  /** Even when deletes fail, one session is good for one login during its own
      lifetime: a second completion would have to claim after the session ended. */
  lemma SecondLoginOnlyAfterExpiry(
    challenge: string, session: LoginSession, now: Time, actions: seq<SingleUse.Action>, limit: Time, i: nat, j: nat)
    requires forall a :: a in actions ==> SingleUse.Quiet(LoginProtocol(challenge, limit), a)
    requires var s0 := SingleUse.Fresh(LoginProtocol(challenge, limit), Login(session), now);
             var t := SingleUse.Run(LoginProtocol(challenge, limit), s0, actions);
             && i in t.calls && t.calls[i].Passed? && j in t.calls && t.calls[j].Passed? && i != j
             && t.calls[i].at <= t.calls[j].at
    ensures var s0 := SingleUse.Fresh(LoginProtocol(challenge, limit), Login(session), now);
            var t := SingleUse.Run(LoginProtocol(challenge, limit), s0, actions);
            now + SESSION_TTL * SECOND <= t.calls[j].at
  {
    var p := LoginProtocol(challenge, limit);
    var s0 := SingleUse.Fresh(p, Login(session), now);
    SingleUse.ClaimInvRun(p, s0, actions);
    SingleUse.ClaimsApart(p, s0, actions, i, j);
    assert SingleUse.Covered(p, SingleUse.Run(p, s0, actions), SingleUse.Run(p, s0, actions).calls[i], now);
  }

  /** Without the delete a second login does get through: it reads the session
      one second before it expires and claims when the marker has lapsed. */
  lemma FailedDeleteAllowsSecondLogin(challenge: string, session: LoginSession, now: Time)
    ensures var p := LoginProtocol(challenge, 150 * SECOND);
            !SingleUse.AtMostOneSuccess(SingleUse.Run(p, SingleUse.Fresh(p, Login(session), now), TwoUses()))
  {
    var p := LoginProtocol(challenge, 150 * SECOND);
    FailedDeleteAllowsSecondUse(p, SingleUse.Fresh(p, Login(session), now), now);
  }

  // ---- Registration, one store operation per step -----------------------------------

  /** Completions of one user's registration session. */
  function RegistrationProtocol(user: string, limit: Time): SingleUse.Protocol {
    SingleUse.Protocol(RegistrationSession(user), RegistrationClaim(user), CLAIM_TTL, limit, false)
  }

  /** The store steps of a completion, uninterrupted, are the handler. */
  lemma StepsRefineRegistration(s: Store, user: string, c: Ceremony, net: RegisterNet)
    requires net.get.Fine? && c.valid && c.serviceToken && c.remote.Fine?
    ensures var p := RegistrationProtocol(user, 150 * SECOND);
            var end := SingleUse.Run(p, SingleUse.State(s, map[]),
                [SingleUse.Fetch(0, None), SingleUse.Claim(0, net.claim), SingleUse.Remove(0, net.delete)]);
            && end.store == RegisterComplete(s, user, c, net).0
            && (0 in end.calls && end.calls[0].Passed? <==> RegisterComplete(s, user, c, net).1 == 1)
  {
    var p := RegistrationProtocol(user, 150 * SECOND);
    Runs.Run3(SingleUse.Machine(p), SingleUse.State(s, map[]), SingleUse.Fetch(0, None), SingleUse.Claim(0, net.claim),
              SingleUse.Remove(0, net.delete));
    SingleUse.StepsOfOneCall(p, s, None, net.claim, net.delete);
  }

  /** In every interleaving one session registers at most one passkey, if deletes
      reach the store and each completion takes less than 150 s.  Meanwhile the user
      may begin again any number of times, which replaces the session by another
      one, and complete those. */
  lemma RegistersAtMostOnce(user: string, challenge: string, s: Store, actions: seq<SingleUse.Action>)
    requires forall a :: a in actions ==>
      && SingleUse.Spares(RegistrationProtocol(user, 150 * SECOND), Some(Registration(challenge)), a)
      && SingleUse.Deletes(RegistrationProtocol(user, 150 * SECOND), a)
    ensures SingleUse.AtMostOneSuccess(
              SingleUse.Run(RegistrationProtocol(user, 150 * SECOND), SingleUse.State(s, map[]), actions))
  {
    SingleUse.AtMostOnePerPayload(RegistrationProtocol(user, 150 * SECOND), Some(Registration(challenge)),
                                  SingleUse.State(s, map[]), actions);
  }

  /** 150 s is the exact limit. */
  lemma RegistrationLimitIsExact(user: string, challenge: string, limit: Time)
    ensures var p := RegistrationProtocol(user, limit);
            limit <= 150 * SECOND <==>
            forall actions: seq<SingleUse.Action> ::
              (forall a :: a in actions ==> SingleUse.Quiet(p, a) && SingleUse.Deletes(p, a)) ==>
                SingleUse.AtMostOneSuccess(
                  SingleUse.Run(p, SingleUse.Fresh(p, Registration(challenge), 0), actions))
  {
    SingleUse.OneSuccessIffCallsAreShort(RegistrationProtocol(user, limit), Registration(challenge), 0);
  }

  /** If the delete fails, overlapping completions register two from one session. */
  lemma FailedDeleteRegistersTwice(user: string, challenge: string, now: Time)
    ensures var p := RegistrationProtocol(user, 150 * SECOND);
            !SingleUse.AtMostOneSuccess(
              SingleUse.Run(p, SingleUse.Fresh(p, Registration(challenge), now), TwoUses()))
  {
    var p := RegistrationProtocol(user, 150 * SECOND);
    FailedDeleteAllowsSecondUse(p, SingleUse.Fresh(p, Registration(challenge), now), now);
  }

  // ---- The second use of a session that was not deleted --------------------------------

  /** One call whose deletion fails, then a wait of 299 s. */
  function FirstUse(): seq<SingleUse.Action> {
    [SingleUse.Fetch(0, None), SingleUse.Claim(0, Fine), SingleUse.Remove(0, Refused), SingleUse.Tick(299 * SECOND)]
  }

  /** Another call, which waits a second before it claims. */
  function SecondUse(): seq<SingleUse.Action> {
    [SingleUse.Fetch(1, None), SingleUse.Tick(SECOND), SingleUse.Claim(1, Fine), SingleUse.Remove(1, Fine)]
  }

  function TwoUses(): seq<SingleUse.Action> {
    FirstUse() + SecondUse()
  }

  lemma FailedDeleteAllowsSecondUse(p: SingleUse.Protocol, s: SingleUse.State, now: Time)
    requires p.payload != p.claim && p.claimTtl == 300 && p.limit == 150 * SECOND && !p.strict
    requires s.calls == map[] && s.store.now == now && p.claim !in s.store.entries && p.payload in s.store.entries
    requires s.store.entries[p.payload].deadline == Some(now + 300 * SECOND)
    ensures !SingleUse.AtMostOneSuccess(SingleUse.Run(p, s, TwoUses()))
  {
    FirstUseKeepsSession(p, s, now);
    SecondUsePasses(p, SingleUse.Run(p, s, FirstUse()), now);
    Runs.RunConcat(SingleUse.Machine(p), s, FirstUse(), SecondUse());
  }

  lemma FirstUseKeepsSession(p: SingleUse.Protocol, s: SingleUse.State, now: Time)
    requires p.payload != p.claim && p.claimTtl == 300 && p.limit == 150 * SECOND && !p.strict
    requires s.calls == map[] && s.store.now == now && s.store.Live(p.payload) && p.claim !in s.store.entries
    ensures SingleUse.Run(p, s, FirstUse()) ==
            SingleUse.State(s.store.Set(p.claim, Sentinel, 300).Tick(299 * SECOND),
                            map[0 := SingleUse.Passed(now, now)])
  {
    Runs.Run4(SingleUse.Machine(p), s, SingleUse.Fetch(0, None), SingleUse.Claim(0, Fine), SingleUse.Remove(0, Refused),
              SingleUse.Tick(299 * SECOND));
    var s1 := SingleUse.Step(p, s, SingleUse.Fetch(0, None));
    var s2 := SingleUse.Step(p, s1, SingleUse.Claim(0, Fine));
    assert s2 == SingleUse.State(s.store.Set(p.claim, Sentinel, 300), map[0 := SingleUse.Claimed(now, now)]);
    assert SingleUse.Step(p, s2, SingleUse.Remove(0, Refused)).calls == map[0 := SingleUse.Passed(now, now)];
  }

  lemma SecondUsePasses(p: SingleUse.Protocol, s: SingleUse.State, now: Time)
    requires p.payload != p.claim && p.limit == 150 * SECOND
    requires s.calls == map[0 := SingleUse.Passed(now, now)] && s.store.now == now + 299 * SECOND
    requires s.store.Live(p.payload)
    requires p.claim in s.store.entries && s.store.entries[p.claim] == Entry(Sentinel, Some(now + 300 * SECOND))
    ensures !SingleUse.AtMostOneSuccess(SingleUse.Run(p, s, SecondUse()))
  {
    Runs.Run4(SingleUse.Machine(p), s, SingleUse.Fetch(1, None), SingleUse.Tick(SECOND), SingleUse.Claim(1, Fine),
              SingleUse.Remove(1, Fine));
    var s2 := SingleUse.Step(p, SingleUse.Step(p, s, SingleUse.Fetch(1, None)), SingleUse.Tick(SECOND));
    var s3 := SingleUse.Step(p, s2, SingleUse.Claim(1, Fine));
    assert s3.calls[1].Claimed? && s3.calls[0].Passed?;
    var s4 := SingleUse.Step(p, s3, SingleUse.Remove(1, Fine));
    assert s4.calls[1].Passed? && s4.calls[0].Passed?;
  }
}
