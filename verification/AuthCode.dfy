// Authorization codes: the authorize endpoint (internal/api/oauth_authorize.go),
// the exchange (internal/api/oauth_token.go) and their store (internal/db/authcode.go).

module AuthCode {
  import opened Wrappers
  import opened TtlStore
  import opened Clients
  import Runs

  const CODE_TTL: Ttl := 600

  datatype CodeError = NotConfigured | CodeNotFound | CacheDown

  // ---- Store methods ------------------------------------------------------------

  method StoreAuthCode(api: Redis?, code: string, entry: AuthCodeEntry, net: Net) returns (r: Result<bool, CodeError>)
    modifies api
    ensures api == null ==> r == Failure(NotConfigured)
    ensures api != null ==>
              && r == (if net.Fine? then Success(!old(api.State()).Live(AuthCodeKey(code))) else Failure(CacheDown))
              && api.State() == if net.Refused? then old(api.State())
                                else old(api.State()).SetNX(AuthCodeKey(code), AuthCode(entry), CODE_TTL)
  {
    if api == null {
      return Failure(NotConfigured);
    }
    var claimed := api.SetNX(AuthCodeKey(code), AuthCode(entry), CODE_TTL, net);
    r := if claimed.Failure? then Failure(CacheDown) else Success(claimed.value);
  }

  function CodeEntry(s: Store, code: string): Option<AuthCodeEntry> {
    if s.Live(AuthCodeKey(code)) && s.entries[AuthCodeKey(code)].value.AuthCode?
    then Some(s.entries[AuthCodeKey(code)].value.entry) else None
  }

  method GetAuthCode(api: Redis?, code: string, net: Net) returns (r: Result<AuthCodeEntry, CodeError>)
    ensures api == null ==> r == Failure(NotConfigured)
    ensures api != null && !net.Fine? ==> r == Failure(CacheDown)
    ensures api != null && net.Fine? ==>
              r == match CodeEntry(api.State(), code) case Some(e) => Success(e) case None => Failure(CodeNotFound)
  {
    if api == null {
      return Failure(NotConfigured);
    }
    var raw := api.Get(AuthCodeKey(code), net);
    if raw.Failure? {
      return Failure(CacheDown);
    }
    if raw.value.None? || !raw.value.value.AuthCode? {
      return Failure(CodeNotFound);
    }
    return Success(raw.value.value.entry);
  }

  method DeleteAuthCode(api: Redis?, code: string, net: Net) returns (r: Result<(), CodeError>)
    modifies api
    ensures api == null ==> r == Failure(NotConfigured)
    ensures api != null ==>
              && r == (if net.Fine? then Success(()) else Failure(CacheDown))
              && api.State() == if net.Refused? then old(api.State()) else old(api.State()).Delete(AuthCodeKey(code))
  {
    if api == null {
      return Failure(NotConfigured);
    }
    var deleted := api.Delete(AuthCodeKey(code), net);
    r := if deleted.Failure? then Failure(CacheDown) else Success(());
  }

  // ---- The authorize endpoint -----------------------------------------------------

  /** `absolute` says whether the redirect URI parses as an absolute URI. */
  datatype AuthorizeRequest = AuthorizeRequest(
    clientId: string, redirectUri: string, absolute: bool, responseType: string, scope: string,
    codeChallenge: string, challengeMethod: string, userId: string)

  datatype AuthorizeReply =
    | Disabled | MissingClient | UnknownClient | BadRedirect | UnregisteredRedirect
    | InvalidRequest | UnsupportedResponseType | ServerError
    | Redirected(code: string)

  /** The error a request is refused with, in the order the checks are made. */
  function AuthorizeRefusal(enabled: bool, d: Directory, q: AuthorizeRequest): Option<AuthorizeReply> {
    if !enabled then Some(Disabled)
    else if q.clientId == "" then Some(MissingClient)
    else if Lookup(d, q.clientId).None? then Some(UnknownClient)
    else if q.redirectUri == "" || !q.absolute then Some(BadRedirect)
    else if q.redirectUri !in Lookup(d, q.clientId).value.allowedRedirectUris then Some(UnregisteredRedirect)
    else if q.responseType == "" then Some(InvalidRequest)
    else if q.responseType != "code" then Some(UnsupportedResponseType)
    else if q.codeChallenge == "" || q.challengeMethod != "S256" || q.userId == "" then Some(InvalidRequest)
    else None
  }

  function EntryOf(q: AuthorizeRequest): AuthCodeEntry {
    AuthCodeEntry(q.clientId, q.redirectUri, q.scope, q.userId, q.codeChallenge)
  }

  function Authorize(enabled: bool, d: Directory, s: Store, q: AuthorizeRequest, code: string, net: Net):
    (Store, AuthorizeReply)
  {
    var refusal := AuthorizeRefusal(enabled, d, q);
    if refusal.Some? then (s, refusal.value)
    else
      (if net.Refused? then s else s.SetNX(AuthCodeKey(code), AuthCode(EntryOf(q)), CODE_TTL),
       if net.Fine? && !s.Live(AuthCodeKey(code)) then Redirected(code) else ServerError)
  }

  /** The request may be answered with a code: the client is registered and so is the
      absolute redirect URI, the code flow and S256 are asked for (section 4.3 of RFC
      7636), and a user is logged in. */
  predicate Authorizable(enabled: bool, d: Directory, q: AuthorizeRequest) {
    && enabled && q.clientId != "" && q.clientId in d
    && q.redirectUri != "" && q.absolute && q.redirectUri in d[q.clientId].allowedRedirectUris
    && q.responseType == "code" && q.codeChallenge != "" && q.challengeMethod == "S256" && q.userId != ""
  }

  /** Exactly which requests get a code, and what is stored under it for ten minutes. */
  lemma AuthorizedIff(enabled: bool, d: Directory, s: Store, q: AuthorizeRequest, code: string, net: Net)
    ensures var (t, r) := Authorize(enabled, d, s, q, code, net);
            var vacant := !s.Live(AuthCodeKey(code));
            var entry := AuthCodeEntry(q.clientId, q.redirectUri, q.scope, q.userId, q.codeChallenge);
            && (r.Redirected? <==> Authorizable(enabled, d, q) && vacant && net.Fine?)
            && (r.Redirected? ==> r.code == code)
            && t == (if Authorizable(enabled, d, q) && vacant && !net.Refused?
                     then s.Set(AuthCodeKey(code), AuthCode(entry), 600) else s)
  {
  }

  /** What each refusal says about the request. */
  predicate AuthorizeExplains(enabled: bool, d: Directory, s: Store, q: AuthorizeRequest, code: string, net: Net,
                              r: AuthorizeReply)
  {
    var named := enabled && q.clientId != "" && q.clientId in d;
    var sendable := named && q.redirectUri != "" && q.absolute && q.redirectUri in d[q.clientId].allowedRedirectUris;
    match r
    case Disabled => !enabled
    case MissingClient => enabled && q.clientId == ""
    case UnknownClient => enabled && q.clientId != "" && q.clientId !in d
    case BadRedirect => named && (q.redirectUri == "" || !q.absolute)
    case UnregisteredRedirect =>
      named && q.redirectUri != "" && q.absolute && q.redirectUri !in d[q.clientId].allowedRedirectUris
    case InvalidRequest =>
      && sendable && q.responseType in {"", "code"}
      && (q.responseType == "" || q.codeChallenge == "" || q.challengeMethod != "S256" || q.userId == "")
    case UnsupportedResponseType => sendable && q.responseType !in {"", "code"}
    case ServerError => Authorizable(enabled, d, q) && (!net.Fine? || s.Live(AuthCodeKey(code)))
    case Redirected(_) => Authorizable(enabled, d, q) && net.Fine? && !s.Live(AuthCodeKey(code))
  }

  lemma AuthorizeAnswersExplain(enabled: bool, d: Directory, s: Store, q: AuthorizeRequest, code: string, net: Net)
    ensures AuthorizeExplains(enabled, d, s, q, code, net, Authorize(enabled, d, s, q, code, net).1)
  {
  }

  method OAuthAuthorizeHandler(enabled: bool, registry: Registry, api: Redis, q: AuthorizeRequest, code: string,
                               net: Net)
    returns (r: AuthorizeReply)
    modifies api
    ensures (api.State(), r) == Authorize(enabled, registry.clients, old(api.State()), q, code, net)
  {
    if !enabled {
      return Disabled;
    }
    if q.clientId == "" {
      return MissingClient;
    }
    var rec := registry.Get(q.clientId);
    if rec.None? {
      return UnknownClient;
    }
    if q.redirectUri == "" || !q.absolute {
      return BadRedirect;
    }
    if q.redirectUri !in rec.value.allowedRedirectUris {
      return UnregisteredRedirect;
    }
    if q.responseType == "" {
      return InvalidRequest;
    }
    if q.responseType != "code" {
      return UnsupportedResponseType;
    }
    if q.codeChallenge == "" || q.challengeMethod != "S256" || q.userId == "" {
      return InvalidRequest;
    }
    var claimed := StoreAuthCode(api, code, EntryOf(q), net);
    if claimed.Failure? || !claimed.value {
      return ServerError;
    }
    return Redirected(code);
  }

  // ---- The exchange -----------------------------------------------------------------

  datatype ExchangeRequest = ExchangeRequest(code: string, verifier: string, redirectUri: string, clientId: string)

  /** What the exchange demands of the request before it reads the code. */
  predicate WellFormed(enabled: bool, d: Directory, q: ExchangeRequest) {
    enabled && q.code != "" && q.verifier != "" && q.redirectUri != "" && q.clientId != ""
    && Lookup(d, q.clientId).Some?
  }

  /** The stored entry fits the request; `s256` is the PKCE transformation. */
  predicate Matches(s256: string -> string, e: AuthCodeEntry, q: ExchangeRequest) {
    e.clientId == q.clientId && e.redirectUri == q.redirectUri && s256(q.verifier) == e.codeChallenge
  }

  datatype ExchangeNet = ExchangeNet(get: Net, delete: Net)

  datatype ExchangeError =
    | GrantDisabled | MissingCode | MissingVerifier | MissingRedirect | MissingClientId | UnknownClientId
    | CodeUnavailable | OtherClient | OtherRedirect | WrongVerifier

  /** What an exchange is refused with, in the order the checks are made. */
  function ExchangeRefusal(enabled: bool, s256: string -> string, d: Directory, s: Store, q: ExchangeRequest, get: Net):
    (r: Option<ExchangeError>)
    ensures r.None? <==> WellFormed(enabled, d, q) && get.Fine? && CodeEntry(s, q.code).Some?
                         && Matches(s256, CodeEntry(s, q.code).value, q)
  {
    if !enabled then Some(GrantDisabled)
    else if q.code == "" then Some(MissingCode)
    else if q.verifier == "" then Some(MissingVerifier)
    else if q.redirectUri == "" then Some(MissingRedirect)
    else if q.clientId == "" then Some(MissingClientId)
    else if Lookup(d, q.clientId).None? then Some(UnknownClientId)
    else if !get.Fine? || CodeEntry(s, q.code).None? then Some(CodeUnavailable)
    else
      var entry := CodeEntry(s, q.code).value;
      if entry.clientId != q.clientId then Some(OtherClient)
      else if entry.redirectUri != q.redirectUri then Some(OtherRedirect)
      else if s256(q.verifier) != entry.codeChallenge then Some(WrongVerifier)
      else None
  }

  /** One exchange without interruption: the entry whose tokens are issued. */
  function Exchange(enabled: bool, s256: string -> string, d: Directory, s: Store, q: ExchangeRequest,
                    net: ExchangeNet):
    (Store, Result<AuthCodeEntry, ExchangeError>)
  {
    var refusal := ExchangeRefusal(enabled, s256, d, s, q, net.get);
    if refusal.Some? then (s, Failure(refusal.value))
    else (if net.delete.Refused? then s else s.Delete(AuthCodeKey(q.code)), Success(CodeEntry(s, q.code).value))
  }

  /** Exactly which exchanges succeed, with which entry, and that the code is used up. */
  lemma ExchangedIff(enabled: bool, s256: string -> string, d: Directory, s: Store, q: ExchangeRequest,
                     net: ExchangeNet)
    ensures var (t, r) := Exchange(enabled, s256, d, s, q, net);
            && (r.Success? <==>
                  && enabled && q.code != "" && q.verifier != "" && q.redirectUri != "" && q.clientId != ""
                  && q.clientId in d && net.get.Fine? && s.Live(AuthCodeKey(q.code))
                  && var v := s.entries[AuthCodeKey(q.code)].value;
                     && v.AuthCode? && v.entry.clientId == q.clientId && v.entry.redirectUri == q.redirectUri
                     && s256(q.verifier) == v.entry.codeChallenge)
            && (r.Success? ==> s.Get(AuthCodeKey(q.code)) == Some(AuthCode(r.value)))
            && t == (if r.Success? && !net.delete.Refused? then s.Delete(AuthCodeKey(q.code)) else s)
  {
  }

  /** What each refusal says about the request. */
  predicate ExchangeExplains(enabled: bool, s256: string -> string, d: Directory, s: Store, q: ExchangeRequest,
                             get: Net, e: ExchangeError)
  {
    var got, asked := s.Get(AuthCodeKey(q.code)), [q.code, q.verifier, q.redirectUri, q.clientId];
    var found := enabled && "" !in asked && q.clientId in d && get.Fine? && got.Some? && got.value.AuthCode?;
    match e
    case GrantDisabled => !enabled
    case MissingCode => enabled && q.code == ""
    case MissingVerifier => enabled && q.code != "" && q.verifier == ""
    case MissingRedirect => enabled && "" !in asked[..2] && q.redirectUri == ""
    case MissingClientId => enabled && "" !in asked[..3] && q.clientId == ""
    case UnknownClientId => enabled && "" !in asked && q.clientId !in d
    case CodeUnavailable =>
      enabled && "" !in asked && q.clientId in d && (!get.Fine? || got.None? || !got.value.AuthCode?)
    case OtherClient => found && got.value.entry.clientId != q.clientId
    case OtherRedirect =>
      found && got.value.entry.clientId == q.clientId && got.value.entry.redirectUri != q.redirectUri
    case WrongVerifier =>
      && found && got.value.entry.clientId == q.clientId && got.value.entry.redirectUri == q.redirectUri
      && got.value.entry.codeChallenge != s256(q.verifier)
  }

  lemma ExchangeAnswersExplain(enabled: bool, s256: string -> string, d: Directory, s: Store, q: ExchangeRequest,
                               net: ExchangeNet)
    ensures var r := Exchange(enabled, s256, d, s, q, net).1;
            r.Failure? ==> ExchangeExplains(enabled, s256, d, s, q, net.get, r.error)
  {
  }

  method ExchangeCode(enabled: bool, s256: string -> string, registry: Registry, api: Redis, q: ExchangeRequest,
                      net: ExchangeNet) returns (r: Result<AuthCodeEntry, ExchangeError>)
    modifies api
    ensures (api.State(), r) == Exchange(enabled, s256, registry.clients, old(api.State()), q, net)
  {
    if !enabled {
      return Failure(GrantDisabled);
    }
    if q.code == "" {
      return Failure(MissingCode);
    }
    if q.verifier == "" {
      return Failure(MissingVerifier);
    }
    if q.redirectUri == "" {
      return Failure(MissingRedirect);
    }
    if q.clientId == "" {
      return Failure(MissingClientId);
    }
    var known := registry.Get(q.clientId);
    if known.None? {
      return Failure(UnknownClientId);
    }
    var entry := GetAuthCode(api, q.code, net.get);
    if entry.Failure? {
      return Failure(CodeUnavailable);
    }
    if entry.value.clientId != q.clientId {
      return Failure(OtherClient);
    }
    if entry.value.redirectUri != q.redirectUri {
      return Failure(OtherRedirect);
    }
    if s256(q.verifier) != entry.value.codeChallenge {
      return Failure(WrongVerifier);
    }
    var _ := DeleteAuthCode(api, q.code, net.delete);
    return Success(entry.value);
  }

  // ---- Overlapping exchanges ----------------------------------------------------------

  /** An authorize request that stored its code, and the redirect URIs that were
      registered for its client at that moment. */
  datatype Grant = Grant(request: AuthorizeRequest, registered: seq<string>)

  /** An exchange under way, or done and about to issue tokens, which only the
      banned-customer gate can still stop; `read` and `removed` are step numbers and
      `origin` is the grant on record for the code when it was read. */
  datatype Flight =
    | Got(request: ExchangeRequest, entry: AuthCodeEntry, origin: Grant, read: nat)
    | Issued(request: ExchangeRequest, entry: AuthCodeEntry, origin: Grant, read: nat, removed: nat)

  datatype State = State(store: Store, directory: Directory, grants: map<string, Grant>, flights: map<nat, Flight>,
                         step: nat)

  datatype Action =
    | Tick(d: nat)
    | Grants(query: AuthorizeRequest, code: string, net: Net)
    | Read(id: nat, request: ExchangeRequest)
    | Remove(id: nat, reply: Net)
    | Reload(directory: Directory)
    | Other(op: Op)

  function DoGrant(s: State, q: AuthorizeRequest, code: string, net: Net): State {
    var stores := AuthorizeRefusal(true, s.directory, q).None? && !net.Refused? && !s.store.Live(AuthCodeKey(code));
    s.(store := Authorize(true, s.directory, s.store, q, code, net).0,
       grants := if stores then s.grants[code := Grant(q, s.directory[q.clientId].allowedRedirectUris)] else s.grants)
  }

  function DoRead(s256: string -> string, s: State, id: nat, q: ExchangeRequest): State {
    if id !in s.flights && q.code in s.grants && WellFormed(true, s.directory, q) && CodeEntry(s.store, q.code).Some?
       && Matches(s256, CodeEntry(s.store, q.code).value, q) then
      s.(flights := s.flights[id := Got(q, CodeEntry(s.store, q.code).value, s.grants[q.code], s.step)])
    else s
  }

  function DoRemove(s: State, id: nat, net: Net): State {
    if id in s.flights && s.flights[id].Got? then
      var f := s.flights[id];
      s.(store := if net.Refused? then s.store else s.store.Delete(AuthCodeKey(f.request.code)),
         flights := s.flights[id := Issued(f.request, f.entry, f.origin, f.read, s.step)])
    else s
  }

  function Effect(s256: string -> string, s: State, a: Action): State {
    match a
    case Tick(d) => s.(store := s.store.Tick(d))
    case Grants(q, code, net) => DoGrant(s, q, code, net)
    case Read(id, q) => DoRead(s256, s, id, q)
    case Remove(id, net) => DoRemove(s, id, net)
    case Reload(d) => s.(directory := d)
    case Other(op) => s.(store := Apply(s.store, op))
  }

  function Step(s256: string -> string, s: State, a: Action): State {
    Effect(s256, s, a).(step := s.step + 1)
  }

  function Machine(s256: string -> string): (State, Action) -> State {
    (s, a) => Step(s256, s, a)
  }

  function Run(s256: string -> string, s: State, actions: seq<Action>): State {
    Runs.Run(Machine(s256), s, actions)
  }

  function Initial(d: Directory, now: Time): State {
    State(Store(map[], now), d, map[], map[], 0)
  }

  predicate Unrelated(a: Action) {
    a.Other? ==> !a.op.key.AuthCodeKey?
  }

  // ---- Tokens carry what was authorized -------------------------------------------------

  /** Every code entry is the one its recorded grant stored. */
  predicate Recorded(s: State) {
    forall k :: k in s.store.entries && k.AuthCodeKey? ==>
      && k.code in s.grants
      && s.store.entries[k].value == AuthCode(EntryOf(s.grants[k.code].request))
  }

  predicate Justified(s256: string -> string, f: Flight) {
    && f.entry == EntryOf(f.origin.request)
    && f.origin.request.redirectUri in f.origin.registered
    && f.request.clientId == f.origin.request.clientId
    && f.request.redirectUri == f.origin.request.redirectUri
    && s256(f.request.verifier) == f.origin.request.codeChallenge
    && f.origin.request.challengeMethod == "S256"
    && f.origin.request.userId != ""
  }

  predicate GrantOk(g: Grant) {
    g.request.redirectUri in g.registered && g.request.challengeMethod == "S256" && g.request.userId != ""
  }

  predicate BindInv(s256: string -> string, s: State) {
    && Recorded(s)
    && (forall c :: c in s.grants ==> GrantOk(s.grants[c]))
    && (forall id :: id in s.flights ==> Justified(s256, s.flights[id]))
  }

  lemma BindInvStep(s256: string -> string, s: State, a: Action)
    requires BindInv(s256, s) && Unrelated(a)
    ensures BindInv(s256, Step(s256, s, a))
  {
    match a
    case Grants(q, code, net) => GrantKeepsBinding(s256, s, q, code, net);
    case Read(id, q) => ReadKeepsBinding(s256, s, id, q);
    case Remove(id, net) => RemoveKeepsBinding(s256, s, id, net);
    case _ =>
  }

  lemma GrantKeepsBinding(s256: string -> string, s: State, q: AuthorizeRequest, code: string, net: Net)
    requires BindInv(s256, s)
    ensures BindInv(s256, DoGrant(s, q, code, net))
  {
  }

  lemma ReadKeepsBinding(s256: string -> string, s: State, id: nat, q: ExchangeRequest)
    requires BindInv(s256, s)
    ensures BindInv(s256, DoRead(s256, s, id, q))
  {
    var t := DoRead(s256, s, id, q);
    if t.flights != s.flights {
      assert AuthCodeKey(q.code) in s.store.entries;
      assert GrantOk(s.grants[q.code]);
      assert Justified(s256, t.flights[id]);
    }
  }

  lemma RemoveKeepsBinding(s256: string -> string, s: State, id: nat, net: Net)
    requires BindInv(s256, s)
    ensures BindInv(s256, DoRemove(s, id, net))
  {
    assert id in s.flights ==> Justified(s256, s.flights[id]);
  }

  /** In every interleaving, the user and scope of an issued token pair are those
      of one authorize request that stored this code for the same client and
      redirect URI, registered at the time, and whose challenge the verifier meets
      (section 4.6 of RFC 7636, section 4.1.3 of RFC 6749). */
  lemma {:induction false} TokensMatchTheGrant(s256: string -> string, d: Directory, now: Time, actions: seq<Action>)
    requires forall a :: a in actions ==> Unrelated(a)
    ensures BindInv(s256, Run(s256, Initial(d, now), actions))
  {
    if actions != [] {
      TokensMatchTheGrant(s256, d, now, actions[..|actions| - 1]);
      BindInvStep(s256, Run(s256, Initial(d, now), actions[..|actions| - 1]), actions[|actions| - 1]);
    }
  }

  /** No step replaces a code entry that is still alive by another one. */
  lemma LiveEntryNeverOverwritten(s256: string -> string, s: State, a: Action, code: string)
    requires Unrelated(a) && s.store.Live(AuthCodeKey(code))
    requires AuthCodeKey(code) in Step(s256, s, a).store.entries
    ensures Step(s256, s, a).store.entries[AuthCodeKey(code)] == s.store.entries[AuthCodeKey(code)]
    ensures code in s.grants ==> Step(s256, s, a).grants[code] == s.grants[code]
  {
    match a
    case Tick(d) =>
    case Grants(q, c, net) => if c == code { assert s.store.Live(AuthCodeKey(c)); }
    case Read(id, q) =>
    case Remove(id, net) =>
    case Reload(d) =>
    case Other(op) =>
  }

  // ---- Two exchanges of one code overlap --------------------------------------------------

  /** Authorization codes are fresh: no two authorize requests draw the same one. */
  predicate FreshCodes(actions: seq<Action>) {
    forall i, j :: 0 <= i < j < |actions| && actions[i].Grants? && actions[j].Grants? ==>
      actions[i].code != actions[j].code
  }

  predicate DeletesReach(a: Action) {
    a.Remove? ==> !a.reply.Refused?
  }

  predicate OverlapInv(s: State) {
    && (forall id :: id in s.flights ==> s.flights[id].read < s.step && s.flights[id].request.code in s.grants)
    && (forall i :: i in s.flights && s.flights[i].Issued? ==>
          && s.flights[i].removed < s.step
          && AuthCodeKey(s.flights[i].request.code) !in s.store.entries
          && forall j :: j in s.flights && s.flights[j].request.code == s.flights[i].request.code ==>
               s.flights[j].read < s.flights[i].removed)
  }

  lemma OverlapInvStep(s256: string -> string, s: State, a: Action)
    requires OverlapInv(s) && Unrelated(a) && DeletesReach(a)
    requires a.Grants? ==> a.code !in s.grants
    ensures OverlapInv(Step(s256, s, a))
  {
    match a
    case Grants(q, code, net) => GrantKeepsOverlap(s, q, code, net);
    case Read(id, q) => ReadKeepsOverlap(s256, s, id, q);
    case Remove(id, net) => RemoveKeepsOverlap(s, id, net);
    case _ =>
  }

  lemma GrantKeepsOverlap(s: State, q: AuthorizeRequest, code: string, net: Net)
    requires OverlapInv(s) && code !in s.grants
    ensures OverlapInv(DoGrant(s, q, code, net).(step := s.step + 1))
  {
    assert forall id :: id in s.flights ==> s.flights[id].request.code != code;
  }

  lemma ReadKeepsOverlap(s256: string -> string, s: State, id: nat, q: ExchangeRequest)
    requires OverlapInv(s)
    ensures OverlapInv(DoRead(s256, s, id, q).(step := s.step + 1))
  {
    if id !in s.flights && CodeEntry(s.store, q.code).Some? {
      assert AuthCodeKey(q.code) in s.store.entries;
      assert forall i :: i in s.flights && s.flights[i].Issued? ==> s.flights[i].request.code != q.code;
    }
  }

  lemma RemoveKeepsOverlap(s: State, id: nat, net: Net)
    requires OverlapInv(s) && !net.Refused?
    ensures OverlapInv(DoRemove(s, id, net).(step := s.step + 1))
  {
  }

  predicate KnownCodes(s: State, actions: seq<Action>) {
    forall c :: c in s.grants ==> exists i :: 0 <= i < |actions| && actions[i].Grants? && actions[i].code == c
  }

  lemma {:induction false} OverlapInvRun(s256: string -> string, d: Directory, now: Time, actions: seq<Action>)
    requires FreshCodes(actions) && forall a :: a in actions ==> Unrelated(a) && DeletesReach(a)
    ensures OverlapInv(Run(s256, Initial(d, now), actions)) && KnownCodes(Run(s256, Initial(d, now), actions), actions)
  {
    if actions != [] {
      var before, last := actions[..|actions| - 1], actions[|actions| - 1];
      OverlapInvRun(s256, d, now, before);
      var s := Run(s256, Initial(d, now), before);
      OverlapInvStep(s256, s, last);
      forall c | c in Step(s256, s, last).grants
        ensures exists i :: 0 <= i < |actions| && actions[i].Grants? && actions[i].code == c
      {
        if c in s.grants {
          var i :| 0 <= i < |before| && before[i].Grants? && before[i].code == c;
          assert actions[i] == before[i];
        } else {
          assert actions[|actions| - 1] == last;
        }
      }
    }
  }

  /** If deletes reach the store, two exchanges of one code both succeed only if
      they overlap: each reads the code before the other removes it. */
  lemma SuccessfulExchangesOverlap(s256: string -> string, d: Directory, now: Time, actions: seq<Action>, i: nat,
                                   j: nat)
    requires FreshCodes(actions) && forall a :: a in actions ==> Unrelated(a) && DeletesReach(a)
    requires var s := Run(s256, Initial(d, now), actions);
             && i in s.flights && j in s.flights && s.flights[i].Issued? && s.flights[j].Issued?
             && s.flights[i].request.code == s.flights[j].request.code
    ensures var s := Run(s256, Initial(d, now), actions);
            s.flights[i].read < s.flights[j].removed && s.flights[j].read < s.flights[i].removed
  {
    OverlapInvRun(s256, d, now, actions);
  }

  /** A code is granted, read by two exchanges, and removed by both. */
  function TwoExchanges(q: AuthorizeRequest, code: string, x: ExchangeRequest): seq<Action> {
    [Grants(q, code, Fine), Read(0, x), Read(1, x), Remove(0, Fine), Remove(1, Fine)]
  }

  /** Overlap is enough, since the removal is no claim: from the start, two exchanges
      that both read a code before either removes it both succeed. */
  lemma OverlappingExchangesBothSucceed(
    s256: string -> string, d: Directory, now: Time, q: AuthorizeRequest, code: string, verifier: string)
    requires AuthorizeRefusal(true, d, q).None? && code != "" && verifier != "" && s256(verifier) == q.codeChallenge
    ensures var x := ExchangeRequest(code, verifier, q.redirectUri, q.clientId);
            var t := Run(s256, Initial(d, now), TwoExchanges(q, code, x));
            && 0 in t.flights && 1 in t.flights && t.flights[0].Issued? && t.flights[1].Issued?
            && t.flights[0].request.code == code == t.flights[1].request.code
  {
    var x := ExchangeRequest(code, verifier, q.redirectUri, q.clientId);
    var s0 := Initial(d, now);
    Runs.Run5(Machine(s256), s0, Grants(q, code, Fine), Read(0, x), Read(1, x), Remove(0, Fine), Remove(1, Fine));
    var s1 := Step(s256, s0, Grants(q, code, Fine));
    assert CodeEntry(s1.store, code) == Some(EntryOf(q)) && code in s1.grants && s1.flights == map[];
    BothExchangesSucceed(s256, s1, x);
  }

  lemma BothExchangesSucceed(s256: string -> string, s: State, x: ExchangeRequest)
    requires s.flights == map[] && x.code in s.grants && WellFormed(true, s.directory, x)
    requires CodeEntry(s.store, x.code).Some? && Matches(s256, CodeEntry(s.store, x.code).value, x)
    ensures var s2 := Step(s256, Step(s256, s, Read(0, x)), Read(1, x));
            var t := Step(s256, Step(s256, s2, Remove(0, Fine)), Remove(1, Fine));
            && 0 in t.flights && 1 in t.flights && t.flights[0].Issued? && t.flights[1].Issued?
            && t.flights[0].request == x == t.flights[1].request
  {
    var s1 := Step(s256, s, Read(0, x));
    assert s1 == s.(flights := s1.flights, step := s.step + 1);
    var s2 := Step(s256, s1, Read(1, x));
    assert s2.flights[0].Got? && s2.flights[1].Got? && s2.flights[0].request == x == s2.flights[1].request;
    var s3 := Step(s256, s2, Remove(0, Fine));
    assert s3.flights[0].Issued? && s3.flights[1] == s2.flights[1];
  }

  /** An exchange whose delete is lost leaves its code as it was, so a later one that
      does not overlap succeeds exactly while the entry is live. */
  lemma LostDeleteLeavesCode(s256: string -> string, s: State, x: ExchangeRequest, i: nat, j: nat, d: nat)
    requires i !in s.flights && j !in s.flights && i != j && x.code in s.grants && WellFormed(true, s.directory, x)
    requires CodeEntry(s.store, x.code).Some? && Matches(s256, CodeEntry(s.store, x.code).value, x)
    ensures var t := Step(s256, Step(s256, Step(s256, s, Read(i, x)), Remove(i, Refused)), Tick(d));
            var end := Step(s256, Step(s256, t, Read(j, x)), Remove(j, Fine));
            && end.flights[i].Issued?
            && (j in end.flights && end.flights[j].Issued? <==> s.store.Tick(d).Live(AuthCodeKey(x.code)))
  {
    var s1 := Step(s256, s, Read(i, x));
    assert s1 == s.(flights := s1.flights, step := s.step + 1) && s1.flights[i].Got?;
    var s2 := Step(s256, s1, Remove(i, Refused));
    assert s2 == s.(flights := s2.flights, step := s.step + 2) && s2.flights[i].Issued? && j !in s2.flights;
    var s3 := Step(s256, s2, Tick(d));
    assert s3.store == s.store.Tick(d);
    var s4 := Step(s256, s3, Read(j, x));
    assert s3.store.Live(AuthCodeKey(x.code)) ==> CodeEntry(s3.store, x.code) == CodeEntry(s.store, x.code);
    assert j in s4.flights ==> s4.flights[j].Got? && s4.flights[i].Issued?;
  }

  /** Reading and removing without interruption is the exchange itself. */
  lemma StepsRefineExchange(s256: string -> string, s: State, q: ExchangeRequest, net: Net, id: nat)
    requires id !in s.flights && q.code in s.grants
    ensures var t := Step(s256, Step(s256, s, Read(id, q)), Remove(id, net));
            var (store, entry) := Exchange(true, s256, s.directory, s.store, q, ExchangeNet(Fine, net));
            && t.store == store
            && (entry.Success? <==> id in t.flights)
            && (entry.Success? ==> t.flights[id].Issued? && t.flights[id].entry == entry.value)
  {
    var t := Step(s256, s, Read(id, q));
    assert id in t.flights ==> t.flights[id].Got?;
  }
}
