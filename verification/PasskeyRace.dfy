// The cap of ten passkeys when the requests of one user overlap: every listing,
// store operation and creation is a step of its own, and nothing fails.

module PasskeyRace {
  import opened Wrappers
  import opened TtlStore
  import Passkeys
  import Runs

  /** A completion takes no step once its `limit` has passed since its Get. */
  datatype Completion =
    | Fetched(start: Time)
    | Claimed(start: Time, at: Time)
    | Created(start: Time, at: Time)
    | Ended

  /** One user; `begins` are the requests that have listed and not yet stored. */
  datatype State = State(store: Store, count: nat, begins: set<nat>, calls: map<nat, Completion>)

  datatype Action =
    | Tick(d: nat)
    | List(begin: nat)
    | StoreSession(begin: nat, challenge: string)
    | Fetch(id: nat)
    | Claim(id: nat)
    | Create(id: nat)
    | Delete(id: nat)
    | Drop
    | Other(op: Op)

  predicate InTime(limit: Time, s: State, start: Time) {
    s.store.now < start + limit
  }

  predicate IsClaimed(limit: Time, s: State, id: nat) {
    id in s.calls && s.calls[id].Claimed? && InTime(limit, s, s.calls[id].start)
  }

  predicate IsCreated(limit: Time, s: State, id: nat) {
    id in s.calls && s.calls[id].Created? && InTime(limit, s, s.calls[id].start)
  }

  /** A completion that has created a passkey deletes the session within its limit. */
  predicate Timely(limit: Time, s: State, d: nat) {
    forall id :: id in s.calls && IsCreated(limit, s, id) ==> s.store.now + d < s.calls[id].start + limit
  }

  function DoClaim(user: string, limit: Time, s: State, id: nat): State {
    if id in s.calls && s.calls[id].Fetched? && InTime(limit, s, s.calls[id].start) then
      s.(store := s.store.SetNX(Passkeys.RegistrationClaim(user), Sentinel, Passkeys.CLAIM_TTL),
         calls := s.calls[id := if s.store.Live(Passkeys.RegistrationClaim(user)) then Ended
                                else Claimed(s.calls[id].start, s.store.now)])
    else s
  }

  function DoCreate(limit: Time, s: State, id: nat): State {
    if IsClaimed(limit, s, id) then
      s.(count := s.count + 1, calls := s.calls[id := Created(s.calls[id].start, s.calls[id].at)])
    else s
  }

  function Step(user: string, limit: Time, s: State, a: Action): State {
    match a
    case Tick(d) => if Timely(limit, s, d) then s.(store := s.store.Tick(d)) else s
    case List(b) => if s.count < Passkeys.MAX_PASSKEYS then s.(begins := s.begins + {b}) else s
    case StoreSession(b, challenge) =>
      if b in s.begins then
        s.(begins := s.begins - {b},
           store := s.store.Set(RegistrationSession(user), Registration(challenge), Passkeys.SESSION_TTL))
      else s
    case Fetch(id) =>
      if id !in s.calls && s.store.Live(RegistrationSession(user)) then
        s.(calls := s.calls[id := Fetched(s.store.now)])
      else s
    case Claim(id) => DoClaim(user, limit, s, id)
    case Create(id) => DoCreate(limit, s, id)
    case Delete(id) =>
      if IsCreated(limit, s, id) then
        s.(store := s.store.Delete(RegistrationSession(user)), calls := s.calls[id := Ended])
      else s
    case Drop => if s.count == 0 then s else s.(count := s.count - 1)
    case Other(op) =>
      if op.key == RegistrationSession(user) || op.key == Passkeys.RegistrationClaim(user) then s
      else s.(store := Apply(s.store, op))
  }

  function Machine(user: string, limit: Time): (State, Action) -> State {
    (s, a) => Step(user, limit, s, a)
  }

  function Run(user: string, limit: Time, s: State, actions: seq<Action>): State {
    Runs.Run(Machine(user, limit), s, actions)
  }

  function Initial(now: Time, count: nat): State {
    State(Store(map[], now), count, {}, map[])
  }

  const ALL_FINE := Passkeys.RegisterNet(Fine, Fine, Fine)

  /** A begin and a completion run without interruption are the handlers. */
  lemma StepsRefineCeremony(user: string, limit: Time, s: State, b: nat, challenge: string, id: nat,
                            c: Passkeys.Ceremony)
    requires c.valid && c.serviceToken && c.listed && c.remote.Fine? && 0 < limit
    requires b !in s.begins && id !in s.calls
    ensures var t := Step(user, limit, Step(user, limit, s, List(b)), StoreSession(b, challenge));
            t.store == Passkeys.RegisterBegin(s.store, user, s.count, challenge, c, Fine).0 && t.begins == s.begins
    ensures var t1 := Step(user, limit, Step(user, limit, s, Fetch(id)), Claim(id));
            var t := Step(user, limit, Step(user, limit, t1, Create(id)), Delete(id));
            var (store, created, _) := Passkeys.RegisterComplete(s.store, user, c, ALL_FINE);
            t.store == store && t.count == s.count + created
  {
    var s1 := Step(user, limit, s, Fetch(id));
    if s.store.Live(RegistrationSession(user)) {
      assert s1.calls[id] == Fetched(s.store.now) && s1.store == s.store;
      var s2 := Step(user, limit, s1, Claim(id));
      if !s.store.Live(Passkeys.RegistrationClaim(user)) {
        assert s2.calls[id] == Claimed(s.store.now, s.store.now);
        assert Step(user, limit, s2, Create(id)).calls[id].Created?;
      }
    }
  }

  // ---- While no begin is pending -----------------------------------------------------------------

  /** The marker covers a time. */
  predicate MarkedUntil(user: string, s: State, end: Time) {
    var key := Passkeys.RegistrationClaim(user);
    key in s.store.entries && (s.store.entries[key].deadline.Some? ==> end <= s.store.entries[key].deadline.value)
  }

  predicate Holds(c: Completion) {
    c.Claimed? || c.Created?
  }

  predicate Apart(c: Completion, d: Completion)
    requires Holds(c) && Holds(d)
  {
    c.at + Passkeys.CLAIM_TTL * SECOND <= d.at || d.at + Passkeys.CLAIM_TTL * SECOND <= c.at
  }

  predicate CallOk(user: string, limit: Time, s: State, c: Completion) {
    && (!c.Ended? ==> c.start <= s.store.now)
    && (Holds(c) ==>
          && c.start <= c.at <= s.store.now && c.at < c.start + limit
          && MarkedUntil(user, s, c.at + Passkeys.CLAIM_TTL * SECOND))
  }

  predicate ClaimsOk(user: string, limit: Time, s: State) {
    && (forall i :: i in s.calls ==> CallOk(user, limit, s, s.calls[i]))
    && (forall i, j :: i in s.calls && j in s.calls && i != j && Holds(s.calls[i]) && Holds(s.calls[j]) ==>
          Apart(s.calls[i], s.calls[j]))
  }

  /** With ten passkeys there is no way to an eleventh: nobody is about to store a
      session or to create, whoever has read one meets the marker, and a session that
      is still there is about to be deleted. */
  predicate Closed(user: string, limit: Time, s: State) {
    && s.begins == {}
    && (forall i :: i in s.calls ==> !IsClaimed(limit, s, i))
    && (forall i :: i in s.calls && s.calls[i].Fetched? ==> MarkedUntil(user, s, s.calls[i].start + limit))
    && (RegistrationSession(user) in s.store.entries ==> exists i :: i in s.calls && IsCreated(limit, s, i))
  }

  /** No marker lives for longer than its TTL. */
  predicate MarkerOk(user: string, s: State) {
    var key := Passkeys.RegistrationClaim(user);
    key in s.store.entries ==>
      && s.store.entries[key].deadline.Some?
      && s.store.entries[key].deadline.value <= s.store.now + Passkeys.CLAIM_TTL * SECOND
  }

  predicate Inv(user: string, limit: Time, s: State) {
    && ClaimsOk(user, limit, s) && MarkerOk(user, s) && s.count <= Passkeys.MAX_PASSKEYS
    && (s.count == Passkeys.MAX_PASSKEYS ==> Closed(user, limit, s))
  }

  predicate Bounded(limit: Time) {
    2 * limit <= Passkeys.CLAIM_TTL * SECOND
  }

  /** Steps that set no marker keep all claims in order. */
  lemma ClaimsStay(user: string, limit: Time, s: State, t: State)
    requires ClaimsOk(user, limit, s) && s.store.now <= t.store.now
    requires Passkeys.RegistrationClaim(user) in s.store.entries ==>
               && Passkeys.RegistrationClaim(user) in t.store.entries
               && t.store.entries[Passkeys.RegistrationClaim(user)] == s.store.entries[Passkeys.RegistrationClaim(user)]
    requires forall i :: i in t.calls && !t.calls[i].Ended? ==>
               || (t.calls[i].Fetched? && t.calls[i].start <= t.store.now)
               || (i in s.calls && Holds(s.calls[i]) && Holds(t.calls[i]) && t.calls[i].start == s.calls[i].start
                   && t.calls[i].at == s.calls[i].at)
    ensures ClaimsOk(user, limit, t)
  {
    forall i | i in t.calls ensures CallOk(user, limit, t, t.calls[i]) {
      if Holds(t.calls[i]) {
        assert CallOk(user, limit, s, s.calls[i]);
      }
    }
    forall i, j | i in t.calls && j in t.calls && i != j && Holds(t.calls[i]) && Holds(t.calls[j])
      ensures Apart(t.calls[i], t.calls[j])
    {
      assert Apart(s.calls[i], s.calls[j]);
    }
  }

  lemma ClaimKeepsClaims(user: string, limit: Time, s: State, id: nat)
    requires ClaimsOk(user, limit, s)
    ensures ClaimsOk(user, limit, DoClaim(user, limit, s, id))
  {
    var t := DoClaim(user, limit, s, id);
    forall i | i in t.calls ensures CallOk(user, limit, t, t.calls[i]) {
      assert i in s.calls && CallOk(user, limit, s, s.calls[i]);
    }
    forall i, j | i in t.calls && j in t.calls && i != j && Holds(t.calls[i]) && Holds(t.calls[j])
      ensures Apart(t.calls[i], t.calls[j])
    {
      if i != id && j != id {
        assert Apart(s.calls[i], s.calls[j]);
      } else {
        var other := if i == id then j else i;
        assert CallOk(user, limit, s, s.calls[other]);
      }
    }
  }

  lemma CreateCloses(user: string, limit: Time, s: State, id: nat)
    requires ClaimsOk(user, limit, s) && Bounded(limit) && IsClaimed(limit, s, id) && s.begins == {}
    ensures Closed(user, limit, DoCreate(limit, s, id))
  {
    var t := DoCreate(limit, s, id);
    assert CallOk(user, limit, s, s.calls[id]);
    forall i | i in t.calls ensures !IsClaimed(limit, t, i) {
      if i != id && s.calls[i].Claimed? {
        assert Apart(s.calls[i], s.calls[id]) && CallOk(user, limit, s, s.calls[i]);
      }
    }
    forall i | i in t.calls && t.calls[i].Fetched? ensures MarkedUntil(user, t, t.calls[i].start + limit) {
      assert CallOk(user, limit, s, s.calls[i]);
    }
    assert IsCreated(limit, t, id);
  }

  /** A full user stays full, or drops a passkey. */
  lemma ClosedStays(user: string, limit: Time, s: State, a: Action)
    requires ClaimsOk(user, limit, s) && Bounded(limit) && Closed(user, limit, s)
    requires s.count == Passkeys.MAX_PASSKEYS && !a.Drop?
    ensures Step(user, limit, s, a).count == Passkeys.MAX_PASSKEYS && Closed(user, limit, Step(user, limit, s, a))
  {
    match a
    case Tick(d) => TickKeepsClosed(user, limit, s, d);
    case Fetch(id) => FetchKeepsClosed(user, limit, s, id);
    case Claim(id) => LostClaimKeepsClosed(user, limit, s, id);
    case Delete(id) => DeleteKeepsClosed(user, limit, s, id);
    case Other(op) => OtherKeepsClosed(user, limit, s, op);
    case _ =>
  }

  lemma TickKeepsClosed(user: string, limit: Time, s: State, d: nat)
    requires Closed(user, limit, s)
    ensures Closed(user, limit, Step(user, limit, s, Tick(d)))
  {
    var t := Step(user, limit, s, Tick(d));
    if RegistrationSession(user) in s.store.entries {
      var i :| i in s.calls && IsCreated(limit, s, i);
      assert IsCreated(limit, t, i);
    }
    forall i | i in t.calls ensures !IsClaimed(limit, t, i) {
      assert !IsClaimed(limit, s, i);
    }
  }

  lemma FetchKeepsClosed(user: string, limit: Time, s: State, id: nat)
    requires ClaimsOk(user, limit, s) && Bounded(limit) && Closed(user, limit, s)
    ensures Closed(user, limit, Step(user, limit, s, Fetch(id)))
  {
    var t := Step(user, limit, s, Fetch(id));
    if t != s {
      var i :| i in s.calls && IsCreated(limit, s, i);
      assert CallOk(user, limit, s, s.calls[i]) && i != id && IsCreated(limit, t, i);
      forall j | j in t.calls ensures !IsClaimed(limit, t, j) {
        assert j != id ==> !IsClaimed(limit, s, j);
      }
    }
  }

  lemma LostClaimKeepsClosed(user: string, limit: Time, s: State, id: nat)
    requires Closed(user, limit, s)
    ensures Closed(user, limit, DoClaim(user, limit, s, id))
  {
    var t := DoClaim(user, limit, s, id);
    if t != s {
      assert s.store.Live(Passkeys.RegistrationClaim(user));
      assert t.store == s.store && t.calls == s.calls[id := Ended];
      forall j | j in t.calls ensures !IsClaimed(limit, t, j) {
        assert j != id ==> !IsClaimed(limit, s, j);
      }
      if RegistrationSession(user) in s.store.entries {
        var i :| i in s.calls && IsCreated(limit, s, i);
        assert IsCreated(limit, t, i);
      }
    }
  }

  lemma DeleteKeepsClosed(user: string, limit: Time, s: State, id: nat)
    requires Closed(user, limit, s)
    ensures Closed(user, limit, Step(user, limit, s, Delete(id)))
  {
    var t := Step(user, limit, s, Delete(id));
    if t != s {
      forall j | j in t.calls ensures !IsClaimed(limit, t, j) {
        assert j != id ==> !IsClaimed(limit, s, j);
      }
    }
  }

  lemma OtherKeepsClosed(user: string, limit: Time, s: State, op: Op)
    requires Closed(user, limit, s)
    ensures Closed(user, limit, Step(user, limit, s, Other(op)))
  {
    var t := Step(user, limit, s, Other(op));
    if RegistrationSession(user) in s.store.entries {
      var i :| i in s.calls && IsCreated(limit, s, i);
      assert IsCreated(limit, t, i);
    }
    forall j | j in t.calls ensures !IsClaimed(limit, t, j) {
      assert !IsClaimed(limit, s, j);
    }
  }

  lemma ClaimsStep(user: string, limit: Time, s: State, a: Action)
    requires ClaimsOk(user, limit, s)
    ensures ClaimsOk(user, limit, Step(user, limit, s, a))
  {
    if a.Claim? {
      ClaimKeepsClaims(user, limit, s, a.id);
    } else {
      forall i | i in s.calls ensures CallOk(user, limit, s, s.calls[i]) {}
      ClaimsStay(user, limit, s, Step(user, limit, s, a));
    }
  }

  /** The step creates the tenth passkey while a begin has listed and not yet stored. */
  predicate Exposes(limit: Time, s: State, a: Action) {
    a.Create? && IsClaimed(limit, s, a.id) && s.count + 1 == Passkeys.MAX_PASSKEYS && s.begins != {}
  }

  /** No tenth passkey is created while a begin is pending. */
  ghost predicate TenthAlone(user: string, limit: Time, s: State, actions: seq<Action>) {
    forall k :: 0 <= k < |actions| ==> !Exposes(limit, Run(user, limit, s, actions[..k]), actions[k])
  }

  lemma InvStep(user: string, limit: Time, s: State, a: Action)
    requires Inv(user, limit, s) && Bounded(limit) && !Exposes(limit, s, a)
    ensures Inv(user, limit, Step(user, limit, s, a))
  {
    ClaimsStep(user, limit, s, a);
    if s.count == Passkeys.MAX_PASSKEYS && !a.Drop? {
      ClosedStays(user, limit, s, a);
    } else if a.Create? && IsClaimed(limit, s, a.id) && s.begins == {} {
      CreateCloses(user, limit, s, a.id);
    }
  }

  lemma {:induction false} InvRun(user: string, limit: Time, s: State, actions: seq<Action>)
    requires Inv(user, limit, s) && Bounded(limit) && TenthAlone(user, limit, s, actions)
    ensures Inv(user, limit, Run(user, limit, s, actions))
  {
    if actions != [] {
      var before, last := actions[..|actions| - 1], actions[|actions| - 1];
      assert forall k :: 0 <= k <= |before| ==> actions[..k] == before[..k];
      InvRun(user, limit, s, before);
      assert !Exposes(limit, Run(user, limit, s, actions[..|actions| - 1]), actions[|actions| - 1]);
      InvStep(user, limit, Run(user, limit, s, before), last);
    }
  }

  /** Over every run of calls that take less than 150 s and do not fail, the cap holds
      as long as no tenth passkey is created while a begin is pending. */
  lemma CapHoldsWhileTenthAlone(user: string, limit: Time, now: Time, count: nat, actions: seq<Action>)
    requires count <= Passkeys.MAX_PASSKEYS && Bounded(limit)
    requires TenthAlone(user, limit, Initial(now, count), actions)
    ensures Run(user, limit, Initial(now, count), actions).count <= Passkeys.MAX_PASSKEYS
  {
    InvRun(user, limit, Initial(now, count), actions);
  }

  // ---- While one is ---------------------------------------------------------------------------------

  /** After call `id` has created the tenth: it deletes its session, begin `b` stores
      one that outlives the marker, and call `next` uses that one. */
  function Escape(id: nat, b: nat, d: nat, next: nat): seq<Action> {
    StoreLate(id, b, d) + [Fetch(next), Claim(next)] + [Create(next)]
  }

  function StoreLate(id: nat, b: nat, d: nat): seq<Action> {
    [Delete(id), Tick(1), StoreSession(b, "late"), Tick(d)]
  }

  /** At most one call that holds a claim is in time. */
  lemma OneClaimInTime(user: string, limit: Time, s: State, i: nat, j: nat)
    requires ClaimsOk(user, limit, s) && Bounded(limit) && i in s.calls && j in s.calls
    requires Holds(s.calls[i]) && InTime(limit, s, s.calls[i].start)
    requires Holds(s.calls[j]) && InTime(limit, s, s.calls[j].start)
    ensures i == j
  {
    assert CallOk(user, limit, s, s.calls[i]) && CallOk(user, limit, s, s.calls[j]);
  }

  lemma LateSessionOutlivesMarker(user: string, limit: Time, s: State, id: nat, b: nat, end: Time)
    requires ClaimsOk(user, limit, s) && MarkerOk(user, s) && Bounded(limit) && b in s.begins
    requires IsCreated(limit, s, id) && Passkeys.RegistrationClaim(user) in s.store.entries
    requires s.store.entries[Passkeys.RegistrationClaim(user)].deadline == Some(end) && s.store.now < end
    ensures var t := Run(user, limit, s, StoreLate(id, b, end - s.store.now - 1));
            && t.count == s.count && t.calls == s.calls[id := Ended] && t.store.now == end
            && t.store.Live(RegistrationSession(user)) && !t.store.Live(Passkeys.RegistrationClaim(user))
  {
    var d := end - s.store.now - 1;
    Runs.Run4(Machine(user, limit), s, Delete(id), Tick(1), StoreSession(b, "late"), Tick(d));
    var s1 := Step(user, limit, s, Delete(id));
    assert s1.calls == s.calls[id := Ended] && s1.begins == s.begins && s1.count == s.count;
    forall i | i in s1.calls ensures !IsCreated(limit, s1, i) {
      if i != id && IsCreated(limit, s, i) {
        OneClaimInTime(user, limit, s, i, id);
      }
    }
    var s2 := Step(user, limit, s1, Tick(1));
    assert s2.store == s1.store.Tick(1) && s2.calls == s1.calls;
    var s3 := Step(user, limit, s2, StoreSession(b, "late"));
    assert forall i :: i in s3.calls ==> !IsCreated(limit, s3, i);
  }

  /** A call that finds the session and no marker creates a passkey. */
  lemma NextCreates(user: string, limit: Time, s: State, next: nat)
    requires 0 < limit && next !in s.calls
    requires s.store.Live(RegistrationSession(user)) && !s.store.Live(Passkeys.RegistrationClaim(user))
    ensures var t := Step(user, limit, Step(user, limit, s, Fetch(next)), Claim(next));
            t.count == s.count && IsClaimed(limit, t, next)
  {
    var s1 := Step(user, limit, s, Fetch(next));
    assert s1.calls[next] == Fetched(s.store.now) && s1.store == s.store;
  }

  /** Wherever the tenth passkey is created while a begin is pending, an eleventh can
      follow, although every call is quick and nothing fails. */
  lemma EleventhFollows(user: string, limit: Time, s: State, id: nat) returns (rest: seq<Action>)
    requires Inv(user, limit, s) && Bounded(limit) && 0 < limit && Exposes(limit, s, Create(id))
    ensures var t := Step(user, limit, s, Create(id));
            TenthAlone(user, limit, t, rest) && Run(user, limit, t, rest).count == Passkeys.MAX_PASSKEYS + 1
  {
    var t := Step(user, limit, s, Create(id));
    var b :| b in s.begins;
    var next := FreshId(t.calls.Keys);
    ClaimsStep(user, limit, s, Create(id));
    assert CallOk(user, limit, s, s.calls[id]) && IsCreated(limit, t, id);
    var end := t.store.entries[Passkeys.RegistrationClaim(user)].deadline.value;
    var d := end - t.store.now - 1;
    LateSessionOutlivesMarker(user, limit, t, id, b, end);
    var t1 := Run(user, limit, t, StoreLate(id, b, d));
    NextCreates(user, limit, t1, next);
    var t2 := Run(user, limit, t, StoreLate(id, b, d) + [Fetch(next), Claim(next)]);
    Runs.RunTwo(Machine(user, limit), t, StoreLate(id, b, d), Fetch(next), Claim(next));
    rest := Escape(id, b, d, next);
    OnlyLastCreates(user, limit, t, StoreLate(id, b, d) + [Fetch(next), Claim(next)], next);
  }

  lemma OnlyLastCreates(user: string, limit: Time, s: State, actions: seq<Action>, next: nat)
    requires forall k :: 0 <= k < |actions| ==> !actions[k].Create?
    requires var t := Run(user, limit, s, actions); IsClaimed(limit, t, next) && t.count == Passkeys.MAX_PASSKEYS
    ensures TenthAlone(user, limit, s, actions + [Create(next)])
    ensures Run(user, limit, s, actions + [Create(next)]).count == Passkeys.MAX_PASSKEYS + 1
  {
    var t, all := Run(user, limit, s, actions), actions + [Create(next)];
    Runs.RunAppend(Machine(user, limit), s, actions, Create(next));
    assert all[..|actions|] == actions;
    assert !Exposes(limit, t, Create(next));
    assert Run(user, limit, s, all) == Step(user, limit, t, Create(next));
    forall k | 0 <= k < |all| ensures !Exposes(limit, Run(user, limit, s, all[..k]), all[k]) {
      assert k < |actions| ==> all[k] == actions[k];
    }
  }

  lemma FreshId(ids: set<nat>) returns (id: nat)
    ensures id !in ids && forall i :: i in ids ==> i < id
  {
    id := 0;
    var rest := ids;
    while rest != {}
      invariant rest <= ids && forall i :: i in ids - rest ==> i < id
      decreases rest
    {
      var first :| first in rest;
      assert forall i :: i in ids - (rest - {first}) ==> i == first || i in ids - rest;
      rest := rest - {first};
      id := if id <= first then first + 1 else id;
    }
    assert ids - rest == ids;
  }

  // ---- The exact condition ---------------------------------------------------------------------------

  /** At every moment of the run, the cap holds from then on in every continuation
      that creates no tenth passkey while a begin is pending. */
  ghost predicate StaysCapped(user: string, limit: Time, s: State, actions: seq<Action>) {
    forall k, rest: seq<Action> ::
      0 <= k <= |actions| && TenthAlone(user, limit, Run(user, limit, s, actions[..k]), rest) ==>
        Run(user, limit, Run(user, limit, s, actions[..k]), rest).count <= Passkeys.MAX_PASSKEYS
  }

  lemma PrefixAlone(user: string, limit: Time, s: State, actions: seq<Action>, k: nat)
    requires k <= |actions|
    requires forall m :: 0 <= m < k ==> !Exposes(limit, Run(user, limit, s, actions[..m]), actions[m])
    ensures TenthAlone(user, limit, s, actions[..k])
  {
    assert forall m :: 0 <= m < k ==> actions[..k][..m] == actions[..m];
  }

  /** The first step of the run that exposes the cap. */
  lemma {:induction false} FirstExposed(user: string, limit: Time, s: State, actions: seq<Action>, n: nat)
    returns (k: nat)
    requires n <= |actions| && forall m :: 0 <= m < n ==> !Exposes(limit, Run(user, limit, s, actions[..m]), actions[m])
    requires !TenthAlone(user, limit, s, actions)
    ensures k < |actions| && Exposes(limit, Run(user, limit, s, actions[..k]), actions[k])
    ensures TenthAlone(user, limit, s, actions[..k])
    decreases |actions| - n
  {
    if n < |actions| && !Exposes(limit, Run(user, limit, s, actions[..n]), actions[n]) {
      k := FirstExposed(user, limit, s, actions, n + 1);
    } else {
      k := n;
      PrefixAlone(user, limit, s, actions, n);
    }
  }

  /** When a run is safe, if calls take less than 150 s and do not fail: exactly if it
      creates no tenth passkey while a begin is pending. */
  lemma CapHoldsIffTenthAlone(user: string, limit: Time, now: Time, count: nat, actions: seq<Action>)
    requires 0 < limit && Bounded(limit) && count <= Passkeys.MAX_PASSKEYS
    ensures TenthAlone(user, limit, Initial(now, count), actions) <==>
            StaysCapped(user, limit, Initial(now, count), actions)
  {
    var s0 := Initial(now, count);
    if TenthAlone(user, limit, s0, actions) {
      forall k, rest: seq<Action> |
        0 <= k <= |actions| && TenthAlone(user, limit, Run(user, limit, s0, actions[..k]), rest)
        ensures Run(user, limit, Run(user, limit, s0, actions[..k]), rest).count <= Passkeys.MAX_PASSKEYS
      {
        PrefixAlone(user, limit, s0, actions, k);
        InvRun(user, limit, s0, actions[..k]);
        InvRun(user, limit, Run(user, limit, s0, actions[..k]), rest);
      }
    } else {
      var k, rest := ExposedRunEscapes(user, limit, now, count, actions);
    }
  }

  lemma ExposedRunEscapes(user: string, limit: Time, now: Time, count: nat, actions: seq<Action>)
    returns (k: nat, rest: seq<Action>)
    requires 0 < limit && Bounded(limit) && count <= Passkeys.MAX_PASSKEYS
    requires !TenthAlone(user, limit, Initial(now, count), actions)
    ensures k <= |actions|
    ensures var t := Run(user, limit, Initial(now, count), actions[..k]);
            TenthAlone(user, limit, t, rest) && Run(user, limit, t, rest).count > Passkeys.MAX_PASSKEYS
  {
    var s0 := Initial(now, count);
    var n := FirstExposed(user, limit, s0, actions, 0);
    InvRun(user, limit, s0, actions[..n]);
    var s, a := Run(user, limit, s0, actions[..n]), actions[n];
    k := n + 1;
    rest := EleventhFollows(user, limit, s, a.id);
    RunNext(user, limit, s0, actions, n);
  }

  lemma RunNext(user: string, limit: Time, s: State, actions: seq<Action>, n: nat)
    requires n < |actions|
    ensures Run(user, limit, s, actions[..n + 1]) == Step(user, limit, Run(user, limit, s, actions[..n]), actions[n])
  {
    assert actions[..n + 1] == actions[..n] + [actions[n]];
    Runs.RunAppend(Machine(user, limit), s, actions[..n], actions[n]);
  }

  // ---- It happens --------------------------------------------------------------------------------------

  /** With nine passkeys: one session is stored, another begin lists the nine, and a
      completion is about to create the tenth. */
  function BeforeTenth(): seq<Action> {
    [List(0), StoreSession(0, "first"), List(1), Fetch(0), Claim(0)]
  }

  lemma BeforeTenthRuns(user: string, limit: Time, now: Time)
    requires 0 < limit && Bounded(limit)
    ensures var s := Run(user, limit, Initial(now, 9), BeforeTenth());
            Inv(user, limit, s) && Exposes(limit, s, Create(0))
  {
    var s0 := Initial(now, 9);
    Runs.Run5(Machine(user, limit), s0, List(0), StoreSession(0, "first"), List(1), Fetch(0), Claim(0));
    var s3 := Step(user, limit, Step(user, limit, Step(user, limit, s0, List(0)), StoreSession(0, "first")), List(1));
    assert s3.begins == {1} && s3.calls == map[] && s3.count == 9 && s3.store.now == now;
    var s4 := Step(user, limit, s3, Fetch(0));
    assert s4.calls == map[0 := Fetched(now)] && s4.begins == {1};
    NoCreateNoRisk(user, limit, now, BeforeTenth());
  }

  lemma NoCreateNoRisk(user: string, limit: Time, now: Time, actions: seq<Action>)
    requires Bounded(limit) && forall a :: a in actions ==> !a.Create?
    ensures Inv(user, limit, Run(user, limit, Initial(now, 9), actions))
  {
    InvRun(user, limit, Initial(now, 9), actions);
  }

  /** A run from nine passkeys to eleven: the second begin listed nine, and stored its
      session after the tenth had been created. */
  lemma OverlappingBeginExceedsTheCap(user: string, limit: Time, now: Time)
    requires 0 < limit && Bounded(limit)
    ensures exists rest: seq<Action> ::
              Run(user, limit, Initial(now, 9), BeforeTenth() + [Create(0)] + rest).count == Passkeys.MAX_PASSKEYS + 1
  {
    var s0 := Initial(now, 9);
    BeforeTenthRuns(user, limit, now);
    var rest := EleventhFollows(user, limit, Run(user, limit, s0, BeforeTenth()), 0);
    Runs.RunAround(Machine(user, limit), s0, BeforeTenth(), Create(0), rest);
    assert Run(user, limit, s0, BeforeTenth() + [Create(0)] + rest).count == Passkeys.MAX_PASSKEYS + 1;
  }
}
