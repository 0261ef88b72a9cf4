// Key rotation under interleaving: a reload is two pointer stores, a key lookup
// two pointer loads, and signing loads the key before it stamps the expiry.

module KeyRotation {
  import opened Wrappers
  import opened TtlStore
  import Keys
  import Runs

  type Keyset = Keys.Keyset
  type PublicKey = Keys.PublicKey

  /** `lifetime` bounds a token's life from the moment its expiry is stamped and
      `signing` the time between loading the key and stamping; two reloads that
      change the kid are `spacing` apart.  `previousFirst` is the order in which
      Reload writes the slots; the source writes the previous slot first. */
  datatype Params = Params(lifetime: Time, signing: Time, spacing: Time, previousFirst: bool)

  datatype Signed = Signed(key: Keyset, exp: Time)

  datatype Signer = Signer(key: Keyset, loadedAt: Time)

  /** A lookup for token number `token`; `at` is when it ended. */
  datatype Check =
    | Missed(token: nat)
    | Ended(token: nat, found: Option<PublicKey>, at: Time)

  /** `pending` is what the reload in progress has still to store; `changed` is
      when the kid of the active slot last changed. */
  datatype State = State(
    now: Time, active: Keyset, previous: Option<Keyset>, pending: Option<Keyset>, changed: Option<Time>,
    signers: map<nat, Signer>, tokens: seq<Signed>, checks: map<nat, Check>)

  datatype Action =
    | Tick(d: nat)
    | BeginReload(next: Keyset)
    | EndReload
    | LoadKey(signer: nat)
    | Stamp(stamper: nat, ttl: Time)
    | LoadActive(check: nat, token: nat)
    | LoadPrevious(looker: nat)

  predicate MayChange(p: Params, s: State) {
    s.changed.None? || s.changed.value + p.spacing <= s.now
  }

  /** The first store of a reload.  There is one writer. */
  function DoBegin(p: Params, s: State, next: Keyset): State {
    if s.pending.Some? then s
    else if next.kid == s.active.kid then s.(pending := Some(next))
    else if !MayChange(p, s) then s
    else if p.previousFirst then s.(previous := Some(s.active), pending := Some(next))
    else s.(active := next, changed := Some(s.now), pending := Some(s.active))
  }

  function DoEnd(p: Params, s: State): State {
    if s.pending.None? then s
    else if p.previousFirst || s.pending.value.kid == s.active.kid then
      s.(active := s.pending.value, pending := None,
         changed := if s.pending.value.kid != s.active.kid then Some(s.now) else s.changed)
    else s.(previous := s.pending, pending := None)
  }

  function DoStamp(p: Params, s: State, id: nat, ttl: Time): State {
    if id in s.signers && s.now <= s.signers[id].loadedAt + p.signing && ttl <= p.lifetime then
      s.(signers := s.signers - {id}, tokens := s.tokens + [Signed(s.signers[id].key, s.now + ttl)])
    else s
  }

  function DoLoadActive(s: State, id: nat, token: nat): State {
    if id in s.checks || token >= |s.tokens| then s
    else
      var kid := s.tokens[token].key.kid;
      s.(checks := s.checks[id := if kid == "" || kid == s.active.kid
                                  then Ended(token, Some(s.active.publicKey), s.now) else Missed(token)])
  }

  function DoLoadPrevious(s: State, id: nat): State {
    if id in s.checks && s.checks[id].Missed? && s.checks[id].token < |s.tokens| then
      var kid := s.tokens[s.checks[id].token].key.kid;
      s.(checks := s.checks[id := Ended(s.checks[id].token,
                                        if s.previous.Some? && kid == s.previous.value.kid
                                        then Some(s.previous.value.publicKey) else None, s.now)])
    else s
  }

  function Step(p: Params, s: State, a: Action): State {
    match a
    case Tick(d) => s.(now := s.now + d)
    case BeginReload(next) => DoBegin(p, s, next)
    case EndReload => DoEnd(p, s)
    case LoadKey(id) => if id in s.signers then s else s.(signers := s.signers[id := Signer(s.active, s.now)])
    case Stamp(id, ttl) => DoStamp(p, s, id, ttl)
    case LoadActive(id, token) => DoLoadActive(s, id, token)
    case LoadPrevious(id) => DoLoadPrevious(s, id)
  }

  function Machine(p: Params): (State, Action) -> State {
    (s, a) => Step(p, s, a)
  }

  function Run(p: Params, s: State, actions: seq<Action>): State {
    Runs.Run(Machine(p), s, actions)
  }

  function Initial(first: Keyset, now: Time): State {
    State(now, first, None, None, None, map[], [], map[])
  }

  /** A kid is not empty and always names the same key pair. */
  predicate Proper(pair: string -> PublicKey, k: Keyset) {
    k.kid != "" && k.publicKey == pair(k.kid)
  }

  predicate ProperReloads(pair: string -> PublicKey, a: Action) {
    a.BeginReload? ==> Proper(pair, a.next)
  }

  /** Every lookup that ended while its token was alive found the signing key. */
  predicate AllResolved(s: State) {
    forall c :: c in s.checks && s.checks[c].Ended? && s.checks[c].token < |s.tokens|
                && s.checks[c].at < s.tokens[s.checks[c].token].exp ==>
      s.checks[c].found == Some(s.tokens[s.checks[c].token].key.publicKey)
  }

  // ---- Safety ----------------------------------------------------------------------------

  predicate InSlots(s: State, k: Keyset) {
    k.kid == s.active.kid || (s.previous.Some? && k.kid == s.previous.value.kid)
  }

  /** No token outlives the next change of kid. */
  predicate TokenInv(p: Params, pair: string -> PublicKey, s: State, t: Signed) {
    && Proper(pair, t.key) && t.exp <= s.now + p.lifetime
    && (s.now < t.exp ==> InSlots(s, t.key))
    && (t.key.kid != s.active.kid ==> s.changed.Some? && t.exp <= s.changed.value + p.lifetime + p.signing)
  }

  predicate SignerInv(p: Params, pair: string -> PublicKey, s: State, g: Signer) {
    && Proper(pair, g.key) && g.loadedAt <= s.now
    && (s.now <= g.loadedAt + p.signing ==> InSlots(s, g.key))
    && (g.key.kid != s.active.kid ==> s.changed.Some? && g.loadedAt <= s.changed.value)
  }

  predicate CheckInv(s: State, c: Check) {
    && c.token < |s.tokens|
    && (c.Missed? && s.now < s.tokens[c.token].exp ==>
          && s.tokens[c.token].key.kid != s.active.kid
          && s.previous.Some? && s.tokens[c.token].key.kid == s.previous.value.kid)
    && (c.Ended? && c.at < s.tokens[c.token].exp ==> c.found == Some(s.tokens[c.token].key.publicKey))
  }

  predicate SlotInv(pair: string -> PublicKey, s: State) {
    && Proper(pair, s.active)
    && (s.previous.Some? ==> Proper(pair, s.previous.value))
    && (s.pending.Some? ==> Proper(pair, s.pending.value))
    && (s.changed.Some? ==> s.changed.value <= s.now)
    && (if s.pending.Some? && s.pending.value.kid != s.active.kid
        then s.previous == Some(s.active)
        else s.previous.Some? ==> s.previous.value.kid != s.active.kid)
  }

  predicate Inv(p: Params, pair: string -> PublicKey, s: State) {
    && SlotInv(pair, s)
    && (forall i :: 0 <= i < |s.tokens| ==> TokenInv(p, pair, s, s.tokens[i]))
    && (forall g :: g in s.signers ==> SignerInv(p, pair, s, s.signers[g]))
    && (forall c :: c in s.checks ==> CheckInv(s, s.checks[c]))
  }

  predicate Spaced(p: Params) {
    p.previousFirst && 0 < p.lifetime && p.lifetime + p.signing <= p.spacing
  }

  lemma BeginKeepsInv(p: Params, pair: string -> PublicKey, s: State, next: Keyset)
    requires Inv(p, pair, s) && Spaced(p) && Proper(pair, next)
    ensures Inv(p, pair, DoBegin(p, s, next))
  {
    var t := DoBegin(p, s, next);
    forall i | 0 <= i < |t.tokens| ensures TokenInv(p, pair, t, t.tokens[i]) {
      assert TokenInv(p, pair, s, s.tokens[i]);
    }
    forall g | g in t.signers ensures SignerInv(p, pair, t, t.signers[g]) {
      assert SignerInv(p, pair, s, s.signers[g]);
    }
    forall c | c in t.checks ensures CheckInv(t, t.checks[c]) {
      assert CheckInv(s, s.checks[c]);
      assert TokenInv(p, pair, s, s.tokens[s.checks[c].token]);
    }
  }

  lemma EndKeepsInv(p: Params, pair: string -> PublicKey, s: State)
    requires Inv(p, pair, s) && Spaced(p)
    ensures Inv(p, pair, DoEnd(p, s))
  {
    var t := DoEnd(p, s);
    forall i | 0 <= i < |t.tokens| ensures TokenInv(p, pair, t, t.tokens[i]) {
      assert TokenInv(p, pair, s, s.tokens[i]);
    }
    forall g | g in t.signers ensures SignerInv(p, pair, t, t.signers[g]) {
      assert SignerInv(p, pair, s, s.signers[g]);
    }
    forall c | c in t.checks ensures CheckInv(t, t.checks[c]) {
      assert CheckInv(s, s.checks[c]);
    }
  }

  lemma StampKeepsInv(p: Params, pair: string -> PublicKey, s: State, id: nat, ttl: Time)
    requires Inv(p, pair, s) && Spaced(p)
    ensures Inv(p, pair, DoStamp(p, s, id, ttl))
  {
    var t := DoStamp(p, s, id, ttl);
    if t != s {
      assert SignerInv(p, pair, s, s.signers[id]);
    }
    forall i | 0 <= i < |t.tokens| ensures TokenInv(p, pair, t, t.tokens[i]) {
      if i < |s.tokens| {
        assert TokenInv(p, pair, s, s.tokens[i]);
      }
    }
    forall c | c in t.checks ensures CheckInv(t, t.checks[c]) {
      assert CheckInv(s, s.checks[c]);
    }
  }

  lemma LookupKeepsInv(p: Params, pair: string -> PublicKey, s: State, a: Action)
    requires Inv(p, pair, s) && (a.LoadActive? || a.LoadPrevious?)
    ensures Inv(p, pair, Step(p, s, a))
  {
    var t := Step(p, s, a);
    forall i | 0 <= i < |t.tokens| ensures TokenInv(p, pair, t, t.tokens[i]) {
      assert TokenInv(p, pair, s, s.tokens[i]);
    }
    forall g | g in t.signers ensures SignerInv(p, pair, t, t.signers[g]) {
      assert SignerInv(p, pair, s, s.signers[g]);
    }
    forall c | c in t.checks ensures CheckInv(t, t.checks[c]) {
      if c in s.checks {
        assert CheckInv(s, s.checks[c]);
      }
      assert TokenInv(p, pair, s, s.tokens[t.checks[c].token]);
    }
  }

  lemma InvStep(p: Params, pair: string -> PublicKey, s: State, a: Action)
    requires Inv(p, pair, s) && Spaced(p) && ProperReloads(pair, a)
    ensures Inv(p, pair, Step(p, s, a))
  {
    match a
    case Tick(d) =>
      var t := Step(p, s, a);
      forall c | c in t.checks ensures CheckInv(t, t.checks[c]) {
        assert CheckInv(s, s.checks[c]);
      }
    case BeginReload(next) => BeginKeepsInv(p, pair, s, next);
    case EndReload => EndKeepsInv(p, pair, s);
    case LoadKey(id) =>
      var t := Step(p, s, a);
      forall c | c in t.checks ensures CheckInv(t, t.checks[c]) {
        assert CheckInv(s, s.checks[c]);
      }
    case Stamp(id, ttl) => StampKeepsInv(p, pair, s, id, ttl);
    case LoadActive(id, token) => LookupKeepsInv(p, pair, s, a);
    case LoadPrevious(id) => LookupKeepsInv(p, pair, s, a);
  }

  lemma {:induction false} InvRun(p: Params, pair: string -> PublicKey, first: Keyset, now: Time, actions: seq<Action>)
    requires Spaced(p) && Proper(pair, first) && forall a :: a in actions ==> ProperReloads(pair, a)
    ensures Inv(p, pair, Run(p, Initial(first, now), actions))
  {
    if actions != [] {
      InvRun(p, pair, first, now, actions[..|actions| - 1]);
      InvStep(p, pair, Run(p, Initial(first, now), actions[..|actions| - 1]), actions[|actions| - 1]);
    }
  }

  /** In every interleaving, a token that has not expired resolves to the key that
      signed it, if reloads that change the kid are a token lifetime (plus the
      time signing may take) apart. */
  lemma LiveTokensResolve(p: Params, pair: string -> PublicKey, first: Keyset, now: Time, actions: seq<Action>)
    requires Spaced(p) && Proper(pair, first) && forall a :: a in actions ==> ProperReloads(pair, a)
    ensures AllResolved(Run(p, Initial(first, now), actions))
  {
    InvRun(p, pair, first, now, actions);
    var s := Run(p, Initial(first, now), actions);
    forall c | c in s.checks && s.checks[c].Ended? && s.checks[c].token < |s.tokens|
               && s.checks[c].at < s.tokens[s.checks[c].token].exp
      ensures s.checks[c].found == Some(s.tokens[s.checks[c].token].key.publicKey)
    {
      assert CheckInv(s, s.checks[c]);
    }
  }

  // ---- The spacing is exact ---------------------------------------------------------------

  /** A token signed with the first key as late as allowed after the first change. */
  function LateSignature(p: Params, second: Keyset, m: Time): seq<Action> {
    [LoadKey(0), BeginReload(second), EndReload, Tick(m), Stamp(0, p.lifetime)]
  }

  /** The second change as early as allowed, and a lookup of that token. */
  function EarlyChange(p: Params, third: Keyset, rest: Time): seq<Action> {
    [Tick(rest), BeginReload(third), EndReload, LoadActive(0, 0), LoadPrevious(0)]
  }

  lemma LateSignatureRuns(p: Params, first: Keyset, second: Keyset, m: Time)
    requires p.previousFirst && m <= p.signing && first.kid != second.kid
    ensures Run(p, Initial(first, 0), LateSignature(p, second, m)) ==
            State(m, second, Some(first), None, Some(0), map[], [Signed(first, m + p.lifetime)], map[])
  {
    var xs, s0 := LateSignature(p, second, m), Initial(first, 0);
    Runs.Run5(Machine(p), s0, xs[0], xs[1], xs[2], xs[3], xs[4]);
    var s1 := Step(p, s0, xs[0]);
    assert s1 == s0.(signers := map[0 := Signer(first, 0)]);
    var s3 := Step(p, Step(p, s1, xs[1]), xs[2]);
    assert s3 == s1.(active := second, previous := Some(first), changed := Some(0));
    assert map[0 := Signer(first, 0)] - {0} == map[];
  }

  lemma EarlyChangeLosesTheKey(p: Params, s: State, third: Keyset, rest: Time)
    requires p.previousFirst && s.pending.None? && s.changed == Some(0) && s.now + rest == p.spacing
    requires |s.tokens| == 1 && s.checks == map[] && p.spacing < s.tokens[0].exp
    requires third.kid != s.active.kid && third.kid != s.tokens[0].key.kid
    requires s.tokens[0].key.kid != s.active.kid && s.tokens[0].key.kid != ""
    ensures !AllResolved(Run(p, s, EarlyChange(p, third, rest)))
  {
    var xs := EarlyChange(p, third, rest);
    Runs.Run5(Machine(p), s, xs[0], xs[1], xs[2], xs[3], xs[4]);
    var s1 := Step(p, s, xs[0]);
    var s2 := Step(p, s1, xs[1]);
    assert s2 == s1.(previous := Some(s.active), pending := Some(third));
    var s3 := Step(p, s2, xs[2]);
    assert s3.now == p.spacing && s3.active == third && s3.previous == Some(s.active);
    LookupMisses(p, s3);
  }

  /** A lookup of a live token whose kid is in neither slot fails. */
  lemma LookupMisses(p: Params, s: State)
    requires |s.tokens| == 1 && s.checks == map[] && s.now < s.tokens[0].exp
    requires s.tokens[0].key.kid != "" && s.tokens[0].key.kid != s.active.kid
    requires s.previous.Some? ==> s.tokens[0].key.kid != s.previous.value.kid
    ensures !AllResolved(Step(p, Step(p, s, LoadActive(0, 0)), LoadPrevious(0)))
  {
    var s1 := Step(p, s, LoadActive(0, 0));
    assert s1 == s.(checks := map[0 := Missed(0)]);
    assert Step(p, s1, LoadPrevious(0)).checks[0] == Ended(0, None, s.now);
  }

  lemma TooEarlyRunFails(p: Params, first: Keyset, second: Keyset, third: Keyset, m: Time)
    requires p.previousFirst && 0 < p.lifetime && p.spacing < p.lifetime + p.signing && first.kid != ""
    requires m <= p.signing && m <= p.spacing < m + p.lifetime
    requires first.kid != second.kid && first.kid != third.kid && second.kid != third.kid
    ensures !AllResolved(Run(p, Initial(first, 0), LateSignature(p, second, m) + EarlyChange(p, third, p.spacing - m)))
  {
    LateSignatureRuns(p, first, second, m);
    EarlyChangeLosesTheKey(p, Run(p, Initial(first, 0), LateSignature(p, second, m)), third, p.spacing - m);
    Runs.RunConcat(Machine(p), Initial(first, 0), LateSignature(p, second, m), EarlyChange(p, third, p.spacing - m));
  }

  lemma TooEarlyRunExists(p: Params, pair: string -> PublicKey, first: Keyset)
    requires p.previousFirst && 0 < p.lifetime && p.spacing < p.lifetime + p.signing && Proper(pair, first)
    ensures exists actions: seq<Action> ::
              (forall a :: a in actions ==> ProperReloads(pair, a)) && !AllResolved(Run(p, Initial(first, 0), actions))
  {
    var b, c := first.kid + "b", first.kid + "cc";
    assert |b| == |first.kid| + 1 && |c| == |first.kid| + 2;
    var second, third := Keys.Keyset(pair(b), b), Keys.Keyset(pair(c), c);
    var m := if p.signing <= p.spacing then p.signing else p.spacing;
    TooEarlyRunFails(p, first, second, third, m);
    var actions := LateSignature(p, second, m) + EarlyChange(p, third, p.spacing - m);
    forall a | a in actions ensures ProperReloads(pair, a) {
      assert a in LateSignature(p, second, m) || a in EarlyChange(p, third, p.spacing - m);
    }
  }

  /** Changing the kid earlier than a token lifetime plus signing time after the
      last change loses a key that is still needed: the bound is exact. */
  lemma LiveTokensResolveIff(p: Params, pair: string -> PublicKey, first: Keyset)
    requires p.previousFirst && 0 < p.lifetime && Proper(pair, first)
    ensures p.lifetime + p.signing <= p.spacing <==>
            forall actions: seq<Action> :: (forall a :: a in actions ==> ProperReloads(pair, a)) ==>
              AllResolved(Run(p, Initial(first, 0), actions))
  {
    if p.lifetime + p.signing <= p.spacing {
      forall actions: seq<Action> | forall a :: a in actions ==> ProperReloads(pair, a)
        ensures AllResolved(Run(p, Initial(first, 0), actions))
      {
        LiveTokensResolve(p, pair, first, 0, actions);
      }
    } else {
      TooEarlyRunExists(p, pair, first);
    }
  }

  /** The order of the two stores matters: with the active slot written first, a
      lookup that falls between them misses a live token, whatever the spacing. */
  lemma ActiveFirstLosesTheKey(p: Params, first: Keyset, second: Keyset)
    requires !p.previousFirst && 0 < p.lifetime && first.kid != "" && first.kid != second.kid
    ensures !AllResolved(Run(p, Initial(first, 0),
                             [LoadKey(0), Stamp(0, p.lifetime), BeginReload(second), LoadActive(0, 0),
                              LoadPrevious(0)]))
  {
    var s0 := Initial(first, 0);
    Runs.Run5(Machine(p), s0, LoadKey(0), Stamp(0, p.lifetime), BeginReload(second), LoadActive(0, 0), LoadPrevious(0));
    var s2 := Step(p, Step(p, s0, LoadKey(0)), Stamp(0, p.lifetime));
    assert s2.tokens == [Signed(first, p.lifetime)];
    var s3 := Step(p, s2, BeginReload(second));
    assert s3.active == second && s3.previous == None;
    assert Step(p, s3, LoadActive(0, 0)).checks == map[0 := Missed(0)];
  }

  /** Run without interruption, the steps are Reload and keyForToken. */
  lemma StepsRefineKeyStore(p: Params, s: State, next: Keyset, id: nat, token: nat)
    requires p.previousFirst && s.pending.None? && MayChange(p, s) && id !in s.checks && token < |s.tokens|
    ensures var slots := Keys.Slots(Some(s.active), s.previous);
            var t := Step(p, Step(p, s, BeginReload(next)), EndReload);
            Keys.Slots(Some(t.active), t.previous) == Keys.Reloaded(slots, Some(next))
    ensures var t := Step(p, Step(p, s, LoadActive(id, token)), LoadPrevious(id));
            t.checks[id] == Ended(token, Keys.KeyFor(Keys.Slots(Some(s.active), s.previous), s.tokens[token].key.kid),
                                  s.now)
  {
  }
}

module KeyLifetime {
  import opened TtlStore
  import opened KeyRotation
  import AuthServer
  import Keys

  /** The longest-lived token, signing as one step, and reloads thirty days apart. */
  function ThirtyDays(): Params {
    Params(AuthServer.REFRESH_TTL * SECOND, 0, 30 * 24 * 3600 * SECOND, true)
  }

  /** Changes of the kid thirty days apart are enough for every token the service signs. */
  lemma ThirtyDaysBetweenChanges(pair: string -> Keys.PublicKey, first: Keys.Keyset, now: Time, actions: seq<Action>)
    requires Proper(pair, first) && forall a :: a in actions ==> ProperReloads(pair, a)
    ensures AllResolved(Run(ThirtyDays(), Initial(first, now), actions))
  {
    LiveTokensResolve(ThirtyDays(), pair, first, now, actions);
  }
}
