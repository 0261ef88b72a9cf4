// Replay detection: how long a revoked family stays refused, and how long a
// revoked token stays inactive.

module Replay {
  import opened Wrappers
  import opened TtlStore
  import opened Scopes
  import opened Clients
  import opened AuthServer
  import opened TokenHistory
  import opened Sessions
  import opened Steps
  import opened Families
  import Denylist
  import Runs

  predicate DetectsIn(u: Setup, s: Server, a: Action, family: Id) {
    a.Rotate? && Detects(u, s, a.rotation) && s.tokens[a.rotation.token].claims.family == family
  }

  /** A step writes a family entry exactly when it detects a replay in it and
      the entry reaches the store. */
  lemma StepAndFamilies(u: Setup, s: Server, a: Action, family: Id)
    requires Inv(s) && Unrelated(a) && family.Id?
    ensures FamilyEffect(u, s, a, Step(u, s, a), family)
  {
    StepSummary(u, s, a);
    SummaryAndFamilies(u, s, a, Step(u, s, a), family);
  }

  ghost predicate FamilyEffect(u: Setup, s: Server, a: Action, t: Server, family: Id) {
    var key := RevokedFamily(family);
    if DetectsIn(u, s, a, family) then
      && s.store.now < s.tokens[a.rotation.token].claims.exp
      && key in t.store.entries
      && t.store.entries[key].deadline == Some(Denylist.CoverEnd(s.store.now, s.tokens[a.rotation.token].claims.exp))
    else
      && (key in t.store.entries <==> key in s.store.entries)
      && (key in s.store.entries ==> t.store.entries[key] == s.store.entries[key])
  }

  lemma SummaryAndFamilies(u: Setup, s: Server, a: Action, t: Server, family: Id)
    requires Summary(u, s, a, t) && family.Id?
    ensures FamilyEffect(u, s, a, t, family)
  {
  }

  // ---- Exactly how long a family is refused -------------------------------------------------

  /** When the entry written by the last detected replay in the family lapses. */
  function LastCover(u: Setup, s: Server, actions: seq<Action>, family: Id): Option<Time> {
    if actions == [] then None
    else
      var before, a := actions[..|actions| - 1], actions[|actions| - 1];
      var r := Run(u, s, before);
      if DetectsIn(u, r, a, family) then
        Some(Denylist.CoverEnd(r.store.now, r.tokens[a.rotation.token].claims.exp))
      else LastCover(u, s, before, family)
  }

  lemma {:induction false} FamilyEntryIsLastCover(u: Setup, d: Directory, now: Time, actions: seq<Action>, family: Id)
    requires family.Id? && forall a :: a in actions ==> Unrelated(a)
    ensures var s, cover := Run(u, Initial(d, now), actions), LastCover(u, Initial(d, now), actions, family);
            && (RevokedFamily(family) in s.store.entries <==> cover.Some?)
            && (cover.Some? ==> s.store.entries[RevokedFamily(family)].deadline == cover)
  {
    if actions != [] {
      var before := actions[..|actions| - 1];
      FamilyEntryIsLastCover(u, d, now, before, family);
      InvRun(u, d, now, before);
      StepAndFamilies(u, Run(u, Initial(d, now), before), actions[|actions| - 1], family);
    }
  }

  /** Over every run, a family is refused exactly until the entry of the replay
      detected last in it lapses: earlier and longer entries do not count. */
  lemma FamilyRefusedUntilLastCover(u: Setup, d: Directory, now: Time, actions: seq<Action>, family: Id)
    requires family.Id? && forall a :: a in actions ==> Unrelated(a)
    ensures var s, cover := Run(u, Initial(d, now), actions), LastCover(u, Initial(d, now), actions, family);
            s.store.Live(RevokedFamily(family)) <==> cover.Some? && s.store.now < cover.value
  {
    FamilyEntryIsLastCover(u, d, now, actions, family);
  }

  /** No replay detected in the family presents a token that expires before `exp`. */
  ghost predicate NoOlderReplay(u: Setup, s: Server, actions: seq<Action>, family: Id, exp: Time) {
    forall k :: 0 <= k < |actions| && DetectsIn(u, Run(u, s, actions[..k]), actions[k], family) ==>
      exp <= Run(u, s, actions[..k]).tokens[actions[k].rotation.token].claims.exp
  }

  lemma {:induction false} InvKept(u: Setup, s: Server, actions: seq<Action>)
    requires Inv(s) && forall a :: a in actions ==> Unrelated(a)
    ensures Inv(Run(u, s, actions)) && Extends(s, Run(u, s, actions))
  {
    if actions != [] {
      var r := Run(u, s, actions[..|actions| - 1]);
      InvKept(u, s, actions[..|actions| - 1]);
      InvStep(u, r, actions[|actions| - 1]);
      StepSummary(u, r, actions[|actions| - 1]);
      SummaryExtends(u, r, actions[|actions| - 1], Run(u, s, actions));
    }
  }

  lemma {:induction false} FamilyEntryReaches(u: Setup, s: Server, actions: seq<Action>, family: Id, exp: Time)
    requires Inv(s) && family.Id? && forall a :: a in actions ==> Unrelated(a)
    requires EntryReaches(s.store, RevokedFamily(family), exp) && NoOlderReplay(u, s, actions, family, exp)
    ensures EntryReaches(Run(u, s, actions).store, RevokedFamily(family), exp)
  {
    if actions != [] {
      var before := actions[..|actions| - 1];
      assert forall k :: 0 <= k <= |before| ==> actions[..k] == before[..k];
      assert before[..|before|] == before;
      FamilyEntryReaches(u, s, before, family, exp);
      InvKept(u, s, before);
      StepAndFamilies(u, Run(u, s, before), actions[|actions| - 1], family);
      assert DetectsIn(u, Run(u, s, actions[..|actions| - 1]), actions[|actions| - 1], family) ==>
          exp <= Run(u, s, actions[..|actions| - 1]).tokens[actions[|actions| - 1].rotation.token].claims.exp;
    }
  }

  /** After the replay of a token is detected, every refresh of a member of its
      family is refused until one second before that token's own expiry, unless a
      replay of an older token is detected in between. */
  lemma ReplayedFamilyIsRefused(u: Setup, s: Server, q: RefreshRequest, actions: seq<Action>, later: RefreshRequest)
    requires Inv(s) && Detects(u, s, q) && forall a :: a in actions ==> Unrelated(a)
    requires NoOlderReplay(u, RefreshGrant(u, s, q).0, actions, s.tokens[q.token].claims.family,
                           s.tokens[q.token].claims.exp)
    requires var t := Run(u, RefreshGrant(u, s, q).0, actions);
             && t.store.now + SECOND <= s.tokens[q.token].claims.exp
             && later.token < |t.tokens| && t.tokens[later.token].claims.family == s.tokens[q.token].claims.family
    ensures RefreshGrant(u, Run(u, RefreshGrant(u, s, q).0, actions), later).1.Denied?
  {
    assert TokenOk(s.tokens, q.token);
    var c := s.tokens[q.token].claims;
    var s1 := RefreshGrant(u, s, q).0;
    StepAndFamilies(u, s, Rotate(q), c.family);
    RotateKeepsInv(u, s, q);
    FamilyEntryReaches(u, s1, actions, c.family, c.exp);
    InvKept(u, s1, actions);
    PairIffChecksPass(u, Run(u, s1, actions), later);
  }

  /** The guard that decides it: a newly detected replay keeps the family refused
      for as long as before exactly when its own entry does not lapse earlier. */
  lemma ReplayKeepsCoverIff(u: Setup, s: Server, q: RefreshRequest, deadline: Time)
    requires Inv(s) && Detects(u, s, q) && s.store.Live(RevokedFamily(s.tokens[q.token].claims.family))
    requires s.store.entries[RevokedFamily(s.tokens[q.token].claims.family)].deadline == Some(deadline)
    ensures deadline <= Denylist.CoverEnd(s.store.now, s.tokens[q.token].claims.exp) <==>
            forall d: nat :: s.store.now + d < deadline ==>
              Step(u, RefreshGrant(u, s, q).0, Tick(d)).store.Live(RevokedFamily(s.tokens[q.token].claims.family))
  {
    assert TokenOk(s.tokens, q.token);
    var c := s.tokens[q.token].claims;
    var s1 := RefreshGrant(u, s, q).0;
    StepAndFamilies(u, s, Rotate(q), c.family);
    var cover := Denylist.CoverEnd(s.store.now, c.exp);
    if cover < deadline {
      assert !Step(u, s1, Tick(cover - s.store.now)).store.Live(RevokedFamily(c.family));
    }
  }

  // ---- A replay of an older token reopens the family ------------------------------------------

  const ALL_FINE := RefreshNet(Fine, Fine, Fine, Fine)

  /** A refresh in which nothing fails. */
  function Refreshes(token: nat, clientId: string, secret: string): RefreshRequest {
    RefreshRequest(true, token, clientId, secret, false, ALL_FINE, Signing(true, true))
  }

  /** Tokens i, j and k are one family: i and j have been rotated away, k is the
      current one, and i expires at least two seconds before j. */
  predicate ThreeMembers(u: Setup, s: Server, i: nat, j: nat, k: nat, id: string, secret: string) {
    && Inv(s) && |s.tokens| == k + 1
    && RefreshRefusal(u, s, Refreshes(i, id, secret)).None?
    && RefreshRefusal(u, s, Refreshes(j, id, secret)).None?
    && RefreshRefusal(u, s, Refreshes(k, id, secret)).None?
    && s.tokens[i].claims.family == s.tokens[j].claims.family == s.tokens[k].claims.family
    && s.store.Live(RevokedJti(s.tokens[i].claims.jti)) && s.store.Live(RevokedJti(s.tokens[j].claims.jti))
    && !s.store.Live(RevokedJti(s.tokens[k].claims.jti))
    && AudiencePermitted(s.directory[id], s.tokens[k].claims)
    && s.tokens[i].claims.exp + 2 * SECOND <= s.tokens[j].claims.exp
    && s.tokens[i].claims.exp + SECOND <= s.tokens[k].claims.exp
  }

  /** The server once a replay of j and then one of i have denied their family. */
  function DeniedTwice(s: Server, i: nat, j: nat): Server
    requires Unexpired(s, i) && Unexpired(s, j)
  {
    FamilyDenied(FamilyDenied(s, j), i)
  }

  /** That is what the two requests leave behind. */
  lemma ReplaysDenyTwice(u: Setup, s: Server, i: nat, j: nat, k: nat, id: string, secret: string)
    requires ThreeMembers(u, s, i, j, k, id, secret)
    ensures Unexpired(s, i) && Unexpired(s, j) && Inv(DeniedTwice(s, i, j))
    ensures var newer, older := Refreshes(j, id, secret), Refreshes(i, id, secret);
            RefreshGrant(u, RefreshGrant(u, s, newer).0, older).0 == DeniedTwice(s, i, j)
  {
    RotatedMembersDetected(u, s, i, j, k, id, secret);
    DetectedDenies(u, s, Refreshes(j, id, secret));
    StillDetected(u, s, j, Refreshes(i, id, secret));
    DetectedDenies(u, FamilyDenied(s, j), Refreshes(i, id, secret));
  }

  /** After the replays of j and then of the older i, the current token k is
      accepted again as soon as i's entry lapses, at least a second before j's
      last second begins. */
  lemma OlderReplayReopensFamily(u: Setup, s: Server, i: nat, j: nat, k: nat, id: string, secret: string)
    requires ThreeMembers(u, s, i, j, k, id, secret)
    ensures Unexpired(s, i) && Unexpired(s, j)
    ensures var wait := Denylist.CoverEnd(s.store.now, s.tokens[i].claims.exp) - s.store.now;
            && s.store.now + wait + SECOND <= s.tokens[j].claims.exp
            && RefreshGrant(u, Step(u, DeniedTwice(s, i, j), Tick(wait)), Refreshes(k, id, secret)).1.Pair?
  {
    ReplaysDenyTwice(u, s, i, j, k, id, secret);
    OlderEntryLapses(s, i, j, k);
    var wait := Denylist.CoverEnd(s.store.now, s.tokens[i].claims.exp) - s.store.now;
    UndeniedTokenIsAccepted(u, s, DeniedTwice(s, i, j), k, id, secret, wait);
  }

  /** Of the two family entries the second one counts. */
  lemma OlderEntryLapses(s: Server, i: nat, j: nat, k: nat)
    requires Unexpired(s, i) && Unexpired(s, j) && k < |s.tokens|
    requires s.tokens[i].claims.family == s.tokens[j].claims.family == s.tokens[k].claims.family
    requires s.tokens[i].claims.exp + 2 * SECOND <= s.tokens[j].claims.exp
    requires s.tokens[i].claims.exp + SECOND <= s.tokens[k].claims.exp
    requires !s.store.Live(RevokedJti(s.tokens[k].claims.jti))
    ensures var end := Denylist.CoverEnd(s.store.now, s.tokens[i].claims.exp);
            && s.store.now <= end && end + SECOND <= s.tokens[j].claims.exp && end < s.tokens[k].claims.exp
            && NotDenied(DeniedTwice(s, i, j).store.Tick(end - s.store.now), s.tokens[k].claims)
  {
    ShorterEntryLapses(s.store, s.tokens[k].claims, Denylist.TtlOf(s.tokens[j].claims.exp - s.store.now),
                       s.tokens[i].claims.exp);
  }

  lemma ShorterEntryLapses(s: Store, c: Claims, ttl: Ttl, exp: Time)
    requires s.now < exp && !s.Live(RevokedJti(c.jti))
    ensures var key, end := RevokedFamily(c.family), Denylist.CoverEnd(s.now, exp);
            var t := s.Set(key, Sentinel, ttl).Set(key, Sentinel, Denylist.TtlOf(exp - s.now));
            s.now <= end && NotDenied(t.Tick(end - s.now), c)
  {
  }

  /** A token that only the entry of its family keeps out is accepted when that
      entry has lapsed. */
  lemma UndeniedTokenIsAccepted(u: Setup, s: Server, t: Server, k: nat, id: string, secret: string, wait: nat)
    requires Inv(t) && t.tokens == s.tokens && t.directory == s.directory && t.store.now == s.store.now
    requires Inv(s) && RefreshRefusal(u, s, Refreshes(k, id, secret)).None?
    requires AudiencePermitted(s.directory[id], s.tokens[k].claims)
    requires s.store.now + wait < s.tokens[k].claims.exp && NotDenied(t.store.Tick(wait), s.tokens[k].claims)
    ensures RefreshGrant(u, Step(u, t, Tick(wait)), Refreshes(k, id, secret)).1.Pair?
  {
    assert TokenOk(s.tokens, k);
    var t1 := t.(store := t.store.Tick(wait));
    assert Inv(t1);
    PairIffChecksPass(u, t1, Refreshes(k, id, secret));
  }

  lemma RotatedMembersDetected(u: Setup, s: Server, i: nat, j: nat, k: nat, id: string, secret: string)
    requires ThreeMembers(u, s, i, j, k, id, secret)
    ensures Inv(s) && Detects(u, s, Refreshes(i, id, secret)) && Detects(u, s, Refreshes(j, id, secret))
    ensures s.tokens[i].claims.family == s.tokens[j].claims.family
  {
  }

  lemma DetectedDenies(u: Setup, s: Server, q: RefreshRequest)
    requires Inv(s) && Detects(u, s, q)
    ensures Unexpired(s, q.token) && RefreshGrant(u, s, q).0 == FamilyDenied(s, q.token)
    ensures Inv(FamilyDenied(s, q.token))
  {
    DetectionDeniesFamily(u, s, q);
    RotateKeepsInv(u, s, q);
  }

  /** A family entry does not hide the replay of another member. */
  lemma StillDetected(u: Setup, s: Server, n: nat, q: RefreshRequest)
    requires Unexpired(s, n) && Detects(u, s, q)
    ensures Detects(u, FamilyDenied(s, n), q)
  {
  }

  /** A client that may have refresh tokens, with its secret. */
  predicate Registered(u: Setup, d: Directory, id: string, secret: string) {
    id != "" && secret != "" && id in d && u.hash(secret) == d[id].secretHash && d[id].allowedAudiences == []
  }

  /** The current token of a client's family, `next` being its successor's place. */
  predicate Current(u: Setup, s: Server, n: nat, id: string, exp: Time) {
    && Inv(s) && n < |s.tokens| && s.tokens[n].kind.Refresh?
    && s.tokens[n].claims.azp == id && s.tokens[n].claims.subject == id
    && s.tokens[n].claims.audience == [SERVICE_AUDIENCE] && s.tokens[n].claims.exp == exp
    && RevokedJti(s.tokens[n].claims.jti) !in s.store.entries
    && (forall k: Key :: k.RevokedFamily? ==> k !in s.store.entries)
    && (forall k: Key :: k in s.store.entries && k.RevokedJti? ==> k.jti.Id? && k.jti.n < s.nextId)
  }

  /** A request for offline_access alone, in which nothing fails. */
  function OfflineRequest(id: string, secret: string): ClientRequest {
    ClientRequest(id, secret, Some(OFFLINE), true, Signing(true, true))
  }

  lemma FirstGrantOf(u: Setup, s: Server, id: string, secret: string)
    requires Registered(u, s.directory, id, secret)
    requires s.tokens == [] && s.nextId == 0 && s.store == Store(map[], s.store.now) && s.store.now % SECOND == 0
    requires Inv(GrantPlan(u, s, OfflineRequest(id, secret), Plan(true, "", [])).0)
    ensures var t := GrantPlan(u, s, OfflineRequest(id, secret), Plan(true, "", [])).0;
            && Current(u, t, 1, id, s.store.now + REFRESH_TTL * SECOND)
            && |t.tokens| == 2 && t.directory == s.directory && t.store == s.store
  {
    assert (s.store.now + REFRESH_TTL * SECOND) % SECOND == 0;
  }

  lemma FirstGrant(u: Setup, s: Server, id: string, secret: string)
    requires Registered(u, s.directory, id, secret)
    requires s.tokens == [] && s.nextId == 0 && s.store == Store(map[], s.store.now) && s.store.now % SECOND == 0
    ensures var t := ClientCredentials(u, s, OfflineRequest(id, secret)).0;
            && Current(u, t, 1, id, s.store.now + REFRESH_TTL * SECOND)
            && |t.tokens| == 2 && t.directory == s.directory && t.store == s.store
  {
    PlanOfOfflineAlone();
    ClientKeepsInv(u, s, OfflineRequest(id, secret));
    FirstGrantOf(u, s, id, secret);
  }

  lemma CurrentIsAccepted(u: Setup, s: Server, n: nat, id: string, secret: string, exp: Time)
    requires Current(u, s, n, id, exp) && Registered(u, s.directory, id, secret) && s.store.now < exp
    ensures RefreshGrant(u, s, Refreshes(n, id, secret)).1.Pair?
  {
    assert TokenOk(s.tokens, n);
    PairIffChecksPass(u, s, Refreshes(n, id, secret));
  }

  lemma RotatedIsCurrent(u: Setup, s: Server, t: Server, n: nat, id: string, exp: Time)
    requires Current(u, s, n, id, exp) && |s.tokens| == n + 1 && s.store.now % SECOND == 0
    requires Rotates(s, t, n, true) && Inv(t)
    ensures Current(u, t, n + 2, id, s.store.now + REFRESH_TTL * SECOND)
  {
    assert (s.store.now + REFRESH_TTL * SECOND) % SECOND == 0;
  }

  /** Rotating the current token n in a whole second of its life. */
  lemma NextRotation(u: Setup, s: Server, n: nat, id: string, secret: string, exp: Time)
    requires Current(u, s, n, id, exp) && Registered(u, s.directory, id, secret) && |s.tokens| == n + 1
    requires s.store.now < exp && s.store.now % SECOND == 0
    ensures var t := RefreshGrant(u, s, Refreshes(n, id, secret)).0;
            Rotates(s, t, n, true) && Current(u, t, n + 2, id, s.store.now + REFRESH_TTL * SECOND)
  {
    var q := Refreshes(n, id, secret);
    CurrentIsAccepted(u, s, n, id, secret, exp);
    AcceptedRefreshRotates(u, s, q);
    InvStep(u, s, Rotate(q));
    RotatedIsCurrent(u, s, RefreshGrant(u, s, q).0, n, id, exp);
  }

  lemma TickKeepsCurrent(u: Setup, s: Server, n: nat, id: string, exp: Time, d: nat)
    requires Current(u, s, n, id, exp)
    ensures Current(u, s.(store := s.store.Tick(d)), n, id, exp)
  {
  }

  ghost predicate Reachable(u: Setup, d: Directory, s: Server) {
    exists actions: seq<Action> :: (forall a :: a in actions ==> Unrelated(a)) && s == Run(u, Initial(d, 0), actions)
  }

  lemma ReachableStep(u: Setup, d: Directory, s: Server, a: Action)
    requires Reachable(u, d, s) && Unrelated(a)
    ensures Reachable(u, d, Step(u, s, a))
  {
    var actions: seq<Action> :| (forall a :: a in actions ==> Unrelated(a)) && s == Run(u, Initial(d, 0), actions);
    Runs.RunAppend(Machine(u), Initial(d, 0), actions, a);
    assert forall b :: b in actions + [a] ==> Unrelated(b);
    assert Step(u, s, a) == Run(u, Initial(d, 0), actions + [a]);
  }

  lemma ReachFirstGrant(u: Setup, d: Directory, id: string, secret: string) returns (t: Server)
    requires Registered(u, d, id, secret)
    ensures Reachable(u, d, t) && Current(u, t, 1, id, REFRESH_TTL * SECOND)
    ensures |t.tokens| == 2 && t.directory == d && t.store == Store(map[], 0)
  {
    var s, a := Initial(d, 0), Client(OfflineRequest(id, secret));
    assert s == Run(u, s, []);
    assert Reachable(u, d, s);
    ReachableStep(u, d, s, a);
    FirstGrant(u, s, id, secret);
    t := Step(u, s, a);
  }

  /** t is s after waiting a thousand seconds and rotating token n. */
  predicate Succession(s: Server, t: Server, n: nat, exp: Time) {
    && |s.tokens| == n + 1 && |t.tokens| == n + 3 && s.tokens <= t.tokens && t.directory == s.directory
    && t.tokens[n + 2].claims.family == s.tokens[n].claims.family
    && s.store.now + 1000 * SECOND < exp
    && t.store == s.store.Tick(1000 * SECOND).Set(RevokedJti(s.tokens[n].claims.jti), Sentinel,
                                                  Denylist.TtlOf(exp - s.store.now - 1000 * SECOND))
  }

  lemma ReachRotation(u: Setup, d: Directory, s: Server, n: nat, id: string, secret: string, exp: Time)
    returns (t: Server)
    requires Reachable(u, d, s) && Current(u, s, n, id, exp) && Registered(u, s.directory, id, secret)
    requires |s.tokens| == n + 1 && s.store.now + 1000 * SECOND < exp && s.store.now % SECOND == 0
    ensures Reachable(u, d, t) && Succession(s, t, n, exp)
    ensures Current(u, t, n + 2, id, s.store.now + 1000 * SECOND + REFRESH_TTL * SECOND)
  {
    var s1, q := s.(store := s.store.Tick(1000 * SECOND)), Refreshes(n, id, secret);
    TickKeepsCurrent(u, s, n, id, exp, 1000 * SECOND);
    NextRotation(u, s1, n, id, secret, exp);
    t := RefreshGrant(u, s1, q).0;
    RotatedSuccession(s, s1, t, n, exp);
    ReachableStep(u, d, s, Tick(1000 * SECOND));
    ReachableStep(u, d, s1, Rotate(q));
  }

  lemma RotatedSuccession(s: Server, s1: Server, t: Server, n: nat, exp: Time)
    requires |s.tokens| == n + 1 && s.tokens[n].claims.exp == exp && s.store.now + 1000 * SECOND < exp
    requires s1 == s.(store := s.store.Tick(1000 * SECOND)) && Rotates(s1, t, n, true)
    ensures Succession(s, t, n, exp)
  {
  }

  /** The situation does arise: a client that asks for offline_access and rotates
      twice, a thousand seconds apart, holds three such tokens.  So a family that
      was refused on account of one replay can be reopened by another. */
  lemma ThreeMembersReachable(u: Setup, d: Directory, id: string, secret: string)
    requires Registered(u, d, id, secret)
    ensures exists s: Server :: Reachable(u, d, s) && ThreeMembers(u, s, 1, 3, 5, id, secret)
  {
    var s1 := ReachFirstGrant(u, d, id, secret);
    var s3 := ReachTwoRotations(u, d, s1, id, secret);
  }

  lemma ReachTwoRotations(u: Setup, d: Directory, s1: Server, id: string, secret: string) returns (s3: Server)
    requires Registered(u, d, id, secret) && Reachable(u, d, s1) && Current(u, s1, 1, id, REFRESH_TTL * SECOND)
    requires |s1.tokens| == 2 && s1.directory == d && s1.store == Store(map[], 0)
    ensures Reachable(u, d, s3) && ThreeMembers(u, s3, 1, 3, 5, id, secret)
  {
    var s2 := ReachRotation(u, d, s1, 1, id, secret, REFRESH_TTL * SECOND);
    s3 := ReachRotation(u, d, s2, 3, id, secret, 1000 * SECOND + REFRESH_TTL * SECOND);
    ThreeMembersHere(u, s1, s2, s3, id, secret);
  }

  lemma ThreeMembersHere(u: Setup, s1: Server, s2: Server, s3: Server, id: string, secret: string)
    requires Registered(u, s3.directory, id, secret) && s1.store == Store(map[], 0)
    requires Current(u, s1, 1, id, REFRESH_TTL * SECOND) && Current(u, s2, 3, id, 1000 * SECOND + REFRESH_TTL * SECOND)
    requires Current(u, s3, 5, id, 2000 * SECOND + REFRESH_TTL * SECOND)
    requires Succession(s1, s2, 1, REFRESH_TTL * SECOND) && Succession(s2, s3, 3, 1000 * SECOND + REFRESH_TTL * SECOND)
    ensures ThreeMembers(u, s3, 1, 3, 5, id, secret)
  {
    assert s3.tokens[1] == s1.tokens[1] && s3.tokens[3] == s2.tokens[3];
    assert TokenOk(s3.tokens, 1) && TokenOk(s3.tokens, 3) && TokenOk(s3.tokens, 5);
  }

  // ---- Introspection after a revocation ---------------------------------------------------------

  lemma {:induction false} DenyEntryKept(u: Setup, s: Server, actions: seq<Action>, i: nat)
    requires Inv(s) && i < |s.tokens| && forall a :: a in actions ==> Unrelated(a)
    requires TokenDenied(s, i)
    ensures Extends(s, Run(u, s, actions)) && TokenDenied(Run(u, s, actions), i)
  {
    InvKept(u, s, actions);
    if actions != [] {
      var before := actions[..|actions| - 1];
      DenyEntryKept(u, s, before, i);
      InvKept(u, s, before);
      var r, a := Run(u, s, before), actions[|actions| - 1];
      StepSummary(u, r, a);
      DeniedStaysDenied(u, r, a, Step(u, r, a), i);
    }
  }

  /** After a stored revocation, introspection answers active only strictly inside
      the token's last second, whatever happens in between. */
  lemma RevokedStaysInactive(u: Setup, s: Server, q: RevokeRequest, actions: seq<Action>)
    requires Inv(s) && Revoke(u, s, q).1.RevokeStored? && forall a :: a in actions ==> Unrelated(a)
    requires Active(Run(u, Revoke(u, s, q).0, actions), q.token, Fine)
    ensures var t, exp := Run(u, Revoke(u, s, q).0, actions), s.tokens[q.token].claims.exp;
            t.store.now < exp < t.store.now + SECOND
  {
    var s1 := Revoke(u, s, q).0;
    InvStep(u, s, Revokes(q));
    DenyEntryKept(u, s1, actions, q.token);
    assert Run(u, s1, actions).tokens[q.token] == s.tokens[q.token];
  }

  /** The entry outlives the token. */
  predicate EntryOutlives(s: Store, key: Key, exp: Time) {
    key in s.entries && (s.entries[key].deadline.Some? ==> exp <= s.entries[key].deadline.value)
  }

  lemma OutlivingEntryKept(u: Setup, s: Server, a: Action, t: Server, i: nat)
    requires IdsOk(s) && Summary(u, s, a, t) && i < |s.tokens| && s.tokens[i].claims.exp < s.store.now + SECOND
    requires EntryOutlives(s.store, RevokedJti(s.tokens[i].claims.jti), s.tokens[i].claims.exp)
    ensures EntryOutlives(t.store, RevokedJti(s.tokens[i].claims.jti), s.tokens[i].claims.exp)
  {
    var n := if a.Rotate? then a.rotation.token else if a.Revokes? then a.revocation.token else i;
    if n < |s.tokens| && s.tokens[n].claims.jti == s.tokens[i].claims.jti {
      assert n == i;
    }
  }

  lemma {:induction false} FullDenyKept(u: Setup, s: Server, actions: seq<Action>, i: nat)
    requires Inv(s) && i < |s.tokens| && forall a :: a in actions ==> Unrelated(a)
    requires s.tokens[i].claims.exp < s.store.now + SECOND
    requires EntryOutlives(s.store, RevokedJti(s.tokens[i].claims.jti), s.tokens[i].claims.exp)
    ensures EntryOutlives(Run(u, s, actions).store, RevokedJti(s.tokens[i].claims.jti), s.tokens[i].claims.exp)
  {
    if actions != [] {
      var before := actions[..|actions| - 1];
      FullDenyKept(u, s, before, i);
      InvKept(u, s, before);
      var r, a := Run(u, s, before), actions[|actions| - 1];
      StepSummary(u, r, a);
      assert r.tokens[i] == s.tokens[i];
      OutlivingEntryKept(u, r, a, Step(u, r, a), i);
    }
  }

  /** A token revoked with less than a second to live is never active again. */
  lemma RevokedLateIsNeverActive(u: Setup, s: Server, q: RevokeRequest, actions: seq<Action>)
    requires Inv(s) && Revoke(u, s, q).1.RevokeStored? && forall a :: a in actions ==> Unrelated(a)
    requires s.tokens[q.token].claims.exp < s.store.now + SECOND
    ensures !Active(Run(u, Revoke(u, s, q).0, actions), q.token, Fine)
  {
    var s1 := Revoke(u, s, q).0;
    InvStep(u, s, Revokes(q));
    FullDenyKept(u, s1, actions, q.token);
    InvKept(u, s1, actions);
    assert Run(u, s1, actions).tokens[q.token] == s.tokens[q.token];
  }
}
