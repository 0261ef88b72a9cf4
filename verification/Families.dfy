// Over whole runs of the token service the refresh tokens of one family form a
// chain: rotation leaves at most one of them in use.

module Families {
  import opened TtlStore
  import opened Clients
  import opened AuthServer
  import opened TokenHistory
  import opened Sessions
  import opened Steps
  import Denylist

  /** The entry lasts into the last second before `exp`. */
  predicate EntryReaches(s: Store, key: Key, exp: Time) {
    key in s.entries && (s.entries[key].deadline.Some? ==> exp < s.entries[key].deadline.value + SECOND)
  }

  predicate TokenDenied(s: Server, i: nat)
    requires i < |s.tokens|
  {
    EntryReaches(s.store, RevokedJti(s.tokens[i].claims.jti), s.tokens[i].claims.exp)
  }

  predicate SameFamily(s: Server, i: nat, j: nat) {
    && i < |s.tokens| && j < |s.tokens| && s.tokens[i].kind.Refresh? && s.tokens[j].kind.Refresh?
    && s.tokens[i].claims.family == s.tokens[j].claims.family
  }

  /** Of two members of a family the older one is on the denylist. */
  predicate ChainInv(s: Server) {
    forall i, j :: 0 <= i < j < |s.tokens| && SameFamily(s, i, j) ==> TokenDenied(s, i)
  }

  /** The denylist write reaches the store, and no refresh token is presented in
      its last second. */
  predicate Careful(s: Server, a: Action) {
    a.Rotate? ==>
      && !a.rotation.net.storeJti.Refused?
      && (Parse(s, a.rotation.token).Some? ==> s.store.now + SECOND <= s.tokens[a.rotation.token].claims.exp)
  }

  ghost predicate CarefulRun(u: Setup, s: Server, actions: seq<Action>) {
    forall k :: 0 <= k < |actions| ==> Careful(Run(u, s, actions[..k]), actions[k])
  }

  /** A member that can still be refreshed with a second or more to live is the
      youngest of its family. */
  lemma RefreshableIsYoungest(s: Server, i: nat, j: nat)
    requires ChainInv(s) && SameFamily(s, i, j)
    requires s.store.now + SECOND <= s.tokens[i].claims.exp && NotDenied(s.store, s.tokens[i].claims)
    ensures j <= i
  {
  }

  /** A write for token n leaves every entry that reaches so far reaching. */
  lemma DenyKeepsDenied(s: Server, t: Server, n: nat, i: nat)
    requires IdsOk(s) && n < |s.tokens| && s.store.now < s.tokens[n].claims.exp && s.tokens[n].claims.jti.Id?
    requires s.tokens <= t.tokens && i < |s.tokens|
    requires t.store == s.store.Set(RevokedJti(s.tokens[n].claims.jti), Sentinel,
                                    Denylist.TtlOf(s.tokens[n].claims.exp - s.store.now))
    requires i == n || TokenDenied(s, i)
    ensures TokenDenied(t, i)
  {
    var _ := Denylist.CoverEnd(s.store.now, s.tokens[n].claims.exp);
    if s.tokens[n].claims.jti == s.tokens[i].claims.jti {
      assert i == n;
    }
  }

  /** No step takes a token off the denylist early. */
  lemma DeniedStaysDenied(u: Setup, s: Server, a: Action, t: Server, i: nat)
    requires IdsOk(s) && Summary(u, s, a, t) && i < |s.tokens| && TokenDenied(s, i)
    ensures i < |t.tokens| && TokenDenied(t, i)
  {
    if a.Rotate? && Rotates(s, t, a.rotation.token, true) {
      DenyKeepsDenied(s, t, a.rotation.token, i);
    } else if a.Revokes? && Denies(s, t, a.revocation.token) {
      DenyKeepsDenied(s, t, a.revocation.token, i);
    }
  }

  /** The rotated token is denied, and so was every older member. */
  lemma RotationKeepsChain(s: Server, t: Server, n: nat)
    requires IdsOk(s) && ChainInv(s) && Rotates(s, t, n, true)
    requires s.store.now + SECOND <= s.tokens[n].claims.exp
    ensures ChainInv(t)
  {
    forall i, j | 0 <= i < j < |t.tokens| && SameFamily(t, i, j) ensures TokenDenied(t, i) {
      if i < |s.tokens| {
        if j < |s.tokens| {
          assert SameFamily(s, i, j);
        } else if i < n {
          assert SameFamily(s, i, n);
        } else if n < i {
          assert SameFamily(s, n, i);
          RefreshableIsYoungest(s, n, i);
        }
        DenyKeepsDenied(s, t, n, i);
      }
    }
  }

  /** A refresh token signed by any other step starts a family of its own. */
  lemma IssuedFamiliesAreNew(s: Server, t: Server, i: nat, j: nat)
    requires IdsOk(s) && Issues(s, t) && i < j && SameFamily(t, i, j)
    ensures j < |s.tokens|
  {
  }

  lemma OtherStepsKeepChain(u: Setup, s: Server, a: Action, t: Server)
    requires IdsOk(s) && ChainInv(s) && Summary(u, s, a, t)
    requires t.tokens == s.tokens || Issues(s, t)
    ensures ChainInv(t)
  {
    forall i, j | 0 <= i < j < |t.tokens| && SameFamily(t, i, j) ensures TokenDenied(t, i) {
      if t.tokens != s.tokens {
        IssuedFamiliesAreNew(s, t, i, j);
      }
      assert SameFamily(s, i, j);
      DeniedStaysDenied(u, s, a, t, i);
    }
  }

  lemma ChainInvStep(u: Setup, s: Server, a: Action)
    requires Inv(s) && ChainInv(s) && Careful(s, a) && Unrelated(a)
    ensures ChainInv(Step(u, s, a))
  {
    var t := Step(u, s, a);
    StepSummary(u, s, a);
    if a.Rotate? && Rotates(s, t, a.rotation.token, true) {
      RotationKeepsChain(s, t, a.rotation.token);
    } else {
      OtherStepsKeepChain(u, s, a, t);
    }
  }

  lemma {:induction false} ChainInvRun(u: Setup, d: Directory, now: Time, actions: seq<Action>)
    requires CarefulRun(u, Initial(d, now), actions) && forall a :: a in actions ==> Unrelated(a)
    ensures ChainInv(Run(u, Initial(d, now), actions))
  {
    if actions != [] {
      var before := actions[..|actions| - 1];
      assert forall k :: 0 <= k <= |before| ==> actions[..k] == before[..k];
      assert before[..|before|] == before;
      ChainInvRun(u, d, now, before);
      InvRun(u, d, now, before);
      assert Careful(Run(u, Initial(d, now), actions[..|actions| - 1]), actions[|actions| - 1]);
      ChainInvStep(u, Run(u, Initial(d, now), before), actions[|actions| - 1]);
    }
  }

  /** At any time at most one member of a family with a second or more to live
      is not denied, and it is the one signed last. */
  lemma FamilyIsAChain(u: Setup, d: Directory, now: Time, actions: seq<Action>, i: nat, j: nat)
    requires CarefulRun(u, Initial(d, now), actions) && forall a :: a in actions ==> Unrelated(a)
    requires var s := Run(u, Initial(d, now), actions);
             && SameFamily(s, i, j)
             && s.store.now + SECOND <= s.tokens[i].claims.exp && NotDenied(s.store, s.tokens[i].claims)
    ensures j <= i
  {
    ChainInvRun(u, d, now, actions);
    RefreshableIsYoungest(Run(u, Initial(d, now), actions), i, j);
  }

  // ---- Why the last second matters -----------------------------------------------------------

  /** After a rotation of n, and a wait, n is off the denylist again exactly in the
      fraction of a second that the denylist TTL cut off. */
  lemma DeniedAfterRotation(s: Server, t: Server, n: nat, d: nat)
    requires Rotates(s, t, n, true) && s.store.now + d < s.tokens[n].claims.exp
    ensures var c := s.tokens[n].claims;
            NotDenied(t.store.Tick(d), c) <==>
            && !s.store.Tick(d).Live(RevokedFamily(c.family))
            && SECOND <= c.exp - s.store.now && c.exp - (s.store.now + d) <= (c.exp - s.store.now) % SECOND
  {
    var c := s.tokens[n].claims;
    Denylist.DeniedUntil(s.store, c.jti, s.store.now, c.exp, s.store.now + d);
  }

  /** A token that was just rotated is accepted a second time exactly in the
      fraction of a second that the denylist TTL cut off. */
  lemma RotatedAgainIff(u: Setup, s: Server, q: RefreshRequest, d: nat)
    requires Inv(s) && RefreshGrant(u, s, q).1.Pair? && !q.net.storeJti.Refused?
    ensures var t := Step(u, RefreshGrant(u, s, q).0, Tick(d));
            var exp := s.tokens[q.token].claims.exp;
            RefreshGrant(u, t, q).1.Pair? <==>
            t.store.now < exp && SECOND <= exp - s.store.now && exp - t.store.now <= (exp - s.store.now) % SECOND
  {
    var s1 := RefreshGrant(u, s, q).0;
    AcceptedRefreshRotates(u, s, q);
    PairIffChecksPass(u, s, q);
    InvStep(u, s, Rotate(q));
    AcceptedAgain(u, s, s1, q, d);
  }

  lemma AcceptedAgain(u: Setup, s: Server, s1: Server, q: RefreshRequest, d: nat)
    requires Inv(s1) && Rotates(s, s1, q.token, true) && RefreshGrant(u, s, q).1.Pair? && Inv(s)
    ensures var t := s1.(store := s1.store.Tick(d));
            var exp := s.tokens[q.token].claims.exp;
            RefreshGrant(u, t, q).1.Pair? <==>
            t.store.now < exp && SECOND <= exp - s.store.now && exp - t.store.now <= (exp - s.store.now) % SECOND
  {
    var t := s1.(store := s1.store.Tick(d));
    assert Inv(t);
    PairIffChecksPass(u, s, q);
    PairIffChecksPass(u, t, q);
    assert t.tokens[q.token] == s.tokens[q.token];
    if s.store.now + d < s.tokens[q.token].claims.exp {
      DeniedAfterRotation(s, s1, q.token, d);
      assert !s.store.Live(RevokedFamily(s.tokens[q.token].claims.family));
    }
  }
}
