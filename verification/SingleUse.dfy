// One-time payloads guarded by a claim marker: every call does Get(payload),
// a check, SetNX(claim), Delete(payload).  Any number of calls are in flight
// and each store operation is a step of its own.

module SingleUse {
  import opened Wrappers
  import opened TtlStore
  import Runs

  /** `strict` calls fail when their Delete does (OTP); the others go on (passkeys).
      A call takes no step once `limit` has passed since its Get. */
  datatype Protocol = Protocol(payload: Key, claim: Key, claimTtl: Ttl, limit: Time, strict: bool)

  /** `Orphaned` calls set the marker and failed: the reply or the deletion was lost. */
  datatype Call =
    | Fetched(start: Time)
    | Claimed(start: Time, at: Time)
    | Passed(start: Time, at: Time)
    | Orphaned(start: Time, at: Time)
    | Stopped

  datatype State = State(store: Store, calls: map<nat, Call>)

  /** `check` is the value the stored payload must equal; None leaves the check to the caller. */
  datatype Action =
    | Tick(d: nat)
    | Fetch(id: nat, check: Option<Value>)
    | Claim(id: nat, net: Net)
    | Remove(id: nat, net: Net)
    | Other(op: Op)

  predicate InTime(p: Protocol, s: State, start: Time) {
    s.store.now < start + p.limit
  }

  function DoFetch(p: Protocol, s: State, id: nat, check: Option<Value>): State {
    var got := s.store.Get(p.payload);
    if id !in s.calls && got.Some? && (check.Some? ==> got.value == check.value) then
      s.(calls := s.calls[id := Fetched(s.store.now)])
    else s
  }

  function DoClaim(p: Protocol, s: State, id: nat, net: Net): State {
    if id in s.calls && s.calls[id].Fetched? && InTime(p, s, s.calls[id].start) then
      var start, now := s.calls[id].start, s.store.now;
      State(if net.Refused? then s.store else s.store.SetNX(p.claim, Sentinel, p.claimTtl),
            s.calls[id := if net.Refused? || s.store.Live(p.claim) then Stopped
                          else if net.Fine? then Claimed(start, now) else Orphaned(start, now)])
    else s
  }

  function DoRemove(p: Protocol, s: State, id: nat, net: Net): State {
    if id in s.calls && s.calls[id].Claimed? && InTime(p, s, s.calls[id].start) then
      var start, at := s.calls[id].start, s.calls[id].at;
      State(if net.Refused? then s.store else s.store.Delete(p.payload),
            s.calls[id := if net.Fine? || !p.strict then Passed(start, at) else Orphaned(start, at)])
    else s
  }

  /** A step that is not enabled leaves the state alone. */
  function Step(p: Protocol, s: State, a: Action): State {
    match a
    case Tick(d) => s.(store := s.store.Tick(d))
    case Fetch(id, check) => DoFetch(p, s, id, check)
    case Claim(id, net) => DoClaim(p, s, id, net)
    case Remove(id, net) => DoRemove(p, s, id, net)
    case Other(op) => s.(store := Apply(s.store, op))
  }

  function Machine(p: Protocol): (State, Action) -> State {
    (s, a) => Step(p, s, a)
  }

  function Run(p: Protocol, s: State, actions: seq<Action>): State {
    Runs.Run(Machine(p), s, actions)
  }

  /** Nobody else touches the two keys. */
  predicate Quiet(p: Protocol, a: Action) {
    a.Other? ==> a.op.key != p.payload && a.op.key != p.claim
  }

  /** What others do to the marker: set it as these calls do, if it is absent. */
  predicate KeepsClaim(p: Protocol, a: Action) {
    a.Other? && a.op.key == p.claim ==> a.op.OpSetNX? && p.claimTtl <= a.op.ttl
  }

  /** Others may also replace or delete the payload, but never store `v` again, and
      all calls here ask for `v`.  None stands for a payload that nobody touches. */
  predicate Spares(p: Protocol, v: Option<Value>, a: Action) {
    && KeepsClaim(p, a)
    && (a.Other? && a.op.key == p.payload ==> v.Some? && (a.op.OpDelete? || (a.op.OpSet? && a.op.value != v.value)))
    && (a.Fetch? && v.Some? ==> a.check == v)
  }

  /** A lenient protocol whose Deletes all reach the store. */
  predicate Deletes(p: Protocol, a: Action) {
    a.Remove? && !p.strict ==> !a.net.Refused?
  }

  predicate Holds(c: Call) {
    c.Claimed? || c.Passed? || c.Orphaned?
  }

  // ---- Claims exclude each other for the whole claim TTL ------------------

  predicate ClaimInv(p: Protocol, s: State, from: Time) {
    && from <= s.store.now
    && (forall id :: id in s.calls && s.calls[id].Fetched? ==> from <= s.calls[id].start <= s.store.now)
    && (forall id :: id in s.calls && Holds(s.calls[id]) ==> Covered(p, s, s.calls[id], from))
    && (forall i, j :: i in s.calls && j in s.calls && i != j && Holds(s.calls[i]) && Holds(s.calls[j]) ==>
          Apart(p, s.calls[i], s.calls[j]))
  }

  /** The claim marker outlives every claim made with it by the claim TTL. */
  predicate Covered(p: Protocol, s: State, c: Call, from: Time)
    requires Holds(c)
  {
    && from <= c.start <= c.at <= s.store.now
    && c.at < c.start + p.limit
    && p.claim in s.store.entries
    && (s.store.entries[p.claim].deadline.Some? ==>
          c.at + p.claimTtl * SECOND <= s.store.entries[p.claim].deadline.value)
  }

  predicate Apart(p: Protocol, c: Call, d: Call)
    requires Holds(c) && Holds(d)
  {
    c.at + p.claimTtl * SECOND <= d.at || d.at + p.claimTtl * SECOND <= c.at
  }

  lemma ClaimKeepsClaimInv(p: Protocol, s: State, id: nat, net: Net, from: Time)
    requires ClaimInv(p, s, from)
    ensures ClaimInv(p, DoClaim(p, s, id, net), from)
  {
    var t := DoClaim(p, s, id, net);
    forall i | i in t.calls && Holds(t.calls[i]) ensures Covered(p, t, t.calls[i], from) {
      if i != id {
        assert Covered(p, s, s.calls[i], from);
      }
    }
    forall i, j | i in t.calls && j in t.calls && i != j && Holds(t.calls[i]) && Holds(t.calls[j])
      ensures Apart(p, t.calls[i], t.calls[j])
    {
      if i != id && j != id {
        assert Apart(p, s.calls[i], s.calls[j]);
      } else {
        var other := if i == id then j else i;
        assert Covered(p, s, s.calls[other], from);
      }
    }
  }

  predicate Later(a: Option<Time>, b: Option<Time>) {
    b.None? || (a.Some? && a.value <= b.value)
  }

  /** A step that adds no claim and does not shorten the marker keeps the invariant. */
  lemma ClaimInvFrame(p: Protocol, s: State, t: State, from: Time)
    requires ClaimInv(p, s, from) && s.store.now <= t.store.now
    requires p.claim in s.store.entries ==>
               && p.claim in t.store.entries
               && Later(s.store.entries[p.claim].deadline, t.store.entries[p.claim].deadline)
    requires forall i :: i in t.calls && t.calls[i].Fetched? ==> from <= t.calls[i].start <= t.store.now
    requires forall i :: i in t.calls && Holds(t.calls[i]) ==>
               && i in s.calls && Holds(s.calls[i])
               && t.calls[i].start == s.calls[i].start && t.calls[i].at == s.calls[i].at
    ensures ClaimInv(p, t, from)
  {
    forall i | i in t.calls && Holds(t.calls[i]) ensures Covered(p, t, t.calls[i], from) {
      assert Covered(p, s, s.calls[i], from);
    }
    forall i, j | i in t.calls && j in t.calls && i != j && Holds(t.calls[i]) && Holds(t.calls[j])
      ensures Apart(p, t.calls[i], t.calls[j])
    {
      assert Apart(p, s.calls[i], s.calls[j]);
    }
  }

  lemma ClaimInvStep(p: Protocol, s: State, a: Action, from: Time)
    requires p.payload != p.claim && KeepsClaim(p, a) && ClaimInv(p, s, from)
    ensures ClaimInv(p, Step(p, s, a), from)
  {
    if a.Claim? {
      ClaimKeepsClaimInv(p, s, a.id, a.net, from);
    } else {
      ClaimInvFrame(p, s, Step(p, s, a), from);
    }
  }

  lemma {:induction false} ClaimInvRun(p: Protocol, s: State, actions: seq<Action>)
    requires p.payload != p.claim && s.calls == map[]
    requires forall a :: a in actions ==> KeepsClaim(p, a)
    ensures ClaimInv(p, Run(p, s, actions), s.store.now)
  {
    if actions != [] {
      ClaimInvRun(p, s, actions[..|actions| - 1]);
      ClaimInvStep(p, Run(p, s, actions[..|actions| - 1]), actions[|actions| - 1], s.store.now);
    }
  }

  /** Two calls that both set the marker did so at least the claim TTL apart,
      however long calls take and whatever fails. */
  lemma ClaimsApart(p: Protocol, s: State, actions: seq<Action>, i: nat, j: nat)
    requires p.payload != p.claim && s.calls == map[] && i != j
    requires forall a :: a in actions ==> KeepsClaim(p, a)
    requires i in Run(p, s, actions).calls && Holds(Run(p, s, actions).calls[i])
    requires j in Run(p, s, actions).calls && Holds(Run(p, s, actions).calls[j])
    ensures Apart(p, Run(p, s, actions).calls[i], Run(p, s, actions).calls[j])
  {
    ClaimInvRun(p, s, actions);
  }

  /** If the claim lives at least as long as the payload, at most one call
      wins the claim while the payload's own lifetime lasts. */
  lemma OneClaimPerLifetime(p: Protocol, s: State, actions: seq<Action>, payloadEnd: Time, i: nat, j: nat)
    requires p.payload != p.claim && s.calls == map[]
    requires payloadEnd <= s.store.now + p.claimTtl * SECOND
    requires forall a :: a in actions ==> KeepsClaim(p, a)
    requires i in Run(p, s, actions).calls && Holds(Run(p, s, actions).calls[i])
    requires j in Run(p, s, actions).calls && Holds(Run(p, s, actions).calls[j])
    requires Run(p, s, actions).calls[i].at < payloadEnd && Run(p, s, actions).calls[j].at < payloadEnd
    ensures i == j
  {
    ClaimInvRun(p, s, actions);
  }

  // ---- At most one success -------------------------------------------------

  /** The payload is gone, or is another one. */
  predicate Gone(p: Protocol, v: Option<Value>, s: Store) {
    p.payload !in s.entries || (v.Some? && s.entries[p.payload].value != v.value)
  }

  predicate SuccessInv(p: Protocol, v: Option<Value>, s: State) {
    forall i :: i in s.calls && s.calls[i].Passed? ==>
      && Gone(p, v, s.store)
      && forall j :: j in s.calls && !s.calls[j].Stopped? ==> s.calls[j].start < s.calls[i].start + p.limit
  }

  lemma SuccessInvStep(p: Protocol, v: Option<Value>, s: State, a: Action, from: Time)
    requires p.payload != p.claim && Spares(p, v, a) && Deletes(p, a)
    requires ClaimInv(p, s, from) && SuccessInv(p, v, s)
    ensures SuccessInv(p, v, Step(p, s, a))
  {
    if a.Remove? {
      RemoveKeepsSuccess(p, v, s, a.id, a.net, from);
    }
  }

  lemma RemoveKeepsSuccess(p: Protocol, v: Option<Value>, s: State, id: nat, net: Net, from: Time)
    requires ClaimInv(p, s, from) && SuccessInv(p, v, s) && Deletes(p, Remove(id, net))
    ensures SuccessInv(p, v, DoRemove(p, s, id, net))
  {
    forall j | j in s.calls && !s.calls[j].Stopped? ensures s.calls[j].start <= s.store.now {
      if Holds(s.calls[j]) {
        assert Covered(p, s, s.calls[j], from);
      }
    }
  }

  lemma {:induction false} SuccessInvRun(p: Protocol, v: Option<Value>, s: State, actions: seq<Action>)
    requires p.payload != p.claim && s.calls == map[]
    requires forall a :: a in actions ==> Spares(p, v, a) && Deletes(p, a)
    ensures SuccessInv(p, v, Run(p, s, actions))
  {
    if actions != [] {
      var before := actions[..|actions| - 1];
      SuccessInvRun(p, v, s, before);
      ClaimInvRun(p, s, before);
      SuccessInvStep(p, v, Run(p, s, before), actions[|actions| - 1], s.store.now);
    }
  }

  ghost predicate AtMostOneSuccess(s: State) {
    forall i, j :: i in s.calls && j in s.calls && s.calls[i].Passed? && s.calls[j].Passed? ==> i == j
  }

  lemma SuccessesCoincide(p: Protocol, v: Option<Value>, s: State, i: nat, j: nat, from: Time)
    requires ClaimInv(p, s, from) && SuccessInv(p, v, s) && 2 * p.limit <= p.claimTtl * SECOND
    requires i in s.calls && j in s.calls && s.calls[i].Passed? && s.calls[j].Passed?
    ensures i == j
  {
    assert Covered(p, s, s.calls[i], from) && Covered(p, s, s.calls[j], from);
    assert s.calls[i].start < s.calls[j].start + p.limit && s.calls[j].start < s.calls[i].start + p.limit;
    assert !Apart(p, s.calls[i], s.calls[j]);
  }

  /** In every interleaving at most one call succeeds with one payload, as long as a
      call takes less than half the claim TTL, whatever other payloads come and go. */
  lemma AtMostOnePerPayload(p: Protocol, v: Option<Value>, s: State, actions: seq<Action>)
    requires p.payload != p.claim && s.calls == map[] && 2 * p.limit <= p.claimTtl * SECOND
    requires forall a :: a in actions ==> Spares(p, v, a) && Deletes(p, a)
    ensures AtMostOneSuccess(Run(p, s, actions))
  {
    ClaimInvRun(p, s, actions);
    SuccessInvRun(p, v, s, actions);
    var t := Run(p, s, actions);
    forall i, j | i in t.calls && j in t.calls && t.calls[i].Passed? && t.calls[j].Passed?
      ensures i == j
    {
      SuccessesCoincide(p, v, t, i, j, s.store.now);
    }
  }

  /** In every interleaving in which nobody else touches the two keys at most one
      call succeeds, as long as a call takes less than half the claim TTL. */
  lemma AtMostOne(p: Protocol, s: State, actions: seq<Action>)
    requires p.payload != p.claim && s.calls == map[] && 2 * p.limit <= p.claimTtl * SECOND
    requires forall a :: a in actions ==> Quiet(p, a) && Deletes(p, a)
    ensures AtMostOneSuccess(Run(p, s, actions))
  {
    AtMostOnePerPayload(p, None, s, actions);
  }

  // ---- The time limit is exact ---------------------------------------------

  /** A fresh payload that lives as long as the claim would, and no claim yet. */
  function Fresh(p: Protocol, v: Value, now: Time): State {
    State(Store(map[], now).Set(p.payload, v, p.claimTtl), map[])
  }

  /** Call 0 claims at once and deletes at time g; call 1 reads just before
      that delete and claims once the marker has expired. */
  function SlowCalls(p: Protocol, v: Value, g: nat): seq<Action>
    requires g <= p.claimTtl * SECOND
  {
    [Fetch(0, Some(v)), Claim(0, Fine), Tick(g), Fetch(1, Some(v)), Remove(0, Fine),
     Tick(p.claimTtl * SECOND - g), Claim(1, Fine), Remove(1, Fine)]
  }

  // ---- A call on its own -----------------------------------------------------

  /** What one call does if nothing runs in between: the store, and whether it passes. */
  function Alone(p: Protocol, s: Store, check: Option<Value>, claim: Net, delete: Net): (Store, bool) {
    var got := s.Get(p.payload);
    if got.None? || (check.Some? && got.value != check.value) then (s, false)
    else
      var s1 := if claim.Refused? then s else s.SetNX(p.claim, Sentinel, p.claimTtl);
      if !claim.Fine? || s.Live(p.claim) then (s1, false)
      else (if delete.Refused? then s1 else s1.Delete(p.payload), delete.Fine? || !p.strict)
  }

  lemma StepsOfOneCall(p: Protocol, s: Store, check: Option<Value>, claim: Net, delete: Net)
    requires 0 < p.limit
    ensures var t := Step(p, Step(p, Step(p, State(s, map[]), Fetch(0, check)), Claim(0, claim)), Remove(0, delete));
            && t.store == Alone(p, s, check, claim, delete).0
            && (0 in t.calls && t.calls[0].Passed? <==> Alone(p, s, check, claim, delete).1)
  {
    var s0 := State(s, map[]);
    var s1 := Step(p, s0, Fetch(0, check));
    var got := s.Get(p.payload);
    if got.None? || (check.Some? && got.value != check.value) {
      assert s1 == s0;
    } else {
      assert s1.store == s && s1.calls[0] == Fetched(s.now);
      ClaimAndRemove(p, s1, claim, delete);
    }
  }

  lemma ClaimAndRemove(p: Protocol, s: State, claim: Net, delete: Net)
    requires 0 < p.limit && 0 in s.calls && s.calls[0] == Fetched(s.store.now)
    ensures var t := Step(p, Step(p, s, Claim(0, claim)), Remove(0, delete));
            var s1 := if claim.Refused? then s.store else s.store.SetNX(p.claim, Sentinel, p.claimTtl);
            0 in t.calls &&
            if !claim.Fine? || s.store.Live(p.claim) then t.store == s1 && !t.calls[0].Passed?
            else
              && t.store == (if delete.Refused? then s1 else s1.Delete(p.payload))
              && (t.calls[0].Passed? <==> delete.Fine? || !p.strict)
  {
    var t := Step(p, s, Claim(0, claim));
    if !claim.Fine? || s.store.Live(p.claim) {
      assert t.calls[0].Stopped? || t.calls[0].Orphaned?;
    } else {
      assert t.calls[0] == Claimed(s.store.now, s.store.now) && t.store.now == s.store.now;
    }
  }

  lemma SlowCallsStart(p: Protocol, v: Value, now: Time, g: nat)
    requires p.payload != p.claim && g < p.claimTtl * SECOND && 0 < p.limit
    ensures var s := Run(p, Fresh(p, v, now), [Fetch(0, Some(v)), Claim(0, Fine), Tick(g), Fetch(1, Some(v))]);
            && s.store.now == now + g
            && s.calls == map[0 := Claimed(now, now), 1 := Fetched(now + g)]
            && p.claim in s.store.entries
            && s.store.entries[p.claim] == Entry(Sentinel, Some(now + p.claimTtl * SECOND))
  {
    var s0 := Fresh(p, v, now);
    Runs.Run4(Machine(p), s0, Fetch(0, Some(v)), Claim(0, Fine), Tick(g), Fetch(1, Some(v)));
    var s1 := Step(p, s0, Fetch(0, Some(v)));
    assert s1 == State(s0.store, map[0 := Fetched(now)]);
    var s2 := Step(p, s1, Claim(0, Fine));
    assert s2 == State(s0.store.Set(p.claim, Sentinel, p.claimTtl), map[0 := Claimed(now, now)]);
    var s3 := Step(p, s2, Tick(g));
    assert s3.store.Live(p.payload);
  }

  lemma SlowCallsEnd(p: Protocol, s: State, g: nat, now: Time)
    requires p.payload != p.claim && g < p.claimTtl * SECOND
    requires g < p.limit && p.claimTtl * SECOND < g + p.limit
    requires s.store.now == now + g
    requires s.calls == map[0 := Claimed(now, now), 1 := Fetched(now + g)]
    requires p.claim in s.store.entries
    requires s.store.entries[p.claim] == Entry(Sentinel, Some(now + p.claimTtl * SECOND))
    ensures var s1 := Step(p, Step(p, s, Remove(0, Fine)), Tick(p.claimTtl * SECOND - g));
            !AtMostOneSuccess(Step(p, Step(p, s1, Claim(1, Fine)), Remove(1, Fine)))
  {
    var c := p.claimTtl * SECOND;
    var s1 := Step(p, s, Remove(0, Fine));
    assert s1 == State(s.store.Delete(p.payload), map[0 := Passed(now, now), 1 := Fetched(now + g)]);
    SecondCallPasses(p, Step(p, s1, Tick(c - g)), now + g);
  }

  lemma SecondCallPasses(p: Protocol, s: State, start: Time)
    requires 0 in s.calls && s.calls[0].Passed? && 1 in s.calls && s.calls[1] == Fetched(start)
    requires s.store.now < start + p.limit && !s.store.Live(p.claim)
    ensures !AtMostOneSuccess(Step(p, Step(p, s, Claim(1, Fine)), Remove(1, Fine)))
  {
    var s1 := Step(p, s, Claim(1, Fine));
    assert s1.calls[1] == Claimed(start, s.store.now) && s1.store.now == s.store.now;
    var s2 := Step(p, s1, Remove(1, Fine));
    assert s2.calls[0].Passed? && s2.calls[1].Passed?;
  }

  /** Once a call may take half the claim TTL or more, two can succeed. */
  lemma SlowCallsBothSucceed(p: Protocol, v: Value, now: Time, g: nat)
    requires p.payload != p.claim && g < p.claimTtl * SECOND
    requires g < p.limit && p.claimTtl * SECOND < g + p.limit
    ensures !AtMostOneSuccess(Run(p, Fresh(p, v, now), SlowCalls(p, v, g)))
  {
    var s0 := Fresh(p, v, now);
    var xs := [Fetch(0, Some(v)), Claim(0, Fine), Tick(g), Fetch(1, Some(v))];
    var ys := [Remove(0, Fine), Tick(p.claimTtl * SECOND - g), Claim(1, Fine), Remove(1, Fine)];
    assert SlowCalls(p, v, g) == xs + ys;
    Runs.RunConcat(Machine(p), s0, xs, ys);
    SlowCallsStart(p, v, now, g);
    SlowCallsEnd(p, Run(p, s0, xs), g, now);
    Runs.Run4(Machine(p), Run(p, s0, xs), Remove(0, Fine), Tick(p.claimTtl * SECOND - g), Claim(1, Fine),
              Remove(1, Fine));
  }

  /** Half the claim TTL is exactly the bound on the length of a call, if deletes
      that the protocol would overlook reach the store. */
  lemma OneSuccessIffCallsAreShort(p: Protocol, v: Value, now: Time)
    requires p.payload != p.claim
    ensures 2 * p.limit <= p.claimTtl * SECOND <==>
            forall actions: seq<Action> :: (forall a :: a in actions ==> Quiet(p, a) && Deletes(p, a)) ==>
              AtMostOneSuccess(Run(p, Fresh(p, v, now), actions))
  {
    var c := p.claimTtl * SECOND;
    if 2 * p.limit <= c {
      forall actions: seq<Action> | forall a :: a in actions ==> Quiet(p, a) && Deletes(p, a)
        ensures AtMostOneSuccess(Run(p, Fresh(p, v, now), actions))
      {
        AtMostOne(p, Fresh(p, v, now), actions);
      }
    } else {
      var g := if p.limit <= c then c + 1 - p.limit else 0;
      assert c == 2 * (p.claimTtl * 500_000_000);
      SlowCallsBothSucceed(p, v, now, g);
      var run := SlowCalls(p, v, g);
      assert forall a :: a in run ==> Quiet(p, a) && Deletes(p, a);
    }
  }
}
