// Issuing codes while calls that verify an older code are in flight.  Every
// store operation of GenerateAndStoreOTP and VerifyOTP is a step of its own.

module OtpIssues {
  import opened Wrappers
  import opened TtlStore
  import opened Otp
  import Runs
  import SingleUse

  /** How far an issue has come, and when it won the cooldown; one that loses it
      stops there. */
  datatype Issuer = CooldownWon(at: int) | MarkerDropped(at: int) | Issued | Stopped

  datatype State = State(calls: SingleUse.State, issuers: map<nat, Issuer>)

  datatype Action =
    | Verifies(step: SingleUse.Action)
    | ClaimCooldown(id: nat, claimNet: Net)
    | DropMarker(dropper: nat, dropNet: Net)
    | StoreCode(storer: nat, code: Option<string>, codeNet: Net)

  const LIMIT: Time := 150 * SECOND

  /** An issue takes no step once `patience` has passed since it won the cooldown. */
  predicate Patient(patience: Time, s: State, at: int) {
    s.calls.store.now < at + patience
  }

  function DoClaimCooldown(email: string, s: State, id: nat, net: Net): State {
    if id in s.issuers then s
    else
      var store := s.calls.store;
      State(s.calls.(store := if net.Refused? then store else store.SetNX(OtpCooldown(email), Sentinel, COOLDOWN_TTL)),
            s.issuers[id := if net.Fine? && !store.Live(OtpCooldown(email)) then CooldownWon(store.now) else Stopped])
  }

  /** A failed deletion of the marker is ignored. */
  function DoDropMarker(email: string, patience: Time, s: State, id: nat, net: Net): State {
    if id in s.issuers && s.issuers[id].CooldownWon? && Patient(patience, s, s.issuers[id].at) then
      State(s.calls.(store := if net.Refused? then s.calls.store else s.calls.store.Delete(OtpRedeemed(email))),
            s.issuers[id := MarkerDropped(s.issuers[id].at)])
    else s
  }

  function DoStoreCode(email: string, patience: Time, s: State, id: nat, code: Option<string>, net: Net): State {
    if id in s.issuers && s.issuers[id].MarkerDropped? && Patient(patience, s, s.issuers[id].at) then
      if code.None? then s.(issuers := s.issuers[id := Stopped])
      else
        State(s.calls.(store := if net.Refused? then s.calls.store
                                else s.calls.store.Set(OtpCode(email), Text(code.value), OTP_TTL)),
              s.issuers[id := if net.Fine? then Issued else Stopped])
    else s
  }

  function Step(email: string, patience: Time, s: State, a: Action): State {
    match a
    case Verifies(step) => s.(calls := SingleUse.Step(Redemption(email, LIMIT), s.calls, step))
    case ClaimCooldown(id, net) => DoClaimCooldown(email, s, id, net)
    case DropMarker(id, net) => DoDropMarker(email, patience, s, id, net)
    case StoreCode(id, code, net) => DoStoreCode(email, patience, s, id, code, net)
  }

  function Machine(email: string, patience: Time): (State, Action) -> State {
    (s, a) => Step(email, patience, s, a)
  }

  function Run(email: string, patience: Time, s: State, actions: seq<Action>): State {
    Runs.Run(Machine(email, patience), s, actions)
  }

  /** One issue without interruption is GenerateAndStoreOTP. */
  lemma StepsRefineIssue(email: string, patience: Time, s: State, id: nat, code: Option<string>, net: IssueNet)
    requires id !in s.issuers && 0 < patience
    ensures var s1 := Step(email, patience, s, ClaimCooldown(id, net.cooldown));
            var s2 := Step(email, patience, s1, DropMarker(id, net.redeemed));
            var t := Step(email, patience, s2, StoreCode(id, code, net.code));
            && t.calls == s.calls.(store := Issue(s.calls.store, email, code, net).0)
            && (t.issuers[id].Issued? <==> Issue(s.calls.store, email, code, net).1.Success?)
  {
    var s1 := Step(email, patience, s, ClaimCooldown(id, net.cooldown));
    if net.cooldown.Fine? && !s.calls.store.Live(OtpCooldown(email)) {
      assert Step(email, patience, s1, DropMarker(id, net.redeemed)).issuers[id].MarkerDropped?;
    } else {
      assert s1.issuers[id] == Stopped;
    }
  }

  // ---- While the cooldown lasts ---------------------------------------------------------

  /** Every call submits `code`, no other code drawn is the same, and nobody else
      touches the keys of the address. */
  predicate Redeems(email: string, code: string, a: Action) {
    match a
    case Verifies(step) =>
      && (step.Fetch? ==> step.check == Some(Text(code)))
      && (step.Other? ==> step.op.key !in {OtpCode(email), OtpAttempts(email), OtpCooldown(email), OtpRedeemed(email)})
    case StoreCode(_, drawn, _) => drawn != Some(code)
    case _ => true
  }

  /** Issues are only attempted before `end`. */
  ghost predicate IssuesBefore(email: string, patience: Time, s: State, actions: seq<Action>, end: Time) {
    forall k :: 0 <= k < |actions| && actions[k].ClaimCooldown? ==>
      Run(email, patience, s, actions[..k]).calls.store.now < end
  }

  /** The moment a code has been issued, with no call in flight yet; `issuers` are
      the other issues so far. */
  function AfterIssue(email: string, s: Store, code: string, issuers: map<nat, Issuer>): State {
    State(SingleUse.State(Issue(s, email, Some(code), IssueNet(Fine, Fine, Fine)).0, map[]), issuers)
  }

  /** An issue still under way when the next one passes the cooldown won its own
      cooldown at least 60 s ago. */
  predicate Overtaken(issuers: map<nat, Issuer>, now: Time) {
    forall id :: id in issuers && (issuers[id].CooldownWon? || issuers[id].MarkerDropped?) ==>
      issuers[id].at + COOLDOWN_TTL * SECOND <= now
  }

  function Verifications(actions: seq<Action>): seq<SingleUse.Action> {
    if actions == [] then []
    else
      var last := actions[|actions| - 1];
      Verifications(actions[..|actions| - 1]) + if last.Verifies? then [last.step] else []
  }

  /** No issue can take another step, and the cooldown that keeps new ones out still
      stands. */
  predicate Cooling(email: string, patience: Time, s: State, since: Time) {
    && since <= s.calls.store.now
    && OtpCooldown(email) in s.calls.store.entries
    && s.calls.store.entries[OtpCooldown(email)].deadline == Some(since + COOLDOWN_TTL * SECOND)
    && forall id :: id in s.issuers && (s.issuers[id].CooldownWon? || s.issuers[id].MarkerDropped?) ==>
         !Patient(patience, s, s.issuers[id].at)
  }

  lemma CoolingStep(email: string, patience: Time, s: State, a: Action, code: string, since: Time)
    requires Cooling(email, patience, s, since) && Redeems(email, code, a)
    requires a.ClaimCooldown? ==> s.calls.store.now < since + COOLDOWN_TTL * SECOND
    ensures Cooling(email, patience, Step(email, patience, s, a), since)
    ensures !a.Verifies? ==> Step(email, patience, s, a).calls == s.calls
  {
  }

  /** Between s and t only these verifying steps have counted. */
  ghost predicate Undisturbed(
    email: string, patience: Time, s: State, t: State, steps: seq<SingleUse.Action>, since: Time)
  {
    && Cooling(email, patience, t, since)
    && t.calls == SingleUse.Run(Redemption(email, LIMIT), s.calls, steps)
    && forall x :: x in steps ==> SingleUse.Quiet(Redemption(email, LIMIT), x)
  }

  lemma UndisturbedStep(email: string, patience: Time, s: State, t: State, steps: seq<SingleUse.Action>, a: Action,
                        code: string, since: Time)
    requires Undisturbed(email, patience, s, t, steps, since) && Redeems(email, code, a)
    requires a.ClaimCooldown? ==> t.calls.store.now < since + COOLDOWN_TTL * SECOND
    ensures Undisturbed(email, patience, s, Step(email, patience, t, a),
                        steps + if a.Verifies? then [a.step] else [], since)
  {
    CoolingStep(email, patience, t, a, code, since);
    if a.Verifies? {
      Runs.RunAppend(SingleUse.Machine(Redemption(email, LIMIT)), s.calls, steps, a.step);
    } else {
      assert steps + [] == steps;
    }
  }

  lemma {:induction false} RefusedIssuesDoNothing(
    email: string, patience: Time, s: State, actions: seq<Action>, code: string, since: Time)
    requires Cooling(email, patience, s, since) && forall a :: a in actions ==> Redeems(email, code, a)
    requires IssuesBefore(email, patience, s, actions, since + COOLDOWN_TTL * SECOND)
    ensures Undisturbed(email, patience, s, Run(email, patience, s, actions), Verifications(actions), since)
  {
    if actions != [] {
      var before, last := actions[..|actions| - 1], actions[|actions| - 1];
      assert forall k :: 0 <= k <= |before| ==> actions[..k] == before[..k];
      RefusedIssuesDoNothing(email, patience, s, before, code, since);
      UndisturbedStep(email, patience, s, Run(email, patience, s, before), Verifications(before), last, code, since);
    }
  }

  /** Issues that the cooldown refuses do not disturb single use, and neither do
      those it let pass before, if no issue goes on for longer than the cooldown. */
  lemma RefusedIssuesKeepSingleUse(
    email: string, patience: Time, s: Store, code: string, issuers: map<nat, Issuer>, actions: seq<Action>)
    requires Issue(s, email, Some(code), IssueNet(Fine, Fine, Fine)).1.Success?
    requires Overtaken(issuers, s.now) && patience <= COOLDOWN_TTL * SECOND
    requires forall a :: a in actions ==> Redeems(email, code, a)
    requires IssuesBefore(email, patience, AfterIssue(email, s, code, issuers), actions, s.now + COOLDOWN_TTL * SECOND)
    ensures SingleUse.AtMostOneSuccess(Run(email, patience, AfterIssue(email, s, code, issuers), actions).calls)
  {
    var t := AfterIssue(email, s, code, issuers);
    RefusedIssuesDoNothing(email, patience, t, actions, code, s.now);
    SingleUse.AtMostOne(Redemption(email, LIMIT), t.calls, Verifications(actions));
  }

  // ---- An issue that passes ---------------------------------------------------------------

  /** An issue and then the rest of call j. */
  function IssueThenRedeem(id: nat, next: string, j: nat): seq<Action> {
    [ClaimCooldown(id, Fine), DropMarker(id, Fine), StoreCode(id, Some(next), Fine),
     Verifies(SingleUse.Claim(j, Fine)), Verifies(SingleUse.Remove(j, Fine))]
  }

  /** Whenever one call has succeeded, another has read the same code in time, and
      the cooldown is over, an issue lets the other one succeed as well. */
  lemma PassedIssueReopensCode(email: string, patience: Time, s: State, id: nat, next: string, i: nat, j: nat)
    requires 0 < patience && id !in s.issuers && !s.calls.store.Live(OtpCooldown(email))
    requires i in s.calls.calls && s.calls.calls[i].Passed?
    requires j in s.calls.calls && s.calls.calls[j].Fetched? && s.calls.store.now < s.calls.calls[j].start + LIMIT
    ensures var t := Run(email, patience, s, IssueThenRedeem(id, next, j)); !SingleUse.AtMostOneSuccess(t.calls)
  {
    var xs := IssueThenRedeem(id, next, j);
    Runs.Run5(Machine(email, patience), s, xs[0], xs[1], xs[2], xs[3], xs[4]);
    StepsRefineIssue(email, patience, s, id, Some(next), IssueNet(Fine, Fine, Fine));
    var s3 := Step(email, patience, Step(email, patience, Step(email, patience, s, xs[0]), xs[1]), xs[2]);
    assert s3.calls.calls == s.calls.calls && !s3.calls.store.Live(OtpRedeemed(email));
    RestPasses(email, patience, s3, i, j);
  }

  /** A call that has read the code passes once the redeemed marker is gone. */
  lemma RestPasses(email: string, patience: Time, s: State, i: nat, j: nat)
    requires !s.calls.store.Live(OtpRedeemed(email))
    requires i in s.calls.calls && s.calls.calls[i].Passed?
    requires j in s.calls.calls && s.calls.calls[j].Fetched? && s.calls.store.now < s.calls.calls[j].start + LIMIT
    ensures var t := Step(email, patience, Step(email, patience, s, Verifies(SingleUse.Claim(j, Fine))),
                          Verifies(SingleUse.Remove(j, Fine)));
            !SingleUse.AtMostOneSuccess(t.calls)
  {
    var s1 := Step(email, patience, s, Verifies(SingleUse.Claim(j, Fine)));
    assert s1.calls.calls[j].Claimed? && s1.calls.calls[i].Passed?;
    var s2 := Step(email, patience, s1, Verifies(SingleUse.Remove(j, Fine)));
    assert s2.calls.calls[j].Passed? && s2.calls.calls[i].Passed?;
  }

  /** Two calls read the code and the first redeems it. */
  function FirstRedemption(code: string): seq<Action> {
    [Verifies(SingleUse.Fetch(0, Some(Text(code)))), Verifies(SingleUse.Fetch(1, Some(Text(code)))),
     Verifies(SingleUse.Claim(0, Fine)), Verifies(SingleUse.Remove(0, Fine))]
  }

  lemma FirstRedemptionRuns(email: string, patience: Time, s: Store, code: string, issuers: map<nat, Issuer>)
    requires Issue(s, email, Some(code), IssueNet(Fine, Fine, Fine)).1.Success?
    ensures var t := Run(email, patience, AfterIssue(email, s, code, issuers), FirstRedemption(code));
            && t.issuers == issuers && t.calls.store.now == s.now
            && OtpCooldown(email) in t.calls.store.entries
            && t.calls.store.entries[OtpCooldown(email)].deadline == Some(s.now + COOLDOWN_TTL * SECOND)
            && t.calls.calls == map[0 := SingleUse.Passed(s.now, s.now), 1 := SingleUse.Fetched(s.now)]
  {
    var xs, s0 := FirstRedemption(code), AfterIssue(email, s, code, issuers);
    Runs.Run4(Machine(email, patience), s0, xs[0], xs[1], xs[2], xs[3]);
    assert s0.calls.store.Get(OtpCode(email)) == Some(Text(code)) && !s0.calls.store.Live(OtpRedeemed(email));
    var s2 := Step(email, patience, Step(email, patience, s0, xs[0]), xs[1]);
    var calls := map[0 := SingleUse.Fetched(s.now), 1 := SingleUse.Fetched(s.now)];
    assert s2 == State(SingleUse.State(s0.calls.store, calls), issuers);
    FirstPasses(email, patience, s2, s.now);
  }

  lemma FirstPasses(email: string, patience: Time, s: State, now: Time)
    requires !s.calls.store.Live(OtpRedeemed(email)) && s.calls.store.now == now
    requires s.calls.calls == map[0 := SingleUse.Fetched(now), 1 := SingleUse.Fetched(now)]
    requires OtpCooldown(email) in s.calls.store.entries
    ensures var t := Step(email, patience, Step(email, patience, s, Verifies(SingleUse.Claim(0, Fine))),
                          Verifies(SingleUse.Remove(0, Fine)));
            && t.issuers == s.issuers && t.calls.store.now == now && OtpCooldown(email) in t.calls.store.entries
            && t.calls.store.entries[OtpCooldown(email)] == s.calls.store.entries[OtpCooldown(email)]
            && t.calls.calls == map[0 := SingleUse.Passed(now, now), 1 := SingleUse.Fetched(now)]
  {
    var s1 := Step(email, patience, s, Verifies(SingleUse.Claim(0, Fine)));
    assert s1.calls.calls == map[0 := SingleUse.Claimed(now, now), 1 := SingleUse.Fetched(now)];
  }

  /** The same, and then the cooldown runs out. */
  function FirstRedemptionAndWait(code: string): seq<Action> {
    FirstRedemption(code) + [Verifies(SingleUse.Tick(COOLDOWN_TTL * SECOND))]
  }

  lemma WaitRuns(email: string, patience: Time, s: Store, code: string)
    requires Issue(s, email, Some(code), IssueNet(Fine, Fine, Fine)).1.Success?
    ensures var t := Run(email, patience, AfterIssue(email, s, code, map[]), FirstRedemptionAndWait(code));
            && t.issuers == map[] && t.calls.store.now == s.now + COOLDOWN_TTL * SECOND
            && !t.calls.store.Live(OtpCooldown(email))
            && t.calls.calls == map[0 := SingleUse.Passed(s.now, s.now), 1 := SingleUse.Fetched(s.now)]
  {
    FirstRedemptionRuns(email, patience, s, code, map[]);
    Runs.RunAppend(Machine(email, patience), AfterIssue(email, s, code, map[]), FirstRedemption(code),
                   Verifies(SingleUse.Tick(COOLDOWN_TTL * SECOND)));
  }

  /** The run in which an issue 60 s after the first one lets a second call redeem
      the first code. */
  lemma IssueBetweenCallsBreaksSingleUse(email: string, patience: Time, s: Store, code: string, next: string)
    requires 0 < patience && Issue(s, email, Some(code), IssueNet(Fine, Fine, Fine)).1.Success?
    ensures var actions := FirstRedemptionAndWait(code) + IssueThenRedeem(0, next, 1);
            !SingleUse.AtMostOneSuccess(Run(email, patience, AfterIssue(email, s, code, map[]), actions).calls)
  {
    WaitRuns(email, patience, s, code);
    var s0, xs := AfterIssue(email, s, code, map[]), FirstRedemptionAndWait(code);
    PassedIssueReopensCode(email, patience, Run(email, patience, s0, xs), 0, next, 0, 1);
    Runs.RunConcat(Machine(email, patience), s0, xs, IssueThenRedeem(0, next, 1));
  }

  // ---- An issue that was overtaken --------------------------------------------------------

  /** The only other issue won the cooldown that ends now, and has got no further. */
  function Straggler(now: Time): map<nat, Issuer> {
    map[0 := CooldownWon(now - COOLDOWN_TTL * SECOND)]
  }

  function DropThenRedeem(): seq<Action> {
    [DropMarker(0, Fine), Verifies(SingleUse.Claim(1, Fine)), Verifies(SingleUse.Remove(1, Fine))]
  }

  /** An issue that goes on after its own cooldown can drop the marker of the next
      code: the run in which two calls redeem it. */
  lemma OvertakenIssueBreaksSingleUse(email: string, patience: Time, s: Store, code: string)
    requires COOLDOWN_TTL * SECOND < patience && Issue(s, email, Some(code), IssueNet(Fine, Fine, Fine)).1.Success?
    ensures var actions := FirstRedemption(code) + DropThenRedeem();
            !SingleUse.AtMostOneSuccess(
              Run(email, patience, AfterIssue(email, s, code, Straggler(s.now)), actions).calls)
  {
    var s0, xs, ys := AfterIssue(email, s, code, Straggler(s.now)), FirstRedemption(code), DropThenRedeem();
    FirstRedemptionRuns(email, patience, s, code, Straggler(s.now));
    Runs.RunConcat(Machine(email, patience), s0, xs, ys);
    var s1 := Run(email, patience, s0, xs);
    Runs.Run3(Machine(email, patience), s1, ys[0], ys[1], ys[2]);
    RestPasses(email, patience, Step(email, patience, s1, ys[0]), 0, 1);
  }

  // ---- The exact window ---------------------------------------------------------------------

  /** In every interleaving with issues attempted only before `end`, and whatever
      issues were overtaken, the code is redeemed at most once. */
  ghost predicate SingleUseUntil(email: string, patience: Time, s: Store, code: string, end: Time) {
    forall issuers: map<nat, Issuer>, actions: seq<Action> ::
      && Overtaken(issuers, s.now)
      && (forall a :: a in actions ==> Redeems(email, code, a))
      && IssuesBefore(email, patience, AfterIssue(email, s, code, issuers), actions, end) ==>
        SingleUse.AtMostOneSuccess(Run(email, patience, AfterIssue(email, s, code, issuers), actions).calls)
  }

  /** The cooldown is the exact limit twice over: new issues are harmless up to its
      end and no later, and issues under way are harmless if and only if none goes on
      for longer than it lasts. */
  lemma IssueWindowIsExact(email: string, patience: Time, s: Store, code: string, end: Time)
    requires 0 < patience && Issue(s, email, Some(code), IssueNet(Fine, Fine, Fine)).1.Success?
    ensures SingleUseUntil(email, patience, s, code, end) <==>
              end <= s.now + COOLDOWN_TTL * SECOND && patience <= COOLDOWN_TTL * SECOND
  {
    if COOLDOWN_TTL * SECOND < patience {
      OvertakenIssueBreaksSingleUse(email, patience, s, code);
      var s0, actions := AfterIssue(email, s, code, Straggler(s.now)), FirstRedemption(code) + DropThenRedeem();
      assert IssuesBefore(email, patience, s0, actions, end);
      assert !SingleUse.AtMostOneSuccess(Run(email, patience, s0, actions).calls);
    } else if s.now + COOLDOWN_TTL * SECOND < end {
      var actions := LateIssue(email, patience, s, code, end);
      assert Overtaken(map[], s.now);
    } else {
      forall issuers: map<nat, Issuer>, actions: seq<Action> |
        && Overtaken(issuers, s.now)
        && (forall a :: a in actions ==> Redeems(email, code, a))
        && IssuesBefore(email, patience, AfterIssue(email, s, code, issuers), actions, end)
        ensures SingleUse.AtMostOneSuccess(Run(email, patience, AfterIssue(email, s, code, issuers), actions).calls)
      {
        RefusedIssuesKeepSingleUse(email, patience, s, code, issuers, actions);
      }
    }
  }

  lemma LateIssue(email: string, patience: Time, s: Store, code: string, end: Time) returns (actions: seq<Action>)
    requires 0 < patience && Issue(s, email, Some(code), IssueNet(Fine, Fine, Fine)).1.Success?
    requires s.now + COOLDOWN_TTL * SECOND < end
    ensures forall a :: a in actions ==> Redeems(email, code, a)
    ensures IssuesBefore(email, patience, AfterIssue(email, s, code, map[]), actions, end)
    ensures !SingleUse.AtMostOneSuccess(Run(email, patience, AfterIssue(email, s, code, map[]), actions).calls)
  {
    var next := code + "x";
    assert |next| == |code| + 1;
    var xs, ys := FirstRedemptionAndWait(code), IssueThenRedeem(0, next, 1);
    actions := xs + ys;
    IssueBetweenCallsBreaksSingleUse(email, patience, s, code, next);
    OnlyLateIssue(email, patience, s, code, ys, end);
    forall a | a in actions ensures Redeems(email, code, a) {
      assert a in xs || a in ys;
    }
  }

  lemma OnlyLateIssue(email: string, patience: Time, s: Store, code: string, ys: seq<Action>, end: Time)
    requires Issue(s, email, Some(code), IssueNet(Fine, Fine, Fine)).1.Success?
    requires s.now + COOLDOWN_TTL * SECOND < end
    requires ys != [] && forall k :: 0 < k < |ys| ==> !ys[k].ClaimCooldown?
    ensures IssuesBefore(email, patience, AfterIssue(email, s, code, map[]), FirstRedemptionAndWait(code) + ys, end)
  {
    WaitRuns(email, patience, s, code);
    var xs := FirstRedemptionAndWait(code);
    assert (xs + ys)[..|xs|] == xs;
  }
}
