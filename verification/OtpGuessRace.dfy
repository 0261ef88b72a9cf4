// How many submitted codes can be compared with one issued OTP when submissions and
// issues for one address overlap.  Every store operation is a step of its own, in
// any order, and none fails.

module OtpGuessRace {
  import opened Wrappers
  import opened TtlStore
  import opened Otp
  import OtpGuesses
  import Runs

  /** An attempt counter; until the first attempt's Expire it has no deadline. */
  datatype Counter = Counter(count: nat, ends: Option<Time>)

  /** How many submissions there are in each phase; those in one phase are alike.
      `checked` have found a code pending, `opening` have counted the first attempt,
      `passed` are through the gate, `matched` and `claimed` are redeeming a code, and
      `verified` have still to clear the counter. */
  datatype Calls = Calls(checked: nat, opening: nat, passed: nat, matched: nat, claimed: nat, verified: nat)

  /** One address.  `won` and `dropped` are the issues that have won the cooldown and
      dropped the marker.  The rest is history of the code stored last: its number, when
      it was stored, the counter at that moment, how many submissions were inside the
      gate and how many about to clear, and since then how many were let in while it
      was pending, how many cleared, and how many were compared with it. */
  datatype State = State(
    store: Store, calls: Calls, won: nat, dropped: nat, issued: nat, issuedAt: Time, counter: Option<Counter>,
    inside: nat, clearing: nat, entered: nat, cleared: nat, compared: nat)

  datatype Action =
    | Tick(d: nat)
    | ClaimCooldown
    | DropMarker
    | StoreCode(code: Option<string>)
    | Check
    | CountAttempt
    | Open
    | Compare(guess: string)
    | Claim
    | Remove
    | Clear
    | Other(op: Op)

  const NOBODY := Calls(0, 0, 0, 0, 0, 0)

  function Initial(now: Time): State {
    State(Store(map[], now), NOBODY, 0, 0, 0, now, None, 0, 0, 0, 0, 0)
  }

  function RunningCounter(email: string, s: Store): Option<Counter> {
    if s.Live(OtpAttempts(email)) && s.entries[OtpAttempts(email)].value.Count? then
      Some(Counter(s.entries[OtpAttempts(email)].value.count, s.entries[OtpAttempts(email)].deadline))
    else None
  }

  function DoClaimCooldown(email: string, s: State): State {
    s.(store := s.store.SetNX(OtpCooldown(email), Sentinel, COOLDOWN_TTL),
       won := if s.store.Live(OtpCooldown(email)) then s.won else s.won + 1)
  }

  function DoStoreCode(email: string, s: State, code: Option<string>): State
    requires s.dropped > 0
  {
    if code.None? then s.(dropped := s.dropped - 1)
    else
      State(s.store.Set(OtpCode(email), Text(code.value), OTP_TTL), s.calls, s.won, s.dropped - 1,
            s.issued + 1, s.store.now, RunningCounter(email, s.store), s.calls.opening + s.calls.passed,
            s.calls.verified, s.calls.opening + s.calls.passed, 0, 0)
  }

  /** A submission that finds no code pending goes through without counting. */
  function DoCheck(email: string, s: State): State {
    if s.store.Live(OtpCode(email)) then s.(calls := s.calls.(checked := s.calls.checked + 1))
    else s.(calls := s.calls.(passed := s.calls.passed + 1))
  }

  /** The first attempt still has to set the deadline; the sixth is turned away. */
  function DoCount(email: string, s: State): State
    requires s.calls.checked > 0
  {
    var n, c := s.store.Incremented(OtpAttempts(email)), s.calls.(checked := s.calls.checked - 1);
    var t := s.(store := s.store.Incr(OtpAttempts(email)),
                entered := if s.store.Live(OtpCode(email)) then s.entered + 1 else s.entered);
    if n == Some(1) then t.(calls := c.(opening := c.opening + 1))
    else if n.None? || n.value <= MAX_ATTEMPTS then t.(calls := c.(passed := c.passed + 1))
    else t.(calls := c, entered := s.entered)
  }

  function DoOpen(email: string, s: State): State
    requires s.calls.opening > 0
  {
    s.(store := s.store.Expire(OtpAttempts(email), OTP_TTL),
       calls := s.calls.(opening := s.calls.opening - 1, passed := s.calls.passed + 1))
  }

  function DoCompare(email: string, s: State, guess: string): State
    requires s.calls.passed > 0
  {
    var stored, c := Raw(s.store.Get(OtpCode(email))), s.calls.(passed := s.calls.passed - 1);
    if stored == "" then s.(calls := c)
    else s.(calls := if stored == guess then c.(matched := c.matched + 1) else c, compared := s.compared + 1)
  }

  function DoClaim(email: string, s: State): State
    requires s.calls.matched > 0
  {
    var c := s.calls.(matched := s.calls.matched - 1);
    s.(store := s.store.SetNX(OtpRedeemed(email), Sentinel, REDEEMED_TTL),
       calls := if s.store.Live(OtpRedeemed(email)) then c else c.(claimed := c.claimed + 1))
  }

  function DoRemove(email: string, s: State): State
    requires s.calls.claimed > 0
  {
    s.(store := s.store.Delete(OtpCode(email)),
       calls := s.calls.(claimed := s.calls.claimed - 1, verified := s.calls.verified + 1))
  }

  function DoClear(email: string, s: State): State
    requires s.calls.verified > 0
  {
    s.(store := s.store.Delete(OtpAttempts(email)), calls := s.calls.(verified := s.calls.verified - 1),
       cleared := s.cleared + 1)
  }

  /** A step that nobody is there to take changes nothing. */
  function Step(email: string, s: State, a: Action): State {
    match a
    case Tick(d) => s.(store := s.store.Tick(d))
    case ClaimCooldown => DoClaimCooldown(email, s)
    case DropMarker =>
      if s.won == 0 then s
      else s.(store := s.store.Delete(OtpRedeemed(email)), won := s.won - 1, dropped := s.dropped + 1)
    case StoreCode(code) => if s.dropped == 0 then s else DoStoreCode(email, s, code)
    case Check => DoCheck(email, s)
    case CountAttempt => if s.calls.checked == 0 then s else DoCount(email, s)
    case Open => if s.calls.opening == 0 then s else DoOpen(email, s)
    case Compare(guess) => if s.calls.passed == 0 || guess == "" then s else DoCompare(email, s, guess)
    case Claim => if s.calls.matched == 0 then s else DoClaim(email, s)
    case Remove => if s.calls.claimed == 0 then s else DoRemove(email, s)
    case Clear => if s.calls.verified == 0 then s else DoClear(email, s)
    case Other(op) => s.(store := Apply(s.store, op))
  }

  function Machine(email: string): (State, Action) -> State {
    (s, a) => Step(email, s, a)
  }

  function Run(email: string, s: State, actions: seq<Action>): State {
    Runs.Run(Machine(email), s, actions)
  }

  predicate Unrelated(email: string, a: Action) {
    a.Other? ==> a.op.key !in {OtpCode(email), OtpAttempts(email), OtpCooldown(email), OtpRedeemed(email)}
  }

  /** One submission without interruption. */
  function Submission(email: string, s: State, guess: string): State {
    var t := Step(email, Step(email, Step(email, Step(email, s, Check), CountAttempt), Open), Compare(guess));
    Step(email, Step(email, Step(email, t, Claim), Remove), Clear)
  }

  /** It is the request handler, and counts as one comparison exactly when that
      compares. */
  lemma StepsRefineSubmission(email: string, s: State, guess: string, lookup: Lookup)
    requires s.calls == NOBODY && guess != ""
    ensures var t := Submission(email, s, guess);
            && t.calls == NOBODY && t.store == VerifyRequest(s.store, email, guess, lookup, OtpGuesses.NO_FAULTS).0
            && t.compared == s.compared + if OtpGuesses.Compares(email, s.store, guess) then 1 else 0
  {
    var s3 := Step(email, Step(email, Step(email, s, Check), CountAttempt), Open);
    GateIsAttempt(email, s);
    var (s1, attempt) := Attempt(s.store, email, OtpGuesses.NO_FAULTS.attempt);
    if s3.calls.passed > 0 {
      RestIsVerify(email, s3, guess);
    }
  }

  /** One issue without interruption is GenerateAndStoreOTP. */
  lemma StepsRefineIssue(email: string, s: State, code: Option<string>)
    requires s.won == 0 && s.dropped == 0
    ensures var t := Step(email, Step(email, Step(email, s, ClaimCooldown), DropMarker), StoreCode(code));
            var (store, r) := Issue(s.store, email, code, IssueNet(Fine, Fine, Fine));
            t.store == store && t.won == 0 && t.dropped == 0 && t.issued == s.issued + if r.Success? then 1 else 0
  {
    var s1 := Step(email, s, ClaimCooldown);
    assert s1.won == if s.store.Live(OtpCooldown(email)) then 0 else 1;
  }

  lemma GateIsAttempt(email: string, s: State)
    requires s.calls == NOBODY
    ensures var t := Step(email, Step(email, Step(email, s, Check), CountAttempt), Open);
            var (store, attempt) := Attempt(s.store, email, OtpGuesses.NO_FAULTS.attempt);
            && t.store == store && t.compared == s.compared
            && t.calls == if attempt.Success? && attempt.value > MAX_ATTEMPTS then NOBODY
                          else NOBODY.(passed := 1)
  {
    var s1 := Step(email, s, Check);
    if s.store.Live(OtpCode(email)) {
      assert s1.calls.checked == 1 && s1.store == s.store;
    }
  }

  lemma RestIsVerify(email: string, s: State, guess: string)
    requires s.calls == NOBODY.(passed := 1) && guess != ""
    ensures var t := Step(email, Step(email, Step(email, Step(email, s, Compare(guess)), Claim), Remove), Clear);
            var (store, r) := Verify(s.store, email, guess, OtpGuesses.NO_FAULTS.verify);
            && t.calls == NOBODY && t.store == (if r.Success? then store.Delete(OtpAttempts(email)) else store)
            && t.compared == s.compared + if Raw(s.store.Get(OtpCode(email))) != "" then 1 else 0
  {
    var s1 := Step(email, s, Compare(guess));
    assert s1.store == s.store;
    if s1.calls.matched == 1 {
      var s2 := Step(email, s1, Claim);
      assert s2.calls.claimed == if s.store.Live(OtpRedeemed(email)) then 0 else 1;
    }
  }

  // ---- The bound --------------------------------------------------------------------

  function Left(count: nat): nat {
    MAX_ATTEMPTS - OtpGuesses.Capped(count)
  }

  /** What the counter that ran when the code was stored has left. */
  function LeftOver(s: State): nat {
    if s.counter.None? then 0 else Left(s.counter.value.count)
  }

  /** That counter lasts as long as the code. */
  predicate OneWindow(s: State) {
    s.counter.Some? &&
    (s.counter.value.ends.Some? ==> s.issuedAt + OTP_TTL * SECOND <= s.counter.value.ends.value)
  }

  /** What the counter leaves, one more window if it runs out first, one for every
      submission about to clear it, and everybody who is inside the gate already. */
  function Limit(s: State): nat {
    s.inside + LeftOver(s) + (if OneWindow(s) then 0 else MAX_ATTEMPTS) + MAX_ATTEMPTS * s.clearing
  }

  /** How many more may enter before the counter is cleared again or runs out. */
  function Room(s: State): int {
    s.inside + LeftOver(s) + (if OneWindow(s) then 0 else MAX_ATTEMPTS) + MAX_ATTEMPTS * s.cleared - s.entered
  }

  predicate CounterOk(email: string, s: Store) {
    OtpAttempts(email) in s.entries ==>
      s.entries[OtpAttempts(email)].value.Count? && 1 <= s.entries[OtpAttempts(email)].value.count
  }

  predicate CodeOk(email: string, s: State) {
    && s.issuedAt <= s.store.now
    && (s.counter.Some? ==> 1 <= s.counter.value.count)
    && (OtpCode(email) in s.store.entries ==>
          s.store.entries[OtpCode(email)].deadline == Some(s.issuedAt + OTP_TTL * SECOND))
  }

  /** The counter is still the one that ran when the code was stored. */
  predicate InFirstWindow(s: State, c: Counter) {
    && s.counter.Some? && s.cleared == 0 && c.ends == s.counter.value.ends && s.counter.value.count <= c.count
    && s.entered + Left(c.count) <= s.inside + LeftOver(s)
  }

  /** It is a later one, or has a new deadline. */
  predicate InLaterWindow(s: State, c: Counter) {
    && (c.ends.Some? ==> s.issuedAt + OTP_TTL * SECOND <= c.ends.value)
    && Left(c.count) <= Room(s)
  }

  predicate WindowsOk(email: string, s: State) {
    var c := RunningCounter(email, s.store);
    if c.None? then MAX_ATTEMPTS <= Room(s) else InFirstWindow(s, c.value) || InLaterWindow(s, c.value)
  }

  predicate Inv(email: string, s: State) {
    && CounterOk(email, s.store) && CodeOk(email, s)
    && s.compared <= s.entered <= Limit(s)
    && (s.store.Live(OtpCode(email)) ==>
          && s.compared + s.calls.opening + s.calls.passed <= s.entered
          && s.cleared + s.calls.verified <= s.clearing
          && WindowsOk(email, s))
  }

  lemma TickKeepsInv(email: string, s: State, d: nat)
    requires Inv(email, s)
    ensures Inv(email, Step(email, s, Tick(d)))
  {
  }

  lemma CountKeepsInv(email: string, s: State)
    requires Inv(email, s) && s.calls.checked > 0
    ensures Inv(email, DoCount(email, s))
  {
  }

  lemma OpenKeepsInv(email: string, s: State)
    requires Inv(email, s) && s.calls.opening > 0
    ensures Inv(email, DoOpen(email, s))
  {
  }

  lemma CompareKeepsInv(email: string, s: State, guess: string)
    requires Inv(email, s) && s.calls.passed > 0
    ensures Inv(email, DoCompare(email, s, guess))
  {
  }

  lemma ClearKeepsInv(email: string, s: State)
    requires Inv(email, s) && s.calls.verified > 0
    ensures Inv(email, DoClear(email, s))
  {
  }

  lemma StoreCodeKeepsInv(email: string, s: State, code: Option<string>)
    requires Inv(email, s) && s.dropped > 0
    ensures Inv(email, DoStoreCode(email, s, code))
  {
  }

  lemma OthersKeepInv(email: string, s: State, a: Action)
    requires Inv(email, s) && Unrelated(email, a)
    requires a.ClaimCooldown? || a.DropMarker? || a.Check? || a.Claim? || a.Remove? || a.Other?
    ensures Inv(email, Step(email, s, a))
  {
    if a.Claim? && s.calls.matched > 0 {
      ClaimKeepsInv(email, s);
    } else if a.Remove? && s.calls.claimed > 0 {
      RemoveKeepsInv(email, s);
    }
  }

  lemma ClaimKeepsInv(email: string, s: State)
    requires Inv(email, s) && s.calls.matched > 0
    ensures Inv(email, DoClaim(email, s))
  {
  }

  lemma RemoveKeepsInv(email: string, s: State)
    requires Inv(email, s) && s.calls.claimed > 0
    ensures Inv(email, DoRemove(email, s))
  {
  }

  lemma InvStep(email: string, s: State, a: Action)
    requires Inv(email, s) && Unrelated(email, a)
    ensures Inv(email, Step(email, s, a))
  {
    match a
    case Tick(d) => TickKeepsInv(email, s, d);
    case StoreCode(code) => if s.dropped > 0 { StoreCodeKeepsInv(email, s, code); }
    case CountAttempt => if s.calls.checked > 0 { CountKeepsInv(email, s); }
    case Open => if s.calls.opening > 0 { OpenKeepsInv(email, s); }
    case Compare(guess) => if s.calls.passed > 0 { CompareKeepsInv(email, s, guess); }
    case Clear => if s.calls.verified > 0 { ClearKeepsInv(email, s); }
    case _ => OthersKeepInv(email, s, a);
  }

  lemma {:induction false} InvRun(email: string, s: State, actions: seq<Action>)
    requires Inv(email, s) && forall a :: a in actions ==> Unrelated(email, a)
    ensures Inv(email, Run(email, s, actions))
  {
    if actions != [] {
      InvRun(email, s, actions[..|actions| - 1]);
      InvStep(email, Run(email, s, actions[..|actions| - 1]), actions[|actions| - 1]);
    }
  }

  /** In every interleaving at most nine codes are compared with one issued OTP, besides
      those of submissions inside the gate when it was stored, and five more for every
      one that had still to clear the counter then. */
  lemma NineBesidesThoseInside(email: string, now: Time, actions: seq<Action>)
    requires forall a :: a in actions ==> Unrelated(email, a)
    ensures var s := Run(email, Initial(now), actions);
            s.compared <= 9 + s.inside + MAX_ATTEMPTS * s.clearing
  {
    InvRun(email, Initial(now), actions);
  }

  /** Until another code is stored, the history of the last one stands. */
  lemma {:induction false} HistoryStands(email: string, s: State, actions: seq<Action>)
    ensures var t := Run(email, s, actions);
            s.issued <= t.issued && (t.issued == s.issued ==> Limit(t) == Limit(s))
  {
    if actions != [] {
      HistoryStands(email, s, actions[..|actions| - 1]);
      HistoryStep(email, Run(email, s, actions[..|actions| - 1]), actions[|actions| - 1]);
    }
  }

  lemma HistoryStep(email: string, s: State, a: Action)
    ensures var t := Step(email, s, a); s.issued <= t.issued && (t.issued == s.issued ==> Limit(t) == Limit(s))
  {
  }

  // ---- The bound is attained --------------------------------------------------------

  /** No step is another part's. */
  predicate Own(actions: seq<Action>) {
    forall a :: a in actions ==> !a.Other?
  }

  predicate CodeLive(email: string, s: State, code: string) {
    s.store.Live(OtpCode(email)) && s.store.entries[OtpCode(email)].value == Text(code)
  }

  /** The code is pending and has not been compared with anything; the counter stands
      at `count`, 0 if there is none; `total` submissions are inside the gate. */
  predicate Ready(email: string, s: State, code: string, count: nat, total: nat) {
    && CodeLive(email, s, code) && s.compared == 0 && s.calls.opening + s.calls.passed == total
    && if count == 0 then !s.store.Live(OtpAttempts(email))
       else s.store.Live(OtpAttempts(email)) && s.store.entries[OtpAttempts(email)].value == Value.Count(count)
  }

  /** Neither the time nor the code changes, nor a counter's deadline. */
  predicate Frame(email: string, s: State, t: State) {
    && t.store.now == s.store.now && t.issued == s.issued && t.calls.verified == s.calls.verified
    && OtpCode(email) in s.store.entries && OtpCode(email) in t.store.entries
    && t.store.entries[OtpCode(email)] == s.store.entries[OtpCode(email)]
  }

  predicate SameDeadline(email: string, s: State, t: State) {
    var key := OtpAttempts(email);
    s.store.Live(key) ==> key in t.store.entries && t.store.entries[key].deadline == s.store.entries[key].deadline
  }

  lemma GateStep(email: string, s: State, code: string, count: nat, total: nat)
    requires Ready(email, s, code, count, total) && count < MAX_ATTEMPTS
    ensures var t := Step(email, Step(email, s, Check), CountAttempt);
            Ready(email, t, code, count + 1, total + 1) && Frame(email, s, t) && SameDeadline(email, s, t)
  {
    var s1 := Step(email, s, Check);
    assert s1.calls.checked > 0 && s1.store == s.store;
  }

  /** k more submissions pass the gate. */
  lemma {:induction false} Enter(email: string, s: State, code: string, count: nat, total: nat, k: nat)
    returns (actions: seq<Action>, t: State)
    requires Ready(email, s, code, count, total) && count + k <= MAX_ATTEMPTS
    ensures Own(actions) && t == Run(email, s, actions)
    ensures Ready(email, t, code, count + k, total + k) && Frame(email, s, t) && SameDeadline(email, s, t)
  {
    if k == 0 {
      actions, t := [], s;
    } else {
      var xs, s1 := Enter(email, s, code, count, total, k - 1);
      GateStep(email, s1, code, count + k - 1, total + k - 1);
      Runs.RunTwo(Machine(email), s, xs, Check, CountAttempt);
      actions, t := xs + [Check, CountAttempt], Step(email, Step(email, s1, Check), CountAttempt);
    }
  }

  /** A submission clears the counter, and five more enter; k times. */
  lemma {:induction false} ClearAndEnter(email: string, s: State, code: string, count: nat, total: nat, k: nat)
    returns (actions: seq<Action>, t: State, last: nat)
    requires Ready(email, s, code, count, total) && k <= s.calls.verified
    ensures Own(actions) && t == Run(email, s, actions) && t.issued == s.issued
    ensures Ready(email, t, code, last, total + MAX_ATTEMPTS * k)
    decreases k
  {
    if k == 0 {
      actions, t, last := [], s, count;
    } else {
      var s1 := Step(email, s, Clear);
      assert Ready(email, s1, code, 0, total) && s1.calls.verified == s.calls.verified - 1;
      var xs, s2 := Enter(email, s1, code, 0, total, MAX_ATTEMPTS);
      var ys, s3, n := ClearAndEnter(email, s2, code, MAX_ATTEMPTS, total + MAX_ATTEMPTS, k - 1);
      Runs.RunCons(Machine(email), s, Clear, xs);
      Runs.RunConcat(Machine(email), s, [Clear] + xs, ys);
      actions, t, last := [Clear] + xs + ys, s3, n;
    }
  }

  lemma OpenStep(email: string, s: State, code: string)
    requires CodeLive(email, s, code) && s.calls.opening > 0
    ensures var t := Step(email, s, Open);
            && CodeLive(email, t, code) && t.compared == s.compared && t.issued == s.issued
            && t.calls == s.calls.(opening := s.calls.opening - 1, passed := s.calls.passed + 1)
  {
  }

  lemma {:induction false} OpenAll(email: string, s: State, code: string, k: nat)
    requires CodeLive(email, s, code) && k <= s.calls.opening
    ensures var t := Run(email, s, Runs.Repeat(Open, k));
            && CodeLive(email, t, code) && t.compared == s.compared && t.issued == s.issued
            && t.calls == s.calls.(opening := s.calls.opening - k, passed := s.calls.passed + k)
  {
    if k > 0 {
      OpenAll(email, s, code, k - 1);
      OpenStep(email, Run(email, s, Runs.Repeat(Open, k - 1)), code);
      Runs.RunAppend(Machine(email), s, Runs.Repeat(Open, k - 1), Open);
    }
  }

  lemma CompareStep(email: string, s: State, code: string, wrong: string)
    requires CodeLive(email, s, code) && code != "" && wrong !in {"", code} && s.calls.passed > 0
    ensures var t := Step(email, s, Compare(wrong));
            && CodeLive(email, t, code) && t.compared == s.compared + 1 && t.issued == s.issued
            && t.calls == s.calls.(passed := s.calls.passed - 1)
  {
  }

  lemma {:induction false} CompareAll(email: string, s: State, code: string, wrong: string, k: nat)
    requires CodeLive(email, s, code) && code != "" && wrong !in {"", code} && k <= s.calls.passed
    ensures var t := Run(email, s, Runs.Repeat(Compare(wrong), k));
            && CodeLive(email, t, code) && t.compared == s.compared + k && t.issued == s.issued
            && t.calls == s.calls.(passed := s.calls.passed - k)
  {
    if k > 0 {
      CompareAll(email, s, code, wrong, k - 1);
      CompareStep(email, Run(email, s, Runs.Repeat(Compare(wrong), k - 1)), code, wrong);
      Runs.RunAppend(Machine(email), s, Runs.Repeat(Compare(wrong), k - 1), Compare(wrong));
    }
  }

  /** Everybody inside the gate submits a wrong code. */
  lemma AllCompare(email: string, s: State, code: string, wrong: string, count: nat, total: nat)
    returns (actions: seq<Action>)
    requires Ready(email, s, code, count, total) && code != "" && wrong !in {"", code}
    ensures Own(actions) && Run(email, s, actions).compared == total && Run(email, s, actions).issued == s.issued
  {
    var xs, ys := Runs.Repeat(Open, s.calls.opening), Runs.Repeat(Compare(wrong), total);
    OpenAll(email, s, code, s.calls.opening);
    CompareAll(email, Run(email, s, xs), code, wrong, total);
    Runs.RunConcat(Machine(email), s, xs, ys);
    actions := xs + ys;
  }

  /** A code that was stored this instant. */
  predicate JustStored(email: string, s: State, code: string) {
    && CodeLive(email, s, code) && s.issuedAt == s.store.now && s.compared == 0 && CounterOk(email, s.store)
    && s.store.entries[OtpCode(email)].deadline == Some(s.issuedAt + OTP_TTL * SECOND)
    && s.counter == RunningCounter(email, s.store)
    && s.inside == s.calls.opening + s.calls.passed && s.clearing == s.calls.verified
  }

  /** What the running counter has left is used, and if it runs out before the code
      does, so is a new one. */
  lemma UseWindows(email: string, s: State, code: string) returns (actions: seq<Action>, t: State, count: nat)
    requires JustStored(email, s, code)
    ensures Own(actions) && t == Run(email, s, actions) && t.issued == s.issued
    ensures Ready(email, t, code, count, Limit(s) - MAX_ATTEMPTS * s.clearing) && t.calls.verified == s.clearing
  {
    if s.counter.None? {
      actions, t := Enter(email, s, code, 0, s.inside, MAX_ATTEMPTS);
      count := MAX_ATTEMPTS;
    } else {
      var c := s.counter.value;
      count := c.count + LeftOver(s);
      actions, t := UseUp(email, s, code);
      if !OneWindow(s) {
        var wait := Tick(c.ends.value - s.store.now);
        var s1 := Step(email, t, wait);
        assert Ready(email, s1, code, 0, s.inside + LeftOver(s));
        var ys, s2 := Enter(email, s1, code, 0, s.inside + LeftOver(s), MAX_ATTEMPTS);
        Runs.RunAround(Machine(email), s, actions, wait, ys);
        actions, t, count := actions + [wait] + ys, s2, MAX_ATTEMPTS;
      }
    }
  }

  lemma UseUp(email: string, s: State, code: string) returns (actions: seq<Action>, t: State)
    requires JustStored(email, s, code) && s.counter.Some?
    ensures Own(actions) && t == Run(email, s, actions) && Frame(email, s, t) && SameDeadline(email, s, t)
    ensures Ready(email, t, code, s.counter.value.count + LeftOver(s), s.inside + LeftOver(s))
  {
    actions, t := [], s;
    if LeftOver(s) > 0 {
      actions, t := Enter(email, s, code, s.counter.value.count, s.inside, LeftOver(s));
    }
  }

  lemma LimitAttained(email: string, s: State, code: string, wrong: string) returns (rest: seq<Action>)
    requires JustStored(email, s, code) && code != "" && wrong !in {"", code}
    ensures Own(rest) && Run(email, s, rest).compared == Limit(s) && Run(email, s, rest).issued == s.issued
  {
    var xs, s1, n := UseWindows(email, s, code);
    var ys, s2, m := ClearAndEnter(email, s1, code, n, Limit(s) - MAX_ATTEMPTS * s.clearing, s.clearing);
    var zs := AllCompare(email, s2, code, wrong, m, Limit(s));
    Runs.RunConcat(Machine(email), s, xs, ys);
    Runs.RunConcat(Machine(email), s, xs + ys, zs);
    rest := xs + ys + zs;
  }

  /** However the run goes on, at most n codes are compared with the one stored last. */
  ghost predicate NeverMore(email: string, s: State, n: nat) {
    forall rest: seq<Action> ::
      (forall a :: a in rest ==> Unrelated(email, a)) && Run(email, s, rest).issued == s.issued ==>
        Run(email, s, rest).compared <= n
  }

  /** Exactly how many codes can be compared with the one that is stored now, in any
      interleaving. */
  lemma OverlappingLimitIsExact(email: string, now: Time, before: seq<Action>, code: string, n: nat)
    requires code != "" && Run(email, Initial(now), before).dropped > 0
    requires forall a :: a in before ==> Unrelated(email, a)
    ensures var s := Step(email, Run(email, Initial(now), before), StoreCode(Some(code)));
            Limit(s) <= n <==> NeverMore(email, s, n)
  {
    var s0 := Run(email, Initial(now), before);
    var s := Step(email, s0, StoreCode(Some(code)));
    InvRun(email, Initial(now), before);
    InvStep(email, s0, StoreCode(Some(code)));
    if Limit(s) <= n {
      forall rest: seq<Action> |
        (forall a :: a in rest ==> Unrelated(email, a)) && Run(email, s, rest).issued == s.issued
        ensures Run(email, s, rest).compared <= n
      {
        InvRun(email, s, rest);
        HistoryStands(email, s, rest);
      }
    } else {
      assert |code + "x"| > |code|;
      var rest := LimitAttained(email, s, code, code + "x");
    }
  }

  // ---- No bound on overlapping submissions ----------------------------------------------

  /** n submissions come while no code is pending, and then one is issued. */
  function EarlyCrowd(n: nat, code: string): seq<Action> {
    Runs.Repeat(Check, n) + [ClaimCooldown, DropMarker, StoreCode(Some(code))]
  }

  lemma {:induction false} ChecksRun(email: string, now: Time, n: nat)
    ensures Run(email, Initial(now), Runs.Repeat(Check, n)) == Initial(now).(calls := NOBODY.(passed := n))
  {
    if n > 0 {
      ChecksRun(email, now, n - 1);
      Runs.RunAppend(Machine(email), Initial(now), Runs.Repeat(Check, n - 1), Check);
    }
  }

  lemma EarlyCrowdRuns(email: string, now: Time, n: nat, code: string)
    ensures var s := Run(email, Initial(now), EarlyCrowd(n, code));
            CodeLive(email, s, code) && s.compared == 0 && s.calls == NOBODY.(passed := n) && s.issued == 1
  {
    ChecksRun(email, now, n);
    var s, issue := Run(email, Initial(now), Runs.Repeat(Check, n)), [ClaimCooldown, DropMarker, StoreCode(Some(code))];
    Runs.RunConcat(Machine(email), Initial(now), Runs.Repeat(Check, n), issue);
    Runs.Run3(Machine(email), s, ClaimCooldown, DropMarker, StoreCode(Some(code)));
    var s1 := Step(email, s, ClaimCooldown);
    assert s1.won == 1 && s1.calls == s.calls;
    var s2 := Step(email, s1, DropMarker);
    assert s2.dropped == 1 && s2.calls == s.calls;
  }

  /** Any number of codes are compared with one OTP although no time passes at all:
      the gate lets submissions through uncounted while no code is pending. */
  lemma EarlyCrowdIsUnbounded(email: string, now: Time, n: nat, code: string, wrong: string)
    requires code != "" && wrong !in {"", code}
    ensures var s := Run(email, Initial(now), EarlyCrowd(n, code) + Runs.Repeat(Compare(wrong), n));
            s.compared == n && s.issued == 1
  {
    EarlyCrowdRuns(email, now, n, code);
    CompareAll(email, Run(email, Initial(now), EarlyCrowd(n, code)), code, wrong, n);
    Runs.RunConcat(Machine(email), Initial(now), EarlyCrowd(n, code), Runs.Repeat(Compare(wrong), n));
  }
}
