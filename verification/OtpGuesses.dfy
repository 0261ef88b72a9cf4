// How many submitted codes can be compared with one issued OTP.  Every request
// is one step and the store does not fail, but for the lost Expire at the end.

module OtpGuesses {
  import opened Wrappers
  import opened TtlStore
  import opened Otp
  import Runs

  const NO_FAULTS := HandlerNet(AttemptNet(Fine, Fine, Fine), VerifyNet(Fine, Fine, Fine), Fine)

  /** An attempt counter that runs out at `ends`. */
  datatype Window = Window(count: nat, ends: Time)

  /** One address.  The fields after the store are history: how many codes were
      issued, when the last one was, the counter that was running at that moment,
      and the comparisons made with that code. */
  datatype State = State(store: Store, issued: nat, issuedAt: Time, window: Option<Window>, compared: nat)

  datatype Action =
    | Tick(d: nat)
    | Request(code: Option<string>)
    | Submit(guess: string, lookup: Lookup)
    | Other(op: Op)

  function Initial(now: Time): State {
    State(Store(map[], now), 0, now, None, 0)
  }

  function RunningWindow(email: string, s: Store): Option<Window> {
    if !s.Live(OtpAttempts(email)) then None
    else
      var e := s.entries[OtpAttempts(email)];
      if e.value.Count? && e.deadline.Some? then Some(Window(e.value.count, e.deadline.value)) else None
  }

  function DoRequest(email: string, s: State, code: Option<string>): State {
    var (store, r) := Issue(s.store, email, code, IssueNet(Fine, Fine, Fine));
    if r.Success? then State(store, s.issued + 1, s.store.now, RunningWindow(email, s.store), 0)
    else s.(store := store)
  }

  /** A submission reaches the comparison when it passes the attempt gate and a
      code is pending. */
  predicate Compares(email: string, s: Store, code: string) {
    var (s1, attempt) := Attempt(s, email, NO_FAULTS.attempt);
    && code != ""
    && (attempt.Success? ==> attempt.value <= MAX_ATTEMPTS)
    && Raw(s1.Get(OtpCode(email))) != ""
  }

  function DoSubmit(email: string, s: State, code: string, lookup: Lookup): State {
    s.(store := VerifyRequest(s.store, email, code, lookup, NO_FAULTS).0,
       compared := if Compares(email, s.store, code) then s.compared + 1 else s.compared)
  }

  function Step(email: string, s: State, a: Action): State {
    match a
    case Tick(d) => s.(store := s.store.Tick(d))
    case Request(code) => DoRequest(email, s, code)
    case Submit(guess, lookup) => DoSubmit(email, s, guess, lookup)
    case Other(op) => s.(store := Apply(s.store, op))
  }

  function Machine(email: string): (State, Action) -> State {
    (s, a) => Step(email, s, a)
  }

  function Run(email: string, s: State, actions: seq<Action>): State {
    Runs.Run(Machine(email), s, actions)
  }

  predicate Unrelated(email: string, a: Action) {
    a.Other? ==> a.op.key != OtpCode(email) && a.op.key != OtpAttempts(email)
                 && a.op.key != OtpCooldown(email) && a.op.key != OtpRedeemed(email)
  }

  // ---- The bound --------------------------------------------------------------

  function Capped(n: nat): nat {
    if n < MAX_ATTEMPTS then n else MAX_ATTEMPTS
  }

  /** What the window that was open when the code was issued has left. */
  function LeftOver(s: State): nat {
    if s.window.None? then 0 else MAX_ATTEMPTS - Capped(s.window.value.count)
  }

  /** That window lasts as long as the code. */
  predicate OneWindow(s: State) {
    s.window.Some? && s.issuedAt + OTP_TTL * SECOND <= s.window.value.ends
  }

  function Limit(s: State): nat {
    LeftOver(s) + if OneWindow(s) then 0 else MAX_ATTEMPTS
  }

  /** A running counter was started at most 300 s ago and is at least one. */
  predicate CounterOk(email: string, s: Store) {
    OtpAttempts(email) in s.entries ==>
      var e := s.entries[OtpAttempts(email)];
      e.value.Count? && 1 <= e.value.count && e.deadline.Some? && e.deadline.value <= s.now + OTP_TTL * SECOND
  }

  predicate CodeOk(email: string, s: State) {
    && s.issuedAt <= s.store.now
    && (s.window.Some? ==> 1 <= s.window.value.count)
    && (OtpCode(email) in s.store.entries ==>
          s.store.entries[OtpCode(email)].deadline == Some(s.issuedAt + OTP_TTL * SECOND))
  }

  predicate InFirstWindow(s: State, count: nat, ends: Time) {
    && s.window.Some? && ends == s.window.value.ends && s.window.value.count <= count
    && s.compared <= Capped(count) - Capped(s.window.value.count)
  }

  predicate InNextWindow(s: State, count: nat, ends: Time) {
    && FirstWindowOver(s) && s.issuedAt + OTP_TTL * SECOND <= ends
    && s.compared <= LeftOver(s) + Capped(count)
  }

  predicate FirstWindowOver(s: State) {
    s.window.Some? ==> s.window.value.ends <= s.store.now
  }

  /** While the code is live, guesses fall in the window that was open when it was
      issued, in none, or in the next one. */
  predicate GuessesOk(email: string, s: State) {
    s.store.Live(OtpCode(email)) ==>
      if !s.store.Live(OtpAttempts(email)) then FirstWindowOver(s) && s.compared <= LeftOver(s)
      else
        var e := s.store.entries[OtpAttempts(email)];
        e.value.Count? && e.deadline.Some? &&
        (InFirstWindow(s, e.value.count, e.deadline.value) || InNextWindow(s, e.value.count, e.deadline.value))
  }

  predicate Inv(email: string, s: State) {
    CounterOk(email, s.store) && CodeOk(email, s) && GuessesOk(email, s) && s.compared <= Limit(s)
  }

  /** Counting the attempt makes room for the comparison that may follow it. */
  lemma AttemptKeepsGuesses(email: string, s: State)
    requires Inv(email, s)
    ensures var (s1, attempt) := Attempt(s.store, email, NO_FAULTS.attempt);
            && attempt.Success? && s1.now == s.store.now
            && s1.Live(OtpCode(email)) == s.store.Live(OtpCode(email))
            && (OtpCode(email) in s1.entries <==> OtpCode(email) in s.store.entries)
            && (OtpCode(email) in s1.entries ==> s1.entries[OtpCode(email)] == s.store.entries[OtpCode(email)])
            && Inv(email, s.(store := s1))
            && (s1.Live(OtpCode(email)) && attempt.value <= MAX_ATTEMPTS ==>
                  Inv(email, s.(store := s1, compared := s.compared + 1)))
  {
  }

  lemma SubmitKeepsInv(email: string, s: State, code: string, lookup: Lookup)
    requires Inv(email, s)
    ensures Inv(email, DoSubmit(email, s, code, lookup))
  {
    var (s1, attempt) := Attempt(s.store, email, NO_FAULTS.attempt);
    if code != "" {
      assert attempt.Success?;
      AttemptKeepsGuesses(email, s);
    }
  }

  lemma RequestKeepsInv(email: string, s: State, code: Option<string>)
    requires Inv(email, s)
    ensures Inv(email, DoRequest(email, s, code))
  {
  }

  lemma InvStep(email: string, s: State, a: Action)
    requires Inv(email, s) && Unrelated(email, a)
    ensures Inv(email, Step(email, s, a))
  {
    match a
    case Tick(d) =>
    case Request(code) => RequestKeepsInv(email, s, code);
    case Submit(guess, lookup) => SubmitKeepsInv(email, s, guess, lookup);
    case Other(op) =>
  }

  lemma {:induction false} InvRun(email: string, s: State, actions: seq<Action>)
    requires Inv(email, s) && forall a :: a in actions ==> Unrelated(email, a)
    ensures Inv(email, Run(email, s, actions))
  {
    if actions != [] {
      InvRun(email, s, actions[..|actions| - 1]);
      InvStep(email, Run(email, s, actions[..|actions| - 1]), actions[|actions| - 1]);
    }
  }

  /** At most nine codes are ever compared with one issued OTP, and at most five
      if no attempt counter was running when it was issued. */
  lemma AtMostNineGuesses(email: string, now: Time, actions: seq<Action>)
    requires forall a :: a in actions ==> Unrelated(email, a)
    ensures var s := Run(email, Initial(now), actions);
            s.compared <= 9 && (s.window.None? ==> s.compared <= 5)
  {
    InvRun(email, Initial(now), actions);
  }

  /** Until another code is issued, the history of the last issue stands. */
  lemma {:induction false} HistoryStands(email: string, s: State, actions: seq<Action>)
    ensures var t := Run(email, s, actions);
            s.issued <= t.issued && (t.issued == s.issued ==> t.issuedAt == s.issuedAt && t.window == s.window)
  {
    if actions != [] {
      HistoryStands(email, s, actions[..|actions| - 1]);
    }
  }

  // ---- The bound is attained --------------------------------------------------

  /** A code other than `wrong` is pending. */
  predicate Pending(email: string, s: State, wrong: string) {
    s.store.Live(OtpCode(email)) && Raw(s.store.Get(OtpCode(email))) !in {"", wrong} && wrong != ""
  }

  function Counting(email: string, s: Store, n: nat, deadline: Option<Time>): Store {
    Store(s.entries[OtpAttempts(email) := Entry(Count(n), deadline)], s.now)
  }

  predicate Ahead(deadline: Option<Time>, now: Time) {
    deadline.Some? ==> now < deadline.value
  }

  /** A wrong guess with no counter running opens a 300 s window. */
  lemma FirstWrongGuess(email: string, s: State, wrong: string)
    requires Pending(email, s, wrong) && !s.store.Live(OtpAttempts(email))
    ensures DoSubmit(email, s, wrong, LookupFailed) ==
            s.(store := Counting(email, s.store, 1, Some(s.store.now + OTP_TTL * SECOND)), compared := s.compared + 1)
  {
    var key := OtpAttempts(email);
    var s1 := Attempt(s.store, email, NO_FAULTS.attempt).0;
    assert s1 == Counting(email, s.store, 1, Some(s.store.now + OTP_TTL * SECOND));
    assert s1.Get(OtpCode(email)) == s.store.Get(OtpCode(email));
  }

  lemma NextWrongGuess(email: string, s: State, wrong: string, n: nat, deadline: Option<Time>)
    requires Pending(email, s, wrong) && 1 <= n < MAX_ATTEMPTS
    requires OtpAttempts(email) in s.store.entries && Ahead(deadline, s.store.now)
    requires s.store.entries[OtpAttempts(email)] == Entry(Count(n), deadline)
    ensures DoSubmit(email, s, wrong, LookupFailed) ==
            s.(store := Counting(email, s.store, n + 1, deadline), compared := s.compared + 1)
  {
    var s1 := Attempt(s.store, email, NO_FAULTS.attempt).0;
    assert s1 == Counting(email, s.store, n + 1, deadline);
    assert s1.Get(OtpCode(email)) == s.store.Get(OtpCode(email));
  }

  /** The state after i wrong guesses in a running window. */
  function AfterGuesses(email: string, s: State, n: nat, deadline: Option<Time>, i: nat): State {
    s.(store := Counting(email, s.store, n + i, deadline), compared := s.compared + i)
  }

  lemma GuessStep(email: string, s: State, wrong: string, n: nat, deadline: Option<Time>, i: nat)
    requires Pending(email, s, wrong) && 1 <= n && n + i < MAX_ATTEMPTS && Ahead(deadline, s.store.now)
    ensures Step(email, AfterGuesses(email, s, n, deadline, i), Submit(wrong, LookupFailed)) ==
            AfterGuesses(email, s, n, deadline, i + 1)
  {
    var t := AfterGuesses(email, s, n, deadline, i);
    NextWrongGuess(email, t, wrong, n + i, deadline);
    assert Counting(email, t.store, n + i + 1, deadline) == Counting(email, s.store, n + i + 1, deadline);
  }

  lemma {:induction false} GuessRun(email: string, s: State, a: Action, n: nat, deadline: Option<Time>, k: nat)
    requires forall i: nat :: i < k ==>
      Step(email, AfterGuesses(email, s, n, deadline, i), a) == AfterGuesses(email, s, n, deadline, i + 1)
    ensures Run(email, AfterGuesses(email, s, n, deadline, 0), Runs.Repeat(a, k)) ==
        AfterGuesses(email, s, n, deadline, k)
  {
    if k > 0 {
      GuessRun(email, s, a, n, deadline, k - 1);
      Runs.RunAppend(Machine(email), AfterGuesses(email, s, n, deadline, 0), Runs.Repeat(a, k - 1), a);
    }
  }

  /** Further wrong guesses in the window are compared up to the fifth. */
  lemma WrongGuesses(email: string, s: State, wrong: string, n: nat, deadline: Option<Time>, k: nat)
    requires Pending(email, s, wrong) && n + k <= MAX_ATTEMPTS && 1 <= n
    requires OtpAttempts(email) in s.store.entries && Ahead(deadline, s.store.now)
    requires s.store.entries[OtpAttempts(email)] == Entry(Count(n), deadline)
    ensures Run(email, s, Runs.Repeat(Submit(wrong, LookupFailed), k)) == AfterGuesses(email, s, n, deadline, k)
  {
    forall i: nat | i < k
      ensures Step(email, AfterGuesses(email, s, n, deadline, i), Submit(wrong, LookupFailed)) ==
              AfterGuesses(email, s, n, deadline, i + 1)
    {
      GuessStep(email, s, wrong, n, deadline, i);
    }
    GuessRun(email, s, Submit(wrong, LookupFailed), n, deadline, k);
    assert AfterGuesses(email, s, n, deadline, 0) == s by {
      assert Counting(email, s.store, n, deadline) == s.store;
    }
  }

  /** A code that was issued this instant. */
  predicate JustIssued(email: string, s: State, code: string) {
    && s.issuedAt == s.store.now && s.compared == 0 && code != ""
    && OtpCode(email) in s.store.entries
    && s.store.entries[OtpCode(email)] == Entry(Text(code), Some(s.issuedAt + OTP_TTL * SECOND))
    && s.window == RunningWindow(email, s.store) && CounterOk(email, s.store)
  }

  lemma IssueIsJustIssued(email: string, s: State, code: string)
    requires Inv(email, s) && code != "" && DoRequest(email, s, Some(code)).issued == s.issued + 1
    ensures JustIssued(email, DoRequest(email, s, Some(code)), code)
  {
  }

  /** A submission that opens a window, and `more` of them in it. */
  function OpenWindow(a: Action, more: nat): seq<Action> {
    [a] + Runs.Repeat(a, more)
  }

  lemma WindowOpened(email: string, s: State, wrong: string, more: nat)
    requires Pending(email, s, wrong) && !s.store.Live(OtpAttempts(email)) && 1 + more <= MAX_ATTEMPTS
    ensures var t := Run(email, s, OpenWindow(Submit(wrong, LookupFailed), more));
            t.compared == s.compared + 1 + more && t.issued == s.issued
  {
    var a := Submit(wrong, LookupFailed);
    FirstWrongGuess(email, s, wrong);
    var s1 := Step(email, s, a);
    WrongGuesses(email, s1, wrong, 1, Some(s.store.now + OTP_TTL * SECOND), more);
    Runs.RunCons(Machine(email), s, a, Runs.Repeat(a, more));
  }

  /** The guesses the first window has left. */
  lemma FirstWindowUsedUp(email: string, s: State, code: string, wrong: string)
    requires JustIssued(email, s, code) && wrong !in {"", code} && s.window.Some?
    ensures var t := Run(email, s, Runs.Repeat(Submit(wrong, LookupFailed), LeftOver(s)));
            && t.compared == LeftOver(s) && t.issued == s.issued && t.store.now == s.store.now
            && OtpCode(email) in t.store.entries && t.store.entries[OtpCode(email)] == s.store.entries[OtpCode(email)]
            && OtpAttempts(email) in t.store.entries
            && t.store.entries[OtpAttempts(email)].deadline == Some(s.window.value.ends)
  {
    var w := s.window.value;
    if LeftOver(s) > 0 {
      WrongGuesses(email, s, wrong, w.count, Some(w.ends), LeftOver(s));
    }
  }

  lemma LimitAttained(email: string, s: State, code: string, wrong: string) returns (rest: seq<Action>)
    requires JustIssued(email, s, code) && wrong !in {"", code}
    ensures forall a :: a in rest ==> Unrelated(email, a)
    ensures Run(email, s, rest).compared == Limit(s) && Run(email, s, rest).issued == s.issued
  {
    var a, more: nat := Submit(wrong, LookupFailed), MAX_ATTEMPTS - 1;
    if s.window.None? {
      rest := OpenWindow(a, more);
      WindowOpened(email, s, wrong, more);
    } else {
      rest := Runs.Repeat(a, LeftOver(s));
      FirstWindowUsedUp(email, s, code, wrong);
      if !OneWindow(s) {
        rest := NextWindowUsedUp(email, s, rest, code, wrong, more);
      }
    }
  }

  lemma NextWindowUsedUp(email: string, s: State, before: seq<Action>, code: string, wrong: string, more: nat)
    returns (rest: seq<Action>)
    requires wrong !in {"", code} && code != "" && 1 + more <= MAX_ATTEMPTS && s.window.Some? && !OneWindow(s)
    requires forall a :: a in before ==> Unrelated(email, a)
    requires var t := Run(email, s, before);
             && t.store.now == s.issuedAt && s.window.value.ends > s.issuedAt
             && OtpCode(email) in t.store.entries && OtpAttempts(email) in t.store.entries
             && t.store.entries[OtpCode(email)] == Entry(Text(code), Some(s.issuedAt + OTP_TTL * SECOND))
             && t.store.entries[OtpAttempts(email)].deadline == Some(s.window.value.ends)
    ensures forall a :: a in rest ==> Unrelated(email, a)
    ensures Run(email, s, rest).compared == Run(email, s, before).compared + 1 + more
    ensures Run(email, s, rest).issued == Run(email, s, before).issued
  {
    var a, wait := Submit(wrong, LookupFailed), Tick(s.window.value.ends - s.issuedAt);
    var t := Run(email, s, before);
    WindowOpened(email, Step(email, t, wait), wrong, more);
    Runs.RunConcat(Machine(email), s, before, [wait] + OpenWindow(a, more));
    Runs.RunCons(Machine(email), t, wait, OpenWindow(a, more));
    rest := before + ([wait] + OpenWindow(a, more));
  }

  /** Exactly how many codes can be compared with the one that is issued now, if requests
      do not overlap: what the open window has left, and five more unless that window
      outlasts the code. */
  lemma GuessLimitIsExact(email: string, now: Time, before: seq<Action>, code: string, n: nat)
    requires code != "" && forall a :: a in before ==> Unrelated(email, a)
    requires var s0 := Run(email, Initial(now), before); Step(email, s0, Request(Some(code))).issued == s0.issued + 1
    ensures var s := Step(email, Run(email, Initial(now), before), Request(Some(code)));
            Limit(s) <= n <==> NeverMore(email, s, n)
  {
    var s0 := Run(email, Initial(now), before);
    var s := Step(email, s0, Request(Some(code)));
    InvRun(email, Initial(now), before);
    InvStep(email, s0, Request(Some(code)));
    if Limit(s) <= n {
      forall rest: seq<Action> |
        (forall a :: a in rest ==> Unrelated(email, a)) && Run(email, s, rest).issued == s.issued
        ensures Run(email, s, rest).compared <= n
      {
        InvRun(email, s, rest);
        HistoryStands(email, s, rest);
      }
    } else {
      IssueIsJustIssued(email, s0, code);
      assert |code + "x"| > |code|;
      var rest := LimitAttained(email, s, code, code + "x");
    }
  }

  /** However the run goes on, at most n codes are compared with the one issued last. */
  ghost predicate NeverMore(email: string, s: State, n: nat) {
    forall rest: seq<Action> ::
      (forall a :: a in rest ==> Unrelated(email, a)) && Run(email, s, rest).issued == s.issued ==>
        Run(email, s, rest).compared <= n
  }

  /** The guard, readable when the code is requested: no counter is running, or it
      is used up, or it lasts as long as the code will. */
  predicate KeepsFive(email: string, s: Store) {
    var w := RunningWindow(email, s);
    w.None? || MAX_ATTEMPTS <= w.value.count || s.now + OTP_TTL * SECOND <= w.value.ends
  }

  /** The documented five guesses hold for a code exactly when the guard does. */
  lemma FiveGuessesIff(email: string, now: Time, before: seq<Action>, code: string)
    requires code != "" && forall a :: a in before ==> Unrelated(email, a)
    requires var s0 := Run(email, Initial(now), before); Step(email, s0, Request(Some(code))).issued == s0.issued + 1
    ensures var s0 := Run(email, Initial(now), before);
            KeepsFive(email, s0.store) <==> NeverMore(email, Step(email, s0, Request(Some(code))), MAX_ATTEMPTS)
  {
    GuessLimitIsExact(email, now, before, code, MAX_ATTEMPTS);
  }

  // ---- Nine happens --------------------------------------------------------------

  /** One guess at a first code, then a wait while that window stays open. */
  function Prelude(first: string, wrong: string): seq<Action> {
    [Request(Some(first))] + ([Submit(wrong, LookupFailed)] + [Tick(100 * SECOND)])
  }

  lemma PreludeRuns(email: string, first: string, wrong: string)
    requires wrong !in {"", first} && first != ""
    ensures var s := Run(email, Initial(0), Prelude(first, wrong));
            && RunningWindow(email, s.store) == Some(Window(1, 300 * SECOND)) && s.store.now == 100 * SECOND
            && !s.store.Live(OtpCooldown(email))
  {
    var s1 := Step(email, Initial(0), Request(Some(first)));
    assert Pending(email, s1, wrong) && s1.store.entries[OtpCooldown(email)] == Entry(Sentinel, Some(60 * SECOND));
    FirstWrongGuess(email, s1, wrong);
    Runs.RunCons(Machine(email), Initial(0), Request(Some(first)),
                 [Submit(wrong, LookupFailed)] + [Tick(100 * SECOND)]);
    Runs.RunCons(Machine(email), s1, Submit(wrong, LookupFailed), [Tick(100 * SECOND)]);
    Runs.RunAppend(Machine(email), Step(email, s1, Submit(wrong, LookupFailed)), [], Tick(100 * SECOND));
    assert [] + [Tick(100 * SECOND)] == [Tick(100 * SECOND)];
  }

  /** The bound of nine cannot be improved: four guesses fall in the window that
      was open when the code was issued and five in the next one. */
  lemma NineGuessesHappen(email: string, first: string, second: string, wrong: string)
    requires wrong !in {"", first, second} && first != "" && second != ""
    ensures exists run: seq<Action> ::
              (forall x :: x in run ==> Unrelated(email, x)) && Run(email, Initial(0), run).compared == 9
  {
    var prelude := Prelude(first, wrong);
    PreludeRuns(email, first, wrong);
    InvRun(email, Initial(0), prelude);
    var s0 := Run(email, Initial(0), prelude);
    var s := Step(email, s0, Request(Some(second)));
    IssueIsJustIssued(email, s0, second);
    var rest := LimitAttained(email, s, second, wrong);
    Runs.RunAppend(Machine(email), Initial(0), prelude, Request(Some(second)));
    Runs.RunConcat(Machine(email), Initial(0), prelude + [Request(Some(second))], rest);
    var run := prelude + [Request(Some(second))] + rest;
    assert Run(email, Initial(0), run).compared == Limit(s);
  }

  // ---- A counter without a deadline ------------------------------------------------

  /** A used-up counter that never runs out. */
  predicate Stuck(email: string, s: Store) {
    && OtpAttempts(email) in s.entries
    && var e := s.entries[OtpAttempts(email)];
       e.value.Count? && MAX_ATTEMPTS <= e.value.count && e.deadline.None?
  }

  /** However the run goes on, no submitted code is compared with anything. */
  ghost predicate LockedOut(email: string, s: State) {
    forall actions: seq<Action>, guess: string ::
      (forall a :: a in actions ==> Unrelated(email, a)) ==> !Compares(email, Run(email, s, actions).store, guess)
  }

  lemma StuckStep(email: string, s: State, a: Action)
    requires Stuck(email, s.store) && Unrelated(email, a)
    ensures Stuck(email, Step(email, s, a).store)
  {
  }

  lemma {:induction false} StuckRun(email: string, s: State, actions: seq<Action>)
    requires Stuck(email, s.store) && forall a :: a in actions ==> Unrelated(email, a)
    ensures Stuck(email, Run(email, s, actions).store)
  {
    if actions != [] {
      StuckRun(email, s, actions[..|actions| - 1]);
      StuckStep(email, Run(email, s, actions[..|actions| - 1]), actions[|actions| - 1]);
    }
  }

  /** A new code, requested when everything with a deadline has lapsed. */
  function StartAfresh(d: nat, code: string): seq<Action> {
    [Tick(d)] + [Request(Some(code))]
  }

  lemma AfreshCompares(email: string, s: State, d: nat, code: string)
    requires code != "" && !Stuck(email, s.store)
    requires !s.store.Tick(d).Live(OtpCooldown(email))
    requires OtpAttempts(email) in s.store.entries && s.store.entries[OtpAttempts(email)].deadline.Some? ==>
               !s.store.Tick(d).Live(OtpAttempts(email))
    ensures Compares(email, Run(email, s, StartAfresh(d, code)).store, code)
  {
    Runs.RunCons(Machine(email), s, Tick(d), [Request(Some(code))]);
    var s1 := Step(email, s, Tick(d));
    Runs.RunAppend(Machine(email), s1, [], Request(Some(code)));
    assert [] + [Request(Some(code))] == [Request(Some(code))];
    var s2 := Step(email, s1, Request(Some(code)));
    assert s2.store.Get(OtpCode(email)) == Some(Text(code));
    assert Attempt(s2.store, email, NO_FAULTS.attempt).0.Get(OtpCode(email)) == Some(Text(code));
  }

  /** The state in which an address is refused for good, however often new codes are
      requested and however long it waits. */
  lemma LockedOutIff(email: string, s: State)
    requires OtpCooldown(email) in s.store.entries ==> s.store.entries[OtpCooldown(email)].deadline.Some?
    ensures LockedOut(email, s) <==> Stuck(email, s.store)
  {
    if Stuck(email, s.store) {
      forall actions: seq<Action>, guess: string | forall a :: a in actions ==> Unrelated(email, a)
        ensures !Compares(email, Run(email, s, actions).store, guess)
      {
        StuckRun(email, s, actions);
      }
    } else {
      var d := Longest(s.store, OtpCooldown(email), OtpAttempts(email));
      AfreshCompares(email, s, d, "x");
      assert forall a :: a in StartAfresh(d, "x") ==> Unrelated(email, a);
    }
  }

  /** A wait that outlasts both deadlines. */
  function Longest(s: Store, j: Key, k: Key): nat {
    DeadlineOf(s, j) + DeadlineOf(s, k)
  }

  function DeadlineOf(s: Store, k: Key): Time {
    if k in s.entries && s.entries[k].deadline.Some? then s.entries[k].deadline.value else 0
  }

  /** The store loses the deadline of the first attempt. */
  const EXPIRE_LOST := HandlerNet(AttemptNet(Fine, Fine, Refused), VerifyNet(Fine, Fine, Fine), Fine)

  /** One lost Expire and four more wrong guesses lock the address out. */
  lemma LostExpireLocksOut(email: string, s: State, wrong: string)
    requires Pending(email, s, wrong) && !s.store.Live(OtpAttempts(email))
    requires OtpCooldown(email) in s.store.entries ==> s.store.entries[OtpCooldown(email)].deadline.Some?
    ensures var s1 := s.(store := VerifyRequest(s.store, email, wrong, LookupFailed, EXPIRE_LOST).0);
            LockedOut(email, Run(email, s1, Runs.Repeat(Submit(wrong, LookupFailed), MAX_ATTEMPTS - 1)))
  {
    var store := Attempt(s.store, email, EXPIRE_LOST.attempt).0;
    assert store == Counting(email, s.store, 1, None) && store.Get(OtpCode(email)) == s.store.Get(OtpCode(email));
    var s1 := s.(store := store);
    assert VerifyRequest(s.store, email, wrong, LookupFailed, EXPIRE_LOST).0 == store;
    WrongGuesses(email, s1, wrong, 1, None, MAX_ATTEMPTS - 1);
    LockedOutIff(email, AfterGuesses(email, s1, 1, None, MAX_ATTEMPTS - 1));
  }
}
