// Requests for the published key set while keys are reloaded.  A request lists the
// keys for its cache key, looks at the cache, lists them again for the body and
// stores both.  Every load and store of a slot or of the cache is a step of its own.

module JwksRace {
  import opened Wrappers
  import Runs
  import opened Keys

  /** The moments at which a listing loaded the active and then the previous slot. */
  datatype Span = Span(active: nat, previous: nat)

  /** The kids of one listing and the body of the next, and when each was loaded. */
  datatype Listing = Listing(kids: seq<string>, key: Span, body: seq<Jwk>, list: Span)

  datatype Request =
    | Keying(active: Option<Keyset>, from: nat)
    | Keyed(kids: seq<string>, key: Span)
    | Missed(kids: seq<string>, key: Span)
    | Building(kids: seq<string>, key: Span, active: Option<Keyset>, at: nat)
    | Built(listing: Listing)
    | Answered(key: Span, listing: Listing, until: nat)

  /** `past` holds the slots at every moment so far; the last ones are current.
      `pending` is what the reload in progress has still to store, `todo` the
      configurations still to be loaded; None does not parse. */
  datatype Race = Race(
    past: seq<Slots>, pending: Option<Keyset>, todo: seq<Option<Keyset>>, cache: Option<Listing>,
    requests: map<nat, Request>)

  datatype Action =
    | BeginReload
    | EndReload
    | LoadActive(id: nat)
    | LoadPrevious(id: nat)
    | LookUp(id: nat)
    | StoreBody(id: nat)

  predicate Current(s: Race) {
    s.past != []
  }

  function SlotsOf(s: Race): Slots
    requires Current(s)
  {
    s.past[|s.past| - 1]
  }

  function Kids(s: Slots): seq<string> {
    KidsOf(Published(s))
  }

  predicate ChangesKid(s: Slots, next: Option<Keyset>) {
    s.active.Some? && next.Some? && s.active.value.kid != next.value.kid
  }

  /** There is one writer. */
  predicate Begins(s: Race) {
    s.pending.None? && s.todo != []
  }

  /** A reload stores the previous slot first. */
  function SlotsAfter(s: Race, a: Action): Slots
    requires Current(s)
  {
    var slots := SlotsOf(s);
    match a
    case BeginReload => if Begins(s) && ChangesKid(slots, s.todo[0]) then slots.(previous := slots.active) else slots
    case EndReload => if s.pending.Some? then slots.(active := s.pending) else slots
    case _ => slots
  }

  /** What a request does next, given the slots and the cache at this moment. */
  function Advance(s: Race, r: Request, a: Action): Request
    requires Current(s)
  {
    var slots, now := SlotsOf(s), |s.past| - 1;
    if a.LoadPrevious? && r.Keying? then Keyed(Kids(Slots(r.active, slots.previous)), Span(r.from, now))
    else if a.LookUp? && r.Keyed? then
      if s.cache.Some? && s.cache.value.kids == r.kids then Answered(r.key, s.cache.value, now)
      else Missed(r.kids, r.key)
    else if a.LoadActive? && r.Missed? then Building(r.kids, r.key, slots.active, now)
    else if a.LoadPrevious? && r.Building? then
      Built(Listing(r.kids, r.key, Encode(Published(Slots(r.active, slots.previous))), Span(r.at, now)))
    else if a.StoreBody? && r.Built? then Answered(r.listing.key, r.listing, now)
    else r
  }

  function DoAdvance(s: Race, id: nat, a: Action): (t: Race)
    requires Current(s)
    ensures t == s.(requests := t.requests)
  {
    if id in s.requests then s.(requests := s.requests[id := Advance(s, s.requests[id], a)])
    else if a.LoadActive? then s.(requests := s.requests[id := Keying(SlotsOf(s).active, |s.past| - 1)])
    else s
  }

  function Effect(s: Race, a: Action): (t: Race)
    requires Current(s)
    ensures t.past == s.past
  {
    match a
    case BeginReload => if Begins(s) then s.(pending := s.todo[0], todo := s.todo[1..]) else s
    case EndReload => s.(pending := None)
    case StoreBody(id) =>
      if id in s.requests && s.requests[id].Built? then
        DoAdvance(s, id, a).(cache := Some(s.requests[id].listing))
      else s
    case _ => DoAdvance(s, a.id, a)
  }

  /** Every step takes one moment. */
  function Step(s: Race, a: Action): Race {
    if Current(s) then Effect(s, a).(past := s.past + [SlotsAfter(s, a)]) else s
  }

  function Run(s: Race, actions: seq<Action>): Race {
    Runs.Run(Step, s, actions)
  }

  function Initial(first: Keyset, todo: seq<Option<Keyset>>): Race {
    Race([Slots(Some(first), None)], None, todo, None, map[])
  }

  /** Without interruption the two stores are one reload, and the steps of a request
      are the cached body. */
  lemma StepsRefineServed(s: Race, id: nat)
    requires Current(s) && s.pending.None?
    ensures s.todo != [] ==>
              var t := Step(Step(s, BeginReload), EndReload);
              SlotsOf(t) == Reloaded(SlotsOf(s), s.todo[0]) && t.todo == s.todo[1..] && t.pending.None?
    ensures id !in s.requests ==>
              var t1 := Step(Step(Step(s, LoadActive(id)), LoadPrevious(id)), LookUp(id));
              var t := Step(Step(Step(t1, LoadActive(id)), LoadPrevious(id)), StoreBody(id));
              && t.cache.Some? && id in t.requests && t.requests[id].Answered?
              && Cached(t.cache.value.kids, t.cache.value.body) == Served(SlotsOf(s), CachedOf(s))
              && t.requests[id].listing == t.cache.value
  {
    if id !in s.requests {
      RefinesServed(s, id);
    }
  }

  function CachedOf(s: Race): Option<Cached> {
    if s.cache.Some? then Some(Cached(s.cache.value.kids, s.cache.value.body)) else None
  }

  lemma KeySteps(s: Race, id: nat)
    requires Current(s) && id !in s.requests
    ensures var n, t := |s.past|, Step(Step(s, LoadActive(id)), LoadPrevious(id));
            && Current(t) && SlotsOf(t) == SlotsOf(s) && |t.past| == n + 2 && s.past < t.past
            && t == s.(past := t.past, requests := s.requests[id := Keyed(Kids(SlotsOf(s)), Span(n - 1, n))])
  {
    var s1 := Step(s, LoadActive(id));
    assert SlotsOf(s1) == SlotsOf(s) && s1.requests[id] == Keying(SlotsOf(s).active, |s.past| - 1);
    assert Slots(SlotsOf(s).active, SlotsOf(s).previous) == SlotsOf(s);
  }

  lemma BuildSteps(s: Race, id: nat, kids: seq<string>, key: Span)
    requires Current(s) && id in s.requests && s.requests[id] == Missed(kids, key)
    ensures var n, t := |s.past|, Step(Step(Step(s, LoadActive(id)), LoadPrevious(id)), StoreBody(id));
            var listing := Listing(kids, key, Encode(Published(SlotsOf(s))), Span(n - 1, n));
            && Current(t) && SlotsOf(t) == SlotsOf(s) && |t.past| == n + 3 && s.past < t.past
            && t == s.(past := t.past, cache := Some(listing),
                       requests := s.requests[id := Answered(key, listing, n + 1)])
  {
    var s1 := Step(s, LoadActive(id));
    assert SlotsOf(s1) == SlotsOf(s) && s1.requests[id] == Building(kids, key, SlotsOf(s).active, |s.past| - 1);
    assert Slots(SlotsOf(s).active, SlotsOf(s).previous) == SlotsOf(s);
    var s2 := Step(s1, LoadPrevious(id));
    assert SlotsOf(s2) == SlotsOf(s) && s2.requests[id].Built?;
  }

  lemma RefinesServed(s: Race, id: nat)
    requires Current(s) && id !in s.requests
    ensures var t1 := Step(Step(Step(s, LoadActive(id)), LoadPrevious(id)), LookUp(id));
            var t := Step(Step(Step(t1, LoadActive(id)), LoadPrevious(id)), StoreBody(id));
            && t.cache.Some? && id in t.requests && t.requests[id].Answered?
            && Cached(t.cache.value.kids, t.cache.value.body) == Served(SlotsOf(s), CachedOf(s))
            && t.requests[id].listing == t.cache.value
  {
    KeySteps(s, id);
    var s2 := Step(Step(s, LoadActive(id)), LoadPrevious(id));
    var s3 := Step(s2, LookUp(id));
    if s.cache.Some? && s.cache.value.kids == Kids(SlotsOf(s)) {
      assert s3.requests[id].Answered? && s3.cache == s.cache;
    } else {
      BuildSteps(s3, id, Kids(SlotsOf(s)), s2.requests[id].key);
    }
  }

  // ---- What a request has seen ---------------------------------------------------------------------

  predicate InPast(past: seq<Slots>, w: Span) {
    w.active <= w.previous < |past|
  }

  /** What a listing found that loaded the two slots at these moments. */
  function Seen(past: seq<Slots>, w: Span): Slots
    requires InPast(past, w)
  {
    Slots(past[w.active].active, past[w.previous].previous)
  }

  predicate ListingOk(past: seq<Slots>, l: Listing) {
    && InPast(past, l.key) && InPast(past, l.list) && l.key.previous <= l.list.active
    && l.kids == Kids(Seen(past, l.key)) && l.body == Encode(Published(Seen(past, l.list)))
  }

  predicate KeyOk(past: seq<Slots>, kids: seq<string>, key: Span) {
    InPast(past, key) && kids == Kids(Seen(past, key))
  }

  predicate RequestOk(past: seq<Slots>, r: Request) {
    match r
    case Keying(active, from) => from < |past| && active == past[from].active
    case Keyed(kids, key) => KeyOk(past, kids, key)
    case Missed(kids, key) => KeyOk(past, kids, key)
    case Building(kids, key, active, at) =>
      KeyOk(past, kids, key) && key.previous <= at < |past| && active == past[at].active
    case Built(listing) => ListingOk(past, listing)
    case Answered(key, listing, until) =>
      && KeyOk(past, listing.kids, key) && ListingOk(past, listing)
      && key.previous <= until < |past| && listing.list.previous <= until
  }

  predicate RequestsOk(s: Race) {
    && Current(s)
    && (s.cache.Some? ==> ListingOk(s.past, s.cache.value))
    && (forall id :: id in s.requests ==> RequestOk(s.past, s.requests[id]))
  }

  lemma AdvanceOk(s: Race, r: Request, a: Action)
    requires RequestsOk(s) && RequestOk(s.past, r)
    ensures RequestOk(s.past, Advance(s, r, a))
  {
  }

  /** More moments take nothing away. */
  lemma RequestStaysOk(past: seq<Slots>, longer: seq<Slots>, r: Request)
    requires past <= longer && RequestOk(past, r)
    ensures RequestOk(longer, r)
  {
  }

  lemma RequestsStep(s: Race, a: Action)
    requires RequestsOk(s)
    ensures RequestsOk(Step(s, a))
  {
    EffectOk(s, a);
    var e, t := Effect(s, a), Step(s, a);
    forall id | id in t.requests ensures RequestOk(t.past, t.requests[id]) {
      RequestStaysOk(s.past, t.past, e.requests[id]);
    }
  }

  lemma EffectOk(s: Race, a: Action)
    requires RequestsOk(s)
    ensures RequestsOk(Effect(s, a))
  {
    if !a.BeginReload? && !a.EndReload? && a.id in s.requests {
      AdvanceOk(s, s.requests[a.id], a);
    }
  }

  lemma {:induction false} RequestsRun(first: Keyset, todo: seq<Option<Keyset>>, actions: seq<Action>)
    ensures RequestsOk(Run(Initial(first, todo), actions))
  {
    if actions != [] {
      RequestsRun(first, todo, actions[..|actions| - 1]);
      RequestsStep(Run(Initial(first, todo), actions[..|actions| - 1]), actions[|actions| - 1]);
    }
  }

  // ---- Fresh answers ---------------------------------------------------------------------------------

  /** Each key listed was in its slot at some moment of the request. */
  ghost predicate Fresh(past: seq<Slots>, body: seq<Jwk>, from: nat, to: nat) {
    exists w: Span ::
      InPast(past, w) && from <= w.active && w.previous <= to && body == Encode(Published(Seen(past, w)))
  }

  ghost predicate AllFresh(s: Race) {
    forall id :: id in s.requests && s.requests[id].Answered? ==>
      var r := s.requests[id]; Fresh(s.past, r.listing.body, r.key.active, r.until)
  }

  /** The active key after these reloads. */
  function ActiveAfter(first: Keyset, todo: seq<Option<Keyset>>): Keyset {
    if todo == [] then first
    else
      var last := todo[|todo| - 1];
      if last.Some? then last.value else ActiveAfter(first, todo[..|todo| - 1])
  }

  function KidAfter(first: Keyset, todo: seq<Option<Keyset>>, n: nat): string
    requires n <= |todo|
  {
    ActiveAfter(first, todo[..n]).kid
  }

  /** A kid that was replaced is never loaded again: what to check before a reload. */
  predicate NoKidReturns(first: Keyset, todo: seq<Option<Keyset>>) {
    forall i, j, k :: 0 <= i <= j <= k <= |todo| && KidAfter(first, todo, i) == KidAfter(first, todo, k) ==>
      KidAfter(first, todo, j) == KidAfter(first, todo, k)
  }

  predicate AllNamed(pair: string -> PublicKey, first: Keyset, todo: seq<Option<Keyset>>) {
    Named(pair, first) && forall k :: k in todo && k.Some? ==> Named(pair, k.value)
  }

  predicate SlotsNamed(pair: string -> PublicKey, s: Slots) {
    s.active.Some? && Named(pair, s.active.value) && (s.previous.Some? ==> Named(pair, s.previous.value))
  }

  /** What a slot held before and after a moment, it held at that moment. */
  predicate Unbroken(past: seq<Slots>) {
    forall i, j, k :: 0 <= i <= j <= k < |past| ==>
      && (past[i].active == past[k].active ==> past[j].active == past[k].active)
      && (past[i].previous == past[k].previous ==> past[j].previous == past[k].previous)
  }

  lemma SameKidsSameSlots(pair: string -> PublicKey, s: Slots, t: Slots)
    requires SlotsNamed(pair, s) && SlotsNamed(pair, t) && Kids(s) == Kids(t)
    ensures s == t
  {
    assert |Published(s)| == |Published(t)|;
    assert Kids(s)[0] == s.active.value.kid && Kids(t)[0] == t.active.value.kid;
    if s.previous.Some? {
      assert Kids(s)[1] == s.previous.value.kid && Kids(t)[1] == t.previous.value.kid;
    }
  }

  function Later(m: nat, n: nat): nat {
    if m < n then n else m
  }

  /** A body found in the cache is fresh: either it was listed during the request, or
      its slots had not changed since. */
  lemma HitIsFresh(pair: string -> PublicKey, past: seq<Slots>, r: Request)
    requires r.Answered? && RequestOk(past, r) && Unbroken(past)
    requires forall i :: 0 <= i < |past| ==> SlotsNamed(pair, past[i])
    ensures Fresh(past, r.listing.body, r.key.active, r.until)
  {
    var l := r.listing;
    assert SlotsNamed(pair, Seen(past, l.key)) && SlotsNamed(pair, Seen(past, r.key));
    SameKidsSameSlots(pair, Seen(past, l.key), Seen(past, r.key));
    var w := Span(Later(l.list.active, r.key.active), Later(l.list.previous, r.key.previous));
    assert past[w.active].active == past[l.list.active].active;
    assert past[w.previous].previous == past[l.list.previous].previous;
    assert Seen(past, w) == Seen(past, l.list);
  }

  // ---- While no kid returns ----------------------------------------------------------------------------

  function Done(todo: seq<Option<Keyset>>, s: Race): int {
    |todo| - |s.todo| - if s.pending.Some? then 1 else 0
  }

  /** How far the reloads have come. */
  predicate Progress(first: Keyset, todo: seq<Option<Keyset>>, s: Race) {
    var n := Done(todo, s);
    && Current(s) && 0 <= n && s.todo == todo[|todo| - |s.todo|..]
    && (s.pending.Some? ==> s.pending == todo[n])
    && SlotsOf(s).active == Some(ActiveAfter(first, todo[..n]))
  }

  lemma InitialProgress(first: Keyset, todo: seq<Option<Keyset>>)
    ensures Progress(first, todo, Initial(first, todo))
  {
    assert todo[..0] == [] && todo[0..] == todo;
  }

  lemma ProgressStep(first: Keyset, todo: seq<Option<Keyset>>, s: Race, a: Action)
    requires Progress(first, todo, s)
    ensures Progress(first, todo, Step(s, a))
  {
    if a.BeginReload? && Begins(s) {
      BeginProgress(first, todo, s);
    } else if a.EndReload? && s.pending.Some? {
      EndProgress(first, todo, s);
    }
  }

  lemma BeginProgress(first: Keyset, todo: seq<Option<Keyset>>, s: Race)
    requires Progress(first, todo, s) && Begins(s)
    ensures Progress(first, todo, Step(s, BeginReload))
  {
    var n := Done(todo, s);
    assert todo[..n + 1][..n] == todo[..n] && todo[..n + 1][n] == todo[n];
    assert s.todo[0] == todo[n] && s.todo[1..] == todo[n + 1..];
  }

  lemma EndProgress(first: Keyset, todo: seq<Option<Keyset>>, s: Race)
    requires Progress(first, todo, s) && s.pending.Some?
    ensures Progress(first, todo, Step(s, EndReload))
  {
    var n := Done(todo, s);
    assert todo[..n + 1][..n] == todo[..n] && todo[..n + 1][n] == todo[n];
  }

  function KidsUpTo(first: Keyset, todo: seq<Option<Keyset>>, n: nat): set<string>
    requires n <= |todo|
  {
    {KidAfter(first, todo, n)} + if n == 0 then {} else KidsUpTo(first, todo, n - 1)
  }

  lemma {:induction false} KidIsNew(first: Keyset, todo: seq<Option<Keyset>>, m: nat, n: nat)
    requires NoKidReturns(first, todo) && m <= n < |todo|
    requires KidAfter(first, todo, n) != KidAfter(first, todo, n + 1)
    ensures KidAfter(first, todo, n + 1) !in KidsUpTo(first, todo, m)
  {
    assert KidAfter(first, todo, m) != KidAfter(first, todo, n + 1);
    if m > 0 {
      KidIsNew(first, todo, m - 1, n);
    }
  }

  /** The previous slot has the old key already and the active slot not yet the new one. */
  predicate Changing(s: Race) {
    Current(s) && ChangesKid(SlotsOf(s), s.pending)
  }

  /** Every kid seen in a slot was active at some point, and the active one has not
      yet been in the previous slot unless it is being replaced. */
  predicate KidsOk(first: Keyset, todo: seq<Option<Keyset>>, s: Race) {
    && Progress(first, todo, s)
    && forall i :: 0 <= i < |s.past| ==> KidsOfMomentOk(first, KidsUpTo(first, todo, Done(todo, s)), s, s.past[i])
  }

  predicate KidsOfMomentOk(first: Keyset, kids: set<string>, s: Race, m: Slots) {
    && Current(s) && SlotsOf(s).active.Some?
    && m.active.Some? && m.active.value.kid in kids
    && (m.previous.Some? ==>
          && m.previous.value.kid in kids
          && (m.previous.value.kid == SlotsOf(s).active.value.kid ==> Changing(s))
          && (m.active.value.kid == first.kid ==> m.previous.value.kid == first.kid))
  }

  lemma FirstKidUpTo(first: Keyset, todo: seq<Option<Keyset>>, n: nat)
    requires n <= |todo|
    ensures first.kid in KidsUpTo(first, todo, n)
  {
    assert todo[..0] == [];
  }

  /** What a step does to the slots, when no kid returns: nothing, or the active key
      is copied to the previous slot, or a new kid takes its place. */
  predicate Moves(kids: set<string>, more: set<string>, s: Race, t: Race) {
    && Current(s) && Current(t) && SlotsOf(s).active.Some? && SlotsOf(s).active.value.kid in kids && kids <= more
    && var slots, next := SlotsOf(s), SlotsOf(t);
       || (next == slots && Changing(t) == Changing(s))
       || (next == slots.(previous := slots.active) && !Changing(s) && Changing(t))
       || (&& next == slots.(active := s.pending) && Changing(s) && !Changing(t)
           && s.pending.Some? && s.pending.value.kid !in kids && s.pending.value.kid in more)
  }

  lemma StepMoves(pair: string -> PublicKey, first: Keyset, todo: seq<Option<Keyset>>, s: Race, a: Action)
    requires NoKidReturns(first, todo) && AllNamed(pair, first, todo) && Progress(first, todo, s)
    requires SlotsNamed(pair, SlotsOf(s)) && Progress(first, todo, Step(s, a))
    ensures Moves(KidsUpTo(first, todo, Done(todo, s)), KidsUpTo(first, todo, Done(todo, Step(s, a))), s, Step(s, a))
    ensures SlotsNamed(pair, SlotsAfter(s, a))
  {
    if a.EndReload? && s.pending.Some? {
      EndMoves(pair, first, todo, s);
    }
  }

  lemma EndMoves(pair: string -> PublicKey, first: Keyset, todo: seq<Option<Keyset>>, s: Race)
    requires NoKidReturns(first, todo) && AllNamed(pair, first, todo) && Progress(first, todo, s) && s.pending.Some?
    requires SlotsNamed(pair, SlotsOf(s)) && Progress(first, todo, Step(s, EndReload))
    ensures var t, n := Step(s, EndReload), Done(todo, s);
            Done(todo, t) == n + 1 && Moves(KidsUpTo(first, todo, n), KidsUpTo(first, todo, n + 1), s, t)
    ensures SlotsNamed(pair, SlotsAfter(s, EndReload))
  {
    var n := Done(todo, s);
    assert todo[..n + 1][..n] == todo[..n] && todo[..n + 1][n] == todo[n] && todo[n] in todo;
    if KidAfter(first, todo, n) != KidAfter(first, todo, n + 1) {
      KidIsNew(first, todo, n, n);
    }
  }

  lemma MomentMoves(first: Keyset, kids: set<string>, more: set<string>, s: Race, t: Race, m: Slots)
    requires Moves(kids, more, s, t) && KidsOfMomentOk(first, kids, s, m) && first.kid in kids
    ensures KidsOfMomentOk(first, more, t, m)
    ensures SlotsOf(t).active != SlotsOf(s).active ==> m.active != SlotsOf(t).active
    ensures SlotsOf(t).previous != SlotsOf(s).previous ==> m.previous != SlotsOf(t).previous
    ensures m == SlotsOf(s) ==> KidsOfMomentOk(first, more, t, SlotsOf(t))
  {
  }

  /** When no kid returns, a slot stays as it is or gets a key that it has never held. */
  lemma KidsStep(pair: string -> PublicKey, first: Keyset, todo: seq<Option<Keyset>>, s: Race, a: Action)
    requires NoKidReturns(first, todo) && AllNamed(pair, first, todo) && KidsOk(first, todo, s)
    requires SlotsNamed(pair, SlotsOf(s))
    ensures KidsOk(first, todo, Step(s, a)) && SlotsNamed(pair, SlotsAfter(s, a))
    ensures var slots, next := SlotsOf(s), SlotsAfter(s, a);
            forall i :: 0 <= i < |s.past| ==>
              && (next.active != slots.active ==> s.past[i].active != next.active)
              && (next.previous != slots.previous ==> s.past[i].previous != next.previous)
  {
    var n, t := Done(todo, s), Step(s, a);
    var kids, more := KidsUpTo(first, todo, n), KidsUpTo(first, todo, Done(todo, t));
    ProgressStep(first, todo, s, a);
    FirstKidUpTo(first, todo, n);
    StepMoves(pair, first, todo, s, a);
    forall i | 0 <= i < |s.past|
      ensures KidsOfMomentOk(first, more, t, s.past[i])
      ensures SlotsOf(t).active != SlotsOf(s).active ==> s.past[i].active != SlotsOf(t).active
      ensures SlotsOf(t).previous != SlotsOf(s).previous ==> s.past[i].previous != SlotsOf(t).previous
    {
      MomentMoves(first, kids, more, s, t, s.past[i]);
    }
    MomentMoves(first, kids, more, s, t, SlotsOf(s));
  }

  lemma UnbrokenStep(past: seq<Slots>, next: Slots)
    requires past != [] && Unbroken(past)
    requires var slots := past[|past| - 1];
             forall i :: 0 <= i < |past| ==>
               && (next.active != slots.active ==> past[i].active != next.active)
               && (next.previous != slots.previous ==> past[i].previous != next.previous)
    ensures Unbroken(past + [next])
  {
    var longer, n := past + [next], |past|;
    forall i, j, k | 0 <= i <= j <= k < |longer|
      ensures longer[i].active == longer[k].active ==> longer[j].active == longer[k].active
      ensures longer[i].previous == longer[k].previous ==> longer[j].previous == longer[k].previous
    {
      if k == n && i < n {
        assert longer[i] == past[i] && longer[j] == if j < n then past[j] else next;
      }
    }
  }

  predicate Inv(pair: string -> PublicKey, first: Keyset, todo: seq<Option<Keyset>>, s: Race) {
    && KidsOk(first, todo, s) && Unbroken(s.past)
    && forall i :: 0 <= i < |s.past| ==> SlotsNamed(pair, s.past[i])
  }

  lemma {:induction false} InvRun(
    pair: string -> PublicKey, first: Keyset, todo: seq<Option<Keyset>>, actions: seq<Action>)
    requires NoKidReturns(first, todo) && AllNamed(pair, first, todo)
    ensures Inv(pair, first, todo, Run(Initial(first, todo), actions))
  {
    if actions == [] {
      InitialProgress(first, todo);
    } else {
      var s, a := Run(Initial(first, todo), actions[..|actions| - 1]), actions[|actions| - 1];
      InvRun(pair, first, todo, actions[..|actions| - 1]);
      KidsStep(pair, first, todo, s, a);
      UnbrokenStep(s.past, SlotsAfter(s, a));
    }
  }

  lemma AnswersAreFresh(pair: string -> PublicKey, first: Keyset, todo: seq<Option<Keyset>>, actions: seq<Action>)
    requires NoKidReturns(first, todo) && AllNamed(pair, first, todo)
    ensures AllFresh(Run(Initial(first, todo), actions))
  {
    var s := Run(Initial(first, todo), actions);
    InvRun(pair, first, todo, actions);
    RequestsRun(first, todo, actions);
    forall id | id in s.requests && s.requests[id].Answered?
      ensures Fresh(s.past, s.requests[id].listing.body, s.requests[id].key.active, s.requests[id].until)
    {
      HitIsFresh(pair, s.past, s.requests[id]);
    }
  }

  // ---- When a kid returns --------------------------------------------------------------------------------

  /** n reloads without interruption. */
  function Rounds(n: nat): seq<Action> {
    if n == 0 then [] else Rounds(n - 1) + [BeginReload, EndReload]
  }

  lemma OneRound(s: Race, first: Keyset, todo: seq<Option<Keyset>>)
    requires Progress(first, todo, s) && s.pending.None? && s.todo != []
    ensures var t := Step(Step(s, BeginReload), EndReload);
            && Progress(first, todo, t) && t.pending.None? && Done(todo, t) == Done(todo, s) + 1
            && t.cache == s.cache && t.requests == s.requests
  {
    ProgressStep(first, todo, s, BeginReload);
    ProgressStep(first, todo, Step(s, BeginReload), EndReload);
  }

  lemma {:induction false} RoundsRun(s: Race, first: Keyset, todo: seq<Option<Keyset>>, n: nat)
    requires Progress(first, todo, s) && s.pending.None? && n <= |s.todo|
    ensures var t := Run(s, Rounds(n));
            && Progress(first, todo, t) && t.pending.None? && Done(todo, t) == Done(todo, s) + n
            && t.cache == s.cache && t.requests == s.requests
  {
    if n > 0 {
      RoundsRun(s, first, todo, n - 1);
      var t := Run(s, Rounds(n - 1));
      OneRound(t, first, todo);
      Runs.RunConcat(Step, s, Rounds(n - 1), [BeginReload, EndReload]);
      Runs.RunAppend(Step, t, [], BeginReload);
      Runs.RunAppend(Step, t, [BeginReload], EndReload);
      assert [] + [BeginReload] == [BeginReload] && [BeginReload] + [EndReload] == [BeginReload, EndReload];
    }
  }

  /** The reload that brings this kid back after the j-th. */
  lemma {:induction false} FirstWithKid(
    first: Keyset, todo: seq<Option<Keyset>>, kid: string, j: nat, k: nat) returns (n: nat)
    requires j < k <= |todo| && KidAfter(first, todo, j) != kid && KidAfter(first, todo, k) == kid
    ensures j <= n < k && KidAfter(first, todo, n) != kid && KidAfter(first, todo, n + 1) == kid
    decreases k - j
  {
    if KidAfter(first, todo, j + 1) == kid {
      n := j;
    } else {
      n := FirstWithKid(first, todo, kid, j + 1, k);
    }
  }

  /** A request that loaded the active slot long ago lists it together with a key that
      is just being replaced, and then that key twice. */
  function MixedListing(): seq<Action> {
    [BeginReload, LoadPrevious(0), LookUp(0), LoadActive(0), LoadPrevious(0)]
  }

  /** It stores both, the reload ends, and another request asks. */
  function AskAgain(): seq<Action> {
    [StoreBody(0), EndReload, LoadActive(1), LoadPrevious(1), LookUp(1)]
  }

  lemma MixedListingRuns(s: Race, was: Keyset, k: Keyset)
    requires Current(s) && s.pending.None? && s.cache.None? && s.todo != [] && s.todo[0] == Some(k)
    requires SlotsOf(s).active == Some(was) && was.kid != k.kid
    requires s.requests.Keys == {0} && s.requests[0].Keying? && s.requests[0].active == Some(k)
    ensures var t := Run(s, MixedListing());
            && Current(t) && t.pending == Some(k) && SlotsOf(t) == Slots(Some(was), Some(was)) && t.requests.Keys == {0}
            && t.requests[0].Built? && t.requests[0].listing.kids == Kids(Slots(Some(k), Some(was)))
            && t.requests[0].listing.body == Encode(Published(Slots(Some(was), Some(was))))
  {
    Runs.Run5(Step, s, BeginReload, LoadPrevious(0), LookUp(0), LoadActive(0), LoadPrevious(0));
    var both := Slots(Some(was), Some(was));
    var s1 := Step(s, BeginReload);
    assert SlotsOf(s1) == both && s1.requests == s.requests && s1.cache.None? && s1.pending == Some(k);
    var s2 := Step(s1, LoadPrevious(0));
    assert SlotsOf(s2) == both && s2.requests[0].Keyed?;
    var s3 := Step(s2, LookUp(0));
    assert SlotsOf(s3) == both && s3.requests[0].Missed?;
    var s4 := Step(s3, LoadActive(0));
    assert SlotsOf(s4) == both && s4.requests[0].Building? && s4.requests[0].active == Some(was);
  }

  lemma AskAgainRuns(s: Race, was: Keyset, k: Keyset)
    requires Current(s) && s.pending == Some(k) && SlotsOf(s).previous == Some(was) && was.kid != k.kid
    requires s.requests.Keys == {0} && s.requests[0].Built?
    requires s.requests[0].listing.kids == Kids(Slots(Some(k), Some(was)))
    requires s.requests[0].listing.body == Encode(Published(Slots(Some(was), Some(was))))
    ensures !AllFresh(Run(s, AskAgain()))
  {
    Runs.Run5(Step, s, StoreBody(0), EndReload, LoadActive(1), LoadPrevious(1), LookUp(1));
    var s1 := Step(s, StoreBody(0));
    assert SlotsOf(s1) == SlotsOf(s) && s1.cache == Some(s.requests[0].listing) && s1.pending == Some(k);
    var s2 := Step(s1, EndReload);
    assert SlotsOf(s2) == Slots(Some(k), Some(was)) && s2.cache == s1.cache && 1 !in s2.requests;
    KeySteps(s2, 1);
    HitServesOldKey(s2, Step(Step(s2, LoadActive(1)), LoadPrevious(1)), was, k);
  }

  lemma HitServesOldKey(s: Race, t: Race, was: Keyset, k: Keyset)
    requires Current(s) && SlotsOf(s) == Slots(Some(k), Some(was)) && was.kid != k.kid
    requires |t.past| == |s.past| + 2 && s.past < t.past && SlotsOf(t) == SlotsOf(s)
    requires t.past[|s.past|] == SlotsOf(s)
    requires 1 in t.requests && t.requests[1] == Keyed(Kids(SlotsOf(s)), Span(|s.past| - 1, |s.past|))
    requires t.cache.Some? && t.cache.value.kids == Kids(SlotsOf(s))
    requires t.cache.value.body == Encode(Published(Slots(Some(was), Some(was))))
    ensures !AllFresh(Step(t, LookUp(1)))
  {
    var end, n := Step(t, LookUp(1)), |s.past|;
    assert end.requests[1] == Answered(Span(n - 1, n), t.cache.value, n + 1);
    assert forall m :: n - 1 <= m <= n + 1 ==> end.past[m] == SlotsOf(s);
    assert t.cache.value.body[0].kid == was.kid;
    forall w: Span | InPast(end.past, w) && n - 1 <= w.active && w.previous <= n + 1
      ensures t.cache.value.body != Encode(Published(Seen(end.past, w)))
    {
      assert Encode(Published(Seen(end.past, w)))[0].kid == k.kid;
    }
  }

  /** As soon as a kid returns, there is an interleaving in which a request is answered
      with a key that was in no slot while it ran. */
  lemma ReturningKidServesOldKey(pair: string -> PublicKey, first: Keyset, todo: seq<Option<Keyset>>)
    returns (actions: seq<Action>)
    requires AllNamed(pair, first, todo) && !NoKidReturns(first, todo)
    ensures !AllFresh(Run(Initial(first, todo), actions))
  {
    var i, j, k :| 0 <= i <= j <= k <= |todo| && KidAfter(first, todo, i) == KidAfter(first, todo, k)
                   && KidAfter(first, todo, j) != KidAfter(first, todo, k);
    var n := FirstWithKid(first, todo, KidAfter(first, todo, k), j, k);
    var before, s := WaitForReturn(first, todo, i, n);
    actions := before + MixedListing() + AskAgain();
    ReturningKey(pair, first, todo, i, n);
    MixedListingRuns(s, ActiveAfter(first, todo[..n]), todo[n].value);
    AskAgainRuns(Run(s, MixedListing()), ActiveAfter(first, todo[..n]), todo[n].value);
    Runs.RunConcat(Step, Initial(first, todo), before, MixedListing());
    Runs.RunConcat(Step, Initial(first, todo), before + MixedListing(), AskAgain());
  }

  /** The request loads the active slot after i reloads and waits for n - i more. */
  lemma WaitForReturn(first: Keyset, todo: seq<Option<Keyset>>, i: nat, n: nat)
    returns (actions: seq<Action>, s: Race)
    requires i <= n < |todo|
    ensures s == Run(Initial(first, todo), actions)
    ensures Progress(first, todo, s) && s.pending.None? && Done(todo, s) == n && s.cache.None?
    ensures s.requests.Keys == {0} && s.requests[0].Keying?
    ensures s.requests[0].active == Some(ActiveAfter(first, todo[..i]))
  {
    var s0 := Initial(first, todo);
    InitialProgress(first, todo);
    var xs, s1 := DoRounds(s0, first, todo, i);
    var s2 := Step(s1, LoadActive(0));
    FirstLoad(first, todo, s1, s2);
    var ys, s3 := DoRounds(s2, first, todo, n - i);
    Runs.RunAround(Step, s0, xs, LoadActive(0), ys);
    actions, s := xs + [LoadActive(0)] + ys, s3;
  }

  lemma DoRounds(s: Race, first: Keyset, todo: seq<Option<Keyset>>, n: nat) returns (actions: seq<Action>, t: Race)
    requires Progress(first, todo, s) && s.pending.None? && n <= |s.todo|
    ensures t == Run(s, actions)
    ensures Progress(first, todo, t) && t.pending.None? && Done(todo, t) == Done(todo, s) + n
    ensures t.cache == s.cache && t.requests == s.requests
  {
    RoundsRun(s, first, todo, n);
    actions, t := Rounds(n), Run(s, Rounds(n));
  }

  lemma FirstLoad(first: Keyset, todo: seq<Option<Keyset>>, s: Race, t: Race)
    requires Progress(first, todo, s) && s.pending.None? && 0 !in s.requests && t == Step(s, LoadActive(0))
    ensures Progress(first, todo, t) && t.pending.None? && Done(todo, t) == Done(todo, s) && t.cache == s.cache
    ensures t.requests == s.requests[0 := Keying(Some(ActiveAfter(first, todo[..Done(todo, s)])), |s.past| - 1)]
  {
    ProgressStep(first, todo, s, LoadActive(0));
  }

  /** The key that comes back is the one it was. */
  lemma ReturningKey(pair: string -> PublicKey, first: Keyset, todo: seq<Option<Keyset>>, i: nat, n: nat)
    requires AllNamed(pair, first, todo) && i <= n < |todo|
    requires KidAfter(first, todo, n) != KidAfter(first, todo, n + 1) == KidAfter(first, todo, i)
    ensures todo[n] == Some(ActiveAfter(first, todo[..i]))
  {
    assert todo[..n + 1][..n] == todo[..n] && todo[..n + 1][n] == todo[n] && todo[n] in todo;
    ActiveNamed(pair, first, todo, i);
  }

  lemma {:induction false} ActiveNamed(pair: string -> PublicKey, first: Keyset, todo: seq<Option<Keyset>>, n: nat)
    requires AllNamed(pair, first, todo) && n <= |todo|
    ensures Named(pair, ActiveAfter(first, todo[..n]))
  {
    if n > 0 {
      assert todo[..n][..n - 1] == todo[..n - 1] && todo[n - 1] in todo;
      ActiveNamed(pair, first, todo, n - 1);
    }
  }

  /** Answers are fresh in every interleaving exactly when no kid returns. */
  lemma FreshIffNoKidReturns(pair: string -> PublicKey, first: Keyset, todo: seq<Option<Keyset>>)
    requires AllNamed(pair, first, todo)
    ensures NoKidReturns(first, todo) <==> forall actions: seq<Action> :: AllFresh(Run(Initial(first, todo), actions))
  {
    if NoKidReturns(first, todo) {
      forall actions: seq<Action> ensures AllFresh(Run(Initial(first, todo), actions)) {
        AnswersAreFresh(pair, first, todo, actions);
      }
    } else {
      var actions := ReturningKidServesOldKey(pair, first, todo);
    }
  }

  // ---- One change -------------------------------------------------------------------------------------

  /** The body lists the slots as they were together at some moment of the request. */
  ghost predicate OfOneMoment(past: seq<Slots>, body: seq<Jwk>, from: nat, to: nat) {
    exists m :: from <= m <= to && m < |past| && body == Encode(Published(past[m]))
  }

  ghost predicate AllOfOneMoment(s: Race) {
    forall id :: id in s.requests && s.requests[id].Answered? ==>
      var r := s.requests[id]; OfOneMoment(s.past, r.listing.body, r.key.active, r.until)
  }

  /** The kid changes at most once. */
  predicate OneChange(first: Keyset, todo: seq<Option<Keyset>>) {
    forall i, j :: 0 <= i <= j <= |todo| && KidAfter(first, todo, i) != first.kid ==>
      KidAfter(first, todo, j) == KidAfter(first, todo, i)
  }

  lemma OneChangeNoReturn(first: Keyset, todo: seq<Option<Keyset>>)
    requires OneChange(first, todo)
    ensures NoKidReturns(first, todo)
  {
  }

  predicate IsFirst(first: Keyset, s: Slots) {
    s.active.Some? && s.active.value.kid == first.kid
  }

  predicate SameActive(s: Slots, t: Slots) {
    s.active.Some? && t.active.Some? && s.active.value.kid == t.active.value.kid
  }

  /** The slots go from (first, none) by way of (first, first) to (second, first). */
  predicate Once(first: Keyset, s: Race) {
    && Current(s)
    && (Changing(s) ==> SlotsOf(s).previous.Some?)
    && forall i :: 0 <= i < |s.past| ==>
         && (s.past[i].previous.Some? ==> s.past[i].previous.value.kid == first.kid)
         && (s.past[i].previous.None? ==> IsFirst(first, s.past[i]))
         && (!IsFirst(first, s.past[i]) ==> SameActive(s.past[i], SlotsOf(s)))
         && (IsFirst(first, s.past[i]) && i + 1 < |s.past| && !IsFirst(first, s.past[i + 1]) ==>
               s.past[i].previous.Some?)
  }

  lemma OnceStep(first: Keyset, todo: seq<Option<Keyset>>, s: Race, a: Action)
    requires OneChange(first, todo) && Progress(first, todo, s) && Once(first, s)
    ensures Once(first, Step(s, a))
  {
    var n, t := Done(todo, s), Step(s, a);
    if n < |todo| {
      assert todo[..n + 1][..n] == todo[..n] && todo[..n + 1][n] == todo[n];
      assert KidAfter(first, todo, n) != first.kid ==> KidAfter(first, todo, n + 1) == KidAfter(first, todo, n);
    }
    assert forall i :: 0 <= i < |s.past| ==> t.past[i] == s.past[i];
  }

  lemma {:induction false} OnceRun(first: Keyset, todo: seq<Option<Keyset>>, actions: seq<Action>)
    requires OneChange(first, todo)
    ensures var s := Run(Initial(first, todo), actions); Progress(first, todo, s) && Once(first, s)
  {
    if actions == [] {
      InitialProgress(first, todo);
    } else {
      var s, a := Run(Initial(first, todo), actions[..|actions| - 1]), actions[|actions| - 1];
      OnceRun(first, todo, actions[..|actions| - 1]);
      ProgressStep(first, todo, s, a);
      OnceStep(first, todo, s, a);
    }
  }

  /** The last moment at which the active slot still had its first key. */
  lemma {:induction false} LastFirst(first: Keyset, past: seq<Slots>, x: nat, y: nat) returns (m: nat)
    requires x <= y < |past| && IsFirst(first, past[x])
    ensures x <= m <= y && IsFirst(first, past[m]) && (m < y ==> !IsFirst(first, past[m + 1]))
    decreases y - x
  {
    m := x;
    if x < y && IsFirst(first, past[x + 1]) {
      m := LastFirst(first, past, x + 1, y);
    }
  }

  /** What a listing has seen, the slots held together at some moment of it. */
  lemma SeenAtOnce(pair: string -> PublicKey, first: Keyset, s: Race, w: Span) returns (m: nat)
    requires Once(first, s) && Unbroken(s.past) && InPast(s.past, w)
    requires Named(pair, first) && forall i :: 0 <= i < |s.past| ==> SlotsNamed(pair, s.past[i])
    ensures w.active <= m <= w.previous && s.past[m] == Seen(s.past, w)
  {
    m := w.previous;
    if IsFirst(first, s.past[w.active]) && s.past[w.previous].previous.Some? {
      m := LastFirst(first, s.past, w.active, w.previous);
    }
  }

  lemma AnswersOfOneMoment(pair: string -> PublicKey, first: Keyset, todo: seq<Option<Keyset>>, actions: seq<Action>)
    requires OneChange(first, todo) && AllNamed(pair, first, todo)
    ensures AllOfOneMoment(Run(Initial(first, todo), actions))
  {
    var s := Run(Initial(first, todo), actions);
    OneChangeNoReturn(first, todo);
    AnswersAreFresh(pair, first, todo, actions);
    InvRun(pair, first, todo, actions);
    OnceRun(first, todo, actions);
    forall id | id in s.requests && s.requests[id].Answered?
      ensures var r := s.requests[id]; OfOneMoment(s.past, r.listing.body, r.key.active, r.until)
    {
      var r := s.requests[id];
      var w: Span :| InPast(s.past, w) && r.key.active <= w.active && w.previous <= r.until
                     && r.listing.body == Encode(Published(Seen(s.past, w)));
      var m := SeenAtOnce(pair, first, s, w);
    }
  }

  /** A request misses and loads the active slot for its body. */
  function StartBody(): seq<Action> {
    [LoadActive(0), LoadPrevious(0), LookUp(0), LoadActive(0)]
  }

  lemma StartBodyRuns(first: Keyset, todo: seq<Option<Keyset>>)
    ensures var s := Run(Initial(first, todo), StartBody());
            && Progress(first, todo, s) && s.pending.None? && Done(todo, s) == 0 && s.requests.Keys == {0}
            && s.requests[0].Building? && s.requests[0].active == Some(first)
  {
    var s0, slots := Initial(first, todo), Slots(Some(first), None);
    Runs.Run4(Step, s0, LoadActive(0), LoadPrevious(0), LookUp(0), LoadActive(0));
    InitialProgress(first, todo);
    KeySteps(s0, 0);
    var s2 := Step(Step(s0, LoadActive(0)), LoadPrevious(0));
    var s3 := Step(s2, LookUp(0));
    assert SlotsOf(s3) == slots && s3.requests[0].Missed?;
  }

  /** The rest of the request, after a reload that has put b into the previous slot. */
  lemma EndBodyRuns(s: Race, first: Keyset, b: Keyset)
    requires Current(s) && SlotsOf(s).previous == Some(b) && s.requests.Keys == {0}
    requires s.requests[0].Building? && s.requests[0].active == Some(first)
    ensures var t := Run(s, [LoadPrevious(0), StoreBody(0)]);
            && t.requests.Keys == {0} && t.requests[0].Answered?
            && t.requests[0].listing.body == Encode(Published(Slots(Some(first), Some(b))))
  {
    Runs.RunAppend(Step, s, [], LoadPrevious(0));
    Runs.RunAppend(Step, s, [LoadPrevious(0)], StoreBody(0));
    assert [] + [LoadPrevious(0)] == [LoadPrevious(0)];
    assert [LoadPrevious(0)] + [StoreBody(0)] == [LoadPrevious(0), StoreBody(0)];
    var s1 := Step(s, LoadPrevious(0));
    assert s1.requests[0].Built?;
  }

  /** A request whose two loads for the body have n + 1 reloads between them. */
  function Torn(n: nat): seq<Action> {
    StartBody() + Rounds(n) + [BeginReload, EndReload] + [LoadPrevious(0), StoreBody(0)]
  }

  /** With two changes between its loads a request lists a pair of keys that were never
      published together. */
  lemma TornListing(pair: string -> PublicKey, first: Keyset, todo: seq<Option<Keyset>>, n: nat)
    requires AllNamed(pair, first, todo) && NoKidReturns(first, todo) && n < |todo|
    requires KidAfter(first, todo, n) !in {first.kid, KidAfter(first, todo, n + 1)}
    ensures !AllOfOneMoment(Run(Initial(first, todo), Torn(n)))
  {
    var s0, b := Initial(first, todo), ActiveAfter(first, todo[..n]);
    var s1, xs := Run(s0, StartBody()), StartBody() + Rounds(n);
    StartBodyRuns(first, todo);
    RoundsRun(s1, first, todo, n);
    Runs.RunConcat(Step, s0, StartBody(), Rounds(n));
    var s2 := Run(s1, Rounds(n));
    ChangingRound(s2, first, todo, n);
    Runs.RunConcat(Step, s0, xs, [BeginReload, EndReload]);
    var s3 := Run(s2, [BeginReload, EndReload]);
    EndBodyRuns(s3, first, b);
    Runs.RunConcat(Step, s0, xs + [BeginReload, EndReload], [LoadPrevious(0), StoreBody(0)]);
    InvRun(pair, first, todo, Torn(n));
    NeverTogether(pair, first, b, todo, Run(s3, [LoadPrevious(0), StoreBody(0)]));
  }

  lemma ChangingRound(s: Race, first: Keyset, todo: seq<Option<Keyset>>, n: nat)
    requires Progress(first, todo, s) && s.pending.None? && Done(todo, s) == n < |todo|
    requires KidAfter(first, todo, n) != KidAfter(first, todo, n + 1)
    ensures var t := Run(s, [BeginReload, EndReload]);
            Current(t) && SlotsOf(t).previous == Some(ActiveAfter(first, todo[..n])) && t.requests == s.requests
  {
    assert todo[..n + 1][..n] == todo[..n] && todo[..n + 1][n] == todo[n];
    OneRound(s, first, todo);
    StepsRefineServed(s, 0);
    Runs.RunAppend(Step, s, [], BeginReload);
    Runs.RunAppend(Step, s, [BeginReload], EndReload);
    assert [] + [BeginReload] == [BeginReload] && [BeginReload] + [EndReload] == [BeginReload, EndReload];
  }

  lemma NeverTogether(pair: string -> PublicKey, first: Keyset, b: Keyset, todo: seq<Option<Keyset>>, s: Race)
    requires Inv(pair, first, todo, s) && b.kid != first.kid
    requires s.requests.Keys == {0} && s.requests[0].Answered?
    requires s.requests[0].listing.body == Encode(Published(Slots(Some(first), Some(b))))
    ensures !AllOfOneMoment(s)
  {
    var body := s.requests[0].listing.body;
    assert |body| == 2 && body[0].kid == first.kid && body[1].kid == b.kid;
    forall m | 0 <= m < |s.past| ensures body != Encode(Published(s.past[m])) {
      var other := Encode(Published(s.past[m]));
      assert KidsOfMomentOk(first, KidsUpTo(first, todo, Done(todo, s)), s, s.past[m]);
      assert other[0].kid == s.past[m].active.value.kid;
      assert |other| == 2 ==> other[1].kid == s.past[m].previous.value.kid;
    }
  }

  lemma OneMomentIsFresh(past: seq<Slots>, body: seq<Jwk>, from: nat, to: nat)
    requires OfOneMoment(past, body, from, to)
    ensures Fresh(past, body, from, to)
  {
    var m: nat :| from <= m <= to && m < |past| && body == Encode(Published(past[m]));
    assert InPast(past, Span(m, m)) && Seen(past, Span(m, m)) == past[m];
  }

  /** With two changes there is an interleaving with an answer of no moment. */
  lemma TwoChangesTear(pair: string -> PublicKey, first: Keyset, todo: seq<Option<Keyset>>)
    returns (actions: seq<Action>)
    requires AllNamed(pair, first, todo) && !OneChange(first, todo)
    ensures !AllOfOneMoment(Run(Initial(first, todo), actions))
  {
    if NoKidReturns(first, todo) {
      var i, j :| 0 <= i <= j <= |todo| && KidAfter(first, todo, i) != first.kid
                  && KidAfter(first, todo, j) != KidAfter(first, todo, i);
      assert todo[..0] == [] && KidAfter(first, todo, 0) == first.kid;
      var n := FirstWithKid(first, todo, KidAfter(first, todo, j), i, j);
      TornListing(pair, first, todo, n);
      actions := Torn(n);
    } else {
      actions := ReturningKidServesOldKey(pair, first, todo);
      var s := Run(Initial(first, todo), actions);
      var id :| id in s.requests && s.requests[id].Answered?
                && !Fresh(s.past, s.requests[id].listing.body, s.requests[id].key.active, s.requests[id].until);
      var r := s.requests[id];
      if OfOneMoment(s.past, r.listing.body, r.key.active, r.until) {
        OneMomentIsFresh(s.past, r.listing.body, r.key.active, r.until);
      }
    }
  }

  /** Every answer is the key set of one moment of its request, in every interleaving,
      exactly when the kid changes at most once. */
  lemma OneMomentIffOneChange(pair: string -> PublicKey, first: Keyset, todo: seq<Option<Keyset>>)
    requires AllNamed(pair, first, todo)
    ensures OneChange(first, todo) <==>
            forall actions: seq<Action> :: AllOfOneMoment(Run(Initial(first, todo), actions))
  {
    if OneChange(first, todo) {
      forall actions: seq<Action> ensures AllOfOneMoment(Run(Initial(first, todo), actions)) {
        AnswersOfOneMoment(pair, first, todo, actions);
      }
    } else {
      var actions := TwoChangesTear(pair, first, todo);
    }
  }
}
