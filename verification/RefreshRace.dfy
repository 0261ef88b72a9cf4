// Refreshes, revocations and introspections of any number of tokens at once.  The
// denylist is read and written by separate store operations, so every one of
// them is a step of its own.

module RefreshRace {
  import opened Wrappers
  import opened TtlStore
  import Denylist
  import Runs

  /** What a refresh has read: the number and the time of its token read, and of
      its family read; `last` is the request that had written the family's entry. */
  datatype Reads = Reads(
    jti: Id, family: Id, read: nat, readAt: Time, seen: nat, seenAt: Time, last: Option<nat>)

  /** One request.  A refresh whose write fails, or that finds no lifetime left,
      succeeds without a write.  A refresh of a denied token blames the family: it
      measures the lifetime left and writes the family's entry. */
  datatype Flight =
    | Parsed(jti: Id, family: Id)
    | JtiRead(jti: Id, family: Id, read: nat, readAt: Time)
    | Checked(got: Reads)
    | Measured(got: Reads, remaining: nat)
    | Succeeded(got: Reads, written: Option<nat>)
    | Caught(jti: Id, family: Id)
    | Blaming(jti: Id, family: Id, remaining: nat)
    | Blamed(jti: Id, family: Id, at: nat)
    | Introspected(jti: Id, read: nat, readAt: Time, active: bool)
    | Refused

  /** The last two fields are history: the first denylist write of each token, and
      the request that wrote each family's entry last. */
  datatype State = State(store: Store, flights: map<nat, Flight>, step: nat, denied: map<Id, nat>, blamer: map<Id, nat>)

  /** `lag` is how long before its store write a revoke request computed the
      remaining lifetime. */
  datatype Action =
    | Tick(d: nat)
    | Parse(id: nat, jti: Id, family: Id)
    | ReadJti(id: nat)
    | ReadFamily(id: nat)
    | Measure(id: nat)
    | Write(id: nat, net: Net)
    | MeasureFamily(id: nat)
    | WriteFamily(id: nat, net: Net)
    | RevokeWrite(revoked: Id, lag: nat, reply: Net)
    | Introspect(id: nat, presented: Id)
    | Other(op: Op)

  function Record(denied: map<Id, nat>, jti: Id, step: nat): map<Id, nat> {
    if jti in denied then denied else denied[jti := step]
  }

  function DoReadJti(s: State, id: nat, f: Flight): State
    requires f.Parsed?
  {
    s.(flights := s.flights[id := if s.store.Live(RevokedJti(f.jti)) then Caught(f.jti, f.family)
                                  else JtiRead(f.jti, f.family, s.step, s.store.now)])
  }

  function DoReadFamily(s: State, id: nat, f: Flight): State
    requires f.JtiRead?
  {
    s.(flights := s.flights[id := if f.family.Id? && s.store.Live(RevokedFamily(f.family)) then Flight.Refused
                                  else Checked(ReadsOf(s, f))])
  }

  function ReadsOf(s: State, f: Flight): Reads
    requires f.JtiRead?
  {
    Reads(f.jti, f.family, f.read, f.readAt, s.step, s.store.now,
          if f.family in s.blamer then Some(s.blamer[f.family]) else None)
  }

  function DoMeasure(expOf: Id -> Time, s: State, id: nat, r: Reads): State {
    s.(flights := s.flights[id := if s.store.now < expOf(r.jti) then Measured(r, expOf(r.jti) - s.store.now)
                                  else Succeeded(r, None)])
  }

  function DoWrite(s: State, id: nat, f: Flight, net: Net): State
    requires f.Measured?
  {
    if net.Refused? then s.(flights := s.flights[id := Succeeded(f.got, None)])
    else
      s.(store := Denylist.StoreRevoked(s.store, f.got.jti, f.remaining, net).0,
         flights := s.flights[id := Succeeded(f.got, Some(s.step))],
         denied := Record(s.denied, f.got.jti, s.step))
  }

  function DoMeasureFamily(expOf: Id -> Time, s: State, id: nat, f: Flight): State
    requires f.Caught?
  {
    s.(flights := s.flights[id := if f.family.Id? && s.store.now < expOf(f.jti)
                                  then Blaming(f.jti, f.family, expOf(f.jti) - s.store.now) else Flight.Refused])
  }

  function DoWriteFamily(s: State, id: nat, f: Flight, net: Net): State
    requires f.Blaming?
  {
    if net.Refused? then s.(flights := s.flights[id := Flight.Refused])
    else
      s.(store := Denylist.StoreRevokedFamily(s.store, f.family, f.remaining, net).0,
         flights := s.flights[id := Blamed(f.jti, f.family, s.step)],
         blamer := s.blamer[f.family := id])
  }

  function DoRevoke(expOf: Id -> Time, s: State, jti: Id, lag: nat, net: Net): State {
    if !net.Refused? && jti.Id? && lag <= s.store.now && s.store.now - lag < expOf(jti) then
      s.(store := Denylist.StoreRevoked(s.store, jti, expOf(jti) - (s.store.now - lag), net).0,
         denied := Record(s.denied, jti, s.step))
    else s
  }

  function DoIntrospect(s: State, id: nat, jti: Id): State {
    s.(flights := s.flights[id := Introspected(jti, s.step, s.store.now, !s.store.Live(RevokedJti(jti)))])
  }

  /** A step that is not enabled changes nothing. */
  function Effect(expOf: Id -> Time, s: State, a: Action): State {
    match a
    case Tick(d) => s.(store := s.store.Tick(d))
    case Parse(id, jti, family) =>
      if id !in s.flights && jti.Id? && s.store.now < expOf(jti)
          then s.(flights := s.flights[id := Parsed(jti, family)])
      else s
    case ReadJti(id) => if id in s.flights && s.flights[id].Parsed? then DoReadJti(s, id, s.flights[id]) else s
    case ReadFamily(id) => if id in s.flights && s.flights[id].JtiRead? then DoReadFamily(s, id, s.flights[id]) else s
    case Measure(id) =>
      if id in s.flights && s.flights[id].Checked? then DoMeasure(expOf, s, id, s.flights[id].got) else s
    case Write(id, net) => if id in s.flights && s.flights[id].Measured? then DoWrite(s, id, s.flights[id], net) else s
    case MeasureFamily(id) =>
      if id in s.flights && s.flights[id].Caught? then DoMeasureFamily(expOf, s, id, s.flights[id]) else s
    case WriteFamily(id, net) =>
      if id in s.flights && s.flights[id].Blaming? then DoWriteFamily(s, id, s.flights[id], net) else s
    case RevokeWrite(jti, lag, net) => DoRevoke(expOf, s, jti, lag, net)
    case Introspect(id, jti) => if id !in s.flights && jti.Id? then DoIntrospect(s, id, jti) else s
    case Other(op) => s.(store := Apply(s.store, op))
  }

  function Step(expOf: Id -> Time, s: State, a: Action): State {
    Effect(expOf, s, a).(step := s.step + 1)
  }

  function Machine(expOf: Id -> Time): (State, Action) -> State {
    (s, a) => Step(expOf, s, a)
  }

  function Run(expOf: Id -> Time, s: State, actions: seq<Action>): State {
    Runs.Run(Machine(expOf), s, actions)
  }

  function Initial(now: Time): State {
    State(Store(map[], now), map[], 0, map[], map[])
  }

  predicate Unrelated(a: Action) {
    a.Other? ==> !a.op.key.RevokedJti? && !a.op.key.RevokedFamily?
  }

  // ---- The invariant ------------------------------------------------------------------------

  /** The request read that its token is not denied, and when it did. */
  predicate ReadUndenied(f: Flight) {
    f.JtiRead? || HasSeen(f) || (f.Introspected? && f.active)
  }

  predicate HasSeen(f: Flight) {
    f.Checked? || f.Measured? || f.Succeeded?
  }

  function JtiOf(f: Flight): Id {
    match f
    case Parsed(jti, _) => jti
    case JtiRead(jti, _, _, _) => jti
    case Checked(r) => r.jti
    case Measured(r, _) => r.jti
    case Succeeded(r, _) => r.jti
    case Caught(jti, _) => jti
    case Blaming(jti, _, _) => jti
    case Blamed(jti, _, _) => jti
    case Introspected(jti, _, _, _) => jti
    case Refused => NoId
  }

  function ReadStep(f: Flight): nat
    requires ReadUndenied(f)
  {
    if f.JtiRead? || f.Introspected? then f.read else f.got.read
  }

  function ReadTime(f: Flight): Time
    requires ReadUndenied(f)
  {
    if f.JtiRead? || f.Introspected? then f.readAt else f.got.readAt
  }

  predicate Wrote(f: Flight) {
    f.Succeeded? && f.written.Some?
  }

  /** The entry lasts into the last second before `exp`. */
  predicate Reaches(s: Store, key: Key, exp: Time) {
    key in s.entries && s.entries[key].deadline.Some? && exp < s.entries[key].deadline.value + SECOND
  }

  predicate DeniedOk(expOf: Id -> Time, s: State) {
    forall jti :: jti in s.denied ==>
      jti.Id? && s.denied[jti] < s.step && Reaches(s.store, RevokedJti(jti), expOf(jti))
  }

  /** Every denylist entry is on record, and so is the request behind every family entry. */
  predicate EntriesRecorded(s: State) {
    && (forall k :: k in s.store.entries && k.RevokedJti? ==> k.jti in s.denied)
    && (forall k :: k in s.store.entries && k.RevokedFamily? ==> k.family in s.blamer)
  }

  predicate BlamersOk(expOf: Id -> Time, s: State) {
    forall family :: family in s.blamer ==>
      && s.blamer[family] in s.flights
      && var b := s.flights[s.blamer[family]];
         b.Blamed? && b.family == family && b.at < s.step && Reaches(s.store, RevokedFamily(family), expOf(b.jti))
  }

  /** A read of "not denied" after a denial fell in the token's last second. */
  predicate ReadOk(expOf: Id -> Time, s: State, f: Flight)
    requires ReadUndenied(f)
  {
    && ReadStep(f) < s.step && ReadTime(f) <= s.store.now
    && (JtiOf(f) in s.denied && s.denied[JtiOf(f)] <= ReadStep(f) ==> expOf(JtiOf(f)) < ReadTime(f) + SECOND)
  }

  predicate FlightOk(expOf: Id -> Time, s: State, f: Flight) {
    && (!f.Refused? ==> JtiOf(f).Id?)
    && (ReadUndenied(f) ==> ReadOk(expOf, s, f))
    && (f.Measured? ==> expOf(f.got.jti) <= s.store.now + f.remaining && 0 < f.remaining)
    && (f.Blaming? ==> f.family.Id? && expOf(f.jti) <= s.store.now + f.remaining && 0 < f.remaining)
    && (HasSeen(f) ==> f.got.seen < s.step && f.got.seenAt <= s.store.now)
    && (Wrote(f) ==> f.got.read < f.written.value && f.got.jti in s.denied && s.denied[f.got.jti] <= f.written.value)
    && (f.Blamed? ==>
          f.family.Id? && f.family in s.blamer && s.blamer[f.family] in s.flights
          && s.flights[s.blamer[f.family]].Blamed? && f.at <= s.flights[s.blamer[f.family]].at)
  }

  /** A family read that passed over an entry came in the last second of the token
      whose replay wrote it. */
  predicate SeenOk(expOf: Id -> Time, s: State, r: Reads) {
    r.last.Some? ==>
      && r.last.value in s.flights
      && var b := s.flights[r.last.value];
         b.Blamed? && b.family == r.family && b.at < r.seen && expOf(b.jti) < r.seenAt + SECOND
  }

  /** The entry passed over is the last one written before the read. */
  predicate LastSeen(s: State, b: Flight, r: Reads)
    requires b.Blamed?
  {
    b.family == r.family && b.at < r.seen ==>
      && r.last.Some? && r.last.value in s.flights && s.flights[r.last.value].Blamed?
      && b.at <= s.flights[r.last.value].at
  }

  predicate FamilyReadsOk(expOf: Id -> Time, s: State) {
    && (forall j :: j in s.flights && HasSeen(s.flights[j]) ==> SeenOk(expOf, s, s.flights[j].got))
    && (forall i, j :: i in s.flights && j in s.flights && s.flights[i].Blamed? && HasSeen(s.flights[j]) ==>
          LastSeen(s, s.flights[i], s.flights[j].got))
  }

  predicate Inv(expOf: Id -> Time, s: State) {
    && DeniedOk(expOf, s) && EntriesRecorded(s) && BlamersOk(expOf, s)
    && (forall i :: i in s.flights ==> FlightOk(expOf, s, s.flights[i]))
    && FamilyReadsOk(expOf, s)
  }

  // ---- It is kept -----------------------------------------------------------------------------

  /** The step moves on the requests in `ids`, none of which has blamed a family. */
  ghost predicate Advances(s: State, t: State, ids: set<nat>) {
    && t.step == s.step + 1 && s.store.now <= t.store.now
    && (forall i :: i !in ids ==> (i in s.flights <==> i in t.flights))
    && (forall i :: i !in ids && i in s.flights ==> t.flights[i] == s.flights[i])
    && (forall i :: i in ids && i in s.flights ==> !s.flights[i].Blamed?)
    && (forall i :: i in ids ==> i in t.flights)
  }

  ghost predicate SameEntries(s: Store, t: Store, but: Key) {
    forall k: Key :: (k.RevokedJti? || k.RevokedFamily?) && k != but ==>
      && (k in s.entries <==> k in t.entries)
      && (k in s.entries ==> s.entries[k] == t.entries[k])
  }

  /** The step writes no denylist entry, or the one of token `jti`. */
  ghost predicate Moves(expOf: Id -> Time, s: State, t: State, ids: set<nat>, jti: Id) {
    && Advances(s, t, ids) && t.blamer == s.blamer
    && (forall i :: i in ids ==> !t.flights[i].Blamed?)
    && SameEntries(s.store, t.store, RevokedJti(jti))
    && if jti.NoId? then t.denied == s.denied && RevokedJti(jti) !in t.store.entries
       else t.denied == Record(s.denied, jti, s.step) && Reaches(t.store, RevokedJti(jti), expOf(jti))
  }

  lemma FlightStaysOk(expOf: Id -> Time, s: State, t: State, ids: set<nat>, jti: Id, f: Flight)
    requires BlamersOk(expOf, s) && Moves(expOf, s, t, ids, jti) && FlightOk(expOf, s, f)
    ensures FlightOk(expOf, t, f)
  {
  }

  /** A family read that is made now. */
  predicate FreshSeen(expOf: Id -> Time, s: State, r: Reads) {
    && r.seen == s.step && r.seenAt == s.store.now
    && r.last == (if r.family in s.blamer then Some(s.blamer[r.family]) else None)
    && (r.last.Some? && r.last.value in s.flights && s.flights[r.last.value].Blamed? ==>
          expOf(s.flights[r.last.value].jti) < s.store.now + SECOND)
  }

  ghost predicate SeenBefore(s: State, i: nat, r: Reads) {
    i in s.flights && HasSeen(s.flights[i]) && s.flights[i].got == r
  }

  lemma SeenStaysOk(expOf: Id -> Time, s: State, t: State, ids: set<nat>, r: Reads)
    requires Advances(s, t, ids) && BlamersOk(expOf, s)
    requires SeenOk(expOf, s, r) || FreshSeen(expOf, s, r)
    ensures SeenOk(expOf, t, r)
  {
    if FreshSeen(expOf, s, r) && r.last.Some? {
      assert s.blamer[r.family] == r.last.value;
    }
  }

  lemma LastStaysSeen(expOf: Id -> Time, s: State, t: State, ids: set<nat>, b: Flight, r: Reads)
    requires Advances(s, t, ids) && BlamersOk(expOf, s) && b.Blamed? && FlightOk(expOf, s, b)
    requires LastSeen(s, b, r) || FreshSeen(expOf, s, r)
    ensures LastSeen(t, b, r)
  {
  }

  lemma MovesKeepFamilyReads(expOf: Id -> Time, s: State, t: State, ids: set<nat>, jti: Id)
    requires Inv(expOf, s) && Moves(expOf, s, t, ids, jti)
    requires forall i :: i in ids && HasSeen(t.flights[i]) ==>
               SeenBefore(s, i, t.flights[i].got) || FreshSeen(expOf, s, t.flights[i].got)
    ensures FamilyReadsOk(expOf, t)
  {
    forall j | j in t.flights && HasSeen(t.flights[j]) ensures SeenOk(expOf, t, t.flights[j].got) {
      SeenStaysOk(expOf, s, t, ids, t.flights[j].got);
    }
    forall i, j | i in t.flights && j in t.flights && t.flights[i].Blamed? && HasSeen(t.flights[j])
      ensures LastSeen(t, t.flights[i], t.flights[j].got)
    {
      assert i !in ids && t.flights[i] == s.flights[i] && FlightOk(expOf, s, s.flights[i]);
      LastStaysSeen(expOf, s, t, ids, t.flights[i], t.flights[j].got);
    }
  }

  lemma MovesKeepInv(expOf: Id -> Time, s: State, t: State, ids: set<nat>, jti: Id)
    requires Inv(expOf, s) && Moves(expOf, s, t, ids, jti)
    requires forall i :: i in ids ==> FlightOk(expOf, t, t.flights[i])
    requires forall i :: i in ids && HasSeen(t.flights[i]) ==>
               SeenBefore(s, i, t.flights[i].got) || FreshSeen(expOf, s, t.flights[i].got)
    ensures Inv(expOf, t)
  {
    forall i | i in t.flights ensures FlightOk(expOf, t, t.flights[i]) {
      if i !in ids {
        FlightStaysOk(expOf, s, t, ids, jti, s.flights[i]);
      }
    }
    MovesKeepFamilyReads(expOf, s, t, ids, jti);
    assert BlamersOk(expOf, t) by {
      forall family | family in t.blamer ensures t.blamer[family] !in ids {}
    }
  }

  /** The state after a step with this effect. */
  function Next(s: State): State {
    s.(step := s.step + 1)
  }

  lemma ReadJtiMoves(expOf: Id -> Time, s: State, t: State, id: nat, f: Flight)
    requires id in s.flights && s.flights[id] == f && f.Parsed? && FlightOk(expOf, s, f)
    requires t == Next(DoReadJti(s, id, f)) && RevokedJti(NoId) !in s.store.entries
    requires f.jti in s.denied ==> Reaches(s.store, RevokedJti(f.jti), expOf(f.jti))
    ensures Moves(expOf, s, t, {id}, NoId) && FlightOk(expOf, t, t.flights[id])
  {
  }

  lemma ReadJtiKeepsInv(expOf: Id -> Time, s: State, t: State, id: nat, f: Flight)
    requires Inv(expOf, s) && id in s.flights && s.flights[id] == f && f.Parsed?
    requires t == Next(DoReadJti(s, id, f))
    ensures Inv(expOf, t)
  {
    ReadJtiMoves(expOf, s, t, id, f);
    MovesKeepInv(expOf, s, t, {id}, NoId);
  }

  lemma ReadFamilyMoves(expOf: Id -> Time, s: State, t: State, id: nat, f: Flight)
    requires id in s.flights && s.flights[id] == f && f.JtiRead? && FlightOk(expOf, s, f)
    requires t == Next(DoReadFamily(s, id, f)) && RevokedJti(NoId) !in s.store.entries
    requires f.family in s.blamer && s.blamer[f.family] in s.flights && s.flights[s.blamer[f.family]].Blamed? ==>
               s.flights[s.blamer[f.family]].family.Id?
               && Reaches(s.store, RevokedFamily(f.family), expOf(s.flights[s.blamer[f.family]].jti))
               && s.flights[s.blamer[f.family]].family == f.family
    ensures Moves(expOf, s, t, {id}, NoId) && FlightOk(expOf, t, t.flights[id])
    ensures HasSeen(t.flights[id]) ==> FreshSeen(expOf, s, t.flights[id].got)
  {
  }

  lemma ReadFamilyKeepsInv(expOf: Id -> Time, s: State, t: State, id: nat, f: Flight)
    requires Inv(expOf, s) && id in s.flights && s.flights[id] == f && f.JtiRead?
    requires t == Next(DoReadFamily(s, id, f))
    ensures Inv(expOf, t)
  {
    if f.family in s.blamer {
      assert FlightOk(expOf, s, s.flights[s.blamer[f.family]]);
    }
    ReadFamilyMoves(expOf, s, t, id, f);
    MovesKeepInv(expOf, s, t, {id}, NoId);
  }

  lemma IntrospectKeepsInv(expOf: Id -> Time, s: State, t: State, id: nat, jti: Id)
    requires Inv(expOf, s) && id !in s.flights && jti.Id?
    requires t == Next(DoIntrospect(s, id, jti))
    ensures Inv(expOf, t)
  {
    assert jti in s.denied ==> Reaches(s.store, RevokedJti(jti), expOf(jti));
    MovesKeepInv(expOf, s, t, {id}, NoId);
  }

  lemma MeasureKeepsInv(expOf: Id -> Time, s: State, t: State, id: nat, r: Reads)
    requires Inv(expOf, s) && id in s.flights && s.flights[id] == Checked(r)
    requires t == Next(DoMeasure(expOf, s, id, r))
    ensures Inv(expOf, t)
  {
    assert FlightOk(expOf, s, s.flights[id]);
    MovesKeepInv(expOf, s, t, {id}, NoId);
  }

  lemma MeasureFamilyKeepsInv(expOf: Id -> Time, s: State, t: State, id: nat, f: Flight)
    requires Inv(expOf, s) && id in s.flights && s.flights[id] == f && f.Caught?
    requires t == Next(DoMeasureFamily(expOf, s, id, f))
    ensures Inv(expOf, t)
  {
    assert FlightOk(expOf, s, f);
    MovesKeepInv(expOf, s, t, {id}, NoId);
  }

  lemma ParseKeepsInv(expOf: Id -> Time, s: State, t: State, id: nat, jti: Id, family: Id)
    requires Inv(expOf, s) && id !in s.flights && jti.Id?
    requires t == Next(s.(flights := s.flights[id := Parsed(jti, family)]))
    ensures Inv(expOf, t)
  {
    MovesKeepInv(expOf, s, t, {id}, NoId);
  }

  /** Steps that leave the requests and the denylist alone. */
  lemma IdleKeepsInv(expOf: Id -> Time, s: State, t: State, store: Store)
    requires Inv(expOf, s) && s.store.now <= store.now
    requires SameEntries(s.store, store, RevokedJti(NoId)) && RevokedJti(NoId) !in store.entries
    requires t == Next(s.(store := store))
    ensures Inv(expOf, t)
  {
    MovesKeepInv(expOf, s, t, {}, NoId);
  }

  lemma WriteMoves(expOf: Id -> Time, s: State, t: State, id: nat, f: Flight, net: Net)
    requires id in s.flights && s.flights[id] == f && f.Measured? && FlightOk(expOf, s, f)
    requires t == Next(DoWrite(s, id, f, net)) && RevokedJti(NoId) !in s.store.entries
    requires f.got.jti in s.denied ==> s.denied[f.got.jti] < s.step
    ensures Moves(expOf, s, t, {id}, if net.Refused? then NoId else f.got.jti) && FlightOk(expOf, t, t.flights[id])
  {
  }

  lemma WriteKeepsInv(expOf: Id -> Time, s: State, t: State, id: nat, f: Flight, net: Net)
    requires Inv(expOf, s) && id in s.flights && s.flights[id] == f && f.Measured?
    requires t == Next(DoWrite(s, id, f, net))
    ensures Inv(expOf, t)
  {
    WriteMoves(expOf, s, t, id, f, net);
    MovesKeepInv(expOf, s, t, {id}, if net.Refused? then NoId else f.got.jti);
  }

  lemma RevokeKeepsInv(expOf: Id -> Time, s: State, t: State, jti: Id, lag: nat, net: Net)
    requires Inv(expOf, s) && !net.Refused? && jti.Id? && lag <= s.store.now && s.store.now - lag < expOf(jti)
    requires t == Next(DoRevoke(expOf, s, jti, lag, net))
    ensures Inv(expOf, t)
  {
    MovesKeepInv(expOf, s, t, {}, jti);
  }

  // ---- Blaming a family -------------------------------------------------------------------------

  /** Request id writes the entry of its family. */
  ghost predicate Blames(expOf: Id -> Time, s: State, t: State, id: nat) {
    && id in s.flights && s.flights[id].Blaming?
    && var f := s.flights[id];
       && t.flights == s.flights[id := Blamed(f.jti, f.family, s.step)] && t.blamer == s.blamer[f.family := id]
       && t.step == s.step + 1 && t.store.now == s.store.now && t.denied == s.denied
       && SameEntries(s.store, t.store, RevokedFamily(f.family))
       && Reaches(t.store, RevokedFamily(f.family), expOf(f.jti))
  }

  lemma BlameKeepsFlight(expOf: Id -> Time, s: State, t: State, id: nat, f: Flight)
    requires BlamersOk(expOf, s) && Blames(expOf, s, t, id) && FlightOk(expOf, s, f)
    ensures FlightOk(expOf, t, f)
  {
    assert t.flights[id].Blamed? && t.flights[id].at == s.step;
    if f.Blamed? && f.family != s.flights[id].family {
      assert s.blamer[f.family] != id;
    }
  }

  lemma BlameKeepsReads(expOf: Id -> Time, s: State, t: State, id: nat)
    requires Inv(expOf, s) && Blames(expOf, s, t, id)
    ensures FamilyReadsOk(expOf, t)
  {
    forall j | j in t.flights && HasSeen(t.flights[j]) ensures SeenOk(expOf, t, t.flights[j].got) {
      assert t.flights[j] == s.flights[j];
      SeenStaysOk(expOf, s, t, {id}, s.flights[j].got);
    }
    forall i, j | i in t.flights && j in t.flights && t.flights[i].Blamed? && HasSeen(t.flights[j])
      ensures LastSeen(t, t.flights[i], t.flights[j].got)
    {
      assert t.flights[j] == s.flights[j] && FlightOk(expOf, s, s.flights[j]);
      if i != id {
        assert FlightOk(expOf, s, s.flights[i]);
        LastStaysSeen(expOf, s, t, {id}, s.flights[i], s.flights[j].got);
      }
    }
  }

  lemma BlameKeepsEntries(expOf: Id -> Time, s: State, t: State, id: nat)
    requires Inv(expOf, s) && Blames(expOf, s, t, id)
    ensures DeniedOk(expOf, t) && EntriesRecorded(t) && BlamersOk(expOf, t)
  {
    forall family | family in t.blamer && family != s.flights[id].family ensures t.blamer[family] != id {}
  }

  lemma BlameKeepsInv(expOf: Id -> Time, s: State, t: State, id: nat)
    requires Inv(expOf, s) && Blames(expOf, s, t, id)
    ensures Inv(expOf, t)
  {
    BlameKeepsEntries(expOf, s, t, id);
    BlameKeepsReads(expOf, s, t, id);
    forall i | i in t.flights ensures FlightOk(expOf, t, t.flights[i]) {
      if i == id {
        assert FlightOk(expOf, s, s.flights[id]);
      } else {
        BlameKeepsFlight(expOf, s, t, id, s.flights[i]);
      }
    }
  }

  lemma WriteFamilyKeepsInv(expOf: Id -> Time, s: State, t: State, id: nat, f: Flight, net: Net)
    requires Inv(expOf, s) && id in s.flights && s.flights[id] == f && f.Blaming?
    requires t == Next(DoWriteFamily(s, id, f, net))
    ensures Inv(expOf, t)
  {
    if net.Refused? {
      MovesKeepInv(expOf, s, t, {id}, NoId);
    } else {
      assert FlightOk(expOf, s, f);
      BlameKeepsInv(expOf, s, t, id);
    }
  }

  // ---- Every step, enabled or not -----------------------------------------------------------------

  lemma ParseStep(expOf: Id -> Time, s: State, id: nat, jti: Id, family: Id)
    requires Inv(expOf, s)
    ensures Inv(expOf, Step(expOf, s, Parse(id, jti, family)))
  {
    if id !in s.flights && jti.Id? && s.store.now < expOf(jti) {
      ParseKeepsInv(expOf, s, Step(expOf, s, Parse(id, jti, family)), id, jti, family);
    } else {
      IdleKeepsInv(expOf, s, Step(expOf, s, Parse(id, jti, family)), s.store);
    }
  }

  lemma ReadJtiStep(expOf: Id -> Time, s: State, id: nat)
    requires Inv(expOf, s)
    ensures Inv(expOf, Step(expOf, s, ReadJti(id)))
  {
    if id in s.flights && s.flights[id].Parsed? {
      ReadJtiKeepsInv(expOf, s, Step(expOf, s, ReadJti(id)), id, s.flights[id]);
    } else {
      IdleKeepsInv(expOf, s, Step(expOf, s, ReadJti(id)), s.store);
    }
  }

  lemma ReadFamilyStep(expOf: Id -> Time, s: State, id: nat)
    requires Inv(expOf, s)
    ensures Inv(expOf, Step(expOf, s, ReadFamily(id)))
  {
    if id in s.flights && s.flights[id].JtiRead? {
      ReadFamilyKeepsInv(expOf, s, Step(expOf, s, ReadFamily(id)), id, s.flights[id]);
    } else {
      IdleKeepsInv(expOf, s, Step(expOf, s, ReadFamily(id)), s.store);
    }
  }

  lemma MeasureStep(expOf: Id -> Time, s: State, id: nat)
    requires Inv(expOf, s)
    ensures Inv(expOf, Step(expOf, s, Measure(id)))
  {
    if id in s.flights && s.flights[id].Checked? {
      MeasureKeepsInv(expOf, s, Step(expOf, s, Measure(id)), id, s.flights[id].got);
    } else {
      IdleKeepsInv(expOf, s, Step(expOf, s, Measure(id)), s.store);
    }
  }

  lemma WriteStep(expOf: Id -> Time, s: State, id: nat, net: Net)
    requires Inv(expOf, s)
    ensures Inv(expOf, Step(expOf, s, Write(id, net)))
  {
    if id in s.flights && s.flights[id].Measured? {
      WriteKeepsInv(expOf, s, Step(expOf, s, Write(id, net)), id, s.flights[id], net);
    } else {
      IdleKeepsInv(expOf, s, Step(expOf, s, Write(id, net)), s.store);
    }
  }

  lemma MeasureFamilyStep(expOf: Id -> Time, s: State, id: nat)
    requires Inv(expOf, s)
    ensures Inv(expOf, Step(expOf, s, MeasureFamily(id)))
  {
    if id in s.flights && s.flights[id].Caught? {
      MeasureFamilyKeepsInv(expOf, s, Step(expOf, s, MeasureFamily(id)), id, s.flights[id]);
    } else {
      IdleKeepsInv(expOf, s, Step(expOf, s, MeasureFamily(id)), s.store);
    }
  }

  lemma WriteFamilyStep(expOf: Id -> Time, s: State, id: nat, net: Net)
    requires Inv(expOf, s)
    ensures Inv(expOf, Step(expOf, s, WriteFamily(id, net)))
  {
    if id in s.flights && s.flights[id].Blaming? {
      WriteFamilyKeepsInv(expOf, s, Step(expOf, s, WriteFamily(id, net)), id, s.flights[id], net);
    } else {
      IdleKeepsInv(expOf, s, Step(expOf, s, WriteFamily(id, net)), s.store);
    }
  }

  lemma RevokeStep(expOf: Id -> Time, s: State, jti: Id, lag: nat, net: Net)
    requires Inv(expOf, s)
    ensures Inv(expOf, Step(expOf, s, RevokeWrite(jti, lag, net)))
  {
    if !net.Refused? && jti.Id? && lag <= s.store.now && s.store.now - lag < expOf(jti) {
      RevokeKeepsInv(expOf, s, Step(expOf, s, RevokeWrite(jti, lag, net)), jti, lag, net);
    } else {
      IdleKeepsInv(expOf, s, Step(expOf, s, RevokeWrite(jti, lag, net)), s.store);
    }
  }

  lemma IntrospectStep(expOf: Id -> Time, s: State, id: nat, jti: Id)
    requires Inv(expOf, s)
    ensures Inv(expOf, Step(expOf, s, Introspect(id, jti)))
  {
    if id !in s.flights && jti.Id? {
      IntrospectKeepsInv(expOf, s, Step(expOf, s, Introspect(id, jti)), id, jti);
    } else {
      IdleKeepsInv(expOf, s, Step(expOf, s, Introspect(id, jti)), s.store);
    }
  }

  lemma InvStep(expOf: Id -> Time, s: State, a: Action)
    requires Inv(expOf, s) && Unrelated(a)
    ensures Inv(expOf, Step(expOf, s, a))
  {
    match a
    case Tick(d) => IdleKeepsInv(expOf, s, Step(expOf, s, a), s.store.Tick(d));
    case Parse(id, jti, family) => ParseStep(expOf, s, id, jti, family);
    case ReadJti(id) => ReadJtiStep(expOf, s, id);
    case ReadFamily(id) => ReadFamilyStep(expOf, s, id);
    case Measure(id) => MeasureStep(expOf, s, id);
    case Write(id, net) => WriteStep(expOf, s, id, net);
    case MeasureFamily(id) => MeasureFamilyStep(expOf, s, id);
    case WriteFamily(id, net) => WriteFamilyStep(expOf, s, id, net);
    case RevokeWrite(jti, lag, net) => RevokeStep(expOf, s, jti, lag, net);
    case Introspect(id, jti) => IntrospectStep(expOf, s, id, jti);
    case Other(op) => IdleKeepsInv(expOf, s, Step(expOf, s, a), Apply(s.store, op));
  }

  lemma {:induction false} InvRun(expOf: Id -> Time, now: Time, actions: seq<Action>)
    requires forall a :: a in actions ==> Unrelated(a)
    ensures Inv(expOf, Run(expOf, Initial(now), actions)) && Run(expOf, Initial(now), actions).step == |actions|
  {
    if actions != [] {
      InvRun(expOf, now, actions[..|actions| - 1]);
      InvStep(expOf, Run(expOf, Initial(now), actions[..|actions| - 1]), actions[|actions| - 1]);
    }
  }

  // ---- What follows ---------------------------------------------------------------------------------

  /** Two refreshes of one token that both succeed and put it on the denylist
      overlap: each one's denylist read precedes the other's denylist write, if
      both read at least one second before the token's expiry. */
  lemma SuccessfulRefreshesOverlap(expOf: Id -> Time, now: Time, actions: seq<Action>, i: nat, j: nat)
    requires forall a :: a in actions ==> Unrelated(a)
    requires var s := Run(expOf, Initial(now), actions);
             && i in s.flights && j in s.flights && Wrote(s.flights[i]) && Wrote(s.flights[j])
             && s.flights[i].got.jti == s.flights[j].got.jti
             && s.flights[i].got.readAt + SECOND <= expOf(s.flights[i].got.jti)
             && s.flights[j].got.readAt + SECOND <= expOf(s.flights[j].got.jti)
    ensures var s := Run(expOf, Initial(now), actions);
            && s.flights[i].got.read < s.flights[j].written.value
            && s.flights[j].got.read < s.flights[i].written.value
  {
    InvRun(expOf, now, actions);
    var s := Run(expOf, Initial(now), actions);
    assert FlightOk(expOf, s, s.flights[i]) && FlightOk(expOf, s, s.flights[j]);
  }

  /** A denial on record stays, and is not replaced by a later one. */
  lemma {:induction false} DenialsStand(expOf: Id -> Time, s: State, actions: seq<Action>, jti: Id)
    requires jti in s.denied
    ensures var t := Run(expOf, s, actions); jti in t.denied && t.denied[jti] == s.denied[jti]
  {
    if actions != [] {
      DenialsStand(expOf, s, actions[..|actions| - 1], jti);
    }
  }

  /** In every interleaving, once a revocation has stored its entry, no refresh and
      no introspection that reads the denylist afterwards finds the token usable,
      unless the read falls in the token's last second or later. */
  lemma RevokedTokenIsRefused(
    expOf: Id -> Time, now: Time, before: seq<Action>, jti: Id, lag: nat, net: Net, after: seq<Action>, j: nat)
    requires forall a :: a in before + [RevokeWrite(jti, lag, net)] + after ==> Unrelated(a)
    requires var s := Run(expOf, Initial(now), before).store;
             jti.Id? && !net.Refused? && lag <= s.now && s.now - lag < expOf(jti)
    requires var t := Run(expOf, Initial(now), before + [RevokeWrite(jti, lag, net)] + after);
             && j in t.flights && ReadUndenied(t.flights[j]) && JtiOf(t.flights[j]) == jti
             && |before| < ReadStep(t.flights[j])
    ensures var t := Run(expOf, Initial(now), before + [RevokeWrite(jti, lag, net)] + after);
            expOf(jti) < ReadTime(t.flights[j]) + SECOND
  {
    var a, s0 := RevokeWrite(jti, lag, net), Initial(now);
    var s := Run(expOf, s0, before);
    forall x | x in before ensures Unrelated(x) {
      assert x in before + [a] + after;
    }
    InvRun(expOf, now, before);
    InvRun(expOf, now, before + [a] + after);
    Runs.RunAppend(Machine(expOf), s0, before, a);
    Runs.RunConcat(Machine(expOf), s0, before + [a], after);
    assert jti in s.denied ==> s.denied[jti] < s.step;
    DenialsStand(expOf, Step(expOf, s, a), after, jti);
    var t := Run(expOf, s0, before + [a] + after);
    assert FlightOk(expOf, t, t.flights[j]);
  }

  /** In every interleaving, once a replay has stored its family's entry, no refresh
      of a member that reads that entry afterwards passes before the last second of
      the replayed token, unless an older member's replay stored its entry in between. */
  lemma BlamedFamilyIsRefused(expOf: Id -> Time, now: Time, actions: seq<Action>, i: nat, j: nat)
    requires forall a :: a in actions ==> Unrelated(a)
    requires var s := Run(expOf, Initial(now), actions);
             && i in s.flights && s.flights[i].Blamed? && j in s.flights && HasSeen(s.flights[j])
             && s.flights[j].got.family == s.flights[i].family && s.flights[i].at < s.flights[j].got.seen
             && forall b :: b in s.flights && s.flights[b].Blamed? && s.flights[b].family == s.flights[i].family
                            && s.flights[i].at <= s.flights[b].at < s.flights[j].got.seen ==>
                  expOf(s.flights[i].jti) <= expOf(s.flights[b].jti)
    ensures var s := Run(expOf, Initial(now), actions); expOf(s.flights[i].jti) < s.flights[j].got.seenAt + SECOND
  {
    InvRun(expOf, now, actions);
    var s := Run(expOf, Initial(now), actions);
    assert LastSeen(s, s.flights[i], s.flights[j].got);
  }

  // ---- Overlap is enough ----------------------------------------------------------------------------

  predicate Unfinished(f: Flight) {
    f.JtiRead? || f.Checked? || f.Measured?
  }

  function FamilyOf(f: Flight): Id
    requires Unfinished(f)
  {
    if f.JtiRead? then f.family else f.got.family
  }

  /** The request has found its token undenied, and no family entry is in its way. */
  predicate MayPass(s: State, i: nat) {
    && i in s.flights && Unfinished(s.flights[i])
    && (s.flights[i].JtiRead? ==> !(s.flights[i].family.Id? && s.store.Live(RevokedFamily(s.flights[i].family))))
  }

  lemma SeesFamily(expOf: Id -> Time, s: State, i: nat)
    requires MayPass(s, i)
    ensures var t := Step(expOf, s, ReadFamily(i));
            && t.store == s.store && t.flights == s.flights[i := t.flights[i]]
            && (t.flights[i].Checked? || t.flights[i].Measured?) && JtiOf(t.flights[i]) == JtiOf(s.flights[i])
            && ReadStep(t.flights[i]) == ReadStep(s.flights[i]) && ReadTime(t.flights[i]) == ReadTime(s.flights[i])
  {
  }

  lemma Measures(expOf: Id -> Time, s: State, i: nat)
    requires i in s.flights && (s.flights[i].Checked? || s.flights[i].Measured?)
    requires s.store.now < expOf(s.flights[i].got.jti)
    ensures var t := Step(expOf, s, Measure(i));
            && t.store == s.store && t.flights == s.flights[i := t.flights[i]]
            && t.flights[i].Measured? && t.flights[i].got == s.flights[i].got
  {
  }

  lemma WritesEntry(expOf: Id -> Time, s: State, i: nat)
    requires i in s.flights && s.flights[i].Measured?
    ensures var t := Step(expOf, s, Write(i, Fine));
            && t.flights == s.flights[i := t.flights[i]]
            && Wrote(t.flights[i]) && t.flights[i].got == s.flights[i].got
  {
  }

  /** What is left of two refreshes. */
  function Finish(i: nat, j: nat): seq<Action> {
    FinishReading(i, j) + [Measure(j), Write(i, Fine), Write(j, Fine)]
  }

  function FinishReading(i: nat, j: nat): seq<Action> {
    [ReadFamily(i), ReadFamily(j), Measure(i)]
  }

  lemma BothReady(expOf: Id -> Time, s: State, i: nat, j: nat)
    requires i != j && MayPass(s, i) && MayPass(s, j) && JtiOf(s.flights[i]) == JtiOf(s.flights[j])
    requires s.store.now < expOf(JtiOf(s.flights[i]))
    ensures var t, jti := Run(expOf, s, FinishReading(i, j)), JtiOf(s.flights[i]);
            && t.store == s.store && i in t.flights && t.flights[i].Measured? && t.flights[i].got.jti == jti
            && j in t.flights && (t.flights[j].Checked? || t.flights[j].Measured?) && t.flights[j].got.jti == jti
  {
    Runs.Run3(Machine(expOf), s, ReadFamily(i), ReadFamily(j), Measure(i));
    SeesFamily(expOf, s, i);
    var s1 := Step(expOf, s, ReadFamily(i));
    SeesFamily(expOf, s1, j);
    Measures(expOf, Step(expOf, s1, ReadFamily(j)), i);
  }

  /** Overlap is enough: any two refreshes of one unexpired token that have both read
      its entry before either writes it can both succeed. */
  lemma OverlappingRefreshesBothSucceed(expOf: Id -> Time, s: State, i: nat, j: nat)
    requires i != j && MayPass(s, i) && MayPass(s, j) && JtiOf(s.flights[i]) == JtiOf(s.flights[j])
    requires s.store.now < expOf(JtiOf(s.flights[i]))
    ensures var t := Run(expOf, s, Finish(i, j));
            && i in t.flights && j in t.flights && Wrote(t.flights[i]) && Wrote(t.flights[j])
            && t.flights[i].got.jti == JtiOf(s.flights[i]) == t.flights[j].got.jti
  {
    BothReady(expOf, s, i, j);
    var s1 := Run(expOf, s, FinishReading(i, j));
    Runs.RunConcat(Machine(expOf), s, FinishReading(i, j), [Measure(j), Write(i, Fine), Write(j, Fine)]);
    Runs.Run3(Machine(expOf), s1, Measure(j), Write(i, Fine), Write(j, Fine));
    Measures(expOf, s1, j);
    var s2 := Step(expOf, s1, Measure(j));
    WritesEntry(expOf, s2, i);
    WritesEntry(expOf, Step(expOf, s2, Write(i, Fine)), j);
  }

  /** Two requests read the entry of one token. */
  function TwoReads(jti: Id, family: Id): seq<Action> {
    [Parse(0, jti, family), Parse(1, jti, family), ReadJti(0), ReadJti(1)]
  }

  /** So from the start, two refreshes of one live token both succeed. */
  lemma TwoRefreshesHappen(expOf: Id -> Time, now: Time, jti: Id, family: Id)
    requires jti.Id? && now < expOf(jti)
    ensures var t := Run(expOf, Initial(now), TwoReads(jti, family) + Finish(0, 1));
            && 0 in t.flights && 1 in t.flights && Wrote(t.flights[0]) && Wrote(t.flights[1])
            && t.flights[0].got.jti == jti == t.flights[1].got.jti
  {
    var s0 := Initial(now);
    Runs.Run4(Machine(expOf), s0, Parse(0, jti, family), Parse(1, jti, family), ReadJti(0), ReadJti(1));
    var s2 := Step(expOf, Step(expOf, s0, Parse(0, jti, family)), Parse(1, jti, family));
    assert s2 == State(Store(map[], now), map[0 := Parsed(jti, family), 1 := Parsed(jti, family)], 2, map[], map[]);
    var s := Run(expOf, s0, TwoReads(jti, family));
    assert s.flights == map[0 := JtiRead(jti, family, 2, now), 1 := JtiRead(jti, family, 3, now)];
    OverlappingRefreshesBothSucceed(expOf, s, 0, 1);
    Runs.RunConcat(Machine(expOf), s0, TwoReads(jti, family), Finish(0, 1));
  }

  // ---- Overlap is the exact condition ------------------------------------------------------------------

  /** The request can still succeed and record it, having read its token's entry a
      second or more before the expiry. */
  ghost predicate CanStillSucceed(expOf: Id -> Time, s: State, j: nat) {
    exists rest: seq<Action> ::
      && (forall a :: a in rest ==> Unrelated(a))
      && var t := Run(expOf, s, rest);
         j in t.flights && Wrote(t.flights[j]) && t.flights[j].got.readAt + SECOND <= expOf(t.flights[j].got.jti)
  }

  /** The request has read nothing before the step `since`. */
  predicate ReadsFrom(s: State, j: nat, jti: Id, since: nat) {
    && since <= s.step && j in s.flights && !s.flights[j].Introspected?
    && (!s.flights[j].Refused? ==> JtiOf(s.flights[j]) == jti)
    && (ReadUndenied(s.flights[j]) ==> since <= ReadStep(s.flights[j]))
  }

  lemma ReadsFromStep(expOf: Id -> Time, s: State, a: Action, j: nat, jti: Id, since: nat)
    requires ReadsFrom(s, j, jti, since)
    ensures ReadsFrom(Step(expOf, s, a), j, jti, since)
  {
    if a.ReadJti? || a.ReadFamily? || a.Measure? || a.Write? {
      ReadingStep(expOf, s, a, j, jti, since);
    }
  }

  lemma ReadingStep(expOf: Id -> Time, s: State, a: Action, j: nat, jti: Id, since: nat)
    requires ReadsFrom(s, j, jti, since) && (a.ReadJti? || a.ReadFamily? || a.Measure? || a.Write?)
    ensures ReadsFrom(Step(expOf, s, a), j, jti, since)
  {
  }

  lemma {:induction false} ReadsLater(expOf: Id -> Time, s: State, actions: seq<Action>, j: nat, jti: Id, since: nat)
    requires ReadsFrom(s, j, jti, since)
    ensures ReadsFrom(Run(expOf, s, actions), j, jti, since)
  {
    if actions != [] {
      var before := actions[..|actions| - 1];
      ReadsLater(expOf, s, before, j, jti, since);
      ReadsFromStep(expOf, Run(expOf, s, before), actions[|actions| - 1], j, jti, since);
    }
  }

  /** The rest of one refresh. */
  function FinishOne(j: nat): seq<Action> {
    [ReadFamily(j), Measure(j), Write(j, Fine)]
  }

  lemma ReaderFinishes(expOf: Id -> Time, s: State, j: nat)
    requires MayPass(s, j) && s.store.now < expOf(JtiOf(s.flights[j]))
    requires ReadTime(s.flights[j]) + SECOND <= expOf(JtiOf(s.flights[j]))
    ensures CanStillSucceed(expOf, s, j)
  {
    Runs.Run3(Machine(expOf), s, ReadFamily(j), Measure(j), Write(j, Fine));
    SeesFamily(expOf, s, j);
    var s1 := Step(expOf, s, ReadFamily(j));
    Measures(expOf, s1, j);
    var s2 := Step(expOf, s1, Measure(j));
    WritesEntry(expOf, s2, j);
    var t := Run(expOf, s, FinishOne(j));
    assert Wrote(t.flights[j]) && t.flights[j].got == s1.flights[j].got;
  }

  lemma LateReaderFails(expOf: Id -> Time, now: Time, before: seq<Action>, j: nat)
    requires forall a :: a in before ==> Unrelated(a)
    requires var s := Run(expOf, Initial(now), before);
             j in s.flights && s.flights[j].Parsed? && s.flights[j].jti in s.denied
    ensures !CanStillSucceed(expOf, Run(expOf, Initial(now), before), j)
  {
    var s := Run(expOf, Initial(now), before);
    InvRun(expOf, now, before);
    forall rest: seq<Action> | forall a :: a in rest ==> Unrelated(a)
      ensures var t := Run(expOf, s, rest);
              j in t.flights && Wrote(t.flights[j]) ==>
                expOf(t.flights[j].got.jti) < t.flights[j].got.readAt + SECOND
    {
      var t := Run(expOf, s, rest);
      Runs.RunConcat(Machine(expOf), Initial(now), before, rest);
      InvRun(expOf, now, before + rest);
      ReadsLater(expOf, s, rest, j, s.flights[j].jti, s.step);
      DenialsStand(expOf, s, rest, s.flights[j].jti);
      assert FlightOk(expOf, t, t.flights[j]);
    }
  }

  /** When refresh i has just put the token on the denylist, another one under way can
      still succeed exactly if it has read the token's entry already. */
  lemma SecondSucceedsIffItHasRead(expOf: Id -> Time, now: Time, before: seq<Action>, i: nat, j: nat)
    requires forall a :: a in before ==> Unrelated(a)
    requires var s := Run(expOf, Initial(now), before);
             && i != j && i in s.flights && s.flights[i].Measured? && j in s.flights
             && JtiOf(s.flights[j]) == s.flights[i].got.jti && s.store.now < expOf(s.flights[i].got.jti)
             && (s.flights[j].Parsed? || (&& MayPass(s, j)
                                          && ReadTime(s.flights[j]) + SECOND <= expOf(s.flights[i].got.jti)))
    ensures var s := Run(expOf, Initial(now), before);
            CanStillSucceed(expOf, Step(expOf, s, Write(i, Fine)), j) <==> Unfinished(s.flights[j])
  {
    var s, a := Run(expOf, Initial(now), before), Write(i, Fine);
    var t := Step(expOf, s, a);
    WritesEntry(expOf, s, i);
    if s.flights[j].Parsed? {
      Runs.RunAppend(Machine(expOf), Initial(now), before, a);
      LateReaderFails(expOf, now, before + [a], j);
    } else {
      ReaderFinishes(expOf, t, j);
    }
  }

  // ---- Forks -------------------------------------------------------------------------------------------

  /** The token that a line of rotations leads to; `child` is what a refresh hands out. */
  function End(child: nat -> Id, root: Id, line: seq<nat>): Id {
    if line == [] then root else child(line[|line| - 1])
  }

  /** Every refresh of the line has rotated the token before it and recorded that. */
  predicate Line(s: State, child: nat -> Id, root: Id, line: seq<nat>) {
    line != [] ==>
      var before, last := line[..|line| - 1], line[|line| - 1];
      && Line(s, child, root, before)
      && last in s.flights && Wrote(s.flights[last]) && s.flights[last].got.jti == End(child, root, before)
  }

  lemma {:induction false} LineAt(s: State, child: nat -> Id, root: Id, line: seq<nat>, k: nat)
    requires Line(s, child, root, line) && k < |line|
    ensures line[k] in s.flights && Wrote(s.flights[line[k]])
    ensures s.flights[line[k]].got.jti == End(child, root, line[..k])
  {
    if k < |line| - 1 {
      assert line[..|line| - 1][..k] == line[..k];
      LineAt(s, child, root, line[..|line| - 1], k);
    }
  }

  /** The token can be refreshed and has a second or more to live. */
  predicate Usable(expOf: Id -> Time, s: State, jti: Id) {
    !s.store.Live(RevokedJti(jti)) && s.store.now + SECOND <= expOf(jti)
  }

  /** No refresh read the denylist in the last second of its token. */
  predicate TimelyReads(expOf: Id -> Time, s: State) {
    forall i :: i in s.flights && Wrote(s.flights[i]) ==>
      s.flights[i].got.readAt + SECOND <= expOf(s.flights[i].got.jti)
  }

  predicate Overlap(s: State, i: nat, j: nat) {
    && i != j && i in s.flights && j in s.flights && Wrote(s.flights[i]) && Wrote(s.flights[j])
    && s.flights[i].got.jti == s.flights[j].got.jti
    && s.flights[i].got.read < s.flights[j].written.value && s.flights[j].got.read < s.flights[i].written.value
  }

  lemma RotatedIsNotUsable(expOf: Id -> Time, s: State, i: nat)
    requires Inv(expOf, s) && i in s.flights && Wrote(s.flights[i])
    ensures !Usable(expOf, s, s.flights[i].got.jti)
  {
    assert FlightOk(expOf, s, s.flights[i]);
  }

  /** A member that others descend from is not usable. */
  lemma AncestorIsNotUsable(expOf: Id -> Time, s: State, child: nat -> Id, root: Id, p: seq<nat>, q: seq<nat>)
    requires Inv(expOf, s) && Line(s, child, root, q) && p < q
    ensures !Usable(expOf, s, End(child, root, p))
  {
    LineAt(s, child, root, q, |p|);
    RotatedIsNotUsable(expOf, s, q[|p|]);
    assert q[..|p|] == p;
  }

  /** Where two sequences part. */
  lemma {:induction false} FirstDifference(p: seq<nat>, q: seq<nat>, n: nat) returns (k: nat)
    requires !(p <= q) && !(q <= p) && n <= |p| && n <= |q| && p[..n] == q[..n]
    ensures k < |p| && k < |q| && p[..k] == q[..k] && p[k] != q[k]
    decreases |p| - n
  {
    k := n;
    if p[n] == q[n] {
      assert p[..n + 1] == p[..n] + [p[n]] && q[..n + 1] == q[..n] + [q[n]];
      k := FirstDifference(p, q, n + 1);
    }
  }

  /** Two members of a family can both be refreshed and have a second or more to live;
      p and q are the lines that lead to them. */
  predicate Forked(expOf: Id -> Time, s: State, child: nat -> Id, root: Id, p: seq<nat>, q: seq<nat>) {
    && Line(s, child, root, p) && Line(s, child, root, q) && p != q
    && Usable(expOf, s, End(child, root, p)) && Usable(expOf, s, End(child, root, q))
  }

  /** The lines have two refreshes of one token that overlap. */
  ghost predicate OverlapIn(s: State, p: seq<nat>, q: seq<nat>) {
    exists i, j :: i in p && j in q && Overlap(s, i, j)
  }

  /** In every interleaving, a fork comes from two refreshes of one token that overlap. */
  lemma {:induction false} ForkNeedsOverlap(
    expOf: Id -> Time, now: Time, actions: seq<Action>, child: nat -> Id, root: Id, p: seq<nat>, q: seq<nat>)
    requires forall a :: a in actions ==> Unrelated(a)
    ensures var s := Run(expOf, Initial(now), actions);
            TimelyReads(expOf, s) && Forked(expOf, s, child, root, p, q) ==> OverlapIn(s, p, q)
  {
    var s := Run(expOf, Initial(now), actions);
    InvRun(expOf, now, actions);
    if TimelyReads(expOf, s) && Forked(expOf, s, child, root, p, q) {
      var k := ForksPart(expOf, s, child, root, p, q);
      SuccessfulRefreshesOverlap(expOf, now, actions, p[k], q[k]);
      assert p[k] in p && q[k] in q && Overlap(s, p[k], q[k]);
    }
  }

  lemma ForksPart(expOf: Id -> Time, s: State, child: nat -> Id, root: Id, p: seq<nat>, q: seq<nat>) returns (k: nat)
    requires Inv(expOf, s) && Forked(expOf, s, child, root, p, q)
    ensures k < |p| && k < |q| && p[k] != q[k] && p[k] in s.flights && q[k] in s.flights
    ensures Wrote(s.flights[p[k]]) && Wrote(s.flights[q[k]]) && s.flights[p[k]].got.jti == s.flights[q[k]].got.jti
  {
    if p < q {
      AncestorIsNotUsable(expOf, s, child, root, p, q);
    } else if q < p {
      AncestorIsNotUsable(expOf, s, child, root, q, p);
    }
    k := FirstDifference(p, q, 0);
    LineAt(s, child, root, p, k);
    LineAt(s, child, root, q, k);
  }
}

// The steps of RefreshRace against the refresh handler of AuthServer.
module RefreshSteps {
  import opened TtlStore
  import opened RefreshRace
  import AuthServer
  import Denylist
  import Sessions
  import TokenHistory

  /** One refresh without interruption: the branch of a denied token or the other one. */
  function Uninterrupted(expOf: Id -> Time, s: Store, c: AuthServer.Claims, net: AuthServer.RefreshNet): State {
    var s1 := Step(expOf, State(s, map[], 0, map[], map[]), Parse(0, c.jti, c.family));
    var s2 := Step(expOf, s1, ReadJti(0));
    if s.Live(RevokedJti(c.jti)) then Step(expOf, Step(expOf, s2, MeasureFamily(0)), WriteFamily(0, net.storeFamily))
    else Step(expOf, Step(expOf, Step(expOf, s2, ReadFamily(0)), Measure(0)), Write(0, net.storeJti))
  }

  lemma AfterTokenRead(expOf: Id -> Time, s: Store, c: AuthServer.Claims)
    requires c.jti.Id? && s.now < c.exp == expOf(c.jti)
    ensures var t := Step(expOf, Step(expOf, State(s, map[], 0, map[], map[]), Parse(0, c.jti, c.family)), ReadJti(0));
            && t.store == s
            && t.flights == map[0 := if s.Live(RevokedJti(c.jti)) then Caught(c.jti, c.family)
                                     else JtiRead(c.jti, c.family, 1, s.now)]
  {
    var s1 := Step(expOf, State(s, map[], 0, map[], map[]), Parse(0, c.jti, c.family));
    assert s1 == State(s, map[0 := Parsed(c.jti, c.family)], 1, map[], map[]);
  }

  lemma UninterruptedCatch(expOf: Id -> Time, s: Store, c: AuthServer.Claims, net: AuthServer.RefreshNet)
    requires c.jti.Id? && c.family.Id? && s.now < c.exp == expOf(c.jti) && s.Live(RevokedJti(c.jti))
    ensures var t := Uninterrupted(expOf, s, c, net);
            && 0 in t.flights && !t.flights[0].Succeeded?
            && t.store == Denylist.StoreRevokedFamily(s, c.family, c.exp - s.now, net.storeFamily).0
  {
    AfterTokenRead(expOf, s, c);
    var s2 := Step(expOf, Step(expOf, State(s, map[], 0, map[], map[]), Parse(0, c.jti, c.family)), ReadJti(0));
    var s3 := Step(expOf, s2, MeasureFamily(0));
    assert s3.flights[0] == Blaming(c.jti, c.family, c.exp - s.now) && s3.store == s;
  }

  lemma UninterruptedPass(expOf: Id -> Time, s: Store, c: AuthServer.Claims, net: AuthServer.RefreshNet)
    requires c.jti.Id? && c.family.Id? && s.now < c.exp == expOf(c.jti) && !s.Live(RevokedJti(c.jti))
    ensures var t := Uninterrupted(expOf, s, c, net);
            && 0 in t.flights && (t.flights[0].Succeeded? <==> !s.Live(RevokedFamily(c.family)))
            && t.store == if t.flights[0].Succeeded?
                then Denylist.StoreRevoked(s, c.jti, c.exp - s.now, net.storeJti).0 else s
  {
    AfterTokenRead(expOf, s, c);
    var s2 := Step(expOf, Step(expOf, State(s, map[], 0, map[], map[]), Parse(0, c.jti, c.family)), ReadJti(0));
    var s3 := Step(expOf, s2, ReadFamily(0));
    if s.Live(RevokedFamily(c.family)) {
      assert s3.flights[0].Refused? && s3.store == s;
    } else {
      var s4 := Step(expOf, s3, Measure(0));
      assert s3.flights[0].Checked? && s4.flights[0].Measured?;
      assert s4.flights[0].remaining == c.exp - s.now && s4.store == s;
    }
  }

  /** The request passes every check but those of the denylist, and can be signed. */
  predicate OtherwiseFine(u: AuthServer.Setup, s: AuthServer.Server, q: AuthServer.RefreshRequest) {
    && AuthServer.RefreshRefusal(u, s, q).None? && q.net.jti.Fine? && q.net.family.Fine?
    && !AuthServer.BanApplies(s.tokens[q.token].claims, q.banned)
    && AuthServer.AudiencePermitted(s.directory[q.clientId], s.tokens[q.token].claims)
    && q.signs.access && q.signs.refresh
  }

  lemma HandlerOutcome(u: AuthServer.Setup, s: AuthServer.Server, q: AuthServer.RefreshRequest)
    requires TokenHistory.Inv(s) && OtherwiseFine(u, s, q)
    ensures var c, t := s.tokens[q.token].claims, AuthServer.RefreshGrant(u, s, q);
            && c.jti.Id? && c.family.Id? && s.store.now < c.exp
            && (t.1.Pair? <==> Sessions.NotDenied(s.store, c))
            && t.0.store ==
               if s.store.Live(RevokedJti(c.jti))
               then Denylist.StoreRevokedFamily(s.store, c.family, c.exp - s.store.now, q.net.storeFamily).0
               else if s.store.Live(RevokedFamily(c.family)) then s.store
               else Denylist.StoreRevoked(s.store, c.jti, c.exp - s.store.now, q.net.storeJti).0
  {
    assert TokenHistory.TokenOk(s.tokens, q.token);
  }

  /** Such a request succeeds in these steps exactly when the handler accepts it, and
      leaves the same store in any case. */
  lemma StepsRefineRefresh(u: AuthServer.Setup, s: AuthServer.Server, q: AuthServer.RefreshRequest, expOf: Id -> Time)
    requires TokenHistory.Inv(s) && OtherwiseFine(u, s, q)
    requires expOf(s.tokens[q.token].claims.jti) == s.tokens[q.token].claims.exp
    ensures var t := Uninterrupted(expOf, s.store, s.tokens[q.token].claims, q.net);
            && 0 in t.flights
            && (t.flights[0].Succeeded? <==> AuthServer.RefreshGrant(u, s, q).1.Pair?)
            && t.store == AuthServer.RefreshGrant(u, s, q).0.store
  {
    HandlerOutcome(u, s, q);
    SameOutcome(expOf, s.store, s.tokens[q.token].claims, q.net);
  }

  lemma SameOutcome(expOf: Id -> Time, s: Store, c: AuthServer.Claims, net: AuthServer.RefreshNet)
    requires c.jti.Id? && c.family.Id? && s.now < c.exp == expOf(c.jti)
    ensures var t := Uninterrupted(expOf, s, c, net);
            && 0 in t.flights && (t.flights[0].Succeeded? <==> Sessions.NotDenied(s, c))
            && t.store ==
               if s.Live(RevokedJti(c.jti)) then Denylist.StoreRevokedFamily(s, c.family, c.exp - s.now,
                                                                             net.storeFamily).0
               else if s.Live(RevokedFamily(c.family)) then s
               else Denylist.StoreRevoked(s, c.jti, c.exp - s.now, net.storeJti).0
  {
    if s.Live(RevokedJti(c.jti)) {
      UninterruptedCatch(expOf, s, c, net);
    } else {
      UninterruptedPass(expOf, s, c, net);
    }
  }
}
