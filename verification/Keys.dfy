// The two signing-key slots (internal/jwt/jwt.go) and the published key set with
// its cache (internal/api/jwks.go), one request or reload at a time.

module Keys {
  import opened Wrappers
  import Runs

  datatype PublicKey = PublicKey(n: nat, e: nat)

  /** A parsed key pair; the private half is identified with its public key. */
  datatype Keyset = Keyset(publicKey: PublicKey, kid: string)

  datatype VerificationKey = VerificationKey(kid: string, key: PublicKey)

  datatype Jwk = Jwk(kid: string, n: nat, e: nat)

  datatype Slots = Slots(active: Option<Keyset>, previous: Option<Keyset>)

  // ---- Specifications ------------------------------------------------------------

  function Reloaded(s: Slots, parsed: Option<Keyset>): Slots {
    if parsed.None? then s
    else Slots(parsed,
               if s.active.Some? && s.active.value.kid != parsed.value.kid then s.active else s.previous)
  }

  function Listed(k: Option<Keyset>): seq<VerificationKey> {
    if k.Some? then [VerificationKey(k.value.kid, k.value.publicKey)] else []
  }

  function Published(s: Slots): seq<VerificationKey> {
    Listed(s.active) + Listed(s.previous)
  }

  /** The key a token with this kid is verified with. */
  function KeyFor(s: Slots, kid: string): Option<PublicKey> {
    if s.active.Some? && (kid == "" || kid == s.active.value.kid) then Some(s.active.value.publicKey)
    else if s.previous.Some? && kid == s.previous.value.kid then Some(s.previous.value.publicKey)
    else None
  }

  function KidsOf(vks: seq<VerificationKey>): (r: seq<string>)
    ensures |r| == |vks| && forall i :: 0 <= i < |vks| ==> r[i] == vks[i].kid
  {
    seq(|vks|, i requires 0 <= i < |vks| => vks[i].kid)
  }

  function Encode(vks: seq<VerificationKey>): (r: seq<Jwk>)
    ensures |r| == |vks| && forall i :: 0 <= i < |vks| ==> r[i] == Jwk(vks[i].kid, vks[i].key.n, vks[i].key.e)
  {
    seq(|vks|, i requires 0 <= i < |vks| => Jwk(vks[i].kid, vks[i].key.n, vks[i].key.e))
  }

  // ---- The code ---------------------------------------------------------------------

  class KeyStore {
    var active: Option<Keyset>
    var previous: Option<Keyset>

    constructor (first: Keyset)
      ensures State() == Slots(Some(first), None)
    {
      active := Some(first);
      previous := None;
    }

    function State(): Slots
      reads this
    {
      Slots(active, previous)
    }

    /** `parsed` is the parsed configuration; None when parsing fails. */
    method Reload(parsed: Option<Keyset>) returns (ok: bool)
      modifies this
      ensures ok == parsed.Some?
      ensures State() == Reloaded(old(State()), parsed)
    {
      if parsed.None? {
        return false;
      }
      var cur := active;
      if cur.Some? && cur.value.kid != parsed.value.kid {
        previous := cur;
      }
      active := parsed;
      return true;
    }

    method VerificationKeys() returns (out: seq<VerificationKey>)
      ensures out == Published(State())
    {
      out := [];
      var act := active;
      if act.Some? {
        out := out + [VerificationKey(act.value.kid, act.value.publicKey)];
      }
      var prev := previous;
      if prev.Some? {
        out := out + [VerificationKey(prev.value.kid, prev.value.publicKey)];
      }
    }

    /** `rs256` says whether the token names the RSA signing method. */
    method KeyForToken(rs256: bool, kid: string) returns (r: Option<PublicKey>)
      ensures r == if rs256 then KeyFor(State(), kid) else None
    {
      if !rs256 {
        return None;
      }
      var act := active;
      if act.Some? && (kid == "" || kid == act.value.kid) {
        return Some(act.value.publicKey);
      }
      var prev := previous;
      if prev.Some? && kid == prev.value.kid {
        return Some(prev.value.publicKey);
      }
      return None;
    }
  }

  method BuildJWKS(store: KeyStore) returns (keys: seq<Jwk>)
    ensures keys == Encode(Published(store.State()))
  {
    var vks := store.VerificationKeys();
    keys := [];
    for i := 0 to |vks|
      invariant keys == Encode(vks)[..i]
    {
      keys := keys + [Jwk(vks[i].kid, vks[i].key.n, vks[i].key.e)];
    }
  }

  method ListKids(vks: seq<VerificationKey>) returns (kids: seq<string>)
    ensures kids == KidsOf(vks)
  {
    kids := [];
    for i := 0 to |vks|
      invariant kids == KidsOf(vks)[..i]
    {
      kids := kids + [vks[i].kid];
    }
  }

  method KidsEqual(a: seq<string>, b: seq<string>) returns (r: bool)
    ensures r <==> a == b
  {
    if |a| != |b| {
      return false;
    }
    for i := 0 to |a|
      invariant a[..i] == b[..i]
    {
      if a[i] != b[i] {
        return false;
      }
    }
    return true;
  }

  datatype Cached = Cached(kids: seq<string>, body: seq<Jwk>)

  predicate Hit(s: Slots, c: Option<Cached>) {
    c.Some? && c.value.kids == KidsOf(Published(s))
  }

  function Served(s: Slots, c: Option<Cached>): Cached {
    if Hit(s, c) then c.value
    else Cached(KidsOf(Published(s)), Encode(Published(s)))
  }

  class JwksCache {
    var cached: Option<Cached>

    constructor ()
      ensures cached == None
    {
      cached := None;
    }

    /** The keys are listed once for the cache key and once for the body; `encodes`
        says whether the encoding succeeds. */
    method Body(keys: KeyStore, encodes: bool) returns (body: Option<seq<Jwk>>)
      modifies this
      ensures encodes ==> cached == Some(Served(keys.State(), old(cached))) && body == Some(cached.value.body)
      ensures !encodes ==> cached == old(cached)
      ensures !encodes ==> body == if Hit(keys.State(), old(cached)) then Some(old(cached).value.body) else None
    {
      var vks := keys.VerificationKeys();
      var kids := ListKids(vks);
      if cached.Some? {
        var same := KidsEqual(cached.value.kids, kids);
        if same {
          return Some(cached.value.body);
        }
      }
      var built := BuildJWKS(keys);
      if !encodes {
        return None;
      }
      cached := Some(Cached(kids, built));
      return Some(built);
    }
  }

  // ---- Sequential runs ------------------------------------------------------------------

  datatype State = State(slots: Slots, cache: Option<Cached>)

  datatype Action = Reload(parsed: Option<Keyset>) | Request

  function Step(s: State, a: Action): State {
    match a
    case Reload(parsed) => s.(slots := Reloaded(s.slots, parsed))
    case Request => s.(cache := Some(Served(s.slots, s.cache)))
  }

  function Run(s: State, actions: seq<Action>): State {
    Runs.Run(Step, s, actions)
  }

  function Initial(first: Keyset): State {
    State(Slots(Some(first), None), None)
  }

  /** One kid names one key pair. */
  predicate Named(pair: string -> PublicKey, k: Keyset) {
    k.publicKey == pair(k.kid)
  }

  predicate ReloadsNamed(pair: string -> PublicKey, a: Action) {
    a.Reload? && a.parsed.Some? ==> Named(pair, a.parsed.value)
  }

  predicate SlotsOk(s: Slots) {
    s.active.Some? && (s.previous.Some? ==> s.previous.value.kid != s.active.value.kid)
  }

  predicate NamesOk(pair: string -> PublicKey, s: State) {
    && (s.slots.active.Some? ==> Named(pair, s.slots.active.value))
    && (s.slots.previous.Some? ==> Named(pair, s.slots.previous.value))
    && (s.cache.Some? ==>
          && |s.cache.value.kids| == |s.cache.value.body|
          && forall i :: 0 <= i < |s.cache.value.kids| ==>
               var kid := s.cache.value.kids[i];
               s.cache.value.body[i] == Jwk(kid, pair(kid).n, pair(kid).e))
  }

  lemma {:induction false} SlotsInvariant(first: Keyset, actions: seq<Action>)
    ensures SlotsOk(Run(Initial(first), actions).slots)
  {
    if actions != [] {
      SlotsInvariant(first, actions[..|actions| - 1]);
    }
  }

  lemma NamesStep(pair: string -> PublicKey, s: State, a: Action)
    requires NamesOk(pair, s) && ReloadsNamed(pair, a)
    ensures NamesOk(pair, Step(s, a))
  {
    var vks := Published(s.slots);
    assert forall i :: 0 <= i < |vks| ==> vks[i].key == pair(vks[i].kid);
  }

  lemma {:induction false} NamesInvariant(pair: string -> PublicKey, first: Keyset, actions: seq<Action>)
    requires Named(pair, first) && forall a :: a in actions ==> ReloadsNamed(pair, a)
    ensures NamesOk(pair, Run(Initial(first), actions))
  {
    if actions != [] {
      NamesInvariant(pair, first, actions[..|actions| - 1]);
      NamesStep(pair, Run(Initial(first), actions[..|actions| - 1]), actions[|actions| - 1]);
    }
  }

  /** On every run of reloads and requests, what the cache serves is a fresh
      encoding of the current keys. */
  lemma ServedBodyIsFresh(pair: string -> PublicKey, first: Keyset, actions: seq<Action>)
    requires Named(pair, first) && forall a :: a in actions ==> ReloadsNamed(pair, a)
    ensures var s := Run(Initial(first), actions); Served(s.slots, s.cache).body == Encode(Published(s.slots))
  {
    NamesInvariant(pair, first, actions);
    var s := Run(Initial(first), actions);
    var vks := Published(s.slots);
    if s.cache.Some? && s.cache.value.kids == KidsOf(vks) {
      forall i | 0 <= i < |vks| ensures s.cache.value.body[i] == Encode(vks)[i] {
        assert s.cache.value.kids[i] == vks[i].kid;
      }
    }
  }

  /** Why a kid must keep naming one key: after a reload that keeps the kid, an
      up-to-date cache stays right exactly when the key is the same. */
  lemma FreshAfterSameKidIff(s: State, k: Keyset)
    requires s.slots.active.Some? && s.slots.active.value.kid == k.kid
    requires s.cache == Some(Cached(KidsOf(Published(s.slots)), Encode(Published(s.slots))))
    ensures var t := Step(s, Reload(Some(k)));
            Served(t.slots, t.cache).body == Encode(Published(t.slots)) <==>
                k.publicKey == s.slots.active.value.publicKey
  {
    var t := Step(s, Reload(Some(k)));
    assert KidsOf(Published(t.slots)) == KidsOf(Published(s.slots));
    assert Encode(Published(t.slots))[0] == Jwk(k.kid, k.publicKey.n, k.publicKey.e);
    assert Encode(Published(s.slots))[0].n == s.slots.active.value.publicKey.n;
    assert Encode(Published(s.slots))[0].e == s.slots.active.value.publicKey.e;
  }

  /** The two slots never share a kid, and the published keys are exactly the ones
      that tokens with a non-empty kid are verified with. */
  lemma PublishedAreAccepted(first: Keyset, actions: seq<Action>, kid: string, key: PublicKey)
    requires kid != ""
    ensures var s := Run(Initial(first), actions).slots;
            && SlotsOk(s)
            && (VerificationKey(kid, key) in Published(s) <==> KeyFor(s, kid) == Some(key))
  {
    SlotsInvariant(first, actions);
  }
}
