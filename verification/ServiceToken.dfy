// The service token cached under a mutex (internal/api/otp.go).

module ServiceToken {
  import opened Wrappers
  import opened TtlStore
  import AuthServer

  /** `signing` is how long after its expiry was stamped the token was ready. */
  datatype Token = Token(exp: Time, signing: Time)

  datatype Cache = Cache(token: Option<Token>, expiry: Time)

  /** One call, which holds the mutex: the clock when it looks at the cache, when
      a new token's expiry is stamped and when signing is over. */
  datatype Call = Call(check: Time, stamped: Time, after: Time, signs: bool)

  predicate InOrder(c: Call) {
    c.check <= c.stamped <= c.after
  }

  const TTL: nat := AuthServer.SERVICE_TTL * SECOND
  const MARGIN: nat := 5 * SECOND

  /** The cache afterwards, the token returned and the moment it is returned. */
  function Serve(s: Cache, c: Call): (Cache, Option<Token>, Time)
    requires InOrder(c)
  {
    if s.token.Some? && c.check + MARGIN < s.expiry then (s, s.token, c.check)
    else if !c.signs then (s, None, c.after)
    else
      var token := Token(AuthServer.WholeSeconds(c.stamped + TTL), c.after - c.stamped);
      (Cache(Some(token), c.after + TTL), Some(token), c.after)
  }

  class Holder {
    var svcJwt: Option<Token>
    var svcJwtExpiry: Time

    constructor ()
      ensures State() == Cache(None, 0)
    {
      svcJwt := None;
      svcJwtExpiry := 0;
    }

    function State(): Cache
      reads this
    {
      Cache(svcJwt, svcJwtExpiry)
    }

    method GetOrRefreshSvcJWT(c: Call) returns (r: Option<Token>)
      requires InOrder(c)
      modifies this
      ensures State() == Serve(old(State()), c).0 && r == Serve(old(State()), c).1
    {
      if svcJwt.Some? && c.check < svcJwtExpiry - MARGIN {
        return svcJwt;
      }
      if !c.signs {
        return None;
      }
      var token := Token((c.stamped + TTL) / SECOND * SECOND, c.after - c.stamped);
      svcJwt := Some(token);
      svcJwtExpiry := c.after + TTL;
      return svcJwt;
    }
  }

  function Run(s: Cache, calls: seq<Call>): Cache
    requires forall c :: c in calls ==> InOrder(c)
  {
    if calls == [] then s
    else Serve(Run(s, calls[..|calls| - 1]), calls[|calls| - 1]).0
  }

  /** The cached expiry is later than the token's own by less than a second and
      the signing time. */
  predicate CacheOk(s: Cache) {
    s.token.Some? ==> s.expiry < s.token.value.exp + s.token.value.signing + SECOND
  }

  lemma {:induction false} CacheStaysOk(calls: seq<Call>)
    requires forall c :: c in calls ==> InOrder(c)
    ensures CacheOk(Run(Cache(None, 0), calls))
  {
    if calls != [] {
      CacheStaysOk(calls[..|calls| - 1]);
    }
  }

  /** A token that was just signed is returned to every call that looks at the cache in
      the next twenty-five seconds, and nothing is signed meanwhile. */
  lemma {:induction false} OneTokenForTwentyFiveSeconds(s: Cache, first: Call, calls: seq<Call>)
    requires InOrder(first) && first.signs && (s.token.Some? ==> s.expiry <= first.check + 5 * SECOND)
    requires forall c :: c in calls ==> InOrder(c) && c.check < first.after + 25 * SECOND
    ensures var t := Serve(s, first).0; Run(t, calls) == t
    ensures var t := Serve(s, first).0;
            t.token.Some? && forall c :: c in calls ==> Serve(t, c).1 == t.token == Serve(s, first).1
  {
    if calls != [] {
      OneTokenForTwentyFiveSeconds(s, first, calls[..|calls| - 1]);
    }
  }

  /** After that a call signs a new one, or fails and leaves the cache alone. */
  lemma StaleTokenIsReplaced(s: Cache, c: Call)
    requires InOrder(c) && (s.token.Some? ==> s.expiry <= c.check + 5 * SECOND)
    ensures var (t, token, at) := Serve(s, c);
            && at == c.after
            && (c.signs ==> token == t.token == Some(Token((c.stamped + 30 * SECOND) / SECOND * SECOND,
                                                           c.after - c.stamped)))
            && (!c.signs ==> token == None && t == s)
  {
  }

  /** Whatever the callers do, a returned token has strictly more than four
      seconds left, less the time it took to sign. */
  lemma ReturnedTokenHasFourSeconds(calls: seq<Call>, c: Call)
    requires InOrder(c) && forall x :: x in calls ==> InOrder(x)
    requires Serve(Run(Cache(None, 0), calls), c).1.Some?
    ensures var (_, token, at) := Serve(Run(Cache(None, 0), calls), c);
            at + 4 * SECOND < token.value.exp + token.value.signing
  {
    CacheStaysOk(calls);
  }

  /** The cut to the second and the late expiry can use up all but two
      nanoseconds of that margin. */
  lemma FourSecondsIsTight(signing: Time)
    ensures var first := Call(SECOND - 1, SECOND - 1, SECOND - 1 + signing, true);
            var at := signing + 26 * SECOND - 2;
            var (_, token, returned) := Serve(Run(Cache(None, 0), [first]), Call(at, at, at, true));
            token.Some? && returned == at && at + 4 * SECOND + 2 == token.value.exp + token.value.signing
  {
    var first := Call(SECOND - 1, SECOND - 1, SECOND - 1 + signing, true);
    assert [first][..0] == [];
    assert Run(Cache(None, 0), [first]) == Serve(Cache(None, 0), first).0;
  }
}
