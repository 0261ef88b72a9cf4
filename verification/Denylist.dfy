// Revoked tokens and revoked token families (internal/db/tokens.go).

module Denylist {
  import opened Wrappers
  import opened TtlStore

  datatype DenyError = EmptyId | CacheDown

  /** Whole seconds of a remaining lifetime, but at least one. */
  function TtlOf(remaining: int): (ttl: Ttl)
    requires 0 < remaining
  {
    if remaining < SECOND then 1 else remaining / SECOND
  }

  /** When an entry written at `now` for a token that expires at `exp` lapses. */
  function CoverEnd(now: Time, exp: Time): (d: Time)
    requires now < exp
    ensures exp < d + SECOND
    ensures d <= exp || exp < now + SECOND
    ensures exp < now + SECOND ==> d == now + SECOND
  {
    now + TtlOf(exp - now) * SECOND
  }

  function Deny(s: Store, key: Key, remaining: int, net: Net): (Store, Result<(), DenyError>) {
    if remaining <= 0 then (s, Success(()))
    else (if net.Refused? then s else s.Set(key, Sentinel, TtlOf(remaining)),
          if net.Fine? then Success(()) else Failure(CacheDown))
  }

  function StoreRevoked(s: Store, jti: Id, remaining: int, net: Net): (Store, Result<(), DenyError>) {
    if jti.NoId? then (s, Failure(EmptyId)) else Deny(s, RevokedJti(jti), remaining, net)
  }

  function StoreRevokedFamily(s: Store, family: Id, ttl: int, net: Net): (Store, Result<(), DenyError>) {
    if family.NoId? then (s, Failure(EmptyId)) else Deny(s, RevokedFamily(family), ttl, net)
  }

  function IsRevoked(s: Store, jti: Id, net: Net): Result<bool, DenyError> {
    if jti.NoId? then Success(false)
    else if net.Fine? then Success(s.Live(RevokedJti(jti))) else Failure(CacheDown)
  }

  function IsFamilyRevoked(s: Store, family: Id, net: Net): Result<bool, DenyError> {
    if family.NoId? then Success(false)
    else if net.Fine? then Success(s.Live(RevokedFamily(family))) else Failure(CacheDown)
  }

  method StoreRevokedEntry(api: Redis?, jti: Id, remaining: int, net: Net) returns (r: Result<(), DenyError>)
    modifies api
    ensures api == null ==> r == if jti.NoId? then Failure(EmptyId) else Success(())
    ensures api != null ==> (api.State(), r) == StoreRevoked(old(api.State()), jti, remaining, net)
  {
    if jti.NoId? {
      return Failure(EmptyId);
    }
    if remaining <= 0 || api == null {
      return Success(());
    }
    var ttlSec := remaining / SECOND;
    if ttlSec < 1 {
      ttlSec := 1;
    }
    var stored := api.Set(RevokedJti(jti), Sentinel, ttlSec, net);
    r := if stored.Failure? then Failure(CacheDown) else Success(());
  }

  method StoreRevokedFamilyEntry(api: Redis?, family: Id, ttl: int, net: Net) returns (r: Result<(), DenyError>)
    modifies api
    ensures api == null ==> r == if family.NoId? then Failure(EmptyId) else Success(())
    ensures api != null ==> (api.State(), r) == StoreRevokedFamily(old(api.State()), family, ttl, net)
  {
    if family.NoId? {
      return Failure(EmptyId);
    }
    if ttl <= 0 || api == null {
      return Success(());
    }
    var ttlSec := ttl / SECOND;
    if ttlSec < 1 {
      ttlSec := 1;
    }
    var stored := api.Set(RevokedFamily(family), Sentinel, ttlSec, net);
    r := if stored.Failure? then Failure(CacheDown) else Success(());
  }

  method CheckRevoked(api: Redis?, jti: Id, net: Net) returns (r: Result<bool, DenyError>)
    ensures r == if api == null then Success(false) else IsRevoked(api.State(), jti, net)
  {
    if jti.NoId? || api == null {
      return Success(false);
    }
    var val := api.Get(RevokedJti(jti), net);
    r := if val.Failure? then Failure(CacheDown) else Success(val.value.Some?);
  }

  method CheckFamilyRevoked(api: Redis?, family: Id, net: Net) returns (r: Result<bool, DenyError>)
    ensures r == if api == null then Success(false) else IsFamilyRevoked(api.State(), family, net)
  {
    if family.NoId? || api == null {
      return Success(false);
    }
    var val := api.Get(RevokedFamily(family), net);
    r := if val.Failure? then Failure(CacheDown) else Success(val.value.Some?);
  }

  /** For how long a stored entry denies: a token revoked at `at` is let through
      at a later instant `t` of its life exactly when t lies in the last,
      truncated fraction of a second, which is empty if less than a second was left. */
  lemma DeniedUntil(s: Store, jti: Id, at: Time, exp: Time, t: Time)
    requires jti.Id? && s.now == at <= t < exp
    ensures var s1 := StoreRevoked(s, jti, exp - at, Fine).0;
            !IsRevoked(s1.Tick(t - at), jti, Fine).value <==>
            SECOND <= exp - at && exp - t <= (exp - at) % SECOND
  {
    var rem := exp - at;
    assert rem == rem / SECOND * SECOND + rem % SECOND;
  }
}
