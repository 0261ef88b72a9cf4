// The shared key-value store with expiry: its value-level meaning (Store) and
// the client object every handler talks to (Redis).

module Wrappers {
  datatype Option<+T> = None | Some(value: T)

  datatype Result<+T, +E> = Success(value: T) | Failure(error: E)
}

module TtlStore {
  import opened Wrappers

  /** Time is counted in nanoseconds. */
  type Time = nat

  const SECOND: nat := 1_000_000_000

  /** A time to live, in whole seconds; every caller passes at least one. */
  type Ttl = n: nat | 1 <= n witness 1

  /** What a UUID call returns; NoId is the empty string of a missing claim. */
  datatype Id = NoId | Id(n: nat)

  datatype AuthCodeEntry = AuthCodeEntry(
    clientId: string, redirectUri: string, scope: string, userId: string, codeChallenge: string)

  datatype LoginSession = LoginSession(userId: string, email: string, clientId: string)

  /** One constructor per key prefix in use. */
  datatype Key =
    | OtpCode(email: string)
    | OtpAttempts(email: string)
    | OtpCooldown(email: string)
    | OtpRedeemed(email: string)
    | SessionClaim(session: string)
    | RevokedJti(jti: Id)
    | RevokedFamily(family: Id)
    | AuthCodeKey(code: string)
    | RegistrationSession(user: string)
    | LoginSessionKey(challenge: string)

  /** JSON encoding is taken as lossless, so a payload is stored as itself. */
  datatype Value =
    | Sentinel
    | Text(text: string)
    | Count(count: nat)
    | AuthCode(entry: AuthCodeEntry)
    | Registration(ceremony: string)
    | Login(session: LoginSession)

  datatype Entry = Entry(value: Value, deadline: Option<Time>)

  datatype Store = Store(entries: map<Key, Entry>, now: Time) {
    /** A key is present until its deadline is reached. */
    predicate Live(k: Key) {
      k in entries && (entries[k].deadline.Some? ==> now < entries[k].deadline.value)
    }

    function Get(k: Key): Option<Value> {
      if Live(k) then Some(entries[k].value) else None
    }

    function Set(k: Key, v: Value, ttl: Ttl): Store {
      Store(entries[k := Entry(v, Some(now + ttl * SECOND))], now)
    }

    function SetNX(k: Key, v: Value, ttl: Ttl): Store {
      if Live(k) then this else Set(k, v, ttl)
    }

    function Delete(k: Key): Store {
      Store(entries - {k}, now)
    }

    /** The number Incr leaves behind; None when the value is not a number. */
    function Incremented(k: Key): Option<nat> {
      if !Live(k) then Some(1)
      else match entries[k].value
        case Count(n) => Some(n + 1)
        case _ => None
    }

    /** Incr keeps a running deadline and starts a fresh counter without one. */
    function Incr(k: Key): Store {
      match Incremented(k)
      case None => this
      case Some(n) =>
        Store(entries[k := Entry(Count(n), if Live(k) then entries[k].deadline else None)], now)
    }

    function Expire(k: Key, ttl: Ttl): Store {
      if Live(k) then Store(entries[k := entries[k].(deadline := Some(now + ttl * SECOND))], now)
      else this
    }

    function Tick(d: nat): Store {
      Store(entries, now + d)
    }
  }

  /** What each operation does to a key that is present and to one that is not; no
      operation but a write brings a lapsed key back. */
  lemma KeyLaws(s: Store, k: Key, v: Value, ttl: Ttl)
    ensures s.Set(k, v, ttl).Get(k) == Some(v) && s.Delete(k).Get(k) == None
    ensures s.SetNX(k, v, ttl).Get(k) == (if s.Get(k).Some? then s.Get(k) else Some(v))
    ensures s.Expire(k, ttl).Get(k) == s.Get(k)
    ensures s.Get(k).Some? ==> s.Expire(k, ttl).entries[k].deadline == Some(s.now + ttl * SECOND)
    ensures s.Get(k).None? ==> s.Incr(k).Get(k) == Some(Count(1)) && s.Incr(k).entries[k].deadline == None
    ensures s.Get(k).Some? && s.Get(k).value.Count? ==>
              && s.Incr(k).Get(k) == Some(Count(s.Get(k).value.count + 1))
              && s.Incr(k).entries[k].deadline == s.entries[k].deadline
    ensures s.Get(k).Some? && !s.Get(k).value.Count? ==> s.Incr(k) == s
  {
  }

  /** A value with a time to live is there until then and no longer. */
  lemma LivesForItsTtl(s: Store, k: Key, v: Value, ttl: Ttl, d: nat)
    ensures s.Set(k, v, ttl).Tick(d).Get(k) == if d < ttl * SECOND then Some(v) else None
  {
  }

  /** A store operation by some other part of the service. */
  datatype Op =
    | OpSet(key: Key, value: Value, ttl: Ttl)
    | OpSetNX(key: Key, value: Value, ttl: Ttl)
    | OpDelete(key: Key)
    | OpIncr(key: Key)
    | OpExpire(key: Key, ttl: Ttl)

  function Apply(s: Store, op: Op): (r: Store)
    ensures r.now == s.now
    ensures forall k :: k != op.key ==> (k in r.entries <==> k in s.entries)
    ensures forall k :: k != op.key && k in s.entries ==> r.entries[k] == s.entries[k]
  {
    match op
    case OpSet(k, v, ttl) => s.Set(k, v, ttl)
    case OpSetNX(k, v, ttl) => s.SetNX(k, v, ttl)
    case OpDelete(k) => s.Delete(k)
    case OpIncr(k) => s.Incr(k)
    case OpExpire(k, ttl) => s.Expire(k, ttl)
  }

  /** How one round trip to the store goes: it may fail before it takes
      effect, or take effect and lose the reply. */
  datatype Net = Fine | Refused | ReplyLost

  datatype StoreError = Unreachable | NotANumber

  /** The operations of CacheClientOperations on shared, mutable entries. */
  class Redis {
    var entries: map<Key, Entry>
    var now: Time

    constructor (now: Time)
      ensures State() == Store(map[], now)
    {
      this.entries := map[];
      this.now := now;
    }

    function State(): Store
      reads this
    {
      Store(entries, now)
    }

    method Get(k: Key, net: Net) returns (r: Result<Option<Value>, StoreError>)
      ensures r == if net.Fine? then Success(State().Get(k)) else Failure(Unreachable)
    {
      if !net.Fine? {
        return Failure(Unreachable);
      }
      if k in entries && (entries[k].deadline.None? || now < entries[k].deadline.value) {
        return Success(Some(entries[k].value));
      }
      return Success(None);
    }

    method Exists(k: Key, net: Net) returns (r: Result<bool, StoreError>)
      ensures r == if net.Fine? then Success(State().Live(k)) else Failure(Unreachable)
    {
      var v := Get(k, net);
      match v
      case Success(value) => return Success(value.Some?);
      case Failure(e) => return Failure(e);
    }

    method Set(k: Key, v: Value, ttl: Ttl, net: Net) returns (r: Result<(), StoreError>)
      modifies this
      ensures State() == if net.Refused? then old(State()) else old(State()).Set(k, v, ttl)
      ensures r == if net.Fine? then Success(()) else Failure(Unreachable)
    {
      if net.Refused? {
        return Failure(Unreachable);
      }
      entries := entries[k := Entry(v, Some(now + ttl * SECOND))];
      r := if net.Fine? then Success(()) else Failure(Unreachable);
    }

    method SetNX(k: Key, v: Value, ttl: Ttl, net: Net) returns (r: Result<bool, StoreError>)
      modifies this
      ensures State() == if net.Refused? then old(State()) else old(State()).SetNX(k, v, ttl)
      ensures r == if net.Fine? then Success(!old(State()).Live(k)) else Failure(Unreachable)
    {
      if net.Refused? {
        return Failure(Unreachable);
      }
      var present := State().Live(k);
      if !present {
        entries := entries[k := Entry(v, Some(now + ttl * SECOND))];
      }
      r := if net.Fine? then Success(!present) else Failure(Unreachable);
    }

    method Delete(k: Key, net: Net) returns (r: Result<(), StoreError>)
      modifies this
      ensures State() == if net.Refused? then old(State()) else old(State()).Delete(k)
      ensures r == if net.Fine? then Success(()) else Failure(Unreachable)
    {
      if net.Refused? {
        return Failure(Unreachable);
      }
      entries := entries - {k};
      r := if net.Fine? then Success(()) else Failure(Unreachable);
    }

    method Incr(k: Key, net: Net) returns (r: Result<nat, StoreError>)
      modifies this
      ensures State() == if net.Refused? then old(State()) else old(State()).Incr(k)
      ensures r == if !net.Fine? then Failure(Unreachable)
                   else match old(State()).Incremented(k)
                     case Some(n) => Success(n)
                     case None => Failure(NotANumber)
    {
      if net.Refused? {
        return Failure(Unreachable);
      }
      var count := 0;
      var deadline: Option<Time> := None;
      if State().Live(k) {
        if !entries[k].value.Count? {
          return Failure(if net.Fine? then NotANumber else Unreachable);
        }
        count := entries[k].value.count;
        deadline := entries[k].deadline;
      }
      entries := entries[k := Entry(Count(count + 1), deadline)];
      r := if net.Fine? then Success(count + 1) else Failure(Unreachable);
    }

    method Expire(k: Key, ttl: Ttl, net: Net) returns (r: Result<(), StoreError>)
      modifies this
      ensures State() == if net.Refused? then old(State()) else old(State()).Expire(k, ttl)
      ensures r == if net.Fine? then Success(()) else Failure(Unreachable)
    {
      if net.Refused? {
        return Failure(Unreachable);
      }
      if State().Live(k) {
        entries := entries[k := entries[k].(deadline := Some(now + ttl * SECOND))];
      }
      r := if net.Fine? then Success(()) else Failure(Unreachable);
    }
  }
}
