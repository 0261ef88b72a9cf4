// One-time passwords: issue, verify, attempt counting (internal/db/otp.go) and
// the verify endpoint (internal/api/otp.go).

module Otp {
  import opened Wrappers
  import opened TtlStore
  import Runs
  import Scopes
  import SingleUse

  const MAX_ATTEMPTS: nat := 5
  const OTP_TTL: Ttl := 300
  const COOLDOWN_TTL: Ttl := 60
  const REDEEMED_TTL: Ttl := 300

  datatype OtpError = Cooldown | NotFound | Invalid | AlreadyRedeemed | CacheDown | NotConfigured | NoRandomness

  datatype IssueNet = IssueNet(cooldown: Net, redeemed: Net, code: Net)
  datatype VerifyNet = VerifyNet(get: Net, claim: Net, delete: Net)
  datatype AttemptNet = AttemptNet(check: Net, incr: Net, expire: Net)

  /** The string Get hands to Go code: empty when there is no such key. */
  function Raw(v: Option<Value>): string {
    if v.Some? && v.value.Text? then v.value.text else ""
  }

  // ---- What each store method does when nothing else runs in between --------

  function Issue(s: Store, email: string, code: Option<string>, net: IssueNet): (Store, Result<string, OtpError>) {
    var s1 := if net.cooldown.Refused? then s else s.SetNX(OtpCooldown(email), Sentinel, COOLDOWN_TTL);
    if !net.cooldown.Fine? then (s1, Failure(CacheDown))
    else if s.Live(OtpCooldown(email)) then (s1, Failure(Cooldown))
    else
      var s2 := if net.redeemed.Refused? then s1 else s1.Delete(OtpRedeemed(email));
      if code.None? then (s2, Failure(NoRandomness))
      else
        var s3 := if net.code.Refused? then s2 else s2.Set(OtpCode(email), Text(code.value), OTP_TTL);
        (s3, if net.code.Fine? then Success(code.value) else Failure(CacheDown))
  }

  function Verify(s: Store, email: string, code: string, net: VerifyNet): (Store, Result<(), OtpError>) {
    var stored := Raw(s.Get(OtpCode(email)));
    if !net.get.Fine? then (s, Failure(CacheDown))
    else if stored == "" then (s, Failure(NotFound))
    else if stored != code then (s, Failure(Invalid))
    else
      var s1 := if net.claim.Refused? then s else s.SetNX(OtpRedeemed(email), Sentinel, REDEEMED_TTL);
      if !net.claim.Fine? then (s1, Failure(CacheDown))
      else if s.Live(OtpRedeemed(email)) then (s1, Failure(AlreadyRedeemed))
      else
        (if net.delete.Refused? then s1 else s1.Delete(OtpCode(email)),
         if net.delete.Fine? then Success(()) else Failure(CacheDown))
  }

  /** The count of this attempt; 0 when no code is pending. */
  function Attempt(s: Store, email: string, net: AttemptNet): (Store, Result<nat, OtpError>) {
    var key := OtpAttempts(email);
    if !net.check.Fine? then (s, Failure(CacheDown))
    else if !s.Live(OtpCode(email)) then (s, Success(0))
    else
      var s1 := if net.incr.Refused? then s else s.Incr(key);
      if !net.incr.Fine? || s.Incremented(key).None? then (s1, Failure(CacheDown))
      else
        var n := s.Incremented(key).value;
        if n != 1 then (s1, Success(n))
        else
          (if net.expire.Refused? then s1 else s1.Expire(key, OTP_TTL),
           if net.expire.Fine? then Success(n) else Failure(CacheDown))
  }

  // ---- The methods of CacheClient -------------------------------------------

  method GenerateAndStoreOTP(api: Redis?, email: string, random: Option<string>, net: IssueNet)
    returns (r: Result<string, OtpError>)
    modifies api
    ensures api == null ==> r == Failure(NotConfigured)
    ensures api != null ==> (api.State(), r) == Issue(old(api.State()), email, random, net)
  {
    if api == null {
      return Failure(NotConfigured);
    }
    var claimed := api.SetNX(OtpCooldown(email), Sentinel, COOLDOWN_TTL, net.cooldown);
    if claimed.Failure? {
      return Failure(CacheDown);
    }
    if !claimed.value {
      return Failure(Cooldown);
    }
    var _ := api.Delete(OtpRedeemed(email), net.redeemed);
    if random.None? {
      return Failure(NoRandomness);
    }
    var stored := api.Set(OtpCode(email), Text(random.value), OTP_TTL, net.code);
    if stored.Failure? {
      return Failure(CacheDown);
    }
    return Success(random.value);
  }

  method VerifyOTP(api: Redis?, email: string, code: string, net: VerifyNet) returns (r: Result<(), OtpError>)
    modifies api
    ensures api == null ==> r == Failure(NotConfigured)
    ensures api != null ==> (api.State(), r) == Verify(old(api.State()), email, code, net)
  {
    if api == null {
      return Failure(NotConfigured);
    }
    var got := api.Get(OtpCode(email), net.get);
    if got.Failure? {
      return Failure(CacheDown);
    }
    var stored := Raw(got.value);
    if stored == "" {
      return Failure(NotFound);
    }
    if stored != code {
      return Failure(Invalid);
    }
    var claimed := api.SetNX(OtpRedeemed(email), Sentinel, REDEEMED_TTL, net.claim);
    if claimed.Failure? {
      return Failure(CacheDown);
    }
    if !claimed.value {
      return Failure(AlreadyRedeemed);
    }
    var deleted := api.Delete(OtpCode(email), net.delete);
    if deleted.Failure? {
      return Failure(CacheDown);
    }
    return Success(());
  }

  method IncrOTPAttempts(api: Redis?, email: string, net: AttemptNet) returns (r: Result<nat, OtpError>)
    modifies api
    ensures api == null ==> r == Success(0)
    ensures api != null ==> (api.State(), r) == Attempt(old(api.State()), email, net)
  {
    if api == null {
      return Success(0);
    }
    var active := api.Exists(OtpCode(email), net.check);
    if active.Failure? {
      return Failure(CacheDown);
    }
    if !active.value {
      return Success(0);
    }
    var count := api.Incr(OtpAttempts(email), net.incr);
    if count.Failure? {
      return Failure(CacheDown);
    }
    if count.value == 1 {
      var expiring := api.Expire(OtpAttempts(email), OTP_TTL, net.expire);
      if expiring.Failure? {
        return Failure(CacheDown);
      }
    }
    return Success(count.value);
  }

  method DeleteOTPAttempts(api: Redis?, email: string, net: Net)
    modifies api
    ensures api != null ==>
              api.State() == if net.Refused? then old(api.State())
                             else old(api.State()).Delete(OtpAttempts(email))
  {
    if api != null {
      var _ := api.Delete(OtpAttempts(email), net);
    }
  }

  // ---- The verify endpoint --------------------------------------------------

  /** What the customer service answers about the e-mail address. */
  datatype Lookup = LookupFailed | NoAccount | Account(userId: string)

  datatype HandlerNet = HandlerNet(attempt: AttemptNet, verify: VerifyNet, clear: Net)

  datatype Outcome =
    | BadAddress
    | MissingCode
    | TooManyAttempts
    | Rejected(error: OtpError)
    | LookupUnavailable
    | AccountNotFound
    | Verified(subject: string)

  function VerifyRequest(s: Store, email: string, code: string, lookup: Lookup, net: HandlerNet): (Store, Outcome) {
    if code == "" then (s, MissingCode)
    else
      var (s1, attempt) := Attempt(s, email, net.attempt);
      if attempt.Success? && attempt.value > MAX_ATTEMPTS then (s1, TooManyAttempts)
      else
        var (s2, verified) := Verify(s1, email, code, net.verify);
        if verified.Failure? then (s2, Rejected(verified.error))
        else
          var s3 := if net.clear.Refused? then s2 else s2.Delete(OtpAttempts(email));
          (s3, match lookup
               case LookupFailed => LookupUnavailable
               case NoAccount => AccountNotFound
               case Account(userId) => Verified(userId))
  }

  /** `parses` says whether the normalised address parses; white space around the
      code is ignored. */
  method OTPVerifyHandler(api: Redis, email: string, parses: bool, raw: string, lookup: Lookup, net: HandlerNet)
    returns (r: Outcome)
    modifies api
    ensures !parses ==> api.State() == old(api.State()) && r == BadAddress
    ensures parses ==> (api.State(), r) == VerifyRequest(old(api.State()), email, Scopes.TrimSpace(raw), lookup, net)
  {
    if !parses {
      return BadAddress;
    }
    var code := Scopes.TrimSpace(raw);
    if code == "" {
      return MissingCode;
    }
    var attempts := IncrOTPAttempts(api, email, net.attempt);
    if attempts.Success? && attempts.value > MAX_ATTEMPTS {
      return TooManyAttempts;
    }
    var verified := VerifyOTP(api, email, code, net.verify);
    if verified.Failure? {
      return Rejected(verified.error);
    }
    DeleteOTPAttempts(api, email, net.clear);
    match lookup
    case LookupFailed => r := LookupUnavailable;
    case NoAccount => r := AccountNotFound;
    case Account(userId) => r := Verified(userId);
  }

  /** The attempts of this address are used up, and the store can say so. */
  predicate GateClosed(s: Store, email: string, net: AttemptNet) {
    && net.check.Fine? && net.incr.Fine? && s.Live(OtpAttempts(email))
    && s.entries[OtpAttempts(email)].value.Count? && 5 <= s.entries[OtpAttempts(email)].value.count
  }

  /** A code is verified for a user exactly if it is the pending one, not redeemed yet,
      the gate is open, nothing fails on the way, and the user has an account. */
  lemma VerifiedIff(s: Store, email: string, code: string, lookup: Lookup, net: HandlerNet)
    ensures VerifyRequest(s, email, code, lookup, net).1.Verified? <==>
            && code != "" && s.Get(OtpCode(email)) == Some(Text(code)) && !s.Live(OtpRedeemed(email))
            && !GateClosed(s, email, net.attempt)
            && net.verify.get.Fine? && net.verify.claim.Fine? && net.verify.delete.Fine? && lookup.Account?
    ensures var r := VerifyRequest(s, email, code, lookup, net).1;
            r.Verified? ==> lookup == Account(r.subject)
  {
    var s1 := Attempt(s, email, net.attempt).0;
    assert s1.Get(OtpCode(email)) == s.Get(OtpCode(email)) && s1.Live(OtpRedeemed(email)) == s.Live(OtpRedeemed(email));
  }

  /** What each other answer says about the request. */
  predicate Explains(s: Store, email: string, code: string, lookup: Lookup, net: HandlerNet, r: Outcome) {
    var stored, closed := Raw(s.Get(OtpCode(email))), s.Live(OtpCode(email)) && GateClosed(s, email, net.attempt);
    var compares := code != "" && !closed && net.verify.get.Fine?;
    var wins := compares && stored == code && net.verify.claim.Fine? && !s.Live(OtpRedeemed(email));
    match r
    case BadAddress => false
    case MissingCode => code == ""
    case TooManyAttempts => code != "" && closed
    case Rejected(NotFound) => compares && stored == ""
    case Rejected(Invalid) => compares && stored !in {"", code}
    case Rejected(AlreadyRedeemed) =>
      compares && stored == code && net.verify.claim.Fine? && s.Live(OtpRedeemed(email))
    case Rejected(CacheDown) =>
      && code != "" && !closed
      && (!net.verify.get.Fine? || (stored == code && !net.verify.claim.Fine?) || (wins && !net.verify.delete.Fine?))
    case Rejected(_) => false
    case LookupUnavailable => wins && net.verify.delete.Fine? && lookup.LookupFailed?
    case AccountNotFound => wins && net.verify.delete.Fine? && lookup.NoAccount?
    case Verified(user) => wins && net.verify.delete.Fine? && lookup == Account(user)
  }

  lemma AnswersExplain(s: Store, email: string, code: string, lookup: Lookup, net: HandlerNet)
    ensures Explains(s, email, code, lookup, net, VerifyRequest(s, email, code, lookup, net).1)
  {
    var s1 := Attempt(s, email, net.attempt).0;
    assert s1.Get(OtpCode(email)) == s.Get(OtpCode(email)) && s1.Live(OtpRedeemed(email)) == s.Live(OtpRedeemed(email));
  }

  /** Two stores that differ at most in the keys of one address. */
  ghost predicate SameElsewhere(s: Store, t: Store, email: string) {
    && s.now == t.now
    && forall k :: k !in {OtpCode(email), OtpAttempts(email), OtpCooldown(email), OtpRedeemed(email)} ==>
         && (k in s.entries <==> k in t.entries)
         && (k in s.entries ==> s.entries[k] == t.entries[k])
  }

  lemma AttemptIsLocal(s: Store, email: string, net: AttemptNet)
    ensures SameElsewhere(s, Attempt(s, email, net).0, email)
  {
  }

  lemma VerifyIsLocal(s: Store, email: string, code: string, net: VerifyNet)
    ensures SameElsewhere(s, Verify(s, email, code, net).0, email)
  {
  }

  /** Verifying a code touches no other key and takes no time. */
  lemma VerifyRequestIsLocal(s: Store, email: string, code: string, lookup: Lookup, net: HandlerNet)
    ensures SameElsewhere(s, VerifyRequest(s, email, code, lookup, net).0, email)
  {
    AttemptIsLocal(s, email, net.attempt);
    VerifyIsLocal(Attempt(s, email, net.attempt).0, email, code, net.verify);
  }

  // ---- Single use, with every store operation a step of its own -------------

  /** Verify calls for one address, each of which takes less than `limit`. */
  function Redemption(email: string, limit: Time): SingleUse.Protocol {
    SingleUse.Protocol(OtpCode(email), OtpRedeemed(email), REDEEMED_TTL, limit, true)
  }

  function CallSteps(code: string, net: VerifyNet): seq<SingleUse.Action> {
    [SingleUse.Fetch(0, Some(Text(code))), SingleUse.Claim(0, net.claim), SingleUse.Remove(0, net.delete)]
  }

  /** The three steps of one call, run without interruption, are VerifyOTP. */
  lemma StepsRefineVerify(s: Store, email: string, code: string, net: VerifyNet, limit: Time)
    requires code != "" && net.get.Fine? && 0 < limit
    ensures var end := SingleUse.Run(Redemption(email, limit), SingleUse.State(s, map[]), CallSteps(code, net));
            && end.store == Verify(s, email, code, net).0
            && (0 in end.calls && end.calls[0].Passed? <==> Verify(s, email, code, net).1.Success?)
  {
    var p := Redemption(email, limit);
    Runs.Run3(SingleUse.Machine(p), SingleUse.State(s, map[]), SingleUse.Fetch(0, Some(Text(code))),
              SingleUse.Claim(0, net.claim), SingleUse.Remove(0, net.delete));
    SingleUse.StepsOfOneCall(p, s, Some(Text(code)), net.claim, net.delete);
    VerifyIsOneCall(s, email, code, net, limit);
  }

  lemma VerifyIsOneCall(s: Store, email: string, code: string, net: VerifyNet, limit: Time)
    requires code != "" && net.get.Fine?
    ensures SingleUse.Alone(Redemption(email, limit), s, Some(Text(code)), net.claim, net.delete) ==
            (Verify(s, email, code, net).0, Verify(s, email, code, net).1.Success?)
  {
  }

  /** One stored code is redeemed at most once, whatever any number of
      overlapping calls do, if each takes less than 150 s and no new code is
      issued meanwhile. */
  lemma RedeemedAtMostOnce(email: string, s: Store, actions: seq<SingleUse.Action>)
    requires forall a :: a in actions ==> SingleUse.Quiet(Redemption(email, 150 * SECOND), a)
    ensures SingleUse.AtMostOneSuccess(
              SingleUse.Run(Redemption(email, 150 * SECOND), SingleUse.State(s, map[]), actions))
  {
    SingleUse.AtMostOne(Redemption(email, 150 * SECOND), SingleUse.State(s, map[]), actions);
  }

  /** 150 s is the exact limit: any larger one lets two calls redeem one code. */
  lemma RedemptionLimitIsExact(email: string, code: string, limit: Time)
    requires code != ""
    ensures limit <= 150 * SECOND <==>
            forall actions: seq<SingleUse.Action> ::
              (forall a :: a in actions ==> SingleUse.Quiet(Redemption(email, limit), a)) ==>
                SingleUse.AtMostOneSuccess(
                  SingleUse.Run(Redemption(email, limit),
                                SingleUse.Fresh(Redemption(email, limit), Text(code), 0), actions))
  {
    SingleUse.OneSuccessIffCallsAreShort(Redemption(email, limit), Text(code), 0);
    assert forall a: SingleUse.Action :: SingleUse.Deletes(Redemption(email, limit), a);
  }
}
