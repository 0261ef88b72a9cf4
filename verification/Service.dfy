// The handlers as code: they authenticate, build scope lists in loops, sign tokens
// and write the denylist, and are proved against AuthServer.

module Service {
  import opened Wrappers
  import opened TtlStore
  import opened Scopes
  import opened Clients
  import opened AuthServer
  import AuthCode
  import Denylist
  import Otp
  import Passkeys

  class TokenService {
    const redis: Redis
    const registry: Registry
    var tokens: seq<Token>
    var nextId: nat

    constructor (redis: Redis, registry: Registry)
      ensures this.redis == redis && this.registry == registry
      ensures State() == Server(redis.State(), registry.clients, [], 0)
    {
      this.redis := redis;
      this.registry := registry;
      tokens := [];
      nextId := 0;
    }

    function State(): Server
      reads this, redis, registry
    {
      Server(redis.State(), registry.clients, tokens, nextId)
    }

    method NewUuid() returns (id: Id)
      modifies this`nextId
      ensures id == Id(old(nextId)) && nextId == old(nextId) + 1
    {
      id := Id(nextId);
      nextId := nextId + 1;
    }

    /** `ok` says whether the key signs; the jti is drawn before that. */
    method SignRefreshToken(ok: bool, kind: Kind, origin: Origin, subject: string, audience: string, azp: string,
                            family: Id, ttl: nat, scopes: seq<string>) returns (at: Option<nat>)
      modifies this
      ensures ok ==> State() == Sign(old(State()), kind, origin, subject, audience, azp, family, ttl, scopes)
      ensures !ok ==> State() == Burn(old(State()), 1)
      ensures at == if ok then Some(|old(tokens)|) else None
    {
      var now := redis.now;
      var expiresAt := (now + ttl * SECOND) / SECOND * SECOND;
      var jti := NewUuid();
      if !ok {
        return None;
      }
      at := Some(|tokens|);
      var claims := Claims(ISSUER, jti, subject, [audience], azp, family, scopes, expiresAt,
                           now / SECOND * SECOND, now / SECOND * SECOND);
      tokens := tokens + [Token(claims, kind, origin)];
    }

    method SignToken(ok: bool, origin: Origin, subject: string, audience: string, ttl: nat, scopes: seq<string>)
      returns (at: Option<nat>)
      modifies this
      ensures ok ==> State() == SignAccess(old(State()), origin, subject, audience, ttl, scopes)
      ensures !ok ==> State() == Burn(old(State()), 1)
      ensures at == if ok then Some(|old(tokens)|) else None
    {
      at := SignRefreshToken(ok, Access, origin, subject, audience, "", NoId, ttl, scopes);
    }

    /** A refresh token of a new family. */
    method SignNewFamily(ok: bool, origin: Origin, subject: string, audience: string, azp: string, scopes: seq<string>)
      returns (at: Option<nat>)
      modifies this
      ensures ok ==> State() == SignFirstRefresh(old(State()), origin, subject, audience, azp, scopes)
      ensures !ok ==> State() == Burn(old(State()), 2)
      ensures at == if ok then Some(|old(tokens)|) else None
    {
      var family := NewUuid();
      at := SignRefreshToken(ok, Refresh, origin, subject, audience, azp, family, REFRESH_TTL, scopes);
    }

    method ParseClaims(token: nat) returns (r: Option<Claims>)
      ensures r == Parse(State(), token)
    {
      if token >= |tokens| || redis.now >= tokens[token].claims.exp || redis.now < tokens[token].claims.notBefore {
        return None;
      }
      return Some(tokens[token].claims);
    }

    /** The second half of the client_credentials grant. */
    method SignGrantedTokens(q: ClientRequest, rec: ClientRecord, plan: Plan) returns (r: Reply)
      modifies this
      ensures (State(), r) == SignGranted(old(State()), q, rec, plan)
    {
      var audience := SERVICE_AUDIENCE;
      if |rec.allowedAudiences| == 1 {
        audience := rec.allowedAudiences[0];
      }
      var scopes := [];
      if |plan.fields| > 0 {
        scopes := ServiceScopes(q.clientId, plan.fields);
      }
      var origin := ClientGrant(q.scope, rec.allowedScopes);
      var access := SignToken(q.signs.access, origin, q.clientId, audience, ACCESS_TTL, scopes);
      if access.None? {
        return Denied(SigningFailed);
      }
      if !plan.offline {
        return AccessOnly(access.value);
      }
      var refresh := SignNewFamily(q.signs.refresh, origin, q.clientId, SERVICE_AUDIENCE, q.clientId,
                                   [OFFLINE] + plan.fields);
      if refresh.None? {
        return Denied(SigningFailed);
      }
      return Pair(access.value, refresh.value);
    }

    method HandleClientCredentials(u: Setup, dummy: string, q: ClientRequest) returns (r: Reply)
      modifies this
      ensures (State(), r) == ClientCredentials(u, old(State()), q)
    {
      if q.clientId == "" || q.clientSecret == "" {
        return Denied(MissingCredentials);
      }
      var found := registry.ValidateAndGet(u.hash, dummy, q.clientId, q.clientSecret);
      if found.None? {
        return Denied(BadCredentials);
      }
      var rec := found.value;
      var plan := PlanScopes(q.scope);
      if plan.checked != "" {
        if !q.known {
          return Denied(InvalidScope);
        }
        var allowed := HasScope(rec, plan.checked);
        if !allowed {
          return Denied(ScopeNotPermitted);
        }
      }
      r := SignGrantedTokens(q, rec, plan);
    }

    /** True when the refresh is refused; a replay revokes the whole family. */
    method RefreshRevocationDenied(c: Claims, net: RefreshNet) returns (denied: Option<Error>)
      modifies redis
      ensures (redis.State(), denied) == RevocationCheck(old(redis.State()), c, net)
    {
      if c.jti.Id? {
        var revoked := Denylist.CheckRevoked(redis, c.jti, net.jti);
        if revoked.Failure? {
          return Some(CheckUnavailable);
        }
        if revoked.value {
          if c.family.Id? {
            var familyTTL := c.exp - redis.now;
            if familyTTL > 0 {
              var _ := Denylist.StoreRevokedFamilyEntry(redis, c.family, familyTTL, net.storeFamily);
            }
          }
          return Some(Revoked);
        }
      }
      if c.family.Id? {
        var familyRevoked := Denylist.CheckFamilyRevoked(redis, c.family, net.family);
        if familyRevoked.Failure? {
          return Some(CheckUnavailable);
        }
        if familyRevoked.value {
          return Some(Revoked);
        }
      }
      return None;
    }

    /** Tokens with a service scope skip the gate. */
    method IsRefreshTokenUserBanned(c: Claims, banned: bool) returns (r: bool)
      ensures r <==> BanApplies(c, banned)
    {
      for i := 0 to |c.scopes|
        invariant forall j :: 0 <= j < i ==> !IsServiceScope(c.scopes[j])
      {
        if IsServiceScope(c.scopes[i]) {
          return false;
        }
      }
      return banned;
    }

    /** Signs the successors of a refresh token; None when a signature fails. */
    method SignSuccessors(q: RefreshRequest, c: Claims, audience: string, tokenScopes: seq<string>)
      returns (r: Option<(nat, nat)>)
      requires audience == RefreshAudience(c) && tokenScopes == RefreshedScopes(c, q.clientId)
      modifies this
      ensures var s, ok := old(State()), q.signs;
              State() == if !ok.access then Burn(s, 1)
                         else if !ok.refresh then Burn(SignRotatedAccess(s, q, c), if c.family.NoId? then 2 else 1)
                         else SignRotated(s, q, c)
      ensures r == if q.signs.access && q.signs.refresh then Some((|old(tokens)|, |old(tokens)| + 1)) else None
    {
      var access := SignToken(q.signs.access, Rotated(q.token), c.subject, audience, ACCESS_TTL, tokenScopes);
      if access.None? {
        return None;
      }
      var family := c.family;
      if family.NoId? {
        family := NewUuid();
      }
      var refresh := SignRefreshToken(q.signs.refresh, Refresh, Rotated(q.token), c.subject, audience, q.clientId,
                                      family,
                                      REFRESH_TTL, c.scopes);
      if refresh.None? {
        return None;
      }
      return Some((access.value, refresh.value));
    }

    /** Puts the rotated token on the denylist, after its successors were signed. */
    method DenyRotated(q: RefreshRequest, c: Claims)
      modifies redis
      ensures redis.State() == Denylist.StoreRevoked(old(redis.State()), c.jti, c.exp - old(redis.now),
                                                     q.net.storeJti).0
    {
      if c.jti.Id? {
        var remaining := c.exp - redis.now;
        if remaining > 0 {
          var _ := Denylist.StoreRevokedEntry(redis, c.jti, remaining, q.net.storeJti);
        }
      }
    }

    /** The checks before the denylist is read. */
    method PresentRefreshToken(u: Setup, dummy: string, q: RefreshRequest)
      returns (r: Result<(ClientRecord, Claims), Error>)
      ensures r.Success? <==> RefreshRefusal(u, State(), q).None?
      ensures r.Failure? ==> RefreshRefusal(u, State(), q) == Some(r.error)
      ensures r.Success? ==> r.value == (Redacted(State().directory[q.clientId]), tokens[q.token].claims)
    {
      if !q.given {
        return Failure(MissingToken);
      }
      if q.clientId == "" || q.clientSecret == "" {
        return Failure(MissingCredentials);
      }
      var found := registry.ValidateAndGet(u.hash, dummy, q.clientId, q.clientSecret);
      if found.None? {
        return Failure(BadCredentials);
      }
      var parsed := ParseClaims(q.token);
      if parsed.None? {
        return Failure(Unparseable);
      }
      if OFFLINE !in parsed.value.scopes {
        return Failure(NotARefreshToken);
      }
      if parsed.value.azp != q.clientId {
        return Failure(OtherClient);
      }
      return Success((found.value, parsed.value));
    }

    /** The audience and the scopes of the new access token, unless the client may not have it. */
    method RefreshedClaims(rec: ClientRecord, c: Claims, clientId: string) returns (r: Option<(string, seq<string>)>)
      ensures r.Some? <==> AudiencePermitted(rec, c)
      ensures r.Some? ==> r.value == (RefreshAudience(c), RefreshedScopes(c, clientId))
    {
      var allowedAudiences := rec.allowedAudiences;
      if |allowedAudiences| == 0 {
        allowedAudiences := [SERVICE_AUDIENCE];
      }
      var audience := SERVICE_AUDIENCE;
      if |c.audience| > 0 {
        audience := c.audience[0];
      }
      var isUserSession := c.azp != "" && c.azp != c.subject;
      if !isUserSession && audience !in allowedAudiences {
        return None;
      }
      var accessScopes := FilterOffline(c.scopes);
      if isUserSession {
        accessScopes := [PASSKEY_SCOPE];
      }
      var tokenScopes := accessScopes;
      if !isUserSession {
        tokenScopes := ServiceScopes(clientId, accessScopes);
      }
      return Some((audience, tokenScopes));
    }

    method HandleRefreshToken(u: Setup, dummy: string, q: RefreshRequest) returns (r: Reply)
      modifies this, redis
      ensures (State(), r) == RefreshGrant(u, old(State()), q)
    {
      var presented := PresentRefreshToken(u, dummy, q);
      if presented.Failure? {
        return Denied(presented.error);
      }
      var (rec, c) := presented.value;
      var denied := RefreshRevocationDenied(c, q.net);
      if denied.Some? {
        return Denied(denied.value);
      }
      var banned := IsRefreshTokenUserBanned(c, q.banned);
      if banned {
        return Denied(Banned);
      }
      var refreshed := RefreshedClaims(rec, c, q.clientId);
      if refreshed.None? {
        return Denied(AudienceNotPermitted);
      }
      var pair := SignSuccessors(q, c, refreshed.value.0, refreshed.value.1);
      if pair.None? {
        return Denied(SigningFailed);
      }
      DenyRotated(q, c);
      return Pair(pair.value.0, pair.value.1);
    }

    method HandleAuthorizationCode(u: Setup, q: AuthCode.ExchangeRequest, banned: bool, net: AuthCode.ExchangeNet,
                                   signs: Signing) returns (r: Reply)
      modifies this, redis
      ensures (State(), r) == CodeExchange(u, old(State()), q, banned, net, signs)
    {
      var entry := AuthCode.ExchangeCode(u.codeGrant, u.s256, registry, redis, q, net);
      if entry.Failure? {
        return Denied(CodeRefused(entry.error));
      }
      if banned {
        return Denied(Banned);
      }
      var origin, user, scopes := CodeGrant(q.code, entry.value), entry.value.userId, Fields(entry.value.scope);
      var access := SignToken(signs.access, origin, user, USER_AUDIENCE, ACCESS_TTL, scopes);
      if access.None? {
        return Denied(SigningFailed);
      }
      var refresh := SignNewFamily(signs.refresh, origin, user, USER_AUDIENCE, q.clientId, [OFFLINE] + scopes);
      if refresh.None? {
        return Denied(SigningFailed);
      }
      return Pair(access.value, refresh.value);
    }

    method HandleOtpLogin(email: string, parses: bool, code: string, lookup: Otp.Lookup, net: Otp.HandlerNet,
                          signs: bool)
      returns (r: Reply)
      modifies this, redis
      ensures !parses ==> State() == old(State()) && r == Denied(OtpRefused(Otp.BadAddress))
      ensures parses ==> (State(), r) == OtpVerify(old(State()), email, code, lookup, net, signs)
    {
      var outcome := Otp.OTPVerifyHandler(redis, email, parses, code, lookup, net);
      if !outcome.Verified? {
        return Denied(OtpRefused(outcome));
      }
      var access := SignToken(signs, OtpLogin(email, outcome.subject), outcome.subject, USER_AUDIENCE, USER_TTL,
                              [OTP_SCOPE]);
      if access.None? {
        return Denied(SigningFailed);
      }
      return AccessOnly(access.value);
    }

    /** The session is stored, and may be without the caller learning it, exactly when
        nothing is refused; success means that it was and that the reply came back. */
    method PasskeyLoginBeginHandler(challenge: string, email: string, parses: bool, clientId: string,
                                    lookup: Otp.Lookup, existing: nat, c: Passkeys.Ceremony, net: Net)
      returns (r: Result<(), BeginError>)
      modifies redis
      ensures var refusal := BeginRefusal(old(State()).directory, parses, clientId, lookup, existing, c);
              if refusal.Some? then r == Failure(refusal.value) && State() == old(State())
              else
                && State() == PasskeyBegin(old(State()), challenge, LoginSession(lookup.userId, email, clientId), net)
                && r == if net.Fine? then Success(()) else Failure(BeginFailed)
      ensures r.Success? ==>
                && clientId in registry.clients && lookup.Account? && lookup.userId != "" && existing > 0
                && redis.State().Get(LoginSessionKey(challenge)) ==
                   Some(Login(LoginSession(lookup.userId, email, clientId)))
    {
      if !parses {
        return Failure(BadEmail);
      }
      if clientId == "" {
        return Failure(NoClientId);
      }
      var known := registry.Get(clientId);
      if known.None? {
        return Failure(UnknownClient);
      }
      if !c.serviceToken || lookup.LookupFailed? {
        return Failure(BeginUnavailable);
      }
      if lookup.NoAccount? || lookup.userId == "" {
        return Failure(UnknownAccount);
      }
      if !c.listed {
        return Failure(BeginUnavailable);
      }
      if existing == 0 {
        return Failure(NoPasskeys);
      }
      if !c.valid {
        return Failure(BeginFailed);
      }
      var session := LoginSession(lookup.userId, email, clientId);
      var stored := Passkeys.StoreSession(redis, LoginSessionKey(challenge), Login(session), net);
      return if stored.Success? then Success(()) else Failure(BeginFailed);
    }

    method HandlePasskeyLogin(challenge: string, c: Passkeys.Ceremony, banned: bool, net: Passkeys.LoginNet,
                              signs: Signing) returns (r: Reply)
      modifies this, redis
      ensures (State(), r) == PasskeyComplete(old(State()), challenge, c, banned, net, signs)
    {
      var session := Passkeys.PasskeyLoginCompleteHandler(redis, challenge, c, banned, net);
      if session.Failure? {
        return Denied(LoginRefused(session.error));
      }
      var origin, user := PasskeyLogin(challenge, session.value), session.value.userId;
      var access := SignToken(signs.access, origin, user, USER_AUDIENCE, USER_TTL, [PASSKEY_SCOPE]);
      if access.None? {
        return Denied(SigningFailed);
      }
      var refresh := SignNewFamily(signs.refresh, origin, user, USER_AUDIENCE, session.value.clientId, [OFFLINE]);
      if refresh.None? {
        return Denied(SigningFailed);
      }
      return Pair(access.value, refresh.value);
    }

    method OAuthRevokeHandler(u: Setup, dummy: string, q: RevokeRequest) returns (r: RevokeReply)
      modifies redis
      ensures (State(), r) == Revoke(u, old(State()), q)
    {
      if q.clientId == "" || q.clientSecret == "" {
        return RevokeDenied(MissingCredentials);
      }
      var known := registry.ValidateAndGet(u.hash, dummy, q.clientId, q.clientSecret);
      if known.None? {
        return RevokeDenied(BadCredentials);
      }
      var parsed := ParseClaims(q.token);
      if parsed.None? || parsed.value.jti.NoId? {
        return NothingToRevoke;
      }
      var c := parsed.value;
      var subject := registry.Get(c.subject);
      if subject.Some? {
        if c.subject != q.clientId {
          return RevokeDenied(OtherClient);
        }
      } else if c.azp != "" && c.azp != q.clientId {
        return RevokeDenied(OtherClient);
      }
      var ttl := c.exp - redis.now;
      if ttl <= 0 {
        return NothingToRevoke;
      }
      var stored := Denylist.StoreRevokedEntry(redis, c.jti, ttl, q.net);
      if stored.Failure? {
        return RevokeFailed;
      }
      return RevokeStored;
    }

    method OAuthIntrospectHandler(token: nat, net: Net) returns (r: Introspection)
      ensures r == Introspect(State(), token, net)
    {
      var parsed := ParseClaims(token);
      if parsed.None? {
        return Inactive;
      }
      var claims := parsed.value;
      var scope: Option<string> := None;
      if |claims.scopes| > 0 {
        scope := Some(Join(claims.scopes));
      }
      var aud: Option<string> := None;
      if |claims.audience| > 0 {
        aud := Some(claims.audience[0]);
      }
      if claims.jti.Id? {
        var revoked := Denylist.CheckRevoked(redis, claims.jti, net);
        if revoked.Success? && revoked.value {
          return Inactive;
        }
      }
      return Details(scope, claims.subject, claims.subject, aud, claims.exp / SECOND, claims.iat / SECOND);
    }
  }
}
