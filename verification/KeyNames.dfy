// The strings under which the keys of TtlStore are stored, and when they differ
// (the key prefixes of internal/db/cache.go, authcode.go and webauthn.go).

module KeyNames {
  import opened TtlStore

  function Prefix(k: Key): string {
    match k
    case OtpCode(_) => "otp:"
    case OtpAttempts(_) => "otp:attempts:"
    case OtpCooldown(_) => "otp:cooldown:"
    case OtpRedeemed(_) => "otp:redeemed:"
    case SessionClaim(_) => "session:claimed:"
    case RevokedJti(_) => "revoked:jti:"
    case RevokedFamily(_) => "revoked_family:"
    case AuthCodeKey(_) => "authcode:"
    case RegistrationSession(_) => "webauthn:reg:"
    case LoginSessionKey(_) => "webauthn:login:"
  }

  function Rest(uuid: nat -> string, k: Key): string {
    match k
    case OtpCode(email) => email
    case OtpAttempts(email) => email
    case OtpCooldown(email) => email
    case OtpRedeemed(email) => email
    case SessionClaim(session) => session
    case RevokedJti(jti) => if jti.Id? then uuid(jti.n) else ""
    case RevokedFamily(family) => if family.Id? then uuid(family.n) else ""
    case AuthCodeKey(code) => code
    case RegistrationSession(user) => user
    case LoginSessionKey(challenge) => challenge
  }

  function Name(uuid: nat -> string, k: Key): string {
    Prefix(k) + Rest(uuid, k)
  }

  ghost predicate Uuids(uuid: nat -> string) {
    && (forall n :: uuid(n) != "")
    && (forall m, n :: uuid(m) == uuid(n) ==> m == n)
  }

  /** An address that does not look like the tail of another OTP key. */
  predicate PlainEmail(email: string) {
    !("attempts:" <= email) && !("cooldown:" <= email) && !("redeemed:" <= email)
  }

  predicate Plain(k: Key) {
    k.OtpCode? ==> PlainEmail(k.email)
  }

  predicate SameKind(a: Key, b: Key) {
    Prefix(a) == Prefix(b)
  }

  lemma NameBeginsWith(uuid: nat -> string, k: Key)
    ensures Prefix(k) <= Name(uuid, k) && Name(uuid, k)[|Prefix(k)|..] == Rest(uuid, k)
  {
  }

  lemma PrefixCharacters(k: Key)
    ensures Prefix(k)[0] == match k
              case SessionClaim(_) => 's' case RevokedJti(_) => 'r' case RevokedFamily(_) => 'r'
              case AuthCodeKey(_) => 'a' case RegistrationSession(_) => 'w' case LoginSessionKey(_) => 'w'
              case _ => 'o'
    ensures k.OtpAttempts? ==> Prefix(k)[..4] == "otp:" && Prefix(k)[4..] == "attempts:"
    ensures k.OtpCooldown? ==> Prefix(k)[..4] == "otp:" && Prefix(k)[4..] == "cooldown:"
    ensures k.OtpRedeemed? ==> Prefix(k)[..4] == "otp:" && Prefix(k)[4..] == "redeemed:"
    ensures k.RevokedJti? ==> Prefix(k)[7] == ':'
    ensures k.RevokedFamily? ==> Prefix(k)[7] == '_'
    ensures k.RegistrationSession? ==> Prefix(k)[9] == 'r'
    ensures k.LoginSessionKey? ==> Prefix(k)[9] == 'l'
  {
  }

  lemma EqualNamesSameKind(uuid: nat -> string, a: Key, b: Key)
    requires Plain(a) && Plain(b) && Name(uuid, a) == Name(uuid, b)
    ensures SameKind(a, b)
  {
    var name := Name(uuid, a);
    NameBeginsWith(uuid, a);
    NameBeginsWith(uuid, b);
    assert Prefix(a)[0] == name[0] == Prefix(b)[0];
    if IsOtpKey(a) && IsOtpKey(b) {
      OtpNames(uuid, a, b);
    } else {
      SameCharacters(a, b, name);
    }
  }

  predicate IsOtpKey(k: Key) {
    k.OtpCode? || k.OtpAttempts? || k.OtpCooldown? || k.OtpRedeemed?
  }

  lemma SameCharacters(a: Key, b: Key, name: string)
    requires Prefix(a) <= name && Prefix(b) <= name && (!IsOtpKey(a) || !IsOtpKey(b))
    ensures SameKind(a, b)
  {
    PrefixCharacters(a);
    PrefixCharacters(b);
    assert Prefix(a)[0] == name[0] == Prefix(b)[0];
  }

  lemma OtpNames(uuid: nat -> string, a: Key, b: Key)
    requires Plain(a) && Plain(b) && Name(uuid, a) == Name(uuid, b)
    requires IsOtpKey(a) && IsOtpKey(b)
    ensures SameKind(a, b)
  {
    if a.OtpCode? && !b.OtpCode? {
      CodeNameIs(uuid, a.email, b);
      TailBegins(b, b.email);
    } else if b.OtpCode? && !a.OtpCode? {
      CodeNameIs(uuid, b.email, a);
      TailBegins(a, a.email);
    } else if !a.OtpCode? {
      assert Prefix(a)[4] == Name(uuid, a)[4];
      assert Prefix(b)[4] == Name(uuid, b)[4];
    }
  }

  lemma TailBegins(k: Key, rest: string)
    ensures OtpTail(k) <= OtpTail(k) + rest
  {
  }

  function OtpTail(k: Key): string {
    match k
    case OtpAttempts(_) => "attempts:"
    case OtpCooldown(_) => "cooldown:"
    case OtpRedeemed(_) => "redeemed:"
    case _ => ""
  }

  /** Two keys share a name only if they are the same key, as long as no address
      begins with the tail of another OTP prefix. */
  lemma NamesAreDistinct(uuid: nat -> string, a: Key, b: Key)
    requires Uuids(uuid) && Plain(a) && Plain(b) && Name(uuid, a) == Name(uuid, b)
    ensures a == b
  {
    EqualNamesSameKind(uuid, a, b);
    NameBeginsWith(uuid, a);
    NameBeginsWith(uuid, b);
    assert Rest(uuid, a) == Rest(uuid, b);
    PrefixCharacters(a);
    PrefixCharacters(b);
  }

  /** That condition is needed: an address is plain exactly when its code key is
      no other address's attempts, cooldown or redeemed key. */
  lemma PlainIffNoClash(uuid: nat -> string, email: string)
    ensures PlainEmail(email) <==>
            forall other: string ::
              && Name(uuid, OtpCode(email)) != Name(uuid, OtpAttempts(other))
              && Name(uuid, OtpCode(email)) != Name(uuid, OtpCooldown(other))
              && Name(uuid, OtpCode(email)) != Name(uuid, OtpRedeemed(other))
  {
    if PlainEmail(email) {
      forall other: string
        ensures Name(uuid, OtpCode(email)) != Name(uuid, OtpAttempts(other))
        ensures Name(uuid, OtpCode(email)) != Name(uuid, OtpCooldown(other))
        ensures Name(uuid, OtpCode(email)) != Name(uuid, OtpRedeemed(other))
      {
        CodeNameIs(uuid, email, OtpAttempts(other));
        CodeNameIs(uuid, email, OtpCooldown(other));
        CodeNameIs(uuid, email, OtpRedeemed(other));
      }
    } else {
      var other := email[9..];
      CodeNameIs(uuid, email, OtpAttempts(other));
      CodeNameIs(uuid, email, OtpCooldown(other));
      CodeNameIs(uuid, email, OtpRedeemed(other));
      assert email == email[..9] + other;
    }
  }

  lemma CodeNameIs(uuid: nat -> string, email: string, k: Key)
    requires k.OtpAttempts? || k.OtpCooldown? || k.OtpRedeemed?
    ensures Name(uuid, OtpCode(email)) == Name(uuid, k) <==> email == OtpTail(k) + k.email
  {
    assert "otp:" + OtpTail(k) == Prefix(k);
    Regroup("otp:", OtpTail(k), k.email);
    SameHead("otp:", email, OtpTail(k) + k.email);
  }

  lemma Regroup(x: string, y: string, z: string)
    ensures (x + y) + z == x + (y + z)
  {
  }

  lemma SameHead(head: string, x: string, y: string)
    ensures head + x == head + y <==> x == y
  {
    assert (head + x)[|head|..] == x && (head + y)[|head|..] == y;
  }
}
