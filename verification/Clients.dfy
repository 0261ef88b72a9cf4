// Scope strings and the client registry (internal/oauth/clients.go, and the
// scope handling of internal/api/oauth_token.go).

module Scopes {
  import opened Wrappers

  const OFFLINE := "offline_access"

  /** The white space that strings.Fields splits on. */
  predicate IsSpace(c: char) {
    var n := c as int;
    9 <= n <= 13 || n == 32 || n == 0x85 || n == 0xA0 || n == 0x1680 || 0x2000 <= n <= 0x200a
    || n == 0x2028 || n == 0x2029 || n == 0x202f || n == 0x205f || n == 0x3000
  }

  /** A non-empty string without white space. */
  predicate Word(w: string) {
    w != "" && forall i :: 0 <= i < |w| ==> !IsSpace(w[i])
  }

  function TrimLeft(s: string): string {
    if s != "" && IsSpace(s[0]) then TrimLeft(s[1..]) else s
  }

  function TrimRight(s: string): string {
    if s != "" && IsSpace(s[|s| - 1]) then TrimRight(s[..|s| - 1]) else s
  }

  function TrimSpace(s: string): string {
    TrimRight(TrimLeft(s))
  }

  lemma {:induction false} TrimLeftSplits(s: string) returns (a: string)
    ensures s == a + TrimLeft(s) && (forall i :: 0 <= i < |a| ==> IsSpace(a[i]))
    ensures TrimLeft(s) != "" ==> !IsSpace(TrimLeft(s)[0])
  {
    a := "";
    if s != "" && IsSpace(s[0]) {
      a := TrimLeftSplits(s[1..]);
      a := [s[0]] + a;
    }
  }

  lemma {:induction false} TrimRightSplits(s: string) returns (b: string)
    ensures s == TrimRight(s) + b && (forall i :: 0 <= i < |b| ==> IsSpace(b[i]))
    ensures TrimRight(s) != "" ==> !IsSpace(TrimRight(s)[|TrimRight(s)| - 1]) && s[0] == TrimRight(s)[0]
  {
    b := "";
    if s != "" && IsSpace(s[|s| - 1]) {
      b := TrimRightSplits(s[..|s| - 1]);
      b := b + [s[|s| - 1]];
    }
  }

  /** Trimming takes away the white space at both ends and nothing else. */
  lemma TrimSpaceSplits(s: string) returns (a: string, b: string)
    ensures s == a + TrimSpace(s) + b
    ensures forall i :: 0 <= i < |a| ==> IsSpace(a[i])
    ensures forall i :: 0 <= i < |b| ==> IsSpace(b[i])
    ensures var t := TrimSpace(s); t != "" ==> !IsSpace(t[0]) && !IsSpace(t[|t| - 1])
  {
    a := TrimLeftSplits(s);
    b := TrimRightSplits(TrimLeft(s));
  }

  function WordLength(s: string): (n: nat)
    ensures n <= |s|
    ensures forall i :: 0 <= i < n ==> !IsSpace(s[i])
    ensures n < |s| ==> IsSpace(s[n])
  {
    if s == "" || IsSpace(s[0]) then 0 else 1 + WordLength(s[1..])
  }

  function Fields(s: string): (r: seq<string>)
    ensures forall f :: f in r ==> Word(f)
    decreases |s|
  {
    if s == "" then []
    else if IsSpace(s[0]) then Fields(s[1..])
    else [s[..WordLength(s)]] + Fields(s[WordLength(s)..])
  }

  function Join(fs: seq<string>): string {
    if fs == [] then ""
    else if |fs| == 1 then fs[0]
    else fs[0] + " " + Join(fs[1..])
  }

  lemma FieldsOfWordThen(w: string, rest: string)
    requires Word(w) && (rest == "" || IsSpace(rest[0]))
    ensures Fields(w + rest) == [w] + Fields(rest)
  {
    var s, n := w + rest, WordLength(w + rest);
    assert forall i :: 0 <= i < |w| ==> s[i] == w[i];
    assert rest != "" ==> s[|w|] == rest[0];
    assert n == |w|;
    assert (w + rest)[..n] == w && (w + rest)[n..] == rest;
  }

  lemma FieldsOfWord(w: string)
    requires Word(w)
    ensures Fields(w) == [w]
  {
    FieldsOfWordThen(w, "");
    assert w + "" == w;
  }

  /** Splitting a joined list gives the list back. */
  lemma {:induction false} FieldsOfJoin(fs: seq<string>)
    requires forall f :: f in fs ==> Word(f)
    ensures Fields(Join(fs)) == fs
  {
    if |fs| == 1 {
      FieldsOfWordThen(fs[0], "");
      assert fs[0] + "" == fs[0];
    } else if |fs| > 1 {
      FieldsOfJoin(fs[1..]);
      var rest := " " + Join(fs[1..]);
      FieldsOfWordThen(fs[0], rest);
      assert fs[0] + rest == fs[0] + " " + Join(fs[1..]);
      assert rest[1..] == Join(fs[1..]);
      assert IsSpace(' ') by { assert ' ' as int == 32; }
    }
  }

  function WithoutOffline(fs: seq<string>): (r: seq<string>)
    ensures OFFLINE !in r
    ensures forall f :: f in r <==> f in fs && f != OFFLINE
  {
    if fs == [] then []
    else if fs[0] == OFFLINE then WithoutOffline(fs[1..])
    else [fs[0]] + WithoutOffline(fs[1..])
  }

  lemma {:induction false} WithoutOfflineAppend(fs: seq<string>, f: string)
    ensures WithoutOffline(fs + [f]) == WithoutOffline(fs) + if f == OFFLINE then [] else [f]
  {
    if fs == [] {
      assert [] + [f] == [f] && [f][1..] == [];
    } else {
      WithoutOfflineAppend(fs[1..], f);
      assert (fs + [f])[1..] == fs[1..] + [f];
    }
  }

  lemma {:induction false} NothingToRemove(fs: seq<string>)
    requires OFFLINE !in fs
    ensures WithoutOffline(fs) == fs
  {
    if fs != [] {
      NothingToRemove(fs[1..]);
    }
  }

  /** Filtering keeps the order of what it keeps. */
  lemma {:induction false} WithoutOfflineConcat(xs: seq<string>, ys: seq<string>)
    ensures WithoutOffline(xs + ys) == WithoutOffline(xs) + WithoutOffline(ys)
  {
    if ys == [] {
      assert xs + ys == xs;
    } else {
      var front, last := ys[..|ys| - 1], ys[|ys| - 1];
      WithoutOfflineConcat(xs, front);
      WithoutOfflineAppend(xs + front, last);
      WithoutOfflineAppend(front, last);
      assert ys == front + [last] && xs + ys == (xs + front) + [last];
    }
  }

  method FilterOffline(fs: seq<string>) returns (r: seq<string>)
    ensures r == WithoutOffline(fs)
  {
    r := [];
    for i := 0 to |fs|
      invariant r == WithoutOffline(fs[..i])
    {
      WithoutOfflineAppend(fs[..i], fs[i]);
      assert fs[..i + 1] == fs[..i] + [fs[i]];
      if fs[i] != OFFLINE {
        r := r + [fs[i]];
      }
    }
    assert fs[..|fs|] == fs;
  }

  /** What a client_credentials request asks for: whether it wants a refresh
      token, the scope string that is checked, and the fields that are signed. */
  datatype Plan = Plan(offline: bool, checked: string, fields: seq<string>)

  function PlanOf(scope: Option<string>): Plan {
    var s := if scope.Some? then scope.value else "";
    var fs := Fields(s);
    if OFFLINE in fs then
      Plan(true, Join(WithoutOffline(fs)), WithoutOffline(fs))
    else
      Plan(false, s, fs)
  }

  /** The scopes signed are exactly the fields of the string that was checked,
      in the order asked for, with offline_access taken out. */
  lemma PlanChecksWhatItSigns(scope: Option<string>)
    ensures var plan := PlanOf(scope);
            && Fields(plan.checked) == plan.fields
            && OFFLINE !in plan.fields
            && plan.fields == WithoutOffline(Fields(if scope.Some? then scope.value else ""))
            && (plan.checked == "" ==> plan.fields == [])
  {
    var fs := Fields(if scope.Some? then scope.value else "");
    if OFFLINE in fs {
      FieldsOfJoin(WithoutOffline(fs));
    } else {
      NothingToRemove(fs);
    }
  }

  lemma OfflineIsAWord()
    ensures Word(OFFLINE)
  {
    assert forall i :: 0 <= i < |OFFLINE| ==> OFFLINE[i] == '_' || 'a' <= OFFLINE[i] <= 'z';
  }

  /** Asking for offline_access alone plans a refresh token and no scope. */
  lemma PlanOfOfflineAlone()
    ensures PlanOf(Some(OFFLINE)) == Plan(true, "", [])
  {
    OfflineIsAWord();
    FieldsOfWord(OFFLINE);
    assert WithoutOffline([OFFLINE][1..]) == [];
  }

  method PlanScopes(scope: Option<string>) returns (r: Plan)
    ensures r == PlanOf(scope)
  {
    var scopeStr := "";
    if scope.Some? {
      scopeStr := scope.value;
    }
    var scopeFields := Fields(scopeStr);
    var normalScope := scopeStr;
    var offline := false;
    if OFFLINE in scopeFields {
      offline := true;
      var filtered := FilterOffline(scopeFields);
      normalScope := Join(filtered);
      scopeFields := filtered;
    }
    r := Plan(offline, normalScope, scopeFields);
  }

  /** The scopes a service token carries. */
  function ServiceScopes(clientId: string, requested: seq<string>): seq<string> {
    requested + ["svc:" + clientId]
  }

  predicate IsServiceScope(s: string) {
    "svc:" <= s
  }
}

module Clients {
  import opened Wrappers
  import opened Scopes

  datatype ClientRecord = ClientRecord(
    name: string, secretHash: string,
    allowedScopes: seq<string>, allowedAudiences: seq<string>, allowedRedirectUris: seq<string>)

  type Directory = map<string, ClientRecord>

  /** What leaves the registry: never the secret hash. */
  function Redacted(rec: ClientRecord): ClientRecord {
    rec.(secretHash := "")
  }

  predicate Permits(allowed: seq<string>, scope: string) {
    "*" in allowed || (allowed != [] && forall f :: f in Fields(scope) ==> f in allowed)
  }

  method HasScope(r: ClientRecord, scope: string) returns (ok: bool)
    ensures ok <==> Permits(r.allowedScopes, scope)
    ensures ok <==> "*" in r.allowedScopes
                    || (r.allowedScopes != [] && forall f :: f in Fields(scope) ==> f in r.allowedScopes)
  {
    if |r.allowedScopes| == 0 {
      return false;
    }
    if "*" in r.allowedScopes {
      return true;
    }
    var fs := Fields(scope);
    for i := 0 to |fs|
      invariant forall j :: 0 <= j < i ==> fs[j] in r.allowedScopes
    {
      if fs[i] !in r.allowedScopes {
        return false;
      }
    }
    return true;
  }

  function Lookup(d: Directory, clientId: string): Option<ClientRecord> {
    if clientId in d then Some(Redacted(d[clientId])) else None
  }

  function Authenticate(d: Directory, hash: string -> string, clientId: string, secret: string): Option<ClientRecord> {
    if clientId in d && hash(secret) == d[clientId].secretHash then Some(Redacted(d[clientId])) else None
  }

  class Registry {
    var clients: Directory

    constructor (clients: Directory)
      ensures this.clients == clients
    {
      this.clients := clients;
    }

    /** `parsed` is the decoded configuration; None when it is empty or malformed. */
    method Reload(parsed: Option<Directory>) returns (ok: bool)
      modifies this
      ensures ok == parsed.Some?
      ensures clients == if parsed.Some? then parsed.value else old(clients)
    {
      if parsed.None? {
        return false;
      }
      clients := parsed.value;
      return true;
    }

    method Get(clientId: string) returns (r: Option<ClientRecord>)
      ensures r == Lookup(clients, clientId)
      ensures r == if clientId in clients then Some(clients[clientId].(secretHash := "")) else None
    {
      if clientId !in clients {
        return None;
      }
      return Some(Redacted(clients[clientId]));
    }

    /** The comparison always runs, against a dummy hash for an unknown client. */
    method ValidateAndGet(hash: string -> string, dummy: string, clientId: string, secret: string)
      returns (r: Option<ClientRecord>)
      ensures r == Authenticate(clients, hash, clientId, secret)
      ensures r.Some? <==> clientId in clients && hash(secret) == clients[clientId].secretHash
      ensures r.Some? ==> r.value == clients[clientId].(secretHash := "")
    {
      var presented := hash(secret);
      var known := clientId in clients;
      var want := dummy;
      if known {
        want := clients[clientId].secretHash;
      }
      if presented != want || !known {
        return None;
      }
      return Some(Redacted(clients[clientId]));
    }
  }
}
