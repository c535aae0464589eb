/**
  The in-memory store of billing provider secrets: a map from references to secrets, where
  a reference is a path that names the connection it was made for.
 */
module SecretStore {
  import opened Common
  import opened Text

  datatype Secrets = Secrets(stripeKey: string, webhookSecret: string, hmacKey: string)

  /** Normalization keeps the Stripe and HMAC keys only. */
  function Normalized(s: Secrets): Secrets {
    Secrets(Trim(s.stripeKey), "", Trim(s.hmacKey))
  }

  predicate ValidSecrets(s: Secrets) {
    Trim(s.stripeKey) != "" || Trim(s.hmacKey) != ""
  }

  type SecretMap = map<string, Secrets>

  /** The outcome of filing secrets: the store afterwards and the reference they are under. */
  datatype Filing = Filing(secrets: SecretMap, ref: string)

  function SecretRef(connectionId: string, nonce: string): string {
    "memory://billing-provider-connections/" + connectionId + "/" + nonce
  }

  function Put(m: SecretMap, connectionId: string, nonce: string, s: Secrets): Result<Filing> {
    if Trim(connectionId) == "" || !ValidSecrets(Normalized(s)) then Err
    else
      var ref := SecretRef(Trim(connectionId), nonce);
      Ok(Filing(m[ref := Normalized(s)], ref))
  }

  function Get(m: SecretMap, ref: string): Result<Secrets> {
    if Trim(ref) != "" && Trim(ref) in m then Ok(m[Trim(ref)]) else Err
  }

  function Replace(m: SecretMap, ref: string, s: Secrets): Result<SecretMap> {
    if Trim(ref) == "" || !ValidSecrets(Normalized(s)) || Trim(ref) !in m then Err
    else Ok(m[Trim(ref) := Normalized(s)])
  }

  function Delete(m: SecretMap, ref: string): SecretMap {
    if Trim(ref) == "" then m else m - {Trim(ref)}
  }

  /** A new entry under a new reference of the same connection, then the old one removed. */
  function Rotate(m: SecretMap, ref: string, nonce: string, stripeKey: string): Result<Filing> {
    match Get(m, ref)
    case Err => Err
    case Ok(s) =>
      var rotated := s.(stripeKey := Trim(stripeKey));
      if !ValidSecrets(rotated) then Err
      else
        match Put(m, ConnectionIdFromRef(ref), nonce, rotated)
        case Err => Err
        case Ok(filing) => Ok(filing.(secrets := Delete(filing.secrets, ref)))
  }

  function Split(s: string, separator: char): (parts: seq<string>)
    ensures parts != []
  {
    if s == "" then [""]
    else
      var rest := Split(s[1..], separator);
      if s[0] == separator then [""] + rest else [[s[0]] + rest[0]] + rest[1..]
  }

  function ConnectionIdFromRef(ref: string): string {
    var parts := Split(Trim(ref), '/');
    if |parts| >= 4 then Trim(parts[3]) else "rotated"
  }

  // ---------------------------------------------------------------------------
  // References
  // ---------------------------------------------------------------------------

  lemma {:induction false} SplitFirst(a: string, rest: string, separator: char)
    requires separator !in a
    ensures Split(a + [separator] + rest, separator) == [a] + Split(rest, separator)
  {
    var s := a + [separator] + rest;
    if a == "" {
      assert s[1..] == rest;
    } else {
      assert s[1..] == a[1..] + [separator] + rest;
      SplitFirst(a[1..], rest, separator);
      assert a == [a[0]] + a[1..];
    }
  }

  lemma FourthPart(a: string, b: string, c: string, d: string, e: string)
    requires '/' !in a && '/' !in b && '/' !in c && '/' !in d
    ensures var s := a + ['/'] + (b + ['/'] + (c + ['/'] + (d + ['/'] + e)));
            |Split(s, '/')| >= 4 && Split(s, '/')[3] == d
  {
    hide Split;
    SplitFirst(a, b + ['/'] + (c + ['/'] + (d + ['/'] + e)), '/');
    SplitFirst(b, c + ['/'] + (d + ['/'] + e), '/');
    SplitFirst(c, d + ['/'] + e, '/');
    SplitFirst(d, e, '/');
  }

  /** Connection ids and nonces as they are generated: no slash in an id, no surrounding space. */
  predicate ProperId(id: string) {
    id != "" && Trim(id) == id && '/' !in id
  }

  predicate ProperNonce(nonce: string) {
    nonce != "" && Trim(nonce) == nonce
  }

  /** The reference made for a connection names that connection, so a rotation files the new
      secret under the connection the old one belonged to. */
  lemma RefNamesConnection(connectionId: string, nonce: string)
    requires ProperId(connectionId) && ProperNonce(nonce)
    ensures ConnectionIdFromRef(SecretRef(connectionId, nonce)) == connectionId
  {
    RefIsPath(connectionId, nonce);
    RefIsTrimmed(connectionId, nonce);
    SlashFree();
    hide Split, SecretRef, Trim;
    FourthPart("memory:", "", "billing-provider-connections", connectionId, nonce);
  }

  /** No part holds a separator. */
  lemma {:induction false} PartsAreFree(s: string, separator: char)
    ensures forall k | 0 <= k < |Split(s, separator)| :: separator !in Split(s, separator)[k]
  {
    if s != "" {
      PartsAreFree(s[1..], separator);
    }
  }

  lemma {:induction false} TrimShrinks(s: string, c: char)
    requires c !in s
    ensures c !in Trim(s)
  {
    if s != "" {
      if IsSpace(s[0]) {
        TrimShrinks(s[1..], c);
      } else if IsSpace(s[|s| - 1]) {
        TrimShrinks(s[..|s| - 1], c);
      }
    }
  }

  lemma RefIdIsFree(ref: string)
    ensures '/' !in ConnectionIdFromRef(ref)
    ensures Trim(ConnectionIdFromRef(ref)) == ConnectionIdFromRef(ref)
  {
    var parts := Split(Trim(ref), '/');
    PartsAreFree(Trim(ref), '/');
    if |parts| >= 4 {
      TrimShrinks(parts[3], '/');
      TrimIdempotent(parts[3]);
    }
  }

  /** The connection id read back from a reference is the one it was made for if and only if that
      id has no slash in it. */
  lemma RefNamesConnectionIff(connectionId: string, nonce: string)
    requires connectionId != "" && Trim(connectionId) == connectionId && ProperNonce(nonce)
    ensures ConnectionIdFromRef(SecretRef(connectionId, nonce)) == connectionId <==> '/' !in connectionId
  {
    if '/' !in connectionId {
      RefNamesConnection(connectionId, nonce);
    } else {
      RefIdIsFree(SecretRef(connectionId, nonce));
    }
  }

  /** A reference that is no path names no connection. */
  lemma NoPathNoConnection(ref: string)
    requires '/' !in Trim(ref)
    ensures ConnectionIdFromRef(ref) == "rotated"
  {
    hide Trim;
    OnePart(Trim(ref), '/');
  }

  lemma {:induction false} OnePart(s: string, separator: char)
    requires separator !in s
    ensures Split(s, separator) == [s]
  {
    if s != "" {
      OnePart(s[1..], separator);
      assert s == [s[0]] + s[1..];
    }
  }

  lemma SlashFree()
    ensures '/' !in "memory:" && '/' !in "billing-provider-connections"
  {
  }

  lemma RefIsPath(connectionId: string, nonce: string)
    ensures SecretRef(connectionId, nonce)
         == "memory:" + ['/'] + ("" + ['/'] + ("billing-provider-connections" + ['/'] + (connectionId + ['/'] + nonce)))
  {
    PrefixIsPath();
    var a, b, c := "memory:", "billing-provider-connections", connectionId + ['/'] + nonce;
    assert (a + ['/'] + ['/'] + b + ['/']) + connectionId + ['/'] + nonce == a + ['/'] + ("" + ['/'] + (b + ['/'] + c));
  }

  lemma PrefixIsPath()
    ensures "memory://billing-provider-connections/" == "memory:" + ['/'] + ['/'] + "billing-provider-connections" + ['/']
  {
  }

  lemma RefIsTrimmed(connectionId: string, nonce: string)
    requires ProperNonce(nonce)
    ensures var ref := SecretRef(connectionId, nonce);
            Trim(ref) == ref && ref != ""
  {
    var ref := SecretRef(connectionId, nonce);
    assert ref[0] == 'm' && ref[|ref| - 1] == nonce[|nonce| - 1];
  }

  // ---------------------------------------------------------------------------
  // What the store keeps
  // ---------------------------------------------------------------------------

  lemma TrimIdempotent(s: string)
    ensures Trim(Trim(s)) == Trim(s)
  {
  }

  ghost predicate Stored(s: Secrets) {
    s == Normalized(s) && ValidSecrets(s)
  }

  ghost predicate StoreOk(m: SecretMap) {
    forall r | r in m :: Stored(m[r])
  }

  lemma NormalizedIsStored(s: Secrets)
    requires ValidSecrets(Normalized(s))
    ensures Stored(Normalized(s))
  {
    TrimIdempotent(s.stripeKey);
    TrimIdempotent(s.hmacKey);
    hide Trim;
  }

  /** Secrets can be put under any id that is not blank as long as some key is not; what is put
      reads back normalized: as it was put if and only if both keys were trimmed and there was no
      webhook secret. Nothing else in the store changes. */
  lemma PutGetRoundTrip(m: SecretMap, id: string, nonce: string, s: Secrets)
    requires ProperNonce(nonce)
    ensures Put(m, id, nonce, s).Ok? <==> Trim(id) != "" && (Trim(s.stripeKey) != "" || Trim(s.hmacKey) != "")
    ensures Put(m, id, nonce, s).Ok? ==>
              var filing := Put(m, id, nonce, s).value;
              && Get(filing.secrets, filing.ref) == Ok(Secrets(Trim(s.stripeKey), "", Trim(s.hmacKey)))
              && (Get(filing.secrets, filing.ref) == Ok(s)
                  <==> Trim(s.stripeKey) == s.stripeKey && Trim(s.hmacKey) == s.hmacKey && s.webhookSecret == "")
              && (ConnectionIdFromRef(filing.ref) == Trim(id) <==> '/' !in Trim(id))
              && forall r | r in m && r != filing.ref :: r in filing.secrets && filing.secrets[r] == m[r]
  {
    TrimIdempotent(s.stripeKey);
    TrimIdempotent(s.hmacKey);
    TrimIdempotent(id);
    RefIsTrimmed(Trim(id), nonce);
    if Trim(id) != "" {
      RefNamesConnectionIff(Trim(id), nonce);
    }
    hide Trim, SecretRef, ConnectionIdFromRef;
  }

  /** Rotation succeeds if and only if the old secret is there, its reference names a connection
      and some key is left. It keeps the HMAC key, files the new Stripe key under the connection the
      reference names ("rotated" when it names none), removes the old reference and leaves every
      other secret alone. */
  lemma RotationIsLocal(m: SecretMap, ref: string, nonce: string, stripeKey: string)
    requires StoreOk(m)
    ensures var key, id := Trim(ref), ConnectionIdFromRef(ref);
            && (Rotate(m, ref, nonce, stripeKey).Ok?
                <==> key != "" && key in m && id != "" && (Trim(stripeKey) != "" || m[key].hmacKey != ""))
            && (Rotate(m, ref, nonce, stripeKey).Ok? ==>
                  var Filing(m', ref') := Rotate(m, ref, nonce, stripeKey).value;
                  && ref' == SecretRef(id, nonce)
                  && m' == m[ref' := Secrets(Trim(stripeKey), "", m[key].hmacKey)] - {key}
                  && key !in m' && (ref' in m' <==> ref' != key)
                  && StoreOk(m'))
  {
    RefIdIsFree(ref);
    if Trim(ref) in m {
      RotatedSecrets(m[Trim(ref)], stripeKey);
    }
    hide Trim, Normalized, ValidSecrets, SecretRef, ConnectionIdFromRef;
    hide Stored;
  }

  lemma RotatedSecrets(s: Secrets, stripeKey: string)
    requires Stored(s)
    ensures var s' := s.(stripeKey := Trim(stripeKey));
            && Normalized(s') == s' == Secrets(Trim(stripeKey), "", s.hmacKey)
            && (ValidSecrets(s') <==> Trim(stripeKey) != "" || s.hmacKey != "")
            && (ValidSecrets(s') ==> Stored(s'))
  {
    TrimIdempotent(stripeKey);
    hide Trim;
  }

  lemma ReplacedSecrets(s: Secrets, hmacKey: string)
    requires Stored(s)
    ensures var s' := s.(hmacKey := Trim(hmacKey));
            Normalized(s') == s' && (ValidSecrets(s') ==> Stored(s'))
  {
    TrimIdempotent(hmacKey);
    hide Trim;
  }

  // ---------------------------------------------------------------------------
  // The code
  // ---------------------------------------------------------------------------

  class MemoryStore {
    var secrets: SecretMap

    constructor ()
      ensures secrets == map[]
    {
      secrets := map[];
    }

    method PutConnectionSecrets(connectionId: string, given: Secrets, nonce: string) returns (r: Result<string>)
      modifies this
      ensures match Put(old(secrets), connectionId, nonce, given)
              case Err => r == Err && secrets == old(secrets)
              case Ok(filing) => r == Ok(filing.ref) && secrets == filing.secrets
    {
      hide Trim;
      var id := Trim(connectionId);
      var normalized := Normalized(given);
      if id == "" || !ValidSecrets(normalized) {
        return Err;
      }
      var ref := SecretRef(id, nonce);
      secrets := secrets[ref := normalized];
      return Ok(ref);
    }

    method GetConnectionSecrets(ref: string) returns (r: Result<Secrets>)
      ensures r == Get(secrets, ref)
    {
      hide Trim;
      var key := Trim(ref);
      if key == "" || key !in secrets {
        return Err;
      }
      return Ok(secrets[key]);
    }

    method UpdateConnectionSecrets(ref: string, given: Secrets) returns (ok: bool)
      modifies this
      ensures match Replace(old(secrets), ref, given)
              case Err => !ok && secrets == old(secrets)
              case Ok(m) => ok && secrets == m
    {
      hide Trim;
      var key := Trim(ref);
      var normalized := Normalized(given);
      if key == "" || !ValidSecrets(normalized) || key !in secrets {
        return false;
      }
      secrets := secrets[key := normalized];
      return true;
    }

    method RotateStripeSecret(ref: string, stripeKey: string, nonce: string) returns (r: Result<string>)
      modifies this
      ensures match Rotate(old(secrets), ref, nonce, stripeKey)
              case Err => r == Err && secrets == old(secrets)
              case Ok(filing) => r == Ok(filing.ref) && secrets == filing.secrets
    {
      hide Trim, ConnectionIdFromRef, Put, Get, Delete;
      var found := GetConnectionSecrets(ref);
      if found.Err? {
        return Err;
      }
      var rotated := found.value.(stripeKey := Trim(stripeKey));
      if !ValidSecrets(rotated) {
        return Err;
      }
      r := PutConnectionSecrets(ConnectionIdFromRef(ref), rotated, nonce);
      if r.Ok? {
        DeleteSecret(ref);
      }
    }

    method DeleteSecret(ref: string)
      modifies this
      ensures secrets == Delete(old(secrets), ref)
    {
      hide Trim;
      var key := Trim(ref);
      if key != "" {
        secrets := secrets - {key};
      }
    }
  }
}
