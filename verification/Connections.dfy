/**
  Billing provider connections and the secrets behind them: what every operation keeps,
  whichever record writes fail.
 */
module Connections {
  import opened Common
  import opened Text
  import opened SecretStore

  datatype Status = Pending | Connected | SyncFailed | Disabled

  datatype Connection = Connection(
    id: string, status: Status, secretRef: string,
    lastSyncedAt: Option<Time>, connectedAt: Option<Time>, disabledAt: Option<Time>)

  /** Connections in order of creation, their secrets, and, for the statement of the invariant, the
      last Stripe key the verifier accepted for each connection. */
  datatype Registry = Registry(connections: seq<Connection>, secrets: SecretMap, accepted: map<nat, string>)

  const EMPTY := Registry([], map[], map[])

  /** Connections are addressed by their position in the table. The nonce is the random part of a
      reference the operation may create; `verified` is the verifier's answer. */
  datatype Op =
    | Create(newId: string, stripeKey: string, hmacKey: string, nonce: string)
    | UpdateHmac(at: nat, hmacKey: string)
    | RotateKey(at: nat, stripeKey: string, nonce: string)
    | Sync(at: nat, verified: bool, now: Time)
    | Disable(at: nat, now: Time)

  /** An operation, and whether its write of the connection record succeeds. */
  datatype Step = Step(op: Op, writeOk: bool)

  function Written(r: Registry, at: nat, c: Connection, writeOk: bool): Registry
    requires at < |r.connections|
  {
    if writeOk then r.(connections := r.connections[at := c]) else r
  }

  function NextCreate(r: Registry, id: string, stripeKey: string, hmacKey: string, nonce: string, writeOk: bool): Registry {
    match Put(r.secrets, id, nonce, Secrets(Trim(stripeKey), "", Trim(hmacKey)))
    case Err => r
    case Ok(filing) =>
      if writeOk then
        r.(secrets := filing.secrets, connections := r.connections + [Connection(id, Pending, filing.ref, None, None, None)])
      else
        r.(secrets := Delete(filing.secrets, filing.ref))
  }

  function NextUpdateHmac(r: Registry, at: nat, hmacKey: string): Registry
    requires at < |r.connections|
  {
    var ref := r.connections[at].secretRef;
    match Get(r.secrets, ref)
    case Err => r
    case Ok(s) =>
      match Replace(r.secrets, ref, s.(hmacKey := Trim(hmacKey)))
      case Err => r
      case Ok(m) => r.(secrets := m)
  }

  function Refiled(r: Registry, at: nat, stripeKey: string, nonce: string): Result<Filing>
    requires at < |r.connections|
  {
    var c := r.connections[at];
    if c.status == Disabled || Trim(stripeKey) == "" then Err
    else if Trim(c.secretRef) == "" then Put(r.secrets, c.id, nonce, Secrets(Trim(stripeKey), "", ""))
    else Rotate(r.secrets, c.secretRef, nonce, Trim(stripeKey))
  }

  function NextRotate(r: Registry, at: nat, stripeKey: string, nonce: string, writeOk: bool): Registry
    requires at < |r.connections|
  {
    match Refiled(r, at, stripeKey, nonce)
    case Err => r
    case Ok(filing) =>
      Written(r.(secrets := filing.secrets), at,
              r.connections[at].(secretRef := filing.ref, status := Pending, lastSyncedAt := None), writeOk)
  }

  function NextSync(r: Registry, at: nat, verified: bool, now: Time, writeOk: bool): Registry
    requires at < |r.connections|
  {
    var c := r.connections[at];
    if c.status == Disabled then r
    else
      match Get(r.secrets, c.secretRef)
      case Err => r
      case Ok(s) =>
        if Trim(s.stripeKey) == "" then r
        else if !verified then Written(r, at, c.(status := SyncFailed), writeOk)
        else
          Written(r.(accepted := r.accepted[at := s.stripeKey]), at,
                  c.(status := Connected, lastSyncedAt := Some(now),
                     connectedAt := if c.connectedAt.Some? then c.connectedAt else Some(now)),
                  writeOk)
  }

  function NextDisable(r: Registry, at: nat, now: Time, writeOk: bool): Registry
    requires at < |r.connections|
  {
    var c := r.connections[at];
    if c.status == Disabled then r
    else Written(r, at, c.(status := Disabled, disabledAt := Some(now)), writeOk)
  }

  /** Secrets are changed before the connection record is written. */
  function Next(r: Registry, step: Step): Registry {
    match step.op
    case Create(id, stripeKey, hmacKey, nonce) => NextCreate(r, id, stripeKey, hmacKey, nonce, step.writeOk)
    case UpdateHmac(at, hmacKey) => if at < |r.connections| then NextUpdateHmac(r, at, hmacKey) else r
    case RotateKey(at, stripeKey, nonce) =>
      if at < |r.connections| then NextRotate(r, at, stripeKey, nonce, step.writeOk) else r
    case Sync(at, verified, now) => if at < |r.connections| then NextSync(r, at, verified, now, step.writeOk) else r
    case Disable(at, now) => if at < |r.connections| then NextDisable(r, at, now, step.writeOk) else r
  }

  function Exec(r: Registry, h: seq<Step>): Registry {
    if h == [] then r else Next(Exec(r, h[..|h| - 1]), h[|h| - 1])
  }

  // ---------------------------------------------------------------------------
  // What every history keeps
  // ---------------------------------------------------------------------------

  ghost predicate UnusedRef(r: Registry, ref: string) {
    ref !in r.secrets && forall i | 0 <= i < |r.connections| :: r.connections[i].secretRef != ref
  }

  /** New ids and nonces are well formed, and the references they make were never used before, as
      random ones are taken to be. */
  ghost predicate Fresh(r: Registry, op: Op) {
    match op
    case Create(id, _, _, nonce) => ProperId(id) && ProperNonce(nonce) && UnusedRef(r, SecretRef(id, nonce))
    case RotateKey(at, _, nonce) =>
      ProperNonce(nonce) && (at < |r.connections| ==> UnusedRef(r, SecretRef(r.connections[at].id, nonce)))
    case _ => true
  }

  /** A connection's reference is well formed and names the connection. */
  ghost predicate Filed(c: Connection) {
    ProperId(c.id) && c.secretRef != "" && Trim(c.secretRef) == c.secretRef && ConnectionIdFromRef(c.secretRef) == c.id
  }

  /** A connected connection's stored Stripe key, when it still has one, is the last the verifier accepted. */
  ghost predicate Backed(r: Registry, at: nat)
    requires at < |r.connections|
  {
    var c := r.connections[at];
    c.status == Connected && c.secretRef in r.secrets ==>
      at in r.accepted && r.secrets[c.secretRef].stripeKey == r.accepted[at]
  }

  ghost predicate Inv(r: Registry) {
    && StoreOk(r.secrets)
    && (forall i | 0 <= i < |r.connections| :: Filed(r.connections[i]))
    && (forall i, j | 0 <= i < j < |r.connections| :: r.connections[i].secretRef != r.connections[j].secretRef)
    && (forall i | 0 <= i < |r.connections| :: Backed(r, i))
  }

  /** Every connection has its secret. */
  ghost predicate Whole(r: Registry) {
    forall i | 0 <= i < |r.connections| :: r.connections[i].secretRef in r.secrets
  }

  /** The one way a connection loses its secret: its rotation goes ahead and the write of the record fails. */
  ghost predicate LosesSecret(r: Registry, step: Step) {
    && step.op.RotateKey? && !step.writeOk && step.op.at < |r.connections|
    && r.connections[step.op.at].status != Disabled && Trim(step.op.stripeKey) != ""
  }

  ghost predicate Agree<K, V>(m: map<K, V>, m': map<K, V>, k: K) {
    if k in m then k in m' && m'[k] == m[k] else k !in m'
  }

  /** A step on the connection at one position leaves another one, its secret and its acceptance alone. */
  ghost predicate Apart(r: Registry, r': Registry, at: nat, i: nat)
    requires at < |r.connections| == |r'.connections| && i < |r.connections|
  {
    && r'.connections[i] == r.connections[i]
    && r'.connections[at].secretRef != r.connections[i].secretRef
    && Agree(r.accepted, r'.accepted, i)
    && Agree(r.secrets, r'.secrets, r.connections[i].secretRef)
  }

  ghost predicate Local(r: Registry, r': Registry, at: nat)
    requires at < |r.connections|
  {
    && |r'.connections| == |r.connections|
    && forall i | 0 <= i < |r.connections| && i != at :: Apart(r, r', at, i)
  }

  lemma LocalStepKeepsInv(r: Registry, r': Registry, at: nat)
    requires Inv(r) && at < |r.connections| && Local(r, r', at)
    requires StoreOk(r'.secrets) && Filed(r'.connections[at]) && Backed(r', at)
    ensures Inv(r')
    ensures Whole(r) && r'.connections[at].secretRef in r'.secrets ==> Whole(r')
  {
    hide StoreOk, Filed;
    forall i | 0 <= i < |r'.connections| && i != at
      ensures Backed(r', i) && r'.connections[i] == r.connections[i]
      ensures r'.connections[at].secretRef != r'.connections[i].secretRef
    {
      assert Backed(r, i) && Apart(r, r', at, i);
    }
    if Whole(r) && r'.connections[at].secretRef in r'.secrets {
      forall i | 0 <= i < |r'.connections| ensures r'.connections[i].secretRef in r'.secrets {
        assert i != at ==> Apart(r, r', at, i);
        assert r.connections[i].secretRef in r.secrets;
      }
    }
  }

  /** The parts of the invariant about one connection. */
  lemma OfConnection(r: Registry, at: nat)
    requires Inv(r) && at < |r.connections|
    ensures Filed(r.connections[at]) && Backed(r, at)
    ensures Trim(r.connections[at].secretRef) == r.connections[at].secretRef != ""
    ensures forall i | 0 <= i < |r.connections| && i != at :: r.connections[i].secretRef != r.connections[at].secretRef
    ensures StoreOk(r.secrets)
  {
    hide Trim, ConnectionIdFromRef, ProperId, StoreOk;
  }

  lemma CreateOutcome(r: Registry, op: Op)
    requires op.Create? && Fresh(r, op) && Inv(r)
    ensures var given := Secrets(Trim(op.stripeKey), "", Trim(op.hmacKey));
            var ref := SecretRef(op.newId, op.nonce);
            && Filed(Connection(op.newId, Pending, ref, None, None, None))
            && (Put(r.secrets, op.newId, op.nonce, given).Ok? ==>
                  var m' := r.secrets[ref := Normalized(given)];
                  && Put(r.secrets, op.newId, op.nonce, given) == Ok(Filing(m', ref))
                  && StoreOk(m') && Delete(m', ref) == r.secrets)
  {
    assert StoreOk(r.secrets);
    hide Inv;
    var given := Secrets(Trim(op.stripeKey), "", Trim(op.hmacKey));
    RefIsTrimmed(op.newId, op.nonce);
    RefNamesConnection(op.newId, op.nonce);
    if ValidSecrets(Normalized(given)) {
      NormalizedIsStored(given);
    }
    hide Trim, Normalized, ValidSecrets, Stored, SecretRef, ConnectionIdFromRef, ProperNonce;
  }

  /** Adding a pending connection with its secret under an unused reference. */
  lemma AddedKeepsInv(r: Registry, c: Connection, secrets: Secrets)
    requires Inv(r) && UnusedRef(r, c.secretRef) && Filed(c) && c.status == Pending
    requires StoreOk(r.secrets[c.secretRef := secrets])
    ensures var r' := r.(secrets := r.secrets[c.secretRef := secrets], connections := r.connections + [c]);
            Inv(r') && (Whole(r) ==> Whole(r'))
  {
    hide Filed, StoreOk;
    var r' := r.(secrets := r.secrets[c.secretRef := secrets], connections := r.connections + [c]);
    forall i | 0 <= i < |r.connections| ensures Backed(r', i) {
      assert Backed(r, i);
    }
  }

  lemma CreateKeepsInv(r: Registry, op: Op, writeOk: bool)
    requires Inv(r) && op.Create? && Fresh(r, op)
    ensures Inv(Next(r, Step(op, writeOk)))
    ensures Whole(r) ==> Whole(Next(r, Step(op, writeOk)))
  {
    CreateOutcome(r, op);
    hide Trim, Normalized, SecretRef, Put, Delete, Filed, StoreOk, ProperId, ProperNonce, UnusedRef, Inv, Whole;
    var given, ref := Secrets(Trim(op.stripeKey), "", Trim(op.hmacKey)), SecretRef(op.newId, op.nonce);
    if Put(r.secrets, op.newId, op.nonce, given).Ok? && writeOk {
      AddedKeepsInv(r, Connection(op.newId, Pending, ref, None, None, None), Normalized(given));
    }
  }

  lemma HmacOutcome(r: Registry, at: nat, hmacKey: string)
    requires Inv(r) && at < |r.connections|
    ensures var r', ref := NextUpdateHmac(r, at, hmacKey), r.connections[at].secretRef;
            && StoreOk(r'.secrets)
            && (r' == r || (ref in r.secrets && r' == r.(secrets := r.secrets[ref := r.secrets[ref].(hmacKey := Trim(hmacKey))])))
  {
    OfConnection(r, at);
    hide Inv, Filed, Backed;
    var ref := r.connections[at].secretRef;
    if ref in r.secrets {
      ReplacedSecrets(r.secrets[ref], hmacKey);
    }
    hide Trim, Normalized, ValidSecrets, Stored;
  }

  lemma HmacKeepsInv(r: Registry, at: nat, hmacKey: string)
    requires Inv(r) && at < |r.connections|
    ensures Inv(NextUpdateHmac(r, at, hmacKey))
    ensures Whole(r) ==> Whole(NextUpdateHmac(r, at, hmacKey))
  {
    HmacOutcome(r, at, hmacKey);
    OfConnection(r, at);
    hide Inv, Trim, Filed, StoreOk, NextUpdateHmac;
    LocalStepKeepsInv(r, NextUpdateHmac(r, at, hmacKey), at);
  }

  /** A rotation goes ahead exactly when the connection is enabled and its secret is there. */
  lemma RotationOutcome(r: Registry, op: Op)
    requires Inv(r) && op.RotateKey? && Fresh(r, op) && op.at < |r.connections|
    ensures var c := r.connections[op.at];
            && (Refiled(r, op.at, op.stripeKey, op.nonce).Ok?
                <==> c.status != Disabled && Trim(op.stripeKey) != "" && c.secretRef in r.secrets)
            && (Refiled(r, op.at, op.stripeKey, op.nonce).Ok? ==>
                  var ref' := SecretRef(c.id, op.nonce);
                  var m' := r.secrets[ref' := Secrets(Trim(op.stripeKey), "", r.secrets[c.secretRef].hmacKey)] - {c.secretRef};
                  && Refiled(r, op.at, op.stripeKey, op.nonce) == Ok(Filing(m', ref'))
                  && ref' in m' && StoreOk(m'))
  {
    var c := r.connections[op.at];
    OfConnection(r, op.at);
    hide Inv, Backed;
    TrimIdempotent(op.stripeKey);
    hide Trim, SecretRef, ConnectionIdFromRef, StoreOk;
    if c.secretRef in r.secrets {
      hide Put, Get, Rotate;
      RotationIsLocal(r.secrets, c.secretRef, op.nonce, Trim(op.stripeKey));
    }
  }

  lemma NewRefIsFiled(c: Connection, nonce: string)
    requires Filed(c) && ProperNonce(nonce)
    ensures Filed(c.(secretRef := SecretRef(c.id, nonce), status := Pending, lastSyncedAt := None))
  {
    RefIsTrimmed(c.id, nonce);
    RefNamesConnection(c.id, nonce);
    hide SecretRef, ConnectionIdFromRef, Trim;
  }

  /** Moving a connection's secret to an unused reference, whether or not the record follows. */
  lemma MovedKeepsInv(r: Registry, at: nat, ref: string, secrets: Secrets, writeOk: bool)
    requires Inv(r) && at < |r.connections| && UnusedRef(r, ref)
    requires Filed(r.connections[at].(secretRef := ref, status := Pending, lastSyncedAt := None))
    requires StoreOk(r.secrets[ref := secrets] - {r.connections[at].secretRef})
    ensures var c := r.connections[at];
            var r' := Written(r.(secrets := r.secrets[ref := secrets] - {c.secretRef}), at,
                              c.(secretRef := ref, status := Pending, lastSyncedAt := None), writeOk);
            Inv(r') && (Whole(r) ==> (Whole(r') <==> writeOk))
  {
    OfConnection(r, at);
    hide Inv, StoreOk, Filed, Trim;
    var c := r.connections[at];
    var r' := Written(r.(secrets := r.secrets[ref := secrets] - {c.secretRef}), at,
                      c.(secretRef := ref, status := Pending, lastSyncedAt := None), writeOk);
    forall i | 0 <= i < |r.connections| && i != at ensures Apart(r, r', at, i) {
    }
    LocalStepKeepsInv(r, r', at);
    if !writeOk {
      assert r'.connections[at].secretRef !in r'.secrets;
    }
  }

  lemma RotateKeepsInv(r: Registry, op: Op, writeOk: bool)
    requires Inv(r) && op.RotateKey? && Fresh(r, op) && op.at < |r.connections|
    ensures Inv(NextRotate(r, op.at, op.stripeKey, op.nonce, writeOk))
    ensures Whole(r) ==> (Whole(NextRotate(r, op.at, op.stripeKey, op.nonce, writeOk))
                          <==> !LosesSecret(r, Step(op, writeOk)))
  {
    RotationOutcome(r, op);
    OfConnection(r, op.at);
    var c := r.connections[op.at];
    NewRefIsFiled(c, op.nonce);
    assert Whole(r) ==> c.secretRef in r.secrets;
    hide Inv, Whole, StoreOk, Refiled, Trim, Filed, SecretRef, ProperNonce, Backed, UnusedRef;
    if Refiled(r, op.at, op.stripeKey, op.nonce).Ok? {
      MovedKeepsInv(r, op.at, SecretRef(c.id, op.nonce), Secrets(Trim(op.stripeKey), "", r.secrets[c.secretRef].hmacKey), writeOk);
    }
  }

  lemma StatusIsNotFiled(c: Connection, c': Connection)
    requires Filed(c) && c'.id == c.id && c'.secretRef == c.secretRef
    ensures Filed(c')
  {
    hide Trim, ConnectionIdFromRef, ProperId;
  }

  lemma SyncOutcome(r: Registry, at: nat, verified: bool, now: Time, writeOk: bool)
    requires Inv(r) && at < |r.connections|
    ensures var r', c := NextSync(r, at, verified, now, writeOk), r.connections[at];
            && r'.secrets == r.secrets
            && (r' == r || (c.secretRef in r.secrets && r'.accepted
                  == if verified then r.accepted[at := r.secrets[c.secretRef].stripeKey] else r.accepted))
            && |r'.connections| == |r.connections| && r'.connections == r.connections[at := r'.connections[at]]
            && r'.connections[at].id == c.id && r'.connections[at].secretRef == c.secretRef
            && (r'.connections[at] != c ==> (r'.connections[at].status == Connected <==> verified))
  {
    OfConnection(r, at);
    hide Inv, Trim, StoreOk, Filed, Backed;
  }

  lemma SyncKeepsInv(r: Registry, at: nat, verified: bool, now: Time, writeOk: bool)
    requires Inv(r) && at < |r.connections|
    ensures Inv(NextSync(r, at, verified, now, writeOk))
    ensures Whole(r) ==> Whole(NextSync(r, at, verified, now, writeOk))
  {
    var r' := NextSync(r, at, verified, now, writeOk);
    OfConnection(r, at);
    SyncOutcome(r, at, verified, now, writeOk);
    hide Inv, Trim, StoreOk, Filed, NextSync;
    StatusIsNotFiled(r.connections[at], r'.connections[at]);
    LocalStepKeepsInv(r, r', at);
  }

  lemma DisableKeepsInv(r: Registry, at: nat, now: Time, writeOk: bool)
    requires Inv(r) && at < |r.connections|
    ensures Inv(NextDisable(r, at, now, writeOk))
    ensures Whole(r) ==> Whole(NextDisable(r, at, now, writeOk))
  {
    OfConnection(r, at);
    StatusIsNotFiled(r.connections[at], NextDisable(r, at, now, writeOk).connections[at]);
    hide Inv, Trim, StoreOk, Filed;
    LocalStepKeepsInv(r, NextDisable(r, at, now, writeOk), at);
  }

  lemma StepKeepsInv(r: Registry, step: Step)
    requires Inv(r) && Fresh(r, step.op)
    ensures Inv(Next(r, step))
  {
    hide Inv, Fresh, Whole;
    hide NextCreate, NextUpdateHmac, NextRotate, NextSync, NextDisable;
    match step.op
    case Create(_, _, _, _) => CreateKeepsInv(r, step.op, step.writeOk);
    case UpdateHmac(at, hmacKey) => if at < |r.connections| { HmacKeepsInv(r, at, hmacKey); }
    case RotateKey(at, _, _) => if at < |r.connections| { RotateKeepsInv(r, step.op, step.writeOk); }
    case Sync(at, verified, now) => if at < |r.connections| { SyncKeepsInv(r, at, verified, now, step.writeOk); }
    case Disable(at, now) => if at < |r.connections| { DisableKeepsInv(r, at, now, step.writeOk); }
  }

  ghost predicate AllFresh(r: Registry, h: seq<Step>) {
    h == [] || (AllFresh(r, h[..|h| - 1]) && Fresh(Exec(r, h[..|h| - 1]), h[|h| - 1].op))
  }

  /** In every history, whichever record writes fail, a connected connection that still has a
      secret stores the Stripe key the verifier last accepted for it. */
  lemma {:induction false} ConnectedMeansVerified(r: Registry, h: seq<Step>)
    requires (r == EMPTY || Inv(r)) && AllFresh(r, h)
    ensures Inv(Exec(r, h))
  {
    hide Next, Fresh;
    if h != [] {
      ConnectedMeansVerified(r, h[..|h| - 1]);
      hide Inv;
      StepKeepsInv(Exec(r, h[..|h| - 1]), h[|h| - 1]);
    }
  }

  lemma WholeIff(r: Registry, step: Step)
    requires Inv(r) && Fresh(r, step.op) && Whole(r)
    ensures Whole(Next(r, step)) <==> !LosesSecret(r, step)
  {
    match step.op
    case RotateKey(at, _, _) =>
      hide Inv, Whole, NextRotate, Trim;
      if at < |r.connections| { RotateKeepsInv(r, step.op, step.writeOk); }
    case Create(_, _, _, _) =>
      hide Inv, Whole, NextCreate;
      CreateKeepsInv(r, step.op, step.writeOk);
    case UpdateHmac(at, hmacKey) =>
      hide Inv, Whole, NextUpdateHmac;
      if at < |r.connections| { HmacKeepsInv(r, at, hmacKey); }
    case Sync(at, verified, now) =>
      hide Inv, Whole, NextSync;
      if at < |r.connections| { SyncKeepsInv(r, at, verified, now, step.writeOk); }
    case Disable(at, now) =>
      hide Inv, Whole, NextDisable;
      if at < |r.connections| { DisableKeepsInv(r, at, now, step.writeOk); }
  }

  lemma WholeBacking(r: Registry, at: nat)
    requires Inv(r) && Whole(r) && at < |r.connections| && r.connections[at].status == Connected
    ensures r.connections[at].secretRef in r.secrets && at in r.accepted
    ensures r.secrets[r.connections[at].secretRef].stripeKey == r.accepted[at]
  {
    OfConnection(r, at);
    hide Inv, StoreOk, Filed, Trim;
  }

  /** In every history that loses no secret, a connected connection's stored Stripe key is there and
      is the one the verifier last accepted. */
  lemma {:induction false} ConnectedHasVerifiedKey(h: seq<Step>, at: nat)
    requires AllFresh(EMPTY, h)
    requires forall n | 0 <= n < |h| :: !LosesSecret(Exec(EMPTY, h[..n]), h[n])
    requires at < |Exec(EMPTY, h).connections| && Exec(EMPTY, h).connections[at].status == Connected
    ensures var r := Exec(EMPTY, h);
            var ref := r.connections[at].secretRef;
            ref in r.secrets && at in r.accepted && r.secrets[ref].stripeKey == r.accepted[at]
  {
    hide *;
    WholeThroughout(h);
    ConnectedMeansVerified(EMPTY, h);
    WholeBacking(Exec(EMPTY, h), at);
  }

  lemma {:induction false} WholeThroughout(h: seq<Step>)
    requires AllFresh(EMPTY, h)
    requires forall n | 0 <= n < |h| :: !LosesSecret(Exec(EMPTY, h[..n]), h[n])
    ensures Whole(Exec(EMPTY, h))
  {
    hide Next, Fresh, LosesSecret, Inv;
    if h != [] {
      var rest := h[..|h| - 1];
      forall n | 0 <= n < |rest| ensures !LosesSecret(Exec(EMPTY, rest[..n]), rest[n]) {
        assert rest[..n] == h[..n];
      }
      WholeThroughout(rest);
      ConnectedMeansVerified(EMPTY, rest);
      WholeIff(Exec(EMPTY, rest), h[|h| - 1]);
    }
  }

  /** A connection without its secret, before and after a step: still without it, and its record
      as it was unless the step disabled it. */
  ghost predicate StillLost(r: Registry, r': Registry, at: nat, disabling: bool)
    requires at < |r.connections|
  {
    && at < |r'.connections|
    && r'.connections[at].secretRef == r.connections[at].secretRef && r.connections[at].secretRef !in r'.secrets
    && (r'.connections[at] == r.connections[at] || (disabling && r'.connections[at].status == Disabled))
  }

  /** A lost secret is lost for good: no rotation, sync or update repairs the connection, and the
      only thing that can still happen to its record is that it is disabled. */
  lemma LostSecretIsPermanent(r: Registry, step: Step, at: nat)
    requires Inv(r) && Fresh(r, step.op) && at < |r.connections| && r.connections[at].secretRef !in r.secrets
    ensures StillLost(r, Next(r, step), at, step.op.Disable?)
  {
    hide Inv, Fresh, NextCreate, NextUpdateHmac, NextRotate, NextSync;
    match step.op
    case Create(_, _, _, _) => LostAfterCreate(r, step, at);
    case UpdateHmac(other, hmacKey) => if other < |r.connections| { HmacOutcome(r, other, hmacKey); }
    case RotateKey(other, _, _) => if other < |r.connections| { LostAfterRotate(r, step, at); }
    case Sync(other, verified, now) => if other < |r.connections| { SyncOutcome(r, other, verified, now, step.writeOk); }
    case Disable(_, _) =>
  }

  lemma {:induction false} LostForever(r: Registry, h: seq<Step>, at: nat)
    requires Inv(r) && AllFresh(r, h) && at < |r.connections| && r.connections[at].secretRef !in r.secrets
    ensures StillLost(r, Exec(r, h), at, true)
  {
    hide Inv, Fresh, Next;
    if h != [] {
      var rest := h[..|h| - 1];
      LostForever(r, rest, at);
      ConnectedMeansVerified(r, rest);
      LostSecretIsPermanent(Exec(r, rest), h[|h| - 1], at);
      if Exec(r, rest).connections[at].status == Disabled {
        DisabledStays(Exec(r, rest), h[|h| - 1], at);
      }
    }
  }

  lemma LostAfterCreate(r: Registry, step: Step, at: nat)
    requires Inv(r) && step.op.Create? && Fresh(r, step.op)
    requires at < |r.connections| && r.connections[at].secretRef !in r.secrets
    ensures StillLost(r, Next(r, step), at, false)
  {
    CreateOutcome(r, step.op);
    hide Inv, Trim, Put, Delete, Normalized, SecretRef, StoreOk, Filed;
  }

  lemma LostAfterRotate(r: Registry, step: Step, at: nat)
    requires Inv(r) && step.op.RotateKey? && Fresh(r, step.op) && step.op.at < |r.connections|
    requires at < |r.connections| && r.connections[at].secretRef !in r.secrets
    ensures StillLost(r, Next(r, step), at, false)
  {
    RotationOutcome(r, step.op);
    hide Inv, Trim, Refiled, SecretRef, StoreOk;
  }

  /** Disabled is absorbing, whatever fails. */
  lemma {:induction false} DisabledIsAbsorbing(r: Registry, h: seq<Step>, at: nat)
    requires at < |r.connections| && r.connections[at].status == Disabled
    ensures at < |Exec(r, h).connections|
    ensures Exec(r, h).connections[at] == r.connections[at]
  {
    if h != [] {
      hide Next;
      DisabledIsAbsorbing(r, h[..|h| - 1], at);
      DisabledStays(Exec(r, h[..|h| - 1]), h[|h| - 1], at);
    }
  }

  lemma DisabledStays(r: Registry, step: Step, at: nat)
    requires at < |r.connections| && r.connections[at].status == Disabled
    ensures at < |Next(r, step).connections|
    ensures Next(r, step).connections[at] == r.connections[at]
  {
    hide Put, Get, Rotate, Replace, Trim, Delete;
  }

  // ---------------------------------------------------------------------------
  // What each operation does
  // ---------------------------------------------------------------------------

  /** Creating files the trimmed keys under a new reference and adds a pending connection; if the
      record cannot be written the secret is taken back. A blank id or two blank keys are refused. */
  lemma CreateEffect(r: Registry, step: Step)
    requires step.op.Create? && ProperNonce(step.op.nonce)
    ensures var op, ref := step.op, SecretRef(Trim(step.op.newId), step.op.nonce);
            if Trim(op.newId) == "" || (Trim(op.stripeKey) == "" && Trim(op.hmacKey) == "") then Next(r, step) == r
            else if step.writeOk then
              Next(r, step) == r.(
                secrets := r.secrets[ref := Secrets(Trim(op.stripeKey), "", Trim(op.hmacKey))],
                connections := r.connections + [Connection(op.newId, Pending, ref, None, None, None)])
            else Next(r, step) == r.(secrets := r.secrets - {ref})
  {
    TrimIdempotent(step.op.stripeKey);
    TrimIdempotent(step.op.hmacKey);
    RefIsTrimmed(Trim(step.op.newId), step.op.nonce);
    hide Trim, SecretRef;
  }

  /** The HMAC key of a stored secret is replaced and its Stripe key kept, unless no key would be left. */
  lemma HmacEffect(r: Registry, step: Step)
    requires Inv(r) && step.op.UpdateHmac? && step.op.at < |r.connections|
    ensures var ref := r.connections[step.op.at].secretRef;
            if ref in r.secrets && (r.secrets[ref].stripeKey != "" || Trim(step.op.hmacKey) != "") then
              Next(r, step) == r.(secrets := r.secrets[ref := Secrets(r.secrets[ref].stripeKey, "", Trim(step.op.hmacKey))])
            else Next(r, step) == r
  {
    OfConnection(r, step.op.at);
    var ref := r.connections[step.op.at].secretRef;
    hide Inv, Filed, Backed;
    if ref in r.secrets {
      ReplacedSecrets(r.secrets[ref], step.op.hmacKey);
      StoredKeys(r.secrets[ref], step.op.hmacKey);
    }
    hide Trim, Normalized, ValidSecrets, Stored;
  }

  lemma StoredKeys(s: Secrets, hmacKey: string)
    requires Stored(s)
    ensures s.webhookSecret == ""
    ensures var s' := s.(hmacKey := Trim(hmacKey)); ValidSecrets(Normalized(s')) <==> s.stripeKey != "" || Trim(hmacKey) != ""
  {
    TrimIdempotent(hmacKey);
    hide Trim;
  }

  /** A rotation that goes ahead leaves the connection pending and not synced, with a new reference
      and the time it was first connected kept; one that does not changes nothing. */
  lemma RotateEffect(r: Registry, step: Step)
    requires Inv(r) && step.op.RotateKey? && Fresh(r, step.op) && step.op.at < |r.connections|
    ensures var at, c := step.op.at, r.connections[step.op.at];
            var ref := SecretRef(c.id, step.op.nonce);
            if c.status != Disabled && Trim(step.op.stripeKey) != "" && c.secretRef in r.secrets then
              var rotated := Secrets(Trim(step.op.stripeKey), "", r.secrets[c.secretRef].hmacKey);
              && Next(r, step).secrets == r.secrets[ref := rotated] - {c.secretRef}
              && Next(r, step).accepted == r.accepted
              && Next(r, step).connections == (
                   if step.writeOk then r.connections[at := Connection(c.id, Pending, ref, None, c.connectedAt, c.disabledAt)]
                   else r.connections)
            else Next(r, step) == r
  {
    RotationOutcome(r, step.op);
    hide Inv, Fresh, Refiled, StoreOk, Trim, SecretRef;
  }

  /** A sync asks the verifier about the stored Stripe key of an enabled connection. A refusal takes the
      connection out of connected, an acceptance connects it as of now; the first time it was
      connected is kept. Without a key there is nothing to ask. */
  lemma SyncEffect(r: Registry, step: Step)
    requires Inv(r) && step.op.Sync? && step.op.at < |r.connections|
    ensures var at, c, now := step.op.at, r.connections[step.op.at], step.op.now;
            if c.status == Disabled || c.secretRef !in r.secrets || r.secrets[c.secretRef].stripeKey == "" then Next(r, step) == r
            else
              && Next(r, step).secrets == r.secrets
              && Next(r, step).accepted == (if step.op.verified then r.accepted[at := r.secrets[c.secretRef].stripeKey] else r.accepted)
              && Next(r, step).connections == (
                   if !step.writeOk then r.connections
                   else if !step.op.verified then
                     r.connections[at := Connection(c.id, SyncFailed, c.secretRef, c.lastSyncedAt, c.connectedAt, c.disabledAt)]
                   else
                     r.connections[at := Connection(c.id, Connected, c.secretRef, Some(now),
                                                    Some(if c.connectedAt == None then now else c.connectedAt.value), c.disabledAt)])
  {
    OfConnection(r, step.op.at);
    var ref := r.connections[step.op.at].secretRef;
    hide Inv, Filed, Backed;
    if ref in r.secrets {
      StoredIsTrimmed(r.secrets[ref]);
    }
    hide Trim, Stored;
  }

  lemma StoredIsTrimmed(s: Secrets)
    requires Stored(s)
    ensures Trim(s.stripeKey) == s.stripeKey
  {
  }

  /** Disabling changes the status, and the time of an enabled connection. */
  lemma DisableEffect(r: Registry, step: Step)
    requires step.op.Disable? && step.op.at < |r.connections|
    ensures var at, c := step.op.at, r.connections[step.op.at];
            if c.status != Disabled && step.writeOk then
              Next(r, step) == r.(connections := r.connections[at :=
                Connection(c.id, Disabled, c.secretRef, c.lastSyncedAt, c.connectedAt, Some(step.op.now))])
            else Next(r, step) == r
  {
  }
}
