/**
  The connection service over its table and its secret store. Every access to the table may
  fail; each operation is proved to be a step of the lifecycle, so what is proved of
  histories holds of the service, and the recheck batch is proved to be a run of syncs on
  exactly the connections that are due.
 */
module ConnectionService {
  import opened Common
  import opened Text
  import opened SecretStore
  import opened Connections

  // ---------------------------------------------------------------------------
  // Which connections a batch is to check
  // ---------------------------------------------------------------------------

  predicate IsDue(c: Connection, staleAfter: Time, now: Time) {
    c.status != Disabled && (c.lastSyncedAt.Some? ==> now - c.lastSyncedAt.value >= staleAfter)
  }

  /** The enabled, stale ones among the connections from a position on, newest first: the table
      grows at the end and is listed from there. */
  function DueFrom(cs: seq<Connection>, first: nat, staleAfter: Time, now: Time): (due: seq<nat>)
    requires first <= |cs|
    decreases |cs| - first
  {
    if first == |cs| then []
    else DueFrom(cs, first + 1, staleAfter, now) + if IsDue(cs[first], staleAfter, now) then [first] else []
  }

  /** The positions of all enabled, stale connections, in listing order. */
  function Due(cs: seq<Connection>, staleAfter: Time, now: Time): seq<nat> {
    DueFrom(cs, 0, staleAfter, now)
  }

  /** What is due is every connection that is not disabled and was never synced, or not for at least
      the given time, and no other. */
  lemma {:induction false} DueIsExact(cs: seq<Connection>, first: nat, staleAfter: Time, now: Time, i: nat)
    requires first <= |cs|
    ensures i in DueFrom(cs, first, staleAfter, now)
       <==> first <= i < |cs| && cs[i].status != Disabled
            && (cs[i].lastSyncedAt == None || now - cs[i].lastSyncedAt.value >= staleAfter)
    decreases |cs| - first
  {
    if first < |cs| {
      DueIsExact(cs, first + 1, staleAfter, now, i);
    }
  }

  /** It is listed from newest to oldest, none twice. */
  lemma {:induction false} DueIsDecreasing(cs: seq<Connection>, first: nat, staleAfter: Time, now: Time, j: nat, k: nat)
    requires first <= |cs| && j < k < |DueFrom(cs, first, staleAfter, now)|
    ensures DueFrom(cs, first, staleAfter, now)[j] > DueFrom(cs, first, staleAfter, now)[k]
    decreases |cs| - first
  {
    hide IsDue;
    var newer := DueFrom(cs, first + 1, staleAfter, now);
    if k < |newer| {
      DueIsDecreasing(cs, first + 1, staleAfter, now, j, k);
    } else {
      DueIsExact(cs, first + 1, staleAfter, now, newer[j]);
    }
  }

  lemma {:induction false} DuePrefix(cs: seq<Connection>, first: nat, staleAfter: Time, now: Time)
    requires first <= |cs|
    ensures DueFrom(cs, first, staleAfter, now) <= Due(cs, staleAfter, now)
  {
    if first > 0 {
      DuePrefix(cs, first - 1, staleAfter, now);
    }
  }

  /** How many of some connections were synced at a given moment. */
  function SyncedCount(cs: seq<Connection>, ids: seq<nat>, now: Time): nat
    requires forall k | 0 <= k < |ids| :: ids[k] < |cs|
  {
    if ids == [] then 0
    else
      var n := |ids| - 1;
      SyncedCount(cs, ids[..n], now) + if cs[ids[n]].lastSyncedAt == Some(now) then 1 else 0
  }

  lemma {:induction false} SyncedCountFrame(cs: seq<Connection>, cs': seq<Connection>, ids: seq<nat>, now: Time)
    requires |cs| == |cs'|
    requires forall k | 0 <= k < |ids| :: ids[k] < |cs| && cs'[ids[k]] == cs[ids[k]]
    ensures SyncedCount(cs', ids, now) == SyncedCount(cs, ids, now)
  {
    if ids != [] {
      SyncedCountFrame(cs, cs', ids[..|ids| - 1], now);
    }
  }

  lemma ExecStep(r: Registry, h: seq<Step>, step: Step)
    ensures Exec(r, h + [step]) == Next(Exec(r, h), step)
  {
    assert (h + [step])[..|h|] == h;
  }

  /** A sync leaves every other connection as it was. */
  lemma SyncIsLocal(r: Registry, step: Step)
    requires step.op.Sync? && step.op.at < |r.connections|
    ensures var r' := Next(r, step);
            && |r'.connections| == |r.connections|
            && forall i | 0 <= i < |r.connections| && i != step.op.at :: r'.connections[i] == r.connections[i]
  {
    hide Get, Trim;
  }

  /** A batch is a run of syncs, so it keeps what every history keeps. */
  lemma {:induction false} SyncsKeepInv(r: Registry, h: seq<Step>)
    requires Inv(r) && forall k | 0 <= k < |h| :: h[k].op.Sync?
    ensures Inv(Exec(r, h))
  {
    hide Inv, Next;
    if h != [] {
      SyncsKeepInv(r, h[..|h| - 1]);
      StepKeepsInv(Exec(r, h[..|h| - 1]), h[|h| - 1]);
    }
  }

  datatype BatchResult = BatchResult(scanned: nat, checked: nat, healthy: nat, failed: nat, skipped: nat)

  /** What a batch has done once it has synced some connections, in order: nothing else has changed,
      and the healthy ones are those now synced. */
  ghost predicate Synced(before: Registry, after: Registry, ids: seq<nat>, now: Time, steps: seq<Step>, healthy: nat) {
    && |after.connections| == |before.connections|
    && after == Exec(before, steps)
    && |ids| == |steps|
    && (forall k | 0 <= k < |ids| :: ids[k] < |before.connections|)
    && (forall k | 0 <= k < |ids| :: steps[k].op.Sync? && steps[k].op.at == ids[k] && steps[k].op.now == now)
    && (forall i: nat | i < |after.connections| && i !in ids :: after.connections[i] == before.connections[i])
    && healthy == SyncedCount(after.connections, ids, now)
  }

  lemma Untouched(
    before: Registry, after: Registry, ids: seq<nat>, now: Time, steps: seq<Step>, healthy: nat, i: nat)
    requires Synced(before, after, ids, now, steps, healthy) && i < |before.connections| && i !in ids
    ensures i < |after.connections| && after.connections[i] == before.connections[i]
  {
    hide Exec, SyncedCount;
  }

  lemma SyncedMore(
    before: Registry, after: Registry, ids: seq<nat>, now: Time, steps: seq<Step>, healthy: nat,
    step: Step, ok: bool)
    requires Synced(before, after, ids, now, steps, healthy)
    requires step.op.Sync? && step.op.at < |before.connections| && step.op.at !in ids && step.op.now == now
    requires ok <==> (var cs := Next(after, step).connections;
                      step.op.at < |cs| && cs[step.op.at].lastSyncedAt == Some(now))
    ensures Synced(before, Next(after, step), ids + [step.op.at], now, steps + [step], healthy + if ok then 1 else 0)
    ensures |Next(after, step).connections| == |before.connections|
  {
    ExecStep(before, steps, step);
    SyncIsLocal(after, step);
    var after', at := Next(after, step), step.op.at;
    hide Exec, Next;
    SyncedCountFrame(after.connections, after'.connections, ids, now);
    SyncedCountStep(after'.connections, ids, at, now);
    hide SyncedCount;
    forall i: nat | i < |after'.connections| && i !in ids + [at] ensures after'.connections[i] == before.connections[i] {
      assert i != at && i !in ids;
    }
  }

  lemma SyncedCountStep(cs: seq<Connection>, ids: seq<nat>, at: nat, now: Time)
    requires at < |cs| && forall k | 0 <= k < |ids| :: ids[k] < |cs|
    ensures SyncedCount(cs, ids + [at], now) == SyncedCount(cs, ids, now) + if cs[at].lastSyncedAt == Some(now) then 1 else 0
  {
    assert (ids + [at])[..|ids|] == ids;
  }

  lemma Begun(before: Registry, staleAfter: Time, now: Time)
    ensures Synced(before, before, DueFrom(before.connections, |before.connections|, staleAfter, now), now, [], 0)
  {
  }

  /** What the batch promises, given the connections it synced. */
  lemma Stopped(
    before: Registry, after: Registry, first: nat, staleAfter: Time, now: Time, steps: seq<Step>, healthy: nat)
    requires first <= |before.connections|
    requires Synced(before, after, DueFrom(before.connections, first, staleAfter, now), now, steps, healthy)
    ensures Promise(before, after, staleAfter, now, steps, healthy)
    ensures first == 0 ==> |steps| == |Due(before.connections, staleAfter, now)|
  {
    DuePrefix(before.connections, first, staleAfter, now);
    assert first == 0 ==> |steps| == |Due(before.connections, staleAfter, now)|;
    hide Due, DueFrom, Exec, SyncedCount;
    assert Due(before.connections, staleAfter, now)[..|steps|] == DueFrom(before.connections, first, staleAfter, now);
  }

  /** The steps taken are syncs of the first of the due connections, in order. */
  ghost predicate Promise(before: Registry, after: Registry, staleAfter: Time, now: Time, steps: seq<Step>, healthy: nat) {
    var due := Due(before.connections, staleAfter, now);
    |steps| <= |due| && Synced(before, after, due[..|steps|], now, steps, healthy)
  }

  /** So no connection is checked twice, only enabled stale ones are, the rest stay as they were, and
      a batch that got through all that was due checked every enabled stale connection. */
  lemma EachDueCheckedOnce(
    before: Registry, after: Registry, staleAfter: Time, now: Time, steps: seq<Step>, healthy: nat, i: nat)
    requires Promise(before, after, staleAfter, now, steps, healthy) && i < |before.connections|
    ensures forall j, k | 0 <= j < k < |steps| :: steps[j].op.Sync? && steps[k].op.Sync? && steps[j].op.at > steps[k].op.at
    ensures (exists k :: 0 <= k < |steps| && steps[k].op.Sync? && steps[k].op.at == i)
            ==> IsDue(before.connections[i], staleAfter, now)
    ensures |steps| == |Due(before.connections, staleAfter, now)| && IsDue(before.connections[i], staleAfter, now)
            ==> exists k :: 0 <= k < |steps| && steps[k].op.Sync? && steps[k].op.at == i
    ensures |after.connections| == |before.connections|
    ensures !IsDue(before.connections[i], staleAfter, now) ==> after.connections[i] == before.connections[i]
  {
    var due := Due(before.connections, staleAfter, now);
    DueIsExact(before.connections, 0, staleAfter, now, i);
    forall j, k | 0 <= j < k < |due| ensures due[j] > due[k] {
      DueIsDecreasing(before.connections, 0, staleAfter, now, j, k);
    }
    hide Due, DueFrom, IsDue, Exec, SyncedCount;
    if i in due && |steps| == |due| {
      var k :| 0 <= k < |due| && due[k] == i;
      assert steps[k].op.at == i;
    }
  }

  /** A request to create a connection, as it comes in. */
  datatype CreateRequest = CreateRequest(
    providerType: string, environment: string, scope: string, ownerTenantId: string, displayName: string,
    actorType: string, stripeKey: string, hmacKey: string)

  /** A platform connection has no owner; a tenant's has one that exists. */
  predicate ValidOwner(req: CreateRequest, tenants: set<string>) {
    match Normal(req.scope)
    case "platform" => Trim(req.ownerTenantId) == ""
    case "tenant" => Trim(req.ownerTenantId) != "" && Trim(req.ownerTenantId) in tenants
    case _ => false
  }

  predicate ValidRequest(req: CreateRequest, tenants: set<string>) {
    && Normal(req.providerType) == "stripe"
    && (Normal(req.environment) == "test" || Normal(req.environment) == "live")
    && ValidOwner(req, tenants)
    && Trim(req.displayName) != "" && Trim(req.actorType) != ""
    && (Trim(req.stripeKey) != "" || Trim(req.hmacKey) != "")
  }

  datatype Listed = Listed(at: nat, connection: Connection)

  class Service {
    var connections: seq<Connection>
    const store: MemoryStore
    ghost var accepted: map<nat, string>
    /** How many accesses to the table have failed. */
    ghost var faults: nat

    constructor (store: MemoryStore)
      ensures this.store == store && connections == [] && accepted == map[]
    {
      this.store := store;
      connections := [];
      accepted := map[];
      faults := 0;
    }

    ghost function State(): Registry
      reads this, store
    {
      Registry(connections, store.secrets, accepted)
    }

    method Available() returns (ok: bool)
      modifies this`faults
      ensures faults == old(faults) + if ok then 0 else 1
    {
      ok := *;
      faults := faults + if ok then 0 else 1;
    }

    method GetConnection(at: nat) returns (r: Result<Connection>)
      modifies this`faults
      ensures r.Ok? ==> at < |connections| && r.value == connections[at]
      ensures r.Err? && faults == old(faults) ==> at >= |connections|
      ensures r.Ok? ==> faults == old(faults)
      ensures faults >= old(faults)
    {
      var ok := Available();
      if !ok || at >= |connections| {
        return Err;
      }
      return Ok(connections[at]);
    }

    /** A page of the listing, newest first. */
    method ListConnections(limit: nat, offset: nat) returns (r: Result<seq<Listed>>)
      modifies this`faults
      ensures r.Ok? <==> faults == old(faults)
      ensures r.Ok? ==>
                var left := if offset < |connections| then |connections| - offset else 0;
                && |r.value| == (if limit < left then limit else left)
                && forall k | 0 <= k < |r.value| ::
                     r.value[k].at == left - 1 - k && r.value[k].connection == connections[left - 1 - k]
      ensures faults >= old(faults)
    {
      var ok := Available();
      if !ok {
        return Err;
      }
      var left := if offset < |connections| then |connections| - offset else 0;
      var count := if limit < left then limit else left;
      var table := connections;
      return Ok(seq(count, k requires 0 <= k < count => Listed(left - 1 - k, table[left - 1 - k])));
    }

    method UpdateConnection(at: nat, c: Connection) returns (ok: bool)
      requires at < |connections|
      modifies this`connections, this`faults
      ensures connections == if ok then old(connections)[at := c] else old(connections)
      ensures faults == old(faults) + if ok then 0 else 1
    {
      ok := Available();
      if ok {
        connections := connections[at := c];
      }
    }

    method CreateBillingProviderConnection(req: CreateRequest, tenants: set<string>, id: string, nonce: string)
        returns (ok: bool)
      modifies this, store
      ensures !ValidRequest(req, tenants) ==> !ok && State() == old(State()) && faults == old(faults)
      ensures ValidRequest(req, tenants) ==>
                State() == Next(old(State()), Step(Create(id, req.stripeKey, req.hmacKey, nonce), faults == old(faults)))
      ensures ok <==> |connections| == |old(connections)| + 1
      ensures ok <==>
                && Trim(id) != "" && faults == old(faults)
                && Normal(req.providerType) == "stripe" && Normal(req.environment) in {"test", "live"}
                && ((Normal(req.scope) == "platform" && Trim(req.ownerTenantId) == "")
                    || (Normal(req.scope) == "tenant" && Trim(req.ownerTenantId) != "" && Trim(req.ownerTenantId) in tenants))
                && Trim(req.displayName) != "" && Trim(req.actorType) != ""
                && (Trim(req.stripeKey) != "" || Trim(req.hmacKey) != "")
    {
      TrimIdempotent(req.stripeKey);
      TrimIdempotent(req.hmacKey);
      hide Trim, Normal, SecretRef;
      if !ValidRequest(req, tenants) {
        return false;
      }
      var put := store.PutConnectionSecrets(id, Secrets(Trim(req.stripeKey), "", Trim(req.hmacKey)), nonce);
      if put.Err? {
        return false;
      }
      ok := Available();
      if ok {
        connections := connections + [Connection(id, Pending, put.value, None, None, None)];
      } else {
        store.DeleteSecret(put.value);
      }
    }

    method UpdateWebhookHmacKey(at: nat, hmacKey: string) returns (ok: bool)
      modifies this, store
      ensures State() == old(State()) || State() == Next(old(State()), Step(UpdateHmac(at, hmacKey), ok))
      ensures faults == old(faults) ==> State() == Next(old(State()), Step(UpdateHmac(at, hmacKey), true))
      ensures ok ==> faults == old(faults)
    {
      hide Trim, Normalized;
      var found := GetConnection(at);
      if found.Err? {
        return false;
      }
      var c := found.value;
      if Trim(c.secretRef) == "" {
        return false;
      }
      var secrets := store.GetConnectionSecrets(c.secretRef);
      if secrets.Err? {
        return false;
      }
      ok := store.UpdateConnectionSecrets(c.secretRef, secrets.value.(hmacKey := Trim(hmacKey)));
      if ok {
        ok := UpdateConnection(at, c);
      }
    }

    method RotateBillingProviderConnectionSecret(at: nat, stripeKey: string, nonce: string) returns (ok: bool)
      modifies this, store
      ensures State() == old(State()) || State() == Next(old(State()), Step(RotateKey(at, stripeKey, nonce), ok))
      ensures faults == old(faults) ==> State() == Next(old(State()), Step(RotateKey(at, stripeKey, nonce), true))
      ensures ok ==> faults == old(faults) && at < |connections| && connections[at].status == Pending
    {
      hide Trim, Put, Rotate;
      var found := GetConnection(at);
      if found.Err? {
        return false;
      }
      var c := found.value;
      if c.status == Disabled {
        return false;
      }
      var key := Trim(stripeKey);
      if key == "" {
        return false;
      }
      var ref: Result<string>;
      if Trim(c.secretRef) == "" {
        ref := store.PutConnectionSecrets(c.id, Secrets(key, "", ""), nonce);
      } else {
        ref := store.RotateStripeSecret(c.secretRef, key, nonce);
      }
      if ref.Err? {
        return false;
      }
      ok := UpdateConnection(at, c.(secretRef := ref.value, status := Pending, lastSyncedAt := None));
    }

    /** The verifier's answer is not known in advance; an acceptance is recorded. */
    method VerifyStripeSecret(at: nat, key: string) returns (verified: bool)
      modifies this`accepted
      ensures accepted == if verified then old(accepted)[at := key] else old(accepted)
    {
      verified := *;
      if verified {
        accepted := accepted[at := key];
      }
    }

    method SyncBillingProviderConnection(at: nat, now: Time) returns (ok: bool, ghost step: Step)
      modifies this
      ensures step.op.Sync? && step.op.at == at && step.op.now == now
      ensures State() == Next(old(State()), step)
      ensures faults >= old(faults) && (faults == old(faults) ==> step.writeOk)
      ensures ok ==> at < |connections| && connections[at].status == Connected && connections[at].lastSyncedAt == Some(now)
      ensures !ok && at < |connections| ==> connections[at].lastSyncedAt == old(connections[at].lastSyncedAt)
    {
      hide Trim, Get;
      step := Step(Sync(at, false, now), false);
      ok := false;
      var found := GetConnection(at);
      if found.Err? {
        step := step.(writeOk := faults == old(faults));
        return;
      }
      var c := found.value;
      if c.status == Disabled {
        step := step.(writeOk := true);
        return;
      }
      var secrets := store.GetConnectionSecrets(c.secretRef);
      if secrets.Err? || Trim(secrets.value.stripeKey) == "" {
        step := step.(writeOk := true);
        return;
      }
      var verified := VerifyStripeSecret(at, secrets.value.stripeKey);
      if !verified {
        var written := UpdateConnection(at, c.(status := SyncFailed));
        step := Step(Sync(at, false, now), written);
        return;
      }
      var connectedAt := if c.connectedAt.Some? then c.connectedAt else Some(now);
      ok := UpdateConnection(at, c.(status := Connected, lastSyncedAt := Some(now), connectedAt := connectedAt));
      step := Step(Sync(at, true, now), ok);
    }

    method DisableBillingProviderConnection(at: nat, now: Time) returns (ok: bool)
      modifies this
      ensures State() == Next(old(State()), Step(Disable(at, now), faults == old(faults)))
      ensures ok ==> at < |connections| && connections[at].status == Disabled
    {
      var found := GetConnection(at);
      if found.Err? {
        return false;
      }
      if found.value.status == Disabled {
        return true;
      }
      ok := UpdateConnection(at, found.value.(status := Disabled, disabledAt := Some(now)));
    }

    /** Skips or syncs one listed item and counts it. */
    method RecheckItem(
      item: Connection, at: nat, staleAfter: Time, now: Time, r: BatchResult, ghost before: Registry, ghost steps: seq<Step>)
        returns (r': BatchResult, ghost steps': seq<Step>)
      requires staleAfter > 0 && at < |before.connections| && item == before.connections[at]
      requires Synced(before, State(), DueFrom(before.connections, at + 1, staleAfter, now), now, steps, r.healthy)
      modifies this
      ensures |connections| == |before.connections|
      ensures Synced(before, State(), DueFrom(before.connections, at, staleAfter, now), now, steps', r'.healthy)
      ensures |steps'| - |steps| == r'.checked - r.checked == r'.healthy + r'.failed - r.healthy - r.failed
      ensures r.checked <= r'.checked <= r.checked + 1
      ensures r'.checked + r'.skipped == r.checked + r.skipped + 1 && r'.scanned == r.scanned
      ensures faults >= old(faults)
      ensures steps <= steps'
      ensures faults == old(faults) ==> forall k | |steps| <= k < |steps'| :: steps'[k].writeOk
    {
      hide Next, Exec;
      DueIsExact(before.connections, at + 1, staleAfter, now, at);
      ghost var current, ids := State(), DueFrom(before.connections, at + 1, staleAfter, now);
      assert DueFrom(before.connections, at, staleAfter, now) == ids + if IsDue(item, staleAfter, now) then [at] else [];
      hide DueFrom;
      Untouched(before, current, ids, now, steps, r.healthy, at);
      if item.status == Disabled || (item.lastSyncedAt.Some? && now - item.lastSyncedAt.value < staleAfter) {
        assert ids + [] == ids;
        return r.(skipped := r.skipped + 1), steps;
      }
      hide Synced;
      var healthy;
      ghost var step;
      healthy, step := SyncBillingProviderConnection(at, now);
      SyncedMore(before, current, ids, now, steps, r.healthy, step, healthy);
      r' := r.(checked := r.checked + 1,
               healthy := r.healthy + if healthy then 1 else 0,
               failed := r.failed + if healthy then 0 else 1);
      steps' := steps + [step];
    }

    /** Pages through the table and syncs what is due, up to the limit. It checks the due connections
        in listing order, each once, and all of them unless the limit or a failed listing stops it;
        a checked one counts as healthy exactly when it ends up synced now. */
    method RecheckBillingProviderConnectionsBatch(limit: int, staleAfter: Time, now: Time)
        returns (ok: bool, r: BatchResult, ghost steps: seq<Step>)
      modifies this
      ensures limit <= 0 || staleAfter <= 0 ==> !ok && r == BatchResult(0, 0, 0, 0, 0)
      ensures r.checked == r.healthy + r.failed == |steps| && r.checked + r.skipped <= r.scanned <= |connections|
      ensures limit >= 0 ==> r.checked <= limit
      ensures Promise(old(State()), State(), staleAfter, now, steps, r.healthy)
      ensures ok ==> r.checked == limit || r.checked == |Due(old(connections), staleAfter, now)|
      ensures ok && r.checked < limit ==> r.scanned == |connections| && r.checked + r.skipped == r.scanned
      ensures faults == old(faults) ==> forall k | 0 <= k < |steps| :: steps[k].writeOk
      ensures !ok && limit > 0 && staleAfter > 0 ==> faults > old(faults)
    {
      hide DueFrom, Due, Next, Synced, Promise, Exec;
      ok, r, steps := false, BatchResult(0, 0, 0, 0, 0), [];
      ghost var before := State();
      ghost var first := |connections|;
      Begun(before, staleAfter, now);
      if limit <= 0 || staleAfter <= 0 {
        Stopped(before, State(), first, staleAfter, now, steps, 0);
        return;
      }
      var pageSize := if limit < 25 then 25 else limit;
      var offset := 0;
      while r.checked < limit
        invariant first <= |before.connections| == |connections| && |connections| - first <= offset == r.scanned <= |connections|
        invariant r.checked <= limit && (r.checked < limit ==> first == |connections| - offset)
        invariant r.checked + r.skipped == |connections| - first && r.healthy + r.failed == r.checked == |steps|
        invariant Synced(before, State(), DueFrom(before.connections, first, staleAfter, now), now, steps, r.healthy)
        invariant faults >= old(faults) && (faults == old(faults) ==> forall k | 0 <= k < |steps| :: steps[k].writeOk)
        decreases |before.connections| - offset
      {
        var listed := ListConnections(pageSize, offset);
        if listed.Err? {
          Stopped(before, State(), first, staleAfter, now, steps, r.healthy);
          return;
        }
        var items := listed.value;
        if |items| == 0 {
          break;
        }
        r := r.(scanned := r.scanned + |items|);
        forall k | 0 <= k < first ensures connections[k] == before.connections[k] {
          DueIsExact(before.connections, first, staleAfter, now, k);
          Untouched(before, State(), DueFrom(before.connections, first, staleAfter, now), now, steps, r.healthy, k);
        }
        var i := 0;
        while i < |items|
          invariant i <= |items| && |before.connections| == |connections| && first == |connections| - offset - i
          invariant r.checked <= limit
          invariant r.checked + r.skipped == |connections| - first && r.healthy + r.failed == r.checked == |steps|
          invariant Synced(before, State(), DueFrom(before.connections, first, staleAfter, now), now, steps, r.healthy)
          invariant r.scanned == offset + |items|
          invariant faults >= old(faults) && (faults == old(faults) ==> forall k | 0 <= k < |steps| :: steps[k].writeOk)
        {
          if r.checked >= limit {
            break;
          }
          var item := items[i];
          first := first - 1;
          assert item.at == first && item.connection == before.connections[first];
          r, steps := RecheckItem(item.connection, item.at, staleAfter, now, r, before, steps);
          i := i + 1;
        }
        offset := offset + |items|;
        if |items| < pageSize {
          break;
        }
      }
      Stopped(before, State(), first, staleAfter, now, steps, r.healthy);
      ok := true;
    }
  }
}
