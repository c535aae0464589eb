/**
  Finalizing invoices against a payment gateway. A call makes its effects one by one and
  may stop between any two of them; calls for the same invoice may even interleave. The
  gateway answers a repeated idempotency key with the intent it already has.
 */
module Finalization {
  import opened Common

  datatype Status = Draft | Finalized | Paid | Voided

  datatype PaymentStatus = Pending | Processing | Succeeded | Failed

  datatype Invoice = Invoice(
    status: Status, paymentStatus: PaymentStatus, totalAmountCents: int64,
    intentId: Option<nat>, paidAt: Option<Time>)

  /** An intent's id is its position among all intents ever created; its metadata name the invoice. */
  datatype PaymentIntent = PaymentIntent(key: string, amountCents: int64, invoiceId: string)

  datatype Tables = Tables(invoices: map<string, Invoice>, intents: seq<PaymentIntent>, finalizedViews: set<string>)

  function IdempotencyKey(invoiceId: string): string {
    "inv_" + invoiceId
  }

  function FindIntent(intents: seq<PaymentIntent>, key: string): (r: Option<nat>)
    ensures r.Some? ==> r.value < |intents| && intents[r.value].key == key
    ensures r.None? ==> forall i | 0 <= i < |intents| :: intents[i].key != key
  {
    if intents == [] then None
    else if intents[|intents| - 1].key == key then Some(|intents| - 1)
    else FindIntent(intents[..|intents| - 1], key)
  }

  /** Where a call stands: what its next effect is. */
  datatype Progress = CreatingIntent | RecordingIntent(intent: nat) | MarkingFinalized(intent: nat) | WritingView(intent: nat)
                    | MarkingPaid | SettlingPayment | Completed

  datatype Call = Call(invoiceId: string, amountCents: int64, now: Time, at: Progress)

  /** A call begins by reading a draft invoice; any other invoice is rejected. */
  function Begin(t: Tables, invoiceId: string, now: Time): Option<Call> {
    if invoiceId !in t.invoices || t.invoices[invoiceId].status != Draft then None
    else
      var total := t.invoices[invoiceId].totalAmountCents;
      Some(Call(invoiceId, total, now, if total == 0 then MarkingPaid else CreatingIntent))
  }

  /** One effect of a call. */
  function Effect(t: Tables, c: Call): (Tables, Call)
    requires c.invoiceId in t.invoices
  {
    var invoice := t.invoices[c.invoiceId];
    match c.at
    case CreatingIntent =>
      var key := IdempotencyKey(c.invoiceId);
      match FindIntent(t.intents, key) {
        case Some(i) => (t, c.(at := RecordingIntent(i)))
        case None => (t.(intents := t.intents + [PaymentIntent(key, c.amountCents, c.invoiceId)]), c.(at := RecordingIntent(|t.intents|)))
      }
    case RecordingIntent(i) =>
      (t.(invoices := t.invoices[c.invoiceId := invoice.(paymentStatus := Processing, intentId := Some(i), paidAt := None)]),
       c.(at := MarkingFinalized(i)))
    case MarkingFinalized(i) =>
      (t.(invoices := t.invoices[c.invoiceId := invoice.(status := Finalized)]), c.(at := WritingView(i)))
    case WritingView(i) =>
      (t.(finalizedViews := t.finalizedViews + {c.invoiceId}), c.(at := Completed))
    case MarkingPaid =>
      (t.(invoices := t.invoices[c.invoiceId := invoice.(status := Paid)]), c.(at := SettlingPayment))
    case SettlingPayment =>
      (t.(invoices := t.invoices[c.invoiceId := invoice.(paymentStatus := Succeeded, paidAt := Some(c.now))]),
       c.(at := Completed))
    case Completed => (t, c)
  }

  // ---------------------------------------------------------------------------
  // Interleaved calls
  // ---------------------------------------------------------------------------

  datatype System = System(tables: Tables, calls: seq<Call>)

  datatype Step = Start(invoiceId: string, now: Time) | Advance(call: nat)

  function Next(s: System, step: Step): System {
    match step
    case Start(invoiceId, now) =>
      var begun := Begin(s.tables, invoiceId, now);
      if begun.Some? then s.(calls := s.calls + [begun.value]) else s
    case Advance(i) =>
      if i < |s.calls| && s.calls[i].invoiceId in s.tables.invoices then
        var (t, c) := Effect(s.tables, s.calls[i]);
        System(t, s.calls[i := c])
      else s
  }

  function Exec(s: System, h: seq<Step>): System {
    if h == [] then s else Next(Exec(s, h[..|h| - 1]), h[|h| - 1])
  }

  /** Before any call: no intents, no invoice finalized, paid or linked to an intent. */
  ghost predicate Initial(s: System) {
    && s.calls == [] && s.tables.intents == []
    && forall id | id in s.tables.invoices ::
         s.tables.invoices[id].intentId == None && s.tables.invoices[id].status != Finalized && s.tables.invoices[id].status != Paid
  }

  ghost predicate IntentsOk(t: Tables) {
    && (forall i, j | 0 <= i < j < |t.intents| :: t.intents[i].key != t.intents[j].key)
    && (forall i | 0 <= i < |t.intents| :: Belongs(t, t.intents[i], t.intents[i].invoiceId))
  }

  ghost predicate Belongs(t: Tables, intent: PaymentIntent, id: string) {
    id in t.invoices && intent == PaymentIntent(IdempotencyKey(id), t.invoices[id].totalAmountCents, id)
  }

  /** Intent i is the payment of the invoice: its key and its exact amount, for a non-zero total. */
  ghost predicate Pays(t: Tables, i: nat, id: string) {
    && id in t.invoices && t.invoices[id].totalAmountCents != 0
    && i < |t.intents| && Belongs(t, t.intents[i], id)
  }

  ghost predicate InvoiceOk(t: Tables, id: string)
    requires id in t.invoices
  {
    var invoice := t.invoices[id];
    && (invoice.intentId.Some? ==> Pays(t, invoice.intentId.value, id))
    && (invoice.status == Finalized ==> invoice.intentId.Some? && invoice.paymentStatus == Processing)
    && (invoice.status == Paid ==> invoice.totalAmountCents == 0)
  }

  ghost predicate CallOk(t: Tables, c: Call) {
    && c.invoiceId in t.invoices && c.amountCents == t.invoices[c.invoiceId].totalAmountCents
    && match c.at
       case CreatingIntent => c.amountCents != 0
       case RecordingIntent(i) => Pays(t, i, c.invoiceId)
       case MarkingFinalized(i) =>
         Pays(t, i, c.invoiceId) && t.invoices[c.invoiceId].intentId == Some(i) && t.invoices[c.invoiceId].paymentStatus == Processing
       case WritingView(i) => Pays(t, i, c.invoiceId) && t.invoices[c.invoiceId].intentId == Some(i)
       case MarkingPaid => c.amountCents == 0
       case SettlingPayment => c.amountCents == 0
       case Completed => true
  }

  ghost predicate Inv(s: System) {
    && IntentsOk(s.tables)
    && (forall id | id in s.tables.invoices :: InvoiceOk(s.tables, id))
    && (forall i | 0 <= i < |s.calls| :: CallOk(s.tables, s.calls[i]))
  }

  lemma KeyIdentifiesInvoice(a: string, b: string)
    ensures IdempotencyKey(a) == IdempotencyKey(b) <==> a == b
  {
    assert IdempotencyKey(a)[4..] == a && IdempotencyKey(b)[4..] == b;
  }

  /** An invoice's intent is unique. */
  lemma PaysUnique(t: Tables, i: nat, j: nat, id: string)
    requires IntentsOk(t) && Pays(t, i, id) && Pays(t, j, id)
    ensures i == j
  {
  }

  /** What an effect may change of other calls' and invoices' view of the world. */
  ghost predicate Extends(t: Tables, t': Tables, id: string) {
    && t.intents <= t'.intents
    && t.invoices.Keys == t'.invoices.Keys
    && (forall x | x in t.invoices && x != id :: t'.invoices[x] == t.invoices[x])
    && (forall x | x in t.invoices :: t'.invoices[x].totalAmountCents == t.invoices[x].totalAmountCents)
  }

  lemma PaysKept(t: Tables, t': Tables, id: string, i: nat, x: string)
    requires Extends(t, t', id) && Pays(t, i, x)
    ensures Pays(t', i, x)
  {
  }

  lemma EffectOk(t: Tables, c: Call)
    requires IntentsOk(t) && CallOk(t, c) && InvoiceOk(t, c.invoiceId)
    ensures var (t', c') := Effect(t, c);
            && Extends(t, t', c.invoiceId) && IntentsOk(t') && CallOk(t', c') && InvoiceOk(t', c.invoiceId)
            && (t.invoices[c.invoiceId].intentId.Some? ==>
                  t'.invoices[c.invoiceId].intentId == t.invoices[c.invoiceId].intentId)
            && (t'.invoices[c.invoiceId].paymentStatus == Processing || t'.invoices[c.invoiceId].totalAmountCents == 0
                || t'.invoices[c.invoiceId].paymentStatus == t.invoices[c.invoiceId].paymentStatus)
  {
    hide IdempotencyKey, FindIntent;
    var (t', c') := Effect(t, c);
    match c.at {
      case CreatingIntent =>
        if FindIntent(t.intents, IdempotencyKey(c.invoiceId)).Some? {
          KeyOfExisting(t, FindIntent(t.intents, IdempotencyKey(c.invoiceId)).value, c.invoiceId);
        }
      case RecordingIntent(i) =>
        if t.invoices[c.invoiceId].intentId.Some? {
          PaysUnique(t, i, t.invoices[c.invoiceId].intentId.value, c.invoiceId);
        }
      case _ =>
    }
  }

  lemma KeyOfExisting(t: Tables, i: nat, id: string)
    requires IntentsOk(t) && i < |t.intents| && t.intents[i].key == IdempotencyKey(id)
    requires id in t.invoices && t.invoices[id].totalAmountCents != 0
    ensures Pays(t, i, id)
  {
    KeyIdentifiesInvoice(t.intents[i].invoiceId, id);
  }

  /** The other calls are not disturbed. */
  lemma OtherCallOk(t: Tables, c: Call, other: Call)
    requires IntentsOk(t) && CallOk(t, c) && InvoiceOk(t, c.invoiceId) && CallOk(t, other)
    ensures CallOk(Effect(t, c).0, other)
  {
    hide IdempotencyKey, FindIntent, Effect, IntentsOk;
    EffectOk(t, c);
    var t' := Effect(t, c).0;
    match other.at {
      case RecordingIntent(i) => PaysKept(t, t', c.invoiceId, i, other.invoiceId);
      case MarkingFinalized(i) => PaysKept(t, t', c.invoiceId, i, other.invoiceId);
      case WritingView(i) => PaysKept(t, t', c.invoiceId, i, other.invoiceId);
      case _ =>
    }
  }

  lemma OtherInvoiceOk(t: Tables, t': Tables, id: string, x: string)
    requires Extends(t, t', id) && x in t.invoices && x != id && InvoiceOk(t, x)
    ensures InvoiceOk(t', x)
  {
  }

  lemma StepKeepsInv(s: System, step: Step)
    requires Inv(s)
    ensures Inv(Next(s, step))
    ensures s.tables.intents <= Next(s, step).tables.intents
    ensures s.tables.invoices.Keys == Next(s, step).tables.invoices.Keys
    ensures forall x | x in s.tables.invoices ::
              Next(s, step).tables.invoices[x].totalAmountCents == s.tables.invoices[x].totalAmountCents
  {
    hide IdempotencyKey, FindIntent, Effect, IntentsOk, InvoiceOk;
    if step.Advance? && step.call < |s.calls| {
      var c := s.calls[step.call];
      EffectOk(s.tables, c);
      var t' := Effect(s.tables, c).0;
      forall x | x in t'.invoices ensures InvoiceOk(t', x) {
        if x != c.invoiceId {
          OtherInvoiceOk(s.tables, t', c.invoiceId, x);
        }
      }
      forall i | 0 <= i < |s.calls| ensures CallOk(t', s.calls[i]) {
        OtherCallOk(s.tables, c, s.calls[i]);
      }
    }
  }

  lemma {:induction false} EveryRunKeepsInv(s: System, h: seq<Step>)
    requires Inv(s)
    ensures Inv(Exec(s, h))
    ensures s.tables.intents <= Exec(s, h).tables.intents
    ensures s.tables.invoices.Keys == Exec(s, h).tables.invoices.Keys
    ensures forall x | x in s.tables.invoices ::
              Exec(s, h).tables.invoices[x].totalAmountCents == s.tables.invoices[x].totalAmountCents
  {
    hide Inv, Next;
    if h != [] {
      EveryRunKeepsInv(s, h[..|h| - 1]);
      StepKeepsInv(Exec(s, h[..|h| - 1]), h[|h| - 1]);
    }
  }

  /** Exactly-once payment. However many calls ran, interleaved and stopped wherever, no two
      intents belong to the same invoice, each is for exactly the invoice's total, and a
      finalized invoice carries the id of its own intent. */
  lemma ExactlyOncePayment(s: System, h: seq<Step>, i: nat, j: nat, id: string)
    requires Initial(s)
    ensures var t := Exec(s, h).tables;
            && t.invoices.Keys == s.tables.invoices.Keys
            && (i < j < |t.intents| ==> t.intents[i].key != t.intents[j].key)
            && (i < j < |t.intents| ==> t.intents[i].invoiceId != t.intents[j].invoiceId)
            && (i < |t.intents| ==>
                  && t.intents[i].invoiceId in s.tables.invoices
                  && t.intents[i].amountCents == s.tables.invoices[t.intents[i].invoiceId].totalAmountCents)
            && (id in t.invoices && t.invoices[id].status == Finalized ==>
                  && t.invoices[id].intentId.Some? && Pays(t, t.invoices[id].intentId.value, id)
                  && t.invoices[id].totalAmountCents == s.tables.invoices[id].totalAmountCents)
  {
    EveryRunKeepsInv(s, h);
  }

  // ---------------------------------------------------------------------------
  // Calls that run alone
  // ---------------------------------------------------------------------------

  /** The first `effects` effects of a call that runs undisturbed. */
  function Run(t: Tables, c: Call, effects: nat): (Tables, Call)
    requires c.invoiceId in t.invoices
    ensures var (t', c') := Run(t, c, effects); c'.invoiceId == c.invoiceId && c.invoiceId in t'.invoices
  {
    if effects == 0 then (t, c)
    else
      var (t', c') := Run(t, c, effects - 1);
      Effect(t', c')
  }

  /** A call that stops after some effects; four complete it. */
  function FinalizeStopped(t: Tables, invoiceId: string, now: Time, effects: nat): Tables {
    match Begin(t, invoiceId, now)
    case None => t
    case Some(c) => Run(t, c, effects).0
  }

  function IntentOf(t: Tables, invoiceId: string): nat {
    match FindIntent(t.intents, IdempotencyKey(invoiceId))
    case Some(i) => i
    case None => |t.intents|
  }

  /** A draft non-zero invoice can always be finalized by one more undisturbed call, however far
      earlier ones came, and with the same result: it ends up finalized, processing, and linked to
      the intent an earlier call created if there was one. */
  lemma StoppedCallsCanBeCompleted(t: Tables, invoiceId: string, now: Time)
    requires invoiceId in t.invoices && t.invoices[invoiceId].status == Draft && t.invoices[invoiceId].totalAmountCents != 0
    ensures var t' := FinalizeStopped(t, invoiceId, now, 4);
            && t'.invoices == t.invoices[invoiceId :=
                 Invoice(Finalized, Processing, t.invoices[invoiceId].totalAmountCents, Some(IntentOf(t, invoiceId)), None)]
            && t'.intents == (if FindIntent(t.intents, IdempotencyKey(invoiceId)).Some? then t.intents
                              else t.intents + [PaymentIntent(IdempotencyKey(invoiceId), t.invoices[invoiceId].totalAmountCents, invoiceId)])
            && t'.finalizedViews == t.finalizedViews + {invoiceId}
  {
    hide IdempotencyKey, FindIntent;
    var c0 := Begin(t, invoiceId, now).value;
    var (t1, c1) := Run(t, c0, 1);
    assert Run(t, c0, 0) == (t, c0);
    assert c1.at == RecordingIntent(IntentOf(t, invoiceId));
    var (t2, c2) := Run(t, c0, 2);
    assert (t2, c2) == Effect(t1, c1);
    var (t3, c3) := Run(t, c0, 3);
    assert (t3, c3) == Effect(t2, c2);
    var (t4, c4) := Run(t, c0, 4);
    assert (t4, c4) == Effect(t3, c3);
  }

  /** The intent such a call uses is the one the invoice was already linked to. */
  lemma LinkedIntentIsReused(t: Tables, id: string)
    requires IntentsOk(t) && id in t.invoices && InvoiceOk(t, id) && t.invoices[id].intentId.Some?
    ensures IntentOf(t, id) == t.invoices[id].intentId.value
  {
    hide FindIntent, IdempotencyKey;
    var linked := t.invoices[id].intentId.value;
    assert t.intents[linked].key == IdempotencyKey(id);
    KeyOfExisting(t, IntentOf(t, id), id);
    PaysUnique(t, IntentOf(t, id), linked, id);
  }

  /** How a zero-amount invoice fares when the call stops after k effects: untouched and still
      draft, paid but unsettled, or paid and settled. */
  lemma ZeroAmountOutcome(t: Tables, invoiceId: string, now: Time, k: nat)
    requires invoiceId in t.invoices && t.invoices[invoiceId].status == Draft && t.invoices[invoiceId].totalAmountCents == 0
    requires k <= 4
    ensures FinalizeStopped(t, invoiceId, now, k).intents == t.intents
    ensures var before, after := t.invoices[invoiceId], FinalizeStopped(t, invoiceId, now, k).invoices;
            after == t.invoices[invoiceId :=
              if k == 0 then before
              else if k == 1 then before.(status := Paid)
              else before.(status := Paid, paymentStatus := Succeeded, paidAt := Some(now))]
  {
    var c0 := Begin(t, invoiceId, now).value;
    assert Run(t, c0, 0) == (t, c0);
    if k > 0 {
      var (t1, c1) := Run(t, c0, 1);
      assert (t1, c1) == Effect(t, c0);
      if k > 1 {
        var (t2, c2) := Run(t, c0, 2);
        assert (t2, c2) == Effect(t1, c1);
        assert k > 2 ==> Run(t, c0, 3) == (t2, c2);
      }
    }
  }

  /** Once an invoice is not a draft, and as long as no call already under way on it goes on, every
      later call is rejected and the invoice stays as it is: a zero-amount invoice stopped between
      its two updates stays paid and unsettled for ever. */
  lemma {:induction false} NonDraftIsLeftAlone(s: System, h: seq<Step>, id: string)
    requires id in s.tables.invoices && s.tables.invoices[id].status != Draft
    requires forall step | step in h :: step.Advance? && step.call < |s.calls| ==> s.calls[step.call].invoiceId != id
    ensures id in Exec(s, h).tables.invoices && Exec(s, h).tables.invoices[id] == s.tables.invoices[id]
    ensures |s.calls| <= |Exec(s, h).calls|
    ensures forall i | 0 <= i < |Exec(s, h).calls| ::
              Exec(s, h).calls[i].invoiceId == id <==> i < |s.calls| && s.calls[i].invoiceId == id
  {
    hide Effect;
    if h != [] {
      var rest, step := h[..|h| - 1], h[|h| - 1];
      assert h == rest + [step];
      NonDraftIsLeftAlone(s, rest, id);
      var before := Exec(s, rest);
      if step.Advance? && step.call < |before.calls| && before.calls[step.call].invoiceId in before.tables.invoices {
        EffectIsLocal(before.tables, before.calls[step.call]);
      }
    }
  }

  lemma EffectIsLocal(t: Tables, c: Call)
    requires c.invoiceId in t.invoices
    ensures var (t', c') := Effect(t, c);
            && c'.invoiceId == c.invoiceId
            && t'.invoices.Keys == t.invoices.Keys
            && forall x | x in t.invoices && x != c.invoiceId :: t'.invoices[x] == t.invoices[x]
  {
  }

  // ---------------------------------------------------------------------------
  // The code
  // ---------------------------------------------------------------------------

  class Finalizer {
    var invoices: map<string, Invoice>
    var intents: seq<PaymentIntent>
    var finalizedViews: set<string>
    ghost var faults: nat

    ghost function State(): Tables
      reads this
    {
      Tables(invoices, intents, finalizedViews)
    }

    method Available() returns (ok: bool)
      modifies this`faults
      ensures faults == old(faults) + if ok then 0 else 1
    {
      ok := *;
      faults := faults + if ok then 0 else 1;
    }

    method UpdateInvoiceStatus(id: string, status: Status) returns (ok: bool)
      requires id in invoices
      modifies this`invoices, this`faults
      ensures invoices == if ok then old(invoices)[id := old(invoices)[id].(status := status)] else old(invoices)
      ensures faults == old(faults) + if ok then 0 else 1
    {
      ok := Available();
      if ok {
        invoices := invoices[id := invoices[id].(status := status)];
      }
    }

    /** An absent intent id keeps the one the invoice has. */
    method UpdateInvoicePayment(id: string, status: PaymentStatus, intentId: Option<nat>, paidAt: Option<Time>) returns (ok: bool)
      requires id in invoices
      modifies this`invoices, this`faults
      ensures invoices == if !ok then old(invoices) else
                old(invoices)[id := old(invoices)[id].(
                  paymentStatus := status, paidAt := paidAt,
                  intentId := if intentId.Some? then intentId else old(invoices)[id].intentId)]
      ensures faults == old(faults) + if ok then 0 else 1
    {
      ok := Available();
      if ok {
        var invoice := invoices[id].(paymentStatus := status, paidAt := paidAt);
        if intentId.Some? {
          invoice := invoice.(intentId := intentId);
        }
        invoices := invoices[id := invoice];
      }
    }

    /** The gateway: the same key always answers with the same intent. */
    method CreatePaymentIntent(key: string, amountCents: int64, invoiceId: string) returns (r: Option<nat>)
      modifies this`intents, this`faults
      ensures r.None? ==> intents == old(intents)
      ensures r.Some? ==>
                match FindIntent(old(intents), key)
                case Some(i) => r.value == i && intents == old(intents)
                case None => r.value == |old(intents)| && intents == old(intents) + [PaymentIntent(key, amountCents, invoiceId)]
      ensures faults == old(faults) + if r.Some? then 0 else 1
    {
      var ok := Available();
      if !ok {
        return None;
      }
      var existing := FindIntent(intents, key);
      if existing.Some? {
        return existing;
      }
      intents := intents + [PaymentIntent(key, amountCents, invoiceId)];
      return Some(|intents| - 1);
    }

    /** Carries out some of the effects of an undisturbed call, and all of them if nothing fails.
        A failed view write is not an error. */
    method Finalize(id: string, now: Time) returns (ok: bool, ghost effects: nat)
      modifies this
      ensures effects <= 4
      ensures State() == FinalizeStopped(old(State()), id, now, effects)
      ensures faults >= old(faults)
      ensures faults == old(faults) ==> effects == 4 && (ok <==> Begin(old(State()), id, now).Some?)
      ensures ok ==> Begin(old(State()), id, now).Some? && effects >= 2
                     && (old(invoices)[id].totalAmountCents != 0 ==> effects >= 3)
    {
      hide FindIntent, IdempotencyKey, Run;
      RunStart(State(), id, now);
      var readable := Available();
      if !readable {
        return false, 0;
      }
      if id !in invoices || invoices[id].status != Draft {
        return false, 4;
      }
      var invoice := invoices[id];
      ghost var t, c := State(), Begin(State(), id, now).value;
      RunSteps(t, c);
      if invoice.totalAmountCents == 0 {
        ok := UpdateInvoiceStatus(id, Paid);
        if !ok {
          return false, 0;
        }
        ok := UpdateInvoicePayment(id, Succeeded, None, Some(now));
        if !ok {
          return false, 1;
        }
        return true, 4;
      }
      var secrets := Available();
      if !secrets {
        return false, 0;
      }
      var intent := CreatePaymentIntent(IdempotencyKey(id), invoice.totalAmountCents, id);
      if intent.None? {
        return false, 0;
      }
      ok := UpdateInvoicePayment(id, Processing, intent, None);
      if !ok {
        return false, 1;
      }
      ok := UpdateInvoiceStatus(id, Finalized);
      if !ok {
        return false, 2;
      }
      var viewed := Available();
      if viewed {
        finalizedViews := finalizedViews + {id};
      }
      effects := if viewed then 4 else 3;
    }
  }

  lemma RunStart(t: Tables, id: string, now: Time)
    ensures FinalizeStopped(t, id, now, 0) == t
    ensures Begin(t, id, now).None? ==> FinalizeStopped(t, id, now, 4) == t
  {
  }

  lemma RunSteps(t: Tables, c: Call)
    requires c.invoiceId in t.invoices
    ensures Run(t, c, 0) == (t, c)
    ensures var (t1, c1) := Run(t, c, 1); Run(t, c, 1) == Effect(t, c) && Run(t, c, 2) == Effect(t1, c1)
    ensures var (t2, c2) := Run(t, c, 2); Run(t, c, 3) == Effect(t2, c2)
    ensures var (t3, c3) := Run(t, c, 3); Run(t, c, 4) == Effect(t3, c3)
  {
    hide Effect;
  }
}
