/** Payment attempts and provider webhooks on top of the invoice lifecycle. Deliveries are handled one
    after the other; the mark-paid transaction and the period advance may fail. Creating an attempt takes two
    steps, one that counts the earlier attempts and one, after the provider has answered, that inserts. */
module Payments {
  import opened Wrappers
  import opened Calendar
  import Billing = InvoiceLifecycle

  const MAX_RETRIES := 3
  const MAX_ATTEMPTS := 3
  const DAY_MS := 24 * 60 * 60 * 1000

  datatype AttemptStatus = Pending | Succeeded | Failed | RequiresAction

  datatype Attempt = Attempt(
    invoice: nat, tenant: nat, providerId: nat, status: AttemptStatus, number: nat,
    retryOf: Option<nat>, nextRetryAt: Option<int>)

  datatype Subscription = Subscription(pastDue: bool, periodStart: int, periodEnd: int, interval: Interval)

  datatype WebhookStatus = Processed | ProcessingFailed | Skipped

  datatype EventType = PaymentSucceeded | PaymentFailed | PaymentRequiresAction | RefundSucceeded | Unknown

  datatype Event = Event(id: nat, kind: EventType, providerId: nat)

  /** One HTTP delivery: no event when the signature is invalid; the clock and the faults it meets. */
  datatype Delivery = Delivery(event: Option<Event>, now: int, commits: bool, advances: bool)

  /** A call of createForInvoice that waits for the provider, with the number it has counted. */
  datatype Intent = Intent(invoice: nat, tenant: nat, number: nat)

  datatype State = State(
    billing: Billing.State, attempts: seq<Attempt>, webhooks: map<nat, WebhookStatus>, subs: map<nat, Subscription>,
    intents: map<nat, Intent>)

  function RetryDelay(number: nat): int {
    if number == 0 then DAY_MS else if number == 1 then 3 * DAY_MS else 7 * DAY_MS
  }

  function FindAttempt(attempts: seq<Attempt>, providerId: nat): (i: Option<nat>)
    ensures i.Some? ==> i.value < |attempts| && attempts[i.value].providerId == providerId
    ensures i.None? ==> forall a | a in attempts :: a.providerId != providerId
  {
    if attempts == [] then None
    else if attempts[|attempts| - 1].providerId == providerId then Some(|attempts| - 1)
    else FindAttempt(attempts[..|attempts| - 1], providerId)
  }

  /** The numbers of an invoice's attempts, oldest first. */
  function Numbers(attempts: seq<Attempt>, invoice: nat): seq<nat> {
    if attempts == [] then []
    else
      var last, before := attempts[|attempts| - 1], Numbers(attempts[..|attempts| - 1], invoice);
      if last.invoice == invoice then before + [last.number] else before
  }

  /** The newest failed attempt of an invoice. */
  function LastFailed(attempts: seq<Attempt>, invoice: nat): (r: Option<nat>)
    ensures r.Some? ==> r.value < |attempts| && attempts[r.value].invoice == invoice && attempts[r.value].status == Failed
    ensures forall i | 0 <= i < |attempts| && attempts[i].invoice == invoice && attempts[i].status == Failed ::
              r.Some? && i <= r.value
  {
    if attempts == [] then None
    else
      var last := attempts[|attempts| - 1];
      if last.invoice == invoice && last.status == Failed then Some(|attempts| - 1)
      else LastFailed(attempts[..|attempts| - 1], invoice)
  }

  // ----- what one call does -----

  function CountAttempts(s: State, client: nat, invoice: nat, tenant: nat): State {
    if client in s.intents then s
    else if invoice !in s.billing.invoices || s.billing.invoices[invoice].tenant != tenant
            || s.billing.invoices[invoice].status != Billing.Finalized then s
    else if exists a | a in s.attempts :: a.invoice == invoice && a.status == Succeeded then s
    else if |Numbers(s.attempts, invoice)| >= MAX_RETRIES then s
    else s.(intents := s.intents[client := Intent(invoice, tenant, |Numbers(s.attempts, invoice)|)])
  }

  function InsertAttempt(s: State, client: nat, providerId: nat, status: AttemptStatus): State {
    if client !in s.intents then s
    else
      var i, done := s.intents[client], s.(intents := s.intents - {client});
      if FindAttempt(s.attempts, providerId).Some? then done
      else done.(attempts := s.attempts + [Attempt(i.invoice, i.tenant, providerId, status, i.number,
                                                   LastFailed(s.attempts, i.invoice), None)])
  }

  function AdvancedSub(sub: Subscription): Subscription {
    sub.(periodStart := sub.periodEnd, periodEnd := NextEnd(sub.periodEnd, sub.interval))
  }

  function SubOf(s: State, a: Attempt): Option<nat> {
    if a.invoice in s.billing.invoices && s.billing.invoices[a.invoice].sub in s.subs
    then Some(s.billing.invoices[a.invoice].sub) else None
  }

  /** The state after the success handler, and whether it returned without throwing. */
  function Success(s: State, providerId: nat, d: Delivery): (State, bool) {
    var i := FindAttempt(s.attempts, providerId);
    if i.None? then (s, true)
    else
      var a := s.attempts[i.value];
      if a.invoice in s.billing.invoices && s.billing.invoices[a.invoice].status == Billing.Paid then (s, true)
      else
        var s1 := s.(attempts := s.attempts[i.value := a.(status := Succeeded)]);
        var (billing, paid) := Billing.Apply(s.billing, Billing.Call.MarkPaid(a.invoice, a.tenant, d.commits));
        if paid.Err? then (s1.(billing := billing), false)
        else
          var s2, sub := s1.(billing := billing), SubOf(s, a);
          if d.advances && sub.Some? then (s2.(subs := s.subs[sub.value := AdvancedSub(s.subs[sub.value])]), true)
          else (s2, true)
  }

  /** The state after the failure handler, and whether it returned without throwing. */
  function Failure(s: State, providerId: nat, d: Delivery): (State, bool) {
    var i := FindAttempt(s.attempts, providerId);
    if i.None? then (s, true)
    else
      var a := s.attempts[i.value].(status := Failed);
      if a.number + 1 < MAX_ATTEMPTS then
        (s.(attempts := s.attempts[i.value := a.(nextRetryAt := Some(d.now + RetryDelay(a.number)))]), true)
      else
        var s1, sub := s.(attempts := s.attempts[i.value := a]), SubOf(s, a);
        if sub.None? then (s1, false)
        else (s1.(subs := s.subs[sub.value := s.subs[sub.value].(pastDue := true)]), true)
  }

  function Process(s: State, d: Delivery): State {
    if d.event.None? || d.event.value.id in s.webhooks then s
    else
      var e := d.event.value;
      match e.kind
      case Unknown => s.(webhooks := s.webhooks[e.id := Skipped])
      case PaymentSucceeded => Recorded(Success(s, e.providerId, d), e.id)
      case PaymentFailed => Recorded(Failure(s, e.providerId, d), e.id)
      case _ => s.(webhooks := s.webhooks[e.id := Processed])
  }

  function Recorded(handled: (State, bool), id: nat): State {
    handled.0.(webhooks := handled.0.webhooks[id := if handled.1 then Processed else ProcessingFailed])
  }

  // ----- the services -----

  class PaymentService {
    const lifecycle: Billing.LifecycleService
    var attempts: seq<Attempt>
    var webhooks: map<nat, WebhookStatus>
    var subs: map<nat, Subscription>

    ghost function Snapshot(): State
      reads this, lifecycle
    {
      State(lifecycle.Snapshot(), attempts, webhooks, subs, map[])
    }

    constructor (lifecycle: Billing.LifecycleService)
      ensures this.lifecycle == lifecycle && attempts == [] && webhooks == map[] && subs == map[]
    {
      this.lifecycle := lifecycle;
      attempts, webhooks, subs := [], map[], map[];
    }

    method HandleSuccess(providerId: nat, d: Delivery) returns (ok: bool)
      modifies this`attempts, this`subs, lifecycle
      ensures (Snapshot(), ok) == Success(old(Snapshot()), providerId, d)
    {
      hide FindAttempt, NextEnd;
      var i := FindAttempt(attempts, providerId);
      if i.None? {
        return true;
      }
      var a := attempts[i.value];
      if a.invoice in lifecycle.invoices && lifecycle.invoices[a.invoice].status == Billing.Paid {
        return true;
      }
      attempts := attempts[i.value := a.(status := Succeeded)];
      var paid := lifecycle.MarkPaid(a.invoice, a.tenant, d.commits);
      if paid.Err? {
        return false;
      }
      if d.advances {
        var sub := lifecycle.invoices[a.invoice].sub;
        if sub in subs {
          subs := subs[sub := AdvancedSub(subs[sub])];
        }
      }
      return true;
    }

    method ScheduleRetry(i: nat, now: int)
      requires i < |attempts|
      modifies this`attempts
      ensures var a := old(attempts[i]);
        attempts == if a.status == Failed then old(attempts)[i := a.(nextRetryAt := Some(now + RetryDelay(a.number)))]
                    else old(attempts)
    {
      if attempts[i].status != Failed {
        return;
      }
      attempts := attempts[i := attempts[i].(nextRetryAt := Some(now + RetryDelay(attempts[i].number)))];
    }

    method HandleFailure(providerId: nat, d: Delivery) returns (ok: bool)
      modifies this`attempts, this`subs
      ensures (Snapshot(), ok) == Failure(old(Snapshot()), providerId, d)
    {
      hide FindAttempt;
      var i := FindAttempt(attempts, providerId);
      if i.None? {
        return true;
      }
      attempts := attempts[i.value := attempts[i.value].(status := Failed)];
      var a := attempts[i.value];
      if a.number + 1 < MAX_ATTEMPTS {
        ScheduleRetry(i.value, d.now);
        assert attempts == old(attempts)[i.value := a.(nextRetryAt := Some(d.now + RetryDelay(a.number)))];
        return true;
      }
      if a.invoice !in lifecycle.invoices || lifecycle.invoices[a.invoice].sub !in subs {
        return false;
      }
      var sub := lifecycle.invoices[a.invoice].sub;
      subs := subs[sub := subs[sub].(pastDue := true)];
      return true;
    }

    method ProcessWebhook(d: Delivery)
      modifies this`attempts, this`subs, this`webhooks, lifecycle
      ensures Snapshot() == Process(old(Snapshot()), d)
    {
      hide Success, Failure;
      if d.event.None? {
        return;
      }
      var e := d.event.value;
      if e.id in webhooks {
        return;
      }
      var ok := true;
      if e.kind == PaymentSucceeded {
        ok := HandleSuccess(e.providerId, d);
      } else if e.kind == PaymentFailed {
        ok := HandleFailure(e.providerId, d);
      } else if e.kind == Unknown {
        webhooks := webhooks[e.id := Skipped];
        return;
      }
      webhooks := webhooks[e.id := if ok then Processed else ProcessingFailed];
    }

    /** `createForInvoice`, undisturbed. */
    method CreateForInvoice(invoice: nat, tenant: nat, providerId: nat, status: AttemptStatus)
      modifies this`attempts
      ensures Snapshot() == InsertAttempt(CountAttempts(old(Snapshot()), 0, invoice, tenant), 0, providerId, status)
    {
      hide Numbers, FindAttempt, LastFailed;
      var found := lifecycle.FindInvoiceForTenant(invoice, tenant);
      if found.None? || found.value.status != Billing.Finalized {
        return;
      }
      if exists a | a in attempts :: a.invoice == invoice && a.status == Succeeded {
        return;
      }
      var previousAttempts := |Numbers(attempts, invoice)|;
      if previousAttempts >= MAX_RETRIES {
        return;
      }
      assert map[0 := Intent(invoice, tenant, previousAttempts)] - {0} == map[];
      if FindAttempt(attempts, providerId).Some? {
        return;
      }
      attempts := attempts + [Attempt(invoice, tenant, providerId, status, previousAttempts,
                                      LastFailed(attempts, invoice), None)];
    }
  }

  // ----- repeats of a provider event do not matter -----

  function ProcessAll(s: State, ds: seq<Delivery>): State
    decreases |ds|
  {
    if ds == [] then s else ProcessAll(Process(s, ds[0]), ds[1..])
  }

  /** The deliveries without later repeats of a provider event id. */
  function FirstOnly(ds: seq<Delivery>, seen: set<nat>): seq<Delivery> {
    if ds == [] then []
    else if ds[0].event.None? then [ds[0]] + FirstOnly(ds[1..], seen)
    else if ds[0].event.value.id in seen then FirstOnly(ds[1..], seen)
    else [ds[0]] + FirstOnly(ds[1..], seen + {ds[0].event.value.id})
  }

  lemma ProcessRecords(s: State, d: Delivery)
    ensures s.webhooks.Keys <= Process(s, d).webhooks.Keys
    ensures d.event.Some? ==> d.event.value.id in Process(s, d).webhooks
  {
    hide FindAttempt, Billing.Apply, SubOf, AdvancedSub;
  }

  /** Delivering events again, in any order and with any content under a known id, ends in the same
      state as delivering each event once. */
  lemma {:induction false} RepeatsChangeNothing(s: State, ds: seq<Delivery>, seen: set<nat>)
    requires seen <= s.webhooks.Keys
    ensures ProcessAll(s, ds) == ProcessAll(s, FirstOnly(ds, seen))
    decreases |ds|
  {
    hide Process;
    if ds != [] {
      var d, rest := ds[0], ds[1..];
      ProcessRecords(s, d);
      if d.event.None? {
        RepeatsChangeNothing(Process(s, d), rest, seen);
        assert ([d] + FirstOnly(rest, seen))[1..] == FirstOnly(rest, seen);
      } else if d.event.value.id in seen {
        KnownEventIsSkipped(s, d);
        RepeatsChangeNothing(s, rest, seen);
      } else {
        var more := seen + {d.event.value.id};
        RepeatsChangeNothing(Process(s, d), rest, more);
        assert ([d] + FirstOnly(rest, more))[1..] == FirstOnly(rest, more);
      }
    }
  }

  lemma KnownEventIsSkipped(s: State, d: Delivery)
    requires d.event.Some? && d.event.value.id in s.webhooks
    ensures Process(s, d) == s
  {
  }

  // ----- every run of the payment system -----

  datatype Action =
    | Lifecycle(call: Billing.Call)
    | CountFor(client: nat, invoice: nat, tenant: nat)
    | Insert(client: nat, providerId: nat, status: AttemptStatus)
    | ProviderFails(client: nat)
    | Webhook(delivery: Delivery)
    | Subscribe(sub: nat, row: Subscription)

  function Act(s: State, a: Action): State {
    match a
    case Lifecycle(call) => s.(billing := Billing.Apply(s.billing, call).0)
    case CountFor(client, invoice, tenant) => CountAttempts(s, client, invoice, tenant)
    case Insert(client, providerId, status) => InsertAttempt(s, client, providerId, status)
    case ProviderFails(client) => s.(intents := s.intents - {client})
    case Webhook(d) => Process(s, d)
    case Subscribe(sub, row) => s.(subs := s.subs[sub := row])
  }

  function Run(s: State, actions: seq<Action>): State {
    if actions == [] then s else Act(Run(s, actions[..|actions| - 1]), actions[|actions| - 1])
  }

  const EMPTY := State(Billing.EMPTY, [], map[], map[], map[])

  /** The attempts of an invoice are numbered 0, 1, ... and there are at most three. */
  predicate Counted(attempts: seq<Attempt>, invoice: nat) {
    var numbers := Numbers(attempts, invoice);
    |numbers| <= MAX_RETRIES && forall k | 0 <= k < |numbers| :: numbers[k] == k
  }

  predicate DistinctIds(attempts: seq<Attempt>) {
    forall i, j | 0 <= i < j < |attempts| :: attempts[i].providerId != attempts[j].providerId
  }

  lemma {:induction false} NumbersIgnoreStatus(attempts: seq<Attempt>, i: nat, a: Attempt, invoice: nat)
    requires i < |attempts| && a.invoice == attempts[i].invoice && a.number == attempts[i].number
    ensures Numbers(attempts[i := a], invoice) == Numbers(attempts, invoice)
  {
    var before := attempts[..|attempts| - 1];
    if i == |attempts| - 1 {
      assert attempts[i := a][..|attempts| - 1] == before;
    } else {
      NumbersIgnoreStatus(before, i, a, invoice);
      assert attempts[i := a][..|attempts| - 1] == before[i := a];
    }
  }

  lemma ProcessKeepsAttempts(s: State, d: Delivery, invoice: nat)
    ensures |Process(s, d).attempts| == |s.attempts| && Process(s, d).intents == s.intents
    ensures Numbers(Process(s, d).attempts, invoice) == Numbers(s.attempts, invoice)
    ensures DistinctIds(s.attempts) ==> DistinctIds(Process(s, d).attempts)
  {
    hide FindAttempt, Numbers, Billing.Apply, SubOf, AdvancedSub, RetryDelay;
    if d.event.Some? {
      var i := FindAttempt(s.attempts, d.event.value.providerId);
      if i.Some? {
        var a := s.attempts[i.value];
        NumbersIgnoreStatus(s.attempts, i.value, a.(status := Succeeded), invoice);
        NumbersIgnoreStatus(s.attempts, i.value, a.(status := Failed), invoice);
        NumbersIgnoreStatus(s.attempts, i.value,
                            a.(status := Failed, nextRetryAt := Some(d.now + RetryDelay(a.number))), invoice);
      }
    }
  }

  lemma ProcessKeepsLedger(s: State, d: Delivery)
    requires Billing.LedgerOk(s.billing)
    ensures Billing.LedgerOk(Process(s, d).billing)
  {
    hide FindAttempt, Billing.Apply, Billing.LedgerOk, SubOf, AdvancedSub, RetryDelay;
    if d.event.Some? {
      var i := FindAttempt(s.attempts, d.event.value.providerId);
      if i.Some? {
        var a := s.attempts[i.value];
        Billing.ApplyKeepsLedger(s.billing, Billing.Call.MarkPaid(a.invoice, a.tenant, d.commits));
      }
    }
  }

  lemma IntentStepsTouchNothingElse(s: State, a: Action)
    requires a.CountFor? || a.Insert? || a.ProviderFails?
    ensures Act(s, a) == s.(attempts := Act(s, a).attempts, intents := Act(s, a).intents)
    ensures !a.Insert? ==> Act(s, a).attempts == s.attempts
    ensures DistinctIds(s.attempts) ==> DistinctIds(Act(s, a).attempts)
  {
    hide FindAttempt, LastFailed, Numbers;
  }

  lemma {:induction false} RunKeepsBooks(actions: seq<Action>)
    ensures var s := Run(EMPTY, actions);
      Billing.LedgerOk(s.billing) && DistinctIds(s.attempts)
  {
    hide Billing.Apply, Billing.LedgerOk, Process, CountAttempts, InsertAttempt, DistinctIds;
    if actions == [] {
      Billing.EmptyIsOk();
      assert DistinctIds([]) by { NoAttempts(); }
    } else {
      var s, a := Run(EMPTY, actions[..|actions| - 1]), actions[|actions| - 1];
      RunKeepsBooks(actions[..|actions| - 1]);
      match a {
        case Lifecycle(call) => Billing.ApplyKeepsLedger(s.billing, call);
        case Webhook(d) =>
          ProcessKeepsAttempts(s, d, 0);
          ProcessKeepsLedger(s, d);
        case Subscribe(_, _) =>
        case _ => IntentStepsTouchNothingElse(s, a);
      }
    }
  }

  lemma NoAttempts()
    ensures DistinctIds([])
  {
  }

  /** Over every run of lifecycle calls, payment intents and webhook deliveries in any order: an
      invoice has at most one PAYMENT entry, for exactly its total, and has it exactly when it is PAID. */
  lemma OnePaymentPerInvoice(actions: seq<Action>, id: nat)
    requires id in Run(EMPTY, actions).billing.invoices
    ensures var s := Run(EMPTY, actions);
      var inv := s.billing.invoices[id];
      Billing.Payments(s.billing.ledger, id)
      == if inv.status == Billing.Paid then [Billing.Entry(inv.tenant, id, Billing.Payment, 0, inv.total)] else []
  {
    hide Run, Billing.LedgerOk;
    RunKeepsBooks(actions);
    Billing.OnePaymentExactlyWhenPaid(Run(EMPTY, actions).billing, id);
  }

  // ----- the numbers of the attempts -----

  /** The step inserts an attempt of the invoice under a number that is no longer the count. */
  predicate Stale(s: State, a: Action, invoice: nat) {
    a.Insert? && a.client in s.intents && s.intents[a.client].invoice == invoice
    && FindAttempt(s.attempts, a.providerId).None? && s.intents[a.client].number != |Numbers(s.attempts, invoice)|
  }

  predicate UnderTheCap(s: State) {
    forall c | c in s.intents :: s.intents[c].number < MAX_RETRIES
  }

  lemma ActKeepsCap(s: State, a: Action)
    requires UnderTheCap(s)
    ensures UnderTheCap(Act(s, a))
  {
    hide FindAttempt, LastFailed, Numbers, Process, Billing.Apply;
    if a.Webhook? {
      ProcessKeepsAttempts(s, a.delivery, 0);
    }
  }

  lemma NumbersPush(attempts: seq<Attempt>, a: Attempt, invoice: nat)
    ensures Numbers(attempts + [a], invoice) == Numbers(attempts, invoice) + if a.invoice == invoice then [a.number] else []
  {
    assert (attempts + [a])[..|attempts|] == attempts;
  }

  lemma ActIsCountedIff(s: State, a: Action, invoice: nat)
    requires UnderTheCap(s) && Counted(s.attempts, invoice)
    ensures Counted(Act(s, a).attempts, invoice) <==> !Stale(s, a, invoice)
  {
    hide FindAttempt, LastFailed, Numbers, Process, Billing.Apply;
    if a.Webhook? {
      ProcessKeepsAttempts(s, a.delivery, invoice);
    } else if a.Insert? && a.client in s.intents {
      var i, numbers := s.intents[a.client], Numbers(s.attempts, invoice);
      NumbersPush(s.attempts, Attempt(i.invoice, i.tenant, a.providerId, a.status, i.number,
                                      LastFailed(s.attempts, i.invoice), None), invoice);
      assert (numbers + [i.number])[|numbers|] == i.number;
      assert forall k | 0 <= k < |numbers| :: (numbers + [i.number])[k] == numbers[k];
    }
  }

  predicate CountedAt(actions: seq<Action>, invoice: nat, i: nat)
    requires i <= |actions|
  {
    Counted(Run(EMPTY, actions[..i]).attempts, invoice)
  }

  predicate StaleAt(actions: seq<Action>, invoice: nat, i: nat)
    requires i < |actions|
  {
    Stale(Run(EMPTY, actions[..i]), actions[i], invoice)
  }

  lemma {:induction false} RunKeepsCap(actions: seq<Action>)
    ensures UnderTheCap(Run(EMPTY, actions))
  {
    hide Act, UnderTheCap;
    if actions == [] {
      assert UnderTheCap(EMPTY) by { EmptyIsCounted(0); }
    } else {
      RunKeepsCap(actions[..|actions| - 1]);
      ActKeepsCap(Run(EMPTY, actions[..|actions| - 1]), actions[|actions| - 1]);
    }
  }

  lemma EmptyIsCounted(invoice: nat)
    ensures UnderTheCap(EMPTY) && Counted(EMPTY.attempts, invoice)
  {
  }

  /** As long as no insert is stale the attempts are counted, and the first stale one is when they stop being so. */
  lemma {:induction false} CountedUpTo(actions: seq<Action>, invoice: nat, n: nat)
    requires n <= |actions|
    ensures (forall i: nat | i <= n :: CountedAt(actions, invoice, i)) <==> forall i: nat | i < n :: !StaleAt(actions, invoice, i)
  {
    hide Act, Counted, Stale;
    if n == 0 {
      assert actions[..0] == [];
      EmptyIsCounted(invoice);
    } else {
      CountedUpTo(actions, invoice, n - 1);
      if forall i: nat | i < n :: CountedAt(actions, invoice, i) {
        RunKeepsCap(actions[..n - 1]);
        assert actions[..n][..n - 1] == actions[..n - 1];
        assert CountedAt(actions, invoice, n - 1);
        ActIsCountedIff(Run(EMPTY, actions[..n - 1]), actions[n - 1], invoice);
        assert CountedAt(actions, invoice, n) <==> !StaleAt(actions, invoice, n - 1);
      }
    }
  }

  /** The attempts of an invoice are numbered 0, 1, ... and at most three at every point of a run exactly if each
      insert finds as many attempts as its call has counted. */
  lemma AttemptsAreCountedIff(actions: seq<Action>, invoice: nat)
    ensures (forall i: nat | i <= |actions| :: CountedAt(actions, invoice, i))
            <==> forall i: nat | i < |actions| :: !StaleAt(actions, invoice, i)
  {
    CountedUpTo(actions, invoice, |actions|);
  }

  /** The step starts a call for the invoice while another one is waiting for the provider. */
  predicate Overlaps(s: State, a: Action, invoice: nat) {
    a.CountFor? && a.invoice == invoice && exists c | c in s.intents :: s.intents[c].invoice == invoice
  }

  predicate NoOverlap(actions: seq<Action>, invoice: nat) {
    forall i | 0 <= i < |actions| :: !Overlaps(Run(EMPTY, actions[..i]), actions[i], invoice)
  }

  /** At most one call of the invoice is waiting, and its number is still the count. */
  predicate Serial(s: State, invoice: nat) {
    && (forall c, d | c in s.intents && d in s.intents && s.intents[c].invoice == s.intents[d].invoice == invoice :: c == d)
    && (forall c | c in s.intents && s.intents[c].invoice == invoice :: s.intents[c].number == |Numbers(s.attempts, invoice)|)
  }

  lemma ActKeepsSerial(s: State, a: Action, invoice: nat)
    requires Serial(s, invoice) && !Overlaps(s, a, invoice)
    ensures Serial(Act(s, a), invoice) && !Stale(s, a, invoice)
  {
    hide FindAttempt, LastFailed, Numbers, Process, Billing.Apply;
    if a.Webhook? {
      ProcessKeepsAttempts(s, a.delivery, invoice);
    } else if a.Insert? && a.client in s.intents {
      var i := s.intents[a.client];
      NumbersPush(s.attempts, Attempt(i.invoice, i.tenant, a.providerId, a.status, i.number,
                                      LastFailed(s.attempts, i.invoice), None), invoice);
    }
  }

  lemma {:induction false} RunIsSerial(actions: seq<Action>, invoice: nat, n: nat)
    requires n <= |actions| && NoOverlap(actions, invoice)
    ensures Serial(Run(EMPTY, actions[..n]), invoice) && forall i: nat | i < n :: !StaleAt(actions, invoice, i)
  {
    hide Act, Serial, Stale, Overlaps;
    if n == 0 {
      assert actions[..0] == [];
      assert Serial(EMPTY, invoice) by { EmptyIsSerial(invoice); }
    } else {
      RunIsSerial(actions, invoice, n - 1);
      assert actions[..n][..n - 1] == actions[..n - 1];
      ActKeepsSerial(Run(EMPTY, actions[..n - 1]), actions[n - 1], invoice);
    }
  }

  lemma EmptyIsSerial(invoice: nat)
    ensures Serial(EMPTY, invoice)
  {
  }

  /** So when calls for one invoice never overlap, its attempts are always numbered 0, 1, ... and at most three. */
  lemma SerialCallsAreCounted(actions: seq<Action>, invoice: nat)
    requires NoOverlap(actions, invoice)
    ensures Counted(Run(EMPTY, actions).attempts, invoice)
  {
    hide Run, Counted, Stale;
    RunIsSerial(actions, invoice, |actions|);
    AttemptsAreCountedIff(actions, invoice);
    assert CountedAt(actions, invoice, |actions|) && actions[..|actions|] == actions;
  }

  /** An undisturbed call makes an attempt exactly if the invoice is the tenant's and FINALIZED, none of its attempts has
      succeeded, fewer than three were made, and the provider's id is new. The attempt is numbered by the earlier ones
      and points to the newest of them that failed. */
  lemma AttemptIsMadeIff(s: State, client: nat, invoice: nat, tenant: nat, providerId: nat, status: AttemptStatus)
    requires client !in s.intents
    ensures var s' := InsertAttempt(CountAttempts(s, client, invoice, tenant), client, providerId, status);
      var earlier := Numbers(s.attempts, invoice);
      && s' == s.(attempts := s'.attempts) && s.attempts <= s'.attempts && |s'.attempts| <= |s.attempts| + 1
      && (s'.attempts != s.attempts <==>
            && invoice in s.billing.invoices && s.billing.invoices[invoice].tenant == tenant
            && s.billing.invoices[invoice].status == Billing.Finalized && |earlier| < 3
            && forall a | a in s.attempts :: a.providerId != providerId && !(a.invoice == invoice && a.status == Succeeded))
      && (s'.attempts != s.attempts ==>
            var a := s'.attempts[|s.attempts|];
            && a.invoice == invoice && a.tenant == tenant && a.providerId == providerId && a.status == status
            && a.number == |earlier| && a.nextRetryAt == None
            && a.retryOf == LastFailed(s.attempts, invoice))
  {
    hide Numbers, FindAttempt, LastFailed;
    assert s.intents[client := Intent(invoice, tenant, |Numbers(s.attempts, invoice)|)] - {client} == s.intents;
    if exists a | a in s.attempts :: a.providerId == providerId {
      assert FindAttempt(s.attempts, providerId).Some?;
    }
  }

  // ----- overlapping calls break the numbering and the cap -----

  lemma RunThen(actions: seq<Action>, s: State, a: Action) returns (longer: seq<Action>, s': State)
    requires s == Run(EMPTY, actions)
    ensures longer == actions + [a] && s' == Act(s, a) == Run(EMPTY, longer)
  {
    hide Act;
    longer, s' := actions + [a], Act(s, a);
    assert longer[..|actions|] == actions;
  }

  /** Invoice 0 of tenant 0 is FINALIZED and nothing has been paid or attempted. */
  predicate Open(s: State) {
    && 0 in s.billing.invoices && s.billing.invoices[0].tenant == 0 && s.billing.invoices[0].status == Billing.Finalized
    && s.billing.invoices[0].number.Some? && s.webhooks == map[] && s.subs == map[]
  }

  lemma NothingRun()
    ensures Run(EMPTY, []) == EMPTY
  {
  }

  lemma OneOpenInvoice() returns (actions: seq<Action>, s: State)
    ensures s == Run(EMPTY, actions) && Open(s) && s.attempts == [] && s.intents == map[] && s.billing.invoices.Keys == {0}
  {
    hide Run, Billing.DueDate, Billing.NextSequence;
    actions, s := [], EMPTY;
    NothingRun();
    actions, s := RunThen(actions, s, Lifecycle(Billing.Call.Draft(0, 0, 0, 100)));
    actions, s := RunThen(actions, s, Lifecycle(Billing.Call.Finalize(0, 0, 0, 2026, true)));
  }

  /** Clients k to n - 1 wait for the provider, each having counted nothing. */
  ghost predicate Waiting(s: State, k: nat, n: nat) {
    forall c: nat :: (c in s.intents <==> k <= c < n) && (c in s.intents ==> s.intents[c] == Intent(0, 0, 0))
  }

  /** n calls for the open invoice that have all counted nothing. */
  lemma {:induction false} AllCountNothing(n: nat) returns (actions: seq<Action>, s: State)
    ensures s == Run(EMPTY, actions) && Open(s) && s.attempts == []
    ensures Waiting(s, 0, n)
  {
    hide Run;
    if n == 0 {
      actions, s := OneOpenInvoice();
    } else {
      actions, s := AllCountNothing(n - 1);
      actions, s := RunThen(actions, s, CountFor(n - 1, 0, 0));
    }
  }

  /** The first k of n such calls have inserted, each under number 0. */
  ghost predicate AllZero(s: State, k: nat, n: nat) {
    && |s.attempts| == k && Waiting(s, k, n)
    && (forall i | 0 <= i < k :: s.attempts[i].invoice == 0 && s.attempts[i].providerId == i && s.attempts[i].number == 0)
  }

  lemma {:induction false} AllInsertZero(k: nat, n: nat) returns (actions: seq<Action>, s: State)
    requires k <= n
    ensures s == Run(EMPTY, actions) && AllZero(s, k, n)
  {
    hide Run, LastFailed;
    if k == 0 {
      actions, s := AllCountNothing(n);
    } else {
      actions, s := AllInsertZero(k - 1, n);
      assert FindAttempt(s.attempts, k - 1).None?;
      actions, s := RunThen(actions, s, Insert(k - 1, k - 1, Pending));
    }
  }

  lemma {:induction false} ZeroNumbers(attempts: seq<Attempt>)
    requires forall i | 0 <= i < |attempts| :: attempts[i].invoice == 0 && attempts[i].number == 0
    ensures |Numbers(attempts, 0)| == |attempts| && forall k | 0 <= k < |attempts| :: Numbers(attempts, 0)[k] == 0
  {
    if attempts != [] {
      ZeroNumbers(attempts[..|attempts| - 1]);
    }
  }

  /** Any number of overlapping calls all get through, all under number 0. */
  lemma OverlapBreaksTheCap(n: nat) returns (actions: seq<Action>)
    ensures var numbers := Numbers(Run(EMPTY, actions).attempts, 0);
      |numbers| == n && forall k | 0 <= k < n :: numbers[k] == 0
  {
    hide Run;
    var s;
    actions, s := AllInsertZero(n, n);
    ZeroNumbers(s.attempts);
  }

  // ----- what a success event achieves -----

  /** Attempts and waiting calls belong to an invoice of their tenant that has been finalized. */
  predicate Grounded(s: State) {
    && (forall i | 0 <= i < |s.attempts| :: PastDraft(s.billing, s.attempts[i].invoice, s.attempts[i].tenant))
    && (forall c | c in s.intents :: PastDraft(s.billing, s.intents[c].invoice, s.intents[c].tenant))
  }

  predicate PastDraft(b: Billing.State, invoice: nat, tenant: nat) {
    invoice in b.invoices && b.invoices[invoice].tenant == tenant && b.invoices[invoice].status != Billing.Status.Draft
  }

  lemma NeverDraftAgain(b: Billing.State, call: Billing.Call, invoice: nat, tenant: nat)
    requires PastDraft(b, invoice, tenant)
    ensures PastDraft(Billing.Apply(b, call).0, invoice, tenant)
  {
    hide Billing.DueDate, Billing.NextSequence;
  }

  lemma ProcessKeepsGround(s: State, d: Delivery)
    requires Grounded(s)
    ensures Grounded(Process(s, d))
  {
    hide FindAttempt, Billing.Apply, SubOf, AdvancedSub, RetryDelay, PastDraft;
    if d.event.Some? {
      var i := FindAttempt(s.attempts, d.event.value.providerId);
      if i.Some? {
        var call := Billing.Call.MarkPaid(s.attempts[i.value].invoice, s.attempts[i.value].tenant, d.commits);
        forall invoice, tenant | PastDraft(s.billing, invoice, tenant)
          ensures PastDraft(Billing.Apply(s.billing, call).0, invoice, tenant)
        {
          NeverDraftAgain(s.billing, call, invoice, tenant);
        }
      }
    }
  }

  lemma ActKeepsGround(s: State, a: Action)
    requires Grounded(s)
    ensures Grounded(Act(s, a))
  {
    hide FindAttempt, LastFailed, Numbers, Process, Billing.Apply;
    if a.Webhook? {
      ProcessKeepsGround(s, a.delivery);
    } else if a.Lifecycle? {
      forall invoice, tenant | PastDraft(s.billing, invoice, tenant)
        ensures PastDraft(Act(s, a).billing, invoice, tenant)
      {
        NeverDraftAgain(s.billing, a.call, invoice, tenant);
      }
    }
  }

  /** No attempt ever belongs to a DRAFT invoice. */
  lemma {:induction false} RunIsGrounded(actions: seq<Action>)
    ensures Grounded(Run(EMPTY, actions))
  {
    hide Act, PastDraft;
    if actions != [] {
      RunIsGrounded(actions[..|actions| - 1]);
      ActKeepsGround(Run(EMPTY, actions[..|actions| - 1]), actions[|actions| - 1]);
    }
  }

  /** After any run, the first success event for a known payment leaves the invoice PAID exactly if it was PAID, or was
      FINALIZED and the transaction commits; exactly then the event ends PROCESSED. Otherwise (the invoice is VOID, or
      the transaction rolls back) the attempt is SUCCEEDED all the same, nothing is booked, and
      (RepeatsChangeNothing) no later delivery of the event is looked at. */
  lemma SuccessIsBookedIff(actions: seq<Action>, d: Delivery)
    requires var s := Run(EMPTY, actions);
      && d.event.Some? && d.event.value.kind == PaymentSucceeded && d.event.value.id !in s.webhooks
      && FindAttempt(s.attempts, d.event.value.providerId).Some?
    ensures var s := Run(EMPTY, actions);
      var i := FindAttempt(s.attempts, d.event.value.providerId).value;
      var id, s' := s.attempts[i].invoice, Process(s, d);
      && id in s.billing.invoices && s.billing.invoices[id].status != Billing.Status.Draft && id in s'.billing.invoices
      && var before := s.billing.invoices[id].status;
      && (s'.billing.invoices[id].status == Billing.Paid
          <==> before == Billing.Paid || (before == Billing.Finalized && d.commits))
      && (s'.webhooks[d.event.value.id] == Processed
          <==> before == Billing.Paid || (before == Billing.Finalized && d.commits))
      && (before != Billing.Paid ==> s'.attempts[i].status == Succeeded)
      && (!(before == Billing.Finalized && d.commits) ==> s'.billing == s.billing && s'.subs == s.subs)
  {
    hide Run, FindAttempt, AdvancedSub;
    RunIsGrounded(actions);
  }

  /** What is recorded of an event, by what the handlers meet: a success is PROCESSED when its payment is unknown, its
      invoice PAID before, or FINALIZED with a booking that commits; a failure unless it is the last of a payment whose
      subscription is gone; other known kinds always, unknown ones are SKIPPED. Kinds other than success and failure, and
      payments without an attempt, change nothing else. */
  lemma EventIsRecorded(actions: seq<Action>, d: Delivery)
    requires d.event.Some? && d.event.value.id !in Run(EMPTY, actions).webhooks
    ensures var s, e := Run(EMPTY, actions), d.event.value;
      var s', i := Process(s, d), FindAttempt(s.attempts, e.providerId);
      var status := match e.kind
        case Unknown => Skipped
        case PaymentSucceeded =>
          if i.None? then Processed
          else if s.attempts[i.value].invoice !in s.billing.invoices then ProcessingFailed
          else
            var before := s.billing.invoices[s.attempts[i.value].invoice].status;
            if before == Billing.Paid || (before == Billing.Finalized && d.commits) then Processed else ProcessingFailed
        case PaymentFailed =>
          if i.None? || s.attempts[i.value].number < 2 || SubOf(s, s.attempts[i.value]).Some? then Processed
          else ProcessingFailed
        case _ => Processed;
      && s'.webhooks == s.webhooks[e.id := status]
      && (i.None? || !(e.kind == PaymentSucceeded || e.kind == PaymentFailed) ==> s' == s.(webhooks := s'.webhooks))
  {
    hide Run, FindAttempt, AdvancedSub, RetryDelay;
    RunIsGrounded(actions);
  }

  /** The delivery is a first success event for a FINALIZED invoice of the subscription; the booking commits and the
      advance goes through. */
  predicate PaysFor(s: State, d: Delivery, sub: nat) {
    && d.event.Some? && d.event.value.kind == PaymentSucceeded && d.event.value.id !in s.webhooks
    && d.commits && d.advances && sub in s.subs
    && var i := FindAttempt(s.attempts, d.event.value.providerId);
    && i.Some?
    && var id := s.attempts[i.value].invoice;
    && id in s.billing.invoices && s.billing.invoices[id].status == Billing.Finalized && s.billing.invoices[id].sub == sub
  }

  /** After any run, a delivery moves the period of a subscription exactly if it pays for it: the next period starts where
      the old one ended and ends strictly later. The periods of all other subscriptions stand still. */
  lemma PaymentAdvancesIff(actions: seq<Action>, d: Delivery, sub: nat)
    requires sub in Run(EMPTY, actions).subs
    ensures var s := Run(EMPTY, actions);
      var s' := Process(s, d);
      && s'.subs.Keys == s.subs.Keys
      && var was, now := s.subs[sub], s'.subs[sub];
      && now.interval == was.interval
      && if PaysFor(s, d, sub) then
           now.periodStart == was.periodEnd < now.periodEnd == NextEnd(was.periodEnd, was.interval)
         else now.periodStart == was.periodStart && now.periodEnd == was.periodEnd
  {
    hide Run, FindAttempt, NextEnd;
    RunIsGrounded(actions);
    var s := Run(EMPTY, actions);
    NextEndIsLater(s.subs[sub].periodEnd, s.subs[sub].interval);
  }

  function PaidPeriods(before: seq<Action>, more: seq<Action>, sub: nat): nat {
    if more == [] then 0
    else
      var front, last := more[..|more| - 1], more[|more| - 1];
      PaidPeriods(before, front, sub)
      + if last.Webhook? && PaysFor(Run(EMPTY, before + front), last.delivery, sub) then 1 else 0
  }

  /** From any point of any run on, the period of a subscription has moved along its chain by exactly one link for each
      delivery that pays for it, whatever is repeated, fails or overlaps. */
  lemma {:induction false} EachPaymentAdvancesOnce(before: seq<Action>, more: seq<Action>, sub: nat)
    requires sub in Run(EMPTY, before).subs
    requires forall i | 0 <= i < |more| :: !(more[i].Subscribe? && more[i].sub == sub)
    ensures var row := Run(EMPTY, before).subs[sub];
      var s := Run(EMPTY, before + more);
      && sub in s.subs && s.subs[sub].interval == row.interval
      && s.subs[sub].periodEnd == Boundary(row.periodEnd, row.interval, PaidPeriods(before, more, sub))
  {
    hide Run, Process, PaysFor, NextEnd, CountAttempts, InsertAttempt, Billing.Apply;
    if more == [] {
      assert before + more == before;
    } else {
      var front, last := more[..|more| - 1], more[|more| - 1];
      assert forall i | 0 <= i < |front| :: front[i] == more[i];
      EachPaymentAdvancesOnce(before, front, sub);
      RunPush(before + front, last);
      assert before + more == before + front + [last];
      if last.Webhook? {
        PaymentAdvancesIff(before + front, last.delivery, sub);
      } else if last.CountFor? || last.Insert? || last.ProviderFails? {
        IntentStepsTouchNothingElse(Run(EMPTY, before + front), last);
      }
    }
  }

  lemma RunPush(actions: seq<Action>, a: Action)
    ensures Run(EMPTY, actions + [a]) == Act(Run(EMPTY, actions), a)
  {
    assert (actions + [a])[..|actions|] == actions;
  }

  /** It happens: the invoice is voided while its payment is under way, the provider reports success, and neither this
      nor any later delivery of the event books it. */
  lemma PaidAfterVoidIsNeverBooked() returns (actions: seq<Action>)
    ensures var s := Run(EMPTY, actions);
      && s.billing.invoices.Keys == {0} && s.billing.invoices[0].status == Billing.Void
      && |s.attempts| == 1 && s.attempts[0].status == Succeeded && Billing.Payments(s.billing.ledger, 0) == []
      && s.webhooks == map[7 := ProcessingFailed]
      && forall d: Delivery | d.event.Some? && d.event.value.id == 7 :: Process(s, d) == s
  {
    hide Run, Billing.DueDate, Billing.NextSequence;
    var s;
    actions, s := OneOpenInvoice();
    actions, s := RunThen(actions, s, CountFor(0, 0, 0));
    actions, s := RunThen(actions, s, Insert(0, 5, Pending));
    assert s.attempts == [Attempt(0, 0, 5, Pending, 0, None, None)];
    actions, s := RunThen(actions, s, Lifecycle(Billing.Call.VoidIt(0, 0, true)));
    var d := Delivery(Some(Event(7, PaymentSucceeded, 5)), 0, true, true);
    assert FindAttempt(s.attempts, 5) == Some(0);
    actions, s := RunThen(actions, s, Webhook(d));
    RunKeepsBooks(actions);
    Billing.OnePaymentExactlyWhenPaid(s.billing, 0);
  }

  /** A first failure event: the first attempt gets a retry time a day later, the second one three days later, and
      the third makes the subscription PAST_DUE instead, so the seven-day delay is never used. */
  lemma FailureRetriesTwiceThenSuspends(s: State, d: Delivery)
    requires d.event.Some? && d.event.value.kind == PaymentFailed && d.event.value.id !in s.webhooks
    requires FindAttempt(s.attempts, d.event.value.providerId).Some?
    ensures var i := FindAttempt(s.attempts, d.event.value.providerId).value;
      var a, s' := s.attempts[i], Process(s, d);
      var retry := if a.number == 0 then Some(d.now + DAY_MS)
                   else if a.number == 1 then Some(d.now + 3 * DAY_MS) else a.nextRetryAt;
      && s'.billing == s.billing && s'.attempts == s.attempts[i := a.(status := Failed, nextRetryAt := retry)]
      && s'.subs.Keys == s.subs.Keys
      && forall id | id in s.subs ::
           s'.subs[id] == if 2 <= a.number && SubOf(s, a) == Some(id) then s.subs[id].(pastDue := true) else s.subs[id]
  {
    hide FindAttempt;
  }
}
