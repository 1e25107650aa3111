/** The daily billing cron, interleaved with payment webhooks, other writers and faults.

    Every awaited read or write of the cron is its own step, and so are the payment handler's read
    of a period end and its later write. A step that is not enabled leaves the state as it is. One
    process runs the cron (isProcessing). */
module BillingCron {
  import opened Calendar

  datatype Period = Period(start: int, end: int)

  datatype Status = Trialing | Active | PastDue | Cancelled

  datatype Subscription = Subscription(created: int, interval: Interval, status: Status, period: Period)

  datatype Invoice = Invoice(sub: nat, period: Period, byCron: bool)

  /** A subscription row as the cron read it. It may be stale by the time it is used. */
  datatype Copy = Copy(sub: nat, period: Period, interval: Interval)

  /** `generate` writes the invoice in one call and reads it back in another before it returns. */
  datatype Phase = Generating | Rereading | Finalizing | Advancing

  datatype Cron =
    | Idle
    | Scanning(todo: seq<Copy>, billable: seq<Copy>)
    | Billing(queue: seq<Copy>, phase: Phase)

  /** A payment handler that has read currentPeriodEnd and has not yet advanced from it. */
  datatype Read = Read(sub: nat, end: int)

  datatype State = State(subs: map<nat, Subscription>, invoices: seq<Invoice>, cron: Cron, pending: multiset<Read>)

  datatype Step =
    | TickStart(now: int, order: seq<nat>)                       // findMany, rows in any order
    | Scan                                                       // one existing-invoice query
    | Bill(ok: bool)                                             // the write and the re-read of generate, finalize, or advance
    | TickEnd                                                    // normal end, or a crash at any point
    | PayRead(sub: nat)
    | PayWrite(read: Read)
    | Subscribe(sub: nat, now: int, interval: Interval, trial: bool)
    | SetStatus(sub: nat, status: Status)
    | OtherInvoice(sub: nat, period: Period)                     // prorated or manual invoices

  predicate Due(sub: Subscription, now: int) {
    (sub.status == Active || sub.status == Trialing) && sub.period.end <= now
  }

  predicate HasInvoice(invoices: seq<Invoice>, sub: nat, period: Period) {
    exists inv | inv in invoices :: inv.sub == sub && inv.period == period
  }

  predicate CronBilled(invoices: seq<Invoice>, sub: nat, period: Period) {
    Invoice(sub, period, true) in invoices
  }

  predicate Selects(subs: map<nat, Subscription>, now: int, order: seq<nat>) {
    && (forall i, j | 0 <= i < j < |order| :: order[i] != order[j])
    && (forall id | id in order :: id in subs && Due(subs[id], now))
    && (forall id | id in subs && Due(subs[id], now) :: id in order)
  }

  function Copies(subs: map<nat, Subscription>, order: seq<nat>): (cs: seq<Copy>)
    requires forall id | id in order :: id in subs
  {
    seq(|order|, i requires 0 <= i < |order| => Copy(order[i], subs[order[i]].period, subs[order[i]].interval))
  }

  function Advanced(sub: Subscription, end: int, interval: Interval): Subscription {
    sub.(period := Period(end, NextEnd(end, interval)))
  }

  /** One turn of the filter loop: drop the row if its period has an invoice, else keep it. */
  function ScanNext(s: State): State {
    if !s.cron.Scanning? then s
    else if s.cron.todo == [] then s.(cron := Billing(s.cron.billable, Generating))
    else
      var c, rest := s.cron.todo[0], s.cron.todo[1..];
      if HasInvoice(s.invoices, c.sub, c.period) then s.(cron := Scanning(rest, s.cron.billable))
      else s.(cron := Scanning(rest, s.cron.billable + [c]))
  }

  /** One awaited call of the billing loop. A failure moves on to the next subscription. */
  function BillNext(s: State, ok: bool): State {
    if !s.cron.Billing? || s.cron.queue == [] then s
    else
      var c, rest := s.cron.queue[0], Billing(s.cron.queue[1..], Generating);
      if !ok then s.(cron := rest)
      else if s.cron.phase == Generating then
        s.(invoices := s.invoices + [Invoice(c.sub, c.period, true)], cron := Billing(s.cron.queue, Rereading))
      else if s.cron.phase == Rereading then s.(cron := Billing(s.cron.queue, Finalizing))
      else if s.cron.phase == Finalizing then s.(cron := Billing(s.cron.queue, Advancing))
      else if c.sub in s.subs then
        s.(subs := s.subs[c.sub := Advanced(s.subs[c.sub], c.period.end, c.interval)], cron := rest)
      else s.(cron := rest)
  }

  function Next(s: State, a: Step): State {
    match a
    case TickStart(now, order) =>
      if s.cron.Idle? && Selects(s.subs, now, order) then s.(cron := Scanning(Copies(s.subs, order), [])) else s
    case Scan => ScanNext(s)
    case Bill(ok) => BillNext(s, ok)
    case TickEnd => s.(cron := Idle)
    case PayRead(id) =>
      if id in s.subs then s.(pending := s.pending + multiset{Read(id, s.subs[id].period.end)}) else s
    case PayWrite(r) =>
      if r in s.pending && r.sub in s.subs then
        s.(subs := s.subs[r.sub := Advanced(s.subs[r.sub], r.end, s.subs[r.sub].interval)],
           pending := s.pending - multiset{r})
      else s
    case Subscribe(id, now, interval, trial) =>
      if id in s.subs then s
      else s.(subs := s.subs[id := Subscription(now, interval, if trial then Trialing else Active,
                                                Period(now, NextEnd(now, interval)))])
    case SetStatus(id, status) =>
      if id in s.subs then s.(subs := s.subs[id := s.subs[id].(status := status)]) else s
    case OtherInvoice(id, period) => s.(invoices := s.invoices + [Invoice(id, period, false)])
  }

  function Run(s: State, steps: seq<Step>): State {
    if steps == [] then s else Next(Run(s, steps[..|steps| - 1]), steps[|steps| - 1])
  }

  const EMPTY := State(map[], [], Idle, multiset{})

  // ----- the chain of periods of one subscription -----

  function Link(sub: Subscription, k: nat): Period {
    Period(Boundary(sub.created, sub.interval, k), Boundary(sub.created, sub.interval, k + 1))
  }

  ghost predicate OnChain(sub: Subscription, period: Period) {
    exists k: nat :: period == Link(sub, k)
  }

  predicate Disjoint(p: Period, q: Period) {
    p.end <= q.start || q.end <= p.start
  }

  /** Different links never overlap. */
  lemma LinksDisjoint(sub: Subscription, i: nat, j: nat)
    requires i != j
    ensures Disjoint(Link(sub, i), Link(sub, j)) && Link(sub, i) != Link(sub, j)
  {
    hide Boundary;
    var lo, hi := if i < j then i else j, if i < j then j else i;
    BoundariesIncrease(sub.created, sub.interval, lo, hi);
    if lo + 1 < hi {
      BoundariesIncrease(sub.created, sub.interval, lo + 1, hi);
    }
  }

  // ----- safety over every run -----

  function Held(cron: Cron): seq<Copy> {
    match cron
    case Idle => []
    case Scanning(todo, billable) => billable + todo
    case Billing(queue, _) => queue
  }

  /** The copies that the existing-invoice query let through and that are not billed yet. */
  function Unbilled(cron: Cron): seq<Copy> {
    match cron
    case Idle => []
    case Scanning(_, billable) => billable
    case Billing(queue, phase) => if phase == Generating || queue == [] then queue else queue[1..]
  }

  ghost predicate SubsOk(s: State) {
    && (forall id | id in s.subs :: OnChain(s.subs[id], s.subs[id].period))
    && (forall r | r in s.pending ::
          r.sub in s.subs && exists k: nat :: r.end == Link(s.subs[r.sub], k).end)
  }

  ghost predicate InvoicesOk(s: State) {
    && (forall inv | inv in s.invoices && inv.byCron ::
          inv.sub in s.subs && OnChain(s.subs[inv.sub], inv.period))
    && (forall i, j | 0 <= i < j < |s.invoices| && s.invoices[i].byCron :: s.invoices[i] != s.invoices[j])
  }

  ghost predicate HeldOk(s: State) {
    && (forall c | c in Held(s.cron) :: c.sub in s.subs && OnChain(s.subs[c.sub], c.period)
                                        && c.interval == s.subs[c.sub].interval)
    && DistinctSubs(Held(s.cron))
  }

  predicate DistinctSubs(cs: seq<Copy>) {
    forall i, j | 0 <= i < j < |cs| :: cs[i].sub != cs[j].sub
  }

  predicate UnbilledOk(s: State) {
    forall c | c in Unbilled(s.cron) :: !CronBilled(s.invoices, c.sub, c.period)
  }

  ghost predicate Inv(s: State) {
    SubsOk(s) && InvoicesOk(s) && HeldOk(s) && UnbilledOk(s)
  }

  /** Advancing from the end of a link gives the next link. */
  lemma AdvancedIsLink(sub: Subscription, k: nat)
    ensures Advanced(sub, Link(sub, k).end, sub.interval).period == Link(sub, k + 1)
  {
    hide NextEnd;
  }

  lemma NextKeepsSubs(s: State, a: Step)
    requires Inv(s)
    ensures SubsOk(Next(s, a))
  {
    hide NextEnd, Boundary, OnChain, Advanced;
    var s' := Next(s, a);
    forall id | id in s'.subs ensures OnChain(s'.subs[id], s'.subs[id].period) {
      PeriodStaysOnChain(s, a, id);
    }
    forall r | r in s'.pending ensures r.sub in s'.subs && exists k: nat :: r.end == Link(s'.subs[r.sub], k).end {
      PendingStaysOnChain(s, a, r);
    }
  }

  lemma RowsKeepTheirChain(s: State, a: Step, id: nat)
    requires id in s.subs
    ensures id in Next(s, a).subs
    ensures Next(s, a).subs[id].created == s.subs[id].created
    ensures Next(s, a).subs[id].interval == s.subs[id].interval
  {
    hide NextEnd;
  }

  /** A period only ever moves to the link after some link: the end that was read is a link's end. */
  lemma BillMovesToALink(s: State, ok: bool, id: nat)
    requires Inv(s) && id in s.subs
    ensures id in BillNext(s, ok).subs && OnChain(s.subs[id], BillNext(s, ok).subs[id].period)
  {
    hide NextEnd, Boundary;
    if BillNext(s, ok).subs[id].period != s.subs[id].period {
      var k: nat :| s.cron.queue[0].period == Link(s.subs[id], k);
      AdvancedIsLink(s.subs[id], k);
    }
  }

  lemma PeriodStaysOnChain(s: State, a: Step, id: nat)
    requires Inv(s) && id in Next(s, a).subs
    ensures OnChain(Next(s, a).subs[id], Next(s, a).subs[id].period)
  {
    hide NextEnd, Boundary, BillNext, ScanNext, Selects;
    var sub := Next(s, a).subs[id];
    if id !in s.subs {
      if a.Bill? { BillKeepsRows(s, a.ok); } else if a.Scan? { ScanKeepsRows(s); }
      FirstLink(sub);
    } else {
      RowsKeepTheirChain(s, a, id);
      assert OnChain(s.subs[id], sub.period) by {
        if a.Bill? {
          BillMovesToALink(s, a.ok, id);
        } else if a.Scan? {
          ScanKeepsRows(s);
        } else if a.PayWrite? && sub.period != s.subs[id].period {
          var k: nat :| a.read.end == Link(s.subs[id], k).end;
          AdvancedIsLink(s.subs[id], k);
        }
      }
      var k: nat :| sub.period == Link(s.subs[id], k);
      assert Link(sub, k) == Link(s.subs[id], k);
    }
  }

  lemma ScanKeepsRows(s: State)
    ensures ScanNext(s).subs == s.subs && ScanNext(s).invoices == s.invoices
  {
  }

  lemma BillKeepsRows(s: State, ok: bool)
    ensures BillNext(s, ok).subs.Keys == s.subs.Keys
  {
  }

  lemma PendingStaysOnChain(s: State, a: Step, r: Read)
    requires Inv(s) && r in Next(s, a).pending
    ensures r.sub in Next(s, a).subs && exists k: nat :: r.end == Link(Next(s, a).subs[r.sub], k).end
  {
    hide NextEnd, Boundary, Advanced;
    RowsKeepTheirChain(s, a, r.sub);
    var k: nat :| if r in s.pending then r.end == Link(s.subs[r.sub], k).end
                  else s.subs[r.sub].period == Link(s.subs[r.sub], k);
    assert Link(Next(s, a).subs[r.sub], k) == Link(s.subs[r.sub], k);
  }

  lemma FirstLink(sub: Subscription)
    requires sub.period == Period(sub.created, NextEnd(sub.created, sub.interval))
    ensures OnChain(sub, sub.period) && sub.period == Link(sub, 0)
  {
    hide NextEnd;
    assert Boundary(sub.created, sub.interval, 1) == NextEnd(Boundary(sub.created, sub.interval, 0), sub.interval);
    assert sub.period == Link(sub, 0);
  }

  lemma ChainSurvives(s: State, a: Step, id: nat, period: Period)
    requires Inv(s) && id in s.subs && OnChain(s.subs[id], period)
    ensures id in Next(s, a).subs && OnChain(Next(s, a).subs[id], period)
    ensures Next(s, a).subs[id].interval == s.subs[id].interval
  {
    hide Next, Boundary, Inv;
    RowsKeepTheirChain(s, a, id);
    var k: nat :| period == Link(s.subs[id], k);
    assert Link(Next(s, a).subs[id], k) == Link(s.subs[id], k);
  }

  lemma NextKeepsInvoices(s: State, a: Step)
    requires Inv(s)
    ensures InvoicesOk(Next(s, a))
  {
    hide NextEnd, OnChain, SubsOk, Selects, Copies, Advanced, HasInvoice;
    var s' := Next(s, a);
    forall inv | inv in s'.invoices && inv.byCron
      ensures inv.sub in s'.subs && OnChain(s'.subs[inv.sub], inv.period)
    {
      ChainSurvives(s, a, inv.sub, inv.period);
    }
  }

  lemma ScanKeepsDistinct(s: State)
    requires DistinctSubs(Held(s.cron))
    ensures DistinctSubs(Held(ScanNext(s).cron))
  {
    hide HasInvoice;
    if s.cron.Scanning? && s.cron.todo != [] {
      var b, held := s.cron.billable, Held(s.cron);
      assert b + [s.cron.todo[0]] + s.cron.todo[1..] == held;
      assert b + s.cron.todo[1..] == held[..|b|] + held[|b| + 1..];
    } else if s.cron.Scanning? {
      assert s.cron.billable + [] == s.cron.billable;
    }
  }

  lemma BillKeepsDistinct(s: State, ok: bool)
    requires DistinctSubs(Held(s.cron))
    ensures DistinctSubs(Held(BillNext(s, ok).cron))
  {
    hide Advanced;
  }

  lemma StartHolds(s: State, now: int, order: seq<nat>)
    requires s.cron.Idle? && Selects(s.subs, now, order)
    ensures var cs := Copies(s.subs, order);
      && Held(Next(s, TickStart(now, order)).cron) == cs && DistinctSubs(cs)
      && forall c | c in cs :: c.sub in s.subs && c.period == s.subs[c.sub].period && c.interval == s.subs[c.sub].interval
  {
    assert [] + Copies(s.subs, order) == Copies(s.subs, order);
  }

  lemma HeldStaysDistinct(s: State, a: Step)
    requires DistinctSubs(Held(s.cron))
    ensures DistinctSubs(Held(Next(s, a).cron))
  {
    hide NextEnd, Advanced, ScanNext, BillNext, Selects, Copies;
    if a.Scan? {
      ScanKeepsDistinct(s);
    } else if a.Bill? {
      BillKeepsDistinct(s, a.ok);
    } else if a.TickStart? && s.cron.Idle? && Selects(s.subs, a.now, a.order) {
      StartHolds(s, a.now, a.order);
    }
  }

  lemma NextKeepsHeld(s: State, a: Step)
    requires Inv(s)
    ensures HeldOk(Next(s, a))
  {
    hide NextEnd, OnChain;
    var s' := Next(s, a);
    HeldStaysDistinct(s, a);
    forall c | c in Held(s'.cron)
      ensures c.sub in s'.subs && OnChain(s'.subs[c.sub], c.period) && c.interval == s'.subs[c.sub].interval
    {
      assert c in Held(s.cron) || (a.TickStart? && c.period == s.subs[c.sub].period);
      ChainSurvives(s, a, c.sub, c.period);
    }
  }

  lemma BillKeepsUnbilled(s: State, ok: bool)
    requires DistinctSubs(Held(s.cron)) && UnbilledOk(s)
    ensures UnbilledOk(BillNext(s, ok))
  {
    hide Advanced;
    if s.cron.Billing? && s.cron.queue != [] {
      assert forall c | c in s.cron.queue[1..] :: c.sub != s.cron.queue[0].sub && c in s.cron.queue;
    }
  }

  lemma ScanKeepsUnbilled(s: State)
    requires UnbilledOk(s)
    ensures UnbilledOk(ScanNext(s))
  {
  }

  /** The cron never holds a copy for billing whose period it has already billed. */
  lemma NextKeepsUnbilled(s: State, a: Step)
    requires Inv(s)
    ensures UnbilledOk(Next(s, a))
  {
    hide NextEnd, OnChain, ScanNext, BillNext, Advanced;
    if a.Scan? {
      ScanKeepsUnbilled(s);
    } else if a.Bill? {
      BillKeepsUnbilled(s, a.ok);
    }
  }

  lemma {:induction false} RunKeepsInv(steps: seq<Step>)
    ensures Inv(Run(EMPTY, steps))
  {
    hide Next, SubsOk, InvoicesOk, HeldOk, UnbilledOk;
    if steps == [] {
      EmptyIsOk();
    } else {
      var s := Run(EMPTY, steps[..|steps| - 1]);
      RunKeepsInv(steps[..|steps| - 1]);
      NextKeepsSubs(s, steps[|steps| - 1]);
      NextKeepsInvoices(s, steps[|steps| - 1]);
      NextKeepsHeld(s, steps[|steps| - 1]);
      NextKeepsUnbilled(s, steps[|steps| - 1]);
    }
  }

  lemma EmptyIsOk() ensures Inv(EMPTY) {}

  /** Over any interleaving of ticks, faults, crashes, payment advances, cancellations and other
      invoices, the full-period invoices the cron writes for one subscription are links of its
      chain of periods, and no two of them overlap. */
  lemma CronInvoicesNeverOverlap(steps: seq<Step>, i: nat, j: nat)
    requires var invoices := Run(EMPTY, steps).invoices;
      i < j < |invoices| && invoices[i].byCron && invoices[j].byCron && invoices[i].sub == invoices[j].sub
    ensures var s := Run(EMPTY, steps);
      s.invoices[i].sub in s.subs &&
      var sub := s.subs[s.invoices[i].sub];
      && OnChain(sub, s.invoices[i].period) && OnChain(sub, s.invoices[j].period)
      && Disjoint(s.invoices[i].period, s.invoices[j].period)
  {
    hide Next, Boundary;
    RunKeepsInv(steps);
    var s := Run(EMPTY, steps);
    var p, q := s.invoices[i], s.invoices[j];
    assert p in s.invoices && q in s.invoices;
    var m: nat :| p.period == Link(s.subs[p.sub], m);
    var n: nat :| q.period == Link(s.subs[p.sub], n);
    LinksDisjoint(s.subs[p.sub], m, n);
  }

  // ----- no gaps while only the cron advances -----

  predicate OnlyCronAdvances(steps: seq<Step>) {
    forall a | a in steps :: !a.PayWrite?
  }

  /** The links billed by the cron are the links before the current one, and perhaps the current one. */
  ghost predicate BilledUpTo(s: State, id: nat, k: nat)
    requires id in s.subs
  {
    && s.subs[id].period == Link(s.subs[id], k)
    && (forall j: nat | j < k :: CronBilled(s.invoices, id, Link(s.subs[id], j)))
    && (forall inv | inv in s.invoices && inv.byCron && inv.sub == id ::
          exists j: nat :: j <= k && inv.period == Link(s.subs[id], j))
  }

  predicate CopiesCurrent(s: State) {
    && (forall c | c in Held(s.cron) :: c.sub in s.subs && c.period == s.subs[c.sub].period
                                        && c.interval == s.subs[c.sub].interval)
    && DistinctSubs(Held(s.cron))
    && (s.cron.Billing? && s.cron.queue != [] && s.cron.phase != Generating ==>
          CronBilled(s.invoices, s.cron.queue[0].sub, s.cron.queue[0].period))
  }

  ghost predicate NoGapInv(s: State) {
    && CopiesCurrent(s)
    && (forall inv | inv in s.invoices && inv.byCron :: inv.sub in s.subs)
    && (forall id | id in s.subs :: exists k: nat :: BilledUpTo(s, id, k))
  }

  lemma BillKeepsCopiesCurrent(s: State, ok: bool)
    requires CopiesCurrent(s)
    ensures CopiesCurrent(BillNext(s, ok))
  {
    hide NextEnd, Advanced, DistinctSubs;
    BillKeepsDistinct(s, ok);
    if s.cron.Billing? && s.cron.queue != [] {
      OthersDiffer(s.cron.queue);
    }
  }

  lemma OthersDiffer(queue: seq<Copy>)
    requires queue != [] && DistinctSubs(queue)
    ensures forall c | c in queue[1..] :: c.sub != queue[0].sub && c in queue
  {
  }

  lemma ScanKeepsCopiesCurrent(s: State)
    requires CopiesCurrent(s)
    ensures CopiesCurrent(ScanNext(s))
  {
    hide HasInvoice;
    ScanKeepsDistinct(s);
    forall c | c in Held(ScanNext(s).cron) ensures c in Held(s.cron) {}
  }

  lemma NextKeepsCopiesCurrent(s: State, a: Step)
    requires CopiesCurrent(s) && !a.PayWrite?
    ensures CopiesCurrent(Next(s, a))
  {
    hide NextEnd, ScanNext, BillNext, Selects, Copies;
    if a.Scan? {
      ScanKeepsCopiesCurrent(s);
    } else if a.Bill? {
      BillKeepsCopiesCurrent(s, a.ok);
    } else if a.TickStart? && s.cron.Idle? && Selects(s.subs, a.now, a.order) {
      StartHolds(s, a.now, a.order);
    }
  }

  lemma NextKeepsBilledUpTo(s: State, a: Step, id: nat)
    requires NoGapInv(s) && !a.PayWrite? && id in Next(s, a).subs
    ensures exists k: nat :: BilledUpTo(Next(s, a), id, k)
  {
    hide NextEnd, Boundary, Advanced, HasInvoice, Selects;
    var s' := Next(s, a);
    if id !in s.subs {
      FirstLink(s'.subs[id]);
      assert BilledUpTo(s', id, 0);
    } else {
      RowsKeepTheirChain(s, a, id);
      var k: nat :| BilledUpTo(s, id, k);
      forall j: nat ensures Link(s'.subs[id], j) == Link(s.subs[id], j) {}
      if s'.subs[id].period == s.subs[id].period {
        assert BilledUpTo(s', id, k);
      } else {
        AdvancedIsLink(s.subs[id], k);
        assert BilledUpTo(s', id, k + 1);
      }
    }
  }

  lemma {:induction false} RunKeepsNoGap(steps: seq<Step>)
    requires OnlyCronAdvances(steps)
    ensures NoGapInv(Run(EMPTY, steps))
  {
    hide Next, CopiesCurrent, BilledUpTo;
    if steps == [] {
      EmptyIsCurrent();
    } else {
      var s, a := Run(EMPTY, steps[..|steps| - 1]), steps[|steps| - 1];
      RunKeepsNoGap(steps[..|steps| - 1]);
      NextKeepsCopiesCurrent(s, a);
      forall id | id in Next(s, a).subs ensures exists k: nat :: BilledUpTo(Next(s, a), id, k) {
        NextKeepsBilledUpTo(s, a, id);
      }
      RunKeepsInv(steps);
      InvoicesKnown(Next(s, a));
    }
  }

  lemma EmptyIsCurrent()
    ensures NoGapInv(EMPTY)
  {
  }

  lemma InvoicesKnown(s: State)
    requires Inv(s)
    ensures forall inv | inv in s.invoices && inv.byCron :: inv.sub in s.subs
  {
  }

  /** As long as only the cron advances subscriptions, the links it has billed are the first m links
      of the chain, whatever faults and crashes happen: the billed time has no gap and no overlap,
      and at most the current period is billed ahead of the advance. */
  lemma CronBillsAnInitialSegment(steps: seq<Step>, id: nat) returns (k: nat, m: nat)
    requires OnlyCronAdvances(steps) && id in Run(EMPTY, steps).subs
    ensures var s := Run(EMPTY, steps);
      && s.subs[id].period == Link(s.subs[id], k) && k <= m <= k + 1
      && forall j: nat :: CronBilled(s.invoices, id, Link(s.subs[id], j)) <==> j < m
  {
    hide Next, Boundary, CopiesCurrent;
    RunKeepsNoGap(steps);
    var s := Run(EMPTY, steps);
    k :| BilledUpTo(s, id, k);
    m := if CronBilled(s.invoices, id, Link(s.subs[id], k)) then k + 1 else k;
    forall j: nat | CronBilled(s.invoices, id, Link(s.subs[id], j)) ensures j <= k {
      var inv := Invoice(id, Link(s.subs[id], j), true);
      var j': nat :| j' <= k && inv.period == Link(s.subs[id], j');
      if j != j' {
        LinksDisjoint(s.subs[id], j, j');
      }
    }
  }

  // ----- concrete runs -----

  lemma RunThen(s: State, steps: seq<Step>, a: Step)
    ensures Run(s, steps + [a]) == Next(Run(s, steps), a)
  {
    assert (steps + [a])[..|steps|] == steps;
  }

  lemma OneScan(created: int) returns (steps: seq<Step>, s: State, due: Subscription)
    ensures due == Subscription(created, Monthly, Active, Link(due, 0))
    ensures s == Run(EMPTY, steps)
    ensures s == State(map[0 := due], [], Billing([Copy(0, due.period, Monthly)], Generating), multiset{})
  {
    hide Run, Boundary, NextEnd;
    due := Subscription(created, Monthly, Active, Period(created, NextEnd(created, Monthly)));
    FirstLink(due);
    var c := Copy(0, due.period, Monthly);
    steps, s := [], EMPTY;
    RunNothing(EMPTY);
    steps, s := Extend(steps, s, Subscribe(0, created, Monthly, false));
    steps, s := Extend(steps, s, TickStart(due.period.end, [0]));
    assert s.cron == Scanning([c], []);
    steps, s := Extend(steps, s, Scan);
    assert s.cron == Scanning([], [c]);
    steps, s := Extend(steps, s, Scan);
  }

  lemma RunNothing(s: State)
    ensures Run(s, []) == s
  {
  }

  lemma Extend(steps: seq<Step>, s: State, a: Step) returns (longer: seq<Step>, s': State)
    requires s == Run(EMPTY, steps)
    ensures longer == steps + [a] && s' == Next(s, a) && s' == Run(EMPTY, longer)
  {
    hide Next;
    RunThen(EMPTY, steps, a);
    longer, s' := steps + [a], Next(s, a);
  }

  // ----- retries after a failure -----

  /** The subscription's current period has an invoice and the cron holds no copy of it to bill. */
  predicate Blocked(s: State, id: nat) {
    && id in s.subs
    && HasInvoice(s.invoices, id, s.subs[id].period)
    && (s.cron.Scanning? ==> forall c | c in s.cron.todo && c.sub == id :: c.period == s.subs[id].period)
    && (s.cron.Scanning? ==> forall c | c in s.cron.billable :: c.sub != id)
    && (s.cron.Billing? ==> forall c | c in s.cron.queue :: c.sub != id)
  }

  lemma NextKeepsBlocked(s: State, a: Step, id: nat)
    requires Blocked(s, id) && !a.PayWrite?
    ensures Blocked(Next(s, a), id) && Next(s, a).subs[id].period == s.subs[id].period
  {
    hide NextEnd;
    var inv :| inv in s.invoices && inv.sub == id && inv.period == s.subs[id].period;
    assert inv in Next(s, a).invoices;
  }

  /** The cron never bills or advances a blocked subscription again: only a payment can free it. */
  lemma {:induction false} BlockedForever(s: State, steps: seq<Step>, id: nat)
    requires Blocked(s, id) && OnlyCronAdvances(steps)
    ensures Blocked(Run(s, steps), id) && Run(s, steps).subs[id].period == s.subs[id].period
  {
    hide Next, Blocked;
    if steps != [] {
      BlockedForever(s, steps[..|steps| - 1], id);
      NextKeepsBlocked(Run(s, steps[..|steps| - 1]), steps[|steps| - 1], id);
    }
  }

  /** A failure after the invoice was written, of its re-read, of finalize or of advance, is final: whatever ticks follow,
      the period of the subscription stands still until a payment moves it. */
  lemma {:induction false} FailureAfterTheInvoiceIsFinal(s: State, steps: seq<Step>)
    requires CopiesCurrent(s) && s.cron.Billing? && s.cron.queue != [] && s.cron.phase != Generating
    requires OnlyCronAdvances(steps)
    ensures var id, s' := s.cron.queue[0].sub, Run(Next(s, Bill(false)), steps);
      id in s.subs && id in s'.subs && s'.subs[id].period == s.subs[id].period && Blocked(s', id)
  {
    hide Run, NextEnd;
    var c := s.cron.queue[0];
    assert forall d | d in s.cron.queue[1..] :: d.sub != c.sub;
    BlockedForever(Next(s, Bill(false)), steps, c.sub);
  }

  /** The cron has written the invoice of the only subscription, which is due, and reaches a later call. */
  lemma Reach(created: int, phase: Phase) returns (steps: seq<Step>, s: State, due: Subscription)
    requires phase != Generating
    ensures due.status == Active && due.interval == Monthly
    ensures s == Run(EMPTY, steps) == State(map[0 := due], [Invoice(0, due.period, true)],
                                            Billing([Copy(0, due.period, Monthly)], phase), multiset{})
  {
    hide Run, Boundary, NextEnd;
    steps, s, due := OneScan(created);
    steps, s := Extend(steps, s, Bill(true));
    if phase != Rereading {
      steps, s := Extend(steps, s, Bill(true));
      if phase != Finalizing {
        steps, s := Extend(steps, s, Bill(true));
      }
    }
  }

  /** It happens in each of the three calls that follow the write: the next tick does not select the subscription. */
  lemma LateFailureIsSkipped(created: int, failing: Phase) returns (steps: seq<Step>, again: seq<Step>)
    requires failing != Generating
    ensures var s, s' := Run(EMPTY, steps), Run(EMPTY, steps + again);
      && s.cron == Idle && Blocked(s, 0) && Due(s.subs[0], s.subs[0].period.end)
      && (exists before :: Run(EMPTY, before).cron == Billing([Copy(0, s.subs[0].period, Monthly)], failing)
                           && steps == before + [Bill(false), TickEnd])
      && again == [TickStart(s.subs[0].period.end, [0]), Scan, Scan] && s' == s.(cron := Billing([], Generating))
  {
    hide Run, Boundary, NextEnd;
    var before, s, due := Reach(created, failing);
    steps := before;
    steps, s := Extend(steps, s, Bill(false));
    steps, s := Extend(steps, s, TickEnd);
    assert steps == before + [Bill(false), TickEnd];
    again := TickSkips(steps, s, due);
  }

  /** The only subscription is due and its period has an invoice: a tick selects nothing. */
  lemma TickSkips(steps: seq<Step>, s: State, due: Subscription) returns (again: seq<Step>)
    requires s == Run(EMPTY, steps) == State(map[0 := due], [Invoice(0, due.period, true)], Idle, multiset{})
    requires due.status == Active && due.interval == Monthly
    ensures again == [TickStart(due.period.end, [0]), Scan, Scan]
    ensures Run(EMPTY, steps + again) == s.(cron := Billing([], Generating))
  {
    hide Run;
    assert s.invoices[0] in s.invoices;
    again := [TickStart(due.period.end, [0]), Scan, Scan];
    var later, s' := Extend(steps, s, again[0]);
    assert s'.cron == Scanning([Copy(0, due.period, Monthly)], []);
    later, s' := Extend(later, s', again[1]);
    assert s'.cron == Scanning([], []);
    later, s' := Extend(later, s', again[2]);
    assert later == steps + again;
  }

  // ----- the services as they are written -----

  lemma StartLoads(s: State, now: int, order: seq<nat>)
    requires s.cron.Idle? && Selects(s.subs, now, order)
    ensures Next(s, TickStart(now, order)) == s.(cron := Scanning(Copies(s.subs, order), []))
  {
    hide Selects;
  }

  /** One copy of each due subscription whose current period has no invoice, and of no other. */
  predicate SelectedFor(subs: map<nat, Subscription>, invoices: seq<Invoice>, now: int, billable: seq<Copy>) {
    && DistinctSubs(billable)
    && (forall c | c in billable :: c.sub in subs && c == Copy(c.sub, subs[c.sub].period, subs[c.sub].interval))
    && (forall id | id in subs ::
          (exists c | c in billable :: c.sub == id) <==> Due(subs[id], now) && !HasInvoice(invoices, id, subs[id].period))
  }

  lemma SelectedRows(subs: map<nat, Subscription>, invoices: seq<Invoice>, now: int, order: seq<nat>, billable: seq<Copy>)
    requires Selects(subs, now, order) && DistinctSubs(billable)
    requires forall c | c in billable :: c in Copies(subs, order) && !HasInvoice(invoices, c.sub, c.period)
    requires forall c | c in Copies(subs, order) :: c in billable || HasInvoice(invoices, c.sub, c.period)
    ensures SelectedFor(subs, invoices, now, billable)
  {
    hide HasInvoice, DistinctSubs;
    forall id | id in subs && Due(subs[id], now) && !HasInvoice(invoices, id, subs[id].period)
      ensures exists c | c in billable :: c.sub == id
    {
      var i :| 0 <= i < |order| && order[i] == id;
      assert Copies(subs, order)[i] in billable;
    }
  }

  /** The rows after one subscription: `fails` names the call that throws for it, if any. */
  function BillRow(subs: map<nat, Subscription>, invoices: seq<Invoice>, c: Copy, fails: map<nat, Phase>)
    : (map<nat, Subscription>, seq<Invoice>)
    requires c.sub in subs
  {
    (if c.sub in fails then subs else subs[c.sub := Advanced(subs[c.sub], c.period.end, c.interval)],
     if c.sub in fails && fails[c.sub] == Generating then invoices else invoices + [Invoice(c.sub, c.period, true)])
  }

  function BillRows(subs: map<nat, Subscription>, invoices: seq<Invoice>, cs: seq<Copy>, fails: map<nat, Phase>)
    : (r: (map<nat, Subscription>, seq<Invoice>))
    requires forall c | c in cs :: c.sub in subs
    ensures r.0.Keys == subs.Keys
  {
    if cs == [] then (subs, invoices)
    else
      var (m, written) := BillRows(subs, invoices, cs[..|cs| - 1], fails);
      BillRow(m, written, cs[|cs| - 1], fails)
  }

  function Failures(cs: seq<Copy>, fails: map<nat, Phase>): (n: nat)
    ensures n <= |cs|
  {
    if cs == [] then 0 else Failures(cs[..|cs| - 1], fails) + if cs[|cs| - 1].sub in fails then 1 else 0
  }

  /** One failure does not block others: a selected subscription is advanced exactly when no call fails for it,
      and gets its invoice exactly when the write of generate does not fail; the rest are left alone. */
  lemma {:induction false} OneFailureBlocksNoOther(subs: map<nat, Subscription>, invoices: seq<Invoice>, cs: seq<Copy>,
                                                   fails: map<nat, Phase>, id: nat)
    requires DistinctSubs(cs) && id in subs && forall c | c in cs :: c.sub in subs
    ensures var (m, written) := BillRows(subs, invoices, cs, fails);
            && (forall c | c in cs && c.sub == id ::
                  && m[id] == (if id in fails then subs[id] else Advanced(subs[id], c.period.end, c.interval))
                  && (CronBilled(written, id, c.period)
                      <==> CronBilled(invoices, id, c.period) || id !in fails || fails[id] != Generating))
            && ((forall c | c in cs :: c.sub != id) ==>
                  m[id] == subs[id] && forall p :: CronBilled(written, id, p) <==> CronBilled(invoices, id, p))
  {
    hide Advanced;
    if cs != [] {
      var front, last := cs[..|cs| - 1], cs[|cs| - 1];
      assert forall i | 0 <= i < |front| :: front[i] == cs[i];
      OneFailureBlocksNoOther(subs, invoices, front, fails, id);
    }
  }

  /** A tick adds the invoices of the selected subscriptions for which the write does not fail, and no other. */
  lemma {:induction false} TickInvoices(subs: map<nat, Subscription>, invoices: seq<Invoice>, cs: seq<Copy>,
                                        fails: map<nat, Phase>, id: nat, period: Period)
    requires forall c | c in cs :: c.sub in subs
    ensures HasInvoice(BillRows(subs, invoices, cs, fails).1, id, period)
       <==> HasInvoice(invoices, id, period)
            || ((exists c | c in cs :: c.sub == id && c.period == period) && !(id in fails && fails[id] == Generating))
  {
    hide Advanced;
    if cs != [] {
      var front, last := cs[..|cs| - 1], cs[|cs| - 1];
      TickInvoices(subs, invoices, front, fails, id, period);
      assert forall c :: c in cs <==> c in front || c == last;
      HasInvoicePush(BillRows(subs, invoices, front, fails).1, Invoice(last.sub, last.period, true), id, period);
    }
  }

  lemma HasInvoicePush(invoices: seq<Invoice>, inv: Invoice, id: nat, period: Period)
    ensures HasInvoice(invoices + [inv], id, period)
       <==> HasInvoice(invoices, id, period) || (inv.sub == id && inv.period == period)
  {
    if inv.sub == id && inv.period == period {
      assert inv in invoices + [inv];
    }
  }

  /** A tick whose calls all succeed moves on exactly the ACTIVE and TRIALING subscriptions whose period is over and has no
      invoice of any kind, and bills that period; with or without failures nobody else is touched. */
  lemma TickBillsExactlyDue(subs: map<nat, Subscription>, invoices: seq<Invoice>, now: int, cs: seq<Copy>,
                            fails: map<nat, Phase>, id: nat)
    requires SelectedFor(subs, invoices, now, cs) && id in subs && forall c | c in cs :: c.sub in subs
    ensures var (m, written) := BillRows(subs, invoices, cs, fails);
      var was := subs[id];
      var due := (was.status == Active || was.status == Trialing) && was.period.end <= now
                 && forall inv | inv in invoices :: inv.sub != id || inv.period != was.period;
      && (m[id] == if due && id !in fails then was.(period := Period(was.period.end, NextEnd(was.period.end, was.interval)))
                   else was)
      && (due && id !in fails ==> CronBilled(written, id, was.period))
      && (!due ==> forall p :: CronBilled(written, id, p) <==> CronBilled(invoices, id, p))
  {
    hide BillRows, NextEnd;
    OneFailureBlocksNoOther(subs, invoices, cs, fails, id);
    if c :| c in cs && c.sub == id {
      assert c == Copy(id, subs[id].period, subs[id].interval);
    }
  }

  /** A new subscription, with or without a trial, falls due exactly when its first period is over. */
  lemma NewSubscriptionFallsDue(s: State, id: nat, created: int, interval: Interval, trial: bool, now: int)
    requires id !in s.subs
    ensures var subs := Next(s, Subscribe(id, created, interval, trial)).subs;
      && id in subs && subs[id].period == Link(subs[id], 0)
      && (Due(subs[id], now) <==> NextEnd(created, interval) <= now)
  {
    hide NextEnd, Boundary;
    FirstLink(Next(s, Subscribe(id, created, interval, trial)).subs[id]);
  }

  /** "Failed subscriptions are retried on the next cron tick" holds exactly when the failure came before the transaction
      of generate committed: then the next tick selects the subscription again. After a failure of the re-read that
      generate ends with, of finalize or of advance it does not, although the period is still expired. */
  lemma FailedBillingIsRetried(subs: map<nat, Subscription>, invoices: seq<Invoice>, now: int, cs: seq<Copy>,
                               fails: map<nat, Phase>, id: nat, later: int, again: seq<Copy>)
    requires SelectedFor(subs, invoices, now, cs) && id in fails && exists c | c in cs :: c.sub == id
    requires now <= later
    requires var (m, written) := BillRows(subs, invoices, cs, fails); SelectedFor(m, written, later, again)
    ensures (exists c | c in again :: c.sub == id) <==> fails[id] == Generating
  {
    hide BillRows, HasInvoice, Advanced;
    var c :| c in cs && c.sub == id;
    OneFailureBlocksNoOther(subs, invoices, cs, fails, id);
    TickInvoices(subs, invoices, cs, fails, id, c.period);
    assert Due(subs[id], now) && !HasInvoice(invoices, id, c.period);
    assert BillRows(subs, invoices, cs, fails).0[id] == subs[id];
  }

  /** The rows the billing services read and write, and the cron's overlap guard. */
  class BillingService {
    var subs: map<nat, Subscription>
    var invoices: seq<Invoice>
    var isProcessing: bool

    ghost function Snapshot(cron: Cron): State
      reads this
    {
      State(subs, invoices, cron, multiset{})
    }

    constructor ()
      ensures Snapshot(Idle) == EMPTY && !isProcessing
    {
      subs, invoices, isProcessing := map[], [], false;
    }

    method AdvancePeriod(sub: nat, currentPeriodEnd: int, interval: Interval)
      requires sub in subs
      modifies this`subs
      ensures subs == old(subs)[sub := old(subs[sub]).(period := Period(currentPeriodEnd, NextEnd(currentPeriodEnd, interval)))]
    {
      var nextPeriodStart := currentPeriodEnd;
      var nextPeriodEnd := NextEnd(currentPeriodEnd, interval);
      subs := subs[sub := subs[sub].(period := Period(nextPeriodStart, nextPeriodEnd))];
    }

    /** The due subscriptions, in the order the database returns them. */
    method FindDue(now: int) returns (order: seq<nat>)
      ensures Selects(subs, now, order)
    {
      order := [];
      var rest := subs.Keys;
      while rest != {}
        invariant rest <= subs.Keys
        invariant forall id | id in order :: id in subs && Due(subs[id], now) && id !in rest
        invariant forall i, j | 0 <= i < j < |order| :: order[i] != order[j]
        invariant forall id | id in subs && Due(subs[id], now) :: id in order || id in rest
        decreases rest
      {
        var id :| id in rest;
        rest := rest - {id};
        if Due(subs[id], now) {
          order := order + [id];
        }
      }
    }

    /** The loop over the due rows is the run of the Scan steps, and it selects exactly the due
        subscriptions whose current period has no invoice. */
    method FindBillableSubscriptions(now: int) returns (billable: seq<Copy>, ghost steps: seq<Step>)
      ensures Run(Snapshot(Idle), steps) == Snapshot(Billing(billable, Generating))
      ensures OnlyCronAdvances(steps)
      ensures SelectedFor(subs, invoices, now, billable)
    {
      hide Next, Due, HasInvoice, Run;
      var order := FindDue(now);
      var rows := Copies(subs, order);
      ghost var start := Snapshot(Idle);
      steps, billable := [TickStart(now, order)], [];
      RunThen(start, [], steps[0]);
      RunNothing(start);
      assert [] + steps == steps;
      StartLoads(start, now, order);
      for i := 0 to |rows|
        invariant Run(start, steps) == Snapshot(Scanning(rows[i..], billable))
        invariant OnlyCronAdvances(steps)
        invariant forall c | c in billable :: c in rows[..i] && !HasInvoice(invoices, c.sub, c.period)
        invariant forall c | c in rows[..i] :: c in billable || HasInvoice(invoices, c.sub, c.period)
        invariant DistinctSubs(billable) && forall k | 0 <= k < |billable| :: billable[k].sub in order[..i]
      {
        RunThen(start, steps, Scan);
        ScanTakesHead(Snapshot(Scanning(rows[i..], billable)));
        steps := steps + [Scan];
        if HasInvoice(invoices, rows[i].sub, rows[i].period) {
          continue;
        }
        billable := billable + [rows[i]];
      }
      RunThen(start, steps, Scan);
      ScanTakesHead(Snapshot(Scanning(rows[|rows|..], billable)));
      steps := steps + [Scan];
      SelectedRows(subs, invoices, now, order, billable);
    }

    /** A tick is a run of cron steps over the selected subscriptions, each billed as far as its calls succeed
        and counted as generated or as failed. */
    method HandleBillingCycle(now: int, queryFails: bool, fails: map<nat, Phase>)
      returns (generated: nat, failed: nat, ghost billable: seq<Copy>, ghost steps: seq<Step>)
      modifies this
      ensures isProcessing == old(isProcessing)
      ensures old(isProcessing) || queryFails ==>
                Snapshot(Idle) == old(Snapshot(Idle)) && generated == failed == 0
      ensures !old(isProcessing) && !queryFails ==>
                && SelectedFor(old(subs), old(invoices), now, billable)
                && (subs, invoices) == BillRows(old(subs), old(invoices), billable, fails)
                && failed == Failures(billable, fails) && generated == |billable| - failed
                && OnlyCronAdvances(steps) && Snapshot(Idle) == Run(old(Snapshot(Idle)), steps)
    {
      hide Next, Run, NextEnd, SelectedFor, BillRow;
      generated, failed, billable, steps := 0, 0, [], [];
      if isProcessing {
        return;
      }
      isProcessing := true;
      if !queryFails {
        var rows;
        rows, steps := FindBillableSubscriptions(now);
        SelectedExist(subs, invoices, now, rows);
        generated, failed, steps := BillAll(rows, fails, steps);
        billable := rows;
      }
      isProcessing := false;
    }

    method BillAll(billable: seq<Copy>, fails: map<nat, Phase>, ghost before: seq<Step>)
      returns (generated: nat, failed: nat, ghost steps: seq<Step>)
      requires forall c | c in billable :: c.sub in subs
      requires OnlyCronAdvances(before) && Run(Snapshot(Idle), before) == Snapshot(Billing(billable, Generating))
      modifies this`subs, this`invoices
      ensures (subs, invoices) == BillRows(old(subs), old(invoices), billable, fails)
      ensures failed == Failures(billable, fails) && generated == |billable| - failed
      ensures OnlyCronAdvances(steps) && Snapshot(Idle) == Run(old(Snapshot(Idle)), steps)
    {
      hide Next, Run, NextEnd, BillRow;
      generated, failed, steps := 0, 0, before;
      ghost var start := Snapshot(Idle);
      for i := 0 to |billable|
        invariant Run(start, steps) == Snapshot(Billing(billable[i..], Generating))
        invariant OnlyCronAdvances(steps)
        invariant (subs, invoices) == BillRows(old(subs), old(invoices), billable[..i], fails)
        invariant failed == Failures(billable[..i], fails) && generated == i - failed
      {
        var c := billable[i];
        var done;
        done, steps := BillOne(start, steps, billable[i..], fails);
        assert billable[i..][1..] == billable[i + 1..];
        assert billable[..i + 1][..i] == billable[..i];
        if done {
          generated := generated + 1;
        } else {
          failed := failed + 1;
        }
      }
      assert billable[..|billable|] == billable;
      RunThen(start, steps, TickEnd);
      EndIsIdle(Snapshot(Billing([], Generating)));
      steps := steps + [TickEnd];
    }

    /** generate (write and re-read), finalize, advance for the head of the queue; each may throw, and a re-read that finds
        nothing counts as failed too. */
    method BillOne(ghost start: State, ghost before: seq<Step>, queue: seq<Copy>, fails: map<nat, Phase>)
      returns (done: bool, ghost steps: seq<Step>)
      requires queue != [] && OnlyCronAdvances(before)
      requires Run(start, before) == Snapshot(Billing(queue, Generating))
      requires queue[0].sub in subs
      modifies this`subs, this`invoices
      ensures done == (queue[0].sub !in fails)
      ensures (subs, invoices) == BillRow(old(subs), old(invoices), queue[0], fails)
      ensures OnlyCronAdvances(steps) && Run(start, steps) == Snapshot(Billing(queue[1..], Generating))
    {
      hide Run, NextEnd;
      var c := queue[0];
      steps := before;
      var ok := !(c.sub in fails && fails[c.sub] == Generating);
      RunThen(start, steps, Bill(ok));
      steps := steps + [Bill(ok)];
      if !ok {
        return false, steps;
      }
      invoices := invoices + [Invoice(c.sub, c.period, true)];
      ok := !(c.sub in fails && fails[c.sub] == Rereading);
      RunThen(start, steps, Bill(ok));
      steps := steps + [Bill(ok)];
      if !ok {
        return false, steps;
      }
      ok := !(c.sub in fails && fails[c.sub] == Finalizing);
      RunThen(start, steps, Bill(ok));
      steps := steps + [Bill(ok)];
      if !ok {
        return false, steps;
      }
      ok := !(c.sub in fails && fails[c.sub] == Advancing);
      RunThen(start, steps, Bill(ok));
      steps := steps + [Bill(ok)];
      if !ok {
        return false, steps;
      }
      AdvancePeriod(c.sub, c.period.end, c.interval);
      done := true;
    }
  }

  lemma SelectedExist(subs: map<nat, Subscription>, invoices: seq<Invoice>, now: int, billable: seq<Copy>)
    requires SelectedFor(subs, invoices, now, billable)
    ensures forall c | c in billable :: c.sub in subs
  {
  }

  lemma EndIsIdle(s: State)
    ensures Next(s, TickEnd) == s.(cron := Idle)
  {
  }

  lemma ScanTakesHead(s: State)
    ensures Next(s, Scan) == ScanNext(s)
  {
  }
}
