/** What payment advances do to the billed time. The cron and the payment handler both move a subscription
    to the period after the end they have read. A period is billed if it has an invoice, by the cron or by hand:
    this is what the cron's own query asks. */
module PeriodCover {
  import opened Calendar
  import opened BillingCron

  /** All links before link k have an invoice. */
  predicate BilledBefore(s: State, id: nat, k: nat)
    requires id in s.subs
  {
    forall j: nat | j < k :: HasInvoice(s.invoices, id, Link(s.subs[id], j))
  }

  /** The period is a link, and the time before it is billed without a gap. */
  ghost predicate Reached(s: State, id: nat, period: Period)
    requires id in s.subs
  {
    exists k: nat :: period == Link(s.subs[id], k) && BilledBefore(s, id, k)
  }

  ghost predicate ReachedEnd(s: State, id: nat, end: int)
    requires id in s.subs
  {
    exists k: nat :: end == Link(s.subs[id], k).end && BilledBefore(s, id, k)
  }

  /** The billed time of the subscription has no gap before its current period. */
  ghost predicate Covered(s: State, id: nat) {
    id in s.subs ==> Reached(s, id, s.subs[id].period)
  }

  /** If the step is a payment advance of the subscription, the period that the payment handler read the end of has an
      invoice. */
  ghost predicate PaysBilled(s: State, a: Step, id: nat) {
    a.PayWrite? && a.read in s.pending && a.read.sub == id && id in s.subs ==>
      exists k: nat :: a.read.end == Link(s.subs[id], k).end && HasInvoice(s.invoices, id, Link(s.subs[id], k))
  }

  /** Nobody holds a period that lies behind a gap. */
  ghost predicate NoTear(s: State, id: nat) {
    && Covered(s, id)
    && (forall c | c in Held(s.cron) && c.sub == id :: id in s.subs && Reached(s, id, c.period))
    && (forall r | r in s.pending && r.sub == id :: id in s.subs && ReachedEnd(s, id, r.end))
    && HeadBilled(s)
  }

  // ----- links -----

  lemma EndTellsLink(sub: Subscription, i: nat, j: nat)
    requires Link(sub, i).end == Link(sub, j).end
    ensures i == j
  {
    hide Boundary;
    if i < j {
      BoundariesIncrease(sub.created, sub.interval, i + 1, j + 1);
    } else if j < i {
      BoundariesIncrease(sub.created, sub.interval, j + 1, i + 1);
    }
  }

  lemma LinksStay(s: State, a: Step, id: nat)
    requires id in s.subs
    ensures id in Next(s, a).subs && forall k: nat :: Link(Next(s, a).subs[id], k) == Link(s.subs[id], k)
  {
    hide Next, Boundary;
    RowsKeepTheirChain(s, a, id);
  }

  lemma InvoicesStay(s: State, a: Step)
    ensures s.invoices <= Next(s, a).invoices
  {
    hide Advanced, Copies;
  }

  lemma HasInvoiceStays(invoices: seq<Invoice>, longer: seq<Invoice>, id: nat, period: Period)
    requires invoices <= longer && HasInvoice(invoices, id, period)
    ensures HasInvoice(longer, id, period)
  {
    var inv :| inv in invoices && inv.sub == id && inv.period == period;
    assert inv in longer;
  }

  lemma BilledStays(s: State, a: Step, id: nat, k: nat)
    requires id in s.subs && BilledBefore(s, id, k)
    ensures id in Next(s, a).subs && BilledBefore(Next(s, a), id, k)
  {
    hide Next, Link, HasInvoice;
    LinksStay(s, a, id);
    InvoicesStay(s, a);
    forall j: nat | j < k ensures HasInvoice(Next(s, a).invoices, id, Link(Next(s, a).subs[id], j)) {
      HasInvoiceStays(s.invoices, Next(s, a).invoices, id, Link(s.subs[id], j));
    }
  }

  lemma ReachedStays(s: State, a: Step, id: nat, period: Period)
    requires id in s.subs && Reached(s, id, period)
    ensures id in Next(s, a).subs && Reached(Next(s, a), id, period)
  {
    hide Next, Link, BilledBefore;
    var k: nat :| period == Link(s.subs[id], k) && BilledBefore(s, id, k);
    LinksStay(s, a, id);
    BilledStays(s, a, id, k);
  }

  lemma ReachedEndStays(s: State, a: Step, id: nat, end: int)
    requires id in s.subs && ReachedEnd(s, id, end)
    ensures id in Next(s, a).subs && ReachedEnd(Next(s, a), id, end)
  {
    hide Next, Link, BilledBefore;
    var k: nat :| end == Link(s.subs[id], k).end && BilledBefore(s, id, k);
    LinksStay(s, a, id);
    BilledStays(s, a, id, k);
  }

  // ----- one step -----

  /** A payment advance keeps the cover exactly when the period it was read from is billed. */
  lemma PaymentStep(s: State, r: Read)
    requires Inv(s) && r in s.pending && r.sub in s.subs && ReachedEnd(s, r.sub, r.end)
    ensures Covered(Next(s, PayWrite(r)), r.sub) <==> PaysBilled(s, PayWrite(r), r.sub)
  {
    hide NextEnd, Boundary, HasInvoice;
    var id, s' := r.sub, Next(s, PayWrite(r));
    var k: nat :| r.end == Link(s.subs[id], k).end && BilledBefore(s, id, k);
    AdvancedIsLink(s.subs[id], k);
    LinksStay(s, PayWrite(r), id);
    assert s'.subs[id].period == Link(s.subs[id], k + 1) && s'.invoices == s.invoices;
    LinksDiffer(s.subs[id], k + 1);
    EndsDiffer(s.subs[id], k);
    if HasInvoice(s.invoices, id, Link(s.subs[id], k)) {
      assert BilledBefore(s', id, k + 1);
    }
  }

  lemma EndsDiffer(sub: Subscription, k: nat)
    ensures forall j: nat | Link(sub, j).end == Link(sub, k).end :: j == k
  {
    hide Link;
    forall j: nat | Link(sub, j).end == Link(sub, k).end ensures j == k {
      EndTellsLink(sub, j, k);
    }
  }

  lemma LinksDiffer(sub: Subscription, k: nat)
    ensures forall j: nat | Link(sub, j) == Link(sub, k) :: j == k
  {
    hide Link;
    forall j: nat | Link(sub, j) == Link(sub, k) ensures j == k {
      EndTellsLink(sub, j, k);
    }
  }

  lemma BillKeepsCover(s: State, ok: bool, id: nat)
    requires Inv(s) && NoTear(s, id)
    ensures Covered(Next(s, Bill(ok)), id)
  {
    hide NextEnd, Boundary;
    var s' := Next(s, Bill(ok));
    if id in s'.subs {
      BillKeepsRows(s, ok);
      if s'.subs[id].period == s.subs[id].period {
        ReachedStays(s, Bill(ok), id, s.subs[id].period);
      } else {
        var c := s.cron.queue[0];
        var k: nat :| c.period == Link(s.subs[id], k) && BilledBefore(s, id, k);
        AdvancedIsLink(s.subs[id], k);
        LinksStay(s, Bill(ok), id);
        assert s'.subs[id].period == Link(s.subs[id], k + 1);
        assert BilledBefore(s', id, k + 1);
      }
    }
  }

  /** Only a bill or a payment moves the period of a subscription, and a new one starts its chain. */
  lemma OthersStay(s: State, a: Step, id: nat)
    requires !a.Bill? && !(a.PayWrite? && a.read in s.pending && a.read.sub == id) && id in Next(s, a).subs
    ensures var sub := Next(s, a).subs[id];
      if id in s.subs then sub.period == s.subs[id].period
      else sub.period == Period(sub.created, NextEnd(sub.created, sub.interval))
  {
    hide NextEnd, Selects, Copies, HasInvoice;
  }

  lemma StepKeepsCover(s: State, a: Step, id: nat)
    requires Inv(s) && NoTear(s, id)
    ensures Covered(Next(s, a), id) <==> PaysBilled(s, a, id)
  {
    hide Next, NextEnd, Reached, ReachedEnd, Inv;
    if a.Bill? {
      BillKeepsCover(s, a.ok, id);
    } else if a.PayWrite? && a.read in s.pending && a.read.sub == id {
      PaymentStep(s, a.read);
    } else if id in Next(s, a).subs {
      OthersStay(s, a, id);
      if id in s.subs {
        ReachedStays(s, a, id, s.subs[id].period);
      } else {
        NewIsCovered(Next(s, a), id);
      }
    }
  }

  lemma NewIsCovered(s: State, id: nat)
    requires id in s.subs && s.subs[id].period == Period(s.subs[id].created, NextEnd(s.subs[id].created, s.subs[id].interval))
    ensures Reached(s, id, s.subs[id].period)
  {
    hide NextEnd;
    FirstLink(s.subs[id]);
    assert BilledBefore(s, id, 0);
  }

  /** A copy or a read was there before, or is of the current period. */
  lemma HeldBefore(s: State, a: Step, c: Copy)
    requires c in Held(Next(s, a).cron)
    ensures c in Held(s.cron) || (c.sub in s.subs && c.period == s.subs[c.sub].period && c.interval == s.subs[c.sub].interval)
  {
    hide NextEnd, Advanced, HasInvoice;
  }

  lemma ReadBefore(s: State, a: Step, r: Read)
    requires r in Next(s, a).pending
    ensures r in s.pending || (r.sub in s.subs && r.end == s.subs[r.sub].period.end)
  {
    hide NextEnd, Advanced, HasInvoice, Selects, Copies;
  }

  /** The head of the queue is billed once its invoice is generated. */
  predicate HeadBilled(s: State) {
    s.cron.Billing? && s.cron.queue != [] && s.cron.phase != Generating ==>
      CronBilled(s.invoices, s.cron.queue[0].sub, s.cron.queue[0].period)
  }

  lemma NextKeepsHeadBilled(s: State, a: Step)
    requires HeadBilled(s)
    ensures HeadBilled(Next(s, a))
  {
    hide NextEnd, Advanced, HasInvoice, Selects, Copies;
  }

  lemma StepKeepsNoTear(s: State, a: Step, id: nat)
    requires Inv(s) && NoTear(s, id) && PaysBilled(s, a, id)
    ensures NoTear(Next(s, a), id)
  {
    hide Next, Reached, ReachedEnd, PaysBilled, Inv, HeadBilled, Held;
    var s' := Next(s, a);
    StepKeepsCover(s, a, id);
    NextKeepsHeadBilled(s, a);
    forall c | c in Held(s'.cron) && c.sub == id ensures id in s'.subs && Reached(s', id, c.period) {
      HeldBefore(s, a, c);
      ReachedStays(s, a, id, c.period);
    }
    forall r | r in s'.pending && r.sub == id ensures id in s'.subs && ReachedEnd(s', id, r.end) {
      ReadBefore(s, a, r);
      if r !in s.pending {
        ReachedHasEnd(s, id, s.subs[id].period);
      }
      ReachedEndStays(s, a, id, r.end);
    }
  }

  lemma ReachedHasEnd(s: State, id: nat, period: Period)
    requires id in s.subs && Reached(s, id, period)
    ensures ReachedEnd(s, id, period.end)
  {
    hide Link, BilledBefore;
  }

  // ----- every run -----

  ghost predicate CoveredAt(steps: seq<Step>, id: nat, i: nat)
    requires i <= |steps|
  {
    Covered(Run(EMPTY, steps[..i]), id)
  }

  ghost predicate PaidAt(steps: seq<Step>, id: nat, i: nat)
    requires i < |steps|
  {
    PaysBilled(Run(EMPTY, steps[..i]), steps[i], id)
  }

  lemma RunTo(steps: seq<Step>, i: nat)
    requires i < |steps|
    ensures Run(EMPTY, steps[..i + 1]) == Next(Run(EMPTY, steps[..i]), steps[i])
  {
    hide Next;
    assert steps[..i + 1][..i] == steps[..i];
  }

  lemma {:induction false} PaidRunsHaveNoTear(steps: seq<Step>, id: nat, n: nat)
    requires n <= |steps| && forall i: nat | i < n :: PaidAt(steps, id, i)
    ensures NoTear(Run(EMPTY, steps[..n]), id)
  {
    hide Run, NoTear, PaysBilled;
    if n == 0 {
      EmptyHasNoTear(id);
    } else {
      PaidRunsHaveNoTear(steps, id, n - 1);
      RunKeepsInv(steps[..n - 1]);
      RunTo(steps, n - 1);
      assert PaidAt(steps, id, n - 1);
      StepKeepsNoTear(Run(EMPTY, steps[..n - 1]), steps[n - 1], id);
    }
  }

  lemma EmptyHasNoTear(id: nat)
    ensures NoTear(Run(EMPTY, []), id)
  {
  }

  lemma {:induction false} CoveredRunsPayBilled(steps: seq<Step>, id: nat, n: nat)
    requires n <= |steps| && forall i: nat | i <= n :: CoveredAt(steps, id, i)
    ensures forall i: nat | i < n :: PaidAt(steps, id, i)
  {
    hide Run, Covered, PaysBilled;
    if n > 0 {
      CoveredRunsPayBilled(steps, id, n - 1);
      PaidRunsHaveNoTear(steps, id, n - 1);
      RunKeepsInv(steps[..n - 1]);
      RunTo(steps, n - 1);
      StepKeepsCover(Run(EMPTY, steps[..n - 1]), steps[n - 1], id);
      assert CoveredAt(steps, id, n);
    }
  }

  /** Over every run of the cron and the payment handler, with any faults, stale reads, interleaving and other invoices:
      the billed time of a subscription never has a gap exactly when each payment advance finds an invoice for the
      period whose end it read. */
  lemma PaymentAdvanceKeepsCover(steps: seq<Step>, id: nat)
    ensures (forall i: nat | i <= |steps| :: CoveredAt(steps, id, i)) <==> forall i: nat | i < |steps| :: PaidAt(steps, id, i)
  {
    hide Run, Covered, PaysBilled;
    if forall i: nat | i <= |steps| :: CoveredAt(steps, id, i) {
      CoveredRunsPayBilled(steps, id, |steps|);
    } else if forall i: nat | i < |steps| :: PaidAt(steps, id, i) {
      forall i: nat | i <= |steps| ensures CoveredAt(steps, id, i) {
        PaidRunsHaveNoTear(steps, id, i);
      }
    }
  }

  // ----- a skipped period stays unbilled -----

  /** The period, every copy of the cron and every payment's read are at link k or later. */
  ghost predicate Beyond(s: State, id: nat, k: nat) {
    && id in s.subs
    && (exists j: nat :: k <= j && s.subs[id].period == Link(s.subs[id], j))
    && (forall c | c in Held(s.cron) && c.sub == id ::
          c.interval == s.subs[id].interval && exists j: nat :: k <= j && c.period == Link(s.subs[id], j))
    && (forall r | r in s.pending && r.sub == id :: exists j: nat :: k <= j && r.end == Link(s.subs[id], j).end)
  }

  lemma PeriodStaysBeyond(s: State, a: Step, id: nat, k: nat)
    requires Beyond(s, id, k)
    ensures id in Next(s, a).subs && exists j: nat :: k <= j && Next(s, a).subs[id].period == Link(s.subs[id], j)
  {
    hide NextEnd, Boundary, Selects, Copies;
    var s' := Next(s, a);
    LinksStay(s, a, id);
    if s'.subs[id].period != s.subs[id].period {
      var end := if a.Bill? then s.cron.queue[0].period.end else a.read.end;
      var j: nat :| k <= j && end == Link(s.subs[id], j).end;
      AdvancedIsLink(s.subs[id], j);
      assert s'.subs[id].period == Link(s.subs[id], j + 1);
    }
  }

  lemma NextKeepsBeyond(s: State, a: Step, id: nat, k: nat)
    requires Beyond(s, id, k)
    ensures Beyond(Next(s, a), id, k)
  {
    hide Next, Link, Held;
    var s' := Next(s, a);
    PeriodStaysBeyond(s, a, id, k);
    RowsKeepTheirChain(s, a, id);
    LinksStay(s, a, id);
    forall c | c in Held(s'.cron) && c.sub == id
      ensures c.interval == s'.subs[id].interval && exists j: nat :: k <= j && c.period == Link(s'.subs[id], j)
    {
      HeldBefore(s, a, c);
    }
    forall r | r in s'.pending && r.sub == id ensures exists j: nat :: k <= j && r.end == Link(s'.subs[id], j).end {
      ReadBefore(s, a, r);
    }
  }

  /** A new cron invoice is for a period the cron held. */
  lemma NextBillsHeld(s: State, a: Step, id: nat, period: Period)
    ensures CronBilled(Next(s, a).invoices, id, period) ==>
              CronBilled(s.invoices, id, period) || exists c | c in Held(s.cron) :: c.sub == id && c.period == period
  {
    hide NextEnd, Advanced, Copies;
  }

  /** Whatever ticks, payments and faults follow, the cron never bills a link that everyone has passed. */
  lemma {:induction false} SkippedForGood(s: State, steps: seq<Step>, id: nat, k: nat, skipped: nat)
    requires Beyond(s, id, k) && skipped < k && !CronBilled(s.invoices, id, Link(s.subs[id], skipped))
    ensures var s' := Run(s, steps);
      && Beyond(s', id, k) && Link(s'.subs[id], skipped) == Link(s.subs[id], skipped)
      && !CronBilled(s'.invoices, id, Link(s.subs[id], skipped))
  {
    hide Next, Link;
    if steps != [] {
      var front, a := steps[..|steps| - 1], steps[|steps| - 1];
      SkippedForGood(s, front, id, k, skipped);
      var t := Run(s, front);
      NextKeepsBeyond(t, a, id, k);
      LinksStay(t, a, id);
      NextBillsHeld(t, a, id, Link(t.subs[id], skipped));
      forall c | c in Held(t.cron) && c.sub == id ensures c.period != Link(t.subs[id], skipped) {
        var j: nat :| k <= j && c.period == Link(t.subs[id], j);
        LinksDisjoint(t.subs[id], j, skipped);
      }
    }
  }

  /** An ordinary payment: the period is invoiced by hand, paid while it is the current one, and the time stays covered. */
  lemma PaidManualInvoiceLeavesNoGap(created: int) returns (steps: seq<Step>, sub: Subscription)
    ensures var s := Run(EMPTY, steps);
      && s.subs == map[0 := sub] && sub.period == Link(sub, 1) && s.invoices == [Invoice(0, Link(sub, 0), false)]
      && Covered(s, 0)
  {
    hide Run, Boundary, NextEnd;
    var s, first;
    steps, s, first := Subscribed(created);
    steps, s := Extend(steps, s, OtherInvoice(0, first.period));
    steps, s := PaidOnce(steps, s, first, 0);
    sub := s.subs[0];
    assert forall j: nat :: Link(sub, j) == Link(first, j);
    assert HasInvoice(s.invoices, 0, Link(sub, 0)) by { assert s.invoices[0] in s.invoices; }
    assert BilledBefore(s, 0, 1);
  }

  /** The gap happens: the first period is invoiced twice by hand, which nothing prevents, and both invoices are paid.
      Each payment advances, the second period is skipped without an invoice, and in no continuation does the cron
      ever bill it. */
  lemma SecondPaymentSkipsAPeriod(created: int) returns (steps: seq<Step>, sub: Subscription)
    ensures var s := Run(EMPTY, steps);
      && s.subs == map[0 := sub] && sub.period == Link(sub, 2)
      && s.invoices == [Invoice(0, Link(sub, 0), false), Invoice(0, Link(sub, 0), false)]
      && !Covered(s, 0) && !HasInvoice(s.invoices, 0, Link(sub, 1))
      && forall more: seq<Step> :: !CronBilled(Run(s, more).invoices, 0, Link(sub, 1))
  {
    hide Run, Boundary, NextEnd;
    var s, first;
    steps, s, first := Subscribed(created);
    steps, s := Extend(steps, s, OtherInvoice(0, first.period));
    steps, s := Extend(steps, s, OtherInvoice(0, first.period));
    steps, s := PaidOnce(steps, s, first, 0);
    steps, s := PaidOnce(steps, s, first, 1);
    sub := s.subs[0];
    assert forall j: nat :: Link(sub, j) == Link(first, j);
    LinksDisjoint(sub, 0, 1);
    LinksDiffer(sub, 2);
    assert !HasInvoice(s.invoices, 0, Link(sub, 1));
    assert Beyond(s, 0, 2);
    forall more: seq<Step> ensures !CronBilled(Run(s, more).invoices, 0, Link(sub, 1)) {
      SkippedForGood(s, more, 0, 2, 1);
    }
  }

  lemma Subscribed(created: int) returns (steps: seq<Step>, s: State, first: Subscription)
    ensures first == Subscription(created, Monthly, Active, Link(first, 0))
    ensures s == Run(EMPTY, steps) == State(map[0 := first], [], Idle, multiset{})
  {
    hide Run, Boundary, NextEnd;
    first := Subscription(created, Monthly, Active, Period(created, NextEnd(created, Monthly)));
    FirstLink(first);
    steps, s := [], EMPTY;
    RunNothing(EMPTY);
    steps, s := Extend(steps, s, Subscribe(0, created, Monthly, false));
  }

  /** A payment handler reads and writes. */
  lemma PaidOnce(before: seq<Step>, start: State, first: Subscription, k: nat) returns (steps: seq<Step>, s: State)
    requires start == Run(EMPTY, before) && start.subs == map[0 := first.(period := Link(first, k))]
    requires start.pending == multiset{} && start.cron == Idle
    ensures s == Run(EMPTY, steps) == start.(subs := map[0 := first.(period := Link(first, k + 1))])
  {
    hide Run, Boundary, NextEnd;
    AdvancedIsLink(first, k);
    steps, s := Extend(before, start, PayRead(0));
    steps, s := Extend(steps, s, PayWrite(Read(0, Link(first, k).end)));
  }
}
