/** Invoice status transitions and the append-only billing ledger.

    Each call is one step: the status read and the transaction that follows it are not interleaved
    with other calls. A transaction may fail, which rolls back its own writes and nothing else. */
module InvoiceLifecycle {
  import opened Wrappers
  import opened Sums
  import InvoiceNumber

  const PAYMENT_DUE_DAYS := 30

  datatype Status = Draft | Finalized | Paid | Void

  datatype Invoice = Invoice(
    tenant: nat, sub: nat, status: Status, total: int, number: Option<string>, dueDate: Option<int>)

  datatype EntryType = Charge | Payment | Credit

  datatype Entry = Entry(tenant: nat, invoice: nat, kind: EntryType, debit: int, credit: int)

  datatype State = State(invoices: map<nat, Invoice>, ledger: seq<Entry>, sequences: map<nat, nat>)

  datatype Error = NotFound | InvalidTransition(from: Status) | RolledBack

  datatype Call =
    | Draft(invoice: nat, tenant: nat, sub: nat, total: int)                         // a generated invoice
    | Finalize(invoice: nat, tenant: nat, now: int, year: nat, commits: bool)
    | MarkPaid(invoice: nat, tenant: nat, commits: bool)
    | VoidIt(invoice: nat, tenant: nat, commits: bool)

  const EMPTY := State(map[], [], map[])

  function NextSequence(sequences: map<nat, nat>, year: nat): nat {
    (if year in sequences then sequences[year] else 0) + 1
  }

  function DueDate(now: int): int { now + PAYMENT_DUE_DAYS * 24 * 60 * 60 * 1000 }

  /** The state after a call, and what the caller sees. */
  function Apply(s: State, call: Call): (State, Result<(), Error>) {
    if call.Draft? then
      if call.invoice in s.invoices then (s, Err(RolledBack))
      else (s.(invoices := s.invoices[call.invoice := Invoice(call.tenant, call.sub, Status.Draft, call.total, None, None)]), Ok(()))
    else if call.invoice !in s.invoices || s.invoices[call.invoice].tenant != call.tenant then (s, Err(NotFound))
    else
      var inv := s.invoices[call.invoice];
      match call
      case Finalize(id, tenant, now, year, commits) =>
        if inv.status != Status.Draft then (s, Err(InvalidTransition(inv.status)))
        else
          var q := NextSequence(s.sequences, year);
          var counted := s.(sequences := s.sequences[year := q]);
          if !commits then (counted, Err(RolledBack))
          else (counted.(invoices := s.invoices[id := inv.(status := Finalized, dueDate := Some(DueDate(now)),
                                                           number := Some(InvoiceNumber.Format(year, q)))],
                         ledger := s.ledger + [Entry(tenant, id, Charge, inv.total, 0)]), Ok(()))
      case MarkPaid(id, tenant, commits) =>
        if inv.status != Finalized then (s, Err(InvalidTransition(inv.status)))
        else if !commits then (s, Err(RolledBack))
        else (s.(invoices := s.invoices[id := inv.(status := Paid)],
                 ledger := s.ledger + [Entry(tenant, id, Payment, 0, inv.total)]), Ok(()))
      case VoidIt(id, tenant, commits) =>
        if inv.status != Status.Draft && inv.status != Finalized then (s, Err(InvalidTransition(inv.status)))
        else if !commits then (s, Err(RolledBack))
        else (s.(invoices := s.invoices[id := inv.(status := Void)],
                 ledger := if inv.status == Finalized then s.ledger + [Entry(tenant, id, Credit, 0, inv.total)] else s.ledger), Ok(()))
  }

  function Run(s: State, calls: seq<Call>): State {
    if calls == [] then s else Apply(Run(s, calls[..|calls| - 1]), calls[|calls| - 1]).0
  }

  // ----- the service -----

  class LifecycleService {
    var invoices: map<nat, Invoice>
    var ledger: seq<Entry>
    var sequences: map<nat, nat>

    ghost function Snapshot(): State
      reads this
    {
      State(invoices, ledger, sequences)
    }

    constructor ()
      ensures Snapshot() == EMPTY
    {
      invoices, ledger, sequences := map[], [], map[];
    }

    /** The atomic upsert on the counter row, then the printed number. */
    method GenerateNext(year: nat) returns (number: string)
      modifies this`sequences
      ensures sequences == old(sequences)[year := NextSequence(old(sequences), year)]
      ensures InvoiceNumber.Parse(number) == (year, sequences[year])
      ensures number == InvoiceNumber.Format(year, sequences[year])
    {
      if year in sequences {
        sequences := sequences[year := sequences[year] + 1];
      } else {
        sequences := sequences[year := 1];
      }
      InvoiceNumber.ParseUndoesFormat(year, sequences[year]);
      number := InvoiceNumber.Format(year, sequences[year]);
    }

    method FindInvoiceForTenant(id: nat, tenant: nat) returns (found: Option<Invoice>)
      ensures found == if id in invoices && invoices[id].tenant == tenant then Some(invoices[id]) else None
    {
      found := if id in invoices && invoices[id].tenant == tenant then Some(invoices[id]) else None;
    }

    method Finalize(id: nat, tenant: nat, now: int, year: nat, commits: bool) returns (r: Result<(), Error>)
      modifies this
      ensures (Snapshot(), r) == Apply(old(Snapshot()), Call.Finalize(id, tenant, now, year, commits))
    {
      var found := FindInvoiceForTenant(id, tenant);
      if found.None? {
        return Err(NotFound);
      }
      var invoice := found.value;
      if invoice.status != Status.Draft {
        return Err(InvalidTransition(invoice.status));
      }
      var number := GenerateNext(year);
      if !commits {
        return Err(RolledBack);
      }
      invoices := invoices[id := invoice.(status := Finalized, number := Some(number), dueDate := Some(DueDate(now)))];
      ledger := ledger + [Entry(tenant, id, Charge, invoice.total, 0)];
      return Ok(());
    }

    method MarkPaid(id: nat, tenant: nat, commits: bool) returns (r: Result<(), Error>)
      modifies this`invoices, this`ledger
      ensures (Snapshot(), r) == Apply(old(Snapshot()), Call.MarkPaid(id, tenant, commits))
    {
      var found := FindInvoiceForTenant(id, tenant);
      if found.None? {
        return Err(NotFound);
      }
      var invoice := found.value;
      if invoice.status != Finalized {
        return Err(InvalidTransition(invoice.status));
      }
      if !commits {
        return Err(RolledBack);
      }
      invoices := invoices[id := invoice.(status := Paid)];
      ledger := ledger + [Entry(tenant, id, Payment, 0, invoice.total)];
      return Ok(());
    }

    method VoidInvoice(id: nat, tenant: nat, commits: bool) returns (r: Result<(), Error>)
      modifies this`invoices, this`ledger
      ensures (Snapshot(), r) == Apply(old(Snapshot()), VoidIt(id, tenant, commits))
    {
      var found := FindInvoiceForTenant(id, tenant);
      if found.None? {
        return Err(NotFound);
      }
      var invoice := found.value;
      if invoice.status != Status.Draft && invoice.status != Finalized {
        return Err(InvalidTransition(invoice.status));
      }
      var wasFinalized := invoice.status == Finalized;
      if !commits {
        return Err(RolledBack);
      }
      invoices := invoices[id := invoice.(status := Void)];
      if wasFinalized {
        ledger := ledger + [Entry(tenant, id, Credit, 0, invoice.total)];
      }
      return Ok(());
    }

    method GetBalance(tenant: nat) returns (balance: int, totalCharged: int, totalPaid: int)
      ensures balance == Total(ledger, tenant, Net)
      ensures totalCharged == Total(ledger, tenant, Debits) && totalPaid == Total(ledger, tenant, Credits)
    {
      totalCharged, totalPaid := 0, 0;
      for i := 0 to |ledger|
        invariant totalCharged == Total(ledger[..i], tenant, Debits) && totalPaid == Total(ledger[..i], tenant, Credits)
        invariant totalCharged - totalPaid == Total(ledger[..i], tenant, Net)
      {
        assert ledger[..i + 1][..i] == ledger[..i];
        if ledger[i].tenant == tenant {
          totalCharged := totalCharged + ledger[i].debit;
          totalPaid := totalPaid + ledger[i].credit;
        }
      }
      assert ledger[..|ledger|] == ledger;
      balance := totalCharged - totalPaid;
    }
  }

  // ----- the life of an invoice -----

  /** The only ways a status ever changes. */
  const MOVES := {(Status.Draft, Finalized), (Status.Draft, Void), (Finalized, Paid), (Finalized, Void)}

  /** Where a call wants to take its invoice. */
  function Target(call: Call): Status
    requires !call.Draft?
  {
    if call.Finalize? then Finalized else if call.MarkPaid? then Paid else Void
  }

  /** A call succeeds exactly if its transaction commits and the tenant's invoice is at the start of such a move. It then
      changes the status of that invoice and nothing else of it, but that a finalization sets number and due date;
      a call that fails leaves all invoices and the ledger alone. */
  lemma CallSucceedsIff(s: State, call: Call)
    requires !call.Draft?
    ensures var (s', told) := Apply(s, call);
      && (told.Ok? <==>
            && call.invoice in s.invoices && s.invoices[call.invoice].tenant == call.tenant && call.commits
            && (s.invoices[call.invoice].status, Target(call)) in MOVES)
      && (told.Err? ==> s'.invoices == s.invoices && s'.ledger == s.ledger)
      && (told.Ok? ==>
            var was := s.invoices[call.invoice];
            && call.invoice in s'.invoices
            && var now := s'.invoices[call.invoice];
            && s'.invoices == s.invoices[call.invoice := now]
            && now == was.(status := Target(call), number := now.number, dueDate := now.dueDate)
            && if call.Finalize? then
                 && now.number.Some? && now.dueDate == Some(call.now + 30 * 24 * 60 * 60 * 1000)
               else now.number == was.number && now.dueDate == was.dueDate)
  {
    hide InvoiceNumber.Format, NextSequence;
  }

  /** PAID and VOID are final: whatever is called, such an invoice and what the ledger says of it never change. */
  lemma {:induction false} FinalStays(s: State, calls: seq<Call>, id: nat)
    requires id in s.invoices && (s.invoices[id].status == Paid || s.invoices[id].status == Void)
    ensures var s' := Run(s, calls);
      id in s'.invoices && s'.invoices[id] == s.invoices[id] && EntriesOf(s'.ledger, id) == EntriesOf(s.ledger, id)
  {
    hide EntriesOf, InvoiceNumber.Format;
    if calls != [] {
      var before, call := Run(s, calls[..|calls| - 1]), calls[|calls| - 1];
      FinalStays(s, calls[..|calls| - 1], id);
      if call.invoice in before.invoices {
        var total := before.invoices[call.invoice].total;
        EntriesOfPush(before.ledger, Entry(call.tenant, call.invoice, Charge, total, 0), id);
        EntriesOfPush(before.ledger, Entry(call.tenant, call.invoice, Payment, 0, total), id);
        EntriesOfPush(before.ledger, Entry(call.tenant, call.invoice, Credit, 0, total), id);
      }
    }
  }

  // ----- the ledger says what the statuses say -----

  function EntriesOf(ledger: seq<Entry>, invoice: nat): seq<Entry> {
    if ledger == [] then []
    else
      var last, before := ledger[|ledger| - 1], EntriesOf(ledger[..|ledger| - 1], invoice);
      if last.invoice == invoice then before + [last] else before
  }

  /** What an invoice's status dictates. A void invoice was charged exactly when it has a number. */
  function Dictated(id: nat, inv: Invoice): seq<Entry> {
    var charge := Entry(inv.tenant, id, Charge, inv.total, 0);
    match inv.status
    case Draft => []
    case Finalized => [charge]
    case Paid => [charge, Entry(inv.tenant, id, Payment, 0, inv.total)]
    case Void => if inv.number.Some? then [charge, Entry(inv.tenant, id, Credit, 0, inv.total)] else []
  }

  predicate EntriesMatch(s: State) {
    forall id | id in s.invoices :: EntriesOf(s.ledger, id) == Dictated(id, s.invoices[id])
  }

  /** Numbers are assigned by finalize, and every entry belongs to an invoice. */
  predicate RowsOk(s: State) {
    && (forall id | id in s.invoices && s.invoices[id].status != Void ::
          s.invoices[id].number.Some? <==> s.invoices[id].status != Status.Draft)
    && (forall e | e in s.ledger :: e.invoice in s.invoices)
  }

  predicate LedgerOk(s: State) {
    EntriesMatch(s) && RowsOk(s)
  }

  lemma EntriesOfPush(ledger: seq<Entry>, e: Entry, id: nat)
    ensures EntriesOf(ledger + [e], id) == EntriesOf(ledger, id) + if e.invoice == id then [e] else []
  {
    assert (ledger + [e])[..|ledger|] == ledger;
  }

  lemma {:induction false} NoEntries(ledger: seq<Entry>, id: nat)
    requires forall e | e in ledger :: e.invoice != id
    ensures EntriesOf(ledger, id) == []
  {
    if ledger != [] {
      NoEntries(ledger[..|ledger| - 1], id);
    }
  }

  lemma ApplyKeepsEntries(s: State, call: Call, id: nat)
    requires LedgerOk(s) && id in Apply(s, call).0.invoices
    ensures EntriesOf(Apply(s, call).0.ledger, id) == Dictated(id, Apply(s, call).0.invoices[id])
  {
    hide InvoiceNumber.Format, EntriesOf;
    if id !in s.invoices {
      NoEntries(s.ledger, id);
    } else if call.invoice in s.invoices {
      EntriesOfPush(s.ledger, Entry(call.tenant, call.invoice, Charge, s.invoices[call.invoice].total, 0), id);
      EntriesOfPush(s.ledger, Entry(call.tenant, call.invoice, Payment, 0, s.invoices[call.invoice].total), id);
      EntriesOfPush(s.ledger, Entry(call.tenant, call.invoice, Credit, 0, s.invoices[call.invoice].total), id);
    }
  }

  lemma ApplyKeepsRows(s: State, call: Call)
    requires RowsOk(s)
    ensures RowsOk(Apply(s, call).0) && s.ledger <= Apply(s, call).0.ledger
  {
    hide InvoiceNumber.Format, DueDate, NextSequence;
  }

  lemma ApplyKeepsLedger(s: State, call: Call)
    requires LedgerOk(s)
    ensures LedgerOk(Apply(s, call).0) && s.ledger <= Apply(s, call).0.ledger
  {
    hide Apply, EntriesOf, Dictated, RowsOk;
    ApplyKeepsRows(s, call);
    forall id | id in Apply(s, call).0.invoices
      ensures EntriesOf(Apply(s, call).0.ledger, id) == Dictated(id, Apply(s, call).0.invoices[id])
    {
      ApplyKeepsEntries(s, call, id);
    }
  }

  /** After any calls, each invoice's ledger entries are exactly those its status dictates. */
  lemma {:induction false} LedgerFollowsStatuses(calls: seq<Call>)
    ensures LedgerOk(Run(EMPTY, calls))
  {
    hide Apply, LedgerOk;
    if calls == [] {
      EmptyIsOk();
    } else {
      LedgerFollowsStatuses(calls[..|calls| - 1]);
      ApplyKeepsLedger(Run(EMPTY, calls[..|calls| - 1]), calls[|calls| - 1]);
    }
  }

  lemma EmptyIsOk()
    ensures LedgerOk(EMPTY) && NumbersOk(EMPTY)
  {
  }

  function Payments(ledger: seq<Entry>, id: nat): seq<Entry> {
    if ledger == [] then []
    else
      var last, before := ledger[|ledger| - 1], Payments(ledger[..|ledger| - 1], id);
      if last.invoice == id && last.kind == Payment then before + [last] else before
  }

  lemma {:induction false} PaymentsAmongEntries(ledger: seq<Entry>, id: nat)
    ensures Payments(ledger, id) == Payments(EntriesOf(ledger, id), id)
  {
    if ledger != [] {
      var last, before := ledger[|ledger| - 1], ledger[..|ledger| - 1];
      PaymentsAmongEntries(before, id);
      if last.invoice == id {
        assert (EntriesOf(before, id) + [last])[..|EntriesOf(before, id)|] == EntriesOf(before, id);
      }
    }
  }

  /** An invoice has at most one PAYMENT entry, for exactly its total, and has it exactly when PAID. */
  lemma OnePaymentExactlyWhenPaid(s: State, id: nat)
    requires LedgerOk(s) && id in s.invoices
    ensures var inv := s.invoices[id];
      Payments(s.ledger, id) == if inv.status == Paid then [Entry(inv.tenant, id, Payment, 0, inv.total)] else []
  {
    PaymentsAmongEntries(s.ledger, id);
    var es := EntriesOf(s.ledger, id);
    assert es == Dictated(id, s.invoices[id]);
    assert Payments([], id) == [];
    if es != [] {
      assert es[..1][..0] == [];
      assert Payments(es[..1], id) == [];
      if |es| == 2 {
        assert es[..|es| - 1] == es[..1];
      } else {
        assert es[..1] == es;
      }
    }
  }

  // ----- the balance -----

  /** Which of the three figures of the balance. */
  datatype Side = Net | Debits | Credits

  function SideOf(e: Entry, side: Side): int {
    match side
    case Net => e.debit - e.credit
    case Debits => e.debit
    case Credits => e.credit
  }

  /** The sum over the tenant's entries. */
  function Total(ledger: seq<Entry>, tenant: nat, side: Side): int {
    if ledger == [] then 0
    else
      var last := ledger[|ledger| - 1];
      Total(ledger[..|ledger| - 1], tenant, side) + if last.tenant == tenant then SideOf(last, side) else 0
  }

  /** What each invoice of the tenant contributes: it is charged once finalized, settled when paid or voided after
      that, and open in between. */
  function Shares(s: State, tenant: nat, side: Side): map<nat, int> {
    map id | id in s.invoices :: ShareOf(s.invoices[id], tenant, side)
  }

  function ShareOf(inv: Invoice, tenant: nat, side: Side): int {
    var settled := inv.status == Paid || (inv.status == Void && inv.number.Some?);
    if inv.tenant != tenant then 0
    else match side
      case Net => if inv.status == Finalized then inv.total else 0
      case Debits => if inv.status == Finalized || settled then inv.total else 0
      case Credits => if settled then inv.total else 0
  }

  lemma TotalPush(ledger: seq<Entry>, e: Entry, tenant: nat, side: Side)
    ensures Total(ledger + [e], tenant, side)
         == Total(ledger, tenant, side) + if e.tenant == tenant then SideOf(e, side) else 0
  {
    assert (ledger + [e])[..|ledger|] == ledger;
  }

  /** A call moves each figure by what it changes of the share of its own invoice. */
  lemma ApplyMovesTotal(s: State, call: Call, tenant: nat, side: Side)
    requires RowsOk(s)
    ensures var s' := Apply(s, call).0;
      && (s'.invoices == s.invoices ==> s'.ledger == s.ledger)
      && (s'.invoices != s.invoices ==>
            && call.invoice in s'.invoices
            && s'.invoices == s.invoices[call.invoice := s'.invoices[call.invoice]]
            && Total(s'.ledger, tenant, side)
               == Total(s.ledger, tenant, side) + ShareOf(s'.invoices[call.invoice], tenant, side)
                  - (if call.invoice in s.invoices then ShareOf(s.invoices[call.invoice], tenant, side) else 0))
  {
    hide InvoiceNumber.Format, DueDate, NextSequence, Total;
    if call.invoice in s.invoices {
      var total := s.invoices[call.invoice].total;
      TotalPush(s.ledger, Entry(call.tenant, call.invoice, Charge, total, 0), tenant, side);
      TotalPush(s.ledger, Entry(call.tenant, call.invoice, Payment, 0, total), tenant, side);
      TotalPush(s.ledger, Entry(call.tenant, call.invoice, Credit, 0, total), tenant, side);
    }
  }

  lemma ApplyKeepsTotal(s: State, call: Call, tenant: nat, side: Side)
    requires RowsOk(s) && Total(s.ledger, tenant, side) == MapSum(Shares(s, tenant, side))
    ensures Total(Apply(s, call).0.ledger, tenant, side) == MapSum(Shares(Apply(s, call).0, tenant, side))
  {
    hide Apply, ShareOf, MapSum, Total, RowsOk;
    ApplyMovesTotal(s, call, tenant, side);
    var s' := Apply(s, call).0;
    if s'.invoices != s.invoices {
      var id := call.invoice;
      assert Shares(s', tenant, side) == Shares(s, tenant, side)[id := ShareOf(s'.invoices[id], tenant, side)];
      MapSumPut(Shares(s, tenant, side), id, ShareOf(s'.invoices[id], tenant, side));
    } else {
      assert Shares(s', tenant, side) == Shares(s, tenant, side);
    }
  }

  /** After any calls over any invoices, each figure is the sum of the invoices' shares. The balance is the sum of
      the totals of the FINALIZED invoices: drafts owe nothing, payments and voids settle exactly what was
      charged. The figure reported as paid includes invoices that were voided. */
  lemma {:induction false} BalanceIsOpenInvoices(calls: seq<Call>, tenant: nat, side: Side)
    ensures var s := Run(EMPTY, calls);
      Total(s.ledger, tenant, side) == MapSum(Shares(s, tenant, side))
  {
    hide Apply, LedgerOk;
    if calls == [] {
      assert Shares(EMPTY, tenant, side) == map[];
    } else {
      var front := calls[..|calls| - 1];
      BalanceIsOpenInvoices(front, tenant, side);
      LedgerFollowsStatuses(front);
      LedgerHasRows(Run(EMPTY, front));
      ApplyKeepsTotal(Run(EMPTY, front), calls[|calls| - 1], tenant, side);
    }
  }

  lemma LedgerHasRows(s: State)
    requires LedgerOk(s)
    ensures RowsOk(s)
  {
  }

  // ----- invoice numbers -----

  predicate Issued(s: State, number: string) {
    var (year, q) := InvoiceNumber.Parse(number);
    0 <= year && year in s.sequences && 1 <= q <= s.sequences[year] && number == InvoiceNumber.Format(year, q)
  }

  predicate NumbersOk(s: State) {
    && (forall id | id in s.invoices && s.invoices[id].number.Some? :: Issued(s, s.invoices[id].number.value))
    && (forall i, j | i in s.invoices && j in s.invoices && i != j && s.invoices[i].number.Some? ::
          s.invoices[i].number != s.invoices[j].number)
  }

  lemma ApplyKeepsNumbers(s: State, call: Call)
    requires NumbersOk(s) && LedgerOk(s)
    ensures NumbersOk(Apply(s, call).0)
  {
    hide InvoiceNumber.Format, InvoiceNumber.Parse, EntriesOf, Dictated;
    if call.Finalize? {
      InvoiceNumber.ParseUndoesFormat(call.year, NextSequence(s.sequences, call.year));
    }
  }

  /** No two numbered invoices ever share a number, whatever calls interleave and fail. */
  lemma {:induction false} NumbersAreUnique(calls: seq<Call>)
    ensures NumbersOk(Run(EMPTY, calls))
  {
    hide Apply, LedgerOk, NumbersOk;
    if calls == [] {
      EmptyIsOk();
    } else {
      var before := calls[..|calls| - 1];
      NumbersAreUnique(before);
      LedgerFollowsStatuses(before);
      ApplyKeepsNumbers(Run(EMPTY, before), calls[|calls| - 1]);
    }
  }

  /** Every value the year's counter has passed is printed on some invoice. */
  predicate GapFree(s: State) {
    forall year, q | year in s.sequences && 1 <= q <= s.sequences[year] :: Printed(s, year, q)
  }

  predicate Printed(s: State, year: nat, q: nat) {
    exists id | id in s.invoices :: s.invoices[id].number == Some(InvoiceNumber.Format(year, q))
  }

  /** "Gap-free" holds on exactly as long as the transaction after the counter upsert commits: a
      rolled-back finalization leaves a gap. */
  lemma FinalizeKeepsGapFree(s: State, id: nat, now: int, year: nat, commits: bool)
    requires LedgerOk(s) && NumbersOk(s) && GapFree(s)
    requires id in s.invoices && s.invoices[id].status == Status.Draft
    ensures GapFree(Apply(s, Finalize(id, s.invoices[id].tenant, now, year, commits)).0) <==> commits
  {
    hide InvoiceNumber.Format, InvoiceNumber.Parse, EntriesOf, Dictated;
    var s' := Apply(s, Finalize(id, s.invoices[id].tenant, now, year, commits)).0;
    var q := NextSequence(s.sequences, year);
    InvoiceNumber.ParseUndoesFormat(year, q);
    if commits {
      forall y, p | y in s'.sequences && 1 <= p <= s'.sequences[y] ensures Printed(s', y, p) {
        if y == year && p == q {
          assert id in s'.invoices;
        } else {
          assert Printed(s, y, p);
          var other :| other in s.invoices && s.invoices[other].number == Some(InvoiceNumber.Format(y, p));
          assert other in s'.invoices;
        }
      }
    } else {
      assert q <= s'.sequences[year] && !Printed(s', year, q);
    }
  }

  lemma ApplyKeepsGapFree(s: State, call: Call)
    requires LedgerOk(s) && NumbersOk(s) && GapFree(s)
    requires call.Finalize? ==> call.commits
    ensures GapFree(Apply(s, call).0)
  {
    hide InvoiceNumber.Format, InvoiceNumber.Parse, EntriesOf, Dictated;
    var s' := Apply(s, call).0;
    if call.Finalize? {
      if s' != s {
        FinalizeKeepsGapFree(s, call.invoice, call.now, call.year, true);
      }
    } else {
      forall y, p | y in s'.sequences && 1 <= p <= s'.sequences[y] ensures Printed(s', y, p) {
        assert Printed(s, y, p);
        var other :| other in s.invoices && s.invoices[other].number == Some(InvoiceNumber.Format(y, p));
        assert other in s'.invoices;
      }
    }
  }

  /** When every finalization commits, the numbers of each year are 1, 2, ..., with none missing. */
  lemma {:induction false} NumbersAreConsecutive(calls: seq<Call>)
    requires forall c | c in calls && c.Finalize? :: c.commits
    ensures GapFree(Run(EMPTY, calls))
  {
    hide Apply, LedgerOk, NumbersOk;
    if calls != [] {
      var before := calls[..|calls| - 1];
      NumbersAreConsecutive(before);
      LedgerFollowsStatuses(before);
      NumbersAreUnique(before);
      ApplyKeepsGapFree(Run(EMPTY, before), calls[|calls| - 1]);
    }
  }

  /** The call takes a number and its transaction rolls back. */
  predicate Burns(s: State, call: Call) {
    call.Finalize? && !call.commits && call.invoice in s.invoices
    && s.invoices[call.invoice].tenant == call.tenant && s.invoices[call.invoice].status == Status.Draft
  }

  predicate Missing(s: State, year: nat, q: nat) {
    year in s.sequences && 1 <= q <= s.sequences[year] && !Printed(s, year, q)
  }

  /** Later numbers are greater, so a missing one is never made up for. */
  lemma MissingStays(s: State, call: Call, year: nat, q: nat)
    requires Missing(s, year, q)
    ensures Missing(Apply(s, call).0, year, q)
  {
    hide InvoiceNumber.Format, InvoiceNumber.Parse;
    InvoiceNumber.ParseUndoesFormat(year, q);
    if call.Finalize? {
      InvoiceNumber.ParseUndoesFormat(call.year, NextSequence(s.sequences, call.year));
    }
  }

  lemma ApplyIsGapFreeIff(s: State, call: Call)
    requires LedgerOk(s) && NumbersOk(s)
    ensures GapFree(Apply(s, call).0) <==> GapFree(s) && !Burns(s, call)
  {
    hide Apply, LedgerOk, NumbersOk, Printed;
    if !GapFree(s) {
      var year, q :| year in s.sequences && 1 <= q <= s.sequences[year] && !Printed(s, year, q);
      MissingStays(s, call, year, q);
    } else if Burns(s, call) {
      FinalizeKeepsGapFree(s, call.invoice, call.now, call.year, false);
    } else if call.Finalize? && !call.commits {
      RefusedCallChangesNothing(s, call);
    } else {
      ApplyKeepsGapFree(s, call);
    }
  }

  lemma RefusedCallChangesNothing(s: State, call: Call)
    requires call.Finalize? && !call.commits && !Burns(s, call)
    ensures Apply(s, call).0 == s
  {
  }

  /** Every finalization that takes a number commits. */
  predicate NothingBurnt(calls: seq<Call>) {
    forall i | 0 <= i < |calls| :: !Burns(Run(EMPTY, calls[..i]), calls[i])
  }

  lemma BurntLast(calls: seq<Call>)
    requires calls != []
    ensures var front := calls[..|calls| - 1];
      NothingBurnt(calls) <==> NothingBurnt(front) && !Burns(Run(EMPTY, front), calls[|calls| - 1])
  {
    hide Burns, Run;
    var front := calls[..|calls| - 1];
    forall i | 0 <= i < |front| ensures Burns(Run(EMPTY, front[..i]), front[i]) == Burns(Run(EMPTY, calls[..i]), calls[i]) {
      assert front[..i] == calls[..i];
    }
    if NothingBurnt(calls) {
      forall i | 0 <= i < |front| ensures !Burns(Run(EMPTY, front[..i]), front[i]) {
        assert !Burns(Run(EMPTY, calls[..i]), calls[i]);
      }
      assert !Burns(Run(EMPTY, calls[..|calls| - 1]), calls[|calls| - 1]);
    }
  }

  /** After any calls the numbers are gap-free exactly if every finalization that took a number has committed: a
      number whose transaction rolled back is gone for good. */
  lemma {:induction false} GapFreeIffAllCommit(calls: seq<Call>)
    ensures GapFree(Run(EMPTY, calls)) <==> NothingBurnt(calls)
  {
    hide Apply, LedgerOk, NumbersOk, GapFree, Burns, NothingBurnt;
    if calls == [] {
      EmptyIsGapFree();
    } else {
      var front := calls[..|calls| - 1];
      GapFreeIffAllCommit(front);
      LedgerFollowsStatuses(front);
      NumbersAreUnique(front);
      ApplyIsGapFreeIff(Run(EMPTY, front), calls[|calls| - 1]);
      BurntLast(calls);
    }
  }

  lemma EmptyIsGapFree()
    ensures GapFree(Run(EMPTY, [])) && NothingBurnt([])
  {
  }
}
