/** What an invoice charges: the base fee, the overage lines, and the prorated variant.
    Divisions are exact (over `real`); the only rounding is Math.round to whole cents. */
module InvoiceMath {
  import opened Wrappers

  /** Math.round of ECMA-262, section 21.3.2.28: halves go up. */
  function Round(x: real): int { (x + 0.5).Floor }

  lemma RoundIsNearest(x: real)
    ensures x - 0.5 < Round(x) as real <= x + 0.5
  {
  }

  lemma RoundOfInt(n: int)
    ensures Round(n as real) == n
  {
  }

  lemma RoundIsMonotone(x: real, y: real)
    requires x <= y
    ensures Round(x) <= Round(y)
  {
  }

  // ----- overage of one feature -----

  datatype Overage = Overage(units: nat, unitPriceMicroCents: nat, totalCents: int)

  function Max(a: int, b: int): int { if a < b then b else a }

  function CalculateOverage(used: nat, includedAmount: Option<nat>, overagePrice: Option<nat>): Overage {
    var units := Max(0, used - includedAmount.GetOr(0));
    var price := overagePrice.GetOr(0);
    Overage(units, price, Round((units * price) as real / 100.0))
  }

  /** Usage splits into the included part and the overage; the overage is charged to within half a cent, and
      nothing is charged inside the included amount. */
  lemma OverageIsExact(used: nat, includedAmount: Option<nat>, overagePrice: Option<nat>)
    ensures var o := CalculateOverage(used, includedAmount, overagePrice);
      var included := includedAmount.GetOr(0);
      && used == o.units + (if used < included then used else included)
      && (used <= included ==> o.units == 0 && o.totalCents == 0)
      && -0.5 <= o.totalCents as real - (o.units * overagePrice.GetOr(0)) as real / 100.0 <= 0.5
  {
    var o := CalculateOverage(used, includedAmount, overagePrice);
    RoundIsNearest((o.units * overagePrice.GetOr(0)) as real / 100.0);
    if used <= includedAmount.GetOr(0) {
      RoundOfInt(0);
    }
  }

  // ----- line items -----

  datatype FeatureType = Boolean | Quota | Metered

  datatype LimitBehavior = Hard | Soft

  datatype Snapshot = Snapshot(
    feature: string, featureType: FeatureType, limitBehavior: Option<LimitBehavior>,
    includedAmount: Option<nat>, limit: Option<nat>, overagePrice: Option<nat>)
  {
    predicate Billable() {
      featureType != Boolean && !(featureType == Quota && limitBehavior == Some(Hard))
    }

    function Included(): Option<nat> {
      if includedAmount.Some? then includedAmount else limit
    }
  }

  datatype LineItem = LineItem(feature: Option<string>, quantity: nat, unitPriceMicroCents: int, amount: int, sortOrder: nat)

  type Usage = map<string, nat>

  function Used(usage: Usage, feature: string): nat {
    if feature in usage then usage[feature] else 0
  }

  function FeatureLine(s: Snapshot, usage: Usage, sortOrder: nat): LineItem {
    var o := CalculateOverage(Used(usage, s.feature), s.Included(), s.overagePrice);
    LineItem(Some(s.feature), o.units, o.unitPriceMicroCents, o.totalCents, sortOrder)
  }

  /** The lines of the billable features, in snapshot order. */
  function FeatureLines(snapshots: seq<Snapshot>, usage: Usage): seq<LineItem> {
    if snapshots == [] then []
    else
      var s, before := snapshots[|snapshots| - 1], FeatureLines(snapshots[..|snapshots| - 1], usage);
      if s.Billable() then before + [FeatureLine(s, usage, |before| + 1)] else before
  }

  function BaseLine(cents: int): LineItem { LineItem(None, 1, cents * 100, cents, 0) }

  function Total(lines: seq<LineItem>): int {
    if lines == [] then 0 else Total(lines[..|lines| - 1]) + lines[|lines| - 1].amount
  }

  datatype Invoice = Invoice(lines: seq<LineItem>, subtotal: int, total: int, periodStart: int, periodEnd: int)

  /** The loop over the snapshots. */
  method BuildLines(baseCents: int, snapshots: seq<Snapshot>, usage: Usage) returns (lines: seq<LineItem>)
    ensures lines == [BaseLine(baseCents)] + FeatureLines(snapshots, usage)
  {
    lines := [LineItem(None, 1, baseCents * 100, baseCents, 0)];
    var sortOrder := 1;
    for i := 0 to |snapshots|
      invariant lines == [BaseLine(baseCents)] + FeatureLines(snapshots[..i], usage)
      invariant sortOrder == |lines|
    {
      var s := snapshots[i];
      assert snapshots[..i + 1][..i] == snapshots[..i];
      if s.featureType == Boolean {
        continue;
      }
      if s.featureType == Quota && s.limitBehavior == Some(Hard) {
        continue;
      }
      var o := CalculateOverage(Used(usage, s.feature), s.Included(), s.overagePrice);
      lines := lines + [LineItem(Some(s.feature), o.units, o.unitPriceMicroCents, o.totalCents, sortOrder)];
      sortOrder := sortOrder + 1;
    }
    assert snapshots[..|snapshots|] == snapshots;
  }

  method SumAmounts(lines: seq<LineItem>) returns (sum: int)
    ensures sum == Total(lines)
  {
    sum := 0;
    for i := 0 to |lines|
      invariant sum == Total(lines[..i])
    {
      assert lines[..i + 1][..i] == lines[..i];
      sum := sum + lines[i].amount;
    }
    assert lines[..|lines|] == lines;
  }

  function FullInvoice(price: nat, start: int, end: int, snapshots: seq<Snapshot>, usage: Usage): Invoice {
    var lines := [BaseLine(price)] + FeatureLines(snapshots, usage);
    Invoice(lines, Total(lines), Total(lines), start, end)
  }

  method Generate(price: nat, start: int, end: int, snapshots: seq<Snapshot>, usage: Usage) returns (inv: Invoice)
    ensures inv == FullInvoice(price, start, end, snapshots, usage)
  {
    var lines := BuildLines(price, snapshots, usage);
    var subtotal := SumAmounts(lines);
    inv := Invoice(lines, subtotal, subtotal, start, end);
  }

  // ----- proration -----

  function CalculateProration(start: int, end: int, cancelledAt: int): real {
    var total, used := end - start, cancelledAt - start;
    if total <= 0 then 1.0
    else if used <= 0 then 0.0
    else if used >= total then 1.0
    else used as real / total as real
  }

  function Prorate(price: nat, factor: real): int {
    Round(price as real * factor)
  }

  function ProratedFee(price: nat, start: int, end: int, cancelledAt: int): int {
    Prorate(price, CalculateProration(start, end, cancelledAt))
  }

  function ProratedInvoice(price: nat, start: int, end: int, cancelledAt: int, snapshots: seq<Snapshot>, usage: Usage): Invoice {
    var lines := [BaseLine(ProratedFee(price, start, end, cancelledAt))] + FeatureLines(snapshots, usage);
    Invoice(lines, Total(lines), Total(lines), start, cancelledAt)
  }

  method GenerateProrated(price: nat, start: int, end: int, cancelledAt: int, snapshots: seq<Snapshot>, usage: Usage)
    returns (inv: Invoice)
    ensures inv == ProratedInvoice(price, start, end, cancelledAt, snapshots, usage)
  {
    var prorationFactor := CalculateProration(start, end, cancelledAt);
    var proratedAmount := Prorate(price, prorationFactor);
    var lines := BuildLines(proratedAmount, snapshots, usage);
    var subtotal := SumAmounts(lines);
    inv := Invoice(lines, subtotal, subtotal, start, cancelledAt);
  }

  // ----- every line, and the total -----

  /** The printed quantity and unit price explain the printed amount. */
  predicate Explains(line: LineItem) {
    line.amount == Round((line.quantity * line.unitPriceMicroCents) as real / 100.0)
  }

  lemma {:induction false} FeatureLinesShape(snapshots: seq<Snapshot>, usage: Usage)
    ensures var lines := FeatureLines(snapshots, usage);
      forall i | 0 <= i < |lines| :: Explains(lines[i]) && lines[i].sortOrder == i + 1
  {
    hide Round;
    if snapshots != [] {
      FeatureLinesShape(snapshots[..|snapshots| - 1], usage);
      assert Explains(FeatureLine(snapshots[|snapshots| - 1], usage, |FeatureLines(snapshots[..|snapshots| - 1], usage)| + 1));
    }
  }

  /** Each line of an invoice, prorated or not, is explained by its own quantity and unit price, and
      the lines are numbered 0, 1, 2, ... */
  lemma InvoiceLinesExplained(baseCents: int, snapshots: seq<Snapshot>, usage: Usage)
    ensures var lines := [BaseLine(baseCents)] + FeatureLines(snapshots, usage);
      forall i | 0 <= i < |lines| :: Explains(lines[i]) && lines[i].sortOrder == i
  {
    hide Round;
    FeatureLinesShape(snapshots, usage);
    RoundOfInt(baseCents);
    assert (1 * (baseCents * 100)) as real / 100.0 == baseCents as real;
  }

  lemma {:induction false} TotalOfConcat(a: seq<LineItem>, b: seq<LineItem>)
    ensures Total(a + b) == Total(a) + Total(b)
  {
    if b == [] {
      assert a + b == a;
    } else {
      TotalOfConcat(a, b[..|b| - 1]);
      assert (a + b)[..|a + b| - 1] == a + b[..|b| - 1];
    }
  }

  lemma TotalOfOne(line: LineItem)
    ensures Total([line]) == line.amount
  {
    assert [line][..0] == [];
  }

  /** The exact charge of the features in micro-cents, defined without lines or rounding. */
  function ExactMicroCents(snapshots: seq<Snapshot>, usage: Usage): int {
    if snapshots == [] then 0
    else
      var s := snapshots[|snapshots| - 1];
      ExactMicroCents(snapshots[..|snapshots| - 1], usage)
      + (if s.Billable() then Max(0, Used(usage, s.feature) - s.Included().GetOr(0)) * s.overagePrice.GetOr(0) else 0)
  }

  /** The charged cents are within half a cent per feature line of the exact micro-cent charge. */
  lemma {:induction false} TotalIsNearExact(snapshots: seq<Snapshot>, usage: Usage)
    ensures var lines := FeatureLines(snapshots, usage);
      var error := Total(lines) as real - ExactMicroCents(snapshots, usage) as real / 100.0;
      -0.5 * |lines| as real <= error <= 0.5 * |lines| as real
  {
    hide Round;
    if snapshots != [] {
      var s, before := snapshots[|snapshots| - 1], snapshots[..|snapshots| - 1];
      TotalIsNearExact(before, usage);
      if s.Billable() {
        var line := FeatureLine(s, usage, |FeatureLines(before, usage)| + 1);
        assert FeatureLines(snapshots, usage) == FeatureLines(before, usage) + [line];
        RoundIsNearest((line.quantity * line.unitPriceMicroCents) as real / 100.0);
      }
    }
  }

  lemma LineIsMonotone(s: Snapshot, usage: Usage, more: Usage, sortOrder: nat)
    requires Used(usage, s.feature) <= Used(more, s.feature)
    ensures FeatureLine(s, usage, sortOrder).amount <= FeatureLine(s, more, sortOrder).amount
  {
    hide Round;
    var n, m := FeatureLine(s, usage, sortOrder), FeatureLine(s, more, sortOrder);
    ProductIsMonotone(n.quantity, m.quantity, s.overagePrice.GetOr(0));
    RoundIsMonotone((n.quantity * n.unitPriceMicroCents) as real / 100.0, (m.quantity * m.unitPriceMicroCents) as real / 100.0);
  }

  lemma ProductIsMonotone(n: nat, m: nat, price: nat)
    requires n <= m
    ensures n * price <= m * price
  {
  }

  /** How many of the snapshots are METERED, or QUOTA without a HARD limit. */
  function ChargedCount(snapshots: seq<Snapshot>): nat {
    if snapshots == [] then 0
    else
      var s := snapshots[|snapshots| - 1];
      ChargedCount(snapshots[..|snapshots| - 1])
      + if s.featureType == Metered || (s.featureType == Quota && s.limitBehavior != Some(Hard)) then 1 else 0
  }

  /** Every METERED feature and every QUOTA without a HARD limit has its line, in order, and no other feature has one. The
      line counts the units by which the usage exceeds what is free: the included amount if the plan names one,
      else the limit if there is one, else nothing. */
  lemma {:induction false} LinesAreChargedFeatures(snapshots: seq<Snapshot>, usage: Usage, i: nat)
    requires i < |snapshots|
    ensures |FeatureLines(snapshots, usage)| == ChargedCount(snapshots)
    ensures var s, k := snapshots[i], ChargedCount(snapshots[..i]);
      ChargedCount(snapshots[..i + 1]) == k + 1 ==>
        && k < |FeatureLines(snapshots, usage)|
        && var line := FeatureLines(snapshots, usage)[k];
        && line.feature == Some(s.feature)
        && line.unitPriceMicroCents == s.overagePrice.GetOr(0)
        && var free := match (s.includedAmount, s.limit)
             case (Some(n), _) => n
             case (None, Some(n)) => n
             case (None, None) => 0;
        && Used(usage, s.feature) <= free + line.quantity
        && (line.quantity > 0 ==> Used(usage, s.feature) == free + line.quantity)
  {
    hide Round;
    var front := snapshots[..|snapshots| - 1];
    if i < |front| {
      assert snapshots[..i] == front[..i] && snapshots[..i + 1] == front[..i + 1];
      LinesAreChargedFeatures(front, usage, i);
    } else {
      assert snapshots[..i + 1] == snapshots && snapshots[..i] == front;
      if front != [] {
        LinesAreChargedFeatures(front, usage, 0);
      }
    }
  }

  /** More usage of any feature never lowers the total. */
  lemma {:induction false} TotalIsMonotone(snapshots: seq<Snapshot>, usage: Usage, more: Usage)
    requires forall f :: Used(usage, f) <= Used(more, f)
    ensures Total(FeatureLines(snapshots, usage)) <= Total(FeatureLines(snapshots, more))
    ensures |FeatureLines(snapshots, usage)| == |FeatureLines(snapshots, more)|
  {
    hide FeatureLine;
    if snapshots != [] {
      var s, before := snapshots[|snapshots| - 1], snapshots[..|snapshots| - 1];
      TotalIsMonotone(before, usage, more);
      LineIsMonotone(s, usage, more, |FeatureLines(before, usage)| + 1);
    }
  }

  /** The lines depend on the usage of the billable features only: what BOOLEAN and HARD-quota
      features report never reaches the invoice. */
  lemma {:induction false} OnlyBillableUsageMatters(snapshots: seq<Snapshot>, usage: Usage, other: Usage)
    requires forall s | s in snapshots && s.Billable() :: Used(usage, s.feature) == Used(other, s.feature)
    ensures FeatureLines(snapshots, usage) == FeatureLines(snapshots, other)
  {
    if snapshots != [] {
      OnlyBillableUsageMatters(snapshots[..|snapshots| - 1], usage, other);
    }
  }

  // ----- the prorated fee -----

  lemma ProrationFactorBounds(start: int, end: int, at: int, later: int)
    requires at <= later
    ensures 0.0 <= CalculateProration(start, end, at) <= CalculateProration(start, end, later) <= 1.0
  {
    if start < end {
      DivideMonotone((at - start) as real, (later - start) as real, (end - start) as real);
    }
  }

  lemma DivideMonotone(x: real, y: real, d: real)
    requires x <= y && d > 0.0
    ensures x / d <= y / d
    ensures 0.0 < x ==> 0.0 < x / d
    ensures y < d ==> y / d < 1.0
  {
    var p, q := x / d, y / d;
    assert p * d == x && q * d == y;
    if q < p {
      ScaleIsStrict(q, p, d);
    }
    if 1.0 < q {
      ScaleIsStrict(1.0, q, d);
    }
  }

  lemma ScaleIsStrict(p: real, q: real, d: real)
    requires p < q && d > 0.0
    ensures p * d < q * d
  {
  }

  /** The prorated fee lies between nothing and the price, grows with the cancellation date, and is
      the whole price once the cancellation date reaches the period's end. */
  lemma ProratedFeeBounds(price: nat, start: int, end: int, at: int, later: int)
    requires at <= later
    ensures 0 <= ProratedFee(price, start, end, at) <= ProratedFee(price, start, end, later) <= price
    ensures end <= at ==> ProratedFee(price, start, end, at) == price
  {
    hide CalculateProration, Prorate;
    ProrationFactorBounds(start, end, at, later);
    ProrateIsMonotone(price, CalculateProration(start, end, at), CalculateProration(start, end, later));
    if end <= at {
      FullFactor(start, end, at);
      ProrateIsMonotone(price, 1.0, 1.0);
    }
  }

  lemma ProrateIsMonotone(price: nat, f: real, g: real)
    requires 0.0 <= f <= g <= 1.0
    ensures 0 <= Prorate(price, f) <= Prorate(price, g) <= price == Prorate(price, 1.0)
  {
    hide Prorate;
    ScaleIsMonotone(price as real, f, g);
    ProrateIs(price, f, price as real * f);
    ProrateIs(price, g, price as real * g);
    ProrateIs(price, 1.0, price as real);
    RoundBetween(price as real * f, price as real * g, price as real);
    RoundOfInt(price);
  }

  lemma ProrateIs(price: nat, factor: real, exact: real)
    requires exact == price as real * factor
    ensures Prorate(price, factor) == Round(exact)
  {
  }

  lemma RoundBetween(a: real, b: real, c: real)
    requires 0.0 <= a <= b <= c
    ensures 0 <= Round(a) <= Round(b) <= Round(c)
  {
  }

  lemma FullFactor(start: int, end: int, at: int)
    requires end <= at
    ensures CalculateProration(start, end, at) == 1.0
  {
  }

  lemma ScaleIsMonotone(p: real, f: real, g: real)
    requires 0.0 <= p && 0.0 <= f <= g <= 1.0
    ensures 0.0 <= p * f <= p * g <= p
  {
  }

  /** Inside the period the prorated fee is within half a cent of price * used / total. */
  lemma ProratedFeeIsNearExact(price: nat, start: int, end: int, at: int)
    requires start < end && start <= at <= end
    ensures var exact := price as real * ((at - start) as real / (end - start) as real);
      -0.5 <= ProratedFee(price, start, end, at) as real - exact <= 0.5
  {
    assert CalculateProration(start, end, at) == (at - start) as real / (end - start) as real;
  }

  /** Usage is never prorated: the prorated and the full invoice of one subscription differ by exactly
      the difference of their base fees, line by line and in total. */
  lemma OnlyTheBaseFeeIsProrated(price: nat, start: int, end: int, at: int, snapshots: seq<Snapshot>, usage: Usage)
    ensures var full := FullInvoice(price, start, end, snapshots, usage);
      var prorated := ProratedInvoice(price, start, end, at, snapshots, usage);
      && full.total - prorated.total == price - ProratedFee(price, start, end, at)
      && full.lines[1..] == prorated.lines[1..]
      && prorated.total <= full.total
      && (end <= at ==> prorated.lines == full.lines)
  {
    hide ProratedFee, FeatureLines, Total;
    TotalOfConcat([BaseLine(price)], FeatureLines(snapshots, usage));
    TotalOfConcat([BaseLine(ProratedFee(price, start, end, at))], FeatureLines(snapshots, usage));
    TotalOfOne(BaseLine(price));
    TotalOfOne(BaseLine(ProratedFee(price, start, end, at)));
    ProratedFeeBounds(price, start, end, at, at);
  }
}
