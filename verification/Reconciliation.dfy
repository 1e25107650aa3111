/** The usage half of a reconciliation run: what the events say against what the aggregates say, tenant by
    tenant, as two given tables. */
module Reconciliation {
  datatype Row = Row(feature: string, amount: int)

  datatype Issue = Issue(tenant: nat, feature: string, expected: int, actual: int, difference: int)

  /** A tenant with a live subscription, its events summed by feature, and its aggregates of the month. */
  datatype Tenant = Tenant(id: nat, expected: seq<Row>, actual: seq<Row>)

  /** The amount a Map built from the rows holds: the last row of a feature wins, none counts as zero. */
  function Lookup(rows: seq<Row>, feature: string): int {
    if rows == [] then 0
    else if rows[|rows| - 1].feature == feature then rows[|rows| - 1].amount
    else Lookup(rows[..|rows| - 1], feature)
  }

  predicate Has(rows: seq<Row>, feature: string) {
    exists i | 0 <= i < |rows| :: rows[i].feature == feature
  }

  /** Issues of the compare loop. */
  function Compared(tenant: nat, expected: seq<Row>, actual: seq<Row>): seq<Issue> {
    if expected == [] then []
    else
      var row := expected[|expected| - 1];
      var found := Lookup(actual, row.feature);
      Compared(tenant, expected[..|expected| - 1], actual)
      + if row.amount != found then [Issue(tenant, row.feature, row.amount, found, row.amount - found)] else []
  }

  /** Issues of the phantom loop. */
  function Phantoms(tenant: nat, expected: seq<Row>, actual: seq<Row>): seq<Issue> {
    if actual == [] then []
    else
      var agg := actual[|actual| - 1];
      Phantoms(tenant, expected, actual[..|actual| - 1])
      + if !Has(expected, agg.feature) && agg.amount > 0
        then [Issue(tenant, agg.feature, 0, agg.amount, -agg.amount)] else []
  }

  function IssuesOf(t: Tenant): seq<Issue> {
    Compared(t.id, t.expected, t.actual) + Phantoms(t.id, t.expected, t.actual)
  }

  function AllIssues(tenants: seq<Tenant>): seq<Issue> {
    if tenants == [] then [] else AllIssues(tenants[..|tenants| - 1]) + IssuesOf(tenants[|tenants| - 1])
  }

  function ExpectedRows(tenants: seq<Tenant>): nat {
    if tenants == [] then 0 else ExpectedRows(tenants[..|tenants| - 1]) + |tenants[|tenants| - 1].expected|
  }

  class ReconciliationService {
    var issues: seq<Issue>

    constructor ()
      ensures issues == []
    {
      issues := [];
    }

    method CompareFeatures(t: Tenant) returns (found: nat, checked: nat)
      modifies this
      ensures issues == old(issues) + Compared(t.id, t.expected, t.actual)
      ensures found == |Compared(t.id, t.expected, t.actual)| && checked == |t.expected|
    {
      found, checked := 0, 0;
      for i := 0 to |t.expected|
        invariant issues == old(issues) + Compared(t.id, t.expected[..i], t.actual)
        invariant found == |Compared(t.id, t.expected[..i], t.actual)| && checked == i
      {
        var row := t.expected[i];
        var actualAmount := Lookup(t.actual, row.feature);
        assert t.expected[..i + 1][..i] == t.expected[..i];
        if row.amount != actualAmount {
          issues := issues + [Issue(t.id, row.feature, row.amount, actualAmount, row.amount - actualAmount)];
          found := found + 1;
        }
        checked := checked + 1;
      }
      assert t.expected[..|t.expected|] == t.expected;
    }

    method FindPhantoms(t: Tenant) returns (found: nat)
      modifies this
      ensures issues == old(issues) + Phantoms(t.id, t.expected, t.actual)
      ensures found == |Phantoms(t.id, t.expected, t.actual)|
    {
      found := 0;
      for i := 0 to |t.actual|
        invariant issues == old(issues) + Phantoms(t.id, t.expected, t.actual[..i])
        invariant found == |Phantoms(t.id, t.expected, t.actual[..i])|
      {
        var agg := t.actual[i];
        var hasEvents := Has(t.expected, agg.feature);
        assert t.actual[..i + 1][..i] == t.actual[..i];
        if !hasEvents && agg.amount > 0 {
          issues := issues + [Issue(t.id, agg.feature, 0, agg.amount, -agg.amount)];
          found := found + 1;
        }
      }
      assert t.actual[..|t.actual|] == t.actual;
    }

    /** `tenantsChecked` counts the compared feature rows of all tenants, not the tenants. */
    method RunReconciliation(tenants: seq<Tenant>) returns (issuesFound: nat, tenantsChecked: nat)
      modifies this
      ensures issues == old(issues) + AllIssues(tenants)
      ensures issuesFound == |AllIssues(tenants)| && tenantsChecked == ExpectedRows(tenants)
    {
      issuesFound, tenantsChecked := 0, 0;
      for i := 0 to |tenants|
        invariant issues == old(issues) + AllIssues(tenants[..i])
        invariant issuesFound == |AllIssues(tenants[..i])| && tenantsChecked == ExpectedRows(tenants[..i])
      {
        assert tenants[..i + 1][..i] == tenants[..i];
        var found, checked := CompareFeatures(tenants[i]);
        var phantoms := FindPhantoms(tenants[i]);
        issuesFound, tenantsChecked := issuesFound + found + phantoms, tenantsChecked + checked;
      }
      assert tenants[..|tenants|] == tenants;
    }
  }

  // ----- what an issue says, and what tenantsChecked counts -----

  /** An issue names the tenant and a feature of it, what the events and the Map say, and the difference: for an expected row
      that the Map does not bear out, or for a positive aggregate row without events. */
  predicate Justified(issue: Issue, t: Tenant) {
    && issue.tenant == t.id && issue.difference == issue.expected - issue.actual
    && ((exists row | row in t.expected ::
           row == Row(issue.feature, issue.expected) && issue.actual == Lookup(t.actual, row.feature) != row.amount)
        || (issue.expected == 0 < issue.actual && Row(issue.feature, issue.actual) in t.actual && !Has(t.expected, issue.feature)))
  }

  lemma {:induction false} ComparedJustified(t: Tenant, expected: seq<Row>)
    requires forall row | row in expected :: row in t.expected
    ensures forall issue | issue in Compared(t.id, expected, t.actual) :: Justified(issue, t)
  {
    if expected != [] {
      ComparedJustified(t, expected[..|expected| - 1]);
    }
  }

  lemma {:induction false} PhantomsJustified(t: Tenant, actual: seq<Row>)
    requires forall row | row in actual :: row in t.actual
    ensures forall issue | issue in Phantoms(t.id, t.expected, actual) :: Justified(issue, t)
  {
    if actual != [] {
      PhantomsJustified(t, actual[..|actual| - 1]);
    }
  }

  lemma IssuesAreJustified(t: Tenant)
    ensures forall issue | issue in IssuesOf(t) :: Justified(issue, t)
  {
    hide Justified;
    ComparedJustified(t, t.expected);
    PhantomsJustified(t, t.actual);
  }

  /** The pairs of a tenant and one of its expected rows. */
  function RowsOf(tenants: seq<Tenant>): set<(int, int)> {
    set i, j | 0 <= i < |tenants| && 0 <= j < |tenants[i].expected| :: (i, j)
  }

  function FirstRows(i: int, n: nat): set<(int, int)> {
    set j | 0 <= j < n :: (i, j)
  }

  lemma {:induction false} FirstRowsCount(i: int, n: nat)
    ensures |FirstRows(i, n)| == n
  {
    if n > 0 {
      FirstRowsCount(i, n - 1);
      assert FirstRows(i, n) == FirstRows(i, n - 1) + {(i, n - 1)};
    }
  }

  /** tenantsChecked is the number of pairs of a tenant and a feature, not of tenants. */
  lemma {:induction false} CheckedCountsRows(tenants: seq<Tenant>)
    ensures ExpectedRows(tenants) == |RowsOf(tenants)|
  {
    if tenants != [] {
      var front, last := tenants[..|tenants| - 1], |tenants| - 1;
      CheckedCountsRows(front);
      FirstRowsCount(last, |tenants[last].expected|);
      assert RowsOf(tenants) == RowsOf(front) + FirstRows(last, |tenants[last].expected|);
      assert RowsOf(front) !! FirstRows(last, |tenants[last].expected|);
    }
  }

  // ----- no issue exactly when the tables agree -----

  predicate Distinct(rows: seq<Row>) {
    forall i, j | 0 <= i < j < |rows| :: rows[i].feature != rows[j].feature
  }

  /** Every feature has the same amount on both sides, a missing one counting as zero. */
  ghost predicate Agree(expected: seq<Row>, actual: seq<Row>) {
    forall f :: Lookup(expected, f) == Lookup(actual, f)
  }

  predicate NonNegative(rows: seq<Row>) { forall i | 0 <= i < |rows| :: 0 <= rows[i].amount }

  lemma {:induction false} NoComparedIff(tenant: nat, expected: seq<Row>, actual: seq<Row>)
    ensures Compared(tenant, expected, actual) == []
       <==> forall i | 0 <= i < |expected| :: expected[i].amount == Lookup(actual, expected[i].feature)
  {
    if expected != [] {
      NoComparedIff(tenant, expected[..|expected| - 1], actual);
    }
  }

  lemma {:induction false} NoPhantomsIff(tenant: nat, expected: seq<Row>, actual: seq<Row>)
    ensures Phantoms(tenant, expected, actual) == []
       <==> forall i | 0 <= i < |actual| :: Has(expected, actual[i].feature) || actual[i].amount <= 0
  {
    if actual != [] {
      NoPhantomsIff(tenant, expected, actual[..|actual| - 1]);
    }
  }

  lemma {:induction false} LookupFinds(rows: seq<Row>, feature: string)
    ensures !Has(rows, feature) ==> Lookup(rows, feature) == 0
    ensures Distinct(rows) ==> forall i | 0 <= i < |rows| && rows[i].feature == feature :: rows[i].amount == Lookup(rows, feature)
    ensures Has(rows, feature) ==> exists i | 0 <= i < |rows| :: rows[i].feature == feature && rows[i].amount == Lookup(rows, feature)
  {
    if rows != [] {
      var front, last := rows[..|rows| - 1], rows[|rows| - 1];
      LookupFinds(front, feature);
      if last.feature != feature && Has(rows, feature) {
        var i :| 0 <= i < |rows| && rows[i].feature == feature;
        assert front[i].feature == feature;
        var k :| 0 <= k < |front| && front[k].feature == feature && front[k].amount == Lookup(front, feature);
        assert rows[k] == front[k];
      }
    }
  }

  /** With one row per feature on each side and no negative amount, nothing is reported exactly when both
      sides agree. */
  lemma NoIssuesIff(t: Tenant)
    requires Distinct(t.expected) && Distinct(t.actual) && NonNegative(t.actual)
    ensures IssuesOf(t) == [] <==> Agree(t.expected, t.actual)
  {
    NoComparedIff(t.id, t.expected, t.actual);
    NoPhantomsIff(t.id, t.expected, t.actual);
    if IssuesOf(t) == [] {
      forall f ensures Lookup(t.expected, f) == Lookup(t.actual, f) {
        LookupFinds(t.expected, f);
        LookupFinds(t.actual, f);
      }
    } else if Agree(t.expected, t.actual) {
      EqualSidesReportNothing(t);
    }
  }

  lemma EqualSidesReportNothing(t: Tenant)
    requires Distinct(t.expected) && Distinct(t.actual)
    requires Agree(t.expected, t.actual)
    ensures IssuesOf(t) == []
  {
    forall i | 0 <= i < |t.expected| ensures t.expected[i].amount == Lookup(t.actual, t.expected[i].feature) {
      LookupFinds(t.expected, t.expected[i].feature);
    }
    NoComparedIff(t.id, t.expected, t.actual);
    forall i | 0 <= i < |t.actual| ensures Has(t.expected, t.actual[i].feature) || t.actual[i].amount <= 0 {
      LookupFinds(t.expected, t.actual[i].feature);
      LookupFinds(t.actual, t.actual[i].feature);
    }
    NoPhantomsIff(t.id, t.expected, t.actual);
  }

  // ----- several aggregate rows of one feature -----

  /** What the rows of a feature hold together. */
  function SumOf(rows: seq<Row>, feature: string): int {
    if rows == [] then 0
    else
      var last := rows[|rows| - 1];
      SumOf(rows[..|rows| - 1], feature) + if last.feature == feature then last.amount else 0
  }

  /** Only the last row of the feature may hold anything. */
  predicate LastCounts(rows: seq<Row>, feature: string) {
    forall i, j | 0 <= i < j < |rows| && rows[i].feature == feature && rows[j].feature == feature :: rows[i].amount == 0
  }

  predicate AllZero(rows: seq<Row>, feature: string) {
    forall i | 0 <= i < |rows| && rows[i].feature == feature :: rows[i].amount == 0
  }

  lemma {:induction false} SumIsZeroIff(rows: seq<Row>, feature: string)
    requires NonNegative(rows)
    ensures 0 <= SumOf(rows, feature)
    ensures SumOf(rows, feature) == 0 <==> AllZero(rows, feature)
  {
    if rows != [] {
      var front := rows[..|rows| - 1];
      assert forall i | 0 <= i < |front| :: front[i] == rows[i];
      SumIsZeroIff(front, feature);
    }
  }

  /** The Map keeps the whole amount of a feature exactly when all its rows before the last are zero. */
  lemma {:induction false} LookupIsSumIff(rows: seq<Row>, feature: string)
    requires NonNegative(rows)
    ensures Lookup(rows, feature) == SumOf(rows, feature) <==> LastCounts(rows, feature)
  {
    if rows != [] {
      var front, last := rows[..|rows| - 1], |rows| - 1;
      assert forall i | 0 <= i < |front| :: front[i] == rows[i];
      LookupIsSumIff(front, feature);
      SumIsZeroIff(front, feature);
      if rows[last].feature == feature {
        assert AllZero(front, feature) ==> LastCounts(rows, feature);
        assert LastCounts(rows, feature) ==> AllZero(front, feature) by {
          assert forall i | 0 <= i < |front| && front[i].feature == feature :: rows[i].feature == rows[last].feature;
        }
      } else {
        assert LastCounts(rows, feature) <==> LastCounts(front, feature);
      }
    }
  }

  predicate Reported(issues: seq<Issue>, feature: string) {
    exists i | 0 <= i < |issues| :: issues[i].feature == feature
  }

  lemma ReportedConcat(a: seq<Issue>, b: seq<Issue>, feature: string)
    ensures Reported(a + b, feature) <==> Reported(a, feature) || Reported(b, feature)
  {
    if i :| 0 <= i < |a| && a[i].feature == feature {
      assert (a + b)[i] == a[i];
    }
    if i :| 0 <= i < |b| && b[i].feature == feature {
      assert (a + b)[|a| + i] == b[i];
    }
  }

  lemma {:induction false} ComparedReports(tenant: nat, expected: seq<Row>, actual: seq<Row>, feature: string)
    requires Distinct(expected)
    ensures Reported(Compared(tenant, expected, actual), feature)
       <==> Has(expected, feature) && Lookup(expected, feature) != Lookup(actual, feature)
  {
    if expected != [] {
      var front, row := expected[..|expected| - 1], expected[|expected| - 1];
      assert forall i | 0 <= i < |front| :: front[i] == expected[i];
      ComparedReports(tenant, front, actual, feature);
      var found := Lookup(actual, row.feature);
      var issue := Issue(tenant, row.feature, row.amount, found, row.amount - found);
      ReportedConcat(Compared(tenant, front, actual), if row.amount != found then [issue] else [], feature);
      OneReported(issue, feature);
      HasLast(expected, feature);
    }
  }

  lemma OneReported(issue: Issue, feature: string)
    ensures Reported([issue], feature) <==> issue.feature == feature
  {
    assert [issue][0] == issue;
  }

  lemma HasLast(rows: seq<Row>, feature: string)
    requires rows != []
    ensures Has(rows, feature) <==> Has(rows[..|rows| - 1], feature) || rows[|rows| - 1].feature == feature
  {
    var front := rows[..|rows| - 1];
    if i :| 0 <= i < |front| && front[i].feature == feature {
      assert rows[i] == front[i];
    }
  }

  lemma {:induction false} PhantomsReport(tenant: nat, expected: seq<Row>, actual: seq<Row>, feature: string)
    requires NonNegative(actual)
    ensures Reported(Phantoms(tenant, expected, actual), feature) <==> !Has(expected, feature) && 0 < SumOf(actual, feature)
  {
    if actual != [] {
      var front, agg := actual[..|actual| - 1], actual[|actual| - 1];
      PhantomsReport(tenant, expected, front, feature);
      SumIsZeroIff(front, feature);
      var issue := Issue(tenant, agg.feature, 0, agg.amount, -agg.amount);
      ReportedConcat(Phantoms(tenant, expected, front),
                     if !Has(expected, agg.feature) && agg.amount > 0 then [issue] else [], feature);
      OneReported(issue, feature);
    }
  }

  /** The verdict on a feature, on any tables: an expected feature is held against its last aggregate row, any
      other against the sum of its rows. */
  lemma Verdict(t: Tenant, feature: string)
    requires Distinct(t.expected) && NonNegative(t.actual)
    ensures Reported(IssuesOf(t), feature) <==>
            if Has(t.expected, feature) then Lookup(t.expected, feature) != Lookup(t.actual, feature)
            else 0 < SumOf(t.actual, feature)
  {
    ReportedConcat(Compared(t.id, t.expected, t.actual), Phantoms(t.id, t.expected, t.actual), feature);
    ComparedReports(t.id, t.expected, t.actual, feature);
    PhantomsReport(t.id, t.expected, t.actual, feature);
  }

  /** The report is right about the feature: there is an issue exactly if events and aggregates differ. */
  predicate RightAbout(t: Tenant, feature: string) {
    Reported(IssuesOf(t), feature) <==> Lookup(t.expected, feature) != SumOf(t.actual, feature)
  }

  /** A feature is judged rightly whatever the events say exactly when its aggregate rows before the last hold
      nothing. */
  lemma RepeatedFeatureIsMisjudgedIff(tenant: nat, actual: seq<Row>, feature: string)
    requires NonNegative(actual)
    ensures LastCounts(actual, feature) <==>
            forall expected | Distinct(expected) :: RightAbout(Tenant(tenant, expected, actual), feature)
  {
    hide IssuesOf, Reported;
    LookupIsSumIff(actual, feature);
    if LastCounts(actual, feature) {
      forall expected | Distinct(expected) ensures RightAbout(Tenant(tenant, expected, actual), feature) {
        Verdict(Tenant(tenant, expected, actual), feature);
        LookupFinds(expected, feature);
        SumIsZeroIff(actual, feature);
      }
    } else {
      var seeming := [Row(feature, Lookup(actual, feature))];
      assert Distinct(seeming) && Has(seeming, feature) by { assert seeming[0].feature == feature; }
      Verdict(Tenant(tenant, seeming, actual), feature);
      assert !RightAbout(Tenant(tenant, seeming, actual), feature);
    }
  }

  /** And a given tenant is misjudged exactly when such a feature is expected to hold its last row or its sum:
      the first hides a difference, the second reports one that is not there. */
  lemma MisjudgedIff(t: Tenant, feature: string)
    requires Distinct(t.expected) && NonNegative(t.actual)
    ensures !RightAbout(t, feature) <==>
            && !LastCounts(t.actual, feature) && Has(t.expected, feature)
            && Lookup(t.expected, feature) in {Lookup(t.actual, feature), SumOf(t.actual, feature)}
  {
    hide IssuesOf, Reported;
    Verdict(t, feature);
    LookupIsSumIff(t.actual, feature);
    LookupFinds(t.expected, feature);
    SumIsZeroIff(t.actual, feature);
  }

  /** Both happen: rows of 3 and 4 against an expected 7 are reported, against an expected 4 they are not. */
  lemma RepeatedFeatureIsMisjudged()
    ensures var actual := [Row("f", 3), Row("f", 4)];
            && !RightAbout(Tenant(0, [Row("f", 7)], actual), "f") && Reported(IssuesOf(Tenant(0, [Row("f", 7)], actual)), "f")
            && !RightAbout(Tenant(0, [Row("f", 4)], actual), "f") && IssuesOf(Tenant(0, [Row("f", 4)], actual)) == []
  {
    hide IssuesOf, Reported;
    var actual := [Row("f", 3), Row("f", 4)];
    assert actual[..1] == [Row("f", 3)] && actual[..1][..0] == [];
    assert Lookup(actual, "f") == 4 && SumOf(actual[..1], "f") == 3 && SumOf(actual, "f") == 7;
    assert actual[0].feature == actual[1].feature && !LastCounts(actual, "f");
    var all, last := Tenant(0, [Row("f", 7)], actual), Tenant(0, [Row("f", 4)], actual);
    assert all.expected[0].feature == "f" && last.expected[0].feature == "f";
    assert Has(all.expected, "f") && Has(last.expected, "f");
    MisjudgedIff(all, "f");
    MisjudgedIff(last, "f");
    Verdict(all, "f");
    NothingReported(last);
  }

  lemma NothingReported(t: Tenant)
    requires forall i | 0 <= i < |t.expected| :: t.expected[i].amount == Lookup(t.actual, t.expected[i].feature)
    requires forall i | 0 <= i < |t.actual| :: Has(t.expected, t.actual[i].feature)
    ensures IssuesOf(t) == []
  {
    NoComparedIff(t.id, t.expected, t.actual);
    NoPhantomsIff(t.id, t.expected, t.actual);
  }

  // ----- the reported differences add up -----

  function Total(rows: seq<Row>): int {
    if rows == [] then 0 else Total(rows[..|rows| - 1]) + rows[|rows| - 1].amount
  }

  function TotalDifference(issues: seq<Issue>): int {
    if issues == [] then 0 else TotalDifference(issues[..|issues| - 1]) + issues[|issues| - 1].difference
  }

  lemma {:induction false} DifferenceConcat(a: seq<Issue>, b: seq<Issue>)
    ensures TotalDifference(a + b) == TotalDifference(a) + TotalDifference(b)
  {
    if b == [] {
      assert a + b == a;
    } else {
      DifferenceConcat(a, b[..|b| - 1]);
      assert (a + b)[..|a + b| - 1] == a + b[..|b| - 1];
    }
  }

  /** What the aggregates hold for the expected features, looked up one by one. */
  function LookedUp(expected: seq<Row>, actual: seq<Row>): int {
    if expected == [] then 0
    else LookedUp(expected[..|expected| - 1], actual) + Lookup(actual, expected[|expected| - 1].feature)
  }

  /** What the aggregates hold for features that no event mentions. */
  function Unmatched(expected: seq<Row>, actual: seq<Row>): int {
    if actual == [] then 0
    else
      var agg := actual[|actual| - 1];
      Unmatched(expected, actual[..|actual| - 1]) + if Has(expected, agg.feature) then 0 else agg.amount
  }

  lemma {:induction false} ComparedDifference(tenant: nat, expected: seq<Row>, actual: seq<Row>)
    ensures TotalDifference(Compared(tenant, expected, actual)) == Total(expected) - LookedUp(expected, actual)
  {
    if expected != [] {
      var front, row := expected[..|expected| - 1], expected[|expected| - 1];
      ComparedDifference(tenant, front, actual);
      var found := Lookup(actual, row.feature);
      if row.amount != found {
        DifferencePush(Compared(tenant, front, actual), Issue(tenant, row.feature, row.amount, found, row.amount - found));
      } else {
        assert Compared(tenant, front, actual) + [] == Compared(tenant, front, actual);
      }
    }
  }

  lemma DifferencePush(issues: seq<Issue>, issue: Issue)
    ensures TotalDifference(issues + [issue]) == TotalDifference(issues) + issue.difference
  {
    assert (issues + [issue])[..|issues|] == issues;
  }

  lemma {:induction false} PhantomDifference(tenant: nat, expected: seq<Row>, actual: seq<Row>)
    requires NonNegative(actual)
    ensures TotalDifference(Phantoms(tenant, expected, actual)) == -Unmatched(expected, actual)
  {
    if actual != [] {
      var front, agg := actual[..|actual| - 1], actual[|actual| - 1];
      PhantomDifference(tenant, expected, front);
      if !Has(expected, agg.feature) && agg.amount > 0 {
        DifferencePush(Phantoms(tenant, expected, front), Issue(tenant, agg.feature, 0, agg.amount, -agg.amount));
      } else {
        assert Phantoms(tenant, expected, front) + [] == Phantoms(tenant, expected, front);
      }
    }
  }

  lemma {:induction false} LookedUpPush(expected: seq<Row>, actual: seq<Row>, agg: Row)
    requires Distinct(expected) && Lookup(actual, agg.feature) == 0
    ensures LookedUp(expected, actual + [agg])
         == LookedUp(expected, actual) + if Has(expected, agg.feature) then agg.amount else 0
  {
    if expected != [] {
      var front, row := expected[..|expected| - 1], expected[|expected| - 1];
      LookedUpPush(front, actual, agg);
      assert (actual + [agg])[..|actual|] == actual;
      assert row.feature == agg.feature ==> expected[|expected| - 1].feature == agg.feature && !Has(front, agg.feature);
      assert Has(front, agg.feature) ==> Has(expected, agg.feature) by {
        if i :| 0 <= i < |front| && front[i].feature == agg.feature {
          assert expected[i].feature == agg.feature;
        }
      }
    }
  }

  lemma {:induction false} EveryAggregateIsSeen(expected: seq<Row>, actual: seq<Row>)
    requires Distinct(expected) && Distinct(actual)
    ensures LookedUp(expected, actual) + Unmatched(expected, actual) == Total(actual)
  {
    if actual == [] {
      LookedUpNothing(expected);
    } else {
      var front, agg := actual[..|actual| - 1], actual[|actual| - 1];
      EveryAggregateIsSeen(expected, front);
      LookupFinds(front, agg.feature);
      LookedUpPush(expected, front, agg);
      assert front + [agg] == actual;
    }
  }

  lemma {:induction false} LookedUpNothing(expected: seq<Row>)
    ensures LookedUp(expected, []) == 0
  {
    if expected != [] {
      LookedUpNothing(expected[..|expected| - 1]);
    }
  }

  /** The differences reported for a tenant add up to what the events hold more than the aggregates. */
  lemma DifferencesAddUp(t: Tenant)
    requires Distinct(t.expected) && Distinct(t.actual) && NonNegative(t.actual)
    ensures TotalDifference(IssuesOf(t)) == Total(t.expected) - Total(t.actual)
  {
    DifferenceConcat(Compared(t.id, t.expected, t.actual), Phantoms(t.id, t.expected, t.actual));
    ComparedDifference(t.id, t.expected, t.actual);
    PhantomDifference(t.id, t.expected, t.actual);
    EveryAggregateIsSeen(t.expected, t.actual);
  }

  function Excess(tenants: seq<Tenant>): int {
    if tenants == [] then 0
    else
      var t := tenants[|tenants| - 1];
      Excess(tenants[..|tenants| - 1]) + Total(t.expected) - Total(t.actual)
  }

  /** And so over the whole run. */
  lemma {:induction false} RunDifferencesAddUp(tenants: seq<Tenant>)
    requires forall i | 0 <= i < |tenants| ::
      Distinct(tenants[i].expected) && Distinct(tenants[i].actual) && NonNegative(tenants[i].actual)
    ensures TotalDifference(AllIssues(tenants)) == Excess(tenants)
  {
    if tenants != [] {
      var front, t := tenants[..|tenants| - 1], tenants[|tenants| - 1];
      RunDifferencesAddUp(front);
      DifferencesAddUp(t);
      DifferenceConcat(AllIssues(front), IssuesOf(t));
    }
  }
}
