/** What the counter of a HARD quota knows of the usage in Postgres: where its seed comes from, when a request is
    granted, and when granted and aggregated usage together respect the limit. */
module HardUsage {
  import opened Wrappers
  import opened Sums
  import opened HardQuota

  // ----- one call -----

  const CALM := Weather(true, true, true)

  /** An undisturbed consume that finds the key, or seeds it, grants exactly what fits beside the usage that the key or,
      without a key, Postgres tells, and leaves the counter at the usage it has granted up to. */
  lemma SeededConsumeIff(s: State, c: nat, amount: nat, limit: int, w: Weather, again: Weather)
    requires PhaseOf(s, c).Idle? && (s.cell.Some? || w == CALM) && again.getOk
    ensures var s' := Run(s, ConsumeSteps(c, amount, w, true, again), limit);
      var usage := if s.cell.Some? then s.cell.value else s.aggregate;
      var granted := if usage + amount <= limit then amount else 0;
      && (Consume(s.cell, s.aggregate, amount, limit, w, true, again).1.Granted? <==> usage + amount <= limit)
      && s'.total == s.total + granted && s'.cell == Some(usage + granted)
  {
    hide Run, ConsumeSteps;
    ConsumeIsTheProtocol(s, c, amount, limit, w, true, again);
  }

  /** Without the script Postgres decides, and the counter does not learn of it. */
  lemma FallbackConsumeIff(s: State, c: nat, amount: nat, limit: int, w: Weather, again: Weather)
    requires PhaseOf(s, c).Idle?
    ensures var s' := Run(s, ConsumeSteps(c, amount, w, false, again), limit);
      && s'.total == s.total + (if s.aggregate + amount <= limit then amount else 0)
      && (s'.cell == s.cell || (s.cell.None? && s'.cell == Some(s.aggregate)))
  {
    hide Run, ConsumeSteps;
    ConsumeIsTheProtocol(s, c, amount, limit, w, false, again);
  }

  /** On a missing key the script's verdict is the one that the usage in Postgres calls for, for every amount, exactly if
      the key can be seeded or there is no usage: a failed seeding makes the script count from zero. */
  lemma VerdictFollowsPostgresIff(aggregate: nat, limit: nat, w: Weather, again: Weather)
    requires again.queryOk
    ensures (forall amount: Amount ::
               Consume(None, aggregate, amount, limit, w, true, again).1.Granted? <==> aggregate + amount <= limit)
            <==> w == CALM || aggregate == 0 || limit == 0
  {
    if w != CALM && aggregate > 0 && limit > 0 {
      assert Consume(None, aggregate, limit, limit, w, true, again).1.Granted?;
    }
  }

  // ----- where the seed of an epoch comes from -----

  function At(usage: nat, actions: seq<Action>, limit: int, i: nat): State
    requires i <= |actions|
  {
    Run(Cold(usage), actions[..i], limit)
  }

  /** Step j is a query of the client, it finds the value in Postgres, and up to step i the client holds it. */
  predicate Holds(usage: nat, actions: seq<Action>, limit: int, c: nat, value: nat, j: nat, i: nat) {
    && j < i <= |actions| && actions[j] == Query(c) && At(usage, actions, limit, j).aggregate == value
    && forall k | j < k <= i :: var phase := PhaseOf(At(usage, actions, limit, k), c); phase.Fetched? && phase.value == value
  }

  lemma AtPrefix(usage: nat, actions: seq<Action>, limit: int, i: nat)
    requires i < |actions|
    ensures At(usage, actions, limit, i) == At(usage, actions[..|actions| - 1], limit, i)
    ensures At(usage, actions, limit, i + 1) == Step(At(usage, actions, limit, i), actions[i], limit)
    ensures At(usage, actions, limit, |actions|) == Run(Cold(usage), actions, limit)
  {
    hide Step;
    assert actions[..i] == actions[..|actions| - 1][..i] && actions[..i + 1][..i] == actions[..i];
    assert actions[..|actions|] == actions;
  }

  /** What a client is about to write is the aggregate as it was at the client's own query. */
  lemma {:induction false} FetchedIsAggregate(usage: nat, actions: seq<Action>, limit: int, c: nat, i: nat) returns (j: nat)
    requires i <= |actions| && PhaseOf(At(usage, actions, limit, i), c).Fetched?
    ensures Holds(usage, actions, limit, c, PhaseOf(At(usage, actions, limit, i), c).value, j, i)
  {
    hide Run, Lua;
    assert i > 0 by { NobodyAtWork(usage, actions, limit); }
    AtPrefix(usage, actions, limit, i - 1);
    var before := At(usage, actions, limit, i - 1);
    if PhaseOf(before, c).Fetched? {
      j := FetchedIsAggregate(usage, actions, limit, c, i - 1);
    } else {
      j := i - 1;
    }
  }

  lemma NobodyAtWork(usage: nat, actions: seq<Action>, limit: int)
    ensures At(usage, actions, limit, 0) == Cold(usage)
  {
    assert actions[..0] == [];
  }

  predicate SetsAt(usage: nat, actions: seq<Action>, limit: int, i: nat) {
    i < |actions| && actions[i].Set? && PhaseOf(At(usage, actions, limit, i), actions[i].client).Fetched?
  }

  /** Step i is the last SET, no expiry follows up to step n, and it writes what its client found in step j. */
  ghost predicate SeededBy(usage: nat, actions: seq<Action>, limit: int, n: nat, i: nat, j: nat, seed: nat) {
    && i < n <= |actions| && SetsAt(usage, actions, limit, i)
    && Holds(usage, actions, limit, actions[i].client, seed, j, i)
    && forall k | i < k < n :: !SetsAt(usage, actions, limit, k) && !actions[k].Expire?
  }

  /** Every SET before step n has been followed by an expiry. */
  predicate Unseeded(usage: nat, actions: seq<Action>, limit: int, n: nat)
    requires n <= |actions|
  {
    forall i: nat | i < n && SetsAt(usage, actions, limit, i) :: exists k | i < k < n :: actions[k].Expire?
  }

  lemma SetsThere(usage: nat, actions: seq<Action>, limit: int, i: nat)
    requires i < |actions|
    ensures SetsAt(usage, actions, limit, i)
       <==> actions[i].Set? && PhaseOf(At(usage, actions, limit, i), actions[i].client).Fetched?
  {
  }

  /** A step that neither sets nor expires the key leaves the origin of the seed as it is. */
  lemma StaysSeeded(usage: nat, actions: seq<Action>, limit: int, n: nat, seed: nat)
    requires 0 < n <= |actions| && !SetsAt(usage, actions, limit, n - 1) && !actions[n - 1].Expire?
    requires var m := n - 1;
      (exists i, j :: SeededBy(usage, actions, limit, m, i, j, seed)) || (seed == 0 && Unseeded(usage, actions, limit, m))
    ensures (exists i, j :: SeededBy(usage, actions, limit, n, i, j, seed)) || (seed == 0 && Unseeded(usage, actions, limit, n))
  {
    hide Holds, SetsAt;
    var m := n - 1;
    if i, j :| SeededBy(usage, actions, limit, m, i, j, seed) {
      assert SeededBy(usage, actions, limit, n, i, j, seed);
    } else {
      assert Unseeded(usage, actions, limit, n);
    }
  }

  /** The seed of an epoch is the aggregate as it was when the client that set the key queried it; without a SET since
      the last expiry the epoch counts from zero. */
  lemma {:induction false} SeedIsAggregate(usage: nat, actions: seq<Action>, limit: int, n: nat)
    requires n <= |actions|
    ensures var seed := At(usage, actions, limit, n).epoch.seed;
      (exists i, j :: SeededBy(usage, actions, limit, n, i, j, seed)) || (seed == 0 && Unseeded(usage, actions, limit, n))
  {
    hide Run, Lua, Holds, At, SetsAt;
    NobodyAtWork(usage, actions, limit);
    if n > 0 {
      SetsThere(usage, actions, limit, n - 1);
      SeedIsAggregate(usage, actions, limit, n - 1);
      AtPrefix(usage, actions, limit, n - 1);
      var before, a := At(usage, actions, limit, n - 1), actions[n - 1];
      var seed := before.epoch.seed;
      if SetsAt(usage, actions, limit, n - 1) {
        var j := FetchedIsAggregate(usage, actions, limit, a.client, n - 1);
        assert SeededBy(usage, actions, limit, n, n - 1, j, At(usage, actions, limit, n).epoch.seed);
      } else if a.Expire? {
        assert Unseeded(usage, actions, limit, n);
      } else {
        assert At(usage, actions, limit, n).epoch.seed == seed;
        StaysSeeded(usage, actions, limit, n, seed);
      }
    }
  }

  // ----- granted and aggregated usage together -----

  /** What is granted and what Postgres holds fit the limit, but for what the aggregator has not mirrored yet. */
  ghost predicate Fits(s: State, limit: int) {
    s.aggregate + s.total <= limit + BagSum(s.unmirrored)
  }

  /** Every grant of the run leaves it so. */
  ghost predicate GrantsFit(usage: nat, actions: seq<Action>, limit: int) {
    forall i | 0 <= i < |actions| ::
      At(usage, actions, limit, i).total < At(usage, actions, limit, i + 1).total ==> Fits(At(usage, actions, limit, i + 1), limit)
  }

  /** Without a key nothing was granted; with one the counter and what is still to be mirrored cover the usage, or the
      aggregator has created the key and nothing fits beside it. */
  ghost predicate Accounts(usage: nat, s: State, limit: int) {
    if s.cell.None? then s.total == 0 && s.aggregate == usage + BagSum(s.unmirrored)
    else s.aggregate + s.total <= s.cell.value + BagSum(s.unmirrored) || (limit <= s.cell.value && s.total == 0)
  }

  /** A client that is about to set a missing key has seen all that was mirrored. */
  predicate SeenMirrored(usage: nat, s: State) {
    s.cell.None? ==> forall c | c in s.phases && s.phases[c].Fetched? :: usage <= s.phases[c].value
  }

  ghost predicate Books(usage: nat, s: State, limit: int) { Accounts(usage, s, limit) && SeenMirrored(usage, s) }

  /** Nothing forgets grants, and the aggregator creates a key only where it fills the quota. */
  predicate Harmless(allowed: set<Disturbance>, limit: nat) {
    allowed == {} || (limit == 1 && allowed == {UnseededMirror})
  }

  lemma StepKeepsAccounts(usage: nat, s: State, a: Action, allowed: set<Disturbance>, limit: nat)
    requires Accounts(usage, s, limit) && Harmless(allowed, limit) && Allows(allowed, Disturbs(s, a, limit))
    requires a.Set? && s.cell.None? && PhaseOf(s, a.client).Fetched? ==> usage <= PhaseOf(s, a.client).value
    ensures var s' := Step(s, a, limit);
      Accounts(usage, s', limit) && (s.total < s'.total ==> Fits(s', limit))
  {
    if a.Upsert? || a.Mirror? {
      AggregatorKeepsAccounts(usage, s, a, allowed, limit);
    } else {
      ClientKeepsAccounts(usage, s, a, allowed, limit);
    }
  }

  lemma AggregatorKeepsAccounts(usage: nat, s: State, a: Action, allowed: set<Disturbance>, limit: nat)
    requires Accounts(usage, s, limit) && Harmless(allowed, limit) && Allows(allowed, Disturbs(s, a, limit))
    requires a.Upsert? || a.Mirror?
    ensures Accounts(usage, Step(s, a, limit), limit) && Step(s, a, limit).total == s.total
  {
    if a.Upsert? {
      BagSumPut(s.unmirrored, a.added);
    } else if a.added in s.unmirrored {
      BagSumTake(s.unmirrored, a.added);
    }
  }

  lemma ClientKeepsAccounts(usage: nat, s: State, a: Action, allowed: set<Disturbance>, limit: nat)
    requires Accounts(usage, s, limit) && Harmless(allowed, limit) && Allows(allowed, Disturbs(s, a, limit))
    requires a.Set? && s.cell.None? && PhaseOf(s, a.client).Fetched? ==> usage <= PhaseOf(s, a.client).value
    requires !a.Upsert? && !a.Mirror?
    ensures var s' := Step(s, a, limit);
      Accounts(usage, s', limit) && (s.total < s'.total ==> Fits(s', limit))
  {
    hide Done, MayRead;
  }

  /** Only a query changes what clients are about to write, and only an expiry removes the key. */
  lemma HeldBefore(s: State, a: Action, limit: int, c: nat)
    requires var s' := Step(s, a, limit); c in s'.phases && s'.phases[c].Fetched?
    ensures var value := Step(s, a, limit).phases[c].value;
      (c in s.phases && s.phases[c].Fetched? && s.phases[c].value == value) || (a == Query(c) && value == s.aggregate)
  {
    hide Lua;
  }

  lemma KeyBefore(s: State, a: Action, limit: int)
    requires Step(s, a, limit).cell.None?
    ensures s.cell.None? || Disturbs(s, a, limit) == Some(Expiry)
  {
    hide PhaseOf;
  }

  lemma StepKeepsBooks(usage: nat, s: State, a: Action, allowed: set<Disturbance>, limit: nat)
    requires Books(usage, s, limit) && Harmless(allowed, limit) && Allows(allowed, Disturbs(s, a, limit))
    ensures var s' := Step(s, a, limit);
      Books(usage, s', limit) && (s.total < s'.total ==> Fits(s', limit))
  {
    hide Step, Fits, Disturbs;
    var s' := Step(s, a, limit);
    StepKeepsAccounts(usage, s, a, allowed, limit);
    if s'.cell.None? {
      KeyBefore(s, a, limit);
      forall c | c in s'.phases && s'.phases[c].Fetched? ensures usage <= s'.phases[c].value {
        HeldBefore(s, a, limit, c);
      }
    }
  }

  lemma {:induction false} RunKeepsBooks(usage: nat, actions: seq<Action>, allowed: set<Disturbance>, limit: nat)
    requires Only(Cold(usage), actions, allowed, limit) && Harmless(allowed, limit)
    ensures Books(usage, Run(Cold(usage), actions, limit), limit) && GrantsFit(usage, actions, limit)
  {
    hide Only, Step, Books, Fits, At, Allows, Disturbs;
    if actions == [] {
      ColdBooks(usage, limit);
      NobodyAtWork(usage, actions, limit);
    } else {
      var front, last := actions[..|actions| - 1], |actions| - 1;
      OnlyFront(Cold(usage), actions, allowed, limit);
      RunKeepsBooks(usage, front, allowed, limit);
      StepKeepsBooks(usage, Run(Cold(usage), front, limit), actions[last], allowed, limit);
      GrantsFitPush(usage, actions, limit);
    }
  }

  lemma ColdBooks(usage: nat, limit: int)
    ensures Books(usage, Cold(usage), limit)
  {
  }

  lemma GrantsFitPush(usage: nat, actions: seq<Action>, limit: int)
    requires actions != [] && GrantsFit(usage, actions[..|actions| - 1], limit)
    requires var s, s' := Run(Cold(usage), actions[..|actions| - 1], limit), Run(Cold(usage), actions, limit);
      s.total < s'.total ==> Fits(s', limit)
    ensures GrantsFit(usage, actions, limit)
  {
    hide Step, Fits, Run;
    forall i | 0 <= i < |actions| && At(usage, actions, limit, i).total < At(usage, actions, limit, i + 1).total
      ensures Fits(At(usage, actions, limit, i + 1), limit)
    {
      AtPrefix(usage, actions, limit, i);
      if i + 1 < |actions| {
        AtPrefix(usage, actions, limit, i + 1);
      }
    }
  }

  /** A run whose grants come to more than the limit while Postgres holds and mirrors nothing has a grant too many. */
  lemma {:induction false} OneGrantTooMany(actions: seq<Action>, limit: nat)
    requires Run(START, actions, limit).total > limit && Run(START, actions, limit).aggregate == 0
    ensures !GrantsFit(0, actions, limit)
  {
    hide Step;
    var front, last := actions[..|actions| - 1], |actions| - 1;
    var s := Run(START, front, limit);
    UpsertsWait(s, actions[last], limit);
    if s.total > limit {
      OneGrantTooMany(front, limit);
      var i :| 0 <= i < |front| && At(0, front, limit, i).total < At(0, front, limit, i + 1).total
               && !Fits(At(0, front, limit, i + 1), limit);
      AtPrefix(0, actions, limit, i);
      AtPrefix(0, actions, limit, i + 1);
      assert !Fits(At(0, actions, limit, i + 1), limit);
    } else {
      AtPrefix(0, actions, limit, last);
      NothingUnmirrored(actions, limit);
      assert !Fits(Run(START, actions, limit), limit);
      LastBreaks(0, actions, limit);
    }
  }

  lemma {:induction false} NothingUnmirrored(actions: seq<Action>, limit: int)
    requires Run(START, actions, limit).aggregate == 0
    ensures Run(START, actions, limit).unmirrored == multiset{}
  {
    hide Step;
    if actions != [] {
      UpsertsWait(Run(START, actions[..|actions| - 1], limit), actions[|actions| - 1], limit);
      NothingUnmirrored(actions[..|actions| - 1], limit);
    }
  }

  lemma UpsertsWait(s: State, a: Action, limit: int)
    ensures var s' := Step(s, a, limit);
      s.aggregate <= s'.aggregate && (s'.aggregate == s.aggregate ==> s'.unmirrored <= s.unmirrored)
  {
    hide Lua, PhaseOf;
  }

  /** A seeding that fails lets the script grant the whole limit beside a full aggregate. */
  lemma UnseededGrantBreaks(allowed: set<Disturbance>, limit: nat) returns (actions: seq<Action>)
    requires UnseededGrant in allowed && limit > 0
    ensures Only(Cold(limit), actions, allowed, limit) && !GrantsFit(limit, actions, limit)
  {
    hide Run, Only;
    var s := Cold(limit);
    NothingRun(limit, allowed, limit);
    actions, s := Take(Cold(limit), [], s, GetFails(1, Consuming), allowed, limit);
    actions, s := Take(Cold(limit), actions, s, Eval(1, limit), allowed, limit);
    LastBreaks(limit, actions, limit);
  }

  /** So does a key that the aggregator has created. */
  lemma UnseededMirrorBreaks(allowed: set<Disturbance>, limit: nat) returns (actions: seq<Action>)
    requires UnseededMirror in allowed && limit > 1
    ensures Only(Cold(limit), actions, allowed, limit) && !GrantsFit(limit, actions, limit)
  {
    hide Run, Only;
    var s := Cold(limit);
    NothingRun(limit, allowed, limit);
    actions, s := Take(Cold(limit), [], s, Upsert(1), allowed, limit);
    actions, s := Take(Cold(limit), actions, s, Mirror(1), allowed, limit);
    actions, s := Take(Cold(limit), actions, s, Get(1, Consuming), allowed, limit);
    actions, s := Take(Cold(limit), actions, s, Eval(1, limit - 1), allowed, limit);
    LastBreaks(limit, actions, limit);
  }

  lemma NothingRun(usage: nat, allowed: set<Disturbance>, limit: int)
    ensures Only(Cold(usage), [], allowed, limit) && Run(Cold(usage), [], limit) == Cold(usage)
  {
  }

  lemma LastBreaks(usage: nat, actions: seq<Action>, limit: int)
    requires actions != []
    requires var s, s' := Run(Cold(usage), actions[..|actions| - 1], limit), Run(Cold(usage), actions, limit);
      s.total < s'.total && !Fits(s', limit)
    ensures !GrantsFit(usage, actions, limit)
  {
    hide Step, Fits, Run;
    AtPrefix(usage, actions, limit, |actions| - 1);
    assert At(usage, actions, limit, |actions| - 1).total < At(usage, actions, limit, |actions|).total;
  }

  /** Every grant respects the usage in Postgres, whatever that is, but for what is not mirrored yet, over every run exactly
      if the counter lives, is never overwritten, is created by a seeding, and Postgres never grants. A key created by
      the aggregator does no harm to a limit of one, which it fills. */
  lemma GrantsRespectUsageIff(allowed: set<Disturbance>, limit: nat)
    ensures (forall usage, actions | Only(Cold(usage), actions, allowed, limit) :: GrantsFit(usage, actions, limit))
            <==> Harmless(allowed, limit) || limit == 0
  {
    hide Run, Only, GrantsFit;
    if Harmless(allowed, limit) {
      forall usage, actions | Only(Cold(usage), actions, allowed, limit) ensures GrantsFit(usage, actions, limit) {
        RunKeepsBooks(usage, actions, allowed, limit);
      }
    } else if limit == 0 {
      forall usage, actions ensures GrantsFit(usage, actions, limit) {
        NothingIsGranted(usage, actions);
      }
    } else if d :| d in allowed * FORGETTING {
      var twice := OverGrantingRun(allowed, d, 2, limit);
      OneGrantTooMany(twice, limit);
      assert Only(Cold(0), twice, allowed, limit) && !GrantsFit(0, twice, limit);
    } else if UnseededGrant in allowed {
      var actions := UnseededGrantBreaks(allowed, limit);
    } else {
      assert allowed == {UnseededMirror} by {
        forall d | d in allowed ensures d == UnseededMirror {
          assert d !in allowed * FORGETTING && d !in FORGETTING && d != UnseededGrant;
        }
      }
      var actions := UnseededMirrorBreaks(allowed, limit);
    }
  }

  lemma NothingIsGranted(usage: nat, actions: seq<Action>)
    ensures GrantsFit(usage, actions, 0)
  {
    hide Run;
    forall i | 0 <= i <= |actions| ensures At(usage, actions, 0, i).total == 0 {
      NothingFitsALimitOfZero(usage, actions[..i]);
    }
  }

  // ----- the counter exactly -----

  /** This much waited to be mirrored at some query of the run. */
  ghost predicate Waited(usage: nat, actions: seq<Action>, limit: int, sum: int) {
    exists j | 0 <= j < |actions| :: actions[j].Query? && BagSum(At(usage, actions, limit, j).unmirrored) == sum
  }

  ghost function WaitedSums(usage: nat, actions: seq<Action>, limit: int): iset<int> {
    iset sum | Waited(usage, actions, limit, sum)
  }

  /** How much the counter, with what waits to be mirrored, is above the usage. */
  ghost function Surplus(s: State): int {
    Counter(s.cell) + BagSum(s.unmirrored) - s.aggregate - s.total
  }

  /** Once the key is set, what waited at a query is counted twice. */
  ghost predicate ExactAccounts(usage: nat, s: State, sums: iset<int>) {
    if s.cell.None? then s.total == 0 && s.aggregate == usage + BagSum(s.unmirrored) else Surplus(s) in sums
  }

  /** A client that is about to set a missing key holds what was mirrored and what waited to be mirrored at a query. */
  ghost predicate HoldsSums(usage: nat, s: State, sums: iset<int>) {
    s.cell.None? ==> forall c | c in s.phases && s.phases[c].Fetched? :: s.phases[c].value - usage in sums
  }

  ghost predicate Exact(usage: nat, s: State, sums: iset<int>) { ExactAccounts(usage, s, sums) && HoldsSums(usage, s, sums) }

  /** Without a disturbance the surplus moves only when the key is set. */
  lemma SurplusStays(s: State, a: Action, limit: int)
    requires Disturbs(s, a, limit).None?
    ensures var s' := Step(s, a, limit);
      && (s.cell.Some? ==> s'.cell.Some?)
      && (s.cell.None? ==> s'.total == s.total && s'.aggregate - BagSum(s'.unmirrored) == s.aggregate - BagSum(s.unmirrored))
      && if s.cell.None? && s'.cell.Some? then a.Set? && PhaseOf(s, a.client).Fetched?
           && Surplus(s') == Surplus(s) + PhaseOf(s, a.client).value
         else Surplus(s') == Surplus(s)
  {
    if a.Upsert? {
      BagSumPut(s.unmirrored, a.added);
    } else if a.Mirror? && a.added in s.unmirrored {
      BagSumTake(s.unmirrored, a.added);
    }
  }

  lemma StepKeepsExactAccounts(usage: nat, s: State, a: Action, limit: int, sums: iset<int>)
    requires ExactAccounts(usage, s, sums) && Disturbs(s, a, limit).None?
    requires a.Set? && s.cell.None? && PhaseOf(s, a.client).Fetched? ==> PhaseOf(s, a.client).value - usage in sums
    ensures ExactAccounts(usage, Step(s, a, limit), sums)
  {
    hide Step, Disturbs;
    SurplusStays(s, a, limit);
  }

  lemma StepKeepsExact(usage: nat, s: State, a: Action, limit: int, sums: iset<int>, more: iset<int>)
    requires Exact(usage, s, sums) && Allows({}, Disturbs(s, a, limit))
    requires sums <= more && (a.Query? ==> BagSum(s.unmirrored) in more)
    ensures Exact(usage, Step(s, a, limit), more)
  {
    hide Step, Disturbs;
    StepKeepsExactAccounts(usage, s, a, limit, more);
    var s' := Step(s, a, limit);
    if s'.cell.None? {
      KeyBefore(s, a, limit);
      forall c | c in s'.phases && s'.phases[c].Fetched? ensures s'.phases[c].value - usage in more {
        HeldBefore(s, a, limit, c);
      }
    }
  }

  lemma WaitedStays(usage: nat, actions: seq<Action>, limit: int, sum: int)
    requires actions != [] && Waited(usage, actions[..|actions| - 1], limit, sum)
    ensures Waited(usage, actions, limit, sum)
  {
    hide Run;
    var front := actions[..|actions| - 1];
    var j :| 0 <= j < |front| && front[j].Query? && BagSum(At(usage, front, limit, j).unmirrored) == sum;
    AtPrefix(usage, actions, limit, j);
    assert actions[j].Query?;
  }

  lemma NowWaits(usage: nat, actions: seq<Action>, limit: int)
    requires actions != [] && actions[|actions| - 1].Query?
    ensures Waited(usage, actions, limit, BagSum(Run(Cold(usage), actions[..|actions| - 1], limit).unmirrored))
  {
    var last := |actions| - 1;
    assert BagSum(At(usage, actions, limit, last).unmirrored) == BagSum(Run(Cold(usage), actions[..last], limit).unmirrored);
  }

  lemma {:induction false} RunIsExact(usage: nat, actions: seq<Action>, limit: int)
    requires Only(Cold(usage), actions, {}, limit)
    ensures Exact(usage, Run(Cold(usage), actions, limit), WaitedSums(usage, actions, limit))
  {
    hide Only, Waited, Step, Exact, Disturbs;
    if actions == [] {
      ColdIsExact(usage, WaitedSums(usage, actions, limit));
    } else {
      var front, a := actions[..|actions| - 1], actions[|actions| - 1];
      OnlyFront(Cold(usage), actions, {}, limit);
      RunIsExact(usage, front, limit);
      forall sum | Waited(usage, front, limit, sum) ensures Waited(usage, actions, limit, sum) {
        WaitedStays(usage, actions, limit, sum);
      }
      if a.Query? {
        NowWaits(usage, actions, limit);
      }
      StepKeepsExact(usage, Run(Cold(usage), front, limit), a, limit, WaitedSums(usage, front, limit), WaitedSums(usage, actions, limit));
    }
  }

  lemma ColdIsExact(usage: nat, sums: iset<int>)
    ensures Exact(usage, Cold(usage), sums)
  {
  }

  /** Over every undisturbed run, once the key is there the script grants a request exactly if it fits beside the
      aggregate and the grants, less what is still to be mirrored, plus what waited to be mirrored at the seeding
      query; with nothing waiting then and now, exactly if it fits beside the usage. */
  lemma GrantedIffUsageFits(usage: nat, actions: seq<Action>, limit: int) returns (j: nat)
    requires Only(Cold(usage), actions, {}, limit) && Run(Cold(usage), actions, limit).cell.Some?
    ensures j < |actions| && actions[j].Query?
    ensures var s, twice := Run(Cold(usage), actions, limit), BagSum(At(usage, actions, limit, j).unmirrored);
      forall amount: nat :: Lua(s.cell, amount, limit).1 != BLOCKED
        <==> s.aggregate + s.total + amount - BagSum(s.unmirrored) + twice <= limit
  {
    hide Run, Only, At;
    RunIsExact(usage, actions, limit);
    var s := Run(Cold(usage), actions, limit);
    var sum := Surplus(s);
    j :| 0 <= j < |actions| && actions[j].Query? && BagSum(At(usage, actions, limit, j).unmirrored) == sum;
  }

  /** While Postgres stands still, usage that was within the limit stays within it. */
  lemma {:induction false} QuietUsageStaysWithinLimit(usage: nat, actions: seq<Action>, limit: nat)
    requires Only(Cold(usage), actions, {}, limit) && usage <= limit && forall i | 0 <= i < |actions| :: !actions[i].Upsert?
    ensures var s := Run(Cold(usage), actions, limit);
      s.aggregate == usage && s.unmirrored == multiset{} && s.aggregate + s.total <= limit
  {
    hide Only, Fits, Step, Books, Disturbs;
    if actions != [] {
      var front, last := actions[..|actions| - 1], |actions| - 1;
      assert forall i | 0 <= i < last :: front[i] == actions[i];
      OnlyFront(Cold(usage), actions, {}, limit);
      QuietUsageStaysWithinLimit(usage, front, limit);
      RunKeepsBooks(usage, front, {}, limit);
      StepKeepsBooks(usage, Run(Cold(usage), front, limit), actions[last], {}, limit);
      QuietStep(Run(Cold(usage), front, limit), actions[last], limit);
    }
  }

  lemma QuietStep(s: State, a: Action, limit: int)
    requires !a.Upsert? && s.unmirrored == multiset{}
    ensures var s' := Step(s, a, limit);
      s'.aggregate == s.aggregate && s'.unmirrored == multiset{} && (Fits(s', limit) <==> s'.aggregate + s'.total <= limit)
  {
    hide Lua;
  }
}
