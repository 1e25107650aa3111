/** The Redis counter behind a HARD quota. One key, any number of clients: `consume` and the read path
    seed a missing key from Postgres in separate GET, query and SET steps, the Lua script checks and
    increments in one step, the aggregator adds blindly, and the key may expire between any two steps. */
module HardQuota {
  import opened Wrappers

  // ----- the script -----

  function Counter(cell: Option<nat>): nat {
    if cell.Some? then cell.value else 0
  }

  const BLOCKED := -1

  function Lua(cell: Option<nat>, amount: nat, limit: int): (Option<nat>, int) {
    if Counter(cell) + amount > limit then (cell, BLOCKED)
    else (Some(Counter(cell) + amount), Counter(cell) + amount)
  }

  // ----- the protocol -----

  /** What an aggregated event adds. */
  type Amount = n: nat | 0 < n witness 1

  /** A client seeds the key inside `consume`, reads the usage after `consume` was refused, or just reads it. */
  datatype Purpose = Consuming | Reporting | Reading

  /** `Refused` is a consume that the script has turned down and that will read the usage for its message. */
  datatype Phase =
    | Idle
    | Missed(purpose: Purpose)
    | Fetched(value: nat, purpose: Purpose)
    | Seeded
    | Refused
    | Thrown

  /** History since the key was last set or missing. */
  datatype Epoch = Epoch(seed: nat, granted: nat, bumped: nat)

  /** `aggregate` is the usage in Postgres, `unmirrored` what the aggregator has added there and not yet in Redis;
      `total` is everything granted since the billing period began. A grant itself never reaches the aggregate:
      its event has no id and no feature and fails validation (module UsagePipeline). */
  datatype State = State(
    cell: Option<nat>, phases: map<nat, Phase>, epoch: Epoch, total: nat, aggregate: nat, unmirrored: multiset<nat>)

  datatype Action =
    | Get(client: nat, purpose: Purpose)
    | GetFails(client: nat, purpose: Purpose)
    | Query(client: nat)
    | QueryFails(client: nat)
    | Set(client: nat)
    | SetFails(client: nat)
    | Eval(client: nat, amount: nat)
    | Fallback(client: nat, amount: nat)
    | Upsert(added: Amount)
    | Mirror(added: Amount)
    | Expire

  function PhaseOf(s: State, client: nat): Phase {
    if client in s.phases then s.phases[client] else Idle
  }

  function Done(purpose: Purpose): Phase { if purpose.Consuming? then Seeded else Idle }

  predicate MayRead(s: State, client: nat, purpose: Purpose) {
    if purpose.Reporting? then PhaseOf(s, client).Refused? else PhaseOf(s, client).Idle?
  }

  function Move(s: State, client: nat, phase: Phase): State {
    s.(phases := s.phases[client := phase])
  }

  /** A step its client is not ready for changes nothing. */
  function Step(s: State, a: Action, limit: int): State {
    match a
    case Get(c, purpose) =>
      if !MayRead(s, c, purpose) then s
      else Move(s, c, if s.cell.Some? then Done(purpose) else Missed(purpose))
    case GetFails(c, purpose) =>
      // a consumer goes on to the script; a reader goes on to query and set
      if !MayRead(s, c, purpose) then s else Move(s, c, if purpose.Consuming? then Seeded else Missed(purpose))
    case Query(c) =>
      if PhaseOf(s, c).Missed? then Move(s, c, Fetched(s.aggregate, PhaseOf(s, c).purpose)) else s
    case QueryFails(c) =>
      // after a refusal the error lands where a failed script call lands
      var phase := PhaseOf(s, c);
      if !phase.Missed? then s else Move(s, c, if phase.purpose.Reporting? then Thrown else Done(phase.purpose))
    case Set(c) =>
      var phase := PhaseOf(s, c);
      if !phase.Fetched? then s
      else Move(s, c, Done(phase.purpose)).(cell := Some(phase.value), epoch := Epoch(phase.value, 0, 0))
    case SetFails(c) =>
      var phase := PhaseOf(s, c);
      if phase.Missed? || phase.Fetched? then Move(s, c, Done(phase.purpose)) else s
    case Eval(c, amount) =>
      if !PhaseOf(s, c).Seeded? then s
      else
        var (cell, answer) := Lua(s.cell, amount, limit);
        var taken := if answer == BLOCKED then 0 else amount;
        Move(s, c, if answer == BLOCKED then Refused else Idle)
          .(cell := cell, epoch := s.epoch.(granted := s.epoch.granted + taken), total := s.total + taken)
    case Fallback(c, amount) =>
      // the script call failed, or the read after a refusal: Postgres alone decides and the counter is left alone
      if !PhaseOf(s, c).Seeded? && !PhaseOf(s, c).Thrown? then s
      else Move(s, c, Idle).(total := s.total + if s.aggregate + amount > limit then 0 else amount)
    case Upsert(added) => s.(aggregate := s.aggregate + added, unmirrored := s.unmirrored + multiset{added})
    case Mirror(added) =>
      if added !in s.unmirrored then s
      else s.(cell := Some(Counter(s.cell) + added), epoch := s.epoch.(bumped := s.epoch.bumped + added),
              unmirrored := s.unmirrored - multiset{added})
    case Expire => s.(cell := None, epoch := Epoch(0, 0, 0))
  }

  function Run(s: State, actions: seq<Action>, limit: int): State {
    if actions == [] then s else Step(Run(s, actions[..|actions| - 1], limit), actions[|actions| - 1], limit)
  }

  // ----- the code -----

  /** What Redis does on GET and SET, and whether Postgres answers in between. */
  datatype Weather = Weather(getOk: bool, queryOk: bool, setOk: bool)

  datatype Outcome = Granted(usage: nat) | Denied

  function SeedIfMissing(cell: Option<nat>, w: Weather, usage: nat): Option<nat> {
    if w.getOk && cell.None? && w.queryOk && w.setOk then Some(usage) else cell
  }

  /** A failed GET is read as a miss. */
  predicate Misses(cell: Option<nat>, w: Weather) { !w.getOk || cell.None? }

  /** After a failed GET the SET overwrites whatever is there. */
  function ReadThrough(cell: Option<nat>, w: Weather, usage: nat): Option<nat> {
    if Misses(cell, w) && w.queryOk && w.setOk then Some(usage) else cell
  }

  function FallBack(usage: nat, amount: nat, limit: int): Outcome {
    if usage + amount > limit then Denied else Granted(usage + amount)
  }

  /** A refusal whose read of the usage throws is decided again, by Postgres alone. */
  function Consume(cell: Option<nat>, usage: nat, amount: nat, limit: int, w: Weather, eval: bool, again: Weather)
    : (Option<nat>, Outcome)
  {
    var seeded := SeedIfMissing(cell, w, usage);
    if !eval then (seeded, FallBack(usage, amount, limit))
    else
      var (after, answer) := Lua(seeded, amount, limit);
      if answer != BLOCKED then (after, Granted(answer))
      else if Misses(after, again) && !again.queryOk then (after, FallBack(usage, amount, limit))
      else (ReadThrough(after, again, usage), Denied)
  }

  /** `aggregate` is the row in Postgres, which nothing here writes. */
  class EntitlementService {
    var cell: Option<nat>
    var aggregate: nat

    constructor ()
      ensures cell == None && aggregate == 0
    {
      cell, aggregate := None, 0;
    }

    method EnsureCacheSeeded(w: Weather)
      modifies this`cell
      ensures cell == SeedIfMissing(old(cell), w, aggregate)
    {
      if !w.getOk || cell.Some? || !w.queryOk {
        return;
      }
      if w.setOk {
        cell := Some(aggregate);
      }
    }

    method EvalHardLimit(amount: nat, limit: int) returns (answer: int)
      modifies this`cell
      ensures (cell, answer) == Lua(old(cell), amount, limit)
    {
      var current := if cell.Some? then cell.value else 0;
      if current + amount > limit {
        return BLOCKED;
      }
      cell := Some(current + amount);
      return current + amount;
    }

    /** None when the query throws. */
    method GetUsage(w: Weather) returns (usage: Option<nat>)
      modifies this`cell
      ensures cell == ReadThrough(old(cell), w, aggregate)
      ensures usage == if !Misses(old(cell), w) then old(cell) else if w.queryOk then Some(aggregate) else None
    {
      if w.getOk && cell.Some? {
        return cell;
      }
      if !w.queryOk {
        return None;
      }
      if w.setOk {
        cell := Some(aggregate);
      }
      return Some(aggregate);
    }

    method ConsumeFallback(amount: nat, limit: int) returns (outcome: Outcome)
      ensures outcome == FallBack(aggregate, amount, limit)
    {
      if aggregate + amount > limit {
        return Denied;
      }
      return Granted(aggregate + amount);
    }

    /** `consume` of a HARD quota with a limit, undisturbed. */
    method ConsumeHard(amount: nat, limit: int, w: Weather, eval: bool, again: Weather) returns (outcome: Outcome)
      modifies this`cell
      ensures (cell, outcome) == Consume(old(cell), aggregate, amount, limit, w, eval, again)
    {
      EnsureCacheSeeded(w);
      if eval {
        var answer := EvalHardLimit(amount, limit);
        if answer != BLOCKED {
          return Granted(answer);
        }
        var currentUsage := GetUsage(again);
        if currentUsage.Some? {
          return Denied;
        }
      }
      outcome := ConsumeFallback(amount, limit);
    }
  }

  // ----- the method is the protocol run by one client -----

  function SeedSteps(c: nat, w: Weather, purpose: Purpose): seq<Action> {
    [if w.getOk then Get(c, purpose) else GetFails(c, purpose), if w.queryOk then Query(c) else QueryFails(c),
     if w.setOk then Set(c) else SetFails(c)]
  }

  function ConsumeSteps(c: nat, amount: nat, w: Weather, eval: bool, again: Weather): seq<Action> {
    if !eval then SeedSteps(c, w, Consuming) + [Fallback(c, amount)]
    else SeedSteps(c, w, Consuming) + [Eval(c, amount)] + SeedSteps(c, again, Reporting) + [Fallback(c, amount)]
  }

  lemma RunPush(s: State, actions: seq<Action>, a: Action, limit: int)
    ensures Run(s, actions + [a], limit) == Step(Run(s, actions, limit), a, limit)
  {
    assert (actions + [a])[..|actions|] == actions;
  }

  lemma {:induction false} RunConcat(s: State, first: seq<Action>, second: seq<Action>, limit: int)
    ensures Run(s, first + second, limit) == Run(Run(s, first, limit), second, limit)
  {
    hide Step;
    if second == [] {
      assert first + second == first;
    } else {
      var front := second[..|second| - 1];
      RunConcat(s, first, front, limit);
      RunPush(s, first + front, second[|second| - 1], limit);
      assert first + second == first + front + [second[|second| - 1]];
    }
  }

  lemma ThreeSteps(s: State, a: Action, b: Action, c: Action, limit: int)
    ensures Run(s, [a, b, c], limit) == Step(Step(Step(s, a, limit), b, limit), c, limit)
  {
    hide Step;
    RunPush(s, [], a, limit);
    RunPush(s, [a], b, limit);
    RunPush(s, [a, b], c, limit);
    assert [] + [a] == [a] && [a] + [b] == [a, b] && [a, b] + [c] == [a, b, c];
  }

  lemma SeedStepsDo(s: State, c: nat, w: Weather, purpose: Purpose, limit: int)
    requires MayRead(s, c, purpose)
    ensures var s' := Run(s, SeedSteps(c, w, purpose), limit);
            && s'.cell == (if purpose.Consuming? then SeedIfMissing(s.cell, w, s.aggregate)
                           else ReadThrough(s.cell, w, s.aggregate))
            && PhaseOf(s', c) == (if purpose.Reporting? && Misses(s.cell, w) && !w.queryOk then Thrown else Done(purpose))
            && s'.total == s.total && s'.aggregate == s.aggregate
  {
    hide Run, Lua;
    var steps := SeedSteps(c, w, purpose);
    ThreeSteps(s, steps[0], steps[1], steps[2], limit);
    assert steps == [steps[0], steps[1], steps[2]];
  }

  /** Three steps of a client that may not read change nothing. */
  lemma SeedStepsStutter(s: State, c: nat, w: Weather, purpose: Purpose, limit: int)
    requires !MayRead(s, c, purpose) && !PhaseOf(s, c).Missed? && !PhaseOf(s, c).Fetched?
    ensures Run(s, SeedSteps(c, w, purpose), limit) == s
  {
    hide Run, Lua;
    var steps := SeedSteps(c, w, purpose);
    ThreeSteps(s, steps[0], steps[1], steps[2], limit);
    assert steps == [steps[0], steps[1], steps[2]];
  }

  /** Undisturbed, the steps of one client write what `Consume` says, and grant when it does. */
  lemma ConsumeIsTheProtocol(s: State, c: nat, amount: nat, limit: int, w: Weather, eval: bool, again: Weather)
    requires PhaseOf(s, c).Idle?
    ensures var (cell, outcome) := Consume(s.cell, s.aggregate, amount, limit, w, eval, again);
            var s' := Run(s, ConsumeSteps(c, amount, w, eval, again), limit);
            s'.cell == cell && PhaseOf(s', c).Idle? && s'.total == s.total + if outcome.Granted? then amount else 0
  {
    hide Run, SeedSteps;
    var seed, report, last := SeedSteps(c, w, Consuming), SeedSteps(c, again, Reporting), Fallback(c, amount);
    SeedStepsDo(s, c, w, Consuming, limit);
    var s1 := Run(s, seed, limit);
    if !eval {
      RunPush(s, seed, last, limit);
    } else {
      RunPush(s, seed, Eval(c, amount), limit);
      var s2 := Step(s1, Eval(c, amount), limit);
      RunConcat(s, seed + [Eval(c, amount)], report, limit);
      if PhaseOf(s2, c).Refused? {
        SeedStepsDo(s2, c, again, Reporting, limit);
      } else {
        SeedStepsStutter(s2, c, again, Reporting, limit);
      }
      RunPush(s, seed + [Eval(c, amount)] + report, last, limit);
    }
  }

  // ----- one epoch: from a seeding until the next seeding or expiry -----

  /** The counter is the seed plus everything granted and everything the aggregator added; grants have not
      taken the seed past the limit. */
  predicate Accounted(s: State, limit: int) {
    && Counter(s.cell) == s.epoch.seed + s.epoch.granted + s.epoch.bumped
    && (s.epoch.granted > 0 ==> s.epoch.seed + s.epoch.granted <= limit)
  }

  /** No key and nobody at work: the counter has expired, or the server has just started. */
  function Cold(aggregate: nat): State { State(None, map[], Epoch(0, 0, 0), 0, aggregate, multiset{}) }

  const START := Cold(0)

  lemma StepKeepsAccounts(s: State, a: Action, limit: int)
    requires Accounted(s, limit)
    ensures Accounted(Step(s, a, limit), limit)
  {
    hide PhaseOf, Done;
  }

  /** For every interleaving of any number of clients, the aggregator and expiries. */
  lemma {:induction false} EveryEpochIsAccounted(usage: nat, actions: seq<Action>, limit: int)
    ensures Accounted(Run(Cold(usage), actions, limit), limit)
  {
    hide Step;
    if actions != [] {
      EveryEpochIsAccounted(usage, actions[..|actions| - 1], limit);
      StepKeepsAccounts(Run(Cold(usage), actions[..|actions| - 1], limit), actions[|actions| - 1], limit);
    }
  }

  /** Hence a seed within the limit is never granted past it, and a request is refused exactly when it does
      not fit beside the seed, the grants and the aggregator's additions. */
  lemma EpochNeverOverGrants(usage: nat, actions: seq<Action>, limit: int, amount: nat)
    ensures var s := Run(Cold(usage), actions, limit);
            && (s.epoch.seed <= limit ==> s.epoch.seed + s.epoch.granted <= limit)
            && (Lua(s.cell, amount, limit).1 == BLOCKED <==>
                  s.epoch.seed + s.epoch.granted + s.epoch.bumped + amount > limit)
  {
    EveryEpochIsAccounted(usage, actions, limit);
  }

  /** Nobody is about to write the key. */
  predicate NoSetPending(s: State) {
    forall c | c in s.phases :: !s.phases[c].Missed? && !s.phases[c].Fetched?
  }

  /** The key lives, no reader's GET fails and the script always runs. */
  predicate Undisturbed(actions: seq<Action>) {
    forall i | 0 <= i < |actions| ::
      !actions[i].Expire? && !actions[i].Fallback? && (actions[i].GetFails? ==> actions[i].purpose.Consuming?)
  }

  lemma WarmStep(s: State, a: Action, limit: int)
    requires s.cell.Some? && NoSetPending(s) && Undisturbed([a]) && Accounted(s, limit)
    ensures var s' := Step(s, a, limit);
            && s'.cell.Some? && NoSetPending(s') && Accounted(s', limit)
            && s'.epoch.seed == s.epoch.seed
            && s.total <= s'.total && s'.total - s.total == s'.epoch.granted - s.epoch.granted
            && Counter(s.cell) + (s'.total - s.total) <= Counter(s'.cell)
            && (s.total < s'.total ==> Counter(s.cell) + (s'.total - s.total) <= limit)
  {
    assert [a][0] == a;
  }

  /** Once the key is set and no client is between its GET and its SET, no one sets it again while it lives:
      the epoch lasts, whatever the number of clients, and all grants together fit what was left. */
  lemma {:induction false} WarmKeyIsNeverReset(s: State, actions: seq<Action>, limit: int)
    requires s.cell.Some? && NoSetPending(s) && Undisturbed(actions) && Accounted(s, limit)
    ensures var s' := Run(s, actions, limit);
            && s'.cell.Some? && NoSetPending(s') && Accounted(s', limit)
            && s'.epoch.seed == s.epoch.seed
            && s.total <= s'.total && s'.total - s.total == s'.epoch.granted - s.epoch.granted
            && Counter(s.cell) + (s'.total - s.total) <= Counter(s'.cell)
            && (s.total < s'.total ==> Counter(s.cell) + (s'.total - s.total) <= limit)
  {
    hide Step, NoSetPending, Accounted;
    if actions != [] {
      var front := actions[..|actions| - 1];
      assert forall i | 0 <= i < |front| :: front[i] == actions[i];
      WarmKeyIsNeverReset(s, front, limit);
      WarmStep(Run(s, front, limit), actions[|actions| - 1], limit);
    }
  }

  // ----- across epochs -----

  /** The counter does not lag behind what was granted in the period. */
  predicate Covered(s: State) {
    s.total <= Counter(s.cell)
  }

  /** The script can grant too much exactly when the counter lags behind. */
  lemma OverGrantIff(s: State, limit: int)
    requires s.total <= limit
    ensures !Covered(s) <==>
            exists amount: nat :: Lua(s.cell, amount, limit).0 != s.cell && s.total + amount > limit
  {
    if !Covered(s) {
      assert Lua(s.cell, limit - Counter(s.cell), limit).0 == Some(limit);
    }
  }

  // ----- what can take the grants past the limit -----

  /** A live key expires; a SET overwrites a live key, after a race or a failed GET; Postgres grants because the
      script could not be called, or because the read after a refusal failed; the script grants from zero because
      the seeding failed; the aggregator creates the key. */
  datatype Disturbance = Expiry | Overwrite | PostgresGrant | UnseededGrant | UnseededMirror

  function Disturbs(s: State, a: Action, limit: int): Option<Disturbance> {
    match a
    case Expire => if s.cell.Some? then Some(Expiry) else None
    case Set(c) => if PhaseOf(s, c).Fetched? && s.cell.Some? then Some(Overwrite) else None
    case Fallback(c, amount) =>
      if (PhaseOf(s, c).Seeded? || PhaseOf(s, c).Thrown?) && s.aggregate + amount <= limit then Some(PostgresGrant) else None
    case Eval(c, amount) =>
      if PhaseOf(s, c).Seeded? && s.cell.None? && Lua(s.cell, amount, limit).1 != BLOCKED then Some(UnseededGrant) else None
    case Mirror(added) => if s.cell.None? && added in s.unmirrored then Some(UnseededMirror) else None
    case _ => None
  }

  predicate Allows(allowed: set<Disturbance>, d: Option<Disturbance>) {
    d.Some? ==> d.value in allowed
  }

  /** No disturbance happens in the run but the allowed ones. */
  predicate Only(s: State, actions: seq<Action>, allowed: set<Disturbance>, limit: int) {
    forall i | 0 <= i < |actions| :: Allows(allowed, Disturbs(Run(s, actions[..i], limit), actions[i], limit))
  }

  lemma OnlyFront(s: State, actions: seq<Action>, allowed: set<Disturbance>, limit: int)
    requires actions != [] && Only(s, actions, allowed, limit)
    ensures var front, last := actions[..|actions| - 1], actions[|actions| - 1];
      Only(s, front, allowed, limit) && Allows(allowed, Disturbs(Run(s, front, limit), last, limit))
  {
    hide Run, Disturbs, Allows;
    var front := actions[..|actions| - 1];
    forall i | 0 <= i < |front| ensures Allows(allowed, Disturbs(Run(s, front[..i], limit), front[i], limit)) {
      assert front[..i] == actions[..i] && front[i] == actions[i];
    }
  }

  /** What can make the counter forget grants. */
  const FORGETTING := {Expiry, Overwrite, PostgresGrant}

  /** Whatever the clients and the aggregator do, undisturbed grants stay within the limit. */
  lemma {:induction false} UndisturbedRunsStayWithinLimit(usage: nat, actions: seq<Action>, allowed: set<Disturbance>, limit: nat)
    requires Only(Cold(usage), actions, allowed, limit) && allowed !! FORGETTING
    ensures Covered(Run(Cold(usage), actions, limit)) && Run(Cold(usage), actions, limit).total <= limit
  {
    hide Only;
    if actions != [] {
      OnlyFront(Cold(usage), actions, allowed, limit);
      UndisturbedRunsStayWithinLimit(usage, actions[..|actions| - 1], allowed, limit);
    }
  }

  lemma {:induction false} NothingFitsALimitOfZero(usage: nat, actions: seq<Action>)
    ensures Run(Cold(usage), actions, 0).total == 0
  {
    hide Step;
    if actions != [] {
      NothingFitsALimitOfZero(usage, actions[..|actions| - 1]);
      NothingFits(Run(Cold(usage), actions[..|actions| - 1], 0), actions[|actions| - 1]);
    }
  }

  lemma NothingFits(s: State, a: Action)
    ensures Step(s, a, 0).total == s.total
  {
    hide Done, MayRead;
  }

  lemma Take(start: State, actions: seq<Action>, s: State, a: Action, allowed: set<Disturbance>, limit: int)
    returns (longer: seq<Action>, s': State)
    requires s == Run(start, actions, limit) && Only(start, actions, allowed, limit)
    requires Allows(allowed, Disturbs(s, a, limit))
    ensures longer == actions + [a] && s' == Step(s, a, limit) == Run(start, longer, limit)
    ensures Only(start, longer, allowed, limit)
  {
    hide Run, Step, Disturbs, Allows;
    RunPush(start, actions, a, limit);
    longer, s' := actions + [a], Step(s, a, limit);
    forall i | 0 <= i < |longer| ensures Allows(allowed, Disturbs(Run(start, longer[..i], limit), longer[i], limit)) {
      if i < |actions| {
        assert longer[..i] == actions[..i] && longer[i] == actions[i];
      } else {
        assert longer[..i] == actions;
      }
    }
  }

  /** Two clients at rest and nothing in Postgres; before an expiry cycle no key. */
  predicate AtRest(s: State, d: Disturbance) {
    PhaseOf(s, 1).Idle? && PhaseOf(s, 2).Idle? && s.aggregate == 0 && (d == Expiry ==> s.cell == None)
  }

  lemma NothingYet(allowed: set<Disturbance>, limit: int)
    ensures Only(START, [], allowed, limit) && Run(START, [], limit) == START
  {
  }

  /** Each kind of disturbance alone, repeated, lets the limit be granted over and over. */
  lemma {:induction false} EachDisturbanceOverGrants(d: Disturbance, n: nat, limit: nat) returns (actions: seq<Action>)
    requires d in FORGETTING
    ensures Only(START, actions, {d}, limit)
    ensures var s := Run(START, actions, limit); s.total == n * limit && AtRest(s, d)
  {
    hide Run, Only;
    if n == 0 {
      actions := [];
      NothingYet({d}, limit);
    } else {
      actions := EachDisturbanceOverGrants(d, n - 1, limit);
      assert n * limit == (n - 1) * limit + limit;
      match d {
        case Expiry => actions := ExpireCycle(actions, limit);
        case Overwrite => actions := OverwriteCycle(actions, limit);
        case PostgresGrant => actions := FallbackCycle(actions, limit);
      }
    }
  }

  /** The key expires after each grant and is seeded again from the aggregate, which knows nothing of it. */
  lemma ExpireCycle(before: seq<Action>, limit: nat) returns (actions: seq<Action>)
    requires Only(START, before, {Expiry}, limit) && AtRest(Run(START, before, limit), Expiry)
    ensures Only(START, actions, {Expiry}, limit)
    ensures var s, s' := Run(START, before, limit), Run(START, actions, limit);
      s'.total == s.total + limit && AtRest(s', Expiry)
  {
    hide Run, Only;
    var s := Run(START, before, limit);
    actions, s := Take(START, before, s, Get(1, Consuming), {Expiry}, limit);
    actions, s := Take(START, actions, s, Query(1), {Expiry}, limit);
    actions, s := Take(START, actions, s, Set(1), {Expiry}, limit);
    actions, s := Take(START, actions, s, Eval(1, limit), {Expiry}, limit);
    actions, s := Take(START, actions, s, Expire, {Expiry}, limit);
  }

  /** A reader whose GET fails resets the live counter before each consume. */
  lemma OverwriteCycle(before: seq<Action>, limit: nat) returns (actions: seq<Action>)
    requires Only(START, before, {Overwrite}, limit) && AtRest(Run(START, before, limit), Overwrite)
    ensures Only(START, actions, {Overwrite}, limit)
    ensures var s, s' := Run(START, before, limit), Run(START, actions, limit);
      s'.total == s.total + limit && AtRest(s', Overwrite)
  {
    hide Run, Only;
    var s := Run(START, before, limit);
    actions, s := Take(START, before, s, GetFails(2, Reading), {Overwrite}, limit);
    actions, s := Take(START, actions, s, Query(2), {Overwrite}, limit);
    actions, s := Take(START, actions, s, Set(2), {Overwrite}, limit);
    actions, s := Take(START, actions, s, Get(1, Consuming), {Overwrite}, limit);
    actions, s := Take(START, actions, s, Eval(1, limit), {Overwrite}, limit);
  }

  lemma FallbackCycle(before: seq<Action>, limit: nat) returns (actions: seq<Action>)
    requires Only(START, before, {PostgresGrant}, limit) && AtRest(Run(START, before, limit), PostgresGrant)
    ensures Only(START, actions, {PostgresGrant}, limit)
    ensures var s, s' := Run(START, before, limit), Run(START, actions, limit);
      s'.total == s.total + limit && AtRest(s', PostgresGrant)
  {
    hide Run, Only;
    var s := Run(START, before, limit);
    actions, s := Take(START, before, s, GetFails(1, Consuming), {PostgresGrant}, limit);
    actions, s := Take(START, actions, s, Fallback(1, limit), {PostgresGrant}, limit);
  }

  lemma AllowMore(actions: seq<Action>, d: Disturbance, allowed: set<Disturbance>, limit: int)
    requires Only(START, actions, {d}, limit) && d in allowed
    ensures Only(START, actions, allowed, limit)
  {
    hide Run, Disturbs;
    forall i | 0 <= i < |actions| ensures Allows(allowed, Disturbs(Run(START, actions[..i], limit), actions[i], limit)) {
      assert Allows({d}, Disturbs(Run(START, actions[..i], limit), actions[i], limit));
    }
  }

  /** A run with the given disturbance alone that grants the limit n times. */
  lemma OverGrantingRun(allowed: set<Disturbance>, d: Disturbance, n: nat, limit: nat) returns (actions: seq<Action>)
    requires d in allowed * FORGETTING
    ensures Only(START, actions, allowed, limit)
    ensures Run(START, actions, limit).total == n * limit && Run(START, actions, limit).aggregate == 0
  {
    hide Run, Only;
    actions := EachDisturbanceOverGrants(d, n, limit);
    AllowMore(actions, d, allowed, limit);
  }

  /** The grants of a period stay within a limit over every run exactly if live keys never expire, are never
      overwritten and Postgres never grants. */
  lemma HardLimitHoldsIff(allowed: set<Disturbance>, limit: nat)
    ensures (forall usage, actions | Only(Cold(usage), actions, allowed, limit) :: Run(Cold(usage), actions, limit).total <= limit)
            <==> allowed !! FORGETTING || limit == 0
  {
    hide Run, Only;
    if allowed !! FORGETTING {
      forall usage, actions | Only(Cold(usage), actions, allowed, limit) ensures Run(Cold(usage), actions, limit).total <= limit {
        UndisturbedRunsStayWithinLimit(usage, actions, allowed, limit);
      }
    } else if limit == 0 {
      forall usage, actions ensures Run(Cold(usage), actions, limit).total <= limit {
        NothingFitsALimitOfZero(usage, actions);
      }
    } else {
      var d :| d in allowed * FORGETTING;
      var twice := OverGrantingRun(allowed, d, 2, limit);
      assert Only(Cold(0), twice, allowed, limit);
    }
  }

  /** With any one of these there is no bound at all: some run grants the limit n times, for every n. */
  lemma OtherwiseThereIsNoBound(allowed: set<Disturbance>, n: nat, limit: nat)
    requires allowed * FORGETTING != {}
    ensures exists actions :: Only(START, actions, allowed, limit) && Run(START, actions, limit).total == n * limit
  {
    hide Run, Only;
    var d :| d in allowed * FORGETTING;
    var actions := OverGrantingRun(allowed, d, n, limit);
  }

  /** Two clients miss together; the second SET wipes out the first grant, and ten units are granted twice. */
  lemma SeedingRaceGrantsTwice()
    ensures exists actions :: Run(START, actions, 10).total == 20
  {
    hide Step;
    var start := [Get(1, Consuming), Get(2, Consuming), Query(1), Query(2)];
    var first := [Set(1), Eval(1, 10)];
    var second := [Set(2), Eval(2, 10)];
    BothMiss();
    RunConcat(START, start, first, 10);
    FetchedGrantsAll(Run(START, start, 10), 1);
    RunConcat(START, start + first, second, 10);
    FetchedGrantsAll(Run(START, start + first, 10), 2);
    assert Run(START, start + first + second, 10).total == 20;
  }

  lemma BothMiss()
    ensures var s := Run(START, [Get(1, Consuming), Get(2, Consuming), Query(1), Query(2)], 10);
            PhaseOf(s, 1) == Fetched(0, Consuming) && PhaseOf(s, 2) == Fetched(0, Consuming) && s.total == 0
  {
    ThreeSteps(START, Get(1, Consuming), Get(2, Consuming), Query(1), 10);
    RunPush(START, [Get(1, Consuming), Get(2, Consuming), Query(1)], Query(2), 10);
    assert [Get(1, Consuming), Get(2, Consuming), Query(1)] + [Query(2)]
        == [Get(1, Consuming), Get(2, Consuming), Query(1), Query(2)];
  }

  lemma FetchedGrantsAll(s: State, c: nat)
    requires PhaseOf(s, c) == Fetched(0, Consuming)
    ensures var s' := Run(s, [Set(c), Eval(c, 10)], 10);
            s'.total == s.total + 10 && forall d :: d != c ==> PhaseOf(s', d) == PhaseOf(s, d)
  {
    RunPush(s, [], Set(c), 10);
    RunPush(s, [Set(c)], Eval(c, 10), 10);
    assert [] + [Set(c)] == [Set(c)] && [Set(c)] + [Eval(c, 10)] == [Set(c), Eval(c, 10)];
  }
}
