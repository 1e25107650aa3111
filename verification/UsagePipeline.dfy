/** The usage pipeline after ingestion: usage.raw, the validation consumer, usage.validated, the
    aggregation consumer, and dead letters with admin retries.

    Topics are append-only sequences and any message may be delivered any number of times. Any outbox
    row may be published any number of times, which covers every retry of the outbox publisher. The
    validation consumer's publish and status write are one step, whose status write may be lost. The
    aggregation consumer's upsert and AGGREGATED mark are separate steps with a possible crash between. */
module UsagePipeline {
  import opened Wrappers
  import opened Sums
  import opened UsageEvents
  import Calendar

  datatype FeatureType = Boolean | Quota | Metered

  /** What the validation consumer meets at consumption time. */
  datatype Env = Env(
    tenantActive: Option<bool>,                                  // None: no such tenant
    now: int,
    subscription: Option<(nat, Option<FeatureType>)>,            // its id and the feature's snapshot
    deadUp: bool)                                                // the dead-letter topic can be written

  datatype Verdict = Reject | AlreadyProcessed | Accept(sub: nat, featureType: FeatureType)

  datatype Valid = Valid(payload: Payload, sub: nat, featureType: FeatureType)

  datatype DeadStatus = Failed | Retrying | Resolved | Discarded

  /** A dead_letter_events row. Its topic is always usage.raw. */
  datatype DeadRow = DeadRow(payload: Payload, status: DeadStatus, retryCount: nat)

  datatype PeriodKey = MonthKey(month: int) | YearKey(year: int) | Lifetime

  datatype AggKey = AggKey(tenant: nat, feature: string, period: PeriodKey, sub: nat)

  datatype State = State(
    store: Store,
    raw: seq<Payload>, validated: seq<Valid>, deadTopic: seq<Payload>, deadRows: seq<DeadRow>,
    aggregates: map<AggKey, int>,
    marking: multiset<nat>,                                      // upserted, AGGREGATED mark still to come
    upserts: seq<nat>,                                           // history: positions in `validated`
    lostWrites: seq<nat>)                                        // history: events whose VALIDATED write was lost

  datatype Step =
    | Produce(action: Action)                                    // ingest or consume
    | Publish(row: nat)
    | Validate(message: nat, env: Env, written: bool)
    | PersistDead(message: nat)
    | RetryDead(row: nat)
    | DiscardDead(row: nat)
    | Upsert(message: nat)
    | UpsertFails(message: nat)
    | Mark(event: nat)
    | MarkFails(event: nat, dead: Option<nat>)                   // an error (the message goes to dead letters) or a crash

  // ----- the validation consumer's checks -----

  predicate Hex(c: char) {
    '0' <= c <= '9' || 'a' <= c <= 'f' || 'A' <= c <= 'F'
  }

  predicate IsUuid(s: string) {
    |s| == 36 && forall i | 0 <= i < 36 :: if i == 8 || i == 13 || i == 18 || i == 23 then s[i] == '-' else Hex(s[i])
  }

  function FindRow(rows: seq<Row>, eventId: string): (i: Option<nat>)
    ensures i.Some? ==> i.value < |rows| && rows[i.value].eventId == eventId
    ensures i.None? ==> forall r | r in rows :: r.eventId != eventId
  {
    if rows == [] then None
    else if rows[|rows| - 1].eventId == eventId then Some(|rows| - 1)
    else FindRow(rows[..|rows| - 1], eventId)
  }

  /** The checks in their order. The duplicate test comes after the tenant and timestamp checks. */
  function Judge(rows: seq<Row>, p: Payload, env: Env): Verdict {
    if p.id.None? || p.feature.None? || p.amount == 0 then Reject
    else if !IsUuid(p.eventId) then Reject
    else if env.tenantActive != Some(true) then Reject
    else if p.timestamp.None? then Reject
    else if p.timestamp.value > env.now + MAX_FUTURE_DRIFT_MS then Reject
    else if p.timestamp.value < env.now - MAX_EVENT_AGE_MS then Reject
    else
      var row := FindRow(rows, p.eventId);
      if row.Some? && rows[row.value].status != Pending then AlreadyProcessed
      else if env.subscription.None? then Reject
      else if env.subscription.value.1.None? then Reject
      else if env.subscription.value.1.value == Boolean then Reject
      else if p.amount <= 0 then Reject
      else Accept(env.subscription.value.0, env.subscription.value.1.value)
  }

  function WithStatus(rows: seq<Row>, id: Option<nat>, status: EventStatus): seq<Row> {
    if id.Some? && id.value < |rows| then rows[id.value := rows[id.value].(status := status)] else rows
  }

  /** A dead letter that cannot be published is only logged: the status is written all the same. */
  function TurnedAway(s: State, p: Payload, deadUp: bool, written: bool): State {
    s.(deadTopic := if deadUp then s.deadTopic + [p] else s.deadTopic,
       store := if written then s.store.(rows := WithStatus(s.store.rows, p.id, Rejected)) else s.store)
  }

  function Handled(s: State, p: Payload, env: Env, written: bool): State {
    match Judge(s.store.rows, p, env)
    case AlreadyProcessed => s
    case Reject => TurnedAway(s, p, env.deadUp, written)
    case Accept(sub, featureType) =>
      s.(validated := s.validated + [Valid(p, sub, featureType)],
         store := if written then s.store.(rows := WithStatus(s.store.rows, p.id, EventStatus.Validated)) else s.store,
         lostWrites := if written then s.lostWrites else s.lostWrites + [p.id.GetOr(0)])
  }

  // ----- the aggregation consumer -----

  function FeatureTypeName(t: FeatureType): string {
    match t case Boolean => "BOOLEAN" case Quota => "QUOTA" case Metered => "METERED"
  }

  function CalculatePeriod(timestamp: int, resetPeriod: string): PeriodKey {
    if resetPeriod == "ANNUALLY" then YearKey(Calendar.FullYear(timestamp))
    else if resetPeriod == "NEVER" then Lifetime
    else MonthKey(Calendar.MonthOf(timestamp))
  }

  /** The consumer passes the feature type where a reset period is expected. */
  function KeyOf(v: Valid): AggKey {
    AggKey(v.payload.tenant, v.payload.feature.GetOr(""),
           CalculatePeriod(v.payload.timestamp.GetOr(0), FeatureTypeName(v.featureType)), v.sub)
  }

  /** So usage is always kept by the month of the event, for the tenant, feature and subscription it was validated with. */
  lemma KeysAreMonthly(v: Valid)
    ensures KeyOf(v) == AggKey(v.payload.tenant, v.payload.feature.GetOr(""),
                               MonthKey(Calendar.MonthOf(v.payload.timestamp.GetOr(0))), v.sub)
  {
    assert FeatureTypeName(v.featureType)[0] in {'B', 'Q', 'M'};
  }

  function Added(aggregates: map<AggKey, int>, key: AggKey, amount: int): map<AggKey, int> {
    aggregates[key := (if key in aggregates then aggregates[key] else 0) + amount]
  }

  function Upserted(s: State, k: nat): State
    requires k < |s.validated|
  {
    var v := s.validated[k];
    s.(aggregates := Added(s.aggregates, KeyOf(v), v.payload.amount),
       marking := s.marking + multiset{v.payload.id.GetOr(0)},
       upserts := s.upserts + [k])
  }

  function Next(s: State, a: Step): State {
    match a
    case Produce(action) => s.(store := Act(s.store, action))
    case Publish(i) => if i < |s.store.outbox| then s.(raw := s.raw + [s.store.outbox[i].payload]) else s
    case Validate(k, env, written) => if k < |s.raw| then Handled(s, s.raw[k], env, written) else s
    case PersistDead(k) =>
      if k < |s.deadTopic| then s.(deadRows := s.deadRows + [DeadRow(s.deadTopic[k], Failed, 0)]) else s
    case RetryDead(j) =>
      if j < |s.deadRows| && s.deadRows[j].status != Resolved && s.deadRows[j].status != Discarded then
        var d := s.deadRows[j];
        s.(raw := s.raw + [d.payload],
           deadRows := s.deadRows[j := d.(status := Retrying, retryCount := d.retryCount + 1)])
      else s
    case DiscardDead(j) =>
      if j < |s.deadRows| && s.deadRows[j].status != Resolved then
        s.(deadRows := s.deadRows[j := s.deadRows[j].(status := Discarded)])
      else s
    case Upsert(k) => if k < |s.validated| then Upserted(s, k) else s
    case UpsertFails(k) =>
      if k < |s.validated| then s.(deadTopic := s.deadTopic + [s.validated[k].payload]) else s
    case Mark(id) =>
      if id in s.marking then
        s.(marking := s.marking - multiset{id},
           store := s.store.(rows := WithStatus(s.store.rows, Some(id), Aggregated)))
      else s
    case MarkFails(id, dead) =>
      if id in s.marking then
        s.(marking := s.marking - multiset{id},
           deadTopic := if dead.Some? && dead.value < |s.validated| then s.deadTopic + [s.validated[dead.value].payload]
                        else s.deadTopic)
      else s
  }

  function Run(s: State, steps: seq<Step>): State {
    if steps == [] then s else Next(Run(s, steps[..|steps| - 1]), steps[|steps| - 1])
  }

  const EMPTY := State(Store([], [], {}), [], [], [], [], map[], multiset{}, [], [])

  /** What happens to the aggregation consumer on one message. */
  datatype Trouble = NoTrouble | UpsertThrows | MarkThrows | Crash

  // ----- the consumers as they are written -----

  class Consumers {
    var store: Store
    var raw: seq<Payload>
    var validated: seq<Valid>
    var deadTopic: seq<Payload>
    var deadRows: seq<DeadRow>
    var aggregates: map<AggKey, int>
    ghost var marking: multiset<nat>
    ghost var upserts: seq<nat>
    ghost var lostWrites: seq<nat>

    ghost function Snapshot(): State
      reads this
    {
      State(store, raw, validated, deadTopic, deadRows, aggregates, marking, upserts, lostWrites)
    }

    constructor ()
      ensures Snapshot() == EMPTY
    {
      store, raw, validated := Store([], [], {}), [], [];
      deadTopic, deadRows, aggregates := [], [], map[];
      marking, upserts, lostWrites := multiset{}, [], [];
    }

    method UpdateEventStatus(id: Option<nat>, status: EventStatus, written: bool)
      modifies this`store
      ensures store == if written then old(store).(rows := WithStatus(old(store).rows, id, status)) else old(store)
    {
      if written && id.Some? && id.value < |store.rows| {
        store := store.(rows := store.rows[id.value := store.rows[id.value].(status := status)]);
      }
    }

    method RejectEvent(event: Payload, deadUp: bool, written: bool)
      modifies this`store, this`deadTopic
      ensures Snapshot() == TurnedAway(old(Snapshot()), event, deadUp, written)
    {
      if deadUp {
        deadTopic := deadTopic + [event];
      }
      UpdateEventStatus(event.id, Rejected, written);
    }

    /** UsageValidationConsumer.handleMessage, with its early returns. */
    method HandleRaw(event: Payload, env: Env, written: bool)
      modifies this`store, this`deadTopic, this`validated, this`lostWrites
      ensures Snapshot() == Handled(old(Snapshot()), event, env, written)
    {
      hide FindRow, IsUuid, WithStatus, TurnedAway;
      if event.id.None? || event.feature.None? || event.amount == 0 {
        RejectEvent(event, env.deadUp, written);
        return;
      }
      if !IsUuid(event.eventId) {
        RejectEvent(event, env.deadUp, written);
        return;
      }
      if env.tenantActive.None? || !env.tenantActive.value {
        RejectEvent(event, env.deadUp, written);
        return;
      }
      if event.timestamp.None? {
        RejectEvent(event, env.deadUp, written);
        return;
      }
      var eventTime := event.timestamp.value;
      if eventTime > env.now + MAX_FUTURE_DRIFT_MS || eventTime < env.now - MAX_EVENT_AGE_MS {
        RejectEvent(event, env.deadUp, written);
        return;
      }
      var existing := FindRow(store.rows, event.eventId);
      if existing.Some? && store.rows[existing.value].status != Pending {
        return;
      }
      if env.subscription.None? || env.subscription.value.1.None? {
        RejectEvent(event, env.deadUp, written);
        return;
      }
      var (sub, snapshot) := env.subscription.value;
      if snapshot.value == Boolean || event.amount <= 0 {
        RejectEvent(event, env.deadUp, written);
        return;
      }
      validated := validated + [Valid(event, sub, snapshot.value)];
      UpdateEventStatus(event.id, EventStatus.Validated, written);
      if !written {
        lostWrites := lostWrites + [event.id.value];
      }
    }

    method UpsertAggregate(k: nat)
      requires k < |validated|
      modifies this`aggregates, this`marking, this`upserts
      ensures Snapshot() == Upserted(old(Snapshot()), k)
    {
      hide KeyOf;
      var event := validated[k];
      var key := KeyOf(event);
      if key in aggregates {
        aggregates := aggregates[key := aggregates[key] + event.payload.amount];
      } else {
        aggregates := aggregates[key := event.payload.amount];
      }
      upserts := upserts + [k];
      marking := marking + multiset{event.payload.id.GetOr(0)};
    }

    method MarkAggregated(id: nat)
      requires id in marking
      modifies this`store, this`marking
      ensures Snapshot() == Next(old(Snapshot()), Mark(id))
    {
      hide WithStatus;
      UpdateEventStatus(Some(id), Aggregated, true);
      marking := marking - multiset{id};
    }

    /** UsageAggregationConsumer.handleMessage: upsert, then mark. Either may throw, which sends the message to the dead
        letters, and the consumer may crash in between. */
    method HandleValidated(k: nat, trouble: Trouble)
      requires k < |validated|
      modifies this`store, this`deadTopic, this`aggregates, this`marking, this`upserts
      ensures var id, upserted := old(validated)[k].payload.id.GetOr(0), Upserted(old(Snapshot()), k);
        Snapshot() == match trouble
          case NoTrouble => Next(upserted, Mark(id))
          case UpsertThrows => Next(old(Snapshot()), Step.UpsertFails(k))
          case MarkThrows => Next(upserted, MarkFails(id, Some(k)))
          case Crash => Next(upserted, MarkFails(id, None))
    {
      hide Next, Upserted;
      ghost var before := Snapshot();
      AggregationSteps(before, k);
      var event := validated[k].payload;
      if trouble.UpsertThrows? {
        deadTopic := deadTopic + [event];
        return;
      }
      UpsertAggregate(k);
      if trouble.NoTrouble? {
        MarkAggregated(event.id.GetOr(0));
        return;
      }
      marking := marking - multiset{event.id.GetOr(0)};
      if trouble.MarkThrows? {
        deadTopic := deadTopic + [event];
      }
    }

    /** DeadLetterService.retry. */
    method Retry(j: nat) returns (ok: bool)
      requires j < |deadRows|
      modifies this`raw, this`deadRows
      ensures ok == (old(deadRows)[j].status != Resolved && old(deadRows)[j].status != Discarded)
      ensures Snapshot() == Next(old(Snapshot()), RetryDead(j))
    {
      if deadRows[j].status == Resolved || deadRows[j].status == Discarded {
        return false;
      }
      raw := raw + [deadRows[j].payload];
      deadRows := deadRows[j := deadRows[j].(status := Retrying, retryCount := deadRows[j].retryCount + 1)];
      return true;
    }
  }

  lemma AggregationSteps(s: State, k: nat)
    requires k < |s.validated|
    ensures var payload, upserted := s.validated[k].payload, Upserted(s, k);
      var id := payload.id.GetOr(0);
      && Next(s, Step.UpsertFails(k)) == s.(deadTopic := s.deadTopic + [payload])
      && id in upserted.marking && upserted.validated == s.validated
      && Next(upserted, MarkFails(id, None)) == upserted.(marking := upserted.marking - multiset{id})
      && Next(upserted, MarkFails(id, Some(k)))
         == upserted.(marking := upserted.marking - multiset{id}, deadTopic := upserted.deadTopic + [payload])
  {
    hide KeyOf, Added;
  }

  // ----- every message stems from an outbox row -----

  predicate Known(store: Store, p: Payload) {
    exists o | o in store.outbox :: o.payload == p
  }

  predicate MessagesKnown(s: State) {
    && (forall p | p in s.raw :: Known(s.store, p))
    && (forall p | p in s.deadTopic :: Known(s.store, p))
    && (forall d | d in s.deadRows :: Known(s.store, d.payload))
    && (forall v | v in s.validated :: Known(s.store, v.payload) && v.payload.id.Some? && 0 < v.payload.amount)
  }

  predicate Inv(s: State) {
    StoreOk(s.store) && MessagesKnown(s)
  }

  lemma KnownShape(store: Store, p: Payload)
    requires StoreOk(store) && Known(store, p) && p.id.Some?
    ensures p.id.value < |store.rows| && p == EventPayload(p.id.value, store.rows[p.id.value])
    ensures store.outbox[p.id.value].payload == p
  {
  }

  lemma StatusKeepsStore(store: Store, id: Option<nat>, status: EventStatus)
    requires StoreOk(store)
    ensures StoreOk(store.(rows := WithStatus(store.rows, id, status)))
  {
  }

  lemma KnownSurvives(store: Store, longer: Store, p: Payload)
    requires store.outbox <= longer.outbox && Known(store, p)
    ensures Known(longer, p)
  {
    var o :| o in store.outbox && o.payload == p;
    assert o in longer.outbox;
  }

  lemma NextKeepsStoreOk(s: State, a: Step)
    requires Inv(s)
    ensures StoreOk(Next(s, a).store) && s.store.outbox <= Next(s, a).store.outbox
    ensures |s.store.rows| <= |Next(s, a).store.rows|
  {
    hide StoreOk, Act, Judge, WithStatus, KeyOf, Added, Known;
    if a.Produce? {
      ActKeepsStore(s.store, a.action);
    } else if a.Mark? {
      StatusKeepsStore(s.store, Some(a.event), Aggregated);
      SameLength(s.store.rows, Some(a.event), Aggregated);
    } else if a.Validate? && a.message < |s.raw| {
      var id := s.raw[a.message].id;
      StatusKeepsStore(s.store, id, Rejected);
      StatusKeepsStore(s.store, id, EventStatus.Validated);
      SameLength(s.store.rows, id, Rejected);
      SameLength(s.store.rows, id, EventStatus.Validated);
    }
  }

  lemma SameLength(rows: seq<Row>, id: Option<nat>, status: EventStatus)
    ensures |WithStatus(rows, id, status)| == |rows|
  {
  }

  lemma AcceptHasId(rows: seq<Row>, p: Payload, env: Env)
    requires Judge(rows, p, env).Accept?
    ensures p.id.Some? && 0 < p.amount
  {
  }

  lemma HandledKeepsMessages(s: State, p: Payload, env: Env, written: bool)
    requires MessagesKnown(s) && Known(s.store, p)
    ensures var s' := Handled(s, p, env, written);
      s'.store.outbox == s.store.outbox ==> MessagesKnown(s')
  {
    hide Judge, WithStatus;
    if Judge(s.store.rows, p, env).Accept? {
      AcceptHasId(s.store.rows, p, env);
    }
  }

  lemma NextKeepsMessages(s: State, a: Step)
    requires Inv(s)
    ensures MessagesKnown(Next(s, a))
  {
    hide StoreOk, Act, Handled, WithStatus, Known, KeyOf, Added;
    NextKeepsStoreOk(s, a);
    var s' := Next(s, a);
    forall p | Known(s.store, p) ensures Known(s'.store, p) {
      KnownSurvives(s.store, s'.store, p);
    }
    if a.Publish? && a.row < |s.store.outbox| {
      OutboxKnown(s.store, a.row);
    } else if a.Validate? && a.message < |s.raw| {
      RawKnown(s, a.message);
      HandledKeepsMessages(s, s.raw[a.message], a.env, a.written);
      HandledKeepsOutbox(s, s.raw[a.message], a.env, a.written);
    } else if a.MarkFails? && a.dead.Some? && a.dead.value < |s.validated| {
      assert s.validated[a.dead.value] in s.validated;
    } else if a.RetryDead? && a.row < |s.deadRows| {
      assert s.deadRows[a.row] in s.deadRows;
    } else if a.UpsertFails? && a.message < |s.validated| {
      assert s.validated[a.message] in s.validated;
    }
  }

  lemma HandledKeepsOutbox(s: State, p: Payload, env: Env, written: bool)
    ensures Handled(s, p, env, written).store.outbox == s.store.outbox
  {
    hide Judge, WithStatus;
  }

  lemma OutboxKnown(store: Store, i: nat)
    requires i < |store.outbox|
    ensures Known(store, store.outbox[i].payload)
  {
  }

  lemma {:induction false} RunKeepsInv(s: State, steps: seq<Step>)
    requires Inv(s)
    ensures Inv(Run(s, steps))
    ensures |s.store.rows| <= |Run(s, steps).store.rows|
  {
    hide Next, StoreOk, MessagesKnown;
    if steps != [] {
      RunKeepsInv(s, steps[..|steps| - 1]);
      NextKeepsStoreOk(Run(s, steps[..|steps| - 1]), steps[|steps| - 1]);
      NextKeepsMessages(Run(s, steps[..|steps| - 1]), steps[|steps| - 1]);
    }
  }

  lemma EmptyOk()
    ensures Inv(EMPTY)
  {
    EmptyStoreOk();
  }

  // ----- when a message is accepted -----

  /** The checks that come before the duplicate test: they look at the message, the tenant and the clock. */
  predicate Intact(p: Payload, env: Env) {
    && p.id.Some? && p.feature.Some? && p.timestamp.Some? && IsUuid(p.eventId) && p.amount != 0
    && env.tenantActive == Some(true)
    && env.now - 7 * 24 * 60 * 60 * 1000 <= p.timestamp.value <= env.now + 5 * 60 * 1000
  }

  /** The tenant's subscription carries the feature, and it is one that usage can be recorded for. */
  predicate Recordable(p: Payload, env: Env) {
    0 < p.amount && env.subscription.Some? && env.subscription.value.1.Some? && env.subscription.value.1.value != Boolean
  }

  predicate WellFormed(p: Payload, env: Env) { Intact(p, env) && Recordable(p, env) }

  /** A message is accepted exactly when it is well formed and its event is still PENDING. */
  lemma AcceptedIff(store: Store, p: Payload, env: Env)
    requires StoreOk(store) && Known(store, p)
    ensures Judge(store.rows, p, env).Accept?
            <==> WellFormed(p, env) && p.id.value < |store.rows| && store.rows[p.id.value].status == Pending
  {
    hide IsUuid, FindRow;
    if p.id.Some? {
      KnownShape(store, p);
      var row := FindRow(store.rows, p.eventId);
      FindsOwnRow(store, p.id.value);
    }
  }

  /** The fate of any message of an event at any point of a run: a PENDING event is validated for its subscription or, if the
      message is not well formed, REJECTED with a dead letter. An event past PENDING is left alone exactly if the message
      is intact; otherwise (the tenant has been suspended, or seven days are over) it is REJECTED as well, even if it
      has been aggregated. */
  lemma DeliveredMessageIff(s: State, k: nat, env: Env)
    requires Inv(s) && k < |s.raw| && s.raw[k].id.Some?
    ensures var p, rows, i := s.raw[k], s.store.rows, s.raw[k].id.value;
      && i < |rows|
      && var wasPending := rows[i].status == Pending;
      Next(s, Validate(k, env, true)) ==
        if wasPending && WellFormed(p, env) then
          s.(validated := s.validated + [Valid(p, env.subscription.value.0, env.subscription.value.1.value)],
             store := s.store.(rows := rows[i := rows[i].(status := EventStatus.Validated)]))
        else if !wasPending && Intact(p, env) then s
        else
          s.(deadTopic := s.deadTopic + (if env.deadUp then [p] else []),
             store := s.store.(rows := rows[i := rows[i].(status := Rejected)]))
  {
    hide IsUuid, FindRow, StoreOk;
    var p := s.raw[k];
    RawKnown(s, k);
    InvStoreOk(s);
    KnownShape(s.store, p);
    FindsOwnRow(s.store, p.id.value);
    assert s.deadTopic + [] == s.deadTopic;
  }

  lemma InvStoreOk(s: State)
    requires Inv(s)
    ensures StoreOk(s.store)
  {
  }

  /** What ingestion has stored is validated at its first delivery, however much later, exactly if its id is a UUID, seven days
      are not over, and tenant, subscription and feature are then in order: it is never too early. */
  lemma StoredIsValidatedIff(s: Store, tenant: nat, entitled: set<string>, now: int, batch: seq<Arrival>, s': Store,
                             n: nat, i: nat, env: Env)
    requires StoreOk(s') && IsFrom(s, tenant, entitled, now, batch, s', n, i) && now <= env.now
    ensures Judge(s'.rows, s'.outbox[n].payload, env).Accept? <==>
      && IsUuid(batch[i].input.eventId) && env.tenantActive == Some(true)
      && env.now <= batch[i].input.timestamp.value + 7 * 24 * 60 * 60 * 1000
      && Recordable(s'.outbox[n].payload, env)
  {
    hide IsUuid, StoreOk, HasEvent;
    OutboxKnown(s', n);
    AcceptedIff(s', s'.outbox[n].payload, env);
  }

  /** So an event that has been aggregated keeps its status under any delivery of its message exactly if the message is still
      intact when it arrives: a copy that comes more than seven days late turns billed usage into a REJECTED event. */
  lemma AggregatedStaysIff(steps: seq<Step>, k: nat, env: Env)
    requires var s := Run(EMPTY, steps);
      && k < |s.raw| && s.raw[k].id.Some? && s.raw[k].id.value < |s.store.rows|
      && s.store.rows[s.raw[k].id.value].status == Aggregated
    ensures var s, s' := Run(EMPTY, steps), Next(Run(EMPTY, steps), Validate(k, env, true));
      var i := s.raw[k].id.value;
      && s'.aggregates == s.aggregates && i < |s'.store.rows|
      && s'.store.rows[i].status == (if Intact(s.raw[k], env) then Aggregated else Rejected)
  {
    hide Run, Next, Intact;
    EmptyOk();
    RunKeepsInv(EMPTY, steps);
    DeliveredMessageIff(Run(EMPTY, steps), k, env);
  }

  lemma FindsOwnRow(store: Store, i: nat)
    requires StoreOk(store) && i < |store.rows|
    ensures FindRow(store.rows, store.rows[i].eventId) == Some(i)
  {
    hide FindRow;
    var r := FindRow(store.rows, store.rows[i].eventId);
    assert store.rows[i] in store.rows;
  }

  // ----- at most one validated message per event -----

  function ValidatedCount(validated: seq<Valid>, i: nat): nat {
    if validated == [] then 0
    else ValidatedCount(validated[..|validated| - 1], i) + if validated[|validated| - 1].payload.id == Some(i) then 1 else 0
  }

  function LostCount(lost: seq<nat>, i: nat): nat {
    if lost == [] then 0 else LostCount(lost[..|lost| - 1], i) + if lost[|lost| - 1] == i then 1 else 0
  }

  lemma CountPush(validated: seq<Valid>, v: Valid, lost: seq<nat>, l: nat, i: nat)
    ensures ValidatedCount(validated + [v], i) == ValidatedCount(validated, i) + if v.payload.id == Some(i) then 1 else 0
    ensures LostCount(lost + [l], i) == LostCount(lost, i) + if l == i then 1 else 0
  {
    assert (validated + [v])[..|validated|] == validated;
    assert (lost + [l])[..|lost|] == lost;
  }

  predicate IsPending(s: State, i: nat) {
    i < |s.store.rows| && s.store.rows[i].status == Pending
  }

  /** Each validated message of an event is explained by a lost status write, but for at most one, and
      that one has taken the event out of PENDING. */
  predicate CountOk(s: State, i: nat) {
    var n := ValidatedCount(s.validated, i) - LostCount(s.lostWrites, i);
    0 <= n <= 1 && (n == 1 ==> i < |s.store.rows| && s.store.rows[i].status != Pending)
  }

  /** Statuses move only through a message or a mark of the event itself, and never back to PENDING. */
  lemma StatusMoves(s: State, a: Step, i: nat)
    requires Inv(s) && i < |s.store.rows|
    ensures i < |Next(s, a).store.rows|
    ensures s.store.rows[i].status != Pending ==> Next(s, a).store.rows[i].status != Pending
  {
    hide StoreOk, Judge, Persist, Filter, Ordered, HasEvent, KeyOf, Added;
    NextKeepsStoreOk(s, a);
    if a.Produce? {
      ActKeepsStore(s.store, a.action);
    }
  }

  lemma NextKeepsCount(s: State, a: Step, i: nat)
    requires Inv(s) && CountOk(s, i)
    ensures CountOk(Next(s, a), i)
  {
    hide StoreOk, MessagesKnown, Judge, Act, ValidatedCount, LostCount, KeyOf, Added;
    if i < |s.store.rows| {
      StatusMoves(s, a, i);
    }
    if a.Validate? && a.message < |s.raw| {
      var p := s.raw[a.message];
      RawKnown(s, a.message);
      AcceptedIff(s.store, p, a.env);
      match Judge(s.store.rows, p, a.env)
      case Accept(sub, featureType) => CountPush(s.validated, Valid(p, sub, featureType), s.lostWrites, p.id.value, i);
      case _ =>
    }
  }

  lemma RawKnown(s: State, k: nat)
    requires Inv(s) && k < |s.raw|
    ensures Known(s.store, s.raw[k])
  {
  }

  /** For every run of redeliveries, re-publications and admin retries: the validated messages of an
      event number its lost status writes plus at most one. Without lost writes, at most one. */
  lemma {:induction false} AtMostOneValidatedMessage(steps: seq<Step>, i: nat)
    ensures var s := Run(EMPTY, steps);
      CountOk(s, i) && (i !in s.lostWrites ==> ValidatedCount(s.validated, i) <= 1)
  {
    hide Next, CountOk, ValidatedCount, Inv;
    if steps == [] {
      assert CountOk(EMPTY, i) by { EmptyCount(i); }
    } else {
      var s := Run(EMPTY, steps[..|steps| - 1]);
      AtMostOneValidatedMessage(steps[..|steps| - 1], i);
      EmptyOk();
      RunKeepsInv(EMPTY, steps[..|steps| - 1]);
      NextKeepsCount(s, steps[|steps| - 1], i);
    }
    if i !in Run(EMPTY, steps).lostWrites {
      NoLostWrites(Run(EMPTY, steps), i);
    }
  }

  lemma EmptyCount(i: nat)
    ensures CountOk(EMPTY, i)
  {
  }

  lemma {:induction false} LostCountIn(lost: seq<nat>, i: nat)
    ensures LostCount(lost, i) == 0 <==> i !in lost
  {
    if lost != [] {
      LostCountIn(lost[..|lost| - 1], i);
    }
  }

  lemma NoLostWrites(s: State, i: nat)
    requires CountOk(s, i) && i !in s.lostWrites
    ensures ValidatedCount(s.validated, i) <= 1
  {
    LostCountIn(s.lostWrites, i);
  }

  // ----- consequences for retries and for consume -----

  /** Every message on the dead-letter topic can be stored as a row and, from there, be put back on usage.raw. */
  lemma DeadLetterComesBack(s: State, k: nat)
    requires k < |s.deadTopic|
    ensures var stored := Next(s, PersistDead(k));
      var retried := Next(stored, RetryDead(|s.deadRows|));
      && |stored.deadRows| == |s.deadRows| + 1 && stored.raw == s.raw
      && retried.raw == s.raw + [s.deadTopic[k]]
      && retried.deadRows == s.deadRows + [DeadRow(s.deadTopic[k], Retrying, 1)]
  {
    var row := DeadRow(s.deadTopic[k], DeadStatus.Failed, 0);
    assert (s.deadRows + [row])[|s.deadRows| := row.(status := Retrying, retryCount := 1)]
        == s.deadRows + [DeadRow(s.deadTopic[k], Retrying, 1)];
  }

  /** An admin retry puts the payload back on usage.raw exactly if the dead letter is neither RESOLVED nor DISCARDED, and
      counts; a discarded one stays discarded under any retry. */
  lemma RetryRepublishesIff(s: State, j: nat)
    requires j < |s.deadRows|
    ensures var s', d := Next(s, RetryDead(j)), s.deadRows[j];
      && (s'.raw == s.raw + [d.payload] <==> d.status == DeadStatus.Failed || d.status == Retrying)
      && (s'.raw == s.raw <==> d.status == Resolved || d.status == Discarded)
      && s'.deadRows == (if s'.raw == s.raw then s.deadRows
                         else s.deadRows[j := DeadRow(d.payload, Retrying, d.retryCount + 1)])
      && Next(Next(s, DiscardDead(j)), RetryDead(j)).raw == s.raw
  {
  }

  /** Once an event has left PENDING, nothing (redelivery, outbox retry, admin retry) ever validates it
      again. An admin retry of a rejected event therefore ends in the duplicates topic. */
  lemma {:induction false} NeverValidatedAgain(s: State, steps: seq<Step>, i: nat)
    requires Inv(s) && i < |s.store.rows| && s.store.rows[i].status != Pending
    ensures var s' := Run(s, steps);
      && i < |s'.store.rows| && s'.store.rows[i].status != Pending
      && ValidatedCount(s'.validated, i) == ValidatedCount(s.validated, i)
  {
    hide Next, ValidatedCount, Inv;
    if steps != [] {
      var before, a := Run(s, steps[..|steps| - 1]), steps[|steps| - 1];
      NeverValidatedAgain(s, steps[..|steps| - 1], i);
      RunKeepsInv(s, steps[..|steps| - 1]);
      StatusMoves(before, a, i);
      NoNewValidation(before, a, i);
    }
  }

  lemma NoNewValidation(s: State, a: Step, i: nat)
    requires Inv(s) && i < |s.store.rows| && s.store.rows[i].status != Pending
    ensures ValidatedCount(Next(s, a).validated, i) == ValidatedCount(s.validated, i)
  {
    hide StoreOk, MessagesKnown, Judge, Act, ValidatedCount, KeyOf, Added, WithStatus;
    if a.Validate? && a.message < |s.raw| {
      var p := s.raw[a.message];
      RawKnown(s, a.message);
      AcceptedIff(s.store, p, a.env);
      match Judge(s.store.rows, p, a.env)
      case Accept(sub, featureType) => CountPush(s.validated, Valid(p, sub, featureType), [], 0, i);
      case _ =>
    }
  }

  predicate FromConsume(s: State, i: nat) {
    i < |s.store.outbox| && s.store.outbox[i].payload.id.None?
  }

  predicate Untouched(s: State, i: nat) {
    IsPending(s, i) && ValidatedCount(s.validated, i) == 0 && i !in s.marking
  }

  lemma NextKeepsConsumeUntouched(s: State, a: Step, i: nat)
    requires Inv(s) && FromConsume(Next(s, a), i) && (FromConsume(s, i) ==> Untouched(s, i))
    requires |s.store.outbox| <= i ==> ValidatedCount(s.validated, i) == 0 && i !in s.marking
    ensures Untouched(Next(s, a), i)
  {
    hide StoreOk, MessagesKnown, Judge, ValidatedCount, KeyOf, Added, Persist, Filter, Ordered, HasEvent;
    NextKeepsStoreOk(s, a);
    if a.Produce? {
      ActKeepsStore(s.store, a.action);
      OutboxMatchesRows(s.store);
      OutboxMatchesRows(Next(s, a).store);
      if |s.store.rows| <= i {
        NewRowsArePending(s.store, a.action, i);
      }
    } else if a.Validate? && a.message < |s.raw| {
      var p := s.raw[a.message];
      RawKnown(s, a.message);
      ConsumeHasNoMessage(s, p, i);
      match Judge(s.store.rows, p, a.env)
      case Accept(sub, featureType) =>
        AcceptHasId(s.store.rows, p, a.env);
        CountPush(s.validated, Valid(p, sub, featureType), [], 0, i);
      case _ =>
    } else if a.Upsert? && a.message < |s.validated| {
      ValidatedKnown(s, a.message);
      ConsumeHasNoMessage(s, s.validated[a.message].payload, i);
    }
  }

  lemma OutboxMatchesRows(store: Store)
    requires StoreOk(store)
    ensures |store.outbox| == |store.rows|
  {
  }

  lemma ValidatedKnown(s: State, k: nat)
    requires Inv(s) && k < |s.validated|
    ensures Known(s.store, s.validated[k].payload) && s.validated[k].payload.id.Some? && 0 < s.validated[k].payload.amount
  {
    assert s.validated[k] in s.validated;
  }

  lemma ConsumeHasNoMessage(s: State, p: Payload, i: nat)
    requires Inv(s) && Known(s.store, p) && FromConsume(s, i)
    ensures p.id != Some(i)
  {
    hide MessagesKnown;
    if p.id.Some? {
      KnownShape(s.store, p);
    }
  }

  lemma {:induction false} PersistAddsPending(rows: seq<Row>, outbox: seq<OutboxRow>, inputs: seq<Input>, tenant: nat)
    ensures var p := Persist(rows, outbox, inputs, tenant);
      rows <= p.rows && forall i | |rows| <= i < |p.rows| :: p.rows[i].status == Pending
  {
    if inputs != [] {
      PersistAddsPending(rows, outbox, inputs[..|inputs| - 1], tenant);
    }
  }

  lemma NewRowsArePending(store: Store, action: Action, i: nat)
    requires |store.rows| <= i < |Act(store, action).rows|
    ensures Act(store, action).rows[i].status == Pending
  {
    hide Persist, Filter, Ordered;
    if action.Ingest? && action.entitled.Some? {
      PersistAddsPending(store.rows, store.outbox, Filter(action.batch, action.entitled.value, action.now, store.dedup).toPersist, action.tenant);
    }
  }

  /** A granted consume stores an event whose message fails the first check, always: the event stays
      PENDING and never reaches an aggregate, so it is never billed. */
  lemma {:induction false} ConsumedUsageIsNeverBilled(steps: seq<Step>, i: nat)
    ensures var s := Run(EMPTY, steps);
      && (FromConsume(s, i) ==> Untouched(s, i))
      && (|s.store.outbox| <= i ==> ValidatedCount(s.validated, i) == 0 && i !in s.marking)
  {
    hide Next, Inv, Untouched, ValidatedCount, FromConsume;
    if steps == [] {
      NothingConsumed(i);
    } else {
      var s, a := Run(EMPTY, steps[..|steps| - 1]), steps[|steps| - 1];
      ConsumedUsageIsNeverBilled(steps[..|steps| - 1], i);
      EmptyOk();
      RunKeepsInv(EMPTY, steps[..|steps| - 1]);
      RunKeepsInv(EMPTY, steps);
      if FromConsume(Next(s, a), i) {
        ConsumeWasConsume(s, a, i);
        NextKeepsConsumeUntouched(s, a, i);
      }
      NoMessageBeforeRow(Next(s, a), i);
      NextKeepsMarkingKnown(s, a, i);
    }
  }

  lemma NothingConsumed(i: nat)
    ensures !FromConsume(EMPTY, i) && ValidatedCount([], i) == 0
  {
  }

  lemma ConsumeWasConsume(s: State, a: Step, i: nat)
    requires Inv(s) && FromConsume(Next(s, a), i)
    ensures FromConsume(s, i) || |s.store.outbox| <= i
  {
    hide Next, StoreOk, MessagesKnown;
    NextKeepsStoreOk(s, a);
  }

  lemma {:induction false} NoCountWithoutMessage(validated: seq<Valid>, i: nat)
    requires forall v | v in validated :: v.payload.id != Some(i)
    ensures ValidatedCount(validated, i) == 0
  {
    if validated != [] {
      NoCountWithoutMessage(validated[..|validated| - 1], i);
    }
  }

  lemma NoMessageBeforeRow(s: State, i: nat)
    requires Inv(s)
    ensures |s.store.outbox| <= i ==> ValidatedCount(s.validated, i) == 0
  {
    if |s.store.outbox| <= i {
      forall v | v in s.validated ensures v.payload.id != Some(i) {
        KnownShape(s.store, v.payload);
      }
      NoCountWithoutMessage(s.validated, i);
    }
  }

  lemma NextKeepsMarkingKnown(s: State, a: Step, i: nat)
    requires Inv(s) && (|s.store.outbox| <= i ==> i !in s.marking)
    ensures |Next(s, a).store.outbox| <= i ==> i !in Next(s, a).marking
  {
    hide StoreOk, MessagesKnown, Judge, KeyOf, Added, WithStatus, Act;
    NextKeepsStoreOk(s, a);
    if a.Upsert? && a.message < |s.validated| {
      ValidatedKnown(s, a.message);
      KnownShape(s.store, s.validated[a.message].payload);
      OutboxMatchesRows(s.store);
    }
  }

  // ----- aggregates against events -----

  /** Usage of one tenant and feature in one UTC month, whatever the subscription. */
  datatype Bucket = Bucket(tenant: nat, feature: string, month: int)

  predicate KeyIn(k: AggKey, b: Bucket) {
    k.tenant == b.tenant && k.feature == b.feature && k.period == MonthKey(b.month)
  }

  predicate PayloadIn(p: Payload, b: Bucket) {
    p.tenant == b.tenant && p.feature == Some(b.feature) && p.timestamp.Some? && Calendar.MonthOf(p.timestamp.value) == b.month
  }

  function InBucket(aggregates: map<AggKey, int>, b: Bucket): map<AggKey, int> {
    map k | k in aggregates :: if KeyIn(k, b) then aggregates[k] else 0
  }

  /** The aggregates of a bucket, summed over subscriptions. */
  ghost function Total(aggregates: map<AggKey, int>, b: Bucket): int {
    MapSum(InBucket(aggregates, b))
  }

  predicate AllBelow(ks: seq<nat>, n: nat) {
    forall i | 0 <= i < |ks| :: ks[i] < n
  }

  function UpsertSum(validated: seq<Valid>, upserts: seq<nat>, b: Bucket): int
    requires AllBelow(upserts, |validated|)
  {
    if upserts == [] then 0
    else
      var p := validated[upserts[|upserts| - 1]].payload;
      UpsertSum(validated, upserts[..|upserts| - 1], b) + if PayloadIn(p, b) then p.amount else 0
  }

  lemma AddedTotal(aggregates: map<AggKey, int>, key: AggKey, amount: int, b: Bucket)
    ensures Total(Added(aggregates, key, amount), b) == Total(aggregates, b) + if KeyIn(key, b) then amount else 0
  {
    hide MapSum;
    var m, v := InBucket(aggregates, b), if KeyIn(key, b) then Added(aggregates, key, amount)[key] else 0;
    assert InBucket(Added(aggregates, key, amount), b) == m[key := v];
    MapSumPut(m, key, v);
  }

  lemma {:induction false} UpsertSumIgnoresLater(validated: seq<Valid>, v: Valid, upserts: seq<nat>, b: Bucket)
    requires AllBelow(upserts, |validated|)
    ensures UpsertSum(validated + [v], upserts, b) == UpsertSum(validated, upserts, b)
  {
    if upserts != [] {
      UpsertSumIgnoresLater(validated, v, upserts[..|upserts| - 1], b);
    }
  }

  predicate UpsertsKnown(s: State) {
    AllBelow(s.upserts, |s.validated|)
  }

  lemma NextKeepsTotal(s: State, a: Step, b: Bucket)
    requires Inv(s) && UpsertsKnown(s) && Total(s.aggregates, b) == UpsertSum(s.validated, s.upserts, b)
    ensures UpsertsKnown(Next(s, a))
    ensures Total(Next(s, a).aggregates, b) == UpsertSum(Next(s, a).validated, Next(s, a).upserts, b)
  {
    hide StoreOk, MessagesKnown, Judge, Act, WithStatus, Total, Added, KeyOf, PayloadIn, KeyIn, UpsertSum;
    if a.Upsert? && a.message < |s.validated| {
      var v := s.validated[a.message];
      ValidatedKnown(s, a.message);
      AddedTotal(s.aggregates, KeyOf(v), v.payload.amount, b);
      KeyInIffPayloadIn(s, v, b);
      UpsertSumPush(s.validated, s.upserts, a.message, b);
    } else if a.Validate? && a.message < |s.raw| {
      match Judge(s.store.rows, s.raw[a.message], a.env)
      case Accept(sub, t) => UpsertSumIgnoresLater(s.validated, Valid(s.raw[a.message], sub, t), s.upserts, b);
      case _ =>
    }
  }

  lemma UpsertSumPush(validated: seq<Valid>, upserts: seq<nat>, k: nat, b: Bucket)
    requires k < |validated| && AllBelow(upserts, |validated|)
    ensures AllBelow(upserts + [k], |validated|)
    ensures UpsertSum(validated, upserts + [k], b)
            == UpsertSum(validated, upserts, b) + if PayloadIn(validated[k].payload, b) then validated[k].payload.amount else 0
  {
    assert (upserts + [k])[..|upserts|] == upserts;
  }

  lemma KeyInIffPayloadIn(s: State, v: Valid, b: Bucket)
    requires Inv(s) && Known(s.store, v.payload) && v.payload.id.Some?
    ensures KeyIn(KeyOf(v), b) <==> PayloadIn(v.payload, b)
  {
    hide MessagesKnown, CalculatePeriod;
    KnownShape(s.store, v.payload);
    KeysAreMonthly(v);
  }

  lemma {:induction false} TotalsMatchUpserts(steps: seq<Step>, b: Bucket)
    ensures var s := Run(EMPTY, steps);
      UpsertsKnown(s) && Total(s.aggregates, b) == UpsertSum(s.validated, s.upserts, b)
  {
    hide Next, Inv, UpsertSum;
    if steps == [] {
      NoTotals(b);
    } else {
      EmptyOk();
      RunKeepsInv(EMPTY, steps[..|steps| - 1]);
      TotalsMatchUpserts(steps[..|steps| - 1], b);
      NextKeepsTotal(Run(EMPTY, steps[..|steps| - 1]), steps[|steps| - 1], b);
    }
  }

  lemma NoTotals(b: Bucket)
    ensures Total(map[], b) == 0 == UpsertSum([], [], b)
  {
    assert InBucket(map[], b) == map[];
  }

  // ----- AGGREGATED events are never ahead of the aggregates -----

  predicate EventIn(row: Row, b: Bucket) {
    row.tenant == b.tenant && row.feature == b.feature && Calendar.MonthOf(row.timestamp) == b.month
  }

  /** The amounts of the bucket's AGGREGATED events, by event. */
  function AggregatedEvents(rows: seq<Row>, b: Bucket): map<nat, int> {
    map i: nat | i < |rows| && rows[i].status == Aggregated && EventIn(rows[i], b) :: rows[i].amount
  }

  /** The amounts of the bucket's upserted messages, one entry per event. */
  function UpsertedEvents(validated: seq<Valid>, upserts: seq<nat>, b: Bucket): map<nat, int>
    requires AllBelow(upserts, |validated|)
  {
    if upserts == [] then map[]
    else
      var p, before := validated[upserts[|upserts| - 1]].payload, UpsertedEvents(validated, upserts[..|upserts| - 1], b);
      if PayloadIn(p, b) then before[p.id.GetOr(0) := p.amount] else before
  }

  predicate HasUpsert(s: State, i: nat) {
    exists k | 0 <= k < |s.upserts| :: s.upserts[k] < |s.validated| && s.validated[s.upserts[k]].payload.id == Some(i)
  }

  lemma HasUpsertIff(s: State, i: nat)
    requires UpsertsKnown(s)
    ensures HasUpsert(s, i) <==> UpsertOf(s.validated, s.upserts, i)
  {
  }

  /** Every event that is marked, or about to be, has been upserted. */
  predicate MarksBacked(s: State) {
    && (forall i | 0 <= i < |s.store.rows| && s.store.rows[i].status == Aggregated :: HasUpsert(s, i))
    && (forall i | i in s.marking :: HasUpsert(s, i))
  }

  lemma UpsertStays(s: State, a: Step, i: nat)
    requires HasUpsert(s, i)
    ensures HasUpsert(Next(s, a), i)
  {
    hide Judge, KeyOf, Added, WithStatus, Act;
    var k :| 0 <= k < |s.upserts| && s.upserts[k] < |s.validated| && s.validated[s.upserts[k]].payload.id == Some(i);
    assert s.upserts <= Next(s, a).upserts && s.validated <= Next(s, a).validated;
    assert Next(s, a).upserts[k] == s.upserts[k];
  }

  lemma NewMarkIsBacked(s: State, k: nat)
    requires k < |s.validated| && s.validated[k].payload.id.Some?
    ensures HasUpsert(Upserted(s, k), s.validated[k].payload.id.value)
  {
    hide KeyOf, Added;
    assert Upserted(s, k).upserts[|s.upserts|] == k;
  }

  /** A status becomes AGGREGATED only by the mark step. */
  lemma OnlyMarkAggregates(s: State, a: Step, i: nat)
    requires Inv(s) && i < |Next(s, a).store.rows| && Next(s, a).store.rows[i].status == Aggregated
    ensures (i < |s.store.rows| && s.store.rows[i].status == Aggregated) || (a == Mark(i) && i in s.marking)
  {
    hide StoreOk, MessagesKnown, Judge, KeyOf, Added, Persist, Filter, Ordered, HasEvent;
    if a.Produce? {
      ActKeepsStore(s.store, a.action);
      if |s.store.rows| <= i {
        NewRowsArePending(s.store, a.action, i);
      }
    }
  }

  lemma NextKeepsMarksBacked(s: State, a: Step)
    requires Inv(s) && MarksBacked(s)
    ensures MarksBacked(Next(s, a))
  {
    hide StoreOk, MessagesKnown, Judge, KeyOf, Added, Act, HasUpsert, WithStatus;
    var s' := Next(s, a);
    forall i | 0 <= i < |s'.store.rows| && s'.store.rows[i].status == Aggregated ensures HasUpsert(s', i) {
      OnlyMarkAggregates(s, a, i);
      UpsertStays(s, a, i);
    }
    forall i | i in s'.marking ensures HasUpsert(s', i) {
      if i in s.marking {
        UpsertStays(s, a, i);
      } else {
        ValidatedKnown(s, a.message);
        NewMarkIsBacked(s, a.message);
      }
    }
  }

  lemma {:induction false} RunKeepsMarksBacked(steps: seq<Step>)
    ensures MarksBacked(Run(EMPTY, steps))
  {
    hide Next, Inv, MarksBacked;
    if steps == [] {
      assert MarksBacked(EMPTY) by { EmptyMarks(); }
    } else {
      EmptyOk();
      RunKeepsInv(EMPTY, steps[..|steps| - 1]);
      RunKeepsMarksBacked(steps[..|steps| - 1]);
      NextKeepsMarksBacked(Run(EMPTY, steps[..|steps| - 1]), steps[|steps| - 1]);
    }
  }

  lemma EmptyMarks()
    ensures MarksBacked(EMPTY)
  {
  }

  /** The payloads of validated messages are the rows they belong to. */
  predicate FromRows(validated: seq<Valid>, rows: seq<Row>) {
    forall k | 0 <= k < |validated| ::
      var p := validated[k].payload;
      p.id.Some? && 0 < p.amount && p.id.value < |rows| && p == EventPayload(p.id.value, rows[p.id.value])
  }

  lemma MessagesAreFromRows(s: State)
    requires Inv(s)
    ensures FromRows(s.validated, s.store.rows)
  {
    hide StoreOk;
    forall k | 0 <= k < |s.validated|
      ensures var p := s.validated[k].payload;
        p.id.Some? && 0 < p.amount && p.id.value < |s.store.rows| && p == EventPayload(p.id.value, s.store.rows[p.id.value])
    {
      ValidatedKnown(s, k);
      KnownShape(s.store, s.validated[k].payload);
    }
  }

  predicate UpsertOf(validated: seq<Valid>, upserts: seq<nat>, i: nat)
    requires AllBelow(upserts, |validated|)
  {
    exists k | 0 <= k < |upserts| :: validated[upserts[k]].payload.id == Some(i)
  }

  lemma UpsertOfPush(validated: seq<Valid>, upserts: seq<nat>, i: nat)
    requires upserts != [] && AllBelow(upserts, |validated|)
    ensures UpsertOf(validated, upserts, i)
            <==> UpsertOf(validated, upserts[..|upserts| - 1], i) || validated[upserts[|upserts| - 1]].payload.id == Some(i)
  {
    var before := upserts[..|upserts| - 1];
    if UpsertOf(validated, before, i) {
      var k :| 0 <= k < |before| && validated[before[k]].payload.id == Some(i);
      assert upserts[k] == before[k];
    }
  }

  lemma PayloadInIffEventIn(id: nat, row: Row, b: Bucket)
    ensures PayloadIn(EventPayload(id, row), b) <==> EventIn(row, b)
  {
  }

  predicate InUpserted(validated: seq<Valid>, upserts: seq<nat>, rows: seq<Row>, b: Bucket, i: nat)
    requires AllBelow(upserts, |validated|)
  {
    i < |rows| && EventIn(rows[i], b) && UpsertOf(validated, upserts, i)
  }

  lemma {:induction false} UpsertedEventsShape(validated: seq<Valid>, upserts: seq<nat>, rows: seq<Row>, b: Bucket)
    requires AllBelow(upserts, |validated|) && FromRows(validated, rows)
    ensures forall i: nat :: i in UpsertedEvents(validated, upserts, b) <==> InUpserted(validated, upserts, rows, b, i)
    ensures forall i | i in UpsertedEvents(validated, upserts, b) ::
              i < |rows| && 0 < UpsertedEvents(validated, upserts, b)[i] == rows[i].amount
  {
    hide EventIn, PayloadIn, UpsertOf;
    if upserts != [] {
      var before, p := upserts[..|upserts| - 1], validated[upserts[|upserts| - 1]].payload;
      UpsertedEventsShape(validated, before, rows, b);
      PayloadInIffEventIn(p.id.value, rows[p.id.value], b);
      forall i: nat
        ensures UpsertOf(validated, upserts, i) <==> UpsertOf(validated, before, i) || p.id == Some(i)
      {
        UpsertOfPush(validated, upserts, i);
      }
    } else {
      assert forall i: nat :: !UpsertOf(validated, upserts, i) by { NoUpsertOf(validated); }
    }
  }

  lemma NoUpsertOf(validated: seq<Valid>)
    ensures forall i: nat :: !UpsertOf(validated, [], i)
  {
  }

  /** Counting each event once never exceeds the upserts, and is exact when no event was upserted twice. */
  lemma {:induction false} OncePerEvent(validated: seq<Valid>, upserts: seq<nat>, rows: seq<Row>, b: Bucket)
    requires AllBelow(upserts, |validated|) && FromRows(validated, rows)
    ensures MapSum(UpsertedEvents(validated, upserts, b)) <= UpsertSum(validated, upserts, b)
    ensures NoEventTwice(validated, upserts) ==>
              MapSum(UpsertedEvents(validated, upserts, b)) == UpsertSum(validated, upserts, b)
  {
    hide PayloadIn, EventIn, UpsertOf, FromRows, NoEventTwice;
    if upserts != [] {
      var before, k := upserts[..|upserts| - 1], upserts[|upserts| - 1];
      var p := validated[k].payload;
      OncePerEvent(validated, before, rows, b);
      UpsertedEventsShape(validated, before, rows, b);
      IdOfMessage(validated, rows, k);
      MapSumPut(UpsertedEvents(validated, before, b), p.id.value, p.amount);
      if NoEventTwice(validated, upserts) {
        LastIsNew(validated, upserts, p.id.value);
      }
    }
  }

  lemma IdOfMessage(validated: seq<Valid>, rows: seq<Row>, k: nat)
    requires k < |validated| && FromRows(validated, rows)
    ensures var p := validated[k].payload; p.id.Some? && p.id.value < |rows| && 0 < p.amount == rows[p.id.value].amount
  {
  }

  lemma LastIsNew(validated: seq<Valid>, upserts: seq<nat>, i: nat)
    requires upserts != [] && AllBelow(upserts, |validated|) && NoEventTwice(validated, upserts)
    requires validated[upserts[|upserts| - 1]].payload.id == Some(i)
    ensures NoEventTwice(validated, upserts[..|upserts| - 1]) && !UpsertOf(validated, upserts[..|upserts| - 1], i)
  {
  }

  predicate NoEventTwice(validated: seq<Valid>, upserts: seq<nat>)
    requires AllBelow(upserts, |validated|)
  {
    forall i, j | 0 <= i < j < |upserts| :: validated[upserts[i]].payload.id != validated[upserts[j]].payload.id
  }

  /** At every point of every run, whatever is redelivered and wherever a consumer crashes: the
      aggregates of a tenant, feature and month, summed over subscriptions, are at least the sum of
      the amounts of its AGGREGATED events. */
  lemma AggregatesCoverAggregatedEvents(steps: seq<Step>, b: Bucket)
    ensures var s := Run(EMPTY, steps);
      MapSum(AggregatedEvents(s.store.rows, b)) <= Total(s.aggregates, b)
  {
    hide Run, Inv, UpsertSum, UpsertedEvents, Total, EventIn;
    var s := Run(EMPTY, steps);
    EmptyOk();
    RunKeepsInv(EMPTY, steps);
    RunKeepsMarksBacked(steps);
    TotalsMatchUpserts(steps, b);
    MessagesAreFromRows(s);
    UpsertedEventsShape(s.validated, s.upserts, s.store.rows, b);
    OncePerEvent(s.validated, s.upserts, s.store.rows, b);
    forall i | 0 <= i < |s.store.rows| && s.store.rows[i].status == Aggregated ensures UpsertOf(s.validated, s.upserts, i) {
      HasUpsertIff(s, i);
    }
    MapSumGrows(AggregatedEvents(s.store.rows, b), UpsertedEvents(s.validated, s.upserts, b));
  }

  /** With each validated message consumed once and no lost status write, every total is the sum of the
      amounts of a set of distinct events. */
  lemma ConsumedOnceCountsDistinctEvents(steps: seq<Step>, b: Bucket)
    requires Distinct(Run(EMPTY, steps).upserts) && Run(EMPTY, steps).lostWrites == []
    ensures var s := Run(EMPTY, steps);
      && UpsertsKnown(s)
      && Total(s.aggregates, b) == MapSum(UpsertedEvents(s.validated, s.upserts, b))
      && forall i | i in UpsertedEvents(s.validated, s.upserts, b) ::
           i < |s.store.rows| && EventIn(s.store.rows[i], b)
           && UpsertedEvents(s.validated, s.upserts, b)[i] == s.store.rows[i].amount
  {
    hide Run, Inv, UpsertSum, UpsertedEvents, Total, EventIn;
    var s := Run(EMPTY, steps);
    EmptyOk();
    RunKeepsInv(EMPTY, steps);
    TotalsMatchUpserts(steps, b);
    MessagesAreFromRows(s);
    UpsertedEventsShape(s.validated, s.upserts, s.store.rows, b);
    DistinctUpserts(steps);
    OncePerEvent(s.validated, s.upserts, s.store.rows, b);
  }

  predicate Distinct(ks: seq<nat>) {
    forall i, j | 0 <= i < j < |ks| :: ks[i] != ks[j]
  }

  lemma {:induction false} CountTwo(validated: seq<Valid>, j: nat, k: nat, i: nat)
    requires j < k < |validated| && validated[j].payload.id == Some(i) == validated[k].payload.id
    ensures 2 <= ValidatedCount(validated, i)
  {
    if k < |validated| - 1 {
      CountTwo(validated[..|validated| - 1], j, k, i);
    } else {
      CountOne(validated[..|validated| - 1], j, i);
    }
  }

  lemma {:induction false} CountOne(validated: seq<Valid>, j: nat, i: nat)
    requires j < |validated| && validated[j].payload.id == Some(i)
    ensures 1 <= ValidatedCount(validated, i)
  {
    if j < |validated| - 1 {
      CountOne(validated[..|validated| - 1], j, i);
    }
  }

  lemma DistinctUpserts(steps: seq<Step>)
    requires Distinct(Run(EMPTY, steps).upserts) && Run(EMPTY, steps).lostWrites == []
    requires UpsertsKnown(Run(EMPTY, steps)) && FromRows(Run(EMPTY, steps).validated, Run(EMPTY, steps).store.rows)
    ensures NoEventTwice(Run(EMPTY, steps).validated, Run(EMPTY, steps).upserts)
  {
    hide Run, ValidatedCount;
    var s := Run(EMPTY, steps);
    forall i, j | 0 <= i < j < |s.upserts|
      ensures s.validated[s.upserts[i]].payload.id != s.validated[s.upserts[j]].payload.id
    {
      var m, n, id := s.upserts[i], s.upserts[j], s.validated[s.upserts[i]].payload.id;
      if s.validated[m].payload.id == s.validated[n].payload.id {
        AtMostOneValidatedMessage(steps, id.value);
        CountTwo(s.validated, if m < n then m else n, if m < n then n else m, id.value);
      }
    }
  }

  // ----- runs without redelivery and crashes are exact -----

  /** A message is handled only while its event has not been handled, writes are not lost, and no
      consumer stops between the upsert and the mark. */
  predicate CleanStep(s: State, a: Step) {
    && (a.Validate? ==> a.written && (a.message < |s.raw| && s.raw[a.message].id.Some? ==> IsPending(s, s.raw[a.message].id.value)))
    && (a.Upsert? ==> a.message !in s.upserts)
    && !a.MarkFails?
  }

  predicate CleanRun(steps: seq<Step>) {
    forall j | 0 <= j < |steps| :: CleanStep(Run(EMPTY, steps[..j]), steps[j])
  }

  /** Every upserted event is marked or still in the hands of the consumer. */
  predicate UpsertsAccounted(s: State) {
    forall k | 0 <= k < |s.upserts| && s.upserts[k] < |s.validated| ::
      Accounted(s, s.validated[s.upserts[k]].payload.id.GetOr(0))
  }

  /** In a clean step an AGGREGATED event stays AGGREGATED. */
  lemma CleanKeepsAggregated(s: State, a: Step, i: nat)
    requires Inv(s) && CleanStep(s, a) && i < |s.store.rows| && s.store.rows[i].status == Aggregated
    ensures i < |Next(s, a).store.rows| && Next(s, a).store.rows[i].status == Aggregated
  {
    hide StoreOk, MessagesKnown, Judge, KeyOf, Added, Persist, Filter, Ordered, HasEvent;
    NextKeepsStoreOk(s, a);
    if a.Produce? {
      ActKeepsStore(s.store, a.action);
    }
  }

  lemma MarkedIsAggregated(s: State, i: nat)
    requires i in s.marking && i < |s.store.rows|
    ensures i < |Next(s, Mark(i)).store.rows| && Next(s, Mark(i)).store.rows[i].status == Aggregated
  {
  }

  lemma MarkingMoves(s: State, a: Step, i: nat)
    requires !a.MarkFails? && i in s.marking
    ensures i in Next(s, a).marking || a == Mark(i)
  {
    hide Judge, KeyOf, Added, WithStatus, Act;
  }

  predicate Accounted(s: State, id: nat) {
    id in s.marking || (id < |s.store.rows| && s.store.rows[id].status == Aggregated)
  }

  lemma StaysAccounted(s: State, a: Step, id: nat)
    requires Inv(s) && CleanStep(s, a) && Accounted(s, id) && id < |s.store.rows|
    ensures Accounted(Next(s, a), id)
  {
    hide Next, StoreOk, MessagesKnown;
    if id in s.marking {
      CleanHas(s, a);
      MarkingMoves(s, a, id);
      if a == Mark(id) {
        MarkedIsAggregated(s, id);
      }
    } else {
      CleanKeepsAggregated(s, a, id);
    }
  }

  lemma NextKeepsAccounted(s: State, a: Step)
    requires Inv(s) && UpsertsKnown(s) && UpsertsAccounted(s) && Distinct(s.upserts) && s.lostWrites == []
    requires CleanStep(s, a)
    ensures UpsertsAccounted(Next(s, a)) && Distinct(Next(s, a).upserts) && Next(s, a).lostWrites == []
  {
    hide Inv, Accounted, Judge, KeyOf, Added, Act, WithStatus, CleanStep;
    CleanHas(s, a);
    var s' := Next(s, a);
    forall k | 0 <= k < |s'.upserts| && s'.upserts[k] < |s'.validated|
      ensures Accounted(s', s'.validated[s'.upserts[k]].payload.id.GetOr(0))
    {
      if k < |s.upserts| {
        KnownUpsert(s, s.upserts[k]);
        StaysAccounted(s, a, s.validated[s.upserts[k]].payload.id.GetOr(0));
      } else {
        JustMarked(s, a.message);
      }
    }
  }

  lemma KnownUpsert(s: State, k: nat)
    requires Inv(s) && k < |s.validated|
    ensures s.validated[k].payload.id.GetOr(0) < |s.store.rows|
  {
    hide MessagesKnown, StoreOk;
    ValidatedKnown(s, k);
    KnownShape(s.store, s.validated[k].payload);
  }

  lemma JustMarked(s: State, k: nat)
    requires k < |s.validated|
    ensures Accounted(Upserted(s, k), s.validated[k].payload.id.GetOr(0))
  {
    hide KeyOf, Added;
  }

  lemma CleanHas(s: State, a: Step)
    requires CleanStep(s, a)
    ensures !a.MarkFails? && (a.Upsert? ==> a.message !in s.upserts) && (a.Validate? ==> a.written)
  {
  }

  lemma {:induction false} CleanRunAccounts(steps: seq<Step>)
    requires CleanRun(steps)
    ensures var s := Run(EMPTY, steps);
      UpsertsAccounted(s) && Distinct(s.upserts) && s.lostWrites == []
  {
    hide Next, Inv, UpsertsAccounted, CleanStep;
    if steps == [] {
      assert UpsertsAccounted(EMPTY) by { NothingUpserted(); }
    } else {
      var before := steps[..|steps| - 1];
      forall j | 0 <= j < |before| ensures CleanStep(Run(EMPTY, before[..j]), before[j]) {
        assert before[..j] == steps[..j];
        assert CleanStep(Run(EMPTY, steps[..j]), steps[j]);
      }
      CleanRunAccounts(before);
      EmptyOk();
      RunKeepsInv(EMPTY, before);
      TotalsMatchUpserts(before, Bucket(0, "", 0));
      NextKeepsAccounted(Run(EMPTY, before), steps[|steps| - 1]);
    }
  }

  lemma NothingUpserted()
    ensures UpsertsAccounted(EMPTY)
  {
  }

  /** In a run without redelivery, crashes and lost writes, whenever the aggregation consumer is idle,
      the aggregates equal the AGGREGATED events exactly. */
  lemma CleanRunsAreExact(steps: seq<Step>, b: Bucket)
    requires CleanRun(steps) && Run(EMPTY, steps).marking == multiset{}
    ensures var s := Run(EMPTY, steps);
      Total(s.aggregates, b) == MapSum(AggregatedEvents(s.store.rows, b))
  {
    hide Run, Inv, UpsertSum, UpsertedEvents, Total, EventIn, CleanRun, MapSum;
    var s := Run(EMPTY, steps);
    CleanRunAccounts(steps);
    EmptyOk();
    RunKeepsInv(EMPTY, steps);
    RunKeepsMarksBacked(steps);
    ConsumedOnceCountsDistinctEvents(steps, b);
    MessagesAreFromRows(s);
    UpsertedEventsShape(s.validated, s.upserts, s.store.rows, b);
    forall i: nat ensures i in AggregatedEvents(s.store.rows, b) <==> i in UpsertedEvents(s.validated, s.upserts, b) {
      HasUpsertIff(s, i);
    }
    assert AggregatedEvents(s.store.rows, b) == UpsertedEvents(s.validated, s.upserts, b);
  }

  // ----- delivering each message once is enough -----

  /** The same row is not published twice, nor the same message consumed twice. */
  predicate SameDelivery(a: Step, b: Step) {
    match (a, b)
    case (Publish(i), Publish(j)) => i == j
    case (Validate(i, _, _), Validate(j, _, _)) => i == j
    case (Upsert(i), Upsert(j)) => i == j
    case _ => false
  }

  /** Each outbox row is published and each message consumed at most once, nothing is retried by hand, no status
      write is lost, and the consumer does not stop before the mark. */
  predicate DeliveredOnce(steps: seq<Step>) {
    && (forall i, j | 0 <= i < j < |steps| :: !SameDelivery(steps[i], steps[j]))
    && (forall i | 0 <= i < |steps| :: !steps[i].RetryDead? && !steps[i].MarkFails? && (steps[i].Validate? ==> steps[i].written))
  }

  predicate Published(steps: seq<Step>, i: nat) {
    exists j | 0 <= j < |steps| :: steps[j] == Publish(i)
  }

  predicate Consumed(steps: seq<Step>, k: nat) {
    exists j | 0 <= j < |steps| :: steps[j].Validate? && steps[j].message == k
  }

  predicate UpsertedIn(steps: seq<Step>, k: nat) {
    exists j | 0 <= j < |steps| :: steps[j] == Step.Upsert(k)
  }

  /** A message of the event has been consumed. */
  predicate EventConsumed(s: State, steps: seq<Step>, i: nat) {
    exists k | 0 <= k < |s.raw| :: s.raw[k].id == Some(i) && Consumed(steps, k)
  }

  predicate RawOnce(s: State, steps: seq<Step>) {
    && (forall k | 0 <= k < |s.raw| && s.raw[k].id.Some? :: Published(steps, s.raw[k].id.value))
    && (forall k, l | 0 <= k < l < |s.raw| && s.raw[k].id.Some? :: s.raw[k].id != s.raw[l].id)
  }

  predicate MovedByMessage(s: State, steps: seq<Step>) {
    && (forall i | 0 <= i < |s.store.rows| && s.store.rows[i].status != Pending :: EventConsumed(s, steps, i))
    && (forall k | 0 <= k < |s.validated| :: EventConsumed(s, steps, s.validated[k].payload.id.GetOr(0)))
    && (forall i | i in s.marking :: EventConsumed(s, steps, i))
  }

  predicate UpsertsTold(s: State, steps: seq<Step>) {
    forall k | k in s.upserts :: UpsertedIn(steps, k)
  }

  lemma HappenedStays(steps: seq<Step>, a: Step)
    ensures forall i: nat :: Published(steps, i) ==> Published(steps + [a], i)
    ensures forall k: nat :: Consumed(steps, k) ==> Consumed(steps + [a], k)
    ensures forall k: nat :: UpsertedIn(steps, k) ==> UpsertedIn(steps + [a], k)
    ensures a.Publish? ==> Published(steps + [a], a.row)
    ensures a.Validate? ==> Consumed(steps + [a], a.message)
    ensures a.Upsert? ==> UpsertedIn(steps + [a], a.message)
  {
    assert (steps + [a])[|steps|] == a;
    assert forall j | 0 <= j < |steps| :: (steps + [a])[j] == steps[j];
  }

  lemma RawGrows(s: State, a: Step)
    requires !a.RetryDead?
    ensures var s' := Next(s, a);
      s'.raw == if a.Publish? && a.row < |s.store.outbox| then s.raw + [s.store.outbox[a.row].payload] else s.raw
  {
    hide Judge, KeyOf, Added, WithStatus, Act;
  }

  lemma EventConsumedStays(s: State, steps: seq<Step>, a: Step, i: nat)
    requires EventConsumed(s, steps, i) && !a.RetryDead?
    ensures EventConsumed(Next(s, a), steps + [a], i)
  {
    hide Next, Consumed;
    RawGrows(s, a);
    HappenedStays(steps, a);
    var k :| 0 <= k < |s.raw| && s.raw[k].id == Some(i) && Consumed(steps, k);
    assert Next(s, a).raw[k] == s.raw[k];
  }

  lemma NextKeepsRawOnce(s: State, steps: seq<Step>, a: Step)
    requires StoreOk(s.store) && RawOnce(s, steps) && !a.RetryDead? && (a.Publish? ==> !Published(steps, a.row))
    ensures RawOnce(Next(s, a), steps + [a])
  {
    hide Next, Published;
    RawGrows(s, a);
    HappenedStays(steps, a);
  }

  /** What a step can move, and by which message. */
  lemma MovesOnlyItsOwn(s: State, a: Step, i: nat)
    requires Inv(s) && i < |Next(s, a).store.rows| && Next(s, a).store.rows[i].status != Pending
    ensures (i < |s.store.rows| && s.store.rows[i].status != Pending)
            || (a.Validate? && a.message < |s.raw| && s.raw[a.message].id == Some(i))
            || (a.Mark? && a.event == i && i in s.marking)
  {
    hide MessagesKnown, StoreOk, Judge, KeyOf, Added, Act;
    if a.Produce? {
      if i < |s.store.rows| {
        ActKeepsStore(s.store, a.action);
      } else {
        NewRowsArePending(s.store, a.action, i);
      }
    }
  }

  lemma NewValidated(s: State, a: Step)
    ensures var s' := Next(s, a);
      forall k | 0 <= k < |s'.validated| ::
        (k < |s.validated| && s'.validated[k] == s.validated[k])
        || (a.Validate? && a.message < |s.raw| && s'.validated[k].payload == s.raw[a.message] && s.raw[a.message].id.Some?)
  {
    hide KeyOf, Added, WithStatus, Act, IsUuid, FindRow;
  }

  lemma NewMarking(s: State, a: Step, i: nat)
    requires i in Next(s, a).marking
    ensures i in s.marking
            || (a.Upsert? && a.message < |s.validated| && s.validated[a.message].payload.id.GetOr(0) == i)
  {
    hide KeyOf, Added, WithStatus, Act, Judge;
  }

  lemma NextKeepsMoved(s: State, steps: seq<Step>, a: Step)
    requires Inv(s) && MovedByMessage(s, steps) && !a.RetryDead?
    ensures MovedByMessage(Next(s, a), steps + [a])
  {
    hide Next, Inv, EventConsumed;
    var s', longer := Next(s, a), steps + [a];
    forall i: nat | EventConsumed(s, steps, i) ensures EventConsumed(s', longer, i) {
      EventConsumedStays(s, steps, a, i);
    }
    if a.Validate? && a.message < |s.raw| && s.raw[a.message].id.Some? {
      JustConsumed(s, steps, a);
    }
    forall i | 0 <= i < |s'.store.rows| && s'.store.rows[i].status != Pending ensures EventConsumed(s', longer, i) {
      MovesOnlyItsOwn(s, a, i);
    }
    NewValidated(s, a);
    forall i | i in s'.marking ensures EventConsumed(s', longer, i) {
      NewMarking(s, a, i);
    }
  }

  lemma JustConsumed(s: State, steps: seq<Step>, a: Step)
    requires a.Validate? && a.message < |s.raw| && s.raw[a.message].id.Some?
    ensures EventConsumed(Next(s, a), steps + [a], s.raw[a.message].id.value)
  {
    hide Next, Consumed;
    RawGrows(s, a);
    HappenedStays(steps, a);
    assert Next(s, a).raw[a.message].id == Some(s.raw[a.message].id.value);
  }

  lemma NextKeepsUpsertsTold(s: State, steps: seq<Step>, a: Step)
    requires UpsertsTold(s, steps)
    ensures UpsertsTold(Next(s, a), steps + [a])
  {
    hide KeyOf, Added, WithStatus, Act, Judge, UpsertedIn;
    HappenedStays(steps, a);
  }

  lemma FreshStepIsClean(s: State, steps: seq<Step>, a: Step)
    requires Inv(s) && RawOnce(s, steps) && MovedByMessage(s, steps) && UpsertsTold(s, steps)
    requires !a.MarkFails? && (a.Validate? ==> a.written && !Consumed(steps, a.message))
    requires a.Upsert? ==> !UpsertedIn(steps, a.message)
    ensures CleanStep(s, a)
  {
    hide StoreOk, MessagesKnown, Consumed, UpsertedIn, Published;
    if a.Validate? && a.message < |s.raw| && s.raw[a.message].id.Some? {
      RawKnown(s, a.message);
      KnownShape(s.store, s.raw[a.message]);
    }
  }

  lemma OnceFront(steps: seq<Step>)
    requires steps != [] && DeliveredOnce(steps)
    ensures var front, a := steps[..|steps| - 1], steps[|steps| - 1];
      && DeliveredOnce(front) && !a.RetryDead? && !a.MarkFails? && (a.Validate? ==> a.written && !Consumed(front, a.message))
      && (a.Upsert? ==> !UpsertedIn(front, a.message)) && (a.Publish? ==> !Published(front, a.row))
  {
    var front, last := steps[..|steps| - 1], |steps| - 1;
    assert forall j | 0 <= j < |front| :: front[j] == steps[j] && !SameDelivery(steps[j], steps[last]);
  }

  lemma {:induction false} OnceIsClean(steps: seq<Step>)
    requires DeliveredOnce(steps)
    ensures CleanRun(steps)
    ensures var s := Run(EMPTY, steps); RawOnce(s, steps) && MovedByMessage(s, steps) && UpsertsTold(s, steps)
  {
    hide Next, Inv, RawOnce, MovedByMessage, UpsertsTold, CleanStep, DeliveredOnce, Consumed, Published, UpsertedIn;
    if steps == [] {
      NothingHappened();
    } else {
      var front, a := steps[..|steps| - 1], steps[|steps| - 1];
      OnceFront(steps);
      OnceIsClean(front);
      var s := Run(EMPTY, front);
      EmptyOk();
      RunKeepsInv(EMPTY, front);
      InvHasStore(s);
      FreshStepIsClean(s, front, a);
      NextKeepsRawOnce(s, front, a);
      NextKeepsMoved(s, front, a);
      NextKeepsUpsertsTold(s, front, a);
      assert front + [a] == steps;
      forall j | 0 <= j < |steps| ensures CleanStep(Run(EMPTY, steps[..j]), steps[j]) {
        if j < |front| {
          assert front[..j] == steps[..j] && CleanStep(Run(EMPTY, front[..j]), front[j]);
        }
      }
    }
  }

  lemma InvHasStore(s: State)
    requires Inv(s)
    ensures StoreOk(s.store)
  {
  }

  lemma NothingHappened()
    ensures RawOnce(EMPTY, []) && MovedByMessage(EMPTY, []) && UpsertsTold(EMPTY, [])
  {
  }

  /** When every message is published and consumed at most once, no status write is lost and no consumer stops before the
      mark, the aggregates equal the AGGREGATED events exactly whenever the aggregation consumer is idle. */
  lemma DeliveredOnceIsExact(steps: seq<Step>, b: Bucket)
    requires DeliveredOnce(steps) && Run(EMPTY, steps).marking == multiset{}
    ensures var s := Run(EMPTY, steps);
      Total(s.aggregates, b) == MapSum(AggregatedEvents(s.store.rows, b))
  {
    OnceIsClean(steps);
    CleanRunsAreExact(steps, b);
  }
}
