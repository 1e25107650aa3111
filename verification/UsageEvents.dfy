/** Ingestion of usage events: a Redis fast path, pre-validation, and one transaction that writes each
    event with its outbox row. An event's database id is its position in `rows`. Redis may be down or
    evict keys before any access, and the transaction may fail. */
module UsageEvents {
  import opened Wrappers

  const MAX_EVENT_AGE_MS := 7 * 24 * 60 * 60 * 1000
  const MAX_FUTURE_DRIFT_MS := 5 * 60 * 1000

  datatype Input = Input(eventId: string, feature: string, amount: int, timestamp: Option<int>)

  datatype Redis = Down | Up(evicted: set<string>)

  /** One event of a batch and what Redis does when it is looked up. */
  datatype Arrival = Arrival(input: Input, redis: Redis)

  datatype EventStatus = Pending | Validated | Rejected | Aggregated

  datatype Row = Row(eventId: string, tenant: nat, feature: string, amount: int, timestamp: int, status: EventStatus)

  /** A usage.raw message. Fields that a producer leaves out are None. */
  datatype Payload = Payload(
    id: Option<nat>, eventId: string, tenant: nat, feature: Option<string>, amount: int, timestamp: Option<int>)

  datatype OutboxRow = OutboxRow(aggregateId: nat, payload: Payload)

  datatype Store = Store(rows: seq<Row>, outbox: seq<OutboxRow>, dedup: set<string>)

  datatype AnswerStatus = Accepted | Duplicate | Refused

  datatype Answer = Answer(eventId: string, status: AnswerStatus)

  datatype Response = Response(accepted: nat, rejected: nat, events: seq<Answer>)

  datatype Error = NoActiveSubscription | TransactionFailed

  datatype Reason = NotEntitled | BadTimestamp | InFuture | TooOld

  function PreValidate(e: Input, entitled: set<string>, now: int): Option<Reason> {
    if e.feature !in entitled then Some(NotEntitled)
    else if e.timestamp.None? then Some(BadTimestamp)
    else if e.timestamp.value > now + MAX_FUTURE_DRIFT_MS then Some(InFuture)
    else if e.timestamp.value < now - MAX_EVENT_AGE_MS then Some(TooOld)
    else None
  }

  predicate HasEvent(rows: seq<Row>, eventId: string) {
    exists r | r in rows :: r.eventId == eventId
  }

  // ----- the two loops, as functions -----

  datatype Filtered = Filtered(toPersist: seq<Input>, refused: seq<Answer>, dedup: set<string>)

  function Filter(batch: seq<Arrival>, entitled: set<string>, now: int, dedup: set<string>): Filtered {
    if batch == [] then Filtered([], [], dedup)
    else
      var f := Filter(batch[..|batch| - 1], entitled, now, dedup);
      FilterOne(f, batch[|batch| - 1], entitled, now)
  }

  function FilterOne(f: Filtered, a: Arrival, entitled: set<string>, now: int): Filtered {
    var e := a.input;
    var keys := if a.redis.Up? then f.dedup - a.redis.evicted else f.dedup;
    if a.redis.Up? && e.eventId in keys then
      f.(refused := f.refused + [Answer(e.eventId, Duplicate)], dedup := keys)
    else
      var dedup := if a.redis.Up? then keys + {e.eventId} else keys;
      if PreValidate(e, entitled, now).Some? then
        f.(refused := f.refused + [Answer(e.eventId, Refused)], dedup := dedup)
      else f.(toPersist := f.toPersist + [e], dedup := dedup)
  }

  datatype Persisted = Persisted(rows: seq<Row>, outbox: seq<OutboxRow>, answers: seq<Answer>)

  function EventPayload(id: nat, row: Row): Payload {
    Payload(Some(id), row.eventId, row.tenant, Some(row.feature), row.amount, Some(row.timestamp))
  }

  function RowOf(e: Input, tenant: nat): Row {
    Row(e.eventId, tenant, e.feature, e.amount, e.timestamp.GetOr(0), Pending)
  }

  function PersistOne(p: Persisted, e: Input, tenant: nat): Persisted {
    if HasEvent(p.rows, e.eventId) then p.(answers := p.answers + [Answer(e.eventId, Duplicate)])
    else
      var id, row := |p.rows|, RowOf(e, tenant);
      Persisted(p.rows + [row], p.outbox + [OutboxRow(id, EventPayload(id, row))],
                p.answers + [Answer(e.eventId, Accepted)])
  }

  function Persist(rows: seq<Row>, outbox: seq<OutboxRow>, inputs: seq<Input>, tenant: nat): Persisted {
    if inputs == [] then Persisted(rows, outbox, [])
    else PersistOne(Persist(rows, outbox, inputs[..|inputs| - 1], tenant), inputs[|inputs| - 1], tenant)
  }

  function Count(answers: seq<Answer>, refused: bool): nat {
    if answers == [] then 0
    else Count(answers[..|answers| - 1], refused)
         + if (answers[|answers| - 1].status == Refused) == refused then 1 else 0
  }

  /** The first answer for an event id. */
  function Find(answers: seq<Answer>, eventId: string): (r: Option<Answer>)
    ensures r.Some? ==> r.value in answers && r.value.eventId == eventId
    ensures r.None? ==> forall a | a in answers :: a.eventId != eventId
  {
    if answers == [] then None
    else if answers[0].eventId == eventId then Some(answers[0]) else Find(answers[1..], eventId)
  }

  function AnswerTo(answers: seq<Answer>, eventId: string): Answer {
    Find(answers, eventId).GetOr(Answer(eventId, Refused))
  }

  function Ordered(answers: seq<Answer>, batch: seq<Arrival>): seq<Answer> {
    seq(|batch|, i requires 0 <= i < |batch| => AnswerTo(answers, batch[i].input.eventId))
  }

  function Ingested(s: Store, tenant: nat, entitled: Option<set<string>>, now: int, batch: seq<Arrival>, commits: bool)
    : (Store, Result<Response, Error>)
  {
    if entitled.None? then (s, Err(NoActiveSubscription))
    else
      var f := Filter(batch, entitled.value, now, s.dedup);
      if !commits then (s.(dedup := f.dedup), Err(TransactionFailed))
      else
        var p := Persist(s.rows, s.outbox, f.toPersist, tenant);
        var all := p.answers + f.refused;
        (Store(p.rows, p.outbox, f.dedup), Ok(Response(Count(all, false), Count(all, true), Ordered(all, batch))))
  }

  /** The usage event and outbox row that a granted consume writes. Its payload carries neither the
      row id nor `feature` nor a timestamp. */
  function Consumed(s: Store, tenant: nat, feature: string, amount: int, eventId: string, now: int, commits: bool): Store {
    if !commits || HasEvent(s.rows, eventId) then s
    else s.(rows := s.rows + [Row(eventId, tenant, feature, amount, now, Pending)],
            outbox := s.outbox + [OutboxRow(|s.rows|, Payload(None, eventId, tenant, None, amount, None))])
  }

  // ----- the service -----

  class UsageEventsService {
    var rows: seq<Row>
    var outbox: seq<OutboxRow>
    var dedup: set<string>

    ghost function Snapshot(): Store
      reads this
    {
      Store(rows, outbox, dedup)
    }

    constructor ()
      ensures Snapshot() == Store([], [], {})
    {
      rows, outbox, dedup := [], [], {};
    }

    method Ingest(tenant: nat, entitled: Option<set<string>>, now: int, batch: seq<Arrival>, commits: bool)
      returns (r: Result<Response, Error>)
      modifies this
      ensures (Snapshot(), r) == Ingested(old(Snapshot()), tenant, entitled, now, batch, commits)
    {
      if entitled.None? {
        return Err(NoActiveSubscription);
      }
      var toPersist: seq<Input>, rejected: seq<Answer> := [], [];
      for i := 0 to |batch|
        invariant Filtered(toPersist, rejected, dedup) == Filter(batch[..i], entitled.value, now, old(dedup))
        invariant rows == old(rows) && outbox == old(outbox)
      {
        assert batch[..i + 1][..i] == batch[..i];
        var event := batch[i].input;
        if batch[i].redis.Up? {
          dedup := dedup - batch[i].redis.evicted;
          if event.eventId in dedup {
            rejected := rejected + [Answer(event.eventId, Duplicate)];
            continue;
          }
          dedup := dedup + {event.eventId};
        }
        if PreValidate(event, entitled.value, now).Some? {
          rejected := rejected + [Answer(event.eventId, Refused)];
          continue;
        }
        toPersist := toPersist + [event];
      }
      assert batch[..|batch|] == batch;
      if !commits {
        return Err(TransactionFailed);
      }
      var results := PersistAll(tenant, toPersist);
      var all := results + rejected;
      var accepted, refused := Tally(all);
      return Ok(Response(accepted, refused, Ordered(all, batch)));
    }

    method PersistAll(tenant: nat, toPersist: seq<Input>) returns (results: seq<Answer>)
      modifies this`rows, this`outbox
      ensures Persisted(rows, outbox, results) == Persist(old(rows), old(outbox), toPersist, tenant)
    {
      results := [];
      for i := 0 to |toPersist|
        invariant Persisted(rows, outbox, results) == Persist(old(rows), old(outbox), toPersist[..i], tenant)
      {
        assert toPersist[..i + 1][..i] == toPersist[..i];
        var event := toPersist[i];
        if HasEvent(rows, event.eventId) {
          results := results + [Answer(event.eventId, Duplicate)];
          continue;
        }
        var id, row := |rows|, RowOf(event, tenant);
        rows := rows + [row];
        outbox := outbox + [OutboxRow(id, EventPayload(id, row))];
        results := results + [Answer(event.eventId, Accepted)];
      }
      assert toPersist[..|toPersist|] == toPersist;
    }
  }

  method Tally(answers: seq<Answer>) returns (accepted: nat, rejected: nat)
    ensures accepted == Count(answers, false) && rejected == Count(answers, true)
  {
    accepted, rejected := 0, 0;
    for i := 0 to |answers|
      invariant accepted == Count(answers[..i], false) && rejected == Count(answers[..i], true)
    {
      assert answers[..i + 1][..i] == answers[..i];
      if answers[i].status == Refused {
        rejected := rejected + 1;
      } else {
        accepted := accepted + 1;
      }
    }
    assert answers[..|answers|] == answers;
  }

  // ----- the response -----

  lemma {:induction false} CountsAddUp(answers: seq<Answer>)
    ensures Count(answers, false) + Count(answers, true) == |answers|
  {
    if answers != [] {
      CountsAddUp(answers[..|answers| - 1]);
    }
  }

  predicate Mentions(f: Filtered, eventId: string) {
    (exists e | e in f.toPersist :: e.eventId == eventId) || (exists a | a in f.refused :: a.eventId == eventId)
  }

  lemma {:induction false} FilterAnswersAll(batch: seq<Arrival>, entitled: set<string>, now: int, dedup: set<string>)
    ensures var f := Filter(batch, entitled, now, dedup);
      && |f.toPersist| + |f.refused| == |batch|
      && (forall a | a in f.refused :: a.status != Accepted)
      && (forall a | a in batch :: Mentions(f, a.input.eventId))
  {
    if batch != [] {
      var before, last := batch[..|batch| - 1], batch[|batch| - 1];
      FilterAnswersAll(before, entitled, now, dedup);
      var f, g := Filter(before, entitled, now, dedup), Filter(batch, entitled, now, dedup);
      assert f.toPersist <= g.toPersist && f.refused <= g.refused;
      assert Mentions(g, last.input.eventId) by {
        assert last.input in g.toPersist || g.refused[|g.refused| - 1].eventId == last.input.eventId;
      }
      forall a | a in batch ensures Mentions(g, a.input.eventId) {
        if a in before {
          assert Mentions(f, a.input.eventId);
        }
      }
    }
  }

  /** Answers follow the inputs, and for each id the first answer says whether this transaction
      created the row. */
  lemma {:induction false} PersistAnswers(rows: seq<Row>, outbox: seq<OutboxRow>, inputs: seq<Input>, tenant: nat)
    ensures var p := Persist(rows, outbox, inputs, tenant);
      && |p.answers| == |inputs| && rows <= p.rows
      && (forall i | 0 <= i < |inputs| :: p.answers[i].eventId == inputs[i].eventId && p.answers[i].status != Refused)
  {
    if inputs != [] {
      PersistAnswers(rows, outbox, inputs[..|inputs| - 1], tenant);
    }
  }

  lemma {:induction false} FindOverPush(answers: seq<Answer>, a: Answer, id: string)
    ensures Find(answers + [a], id) == if Find(answers, id).Some? then Find(answers, id)
                                       else if a.eventId == id then Some(a) else None
  {
    if answers != [] {
      FindOverPush(answers[1..], a, id);
      assert (answers + [a])[1..] == answers[1..] + [a];
    }
  }

  lemma {:induction false} FindOverConcat(a: seq<Answer>, b: seq<Answer>, id: string)
    ensures Find(a + b, id) == if Find(a, id).Some? then Find(a, id) else Find(b, id)
  {
    if a == [] {
      assert a + b == b;
    } else {
      FindOverConcat(a[1..], b, id);
      assert (a + b)[1..] == a[1..] + b;
    }
  }

  lemma {:induction false} FirstAnswerTellsCreation(rows: seq<Row>, outbox: seq<OutboxRow>, inputs: seq<Input>, tenant: nat, id: string)
    ensures var p := Persist(rows, outbox, inputs, tenant);
      && (Find(p.answers, id) == Some(Answer(id, Accepted)) <==> !HasEvent(rows, id) && HasEvent(p.rows, id))
      && (Find(p.answers, id).None? ==> (HasEvent(rows, id) <==> HasEvent(p.rows, id)))
      && (Find(p.answers, id).Some? ==> HasEvent(p.rows, id))
  {
    hide HasEvent, Find;
    if inputs != [] {
      var before, e := inputs[..|inputs| - 1], inputs[|inputs| - 1];
      FirstAnswerTellsCreation(rows, outbox, before, tenant, id);
      PersistAnswers(rows, outbox, before, tenant);
      var p, q := Persist(rows, outbox, before, tenant), Persist(rows, outbox, inputs, tenant);
      assert q == PersistOne(p, e, tenant);
      assert q.answers == p.answers + [q.answers[|p.answers|]];
      FindOverPush(p.answers, q.answers[|p.answers|], id);
      HasEventPush(p.rows, RowOf(e, tenant), id);
    }
  }

  lemma HasEventPush(rows: seq<Row>, row: Row, id: string)
    ensures HasEvent(rows + [row], id) <==> HasEvent(rows, id) || row.eventId == id
  {
    if HasEvent(rows, id) {
      var r :| r in rows && r.eventId == id;
      assert r in rows + [row];
    }
    assert (rows + [row])[|rows|] == row;
  }

  /** A call is answered exactly if the tenant has a subscription and the transaction commits; otherwise nothing is stored. */
  lemma IngestSucceedsIff(s: Store, tenant: nat, entitled: Option<set<string>>, now: int, batch: seq<Arrival>, commits: bool)
    ensures var (s', r) := Ingested(s, tenant, entitled, now, batch, commits);
      && (r.Ok? <==> entitled.Some? && commits)
      && (r.Err? ==> s'.rows == s.rows && s'.outbox == s.outbox && (entitled.None? ==> s' == s))
  {
    hide Filter, Persist, Count, Ordered;
  }

  /** Every completed batch is answered in full and in request order; the two counters add up to the
      batch size; and an event is answered "accepted" exactly when this batch created its row. */
  lemma IngestAnswers(s: Store, tenant: nat, entitled: Option<set<string>>, now: int, batch: seq<Arrival>)
    requires entitled.Some?
    ensures var (s', r) := Ingested(s, tenant, entitled, now, batch, true);
      && r.Ok? && r.value.accepted + r.value.rejected == |batch| == |r.value.events|
      && (forall i | 0 <= i < |batch| ::
            && r.value.events[i].eventId == batch[i].input.eventId
            && (r.value.events[i].status == Accepted
                <==> !HasEvent(s.rows, batch[i].input.eventId) && HasEvent(s'.rows, batch[i].input.eventId)))
  {
    hide Filter, Persist, Find, Count, HasEvent;
    var f := Filter(batch, entitled.value, now, s.dedup);
    var p := Persist(s.rows, s.outbox, f.toPersist, tenant);
    var all := p.answers + f.refused;
    FilterAnswersAll(batch, entitled.value, now, s.dedup);
    PersistAnswers(s.rows, s.outbox, f.toPersist, tenant);
    CountsAddUp(all);
    forall i | 0 <= i < |batch|
      ensures var id := batch[i].input.eventId;
        && Ordered(all, batch)[i].eventId == id
        && (Ordered(all, batch)[i].status == Accepted <==> !HasEvent(s.rows, id) && HasEvent(p.rows, id))
    {
      var id := batch[i].input.eventId;
      FindOverConcat(p.answers, f.refused, id);
      FirstAnswerTellsCreation(s.rows, s.outbox, f.toPersist, tenant, id);
      assert Mentions(f, id);
    }
  }

  // ----- the stored rows -----

  predicate StoreOk(s: Store) {
    && |s.rows| == |s.outbox|
    && (forall i | 0 <= i < |s.outbox| :: s.outbox[i].aggregateId == i && PayloadOk(s.outbox[i].payload, i, s.rows[i]))
    && (forall i, j | 0 <= i < j < |s.rows| :: s.rows[i].eventId != s.rows[j].eventId)
  }

  /** An outbox payload either describes its row in full, or comes from a consume and lacks the id. */
  predicate PayloadOk(p: Payload, id: nat, row: Row) {
    p == EventPayload(id, row) || p == Payload(None, row.eventId, row.tenant, None, row.amount, None)
  }

  lemma {:induction false} PersistKeepsStore(s: Store, inputs: seq<Input>, tenant: nat)
    requires StoreOk(s)
    ensures var p := Persist(s.rows, s.outbox, inputs, tenant);
      StoreOk(Store(p.rows, p.outbox, s.dedup)) && s.rows <= p.rows && s.outbox <= p.outbox
  {
    if inputs != [] {
      PersistKeepsStore(s, inputs[..|inputs| - 1], tenant);
    }
  }

  datatype Action =
    | Ingest(tenant: nat, entitled: Option<set<string>>, now: int, batch: seq<Arrival>, commits: bool)
    | Consume(tenant: nat, feature: string, amount: int, eventId: string, now: int, commits: bool)
    | Evict(keys: set<string>)

  function Act(s: Store, a: Action): Store {
    match a
    case Ingest(tenant, entitled, now, batch, commits) => Ingested(s, tenant, entitled, now, batch, commits).0
    case Consume(tenant, feature, amount, eventId, now, commits) =>
      Consumed(s, tenant, feature, amount, eventId, now, commits)
    case Evict(keys) => s.(dedup := s.dedup - keys)
  }

  lemma ActKeepsStore(s: Store, a: Action)
    requires StoreOk(s)
    ensures StoreOk(Act(s, a)) && s.rows <= Act(s, a).rows && s.outbox <= Act(s, a).outbox
  {
    hide Persist, Filter, Count, Ordered;
    if a.Ingest? && a.entitled.Some? {
      PersistKeepsStore(s, Filter(a.batch, a.entitled.value, a.now, s.dedup).toPersist, a.tenant);
    }
  }

  function Run(s: Store, actions: seq<Action>): Store {
    if actions == [] then s else Act(Run(s, actions[..|actions| - 1]), actions[|actions| - 1])
  }

  const NOTHING := Store([], [], {})

  /** Whatever batches and consumes run, and however Redis and the transactions fail: usage events and
      outbox rows are in bijection by aggregate id, and no event id has two rows. */
  lemma {:induction false} EventsMatchOutbox(actions: seq<Action>)
    ensures StoreOk(Run(NOTHING, actions))
  {
    hide Act, StoreOk;
    if actions == [] {
      assert StoreOk(NOTHING) by { EmptyStoreOk(); }
    } else {
      EventsMatchOutbox(actions[..|actions| - 1]);
      ActKeepsStore(Run(NOTHING, actions[..|actions| - 1]), actions[|actions| - 1]);
    }
  }

  lemma EmptyStoreOk()
    ensures StoreOk(NOTHING)
  {
  }

  // ----- what "duplicate" is worth -----

  /** Every key that makes the fast path answer "duplicate" belongs to a stored event. */
  predicate KeysBacked(s: Store) {
    forall k | k in s.dedup :: HasEvent(s.rows, k)
  }

  /** The keys Redis holds after the loop, whatever it evicted on the way. */
  function Keys(dedup: set<string>, batch: seq<Arrival>): set<string> {
    if batch == [] then dedup
    else
      var keys, last := Keys(dedup, batch[..|batch| - 1]), batch[|batch| - 1];
      if last.redis.Up? then keys - last.redis.evicted + {last.input.eventId} else keys
  }

  /** Arrival i is not answered by the fast path: Redis is down, or has no key for it. */
  predicate Admitted(dedup: set<string>, batch: seq<Arrival>, i: nat)
    requires i < |batch|
  {
    batch[i].redis.Up? ==> batch[i].input.eventId !in Keys(dedup, batch[..i]) - batch[i].redis.evicted
  }

  /** Arrival i is admitted, carries the id and passes pre-validation. */
  predicate Passes(dedup: set<string>, batch: seq<Arrival>, i: nat, entitled: set<string>, now: int, id: string)
    requires i < |batch|
  {
    Admitted(dedup, batch, i) && batch[i].input.eventId == id && PreValidate(batch[i].input, entitled, now).None?
  }

  predicate ToStore(inputs: seq<Input>, id: string) {
    exists i | 0 <= i < |inputs| :: inputs[i].eventId == id
  }

  lemma ToStorePush(inputs: seq<Input>, e: Input, id: string)
    ensures ToStore(inputs + [e], id) <==> ToStore(inputs, id) || e.eventId == id
  {
    if i :| 0 <= i < |inputs| && inputs[i].eventId == id {
      assert (inputs + [e])[i] == inputs[i];
    }
    assert (inputs + [e])[|inputs|] == e;
  }

  lemma PassesEarlier(dedup: set<string>, batch: seq<Arrival>, i: nat, entitled: set<string>, now: int, id: string)
    requires i < |batch| - 1
    ensures Passes(dedup, batch[..|batch| - 1], i, entitled, now, id) == Passes(dedup, batch, i, entitled, now, id)
  {
    assert batch[..|batch| - 1][..i] == batch[..i];
  }

  /** The loop keeps the keys and passes on exactly the ids of the arrivals that pass. */
  lemma {:induction false} FilterPassesOn(batch: seq<Arrival>, entitled: set<string>, now: int, dedup: set<string>, id: string)
    ensures var f := Filter(batch, entitled, now, dedup);
      && f.dedup == Keys(dedup, batch)
      && (ToStore(f.toPersist, id) <==> exists i: nat | i < |batch| :: Passes(dedup, batch, i, entitled, now, id))
  {
    hide PreValidate, Passes, ToStore;
    if batch == [] {
      assert !ToStore([], id) by { NothingToStore(id); }
    } else {
      var front, last := batch[..|batch| - 1], |batch| - 1;
      FilterPassesOn(front, entitled, now, dedup, id);
      var f := Filter(front, entitled, now, dedup);
      ToStorePush(f.toPersist, batch[last].input, id);
      forall i: nat | i < last ensures Passes(dedup, front, i, entitled, now, id) == Passes(dedup, batch, i, entitled, now, id) {
        PassesEarlier(dedup, batch, i, entitled, now, id);
      }
      LastPasses(f, batch, entitled, now, dedup, id);
    }
  }

  lemma NothingToStore(id: string)
    ensures !ToStore([], id)
  {
  }

  lemma LastPasses(f: Filtered, batch: seq<Arrival>, entitled: set<string>, now: int, dedup: set<string>, id: string)
    requires batch != [] && f.dedup == Keys(dedup, batch[..|batch| - 1])
    ensures var last := |batch| - 1;
      var g := FilterOne(f, batch[last], entitled, now);
      && g.dedup == Keys(dedup, batch)
      && (if Passes(dedup, batch, last, entitled, now, batch[last].input.eventId)
          then g.toPersist == f.toPersist + [batch[last].input] else g.toPersist == f.toPersist)
      && (Passes(dedup, batch, last, entitled, now, id)
          <==> id == batch[last].input.eventId && Passes(dedup, batch, last, entitled, now, batch[last].input.eventId))
  {
    hide PreValidate;
  }

  lemma {:induction false} PersistStores(rows: seq<Row>, outbox: seq<OutboxRow>, inputs: seq<Input>, tenant: nat, id: string)
    ensures HasEvent(Persist(rows, outbox, inputs, tenant).rows, id) <==> HasEvent(rows, id) || ToStore(inputs, id)
  {
    hide HasEvent, ToStore;
    if inputs == [] {
      NothingToStore(id);
    } else {
      var front, e := inputs[..|inputs| - 1], inputs[|inputs| - 1];
      PersistStores(rows, outbox, front, tenant, id);
      ToStorePush(front, e, id);
      assert front + [e] == inputs;
      HasEventPush(Persist(rows, outbox, front, tenant).rows, RowOf(e, tenant), id);
    }
  }

  /** What a batch leaves in the store, for any Redis weather. */
  lemma IngestStores(s: Store, tenant: nat, entitled: set<string>, now: int, batch: seq<Arrival>, commits: bool, id: string)
    ensures var s' := Ingested(s, tenant, Some(entitled), now, batch, commits).0;
      && s'.dedup == Keys(s.dedup, batch)
      && (HasEvent(s'.rows, id) <==>
            HasEvent(s.rows, id)
            || (commits && exists i: nat | i < |batch| :: Passes(s.dedup, batch, i, entitled, now, id)))
  {
    hide Filter, Persist, Count, Ordered, Keys, Passes, HasEvent, ToStore;
    FilterPassesOn(batch, entitled, now, s.dedup, id);
    PersistStores(s.rows, s.outbox, Filter(batch, entitled, now, s.dedup).toPersist, tenant, id);
  }

  /** The keys are set before the events are validated and stored. After any batch, with Redis up, down or
      evicting as it likes, every key is backed exactly when each key it leaves had a row before, or the
      transaction commits and an admitted arrival of that id passes pre-validation. */
  lemma KeysStayBackedIff(s: Store, tenant: nat, entitled: set<string>, now: int, batch: seq<Arrival>, commits: bool)
    ensures KeysBacked(Ingested(s, tenant, Some(entitled), now, batch, commits).0) <==>
      forall k | k in Keys(s.dedup, batch) ::
        HasEvent(s.rows, k) || (commits && exists i: nat | i < |batch| :: Passes(s.dedup, batch, i, entitled, now, k))
  {
    hide Ingested, Keys, Passes, HasEvent;
    var s' := Ingested(s, tenant, Some(entitled), now, batch, commits).0;
    IngestStores(s, tenant, entitled, now, batch, commits, "");
    forall k ensures HasEvent(s'.rows, k) <==>
        HasEvent(s.rows, k) || (commits && exists i: nat | i < |batch| :: Passes(s.dedup, batch, i, entitled, now, k))
    {
      IngestStores(s, tenant, entitled, now, batch, commits, k);
    }
  }

  // ----- what is stored is what was sent -----

  /** Row n and its outbox row hold what the event says: its id, feature, amount and timestamp under the tenant. */
  predicate Holds(s: Store, n: nat, tenant: nat, e: Input) {
    && n < |s.rows| && n < |s.outbox| && e.timestamp.Some?
    && s.rows[n] == Row(e.eventId, tenant, e.feature, e.amount, e.timestamp.value, Pending)
    && s.outbox[n] == OutboxRow(n, Payload(Some(n), e.eventId, tenant, Some(e.feature), e.amount, e.timestamp))
  }

  /** Of the arrivals with its id, arrival i is the first that is admitted and passes pre-validation. */
  predicate FirstToPass(dedup: set<string>, batch: seq<Arrival>, i: nat, entitled: set<string>, now: int) {
    && i < |batch| && Passes(dedup, batch, i, entitled, now, batch[i].input.eventId)
    && forall j: nat | j < i :: !Passes(dedup, batch, j, entitled, now, batch[i].input.eventId)
  }

  predicate FirstInput(inputs: seq<Input>, p: nat) {
    p < |inputs| && !ToStore(inputs[..p], inputs[p].eventId)
  }

  /** The inputs that the loop passes on first under their id are the first to pass. */
  lemma {:induction false} PassedOnFrom(batch: seq<Arrival>, entitled: set<string>, now: int, dedup: set<string>, p: nat)
    returns (i: nat)
    requires FirstInput(Filter(batch, entitled, now, dedup).toPersist, p)
    ensures FirstToPass(dedup, batch, i, entitled, now) && batch[i].input == Filter(batch, entitled, now, dedup).toPersist[p]
  {
    hide PreValidate, Passes, ToStore, FilterOne;
    var front, last := batch[..|batch| - 1], |batch| - 1;
    var f, g := Filter(front, entitled, now, dedup), Filter(batch, entitled, now, dedup);
    var id := g.toPersist[p].eventId;
    FilterPassesOn(front, entitled, now, dedup, id);
    LastPasses(f, batch, entitled, now, dedup, id);
    forall j: nat | j < last ensures Passes(dedup, front, j, entitled, now, id) == Passes(dedup, batch, j, entitled, now, id) {
      PassesEarlier(dedup, batch, j, entitled, now, id);
    }
    if p < |f.toPersist| {
      assert g.toPersist[..p] == f.toPersist[..p];
      i := PassedOnFrom(front, entitled, now, dedup, p);
    } else {
      assert g.toPersist[..p] == f.toPersist;
      i := last;
    }
  }

  /** A row that a transaction adds holds the first input of its id, which had no row. */
  lemma {:induction false} PersistedFrom(s: Store, inputs: seq<Input>, tenant: nat, n: nat) returns (p: nat)
    requires |s.rows| == |s.outbox| && forall e | e in inputs :: e.timestamp.Some?
    requires |s.rows| <= n < |Persist(s.rows, s.outbox, inputs, tenant).rows|
    ensures FirstInput(inputs, p) && !HasEvent(s.rows, inputs[p].eventId)
    ensures var done := Persist(s.rows, s.outbox, inputs, tenant); Holds(Store(done.rows, done.outbox, s.dedup), n, tenant, inputs[p])
  {
    hide HasEvent, ToStore;
    var front, last := inputs[..|inputs| - 1], |inputs| - 1;
    var e := inputs[last];
    var before := Persist(s.rows, s.outbox, front, tenant);
    PersistGrows(s, front, tenant);
    if n < |before.rows| {
      p := PersistedFrom(s, front, tenant, n);
      assert inputs[..p] == front[..p];
    } else {
      p := last;
      PersistStores(s.rows, s.outbox, front, tenant, e.eventId);
      assert inputs[..p] == front && e in inputs;
    }
  }

  lemma {:induction false} PersistGrows(s: Store, inputs: seq<Input>, tenant: nat)
    ensures var done := Persist(s.rows, s.outbox, inputs, tenant);
      s.rows <= done.rows && s.outbox <= done.outbox && |done.rows| - |s.rows| == |done.outbox| - |s.outbox|
  {
    if inputs != [] {
      PersistGrows(s, inputs[..|inputs| - 1], tenant);
    }
  }

  lemma {:induction false} PassedOnHaveTimes(batch: seq<Arrival>, entitled: set<string>, now: int, dedup: set<string>)
    ensures forall e | e in Filter(batch, entitled, now, dedup).toPersist :: e.timestamp.Some?
  {
    if batch != [] {
      PassedOnHaveTimes(batch[..|batch| - 1], entitled, now, dedup);
    }
  }

  /** Row n holds arrival i: its id had no row, and it is the first with it to get past the fast path and pre-validation. */
  predicate IsFrom(s: Store, tenant: nat, entitled: set<string>, now: int, batch: seq<Arrival>, s': Store, n: nat, i: nat) {
    && i < |batch| && FirstToPass(s.dedup, batch, i, entitled, now) && !HasEvent(s.rows, batch[i].input.eventId)
    && Holds(s', n, tenant, batch[i].input)
  }

  ghost predicate WasSent(s: Store, tenant: nat, entitled: set<string>, now: int, batch: seq<Arrival>, s': Store, n: nat) {
    exists i: nat :: IsFrom(s, tenant, entitled, now, batch, s', n, i)
  }

  /** A batch touches no row that is there, and each row it adds is from an arrival. Without a commit it adds none. */
  lemma StoredIsSent(s: Store, tenant: nat, entitled: set<string>, now: int, batch: seq<Arrival>, commits: bool)
    requires |s.rows| == |s.outbox|
    ensures var s' := Ingested(s, tenant, Some(entitled), now, batch, commits).0;
      && s.rows <= s'.rows && s.outbox <= s'.outbox && |s'.rows| == |s'.outbox|
      && (!commits ==> s'.rows == s.rows)
      && forall n: nat | |s.rows| <= n < |s'.rows| :: WasSent(s, tenant, entitled, now, batch, s', n)
  {
    hide Filter, Persist, Count, Ordered, HasEvent, FirstToPass, FirstInput;
    var f := Filter(batch, entitled, now, s.dedup);
    PassedOnHaveTimes(batch, entitled, now, s.dedup);
    PersistGrows(s, f.toPersist, tenant);
    var s' := Ingested(s, tenant, Some(entitled), now, batch, commits).0;
    forall n: nat | |s.rows| <= n < |s'.rows|
      ensures WasSent(s, tenant, entitled, now, batch, s', n)
    {
      var p := PersistedFrom(s, f.toPersist, tenant, n);
      FirstIsThere(f.toPersist, p);
      var i := PassedOnFrom(batch, entitled, now, s.dedup, p);
      FirstPasses(s.dedup, batch, i, entitled, now);
      assert IsFrom(s, tenant, entitled, now, batch, s', n, i);
    }
  }

  lemma FirstIsThere(inputs: seq<Input>, p: nat)
    requires FirstInput(inputs, p)
    ensures p < |inputs|
  {
  }

  lemma FirstPasses(dedup: set<string>, batch: seq<Arrival>, i: nat, entitled: set<string>, now: int)
    requires FirstToPass(dedup, batch, i, entitled, now)
    ensures i < |batch|
  {
  }

  /** The step that adds row n: a batch with the event, or a consume. */
  predicate Adds(s: Store, a: Action, s': Store, n: nat, i: nat) {
    match a
    case Ingest(tenant, entitled, now, batch, commits) =>
      commits && entitled.Some? && IsFrom(s, tenant, entitled.value, now, batch, s', n, i)
    case Consume(tenant, feature, amount, eventId, now, commits) =>
      && commits && !HasEvent(s.rows, eventId) && n < |s'.rows| && n < |s'.outbox|
      && s'.rows[n] == Row(eventId, tenant, feature, amount, now, Pending)
      && s'.outbox[n] == OutboxRow(n, Payload(None, eventId, tenant, None, amount, None))
    case Evict(_) => false
  }

  lemma ActStoresSent(s: Store, a: Action, n: nat) returns (i: nat)
    requires StoreOk(s) && |s.rows| <= n < |Act(s, a).rows|
    ensures Adds(s, a, Act(s, a), n, i)
  {
    hide Ingested, IsFrom, HasEvent, PayloadOk;
    i := 0;
    if a.Ingest? {
      if a.entitled.None? {
        NoSubscription(s, a.tenant, a.now, a.batch, a.commits);
        assert false;
      }
      StoredIsSent(s, a.tenant, a.entitled.value, a.now, a.batch, a.commits);
      assert WasSent(s, a.tenant, a.entitled.value, a.now, a.batch, Act(s, a), n);
      i :| IsFrom(s, a.tenant, a.entitled.value, a.now, a.batch, Act(s, a), n, i);
    }
  }

  /** Over every run, each row and its outbox row hold exactly what the step that added them was given, and stay so. */
  lemma {:induction false} EveryRowWasSent(actions: seq<Action>, n: nat) returns (k: nat, i: nat)
    requires n < |Run(NOTHING, actions).rows|
    ensures k < |actions| && Adds(Run(NOTHING, actions[..k]), actions[k], Run(NOTHING, actions), n, i)
  {
    hide Act, StoreOk, HasEvent, FirstToPass;
    var front, last := actions[..|actions| - 1], actions[|actions| - 1];
    var s := Run(NOTHING, front);
    EventsMatchOutbox(front);
    ActKeepsStore(s, last);
    if n < |s.rows| {
      k, i := EveryRowWasSent(front, n);
      assert actions[..k] == front[..k];
      AddedStays(Run(NOTHING, actions[..k]), actions[k], s, Run(NOTHING, actions), n, i);
    } else {
      k := |front|;
      i := ActStoresSent(s, last, n);
    }
  }

  lemma AddedStays(s: Store, a: Action, s': Store, later: Store, n: nat, i: nat)
    requires Adds(s, a, s', n, i) && s'.rows <= later.rows && s'.outbox <= later.outbox
    ensures Adds(s, a, later, n, i)
  {
    hide FirstToPass, HasEvent;
  }

  // ----- while Redis is up and evicts nothing -----

  predicate Steady(batch: seq<Arrival>) {
    forall i | 0 <= i < |batch| :: batch[i].redis == Up({})
  }

  predicate FirstOfItsId(batch: seq<Arrival>, i: nat)
    requires i < |batch|
  {
    forall j | 0 <= j < i :: batch[j].input.eventId != batch[i].input.eventId
  }

  lemma {:induction false} SteadyKeys(dedup: set<string>, batch: seq<Arrival>, k: string)
    requires Steady(batch)
    ensures k in Keys(dedup, batch) <==> k in dedup || exists i: nat | i < |batch| :: batch[i].input.eventId == k
  {
    if batch != [] {
      var front := batch[..|batch| - 1];
      assert forall i | 0 <= i < |front| :: front[i] == batch[i];
      SteadyKeys(dedup, front, k);
    }
  }

  lemma SteadyAdmits(dedup: set<string>, batch: seq<Arrival>, i: nat)
    requires Steady(batch) && i < |batch|
    ensures Admitted(dedup, batch, i) <==> batch[i].input.eventId !in dedup && FirstOfItsId(batch, i)
  {
    hide Keys;
    assert forall j | 0 <= j < i :: batch[..i][j] == batch[j];
    SteadyKeys(dedup, batch[..i], batch[i].input.eventId);
  }

  lemma {:induction false} FirstOccurrence(batch: seq<Arrival>, i: nat) returns (first: nat)
    requires i < |batch|
    ensures first <= i && batch[first].input.eventId == batch[i].input.eventId && FirstOfItsId(batch, first)
  {
    if j: nat :| j < i && batch[j].input.eventId == batch[i].input.eventId {
      first := FirstOccurrence(batch, j);
    } else {
      first := i;
    }
  }

  /** Then only first occurrences matter: the keys stay backed exactly when each new id of the batch has a row, or
      its first occurrence passes pre-validation and the transaction commits. */
  lemma KeysStayBackedWhileRedisIsUp(s: Store, tenant: nat, entitled: set<string>, now: int, batch: seq<Arrival>, commits: bool)
    requires KeysBacked(s) && Steady(batch)
    ensures KeysBacked(Ingested(s, tenant, Some(entitled), now, batch, commits).0) <==>
      forall i: nat | i < |batch| && FirstOfItsId(batch, i) && batch[i].input.eventId !in s.dedup ::
        HasEvent(s.rows, batch[i].input.eventId) || (commits && PreValidate(batch[i].input, entitled, now).None?)
  {
    hide Ingested, Keys, HasEvent, PreValidate, FirstOfItsId, Passes, Steady;
    KeysStayBackedIff(s, tenant, entitled, now, batch, commits);
    forall i: nat | i < |batch| && FirstOfItsId(batch, i) && batch[i].input.eventId !in s.dedup
      ensures batch[i].input.eventId in Keys(s.dedup, batch)
      ensures (exists j: nat | j < |batch| :: Passes(s.dedup, batch, j, entitled, now, batch[i].input.eventId))
              <==> PreValidate(batch[i].input, entitled, now).None?
    {
      SteadyKeys(s.dedup, batch, batch[i].input.eventId);
      FirstDecides(s.dedup, batch, i, entitled, now);
    }
    forall k | k in Keys(s.dedup, batch)
      ensures k in s.dedup || exists i: nat | i < |batch| :: FirstOfItsId(batch, i) && batch[i].input.eventId == k
    {
      SteadyKeys(s.dedup, batch, k);
      if k !in s.dedup {
        var i: nat :| i < |batch| && batch[i].input.eventId == k;
        var first := FirstOccurrence(batch, i);
      }
    }
  }

  /** With Redis up a committing batch stores a new event exactly if, where its id comes first, the feature is entitled and
      the timestamp is at most seven days old and at most five minutes ahead. */
  lemma StoredIff(s: Store, tenant: nat, entitled: set<string>, now: int, batch: seq<Arrival>, i: nat)
    requires Steady(batch) && i < |batch| && FirstOfItsId(batch, i)
    requires batch[i].input.eventId !in s.dedup && !HasEvent(s.rows, batch[i].input.eventId)
    ensures var e := batch[i].input;
      HasEvent(Ingested(s, tenant, Some(entitled), now, batch, true).0.rows, e.eventId) <==>
        && e.feature in entitled && e.timestamp.Some?
        && now - 7 * 24 * 60 * 60 * 1000 <= e.timestamp.value <= now + 5 * 60 * 1000
  {
    hide Ingested, Keys, HasEvent, FirstOfItsId, Passes, Steady;
    IngestStores(s, tenant, entitled, now, batch, true, batch[i].input.eventId);
    FirstDecides(s.dedup, batch, i, entitled, now);
  }

  /** With Redis up the loop's own answers for a new id begin with a refusal exactly if its first occurrence fails. */
  lemma {:induction false} FirstRefusal(batch: seq<Arrival>, entitled: set<string>, now: int, dedup: set<string>, i: nat)
    requires Steady(batch) && i < |batch| && FirstOfItsId(batch, i) && batch[i].input.eventId !in dedup
    ensures var f, id := Filter(batch, entitled, now, dedup), batch[i].input.eventId;
      && f.dedup == Keys(dedup, batch)
      && (PreValidate(batch[i].input, entitled, now).Some? ==> Find(f.refused, id) == Some(Answer(id, Refused)))
  {
    hide PreValidate, Find;
    var front, last := batch[..|batch| - 1], |batch| - 1;
    var id := batch[i].input.eventId;
    FilterPassesOn(front, entitled, now, dedup, id);
    FilterPassesOn(batch, entitled, now, dedup, id);
    SteadyKeys(dedup, front, id);
    var f, g := Filter(front, entitled, now, dedup), Filter(batch, entitled, now, dedup);
    if g.refused != f.refused {
      FindOverPush(f.refused, g.refused[|f.refused|], id);
      assert g.refused == f.refused + [g.refused[|f.refused|]];
    }
    if i < last {
      assert forall j | 0 <= j < |front| :: front[j] == batch[j];
      FirstRefusal(front, entitled, now, dedup, i);
    } else {
      NotMentioned(front, entitled, now, dedup, id);
    }
  }

  lemma {:induction false} NotMentioned(batch: seq<Arrival>, entitled: set<string>, now: int, dedup: set<string>, id: string)
    requires forall i | 0 <= i < |batch| :: batch[i].input.eventId != id
    ensures Find(Filter(batch, entitled, now, dedup).refused, id).None?
  {
    hide PreValidate, Find;
    if batch == [] {
      assert Find([], id).None? by { NoneInNothing(id); }
    } else {
      var front := batch[..|batch| - 1];
      assert forall i | 0 <= i < |front| :: front[i] == batch[i];
      NotMentioned(front, entitled, now, dedup, id);
      var f, g := Filter(front, entitled, now, dedup), Filter(batch, entitled, now, dedup);
      if g.refused != f.refused {
        FindOverPush(f.refused, g.refused[|f.refused|], id);
        assert g.refused == f.refused + [g.refused[|f.refused|]];
      }
    }
  }

  lemma NoneInNothing(id: string)
    ensures Find([], id).None?
  {
  }

  /** With Redis up, every arrival of a completed batch is answered by its id alone: "duplicate" if the key was known, or the
      row there and the first occurrence passes; "rejected" if the key is new and the first occurrence fails;
      "accepted" if key and row are new and it passes. */
  lemma AnswersTold(s: Store, tenant: nat, entitled: set<string>, now: int, batch: seq<Arrival>, first: nat, i: nat)
    requires Steady(batch) && first < |batch| && FirstOfItsId(batch, first)
    requires i < |batch| && batch[i].input.eventId == batch[first].input.eventId
    ensures var (s', r) := Ingested(s, tenant, Some(entitled), now, batch, true);
      var id := batch[i].input.eventId;
      && r.Ok? && |r.value.events| == |batch|
      && r.value.events[i] == Answer(id,
           if id in s.dedup then Duplicate
           else if PreValidate(batch[first].input, entitled, now).Some? then Refused
           else if HasEvent(s.rows, id) then Duplicate
           else Accepted)
  {
    hide Filter, Persist, Count, Find, HasEvent, ToStore, PreValidate, Passes, FirstOfItsId;
    var id := batch[i].input.eventId;
    if id in s.dedup {
      assert Retains(batch, id);
      KnownKeyIsDuplicate(s, tenant, entitled, now, batch, id);
    } else {
      var f := Filter(batch, entitled, now, s.dedup);
      var p := Persist(s.rows, s.outbox, f.toPersist, tenant);
      FindOverConcat(p.answers, f.refused, id);
      FilterPassesOn(batch, entitled, now, s.dedup, id);
      FirstDecides(s.dedup, batch, first, entitled, now);
      FirstRefusal(batch, entitled, now, s.dedup, first);
      FirstAnswerTellsCreation(s.rows, s.outbox, f.toPersist, tenant, id);
      PersistStores(s.rows, s.outbox, f.toPersist, tenant, id);
      PersistAnswers(s.rows, s.outbox, f.toPersist, tenant);
      if PreValidate(batch[first].input, entitled, now).Some? {
        NoAnswerFor(s.rows, s.outbox, f.toPersist, tenant, id);
      } else {
        AnswerForStored(p.answers, f.toPersist, id);
      }
    }
  }

  lemma {:induction false} AnswerForStored(answers: seq<Answer>, inputs: seq<Input>, id: string)
    requires |answers| == |inputs| && ToStore(inputs, id)
    requires forall i | 0 <= i < |inputs| :: answers[i].eventId == inputs[i].eventId && answers[i].status != Refused
    ensures Find(answers, id).Some? && Find(answers, id).value.status != Refused
  {
    if answers[0].eventId != id {
      assert ToStore(inputs[1..], id) by {
        var k :| 0 <= k < |inputs| && inputs[k].eventId == id;
        assert inputs[1..][k - 1] == inputs[k];
      }
      AnswerForStored(answers[1..], inputs[1..], id);
    }
  }

  /** An id passes exactly if its first occurrence does. */
  lemma FirstDecides(dedup: set<string>, batch: seq<Arrival>, first: nat, entitled: set<string>, now: int)
    requires Steady(batch) && first < |batch| && FirstOfItsId(batch, first) && batch[first].input.eventId !in dedup
    ensures (exists i: nat | i < |batch| :: Passes(dedup, batch, i, entitled, now, batch[first].input.eventId))
            <==> PreValidate(batch[first].input, entitled, now).None?
  {
    hide PreValidate, Admitted, Keys, Steady, FirstOfItsId;
    SteadyAdmits(dedup, batch, first);
    assert PreValidate(batch[first].input, entitled, now).None? ==>
        Passes(dedup, batch, first, entitled, now, batch[first].input.eventId);
    forall i: nat | i < |batch| && Passes(dedup, batch, i, entitled, now, batch[first].input.eventId) ensures i == first {
      SteadyAdmits(dedup, batch, i);
      OnlyOneFirst(batch, i, first);
    }
  }

  lemma OnlyOneFirst(batch: seq<Arrival>, i: nat, j: nat)
    requires i < |batch| && j < |batch| && FirstOfItsId(batch, i) && FirstOfItsId(batch, j)
    requires batch[i].input.eventId == batch[j].input.eventId
    ensures i == j
  {
  }

  // ----- a refused event is lost while its key lives -----

  /** Redis is up and does not evict the key, and no consume uses the id. */
  predicate KeepsKey(a: Action, id: string) {
    match a
    case Ingest(_, _, _, batch, _) => Retains(batch, id)
    case Consume(_, _, _, eventId, _, _) => eventId != id
    case Evict(keys) => id !in keys
  }

  predicate Retains(batch: seq<Arrival>, id: string) {
    forall i | 0 <= i < |batch| :: batch[i].redis.Up? && id !in batch[i].redis.evicted
  }

  /** A key without a row. */
  predicate Orphan(s: Store, id: string) { id in s.dedup && !HasEvent(s.rows, id) }

  lemma {:induction false} KeyIsRetained(dedup: set<string>, batch: seq<Arrival>, id: string)
    requires Retains(batch, id) && id in dedup
    ensures id in Keys(dedup, batch) && forall i: nat | i < |batch| && batch[i].input.eventId == id :: !Admitted(dedup, batch, i)
  {
    hide Admitted;
    if batch != [] {
      var front, last := batch[..|batch| - 1], |batch| - 1;
      assert forall i | 0 <= i < |front| :: front[i] == batch[i];
      KeyIsRetained(dedup, front, id);
      forall i: nat | i < |batch| && batch[i].input.eventId == id ensures !Admitted(dedup, batch, i) {
        if i < last {
          AdmittedEarlier(dedup, batch, i);
        } else {
          NotAdmitted(dedup, batch, i);
        }
      }
    }
  }

  lemma AdmittedEarlier(dedup: set<string>, batch: seq<Arrival>, i: nat)
    requires i < |batch| - 1
    ensures Admitted(dedup, batch[..|batch| - 1], i) == Admitted(dedup, batch, i)
  {
    assert batch[..|batch| - 1][..i] == batch[..i];
  }

  lemma NotAdmitted(dedup: set<string>, batch: seq<Arrival>, i: nat)
    requires i < |batch| && batch[i].redis.Up?
    requires batch[i].input.eventId in Keys(dedup, batch[..i]) && batch[i].input.eventId !in batch[i].redis.evicted
    ensures !Admitted(dedup, batch, i)
  {
  }

  function Occurrences(batch: seq<Arrival>, id: string): nat {
    if batch == [] then 0
    else Occurrences(batch[..|batch| - 1], id) + if batch[|batch| - 1].input.eventId == id then 1 else 0
  }

  lemma FilterOneOfKnownKey(f: Filtered, a: Arrival, entitled: set<string>, now: int, id: string)
    requires a.redis.Up? && id !in a.redis.evicted && id in f.dedup && !ToStore(f.toPersist, id)
    requires forall r | r in f.refused && r.eventId == id :: r.status == Duplicate
    ensures var g := FilterOne(f, a, entitled, now);
      && id in g.dedup && !ToStore(g.toPersist, id)
      && (forall r | r in g.refused && r.eventId == id :: r.status == Duplicate)
      && Count(g.refused, true) + (if a.input.eventId == id then 1 else 0) <= Count(f.refused, true) + 1
  {
    hide PreValidate, ToStore;
    var g := FilterOne(f, a, entitled, now);
    ToStorePush(f.toPersist, a.input, id);
    if g.refused != f.refused {
      assert g.refused[..|g.refused| - 1] == f.refused;
    }
  }

  /** What the loop answers for a retained key, and how often it refuses. */
  lemma {:induction false} FilterOfKnownKey(batch: seq<Arrival>, entitled: set<string>, now: int, dedup: set<string>, id: string)
    requires Retains(batch, id) && id in dedup
    ensures var f := Filter(batch, entitled, now, dedup);
      && id in f.dedup && !ToStore(f.toPersist, id)
      && (forall a | a in f.refused && a.eventId == id :: a.status == Duplicate)
      && Count(f.refused, true) + Occurrences(batch, id) <= |batch|
  {
    hide FilterOne, ToStore, Count;
    if batch == [] {
      NothingToStore(id);
      assert Count([], true) == 0 by { NoRefusals([]); }
    } else {
      var front := batch[..|batch| - 1];
      assert forall i | 0 <= i < |front| :: front[i] == batch[i];
      FilterOfKnownKey(front, entitled, now, dedup, id);
      FilterOneOfKnownKey(Filter(front, entitled, now, dedup), batch[|batch| - 1], entitled, now, id);
    }
  }

  /** A known key, at any place of any batch that does not evict it: answered "duplicate", counted as accepted,
      nothing stored under it, and still known. */
  lemma KnownKeyIsDuplicate(s: Store, tenant: nat, entitled: set<string>, now: int, batch: seq<Arrival>, id: string)
    requires id in s.dedup && Retains(batch, id)
    ensures var (s', r) := Ingested(s, tenant, Some(entitled), now, batch, true);
      && id in s'.dedup && (HasEvent(s'.rows, id) <==> HasEvent(s.rows, id))
      && r.Ok? && Occurrences(batch, id) <= r.value.accepted
      && |r.value.events| == |batch|
      && forall i | 0 <= i < |batch| && batch[i].input.eventId == id :: r.value.events[i] == Answer(id, Duplicate)
  {
    hide Filter, Persist, Count, Find, HasEvent, Occurrences, ToStore, Retains;
    var f := Filter(batch, entitled, now, s.dedup);
    var p := Persist(s.rows, s.outbox, f.toPersist, tenant);
    var all := p.answers + f.refused;
    FilterOfKnownKey(batch, entitled, now, s.dedup, id);
    FilterAnswersAll(batch, entitled, now, s.dedup);
    PersistStores(s.rows, s.outbox, f.toPersist, tenant, id);
    PersistAnswers(s.rows, s.outbox, f.toPersist, tenant);
    CountsAddUp(all);
    NoRefusals(p.answers);
    RefusalsConcat(p.answers, f.refused);
    FindOverConcat(p.answers, f.refused, id);
    NoAnswerFor(s.rows, s.outbox, f.toPersist, tenant, id);
    forall i | 0 <= i < |batch| && batch[i].input.eventId == id ensures AnswerTo(all, id) == Answer(id, Duplicate) {
      assert Mentions(f, id);
      MentionedIsRefused(f, id);
    }
  }

  lemma MentionedIsRefused(f: Filtered, id: string)
    requires Mentions(f, id) && !ToStore(f.toPersist, id)
    ensures Find(f.refused, id).Some?
  {
  }

  lemma NoAnswerFor(rows: seq<Row>, outbox: seq<OutboxRow>, inputs: seq<Input>, tenant: nat, id: string)
    requires !ToStore(inputs, id)
    ensures Find(Persist(rows, outbox, inputs, tenant).answers, id).None?
  {
    hide Persist;
    PersistAnswers(rows, outbox, inputs, tenant);
    var answers := Persist(rows, outbox, inputs, tenant).answers;
    assert forall i | 0 <= i < |answers| :: answers[i].eventId == inputs[i].eventId != id;
  }

  lemma {:induction false} NoRefusals(answers: seq<Answer>)
    requires forall i | 0 <= i < |answers| :: answers[i].status != Refused
    ensures Count(answers, true) == 0
  {
    if answers != [] {
      NoRefusals(answers[..|answers| - 1]);
    }
  }

  lemma {:induction false} RefusalsConcat(a: seq<Answer>, b: seq<Answer>)
    ensures Count(a + b, true) == Count(a, true) + Count(b, true)
  {
    if b == [] {
      assert a + b == a;
    } else {
      RefusalsConcat(a, b[..|b| - 1]);
      assert (a + b)[..|a + b| - 1] == a + b[..|b| - 1];
    }
  }

  lemma NoSubscription(s: Store, tenant: nat, now: int, batch: seq<Arrival>, commits: bool)
    ensures Ingested(s, tenant, None, now, batch, commits).0 == s
  {
  }

  lemma ActKeepsOrphan(s: Store, a: Action, id: string)
    requires Orphan(s, id) && KeepsKey(a, id)
    ensures Orphan(Act(s, a), id)
  {
    hide Ingested, HasEvent;
    match a {
      case Ingest(tenant, entitled, now, batch, commits) =>
        if entitled.Some? {
          IngestStores(s, tenant, entitled.value, now, batch, commits, id);
          KeyIsRetained(s.dedup, batch, id);
        } else {
          NoSubscription(s, tenant, now, batch, commits);
        }
      case Consume(tenant, feature, amount, eventId, now, commits) =>
        HasEventPush(s.rows, Row(eventId, tenant, feature, amount, now, Pending), id);
      case Evict(keys) =>
    }
  }

  lemma {:induction false} RunKeepsOrphan(s: Store, actions: seq<Action>, id: string)
    requires Orphan(s, id) && forall i | 0 <= i < |actions| :: KeepsKey(actions[i], id)
    ensures Orphan(Run(s, actions), id)
  {
    hide Act, Orphan, KeepsKey;
    if actions != [] {
      var front := actions[..|actions| - 1];
      assert forall i | 0 <= i < |front| :: front[i] == actions[i];
      RunKeepsOrphan(s, front, id);
      ActKeepsOrphan(Run(s, front), actions[|actions| - 1], id);
    }
  }

  /** An event that is refused at its first place in any batch is lost: while its key lives, whatever else runs, it is
      answered "duplicate", counted as accepted and not stored at every place of every later batch, even if it
      would pass by then. */
  lemma {:induction false} ResentAfterRefusalIsLost(s: Store, tenant: nat, entitled: set<string>, now: int,
                                                    batch: seq<Arrival>, commits: bool, i: nat, between: seq<Action>,
                                                    nowEntitled: set<string>, later: int, again: seq<Arrival>)
    requires i < |batch| && FirstOfItsId(batch, i) && PreValidate(batch[i].input, entitled, now).Some?
    requires var id := batch[i].input.eventId;
      && id !in s.dedup && !HasEvent(s.rows, id) && Retains(batch, id) && Retains(again, id)
      && forall k | 0 <= k < |between| :: KeepsKey(between[k], id)
    ensures var id, s1 := batch[i].input.eventId, Ingested(s, tenant, Some(entitled), now, batch, commits).0;
      var (s2, r) := Ingested(Run(s1, between), tenant, Some(nowEntitled), later, again, true);
      && !HasEvent(s2.rows, id) && r.Ok? && Occurrences(again, id) <= r.value.accepted && |r.value.events| == |again|
      && forall j | 0 <= j < |again| && again[j].input.eventId == id :: r.value.events[j] == Answer(id, Duplicate)
  {
    hide Ingested, HasEvent, Run, PreValidate, Retains, Occurrences;
    var id, s1 := batch[i].input.eventId, Ingested(s, tenant, Some(entitled), now, batch, commits).0;
    RefusedLeavesOrphan(s, tenant, entitled, now, batch, commits, i);
    RunKeepsOrphan(s1, between, id);
    KnownKeyIsDuplicate(Run(s1, between), tenant, nowEntitled, later, again, id);
  }

  lemma RefusedLeavesOrphan(s: Store, tenant: nat, entitled: set<string>, now: int, batch: seq<Arrival>, commits: bool, i: nat)
    requires i < |batch| && FirstOfItsId(batch, i) && PreValidate(batch[i].input, entitled, now).Some?
    requires var id := batch[i].input.eventId; id !in s.dedup && !HasEvent(s.rows, id) && Retains(batch, id)
    ensures Orphan(Ingested(s, tenant, Some(entitled), now, batch, commits).0, batch[i].input.eventId)
  {
    hide Ingested, HasEvent, PreValidate, Keys;
    var id := batch[i].input.eventId;
    IngestStores(s, tenant, entitled, now, batch, commits, id);
    KeyStaysOnceSet(s.dedup, batch, i, |batch|);
    assert batch[..|batch|] == batch;
    forall k: nat | k < |batch| ensures !Passes(s.dedup, batch, k, entitled, now, id) {
      if i < k && batch[k].input.eventId == id {
        KeyStaysOnceSet(s.dedup, batch, i, k);
      }
    }
  }

  lemma {:induction false} KeyStaysOnceSet(dedup: set<string>, batch: seq<Arrival>, i: nat, n: nat)
    requires i < n <= |batch| && Retains(batch, batch[i].input.eventId)
    ensures batch[i].input.eventId in Keys(dedup, batch[..n])
  {
    assert batch[..n][..n - 1] == batch[..n - 1];
    if i < n - 1 {
      KeyStaysOnceSet(dedup, batch, i, n - 1);
    }
  }
}
