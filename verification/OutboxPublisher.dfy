/** Draining the outbox to Kafka with one worker. A row's id is its position. Kafka may fail on any
    publish; the database may fail on the PUBLISHED mark (after the message is out) or on the write
    that records a failure (which aborts the batch). */
module OutboxPublisher {
  import opened Wrappers

  const BATCH_SIZE := 100
  const MAX_RETRIES := 5
  const LONGEST_BACKOFF_MS := 16 * 1000

  datatype Status = Pending | Published | Failed

  datatype Row = Row(createdAt: int, status: Status, retryCount: nat, nextRetryAt: Option<int>)

  /** `sent` and `dead` hold row ids: messages on the topic, and PUBLISHING dead letters. */
  datatype State = State(rows: seq<Row>, sent: seq<nat>, dead: seq<nat>)

  /** What one publish attempt meets. */
  datatype Weather = Weather(kafka: bool, mark: bool, record: bool)

  datatype Work = Work(id: nat, weather: Weather)

  function Pow2(n: nat): nat {
    if n == 0 then 1 else 2 * Pow2(n - 1)
  }

  function Backoff(retry: nat): int { Pow2(retry) * 1000 }

  predicate Ready(row: Row, now: int) {
    row.status == Pending && (row.nextRetryAt.None? || row.nextRetryAt.value <= now)
  }

  /** SELECT ... ORDER BY created_at LIMIT 100 over the ready rows. */
  predicate IsBatch(rows: seq<Row>, now: int, ids: seq<nat>) {
    && |ids| <= BATCH_SIZE
    && (forall k | 0 <= k < |ids| :: ids[k] < |rows| && Ready(rows[ids[k]], now))
    && (forall j, k | 0 <= j < k < |ids| :: ids[j] != ids[k] && rows[ids[j]].createdAt <= rows[ids[k]].createdAt)
    && (forall i | 0 <= i < |rows| && Ready(rows[i], now) && i !in ids ::
          |ids| == BATCH_SIZE && forall k | 0 <= k < |ids| :: rows[ids[k]].createdAt <= rows[i].createdAt)
  }

  /** One publishRow, and whether it returned without throwing. */
  function PublishOne(s: State, w: Work, now: int): (State, bool) {
    if |s.rows| <= w.id then (s, true)
    else
      var row, sent := s.rows[w.id], if w.weather.kafka then s.sent + [w.id] else s.sent;
      if w.weather.kafka && w.weather.mark then
        (State(s.rows[w.id := row.(status := Published)], sent, s.dead), true)
      else if !w.weather.record then (s.(sent := sent), false)
      else if row.retryCount + 1 >= MAX_RETRIES then
        (State(s.rows[w.id := row.(status := Failed, retryCount := row.retryCount + 1)], sent, s.dead + [w.id]), true)
      else
        (s.(rows := s.rows[w.id := row.(retryCount := row.retryCount + 1,
                                        nextRetryAt := Some(now + Backoff(row.retryCount + 1)))], sent := sent), true)
  }

  function PublishAll(s: State, work: seq<Work>, now: int): State
    decreases |work|
  {
    if work == [] then s
    else
      var (s', ok) := PublishOne(s, work[0], now);
      if ok then PublishAll(s', work[1..], now) else s'
  }

  function Ids(work: seq<Work>): seq<nat> {
    seq(|work|, k requires 0 <= k < |work| => work[k].id)
  }

  // ----- the worker -----

  class Publisher {
    var rows: seq<Row>
    var sent: seq<nat>
    var dead: seq<nat>
    var isProcessing: bool

    ghost function Snapshot(): State
      reads this
    {
      State(rows, sent, dead)
    }

    constructor ()
      ensures Snapshot() == State([], [], []) && !isProcessing
    {
      rows, sent, dead, isProcessing := [], [], [], false;
    }

    method SelectBatch(now: int) returns (ids: seq<nat>)
      ensures IsBatch(rows, now, ids)
      ensures |ids| == 100 || (|ids| < 100 && forall i: nat | i < |rows| && Ready(rows[i], now) :: i in ids)
    {
      hide Ready, Taken;
      ids := [];
      var rest: set<nat> := set i: nat | i < |rows| && Ready(rows[i], now);
      NothingTaken(rows, now, rest);
      while rest != {} && |ids| < BATCH_SIZE
        invariant |ids| <= BATCH_SIZE && Taken(rows, now, ids, rest)
        decreases |rest|
      {
        TakenBelow(rows, now, ids, rest);
        OldestExists(rows, rest);
        var i :| i in rest && forall j | j in rest :: rows[i].createdAt <= rows[j].createdAt;
        TakeOldest(rows, now, ids, rest, i);
        ids := ids + [i];
        rest := rest - {i};
      }
      TakenIsBatch(rows, now, ids, rest);
    }

    /** `retryCount` is the value the batch query returned. */
    method PublishRow(id: nat, retryCount: nat, weather: Weather, now: int) returns (ok: bool)
      requires id < |rows| && rows[id].retryCount == retryCount
      modifies this`rows, this`sent, this`dead
      ensures (Snapshot(), ok) == PublishOne(old(Snapshot()), Work(id, weather), now)
    {
      if weather.kafka {
        sent := sent + [id];
        if weather.mark {
          rows := rows[id := rows[id].(status := Published)];
          return true;
        }
      }
      var newRetryCount := retryCount + 1;
      if !weather.record {
        return false;
      }
      if newRetryCount >= MAX_RETRIES {
        rows := rows[id := rows[id].(status := Failed, retryCount := newRetryCount)];
        dead := dead + [id];
      } else {
        rows := rows[id := rows[id].(retryCount := newRetryCount, nextRetryAt := Some(now + Backoff(newRetryCount)))];
      }
      return true;
    }

    method ProcessBatch(now: int, weather: seq<Weather>) returns (ghost work: seq<Work>)
      requires |weather| == BATCH_SIZE
      modifies this`rows, this`sent, this`dead
      ensures IsBatch(old(rows), now, Ids(work))
      ensures forall k | 0 <= k < |work| :: work[k].weather == weather[k]
      ensures Snapshot() == PublishAll(old(Snapshot()), work, now)
    {
      hide IsBatch, PublishOne;
      var ids := SelectBatch(now);
      var selected := rows;
      BatchIndexes(rows, now, ids);
      work := seq(|ids|, k requires 0 <= k < |ids| => Work(ids[k], weather[k]));
      assert Ids(work) == ids;
      for k := 0 to |ids|
        invariant |rows| == |selected|
        invariant forall j | k <= j < |ids| :: rows[ids[j]] == selected[ids[j]]
        invariant PublishAll(old(Snapshot()), work, now) == PublishAll(Snapshot(), work[k..], now)
      {
        PublishOneFrame(Snapshot(), work[k], now);
        var ok := PublishRow(ids[k], selected[ids[k]].retryCount, weather[k], now);
        if !ok {
          return;
        }
        assert work[k..][1..] == work[k + 1..];
      }
    }

    method DrainOutbox(connected: bool, now: int, weather: seq<Weather>) returns (ghost work: seq<Work>)
      requires |weather| == BATCH_SIZE
      modifies this
      ensures isProcessing == old(isProcessing)
      ensures Snapshot() == PublishAll(old(Snapshot()), work, now)
      ensures if old(isProcessing) || !connected then work == [] else IsBatch(old(rows), now, Ids(work))
    {
      work := [];
      if isProcessing || !connected {
        return;
      }
      isProcessing := true;
      work := ProcessBatch(now, weather);
      isProcessing := false;
    }
  }

  lemma BatchIndexes(rows: seq<Row>, now: int, ids: seq<nat>)
    requires IsBatch(rows, now, ids)
    ensures |ids| <= BATCH_SIZE
    ensures forall k | 0 <= k < |ids| :: ids[k] < |rows|
    ensures forall j, k | 0 <= j < k < |ids| :: ids[j] != ids[k]
  {
  }

  lemma PublishOneFrame(s: State, w: Work, now: int)
    ensures |PublishOne(s, w, now).0.rows| == |s.rows|
    ensures forall i | 0 <= i < |s.rows| && i != w.id :: PublishOne(s, w, now).0.rows[i] == s.rows[i]
  {
  }

  /** The ready rows are the taken ones, oldest first, and the rest, none of which is older. */
  predicate Taken(rows: seq<Row>, now: int, ids: seq<nat>, rest: set<nat>) {
    && (forall i | i in rest :: i < |rows| && Ready(rows[i], now) && i !in ids)
    && (forall k | 0 <= k < |ids| :: ids[k] < |rows| && Ready(rows[ids[k]], now))
    && (forall j, k | 0 <= j < k < |ids| :: ids[j] != ids[k] && rows[ids[j]].createdAt <= rows[ids[k]].createdAt)
    && (forall i, k | i in rest && 0 <= k < |ids| :: rows[ids[k]].createdAt <= rows[i].createdAt)
    && (forall i | 0 <= i < |rows| && Ready(rows[i], now) :: i in ids || i in rest)
  }

  lemma NothingTaken(rows: seq<Row>, now: int, rest: set<nat>)
    requires rest == set i: nat | i < |rows| && Ready(rows[i], now)
    ensures Taken(rows, now, [], rest)
  {
    hide Ready;
  }

  lemma TakenBelow(rows: seq<Row>, now: int, ids: seq<nat>, rest: set<nat>)
    requires Taken(rows, now, ids, rest)
    ensures forall i | i in rest :: i < |rows|
  {
  }

  lemma TakeOldest(rows: seq<Row>, now: int, ids: seq<nat>, rest: set<nat>, i: nat)
    requires Taken(rows, now, ids, rest) && i in rest && i < |rows|
    requires forall j | j in rest :: j < |rows| && rows[i].createdAt <= rows[j].createdAt
    ensures Taken(rows, now, ids + [i], rest - {i})
  {
    hide Ready;
  }

  lemma TakenIsBatch(rows: seq<Row>, now: int, ids: seq<nat>, rest: set<nat>)
    requires Taken(rows, now, ids, rest) && |ids| <= BATCH_SIZE && (rest == {} || |ids| == BATCH_SIZE)
    ensures IsBatch(rows, now, ids)
  {
    hide Ready;
  }

  lemma {:induction false} OldestExists(rows: seq<Row>, ids: set<nat>)
    requires ids != {} && forall i | i in ids :: i < |rows|
    ensures exists i | i in ids :: forall j | j in ids :: rows[i].createdAt <= rows[j].createdAt
    decreases |ids|
  {
    var i :| i in ids;
    if ids != {i} {
      OldestExists(rows, ids - {i});
      var m :| m in ids - {i} && forall j | j in ids - {i} :: rows[m].createdAt <= rows[j].createdAt;
      var best := if rows[i].createdAt <= rows[m].createdAt then i else m;
      assert best in ids && forall j | j in ids :: rows[best].createdAt <= rows[j].createdAt;
    } else {
      assert i in ids && forall j | j in ids :: rows[i].createdAt <= rows[j].createdAt;
    }
  }

  // ----- no row is lost -----

  function CountOf(ids: seq<nat>, i: nat): nat {
    if ids == [] then 0 else CountOf(ids[..|ids| - 1], i) + if ids[|ids| - 1] == i then 1 else 0
  }

  /** PENDING rows have attempts left, FAILED rows have used all five and have exactly one PUBLISHING
      dead letter, no other row has one, and PUBLISHED rows have a message on their topic. */
  predicate RowOk(s: State, i: nat)
    requires i < |s.rows|
  {
    match s.rows[i].status
    case Pending => s.rows[i].retryCount < MAX_RETRIES && CountOf(s.dead, i) == 0
    case Failed => s.rows[i].retryCount == MAX_RETRIES && CountOf(s.dead, i) == 1
    case Published => i in s.sent && CountOf(s.dead, i) == 0
  }

  predicate AllOk(s: State) {
    && (forall i | 0 <= i < |s.rows| :: RowOk(s, i))
    && (forall i | i in s.dead :: i < |s.rows|)
  }

  lemma CountPush(ids: seq<nat>, id: nat, i: nat)
    ensures CountOf(ids + [id], i) == CountOf(ids, i) + if id == i then 1 else 0
  {
    assert (ids + [id])[..|ids|] == ids;
  }

  predicate AllPending(s: State, ids: seq<nat>) {
    && (forall k | 0 <= k < |ids| :: ids[k] < |s.rows| && s.rows[ids[k]].status == Pending)
    && (forall j, k | 0 <= j < k < |ids| :: ids[j] != ids[k])
  }

  lemma PublishOneKeepsOk(s: State, w: Work, now: int)
    requires AllOk(s) && w.id < |s.rows| && s.rows[w.id].status == Pending
    ensures AllOk(PublishOne(s, w, now).0)
  {
    hide Backoff, CountOf;
    var s' := PublishOne(s, w, now).0;
    assert s'.sent == s.sent || s'.sent[|s.sent|] == w.id;
    forall i | 0 <= i < |s.rows| ensures RowOk(s', i) {
      assert RowOk(s, i);
      CountPush(s.dead, w.id, i);
    }
  }

  lemma {:induction false} PublishAllKeepsOk(s: State, work: seq<Work>, now: int)
    requires AllOk(s) && AllPending(s, Ids(work))
    ensures AllOk(PublishAll(s, work, now)) && |PublishAll(s, work, now).rows| == |s.rows|
    decreases |work|
  {
    hide Backoff, AllOk;
    if work != [] {
      assert Ids(work)[0] == work[0].id && Ids(work)[1..] == Ids(work[1..]);
      PublishOneKeepsOk(s, work[0], now);
      var (s', ok) := PublishOne(s, work[0], now);
      if ok {
        PublishAllKeepsOk(s', work[1..], now);
      }
    }
  }

  datatype Action = NewRow(now: int) | Drain(now: int, work: seq<Work>)

  /** A drain whose work is not what the query returns is not a step. */
  function Act(s: State, a: Action): State {
    match a
    case NewRow(now) => s.(rows := s.rows + [Row(now, Pending, 0, None)])
    case Drain(now, work) => if IsBatch(s.rows, now, Ids(work)) then PublishAll(s, work, now) else s
  }

  function Run(s: State, actions: seq<Action>): State {
    if actions == [] then s else Act(Run(s, actions[..|actions| - 1]), actions[|actions| - 1])
  }

  lemma {:induction false} NoCount(ids: seq<nat>, i: nat)
    requires i !in ids
    ensures CountOf(ids, i) == 0
  {
    if ids != [] {
      NoCount(ids[..|ids| - 1], i);
    }
  }

  lemma ActKeepsOk(s: State, a: Action)
    requires AllOk(s)
    ensures AllOk(Act(s, a)) && |s.rows| <= |Act(s, a).rows|
  {
    hide PublishAll, CountOf;
    match a {
      case NewRow(now) =>
        NoCount(s.dead, |s.rows|);
        assert forall i | 0 <= i < |s.rows| :: RowOk(s, i) && Act(s, a).rows[i] == s.rows[i];
      case Drain(now, work) =>
        if IsBatch(s.rows, now, Ids(work)) {
          PublishAllKeepsOk(s, work, now);
        }
    }
  }

  const EMPTY := State([], [], [])

  /** Through any Kafka and database failures every row stays accounted for. */
  lemma {:induction false} NoRowIsLost(actions: seq<Action>)
    ensures AllOk(Run(EMPTY, actions))
  {
    hide Act, RowOk;
    if actions != [] {
      NoRowIsLost(actions[..|actions| - 1]);
      ActKeepsOk(Run(EMPTY, actions[..|actions| - 1]), actions[|actions| - 1]);
    }
  }

  // ----- the drain ends -----

  function LeftOf(row: Row): int {
    if row.status == Pending then MAX_RETRIES - row.retryCount else 0
  }

  function AttemptsLeft(rows: seq<Row>): int {
    if rows == [] then 0 else AttemptsLeft(rows[..|rows| - 1]) + LeftOf(rows[|rows| - 1])
  }

  lemma {:induction false} AttemptsLeftUpdate(rows: seq<Row>, i: nat, row: Row)
    requires i < |rows|
    ensures AttemptsLeft(rows[i := row]) == AttemptsLeft(rows) - LeftOf(rows[i]) + LeftOf(row)
  {
    var before := rows[..|rows| - 1];
    if i == |rows| - 1 {
      assert rows[i := row][..|rows| - 1] == before;
    } else {
      AttemptsLeftUpdate(before, i, row);
      assert rows[i := row][..|rows| - 1] == before[i := row];
    }
  }

  predicate DatabaseUp(work: seq<Work>) {
    forall w | w in work :: w.weather.mark && w.weather.record
  }

  /** Without database faults every handled row uses up an attempt or leaves PENDING, so a batch of n
      rows takes at least n off the remaining attempts, whatever Kafka does. */
  lemma {:induction false} BatchUsesAttempts(s: State, work: seq<Work>, now: int)
    requires AllOk(s) && AllPending(s, Ids(work)) && DatabaseUp(work)
    ensures AttemptsLeft(PublishAll(s, work, now).rows) + |work| <= AttemptsLeft(s.rows)
    decreases |work|
  {
    hide Backoff, AttemptsLeft;
    if work != [] {
      var w := work[0];
      assert w in work && Ids(work)[0] == w.id && Ids(work)[1..] == Ids(work[1..]);
      PublishOneKeepsOk(s, w, now);
      var (s', ok) := PublishOne(s, w, now);
      assert RowOk(s, w.id);
      AttemptsLeftUpdate(s.rows, w.id, s'.rows[w.id]);
      assert s'.rows == s.rows[w.id := s'.rows[w.id]];
      BatchUsesAttempts(s', work[1..], now);
    }
  }

  lemma {:induction false} AttemptsLeftBound(rows: seq<Row>)
    requires forall i | 0 <= i < |rows| :: rows[i].status == Pending ==> rows[i].retryCount < MAX_RETRIES
    ensures 0 <= AttemptsLeft(rows)
    ensures AttemptsLeft(rows) == 0 <==> forall i | 0 <= i < |rows| :: rows[i].status != Pending
  {
    if rows != [] {
      AttemptsLeftBound(rows[..|rows| - 1]);
    }
  }

  /** No backoff reaches further than sixteen seconds past `t`. */
  predicate BackoffWithin(rows: seq<Row>, t: int) {
    forall i | 0 <= i < |rows| && rows[i].status == Pending && rows[i].nextRetryAt.Some? ::
      rows[i].nextRetryAt.value <= t + LONGEST_BACKOFF_MS
  }

  lemma BackoffBound(retry: nat)
    requires retry < MAX_RETRIES
    ensures Backoff(retry) <= LONGEST_BACKOFF_MS
  {
    assert Pow2(2) == 4 && Pow2(4) == 16;
  }

  lemma {:induction false} BatchKeepsBackoff(s: State, work: seq<Work>, t: int, now: int)
    requires AllOk(s) && AllPending(s, Ids(work)) && BackoffWithin(s.rows, t) && t <= now
    ensures BackoffWithin(PublishAll(s, work, now).rows, now)
    decreases |work|
  {
    hide Backoff, CountOf;
    if work != [] {
      var w := work[0];
      assert Ids(work)[0] == w.id && Ids(work)[1..] == Ids(work[1..]);
      PublishOneKeepsOk(s, w, now);
      var (s', ok) := PublishOne(s, w, now);
      if s.rows[w.id].retryCount + 1 < MAX_RETRIES {
        BackoffBound(s.rows[w.id].retryCount + 1);
      }
      assert BackoffWithin(s'.rows, now);
      if ok {
        BatchKeepsBackoff(s', work[1..], now, now);
      }
    }
  }

  /** Ticks in time order from `t` on, each with the batch the query returns, no new rows, and a
      database that answers. */
  predicate QuietTicks(s: State, ticks: seq<Action>, t: int)
    decreases |ticks|
  {
    ticks == [] ||
    (ticks[0].Drain? && t <= ticks[0].now && DatabaseUp(ticks[0].work)
     && IsBatch(s.rows, ticks[0].now, Ids(ticks[0].work))
     && QuietTicks(PublishAll(s, ticks[0].work, ticks[0].now), ticks[1..], ticks[0].now))
  }

  function After(s: State, ticks: seq<Action>): State
    decreases |ticks|
  {
    if ticks == [] then s else After(Act(s, ticks[0]), ticks[1..])
  }

  /** How many stretches of sixteen seconds the ticks complete, counting from `anchor`. */
  function Stretches(ticks: seq<Action>, anchor: int): nat
    decreases |ticks|
  {
    if ticks == [] then 0
    else if anchor + LONGEST_BACKOFF_MS <= ticks[0].now then 1 + Stretches(ticks[1..], ticks[0].now)
    else Stretches(ticks[1..], anchor)
  }

  /** Since `anchor` no attempt was made, or one was and is paid for in advance. */
  predicate OnCourse(s: State, ticks: seq<Action>, anchor: int) {
    (BackoffWithin(s.rows, anchor) && AttemptsLeft(s.rows) <= Stretches(ticks, anchor))
    || AttemptsLeft(s.rows) + 1 <= Stretches(ticks, anchor)
  }

  lemma TickStaysOnCourse(s: State, ticks: seq<Action>, anchor: int, t: int)
    requires ticks != [] && AllOk(s) && BackoffWithin(s.rows, t) && QuietTicks(s, ticks, t) && anchor <= t
    requires OnCourse(s, ticks, anchor)
    ensures var now, s' := ticks[0].now, PublishAll(s, ticks[0].work, ticks[0].now);
            && AllOk(s') && BackoffWithin(s'.rows, now)
            && OnCourse(s', ticks[1..], if anchor + LONGEST_BACKOFF_MS <= now then now else anchor)
  {
    hide PublishAll, AttemptsLeft, CountOf;
    var now, work := ticks[0].now, ticks[0].work;
    var s' := PublishAll(s, work, now);
    assert AllPending(s, Ids(work));
    PublishAllKeepsOk(s, work, now);
    BatchUsesAttempts(s, work, now);
    BatchKeepsBackoff(s, work, t, now);
    if work == [] {
      EmptyBatchStays(s, now);
      if anchor + LONGEST_BACKOFF_MS <= now && BackoffWithin(s.rows, anchor) {
        NothingPending(s, now, anchor);
        AttemptsLeftBound(s'.rows);
      }
    }
  }

  lemma EmptyBatchStays(s: State, now: int)
    ensures PublishAll(s, [], now) == s
  {
  }

  lemma {:induction false} DrainCountsDown(s: State, ticks: seq<Action>, anchor: int, t: int)
    requires AllOk(s) && BackoffWithin(s.rows, t) && QuietTicks(s, ticks, t) && anchor <= t
    requires OnCourse(s, ticks, anchor)
    ensures forall i | 0 <= i < |After(s, ticks).rows| :: After(s, ticks).rows[i].status != Pending
    decreases |ticks|
  {
    hide PublishAll, AttemptsLeft, CountOf;
    if ticks == [] {
      PendingHaveAttempts(s);
      AttemptsLeftBound(s.rows);
    } else {
      var now := ticks[0].now;
      TickStaysOnCourse(s, ticks, anchor, t);
      DrainCountsDown(PublishAll(s, ticks[0].work, now), ticks[1..],
                            if anchor + LONGEST_BACKOFF_MS <= now then now else anchor, now);
    }
  }

  /** While the worker ticks on, each stretch of sixteen seconds uses up an attempt of some row or finds
      nothing pending; so as many stretches as there are attempts left empty the PENDING set, however
      often Kafka fails and however many rows wait. */
  lemma DrainEmptiesTheOutbox(s: State, ticks: seq<Action>, t: int)
    requires AllOk(s) && BackoffWithin(s.rows, t) && QuietTicks(s, ticks, t)
    requires AttemptsLeft(s.rows) <= Stretches(ticks, t)
    ensures forall i | 0 <= i < |After(s, ticks).rows| :: After(s, ticks).rows[i].status != Pending
  {
    DrainCountsDown(s, ticks, t, t);
  }

  lemma PendingHaveAttempts(s: State)
    requires AllOk(s)
    ensures forall i | 0 <= i < |s.rows| :: s.rows[i].status == Pending ==> s.rows[i].retryCount < MAX_RETRIES
  {
    forall i | 0 <= i < |s.rows| ensures s.rows[i].status == Pending ==> s.rows[i].retryCount < MAX_RETRIES {
      assert RowOk(s, i);
    }
  }

  /** An empty batch after the longest backoff means that nothing is pending. */
  lemma NothingPending(s: State, now: int, t: int)
    requires BackoffWithin(s.rows, t) && t + LONGEST_BACKOFF_MS <= now && IsBatch(s.rows, now, [])
    ensures forall i | 0 <= i < |s.rows| :: s.rows[i].status != Pending
  {
    forall i | 0 <= i < |s.rows| ensures s.rows[i].status != Pending {
      assert !Ready(s.rows[i], now);
    }
  }

  // ----- what became of a row is what its attempts met -----

  datatype Try = Try(now: int, weather: Weather)

  predicate Succeeds(w: Weather) { w.kafka && w.mark }

  /** A failed attempt that could be recorded; one that could not is as if it had not been made, but for its message. */
  predicate Counts(w: Weather) { !Succeeds(w) && w.record }

  /** The attempts of row i in a batch, which ends at the first that can be neither marked nor recorded. */
  function TriesIn(work: seq<Work>, now: int, i: nat): seq<Try>
    decreases |work|
  {
    if work == [] then []
    else
      TryOf(work[0], now, i)
      + if Succeeds(work[0].weather) || work[0].weather.record then TriesIn(work[1..], now, i) else []
  }

  /** All attempts of row i in a run. */
  function Tries(actions: seq<Action>, i: nat): seq<Try> {
    if actions == [] then []
    else
      var front, last := actions[..|actions| - 1], actions[|actions| - 1];
      Tries(front, i)
      + if last.Drain? && IsBatch(Run(EMPTY, front).rows, last.now, Ids(last.work)) then TriesIn(last.work, last.now, i) else []
  }

  function Failures(tries: seq<Try>): nat {
    if tries == [] then 0
    else Failures(tries[..|tries| - 1]) + if Counts(tries[|tries| - 1].weather) then 1 else 0
  }

  function Messages(tries: seq<Try>): nat {
    if tries == [] then 0
    else Messages(tries[..|tries| - 1]) + if tries[|tries| - 1].weather.kafka then 1 else 0
  }

  /** After its n-th recorded failure a row waits for 2^n seconds. */
  function WaitsUntil(tries: seq<Try>): Option<int> {
    if tries == [] then None
    else if Counts(tries[|tries| - 1].weather) then Some(tries[|tries| - 1].now + Pow2(Failures(tries)) * 1000)
    else WaitsUntil(tries[..|tries| - 1])
  }

  predicate Waits(tries: seq<Try>) {
    forall q | 0 <= q < |tries| :: WaitsUntil(tries[..q]).Some? ==> WaitsUntil(tries[..q]).value <= tries[q].now
  }

  predicate Ended(tries: seq<Try>) {
    tries != [] && (Succeeds(tries[|tries| - 1].weather) || (Failures(tries) == 5 && Counts(tries[|tries| - 1].weather)))
  }

  /** The row is PUBLISHED exactly after an attempt that succeeds, FAILED exactly after five that fail, and PENDING else;
      it has one message for each attempt that Kafka took, one dead letter if it FAILED, and waits between attempts. */
  predicate History(s: State, i: nat, tries: seq<Try>)
    requires i < |s.rows|
  {
    var row := s.rows[i];
    && (row.status == Published <==> exists t | t in tries :: Succeeds(t.weather))
    && (row.status == Failed <==> Failures(tries) == 5)
    && row.retryCount == Failures(tries) <= 5
    && CountOf(s.sent, i) == Messages(tries)
    && CountOf(s.dead, i) == (if row.status == Failed then 1 else 0)
    && (row.status == Pending ==> row.nextRetryAt == WaitsUntil(tries))
    && Waits(tries) && forall q | 0 < q < |tries| :: !Ended(tries[..q])
  }

  lemma TriesPush(tries: seq<Try>, t: Try)
    ensures Failures(tries + [t]) == Failures(tries) + if Counts(t.weather) then 1 else 0
    ensures Messages(tries + [t]) == Messages(tries) + if t.weather.kafka then 1 else 0
    ensures WaitsUntil(tries + [t])
         == if Counts(t.weather) then Some(t.now + Pow2(Failures(tries) + 1) * 1000) else WaitsUntil(tries)
  {
    assert (tries + [t])[..|tries|] == tries;
  }

  lemma WaitsPush(tries: seq<Try>, t: Try)
    requires Waits(tries) && (WaitsUntil(tries).Some? ==> WaitsUntil(tries).value <= t.now)
    requires !Ended(tries) && forall q | 0 < q < |tries| :: !Ended(tries[..q])
    ensures Waits(tries + [t]) && forall q | 0 < q <= |tries| :: !Ended((tries + [t])[..q])
  {
    hide WaitsUntil, Ended;
    var longer := tries + [t];
    assert tries[..|tries|] == tries;
    assert forall q | 0 <= q <= |tries| :: longer[..q] == tries[..q];
  }

  lemma PendingGoesOn(s: State, i: nat, tries: seq<Try>)
    requires i < |s.rows| && History(s, i, tries) && s.rows[i].status == Pending
    ensures !Ended(tries)
  {
    if tries != [] {
      assert tries[|tries| - 1] in tries;
    }
  }

  /** One attempt of a ready row. */
  lemma PublishOneHistory(s: State, w: Work, now: int, tries: seq<Try>)
    requires w.id < |s.rows| && History(s, w.id, tries) && Ready(s.rows[w.id], now)
    ensures History(PublishOne(s, w, now).0, w.id, tries + [Try(now, w.weather)])
  {
    hide WaitsUntil, Failures, Messages, Ended, Waits, CountOf;
    var t := Try(now, w.weather);
    PendingGoesOn(s, w.id, tries);
    TriesPush(tries, t);
    WaitsPush(tries, t);
    CountPush(s.sent, w.id, w.id);
    CountPush(s.dead, w.id, w.id);
    var longer := tries + [t];
    assert longer[|tries|] == t && forall u | u in tries :: u in longer;
  }

  lemma OtherHistoryStays(s: State, w: Work, now: int, i: nat, tries: seq<Try>)
    requires i < |s.rows| && i != w.id && History(s, i, tries)
    ensures History(PublishOne(s, w, now).0, i, tries)
  {
    hide WaitsUntil, Failures, Messages, Ended, Waits, CountOf;
    CountPush(s.sent, w.id, i);
    CountPush(s.dead, w.id, i);
  }

  predicate ReadyOnce(s: State, work: seq<Work>, now: int, i: nat) {
    && i < |s.rows|
    && (forall k | 0 <= k < |work| :: work[k].id < |s.rows| && (work[k].id == i ==> Ready(s.rows[i], now)))
    && (forall j, k | 0 <= j < k < |work| :: work[j].id != work[k].id)
  }

  function TryOf(w: Work, now: int, i: nat): seq<Try> {
    if w.id == i then [Try(now, w.weather)] else []
  }

  lemma EitherHistory(s: State, w: Work, now: int, i: nat, tries: seq<Try>)
    requires i < |s.rows| && w.id < |s.rows| && History(s, i, tries) && (w.id == i ==> Ready(s.rows[i], now))
    ensures var (s', ok) := PublishOne(s, w, now);
      && i < |s'.rows| && History(s', i, tries + TryOf(w, now, i))
      && ok == (Succeeds(w.weather) || w.weather.record)
  {
    hide History;
    if w.id == i {
      PublishOneHistory(s, w, now, tries);
    } else {
      OtherHistoryStays(s, w, now, i, tries);
      assert tries + [] == tries;
    }
  }

  lemma RestIsReadyOnce(s: State, work: seq<Work>, now: int, i: nat)
    requires work != [] && ReadyOnce(s, work, now, i)
    ensures ReadyOnce(PublishOne(s, work[0], now).0, work[1..], now, i)
  {
    hide Ready, PublishOne;
    PublishOneFrame(s, work[0], now);
  }

  lemma {:induction false} PublishAllHistory(s: State, work: seq<Work>, now: int, i: nat, tries: seq<Try>)
    requires i < |s.rows| && History(s, i, tries) && ReadyOnce(s, work, now, i)
    ensures i < |PublishAll(s, work, now).rows| && History(PublishAll(s, work, now), i, tries + TriesIn(work, now, i))
    decreases |work|
  {
    hide History, Ready, PublishOne, ReadyOnce, TriesIn, TryOf;
    TriesInHead(work, now, i);
    if work == [] {
      assert tries + [] == tries;
    } else {
      ReadyOnceHead(s, work, now, i);
      RestIsReadyOnce(s, work, now, i);
      EitherHistory(s, work[0], now, i, tries);
      var (s', ok) := PublishOne(s, work[0], now);
      var head, more := TryOf(work[0], now, i), tries + TryOf(work[0], now, i);
      if ok {
        PublishAllHistory(s', work[1..], now, i, more);
        assert more + TriesIn(work[1..], now, i) == tries + (head + TriesIn(work[1..], now, i));
      } else {
        assert head + [] == head;
      }
    }
  }

  lemma ReadyOnceHead(s: State, work: seq<Work>, now: int, i: nat)
    requires work != [] && ReadyOnce(s, work, now, i)
    ensures work[0].id < |s.rows| && (work[0].id == i ==> i < |s.rows| && Ready(s.rows[i], now))
  {
  }

  lemma TriesInHead(work: seq<Work>, now: int, i: nat)
    ensures if work == [] then TriesIn(work, now, i) == []
      else TriesIn(work, now, i) == TryOf(work[0], now, i)
            + if Succeeds(work[0].weather) || work[0].weather.record then TriesIn(work[1..], now, i) else []
  {
  }

  lemma BatchIsReadyOnce(s: State, now: int, work: seq<Work>, i: nat)
    requires i < |s.rows| && IsBatch(s.rows, now, Ids(work))
    ensures ReadyOnce(s, work, now, i)
  {
    assert forall k | 0 <= k < |work| :: Ids(work)[k] == work[k].id;
  }

  lemma NewRowHistory(s: State, now: int)
    requires AllOk(s) && SentBelow(s)
    ensures History(Act(s, NewRow(now)), |s.rows|, [])
  {
    NoCount(s.sent, |s.rows|);
    NoCount(s.dead, |s.rows|);
  }

  /** Over every run each row is exactly where its own attempts have brought it. */
  lemma {:induction false} RowsTellTheirAttempts(actions: seq<Action>, i: nat)
    requires i < |Run(EMPTY, actions).rows|
    ensures History(Run(EMPTY, actions), i, Tries(actions, i))
  {
    hide History, Act, IsBatch, AllOk;
    var front, last := actions[..|actions| - 1], actions[|actions| - 1];
    var s := Run(EMPTY, front);
    RunKeepsIds(front);
    NoRowIsLost(front);
    ActShape(s, last);
    if i < |s.rows| {
      RowsTellTheirAttempts(front, i);
      if last.Drain? && IsBatch(s.rows, last.now, Ids(last.work)) {
        BatchIsReadyOnce(s, last.now, last.work, i);
        PublishAllHistory(s, last.work, last.now, i, Tries(front, i));
      } else {
        assert Tries(front, i) + [] == Tries(front, i);
        NewRowKeepsHistory(s, last, i, Tries(front, i));
      }
    } else {
      NoTriesYet(front, i);
      NewRowHistory(s, last.now);
      assert Tries(actions, i) == [];
    }
  }

  lemma ActShape(s: State, a: Action)
    ensures a.NewRow? ==> |Act(s, a).rows| == |s.rows| + 1
    ensures a.Drain? ==> |Act(s, a).rows| == |s.rows|
    ensures a.Drain? && IsBatch(s.rows, a.now, Ids(a.work)) ==> Act(s, a) == PublishAll(s, a.work, a.now)
    ensures a.Drain? && !IsBatch(s.rows, a.now, Ids(a.work)) ==> Act(s, a) == s
  {
    hide IsBatch, PublishOne;
    if a.Drain? {
      PublishAllFrame(s, a.work, a.now);
    }
  }

  predicate SentBelow(s: State) { forall k | 0 <= k < |s.sent| :: s.sent[k] < |s.rows| }

  lemma {:induction false} PublishAllFrame(s: State, work: seq<Work>, now: int)
    ensures |PublishAll(s, work, now).rows| == |s.rows|
    ensures SentBelow(s) ==> SentBelow(PublishAll(s, work, now))
    decreases |work|
  {
    if work != [] {
      PublishAllFrame(PublishOne(s, work[0], now).0, work[1..], now);
    }
  }

  lemma {:induction false} RunKeepsIds(actions: seq<Action>)
    ensures SentBelow(Run(EMPTY, actions))
  {
    hide IsBatch, PublishAll;
    if actions != [] {
      var s, last := Run(EMPTY, actions[..|actions| - 1]), actions[|actions| - 1];
      RunKeepsIds(actions[..|actions| - 1]);
      if last.Drain? {
        PublishAllFrame(s, last.work, last.now);
      }
    }
  }

  lemma NewRowKeepsHistory(s: State, a: Action, i: nat, tries: seq<Try>)
    requires i < |s.rows| && History(s, i, tries)
    requires a.NewRow? || !IsBatch(s.rows, a.now, Ids(a.work))
    ensures i < |Act(s, a).rows| && History(Act(s, a), i, tries)
  {
    hide IsBatch, PublishAll;
  }

  lemma {:induction false} NoTriesYet(actions: seq<Action>, i: nat)
    requires |Run(EMPTY, actions).rows| <= i
    ensures Tries(actions, i) == []
  {
    hide Act, IsBatch;
    if actions != [] {
      var front, last := actions[..|actions| - 1], actions[|actions| - 1];
      var s := Run(EMPTY, front);
      ActShape(s, last);
      NoTriesYet(front, i);
      if last.Drain? && IsBatch(s.rows, last.now, Ids(last.work)) {
        BatchIsBelow(s, last.now, last.work);
        NoTriesIn(last.work, last.now, i);
      }
    }
  }

  lemma BatchIsBelow(s: State, now: int, work: seq<Work>)
    requires IsBatch(s.rows, now, Ids(work))
    ensures forall k | 0 <= k < |work| :: work[k].id < |s.rows|
  {
    assert forall k | 0 <= k < |work| :: Ids(work)[k] == work[k].id;
  }

  lemma {:induction false} NoTriesIn(work: seq<Work>, now: int, i: nat)
    requires forall k | 0 <= k < |work| :: work[k].id != i
    ensures TriesIn(work, now, i) == []
    decreases |work|
  {
    if work != [] {
      NoTriesIn(work[1..], now, i);
    }
  }

  /** So a row whose attempts have all met a Kafka and a database that answer has had at most one: it is PENDING and
      unsent, or PUBLISHED with exactly one message. */
  lemma AnsweredRowIsPublishedOnce(actions: seq<Action>, i: nat)
    requires i < |Run(EMPTY, actions).rows| && forall t | t in Tries(actions, i) :: Succeeds(t.weather)
    ensures var s, tries := Run(EMPTY, actions), Tries(actions, i);
      && |tries| <= 1 && s.rows[i].retryCount == 0 && CountOf(s.dead, i) == 0
      && s.rows[i].status == (if tries == [] then Pending else Published) && CountOf(s.sent, i) == |tries|
  {
    hide Run, Tries, CountOf;
    RowsTellTheirAttempts(actions, i);
    var tries := Tries(actions, i);
    AllSucceed(tries);
    if tries != [] {
      SuccessEnds(tries);
    }
  }

  lemma SuccessEnds(tries: seq<Try>)
    requires tries != [] && Succeeds(tries[0].weather)
    ensures Ended(tries[..1])
  {
  }

  lemma {:induction false} AllSucceed(tries: seq<Try>)
    requires forall t | t in tries :: Succeeds(t.weather)
    ensures Failures(tries) == 0 && Messages(tries) == |tries|
    ensures tries != [] ==> exists t | t in tries :: Succeeds(t.weather)
  {
    if tries != [] {
      assert tries[|tries| - 1] in tries;
      AllSucceed(tries[..|tries| - 1]);
    }
  }

  predicate KafkaUp(ticks: seq<Action>) {
    forall a | a in ticks :: a.Drain? && forall w | w in a.work :: w.weather.kafka && w.weather.mark
  }

  /** A row that was PENDING, or has since been published once. */
  predicate OnceAtMost(s: State, s': State, i: nat)
    requires i < |s.rows|
  {
    && i < |s'.rows|
    && (s'.rows[i].status == Pending ==> CountOf(s'.sent, i) == CountOf(s.sent, i))
    && (s'.rows[i].status != Pending ==>
          s'.rows[i].status == Published && CountOf(s'.sent, i) == CountOf(s.sent, i) + 1 && s'.dead == s.dead)
  }

  lemma UpOnePublishes(s: State, w: Work, now: int, i: nat)
    requires i < |s.rows| && w.id < |s.rows| && w.weather.kafka && w.weather.mark
    ensures var (s', ok) := PublishOne(s, w, now);
      && ok && s'.dead == s.dead && s'.rows == s.rows[w.id := s.rows[w.id].(status := Published)]
      && CountOf(s'.sent, i) == CountOf(s.sent, i) + if w.id == i then 1 else 0
  {
    hide CountOf;
    CountPush(s.sent, w.id, i);
  }

  predicate InBatch(work: seq<Work>, i: nat) {
    exists k | 0 <= k < |work| :: work[k].id == i
  }

  predicate EachPendingOnce(s: State, work: seq<Work>) {
    && (forall k | 0 <= k < |work| :: work[k].id < |s.rows| && s.rows[work[k].id].status == Pending)
    && (forall j, k | 0 <= j < k < |work| :: work[j].id != work[k].id)
  }

  predicate AllUp(work: seq<Work>) {
    forall k | 0 <= k < |work| :: work[k].weather.kafka && work[k].weather.mark
  }

  lemma UpRest(s: State, work: seq<Work>, now: int, i: nat)
    requires work != [] && i < |s.rows| && EachPendingOnce(s, work) && AllUp(work)
    ensures var s', rest := PublishOne(s, work[0], now).0, work[1..];
      && EachPendingOnce(s', rest) && AllUp(rest)
      && (InBatch(work, i) <==> work[0].id == i || InBatch(rest, i)) && (work[0].id == i ==> !InBatch(rest, i))
  {
    hide PublishOne;
    UpOnePublishes(s, work[0], now, i);
    var rest := work[1..];
    assert forall k | 0 <= k < |rest| :: rest[k] == work[k + 1];
    if k :| 0 <= k < |work| && work[k].id == i && k > 0 {
      assert rest[k - 1].id == i;
    }
  }

  /** Each row of the batch is published, with one more message; the others are left alone. */
  lemma {:induction false} UpBatchPublishes(s: State, work: seq<Work>, now: int, i: nat)
    requires i < |s.rows| && EachPendingOnce(s, work) && AllUp(work)
    ensures var s' := PublishAll(s, work, now);
      && i < |s'.rows| && s'.dead == s.dead
      && s'.rows[i] == (if InBatch(work, i) then s.rows[i].(status := Published) else s.rows[i])
      && CountOf(s'.sent, i) == CountOf(s.sent, i) + if InBatch(work, i) then 1 else 0
    decreases |work|
  {
    hide PublishOne, CountOf, InBatch;
    if work == [] {
      NotInNothing(i);
    } else {
      UpOnePublishes(s, work[0], now, i);
      UpRest(s, work, now, i);
      UpBatchPublishes(PublishOne(s, work[0], now).0, work[1..], now, i);
    }
  }

  lemma NotInNothing(i: nat)
    ensures !InBatch([], i)
  {
  }

  lemma {:induction false} UpTicksPublishOnce(s: State, ticks: seq<Action>, t: int, i: nat)
    requires AllOk(s) && QuietTicks(s, ticks, t) && KafkaUp(ticks) && i < |s.rows|
    ensures var s' := After(s, ticks);
      && i < |s'.rows|
      && (s.rows[i].status == Pending ==> OnceAtMost(s, s', i))
      && (s.rows[i].status != Pending ==>
            s'.rows[i].status == s.rows[i].status && CountOf(s'.sent, i) == CountOf(s.sent, i))
      && s'.dead == s.dead
    decreases |ticks|
  {
    hide PublishAll, CountOf, IsBatch, InBatch;
    if ticks != [] {
      var now, work := ticks[0].now, ticks[0].work;
      BatchIsPending(s, now, work);
      assert ticks[0] in ticks;
      BatchIsUp(s, now, ticks[0]);
      UpBatchPublishes(s, work, now, i);
      PublishAllKeepsOk(s, work, now);
      UpTicksPublishOnce(PublishAll(s, work, now), ticks[1..], now, i);
    }
  }

  lemma BatchIsUp(s: State, now: int, a: Action)
    requires a.Drain? && IsBatch(s.rows, now, Ids(a.work)) && forall w | w in a.work :: w.weather.kafka && w.weather.mark
    ensures EachPendingOnce(s, a.work) && AllUp(a.work)
    ensures forall i: nat | InBatch(a.work, i) :: i < |s.rows| && s.rows[i].status == Pending
  {
    assert forall k | 0 <= k < |a.work| :: Ids(a.work)[k] == a.work[k].id && a.work[k] in a.work;
  }

  lemma BatchIsPending(s: State, now: int, work: seq<Work>)
    requires IsBatch(s.rows, now, Ids(work))
    ensures AllPending(s, Ids(work))
  {
  }

  /** While Kafka and the database answer, the same ticks leave every PENDING row PUBLISHED with exactly one more message,
      and write no dead letter. */
  lemma UpTicksPublishAll(s: State, ticks: seq<Action>, t: int, i: nat)
    requires AllOk(s) && BackoffWithin(s.rows, t) && QuietTicks(s, ticks, t) && KafkaUp(ticks)
    requires AttemptsLeft(s.rows) <= Stretches(ticks, t)
    requires i < |s.rows| && s.rows[i].status == Pending
    ensures var s' := After(s, ticks);
      && i < |s'.rows| && s'.rows[i].status == Published
      && CountOf(s'.sent, i) == CountOf(s.sent, i) + 1 && s'.dead == s.dead
  {
    UpTicksPublishOnce(s, ticks, t, i);
    DrainEmptiesTheOutbox(s, ticks, t);
  }
}
