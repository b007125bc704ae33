/** The three tables of the schema, and every query of the broker and of the command line as a
    function on them.  A query is a row-wise statement: a WHERE predicate and a SET function, both
    named here, so that the same words describe what a statement does to a table and to one row. */
module Wrappers {
  datatype Option<+T> = None | Some(value: T)
}

module Tables {
  import opened Wrappers

  // Identifiers are UUIDs in the database; only equality matters.
  type MessageId = nat
  type WorkerId = nat
  // Seconds.
  type Time = real

  datatype RowState = Queued | Consumed | Rejected

  // A decoded payload: what the protocol reads of it, and an opaque rest.
  datatype Message = Message(id: MessageId, queue: string, body: string)

  datatype Row = Row(queue: string, state: RowState, message: Message, position: nat,
                     availableAt: Time, owner: Option<WorkerId>, consumedAt: Option<Time>, mtime: Time)

  // The text of a JSON value, which is never empty.
  newtype Octet = n: int | 0 <= n < 256
  type Json = t: seq<Octet> | t != [] witness [48]

  datatype StoredResult = StoredResult(value: Json, expiresAt: Option<Time>)

  type QueueTable = map<MessageId, Row>
  type WorkerTable = map<WorkerId, Time>
  type ResultTable = map<MessageId, StoredResult>

  datatype Db = Db(queue: QueueTable, workers: WorkerTable, results: ResultTable, nextPosition: nat)

  const EMPTY_DB := Db(map[], map[], map[], 1)

  function Look(t: QueueTable, id: MessageId): Option<Row> {
    if id in t then Some(t[id]) else None
  }

  // ----- ENQUEUE

  const DELAY_SUFFIX := ".DQ"

  predicate IsDelayQueue(q: string) {
    |q| >= |DELAY_SUFFIX| && q[|q| - |DELAY_SUFFIX|..] == DELAY_SUFFIX
  }

  /** dramatiq's `dq_name`: the queue that holds the delayed messages of `q`. */
  function DelayQueue(q: string): (dq: string) {
    if IsDelayQueue(q) then q else q + DELAY_SUFFIX
  }

  /** The message `enqueue` sends: a delayed one is addressed to the delay queue. */
  function Addressed(m: Message, delay: nat): Message {
    if delay != 0 then m.(queue := DelayQueue(m.queue)) else m
  }

  /** The row an upsert leaves.  A conflicting row keeps its position. */
  function EnqueuedRow(before: Option<Row>, m: Message, delay: nat, now: Time, position: nat): Row {
    Row(m.queue, Queued, m, if before.Some? then before.value.position else position,
        now + delay as real / 1000.0, None, None, now)
  }

  // The position is drawn from the identity sequence before the conflict is seen.
  function Enqueue(db: Db, m: Message, delay: nat, now: Time): Db {
    db.(queue := db.queue[m.id := EnqueuedRow(Look(db.queue, m.id), m, delay, now, db.nextPosition)],
        nextPosition := db.nextPosition + 1)
  }

  // ----- CLAIM

  predicate IsDue(r: Row, q: string, now: Time) {
    r.queue == q && r.state == Queued && r.availableAt <= now
  }

  function Due(t: QueueTable, q: string, now: Time): set<MessageId> {
    set i | i in t && IsDue(t[i], q, now)
  }

  /** ORDER BY available_at, position */
  predicate Precedes(a: Row, b: Row) {
    a.availableAt < b.availableAt || (a.availableAt == b.availableAt && a.position < b.position)
  }

  /** `chosen` is what ORDER BY ... LIMIT leaves of `candidates`. */
  predicate IsFirst(t: QueueTable, candidates: set<MessageId>, limit: nat, chosen: set<MessageId>)
    requires candidates <= t.Keys
  {
    && chosen <= candidates
    && |chosen| == (if limit <= |candidates| then limit else |candidates|)
    && forall i, j | i in chosen && j in candidates && j !in chosen :: Precedes(t[i], t[j])
  }

  function ClaimedRow(r: Row, w: WorkerId, now: Time): Row {
    r.(state := Consumed, owner := Some(w), consumedAt := Some(now), mtime := now)
  }

  function Claim(t: QueueTable, chosen: set<MessageId>, w: WorkerId, now: Time): QueueTable {
    map i | i in t :: if i in chosen then ClaimedRow(t[i], w, now) else t[i]
  }

  // ----- ACK and NACK

  predicate AckMatches(r: Row, q: string) {
    r.queue == q && r.state == Consumed
  }

  function Ack(t: QueueTable, id: MessageId, q: string): QueueTable {
    if id in t && AckMatches(t[id], q) then t - {id} else t
  }

  predicate NackMatches(r: Row, q: string) {
    r.queue == q && r.state != Rejected
  }

  // consumed_at is left as it was.
  function RejectedRow(r: Row, m: Message, now: Time): Row {
    r.(state := Rejected, message := m, owner := None, mtime := now)
  }

  function Nack(t: QueueTable, m: Message, now: Time): QueueTable {
    if m.id in t && NackMatches(t[m.id], m.queue) then t[m.id := RejectedRow(t[m.id], m, now)] else t
  }

  // ----- Ways back to `queued`: REQUEUE, REAP, RECOVER

  function RequeuedRow(r: Row, now: Time): Row {
    r.(state := Queued, owner := None, consumedAt := None, mtime := now)
  }

  function Requeue(t: QueueTable, ids: set<MessageId>, now: Time): QueueTable {
    map i | i in t :: if i in ids && t[i].state == Consumed then RequeuedRow(t[i], now) else t[i]
  }

  predicate HasFreshWorker(r: Row, workers: WorkerTable, now: Time, ttl: Time) {
    r.owner.Some? && r.owner.value in workers && workers[r.owner.value] > now - ttl
  }

  predicate ReapMatches(r: Row, workers: WorkerTable, now: Time, ttl: Time) {
    r.state == Consumed && !HasFreshWorker(r, workers, now, ttl)
  }

  function Reap(t: QueueTable, workers: WorkerTable, now: Time, ttl: Time): QueueTable {
    map i | i in t :: if ReapMatches(t[i], workers, now, ttl) then RequeuedRow(t[i], now) else t[i]
  }

  predicate RecoverMatches(r: Row, now: Time, minAge: Time) {
    r.state == Consumed && r.mtime < now - minAge
  }

  // mtime is left as it was.
  function RecoveredRow(r: Row): Row {
    r.(state := Queued, owner := None, consumedAt := None)
  }

  function Recover(t: QueueTable, now: Time, minAge: Time): QueueTable {
    map i | i in t :: if RecoverMatches(t[i], now, minAge) then RecoveredRow(t[i]) else t[i]
  }

  // ----- Deletions: FLUSH, PURGE, CLEAN_WORKERS, PURGE_RESULTS

  function Flush(t: QueueTable): QueueTable {
    map i | i in t && t[i].state == Rejected :: t[i]
  }

  predicate PurgeMatches(r: Row, now: Time, maxAge: Time) {
    r.state == Rejected && r.mtime <= now - maxAge
  }

  function Purge(t: QueueTable, now: Time, maxAge: Time): QueueTable {
    map i | i in t && !PurgeMatches(t[i], now, maxAge) :: t[i]
  }

  function CleanWorkers(workers: WorkerTable, now: Time, age: Time): WorkerTable {
    map w | w in workers && !(workers[w] < now - age) :: workers[w]
  }

  predicate IsExpired(r: StoredResult, now: Time) {
    r.expiresAt.Some? && r.expiresAt.value <= now
  }

  function PurgeResults(results: ResultTable, now: Time): ResultTable {
    map k | k in results && !IsExpired(results[k], now) :: results[k]
  }

  // ----- HEARTBEAT, and the two queries on results

  function Heartbeat(workers: WorkerTable, w: WorkerId, now: Time): WorkerTable {
    workers[w := now]
  }

  function Store(results: ResultTable, id: MessageId, value: Json, ttl: Time, now: Time): ResultTable {
    results[id := StoredResult(value, Some(now + ttl))]
  }

  function Get(results: ResultTable, id: MessageId, now: Time): Option<Json> {
    if id in results && !IsExpired(results[id], now) then Some(results[id].value) else None
  }

  /** The statements of one granted maintenance, in the order the transaction runs them.
      `collect` says whether the two garbage-collecting deletes run; in the program they always do. */
  function Maintain(db: Db, ttl: Time, maxAge: Option<Time>, collect: bool, now: Time): Db {
    var reaped := Reap(db.queue, db.workers, now, ttl);
    db.(queue := if maxAge.Some? then Purge(reaped, now, maxAge.value) else reaped,
        workers := if collect then CleanWorkers(db.workers, now, ttl * 5.0) else db.workers,
        results := if collect then PurgeResults(db.results, now) else db.results)
  }
}
