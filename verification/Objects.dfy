/** The broker, its consumers and the command line as they are written: objects whose methods update
    their fields and the tables.  Every method is proved to take the steps of the machine, whatever
    the rest of the system is; the properties of runs therefore hold of the objects. */
module Objects {
  import opened Wrappers
  import opened Tables
  import opened Machine
  import opened Rows
  import opened Claims
  import opened Backpressure
  import opened Effects

  lemma SizeOfRest<T>(all: set<T>, part: set<T>)
    requires part <= all
    ensures |all - part| == |all| - |part|
  {
  }

  lemma SizeAfterRemoval<K, V>(m: map<K, V>, ks: set<K>)
    requires ks <= m.Keys
    ensures |m - ks| == |m| - |ks|
  {
    assert (m - ks).Keys == m.Keys - ks;
    assert |m.Keys - ks| == |m.Keys| - |ks|;
  }

  lemma FlushIsRemoval(t: QueueTable, pending: set<MessageId>)
    requires forall i :: i in pending <==> i in t && (t[i].state == Queued || t[i].state == Consumed)
    ensures t - pending == Tables.Flush(t)
  {
  }

  class Database {
    var queue: QueueTable
    var workers: WorkerTable
    var results: ResultTable
    var nextPosition: nat

    constructor ()
      ensures Value() == EMPTY_DB
    {
      queue, workers, results, nextPosition := map[], map[], map[], 1;
    }

    function Value(): Db reads this {
      Db(queue, workers, results, nextPosition)
    }

    method Upsert(m: Message, delay: nat, now: Time)
      modifies this`queue, this`nextPosition
      ensures Value() == Tables.Enqueue(old(Value()), m, delay, now)
      ensures IsUpsert(old(Value()), Value(), m, now + delay as real / 1000.0, now)
    {
      var position := nextPosition;
      nextPosition := nextPosition + 1;
      if m.id in queue {
        queue := queue[m.id := queue[m.id].(state := Queued, message := m, queue := m.queue,
                                            availableAt := now + delay as real / 1000.0,
                                            owner := None, consumedAt := None, mtime := now)];
      } else {
        queue := queue[m.id := Row(m.queue, Queued, m, position, now + delay as real / 1000.0, None, None, now)];
      }
    }

    /** RETURNING lists the updated rows in no particular order. */
    method Fetch(chosen: set<MessageId>) returns (order: seq<MessageId>)
      ensures Distinct(order) && Elements(order) == chosen
    {
      order := [];
      var rest := chosen;
      while rest != {}
        invariant Distinct(order) && Elements(order) + rest == chosen && Elements(order) !! rest
        decreases rest
      {
        var i :| i in rest;
        order, rest := order + [i], rest - {i};
      }
    }

    /** The earliest due rows, at most `limit`, become consumed by `w`. */
    method ClaimRows(q: string, limit: nat, w: WorkerId, now: Time) returns (order: seq<MessageId>, rows: seq<Message>)
      requires DistinctPositions(queue)
      modifies this`queue
      ensures Distinct(order) && IsFirst(old(queue), Due(old(queue), q, now), limit, Elements(order))
      ensures forall i | i in order :: i in old(queue)
      ensures rows == Decoded(old(queue), order)
      ensures queue == Tables.Claim(old(queue), Elements(order), w, now)
      ensures |rows| == |order| <= limit && forall k | 0 <= k < |order| :: rows[k] == old(queue)[order[k]].message
      ensures TakesFirst(old(queue), q, now, limit, order) && IsClaimOf(old(queue), queue, order, w, now)
    {
      var candidates := Due(queue, q, now);
      ghost var witnessed := FirstExists(queue, candidates, limit);
      var chosen :| chosen <= candidates && IsFirst(queue, candidates, limit, chosen);
      order := Fetch(chosen);
      forall i ensures i in order <==> i in chosen {
        assert i in Elements(order) <==> i in order;
      }
      TakenFirst(queue, q, now, limit, order);
      rows := Decoded(queue, order);
      queue := Tables.Claim(queue, chosen, w, now);
    }

    method DeleteAcked(id: MessageId, q: string)
      modifies this`queue
      ensures queue == Tables.Ack(old(queue), id, q)
      ensures forall i :: i in queue <==>
                i in old(queue) && !(i == id && old(queue)[i].queue == q && old(queue)[i].state == Consumed)
      ensures forall i | i in queue :: queue[i] == old(queue)[i]
    {
      queue := map i | i in queue && !(i == id && AckMatches(queue[i], q)) :: queue[i];
    }

    method Reject(m: Message, now: Time)
      modifies this`queue
      ensures queue == Tables.Nack(old(queue), m, now)
      ensures IsRejection(old(queue), queue, m, now)
    {
      queue := map i | i in queue ::
        if i == m.id && NackMatches(queue[i], m.queue) then RejectedRow(queue[i], m, now) else queue[i];
    }

    method RequeueRows(ids: set<MessageId>, now: Time)
      modifies this`queue
      ensures queue == Tables.Requeue(old(queue), ids, now)
      ensures PutsBack(old(queue), queue) && ConsumedRows(queue) == ConsumedRows(old(queue)) - ids
      ensures forall i | i in queue && queue[i] != old(queue)[i] :: queue[i].mtime == now
    {
      queue := Tables.Requeue(queue, ids, now);
    }

    method Beat(w: WorkerId, now: Time)
      modifies this`workers
      ensures workers == Tables.Heartbeat(old(workers), w, now)
    {
      workers := workers[w := now];
    }

    /** Afterwards every owner left is fresh; every row that had a fresh owner still has it. */
    method ReapRows(now: Time, ttl: Time) returns (count: nat)
      modifies this`queue
      ensures queue == Tables.Reap(old(queue), workers, now, ttl)
      ensures PutsBack(old(queue), queue)
      ensures forall i | i in ConsumedRows(old(queue)) ::
                i in ConsumedRows(queue) <==>
                  var owner := old(queue)[i].owner; owner.Some? && owner.value in workers && now - workers[owner.value] < ttl
      ensures forall i | i in queue && queue[i] != old(queue)[i] :: queue[i].mtime == now
      ensures count == |ConsumedRows(old(queue))| - |ConsumedRows(queue)|
    {
      var matched := set i | i in queue && ReapMatches(queue[i], workers, now, ttl);
      ghost var consumed := ConsumedRows(queue);
      count := |matched|;
      queue := Tables.Reap(queue, workers, now, ttl);
      assert ConsumedRows(queue) == consumed - matched;
      SizeOfRest(consumed, matched);
    }

    method DeleteStaleWorkers(now: Time, age: Time)
      modifies this`workers
      ensures workers == CleanWorkers(old(workers), now, age)
      ensures forall w :: w in workers <==> w in old(workers) && now - old(workers)[w] <= age
      ensures forall w | w in workers :: workers[w] == old(workers)[w]
    {
      workers := CleanWorkers(workers, now, age);
    }

    method DeleteExpiredResults(now: Time) returns (count: nat)
      modifies this`results
      ensures results == Tables.PurgeResults(old(results), now)
      ensures KeepsUnexpired(old(results), results, now)
      ensures count == |old(results)| - |results|
    {
      var expired := set k | k in results && IsExpired(results[k], now);
      SizeAfterRemoval(results, expired);
      count := |expired|;
      results := results - expired;
    }

    method DeleteRejected(now: Time, maxAge: Time) returns (count: nat)
      modifies this`queue
      ensures queue == Tables.Purge(old(queue), now, maxAge)
      ensures forall i :: i in queue <==> i in old(queue) && !(old(queue)[i].state == Rejected && now - old(queue)[i].mtime >= maxAge)
      ensures forall i | i in queue :: queue[i] == old(queue)[i]
      ensures count == |old(queue)| - |queue|
    {
      var matched := set i | i in queue && PurgeMatches(queue[i], now, maxAge);
      SizeAfterRemoval(queue, matched);
      count := |matched|;
      queue := queue - matched;
    }

    method DeletePending() returns (count: nat)
      modifies this`queue
      ensures queue == Tables.Flush(old(queue))
      ensures forall i :: i in queue <==> i in old(queue) && old(queue)[i].state == Rejected
      ensures forall i | i in queue :: queue[i] == old(queue)[i]
      ensures count == |old(queue)| - |queue|
    {
      var pending := set i | i in queue && (queue[i].state == Queued || queue[i].state == Consumed);
      FlushIsRemoval(queue, pending);
      SizeAfterRemoval(queue, pending);
      count := |pending|;
      queue := queue - pending;
    }

    /** Afterwards no row is consumed and was last changed more than `minAge` ago. */
    method RecoverRows(now: Time, minAge: Time) returns (count: nat)
      modifies this`queue
      ensures queue == Tables.Recover(old(queue), now, minAge)
      ensures PutsBack(old(queue), queue)
      ensures forall i | i in ConsumedRows(old(queue)) :: i in ConsumedRows(queue) <==> now - old(queue)[i].mtime <= minAge
      ensures forall i | i in queue :: queue[i].mtime == old(queue)[i].mtime
      ensures count == |ConsumedRows(old(queue))| - |ConsumedRows(queue)|
    {
      var matched := set i | i in queue && RecoverMatches(queue[i], now, minAge);
      ghost var consumed := ConsumedRows(queue);
      count := |matched|;
      queue := Tables.Recover(queue, now, minAge);
      assert ConsumedRows(queue) == consumed - matched;
      SizeOfRest(consumed, matched);
    }
  }

  // ----- Commands

  method FlushCommand(cfg: Config, db: Database, ghost s: State) returns (flushed: nat)
    requires s.db == db.Value()
    modifies db
    ensures db.Value() == Apply(cfg, s, Step.Flush).db
    ensures flushed == |s.db.queue| - |db.queue|
    ensures forall i :: i in db.queue <==> i in s.db.queue && s.db.queue[i].state == Rejected
  {
    flushed := db.DeletePending();
  }

  method RecoverCommand(cfg: Config, db: Database, minAge: Time, now: Time, ghost s: State) returns (recovered: nat)
    requires s.db == db.Value() && s.now == now
    modifies db
    ensures db.Value() == Apply(cfg, s, Step.Recover(minAge)).db
    ensures recovered == |ConsumedRows(s.db.queue)| - |ConsumedRows(db.queue)|
    ensures PutsBack(s.db.queue, db.queue)
    ensures forall i | i in ConsumedRows(s.db.queue) :: i in ConsumedRows(db.queue) <==> now - s.db.queue[i].mtime <= minAge
  {
    recovered := db.RecoverRows(now, minAge);
  }

  method PurgeCommand(cfg: Config, db: Database, maxAge: Time, now: Time, ghost s: State) returns (deleted: nat, expired: nat)
    requires s.db == db.Value() && s.now == now && cfg.collect
    modifies db
    ensures db.Value() == Apply(cfg, s, Step.PurgeCommand(maxAge)).db
    ensures deleted == |s.db.queue| - |db.queue| && expired == |s.db.results| - |db.results|
    ensures KeepsUnexpired(s.db.results, db.results, now)
    ensures forall i :: i in db.queue <==> i in s.db.queue && !(s.db.queue[i].state == Rejected && now - s.db.queue[i].mtime >= maxAge)
  {
    deleted := db.DeleteRejected(now, maxAge);
    expired := db.DeleteExpiredResults(now);
  }

  // ----- Broker

  class Broker {
    const cfg: Config
    const db: Database
    const workerId: WorkerId
    var heartbeatAt: Time
    var maintenanceAt: Time

    constructor (cfg: Config, db: Database, workerId: WorkerId)
      ensures this.cfg == cfg && this.db == db && this.workerId == workerId
      ensures heartbeatAt == 0.0 && maintenanceAt == 0.0
    {
      this.cfg, this.db, this.workerId := cfg, db, workerId;
      heartbeatAt, maintenanceAt := 0.0, 0.0;
    }

    /** The object holds what the machine says this process and the tables hold. */
    ghost predicate Refines(s: State)
      reads this, db
    {
      && workerId in s.procs && s.procs[workerId].alive
      && s.db == db.Value()
      && s.procs[workerId].heartbeatAt == heartbeatAt
      && s.procs[workerId].maintenanceAt == maintenanceAt
    }

    method Enqueue(m: Message, delay: nat, now: Time, ghost s: State) returns (sent: Message)
      requires Refines(s) && s.now == now
      modifies db
      ensures Refines(Apply(cfg, s, Step.Enqueue(m, delay)))
      ensures sent == Addressed(m, delay)
      // A delayed message goes to the queue of that name with .DQ behind it.
      ensures sent == if delay == 0 || EndsInDQ(m.queue) then m else m.(queue := m.queue + ".DQ")
      ensures IsUpsert(old(db.Value()), db.Value(), sent, now + delay as real / 1000.0, now)
    {
      sent := m;
      if delay != 0 {
        sent := m.(queue := DelayQueue(m.queue));
      }
      db.Upsert(sent, delay, now);
    }

    method MaybeHeartbeat(now: Time, ghost s: State, ghost q: string)
      requires Refines(s) && s.now == now && Enabled(s, HeartbeatCheck(workerId, q))
      modifies this, db
      ensures Refines(Apply(cfg, s, HeartbeatCheck(workerId, q)))
      // At most one heartbeat an interval, and never one older than the interval.
      ensures heartbeatAt == now || (heartbeatAt == old(heartbeatAt) && now - heartbeatAt < cfg.heartbeatInterval)
      ensures if old(heartbeatAt) != 0.0 && now - old(heartbeatAt) < cfg.heartbeatInterval
              then heartbeatAt == old(heartbeatAt) && db.Value() == old(db.Value())
              else heartbeatAt == now && db.Value() == old(db.Value()).(workers := old(db.workers)[workerId := now])
    {
      if heartbeatAt != 0.0 && now - heartbeatAt < cfg.heartbeatInterval {
        return;
      }
      heartbeatAt := now;
      db.Beat(workerId, now);
    }

    /** The statements of the maintenance transaction, once the lock is granted. */
    method Maintenance(now: Time)
      modifies db
      ensures db.Value() == Maintain(old(db.Value()), cfg.heartbeatTtl, cfg.purgeMaxAge, true, now)
      ensures IsMaintenance(old(db.Value()), db.Value(), cfg.heartbeatTtl, cfg.purgeMaxAge, now)
    {
      MaintainIs(db.Value(), cfg.heartbeatTtl, cfg.purgeMaxAge, now);
      var reaped := db.ReapRows(now, cfg.heartbeatTtl);
      db.DeleteStaleWorkers(now, cfg.heartbeatTtl * 5.0);
      var expired := db.DeleteExpiredResults(now);
      if cfg.purgeMaxAge.Some? {
        var deleted := db.DeleteRejected(now, cfg.purgeMaxAge.value);
      }
    }

    method MaybeMaintenance(now: Time, locked: bool, random: real, ghost s: State, ghost q: string)
      requires 0.0 <= random < 1.0 && cfg.collect
      requires Refines(s) && s.now == now && Enabled(s, MaintenanceCheck(workerId, q, locked, 0.5 + random))
      modifies this, db
      ensures heartbeatAt == old(heartbeatAt)
      ensures Refines(Apply(cfg, s, MaintenanceCheck(workerId, q, locked, 0.5 + random)))
      // Not before the instant remembered; and the next one between half an interval and one and a half from now.
      ensures if old(maintenanceAt) != 0.0 && now < old(maintenanceAt)
              then maintenanceAt == old(maintenanceAt) && db.Value() == old(db.Value())
              else maintenanceAt == now + cfg.maintenanceInterval * (0.5 + random)
                   && if locked then IsMaintenance(old(db.Value()), db.Value(), cfg.heartbeatTtl, cfg.purgeMaxAge, now)
                      else db.Value() == old(db.Value())
    {
      if maintenanceAt != 0.0 && now < maintenanceAt {
        return;
      }
      var jitter := 0.5 + random;
      maintenanceAt := now + cfg.maintenanceInterval * jitter;
      if !locked {
        return;
      }
      Maintenance(now);
    }
  }

  // ----- Consumer

  ghost function Last(r: Run): State
    requires r.states != []
  {
    r.states[|r.states| - 1]
  }

  /** The capacity is looked at, and a claim that follows takes the first due rows up to its limit. */
  ghost predicate RefillSteps(r: Run, w: WorkerId, q: string) {
    && |r.steps| >= 1 && |r.states| == |r.steps| + 1 && r.steps[0] == Step.Decide(w, q)
    && (|r.steps| > 1 ==>
          && |r.steps| == 2 && r.steps[1].Claim? && Serves(r.states[1], w, q) && Member(r.states[1], w, q).phase.Claiming?
          && IsFirst(r.states[1].db.queue, Due(r.states[1].db.queue, q, r.states[1].now),
                     Member(r.states[1], w, q).phase.limit, Elements(r.steps[1].order)))
  }

  /** The steps of one call of `__next__`, with at most one claim. */
  ghost predicate IsCall(steps: seq<Step>, w: WorkerId, q: string, locked: bool, jitter: real) {
    exists refill: seq<Step> ::
      && steps == [HeartbeatCheck(w, q), MaintenanceCheck(w, q, locked, jitter)] + refill + [Pop(w, q)]
      && 1 <= |refill| <= 2 && refill[0] == Step.Decide(w, q) && (|refill| == 2 ==> refill[1].Claim?)
  }

  lemma CallShape(upkeep: seq<Step>, r: Run, w: WorkerId, q: string, locked: bool, jitter: real)
    requires upkeep == [HeartbeatCheck(w, q), MaintenanceCheck(w, q, locked, jitter)] && RefillSteps(r, w, q)
    ensures IsCall(upkeep + r.steps + [Pop(w, q)], w, q, locked, jitter)
  {
  }

  /** A run from `s`, in no time, to a well-formed state. */
  ghost predicate Ready(cfg: Config, s: State, r: Run) {
    IsRun(cfg, r) && r.states[0] == s && Last(r).now == s.now && WellFormed(Last(r))
  }

  lemma Single(cfg: Config, s: State, a: Step) returns (r: Run)
    requires Enabled(s, a) && !a.Tick? && WellFormed(s)
    ensures Ready(cfg, s, r) && Last(r) == Apply(cfg, s, a) && r.steps == [a] && |r.states| == 2
  {
    WellFormedStep(cfg, s, a);
    r := Run([s, Apply(cfg, s, a)], [a]);
  }

  lemma Joined(cfg: Config, a: Run, b: Run) returns (r: Run)
    requires IsRun(cfg, a) && Ready(cfg, Last(a), b) && Last(a).now == a.states[0].now
    ensures Ready(cfg, a.states[0], r) && Last(r) == Last(b) && r.steps == a.steps + b.steps
    ensures forall i | 0 <= i < |a.states| :: r.states[i] == a.states[i]
  {
    r := Run(a.states + b.states[1..], a.steps + b.steps);
    forall i {:trigger r.steps[i]} | 0 <= i < |r.steps|
      ensures Follows(cfg, r.states[i], r.steps[i], r.states[i + 1])
    {
      if i < |a.steps| {
        assert r.steps[i] == a.steps[i];
      } else {
        assert r.steps[i] == b.steps[i - |a.steps|];
      }
    }
  }

  /** The claim step of the machine, for an order that the database chose. */
  lemma ClaimStep(cfg: Config, s: State, w: WorkerId, q: string, limit: nat, order: seq<MessageId>)
    requires Serves(s, w, q) && Member(s, w, q).phase == Claiming(limit) && Distinct(order)
    requires IsFirst(s.db.queue, Due(s.db.queue, q, s.now), limit, Elements(order))
    ensures |order| <= limit && forall i | i in order :: i in s.db.queue
    ensures Enabled(s, Step.Claim(w, q, order, s.now))
    ensures var c, s' := Member(s, w, q), Apply(cfg, s, Step.Claim(w, q, order, s.now));
            && s'.db == s.db.(queue := Tables.Claim(s.db.queue, Elements(order), w, s.now)) && Serves(s', w, q)
            && Member(s', w, q) == c.(buffer := c.buffer + Decoded(s.db.queue, order), phase := Popping)
            && s'.procs[w].heartbeatAt == s.procs[w].heartbeatAt && s'.procs[w].maintenanceAt == s.procs[w].maintenanceAt
  {
    ListingSize(order);
    forall i | i in order ensures i in s.db.queue && IsDue(s.db.queue[i], q, s.now) {
      assert i in Elements(order);
    }
  }

  class Consumer {
    const broker: Broker
    const queueName: string
    const prefetch: nat
    var buffer: seq<Message>
    var inProcessing: set<MessageId>

    constructor (broker: Broker, queueName: string, prefetch: nat)
      ensures this.broker == broker && this.queueName == queueName && this.prefetch == prefetch
      ensures buffer == [] && inProcessing == {}
    {
      this.broker, this.queueName, this.prefetch := broker, queueName, prefetch;
      buffer, inProcessing := [], {};
    }

    /** The object holds what the machine says this consumer, its process and the tables hold. */
    ghost predicate Refines(s: State)
      reads this, broker, broker.db
    {
      && broker.Refines(s)
      && Serves(s, broker.workerId, queueName)
      && var c := Member(s, broker.workerId, queueName);
         c.prefetch == prefetch && c.buffer == buffer && c.inProcessing == inProcessing
    }

    method Append(rows: seq<Message>)
      modifies this`buffer
      ensures buffer == old(buffer) + rows
    {
      for k := 0 to |rows|
        invariant buffer == old(buffer) + rows[..k]
      {
        buffer := buffer + [rows[k]];
      }
      assert rows[..|rows|] == rows;
    }

    method Claim(limit: nat, now: Time, ghost s: State) returns (ghost order: seq<MessageId>)
      requires Refines(s) && s.now == now && WellFormed(s)
      requires Member(s, broker.workerId, queueName).phase == Claiming(limit)
      modifies this`buffer, broker.db
      ensures Distinct(order) && Enabled(s, Step.Claim(broker.workerId, queueName, order, now))
      ensures Refines(Apply(broker.cfg, s, Step.Claim(broker.workerId, queueName, order, now)))
      ensures IsFirst(s.db.queue, Due(s.db.queue, queueName, now), limit, Elements(order)) && |order| <= limit
      ensures buffer == old(buffer) + Decoded(s.db.queue, order)
      ensures Appends(old(buffer), buffer, s.db.queue, order)
      ensures TakesFirst(s.db.queue, queueName, now, limit, order)
      ensures IsClaimOf(s.db.queue, broker.db.queue, order, broker.workerId, now)
    {
      var ids, rows := broker.db.ClaimRows(queueName, limit, broker.workerId, now);
      Append(rows);
      DecodedAppends(old(buffer), s.db.queue, ids);
      order := ids;
      ClaimStep(broker.cfg, s, broker.workerId, queueName, limit, order);
    }

    method Ack(id: MessageId, ghost s: State)
      requires Refines(s)
      modifies this`inProcessing, broker.db
      ensures Refines(Apply(broker.cfg, s, Step.Ack(broker.workerId, queueName, id)))
      ensures id !in inProcessing && id !in Owned(broker.db.queue, broker.workerId, queueName)
      ensures inProcessing == old(inProcessing) - {id}
      ensures forall i :: i in broker.db.queue <==>
                i in old(broker.db.queue)
                && !(i == id && old(broker.db.queue)[i].queue == queueName && old(broker.db.queue)[i].state == Consumed)
    {
      broker.db.DeleteAcked(id, queueName);
      inProcessing := inProcessing - {id};
    }

    method Nack(m: Message, now: Time, ghost s: State)
      requires Refines(s) && s.now == now && m.queue == queueName
      modifies this`inProcessing, broker.db
      ensures Refines(Apply(broker.cfg, s, Step.Nack(broker.workerId, queueName, m)))
      ensures m.id !in inProcessing && m.id !in Owned(broker.db.queue, broker.workerId, queueName)
      ensures inProcessing == old(inProcessing) - {m.id}
      ensures IsRejection(old(broker.db.queue), broker.db.queue, m, now)
    {
      broker.db.Reject(m, now);
      inProcessing := inProcessing - {m.id};
    }

    method Requeue(messages: seq<Message>, now: Time, ghost s: State)
      requires Refines(s) && s.now == now
      modifies broker.db
      ensures Refines(Apply(broker.cfg, s, Step.Requeue(broker.workerId, queueName, Ids(messages))))
      ensures PutsBack(old(broker.db.queue), broker.db.queue)
      ensures ConsumedRows(broker.db.queue) == ConsumedRows(old(broker.db.queue)) - (set m | m in messages :: m.id)
    {
      if |messages| == 0 {
        assert Tables.Requeue(broker.db.queue, Ids(messages), now) == broker.db.queue;
        return;
      }
      broker.db.RequeueRows(Ids(messages), now);
    }

    /** Looking at the buffer and at the free capacity. */
    method Decide(ghost s: State) returns (limit: nat)
      requires Refines(s) && Enabled(s, Step.Decide(broker.workerId, queueName))
      ensures Refines(Apply(broker.cfg, s, Step.Decide(broker.workerId, queueName)))
      ensures Member(Apply(broker.cfg, s, Step.Decide(broker.workerId, queueName)), broker.workerId, queueName).phase
              == if limit > 0 then Claiming(limit) else Popping
      ensures limit > 0 <==> buffer == [] && |inProcessing| < prefetch
      ensures limit <= CLAIM_BATCH_MAX && (limit > 0 ==> limit + |inProcessing| <= prefetch)
      // The whole free capacity, but no more than 256.
      ensures limit > 0 ==> limit == if prefetch - |inProcessing| <= 256 then prefetch - |inProcessing| else 256
    {
      limit := 0;
      if buffer == [] {
        var capacity := prefetch - |inProcessing|;
        if capacity > 0 {
          limit := Min(capacity, CLAIM_BATCH_MAX);
        }
      }
    }

    method Deliver(ghost s: State) returns (m: Option<Message>)
      requires Refines(s) && Enabled(s, Pop(broker.workerId, queueName))
      modifies this
      ensures Refines(Apply(broker.cfg, s, Pop(broker.workerId, queueName)))
      ensures m == if old(buffer) == [] then None else Some(old(buffer)[0])
      ensures m.Some? ==> m.value.id in inProcessing && Held(Member(s, broker.workerId, queueName)) == Ids(buffer) + inProcessing
      ensures m.Some? ==> old(buffer) == [m.value] + buffer && inProcessing == old(inProcessing) + {m.value.id}
      ensures m.None? ==> buffer == old(buffer) == [] && inProcessing == old(inProcessing)
    {
      m := None;
      PoppedHolds(Member(s, broker.workerId, queueName));
      if buffer != [] {
        m := Some(buffer[0]);
        buffer, inProcessing := buffer[1..], inProcessing + {buffer[0].id};
      }
    }

    /** The first part of a call: heartbeat and maintenance. */
    method Upkeep(now: Time, locked: bool, random: real, ghost s: State) returns (ghost r: Run)
      requires 0.0 <= random < 1.0 && broker.cfg.collect
      requires Refines(s) && s.now == now && WellFormed(s)
      requires Member(s, broker.workerId, queueName).phase == Idle
      modifies broker, broker.db
      ensures Ready(broker.cfg, s, r) && Refines(Last(r))
      ensures r.steps == [HeartbeatCheck(broker.workerId, queueName),
                          MaintenanceCheck(broker.workerId, queueName, locked, 0.5 + random)]
      ensures Member(Last(r), broker.workerId, queueName).phase == Maintained
    {
      ghost var beat := HeartbeatCheck(broker.workerId, queueName);
      broker.MaybeHeartbeat(now, s, queueName);
      ghost var r1 := Single(broker.cfg, s, beat);
      broker.MaybeMaintenance(now, locked, random, Last(r1), queueName);
      ghost var r2 := Single(broker.cfg, Last(r1), MaintenanceCheck(broker.workerId, queueName, locked, 0.5 + random));
      r := Joined(broker.cfg, r1, r2);
    }

    /** An empty buffer is refilled up to the limit. */
    method ClaimFree(limit: nat, now: Time, ghost s: State) returns (ghost r: Run)
      requires Refines(s) && s.now == now && WellFormed(s) && limit > 0 && buffer == []
      requires Member(s, broker.workerId, queueName).phase == Claiming(limit)
      modifies this`buffer, broker.db
      ensures Ready(broker.cfg, s, r) && Refines(Last(r)) && Member(Last(r), broker.workerId, queueName).phase == Popping
      ensures |r.steps| == 1 && r.steps[0].Claim?
      ensures IsFirst(s.db.queue, Due(s.db.queue, queueName, now), limit, Elements(r.steps[0].order))
      ensures HandsOut(s.db.queue, broker.db.queue, queueName, limit, buffer, broker.workerId, now)
    {
      ghost var order := Claim(limit, now, s);
      ClaimHandsOut(s, broker.db.queue, queueName, limit, order, broker.workerId, old(buffer), buffer, now);
      r := Single(broker.cfg, s, Step.Claim(broker.workerId, queueName, order, now));
    }

    /** The second part: an empty buffer is refilled as far as the prefetch allows. */
    method Refill(now: Time, ghost s: State) returns (ghost r: Run)
      requires Refines(s) && s.now == now && WellFormed(s)
      requires Member(s, broker.workerId, queueName).phase == Maintained
      modifies this`buffer, broker.db
      ensures Ready(broker.cfg, s, r) && Refines(Last(r))
      ensures RefillSteps(r, broker.workerId, queueName)
      ensures Member(Last(r), broker.workerId, queueName).phase == Popping
      ensures old(buffer) != [] ==> buffer == old(buffer)
      ensures buffer == [] ==> |inProcessing| >= prefetch || Claimable(broker.db.queue, queueName, now) == {}
      // As many rows as there are, up to the free capacity and 256; and each with the message of its row.
      ensures old(buffer) == [] ==>
                && (forall x | x in buffer :: JustClaimed(broker.db.queue, x, broker.workerId, now))
                && |buffer| == if |inProcessing| >= prefetch then 0
                               else Smallest(prefetch - |inProcessing|, 256, |Claimable(old(broker.db.queue), queueName, now)|)
    {
      var limit := Decide(s);
      r := Single(broker.cfg, s, Step.Decide(broker.workerId, queueName));
      if limit > 0 {
        ghost var r2 := ClaimFree(limit, now, Last(r));
        r := Joined(broker.cfg, r, r2);
      }
    }

    /** One undisturbed call of `__next__`.  It returns no message only when the messages in process
        fill the prefetch or, after this call's reaping, no row of the queue is due. */
    method Next(now: Time, locked: bool, random: real, ghost s: State) returns (m: Option<Message>, ghost r: Run)
      requires 0.0 <= random < 1.0 && broker.cfg.collect
      requires Refines(s) && s.now == now && WellFormed(s)
      requires Member(s, broker.workerId, queueName).phase == Idle
      modifies this, broker, broker.db
      ensures Ready(broker.cfg, s, r) && Refines(Last(r))
      // The steps taken, in this order: no part of the call is left out.
      ensures IsCall(r.steps, broker.workerId, queueName, locked, 0.5 + random)
      ensures m.None? ==> |inProcessing| >= prefetch || Claimable(broker.db.queue, queueName, now) == {}
      ensures old(buffer) != [] ==> m == Some(old(buffer)[0]) && buffer == old(buffer)[1..]
      ensures m.Some? ==> m.value.id in inProcessing
      // From an empty buffer: the message of a row this call has claimed, exactly as the row holds it.
      ensures old(buffer) == [] && m.Some? ==> JustClaimed(broker.db.queue, m.value, broker.workerId, now)
    {
      ghost var r1 := Upkeep(now, locked, random, s);
      ghost var r2 := Refill(now, Last(r1));
      r := Joined(broker.cfg, r1, r2);
      m := Deliver(Last(r2));
      ghost var r3 := Single(broker.cfg, Last(r2), Pop(broker.workerId, queueName));
      CallShape(r1.steps, r2, broker.workerId, queueName, locked, 0.5 + random);
      r := Joined(broker.cfg, r, r3);
    }
  }
}
