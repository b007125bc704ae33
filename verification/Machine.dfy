/** The queue protocol as a state machine: the tables, the memory of every worker process, and one
    step for every transaction or in-memory action of the code.  Steps of different consumers
    interleave freely; one consumer runs the parts of `__next__` in order. */
module Machine {
  import opened Wrappers
  import opened Tables

  const CLAIM_BATCH_MAX: nat := 256

  datatype Config = Config(heartbeatInterval: Time, heartbeatTtl: Time, maintenanceInterval: Time,
                           purgeMaxAge: Option<Time>, collect: bool)

  // How far the current call of `__next__` has come.
  datatype Phase = Idle | Beaten | Maintained | Claiming(limit: nat) | Popping

  datatype Consumer = Consumer(prefetch: nat, buffer: seq<Message>, inProcessing: set<MessageId>, phase: Phase)

  // checkedAt and upkeptAt record when the process last ran maybe_heartbeat and maybe_maintenance.
  datatype Process = Process(alive: bool, heartbeatAt: Time, maintenanceAt: Time,
                             checkedAt: Option<Time>, upkeptAt: Option<Time>,
                             consumers: map<string, Consumer>)

  datatype State = State(now: Time, db: Db, procs: map<WorkerId, Process>)

  datatype Step =
    | Tick(elapsed: Time)
    | StartWorker(w: WorkerId)
    | OpenConsumer(w: WorkerId, q: string, prefetch: nat)
    | Crash(w: WorkerId)
    | Enqueue(m: Message, delay: nat)
    | HeartbeatCheck(w: WorkerId, q: string)
    | MaintenanceCheck(w: WorkerId, q: string, granted: bool, jitter: real)
    | Decide(w: WorkerId, q: string)
    | Claim(w: WorkerId, q: string, order: seq<MessageId>, at: Time)
    | Pop(w: WorkerId, q: string)
    | Raise(w: WorkerId, q: string)
    | Ack(w: WorkerId, q: string, id: MessageId)
    | Nack(w: WorkerId, q: string, m: Message)
    | Requeue(w: WorkerId, q: string, ids: set<MessageId>)
    | Recover(minAge: Time)
    | Flush
    | PurgeCommand(maxAge: Time)
    | Store(id: MessageId, value: Json, ttl: Time)

  // ----- Decisions taken from the memory of a process

  // Zero is the initial value, and stands for "never".
  predicate HeartbeatDue(cfg: Config, heartbeatAt: Time, now: Time) {
    !(heartbeatAt != 0.0 && now - heartbeatAt < cfg.heartbeatInterval)
  }

  predicate MaintenanceDue(maintenanceAt: Time, now: Time) {
    !(maintenanceAt != 0.0 && now < maintenanceAt)
  }

  lemma ScaleUp(x: real, a: real, b: real)
    requires 0.0 <= x && a <= b
    ensures x * a <= x * b
  {
    assert x * (b - a) >= 0.0;
    assert x * (b - a) == x * b - x * a;
  }

  /** The jitter puts the next maintenance between half an interval and one and a half away. */
  function NextMaintenance(interval: Time, jitter: real, now: Time): (next: Time)
    requires 0.5 <= jitter < 1.5
    ensures 0.0 <= interval ==> now + interval * 0.5 <= next <= now + interval * 1.5
  {
    if 0.0 <= interval then
      ScaleUp(interval, 0.5, jitter);
      ScaleUp(interval, jitter, 1.5);
      now + interval * jitter
    else
      now + interval * jitter
  }

  function Capacity(c: Consumer): int {
    c.prefetch - |c.inProcessing|
  }

  function Min(a: int, b: int): int { if a <= b then a else b }

  /** The phase after looking at the buffer and at the free capacity. */
  function DecidedPhase(c: Consumer): Phase {
    if c.buffer == [] && Capacity(c) > 0 then Claiming(Min(Capacity(c), CLAIM_BATCH_MAX)) else Popping
  }

  function Decoded(t: QueueTable, order: seq<MessageId>): (ms: seq<Message>)
    requires forall i | i in order :: i in t
  {
    seq(|order|, k requires 0 <= k < |order| => t[order[k]].message)
  }

  function Popped(c: Consumer): Consumer {
    if c.buffer == [] then c.(phase := Idle)
    else c.(buffer := c.buffer[1..], inProcessing := c.inProcessing + {c.buffer[0].id}, phase := Idle)
  }

  function Ids(ms: seq<Message>): set<MessageId> { set m | m in ms :: m.id }

  function Elements(order: seq<MessageId>): set<MessageId> { set i | i in order }

  predicate Distinct(order: seq<MessageId>) {
    forall i, j | 0 <= i < j < |order| :: order[i] != order[j]
  }

  // ----- Steps

  predicate Serves(s: State, w: WorkerId, q: string) {
    w in s.procs && s.procs[w].alive && q in s.procs[w].consumers
  }

  function Member(s: State, w: WorkerId, q: string): Consumer
    requires Serves(s, w, q)
  {
    s.procs[w].consumers[q]
  }

  function WithMember(s: State, w: WorkerId, q: string, c: Consumer): State
    requires Serves(s, w, q)
  {
    s.(procs := s.procs[w := s.procs[w].(consumers := s.procs[w].consumers[q := c])])
  }

  function Discarded(s: State, w: WorkerId, q: string, id: MessageId): State
    requires Serves(s, w, q)
  {
    WithMember(s, w, q, Member(s, w, q).(inProcessing := Member(s, w, q).inProcessing - {id}))
  }

  // The claim transaction, stamped with the time it began, and the rows appended to the buffer.
  function ApplyClaim(s: State, w: WorkerId, q: string, order: seq<MessageId>, at: Time): State
    requires Serves(s, w, q)
    requires forall i | i in order :: i in s.db.queue
  {
    var c := Member(s, w, q);
    WithMember(s, w, q, c.(buffer := c.buffer + Decoded(s.db.queue, order), phase := Popping))
    .(db := s.db.(queue := Tables.Claim(s.db.queue, Elements(order), w, at)))
  }

  predicate Enabled(s: State, a: Step) {
    match a
    case Tick(elapsed) => elapsed >= 0.0
    case StartWorker(w) => w !in s.procs
    case OpenConsumer(w, q, _) => w in s.procs && s.procs[w].alive && q !in s.procs[w].consumers
    case Crash(w) => w in s.procs
    case Enqueue(_, _) => true
    case HeartbeatCheck(w, q) => Serves(s, w, q) && Member(s, w, q).phase == Idle
    case MaintenanceCheck(w, q, _, jitter) =>
      Serves(s, w, q) && Member(s, w, q).phase == Beaten && 0.5 <= jitter < 1.5
    case Decide(w, q) => Serves(s, w, q) && Member(s, w, q).phase == Maintained
    case Claim(w, q, order, at) =>
      && Serves(s, w, q) && Member(s, w, q).phase.Claiming?
      && at <= s.now && Distinct(order) && |order| <= Member(s, w, q).phase.limit
      && forall i | i in order :: i in s.db.queue && IsDue(s.db.queue[i], q, at)
    case Pop(w, q) => Serves(s, w, q) && Member(s, w, q).phase == Popping
    case Raise(w, q) => Serves(s, w, q)
    case Ack(w, q, _) => Serves(s, w, q)
    case Nack(w, q, m) => Serves(s, w, q) && m.queue == q
    case Requeue(w, q, _) => Serves(s, w, q)
    case Recover(_) => true
    case Flush => true
    case PurgeCommand(_) => true
    case Store(_, _, _) => true
  }

  /** A maintenance check that runs the transaction to its end. */
  predicate Maintains(s: State, a: Step)
    requires Enabled(s, a)
  {
    a.MaintenanceCheck? && a.granted && MaintenanceDue(s.procs[a.w].maintenanceAt, s.now)
  }

  function ApplyHeartbeatCheck(cfg: Config, s: State, w: WorkerId, q: string): State
    requires Serves(s, w, q)
  {
    var p := s.procs[w].(checkedAt := Some(s.now), consumers := s.procs[w].consumers[q := Member(s, w, q).(phase := Beaten)]);
    if HeartbeatDue(cfg, p.heartbeatAt, s.now) then
      s.(procs := s.procs[w := p.(heartbeatAt := s.now)],
         db := s.db.(workers := Heartbeat(s.db.workers, w, s.now)))
    else
      s.(procs := s.procs[w := p])
  }

  function ApplyMaintenanceCheck(cfg: Config, s: State, w: WorkerId, q: string, granted: bool, jitter: real): State
    requires Serves(s, w, q) && 0.5 <= jitter < 1.5
  {
    var p := s.procs[w].(upkeptAt := Some(s.now), consumers := s.procs[w].consumers[q := Member(s, w, q).(phase := Maintained)]);
    if MaintenanceDue(p.maintenanceAt, s.now) then
      s.(procs := s.procs[w := p.(maintenanceAt := NextMaintenance(cfg.maintenanceInterval, jitter, s.now))],
         db := if granted then Maintain(s.db, cfg.heartbeatTtl, cfg.purgeMaxAge, cfg.collect, s.now) else s.db)
    else
      s.(procs := s.procs[w := p])
  }

  function Apply(cfg: Config, s: State, a: Step): State
    requires Enabled(s, a)
  {
    match a
    case Tick(elapsed) => s.(now := s.now + elapsed)
    case StartWorker(w) => s.(procs := s.procs[w := Process(true, 0.0, 0.0, None, None, map[])])
    case OpenConsumer(w, q, prefetch) =>
      s.(procs := s.procs[w := s.procs[w].(consumers := s.procs[w].consumers[q := Consumer(prefetch, [], {}, Idle)])])
    case Crash(w) => s.(procs := s.procs[w := s.procs[w].(alive := false)])
    case Enqueue(m, delay) => s.(db := Tables.Enqueue(s.db, Addressed(m, delay), delay, s.now))
    case HeartbeatCheck(w, q) => ApplyHeartbeatCheck(cfg, s, w, q)
    case MaintenanceCheck(w, q, granted, jitter) => ApplyMaintenanceCheck(cfg, s, w, q, granted, jitter)
    case Decide(w, q) => WithMember(s, w, q, Member(s, w, q).(phase := DecidedPhase(Member(s, w, q))))
    case Claim(w, q, order, at) => ApplyClaim(s, w, q, order, at)
    case Pop(w, q) => WithMember(s, w, q, Popped(Member(s, w, q)))
    case Raise(w, q) => WithMember(s, w, q, Member(s, w, q).(phase := Idle))
    case Ack(w, q, id) => Discarded(s, w, q, id).(db := s.db.(queue := Tables.Ack(s.db.queue, id, q)))
    case Nack(w, q, m) => Discarded(s, w, q, m.id).(db := s.db.(queue := Tables.Nack(s.db.queue, m, s.now)))
    case Requeue(_, _, ids) => s.(db := s.db.(queue := Tables.Requeue(s.db.queue, ids, s.now)))
    case Recover(minAge) => s.(db := s.db.(queue := Tables.Recover(s.db.queue, s.now, minAge)))
    case Flush => s.(db := s.db.(queue := Tables.Flush(s.db.queue)))
    case PurgeCommand(maxAge) =>
      s.(db := s.db.(queue := Purge(s.db.queue, s.now, maxAge),
                     results := if cfg.collect then PurgeResults(s.db.results, s.now) else s.db.results))
    case Store(id, value, ttl) => s.(db := s.db.(results := Tables.Store(s.db.results, id, value, ttl, s.now)))
  }

  // ----- Runs

  datatype Run = Run(states: seq<State>, steps: seq<Step>)

  predicate Follows(cfg: Config, s: State, a: Step, s': State) {
    Enabled(s, a) && s' == Apply(cfg, s, a)
  }

  ghost predicate IsRun(cfg: Config, r: Run) {
    && |r.states| == |r.steps| + 1
    && forall i {:trigger r.steps[i]} | 0 <= i < |r.steps| :: Follows(cfg, r.states[i], r.steps[i], r.states[i + 1])
  }

  predicate IsInitial(s: State) {
    s.db == EMPTY_DB && s.procs == map[]
  }

  ghost predicate IsReachable(cfg: Config, r: Run) {
    IsRun(cfg, r) && IsInitial(r.states[0])
  }

  // ----- The same steps, one row at a time

  /** What a step makes of the row `id`, read off the WHERE and SET clauses of its statements. */
  function RowAfter(cfg: Config, s: State, a: Step, id: MessageId): Option<Row>
    requires Enabled(s, a)
  {
    var r := Look(s.db.queue, id);
    if a.Enqueue? && a.m.id == id then
      Some(EnqueuedRow(r, Addressed(a.m, a.delay), a.delay, s.now, s.db.nextPosition))
    else if r.None? then
      None
    else
      match a
      case Claim(w, q, order, at) => if id in order then Some(ClaimedRow(r.value, w, at)) else r
      case Ack(w, q, i) => if i == id && AckMatches(r.value, q) then None else r
      case Nack(w, q, m) => if m.id == id && NackMatches(r.value, q) then Some(RejectedRow(r.value, m, s.now)) else r
      case Requeue(w, q, ids) => if id in ids && r.value.state == Consumed then Some(RequeuedRow(r.value, s.now)) else r
      case Recover(minAge) => if RecoverMatches(r.value, s.now, minAge) then Some(RecoveredRow(r.value)) else r
      case Flush => if r.value.state == Rejected then r else None
      case PurgeCommand(maxAge) => if PurgeMatches(r.value, s.now, maxAge) then None else r
      case MaintenanceCheck(w, q, _, _) =>
        if !Maintains(s, a) then r
        else if ReapMatches(r.value, s.db.workers, s.now, cfg.heartbeatTtl) then Some(RequeuedRow(r.value, s.now))
        else if cfg.purgeMaxAge.Some? && PurgeMatches(r.value, s.now, cfg.purgeMaxAge.value) then None
        else r
      case _ => r
  }

  lemma MaintenanceIsRowwise(cfg: Config, s: State, a: Step, id: MessageId)
    requires Enabled(s, a) && a.MaintenanceCheck?
    ensures Look(Apply(cfg, s, a).db.queue, id) == RowAfter(cfg, s, a, id)
  {
    if Maintains(s, a) {
      var reaped := Reap(s.db.queue, s.db.workers, s.now, cfg.heartbeatTtl);
      assert id in reaped <==> id in s.db.queue;
    }
  }

  /** Every statement acts row by row: the set-wise tables and the row-wise reading agree. */
  lemma StepIsRowwise(cfg: Config, s: State, a: Step, id: MessageId)
    requires Enabled(s, a)
    ensures Look(Apply(cfg, s, a).db.queue, id) == RowAfter(cfg, s, a, id)
  {
    match a
    case MaintenanceCheck(_, _, _, _) => MaintenanceIsRowwise(cfg, s, a, id);
    case Claim(w, q, order, at) => assert id in Elements(order) <==> id in order;
    case _ =>
  }
}
