/** The bound of `CrashRecovery` is exact: for every shorter delay there is a run in which the rows of
    a dead worker wait longer.  The survivor runs a maintenance just before the heartbeat of the dead
    worker expires, with a jitter of nearly one and a half, finds the next one just not due at one
    call, and takes one more gap until the call that finds it due; each refusal repeats the wait. */
module Delay {
  import opened Wrappers
  import opened Tables
  import opened Machine
  import opened Timing
  import opened Stage

  // ----- The calls of the survivor, worker 2

  /** It after a call that delivers nothing, and what the call writes. */
  function Called(cfg: Config, now: Time, p: Process, jitter: real): Process
    requires 0.5 <= jitter < 1.5
  {
    Looked(cfg, now, p, Free(1), jitter).(consumers := map[QUEUE := Free(1)])
  }

  function CalledDb(cfg: Config, now: Time, p: Process, granted: bool, db: Db): Db {
    LookedDb(cfg, 2, now, p, granted, db)
  }

  predicate AllGranted(steps: seq<Step>) {
    forall a | a in steps :: a.MaintenanceCheck? ==> a.granted
  }

  /** A part of a run in which the survivor is awake and gets the lock; before worker 1's first call, if `early`. */
  ghost predicate Regular(cfg: Config, states: seq<State>, steps: seq<Step>, gap: Time, early: bool) {
    Chain(cfg, states, steps) && Awake(states, gap) && AllGranted(steps) && (early ==> AllPunctual(states, gap))
  }

  lemma GlueRegular(cfg: Config, a: seq<State>, sa: seq<Step>, b: seq<State>, sb: seq<Step>, gap: Time, early: bool)
    requires Regular(cfg, a, sa, gap, early) && Regular(cfg, b, sb, gap, early) && a[|a| - 1] == b[0]
    ensures Regular(cfg, a + b[1..], sa + sb, gap, early)
    ensures (a + b[1..])[|sa| + |sb|] == b[|b| - 1] && (a + b[1..])[0] == a[0]
  {
    Glue(cfg, a, sa, b, sb);
    GlueAwake(a, b, gap);
    if early {
      GluePunctual(a, b, gap);
    }
  }

  function CallSteps(now: Time, d: Time, granted: bool, jitter: real): seq<Step> {
    LookSteps(2, d, granted, jitter) + [Decide(2, QUEUE), Step.Claim(2, QUEUE, [], now), Pop(2, QUEUE)]
  }

  /** A call after a pause of `d`, which finds no row due. */
  lemma Call(cfg: Config, t: Time, d: Time, p1: Process, p2: Process, db: Db, granted: bool, jitter: real, gap: Time)
    returns (states: seq<State>, steps: seq<Step>)
    requires 0.0 <= d <= gap && 0.5 <= jitter < 1.5 && p2.alive && p2.consumers == map[QUEUE := Free(1)]
    requires Due(CalledDb(cfg, t + d, p2, granted, db).queue, QUEUE, t + d) == {}
    ensures Chain(cfg, states, steps) && states[0] == Scene(t, p1, p2, db) && steps == CallSteps(t + d, d, granted, jitter)
    ensures states[6] == Scene(t + d, p1, Called(cfg, t + d, p2, jitter), CalledDb(cfg, t + d, p2, granted, db))
    ensures p2.upkeptAt == Some(t) ==> Awake(states, gap)
    ensures p1.checkedAt == None ==> AllPunctual(states, gap)
    ensures granted ==> AllGranted(steps)
  {
    var now, q := t + d, Looked(cfg, t + d, p2, Free(1), jitter);
    var a, sa := LookStates(cfg, 2, t, d, p2, p1, db, Free(1), granted, jitter), LookSteps(2, d, granted, jitter);
    Looks(cfg, 2, t, d, p2, p1, db, Free(1), granted, jitter);
    var b, sb := FindsNothing(cfg, 2, now, q, p1, CalledDb(cfg, now, p2, granted, db), Free(1));
    Glue(cfg, a, sa, b, sb);
    if p2.upkeptAt == Some(t) {
      LooksAwake(cfg, t, d, p2, p1, db, Free(1), granted, jitter, gap);
      StillAwake(b, now, q.checkedAt, p1, gap);
      GlueAwake(a, b, gap);
    }
    if p1.checkedAt == None {
      LooksPunctual(cfg, 2, t, d, p2, p1, db, Free(1), granted, jitter, gap);
      StillPunctual(b, 2, now, q.checkedAt, q.upkeptAt, p1, gap);
      GluePunctual(a, b, gap);
    }
    states, steps := a + b[1..], sa + sb;
  }

  // ----- What a granted maintenance leaves alone

  /** The queue is as given, and all its rows belong to worker 1, which is registered if it has beaten. */
  ghost predicate Holds(db: Db, queue: QueueTable, beat: Option<Time>) {
    && db.queue == queue
    && (forall i | i in queue :: queue[i].state == Consumed && queue[i].owner == Some(1) && beat.Some?)
    && (beat.Some? ==> 1 in db.workers && db.workers[1] == beat.value)
  }

  lemma MaintainHolds(cfg: Config, db: Db, queue: QueueTable, beat: Option<Time>, now: Time)
    requires Holds(db, queue, beat) && 0.0 <= cfg.heartbeatTtl
    requires beat.Some? ==> beat.value > now - cfg.heartbeatTtl
    ensures Holds(Maintain(db, cfg.heartbeatTtl, cfg.purgeMaxAge, cfg.collect, now), queue, beat)
  {
    var reaped := Reap(db.queue, db.workers, now, cfg.heartbeatTtl);
    assert reaped == queue;
    if cfg.purgeMaxAge.Some? {
      assert Purge(reaped, now, cfg.purgeMaxAge.value) == queue;
    }
  }

  /** If no granted maintenance finds worker 1 too old, a call keeps what the tables hold, and finds nothing due. */
  lemma CallHolds(cfg: Config, db: Db, queue: QueueTable, beat: Option<Time>, now: Time, p: Process, granted: bool)
    requires Holds(db, queue, beat) && 0.0 <= cfg.heartbeatTtl
    requires granted && MaintenanceDue(p.maintenanceAt, now) && beat.Some? ==> beat.value > now - cfg.heartbeatTtl
    ensures Holds(CalledDb(cfg, now, p, granted, db), queue, beat)
    ensures Due(CalledDb(cfg, now, p, granted, db).queue, QUEUE, now) == {}
  {
    var checked := CheckedDb(cfg, 2, now, p, db);
    assert Holds(checked, queue, beat);
    if granted && MaintenanceDue(p.maintenanceAt, now) {
      MaintainHolds(cfg, checked, queue, beat, now);
    }
  }

  // ----- Regular calls, `d` apart

  /** The maintenance interval is `q` pauses long, or zero. */
  ghost predicate Period(cfg: Config, d: Time, q: nat) {
    0.0 < d && 1 <= q && (cfg.maintenanceInterval == Span(d, q) || (cfg.maintenanceInterval == 0.0 && q == 1))
  }

  /** The survivor called at t + s * d, and will find its next maintenance due at t + e * d, not before. */
  ghost predicate NextAt(p: Process, t: Time, d: Time, s: nat, e: nat) {
    && 1.0 <= t && 0.0 < d && s < e
    && p.alive && p.consumers == map[QUEUE := Free(1)] && p.upkeptAt == Some(t + Span(d, s))
    && 1.0 <= p.maintenanceAt <= t + Span(d, e)
    && (e == s + 1 || t + Span(d, e - 1) < p.maintenanceAt)
  }

  lemma DueAt(p: Process, t: Time, d: Time, s: nat, e: nat)
    requires NextAt(p, t, d, s, e)
    ensures MaintenanceDue(p.maintenanceAt, t + Span(d, s + 1)) <==> e == s + 1
  {
    if s + 1 < e {
      SpanGrows(d, s + 1, e - 1);
    }
  }

  lemma NextAfterCall(cfg: Config, p: Process, t: Time, d: Time, q: nat, s: nat, e: nat)
    requires NextAt(p, t, d, s, e) && Period(cfg, d, q)
    ensures NextAt(Called(cfg, t + Span(d, s + 1), p, 1.0), t, d, s + 1, if e == s + 1 then e + q else e)
  {
    var now := t + Span(d, s + 1);
    DueAt(p, t, d, s, e);
    SpanGrows(d, 0, s + 1);
    SpanGrows(d, 0, q);
    if e == s + 1 {
      SpanSum(d, e, q);
      assert Called(cfg, now, p, 1.0).maintenanceAt == now + cfg.maintenanceInterval;
    }
  }

  lemma Remainder(q: nat, x: nat, y: nat)
    requires y < q
    ensures (q * x + y) % q == y
  {
    var z := (q * x + y) / q;
    assert q * x + y == q * z + (q * x + y) % q;
    assert z > x ==> q * z >= q * (x + 1);
    assert z < x ==> q * x >= q * (z + 1);
  }

  lemma NextMultiple(q: nat, e: nat)
    requires 1 <= q
    ensures (e + q) % q == e % q
  {
    assert e + q == q * (e / q + 1) + e % q;
    Remainder(q, e / q + 1, e % q);
  }

  lemma OneCall(cfg: Config, t: Time, d: Time, q: nat, s: nat, e: nat, p1: Process, p2: Process,
                db: Db, queue: QueueTable, beat: Option<Time>, gap: Time)
    returns (states: seq<State>, steps: seq<Step>, e': nat, p2': Process, db': Db)
    requires Period(cfg, d, q) && d <= gap && NextAt(p2, t, d, s, e)
    requires Holds(db, queue, beat) && 0.0 <= cfg.heartbeatTtl
    requires e == s + 1 && beat.Some? ==> beat.value > t + Span(d, s + 1) - cfg.heartbeatTtl
    ensures Regular(cfg, states, steps, gap, p1.checkedAt == None) && |steps| == 6
    ensures states[0] == Scene(t + Span(d, s), p1, p2, db) && states[6] == Scene(t + Span(d, s + 1), p1, p2', db')
    ensures NextAt(p2', t, d, s + 1, e') && Holds(db', queue, beat) && e' == if e == s + 1 then e + q else e
  {
    var last, now := t + Span(d, s), t + Span(d, s + 1);
    DueAt(p2, t, d, s, e);
    assert last + d == now;
    CallHolds(cfg, db, queue, beat, now, p2, true);
    NextAfterCall(cfg, p2, t, d, q, s, e);
    states, steps := Call(cfg, last, d, p1, p2, db, true, 1.0, gap);
    e', p2', db' := if e == s + 1 then e + q else e, Called(cfg, now, p2, 1.0), CalledDb(cfg, now, p2, true, db);
  }

  /** n calls, `d` apart; every granted maintenance among them comes while worker 1 counts as alive. */
  lemma {:induction false} Calls(cfg: Config, t: Time, d: Time, q: nat, s: nat, n: nat, e: nat, p1: Process, p2: Process,
                                 db: Db, queue: QueueTable, beat: Option<Time>, gap: Time)
    returns (states: seq<State>, steps: seq<Step>, e': nat, p2': Process, db': Db)
    requires Period(cfg, d, q) && d <= gap && NextAt(p2, t, d, s, e)
    requires Holds(db, queue, beat) && 0.0 <= cfg.heartbeatTtl
    requires e <= s + n && beat.Some? ==> beat.value > t + Span(d, s + n) - cfg.heartbeatTtl
    ensures Regular(cfg, states, steps, gap, p1.checkedAt == None)
    ensures states[0] == Scene(t + Span(d, s), p1, p2, db) && states[|steps|] == Scene(t + Span(d, s + n), p1, p2', db')
    ensures NextAt(p2', t, d, s + n, e') && Holds(db', queue, beat)
    ensures (e > s + n ==> e' == e) && (e <= s + q ==> e' <= s + n + q) && e' % q == e % q
    decreases n
  {
    if n == 0 {
      states, steps, e', p2', db' := [Scene(t + Span(d, s), p1, p2, db)], [], e, p2, db;
    } else {
      SpanGrows(d, s + 1, s + n);
      NextMultiple(q, e);
      var a, sa, next, p, db1 := OneCall(cfg, t, d, q, s, e, p1, p2, db, queue, beat, gap);
      var b, sb;
      b, sb, e', p2', db' := Calls(cfg, t, d, q, s + 1, n - 1, next, p1, p, db1, queue, beat, gap);
      GlueRegular(cfg, a, sa, b, sb, gap, p1.checkedAt == None);
      states, steps := a + b[1..], sa + sb;
    }
  }

  // ----- Counting refusals

  lemma {:induction false} GrantedRefusesNone(states: seq<State>, steps: seq<Step>, v: WorkerId, expiry: Time)
    requires |states| == |steps| + 1 && AllGranted(steps)
    ensures Refusals(states, steps, v, expiry) == 0
  {
    if steps != [] {
      var last := |steps| - 1;
      assert steps[last] in steps;
      GrantedRefusesNone(states[..last + 1], steps[..last], v, expiry);
    }
  }

  lemma {:induction false} OneRefusal(states: seq<State>, steps: seq<Step>, m: nat, v: WorkerId, expiry: Time)
    requires |states| == |steps| + 1 && m < |steps| && AllGranted(steps[..m]) && AllGranted(steps[m + 1..])
    ensures Refusals(states, steps, v, expiry) <= 1
  {
    var last := |steps| - 1;
    if m == last {
      GrantedRefusesNone(states[..last + 1], steps[..last], v, expiry);
    } else {
      assert steps[..last][..m] == steps[..m];
      assert steps[last] in steps[m + 1..];
      OneRefusal(states[..last + 1], steps[..last], m, v, expiry);
    }
  }

  lemma {:induction false} RefusalsJoin(a: seq<State>, sa: seq<Step>, b: seq<State>, sb: seq<Step>, v: WorkerId, expiry: Time)
    requires |a| == |sa| + 1 && |b| == |sb| + 1 && a[|a| - 1] == b[0]
    ensures Refusals(a + b[1..], sa + sb, v, expiry) == Refusals(a, sa, v, expiry) + Refusals(b, sb, v, expiry)
  {
    if sb == [] {
      assert a + b[1..] == a && sa + sb == sa;
    } else {
      var last := |sb| - 1;
      RefusalsJoin(a, sa, b[..last + 1], sb[..last], v, expiry);
      assert (sa + sb)[..|sa| + last] == sa + sb[..last];
      assert (a + b[1..])[..|sa| + last + 1] == a + b[..last + 1][1..];
      assert (a + b[1..])[|sa| + last] == b[last];
    }
  }

  // ----- The message is enqueued and claimed, and its owner dies

  function TakenAt(t: Time, position: nat): QueueTable {
    map[7 := ClaimedRow(Enqueued(t, position), 1, t)]
  }

  /** Worker 1 makes its first call at `t`, when the message has just been enqueued. */
  lemma FirstCall(cfg: Config, t: Time, p2: Process, db: Db, gap: Time)
    returns (states: seq<State>, steps: seq<Step>, p1: Process)
    requires 1.0 <= t && 0.0 <= gap && db.queue == map[]
    ensures Chain(cfg, states, steps) && AllPunctual(states, gap)
    ensures states[0] == Scene(t, Fresh(1), p2, db)
    ensures states[|steps|] == Scene(t, p1, p2, db.(queue := map[7 := Enqueued(t, db.nextPosition)],
                                                    nextPosition := db.nextPosition + 1, workers := db.workers[1 := t]))
    ensures p1.alive && p1.heartbeatAt == t && p1.checkedAt == Some(t)
    ensures p1.consumers == map[QUEUE := Free(1).(phase := Maintained)]
  {
    var db1 := db.(queue := map[7 := Enqueued(t, db.nextPosition)], nextPosition := db.nextPosition + 1);
    Enqueues(cfg, t, Fresh(1), p2, db);
    var a, sa := [Scene(t, Fresh(1), p2, db), Scene(t, Fresh(1), p2, db1)], [Step.Enqueue(MESSAGE, 0)];
    Looks(cfg, 1, t, 0.0, Fresh(1), p2, db1, Free(1), false, 1.0);
    LooksPunctual(cfg, 1, t, 0.0, Fresh(1), p2, db1, Free(1), false, 1.0, gap);
    var b, sb := LookStates(cfg, 1, t, 0.0, Fresh(1), p2, db1, Free(1), false, 1.0), LookSteps(1, 0.0, false, 1.0);
    Glue(cfg, a, sa, b, sb);
    GluePunctual(a, b, gap);
    p1 := Looked(cfg, t, Fresh(1), Free(1), 1.0);
    states, steps := a + b[1..], sa + sb;
  }

  /** It claims the message, and dies. */
  lemma ClaimsAndDies(cfg: Config, t: Time, p: Process, p2: Process, db: Db, r: Row, gap: Time)
    returns (states: seq<State>, steps: seq<Step>, p1: Process)
    requires 0.0 <= gap && db.queue == map[7 := r] && IsDue(r, QUEUE, t) && r.message == MESSAGE
    requires p.alive && p.checkedAt == Some(t) && p.consumers == map[QUEUE := Free(1).(phase := Maintained)]
    ensures Chain(cfg, states, steps) && AllPunctual(states, gap)
    ensures states[0] == Scene(t, p, p2, db)
    ensures states[|steps|] == Scene(t, p1, p2, db.(queue := map[7 := ClaimedRow(r, 1, t)]))
    ensures !p1.alive && p1.heartbeatAt == p.heartbeatAt && p1.checkedAt == Some(t)
  {
    var a, sa := StartsTaking(cfg, 1, t, p, p2, db, Free(1), r);
    StillPunctual(a, 1, t, p.checkedAt, p.upkeptAt, p2, gap);
    var loaded, db' := p.(consumers := map[QUEUE := Loaded(Free(1))]), db.(queue := map[7 := ClaimedRow(r, 1, t)]);
    Crashes(cfg, 1, t, loaded, p2, db');
    p1 := loaded.(alive := false);
    var b, sb := [Scene(t, loaded, p2, db'), Scene(t, p1, p2, db')], [Crash(1)];
    Glue(cfg, a, sa, b, sb);
    GluePunctual(a, b, gap);
    states, steps := a + b[1..], sa + sb;
  }

  lemma Dies(cfg: Config, t: Time, p2: Process, db: Db, gap: Time)
    returns (states: seq<State>, steps: seq<Step>, p1: Process, db': Db)
    requires 1.0 <= t && 0.0 <= gap && Holds(db, map[], None)
    ensures Chain(cfg, states, steps) && AllPunctual(states, gap)
    ensures states[0] == Scene(t, Fresh(1), p2, db) && states[|steps|] == Scene(t, p1, p2, db')
    ensures !p1.alive && p1.heartbeatAt == t && p1.checkedAt == Some(t)
    ensures Holds(db', TakenAt(t, db.nextPosition), Some(t))
  {
    var row := Enqueued(t, db.nextPosition);
    var db1 := db.(queue := map[7 := row], nextPosition := db.nextPosition + 1, workers := db.workers[1 := t]);
    var a, sa, p := FirstCall(cfg, t, p2, db, gap);
    var b, sb;
    b, sb, p1 := ClaimsAndDies(cfg, t, p, p2, db1, row, gap);
    db' := db1.(queue := TakenAt(t, db.nextPosition));
    Glue(cfg, a, sa, b, sb);
    GluePunctual(a, b, gap);
    states, steps := a + b[1..], sa + sb;
  }

  // ----- Waits of one and a half intervals and a gap

  /** A maintenance with this jitter makes the next one due at the k-th regular call from then. */
  ghost predicate Late(cfg: Config, d: Time, k: nat, jitter: real) {
    && 0.5 <= jitter < 1.5 && 1 <= k && cfg.maintenanceInterval * jitter <= Span(d, k)
    && (k == 1 || Span(d, k - 1) < cfg.maintenanceInterval * jitter)
  }

  lemma NextIsLate(cfg: Config, p: Process, t: Time, d: Time, k: nat, jitter: real)
    requires Late(cfg, d, k, jitter) && 0.0 < d && 1.0 <= t && 0.0 <= cfg.maintenanceInterval
    requires p.alive && MaintenanceDue(p.maintenanceAt, t)
    ensures NextAt(Called(cfg, t, p, jitter), t, d, 0, k)
  {
    var next := NextMaintenance(cfg.maintenanceInterval, jitter, t);
    assert Called(cfg, t, p, jitter).maintenanceAt == next == t + cfg.maintenanceInterval * jitter;
  }

  /** k - 1 calls find the maintenance not due; then `gap` passes. */
  lemma AlmostDue(cfg: Config, t: Time, d: Time, q: nat, k: nat, p1: Process, p2: Process, db: Db,
                  queue: QueueTable, beat: Option<Time>, gap: Time)
    returns (states: seq<State>, steps: seq<Step>, p2': Process, db': Db)
    requires Period(cfg, d, q) && d <= gap && NextAt(p2, t, d, 0, k) && Holds(db, queue, beat) && 0.0 <= cfg.heartbeatTtl
    ensures Regular(cfg, states, steps, gap, false) && states[0] == Scene(t, p1, p2, db)
    ensures states[|steps|] == Scene(t + Span(d, k - 1), p1, p2', db') && Holds(db', queue, beat)
    ensures NextAt(p2', t, d, k - 1, k) && MaintenanceDue(p2'.maintenanceAt, t + Span(d, k - 1) + gap)
  {
    var e;
    states, steps, e, p2', db' := Calls(cfg, t, d, q, 0, k - 1, k, p1, p2, db, queue, beat, gap);
  }

  /** A part of a run in which the survivor is awake, and is refused the lock at most n times. */
  ghost predicate Waits(cfg: Config, states: seq<State>, steps: seq<Step>, gap: Time, expiry: Time, n: nat) {
    Chain(cfg, states, steps) && Awake(states, gap) && Refusals(states, steps, 2, expiry) <= n
  }

  lemma RegularWaits(cfg: Config, states: seq<State>, steps: seq<Step>, gap: Time, early: bool, expiry: Time)
    requires Regular(cfg, states, steps, gap, early)
    ensures Waits(cfg, states, steps, gap, expiry, 0)
  {
    GrantedRefusesNone(states, steps, 2, expiry);
  }

  lemma GlueWaits(cfg: Config, a: seq<State>, sa: seq<Step>, m: nat, b: seq<State>, sb: seq<Step>, n: nat,
                  gap: Time, expiry: Time)
    requires Waits(cfg, a, sa, gap, expiry, m) && Waits(cfg, b, sb, gap, expiry, n) && a[|a| - 1] == b[0]
    ensures Waits(cfg, a + b[1..], sa + sb, gap, expiry, m + n)
    ensures (a + b[1..])[|sa| + |sb|] == b[|b| - 1] && (a + b[1..])[0] == a[0]
  {
    Glue(cfg, a, sa, b, sb);
    GlueAwake(a, b, gap);
    RefusalsJoin(a, sa, b, sb, 2, expiry);
  }

  lemma RefusedChain(cfg: Config, t: Time, p1: Process, p2: Process, db: Db, jitter: real, gap: Time, expiry: Time,
                     p2': Process, db': Db)
    returns (states: seq<State>, steps: seq<Step>)
    requires 0.0 <= gap && 0.5 <= jitter < 1.5 && p2.alive && p2.consumers == map[QUEUE := Free(1)] && p2.upkeptAt == Some(t)
    requires p2' == Called(cfg, t + gap, p2, jitter) && db' == CalledDb(cfg, t + gap, p2, false, db)
    requires Due(db'.queue, QUEUE, t + gap) == {}
    ensures Waits(cfg, states, steps, gap, expiry, 1)
    ensures states[0] == Scene(t, p1, p2, db) && states[|steps|] == Scene(t + gap, p1, p2', db')
  {
    states, steps := Call(cfg, t, gap, p1, p2, db, false, jitter, gap);
    OneRefusal(states, steps, 2, 2, expiry);
  }

  lemma RefusedCall(cfg: Config, t: Time, d: Time, k: nat, p1: Process, p2: Process, db: Db, jitter: real,
                    queue: QueueTable, beat: Option<Time>, gap: Time, expiry: Time)
    returns (states: seq<State>, steps: seq<Step>, p2': Process, db': Db)
    requires Late(cfg, d, k, jitter) && 0.0 < d && 0.0 <= cfg.maintenanceInterval && 0.0 <= gap && 1.0 <= t
    requires p2.alive && p2.consumers == map[QUEUE := Free(1)]
    requires p2.upkeptAt == Some(t) && MaintenanceDue(p2.maintenanceAt, t + gap)
    requires Holds(db, queue, beat) && 0.0 <= cfg.heartbeatTtl
    ensures Waits(cfg, states, steps, gap, expiry, 1)
    ensures states[0] == Scene(t, p1, p2, db) && states[|steps|] == Scene(t + gap, p1, p2', db')
    ensures NextAt(p2', t + gap, d, 0, k) && Holds(db', queue, beat)
  {
    db' := CalledDb(cfg, t + gap, p2, false, db);
    CallHolds(cfg, db, queue, beat, t + gap, p2, false);
    assert Holds(db', queue, beat);
    p2' := Called(cfg, t + gap, p2, jitter);
    NextIsLate(cfg, p2, t + gap, d, k, jitter);
    states, steps := RefusedChain(cfg, t, p1, p2, db, jitter, gap, expiry, p2', db');
  }

  /** k - 1 calls, a gap, and a call that is refused. */
  lemma Round(cfg: Config, t: Time, d: Time, q: nat, k: nat, jitter: real, p1: Process, p2: Process, db: Db,
              queue: QueueTable, beat: Option<Time>, gap: Time, expiry: Time)
    returns (states: seq<State>, steps: seq<Step>, p2': Process, db': Db)
    requires Period(cfg, d, q) && Late(cfg, d, k, jitter) && 0.0 <= cfg.maintenanceInterval
    requires d <= gap && NextAt(p2, t, d, 0, k) && Holds(db, queue, beat) && 0.0 <= cfg.heartbeatTtl
    ensures Waits(cfg, states, steps, gap, expiry, 1)
    ensures var next := t + Span(d, k - 1) + gap;
            && states[0] == Scene(t, p1, p2, db) && states[|steps|] == Scene(next, p1, p2', db')
            && NextAt(p2', next, d, 0, k) && Holds(db', queue, beat)
  {
    var a, sa, p, db1 := AlmostDue(cfg, t, d, q, k, p1, p2, db, queue, beat, gap);
    SpanGrows(d, 0, k - 1);
    var b, sb;
    b, sb, p2', db' := RefusedCall(cfg, t + Span(d, k - 1), d, k, p1, p, db1, jitter, queue, beat, gap, expiry);
    RegularWaits(cfg, a, sa, gap, false, expiry);
    GlueWaits(cfg, a, sa, 0, b, sb, 1, gap, expiry);
    states, steps := a + b[1..], sa + sb;
  }

  /** k - 1 calls, and a gap. */
  lemma LastRound(cfg: Config, t: Time, d: Time, q: nat, k: nat, p1: Process, p2: Process, db: Db,
                  queue: QueueTable, beat: Option<Time>, gap: Time, expiry: Time)
    returns (states: seq<State>, steps: seq<Step>)
    requires Period(cfg, d, q) && d <= gap && NextAt(p2, t, d, 0, k) && Holds(db, queue, beat) && 0.0 <= cfg.heartbeatTtl
    ensures Waits(cfg, states, steps, gap, expiry, 0)
    ensures states[0] == Scene(t, p1, p2, db) && states[|steps|].db.queue == queue
    ensures states[|steps|].now == t + Span(d, k - 1) + gap
  {
    var a, sa, p, db1 := AlmostDue(cfg, t, d, q, k, p1, p2, db, queue, beat, gap);
    var u := t + Span(d, k - 1);
    var b, sb := [Scene(u, p1, p, db1), Scene(u + gap, p1, p, db1)], [Tick(gap)];
    Ticks(cfg, 1, u, gap, p1, p, db1);
    RegularWaits(cfg, a, sa, gap, false, expiry);
    RegularWaits(cfg, b, sb, gap, false, expiry);
    GlueWaits(cfg, a, sa, 0, b, sb, 0, gap, expiry);
    states, steps := a + b[1..], sa + sb;
  }

  /** n refusals later the message still belongs to the dead worker. */
  lemma {:induction false} Rounds(cfg: Config, t: Time, d: Time, q: nat, k: nat, jitter: real, n: nat,
                                  p1: Process, p2: Process, db: Db, queue: QueueTable, beat: Option<Time>, gap: Time, expiry: Time)
    returns (states: seq<State>, steps: seq<Step>)
    requires Period(cfg, d, q) && Late(cfg, d, k, jitter) && 0.0 <= cfg.maintenanceInterval
    requires d <= gap && NextAt(p2, t, d, 0, k) && Holds(db, queue, beat) && 0.0 <= cfg.heartbeatTtl
    ensures Waits(cfg, states, steps, gap, expiry, n)
    ensures states[0] == Scene(t, p1, p2, db) && states[|steps|].db.queue == queue
    ensures states[|steps|].now == t + Span(Span(d, k - 1) + gap, n + 1)
    decreases n
  {
    if n == 0 {
      states, steps := LastRound(cfg, t, d, q, k, p1, p2, db, queue, beat, gap, expiry);
    } else {
      var a, sa, p, db1 := Round(cfg, t, d, q, k, jitter, p1, p2, db, queue, beat, gap, expiry);
      var b, sb := Rounds(cfg, t + Span(d, k - 1) + gap, d, q, k, jitter, n - 1, p1, p, db1, queue, beat, gap, expiry);
      GlueWaits(cfg, a, sa, 1, b, sb, n - 1, gap, expiry);
      states, steps := a + b[1..], sa + sb;
    }
  }
}
