/** For which delay after its last heartbeat a dead worker has surely lost its rows: the bound of
    `CrashRecovery` exactly, however many maintenances of the survivor are refused. */
module TightRecovery {
  import opened Wrappers
  import opened Tables
  import opened Machine
  import opened Timing
  import opened Stage
  import opened Delay

  // ----- The run, around the death of worker 1 at 1 + a * d

  lemma FirstMaintenance(cfg: Config, d: Time, q: nat)
    requires Period(cfg, d, q) && 0.0 <= cfg.maintenanceInterval && 0.0 <= cfg.heartbeatTtl
    ensures NextAt(Called(cfg, 1.0, Fresh(1), 1.0), 1.0, d, 0, q) && q % q == 0
    ensures Holds(CalledDb(cfg, 1.0, Fresh(1), true, EMPTY_DB), map[], None)
    ensures Due(CalledDb(cfg, 1.0, Fresh(1), true, EMPTY_DB).queue, QUEUE, 1.0) == {}
  {
    CallHolds(cfg, EMPTY_DB, map[], None, 1.0, Fresh(1), true);
    Remainder(q, 1, 0);
    assert Called(cfg, 1.0, Fresh(1), 1.0).maintenanceAt == 1.0 + cfg.maintenanceInterval;
  }

  /** Before: worker 2 runs its first maintenance at once, and then one every interval. */
  lemma Before(cfg: Config, gap: Time, d: Time, q: nat, a: nat)
    returns (states: seq<State>, steps: seq<Step>, e: nat, p2: Process, db: Db)
    requires Period(cfg, d, q) && d <= gap && 0.0 <= cfg.maintenanceInterval && 0.0 <= cfg.heartbeatTtl
    ensures Chain(cfg, states, steps) && IsInitial(states[0]) && AllPunctual(states, gap)
    ensures states[|steps|] == Scene(1.0 + Span(d, a), Fresh(1), p2, db)
    ensures NextAt(p2, 1.0, d, a, e) && e <= a + q && e % q == 0 && Holds(db, map[], None)
  {
    var x, sx := Opened(cfg, 1);
    FirstMaintenance(cfg, d, q);
    var y, sy := Call(cfg, 1.0, 0.0, Fresh(1), Fresh(1), EMPTY_DB, true, 1.0, gap);
    var z, sz;
    z, sz, e, p2, db := Calls(cfg, 1.0, d, q, 0, a, q, Fresh(1), Called(cfg, 1.0, Fresh(1), 1.0),
                              CalledDb(cfg, 1.0, Fresh(1), true, EMPTY_DB), map[], None, gap);
    Glue(cfg, x, sx, y, sy);
    GluePunctual(x, y, gap);
    Glue(cfg, x + y[1..], sx + sy, z, sz);
    GluePunctual(x + y[1..], z, gap);
    states, steps := x + y[1..] + z[1..], sx + sy + sz;
  }

  lemma SameMultiple(q: nat, x: nat, y: nat)
    requires 1 <= q && x % q == 0 && y % q == 0 && x <= y < x + q
    ensures x == y
  {
    Remainder(q, x / q, y - x);
  }

  lemma RegularCall(cfg: Config, t: Time, d: Time, p1: Process, p2: Process, db: Db, jitter: real, gap: Time,
                    p2': Process, db': Db)
    returns (states: seq<State>, steps: seq<Step>)
    requires 0.0 <= d <= gap && 0.5 <= jitter < 1.5 && p2.alive && p2.consumers == map[QUEUE := Free(1)] && p2.upkeptAt == Some(t)
    requires p2' == Called(cfg, t + d, p2, jitter) && db' == CalledDb(cfg, t + d, p2, true, db)
    requires Due(db'.queue, QUEUE, t + d) == {}
    ensures Regular(cfg, states, steps, gap, false) && |steps| == 6
    ensures states[0] == Scene(t, p1, p2, db) && states[6] == Scene(t + d, p1, p2', db')
  {
    states, steps := Call(cfg, t, d, p1, p2, db, true, jitter, gap);
  }

  lemma TooEarly(cfg: Config, t: Time, d: Time, k: nat, jitter: real, p1: Process, p2: Process, db: Db,
                 queue: QueueTable, beat: Option<Time>, gap: Time)
    returns (states: seq<State>, steps: seq<Step>, p2': Process, db': Db)
    requires Late(cfg, d, k, jitter) && 0.0 < d <= gap && 0.0 <= cfg.maintenanceInterval && 1.0 <= t
    requires p2.alive && p2.consumers == map[QUEUE := Free(1)] && p2.upkeptAt == Some(t) && MaintenanceDue(p2.maintenanceAt, t + d)
    requires Holds(db, queue, beat) && 0.0 <= cfg.heartbeatTtl && (beat.Some? ==> beat.value > t + d - cfg.heartbeatTtl)
    ensures Regular(cfg, states, steps, gap, false)
    ensures states[0] == Scene(t, p1, p2, db) && states[|steps|] == Scene(t + d, p1, p2', db')
    ensures NextAt(p2', t + d, d, 0, k) && Holds(db', queue, beat)
  {
    db' := CalledDb(cfg, t + d, p2, true, db);
    CallHolds(cfg, db, queue, beat, t + d, p2, true);
    assert Holds(db', queue, beat);
    p2' := Called(cfg, t + d, p2, jitter);
    NextIsLate(cfg, p2, t + d, d, k, jitter);
    states, steps := RegularCall(cfg, t, d, p1, p2, db, jitter, gap, p2', db');
  }

  /** After: the last maintenance that comes too early is at 1 + (a + len) * d. */
  lemma UpToExpiry(cfg: Config, gap: Time, d: Time, q: nat, k: nat, jitter: real, a: nat, len: nat, e: nat,
                   p1: Process, p2: Process, db: Db, queue: QueueTable)
    returns (states: seq<State>, steps: seq<Step>, p2': Process, db': Db)
    requires Period(cfg, d, q) && Late(cfg, d, k, jitter) && d <= gap && 0.0 <= cfg.maintenanceInterval
    requires 1 <= len && (a + len) % q == 0 && Span(d, len) < cfg.heartbeatTtl && 0.0 <= cfg.heartbeatTtl
    requires NextAt(p2, 1.0, d, a, e) && e <= a + q && e % q == 0 && Holds(db, queue, Some(1.0 + Span(d, a)))
    ensures Regular(cfg, states, steps, gap, false) && states[0] == Scene(1.0 + Span(d, a), p1, p2, db)
    ensures states[|steps|] == Scene(1.0 + Span(d, a + len), p1, p2', db')
    ensures NextAt(p2', 1.0 + Span(d, a + len), d, 0, k) && Holds(db', queue, Some(1.0 + Span(d, a)))
  {
    SpanSum(d, a, len);
    SpanGrows(d, 0, a + len - 1);
    var beat, before := Some(1.0 + Span(d, a)), 1.0 + Span(d, a + len - 1);
    var x, sx, e', p, db1 := Calls(cfg, 1.0, d, q, a, len - 1, e, p1, p2, db, queue, beat, gap);
    SameMultiple(q, a + len, e');
    DueAt(p, 1.0, d, a + len - 1, a + len);
    assert before + d == 1.0 + Span(d, a + len);
    var y, sy;
    y, sy, p2', db' := TooEarly(cfg, before, d, k, jitter, p1, p, db1, queue, beat, gap);
    GlueRegular(cfg, x, sx, y, sy, gap, false);
    states, steps := x + y[1..], sx + sy;
  }

  lemma After(cfg: Config, gap: Time, n: nat, d: Time, q: nat, k: nat, jitter: real, a: nat, len: nat, e: nat,
              p1: Process, p2: Process, db: Db, queue: QueueTable, expiry: Time)
    returns (states: seq<State>, steps: seq<Step>)
    requires Period(cfg, d, q) && Late(cfg, d, k, jitter) && d <= gap && 0.0 <= cfg.maintenanceInterval
    requires 1 <= len && (a + len) % q == 0 && Span(d, len) < cfg.heartbeatTtl && 0.0 <= cfg.heartbeatTtl
    requires NextAt(p2, 1.0, d, a, e) && e <= a + q && e % q == 0 && Holds(db, queue, Some(1.0 + Span(d, a)))
    ensures Waits(cfg, states, steps, gap, expiry, n)
    ensures states[0] == Scene(1.0 + Span(d, a), p1, p2, db) && states[|steps|].db.queue == queue
    ensures states[|steps|].now == 1.0 + Span(d, a) + Span(d, len) + Span(Span(d, k - 1) + gap, n + 1)
  {
    SpanSum(d, a, len);
    var late := 1.0 + Span(d, a + len);
    var x, sx, p, db1 := UpToExpiry(cfg, gap, d, q, k, jitter, a, len, e, p1, p2, db, queue);
    RegularWaits(cfg, x, sx, gap, false, expiry);
    var z, sz := Rounds(cfg, late, d, q, k, jitter, n, p1, p, db1, queue, Some(1.0 + Span(d, a)), gap, expiry);
    GlueWaits(cfg, x, sx, 0, z, sz, n, gap, expiry);
    states, steps := x + z[1..], sx + sz;
  }

  // ----- The numbers

  lemma Divides(total: Time, small: Time, q: nat)
    requires 0.0 < total && 0.0 < small && 1 <= q && total / small <= q as real
    ensures 0.0 < total / q as real <= small && q as real * (total / q as real) == total
  {
    var x := q as real;
    assert total == (total / small) * small;
    assert (total / small) * small <= x * small;
    assert (total / x) * x == total;
  }

  lemma Ratio(x: real, y: real)
    requires 0.0 < x && x <= 2.0 * y && 2.0 * y < 3.0 * x
    ensures 0.5 <= y / x < 1.5
  {
    var z := y / x;
    assert z * x == y;
    assert z < 0.5 ==> z * x < 0.5 * x;
    assert z >= 1.5 ==> z * x >= 1.5 * x;
  }

  lemma Rescale(d: real, x: real, y: real, total: real)
    requires 0.0 < x && x * d == total
    ensures total * (y / x) == y * d
  {
    var z := y / x;
    assert z * x == y;
    assert (x * d) * z == (z * x) * d;
  }

  lemma Products(d: real, x: real, y: real, total: real)
    requires 0.0 < d && 3.0 * x - 2.0 <= 2.0 * y && x * d == total
    ensures y * d + d >= total * 1.5
  {
    var z := 2.0 * y - 3.0 * x + 2.0;
    assert 0.0 <= z * d;
    assert z * d == 2.0 * (y * d) - 3.0 * (x * d) + 2.0 * d;
  }

  lemma JitterOf(d: Time, q: nat, k: nat, total: Time)
    requires 0.0 < d && 1 <= q && 3 * q - 2 <= 2 * k <= 3 * q - 1 && q as real * d == total
    ensures 0.5 <= k as real / q as real < 1.5
    ensures total * (k as real / q as real) == k as real * d
    ensures k as real * d + d >= total * 1.5
  {
    var x, y := q as real, k as real;
    assert 1.0 <= x && 3.0 * x - 2.0 <= 2.0 * y <= 3.0 * x - 1.0;
    Ratio(x, y);
    Rescale(d, x, y, total);
    Products(d, x, y, total);
  }

  /** Pauses of at most `small` that divide the maintenance interval, and a jitter just below 1.5. */
  lemma Grid(cfg: Config, small: Time) returns (d: Time, q: nat, k: nat, jitter: real)
    requires 0.0 < small && 0.0 <= cfg.maintenanceInterval
    ensures 0.0 < d <= small && Period(cfg, d, q) && Late(cfg, d, k, jitter)
    ensures Span(d, k) + d >= cfg.maintenanceInterval * 1.5
  {
    if cfg.maintenanceInterval == 0.0 {
      d, q, k, jitter := small, 1, 1, 1.0;
    } else {
      q := (cfg.maintenanceInterval / small).Floor + 1;
      d := cfg.maintenanceInterval / q as real;
      Divides(cfg.maintenanceInterval, small, q);
      k := (3 * q - 1) / 2;
      jitter := k as real / q as real;
      JitterOf(d, q, k, cfg.maintenanceInterval);
      SpanIs(d, q);
      SpanIs(d, k);
    }
  }

  lemma {:induction false} LongestSpan(d: Time, total: Time, n: nat) returns (len: nat)
    requires 0.0 < d < total <= Span(d, n)
    ensures 1 <= len && Span(d, len) < total <= Span(d, len + 1)
  {
    if total <= Span(d, n - 1) {
      len := LongestSpan(d, total, n - 1);
    } else {
      len := n - 1;
    }
  }

  lemma Reaches(d: Time, total: Time) returns (n: nat)
    requires 0.0 < d && 0.0 < total
    ensures total <= Span(d, n)
  {
    n := (total / d).Floor + 1;
    SpanIs(d, n);
    assert total == (total / d) * d <= n as real * d;
  }

  /** Steps that fall short by twice `d` fall short by twice as many `d` in all. */
  lemma {:induction false} Shortfall(w: Time, x: Time, d: Time, m: nat)
    requires x <= w + d + d
    ensures Span(x, m) <= Span(w, m) + Span(d, 2 * m)
  {
    if m > 0 {
      Shortfall(w, x, d, m - 1);
    }
  }

  lemma {:induction false} SmallerSpan(d: Time, small: Time, m: nat)
    requires d <= small
    ensures Span(d, m) <= Span(small, m)
  {
    if m > 0 {
      SmallerSpan(d, small, m - 1);
    }
  }

  // ----- The bound

  /** `w` died having called at most `gap` apart, `v` keeps calling at most `gap` apart and is refused at
      most n times after the expiry; and a row still belongs to `w` when its last heartbeat is `delay` old. */
  ghost predicate StillOwns(cfg: Config, r: Run, i: nat, k: nat, w: WorkerId, v: WorkerId, gap: Time, n: nat, delay: Time) {
    && Recovering(cfg, r, i, k, w, v, gap)
    && (forall j | 0 <= j <= i :: Punctual(r.states[j], w, gap))
    && RefusalsIn(r, i, k, v, Expiry(cfg, r.states[i], w)) <= n
    && r.states[k].now >= r.states[i].procs[w].heartbeatAt + delay
    && !OwnsNone(r.states[k], w)
  }

  lemma StaysAwake(a: seq<State>, b: seq<State>, gap: Time, j: nat)
    requires a != [] && b != [] && a[|a| - 1] == b[0] && Awake(b, gap) && |a| - 1 <= j < |a| + |b| - 1
    ensures UpkeptWithin((a + b[1..])[j], 2, gap)
  {
    assert (a + b[1..])[j] == b[j - (|a| - 1)] && b[j - (|a| - 1)] in b;
  }

  lemma StaysPunctual(a: seq<State>, b: seq<State>, gap: Time, j: nat)
    requires AllPunctual(a, gap) && j < |a| && b != []
    ensures Punctual((a + b[1..])[j], 1, gap)
  {
    assert (a + b[1..])[j] == a[j] && a[j] in a;
  }

  lemma Suffix(a: seq<State>, sa: seq<Step>, b: seq<State>, sb: seq<Step>, v: WorkerId, expiry: Time)
    requires |a| == |sa| + 1 && |b| == |sb| + 1 && a[|sa|] == b[0]
    ensures RefusalsIn(Run(a + b[1..], sa + sb), |sa|, |sa| + |sb|, v, expiry) == Refusals(b, sb, v, expiry)
  {
    assert (a + b[1..])[|sa|..|sa| + |sb| + 1] == b;
    assert (sa + sb)[|sa|..|sa| + |sb|] == sb;
  }

  /** A run that ends with the death of worker 1 at `t`, and what follows it. */
  ghost predicate Parts(cfg: Config, a: seq<State>, sa: seq<Step>, b: seq<State>, sb: seq<Step>,
                        t: Time, gap: Time, n: nat, delay: Time)
  {
    && Chain(cfg, a, sa) && IsInitial(a[0]) && AllPunctual(a, gap)
    && Waits(cfg, b, sb, gap, t + cfg.heartbeatTtl, n) && a[|sa|] == b[0]
    && 1 in b[0].procs && !b[0].procs[1].alive && b[0].now == t
    && b[0].procs[1].heartbeatAt == t && b[0].procs[1].checkedAt == Some(t)
    && 7 in b[|sb|].db.queue && b[|sb|].db.queue[7].owner == Some(1) && b[|sb|].now >= t + delay
  }

  lemma Assembled(cfg: Config, a: seq<State>, sa: seq<Step>, b: seq<State>, sb: seq<Step>,
                  t: Time, gap: Time, n: nat, delay: Time)
    requires Parts(cfg, a, sa, b, sb, t, gap, n, delay) && 0.0 <= gap
    ensures StillOwns(cfg, Run(a + b[1..], sa + sb), |sa|, |sa| + |sb|, 1, 2, gap, n, delay)
    ensures OrderlyRun(Run(a + b[1..], sa + sb))
    ensures (a + b[1..])[|sa|].procs[1].heartbeatAt == (a + b[1..])[|sa|].now
  {
    var states, i, k := a + b[1..], |sa|, |sa| + |sb|;
    Glue(cfg, a, sa, b, sb);
    ChainIsRun(cfg, states, sa + sb);
    Suffix(a, sa, b, sb, 2, t + cfg.heartbeatTtl);
    forall j | i <= j <= k ensures UpkeptWithin(states[j], 2, gap) {
      StaysAwake(a, b, gap, j);
    }
    forall j | 0 <= j <= i ensures Punctual(states[j], 1, gap) {
      StaysPunctual(a, b, gap, j);
    }
  }

  function Bound(cfg: Config, gap: Time, n: nat): Time {
    cfg.heartbeatTtl + (n + 1) as real * (cfg.maintenanceInterval * 1.5 + gap)
  }

  lemma Share(total: Time, m: nat) returns (share: Time)
    requires 0.0 < total && 1 <= m
    ensures 0.0 < share && Span(share, m) == total
  {
    share := total / m as real;
    SpanIs(share, m);
  }

  lemma OnePeriodMore(p: nat, len: nat)
    ensures (p + 1) * len == p * len + len
  {
  }

  lemma WholePeriods(q: nat, len: nat) returns (a: nat)
    requires 1 <= q
    ensures (a + len) % q == 0
  {
    var p := q - 1;
    a := p * len;
    OnePeriodMore(p, len);
    assert a + len == (p + 1) * len == q * len + 0;
    Remainder(q, len, 0);
  }

  lemma Fits(ttl: Time, x: Time, w: Time, d: Time, n: nat, len: nat, delay: Time)
    requires x <= w + d + d && ttl <= Span(d, len + 1)
    requires Span(d, 2 * n + 3) <= ttl + Span(x, n + 1) - delay
    ensures delay <= Span(d, len) + Span(w, n + 1)
  {
    Shortfall(w, x, d, n + 1);
    assert 2 * n + 3 == 2 * (n + 1) + 1;
    assert Span(d, 2 * (n + 1) + 1) == Span(d, 2 * (n + 1)) + d;
    assert Span(d, len + 1) == Span(d, len) + d;
  }

  /** The pauses, periods and jitter of a run that outlasts `delay`. */
  lemma Numbers(cfg: Config, gap: Time, n: nat, delay: Time) returns (d: Time, q: nat, k: nat, jitter: real, a: nat, len: nat)
    requires InTime(cfg, gap) && 0.0 < gap && 0.0 <= cfg.maintenanceInterval && delay < Bound(cfg, gap, n)
    ensures Period(cfg, d, q) && d <= gap && Late(cfg, d, k, jitter)
    ensures 1 <= len && (a + len) % q == 0 && Span(d, len) < cfg.heartbeatTtl
    ensures delay <= Span(d, len) + Span(Span(d, k - 1) + gap, n + 1)
  {
    var share := Share(Bound(cfg, gap, n) - delay, 2 * n + 3);
    d, q, k, jitter := Grid(cfg, if share <= gap then share else gap);
    SmallerSpan(d, share, 2 * n + 3);
    var top := Reaches(d, cfg.heartbeatTtl);
    len := LongestSpan(d, cfg.heartbeatTtl, top);
    a := WholePeriods(q, len);
    SpanIs(cfg.maintenanceInterval * 1.5 + gap, n + 1);
    Fits(cfg.heartbeatTtl, cfg.maintenanceInterval * 1.5 + gap, Span(d, k - 1) + gap, d, n, len, delay);
  }

  /** Up to the death of worker 1, which owns the message. */
  lemma UntilDeath(cfg: Config, gap: Time, d: Time, q: nat, a: nat)
    returns (states: seq<State>, steps: seq<Step>, e: nat, p1: Process, p2: Process, db: Db, position: nat)
    requires Period(cfg, d, q) && d <= gap && 0.0 <= cfg.maintenanceInterval && 0.0 <= cfg.heartbeatTtl && 0.0 <= Span(d, a)
    ensures Chain(cfg, states, steps) && IsInitial(states[0]) && AllPunctual(states, gap)
    ensures var t := 1.0 + Span(d, a);
            && states[|steps|] == Scene(t, p1, p2, db) && Holds(db, TakenAt(t, position), Some(t))
            && !p1.alive && p1.heartbeatAt == t && p1.checkedAt == Some(t)
    ensures NextAt(p2, 1.0, d, a, e) && e <= a + q && e % q == 0
  {
    var x, sx, y, sy, db0;
    x, sx, e, p2, db0 := Before(cfg, gap, d, q, a);
    position := db0.nextPosition;
    y, sy, p1, db := Dies(cfg, 1.0 + Span(d, a), p2, db0, gap);
    Glue(cfg, x, sx, y, sy);
    GluePunctual(x, y, gap);
    states, steps := x + y[1..], sx + sy;
  }

  /** The run with these numbers. */
  lemma RunWith(cfg: Config, gap: Time, n: nat, delay: Time, d: Time, q: nat, k: nat, jitter: real, a: nat, len: nat)
    returns (x: seq<State>, sx: seq<Step>, z: seq<State>, sz: seq<Step>, t: Time)
    requires Period(cfg, d, q) && d <= gap && Late(cfg, d, k, jitter) && 0.0 <= cfg.maintenanceInterval
    requires 1 <= len && (a + len) % q == 0 && 0.0 <= Span(d, a) && 0.0 <= Span(d, len) < cfg.heartbeatTtl
    requires delay <= Span(d, len) + Span(Span(d, k - 1) + gap, n + 1)
    ensures Parts(cfg, x, sx, z, sz, t, gap, n, delay)
  {
    t := 1.0 + Span(d, a);
    var e, p1, p2, db, position;
    x, sx, e, p1, p2, db, position := UntilDeath(cfg, gap, d, q, a);
    z, sz := After(cfg, gap, n, d, q, k, jitter, a, len, e, p1, p2, db, TakenAt(t, position), t + cfg.heartbeatTtl);
  }

  lemma SomeRun(cfg: Config, gap: Time, n: nat, delay: Time)
    returns (x: seq<State>, sx: seq<Step>, z: seq<State>, sz: seq<Step>, t: Time)
    requires InTime(cfg, gap) && 0.0 < gap && 0.0 <= cfg.maintenanceInterval && delay < Bound(cfg, gap, n)
    ensures Parts(cfg, x, sx, z, sz, t, gap, n, delay)
  {
    var d, q, k, jitter, a, len := Numbers(cfg, gap, n, delay);
    SpanGrows(d, 0, a);
    SpanGrows(d, 0, len);
    x, sx, z, sz, t := RunWith(cfg, gap, n, delay, d, q, k, jitter, a, len);
  }

  /** Any shorter delay is too short. */
  lemma Outlasts(cfg: Config, gap: Time, n: nat, delay: Time) returns (r: Run, i: nat, end: nat)
    requires InTime(cfg, gap) && 0.0 < gap && 0.0 <= cfg.maintenanceInterval && delay < Bound(cfg, gap, n)
    ensures StillOwns(cfg, r, i, end, 1, 2, gap, n, delay) && OrderlyRun(r) && r.states[i].procs[1].heartbeatAt == r.states[i].now
  {
    var x, sx, z, sz, t := SomeRun(cfg, gap, n, delay);
    Assembled(cfg, x, sx, z, sz, t, gap, n, delay);
    r, i, end := Run(x + z[1..], sx + sz), |sx|, |sx| + |sz|;
  }

  lemma {:induction false} LaterDeadline(cfg: Config, gap: Time, expiry: Time, m: nat, n: nat)
    requires m <= n && 0.0 <= cfg.maintenanceInterval && 0.0 <= gap
    ensures Deadline(cfg, gap, expiry, m) <= Deadline(cfg, gap, expiry, n)
  {
    if m < n {
      LaterDeadline(cfg, gap, expiry, m, n - 1);
    }
  }

  lemma LongEnough(cfg: Config, gap: Time, n: nat, delay: Time, r: Run, i: nat, k: nat, w: WorkerId, v: WorkerId)
    requires InTime(cfg, gap) && 0.0 <= cfg.maintenanceInterval && delay >= Bound(cfg, gap, n)
    requires Recovering(cfg, r, i, k, w, v, gap) && RefusalsIn(r, i, k, v, Expiry(cfg, r.states[i], w)) <= n
    requires r.states[k].now >= r.states[i].procs[w].heartbeatAt + delay
    ensures OwnsNone(r.states[k], w)
  {
    var expiry := Expiry(cfg, r.states[i], w);
    var m := RefusalsIn(r, i, k, v, expiry);
    DeadlineIs(cfg, gap, expiry, n + 1);
    assert r.states[k].now >= Deadline(cfg, gap, expiry, n + 1);
    LaterDeadline(cfg, gap, expiry, m + 1, n + 1);
    CrashRecovery(cfg, r, i, k, w, v, gap, m);
  }

  lemma Enough(cfg: Config, gap: Time, n: nat, delay: Time, r: Run, i: nat, k: nat, w: WorkerId, v: WorkerId)
    requires InTime(cfg, gap) && 0.0 <= cfg.maintenanceInterval && delay >= Bound(cfg, gap, n)
    ensures !StillOwns(cfg, r, i, k, w, v, gap, n, delay)
  {
    if StillOwns(cfg, r, i, k, w, v, gap, n, delay) {
      LongEnough(cfg, gap, n, delay, r, i, k, w, v);
    }
  }

  /** A delay is long enough for every such run exactly when it reaches the bound, be it in any run or in
      those without errors. */
  lemma CrashRecoveryIff(cfg: Config, gap: Time, n: nat, delay: Time)
    requires InTime(cfg, gap) && 0.0 < gap && 0.0 <= cfg.maintenanceInterval
    ensures delay >= Bound(cfg, gap, n) <==>
              forall r, i, k, w, v :: !StillOwns(cfg, r, i, k, w, v, gap, n, delay)
    ensures delay >= Bound(cfg, gap, n) <==>
              forall r, i, k, w, v :: OrderlyRun(r) ==> !StillOwns(cfg, r, i, k, w, v, gap, n, delay)
  {
    if delay >= Bound(cfg, gap, n) {
      forall r, i, k, w, v ensures !StillOwns(cfg, r, i, k, w, v, gap, n, delay) {
        Enough(cfg, gap, n, delay, r, i, k, w, v);
      }
    } else {
      var r, i, k := Outlasts(cfg, gap, n, delay);
      assert StillOwns(cfg, r, i, k, 1, 2, gap, n, delay);
    }
  }

  /** The documented promise, that the TTL is long enough, fails even with no refusal, and even for a
      worker that dies at the very instant of its last heartbeat. */
  lemma TtlIsTooShort(cfg: Config, gap: Time) returns (r: Run, i: nat, k: nat)
    requires InTime(cfg, gap) && 0.0 < gap && 0.0 <= cfg.maintenanceInterval
    ensures StillOwns(cfg, r, i, k, 1, 2, gap, 0, cfg.heartbeatTtl) && OrderlyRun(r)
    ensures r.states[i].procs[1].heartbeatAt == r.states[i].now && r.states[k].now >= r.states[i].now + cfg.heartbeatTtl
  {
    r, i, k := Outlasts(cfg, gap, 0, cfg.heartbeatTtl);
  }
}
