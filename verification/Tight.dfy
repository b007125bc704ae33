/** The timing conditions of `NoFalseReaping` and `NoOrphanOwners` are exact: whenever one does not
    hold, there is a run without any error, with calls close enough together, in which a live worker
    loses a row to a reap, or one in which a consumed row is left without a registered owner. */
module Tight {
  import opened Wrappers
  import opened Tables
  import opened Machine
  import opened Timing
  import opened Stage

  // ----- The condition of NoFalseReaping is exact

  // Worker 1 has been handed the message, and its prefetch is full.
  function Busy(): Consumer { Free(1).(inProcessing := {7}) }

  // What the tables hold while it processes the message.
  function Taken(): Db {
    Db(map[7 := ClaimedRow(Enqueued(1.0, 1), 1, 1.0)], map[1 := 1.0], map[], 2)
  }

  /** Worker 1 at rest, with its first heartbeat at 1.0 and its last check at `t`. */
  predicate Rests(p: Process, t: Time, c: Consumer) {
    p.alive && p.heartbeatAt == 1.0 && p.checkedAt == Some(t) && p.consumers == map[QUEUE := c]
  }

  /** Worker 1 makes its first call, without getting the lock, and gets the message if it is there. */
  lemma FirstLook(cfg: Config, db: Db, gap: Time) returns (states: seq<State>, steps: seq<Step>, p: Process)
    requires 0.0 <= gap
    ensures Chain(cfg, states, steps) && AllPunctual(states, gap) && Prompt(states, steps, gap)
    ensures states[0] == Scene(1.0, Fresh(1), Fresh(1), db)
    ensures states[|steps|] == Scene(1.0, p, Fresh(1), db.(workers := db.workers[1 := 1.0]))
    ensures Rests(p, 1.0, Free(1).(phase := Maintained))
  {
    Looks(cfg, 1, 1.0, 0.0, Fresh(1), Fresh(1), db, Free(1), false, 1.0);
    LooksPunctual(cfg, 1, 1.0, 0.0, Fresh(1), Fresh(1), db, Free(1), false, 1.0, gap);
    p := Looked(cfg, 1.0, Fresh(1), Free(1), 1.0);
    states, steps := LookStates(cfg, 1, 1.0, 0.0, Fresh(1), Fresh(1), db, Free(1), false, 1.0), LookSteps(1, 0.0, false, 1.0);
  }

  /** The message is enqueued, and worker 1 takes it. */
  lemma Claimed(cfg: Config, gap: Time) returns (states: seq<State>, steps: seq<Step>, p: Process)
    requires 0.0 <= gap
    ensures Chain(cfg, states, steps) && AllPunctual(states, gap)
    ensures states[0] == Scene(1.0, Fresh(1), Fresh(1), EMPTY_DB)
    ensures states[|steps|] == Scene(1.0, p, Fresh(1), Taken()) && Rests(p, 1.0, Busy())
  {
    var db := EMPTY_DB.(queue := map[7 := Enqueued(1.0, 1)], nextPosition := 2);
    var db1 := db.(workers := db.workers[1 := 1.0]);
    Enqueues(cfg, 1.0, Fresh(1), Fresh(1), EMPTY_DB);
    var a, sa := [Scene(1.0, Fresh(1), Fresh(1), EMPTY_DB), Scene(1.0, Fresh(1), Fresh(1), db)], [Step.Enqueue(MESSAGE, 0)];
    var b, sb, q := FirstLook(cfg, db, gap);
    var c, sc := Takes(cfg, 1, 1.0, q, Fresh(1), db1, Free(1), Enqueued(1.0, 1));
    StillPunctual(c, 1, 1.0, q.checkedAt, q.upkeptAt, Fresh(1), gap);
    Glue(cfg, a, sa, b, sb);
    GluePunctual(a, b, gap);
    Glue(cfg, a + b[1..], sa + sb, c, sc);
    GluePunctual(a + b[1..], c, gap);
    p := q.(consumers := map[QUEUE := Busy()]);
    assert db1.(queue := map[7 := ClaimedRow(Enqueued(1.0, 1), 1, 1.0)]) == Taken();
    states, steps := a + b[1..] + c[1..], sa + sb + sc;
  }

  /** Worker 1 calls again, while no heartbeat is due and its prefetch is full: nothing changes. */
  lemma QuietCall(cfg: Config, t: Time, d: Time, gap: Time, p: Process) returns (states: seq<State>, steps: seq<Step>, p': Process)
    requires 0.0 <= d <= gap && t + d < 1.0 + cfg.heartbeatInterval && Rests(p, t, Busy())
    ensures Chain(cfg, states, steps) && AllPunctual(states, gap)
    ensures states[0] == Scene(t, p, Fresh(1), Taken())
    ensures states[|steps|] == Scene(t + d, p', Fresh(1), Taken()) && Rests(p', t + d, Busy())
  {
    var q := Looked(cfg, t + d, p, Busy(), 1.0);
    var a, sa := LookStates(cfg, 1, t, d, p, Fresh(1), Taken(), Busy(), false, 1.0), LookSteps(1, d, false, 1.0);
    Looks(cfg, 1, t, d, p, Fresh(1), Taken(), Busy(), false, 1.0);
    LooksPunctual(cfg, 1, t, d, p, Fresh(1), Taken(), Busy(), false, 1.0, gap);
    var b, sb := FindsFull(cfg, 1, t + d, q, Fresh(1), Taken(), Busy());
    StillPunctual(b, 1, t + d, q.checkedAt, q.upkeptAt, Fresh(1), gap);
    Glue(cfg, a, sa, b, sb);
    GluePunctual(a, b, gap);
    p' := q.(consumers := map[QUEUE := Busy()]);
    states, steps := a + b[1..], sa + sb;
  }

  /** So it goes on, n times, as long as its first heartbeat is younger than the interval. */
  lemma {:induction false} QuietCalls(cfg: Config, d: Time, gap: Time, n: nat, p: Process)
    returns (states: seq<State>, steps: seq<Step>, p': Process)
    requires 0.0 <= d <= gap && (n == 0 || Span(d, n) < cfg.heartbeatInterval) && Rests(p, 1.0, Busy())
    ensures Chain(cfg, states, steps) && AllPunctual(states, gap)
    ensures states[0] == Scene(1.0, p, Fresh(1), Taken())
    ensures states[|steps|] == Scene(1.0 + Span(d, n), p', Fresh(1), Taken()) && Rests(p', 1.0 + Span(d, n), Busy())
  {
    if n == 0 {
      states, steps, p' := [Scene(1.0, p, Fresh(1), Taken())], [], p;
    } else {
      SpanGrows(d, 0, n - 1);
      var a, sa, q := QuietCalls(cfg, d, gap, n - 1, p);
      assert 1.0 + Span(d, n - 1) + d == 1.0 + Span(d, n);
      var b, sb;
      b, sb, p' := QuietCall(cfg, 1.0 + Span(d, n - 1), d, gap, q);
      Glue(cfg, a, sa, b, sb);
      GluePunctual(a, b, gap);
      states, steps := a + b[1..], sa + sb;
    }
  }

  lemma ReapsIt(cfg: Config, now: Time)
    requires 1.0 + cfg.heartbeatTtl <= now
    ensures var db := LookedDb(cfg, 2, now, Fresh(1), true, Taken()); 7 in db.queue && db.queue[7].owner == None
  {
    var db := CheckedDb(cfg, 2, now, Fresh(1), Taken());
    assert db.workers[1] == 1.0;
    assert ReapMatches(db.queue[7], db.workers, now, cfg.heartbeatTtl);
    var reaped := Reap(db.queue, db.workers, now, cfg.heartbeatTtl);
    assert reaped[7].state == Queued && reaped[7].owner == None;
  }

  /** A gap after the last check of worker 1, worker 2 makes its first call. */
  lemma Reaped(cfg: Config, t: Time, gap: Time, p: Process) returns (states: seq<State>, steps: seq<Step>)
    requires 0.0 <= gap && 1.0 + cfg.heartbeatTtl <= t + gap && Rests(p, t, Busy())
    ensures Chain(cfg, states, steps) && |steps| == 3 && steps[2] == MaintenanceCheck(2, QUEUE, true, 1.0)
    ensures states[0] == Scene(t, p, Fresh(1), Taken())
    ensures AllPunctual(states, gap) && CalledWithin(states[2], 1, gap) && states[2].procs[1].alive
    ensures states[2].db.queue == Taken().queue && 7 in states[3].db.queue && states[3].db.queue[7].owner == None
  {
    Looks(cfg, 2, t, gap, Fresh(1), p, Taken(), Free(1), true, 1.0);
    LooksPunctual(cfg, 2, t, gap, Fresh(1), p, Taken(), Free(1), true, 1.0, gap);
    ReapsIt(cfg, t + gap);
    states, steps := LookStates(cfg, 2, t, gap, Fresh(1), p, Taken(), Free(1), true, 1.0), LookSteps(2, gap, true, 1.0);
  }

  /** Row `id` is owned by the live worker `w`, which has called at most `gap` apart, and step k takes it away. */
  ghost predicate LosesRow(r: Run, k: nat, w: WorkerId, id: MessageId, gap: Time) {
    && k < |r.steps| && |r.states| == |r.steps| + 1 && r.steps[k].MaintenanceCheck?
    && (forall j | 0 <= j <= k :: Punctual(r.states[j], w, gap))
    && CalledWithin(r.states[k], w, gap) && r.states[k].procs[w].alive
    && id in r.states[k].db.queue && r.states[k].db.queue[id].owner == Some(w)
    && Look(r.states[k + 1].db.queue, id) != Some(r.states[k].db.queue[id])
  }

  lemma DividedBy(total: Time, gap: Time, n: nat)
    requires 0.0 <= total && 0.0 < gap && 1 <= n && total / gap <= n as real
    ensures 0.0 <= total / n as real <= gap && n as real * (total / n as real) == total
  {
    var x := n as real;
    assert total == (total / gap) * gap;
    assert (total / gap) * gap <= x * gap;
    assert (total / x) * x == total;
  }

  /** Steps of at most `gap` that add up to `total`. */
  lemma Divided(total: Time, gap: Time) returns (d: Time, n: nat)
    requires 0.0 <= total && 0.0 < gap
    ensures 0.0 <= d <= gap && Span(d, n) == total && (total == 0.0 ==> n == 0)
  {
    if total == 0.0 {
      d, n := 0.0, 0;
    } else {
      n := (total / gap).Floor + 1;
      d := total / n as real;
      DividedBy(total, gap, n);
      SpanIs(d, n);
    }
  }

  lemma UpToReaping(cfg: Config, gap: Time, d: Time, n: nat) returns (states: seq<State>, steps: seq<Step>, p: Process)
    requires 0.0 <= d <= gap && (n == 0 || Span(d, n) < cfg.heartbeatInterval)
    ensures Chain(cfg, states, steps) && AllPunctual(states, gap) && IsInitial(states[0])
    ensures states[|steps|] == Scene(1.0 + Span(d, n), p, Fresh(1), Taken()) && Rests(p, 1.0 + Span(d, n), Busy())
  {
    var a, sa := Opened(cfg, 1);
    var b, sb, q := Claimed(cfg, gap);
    var c, sc;
    c, sc, p := QuietCalls(cfg, d, gap, n, q);
    Glue(cfg, a, sa, b, sb);
    GluePunctual(a, b, gap);
    Glue(cfg, a + b[1..], sa + sb, c, sc);
    GluePunctual(a + b[1..], c, gap);
    states, steps := a + b[1..] + c[1..], sa + sb + sc;
  }

  lemma Loses(a: seq<State>, sa: seq<Step>, e: seq<State>, se: seq<Step>, gap: Time)
    requires |a| == |sa| + 1 && |se| == 3 && |e| == 4 && a[|sa|] == e[0] && AllPunctual(a, gap) && AllPunctual(e, gap)
    requires se[2].MaintenanceCheck? && CalledWithin(e[2], 1, gap) && e[2].procs[1].alive
    requires e[2].db.queue == Taken().queue && 7 in e[3].db.queue && e[3].db.queue[7].owner == None
    ensures LosesRow(Run(a + e[1..], sa + se), |sa| + 2, 1, 7, gap)
  {
    var states := a + e[1..];
    GluePunctual(a, e, gap);
    forall j | 0 <= j <= |sa| + 2 ensures Punctual(states[j], 1, gap) {
      assert states[j] in states;
    }
    assert states[|sa| + 2] == e[2] && states[|sa| + 3] == e[3];
  }

  lemma FalseReaping(cfg: Config, gap: Time) returns (r: Run, k: nat)
    requires 0.0 <= cfg.heartbeatInterval && 0.0 < gap && !InTime(cfg, gap)
    ensures IsReachable(cfg, r) && OrderlyRun(r) && LosesRow(r, k, 1, 7, gap)
  {
    var idle := if cfg.heartbeatTtl <= gap then 0.0 else cfg.heartbeatTtl - gap;
    var d, n := Divided(idle, gap);
    var a, sa, p := UpToReaping(cfg, gap, d, n);
    var e, se := Reaped(cfg, 1.0 + Span(d, n), gap, p);
    Glue(cfg, a, sa, e, se);
    ChainIsRun(cfg, a + e[1..], sa + se);
    r, k := Run(a + e[1..], sa + se), |sa| + 2;
    Loses(a, sa, e, se, gap);
  }

  /** Exactly when no live worker that calls at most `gap` apart can lose a row, be it in any run or in
      those without errors. */
  lemma NoFalseReapingIff(cfg: Config, gap: Time)
    requires 0.0 <= cfg.heartbeatInterval && 0.0 < gap
    ensures InTime(cfg, gap) <==>
              forall r, k, w, id :: IsReachable(cfg, r) ==> !LosesRow(r, k, w, id, gap)
    ensures InTime(cfg, gap) <==>
              forall r, k, w, id :: IsReachable(cfg, r) && OrderlyRun(r) ==> !LosesRow(r, k, w, id, gap)
  {
    if InTime(cfg, gap) {
      forall r, k: nat, w, id | IsReachable(cfg, r) && k < |r.steps| && r.steps[k].MaintenanceCheck? && CalledWithin(r.states[k], w, gap)
        ensures !LosesRow(r, k, w, id, gap)
      {
        NoFalseReaping(cfg, r, k, w, gap);
      }
    } else {
      var r, k := FalseReaping(cfg, gap);
      assert LosesRow(r, k, 1, 7, gap);
    }
  }

  // ----- The condition of NoOrphanOwners is exact, too

  function Idle1(): Db { EMPTY_DB.(workers := map[1 := 1.0]) }

  function Pending1(): Db { Idle1().(queue := map[7 := Enqueued(1.0, 1)], nextPosition := 2) }

  lemma StillPrompt(states: seq<State>, steps: seq<Step>, w: WorkerId, now: Time, p: Process, o: Process, gap: Time)
    requires |states| == |steps| + 1 && OnStage(w) && Still(states, w, now, p.checkedAt, p.upkeptAt, o) && p.checkedAt == Some(now)
    requires 0.0 <= gap && forall a | a in steps && a.Claim? :: a.w == w
    ensures Prompt(states, steps, gap)
  {
    forall i {:trigger steps[i]} | 0 <= i < |steps| ensures PromptClaim(states[i], steps[i], gap) {
      assert Stays(states[i], w, now, p.checkedAt, p.upkeptAt, o);
      assert steps[i] in steps;
    }
  }

  /** Worker 1 calls at 1.0 and finds nothing; then the message is enqueued. */
  lemma Missed(cfg: Config, gap: Time) returns (states: seq<State>, steps: seq<Step>, p: Process)
    requires 0.0 <= gap
    ensures Chain(cfg, states, steps) && Prompt(states, steps, gap)
    ensures states[0] == Scene(1.0, Fresh(1), Fresh(1), EMPTY_DB)
    ensures states[|steps|] == Scene(1.0, p, Fresh(1), Pending1()) && Rests(p, 1.0, Free(1))
  {
    var a, sa, q := FirstLook(cfg, EMPTY_DB, gap);
    assert EMPTY_DB.(workers := EMPTY_DB.workers[1 := 1.0]) == Idle1();
    var b, sb := FindsNothing(cfg, 1, 1.0, q, Fresh(1), Idle1(), Free(1));
    p := q.(consumers := map[QUEUE := Free(1)]);
    Enqueues(cfg, 1.0, p, Fresh(1), Idle1());
    var c, sc := [Scene(1.0, p, Fresh(1), Idle1()), Scene(1.0, p, Fresh(1), Pending1())], [Step.Enqueue(MESSAGE, 0)];
    StillPrompt(b, sb, 1, 1.0, q, Fresh(1), gap);
    Glue(cfg, a, sa, b, sb);
    GluePrompt(a, sa, b, sb, gap);
    Glue(cfg, a + b[1..], sa + sb, c, sc);
    GluePrompt(a + b[1..], sa + sb, c, sc, gap);
    states, steps := a + b[1..] + c[1..], sa + sb + sc;
  }

  /** After a pause it starts a call that finds no heartbeat due, and is about to claim. */
  lemma AboutToClaim(cfg: Config, idle: Time, gap: Time, p: Process) returns (states: seq<State>, steps: seq<Step>, p': Process)
    requires 0.0 <= idle && (idle == 0.0 || idle < cfg.heartbeatInterval) && Rests(p, 1.0, Free(1))
    ensures Chain(cfg, states, steps) && Prompt(states, steps, gap)
    ensures states[0] == Scene(1.0, p, Fresh(1), Pending1())
    ensures states[|steps|] == Scene(1.0 + idle, p', Fresh(1), Pending1()) && Rests(p', 1.0 + idle, Free(1).(phase := Claiming(1)))
  {
    var now, q := 1.0 + idle, Looked(cfg, 1.0 + idle, p, Free(1), 1.0);
    var a, sa := LookStates(cfg, 1, 1.0, idle, p, Fresh(1), Pending1(), Free(1), false, 1.0), LookSteps(1, idle, false, 1.0);
    Looks(cfg, 1, 1.0, idle, p, Fresh(1), Pending1(), Free(1), false, 1.0);
    assert Pending1().workers[1 := 1.0] == Pending1().workers;
    p' := q.(consumers := map[QUEUE := Free(1).(phase := Claiming(1))]);
    Decides(cfg, 1, now, q, Fresh(1), Pending1(), Free(1).(phase := Maintained));
    var b, sb := [Scene(now, q, Fresh(1), Pending1()), Scene(now, p', Fresh(1), Pending1())], [Decide(1, QUEUE)];
    Glue(cfg, a, sa, b, sb);
    states, steps := a + b[1..], sa + sb;
  }

  lemma QueueUntouched(cfg: Config, now: Time)
    requires cfg.collect && 1.0 < now - cfg.heartbeatTtl * 5.0
    ensures var db := LookedDb(cfg, 2, now, Fresh(1), true, Pending1()); db.queue == Pending1().queue && 1 !in db.workers
  {
    var db := CheckedDb(cfg, 2, now, Fresh(1), Pending1());
    assert db.workers[1] == 1.0;
    var reaped := Reap(db.queue, db.workers, now, cfg.heartbeatTtl);
    assert reaped == Pending1().queue;
    if cfg.purgeMaxAge.Some? {
      assert Purge(reaped, now, cfg.purgeMaxAge.value) == Pending1().queue;
    }
  }

  /** Worker 2 cleans the row of worker 1 away while worker 1 is about to claim. */
  lemma Orphaned(cfg: Config, t: Time, gap: Time, p: Process) returns (states: seq<State>, steps: seq<Step>)
    requires 1.0 <= t && 0.0 <= gap && 1.0 + cfg.heartbeatTtl * 5.0 < t + gap && cfg.collect
    requires Rests(p, t, Free(1).(phase := Claiming(1)))
    ensures Chain(cfg, states, steps) && states[0] == Scene(t, p, Fresh(1), Pending1()) && Prompt(states, steps, gap)
    ensures !OwnersRegistered(states[|steps|])
  {
    var now, row := t + gap, Enqueued(1.0, 1);
    var p2, db := Looked(cfg, now, Fresh(1), Free(1), 1.0), LookedDb(cfg, 2, now, Fresh(1), true, Pending1());
    var a, sa := LookStates(cfg, 2, t, gap, Fresh(1), p, Pending1(), Free(1), true, 1.0), LookSteps(2, gap, true, 1.0);
    Looks(cfg, 2, t, gap, Fresh(1), p, Pending1(), Free(1), true, 1.0);
    QueueUntouched(cfg, now);
    ClaimsOne(cfg, 1, now, p, p2, db, Free(1).(phase := Claiming(1)), row);
    var s4 := Scene(now, p.(consumers := map[QUEUE := Free(1).(buffer := [] + [MESSAGE], phase := Popping)]), p2,
                    db.(queue := map[7 := ClaimedRow(row, 1, now)]));
    var b, sb := [Scene(now, p, p2, db), s4], [Step.Claim(1, QUEUE, [7], now)];
    Glue(cfg, a, sa, b, sb);
    GluePrompt(a, sa, b, sb, gap);
    assert 7 in s4.db.queue && s4.db.queue[7].owner == Some(1);
    states, steps := a + b[1..], sa + sb;
  }

  lemma OrphanRun(cfg: Config, gap: Time) returns (r: Run)
    requires 0.0 <= cfg.heartbeatInterval && 0.0 <= gap && cfg.collect
    requires cfg.heartbeatInterval + gap > cfg.heartbeatTtl * 5.0
    ensures IsReachable(cfg, r) && OrderlyRun(r) && Prompt(r.states, r.steps, gap) && !OwnersRegistered(r.states[|r.steps|])
  {
    var idle := if cfg.heartbeatTtl * 5.0 < gap then 0.0 else (cfg.heartbeatTtl * 5.0 - gap + cfg.heartbeatInterval) / 2.0;
    var a, sa := Opened(cfg, 1);
    var b, sb, p := Missed(cfg, gap);
    var c, sc, p' := AboutToClaim(cfg, idle, gap, p);
    var d, sd := Orphaned(cfg, 1.0 + idle, gap, p');
    Glue(cfg, a, sa, b, sb);
    GluePrompt(a, sa, b, sb, gap);
    Glue(cfg, a + b[1..], sa + sb, c, sc);
    GluePrompt(a + b[1..], sa + sb, c, sc, gap);
    Glue(cfg, a + b[1..] + c[1..], sa + sb + sc, d, sd);
    GluePrompt(a + b[1..] + c[1..], sa + sb + sc, d, sd, gap);
    r := Run(a + b[1..] + c[1..] + d[1..], sa + sb + sc + sd);
    ChainIsRun(cfg, r.states, r.steps);
  }

  /** Exactly when prompt claims never leave a consumed row without a registered owner, be it in any run
      or in those without errors. */
  lemma NoOrphanOwnersIff(cfg: Config, gap: Time)
    requires 0.0 <= cfg.heartbeatInterval && 0.0 <= gap && cfg.collect
    ensures cfg.heartbeatInterval + gap <= cfg.heartbeatTtl * 5.0 <==>
              forall r, k :: IsReachable(cfg, r) && Prompt(r.states, r.steps, gap) && 0 <= k < |r.states| ==> OwnersRegistered(r.states[k])
    ensures cfg.heartbeatInterval + gap <= cfg.heartbeatTtl * 5.0 <==>
              forall r, k :: IsReachable(cfg, r) && OrderlyRun(r) && Prompt(r.states, r.steps, gap) && 0 <= k < |r.states| ==>
                OwnersRegistered(r.states[k])
  {
    if cfg.heartbeatInterval + gap <= cfg.heartbeatTtl * 5.0 {
      forall r, k | IsReachable(cfg, r) && Prompt(r.states, r.steps, gap) && 0 <= k < |r.states| ensures OwnersRegistered(r.states[k]) {
        assert forall i | 0 <= i < k :: PromptClaim(r.states[i], r.steps[i], gap);
        NoOrphanOwners(cfg, r, k, gap);
      }
    } else {
      var r := OrphanRun(cfg, gap);
      assert !OwnersRegistered(r.states[|r.steps|]);
    }
  }
}
