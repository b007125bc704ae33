/** Heartbeats, reaping and recovery in time.  The hypothesis on a worker is always that it calls
    `__next__` at most `gap` apart, that is, that its last check is never older than `gap`. */
module Timing {
  import opened Wrappers
  import opened Tables
  import opened Machine
  import opened Rows
  import opened Backpressure

  // ----- What the memory of a process says about its worker row

  /** The heartbeat a process remembers is the one in its worker row, is younger than the interval at
      every check, and the row is gone only once it is older than five times the TTL. */
  predicate BeatOk(cfg: Config, s: State, w: WorkerId)
    requires w in s.procs
  {
    var p := s.procs[w];
    match p.checkedAt
    case None => p.heartbeatAt == 0.0 && w !in s.db.workers
    case Some(checked) =>
      && p.heartbeatAt <= checked <= s.now
      && (checked == p.heartbeatAt || checked - p.heartbeatAt < cfg.heartbeatInterval)
      && (w in s.db.workers ==> s.db.workers[w] == p.heartbeatAt)
      && (s.now - p.heartbeatAt <= cfg.heartbeatTtl * 5.0 ==> w in s.db.workers)
  }

  /** A consumer inside a call has run the heartbeat check of that call. */
  predicate PhaseOk(p: Process, q: string)
    requires q in p.consumers
  {
    p.consumers[q].phase != Idle ==> p.checkedAt.Some?
  }

  /** The next maintenance of a process is at most one and a half intervals away. */
  predicate UpkeepOk(cfg: Config, s: State, p: Process) {
    match p.upkeptAt
    case None => p.maintenanceAt == 0.0
    case Some(upkept) => upkept <= s.now && p.maintenanceAt <= s.now + cfg.maintenanceInterval * 1.5
  }

  ghost predicate Timely(cfg: Config, s: State) {
    && (forall w | w in s.procs :: BeatOk(cfg, s, w))
    && (forall w | w in s.db.workers :: w in s.procs)
    && (forall w, q | w in s.procs && q in s.procs[w].consumers :: PhaseOk(s.procs[w], q))
  }

  /** The only deletion of worker rows takes those whose heartbeat is older than five times the TTL. */
  lemma WorkersAfterMaintenance(cfg: Config, s: State, a: Step, w: WorkerId)
    requires Enabled(s, a) && a.MaintenanceCheck?
    ensures var workers' := Apply(cfg, s, a).db.workers;
            && (w in workers' ==> w in s.db.workers && workers'[w] == s.db.workers[w])
            && (w in s.db.workers && w !in workers' ==> s.db.workers[w] < s.now - cfg.heartbeatTtl * 5.0)
  {
  }

  lemma BeatOkAtHeartbeat(cfg: Config, s: State, a: Step, w: WorkerId)
    requires Enabled(s, a) && a.HeartbeatCheck? && w in s.procs && BeatOk(cfg, s, w)
    ensures w in Apply(cfg, s, a).procs && BeatOk(cfg, Apply(cfg, s, a), w)
  {
  }

  lemma BeatOkAtMaintenance(cfg: Config, s: State, a: Step, w: WorkerId)
    requires Enabled(s, a) && a.MaintenanceCheck? && w in s.procs && BeatOk(cfg, s, w)
    ensures w in Apply(cfg, s, a).procs && BeatOk(cfg, Apply(cfg, s, a), w)
  {
    WorkersAfterMaintenance(cfg, s, a, w);
  }

  lemma BeatOkAtStart(cfg: Config, s: State, a: Step)
    requires Enabled(s, a) && a.StartWorker? && a.w !in s.db.workers
    ensures a.w in Apply(cfg, s, a).procs && BeatOk(cfg, Apply(cfg, s, a), a.w)
  {
  }

  /** No other step touches a heartbeat, in memory or in the table. */
  lemma BeatUntouched(cfg: Config, s: State, a: Step, w: WorkerId)
    requires Enabled(s, a) && !a.HeartbeatCheck? && !a.MaintenanceCheck? && w in s.procs
    ensures var s' := Apply(cfg, s, a);
            && s.now <= s'.now && s'.db.workers == s.db.workers && w in s'.procs
            && s'.procs[w].heartbeatAt == s.procs[w].heartbeatAt && s'.procs[w].checkedAt == s.procs[w].checkedAt
  {
  }

  lemma NewProcess(cfg: Config, s: State, a: Step, w: WorkerId)
    requires Enabled(s, a) && w !in s.procs && w in Apply(cfg, s, a).procs
    ensures a == StartWorker(w)
  {
  }

  lemma BeatOkStep(cfg: Config, s: State, a: Step, w: WorkerId)
    requires Enabled(s, a) && Timely(cfg, s) && w in Apply(cfg, s, a).procs
    ensures BeatOk(cfg, Apply(cfg, s, a), w)
  {
    if w !in s.procs {
      NewProcess(cfg, s, a, w);
      BeatOkAtStart(cfg, s, a);
    } else {
      assert BeatOk(cfg, s, w);
      if a.HeartbeatCheck? {
        BeatOkAtHeartbeat(cfg, s, a, w);
      } else if a.MaintenanceCheck? {
        BeatOkAtMaintenance(cfg, s, a, w);
      } else {
        BeatUntouched(cfg, s, a, w);
      }
    }
  }

  lemma PhaseOkStep(cfg: Config, s: State, a: Step, w: WorkerId, q: string)
    requires Enabled(s, a) && Timely(cfg, s)
    requires w in Apply(cfg, s, a).procs && q in Apply(cfg, s, a).procs[w].consumers
    ensures PhaseOk(Apply(cfg, s, a).procs[w], q)
  {
    if w in s.procs && q in s.procs[w].consumers {
      assert PhaseOk(s.procs[w], q);
    }
  }

  lemma WorkersKnownStep(cfg: Config, s: State, a: Step, w: WorkerId)
    requires Enabled(s, a) && Timely(cfg, s) && w in Apply(cfg, s, a).db.workers
    ensures w in Apply(cfg, s, a).procs
  {
  }

  lemma TimelyStep(cfg: Config, s: State, a: Step)
    requires Enabled(s, a) && Timely(cfg, s)
    ensures Timely(cfg, Apply(cfg, s, a))
  {
    var s' := Apply(cfg, s, a);
    forall w | w in s'.procs ensures BeatOk(cfg, s', w) {
      BeatOkStep(cfg, s, a, w);
    }
    forall w | w in s'.db.workers ensures w in s'.procs {
      WorkersKnownStep(cfg, s, a, w);
    }
    forall w, q | w in s'.procs && q in s'.procs[w].consumers ensures PhaseOk(s'.procs[w], q) {
      PhaseOkStep(cfg, s, a, w, q);
    }
  }

  lemma {:induction false} TimelyAlways(cfg: Config, r: Run, k: nat)
    requires IsReachable(cfg, r) && k < |r.states|
    ensures Timely(cfg, r.states[k])
  {
    if k > 0 {
      TimelyAlways(cfg, r, k - 1);
      TimelyStep(cfg, r.states[k - 1], r.steps[k - 1]);
    }
  }

  // ----- No false reaping

  /** The last call of `w` is at most `gap` old. */
  predicate CalledWithin(s: State, w: WorkerId, gap: Time) {
    w in s.procs && s.procs[w].checkedAt.Some? && s.now <= s.procs[w].checkedAt.value + gap
  }

  /** It is so if it has called at all: in every state of a run, this is calling at most `gap` apart. */
  predicate Punctual(s: State, w: WorkerId, gap: Time) {
    w in s.procs && s.procs[w].checkedAt.Some? ==> CalledWithin(s, w, gap)
  }

  /** How far apart calls may be for heartbeats to arrive in time. */
  predicate InTime(cfg: Config, gap: Time) {
    && 0.0 <= cfg.heartbeatInterval && 0.0 <= gap
    && cfg.heartbeatInterval + gap <= cfg.heartbeatTtl
    && (0.0 < cfg.heartbeatInterval || gap < cfg.heartbeatTtl)
  }

  lemma FreshHeartbeat(cfg: Config, s: State, w: WorkerId, gap: Time)
    requires Timely(cfg, s) && InTime(cfg, gap) && CalledWithin(s, w, gap)
    ensures w in s.db.workers && s.db.workers[w] > s.now - cfg.heartbeatTtl
  {
    assert BeatOk(cfg, s, w);
  }

  /** While a worker calls at most `gap` apart, no maintenance of any process touches a row it owns,
      nor deletes its worker row. */
  lemma NoFalseReaping(cfg: Config, r: Run, k: nat, w: WorkerId, gap: Time)
    requires IsReachable(cfg, r) && k < |r.steps| && r.steps[k].MaintenanceCheck?
    requires InTime(cfg, gap) && CalledWithin(r.states[k], w, gap)
    ensures w in r.states[k + 1].db.workers
    ensures forall id | id in r.states[k].db.queue && r.states[k].db.queue[id].owner == Some(w) ::
              Look(r.states[k + 1].db.queue, id) == Some(r.states[k].db.queue[id])
  {
    var s, a := r.states[k], r.steps[k];
    assert Follows(cfg, s, a, r.states[k + 1]);
    TimelyAlways(cfg, r, k);
    WellFormedAlways(cfg, r, k);
    FreshHeartbeat(cfg, s, w, gap);
    WorkersAfterMaintenance(cfg, s, a, w);
    forall id | id in s.db.queue && s.db.queue[id].owner == Some(w)
      ensures Look(r.states[k + 1].db.queue, id) == Some(s.db.queue[id])
    {
      assert RowOk(id, s.db.queue[id], s.now, s.db.nextPosition);
      StepIsRowwise(cfg, s, a, id);
    }
  }

  // ----- No orphan owners

  /** A claim comes at most `gap` after the last heartbeat check of its process. */
  predicate PromptClaim(s: State, a: Step, gap: Time) {
    a.Claim? ==> CalledWithin(s, a.w, gap)
  }

  ghost predicate OwnersRegistered(s: State) {
    forall id | id in s.db.queue && s.db.queue[id].state == Consumed ::
      s.db.queue[id].owner.Some? && s.db.queue[id].owner.value in s.db.workers
  }

  /** Claiming while the worker row may have been cleaned is what would make an orphan. */
  lemma PromptClaimIsRegistered(cfg: Config, s: State, a: Step, gap: Time)
    requires a.Claim? && Enabled(s, a) && Timely(cfg, s) && PromptClaim(s, a, gap)
    requires 0.0 <= gap && 0.0 <= cfg.heartbeatInterval && cfg.heartbeatInterval + gap <= cfg.heartbeatTtl * 5.0
    ensures a.w in s.db.workers
  {
    assert BeatOk(cfg, s, a.w);
  }

  /** REAP before CLEAN_WORKERS in one transaction: whoever still owns a row keeps its worker row. */
  lemma MaintainedOwnersFresh(cfg: Config, s: State, a: Step, id: MessageId)
    requires Enabled(s, a) && Maintains(s, a) && Timely(cfg, s) && WellFormed(s)
    requires id in Apply(cfg, s, a).db.queue && Apply(cfg, s, a).db.queue[id].state == Consumed
    ensures var s' := Apply(cfg, s, a);
            && s'.db.queue[id].owner.Some? && s'.db.queue[id].owner.value in s'.db.workers
            && s'.db.workers[s'.db.queue[id].owner.value] > s'.now - cfg.heartbeatTtl
  {
    ConsumedBefore(cfg, s, a, id);
    StepIsRowwise(cfg, s, a, id);
    var r := s.db.queue[id];
    assert HasFreshWorker(r, s.db.workers, s.now, cfg.heartbeatTtl);
    assert BeatOk(cfg, s, r.owner.value);
    WorkersAfterMaintenance(cfg, s, a, r.owner.value);
  }

  lemma WorkersKept(cfg: Config, s: State, a: Step)
    requires Enabled(s, a) && !Maintains(s, a)
    ensures s.db.workers.Keys <= Apply(cfg, s, a).db.workers.Keys
  {
  }

  lemma OwnersRegisteredStep(cfg: Config, s: State, a: Step, gap: Time)
    requires Enabled(s, a) && Timely(cfg, s) && WellFormed(s) && OwnersRegistered(s) && PromptClaim(s, a, gap)
    requires 0.0 <= gap && 0.0 <= cfg.heartbeatInterval && cfg.heartbeatInterval + gap <= cfg.heartbeatTtl * 5.0
    ensures OwnersRegistered(Apply(cfg, s, a))
  {
    var s' := Apply(cfg, s, a);
    forall id | id in s'.db.queue && s'.db.queue[id].state == Consumed
      ensures s'.db.queue[id].owner.Some? && s'.db.queue[id].owner.value in s'.db.workers
    {
      if Maintains(s, a) {
        MaintainedOwnersFresh(cfg, s, a, id);
      } else {
        WorkersKept(cfg, s, a);
        ConsumedBefore(cfg, s, a, id);
        if a.Claim? && id in a.order {
          PromptClaimIsRegistered(cfg, s, a, gap);
        }
      }
    }
  }

  /** Every consumed row's owner has a worker row, in every state of a run with prompt claims. */
  lemma {:induction false} NoOrphanOwners(cfg: Config, r: Run, k: nat, gap: Time)
    requires IsReachable(cfg, r) && k < |r.states|
    requires 0.0 <= gap && 0.0 <= cfg.heartbeatInterval && cfg.heartbeatInterval + gap <= cfg.heartbeatTtl * 5.0
    requires forall i | 0 <= i < k :: PromptClaim(r.states[i], r.steps[i], gap)
    ensures OwnersRegistered(r.states[k])
  {
    if k > 0 {
      NoOrphanOwners(cfg, r, k - 1, gap);
      TimelyAlways(cfg, r, k - 1);
      WellFormedAlways(cfg, r, k - 1);
      OwnersRegisteredStep(cfg, r.states[k - 1], r.steps[k - 1], gap);
    }
  }

  /** Right after a granted maintenance, whoever owns a row has a heartbeat younger than the TTL. */
  lemma OwnersFreshAfterMaintenance(cfg: Config, r: Run, k: nat, id: MessageId)
    requires IsReachable(cfg, r) && k < |r.steps|
    requires Enabled(r.states[k], r.steps[k]) && Maintains(r.states[k], r.steps[k])
    requires id in r.states[k + 1].db.queue && r.states[k + 1].db.queue[id].state == Consumed
    ensures var s' := r.states[k + 1];
            && s'.db.queue[id].owner.Some? && s'.db.queue[id].owner.value in s'.db.workers
            && s'.db.workers[s'.db.queue[id].owner.value] > s'.now - cfg.heartbeatTtl
  {
    assert Follows(cfg, r.states[k], r.steps[k], r.states[k + 1]);
    TimelyAlways(cfg, r, k);
    WellFormedAlways(cfg, r, k);
    MaintainedOwnersFresh(cfg, r.states[k], r.steps[k], id);
  }

  // ----- Crash recovery within a bound

  lemma UpkeepOkStep(cfg: Config, s: State, a: Step, v: WorkerId)
    requires Enabled(s, a) && v in s.procs && UpkeepOk(cfg, s, s.procs[v]) && 0.0 <= cfg.maintenanceInterval
    ensures v in Apply(cfg, s, a).procs && UpkeepOk(cfg, Apply(cfg, s, a), Apply(cfg, s, a).procs[v])
  {
  }

  lemma NewProcessUpkeep(cfg: Config, s: State, a: Step, v: WorkerId)
    requires Enabled(s, a) && v !in s.procs && v in Apply(cfg, s, a).procs
    ensures UpkeepOk(cfg, Apply(cfg, s, a), Apply(cfg, s, a).procs[v])
  {
  }

  lemma {:induction false} UpkeepOkAlways(cfg: Config, r: Run, k: nat, v: WorkerId)
    requires IsReachable(cfg, r) && k < |r.states| && v in r.states[k].procs && 0.0 <= cfg.maintenanceInterval
    ensures UpkeepOk(cfg, r.states[k], r.states[k].procs[v])
  {
    if k > 0 {
      if v in r.states[k - 1].procs {
        UpkeepOkAlways(cfg, r, k - 1, v);
        UpkeepOkStep(cfg, r.states[k - 1], r.steps[k - 1], v);
      } else {
        NewProcessUpkeep(cfg, r.states[k - 1], r.steps[k - 1], v);
      }
    }
  }

  ghost predicate OwnsNone(s: State, w: WorkerId) {
    forall id | id in s.db.queue :: s.db.queue[id].owner != Some(w)
  }

  predicate IsDead(s: State, w: WorkerId, lastBeat: Time) {
    w in s.procs && !s.procs[w].alive && s.procs[w].heartbeatAt == lastBeat
  }

  /** The last maintenance check of `v` is at most `gap` old. */
  predicate UpkeptWithin(s: State, v: WorkerId, gap: Time) {
    v in s.procs && s.procs[v].alive && s.procs[v].upkeptAt.Some? && s.now <= s.procs[v].upkeptAt.value + gap
  }

  /** What `v` remembers while the dead worker still owns rows: its last check came before the
      heartbeat expired, or found the next maintenance not due yet; and that one is not far. */
  predicate Pending(cfg: Config, p: Process, expiry: Time) {
    && p.upkeptAt.Some?
    && p.maintenanceAt <= expiry + cfg.maintenanceInterval * 1.5
    && (p.upkeptAt.value < expiry || p.upkeptAt.value < p.maintenanceAt)
  }

  lemma DeadStaysDead(cfg: Config, s: State, a: Step, w: WorkerId, lastBeat: Time)
    requires Enabled(s, a) && IsDead(s, w, lastBeat)
    ensures IsDead(Apply(cfg, s, a), w, lastBeat)
  {
  }

  lemma DeadClaimsNothing(cfg: Config, s: State, a: Step, w: WorkerId, lastBeat: Time, id: MessageId)
    requires Enabled(s, a) && IsDead(s, w, lastBeat) && WellFormed(s)
    requires id in Apply(cfg, s, a).db.queue && Apply(cfg, s, a).db.queue[id].owner == Some(w)
    ensures id in s.db.queue && s.db.queue[id].owner == Some(w) && s.db.queue[id].state == Consumed
    ensures Apply(cfg, s, a).db.queue[id] == s.db.queue[id]
  {
    RowOkStep(cfg, s, a, id);
    ConsumedBefore(cfg, s, a, id);
  }

  /** A maintenance after the heartbeat expired takes every row from the dead worker. */
  lemma ReapsDead(cfg: Config, s: State, a: Step, w: WorkerId, lastBeat: Time)
    requires Enabled(s, a) && Maintains(s, a) && IsDead(s, w, lastBeat) && Timely(cfg, s) && WellFormed(s)
    requires s.now >= lastBeat + cfg.heartbeatTtl
    ensures OwnsNone(Apply(cfg, s, a), w)
  {
    assert BeatOk(cfg, s, w);
    forall id | id in Apply(cfg, s, a).db.queue ensures Apply(cfg, s, a).db.queue[id].owner != Some(w) {
      if Apply(cfg, s, a).db.queue[id].owner == Some(w) {
        DeadClaimsNothing(cfg, s, a, w, lastBeat, id);
        StepIsRowwise(cfg, s, a, id);
      }
    }
  }

  lemma PendingStep(cfg: Config, s: State, a: Step, v: WorkerId, expiry: Time)
    requires Enabled(s, a) && v in s.procs && Pending(cfg, s.procs[v], expiry) && 0.0 <= cfg.maintenanceInterval
    requires a.MaintenanceCheck? && a.w == v && MaintenanceDue(s.procs[v].maintenanceAt, s.now) ==> s.now < expiry
    ensures v in Apply(cfg, s, a).procs && Pending(cfg, Apply(cfg, s, a).procs[v], expiry)
  {
  }

  /** A maintenance of `v` that is due at or after the expiry, and does not get the advisory lock. */
  predicate Refused(s: State, a: Step, v: WorkerId, expiry: Time) {
    && a.MaintenanceCheck? && a.w == v && !a.granted
    && v in s.procs && MaintenanceDue(s.procs[v].maintenanceAt, s.now) && expiry <= s.now
  }

  /** How many of these steps, taken in these states, are refused. */
  ghost function Refusals(states: seq<State>, steps: seq<Step>, v: WorkerId, expiry: Time): nat
    requires |states| == |steps| + 1
  {
    if steps == [] then 0
    else
      var last := |steps| - 1;
      Refusals(states[..last + 1], steps[..last], v, expiry) + if Refused(states[last], steps[last], v, expiry) then 1 else 0
  }

  /** The expiry, put off by one and a half intervals and one call gap for every refusal. */
  ghost function Deadline(cfg: Config, gap: Time, expiry: Time, n: nat): Time {
    if n == 0 then expiry else Deadline(cfg, gap, expiry, n - 1) + (cfg.maintenanceInterval * 1.5 + gap)
  }

  lemma OneMore(n: nat, wait: real)
    ensures (n + 1) as real * wait == n as real * wait + wait
  {
  }

  lemma {:induction false} DeadlineIs(cfg: Config, gap: Time, expiry: Time, n: nat)
    ensures Deadline(cfg, gap, expiry, n) == expiry + n as real * (cfg.maintenanceInterval * 1.5 + gap)
  {
    var wait := cfg.maintenanceInterval * 1.5 + gap;
    if n > 0 {
      DeadlineIs(cfg, gap, expiry, n - 1);
      OneMore(n - 1, wait);
    }
  }

  /** A refusal comes before the next deadline. */
  lemma RefusedStep(cfg: Config, s: State, a: Step, v: WorkerId, gap: Time, expiry: Time, n: nat)
    requires Enabled(s, a) && Refused(s, a, v, expiry) && 0.0 <= cfg.maintenanceInterval
    requires UpkeptWithin(s, v, gap) && Pending(cfg, s.procs[v], Deadline(cfg, gap, expiry, n))
    ensures v in Apply(cfg, s, a).procs && Pending(cfg, Apply(cfg, s, a).procs[v], Deadline(cfg, gap, expiry, n + 1))
  {
  }

  lemma OwnsNoneStep(cfg: Config, s: State, a: Step, w: WorkerId, lastBeat: Time)
    requires Enabled(s, a) && WellFormed(s) && IsDead(s, w, lastBeat) && OwnsNone(s, w)
    ensures OwnsNone(Apply(cfg, s, a), w)
  {
    forall id | id in Apply(cfg, s, a).db.queue ensures Apply(cfg, s, a).db.queue[id].owner != Some(w) {
      if Apply(cfg, s, a).db.queue[id].owner == Some(w) {
        DeadClaimsNothing(cfg, s, a, w, lastBeat, id);
      }
    }
  }

  /** With no refusal, the rows of the dead worker are gone, or the wait for `v`'s maintenance is still on. */
  lemma RecoveryStep(cfg: Config, s: State, a: Step, w: WorkerId, lastBeat: Time, v: WorkerId, deadline: Time)
    requires Enabled(s, a) && Timely(cfg, s) && WellFormed(s) && 0.0 <= cfg.maintenanceInterval
    requires IsDead(s, w, lastBeat) && v in s.procs && !Refused(s, a, v, lastBeat + cfg.heartbeatTtl)
    requires lastBeat + cfg.heartbeatTtl <= deadline
    requires OwnsNone(s, w) || Pending(cfg, s.procs[v], deadline)
    ensures v in Apply(cfg, s, a).procs
    ensures OwnsNone(Apply(cfg, s, a), w) || Pending(cfg, Apply(cfg, s, a).procs[v], deadline)
  {
    ServiceStep(cfg, s, a, v, "");
    if OwnsNone(s, w) {
      OwnsNoneStep(cfg, s, a, w, lastBeat);
    } else if a.MaintenanceCheck? && a.w == v && Maintains(s, a) && s.now >= lastBeat + cfg.heartbeatTtl {
      ReapsDead(cfg, s, a, w, lastBeat);
    } else {
      PendingStep(cfg, s, a, v, deadline);
    }
  }

  /** `w` called at most `gap` apart until it died before state `i`; `v` keeps calling at most `gap`
      apart in states i..k. */
  ghost predicate Recovering(cfg: Config, r: Run, i: nat, k: nat, w: WorkerId, v: WorkerId, gap: Time) {
    && IsReachable(cfg, r) && i <= k < |r.states|
    && w in r.states[i].procs && !r.states[i].procs[w].alive && CalledWithin(r.states[i], w, gap)
    && forall j | i <= j <= k :: UpkeptWithin(r.states[j], v, gap)
  }

  /** When the last heartbeat of the dead worker is as old as the TTL. */
  function Expiry(cfg: Config, s: State, w: WorkerId): Time
    requires w in s.procs
  {
    s.procs[w].heartbeatAt + cfg.heartbeatTtl
  }

  ghost function RefusalsIn(r: Run, i: nat, k: nat, v: WorkerId, expiry: Time): nat
    requires i <= k <= |r.steps| && |r.states| == |r.steps| + 1
  {
    Refusals(r.states[i..k + 1], r.steps[i..k], v, expiry)
  }

  lemma RefusalsAfter(r: Run, i: nat, k: nat, v: WorkerId, expiry: Time)
    requires i < k <= |r.steps| && |r.states| == |r.steps| + 1
    ensures RefusalsIn(r, i, k, v, expiry)
         == RefusalsIn(r, i, k - 1, v, expiry) + if Refused(r.states[k - 1], r.steps[k - 1], v, expiry) then 1 else 0
  {
    assert r.steps[i..k][..k - i - 1] == r.steps[i..k - 1];
    assert r.states[i..k + 1][..k - i] == r.states[i..k];
  }

  lemma DeadlineIsLater(cfg: Config, gap: Time, expiry: Time, n: nat)
    requires 0.0 <= cfg.maintenanceInterval && 0.0 <= gap
    ensures expiry <= Deadline(cfg, gap, expiry, n)
  {
  }

  lemma RecoveryBegins(cfg: Config, r: Run, i: nat, w: WorkerId, v: WorkerId, gap: Time)
    requires Recovering(cfg, r, i, i, w, v, gap) && 0.0 <= cfg.maintenanceInterval && InTime(cfg, gap)
    ensures Pending(cfg, r.states[i].procs[v], Expiry(cfg, r.states[i], w))
  {
    TimelyAlways(cfg, r, i);
    assert BeatOk(cfg, r.states[i], w);
    UpkeepOkAlways(cfg, r, i, v);
  }

  lemma {:induction false} RecoveryPending(cfg: Config, r: Run, i: nat, k: nat, w: WorkerId, v: WorkerId, gap: Time)
    requires Recovering(cfg, r, i, k, w, v, gap) && 0.0 <= cfg.maintenanceInterval && InTime(cfg, gap)
    ensures var expiry := Expiry(cfg, r.states[i], w);
            && IsDead(r.states[k], w, r.states[i].procs[w].heartbeatAt)
            && (OwnsNone(r.states[k], w)
                || Pending(cfg, r.states[k].procs[v], Deadline(cfg, gap, expiry, RefusalsIn(r, i, k, v, expiry))))
  {
    if k == i {
      RecoveryBegins(cfg, r, i, w, v, gap);
    } else {
      var s, a, lastBeat := r.states[k - 1], r.steps[k - 1], r.states[i].procs[w].heartbeatAt;
      var expiry := Expiry(cfg, r.states[i], w);
      var n := RefusalsIn(r, i, k - 1, v, expiry);
      RecoveryPending(cfg, r, i, k - 1, w, v, gap);
      assert Follows(cfg, s, a, r.states[k]);
      TimelyAlways(cfg, r, k - 1);
      WellFormedAlways(cfg, r, k - 1);
      RefusalsAfter(r, i, k, v, expiry);
      DeadlineIsLater(cfg, gap, expiry, n);
      DeadStaysDead(cfg, s, a, w, lastBeat);
      if OwnsNone(s, w) {
        OwnsNoneStep(cfg, s, a, w, lastBeat);
      } else if Refused(s, a, v, expiry) {
        RefusedStep(cfg, s, a, v, gap, expiry, n);
      } else {
        RecoveryStep(cfg, s, a, w, lastBeat, v, Deadline(cfg, gap, expiry, n));
      }
    }
  }

  lemma LastDeadline(cfg: Config, s: State, v: WorkerId, gap: Time, expiry: Time, n: nat)
    requires UpkeptWithin(s, v, gap) && 0.0 <= gap && s.now >= Deadline(cfg, gap, expiry, n + 1)
    requires 0.0 <= cfg.maintenanceInterval
    ensures !Pending(cfg, s.procs[v], Deadline(cfg, gap, expiry, n))
  {
  }

  /** Crash recovery: `w` called at most `gap` apart until it died; `v` then keeps calling at most
      `gap` apart, and n of its maintenances do not get the lock once the heartbeat of `w` expired.
      From n + 1 times (1.5 maintenance intervals + gap) after the expiry on, no row belongs to `w`. */
  lemma CrashRecovery(cfg: Config, r: Run, i: nat, k: nat, w: WorkerId, v: WorkerId, gap: Time, n: nat)
    requires Recovering(cfg, r, i, k, w, v, gap) && 0.0 <= cfg.maintenanceInterval && InTime(cfg, gap)
    requires RefusalsIn(r, i, k, v, Expiry(cfg, r.states[i], w)) == n
    requires r.states[k].now >= Deadline(cfg, gap, Expiry(cfg, r.states[i], w), n + 1)
    ensures OwnsNone(r.states[k], w)
  {
    RecoveryPending(cfg, r, i, k, w, v, gap);
    LastDeadline(cfg, r.states[k], v, gap, Expiry(cfg, r.states[i], w), n);
  }
}
