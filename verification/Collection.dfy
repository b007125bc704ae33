/** Deleting stale worker rows and expired results is invisible: the run that skips both deletes takes
    the same decisions and gives the same answers. */
module Collection {
  import opened Tables
  import opened Machine

  // The worker rows that were collected are stale for every later reap.
  ghost predicate SameWorkers(collected: WorkerTable, kept: WorkerTable, ttl: Time, now: Time) {
    && (forall w | w in collected :: w in kept && kept[w] == collected[w])
    && (forall w | w in kept && w !in collected :: kept[w] <= now - ttl)
  }

  // The results that were collected are expired for every later read.
  ghost predicate SameResults(collected: ResultTable, kept: ResultTable, now: Time) {
    && (forall k | k in collected :: k in kept && kept[k] == collected[k])
    && (forall k | k in kept && k !in collected :: IsExpired(kept[k], now))
  }

  /** Two states that agree on everything but collected garbage. */
  ghost predicate Alike(cfg: Config, s: State, t: State) {
    && s.now == t.now && s.procs == t.procs
    && s.db.queue == t.db.queue && s.db.nextPosition == t.db.nextPosition
    && SameWorkers(s.db.workers, t.db.workers, cfg.heartbeatTtl, s.now)
    && SameResults(s.db.results, t.db.results, s.now)
  }

  /** The same configuration, with the garbage-collecting deletes and without them. */
  function Collecting(cfg: Config): Config { cfg.(collect := true) }
  function Keeping(cfg: Config): Config { cfg.(collect := false) }

  /** Alike states reap the same rows, and answer every read of a result alike. */
  lemma AlikeObservations(cfg: Config, s: State, t: State)
    requires Alike(cfg, s, t)
    ensures Reap(s.db.queue, s.db.workers, s.now, cfg.heartbeatTtl) == Reap(t.db.queue, t.db.workers, t.now, cfg.heartbeatTtl)
    ensures forall id :: Get(s.db.results, id, s.now) == Get(t.db.results, id, t.now)
  {
    forall id | id in s.db.queue
      ensures ReapMatches(s.db.queue[id], s.db.workers, s.now, cfg.heartbeatTtl)
           == ReapMatches(t.db.queue[id], t.db.workers, t.now, cfg.heartbeatTtl)
    {
    }
  }

  lemma MaintenanceAlike(cfg: Config, s: State, t: State, a: Step)
    requires cfg.heartbeatTtl >= 0.0 && Alike(cfg, s, t) && Enabled(s, a) && a.MaintenanceCheck?
    ensures Enabled(t, a) && Alike(cfg, Apply(Collecting(cfg), s, a), Apply(Keeping(cfg), t, a))
  {
    AlikeObservations(cfg, s, t);
  }

  lemma DatabaseAlike(cfg: Config, s: State, t: State, a: Step)
    requires Alike(cfg, s, t) && Enabled(s, a) && cfg.heartbeatTtl >= 0.0
    requires a.HeartbeatCheck? || a.PurgeCommand? || a.Store? || a.Enqueue? || a.Tick?
    ensures Enabled(t, a) && Alike(cfg, Apply(Collecting(cfg), s, a), Apply(Keeping(cfg), t, a))
  {
  }

  lemma QueueAlike(cfg: Config, s: State, t: State, a: Step)
    requires Alike(cfg, s, t) && Enabled(s, a)
    requires a.Claim? || a.Ack? || a.Nack? || a.Requeue? || a.Recover? || a.Flush?
    ensures Enabled(t, a) && Alike(cfg, Apply(Collecting(cfg), s, a), Apply(Keeping(cfg), t, a))
  {
  }

  lemma AlikeStep(cfg: Config, s: State, t: State, a: Step)
    requires cfg.heartbeatTtl >= 0.0 && Alike(cfg, s, t) && Enabled(s, a)
    ensures Enabled(t, a) && Alike(cfg, Apply(Collecting(cfg), s, a), Apply(Keeping(cfg), t, a))
  {
    if a.MaintenanceCheck? {
      MaintenanceAlike(cfg, s, t, a);
    } else if a.HeartbeatCheck? || a.PurgeCommand? || a.Store? || a.Enqueue? || a.Tick? {
      DatabaseAlike(cfg, s, t, a);
    } else if a.Claim? || a.Ack? || a.Nack? || a.Requeue? || a.Recover? || a.Flush? {
      QueueAlike(cfg, s, t, a);
    }
  }

  /** Without the deletes, no worker row and no result ever goes. */
  lemma KeepingKeeps(cfg: Config, s: State, a: Step)
    requires Enabled(s, a)
    ensures var s' := Apply(Keeping(cfg), s, a); s.db.workers.Keys <= s'.db.workers.Keys && s.db.results.Keys <= s'.db.results.Keys
  {
  }

  lemma LongerRun(cfg: Config, r: Run, a: Step, s: State) returns (longer: Run)
    requires IsReachable(cfg, r) && Follows(cfg, r.states[|r.steps|], a, s)
    ensures longer == Run(r.states + [s], r.steps + [a]) && IsReachable(cfg, longer)
  {
    longer := Run(r.states + [s], r.steps + [a]);
    forall i {:trigger longer.steps[i]} | 0 <= i < |longer.steps|
      ensures Follows(cfg, longer.states[i], longer.steps[i], longer.states[i + 1])
    {
      if i < |r.steps| {
        assert Follows(cfg, r.states[i], r.steps[i], r.states[i + 1]);
      }
    }
  }

  /** The run that takes the same steps without collecting anything. */
  lemma {:induction false} CollectionIsInvisible(cfg: Config, r: Run) returns (kept: Run)
    requires cfg.heartbeatTtl >= 0.0 && IsReachable(Collecting(cfg), r)
    ensures IsReachable(Keeping(cfg), kept) && kept.steps == r.steps
    ensures forall k | 0 <= k < |r.states| :: Alike(cfg, r.states[k], kept.states[k])
    ensures forall k | 0 <= k < |r.states| ::
              && Reap(r.states[k].db.queue, r.states[k].db.workers, r.states[k].now, cfg.heartbeatTtl)
                 == Reap(kept.states[k].db.queue, kept.states[k].db.workers, kept.states[k].now, cfg.heartbeatTtl)
              && forall id :: Get(r.states[k].db.results, id, r.states[k].now)
                              == Get(kept.states[k].db.results, id, kept.states[k].now)
    decreases |r.steps|
  {
    if r.steps == [] {
      kept := r;
    } else {
      var n := |r.steps| - 1;
      var before := Run(r.states[..n + 1], r.steps[..n]);
      assert forall i | 0 <= i < n :: before.steps[i] == r.steps[i];
      var kept' := CollectionIsInvisible(cfg, before);
      assert Follows(Collecting(cfg), r.states[n], r.steps[n], r.states[n + 1]);
      AlikeStep(cfg, r.states[n], kept'.states[n], r.steps[n]);
      kept := LongerRun(Keeping(cfg), kept', r.steps[n], Apply(Keeping(cfg), kept'.states[n], r.steps[n]));
    }
    forall k | 0 <= k < |r.states| {
      AlikeObservations(cfg, r.states[k], kept.states[k]);
    }
  }
}
