/** What a read of a result finds, in every run: the value of the last store, until that expires. */
module Results {
  import opened Wrappers
  import opened Tables
  import opened Machine
  import opened Effects

  predicate StoresResult(a: Step, id: MessageId) {
    a.Store? && a.id == id
  }

  /** Step j is the last one before k that stores the result of `id`. */
  ghost predicate LastStore(r: Run, j: nat, k: nat, id: MessageId) {
    && j < k <= |r.steps| && StoresResult(r.steps[j], id)
    && forall i | j < i < k :: !StoresResult(r.steps[i], id)
  }

  /** The table holds the value and its expiry, or nothing once that has passed. */
  predicate HoldsUntil(s: State, id: MessageId, value: Json, expiry: Time) {
    && (id in s.db.results ==> s.db.results[id].value == value && s.db.results[id].expiresAt == Some(expiry))
    && (s.now < expiry ==> id in s.db.results)
  }

  lemma HoldsStep(cfg: Config, s: State, a: Step, id: MessageId, value: Json, expiry: Time)
    requires Enabled(s, a) && HoldsUntil(s, id, value, expiry) && !StoresResult(a, id)
    ensures HoldsUntil(Apply(cfg, s, a), id, value, expiry)
  {
  }

  lemma {:induction false} HoldsAlways(cfg: Config, r: Run, j: nat, k: nat, id: MessageId)
    requires IsRun(cfg, r) && LastStore(r, j, k, id)
    ensures HoldsUntil(r.states[k], id, r.steps[j].value, r.states[j].now + r.steps[j].ttl)
    decreases k - j
  {
    if j + 1 < k {
      HoldsAlways(cfg, r, j, k - 1, id);
      assert Follows(cfg, r.states[k - 1], r.steps[k - 1], r.states[k]);
      HoldsStep(cfg, r.states[k - 1], r.steps[k - 1], id, r.steps[j].value, r.states[j].now + r.steps[j].ttl);
    } else {
      assert Follows(cfg, r.states[j], r.steps[j], r.states[k]);
    }
  }

  /** A read finds the value of the last store until its time to live is over, and nothing from then on,
      whatever is purged and collected meanwhile, and whatever earlier stores said. */
  lemma ReadFindsLastStore(cfg: Config, r: Run, j: nat, k: nat, id: MessageId)
    requires IsRun(cfg, r) && LastStore(r, j, k, id)
    ensures Get(r.states[k].db.results, id, r.states[k].now)
         == if r.states[k].now < r.states[j].now + r.steps[j].ttl then Some(r.steps[j].value) else None
  {
    HoldsAlways(cfg, r, j, k, id);
  }

  lemma {:induction false} NothingStored(cfg: Config, r: Run, k: nat, id: MessageId)
    requires IsReachable(cfg, r) && k < |r.states| && forall i | 0 <= i < k :: !StoresResult(r.steps[i], id)
    ensures id !in r.states[k].db.results
  {
    if k > 0 {
      NothingStored(cfg, r, k - 1, id);
      assert Follows(cfg, r.states[k - 1], r.steps[k - 1], r.states[k]);
    }
  }

  /** And a read finds nothing that was never stored. */
  lemma ReadWithoutStore(cfg: Config, r: Run, k: nat, id: MessageId)
    requires IsReachable(cfg, r) && k < |r.states| && forall i | 0 <= i < k :: !StoresResult(r.steps[i], id)
    ensures Get(r.states[k].db.results, id, r.states[k].now) == None
  {
    NothingStored(cfg, r, k, id);
  }

  /** Neither a granted maintenance nor the purge command leaves an expired result behind, and neither
      touches another one; apart from stores, nothing else changes the table. */
  lemma ExpiredAreDeleted(cfg: Config, s: State, a: Step)
    requires Enabled(s, a) && cfg.collect
    ensures if a.PurgeCommand? || (a.MaintenanceCheck? && a.granted && !(s.procs[a.w].maintenanceAt != 0.0 && s.now < s.procs[a.w].maintenanceAt))
            then KeepsUnexpired(s.db.results, Apply(cfg, s, a).db.results, s.now)
            else if a.Store?
            then Apply(cfg, s, a).db.results == s.db.results[a.id := StoredResult(a.value, Some(s.now + a.ttl))]
            else Apply(cfg, s, a).db.results == s.db.results
  {
  }
}
