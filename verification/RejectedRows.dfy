/** How long a rejected message is kept. */
module RejectedRows {
  import opened Wrappers
  import opened Tables
  import opened Machine

  predicate IsRejected(s: State, id: MessageId) {
    id in s.db.queue && s.db.queue[id].state == Rejected
  }

  /** The step that turns a row into a rejected one. */
  predicate Rejects(s: State, a: Step, id: MessageId) {
    a.Nack? && a.m.id == id && id in s.db.queue && s.db.queue[id].queue == a.q && s.db.queue[id].state != Rejected
  }

  /** A rejected row is there because this step rejected it now, or because it was and is unchanged. */
  lemma RejectedStep(cfg: Config, s: State, a: Step, id: MessageId)
    requires Enabled(s, a) && IsRejected(Apply(cfg, s, a), id)
    ensures id in s.db.queue
    ensures if Rejects(s, a, id) then
              var row, row' := s.db.queue[id], Apply(cfg, s, a).db.queue[id];
              && !IsRejected(s, id) && row'.mtime == s.now && row'.message == a.m && row'.owner == None
              && row'.queue == row.queue && row'.position == row.position && row'.availableAt == row.availableAt
            else IsRejected(s, id) && Apply(cfg, s, a).db.queue[id] == s.db.queue[id]
  {
    StepIsRowwise(cfg, s, a, id);
    assert RowAfter(cfg, s, a, id) == Some(Apply(cfg, s, a).db.queue[id]);
  }

  /** The mtime of a rejected row is the instant it was rejected, its message the one that this nack carried,
      and it has been rejected ever since: a repeated nack does not refresh it. */
  lemma {:induction false} RejectedSince(cfg: Config, r: Run, k: nat, id: MessageId) returns (i: nat)
    requires IsReachable(cfg, r) && k < |r.states| && IsRejected(r.states[k], id)
    ensures i < k && Rejects(r.states[i], r.steps[i], id)
    ensures r.states[k].db.queue[id].mtime == r.states[i].now && r.states[k].db.queue[id].message == r.steps[i].m
    ensures forall j | i < j <= k :: IsRejected(r.states[j], id)
  {
    assert k > 0;
    RejectedStep(cfg, r.states[k - 1], r.steps[k - 1], id);
    if Rejects(r.states[k - 1], r.steps[k - 1], id) {
      i := k - 1;
    } else {
      i := RejectedSince(cfg, r, k - 1, id);
    }
  }

  /** A purge that has come of age for a row rejected at `since`: the granted maintenance of a broker
      with a purge_maxage, or the command with an age of its own. */
  predicate Purges(cfg: Config, s: State, a: Step, since: Time)
    requires Enabled(s, a)
  {
    || (a.PurgeCommand? && s.now >= since + a.maxAge)
    || (Maintains(s, a) && cfg.purgeMaxAge.Some? && s.now >= since + cfg.purgeMaxAge.value)
  }

  lemma FateStep(cfg: Config, s: State, a: Step, id: MessageId)
    requires Enabled(s, a) && IsRejected(s, id) && !(a.Enqueue? && a.m.id == id)
    ensures Look(Apply(cfg, s, a).db.queue, id)
         == if Purges(cfg, s, a, s.db.queue[id].mtime) then None else Some(s.db.queue[id])
  {
    StepIsRowwise(cfg, s, a, id);
  }

  /** Step j neither enqueues the message again nor purges it. */
  predicate Spares(cfg: Config, s: State, a: Step, id: MessageId, since: Time) {
    Enabled(s, a) && !(a.Enqueue? && a.m.id == id) && !Purges(cfg, s, a, since)
  }

  /** Unless it is enqueued again, a rejected message stays, unchanged, through every step of every run
      but a purge that has come of age. */
  lemma {:induction false} RejectedIsKept(cfg: Config, r: Run, i: nat, k: nat, id: MessageId)
    requires IsRun(cfg, r) && i <= k < |r.states| && IsRejected(r.states[i], id)
    requires forall j | i <= j < k :: Spares(cfg, r.states[j], r.steps[j], id, r.states[i].db.queue[id].mtime)
    ensures Look(r.states[k].db.queue, id) == Some(r.states[i].db.queue[id])
  {
    if k > i {
      RejectedIsKept(cfg, r, i, k - 1, id);
      FateStep(cfg, r.states[k - 1], r.steps[k - 1], id);
    }
  }

  /** So the first step that can remove it does: exactly a purge at or past the age, counted from the
      instant of the rejection. */
  lemma RetentionExact(cfg: Config, r: Run, i: nat, k: nat, id: MessageId)
    requires IsRun(cfg, r) && i <= k < |r.steps| && IsRejected(r.states[i], id)
    requires forall j | i <= j < k :: Spares(cfg, r.states[j], r.steps[j], id, r.states[i].db.queue[id].mtime)
    requires !(r.steps[k].Enqueue? && r.steps[k].m.id == id)
    ensures id in r.states[k].db.queue && Enabled(r.states[k], r.steps[k])
    ensures id !in r.states[k + 1].db.queue <==> Purges(cfg, r.states[k], r.steps[k], r.states[i].db.queue[id].mtime)
  {
    RejectedIsKept(cfg, r, i, k, id);
    FateStep(cfg, r.states[k], r.steps[k], id);
  }

  /** No maintenance takes a message before it has been rejected for purge_maxage. */
  lemma NeverPurgedEarly(cfg: Config, r: Run, k: nat, id: MessageId) returns (i: nat)
    requires IsReachable(cfg, r) && k < |r.steps| && IsRejected(r.states[k], id)
    requires r.steps[k].MaintenanceCheck? && id !in r.states[k + 1].db.queue
    ensures i < k && Rejects(r.states[i], r.steps[i], id)
    ensures cfg.purgeMaxAge.Some? && r.states[k].now >= r.states[i].now + cfg.purgeMaxAge.value
  {
    i := RejectedSince(cfg, r, k, id);
    FateStep(cfg, r.states[k], r.steps[k], id);
  }
}
