/** Accounting for one message over a whole run: nothing is lost, and nothing is delivered more often
    than it was put on a queue. */
module Conservation {
  import opened Tables
  import opened Machine

  /** What one step does to one message.  `queued` says whether its row was queued before. */
  datatype Event =
    | Inserted
    | ReEnqueued(queued: bool)
    | Delivered
    | Acked
    | Nacked(queued: bool)
    | Reaped
    | Requeued
    | Recovered
    | Purged
    | Flushed(queued: bool)
    | Untouched

  function EventOf(cfg: Config, s: State, a: Step, id: MessageId): Event
    requires Enabled(s, a)
  {
    if id !in s.db.queue then
      if a.Enqueue? && a.m.id == id then Inserted else Untouched
    else
      var r := s.db.queue[id];
      match a
      case Enqueue(m, _) => if m.id == id then ReEnqueued(r.state == Queued) else Untouched
      case Claim(_, _, order, _) => if id in order then Delivered else Untouched
      case Ack(_, q, i) => if i == id && AckMatches(r, q) then Acked else Untouched
      case Nack(_, q, m) => if m.id == id && NackMatches(r, q) then Nacked(r.state == Queued) else Untouched
      case Requeue(_, _, ids) => if id in ids && r.state == Consumed then Requeued else Untouched
      case Recover(minAge) => if RecoverMatches(r, s.now, minAge) then Recovered else Untouched
      case Flush => if r.state == Rejected then Untouched else Flushed(r.state == Queued)
      case PurgeCommand(maxAge) => if PurgeMatches(r, s.now, maxAge) then Purged else Untouched
      case MaintenanceCheck(_, _, _, _) =>
        if !Maintains(s, a) then Untouched
        else if ReapMatches(r, s.db.workers, s.now, cfg.heartbeatTtl) then Reaped
        else if cfg.purgeMaxAge.Some? && PurgeMatches(r, s.now, cfg.purgeMaxAge.value) then Purged
        else Untouched
      case _ => Untouched
  }

  /** The events are what can be seen of the row before and after the step: an insert where there was
      none, a delivery when it goes from queued to consumed, a rejection, a way back from consumed to queued,
      a deletion; and untouched means unchanged. */
  lemma EventIsSeen(cfg: Config, s: State, a: Step, id: MessageId)
    requires Enabled(s, a)
    ensures var before, after, e := Look(s.db.queue, id), Look(Apply(cfg, s, a).db.queue, id), EventOf(cfg, s, a, id);
            && (e.Inserted? <==> before.None? && after.Some?)
            && (e.Acked? || e.Purged? || e.Flushed? <==> before.Some? && after.None?)
            && (e.Untouched? <==> after == before && !(a.Enqueue? && a.m.id == id))
            && (e.ReEnqueued? <==> before.Some? && a.Enqueue? && a.m.id == id)
            && (before.Some? && after.Some? && !a.Enqueue? ==>
                  && (e.Delivered? <==> before.value.state == Queued && after.value.state == Consumed)
                  && (e.Nacked? <==> before.value.state != Rejected && after.value.state == Rejected)
                  && (e.Reaped? || e.Requeued? || e.Recovered? <==> before.value.state == Consumed && after.value.state == Queued))
            && (e.Acked? || e.Purged? || e.Flushed? || e.Delivered? || e.Nacked? || e.Reaped? || e.Requeued? || e.Recovered? ==>
                  before.Some? && !a.Enqueue?)
            && (e.ReEnqueued? || e.Nacked? || e.Flushed? ==> e.queued == (before.Some? && before.value.state == Queued))
  {
    StepIsRowwise(cfg, s, a, id);
  }

  /** And which kind of step they come from. */
  lemma EventIsNamed(cfg: Config, s: State, a: Step, id: MessageId)
    requires Enabled(s, a)
    ensures match EventOf(cfg, s, a, id)
            case Acked => a.Ack?
            case Flushed(_) => a.Flush?
            case Purged => a.PurgeCommand? || a.MaintenanceCheck?
            case Delivered => a.Claim?
            case Nacked(_) => a.Nack?
            case Reaped => a.MaintenanceCheck?
            case Requeued => a.Requeue?
            case Recovered => a.Recover?
            case _ => true
  {
  }

  /** How many of the first `k` steps of a run do `e` to the message. */
  ghost function Count(cfg: Config, r: Run, k: nat, id: MessageId, e: Event): nat
    requires IsRun(cfg, r) && k <= |r.steps|
  {
    if k == 0 then 0
    else
      assert Follows(cfg, r.states[k - 1], r.steps[k - 1], r.states[k - 1 + 1]);
      Count(cfg, r, k - 1, id, e) + (if EventOf(cfg, r.states[k - 1], r.steps[k - 1], id) == e then 1 else 0)
  }

  predicate Present(s: State, id: MessageId) { id in s.db.queue }

  predicate IsQueued(s: State, id: MessageId) { id in s.db.queue && s.db.queue[id].state == Queued }

  function One(b: bool): nat { if b then 1 else 0 }

  predicate Deletes(e: Event) { e.Acked? || e.Purged? || e.Flushed? }

  predicate Enters(e: Event) { e.Inserted? || e == ReEnqueued(false) || e.Reaped? || e.Requeued? || e.Recovered? }

  predicate Leaves(e: Event) { e.Delivered? || e == Nacked(true) || e == Flushed(true) }

  /** A row appears by an insert and disappears by an ack, a purge or a flush; it becomes queued, and
      stops being queued, by the events above only. */
  lemma EventBalance(cfg: Config, s: State, a: Step, id: MessageId)
    requires Enabled(s, a)
    ensures var e, s' := EventOf(cfg, s, a, id), Apply(cfg, s, a);
            && One(Present(s', id)) + One(Deletes(e)) == One(Present(s, id)) + One(e.Inserted?)
            && One(IsQueued(s', id)) + One(Leaves(e)) == One(IsQueued(s, id)) + One(Enters(e))
  {
    StepIsRowwise(cfg, s, a, id);
    assert Look(Apply(cfg, s, a).db.queue, id) == RowAfter(cfg, s, a, id);
  }

  /** Inserts = what is in the table + what ack, purge and flush deleted. */
  lemma {:induction false} NothingIsLost(cfg: Config, r: Run, k: nat, id: MessageId)
    requires IsReachable(cfg, r) && k <= |r.steps|
    ensures Count(cfg, r, k, id, Inserted)
         == One(Present(r.states[k], id))
            + Count(cfg, r, k, id, Acked) + Count(cfg, r, k, id, Purged)
            + Count(cfg, r, k, id, Flushed(true)) + Count(cfg, r, k, id, Flushed(false))
  {
    if k > 0 {
      NothingIsLost(cfg, r, k - 1, id);
      assert Follows(cfg, r.states[k - 1], r.steps[k - 1], r.states[k - 1 + 1]);
      EventBalance(cfg, r.states[k - 1], r.steps[k - 1], id);
    }
  }

  /** Entries into `queued` = deliveries + nacks and flushes of a queued row + what is still queued. */
  lemma {:induction false} QueuedBalance(cfg: Config, r: Run, k: nat, id: MessageId)
    requires IsReachable(cfg, r) && k <= |r.steps|
    ensures Count(cfg, r, k, id, Inserted) + Count(cfg, r, k, id, ReEnqueued(false))
            + Count(cfg, r, k, id, Reaped) + Count(cfg, r, k, id, Requeued) + Count(cfg, r, k, id, Recovered)
         == Count(cfg, r, k, id, Delivered) + Count(cfg, r, k, id, Nacked(true)) + Count(cfg, r, k, id, Flushed(true))
            + One(IsQueued(r.states[k], id))
  {
    if k > 0 {
      QueuedBalance(cfg, r, k - 1, id);
      assert Follows(cfg, r.states[k - 1], r.steps[k - 1], r.states[k - 1 + 1]);
      EventBalance(cfg, r.states[k - 1], r.steps[k - 1], id);
    }
  }

  /** No message is delivered more often than it was enqueued, reaped, requeued and recovered. */
  lemma DeliveriesBounded(cfg: Config, r: Run, k: nat, id: MessageId)
    requires IsReachable(cfg, r) && k <= |r.steps|
    ensures Count(cfg, r, k, id, Delivered)
         <= Count(cfg, r, k, id, Inserted) + Count(cfg, r, k, id, ReEnqueued(false)) + Count(cfg, r, k, id, ReEnqueued(true))
            + Count(cfg, r, k, id, Reaped) + Count(cfg, r, k, id, Requeued) + Count(cfg, r, k, id, Recovered)
  {
    QueuedBalance(cfg, r, k, id);
  }
}
