/** What every row of the queue table satisfies in every reachable state. */
module Rows {
  import opened Wrappers
  import opened Tables
  import opened Machine

  predicate RowOk(id: MessageId, r: Row, now: Time, nextPosition: nat) {
    && (r.owner.Some? <==> r.state == Consumed)
    && (r.state == Queued ==> r.consumedAt == None)
    // Never delivered early; the age RECOVER looks at is the time since the claim.
    && (r.state == Consumed ==> r.consumedAt == Some(r.mtime) && r.availableAt <= r.mtime)
    && r.mtime <= now
    && r.message.id == id && r.message.queue == r.queue
    && r.position < nextPosition
  }

  ghost predicate DistinctPositions(t: QueueTable) {
    forall i, j | i in t && j in t && i != j :: t[i].position != t[j].position
  }

  ghost predicate WellFormed(s: State) {
    && (forall i | i in s.db.queue :: RowOk(i, s.db.queue[i], s.now, s.db.nextPosition))
    && DistinctPositions(s.db.queue)
  }

  /** A step never goes back in time, nor reuses a position. */
  lemma ClockAdvances(cfg: Config, s: State, a: Step)
    requires Enabled(s, a)
    ensures s.now <= Apply(cfg, s, a).now
    ensures s.db.nextPosition <= Apply(cfg, s, a).db.nextPosition
  {
  }

  lemma RowOkStep(cfg: Config, s: State, a: Step, id: MessageId)
    requires Enabled(s, a) && WellFormed(s)
    ensures var s' := Apply(cfg, s, a);
            id in s'.db.queue ==> RowOk(id, s'.db.queue[id], s'.now, s'.db.nextPosition)
  {
    StepIsRowwise(cfg, s, a, id);
    ClockAdvances(cfg, s, a);
    var s' := Apply(cfg, s, a);
    if id in s'.db.queue {
      assert RowAfter(cfg, s, a, id) == Some(s'.db.queue[id]);
      if id in s.db.queue {
        assert RowOk(id, s.db.queue[id], s.now, s.db.nextPosition);
      }
    }
  }

  /** Only a fresh insert takes a new position; it takes the next one. */
  lemma PositionStep(cfg: Config, s: State, a: Step, id: MessageId)
    requires Enabled(s, a)
    requires id in Apply(cfg, s, a).db.queue
    ensures var r' := Apply(cfg, s, a).db.queue[id];
            if id in s.db.queue then r'.position == s.db.queue[id].position
            else r'.position == s.db.nextPosition && a.Enqueue? && a.m.id == id
  {
    StepIsRowwise(cfg, s, a, id);
    assert RowAfter(cfg, s, a, id) == Some(Apply(cfg, s, a).db.queue[id]);
  }

  lemma WellFormedStep(cfg: Config, s: State, a: Step)
    requires Enabled(s, a) && WellFormed(s)
    ensures WellFormed(Apply(cfg, s, a))
  {
    var s' := Apply(cfg, s, a);
    forall i | i in s'.db.queue ensures RowOk(i, s'.db.queue[i], s'.now, s'.db.nextPosition) {
      RowOkStep(cfg, s, a, i);
    }
    forall i, j | i in s'.db.queue && j in s'.db.queue && i != j
      ensures s'.db.queue[i].position != s'.db.queue[j].position
    {
      PositionStep(cfg, s, a, i);
      PositionStep(cfg, s, a, j);
    }
  }

  /** Well-formedness of rows, in every state of every run. */
  lemma {:induction false} WellFormedAlways(cfg: Config, r: Run, k: nat)
    requires IsReachable(cfg, r) && k < |r.states|
    ensures WellFormed(r.states[k])
  {
    if k > 0 {
      WellFormedAlways(cfg, r, k - 1);
      WellFormedStep(cfg, r.states[k - 1], r.steps[k - 1]);
    }
  }

  /** RECOVER puts back exactly the rows that were claimed more than `minAge` ago, and changes no other. */
  lemma RecoverTakesOldClaims(cfg: Config, r: Run, k: nat, id: MessageId)
    requires IsReachable(cfg, r) && k < |r.steps| && r.steps[k].Recover? && id in r.states[k].db.queue
    ensures id in r.states[k + 1].db.queue
    ensures var before, after := r.states[k].db.queue[id], r.states[k + 1].db.queue[id];
            if before.consumedAt.Some? && before.state == Consumed && before.consumedAt.value + r.steps[k].minAge < r.states[k].now
            then after.state == Queued && after.owner == None && after.availableAt <= r.states[k + 1].now
            else after == before
  {
    WellFormedAlways(cfg, r, k);
    assert RowOk(id, r.states[k].db.queue[id], r.states[k].now, r.states[k].db.nextPosition);
    StepIsRowwise(cfg, r.states[k], r.steps[k], id);
  }

  // ----- Never delivered early

  predicate EndsInDQ(q: string) {
    |q| >= 3 && q[|q| - 3..] == ".DQ"
  }

  /** A delayed message of an ordinary queue waits on the queue of that name with .DQ behind it; one of a
      delay queue stays there. */
  lemma DelayQueueIs(q: string)
    ensures DelayQueue(q) == if EndsInDQ(q) then q else q + ".DQ"
    ensures EndsInDQ(DelayQueue(q)) && (!EndsInDQ(q) ==> DelayQueue(q) != q)
  {
    assert (q + ".DQ")[|q|..] == ".DQ";
  }

  /** Two ordinary queues never share a delay queue. */
  lemma DelayQueuesDiffer(p: string, q: string)
    requires !EndsInDQ(p) && !EndsInDQ(q) && DelayQueue(p) == DelayQueue(q)
    ensures p == q
  {
    DelayQueueIs(p);
    DelayQueueIs(q);
    assert (p + ".DQ")[..|p + ".DQ"| - 3] == p && (q + ".DQ")[..|q + ".DQ"| - 3] == q;
  }

  predicate NotBefore(r: Row, due: Time) {
    r.availableAt == due && (r.state == Consumed ==> r.mtime >= due)
  }

  lemma NotBeforeStep(cfg: Config, s: State, a: Step, id: MessageId, due: Time)
    requires Enabled(s, a) && !(a.Enqueue? && a.m.id == id)
    requires id in s.db.queue ==> NotBefore(s.db.queue[id], due)
    ensures id in Apply(cfg, s, a).db.queue ==> NotBefore(Apply(cfg, s, a).db.queue[id], due)
  {
    StepIsRowwise(cfg, s, a, id);
    if id in Apply(cfg, s, a).db.queue {
      assert RowAfter(cfg, s, a, id) == Some(Apply(cfg, s, a).db.queue[id]);
    }
  }

  lemma EnqueueIsNotBefore(cfg: Config, s: State, a: Step)
    requires Enabled(s, a) && a.Enqueue?
    ensures a.m.id in Apply(cfg, s, a).db.queue
    ensures NotBefore(Apply(cfg, s, a).db.queue[a.m.id], s.now + a.delay as real / 1000.0)
  {
  }

  /** Between an enqueue with a delay and any claim of that row, the delay has passed. */
  lemma {:induction false} NeverEarly(cfg: Config, r: Run, i: nat, k: nat)
    requires IsRun(cfg, r) && i < k < |r.states|
    requires r.steps[i].Enqueue?
    // No later enqueue of the same message.
    requires forall j | i < j < k :: !(r.steps[j].Enqueue? && r.steps[j].m.id == r.steps[i].m.id)
    ensures var id, due := r.steps[i].m.id, r.states[i].now + r.steps[i].delay as real / 1000.0;
            id in r.states[k].db.queue ==> NotBefore(r.states[k].db.queue[id], due)
  {
    var id, due := r.steps[i].m.id, r.states[i].now + r.steps[i].delay as real / 1000.0;
    if i < k - 1 {
      NeverEarly(cfg, r, i, k - 1);
      NotBeforeStep(cfg, r.states[k - 1], r.steps[k - 1], id, due);
    } else {
      EnqueueIsNotBefore(cfg, r.states[i], r.steps[i]);
    }
  }
}
