/** A message re-enqueued while it is being processed is not lost to the late ack of its processing. */
module Forwarding {
  import opened Tables
  import opened Machine
  import opened Rows

  /** A step that may end the stay of a forwarded message on its new queue: another enqueue of it, a
      flush, or an ack or nack that is addressed to that queue. */
  predicate EndsStay(a: Step, id: MessageId, q: string) {
    || (a.Enqueue? && a.m.id == id)
    || a.Flush?
    || (a.Ack? && a.id == id && a.q != q)
    || (a.Nack? && a.m.id == id && a.q != q)
  }

  /** The row is alive on a queue other than `q`. */
  predicate Elsewhere(s: State, id: MessageId, q: string) {
    id in s.db.queue && s.db.queue[id].queue != q && s.db.queue[id].state != Rejected
  }

  lemma StayStep(cfg: Config, s: State, a: Step, id: MessageId, q: string)
    requires Enabled(s, a) && Elsewhere(s, id, q) && !EndsStay(a, id, q)
    ensures Elsewhere(Apply(cfg, s, a), id, q)
    ensures var r, r' := s.db.queue[id], Apply(cfg, s, a).db.queue[id];
            r'.queue == r.queue && r'.message == r.message && r'.position == r.position && r'.availableAt == r.availableAt
  {
    StepIsRowwise(cfg, s, a, id);
  }

  lemma ForwardLeaves(cfg: Config, s: State, a: Step)
    requires Enabled(s, a) && a.Enqueue? && a.delay != 0 && !EndsInDQ(a.m.queue)
    ensures var s' := Apply(cfg, s, a);
            && Elsewhere(s', a.m.id, a.m.queue)
            && s'.db.queue[a.m.id].queue == a.m.queue + ".DQ" && s'.db.queue[a.m.id].state == Queued
            && s'.db.queue[a.m.id].message == a.m.(queue := a.m.queue + ".DQ")
            && s'.db.queue[a.m.id].availableAt == s.now + a.delay as real / 1000.0
  {
    DelayQueueIs(a.m.queue);
  }

  /** Step i forwards a message of queue q with a delay.  No sequence of claims, reaps, requeues,
      recoveries, and acks or nacks addressed to q, by any worker, removes, rejects or changes it. */
  lemma {:induction false} ForwardSurvives(cfg: Config, r: Run, i: nat, k: nat)
    requires IsRun(cfg, r) && i < k < |r.states|
    requires r.steps[i].Enqueue? && r.steps[i].delay != 0 && !EndsInDQ(r.steps[i].m.queue)
    requires forall j | i < j < k :: !EndsStay(r.steps[j], r.steps[i].m.id, r.steps[i].m.queue)
    ensures var m, s' := r.steps[i].m, r.states[k];
            && Elsewhere(s', m.id, m.queue)
            && s'.db.queue[m.id].queue == m.queue + ".DQ"
            && s'.db.queue[m.id].message == m.(queue := m.queue + ".DQ")
            && s'.db.queue[m.id].availableAt == r.states[i].now + r.steps[i].delay as real / 1000.0
  {
    var m := r.steps[i].m;
    if i == k - 1 {
      ForwardLeaves(cfg, r.states[i], r.steps[i]);
    } else {
      ForwardSurvives(cfg, r, i, k - 1);
      StayStep(cfg, r.states[k - 1], r.steps[k - 1], m.id, m.queue);
    }
  }

  // ----- Without a delay

  predicate QueuedAgain(s: State, id: MessageId, q: string) {
    id in s.db.queue && s.db.queue[id].state == Queued && s.db.queue[id].queue == q
  }

  /** The queue that an enqueue with this delay puts the message on. */
  function SentTo(m: Message, delay: nat): string {
    if delay == 0 || EndsInDQ(m.queue) then m.queue else m.queue + ".DQ"
  }

  predicate TakesAway(a: Step, id: MessageId) {
    || (a.Enqueue? && a.m.id == id)
    || a.Flush?
    || (a.Claim? && id in a.order)
    || (a.Nack? && a.m.id == id)
  }

  lemma QueuedAgainStep(cfg: Config, s: State, a: Step, id: MessageId, q: string)
    requires Enabled(s, a) && QueuedAgain(s, id, q) && !TakesAway(a, id)
    ensures QueuedAgain(Apply(cfg, s, a), id, q)
  {
    StepIsRowwise(cfg, s, a, id);
  }

  lemma EnqueueQueues(cfg: Config, s: State, a: Step)
    requires Enabled(s, a) && a.Enqueue?
    ensures QueuedAgain(Apply(cfg, s, a), a.m.id, SentTo(a.m, a.delay))
  {
  }

  /** A message re-enqueued on its own queue survives any number of late acks, as long as no claim takes it. */
  lemma {:induction false} RequeuedSurvivesAck(cfg: Config, r: Run, i: nat, k: nat)
    requires IsRun(cfg, r) && i < k < |r.states| && r.steps[i].Enqueue?
    requires forall j | i < j < k :: !TakesAway(r.steps[j], r.steps[i].m.id)
    ensures QueuedAgain(r.states[k], r.steps[i].m.id, SentTo(r.steps[i].m, r.steps[i].delay))
  {
    if i == k - 1 {
      EnqueueQueues(cfg, r.states[i], r.steps[i]);
    } else {
      RequeuedSurvivesAck(cfg, r, i, k - 1);
      QueuedAgainStep(cfg, r.states[k - 1], r.steps[k - 1], r.steps[i].m.id,
                      SentTo(r.steps[i].m, r.steps[i].delay));
    }
  }

  /** An ack removes exactly a row that is consumed on the queue it names: it is the claim in between
      that exposes a re-enqueued message to the late ack of its previous delivery. */
  lemma AckRemovesIff(cfg: Config, s: State, a: Step)
    requires Enabled(s, a) && a.Ack? && a.id in s.db.queue
    ensures a.id !in Apply(cfg, s, a).db.queue
            <==> s.db.queue[a.id].queue == a.q && s.db.queue[a.id].state == Consumed
    ensures a.id in Apply(cfg, s, a).db.queue ==> Apply(cfg, s, a).db.queue[a.id] == s.db.queue[a.id]
  {
    StepIsRowwise(cfg, s, a, a.id);
  }

  /** Re-enqueued without a delay and claimed again, a message is deleted by the ack of its first
      processing, which another worker sends. */
  lemma LateAckDeletesReclaimed(cfg: Config, s: State, m: Message, w: WorkerId, v: WorkerId)
    requires Serves(s, w, m.queue) && Serves(s, v, m.queue) && v != w
    requires Member(s, v, m.queue).phase.Claiming? && Member(s, v, m.queue).phase.limit > 0
    ensures var s1 := Apply(cfg, s, Step.Enqueue(m, 0));
            var claim := Step.Claim(v, m.queue, [m.id], s.now);
            Enabled(s1, claim) &&
            var s2 := Apply(cfg, s1, claim);
            var ack := Step.Ack(w, m.queue, m.id);
            Enabled(s2, ack) && m.id in s2.db.queue && m.id !in Apply(cfg, s2, ack).db.queue
  {
    var s1 := Apply(cfg, s, Step.Enqueue(m, 0));
    assert IsDue(s1.db.queue[m.id], m.queue, s.now);
    var claim := Step.Claim(v, m.queue, [m.id], s.now);
    assert Enabled(s1, claim);
    StepIsRowwise(cfg, s1, claim, m.id);
    AckRemovesIff(cfg, Apply(cfg, s1, claim), Step.Ack(w, m.queue, m.id));
  }
}
