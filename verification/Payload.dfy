/** Where the content of a row, of a buffer and of a delivery comes from, over whole runs. */
module Payload {
  import opened Wrappers
  import opened Tables
  import opened Machine
  import opened Rows
  import opened Backpressure

  /** How a message enqueued with this delay is stored: on its queue, or on the one with .DQ behind. */
  predicate IsSent(m: Message, delay: nat, sent: Message) {
    sent == if delay == 0 || EndsInDQ(m.queue) then m else m.(queue := m.queue + ".DQ")
  }

  predicate Enqueues(a: Step, id: MessageId) { a.Enqueue? && a.m.id == id }

  /** Step e is the last enqueue of the message before step k. */
  ghost predicate LastEnqueue(r: Run, e: nat, k: nat, id: MessageId) {
    e < k <= |r.steps| && Enqueues(r.steps[e], id) && forall j | e < j < k :: !Enqueues(r.steps[j], id)
  }

  // ----- Rows

  lemma MessageStep(cfg: Config, s: State, a: Step, id: MessageId)
    requires Enabled(s, a) && id in Apply(cfg, s, a).db.queue && Apply(cfg, s, a).db.queue[id].state != Rejected
    ensures var r' := Apply(cfg, s, a).db.queue[id];
            if Enqueues(a, id) then IsSent(a.m, a.delay, r'.message)
            else id in s.db.queue && s.db.queue[id].state != Rejected && r'.message == s.db.queue[id].message
  {
    StepIsRowwise(cfg, s, a, id);
  }

  /** Unless rejected, a row holds its message, body included, as the last enqueue sent it. */
  lemma {:induction false} RowHoldsLastEnqueue(cfg: Config, r: Run, k: nat, id: MessageId) returns (e: nat)
    requires IsReachable(cfg, r) && k <= |r.steps| && id in r.states[k].db.queue && r.states[k].db.queue[id].state != Rejected
    ensures LastEnqueue(r, e, k, id) && IsSent(r.steps[e].m, r.steps[e].delay, r.states[k].db.queue[id].message)
  {
    if k > 0 {
      assert Follows(cfg, r.states[k - 1], r.steps[k - 1], r.states[k]);
      MessageStep(cfg, r.states[k - 1], r.steps[k - 1], id);
      if Enqueues(r.steps[k - 1], id) {
        e := k - 1;
      } else {
        e := RowHoldsLastEnqueue(cfg, r, k - 1, id);
      }
    }
  }

  /** A consumed row was claimed by its owner at its consumed_at, which is its mtime, and is unchanged since. */
  lemma {:induction false} ClaimedSince(cfg: Config, r: Run, k: nat, id: MessageId) returns (i: nat)
    requires IsReachable(cfg, r) && k <= |r.steps| && id in r.states[k].db.queue && r.states[k].db.queue[id].state == Consumed
    ensures i < k && r.steps[i].Claim? && id in r.steps[i].order
    ensures var row := r.states[k].db.queue[id];
            && row.owner == Some(r.steps[i].w) && row.queue == r.steps[i].q
            && row.consumedAt == Some(r.steps[i].at) && row.mtime == r.steps[i].at && r.steps[i].at <= r.states[i].now
            && forall j | i < j <= k :: Look(r.states[j].db.queue, id) == Some(row)
  {
    if k > 0 {
      var s, a := r.states[k - 1], r.steps[k - 1];
      assert Follows(cfg, s, a, r.states[k]);
      ConsumedBefore(cfg, s, a, id);
      if a.Claim? && id in a.order {
        i := k - 1;
      } else {
        i := ClaimedSince(cfg, r, k - 1, id);
      }
    }
  }

  // ----- Buffers

  /** Step j is a claim by (w, q) of the row that holds `m` then, queued and available. */
  ghost predicate ClaimsMessage(r: Run, j: nat, w: WorkerId, q: string, m: Message) {
    && j < |r.steps| && j < |r.states| && r.steps[j].Claim? && r.steps[j].w == w && r.steps[j].q == q && m.id in r.steps[j].order
    && m.id in r.states[j].db.queue && r.states[j].db.queue[m.id].message == m
    && r.states[j].db.queue[m.id].state == Queued && r.states[j].db.queue[m.id].queue == q
    && r.states[j].db.queue[m.id].availableAt <= r.steps[j].at
  }

  /** Where the message at index x of a buffer was one step before: at an index of the buffer, or in the
      row that the step claims. */
  lemma BufferStep(cfg: Config, s: State, a: Step, w: WorkerId, q: string, x: nat)
    requires Enabled(s, a) && WellFormed(s) && Serves(Apply(cfg, s, a), w, q) && x < |Member(Apply(cfg, s, a), w, q).buffer|
    ensures Serves(s, w, q)
    ensures var was, m := Member(s, w, q).buffer, Member(Apply(cfg, s, a), w, q).buffer[x];
            if a.Claim? && a.w == w && a.q == q && x >= |was| then
              && m.id in a.order && m.id in s.db.queue && s.db.queue[m.id].message == m
              && s.db.queue[m.id].state == Queued && s.db.queue[m.id].queue == q && s.db.queue[m.id].availableAt <= a.at
            else
              var y := if a == Pop(w, q) then x + 1 else x;
              y < |was| && was[y] == m
  {
    if Serves(s, w, q) {
      MemoryStep(cfg, s, a, w, q);
      if a.Claim? && a.w == w && a.q == q && x >= |Member(s, w, q).buffer| {
        var i := a.order[x - |Member(s, w, q).buffer|];
        assert RowOk(i, s.db.queue[i], s.now, s.db.nextPosition);
      }
    }
  }

  /** Every message in a buffer was claimed by this consumer, from a row that held exactly it. */
  lemma {:induction false} BufferIsClaimed(cfg: Config, r: Run, k: nat, w: WorkerId, q: string, x: nat) returns (j: nat)
    requires IsReachable(cfg, r) && k <= |r.steps| && Serves(r.states[k], w, q) && x < |Member(r.states[k], w, q).buffer|
    ensures j < k && ClaimsMessage(r, j, w, q, Member(r.states[k], w, q).buffer[x])
  {
    if k > 0 {
      var s, a := r.states[k - 1], r.steps[k - 1];
      assert Follows(cfg, s, a, r.states[k]);
      WellFormedAlways(cfg, r, k - 1);
      BufferStep(cfg, s, a, w, q, x);
      if a.Claim? && a.w == w && a.q == q && x >= |Member(s, w, q).buffer| {
        j := k - 1;
      } else {
        j := BufferIsClaimed(cfg, r, k - 1, w, q, if a == Pop(w, q) then x + 1 else x);
      }
    }
  }

  /** Every message delivered is, body included, the one that the last enqueue of its id before its claim sent. */
  lemma DeliveredAsEnqueued(cfg: Config, r: Run, k: nat, w: WorkerId, q: string) returns (e: nat, j: nat)
    requires IsReachable(cfg, r) && k < |r.steps| && r.steps[k] == Pop(w, q)
    requires Serves(r.states[k], w, q) && Member(r.states[k], w, q).buffer != []
    ensures var m := Member(r.states[k], w, q).buffer[0];
            && e < j < k && ClaimsMessage(r, j, w, q, m) && LastEnqueue(r, e, j, m.id)
            && IsSent(r.steps[e].m, r.steps[e].delay, m)
    // What the step delivers: the first message leaves the buffer and is in process.
    ensures var c, c' := Member(r.states[k], w, q), r.states[k + 1].procs[w].consumers[q];
            c.buffer == [c.buffer[0]] + c'.buffer && c'.inProcessing == c.inProcessing + {c.buffer[0].id}
  {
    assert Follows(cfg, r.states[k], r.steps[k], r.states[k + 1]);
    j := BufferIsClaimed(cfg, r, k, w, q, 0);
    e := RowHoldsLastEnqueue(cfg, r, j, Member(r.states[k], w, q).buffer[0].id);
  }
}
