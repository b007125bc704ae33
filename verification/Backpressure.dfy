/** A live worker never owns more rows of a queue than the prefetch of its consumer, whatever acks,
    nacks, re-enqueues, reaps, requeues, recoveries and flushes interleave. */
module Backpressure {
  import opened Wrappers
  import opened Tables
  import opened Machine
  import opened Rows
  import opened Claims

  predicate OwnedBy(r: Row, w: WorkerId, q: string) {
    r.state == Consumed && r.owner == Some(w) && r.queue == q
  }

  /** The rows that worker `w` owns on queue `q`. */
  function Owned(t: QueueTable, w: WorkerId, q: string): set<MessageId> {
    set i | i in t && OwnedBy(t[i], w, q)
  }

  /** The messages a consumer has in memory: claimed and not yet delivered, or being processed. */
  function Held(c: Consumer): set<MessageId> {
    Ids(c.buffer) + c.inProcessing
  }

  predicate WithinPrefetch(c: Consumer) {
    && |c.buffer| + |c.inProcessing| <= c.prefetch
    && (c.phase.Claiming? ==> c.buffer == [] && c.phase.limit + |c.inProcessing| <= c.prefetch)
  }

  /** The owner of a consumed row is a known process and, if it lives, its consumer of that queue
      has the message in memory. */
  predicate OwnerHolds(s: State, id: MessageId)
    requires id in s.db.queue
  {
    var r := s.db.queue[id];
    r.state == Consumed && r.owner.Some? ==>
      && r.owner.value in s.procs
      && (s.procs[r.owner.value].alive ==>
            Serves(s, r.owner.value, r.queue) && id in Held(Member(s, r.owner.value, r.queue)))
  }

  ghost predicate Bounded(s: State) {
    && (forall w, q | Serves(s, w, q) :: WithinPrefetch(Member(s, w, q)))
    && forall i | i in s.db.queue :: OwnerHolds(s, i)
  }

  // ----- |buffer| + |in_processing| <= prefetch

  lemma PoppedWithin(c: Consumer)
    requires WithinPrefetch(c) && c.phase == Popping
    ensures WithinPrefetch(Popped(c))
  {
  }

  lemma DiscardedWithin(c: Consumer, id: MessageId)
    requires WithinPrefetch(c)
    ensures WithinPrefetch(c.(inProcessing := c.inProcessing - {id}))
  {
    SubsetSize(c.inProcessing - {id}, c.inProcessing);
  }

  lemma WithinPrefetchStep(cfg: Config, s: State, a: Step, w: WorkerId, q: string)
    requires Enabled(s, a) && Bounded(s) && Serves(Apply(cfg, s, a), w, q)
    ensures WithinPrefetch(Member(Apply(cfg, s, a), w, q))
  {
    if Serves(s, w, q) {
      assert WithinPrefetch(Member(s, w, q));
      match a
      case Pop(_, _) => PoppedWithin(Member(s, a.w, a.q));
      case Ack(_, _, id) => DiscardedWithin(Member(s, a.w, a.q), id);
      case Nack(_, _, m) => DiscardedWithin(Member(s, a.w, a.q), m.id);
      case _ =>
    }
  }

  // ----- Every row a live worker owns is in the memory of its consumer

  /** A row is consumed after a step because the step claimed it, or because it was and is unchanged. */
  lemma ConsumedBefore(cfg: Config, s: State, a: Step, id: MessageId)
    requires Enabled(s, a) && id in Apply(cfg, s, a).db.queue
    requires Apply(cfg, s, a).db.queue[id].state == Consumed
    ensures id in s.db.queue
    ensures var r, r' := s.db.queue[id], Apply(cfg, s, a).db.queue[id];
            if a.Claim? && id in a.order then r.queue == a.q && r' == ClaimedRow(r, a.w, a.at) else r' == r
  {
    StepIsRowwise(cfg, s, a, id);
    assert RowAfter(cfg, s, a, id) == Some(Apply(cfg, s, a).db.queue[id]);
  }

  lemma PoppedHolds(c: Consumer)
    ensures Held(Popped(c)) == Held(c)
  {
    if c.buffer != [] {
      assert c.buffer == [c.buffer[0]] + c.buffer[1..];
    }
  }

  lemma AppendedIds(a: seq<Message>, b: seq<Message>)
    ensures Ids(a + b) == Ids(a) + Ids(b)
  {
  }

  predicate At(a: Step, w: WorkerId, q: string) {
    (a.Pop? || a.Claim? || a.Ack? || a.Nack?) && a.w == w && a.q == q
  }

  /** Only four kinds of steps touch the messages a consumer has in memory. */
  lemma MemoryStep(cfg: Config, s: State, a: Step, w: WorkerId, q: string)
    requires Enabled(s, a) && Serves(s, w, q) && Serves(Apply(cfg, s, a), w, q)
    ensures var c, c' := Member(s, w, q), Member(Apply(cfg, s, a), w, q);
            if !At(a, w, q) then c'.buffer == c.buffer && c'.inProcessing == c.inProcessing
            else if a.Pop? then c' == Popped(c)
            else if a.Claim? then c'.buffer == c.buffer + Decoded(s.db.queue, a.order) && c'.inProcessing == c.inProcessing
            else c'.buffer == c.buffer && c'.inProcessing == c.inProcessing - {if a.Ack? then a.id else a.m.id}
  {
  }

  /** Memory loses an id only to the ack or nack of that id, and gains it by a claim. */
  lemma HeldStep(cfg: Config, s: State, a: Step, w: WorkerId, q: string, id: MessageId)
    requires Enabled(s, a) && Serves(s, w, q) && Serves(Apply(cfg, s, a), w, q)
    requires id in Held(Member(s, w, q))
    requires !(a.Ack? && a.w == w && a.q == q && a.id == id) && !(a.Nack? && a.w == w && a.q == q && a.m.id == id)
    ensures id in Held(Member(Apply(cfg, s, a), w, q))
  {
    MemoryStep(cfg, s, a, w, q);
    if At(a, w, q) && a.Pop? {
      PoppedHolds(Member(s, w, q));
    } else if At(a, w, q) && a.Claim? {
      AppendedIds(Member(s, w, q).buffer, Decoded(s.db.queue, a.order));
    }
  }

  lemma ClaimHolds(cfg: Config, s: State, a: Step, id: MessageId)
    requires a.Claim? && Enabled(s, a) && WellFormed(s) && id in a.order
    ensures Serves(Apply(cfg, s, a), a.w, a.q) && id in Held(Member(Apply(cfg, s, a), a.w, a.q))
  {
    var k :| 0 <= k < |a.order| && a.order[k] == id;
    var buffer := Member(s, a.w, a.q).buffer;
    var rows := Decoded(s.db.queue, a.order);
    assert (buffer + rows)[|buffer| + k] == s.db.queue[id].message;
    assert RowOk(id, s.db.queue[id], s.now, s.db.nextPosition);
    assert s.db.queue[id].message in buffer + rows;
  }

  /** The only steps that end a process, or end the service of a queue, are crashes. */
  lemma ServiceStep(cfg: Config, s: State, a: Step, w: WorkerId, q: string)
    requires Enabled(s, a) && w in s.procs
    ensures var s' := Apply(cfg, s, a); w in s'.procs && (s'.procs[w].alive ==> s.procs[w].alive)
    ensures var s' := Apply(cfg, s, a); Serves(s, w, q) && s'.procs[w].alive ==> Serves(s', w, q)
  {
  }

  lemma OwnerHoldsStep(cfg: Config, s: State, a: Step, id: MessageId)
    requires Enabled(s, a) && WellFormed(s) && Bounded(s) && id in Apply(cfg, s, a).db.queue
    ensures OwnerHolds(Apply(cfg, s, a), id)
  {
    var s' := Apply(cfg, s, a);
    var r' := s'.db.queue[id];
    if r'.state == Consumed && r'.owner.Some? {
      ConsumedBefore(cfg, s, a, id);
      if a.Claim? && id in a.order {
        ClaimHolds(cfg, s, a, id);
      } else {
        assert OwnerHolds(s, id);
        ServiceStep(cfg, s, a, r'.owner.value, r'.queue);
        if s'.procs[r'.owner.value].alive {
          StepIsRowwise(cfg, s, a, id);
          HeldStep(cfg, s, a, r'.owner.value, r'.queue, id);
        }
      }
    }
  }

  lemma BoundedStep(cfg: Config, s: State, a: Step)
    requires Enabled(s, a) && WellFormed(s) && Bounded(s)
    ensures Bounded(Apply(cfg, s, a))
  {
    forall w, q | Serves(Apply(cfg, s, a), w, q) ensures WithinPrefetch(Member(Apply(cfg, s, a), w, q)) {
      WithinPrefetchStep(cfg, s, a, w, q);
    }
    forall i | i in Apply(cfg, s, a).db.queue ensures OwnerHolds(Apply(cfg, s, a), i) {
      OwnerHoldsStep(cfg, s, a, i);
    }
  }

  lemma {:induction false} BoundedAlways(cfg: Config, r: Run, k: nat)
    requires IsReachable(cfg, r) && k < |r.states|
    ensures Bounded(r.states[k])
  {
    if k > 0 {
      BoundedAlways(cfg, r, k - 1);
      WellFormedAlways(cfg, r, k - 1);
      BoundedStep(cfg, r.states[k - 1], r.steps[k - 1]);
    }
  }

  // ----- Main results

  lemma {:induction false} IdsSize(ms: seq<Message>)
    ensures |Ids(ms)| <= |ms|
  {
    if ms != [] {
      IdsSize(ms[1..]);
      assert ms == [ms[0]] + ms[1..];
      assert Ids(ms) == {ms[0].id} + Ids(ms[1..]);
    }
  }

  /** In every reachable state, each row a live worker owns is in its memory, and they are at most `prefetch`. */
  lemma OwnedWithinPrefetch(cfg: Config, r: Run, k: nat, w: WorkerId, q: string)
    requires IsReachable(cfg, r) && k < |r.states| && Serves(r.states[k], w, q)
    ensures Owned(r.states[k].db.queue, w, q) <= Held(Member(r.states[k], w, q))
    ensures |Owned(r.states[k].db.queue, w, q)| <= Member(r.states[k], w, q).prefetch
  {
    BoundedAlways(cfg, r, k);
    var s := r.states[k];
    var c := Member(s, w, q);
    forall i | i in Owned(s.db.queue, w, q) ensures i in Held(c) {
      assert OwnerHolds(s, i);
    }
    assert WithinPrefetch(c);
    IdsSize(c.buffer);
    SubsetSize(Owned(s.db.queue, w, q), Held(c));
  }

  /** A live worker owns rows only of the queues it consumes. */
  lemma OwnsOnlyConsumedQueues(cfg: Config, r: Run, k: nat, w: WorkerId, q: string)
    requires IsReachable(cfg, r) && k < |r.states| && w in r.states[k].procs && r.states[k].procs[w].alive
    requires Owned(r.states[k].db.queue, w, q) != {}
    ensures q in r.states[k].procs[w].consumers
  {
    BoundedAlways(cfg, r, k);
    var i :| i in Owned(r.states[k].db.queue, w, q);
    assert OwnerHolds(r.states[k], i);
  }

  lemma BatchBoundStep(cfg: Config, s: State, a: Step, w: WorkerId, q: string)
    requires Enabled(s, a)
    requires Serves(s, w, q) && Member(s, w, q).phase.Claiming? ==> Member(s, w, q).phase.limit <= CLAIM_BATCH_MAX
    ensures var s' := Apply(cfg, s, a);
            Serves(s', w, q) && Member(s', w, q).phase.Claiming? ==> Member(s', w, q).phase.limit <= CLAIM_BATCH_MAX
  {
  }

  lemma {:induction false} BatchBoundAlways(cfg: Config, r: Run, k: nat, w: WorkerId, q: string)
    requires IsReachable(cfg, r) && k < |r.states|
    ensures Serves(r.states[k], w, q) && Member(r.states[k], w, q).phase.Claiming? ==>
              Member(r.states[k], w, q).phase.limit <= CLAIM_BATCH_MAX
  {
    if k > 0 {
      BatchBoundAlways(cfg, r, k - 1, w, q);
      BatchBoundStep(cfg, r.states[k - 1], r.steps[k - 1], w, q);
    }
  }

  /** No claim takes more than min(prefetch - |in_processing|, 256) rows, even when acks arrive
      between the computation of the limit and the claim. */
  lemma ClaimWithinCapacity(cfg: Config, r: Run, k: nat)
    requires IsReachable(cfg, r) && k < |r.steps| && r.steps[k].Claim?
    ensures Enabled(r.states[k], r.steps[k])
    ensures |r.steps[k].order| <= Capacity(Member(r.states[k], r.steps[k].w, r.steps[k].q))
    ensures |r.steps[k].order| <= CLAIM_BATCH_MAX
  {
    BoundedAlways(cfg, r, k);
    BatchBoundAlways(cfg, r, k, r.steps[k].w, r.steps[k].q);
    assert WithinPrefetch(Member(r.states[k], r.steps[k].w, r.steps[k].q));
  }
}
