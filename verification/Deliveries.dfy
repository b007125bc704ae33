/** What a consumer has delivered and not yet seen settled.  The set `in_processing` counts a message
    once, so a row that is put back while it is in memory may be claimed and delivered again by the
    same consumer: the deliveries outstanding are at most the prefetch plus these put-backs. */
module Deliveries {
  import opened Wrappers
  import opened Tables
  import opened Machine
  import opened Rows
  import opened Claims
  import opened Backpressure
  import opened Conservation

  /** The step delivers a message from the buffer of (w, q). */
  predicate Delivers(s: State, a: Step, w: WorkerId, q: string) {
    a == Pop(w, q) && Serves(s, w, q) && Member(s, w, q).buffer != []
  }

  /** The deliveries outstanding at (w, q) after one more step: each ack or nack settles one of its message. */
  ghost function OutstandingAfter(u: multiset<MessageId>, s: State, a: Step, w: WorkerId, q: string): multiset<MessageId> {
    if Delivers(s, a, w, q) then u + multiset{Member(s, w, q).buffer[0].id}
    else if a.Ack? && a.w == w && a.q == q then u - multiset{a.id}
    else if a.Nack? && a.w == w && a.q == q then u - multiset{a.m.id}
    else u
  }

  ghost function Outstanding(r: Run, k: nat, w: WorkerId, q: string): multiset<MessageId>
    requires k <= |r.steps| && k < |r.states|
  {
    if k == 0 then multiset{} else OutstandingAfter(Outstanding(r, k - 1, w, q), r.states[k - 1], r.steps[k - 1], w, q)
  }

  predicate Repeats(s: State, a: Step, w: WorkerId, q: string) {
    Delivers(s, a, w, q) && Member(s, w, q).buffer[0].id in Member(s, w, q).inProcessing
  }

  /** How often a message was delivered while it was being processed already. */
  ghost function Repeated(r: Run, k: nat, w: WorkerId, q: string): nat
    requires k <= |r.steps| && k < |r.states|
  {
    if k == 0 then 0 else Repeated(r, k - 1, w, q) + One(Repeats(r.states[k - 1], r.steps[k - 1], w, q))
  }

  predicate Returns(e: Event) { e.Inserted? || e.ReEnqueued? || e.Reaped? || e.Requeued? || e.Recovered? }

  /** The messages in the memory of (w, q) whose rows the step puts on queue `q` again. */
  ghost function PutBackHeld(cfg: Config, s: State, a: Step, w: WorkerId, q: string): set<MessageId>
    requires Enabled(s, a)
  {
    if !Serves(s, w, q) then {}
    else
      set i | i in Held(Member(s, w, q)) && Returns(EventOf(cfg, s, a, i))
              && i in Apply(cfg, s, a).db.queue && Apply(cfg, s, a).db.queue[i].queue == q
  }

  /** That is, the rows that the step enqueues there, or takes there from consumed to queued. */
  lemma PutBackHeldIs(cfg: Config, s: State, a: Step, w: WorkerId, q: string, i: MessageId)
    requires Enabled(s, a) && Serves(s, w, q)
    ensures i in PutBackHeld(cfg, s, a, w, q) <==>
              && i in Ids(Member(s, w, q).buffer) + Member(s, w, q).inProcessing
              && i in Apply(cfg, s, a).db.queue && Apply(cfg, s, a).db.queue[i].queue == q
              && Apply(cfg, s, a).db.queue[i].state == Queued
              && ((a.Enqueue? && a.m.id == i) || (!a.Enqueue? && i in s.db.queue && s.db.queue[i].state == Consumed))
  {
    EventIsSeen(cfg, s, a, i);
    StepIsRowwise(cfg, s, a, i);
  }

  /** How many rows were put back while their messages were in the memory of (w, q). */
  ghost function TotalPutBack(cfg: Config, r: Run, k: nat, w: WorkerId, q: string): nat
    requires IsRun(cfg, r) && k <= |r.steps|
  {
    if k == 0 then 0
    else
      assert Follows(cfg, r.states[k - 1], r.steps[k - 1], r.states[k - 1 + 1]);
      TotalPutBack(cfg, r, k - 1, w, q) + |PutBackHeld(cfg, r.states[k - 1], r.steps[k - 1], w, q)|
  }

  // ----- Every repetition is paid by a put-back

  /** How many copies the memory holds beyond one of each message. */
  function Extra(c: Consumer): int {
    |c.buffer| + |c.inProcessing| - |Held(c)|
  }

  /** Messages in memory whose rows can be claimed again. */
  function Claimable(s: State, w: WorkerId, q: string): set<MessageId>
    requires Serves(s, w, q)
  {
    set i | i in Held(Member(s, w, q)) && i in s.db.queue && s.db.queue[i].state == Queued && s.db.queue[i].queue == q
  }

  lemma ExtraAfterPop(c: Consumer)
    ensures Extra(Popped(c)) == Extra(c) - One(c.buffer != [] && c.buffer[0].id in c.inProcessing)
  {
    PoppedHolds(c);
    if c.buffer != [] && c.buffer[0].id in c.inProcessing {
      assert c.inProcessing + {c.buffer[0].id} == c.inProcessing;
    }
  }

  lemma ExtraAfterDiscard(c: Consumer, id: MessageId)
    ensures Extra(c.(inProcessing := c.inProcessing - {id})) <= Extra(c)
  {
    var c' := c.(inProcessing := c.inProcessing - {id});
    if id in c.inProcessing {
      assert |c.inProcessing| == |c'.inProcessing| + 1;
      SubsetSize(Held(c), Held(c') + {id});
    } else {
      assert c' == c;
    }
  }

  lemma DecodedIds(t: QueueTable, order: seq<MessageId>)
    requires forall i | i in order :: i in t && t[i].message.id == i
    ensures Ids(Decoded(t, order)) == Elements(order)
  {
    var ms := Decoded(t, order);
    forall i | i in Elements(order) ensures i in Ids(ms) {
      var k :| 0 <= k < |order| && order[k] == i;
      assert ms[k] in ms && ms[k].id == i;
    }
    forall i | i in Ids(ms) ensures i in Elements(order) {
      var m :| m in ms && m.id == i;
      var k :| 0 <= k < |ms| && ms[k] == m;
      assert order[k] in order;
    }
  }

  lemma UnionSize(a: set<MessageId>, b: set<MessageId>)
    ensures |a + b| + |a * b| == |a| + |b|
  {
    assert a + b == a + (b - a);
    assert |b| == |b - a| + |a * b| by {
      assert b == (b - a) + (a * b);
    }
  }

  /** A claim by the consumer: what it had in memory already is what it holds twice from now on. */
  lemma ExtraAfterClaim(s: State, a: Step, cfg: Config)
    requires a.Claim? && Enabled(s, a) && WellFormed(s) && WithinPrefetch(Member(s, a.w, a.q))
    ensures Serves(Apply(cfg, s, a), a.w, a.q)
    ensures Extra(Member(Apply(cfg, s, a), a.w, a.q)) == |Elements(a.order) * Member(s, a.w, a.q).inProcessing|
    ensures Elements(a.order) * Member(s, a.w, a.q).inProcessing <= Claimable(s, a.w, a.q)
    ensures Extra(Member(s, a.w, a.q)) == 0
  {
    var c, c' := Member(s, a.w, a.q), Member(Apply(cfg, s, a), a.w, a.q);
    forall i | i in a.order ensures i in s.db.queue && s.db.queue[i].message.id == i {
      assert RowOk(i, s.db.queue[i], s.now, s.db.nextPosition);
    }
    DecodedIds(s.db.queue, a.order);
    ListingSize(a.order);
    assert Held(c) == c.inProcessing;
    assert c'.buffer == Decoded(s.db.queue, a.order);
    assert Held(c') == Elements(a.order) + c.inProcessing;
    UnionSize(Elements(a.order), c.inProcessing);
  }

  lemma ClaimableStep(cfg: Config, s: State, a: Step, w: WorkerId, q: string, i: MessageId)
    requires Enabled(s, a) && Serves(s, w, q) && Serves(Apply(cfg, s, a), w, q)
    requires i in Claimable(Apply(cfg, s, a), w, q) && i in Held(Member(s, w, q))
    ensures i in Claimable(s, w, q) || i in PutBackHeld(cfg, s, a, w, q)
    ensures !(a.Claim? && i in a.order)
  {
    StepIsRowwise(cfg, s, a, i);
    assert RowAfter(cfg, s, a, i) == Some(Apply(cfg, s, a).db.queue[i]);
  }

  /** Only a claim brings messages into memory. */
  lemma HeldBefore(cfg: Config, s: State, a: Step, w: WorkerId, q: string, i: MessageId)
    requires Enabled(s, a) && Serves(s, w, q) && Serves(Apply(cfg, s, a), w, q)
    requires i in Held(Member(Apply(cfg, s, a), w, q)) && !(a.Claim? && a.w == w && a.q == q)
    ensures i in Held(Member(s, w, q))
  {
    MemoryStep(cfg, s, a, w, q);
    if At(a, w, q) && a.Pop? {
      PoppedHolds(Member(s, w, q));
    }
  }

  lemma ClaimableGrows(cfg: Config, s: State, a: Step, w: WorkerId, q: string)
    requires Enabled(s, a) && Serves(s, w, q) && Serves(Apply(cfg, s, a), w, q) && !(a.Claim? && a.w == w && a.q == q)
    ensures |Claimable(Apply(cfg, s, a), w, q)| <= |Claimable(s, w, q)| + |PutBackHeld(cfg, s, a, w, q)|
  {
    var after, both := Claimable(Apply(cfg, s, a), w, q), Claimable(s, w, q) + PutBackHeld(cfg, s, a, w, q);
    forall i | i in after ensures i in both {
      HeldBefore(cfg, s, a, w, q, i);
      ClaimableStep(cfg, s, a, w, q, i);
    }
    SubsetSize(after, both);
  }

  lemma ClaimedNotClaimable(cfg: Config, s: State, a: Step, i: MessageId)
    requires a.Claim? && Enabled(s, a) && WellFormed(s) && Serves(Apply(cfg, s, a), a.w, a.q)
    requires i in Claimable(Apply(cfg, s, a), a.w, a.q)
    ensures i in Held(Member(s, a.w, a.q)) && i !in a.order
  {
    StepIsRowwise(cfg, s, a, i);
    MemoryStep(cfg, s, a, a.w, a.q);
    forall j | j in a.order ensures j in s.db.queue && s.db.queue[j].message.id == j {
      assert RowOk(j, s.db.queue[j], s.now, s.db.nextPosition);
    }
    DecodedIds(s.db.queue, a.order);
    AppendedIds(Member(s, a.w, a.q).buffer, Decoded(s.db.queue, a.order));
  }

  lemma ClaimableAfterClaim(cfg: Config, s: State, a: Step)
    requires a.Claim? && Enabled(s, a) && WellFormed(s) && WithinPrefetch(Member(s, a.w, a.q))
    ensures Serves(Apply(cfg, s, a), a.w, a.q)
    ensures |Claimable(Apply(cfg, s, a), a.w, a.q)| + Extra(Member(Apply(cfg, s, a), a.w, a.q)) <= |Claimable(s, a.w, a.q)|
  {
    ExtraAfterClaim(s, a, cfg);
    var taken := Elements(a.order) * Member(s, a.w, a.q).inProcessing;
    var before, after := Claimable(s, a.w, a.q), Claimable(Apply(cfg, s, a), a.w, a.q);
    forall i | i in after ensures i in before - taken {
      ClaimedNotClaimable(cfg, s, a, i);
      ClaimableStep(cfg, s, a, a.w, a.q, i);
      assert PutBackHeld(cfg, s, a, a.w, a.q) == {};
    }
    SubsetSize(after, before - taken);
  }

  /** Extra copies and repetitions come from rows that could be claimed again, and these from put-backs. */
  lemma ExtraStep(cfg: Config, s: State, a: Step, w: WorkerId, q: string)
    requires Enabled(s, a) && WellFormed(s) && Bounded(s) && Serves(s, w, q) && Serves(Apply(cfg, s, a), w, q)
    ensures Extra(Member(Apply(cfg, s, a), w, q)) + |Claimable(Apply(cfg, s, a), w, q)| + One(Repeats(s, a, w, q))
         <= Extra(Member(s, w, q)) + |Claimable(s, w, q)| + |PutBackHeld(cfg, s, a, w, q)|
  {
    assert WithinPrefetch(Member(s, w, q));
    if a.Claim? && a.w == w && a.q == q {
      ExtraAfterClaim(s, a, cfg);
      ClaimableAfterClaim(cfg, s, a);
    } else {
      MemoryStep(cfg, s, a, w, q);
      ClaimableGrows(cfg, s, a, w, q);
      ExtraAfterPop(Member(s, w, q));
      if a.Ack? {
        ExtraAfterDiscard(Member(s, w, q), a.id);
      } else if a.Nack? {
        ExtraAfterDiscard(Member(s, w, q), a.m.id);
      }
    }
  }

  // ----- Over runs

  /** The consumer is not open yet. */
  predicate NotYet(s: State, w: WorkerId, q: string) {
    w !in s.procs || q !in s.procs[w].consumers
  }

  lemma NotYetStep(cfg: Config, s: State, a: Step, w: WorkerId, q: string)
    requires Enabled(s, a) && NotYet(Apply(cfg, s, a), w, q)
    ensures NotYet(s, w, q)
  {
  }

  lemma {:induction false} NothingYet(cfg: Config, r: Run, k: nat, w: WorkerId, q: string)
    requires IsRun(cfg, r) && k <= |r.steps| && NotYet(r.states[k], w, q)
    ensures Outstanding(r, k, w, q) == multiset{} && Repeated(r, k, w, q) == 0
  {
    if k > 0 {
      assert Follows(cfg, r.states[k - 1], r.steps[k - 1], r.states[k]);
      NotYetStep(cfg, r.states[k - 1], r.steps[k - 1], w, q);
      NothingYet(cfg, r, k - 1, w, q);
    }
  }

  /** A consumer that serves now did before, or is new and has an empty memory. */
  lemma NewConsumer(cfg: Config, s: State, a: Step, w: WorkerId, q: string)
    requires Enabled(s, a) && Serves(Apply(cfg, s, a), w, q) && !Serves(s, w, q)
    ensures NotYet(s, w, q) && a.OpenConsumer?
    ensures Member(Apply(cfg, s, a), w, q).buffer == [] && Member(Apply(cfg, s, a), w, q).inProcessing == {}
  {
  }

  /** All messages in process are outstanding, and what is outstanding beyond them was delivered repeatedly. */
  ghost predicate Accounted(c: Consumer, u: multiset<MessageId>, repeated: nat) {
    |u| <= |c.inProcessing| + repeated && forall i | i in c.inProcessing :: i in u
  }

  lemma Smaller(u: multiset<MessageId>, id: MessageId)
    ensures |u - multiset{id}| == |u| - One(id in u)
  {
    if id in u {
      assert u == (u - multiset{id}) + multiset{id};
    } else {
      assert u - multiset{id} == u;
    }
  }

  lemma DiscardAccounted(c: Consumer, u: multiset<MessageId>, repeated: nat, id: MessageId)
    requires Accounted(c, u, repeated)
    ensures Accounted(c.(inProcessing := c.inProcessing - {id}), u - multiset{id}, repeated)
  {
    Smaller(u, id);
    if id in c.inProcessing {
      assert |c.inProcessing| == |c.inProcessing - {id}| + 1;
    } else {
      assert c.inProcessing - {id} == c.inProcessing;
    }
  }

  lemma PopAccounted(c: Consumer, u: multiset<MessageId>, repeated: nat)
    requires Accounted(c, u, repeated) && c.buffer != []
    ensures Accounted(Popped(c), u + multiset{c.buffer[0].id}, repeated + One(c.buffer[0].id in c.inProcessing))
  {
    if c.buffer[0].id in c.inProcessing {
      assert c.inProcessing + {c.buffer[0].id} == c.inProcessing;
    }
  }

  lemma AccountedStep(cfg: Config, s: State, a: Step, w: WorkerId, q: string, u: multiset<MessageId>, repeated: nat)
    requires Enabled(s, a) && Serves(s, w, q) && Serves(Apply(cfg, s, a), w, q)
    requires Accounted(Member(s, w, q), u, repeated)
    ensures Accounted(Member(Apply(cfg, s, a), w, q), OutstandingAfter(u, s, a, w, q), repeated + One(Repeats(s, a, w, q)))
  {
    MemoryStep(cfg, s, a, w, q);
    if Delivers(s, a, w, q) {
      PopAccounted(Member(s, w, q), u, repeated);
    } else if At(a, w, q) && a.Ack? {
      DiscardAccounted(Member(s, w, q), u, repeated, a.id);
    } else if At(a, w, q) && a.Nack? {
      DiscardAccounted(Member(s, w, q), u, repeated, a.m.id);
    }
  }

  lemma {:induction false} AccountedAlways(cfg: Config, r: Run, k: nat, w: WorkerId, q: string)
    requires IsReachable(cfg, r) && k <= |r.steps| && Serves(r.states[k], w, q)
    ensures Accounted(Member(r.states[k], w, q), Outstanding(r, k, w, q), Repeated(r, k, w, q))
  {
    if k > 0 {
      var s, a := r.states[k - 1], r.steps[k - 1];
      assert Follows(cfg, s, a, r.states[k]);
      if Serves(s, w, q) {
        AccountedAlways(cfg, r, k - 1, w, q);
        AccountedStep(cfg, s, a, w, q, Outstanding(r, k - 1, w, q), Repeated(r, k - 1, w, q));
      } else {
        NewConsumer(cfg, s, a, w, q);
        NothingYet(cfg, r, k - 1, w, q);
      }
    }
  }

  /** Repetitions so far, extra copies in memory and rows that could be claimed again: each is paid by a put-back. */
  lemma {:induction false} RepetitionsPaid(cfg: Config, r: Run, k: nat, w: WorkerId, q: string)
    requires IsReachable(cfg, r) && k <= |r.steps| && Serves(r.states[k], w, q)
    ensures Repeated(r, k, w, q) + Extra(Member(r.states[k], w, q)) + |Claimable(r.states[k], w, q)|
         <= TotalPutBack(cfg, r, k, w, q)
  {
    if k > 0 {
      var s, a := r.states[k - 1], r.steps[k - 1];
      assert Follows(cfg, s, a, r.states[k]);
      if Serves(s, w, q) {
        RepetitionsPaid(cfg, r, k - 1, w, q);
        WellFormedAlways(cfg, r, k - 1);
        BoundedAlways(cfg, r, k - 1);
        ExtraStep(cfg, s, a, w, q);
      } else {
        NewConsumer(cfg, s, a, w, q);
        NothingYet(cfg, r, k - 1, w, q);
        assert Claimable(r.states[k], w, q) == {};
      }
    }
  }

  lemma ExtraIsNonNegative(c: Consumer)
    ensures Extra(c) >= 0
  {
    IdsSize(c.buffer);
    UnionSize(Ids(c.buffer), c.inProcessing);
  }

  /** In every run: deliveries not yet acked or nacked, and messages in the buffer, are at most the prefetch
      plus the rows put back while the consumer had their messages in memory. */
  lemma OutstandingBounded(cfg: Config, r: Run, k: nat, w: WorkerId, q: string)
    requires IsReachable(cfg, r) && k <= |r.steps| && Serves(r.states[k], w, q)
    ensures |Outstanding(r, k, w, q)| + |Member(r.states[k], w, q).buffer|
         <= Member(r.states[k], w, q).prefetch + TotalPutBack(cfg, r, k, w, q)
  {
    AccountedAlways(cfg, r, k, w, q);
    RepetitionsPaid(cfg, r, k, w, q);
    ExtraIsNonNegative(Member(r.states[k], w, q));
    BoundedAlways(cfg, r, k);
    assert WithinPrefetch(Member(r.states[k], w, q));
  }

  // ----- A prefetch of one

  /** Whoever is full with one message never delivers it twice. */
  lemma NoRepeatWithinOne(s: State, a: Step, w: WorkerId, q: string)
    requires Serves(s, w, q) && WithinPrefetch(Member(s, w, q)) && Member(s, w, q).prefetch <= 1
    ensures !Repeats(s, a, w, q)
  {
    assert Member(s, w, q).inProcessing != {} ==> |Member(s, w, q).inProcessing| >= 1;
  }

  lemma PrefetchKept(cfg: Config, s: State, a: Step, w: WorkerId, q: string)
    requires Enabled(s, a) && Serves(s, w, q) && Serves(Apply(cfg, s, a), w, q)
    ensures Member(Apply(cfg, s, a), w, q).prefetch == Member(s, w, q).prefetch
  {
  }

  lemma {:induction false} NoneRepeated(cfg: Config, r: Run, k: nat, w: WorkerId, q: string)
    requires IsReachable(cfg, r) && k <= |r.steps| && Serves(r.states[k], w, q) && Member(r.states[k], w, q).prefetch <= 1
    ensures Repeated(r, k, w, q) == 0
  {
    if k > 0 {
      var s, a := r.states[k - 1], r.steps[k - 1];
      assert Follows(cfg, s, a, r.states[k]);
      if Serves(s, w, q) {
        PrefetchKept(cfg, s, a, w, q);
        NoneRepeated(cfg, r, k - 1, w, q);
        BoundedAlways(cfg, r, k - 1);
        assert WithinPrefetch(Member(s, w, q));
        NoRepeatWithinOne(s, a, w, q);
      } else {
        NewConsumer(cfg, s, a, w, q);
        NothingYet(cfg, r, k - 1, w, q);
      }
    }
  }

  /** A consumer with a prefetch of at most one never has more deliveries outstanding, whatever is put back. */
  lemma OutstandingWithinOne(cfg: Config, r: Run, k: nat, w: WorkerId, q: string)
    requires IsReachable(cfg, r) && k <= |r.steps| && Serves(r.states[k], w, q) && Member(r.states[k], w, q).prefetch <= 1
    ensures |Outstanding(r, k, w, q)| <= Member(r.states[k], w, q).prefetch
  {
    AccountedAlways(cfg, r, k, w, q);
    NoneRepeated(cfg, r, k, w, q);
    BoundedAlways(cfg, r, k);
    assert WithinPrefetch(Member(r.states[k], w, q));
  }
}
