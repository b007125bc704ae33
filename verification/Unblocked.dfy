/** Who waits for whom: a claim skips locked rows and never waits, a claim in flight can always end, and
    of the other statements only those that write a locked row wait. */
module Unblocked {
  import opened Wrappers
  import opened Tables
  import opened Machine
  import opened Rows
  import opened Claims
  import opened TwoPhase
  import opened Progress

  // ----- Claims

  lemma DistinctInRun(cfg: Config, r: TRun, k: nat)
    requires IsReachableT(cfg, r) && k < |r.states|
    ensures WellFormed(r.states[k].s)
  {
    TwoPhaseRefinesAtomic(cfg, r);
    WellFormedAlways(cfg, Atomic(r), k);
  }

  /** Whatever is in flight, a consumer that is about to claim can begin. */
  lemma ClaimNeverWaits(cfg: Config, r: TRun, k: nat, w: WorkerId, q: string) returns (chosen: set<MessageId>)
    requires IsReachableT(cfg, r) && k < |r.states| && Serves(r.states[k].s, w, q)
    requires Member(r.states[k].s, w, q).phase.Claiming? && (w, q) !in r.states[k].inFlight
    ensures TEnabled(cfg, r.states[k], Begin(w, q, chosen))
  {
    DistinctInRun(cfg, r, k);
    var t := r.states[k];
    chosen := FirstExists(t.s.db.queue, Unlocked(t, q), Member(t.s, w, q).phase.limit);
  }

  /** A row that a claim may take: queued on `q`, available, and in no claim in flight. */
  ghost predicate Free(t: TState, q: string, id: MessageId) {
    && id in t.s.db.queue && t.s.db.queue[id].queue == q && t.s.db.queue[id].state == Queued
    && t.s.db.queue[id].availableAt <= t.s.now
    && forall k | k in t.inFlight :: id !in t.inFlight[k].chosen
  }

  lemma FreeIsUnlocked(t: TState, q: string, id: MessageId)
    ensures Free(t, q, id) <==> id in Unlocked(t, q)
  {
    assert Locked(t, id) <==> exists k :: k in t.inFlight && id in t.inFlight[k].chosen;
  }

  /** What a claim that begins locks: free rows only, and one is left out only if the limit is used up by
      rows that were available earlier, or as early and enqueued before it. */
  lemma BeginLocksFirstFree(cfg: Config, t: TState, a: TStep)
    requires a.Begin? && TEnabled(cfg, t, a)
    ensures var t' := TApply(cfg, t, a);
            t'.s == t.s && t'.inFlight.Keys == t.inFlight.Keys + {(a.w, a.q)}
            && t'.inFlight[(a.w, a.q)].chosen == a.chosen && t'.inFlight[(a.w, a.q)].at == t.s.now
            && forall k | k in t.inFlight && k != (a.w, a.q) :: t'.inFlight[k] == t.inFlight[k]
    ensures forall i | i in a.chosen :: Free(t, a.q, i)
    ensures |a.chosen| <= Member(t.s, a.w, a.q).phase.limit
    ensures forall i, j | Free(t, a.q, i) && i !in a.chosen && j in a.chosen ::
              && |a.chosen| == Member(t.s, a.w, a.q).phase.limit && j in t.s.db.queue
              && (t.s.db.queue[j].availableAt < t.s.db.queue[i].availableAt
                  || (t.s.db.queue[j].availableAt == t.s.db.queue[i].availableAt && t.s.db.queue[j].position < t.s.db.queue[i].position))
    ensures forall i | Free(t, a.q, i) && i !in a.chosen :: |a.chosen| == Member(t.s, a.w, a.q).phase.limit
  {
    var limit := Member(t.s, a.w, a.q).phase.limit;
    forall i ensures Free(t, a.q, i) <==> i in Unlocked(t, a.q) {
      FreeIsUnlocked(t, a.q, i);
    }
    forall i | Free(t, a.q, i) && i !in a.chosen
      ensures |a.chosen| == limit && forall j | j in a.chosen :: Precedes(t.s.db.queue[j], t.s.db.queue[i])
    {
      LeftOutMeansFull(t.s.db.queue, Unlocked(t, a.q), limit, a.chosen, i);
    }
  }

  lemma {:induction false} Listing(ids: set<MessageId>) returns (order: seq<MessageId>)
    ensures Distinct(order) && Elements(order) == ids
  {
    if ids == {} {
      order := [];
    } else {
      var i :| i in ids;
      var rest := Listing(ids - {i});
      assert i !in Elements(rest);
      forall x | 0 <= x < |rest| ensures rest[x] != i {
        assert rest[x] in Elements(rest);
      }
      order := rest + [i];
      assert Elements(order) == Elements(rest) + {i};
    }
  }

  /** A claim in flight can always commit, in any order of its rows, and can always abort; its rows are
      then those of no claim in flight. */
  lemma ClaimCanEnd(cfg: Config, r: TRun, k: nat, w: WorkerId, q: string) returns (order: seq<MessageId>)
    requires IsReachableT(cfg, r) && k < |r.states| && (w, q) in r.states[k].inFlight
    ensures TEnabled(cfg, r.states[k], Commit(w, q, order)) && TEnabled(cfg, r.states[k], Abort(w, q))
    ensures forall other | Distinct(other) && Elements(other) == Elements(order) :: TEnabled(cfg, r.states[k], Commit(w, q, other))
    ensures (w, q) !in TApply(cfg, r.states[k], Commit(w, q, order)).inFlight
    ensures (w, q) !in TApply(cfg, r.states[k], Abort(w, q)).inFlight
    // The abort leaves the tables and the memory as they are, and ends the call.
    ensures var t, t' := r.states[k], TApply(cfg, r.states[k], Abort(w, q));
            t'.s.db == t.s.db && Serves(t.s, w, q) && Serves(t'.s, w, q)
            && Member(t'.s, w, q) == Member(t.s, w, q).(phase := Idle)
  {
    SafeAlways(cfg, r, k);
    assert TxOk(r.states[k].s, (w, q), r.states[k].inFlight[(w, q)]);
    order := Listing(r.states[k].inFlight[(w, q)].chosen);
    CommitIsClaim(cfg, r.states[k], Commit(w, q, order));
  }

  /** What is in flight changes by its own begin and end alone; only a crash of its process ends it otherwise. */
  lemma InFlightAfter(cfg: Config, t: TState, a: TStep, k: ConsumerId)
    requires Safe(t) && TEnabled(cfg, t, a)
    ensures var t' := TApply(cfg, t, a);
            && (k in t.inFlight && k in t'.inFlight ==> t'.inFlight[k] == t.inFlight[k])
            && (k in t'.inFlight <==> || (a.Begin? && k == (a.w, a.q))
                                      || (k in t.inFlight && !((a.Commit? || a.Abort?) && k == (a.w, a.q))
                                          && !(a.Other? && a.a.Crash? && a.a.w == k.0)))
  {
    if a.Commit? {
      CommitIsClaim(cfg, t, a);
    }
  }

  /** A claim in flight began earlier, at the instant it remembers. */
  lemma {:induction false} BeganThen(cfg: Config, r: TRun, j: nat, w: WorkerId, q: string) returns (b: nat)
    requires IsTRun(cfg, r) && j < |r.states| && (w, q) in r.states[j].inFlight
    ensures b < j && r.steps[b] == Begin(w, q, r.states[j].inFlight[(w, q)].chosen)
    ensures r.states[j].inFlight[(w, q)].at == r.states[b].s.now
  {
    if j > 0 {
      assert TFollows(cfg, r.states[j - 1], r.steps[j - 1], r.states[j]);
      if r.steps[j - 1] == Begin(w, q, r.states[j].inFlight[(w, q)].chosen) {
        b := j - 1;
      } else {
        KeptInFlight(cfg, r.states[j - 1], r.steps[j - 1], w, q);
        b := BeganThen(cfg, r, j - 1, w, q);
      }
    }
  }

  /** The rows of a commit are stamped with the instant at which its claim began, and with its worker. */
  lemma CommitStampsBegin(cfg: Config, r: TRun, j: nat) returns (b: nat)
    requires IsReachableT(cfg, r) && j < |r.steps| && r.steps[j].Commit?
    ensures b < j && r.steps[b] == Begin(r.steps[j].w, r.steps[j].q, Elements(r.steps[j].order))
    ensures forall i | i in r.steps[j].order ::
              && i in r.states[j].s.db.queue && i in r.states[j + 1].s.db.queue
              && r.states[j + 1].s.db.queue[i] == r.states[j].s.db.queue[i].(state := Consumed, owner := Some(r.steps[j].w),
                                                    consumedAt := Some(r.states[b].s.now), mtime := r.states[b].s.now)
  {
    assert TFollows(cfg, r.states[j], r.steps[j], r.states[j + 1]);
    SafeAlways(cfg, r, j);
    CommitIsClaim(cfg, r.states[j], r.steps[j]);
    b := BeganThen(cfg, r, j, r.steps[j].w, r.steps[j].q);
    forall i | i in r.steps[j].order ensures i in Elements(r.steps[j].order) {
    }
  }

  // ----- Everything else

  /** The statement has to wait: it would write a row that a claim in flight has locked. */
  ghost predicate MustWait(t: TState, a: Step) {
    || (a.Enqueue? && Locked(t, a.m.id))
    || (a.Nack? && Locked(t, a.m.id) && a.m.id in t.s.db.queue && t.s.db.queue[a.m.id].queue == a.q)
    || (a.Flush? && exists id :: Locked(t, id))
  }

  lemma WritesQueued(cfg: Config, s: State, a: Step, id: MessageId)
    requires Enabled(s, a) && !a.Claim? && id in s.db.queue && s.db.queue[id].state == Queued
    ensures Writes(cfg, s, a, id) <==>
              (a.Enqueue? && a.m.id == id) || (a.Nack? && a.m.id == id && s.db.queue[id].queue == a.q) || a.Flush?
  {
  }

  lemma WritesLocked(cfg: Config, t: TState, a: Step, id: MessageId)
    requires Safe(t) && Enabled(t.s, a) && !a.Claim? && Locked(t, id)
    ensures id in t.s.db.queue && t.s.db.queue[id].state == Queued
    ensures Writes(cfg, t.s, a, id) <==>
              (a.Enqueue? && a.m.id == id) || (a.Nack? && a.m.id == id && t.s.db.queue[id].queue == a.q) || a.Flush?
  {
    var k :| k in t.inFlight && id in t.inFlight[k].chosen;
    assert TxOk(t.s, k, t.inFlight[k]);
    WritesQueued(cfg, t.s, a, id);
  }

  ghost function LockedId(t: TState): (id: MessageId)
    requires exists id :: Locked(t, id)
    ensures Locked(t, id)
  {
    var id :| Locked(t, id);
    id
  }

  /** Acks, requeues, recoveries, maintenances, purges, heartbeats and the steps in memory never wait for a
      claim in flight; an enqueue or nack of a locked message, and a flush while any row is locked, do.  The
      error of a call whose claim is in flight is the abort of the claim. */
  lemma WaitsIff(cfg: Config, r: TRun, k: nat, a: Step)
    requires IsReachableT(cfg, r) && k < |r.states| && Enabled(r.states[k].s, a) && !a.Claim?
    ensures TEnabled(cfg, r.states[k], Other(a)) <==>
              !MustWait(r.states[k], a) && !(a.Raise? && (a.w, a.q) in r.states[k].inFlight)
  {
    var t := r.states[k];
    SafeAlways(cfg, r, k);
    forall id | Locked(t, id)
      ensures Writes(cfg, t.s, a, id) <==>
                (a.Enqueue? && a.m.id == id) || (a.Nack? && a.m.id == id && t.s.db.queue[id].queue == a.q) || a.Flush?
    {
      WritesLocked(cfg, t, a, id);
    }
    if MustWait(t, a) {
      var id := if a.Flush? then LockedId(t) else a.m.id;
      WritesLocked(cfg, t, a, id);
    }
  }
}
