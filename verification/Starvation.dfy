/** A due message is claimed after a bounded number of claims, whatever is enqueued behind it. */
module Starvation {
  import opened Wrappers
  import opened Tables
  import opened Machine
  import opened Rows
  import opened Claims
  import opened Conservation

  /** The queued rows of the target's queue that claims take before it. */
  function Ahead(t: QueueTable, id: MessageId): set<MessageId>
    requires id in t
  {
    set i | i in t && t[i].state == Queued && t[i].queue == t[id].queue && Precedes(t[i], t[id])
  }

  /** The rows that a reap, a requeue or a recovery puts back on the queue. */
  function PutBack(cfg: Config, s: State, a: Step, q: string): set<MessageId>
    requires Enabled(s, a)
  {
    set i | i in s.db.queue && s.db.queue[i].queue == q
            && (EventOf(cfg, s, a, i).Reaped? || EventOf(cfg, s, a, i).Requeued? || EventOf(cfg, s, a, i).Recovered?)
  }

  /** They are the rows of the queue that go from consumed to queued without being enqueued. */
  lemma PutBackIs(cfg: Config, s: State, a: Step, q: string, i: MessageId)
    requires Enabled(s, a)
    ensures i in PutBack(cfg, s, a, q) <==>
              && !a.Enqueue? && i in s.db.queue && s.db.queue[i].queue == q && s.db.queue[i].state == Consumed
              && i in Apply(cfg, s, a).db.queue && Apply(cfg, s, a).db.queue[i].state == Queued
  {
    EventIsSeen(cfg, s, a, i);
  }

  /** A claim on `q`, of at least `least` rows, that takes the first due rows. */
  ghost predicate FullClaim(s: State, a: Step, q: string, least: nat, due: Time)
    requires Enabled(s, a)
  {
    && a.Claim? && a.q == q && due <= a.at && least <= Member(s, a.w, a.q).phase.limit
    && IsFirst(s.db.queue, Due(s.db.queue, q, a.at), Member(s, a.w, a.q).phase.limit, Elements(a.order))
  }

  predicate Waits(s: State, id: MessageId, q: string, due: Time) {
    id in s.db.queue && s.db.queue[id].state == Queued && s.db.queue[id].queue == q && s.db.queue[id].availableAt == due
  }

  /** The step leaves the target to the claims, and what it enqueues becomes available later. */
  predicate LeavesAlone(s: State, a: Step, id: MessageId, due: Time) {
    && (a.Enqueue? ==> a.m.id != id && (due < s.now || (due <= s.now && a.m.id !in s.db.queue)))
    && !(a.Nack? && a.m.id == id)
    && !a.Flush?
  }

  lemma TargetStep(cfg: Config, s: State, a: Step, id: MessageId, q: string, due: Time)
    requires Enabled(s, a) && Waits(s, id, q, due) && LeavesAlone(s, a, id, due)
    requires !(a.Claim? && id in a.order)
    ensures Look(Apply(cfg, s, a).db.queue, id) == Some(s.db.queue[id])
  {
    StepIsRowwise(cfg, s, a, id);
  }

  /** Nothing gets ahead of a waiting row but rows that are put back, and a claim removes what it takes. */
  lemma AheadStep(cfg: Config, s: State, a: Step, id: MessageId, q: string, due: Time, i: MessageId)
    requires Enabled(s, a) && WellFormed(s) && Waits(s, id, q, due) && LeavesAlone(s, a, id, due)
    requires Look(Apply(cfg, s, a).db.queue, id) == Some(s.db.queue[id])
    requires i in Ahead(Apply(cfg, s, a).db.queue, id)
    ensures i in Ahead(s.db.queue, id) || i in PutBack(cfg, s, a, q)
    ensures !(a.Claim? && i in a.order)
  {
    StepIsRowwise(cfg, s, a, i);
    assert RowAfter(cfg, s, a, i) == Some(Apply(cfg, s, a).db.queue[i]);
    assert RowOk(id, s.db.queue[id], s.now, s.db.nextPosition);
  }

  lemma RankStep(cfg: Config, s: State, a: Step, id: MessageId, q: string, due: Time)
    requires Enabled(s, a) && WellFormed(s) && Waits(s, id, q, due) && LeavesAlone(s, a, id, due)
    requires !(a.Claim? && id in a.order)
    ensures Look(Apply(cfg, s, a).db.queue, id) == Some(s.db.queue[id])
    ensures |Ahead(Apply(cfg, s, a).db.queue, id)| <= |Ahead(s.db.queue, id)| + |PutBack(cfg, s, a, q)|
  {
    TargetStep(cfg, s, a, id, q, due);
    var after, both := Ahead(Apply(cfg, s, a).db.queue, id), Ahead(s.db.queue, id) + PutBack(cfg, s, a, q);
    forall i | i in after ensures i in both {
      AheadStep(cfg, s, a, id, q, due, i);
    }
    SubsetSize(after, both);
  }

  /** A claim that takes rows from ahead of the target, `least` or more of them. */
  predicate TakesAhead(s: State, a: Step, id: MessageId, least: nat) {
    && a.Claim? && id in s.db.queue && a.q == s.db.queue[id].queue
    && Elements(a.order) <= Ahead(s.db.queue, id) && least <= |Elements(a.order)|
  }

  /** A full claim that leaves the target out is one. */
  lemma FullClaimTakesAhead(s: State, a: Step, id: MessageId, q: string, due: Time, least: nat)
    requires Enabled(s, a) && Waits(s, id, q, due) && FullClaim(s, a, q, least, due) && id !in a.order
    ensures TakesAhead(s, a, id, least)
  {
    LeftOutMeansFull(s.db.queue, Due(s.db.queue, q, a.at), Member(s, a.w, a.q).phase.limit, Elements(a.order), id);
  }

  /** What such a claim takes is no longer ahead. */
  lemma TakesAheadStep(cfg: Config, s: State, a: Step, id: MessageId, q: string, due: Time, least: nat)
    requires Enabled(s, a) && WellFormed(s) && Waits(s, id, q, due)
    requires TakesAhead(s, a, id, least) && id !in a.order
    ensures Look(Apply(cfg, s, a).db.queue, id) == Some(s.db.queue[id])
    ensures |Ahead(Apply(cfg, s, a).db.queue, id)| + least <= |Ahead(s.db.queue, id)|
  {
    TargetStep(cfg, s, a, id, q, due);
    var before, after, taken := Ahead(s.db.queue, id), Ahead(Apply(cfg, s, a).db.queue, id), Elements(a.order);
    forall i | i in after ensures i in before - taken {
      AheadStep(cfg, s, a, id, q, due, i);
      assert PutBack(cfg, s, a, q) == {};
    }
    SubsetSize(after, before - taken);
  }

  /** Both cases: the rank pays for such a claim, and only rows put back raise it. */
  lemma WaitStep(cfg: Config, s: State, a: Step, id: MessageId, q: string, due: Time, least: nat)
    requires Enabled(s, a) && WellFormed(s) && Waits(s, id, q, due) && LeavesAlone(s, a, id, due)
    requires !(a.Claim? && id in a.order)
    ensures Waits(Apply(cfg, s, a), id, q, due)
    ensures |Ahead(Apply(cfg, s, a).db.queue, id)| + (if TakesAhead(s, a, id, least) then least else 0)
         <= |Ahead(s.db.queue, id)| + |PutBack(cfg, s, a, q)|
  {
    if TakesAhead(s, a, id, least) {
      TakesAheadStep(cfg, s, a, id, q, due, least);
    } else {
      RankStep(cfg, s, a, id, q, due);
    }
  }

  /** How many rows step j puts back. */
  ghost function Returned(cfg: Config, r: Run, j: nat, q: string): nat
    requires IsRun(cfg, r) && j < |r.steps|
  {
    assert Follows(cfg, r.states[j], r.steps[j], r.states[j + 1]);
    |PutBack(cfg, r.states[j], r.steps[j], q)|
  }

  ghost function TotalReturned(cfg: Config, r: Run, i: nat, k: nat, q: string): nat
    requires IsRun(cfg, r) && i <= k <= |r.steps|
  {
    if i == k then 0 else TotalReturned(cfg, r, i, k - 1, q) + Returned(cfg, r, k - 1, q)
  }

  ghost function Rank(r: Run, j: nat, id: MessageId): nat
    requires j < |r.states| && id in r.states[j].db.queue
  {
    |Ahead(r.states[j].db.queue, id)|
  }

  /** Step j leaves the target waiting. */
  predicate Passes(r: Run, j: nat, id: MessageId, due: Time)
    requires j < |r.steps| && j < |r.states|
  {
    LeavesAlone(r.states[j], r.steps[j], id, due) && !(r.steps[j].Claim? && id in r.steps[j].order)
  }

  /** What step j takes from ahead of the target. */
  ghost function Taken(r: Run, j: nat, id: MessageId, least: nat): nat
    requires j < |r.steps| && j < |r.states|
  {
    if TakesAhead(r.states[j], r.steps[j], id, least) then least else 0
  }

  lemma WaitInRun(cfg: Config, r: Run, j: nat, id: MessageId, q: string, due: Time, least: nat)
    requires IsReachable(cfg, r) && j < |r.steps| && Waits(r.states[j], id, q, due) && Passes(r, j, id, due)
    ensures Waits(r.states[j + 1], id, q, due)
    ensures Rank(r, j + 1, id) + Taken(r, j, id, least) <= Rank(r, j, id) + Returned(cfg, r, j, q)
  {
    WellFormedAlways(cfg, r, j);
    assert Follows(cfg, r.states[j], r.steps[j], r.states[j + 1]);
    WaitStep(cfg, r.states[j], r.steps[j], id, q, due, least);
  }

  /** How many of steps i..k are claims from ahead of the target. */
  ghost function ClaimsAhead(r: Run, i: nat, k: nat, id: MessageId, least: nat): nat
    requires i <= k <= |r.steps| && |r.states| == |r.steps| + 1
  {
    if i == k then 0
    else ClaimsAhead(r, i, k - 1, id, least) + if TakesAhead(r.states[k - 1], r.steps[k - 1], id, least) then 1 else 0
  }

  /** The same, summed over steps i..k. */
  ghost function TotalTaken(r: Run, i: nat, k: nat, id: MessageId, least: nat): nat
    requires i <= k <= |r.steps| && |r.states| == |r.steps| + 1
  {
    if i == k then 0 else TotalTaken(r, i, k - 1, id, least) + Taken(r, k - 1, id, least)
  }

  /** While the target waits, its rank pays for every claim from ahead of it; only rows put back raise it. */
  lemma {:induction false} RankDecreases(cfg: Config, r: Run, i: nat, k: nat, id: MessageId, q: string, due: Time, least: nat)
    requires IsReachable(cfg, r) && i <= k <= |r.steps| && Waits(r.states[i], id, q, due)
    requires forall j | i <= j < k :: Passes(r, j, id, due)
    ensures Waits(r.states[k], id, q, due)
    ensures Rank(r, k, id) + TotalTaken(r, i, k, id, least) <= Rank(r, i, id) + TotalReturned(cfg, r, i, k, q)
  {
    if i < k {
      RankDecreases(cfg, r, i, k - 1, id, q, due, least);
      WaitInRun(cfg, r, k - 1, id, q, due, least);
    }
  }

  lemma Distribute(least: nat, n: nat)
    ensures least * (n + 1) == least * n + least
  {
  }

  lemma {:induction false} TakenIsProduct(r: Run, i: nat, k: nat, id: MessageId, least: nat)
    requires i <= k <= |r.steps| && |r.states| == |r.steps| + 1
    ensures TotalTaken(r, i, k, id, least) == least * ClaimsAhead(r, i, k, id, least)
  {
    if i < k {
      TakenIsProduct(r, i, k - 1, id, least);
      Distribute(least, ClaimsAhead(r, i, k - 1, id, least));
    }
  }

  /** While the target waits, the claims from ahead of it, times `least`, are at most its rank and the rows put back. */
  lemma ClaimsAheadPaid(cfg: Config, r: Run, i: nat, k: nat, id: MessageId, q: string, due: Time, least: nat)
    requires IsReachable(cfg, r) && i <= k <= |r.steps| && Waits(r.states[i], id, q, due)
    requires forall j | i <= j < k :: Passes(r, j, id, due)
    ensures least * ClaimsAhead(r, i, k, id, least) <= Rank(r, i, id) + TotalReturned(cfg, r, i, k, q)
  {
    RankDecreases(cfg, r, i, k, id, q, due, least);
    TakenIsProduct(r, i, k, id, least);
  }

  lemma FewerPaid(least: nat, m: nat, n: nat, total: nat)
    requires m <= n && least * n <= total
    ensures least * m <= total
  {
    assert least * (n - m) >= 0;
  }

  ghost predicate IsFullClaim(cfg: Config, r: Run, j: nat, q: string, least: nat, due: Time)
    requires IsRun(cfg, r) && j < |r.steps|
  {
    assert Follows(cfg, r.states[j], r.steps[j], r.states[j + 1]);
    FullClaim(r.states[j], r.steps[j], q, least, due)
  }

  /** How many of steps i..k are full claims. */
  ghost function FullClaims(cfg: Config, r: Run, i: nat, k: nat, q: string, least: nat, due: Time): nat
    requires IsRun(cfg, r) && i <= k <= |r.steps|
  {
    if i == k then 0
    else FullClaims(cfg, r, i, k - 1, q, least, due) + if IsFullClaim(cfg, r, k - 1, q, least, due) then 1 else 0
  }

  lemma OneMoreStep(all: set<nat>, before: set<nat>, last: nat, more: bool)
    requires last !in before && forall j :: j in all <==> j in before || (more && j == last)
    ensures |all| == |before| + if more then 1 else 0
  {
    assert all == if more then before + {last} else before;
  }

  /** The steps among i..k that are full claims. */
  ghost function FullClaimSteps(cfg: Config, r: Run, i: nat, k: nat, q: string, least: nat, due: Time): set<nat>
    requires IsRun(cfg, r) && i <= k <= |r.steps|
  {
    set j: nat | i <= j < k && IsFullClaim(cfg, r, j, q, least, due)
  }

  lemma OneMoreFullClaim(cfg: Config, r: Run, i: nat, k: nat, q: string, least: nat, due: Time)
    requires IsRun(cfg, r) && i < k <= |r.steps|
    ensures |FullClaimSteps(cfg, r, i, k, q, least, due)|
         == |FullClaimSteps(cfg, r, i, k - 1, q, least, due)| + if IsFullClaim(cfg, r, k - 1, q, least, due) then 1 else 0
  {
    OneMoreStep(FullClaimSteps(cfg, r, i, k, q, least, due), FullClaimSteps(cfg, r, i, k - 1, q, least, due), k - 1,
                IsFullClaim(cfg, r, k - 1, q, least, due));
  }

  lemma {:induction false} FullClaimsIs(cfg: Config, r: Run, i: nat, k: nat, q: string, least: nat, due: Time)
    requires IsRun(cfg, r) && i <= k <= |r.steps|
    ensures FullClaims(cfg, r, i, k, q, least, due) == |FullClaimSteps(cfg, r, i, k, q, least, due)|
  {
    if i < k {
      FullClaimsIs(cfg, r, i, k - 1, q, least, due);
      OneMoreFullClaim(cfg, r, i, k, q, least, due);
    }
  }

  /** While the target waits, each of them takes rows from ahead of it. */
  lemma {:induction false} FullClaimsAhead(cfg: Config, r: Run, i: nat, k: nat, id: MessageId, q: string, due: Time, least: nat)
    requires IsReachable(cfg, r) && i <= k <= |r.steps| && Waits(r.states[i], id, q, due)
    requires forall j | i <= j < k :: Passes(r, j, id, due)
    ensures Waits(r.states[k], id, q, due)
    ensures FullClaims(cfg, r, i, k, q, least, due) <= ClaimsAhead(r, i, k, id, least)
  {
    if i < k {
      FullClaimsAhead(cfg, r, i, k - 1, id, q, due, least);
      WaitInRun(cfg, r, k - 1, id, q, due, least);
      if IsFullClaim(cfg, r, k - 1, q, least, due) {
        FullClaimTakesAhead(r.states[k - 1], r.steps[k - 1], id, q, due, least);
      }
    }
  }

  /** One of the steps i..k is a claim of the row. */
  ghost predicate IsTaken(r: Run, i: nat, k: nat, id: MessageId)
    requires k <= |r.steps|
  {
    exists j :: i <= j < k && r.steps[j].Claim? && id in r.steps[j].order
  }

  lemma FullClaimsPaid(cfg: Config, r: Run, i: nat, k: nat, id: MessageId, q: string, due: Time, least: nat)
    requires IsReachable(cfg, r) && i <= k <= |r.steps| && Waits(r.states[i], id, q, due)
    requires forall j | i <= j < k :: Passes(r, j, id, due)
    ensures least * FullClaims(cfg, r, i, k, q, least, due) <= Rank(r, i, id) + TotalReturned(cfg, r, i, k, q)
  {
    ClaimsAheadPaid(cfg, r, i, k, id, q, due, least);
    FullClaimsAhead(cfg, r, i, k, id, q, due, least);
    FewerPaid(least, FullClaims(cfg, r, i, k, q, least, due), ClaimsAhead(r, i, k, id, least),
              Rank(r, i, id) + TotalReturned(cfg, r, i, k, q));
  }

  /** Starvation bound: either some claim takes a due row with n rows ahead of it, or the full claims
      that have passed, times `least`, are at most n + put back, however many messages are enqueued
      meanwhile.  Without reap, requeue and recover nothing is put back. */
  lemma NoStarvation(cfg: Config, r: Run, i: nat, k: nat, id: MessageId, q: string, due: Time, least: nat)
    requires IsReachable(cfg, r) && i <= k <= |r.steps| && Waits(r.states[i], id, q, due)
    requires forall j | i <= j < k :: LeavesAlone(r.states[j], r.steps[j], id, due)
    ensures || IsTaken(r, i, k, id)
            || least * FullClaims(cfg, r, i, k, q, least, due) <= Rank(r, i, id) + TotalReturned(cfg, r, i, k, q)
  {
    if forall j | i <= j < k :: Passes(r, j, id, due) {
      FullClaimsPaid(cfg, r, i, k, id, q, due, least);
    }
  }

  /** No row of `q` matches what the step would put back. */
  predicate PutsNothingBack(cfg: Config, s: State, a: Step, q: string)
    requires Enabled(s, a)
  {
    forall i | i in s.db.queue && s.db.queue[i].queue == q ::
      && !(a.Requeue? && i in a.ids && s.db.queue[i].state == Consumed)
      && !(a.Recover? && RecoverMatches(s.db.queue[i], s.now, a.minAge))
      && !(Maintains(s, a) && ReapMatches(s.db.queue[i], s.db.workers, s.now, cfg.heartbeatTtl))
  }

  /** This is when nothing is put back; a check that is not due, or is refused the lock, puts nothing back. */
  lemma NothingPutBackIff(cfg: Config, s: State, a: Step, q: string)
    requires Enabled(s, a)
    ensures PutsNothingBack(cfg, s, a, q) <==> PutBack(cfg, s, a, q) == {}
  {
    if !PutsNothingBack(cfg, s, a, q) {
      var i :| i in s.db.queue && s.db.queue[i].queue == q
               && (|| (a.Requeue? && i in a.ids && s.db.queue[i].state == Consumed)
                   || (a.Recover? && RecoverMatches(s.db.queue[i], s.now, a.minAge))
                   || (Maintains(s, a) && ReapMatches(s.db.queue[i], s.db.workers, s.now, cfg.heartbeatTtl)));
      assert i in PutBack(cfg, s, a, q);
    }
  }

  lemma {:induction false} NothingReturned(cfg: Config, r: Run, i: nat, k: nat, q: string)
    requires IsRun(cfg, r) && i <= k <= |r.steps|
    requires forall j | i <= j < k :: Returned(cfg, r, j, q) == 0
    ensures TotalReturned(cfg, r, i, k, q) == 0
  {
    if i < k {
      NothingReturned(cfg, r, i, k - 1, q);
    }
  }

  /** In particular, while no row of the queue is put back, the row is taken as soon as the full claims,
      times `least`, are more than the rows ahead of it. */
  lemma ClaimedWithinBound(cfg: Config, r: Run, i: nat, k: nat, id: MessageId, q: string, due: Time, least: nat)
    requires IsReachable(cfg, r) && i <= k <= |r.steps| && Waits(r.states[i], id, q, due)
    requires forall j | i <= j < k :: LeavesAlone(r.states[j], r.steps[j], id, due) && Returned(cfg, r, j, q) == 0
    ensures least * FullClaims(cfg, r, i, k, q, least, due) > Rank(r, i, id) ==> IsTaken(r, i, k, id)
  {
    NothingReturned(cfg, r, i, k, q);
    NoStarvation(cfg, r, i, k, id, q, due, least);
  }
}
