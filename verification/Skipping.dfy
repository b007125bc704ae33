/** The starvation bound for claims in two phases: a row is passed by as long as it is locked, and
    else only by claims that take rows from ahead of it. */
module Skipping {
  import opened Tables
  import opened Machine
  import opened Claims
  import opened TwoPhase
  import opened Starvation

  // ----- A locked row does not change

  lemma LockedRowStep(cfg: Config, t: TState, a: TStep, c: ConsumerId, i: MessageId)
    requires Safe(t) && TEnabled(cfg, t, a) && c in t.inFlight && i in t.inFlight[c].chosen
    requires c in TApply(cfg, t, a).inFlight
    ensures Look(TApply(cfg, t, a).s.db.queue, i) == Look(t.s.db.queue, i)
  {
    assert Locked(t, i);
    match a
    case Begin(_, _, _) =>
    case Abort(_, _) =>
    case Commit(w, q, order) =>
      CommitIsClaim(cfg, t, a);
      assert c != (w, q);
      assert i !in Elements(order);
    case Other(b) =>
      UnwrittenKept(cfg, t.s, b, i);
  }

  /** The claim of (w, q) that is in flight before step j began at step b. */
  ghost predicate BeganAt(r: TRun, b: nat, j: nat, w: WorkerId, q: string) {
    && b < j < |r.states| && |r.states| == |r.steps| + 1 && r.steps[b].Begin? && r.steps[b].w == w && r.steps[b].q == q
    && forall x | b < x <= j :: (w, q) in r.states[x].inFlight && r.states[x].inFlight[(w, q)].chosen == r.steps[b].chosen
  }

  lemma {:induction false} LockedRowKept(cfg: Config, r: TRun, b: nat, j: nat, w: WorkerId, q: string, i: MessageId)
    requires IsTRun(cfg, r) && BeganAt(r, b, j, w, q) && i in r.steps[b].chosen
    ensures Look(r.states[j].s.db.queue, i) == Look(r.states[b].s.db.queue, i)
  {
    assert TFollows(cfg, r.states[j - 1], r.steps[j - 1], r.states[j]);
    if b + 1 < j {
      LockedRowKept(cfg, r, b, j - 1, w, q, i);
      SafeAlways(cfg, r, j - 1);
      LockedRowStep(cfg, r.states[j - 1], r.steps[j - 1], (w, q), i);
    }
  }

  /** While the target waits, its row does not change. */
  lemma {:induction false} TargetKept(cfg: Config, r: Run, i: nat, k: nat, id: MessageId, q: string, due: Time)
    requires IsReachable(cfg, r) && i <= k <= |r.steps| && Waits(r.states[i], id, q, due)
    requires forall j | i <= j < k :: Passes(r, j, id, due)
    ensures Look(r.states[k].db.queue, id) == Look(r.states[i].db.queue, id)
  {
    if i < k {
      TargetKept(cfg, r, i, k - 1, id, q, due);
      assert Passes(r, k - 1, id, due);
      assert Follows(cfg, r.states[k - 1], r.steps[k - 1], r.states[k]);
      TargetStep(cfg, r.states[k - 1], r.steps[k - 1], id, q, due);
    }
  }

  // ----- Claims that count

  /** A claim of at least `least` rows begins while the target is due and not locked. */
  ghost predicate FullBegin(cfg: Config, t: TState, a: TStep, id: MessageId, q: string, due: Time, least: nat) {
    && TEnabled(cfg, t, a) && a.Begin? && a.q == q && due <= t.s.now && !Locked(t, id)
    && least <= Member(t.s, a.w, q).phase.limit
  }

  /** If it leaves the target out, it locks rows from ahead of it. */
  lemma ChoosesAhead(cfg: Config, t: TState, a: TStep, id: MessageId, q: string, due: Time, least: nat)
    requires FullBegin(cfg, t, a, id, q, due, least) && Waits(t.s, id, q, due) && id !in a.chosen
    ensures a.chosen <= Ahead(t.s.db.queue, id) && least <= |a.chosen|
  {
    LeftOutMeansFull(t.s.db.queue, Unlocked(t, q), Member(t.s, a.w, q).phase.limit, a.chosen, id);
  }

  lemma AheadKept(before: QueueTable, after: QueueTable, id: MessageId, ids: set<MessageId>)
    requires id in before && ids <= Ahead(before, id)
    requires Look(after, id) == Look(before, id) && forall i | i in ids :: Look(after, i) == Look(before, i)
    ensures id in after && ids <= Ahead(after, id)
  {
    forall i | i in ids ensures i in Ahead(after, id) {
      assert Look(after, i) == Look(before, i);
    }
  }

  /** Step j commits a claim that began full within the window that starts at step i. */
  ghost predicate IsFullCommit(cfg: Config, r: TRun, i: nat, j: nat, id: MessageId, q: string, due: Time, least: nat)
    requires j < |r.steps|
  {
    && r.steps[j].Commit? && r.steps[j].q == q
    && exists b: nat :: i <= b && BeganAt(r, b, j, r.steps[j].w, q) && FullBegin(cfg, r.states[b], r.steps[b], id, q, due, least)
  }

  lemma CommitListsChosen(cfg: Config, r: TRun, b: nat, j: nat, w: WorkerId, q: string)
    requires IsTRun(cfg, r) && j < |r.steps| && BeganAt(r, b, j, w, q)
    requires r.steps[j].Commit? && r.steps[j].w == w && r.steps[j].q == q
    ensures Elements(r.steps[j].order) == r.steps[b].chosen && Atomic(r).steps[j].Claim?
    ensures Atomic(r).steps[j].order == r.steps[j].order && Atomic(r).steps[j].q == q
    ensures forall id :: id in r.steps[b].chosen <==> id in r.steps[j].order
  {
    assert TFollows(cfg, r.states[j], r.steps[j], r.states[j + 1]);
    forall id ensures id in r.steps[b].chosen <==> id in r.steps[j].order {
      assert id in Elements(r.steps[j].order) <==> id in r.steps[j].order;
    }
  }

  /** Such a commit takes rows from ahead of the target. */
  lemma CommitTakesAhead(cfg: Config, r: TRun, i: nat, j: nat, id: MessageId, q: string, due: Time, least: nat)
    requires IsTRun(cfg, r) && IsInitial(r.states[0].s) && i <= j < |r.steps| && IsReachable(cfg, Atomic(r))
    requires Waits(r.states[i].s, id, q, due) && IsFullCommit(cfg, r, i, j, id, q, due, least)
    requires forall x | i <= x <= j :: Passes(Atomic(r), x, id, due)
    ensures TakesAhead(Atomic(r).states[j], Atomic(r).steps[j], id, least)
  {
    var m, w := Atomic(r), r.steps[j].w;
    var b: nat :| i <= b && BeganAt(r, b, j, w, q) && FullBegin(cfg, r.states[b], r.steps[b], id, q, due, least);
    var chosen := r.steps[b].chosen;
    TargetKept(cfg, m, i, b, id, q, due);
    TargetKept(cfg, m, i, j, id, q, due);
    assert Passes(m, j, id, due);
    CommitListsChosen(cfg, r, b, j, w, q);
    ChoosesAhead(cfg, r.states[b], r.steps[b], id, q, due, least);
    forall x | x in chosen ensures Look(r.states[j].s.db.queue, x) == Look(r.states[b].s.db.queue, x) {
      LockedRowKept(cfg, r, b, j, w, q, x);
    }
    AheadKept(r.states[b].s.db.queue, r.states[j].s.db.queue, id, chosen);
  }

  /** How many of steps i..k are such commits. */
  ghost function FullCommits(cfg: Config, r: TRun, i: nat, k: nat, id: MessageId, q: string, due: Time, least: nat): nat
    requires i <= k <= |r.steps|
  {
    if i == k then 0
    else FullCommits(cfg, r, i, k - 1, id, q, due, least) + if IsFullCommit(cfg, r, i, k - 1, id, q, due, least) then 1 else 0
  }

  lemma {:induction false} FullCommitsIs(cfg: Config, r: TRun, i: nat, k: nat, id: MessageId, q: string, due: Time, least: nat)
    requires i <= k <= |r.steps|
    ensures FullCommits(cfg, r, i, k, id, q, due, least)
         == |set j: nat | i <= j < k && IsFullCommit(cfg, r, i, j, id, q, due, least)|
  {
    var all := set j: nat | i <= j < k && IsFullCommit(cfg, r, i, j, id, q, due, least);
    if i < k {
      FullCommitsIs(cfg, r, i, k - 1, id, q, due, least);
      var before := set j: nat | i <= j < k - 1 && IsFullCommit(cfg, r, i, j, id, q, due, least);
      OneMoreStep(all, before, k - 1, IsFullCommit(cfg, r, i, k - 1, id, q, due, least));
    }
  }

  lemma {:induction false} FullCommitsAhead(cfg: Config, r: TRun, i: nat, k: nat, id: MessageId, q: string, due: Time, least: nat)
    requires IsTRun(cfg, r) && IsInitial(r.states[0].s) && i <= k <= |r.steps| && IsReachable(cfg, Atomic(r))
    requires Waits(r.states[i].s, id, q, due) && forall j | i <= j < k :: Passes(Atomic(r), j, id, due)
    ensures FullCommits(cfg, r, i, k, id, q, due, least) <= ClaimsAhead(Atomic(r), i, k, id, least)
  {
    if i < k {
      FullCommitsAhead(cfg, r, i, k - 1, id, q, due, least);
      if IsFullCommit(cfg, r, i, k - 1, id, q, due, least) {
        CommitTakesAhead(cfg, r, i, k - 1, id, q, due, least);
      }
    }
  }

  lemma FullCommitsPaid(cfg: Config, r: TRun, i: nat, k: nat, id: MessageId, q: string, due: Time, least: nat)
    requires IsTRun(cfg, r) && IsInitial(r.states[0].s) && i <= k <= |r.steps| && IsReachable(cfg, Atomic(r))
    requires Waits(r.states[i].s, id, q, due) && forall j | i <= j < k :: Passes(Atomic(r), j, id, due)
    ensures id in r.states[i].s.db.queue
    ensures least * FullCommits(cfg, r, i, k, id, q, due, least)
         <= Rank(Atomic(r), i, id) + TotalReturned(cfg, Atomic(r), i, k, q)
  {
    ClaimsAheadPaid(cfg, Atomic(r), i, k, id, q, due, least);
    FullCommitsAhead(cfg, r, i, k, id, q, due, least);
    FewerPaid(least, FullCommits(cfg, r, i, k, id, q, due, least), ClaimsAhead(Atomic(r), i, k, id, least),
              Rank(Atomic(r), i, id) + TotalReturned(cfg, Atomic(r), i, k, q));
  }

  /** In every interleaving: some claim of the due row commits, or the commits of claims that began while
      it was not locked, times `least`, are at most the rows ahead of it and those put back. */
  lemma InterleavedNoStarvation(cfg: Config, r: TRun, i: nat, k: nat, id: MessageId, q: string, due: Time, least: nat)
    requires IsTRun(cfg, r) && IsInitial(r.states[0].s) && i <= k <= |r.steps| && Waits(r.states[i].s, id, q, due)
    requires forall j | i <= j < k :: LeavesAlone(r.states[j].s, AtomicStep(r.states[j], r.steps[j]), id, due)
    ensures IsReachable(cfg, Atomic(r))
    ensures || IsTaken(Atomic(r), i, k, id)
            || least * FullCommits(cfg, r, i, k, id, q, due, least)
               <= Rank(Atomic(r), i, id) + TotalReturned(cfg, Atomic(r), i, k, q)
  {
    TwoPhaseRefinesAtomic(cfg, r);
    if forall j | i <= j < k :: Passes(Atomic(r), j, id, due) {
      FullCommitsPaid(cfg, r, i, k, id, q, due, least);
    }
  }
}
