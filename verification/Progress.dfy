/** When a call of `__next__` returns no message: the steps of the call interleave with everything else,
    and still its consumer was full when it looked, or its claim found no due row left. */
module Progress {
  import opened Tables
  import opened Machine
  import opened TwoPhase

  /** Step h begins the call of (w, q) that is still on before step k. */
  ghost predicate CallSince(r: Run, h: nat, k: nat, w: WorkerId, q: string) {
    && h < k <= |r.steps| && r.steps[h] == HeartbeatCheck(w, q)
    && forall j | h < j < k :: r.steps[j] != HeartbeatCheck(w, q)
  }

  lemma PhaseStep(cfg: Config, s: State, a: Step, w: WorkerId, q: string)
    requires Enabled(s, a) && Serves(Apply(cfg, s, a), w, q) && Member(Apply(cfg, s, a), w, q).phase != Idle
    ensures a == HeartbeatCheck(w, q) || (Serves(s, w, q) && Member(s, w, q).phase != Idle)
  {
  }

  /** A consumer inside a call has begun it. */
  lemma {:induction false} CallBegan(cfg: Config, r: Run, k: nat, w: WorkerId, q: string) returns (h: nat)
    requires IsReachable(cfg, r) && k < |r.states| && Serves(r.states[k], w, q) && Member(r.states[k], w, q).phase != Idle
    ensures CallSince(r, h, k, w, q)
  {
    if k > 0 {
      if r.steps[k - 1] == HeartbeatCheck(w, q) {
        h := k - 1;
      } else {
        PhaseStep(cfg, r.states[k - 1], r.steps[k - 1], w, q);
        h := CallBegan(cfg, r, k - 1, w, q);
      }
    }
  }

  /** The consumer looks, and finds that the messages in process fill the prefetch. */
  predicate FindsFull(s: State, a: Step, w: WorkerId, q: string) {
    a == Step.Decide(w, q) && Serves(s, w, q) && Member(s, w, q).buffer == [] && Capacity(Member(s, w, q)) <= 0
  }

  predicate ClaimsNothing(a: Step, w: WorkerId, q: string) {
    a.Claim? && a.w == w && a.q == q && a.order == []
  }

  lemma PoppingStep(cfg: Config, s: State, a: Step, w: WorkerId, q: string)
    requires Enabled(s, a) && Serves(Apply(cfg, s, a), w, q)
    requires Member(Apply(cfg, s, a), w, q).phase == Popping && Member(Apply(cfg, s, a), w, q).buffer == []
    ensures || FindsFull(s, a, w, q) || ClaimsNothing(a, w, q)
            || (a != HeartbeatCheck(w, q) && Serves(s, w, q) && Member(s, w, q).phase == Popping && Member(s, w, q).buffer == [])
  {
  }

  /** About to deliver from an empty buffer, in the call in which it was found so. */
  lemma {:induction false} WhyEmpty(cfg: Config, r: Run, k: nat, w: WorkerId, q: string) returns (j: nat)
    requires IsReachable(cfg, r) && k < |r.states| && Serves(r.states[k], w, q)
    requires Member(r.states[k], w, q).phase == Popping && Member(r.states[k], w, q).buffer == []
    ensures j < k && (FindsFull(r.states[j], r.steps[j], w, q) || ClaimsNothing(r.steps[j], w, q))
    ensures forall i | j <= i < k :: r.steps[i] != HeartbeatCheck(w, q)
  {
    if k > 0 {
      PoppingStep(cfg, r.states[k - 1], r.steps[k - 1], w, q);
      if FindsFull(r.states[k - 1], r.steps[k - 1], w, q) || ClaimsNothing(r.steps[k - 1], w, q) {
        j := k - 1;
      } else {
        j := WhyEmpty(cfg, r, k - 1, w, q);
      }
    }
  }

  lemma LimitStep(cfg: Config, s: State, a: Step, w: WorkerId, q: string)
    requires Enabled(s, a)
    requires Serves(s, w, q) && Member(s, w, q).phase.Claiming? ==> Member(s, w, q).phase.limit >= 1
    ensures var s' := Apply(cfg, s, a);
            Serves(s', w, q) && Member(s', w, q).phase.Claiming? ==> Member(s', w, q).phase.limit >= 1
  {
  }

  /** Nobody sets out to claim no row. */
  lemma {:induction false} LimitAlways(cfg: Config, r: Run, k: nat, w: WorkerId, q: string)
    requires IsReachable(cfg, r) && k < |r.states|
    ensures Serves(r.states[k], w, q) && Member(r.states[k], w, q).phase.Claiming? ==> Member(r.states[k], w, q).phase.limit >= 1
  {
    if k > 0 {
      LimitAlways(cfg, r, k - 1, w, q);
      LimitStep(cfg, r.states[k - 1], r.steps[k - 1], w, q);
    }
  }

  lemma NothingFirst(t: QueueTable, candidates: set<MessageId>, limit: nat)
    requires candidates <= t.Keys && limit >= 1 && IsFirst(t, candidates, limit, {})
    ensures candidates == {}
  {
  }

  /** If a call delivers nothing, it has found its consumer full, or claimed nothing; and a claim of the
      first rows that takes none finds no row of the queue due. */
  lemma EmptyHanded(cfg: Config, r: Run, k: nat, w: WorkerId, q: string) returns (h: nat, j: nat)
    requires IsReachable(cfg, r) && k < |r.steps| && r.steps[k] == Pop(w, q)
    requires Serves(r.states[k], w, q) && Member(r.states[k], w, q).buffer == []
    ensures CallSince(r, h, k, w, q) && h < j < k
    ensures FindsFull(r.states[j], r.steps[j], w, q) || ClaimsNothing(r.steps[j], w, q)
    ensures ClaimsNothing(r.steps[j], w, q) ==>
              var s, at := r.states[j], r.steps[j].at;
              && Serves(s, w, q) && Member(s, w, q).phase.Claiming?
              && (IsFirst(s.db.queue, Due(s.db.queue, q, at), Member(s, w, q).phase.limit, {}) ==> Due(s.db.queue, q, at) == {})
  {
    assert Follows(cfg, r.states[k], r.steps[k], r.states[k + 1]);
    j := WhyEmpty(cfg, r, k, w, q);
    assert Follows(cfg, r.states[j], r.steps[j], r.states[j + 1]);
    h := CallBegan(cfg, r, j, w, q);
    if ClaimsNothing(r.steps[j], w, q) {
      var s, at := r.states[j], r.steps[j].at;
      LimitAlways(cfg, r, j, w, q);
      if IsFirst(s.db.queue, Due(s.db.queue, q, at), Member(s, w, q).phase.limit, {}) {
        NothingFirst(s.db.queue, Due(s.db.queue, q, at), Member(s, w, q).phase.limit);
      }
    }
  }

  // ----- The same of claims in two phases

  ghost predicate IsReachableT(cfg: Config, r: TRun) {
    IsTRun(cfg, r) && IsInitial(r.states[0].s)
  }

  /** A claim that begins and chooses nothing leaves no due row behind that is not locked by another claim. */
  lemma NothingUnlocked(cfg: Config, r: TRun, b: nat)
    requires IsReachableT(cfg, r) && b < |r.steps| && r.steps[b].Begin? && r.steps[b].chosen == {}
    ensures var t := r.states[b]; forall id | id in Due(t.s.db.queue, r.steps[b].q, t.s.now) :: Locked(t, id)
  {
    var t, a := r.states[b], r.steps[b];
    assert TFollows(cfg, t, a, r.states[b + 1]);
    TwoPhaseRefinesAtomic(cfg, r);
    LimitAlways(cfg, Atomic(r), b, a.w, a.q);
    NothingFirst(t.s.db.queue, Unlocked(t, a.q), Member(t.s, a.w, a.q).phase.limit);
    forall id | id in Due(t.s.db.queue, a.q, t.s.now) ensures Locked(t, id) {
      assert id !in Unlocked(t, a.q);
    }
  }

  lemma KeptInFlight(cfg: Config, t: TState, a: TStep, w: WorkerId, q: string)
    requires TEnabled(cfg, t, a) && (w, q) in TApply(cfg, t, a).inFlight
    requires a != Begin(w, q, TApply(cfg, t, a).inFlight[(w, q)].chosen)
    ensures (w, q) in t.inFlight && t.inFlight[(w, q)] == TApply(cfg, t, a).inFlight[(w, q)]
  {
  }

  /** The claim in flight of (w, q) before step j began at step b. */
  lemma {:induction false} Began(cfg: Config, r: TRun, j: nat, w: WorkerId, q: string) returns (b: nat)
    requires IsTRun(cfg, r) && j < |r.states| && (w, q) in r.states[j].inFlight
    ensures b < j && r.steps[b] == Begin(w, q, r.states[j].inFlight[(w, q)].chosen)
    ensures forall i | b < i <= j ::
              (w, q) in r.states[i].inFlight && r.states[i].inFlight[(w, q)] == r.states[j].inFlight[(w, q)]
  {
    if j > 0 {
      assert TFollows(cfg, r.states[j - 1], r.steps[j - 1], r.states[j]);
      if r.steps[j - 1] == Begin(w, q, r.states[j].inFlight[(w, q)].chosen) {
        b := j - 1;
      } else {
        KeptInFlight(cfg, r.states[j - 1], r.steps[j - 1], w, q);
        b := Began(cfg, r, j - 1, w, q);
      }
    }
  }

  lemma NoBeatInFlight(cfg: Config, r: TRun, i: nat, w: WorkerId, q: string)
    requires IsTRun(cfg, r) && i < |r.steps| && (w, q) in r.states[i].inFlight
    ensures AtomicStep(r.states[i], r.steps[i]) != HeartbeatCheck(w, q)
  {
    SafeAlways(cfg, r, i);
    assert TxOk(r.states[i].s, (w, q), r.states[i].inFlight[(w, q)]);
    assert TFollows(cfg, r.states[i], r.steps[i], r.states[i + 1]);
  }

  /** A commit of no row belongs to a claim that began within the same call and chose nothing. */
  lemma EmptyCommit(cfg: Config, r: TRun, h: nat, j: nat, w: WorkerId, q: string) returns (b: nat)
    requires IsTRun(cfg, r) && h < j < |r.steps| && ClaimsNothing(AtomicStep(r.states[j], r.steps[j]), w, q)
    requires AtomicStep(r.states[h], r.steps[h]) == HeartbeatCheck(w, q)
    ensures h < b < j && r.steps[b] == Begin(w, q, {})
  {
    assert TFollows(cfg, r.states[j], r.steps[j], r.states[j + 1]);
    assert r.steps[j] == Commit(w, q, []);
    assert Elements([]) == {};
    b := Began(cfg, r, j, w, q);
    if b < h {
      NoBeatInFlight(cfg, r, h, w, q);
    }
  }

  /** In every interleaving: a call that delivers nothing has found its consumer full, or its claim began,
      within the call, at an instant when every due row of the queue was locked by another claim. */
  lemma InterleavedEmptyHanded(cfg: Config, r: TRun, k: nat, w: WorkerId, q: string) returns (h: nat, j: nat)
    requires IsReachableT(cfg, r) && k < |r.steps| && r.steps[k] == Other(Pop(w, q))
    requires Serves(r.states[k].s, w, q) && Member(r.states[k].s, w, q).buffer == []
    ensures CallSince(Atomic(r), h, k, w, q) && h < j < k
    ensures || FindsFull(r.states[j].s, AtomicStep(r.states[j], r.steps[j]), w, q)
            || (&& r.steps[j] == Begin(w, q, {})
                && forall id | id in Due(r.states[j].s.db.queue, q, r.states[j].s.now) :: Locked(r.states[j], id))
  {
    var m := Atomic(r);
    TwoPhaseRefinesAtomic(cfg, r);
    h, j := EmptyHanded(cfg, m, k, w, q);
    if ClaimsNothing(m.steps[j], w, q) {
      j := EmptyCommit(cfg, r, h, j, w, q);
      NothingUnlocked(cfg, r, j);
    }
  }
}
