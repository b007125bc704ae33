/** Claims in two phases, as FOR UPDATE SKIP LOCKED runs them: a transaction selects and locks the
    earliest unlocked due rows, and later commits or aborts, while others go on.  A statement that
    would write a locked row waits.  Every interleaving is a run of the machine with atomic claims. */
module TwoPhase {
  import opened Wrappers
  import opened Tables
  import opened Machine
  import opened Rows
  import opened Claims
  import opened Backpressure
  import opened Conservation

  type ConsumerId = (WorkerId, string)

  datatype Tx = Tx(limit: nat, chosen: set<MessageId>, at: Time)

  datatype TState = TState(s: State, inFlight: map<ConsumerId, Tx>)

  datatype TStep =
    | Begin(w: WorkerId, q: string, chosen: set<MessageId>)
    | Commit(w: WorkerId, q: string, order: seq<MessageId>)
    | Abort(w: WorkerId, q: string)
    | Other(a: Step)

  ghost predicate Locked(t: TState, id: MessageId) {
    exists k | k in t.inFlight :: id in t.inFlight[k].chosen
  }

  /** The due rows that SKIP LOCKED leaves. */
  ghost function Unlocked(t: TState, q: string): (ids: set<MessageId>)
    ensures ids <= t.s.db.queue.Keys
  {
    set i | i in Due(t.s.db.queue, q, t.s.now) && !Locked(t, i)
  }

  /** The statement of the step inserts, updates or deletes the row. */
  predicate Writes(cfg: Config, s: State, a: Step, id: MessageId)
    requires Enabled(s, a)
  {
    EventOf(cfg, s, a, id) != Untouched
  }

  lemma UnwrittenKept(cfg: Config, s: State, a: Step, id: MessageId)
    requires Enabled(s, a) && !Writes(cfg, s, a, id)
    ensures Look(Apply(cfg, s, a).db.queue, id) == Look(s.db.queue, id)
  {
    StepIsRowwise(cfg, s, a, id);
  }

  ghost predicate TEnabled(cfg: Config, t: TState, a: TStep) {
    match a
    case Begin(w, q, chosen) =>
      && Serves(t.s, w, q) && Member(t.s, w, q).phase.Claiming? && (w, q) !in t.inFlight
      && IsFirst(t.s.db.queue, Unlocked(t, q), Member(t.s, w, q).phase.limit, chosen)
    case Commit(w, q, order) =>
      (w, q) in t.inFlight && Serves(t.s, w, q) && Distinct(order) && Elements(order) == t.inFlight[(w, q)].chosen
    case Abort(w, q) => (w, q) in t.inFlight && Serves(t.s, w, q)
    case Other(a) =>
      && Enabled(t.s, a) && !a.Claim?
      && (a.Raise? ==> (a.w, a.q) !in t.inFlight)
      && forall id | Locked(t, id) :: !Writes(cfg, t.s, a, id)
  }

  ghost function TApply(cfg: Config, t: TState, a: TStep): TState
    requires TEnabled(cfg, t, a)
  {
    match a
    case Begin(w, q, chosen) =>
      t.(inFlight := t.inFlight[(w, q) := Tx(Member(t.s, w, q).phase.limit, chosen, t.s.now)])
    case Commit(w, q, order) =>
      if forall i | i in order :: i in t.s.db.queue then
        TState(ApplyClaim(t.s, w, q, order, t.inFlight[(w, q)].at), t.inFlight - {(w, q)})
      else
        t
    case Abort(w, q) => TState(Apply(cfg, t.s, Raise(w, q)), t.inFlight - {(w, q)})
    case Other(a) =>
      // The transactions of a crashed process roll back.
      TState(Apply(cfg, t.s, a),
             if a.Crash? then (map k | k in t.inFlight && k.0 != a.w :: t.inFlight[k]) else t.inFlight)
  }

  datatype TRun = TRun(states: seq<TState>, steps: seq<TStep>)

  ghost predicate TFollows(cfg: Config, t: TState, a: TStep, t': TState) {
    TEnabled(cfg, t, a) && t' == TApply(cfg, t, a)
  }

  ghost predicate IsTRun(cfg: Config, r: TRun) {
    && |r.states| == |r.steps| + 1
    && r.states[0].inFlight == map[]
    && forall i {:trigger r.steps[i]} | 0 <= i < |r.steps| :: TFollows(cfg, r.states[i], r.steps[i], r.states[i + 1])
  }

  // ----- What locks protect

  /** The rows of one claim in flight are still queued and due, and its consumer is waiting for it. */
  predicate TxOk(s: State, k: ConsumerId, x: Tx) {
    && Serves(s, k.0, k.1) && Member(s, k.0, k.1).phase == Claiming(x.limit)
    && |x.chosen| <= x.limit && x.at <= s.now
    && forall i | i in x.chosen :: i in s.db.queue && IsDue(s.db.queue[i], k.1, x.at)
  }

  ghost predicate Safe(t: TState) {
    && (forall k | k in t.inFlight :: TxOk(t.s, k, t.inFlight[k]))
    && forall k, l | k in t.inFlight && l in t.inFlight && k != l :: t.inFlight[k].chosen !! t.inFlight[l].chosen
  }

  lemma WaitingConsumerKept(cfg: Config, s: State, a: Step, w: WorkerId, q: string)
    requires Enabled(s, a) && !a.Claim? && Serves(s, w, q) && Member(s, w, q).phase.Claiming?
    requires !(a.Crash? && a.w == w) && !(a.Raise? && a.w == w && a.q == q)
    ensures Serves(Apply(cfg, s, a), w, q) && Member(Apply(cfg, s, a), w, q).phase == Member(s, w, q).phase
  {
  }

  lemma TxKept(cfg: Config, t: TState, a: Step, k: ConsumerId)
    requires Safe(t) && TEnabled(cfg, t, Other(a)) && k in t.inFlight && !(a.Crash? && a.w == k.0)
    ensures TxOk(Apply(cfg, t.s, a), k, t.inFlight[k])
  {
    var x := t.inFlight[k];
    assert TxOk(t.s, k, x);
    WaitingConsumerKept(cfg, t.s, a, k.0, k.1);
    ClockAdvances(cfg, t.s, a);
    forall i | i in x.chosen ensures Look(Apply(cfg, t.s, a).db.queue, i) == Some(t.s.db.queue[i]) {
      assert Locked(t, i);
      UnwrittenKept(cfg, t.s, a, i);
    }
  }

  lemma OtherKeepsSafe(cfg: Config, t: TState, a: Step)
    requires Safe(t) && TEnabled(cfg, t, Other(a))
    ensures Safe(TApply(cfg, t, Other(a)))
  {
    var t' := TApply(cfg, t, Other(a));
    forall k | k in t'.inFlight ensures TxOk(t'.s, k, t'.inFlight[k]) {
      TxKept(cfg, t, a, k);
    }
  }

  lemma BeginKeepsSafe(cfg: Config, t: TState, a: TStep)
    requires Safe(t) && a.Begin? && TEnabled(cfg, t, a)
    ensures Safe(TApply(cfg, t, a))
  {
    forall l | l in t.inFlight ensures a.chosen !! t.inFlight[l].chosen {
      forall i | i in a.chosen ensures i !in t.inFlight[l].chosen {
        assert !Locked(t, i);
      }
    }
  }

  /** At its commit, a claim is an enabled atomic claim: every row it locked is still queued and due. */
  lemma CommitIsClaim(cfg: Config, t: TState, a: TStep)
    requires Safe(t) && a.Commit? && TEnabled(cfg, t, a)
    ensures var claim := Step.Claim(a.w, a.q, a.order, t.inFlight[(a.w, a.q)].at);
            Enabled(t.s, claim) && TApply(cfg, t, a).s == Apply(cfg, t.s, claim)
  {
    ListingSize(a.order);
    var x := t.inFlight[(a.w, a.q)];
    assert TxOk(t.s, (a.w, a.q), x);
    forall i | i in a.order ensures i in x.chosen {
      assert i in Elements(a.order);
    }
  }

  lemma ClaimKeepsOthers(t: TState, w: WorkerId, q: string, order: seq<MessageId>, at: Time, k: ConsumerId)
    requires Safe(t) && (w, q) in t.inFlight && k in t.inFlight && k != (w, q)
    requires Serves(t.s, w, q) && Elements(order) == t.inFlight[(w, q)].chosen
    requires forall i | i in order :: i in t.s.db.queue
    ensures TxOk(ApplyClaim(t.s, w, q, order, at), k, t.inFlight[k])
  {
    assert TxOk(t.s, k, t.inFlight[k]);
    assert t.inFlight[k].chosen !! Elements(order);
  }

  lemma RaiseKeepsOthers(cfg: Config, s: State, w: WorkerId, q: string, k: ConsumerId, x: Tx)
    requires Serves(s, w, q) && k != (w, q) && TxOk(s, k, x)
    ensures TxOk(Apply(cfg, s, Raise(w, q)), k, x)
  {
  }

  lemma EndKeepsSafe(cfg: Config, t: TState, a: TStep)
    requires Safe(t) && (a.Commit? || a.Abort?) && TEnabled(cfg, t, a)
    ensures Safe(TApply(cfg, t, a))
  {
    if a.Commit? {
      CommitIsClaim(cfg, t, a);
    }
    var t' := TApply(cfg, t, a);
    forall k | k in t'.inFlight ensures TxOk(t'.s, k, t'.inFlight[k]) {
      if a.Commit? {
        ClaimKeepsOthers(t, a.w, a.q, a.order, t.inFlight[(a.w, a.q)].at, k);
      } else {
        RaiseKeepsOthers(cfg, t.s, a.w, a.q, k, t.inFlight[k]);
      }
    }
  }

  /** In-flight row sets are disjoint, and every locked row stays queued and due, in every run. */
  lemma {:induction false} SafeAlways(cfg: Config, r: TRun, i: nat)
    requires IsTRun(cfg, r) && i < |r.states|
    ensures Safe(r.states[i])
  {
    if i > 0 {
      SafeAlways(cfg, r, i - 1);
      match r.steps[i - 1]
      case Other(a) => OtherKeepsSafe(cfg, r.states[i - 1], a);
      case Begin(_, _, _) => BeginKeepsSafe(cfg, r.states[i - 1], r.steps[i - 1]);
      case _ => EndKeepsSafe(cfg, r.states[i - 1], r.steps[i - 1]);
    }
  }

  // ----- Refinement

  /** The atomic step that a step stands for; a claim takes effect when it commits. */
  function AtomicStep(t: TState, a: TStep): Step {
    match a
    case Begin(_, _, _) => Tick(0.0)
    case Commit(w, q, order) =>
      Step.Claim(w, q, order, if (w, q) in t.inFlight then t.inFlight[(w, q)].at else t.s.now)
    case Abort(w, q) => Raise(w, q)
    case Other(a) => a
  }

  function Atomic(r: TRun): Run
    requires |r.states| == |r.steps| + 1
  {
    Run(seq(|r.states|, i requires 0 <= i < |r.states| => r.states[i].s),
        seq(|r.steps|, i requires 0 <= i < |r.steps| => AtomicStep(r.states[i], r.steps[i])))
  }

  lemma AtomicStepFollows(cfg: Config, t: TState, a: TStep)
    requires Safe(t) && TEnabled(cfg, t, a)
    ensures Follows(cfg, t.s, AtomicStep(t, a), TApply(cfg, t, a).s)
  {
    if a.Commit? {
      CommitIsClaim(cfg, t, a);
    }
  }

  /** In every run, each step of an interleaving is an enabled atomic step between the same states. */
  lemma InterleavedStepIsAtomic(cfg: Config, r: TRun, i: nat)
    requires IsTRun(cfg, r) && i < |r.steps|
    ensures Follows(cfg, r.states[i].s, AtomicStep(r.states[i], r.steps[i]), r.states[i + 1].s)
  {
    SafeAlways(cfg, r, i);
    assert TFollows(cfg, r.states[i], r.steps[i], r.states[i + 1]);
    AtomicStepFollows(cfg, r.states[i], r.steps[i]);
  }

  /** Every interleaving of two-phase claims is a run of atomic claims, with the same states. */
  lemma TwoPhaseRefinesAtomic(cfg: Config, r: TRun)
    requires IsTRun(cfg, r)
    ensures IsRun(cfg, Atomic(r))
  {
    var m := Atomic(r);
    forall i {:trigger m.steps[i]} | 0 <= i < |m.steps| ensures Follows(cfg, m.states[i], m.steps[i], m.states[i + 1]) {
      InterleavedStepIsAtomic(cfg, r, i);
    }
  }

  /** With no lock held, a claim takes exactly the first min(limit, due) rows of the queue, and no other set. */
  lemma UnlockedClaimIsFirst(cfg: Config, t: TState, a: TStep)
    requires a.Begin? && TEnabled(cfg, t, a) && t.inFlight == map[]
    ensures var due, limit := Due(t.s.db.queue, a.q, t.s.now), Member(t.s, a.w, a.q).phase.limit;
            forall chosen :: chosen == a.chosen <==> IsFirst(t.s.db.queue, due, limit, chosen)
  {
    var due, limit := Due(t.s.db.queue, a.q, t.s.now), Member(t.s, a.w, a.q).phase.limit;
    assert Unlocked(t, a.q) == due;
    forall chosen | IsFirst(t.s.db.queue, due, limit, chosen) ensures chosen == a.chosen {
      FirstUnique(t.s.db.queue, due, limit, chosen, a.chosen);
    }
  }

  /** So whatever is proved of atomic runs holds of interleaved ones: here, backpressure. */
  lemma InterleavedWithinPrefetch(cfg: Config, r: TRun, k: nat, w: WorkerId, q: string)
    requires IsTRun(cfg, r) && IsInitial(r.states[0].s) && k < |r.states| && Serves(r.states[k].s, w, q)
    ensures |Owned(r.states[k].s.db.queue, w, q)| <= Member(r.states[k].s, w, q).prefetch
  {
    TwoPhaseRefinesAtomic(cfg, r);
    OwnedWithinPrefetch(cfg, Atomic(r), k, w, q);
  }
}
