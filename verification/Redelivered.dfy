/** Without put-backs, or with a prefetch of at most one, a consumer never has more deliveries outstanding
    than its prefetch; with a larger prefetch and recoveries it may have any number. */
module Redelivered {
  import opened Tables
  import opened Machine
  import opened Stage
  import opened Deliveries

  // The consumer while it processes the message.
  function Busy(prefetch: nat): Consumer { Free(prefetch).(inProcessing := {7}) }

  // ----- Outstanding deliveries of a run in parts

  lemma {:induction false} SamePrefix(r: Run, r': Run, k: nat, w: WorkerId, q: string)
    requires k <= |r.steps| && k < |r.states| && k <= |r'.steps| && k < |r'.states|
    requires r.steps[..k] == r'.steps[..k] && r.states[..k] == r'.states[..k]
    ensures Outstanding(r, k, w, q) == Outstanding(r', k, w, q)
  {
    if k > 0 {
      assert r.steps[..k][..k - 1] == r.steps[..k - 1] && r'.steps[..k][..k - 1] == r'.steps[..k - 1];
      assert r.states[..k][..k - 1] == r.states[..k - 1] && r'.states[..k][..k - 1] == r'.states[..k - 1];
      SamePrefix(r, r', k - 1, w, q);
      assert r.steps[..k][k - 1] == r'.steps[..k][k - 1] && r.states[..k][k - 1] == r'.states[..k][k - 1];
    }
  }

  predicate LeavesDeliveries(a: Step) { !a.Pop? && !a.Ack? && !a.Nack? }

  lemma LastStep(r: Run, k: nat, w: WorkerId, q: string)
    requires k < |r.steps| && k + 1 < |r.states|
    ensures Outstanding(r, k + 1, w, q) == OutstandingAfter(Outstanding(r, k, w, q), r.states[k], r.steps[k], w, q)
  {
  }

  lemma NothingHappens(u: multiset<MessageId>, s: State, a: Step, w: WorkerId, q: string)
    requires LeavesDeliveries(a)
    ensures OutstandingAfter(u, s, a, w, q) == u
  {
  }

  lemma DeliversIt(u: multiset<MessageId>, s: State)
    requires Serves(s, 1, QUEUE) && Member(s, 1, QUEUE).buffer == [MESSAGE]
    ensures OutstandingAfter(u, s, Pop(1, QUEUE), 1, QUEUE) == u + multiset{7}
  {
  }

  lemma QuietStep(r: Run, k: nat, w: WorkerId, q: string)
    requires k < |r.steps| && k + 1 < |r.states| && LeavesDeliveries(r.steps[k])
    ensures Outstanding(r, k + 1, w, q) == Outstanding(r, k, w, q)
  {
    LastStep(r, k, w, q);
    NothingHappens(Outstanding(r, k, w, q), r.states[k], r.steps[k], w, q);
  }

  lemma {:induction false} Unaffected(r: Run, i: nat, k: nat, w: WorkerId, q: string)
    requires i <= k <= |r.steps| && k < |r.states| && forall j | i <= j < k :: LeavesDeliveries(r.steps[j])
    ensures Outstanding(r, k, w, q) == Outstanding(r, i, w, q)
  {
    if i < k {
      assert LeavesDeliveries(r.steps[k - 1]);
      QuietStep(r, k - 1, w, q);
      Unaffected(r, i, k - 1, w, q);
    }
  }

  /** A part that ends with the delivery of the message, and delivers and settles nothing before. */
  ghost predicate EndsInDelivery(b: seq<State>, sb: seq<Step>) {
    && |b| == |sb| + 1 && sb != [] && sb[|sb| - 1] == Pop(1, QUEUE)
    && (forall i | 0 <= i < |sb| - 1 :: LeavesDeliveries(sb[i]))
    && Serves(b[|sb| - 1], 1, QUEUE) && Member(b[|sb| - 1], 1, QUEUE).buffer == [MESSAGE]
  }

  lemma SameBefore(a: seq<State>, sa: seq<Step>, b: seq<State>, sb: seq<Step>)
    requires |a| == |sa| + 1 && |b| == |sb| + 1 && a[|sa|] == b[0]
    ensures Outstanding(Run(a + b[1..], sa + sb), |sa|, 1, QUEUE) == Outstanding(Run(a, sa), |sa|, 1, QUEUE)
  {
    assert (sa + sb)[..|sa|] == sa[..|sa|] && (a + b[1..])[..|sa|] == a[..|sa|];
    SamePrefix(Run(a + b[1..], sa + sb), Run(a, sa), |sa|, 1, QUEUE);
  }

  lemma LeftBehind(sa: seq<Step>, b: seq<State>, sb: seq<Step>, j: nat)
    requires EndsInDelivery(b, sb) && |sa| <= j < |sa| + |sb| - 1
    ensures LeavesDeliveries((sa + sb)[j])
  {
    assert (sa + sb)[j] == sb[j - |sa|];
  }

  lemma UpToDelivery(a: seq<State>, sa: seq<Step>, b: seq<State>, sb: seq<Step>, last: nat)
    requires |a| == |sa| + 1 && EndsInDelivery(b, sb) && a[|sa|] == b[0] && last == |sa| + |sb| - 1
    ensures Outstanding(Run(a + b[1..], sa + sb), last, 1, QUEUE) == Outstanding(Run(a + b[1..], sa + sb), |sa|, 1, QUEUE)
  {
    forall j | |sa| <= j < last ensures LeavesDeliveries((sa + sb)[j]) {
      LeftBehind(sa, b, sb, j);
    }
    Unaffected(Run(a + b[1..], sa + sb), |sa|, last, 1, QUEUE);
  }

  lemma OneMore(a: seq<State>, sa: seq<Step>, b: seq<State>, sb: seq<Step>, end: nat)
    requires |a| == |sa| + 1 && EndsInDelivery(b, sb) && a[|sa|] == b[0] && end == |sa| + |sb|
    ensures Outstanding(Run(a + b[1..], sa + sb), end, 1, QUEUE) == Outstanding(Run(a, sa), |sa|, 1, QUEUE) + multiset{7}
  {
    var r, last := Run(a + b[1..], sa + sb), end - 1;
    assert r.steps[last] == sb[|sb| - 1] && r.states[last] == b[|sb| - 1];
    SameBefore(a, sa, b, sb);
    UpToDelivery(a, sa, b, sb, last);
    LastStep(r, last, 1, QUEUE);
    DeliversIt(Outstanding(r, last, 1, QUEUE), r.states[last]);
  }

  /** After this part of a run from the start, n deliveries of worker 1 are outstanding. */
  ghost predicate Amount(states: seq<State>, steps: seq<Step>, n: nat) {
    |states| == |steps| + 1 && |Outstanding(Run(states, steps), |steps|, 1, QUEUE)| == n
  }

  lemma OneLarger(u: multiset<MessageId>)
    ensures |u + multiset{7}| == |u| + 1
  {
  }

  lemma AmountAfter(a: seq<State>, sa: seq<Step>, b: seq<State>, sb: seq<Step>, n: nat)
    requires EndsInDelivery(b, sb) && Amount(a, sa, n) && a[|sa|] == b[0]
    ensures Amount(a + b[1..], sa + sb, n + 1)
  {
    OneMore(a, sa, b, sb, |sa + sb|);
    OneLarger(Outstanding(Run(a, sa), |sa|, 1, QUEUE));
  }

  lemma Extended(cfg: Config, a: seq<State>, sa: seq<Step>, b: seq<State>, sb: seq<Step>, n: nat)
    requires Chain(cfg, a, sa) && Chain(cfg, b, sb) && a[|a| - 1] == b[0] && Amount(a, sa, n) && EndsInDelivery(b, sb)
    ensures Chain(cfg, a + b[1..], sa + sb) && Amount(a + b[1..], sa + sb, n + 1)
    ensures (a + b[1..])[|sa| + |sb|] == b[|b| - 1] && (a + b[1..])[0] == a[0]
  {
    Glue(cfg, a, sa, b, sb);
    AmountAfter(a, sa, b, sb, n);
  }

  // ----- The message is recovered and delivered again and again

  /** The row of the message, claimed by worker 1 at time `t` or before. */
  predicate Claimed(r: Row, t: Time) {
    r.queue == QUEUE && r.state == Consumed && r.message == MESSAGE && r.mtime <= t && r.availableAt <= t
  }

  lemma Recovers(cfg: Config, now: Time, p1: Process, p2: Process, db: Db, r: Row)
    requires db.queue == map[7 := r] && Claimed(r, now - 1.0)
    ensures Chain(cfg, [Scene(now, p1, p2, db), Scene(now, p1, p2, db.(queue := map[7 := RecoveredRow(r)]))], [Step.Recover(0.0)])
  {
    assert Tables.Recover(db.queue, now, 0.0) == map[7 := RecoveredRow(r)];
    assert Follows(cfg, Scene(now, p1, p2, db), Step.Recover(0.0), Scene(now, p1, p2, db.(queue := map[7 := RecoveredRow(r)])));
  }

  lemma LastPart(a: seq<State>, sa: seq<Step>, b: seq<State>, sb: seq<Step>, t: Time)
    requires |a| == |sa| + 1 && |b| == 4 && a[|sa|] == b[0] && forall x | x in sa :: LeavesDeliveries(x)
    requires sb == [Decide(1, QUEUE), Step.Claim(1, QUEUE, [7], t), Pop(1, QUEUE)]
    requires Serves(b[2], 1, QUEUE) && Member(b[2], 1, QUEUE).buffer == [MESSAGE]
    ensures EndsInDelivery(a + b[1..], sa + sb)
  {
    var states, steps := a + b[1..], sa + sb;
    forall i | 0 <= i < |steps| - 1 ensures LeavesDeliveries(steps[i]) {
      assert i < |sa| ==> steps[i] == sa[i] && sa[i] in sa;
    }
    assert states[|steps| - 1] == b[2] && steps[|steps| - 1] == sb[2];
  }

  /** A call of worker 1 that delivers the message. */
  lemma Delivery(cfg: Config, t: Time, p: Process, db: Db, c: Consumer, r: Row)
    returns (states: seq<State>, steps: seq<Step>, p': Process, db': Db, r': Row)
    requires p.alive && p.consumers == map[QUEUE := c] && c.phase == Idle && c.buffer == [] && Capacity(c) > 0
    requires db.queue == map[7 := r] && IsDue(r, QUEUE, t) && r.message == MESSAGE
    ensures Chain(cfg, states, steps) && EndsInDelivery(states, steps)
    ensures states[0] == Scene(t, p, Fresh(1), db) && states[|steps|] == Scene(t, p', Fresh(1), db')
    ensures p'.alive && p'.consumers == map[QUEUE := c.(inProcessing := c.inProcessing + {7})]
    ensures db'.queue == map[7 := r'] && Claimed(r', t)
  {
    var q, db1 := Looked(cfg, t, p, c, 1.0), LookedDb(cfg, 1, t, p, false, db);
    var a, sa := LookStates(cfg, 1, t, 0.0, p, Fresh(1), db, c, false, 1.0), LookSteps(1, 0.0, false, 1.0);
    Looks(cfg, 1, t, 0.0, p, Fresh(1), db, c, false, 1.0);
    r' := ClaimedRow(r, 1, t);
    db' := db1.(queue := map[7 := r']);
    var b, sb := Takes(cfg, 1, t, q, Fresh(1), db1, c, r);
    Changed(1, t, q.(consumers := map[QUEUE := Loaded(c)]), Fresh(1), db', Loaded(c), Loaded(c));
    LastPart(a, sa, b, sb, t);
    Glue(cfg, a, sa, b, sb);
    states, steps := a + b[1..], sa + sb;
    p' := q.(consumers := map[QUEUE := c.(inProcessing := c.inProcessing + {7})]);
  }

  /** It is recovered while worker 1 processes it, and delivered to worker 1 again. */
  lemma Redelivery(cfg: Config, t: Time, p: Process, db: Db, prefetch: nat, r: Row)
    returns (states: seq<State>, steps: seq<Step>, p': Process, db': Db, r': Row)
    requires 2 <= prefetch && p.alive && p.consumers == map[QUEUE := Busy(prefetch)]
    requires db.queue == map[7 := r] && Claimed(r, t)
    ensures Chain(cfg, states, steps) && EndsInDelivery(states, steps)
    ensures states[0] == Scene(t, p, Fresh(1), db) && states[|steps|] == Scene(t + 1.0, p', Fresh(1), db')
    ensures p'.alive && p'.consumers == map[QUEUE := Busy(prefetch)] && db'.queue == map[7 := r'] && Claimed(r', t + 1.0)
  {
    var db1 := db.(queue := map[7 := RecoveredRow(r)]);
    var s0, s1, s2 := Scene(t, p, Fresh(1), db), Scene(t + 1.0, p, Fresh(1), db), Scene(t + 1.0, p, Fresh(1), db1);
    Ticks(cfg, 1, t, 1.0, p, Fresh(1), db);
    Recovers(cfg, t + 1.0, p, Fresh(1), db, r);
    ChainOfTwo(cfg, s0, s1, s2, Tick(1.0), Step.Recover(0.0));
    var b, sb;
    b, sb, p', db', r' := Delivery(cfg, t + 1.0, p, db1, Busy(prefetch), RecoveredRow(r));
    Glue(cfg, [s0, s1, s2], [Tick(1.0), Step.Recover(0.0)], b, sb);
    states, steps := [s0, s1, s2] + b[1..], [Tick(1.0), Step.Recover(0.0)] + sb;
    assert {7} + {7} == {7};
    assert states[|steps| - 1] == b[|sb| - 1];
  }

  /** The run up to the first enqueue. */
  lemma Beginning(cfg: Config, prefetch: nat) returns (states: seq<State>, steps: seq<Step>, db: Db)
    ensures Chain(cfg, states, steps) && IsInitial(states[0]) && Amount(states, steps, 0)
    ensures states[|steps|] == Scene(1.0, Fresh(prefetch), Fresh(1), db) && db.queue == map[7 := Enqueued(1.0, 1)]
  {
    db := EMPTY_DB.(queue := map[7 := Enqueued(1.0, 1)], nextPosition := 2);
    var a, sa := Opened(cfg, prefetch);
    var s := Scene(1.0, Fresh(prefetch), Fresh(1), db);
    Enqueues(cfg, 1.0, Fresh(prefetch), Fresh(1), EMPTY_DB);
    Glue(cfg, a, sa, [a[4], s], [Step.Enqueue(MESSAGE, 0)]);
    states, steps := a + [a[4], s][1..], sa + [Step.Enqueue(MESSAGE, 0)];
    forall j | 0 <= j < |steps| ensures LeavesDeliveries(steps[j]) {
      assert j < 4 ==> steps[j] == sa[j] && sa[j] in sa;
    }
    Unaffected(Run(states, steps), 0, |steps|, 1, QUEUE);
  }

  /** Where the run stands after n deliveries, the last one at time `t`. */
  ghost predicate Stands(s: State, t: Time, p: Process, db: Db, prefetch: nat, r: Row) {
    && s == Scene(t, p, Fresh(1), db)
    && p.alive && p.consumers == map[QUEUE := Busy(prefetch)] && db.queue == map[7 := r] && Claimed(r, t)
  }

  lemma FirstDelivery(cfg: Config, prefetch: nat) returns (states: seq<State>, steps: seq<Step>, p: Process, db: Db, r: Row)
    requires 1 <= prefetch
    ensures Chain(cfg, states, steps) && IsInitial(states[0]) && Amount(states, steps, 1)
    ensures Stands(states[|steps|], 1.0, p, db, prefetch, r)
  {
    var a, sa, db0 := Beginning(cfg, prefetch);
    var b, sb;
    assert Fresh(prefetch).alive && Fresh(prefetch).consumers == map[QUEUE := Free(prefetch)];
    b, sb, p, db, r := Delivery(cfg, 1.0, Fresh(prefetch), db0, Free(prefetch), Enqueued(1.0, 1));
    assert Free(prefetch).inProcessing + {7} == {7};
    Extended(cfg, a, sa, b, sb, 0);
    states, steps := a + b[1..], sa + sb;
  }

  /** n deliveries outstanding, for a message that is delivered again after every recovery. */
  lemma {:induction false} Delivered(cfg: Config, prefetch: nat, n: nat)
    returns (states: seq<State>, steps: seq<Step>, t: Time, p: Process, db: Db, r: Row)
    requires 2 <= prefetch && 1 <= n
    ensures Chain(cfg, states, steps) && IsInitial(states[0]) && Amount(states, steps, n)
    ensures Stands(states[|steps|], t, p, db, prefetch, r)
    decreases n
  {
    if n == 1 {
      states, steps, p, db, r := FirstDelivery(cfg, prefetch);
      t := 1.0;
    } else {
      var a, sa, u, q, db1, r1 := Delivered(cfg, prefetch, n - 1);
      var b, sb;
      b, sb, p, db, r := Redelivery(cfg, u, q, db1, prefetch, r1);
      Extended(cfg, a, sa, b, sb, n - 1);
      states, steps, t := a + b[1..], sa + sb, u + 1.0;
    }
  }

  /** Consumer (w, q) has this prefetch, and more deliveries outstanding. */
  ghost predicate Exceeds(cfg: Config, r: Run, k: nat, w: WorkerId, q: string, prefetch: nat) {
    && IsReachable(cfg, r) && k <= |r.steps| && Serves(r.states[k], w, q)
    && Member(r.states[k], w, q).prefetch == prefetch && |Outstanding(r, k, w, q)| > prefetch
  }

  lemma DeliveredTooOften(cfg: Config, prefetch: nat) returns (r: Run)
    requires 2 <= prefetch
    ensures OrderlyRun(r) && Exceeds(cfg, r, |r.steps|, 1, QUEUE, prefetch)
  {
    var states, steps, t, p, db, row := Delivered(cfg, prefetch, prefetch + 1);
    r := Run(states, steps);
    ChainIsRun(cfg, states, steps);
  }

  lemma NeverExceeds(cfg: Config, r: Run, k: nat, w: WorkerId, q: string, prefetch: nat)
    requires prefetch <= 1
    ensures !Exceeds(cfg, r, k, w, q, prefetch)
  {
    if IsReachable(cfg, r) && k <= |r.steps| && Serves(r.states[k], w, q) && Member(r.states[k], w, q).prefetch == prefetch {
      OutstandingWithinOne(cfg, r, k, w, q);
    }
  }

  /** The deliveries outstanding stay within the prefetch, in every run, exactly for a prefetch of at most one. */
  lemma OutstandingWithinPrefetchIff(cfg: Config, prefetch: nat)
    ensures prefetch <= 1 <==> forall r, k, w, q :: !Exceeds(cfg, r, k, w, q, prefetch)
  {
    if prefetch <= 1 {
      forall r, k: nat, w, q ensures !Exceeds(cfg, r, k, w, q, prefetch) {
        NeverExceeds(cfg, r, k, w, q, prefetch);
      }
    } else {
      var r := DeliveredTooOften(cfg, prefetch);
      assert Exceeds(cfg, r, |r.steps|, 1, QUEUE, prefetch);
    }
  }
}
