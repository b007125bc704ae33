/** A run in which two workers have claims of the same queue in flight at once, each with its own row. */
module TwoInFlight {
  import opened Wrappers
  import opened Tables
  import opened Machine
  import opened TwoPhase
  import opened Progress
  import opened Stage

  const SECOND := Message(8, QUEUE, "")

  function First(): Row { Enqueued(1.0, 1) }

  function Second(): Row { EnqueuedRow(None, SECOND, 0, 1.0, 2) }

  // Both messages are queued.
  function Both(): QueueTable { map[7 := First(), 8 := Second()] }

  lemma EnqueuesSecond(cfg: Config, p1: Process, p2: Process, db: Db)
    requires db.queue == map[7 := First()] && db.nextPosition == 2
    ensures Chain(cfg, [Scene(1.0, p1, p2, db), Scene(1.0, p1, p2, db.(queue := Both(), nextPosition := 3))], [Step.Enqueue(SECOND, 0)])
  {
    assert map[7 := First()][8 := Second()] == Both();
    assert Follows(cfg, Scene(1.0, p1, p2, db), Step.Enqueue(SECOND, 0), Scene(1.0, p1, p2, db.(queue := Both(), nextPosition := 3)));
  }

  // ----- Both workers are about to claim

  predicate NoClaims(steps: seq<Step>) {
    forall a | a in steps :: !a.Claim? && !a.Raise?
  }

  /** A worker starts its first call, without getting the lock, and looks at its capacity. */
  lemma AboutToClaim(cfg: Config, w: WorkerId, o: Process, db: Db) returns (states: seq<State>, steps: seq<Step>, p: Process, db': Db)
    requires OnStage(w)
    ensures Chain(cfg, states, steps) && NoClaims(steps)
    ensures states[0] == Put(w, 1.0, Fresh(1), o, db) && states[|steps|] == Put(w, 1.0, p, o, db')
    ensures p.alive && p.consumers == map[QUEUE := Free(1).(phase := Claiming(1))] && db'.queue == db.queue
  {
    var q := Looked(cfg, 1.0, Fresh(1), Free(1), 1.0);
    db' := LookedDb(cfg, w, 1.0, Fresh(1), false, db);
    p := q.(consumers := map[QUEUE := Free(1).(phase := Claiming(1))]);
    Looks(cfg, w, 1.0, 0.0, Fresh(1), o, db, Free(1), false, 1.0);
    Decides(cfg, w, 1.0, q, o, db', Free(1).(phase := Maintained));
    var a, sa := LookStates(cfg, w, 1.0, 0.0, Fresh(1), o, db, Free(1), false, 1.0), LookSteps(w, 0.0, false, 1.0);
    var b, sb := [Put(w, 1.0, q, o, db'), Put(w, 1.0, p, o, db')], [Decide(w, QUEUE)];
    Glue(cfg, a, sa, b, sb);
    states, steps := a + b[1..], sa + sb;
  }

  lemma BothEnqueued(cfg: Config) returns (states: seq<State>, steps: seq<Step>, db: Db)
    ensures Chain(cfg, states, steps) && IsInitial(states[0]) && NoClaims(steps)
    ensures states[|steps|] == Scene(1.0, Fresh(1), Fresh(1), db) && db.queue == Both()
  {
    var a, sa := Opened(cfg, 1);
    var db1 := EMPTY_DB.(queue := map[7 := First()], nextPosition := 2);
    db := db1.(queue := Both(), nextPosition := 3);
    Enqueues(cfg, 1.0, Fresh(1), Fresh(1), EMPTY_DB);
    EnqueuesSecond(cfg, Fresh(1), Fresh(1), db1);
    var s1, s2 := Scene(1.0, Fresh(1), Fresh(1), db1), Scene(1.0, Fresh(1), Fresh(1), db);
    ChainOfTwo(cfg, a[4], s1, s2, Step.Enqueue(MESSAGE, 0), Step.Enqueue(SECOND, 0));
    Glue(cfg, a, sa, [a[4], s1, s2], [Step.Enqueue(MESSAGE, 0), Step.Enqueue(SECOND, 0)]);
    states, steps := a + [a[4], s1, s2][1..], sa + [Step.Enqueue(MESSAGE, 0), Step.Enqueue(SECOND, 0)];
  }

  /** A worker that is about to claim, of at most one row. */
  predicate Ready(p: Process) {
    p.alive && p.consumers == map[QUEUE := Free(1).(phase := Claiming(1))]
  }

  lemma BothReady(cfg: Config) returns (states: seq<State>, steps: seq<Step>, p1: Process, p2: Process, db: Db)
    ensures Chain(cfg, states, steps) && IsInitial(states[0]) && NoClaims(steps)
    ensures states[|steps|] == Scene(1.0, p1, p2, db) && db.queue == Both() && Ready(p1) && Ready(p2)
  {
    var a, sa, db0 := BothEnqueued(cfg);
    var b, sb, c, sc, db1;
    b, sb, p1, db1 := AboutToClaim(cfg, 1, Fresh(1), db0);
    c, sc, p2, db := AboutToClaim(cfg, 2, p1, db1);
    Glue(cfg, a, sa, b, sb);
    Glue(cfg, a + b[1..], sa + sb, c, sc);
    states, steps := a + b[1..] + c[1..], sa + sb + sc;
  }

  // ----- Both claims begin

  /** The same steps with no claim in flight. */
  function Lifted(states: seq<State>, steps: seq<Step>): TRun {
    TRun(seq(|states|, i requires 0 <= i < |states| => TState(states[i], map[])),
         seq(|steps|, i requires 0 <= i < |steps| => Other(steps[i])))
  }

  lemma LiftedStep(cfg: Config, s: State, a: Step, s': State)
    requires Follows(cfg, s, a, s')
    ensures !a.Claim? && !a.Raise? ==> TFollows(cfg, TState(s, map[]), Other(a), TState(s', map[]))
  {
  }

  lemma LiftedIsRun(cfg: Config, states: seq<State>, steps: seq<Step>)
    requires Chain(cfg, states, steps) && NoClaims(steps)
    ensures IsTRun(cfg, Lifted(states, steps))
  {
    var r := Lifted(states, steps);
    forall i {:trigger r.steps[i]} | 0 <= i < |r.steps| ensures TFollows(cfg, r.states[i], r.steps[i], r.states[i + 1]) {
      LiftedStep(cfg, states[i], steps[i], states[i + 1]);
      assert steps[i] in steps;
    }
  }

  lemma BeginsFirst(cfg: Config, s: State)
    requires Serves(s, 1, QUEUE) && Member(s, 1, QUEUE).phase == Claiming(1) && s.db.queue == Both() && s.now == 1.0
    ensures TFollows(cfg, TState(s, map[]), Begin(1, QUEUE, {7}), TState(s, map[(1, QUEUE) := Tx(1, {7}, 1.0)]))
  {
    var t := TState(s, map[]);
    assert Unlocked(t, QUEUE) == {7, 8};
    assert map[][(1, QUEUE) := Tx(1, {7}, 1.0)] == map[(1, QUEUE) := Tx(1, {7}, 1.0)];
  }

  /** The second claim skips the row that the first one has locked. */
  lemma BeginsSecond(cfg: Config, s: State)
    requires Serves(s, 2, QUEUE) && Member(s, 2, QUEUE).phase == Claiming(1) && s.db.queue == Both() && s.now == 1.0
    ensures TFollows(cfg, TState(s, map[(1, QUEUE) := Tx(1, {7}, 1.0)]), Begin(2, QUEUE, {8}),
                     TState(s, map[(1, QUEUE) := Tx(1, {7}, 1.0), (2, QUEUE) := Tx(1, {8}, 1.0)]))
  {
    var t := TState(s, map[(1, QUEUE) := Tx(1, {7}, 1.0)]);
    assert (1, QUEUE) in t.inFlight && 7 in t.inFlight[(1, QUEUE)].chosen;
    assert Locked(t, 7) && !Locked(t, 8);
    assert Unlocked(t, QUEUE) == {8};
    assert map[(1, QUEUE) := Tx(1, {7}, 1.0)][(2, QUEUE) := Tx(1, {8}, 1.0)]
        == map[(1, QUEUE) := Tx(1, {7}, 1.0), (2, QUEUE) := Tx(1, {8}, 1.0)];
  }

  /** In the last state of this run, the claims of both workers are in flight, on the same queue. */
  lemma TwoClaimsInFlight(cfg: Config) returns (r: TRun)
    ensures IsReachableT(cfg, r)
    ensures var t := r.states[|r.steps|];
            && (1, QUEUE) in t.inFlight && t.inFlight[(1, QUEUE)].chosen == {7}
            && (2, QUEUE) in t.inFlight && t.inFlight[(2, QUEUE)].chosen == {8}
  {
    var states, steps, p1, p2, db := BothReady(cfg);
    var s, r0 := Scene(1.0, p1, p2, db), Lifted(states, steps);
    LiftedIsRun(cfg, states, steps);
    var t1 := TState(s, map[(1, QUEUE) := Tx(1, {7}, 1.0)]);
    var t2 := TState(s, map[(1, QUEUE) := Tx(1, {7}, 1.0), (2, QUEUE) := Tx(1, {8}, 1.0)]);
    BeginsFirst(cfg, s);
    BeginsSecond(cfg, s);
    r := TRun(r0.states + [t1, t2], r0.steps + [Begin(1, QUEUE, {7}), Begin(2, QUEUE, {8})]);
    forall i {:trigger r.steps[i]} | 0 <= i < |r.steps| ensures TFollows(cfg, r.states[i], r.steps[i], r.states[i + 1]) {
      if i < |steps| {
        assert r.steps[i] == r0.steps[i] && r.states[i] == r0.states[i] && r.states[i + 1] == r0.states[i + 1];
      }
    }
  }
}
