/** A stage for runs that show a condition to be exact: two workers, one message, whole calls of
    `__next__` and how runs are joined from them; equal steps in time.  No call on it ends in an error. */
module Stage {
  import opened Wrappers
  import opened Tables
  import opened Machine
  import opened Timing

  const QUEUE := "default"
  const MESSAGE := Message(7, QUEUE, "")

  // Two workers, each with a consumer of the queue.
  function Scene(now: Time, p1: Process, p2: Process, db: Db): State {
    State(now, db, map[1 := p1, 2 := p2])
  }

  /** The scene in which worker `w` is `p`, and the other one is `o`. */
  function Put(w: WorkerId, now: Time, p: Process, o: Process, db: Db): State {
    if w == 1 then Scene(now, p, o, db) else Scene(now, o, p, db)
  }

  predicate OnStage(w: WorkerId) { w == 1 || w == 2 }

  function Free(prefetch: nat): Consumer { Consumer(prefetch, [], {}, Idle) }

  function Fresh(prefetch: nat): Process {
    Process(true, 0.0, 0.0, None, None, map[QUEUE := Free(prefetch)])
  }

  // ----- Runs without errors

  /** The step is no error; and a claim is that of a transaction that begins now, with no row locked. */
  ghost predicate Orderly(s: State, a: Step) {
    && !a.Raise?
    && (a.Claim? ==>
          && Serves(s, a.w, a.q) && Member(s, a.w, a.q).phase.Claiming? && a.at == s.now
          && IsFirst(s.db.queue, Due(s.db.queue, a.q, a.at), Member(s, a.w, a.q).phase.limit, Elements(a.order)))
  }

  ghost predicate OrderlyRun(r: Run) {
    |r.states| == |r.steps| + 1 && forall i {:trigger r.steps[i]} | 0 <= i < |r.steps| :: Orderly(r.states[i], r.steps[i])
  }

  // ----- Runs, in parts

  ghost predicate Chain(cfg: Config, states: seq<State>, steps: seq<Step>) {
    |states| == |steps| + 1
    && forall i {:trigger steps[i]} | 0 <= i < |steps| ::
         Follows(cfg, states[i], steps[i], states[i + 1]) && Orderly(states[i], steps[i])
  }

  lemma ChainIsRun(cfg: Config, states: seq<State>, steps: seq<Step>)
    requires Chain(cfg, states, steps)
    ensures IsRun(cfg, Run(states, steps)) && OrderlyRun(Run(states, steps))
  {
  }

  lemma Glue(cfg: Config, a: seq<State>, sa: seq<Step>, b: seq<State>, sb: seq<Step>)
    requires Chain(cfg, a, sa) && Chain(cfg, b, sb) && a[|a| - 1] == b[0]
    ensures Chain(cfg, a + b[1..], sa + sb)
    ensures (a + b[1..])[|sa| + |sb|] == b[|b| - 1] && (a + b[1..])[0] == a[0]
  {
    var states, steps := a + b[1..], sa + sb;
    forall i {:trigger steps[i]} | 0 <= i < |steps|
      ensures Follows(cfg, states[i], steps[i], states[i + 1]) && Orderly(states[i], steps[i])
    {
      if i < |sa| {
        assert steps[i] == sa[i];
      } else {
        assert steps[i] == sb[i - |sa|];
      }
    }
  }

  lemma ChainOfTwo(cfg: Config, s0: State, s1: State, s2: State, a0: Step, a1: Step)
    requires Chain(cfg, [s0, s1], [a0]) && Chain(cfg, [s1, s2], [a1])
    ensures Chain(cfg, [s0, s1, s2], [a0, a1])
  {
    Glue(cfg, [s0, s1], [a0], [s1, s2], [a1]);
    assert [s0, s1] + [s1, s2][1..] == [s0, s1, s2] && [a0] + [a1] == [a0, a1];
  }

  lemma Longer(cfg: Config, s0: State, s1: State, s2: State, s3: State, a0: Step, a1: Step, a2: Step)
    requires Chain(cfg, [s0, s1, s2], [a0, a1]) && Chain(cfg, [s2, s3], [a2])
    ensures Chain(cfg, [s0, s1, s2, s3], [a0, a1, a2])
  {
    Glue(cfg, [s0, s1, s2], [a0, a1], [s2, s3], [a2]);
    assert [s0, s1, s2] + [s2, s3][1..] == [s0, s1, s2, s3] && [a0, a1] + [a2] == [a0, a1, a2];
  }

  lemma ChainOfThree(cfg: Config, s0: State, s1: State, s2: State, s3: State, a0: Step, a1: Step, a2: Step)
    requires Chain(cfg, [s0, s1], [a0]) && Chain(cfg, [s1, s2], [a1]) && Chain(cfg, [s2, s3], [a2])
    ensures Chain(cfg, [s0, s1, s2, s3], [a0, a1, a2])
  {
    ChainOfTwo(cfg, s0, s1, s2, a0, a1);
    Longer(cfg, s0, s1, s2, s3, a0, a1, a2);
  }

  ghost predicate Prompt(states: seq<State>, steps: seq<Step>, gap: Time) {
    |states| == |steps| + 1 && forall i {:trigger steps[i]} | 0 <= i < |steps| :: PromptClaim(states[i], steps[i], gap)
  }

  lemma GluePrompt(a: seq<State>, sa: seq<Step>, b: seq<State>, sb: seq<Step>, gap: Time)
    requires Prompt(a, sa, gap) && Prompt(b, sb, gap) && a[|a| - 1] == b[0]
    ensures Prompt(a + b[1..], sa + sb, gap)
  {
    var states, steps := a + b[1..], sa + sb;
    forall i {:trigger steps[i]} | 0 <= i < |steps| ensures PromptClaim(states[i], steps[i], gap) {
      if i < |sa| {
        assert steps[i] == sa[i] && states[i] == a[i];
      } else {
        assert steps[i] == sb[i - |sa|] && states[i] == b[i - |sa|];
      }
    }
  }

  /** Worker 1 has called at most `gap` apart since its first call. */
  ghost predicate AllPunctual(states: seq<State>, gap: Time) {
    forall s | s in states :: Punctual(s, 1, gap)
  }

  lemma GluePunctual(a: seq<State>, b: seq<State>, gap: Time)
    requires AllPunctual(a, gap) && AllPunctual(b, gap) && b != []
    ensures AllPunctual(a + b[1..], gap)
  {
    forall s | s in a + b[1..] ensures Punctual(s, 1, gap) {
      assert s in a || s in b;
    }
  }

  /** Worker 2 has run its maintenance check at most `gap` ago. */
  ghost predicate Awake(states: seq<State>, gap: Time) {
    forall s | s in states :: UpkeptWithin(s, 2, gap)
  }

  lemma GlueAwake(a: seq<State>, b: seq<State>, gap: Time)
    requires Awake(a, gap) && Awake(b, gap) && b != []
    ensures Awake(a + b[1..], gap)
  {
    forall s | s in a + b[1..] ensures UpkeptWithin(s, 2, gap) {
      assert s in a || s in b;
    }
  }

  // ----- Single steps

  lemma Replaced(w: WorkerId, now: Time, p: Process, p': Process, o: Process, db: Db)
    requires OnStage(w)
    ensures Put(w, now, p, o, db).procs[w := p'] == Put(w, now, p', o, db).procs
  {
  }

  lemma Changed(w: WorkerId, now: Time, p: Process, o: Process, db: Db, c: Consumer, c': Consumer)
    requires OnStage(w) && p.alive && p.consumers == map[QUEUE := c]
    ensures Serves(Put(w, now, p, o, db), w, QUEUE) && Member(Put(w, now, p, o, db), w, QUEUE) == c
    ensures WithMember(Put(w, now, p, o, db), w, QUEUE, c') == Put(w, now, p.(consumers := map[QUEUE := c']), o, db)
  {
    assert map[QUEUE := c][QUEUE := c'] == map[QUEUE := c'];
    Replaced(w, now, p, p.(consumers := map[QUEUE := c']), o, db);
  }

  lemma Ticks(cfg: Config, w: WorkerId, t: Time, d: Time, p: Process, o: Process, db: Db)
    requires 0.0 <= d
    ensures Chain(cfg, [Put(w, t, p, o, db), Put(w, t + d, p, o, db)], [Tick(d)])
  {
    assert Follows(cfg, Put(w, t, p, o, db), Tick(d), Put(w, t + d, p, o, db));
  }

  /** A worker after its heartbeat check, and what the check writes. */
  function Checked(cfg: Config, now: Time, p: Process, c: Consumer): Process {
    p.(checkedAt := Some(now), heartbeatAt := if HeartbeatDue(cfg, p.heartbeatAt, now) then now else p.heartbeatAt,
       consumers := map[QUEUE := c.(phase := Beaten)])
  }

  function CheckedDb(cfg: Config, w: WorkerId, now: Time, p: Process, db: Db): Db {
    if HeartbeatDue(cfg, p.heartbeatAt, now) then db.(workers := db.workers[w := now]) else db
  }

  lemma Beats(cfg: Config, w: WorkerId, now: Time, p: Process, o: Process, db: Db, c: Consumer)
    requires OnStage(w) && p.alive && p.consumers == map[QUEUE := c] && c.phase == Idle
    ensures Chain(cfg, [Put(w, now, p, o, db), Put(w, now, Checked(cfg, now, p, c), o, CheckedDb(cfg, w, now, p, db))],
                  [HeartbeatCheck(w, QUEUE)])
  {
    var s, p' := Put(w, now, p, o, db), Checked(cfg, now, p, c);
    Changed(w, now, p, o, db, c, c.(phase := Beaten));
    assert map[QUEUE := c][QUEUE := c.(phase := Beaten)] == map[QUEUE := c.(phase := Beaten)];
    Replaced(w, now, p, p', o, db);
    assert Follows(cfg, s, HeartbeatCheck(w, QUEUE), Put(w, now, p', o, CheckedDb(cfg, w, now, p, db)));
  }

  /** A worker after its maintenance check, and what the maintenance writes. */
  function Upkept(cfg: Config, now: Time, p: Process, jitter: real, c: Consumer): Process
    requires 0.5 <= jitter < 1.5
  {
    p.(upkeptAt := Some(now), consumers := map[QUEUE := c.(phase := Maintained)],
       maintenanceAt := if MaintenanceDue(p.maintenanceAt, now) then NextMaintenance(cfg.maintenanceInterval, jitter, now)
                        else p.maintenanceAt)
  }

  function UpkeptDb(cfg: Config, now: Time, p: Process, granted: bool, db: Db): Db {
    if MaintenanceDue(p.maintenanceAt, now) && granted
    then Maintain(db, cfg.heartbeatTtl, cfg.purgeMaxAge, cfg.collect, now) else db
  }

  lemma Upkeeps(cfg: Config, w: WorkerId, now: Time, p: Process, o: Process, db: Db, c: Consumer, granted: bool, jitter: real)
    requires OnStage(w) && p.alive && p.consumers == map[QUEUE := c] && c.phase == Beaten && 0.5 <= jitter < 1.5
    ensures Chain(cfg, [Put(w, now, p, o, db), Put(w, now, Upkept(cfg, now, p, jitter, c), o, UpkeptDb(cfg, now, p, granted, db))],
                  [MaintenanceCheck(w, QUEUE, granted, jitter)])
  {
    var s, p' := Put(w, now, p, o, db), Upkept(cfg, now, p, jitter, c);
    Changed(w, now, p, o, db, c, c.(phase := Maintained));
    assert map[QUEUE := c][QUEUE := c.(phase := Maintained)] == map[QUEUE := c.(phase := Maintained)];
    Replaced(w, now, p, p', o, db);
    assert Follows(cfg, s, MaintenanceCheck(w, QUEUE, granted, jitter), Put(w, now, p', o, UpkeptDb(cfg, now, p, granted, db)));
  }

  lemma Decides(cfg: Config, w: WorkerId, now: Time, p: Process, o: Process, db: Db, c: Consumer)
    requires OnStage(w) && p.alive && p.consumers == map[QUEUE := c] && c.phase == Maintained
    ensures Chain(cfg, [Put(w, now, p, o, db), Put(w, now, p.(consumers := map[QUEUE := c.(phase := DecidedPhase(c))]), o, db)],
                  [Decide(w, QUEUE)])
  {
    Changed(w, now, p, o, db, c, c.(phase := DecidedPhase(c)));
    assert Follows(cfg, Put(w, now, p, o, db), Decide(w, QUEUE),
                   Put(w, now, p.(consumers := map[QUEUE := c.(phase := DecidedPhase(c))]), o, db));
  }

  lemma Pops(cfg: Config, w: WorkerId, now: Time, p: Process, o: Process, db: Db, c: Consumer)
    requires OnStage(w) && p.alive && p.consumers == map[QUEUE := c] && c.phase == Popping
    ensures Chain(cfg, [Put(w, now, p, o, db), Put(w, now, p.(consumers := map[QUEUE := Popped(c)]), o, db)], [Pop(w, QUEUE)])
  {
    Changed(w, now, p, o, db, c, Popped(c));
    assert Follows(cfg, Put(w, now, p, o, db), Pop(w, QUEUE), Put(w, now, p.(consumers := map[QUEUE := Popped(c)]), o, db));
  }

  /** A claim that finds no row due. */
  lemma ClaimsNone(cfg: Config, w: WorkerId, now: Time, p: Process, o: Process, db: Db, c: Consumer)
    requires OnStage(w) && p.alive && p.consumers == map[QUEUE := c] && c.phase.Claiming?
    requires Due(db.queue, QUEUE, now) == {}
    ensures Chain(cfg, [Put(w, now, p, o, db), Put(w, now, p.(consumers := map[QUEUE := c.(phase := Popping)]), o, db)],
                  [Step.Claim(w, QUEUE, [], now)])
  {
    var s, s' := Put(w, now, p, o, db), Put(w, now, p.(consumers := map[QUEUE := c.(phase := Popping)]), o, db);
    Changed(w, now, p, o, db, c, c.(phase := Popping));
    assert Elements([]) == {} && Decoded(db.queue, []) == [] && c.buffer + [] == c.buffer;
    assert Tables.Claim(db.queue, {}, w, now) == db.queue;
    assert Follows(cfg, s, Step.Claim(w, QUEUE, [], now), s');
  }

  /** A claim of the only row, which is due. */
  lemma ClaimsOne(cfg: Config, w: WorkerId, now: Time, p: Process, o: Process, db: Db, c: Consumer, r: Row)
    requires OnStage(w) && p.alive && p.consumers == map[QUEUE := c] && c.phase.Claiming? && c.phase.limit >= 1
    requires db.queue == map[7 := r] && IsDue(r, QUEUE, now)
    ensures Chain(cfg, [Put(w, now, p, o, db),
                        Put(w, now, p.(consumers := map[QUEUE := c.(buffer := c.buffer + [r.message], phase := Popping)]), o,
                            db.(queue := map[7 := ClaimedRow(r, w, now)]))],
                  [Step.Claim(w, QUEUE, [7], now)])
  {
    var c' := c.(buffer := c.buffer + [r.message], phase := Popping);
    Changed(w, now, p, o, db, c, c');
    assert Elements([7]) == {7} && Decoded(db.queue, [7]) == [r.message];
    assert Tables.Claim(db.queue, {7}, w, now) == map[7 := ClaimedRow(r, w, now)];
    assert Due(db.queue, QUEUE, now) == {7};
    assert Follows(cfg, Put(w, now, p, o, db), Step.Claim(w, QUEUE, [7], now),
                   Put(w, now, p.(consumers := map[QUEUE := c']), o, db.(queue := map[7 := ClaimedRow(r, w, now)])));
  }

  lemma Crashes(cfg: Config, w: WorkerId, now: Time, p: Process, o: Process, db: Db)
    requires OnStage(w)
    ensures Chain(cfg, [Put(w, now, p, o, db), Put(w, now, p.(alive := false), o, db)], [Crash(w)])
  {
    Replaced(w, now, p, p.(alive := false), o, db);
    assert Follows(cfg, Put(w, now, p, o, db), Crash(w), Put(w, now, p.(alive := false), o, db));
  }

  function Enqueued(now: Time, position: nat): Row { EnqueuedRow(None, MESSAGE, 0, now, position) }

  lemma Enqueues(cfg: Config, now: Time, p1: Process, p2: Process, db: Db)
    requires db.queue == map[]
    ensures Chain(cfg, [Scene(now, p1, p2, db),
                        Scene(now, p1, p2, db.(queue := map[7 := Enqueued(now, db.nextPosition)], nextPosition := db.nextPosition + 1))],
                  [Step.Enqueue(MESSAGE, 0)])
    ensures IsDue(Enqueued(now, db.nextPosition), QUEUE, now)
  {
    var s' := Scene(now, p1, p2, db.(queue := map[7 := Enqueued(now, db.nextPosition)], nextPosition := db.nextPosition + 1));
    assert Follows(cfg, Scene(now, p1, p2, db), Step.Enqueue(MESSAGE, 0), s');
  }

  // ----- Calls

  /** Worker `w` lives and is at these checks, the other worker is as given, and it is `now`. */
  predicate Stays(s: State, w: WorkerId, now: Time, checked: Option<Time>, upkept: Option<Time>, o: Process) {
    && OnStage(w) && s.now == now && 1 in s.procs && 2 in s.procs && s.procs[3 - w] == o
    && s.procs[w].alive && s.procs[w].checkedAt == checked && s.procs[w].upkeptAt == upkept
  }

  lemma PutStays(w: WorkerId, now: Time, p: Process, o: Process, db: Db)
    requires OnStage(w) && p.alive
    ensures Stays(Put(w, now, p, o, db), w, now, p.checkedAt, p.upkeptAt, o)
  {
  }

  ghost predicate Still(states: seq<State>, w: WorkerId, now: Time, checked: Option<Time>, upkept: Option<Time>, o: Process) {
    forall s | s in states :: Stays(s, w, now, checked, upkept, o)
  }

  /** What a worker does first in a call, after a pause. */
  function Looked(cfg: Config, now: Time, p: Process, c: Consumer, jitter: real): Process
    requires 0.5 <= jitter < 1.5
  {
    Upkept(cfg, now, Checked(cfg, now, p, c), jitter, c.(phase := Beaten))
  }

  function LookedDb(cfg: Config, w: WorkerId, now: Time, p: Process, granted: bool, db: Db): Db {
    UpkeptDb(cfg, now, p, granted, CheckedDb(cfg, w, now, p, db))
  }

  function LookStates(cfg: Config, w: WorkerId, t: Time, d: Time, p: Process, o: Process, db: Db, c: Consumer,
                      granted: bool, jitter: real): seq<State>
    requires 0.5 <= jitter < 1.5
  {
    [Put(w, t, p, o, db), Put(w, t + d, p, o, db), Put(w, t + d, Checked(cfg, t + d, p, c), o, CheckedDb(cfg, w, t + d, p, db)),
     Put(w, t + d, Looked(cfg, t + d, p, c, jitter), o, LookedDb(cfg, w, t + d, p, granted, db))]
  }

  function LookSteps(w: WorkerId, d: Time, granted: bool, jitter: real): seq<Step> {
    [Tick(d), HeartbeatCheck(w, QUEUE), MaintenanceCheck(w, QUEUE, granted, jitter)]
  }

  lemma PausesAndBeats(cfg: Config, w: WorkerId, t: Time, d: Time, p: Process, o: Process, db: Db, c: Consumer)
    requires OnStage(w) && 0.0 <= d && p.alive && p.consumers == map[QUEUE := c] && c.phase == Idle
    ensures Chain(cfg, [Put(w, t, p, o, db), Put(w, t + d, p, o, db),
                        Put(w, t + d, Checked(cfg, t + d, p, c), o, CheckedDb(cfg, w, t + d, p, db))],
                  [Tick(d), HeartbeatCheck(w, QUEUE)])
  {
    Ticks(cfg, w, t, d, p, o, db);
    Beats(cfg, w, t + d, p, o, db, c);
    ChainOfTwo(cfg, Put(w, t, p, o, db), Put(w, t + d, p, o, db),
               Put(w, t + d, Checked(cfg, t + d, p, c), o, CheckedDb(cfg, w, t + d, p, db)), Tick(d), HeartbeatCheck(w, QUEUE));
  }

  lemma Looks(cfg: Config, w: WorkerId, t: Time, d: Time, p: Process, o: Process, db: Db, c: Consumer, granted: bool, jitter: real)
    requires OnStage(w) && 0.0 <= d && 0.5 <= jitter < 1.5 && p.alive && p.consumers == map[QUEUE := c] && c.phase == Idle
    ensures Chain(cfg, LookStates(cfg, w, t, d, p, o, db, c, granted, jitter), LookSteps(w, d, granted, jitter))
  {
    var states, q := LookStates(cfg, w, t, d, p, o, db, c, granted, jitter), Checked(cfg, t + d, p, c);
    PausesAndBeats(cfg, w, t, d, p, o, db, c);
    Upkeeps(cfg, w, t + d, q, o, CheckedDb(cfg, w, t + d, p, db), c.(phase := Beaten), granted, jitter);
    assert LookedDb(cfg, w, t + d, p, granted, db) == UpkeptDb(cfg, t + d, q, granted, CheckedDb(cfg, w, t + d, p, db));
    Longer(cfg, states[0], states[1], states[2], states[3],
           Tick(d), HeartbeatCheck(w, QUEUE), MaintenanceCheck(w, QUEUE, granted, jitter));
  }

  lemma LooksPunctual(cfg: Config, w: WorkerId, t: Time, d: Time, p: Process, o: Process, db: Db, c: Consumer,
                      granted: bool, jitter: real, gap: Time)
    requires OnStage(w) && 0.0 <= d <= gap && 0.5 <= jitter < 1.5
    requires if w == 1 then p.checkedAt in {None, Some(t)} else o.checkedAt.Some? ==> t + d <= o.checkedAt.value + gap
    ensures AllPunctual(LookStates(cfg, w, t, d, p, o, db, c, granted, jitter), gap)
  {
  }

  lemma LooksAwake(cfg: Config, t: Time, d: Time, p: Process, o: Process, db: Db, c: Consumer, granted: bool, jitter: real, gap: Time)
    requires 0.0 <= d <= gap && 0.5 <= jitter < 1.5 && p.alive && p.upkeptAt == Some(t)
    ensures Awake(LookStates(cfg, 2, t, d, p, o, db, c, granted, jitter), gap)
  {
  }

  /** The rest of a call by a consumer whose prefetch is full. */
  lemma FindsFull(cfg: Config, w: WorkerId, now: Time, p: Process, o: Process, db: Db, c: Consumer)
    returns (states: seq<State>, steps: seq<Step>)
    requires OnStage(w) && p.alive && p.consumers == map[QUEUE := c.(phase := Maintained)]
    requires c.phase == Idle && c.buffer == [] && Capacity(c) <= 0
    ensures Chain(cfg, states, steps) && steps == [Decide(w, QUEUE), Pop(w, QUEUE)]
    ensures states[0] == Put(w, now, p, o, db) && states[2] == Put(w, now, p.(consumers := map[QUEUE := c]), o, db)
    ensures Still(states, w, now, p.checkedAt, p.upkeptAt, o)
  {
    var p1 := p.(consumers := map[QUEUE := c.(phase := Popping)]);
    var s0, s1, s2 := Put(w, now, p, o, db), Put(w, now, p1, o, db), Put(w, now, p.(consumers := map[QUEUE := c]), o, db);
    Decides(cfg, w, now, p, o, db, c.(phase := Maintained));
    Pops(cfg, w, now, p1, o, db, c.(phase := Popping));
    assert Popped(c.(phase := Popping)) == c;
    ChainOfTwo(cfg, s0, s1, s2, Decide(w, QUEUE), Pop(w, QUEUE));
    PutStays(w, now, p, o, db);
    PutStays(w, now, p1, o, db);
    PutStays(w, now, p.(consumers := map[QUEUE := c]), o, db);
    states, steps := [s0, s1, s2], [Decide(w, QUEUE), Pop(w, QUEUE)];
  }

  /** The rest of a call that finds no row due. */
  lemma FindsNothing(cfg: Config, w: WorkerId, now: Time, p: Process, o: Process, db: Db, c: Consumer)
    returns (states: seq<State>, steps: seq<Step>)
    requires OnStage(w) && p.alive && p.consumers == map[QUEUE := c.(phase := Maintained)]
    requires c.phase == Idle && c.buffer == [] && Capacity(c) > 0 && Due(db.queue, QUEUE, now) == {}
    ensures Chain(cfg, states, steps) && steps == [Decide(w, QUEUE), Step.Claim(w, QUEUE, [], now), Pop(w, QUEUE)]
    ensures states[0] == Put(w, now, p, o, db) && states[3] == Put(w, now, p.(consumers := map[QUEUE := c]), o, db)
    ensures Still(states, w, now, p.checkedAt, p.upkeptAt, o)
  {
    var claiming, popping := c.(phase := DecidedPhase(c)), c.(phase := Popping);
    var p1, p2 := p.(consumers := map[QUEUE := claiming]), p.(consumers := map[QUEUE := popping]);
    var s0, s1, s2 := Put(w, now, p, o, db), Put(w, now, p1, o, db), Put(w, now, p2, o, db);
    var s3 := Put(w, now, p.(consumers := map[QUEUE := c]), o, db);
    Decides(cfg, w, now, p, o, db, c.(phase := Maintained));
    ClaimsNone(cfg, w, now, p1, o, db, claiming);
    Pops(cfg, w, now, p2, o, db, popping);
    assert Popped(popping) == c;
    ChainOfThree(cfg, s0, s1, s2, s3, Decide(w, QUEUE), Step.Claim(w, QUEUE, [], now), Pop(w, QUEUE));
    PutStays(w, now, p, o, db);
    PutStays(w, now, p1, o, db);
    PutStays(w, now, p2, o, db);
    PutStays(w, now, p.(consumers := map[QUEUE := c]), o, db);
    states, steps := [s0, s1, s2, s3], [Decide(w, QUEUE), Step.Claim(w, QUEUE, [], now), Pop(w, QUEUE)];
  }

  // The consumer with the message in its buffer.
  function Loaded(c: Consumer): Consumer { c.(buffer := [MESSAGE], phase := Popping) }

  /** The rest of a call up to its claim of the message. */
  lemma StartsTaking(cfg: Config, w: WorkerId, now: Time, p: Process, o: Process, db: Db, c: Consumer, r: Row)
    returns (states: seq<State>, steps: seq<Step>)
    requires OnStage(w) && p.alive && p.consumers == map[QUEUE := c.(phase := Maintained)]
    requires c.phase == Idle && c.buffer == [] && Capacity(c) > 0
    requires db.queue == map[7 := r] && IsDue(r, QUEUE, now) && r.message == MESSAGE
    ensures Chain(cfg, states, steps) && steps == [Decide(w, QUEUE), Step.Claim(w, QUEUE, [7], now)]
    ensures states[0] == Put(w, now, p, o, db)
    ensures states[2] == Put(w, now, p.(consumers := map[QUEUE := Loaded(c)]), o, db.(queue := map[7 := ClaimedRow(r, w, now)]))
    ensures Still(states, w, now, p.checkedAt, p.upkeptAt, o)
  {
    var claiming := c.(phase := DecidedPhase(c));
    var p1, p2 := p.(consumers := map[QUEUE := claiming]), p.(consumers := map[QUEUE := Loaded(c)]);
    var s0, s1 := Put(w, now, p, o, db), Put(w, now, p1, o, db);
    var s2 := Put(w, now, p2, o, db.(queue := map[7 := ClaimedRow(r, w, now)]));
    Decides(cfg, w, now, p, o, db, c.(phase := Maintained));
    assert claiming.buffer + [r.message] == [MESSAGE];
    ClaimsOne(cfg, w, now, p1, o, db, claiming, r);
    ChainOfTwo(cfg, s0, s1, s2, Decide(w, QUEUE), Step.Claim(w, QUEUE, [7], now));
    PutStays(w, now, p, o, db);
    PutStays(w, now, p1, o, db);
    PutStays(w, now, p2, o, s2.db);
    states, steps := [s0, s1, s2], [Decide(w, QUEUE), Step.Claim(w, QUEUE, [7], now)];
  }

  /** The rest of a call that delivers the message. */
  lemma Takes(cfg: Config, w: WorkerId, now: Time, p: Process, o: Process, db: Db, c: Consumer, r: Row)
    returns (states: seq<State>, steps: seq<Step>)
    requires OnStage(w) && p.alive && p.consumers == map[QUEUE := c.(phase := Maintained)]
    requires c.phase == Idle && c.buffer == [] && Capacity(c) > 0
    requires db.queue == map[7 := r] && IsDue(r, QUEUE, now) && r.message == MESSAGE
    ensures Chain(cfg, states, steps) && steps == [Decide(w, QUEUE), Step.Claim(w, QUEUE, [7], now), Pop(w, QUEUE)]
    ensures states[0] == Put(w, now, p, o, db)
    ensures states[2] == Put(w, now, p.(consumers := map[QUEUE := Loaded(c)]), o, db.(queue := map[7 := ClaimedRow(r, w, now)]))
    ensures states[3] == Put(w, now, p.(consumers := map[QUEUE := c.(inProcessing := c.inProcessing + {7})]), o,
                             db.(queue := map[7 := ClaimedRow(r, w, now)]))
    ensures Still(states, w, now, p.checkedAt, p.upkeptAt, o)
  {
    var a, sa := StartsTaking(cfg, w, now, p, o, db, c, r);
    var p2, db' := p.(consumers := map[QUEUE := Loaded(c)]), db.(queue := map[7 := ClaimedRow(r, w, now)]);
    var s3 := Put(w, now, p.(consumers := map[QUEUE := c.(inProcessing := c.inProcessing + {7})]), o, db');
    Pops(cfg, w, now, p2, o, db', Loaded(c));
    assert Popped(Loaded(c)) == c.(inProcessing := c.inProcessing + {7});
    Glue(cfg, a, sa, [a[2], s3], [Pop(w, QUEUE)]);
    states, steps := a + [s3], sa + [Pop(w, QUEUE)];
    assert [a[2], s3][1..] == [s3];
  }

  lemma StillPunctual(states: seq<State>, w: WorkerId, now: Time, checked: Option<Time>, upkept: Option<Time>, o: Process, gap: Time)
    requires OnStage(w) && Still(states, w, now, checked, upkept, o) && 0.0 <= gap
    requires if w == 1 then checked == Some(now) else o.checkedAt.Some? ==> now <= o.checkedAt.value + gap
    ensures AllPunctual(states, gap)
  {
  }

  lemma StillAwake(states: seq<State>, now: Time, checked: Option<Time>, o: Process, gap: Time)
    requires Still(states, 2, now, checked, Some(now), o) && 0.0 <= gap
    ensures Awake(states, gap)
  {
  }

  // ----- The beginning

  /** Both workers start, and nothing is enqueued yet. */
  lemma Opened(cfg: Config, prefetch: nat) returns (states: seq<State>, steps: seq<Step>)
    ensures Chain(cfg, states, steps) && IsInitial(states[0]) && |steps| == 4
    ensures states[4] == Scene(1.0, Fresh(prefetch), Fresh(1), EMPTY_DB)
    ensures forall a | a in steps :: a.StartWorker? || a.OpenConsumer?
    ensures forall gap :: AllPunctual(states, gap) && Prompt(states, steps, gap)
  {
    var bare := Process(true, 0.0, 0.0, None, None, map[]);
    var s0 := State(1.0, EMPTY_DB, map[]);
    var s1 := State(1.0, EMPTY_DB, map[1 := bare]);
    var s2 := State(1.0, EMPTY_DB, map[1 := bare, 2 := bare]);
    var s3 := State(1.0, EMPTY_DB, map[1 := Fresh(prefetch), 2 := bare]);
    var s4 := Scene(1.0, Fresh(prefetch), Fresh(1), EMPTY_DB);
    assert Follows(cfg, s0, StartWorker(1), s1);
    assert Follows(cfg, s1, StartWorker(2), s2);
    assert Follows(cfg, s2, OpenConsumer(1, QUEUE, prefetch), s3);
    assert Follows(cfg, s3, OpenConsumer(2, QUEUE, 1), s4);
    states := [s0, s1, s2, s3, s4];
    steps := [StartWorker(1), StartWorker(2), OpenConsumer(1, QUEUE, prefetch), OpenConsumer(2, QUEUE, 1)];
  }

  // ----- Equal steps in time

  ghost function Span(d: Time, n: nat): Time {
    if n == 0 then 0.0 else Span(d, n - 1) + d
  }

  lemma {:induction false} SpanIs(d: Time, n: nat)
    ensures Span(d, n) == n as real * d
  {
    if n > 0 {
      SpanIs(d, n - 1);
      assert n as real * d == (n - 1) as real * d + d;
    }
  }

  lemma {:induction false} SpanSum(d: Time, m: nat, n: nat)
    ensures Span(d, m + n) == Span(d, m) + Span(d, n)
  {
    if n > 0 {
      SpanSum(d, m, n - 1);
    }
  }

  lemma {:induction false} SpanGrows(d: Time, m: nat, n: nat)
    requires 0.0 <= d && m <= n
    ensures Span(d, m) <= Span(d, n)
  {
    if m < n {
      SpanGrows(d, m, n - 1);
    }
  }
}
