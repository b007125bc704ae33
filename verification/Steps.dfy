/** When each step can be taken, and what it touches: the machine leaves out no interleaving, and no
    step reaches into the memory of another process or another consumer. */
module Steps {
  import opened Wrappers
  import opened Tables
  import opened Machine

  function Extended(r: Run, a: Step, s: State): Run {
    Run(r.states + [s], r.steps + [a])
  }

  /** The process lives and has a consumer for the queue. */
  predicate Consumes(s: State, w: WorkerId, q: string) {
    w in s.procs && s.procs[w].alive && q in s.procs[w].consumers
  }

  /** Its current call has come this far. */
  predicate At(s: State, w: WorkerId, q: string, phase: Phase) {
    Consumes(s, w, q) && s.procs[w].consumers[q].phase == phase
  }

  /** Whom a step waits for: a consumer for its own call alone, everyone else for nobody. */
  predicate CanCome(s: State, a: Step) {
    match a
    case Tick(elapsed) => elapsed >= 0.0
    case StartWorker(w) => w !in s.procs
    case OpenConsumer(w, q, _) => w in s.procs && s.procs[w].alive && q !in s.procs[w].consumers
    case Crash(w) => w in s.procs
    case HeartbeatCheck(w, q) => At(s, w, q, Idle)
    case MaintenanceCheck(w, q, _, jitter) => At(s, w, q, Beaten) && 0.5 <= jitter < 1.5
    case Decide(w, q) => At(s, w, q, Maintained)
    case Claim(w, q, order, at) =>
      && Consumes(s, w, q) && s.procs[w].consumers[q].phase.Claiming? && |order| <= s.procs[w].consumers[q].phase.limit
      && at <= s.now && (forall i, j | 0 <= i < j < |order| :: order[i] != order[j])
      && forall i | i in order ::
           i in s.db.queue && s.db.queue[i].queue == q && s.db.queue[i].state == Queued && s.db.queue[i].availableAt <= at
    case Pop(w, q) => At(s, w, q, Popping)
    case Raise(w, q) => Consumes(s, w, q)
    case Ack(w, q, _) => Consumes(s, w, q)
    case Nack(w, q, m) => Consumes(s, w, q) && m.queue == q
    case Requeue(w, q, _) => Consumes(s, w, q)
    case _ => true
  }

  lemma CanComeIsEnabled(s: State, a: Step)
    ensures CanCome(s, a) <==> Enabled(s, a)
  {
  }

  /** Every run can go on with every step whose own process, consumer and rows allow it, whatever the
      others are doing; and with no other. */
  lemma GoesOn(cfg: Config, r: Run, a: Step)
    requires IsRun(cfg, r)
    ensures CanCome(r.states[|r.steps|], a) <==> exists s' :: IsRun(cfg, Extended(r, a, s'))
  {
    var s := r.states[|r.steps|];
    CanComeIsEnabled(s, a);
    if CanCome(s, a) {
      var longer := Extended(r, a, Apply(cfg, s, a));
      forall i {:trigger longer.steps[i]} | 0 <= i < |longer.steps|
        ensures Follows(cfg, longer.states[i], longer.steps[i], longer.states[i + 1])
      {
        if i < |r.steps| {
          assert Follows(cfg, r.states[i], r.steps[i], r.states[i + 1]);
        }
      }
      assert IsRun(cfg, Extended(r, a, Apply(cfg, s, a)));
    }
    if s' :| IsRun(cfg, Extended(r, a, s')) {
      var longer := Extended(r, a, s');
      assert longer.steps[|r.steps|] == a && longer.states[|r.steps|] == s;
    }
  }

  // ----- What a step touches

  predicate ByConsumer(a: Step) {
    a.HeartbeatCheck? || a.MaintenanceCheck? || a.Decide? || a.Claim? || a.Pop? || a.Raise? || a.Ack? || a.Nack? || a.Requeue?
  }

  predicate ByProcess(a: Step) {
    a.StartWorker? || a.OpenConsumer? || a.Crash? || ByConsumer(a)
  }

  /** Only the clock's own step moves the clock; a step of one process leaves the others alone, and a
      step of one consumer the other consumers. */
  lemma StepIsLocal(cfg: Config, s: State, a: Step, w: WorkerId)
    requires Enabled(s, a)
    ensures var s' := Apply(cfg, s, a);
            && s'.now == s.now + (if a.Tick? then a.elapsed else 0.0)
            && (!(ByProcess(a) && a.w == w) ==> (w in s'.procs <==> w in s.procs) && (w in s.procs ==> s'.procs[w] == s.procs[w]))
            && (ByConsumer(a) && a.w == w ==>
                  && w in s.procs && w in s'.procs && s'.procs[w].alive && s'.procs[w].consumers.Keys == s.procs[w].consumers.Keys
                  && forall q | q in s.procs[w].consumers && q != a.q :: s'.procs[w].consumers[q] == s.procs[w].consumers[q])
  {
  }

  /** The life of a process: it starts with nothing, consumers come with the prefetch they ask for, and
      what it held when it died stays as it was. */
  lemma ProcessSteps(cfg: Config, s: State, a: Step)
    requires Enabled(s, a) && ByProcess(a) && !ByConsumer(a)
    ensures var s' := Apply(cfg, s, a);
            && s'.db == s.db && a.w in s'.procs
            && var p := s'.procs[a.w];
               && (a.StartWorker? ==> p.alive && p.heartbeatAt == 0.0 && p.maintenanceAt == 0.0 && p.consumers == map[])
               && (a.OpenConsumer? ==>
                     && a.w in s.procs && p.alive && p.consumers.Keys == s.procs[a.w].consumers.Keys + {a.q}
                     && p.consumers[a.q] == Consumer(a.prefetch, [], {}, Idle)
                     && p.heartbeatAt == s.procs[a.w].heartbeatAt && p.maintenanceAt == s.procs[a.w].maintenanceAt
                     && forall q | q in s.procs[a.w].consumers :: p.consumers[q] == s.procs[a.w].consumers[q])
               && (a.Crash? ==> a.w in s.procs && !p.alive && p.consumers == s.procs[a.w].consumers)
  {
  }

  /** What a process remembers of its checks: when the last of each kind ran. */
  lemma ChecksAreDated(cfg: Config, s: State, a: Step, w: WorkerId)
    requires Enabled(s, a) && w in s.procs
    ensures var s' := Apply(cfg, s, a);
            && w in s'.procs
            && s'.procs[w].checkedAt == (if a.HeartbeatCheck? && a.w == w then Some(s.now) else s.procs[w].checkedAt)
            && s'.procs[w].upkeptAt == (if a.MaintenanceCheck? && a.w == w then Some(s.now) else s.procs[w].upkeptAt)
            && (!(a.HeartbeatCheck? && a.w == w) ==> s'.procs[w].heartbeatAt == s.procs[w].heartbeatAt)
            && (!(a.MaintenanceCheck? && a.w == w) ==> s'.procs[w].maintenanceAt == s.procs[w].maintenanceAt)
  {
  }

  /** What its own step makes of the memory of a consumer. */
  lemma ConsumerSteps(cfg: Config, s: State, a: Step)
    requires Enabled(s, a) && ByConsumer(a)
    ensures Serves(s, a.w, a.q) && Serves(Apply(cfg, s, a), a.w, a.q)
    ensures var c, c' := Member(s, a.w, a.q), Member(Apply(cfg, s, a), a.w, a.q);
            && c'.prefetch == c.prefetch
            && match a
               case HeartbeatCheck(_, _) => c' == c.(phase := Beaten)
               case MaintenanceCheck(_, _, _, _) => c' == c.(phase := Maintained)
               case Decide(_, _) =>
                 c' == c.(phase := if c.buffer != [] || |c.inProcessing| >= c.prefetch then Popping
                                   else if c.prefetch - |c.inProcessing| <= 256 then Claiming(c.prefetch - |c.inProcessing|)
                                   else Claiming(256))
               case Claim(_, _, order, _) =>
                 && c'.inProcessing == c.inProcessing && c'.phase == Popping
                 && |c'.buffer| == |c.buffer| + |order| && c.buffer <= c'.buffer
                 && forall k | 0 <= k < |order| :: order[k] in s.db.queue && c'.buffer[|c.buffer| + k] == s.db.queue[order[k]].message
               case Pop(_, _) =>
                 if c.buffer == [] then c' == c.(phase := Idle)
                 else c' == c.(buffer := c.buffer[1..], inProcessing := c.inProcessing + {c.buffer[0].id}, phase := Idle)
               case Raise(_, _) => c' == c.(phase := Idle)
               case Ack(_, _, id) => c' == c.(inProcessing := c.inProcessing - {id})
               case Nack(_, _, m) => c' == c.(inProcessing := c.inProcessing - {m.id})
               case _ => c' == c
  {
  }
}
