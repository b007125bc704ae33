/** Readers of results as a whole: nothing is made up, and nobody is stuck. */
module Readers {
  import opened Wrappers
  import opened Tables
  import opened Waiting

  // ----- What is found was stored

  /** One of the first k steps stores the value as the result of `id`. */
  ghost predicate StoredBefore(run: Run, k: nat, id: MessageId, v: seq<Octet>) {
    exists j :: 0 <= j < k && j < |run.steps| && run.steps[j].Commit? && run.steps[j].id == id && run.steps[j].value == v
  }

  ghost predicate ResultSourced(run: Run, k: nat, id: MessageId)
    requires k < |run.states|
  {
    id in run.states[k].results ==> StoredBefore(run, k, id, run.states[k].results[id].value)
  }

  ghost predicate BacklogSourced(run: Run, k: nat, c: ConnId)
    requires k < |run.states|
  {
    c in run.states[k].conns ==>
      forall n | n in run.states[k].conns[c].backlog :: n.payload == [] || StoredBefore(run, k, n.channel, n.payload)
  }

  /** What the reader has made up its mind to answer. */
  function Decided(p: Phase): Option<Outcome> {
    match p
    case Leaving(_, Return(outcome)) => Some(outcome)
    case Unlistened(_, Return(outcome)) => Some(outcome)
    case Cleaned(_, Return(outcome)) => Some(outcome)
    case Done(outcome) => Some(outcome)
    case _ => None
  }

  ghost predicate AnswerSourced(run: Run, k: nat, r: ReaderId)
    requires k < |run.states|
  {
    r in run.states[k].readers ==>
      match Decided(run.states[k].readers[r].phase)
      case Some(Found(v)) => StoredBefore(run, k, run.states[k].readers[r].id, v)
      case _ => true
  }

  ghost predicate Sourced(run: Run, k: nat)
    requires k < |run.states|
  {
    && (forall id :: ResultSourced(run, k, id))
    && (forall c :: BacklogSourced(run, k, c))
    && (forall r :: AnswerSourced(run, k, r))
  }

  lemma StillStored(run: Run, k: nat, id: MessageId, v: seq<Octet>)
    requires StoredBefore(run, k, id, v)
    ensures StoredBefore(run, k + 1, id, v)
  {
    var j :| 0 <= j < k && j < |run.steps| && run.steps[j].Commit? && run.steps[j].id == id && run.steps[j].value == v;
    assert j < k + 1;
  }

  lemma ResultSourcedStep(run: Run, k: nat, id: MessageId)
    requires IsRun(run) && k < |run.steps| && ResultSourced(run, k, id)
    ensures ResultSourced(run, k + 1, id)
  {
    var s, a, s' := run.states[k], run.steps[k], run.states[k + 1];
    assert Follows(s, a, s');
    if id in s'.results {
      if a.Commit? && a.id == id {
        assert run.steps[k].value == s'.results[id].value;
      } else {
        StillStored(run, k, id, s.results[id].value);
      }
    }
  }

  lemma BacklogStep(s: State, a: Step, c: ConnId, n: Notification)
    requires Enabled(s, a) && c in Apply(s, a).conns && n in Apply(s, a).conns[c].backlog
    ensures (c in s.conns && n in s.conns[c].backlog) || (a.Commit? && n == Notification(a.id, Payload(a.value)))
  {
  }

  lemma BacklogSourcedStep(run: Run, k: nat, c: ConnId)
    requires IsRun(run) && k < |run.steps| && BacklogSourced(run, k, c)
    ensures BacklogSourced(run, k + 1, c)
  {
    var s, a, s' := run.states[k], run.steps[k], run.states[k + 1];
    assert Follows(s, a, s');
    if c in s'.conns {
      forall n | n in s'.conns[c].backlog && n.payload != [] ensures StoredBefore(run, k + 1, n.channel, n.payload) {
        BacklogStep(s, a, c, n);
        if c in s.conns && n in s.conns[c].backlog {
          StillStored(run, k, n.channel, n.payload);
        } else {
          assert run.steps[k].id == n.channel && run.steps[k].value == n.payload;
        }
      }
    }
  }

  /** A reader makes up its mind on what the table or a notification says. */
  lemma AnswerStep(s: State, a: Step, r: ReaderId, v: seq<Octet>)
    requires Enabled(s, a) && r in Apply(s, a).readers && Decided(Apply(s, a).readers[r].phase) == Some(Found(v))
    ensures || (r in s.readers && Decided(s.readers[r].phase) == Some(Found(v)) && s.readers[r].id == Apply(s, a).readers[r].id)
            || (Apply(s, a).readers[r].id in s.results && s.results[Apply(s, a).readers[r].id].value == v)
            || (a == Receive(r, 1) && s.conns[s.readers[r].phase.c].backlog[0].payload == v != [] && s.readers[r].id == Apply(s, a).readers[r].id)
  {
  }

  lemma AnswerSourcedStep(run: Run, k: nat, r: ReaderId)
    requires IsRun(run) && k < |run.steps| && Sourced(run, k)
    ensures AnswerSourced(run, k + 1, r)
  {
    var s, a, s' := run.states[k], run.steps[k], run.states[k + 1];
    assert Follows(s, a, s');
    if r in s'.readers {
      match Decided(s'.readers[r].phase)
      case Some(Found(v)) =>
        var id := s'.readers[r].id;
        AnswerStep(s, a, r, v);
        assert AnswerSourced(run, k, r) && ResultSourced(run, k, id);
        if a == Receive(r, 1) {
          ReceivesOwnChannel(run, k);
          var c := s.readers[r].phase.c;
          assert BacklogSourced(run, k, c);
          assert s.conns[c].backlog[0] in s.conns[c].backlog;
        }
        StillStored(run, k, id, v);
      case _ =>
    }
  }

  lemma {:induction false} SourcedAlways(run: Run, k: nat)
    requires IsRun(run) && k < |run.states|
    ensures Sourced(run, k)
  {
    if k > 0 {
      SourcedAlways(run, k - 1);
      forall id ensures ResultSourced(run, k, id) {
        ResultSourcedStep(run, k - 1, id);
      }
      forall c ensures BacklogSourced(run, k, c) {
        BacklogSourcedStep(run, k - 1, c);
      }
      forall r ensures AnswerSourced(run, k, r) {
        AnswerSourcedStep(run, k - 1, r);
      }
    }
  }

  /** A reader that answers with a value answers with one that was stored as the result of its message. */
  lemma FoundWasStored(run: Run, k: nat, r: ReaderId, v: seq<Octet>)
    requires IsRun(run) && k < |run.states| && r in run.states[k].readers
    requires run.states[k].readers[r].phase == Done(Found(v))
    ensures StoredBefore(run, k, run.states[k].readers[r].id, v)
  {
    SourcedAlways(run, k);
    assert AnswerSourced(run, k, r);
  }

  // ----- What everyone else can do, at any time

  /** A store commits whoever waits: it replaces the result and its expiry, and notifies every open
      connection on the channel, with the value or, from 7900 octets on, without. */
  lemma CommitNotifies(s: State, id: MessageId, value: Json, ttl: Time)
    ensures Enabled(s, Commit(id, value, ttl))
    ensures var s' := Apply(s, Commit(id, value, ttl));
            && s'.results == s.results[id := StoredResult(value, Some(s.now + ttl))]
            && s'.pool == s.pool && s'.readers == s.readers && s'.now == s.now && s'.conns.Keys == s.conns.Keys
            && forall c | c in s.conns ::
                 s'.conns[c] == if id in s.conns[c].channels && !s.conns[c].closed
                                then s.conns[c].(backlog := s.conns[c].backlog
                                                            + [Notification(id, if |value| >= 7900 then [] else value)])
                                else s.conns[c]
  {
    var s' := Apply(s, Commit(id, value, ttl));
    forall c | c in s.conns && id in s.conns[c].channels && !s.conns[c].closed
      ensures s'.conns[c] == s.conns[c].(backlog := s.conns[c].backlog + [Notification(id, if |value| >= 7900 then [] else value)])
    {
    }
  }

  /** A new connection comes to the pool open and clean, and closing one changes nothing else. */
  lemma OpenAndBreak(s: State, c: ConnId)
    ensures c !in s.conns ==>
              && Enabled(s, Open(c))
              && Apply(s, Open(c)) == s.(conns := s.conns[c := Conn({}, [], false, false)], pool := s.pool + {c})
    ensures c in s.conns ==>
              Enabled(s, Break(c)) && Apply(s, Break(c)) == s.(conns := s.conns[c := s.conns[c].(closed := true)])
  {
  }

  /** One more step of a run. */
  function Extended(run: Run, a: Step, s: State): Run {
    Run(run.states + [s], run.steps + [a])
  }

  /** Stores, purges, calls, new and broken connections and the clock wait for no reader. */
  lemma OthersAnyTime(run: Run, a: Step)
    requires IsRun(run)
    requires var s := run.states[|run.steps|];
             match a
             case Tick(elapsed) => elapsed >= 0.0
             case Commit(_, _, _) => true
             case PurgeExpired => true
             case Open(c) => c !in s.conns
             case Break(c) => c in s.conns
             case Call(r, _, _) => r !in s.readers
             case _ => false
    ensures exists s' :: IsRun(Extended(run, a, s'))
  {
    var s := run.states[|run.steps|];
    var longer := Extended(run, a, Apply(s, a));
    forall i {:trigger longer.steps[i]} | 0 <= i < |longer.steps|
      ensures Follows(longer.states[i], longer.steps[i], longer.states[i + 1])
    {
      if i < |run.steps| {
        assert Follows(run.states[i], run.steps[i], run.states[i + 1]);
      }
    }
    assert IsRun(Extended(run, a, Apply(s, a)));
  }

  // ----- The first read

  /** The first read answers with what the table holds, blocking or not; only a blocking reader that finds
      nothing goes on to wait. */
  lemma FirstRead(run: Run, k: nat)
    requires IsRun(run) && k < |run.steps| && run.steps[k].Read?
    ensures var s, r := run.states[k], run.steps[k].r;
            && r in s.readers && r in run.states[k + 1].readers && s.readers[r].phase.Listening?
            && var id, c, phase := s.readers[r].id, s.readers[r].phase.c, run.states[k + 1].readers[r].phase;
               if id in s.results && (s.results[id].expiresAt.None? || s.results[id].expiresAt.value > s.now)
               then phase == Leaving(c, Return(Found(s.results[id].value)))
               else if s.readers[r].block then phase == Phase.Waiting(c)
               else phase == Leaving(c, Return(ResultMissing))
  {
    assert Follows(run.states[k], run.steps[k], run.states[k + 1]);
  }

  /** How a wait ends: with a timeout, with a broken connection, or with what comes in one packet, of which
      the code takes exactly one notification; an empty one sends the reader to the table. */
  lemma WaitEnds(run: Run, k: nat)
    requires IsRun(run) && k < |run.steps| && (run.steps[k].TimeOut? || run.steps[k].Fail? || run.steps[k].Receive?)
    ensures var s, a, s' := run.states[k], run.steps[k], run.states[k + 1];
            && Connected(s, a.r) && a.r in s'.readers
            && var c := s.readers[a.r].phase.c;
               s'.readers[a.r].phase ==
                 Leaving(c, if a.TimeOut? then Return(ResultTimeout)
                            else if a.Fail? then Return(Failed)
                            else if a.count > 1 || s.conns[c].backlog == [] then Return(Failed)
                            else if s.conns[c].backlog[0].payload == [] then ReadAgain
                            else Return(Found(s.conns[c].backlog[0].payload)))
  {
    assert Follows(run.states[k], run.steps[k], run.states[k + 1]);
  }

  /** What a reader has decided on is what it answers. */
  lemma DecisionStep(s: State, a: Step, r: ReaderId)
    requires Enabled(s, a) && r in s.readers
    ensures r in Apply(s, a).readers
    ensures Decided(s.readers[r].phase).Some? ==> Decided(Apply(s, a).readers[r].phase) == Decided(s.readers[r].phase)
  {
  }

  lemma {:induction false} DecisionStands(run: Run, i: nat, k: nat, r: ReaderId)
    requires IsRun(run) && i <= k < |run.states| && r in run.states[i].readers && Decided(run.states[i].readers[r].phase).Some?
    ensures r in run.states[k].readers
    ensures Decided(run.states[k].readers[r].phase) == Decided(run.states[i].readers[r].phase)
  {
    if i < k {
      DecisionStands(run, i, k - 1, r);
      assert Follows(run.states[k - 1], run.steps[k - 1], run.states[k]);
      DecisionStep(run.states[k - 1], run.steps[k - 1], r);
    }
  }

  /** The second read answers with what the table holds then. */
  lemma SecondRead(run: Run, k: nat)
    requires IsRun(run) && k < |run.steps| && run.steps[k].Reread?
    ensures var s, r := run.states[k], run.steps[k].r;
            && r in s.readers && r in run.states[k + 1].readers
            && var id := s.readers[r].id;
               run.states[k + 1].readers[r].phase ==
                 if id in s.results && (s.results[id].expiresAt.None? || s.results[id].expiresAt.value > s.now)
                 then Done(Found(s.results[id].value)) else Done(ResultMissing)
  {
    assert Follows(run.states[k], run.steps[k], run.states[k + 1]);
  }

  /** At the end of its `with` block a reader gives its connection back; the pool discards a broken one. */
  lemma ConnectionReturned(run: Run, k: nat)
    requires IsRun(run) && k < |run.steps| && run.steps[k].PutBack?
    ensures var s, s', r := run.states[k], run.states[k + 1], run.steps[k].r;
            && Connected(s, r)
            && var c := s.readers[r].phase.c;
               if s.conns[c].closed then c !in s'.conns && c !in s'.pool && s'.pool == s.pool
               else s'.pool == s.pool + {c} && s'.conns == s.conns && IsClean(s.conns[c])
  {
    IsolatedAlways(run, k);
    assert Follows(run.states[k], run.steps[k], run.states[k + 1]);
    assert ReaderOk(run.states[k], run.steps[k].r);
  }

  // ----- Nobody is stuck

  predicate IsOwn(a: Step, r: ReaderId) {
    ByReader(a) && a.r == r
  }

  /** The steps a reader has left at most. */
  function StepsLeft(p: Phase): nat {
    match p
    case Called => 8
    case Borrowed(_) => 7
    case Listening(_) => 6
    case Waiting(_) => 5
    case Leaving(_, _) => 4
    case Unlistened(_, _) => 3
    case Cleaned(_, _) => 2
    case ReadingAgain => 1
    case Done(_) => 0
  }

  /** The phases of a call, in their order: it leaves out none. */
  lemma PhasesInOrder(s: State, a: Step)
    requires Enabled(s, a) && ByReader(a)
    ensures a.r in Apply(s, a).readers
    ensures var p, p' := if a.r in s.readers then s.readers[a.r].phase else Called, Apply(s, a).readers[a.r].phase;
            match a
            case Call(_, id, block) => Apply(s, a).readers[a.r] == Reader(id, block, Called)
            case Borrow(_, c) => p == Called && p' == Borrowed(c) && Apply(s, a).pool == s.pool - {c}
            case Listen(r) =>
              p.Borrowed? && p' == Listening(p.c) && p.c in s.conns && p.c in Apply(s, a).conns && r in s.readers
              && Apply(s, a).conns[p.c] == s.conns[p.c].(autocommit := true, channels := s.conns[p.c].channels + {s.readers[r].id})
            case Read(_) => p.Listening? && (p' == Phase.Waiting(p.c) || (p'.Leaving? && p'.c == p.c))
            case Receive(_, _) => p.Waiting? && p'.Leaving? && p'.c == p.c
            case TimeOut(_) => p.Waiting? && p'.Leaving? && p'.c == p.c
            case Fail(_) => p'.Leaving? && p'.c == p.c
            case Unlisten(_) => p.Leaving? && p' == Unlistened(p.c, p.exit)
            case Drain(_) => p.Unlistened? && p' == Cleaned(p.c, p.exit)
            case PutBack(_) => p.Cleaned? && p' == if p.exit.ReadAgain? then ReadingAgain else Done(p.exit.outcome)
            case Reread(_) => p == ReadingAgain && p'.Done?
            case _ => true
  {
  }

  /** The step a reader can take: whether its connection is open or broken, and whether there is a
      notification or not. */
  function NextStep(s: State, r: ReaderId): Step
    requires r in s.readers
  {
    match s.readers[r].phase
    case Borrowed(c) => if c in s.conns && s.conns[c].closed then Fail(r) else Listen(r)
    case Listening(c) => if c in s.conns && s.conns[c].closed then Fail(r) else Read(r)
    case Waiting(c) =>
      if c in s.conns && s.conns[c].closed then Fail(r)
      else if c in s.conns && s.conns[c].backlog != [] then Receive(r, 1)
      else TimeOut(r)
    case Leaving(_, _) => Unlisten(r)
    case Unlistened(_, _) => Drain(r)
    case Cleaned(_, _) => PutBack(r)
    case _ => Reread(r)
  }

  /** In every run, a reader that has its connection can take a step of its own until it is done, and is
      done after at most seven of them; one that has none can take any open connection of the pool. */
  lemma NeverStuck(run: Run, k: nat, r: ReaderId)
    requires IsRun(run) && k < |run.states| && r in run.states[k].readers && !run.states[k].readers[r].phase.Done?
    ensures run.states[k].readers[r].phase.Called? ==>
              forall c | c in run.states[k].pool && c in run.states[k].conns && !run.states[k].conns[c].closed :: Enabled(run.states[k], Borrow(r, c))
    ensures !run.states[k].readers[r].phase.Called? ==>
              Enabled(run.states[k], NextStep(run.states[k], r)) && IsOwn(NextStep(run.states[k], r), r)
    // A packet may hold any number of the pending notifications.
    ensures ConnectedAndOpen(run.states[k], r) && run.states[k].readers[r].phase.Waiting? ==>
              forall count | 1 <= count <= |run.states[k].conns[run.states[k].readers[r].phase.c].backlog| ::
                Enabled(run.states[k], Receive(r, count))
    ensures forall a | IsOwn(a, r) && Enabled(run.states[k], a) ::
              StepsLeft(Apply(run.states[k], a).readers[r].phase) < StepsLeft(run.states[k].readers[r].phase)
  {
    var s := run.states[k];
    IsolatedAlways(run, k);
    assert ReaderOk(s, r);
  }
}
