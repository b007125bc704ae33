/** Waiting for a result over pooled connections: `get_result` LISTENs, reads the table, waits for a
    notification and may read the table again, while `_store` commits anywhere in between.
    One step for every action of a reader on its connection, of a store, and of the pool. */
module Waiting {
  import opened Wrappers
  import opened Tables

  type ConnId = nat
  type ReaderId = nat

  // A notification on the channel `dramatiq.<message id>.results`; the id names the channel.
  datatype Notification = Notification(channel: MessageId, payload: seq<Octet>)

  datatype Conn = Conn(channels: set<MessageId>, backlog: seq<Notification>, autocommit: bool, closed: bool)

  const NOTIFY_LIMIT := 7900

  /** A result too large for a notification travels as an empty payload. */
  function Payload(v: Json): seq<Octet> {
    if |v| >= NOTIFY_LIMIT then [] else v
  }

  datatype Outcome = Found(value: seq<Octet>) | ResultMissing | ResultTimeout | Failed

  // What get_result does after its `with` block.
  datatype Exit = Return(outcome: Outcome) | ReadAgain

  /** Where a reader is.  Leaving, Unlistened and Cleaned are the exit of the `with` block, whose
      callbacks run last in, first out: unlisten_all (UNLISTEN, then drain), then putconn. */
  datatype Phase =
    | Called
    | Borrowed(c: ConnId)
    | Listening(c: ConnId)
    | Waiting(c: ConnId)
    | Leaving(c: ConnId, exit: Exit)
    | Unlistened(c: ConnId, exit: Exit)
    | Cleaned(c: ConnId, exit: Exit)
    | ReadingAgain
    | Done(outcome: Outcome)

  datatype Reader = Reader(id: MessageId, block: bool, phase: Phase)

  datatype State = State(now: Time, results: ResultTable, conns: map<ConnId, Conn>, pool: set<ConnId>,
                         readers: map<ReaderId, Reader>)

  datatype Step =
    | Tick(elapsed: Time)
    | Commit(id: MessageId, value: Json, ttl: Time)
    | PurgeExpired
    | Open(c: ConnId)
    | Break(c: ConnId)
    | Call(r: ReaderId, id: MessageId, block: bool)
    | Borrow(r: ReaderId, c: ConnId)
    | Listen(r: ReaderId)
    | Read(r: ReaderId)
    | Receive(r: ReaderId, count: nat)
    | TimeOut(r: ReaderId)
    | Fail(r: ReaderId)
    | Unlisten(r: ReaderId)
    | Drain(r: ReaderId)
    | PutBack(r: ReaderId)
    | Reread(r: ReaderId)

  predicate ByReader(a: Step) {
    !(a.Tick? || a.Commit? || a.PurgeExpired? || a.Open? || a.Break?)
  }

  predicate HasConn(p: Phase) {
    p.Borrowed? || p.Listening? || p.Waiting? || p.Leaving? || p.Unlistened? || p.Cleaned?
  }

  /** The connection of a reader that has one. */
  predicate Connected(s: State, r: ReaderId) {
    r in s.readers && HasConn(s.readers[r].phase) && s.readers[r].phase.c in s.conns
  }

  predicate ConnectedAndOpen(s: State, r: ReaderId) {
    Connected(s, r) && !s.conns[s.readers[r].phase.c].closed
  }

  predicate Enabled(s: State, a: Step) {
    match a
    case Tick(elapsed) => elapsed >= 0.0
    case Commit(_, _, _) => true
    case PurgeExpired => true
    case Open(c) => c !in s.conns
    case Break(c) => c in s.conns
    case Call(r, _, _) => r !in s.readers
    case Borrow(r, c) => r in s.readers && s.readers[r].phase == Called && c in s.pool && c in s.conns && !s.conns[c].closed
    case Listen(r) => ConnectedAndOpen(s, r) && s.readers[r].phase.Borrowed?
    case Read(r) => ConnectedAndOpen(s, r) && s.readers[r].phase.Listening?
    case Receive(r, count) =>
      ConnectedAndOpen(s, r) && s.readers[r].phase.Waiting? && 1 <= count <= |s.conns[s.readers[r].phase.c].backlog|
    case TimeOut(r) =>
      ConnectedAndOpen(s, r) && s.readers[r].phase.Waiting? && s.conns[s.readers[r].phase.c].backlog == []
    case Fail(r) =>
      && Connected(s, r) && s.conns[s.readers[r].phase.c].closed
      && (s.readers[r].phase.Borrowed? || s.readers[r].phase.Listening? || s.readers[r].phase.Waiting?)
    case Unlisten(r) => Connected(s, r) && s.readers[r].phase.Leaving?
    case Drain(r) => Connected(s, r) && s.readers[r].phase.Unlistened?
    case PutBack(r) => Connected(s, r) && s.readers[r].phase.Cleaned?
    case Reread(r) => r in s.readers && s.readers[r].phase == ReadingAgain
  }

  function Moved(s: State, r: ReaderId, p: Phase): State
    requires r in s.readers
  {
    s.(readers := s.readers[r := s.readers[r].(phase := p)])
  }

  function WithConn(s: State, c: ConnId, conn: Conn): State {
    s.(conns := s.conns[c := conn])
  }

  /** The exit after waiting: `(notify,) = notifies` accepts one notification only. */
  function ExitOn(received: seq<Notification>): Exit {
    if received == [] then Return(ResultTimeout)
    else if |received| > 1 then Return(Failed)
    else if received[0].payload == [] then ReadAgain
    else Return(Found(received[0].payload))
  }

  function ExitAfterRead(found: Option<Json>): Outcome {
    if found.Some? then Found(found.value) else ResultMissing
  }

  /** A commit notifies every open connection that listens on the channel. */
  function Notified(conn: Conn, n: Notification): Conn {
    if n.channel in conn.channels && !conn.closed then conn.(backlog := conn.backlog + [n]) else conn
  }

  function Apply(s: State, a: Step): State
    requires Enabled(s, a)
  {
    match a
    case Tick(elapsed) => s.(now := s.now + elapsed)
    case Commit(id, value, ttl) =>
      s.(results := Store(s.results, id, value, ttl, s.now),
         conns := map c | c in s.conns :: Notified(s.conns[c], Notification(id, Payload(value))))
    case PurgeExpired => s.(results := PurgeResults(s.results, s.now))
    case Open(c) => WithConn(s, c, Conn({}, [], false, false)).(pool := s.pool + {c})
    case Break(c) => WithConn(s, c, s.conns[c].(closed := true))
    case Call(r, id, block) => s.(readers := s.readers[r := Reader(id, block, Called)])
    case Borrow(r, c) => Moved(s, r, Borrowed(c)).(pool := s.pool - {c})
    case Listen(r) =>
      var c := s.readers[r].phase.c;
      WithConn(Moved(s, r, Listening(c)), c,
               s.conns[c].(autocommit := true, channels := s.conns[c].channels + {s.readers[r].id}))
    case Read(r) =>
      var c := s.readers[r].phase.c;
      var found := Get(s.results, s.readers[r].id, s.now);
      Moved(s, r, if found.None? && s.readers[r].block then Waiting(c) else Leaving(c, Return(ExitAfterRead(found))))
    case Receive(r, count) =>
      var c := s.readers[r].phase.c;
      WithConn(Moved(s, r, Leaving(c, ExitOn(s.conns[c].backlog[..count]))), c,
               s.conns[c].(backlog := s.conns[c].backlog[count..]))
    case TimeOut(r) => Moved(s, r, Leaving(s.readers[r].phase.c, ExitOn([])))
    case Fail(r) => Moved(s, r, Leaving(s.readers[r].phase.c, Return(Failed)))
    case Unlisten(r) =>
      var c := s.readers[r].phase.c;
      var conn := s.conns[c];
      WithConn(Moved(s, r, Unlistened(c, s.readers[r].phase.exit)), c, if conn.closed then conn else conn.(channels := {}))
    case Drain(r) =>
      var c := s.readers[r].phase.c;
      var conn := s.conns[c];
      WithConn(Moved(s, r, Cleaned(c, s.readers[r].phase.exit)), c,
               if conn.closed then conn else conn.(backlog := [], autocommit := false))
    case PutBack(r) =>
      // The pool discards a closed connection.
      var c := s.readers[r].phase.c;
      var exit := s.readers[r].phase.exit;
      var s' := Moved(s, r, if exit.ReadAgain? then ReadingAgain else Done(exit.outcome));
      if s.conns[c].closed then s'.(conns := s.conns - {c}) else s'.(pool := s.pool + {c})
    case Reread(r) => Moved(s, r, Done(ExitAfterRead(Get(s.results, s.readers[r].id, s.now))))
  }

  datatype Run = Run(states: seq<State>, steps: seq<Step>)

  predicate Follows(s: State, a: Step, s': State) {
    Enabled(s, a) && s' == Apply(s, a)
  }

  ghost predicate IsRun(r: Run) {
    && |r.states| == |r.steps| + 1
    && r.states[0].conns == map[] && r.states[0].pool == {} && r.states[0].readers == map[] && r.states[0].results == map[]
    && forall i {:trigger r.steps[i]} | 0 <= i < |r.steps| :: Follows(r.states[i], r.steps[i], r.states[i + 1])
  }

  // ----- Pooled connections are clean

  predicate IsClean(conn: Conn) {
    conn.channels == {} && conn.backlog == [] && !conn.autocommit
  }

  predicate OnlyFor(conn: Conn, id: MessageId) {
    conn.channels <= {id} && forall n | n in conn.backlog :: n.channel == id
  }

  /** The state of an open connection that a reader holds. */
  predicate HeldOk(conn: Conn, id: MessageId, p: Phase) {
    match p
    case Borrowed(_) => IsClean(conn)
    case Listening(_) => OnlyFor(conn, id) && id in conn.channels
    case Waiting(_) => OnlyFor(conn, id) && id in conn.channels
    case Leaving(_, _) => OnlyFor(conn, id)
    case Unlistened(_, _) => OnlyFor(conn, id) && conn.channels == {}
    case Cleaned(_, _) => IsClean(conn)
    case _ => true
  }

  predicate PooledOk(s: State, c: ConnId) {
    c in s.conns && (!s.conns[c].closed ==> IsClean(s.conns[c]))
  }

  predicate ReaderOk(s: State, r: ReaderId)
    requires r in s.readers
  {
    HasConn(s.readers[r].phase) ==>
      && s.readers[r].phase.c in s.conns && s.readers[r].phase.c !in s.pool
      && (!s.conns[s.readers[r].phase.c].closed ==> HeldOk(s.conns[s.readers[r].phase.c], s.readers[r].id, s.readers[r].phase))
  }

  predicate Apart(s: State, r: ReaderId, q: ReaderId)
    requires r in s.readers && q in s.readers
  {
    HasConn(s.readers[r].phase) && HasConn(s.readers[q].phase) && r != q ==> s.readers[r].phase.c != s.readers[q].phase.c
  }

  ghost predicate Isolated(s: State) {
    && (forall c | c in s.pool :: PooledOk(s, c))
    && (forall r | r in s.readers :: ReaderOk(s, r))
    && (forall r, q | r in s.readers && q in s.readers :: Apart(s, r, q))
  }

  lemma PooledOkStep(s: State, a: Step, c: ConnId)
    requires Enabled(s, a) && Isolated(s) && c in Apply(s, a).pool
    ensures PooledOk(Apply(s, a), c)
  {
    if c in s.pool {
      assert PooledOk(s, c);
    }
    if ByReader(a) && a.r in s.readers {
      assert ReaderOk(s, a.r);
    }
  }

  lemma ReaderOkStep(s: State, a: Step, r: ReaderId)
    requires Enabled(s, a) && Isolated(s) && r in Apply(s, a).readers
    ensures ReaderOk(Apply(s, a), r)
  {
    if r in s.readers {
      assert ReaderOk(s, r);
      if ByReader(a) && a.r in s.readers {
        assert Apart(s, r, a.r);
        assert ReaderOk(s, a.r);
      }
    }
    if a.Borrow? {
      assert PooledOk(s, a.c);
    }
  }

  lemma ApartStep(s: State, a: Step, r: ReaderId, q: ReaderId)
    requires Enabled(s, a) && Isolated(s) && r in Apply(s, a).readers && q in Apply(s, a).readers
    ensures Apart(Apply(s, a), r, q)
  {
    if r in s.readers && q in s.readers {
      assert Apart(s, r, q) && ReaderOk(s, r) && ReaderOk(s, q);
    }
  }

  lemma IsolatedStep(s: State, a: Step)
    requires Enabled(s, a) && Isolated(s)
    ensures Isolated(Apply(s, a))
  {
    var s' := Apply(s, a);
    forall c | c in s'.pool ensures PooledOk(s', c) {
      PooledOkStep(s, a, c);
    }
    forall r | r in s'.readers ensures ReaderOk(s', r) {
      ReaderOkStep(s, a, r);
    }
    forall r, q | r in s'.readers && q in s'.readers ensures Apart(s', r, q) {
      ApartStep(s, a, r, q);
    }
  }

  lemma {:induction false} IsolatedAlways(run: Run, k: nat)
    requires IsRun(run) && k < |run.states|
    ensures Isolated(run.states[k])
  {
    if k > 0 {
      IsolatedAlways(run, k - 1);
      IsolatedStep(run.states[k - 1], run.steps[k - 1]);
    }
  }

  /** Every open connection in the pool listens on no channel, has no backlog and autocommit off. */
  lemma PooledConnectionsClean(run: Run, k: nat, c: ConnId)
    requires IsRun(run) && k < |run.states| && c in run.states[k].pool
    ensures c in run.states[k].conns && (!run.states[k].conns[c].closed ==> IsClean(run.states[k].conns[c]))
  {
    IsolatedAlways(run, k);
    assert PooledOk(run.states[k], c);
  }

  /** A reader receives notifications of its own message only, though it does not look at the channel. */
  lemma ReceivesOwnChannel(run: Run, k: nat)
    requires IsRun(run) && k < |run.steps| && run.steps[k].Receive?
    ensures Enabled(run.states[k], run.steps[k])
    ensures var s, r := run.states[k], run.steps[k].r;
            forall n | n in s.conns[s.readers[r].phase.c].backlog :: n.channel == s.readers[r].id
  {
    IsolatedAlways(run, k);
    assert ReaderOk(run.states[k], run.steps[k].r);
  }
}
