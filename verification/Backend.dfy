/** The result backend as it is written: `get_result` over a pooled connection, with the commits of
    other processes arriving at each point where they can. */
module Backend {
  import opened Wrappers
  import opened Tables
  import opened Waiting

  // A commit of `_store` by another process.
  datatype Arrival = Arrival(id: MessageId, value: Json, ttl: Time, at: Time)

  function TableAfter(t: ResultTable, arrivals: seq<Arrival>): ResultTable {
    if arrivals == [] then t
    else
      var last := arrivals[|arrivals| - 1];
      Store(TableAfter(t, arrivals[..|arrivals| - 1]), last.id, last.value, last.ttl, last.at)
  }

  /** The notifications that arrivals send on the channel of `id`. */
  function NotesOf(id: MessageId, arrivals: seq<Arrival>): seq<Notification> {
    if arrivals == [] then []
    else
      var last := arrivals[|arrivals| - 1];
      NotesOf(id, arrivals[..|arrivals| - 1]) + if last.id == id then [Notification(id, Payload(last.value))] else []
  }

  /** The first of the pending notifications, with those delivered in the same packet. */
  function FirstPacket(notes: seq<Notification>, packet: nat): (received: seq<Notification>)
    ensures received <= notes && (received == [] <==> notes == [])
  {
    if |notes| <= packet then notes else if packet == 0 then notes[..1] else notes[..packet]
  }

  lemma SingleIsWhole(notes: seq<Notification>, packet: nat)
    requires |notes| <= 1
    ensures FirstPacket(notes, packet) == notes
  {
  }

  /** What get_result answers, given what is stored between its LISTEN and its read, between the read
      and the end of the wait, and before the second read. */
  function Answer(t: ResultTable, id: MessageId, block: bool, before: seq<Arrival>, during: seq<Arrival>,
                  late: seq<Arrival>, packet: nat, now: Time, later: Time): Outcome {
    var found := Get(TableAfter(t, before), id, now);
    if found.Some? then Found(found.value)
    else if !block then ResultMissing
    else
      match ExitOn(FirstPacket(NotesOf(id, before) + NotesOf(id, during), packet))
      case Return(outcome) => outcome
      case ReadAgain => ExitAfterRead(Get(TableAfter(TableAfter(TableAfter(t, before), during), late), id, later))
  }

  // ----- Exactly one store of the result

  predicate Others(arrivals: seq<Arrival>, id: MessageId) {
    forall a | a in arrivals :: a.id != id
  }

  /** `arrivals` stores the result of `x.id` once, as `x`. */
  predicate Once(arrivals: seq<Arrival>, before: seq<Arrival>, x: Arrival, after: seq<Arrival>) {
    arrivals == before + [x] + after && Others(before, x.id) && Others(after, x.id)
  }

  lemma {:induction false} OthersStoreNothing(t: ResultTable, arrivals: seq<Arrival>, id: MessageId)
    requires Others(arrivals, id)
    ensures NotesOf(id, arrivals) == []
    ensures (id in TableAfter(t, arrivals) <==> id in t) && (id in t ==> TableAfter(t, arrivals)[id] == t[id])
  {
    if arrivals != [] {
      assert arrivals[|arrivals| - 1] in arrivals;
      OthersStoreNothing(t, arrivals[..|arrivals| - 1], id);
    }
  }

  lemma {:induction false} OnceStores(t: ResultTable, arrivals: seq<Arrival>, before: seq<Arrival>, x: Arrival, after: seq<Arrival>)
    requires Once(arrivals, before, x, after)
    ensures NotesOf(x.id, arrivals) == [Notification(x.id, Payload(x.value))]
    ensures x.id in TableAfter(t, arrivals) && TableAfter(t, arrivals)[x.id] == StoredResult(x.value, Some(x.at + x.ttl))
    decreases |after|
  {
    if after == [] {
      assert arrivals[..|arrivals| - 1] == before;
      OthersStoreNothing(t, before, x.id);
    } else {
      assert arrivals[..|arrivals| - 1] == before + [x] + after[..|after| - 1];
      assert arrivals[|arrivals| - 1] == after[|after| - 1];
      OnceStores(t, arrivals[..|arrivals| - 1], before, x, after[..|after| - 1]);
    }
  }

  /** Stored once, at any point up to the end of the wait, and not expired: the answer is the value. */
  lemma AnswerIsStored(t: ResultTable, before: seq<Arrival>, during: seq<Arrival>, late: seq<Arrival>,
                       packet: nat, now: Time, later: Time, a: seq<Arrival>, x: Arrival, b: seq<Arrival>)
    requires x.id !in t && now <= later < x.at + x.ttl && Others(late, x.id)
    requires || (Once(before, a, x, b) && Others(during, x.id))
             || (Once(during, a, x, b) && Others(before, x.id))
    ensures Answer(t, x.id, true, before, during, late, packet, now, later) == Found(x.value)
  {
    if Once(before, a, x, b) && Others(during, x.id) {
      OnceStores(t, before, a, x, b);
    } else {
      OthersStoreNothing(t, before, x.id);
      OnceStores(TableAfter(t, before), during, a, x, b);
      SingleIsWhole(NotesOf(x.id, before) + NotesOf(x.id, during), packet);
      OthersStoreNothing(TableAfter(TableAfter(t, before), during), late, x.id);
    }
  }

  /** Not stored by the end of the wait: a blocking read times out, another finds nothing. */
  lemma AnswerWithoutStore(t: ResultTable, id: MessageId, block: bool, before: seq<Arrival>, during: seq<Arrival>,
                           late: seq<Arrival>, packet: nat, now: Time, later: Time)
    requires id !in t && Others(before, id) && Others(during, id)
    ensures Answer(t, id, block, before, during, late, packet, now, later) == if block then ResultTimeout else ResultMissing
  {
    OthersStoreNothing(t, before, id);
    OthersStoreNothing(TableAfter(t, before), during, id);
  }

  // ----- A result that is there, or has been

  /** The last store of the result decides, whatever was stored before it. */
  lemma {:induction false} LastStoreDecides(t: ResultTable, a: seq<Arrival>, x: Arrival, b: seq<Arrival>)
    requires Others(b, x.id)
    ensures x.id in TableAfter(t, a + [x] + b)
    ensures TableAfter(t, a + [x] + b)[x.id] == StoredResult(x.value, Some(x.at + x.ttl))
    decreases |b|
  {
    var arrivals := a + [x] + b;
    if b == [] {
      assert arrivals[..|arrivals| - 1] == a;
    } else {
      assert arrivals[..|arrivals| - 1] == a + [x] + b[..|b| - 1];
      assert arrivals[|arrivals| - 1] == b[|b| - 1];
      LastStoreDecides(t, a, x, b[..|b| - 1]);
    }
  }

  /** Blocking or not: a result that was there before the call, and has not expired, is the answer. */
  lemma AnswerIfThere(t: ResultTable, id: MessageId, block: bool, before: seq<Arrival>, during: seq<Arrival>,
                      late: seq<Arrival>, packet: nat, now: Time, later: Time)
    requires id in t && Others(before, id) && (t[id].expiresAt.None? || now < t[id].expiresAt.value)
    ensures Answer(t, id, block, before, during, late, packet, now, later) == Found(t[id].value)
  {
    OthersStoreNothing(t, before, id);
  }

  /** Blocking or not: the last store before the read, not expired by then, is the answer, whatever the
      table held before. */
  lemma AnswerIfStoredBefore(t: ResultTable, block: bool, a: seq<Arrival>, x: Arrival, b: seq<Arrival>, during: seq<Arrival>,
                             late: seq<Arrival>, packet: nat, now: Time, later: Time)
    requires Others(b, x.id) && now < x.at + x.ttl
    ensures Answer(t, x.id, block, a + [x] + b, during, late, packet, now, later) == Found(x.value)
  {
    LastStoreDecides(t, a, x, b);
  }

  lemma {:induction false} WithoutExpired(t: ResultTable, id: MessageId, arrivals: seq<Arrival>)
    ensures forall k | k != id :: (k in TableAfter(t, arrivals) <==> k in TableAfter(t - {id}, arrivals))
    ensures (id in TableAfter(t, arrivals) && id in TableAfter(t - {id}, arrivals)
             && TableAfter(t, arrivals)[id] == TableAfter(t - {id}, arrivals)[id])
            || ((id in TableAfter(t, arrivals) <==> id in t) && id !in TableAfter(t - {id}, arrivals)
                && (id in t ==> TableAfter(t, arrivals)[id] == t[id]))
  {
    if arrivals != [] {
      WithoutExpired(t, id, arrivals[..|arrivals| - 1]);
    }
  }

  lemma {:induction false} TablesAfter(t: ResultTable, a: seq<Arrival>, b: seq<Arrival>)
    ensures TableAfter(TableAfter(t, a), b) == TableAfter(t, a + b)
  {
    if b == [] {
      assert a + b == a;
    } else {
      assert (a + b)[..|a + b| - 1] == a + b[..|b| - 1];
      TablesAfter(t, a, b[..|b| - 1]);
    }
  }

  /** An expired result is as good as none. */
  lemma AnswerIfExpired(t: ResultTable, id: MessageId, block: bool, before: seq<Arrival>, during: seq<Arrival>,
                        late: seq<Arrival>, packet: nat, now: Time, later: Time)
    requires id in t && t[id].expiresAt.Some? && t[id].expiresAt.value <= now <= later
    ensures Answer(t, id, block, before, during, late, packet, now, later)
         == Answer(t - {id}, id, block, before, during, late, packet, now, later)
  {
    WithoutExpired(t, id, before);
    WithoutExpired(t, id, before + during + late);
    TablesAfter(t, before, during);
    TablesAfter(t, before + during, late);
    TablesAfter(t - {id}, before, during);
    TablesAfter(t - {id}, before + during, late);
  }

  /** A non-blocking read finds nothing when the only store has expired. */
  lemma AnswerIfStoreExpired(t: ResultTable, a: seq<Arrival>, x: Arrival, b: seq<Arrival>, during: seq<Arrival>,
                             late: seq<Arrival>, packet: nat, now: Time, later: Time)
    requires Others(b, x.id) && x.at + x.ttl <= now
    ensures Answer(t, x.id, false, a + [x] + b, during, late, packet, now, later) == ResultMissing
  {
    LastStoreDecides(t, a, x, b);
  }

  /** A blocking one is told of it all the same, as long as it is shorter than 7900 octets. */
  lemma AnswerIfStoreExpiredBlocking(t: ResultTable, before: seq<Arrival>, during: seq<Arrival>, late: seq<Arrival>,
                                     packet: nat, now: Time, later: Time, a: seq<Arrival>, x: Arrival, b: seq<Arrival>)
    requires Once(before, a, x, b) && Others(during, x.id) && Others(late, x.id) && x.at + x.ttl <= now <= later
    ensures Answer(t, x.id, true, before, during, late, packet, now, later)
         == if |x.value| >= 7900 then ResultMissing else Found(x.value)
  {
    OnceStores(t, before, a, x, b);
    OthersStoreNothing(TableAfter(t, before), during, x.id);
    SingleIsWhole(NotesOf(x.id, before) + NotesOf(x.id, during), packet);
    OthersStoreNothing(TableAfter(TableAfter(t, before), during), late, x.id);
  }

  // ----- More than one notification, and results that travel by the table

  lemma {:induction false} NotesJoin(id: MessageId, a: seq<Arrival>, b: seq<Arrival>)
    ensures NotesOf(id, a + b) == NotesOf(id, a) + NotesOf(id, b)
  {
    if b == [] {
      assert a + b == a;
    } else {
      assert (a + b)[..|a + b| - 1] == a + b[..|b| - 1];
      NotesJoin(id, a, b[..|b| - 1]);
    }
  }

  lemma NotesOfLast(y: Arrival, c: seq<Arrival>)
    requires Others(c, y.id)
    ensures NotesOf(y.id, [y] + c) == [Notification(y.id, Payload(y.value))]
  {
    assert [] + [y] + c == [y] + c;
    OnceStores(map[], [y] + c, [], y, c);
  }

  lemma NotesOfTwo(x: Arrival, y: Arrival, a: seq<Arrival>, b: seq<Arrival>, c: seq<Arrival>)
    requires y.id == x.id && Others(a, x.id) && Others(b, x.id) && Others(c, x.id)
    ensures NotesOf(x.id, a + [x] + b + [y] + c) == [Notification(x.id, Payload(x.value)), Notification(x.id, Payload(y.value))]
  {
    var first := a + [x] + b;
    OnceStores(map[], first, a, x, b);
    NotesOfLast(y, c);
    NotesJoin(x.id, first, [y] + c);
    assert first + [y] + c == first + ([y] + c);
  }

  /** Two stores during the wait: the call fails if their notifications share a packet; else it takes the
      first one, if that is short enough to travel, or what the table holds then. */
  lemma AnswerWithTwoStores(t: ResultTable, x: Arrival, y: Arrival, before: seq<Arrival>, a: seq<Arrival>, b: seq<Arrival>, c: seq<Arrival>,
                            late: seq<Arrival>, packet: nat, now: Time, later: Time)
    requires y.id == x.id && x.id !in t && Others(before, x.id) && Others(a, x.id) && Others(b, x.id) && Others(c, x.id)
    ensures Answer(t, x.id, true, before, a + [x] + b + [y] + c, late, packet, now, later)
         == if packet >= 2 then Failed
            else if |x.value| < 7900 then Found(x.value)
            else
              var table := TableAfter(TableAfter(TableAfter(t, before), a + [x] + b + [y] + c), late);
              if x.id in table && (table[x.id].expiresAt.None? || table[x.id].expiresAt.value > later)
              then Found(table[x.id].value) else ResultMissing
  {
    OthersStoreNothing(t, before, x.id);
    NotesOfTwo(x, y, a, b, c);
    var notes := NotesOf(x.id, before) + NotesOf(x.id, a + [x] + b + [y] + c);
    assert notes == [Notification(x.id, Payload(x.value)), Notification(x.id, Payload(y.value))];
    assert notes[..1] == [Notification(x.id, Payload(x.value))];
    assert packet == 2 ==> notes[..packet] == notes;
  }

  /** A result of 7900 octets and more that expires before the second read is missing; a shorter one is not. */
  lemma AnswerIfExpiredMeanwhile(t: ResultTable, before: seq<Arrival>, during: seq<Arrival>, late: seq<Arrival>,
                                 packet: nat, now: Time, later: Time, a: seq<Arrival>, x: Arrival, b: seq<Arrival>)
    requires x.id !in t && Others(before, x.id) && Once(during, a, x, b) && Others(late, x.id) && x.at + x.ttl <= later
    ensures Answer(t, x.id, true, before, during, late, packet, now, later)
         == if |x.value| >= 7900 then ResultMissing else Found(x.value)
  {
    OthersStoreNothing(t, before, x.id);
    OnceStores(TableAfter(t, before), during, a, x, b);
    SingleIsWhole(NotesOf(x.id, before) + NotesOf(x.id, during), packet);
    OthersStoreNothing(TableAfter(TableAfter(t, before), during), late, x.id);
  }

  // ----- The objects

  class Connection {
    var channels: set<MessageId>
    var backlog: seq<Notification>
    var autocommit: bool
    var closed: bool

    constructor ()
      ensures Value() == Conn({}, [], false, false)
    {
      channels, backlog, autocommit, closed := {}, [], false, false;
    }

    function Value(): Conn reads this {
      Conn(channels, backlog, autocommit, closed)
    }

    method Notify(n: Notification)
      modifies this`backlog
      ensures Value() == Notified(old(Value()), n)
    {
      if n.channel in channels && !closed {
        backlog := backlog + [n];
      }
    }

    /** Waits for the first notification and returns it, with those delivered in the same packet;
        nothing only if the timeout passes first.  What came in later packets stays pending. */
    method WaitForNotifies(packet: nat) returns (received: seq<Notification>)
      modifies this`backlog
      ensures received == FirstPacket(old(backlog), packet) && received + backlog == old(backlog)
    {
      received := [];
      while backlog != [] && (received == [] || |received| < packet)
        invariant received + backlog == old(backlog) && (|received| <= 1 || |received| <= packet)
        decreases |backlog|
      {
        received, backlog := received + [backlog[0]], backlog[1..];
      }
    }

    /** Clear subscriptions, pending notifications and autocommit; a closed connection is left alone. */
    method UnlistenAll()
      modifies this
      ensures closed == old(closed)
      ensures if closed then Value() == old(Value()) else IsClean(Value())
    {
      if closed {
        return;
      }
      channels := {};
      while backlog != []
        invariant channels == {} && closed == old(closed)
        decreases |backlog|
      {
        backlog := backlog[1..];
      }
      autocommit := false;
    }
  }

  class ResultBackend {
    var results: ResultTable
    var pool: set<Connection>

    constructor ()
      ensures results == map[] && pool == {}
    {
      results, pool := map[], {};
    }

    /** Every connection of the pool is open and clean. */
    ghost predicate Valid()
      reads this, pool
    {
      forall c | c in pool :: !c.closed && IsClean(c.Value())
    }

    /** A connection from the pool, or a new one if the pool has none left. */
    method GetConn() returns (conn: Connection)
      requires Valid()
      modifies this`pool
      ensures Valid() && conn !in pool && !conn.closed && IsClean(conn.Value())
      ensures if old(pool) == {} then fresh(conn) && pool == {} else conn in old(pool) && pool == old(pool) - {conn}
    {
      if pool == {} {
        conn := new Connection();
      } else {
        conn :| conn in pool;
        pool := pool - {conn};
      }
    }

    /** `_store` commits of other processes, seen by the connection of a reader of `id`. */
    method Arrive(conn: Connection, id: MessageId, arrivals: seq<Arrival>)
      requires conn.channels <= {id} && !conn.closed
      modifies this`results, conn`backlog
      ensures results == TableAfter(old(results), arrivals)
      ensures conn.backlog == old(conn.backlog) + if id in conn.channels then NotesOf(id, arrivals) else []
    {
      for k := 0 to |arrivals|
        invariant results == TableAfter(old(results), arrivals[..k])
        invariant conn.backlog == old(conn.backlog) + if id in conn.channels then NotesOf(id, arrivals[..k]) else []
      {
        var x := arrivals[k];
        assert arrivals[..k + 1][..k] == arrivals[..k];
        results := Store(results, x.id, x.value, x.ttl, x.at);
        conn.Notify(Notification(x.id, Payload(x.value)));
      }
      assert arrivals[..|arrivals|] == arrivals;
    }

    /** Entering `transaction(pool, listen=...)`. */
    method Acquire(id: MessageId) returns (conn: Connection)
      requires Valid()
      modifies this`pool, pool
      ensures Valid() && conn !in pool && conn.Value() == Conn({id}, [], true, false)
      ensures if old(pool) == {} then fresh(conn) && pool == {} else conn in old(pool) && pool == old(pool) - {conn}
    {
      conn := GetConn();
      conn.autocommit := true;
      conn.channels := conn.channels + {id};
    }

    /** Leaving it: the callbacks run last in, first out. */
    method Release(conn: Connection)
      requires Valid() && !conn.closed
      modifies this`pool, conn
      ensures Valid() && pool == old(pool) + {conn}
    {
      conn.UnlistenAll();
      pool := pool + {conn};
    }

    /** What follows the `with` block. */
    method Conclude(conn: Connection, id: MessageId, notifies: seq<Notification>, late: seq<Arrival>, later: Time)
      returns (outcome: Outcome)
      requires Valid() && IsClean(conn.Value()) && !conn.closed
      modifies this`results, conn`backlog
      ensures Valid() && pool == old(pool)
      ensures results == (if ExitOn(notifies) == ReadAgain then TableAfter(old(results), late) else old(results))
      ensures outcome == match ExitOn(notifies)
                         case Return(o) => o
                         case ReadAgain => ExitAfterRead(Get(results, id, later))
    {
      if notifies == [] {
        return ResultTimeout;
      }
      if |notifies| != 1 {
        return Failed;
      }
      if notifies[0].payload == [] {
        Arrive(conn, id, late);
        var found := Get(results, id, later);
        return if found.None? then ResultMissing else Found(found.value);
      }
      return Found(notifies[0].payload);
    }

    /** The rest of a blocking read, from the wait on. */
    method Await(conn: Connection, id: MessageId, during: seq<Arrival>, late: seq<Arrival>, packet: nat, later: Time)
      returns (outcome: Outcome)
      requires Valid() && conn !in pool && !conn.closed && conn.channels == {id}
      modifies this, conn
      ensures Valid() && pool == old(pool) + {conn}
      ensures var exit := ExitOn(FirstPacket(old(conn.backlog) + NotesOf(id, during), packet));
              var t2 := TableAfter(old(results), during);
              && results == (if exit == ReadAgain then TableAfter(t2, late) else t2)
              && outcome == match exit
                            case Return(o) => o
                            case ReadAgain => ExitAfterRead(Get(results, id, later))
    {
      Arrive(conn, id, during);
      var notifies := conn.WaitForNotifies(packet);
      Release(conn);
      outcome := Conclude(conn, id, notifies, late, later);
    }

    /** The answer is a function of what was stored when; afterwards every connection of the pool is
        clean again, the one that was used included. */
    method GetResult(id: MessageId, block: bool, before: seq<Arrival>, during: seq<Arrival>, late: seq<Arrival>,
                     packet: nat, now: Time, later: Time) returns (outcome: Outcome)
      requires Valid()
      modifies this, pool
      ensures outcome == Answer(old(results), id, block, before, during, late, packet, now, later)
      ensures Valid() && old(pool) <= pool && (old(pool) != {} ==> pool == old(pool))
      // A read stores nothing: the table is what the arrivals made of it.
      ensures var t1 := TableAfter(old(results), before); var t2 := TableAfter(t1, during);
              results == t1 || results == t2 || results == TableAfter(t2, late)
    {
      var conn := Acquire(id);
      Arrive(conn, id, before);
      var found := Get(results, id, now);
      if found.Some? || !block {
        Release(conn);
        return if found.Some? then Found(found.value) else ResultMissing;
      }
      outcome := Await(conn, id, during, late, packet, later);
    }
  }
}
