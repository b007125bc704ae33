/** A blocking reader never misses the result: whatever the interleaving of LISTEN, read, wait and
    second read with the one commit of the result, it returns exactly what was stored. */
module LostResult {
  import opened Wrappers
  import opened Tables
  import opened Waiting

  predicate Stores(a: Step, id: MessageId) { a.Commit? && a.id == id }

  // ----- Before the store

  predicate Silent(conn: Conn, id: MessageId) {
    forall n | n in conn.backlog :: n.channel != id
  }

  ghost predicate Unstored(s: State, id: MessageId) {
    id !in s.results && forall c | c in s.conns :: Silent(s.conns[c], id)
  }

  lemma UnstoredStep(s: State, a: Step, id: MessageId)
    requires Enabled(s, a) && Unstored(s, id) && !Stores(a, id)
    ensures Unstored(Apply(s, a), id)
  {
    var s' := Apply(s, a);
    forall c | c in s'.conns ensures Silent(s'.conns[c], id) {
      if c in s.conns {
        assert Silent(s.conns[c], id);
      }
    }
  }

  lemma {:induction false} UnstoredAlways(run: Run, k: nat, id: MessageId)
    requires IsRun(run) && k < |run.states|
    requires forall i | 0 <= i < k :: !Stores(run.steps[i], id)
    ensures Unstored(run.states[k], id)
  {
    if k > 0 {
      UnstoredAlways(run, k - 1, id);
      UnstoredStep(run.states[k - 1], run.steps[k - 1], id);
    }
  }

  // ----- After the store

  /** The reader has not given up: it has not timed out, nor read the table for the last time. */
  predicate StillReading(p: Phase) {
    p.Called? || p.Borrowed? || p.Listening? || p.Waiting?
  }

  predicate GoodExit(e: Exit, v: Json) {
    e == Return(Found(v)) || (e == ReadAgain && Payload(v) == [])
  }

  /** Where a reader can be once `v` is stored: if it waits, the notification is there, alone. */
  predicate Served(s: State, r: ReaderId, v: Json)
    requires r in s.readers
  {
    match s.readers[r].phase
    case Waiting(c) => c in s.conns && s.conns[c].backlog == [Notification(s.readers[r].id, Payload(v))]
    case Leaving(_, exit) => GoodExit(exit, v)
    case Unlistened(_, exit) => GoodExit(exit, v)
    case Cleaned(_, exit) => GoodExit(exit, v)
    case Done(outcome) => outcome == Found(v)
    case _ => true
  }

  predicate Available(s: State, id: MessageId, v: Json, expiry: Time) {
    id in s.results && s.results[id] == StoredResult(v, Some(expiry))
  }

  lemma OwnOrNone(backlog: seq<Notification>, id: MessageId)
    requires forall n | n in backlog :: n.channel == id
    ensures backlog == [] || exists n | n in backlog :: n.channel == id
  {
    if backlog != [] {
      assert backlog[0] in backlog;
    }
  }

  lemma StoreServes(s: State, a: Step, r: ReaderId)
    requires Enabled(s, a) && a.Commit? && Isolated(s) && Unstored(s, a.id)
    requires r in s.readers && s.readers[r].id == a.id && StillReading(s.readers[r].phase)
    requires s.readers[r].phase.Waiting? ==> ConnectedAndOpen(s, r)
    ensures Served(Apply(s, a), r, a.value) && Available(Apply(s, a), a.id, a.value, s.now + a.ttl)
  {
    assert ReaderOk(s, r);
    if s.readers[r].phase.Waiting? {
      var conn := s.conns[s.readers[r].phase.c];
      assert Silent(conn, a.id);
      OwnOrNone(conn.backlog, a.id);
    }
  }

  lemma AvailableStep(s: State, a: Step, id: MessageId, v: Json, expiry: Time)
    requires Enabled(s, a) && Available(s, id, v, expiry) && s.now < expiry && !Stores(a, id)
    ensures Available(Apply(s, a), id, v, expiry)
  {
  }

  /** The steps of the reader itself. */
  lemma OwnStep(s: State, a: Step, r: ReaderId, v: Json, expiry: Time)
    requires Enabled(s, a) && ByReader(a) && a.r == r && !a.Fail? && !a.Call?
    requires r in s.readers && Available(s, s.readers[r].id, v, expiry) && s.now < expiry && Served(s, r, v)
    ensures r in Apply(s, a).readers && Served(Apply(s, a), r, v)
  {
    if a.Receive? {
      assert s.conns[s.readers[r].phase.c].backlog[..a.count] == s.conns[s.readers[r].phase.c].backlog;
    }
  }

  /** The steps of everyone else leave the connection of the reader alone. */
  lemma OthersStep(s: State, a: Step, r: ReaderId, v: Json)
    requires Enabled(s, a) && Isolated(s) && !(ByReader(a) && a.r == r)
    requires r in s.readers && !Stores(a, s.readers[r].id) && Served(s, r, v)
    ensures r in Apply(s, a).readers && Apply(s, a).readers[r] == s.readers[r] && Served(Apply(s, a), r, v)
  {
    assert ReaderOk(s, r);
    if ByReader(a) && a.r in s.readers {
      assert Apart(s, r, a.r) && ReaderOk(s, a.r);
    }
    if a.Commit? && s.readers[r].phase.Waiting? && !s.conns[s.readers[r].phase.c].closed {
      assert OnlyFor(s.conns[s.readers[r].phase.c], s.readers[r].id);
    }
  }

  /** A reader of `id`, if it was called by now, is served. */
  predicate ServedIfCalled(s: State, r: ReaderId, id: MessageId, v: Json) {
    r in s.readers ==> s.readers[r].id == id && Served(s, r, v)
  }

  lemma IdKept(s: State, a: Step, r: ReaderId)
    requires Enabled(s, a) && r in s.readers
    ensures r in Apply(s, a).readers && Apply(s, a).readers[r].id == s.readers[r].id
  {
  }

  lemma ServedStep(s: State, a: Step, r: ReaderId, id: MessageId, v: Json, expiry: Time)
    requires Enabled(s, a) && Isolated(s) && Available(s, id, v, expiry) && s.now < expiry
    requires ServedIfCalled(s, r, id, v) && !Stores(a, id)
    requires a != Fail(r) && (a.Call? && a.r == r ==> a.id == id)
    ensures ServedIfCalled(Apply(s, a), r, id, v)
  {
    if r in s.readers {
      if ByReader(a) && a.r == r {
        OwnStep(s, a, r, v, expiry);
        IdKept(s, a, r);
      } else {
        OthersStep(s, a, r, v);
      }
    }
  }

  /** Step j is the only store of `id`; the reader then still reads, or is called later; its
      connection does not break and the result does not expire. */
  ghost predicate OneStore(run: Run, j: nat, k: nat, r: ReaderId)
    requires |run.states| == |run.steps| + 1
  {
    && j < k < |run.states| && run.steps[j].Commit?
    && (forall i | 0 <= i < k && i != j :: !Stores(run.steps[i], run.steps[j].id))
    && (r in run.states[j].readers ==>
          && run.states[j].readers[r].id == run.steps[j].id && StillReading(run.states[j].readers[r].phase)
          && (run.states[j].readers[r].phase.Waiting? ==> ConnectedAndOpen(run.states[j], r)))
    && (forall i | j < i < k :: run.steps[i] != Fail(r) && (run.steps[i].Call? && run.steps[i].r == r ==> run.steps[i].id == run.steps[j].id))
    && (forall i | j <= i < k :: run.states[i].now < run.states[j].now + run.steps[j].ttl)
  }

  lemma StoreServesIfCalled(s: State, a: Step, r: ReaderId)
    requires Enabled(s, a) && a.Commit? && Isolated(s) && Unstored(s, a.id)
    requires r in s.readers ==>
      s.readers[r].id == a.id && StillReading(s.readers[r].phase) && (s.readers[r].phase.Waiting? ==> ConnectedAndOpen(s, r))
    ensures ServedIfCalled(Apply(s, a), r, a.id, a.value) && Available(Apply(s, a), a.id, a.value, s.now + a.ttl)
  {
    if r in s.readers {
      StoreServes(s, a, r);
    }
  }

  lemma {:induction false} ServedAlways(run: Run, j: nat, k: nat, r: ReaderId)
    requires IsRun(run) && OneStore(run, j, k, r)
    ensures ServedIfCalled(run.states[k], r, run.steps[j].id, run.steps[j].value)
    ensures Available(run.states[k], run.steps[j].id, run.steps[j].value, run.states[j].now + run.steps[j].ttl)
  {
    var id, v, expiry := run.steps[j].id, run.steps[j].value, run.states[j].now + run.steps[j].ttl;
    IsolatedAlways(run, k - 1);
    if j == k - 1 {
      UnstoredAlways(run, j, id);
      StoreServesIfCalled(run.states[j], run.steps[j], r);
    } else {
      ServedAlways(run, j, k - 1, r);
      ServedStep(run.states[k - 1], run.steps[k - 1], r, id, v, expiry);
      AvailableStep(run.states[k - 1], run.steps[k - 1], id, v, expiry);
    }
  }

  /** No lost result: once the store has committed, the reader cannot time out, and when it is done it
      returns exactly the stored value, on either side of the notification limit. */
  lemma NoLostResult(run: Run, j: nat, k: nat, r: ReaderId)
    requires IsRun(run) && OneStore(run, j, k, r)
    ensures !Enabled(run.states[k], TimeOut(r))
    ensures r in run.states[k].readers && run.states[k].readers[r].phase.Done? ==>
              run.states[k].readers[r].phase == Done(Found(run.steps[j].value))
  {
    ServedAlways(run, j, k, r);
  }

  /** And it is never stuck: a reader that waits after the store can receive at once. */
  lemma WaitingReaderCanReceive(run: Run, j: nat, k: nat, r: ReaderId)
    requires IsRun(run) && OneStore(run, j, k, r)
    requires ConnectedAndOpen(run.states[k], r) && run.states[k].readers[r].phase.Waiting?
    ensures Enabled(run.states[k], Receive(r, 1))
    ensures var exit := Apply(run.states[k], Receive(r, 1)).readers[r].phase.exit;
            exit == if |run.steps[j].value| >= 7900 then ReadAgain else Return(Found(run.steps[j].value))
  {
    ServedAlways(run, j, k, r);
  }
}
