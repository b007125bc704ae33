/** What the statements do to the tables, in terms of columns: the effects that the objects promise,
    apart from the functions that compute them. */
module Effects {
  import opened Wrappers
  import opened Tables
  import opened Machine
  import opened Claims
  import opened Rows

  /** The rows that belong to a worker. */
  function ConsumedRows(t: QueueTable): set<MessageId> {
    set i | i in t && t[i].state == Consumed
  }

  /** Rows are neither added nor removed; one that changes goes from `consumed` to `queued`, without an
      owner, and keeps its message, its position and the time from which it is available. */
  ghost predicate PutsBack(before: QueueTable, after: QueueTable) {
    && after.Keys == before.Keys
    && forall i | i in before && after[i] != before[i] ::
         && before[i].state == Consumed && after[i].state == Queued && after[i].owner == None && after[i].consumedAt == None
         && after[i].message == before[i].message && after[i].queue == before[i].queue
         && after[i].position == before[i].position && after[i].availableAt == before[i].availableAt
  }

  /** The message has a row: at once `queued`, available from `due` on, owned by nobody; at its old position
      if there was one, else at the next.  No other row changes. */
  ghost predicate IsUpsert(before: Db, after: Db, m: Message, due: Time, now: Time) {
    && after.workers == before.workers && after.results == before.results && after.nextPosition == before.nextPosition + 1
    && after.queue.Keys == before.queue.Keys + {m.id}
    && (forall i | i in before.queue && i != m.id :: after.queue[i] == before.queue[i])
    && after.queue[m.id].message == m && after.queue[m.id].queue == m.queue && after.queue[m.id].state == Queued
    && after.queue[m.id].availableAt == due && after.queue[m.id].mtime == now
    && after.queue[m.id].owner == None && after.queue[m.id].consumedAt == None
    && after.queue[m.id].position == if m.id in before.queue then before.queue[m.id].position else before.nextPosition
  }

  /** The listed rows are queued on `q` and available; and such a row is left out only if the limit is
      used up by rows that were available earlier, or as early and enqueued before it. */
  ghost predicate TakesFirst(t: QueueTable, q: string, now: Time, limit: nat, order: seq<MessageId>) {
    && (forall i | i in order :: i in t && t[i].queue == q && t[i].state == Queued && t[i].availableAt <= now)
    && forall i | i in t && t[i].queue == q && t[i].state == Queued && t[i].availableAt <= now && i !in order ::
         |order| == limit && forall j | j in order ::
           t[j].availableAt < t[i].availableAt || (t[j].availableAt == t[i].availableAt && t[j].position < t[i].position)
  }

  lemma TakenFirst(t: QueueTable, q: string, now: Time, limit: nat, order: seq<MessageId>)
    requires Distinct(order) && IsFirst(t, Due(t, q, now), limit, Elements(order))
    ensures TakesFirst(t, q, now, limit, order) && |order| <= limit
  {
    ListingSize(order);
    forall i ensures i in order <==> i in Elements(order) {
    }
    forall i | i in Due(t, q, now) && i !in order
      ensures |order| == limit && forall j | j in order ::
                t[j].availableAt < t[i].availableAt || (t[j].availableAt == t[i].availableAt && t[j].position < t[i].position)
    {
      LeftOutMeansFull(t, Due(t, q, now), limit, Elements(order), i);
    }
    forall i | i in t && t[i].queue == q && t[i].state == Queued && t[i].availableAt <= now && i !in order
      ensures i in Due(t, q, now)
    {
    }
  }

  /** The listed rows belong to `w` since `now`, and no other row changes. */
  ghost predicate IsClaimOf(before: QueueTable, after: QueueTable, order: seq<MessageId>, w: WorkerId, now: Time) {
    && after.Keys == before.Keys
    && forall i | i in before ::
         after[i] == if i in order then before[i].(state := Consumed, owner := Some(w), consumedAt := Some(now), mtime := now)
                     else before[i]
  }

  /** The row of the message on its queue, unless rejected before, holds the message as it is given, is
      rejected since `now`, and stays where it was.  No other row changes. */
  ghost predicate IsRejection(before: QueueTable, after: QueueTable, m: Message, now: Time) {
    && after.Keys == before.Keys
    && forall i | i in before ::
         if i == m.id && before[i].queue == m.queue && before[i].state != Rejected then
           && after[i].state == Rejected && after[i].message == m && after[i].mtime == now && after[i].owner == None
           && after[i].queue == before[i].queue && after[i].position == before[i].position
           && after[i].availableAt == before[i].availableAt && after[i].consumedAt == before[i].consumedAt
         else
           after[i] == before[i]
  }

  /** The results left are those that do not expire, or expire later. */
  ghost predicate KeepsUnexpired(before: ResultTable, after: ResultTable, now: Time) {
    && (forall k :: k in after <==> k in before && (before[k].expiresAt.None? || before[k].expiresAt.value > now))
    && forall k | k in after :: after[k] == before[k]
  }

  /** What one maintenance does to the tables, each row by itself. */
  ghost predicate IsMaintenance(before: Db, after: Db, ttl: Time, maxAge: Option<Time>, now: Time) {
    && after.nextPosition == before.nextPosition && KeepsUnexpired(before.results, after.results, now)
    && (forall w :: w in after.workers <==> w in before.workers && now - before.workers[w] <= ttl * 5.0)
    && (forall w | w in after.workers :: after.workers[w] == before.workers[w])
    && after.queue.Keys <= before.queue.Keys
    && forall i | i in before.queue ::
         var r := before.queue[i];
         if r.state == Consumed && !(r.owner.Some? && r.owner.value in before.workers && now - before.workers[r.owner.value] < ttl) then
           i in after.queue && after.queue[i] == r.(state := Queued, owner := None, consumedAt := None, mtime := now)
         else if r.state == Rejected && maxAge.Some? && now - r.mtime >= maxAge.value then
           i !in after.queue
         else
           i in after.queue && after.queue[i] == r
  }

  lemma MaintainIs(before: Db, ttl: Time, maxAge: Option<Time>, now: Time)
    ensures IsMaintenance(before, Maintain(before, ttl, maxAge, true, now), ttl, maxAge, now)
  {
    var reaped := Reap(before.queue, before.workers, now, ttl);
    assert reaped.Keys == before.queue.Keys;
  }

  /** The rows of the queue that may be claimed now. */
  function Claimable(t: QueueTable, q: string, now: Time): set<MessageId> {
    set i | i in t && t[i].queue == q && t[i].state == Queued && t[i].availableAt <= now
  }

  lemma ClaimableIsDue(t: QueueTable, q: string, now: Time)
    ensures Claimable(t, q, now) == Due(t, q, now)
  {
  }

  /** The message is that of a row which `w` has claimed now. */
  predicate JustClaimed(t: QueueTable, m: Message, w: WorkerId, now: Time) {
    m.id in t && t[m.id].message == m && t[m.id].state == Consumed && t[m.id].owner == Some(w) && t[m.id].consumedAt == Some(now)
  }

  /** `rows` are as many as can be claimed, up to the limit; each is the message of a row claimed now; and
      if there are none, nothing is left to claim. */
  ghost predicate HandsOut(before: QueueTable, after: QueueTable, q: string, limit: nat, rows: seq<Message>, w: WorkerId, now: Time) {
    && (forall m | m in rows :: JustClaimed(after, m, w, now))
    && |rows| == (if limit <= |Claimable(before, q, now)| then limit else |Claimable(before, q, now)|)
    && (rows == [] ==> Claimable(after, q, now) == {})
  }

  /** Every listed row's own message is appended, as it stands in the table. */
  ghost predicate Appends(before: seq<Message>, after: seq<Message>, t: QueueTable, order: seq<MessageId>) {
    && |after| == |before| + |order| && before <= after
    && forall k | 0 <= k < |order| :: order[k] in t && after[|before| + k] == t[order[k]].message
  }

  lemma DecodedAppends(before: seq<Message>, t: QueueTable, order: seq<MessageId>)
    requires forall i | i in order :: i in t
    ensures Appends(before, before + Decoded(t, order), t, order)
  {
  }

  /** What a claim of at least one row hands out, and what it leaves. */
  lemma ClaimHandsOut(s: State, after: QueueTable, q: string, limit: nat, order: seq<MessageId>, w: WorkerId,
                      before: seq<Message>, rows: seq<Message>, now: Time)
    requires WellFormed(s) && limit > 0 && Distinct(order) && s.now == now && before == []
    requires IsFirst(s.db.queue, Due(s.db.queue, q, now), limit, Elements(order))
    requires IsClaimOf(s.db.queue, after, order, w, now) && Appends(before, rows, s.db.queue, order)
    ensures HandsOut(s.db.queue, after, q, limit, rows, w, now)
  {
    ListingSize(order);
    ClaimableIsDue(s.db.queue, q, now);
    forall m | m in rows ensures JustClaimed(after, m, w, now) {
      var k :| 0 <= k < |rows| && rows[k] == m;
      assert RowOk(order[k], s.db.queue[order[k]], now, s.db.nextPosition);
      assert order[k] in order;
    }
    if rows == [] {
      assert order == [] && Claimable(s.db.queue, q, now) == {};
      assert after == s.db.queue;
    }
  }

  function Smallest(a: int, b: int, c: int): int {
    if a <= b && a <= c then a else if b <= c then b else c
  }
}
