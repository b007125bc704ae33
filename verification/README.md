# A verified model of dramatiq-postgres

dramatiq-postgres keeps a task queue in three PostgreSQL tables.  Worker processes claim messages
with `FOR UPDATE SKIP LOCKED`, prove that they live by heartbeats, and take turns at requeuing the
messages of processes that died.  This project models that protocol and proves what it is for:
nothing is lost, nothing is delivered more often than it was queued, a worker never owns more rows of a
queue than its prefetch, no maintenance robs a worker that calls often enough, a dead one is cleaned up in
bounded time, no message starves.  Three smaller protocols come with it: waiting for a result over pooled
LISTEN connections, the notifier thread, and the expansion of the schema template.

| file | content |
|---|---|
| Tables.dfy | the tables, and every query as a function on them |
| Machine.dfy | worker processes and their memory; one step per transaction or in-memory action; runs |
| Steps.dfy | when each step can be taken, and what it touches |
| Rows.dfy, Claims.dfy | what every row satisfies; what ORDER BY ... LIMIT picks |
| Effects.dfy | what the statements do to the tables, column by column |
| TwoPhase.dfy | claims that lock first and commit later, refining atomic claims |
| Unblocked.dfy, TwoInFlight.dfy | who waits for whom; a run with two claims of one queue in flight |
| Backpressure.dfy, Conservation.dfy | bounds on ownership, accounting |
| Payload.dfy | where the content of rows, buffers and deliveries comes from |
| Deliveries.dfy, Redelivered.dfy | deliveries outstanding at a consumer, and when they exceed its prefetch |
| Starvation.dfy, Skipping.dfy, Progress.dfy | no row starves, also with two-phase claims; what a call without a message means |
| Timing.dfy | heartbeats, reaping and recovery in time |
| Stage.dfy, Tight.dfy, Delay.dfy, TightRecovery.dfy | runs that show the conditions and the bound on recovery to be exact |
| Forwarding.dfy, RejectedRows.dfy, Collection.dfy | late acks, retention, invisible garbage collection |
| Objects.dfy | the database, the broker, the consumer and the commands as objects that take the machine's steps |
| Results.dfy | what a read of a result finds, in every run |
| Waiting.dfy, LostResult.dfy, Readers.dfy | result waiting as a state machine: nothing lost, nothing made up, nobody stuck |
| Backend.dfy | the same as the object that does it |
| Notifier.dfy | subscriptions, the dirty flag and re-LISTENing |
| Template.dfy | string replacement, quoting, lexing and capture |

`dafny verify dfyconfig.toml` checks all of it.

Times are real numbers of seconds on one clock.  A step is one transaction, or one action in the memory
of a process; steps of different consumers, processes and commands interleave in any order, the clock
advances in between, and a process may crash anywhere.  A call of `__next__` is five steps (heartbeat
check, maintenance check, looking at the capacity, claim, delivery) between which everything else may
happen.  A claim carries the time its transaction began, since `NOW()` does, and in
Machine.dfy it may take any due rows up to its limit, as it may when others are locked; TwoPhase.dfy says
which rows are locked, and that with no lock held they are the first ones.  Which rows a database
returns first, the jitter, whether the advisory lock is granted, and the arrivals of other processes are
parameters, over which every statement quantifies.

Where the code and its own documentation differ, the model follows the code:

- README.md:213 of the repository says that a killed worker's messages are back within `heartbeat_ttl`;
  by the code that is too short whatever the intervals (`TightRecovery.TtlIsTooShort`), and a delay after
  the last heartbeat is long enough exactly when it is at least the TTL plus 1.5 maintenance intervals plus
  one call gap, the last two once more for every refusal of the lock (`TightRecovery.CrashRecoveryIff`).
- A comment at dramatiq_postgres/broker.py:239 says that heartbeating before the first claim keeps the
  reaper from seeing an unknown owner; this needs the claim to follow the check soon enough, and
  `Tight.NoOrphanOwnersIff` says how soon.
- With a heartbeat interval of zero, a call gap of exactly the TTL is already too long, because REAP
  compares strictly (`Tight.NoFalseReapingIff`).

## Model

| member | source | states |
|---|---|---|
| Rows.WellFormedAlways | dramatiq_postgres/schema.sql:16-30 | In every reachable state: a row has an owner exactly when it is consumed; a queued row has no consumed_at; a consumed row has available_at <= consumed_at = mtime <= now; the column and the payload name the same queue and message; positions are distinct. |
| Rows.NeverEarly | dramatiq_postgres/broker.py:435-474 | After an enqueue with a delay, the row becomes available exactly then, and if it is consumed it was claimed at or after that instant. |
| Rows.RecoverTakesOldClaims | dramatiq_postgres/cli.py:215-220 | RECOVER puts back exactly the rows claimed more than the given age ago, at once due, and changes no other row. |
| Rows.DelayQueueIs | dramatiq_postgres/broker.py:215-217 | The delayed messages of an ordinary queue q go to q + ".DQ", a queue of another name; those of a queue that ends in .DQ stay on it. |
| Rows.DelayQueuesDiffer | dramatiq_postgres/broker.py:208-217 | Two ordinary queues never share a delay queue. |
| Steps.GoesOn | dramatiq_postgres/broker.py:213-413 | Every run can go on with every step that its own process, consumer and rows allow, whatever the others are doing, and with no other. |
| Steps.StepIsLocal | dramatiq_postgres/broker.py:281-311 | Only the clock moves the clock; no step touches the memory of another process, nor that of another consumer of its own. |
| Claims.FirstExists | dramatiq_postgres/broker.py:435-445 | ORDER BY available_at, position LIMIT n always has a choice of rows. |
| Claims.FirstUnique | dramatiq_postgres/broker.py:435-445 | That choice is unique, whatever the order in which rows are scanned. |
| Claims.LeftOutMeansFull | dramatiq_postgres/broker.py:435-445 | A due row is left out only when the limit is used up by rows that precede it. |
| TwoPhase.SafeAlways | dramatiq_postgres/broker.py:435-454 | With any number of claims in flight, of one queue or of several: their row sets are pairwise disjoint, and every locked row is still queued and due, in every interleaving. That claims do overlap is Unblocked.ClaimNeverWaits. |
| TwoPhase.CommitIsClaim | dramatiq_postgres/broker.py:318-331 | At its commit, a claim in flight is an enabled atomic claim with the same effect. |
| TwoPhase.InterleavedStepIsAtomic | dramatiq_postgres/broker.py:435-454 | In every run, each begin, commit, abort or other statement is an enabled atomic step, or no step, between the same states. |
| TwoPhase.TwoPhaseRefinesAtomic | dramatiq_postgres/broker.py:435-454 | Every interleaved run of two-phase claims, aborts, crashes and other statements is a run of the machine with atomic claims, state by state. Which interleavings there are is said by Unblocked.ClaimNeverWaits, ClaimCanEnd and WaitsIff. |
| TwoPhase.UnlockedClaimIsFirst | dramatiq_postgres/broker.py:435-445 | A claim that begins with no lock held takes exactly the first min(limit, due) rows by (available_at, position). |
| TwoPhase.InterleavedWithinPrefetch | dramatiq_postgres/broker.py:297-331 | Backpressure holds of interleaved two-phase runs as well. |
| Unblocked.ClaimNeverWaits | dramatiq_postgres/broker.py:435-445 | In every reachable interleaving, a consumer about to claim, with no claim of its own in flight, can begin, whatever claims of the same queue are in flight. |
| Unblocked.BeginLocksFirstFree | dramatiq_postgres/broker.py:435-445 | It locks queued, available rows that no other claim has locked; one of them is left out only if the limit is used up by rows that were available earlier, or as early and enqueued before. |
| Unblocked.ClaimCanEnd | dramatiq_postgres/broker.py:435-454 | A claim in flight can always commit, in any order of its rows, and can always abort, which leaves the tables as they are. |
| Unblocked.InFlightAfter | dramatiq_postgres/broker.py:435-454 | A claim in flight goes on unchanged through every step but its own commit or abort and a crash of its own process. |
| Unblocked.CommitStampsBegin | dramatiq_postgres/broker.py:446-452 | The rows of a commit get the worker, and the instant at which the claim began, as consumed_at and mtime; the rest of each row stays. |
| Unblocked.WaitsIff | dramatiq_postgres/broker.py:435-548 | Exactly an enqueue or nack of a locked message, and a flush while any row is locked, wait for claims in flight; no other statement or step in memory does. |
| TwoInFlight.TwoClaimsInFlight | dramatiq_postgres/broker.py:435-445 | A reachable run in which one worker's claim has locked row 7 and another worker's claim of the same queue locks row 8 meanwhile. |
| Backpressure.OwnedWithinPrefetch | dramatiq_postgres/broker.py:297-379 | In every reachable state, each row a live worker owns on a queue is in the buffer or in_processing of its consumer, and they are at most the prefetch. |
| Backpressure.OwnsOnlyConsumedQueues | dramatiq_postgres/broker.py:281-331 | A live worker owns rows only of queues it has a consumer for. |
| Backpressure.ClaimWithinCapacity | dramatiq_postgres/broker.py:302-305 | No claim takes more than min(prefetch - |in_processing|, 256) rows, acks between the computation of the limit and the claim included. |
| Payload.RowHoldsLastEnqueue | dramatiq_postgres/broker.py:455-474 | Unless rejected, a row holds exactly the message, body included, that the last enqueue of its id sent. |
| Payload.ClaimedSince | dramatiq_postgres/broker.py:446-452 | A consumed row was claimed by its owner, for its queue, at its consumed_at, and has not changed since. |
| Payload.BufferIsClaimed | dramatiq_postgres/broker.py:317-331 | Every message in a buffer was claimed by this consumer from a row that was queued, available and held exactly this message. |
| Payload.DeliveredAsEnqueued | dramatiq_postgres/broker.py:297-331 | Every message delivered is, body included, the one that the last enqueue of its id before its claim sent; it leaves the front of the buffer and is in process. |
| Deliveries.OutstandingBounded | dramatiq_postgres/broker.py:297-379 | For every consumer and run: deliveries not yet acked or nacked, and messages in the buffer, are at most the prefetch plus the rows put back on its queue (reap, requeue, recover, enqueue) while it had their messages in memory. |
| Deliveries.RepetitionsPaid | dramatiq_postgres/broker.py:297-379 | Each delivery of a message that is in process already, each extra copy in memory, and each row in memory that can be claimed again is paid by one such put-back. |
| Deliveries.PutBackHeldIs | dramatiq_postgres/broker.py:455-535 | The put-backs counted are the rows of messages in memory that a step enqueues on the queue, or takes there from consumed to queued. |
| Redelivered.OutstandingWithinPrefetchIff | dramatiq_postgres/broker.py:302-311 | The deliveries outstanding stay within the prefetch in every run if and only if the prefetch is at most one: with a larger one, a message that is recovered while it is processed can be delivered to the same consumer any number of times, since in_processing counts it once. |
| Timing.NoFalseReaping | dramatiq_postgres/broker.py:238-251 | While a worker calls at most `gap` apart, with heartbeat_interval + gap <= heartbeat_ttl (and not both interval 0 and gap equal to the TTL), no maintenance of any process touches a row it owns or deletes its worker row. |
| Tight.NoFalseReapingIff | dramatiq_postgres/broker.py:524-535 | That timing condition is exact, for every positive call gap: whenever it fails there is a run from the empty database, in which no call ends in an error and every claim takes the first due rows, and in which a live worker that calls at most `gap` apart in every state from its first call on loses a row. |
| Timing.NoOrphanOwners | dramatiq_postgres/broker.py:239-251 | If claims follow the heartbeat check of their process within `gap` and heartbeat_interval + gap <= 5 * heartbeat_ttl, every consumed row's owner has a worker row in every state. |
| Tight.NoOrphanOwnersIff | dramatiq_postgres/broker.py:536-539 | That condition is exact: whenever it fails there is a run without errors, with such claims, that leaves an orphan. |
| Timing.OwnersFreshAfterMaintenance | dramatiq_postgres/broker.py:264-276 | Right after a granted maintenance, whoever still owns a row has a worker row with a heartbeat younger than the TTL: REAP comes before CLEAN_WORKERS. |
| Timing.CrashRecovery | dramatiq_postgres/broker.py:253-278 | A worker that called in time until it died owns no row from (n + 1) * (1.5 maintenance intervals + gap) after last heartbeat + TTL on, if one other worker keeps calling at most `gap` apart and is refused the lock n times at or after that expiry. |
| TightRecovery.CrashRecoveryIff | dramatiq_postgres/broker.py:253-278 | That bound is exact: for every n, a delay after the last heartbeat is long enough for all such runs with at most n refusals if and only if it is at least TTL + (n + 1) * (1.5 maintenance intervals + gap); and likewise for the runs among them in which no call ends in an error and every claim takes the first due rows. |
| TightRecovery.TtlIsTooShort | README.md:210-213 | For every configuration in which heartbeats arrive in time there is a run with no refusal and no error in which a worker dies at the instant of its last heartbeat and still owns a row a TTL later. |
| Starvation.NoStarvation | dramatiq_postgres/broker.py:435-445 | A due row with n rows ahead of it is claimed, or the full claims of limit at least l that have passed, times l, are at most n + the rows put back, whatever is enqueued at later instants. |
| Starvation.FullClaimsIs | dramatiq_postgres/broker.py:435-445 | The full claims counted there are the steps in between that claim the first due rows of the queue, with that limit at least. |
| Starvation.ClaimedWithinBound | dramatiq_postgres/broker.py:435-474 | While no step puts a row of the queue back, the row is claimed as soon as such claims, times l, exceed n. |
| Starvation.NothingPutBackIff | dramatiq_postgres/broker.py:509-535 | A step puts nothing back on a queue exactly when none of its consumed rows matches the step's requeue, its recover, or the reap of a maintenance that is due and granted. |
| Starvation.PutBackIs | dramatiq_postgres/broker.py:509-535 | The rows put back are those of the queue that go from consumed to queued without being enqueued. |
| Starvation.RankDecreases | dramatiq_postgres/broker.py:435-474 | While a row waits, its rank plus what claims took from ahead of it never exceeds its first rank plus the rows put back. |
| Skipping.InterleavedNoStarvation | dramatiq_postgres/broker.py:435-454 | The starvation bound of every interleaving of two-phase claims: the row is claimed, or the commits of claims of limit at least l that began while it was due and not locked, times l, are at most n + the rows put back. |
| Progress.EmptyHanded | dramatiq_postgres/broker.py:297-315 | In every reachable run, a call that delivers nothing has, since its heartbeat check, found in_processing filling the prefetch or claimed no row; and a claim of the first rows that takes none finds no row of the queue due. |
| Progress.NothingUnlocked | dramatiq_postgres/broker.py:435-454 | In every interleaving, when a claim begins and chooses no row, every due row of the queue is locked by another claim. |
| Progress.InterleavedEmptyHanded | dramatiq_postgres/broker.py:297-331 | In every interleaving, a call that delivers nothing has found the prefetch full, or its claim began, within the call, when every due row was locked by another claim. |
| Conservation.NothingIsLost | dramatiq_postgres/broker.py:418-548 | For every message and run: fresh inserts = (1 if in the table) + deletions by ack, purge and flush. |
| Conservation.QueuedBalance | dramatiq_postgres/broker.py:435-514 | Entries into `queued` = deliveries + nacks and flushes of a queued row + (1 if queued). |
| Conservation.DeliveriesBounded | dramatiq_postgres/broker.py:435-535 | A message is delivered at most as often as it was enqueued, reaped, requeued and recovered. |
| Conservation.EventIsSeen | dramatiq_postgres/broker.py:418-548 | The events counted are what can be seen of the row: insert, delivery, rejection, way back and deletion are its changes of state, and untouched means unchanged. |
| Forwarding.ForwardSurvives | dramatiq_postgres/broker.py:213-236 | A message of queue q forwarded with a delay stays, unchanged and not rejected, on q + ".DQ", due at the instant of the enqueue plus the delay, under every sequence of claims, reaps, recoveries and acks or nacks addressed to q. |
| Forwarding.RequeuedSurvivesAck | dramatiq_postgres/broker.py:342-353 | A message re-enqueued without a delay survives late acks as long as no claim takes it. |
| Forwarding.LateAckDeletesReclaimed | dramatiq_postgres/broker.py:333-354 | With a claim in between, the late ack of one worker deletes the delivery of another. |
| RejectedRows.RejectedSince | dramatiq_postgres/broker.py:490-498 | A rejected row holds the message that a nack carried and the instant of that nack as mtime, and has been rejected ever since: repeated nacks do not refresh it. |
| RejectedRows.RejectedIsKept | dramatiq_postgres/broker.py:544-548 | Unless enqueued again, a rejected row stays unchanged through every step of every run but a purge that has come of age. |
| RejectedRows.RetentionExact | dramatiq_postgres/broker.py:253-278 | The step that removes a rejected row is exactly the first granted maintenance (or purge command) at or past its age since the rejection. |
| RejectedRows.NeverPurgedEarly | dramatiq_postgres/broker.py:270-278 | A maintenance that removes a rejected row comes at least purge_maxage after the nack that rejected it, and only with a purge_maxage set. |
| Collection.CollectionIsInvisible | dramatiq_postgres/broker.py:536-543 | Every run has a twin with the same steps that never deletes stale workers and expired results: the same queue and memory, the same reap decisions, and the same answer to every read of a result, in every state. |
| Collection.KeepingKeeps | dramatiq_postgres/broker.py:536-543 | The twin indeed collects nothing: no step removes a worker row or a result. |
| Objects.Database.Upsert | dramatiq_postgres/broker.py:455-474 | Inserts or overwrites one row: queued, with the message, available after the delay, owned by nobody; at its old position if there was one, else at the next; no other row changes. |
| Objects.Database.ClaimRows | dramatiq_postgres/broker.py:435-454 | Takes queued, available rows up to the limit, leaving one out only for rows that were available earlier or as early and enqueued before; each becomes consumed by the worker, and the k-th message returned is that of the k-th row, as it stood in the table. |
| Objects.Database.ReapRows | dramatiq_postgres/broker.py:524-535 | Afterwards a row is consumed exactly if it was and its owner has a heartbeat younger than the TTL; the others are queued with no owner, everything else kept; the count is the number that left `consumed`. |
| Objects.FlushCommand | dramatiq_postgres/cli.py:173-177 | Takes the flush step: the rejected rows stay, and only these; the count is the number of rows deleted. |
| Objects.RecoverCommand | dramatiq_postgres/cli.py:188-192 | Takes the recover step: a consumed row stays so exactly if it was changed within the age; the count is the number of rows put back. |
| Objects.PurgeCommand | dramatiq_postgres/cli.py:180-185 | Takes the purge step: exactly the rows rejected for the age or longer and the expired results go; the counts are those of deleted messages and results. |
| Objects.Broker.Enqueue | dramatiq_postgres/broker.py:213-236 | Takes the enqueue step; returns the message, addressed to its queue with ".DQ" behind if there is a delay, and stores exactly that, available after the delay; no other row changes. |
| Objects.Broker.MaybeHeartbeat | dramatiq_postgres/broker.py:238-251 | Writes a heartbeat exactly unless one was written less than an interval ago; afterwards the remembered one is younger than the interval; takes the heartbeat step. |
| Objects.Broker.MaybeMaintenance | dramatiq_postgres/broker.py:253-278 | Does nothing before the instant remembered; else sets the next to 0.5 to 1.5 intervals from now and, if granted the lock, puts back the rows without a fresh owner, drops workers silent for five TTLs, expired results and rejected rows of age, each row by its columns; takes the maintenance step. |
| Objects.Consumer.Claim | dramatiq_postgres/broker.py:317-331 | Takes an enabled claim step of the first due rows, which become consumed by this worker, and appends each row's own message to the buffer, in the order of the rows. |
| Objects.Consumer.Ack | dramatiq_postgres/broker.py:333-355 | Takes the ack step: the row of the message goes exactly if it is consumed on this queue; afterwards the worker neither processes the message nor owns it here, and processes the others as before. |
| Objects.Consumer.Nack | dramatiq_postgres/broker.py:357-379 | Takes the nack step: the row of the message on this queue, unless rejected before, is rejected now, holds the message as given, and keeps position and availability; no other row changes; afterwards the worker neither processes the message nor owns it here. |
| Objects.Consumer.Requeue | dramatiq_postgres/broker.py:405-413 | Takes the requeue step for the ids of the messages, also when there are none: of the consumed rows exactly these are queued again. |
| Objects.Consumer.Decide | dramatiq_postgres/broker.py:302-305 | An empty buffer with free capacity asks for all of it but no more than 256; else there is no claim. |
| Objects.Consumer.Refill | dramatiq_postgres/broker.py:302-305 | An empty buffer gets as many messages as the free capacity, 256 and the claimable rows allow, each that of a row this worker has just claimed; it stays empty only if the prefetch is full or nothing can be claimed any more. |
| Objects.Consumer.Next | dramatiq_postgres/broker.py:297-315 | One undisturbed call takes the heartbeat, maintenance, capacity, claim and delivery steps of the machine in this order; it returns the first message of the buffer, or one whose row it has just claimed and holds exactly this message; it returns none only when in_processing fills the prefetch or, after this call's reaping, no row of the queue can be claimed (interleaved calls: Progress.InterleavedEmptyHanded). |
| Results.ReadFindsLastStore | dramatiq_postgres/results.py:100-112 | In every run, a read finds the value of the last store of the id until its time to live is over, and nothing from then on, whatever is purged and whatever earlier stores said. |
| Results.ReadWithoutStore | dramatiq_postgres/results.py:100-104 | And nothing that was never stored. |
| Results.ExpiredAreDeleted | dramatiq_postgres/broker.py:540-543 | A maintenance that is due and granted, and the purge command, leave exactly the results that have no expiry or a later one; a store replaces value and expiry of its id; no other step changes the results. |
| Waiting.IsolatedAlways | dramatiq_postgres/utils.py:140-165 | In every run, pooled connections are clean, no two readers share one, and a reader's connection holds only its own channel and notifications. |
| Waiting.PooledConnectionsClean | dramatiq_postgres/utils.py:126-137 | Every open connection in the pool has no channel, no backlog and autocommit off. |
| Waiting.ReceivesOwnChannel | dramatiq_postgres/results.py:62-68 | A wait for a message returns notifications of that message only, though the channel is not looked at. |
| LostResult.NoLostResult | dramatiq_postgres/results.py:46-80 | After the one store of a result that does not expire, a reader cannot time out, and when done it has exactly the stored value, in every interleaving and for every size. |
| LostResult.WaitingReaderCanReceive | dramatiq_postgres/utils.py:168-174 | A reader that waits after the store can receive at once, and then has the value or reads it from the table. |
| Readers.FoundWasStored | dramatiq_postgres/results.py:46-80 | In every run, a value that a reader answers with was stored as the result of its message. |
| Readers.NeverStuck | dramatiq_postgres/results.py:46-80 | In every run, a reader that has its connection can take a step of its own, be the connection open or broken, and is done after at most seven; one that has none can take any open one of the pool. |
| Readers.FirstRead | dramatiq_postgres/results.py:52-60 | An unexpired result in the table is the answer, blocking or not; only a blocking reader that finds none goes on to wait. |
| Readers.WaitEnds | dramatiq_postgres/results.py:64-69 | A wait ends with a timeout, or with exactly one notification, whose payload is the answer, or which sends the reader to the table if it is empty; more than one in a packet is a failure. |
| Readers.DecisionStands | dramatiq_postgres/utils.py:140-165 | What a reader has decided on inside the block is what it answers after it, whatever the others do. |
| Readers.ConnectionReturned | dramatiq_postgres/utils.py:140-147 | After the block an open connection is in the pool again, clean; a broken one is discarded. |
| Readers.CommitNotifies | dramatiq_postgres/results.py:106-122 | A store waits for no reader; it replaces the result and its expiry, and notifies every open connection on the channel, without the value from 7900 octets on. |
| Backend.AnswerIsStored | dramatiq_postgres/results.py:52-80 | Stored once at any point up to the end of the wait, the value is the answer of get_result. |
| Backend.AnswerWithoutStore | dramatiq_postgres/results.py:52-66 | Not stored by the end of the wait: a blocking read times out, a non-blocking one finds nothing. |
| Backend.AnswerIfThere | dramatiq_postgres/results.py:52-60 | Blocking or not: a result in the table before the call, unexpired at the read, is the answer. |
| Backend.AnswerIfStoredBefore | dramatiq_postgres/results.py:52-60 | Blocking or not: so is the value of the last store before the read, whatever was stored before it. |
| Backend.AnswerIfExpired | dramatiq_postgres/results.py:100-104 | Blocking or not: a result expired at the read is answered as if it were absent. |
| Backend.AnswerIfStoreExpiredBlocking | dramatiq_postgres/results.py:52-80 | Stored once between LISTEN and the read, and expired at the read: a blocking call still gets the value by its notification, from 7900 octets on it finds nothing. |
| Backend.AnswerWithTwoStores | dramatiq_postgres/results.py:62-80 | Stored twice during the wait: the call fails if the notifications share a packet; else it answers the first value if that is shorter than 7900 octets, or what the table holds at the second read. |
| Backend.AnswerIfExpiredMeanwhile | dramatiq_postgres/results.py:69-77 | Stored once during the wait and expired at the second read: missing from 7900 octets on, the value if shorter. |
| Backend.Connection.UnlistenAll | dramatiq_postgres/utils.py:126-137 | An open connection ends with no channels, no backlog and autocommit off; a closed one is left alone. |
| Backend.Connection.WaitForNotifies | dramatiq_postgres/utils.py:168-174 | Returns the first pending notification and those delivered in the same packet, in order; nothing only if nothing is pending; later ones stay pending. |
| Backend.ResultBackend.GetResult | dramatiq_postgres/results.py:46-80 | The outcome is the answer for what others store at each point of the call; the pool is clean afterwards with the connection back in it; nothing is written. |
| Notifier.NeverForgets | dramatiq_postgres/broker.py:98-116 | With a connection, a clear flag and the thread outside ensure_conn, the LISTENed channels are exactly the subscribed ones, in every interleaving and with connection failures anywhere. |
| Notifier.ChangeIsSeen | dramatiq_postgres/broker.py:58-74 | A change of subscriptions during re-LISTENing leaves the flag set or is listened to. |
| Notifier.SubscribedIffLive | dramatiq_postgres/broker.py:58-74 | In every run, an event is subscribed to a channel exactly if it has been, and not unsubscribed since, whatever others do on the same channel. |
| Notifier.ListensToLive | dramatiq_postgres/broker.py:98-116 | In a state as in NeverForgets, the LISTENed channels are those that some event has subscribed to and not left. |
| Notifier.AlwaysCatchesUp | dramatiq_postgres/broker.py:98-116 | Wherever the thread is: left alone it is never stuck, and listens to the subscribed channels within a round or two. |
| Notifier.SubscribersAreWoken | dramatiq_postgres/broker.py:79-91 | In such a state a notification on a subscribed channel reaches the thread and wakes exactly the events subscribed to it. |
| Notifier.NotifierThread.Subscribe | dramatiq_postgres/broker.py:58-64 | Adds the event to its channel and changes nothing else in the subscriptions, sets the flag, and starts the thread once. |
| Notifier.NotifierThread.Unsubscribe | dramatiq_postgres/broker.py:66-74 | Removes exactly that event from that channel, and the channel if no event is left; the flag is set exactly when the channel goes; an unknown channel is a no-op. |
| Notifier.NotifierThread.EnsureConn | dramatiq_postgres/broker.py:98-116 | Ends with a connection that listens to the channels subscribed at its snapshot, which are the subscribed ones unless a change in between set the flag again; the changes that come in between are kept. |
| Template.LexQuoted | dramatiq_postgres/utils.py:121-123 | Reading a quoted identifier by the rules of section 4.1.1 of the PostgreSQL manual gives back the name, whatever it contains. |
| Template.LexQualifiedQuoted | dramatiq_postgres/schema.py:7-11 | Reading two quoted identifiers with a dot between them gives back both names. |
| Template.QuotedNoCapture | dramatiq_postgres/schema.py:17-21 | A later replacement goes past a quoted identifier untouched, since quoting doubles its inner quotes. |
| Template.ChainedIsSimultaneous | dramatiq_postgres/schema.py:17-21 | For every schema and prefix, the five chained replacements of a line whose placeholders are safely surrounded equal the simultaneous substitution. |
| Template.ReferenceExpands | dramatiq_postgres/schema.sql:16-50 | Every reference :"schema".:"name" of the template to one of the four objects expands to, and reads back as, exactly the schema and prefix + name. |
| Template.SchemaLineExpands | dramatiq_postgres/schema.sql:8-8 | The line with :"schema" alone expands to the quoted schema. |
| Template.OtherLinesKept | dramatiq_postgres/schema.sql:9-53 | Every other line, one without a quote (comments with a colon too) or without a colon, is safe and stays as it is. |
| Template.CaptureExample | dramatiq_postgres/schema.py:17-21 | Without the condition on the surroundings, chained and simultaneous substitution differ. |
| Template.ProcessPsqlLines | dramatiq_postgres/schema.py:6-22 | Drops exactly the lines that start with a backslash and expands every other line, each once and in the order of the input. |

## Left out

- CrashRecovery: counts the refusals of the advisory lock and does not bound them; how long another process holds it is a matter of that process.
- NoLostResult: one store of the result, on a connection of the reader that does not break; with a broken connection the call fails and is retried from the start, and with several stores the answer is that of Backend.AnswerWithTwoStores.
- ChainedIsSimultaneous: the condition on the surroundings of placeholders is sufficient, and holds of every line of the template; it is not necessary for each single schema and prefix.
- Consumer.Next: `wakeup` and the sleep at its end, which only save time.
- MaybeMaintenance and PurgeCommand (and Upkeep and Next, which use it) require the flag `collect`, which the program has no way to turn off; the flag exists to compare runs with and without garbage collection.
- One clock: offsets between the monotonic clock of a process and the clock of the database are not modelled; only differences of each are used.
- The payload is an id, a queue name and an opaque rest; JSON encoding, message proxies, dramatiq's middleware, retries and worker loop are not modelled, nor is the eta option that a delayed message carries besides its availability in the table.
- The notifications of ENQUEUE, ACK and NACK, and the 8000-octet case of the latter two: a missed doorbell costs one poll interval, and only outside listeners read the others.
- Connections are channels, a backlog, autocommit and whether they are closed; pool construction, retries, socket checks and the conversion of milliseconds to a timeout are left out; which notifications share a packet is a parameter, and a wait may time out at any moment at which nothing is pending.
- Database internals beyond row locks, unique keys, atomic commits and notification at commit; a statement that would write a row locked by a claim waits.
- Commits whose outcome is unknown to the client, and the replacement of a consumer inside a living process; closing a consumer counts as the end of its process.
- The text of identifiers beyond quoting: truncation to 63 octets and the rejection of empty names are the database's.
- `QueryManager.build_queries`, schema creation, statistics, argument parsing, logging and the Django integration.
