# kafka-harbor: a verified model

kafka-harbor runs Kafka consumers with a retry ladder: a message its handler
fails on is copied, bytes untouched, to the next retry topic or to the
dead-letter topic (DLQ), and only an acknowledged copy or a handler that
succeeded lets its offset be committed. Around that sit batches, parked retry
messages that wait out a long delay while their partition is paused, rebalances
that take a partition away at any moment, stops, transactions, a redrive that
drains a DLQ back into service, and an adapter that schedules partitions onto
worker slots.

The project states what these promise and proves it for every run, not for one
call. Asynchronous code is modelled as the steps between two awaits, taken in
any order the event loop and the broker allow.

## How it is laid out

| file | what it is about |
|---|---|
| Lanes | one partition as one group member sees it: deliveries, parked messages, batches, revocations, hops, transactions |
| LaneSafety, EachLanes, BatchLanes, LaneSteps | the invariant of a lane whose sessions are kept, for topics handled message by message and in batches, and every step of it |
| Order | the same promise by order alone, without sessions; both invariants under one name |
| Pipeline | the consumer's maps of revocations, batches and parked messages, updated in place; each partition's part of them is a lane |
| Routes | the topics of a subscription, and the class that accepts or refuses it |
| Headers | tracking headers written, stamped, merged with a hook's, decoded and read back |
| World, WorldSafety, Prefix | a broker, a group and any number of its members; what every act keeps, and every run |
| Exactness, BesideBatches | the exact condition under which nothing is committed past a message that is not accounted for; what an unclean step leads to, also beside a running batch |
| Riders | offsets a transaction commits before its handler is done, and the settled prefix |
| Verdicts, Destinations | which messages count as processed and which are forwarded, exactly; where each goes, exactly |
| Through, Aftermath | runs that see every kind of delivery through to its commit; what a revocation or a stop ends for good |
| Ladder, Batches, Leaving | conservation down the whole ladder, finitely many hops, back to the own handler; batches; what a member commits after it left |
| Hazards | the runs in which a promise is not kept |
| Scheduler, Consuming, ConsumingRuns, Consumption | the adapter's gate: what each operation makes of the state, what every run keeps, and the class that does it in place |
| Intake | what a consumption takes in from its stream, exactly, and what its slots leave alone |
| Watermarks, ConsumingExamples | when a queue keeps its offset order; runs that lose it, and one in which the stop hangs |
| Assigner | partitions spread over the members subscribed to their topic |
| Slots | the gate for parked messages on their way back in |
| Lifecycle, Connection | starting and stopping a consumer; connecting and shutting down a harbor |
| Broker, Transactions, Atomicity | the in-memory broker, and transactions over it |
| Redrive | draining a dead-letter topic over interrupted runs |
| Serializer | the strict walk before JSON encoding |
| Hold | a delivery held by an open circuit |

## Findings

Where the code does not keep a promise, the model keeps the code, shows the
input, and proves when the promise does hold.

- A chain of a parked message that outlives a revocation resumes the partition
  when it ends (`src/consumer.ts:972-975`), although by then a newer chain may
  hold the partition paused. The next message then runs beside the parked one
  and can be committed past it. The run is `Hazards.StaleResumeBreaks`; the
  exact condition, where messages are handled one by one, is
  `Exactness.ResumeExactly`: such a resume can be followed by a commit past a
  message without an outcome if and only if a later chain still has one.
- A revocation that falls between a parked message's slot and its re-entry
  (`src/consumer.ts:967-971`) does not stop it: `process` takes a fresh count of
  revocations. Where messages are handled one by one that does no harm by
  itself; where they are collected, the message goes into a batch as if it were
  the open session's. The run is `Hazards.LateReEntryBreaks`, in which it
  re-enters beside a running batch and waits for it. The exact condition is
  `Exactness.ReEntryExactly` where no batch is running, and
  `Exactness.JoinExactly` for the end of such a wait: an earlier message is
  neither accounted for nor in the batch being collected.
  `BesideBatches.UncleanReEntryBreaks` proves that the wait can end that way
  whenever the running batch can end without the earlier message, or be given
  up with it.
- Both come down to order. `Exactness.OrderExactly` proves, for every state
  that steps in order can reach and every step from there, that nothing which
  follows in order ever commits past an unaccounted message if and only if the
  step puts no message into a handler or a batch over one that is left out; `LaneSteps.StepKeeps` with
  `Prefix.CleanRunInOrder` proves that without the two interleavings above every
  step is such a step.
- A handler's transaction commits the offset before the handler is done. A
  handler that throws after it, and whose hop then fails, or that a stop gave up
  on, loses the message: committed, no copy, no success. The documentation says
  so (`docs/delivery-semantics.md:117-126`), and the run is
  `Hazards.TransactionLoses`. `Riders.TransactionExactly` is the exact
  condition: what a transaction takes along must still be with the activation
  that began it, and that activation must not give it up.
- A transaction begun before the member left its group commits after it
  (`src/consumer.ts:1180-1184`, `src/transaction.ts:146-148`): the handle is
  looked up once, when it is begun. `Hazards.CommitAfterLeave` is the run, and
  `Leaving.LeavingExactly` says that this and a commit already under way are
  the only ways.
- A message the platformatic adapter's reader gets after `stop()` began, while
  the buffer is full, makes the reader wait for room nobody makes any more, and
  `stop()` waits for the reader: `ConsumingExamples.StopCanHang` is a run from
  the start that gets there, and `ConsumingRuns.StopEndsTheReader` says exactly
  when.
- The in-memory broker checks a transaction's records when they are sent and
  appends them when it commits. A topic made by hand in between with fewer
  partitions than the default lets the commit break off half-way:
  `Atomicity.HalfCommitted`, and `Atomicity.AllOrNothingExactly` for exactly
  when. The file's header comment says it has no transactions; the code has
  them, and the model follows the code.
- The serializer's walk refuses some values JSON can write: an object that is
  written by its keys on another's behalf, and also met through its own
  `toJSON` on the same path: `Serializer.RefusesWhatJsonWrites`. The exact
  condition is `Serializer.AcceptsExactly`.
- A delivery skipped because its partition is not held any more forgets the
  last offset queued (`src/adapters/platformatic/index.ts:629-632`), and leaves
  what is queued behind it. If the client's assignment changes back before it
  says that it changed, and the client reads the partition again, offsets go
  down: `ConsumingExamples.OffsetsGoDown`. `Watermarks.OrderLostExactly` is the
  exact condition for the next read, and `Watermarks.AnnouncedInOrder` proves
  that a client which announces every change of its assignment before the next
  one never gets there.

## Model

| member | source | states |
|---|---|---|
| LaneSteps.StepKeeps | src/consumer.ts:1035-1177 | whatever one partition of one member does next (deliver, park, hold, re-enter, collect, decode, forward, handle, commit, begin or end a transaction, be revoked), outside the two unclean interleavings: everything below the next delivery is accounted for or in the hands of a live activation, and an offset committed has everything below it accounted for; accounted for means handled, copied, or taken along by a transaction |
| Order.StepWeak | src/consumer.ts:1281-1305 | the same of what runs and is collected, for every step that is in order, with nothing known about sessions, pauses or revocations |
| Order.CleanInOrder | src/consumer.ts:963-976 | where sessions are kept, every clean step is in order |
| LaneSafety.RevokeKeeps | src/consumer.ts:766-785 | a revocation flushes the batch, discards the parked message and closes the session without losing track of a message |
| LaneSafety.StopKeeps | src/consumer.ts:838-840 | a beginning stop discards what was collected and parked and keeps what runs accounted for |
| LaneSteps.HandledKeeps | src/consumer.ts:1348-1467 | for every verdict (resolved, thrown, a list of failed messages, released) the messages of the run split into handled, forwarded and open ones, none twice; which are which is `Verdicts.VerdictExactly` and `Verdicts.LeftExactly` |
| Verdicts.DecodeExactly | src/consumer.ts:1360-1405 | what did not decode goes down its ladder and the rest to the handler, each exactly and in the order it was taken |
| Verdicts.VerdictExactly | src/consumer.ts:1395-1456 | a verdict counts a message as processed if and only if the handler resolved, or listed failures, all of them its own, without naming it |
| Verdicts.LeftExactly | src/consumer.ts:1432-1456 | what is left to forward is everything after a throw, exactly the named messages in order after a list, nothing after a success; a foreign name or an abort stops the consumer |
| Verdicts.ProcessedExactly | src/consumer.ts:1395-1467 | over any run: a message is recorded as processed if and only if a handler it was given to did its work for it |
| Verdicts.CopiedOnlyFailed | src/consumer.ts:1114-1177 | over any run: a message is copied only after it was found to belong to nobody, not to decode, or to have failed in its handler |
| LaneSteps.OutlivedNeverRuns | src/consumer.ts:963-971 | a message that waited across a revocation, or was discarded before it got a slot, reaches no handler and no batch at any step |
| Aftermath.RevokeEnds | src/consumer.ts:766-785 | a revocation does that to whatever waits: a held delivery, a message waiting for a batch, the parked one without a slot |
| Aftermath.NeverRuns | src/consumer.ts:766-785 | over any run of any members, what a revocation or a stop ended never runs |
| Aftermath.StoppedStartsNothing | src/consumer.ts:829-840 | a stopped member starts no activation and collects nothing, whatever still comes |
| Aftermath.NothingNewAfterStop | src/consumer.ts:829-850 | over any run, after a stop, its member runs only what it ran when the stop began, with the same messages |
| Aftermath.RunStopsAll | src/consumer.ts:787-840 | a stop that one partition's own run begins reaches every partition of its member |
| Through.NowGoesThrough | src/consumer.ts:1035-1177 | from any state that lets the message be delivered, whether the handler is done or throws: the message is settled, the offset behind it committed, and the lane is ready for the next |
| Through.HeldGoesThrough | src/consumer.ts:1065-1098 | the same for a message held in its delivery until it is due |
| Through.ParkedGoesThrough | src/consumer.ts:927-976 | the same for a parked one, after which its partition is not paused any more |
| Through.NobodysGoesThrough | src/consumer.ts:1489-1502 | the same for a message of no subscription, by one hop and no handler |
| Through.CollectedGoesThrough | src/consumer.ts:1307-1322 | a batch whose time is up runs, and exactly what was collected is settled in order and committed behind |
| Through.FilledGoesThrough | src/consumer.ts:1292-1305 | so does the batch that its last message fills |
| LaneSteps.AckKeeps | src/consumer.ts:1235-1257 | an acknowledged hop settles exactly the message it forwarded and moves it from open to forwarded |
| Order.SettlesOpen | src/consumer.ts:1235-1257 | a step settles only messages its run had open, a hop only the one it forwarded, and a transaction takes along exactly what its handler was given |
| Pipeline.ConsumerPipeline.SettleRevoked | src/consumer.ts:766-785 | every revoked partition's lane becomes the revoked lane, however often the list names it, and no other partition is touched |
| Pipeline.ConsumerPipeline.BeginStop | src/consumer.ts:838-840 | every partition's lane becomes the stopped one |
| Pipeline.ConsumerPipeline.DiscardParked | src/consumer.ts:1016-1024 | the parked messages of exactly these partitions are forgotten, and their partitions flow again if asked |
| Pipeline.ConsumerPipeline.DiscardBatches | src/consumer.ts:1325-1330 | the collected messages of exactly these partitions are forgotten |
| Pipeline.ConsumerPipeline.FlushBatch | src/consumer.ts:1314-1322 | what was collected runs on a delivery of its own; other partitions are untouched |
| Pipeline.ConsumerPipeline.Collect | src/consumer.ts:1292-1305 | a message joins its partition's batch and the one that fills it runs it |
| Routes.MakePlan | src/retry-topics.ts:49-71 | a naming is accepted exactly when no two topics of the ladder and the DLQ coincide, and then the plan lists what it named; a refusal says which of them do |
| Routes.NextRoute | src/consumer.ts:585-627 | a message failed on level l lands on a route of level l+1 owned by the same subscription, or was on the last level; no owner's DLQ is consumed |
| Routes.RegisterKeeps | src/consumer.ts:585-627 | an accepted subscription keeps every promise of the table: one owner per original topic, one level and delay per retry topic, no batch on a shared one, no consumed DLQ |
| Routes.AcceptableExactly | src/consumer.ts:592-626 | a subscription is acceptable if and only if registering it adds something, keeps every promise of the table and leaves every owner in place |
| Routes.RouteTable.Subscribe | src/consumer.ts:592-626 | exactly the acceptable subscriptions are accepted; a refusal changes nothing and gives a reason that holds |
| Routes.RouteTable.FindDlq | src/consumer.ts:612-618 | found exactly when the new ladder would consume somebody's DLQ |
| Routes.RouteTable.Register | src/consumer.ts:619-625 | the whole ladder is routed, sharing the routes that exist |
| Headers.CountRoundTrip | src/headers.ts:74-78 | a count written is read back as itself exactly when it has at most nine digits, and not at all otherwise |
| Headers.BlockExactly | src/headers.ts:93-102 | headers from anywhere: a block is read if and only if its count, topic and instant all make sense, and says what they say; an unreadable error is empty |
| Headers.HopRoundTrip | src/headers.ts:93-137 | through write, stamp, hook merge, wire and read, the tracking block comes back whole if and only if the count is below the nine-digit bound and the topic is not blank, whatever the hook does |
| Headers.BlockSurvives | src/produce.ts:45-60 | no hook can take or change a tracking header a hop wrote |
| Headers.LadderTracking | src/consumer.ts:1050-1056 | on level n a message reads count n, its original topic and its first failure instant, whatever it carried when it entered |
| Headers.OthersTravel | src/produce.ts:53-60 | every other header travels on, unless the hook declared it its own |
| Headers.MergeExactly | src/produce.ts:45-60 | name by name: a copied header stays unless the hook declared it and it is none of the harbor's; otherwise it is what the hook added, or nothing |
| Headers.StampsSurvive | src/headers.ts:110-125 | whatever the hook does, the next consumer reads the instant, the producer, and the correlation id that arrived if it was not blank, else a new one |
| Headers.CorrelationTravels | src/headers.ts:117-124 | one correlation id for the life of a message: the one it entered with or, that being blank, the one its first hop made, is read on every level |
| Headers.DecodeHeaders | src/headers.ts:56-64 | a repeated header keeps its last value, an empty one is dropped |
| Headers.WireRoundTrip | src/headers.ts:56-64 | what was written with one value per name decodes to itself |
| Riders.SettledPrefix | src/consumer.ts:1505-1517 | over any run of any number of members whose steps are clean, or just in order, and whose transactions are seen through: every message below a committed offset was handled successfully, has an acknowledged copy, or is still with the activation whose transaction took its offset along; each copy has the original's bytes, lies one step down and counts for one message |
| Riders.SettledInTheEnd | src/consumer.ts:1505-1517 | and once no activation is running, every one of them was handled or copied |
| Riders.TransactionExactly | src/transaction.ts:138-148 | a step leaves every message a transaction took along with an outcome or in hands that still owe it one, if and only if it is no commit of a message its activation gave up already, and no activation giving up a message that was committed |
| Riders.OpenFate | src/consumer.ts:1145-1177 | whatever happens, an open message is settled, stays open, or its activation ends over it: by an abort, a crash, a foreign name, a release or a stop that gave up |
| Prefix.OrderSuffices | src/consumer.ts:1505-1517 | over any run in order, everything below a committed offset is accounted for |
| Prefix.CleanRunInOrder | src/consumer.ts:963-976 | a run without the two unclean interleavings is a run in order |
| Exactness.OrderExactly | src/consumer.ts:1281-1305 | from any state reached in order, a step is in order if and only if no continuation in order commits past a message that is not accounted for; a message that belongs to nobody and has no DLQ to go to is in order wherever it enters, because its consumer stops over it |
| Exactness.ResumeExactly | src/consumer.ts:972-975 | where messages are handled one by one, a resume is clean if and only if no clean continuation commits past a message that is not accounted for |
| Exactness.ReEntryExactly | src/consumer.ts:963-971 | where messages are collected, a re-entry while no batch runs lets no continuation in order commit past an unaccounted message if and only if every earlier message is accounted for or in the batch it joins; beside a running batch it only waits, and is in order |
| Exactness.JoinExactly | src/consumer.ts:1281-1292 | and the end of that wait is in order if and only if then every earlier message is accounted for or in the batch it joins |
| BesideBatches.UncleanReEntryBreaks | src/consumer.ts:963-971 | after a re-entry beside a running batch, over an earlier message without an outcome, clean steps lead to a commit past that one, if the batch can run to its end without it or be given up |
| Exactness.UncleanResumeBreaks | src/consumer.ts:972-975 | also where messages are collected, while no batch runs: after a resume over a parked message, clean steps lead to a commit past it |
| BesideBatches.UncleanResumeBreaks | src/consumer.ts:972-975 | and beside a running batch, if that can run to its end and does not hold the message itself |
| WorldSafety.NextKeeps | src/commit.ts:38-47 | every single act of the broker or a member, if clean or in order, keeps every lane, every commit covered and every copy real, also a commit that fails and a partition several members believe they own |
| WorldSafety.DestinationDown | src/consumer.ts:1235-1257 | a failed message only ever goes one level down or to an owner's DLQ; which of the two is `Destinations.DestinationExactly` |
| Destinations.OwnerExactly | src/consumer.ts:1476-1480 | the only owner of a topic has its messages whatever they say; on a shared one the message has to name its owner |
| Destinations.DestinationExactly | src/consumer.ts:1235-1257 | a failed message goes to its own subscription's next level if and only if the failure is to be retried and a level is left; otherwise to its DLQ, or nowhere if it has none |
| Destinations.NobodysDestination | src/consumer.ts:1489-1500 | a message of nobody goes to a DLQ exactly when all owners of its topic have that one |
| Destinations.CopiesExactly | src/consumer.ts:1235-1257 | over any run: a copy on a consumed topic is on its own subscription's next level, by a hop that wanted a retry; any other is in a DLQ, by one that wanted none, from the last level, or of nobody |
| Destinations.DeadLetterTells | src/consumer.ts:1251-1255 | a dead letter carries the instant, the error and the count of its last failure, whatever the hook adds |
| Hazards.StaleResumeBreaks | src/consumer.ts:972-975 | a run of two members, in which no message is parked twice, an outlived chain resumes a partition, and a message without an outcome is committed past |
| Hazards.LateReEntryBreaks | src/consumer.ts:963-971 | a run in which a message discarded after it got its slot re-enters, is collected, and the prefix breaks |
| Hazards.TransactionLoses | docs/delivery-semantics.md:117-126 | a run of clean steps in which a handler throws after its transaction committed and the hop fails: committed, no outcome, nobody working on it |
| Hazards.CommitAfterLeave | src/consumer.ts:1180-1184 | a run in which a member left its group and then commits through a transaction it had open |
| Ladder.Conservation | src/produce.ts:84-94 | over any run in order with its transactions seen through, every message from the group's start on is uncommitted, still with the handler whose transaction committed it, processed, in a DLQ, or represented by a byte-identical copy one level down of which the same holds |
| Ladder.HopsBounded | src/retry-topics.ts:49-71 | a message makes at most one hop a level and one to the DLQ, for any handler and any retry predicate |
| Ladder.OwnHandlerAllTheWay | src/consumer.ts:1476-1480 | every copy, also on a shared retry topic, belongs to the subscription the message entered with |
| Batches.BatchSafety | src/consumer.ts:1337-1467 | over any clean run, a running batch is consecutive, at most `size`, alone on its partition, and each of its messages was handled once, forwarded once or is open; a full one runs on a delivery, a shorter one on its own; none is open when it commits its offset itself |
| Batches.TransactionSafety | src/consumer.ts:1180-1184 | what a handler's transaction commits is the batch it was begun in: each of its messages went down its ladder once or was given to that handler once, and everything before is accounted for |
| Batches.GivenUpForGood | src/consumer.ts:1395-1467 | a batch that was aborted, crashed, released, or named a foreign message commits nothing, and no commit ever passes one of its open messages before that message has an outcome of its own |
| Batches.CollectingSafety | src/consumer.ts:1281-1305 | a batch being collected is consecutive, short of `size`, and nothing runs meanwhile |
| Leaving.AbandonedBeginsNoCommit | src/consumer.ts:1505-1511 | a delivery shutdown gave up on begins no commit of its own: what may commit after a step of it was a commit under way or an open transaction before |
| Leaving.NoCommitAfterLeave | src/consumer.ts:753-758 | over any run at all, what a member commits after it left its group it had begun by then: a commit under way, or a transaction it had open |
| Leaving.LeavingExactly | src/transaction.ts:138-148 | it can still commit for a partition if and only if it left with one of these there |
| Scheduler.DispatchMoves | src/adapters/platformatic/index.ts:613-624 | a dispatch, with every skip re-entering it, serves the line from the front in order, and loses and reorders nothing queued |
| Scheduler.Dispatch | src/adapters/platformatic/index.ts:613-650 | with skipped deliveries re-entering it, the dispatcher ends, leaves no slot free while anyone stands in line, and keeps line, slots and counts consistent |
| Scheduler.FinishMoves | src/adapters/platformatic/index.ts:643-649 | so does the end of a delivery, whose partition goes to the back of the line |
| Scheduler.TakeKeeps | src/adapters/platformatic/index.ts:599-624 | the first in line has a message, and taking it keeps the line, the slots and the count of queued messages consistent |
| Consuming.NextKeeps | src/adapters/platformatic/index.ts:476-662 | every step (read, wake, settle, pause, resume, rebalance, join, lost stream, stop) keeps the line, the slots, the bound on the buffer, the order and the watermarks, and loses no wakeup |
| Consuming.EnqueueKeeps | src/adapters/platformatic/index.ts:489-504 | an admitted message keeps the buffer within its bound and the partition's offsets in order |
| Consuming.JoinKeeps | src/adapters/platformatic/index.ts:534-572 | so does a join with its losses, its regained partitions and the rotation they cause |
| ConsumingRuns.DeliveredInOrder | src/adapters/platformatic/index.ts:489-504 | over any run, the slots take each partition's offsets strictly increasing as long as its last offset is not forgotten, at most `bufferedMessages` are queued and at most `concurrency` slots busy |
| ConsumingRuns.Remembered | src/adapters/platformatic/index.ts:489-650 | outside a join and the stop's end, what was queued for a partition is never lost: only an admitted message is added, behind what is there |
| ConsumingRuns.Fair | src/adapters/platformatic/index.ts:608-624 | a partition i-th in line has had a message taken by the time i+1 deliveries finished, whatever else happens meanwhile, as long as it is not paused, the stop has not begun, and every join finds it still held and brings nothing back that was lost |
| ConsumingRuns.WaitsForSomeone | src/adapters/platformatic/index.ts:652-662 | until the stop, a reader waits for room only behind a running delivery or behind messages that are all paused |
| ConsumingRuns.StopEndsTheReader | src/adapters/platformatic/index.ts:476-481 | the message a reader gets after the stop began ends it exactly when the buffer is not full |
| ConsumingRuns.StopHangs | src/adapters/platformatic/index.ts:409-428 | otherwise nothing but another join or stop ever wakes it |
| ConsumingExamples.StopCanHang | src/adapters/platformatic/index.ts:409-428 | a run from the start, with one slot and one place in the buffer, after which the stop never ends |
| Watermarks.OrderLostExactly | src/adapters/platformatic/index.ts:489-504 | the next read can break the offset order of a queue if and only if the partition is held, has something queued, and its last offset was forgotten |
| Watermarks.AnnouncedInOrder | src/adapters/platformatic/index.ts:626-642 | over any run in which the client announces each change of its assignment before the next, every queue is strictly increasing and no read can change that |
| ConsumingExamples.OffsetsGoDown | src/adapters/platformatic/index.ts:629-632 | a run with two unannounced changes, after which a partition that is held hands over message 6 before message 5 |
| ConsumingRuns.FreshStream | src/adapters/platformatic/index.ts:522-572 | of the partitions the member was last told it holds, a message is admitted only from a stream opened after its partition was last lost |
| ConsumingRuns.JoinDrops | src/adapters/platformatic/index.ts:534-557 | a join leaves no trace of a partition the member does not hold |
| ConsumingRuns.RegainReplaces | src/adapters/platformatic/index.ts:549-572 | when something lost came back, nothing of the old stream is left queued or admitted any more |
| ConsumingRuns.JoinLeaves | src/adapters/platformatic/index.ts:534-557 | when nothing came back, what is kept stays queued, in line and paused as it was |
| Intake.ReadExactly | src/adapters/platformatic/index.ts:489-504 | while the stream is in use and there is room, a message read is queued behind the others if and only if its partition is held and its offset is greater than the last one remembered, gaps or not |
| Intake.GoOnExactly | src/adapters/platformatic/index.ts:476-483 | so is the message a reader waited with |
| Intake.NothingNewDropped | src/adapters/platformatic/index.ts:489-504 | over any run: a message beyond every offset queued for its partition since that was last forgotten is queued |
| Intake.OpenTakesIn | src/adapters/platformatic/index.ts:440-475 | a stream just opened is read from: what it hands over first is queued |
| Intake.MoveLeaves | src/adapters/platformatic/index.ts:613-624 | no step takes a message of a partition that is paused, that has a delivery in progress, or of any after the stop |
| Intake.PausedIsLeftAlone | src/adapters/platformatic/index.ts:613-624 | over any run: from its pause to its resume or a join, nothing of a partition is taken |
| Consumptions.Consumption.Dispatch | src/adapters/platformatic/index.ts:613-624 | the loop, re-entered by skipped deliveries, does what the specification says and ends |
| Consumptions.Consumption.Deliver | src/adapters/platformatic/index.ts:626-642 | room is announced and the epoch noted, or the lost partition forgotten and its slot freed |
| Consumptions.Consumption.Settle | src/adapters/platformatic/index.ts:643-649 | the slot is freed, the partition lines up again and the next is dispatched |
| Consumptions.Consumption.Enqueue | src/adapters/platformatic/index.ts:489-504 | does what the specification says, for which `Intake.ReadExactly` says what is queued; a message not held, or seen already, changes nothing |
| Consumptions.Consumption.Read | src/adapters/platformatic/index.ts:476-483 | with no room the reader waits, with the message in hand |
| Consumptions.Consumption.Resume | src/adapters/platformatic/index.ts:400-407 | the partitions line up in the order given, then the free slots are filled |
| Consumptions.Consumption.Join | src/adapters/platformatic/index.ts:534-558 | what is lost is dropped and reported, what came back costs the stream, and a waiting reader may go on |
| Consumptions.Consumption.Rotate | src/adapters/platformatic/index.ts:561-572 | every queue goes with the stream, and no offset counts as seen any more |
| Consumptions.Consumption.Empty | src/adapters/platformatic/index.ts:585-591 | one partition's queue and its one place in line go, and the count with them |
| Assigner.Assign | src/adapters/platformatic/index.ts:157-180 | the nested loops with their one cursor give every member exactly the partitions whose turn is its own |
| Assigner.SortedParties | src/adapters/platformatic/index.ts:158-164 | the members and topics are gone through in one order: exactly the members, and exactly what the leader or somebody asks for, each once |
| Assigner.ExactlyOneOwner | src/adapters/platformatic/index.ts:149-180 | every partition of a topic somebody subscribes to has exactly one owner, and it subscribes to the topic |
| Assigner.OnlyWhatExists | src/adapters/platformatic/index.ts:149-180 | nothing else is handed out: a member holds only existing partitions of wanted topics it subscribes to, each list increasing without repeats |
| Assigner.TopicBalanced | src/adapters/platformatic/index.ts:163-172 | subscribers of a topic differ by at most one partition of it |
| Assigner.TotalsBalanced | src/adapters/platformatic/index.ts:160-172 | where all subscribe to everything, totals differ by at most one, which is what the shared cursor is for |
| Assigner.OrderDoesNotMatter | src/adapters/platformatic/index.ts:157-164 | the order members and topics are listed in does not change the outcome |
| Slots.StepKeeps | src/consumer.ts:981-1013 | never more than `concurrency` inside, and while someone waits, those inside and those woken are at least that many, also when one is discarded after being woken or overtaken by a newcomer |
| Slots.NobodyForgotten | src/consumer.ts:981-1013 | when nobody woken is left to go on, whoever still waits stands behind a full house |
| Slots.EntersFree | src/consumer.ts:988-1007 | only a message that was not discarded gets in, and only into a free slot |
| Slots.InTurn | src/consumer.ts:988-1000 | those who stay in line keep their places before each other, and a newcomer stands behind them all |
| Slots.FirstIsWoken | src/consumer.ts:993-1013 | whoever leaves the line was discarded, or was first in it and was woken |
| Slots.FirstCome | src/consumer.ts:981-1013 | over any run: while one waits, nobody behind it leaves the line but to be discarded |
| Slots.SlotGate.TakeSlot | src/consumer.ts:981-1008 | in, in line behind the others, or gone with the wakeup passed on |
| Slots.SlotGate.FreeSlot | src/consumer.ts:1010-1013 | the slot is free and the first in line is woken |
| Lifecycle.StoppedExactlyOnce | src/consumer.ts:660-758 | however a start and a stop overtake each other, no consumption is stopped twice, the stop is announced at most once, and once both settled every consumption opened was stopped exactly once |
| Lifecycle.NeverRunsAgain | src/consumer.ts:680-691 | once a stop began the consumer never runs again |
| Lifecycle.StopNeedNotWait | src/consumer.ts:810-826 | a stop begun during a start can give up on it and settle, with the consumer stopped |
| Lifecycle.StartsExactly | src/consumer.ts:660-691 | over any run: a start that settled succeeded if and only if connecting, preparing and opening all worked out and no stop began before it was done |
| Lifecycle.AnnouncedExactly | src/consumer.ts:810-866 | over any run: a stop is announced once if it ran its course or gave up waiting for the start, and not otherwise |
| Lifecycle.RunKeeps | src/consumer.ts:803-867 | what was opened is always with the start, kept as a handle, or stopped once |
| Connection.ReleasedExactlyOnce | src/harbor.ts:293-374 | never two connects at once, and a client that connected, also after the shutdown gave up on it, is released exactly once |
| Connection.ConnectsExactly | src/harbor.ts:293-304 | a connect begins exactly when none is pending, none landed and no shutdown began |
| Connection.LandsExactly | src/harbor.ts:308-318 | a connect that lands before the shutdown is over serves the harbor; a later one is released at once |
| Connection.ShutdownWaits | src/harbor.ts:344-352 | over any run: a shutdown leaves a pending connect behind only when its time is up |
| Broker.Validate | src/testing/index.ts:147-161 | a batch passes exactly when every topic may exist and every partition named does |
| Broker.AppendsToTheEnd | src/testing/index.ts:162-188 | an append comes to its end exactly when every partition named exists |
| Broker.AppendsInOrder | src/testing/index.ts:162-188 | and then every topic has its records behind what was there, in order |
| Broker.GrownOk | src/testing/index.ts:163-186 | offsets count from zero and each partition's log is the topic's history of it, in order |
| Broker.AppendPlaces | src/testing/index.ts:162-189 | whatever is appended, every record is on the partition it named, else on its key's, else on the next in turn after the keyless ones before it |
| Broker.SameKeySamePartition | src/testing/index.ts:168-173 | two records of a topic under one key are on one partition, in the order they came |
| Atomicity.AlwaysPlaced | src/testing/index.ts:162-189 | over any run of produces, topics made by hand and transactions, the same |
| Broker.MemoryBroker.Append | src/testing/index.ts:162-188 | record by record, with topics made on demand |
| Broker.MemoryBroker.Produce | src/testing/index.ts:240-250 | all of the batch or none of it |
| Transactions.StepKeepsCalls | src/transaction.ts:79-167 | whatever calls, sends and a shutdown do, at most one transaction is open, its handle holds exactly what it landed, and it commits only after every send landed |
| Transactions.OneAtATime | src/transaction.ts:83-97 | two transactions are never between begin and end |
| Transactions.NeverOpenAlready | src/transaction.ts:91-97 | a call whose turn came finds no transaction open, also when one before it was refused while waiting |
| Transactions.NothingLate | src/transaction.ts:119-151 | no send is left to reach the broker once its transaction ended |
| Transactions.TurnMeans | src/transaction.ts:91-95 | the promise a call waits for settles exactly when every earlier call has |
| Transactions.ProduceExactly | src/transaction.ts:119-135 | a send begun while the function runs and the harbor is open is part of its transaction; any other is refused |
| Transactions.LandExactly | src/testing/index.ts:252-275 | a send that reaches the broker lands if and only if every record of it fits |
| Atomicity.AllOrNothing | src/testing/index.ts:252-299 | over any run in which no commit breaks off, the logs are the plain produces and the committed transactions, whole and in order; the committed offsets are theirs; and one that committed had its function resolve and all its sends land |
| Atomicity.InCallOrder | src/transaction.ts:79-97 | over any run, a call begins only after every earlier one ended or was refused |
| Atomicity.CommitsExactly | src/transaction.ts:138-151 | over any run: a call that ended committed if and only if its transaction was opened, its function resolved, every send landed, the harbor was open then, its offsets if any were taken, and every partition its records name was still there |
| Atomicity.RefusedOnlyClosed | src/transaction.ts:91-97 | a call is refused its turn only by a harbor that closed |
| Atomicity.GoesThrough | src/transaction.ts:79-167 | from any state, a call whose turn came can go through: its records land behind what was there, and its offsets are committed with them |
| Atomicity.StepExactly | src/testing/index.ts:252-299 | a step keeps the books if and only if it is no commit that breaks off half-way |
| Atomicity.RoomyRunsAreClean | src/testing/index.ts:162-188 | where no topic is made by hand with fewer partitions than one made on demand, no commit breaks off |
| Atomicity.CommitsWhole | src/testing/index.ts:283-291 | a commit takes effect if and only if every partition its records name still exists |
| Atomicity.AllOrNothingExactly | src/testing/index.ts:283-291 | and is all or nothing if and only if that is so or already its first record names a partition that does not |
| Atomicity.HalfCommitted | src/testing/index.ts:283-291 | a run from the start whose commit appends one record of two and ends aborted |
| Redrive.NeverLoses | src/redrive.ts:51-133 | over any number of interrupted and resumed runs, each with a group, target, filter and maximum of its own: a dead letter below what any group committed was re-produced with its bytes or rejected by a filter, went where its run was asked to send it or where it came from, never back into the drained topic; what was rejected a filter said no to, what was re-produced it said yes to where there was one; no run takes more than its maximum, and one stops by itself only when full, failed or idle |
| Redrive.NothingAfterFailure | src/redrive.ts:93-149 | after its first failure a run copies, rejects and commits nothing |
| Redrive.FilterExactly | src/redrive.ts:107-122 | what the filter keeps is re-produced next, what it refuses is skipped and committed next |
| Redrive.RejectedOnlyByFilter | src/redrive.ts:107-122 | over any runs: a message is skipped if and only if a filter refused it |
| Redrive.DeliverExactly | src/redrive.ts:91-124 | a message of a run that goes on is asked about if and only if there is a filter, and otherwise re-produced to where it is to go |
| Redrive.FailsExactly | src/redrive.ts:91-105 | a run fails at a message with nowhere to go, a filter that throws or a produce not acknowledged, and nowhere else |
| Redrive.RedriveCorrelates | src/redrive.ts:124-129 | a redriven message keeps the correlation id it failed under |
| Redrive.FreshLadder | src/redrive.ts:124-129 | of the failed run's tracking only what a hook adds itself is left, and the redrive is noted |
| Redrive.OwnHeadersTravel | src/redrive.ts:124-129 | the application's own headers travel back |
| Serializer.Walk | src/serializer.ts:69-115 | the walk ends, says what its specification says, and on success leaves the set of objects on the path as it found it |
| Serializer.AcceptsExactly | src/serializer.ts:69-115 | it accepts exactly when the tree JSON writes ends and holds nothing lossy, and no object on the way is met in both roles |
| Serializer.AcceptsWhatJsonWrites | src/serializer.ts:83-96 | where no `toJSON` returns another object that has one, it accepts exactly what JSON writes without loss |
| Serializer.RefusesWhatJsonWrites | src/serializer.ts:87-95 | an object graph JSON writes in four levels and the walk refuses |
| Hold.Guarded | src/consumer.ts:1199-1225 | all attempts but the last were rejected without a run, no wait reaches past the delivery's limit or the breaker's, it ends, in exactly one of four ways, and expires only past one of the limits |
| Hold.DeadlineExactly | src/consumer.ts:1201-1202 | an instant is before the deadline exactly when it is within the delivery's limit and, where it has one, the breaker's |
| Hold.RunsOnce | src/consumer.ts:1205-1216 | the handler runs at most once |
| Hold.HeldNoLonger | src/consumer.ts:1200-1222 | the number of waits is bounded by the time to the deadline |
| Hold.OneEnding | src/consumer.ts:1214-1222 | an attempt ends the hold in one way or is held again, never both |

## Left out

- Riders.SettledPrefix: is proved for runs in order whose transactions are seen through; that no weaker condition will do for the order is `Exactness.OrderExactly`, for the transactions `Riders.TransactionExactly`, and the runs that break it are in `Hazards`.
- Exactness.ReEntryExactly: says nothing more of a re-entry beside a running batch than that it waits; which of several messages that wait for one batch goes on first is the event loop's order of wakeups, which the model leaves open.
- ConsumingRuns.Fair: leaves out joins that take the partition away or replace the stream, after which it has no place in line to keep.
- WorldSafety.NextKeeps: assumes the client delivers what its contract says (one delivery at a time per partition, nothing while paused, from the committed offset on); a client that delivers through a pause is not modelled, and a group's start offset on a partition it never committed is fixed once.
- Leaving.NoCommitAfterLeave: a transaction is begun only by a handler that is running; one begun by code the handler left behind is not modelled.
- Slots.FirstCome: is about the line; a newcomer may take the slot freed for a message that was woken, which then lines up again at the back, as in the source.
- Serializer.AcceptsExactly: a `toJSON` that answers differently each time, or by the key it is given, is not modelled; neither is the path in the error message.
- Redrive.NeverLoses: runs over one topic follow one another, two at the same time are not modelled; the bound on `max` and the order of failure and commit rest on an adapter that honours concurrency 1, as the source assumes.
- Assigner.Assign: sorting is a function of the listing, by code unit, rather than the host's sort.
- ConsumerPipeline's asynchronous protocol (process, park, runBatch, handleBatch) is a machine of values, one event per stretch between awaits, because its state lives in suspended activations; its maps are a class. Transactions, start and stop, and redrive are modelled the same way.
- A rebalance that takes several partitions is one step a partition; a wall clock is whatever the environment says, except that a wait that was not cut short takes its time; on a lane, the due time of a retry message is not modelled, so any retry message may be due at once, waited for in the delivery, or parked.
- The wait of a handler's own transaction that is never awaited, and the error a transaction prefers when a send was fenced.
- Circuit breaker internals, the idempotency store, events, logging, health, lag and instrumentation wrappers other than the header hook.
- Broker.AppendPlaces: the partitioner's hash (murmur2) is a parameter of the broker, so which number a key hashes to is not stated.
- The OffsetCommit leader epoch: the scheduler keeps only whether one is known.
- The Confluent and KafkaJS-style translation, sockets, TLS and SASL options, admin polling and topic creation: foreign calls.
- Header bytes are text: UTF-8 decoding is taken to be the identity.
