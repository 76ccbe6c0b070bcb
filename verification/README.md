# QueueLens in Dafny

QueueLens inspects and empties RabbitMQ dead-letter queues: it reads messages without consuming
them, replays, parks or deletes them one by one or in approved batches, and lets policies do the
same on a schedule. This project models that recovery protocol and what surrounds it, and proves
what the design promises, first of all its one rule: a failed action never loses a message.

`dafny verify dfyconfig.toml` verifies everything.

How the modules build on each other:

- `Records` has the shared data. `Broker` is one queue with everyone who acts on it: ready and
  unacked messages, confirmed copies, and the events that may interleave in any way.
- `Session` is an AMQP channel as the code sees it: every call first lets everyone else act, then
  succeeds or raises, having been applied or not, with the channel open or closed afterwards.
- `QueueOrder`, `GrowingQueue`, `Browser`, `Operator` and `BulkOperator` are scans and actions: the
  loops of the source over such a channel, with what they leave behind on classic and quorum queues.
- `BulkService`, `BatchStore`, `DryRuns`, `OneShot`, `AuditedRuns` and `Fingerprints` are the two-phase
  bulk actions: what a dry run picks, the one-shot token, racing executes, the audit trail, identity.
- `XDeath`, `ReplayPlan`, `Backoff` and `PolicyRuns` are the replay policies: counting deaths on
  two broker generations, sorting, doubling waits, totals, the pause after three failed runs.
- `Coordination`, `Alerts`, `Snapshots`, `ScanReach`, `DeliveryGuard`, `LoginLimiter` and `Csv`
  are the machinery around them.

Nondeterminism stands for the network: which call fails, whether it was applied, what others do.
Times are microseconds, fingerprints numbers that compare as their digests do. Where a promise is
about a queue nobody else touches, the channel is `quiet`; where publishers may append to it
meanwhile, its log has only their events beside its own.

What the code does differently from what it or its documentation says, each with a proof:

- A whole scan that is refused because the queue grew while it was read has rotated a quorum queue,
  though browsing is said never to reorder (`Browser.RefusedScanReorders`; for every scan, with the
  exact condition, `GrowingQueue.GrownScan`). A message published while a scan gives back ends up
  between those it returned (`GrowingQueue.ScanKeepsOrderExactly`).
- `plan` raises on an x-death count that is no number, on a message that only its replay stamp
  counts, and on a wait beyond a timedelta (`ReplayPlan.BrokenWhen`, `UnreadableCountBreaks`,
  `StampAloneBreaks`, `LongWaitBreaks`). Its policy then neither acts nor counts a failure, however
  often it runs (`PolicyRuns.RunPolicy`, `KeepRunning`).
- A batch is to act on every fingerprint independently and to report what happened also when it
  breaks off (`message_operator.py` lines 146-152 and 212-216). It stops at the first message whose
  copy it cannot stamp, and its report is lost when the requeue of an unroutable message raises
  (lines 202-203), or the last one with anything but a closed channel (line 223); messages of it may
  have moved, and no audit row says so. `BulkOperator.OperateBulk` says exactly when,
  `BulkOperator.ReportsLost` shows it, and `AuditedRuns.ExecuteAudited` what is left on record.
- Only a whole scan is said to be refused (`message_browser.py` line 78). With a limit of 0 any scan is
  that finds a message (`Browser.Fetch`); the callers in the API ask for at least one.
- "It is back in the queue", reported when an ack raises, cannot be known: two runs with one report
  differ in it (`BulkOperator.NobodyCanTell`). What is sure is in `NotAcknowledgedMeans`.
- An unknown broker version is read as 3.x, "the stricter reading"; for a queue with nothing
  configured it is the laxer one (`DeliveryGuard.FooledExactly`, `UnknownVersionIsNotStricter`).
- The lock across replicas lasts as long as its database connection, which its holder does not
  notice losing (`Coordination.InsideTogether`, `LostConnectionBreaksIt`).
- A third failure leaves the policy on until its next run if its audit row or the pause cannot be
  written (`PolicyRuns.Finish`, `DeadRunLeavesItOn`, `NextRunSettles`).
- The pending clock of an alert is kept by rule id, which SQLite reuses
  (`Alerts.ReusedIdInherits`, `ReusedIdFiresEarly`). Two engines at a time may fire a rule the other
  found well in between, or close an incident under an older one's key (`Alerts.HoldingExactly`,
  `KeysExactly`); engines that take turns do neither (`LeadersFireRightly`,
  `LeadersCloseTheirIncidents`).
- The doubling waits add up only if a repeated death dates its x-death entry anew; both cases are
  proved (`Backoff.ParkedNoSooner`, `ParkedNoSoonerStale`, `StaleDatesShortenTheBackoff`).

## Model

| member | source | states |
|---|---|---|
| Broker.NoLoss | app/infrastructure/rabbitmq/message_operator.py:79-256 | No message is lost: in every interleaving of scans, actions and batches, with failures anywhere, a message that was once in the queue is still in it (ready or unacked), or confirmed at a target by a channel that was to remove it, or named by a delete |
| Broker.InOnePlace | app/infrastructure/rabbitmq/message_operator.py:79-256 | Nothing is doubled in the source queue either: each message is ready, unacked or acked, in exactly one of the three, at most once |
| Broker.RunAccounted | app/infrastructure/rabbitmq/message_operator.py:93-133 | The invariant behind both: every legal run from an accounted world stays accounted, and each acked message has a channel that was entitled to ack it |
| Broker.BrowsingNeverConsumes | app/infrastructure/rabbitmq/message_browser.py:112-131 | Runs in which every channel only browses ack and publish nothing, and once nothing is held the queue has exactly the messages it ever received |
| Broker.PutBackPlace | app/infrastructure/rabbitmq/message_browser.py:65-67 | A returned message goes to the end of a quorum queue, and in a classic queue behind everything before the first message that arrived later |
| Session.ForeignKeeps | app/infrastructure/rabbitmq/message_operator.py:93-133 | What other channels and publishers do never touches what a channel holds, its job or its confirmed copies |
| Session.Channel.Happened | app/infrastructure/rabbitmq/message_operator.py:112-118 | Every publish in a channel's history is confirmed at the target, and every acked message is out of the queue |
| Session.Channel.Safe | app/infrastructure/rabbitmq/message_operator.py:79-256 | In every state the code reaches through a channel, no message is lost |
| Session.Channel.Get | app/infrastructure/rabbitmq/message_browser.py:74-76 | basic.get: the head of the queue becomes held, or the queue is empty, or the call raises with the channel open or closed |
| Session.Channel.Publish | app/infrastructure/rabbitmq/message_operator.py:258-298 | A publish is confirmed, or comes back or is refused without a confirmed copy, or raises having arrived or not; which message, target and outcome it was stays on record |
| Session.Channel.Ack | app/infrastructure/rabbitmq/message_operator.py:115-116 | An ack of a moved or parked message needs this channel's own confirmed copy; one that raises may have been applied |
| Session.Channel.Nack | app/infrastructure/rabbitmq/message_browser.py:87-92 | A requeue keeps the channel's publishes and acks as they were; on a message no longer held it makes the broker close the channel |
| Session.Channel.Close | app/infrastructure/rabbitmq/message_operator.py:149-151 | Closing gives back everything still held and changes nothing else |
| QueueOrder.QuorumIsFifo | app/infrastructure/rabbitmq/message_browser.py:65-67 | Whoever acts on a quorum queue, as long as no channel closes with messages unacked: what was delivered is a prefix of what was there and what was appended since, and the rest is what is ready |
| QueueOrder.ClassicOrder | app/infrastructure/rabbitmq/message_browser.py:87-92 | A classic queue after any work of any channels that closed with nothing unacked, and any arrivals, is once nothing is held what it was and what arrived, without the acked messages |
| GrowingQueue.ActionOrder | app/infrastructure/rabbitmq/message_operator.py:108-122 | What a complete action or batch with only publishers beside it leaves behind: on a quorum queue, if nothing arrived after its first requeue, what was not read (arrivals included), then what it gave back itself, then the rest in read order; on a classic queue, with arrivals at any time, everything without what it acked |
| QueueOrder.ClassicStaysInOrder | app/infrastructure/rabbitmq/message_browser.py:87-92 | Arrivals, gets, acks and requeues in any order keep a classic queue in arrival order |
| Browser.Fetch | app/infrastructure/rabbitmq/message_browser.py:52-84 | fetch holds a prefix of what it is offered, in read order; it stops for exactly the reason it reports (depth, else memory, or nothing left) and refuses a whole scan of a queue deeper than the limit, before the first get or when the queue grew; no other scan refuses, unless its limit is 0 |
| Browser.Requeue | app/infrastructure/rabbitmq/message_browser.py:87-92 | requeue returns the unsettled messages in read order, but for the one to keep |
| Browser.ScanQueue | app/infrastructure/rabbitmq/message_browser.py:112-131 | A scan never publishes or acks, whatever fails; with only publishers beside it, a faultless one leaves a classic queue as it was, with what arrived, and, if they append before it gives anything back, also when it is refused for that, a quorum queue rotated by what was read, whose order is kept if and only if nothing was left unread; alone with its queue and without a fault it returns the first `limit` messages with `depth`, or all of them if there are fewer, and raises exactly if it is whole and the queue deeper than its limit (or the limit is 0), having read nothing |
| Browser.ListMessages | app/infrastructure/rabbitmq/message_browser.py:107-110 | The records of a scan, as the messages were read; without a fault it raises only over too deep a queue, and alone with its queue exactly then |
| Browser.RefusedScanReorders | app/infrastructure/rabbitmq/message_browser.py:78-79 | The run in which a depth-1 scan is refused on its second message and puts both it read behind the third |
| GrowingQueue.GrownScan | app/infrastructure/rabbitmq/message_browser.py:73-92 | Every scan, with arrivals before its first return: the queue with its arrivals, rotated by what was read; the order is kept exactly if nothing was left unread |
| GrowingQueue.ScanKeepsOrderExactly | app/infrastructure/rabbitmq/message_browser.py:73-92 | With publishers at work until the end: a scan that read anything keeps the order if and only if it left nothing unread and nothing arrived between its returns |
| GrowingQueue.ScanAmongPublishers | app/infrastructure/rabbitmq/message_browser.py:112-131 | The same of any finished scan of the code that had only publishers beside it |
| Browser.ScanOrder | app/infrastructure/rabbitmq/message_browser.py:65-67 | What any faultless read that gives everything back leaves behind beside publishers: a classic queue as it was, with what arrived, a quorum queue rotated by what was read |
| Browser.ReadQueue | app/infrastructure/rabbitmq/message_browser.py:123-128 | What scan and both kinds of action start with: what the declare found, and messages that are a prefix of an undisturbed queue, all of it at its end; alone and without a fault it is refused exactly over a whole read of too deep a queue |
| Operator.Operate | app/infrastructure/rabbitmq/message_operator.py:79-133 | A single action succeeds only with every step done: confirmed at this target and, but for a copy, gone from the source; if no call failed and it raised, nothing changed and the refusal was for its stated reason (too deep a queue, not found once, no usable target, a copy that came back or cannot be stamped); at most one copy is handed over, for this target; whatever failed, one message got a prefix of the action and no other was touched; with only publishers beside it the order of the others is kept on both kinds of queue, a copied message before them on a quorum queue; alone with its queue, a whole read that ends in a refusal leaves the queue as it was |
| Operator.OperateOn | app/infrastructure/rabbitmq/message_operator.py:102-130 | The steps once the messages are read: ensure the target, publish, then settle, then give back the rest |
| Operator.ActOn | app/infrastructure/rabbitmq/message_operator.py:108-120 | Publish comes before ack: the deeds on the message are a prefix of the action's steps, all of them if it returned; one copy is handed over for the target, exactly if the action publishes and its copy can be stamped, and what became of it is what is reported; it raises before the publish exactly if the copy is to be stamped and how often the message died cannot be told |
| Operator.EnsureTarget | app/infrastructure/rabbitmq/message_operator.py:229-247 | Unless a call fails, a target is refused exactly if its type or its names make it unusable; the source queue is not touched |
| Operator.Matches | app/infrastructure/rabbitmq/message_operator.py:97-100 | The matches are the scanned messages with the fingerprint, in read order |
| Operator.WithFpCounts | app/infrastructure/rabbitmq/message_operator.py:97-103 | Found uniquely means that exactly one place of the scan holds the fingerprint |
| Operator.RequeueUnprocessed | app/infrastructure/rabbitmq/message_operator.py:249-256 | Gives back what is unsettled in read order and stops quietly on a closed channel |
| Operator.Abandon | app/infrastructure/rabbitmq/message_operator.py:131-133 | The except branch: what was held goes back, publishes and acks stay as they were |
| Operator.StepsDeeds | app/infrastructure/rabbitmq/message_operator.py:108-118 | After k steps of an action its message has exactly the first k deeds, every other message none |
| BulkOperator.OperateBulk | app/infrastructure/rabbitmq/message_operator.py:135-227 | One result per approved fingerprint in sorted order, each true of what was done and of the copies handed over; successes are confirmed at this target and, but for copies, gone. If no call failed, each fingerprint up to the first whose copy cannot be stamped has the result it is due: not found, skipped as a duplicate, failed if its copy came back, and success in every other case; the rest is not attempted. It breaks off nowhere else but at a call that raised, and what comes after that is not attempted. It raises without having acted or tried to, on an unbroken channel for a stated reason, or because a requeue raised, that of an unroutable message or the last one with anything but a closed channel, and never returns after one of those: then approved messages got a prefix of the action and others nothing. With only publishers beside it, copied and unroutable messages come back in fingerprint order, before the rest in read order |
| BulkOperator.HandledOnce | app/infrastructure/rabbitmq/message_operator.py:183-211 | With no call failed and every count readable, a fingerprint found once has failed if and only if the one copy of its message came back; otherwise it has succeeded, with all of the action done and its copy confirmed at this target |
| BulkOperator.BreaksOffExactly | app/infrastructure/rabbitmq/message_operator.py:212-222 | A batch none of whose calls failed breaks off if and only if a message it is to stamp cannot be |
| BulkOperator.NothingFailed | app/infrastructure/rabbitmq/message_operator.py:172-224 | If moreover none of those is there and no copy came back, nothing in it failed or was left out |
| BulkOperator.Sorted | app/infrastructure/rabbitmq/message_operator.py:173 | The approved fingerprints, each once, in increasing order |
| BulkOperator.Groups | app/infrastructure/rabbitmq/message_operator.py:159-163 | The scanned messages by fingerprint, each group in read order |
| BulkOperator.Next | app/infrastructure/rabbitmq/message_operator.py:174-222 | One fingerprint: the report stays true, with the result that is due on an unbroken channel, and the batch goes on, halts or aborts as the failure demands |
| BulkOperator.NextUnique | app/infrastructure/rabbitmq/message_operator.py:184-222 | The branch for a fingerprint found once: publish, settle, report what came of it; an unroutable message goes back and the batch goes on, unless its requeue raises, which ends the batch; on an unbroken channel it succeeds unless its copy came back, and stops exactly at a message it cannot stamp |
| BulkOperator.WorkThrough | app/infrastructure/rabbitmq/message_operator.py:172-224 | The loop and its early end: everything up to where it stops is attempted, and the fingerprints after that are reported as not attempted, truly; it raises exactly if the requeue of an unroutable message did |
| BulkOperator.WorkAndReport | app/infrastructure/rabbitmq/message_operator.py:172-227 | The loop and what follows it: a report on the whole batch, or an exception exactly if a requeue raised that ends a batch |
| BulkOperator.ReportsLost | app/infrastructure/rabbitmq/message_operator.py:202-227 | Two ways to lose a true report, in one legal run: the first message has moved, and the requeue of the second, whose copy came back, or the last requeue raises |
| BulkOperator.ReportHalt | app/infrastructure/rabbitmq/message_operator.py:217-222 | A report that stops early and is filled up with not_attempted is still total and true |
| BulkOperator.BulkOrder | app/infrastructure/rabbitmq/message_operator.py:196-224 | Where the messages of a faultless batch end up beside publishers, on both kinds of queue |
| BulkOperator.SuccessesHappened | app/infrastructure/rabbitmq/message_operator.py:186-201 | Every reported success is confirmed at the target and, but for copies, gone from the source, also in batches that broke later |
| BulkOperator.NotAcknowledgedMeans | app/infrastructure/rabbitmq/message_operator.py:301-314 | Of every result that says a copied message is back in the queue, whoever else is at work: it is confirmed at the target, and exactly one of two holds, that it is in the queue (ready or unacked) or that it is acked |
| BulkOperator.NobodyCanTell | app/infrastructure/rabbitmq/message_operator.py:301-314 | Two runs that read and report alike, both truly: in one the message is gone, in the other it is back; so the text of _halted cannot be right in both |
| BulkOperator.BackUnlessAcked | app/infrastructure/rabbitmq/message_operator.py:301-314 | With only publishers beside it, the message is back exactly if the ack that raised was not applied |
| DryRuns.DryRun | app/application/bulk_service.py:127-205 | A dry run publishes and acks nothing. It approves a fingerprint if and only if a message of its scan (of the head window of a whole scan without a selection) carries it, holds the text and is selected, and counts those messages and the fingerprints that several of them carry; for the action asked for, and the target asked for before the configured one. Without a fault it raises only if there is no action or target, if the guard refuses, or over too deep a queue, and then stores nothing; alone with its queue it scanned what is visible there and leaves it as it was |
| DryRuns.DryRunThenExecute | app/application/bulk_service.py:127-254 | A dry run and its execute, two scans of a queue nobody else touches: whatever fails, execute touches only messages the dry run's filtered scan contained and sends copies only to its target; if no call fails and the target is usable, it runs; if moreover no copy comes back and every count is readable, nothing is not_found, succeeded plus skipped is the unique count, and skipped is the dry run's duplicates, or at least those if it was trimmed to the head window |
| DryRuns.BatchApproves | app/application/bulk_service.py:154-190 | The batch computed from a scan's records approves the fingerprints of its picks and counts them and their duplicates |
| DryRuns.ApprovedPlaces | app/application/bulk_service.py:161-190 | The same by places in the scan: which of them a dry run approves, and how many each count counts |
| DryRuns.ContainsExactly | app/application/bulk_service.py:163-165 | The filter on the payload keeps a message exactly if the text stands somewhere in its body |
| BulkService.Agreement | app/application/bulk_service.py:154-190 | The counting part of it, for one list of messages that both phases read |
| BulkService.CountsAddUp | app/application/bulk_service.py:233-242 | The five counts of a summary add up to the fingerprints requested |
| BulkService.CountsMean | app/application/bulk_service.py:233-242 | Each count of a summary is the number of results with its status |
| BulkService.FilterKeepsGroups | app/application/bulk_service.py:163-170 | The dry run's filters keep all copies of a fingerprint or none |
| BulkService.PickedGroups | app/application/bulk_service.py:161-175 | What the dry run picked is in the scan, in groups no larger; equal without the head window |
| BulkService.FoundCounts | app/application/bulk_service.py:233-242 | When every fingerprint is there and nothing fails, skipped counts the duplicated ones and the others succeed |
| BatchStore.Execute | app/application/bulk_service.py:207-254 | Execute touches the broker only for a live batch of its own scope that the guard lets pass; then it is one run of operate_bulk over just the approved fingerprints, with the batch's action, target and depth, and what it returns or raises is what that did, with the counts of its results; otherwise it raises for the stated reason and nothing is touched; it spends the token either way |
| BatchStore.Store.Take | app/application/bulk_service.py:114-119 | One-shot: a live batch is returned and gone; an expired or unknown one is not returned, whichever store |
| BatchStore.Store.Peek | app/application/bulk_service.py:121-125 | Looking does not spend; the database hides expired rows, the dictionary does not |
| BatchStore.TakenOnce | app/infrastructure/persistence/store.py:525-539 | A taken batch is not live again, and taking it leaves every other batch as it was |
| BatchStore.PayloadRoundTrip | app/application/bulk_service.py:38-80 | A batch read back from its stored payload is the batch that was stored |
| AuditedRuns.ExecuteAudited | app/application/bulk_runs.py:26-93 | No audit, no action: the broker is touched only after the attempt is on record. If every write works, the trail gets the attempt and then exactly what execute came to: one row per approved fingerprint in order with its true outcome and the counts, or the error; if one does not, the rows stop before it and the caller is told nothing else. A batch whose report is lost leaves no outcome row at all, though messages may have moved; the whole call is a run of the steps of OneShot, with the same store and an attempt and a touch in its log exactly when they happened |
| AuditedRuns.RecordResults | app/application/bulk_runs.py:78-92 | The rows after the broker: every result in order, then the batch; the first write that fails ends the trail there |
| AuditedRuns.RecordEnd | app/application/bulk_runs.py:52-93 | What is written and told after an execute: all of it, or the rows before the one that cannot be written |
| AuditedRuns.AuditTrail.Record | app/application/bulk_runs.py:42-47 | A row is appended, or the write fails, which is counted, and the trail is as before |
| AuditedRuns.OutcomesMatch | app/application/bulk_runs.py:78-85 | The rows say of each fingerprint, in order, what its result says |
| OneShot.OneShotScopedAudited | app/application/bulk_runs.py:34-51 | Over all interleavings of executes, dry runs, expiry and crashes, a batch reaches the broker at most once, only from the environment and vhost it was made in, as stored, and after a started row of the same run |
| OneShot.RunInv | app/application/bulk_service.py:210-222 | The invariant over every step of such interleavings |
| XDeath.Deaths | app/domain/xdeath.py:7-18 | The x-death counts, or one more than the stamp if that is more |
| XDeath.RoundTripGrows | app/domain/xdeath.py:7-18 | Every replay that dies again makes the count strictly larger, on 3.x and on 4.x; by how much exactly |
| XDeath.ExactOnV3 | app/domain/xdeath.py:7-18 | On 3.x the count is the true number of deaths, through any number of replays |
| XDeath.BoundedOnV4 | app/domain/xdeath.py:16-18 | On 4.x it never exceeds that number and equals it exactly when no round trip died more than once |
| XDeath.ReplaysBounded | app/application/replay_policies.py:67-82 | A message replayed only below max_deaths is replayed at most max_deaths - 1 times, fewer by what it had died before |
| XDeath.ExhaustedInTime | app/application/replay_policies.py:67-82 | After that many replays it counts enough to be parked |
| ReplayPlan.MakePlan | app/application/replay_policies.py:57-86 | The loop of plan sorts as its simple description says (per-verdict counts, the first min(cap, n) actionable messages, each target's list in queue order), or raises because of the first message for which that is right |
| ReplayPlan.JudgedExactly | app/application/replay_policies.py:60-79 | Which message gets which verdict, on its own fields: no history exactly without a death, parked exactly from max_deaths on; in between waiting exactly while its first latest death is nearer than the doubled backoff, then replayed exactly to the queue of that death, or to the configured target if that queue is unknown or the dead-letter queue itself, and without a target exactly if there is none configured |
| ReplayPlan.OldestFirst | app/application/replay_policies.py:60-86 | Up to some place of the queue a plan lists every message to park or to replay, under its own target, and none behind; in number the smaller of the cap and all there are; each count is the number of messages with its verdict |
| ReplayPlan.PlanCovers | app/application/replay_policies.py:60-86 | Every record is in exactly one bucket, so the counts and lists add up to the queue, and as many messages are acted on as the cap allows |
| ReplayPlan.WaitingShrinks | app/application/replay_policies.py:69-72 | Moving now later never makes more messages wait; every message that did not wait is sorted as before, and plan raises on the same ones |
| ReplayPlan.BrokenWhen | app/application/replay_policies.py:42-69 | When plan raises, exactly: a message with an x-death count that is no number or an infinite stamp, or below max_deaths one that only its stamp counts or whose doubled wait no timedelta holds |
| ReplayPlan.UnreadableCountBreaks | app/domain/xdeath.py:11 | One such header stops every policy, whatever the rest of the message |
| ReplayPlan.ReplaysGoBack | app/application/replay_policies.py:67-86 | Every fingerprint a plan lists under a target is of a message of the queue that has waited long enough after its last death, and goes to the queue of that death, or to the configured target if that is unknown or the dead-letter queue itself |
| ReplayPlan.StampAloneBreaks | app/application/replay_policies.py:42-43 | One such message: with a stamp, no x-death and max_deaths 3, every run of its policy raises |
| ReplayPlan.LongWaitBreaks | app/application/replay_policies.py:69 | Another within what the API accepts: backoff of a day, 31 of at most 100 deaths |
| ReplayPlan.ShortPoliciesFit | app/application/replay_policies.py:69 | With up to 31 deaths no backoff of a day or less is too long |
| ReplayPlan.LastDeathIsFirst | app/application/replay_policies.py:34-43 | The entry with the greatest time, the first of several; entries without one come before all others; there is one such place |
| Backoff.ParkedNoSooner | app/application/replay_policies.py:67-72 | With deaths that date themselves, a message seen with d deaths is parked after exactly max_deaths - d replays and no sooner than backoff * (2^(max_deaths-1) - 2^(d-1)) minutes |
| Backoff.WaitsAddUp | app/application/replay_policies.py:67-72 | The doubling waits over a run add up to that closed form |
| Backoff.ParkedNoSoonerStale | app/application/replay_policies.py:67-72 | If a broker leaves a repeated death's entry at its first date, only the last wait is sure to pass |
| Backoff.StaleDatesShortenTheBackoff | app/application/replay_policies.py:67-72 | And the sum then need not: a run with backoff 5 that parks after 10 minutes instead of 15 |
| PolicyRuns.ActOnPlan | app/application/replay_policies.py:189-204 | What a run counts as replayed, parked, failed and held is exactly the sum of what its bulk actions report and of what deserted targets would have got, and never exceeds what its plan lists; it counts a failure exactly if some target's or the parking batch failed; with no consumers anywhere everything is held |
| PolicyRuns.RunWithinCap | app/application/replay_policies.py:163-167 | So it never exceeds the cap |
| PolicyRuns.SelectionFits | app/application/replay_policies.py:207-228 | A bulk action on listed fingerprints reports on no more than were listed |
| PolicyRuns.Policies.Update | app/infrastructure/persistence/store.py:314-325 | The switch is as asked for, or as it was; enabling starts the failure count over, other edits keep it |
| PolicyRuns.Policies.RecordRun | app/infrastructure/persistence/store.py:339-350 | A failed run adds one to the count, any other clears it; a deleted policy counts nothing |
| PolicyRuns.Finish | app/application/replay_policies.py:230-279 | A stored run leaves its policy on with three failures or more if and only if it was on with them as stored and its audit row or the pausing write failed; a notification that fails raises too, with the policy paused; an outcome that cannot be stored changes nothing |
| PolicyRuns.RunPolicy | app/application/replay_policies.py:141-205 | A run from start to end: it raises out of the sorting exactly if the queue holds a message plan raises on, and then starts no bulk action and stores nothing; otherwise it acts on the plan for what it read, with one bulk action for each target that has consumers and one to park, its result is what those report, within its cap, and it is stored as Finish says; if its outcome, its audit row and the pause can be written, the policy is left settled |
| PolicyRuns.KeepRunning | app/application/replay_policies.py:114-135 | However often the loop comes round, while such a message is in the queue its policy acts on nothing, and its switch and failure count never change |
| PolicyRuns.CountIsStreak | app/infrastructure/persistence/store.py:339-350 | Over any runs, edits and toggles the stored count is the length of the failing streak since the last success or re-enable |
| PolicyRuns.PauseIsComing | app/application/replay_policies.py:242-255 | An enabled policy with three failures has a run on its way to pause it, or one that died on its way |
| PolicyRuns.EnabledMeansHealthy | app/application/replay_policies.py:254-255 | Between runs, if none died, enabled implies fewer than three failures in a row |
| PolicyRuns.DeadRunLeavesItOn | app/application/replay_policies.py:242-255 | A run that dies between recording and pausing leaves the policy on with three failures |
| PolicyRuns.NextRunSettles | app/application/replay_policies.py:242-256 | The next run that gets to its end puts that right |
| Coordination.InsideTogether | app/infrastructure/persistence/coordination.py:51-61 | Two tasks are inside one queue's lock only on two replicas, and then one of them has lost its database connection |
| Coordination.ExclusiveExactly | app/infrastructure/persistence/coordination.py:51-61 | All runs without a lost connection are exclusive if and only if the replicas share a PostgreSQL database or there is one replica |
| Coordination.LostConnectionBreaksIt | app/infrastructure/persistence/coordination.py:59-61 | A lost connection lets a second replica in beside the first |
| Coordination.NothingHeldWhenFree | app/infrastructure/rabbitmq/message_browser.py:122-130 | With the locks free no task has a channel on the queue and none of its messages is unacked |
| Coordination.EnteringFindsAll | app/infrastructure/rabbitmq/message_browser.py:122-130 | As long as whoever is inside has kept its database connection, whoever enters finds nothing of the queue unacked, so every scan starts from the full ready queue |
| Coordination.AloneInside | app/infrastructure/rabbitmq/message_browser.py:122-130 | While a task is inside and no connection is lost, every event on the queue is its own or a publisher's |
| Coordination.ScansAreUndisturbed | app/infrastructure/rabbitmq/message_browser.py:122-130 | So a scan or an action inside the lock starts with nothing unacked and has only publishers beside it, which is what the order results ask for; those on quorum queues also ask that nothing arrives after the first requeue |
| Coordination.OutsideHoldsNothing | app/infrastructure/persistence/coordination.py:51-61 | No path leaves a lock held: outside a task holds neither, and inside it can always take a step out |
| Coordination.RunKeeps | app/infrastructure/persistence/coordination.py:51-61 | The invariant over every run of the lock protocol |
| Coordination.Coordinator.IsLeader | app/infrastructure/persistence/coordination.py:63-85 | True exactly while this replica's session holds the election lock, taking it when free; otherwise no session is kept and nobody else's lock is touched; other replicas' beliefs stay right |
| Coordination.Database.TryLead | app/infrastructure/persistence/coordination.py:69-72 | A new session wins the lock if and only if nobody holds it |
| Alerts.AlertEngine.Evaluate | app/application/alert_engine.py:139-186 | _evaluate fires exactly if the rule is offended, has been for its duration by the engine's clock and is not fired in the list nor in the row; it recovers exactly if it is well and fired in both; the clock starts at the first offended look and is gone at the first that is not |
| Alerts.AlertEngine.EvaluateOnce | app/application/alert_engine.py:114-137 | A whole pass is a run of the step relation: one load, then one look per readable rule, with the same notes |
| Alerts.AlertRules.SetFired | app/infrastructure/persistence/store.py:168-178 | Compare-and-set: true only for the caller that changes the row |
| Alerts.FiringsAlternate | app/application/alert_engine.py:156-186 | Over restarts, edits and any number of overlapping engines, a rule's firings and recoveries take turns beginning with a firing, and the row says which came last and when |
| Alerts.FiresAfterHolding | app/application/alert_engine.py:158-164 | A rule fires only if the engine that fires it saw it offended at every look since one at least duration_seconds earlier |
| Alerts.PendingMeans | app/application/alert_engine.py:158-159 | What the pending clock of an engine means over its whole history |
| Alerts.RecoveryKey | app/application/alert_engine.py:26-36 | A recovery has the dedup key of the firing it closes exactly if the engine's list was read after it, or both firings fell into one second |
| Alerts.FiringsNamed | app/application/alert_engine.py:26-36 | Two firings of any run share a dedup key, as text, if and only if they are of one rule and in one second |
| Alerts.KeysExactly | app/application/alert_engine.py:176-185 | All runs from an empty database give every recovery the key of the firing it closes if and only if at most one engine evaluates the rules |
| Alerts.LeadersCloseTheirIncidents | app/application/alert_engine.py:100-107 | Engines that take turns, each forgetting its clocks and its list before it comes back, do so too |
| Alerts.TwoEnginesMisname | app/application/alert_engine.py:176-185 | From any start with two engines, a run whose recovery carries the key of an earlier incident |
| Alerts.ReusedIdInherits | app/application/alert_engine.py:157-159 | A rule that gets a deleted rule's id fires at its first look exactly if the deleted one had been offended for the new duration |
| Alerts.ReusedIdFiresEarly | app/application/alert_engine.py:157-159 | Such a run from an empty database, for any duration |
| Alerts.HoldingExactly | app/application/alert_engine.py:156-164 | In all runs from an empty database a rule fires only if every look at it, by any engine, since one at least duration_seconds earlier found it offended: if and only if at most one engine evaluates the rules |
| Alerts.LeadersFireRightly | app/application/alert_engine.py:100-107 | Engines that take turns, each forgetting its clocks before it comes back, fire like that too |
| Alerts.OtherLooksDoNotCount | app/application/alert_engine.py:156-164 | From any start with two engines, a run that fires a rule although the other engine found it well in between |
| Snapshots.Positions | app/application/snapshots.py:35-38 | The positions are the deepest index of each fingerprint |
| Snapshots.SnapshotStore.Add | app/application/snapshots.py:91-109 | Prune, append, drop the oldest beyond four |
| Snapshots.SnapshotStore.Get | app/application/snapshots.py:111-118 | Only an unexpired snapshot of the asked scope and queue, as it was added; a hit becomes the newest |
| Snapshots.SnapshotStore.Prune | app/application/snapshots.py:120-123 | Exactly the expired ones go, the order of the others stays |
| Snapshots.FewAndUnique | app/application/snapshots.py:91-109 | Never more than four entries, each one that was added, no id twice |
| Snapshots.Remembered | app/application/snapshots.py:91-118 | An unexpired snapshot is found, unchanged, while fewer than four others were added or read since its last use |
| ScanReach.EffectiveLimit | app/api/routes/messages.py:27-32 | A limit is between one and its ceiling, and what was asked for if that is within |
| ScanReach.Deepest | app/api/routes/messages.py:60 | The greatest position of the picked fingerprints, or -1 if the snapshot has none |
| ScanReach.ScanDepth | app/api/routes/messages.py:48-62 | Without a snapshot the window; with one the deepest of the picked messages and the window as slack, within the browse depth, and no more than that |
| ScanReach.MovesUp | app/api/routes/messages.py:51-53 | A message of a classic queue sinks by no more places than messages came back ahead of it |
| ScanReach.ReadsAllCopies | app/api/routes/messages.py:48-62 | An action reads every copy a snapshot saw that is still there, if the depth was not lowered and no more messages came back ahead of it than fit |
| ScanReach.SnapshotReach | app/api/routes/messages.py:48-62 | The same over any run of publishers, consumers and channels, closing ones included if their messages go back in place: enough that others held no more messages at snapshot time than the slack |
| ScanReach.CameBackWereHeld | app/api/routes/messages.py:51-53 | Only messages someone held when the snapshot was taken can come back ahead of its copies, if closing channels put messages back in place |
| ScanReach.SnapshotReachAlone | app/api/routes/messages.py:48-62 | With nobody else holding messages at snapshot time it reads all of them |
| ScanReach.ReachesAllExactly | app/api/routes/messages.py:48-62 | On a queue that is as the snapshot saw it, an action reads all the copies it is about if and only if the browse depth is still beyond the deepest of them |
| ScanReach.ScanDepthWithinLimits | app/api/routes/messages.py:22-32 | With both limits within their ceilings an action may read at least one message, and with a snapshot no more than the browse depth |
| DeliveryGuard.LimitMeansKeeps | app/application/queue_service.py:20-44 | The computed limit is the number of returns a message survives under the brokers' rules, on both generations |
| DeliveryGuard.LastsForItsLimit | app/application/queue_service.py:20-44 | An untouched message lives through exactly as many whole scans as the limit says |
| DeliveryGuard.HarmlessWithoutLimit | app/application/queue_service.py:20-44 | Any number of whole scans keeps a queue's messages and their order if and only if no limit is computed |
| DeliveryGuard.GuardExactly | app/application/queue_service.py:52-96 | What assert_browsable says, and when: a quorum queue passes, to be read whole, exactly if its statistics are there, no number of scans harms it on the version reported, and it is within the byte budget; each refusal exactly for its reason; a classic queue passes |
| DeliveryGuard.GuardIsSound | app/application/queue_service.py:52-96 | Any number of whole scans of a queue assert_browsable accepts loses nothing, also if its policy was not visible yet, on a broker of the generation it reports |
| DeliveryGuard.FooledExactly | app/application/queue_service.py:13-17 | With a wrong version it accepts a queue that loses messages in exactly two cases |
| DeliveryGuard.UnknownVersionIsNotStricter | app/application/queue_service.py:13-17 | Reading an unknown version as 3.x is not the stricter choice: a 4.x default limit goes unseen |
| LoginLimiter.Limiter.Authenticate | app/auth/basic.py:57-74 | Every request is answered as if no failure had ever been deleted, by the earlier requests and their answers alone: refused exactly after 10 failed ones of its address and user, or 50 of its address, in the last 60 seconds, and let in exactly if it is not refused and its password is right |
| LoginLimiter.LoginFailures.Add | app/infrastructure/persistence/store.py:368-374 | The new rows are there and exactly the rows before the cutoff are gone |
| LoginLimiter.WindowHolds | app/auth/basic.py:21-74 | No 60 seconds (open at the start) hold more than 10 failed requests of an address and username, nor 50 of an address |
| LoginLimiter.RefusedExactly | app/auth/basic.py:57-67 | A request is refused if and only if the 60 seconds before it hold that many failed ones |
| LoginLimiter.CountsFailures | app/auth/basic.py:70-74 | A request with credentials that is answered Unauthorized is on record once for its user and once for its address, at its time; no other request is |
| LoginLimiter.LocksEnd | app/auth/basic.py:57-74 | A request is not refused after 60 seconds without a failed one |
| LoginLimiter.SinceCounts | app/infrastructure/persistence/store.py:359-374 | Deleting rows before a cutoff changes no count from the cutoff on |
| Csv.ExportRoundTrips | app/api/routes/audit.py:50-61 | The whole export reads back, by section 2 of RFC 4180, as the header and every event's formula-neutralised texts, field for field, whatever they hold |
| Csv.ReadLine | app/api/routes/audit.py:56-61 | One line reads as one row with as many fields |
| Csv.ReadCell | app/api/routes/audit.py:34-38 | One cell reads as its neutralised text, with commas, quotes and line breaks |
| Csv.Neutral | app/api/routes/audit.py:35-37 | No text that begins like a formula; otherwise unchanged, and nothing for a missing value |
| Csv.Export | app/api/routes/audit.py:50-61 | The stream's loop writes the header and a line for every event in order |
| Fingerprints.FingerprintIdentifies | app/domain/fingerprint.py:12-32 | Two deliveries have one fingerprint exactly if they agree in everything but x-delivery-count |
| Fingerprints.LookingKeepsFingerprint | app/domain/fingerprint.py:6-9 | However often a queue is previewed, a fingerprint stays |
| Fingerprints.DeathChangesFingerprint | app/domain/fingerprint.py:20-31 | Another death or a replay's stamp makes it another message |
| Fingerprints.QueuesIdentify | app/domain/fingerprint.py:20-31 | Equal fingerprints in a queue mean equal bodies, which dry run and execute rely on to agree |

## Left out

- FastAPI routes, request models, middleware, status codes and the web front end: plumbing around the core.
- The network clients (RabbitMQ connection, Management API, mailer, webhooks) and metrics: their outcomes are nondeterministic or parameters.
- SHA-256, JSON, base64, zlib, PBKDF2 and Fernet: a fingerprint is an injective function of its identity, payload decoding is not modelled.
- `_milliseconds` and message properties of a republished copy: they do not decide where a message ends up.
- The order in which a broker puts back what a closing channel held: any position, so only conservation is proved there.
- Failures to open a channel or to take the lock: nothing has been touched yet. Cancellation counts as a call that raises.
- An ack that reaches the broker after its channel is already treated as closed: the broker applies it before, or not at all.
- Session.Channel.Publish: a confirmed publish counts as at the target for good. A publish the broker refuses may have reached some of the queues its exchange is bound to; such a copy is not confirmed and not counted.
- A target that is the source queue itself: its copies would arrive in the queue they came from, which `quiet` excludes.
- AuditedRuns.ExecuteAudited: nobody else writes to the store between its peek and its take; executes that race are in `OneShot`. Headers, durations and metrics are not modelled.
- `parse_x_death`: an entry's time is a time or missing, its queue a name or missing. Rounding a wait to microseconds, and counts so far below zero that Python's float of them overflows.
- The message list and `Snapshot.matching` also add up x-death counts, and so also raise on one that is no number.
- PolicyRuns.Policies.Update: each write to a policy row is one step; a lost update between two overlapping runs of one policy is not modelled.
- PolicyRuns.RunPolicy: reading the consumers of each target and the preview branch; a queue without consumers is a parameter.
- `run_due`, the interval of policies, and the sleep between ticks: when a run starts is left open.
- Coordination: consumers of the queue other than QueueLens; fairness of the lock and waiting; lock keys are one per queue, so hash collisions (which only make tasks wait) do not occur.
- Coordination.Coordinator.IsLeader: a connection that fails between winning the lock and being remembered is a session that ended.
- Alerts: matching queues by pattern, comparing a metric with a threshold and choosing channels; an evaluation is told whether the rule offends. A process that dies between the compare-and-set and `_fire` tells nobody.
- Alerts.FiresAfterHolding: the looks are those of the engine that fires; what all engines' looks are worth is in `Alerts.HoldingExactly`.
- `Snapshot.matching` and `meta`: a filter and a record of fields.
- ScanReach.SnapshotReach: a broker that puts the messages of a closing channel anywhere else than in their old places.
- DeliveryGuard: argument and policy stay as they are between the guard and the scans; the size limit is checked, not what a scan holds in memory.
- LoginLimiter.WindowHolds: the window is open at its start, because a row exactly 60 seconds old is not counted; requests that overlap are not modelled.
- Csv: values that are not text (ids, timestamps) are the text Python makes of them. The JSON export is not modelled.
- Settings, users, notifications, environments, topology and severity labels: single facts with little state.
