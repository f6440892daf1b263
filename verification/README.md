# Verification of the LMS backend

A Dafny model of the parts of the backend with the most state: the payment and
entitlement worker, course versioning and duplication, the realtime hub, SCORM
runtime tracking, sort-order spacing and the fixed-window rate limiter, with
proofs about every run, every interleaving or every input of each.

`dafny verify dfyconfig.toml` checks the whole project.

## How it is laid out

| files | what they model |
|---|---|
| `CommerceTables`, `CommerceHandlers`, `CommerceSteps` | The tables as values; what each webhook event, sweep item and request handler does to them as one update; runs as sequences of such steps |
| `CommerceWorker`, `CommerceSweeps` | The worker as classes that change rows statement by statement in a transaction; every handler is proved to have the effect of the one-update specification. The single statements it is made of (`CreatePayment`, `SetAccessStatus` and the like) each say which row they change |
| `CommerceEffects`, `CommerceInvariants`, `CommerceRuns`, `CommerceSecondGrant`, `CommerceRedelivery` | The few ways a step can change the tables, what every step keeps, and what follows for every run |
| `CommerceOutcomes` | What each event, sweep item and request answers, column by column, without the one-update specification; what it means over runs for who paid and who was refunded |
| `CommerceDelivery` | The idempotency table, the queue and the worker's three separate steps, with crashes and redelivery |
| `CourseContent`, `CourseStore`, `CourseDuplicate` | Flat tables and nested trees; snapshot, restore and duplicate as nested loops over a mutable store |
| `RealtimeHub` | Rooms, clients and channels; each critical section is a step, and what a goroutine still has to do is an outstanding task |
| `ScormAttempts`, `ScormDurations`, `ScormRuntime` | Attempts and their commits; the duration parsers; the fold of elements into a status |
| `SortOrder`, `RateLimit` | Fractional sort orders; the shared counter with its expiry |
| `Common` | Optional values and counting rows |

## What the model takes as given

- A database transaction is one atomic step: transactions are serialised. The code takes no row locks, so this is an assumption about the database.
- A row's id is its position (commerce) or a fresh number (course content). Rows of the commerce tables are never deleted.
- Where SQL leaves open which of several matching rows a lookup returns, a `Plan` names one; theorems hold for every plan.
- The in-app refund action's step is the insertion of its row. Its check for earlier refunds comes before its call to the provider (`internal/httpserver/handlers/commerce_refunds.go:74-106`), so other transactions may come between the two.
- Two deliveries have the same payload when their JSON structure is the same (`internal/models/webhook_event.go:56-69`): `Payload` stands for that structure and the event parsed from it.
- A Redis command is carried out and answered, not carried out, or carried out with its answer lost. A client that tries a lost INCR again is a lost INCR followed by another.
- Events arrive verified and parsed. A body without the entity an event needs is the event `EntityMissing`; time, and the roster order a map iteration gives, are parameters.
- Checkout (`internal/httpserver/handlers/commerce_checkout.go:352-560`), enrolment (`internal/httpserver/handlers/learner.go:24-82`), admin grants and refund requests (`internal/httpserver/handlers/commerce_refunds.go:37-220`) and edits of offers, courses and codes are steps that may come at any time. Checkout gives an order a provider id no other order has and no payment row.
- Deleting a chapter deletes its lessons and blocks, as the foreign keys of `db/migrations/000003_course_domain.up.sql` say.
- ORDER BY sort_order leaves ties open. That a restore reproduces the very tree it started from is proved when no siblings tie; that it reads back as that tree is proved always.
- Sort orders, decimal numbers and amounts are exact; counters and durations are unbounded integers. The one 64-bit product whose overflow matters, the access period in nanoseconds, wraps around as the code's does.

## Where the code differs from what it says or promises

- An order is said to have at most one entitlement (`internal/models/entitlement.go:94-99`). `payment.failed` moves a succeeded order to failed (`internal/worker/payments.go:440-469`), after which a capture grants again. `SecondGrantIff` says exactly in which runs this happens; a run is given.
- Repeating a refund event is harmless except when it leaves a second row with the same provider id in another state: `RepeatsSafelyIff`. The column has no UNIQUE constraint, and the in-app refund action can insert its row after the webhook has inserted one: `TwinReached` gives a run.
- `remove` may take a room off the index that was joined again, and `Add` may join one that was taken off, so clients of one room name can be in different rooms: `IndexedIff` says which steps do this, `RoomCanSplit` gives a run.
- A score with spaces around it is accepted by validation, which trims it, and lost by `Summarize`, which does not: `ScoreRecordedIff`.
- The limiter is described as a sliding window. It is a fixed one: `SlidingIff` says exactly for which limits and windows it keeps the sliding promise, `LimitHolds` and `BoundIsReached` what it keeps otherwise.
- A key is said to recover after its window. An EXPIRE that is not carried out, or an INCR whose answer is lost, leaves a counter that never expires: `StuckRunIff` and `RecoversIff` say exactly when, `StuckLocksOut` what follows, `StuckReached` gives runs.

## Model

| member | source | states |
|---|---|---|
| `CommerceInvariants.InvKept` | internal/worker/payments.go:250-797 | Every step (seven event types, both sweep items, checkout and staff actions) keeps all invariants at once: foreign keys, access safety, one payment row per order that agrees with its status, conservation of entitlements, one logged end per entitlement, one entitlement per capture |
| `CommerceInvariants.InvHolds` | internal/worker/payments.go:169-232 | The invariants hold after every run of steps from empty tables |
| `CommerceRuns.ActiveAccessIsEntitled` | internal/worker/payments.go:319-343 | In every reachable state an active access row that names an entitlement names an active one of that learner and course, however many purchases the learner holds |
| `CommerceRuns.AccessLost` | internal/worker/payments.go:492-531 | A step makes an access row stop being active only if it is refund.processed, dispute lost or an expiry, and then it ends an entitlement of that same learner and course |
| `CommerceRuns.AccessLostInRun` | internal/worker/entitlements.go:47-90 | Over any run that ends without the access it began with, there is such a step and such an entitlement |
| `CommerceRuns.GrantsUntouched` | internal/worker/payments.go:668-797 | Failed payments, failed refunds, opened and won disputes and abandoned orders leave entitlements, access rows and audit events exactly as they are |
| `CommerceRuns.PaymentRowDecides` | internal/worker/payments.go:280-304 | In every reachable state an order has at most one payment row; a provider order is succeeded (failed) exactly when that row is; open and abandoned orders have none |
| `CommerceRuns.OrderMoves` | internal/worker/payments.go:440-469 | The only changes of an existing order: to succeeded by payment.captured, to failed by payment.failed (from succeeded too), to abandoned by the sweep and only from an open status |
| `CommerceRuns.ReplayGivesStatus` | internal/worker/orders.go:49-84 | Replaying an order's captured, failed and abandoned audit rows, each starting from the status the previous one left, leads from the status checkout gave it to the status it has |
| `CommerceRuns.EntitlementsConserved` | internal/worker/payments.go:361-381 | In every reachable state active entitlements equal grants less revocations less expiries, counted off the audit log (and the free orders) |
| `CommerceRuns.OneEntitlementPerCapture` | internal/worker/payments.go:319-369 | A provider order has exactly as many entitlements as payment.captured audit rows |
| `CommerceRuns.EntitlementEndsForGood` | internal/worker/payments.go:500-528 | Over any run an entitlement keeps its learner, course, order and expiry, and once revoked or expired never changes again |
| `CommerceRuns.EntitlementLeavesActiveOnce` | internal/worker/entitlements.go:61-87 | The audit log has exactly one end of each entitlement that is not active and none of one that is |
| `CommerceSecondGrant.AtMostOneEntitlement` | internal/models/entitlement.go:94-107 | In a run in which payment.failed never finds the order succeeded, the order has at most one entitlement, which is what the comment here says of every run |
| `CommerceSecondGrant.NoReturnOfAccess` | internal/worker/payments.go:271-276 | In such a run, once the order's entitlement is revoked or expired no later step makes any entitlement of the order active |
| `CommerceSecondGrant.SecondGrantIff` | internal/worker/payments.go:440-469 | An order has more than one entitlement after a run if and only if in that run payment.failed found it succeeded and a later step captured it |
| `CommerceSecondGrant.CaptureGrantsIff` | internal/worker/payments.go:271-276 | From any state a captured event adds an entitlement for the order if and only if the order is not succeeded and its offer and course exist; otherwise it adds none |
| `CommerceSecondGrant.FailThenCaptureGrantsAgain` | internal/worker/payments.go:420-484 | From any state with a succeeded order, a late payment.failed and another capture grant it once more |
| `CommerceSecondGrant.PaidOrderReachable` | internal/worker/payments.go:250-414 | A run of three steps that reaches such a state |
| `CommerceRedelivery.RedeliveryHarmless` | internal/worker/payments.go:169-232 | From any tables, handling any event again right after its transaction committed commits, changes no table and owes no second receipt, when the lookups return the same rows |
| `CommerceRedelivery.RedeliveryHarmlessAnyPlan` | internal/worker/payments.go:585-589 | The same whichever rows the lookups return the second time, when no two rows carry one provider id |
| `CommerceRedelivery.RefundRedeliveryIff` | internal/worker/payments.go:567-593 | Repeating refund.processed is harmless for every choice of rows if and only if no other refund row with that provider id is left that has not succeeded |
| `CommerceRedelivery.RefundFailedRedeliveryIff` | internal/worker/payments.go:619-663 | Repeating refund.failed is harmless for every choice of rows if and only if no other refund row with that provider id is left that has not failed |
| `CommerceRedelivery.RepeatsSafelyIff` | internal/worker/payments.go:181-189 | In every reachable state of a run in which each payment id belongs to one order id, for every event: repeating it at once, whichever rows the lookups return, does nothing if and only if it is not a refund event that leaves such a twin row. Nothing is assumed of when refund rows come |
| `CommerceRedelivery.TwinReached` | internal/httpserver/handlers/commerce_refunds.go:74-106 | A run that leaves a twin: a paid order, refund.processed for an unknown refund id, then the row of the in-app action with that id. Repeating the event there finds the twin and changes it |
| `CommerceRedelivery.RefundsStayDistinct` | internal/httpserver/handlers/commerce_refunds.go:96-106 | In a run in which the in-app action inserts its row before any other has the refund id, no two refund rows ever carry one id |
| `CommerceRedelivery.RepetitionDoesNothing` | internal/worker/payments.go:181-189 | So in every reachable state of such a run repeating any event at once does nothing; the other runs are those of RepeatsSafelyIff |
| `CommerceOutcomes.EveryEventAnswers` | internal/worker/payments.go:169-797 | For every event and every choice of matching rows, in terms of columns: which order, payment, refund or chargeback the event finds by its provider id, what becomes of each table, and when it is an error |
| `CommerceOutcomes.PaymentCapturedAnswers` | internal/worker/payments.go:250-414 | A captured payment of an unsettled order gives the order's learner exactly one entitlement more, active, to the course of the offer bought, points that learner's access row at it, settles order and payment row, redeems the code below its cap, writes both audit rows, and owes a receipt with that learner, course and title |
| `CommerceOutcomes.ExpirySold` | internal/worker/payments.go:311-317 | An entitlement expires only if a subscription with days was sold, and then that many days of nanoseconds from now, modulo 64 bits; exactly that for up to 106751 days |
| `CommerceOutcomes.PaymentFailedAnswers` | internal/worker/payments.go:420-484 | payment.failed moves any order that is not failed, open, abandoned or succeeded, to failed with its payment row and an audit row, and changes no access |
| `CommerceOutcomes.RevokeTakesBack` | internal/worker/payments.go:492-531 | Where the lookup finds an active entitlement it is revoked, no other changes, the access of its learner to its course is not active afterwards, and one row names it; else nothing changes |
| `CommerceOutcomes.RefundProcessedAnswers` | internal/worker/payments.go:546-614 | A processed refund that had not succeeded is recorded with its amount in major units, takes back what the payment bought, and is logged; nothing else changes |
| `CommerceOutcomes.RefundFailedAnswers` | internal/worker/payments.go:619-663 | A failed refund is marked and logged with its old status, and takes nothing back |
| `CommerceOutcomes.DisputeCreatedAnswers` | internal/worker/payments.go:668-721 | Once a dispute is opened the payment's newest chargeback is pending: a new one with the event's amount over 100 and reason, unless it was so before |
| `CommerceOutcomes.DisputeResolvedAnswers` | internal/worker/payments.go:727-797 | The newest chargeback, or a new one, becomes won or lost and is logged with what it was; lost takes back what the payment bought, won takes nothing |
| `CommerceOutcomes.UnknownRowsRejected` | internal/worker/payments.go:256-265 | An event about a row that is not there is an error, except a failed refund; an error changes nothing |
| `CommerceOutcomes.PaidMeansAccess` | internal/worker/payments.go:319-343 | From a capture on, over every run in which no step ends an entitlement of that learner to that course, the learner who paid has active access to the course of the offer bought |
| `CommerceOutcomes.RefundEndsAccess` | internal/worker/payments.go:492-531 | Once a refund is processed or a dispute lost, what the payment bought is never active again, and its learner has no access to the course over every run until one gives that learner a new entitlement to it |
| `CommerceOutcomes.AccessGained` | internal/models/learner_course_access.go:46-84 | Access comes about, or back, only with a new entitlement to that course, or by enrolment where there was no row |
| `CommerceOutcomes.SweepItemsAnswer` | internal/worker/orders.go:49-84 | A sweep item ends an open order, or an active entitlement at or past its expiry with its access, in columns, and nothing else |
| `CommerceOutcomes.CheckoutAnswers` | internal/httpserver/handlers/commerce_checkout.go:436-560 | Paid checkout places an order and gives access to nothing; a free offer's gives its course to the learner and redeems the code |
| `CommerceOutcomes.StaffAnswers` | internal/httpserver/handlers/commerce_refunds.go:96-205 | Whom an enrolment, an admin grant and a refund request are for, and what rows they write |
| `CommerceWorker.Worker.HandlePaymentCaptured` | internal/worker/payments.go:250-414 | Step by step in a transaction: payment row, order status, entitlement, access, redemption, both audit rows, receipt; equals the one-update specification, and an error leaves tables and receipts as they were |
| `CommerceWorker.Worker.HandlePaymentFailed` | internal/worker/payments.go:420-484 | Likewise for a failed payment, from any order status but failed |
| `CommerceWorker.Worker.RevokeEntitlementForPayment` | internal/worker/payments.go:492-531 | If the order lookup finds an active entitlement, it is revoked, the access of its learner to its course with it, and one row says so; else nothing changes; returns whether it did |
| `CommerceWorker.Worker.HandleRefundProcessed` | internal/worker/payments.go:546-614 | Finds or creates the refund, marks it succeeded, revokes, logs with the fixed old state; nothing when it had succeeded |
| `CommerceWorker.Worker.HandleRefundFailed` | internal/worker/payments.go:619-663 | Marks a known refund failed and logs its old state; an unknown one is no error |
| `CommerceWorker.Worker.HandleDisputeCreated` | internal/worker/payments.go:668-721 | Creates a pending chargeback unless the latest is pending; touches nothing else but the audit trail |
| `CommerceWorker.Worker.HandleDisputeResolved` | internal/worker/payments.go:727-797 | Settles the latest (or a new) chargeback as won or lost; only lost revokes |
| `CommerceWorker.Worker.HandleEvent` | internal/worker/payments.go:200-224 | Dispatches to the seven handlers; an unrecognised event is acknowledged. What is left is what EveryEventAnswers says in columns |
| `CommerceWorker.Transaction.SettlePayment` | internal/worker/payments.go:280-304 | Creates the order's payment row or updates its latest, so rows of other orders stay |
| `CommerceWorker.Transaction.GrantEntitlement` | internal/worker/payments.go:319-343 | Creates an entitlement and creates or repoints the one access row of that learner and course |
| `CommerceWorker.Transaction.SettleRefund` | internal/worker/payments.go:567-593 | Finds the refund by provider id or creates it, and marks it succeeded unless it was |
| `CommerceWorker.Transaction.SettleChargeback` | internal/worker/payments.go:748-774 | Finds the latest chargeback or creates one, and gives it the final status unless it has it |
| `CommerceWorker.Transaction.RedeemCode` | internal/worker/payments.go:345-359 | An exhausted or missing code does not fail the capture |
| `CommerceWorker.Transaction.IncrementRedemption` | internal/models/discount_code.go:144-160 | Check and increment: succeeds exactly when below the cap, and never passes the cap |
| `CommerceSweeps.Sweeper.AbandonOneOrder` | internal/worker/orders.go:49-84 | Reads the order again in its transaction and abandons it only if it is still open |
| `CommerceSweeps.Sweeper.SweepAbandonedOrders` | internal/worker/orders.go:32-47 | Undisturbed, abandons exactly the open orders older than 30 minutes, one audit row each in listing order, and changes no other row |
| `CommerceSweeps.Sweeper.ExpireOneEntitlement` | internal/worker/entitlements.go:47-90 | Reads the entitlement again and expires it, and the access of its learner and course, only if it is still active and past its expiry |
| `CommerceSweeps.Sweeper.SweepExpiredEntitlements` | internal/worker/entitlements.go:29-45 | Undisturbed, expires exactly the entitlements listed as lapsed and exactly the access rows of their learners and courses, one audit row each |
| `CommerceSweeps.AbandonAllIs` | internal/worker/orders.go:36-46 | The loop over distinct open orders as a whole |
| `CommerceSweeps.ExpireAllIs` | internal/worker/entitlements.go:34-44 | The loop over distinct lapsed entitlements as a whole, for any clock that does not go back |
| `CommerceSweeps.StaleAbandoned` | internal/worker/orders.go:32-47 | An order is abandoned by an undisturbed sweep exactly when it is open and more than half an hour old; every other order stays as it is |
| `CommerceSweeps.LapsedExpired` | internal/worker/entitlements.go:29-45 | Every active entitlement past its expiry is expired with the access of its learner to its course, and no other entitlement or access row changes |
| `CommerceDelivery.TryRecord` | internal/models/webhook_event.go:43-53 | Inserts exactly when no row has the event id, and says so |
| `CommerceDelivery.TablesFollowARun` | internal/worker/payments.go:181-230 | With lookup, transaction, receipt and marking as separate steps, crashes, redeliveries and other transactions in between, the tables are always those of some run of steps |
| `CommerceDelivery.ReceiptsPerCapture` | internal/worker/payments.go:390-413 | No interleaving, crash or redelivery queues more receipts for an order than it has payment.captured rows |
| `CommerceDelivery.AtMostOneReceipt` | internal/worker/payments.go:390-413 | Over any interleaving in which no payment.failed finds the order succeeded, at most one receipt is queued for it |
| `CommerceDelivery.NothingIsSkipped` | internal/worker/payments.go:181-230 | In every interleaving a row is marked processed, and a job ends, only after a transaction of an event with that payload committed |
| `CommerceDelivery.CrashWindowHarmless` | internal/worker/payments.go:226-230 | A worker that stops after its transaction committed and runs the job again changes no table and no event and owes no receipt, whatever row the lookup finds then, whether or not the first receipt was handed over or queued |
| `CommerceDelivery.NewEventIsHandled` | internal/worker/payments.go:169-232 | A new event delivered and handled without a stop ends with the tables and the receipt of its handling and its row marked; or, on an error, waits with nothing changed |
| `CommerceDelivery.DeliveryRecords` | internal/models/webhook_event.go:43-53 | An event whose id is known is neither recorded nor queued again |
| `CommerceDelivery.GateStopsProcessed` | internal/worker/payments.go:181-189 | Once the latest row with the payload is marked, a redelivered job ends at the gate |
| `CommerceDelivery.Consumer.Consume` | internal/worker/payments.go:169-232 | Skips a processed payload; otherwise handles it and marks it exactly when the handler did not fail |
| `CommerceDelivery.Consumer.Record` | internal/models/webhook_event.go:43-53 | The insert-if-absent as a method |
| `CourseStore.Store.Snapshot` | internal/models/course_version.go:59-107 | Three nested loops; appends one version whose number is one more than the versions the course has and whose tree is what the live rows read back as; fails only without the course |
| `CourseStore.Store.Restore` | internal/models/course_version.go:148-201 | The live rows read back as the restored tree, the new version stores it (equal to it when no siblings tie), earlier versions and every other course are untouched, and every new row is the restorer's; fails exactly on a missing version or course or another course's version |
| `CourseStore.RestoreThenUndo` | internal/models/course_version.go:148-201 | Restoring the snapshot taken just before a restore undoes it: the course reads back as exactly the tree it had and shows exactly the blocks it showed, content and place, and all earlier versions are still there |
| `CourseStore.Store.ReplaceContent` | internal/models/course_version.go:162-198 | Deleting and re-inserting leaves live rows that read back as the snapshot, and the rows of other courses as they were |
| `CourseStore.Store.DeleteChapters` | internal/models/course_version.go:162-164 | Deletes the chapters of the course with their lessons and blocks and nothing of another course |
| `CourseStore.Store.InsertChapters` | internal/models/course_version.go:166-193 | Fresh rows that read back as the given chapters; the rows there were stay |
| `CourseStore.Store.InsertLessons` | internal/models/course_version.go:175-192 | The same for the lessons of one chapter |
| `CourseStore.Store.InsertBlocks` | internal/models/course_version.go:184-191 | The same for the blocks of one lesson |
| `CourseStore.Store.ReadChapters` | internal/models/course_version.go:71-89 | What is read lists every chapter of the course once in sort order, and each one's lessons and blocks likewise |
| `CourseStore.Store.ReadLessons` | internal/models/course_version.go:72-87 | The same for the lessons of one chapter |
| `CourseStore.Store.ReadBlocks` | internal/models/course_version.go:78-85 | The same for the blocks of one lesson |
| `CourseStore.Store.OrderBySortOrder` | internal/models/chapter.go:41-57 | Any order ORDER BY sort_order may return: each row once, never decreasing |
| `CourseStore.NumbersOneToN` | internal/models/course_version.go:96-99 | A number from 1 to the count of a course's versions is the number of one of them, and no other number is |
| `CourseStore.NumbersIncrease` | internal/models/course_version.go:96-99 | A later version of a course has a greater number |
| `CourseStore.MaxIsCount` | internal/models/course_version.go:96-99 | The greatest number so far is the count of versions |
| `CourseContent.ReadOnce` | internal/models/course_version.go:65-89 | When no siblings tie, the tables read back as one tree only |
| `CourseContent.SameTreeSameBlocks` | internal/models/course_version.go:65-89 | Where two courses read back as one tree, whatever block row one has, kind, content, order and the titles and orders above it, the other has too |
| `CourseContent.SomeTree` | internal/models/course_version.go:65-89 | Every course reads back as some tree |
| `CourseContent.ListingUnique` | internal/models/chapter.go:41-57 | Distinct sort orders leave ORDER BY one result |
| `CourseStore.OtherCoursesReadSame` | internal/models/course_version.go:162-198 | So every other course reads back as the same trees as before |
| `CourseDuplicate.Duplicate` | internal/models/course.go:221-310 | A new draft of the author's with the title marked and the source's description, cover, category and organisation: whatever the source reads back as, the copy does too, title apart, and both show the same blocks; all its rows are new, every row there was stays, every other course is untouched; fails exactly on a missing course |
| `CourseDuplicate.CopyChapters` | internal/models/course.go:237-307 | Whatever chapters the source reads back as, the copy does too |
| `CourseDuplicate.CopyLessons` | internal/models/course.go:268-306 | The same for the lessons of one chapter |
| `CourseDuplicate.CopyBlocks` | internal/models/course.go:299-305 | The same for blocks inserted in no particular order |
| `RealtimeHub.InvHolds` | internal/realtime/hub.go:72-191 | After every sequence of critical sections: each member was put exactly what it is due, each leaver a prefix, queues within capacity, channels closed once, no panic |
| `RealtimeHub.MembersHearEverything` | internal/realtime/hub.go:115-130 | A client still in its room was put exactly the messages broadcast there since it joined, in order and without gaps, its own relays excepted; one that left was put the first of them |
| `RealtimeHub.CommonMessagesInOrder` | internal/realtime/hub.go:176-191 | For two members, what the earlier was put ends in what the room broadcast since the later joined, and the later was put that too; with each one's own messages left aside the two are the same, in the same order |
| `RealtimeHub.LogIsWhatWasSaid` | internal/realtime/hub.go:95-191 | Over every run a room's log, against which members are served, is in order exactly what was said there: each text a joined client relayed, under its name, and each presence list sent, which was true when it was read |
| `RealtimeHub.LogGrows` | internal/realtime/hub.go:115-130 | A step adds to a room's log the text relayed there or the presence list sent there, and otherwise nothing |
| `RealtimeHub.RelayReaches` | internal/realtime/hub.go:176-191 | A relayed text is put on the channel of every other member with space for it, and on no other channel |
| `RealtimeHub.ConnectFinds` | internal/realtime/hub.go:72-81 | Connecting finds the room its name leads to or makes an empty one; joining is to follow |
| `RealtimeHub.JoinEnters` | internal/realtime/hub.go:83-91 | Joining puts the client among the members; reading the roster is to follow |
| `RealtimeHub.TasksDo` | internal/realtime/hub.go:95-130 | Reading the roster is followed by sending the list read; dropping takes the name off the index; neither does more |
| `RealtimeHub.RemoveAnnounced` | internal/realtime/hub.go:133-151 | Leaving is followed by a presence broadcast to those who stay, or by dropping the name when nobody does |
| `RealtimeHub.ReceiveTakes` | internal/realtime/hub.go:201-212 | The write pump takes one message off the channel and changes nothing else |
| `RealtimeHub.ChannelsAreSafe` | internal/realtime/hub.go:83-85 | In every interleaving a channel is closed at most once and exactly when its client has left, nothing is sent on a closed one, and no queue exceeds 64 |
| `RealtimeHub.LeavesIff` | internal/realtime/hub.go:117-146 | A member leaves in a step if and only if the step is its removal, or broadcasts another's message when its queue holds 64 |
| `RealtimeHub.IndexedIff` | internal/realtime/hub.go:133-146 | The index of rooms goes on leading to every populated room exactly when the step is not one of two: dropping a name whose room was joined again, or joining a room that was dropped meanwhile |
| `RealtimeHub.RoomCanSplit` | internal/realtime/hub.go:72-85 | A run in which two clients end up members of different rooms under one name |
| `RealtimeHub.DueCommutes` | internal/realtime/hub.go:177-191 | Leaving out two clients' own messages in either order gives the same |
| `RealtimeHub.Hub.Connect` | internal/realtime/hub.go:73-81 | Finds or creates the room and makes the client. Like every method of the hub below that carries out a critical section, from a state of some run it reaches the state the step Connect leads to, so what holds of every run holds of the object |
| `RealtimeHub.Hub.Enter` | internal/realtime/hub.go:83-90 | Carries out an outstanding join, as the run does: the client is put into the set of its room, its channel empty and open, and the join is no longer outstanding |
| `RealtimeHub.Hub.BroadcastAll` | internal/realtime/hub.go:117-130 | The loop over members equals the atomic broadcast: appended where there is space, closed and dropped where not |
| `RealtimeHub.Hub.BroadcastExcept` | internal/realtime/hub.go:177-191 | The same for everyone but the sender |
| `RealtimeHub.Hub.SendPresence` | internal/realtime/hub.go:108-130 | Carries out an outstanding presence broadcast, as the run does, to whoever is a member by then |
| `RealtimeHub.Hub.RelayMessage` | internal/realtime/hub.go:164-191 | Relays what a client sent, as the run does |
| `RealtimeHub.Hub.Offer` | internal/realtime/hub.go:121-128 | One non-blocking send |
| `RealtimeHub.Hub.ReadRoster` | internal/realtime/hub.go:96-106 | Carries out an outstanding member list, as the run does: it lists each user who has a client in the room once, with a name one of the clients gives |
| `RealtimeHub.Hub.Remove` | internal/realtime/hub.go:133-151 | Takes the client out and closes its channel unless that was done, as the run does; says whether the room is empty |
| `RealtimeHub.Hub.DropRoom` | internal/realtime/hub.go:142-145 | Carries out an outstanding drop, as the run does: the name is taken off the index whatever room it leads to by then |
| `RealtimeHub.Hub.TakeNext` | internal/realtime/hub.go:201-212 | Messages are taken in the order they were put, as the run does |
| `ScormAttempts.TotalIsSumOfSessions` | internal/models/scorm_attempt.go:145-162 | The accumulated time equals the sum of the last reading of each session, a session being a maximal non-decreasing run of readings |
| `ScormAttempts.MadeOfSessions` | internal/models/scorm_attempt.go:156-162 | Every sequence of readings splits into such sessions |
| `ScormAttempts.ExtraCommitHarmless` | internal/models/scorm_attempt.go:156-162 | A reading between two others that do not fall, or repeating the one before, changes no total |
| `ScormAttempts.AttemptsTellTheirHistory` | internal/models/scorm_attempt.go:145-185 | In every reachable state an attempt's total is that sum over its own commits, it is complete exactly when one of them was terminal, and completed at the time of the first of these for good; what it tracks is what its last commit brought |
| `ScormAttempts.HistoryDecides` | internal/models/scorm_attempt.go:145-185 | An attempt is what its own commits, in order, made of a fresh one |
| `ScormAttempts.CompleteIff` | internal/models/scorm_attempt.go:166-170 | Complete exactly when some commit was terminal; completed_at is the time of the first, and unset until then |
| `ScormAttempts.AttemptsNumbered` | internal/models/scorm_attempt.go:103-125 | In every reachable state a learner's attempts at a package are numbered 1, 2, 3 and so on and all but the last are complete |
| `ScormAttempts.OnlyItsAttempt` | internal/models/scorm_attempt.go:103-185 | A launch starts an attempt exactly when all of the learner's at the package are complete and changes no other; a commit changes its own only, and never whose it is or its number |
| `ScormAttempts.AttemptStore.Latest` | internal/models/scorm_attempt.go:92-97 | The highest-numbered attempt of the learner at the package, none exactly when there is no attempt |
| `ScormAttempts.AttemptStore.StartOrResume` | internal/models/scorm_attempt.go:103-125 | Returns an attempt in progress whose number is the count of the learner's attempts at the package; starts a new one only when none is in progress |
| `ScormAttempts.AttemptStore.Save` | internal/models/scorm_attempt.go:145-185 | The update statement: growth or full reading, sticky completion, first completion time; nothing without the row |
| `ScormDurations.ScanDurationField` | internal/scorm/cmi.go:255-279 | The loop equals the recursive specification |
| `ScormDurations.FieldIsAdditive` | internal/scorm/cmi.go:253-279 | After an accepted part the whole is accepted exactly when the rest is, and the values add up |
| `ScormDurations.ComponentsAccepted` | internal/scorm/cmi.go:253-279 | Numbers each followed by a unit are accepted for the sum of whole parts times units |
| `ScormDurations.AcceptedIsComponents` | internal/scorm/cmi.go:253-279 | Nothing else is accepted |
| `ScormDurations.WholeIsFloor` | internal/scorm/cmi.go:268-272 | Truncating the number gives what its digits before the point denote |
| `ScormDurations.ParseDuration2004` | internal/scorm/cmi.go:219-251 | The parser equals the specification Duration2004 |
| `ScormDurations.DurationAccepted` | internal/scorm/cmi.go:219-251 | Weeks and days, then after a T hours, minutes and seconds, spaces around or not, are accepted for their sum |
| `ScormDurations.AcceptedIsDuration` | internal/scorm/cmi.go:219-251 | Nothing else is accepted: every accepted text is such a duration and has its value |
| `ScormDurations.DigitsReadBack` | internal/scorm/cmi.go:219-251 | Days, hours, minutes and seconds in any digits read as that many seconds |
| `ScormDurations.RenderedReadsBack` | internal/scorm/cmi.go:219-251 | For all numbers, days, hours, minutes and seconds written in decimal read back as the same seconds (ISO 8601:2004 section 4.4.3.2) |
| `ScormDurations.WeeksReadBack` | internal/scorm/cmi.go:230-236 | Weeks and days in any digits read as 604800 and 86400 seconds each |
| `ScormDurations.DecimalRead` | internal/scorm/service.go:65-72 | A sign or none, digits, and perhaps a point and more digits are read as the number they denote |
| `ScormDurations.ReadIsDecimal` | internal/scorm/service.go:65-72 | No other text is read as a number by the model's parser |
| `ScormDurations.AtoiRead` | internal/scorm/cmi.go:206-207 | A sign or none and digits are read as the whole number they denote |
| `ScormDurations.TimespanAccepted` | internal/scorm/cmi.go:199-214 | Three fields with colons between, hours and minutes as strconv.Atoi reads them and not negative, minutes and seconds below 60, signs and surrounding spaces included, are accepted for the seconds they denote |
| `ScormDurations.AcceptedIsTimespan` | internal/scorm/cmi.go:199-214 | Nothing else is accepted: every accepted text is such a timespan with spaces around it and has its value |
| `ScormDurations.WrittenTimespanReads` | internal/scorm/cmi.go:199-214 | HH:MM:SS and HH:MM:SS.ss in any digits are accepted exactly when minutes and seconds are below 60, and then read as the hours, minutes and whole seconds written |
| `ScormDurations.TrimPadded` | internal/scorm/cmi.go:220-220 | Trimming removes exactly the spaces around a text |
| `ScormRuntime.Summarize` | internal/scorm/service.go:61-123 | Each field from its own element; in both versions complete exactly when the lesson status is passed, completed or failed; in 2004 a success status of passed or failed is itself the lesson status, which otherwise follows the completion status |
| `ScormRuntime.DerivedFollows` | internal/scorm/service.go:129-147 | The derived status: passed and failed are the success status itself; else completed and not attempted exactly when the completion status is, and incomplete in every other case |
| `ScormRuntime.StatusRead` | internal/scorm/service.go:80-99 | A status is read without the spaces around it and in small letters |
| `ScormRuntime.ScoreRead` | internal/scorm/service.go:65-72 | A decimal is recorded as what it denotes, sign and fraction included |
| `ScormRuntime.SessionTimeRead` | internal/scorm/service.go:83-108 | Each version's session time is read from its own element, in seconds |
| `ScormRuntime.CompleteIsOver` | internal/scorm/service.go:126-168 | The completeness test agrees with the derived status in both versions |
| `ScormRuntime.UpdateOf` | internal/httpserver/handlers/scorm.go:478-514 | Committed elements go on top of stored ones, the others stay, each tracked column comes from its own element of the whole, and the write is terminal exactly when the stored status says so or the package terminated |
| `ScormRuntime.ScoreRecordedIff` | internal/scorm/cmi.go:150-161 | For every number type and every parser that, like strconv.ParseFloat, takes no text with a space at either end: an accepted score is recorded if and only if it was written without spaces around it, and then as the number accepted |
| `ScormRuntime.AcceptedScoreRecordedIff` | internal/scorm/cmi.go:150-161 | The same for decimals: recorded exactly when written without spaces, and then within the range |
| `ScormRuntime.PaddedScoreLost` | internal/scorm/service.go:65-72 | One that is accepted and lost |
| `SortOrder.NeedsRenormalize` | internal/models/sortorder.go:44-51 | True exactly when some adjacent gap is at most the threshold |
| `SortOrder.Renormalize` | internal/models/sortorder.go:57-63 | Fills 1, 2, 3 and so on |
| `SortOrder.FailsIff` | internal/models/sortorder.go:32-51 | A midpoint insertion can fail somewhere exactly when NeedsRenormalize says so |
| `SortOrder.OrderGiven` | internal/models/sortorder.go:20-37 | The first sibling gets one, an appended one the last order plus one, one between two others the middle of theirs, and the others keep theirs |
| `SortOrder.InsertKeepsOrder` | internal/models/sortorder.go:20-37 | A successful insertion keeps the list strictly ascending and puts the sibling where it was asked for |
| `SortOrder.RetrySucceeds` | internal/models/sortorder.go:53-63 | Renormalising keeps the siblings' order and then any insertion succeeds |
| `SortOrder.OrderIsKept` | internal/models/sortorder.go:16-63 | However many siblings are inserted wherever, with renormalise and retry, each stands where it was put and orders stay strictly ascending |
| `SortOrder.TwentyInsertsSucceed` | internal/models/sortorder.go:16-37 | A renormalised list takes any 20 insertions without renormalising, staying strictly ascending |
| `SortOrder.TwentyFirstFails` | internal/models/sortorder.go:32-37 | 20 is exact: the 21st at one place always fails |
| `SortOrder.RenormalizeIfNeeded` | internal/httpserver/handlers/chapters.go:157-177 | In place: ids keep their order, afterwards every gap has room, and nothing changes when it had |
| `RateLimit.InvHolds` | internal/ratelimit/ratelimit.go:34-48 | The counter's invariant over every interleaving of the two commands of calls, either of which may fail, or be carried out with its answer lost |
| `RateLimit.LimitHolds` | internal/ratelimit/ratelimit.go:34-48 | Over any such run one counter grants at most the limit, and any half-open interval as long as the window holds at most the bound, fewer than twice the limit |
| `RateLimit.BoundIsReached` | internal/ratelimit/ratelimit.go:34-48 | For every limit and every window some run reaches the bound: twice the limit less one when the window is at least two units of time |
| `RateLimit.SlidingIff` | internal/ratelimit/ratelimit.go:14-48 | The sliding-window promise, never more than the limit within any window, holds over all runs if and only if the limit is at most one or the window at most one unit of time |
| `RateLimit.StuckIff` | internal/ratelimit/ratelimit.go:37-45 | After a step the counter is without an expiry and without a caller to set one exactly when it was so before, or the last such caller's EXPIRE failed or the INCR that began the counter was answered to nobody |
| `RateLimit.StuckRunIff` | internal/ratelimit/ratelimit.go:37-45 | So after a run exactly when the run has one of these two steps |
| `RateLimit.RecoversIff` | internal/ratelimit/ratelimit.go:41-45 | With no call under way, waiting lets the key expire if and only if it is not stuck |
| `RateLimit.StuckLocksOut` | internal/ratelimit/ratelimit.go:41-45 | A stuck counter stays so for good and grants no more than the limit in all, whatever follows |
| `RateLimit.StuckReached` | internal/ratelimit/ratelimit.go:37-45 | Two runs from an unused key that get stuck, one for each cause |
| `RateLimit.CallCounts` | internal/ratelimit/ratelimit.go:34-48 | What a call leaves at the key, in columns: a live counter one more and its expiry as it was; else a new counter whose expiry is a window after the call set it, if its EXPIRE was carried out |
| `RateLimit.ExpirySet` | internal/ratelimit/ratelimit.go:41-45 | An EXPIRE that is carried out, whenever it is, sets a live counter's expiry a window ahead |
| `RateLimit.Limiter.Allow` | internal/ratelimit/ratelimit.go:34-48 | For each fate of the two commands (answered, answer lost, not carried out): the count and the expiry afterwards, in columns, whether the call failed, and that it is allowed exactly when it did not and the count is within the limit; the invariant is kept |
| `RateLimit.Limiter.Arm` | internal/ratelimit/ratelimit.go:41-45 | The caller who finds the count at one sets the expiry; the state and the failure for each fate |
| `RateLimit.AllowedIsGranted` | internal/ratelimit/ratelimit.go:37-47 | An event that a call allows is one more granted event at the time of the call |
| `RateLimit.Limiter.ExpireCommand` | internal/ratelimit/ratelimit.go:41-45 | EXPIRE on a live, expired or missing key |
| `RateLimit.Limiter.IncrCommand` | internal/ratelimit/ratelimit.go:37-40 | INCR on a live, expired or missing key |

## Left out

- HTTP routing, middleware, templates, WebSocket sockets, deadlines and pings: plumbing over libraries.
- Provider clients, signatures, tokens and mail: network or cryptographic libraries; a receipt is modelled as queued or not.
- JSON bodies, raw provider payloads, analytics rows, metrics and logs.
- Amounts, currency, tax and commission of orders; organisation columns; row-level security.
- Concurrent transactions that are not serialised: lost updates between two workers, and two snapshots of one course racing for a version number.
- The board coordinator behind the hub's callback, and the order in which a map is iterated beyond what the roster allows.
- Ties between siblings' sort orders, for the equality of trees; `watch_threshold_percent`, which neither snapshots nor copies carry.
- Float rounding, 64-bit overflow of parsed durations and NUMERIC(20,10) storage; exponents, hexadecimal, infinities and NaN in `strconv.ParseFloat`; case mapping outside ASCII.
- ScormDurations.AcceptedIsTimespan: seconds written with an exponent, in hexadecimal or as NaN, all of which the code accepts, are not among the model's decimals.
- ScormRuntime.AcceptedScoreRecordedIff: about decimals only, since the model's numbers have no exponents, infinities or NaN; ScoreRecordedIff says the same of any parser.
- Validation of SCORM elements other than scores: table lookups and length limits, easy members only.
- The prefix in front of the limiter's keys: one key is modelled, and keys do not interact.
- Rows, rooms and clients are values found by their ids in the fields of one class; several objects sharing one of them are not modelled as such.
- Plain create, read, update and delete repositories, permission tables, clamps and truncation: easy members only.
