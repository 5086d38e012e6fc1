# Verified models of the point of sale and its WhatsApp gateway

A Dafny model of the parts of the repository whose correctness spans several calls: the two
promise-chain queues and the Bulk Stock ledger behind them, the delivery protocols of the WhatsApp
gateway, the catalogue migration, and the parsers with exact acceptance conditions.
`dafny verify dfyconfig.toml` checks everything.

| file | what it models |
|---|---|
| `MutationLock.dfy` | the per-request lock: promises, gates and the map of tails as explicit state, and the object |
| `CommandCoordinator.dfy` | the device-wide command queue, and why its bare gate equals the lock's chained tail |
| `BulkStockLedger.dfy` | domain rules, tables, the guarded commit, the ledger invariant and balances |
| `BulkStockCommands.dfy` | what each command does, said of the tables and in literal amounts |
| `BulkStockService.dfy` | the commands split at each await, the same commands in one piece, and the service object |
| `Sequencing.dfy` | what running one at a time means, for any commands over any state |
| `BulkStockHistory.dfy` | whole runs: free interleaving, and linearizability through the coordinator |
| `OutboundDelivery.dfy` | claim, provider call, attach or fail, for all kinds of interactive sends |
| `OutboundClaims.dfy` | what a claim answers, and what precedes and follows it, over whole runs |
| `EventDispatcher.dfy` | the lease, begin, send and complete loop of automatic messages |
| `DispatchSummary.dfy` | what a dispatch run reports against what it leaves in the store |
| `WebhookPayload.dfy` | payloads, and which of their messages belong in the store |
| `WebhookIngestion.dfy` | the nested delivery loop and redelivery |
| `MediaPolicy.dfy`, `MediaSignatures.dfy` | content validation, and what it accepts byte by byte |
| `MediaStreams.dfy` | the chunk loops that feed it |
| `MediaPromotion.dfy` | promotion of uploads from quarantine to the canonical path |
| `LegacyMapping.dfy`, `LegacyRows.dfy`, `LegacyTies.dfy`, `PublicIdentity.dfy`, `Sorting.dfy` | the catalogue migration scripts |
| `PercentEncoding.dfy`, `PercentSpelling.dfy` | percent-encoding, and exactly what decodes |
| `SessionCookies.dfy`, `CookieAttributes.dfy` | the device session in cookies |
| `MenuLayout.dfy` | the menu-layout parser and the preferences parser |
| `Bytes.dfy`, `TextRules.dfy`, `Wrappers.dfy` | shared notions |

An asynchronous function becomes a program counter whose turns are the stretches between two
awaits; a whole run is a sequence of turns of any number of such processes. A call over the
network hears one of: answered, failed without effect, or carried out with its answer lost. A crash
is a process that takes no further turn. Classes hold the state that the program updates in place;
their methods are tied to the same turns that the run theorems are about.

## Where the code and its promises differ

Each point has a lemma with an input and a lemma with the exact condition.

- Media redelivery can get stuck. The materializer of inbound media raises a conflict when the row
  that is there differs in its storing time, and each delivery stores media again under the current
  time. A payload with an accepted picture followed by a message that failed once is then never
  answered 200: `RedeliveryCanBeStuck`, and exactly when, `AnsweredExactlyWithoutClash`.
- Repeating an inspection of uploaded media without a new upload does not always return the same
  content: an older inspection still in flight can promote earlier bytes afterwards:
  `RepeatCanDiffer`, and exactly when, `RepeatExactly`.
- The summary of a dispatch run does not always agree with the store, in three ways. The completion
  of an accepted message takes effect but its answer is lost: it is SENT and counted uncertain
  (`SentButCountedUncertain`). Recording a refusal has no effect: it is counted failed, but LEASED
  and later UNCERTAIN (`FailedButNotStored`). Recording an unknown outcome has no effect: it is
  counted uncertain, but LEASED until it is given up (`UncertainButLeased`). Exactly when each
  counter, and the whole summary, agrees: `SummaryAgainstStore`. (The dispatcher takes only 4xx as a
  definite refusal, the interactive path any status from 400 on; both are modelled as they are.)
- The result of the catalogue mapping depends on the order of its input when two rows of one output
  list compare equal, as two skipped legacy IDs can under `localeCompare`: `TiedIdsDependOnOrder`,
  and exactly when, `OrderIndependentExactly`.
- A product in a skipped category makes the catalogue mapping fail even if the product itself is
  skipped, because the category reference is checked first: `SkippedTogetherFails`, and exactly
  when, `SkippedCategoryExactly`.
- The layout and preference parsers compare UUIDs as written, so two spellings of one UUID that
  differ in case are accepted as two: `OneUuidAcceptedTwice`, and exactly when, `AcceptedTwiceExactly`.
- The claim of a template does not look at the lineage of the row it meets, so a template under the key
  of a retry of the same content is answered with the retry's message, where a text gets a conflict:
  `TemplateGetsRetryRow`, and exactly when, `RepetitionGetsItsRow`.

The payload limit of the menu layout never decides: what the other limits admit is always shorter
(`LayoutsAreShort`).

## Model

| member | source | states |
|---|---|---|
| `MutationLock.LockSafety` | packages/application/src/onlineOrderMutationLock.ts:4-22 | Over every schedule of arrivals, settling promises, starts and (throwing or not) finishes: at most one operation per key runs, operations on a key start in arrival order and only after all earlier ones ended, and a key is in the map exactly while some call on it is unfinished |
| `MutationLock.StepKeepsInv` | packages/application/src/onlineOrderMutationLock.ts:4-22 | Every enabled step keeps the invariant behind safety: order of starts per key, exact map, and each `previous` link naming the youngest earlier call of its key |
| `MutationLock.TraceKeepsInv` | packages/application/src/onlineOrderMutationLock.ts:4-22 | The same over every run |
| `MutationLock.EveryWaiterStarts` | packages/application/src/onlineOrderMutationLock.ts:10-20 | Progress: the steps ahead of a waiter are a decreasing measure, so under weak fairness each waiting call has started after at most that many fair rounds |
| `MutationLock.EnabledStaysEnabled` | packages/application/src/onlineOrderMutationLock.ts:10-20 | No other step can take an enabled start, finish or settling away, so weak fairness is enough |
| `MutationLock.StepShortensWait` | packages/application/src/onlineOrderMutationLock.ts:10-20 | No step ever lengthens a wait, and each step of an earlier call on the same key, or of the call itself, shortens it |
| `MutationLock.FairRoundShortensWait` | packages/application/src/onlineOrderMutationLock.ts:10-20 | Each fair round brings every waiter strictly closer to its start |
| `MutationLock.OwnKeySuffices` | packages/application/src/onlineOrderMutationLock.ts:4-22 | Different keys never block each other: from any reachable chain shape a waiter reaches its start by steps on its own key alone |
| `MutationLock.OnlineOrderMutationLock.Arrive` | packages/application/src/onlineOrderMutationLock.ts:4-11 | The synchronous part of a call chains behind the youngest call of its key and becomes the map entry; the whole new state, invariant kept |
| `MutationLock.OnlineOrderMutationLock.Settle` | packages/application/src/onlineOrderMutationLock.ts:10 | A tail promise settles; nothing else changes and the invariant is kept |
| `MutationLock.OnlineOrderMutationLock.Start` | packages/application/src/onlineOrderMutationLock.ts:13-15 | A call that starts is the only one running on its key |
| `MutationLock.OnlineOrderMutationLock.Finish` | packages/application/src/onlineOrderMutationLock.ts:16-21 | Afterwards the key is in the map exactly if another call on it is unfinished, also when the operation threw |
| `CommandCoordinator.QueueOrder` | packages/application/src/commandCoordinator.ts:4-16 | In every reachable state a released gate implies that all earlier gates are released, and the only possible turn besides arrivals belongs to the oldest command that has not ended, which can always move |
| `CommandCoordinator.EveryCommandStarts` | packages/application/src/commandCoordinator.ts:4-16 | Progress: a command has started exactly when as many turns have been taken, by whatever commands, as its wait was long, two for each command ahead of it; and a turn is possible while any command has not ended |
| `CommandCoordinator.TurnShortensWait` | packages/application/src/commandCoordinator.ts:4-16 | An arrival leaves every wait as it is, any other turn shortens every wait by one |
| `CommandCoordinator.BareGateEquivalence` | packages/application/src/commandCoordinator.ts:4-16 | Waiting on the last bare gate is waiting on the chained tail: the visible runs of the queue and their phases are exactly those of the per-key lock used with one key |
| `CommandCoordinator.LockRunIsQueueRun` | packages/application/src/onlineOrderMutationLock.ts:4-22 | Every run of the lock on one key is a run of the queue, once settling of promises is hidden |
| `CommandCoordinator.QueueRunIsLockRun` | packages/application/src/commandCoordinator.ts:4-16 | Every run of the queue is a run of the lock on one key |
| `CommandCoordinator.TraceKeepsInv` | packages/application/src/commandCoordinator.ts:4-16 | Over every run: finished calls first, then at most one running call, then the waiting ones |
| `CommandCoordinator.EndedCount` | packages/application/src/commandCoordinator.ts:4-16 | The ended commands, counted from the oldest, form a prefix that stops at the first one not ended |
| `CommandCoordinator.ApplicationCommandCoordinator.Arrive` | packages/application/src/commandCoordinator.ts:4-9 | A call takes the current gate as the one to await and replaces it by its own |
| `CommandCoordinator.ApplicationCommandCoordinator.Start` | packages/application/src/commandCoordinator.ts:10-12 | A command starts exactly when all earlier ones, and no other, have ended |
| `CommandCoordinator.ApplicationCommandCoordinator.Finish` | packages/application/src/commandCoordinator.ts:13-15 | A command that ends, throwing or not, hands over to its successor |
| `BulkStockLedger.CompensatedAtMostOnce` | packages/domain/src/bulkStock.ts:59-97 | In every valid ledger an undo row cancels one earlier recorded row (negated delta, same item, shop and day, inside the window, never itself an undo), and no second row compensates it |
| `BulkStockLedger.BalanceIsStanding` | packages/domain/src/bulkStock.ts:33-39 | An item's balance, which sums all bulk rows, equals the sum over rows that are neither undo rows nor undone |
| `BulkStockLedger.IdsAreUnique` | packages/persistence/src/sqlite/SqliteBulkStockStore.ts:183-205 | A movement ID names one row |
| `BulkStockLedger.FindIsTheRow` | packages/persistence/src/sqlite/SqliteBulkStockStore.ts:84-99 | Looking a committed movement up by its ID gives that movement |
| `BulkStockLedger.AppendRow` | packages/persistence/src/sqlite/SqliteBulkStockStore.ts:84-99 | A row that keeps its promises about the rows before it extends a valid ledger to a valid ledger |
| `BulkStockHistory.AloneIsAtomic` | packages/application/src/bulkStock.ts:147-278 | A command whose turns between awaits nothing interrupts gives the reply and the ledger of the command in one piece, turn by turn |
| `BulkStockService.GuardsHoldAlone` | packages/application/src/bulkStock.ts:319-333 | Uninterrupted, none of the guards of the commit can fail; only a clash of fresh UUIDs is left |
| `BulkStockService.CommitKeepsDbOk` | packages/persistence/src/sqlite/SqliteBulkStockStore.ts:84-99 | A commit prepared by a command, however long ago, that the guarded transaction accepts writes movement, audit and outbox row together and keeps every ledger rule |
| `BulkStockService.DraftIsSound` | packages/application/src/bulkStock.ts:160-172 | What a command hands to the store carries the shop, day and operator it resolved, the sign of its kind and whole units, and for an undo the negated original inside its window |
| `BulkStockService.OperationsBulkStockService.CommitMovement` | packages/persistence/src/sqlite/SqliteBulkStockStore.ts:84-181 | All three rows or none, accepted exactly when day, operator, item, compensation target and unique keys still hold |
| `BulkStockService.OperationsBulkStockService.RecordMovement` | packages/application/src/bulkStock.ts:147-216 | `finishOne` and `addStock`: the effect is the one promised for the command, said of the tables and in literal amounts: minus 1000000 for finishing one, n * 1000000 for a receipt of n units, recorded exactly for a signed-in worker, a fresh ID, an item the shop tracks, 0 < n with n * 1000000 within the safe integers and fresh audit and outbox IDs; the reply names the conflict, validation or persistence error otherwise, or gives a repeated command its movement again |
| `BulkStockService.OperationsBulkStockService.UndoMovement` | packages/application/src/bulkStock.ts:218-278 | The same for an undo: recorded exactly if there is an uncompensated recorded movement with that ID of the same shop and day, at most 8000 ms old, then with its negated delta and its item; every conflict and validation branch otherwise |
| `BulkStockService.AtomicallyHasEffect` | packages/application/src/bulkStock.ts:147-278 | The command in one piece has exactly the effect promised for it: reply, time until which it can be undone (8000 ms), and the whole ledger afterwards |
| `BulkStockCommands.EffectOnBalance` | packages/domain/src/bulkStock.ts:33-97 | An accepted receipt of n units raises the balance of its item by n * 1000000, finishing one lowers it by 1000000, an undo leaves every balance as if the original had never been recorded; no other item is touched |
| `BulkStockService.OperationsBulkStockService.CommitDraft` | packages/application/src/bulkStock.ts:319-333 | The last step refuses only on a clash of fresh IDs, and then changes nothing |
| `BulkStockHistory.Linearizable` | packages/application/src/commandCoordinator.ts:4-16 | For every schedule of queued commands split at each await, operator and day changes on the same queue included, each reply equals that of running the commands one at a time in arrival order, and so does the final ledger |
| `BulkStockHistory.LinearizationPoint` | packages/application/src/bulkStock.ts:147-278 | Each fault-free ledger command takes effect in one piece at its place in the queue; the guards against a changed day, operator, item or compensation never refuse it |
| `BulkStockHistory.QueuedEffect` | packages/application/src/bulkStock.ts:147-278 | So in every run of the queue a fault-free ledger command has exactly the promised effect on the ledger that all earlier commands leave, in literal amounts |
| `Sequencing.Continues` | packages/application/src/commandCoordinator.ts:4-16 | In a one-at-a-time discipline over any state, the command whose turn it is goes on and still stands where it would stand alone |
| `Sequencing.Ends` | packages/application/src/commandCoordinator.ts:4-16 | When it has replied, its successor starts from the state of running all earlier commands in arrival order |
| `BulkStockHistory.RunKeepsSequential` | packages/application/src/coordinatedSession.ts:11-48 | The inductive form: ended commands ran alone, the next one is running alone, later ones have not begun |
| `BulkStockHistory.CommitAttribution` | packages/persistence/src/sqlite/SqliteBulkStockStore.ts:112-147 | Whatever interleaved, a movement that commits carries the shop, open day and operator current at that moment, for a current item |
| `BulkStockHistory.ReachableLedger` | packages/persistence/src/sqlite/SqliteBulkStockStore.ts:84-181 | Every ledger reachable under free interleaving with other writers and session changes: undo rows pair off with recorded rows, no row is compensated twice, balances are the standing movements, one audit and one outbox row per worker movement in commit order |
| `BulkStockHistory.HistorySafety` | packages/persistence/src/sqlite/SqliteBulkStockStore.ts:84-99 | Over every history the ledger only grows, all rules hold, and a reply given stays |
| `BulkStockHistory.ReplayIsIdempotent` | packages/application/src/bulkStock.ts:224-237 | After a success and any history whatever, the same command ID in the same shop and day, under any operator, gets the identical movement and `undoUntil` if it is the same command, a conflict otherwise, and changes no row |
| `BulkStockHistory.KnownIdWritesNothing` | packages/application/src/bulkStock.ts:153-157 | No task under a command ID already in the ledger ever writes a movement, audit or outbox row again, wherever it stands |
| `BulkStockHistory.OneReplyPerCommandId` | packages/application/src/bulkStock.ts:299-317 | All successful replies under one command ID are the same reply |
| `OutboundDelivery.AtMostOnceSend` | server/whatsappOperationsGateway.ts:377-407 | Over every interleaving of concurrent and repeated text, template, media, location and retry requests, crashes and lost store replies, the provider is called at most once per (shop, intent key) |
| `OutboundDelivery.SettlementSafety` | server/whatsappOutboundActions.ts:227-331 | Each message gets at most one of attach and fail, and exactly the one that the answer recorded from the provider leads to: attach under the accepted ID, fail on a status of 400 or more, neither on anything else or without an answer; no 200 reply carries a pending message without a provider ID; a rejection reply means the row is failed |
| `OutboundDelivery.RetryFollowsDefiniteFailure` | server/whatsappOutboundActions.ts:616-747 | A retry row is always for a message of the same shop that failed for good, whose own recorded provider answer is a status of 400 or more, never for an uncertain send |
| `OutboundDelivery.NoBlindResend` | server/whatsappOutboundActions.ts:227-234 | Once the handler of a claimed message has stopped, no later request calls the provider for it, and an uncertain message stays exactly as it was |
| `OutboundDelivery.EventKeepsWorldOk` | server/whatsappOperationsGateway.ts:388-474 | Every arrival, turn, crash and status callback keeps the invariant: unique keys, one call and one settlement per message, each row explained by the settlement made for it, one owner per message |
| `OutboundDelivery.ClaimIntent` | supabase/migrations/20260904012000_whatsapp_retry_lineage.sql:122-249 | Insert if absent on (shop, intent key): what is created carries the sender, content and lineage asked for, a retry those of a failed original of its shop; existing is the row of the key with what is asked for; a conflict means another sender, content or lineage there, or no failed original |
| `OutboundClaims.ClaimExactly` | supabase/migrations/20260904012000_whatsapp_retry_lineage.sql:162-246 | That relation of request, rows and answer holds of the answer the store gives and of nothing else: when a taken key is existing and when it is a conflict is decided |
| `OutboundClaims.RepetitionGetsItsRow` | supabase/migrations/20260904012000_whatsapp_retry_lineage.sql:122-246 | Over every history from the start: once the claim of a request has added a row, its reply heard or not, every later claim of the same intent gets that row and every claim of another intent under its key a conflict; a template alone is also given the row of a retry with its sender and content |
| `OutboundClaims.TemplateGetsRetryRow` | supabase/migrations/20260904010000_whatsapp_messaging_policy.sql:322-346 | A failed row and a retry of it: a template under the key of the retry gets its row, a text with the same content a conflict |
| `OutboundClaims.ClaimIsAnswered` | server/whatsappOutboundActions.ts:227-234 | What the handler of a claim answers: an uncertain 503 for an existing row that is pending without a provider ID, else a 200 with that row, 409 on a conflict; a claim that failed or was not heard is answered with its error, never a 200, and calls no provider |
| `OutboundClaims.ChecksPrecede` | server/whatsappOutboundActions.ts:616-724 | Over every history: a handler that claims, or has called the provider, had each check of its kind pass before in the given order; text, media, location and retry never without the operator and the free-form window |
| `OutboundClaims.RefusalEnds` | server/whatsappOutboundActions.ts:183-225 | A check that does not pass ends the request without a change in the store and without a provider call |
| `OutboundClaims.HistoryKeepsIntents` | supabase/migrations/20261022153000_whatsapp_event_dispatch.sql:342-372 | Over every history no row changes its key, sender, content or lineage, and its status only moves forward |
| `OutboundClaims.CallbackExactly` | supabase/migrations/20261022153000_whatsapp_event_dispatch.sql:352-370 | A callback takes effect exactly on a row with a provider ID and in one of seven forward moves |
| `OutboundDelivery.AttachGood` | supabase/migrations/20260902220000_whatsapp_inbox.sql:416-447 | Attaching never overwrites a failed row |
| `OutboundDelivery.FailGood` | supabase/migrations/20260902224500_whatsapp_current_worker_authority.sql:214-251 | A failure recorded by the handler finds its row still pending without a provider ID |
| `OutboundDelivery.CallbackGood` | supabase/migrations/20261022153000_whatsapp_event_dispatch.sql:344-370 | A delivery callback never touches a row without a provider ID nor a failed one, and keeps every row explained |
| `OutboundDelivery.WhatsAppOutbound.Claim` | supabase/migrations/20260904012000_whatsapp_retry_lineage.sql:122-249 | The claim as an update in place: created, existing or conflict, and the rows afterwards, by the content, sender and lineage asked for; a created message has no provider call yet |
| `OutboundDelivery.WhatsAppOutbound.Attach` | server/whatsappOutboundActions.ts:304-331 | Attaching in place: the row is SENT under the accepted ID unless the call failed; a 200 with it exactly if the attachment was heard and the message is well formed, an uncertain reply otherwise |
| `OutboundDelivery.WhatsAppOutbound.MarkProviderFailure` | server/whatsappOutboundActions.ts:236-267 | Recording a refusal in place: the row is failed unless the call failed; the rejection reply exactly if the recording was heard, else its error or an uncertain reply |
| `OutboundDelivery.WhatsAppOutbound.SendClaimed` | server/whatsappOutboundActions.ts:269-331 | One provider call, then attach on an acceptance, fail on a status of 400 or more, nothing on any other answer; which reply each answer of provider and store leads to, and the row it leaves |
| `EventDispatcher.DispatcherSafety` | server/whatsappEventMessaging.ts:53-118 | Over overlapping runs, lease expiry and lost replies: each intent reaches the provider at most once; FAILED only after a 4xx answer, SENT only after an acceptance. Each lease is counted once, and the verdict means what happened: skipped exactly if this run did not call the provider, failed exactly if its call was answered with a 4xx, and an intent it called is SENT exactly if counted sent, or counted uncertain after a completion whose answer was lost; a run that returns has claimed = sent + failed + uncertain + skipped |
| `EventDispatcher.VerdictFollowsAnswer` | server/whatsappEventMessaging.ts:91-115 | Over every history a lease that the run called is counted failed exactly on an answered status from 400 to 499, uncertain on any other status and on an unknown outcome, and sent only on an acceptance, which is then SENT in the store |
| `EventDispatcher.StatusFollowsAnswer` | supabase/migrations/20261022153000_whatsapp_event_dispatch.sql:304-340 | Over every history the status of a called intent is what was recorded, else UNCERTAIN once given up, else LEASED; recorded is FAILED exactly for an answered status from 400 to 499, UNCERTAIN for any other status or an unknown outcome, and SENT or UNCERTAIN for an acceptance |
| `EventDispatcher.AnswerDecides` | server/whatsappEventMessaging.ts:91-96 | What a run tries to record: SENT on an acceptance, FAILED on 400 to 499, UNCERTAIN on every other status and on an unknown outcome |
| `EventDispatcher.LeaseExactly` | supabase/migrations/20261022153000_whatsapp_event_dispatch.sql:97-149 | A lease call takes at most 25 intents, pending or with an unattempted lease that ran out, for 60 seconds; attempted ones whose lease ran out become UNCERTAIN; nothing else changes |
| `EventDispatcher.CallsExactly` | supabase/migrations/20261022153000_whatsapp_event_dispatch.sql:176-180 | The provider is called exactly if the beginning is heard, nothing blocks it, and the intent is leased under the own token, in time and unattempted; the attempt is marked in the same turn |
| `EventDispatcher.BlockedExactly` | supabase/migrations/20261022153000_whatsapp_event_dispatch.sql:229-293 | A blocked beginning settles the intent as cancelled or uncertain without a marker and without a call; without a live lease nothing changes |
| `EventDispatcher.CompletesExactly` | supabase/migrations/20261022153000_whatsapp_event_dispatch.sql:311-340 | A completion takes effect exactly on an intent leased under the token with its attempt marked |
| `EventDispatcher.SettledForGood` | supabase/migrations/20261022153000_whatsapp_event_dispatch.sql:304-340 | No overlapping run, expiry or late completion changes a settled status |
| `EventDispatcher.StepKeepsWorldOk` | supabase/migrations/20261022153000_whatsapp_event_dispatch.sql:151-302 | One turn of one run keeps the invariant of all runs, the meaning of every verdict counted so far included; markers and settled statuses are never taken back |
| `EventDispatcher.PassCountsOnce` | server/whatsappEventMessaging.ts:68-116 | A pass aborts the run exactly if the answer of its beginning does not arrive; otherwise it counts its lease as skipped if it did not call, failed on a 4xx, sent if the message was accepted and its completion heard, and uncertain in every other case |
| `EventDispatcher.PassLeaves` | server/whatsappEventMessaging.ts:74-115 | What a pass that calls leaves in the store: an accepted message SENT if and only if its completion took effect, heard or not, otherwise UNCERTAIN if and only if the recording took effect, else still LEASED; a refused one FAILED or UNCERTAIN by the answer if the recording took effect; no other intent changes |
| `EventDispatcher.CompletionExactly` | server/whatsappEventMessaging.ts:83-89 | Whatever other runs did since: an accepted message is counted sent if and only if its completion is heard and the lease allows it, and left SENT if and only if it takes effect and the lease allows it |
| `EventDispatcher.RecordingExactly` | server/whatsappEventMessaging.ts:102-114 | A message still leased is counted uncertain when its recording ends either way, left UNCERTAIN if and only if the recording took effect, and LEASED otherwise |
| `DispatchSummary.SummaryAgainstStore` | server/whatsappEventMessaging.ts:63-117 | For every run in every history. The number sent is right if and only if no completion of the run lost its answer; the number failed if and only if every recording of a refusal took effect under its lease; the number uncertain if and only if lost and still open ones make up for refusals never recorded and then given up; all three if and only if no answer was lost, every refusal was recorded, and everything uncertain was recorded or given up |
| `DispatchSummary.SentButCountedUncertain` | server/whatsappEventMessaging.ts:83-114 | A history from the start in which it does not: the completion is carried out, its answer is lost, the second completion is refused, and the run reports one uncertain message and none sent while the message is SENT |
| `DispatchSummary.FailedButNotStored` | server/whatsappEventMessaging.ts:91-114 | A history from the start with a 4xx answer whose recording has no effect: no answer is lost, the run reports one failed message, the message is LEASED, and after the next lease call past its time UNCERTAIN; the store never holds it as FAILED |
| `DispatchSummary.UncertainButLeased` | server/whatsappEventMessaging.ts:91-114 | A history from the start with an unknown answer whose recording has no effect: one uncertain message is reported while it is LEASED, and the next lease call past its time makes the report true |
| `DispatchSummary.Books` | server/whatsappEventMessaging.ts:63-117 | SENT in the store are those counted sent and the lost ones; FAILED are those counted failed but for unrecorded ones; UNCERTAIN are those counted uncertain but for lost and open ones, and unrecorded refusals that were given up |
| `DispatchSummary.LeaseAgainstStore` | supabase/migrations/20261022153000_whatsapp_event_dispatch.sql:97-149 | The same for one lease: its status, by verdict and by which completions and expiries took effect |
| `EventDispatcher.EventMessaging.HandleLease` | server/whatsappEventMessaging.ts:68-116 | One pass in place: repository and verdict are those of its turns; counted failed means a status from 400 to 499, and FAILED in the store unless the recording had no effect; counted sent means SENT in the store on an acceptance; counted uncertain means SENT there exactly if an accepted message lost the answer of its completion |
| `EventDispatcher.EventMessaging.CompleteAttempt` | supabase/migrations/20261022153000_whatsapp_event_dispatch.sql:304-340 | A status changes only under the live lease token with the attempt marker set and if the call takes effect, then to the outcome, after which no completion under any token can change it; an acknowledgement means that this happened; other intents, calls and replies stay |
| `EventDispatcher.EventMessaging.Dispatch` | server/whatsappEventMessaging.ts:53-118 | The loop over at most 25 leases: counters and repository are those of its passes, and the four counters add up to the number claimed |
| `WebhookIngestion.RedeliveryConverges` | server/whatsappWebhook.ts:604-698 | However many deliveries failed and wherever, once one is answered 200 the messages are those of a single failure-free delivery (media rows up to their storing time) |
| `WebhookIngestion.AnsweredPayloadIsIngested` | server/whatsappWebhook.ts:230-306 | After any deliveries of which the last is answered 200, said of the payload alone: a key (shop, ID) is in the store if and only if it was before, or a messages change with a channel ID of that shop holds a message with that ID, a sender with a valid phone, and a text, coordinates or media that passes validation; rows that were there stay as they were, a new one holds what the first such message in payload order holds |
| `WebhookIngestion.DeliveryAppliesPrefix` | server/whatsappWebhook.ts:604-698 | Each delivery applies a prefix of the effects of the payload, all of it when answered 200 |
| `WebhookIngestion.PrefixIsAbsorbed` | supabase/migrations/20260902220000_whatsapp_inbox.sql:170-303 | Delivering again after a prefix has been applied adds just what is missing |
| `WebhookIngestion.IdealPointwise` | supabase/migrations/20260902220000_whatsapp_inbox.sql:170-303 | What insertion-if-absent leaves under each key: the old row, else the first one the payload writes |
| `WebhookIngestion.AnsweredExactlyWithoutClash` | supabase/migrations/20260904011500_whatsapp_media_materialization.sql:75-113 | A delivery in which no call fails is answered 200 if and only if no accepted media message meets a row stored at another time or with other content |
| `WebhookIngestion.TextIsAnswered` | server/whatsappWebhook.ts:604-698 | A payload without accepted media is answered 200 as soon as no call fails, whatever deliveries came before |
| `WebhookIngestion.RedeliveryCanBeStuck` | server/whatsappWebhook.ts:461-478 | A concrete payload: the picture is stored, the text after it fails once, and no later delivery is ever answered 200 nor stores the text |
| `WebhookIngestion.StuckAgain` | server/whatsappWebhook.ts:461-478 | With the picture stored at time 1, a delivery at any other time stops at the picture and leaves the store as it is |
| `WebhookIngestion.InboundStore.Perform` | supabase/migrations/20260904011500_whatsapp_media_materialization.sql:75-113 | One awaited call in place, conflict on a differing media row included |
| `WebhookIngestion.InboundStore.HandleMessages` | server/whatsappWebhook.ts:653-693 | The innermost loop performs the work of its messages in order and stops at the first failure |
| `WebhookIngestion.InboundStore.HandleChange` | server/whatsappWebhook.ts:620-693 | Skips what is not a messages change, has no usable channel ID or an unknown channel; otherwise resolves it and handles its messages |
| `WebhookIngestion.InboundStore.HandleEntry` | server/whatsappWebhook.ts:620-694 | The loop over the changes of an entry, stopping at the first failure |
| `WebhookIngestion.InboundStore.HandleVerifiedPost` | server/whatsappWebhook.ts:604-698 | The nested loops together: store and answer are those of the flat list of work, and when answered 200 the store has ingested just the messages of the payload, location, text and accepted media alike |
| `Sorting.SortSorts` | scripts/catalog-migration/legacyMapping.ts:270-282 | A sort by a comparator gives a sorted permutation |
| `Sorting.SortedIsUnique` | scripts/catalog-migration/legacyMapping.ts:270-282 | Two sorted permutations are equal if the order tells the elements apart |
| `Sorting.SortIgnoresOrder` | scripts/catalog-migration/legacyMapping.ts:270-282 | So the result of a sort does not depend on the order of its input |
| `Sorting.CheckDistinct` | scripts/catalog-migration/legacyMapping.ts:137-151 | The growing-set loops accept exactly the lists without duplicates |
| `LegacyMapping.OrderIndependence` | scripts/catalog-migration/legacyMapping.ts:170-285 | Permuting source categories, source products or manifest entries changes neither whether the mapping succeeds nor its result, if each output order is strict on its rows or the mapping fails |
| `LegacyTies.OrderIndependentExactly` | scripts/catalog-migration/legacyMapping.ts:170-285 | The outcome is the same for every order of source rows and manifest entries if and only if the mapping fails or no two different rows of one output list compare equal |
| `LegacyTies.TiedIdsDependOnOrder` | scripts/catalog-migration/legacyMapping.ts:282 | Two skipped categories whose legacy IDs compare equal under `localeCompare`: the mapping succeeds on both orders of them, with different skipped lists |
| `LegacyTies.TiedIdsAreNotIgnored` | scripts/catalog-migration/legacyMapping.ts:282 | So the outcome does depend on the order of that input |
| `Sorting.SortSeesTies` | scripts/catalog-migration/legacyMapping.ts:270-282 | A stable sort gives different results for two orders of its input that differ in two elements which compare equal |
| `LegacyMapping.OrdersTellRowsApart` | scripts/catalog-migration/legacyMapping.ts:270-282 | Each of the three output orders is a strict total order on the rows that it sorts, if `localeCompare` tells apart the IDs within each output list and within each entity of the skipped list |
| `LegacyMapping.AcceptsIgnoresOrder` | scripts/catalog-migration/legacyMapping.ts:174-268 | Success and the fate of every row do not depend on any input order |
| `LegacyMapping.EverySourceRowOnce` | scripts/catalog-migration/legacyMapping.ts:207-265 | On success every source row is in the output or in the skipped list, exactly once, and nothing else is |
| `LegacyMapping.IdentityIntegrity` | scripts/catalog-migration/legacyMapping.ts:175-205 | On success manifest and source IDs are in bijection, and canonical IDs of categories and products together are pairwise distinct |
| `LegacyMapping.SkippedCategoryExactly` | scripts/catalog-migration/legacyMapping.ts:232-246 | The mapping succeeds if and only if it would with skipped products of skipped categories left alone, and no product is in a skipped category |
| `LegacyMapping.SkippedTogetherFails` | scripts/catalog-migration/legacyMapping.ts:237-246 | A category and its one product, both skipped with a reason: everything else is in order and the mapping fails |
| `LegacyMapping.ProductsHaveTheirCategory` | scripts/catalog-migration/legacyMapping.ts:232-240 | The category of every product in the output is in the output, and is its source category mapped |
| `LegacyMapping.ProductsFollowCategories` | scripts/catalog-migration/legacyMapping.ts:270-281 | Product groups come in the order of the category list, if that list has no ties |
| `LegacyMapping.ProductsAreGrouped` | scripts/catalog-migration/legacyMapping.ts:270-281 | The products of a category are contiguous, and the groups come in the order of the category list, if that list has no ties |
| `LegacyMapping.Partition` | scripts/catalog-migration/legacyMapping.ts:207-265 | If every row is either kept or left under its own tag, no tag is lost and none gained |
| `LegacyMapping.MapLegacyCatalog` | scripts/catalog-migration/legacyMapping.ts:170-285 | The script, loop by loop, fails exactly where the declarative mapping does and gives its result |
| `LegacyRows.OutputIsMapping` | scripts/catalog-migration/legacyMapping.ts:207-265 | On success every output category and product carries, field by field, what the one source row and the manifest entry of its legacy ID say: slug, names, price, flags, sort order, dispositions, an image key exactly for a canonical one, the canonical ID derived to create and the lower-cased given one to match, the category ID of its source category; every skipped row carries the reason of its entry; every source row is in one of the lists |
| `LegacyRows.MappedExactly` | scripts/catalog-migration/legacyMapping.ts:170-268 | The mapping succeeds if and only if there is an output that maps the source under the manifest in that sense, with the same IDs in both, none twice, as many as declared, and pairwise distinct canonical IDs |
| `LegacyRows.OutputInOrder` | scripts/catalog-migration/legacyMapping.ts:270-282 | Categories stand by sort order, then ID; products by the sort order of their category, its ID, their own sort order and ID; skipped categories before skipped products, each by legacy ID |
| `LegacyMapping.CheckSource` | scripts/catalog-migration/legacyMapping.ts:174-205 | The checks before any row is mapped accept exactly equal ID lists without duplicates, of the declared lengths, with no ERROR entry |
| `LegacyMapping.MapCategories` | scripts/catalog-migration/legacyMapping.ts:207-229 | For whatever becomes of single rows, the category loop succeeds exactly if no row is an error, keeps and skips row by row, and its map holds exactly the canonical IDs of the kept rows |
| `LegacyMapping.MapProducts` | scripts/catalog-migration/legacyMapping.ts:231-265 | The product loop succeeds exactly if no row is an error, and adds its skipped rows behind those of the category loop |
| `PublicIdentity.AssertPublicIdentityInventory` | scripts/catalog-migration/publicIdentity.ts:89-108 | Accepts exactly a valid manifest whose category ID multiset and (product ID, category ID) multiset equal the inventory's, although it compares sorted joined strings and the inventory is not validated |
| `PublicIdentity.EqualStringsEqualPlacements` | scripts/catalog-migration/publicIdentity.ts:97-98 | Equal multisets of joined strings mean equal multisets of pairs, whatever the inventory IDs contain |
| `PublicIdentity.JoinedTells` | scripts/catalog-migration/publicIdentity.ts:97-98 | A row whose joined string is that of a pair of UUIDs is that pair |
| `PublicIdentity.SortedListsCompareMultisets` | scripts/catalog-migration/publicIdentity.ts:85-106 | Comparing sorted lists element by element compares multisets |
| `PublicIdentity.ValidatePublicIdentityManifest` | scripts/catalog-migration/publicIdentity.ts:54-82 | Accepts exactly manifests of version 1 with declared counts, unique IDs and slugs, lower-case UUIDs, well-formed slugs and known categories |
| `PublicIdentity.AssertUnique` | scripts/catalog-migration/publicIdentity.ts:40-52 | The loop with two growing sets accepts exactly lists with distinct IDs and distinct slugs |
| `PercentEncoding.DecodeEncode` | server/supabaseGateway.ts:131-142 | Percent-decoding undoes percent-encoding for every text, UTF-8 included (section 2.1 of RFC 3986) |
| `PercentEncoding.EncodedIsPlain` | server/supabaseGateway.ts:140-142 | Encoded text never holds a semicolon, an equals sign, a comma or white space |
| `PercentEncoding.Utf8RoundTrip` | server/supabaseGateway.ts:131-142 | Decoding of one to four bytes with its checks against overlong forms and surrogates inverts UTF-8 encoding of every character |
| `PercentSpelling.DecodeExactly` | server/supabaseGateway.ts:122-138 | A text decodes to another if and only if it spells it: each character as itself, unless it is a percent sign, or as the escapes of its UTF-8 form in either case of digits; every other text is malformed and ignored |
| `PercentSpelling.FromUtf8Exactly` | server/supabaseGateway.ts:122-138 | Bytes are taken as a character exactly if they are its UTF-8 form (section 3 of RFC 3629) |
| `PercentSpelling.Utf8Exactly` | server/supabaseGateway.ts:140-142 | The bytes written for a character are its one UTF-8 form |
| `PercentSpelling.EncodeCharExactly` | server/supabaseGateway.ts:140-142 | Letters, digits and nine marks are written as themselves, every other character as escapes in capital digits |
| `SessionCookies.SessionRoundTrip` | server/supabaseGateway.ts:122-168 | A printed session comes back as the same USABLE session, in any order of the cookies and among any others, exactly if its IDs are UUIDs and its tokens non-empty and trimmed |
| `SessionCookies.SessionWithoutAccess` | server/supabaseGateway.ts:148-168 | Without the access cookie the same session comes back as REFRESHABLE |
| `SessionCookies.ClearedSession` | server/supabaseGateway.ts:144-163 | With the shop cookie cleared or gone the device is not enrolled |
| `SessionCookies.JarIsRead` | server/supabaseGateway.ts:122-138 | Parsing a cookie header, repeated names included, gives each name the decoded value of its last well-formed cookie, and holds nothing else (section 4.2.1 of RFC 6265) |
| `SessionCookies.DistinctJarIsRead` | server/supabaseGateway.ts:122-138 | With distinct names every well-formed cookie is read, in any order |
| `SessionCookies.KeptIsPrinted` | server/supabaseGateway.ts:140-142 | What the user agent keeps of a printed cookie is its name and encoded value (section 5.2 of RFC 6265) |
| `SessionCookies.ParseCookies` | server/supabaseGateway.ts:122-138 | The parser loop computes the map that those statements are about |
| `SessionCookies.ReadDeviceSession` | server/supabaseGateway.ts:148-168 | The session read from a header, as a function of that map |
| `SessionCookies.AccessMaxAge` | server/supabaseGateway.ts:192-196 | The access cookie lives an hour if the expiry is absent or past; otherwise until the expiry, unless that is less than a minute or more than thirty days away, and then exactly a minute or thirty days |
| `CookieAttributes.GatewayResponse.PersistSession` | server/supabaseGateway.ts:187-203 | A jar that kept what is set, among whatever other cookies, reads back as USABLE with the same session exactly if its IDs are UUIDs and its tokens non-empty and trimmed; the access cookie lives for the computed time, the three others for 2592000 seconds, all of them bound to the API path, TLS, the own site and out of reach of scripts |
| `CookieAttributes.GatewayResponse.ClearDeviceSession` | server/supabaseGateway.ts:205-212 | A jar that kept what is set, among whatever other cookies, reads as not enrolled; all four cookies have a lifetime of zero |
| `CookieAttributes.PrintedIsGuarded` | server/supabaseGateway.ts:140-146 | A printed cookie has exactly five attributes, and the user agent reads its lifetime back as the number of seconds asked for (section 5.2 of RFC 6265) |
| `CookieAttributes.DecimalIsRead` | server/supabaseGateway.ts:141 | The printed lifetime, read digit by digit, is the number |
| `SessionCookies.JarSession` | server/supabaseGateway.ts:148-168 | The session of any jar: usable exactly with both UUIDs and both tokens, to be refreshed exactly if only the access token is missing or blank |
| `MediaStreams.ReadBoundedBody` | server/whatsappOutboundMediaStorage.ts:52-101 | However the stream is split, empty chunks included: fails exactly when the total exceeds the limit, else gives the whole content, its first MiB and its hash |
| `MediaStreams.ReadValidationPrefix` | server/whatsappWebhook.ts:316-341 | The other loop, which stops early, gives the same prefix |
| `MediaStreams.Assemble` | server/whatsappOutboundMediaStorage.ts:86-99 | Copying the chunks at running offsets into one buffer gives their concatenation |
| `MediaStreams.CopyInto` | server/whatsappOutboundMediaStorage.ts:86-99 | Writes the chunk at the offset and nothing else |
| `MediaStreams.StoreInboundMedia` | server/whatsappWebhook.ts:375-480 | For a store that answers after any number of chunks: stored exactly if type, size and content are valid, the upload is taken and what was pulled is as long as declared; that is then the start of the stream, and all of it exactly if the stream is as long as declared; the verdict in every other case |
| `MediaStreams.MonitoredUpload` | server/whatsappWebhook.ts:411-434 | The counted upload passes what is pulled from the stream or breaks off exactly past the limit |
| `MediaPolicy.CheckPlainText` | server/whatsappMediaPolicy.ts:54-63 | The counting loop accepts exactly text without NUL in which less than a tenth of the positions are control characters |
| `MediaPolicy.ValidateWhatsAppMediaContent` | server/whatsappMediaPolicy.ts:89-113 | The verdict with its order of checks, which the rows below characterise byte by byte |
| `MediaSignatures.ImagesAccepted` | server/whatsappMediaPolicy.ts:103-107 | JPEG and PNG content is accepted exactly by its first three or eight bytes and up to 5242880 bytes |
| `MediaSignatures.SoundsAccepted` | server/whatsappMediaPolicy.ts:36-51 | Each sound type is accepted exactly by its signature and up to 16777216 bytes: Ogg with Opus, AMR, MPEG by ID3 or a second byte from 224, MP4 by its box, AAC by one of four second bytes |
| `MediaSignatures.DocumentsAccepted` | server/whatsappMediaPolicy.ts:53-86 | Each document type is accepted exactly by its signature and up to 104857600 bytes |
| `MediaSignatures.RefusedExactly` | server/whatsappMediaPolicy.ts:1-22 | Which types are not allowed, and which sizes too large, of the allowed ones |
| `MediaSignatures.TypesExclude` | server/whatsappMediaPolicy.ts:36-108 | Plain text and MP4 aside, no content is accepted under two types unless they are MPEG and AAC, both old Office types or both new ones |
| `MediaSignatures.AacIsMpeg` | server/whatsappMediaPolicy.ts:38-50 | Everything accepted as AAC is accepted as MPEG |
| `MediaPromotion.PromotionSafety` | server/whatsappOutboundMediaStorage.ts:141-215 | Under arbitrary uploads, concurrent inspections and failures at each storage call, everything that the canonical path ever received passed the checks of an inspection, and whatever an inspection returns passed its own and was received there |
| `MediaPromotion.RecheckNeverFails` | server/whatsappOutboundActions.ts:434-455 | The check repeated when finalizing cannot fail after an inspection has returned |
| `MediaPromotion.RepeatExactly` | server/whatsappOutboundMediaStorage.ts:141-215 | Without a new upload, every inspection that arrives later and returns, whatever it is interleaved with and whatever calls fail, returns the same content, and so size, prefix and hash, and an undisturbed one does return: if and only if the canonical path holds the content, quarantine holds nothing else and no inspection in flight is about to promote other bytes |
| `MediaPromotion.RepeatCanDiffer` | server/whatsappOutboundMediaStorage.ts:141-215 | A run from the start in which it fails: two one-byte texts are uploaded in turn, the inspection of the second returns, then that of the first promotes, and repeating without a new upload serves the first text |
| `MediaPromotion.RaceUntilReturn` | server/whatsappOutboundMediaStorage.ts:161-215 | The same race for any two contents that pass: the second inspection returns with its content while the first is about to promote the older one |
| `MediaPromotion.InspectionSettles` | server/whatsappOutboundMediaStorage.ts:141-215 | An inspection left alone while no other is about to promote reaches that condition, even if the deletion fails |
| `MediaPromotion.PromotionOverwrites` | server/whatsappOutboundMediaStorage.ts:193-204 | An inspection that is about to promote other bytes still replaces the canonical content |
| `MediaPromotion.WrongDeclarationClears` | server/whatsappOutboundMediaStorage.ts:178-191 | Another inspection with a wrong declaration deletes the quarantine object |
| `MediaPromotion.EventKeepsWorldOk` | server/whatsappOutboundMediaStorage.ts:141-215 | Every arrival, upload and storage call keeps the invariant behind promotion safety |
| `MediaPromotion.OutboundMediaStorage.InspectUploadedMedia` | server/whatsappOutboundMediaStorage.ts:141-215 | The inspection in place, with chunked bodies: it reads the quarantine object or else the canonical one, reports just what it read exactly if that is as declared and could be promoted, drops a quarantine object that is not as declared, and leaves one that is too long to be read |
| `MediaPromotion.OutboundMediaStorage.DeleteQuarantine` | server/whatsappOutboundMediaStorage.ts:130-139 | Best-effort deletion: the object is gone unless the call fails without effect |
| `MenuLayout.ParseProductOrderByCategory` | server/workerMenuLayoutGateway.ts:53-76 | Accepts exactly objects of at most 256 categories whose keys and products are UUIDs, with no product twice and at most 4096 in all, and returns the input unchanged |
| `MenuLayout.ParseIdOrder` | server/workerMenuLayoutGateway.ts:40-51 | The set-based parser gives the ID list within the limit that its input is, or nothing |
| `MenuLayout.ScanIdOrder` | server/workerUiPreferencesGateway.ts:39-48 | The scan-based parser gives the ID list that its input is, or nothing |
| `MenuLayout.ParsersAgree` | server/workerMenuLayoutGateway.ts:40-51 | The two parsers agree: on every list within the limit, and beyond it exactly the limit decides |
| `MenuLayout.AcceptedTwiceExactly` | server/workerMenuLayoutGateway.ts:36-51 | UUIDs are compared as written: a list of UUIDs is accepted exactly if distinct as written, so one that names a UUID twice is accepted exactly if it is distinct as written and not after lower-casing, and never if all its IDs are in lower case |
| `MenuLayout.NamesOnceExactly` | server/workerUiPreferencesGateway.ts:35-48 | A list of UUIDs names each once, by the value of its digits, if and only if it is distinct after lower-casing |
| `MenuLayout.OneUuidAcceptedTwice` | server/workerMenuLayoutGateway.ts:40-51 | Two spellings of one UUID that both parsers take for two IDs |
| `MenuLayout.LayoutsAreShort` | server/workerMenuLayoutGateway.ts:57 | The payload limit never decides: an acceptable layout prints to at most 170498 characters |
| `MenuLayout.NextGroup` | server/workerMenuLayoutGateway.ts:63-74 | What was parsed of an acceptable layout is its beginning, and the next entry passes every check |
| `MenuLayout.AddAll` | server/workerMenuLayoutGateway.ts:69-72 | The running set rejects exactly when flattened products repeat |
| `TextRules.SameUuidIsSameLower` | scripts/catalog-migration/legacyMapping.ts:153-162 | Two strings spell the same UUID exactly if they are equal in lower case |
| `TextRules.TrimFixes` | server/supabaseGateway.ts:48-50 | Trimming leaves exactly the trimmed strings unchanged |
| `TextRules.TrimExactly` | server/supabaseGateway.ts:48-50 | Trimming leaves the one core without white space at either end that is surrounded by white space alone |
| `TextRules.UuidExactly` | scripts/catalog-migration/legacyMapping.ts:101 | The UUID pattern: five groups of hexadecimal digits, version 1 to 5, RFC 4122 variant |
| `PublicIdentity.SlugExactly` | scripts/catalog-migration/publicIdentity.ts:28 | The slug pattern: groups of small letters and digits with a hyphen between each two |

## Left out

- HTTP routing, headers, status plumbing, same-origin checks, fetch calls and SQL beyond the named store contracts: input and output; their outcomes are parameters.
- React applications, the desktop shell, build configuration and end-to-end specs: user interface and tests.
- Cryptography: SHA-1, SHA-256 and UUID derivation are arbitrary functions; signatures and PIN hashing are absent. In particular, distinctness of media keys for distinct messages is not claimed.
- Reading the Bulk Stock board: only its balance sum is modelled. A sum outside the safe integers makes the program throw; the model's sum is unbounded. Balances may be negative, and nothing is claimed against it.
- Order and administration movements are arbitrary rows with fresh IDs that never compensate a worker's movement and never carry the `bulk-stock:` key of another movement's ID; sign-in and sign-out are arbitrary changes of the session tables.
- Audit and outbox rows of other features: only rows of Bulk Stock are in those tables.
- Removal of media objects by retention and by failed inbound uploads: no claim is made that a stored media record has its object.
- A repeated media finalization carries a new storing time in its metadata, which is part of the content here, so it is a request of another content.
- The remaining checks inside a claim (operator, device, conversation, template and media expiry) are refusals of the store without effect, with whatever status code.
- A retry of a message kind that cannot be retried: it is refused before any claim.
- The field `soldOut`, which is always false, is not a field of a mapped product.
- Prices are converted by a partial function; the floating-point check of two decimal places is not modelled. The control-character share of plain text is compared exactly, which the floating-point division agrees with up to a prefix of one MiB.
- `localeCompare` is any total preorder; the inventory check also takes it to tell the strings of a valid manifest apart. `NaN` sort orders are excluded by using integers.
- Strings are sequences of Unicode scalar values, so lone surrogates, on which percent-encoding throws, are outside the model; a cookie named `__proto__` is too.
- JSON objects have distinct keys, in entry order, as parsing produces them.
- The remaining menu-layout and preference fields, PIN and session limits, the inbox cursor and the relationship builder: each is a check within one function.
- What the object store keeps when it answers an inbound upload early: only what was pulled from the stream is modelled, which is what the program records.
- LegacyMapping.MapLegacyCatalog: which of several errors is reported first is not modelled; every failure is `None`.
- WebhookIngestion.RedeliveryConverges: assumes, as its environment, that channel resolution and the verdict on each media message stay the same between deliveries.
- MutationLock.EveryWaiterStarts: assumes weak fairness of the event loop and that started operations end.
