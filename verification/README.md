# Interview platform: verified protocols

This project models the protocols behind the interview platform's per-interview,
sequence-numbered event log, its billing close and its two text formats, and
proves properties of those models. `dafny verify dfyconfig.toml` checks all of it.

## What is modelled

| files | system component |
|---|---|
| `LiveRing`, `LiveBus`, `LiveSession`, `LiveProtocol`, `LiveWatch` | live monitoring: the capped ring, the lossy fan-out, a viewer's catch-up and gap repair, the reconnecting client |
| `Sse`, `SseReader` | the event-stream writer, the incremental browser parser and the Go pull reader (WHATWG HTML Living Standard, sections 9.2.5 and 9.2.6) |
| `StoreModel`, `StoreSafety`, `StoreClaims`, `StoreRelay`, `StorePurge`, `StoreTheorems`, `StoreTransactions` | Postgres transactions over interviews: number allocation, the outbox and its relays, session start, diffs, scores, purge |
| `ByokCache`, `ByokFreshness` | the provider-key cache: whose bytes are in memory, and how old a returned version can be |
| `BillingPricing`, `BillingCredits`, `BillingLedger`, `BillingConservation`, `BillingTheorems`, `BillingWrite` | pricing, credit application, and closes, issues and voids over one company's ledger |
| `ScoringMetrics`, `ScoringView`, `ScoringService` | session metrics, their relational twin, completeness and retries |
| `DiffDebouncer`, `DiffReplay`, `DiffTheorems`, `DiffStore` | editor changes to posts, posts to the log, the log back to file contents, and the log in the store |
| `Unidiff`, `UnidiffTheorems` | the unified-diff printer and the server's counting parser |
| `Prelude`, `Sorting` | shared: `Option`, and the result every stable sort has |

Concurrent parts are state machines whose steps are one critical section, one SQL
statement, one message or one answer of a foreign system; a run is any sequence
of steps, and an action that does not apply changes nothing. Objects that change
in place are classes whose methods are tied to functions of the old state, and
the theorems are about those functions.

## Where the code does less than it may seem to

* `send` skips an event whose number is not above the last one sent, so an event
  published after a higher one is never shown (`LiveProtocol.OutOfOrderIsSkipped`).
  A gap repair is complete exactly when the ring it reads holds every published
  event the viewer misses (`LiveProtocol.RepairIsCompleteIff`), and a catch-up
  exactly when the ring has no hole above its oldest event and the cursor
  (`LiveProtocol.CatchUpIsCompleteIff`). A redelivery into a ring that has expired
  makes such a hole: a viewer that joins then gets no history, and loses events for
  good with nothing dropped (`LiveProtocol.RefilledRingHidesEvents`,
  `LiveProtocol.RefilledRingLosesEvents`).
* A purge that loses its database connection between its lock and its last delete
  goes on deleting without the lock. Deletes run on an eligible interview that this
  purge alone has locked exactly when that has not happened
  (`StoreTheorems.DeletesProtectedIff`); otherwise a legal hold set meanwhile does
  not stop them (`StoreTheorems.LostPurgeErasesHeld`, `StoreTheorems.HeldInterviewErased`).
* The pull reader and the browser's parser differ on one family of texts: those
  that end in a bare carriage return after an unfinished event
  (`SseReader.ParsersAgreeIff`).
* `WriteDraft` locks the company's credit rows so that two closes cannot spend one
  credit twice, but a close that finds no row locks nothing. A credit granted
  after that can be overspent: `BillingTheorems.UnguardedCloseCanOverspend` gives
  the continuation from every such state and `BillingTheorems.TwoClosesOverspend`
  a run from an empty ledger. With one credit row before the first close it cannot
  happen (`BillingTheorems.OneCreditIsEnough`).
* `Price` multiplies in 64 bits: the lines add up to the closed form exactly when
  that is at most 2^63 - 1 (`BillingPricing.PriceIsExactIff`).
* A call that joins a key load already in flight gets the version it fetched, even
  if that was rotated away before the call began
  (`ByokFreshness.JoinedLoadMayBeStale`), and invalidating during a load does not
  stop the load (`ByokFreshness.InvalidateDuringLoad`).
* `Compute` takes Go's zero time for "no time yet", so at that instant it differs
  from the view (`ScoringView.ZeroTimeDisagrees`).
* After tracking a file again and flushing, replay shows the editor exactly when the
  file was tracked at what the log showed (`DiffTheorems.RetrackedReplayIff`). The
  workspace tracks the starter when a candidate switches back to a language, so an
  edited file is replayed as edited while the editor shows the starter
  (`DiffTheorems.SwitchingBackIsNotReplayed`).
* A disposed timer lets an AI diff carry a manual edit (`DiffTheorems.AIDiffIsPureIff`,
  `DiffTheorems.DisposedEditJoinsAIDiff`).

## Model

| member | source | states |
|---|---|---|
| LiveRing.RingHoldsTheLargest | internal/livemonitor/bus.go:65-87 | Under any publish order and repetition the ring is strictly ascending and holds a number exactly when it was published and fewer than `capacity` larger ones were. |
| LiveRing.RingKeepsFirstCopies | internal/livemonitor/bus.go:65-87 | For every number buffered, the ring holds the copy published first; later copies never replace it. |
| LiveRing.PublishKeepsTop | internal/livemonitor/bus.go:65-87 | One publish, of a new, buffered or already trimmed event, keeps the ring the `capacity` largest of everything published. |
| LiveRing.RepublishChangesNothing | internal/livemonitor/bus.go:65-87 | Publishing again any number ever published, trimmed or not, leaves the ring as it is. |
| LiveRing.NewEntry | internal/livemonitor/bus.go:75-86 | Nothing published before comes back: an entry that appears in the ring is the event just published, with a number never published before. |
| LiveRing.AboveIsTheTail | internal/livemonitor/bus.go:89-104 | What Recent returns is one tail of the ring: all the events above the cursor, in order. |
| LiveBus.MemoryBus.Publish | internal/livemonitor/bus.go:65-87 | Updates one stream's ring, delivers a new event to every subscriber of that stream with room in its channel and to no one else, and reports whether it was new; rings stay the rings of everything offered. |
| LiveBus.MemoryBus.Recent | internal/livemonitor/bus.go:89-104 | Returns exactly the buffered events above the cursor and the oldest buffered number. |
| LiveBus.MemoryBus.Subscribe | internal/livemonitor/bus.go:106-118 | A fresh, empty, open subscription joins its stream; rings and other subscribers are untouched. |
| LiveBus.MemoryBus.Close | internal/livemonitor/bus.go:129-137 | The subscription leaves its stream and is closed; every other stream's subscribers stay. |
| LiveSession.Session.Send | internal/livemonitor/http.go:200-214 | Writes an event of the viewer's stream above the last one sent and moves the cursor; anything else changes nothing; a failed write leaves the viewer as it was. |
| LiveSession.Session.CatchUp | internal/livemonitor/http.go:169-198 | Sends the history below the ring's oldest event and then the ring's events, each at most once; when a write fails, what was sent is what a beginning of that list gives. |
| LiveSession.Session.Handle | internal/livemonitor/http.go:139-155 | A received event above the next number first brings in the ring's events above the cursor, then is sent; when a write fails, what was sent is what a beginning of that list gives. |
| LiveSession.SentIffRecord | internal/livemonitor/http.go:200-214 | Of any list, an event of the stream is written at its turn exactly when its number is above the start and above every number handled before. |
| LiveProtocol.SentIsContiguousPrefix | internal/livemonitor/http.go:106-214 | Over every timely interleaving of publish, redelivery into a ring in any state, drop, expiry, catch-up and receive, what was sent is a contiguous prefix of the log above Last-Event-ID. |
| LiveProtocol.HandledMeansAllBefore | internal/livemonitor/http.go:139-155 | In such a run, after a received event is handled every log event up to it has been sent. |
| LiveProtocol.NothingLostWithoutDrops | internal/livemonitor/http.go:106-155 | In such a run subscribing before catching up loses nothing: with no channel drop and a drained channel, everything published was sent. |
| LiveProtocol.RepairIsCompleteIff | internal/livemonitor/http.go:145-155 | A gap repair delivers everything published so far exactly when the ring, empty or not, holds all of it that the viewer misses, but for the event at hand if it is the last one published. |
| LiveProtocol.CatchUpIsCompleteIff | internal/livemonitor/http.go:169-198 | A joining viewer is sent everything published, given a history that reaches the ring's oldest event, exactly when the ring has no hole above that event and the cursor. |
| LiveProtocol.RingCoversUnlessRefilled | internal/livemonitor/bus.go:65-87 | In every run in which nothing is redelivered after the ring has expired, the ring has no hole at any moment, whatever else is dropped, redelivered, trimmed or expires. |
| LiveProtocol.RefilledRingHidesEvents | internal/livemonitor/redisbus.go:44-52 | From every world whose ring expired and was refilled by one old event, a viewer joining at that event is caught up with nothing, though more is published, nothing was dropped and its channel is empty. |
| LiveProtocol.RefilledRingLosesEvents | internal/livemonitor/http.go:139-155 | Of all those events it then sends only the next one published. |
| LiveProtocol.OutOfOrderIsSkipped | internal/livemonitor/http.go:200-204 | Of any list, an event that comes after a higher one and was not sent before is never sent. |
| LiveProtocol.InvStep | internal/livemonitor/http.go:76-214 | Every timely step of publisher, ring, channel, history and viewer keeps the viewer's queue free of holes in the log. |
| LiveWatch.Watcher.Consume | web/packages/api-client/src/company.ts:218-229 | One connection's messages are handed on, skipping numbers already seen, and the cursor follows. |
| LiveWatch.ExactlyOnceAcrossReconnects | web/packages/api-client/src/company.ts:205-239 | Through any sequence of connections cut anywhere, even inside an event, the handler's calls are strictly ascending and a contiguous prefix of the log above the starting id. |
| Sse.Writer.SendRaw | internal/sse/sse.go:55-67 | Appends the rendered event exactly when the name holds no newline, one data line for each line of the data, and otherwise writes nothing. |
| Sse.Writer.SendWithID | internal/sse/sse.go:69-83 | The same for an event with an id. |
| Sse.Writer.Comment | internal/sse/sse.go:85-95 | Appends the comment exactly when it holds no newline. |
| Sse.StreamParser.Chunk | web/packages/api-client/src/sse.ts:19-49 | Each chunk yields exactly the events it completes: the events of the text so far are those of the text before plus these. |
| Sse.ParseChunks | web/packages/api-client/src/sse.ts:13-59 | The events depend only on the whole text, not on how it was cut into chunks; an unterminated last event is not among them. |
| Sse.CutIsPrefix | web/packages/api-client/src/sse.ts:13-59 | Cutting the text anywhere yields a prefix of its events. |
| Sse.WrittenLines | internal/sse/sse.go:55-95 | Any interleaving of events and comments, as written, is parsed back to the same event list and leaves nothing pending. |
| SseReader.Reader.Next | internal/sse/sse.go:110-147 | One pull consumes lines up to the next finished event, or reports a clean or an unexpected end. |
| SseReader.PullAllIsYieldAll | internal/sse/sse.go:97-147 | Pulling events one by one gives all events of the lines, and ends badly exactly when one was left unfinished. |
| SseReader.ReaderRoundTrip | internal/sse/sse.go:55-147 | The pull reader reads back what the writer wrote, the same list as the browser's parser, and ends cleanly. |
| SseReader.ParsersAgreeIff | web/packages/api-client/src/sse.ts:13-59 | Pull reader and browser parser agree on a text unless it ends in a bare carriage return after an unfinished event. |
| StoreTheorems.AllocationIsGapless | internal/store/postgres/events.go:25-70 | Over every interleaving of transactions with commits and aborts, an interview's committed allocations are exactly 1 to last_sequence_number and no number is granted twice, reserved ones included. |
| StoreSafety.GrantedOnce | internal/store/postgres/events.go:53-70 | A number is granted exactly when it is between 1 and the sum of the interview's grants, and then by one grant only. |
| StoreSafety.LocksStep | internal/store/postgres/events.go:53-70 | Every step keeps an interview's row lock with at most one transaction and its uncommitted allocation on top of the committed counter. |
| StoreSafety.CountersStep | internal/store/postgres/events.go:25-51 | Every step keeps each counter the sum of its committed grants, laid end to end. |
| StoreSafety.RowsStep | internal/store/postgres/outbox.go:76-85 | Every step keeps outbox rows of an interview in the same order by id and by sequence number, each with a granted number. |
| StoreTheorems.OutboxFollowsNumbers | internal/store/postgres/outbox.go:76-85 | An interview's outbox rows have ids in the order of their sequence numbers, and each carries a number granted to its interview. |
| StoreRelay.RelaySafe | internal/store/postgres/outbox.go:23-72 | Every relay action, with failed, partial or crashed writes and lost locks, keeps each committed row in the outbox or in Kafka and keeps first occurrences of a key in order. |
| StoreRelay.FirstOccurrencesAscend | internal/outbox/outbox.go:111-125 | Between the first occurrences of two rows of one key in Kafka, the lower number comes first. |
| StoreTheorems.RelayDelivers | internal/store/postgres/outbox.go:23-72 | In every run with competing relays no committed row is lost and first occurrences per session key ascend. |
| StoreTheorems.FaultlessRelayNeverRepeats | internal/store/postgres/outbox.go:23-72 | Without failed attempts and lost locks every row is published once. |
| StoreClaims.ClaimsStep | internal/store/postgres/sessions.go:24-94 | Every step keeps invites, sessions and scores matched with the events that announce them. |
| StoreTheorems.StartedAndScoredOnce | internal/store/postgres/scores.go:39-108 | An invite starts at most one session, a session gets at most one score.computed, and a stored score always has its event. |
| StoreTheorems.DiffsKeepClientOrder | internal/store/postgres/diffs.go:13-49 | A session's committed diffs have the same order by client number and by interview number. |
| StorePurge.DeletesWhileEligible | internal/store/postgres/housekeeper.go:54-73 | In every reachable state an external delete, successful or not, is attempted while the interview is eligible in the committed table and this purge alone holds its row, exactly when the purge has not lost its connection; search documents before log rows. |
| StoreTheorems.DeletesProtectedIff | internal/store/postgres/housekeeper.go:51-73 | In every run: an external delete is on an eligible interview locked by its own purge exactly when that purge's connection was not lost after its lock. |
| StoreTheorems.LostPurgeErasesHeld | internal/housekeeper/housekeeper.go:141-151 | From every state with a purge between its lock and its last delete: its connection is lost, a legal hold is set, and the remaining deletes erase the held interview, which is never marked purged. |
| StoreTheorems.HeldInterviewErased | internal/housekeeper/housekeeper.go:141-151 | Such a run from an empty database. |
| StoreTheorems.PurgedOnceAfterDeletes | internal/store/postgres/housekeeper.go:54-111 | purged_at is committed only after both external deletes succeeded, once per interview, with one purge_log row and no session or score left. |
| StorePurge.FrozenStep | internal/store/postgres/housekeeper.go:54-111 | No step adds a number, a row, a session or a score to a purged interview. |
| StoreTheorems.PurgeIsFinal | internal/store/postgres/housekeeper.go:54-111 | After the purge no run commits a session start, an allocation or a score of that interview. |
| StoreTheorems.InvStep | internal/store/postgres/events.go:25-70 | Every statement, commit, abort, lost connection, orphaned delete, admin update and relay action keeps all of the store's invariants together. |
| StoreTransactions.Database.RecordEvents | internal/store/postgres/events.go:25-51 | The whole transaction, loop included: it either allocates `count` numbers and inserts one row per message in order, or changes nothing; it fails exactly for a count below one, an unusable interview or messages that could not be built. |
| StoreTransactions.Database.RecordDiff | internal/store/postgres/diffs.go:13-49 | The whole transaction: exactly for a client number above the session's last one, and a message that can be built, it takes the next interview number and inserts its row; otherwise nothing changes. |
| StoreTransactions.Database.DeleteExternal | internal/housekeeper/housekeeper.go:141-151 | Search documents are deleted before log rows, and a failure stops the sequence. |
| StoreTransactions.Database.Purge | internal/store/postgres/housekeeper.go:54-111 | Purges exactly when the interview is still eligible and both deletes succeed; otherwise the tables stay as they were. |
| ByokCache.Key.Zero | internal/aigateway/key.go:52-62 | Overwrites every byte with zero and releases the key, once. |
| ByokCache.Key.Clone | internal/aigateway/key.go:38-42 | A copy in memory of its own with the same secret; of a zeroed key, an empty one. |
| ByokCache.Resolver.HeldByOneEntry | internal/aigateway/byok/resolver.go:139-275 | At every release of the mutex a key ever cached holds its secret exactly when one current entry, and only one, has it; otherwise all its bytes are zero; no two cached keys share memory. |
| ByokCache.Resolver.Evict | internal/aigateway/byok/resolver.go:267-275 | The entry goes and its key is zeroed; every other entry keeps its key intact. |
| ByokCache.Resolver.Lookup | internal/aigateway/byok/resolver.go:95-111 | An expired entry is evicted, a live one is returned with its version and check time. |
| ByokCache.Resolver.MarkChecked | internal/aigateway/byok/resolver.go:124-128 | Moves the entry's check time and nothing the cache depends on. |
| ByokCache.Resolver.EvictRotated | internal/aigateway/byok/resolver.go:130-134 | Evicts the rotated entry only if it is still the current one. |
| ByokCache.Resolver.CopyIfCurrent | internal/aigateway/byok/resolver.go:139-150 | A copy in fresh memory exactly when the entry looked up is still current. |
| ByokCache.Resolver.BeginLoad | internal/aigateway/byok/resolver.go:152-177 | A fresh copy of an unexpired entry's key, or the load in flight to wait for, or a new load; at most one load per company. |
| ByokCache.Resolver.Settle | internal/aigateway/byok/resolver.go:180-181 | The load leaves the table with its result. |
| ByokCache.Resolver.FinishLoad | internal/aigateway/byok/resolver.go:179-199 | The fetched key becomes the company's entry and is the only key added, the key it replaces is zeroed, the load leaves the table and the caller gets a copy in fresh memory. |
| ByokCache.Resolver.WaitedKey | internal/aigateway/byok/resolver.go:165-173 | A waiter's copy is empty exactly when the loaded key was evicted in between, or is itself empty. |
| ByokCache.Resolver.Invalidate | internal/aigateway/byok/resolver.go:221-225 | The company's entry is gone and its key zeroed. |
| ByokCache.Resolver.Sweep | internal/aigateway/byok/resolver.go:229-241 | Evicts exactly the expired entries and returns how many they were. |
| ByokCache.Resolver.Close | internal/aigateway/byok/resolver.go:259-265 | The cache is empty and every key it ever held is zeroed. |
| ByokCache.Resolver.ReleaseCopy | internal/aigateway/key.go:52-62 | A caller that zeroes its copy leaves the cache and its keys untouched. |
| ByokCache.Resolver.Others | internal/aigateway/byok/resolver.go:95-275 | Any list of sections of other calls, of the sweeper and of Close keeps the cache valid, adds only new keys and loads, and leaves a load to the call that started it. |
| ByokCache.Resolver.LoadKey | internal/aigateway/byok/resolver.go:152-200 | With other sections running at every release of the mutex, load returns a whole copy, in memory of its own, of a key loaded for that company. |
| ByokCache.Resolver.ResolveKey | internal/aigateway/byok/resolver.go:95-150 | The same of the whole call, for every answer to the version check. |
| ByokCache.Resolver.UseKey | internal/aigateway/key.go:52-62 | A caller's copy stays whole through any loads, evictions and Close of others until the caller zeroes it; what was sent is a secret loaded for its company, and the zeroing leaves the cache valid. |
| ByokFreshness.InvStep | internal/aigateway/byok/resolver.go:95-200 | Every critical section, store answer, rotation and tick keeps evidence for each cached, pending and returned version: an instant at which the store held it, inside a check or a load in flight throughout. |
| ByokFreshness.ReturnedIsFresh | internal/aigateway/byok/resolver.go:95-200 | For any check spacing, a returned version was current inside the call, or inside a load in flight when the call began, or in a check or load that ended less than the spacing before it. |
| ByokFreshness.CheckedEveryCall | internal/aigateway/byok/resolver.go:113-117 | With checks on every call the instant lies inside the call, or inside a load in flight as the call began; with no such load, inside the call. |
| ByokFreshness.OneFetch | internal/aigateway/byok/resolver.go:161-181 | At most one fetch is in flight, and every unserved waiter waits for that one. |
| ByokFreshness.JoinedLoadMayBeStale | internal/aigateway/byok/resolver.go:161-173 | From every state with a fetched key and nothing cached, whatever the check spacing: a call that begins after a rotation and joins the load returns a version current at no instant since the call began. |
| ByokFreshness.JoinedLoadRun | internal/aigateway/byok/resolver.go:152-181 | Such a state is reached by the first call on an empty cache. |
| ByokFreshness.InvalidateDuringLoad | internal/aigateway/byok/resolver.go:181-190 | From every state with a fetched key, invalidating first does not stop that key from being installed. |
| BillingPricing.Price | internal/billing/pricing.go:94-115 | The line list, zero lines omitted but the base fee, in 64-bit arithmetic. |
| BillingPricing.PerMillionIsCeiling | internal/billing/pricing.go:118-129 | The token charge is the least whole number of cents not below tokens times price over a million. |
| BillingPricing.PriceIsExactIff | internal/billing/pricing.go:94-129 | The lines' subtotal equals base plus overages plus rounded-up token charges exactly when that sum is at most 2^63 - 1. |
| BillingPricing.PriceIsMonotone | internal/billing/pricing.go:94-129 | More of any usage never lowers the amount due or the priced subtotal. |
| BillingPricing.Totals | internal/billing/pricing.go:169-182 | The wrapping loop returns the wrapped exact sums of charges and credits, and fails exactly when their difference is negative. |
| BillingCredits.ApplyCredits | internal/billing/pricing.go:143-166 | The loop's lines are those of the greedy spending of the sorted credits. |
| BillingCredits.GreedySpendsAll | internal/billing/pricing.go:143-166 | On every prefix of the sorted credits the amount spent is the smaller of the subtotal and the positive balances in it. |
| BillingCredits.GreedyIsBest | internal/billing/pricing.go:143-166 | No other way to cover the subtotal spends more of the credits expiring by any cutoff, and none covers more of it. |
| BillingCredits.BeforeIsAnOrder | internal/billing/credits.go:5-21 | The comparator is a strict weak order. |
| BillingCredits.OrderIsIrrelevant | internal/billing/credits.go:5-21 | With distinct ids the credit lines are the same for every order of the rows. |
| BillingCredits.TotalsNeverFail | internal/billing/close.go:115-129 | Once charges have a subtotal, adding credit lines never makes the totals fail: the total is the subtotal less the smaller of it and the available credit. |
| BillingConservation.PlanFits | internal/store/postgres/billing.go:119-148 | The lines a close computes take from each credit at most what other invoices that are not void leave of it. |
| BillingConservation.InvStep | internal/store/postgres/billing.go:44-163 | Every statement of every close, grant, issue and void keeps each credit within its grant, as long as a close that locked no credit row reads none. |
| BillingTheorems.CreditsAreConserved | internal/store/postgres/billing.go:44-163 | Over every such run across any number of periods, what non-void invoices take from a credit stays between 0 and its grant. |
| BillingTheorems.OneCreditIsEnough | internal/store/postgres/billing.go:51-56 | A company with any credit before its first close never overspends one, in any interleaving. |
| BillingTheorems.UnguardedCloseCanOverspend | internal/store/postgres/billing.go:51-56 | From every state where a close that locked nothing is about to take more from a credit another month can use, one more close overspends it. |
| BillingTheorems.TwoClosesOverspend | internal/store/postgres/billing.go:51-56 | A run from an empty ledger that spends a 100-cent credit twice. |
| BillingTheorems.KeptStep | internal/store/postgres/billing.go:66-117 | Every step changes lines and totals only of drafts, and moves a status only from draft to issued or void and from issued to void. |
| BillingTheorems.IssuedNeverChanges | internal/store/postgres/billing.go:74-76 | No run, guarded or not, changes the lines or totals of an issued or void invoice. |
| BillingTheorems.StoredTotalsAreSums | internal/store/postgres/billing.go:85-113 | Of every stored invoice the total is not negative, and subtotal and credits are the sums of its lines exactly when those fit 64 bits. |
| BillingTheorems.AnyRowOrder | internal/store/postgres/billing.go:119-148 | The invoice does not depend on the order in which the credit query lists its rows. |
| BillingTheorems.ClosingAgainChangesNothing | internal/store/postgres/billing.go:44-117 | Closing a period again with the same usage and plan, and nothing else changed, leaves the ledger as it is. |
| BillingTheorems.UninterruptedClose | internal/store/postgres/billing.go:44-117 | The statements of a close that nothing interrupts have the effect of the whole close, final invoices and failures included. |
| BillingWrite.BillingStore.WriteDraft | internal/store/postgres/billing.go:44-117 | The imperative close: creates, recomputes, leaves a final invoice alone or fails without effect, tied to the function the machine uses. |
| BillingWrite.BillingStore.IssueInvoice | internal/store/postgres/billing.go:152-163 | Issues exactly a draft, and nothing else changes. |
| BillingWrite.ComputeLines | internal/billing/close.go:121-128 | The closure's lines: the charges and the credits on their subtotal, or its error. |
| ScoringMetrics.Dedupe | internal/scoring/metrics/metrics.go:167-179 | The loop keeps the first copy of each number of the sorted timeline. |
| ScoringMetrics.DedupedIs | internal/scoring/metrics/metrics.go:167-179 | Dedupe's result is strictly ascending, holds one event of each number of the timeline, and with identical copies exactly its events. |
| ScoringMetrics.Count | internal/scoring/metrics/metrics.go:111-153 | The switch adds to each counter exactly the event's contribution to it. |
| ScoringMetrics.Compute | internal/scoring/metrics/metrics.go:95-163 | Every counter is the total of the activity events' contributions; it fails exactly when a counted event cannot be decoded. |
| ScoringMetrics.OrderAndCopiesAreIrrelevant | internal/scoring/metrics/metrics.go:93-163 | Any permutation and any repetition of the same events give the same metrics. |
| ScoringView.ComputeAgreesWithView | internal/analytics/schema.go:206-234 | Over a table with one row per sequence number, Compute has a result exactly when every counted event can be decoded and that result is the view's row and nothing else, last run status and time to first run included. |
| ScoringView.SumIsTotal | internal/analytics/schema.go:206-234 | A sum over the table's rows is the total over any list of them, in any order. |
| ScoringView.NoActivity | internal/scoring/metrics/metrics.go:154-163 | Where the view has no row, every metric is zero. |
| ScoringView.ZeroTimeDisagrees | internal/scoring/metrics/metrics.go:105-107 | At Go's zero time the two forms differ. |
| ScoringService.CaughtUpIff | internal/scoring/service.go:98-100 | The distinct count and the maximum reach n exactly when the log holds every number from 1 to n. |
| ScoringService.CompleteMetricsAreFinal | internal/scoring/service.go:169-198 | Metrics computed once caught up are unchanged by anything delivered later. |
| ScoringService.MaxAloneIsNotEnough | internal/scoring/service.go:95-97 | The maximum alone does not show that the log is complete. |
| ScoringService.ScoreSession | internal/scoring/service.go:169-215 | Behind exactly when not final and not caught up; offers a score exactly when the timeline can be read and decoded, marked complete exactly when caught up; the outcome follows the store's answer. |
| ScoringService.Backoff | internal/scoring/consumer.go:122-128 | The doubling loop waits min(base * 2^(k-1), max). |
| ScoringService.Handle | internal/scoring/consumer.go:82-119 | At most MaxAttempts calls, the k-th wait is the k-th backoff, every call but the last was behind, and an incomplete score is offered only by the last allowed call. |
| DiffDebouncer.Debouncer.Track | web/packages/api-client/src/diffs.ts:60-63 | Sets both contents of the path and nothing else. |
| DiffDebouncer.Debouncer.Edit | web/packages/api-client/src/diffs.ts:66-77 | Sets the current content; a timer is pending for the path, in its old place if it was. |
| DiffDebouncer.Debouncer.Enqueue | web/packages/api-client/src/diffs.ts:106-126 | Queues one post from the last queued content to the current one, with the next client number, or nothing when they are equal. |
| DiffDebouncer.Debouncer.FlushPath | web/packages/api-client/src/diffs.ts:98-104 | Posts a pending manual edit now and drops its timer; also what a timer does when it fires. |
| DiffDebouncer.Debouncer.ApplyAI | web/packages/api-client/src/diffs.ts:80-84 | Flushes the path's manual edit, then posts the suggestion. |
| DiffDebouncer.Debouncer.Flush | web/packages/api-client/src/diffs.ts:87-90 | Posts every pending path in the order the timers were set. |
| DiffReplay.ReplayState | web/packages/api-client/src/replay.ts:48-119 | The loop plays the sorted events up to the position; a patch that does not apply is noted and skipped. |
| DiffTheorems.InvStep | web/packages/api-client/src/diffs.ts:60-126 | Every editor step keeps the posts rebuilding exactly what was last posted, with client numbers 1, 2, 3 and so on. |
| DiffTheorems.FlushPostsEverything | web/packages/api-client/src/diffs.ts:87-90 | After a flush every file is posted as the editor shows it. |
| DiffTheorems.AIDiffIsPureIff | web/packages/api-client/src/diffs.ts:80-84 | The base of a suggestion's patch is the editor's content just before exactly when the file's manual edits are posted or pending. |
| DiffTheorems.AIDiffsArePure | web/packages/api-client/src/diffs.ts:80-84 | Without disposals no ai_applied diff contains a manual edit. |
| DiffTheorems.RetrackedReplayIff | web/packages/api-client/src/diffs.ts:60-63 | After tracking a file again and a flush, with every post arrived, replay shows what the log showed for it before; so it shows the editor exactly when the new content is that. |
| DiffTheorems.SwitchingBackIsNotReplayed | web/apps/candidate/src/components/Workspace.tsx:36-42 | After an edit, a switch to the other language and back, the editor shows the starter and replay the edit, for all files and contents. |
| DiffTheorems.DisposedEditJoinsAIDiff | web/packages/api-client/src/diffs.ts:80-96 | A run with a disposed timer whose AI diff leads from the starter, not from the manual edit the editor showed. |
| DiffTheorems.GuardAcceptsEveryArrival | internal/store/postgres/diffs.go:13-49 | Whatever is lost on the way, the guard drops none of the posts that arrive, and client and interview numbers order them the same way. |
| DiffTheorems.ReplayShowsWhatWasPosted | web/packages/api-client/src/replay.ts:48-119 | With every post accepted, replaying a timeline in any order and among any other events shows, at any position, the contents posted at that moment; no patch fails and the counts agree. |
| DiffTheorems.ReplayAfterFlushShowsEditor | web/packages/api-client/src/diffs.ts:87-90 | After a flush, with every post arrived, replaying the whole timeline shows each file as the editor has it, and no patch fails. |
| DiffStore.DiffMirrored | internal/store/postgres/diffs.go:13-49 | The store's diff transaction records a post exactly when the pipeline's server does, under the same number. |
| DiffStore.OthersMirrored | internal/store/postgres/events.go:25-51 | Events recorded in between only move the interview's counter, as they do in the pipeline's server. |
| Unidiff.CountUnifiedDiff | internal/candidateworkspace/unidiff.go:16-65 | The nested loops accept exactly what the grammar allows and return its counts. |
| Unidiff.ReadHunk | internal/candidateworkspace/unidiff.go:31-60 | A hunk is read exactly if its header matches the pattern, its lines have markers and its counts match. |
| Unidiff.DecimalIsDigits | web/packages/api-client/src/diffs.ts:19 | A printed number is a non-empty run of digits with that value. |
| UnidiffTheorems.AcceptedIff | internal/candidateworkspace/unidiff.go:16-65 | A patch is accepted exactly if its lines can be taken apart into file headers and at least one hunk whose body matches its header. |
| UnidiffTheorems.GrammarIsParsed | internal/candidateworkspace/unidiff.go:16-65 | However the lines are taken apart, the parser's counts are those of the parts, so there is one way only. |
| UnidiffTheorems.AcceptedPatchesBalance | internal/candidateworkspace/unidiff.go:16-73 | Of every accepted patch, lines added less lines removed is the sum of new counts less the sum of old counts. |
| UnidiffTheorems.MakePatch | web/packages/api-client/src/diffs.ts:9-22 | The loop prints file headers, adjusted hunk headers and lines, or nothing for no hunks. |
| UnidiffTheorems.HeaderIsRead | internal/candidateworkspace/unidiff.go:11-38 | The header pattern reads back the counts of a printed header, zero-length ranges included. |
| UnidiffTheorems.PrintedIsAccepted | internal/candidateworkspace/unidiff.go:16-65 | Every non-empty list of well-formed hunks, printed as the client prints it, is accepted with exactly its numbers of added and removed lines. |

## Assumptions

* Outbox ids are issued in insert order; session and invite ids are never reused;
  a score trigger and a recorded event name the session's own interview; callers
  of `RecordEvents` build their messages in ascending order of number.
* Live streaming: first publishes follow the log's order and the history is a prefix
  of the log. For the results about sent events, `LiveProtocol.Timely`: the ring a
  joining viewer reads has no hole above its oldest event and the cursor, the history
  reaches that event, and the ring a repair reads holds what the viewer misses.
  `CatchUpIsCompleteIff` and `RepairIsCompleteIff` show that both ring conditions are
  needed; the first can only fail when an event is redelivered after the ring has
  expired (`LiveProtocol.RingCoversUnlessRefilled`).
* The clock of the key cache never goes back.
* The patch library: equal contents make no patch, and applying a patch to the
  content it was made from gives the other content. Its hunks have starts from 1,
  marked lines and counts that match.
* A timeline's equal-numbered events are identical copies, its numbers start at 1
  and its times are after the zero time, as the event log guarantees.

## Left out

- ByokCache.Resolver.FinishLoad: the result of a fetch is put into the load and into the cache in one section, though the code writes it to the load just before; a waiter reads it only when the load is done.
- ByokFreshness.ReturnedIsFresh: one company; companies share only the mutex.
- BillingLedger.Step: shared row locks of foreign keys are not modelled, which only allows more interleavings; credits and invoices are values, not rows updated in place.
- BillingPricing.Price: descriptions of lines are not modelled; a token charge beyond 64 bits keeps its low 64 bits, which the library leaves undefined.
- ScoringMetrics.Compute: sums are unbounded integers, so overflow of 64-bit token and line counts is not modelled.
- ScoringView.ComputeAgreesWithView: assumes times after the zero time, which makes no column comparable and which the event log cannot store; what the view extracts from an undecodable payload is not modelled, as Compute has no result then.
- ScoringService.Backoff: durations are unbounded integers; doubling a wait above 2^62 nanoseconds is not modelled.
- ScoringService.ScoreSession: the recommendation never changes the outcome and is not modelled.
- DiffReplay.ReplayState: prompts, runs and descriptions of other events are not modelled; they do not touch files.
- DiffTheorems.FlushPostsEverything: requires that no timer was disposed, since disposing drops the pending edit.
- UnidiffTheorems.MakePatch: the diff computation is a parameter; paths and lines hold no newline.
- Store transactions are values in a state machine, so updates in place and aliasing of rows are not captured; deadlocks are rollbacks.
- The Redis bus: its script is the same ring update and its expiry is `Expire`; reading the ring, two commands there, is one step.
- SQL, Kafka, ClickHouse, S3, search and secret-manager drivers: only the atomicity the code relies on.
- JSON encoding and decoding: an event's decoded fields, or their absence, are given.
- Encryption, tokens and hashing.
- `closeCompany` and `Close` loops, `housekeeper.Run` and the relay's poll loop: they call the modelled operations for each item and collect a report.
- Liveness, heartbeats, timeouts and scanner buffer limits: safety and explicit bounds are stated instead.
- That purged data cannot reappear downstream: events still in the outbox or in Kafka can be ingested again.
