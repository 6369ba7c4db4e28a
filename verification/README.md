# Verified model of the chat backend's protocols

A chat service keeps its promises through several small protocols over PostgreSQL rows and Redis
keys, and a browser that rebuilds an answer from numbered deltas. This project models those
protocols in Dafny and proves what they keep over every run.

- **Quota** (`QuotaLedger`, `QuotaRuns`, `QuotaService`, `QuotaAnswers`, `Leases`, `Admission`): reservations are
  charged up front and refunded on settlement; a lease admits one command per actor, an advisory
  lock bounds the total.
- **Generation** (`Lifecycle`, `CommandAnswers`, `Streaming`, `StreamEnds`, `Conversations`,
  `ActivityGuard`, `ContextWindow`, `Cancellation`): a command is accepted or retried under an idempotency key, streamed, concluded
  and settled; its prompt is packed and summarized; it can be cancelled at any moment.
- **Delivery** (`ReplayWindow`, `Resume`, `Catchup`, `Resumption`, `ResumedRuns`, `Broker`, `Reducer`,
  `Text`): events are numbered, kept in a window of 256, replayed into a resuming connection and
  applied by the browser.
- **Outbox** (`OutboxRows`, `OutboxWorkers`, `OutboxProgress`, `OutboxRunner`): workers claim events
  under expiring locks, with receipts, retries and dead letters.
- **Sessions** (`SessionRows`, `SessionService`, `SessionAnswers`): rotating refresh tokens with reuse detection, the
  pattern of section 5.2.2.3 of RFC 6819.
- **Provider gateway** (`Resilience`): circuit breaker and stream slots.

Each SQL statement is a function on the rows it reads and writes, with its guard; each committed
transaction and each Redis call is one atomic step; a failing transaction changes nothing. A class
carries the same fields as the program's object, and each of its methods is proved equal to the
function of the old state, or to the steps of the state machine, that the lemmas speak about. State
machines (`Leases`, `Admission`, `OutboxWorkers`, `Resume`, `ActivityGuard`, `Cancellation`, the slots
of `Resilience`) take the interleaving of their steps as an arbitrary sequence.

What those functions compute is stated a second time without them, from the inputs and the fields of
the rows alone: how a run ends by the item its loop stops at (`StreamEnds`), which check or
transaction answers a command (`CommandAnswers`), what quotes, charges and settlements answer and
write (`QuotaAnswers`), what a rotation answers and writes (`SessionAnswers`), when an outbox row is
claimed, completed or failed (`OutboxWorkers.ClaimsIff`, `OutboxWorkers.CompletesIff`,
`OutboxWorkers.FailsIff`), and when the breaker is open, by its log (`Resilience.OpenInStretch`,
`Resilience.ClosedUntilNewFailures`).

`dafny verify dfyconfig.toml` checks the whole project.

## What the code does differently from what one might expect

- The insert arm of the daily usage statement checks no limit (`QuotaRuns.AddDailyUsageCap`,
  `QuotaRuns.InsertArmOvershoots`). The caps hold because callers reserve quotes and limits are at
  least 1 (`QuotaRuns.CapsHold`).
- A Settle whose transaction fails still gives the lease back, so one actor can hold two
  outstanding reservations (`Leases.FailedSettleAdmitsSecond`). A second one can be taken exactly when
  no earlier call of the actor holds the lease any more (`Leases.LeaseGrantedIff`,
  `Leases.SecondOutstandingIff`).
- Finalizing a generation and settling it fail exactly when a count, narrowed to int32, is negative;
  the generation then stays active or the reservation outstanding (`Streaming.OverlongCountStrands`,
  `Streaming.RunOutcome`, `Streaming.SettlesIff`, `Lifecycle.RunEndsWhatItStarted`).
- The idle write that ends a run has no guard. A run keeps the activity guard if and only if no idle
  write finds a generation active, another command's or its own whose counts did not fit
  (`ActivityGuard.GuardHoldsIff`); `ActivityGuard.ExpiryDeletesUnderGeneration` shows one that does.
  Leases that outlive their commands and counts that fit rule it out (`ActivityGuard.GuardHolds`).
- Idempotency keys are checked in bytes (chat/service.go:204, realtime/handler.go:357) and stored under a
  CHECK on characters. A key of at least 16 bytes but less than 16 characters passes the checks and
  is then refused by every insert (`Lifecycle.WideKeyIsRefused`, `Lifecycle.EightWideCharacters`).
- A summary that is too long, or whose reported input count is negative as an int32, is not stored,
  and the prompt goes out with an older one (`ContextWindow.ExtendedIsNext`).
- docs/m0-contract-baseline.md:48 promises an explicit refetch after a missed replay. A client that
  resumes with 0 is never told to (`ReplayWindow.ZeroNeverResyncs`).
- Live events can be queued between replayed ones (realtime/handler.go:219-223 and 285-308). A live
  delta that overtakes the one before it is ignored by the browser, whose text then stays short
  although both were sent and no resync was raised (`ResumedRuns.LiveOvertakesReplay`).
- The streaming loop ignores a failed emit of a delta and goes on (chat/service.go:543-545), which
  strands the browser in the same way (`ResumedRuns.FailedEmitStrands`), unless the event was
  appended and a replay brings it in time (`ResumedRuns.ReplayMakesUp`).
- A client resumes with the highest number it has received (web/src/components/chat/chat-app.tsx:155).
  Events are numbered before they are published, so a heartbeat can arrive before a delta with a lower
  number. A client that reconnects in between asks past that delta and is never sent it, with no emit
  failed and no resync raised (`ResumedRuns.AskedPastGap`).
- In this model these are all the ways: a resumed browser counts every delta it is sent if and only if
  none overtakes an earlier one and none has a predecessor that was never sent
  (`Resumption.CaughtUpIff`, `Resumption.ResumedBrowserIff`), and a predecessor is never sent only if
  its emit has failed or the client has asked past it (`Resumption.HoleCauses`).
- An outbox worker that stalls past its lock can call the handler of a dead-lettered event
  (`OutboxProgress.StaleWorkerHandlesDeadEvent`), exactly when it still had a task at the time of the
  dead letter (`OutboxProgress.HandlerReachableIff`, `OutboxProgress.DeadButHandledIff`).
- Claims never look at the limit of attempts, so a claim that takes over an expired lock at the limit
  exceeds it, and nothing else does (`OutboxProgress.ExpiryExceedsMaxAttempts`,
  `OutboxProgress.AttemptsBoundedIff`).
- The advisory lock of an outbox event lives on a connection of its own. When that dies, the handler
  goes on and a second worker can join it (`OutboxWorkers.TwoInHandler`); workers exclude each other
  exactly as long as the lock is not granted past such an orphan (`OutboxWorkers.ExclusionIff`). While
  the event is not processed the handler may run more than once; the receipt prevents it afterwards
  (docs/data-model.md:513), save for such orphans (`OutboxWorkers.HandlingAfterProcessed`).
- The retry delay wraps at attempt 35 (`OutboxRows.RetriesOnTimeIff`).
- A cancel after the stream has deregistered leaves an entry in the pending map
  (`Cancellation.LateCancelLeavesEntry`). A cancel before streaming cancels the context, and the
  generation may then end failed rather than cancelled; nothing here says otherwise.

## Model

| member | source | states |
|---|---|---|
| `QuotaRuns.HistoryConserves` | apps/api/internal/quota/service.go:155-353 | After any history of guest creations, quotes, reservations and settlements, under any succession of policies and days, every user-day, guest and global-day counter equals the sum over the reservations that charged it of reserved (outstanding) or actual (settled) tokens, and every message counter is their number |
| `QuotaRuns.ApplyConserves` | apps/api/internal/quota/service.go:110-353 | Each single step keeps that conservation law |
| `QuotaRuns.CreateGuestConserves` | apps/api/internal/platform/store/guests.sql.go:33-40 | A new guest row with empty counters keeps the books balanced |
| `QuotaRuns.SettlesAmidTraffic` | apps/api/internal/quota/service.go:300-352 | However much quota activity, and however many midnights, fall between a reservation and its settlement: the settlement succeeds for every amount up to the reserved one and moves exactly the counters the reservation charged |
| `QuotaRuns.SettledForGood` | apps/api/internal/quota/service.go:306-315 | Whatever follows a settlement, settling the reservation again with any amount in range changes nothing |
| `QuotaRuns.ContinueConserves` | apps/api/internal/quota/service.go:110-353 | Conservation holds in every continuation of a conserved ledger |
| `QuotaRuns.ReservationSurvives` | apps/api/internal/quota/service.go:300-315 | Only a settlement that names a reservation changes it, and a settled one not even that, from any state on |
| `QuotaRuns.StepSpares` | apps/api/internal/quota/service.go:300-315 | No other single step changes it |
| `QuotaRuns.CapsHold` | apps/api/internal/quota/service.go:214-284 | With one policy whose limits are at least 1, no counter ever exceeds its token or message limit, in every interleaving of quotes and reservations and with midnights in between |
| `QuotaAnswers.QuotedIff` | apps/api/internal/quota/service.go:214-250 | A quote is given if and only if the model limit is positive, id and kind are known, a guest has a row, and the actor's tokens and everybody's tokens of the day are each below their limit; every refusal has the error of its guard |
| `QuotaAnswers.QuoteIsLargest` | apps/api/internal/quota/service.go:245-249 | A quote is the largest answer within the model limit and what both budgets have left |
| `QuotaAnswers.UserQuoteIsGranted` | apps/api/internal/quota/service.go:155-203 | A user's quote reserved on the same day from the same tables is never refused for tokens: the charge succeeds if and only if reservations, messages and the id allow it |
| `QuotaAnswers.GuestQuoteIsGranted` | apps/api/internal/quota/service.go:155-203 | The same for a guest up to the two limits the quote does not look at, the table's ceiling of 10000 tokens and the limit narrowed to int32; a policy of at most 10000 meets both |
| `QuotaRuns.QuoteIsAffordable` | apps/api/internal/quota/service.go:252-284 | A quote never exceeds a whole day of either budget, nor the model limit, so it fits the unguarded insert arm and survives narrowing to int32 |
| `QuotaRuns.ReserveKeepsCaps` | apps/api/internal/quota/service.go:155-203 | A reservation of an affordable quote leaves every counter within its caps, on whatever day it lands |
| `QuotaRuns.SettleKeepsCaps` | apps/api/internal/quota/service.go:300-352 | A settlement leaves every counter within its caps |
| `QuotaRuns.BalancesNonNegative` | apps/api/internal/platform/store/platform.sql.go:64-71 | No token counter is ever negative |
| `QuotaRuns.AddDailyUsageCap` | apps/api/internal/platform/store/platform.sql.go:15-30 | A charge leaves the row within its limits if and only if the row existed or the charge alone fits: the insert arm checks nothing |
| `QuotaRuns.InsertArmOvershoots` | apps/api/internal/platform/store/platform.sql.go:19-28 | A concrete reservation of 2 tokens under a limit of 1 that the insert arm lets through |
| `QuotaRuns.AvailableOutputTokens` | apps/api/internal/quota/service.go:273-284 | Succeeds exactly when the model limit and every remaining budget are positive, and then yields one of them that is at most all the others |
| `QuotaLedger.ReserveConserves` | apps/api/internal/quota/service.go:155-203 | A successful Reserve transaction keeps the ledger conserved |
| `QuotaLedger.ReserveBalances` | apps/api/internal/quota/service.go:166-195 | After a successful Reserve every counter equals what its reservations owe |
| `QuotaLedger.ReserveCharges` | apps/api/internal/quota/service.go:166-203 | Exactly the actor bucket and the global bucket of the day rise, by the reserved tokens and one message |
| `QuotaAnswers.UserReserveAnswers` | apps/api/internal/quota/service.go:155-203 | What a charge to a user answers: busy, exceeded, a database error or granted, each if and only if the rows say so |
| `QuotaAnswers.GuestReserveAnswers` | apps/api/internal/platform/store/guests.sql.go:104-115 | The same for a guest, where exceeding the table's own ceilings is a database error |
| `QuotaAnswers.ReserveWrites` | apps/api/internal/quota/service.go:166-202 | All rows after a granted charge: one message and the tokens on the actor's row and on everybody's row of the day, one reservation, and no other change |
| `QuotaAnswers.SettleAnswers` | apps/api/internal/quota/service.go:296-315 | A settlement succeeds if and only if the amount is in range and the row is settled already or has the same actor and amount |
| `QuotaAnswers.SettleFindsNothing` | apps/api/internal/quota/service.go:301-304 | A reservation without a row is invalid |
| `QuotaAnswers.SettleWrites` | apps/api/internal/quota/service.go:316-350 | All rows after a settlement: the unused tokens are off the rows charged on the stored day, the reservation records the amount, and nothing else changes |
| `QuotaAnswers.OutstandingCounts` | apps/api/internal/platform/store/platform.sql.go:181-185 | The outstanding reservations are the rows in status reserved |
| `QuotaLedger.UserReserveSucceedsIff` | apps/api/internal/quota/service.go:156-203 | A user's Reserve transaction succeeds if and only if outstanding reservations are below the limit, the user's and the global bucket admit the charge and the id is new; then one more is outstanding, within the limit |
| `QuotaLedger.GuestReserveSucceedsIff` | apps/api/internal/platform/store/guests.sql.go:104-115 | The same for a guest, whose row must exist, be unmigrated and unexpired, and whose counters have fixed ceilings besides the policy |
| `QuotaLedger.ReserveAppends` | apps/api/internal/quota/service.go:196-202 | A successful Reserve leaves exactly one more reservation outstanding |
| `QuotaLedger.SettleRecords` | apps/api/internal/platform/store/platform.sql.go:424-430 | A settlement records the amount, as refunded exactly for zero and committed otherwise, and changes no other reservation |
| `QuotaLedger.SettleConserves` | apps/api/internal/quota/service.go:300-352 | A successful Settle transaction keeps the ledger conserved |
| `QuotaLedger.SettleRefunds` | apps/api/internal/quota/service.go:316-336 | A settlement lowers exactly the two counters of the stored day by the unused tokens and touches no message counter |
| `QuotaLedger.ClampNeverBites` | apps/api/internal/platform/store/platform.sql.go:64-71 | GREATEST(.., 0) never truncates: a counter holds at least what is about to be refunded plus what is kept |
| `QuotaLedger.OwedPositiveMeansPresent` | apps/api/internal/platform/store/guests.sql.go:15-20 | The rows an outstanding reservation charged are present and positive |
| `QuotaLedger.UpdateSums` | apps/api/internal/platform/store/platform.sql.go:424-430 | Rewriting one reservation row changes the sum of a bucket by the change of that row alone |
| `QuotaLedger.OwedAtLeast` | apps/api/internal/platform/store/platform.sql.go:424-430 | A bucket owes at least the cost of any one reservation that charged it |
| `QuotaLedger.ReserveThenSettle` | apps/api/internal/quota/service.go:286-353 | Reserve then Settle costs each of the two buckets exactly the settled tokens and one message, and leaves as many reservations outstanding as before; settling 0 undoes every token |
| `QuotaLedger.SettleIsIdempotent` | apps/api/internal/quota/service.go:296-315 | A second Settle, with any amount in range, changes nothing; out of range it is refused |
| `Basics.Int32Tightens` | apps/api/internal/quota/service.go:171-172 | int32(limit) never exceeds the limit and is exact precisely below 2^31 |
| `Basics.Int32Wraps` | apps/api/internal/chat/service.go:647-652 | Narrowing to int32 changes a number by a multiple of 2^32, and not at all if it fits |
| `Basics.IndexOf` | apps/api/internal/platform/store/platform.sql.go:350-352 | A lookup by a unique column finds a matching row exactly when there is one |
| `QuotaAnswers.ReserveAnswers` | apps/api/internal/quota/service.go:110-212 | What Reserve answers guard by guard, on which day it charges, and the lease it holds: until now plus the TTL |
| `QuotaAnswers.LeaseKeepsOut` | apps/api/internal/quota/service.go:135-143 | After a granted Reserve that is not settled, the actor's next one is busy if and only if it comes before the TTL has passed, or its own transaction says so |
| `QuotaAnswers.ChargedDay` | apps/api/internal/quota/service.go:145-145 | The day charged is the one the clock reads |
| `QuotaService.ReserveIsAllOrNothing` | apps/api/internal/quota/service.go:145-212 | A refused Reserve leaves the tables unchanged and no lease of its own; a granted one was not possible under a live lease and holds exactly its own |
| `QuotaService.LeastBudget` | apps/api/internal/quota/service.go:273-284 | The loop over the budgets computes AvailableOutputTokens |
| `QuotaService.Service.MaxOutputTokens` | apps/api/internal/quota/service.go:214-271 | Reads the same counters Reserve charges and returns their least remaining budget, with every error case |
| `QuotaService.Service.Reserve` | apps/api/internal/quota/service.go:110-212 | Statement-by-statement form of Reserve: tables, leases and answer equal ReserveOutcome |
| `QuotaService.Service.ReserveTransaction` | apps/api/internal/quota/service.go:155-203 | The closure equals ReserveTx, with the same error at the same guard |
| `QuotaService.Service.ChargeUsage` | apps/api/internal/platform/store/platform.sql.go:15-30 | The upsert in place equals AddDailyUsage |
| `QuotaService.Service.Refund` | apps/api/internal/platform/store/platform.sql.go:64-71 | The clamped update in place equals AdjustDailyOutputUsage |
| `QuotaService.Service.SettleTransaction` | apps/api/internal/quota/service.go:300-352 | The closure equals SettleTx |
| `QuotaService.Service.SettleWithinTransaction` | apps/api/internal/quota/service.go:296-353 | The amount check and the transaction, rolled back on failure |
| `QuotaService.Service.Settle` | apps/api/internal/quota/service.go:286-353 | The table effect of Settle, and the lease given back whatever the result |
| `Leases.HoldersOwnTheStore` | apps/api/internal/platform/redisx/client.go:133-166 | In every run, a call that counts on its lease is the one the store names |
| `Leases.LeaseExcludes` | apps/api/internal/quota/service.go:135-143 | Two calls never hold an unexpired lease for one actor |
| `Leases.LateReleaseIsHarmless` | apps/api/internal/platform/redisx/client.go:148-166 | A late Settle or failed Reserve never frees a newer owner's lease |
| `Leases.LeaseGrantedIff` | apps/api/internal/platform/redisx/client.go:133-146 | After any run a new call gets the actor's lease if and only if every earlier call of that actor has released it or let it expire |
| `Leases.SecondOutstandingIff` | apps/api/internal/quota/service.go:135-153 | With one reservation outstanding, a second one can be taken at that moment if and only if no call of the actor holds the lease any more; the first has then lost it by release or expiry |
| `Leases.LiveEntriesStayHeld` | apps/api/internal/platform/redisx/client.go:133-166 | In every run, a live entry of the store names a call of that actor that has not released and expires with it |
| `Leases.StepKeepsHeld` | apps/api/internal/platform/redisx/client.go:133-166 | Each step keeps that |
| `Leases.StepKeepsUnreleased` | apps/api/internal/quota/service.go:286-295 | No step but a failing settlement makes an outstanding call release |
| `Leases.OutstandingIsUnreleased` | apps/api/internal/quota/service.go:286-295 | When every settlement commits, an outstanding reservation still has its lease unreleased |
| `Leases.OneOutstandingPerActor` | apps/api/internal/quota/service.go:135-153 | If settlements commit and reservations are younger than the TTL, an actor has at most one outstanding; what happens otherwise is said by SecondOutstandingIff |
| `Leases.FailedSettleAdmitsSecond` | apps/api/internal/quota/service.go:291-295 | Concrete run: a Settle whose transaction fails gives the lease back, and the actor holds two outstanding reservations within the TTL |
| `Admission.AdmissionBound` | apps/api/internal/platform/store/platform.sql.go:341-343 | In every interleaving of lock, count, charge, insert, commit, rollback and settle, outstanding reservations never exceed the limit |
| `Admission.StepKeepsInv` | apps/api/internal/quota/service.go:156-165 | Each step keeps: only the lock holder is past its count, and its count is still an upper bound |
| `Admission.CommitKeepsInv` | apps/api/internal/quota/service.go:196-203 | The commit that makes a reservation visible keeps the bound |
| `Lifecycle.SettledOnceAmidTraffic` | apps/api/internal/chat/service.go:246-319 | Any quota calls of other commands may fall between the acceptance of a command and the end of its run, and after it: its settlement succeeds if and only if its narrowed count is not negative, moves exactly its two buckets from where they are by then, and nothing later settles it again |
| `Lifecycle.SettledExactlyOnce` | apps/api/internal/chat/service.go:246-319 | For one command from start to end: refused or duplicate commands leave all token counters as they were, one whose run starts (a generate command once acknowledged, a retry in any case) costs exactly its two buckets min(output, reserved) if the narrowed count is not negative, and that is exactly when nothing stays outstanding; for commands among others see SettledOnceAmidTraffic |
| `Lifecycle.OutcomeIsCalls` | apps/api/internal/chat/service.go:360-379 | What a command does to the ledger is what its quote, its reservation and, unless accepted, its settlement of 0 do as separate calls |
| `Lifecycle.ReservedIsCalls` | apps/api/internal/chat/service.go:360-434 | The same from the reservation on, for any answer of the transaction |
| `Lifecycle.CallsSpareOthers` | apps/api/internal/chat/service.go:360-379 | A command's calls settle no reservation but its own |
| `Lifecycle.AcceptedIsHeld` | apps/api/internal/quota/service.go:196-212 | An accepted command holds an unsettled row of its own in the table |
| `Lifecycle.ReservedIsHeld` | apps/api/internal/quota/service.go:196-212 | A granted reservation is the newest row of the table, unsettled |
| `Lifecycle.SettlesOnceAt` | apps/api/internal/quota/service.go:286-353 | Any held reservation settles once amid any traffic, and never again |
| `Lifecycle.RunEndsWhatItStarted` | apps/api/internal/chat/service.go:437-742 | After a command and its run the conversation, message and generation tables are as the statements of the run leave them: numbering and keys intact, the conversation idle, and nothing active if and only if the final counts fit |
| `Lifecycle.CommittedKeepsInv` | apps/api/internal/chat/service.go:382-422 | A committed transaction leaves a consistent conversation |
| `Lifecycle.CommittedHasPassed` | apps/api/internal/chat/service.go:382-434 | A transaction that commits met an unused key, nothing active and a live conversation, and leaves an accepted generation and an empty pending message for its run |
| `Lifecycle.AcceptedOrUntouched` | apps/api/internal/chat/service.go:322-435 | accept and Retry keep a reservation exactly when they accept; every other exit restores every balance, settles at most one 0, and holds no lease |
| `Lifecycle.CommittingHoldsOrCloses` | apps/api/internal/chat/service.go:370-434 | From the reservation on: accepted if and only if context, ids and transaction succeed, otherwise exactly one settlement of 0 |
| `Lifecycle.ReservingGrants` | apps/api/internal/chat/service.go:360-369 | A granted reservation is the Reserve transaction for a positive amount within the model limit, under its own live lease |
| `Lifecycle.SettlingCloses` | apps/api/internal/chat/service.go:660-661 | Settling a granted reservation moves exactly its two buckets by the amount and frees the lease |
| `Lifecycle.AbandoningCloses` | apps/api/internal/chat/service.go:370-379 | Settling 0 leaves no trace in any token counter |
| `Lifecycle.HoldingConserves` | apps/api/internal/quota/service.go:204-212 | While the reservation is held the ledger is conserved and one more is outstanding |
| `CommandAnswers.GenerateAnswers` | apps/api/internal/chat/service.go:322-362 | Which check answers a generate command, as one if-and-only-if for each refusal: a malformed key, an unavailable service, a malformed payload, the safety check, a conversation that is gone, a provider that is not there; a live conversation that already has the key makes it a duplicate; none of them changes anything |
| `CommandAnswers.RetryAnswers` | apps/api/internal/chat/service.go:194-238 | The same for a retry, which is refused as not retryable if and only if the newest generation read is neither cancelled nor failed in a retryable way, or there is none |
| `CommandAnswers.QuotaAnswers` | apps/api/internal/chat/service.go:363-375 | The quota refuses a command with an error if and only if the command meets every check before and quoting or reserving gives that error |
| `CommandAnswers.ReservingAnswers` | apps/api/internal/chat/service.go:363-375 | Quote and reservation are two calls, each on the day its own clock reads |
| `CommandAnswers.ReservedAnswers` | apps/api/internal/chat/service.go:376-434 | A command with a reservation is accepted if and only if its context is built, its ids are drawn, and the transaction finds its key long enough and unused, nothing running and the conversation there; it is a duplicate if and only if the key is used by then; otherwise it is an internal error; unless accepted it settles 0 |
| `CommandAnswers.AcceptedGenerateLeaves` | apps/api/internal/chat/service.go:388-422 | All rows of the conversation after an accepted generate command: question and pending answer numbered next, and one accepted generation that joins them, with the key, the model read, the reservation and no parent |
| `CommandAnswers.AcceptedRetryLeaves` | apps/api/internal/chat/service.go:225-297 | All rows after an accepted retry: a pending answer, and a generation to the question and with the model of the newest generation read, as its child |
| `CommandAnswers.RunsStarted` | apps/api/internal/chat/service.go:311-319 | An accepted retry's run starts in any case, a generate command's exactly once it is acknowledged; a run that starts settles once, by the amount it computed, and gives the lease back |
| `Lifecycle.LateDuplicate` | apps/api/internal/chat/service.go:425-434 | For generate and retry alike, past the gates: a key that another command used between the check and the transaction makes this one a duplicate, if and only if it is used; accepted if and only if the key has at least 16 characters and is unused, no generation is active and the conversation is not deleted |
| `Lifecycle.TransactionAnswers` | apps/api/internal/chat/service.go:382-434 | What the transaction answers a command that has passed its checks |
| `Lifecycle.WideKeyIsRefused` | apps/api/migrations/00002_models_chat.sql:141-141 | The table refuses a key that the byte-counting gates let through if and only if it has less than 16 characters; such a command is never accepted, settles 0 and leaves every row and token as it found them |
| `Lifecycle.EightWideCharacters` | apps/api/internal/chat/service.go:204-206 | Concrete key: eight two-byte characters pass the gates and fail the CHECK |
| `Lifecycle.CharactersAtMostBytes` | apps/api/internal/chat/service.go:204-206 | A text has at most as many characters as bytes |
| `Lifecycle.TableRefuses` | apps/api/migrations/00002_models_chat.sql:141-141 | With such a key both transactions fail with a database error, whatever else they meet |
| `Lifecycle.GateHasPassed` | apps/api/internal/chat/service.go:194-260 | What a command has passed when it comes to reserve |
| `Lifecycle.AcceptedHasPassed` | apps/api/internal/chat/service.go:194-369 | What every accepted command has passed: availability, key length in bytes and in characters, content length, safety, provider, rate limit, no live lease, a conversation not deleted and a key unused both when read and when met, a retryable predecessor for Retry; afterwards the key is used and a generation is active |
| `Lifecycle.BrowserFollowsRun` | apps/api/internal/chat/service.go:499-570 | From provider to browser: under any drops, repeats and reorders the browser shows a prefix of the stored message, equal to it if and only if the deltas arrived in order (repeats and stragglers allowed); for a finished run that is the provider's whole answer |
| `Lifecycle.ChatService.ReserveOutput` | apps/api/internal/chat/service.go:360-369 | MaxOutputTokens then Reserve, as the function Reserving |
| `Lifecycle.ChatService.Abandon` | apps/api/internal/chat/service.go:370-374 | Settle(.., 0) with its error ignored |
| `Lifecycle.ChatService.Accept` | apps/api/internal/chat/service.go:322-435 | The envelope check and accept, guard by guard, equal Outcome of a generate command |
| `Lifecycle.ChatService.Retry` | apps/api/internal/chat/service.go:194-320 | Retry, guard by guard, equals Outcome of a retry command |
| `Lifecycle.ChatService.ReserveAndCommit` | apps/api/internal/chat/service.go:360-434 | The tail accept and Retry have in common |
| `Lifecycle.ChatService.Commit` | apps/api/internal/chat/service.go:382-434 | What the transaction answers and the three ways out of it |
| `Lifecycle.ChatService.Start` | apps/api/internal/chat/service.go:437-742 | Running the goroutine settles the reservation once, with min(int32(output), reserved), and leaves generation, message and conversation rows as the run ends them |
| `Lifecycle.ChatService.Live` | apps/api/internal/realtime/handler.go:225-256 | Command, acknowledgement (for generate), run: quota, conversation tables and answer equal Lifetime |
| `StreamEnds.HowRunEnds` | apps/api/internal/chat/service.go:499-570 | How a run ends, from the script alone. Let item k be the first whose text is not allowed, too long or not written, or after which the stream does not go on: the message holds all that was said before it, with its own text if that was taken; it is complete if and only if that text was taken and the stream ended normally, cancelled if and only if it was taken and the provider was cancelled, and failed otherwise |
| `StreamEnds.WhatRunRecords` | apps/api/internal/chat/service.go:618-742 | Unless a narrowed count is negative, the generation row ends like the message, with the answer's byte length, the last counts reported up to item k with estimates for zeros, and a reason: Safety exactly for a blocked text, Error for any other failure, CancelledByUser for a cancellation, and the last reason reported up to item k for a completed run |
| `StreamEnds.WhenRunCanBeRetried` | apps/api/internal/chat/service.go:685-728 | Event and generation of a failed run are retryable exactly as the problem of the check, of the write or of the provider says; a blocked text never is |
| `StreamEnds.WhatRunAnnounces` | apps/api/internal/chat/service.go:543-559 | The events are the start, one delta for each non-empty text of the answer at the byte length of those before it, and one terminal event, completed, cancelled or failed as the stopping item decides |
| `StreamEnds.RunEvents` | apps/api/internal/chat/service.go:543-559 | The events of an ended run in their order |
| `StreamEnds.WhatRunSettles` | apps/api/internal/chat/service.go:660-661 | The one settlement is of the narrowed output count, or of the whole reservation if that is less |
| `StreamEnds.WhatRunStrands` | apps/api/internal/platform/store/chat.sql.go:314-330 | If a narrowed count is negative, the generation stays streaming at its last checkpoint |
| `StreamEnds.HowUnopenedRunEnds` | apps/api/internal/chat/service.go:463-496 | A run that cannot be marked or connected fails with that problem, stores nothing and settles nothing |
| `StreamEnds.EveryLoopStops` | apps/api/internal/chat/service.go:503-560 | Every script has exactly one item at which the loop stops |
| `StreamEnds.LoopEnds` | apps/api/internal/chat/service.go:514-559 | What stopped the loop, what it has kept and which counts and reason it has read |
| `StreamEnds.LoopLeaves` | apps/api/internal/chat/service.go:499-560 | At the stopping item the loop holds the texts, counts and reason of the items until then |
| `StreamEnds.LoopReaches` | apps/api/internal/chat/service.go:503-549 | The loop goes through every item before the one it stops at |
| `StreamEnds.LastIsLast` | apps/api/internal/chat/service.go:508-513 | The counts and the reason kept are those of the last item that reported any |
| `StreamEnds.NothingReported` | apps/api/internal/chat/service.go:500-502 | Without a report the counts are 0 and the reason is a stop |
| `StreamEnds.TextsAreSaid` | apps/api/internal/chat/service.go:527-528 | The non-empty texts together are the answer |
| `StreamEnds.LoopCounts` | apps/api/internal/chat/service.go:561-568 | The counts a run is charged by, from the last report and the answer |
| `StreamEnds.RunConcludes` | apps/api/internal/chat/service.go:618-742 | The rows of an ended run by what ended it |
| `Streaming.RunOutcome` | apps/api/internal/chat/service.go:437-742 | On return of a run, for every provider script, safety answer and write error: stored text is the announced chunks, each at its byte offset and each prefix checked; one terminal event, one settlement; message terminal; generation terminal, with stored length as stream_offset, if and only if its counts fit |
| `Streaming.OverlongCountStrands` | apps/api/internal/chat/service.go:561-568 | Concrete script: a provider that reports 2^31 output tokens leaves a complete message, an idle conversation and an active generation, and the settlement is refused with the reservation untouched |
| `Streaming.RunStores` | apps/api/internal/chat/service.go:499-570 | What a run stored, before it is concluded |
| `Streaming.WrittenIsStored` | apps/api/internal/chat/service.go:514-545 | Stored content is the concatenation of the written chunks, all non-empty, every prefix allowed by the output check, at most 200000 characters |
| `Streaming.FinishedMeansWhole` | apps/api/internal/chat/service.go:547-569 | A run that finished wrote the provider's whole answer |
| `Streaming.WrittenStep` | apps/api/internal/chat/service.go:514-560 | One loop iteration against the chunks still to be written |
| `Streaming.AheadStep` | apps/api/internal/chat/service.go:499-560 | What the rest of the script will write and how it will end does not change as the loop advances |
| `Streaming.ChunkTaken` | apps/api/internal/chat/service.go:514-545 | Once a chunk is taken, what is left to write is what remains of the script |
| `Streaming.StoredFront` | apps/api/internal/chat/service.go:514-545 | Prepending an accepted chunk keeps the stored-text property |
| `Streaming.MidwayStep` | apps/api/internal/chat/service.go:527-545 | Append, checkpoint and delta take the rows after n chunks to the rows after n+1, the delta's offset being the length before it |
| `Streaming.CheckpointTwice` | apps/api/internal/platform/store/chat.sql.go:48-56 | A later checkpoint of a longer text replaces an earlier one |
| `Streaming.DeltaEventsSnoc` | apps/api/internal/chat/service.go:543-545 | The deltas of n+1 chunks are those of n and one at the next offset |
| `Streaming.DeltasAreGenuine` | apps/api/internal/chat/service.go:543-545 | The announced deltas are the ones the browser model handles |
| `Streaming.ConcludeCloses` | apps/api/internal/platform/store/chat.sql.go:314-330 | finish, fail and blockSafety leave message, generation and conversation terminal and in agreement if and only if the counts fit |
| `Streaming.SettlesIff` | apps/api/internal/chat/service.go:660-661 | Settling min(int32(output), reserved) succeeds if and only if the narrowed count is not negative, and then the amount lies in [0, reserved] |
| `Streaming.FinalUsageFacts` | apps/api/internal/chat/service.go:561-568 | The provider's counts are kept where it gave any and estimated where not; output is 0 only for an empty answer that did not finish |
| `Streaming.EstimatesAdd` | apps/api/internal/chat/service.go:634-638 | A missing input count is the sum of the estimates of the prompt's messages |
| `Streaming.EndsAgree` | apps/api/internal/chat/service.go:618-742 | Generation status, message status and terminal event always agree, and only a broken run is marked retryable |
| `Streaming.OrdinaryCountsFit` | apps/api/internal/chat/service.go:647-652 | Provider counts in [0, 2^31) fit and are stored exactly |
| `Streaming.StoredOffsetExact` | apps/api/internal/chat/service.go:539-542 | A stored message is short enough for its byte length to survive int32 |
| `Streaming.Run.Stream` | apps/api/internal/chat/service.go:437-570 | stream: exactly one of finish, fail and blockSafety concludes; rows, quota tables and lease as RunRows and one Settle say |
| `Streaming.Run.Pump` | apps/api/internal/chat/service.go:499-560 | The loop: buffer, stored message and announced deltas agree at every iteration |
| `Streaming.Run.Take` | apps/api/internal/chat/service.go:512-545 | One item: checked, written and announced, or the loop ends with the reason |
| `Streaming.Run.WriteChunk` | apps/api/internal/chat/service.go:527-545 | One chunk stored, checkpointed and announced |
| `Streaming.Run.Begin` | apps/api/internal/chat/service.go:463-484 | Generation and conversation marked streaming, started announced |
| `Streaming.Run.Finish` | apps/api/internal/chat/service.go:618-683 | finish on rows, quota tables and lease |
| `Streaming.Run.Fail` | apps/api/internal/chat/service.go:685-742 | fail, which counts the stored message rather than the buffer |
| `Streaming.Run.BlockSafety` | apps/api/internal/chat/service.go:572-616 | blockSafety on rows, quota tables and lease |
| `Streaming.Run.Close` | apps/api/internal/chat/service.go:595-615 | The statements the three have in common, with one settlement |
| `Streaming.Run.FillInput` | apps/api/internal/chat/service.go:634-638 | The loop that estimates missing input counts |
| `Conversations.HistoryKeepsInv` | apps/api/internal/chat/service.go:346-434 | Over any serial history of generate, retry and row updates with any repeated keys: one generation per key, every key of 16 to 128 characters, at most one active, messages numbered exactly 1..n |
| `Conversations.StepKeepsInv` | apps/api/internal/chat/service.go:382-422 | Each transaction or row update keeps that |
| `Conversations.UpdateKeepsInv` | apps/api/internal/platform/store/chat.sql.go:314-330 | Updates that leave ids, keys and numbers alone and activate nothing keep it |
| `Conversations.AcceptKeepsInv` | apps/api/internal/chat/service.go:382-422 | accept's transaction keeps it |
| `Conversations.RetryKeepsInv` | apps/api/internal/chat/service.go:256-291 | Retry's transaction keeps it |
| `Conversations.AcceptSucceedsIff` | apps/api/migrations/00002_models_chat.sql:118-150 | accept's transaction commits if and only if content and key have fitting lengths, the key is unused, no generation is accepted or streaming and the conversation is not deleted; it yields no row exactly when the key is used; and the whole conversation it leaves |
| `Conversations.RetrySucceedsIff` | apps/api/internal/chat/service.go:256-291 | The same for retry's transaction |
| `Conversations.StepAdvances` | apps/api/internal/platform/store/chat.sql.go:388-394 | No step changes the identity of a message or generation, or anything of a final one, or revives a deleted conversation |
| `Conversations.RunAdvances` | apps/api/internal/platform/store/chat.sql.go:314-330 | No continuation of a history does either |
| `Conversations.AdvancesTransitive` | apps/api/internal/platform/store/chat.sql.go:314-330 | That order of conversation states is transitive |
| `Conversations.FindKey` | apps/api/internal/platform/store/chat.sql.go:474-480 | The lookup finds a generation with the key exactly when there is one |
| `Conversations.HighestIsLength` | apps/api/internal/platform/store/chat.sql.go:758-762 | With messages numbered 1..n, MAX(sequence) is n |
| `Conversations.KeyStaysUsed` | apps/api/internal/platform/store/chat.sql.go:155-170 | No step frees an idempotency key |
| `Conversations.KeyStaysUsedInRun` | apps/api/internal/platform/store/chat.sql.go:155-170 | No continuation of a history frees an idempotency key |
| `Conversations.UsedKeyIsIgnored` | apps/api/internal/chat/service.go:425-428 | A command with a used key changes nothing |
| `Conversations.DuplicatesChangeNothing` | apps/api/internal/chat/service.go:346-356 | After any continuation, a command repeating an earlier key changes nothing |
| `Conversations.RecordedIsStatements` | apps/api/internal/chat/service.go:437-742 | The rows of a run written back to the tables are what its guarded statements make of the tables |
| `Conversations.RunEndsGeneration` | apps/api/internal/chat/service.go:618-742 | A run leaves the conversation consistent and idle, and nothing active if and only if its counts fit |
| `Conversations.AfterRunChanges` | apps/api/internal/platform/store/chat.sql.go:388-394 | A run touches its own generation and message and no numbering, key or other generation |
| `Conversations.OnlyOneActive` | apps/api/internal/platform/store/chat.sql.go:314-330 | When one generation is active, ending it is what leaves none active |
| `ActivityGuard.GuardHoldsIff` | apps/api/internal/platform/store/conversations.sql.go:501-510 | In every interleaving of commands, runs, deletes, model changes and lease expiries, with any counts: throughout the run every active generation has a conversation that is neither idle nor deleted and the model it was accepted under, if and only if no idle write of the run finds a generation active, be it another command's or its own |
| `ActivityGuard.StepProtectsIff` | apps/api/internal/platform/store/conversations.sql.go:424-430 | A single step of any kind breaks the guard if and only if it is such an idle write |
| `ActivityGuard.CommitProtects` | apps/api/internal/chat/service.go:413-422 | The accepting transaction keeps the guard |
| `ActivityGuard.RowStepProtects` | apps/api/internal/platform/store/chat.sql.go:314-330 | Marking and finalizing generation rows keep it |
| `ActivityGuard.StateStepProtects` | apps/api/internal/platform/store/conversations.sql.go:470-479 | Of state writes, deletes, model changes, settlements and expiries, only that idle write breaks it |
| `ActivityGuard.GuardHolds` | apps/api/internal/platform/store/conversations.sql.go:501-510 | While leases outlive their commands and final counts fit, there is only ever one driver and the guard holds throughout the run, even with deletes between accept's read and its transaction |
| `ActivityGuard.OrderlyKeepsDriver` | apps/api/internal/quota/service.go:135-143 | While leases are not lost and counts fit, whoever drives holds the lease, and every active generation is driven |
| `ActivityGuard.OrderlyStepKeepsDriver` | apps/api/internal/chat/service.go:647-661 | One such step keeps that, and hides no generation |
| `ActivityGuard.ExpiryDeletesUnderGeneration` | apps/api/internal/chat/service.go:647-658 | Concrete run: a lease expires between finalizing a streamed generation and the idle write, a second command is accepted, the late idle write hides it, and a delete succeeds under a running generation |
| `ActivityGuard.SecondCommandAccepted` | apps/api/internal/chat/service.go:388-422 | The part of that run up to the second acceptance |
| `ContextWindow.Pack` | apps/api/internal/chat/service.go:762-773 | The packing loop returns the start of the longest message suffix that fits beside the fixed cost: a suffix fits if and only if it starts there or later |
| `ContextWindow.CostsAdd` | apps/api/internal/chat/service.go:762-773 | The cost of the kept messages is the sum of their estimates |
| `ContextWindow.SuffixCostDecreases` | apps/api/internal/chat/service.go:765-773 | Every message left out lowers the estimate by at least 1 |
| `ContextWindow.SummariesStayTiled` | apps/api/internal/chat/service.go:790-882 | Across any run of ensureSummary calls with any failures, versions are 1..n and each range starts where the previous one ended |
| `ContextWindow.ExtendedStaysTiled` | apps/api/internal/chat/service.go:810-819 | One call keeps the tiling, never moves it back, and reaches the last covered message if and only if it was there already or the table takes the reply: 1 to 200000 characters and a count not negative as an int32 |
| `ContextWindow.ExtendedIsNext` | apps/api/internal/chat/service.go:810-819 | A row is stored if and only if there is something new to cover and the table takes the reply; it gets the next version and starts after the last covered message |
| `ContextWindow.StoredSummary` | apps/api/internal/chat/service.go:810-880 | Which summary row a call stores and when, in the fields of the rows: the next version, the range from after the latest summary to the last covered message, the answer, and the model's input count if positive, else the estimate of the transcript shown |
| `ContextWindow.NextRow` | apps/api/internal/chat/service.go:821-875 | The row a call would store, and whether the table takes it |
| `ContextWindow.NextStaysTiled` | apps/api/migrations/00002_models_chat.sql:170-182 | A row that fits the CHECKs and comes next conflicts with no stored version or range |
| `ContextWindow.TiledCoversOnce` | apps/api/internal/platform/store/chat.sql.go:102-114 | Every message number from 1 to the last one summarized lies in exactly one range |
| `ContextWindow.ThroughGrows` | apps/api/internal/platform/store/chat.sql.go:102-114 | Later ranges lie strictly after earlier ones |
| `ContextWindow.ThroughIsHighest` | apps/api/internal/platform/store/chat.sql.go:554-560 | No stored range reaches beyond the latest one |
| `ContextWindow.LatestIsLast` | apps/api/internal/platform/store/chat.sql.go:554-560 | The highest version is the last one stored |
| `ContextWindow.TranscriptIsRange` | apps/api/internal/chat/service.go:821-827 | The transcript is exactly the covered messages after the last summary |
| `ContextWindow.TranscriptIsSuffix` | apps/api/internal/chat/service.go:821-827 | In a conversation in order, the transcript is its end from that number on, in order |
| `ContextWindow.RenderedLine` | apps/api/internal/chat/service.go:821-827 | Each message adds one line to the text shown |
| `ContextWindow.CollectTranscript` | apps/api/internal/chat/service.go:821-827 | The loop that collects it |
| `ContextWindow.Context.EnsureSummary` | apps/api/internal/chat/service.go:790-882 | ensureSummary in place: when it asks the model, with exactly what, what it stores, and exactly when the last covered message is reached |
| `ContextWindow.Context.Summarize` | apps/api/internal/chat/service.go:801-880 | The part under the lock: the transcript of the uncovered messages is asked for, and the reply stored as Extended says |
| `ContextWindow.AssembledInOrder` | apps/api/internal/chat/service.go:744-788 | Which message stands where: system prompt, then the latest summary exactly when messages were left out and there is one, then the kept messages in their order, then the new one |
| `ContextWindow.Context.BuildContext` | apps/api/internal/chat/service.go:744-788 | The prompt is the system prompt, the latest summary if messages were left out, the longest fitting suffix and the new message; a summary that the table takes covers all that was left out (with content None this is buildStoredContext) |
| `Cancellation.NoCancelLost` | apps/api/internal/chat/service.go:447-460 | In every interleaving, a cancel that takes the mutex before deregistration leaves the stream's context cancelled, whether it came before or after registration |
| `Cancellation.StepKeepsInv` | apps/api/internal/chat/service.go:1034-1044 | Each critical section and each cancel call keeps the invariant behind it |
| `Cancellation.EarlyCancelIsHonoured` | apps/api/internal/chat/service.go:449-454 | A cancel that found nothing registered has cancelled the context once the stream runs |
| `Cancellation.LateCancelLeavesEntry` | apps/api/internal/chat/service.go:1037-1039 | A cancel after deregistration leaves its pending entry for good |
| `Cancellation.RegisteringRests` | apps/api/internal/chat/service.go:447-454 | Registering without interruption leaves the stream running, nothing pending, and the context cancelled if and only if a cancel was pending |
| `Cancellation.ClosedRests` | apps/api/internal/chat/service.go:455-460 | Closing without interruption leaves the stream deregistered, its context cancelled and the pending map as it was |
| `Cancellation.CancellingRests` | apps/api/internal/chat/service.go:1034-1044 | A cancel without interruption cancels a registered context and leaves a pending entry otherwise |
| `Cancellation.Cancellations.Register` | apps/api/internal/chat/service.go:447-454 | The head of stream on the two maps is Register and HonourPending of the generation's state machine, which leaves its context cancelled if and only if a cancel was pending; the other generations' machines and contexts stay as they were |
| `Cancellation.Cancellations.Deregister` | apps/api/internal/chat/service.go:455-460 | The deferred function of stream is BeginClosing and Deregister of that machine |
| `Cancellation.Cancellations.Cancel` | apps/api/internal/chat/service.go:1034-1044 | cancel is RequestCancel, TakeMutex and Signal of that machine; it reaches the context of a running stream, and waits in the pending map for one still to come |
| `Resume.NoEventLost` | apps/api/internal/realtime/handler.go:194-224 | For every interleaving of emitters (number, append, publish, or stop between), subscription, resume with after >= 1, and queue loops: a published event above `after` has reached a resumed connection by replay or live, unless a resync was signalled or the connection closed |
| `Resume.RunKeepsInv` | apps/api/internal/realtime/handler.go:103-143 | The invariant behind it holds in every run |
| `Resume.ReadFindsOrResyncs` | apps/api/internal/realtime/broker.go:102-130 | An event already appended when the window is read is returned, or its loss raises a resync, even when sequence numbers were appended out of order |
| `Resume.DrawKeepsInv` | apps/api/internal/platform/redisx/client.go:181-198 | Drawing a number keeps it |
| `Resume.AppendKeepsInv` | apps/api/internal/platform/redisx/client.go:214-234 | Appending, in any order, keeps it |
| `Resume.PublishKeepsInv` | apps/api/internal/realtime/broker.go:96-98 | Publishing keeps it |
| `Resume.LoopKeepsInv` | apps/api/internal/realtime/handler.go:285-308 | Moving events through the bounded queue keeps it |
| `Resume.LoopsDropNothing` | apps/api/internal/realtime/handler.go:369-376 | The loops drop no event short of closing the connection |
| `Resume.PhaseKeepsInv` | apps/api/internal/realtime/handler.go:201-224 | Subscribing, the two reads of Replay and closing keep it |
| `ReplayWindow.QuiescentReplay` | apps/api/internal/realtime/broker.go:102-130 | With no emit in flight and after >= 1, the replay is exactly the missing end of the log, and a resync is raised if and only if part of it was trimmed |
| `ReplayWindow.ZeroNeverResyncs` | apps/api/internal/realtime/broker.go:117-119 | With after = 0 no resync is ever raised, and the replay is complete if and only if nothing was trimmed |
| `ReplayWindow.ReplayIsMissing` | apps/api/internal/realtime/broker.go:102-130 | For any number asked with: the replay is what the client misses within the last 256 events, and a resync is raised exactly for a positive number after which an event is gone |
| `ReplayWindow.FoundIsMissing` | apps/api/internal/platform/redisx/client.go:236-252 | What the range query finds in the window is what the client misses |
| `ReplayWindow.GoneIff` | apps/api/internal/realtime/broker.go:118-128 | The first missing event tells whether one before it is gone |
| `ReplayWindow.AllLater` | apps/api/internal/platform/redisx/client.go:214-234 | In a window of later events, an insertion puts at most the lowest score before them |
| `ReplayWindow.EmitReflects` | apps/api/internal/platform/redisx/client.go:214-234 | Emitting keeps window and unbounded log in agreement |
| `ReplayWindow.WindowIsSuffix` | apps/api/internal/platform/redisx/client.go:214-234 | The window is exactly the last 256 events of the log |
| `ReplayWindow.AppendKeeps` | apps/api/internal/platform/redisx/client.go:214-234 | After an append every earlier event is in the window or the window is full of later ones |
| `ReplayWindow.TrimKeeps` | apps/api/internal/platform/redisx/client.go:214-234 | Trimming drops the lowest score only |
| `ReplayWindow.InsertFacts` | apps/api/internal/platform/redisx/client.go:214-234 | ZADD keeps the set sorted and adds exactly the member |
| `ReplayWindow.AboveIsFilter` | apps/api/internal/platform/redisx/client.go:236-252 | The range query returns exactly the members above the score, sorted |
| `ReplayWindow.AboveOfSuffix` | apps/api/internal/platform/redisx/client.go:236-252 | On a suffix of the log the range query is the log from the later of the two starts |
| `Broker.Broker.Emit` | apps/api/internal/realtime/broker.go:67-100 | Numbers the event next and keeps window and log in agreement |
| `Broker.Broker.Replay` | apps/api/internal/realtime/broker.go:102-130 | Returns what the client misses within the last 256 events, and a resync exactly for a positive number after which an event is gone |
| `Broker.Connection.Enqueue` | apps/api/internal/realtime/handler.go:369-376 | Queues unless the queue is full |
| `Broker.Connection.Resume` | apps/api/internal/realtime/handler.go:194-224 | connection.resume: queues all the missing events in order, or emits the resync event and queues nothing, or stops at a full queue that holds the first of them; each under its exact condition |
| `Broker.Connection.EnqueueAll` | apps/api/internal/realtime/handler.go:219-223 | The loop over the replay queues events in order until the queue is full |
| `Resumption.CaughtUpIff` | apps/api/internal/realtime/handler.go:194-224 | In every interleaving, with any failed emits and whatever numbers the client has seen, the server emitting the chunks one after another and the queues drained: a resumed client has counted every chunk it was sent if and only if none was queued for the last time ahead of an earlier one still waiting in a queue, and none has a predecessor that was never sent |
| `Resumption.ResumedBrowserIff` | apps/web/src/lib/streaming-reducer.ts:40-47 | From the emitters to the browser: a message that showed the first chunks of an answer shows a prefix of it after the resume, and the whole of it if and only if every other chunk was sent and none overtook an earlier one |
| `Resumption.PublishedWasSent` | apps/api/internal/realtime/handler.go:194-224 | A drained client that has resumed was sent every published chunk above the number it asked with |
| `Resumption.HoleCauses` | apps/api/internal/realtime/handler.go:194-224 | A predecessor that was never sent was never published, or was published with a number at or below the one the client asked with |
| `Resumption.NothingToOvertake` | apps/api/internal/realtime/handler.go:285-308 | A client that is never sent the first chunk it needs loses nothing to overtaking |
| `Resumption.ArrivedStays` | apps/api/internal/realtime/handler.go:369-376 | What has arrived at a connection stays with it |
| `Catchup.FirstHasArrived` | apps/api/internal/realtime/handler.go:285-308 | Whatever overtakes, the first chunk the browser needed has arrived by then |
| `Catchup.StepKeepsArrived` | apps/api/internal/realtime/handler.go:369-376 | No step loses what has arrived |
| `Resumption.CatchesUp` | apps/api/internal/realtime/handler.go:201-224 | One direction: nothing overtakes and nothing is missing, so all is counted |
| `Resumption.FallsBehind` | apps/api/internal/realtime/handler.go:285-308 | The other: an overtaking or a hole leaves a chunk uncounted |
| `Resumption.HoleStopsBrowser` | apps/web/src/lib/streaming-reducer.ts:40-47 | What comes after a missing chunk is not counted |
| `Resumption.LostStays` | apps/api/internal/realtime/handler.go:369-376 | What is lost stays lost to the end |
| `Resumption.HoleStays` | apps/api/internal/chat/service.go:543-545 | A hole is never filled once the window has been read |
| `Resumption.BehindStays` | apps/api/internal/chat/service.go:543-545 | The event of a chunk that a later one has followed is not published any more |
| `ResumedRuns.LiveOvertakesReplay` | apps/api/internal/realtime/handler.go:285-308 | Concrete run, with the greeting every connection gets: a live chunk is queued before a replayed one; all are sent, nothing is missing, no resync is raised, and the browser stays short; a step of it overtakes |
| `ResumedRuns.FailedEmitStrands` | apps/api/internal/chat/service.go:543-545 | Concrete run: the emit of a delta fails after it has drawn its number, the next one succeeds, and a connected browser stays short although it was sent all that was published and nothing overtook |
| `ResumedRuns.ReplayMakesUp` | apps/api/internal/realtime/broker.go:88-98 | Concrete run: a delta was appended but not published, the replay brings it in time, and the browser catches up |
| `ResumedRuns.AskedPastGap` | apps/web/src/components/chat/chat-app.tsx:155-155 | Concrete run: a heartbeat draws a later number than a delta and is published first, the client resumes with the heartbeat's number, and never gets the delta, although every emit succeeds, nothing overtakes and no resync is raised |
| `ResumedRuns.RealIsRun` | apps/api/internal/realtime/handler.go:194-224 | The states written down for these runs are those of runs in which the server keeps its order |
| `Resumption.OnTrackThroughout` | apps/api/internal/realtime/handler.go:201-224 | Without an overtaking, and with nothing missing at the end, every chunk queued is counted or comes again, throughout the run |
| `Resumption.LostOnceOvertaken` | apps/api/internal/realtime/handler.go:285-308 | A chunk that overtakes is lost to the browser for the rest of the run |
| `Resumption.DeliveriesCount` | apps/web/src/lib/streaming-reducer.ts:40-47 | The events sent, read as deltas, bring the browser exactly as far as they are counted |
| `Resumption.WholeIffCaughtUp` | apps/web/src/lib/streaming-reducer.ts:40-47 | The whole answer is counted if and only if all of it was sent and everything sent is counted |
| `Resumption.RunStaysOk` | apps/api/internal/realtime/handler.go:194-224 | What both directions rest on holds in every run |
| `Catchup.StepKeepsOnTrack` | apps/api/internal/realtime/handler.go:285-308 | A step that does not overtake keeps every queued chunk counted or coming again, or shows a hole |
| `Catchup.QueuedKeepsOnTrack` | apps/api/internal/realtime/handler.go:219-223 | A queued chunk is counted or comes again, unless it overtakes what the browser needs or that is nowhere to be seen |
| `Catchup.NeededIsUnseen` | apps/api/internal/realtime/handler.go:285-308 | If the chunk the browser needs waits in no queue, it is nowhere |
| `Catchup.StepKeepsHole` | apps/api/internal/chat/service.go:543-545 | No step after the read of the window fills a hole |
| `Catchup.StepKeepsBehind` | apps/api/internal/chat/service.go:543-545 | An emit that a later chunk has followed publishes nothing any more |
| `Catchup.LiveIsReplayed` | apps/api/internal/realtime/broker.go:102-130 | What came live too early before the window was read is in the replay as well, or a hole shows, whatever its number |
| `Catchup.MissingBelow` | apps/api/internal/platform/redisx/client.go:214-252 | An uncounted live chunk that the replay leaves out has a predecessor that came neither live nor by replay |
| `Catchup.EarlierIsLeftOut` | apps/api/internal/platform/redisx/client.go:236-252 | What the replay leaves out it leaves out with all the chunks before it |
| `Catchup.StepKeepsKnown` | apps/api/internal/realtime/broker.go:67-100 | Every event in a queue has been emitted, and every live one published |
| `Catchup.StepKeepsOrdered` | apps/api/internal/realtime/handler.go:285-308 | Each queue holds the chunks in order |
| `Catchup.PublishedComesLast` | apps/api/internal/realtime/broker.go:96-98 | What is published joins the live events in chunk order |
| `Catchup.StreamGrows` | apps/api/internal/realtime/handler.go:369-376 | A step adds to the stream what it queues and nothing else |
| `Catchup.OvertakingLoses` | apps/api/internal/realtime/handler.go:285-308 | An overtaking step loses the chunk it moves |
| `Catchup.StepKeepsLost` | apps/api/internal/realtime/handler.go:369-376 | No step brings a lost chunk back |
| `Catchup.StepKeepsChunks` | apps/api/internal/chat/service.go:543-545 | With chunks emitted one after another, earlier chunks have lower numbers and no two events carry the same |
| `Catchup.ReadWindowOnTrack` | apps/api/internal/realtime/broker.go:102-130 | The read of the window puts the client on track, or shows a chunk it will never get, or raises a resync |
| `Catchup.ReplayInChunkOrder` | apps/api/internal/platform/redisx/client.go:236-252 | The replay holds chunks in order |
| `Catchup.ReplayHas` | apps/api/internal/realtime/broker.go:102-130 | Unless a resync is called for, every published event the client misses is in the replay |
| `Catchup.OrderedChunksCount` | apps/web/src/lib/streaming-reducer.ts:40-47 | Events that carry all the missing chunks in order are all counted |
| `Catchup.StuckWithout` | apps/web/src/lib/streaming-reducer.ts:40-47 | Without the next chunk the count stands still |
| `Reducer.FullAnswerIff` | apps/web/src/lib/streaming-reducer.ts:40-47 | Started empty, the message is always a prefix of the answer, and the whole of it if and only if chunks 0, 1, .., n-1 occur in this order among the deliveries |
| `Reducer.ClientShowsPrefix` | apps/web/src/lib/streaming-reducer.ts:40-47 | Under any deliveries for any generations, the message shows exactly the chunks counted so far, never fewer than before |
| `Reducer.OneDelivery` | apps/web/src/lib/streaming-reducer.ts:17-57 | One delivery keeps that |
| `Reducer.AppendAdvances` | apps/web/src/lib/streaming-reducer.ts:40-47 | A delta is taken if and only if it is the next chunk; this rests on non-empty chunks and additive UTF-8 lengths |
| `Reducer.PositionIsSubsequence` | apps/web/src/lib/streaming-reducer.ts:43-44 | n chunks are counted if and only if 0..n-1 is a subsequence of the deliveries |
| `Reducer.BoundaryIsPrefix` | apps/web/src/lib/streaming-reducer.ts:45-45 | The text up to a chunk boundary is a prefix of the answer |
| `Reducer.ConcatProper` | apps/web/src/lib/streaming-reducer.ts:45-45 | Before the last chunk the text differs from the whole answer |
| `Reducer.StartIsIdempotent` | apps/web/src/lib/streaming-reducer.ts:17-38 | Starting twice changes nothing and starting keeps the messages before |
| `Reducer.StartedMessageFollowsAnswer` | apps/web/src/lib/streaming-reducer.ts:17-57 | A message that the started event creates ends as a prefix of its answer, the whole of it if and only if the chunks came in order, with the status of the last terminal event delivered |
| `Reducer.StatusFollowsLastFinish` | apps/web/src/lib/streaming-reducer.ts:49-57 | The status shown is that of the last terminal event for the generation |
| `Reducer.BystandersUnchanged` | apps/web/src/lib/streaming-reducer.ts:40-57 | A message whose generation no event names is left exactly as it was |
| `Text.ByteLengthAdds` | apps/web/src/lib/streaming-reducer.ts:43-43 | UTF-8 length is additive |
| `Text.EstimateTokens` | apps/api/internal/chat/service.go:1078-1080 | An estimate is the least positive number of tokens of four characters that covers the text |
| `Text.OffsetsIncrease` | apps/api/internal/chat/service.go:527-527 | Offsets of non-empty chunks strictly increase |
| `OutboxWorkers.OutboxSafety` | apps/api/internal/platform/outbox/outbox.go:140-219 | For any number of workers, process deaths, lock expiries, database errors and lost lock connections: processed and dead-lettered exclude each other, and a receipt exists if and only if the event is processed |
| `OutboxWorkers.ClaimsIff` | apps/api/internal/platform/store/platform.sql.go:92-114 | A claim takes the row if and only if the worker has no task and the row is unprocessed, not dead, due, and unlocked or locked longer ago than the TTL; it then has one more attempt and the new lock |
| `OutboxWorkers.TakenOverIff` | apps/api/internal/platform/outbox/outbox.go:105-110 | A lock taken at t keeps every other claim out until t plus the TTL, and none after it |
| `OutboxWorkers.CompletesIff` | apps/api/internal/platform/outbox/outbox.go:191-211 | Receipt and completion are written if and only if the row is still locked by this worker and not processed |
| `OutboxWorkers.FailsIff` | apps/api/internal/platform/outbox/outbox.go:221-254 | A failure is recorded under the same condition: dead from the last attempt on, before it due again after the intended delay |
| `OutboxWorkers.StepKeepsInv` | apps/api/internal/platform/outbox/outbox.go:167-219 | Each step keeps that |
| `OutboxWorkers.TerminalIsAbsorbing` | apps/api/internal/platform/store/platform.sql.go:161-165 | Both terminal states are final under every step, with their time stamps, attempts and receipt |
| `OutboxWorkers.ExclusionIff` | apps/api/internal/platform/database/database.go:77-108 | Throughout a run at most one worker is between lock and unlock, if and only if the advisory lock is never granted while a worker that lost its lock connection is still at work; then nobody is in the handler of a processed event |
| `OutboxWorkers.StepExcludesIff` | apps/api/internal/platform/database/database.go:77-108 | A single step breaks the exclusion if and only if it is such a grant |
| `OutboxWorkers.ConnectedHandlersExclude` | apps/api/internal/platform/outbox/outbox.go:148-152 | Without lost lock connections, at most one worker is in the handler, and none once the event is processed, whatever crashes and expires |
| `OutboxWorkers.ConnectedMeansExclusive` | apps/api/internal/platform/database/database.go:77-108 | Without lost lock connections, whoever is inside holds the advisory lock |
| `OutboxWorkers.IntruderMeetsHandlerIff` | apps/api/internal/platform/outbox/outbox.go:167-192 | Two workers inside meet in the handler as both go on if and only if the first is in it, or has still to enter it without having seen a receipt |
| `OutboxWorkers.TwoInHandler` | apps/api/internal/platform/database/database.go:77-108 | Concrete run for every lock TTL: after a lost lock connection two workers are in the handler |
| `OutboxWorkers.HandlingAfterProcessed` | apps/api/internal/platform/outbox/outbox.go:193-219 | Concrete run: one of them is still in the handler when the other has processed the event |
| `OutboxProgress.HandlerReachableIff` | apps/api/internal/platform/outbox/outbox.go:167-192 | Once an event is processed or dead-lettered, some continuation calls its handler again if and only if a worker has already read that there is no receipt or, without a receipt, still has its claim |
| `OutboxProgress.DeadButHandledIff` | apps/api/internal/platform/outbox/outbox.go:148-192 | After a worker has dead-lettered an event, its handler can still be called if and only if another worker has a task |
| `OutboxProgress.ProcessedIsNeverHandledAgain` | apps/api/internal/platform/outbox/outbox.go:172-191 | While workers exclude each other, no continuation calls the handler of a processed event |
| `OutboxProgress.NobodyEverEnters` | apps/api/internal/platform/outbox/outbox.go:172-191 | If no worker may enter, none ever will |
| `OutboxProgress.MayEnterReaches` | apps/api/internal/platform/outbox/outbox.go:148-192 | A worker that may enter gets there, after letting the present lock holder finish |
| `OutboxProgress.LetFinish` | apps/api/internal/platform/outbox/outbox.go:148-219 | A lock holder that will not call the handler comes to its end and frees the lock, and a waiting claim stays |
| `OutboxProgress.AttemptsBoundedIff` | apps/api/internal/platform/store/platform.sql.go:92-114 | In every run, attempts stay within MaxAttempts if and only if no claim takes over an expired lock at the limit |
| `OutboxProgress.StepOverrunsIff` | apps/api/internal/platform/store/platform.sql.go:92-114 | A single step pushes attempts past MaxAttempts if and only if it is such a claim |
| `OutboxProgress.StepBoundedIff` | apps/api/internal/platform/store/platform.sql.go:92-114 | A step keeps attempts within the limit if and only if they were and it is no such claim |
| `OutboxProgress.StepKeepsAttemptsInv` | apps/api/internal/platform/store/platform.sql.go:92-114 | A live, unlocked event has attempts left, and no step lowers them |
| `OutboxProgress.StaleWorkerHandlesDeadEvent` | apps/api/internal/platform/outbox/outbox.go:148-189 | For every lock TTL and every MaxAttempts, a run after which the handler of a dead-lettered event can still be called |
| `OutboxProgress.OutboxTerminates` | apps/api/internal/platform/outbox/outbox.go:221-246 | When claims are driven to their update in time, an event is claimed at most MaxAttempts times, its handler called at most as often, and after that many it is terminal |
| `OutboxProgress.StepKeepsPromptInv` | apps/api/internal/platform/outbox/outbox.go:221-246 | Each prompt step keeps the measure behind it |
| `OutboxProgress.ExpiryExceedsMaxAttempts` | apps/api/internal/platform/store/platform.sql.go:92-114 | For every lock TTL and every MaxAttempts, a run in which expiring locks alone claim an event once more than MaxAttempts times |
| `OutboxProgress.RetryWaits` | apps/api/internal/platform/store/platform.sql.go:398-402 | A failed event to be retried is claimed again if and only if its delay has passed |
| `OutboxRows.RetriesOnTimeIff` | apps/api/internal/platform/outbox/outbox.go:242-245 | Every retry is delayed by min(2^(attempts-1), 3600) seconds if and only if MaxAttempts <= 35 |
| `OutboxRows.CompleteLeaves` | apps/api/internal/platform/store/platform.sql.go:161-165 | The guarded completion in the fields of the row |
| `OutboxRows.FailLeaves` | apps/api/internal/platform/outbox/outbox.go:221-254 | The guarded dead letter and reschedule in the fields of the row |
| `OutboxRows.DelayDoubles` | apps/api/internal/platform/outbox/outbox.go:242-245 | The intended delay starts at one second and doubles up to an hour |
| `OutboxRows.DelayExactThrough34` | apps/api/internal/platform/outbox/outbox.go:242-245 | Through attempt 34 the delay is exact and nothing overflows int64 |
| `OutboxRows.DelayWrapsAt35` | apps/api/internal/platform/outbox/outbox.go:242-245 | At attempt 35 the product wraps and the event is due at once |
| `OutboxRunner.Runner.ClaimOutboxEvents` | apps/api/internal/platform/store/platform.sql.go:92-114 | In the fields of the rows: the batch holds unprocessed, live, due rows, unlocked or locked for longer than the TTL; a row left over fails one of these, or the batch is full of rows due earlier, or as early and created no later; the rows taken have one more attempt and this worker's lock, and no other row changes |
| `OutboxRunner.BatchIsOldest` | apps/api/internal/platform/store/platform.sql.go:92-114 | A claimable row is passed over only when the batch is full of rows that come no later |
| `OutboxRunner.BatchIsOldestInTable` | apps/api/internal/platform/store/platform.sql.go:92-114 | The same for a batch taken from the whole table |
| `OutboxRunner.Runner.ProcessLocked` | apps/api/internal/platform/outbox/outbox.go:167-219 | The handler runs if and only if it is registered and there is no receipt; receipt and completion together or neither |
| `OutboxRunner.Runner.FailEvent` | apps/api/internal/platform/outbox/outbox.go:221-263 | Dead letter on the last attempt, otherwise rescheduled |
| `SessionAnswers.RotateAnswers` | apps/api/internal/identity/sessions/service.go:117-185 | What a rotation answers, as one if-and-only-if each: reuse for a used token, invalid for an unused one of a revoked or expired session, an error if the new hash is taken, and otherwise claims of the session at its version |
| `SessionAnswers.RotateWrites` | apps/api/internal/identity/sessions/service.go:131-176 | What it writes: on reuse it ends exactly the sessions of the family, on success it spends the token and appends a successor with the session's expiry, otherwise nothing |
| `SessionAnswers.UnknownTokenIsRefused` | apps/api/internal/identity/sessions/service.go:133-137 | An unknown token is invalid and changes nothing |
| `SessionAnswers.CreateWrites` | apps/api/internal/identity/sessions/service.go:75-101 | A session is created if and only if id and hash are new, at version 1 and with one token of the same expiry |
| `SessionAnswers.RevokeWrites` | apps/api/internal/platform/store/identity.sql.go:416-420 | A revocation ends the caller's own session, keeps its first time and moves its version on |
| `SessionAnswers.ClaimsPassIff` | apps/api/internal/identity/sessions/service.go:196-215 | Claims pass if and only if the session is the user's, live and at their version; a revocation ends them |
| `SessionRows.ForkKillsFamily` | apps/api/internal/identity/sessions/service.go:131-150 | Once a rotated token is presented again, after whatever activity, the answer is reuse, and from then on no token of the family rotates and no access token of it validates |
| `SessionRows.UsedStaysUsed` | apps/api/internal/platform/store/identity.sql.go:356-360 | A spent token stays spent under every continuation |
| `SessionRows.ReuseRevokesFamily` | apps/api/internal/identity/sessions/service.go:131-150 | Presenting a spent token answers reuse and revokes its family |
| `SessionRows.RotatedWasFound` | apps/api/internal/identity/sessions/service.go:117-131 | A successful rotation has spent a token of the presented hash |
| `SessionRows.RevokedFamilyStaysDead` | apps/api/internal/platform/store/identity.sql.go:436-442 | A revoked family stays revoked under every continuation |
| `SessionRows.SessionsStayLinear` | apps/api/internal/identity/sessions/service.go:117-194 | In every run each session has exactly one unused refresh token, the newest of a chain of used ones, all with the session's expiry |
| `SessionRows.StepKeepsInv` | apps/api/internal/identity/sessions/service.go:58-231 | Each operation keeps that |
| `SessionRows.RotateKeepsInv` | apps/api/internal/identity/sessions/service.go:156-172 | A rotation keeps it |
| `SessionRows.CreateKeepsInv` | apps/api/internal/identity/sessions/service.go:58-115 | A new session keeps it |
| `SessionRows.CreatedChains` | apps/api/internal/identity/sessions/service.go:58-115 | A new session starts a chain of one unused token and leaves the other chains alone |
| `SessionRows.CreatedBelongs` | apps/api/internal/identity/sessions/service.go:58-115 | A new session leaves every token with its session and that session's expiry |
| `SessionRows.RotateExtendsChain` | apps/api/internal/identity/sessions/service.go:156-172 | A successful rotation spends the newest token, adds exactly one successor with the session's unchanged expiry, and touches no other session |
| `SessionRows.RotatedChains` | apps/api/internal/identity/sessions/service.go:156-172 | Spending an unused token extends the chain of its session by one and no other |
| `SessionRows.RotatedKeepsInv` | apps/api/internal/identity/sessions/service.go:156-172 | Spending an unused token for a new one keeps chains linear, hashes distinct and expiries equal |
| `SessionRows.NewestIsSpent` | apps/api/internal/identity/sessions/service.go:141-156 | The unused token of a session is the newest of its chain |
| `SessionRows.OverStaysOver` | apps/api/internal/identity/sessions/service.go:151-155 | No activity revives a revoked session or extends the fixed expiry: once over, none of its tokens rotates and none of its access tokens validates |
| `SessionRows.RevokeEndsSession` | apps/api/internal/platform/store/identity.sql.go:416-420 | Revoke ends the caller's own session and nobody else's |
| `SessionRows.NewestRotates` | apps/api/internal/identity/sessions/service.go:117-194 | A live session can always go on: its newest token rotates for claims that validate |
| `SessionRows.CreatedWorks` | apps/api/internal/identity/sessions/service.go:58-115 | What Create hands out validates and rotates if and only if the expiry it fixed has not passed |
| `SessionRows.ChainUpdate` | apps/api/internal/platform/store/identity.sql.go:356-360 | Marking a token used marks it in its chain and nowhere else |
| `SessionRows.OtherChain` | apps/api/internal/platform/store/identity.sql.go:356-360 | Marking a token used leaves the chains of other sessions alone |
| `SessionRows.StepIsLater` | apps/api/internal/platform/store/identity.sql.go:416-442 | No step changes a session's user, family or expiry, revives a revoked session, or makes a used token unused |
| `SessionRows.RunIsLater` | apps/api/internal/platform/store/identity.sql.go:416-442 | No run changes a session's user, family or expiry, revives a revoked session, or makes a used token unused |
| `SessionRows.FindToken` | apps/api/internal/platform/store/identity.sql.go:316-323 | Finds the token with the hash exactly when there is one |
| `SessionService.Service.Create` | apps/api/internal/identity/sessions/service.go:58-115 | Both rows or neither, and the invariant kept |
| `SessionService.Service.Rotate` | apps/api/internal/identity/sessions/service.go:117-194 | Every branch in order; on reuse the revocation stays although an error is returned |
| `SessionService.Service.Revoke` | apps/api/internal/identity/sessions/service.go:224-231 | Revokes the caller's own session and reports whether there was one |
| `SessionService.Service.ValidateAccessSession` | apps/api/internal/identity/sessions/service.go:196-215 | Accepts exactly the claims of a live session with the current version |
| `Resilience.SlotsNeverLeak` | apps/api/internal/provider/resilient.go:112-145 | Over any interleaving of calls and streams: held slots are exactly the in-flight calls and unreleased streams, never above MaxConcurrent, and each is given back exactly once |
| `Resilience.Normalized` | apps/api/internal/provider/resilient.go:41-54 | The options in use are all usable, and usable ones are kept |
| `Resilience.StepKeepsBound` | apps/api/internal/provider/resilient.go:112-145 | Each step keeps the count |
| `Resilience.StepKeepsReturnedOnce` | apps/api/internal/provider/resilient.go:185-201 | Each step keeps the single release, whatever the order of Next errors and Close |
| `Resilience.OpenInStretch` | apps/api/internal/provider/resilient.go:147-176 | A breaker that has seen no success and no resetting probe since i is open if and only if it has seen FailureLimit retryable failures since and the last of them is younger than the open period |
| `Resilience.ClosedUntilNewFailures` | apps/api/internal/provider/resilient.go:153-176 | After a success, or after a probe that finds the limit reached and the open period over, the breaker is open only once FailureLimit new retryable failures have been seen |
| `Resilience.SomeStretch` | apps/api/internal/provider/resilient.go:147-176 | Every log ends in such an undisturbed stretch |
| `Resilience.OpenIsTripped` | apps/api/internal/provider/resilient.go:147-159 | What the fields remember is what the log says |
| `Resilience.BlocksIsTripped` | apps/api/internal/provider/resilient.go:147-159 | In an undisturbed stretch the fields say what the log says |
| `Resilience.StaysAsItWas` | apps/api/internal/provider/resilient.go:161-176 | An entry that neither fails nor disturbs changes nothing |
| `Resilience.OneTimeMore` | apps/api/internal/provider/resilient.go:172-175 | Another failure is counted and its time is the last |
| `Resilience.ResetForgets` | apps/api/internal/provider/resilient.go:153-158 | A resetting probe forgets the failures |
| `Resilience.StretchIsRemembered` | apps/api/internal/provider/resilient.go:161-176 | The failures counted are those of the stretch, and the last of them sets the open period |
| `Resilience.BeginsEmpty` | apps/api/internal/provider/resilient.go:153-158 | At the start, after a success and after a resetting probe nothing is remembered |
| `Resilience.RememberStep` | apps/api/internal/provider/resilient.go:161-176 | One entry more |
| `Resilience.RemembersSince` | apps/api/internal/provider/resilient.go:161-176 | What is remembered after a fresh start are failures since then |
| `Resilience.TrippedNeedsFailures` | apps/api/internal/provider/resilient.go:161-176 | The breaker trips only after FailureLimit retryable failures without a success between |
| `Resilience.Resilient.IsOpen` | apps/api/internal/provider/resilient.go:147-159 | Open exactly when the log says so: the limit of retryable failures reached in the current stretch, and the last of them younger than the open period |
| `Resilience.Resilient.Observe` | apps/api/internal/provider/resilient.go:161-176 | Keeps the breaker's fields equal to what the log of outcomes says |
| `Resilience.Resilient.Attempt` | apps/api/internal/provider/resilient.go:119-128 | The loop stops at the first answer that is not a retryable failure, after at most PreStreamRetry retries |
| `Resilience.Resilient.Stream` | apps/api/internal/provider/resilient.go:105-145 | Run without interruption: one slot is kept if and only if a stream is returned, and one outcome is reported for the whole call |
| `Resilience.Resilient.Connect` | apps/api/internal/provider/resilient.go:117-145 | What happens once the slot is there, whatever other calls did in the meantime: one outcome reported, the slot kept if and only if a stream is returned |
| `Resilience.ResilientStream.Next` | apps/api/internal/provider/resilient.go:185-196 | Reports the end of the stream and releases on it, once |
| `Resilience.ResilientStream.Close` | apps/api/internal/provider/resilient.go:198-201 | Releases unless already released |
| `Resilience.ResilientStream.ReleaseOnce` | apps/api/internal/provider/resilient.go:189-193 | The slot goes back on the first call and never again |

## Left out

- HTTP, WebSocket and provider I/O: the provider is a finite script of chunks that ends, the socket
  an arbitrary order of deliveries.
- JSON, logging, metrics, validation of command syntax and safety rules: their answers are
  parameters. The safety check is an arbitrary function of the accumulated text.
- Cryptography and random sources: ids, tokens and lease owners are values, fresh where a statement
  says so. Token hashes are taken to be injective.
- The rate limiter in front of Reserve: its answer is the parameter `withinRate`.
- Expiry of the Redis sequence and replay keys after ten minutes. An emit that fails between its Redis
  calls stops there; its emitter may go on with the next event.
- Foreign keys: no modelled step deletes a row they point to.
- Errors of Redis and the database other than the ones a statement's guard or constraint causes; each
  call of theirs either happens or the protocol step is not taken. `OutboxWorkers` models them.
- Redis pub/sub itself dropping a message for a slow subscriber: a published event is delivered to
  every open subscription.
- More than one resume on one connection, and several connections of one actor: each connection
  subscribes and resumes once in `Resume`.
- Process crashes between finalizing and settling, and ignored errors of the row updates in finish,
  fail and blockSafety other than the CHECK constraints: the updates are applied when their guard
  and constraints allow it.
- The read of the stored message in fail is taken to succeed.
- The 0.70 share of the context window: the budget is an integer parameter.
- PostgreSQL integer overflow of counters and sequences, and counters beyond int64.
- generateTitle, recordUsage, the usage ledger and last_error_class: they influence no modelled row.
- Guest migration, guest deletion, account deletion and the administrator's session revocation.
- GetLatestGeneration orders by acceptance time, then id; the model takes the order of insertion.
- FOR UPDATE SKIP LOCKED: a row locked by a concurrent claim counts as not yet looked at.
- Out-of-range conversion of a floating-point power to a duration is taken to yield the least int64,
  as on amd64; the language leaves it to the implementation.
- Advisory lock of ensureSummary: its answer is a parameter; under it, calls are serial.
- Conversation titles, archive status and listing.
- Resilience.Resilient.Stream: runs without interruption and with a free slot when the slot comes
  first. Waiting is in the slots machine; the parts between which other calls run, IsOpen, TakeSlot
  and Connect, have contracts of their own.
- Cancellation.Cancellations: each generation is streamed once and each stream has a context of its
  own, as in the program, where the context is created in stream and the id in accept.
- ContextWindow.Context.BuildContext: the loading of messages is a parameter; the messages are
  numbered upwards from at least 1, as Conversations.HistoryKeepsInv shows.
- Streaming.Run.Stream: the cancellation of the context shows only as the errors it causes; the
  cancel protocol is in Cancellation.
