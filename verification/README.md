# Verified model of the crash-game platform's money paths

This project models, in Dafny, the parts of the platform that handle money or guard it
under concurrency, and proves properties of every run of them. There is one module per
component:

| module | component |
|---|---|
| TenantLock | the promise-chain lock around the tenant lifecycle operations |
| InstanceLock | the Redis lease with heartbeat that marks the active instance |
| DistributedMutex | the mutex with tokens, expiry and retry, on its in-memory locks |
| MiniGame | the house game: rounds, bets, cash-outs, balances |
| GameHistory | what every bet, payment, row lock and settlement in it goes back to |
| CrashPoint | the crash point formula and the law of its house edge |
| DailyLedger | the simple daily entry ledger in memory and the SQL one |
| MemoryLedger | the in-memory form of the SQL ledger, with operations of its own |
| BetExecution | bet placement with mutex, retries and idempotency store |
| BetHistory | which answers of the adapter each result goes back to, who holds keys and mutexes |
| CashOut | the race of tick, crash, reply, timeout and abort |
| NotificationQueue | priority queue with retrying flush and dead letters |
| OpportunityRanker | the bounded, ranked window of opportunities |
| Pnl | P&L summary, equity curve, drawdown, dry runs |
| Recovery | the sweep over UNKNOWN bets, the reconciliation, the resumption gate |
| Runs, StableSort, Sums, Options | shared definitions |

How a component is written down. JavaScript runs from one `await` to the next without
interruption, so a component is a state, and a step is what happens between two awaits, a
database transaction, a Redis command or a timer callback. `Step` says what an event does;
an event that cannot happen leaves the state as it is; `Run` folds a list of events, and a
theorem about `Run(es)` for every `es` is a theorem about every interleaving. Beside it
stands the object as the code has it, a class whose methods change its fields in place,
and each method is proved to change them exactly as `Step` says. Amounts and multipliers
are exact reals, time is a counter.

Where the code does not do what its documentation or its shape suggests, the model follows
the code, and a theorem says exactly when it does:

- The daily limit and the counters behind it depend on the class:
  - In the SQL ledger the first UPDATE of `release` (src/ledger/daily-entries.ts:207-211)
    names a third parameter and passes two, so a release of a live entry is rejected. On
    every run the limit holds and the counters are true, but no slot is ever freed
    (`SqlNeverFrees`); it agrees with the simple ledger exactly on runs in which that one
    frees no slot (`SqlAgreesIff`).
  - With that parameter list repaired, releasing a confirmed slot lowers both counters
    (215-224), and the rest of the method is as in the in-memory form. The counters are true
    exactly when no confirmed slot is released while another is reserved
    (`RepairedExactIff`), which is enough for the limit (`RepairedWithinLimit`), and the
    ledger agrees with the simple one exactly when no confirmed slot is released
    (`RepairedAgreesIff`). No class runs this ledger: these three results say what the
    repair would give.
  - The in-memory form (475-574) releases that way too, confirms released entries, and counts
    refused attempts. Its limit does not hold on every run: `ConfirmedReleaseBreaksLimit`,
    `ReleasedConfirmBreaksLimit`. `CountersTrueIff`, `AccountTrueIff`, `WithinLimitIff` and
    `TrueAndWithinIff` say exactly when its counters are true and the limit holds.
- A bet is documented to be retried only before any side effect, and never once `submitBet`
  has been called (src/betting/executor.ts:117-119); the flag is set only after `submitBet`
  has returned (144-146), so one that throws is called again: `SubmittedTwice`.
  `SubmissionsAreRetries` says exactly how often a bet is submitted, and when more than once.
- The promise of `monitor` is documented to resolve when the controller is aborted
  (src/betting/cashout.ts:104-108); an abort only sets a flag (`AbortAloneNeverResolves`), and
  the promise resolves exactly when a crash or the safety timeout follows
  (`AbortedResolvesIff`).
- A full `NotificationQueue` says that it drops the oldest low-priority message
  (src/notifications/queue.ts:82); it drops the first low or normal one of a queue sorted by
  priority, so normal ones go before low ones, and with neither queued it drops the head,
  the most urgent message: critical goes before high, and before an unknown priority though
  that ranks as normal. `DocumentedDropIff` and `DropsLeastUrgentIff` say exactly when it
  does what it says; three lemmas show runs in which it does not.
- `InstanceLock.isHeld` is no proof of ownership (`HeldMayOverlap`), and even a recent OK is
  none when an earlier release failed and runs late, since the token is one per object
  (`LateReleaseFreesNewLease`). `RecentOkOwnsIff` and `KnowledgeIsOwnership` say what is.
- An opportunity window can contain opportunities and approve none of them, because
  evictions leave ranks stale: `SomethingApprovedIff`, `StaleRankBlocksTheBest`.
- A cash-out pays the current multiplier whatever round the bet belongs to, so a bet that is
  still open in a later round can be paid above the crash point of its own: exactly when
  the running round's is higher (`OverpaidIff`). A bet is still open exactly when no
  settlement of its round has committed since its INSERT (`OpenIff`): none was sent, as
  after a pause; it failed, or was sent after the next round had begun and settled that one;
  or it committed before the INSERT did (`PausedBetIsOverpaid`, `LateBetIsOverpaid`).
- The idempotency key is the session, a colon and the round, so keys of two sessions can
  coincide; `KeysMeetIff` says for which sessions.
- A failed count of UNKNOWN bets reads as none (src/ledger/balance-reconciliation.ts:250-256);
  `ResumesIff` says exactly what that lets through, and `SweepGateIff` why the gate on the
  capped sweep alone is not enough.
- Paging "until exhausted" (src/ledger/balance-reconciliation.ts:202) stops after 1,001,000
  rows of a state: `TotalByPages`.

## Model

| member | source | states |
|---|---|---|
| TenantLock.Orchestrator.EnterLock | src/platform/container-orchestrator.ts:153-160 | a call awaits the promise found in the map and leaves its own there |
| TenantLock.Orchestrator.SettleChained | src/platform/container-orchestrator.ts:158 | the chained promise resolves once the awaited one and the gate have |
| TenantLock.Orchestrator.StartBody | src/platform/container-orchestrator.ts:160-162 | the body starts when the awaited promise has resolved |
| TenantLock.Orchestrator.LeaveLock | src/platform/container-orchestrator.ts:163-168 | opens the gate and deletes the entry only if it is still the call's own, thrown or not |
| TenantLock.Exclusion | src/platform/container-orchestrator.ts:152-169 | in every run two operations on one user never overlap |
| TenantLock.LockMapIsExact | src/platform/process-orchestrator.ts:45-62 | the map has an entry for a user exactly while one of its operations is queued or running |
| TenantLock.CallOrder | src/platform/container-orchestrator.ts:152-169 | bodies of one user start in call order, each after the previous one has left |
| TenantLock.FirstWaiterCanStart | src/platform/container-orchestrator.ts:158-160 | no deadlock: the first waiting call can start within two steps of its own chain |
| TenantLock.NextStartsAfterLeave | src/platform/container-orchestrator.ts:160-168 | a body that ends, by a return or a throw, lets the next call of its user start |
| InstanceLock.RedisServer.SetIfAbsent | src/core/instance-lock.ts:62 | SET NX PX: takes a missing or expired key, else changes nothing |
| InstanceLock.RedisServer.EvalRefresh | src/core/instance-lock.ts:94-103 | extends the key only for the token that owns it |
| InstanceLock.RedisServer.EvalDelete | src/core/instance-lock.ts:123-132 | deletes the key only for the token that owns it |
| InstanceLock.LocalLock.FinishAcquire | src/core/instance-lock.ts:62-88 | held and heartbeat start on OK only |
| InstanceLock.LocalLock.FinishRefresh | src/core/instance-lock.ts:103-113 | a refusal clears held, a failed call does not |
| InstanceLock.LocalLock.BeginRelease | src/core/instance-lock.ts:116-121 | stops the heartbeat, calls Redis only while held |
| InstanceLock.LocalLock.FinishRelease | src/core/instance-lock.ts:132-136 | held ends whatever Redis answers |
| InstanceLock.FreshIffOwner | src/core/instance-lock.ts:55-138 | by Redis's record: an instance whose last success ran less than a lease ago, with no release of it run since, owns the key until exactly then, and every owner is such an instance |
| InstanceLock.Exclusion | src/core/instance-lock.ts:55-138 | by the same record two such instances never coexist, with failing, lost and late calls |
| InstanceLock.RecentOkOwnsIff | src/core/instance-lock.ts:55-138 | an instance with an OK reply to a call sent less than a lease ago owns the key if Redis has run no release of it since that success; and only if, when that was its last success |
| InstanceLock.KnowledgeIsOwnership | src/core/instance-lock.ts:55-138 | from what an instance itself can see: an OK reply to a call sent less than a lease ago, before which all its releases had been answered and after which it called none, means that it owns the key, and it is the only one that can see this |
| InstanceLock.LateReleaseFreesNewLease | src/core/instance-lock.ts:116-137 | the answers to earlier releases matter: a failed release that Redis runs late deletes the lease the same instance has acquired since, and two instances are held with a recent OK and no later release call |
| InstanceLock.OthersLockUntouched | src/core/instance-lock.ts:94-132 | no call of one instance extends, shortens or deletes the lock of another |
| InstanceLock.LeaseSurvives | src/core/instance-lock.ts:55-138 | a lease lasts to its end through any run in which no release of its owner is executed, and never gets shorter |
| InstanceLock.HeldWasGranted | src/core/instance-lock.ts:62-70 | an instance believes it is active only after Redis granted it |
| InstanceLock.LostLeaseIsNoticed | src/core/instance-lock.ts:103-110 | a refresh executed after the loss clears held, and nothing else of any instance, and leaves Redis alone |
| InstanceLock.HeldMayOverlap | src/core/instance-lock.ts:48-50 | isHeld can be true for two instances when heartbeats fail for a whole lease |
| InstanceLock.ExecutedIff | src/core/instance-lock.ts:62-132 | what Redis answers to each call and leaves behind: yes to an acquire exactly of a free key, to a refresh or release exactly of the owner's; a refresh renews the whole lease, a release frees the key, a refused call changes nothing that can be read |
| InstanceLock.SentWhileHeld | src/core/instance-lock.ts:91-121 | in every run a refresh was sent while its instance was held and its timer ran, a release by a call of it while it was held |
| InstanceLock.RunAndAnsweredOnce | src/core/instance-lock.ts:62-137 | what Redis has run or a caller has heard stays so in every run that goes on |
| InstanceLock.HeartbeatAlone | src/core/instance-lock.ts:91-110 | the owner's heartbeat keeps it held and renews the lease from now |
| InstanceLock.FailedHeartbeatChangesNothing | src/core/instance-lock.ts:111-113 | a heartbeat whose call fails changes no instance and leaves Redis alone |
| InstanceLock.AcquireOwned | src/core/instance-lock.ts:62-76 | an acquire of a key that is there changes nothing |
| InstanceLock.ReleaseAlone | src/core/instance-lock.ts:116-137 | the owner's release frees the key, ends held and stops the heartbeat |
| DistributedMutex.Mutex.TryAcquireLocal | src/core/distributed-mutex.ts:175-189 | succeeds exactly when no unexpired lock is there, and replaces an expired one |
| DistributedMutex.Mutex.Attempt | src/core/distributed-mutex.ts:117-137 | one turn of the retry loop with its metrics |
| DistributedMutex.Mutex.ReleaseHandle | src/core/distributed-mutex.ts:194-200 | deletes and counts only if the token is still the handle's |
| DistributedMutex.Exclusion | src/core/distributed-mutex.ts:113-202 | at most one unreleased, unexpired handle per resource in every run |
| DistributedMutex.LateReleaseIsHarmless | src/core/distributed-mutex.ts:194-200 | a late release never frees a later holder |
| DistributedMutex.LiveReleaseFrees | src/core/distributed-mutex.ts:194-200 | in every run the release of a live handle frees its resource and is counted |
| DistributedMutex.TrySucceedsIff | src/core/distributed-mutex.ts:175-202 | a try succeeds if and only if no handle for its resource is live, and then lasts the whole timeout |
| DistributedMutex.MetricsBounds | src/core/distributed-mutex.ts:117-137 | acquisitions + failures = finished calls; contentions lie between failures * (retries + 1) and that plus retries for each other call |
| DistributedMutex.ReleasesCountedOnce | src/core/distributed-mutex.ts:194-200 | a second release of the same handle, at any time, counts nothing and frees nothing |
| DistributedMutex.ReleasesWithinAcquisitions | src/core/distributed-mutex.ts:194-200 | releases counted <= handles released <= acquisitions |
| MiniGame.MiniGameService.OpenRound | src/mini-app/game-service.ts:79 | a new round with its crash point, multiplier 1, countdown |
| MiniGame.MiniGameService.OnTick | src/mini-app/game-service.ts:80-81 | the timer callback, countdown to running to crashed, with the overshooting multiplier set back to the crash point |
| MiniGame.MiniGameService.EndRound | src/mini-app/game-service.ts:81 | crash: the multiplier becomes the crash point and a settlement is scheduled |
| MiniGame.MiniGameService.StartPlaceBet | src/mini-app/game-service.ts:59-69 | accepts only in a countdown and within the limits |
| MiniGame.MiniGameService.BindRound | src/mini-app/game-service.ts:72 | the bet gets the round current at its INSERT |
| MiniGame.MiniGameService.FinishPlaceBet | src/mini-app/game-service.ts:70-72 | known key: nothing; else debit, or promo without debit, or refusal |
| MiniGame.MiniGameService.StartCashout | src/mini-app/game-service.ts:76 | accepts only in a running round |
| MiniGame.MiniGameService.LockRow | src/mini-app/game-service.ts:77 | locks an open bet of the user and reads the multiplier |
| MiniGame.MiniGameService.FinishCashout | src/mini-app/game-service.ts:77 | settles the bet, credits stake and profit |
| MiniGame.MiniGameService.SendUpdate | src/mini-app/game-service.ts:103-104 | activation and settlement use the round current when their UPDATE is sent |
| MiniGame.MiniGameService.ApplyUpdate | src/mini-app/game-service.ts:103-104 | the UPDATE changes exactly the matching rows |
| MiniGame.MiniGameService.Rollback | src/mini-app/game-service.ts:73 | a failed transaction changes no table and drops its row lock |
| MiniGame.BalancesAccounted | src/mini-app/game-service.ts:69-78 | in every run no balance is negative and each is its start minus debited stakes plus stake times multiplier of cashed-out bets |
| MiniGame.TotalConserved | src/mini-app/game-service.ts:69-78 | the same for the total over any set of users |
| MiniGame.MultiplierNeverPassesCrash | src/mini-app/game-service.ts:79-81 | at every yield point the multiplier is between 1 and the current crash point |
| MiniGame.PaidWithinCrash | src/mini-app/game-service.ts:76-77 | every paid multiplier is between 1 and the crash point of the round in progress when it was read |
| MiniGame.BetsWithinLimits | src/mini-app/game-service.ts:59-77 | in every run a bet is within the limits, in a round that has begun, and paid in its own round or a later one |
| MiniGame.OneBetPerKey | src/mini-app/game-service.ts:70 | any interleaving of calls with one idempotency key makes at most one bet |
| MiniGame.SettledOnce | src/mini-app/game-service.ts:77 | a cashed-out or lost bet never changes again |
| MiniGame.SettlementClosesRound | src/mini-app/game-service.ts:104 | a committed settlement leaves no bet of its round open that was in the table, changes no other bet and no balance |
| MiniGame.OpenIff | src/mini-app/game-service.ts:72-104 | over every run an unpaid bet is open if and only if no settlement of its round has committed since its INSERT did |
| MiniGame.CashoutPaysCurrentMultiplier | src/mini-app/game-service.ts:76-78 | an uncontested cash-out pays stake times the multiplier of the moment, whatever the bet's round, and touches nothing else |
| MiniGame.PaidAboveOwnRound | src/mini-app/game-service.ts:76-77 | over every run a bet paid above the crash point of its own round was paid in a later round with a higher one; never in its own |
| MiniGame.OverpaidIff | src/mini-app/game-service.ts:76-81 | while a round runs, an open bet can be paid above its own crash point after some tick if and only if that is below the crash point of the running round |
| MiniGame.PausedBetIsOverpaid | src/mini-app/game-service.ts:24-26 | in a run with a pause and no settlement at all a bet of a round that crashes at 1.5 is paid at 5 in the next |
| MiniGame.LateBetIsOverpaid | src/mini-app/game-service.ts:72 | so is, without any pause, a bet whose INSERT commits after the settlement of its round |
| GameHistory.BetsAreCalledInCountdown | src/mini-app/game-service.ts:56-72 | in every run each bet goes back to a call of its user, with its amount and key, made in a countdown |
| GameHistory.PaymentsAreCalledByOwner | src/mini-app/game-service.ts:75-77 | in every run each paid bet goes back to a cash-out of its own user, made while a round ran |
| GameHistory.AcceptedIff | src/mini-app/game-service.ts:59-76 | in every reachable state a bet is accepted if and only if a countdown runs and it is within the limits, a cash-out if and only if a round runs |
| GameHistory.LockedIffHeld | src/mini-app/game-service.ts:77-78 | in every run a row is locked if and only if a cash-out in flight holds it |
| GameHistory.BetAloneResult | src/mini-app/game-service.ts:69-73 | an uninterrupted bet: known key, debit when the balance covers it, promo only when it does not, or refusal; in the current round, other balances untouched |
| GameHistory.OthersBetIsRefused | src/mini-app/game-service.ts:77 | a cash-out of a missing, foreign or settled bet ends and changes nothing |
| GameHistory.SecondCashoutWaits | src/mini-app/game-service.ts:77-78 | a second cash-out of a bet waits; it pays nothing once the first commits, and goes on with the multiplier of the moment if that fails |
| GameHistory.AbortEnds | src/mini-app/game-service.ts:73-78 | an operation that throws is over and leaves the tables as they were but for its row lock |
| GameHistory.CrashLosesOpenBets | src/mini-app/game-service.ts:80-104 | the crash and the settlement right after it lose exactly the open bets of the round |
| GameHistory.RoundActivatesBets | src/mini-app/game-service.ts:80-103 | the last tick of the countdown and the activation right after it activate exactly the placed bets of the round |
| GameHistory.PauseIsQuiet | src/mini-app/game-service.ts:24 | after a pause ticks do nothing and neither bets nor cash-outs are accepted |
| GameHistory.UpdatesAreOfTheirRound | src/mini-app/game-service.ts:103-104 | in every run the round of an activation or settlement is the one current when its UPDATE was sent |
| CrashPoint.CrashPointRange | src/mini-app/game-service.ts:12 | every crash point is in whole hundredths between 1 and 4252017623.04, and when it is 1 outright |
| CrashPoint.TailCount | src/mini-app/game-service.ts:12 | for k > 100 exactly floor(99 * 2^32 / k) remainders crash at k/100 or later |
| DailyLedger.InMemoryDailyEntryLedger.ReserveSlot | src/ledger/in-memory-daily-ledger.ts:62-105 | refuses at the limit, else adds a reserved slot; other days untouched |
| DailyLedger.InMemoryDailyEntryLedger.ConfirmSlot | src/ledger/in-memory-daily-ledger.ts:107-118 | moves the bet's first reserved slot to confirmed, or false |
| DailyLedger.InMemoryDailyEntryLedger.ReleaseSlot | src/ledger/in-memory-daily-ledger.ts:120-130 | releases the bet's first reserved slot, or false |
| DailyLedger.SimpleLedgerExact | src/ledger/in-memory-daily-ledger.ts:62-130 | in every run the counters are the numbers of reserved and confirmed slots, together within the limit, and so are the slot numbers |
| DailyLedger.SimpleReserveIff | src/ledger/in-memory-daily-ledger.ts:62-105 | in every run a reserve is granted if and only if fewer than the limit are confirmed or reserved, with the next number; a refusal changes nothing |
| DailyLedger.SimpleMoveIff | src/ledger/in-memory-daily-ledger.ts:107-130 | a confirm or release succeeds if and only if the bet has a reserved slot, and moves the first of them and no other |
| DailyLedger.DailyEntryLedger.ReserveEntry | src/ledger/daily-entries.ts:56-126 | one transaction over counter row and entry rows |
| DailyLedger.DailyEntryLedger.ConfirmEntry | src/ledger/daily-entries.ts:132-179 | not found, repeated, conflicting or moved |
| DailyLedger.DailyEntryLedger.ReleaseEntry | src/ledger/daily-entries.ts:185-211 | as written: done for a missing or released entry, rejected for a live one, and no row changes |
| DailyLedger.DailyEntryLedger.LockDailyStats | src/ledger/daily-entries.ts:355-384 | reads the day's counters, creating them as zeros |
| DailyLedger.SqlNeverFrees | src/ledger/daily-entries.ts:56-241 | on every run the counters are true, attempted included, and the limit holds; and no slot is ever freed |
| DailyLedger.SqlAnswersIff | src/ledger/daily-entries.ts:56-241 | in every run: a reserve is done while there are fewer entries than the limit, a confirm done if the bet has an entry, repeated too, and not found otherwise, a release rejected if it has one and done otherwise |
| DailyLedger.SqlStepAgreesIff | src/ledger/daily-entries.ts:56-241 | one operation on the simple and the SQL ledger: same answers to reserve and confirm, and same slots and counters after it if and only if the simple one freed no slot |
| DailyLedger.SqlAgreesIff | src/ledger/daily-entries.ts:56-241 | over every run with fresh bets the SQL ledger has the simple ledger's slots and counters all along if and only if that one frees no slot |
| DailyLedger.FreeEntryExactIff | src/ledger/daily-entries.ts:213-234 | the counter updates of a release, once accepted, keep the counters true if and only if it is not of a confirmed slot while another is reserved |
| DailyLedger.RepairedExactIff | src/ledger/daily-entries.ts:56-241 | were the parameter list repaired: over any run all counters are true all along if and only if no such release happens |
| DailyLedger.RepairedWithinLimit | src/ledger/daily-entries.ts:65-77 | were it repaired: on all those runs the limit holds |
| DailyLedger.RepairedAgreesIff | src/ledger/daily-entries.ts:56-241 | were it repaired: over every run with fresh bets it has the simple ledger's slots and counters all along if and only if no confirmed slot is released, and then attempted = confirmed + reserved + failed |
| MemoryLedger.InMemoryDailyEntryLedger.ReserveEntry | src/ledger/daily-entries.ts:484-536 | counts the attempt, refuses at the limit, else adds a reserved entry |
| MemoryLedger.InMemoryDailyEntryLedger.ConfirmEntry | src/ledger/daily-entries.ts:538-553 | confirms any entry that is not confirmed |
| MemoryLedger.InMemoryDailyEntryLedger.ReleaseEntry | src/ledger/daily-entries.ts:555-574 | releases a live entry and lowers the counters, both of them for a confirmed one |
| MemoryLedger.CountersTrueIff | src/ledger/daily-entries.ts:475-574 | over every run the confirmed and reserved counters are true all along if and only if no confirmed entry is released and no released one confirmed while the reserved counter is above zero |
| MemoryLedger.ReserveAnswerIff | src/ledger/daily-entries.ts:484-536 | in every run without miscounting steps a reserve is granted if and only if fewer entries than the limit are active; refused or not it counts as an attempt |
| MemoryLedger.AccountTrueIff | src/ledger/daily-entries.ts:475-574 | all counters, attempted included, if and only if, besides, no reserve is refused and no released entry is confirmed |
| MemoryLedger.WithinLimitIff | src/ledger/daily-entries.ts:475-574 | over every run the entries stay within the limit all along if and only if none is confirmed after its release, and none reserved, on a day full by its entries |
| MemoryLedger.TrueAndWithinIff | src/ledger/daily-entries.ts:475-574 | counters true and limit held all along if and only if no step miscounts and no released entry is confirmed on a day full by its counters |
| MemoryLedger.AgreesWithSimpleIff | src/ledger/daily-entries.ts:475-574 | over every run with fresh bets it has the simple ledger's slots and counters all along if and only if no confirmed entry is released and no released one confirmed |
| MemoryLedger.ConfirmedReleaseBreaksLimit | src/ledger/daily-entries.ts:555-574 | with limit 2 a run that releases a confirmed entry has three of any four bets confirmed |
| MemoryLedger.ReleasedConfirmBreaksLimit | src/ledger/daily-entries.ts:538-553 | with limit 1 a run that confirms a released entry has any two bets confirmed |
| MemoryLedger.RefusedReserveIsUnaccounted | src/ledger/daily-entries.ts:489-503 | a refused reserve alone breaks the account of attempts |
| BetExecution.KeysMeetIff | src/betting/idempotency.ts:31-33 | two sessions can share a key if and only if one with its colon begins the other with its colon |
| BetExecution.KeysTellRoundsApart | src/betting/idempotency.ts:31-33 | within a session, or without colons, a key determines session and round |
| BetExecution.InMemoryIdempotencyStore.ReserveKey | src/betting/idempotency.ts:329-345 | true exactly for an absent key, which becomes pending |
| BetExecution.InMemoryIdempotencyStore.Mark | src/betting/idempotency.ts:347-377 | sets the status of an existing record only |
| BetExecution.BetExecutor.PlaceAlone | src/betting/executor.ts:59-271 | the retry loop and its classification give the outcome decided by the first submission that does not throw, and the store gets the matching status |
| BetExecution.CallAloneIsOutcome | src/betting/executor.ts:121-204 | the interleavable steps of a call left alone reach the result of that loop |
| BetExecution.OneBetAtATime | src/betting/executor.ts:59-60 | one call per executor is past the mutex |
| BetExecution.FirstCalledFirstServed | src/utils/async.ts:1-22 | an executor begins its calls in call order |
| BetExecution.PlacedOncePerRound | src/betting/executor.ts:75-95 | for any adapter and any concurrent calls, also of several executors, at most one call per session and round returns placed |
| BetExecution.SubmittedOnce | src/betting/executor.ts:143-204 | at most one submission of a key returns normally and none follows it |
| BetExecution.SubmissionsAreRetries | src/betting/executor.ts:121-204 | in every run a returned live bet was submitted exactly retryCount + 1 times, more than once exactly if a submission threw and retries are allowed; all but the last threw, and all max + 1 if FAILED |
| BetExecution.SubmittedTwice | src/betting/executor.ts:117-146 | a run that submits one bet twice, the first call having thrown, and reports it placed |
| BetExecution.StoredStatusMatches | src/betting/executor.ts:206-245 | a returned call was a duplicate or the store has its status, and a live bet is FAILED exactly if no submission of its key returned normally |
| BetHistory.OutcomeIff | src/betting/executor.ts:121-245 | in every run a returned live owner is placed, CONFIRMED and stored COMPLETED if and only if a submission was accepted and its confirmation was yes; UNKNOWN if and only if one was rejected, or accepted and not confirmed; FAILED if and only if none returned |
| BetHistory.AcceptedBeforeConfirmed | src/betting/executor.ts:144-175 | a confirmation is heard only after an acceptance |
| BetHistory.OthersHearNothing | src/betting/executor.ts:75-115 | in every run a duplicate is refused as FAILED and a dry run reported placed, and neither has called the adapter |
| BetHistory.DuplicatesHaveOwner | src/betting/idempotency.ts:329-345 | in every run a key is in the store if and only if a call holds or held it, and every returned call's key is there |
| BetHistory.LockedIffUnderWay | src/betting/executor.ts:59-60 | in every run an executor's mutex is locked if and only if a call of it is under way, and a call waits only behind an earlier one that is |
| BetHistory.DryRunAloneIsOutcome | src/betting/executor.ts:97-115 | the interleavable steps of a dry run left alone reach the result of the sequential method |
| CashOut.CashOutController.OnTick | src/betting/cashout.ts:161-183 | requests cash-out at the first tick at the target, unless resolved or aborted |
| CashOut.CashOutController.OnCrash | src/betting/cashout.ts:226-262 | LOST only if nothing was triggered |
| CashOut.CashOutController.OnExecuted | src/betting/cashout.ts:183-221 | a result that comes in time confirms or fails, a late one does nothing |
| CashOut.CashOutController.OnSafetyTimeout | src/betting/cashout.ts:267-281 | resolves as UNKNOWN if nothing else has |
| CashOut.CashOutController.ResolveOnce | src/betting/cashout.ts:154-158 | only the first result counts |
| CashOut.ResolvedOnce | src/betting/cashout.ts:146-283 | the result never changes once there |
| CashOut.RequestedOnceAndConfirmedExactly | src/betting/cashout.ts:146-331 | at most one request, and confirmed exactly for CASHED_OUT |
| CashOut.LostMeansNeverRequested | src/betting/cashout.ts:226-261 | after LOST no cash-out has been or will be requested |
| CashOut.TriggeredIsNeverLost | src/betting/cashout.ts:161-242 | once triggered the result is never LOST |
| CashOut.CashedOutIsEarned | src/betting/cashout.ts:183-198 | CASHED_OUT needs a tick at the target, an accepted request and a positive confirmation |
| CashOut.AbortStops | src/betting/cashout.ts:161-168 | after an abort that comes before the trigger cash-out is never requested |
| CashOut.AbortedResolvesIff | src/betting/cashout.ts:104-132 | an aborted monitor that has not triggered resolves if and only if a crash or the safety timeout follows, as LOST or UNKNOWN by the first of them |
| CashOut.AbortAloneNeverResolves | src/betting/cashout.ts:126-132 | an abort and any ticks leave the promise unresolved |
| CashOut.TimeoutResolves | src/betting/cashout.ts:264-281 | after the safety timeout there is a result |
| CashOut.DeliveredIff | src/betting/cashout.ts:183-221 | when the cash-out's end is the first to resolve, the result is CASHED_OUT, and confirmed, if and only if request and confirmation were answered yes, and FAILED if and only if one of them was refused or threw |
| CashOut.RequestedBeforeConfirmed | src/betting/cashout.ts:286-331 | a confirmation is heard only after an accepted request |
| CashOut.FirstResolverDecides | src/betting/cashout.ts:154-281 | exactly a crash before any trigger, the safety timeout and the cash-out's end resolve, and the first of them decides |
| CashOut.RequestedIff | src/betting/cashout.ts:161-183 | in every run cash-out is requested if and only if a tick at the target comes while the monitor is neither resolved nor aborted |
| NotificationQueue.Queue.MakeRoom | src/notifications/queue.ts:81-90 | a full queue loses its first low or normal message, else its first |
| NotificationQueue.Queue.Add | src/notifications/queue.ts:78-106 | enqueue: room, append, stable sort by priority |
| NotificationQueue.Queue.Take | src/notifications/queue.ts:108-112 | removes and returns the head |
| NotificationQueue.Queue.StartFlush | src/notifications/queue.ts:157-173 | one flush at a time takes the whole queue |
| NotificationQueue.Queue.VisitItem | src/notifications/queue.ts:175-187 | skips a message that is backing off, else calls deliver |
| NotificationQueue.Queue.HandleAnswer | src/notifications/queue.ts:187-225 | delivered, retried or dead-lettered, refusals and throws alike |
| NotificationQueue.Queue.FinishFlush | src/notifications/queue.ts:227-230 | what is left goes before what has arrived |
| NotificationQueue.Queue.Shutdown | src/notifications/queue.ts:239-247 | empties the queue |
| NotificationQueue.EachMessageInOnePlace | src/notifications/queue.ts:78-237 | in every run an enqueued message is in exactly one place, once, and no other id is anywhere |
| NotificationQueue.AttemptLimits | src/notifications/queue.ts:186-224 | pending messages have fewer than retryAttempts failures and no success, dead letters exactly that many failures, nothing is delivered again after a success |
| NotificationQueue.RetriesBackOff | src/notifications/queue.ts:176-187 | two consecutive attempts at a message are at least retryDelay * 2^min(failures, 6) apart |
| NotificationQueue.VisitIff | src/notifications/queue.ts:175-187 | in every run a flush hands its next message to deliver if and only if it was never attempted or its wait is over, and leaves it for the next flush otherwise |
| NotificationQueue.BackoffDoubles | src/notifications/queue.ts:176-179 | the wait starts at retryDelay and doubles with each failure up to 64 times that |
| NotificationQueue.DeliveredAsAnswered | src/notifications/queue.ts:186-224 | in every run a message is delivered as often as deliver answered true for it, and has failed as often as it answered false or threw |
| NotificationQueue.MetricsMatch | src/notifications/queue.ts:188-214 | delivered counts the messages delivered and the deliveries that went well, failed those that did not, deadLettered the dead letters |
| NotificationQueue.FirstInFirstOut | src/notifications/queue.ts:101-106 | across every run messages of equal rank stay in enqueue order |
| NotificationQueue.SortedAfterEnqueue | src/notifications/queue.ts:101-106 | after each enqueue the queue is sorted by priority |
| NotificationQueue.UrgencyOrder | src/notifications/queue.ts:101-105 | critical, high, normal, low; an unknown priority ranks as normal |
| NotificationQueue.EnqueueAddsOne | src/notifications/queue.ts:78-106 | in every run an enqueue adds its message and nothing else, and drops one exactly from a queue that has reached its size |
| NotificationQueue.DequeueTakesMostUrgent | src/notifications/queue.ts:101-112 | right after an enqueue a dequeue takes the oldest of the most urgent messages |
| NotificationQueue.FlushEndsAndDestroyed | src/notifications/queue.ts:157-247 | a flush takes the queue and gives back what is left before what has arrived; a destroyed queue is empty, takes no message and starts no flush |
| NotificationQueue.DropsOldestOfItsPriority | src/notifications/queue.ts:81-90 | a full queue drops a critical, high or unknown message only when no normal or low one is queued, and always the oldest of its priority |
| NotificationQueue.DocumentedDropIff | src/notifications/queue.ts:81-90 | over every run the dropped message is the oldest of the least urgent ones if and only if the first normal or low message is low, or is normal with no low one queued and none of unknown priority before it, or there is neither and the head is of the lowest rank |
| NotificationQueue.DropsLeastUrgentIff | src/notifications/queue.ts:81-90 | a sorted queue drops a least urgent message if and only if it has not both a normal and a low one and, with neither, all of it has one rank |
| NotificationQueue.CriticalGoesBeforeHigh | src/notifications/queue.ts:84-88 | a run that drops a critical message and keeps a high one |
| NotificationQueue.CriticalGoesBeforeUnknown | src/notifications/queue.ts:83-88 | a run that drops a critical message and keeps one of unknown priority |
| NotificationQueue.NormalGoesBeforeLow | src/notifications/queue.ts:83-85 | a run that drops a normal message and keeps a low one |
| StableSort.SortSorts | src/opportunity/ranker.ts:54 | the sort is sorted and a permutation |
| StableSort.SortIsStable | src/notifications/queue.ts:103-105 | elements of equal key keep their order |
| StableSort.StableSortIsUnique | src/notifications/queue.ts:103-105 | so it is the one stable sort |
| OpportunityRanker.Ranker.EvictExpired | src/opportunity/ranker.ts:104-111 | the backward loop removes exactly the expired elements, ranks left alone |
| OpportunityRanker.Ranker.UpsertOpportunity | src/opportunity/ranker.ts:40-76 | evict, replace or append, sort, cut, rank from 1 |
| OpportunityRanker.Ranker.IsApproved | src/opportunity/ranker.ts:87-93 | the found element's rank against the cutoff of the present window |
| OpportunityRanker.RunKeepsInv | src/opportunity/ranker.ts:40-111 | at any moment the window is sorted by quality, without repeated ids, ranks strictly increasing |
| OpportunityRanker.ApprovedArePrefix | src/opportunity/ranker.ts:87-93 | in every run, even with stale ranks, the approved ones are the first n of the window, best first, with n <= 1 or n - 1 < size * topFraction |
| OpportunityRanker.FreshApproval | src/opportunity/ranker.ts:60-93 | right after an accepted upsert the i-th (from 0) is approved if and only if i = 0 or i < size * topFraction |
| OpportunityRanker.CutoffIff | src/opportunity/ranker.ts:91-92 | max(1, ceil(n * topFraction)) as the code computes it admits exactly those with none, or fewer than n * topFraction, before them |
| OpportunityRanker.ApprovedIsInWindow | src/opportunity/ranker.ts:89-90 | nothing is approved that is not in the window |
| OpportunityRanker.SomethingApprovedIff | src/opportunity/ranker.ts:87-111 | something is approved if and only if the best one is, its possibly stale rank minus 1 being 0 or less than size * topFraction |
| OpportunityRanker.StaleRankBlocksTheBest | src/opportunity/ranker.ts:104-111 | a window whose only opportunity is not approved |
| OpportunityRanker.StreamingEqualsBatch | src/opportunity/ranker.ts:40-76 | fresh unexpired upserts leave the top of the stable descending sort of everything accepted, ranked from 1 |
| OpportunityRanker.KeepIff | src/opportunity/ranker.ts:104-111 | an eviction keeps an element if and only if it has not expired |
| OpportunityRanker.UpsertKeepsTheBest | src/opportunity/ranker.ts:40-76 | in every run an accepted upsert leaves the best windowSize of the unexpired opportunities and the new one, which takes the place of an older version of its id |
| OpportunityRanker.RejectedOnlyEvicts | src/opportunity/ranker.ts:42-45 | an opportunity below the minimum quality changes nothing but the evictions |
| OpportunityRanker.ClearStartsAnew | src/opportunity/ranker.ts:100-102 | what follows a clear is as from the start |
| Pnl.ComputeDrawdown | src/ledger/pnl-calculator.ts:171-187 | the loop's maximum is the largest P_i - P_j with i <= j, and its current drawdown is measured from the peak |
| Pnl.BuildEquityCurve | src/ledger/pnl-calculator.ts:142-166 | each point has the prefix sum, the peak so far and their difference |
| Pnl.ComputeDrawdownFromCurve | src/ledger/pnl-calculator.ts:192-197 | the maximum over the curve and its last value |
| Pnl.CurveAgrees | src/ledger/pnl-calculator.ts:142-197 | the maximum over the built curve is the largest P_i - P_j, and the curve ends at the net P&L |
| Pnl.MaxDrawdownIsUnique | src/ledger/pnl-calculator.ts:171-197 | so both ways give the same number |
| Pnl.PeakIsUnique | src/ledger/pnl-calculator.ts:180-185 | likewise the current drawdowns |
| Pnl.TallyStreaks | src/ledger/pnl-calculator.ts:69-101 | streak maxima are the longest contiguous win and loss blocks, current streaks the blocks that end the list |
| Pnl.TallyCounts | src/ledger/pnl-calculator.ts:62-101 | the counters and gross sums are those of the list |
| Pnl.TallyEntries | src/ledger/pnl-calculator.ts:74-101 | the loop computes that tally |
| Pnl.ComputeSummary | src/ledger/pnl-calculator.ts:57-137 | every modelled field by its definition |
| Pnl.SimulateDryRun | src/ledger/pnl-calculator.ts:204-221 | the summary of one win or loss per crash point |
| Pnl.DrawdownBounds | src/ledger/pnl-calculator.ts:204-221 | stake * longest loss streak <= max drawdown <= stake * losses |
| Pnl.ExpectationIsNet | src/ledger/pnl-calculator.ts:29-52 | n * expected value = net P&L, which is not negative exactly when the hit rate reaches break-even |
| Pnl.DryRunWins | src/ledger/pnl-calculator.ts:204-221 | a dry run wins exactly the crash points that reach the target and loses all others; its net is profit times wins minus stake times losses |
| Pnl.HitRateIs | src/ledger/pnl-calculator.ts:103-105 | the hit rate is wins over decided bets, and 0 when there are none |
| Recovery.UnknownStateRecovery.RunRecoverySweep | src/ledger/unknown-state-recovery.ts:92-122 | the guarded, capped loop: records and counts after it, and when it throws |
| Recovery.SweepWritesEvidence | src/ledger/unknown-state-recovery.ts:124-172 | what every record is after a sweep: unselected or without evidence as it was; LOST with -stake, FAILED with 0, CASHED_OUT with stake * multiplier - stake to the nearest cent, or 0 without a multiplier; round and stake as they were |
| Recovery.SweepReportsTruth | src/ledger/unknown-state-recovery.ts:92-121 | the reported totals are the selected bets, the fall in UNKNOWN bets and the rest, and exactly when the sweep throws |
| Recovery.SweptCount | src/ledger/unknown-state-recovery.ts:99-107 | UNKNOWN bets after = before - selected + selected ones still UNKNOWN |
| Recovery.OneSweep | src/ledger/unknown-state-recovery.ts:92-172 | with answers for all, a sweep resolves min(n, cap) |
| Recovery.SweepsClear | src/ledger/unknown-state-recovery.ts:92-172 | sweeps clear n bets if and only if there are at least ceil(n / cap) |
| Recovery.BalanceReconciliation.HandleMismatch | src/ledger/balance-reconciliation.ts:282-319 | throws when the alert fails, or the pause at the third mismatch in a row |
| Recovery.BalanceReconciliation.Reconcile | src/ledger/balance-reconciliation.ts:84-159 | the verdict, the stored result and the run of mismatches, on every path |
| Recovery.BalancedIff | src/ledger/balance-reconciliation.ts:112-113 | balanced if and only if both balances are known and their difference to the nearest hundredth is within the tolerance on either side |
| Recovery.BalanceReconciliation.CountUnresolvedBets | src/ledger/balance-reconciliation.ts:250-256 | when read, the number of positions with an UNKNOWN bet; 0 exactly when there is none or the read failed |
| Recovery.TotalByPages | src/ledger/balance-reconciliation.ts:206-232 | the paging loop totals all rows up to 1,001,000 and no more |
| Recovery.RecoveryManager.RunRecovery | src/core/recovery-manager.ts:114-225 | halted equals not canResume on every path, and records and verdict are those of the pipeline as a function |
| Recovery.RecoveryManager.Conclude | src/core/recovery-manager.ts:172-203 | the state and result after the verdict, a failed announcement included |
| Recovery.RecoveryManager.Crash | src/core/recovery-manager.ts:204-224 | any escaped error halts |
| Recovery.RecoveryManager.ForceResume | src/core/recovery-manager.ts:231-248 | takes effect only if signed and no UNKNOWN bet is counted, a refusal changes nothing, and a failed event rejects a call that took effect |
| Recovery.ResumedMeansClear | src/core/recovery-manager.ts:253-279 | under the default gates, if the count is read, resuming means that no bet is UNKNOWN and balances match |
| Recovery.ResumesUnderGatesIff | src/core/recovery-manager.ts:114-279 | exactly when betting resumes, under any gates, and whatever alert, pause, event or read fails |
| Recovery.ResumesIff | src/core/recovery-manager.ts:114-279 | exactly when betting resumes under the default gates, whatever fails and whether another sweep runs |
| Recovery.UnreadCountLetsUnknownPass | src/ledger/balance-reconciliation.ts:253-255 | a recovery whose count fails resumes with any bets that arrived, UNKNOWN or not |
| Recovery.SweepGateIff | src/core/recovery-manager.ts:263-269 | a sweep that leaves none of its own bets UNKNOWN leaves none at all if and only if there were no more than the cap |

## Left out

- Browser automation, HTTP, WebSocket, Telegram, admin and billing code, live executors and the risk engine: foreign calls, wiring, or conjunctions of flags.
- Hashing, seeds, random tokens and UUIDs: the crash point takes its 52 bits as given, tokens are assumed distinct, and nothing is said about replaying a seed.
- Floating point: rounding of products and of the multiplier is not modelled.
- Isolation and retries inside a database transaction: a transaction is one step, except that a cash-out's row lock blocks other writers of that row from its SELECT to its end; waiting for a lock is an event that does not happen yet. An UPDATE that has waited matches the rows as they are when it commits, while the database would not see rows inserted after it began; `MiniGame.OpenIff` and `MiniGame.SettlementClosesRound` depend on that.
- Table definitions: idempotency keys are unique, as the migrations have them; `daily_entries` is taken as a list in insertion order, of which a query by bet returns the first row.
- MiniGame.MiniGameService.OnTick: the auto-cash-out heap drained in the callback only chooses which cash-outs start; each start is an event of its own, before the tick.
- MiniGame.MiniGameService.StartPlaceBet: refusals for responsible gambling and betStep, which only mean that the event does not happen.
- MiniGame.MiniGameService.FinishPlaceBet: the refusal at the daily-loss limit, which appears as an Abort.
- Pnl.ComputeSummary: the averages, the streak type and the expected value of an empty list.
- MiniGame: round persistence and listeners are left out; the countdown is counted in ticks; minBet is taken to be at least 0.
- InstanceLock: `setInterval` timing; a heartbeat may be sent at any time while the timer runs.
- DistributedMutex: the Redis path, its fallback to memory, `disconnect` and latencies; exclusion is not guaranteed across a fallback.
- TenantLock: what the locked bodies do. `pushLoginCredentials` calls `provisionUnlocked` outside the lock (src/platform/process-orchestrator.ts:255), so exclusion is stated for the calls that take the lock.
- BetExecution: the Redis-backed store, cleanup and release of keys, store methods that throw; all executors have the same number of retries, which is not negative. A `submitBet` that throws may have reached the platform; the log counts such submissions as not normal.
- BetExecution.BetExecutor.PlaceAlone: the call left alone; what other calls do meanwhile is in the runs.
- CashOut: native auto cash-out, memoization in `monitor`, and P&L values.
- NotificationQueue: the dead-letter callback is taken not to throw, message texts are left out, ids are positions in enqueue order; retryAttempts is at least 1 in `AttemptLimits` and `RetriesBackOff`; a last attempt at time 0 reads as none, as in the code.
- OpportunityRanker: changes that a caller makes to a stored opportunity; a negative window size.
- Pnl: rolling windows and the 100-entry simulation.
- Recovery: the SQL aggregate and a repository that ignores the offset, `manualResolve`, event payloads, multipliers and evidence texts of a record; the expected and actual balances are given; UNKNOWN bets are selected in repository order; new bets arrive between the phases.
