# gum-engine: a verified model

gum-engine relays EVM transactions for its users: it accepts jobs, binds each to a nonce of one of its
signers, signs, broadcasts, watches, replaces or cancels what is stuck, and reports the outcome. Its
promise is that a restart or crash never loses a job, sends one twice or reuses a nonce. No single
function keeps that promise; it comes from a fenced, crash-tolerant protocol between a durable store, a
driver per nonce, a recovery walk and a chain that may do anything.

This project models that protocol as a state machine over the Postgres tables, every process that ever
held the lease, and an adversarial chain, and proves over every run how far the promise is kept: at most
once and no job lost, outright while zombies start no recovery walks; the rest up to exactly named exceptions. Around it stand models
of the parts it relies on: settlement, accounting, the webhook outbox, the balance ledger, the fee rules,
the driver itself, recovery, confirmation, and the small concurrent structures (rate limiter, job queue,
batch insert, credit ring).

`dafny verify dfyconfig.toml` checks everything.

## How it is built

| files | what they hold |
|---|---|
| `Domain`, `Store` | rows and tables; every SQL transaction as a function on tables |
| `Database` | the same transactions as statements on mutable tables, each proved equal to its function |
| `World` | processes, chain and store as one state machine of 25 kinds of step |
| `Invariant`, `Steps*`, `Hands`, `Runs` | the inductive invariants, the proof that every step keeps them, and the inductions over runs |
| `Safety`, `Walks` | the promises over runs, and what zombies have to do with the exceptions |
| `Takeover` | how slots change hands: no payload loses its slot unseen, no earlier owner gets a nonce back |
| `Findings`, `Counterexamples` | where the code falls short: the exact conditions, and whole runs that show it |
| `Lifecycle`, `Records` | what every store call makes of every job, top-up and attempt; what a job's row tells about its history |
| `Settlement`, `GasLedger`, `Trace`, `Delivery` | retried writes, gas totals, event traces, webhook order and leases |
| `Driver`, `DriveLog` | one nonce's driver; its log, proved to be steps of `World` |
| `Binding`, `Recovery`, `Confirmation` | the driver's bind, the recovery walk, the confirmation verifier |
| `Fees`, `Ledger` | fee and cost arithmetic (modules `Fees`, `Costs`), the balance ledger (`Balance`, `Ledgers`) |
| `Limiter`, `Queue`, `Ingest`, `Credits` | rate limiter, job queue and its workers, batch insert, credit ring |

A signed transaction is a value that stands for its own hash; two signings of the same fields differ in
`salt`. A process is named by the epoch it was given, so a zombie is a process whose epoch is no longer
current; a crash removes a process, and an unacknowledged COMMIT is a step whose `reported` flag is false.
Processes hold at most one flight per pair, and take work only on pairs that recovery has reconciled.

The hypotheses are part of the steps' guards in `World.Enabled`:

- H1: the canonical chain holds at most one transaction per (signer, nonce).
- H2: bytes rejected by a stateless rule, on a chain whose rejects are trusted, are never mined. This
  covers the rejected bytes only, not other attempts at the nonce.
- H3: when the node says "nonce too low" and four rounds of lookups find no receipt of an attempt the driver
  tracks, the nonce is held for good by a transaction the driver does not track. Whose it is stays open.
- H4: a confirmation is written only for an inclusion that can no longer be re-orged away.

Other guards state what the engine itself ensures:

- A job is not bound while another flight of the same process carries it: the queue's `known` set gives a
  job one place at a time (`QueueWorkers.NoDuplicates`).
- A job is failed directly only while queued, which is how both callers use it.
- A driver does not void after it signed a cancel whose bind was not reported as committed: the cancel is
  the last rung of every ladder, so from then on it only watches (`Driver.InFlight.Resolve`).
- A process reports an inclusion only of a transaction it has had in hand, and its driver does so as its
  last act. Zombies may report too: nothing fences that.

One step is finer than in the engine: recovery there resumes all live attempts of a nonce as one flight,
which signs for the owner of the oldest, and `World.Resume` resumes them owner by owner. They differ only
at a torn nonce with live attempts of several owners, and nothing is lost: every bind of such a flight is refused
(`Takeover.MixedNonceIsRefused`) and each of its sends is that of a flight of one owner
(`Takeover.MixedSendIsOneOwners`). `Driver.InFlight.Resume` takes them all, as the engine does.

## What turned out otherwise than documented

- A `Deterministic` answer condemns the bytes just sent, but the void it triggers gives up every attempt
  at the nonce. The never-accepted flag survives an indeterminate answer and a fee replacement, so an
  earlier attempt may be in a pool; the job is failed and then executes
  (`Counterexamples.FailedJobExecutes`), or the nonce serves two jobs (`Counterexamples.NonceServesTwoJobs`).
  Exactly when: `Findings.VoidIsSoundIff`, `Safety.FailedIsFinal`, `Safety.EscapedCanExecute`.
- On "nonce too low" the driver asks for receipts of the attempts it tracks, not of all that are stored. An
  attempt whose commit was never acknowledged can be loaded, sent and mined by a zombie; the job is then
  requeued and executes twice (`Counterexamples.JobExecutesTwice`). Exactly when:
  `Findings.RequeueIsSoundIff`, `Safety.MissHasACause`. It takes a zombie that starts a recovery walk:
  without one, at-most-once holds outright (`Walks.AtMostOnceIfZombiesDoNotWalk`).
- The void on a stateless reject deletes the nonce's slot without looking for an included attempt. If a
  zombie recorded one, slot and mark no longer cover it (`Counterexamples.NonceIsTorn`), the next job may
  bind the same nonce, and settling that one can leave the first job without any live attempt: it is lost
  (`Counterexamples.JobIsLost`). Exactly when the void tears a nonce: `Findings.OwnershipKeptIff`. Only
  jobs bound at a torn nonce can be lost (`Safety.NoJobIsLost`), and without zombie walks no nonce is torn
  (`Walks.NoJobIsLostIfZombiesDoNotWalk`). At-most-once and terminal truth do not depend on it.
- A top-up does not look at the purpose of the attempt that was mined: a confirmed cancel marks it
  confirmed although nothing was transferred (`Counterexamples.CancelledTopupIsConfirmed`, `Findings.TopupPaidIff`).
- The escalation bound holds for tracked attempts. For signatures it holds iff the failed binds fit into it
  (`Driver.InFlight.Resolve`), and they need not (`Driver.SignatureFlood`).
- The confirmer undoes a vanished inclusion in the store first and in the ledger afterwards. If recovery has
  resumed the nonce in between, undoing overwrites its reservation, with zero when recovery itself had
  handed the inclusion over, and the next debit can exceed what is reserved
  (`Driver.DebitBeyondReservation`). Exactly what is then reserved: `Balance.UndoingOverwrites`.
- The ledger's reset does not clear maturing credits (`Balance.ResetBecomesTotalIff`).
- A fresh quote exceeds the fee cap when the configured tip does (`Fees.FreshQuoteIsSane`).

## Model

| member | source | states |
|---|---|---|
| `Safety.AtMostOnce` | crates/gum-engine/src/pipeline/tx.rs:118-149 | In every state of every run under H1-H4 (crashes, leader changes, zombies that walk, send and settle, lost responses, unacknowledged commits, re-orgs, requeues, voids as the driver decides them) two payload transactions of one owner on the canonical chain are the same transaction, unless one of them was missed by a foreign void |
| `Safety.MissHasACause` | crates/gum-engine/src/pipeline/tx.rs:444-473 | A transaction is missed only by a committed foreign void of the leader, while it held the nonce and the driver did not track it |
| `Safety.AtMostOnceIfAllLookedAt` | crates/gum-engine/src/pipeline/tx.rs:446-457 | Outright at-most-once for every run in which no foreign void missed one of the two |
| `Walks.AtMostOnceIfZombiesDoNotWalk` | crates/gum-engine/src/pipeline/recovery.rs:40-60 | Outright at-most-once for every run in which only the current leader starts recovery walks |
| `Walks.NothingIsMissedOrTorn` | crates/gum-engine/src/pipeline/tx.rs:444-473 | In those runs the leader's driver knows every attempt at a nonce it has not decided, nobody else holds one, and none has been settled; so nothing is ever missed and no nonce is ever torn from its slot |
| `Walks.NoJobIsLostIfZombiesDoNotWalk` | crates/gum-engine/src/store/attempts.rs:418-430 | Outright, in every run in which only the current leader starts recovery walks: a non-terminal job is queued or recoverable |
| `Hands.ImpossibleForever` | crates/gum-engine/src/store/attempts.rs:343-351 | What can no longer be mined (rejected, displaced for good, or retired before anybody held it) can never be mined again, whatever step follows |
| `Safety.FailedNeverExecutes` | crates/gum-engine/src/store/attempts.rs:394-404 | In every run under H1-H4: once a job is failed, a payload of it that is ever on the chain later is one that a void gave up alive: on a stateless reject of a sibling (`escaped`), or as untracked holder of the nonce (`missed`) |
| `Safety.EscapeHasACause` | crates/gum-engine/src/pipeline/tx.rs:426-435 | The only way into `escaped` is a committed void on a stateless reject of a sibling attempt, while the transaction itself was neither rejected nor unsent |
| `Safety.FailedIsFinal` | crates/gum-engine/src/store/jobs.rs:227-243 | In every run under H1-H4 a failed job's payload is not on the chain and never will be, provided no void gave that payload up alive; covers the original racing its cancel, queued failures and voids |
| `Safety.EscapedCanExecute` | crates/gum-engine/src/pipeline/tx.rs:426-435 | Conversely, a run ending in a void that failed the job and gave a sent payload up alive, with the nonce still free, extends to a run in which the failed job executes |
| `Safety.ConfirmedStaysExecuted` | crates/gum-engine/src/store/attempts.rs:444-497 | Once a job is confirmed, its payload is on the chain in that and every later state (exactly once, with AtMostOnce) |
| `Safety.TerminalForever` | crates/gum-engine/src/store/attempts.rs:234-257 | A confirmed or failed job row is never changed again by anybody, in any run |
| `Safety.TerminalRowStays` | crates/gum-engine/src/store/attempts.rs:327-340 | The same for one arbitrary store call on arbitrary tables |
| `Safety.NoJobIsLost` | crates/gum-engine/src/store/attempts.rs:418-430 | In every state of every run: a non-terminal job is queued, or the live attempts recovery loads for its pair contain one of its attempts, at its bound nonce, with its bytes still stored, or the nonce it is bound to was torn from its slot by an earlier void |
| `Safety.BroadcastIsCommitted` | crates/gum-engine/src/pipeline/tx.rs:124-148 | Everything any process ever broadcast is a committed attempt |
| `Safety.EpochNeverFalls` | crates/gum-engine/src/store/lease.rs:85-88 | The lease epoch never decreases along a run |
| `Safety.StaleLeaderIsFenced` | crates/gum-engine/src/store/attempts.rs:94-100 | After a successor bumped the epoch, no bind or void under an older epoch changes any table |
| `Safety.OneOwnerPerNonce` | crates/gum-engine/src/store/attempts.rs:105-131 | In every state of every run all non-dropped attempts at a (chain, signer, nonce) that was not itself torn have the same owner, and it is the slot's |
| `Safety.NonceServesOneJob` | crates/gum-engine/src/store/attempts.rs:352-382 | In every state of every run: if two different owners' payloads signed for one nonce can both still be mined, one of them escaped a stateless-reject void |
| `Takeover.MixedNonceIsRefused` | crates/gum-engine/src/pipeline/recovery.rs:109-118 | Outright, in every run: when a recovery walk finds live attempts of several owners at a nonce, every replacement or cancel it signs for the owner of the oldest is refused by the store and changes no table |
| `Takeover.OldestIsOusted` | crates/gum-engine/src/store/attempts.rs:121-130 | In every state of every run: of two owners with attempts at one nonce, the earlier one does not hold the slot while an attempt of the later one is not retired |
| `Takeover.PayloadsAreBacked` | crates/gum-engine/src/store/attempts.rs:352-382 | In every state of every run a payload that can still be mined is on a slot of its owner, or was given up by a void: alive (`escaped`) or unseen while it held the nonce (`missed`) |
| `Takeover.AlwaysAtHome` | crates/gum-engine/src/store/attempts.rs:155-165 | In every state of every run an attempt of a job is at the nonce its job is bound to, or at one that is decided for good |
| `Takeover.MixedSendIsOneOwners` | crates/gum-engine/src/pipeline/tx.rs:153-180 | Each send of a flight resumed with several owners' attempts has exactly the effect of resuming one owner's attempts, sending and ending that flight |
| `Safety.MarkCoversSlots` | crates/gum-engine/src/store/attempts.rs:368-382 | In every reachable state the high-water mark (NULL as -1) is at least every held nonce of the pair, also after a void stepped it back |
| `Safety.FirstBindIsFresh` | crates/gum-engine/src/store/attempts.rs:186-191 | Every committed first bind takes a nonce strictly above the mark and leaves the mark on it |
| `Safety.RecoveredCursorIsAbove` | crates/gum-engine/src/pipeline/recovery.rs:142-169 | Whatever nonce the node reports, recovery sets the cursor above every slot the pair holds and not below that nonce |
| `Safety.FreedNonceIsNext` | crates/gum-engine/src/store/attempts.rs:342-346 | In every run: after a reported stateless-reject void the freed nonce is the one its process binds next, so no gap is left |
| `Safety.RecoverableCanBeResent` | crates/gum-engine/src/pipeline/recovery.rs:40-120 | From any state a job that recovery finds can be loaded, taken over and sent again by any process whose pair is idle |
| `Safety.IncludedCanBeConfirmed` | crates/gum-engine/src/store/attempts.rs:444-475 | From any state an included job whose payload is on the chain can be confirmed, and then it is |
| `Safety.ForeignTakerRequeues` | crates/gum-engine/src/pipeline/tx.rs:458-474 | From any state the nonce of an unacknowledged job can be taken by a foreign transaction for good, the driver's void is then allowed, and the job is queued again |
| `Safety.CrashedStaysGone` | crates/gum-engine/src/store/lease.rs:85-88 | In every run a process that died never acts again: no later one is given its epoch |
| `StepsEnv.StepKeeps` | crates/gum-engine/src/pipeline/tx.rs:227-511 | Each of the 25 kinds of step (store transactions, driver, recovery, chain, crash) keeps the inductive invariant |
| `StepsCancel.CancelsStep` | crates/gum-engine/src/pipeline/tx.rs:662-664 | Every step keeps: a cancel at the leader's unacknowledged nonce that its driver neither tracks nor doubts is out of play |
| `Runs.RunKeeps` | crates/gum-engine/src/pipeline/recovery.rs:27-193 | Both hold in every state of every run |
| `StepsOwn.OwnStep` | crates/gum-engine/src/store/attempts.rs:352-382 | Every step keeps attempts in play on slots of their owners, and sent jobs on a live attempt, at all nonces but those already torn; only a stateless-reject void over a recorded inclusion adds one, its own |
| `Runs.OwnedButTorn` | crates/gum-engine/src/store/attempts.rs:352-382 | So ownership holds in every state of every run at every nonce that no such void tore |
| `Runs.TornHasACause` | crates/gum-engine/src/store/attempts.rs:361-382 | A nonce is torn only by a committed stateless-reject void at that very nonce, over a recorded inclusion |
| `StepsVoid.VoidKeeps` | crates/gum-engine/src/store/attempts.rs:352-416 | Undoing a binding, under either verdict, keeps the invariant: every attempt given up is impossible from then on, or recorded as escaped or missed |
| `StepsEnv.VoidFreesTheNonce` | crates/gum-engine/src/pipeline/tx.rs:491-499 | After a NonceUnused void the slot is free and the mark is below it, so the cursor may step back to it |
| `StepsBind.ClaimKeeps` | crates/gum-engine/src/store/attempts.rs:103-191 | A committed first bind keeps the invariant |
| `StepsBind.AddKeeps` | crates/gum-engine/src/store/attempts.rs:117-184 | A committed replacement or cancel keeps the invariant |
| `StepsMined.InclusionKeeps` | crates/gum-engine/src/store/attempts.rs:206-270 | Recording an inclusion (with or without immediate confirmation) keeps the invariant |
| `StepsMined.ConfirmKeeps` | crates/gum-engine/src/store/attempts.rs:444-497 | Recording a confirmation keeps the invariant |
| `StepsMined.DemoteKeeps` | crates/gum-engine/src/store/attempts.rs:307-341 | Undoing an inclusion keeps the invariant |
| `World.TablesOfRun` | crates/gum-engine/src/store/attempts.rs:85-131 | The tables of every run of the whole system are the tables of a sequence of store calls, so results over store calls apply to runs |
| `Findings.VoidIsSoundIff` | crates/gum-engine/src/pipeline/tx.rs:426-441 | Failing a job on a stateless reject leaves no payload at the nonce that could still be mined if and only if every payload the driver tracks was itself rejected and no other process holds one that was not; elsewhere nothing survives but what was missed before |
| `Findings.SingleAttemptIsSound` | crates/gum-engine/src/pipeline/tx.rs:92-95 | With one attempt tracked and no other payload stored at the nonce, both conditions hold |
| `Findings.RequeueIsSoundIff` | crates/gum-engine/src/pipeline/tx.rs:444-473 | Requeueing a job on nonce-too-low leaves no payload at the nonce that was or could be mined if and only if no stored payload of the job, tracked or not, holds the nonce |
| `Findings.OwnershipKeptIff` | crates/gum-engine/src/store/attempts.rs:361-382 | A NonceUnused void leaves every attempt in play on an owned slot, and under the mark, if and only if no inclusion was ever recorded at the nonce (given that it was not torn before) |
| `Counterexamples.RejectIsReachable` | crates/gum-engine/src/pipeline/tx.rs:417-424 | A concrete run in which a first attempt is unanswered, its fee replacement is rejected, and the nonce still counts as never accepted |
| `Counterexamples.FailedJobExecutes` | crates/gum-engine/src/pipeline/tx.rs:426-435 | A concrete whole run that ends with a failed job whose payload is on the chain |
| `Counterexamples.NonceServesTwoJobs` | crates/gum-engine/src/pipeline/tx.rs:491-499 | A concrete whole run that ends with payloads of two jobs competing for one nonce, both of which can be mined |
| `Counterexamples.MissIsReachable` | crates/gum-engine/src/pipeline/tx.rs:444-473 | A concrete whole run in which a zombie sends an attempt whose commit the leader was not told of, and the leader requeues the job although that attempt holds the nonce |
| `Counterexamples.JobExecutesTwice` | crates/gum-engine/src/pipeline/tx.rs:444-473 | That run continued until two payloads of the job are on the chain |
| `Counterexamples.ExecutedJobFails` | crates/gum-engine/src/store/jobs.rs:227-243 | That run continued until the job is failed although its payload is on the chain and did not escape a stateless reject |
| `Counterexamples.NonceIsTorn` | crates/gum-engine/src/store/attempts.rs:352-382 | A concrete whole run that ends with an included attempt on the chain whose slot is gone and whose nonce the cursor names again |
| `Counterexamples.JobIsLost` | crates/gum-engine/src/store/attempts.rs:223-230 | That run continued until a job is sent and none of its attempts is live, so that no recovery finds it |
| `Findings.TopupPaidIff` | crates/gum-engine/src/store/attempts.rs:492-495 | When a top-up is confirmed, its transfer is on the chain if and only if the confirmed attempt was not a cancel |
| `Counterexamples.CancelledTopupIsConfirmed` | crates/gum-engine/src/store/attempts.rs:260-262 | A concrete whole run that ends with a confirmed top-up, its cancel on the chain for good and its transfer not |
| `Database.Database.BindAttempt` | crates/gum-engine/src/store/attempts.rs:91-195 | The statements of the bind transaction, with every rollback, compute exactly the specified bind and answer |
| `Database.Database.SettleInclusion` | crates/gum-engine/src/store/attempts.rs:206-270 | The inclusion transaction computes exactly the specified settlement, its no-op and its refusals |
| `Database.Database.SettleConfirmation` | crates/gum-engine/src/store/attempts.rs:273-278 | The confirmation transaction computes exactly the specified confirmation |
| `Database.Database.DemoteInclusion` | crates/gum-engine/src/store/attempts.rs:307-341 | The demotion transaction computes exactly the specified demotion |
| `Database.Database.VoidBinding` | crates/gum-engine/src/store/attempts.rs:352-416 | The void transaction computes exactly the specified void, fencing included |
| `Database.Database.AcquireLease` | crates/gum-engine/src/store/lease.rs:85-88 | The new leader's token is the incremented epoch; nothing else changes |
| `Database.Database.FailQueued` | crates/gum-engine/src/store/jobs.rs:227-243 | Failing a queued job, with its event and its counter |
| `Database.Database.RequeueFront` | crates/gum-engine/src/store/jobs.rs:214-223 | A requeue counts and changes nothing else of the row |
| `Database.Database.AddGas` | crates/gum-engine/src/store/misc.rs:13-36 | The gas upsert with its zero clamps |
| `Database.Database.UpdateJob` | crates/gum-engine/src/store/outbox.rs:64-88 | A job transition appends its event with the next version and number, and counts a terminal one, in the same transaction |
| `Lifecycle.JobStep` | crates/gum-engine/src/store/attempts.rs:157-182 | Every store call, with any arguments on any tables, changes every job row exactly as the lifecycle of a job says for what the call means to it: status, outcome, hash, binding, event number and requeue count |
| `Lifecycle.TopupStep` | crates/gum-engine/src/store/attempts.rs:259-261 | The same for every top-up |
| `Lifecycle.AttemptStep` | crates/gum-engine/src/store/attempts.rs:210-232 | The same for every attempt: whoever loses to a mined sibling is replaced, bytes go with confirmation and voids, a new attempt starts unsettled with its bytes |
| `Lifecycle.OneMinedPerNonce` | crates/gum-engine/src/store/attempts.rs:222-230 | After any store calls at most one attempt at a nonce is recorded as mined |
| `Records.MinedRowTellsTheInclusion` | crates/gum-engine/src/store/attempts.rs:234-257 | After any store calls an included or confirmed job has the outcome of the last inclusion applied to a payload of it, names that transaction, and that attempt has the same verdict and that inclusion's gas and fee |
| `Records.HashIsTheLastOne` | crates/gum-engine/src/store/attempts.rs:158-173 | After any store calls the transaction a job names is the payload last bound or last recorded as mined, whichever came later |
| `Records.ChainIsTheFirstOne` | crates/gum-engine/src/store/jobs.rs:127-192 | A job stays on the chain it was added with |
| `Records.RequeuesAreCounted` | crates/gum-engine/src/store/jobs.rs:214-225 | A job's requeue count is the number of times it went back to the queue |
| `Settlement.Run` | crates/gum-engine/src/pipeline/settle.rs:44-59 | For any queue and any faults on any try (before or after COMMIT) the tables and the dead letters are those of applying each write once in order, and a flush resolves on exactly the writes before it |
| `Settlement.ApplyOnce` | crates/gum-engine/src/pipeline/settle.rs:61-107 | One write with any number of retries, including of a write that had committed, has the effect of one application |
| `Settlement.RetryIsHarmless` | crates/gum-engine/src/store/attempts.rs:206-232 | Repeating a settlement write on its own result changes nothing and is not mistaken for a refusal |
| `Settlement.LateInclusionRetryIsNoop` | crates/gum-engine/src/store/attempts.rs:208-232 | A retried inclusion stays a no-op after any other store calls, unless one of them demoted that very attempt |
| `Settlement.LateConfirmationRetryIsNoop` | crates/gum-engine/src/store/attempts.rs:444-452 | A retried confirmation stays a no-op after any other store calls |
| `GasLedger.GasIsConserved` | crates/gum-engine/src/store/misc.rs:13-36 | After any sequence of store calls every gas row is the count and the sums of gas and fee over the included and confirmed attempts of its chain, signer and purpose; so no clamp ever takes effect |
| `GasLedger.StepKeepsGas` | crates/gum-engine/src/store/attempts.rs:210-232 | One arbitrary store call keeps that equality |
| `Settlement.NothingIsSwallowed` | crates/gum-engine/src/pipeline/settle.rs:61-107 | At its turn every write is applied, or finds its attempt already past it, or is kept as a dead letter |
| `Trace.TraceIsWellFormed` | crates/gum-engine/src/store/outbox.rs:64-88 | After any store calls a job's events are numbered 1..webhook_seq, are included events closed by at most one confirmed or failed, present iff the job is terminal; confirmed directly follows an included, and the n-th included is marked reincluded iff n > 1 |
| `Trace.RollupCountsTerminalJobs` | crates/gum-engine/src/store/misc.rs:38-48 | After any store calls each rollup counter is the number of jobs of its chain and signer that are confirmed with outcome success, confirmed with outcome reverted, or failed |
| `Trace.StepKeepsBooks` | crates/gum-engine/src/store/attempts.rs:461-491 | One arbitrary store call keeps traces, versions and counters in order |
| `Delivery.ClaimDue` | crates/gum-engine/src/store/outbox.rs:97-121 | A claim takes claimable rows only, none that another dispatcher holds, at most the limit, and leaves an eligible row only when the limit is reached and nothing it took was due later |
| `Delivery.DeliveredInOrder` | crates/gum-engine/src/store/outbox.rs:90-170 | In every run with any dispatchers, expiring leases, retries, giving up and redelivery: when an event is claimed, each earlier sequence number of its job is an event that has left pending before |
| `Delivery.NonPendingHasLeft` | crates/gum-engine/src/store/outbox.rs:123-154 | A row that is not pending got there by an answer or by giving up on it |
| `Delivery.JobsDoNotBlockEachOther` | crates/gum-engine/src/store/outbox.rs:101-103 | Whether a row is claimable depends on the rows of its own job only |
| `Delivery.NextEventExists` | crates/gum-engine/src/store/outbox.rs:93-96 | A job with a pending event always has one that needs only to fall due |
| `Delivery.BooksAlwaysInOrder` | crates/gum-engine/src/store/outbox.rs:157-170 | No delivery operation disturbs what the events say, interleaved with any store calls |
| `Delivery.NotClaimedBefore` | crates/gum-engine/src/store/outbox.rs:90-103 | Over every run: a row claimed for a lease, to be retried or deferred for some time is claimed again only when that time is over, unless a retry, deferral or redelivery of it came in between |
| `Delivery.RedeliveredIsDue` | crates/gum-engine/src/store/outbox.rs:166-170 | A redelivered row is pending and due, and claimable unless an earlier event of its job is pending |
| `Delivery.SettledIsNotClaimed` | crates/gum-engine/src/store/outbox.rs:123-154 | Over every run: an event answered or given up is not claimed again until it is redelivered |
| `Delivery.StatusTellsTheLast` | crates/gum-engine/src/store/outbox.rs:123-154 | Over every run: a row is delivered if the last ruling on it was an answer, and dead if it was given up |
| `Delivery.TriesAreCounted` | crates/gum-engine/src/store/outbox.rs:123-154 | Over every run a row counts exactly the attempts to deliver it |
| `Delivery.ClockTells` | crates/gum-engine/src/store/outbox.rs:99-103 | No step but the passing of time moves the clock that leases are measured by |
| `Fees.BumpIsLeastTenPercent` | crates/gum-engine/src/chain/adapter.rs:210-214 | Short of saturation the bump is the least fee that is 10% higher and higher at all |
| `Fees.BumpRises` | crates/gum-engine/src/chain/adapter.rs:210-214 | Under saturation the bump still rises strictly, exactly until the 128-bit limit |
| `Fees.ReplacementIsAccepted` | crates/gum-engine/src/chain/kinds/geth.rs:66-81 | From a quote with tip <= max fee every replacement is accepted by the pool's own rule, keeps tip <= max fee, is within the cap and rises (geth and monad) |
| `Fees.NoReplacementMeansNoneExists` | crates/gum-engine/src/chain/kinds/monad.rs:83-91 | A replacement is refused only if no quote within the cap would be accepted |
| `Fees.FreshQuoteIsSane` | crates/gum-engine/src/chain/adapter.rs:152-156 | A fresh quote has tip <= max fee, and is within the cap iff the configured tip is |
| `Fees.FreshQuoteFollowsBaseFee` | crates/gum-engine/src/chain/adapter.rs:152-156 | A fresh quote pays the base fee times the multiplier, rounded down, plus the configured tip, unless that breaks the cap; then it is the cap, but never less than the tip |
| `Fees.FreshQuoteCoversBaseFee` | crates/gum-engine/src/chain/adapter.rs:152-156 | With a multiplier of at least one it pays the base fee it was made for and its full tip, unless the cap is in the way |
| `Fees.ReplacementIsLeast` | crates/gum-engine/src/chain/kinds/geth.rs:66-77 | A replacement has the least tip the pool takes, and the least max fee that the pool takes and that covers the scaled base fee plus that tip; if that breaks the cap, the cap |
| `Fees.LaterOutbidsEarlier` | crates/gum-engine/src/chain/kinds/geth.rs:79-81 | In a chain of replacements against any base fees each quote is acceptable over every earlier one |
| `Fees.GethChainGrows` | crates/gum-engine/src/chain/kinds/geth.rs:67-77 | After n geth replacements the max fee has grown by at least 1.1^n and is still within the cap |
| `Fees.CancelAlwaysFitsIff` | crates/gum-engine/src/config.rs:274-276 | Every quote within the job cap can be outbid by a cancel iff the cancel cap is at least bump_pct(max_fee_cap, 10) (geth), or above the job cap (monad) |
| `Fees.ReachableQuoteCanBeCancelled` | crates/gum-engine/src/pipeline/tx.rs:671-680 | Under that configuration every quote reachable from a fresh one by replacements has an acceptable cancel within the cancel cap |
| `Costs.SpentIsWithinWorstCase` | crates/gum-engine/src/chain/kinds/geth.rs:83-131 | With price <= max fee and gas used <= limit, the debit of a mined attempt is at most its worst case under saturating 256-bit arithmetic, for gas-used and for gas-limit (monad) charging |
| `Costs.SpentIsExact` | crates/gum-engine/src/chain/kinds/monad.rs:60-69 | Short of saturation a mined attempt costs its price times the gas used (Monad: the gas limit), plus its value iff it succeeded |
| `Costs.WorstCaseIsReached` | crates/gum-engine/src/chain/kinds/geth.rs:83-131 | The worst case is attained, so no smaller reservation would do |
| `Costs.SpendableCoversIff` | crates/gum-engine/src/chain/kinds/monad.rs:71-77 | A balance is enough exactly if it also covers Monad's ten-token reserve where value is moved |
| `Balance.AcceptedReadIsFresh` | crates/gum-engine/src/funds/ledger.rs:136-149 | In any interleaving of ledger calls an accepted read lies at or above the block of every settlement, credit and reset ever applied, and nothing was settled, credited, reversed or reset between its ticket and its use |
| `Balance.QuietTicketIsAccepted` | crates/gum-engine/src/funds/ledger.rs:132-142 | Conversely a ticket stays valid as long as none of those happened |
| `Balance.AsOfBlockWasReported` | crates/gum-engine/src/funds/ledger.rs:30-31 | The ledger's block is always one that some call reported |
| `Balance.ReadBecomesTotalIff` | crates/gum-engine/src/funds/ledger.rs:143-148 | An accepted read makes confirmed + maturing equal to it iff it is at least the maturing sum |
| `Balance.ResetBecomesTotalIff` | crates/gum-engine/src/funds/ledger.rs:58-65 | Initialise makes confirmed + maturing equal to the balance iff nothing is maturing |
| `Balance.MatureKeepsTotalIff` | crates/gum-engine/src/funds/ledger.rs:111-125 | Maturing keeps confirmed + maturing iff the 256-bit ceiling is not hit |
| `Balance.MaturingSplits` | crates/gum-engine/src/funds/ledger.rs:116-123 | Maturing takes out every due credit, keeps every other, and neither loses nor repeats one |
| `Balance.TotalFollowsReports` | crates/gum-engine/src/funds/ledger.rs:80-125 | Between balance reads the total moves by exactly the reported debits, reversals and credits, in any order of calls, as long as no clamp takes effect |
| `Balance.UnsettleUndoesSettleIff` | crates/gum-engine/src/funds/ledger.rs:89-95 | Unsettle with the old reservation restores the books iff the debit was not clamped |
| `Balance.ReservationIsTheDearest` | crates/gum-engine/src/funds/ledger.rs:67-73 | Reserving any list of attempts at a nonce leaves the greatest of them and of what was there |
| `Balance.UndoingOverwrites` | crates/gum-engine/src/funds/ledger.rs:90-96 | When a settlement of a driven nonce is undone and no reservation of it follows, what is reserved is exactly what the undoing put there |
| `Balance.OwnCallsOnlyRaise` | crates/gum-engine/src/funds/ledger.rs:67-73 | A driver's reservations raise the reservation of its nonce, never beyond the dearest attempt, whatever other tasks do to the ledger in between |
| `Balance.CreditIsSpendableIff` | crates/gum-engine/src/funds/ledger.rs:97-126 | A credit counts as spendable at once without a maturity, and otherwise exactly from its time on |
| `Balance.ReservedAfter` | crates/gum-engine/src/funds/ledger.rs:67-95 | A call touches only its own nonce's reservation; a settled or released nonce has none |
| `Balance.InitialisedIff` | crates/gum-engine/src/funds/ledger.rs:59-66 | The balance counts as known exactly from the first reset or accepted read on |
| `Ledgers.Ledger.Mature` | crates/gum-engine/src/funds/ledger.rs:111-125 | The retain loop moves exactly the due credits |
| `Ledgers.Ledger.Maturing` | crates/gum-engine/src/funds/ledger.rs:127-130 | The fold is the sum of the maturing credits, capped at 256 bits |
| `Ledgers.Ledger.Reconcile` | crates/gum-engine/src/funds/ledger.rs:138-149 | Applied iff the ticket is current and the block not older; otherwise nothing changes |
| `Ledgers.Ledger.Settle` | crates/gum-engine/src/funds/ledger.rs:81-87 | The reservation goes, the balance is debited, the block and the epoch advance |
| `Ledgers.Ledger.Unsettle` | crates/gum-engine/src/funds/ledger.rs:90-95 | The debit is given back and the reservation restored |
| `Ledgers.Ledger.Credit` | crates/gum-engine/src/funds/ledger.rs:100-109 | A credit is spendable at once or set to mature |
| `Ledgers.Ledger.Reserve` | crates/gum-engine/src/funds/ledger.rs:69-73 | A reservation only ever rises |
| `Ledgers.Ledger.Initialise` | crates/gum-engine/src/funds/ledger.rs:59-65 | The balance is set, and running reads are invalidated |
| `Ledgers.Ledger.Release` | crates/gum-engine/src/funds/ledger.rs:75-78 | The reservation goes and nothing else changes |
| `Driver.InFlight.Resolve` | crates/gum-engine/src/pipeline/tx.rs:263-365 | For every sequence of node, signer and store answers and of other tasks' ledger calls (which may undo an earlier settlement of this nonce but not otherwise touch its reservation): the first turn broadcasts, and each turn that follows a request to resend; the others look for receipts and take a step down the ladder exactly when none is there, the chain is healthy, the nonce is stuck and the ladder's end was not reached before; as many sends as such turns; the outcome is that of the last turn. At most max(1, max_bumps) replacements plus one cancel per Noop still ahead are added; signatures are the additions plus the failed binds, so within that bound iff the failed binds fit; every payload added has the purpose, value and gas limit of the oldest payload at the start, every cancel moves nothing; all attempts share the nonce and added ones are for the oldest attempt's owner; fees climb; the log is lawful; the debit of a mined attempt is within the reservation of the books it is made against, unless a settlement of the nonce was undone after the last reservation; only a nonce this process bound itself can end voided |
| `Driver.InFlight.Execute` | crates/gum-engine/src/pipeline/tx.rs:133-148 | A freshly bound nonce starts with its worst case reserved and no acknowledgement |
| `Driver.InFlight.Resume` | crates/gum-engine/src/pipeline/tx.rs:153-180 | A nonce taken over from the store, whoever owns its live attempts, is driven for the oldest one's owner and reserved for its dearest attempt; with a cancel present it is at the end of its ladder |
| `Driver.InFlight.OnReceipt` | crates/gum-engine/src/pipeline/tx.rs:367-384 | A usable receipt of a tracked attempt changes the books by exactly its settlement, and an honest one debits at most what those books had reserved for the nonce, unless an undone settlement had overwritten that; any other receipt changes nothing |
| `Driver.InFlight.OnSendError` | crates/gum-engine/src/pipeline/tx.rs:406-442 | Every class of error leads where it should: acknowledged or unclear means polling, a busy pool or missing funds a resend (the ledger first brought in line with the chain), too low a fee the replacement of the original, too high a nonce recovery, too low a nonce the late look, a stateless reject a failing void iff the nonce was never acknowledged and the chain's rejects are trusted; only an acknowledgement clears never-accepted |
| `Driver.InFlight.OnNonceTooLow` | crates/gum-engine/src/pipeline/tx.rs:444-489 | The first usable receipt of a tracked attempt decides; without one a nonce never accepted is voided for requeueing if that commits, and an accepted one is left to an operator |
| `Driver.InFlight.Void` | crates/gum-engine/src/pipeline/tx.rs:491-511 | A void is tried only with the evidence for its verdict; a failed one keeps the nonce in flight and reserved, a committed one releases exactly its reservation |
| `Driver.InFlight.ReplaceWithFreshFees` | crates/gum-engine/src/pipeline/tx.rs:514-571 | A replacement is signed iff bumps, base fee, quote, original and signer allow it, and tracked iff its bind committed; it is then the flight's slot and owner with the purpose, value and gas limit of the oldest payload, at the quoted fees |
| `Driver.InFlight.Commit` | crates/gum-engine/src/pipeline/tx.rs:543-570 | An attempt is tracked, reserved for and sent only after its bind committed |
| `Driver.InFlight.Escalate` | crates/gum-engine/src/pipeline/tx.rs:601-667 | Each rung leads where it should and adds what it should: a broadcast, a diagnosis, a replacement while underpriced with bumps left, a cancel; the ladder moves on by one unless its end is reached, the chain could not be asked, or it stays to bump again; it never voids, its end asks for an operator |
| `Driver.InFlight.DiagnoseNonce` | crates/gum-engine/src/pipeline/tx.rs:629-649 | A chain nonce below asks for recovery, one above for the late look, an equal one for funds iff the balance does not cover the reservation; it adds no attempt and voids nothing, and counts only if the chain could be asked |
| `Driver.InFlight.CancelNonce` | crates/gum-engine/src/pipeline/tx.rs:671-709 | A cancel is signed iff quote, gas and signer allow it and tracked iff its bind committed: zero value, no payload, within the cancel cap; every earlier attempt stays tracked and the step is spent |
| `Driver.InFlight.Broadcast` | crates/gum-engine/src/pipeline/tx.rs:275-304 | A broadcast sends the newest attempt; what was not delivered is sent again, an acknowledgement ends never-accepted, a receipt at once counts if usable |
| `Driver.InFlight.LookForReceipt` | crates/gum-engine/src/pipeline/tx.rs:311-326 | The first receipt of a tracked attempt that names its block is settled; without one nothing changes |
| `Driver.InFlight.UnderpricedCutsTheTip` | crates/gum-engine/src/pipeline/tx.rs:650-657 | A bump is due exactly when the sender would no longer pay the full tip |
| `Driver.InFlight.UnderfundedIff` | crates/gum-engine/src/pipeline/tx.rs:643-647 | Funds are asked for exactly when the balance does not cover the reservation and what the chain holds back |
| `Driver.OriginalIsOldest` | crates/gum-engine/src/pipeline/tx.rs:533-534 | The original is the oldest attempt that is not a cancel |
| `Driver.FirstMinedIsFirst` | crates/gum-engine/src/pipeline/tx.rs:448-457 | The receipt that decides is the first usable one |
| `Driver.DearestIsReached` | crates/gum-engine/src/pipeline/tx.rs:158-162 | What is reserved is the cost of one of the attempts |
| `Driver.QuoteIsWithinCapIff` | crates/gum-engine/src/pipeline/tx.rs:523-528 | A pool replacement stays within the job cap and is missing only if no acceptable quote would |
| `Driver.FreshAttemptIff` | crates/gum-engine/src/pipeline/tx.rs:525-528 | Without a pool a new attempt is made exactly when a fresh quote is dearer, at that quote |
| `Driver.LadderShape` | crates/gum-engine/src/chain/kinds/monad.rs:128-130 | Monad looks before it resends, the others after; bump and cancel come last and only where replacement exists |
| `DriveLog.SentWasCommitted` | crates/gum-engine/src/pipeline/tx.rs:543-570 | In a lawful log every broadcast attempt was committed earlier |
| `Driver.LaterIsDearer` | crates/gum-engine/src/pipeline/tx.rs:520-528 | Along the attempts a run adds the max fee strictly rises (until the 128-bit limit) |
| `DriveLog.DriverStepIsWorldStep` | crates/gum-engine/src/pipeline/tx.rs:263-365 | Every event a lawful log may continue with is an enabled step of the protocol model, voids included, given that rejects and consumed nonces are what H2 and H3 say; the driver's picture of its flight stays true |
| `DriveLog.DriveIsWorldRun` | crates/gum-engine/src/pipeline/tx.rs:263-511 | The same for a whole lawful log, with any steps of anybody else between one event and the next |
| `DriveLog.OthersInterfereLittle` | crates/gum-engine/src/pipeline/tx.rs:97-100 | No step but the driver's own changes its flight, takes back a reject or moves a final nonce |
| `Driver.SignaturesAreUnbounded` | crates/gum-engine/src/pipeline/tx.rs:543-556 | Signatures, unlike tracked attempts, are not bounded: while binds fail the bump step signs a new replacement every turn, for any number of turns |
| `Driver.DebitBeyondReservation` | crates/gum-engine/src/chain/confirm.rs:206-210 | The bound on the debit fails for a resumed nonce whose earlier inclusion the confirmer undoes with the zero reservation recovery gave it: an honest receipt debits more than is reserved |
| `Driver.SignatureFlood` | crates/gum-engine/src/pipeline/tx.rs:650-657 | From a fresh execute on geth rules, down two rungs of the ladder: a flight with one attempt and any number of signatures |
| `Binding.Bind` | crates/gum-engine/src/pipeline/tx.rs:225-249 | Over six tries with failures before, during or after COMMIT and any store calls by others in between: the first answer decides, be it the store's or that the attempt is there; Ok means the attempt is stored, it is stored at most once, and without Ok it can be there only after a lost answer |
| `Recovery.Recover` | crates/gum-engine/src/pipeline/recovery.rs:55-169 | Live nonces are handled lowest first, none skipped, each left behind only in the way its answers call for; a halt is at the lowest nonce not left behind, for the reason its answers give; otherwise the next nonce is set from mark and chain, and the pair is reconciled iff that and the balance read succeeded |
| `Recovery.Handle` | crates/gum-engine/src/pipeline/recovery.rs:62-139 | For every answer exactly one ending: watched iff an inclusion is recorded and still mined; try again iff it could not be checked or not undone; otherwise all attempts with bytes are driven, oldest first, and the driver's ending decides whether recovery goes on, stops or asks for an operator; stopped iff asked to |
| `Recovery.GroupsSplit` | crates/gum-engine/src/pipeline/recovery.rs:55-58 | Grouping by nonce keeps the order of the store, oldest first |
| `Recovery.BytesSplit` | crates/gum-engine/src/pipeline/recovery.rs:109-112 | Keeping the attempts with bytes keeps that order |
| `Recovery.NextNonce` | crates/gum-engine/src/pipeline/recovery.rs:153-168 | The least nonce above the mark and, where it is asked, not below the chain; unknown only if the chain had to be asked and did not answer |
| `Confirmation.Check` | crates/gum-engine/src/chain/confirm.rs:123-159 | Confirmed iff a block within the rule's reach, shown by the node, holds the transaction (under the recorded hash unless membership decides); undecided iff the recorded height cannot be looked at or the tag has not reached it |
| `Confirmation.FinalizedBlockDecides` | crates/gum-engine/src/chain/confirm.rs:147-158 | The block behind the finalized tag decides about its own height without another fetch |
| `Confirmation.FateIs` | crates/gum-engine/src/chain/confirm.rs:91-105 | An item passes iff verified; is undone iff missed a second time, its pair known, its receipt gone and the store did not fail; is let go iff missed a second time without a pair; else it is kept, with its misses counted or reset and its block followed |
| `Confirmation.UndoneAfterTwoMisses` | crates/gum-engine/src/chain/confirm.rs:97-105 | An inclusion is undone only after two looks missed it, with no receipt found in between, and a receipt lookup that finds nothing |
| `Confirmation.Tick` | crates/gum-engine/src/chain/confirm.rs:71-108 | Every pending item meets exactly the fate its own look decides if it is due, and nothing is decided while the chain is down |
| `Confirmation.EachMeetsItsFate` | crates/gum-engine/src/chain/confirm.rs:71-75 | An item that is not due is left as it is, every other one meets what its look decides |
| `Confirmation.NothingIsDropped` | crates/gum-engine/src/chain/confirm.rs:71-108 | A tick neither loses nor duplicates a watched transaction |
| `Limiter.RateBound` | crates/gum-engine/src/rpc/limiter.rs:94-183 | Between any two rounds, under any arrivals and penalties, grants are at most max(rate/5, 1) + rate * elapsed |
| `Limiter.DrainSpendsTokens` | crates/gum-engine/src/rpc/limiter.rs:138-160 | A round spends one token per grant, keeps all bounds, and ends only with under one token or empty queues |
| `Limiter.SendsYieldToCredit` | crates/gum-engine/src/rpc/limiter.rs:140-148 | A send is granted only when no lower lane has both a waiter and a full credit; credited reads go before credited background work, and uncredited work only when nobody above waits |
| `Limiter.BackgroundIsNotStarved` | crates/gum-engine/src/rpc/limiter.rs:140-155 | Credited background work is passed over at most floor(read credit) times in a round |
| `Limiter.PenaltyCutsTheRound` | crates/gum-engine/src/rpc/limiter.rs:124-133 | A throttled round halves the factor (floor a quarter) and grants at most one request more than that rate yields |
| `Limiter.CreditReturns` | crates/gum-engine/src/rpc/limiter.rs:134-136 | However often the provider throttles, a lane earns at least a quarter of its reserved credit, up to its ceiling |
| `Limiter.LanesAreFifo` | crates/gum-engine/src/rpc/limiter.rs:149-159 | Within a lane grants go to live callers in arrival order, once each, and nobody is lost |
| `Limiter.RateFloor` | crates/gum-engine/src/rpc/limiter.rs:124-160 | However often it is throttled, over rounds that leave callers waiting and are shorter than the burst a limiter grants at least a quarter of the rate |
| `Limiter.RateRecovers` | crates/gum-engine/src/rpc/limiter.rs:129-131 | Without new throttling the factor rises by a twentieth per second and is whole after fifteen seconds |
| `Limiter.SendsAreDelayedLittle` | crates/gum-engine/src/rpc/limiter.rs:138-155 | A waiting send is passed over in a round at most once per whole credit of the lower lanes |
| `Limiter.ServedInOrder` | crates/gum-engine/src/rpc/limiter.rs:101-160 | Over any rounds a lane's callers are granted in the order they arrived in, once each, and none is forgotten |
| `Limiter.Dispatcher.Round` | crates/gum-engine/src/rpc/limiter.rs:101-160 | The imperative round computes exactly the specified one |
| `Limiter.Dispatcher.GrantAll` | crates/gum-engine/src/rpc/limiter.rs:138-160 | The grant loop computes exactly the specified grants |
| `Queues.JobQueue.Admit` | crates/gum-engine/src/queue.rs:44-59 | A known job is a duplicate, a full window defers, otherwise the job joins the back and a wake-up is due |
| `Queues.JobQueue.TryPop` | crates/gum-engine/src/queue.rs:82-91 | The front job is taken, and a further wake-up is due iff more are waiting |
| `Queues.JobQueue.PushFront` | crates/gum-engine/src/queue.rs:61-68 | The job is in front and known |
| `Queues.JobQueue.Forget` | crates/gum-engine/src/queue.rs:93-96 | The job is no longer known, and the deque is as it was |
| `Queues.JobQueue.Remove` | crates/gum-engine/src/queue.rs:125-135 | Exactly the copies of the job go; it is forgotten iff it was waiting here |
| `QueueWorkers.NoLostWakeup` | crates/gum-engine/src/queue.rs:70-91 | In every reachable state with a job waiting and a worker parked, a notification is about to be made or a worker is woken or about to look |
| `QueueWorkers.NoDuplicates` | crates/gum-engine/src/queue.rs:44-96 | In every reachable state no job is in two places (deque, a worker's hands, awaiting confirmation), and every job in one of them is known |
| `QueueWorkers.FirstComeFirstServed` | crates/gum-engine/src/queue.rs:44-91 | Over every run with any workers: of two jobs the one admitted earlier is taken earlier, unless it was removed |
| `QueueWorkers.PutBackIsNext` | crates/gum-engine/src/queue.rs:61-68 | Over every run a job put back is the next one taken, unless it is removed or another is put back |
| `QueueWorkers.KnownIsSomewhere` | crates/gum-engine/src/queue.rs:93-96 | In every reachable state a known job is in the deque, in a worker's hands or awaiting confirmation |
| `QueueWorkers.OfferIsAnswered` | crates/gum-engine/src/queue.rs:44-59 | In every reachable state an offer is a duplicate iff the job is in one of those places, and deferred and counted iff it is not and the window is full |
| `Ingest.InsertJobs` | crates/gum-engine/src/store/jobs.rs:127-192 | For every batch, repeats of a key included, rows and outcomes equal those of inserting one by one, and the corrupt case cannot occur |
| `Ingest.InsertBatch` | crates/gum-engine/src/store/jobs.rs:154-175 | The one-statement insert returns the ids of exactly those jobs whose key was free at their turn |
| `Ingest.KeysStayUnique` | crates/gum-engine/src/store/jobs.rs:159-160 | However often a key is offered, it owns one row |
| `Ingest.ReplayIsForever` | crates/gum-engine/src/store/jobs.rs:182-189 | After any later batches the same request gets the original id, and another request with its key a conflict |
| `Credits.Meter.Record` | crates/gum-engine/src/rpc/credits.rs:62-91 | After a success at minute m, with any gaps between calls, the ring's sum is the credits of all successes in minutes m-59..m of the whole history |
| `Credits.SlotsAddUp` | crates/gum-engine/src/rpc/credits.rs:104-106 | The ring positions add up to the last hour of the history, no call counted twice or dropped |
| `Credits.SlotMoves` | crates/gum-engine/src/rpc/credits.rs:73-81 | Moving on in time empties exactly the positions passed and leaves the others as they are |

## Left out

- HTTP API, configuration loading, telemetry, metrics, statistics counters: plumbing without a hard invariant.
- RPC client, signers, transaction encoding, `decode_target`: foreign code; their answers are inputs of the model.
- Error-string classification: the class of a send error is an input, chosen freely by the environment.
- OP Stack L1 and operator fees: the per-byte estimate is learned, so no worst case follows from the code; its fee rules are geth's.
- Treasury policy, top-up sizing, chain monitor, balance-sweep timing, webhook host breaker: timing and single decisions; top-ups appear as owners of nonces.
- Clocks and sleeps: time is a parameter where it decides something and absent elsewhere; no progress within a time bound is claimed.
- Block numbers, block hashes and `update_inclusion_block` in the protocol model: a chain entry is the transaction itself; `Confirmation` has blocks.
- Error codes, messages, URLs, payload JSON, requeue ranks and timestamps of the rows: no result depends on them.
- Lease polling and the heartbeat's miss counter: only the epoch bump is modelled; any process may turn zombie at any time.
- 64-bit wrap-around of counters, epochs, gas and credit sums: unbounded here; fees and amounts do saturate at 128 and 256 bits.
- The `reincluded` argument of a settlement is false in the protocol model, as the driver passes it; `Settlement` keeps it free.
- The credit meter's daily counter, monthly projection and per-method counts: simple sums.
- The queue's overflow reset by the sweep: an assignment.
- The ledger's `view` and its total of reservations: a plain fold.
- Limiter.RateBound: floats are modelled as reals, so rounding is not covered.
- Recovery.Recover: what driving one nonce does to store and ledger is `Driver`'s and `World`'s matter; here it is an answer.
- Ingest.InsertJobs: assumes fresh distinct ids, array-order insertion and no store failure.
- Safety.AtMostOnce: leaves out what a foreign void missed, for which it is false (`Counterexamples.JobExecutesTwice`).
- Safety.FailedNeverExecutes: leaves out what a void gave up alive, for which it is false.
- Safety.NonceServesOneJob: leaves out what escaped a stateless-reject void, for which it is false (`Counterexamples.NonceServesTwoJobs`).
- Safety.NoJobIsLost: leaves out jobs bound at a torn nonce, for which it is false (`Counterexamples.JobIsLost`).
- Safety.OneOwnerPerNonce: leaves out torn nonces, for which it is false (`Counterexamples.NonceIsTorn`).
- Driver.InFlight.Resolve: the debit is within the reservation unless an undone settlement of the nonce overwrote it, for which it is false (`Driver.DebitBeyondReservation`).
- Confirmation.Tick: the order in which pending items are looked at again is not kept; no result depends on it.
