# PicoFlow: verification of the settlement path and its arithmetic

PicoFlow sells API calls for fractions of a cent. A buyer answers HTTP status 402 (RFC 9110, section 15.5.3)
with a signed EIP-3009 authorization; the *tollbooth* verifies it and writes action, payment, settlement, outbox
and split rows; a *gateway worker* relays the authorization to the chain, waits for the receipt and promotes the
settlement. This project models that pipeline and the parts around it, and proves what they guarantee.

`dafny verify dfyconfig.toml` checks everything.

## What is modelled

| file | what it models |
|---|---|
| `Prelude.dfy`, `Decimal.dfy` | options, sums over sets and under injections; decimal digits, values, padding |
| `Prices.dfy` | the decimal price parsers and printers: facilitator, second copy, quote engine, wallet UI, rehearsal script |
| `Splits.dfy` | `computeSplits` as a loop, its dust, and the tollbooth's split rows |
| `BondVault.dfy` | the bond contract and its token as two objects, and runs of transactions |
| `Handshake.dfy` | challenges, signing, `verifyPayment`, under ideal signatures |
| `Ledger.dfy` | the tables with their keys, each SQL statement as a function on them, and the `Ledger` object proved against those functions |
| `Pipeline.dfy` | handlers, workers, ledger, chains, crashes, lost and ambiguous calls, refund marks, as one step function `Apply` |
| `PipelineInvariants.dfy`, `PipelineSteps.dfy`, `PipelineRequests.dfy` | the invariant `Inv`, the growth relation `Grows`, and the proof that every step keeps both |
| `PipelineEffects.dfy` | what each ledger call of a worker writes, read off the rows |
| `PipelineTheorems.dfy`, `PipelineRecords.dfy`, `PipelineSolo.dfy` | what follows for every run, for a request whose writes went through, and for the one-worker deployment |
| `PipelineDrain.dfy`, `PipelineProgress.dfy` | a worker nothing fails while requests go on arriving, and when such ticks exist |
| `PipelineChain.dfy` | what the token's own authorization state and time window decide about a payment |
| `PipelineNonces.dfy` | when one signature is recorded twice, and whose transfer a used nonce then stands for |
| `PipelineRuns.dfy`, `PipelineReclaim.dfy` | runs that record requests; when a claimed row is claimed again; runs from concrete empty tables to the states the other files speak of |
| `PipelineStarvation.dfy` | which rows can still be finished, and what becomes of the queue behind those that cannot |
| `Surroundings.dfy`, `Gateway.dfy`, `Tollbooth.dfy`, `Wallet.dfy` | the worker's `tick`, the request handler and the wallet's `paidCall` as imperative code, proved to be runs of `Pipeline` |
| `WorkerLoop.dfy` | `start`, `stop`, the polling timer, `busy` and the idle notice under every order of events |
| `QuotePolicy.dfy`, `Quotes.dfy` | the negotiation policy, and the quote store with its collector |
| `RateLimit.dfy`, `Quota.dfy`, `Stream.dfy` | the fixed-window limiter, the cached monthly quota, the streaming tick meter |

### How the pipeline is modelled

Every `await` of the program is a step boundary. An awaited call either returns, throws without effect (`Lost`),
or takes effect and throws all the same (`Ambiguous`); a process may crash at any step boundary; an operator may mark
any settlement refunded at any time; outsiders may send any transaction, including a copy of a relayed authorization.
The chain executes a token transfer only if its payer signed exactly that call for that chain, at most once per token,
authorizer and nonce, and only strictly inside its time window (EIP-3009). What is proved about safety holds for any
block times; what is proved about time windows and progress assumes no block is stamped before the clock (`OnTime`).
A chain has any set of token contracts, and a call to anything else is not a token transfer.
Addresses and nonces are compared as bytes on the chain and as text in the ledger, as in the program.

The imperative classes take an *oracle*: what the other parties do before the k-th await, and how the call ends.
Nothing is assumed of it except that nobody else moves this worker's (or request's) own program counter or ends its
tick; timers, operators and callers may start, stop and call the same worker object at every await. Their
contracts say that the world they leave behind is a run of `Pipeline` from where the history began, so every theorem
about runs holds at each point of the code. They also say which run: the oracle alone determines the events of a tick
(`Gateway.Along`) and the writes of a request (`Tollbooth.Written`), so a body that skips, adds or reorders a call does
not meet them.

### Where the code and its comments differ (the code is what is modelled)

- `claimGatewayOutbox` is commented as keeping a second worker from grabbing a row. It filters on `done_at` only, and
  row locks end at COMMIT. A row another worker holds is handed out again if and only if it is undone, unlocked at that
  moment and among the first `batch` such rows (`PipelineReclaim.HeldRowIsReclaimedExactly`); two workers of one batch
  size that claim in turn take the same rows (`PipelineReclaim.SameRowsTwice`), and a run from empty tables gets there
  (`PipelineReclaim.StartReachesAll`). Revenue is still never over-reported (`PipelineTheorems.RevenueIsBacked`).
- "After 5 attempts, hard-fail the settlement so it stops re-trying": the row stays claimable
  (`PipelineTheorems.UndoneStaysClaimable`), and a failed settlement is left exactly by a promotion that takes effect
  (`PipelineSolo.FailedIsLeftExactly`), which a reachable failed row can be about to get
  (`PipelineReclaim.FailedRowIsReopened`).
- Failed does not mean unpaid. The operator's refund mark fails paid rows (`PipelineSolo.FailedMayBePaid`), and so does
  the program itself when a promotion, or marking a row done, throws on the fifth attempt
  (`PipelineSolo.ThrowingPromotionFailsPaid`, `PipelineSolo.ThrowingFinish`, `PipelineReclaim.FifthAttemptFailsPaid`).
  What decides is the token's authorization state. An unused nonce means the row is unpaid
  (`PipelineChain.NonceDecidesPayment`), and once the window has closed unpaid for good
  (`PipelineChain.UnusedAfterWindowStaysUnpaid`). A used one means a transfer was made for this row and no other exactly
  when no other outbox row asks for the same call, if the buyer signed one authorization under it
  (`PipelineNonces.RowIsPaidExactly`).
- A nonce is meant to be accepted once. `isNonceFresh` and `uq_payments_nonce` compare its text, the signature covers its
  bytes, so one signature is recorded, and served, once per spelling: in every run payments on one signature have nonces
  equal up to case, and are one payment exactly if the spellings are equal (`PipelineNonces.SignatureFixesNonce`). A nonce
  has a second spelling exactly when it holds a hexadecimal letter (`PipelineNonces.SecondSpellingExactly`), and any such
  payment is recorded twice by a run from empty tables (`PipelineNonces.RespelledIsRecordedTwice`), though its transfer is
  made at most once (`PipelineNonces.RespelledRowsShareTransfer`). A signature buys one payment while recorded nonces stay
  distinct up to case, as they do if only lower-case ones are recorded (`PipelineNonces.FoldedNoncesPayOnce`); an insert
  keeps them so exactly when no recorded nonce equals the new one up to case (`PipelineNonces.AdmittingKeepsFoldExactly`).
- `SKIP LOCKED` is commented as "safe horizontal scale", and a failed job is given back to be retried. No row is lost, but
  a token row can still be finished exactly when some block could execute its call or a worker is at it with a transaction
  that succeeded (`PipelineStarvation.RowCanFinishExactly`). A worker that lets go between receipt and promotion strands
  a paid row (`PipelineStarvation.PaidRowIsStranded`), and rows that cannot be finished starve all later ones once they
  fill the batches (`PipelineStarvation.StuckRowsStarveTheRest`). Both are reached from one concrete start
  (`PipelineStarvation.SoloStartReachesBoth`).
- `verifyPayment` accepts a payment in the last second of its window, where the token's strict bound refuses it: an
  accepted honest payment, its nonce unused, can still execute if and only if a second is left
  (`PipelineChain.LastSecondIsTooLate`).
- "Accept if within 10%" accepts every proposal strictly closer than 11% (`QuotePolicy.TenPercentMeansUnderEleven`,
  `QuotePolicy.AcceptsMoreThanTenPercent`).
- The quota cache is meant never to let an organisation past its limit. It does when some of its requests carry no
  limit (`Quota.UnmeteredActionSlipsThrough`); the exact condition is
  `Quota.NeverUndercountsExactly`.
- The stream meter stops "until cap exhausted"; with a cap that is a multiple of 100 one more tick can go out
  (`Stream.SlowWriteSendsOneMore`).
- Splits configured as an empty list pass the challenge but make the paid response throw, after the payment was
  recorded (`Tollbooth.Tollbooth.Handle`).
- `start` after `stop` during a tick leaves two polling loops (`WorkerLoop.TwoLoopsCanLive`). One loop polls throughout
  if and only if no start takes effect while a stopped loop's tick is still running (`WorkerLoop.OneLoopExactly`).

## Model

| member | source | states |
|---|---|---|
| `PipelineTheorems.RevenueIsBacked` | apps/seller-agents/src/gateway-worker.ts:188-258 | in every reachable state, with any handlers, workers, failures and refund marks, the settled amounts on a chain sum to at most what its tokens really moved, by an injection into successful transfers of equal value |
| `PipelineTheorems.FleetRevenueIsBacked` | apps/seller-agents/src/gateway-worker.ts:188-258 | with the whole fleet on one chain the same holds of every settled token payment, wherever its transaction went |
| `PipelineTheorems.SettledIsPaid` | packages/nanometer-core/src/ledger.ts:647-666 | a settled row names a successful transaction that calls the token with exactly the recorded buyer, seller, price, window and nonce |
| `PipelineTheorems.HashesAreDistinct` | packages/nanometer-core/src/ledger.ts:342-349 | two settlements never name the same transaction |
| `PipelineTheorems.OneSettlementPerAuthorization` | packages/nanometer-core/src/ledger.ts:59 | two settlements confirmed on one chain never spend the same authorization, even when their nonces are spelled differently |
| `PipelineTheorems.OneRowPerNonce` | packages/tollbooth/src/index.ts:101-189 | under any interleaving of requests, with the SELECT and the INSERTs apart and any of them failing, a nonce has at most one payment, settlement and outbox row, and an outbox row agrees with its settlement, payment and action on ids, nonce, parties and price |
| `PipelineTheorems.PaymentsWereSigned` | packages/x402-facilitator/src/verify.ts:57-97 | in every run, every recorded payment was signed by the recorded buyer over exactly its payee, price, window, nonce and token domain |
| `PipelineTheorems.SplitRowsSumToPrice` | packages/tollbooth/src/index.ts:175-185 | in every run an action has either no split rows or rows that sum to its price |
| `PipelineTheorems.StatusMachine` | packages/nanometer-core/src/ledger.ts:342-349 | between any two moments of a run: never back to pending, submitted only from pending or submitted, each timestamp written once, submitted no later than confirmed, and settled always names a successful transaction |
| `PipelineTheorems.DoneIsFinal` | packages/nanometer-core/src/ledger.ts:633-638 | a done row never becomes claimable again; at every later moment it stands on a logged successful transaction of its own, and its settlement was promoted and names a successful transaction of its own |
| `PipelineTheorems.UndoneStaysClaimable` | packages/nanometer-core/src/ledger.ts:640-645 | no crash or exception loses a row: it stays claimable until it is closed on those same grounds |
| `PipelineTheorems.DoneHashIsFinal` | apps/seller-agents/src/gateway-worker.ts:227-247 | with any number of workers, for a token payment on the fleet's chain, a done row's settlement names, then and ever after, that row's one successful, logged transaction |
| `PipelineTheorems.AttemptsCountClaims` | packages/nanometer-core/src/ledger.ts:602-606 | over any run `attempts` is the number of times the row was claimed |
| `PipelineTheorems.HardFailNeedsFiveClaims` | apps/seller-agents/src/gateway-worker.ts:252-258 | a worker is about to fail a settlement only after at least five claims of its row |
| `PipelineRecords.LastWriteRecordsAll` | packages/tollbooth/src/index.ts:127-189 | when a request's last write takes effect, whatever others did since its first, the ledger holds its action, payment and settlement, an outbox row exactly in batch mode, and exactly its split rows |
| `PipelineRecords.RequestsStayReady` | packages/tollbooth/src/index.ts:159-186 | in every reachable state, only batch routes enqueue, and a request about to record splits has its outbox row exactly in batch mode |
| `PipelineRequests.StepKeeps` | packages/nanometer-core/src/ledger.ts:571-673 | every step of any party keeps the whole invariant and takes nothing back that a step ever established |
| `PipelineRequests.Reachable` | apps/seller-agents/src/gateway-worker.ts:150-268 | every state reachable from empty tables satisfies the invariant |
| `PipelineSteps.PromoteKeeps` | packages/nanometer-core/src/ledger.ts:653-665 | promoting with a successful transaction sent for the settlement keeps the invariant, whatever the row's status was |
| `PipelineSteps.FailKeeps` | packages/nanometer-core/src/ledger.ts:668-673 | failing any settlement at any time keeps the invariant |
| `PipelineSteps.ClaimKeeps` | packages/nanometer-core/src/ledger.ts:587-608 | a claim, including one whose COMMIT throws after taking effect, keeps the invariant although another worker may hold the same rows |
| `PipelineSteps.MineKeeps` | apps/seller-agents/src/gateway-worker.ts:222-225 | executing or reverting a transaction keeps the invariant, whoever sent it |
| `PipelineEffects.SubmitIsRecorded` | packages/nanometer-core/src/ledger.ts:342-349 | from any reachable state, a submit mark that takes effect makes a pending or submitted row submitted with the hash just sent, keeping the time of an earlier mark and else storing the present one, and leaves settled and failed rows and every other settlement as they were |
| `PipelineEffects.PromotionIsRecorded` | packages/nanometer-core/src/ledger.ts:647-666 | a promotion that takes effect settles the row with the hash waited for and the time of the first promotion, and touches no other row |
| `PipelineEffects.TransferIsLogged` | packages/nanometer-core/src/ledger.ts:366-395 | a hash's first log row stays; a new one names the worker's chain and the recorded payer, payee and amount |
| `PipelineEffects.RowIsClosed` | packages/nanometer-core/src/ledger.ts:633-638 | closing stores the present time in the row's `done_at` and changes nothing else |
| `PipelineEffects.RowIsGivenBack` | apps/seller-agents/src/gateway-worker.ts:250-258 | giving back empties `picked_at` and changes nothing else of the row; the worker goes on to fail the settlement exactly from the fifth attempt on |
| `PipelineEffects.SettlementIsFailed` | packages/nanometer-core/src/ledger.ts:668-673 | a hard fail marks the row failed and keeps its hash and timestamps |
| `PipelineEffects.ThrownCalls` | apps/seller-agents/src/gateway-worker.ts:189-258 | a call that throws without effect leaves the tables alone; a throw leads to the catch block, and one inside it ends the tick |
| `PipelineRequests.AdmitKeeps` | packages/tollbooth/src/index.ts:86-115 | admitting a verified payment keeps the invariant |
| `PipelineRequests.InsertStepKeeps` | packages/tollbooth/src/index.ts:127-189 | each of the handler's five inserts keeps the invariant, whichever others failed before |
| `PipelineSolo.SettledIsRevokedExactly` | packages/nanometer-core/src/ledger.ts:668-673 | a step takes a settlement out of settled if and only if it is a refund mark on it or a worker's hard fail of it |
| `PipelineSolo.FailedMayBePaid` | apps/seller-agents/src/server.ts:1491-1516 | by the operator's path: every settled row can become failed while naming the successful transaction that paid it |
| `PipelineSolo.ThrowingPromotionFailsPaid` | apps/seller-agents/src/gateway-worker.ts:227-258 | by the program's own path: from any reachable state before a promotion on the fifth attempt or later, a promotion that throws leaves the row failed, not confirmed by it, and paid by a successful transaction of its own |
| `PipelineSolo.FailedIsLeftExactly` | packages/nanometer-core/src/ledger.ts:647-673 | a failed row stops being failed in a step if and only if the step is a promotion of it that takes effect, and is then settled with the hash the worker waited for |
| `PipelineSolo.PromotionOverridesFailure` | packages/nanometer-core/src/ledger.ts:653-665 | in a reachable state a promotion that returns settles the row, whatever its status, by a successful transaction |
| `PipelineSolo.ThrowingFinish` | apps/seller-agents/src/gateway-worker.ts:247-258 | when marking a row done takes effect but throws, the row is done and still settled, and the worker goes on to fail the settlement if and only if this was at least the fifth attempt |
| `PipelineSolo.SoloDoneIsSettled` | apps/seller-agents/src/gateway-worker.ts:188-268 | with one worker, no refund mark and failed ledger calls without effect, every done row, whatever its asset and chain, is settled by a logged transaction sent for that row |
| `PipelineSolo.SoloDoneIsForever` | apps/seller-agents/src/gateway-worker.ts:188-268 | in the same deployment, once a row is done its settlement, status and tx hash included, is the same in every later state |
| `PipelineSolo.DoneRowStays` | packages/nanometer-core/src/ledger.ts:571-673 | there, no single event changes the settlement of a done row |
| `PipelineDrain.TickFinishesSmallest` | packages/nanometer-core/src/ledger.ts:590-600 | a tick nothing fails finishes exactly the `batchSize` smallest undone rows; the undone rows after it are the others, in order, then those requests enqueued meanwhile |
| `PipelineDrain.TickFinishesInOrder` | apps/seller-agents/src/gateway-worker.ts:188-247 | within such a tick, whatever is enqueued, the row finished next is always the smallest undone one |
| `PipelineDrain.TickBelow` | packages/nanometer-core/src/ledger.ts:590-600 | of the rows below any id bound such a tick takes the `batchSize` smallest, whatever lies above |
| `PipelineDrain.DrainBound` | apps/seller-agents/src/gateway-worker.ts:168-188 | of the rows undone at the start, k such ticks finish exactly the k*batch smallest, whatever is enqueued while they run |
| `PipelineDrain.EmptiesInCeilingTicks` | apps/seller-agents/src/gateway-worker.ts:168-188 | the n rows undone at the start are gone after ceil(n / batch) such ticks and not before |
| `PipelineProgress.BatchCanSettle` | apps/seller-agents/src/gateway-worker.ts:168-262 | from any reachable state with the worker idle, while each row its claim would take has its nonce unused, was quoted for the worker's chain and has its window open at some block time not before the clock, a tick in which nothing throws and no block is early exists, and it finishes exactly those rows |
| `PipelineProgress.JobCanFinish` | apps/seller-agents/src/gateway-worker.ts:189-247 | a job just claimed whose signed call the token would take at such a time can be carried from sending to done without the catch block |
| `PipelineProgress.RowIsSigned` | packages/tollbooth/src/index.ts:86-115 | the call a worker makes of any recorded row was signed by its buyer for the chain it was quoted for |
| `PipelineChain.NonceDecidesPayment` | apps/seller-agents/src/gateway-worker.ts:191-205 | for the transfer a token row asks for, in any run: its nonce is used exactly when a call of its buyer's under it executed; unused means this transfer was not made; used means it was, if the buyer signed one authorization under it (for which row is `PipelineNonces.RowIsPaidExactly`) |
| `PipelineChain.UnusedAfterWindowStaysUnpaid` | apps/seller-agents/src/server.ts:1487-1516 | with blocks on time, a payment whose nonce is unused when its window has closed is never made after, so a refund is safe |
| `PipelineChain.LastSecondIsTooLate` | packages/x402-facilitator/src/verify.ts:57-97 | for a recorded row whose signature came from an honest answer accepted at a moment, its nonce unused: some later block can execute its call if and only if that moment is before the window's last second |
| `PipelineChain.WindowLeftExactly` | packages/x402-facilitator/src/verify.ts:57-97 | window arithmetic: a block time at or after a moment lies inside the strict window if and only if that moment and the window's own opening leave a second before it closes |
| `PipelineChain.RowCanExecuteExactly` | apps/seller-agents/src/gateway-worker.ts:191-205 | in every run, the call a worker makes of a recorded token row whose nonce is unused can be executed by some block at or after a moment, on the chain it was quoted for, if and only if such a second is left |
| `PipelineChain.MinedExactly` | apps/seller-agents/src/gateway-worker.ts:222-225 | a waiting transaction that a block takes up succeeds if and only if its code runs through and, for a token, the transfer is payable then; else it reverts |
| `PipelineChain.ClosedWindowStaysClosed` | apps/seller-agents/src/gateway-worker.ts:222-225 | with blocks on time, no token call executes once its window has closed |
| `PipelineChain.RecordedTooLateNeverSettles` | packages/tollbooth/src/index.ts:127-189 | with blocks on time, a payment recorded when its window has no second left is never counted as settled on any chain |
| `PipelineChain.LateRequestIsRecorded` | packages/tollbooth/src/index.ts:86-189 | from empty tables a run records an honest payment that arrives in its window's last second |
| `PipelineReclaim.HeldRowIsReclaimedExactly` | packages/nanometer-core/src/ledger.ts:587-608 | a claim hands out a row another worker holds if and only if it is undone, unlocked at that moment and among the first `batch` such rows |
| `PipelineReclaim.SameRowsTwice` | packages/nanometer-core/src/ledger.ts:587-608 | two idle workers of one batch size that claim one after the other hold the same rows |
| `PipelineReclaim.TwoWorkersHoldOneRow` | packages/nanometer-core/src/ledger.ts:587-608 | from empty tables, for any honest payment of any batch route, a run leaves one row in the hands of two workers |
| `PipelineReclaim.FailedRowIsReopened` | packages/nanometer-core/src/ledger.ts:647-673 | from empty tables a run reaches a failed row whose next step settles it |
| `PipelineReclaim.FifthAttemptFailsPaid` | apps/seller-agents/src/gateway-worker.ts:227-258 | from empty tables a run reaches a row failed on its fifth attempt though its transfer was mined |
| `PipelineReclaim.StartReachesAll` | apps/seller-agents/src/gateway-worker.ts:188-258 | those runs exist from one concrete start |
| `PipelineRuns.RequestRuns` | packages/tollbooth/src/index.ts:86-189 | from any state in which the tollbooth would admit a payment, a request whose calls all return adds exactly its action, payment, pending settlement and outbox row |
| `PipelineRuns.RequestIsRecorded` | packages/tollbooth/src/index.ts:56-189 | from empty tables a run records any honest payment in full, at any delay within its window |
| `PipelineNonces.SignatureFixesNonce` | packages/x402-facilitator/src/verify.ts:75-92 | in every run, payments recorded on one signature have nonces equal up to case, and are one payment if and only if the spellings are equal |
| `PipelineNonces.FoldedNoncesPayOnce` | packages/nanometer-core/src/ledger.ts:59 | in every run, a signature has one payment while recorded nonces are distinct up to case, and they are if each is its own lower-case form |
| `PipelineNonces.AdmittingKeepsFoldExactly` | packages/tollbooth/src/index.ts:101-109 | recording a payment keeps nonces distinct up to case if and only if none recorded equals its own up to case, which a caller can check first |
| `PipelineNonces.SecondSpellingExactly` | packages/x402-facilitator/src/verify.ts:75-78 | a nonce has a second spelling if and only if it holds a hexadecimal letter |
| `PipelineNonces.RespelledIsRecordedTwice` | packages/tollbooth/src/index.ts:101-189 | the failing input: from empty tables, any honest payment whose nonce has a second spelling is recorded twice on the one signature made, as two payments, settlements and outbox rows with the same call |
| `PipelineNonces.OneTransferPerCall` | apps/seller-agents/src/gateway-worker.ts:191-225 | in every run, at most one transaction makes a given transfer |
| `PipelineNonces.RowIsPaidExactly` | apps/seller-agents/src/gateway-worker.ts:191-205 | for a token row whose buyer signed one authorization under its nonce: a transfer was made for this row and no other if and only if the nonce is used and no other outbox row asks for the same call |
| `PipelineNonces.FoldedNoncesAreSole` | packages/nanometer-core/src/ledger.ts:59 | while recorded nonces are distinct up to case, no two outbox rows ask for the same call |
| `PipelineNonces.RespelledRowsShareTransfer` | apps/seller-agents/src/gateway-worker.ts:191-225 | two rows that ask for the same call both read as paid once one transaction made it, which it did for neither alone |
| `PipelineNonces.SpellingsExist` | packages/tollbooth/src/index.ts:101-109 | two such spellings, at a concrete start with a route and a buyer that meet the premises |
| `PipelineStarvation.RowCanFinishExactly` | apps/seller-agents/src/gateway-worker.ts:188-262 | with the fleet on one chain: from any reachable state, an undone token row can be finished by some continuation without early blocks if and only if some block from then on could execute its call, or a worker is at it with a transaction of its own that succeeded |
| `PipelineStarvation.PaidRowIsStranded` | apps/seller-agents/src/gateway-worker.ts:222-262 | a token row whose transfer succeeded while no worker has it in hand is never done in any continuation without early blocks |
| `PipelineStarvation.StuckRowsStarveTheRest` | packages/nanometer-core/src/ledger.ts:590-600 | with the fleet on one chain and no early blocks: once the undone rows below some id cannot be finished and fill every worker's batch, claims that skip nothing as locked take exactly the first of those rows for ever: no later row is claimed or done |
| `PipelineStarvation.StrandedIsReached` | apps/seller-agents/src/gateway-worker.ts:222-231 | from empty tables, for any honest payment, a crash between receipt and promotion gets there |
| `PipelineStarvation.StarvationIsReached` | packages/tollbooth/src/index.ts:86-189 | from empty tables, with workers that claim one row at a time, a payment recorded in its window's last second starves the next one although any block could execute that |
| `PipelineStarvation.SoloStartReachesBoth` | apps/seller-agents/src/gateway-worker.ts:168-262 | from one concrete start both happen: a paid row stays undone and an executable row unclaimed in every continuation without early blocks and skipped locks |
| `PipelineDrain.UndoneIsSorted` | packages/nanometer-core/src/ledger.ts:595-596 | the undone rows in question are claimable rows in strictly increasing id order |
| `PipelineDrain.UndoneIsComplete` | packages/nanometer-core/src/ledger.ts:595-596 | and include every claimable row |
| `Ledger.SelectUndoneIsFirst` | packages/nanometer-core/src/ledger.ts:590-600 | a claim takes claimable, unlocked rows in increasing id order, skips none smaller than one it takes, and takes fewer than the limit only when no other is left |
| `Ledger.ClaimHandsOutRows` | packages/nanometer-core/src/ledger.ts:587-624 | a claim counts one attempt on exactly the rows it hands out, hands out their stored fields with the attempts before the increment, and changes no other table |
| `Ledger.Ledger.InsertAction` | packages/nanometer-core/src/ledger.ts:249-286 | stores the row, or fails and changes nothing on a duplicate id |
| `Ledger.Ledger.InsertPayment` | packages/nanometer-core/src/ledger.ts:288-310 | stores the row, or fails and changes nothing on a duplicate id or nonce or a missing action |
| `Ledger.Ledger.InsertSettlement` | packages/nanometer-core/src/ledger.ts:312-334 | stores the row with the hash given and the status given, pending by default, and no timestamps, or fails and changes nothing on a duplicate id or a missing payment |
| `Ledger.Ledger.EnqueueGatewayOutbox` | packages/nanometer-core/src/ledger.ts:530-564 | appends a blank outbox row under the next serial id, or fails when a referenced row is missing |
| `Ledger.Ledger.InsertSplits` | packages/nanometer-core/src/ledger.ts:351-364 | appends all rows in one statement or none |
| `Ledger.Ledger.ClaimGatewayOutbox` | packages/nanometer-core/src/ledger.ts:571-631 | the select-then-update transaction: it hands out and counts exactly the rows `SelectUndoneIsFirst` and `ClaimHandsOutRows` describe, and changes no other table |
| `Ledger.Ledger.SelectUndoneRows` | packages/nanometer-core/src/ledger.ts:590-600 | the scan returns the first undone, unlocked rows up to the limit, as stored |
| `Ledger.Ledger.MarkPicked` | packages/nanometer-core/src/ledger.ts:601-606 | the update stamps and counts exactly the rows it is given |
| `Ledger.Ledger.MarkOutboxDone` | packages/nanometer-core/src/ledger.ts:633-638 | sets `done_at` of that row and nothing else |
| `Ledger.Ledger.MarkOutboxFailed` | packages/nanometer-core/src/ledger.ts:640-645 | clears `picked_at` of that row and nothing else |
| `Ledger.Ledger.MarkSettlementSubmitted` | packages/nanometer-core/src/ledger.ts:342-349 | has effect only on a pending or submitted row, and keeps an earlier `submitted_at` |
| `Ledger.Ledger.PromoteSettlement` | packages/nanometer-core/src/ledger.ts:647-666 | settles the row from any status and keeps an earlier `confirmed_at` |
| `Ledger.Ledger.FailSettlement` | packages/nanometer-core/src/ledger.ts:668-673 | fails the row from any status and leaves hash and timestamps |
| `Ledger.Ledger.LogOnchainTx` | packages/nanometer-core/src/ledger.ts:366-395 | the first row logged for a hash stays |
| `Gateway.GatewayWorker.Tick` | apps/seller-agents/src/gateway-worker.ts:145-268 | whatever meets its awaits, and whatever is signalled to the same object meanwhile, a tick leaves a world that is a run of the transition system: the statistics query, then, with a relayer key, the claim and exactly the calls its awaits determine, up to the first moment the worker is idle again; it throws exactly if its last call does; each row of a claim that returned is, in order, done and closed or given back, until a catch block throws, and if no call threw none of the first `batchSize` undone unlocked rows is claimable any more; the timing fields are a run of the signal machine over exactly the signals met and, without a relayer key, the idle notice; a busy worker's tick does nothing |
| `Gateway.GatewayWorker.TimerFires` | apps/seller-agents/src/gateway-worker.ts:124-132 | a timer that goes off on a stopped or busy worker does nothing more, else it is a tick as above |
| `Gateway.GatewayWorker.DrainOnce` | apps/seller-agents/src/gateway-worker.ts:172-262 | its history begins with the claim of await 1 and is determined call by call from there; what becomes of each claimed row and when it throws is as for the tick |
| `Gateway.GatewayWorker.Settle` | apps/seller-agents/src/gateway-worker.ts:189-247 | true if and only if each of its six awaits returned and the receipt found a success; else the awaits end at the first that did not and the worker is at the catch block; if true, the row is done and stands on its logged successful transaction and promoted settlement, and the worker is at the next job |
| `Gateway.GatewayWorker.Transact` | apps/seller-agents/src/gateway-worker.ts:190-225 | gets past the receipt if and only if sending, marking and waiting returned and the transaction succeeded |
| `Gateway.GatewayWorker.Recover` | apps/seller-agents/src/gateway-worker.ts:250-258 | true if and only if its one call, or from the fifth attempt on its two calls, return: the row was then given back, and the settlement failed from the fifth attempt on; its own exception ends the tick |
| `Gateway.GatewayWorker.Start` | apps/seller-agents/src/gateway-worker.ts:121-134 | is the start signal: nothing while a timer is set, else one more loop |
| `Gateway.GatewayWorker.Stop` | apps/seller-agents/src/gateway-worker.ts:136-142 | is the stop signal: cancels the timer last set, and only that one |
| `WorkerLoop.OneBodyAtATime` | apps/seller-agents/src/gateway-worker.ts:145-147 | in any order of starts, stops, timers and manual ticks at most one tick body runs, and `busy` says whether |
| `WorkerLoop.NoticesAreApart` | apps/seller-agents/src/gateway-worker.ts:165-174 | any two idle notices are more than a minute apart, whatever the clock does |
| `WorkerLoop.NoticeExactly` | apps/seller-agents/src/gateway-worker.ts:165-174 | a tick without a relayer key gives notice if and only if more than 60000 ms have passed since the last |
| `WorkerLoop.BodyKeepsRunning` | apps/seller-agents/src/gateway-worker.ts:145-147 | while a tick body runs no signal from outside starts another, ends it or touches the idle notice |
| `WorkerLoop.LoopsAddedByStartOnly` | apps/seller-agents/src/gateway-worker.ts:121-142 | live loops grow in a step if and only if it is a start that finds no timer, and then by one; a timer fired on a stopped worker ends its loop, and a stopped worker's timers start no body |
| `WorkerLoop.LoopsEndExactly` | apps/seller-agents/src/gateway-worker.ts:121-142 | live loops shrink in a step, and then by one, if and only if a stop cancels the timer last set or a stopped worker's loop comes to its next move |
| `WorkerLoop.StopAndStart` | apps/seller-agents/src/gateway-worker.ts:121-142 | a stop cancels the timer last set and no other; a start that finds none set sets one new timer and clears the stop |
| `WorkerLoop.LoopTicksAndResumes` | apps/seller-agents/src/gateway-worker.ts:124-132 | on a worker not stopped, a timer that fires begins a tick of its loop or, if busy, returns at once, and the loop then sets its next timer |
| `WorkerLoop.StoppedUntilStart` | apps/seller-agents/src/gateway-worker.ts:121-142 | over any signals but a start, a stopped worker stays stopped, its loops begin no tick and no timer is set |
| `WorkerLoop.OneLoopExactly` | apps/seller-agents/src/gateway-worker.ts:121-142 | after every prefix of a run at most one loop is live if and only if no start takes effect while a stopped loop's tick is still running |
| `WorkerLoop.LoopsAtMostStarts` | apps/seller-agents/src/gateway-worker.ts:121-142 | live loops never outnumber calls of start |
| `WorkerLoop.TwoLoopsCanLive` | apps/seller-agents/src/gateway-worker.ts:121-142 | a run in which a stop and a start during a tick leave two loops |
| `Tollbooth.Tollbooth.Handle` | packages/tollbooth/src/index.ts:56-206 | on the chain and token resolved for this request: without a header it answers a challenge and changes nothing; with one it serves exactly the payments `Accept` admits, the window read on arrival and the nonce at the SELECT; a rejected one leaves no trace; an accepted one is served with the computed shares whatever the ledger does, issues exactly its route's writes in order, and a failure is logged if and only if one of them threw, which is then the last; if none threw it is recorded in full; only an empty list of splits makes the response throw; the world is a run of the transition system |
| `Tollbooth.Tollbooth.CheckPayment` | packages/tollbooth/src/index.ts:86-115 | the challenge rebuilt on arrival with the buyer's nonce and window is what is verified: the window by the clock on arrival, the nonce by the ledger when the SELECT runs after an await |
| `Tollbooth.Tollbooth.WriteLedger` | packages/tollbooth/src/index.ts:127-189 | issues the route's writes in order and nothing else; a write throws exactly if its call fails or, in the tables of that moment, its id or nonce is taken or a row it refers to is missing; the first that throws is the last issued, and if none does all are issued and the request is recorded in full |
| `Wallet.AgentWallet.PaidCall` | packages/agent-wallet/src/agent-wallet.ts:120-167 | against a tollbooth, with anybody acting in between, for any decimals and any outcome of the balance check: a failing or too low balance ends it before anything is signed; else it signs, retries and is paid and recovered as this wallet exactly when the retry resolves to the same chain and token, arrives inside the challenge's window, its nonce is unused at the check, and both sides read the price alike; the retry's writes are those of the tollbooth, and it returns the challenge, its own answer to it and the response |
| `Wallet.AgentWallet.SignChallenge` | packages/agent-wallet/src/agent-wallet.ts:178-208 | the answer is the signature over the challenge's own payee, price, window and nonce, and becomes known |
| `Handshake.AcceptedExactly` | packages/x402-facilitator/src/verify.ts:57-97 | a payment is accepted as from a buyer if and only if it is well formed, within its inclusive window, unseen, for this payee and price, and the buyer signed precisely that authorization |
| `Handshake.ChallengeExactly` | packages/x402-facilitator/src/challenge.ts:37-84 | a challenge is issued if and only if the price is well formed, the addresses are 20 hexadecimal bytes, the chain id is positive and the splits are absent or nonnegative rates that sum to 10000; it names the route's terms and is open from 5 seconds before to the window's end |
| `Handshake.AcceptedTerms` | packages/x402-facilitator/src/verify.ts:57-97 | an accepted payment has 20-byte addresses, a 32-byte nonce, the route's price in millionths, and a signature for the route's chain in the "USD Coin" version 2 domain |
| `Handshake.ErrorNamesFault` | packages/x402-facilitator/src/verify.ts:57-97 | each of the nine rejections names something that is really wrong with the payment |
| `Handshake.HonestAnswerAccepted` | packages/agent-wallet/src/agent-wallet.ts:178-208 | a wallet's answer to any issued challenge is accepted, as from its own address, exactly until the window closes, while the nonce is unused, if the retry resolves to the same chain and token and the wallet's decimals read the price as the tollbooth's do |
| `Handshake.DecimalsMustAgree` | packages/x402-facilitator/src/verify.ts:57-97 | an answer signed with other decimals is accepted only if both read the same amount |
| `BondVault.Solvent` | contracts/BondVault.vy:62-94 | in every reachable state, whoever coincides with whom, the vault's balance is its unresolved bonds plus all gifts ever received, to the unit |
| `BondVault.StepKeepsBooks` | contracts/BondVault.vy:62-94 | each transaction changes balance minus debt by exactly its gift |
| `BondVault.RefundNeverLacksFunds` | contracts/BondVault.vy:86-94 | in every reachable state a refund succeeds if and only if the bond exists, is unresolved and its window has elapsed |
| `BondVault.SlashNeverLacksFunds` | contracts/BondVault.vy:74-84 | likewise a slash, if and only if the sender is a validator and the bond unresolved |
| `BondVault.EachBondPaysOnce` | contracts/BondVault.vy:62-94 | over any run a claim is bonded at most once and pays out exactly its amount exactly when resolved, odd amounts included |
| `BondVault.PayoutsMoveTokens` | contracts/BondVault.vy:80-93 | the listed payouts are what every account's balance really changed by |
| `BondVault.TermsAreFixed` | contracts/BondVault.vy:62-94 | a bond's staker, amount and time never change and resolved is final |
| `BondVault.StakeIsStored` | contracts/BondVault.vy:61-72 | over any run, once a stake took effect its claim has exactly the sender, amount and time of that transaction in every later state |
| `BondVault.StakeIsRefundedExactly` | contracts/BondVault.vy:86-94 | while that stake is unresolved, a refund succeeds if and only if its time plus the window fits 256 bits and has come, and it pays the sender the amount |
| `BondVault.StakeSucceedsExactly` | contracts/BondVault.vy:61-72 | in every reachable state a stake succeeds if and only if the claim is new, the amount positive, held and approved; it moves and uses up just that |
| `BondVault.ListedFundsStake` | contracts/BondVault.vy:61-72 | on a fresh deployment that is decided by what the token's books list |
| `BondVault.OwnerSetsValidators` | contracts/BondVault.vy:54-59 | only the owner changes who may slash, only as told, and never for the empty address |
| `BondVault.BondVault.Stake` | contracts/BondVault.vy:61-72 | stores the bond and takes the tokens, or reverts and changes nothing |
| `BondVault.BondVault.Slash` | contracts/BondVault.vy:74-84 | pays half to the sender and the rest to the insurance address, or reverts bond and token state |
| `BondVault.BondVault.Refund` | contracts/BondVault.vy:86-94 | pays the staker after the window, or reverts |
| `BondVault.BondVault.SetValidator` | contracts/BondVault.vy:54-59 | only the owner changes the validator set |
| `Prices.RoundTrip` | packages/x402-facilitator/src/challenge.ts:110-125 | parse after print is the identity if and only if n >= 0 and d >= 1, and what is printed then fits the parser's grammar |
| `Prices.NormalFormDecidesValue` | packages/x402-facilitator/src/challenge.ts:110-125 | print after parse is idempotent, and two prices share a normal form exactly when they denote the same amount |
| `Prices.FixedPointsAreCanonical` | packages/x402-facilitator/src/challenge.ts:110-125 | the printer's outputs are exactly the strings without redundant zeros or excess digits |
| `Prices.ParsersAgree` | apps/seller-agents/mainnet-rehearsal.mjs:35-39 | on every well-formed price the concatenating, arithmetic and wallet parsers equal the floor of its rational value scaled, and the quote engine's at six decimals |
| `Prices.PaddedPriceReads` | apps/dashboard/src/app/components/WalletManagement.tsx:126-135 | white space around a price does not change what the wallet UI reads |
| `Prices.SpacesExactly` | apps/dashboard/src/app/components/WalletManagement.tsx:126-135 | the characters trimmed are the 25 that JavaScript calls white space or line ends |
| `Prices.FormatThenParse` | apps/dashboard/src/app/components/WalletManagement.tsx:126-145 | printing with enough digits loses nothing, with fewer less than one unit of the last shown place |
| `Prices.PriceFloorHalves` | apps/seller-agents/src/server.ts:103-113 | the floor price is half the price rounded down, or the price itself where that is zero, and is well formed |
| `Splits.ComputeSplits` | packages/x402-facilitator/src/challenge.ts:94-107 | throws exactly unless the rates sum to 10000, else computes the shares the lemmas below speak of |
| `Splits.SharesAddUp` | packages/nanometer-core/src/x402.ts:173-190 | the shares sum to the total, whatever the rates |
| `Splits.SharesTruncate` | packages/x402-facilitator/src/challenge.ts:94-107 | each share is the exact one cut toward zero, whatever the sign of its rate |
| `Splits.SharesAreFair` | packages/x402-facilitator/src/challenge.ts:94-107 | all but the last are exact floor shares; the last exceeds its exact share by less than n-1 units, by nothing when alone, and none is negative |
| `Splits.RowsCarryConfiguredRates` | packages/tollbooth/src/index.ts:175-185 | the rows recorded carry each recipient's own rate if and only if no address, ignoring case, has two rates |
| `QuotePolicy.QuoteIsBounded` | packages/x402-facilitator/src/quote.ts:46-95 | the issued price is the policy price, or the proposal exactly when nearer than 11%, raised to the floor where below it |
| `QuotePolicy.QuoteExactly` | packages/x402-facilitator/src/quote.ts:46-95 | for any sound policy and ask the quoted amount is the buyer's override, or else the base discounted for the volume; the proposal in its place exactly when nearer than 11%; and the floor where that is more |
| `QuotePolicy.OverrideWins` | packages/x402-facilitator/src/quote.ts:62-68 | a buyer with an override is quoted exactly its price, at any volume and in any spelling of the address, unless the floor is higher |
| `QuotePolicy.TierThrowsExactly` | packages/x402-facilitator/src/quote.ts:51-59 | the seller's price throws if and only if a tier applies to a malformed base, even where an override would replace it |
| `QuotePolicy.ThrowsExactly` | packages/x402-facilitator/src/quote.ts:46-82 | a quote throws if and only if that does or a proposal or floor, or the price compared with it, is malformed |
| `QuotePolicy.TenPercentMeansUnderEleven` | packages/x402-facilitator/src/quote.ts:122-128 | the truncating test accepts exactly the proposals at a distance strictly under 11% of a nonzero price |
| `QuotePolicy.AcceptsMoreThanTenPercent` | packages/x402-facilitator/src/quote.ts:122-128 | the code's test accepts the proposal "0.001109" for a price of "0.001" |
| `QuotePolicy.VolumeNeverRaisesPrice` | packages/x402-facilitator/src/quote.ts:51-59 | without override or proposal, and with discounts not shrinking along the sorted table, more volume never raises the price |
| `QuotePolicy.MatchedIsHighest` | packages/x402-facilitator/src/quote.ts:51-59 | the tier used is the one with the highest threshold reached, and none exactly when none is reached |
| `QuotePolicy.TableOrderIrrelevant` | packages/x402-facilitator/src/quote.ts:51-59 | with distinct thresholds the order of the table does not matter |
| `QuotePolicy.SortIsStable` | packages/x402-facilitator/src/quote.ts:52-53 | the sort orders by threshold and keeps the table's order within one |
| `QuotePolicy.PlainQuote` | packages/x402-facilitator/src/quote.ts:46-82 | without override or proposal, for any table of discounts from 0 to 100%, the amount is the larger of the discounted base and the floor |
| `QuotePolicy.DiscountedPriceReads` | packages/x402-facilitator/src/quote.ts:116-120 | a discounted price is a price again if and only if the discounted amount is not negative |
| `QuotePolicy.SoundPolicyNeverFails` | packages/x402-facilitator/src/quote.ts:46-95 | with well-formed prices and discounts of 0 to 100% no quote throws |
| `Quotes.QuoteEngine.Negotiate` | packages/x402-facilitator/src/quote.ts:46-82 | the running price and reasons are those `QuoteExactly` and `ReasonsExactly` pin, and it throws exactly when `ThrowsExactly` says so |
| `Quotes.QuoteEngine.Quote` | packages/x402-facilitator/src/quote.ts:46-95 | issues and stores the quote, after which the store holds at most 1000 quotes or only live ones; an exception changes nothing |
| `Quotes.QuoteEngine.Consume` | packages/x402-facilitator/src/quote.ts:98-106 | returns the stored quote unless expired, and deletes only an expired one |
| `Quotes.QuoteEngine.Gc` | packages/x402-facilitator/src/quote.ts:108-113 | keeps exactly the live quotes |
| `Quotes.ReasonsExactly` | packages/x402-facilitator/src/quote.ts:46-82 | the reasons given are the override or else the tier reached, then the accepted proposal, then the applied floor, each exactly when it decided the amount |
| `Quotes.QuoteLivesItsWindow` | packages/x402-facilitator/src/quote.ts:91-113 | a quote is live exactly while no more whole seconds of 1000 ms have passed since it was issued than its window holds |
| `Quotes.CollectionIsInvisible` | packages/x402-facilitator/src/quote.ts:91-113 | over any run with a clock that does not go back, lookups answer exactly as a store that never deletes, repeatably |
| `Quotes.DeletionShowsExactly` | packages/x402-facilitator/src/quote.ts:91-113 | whatever the clock does, a lookup differs from that store if and only if the quote was deleted at a reading past its expiry and is looked up at one that is not |
| `Quotes.StoreIsBounded` | packages/x402-facilitator/src/quote.ts:91-95 | after any quote of a run the store holds at most 1000 quotes or only live ones |
| `Quotes.ClockBackShows` | packages/x402-facilitator/src/quote.ts:98-113 | a clock that steps back after a late lookup makes the deletion show |
| `RateLimit.SlidingWindowBound` | apps/seller-agents/src/server.ts:115-125 | every half-open interval of one window admits at most 2*limit-1 requests per key, wherever it starts (with limit 1 for smaller limits) |
| `RateLimit.RefusalMeansFull` | apps/seller-agents/src/server.ts:115-125 | a refusal means a bucket opened less than a window ago and exactly the limit has been admitted since |
| `RateLimit.BoundIsReached` | apps/seller-agents/src/server.ts:115-125 | for every limit from 1 and every window from 2 ms a run reaches the bound |
| `RateLimit.ShortestWindow` | apps/seller-agents/src/server.ts:115-125 | with windows of 1 ms no interval of that length admits more than the limit |
| `RateLimit.RateLimiter.RateLimit` | apps/seller-agents/src/server.ts:116-125 | updates the key's bucket and decides as the function the lemmas speak of, touching no other key |
| `Quota.AdmittedBelowLimit` | apps/seller-agents/src/server.ts:387-407 | with requests that do not overlap and all of an organisation's actions metered, an admitted request finds the true month count strictly below its limit, whatever the limit and whichever count queries threw |
| `Quota.NeverUndercountsExactly` | apps/seller-agents/src/server.ts:387-407 | no limit lets a request past the true count if and only if the cache has no live entry or the entry lags by at most one |
| `Quota.CacheLag` | apps/seller-agents/src/server.ts:387-407 | over any run the cached count lags the true one by at most one plus the unmetered actions since the last probe |
| `Quota.FixedLimitHolds` | packages/nanometer-core/src/ledger.ts:1097-1106 | under a fixed limit the month count never exceeds it, across month ends |
| `Quota.RefusalReprobes` | apps/seller-agents/src/server.ts:391-407 | after a refusal the next request under the same or a lower limit is decided exactly by the database count, or answered 500 if the query throws |
| `Quota.EntryDatesFromProbe` | apps/seller-agents/src/server.ts:391-399 | over any run a count is cached if and only if the database has answered, and it ends 60000 ms after the last answer |
| `Quota.DecidedByProbeOrCount` | apps/seller-agents/src/server.ts:387-407 | over any run a limited request is decided by the database if and only if that did not answer in the last 60000 ms or the count kept has reached the limit, else by one more than that count |
| `Quota.NoLimitPasses` | apps/seller-agents/src/server.ts:387-407 | a request without a positive limit passes and leaves the cache alone |
| `Quota.UnmeteredActionSlipsThrough` | apps/seller-agents/src/server.ts:387-407 | a run in which requests without a limit let a later one past its limit |
| `Quota.OrganisationsAreSeparate` | apps/seller-agents/src/server.ts:387-407 | requests of one organisation leave another's count and cache alone |
| `Quota.QuotaGate.Check` | apps/seller-agents/src/server.ts:387-413 | a request is let through, refused or, when the count query throws, answered 500 with the cache untouched, as the function the lemmas speak of |
| `Stream.TicksAreCappedAndBilled` | apps/seller-agents/src/stream.ts:44-100 | however slow the writes and in whatever order they end: at most cap+1 ticks, at most cap unless it is a multiple of 100; one billing write per full hundred; if all are stored the bill is less than 100 units below the ticks |
| `Stream.StepKeepsMeter` | apps/seller-agents/src/stream.ts:44-100 | every signal, in any order, keeps the meter's invariant |
| `Stream.CapIsFixedOnce` | apps/seller-agents/src/stream.ts:52-63 | no later message changes what was authorized |
| `Stream.MessageExactly` | apps/seller-agents/src/stream.ts:51-63 | a message starts the meter if and only if it is the first to parse and carry an authorization; the cap is then what it names within 1 and 50000, or 5000; an earlier one that does not closes the connection |
| `Stream.AuthedExactly` | apps/seller-agents/src/stream.ts:51-63 | over any run a connection is authorized if and only if some message parsed and carried an authorization |
| `Stream.TimerExactly` | apps/seller-agents/src/stream.ts:64-77 | a timer sends one tick if and only if the meter runs on an open connection, and starts a billing write at every hundredth only |
| `Stream.ClosesExactly` | apps/seller-agents/src/stream.ts:51-108 | an open connection closes in a step if and only if the peer closes it, its first word does not ask for the stream, or the cap is reached at a tick without a billing write or at the end of one |
| `Stream.SlowWriteSendsOneMore` | apps/seller-agents/src/stream.ts:76-103 | for every cap that is a multiple of 100 a run sends one tick too many |
| `Stream.Connection.OnTimer` | apps/seller-agents/src/stream.ts:64-77 | the callback up to its first await, as the step the lemmas speak of |
| `Stream.Connection.AfterBilling` | apps/seller-agents/src/stream.ts:95-104 | the callback after its await, with the counter as later ticks left it |
| `Stream.Connection.OnMessage` | apps/seller-agents/src/stream.ts:51-63 | the first authorized message starts the meter, later ones do nothing |

## Left out

- Transports (Express, WebSocket framing, RPC, pg): each call is a step that returns, throws without effect, or takes effect and throws.
- Cryptography: a signature recovers an address over a digest only if that address made it; ids and nonces are fresh values supplied by the caller. The chain's tokens check signatures over the domain the challenge names ("USD Coin", version 2).
- JSON, base64 and schema validation: headers carry the value itself; the schemas are the predicates `IsAddress`, `IsNonce`, `SchemaOk`, `GoodRoute`. The schema files are not part of this model.
- Time inside one statement: each SQL statement is atomic at one clock reading; a statement that waits for a row lock could store an older `now()` than its commit time, and time stamps written by different sessions could then be out of order.
- Column widths, and serial numbers lost to failed inserts: `outbox_id` is the next natural number. The chain's own byte encodings are lower-cased text.
- Chain reorganisations: a receipt is final. Gas, fees and relayer balance are not modelled, and rebroadcasting an identical raw transaction counts as a throw.
- `Ledger.Ledger.InsertSettlement`: the mode and gateway id columns are not modelled; the settlement path never reads them.
- Error texts, block numbers, gateway ids, latency and meta columns: stored but never read on this path.
- A tollbooth without a ledger: it has no replay check and writes nothing; `gatewayEnqueue` is a callback of the embedding program.
- `PipelineTheorems.DoneIsFinal`: with several workers the hash a settlement names and the hash that was logged first may be two successful transactions of the row when its asset is not a token on the chain; where they are one is `DoneHashIsFinal` and `SoloDoneIsForever`.
- `PipelineDrain.DrainBound`: holds for ticks in which every call returns; what rows that can never be finished do to the others is `PipelineStarvation.StuckRowsStarveTheRest`.
- `Quota.AdmittedBelowLimit`: requests of an organisation do not overlap; overlapping ones can each see the count before the other's action is stored.
- `Stream.TicksAreCappedAndBilled`: the cap is an integer; a fractional cap or NaN in the first message is not modelled.
- `Prices.ParsersAgree`: compares the parsers on well-formed prices; on other text the second facilitator copy and the rehearsal script have no pattern check and rely on `BigInt` to throw.
- Quotes are not tied to challenges: the program never reads `quote_id` back when it charges.
- Floating-point cost and margin figures, reputation, capability and proof-mesh registries, sessions, API keys, admin pages, the dashboard and deployment: easy or outside exact arithmetic.
