# OISY TRADE exchange engine: a verified model

OISY TRADE is a central limit order book that runs in one canister. Orders are
matched in batches, fills are settled later from a queue of events, and tokens
come in and go out through ICRC ledgers with awaits in between. This project
models that engine and proves that, over every run, its books, records,
balances and the token ledgers agree to the unit, and that it traps in exactly
one case: a sell whose quote total reaches 2^256.

The proof has two layers. On values, `Exchange` gives every transition of the
exchange as a function whose result is `None` where the canister would panic,
and `World` puts the exchange among its users, its ledgers and the clock. On
objects, `OrderBook`, `OrderQueue`, `FillPlanBuilder`, `BalanceWriteBack`,
`Engine`, `History` and the executor run the source's loops over mutable
state; each method is proved against the corresponding function. A `BUG:` assertion
of the source is an `assert` there or a failing result, which the invariant
rules out except in that case.

## Main results

1. `WorldRuns.EveryRunKeepsInv`: from the empty exchange, whatever users
   call, however the ledgers reply and however calls interleave at their
   awaits, one invariant holds. Its readable consequences are `Solvent`,
   `CallsAreExact`, `CallsExclude`, `ClassesAreDisjoint`, `GrantsAreSpaced`,
   `ReservedIsOwed`, `RecordsAgree` and `EndedForever`.
2. `TotalsRuns.RunTrapsExactly`: such a run traps if and only if it comes to
   a matching step that takes the cumulative quote of a sell to 2^256, where
   `OrderUpdate::apply` panics. `OverflowRun.SomeRunTraps` is a run that does:
   the source's panic message calls the overflow a bug, but amounts within
   256 bits reach it. `TotalsRuns.EveryRunIsSafe` is the condition a caller can check:
   no run traps if the limit notional of every sell, plus the supply of its
   quote token, stays within 2^256. Buys and fees never overflow.
3. `Slicing.SlicingIndependence`: however background work is cut into chunks,
   instruction budgets and settlement caps, it completes in the same state,
   down to the trade legs. `Executors.RunOnce` does what the state determines,
   or a prefix of it; so any sequences of calls that end with nothing left to
   do agree (`Chunks.CallsAgree`), calls complete once they may match the
   backlog (`Chunks.CallsComplete`), and none traps on work that can be
   completed (`Slicing.CompletionExists`, `Chunks.CallsStaySafe`).
4. `Answers`, `Authority` and `Withdrawals`: exactly when an order is accepted
   and a cancel, grant, revocation, deposit or withdrawal goes through, and
   what it then changes, on the state alone. Over every run, orders and cancels
   come only from their owner or a trading account of theirs
   (`EveryOrderWasPlaced`, `EveryCancelWasAuthorized`), halted books are still
   (`HaltedBooksAreStill`), and a withdrawal that the ledger refuses over its
   fee succeeds on the retry, whatever comes in between (`RetryPays`).
5. `TradeLog.TradesAgree`: in every state reached the trade log is two legs for
   each fill, each filed under its order's owner.
6. `Commuting.EventsCommute` and `CancelJumpsHarmlessly`: queued settling
   events may be applied in any order.
7. `OrderBooks.OrderBook.MatchOrder` and `ProcessPending`: planning and then
   replaying a plan on price ladders is the one-pass greedy price-time
   matcher; none of the divergence assertions can fail; the index is exact.
   `Priority` says what that matcher means for traders.
8. `Balances.BufferRefinesDirect`: exactly when, and with what result, the
   write-back buffer agrees with applying operations one by one.
   `BufferTrapsOnFreshRow` is the family it shuts out: a row first stored in
   the batch itself cannot be debited in it.
9. `Quantities` and `Fees`: two-limb arithmetic and the decomposed ceiling fee
   are the integer operations, with failure exactly on overflow.
10. `FeesRuns.PoolIsCharged`: the fee pool is what the order records say was
   charged, token by token.
11. `Snapshots.RoundTrip`, `Histories.WalkOnce`, `Packing.PackLossless`.

## Modelling assumptions

- No token's supply reaches 2^256: a transfer into the canister's ledger
  account that would take it there does not happen (`World.Enabled`). That
  balances and the fee pool cannot overflow is then a consequence.
- A ledger either moves what it was asked to move, with the offered fee, or
  moves nothing; it reports missing funds only when they are missing
  (`World.LedgerMay`). That it never does so is proved (`CallsAreExact`).
- The instruction counter only grows, so an executor call is given the number
  of its checks that still pass, any number.
- 64-bit counters of books, orders, fills and users do not run out; the source
  panics where one would (canister/src/ids/mod.rs:52).
- Time does not go backwards.
- Principals, tokens, users and ids are natural numbers; a book id is its
  position, as ids are dense. Prices and quantities on values are unbounded
  naturals with explicit 2^256 checks where the source checks; the limb
  arithmetic itself is in `Quantities`.
- Event timestamps are not modelled. The audit log is represented by what the
  properties need of it: the trade log and the log of grants.

## Layout

| files | what they hold |
|---|---|
| `Prelude`, `Orders`, `Quantity`, `Fees` | shared types, pairs and notionals, 256-bit arithmetic, fees |
| `Matching`, `MatchingFacts`, `Priority`, `Removing` | the book on values, the greedy matcher, price-time priority and the book invariant |
| `OrderQueue`, `FillPlan`, `OrderBook`, `Snapshot` | ladders, plans, the book object, its snapshot |
| `Settlement`, `Accounting`, `Packing`, `MatchSettlement` | fills to operations, locks and debts, packing, the compiling loops |
| `Balances`, `SettleEffects`, `WriteBack` | balances on values, effects of settling, the buffer objects |
| `Records`, `InStepProofs`, `RunInStep`, `RoundFacts`, `History` | order records against the book, the indexed store |
| `Registry` | users, grants, whitelists |
| `Exchange`, `Invariant`, `Frames`, `SettleStep`, `MatchStep`, `Steps`, `CancelStep`, `FundsStep`, `PlaceStep`, `Finality` | the state machine, its invariant, and every transition keeping it |
| `TradeLegs`, `Slicing`, `Commuting` | trade legs, independence of slicing, commuting events, progress |
| `World`, `WorldSafety`, `WorldRuns` | deposits, withdrawals, delegation, whole runs |
| `Answers`, `Authority`, `Withdrawals` | what calls answer and change, who can do what, the retry of a withdrawal |
| `TradeLog` | what the trade log says, over whole runs |
| `FeesExact`, `FeesRuns` | the fee pool against the records, over whole runs |
| `Totals`, `TotalsRuns`, `OverflowRun` | bounds on an order's totals, when runs trap, a run that does |
| `Chunks` | what one executor call does, and sequences of calls |
| `Engine`, `Executor` | the state object and the chunked executor |

`dafny verify dfyconfig.toml` checks everything.

## Model

| member | source | states |
|---|---|---|
| `Quantities.LessExact` | canister/src/order/mod.rs:483-487 | limb comparison is comparison of the 256-bit values |
| `Quantities.CheckedAdd` | canister/src/order/mod.rs:546-554 | two-limb addition is exact; no result exactly when the sum reaches 2^256 |
| `Quantities.CheckedSub` | canister/src/order/mod.rs:438-448 | two-limb subtraction is exact; no result exactly on underflow |
| `Quantities.CheckedMul64` | canister/src/order/mod.rs:585-645 | limb product with a 64-bit factor is exact; no result exactly on overflow |
| `Quantities.CheckedShl64` | canister/src/order/mod.rs:574-583 | the shift by one 64-bit digit is multiplication by 2^64, refused exactly when it overflows |
| `Quantities.CheckedMul128Wide` | canister/src/order/mod.rs:562-570 | the product with a 128-bit factor, in two 64-bit halves, is exact; no result exactly on overflow |
| `Quantities.CheckedDivRem64` | canister/src/order/mod.rs:647-688 | digit-by-digit long division gives the quotient and remainder; no result exactly for divisor zero |
| `Quantities.IsMultipleOf` | canister/src/order/mod.rs:424-436 | the digit-wise test decides divisibility of the 256-bit value |
| `Quantities.MulScaled` | canister/src/order/mod.rs:292-305 | price × quantity / scale by limbs is the integer quotient with its remainder; no result exactly when the product overflows |
| `Quantities.ScaledProductExact` | canister/src/lib.rs:686-712 | under the tick × lot rule the limb computation leaves remainder zero and yields the notional |
| `Orders.NotionalExact` | canister/src/lib.rs:686-712 | prices on the tick and quantities on the lot make price × quantity divisible by the base scale |
| `Orders.NotionalSplitQty` | canister/src/lib.rs:686-712 | the notional is additive over fills of one order, with no rounding loss |
| `Orders.NotionalSplitPrice` | canister/src/settlement/mod.rs:194-219 | limit notional is execution notional plus price improvement, exactly |
| `Fees.CeilFeeIsCeiling` | canister/src/order/fees.rs:56-76 | the reference fee is the least integer not below amount × bps / 10,000 |
| `Fees.MulCeil` | canister/src/order/fees.rs:56-76 | the decomposed limb computation is the true ceiling, for every 256-bit amount and rate, without intermediate overflow |
| `Fees.FeeWithinAmount` | canister/src/balance/fee_pool.rs:24-33 | a fee never exceeds its amount, so withholding it cannot underflow |
| `Fees.FeeMonotone` | canister/src/order/fees.rs:56-76 | a larger amount never has a smaller fee |
| `Fees.SplittingNeverLowersFee` | canister/src/order/fees.rs:56-76 | splitting an amount into several fills never lowers the total fee |
| `Matching.InsertKeepsSide` | canister/src/order/book.rs:423-434 | a newcomer rests behind every order at its price or better, and the side stays in strict price-time order |
| `MatchingFacts.MatchTakerKeepsInv` | canister/src/order/book.rs:168-316 | a match keeps the book invariant: uncrossed, ranked, aligned, ids apart, no fill-or-kill order resting; fill numbers advance by the fills made |
| `MatchingFacts.MatchRunKeepsInv` | canister/src/order/book.rs:361-415 | a batch keeps the book invariant |
| `MatchingFacts.EnqueuedInv` | canister/src/order/book.rs:348-357 | enqueueing a validated order keeps the book invariant |
| `MatchingFacts.MatchRunSplit` | canister/src/execute/mod.rs:57-116 | matching m + n orders is matching m and then n |
| `MatchingFacts.SweepFillsShape` | canister/src/order/book.rs:228-316 | fills run through a prefix of the makers in priority order, at maker prices and with consecutive fill numbers; every maker but the last one filled is emptied, and there is at most one partial fill |
| `MatchingFacts.SweepFillsTaker` | canister/src/order/book.rs:228-316 | the fills of a taker sum to what it wanted less what it keeps |
| `MatchingFacts.SweepFillsMaker` | canister/src/order/book.rs:228-316 | each maker is filled for exactly what left it |
| `MatchingFacts.SweepTakesAllItCan` | canister/src/order/book.rs:189-215 | a sweep leaves a remainder exactly when crossing liquidity runs short, and then exactly the shortfall |
| `MatchingFacts.FillOrKillExact` | canister/src/order/plan.rs:124-134 | a fill-or-kill order is killed, the book unchanged, exactly when crossing liquidity is below its quantity; it never rests |
| `Priority.BetterOffersGoFirst` | canister/src/order/book.rs:189-316 | if a resting order trades, every order at a better price, or earlier at the same price, is filled whole |
| `Priority.WithinTheLimit` | canister/src/order/book.rs:189-316 | a taker trades only within its limit, with the offers in order, each at its own price |
| `Priority.FirstComeFirstMatched` | canister/src/order/book.rs:361-415 | a batch takes the front of the queue in order, leaves the rest as it is, and numbers its fills one by one |
| `Removing.RemovedOk` | canister/src/order/book.rs:440-460 | removal finds every live order, takes out that order alone and keeps the book invariant |
| `OrderQueues.OrderQueue.constructor` | canister/src/order/queue/mod.rs:18-22 | a new ladder is empty |
| `OrderQueues.OrderQueue.FromLevels` | canister/src/order/queue/mod.rs:29-35 | a ladder built from levels drops the empty ones |
| `OrderQueues.OrderQueue.PopFront` | canister/src/order/queue/mod.rs:57-68 | takes the first order in price-time priority and leaves the rest; nothing exactly when empty |
| `OrderQueues.OrderQueue.ReduceFront` | canister/src/order/queue/mod.rs:72-76 | reduces the first order in place and changes nothing else |
| `OrderQueues.OrderQueue.PushBack` | canister/src/order/queue/mod.rs:78-80 | appending to a price level is inserting by price-time priority |
| `OrderQueues.OrderQueue.Remove` | canister/src/order/queue/mod.rs:85-96 | removes exactly the named order at the price, or reports that there is none |
| `OrderQueues.Cursor.Next` | canister/src/order/queue/mod.rs:122-132 | the iterator yields the flattened ladder, best first, each order once |
| `OrderQueues.PushFlat` | canister/src/order/queue/mod.rs:78-80 | flattening after a push equals priority insertion into the flattened ladder |
| `OrderQueues.PruneFlat` | canister/src/order/queue/mod.rs:85-96 | flattening after a removal equals removing that one order from the flattened ladder |
| `FillPlans.PlanForesees` | canister/src/order/plan.rs:81-134 | the plan names exactly the makers the greedy sweep empties, the one it reduces, and the remainder |
| `FillPlans.FillPlanBuilder.AddFill` | canister/src/order/plan.rs:81-110 | a maker is consumed whole or ends the plan as its only partial fill with nothing left to fill |
| `FillPlans.FillPlanBuilder.Build` | canister/src/order/plan.rs:124-134 | kills exactly a fill-or-kill order with a remainder |
| `FillPlans.PlanFills` | canister/src/order/book.rs:189-215 | the read-only walk builds the plan of the whole crossing side |
| `OrderBooks.OrderBook.constructor` | canister/src/order/book.rs:48-71 | a new book is empty and valid |
| `OrderBooks.OrderBook.PopMaker` | canister/src/order/book.rs:118-132 | popping a maker keeps ladders and index in step; the index lookup cannot fail |
| `OrderBooks.OrderBook.ReduceMaker` | canister/src/order/book.rs:266-281 | a partial fill finds the planned maker at the front and leaves it non-empty |
| `OrderBooks.OrderBook.InsertOrder` | canister/src/order/book.rs:423-434 | resting an order is priority insertion; its index entry is new |
| `OrderBooks.OrderBook.PopPlanned` | canister/src/order/book.rs:241-264 | replaying the emptied makers follows the plan step by step; none of the divergence assertions fails |
| `OrderBooks.OrderBook.ApplyPlan` | canister/src/order/book.rs:228-316 | plan-then-apply has the fills, the book and the filled set of the one-pass greedy matcher |
| `OrderBooks.OrderBook.ValidateOrder` | canister/src/order/book.rs:318-332 | an order is accepted exactly when price and quantity are positive multiples of tick and lot |
| `OrderBooks.OrderBook.MatchOrder` | canister/src/order/book.rs:168-183 | matching one order refines the greedy matcher, with error, kill and rest outcomes; the book stays valid with an exact index |
| `OrderBooks.OrderBook.AddPending` | canister/src/order/book.rs:348-357 | enqueues exactly an aligned order with the next number, refuses any other; the book stays valid if price × quantity is below 2^256 |
| `OrderBooks.OrderBook.MatchNext` | canister/src/order/book.rs:365-399 | one turn of a batch matches the head of the queue |
| `OrderBooks.OrderBook.ProcessPending` | canister/src/order/book.rs:361-415 | a batch computes the batch function: fills, killed orders, and disjoint resting and filled sets |
| `OrderBooks.OrderBook.RemoveResting` | canister/src/order/book.rs:440-460 | the index leads to the resting order; ladder and index lose exactly it |
| `OrderBooks.OrderBook.RemoveOrder` | canister/src/order/book.rs:440-460 | removal finds the order wherever it is live and leaves a valid book without it |
| `Snapshots.Take` | canister/src/order/book.rs:654-685 | a snapshot lists counters, queue and levels best first, without the index |
| `Snapshots.Restore` | canister/src/order/book.rs:688-746 | a snapshot without duplicates restores, and the rebuilt index lists exactly its orders |
| `Snapshots.RoundTrip` | canister/src/order/book.rs:654-747 | snapshot then restore gives back ladders, queue, counters and index; no duplicate assertion fires |
| `Snapshots.IndexUnique` | canister/src/order/book.rs:688-746 | the omitted index is determined by the ladders |
| `Settlement.FillDebits` | canister/src/settlement/mod.rs:222-255 | the operations of a fill debit exactly what the filled quantity had locked, on both sides |
| `Settlement.FillCredits` | canister/src/settlement/mod.rs:222-255 | they credit each order what it receives less the fee of its role, and the taker its price improvement |
| `Settlement.FillFees` | canister/src/settlement/mod.rs:375-396 | the fee pool receives each order's ceiling fee on what that order receives, in that token |
| `Accounting.RemovedDebit` | canister/src/settlement/mod.rs:409-436 | the refund of a removed order is exactly its lock |
| `Accounting.MatchTakerDebts` | canister/src/settlement/mod.rs:83-131 | locks before a match equal locks after it plus the debits it emits |
| `Accounting.MatchRunDebts` | canister/src/settlement/mod.rs:83-131 | the same over a whole batch, for every user and token |
| `Accounting.FlowOfJoin` | canister/src/settlement/mod.rs:83-131 | the flows of two batches add up to those of the batch joined |
| `Packing.PackLossless` | canister/src/settlement/mod.rs:141-161 | concatenated batches reproduce all operations and fills in order, and there are ceil(units / cap) of them |
| `Packing.PackedBatch` | canister/src/settlement/mod.rs:141-161 | each batch is a run of between one and cap whole units |
| `Packing.PackSettlementUnits` | canister/src/settlement/mod.rs:141-161 | the packing loop computes the reference packing, save an empty last batch |
| `Packing.NothingTrimmed` | canister/src/settlement/mod.rs:141-161 | with units that carry operations the loop is exactly the reference packing |
| `Packing.RoundUnits` | canister/src/settlement/mod.rs:83-131 | the units of a round carry exactly its operations, one unit per fill or kill, none empty |
| `MatchSettlements.AccrueFill` | canister/src/settlement/mod.rs:258-277 | a fill is added once to its maker's and once to its taker's update; fails exactly where a delta of either reaches 2^256 |
| `MatchSettlements.SettleFills` | canister/src/settlement/mod.rs:98-106 | the loop yields one unit per fill and every order's accrued totals; fails exactly where a value is not computable or an accrual reaches 2^256 |
| `MatchSettlements.FromMatching` | canister/src/settlement/mod.rs:83-131 | updates carry accrued totals and the last status; batches are the packed units; only touched orders are updated; fails exactly where a value is not computable or an accrual reaches 2^256 |
| `Balances.BufferRefinesDirect` | canister/src/balance/write_back.rs:51-188 | buffered application succeeds exactly when direct application does and the debited rows were stored at the start; then it has the same balances, replies and fee pool |
| `Balances.BufferTrapsOnFreshRow` | canister/src/balance/write_back.rs:139-146 | for every amount, a row created in the same batch cannot be debited through the buffer, though direct application allows it |
| `WriteBacks.FeePool.Withhold` | canister/src/balance/fee_pool.rs:24-33 | net amount and accrued pool, refused when the fee exceeds the amount or the pool overflows |
| `WriteBacks.BalanceWriteBack.Transfer` | canister/src/balance/write_back.rs:51-69 | a transfer through the buffer is the buffer transition, panics included |
| `WriteBacks.BalanceWriteBack.Unreserve` | canister/src/balance/write_back.rs:77-84 | likewise for unreserving |
| `WriteBacks.BalanceWriteBack.Deposit` | canister/src/balance/write_back.rs:88-92 | likewise for deposits |
| `WriteBacks.BalanceWriteBack.TryMutate` | canister/src/balance/write_back.rs:168-188 | a refused operation leaves every row, and earlier operations on it, as they were |
| `WriteBacks.BalanceWriteBack.Withdraw` | canister/src/balance/write_back.rs:97-107 | takes the amount or reports what is available |
| `WriteBacks.BalanceWriteBack.Reserve` | canister/src/balance/write_back.rs:112-122 | moves free to reserved or reports what is available |
| `WriteBacks.BalanceWriteBack.Flush` | canister/src/balance/write_back.rs:126-133 | writes every row that existed or is not empty and no other |
| `WriteBacks.TokenBalance.WithWriteBack` | canister/src/balance/token.rs:93-101 | a batch through one buffer computes the buffered outcome on the store |
| `SettleEffects.SettleShifts` | canister/src/state/mod.rs:496-522 | settling covered operations never traps and shifts every balance by exactly their flows |
| `SettleEffects.OpsConserve` | canister/src/balance/token.rs:18-26 | debits equal credits plus fees for every token, self-trades included |
| `Records.UpdateOfTaker` | canister/src/settlement/mod.rs:83-131 | the update of a taker is its fills and the status its remainder calls for |
| `Records.UpdateOfMaker` | canister/src/settlement/mod.rs:83-131 | the update of a maker is its fills, and Filled exactly when emptied |
| `InStepProofs.MatchTakerInStep` | canister/src/order/history/mod.rs:142-194 | a match keeps records and book in step: Pending iff queued, Open iff resting, remainder = quantity − filled |
| `RunInStep.MatchRunInStep` | canister/src/state/mod.rs:396-439 | a whole batch keeps them in step |
| `RunInStep.RunThenRun` | canister/src/state/mod.rs:396-439 | two batches leave the same records as the joined batch |
| `RoundFacts.MatchRunGood` | canister/src/state/mod.rs:472-494 | every fill of a batch is between recorded orders, at the maker's recorded price, and computable |
| `Registry.RegisteredInv` | canister/src/user/mod.rs:253-263 | registering keeps ids dense and injective and moves no one |
| `Registry.GrantedInv` | canister/src/user/mod.rs:291-390 | a validated grant keeps the classes disjoint, the grants and lists mirrored, at most four and without duplicates |
| `Registry.RevokedInv` | canister/src/user/mod.rs:341-416 | a revocation keeps the classes disjoint and the grants and lists mirrored |
| `Registry.GrantAnswer` | canister/src/user/mod.rs:291-336 | a grant is admitted exactly when granter, grantee, list length and cooldown allow it |
| `Registry.GrantRefusals` | canister/src/user/mod.rs:291-336 | which refusal is given, and how long to wait |
| `Registry.GrantedExactly` | canister/src/user/mod.rs:358-384 | a grant makes the grantee act for the granter, last on the granter's list, and changes nothing else |
| `Registry.RevokedExactly` | canister/src/user/mod.rs:392-416 | a revoked account is unknown and on no list; no other grant, place on a list or grant time changes |
| `Registry.UserRegistry.GetOrRegister` | canister/src/user/mod.rs:253-263 | returns the id, new or known, and changes only the user map |
| `Registry.UserRegistry.RecordAdd` | canister/src/user/mod.rs:358-384 | grant map and whitelist change together and the invariant is kept |
| `Registry.UserRegistry.RecordRemove` | canister/src/user/mod.rs:392-416 | exactly that account is dropped from the grant map and its funder's list; the grant time is kept |
| `PlaceStep.ValidatedPlaces` | canister/src/state/mod.rs:175-228 | an order that validation accepts is aligned, computable, owned by a registered user and covered by its free balance |
| `PlaceStep.PlaceKeepsInv` | canister/src/state/mod.rs:175-295 | placing, by anyone with any arguments, never traps, keeps the invariant and all totals |
| `PlaceStep.RecordOrderKeepsInv` | canister/src/state/mod.rs:230-295 | recording a validated order never traps, moves exactly its lock from free to reserved in one row of its owner, and changes no other row |
| `Answers.PlaceAnswer` | canister/src/lib.rs:61-100 | an order is accepted exactly when its book exists and trades, it is on the grid and within bounds, and its effective owner can afford it; then it is enqueued, recorded and locked exactly as asked, and otherwise nothing changes |
| `Answers.PlaceRefusals` | canister/src/state/mod.rs:175-228 | which refusal is given: the first that applies |
| `Answers.PlaceShortfall` | canister/src/state/mod.rs:209-222 | a shortfall names the token, what is free and what is needed |
| `Answers.ComputableByLimbs` | canister/src/order/mod.rs:292-305 | the computability test of the model is what the limb computation decides |
| `CancelStep.CancelKeepsInv` | canister/src/state/mod.rs:297-394 | recording a cancel of a live order never traps, raises its owner's free balance by exactly the lock ahead of the queue, changes no other row, and keeps the invariant |
| `Answers.CancelAnswer` | canister/src/state/mod.rs:297-357 | an order is canceled exactly when it is live and asked for by its owner or a trading account of its owner; each error has its one cause and changes nothing; the record says who canceled if not the owner |
| `Answers.HaltAnswer` | canister/src/state/permissions/mod.rs:85-108 | which books are halted after a halt or a resume, global or by pair |
| `Steps.MatchKeepsInv` | canister/src/state/mod.rs:396-439 | a matching event traps exactly when some order's quote or fee total would reach 2^256; otherwise it is the matching function and keeps the invariant |
| `Steps.MatchTrapsExactly` | canister/src/order/history/mod.rs:142-194 | on an exchange in order the only check of a round that can fail is that of a quote or fee total at 2^256 |
| `Steps.SettleKeepsInv` | canister/src/state/mod.rs:446-523 | a settling event never traps, keeps the invariant and all totals, and pays exactly its flows |
| `FundsStep.CreditKeepsInv` | canister/src/state/mod.rs:843-854 | a deposit within the supply raises one free balance by the amount and keeps the invariant |
| `FundsStep.DebitKeepsInv` | canister/src/state/mod.rs:745-761 | a withdrawal takes the amount from one free balance or reports what is available |
| `FundsStep.AddPairKeepsInv` | canister/src/state/mod.rs:642-668 | a new pair with an accepted configuration keeps the invariant |
| `FundsStep.GrantKeepsInv` | canister/src/state/mod.rs:870-881 | a grant keeps the invariant; every order owner still resolves |
| `FundsStep.RevokeKeepsInv` | canister/src/state/mod.rs:893-903 | so does a revocation |
| `Finality.RoundIsLater` | canister/src/order/history/mod.rs:142-194 | matching changes no ended record, no order's terms, and no total downwards |
| `Finality.CancelIsLater` | canister/src/state/mod.rs:359-386 | a cancel marks that one record, changes no other record, and takes back no logged trade |
| `Finality.LogGrows` | canister/src/order/trades/mod.rs:91-103 | settling only appends to the trade log |
| `Slicing.MatchKeepsAim` | canister/src/execute/mod.rs:57-116 | matching a chunk does not change where the state is heading |
| `Slicing.SettleKeepsAim` | canister/src/execute/mod.rs:118-131 | nor does settling an event |
| `Slicing.SlicingIndependence` | canister/src/execute/mod.rs:37-131 | any two ways of completing the work on a state, with any chunks, caps and interleaving, end in the same books, records, balances, fee pool and multiset of trade legs |
| `Slicing.WorkProgresses` | canister/src/execute/mod.rs:57-131 | a match lowers the matchable orders by exactly what it matches, settling leaves them and lowers the queue, and halted books are left alone |
| `Slicing.CompleteMeansIdle` | canister/src/execute/mod.rs:37-45 | complete means that no work is allowed |
| `Slicing.CompletionExists` | canister/src/execute/mod.rs:57-131 | work on a state can be completed exactly when matching all of it takes no order's totals to 2^256, and then no slicing of it traps |
| `TradeLegs.LogsLegs` | canister/src/state/mod.rs:472-494 | logging an event appends the two legs of each of its fills, in order |
| `TradeLegs.PackedLegs` | canister/src/settlement/mod.rs:83-161 | however a round is packed, its events will log exactly the legs of its fills |
| `Commuting.RearrangedInv` | canister/src/state/mod.rs:446-523 | the queue may be in any order |
| `Commuting.SettleAllPays` | canister/src/state/mod.rs:446-523 | settling a queue never traps and pays exactly the sum of its flows |
| `Commuting.EventsCommute` | canister/src/state/mod.rs:446-523 | any order of the queued events gives the same balances, fee pool and multiset of trade legs |
| `Commuting.CancelJumpsHarmlessly` | canister/src/state/mod.rs:297-337 | a refund paid ahead of the backlog leaves the same balances as one paid behind it |
| `Engines.Engine.constructor` | canister/src/state/mod.rs:107-138 | a new engine represents the empty exchange |
| `Engines.Engine.RecordLimitOrder` | canister/src/state/mod.rs:230-295 | for any order the object code is the placing transition, panics included; the exchange stays in order if price × quantity is below 2^256 |
| `Engines.Engine.RecordCancelOrder` | canister/src/state/mod.rs:359-386 | the object code is the canceling transition, panics included |
| `Engines.Engine.ApplyUpdates` | canister/src/order/history/mod.rs:236-245 | the loop applies each order's update once, or fails exactly where one has no record, is filled beyond its quantity, or takes a total to 2^256 |
| `Engines.Engine.RecordMatching` | canister/src/state/mod.rs:396-439 | on an exchange in order the object code is the matching transition, and panics exactly where it traps |
| `Engines.Engine.ResolveOrders` | canister/src/state/mod.rs:1047-1088 | resolves exactly the orders the operations name, or fails if one has no record or owner |
| `Engines.Engine.AppendFills` | canister/src/state/mod.rs:472-494 | the loop logs, for every fill, the taker's leg under the taker's owner and the maker's under the maker's owner, or fails where the log function fails |
| `Engines.Engine.RecordSettling` | canister/src/state/mod.rs:446-523 | the object code is the settling transition, panics included |
| `Executors.DrainSettling` | canister/src/execute/mod.rs:118-131 | settles exactly as many events as the instructions allow, oldest first; the assertion that each succeeds holds |
| `Executors.RankBooks` | canister/src/execute/mod.rs:147-163 | lists exactly the books with pending orders, more orders first and then smaller ids |
| `Executors.StatusOf` | canister/src/execute/mod.rs:37-45 | reports more work exactly when work that may run is left |
| `Executors.MatchAndSettle` | canister/src/execute/mod.rs:79-110 | matches exactly the lesser of the budget and the matchable orders of the book, and then settles them all unless the instructions run out |
| `Executors.RunOnce` | canister/src/execute/mod.rs:57-116 | does the whole of the call that the state determines, or a prefix of it if the instructions run out; panics only on work that cannot be completed; uncut, it drains the queue, serves the longest queues first, and either completes or matches as many orders as it may; leaves halted books alone, reports its status exactly, and never runs out if the instructions cover its work and its books |
| `Executors.VisitBooks` | canister/src/execute/mod.rs:78-113 | the loop over the ranked books does their shares in rank order until the budget or the instructions end |
| `Chunks.RankingIsUnique` | canister/src/execute/mod.rs:147-163 | a state has one ranking of its books |
| `Chunks.FullCallRuns` | canister/src/execute/mod.rs:57-116 | a call that is not cut short drains the queue, matches the lesser of backlog and chunk size, completes or uses its chunk up, and matches a book only once every book with more pending orders is exhausted |
| `Chunks.CallsAgree` | canister/src/execute/mod.rs:57-116 | any two sequences of calls from one state, with whatever chunk sizes, caps and instruction budgets, that end with nothing left have the same outcome |
| `Chunks.CallsComplete` | canister/src/execute/mod.rs:57-116 | uncut calls complete as soon as together they may match the backlog; one call suffices if its chunk covers it |
| `Chunks.CallsStaySafe` | canister/src/execute/mod.rs:57-116 | work that can be completed still can be after any calls, and the next call does not trap |
| `Chunks.WorksThen` | canister/src/execute/mod.rs:57-116 | the traces of consecutive calls form one trace |
| `WorldRuns.BeginDepositSafe` | canister/src/lib.rs:301-349 | the part of a deposit before its await changes no balance and takes the guard |
| `WorldRuns.BeginWithdrawSafe` | canister/src/lib.rs:371-428 | the part before the await debits exactly the amount from the caller's free balance, or changes nothing |
| `Withdrawals.DepositAnswer` | canister/src/lib.rs:301-348 | when a deposit is begun, and that it asks for exactly its amount |
| `Withdrawals.WithdrawAnswer` | canister/src/lib.rs:371-428 | when a withdrawal is begun; then exactly its amount is debited and asked for, less the cached fee capped at all but one unit |
| `Withdrawals.FundsRefusals` | canister/src/lib.rs:301-428 | which refusal is given: the first that applies |
| `WorldRuns.FirstAskOk` | canister/src/ledger/mod.rs:94-100 | with the capped fee, the first attempt sends something and transfer plus fee is the amount |
| `WorldRuns.LedgerSafe` | canister/src/ledger/mod.rs:152-206 | whatever the ledger answers, the accounts stay in order |
| `WorldRuns.CreditedSafe` | canister/src/lib.rs:352-475 | an arrived deposit or a failed withdrawal raises exactly that free balance by exactly the amount; it cannot overflow |
| `WorldRuns.RetrySafe` | canister/src/ledger/mod.rs:106-126 | the first BadFee that leaves something to send makes the call ask again, for the whole amount, with the fee the ledger named |
| `WorldRuns.ResumeSafe` | canister/src/lib.rs:430-476 | every continuation of a call keeps the accounts in order |
| `Withdrawals.WithdrawalResumes` | canister/src/ledger/mod.rs:83-150 | for each reply: success exactly on a transfer, one retry exactly on a first BadFee that leaves something to send, refund exactly otherwise; what is cached, and that the guard is dropped |
| `Withdrawals.DepositResumes` | canister/src/lib.rs:350-369 | a deposit is credited exactly if the ledger moved it |
| `Withdrawals.TripRuns` | canister/src/ledger/mod.rs:83-150 | whatever runs between reply and continuation, what becomes of the call depends on the reply alone |
| `Withdrawals.RetryPays` | canister/src/ledger/mod.rs:106-126 | over every run, a withdrawal refused with a fee below its amount and then moved ends in success with exactly its amount moved |
| `Withdrawals.RetryGoesThrough` | canister/src/ledger/mod.rs:106-126 | such a run exists from every state reached: the retry is always covered |
| `WorldRuns.GrantSafe` | canister/src/state/mod.rs:856-868 | a grant is refused for principals with a call in flight, so no depositor becomes a trading account |
| `WorldRuns.RevokeSafe` | canister/src/lib.rs:145-168 | a revocation never traps |
| `Authority.GrantAccessAnswer` | canister/src/state/mod.rs:856-868 | a grant is made exactly when the registry admits it and the grantee has no call in flight |
| `Authority.RevokeAnswer` | canister/src/lib.rs:145-168 | a revocation takes effect exactly for the funder's own account, drops exactly it, and changes nothing else |
| `Authority.RevokedCannotAct` | canister/src/lib.rs:145-168 | a revoked account can place no order, and cancel none of its former funder's |
| `Authority.ListingAnswer` | canister/src/lib.rs:630-735 | a pair is listed exactly when its configuration is accepted and no book trades it yet; its book starts empty |
| `WorldRuns.QueueStep` | canister/src/state/mod.rs:396-523 | settling events are first in, first out; nothing but matching and settling touches the queue |
| `WorldRuns.StepSafe` | canister/src/lib.rs:61-477 | a step traps exactly when it matches and takes some order's total to 2^256; every other step keeps the invariant |
| `WorldRuns.EveryRunKeepsInv` | canister/src/lib.rs:61-477 | in every state that a run from the empty exchange reaches the invariant holds |
| `Totals.RoundTotal` | canister/src/order/history/mod.rs:142-194 | a round keeps a buy's quote within its limit notional, a sell's within its limit notional plus what buyers have locked, and fees within what the order received |
| `Totals.LockedWithinSupply` | canister/src/state/mod.rs:230-295 | what is locked in a book is part of what the canister owes |
| `Totals.OnlySellsOverrun` | canister/src/settlement/mod.rs:258-277 | only the quote total of a sell can reach 2^256: buys and fees never do |
| `Totals.RoomyNeverOverruns` | canister/src/settlement/mod.rs:258-277 | no round overruns where every sell's limit notional plus the quote supply stays within 2^256 |
| `TotalsRuns.RunTrapsExactly` | canister/src/order/history/mod.rs:142-194 | a run traps exactly when it comes to a matching step that takes some sell's quote total to 2^256 |
| `TotalsRuns.EveryRunIsSafe` | canister/src/lib.rs:61-477 | if supplies stay below some limits, and every sell placed leaves room for the limit of its quote token below 2^256, no run traps and the invariant holds throughout |
| `OverflowRun.SomeRunTraps` | canister/src/order/history/mod.rs:142-194 | a concrete run that does trap: a sell paid 2^255 as a taker above its limit and 2^255 more as a maker |
| `WorldRuns.Solvent` | canister/src/lib.rs:301-477 | the ledger account is exactly balances, fee pool, open calls and gifts; balances and fees are exactly deposits less withdrawals |
| `WorldRuns.CallsAreExact` | canister/src/ledger/mod.rs:83-150 | a finished withdrawal moved exactly its amount if it succeeded, on either attempt, and nothing if it failed; the ledger never lacks the funds |
| `WorldRuns.CallsExclude` | canister/src/guard/mod.rs:41-58 | two calls in flight never share caller and token |
| `WorldRuns.ClassesAreDisjoint` | canister/src/user/mod.rs:253-416 | in every state reached no principal is both user and trading account, every grant is listed and every listed account is a grant of that funder, and every order owner resolves |
| `WorldRuns.GrantsAreSpaced` | canister/src/user/mod.rs:291-336 | two grants by one funding account are a cooldown apart, across revocations too |
| `WorldRuns.ReservedIsOwed` | canister/src/state/mod.rs:230-523 | in every state reached a reserved balance is what live orders lock plus what queued events will debit |
| `WorldRuns.RecordsAgree` | canister/src/state/mod.rs:396-494 | in every state reached statuses say where orders are, and totals equal logged trades plus queued fills |
| `WorldRuns.EndedForever` | canister/src/order/history/mod.rs:142-194 | the record of an ended order never changes again |
| `Authority.StepAuthorized` | canister/src/lib.rs:61-117 | a step makes at most the record it places and cancels at most the order it names |
| `Authority.EveryOrderWasPlaced` | canister/src/lib.rs:61-100 | every order on record was placed by a step of its owner or a trading account of its owner at that time, on exactly those terms, in a book that was not halted |
| `Authority.EveryCancelWasAuthorized` | canister/src/lib.rs:102-117 | every canceled order was canceled by a step of its owner or a trading account of its owner at that time, and the record says which |
| `Authority.HaltedStep` | canister/src/state/permissions/mod.rs:114-130 | no step enqueues into a halted book or matches in it; cancels still go through |
| `Authority.HaltedBooksAreStill` | canister/src/state/permissions/mod.rs:114-130 | over every run, a halted book takes no order and fills none until it is resumed |
| `Authority.PairsAreListedOnce` | canister/src/lib.rs:630-735 | in every state reached no pair is traded by two books, and notional bounds are proper |
| `TradeLog.TradesKept` | canister/src/state/mod.rs:446-523 | only settling logs trades |
| `TradeLog.TradesAgree` | canister/src/state/mod.rs:472-494 | in every state reached a trade is filed under its order's owner and side, with the fee of its role in the token received; each fill has exactly two legs, of opposite sides and roles, equal quantity, both at the maker's recorded price |
| `FeesExact.RoundCharges` | canister/src/settlement/mod.rs:258-277 | a round raises the fees on a book's records by exactly the fees its operations will withhold |
| `FeesExact.MatchPool` | canister/src/state/mod.rs:396-439 | matching keeps the fee pool, with what is queued, equal to the fees on all records |
| `FeesExact.SettlePool` | canister/src/state/mod.rs:446-523 | so does settling |
| `FeesRuns.CancelPool` | canister/src/state/mod.rs:359-386 | so does canceling, whose refund carries no fee |
| `FeesRuns.PoolIsCharged` | canister/src/balance/fee_pool.rs:24-33 | in every state reached the fee pool of a token, with what is queued, is the fees on the records of all orders that receive it |
| `Histories.History.InsertOnce` | canister/src/history/mod.rs:144-158 | a new record gets the next dense number and its index entry; the second assertion cannot fail |
| `Histories.History.Modify` | canister/src/history/mod.rs:163-171 | a rewrite touches one record and no index entry |
| `Histories.History.PageByUser` | canister/src/history/mod.rs:180-208 | a page is the next of the user's keys, newest first; a cursor that is not the user's own is refused |
| `Histories.WalkOnce` | canister/src/history/mod.rs:180-208 | a walk with any page sizes and any inserts in between is never refused and shows the user's records of its start, each once, newest first |
| `Histories.MineNewestFirst` | canister/src/history/mod.rs:180-208 | the listing runs from the newest record to the oldest |
| `Histories.MineComplete` | canister/src/history/mod.rs:91-108 | the listing holds exactly the user's records |

## Left out

- CBOR and Candid codecs, id formats, endpoint wrappers and error mapping: they would only add easy round trips.
- Dashboard, metrics, logging, benchmarks, controller and restricted-mode checks.
- Stable memory and its regions: stored maps are mathematical maps.
- Replay of the event log after an upgrade, where settling is skipped; only the writing path is modelled.
- The inside of the ICRC ledgers, and the limit of 64 bits on their block indexes.
- Token metadata consistency, the bound on base decimals, and the 128-bit and 64-bit bounds on ticks and lots at listing: single checks; the model allows more configurations than the source.
- Range scans of the trade log by order (`trades_for_order`), ticker and depth views: reads that no other property depends on.
- The limit on the number of pairs in one halt request, and halting an unlisted pair, which the source refuses.
- Engines.Engine.RecordSettling: like the other methods that report a panic, leaves the object's state open after one, because the source discards the whole message.
- OrderQueues.OrderQueue.ReduceFront: stands for `front_mut` followed by `reduce_quantity`, as a mutable reference into the ladder has no counterpart here.
- OrderBooks.OrderBook.ProcessPending: lists killed orders in the order matched, where the source keys a map by number; both are ascending.
- WriteBacks.TokenBalance.WithWriteBack: takes the operations as a list where the source takes a closure.
