# XDPoSChain in Dafny

A Dafny 4.11 model of the parts of XDPoSChain that move value or decide which chain is canonical, with proofs of what
they keep. `dafny verify dfyconfig.toml` checks the whole project. Nothing here runs the node: every statement is a
theorem about the model, for all inputs, all runs or all interleavings it names.

The files follow the system:

- **Head of the chain.** `Chain`, `HeadChain`, `BlockChain`: ancestry, fork choice, and the methods that move the head
  (`WriteHeadBlock`, `Reorg`, `AdoptHead`) with the canonical index, the transaction lookup, the next-epoch snapshots and
  the latest committed block. `Execution`: executed-block markers, known blocks and the garbage collection of states;
  `HeadStops`: where a stopped reorganisation leaves them. `ChainIndexer`: section heads under reorganisations and background processing.
- **Trading.** `Matching` and `OrderBook`: the matching loops that trading and lending share, generic in how one match is
  settled. `Quantities`: how much two parties can pay for. `BalanceOverlay`, `TradingSettlement`: settling through an
  overlay. `EpochPrice`: the average price. `TradingEngine`: one order at a time, what a proposer records, what a
  validator replays.
- **Lending.** `LendingTrades`: open trades, their two indexes and the operations on them. `LoanPayments`: what a loan
  costs, how an expired one is shared out, and who is paid. `LendingSettlement`: a loan, the trade it opens, when it cannot
  fail, and the cancellation of an order. `LendingRuns`: runs of all of these. `LendingEngine`: one order at a time, what
  a proposer records, what a validator replays. `TopUpArithmetic`, `LiquidationSteps`, `Liquidation`: the epoch
  liquidation pass. `LendingPasses`: the pass in the states that runs reach.
- **Masternodes.** `ValidatorShuffle`: the assignment of second validators. `Rewards`: counting and splitting rewards.
- **Tools.** `Options`, `Sums`, `Division`, `Ledger`, and `Relayers`, the deposits and fees both engines share.

Code that changes state step by step is a class or a method with loops, each proved against a function of the old state;
the theorems are about those functions. Code that only computes is functions. Where the source ranges over a Go map the
order is an arbitrary choice. `big.Int` values are mathematical integers; 64-bit clocks wrap around where the source
computes with them, and token balances are checked against 256 bits where the source checks them.

What is read and not computed here is a parameter: the block time, prices, rates, token decimals, relayer owners and fee
rates, the random stream of the shuffle, the check of an order's signature, the fee of a cancellation, which commit of a
write fails and how an adoption of a head ends, and the chain as it is at each read of the indexer.

Where the code does less than it is meant to, a concrete case is given and another statement says exactly when it does
what it is meant to:

- a match that fails after a fill leaves a stray entry in the liquidation-time index, because inserting there is not
  journalled (`LendingPasses.StaleTimeEntry`, `LendingRuns.ActKeeps`); the next pass past that time fails
  (`LendingPasses.PassAfterStaleEntry`), and if the same trade id is opened again at that time the pass never ends
  (`LendingPasses.ReopenedTrade`, `LendingPasses.PassAfterReopening`); a pass settles its books exactly without such
  entries (`Liquidation.LendingBook.SettleExpiredTrades`), and a match that can only reach willing makers leaves none
  (`LendingRuns.ReadyKeeps`); a validator that replays the block is left with the same entries
  (`LendingEngine.UndoneReplays`);
- an automatic top-up of a trade that locks less than nine units may never end a liquidation pass
  (`LendingPasses.EightNeverEnds`, `TopUpArithmetic.NineIsExact`, `LiquidationSteps.StubbornOrSettles`,
  `LiquidationSteps.NineIsCalm`);
- the masternode's fee is lost when the coins of the masternode's owner are among the balances written back
  (`TradingSettlement.OwnerLosesFee`, `TradingSettlement.SettleIsSequential`, `LendingSettlement.RewardLost`,
  `LendingSettlement.SettleIsSequential`); the same overlay would keep the fee of a registration contract that traded;
- before the lending fork a borrowing maker is paid the fee it owes (`LendingSettlement.FeePaidTwice`,
  `LendingSettlement.LoanIsBalanced`);
- a reorganisation that stops half-way for want of a body can leave the head on a block without a marker
  (`Execution.HeadWithoutMarker`, `Execution.StopIsSafe`);
- a pending lending order whose signature does not decode is never taken off, so the proposer's loop ends only without
  one (`LendingEngine.ProcessOrderPending`);
- the marker of a block can outlive its state when a later block has the same state (`Execution.MarkerOutlivesState`,
  `Execution.DroppedExactly`), while the comment in the source gives both one lifetime;
- a verified last section head says nothing about the others while the canonical index is not one chain
  (`ChainIndexer.StaleEntryMisleads`, `ChainIndexer.AllCanonicalIffSpaced`);
- before the tiered reward a foundation that owns the signer loses its part as an owner
  (`Rewards.FoundationLosesPart`, `Rewards.GetRewardBalancesRate`).

## Model

| member | source | states |
|---|---|---|
| `Chain.CanonicalIsAncestry` | core/blockchain.go:1902-1940 | an index linked parent by parent maps every number to the head's ancestor there |
| `Chain.AncestryIsCanonical` | core/blockchain.go:1902-1940 | conversely, an index of the head's ancestors is linked |
| `Chain.TotalsGrow` | core/blockchain.go:2118-2136 | recorded total difficulties never fall along a chain |
| `Chain.WinnerIsNoAncestor` | core/blockchain.go:1807-1815 | a block that wins fork choice is neither the head nor an ancestor of it |
| `BlockChain.WinnerAddsBlocks` | core/blockchain.go:1807-1815 | the reorganisation to a block that wins fork choice adds at least that block, so it never only rewinds |
| `HeadChain.Derive` | core/blockchain.go:4488-4498 | a derived snapshot is the one of the block's own state, which opens |
| `HeadChain.OneGapBlockPerEpoch` | core/blockchain.go:4457-4462 | every epoch has exactly one gap block, the gap before its end |
| `HeadChain.SegmentIsCanonical` | core/blockchain.go:3958-3994 | the dropped chain is what the canonical index holds above the fork |
| `HeadChain.SegmentDisjoint` | core/blockchain.go:3986-4003 | different blocks of one path, in a collected chain or below its fork, share no transaction |
| `HeadChain.PromoteEffect` | core/blockchain.go:4197-4230 | after promoting blocks a lookup names the promoted block holding the transaction, or is what it was |
| `HeadChain.PromotedComplete` | core/blockchain.go:4197-4230 | promoting keeps every canonical transaction looked up |
| `HeadChain.MovedSound` | core/blockchain.go:4261-4284 | after the stale lookups are deleted every lookup names a canonical block holding the transaction |
| `HeadChain.DroppedTransaction` | core/blockchain.go:4164-4206 | a transaction only of dropped blocks is among the deleted ones |
| `BlockChain.BlockChain.constructor` | core/blockchain.go:1136-1187 | a chain of the genesis block is valid, and its index and lookup are exact |
| `BlockChain.BlockChain.StoreBlock` | core/blockchain.go:2118-2190 | storing a block on top of a stored one, without a transaction of its ancestors, changes no path, index or lookup |
| `BlockChain.BlockChain.WriteHeadBlock` | core/blockchain.go:1136-1187 | index entry, lookups, snapshot and head are written together and nothing else |
| `BlockChain.BlockChain.CollectChains` | core/blockchain.go:3968-4007 | the two collected chains run from the heads down to one common block and fork right above it, and an error is returned exactly if the heads have no common stored ancestor |
| `BlockChain.BlockChain.CheckCommitted` | core/blockchain.go:4010-4031 | refuses exactly the reorganisations that would drop the latest committed block |
| `BlockChain.BlockChain.DeriveSnapshots` | core/blockchain.go:4051-4092 | every gap block to be promoted has a stored or derived true snapshot, and an error is returned exactly if one cannot be asked for, or is missing and its state gives none |
| `BlockChain.BlockChain.CollectTransactions` | core/blockchain.go:4164-4196 | collects exactly the transactions of a chain whose bodies are stored |
| `BlockChain.BlockChain.ApplyChain` | core/blockchain.go:4197-4248 | promotes the new chain block by block; it stops only where the body of the next block is missing, and wherever it stops the index is the path of the block reached with its snapshots |
| `BlockChain.BlockChain.DeleteIndexes` | core/blockchain.go:4260-4284 | removes the stale lookups and the unbroken run of index entries above the head, and nothing else |
| `BlockChain.BlockChain.Reorg` | core/blockchain.go:3958-4293 | on an error the head is complete and the index, lookup and head are those of the block reached; on success the index ends right below the new head |
| `BlockChain.BlockChain.AdoptHead` | core/blockchain.go:1902-1940 | on every return the index from 0 to the head is the head's ancestor path with every gap snapshot, the committed block stays canonical and canonical transactions are looked up; on success the head is the block, nothing is left above it after a reorganisation and lookups are exact; an error that keeps the head changes nothing, and where all bodies are stored every error does |
| `BlockChain.ImportAll` | core/blockchain.go:1902-1940 | over any run of stored blocks and adoptions, each completed or refused, the index is exactly the head's ancestor path and the lookup exactly its transactions |
| `BlockChain.StoreKeepsAncestors` | core/blockchain.go:2177-2190 | a stored block keeps its ancestors when another is stored |
| `HeadStops.StopIsPromotable` | core/blockchain.go:4197-4248 | the head that a stopped reorganisation leaves is an ancestor of the new head, off the old chain, so it is one that an adoption stopped there may leave |
| `HeadStops.AncestorOnSegment` | core/blockchain.go:3968-4007 | above the fork every ancestor of a head is a block of its collected chain |
| `BlockChain.StoppedHalfWay` | core/blockchain.go:4197-4248 | a reorganisation stopped on a promoted block keeps the index gap-free, the committed block canonical and the lookup complete |
| `BlockChain.MovedHead` | core/blockchain.go:4261-4284 | a completed reorganisation keeps them too and leaves no entry above the head and no stale lookup |
| `BlockChain.CommittedBelowFork` | core/blockchain.go:3986-4031 | a reorganisation that is not refused forks at or above the committed block |
| `Execution.CollectKeeps` | core/blockchain.go:2336-2356 | garbage collection keeps the reference counts exact and drops the marker of no block whose state is still readable |
| `Execution.DroppedExactly` | core/blockchain.go:2322-2356 | of the blocks that share a state which goes, exactly the last one taken loses its marker |
| `Execution.MarkerOutlivesState` | core/blockchain.go:2322-2356 | a run from the genesis state: two blocks share a state, and the marker of the first outlives it |
| `Execution.WriteKeeps` | core/blockchain.go:2177-2398 | with any commit failing, a write marks its block exactly if every commit succeeded, and takes a marker away only with its state |
| `Execution.WrittenReadable` | core/blockchain.go:2237-2398 | the state of a block just written is readable, whatever was capped, flushed and collected |
| `Execution.StepSafe` | core/blockchain.go:1969-2040 | a completed adoption moves the head only to a marked block with a readable state, a stopped one only to an ancestor on the new chain |
| `Execution.StopIsSafe` | core/blockchain.go:4197-4230 | however an adoption ends the head is an executed block, exactly if every ancestor it would promote was executed |
| `Execution.HeadWithoutMarker` | core/blockchain.go:4197-4230 | a run from the genesis state, with every fork choice by number: a side chain whose first block lost its marker to a failed commit overtakes, its adoption stops on that block, and the head has no marker |
| `Execution.ArchiveHeadExecuted` | core/blockchain.go:2237-2262 | on an archive node whose writes succeed the head is always an executed block, however adoptions end |
| `Execution.RunSafe` | core/blockchain.go:2177-2398 | in every run a marked block was written by a write whose commits all succeeded |
| `Execution.ExecutionStore.constructor` | core/blockchain.go:1236-1241 | a store of the genesis state is valid, and that of an archive node |
| `Execution.ExecutionStore.CollectGarbage` | core/blockchain.go:2336-2356 | the loop collects exactly what the specification does |
| `Execution.ExecutionStore.KeepNewState` | core/blockchain.go:2237-2356 | an archive node flushes the state, another references it, queues it and collects |
| `Execution.ExecutionStore.MoveHead` | core/blockchain.go:1902-1940 | the head ends where the adoption does, and only a completed one succeeds |
| `Execution.ExecutionStore.WriteBlockWithState` | core/blockchain.go:2114-2430 | the new store for every fault and every end of the adoption, success exactly without either failing, and a completed adoption only with marker and state |
| `Execution.ExecutionStore.WriteKnownBlock` | core/blockchain.go:1969-2040 | a known block is adopted exactly with marker and state present and the adoption completed; unless a reorganisation stopped, the head stays otherwise |
| `ChainIndexer.VerifyKeeps` | core/chain_indexer.go:398-406 | verifying drops sections from the end only, exactly those whose heads are not canonical, and stops at a canonical head |
| `ChainIndexer.BeginKeeps` | core/chain_indexer.go:293-318 | a section begun on the last stored head keeps the stored heads chained |
| `ChainIndexer.ReadKeeps` | core/chain_indexer.go:364-395 | a block accepted by processing follows the one before it |
| `ChainIndexer.CompleteKeeps` | core/chain_indexer.go:319-345 | a finished section is stored only on the head it was built on, so the heads stay chained |
| `ChainIndexer.NewHeadExact` | core/chain_indexer.go:229-276 | a reorganisation keeps exactly the sections that end at or below the new head; otherwise a section is known once its end is confirmed |
| `ChainIndexer.NewHeadKeeps` | core/chain_indexer.go:229-276 | a new head or a reorganisation keeps the heads chained |
| `ChainIndexer.StepKeeps` | core/chain_indexer.go:229-345 | every step of chain and indexer keeps the invariant |
| `ChainIndexer.RunKeeps` | core/chain_indexer.go:229-451 | under every interleaving the stored heads are a chain of whole sections |
| `ChainIndexer.AllHeadsCanonical` | core/chain_indexer.go:398-406 | if the last stored head is canonical and the index is a chain up to it, every stored head is canonical |
| `ChainIndexer.VerifiedSections` | core/chain_indexer.go:398-418 | after any run and a verification all stored heads are the canonical hashes at their section ends, where the index is a chain up to the last |
| `ChainIndexer.AllCanonicalIffSpaced` | core/chain_indexer.go:398-406 | with the last head canonical, all are exactly if the canonical hashes at the section ends are whole sections apart |
| `ChainIndexer.StaleEntryMisleads` | core/chain_indexer.go:398-406 | a run from an empty indexer in which, half-way through a reorganisation, a stale entry above the head passes for a verified section |
| `ChainIndexer.SectionIndex.SetValidSections` | core/chain_indexer.go:442-451 | the heads of exactly the sections given up are removed |
| `ChainIndexer.SectionIndex.VerifyHead` | core/chain_indexer.go:398-406 | the loop verifies as specified |
| `ChainIndexer.SectionIndex.OnNewHead` | core/chain_indexer.go:229-276 | known and stored sections move as specified |
| `ChainIndexer.SectionIndex.FinishSection` | core/chain_indexer.go:319-345 | the section counts exactly if it was processed and its old head is still stored; otherwise the last stored head is canonical |
| `ChainIndexer.ProcessSection` | core/chain_indexer.go:364-395 | whatever happens to the chain between the reads, the result descends from the given head by a whole section |
| `Matching.RoundRejects` | XDCx/order_processor.go:218-330 | which of taker and maker leaves in a round, what is filled and when matching stops |
| `Matching.RoundAdvances` | XDCx/order_processor.go:199-332 | a round keeps both quantity totals, touches only its level and makes progress |
| `Matching.LevelAdvances` | XDCx/order_processor.go:199-332 | so does matching a level, which ends with the taker done or the level empty |
| `Matching.BestIs` | XDCx/tradingstate/statedb.go:357-390 | the best price is the price of a resting order and no order of the side has a better one |
| `Matching.OldestIs` | XDCx/tradingstate/statedb.go:391-415 | the chosen maker is the oldest of its level |
| `Matching.BookSweeps` | XDCx/order_processor.go:104-196 | fills run from the best price to ever worse ones within the limit, against resting makers at their own prices; a taker with something left has no reachable maker left; orders out of reach are untouched |
| `Matching.BookInOrder` | XDCx/order_processor.go:104-332 | price-time priority: the makers that leave come before all that stay, and of those that stay only the first is reduced, whatever the settlements do |
| `Matching.BookKeeps` | XDCxlending/order_processor.go:123-217 | what every settlement keeps holds after the matching of an order, whether it ends well or fails |
| `Matching.BookRejectsWhole` | XDCx/order_processor.go:199-332 | what is rejected of a taker is all that was left of it |
| `Matching.BookNeverFails` | XDCxlending/order_processor.go:123-217 | if settling the taker against every maker within its reach cannot fail, the order is never undone |
| `Matching.BookIgnoresTakerId` | XDCx/order_processor.go:144-196 | matching does not depend on the taker's id |
| `OrderBook.PlaceConserves` | XDCx/order_processor.go:199-332 | the taker's quantity is filled, rejected or left, and the book loses exactly the fills and the rejected makers |
| `OrderBook.PlaceRests` | XDCx/order_processor.go:186-194 | what is left of a limit order rests in full under the next id, as it came, and nothing else is added |
| `OrderBook.RejectedNeverRests` | XDCx/order_processor.go:186-194 | an order is rejected or rests, never both: rejected, it was filled and rejected in full and adds nothing to the book |
| `OrderBook.PlaceKeepsSane` | XDCx/order_processor.go:144-196 | a remainder rests under a fresh id where no maker within its limit is left |
| `OrderBook.CancelKeepsSane` | XDCx/tradingstate/statedb.go:282-334 | taking an order off keeps the book in order |
| `OrderBook.NeverCrossed` | XDCx/order_processor.go:104-196 | after any sequence of limit, market and cancel orders the best bid is below the best ask |
| `OrderBook.RunKeeps` | XDCx/order_processor.go:32-101 | what every settlement keeps holds after any sequence of orders |
| `OrderBook.FailsAfterFill` | XDCxlending/order_processor.go:220-408 | an order can fill one maker and then fail on the next |
| `OrderBook.FillsFirst` | XDCxlending/order_processor.go:220-408 | an order that the oldest maker fills exactly leaves the others alone |
| `OrderBook.Engine.OldestOrder` | XDCx/tradingstate/statedb.go:391-415 | finds the oldest order of a level, or that the level is empty |
| `OrderBook.Engine.BestPriceOf` | XDCx/tradingstate/statedb.go:357-390 | finds the best price of a side |
| `OrderBook.Engine.MatchMaker` | XDCx/order_processor.go:218-330 | one round in place is the specified round, failed or not |
| `OrderBook.Engine.ProcessOrderList` | XDCx/order_processor.go:199-332 | the loop over a level ends and matches it as specified, failed or not |
| `OrderBook.Engine.MatchOrder` | XDCx/order_processor.go:104-196 | the loop over levels ends and sweeps the book as specified |
| `OrderBook.Engine.ProcessOrder` | XDCxlending/order_processor.go:123-217 | a limit order's remainder is inserted, a market order's is not |
| `Quantities.BuyerLimitIsQuotient` | XDCx/order_processor.go:408-417 | the balance-limited quantity is the exact quotient of the unrounded cost |
| `Quantities.BuyerAffords` | XDCx/order_processor.go:390-440 | up to the limit the buyer can pay after rounding |
| `Quantities.TradeQuantitySound` | XDCx/order_processor.go:390-484 | at most the requested quantity, all of it exactly when both can pay, affordable to both after rounding, otherwise the most the short parties cover, and a maker rejected exactly when it is short and decides |
| `Quantities.BorrowerLimitIsQuotient` | XDCxlending/order_processor.go:497-505 | the collateral-limited quantity is the exact quotient of the unrounded collateral |
| `Quantities.BorrowerAffords` | XDCxlending/order_processor.go:485-520 | up to the limit the borrower can lock the collateral after rounding |
| `Quantities.LendQuantitySound` | XDCxlending/order_processor.go:485-561 | the same for a loan: bounded, whole exactly when both can pay, affordable to both |
| `BalanceOverlay.CheckBalance` | XDCx/tradingstate/relayer_state.go:281-351 | a new balance on what the overlay holds, refused for an unknown token, too little or too much |
| `BalanceOverlay.Stage` | XDCx/order_processor.go:499-544 | one step of the check phase extends the overlay as specified |
| `BalanceOverlay.OverlayIsSequential` | XDCx/order_processor.go:497-544 | the overlay over the state is the state that applying the entries one after another reaches, and both fail together |
| `BalanceOverlay.ApplyMovesSupply` | XDCx/order_processor.go:497-544 | entries move the supply of a token by their net amount |
| `BalanceOverlay.WriteBackExact` | XDCx/order_processor.go:563-598 | writing the overlay over the paid state equals paying after it exactly when neither fee account was written, or they are one that can pay |
| `BalanceOverlay.WriteBackSupply` | XDCx/order_processor.go:563-598 | by how much the supply is off when they were |
| `TradingSettlement.TradesHonestly` | XDCx/order_processor.go:334-388 | a trade settles at most what is asked, and strictly less when it rejects the maker |
| `TradingSettlement.SettlementPays` | XDCx/tradingstate/settle_balance.go:32-165 | who pays and receives what in which token, and that it is what the quantity was chosen by |
| `TradingSettlement.SettlementWorthwhile` | XDCx/tradingstate/settle_balance.go:50-84 | both sides receive something, and a fee worth anything covers what its relayer pays |
| `TradingSettlement.TradeIsBalanced` | XDCx/tradingstate/settle_balance.go:32-165 | what is handed over is received, for every token and every aliasing |
| `TradingSettlement.RelayersPayTwice` | XDCx/tradingstate/relayer_state.go:353-419 | the deposits lose exactly two fees, also when one relayer serves both sides |
| `TradingSettlement.SettleIsSequential` | XDCx/order_processor.go:486-599 | settling through the overlay equals the transfers one after another, for every aliasing, exactly when the fee accounts were not written; and the exact change of every supply |
| `TradingSettlement.OwnerLosesFee` | XDCx/order_processor.go:556-598 | a sale by the masternode's owner settles, and the two fees the masternode earns are lost |
| `TradingSettlement.SettledBalances` | XDCx/order_processor.go:486-599 | what every account gains, for every aliasing: its legs, the fee of its own side for the owner of a relayer, and what the fee accounts keep of their payment |
| `TradingSettlement.LastPriceFollows` | XDCx/order_processor.go:291-297 | the last price of a pair is the price of the maker it last traded with, and changes with nothing else |
| `TradingSettlement.DepositsStayLocked` | XDCx/order_processor.go:346-360 | after a trade the deposit of each relayer involved is still above what is locked, and no other moves |
| `TradingSettlement.TradeOutcome` | XDCx/order_processor.go:334-599 | a settled trade from end to end: what buyer, seller, relayer owners and fee accounts gain at the maker's price, that nobody trades for nothing, that fees are worth their cost, what deposits keep, and the new last price |
| `TradingSettlement.TradeConserves` | XDCx/order_processor.go:334-388 | a trade between parties apart from the fee accounts keeps every supply and the contract solvent |
| `TradingSettlement.TradeNeverFails` | XDCx/order_processor.go:334-388 | a match of proper orders never fails for want of balance or deposit, whoever the parties are |
| `TradingSettlement.ProperTrade` | XDCx/order_processor.go:334-388 | with ample supplies a trade of proper orders never fails, and keeps the contract solvent and every supply |
| `TradingSettlement.NoOrderUndone` | XDCx/order_processor.go:32-101 | after any run of proper orders a proper order is never undone |
| `TradingSettlement.RunConserves` | XDCx/order_processor.go:32-101 | over any run of orders every supply is constant and the registration contract stays solvent |
| `TradingSettlement.TradingLedger.CheckBalances` | XDCx/order_processor.go:497-547 | the six checks in turn are the check phase, and fail where it fails |
| `TradingSettlement.TradingLedger.CheckRelayers` | XDCx/order_processor.go:545-555 | tells exactly whether both relayers can pay |
| `TradingSettlement.TradingLedger.PayFees` | XDCx/order_processor.go:556-564 | deposits and coins move from the relayers to the masternode's owner, or nothing does where the contract cannot pay |
| `TradingSettlement.TradingLedger.DoSettleBalance` | XDCx/order_processor.go:486-599 | the new balances and deposits are the specified ones, or nothing changes and the settlement is refused |
| `EpochPrice.AverageOfEpoch` | XDCx/order_processor.go:301-321 | the stored average lies between the lowest and highest traded price, never exceeds the volume-weighted average and falls short by less than the number of trades |
| `EpochPrice.KeptIsLast` | XDCx/order_processor.go:735-757 | the price kept over epochs is the average of the last epoch with a trade |
| `EpochPrice.RecordAllAppend` | XDCx/order_processor.go:301-321 | recording the trades of two orders one after the other is recording them together |
| `EpochPrice.RecordTrades` | XDCx/order_processor.go:301-321 | the update trade by trade is the recorded average |
| `TradingEngine.ApplyKeepsValid` | XDCx/order_processor.go:32-101 | every order keeps every book uncrossed with fresh ids |
| `TradingEngine.NonceDiscipline` | XDCx/order_processor.go:37-84 | an order applies exactly under the next nonce of its user, and then never again; a refused one changes only the nonce |
| `TradingEngine.CancelsOnlyOwn` | XDCx/order_processor.go:601-640 | a cancellation takes at most the named order off, only for its own user, relayer and hash, and notes its fee |
| `TradingEngine.LeavesOnlyBy` | XDCx/order_processor.go:32-101 | a resting order leaves its book or shrinks only by the cancellation of its own user, relayer and hash, or by an order that reaches its price |
| `TradingEngine.GoneOnlyBy` | core/block_validator.go:134-160 | so for an order that is gone or smaller after a whole block of orders |
| `TradingEngine.ReplayRecords` | XDCx/order_processor.go:301-321 | over any number of orders the average of a pair is the average of all its trades |
| `TradingEngine.KeptPrice` | XDCx/order_processor.go:735-757 | over any number of epochs the kept price of a pair is the average of its trades in the last epoch that had any, between the lowest and the highest of them |
| `TradingEngine.UpdateMediumPriceBeforeEpoch` | XDCx/order_processor.go:735-757 | every listed pair takes over its average if it traded and starts anew; no other pair changes |
| `TradingEngine.CancelMoves` | XDCx/order_processor.go:641-690 | who pays whom for a cancellation, in which token, and that the deposit stays above what is locked |
| `TradingEngine.CancelConserves` | XDCx/order_processor.go:641-690 | a cancellation's fees keep every supply |
| `TradingEngine.ApplyConserves` | XDCx/order_processor.go:32-101 | no order creates or destroys a token, whether refused, cancelling, failing or trading |
| `TradingEngine.RecordedReplays` | XDCx/XDCx.go:119-166 | applying the recorded order reaches the state that the original reached |
| `TradingEngine.ReplayConserves` | core/block_validator.go:134-160 | replaying a block of orders keeps every supply |
| `TradingEngine.Apply` | XDCx/order_processor.go:32-101 | the step in place is the specified one |
| `TradingEngine.MatchOnBook` | XDCx/order_processor.go:86-99 | the matching loops on the book of the pair do what the step specifies, and a failed order is undone |
| `TradingEngine.ProcessOrderPending` | XDCx/XDCx.go:74-168 | for every pending set, what is recorded replays from the same start to the same balances, books, prices and nonces |
| `TradingEngine.ValidateTradingOrder` | core/block_validator.go:134-160 | the validator's loop is the replay, and fails where an order does not apply |
| `LoanPayments.InterestOfTerm` | XDCxlending/lendingstate/settle_balance.go:231-244 | the interest of the whole term at its end, of half of it at its start |
| `LoanPayments.InterestGrows` | XDCxlending/lendingstate/settle_balance.go:231-244 | the rate never falls while the loan lasts |
| `LoanPayments.RepayIsAmountAndInterest` | XDCxlending/lendingstate/settle_balance.go:246-256 | a repayment is the amount and its interest, rounded down once |
| `LoanPayments.DueIsPartAndInterest` | XDCxlending/order_processor.go:824-840 | what an expired trade owes: the part worth its liquidation price, and the interest on what that stood for |
| `LoanPayments.ReachedPriceTakesAll` | XDCxlending/order_processor.go:824-850 | at or below the liquidation price, or without a price, the borrower gets nothing back |
| `LoanPayments.RepaymentBounds` | XDCxlending/lendingstate/settle_balance.go:231-256 | within its term a loan costs between the interest of half of the term and that of the whole term |
| `LoanPayments.ShareOfExpired` | XDCxlending/order_processor.go:824-850 | the investor of an expired trade gets all of the collateral, or the part worth the liquidation price and its interest, whichever is less |
| `LoanPayments.RepaidPays` | XDCxlending/order_processor.go:1186-1213 | what every account gains by a repayment, and that no supply moves |
| `LoanPayments.LiquidatedPays` | XDCxlending/order_processor.go:889-919 | what every account gains by a liquidation, and that no supply moves |
| `LoanPayments.ExpiredPays` | XDCxlending/order_processor.go:842-859 | what every account gains by the settlement of an expired trade, and that no supply moves |
| `LoanPayments.RepayPays` | XDCxlending/order_processor.go:1148-1229 | a due trade is repaid exactly if its borrower can pay amount and interest, liquidated exactly if not and its term is over, and every account moves by what that means |
| `LoanPayments.RepayWorth` | XDCxlending/order_processor.go:1148-1229 | what investor and borrower end up with: the bounds of a repayment within the term, and the share of a liquidated trade |
| `LendingTrades.LiquidateEffect` | XDCxlending/order_processor.go:889-919 | a liquidation closes the trade in table and indexes; without a trade nothing changes |
| `LendingTrades.ExpiredEffect` | XDCxlending/order_processor.go:818-886 | so does the settlement of an expired trade |
| `LendingTrades.RepayEffect` | XDCxlending/order_processor.go:1148-1229 | a repayment is refused exactly without a trade, or before the term by a borrower who cannot pay, and then changes nothing |
| `LendingTrades.TopUpEffect` | XDCxlending/order_processor.go:1112-1146 | a top-up is refused exactly without a trade or the balance, and then changes nothing; else only locked amount and price change, in table and index |
| `LendingTrades.AutoTopUpEffect` | XDCxlending/order_processor.go:1088-1110 | so for an automatic top-up |
| `LendingTrades.RecallEffect` | XDCxlending/order_processor.go:1231-1265 | a recall is refused exactly without a trade or a higher price |
| `LendingTrades.OpenEffect` | XDCxlending/order_processor.go:336-397 | a new trade under a fresh key is in both indexes, takes over a stray time entry of its own, and keeps exact indexes exact |
| `LendingTrades.OpenCounts` | XDCxlending/lendingstate/statedb.go:608-620 | opening a trade inserts its time once more, listed or not |
| `LendingTrades.LiquidateKeepsSlack` | XDCxlending/order_processor.go:889-919 | the lock account pays exactly what the trade locked |
| `LendingTrades.ExpiredKeepsSlack` | XDCxlending/order_processor.go:818-886 | also when part goes back to the borrower |
| `LendingTrades.RepayKeepsSlack` | XDCxlending/order_processor.go:1148-1229 | also on a repayment |
| `LendingTrades.TopUpKeepsSlack` | XDCxlending/order_processor.go:1112-1146 | the lock account gains exactly what the trade locks more |
| `LendingTrades.AutoTopUpKeepsSlack` | XDCxlending/order_processor.go:1088-1110 | also automatically |
| `LendingTrades.RecallKeepsSlack` | XDCxlending/order_processor.go:1231-1265 | the lock account gives back exactly what the trade locks less |
| `LendingTrades.BackedCovers` | XDCxlending/order_processor.go:895-901 | a backed lock account can always pay a trade's collateral, so the logged failures do not occur |
| `LendingSettlement.LendsHonestly` | XDCxlending/order_processor.go:410-483 | a loan settles at most what is asked, and strictly less when it rejects the maker |
| `LendingSettlement.LoanIsBalanced` | XDCxlending/lendingstate/settle_balance.go:36-220 | a loan is balanced exactly after the fork, for a borrowing taker or without a fee; else twice the fee is created |
| `LendingSettlement.FeePaidTwice` | XDCxlending/lendingstate/settle_balance.go:36-220 | before the fork a borrowing maker of 1000 at one percent receives 1010, and 20 are created |
| `LendingSettlement.SettleIsSequential` | XDCxlending/order_processor.go:563-673 | settling equals the transfers one after another, for every aliasing, exactly when the masternode owner's coins were not written; and the exact change of every supply |
| `LendingSettlement.RewardLost` | XDCxlending/order_processor.go:640-670 | the masternode's owner lends coins: the loan settles, and the masternode's reward is lost |
| `LendingSettlement.LoanWorthwhile` | XDCxlending/lendingstate/settle_balance.go:162-198 | the borrower receives something, and a fee worth anything covers what its relayer pays |
| `LendingSettlement.SettledBalances` | XDCxlending/order_processor.go:563-673 | what every account gains, for every aliasing: loan, collateral, quantity and fee, and what the fee accounts pay and keep |
| `LendingSettlement.DepositsStayLocked` | XDCxlending/order_processor.go:437-451 | after a loan both relayers' deposits are above what is locked, and only the borrower's relayer paid |
| `LendingSettlement.SettleLocks` | XDCxlending/order_processor.go:573-671 | the lock account gains exactly the collateral of the loan |
| `LendingSettlement.NewTradeStartsSafe` | XDCxlending/order_processor.go:336-352 | a new trade's liquidation price is below the current price exactly if the liquidation rate is below the deposit rate |
| `LendingSettlement.LoanOpens` | XDCxlending/order_processor.go:326-397 | a settled match changes nothing, or settles balances and opens one trade between its borrower and investor |
| `LendingSettlement.LoanOutcome` | XDCxlending/order_processor.go:326-673 | a settled loan from end to end: what every account gains, that it is not for nothing, the fee and its worth, what deposits keep, and the terms of the opened trade |
| `LendingSettlement.LoanChecks` | XDCxlending/order_processor.go:573-657 | the balances of an affordable loan settle, except for a borrower who lends to itself in the locked token, and then exactly if it can afford both together |
| `LendingSettlement.LoanNeverFails` | XDCxlending/order_processor.go:410-483 | a loan between a willing taker and maker never fails, and keeps the contract solvent and the supply of every token, of the native coin if the masternode's owner takes no part |
| `LendingSettlement.CancelLeavesLock` | XDCxlending/order_processor.go:738-766 | a cancellation does not touch the lock account |
| `LendingSettlement.OfferedIsHandedOver` | XDCxlending/lendingstate/settle_balance.go:36-220 | borrower and investor of a loan hand over exactly the tokens their orders offer, in which a cancellation is paid |
| `LendingSettlement.CancelMoves` | XDCxlending/order_processor.go:738-766 | who pays whom for a cancellation, in which token, and that the deposit stays above what is locked |
| `LendingSettlement.CancelConserves` | XDCxlending/order_processor.go:675-777 | a cancellation's fees keep every supply and the contract solvent |
| `LendingSettlement.LendingLedger.CheckBalances` | XDCxlending/order_processor.go:576-657 | the five checks in turn are the check phase |
| `LendingSettlement.LendingLedger.WriteBack` | XDCxlending/order_processor.go:662-670 | writing the overlay back in any order gives one result |
| `LendingSettlement.LendingLedger.DoSettleBalance` | XDCxlending/order_processor.go:563-673 | the new balances and deposits are the specified ones; a refusal leaves at most the relayer's payment behind |
| `LendingRuns.MatchOpens` | XDCxlending/order_processor.go:220-408 | matching opens one trade per fill, keeps the indexes as exact as they were and every slack, ending well or failing |
| `LendingRuns.FailedMatchIndex` | XDCxlending/order_processor.go:49-59 | after the revert of a failed match the indexes are exact exactly if it had filled nothing, and every open trade stays indexed; every fill stays counted in the time index |
| `LendingRuns.StepEffect` | XDCxlending/order_processor.go:818-1265 | every step on a trade changes at most that trade, keeps the indexes and what strays in them, every slack, every supply and every balance of others |
| `LendingRuns.CancelKeeps` | XDCxlending/order_processor.go:675-777 | a cancellation keeps books, indexes, cover and slack |
| `LendingRuns.ActKeeps` | XDCxlending/order_processor.go:33-120 | one step keeps books, indexes, cover and slack, and the exact indexes exactly unless it is a match that fails after a fill |
| `LendingRuns.ReadyMatch` | XDCxlending/order_processor.go:123-217 | a match that can only reach willing makers is never undone, and keeps every token's supply |
| `LendingRuns.ReadyKeeps` | XDCxlending/order_processor.go:33-120 | a step whose reachable makers are all willing never spoils the time index, and keeps the contract solvent and the supply of every token, of the native coin if the masternode's owner takes no part |
| `LendingRuns.RunKeepsCollateral` | XDCxlending/order_processor.go:563-1265 | over any run the lock account's balance less the locked amounts is constant for every token, every open trade stays in both indexes and no book is crossed; if every match can only reach willing makers the indexes stay exact and every token's supply is constant, the native coin's too if the masternode's owner takes no part |
| `LendingRuns.OrdersKeepTrades` | XDCxlending/order_processor.go:33-120 | matching and cancelling open trades and change none, whether a match ends well or is undone |
| `LendingEngine.NoteFits` | XDCxlending/order_processor.go:764-775 | the note of a cancellation with any two words is within the size that is accepted |
| `LendingEngine.ApplyKeeps` | XDCxlending/order_processor.go:33-120 | every order keeps books, trades and indexes valid and the cover of the lock account |
| `LendingEngine.NonceDiscipline` | XDCxlending/order_processor.go:38-47 | an order applies exactly under its user's next nonce and never twice; a refused one changes only the nonce |
| `LendingEngine.CancelsExactly` | XDCxlending/order_processor.go:675-777 | a cancellation takes the named order off exactly if user and hash are its own and the fees can be paid, and nothing else off |
| `LendingEngine.RepaysExactly` | XDCxlending/order_processor.go:800-815 | a repayment by the borrower closes the trade exactly if the borrower can pay or the term is over |
| `LendingEngine.TopsUpExactly` | XDCxlending/order_processor.go:779-798 | a top-up by the borrower locks the whole quantity exactly if the borrower has it |
| `LendingEngine.TradesStay` | XDCxlending/order_processor.go:779-815 | an open trade changes only by a top-up or repayment of its own borrower through its own relayer |
| `LendingEngine.ChangedOnlyBy` | XDCxlending/order_processor.go:779-815 | over a whole block too: a trade gone or changed at its end was repaid or topped up by such an order |
| `LendingEngine.LoanIgnoresTakerId` | XDCxlending/order_processor.go:219-330 | settling does not depend on the taker's id |
| `LendingEngine.RecordedReplays` | XDCxlending/XDCxlending.go:96-134 | processing a recorded order does what processing the original did, exactly if the note of a cancellation is short enough to be accepted |
| `LendingEngine.UndoneReplays` | XDCxlending/order_processor.go:54-62 | a match that is undone is recorded, and replaying it leaves the same entries in the time index |
| `LendingEngine.NotesReplay` | XDCxlending/XDCxlending.go:96-134 | where fees and prices are words every recorded order replays |
| `LendingEngine.ReplayKeepsCollateral` | core/block_validator.go:162-187 | replaying a block keeps the lock account's balance less the locked amounts for every token |
| `LendingEngine.MatchOnBook` | XDCxlending/order_processor.go:123-217 | matching on the book of the order does what the run's step does, also when it fails |
| `LendingEngine.Apply` | XDCxlending/order_processor.go:33-120 | an order in place does what the specification says |
| `LendingEngine.ProcessOrderPending` | XDCxlending/XDCxlending.go:52-136 | what the proposer records replays from the same start to the same end, also the orders whose matches failed; the loop ends if every order decodes |
| `LendingEngine.ValidateLendingOrder` | core/block_validator.go:162-187 | the validator accepts exactly the blocks that replay, and ends in their state |
| `LendingRuns.RefusedChangesNothing` | XDCxlending/order_processor.go:53-80 | in every reachable state a rejected repayment or top-up changes nothing |
| `LendingPasses.StaleTimeEntry` | XDCxlending/lendingstate/statedb.go:608-620 | a match that is undone after a fill and leaves the time entry of the trade it had opened |
| `LendingPasses.ReopenedTrade` | XDCxlending/lendingstate/statedb.go:608-620 | a run in which the same trade id is opened again at that time, listed once and counted twice |
| `LendingPasses.PassAfterRun` | XDCxlending/XDCxlending.go:209-329 | the pass after any run keeps slack and indexes; after a run whose matches could only reach willing makers it settles every listed book, and finishes where prices and rates let it |
| `LendingPasses.PassAfterStaleEntry` | XDCxlending/XDCxlending.go:229-251 | the pass after the stale entry fails |
| `LendingPasses.PassAfterReopening` | XDCxlending/XDCxlending.go:229-251 | the pass after the reopened trade never ends |
| `LendingPasses.EightNeverEnds` | XDCxlending/XDCxlending.go:262-300 | a match at price 125 opens a trade that locks 8 units at liquidation price 91; once the price is 90 the pass never ends |
| `TopUpArithmetic.LandsAboveTarget` | XDCxlending/order_processor.go:1096-1104 | a top-up never lands below the floored 90% target |
| `TopUpArithmetic.NineUnitsLand` | XDCxlending/order_processor.go:1088-1146 | with nine units locked it lands from the target up to strictly below the current price |
| `TopUpArithmetic.NineIsExact` | XDCxlending/order_processor.go:1088-1146 | an amount lands at every price exactly if it is at least nine |
| `TopUpArithmetic.IdleTopUp` | XDCxlending/order_processor.go:1096-1104 | a top-up asks for nothing exactly when one unit more would overshoot |
| `TopUpArithmetic.SecondTopUpIsIdle` | XDCxlending/order_processor.go:1096-1104 | a top-up that did not land is followed by idle ones |
| `TopUpArithmetic.AutoTopUpResult` | XDCxlending/order_processor.go:1088-1110 | what an automatic top-up does to a trade, and that it succeeds exactly when the borrower can pay |
| `TopUpArithmetic.StuckTopUp` | XDCxlending/XDCxlending.go:263-300 | a trade that a top-up leaves above the price comes back with table, indexes and balances unchanged |
| `LiquidationSteps.RecallRaises` | XDCxlending/XDCxlending.go:302-307 | with ordered rates a recall raises the price of every trade it looks at |
| `LiquidationSteps.RecallStaysBelow` | XDCxlending/XDCxlending.go:302-307 | and never above the collateral price |
| `LiquidationSteps.CloseOne` | XDCxlending/XDCxlending.go:233-248 | a listed trade id without an open trade is refused, and an open trade that is over is closed |
| `LiquidationSteps.StrayRepaysEarly` | XDCxlending/XDCxlending.go:233-248 | a stray entry on a reused id repays a live trade before its term exactly if the borrower can pay, and stays to name no trade |
| `LiquidationSteps.DistributesOne` | XDCxlending/XDCxlending.go:233-248 | closing one more trade adds exactly its flows to what every account gained |
| `LiquidationSteps.TopUpPanics` | XDCxlending/order_processor.go:1096-1104 | an automatic top-up divides by zero exactly for a price below two or a trade without collateral |
| `LiquidationSteps.TopUpOne` | XDCxlending/order_processor.go:1088-1146 | an automatic top-up succeeds exactly if the borrower can pay, and then lowers the price or changes nothing |
| `LiquidationSteps.StubbornTopUp` | XDCxlending/XDCxlending.go:263-300 | a trade whose top-up does not land although its borrower can pay stays so through every top-up |
| `LiquidationSteps.StubbornLiquidate` | XDCxlending/XDCxlending.go:263-300 | and through every liquidation of another trade |
| `LiquidationSteps.StubbornOrSettles` | XDCxlending/XDCxlending.go:263-300 | where no borrower has two trades to top up or invests at a price, every top-up settles exactly if no trade is stubborn |
| `Liquidation.LendingBook.LiquidationTrade` | XDCxlending/order_processor.go:889-919 | the liquidation in place is the specified step |
| `Liquidation.LendingBook.LiquidationExpiredTrade` | XDCxlending/order_processor.go:818-886 | the settlement of an expired trade in place is the specified step |
| `Liquidation.LendingBook.ProcessRepayLendingTrade` | XDCxlending/order_processor.go:1148-1229 | the repayment in place is the specified step |
| `Liquidation.LendingBook.ProcessTopUpLendingTrade` | XDCxlending/order_processor.go:1112-1146 | the top-up in place is the specified step |
| `Liquidation.LendingBook.AutoTopUpTrade` | XDCxlending/order_processor.go:1088-1110 | the automatic top-up in place is the specified step |
| `Liquidation.LendingBook.ProcessRecallLendingTrade` | XDCxlending/order_processor.go:1231-1265 | the recall in place is the specified step |
| `Liquidation.LendingBook.LowestLiquidationTime` | XDCxlending/lendingstate/statedb.go:608-659 | the earliest time of a book that is still counted, and exactly its trades, which may be none |
| `Liquidation.LendingBook.HighestLiquidationPrice` | XDCx/tradingstate/statedb.go:647-672 | the highest liquidation price of a pair and exactly its trades |
| `Liquidation.LendingBook.SettleAtTime` | XDCxlending/XDCxlending.go:233-248 | the listed trades are closed one by one, with every account paid exactly what they owe it, up to one that is not open or not over |
| `Liquidation.LendingBook.SettleExpiredTrades` | XDCxlending/XDCxlending.go:229-251 | from any reachable state: a slot at time zero hides the book; otherwise it finishes exactly without strays and surplus before the block time, having closed exactly the expired trades, fails only on a stray, goes round forever only at a time that lists no trade, and halts only on a zero liquidation rate |
| `Liquidation.LendingBook.SettleBooks` | XDCxlending/XDCxlending.go:229-251 | so for all listed books together, and every account moves by exactly what the closed trades owe it |
| `Liquidation.LendingBook.SettleAtPrice` | XDCxlending/XDCxlending.go:264-298 | every trade of one price is liquidated, lowered or topped up by nothing, and a stubborn one stays; where all are idle nothing changes at all |
| `Liquidation.LendingBook.RoundAgain` | XDCxlending/XDCxlending.go:262-300 | once the price phase is stuck its next round changes nothing and finds the same price and trades again |
| `LiquidationSteps.IdleChangesNothing` | XDCxlending/order_processor.go:1088-1146 | topping up an idle trade succeeds and changes nothing |
| `LiquidationSteps.NineIsCalm` | XDCxlending/XDCxlending.go:262-300 | nine units on every automatic trade, set and ordered rates and a price that is not one make a pair end well |
| `Liquidation.LendingBook.SettleHighPrices` | XDCxlending/XDCxlending.go:262-300 | if it finishes no trade of the pair is above the collateral price; it finishes if every top-up lands or cannot be paid, never with a stubborn trade, and is stuck only where every trade at the highest price is topped up by nothing |
| `Liquidation.LendingBook.RecallTrades` | XDCxlending/XDCxlending.go:301-329 | the recall phase halts exactly on a zero rate, succeeds exactly if the recall price is above every trade it looks at, and then moves exactly those |
| `Liquidation.LendingBook.SettlePair` | XDCxlending/XDCxlending.go:253-329 | one pair touches no other; finished, it has no trade above its price; it fails only with unordered rates, halts only on a zero divisor, and sticks on a stubborn trade |
| `Liquidation.LendingBook.ProcessLiquidationData` | XDCxlending/XDCxlending.go:209-329 | from any reachable state the pass keeps slack, coverage and residue and opens nothing; finished, no listed trade is expired and none of a priced pair is above its price; a stray or surplus entry keeps it from finishing, and without them it ends otherwise only on prices and rates |
| `ValidatorShuffle.ShuffleMovesPositions` | contracts/utils.go:225-247 | the shuffle moves entries by position only |
| `ValidatorShuffle.ShuffleExtends` | contracts/utils.go:234-244 | one more entry is spliced into the assignment at the chosen index |
| `ValidatorShuffle.ShuffleIsSingleCycle` | contracts/utils.go:225-247 | for every random stream the result is a permutation with a single cycle |
| `ValidatorShuffle.NoFixedPoint` | contracts/utils.go:225-247 | with two or more entries none is assigned to itself |
| `ValidatorShuffle.ReachesAll` | contracts/utils.go:225-247 | following the assignment from any entry reaches every other |
| `ValidatorShuffle.GenM2FromRandomize` | contracts/utils.go:225-247 | the loop computes the shuffle, a single cycle without fixed points |
| `Rewards.BlockSigners` | contracts/utils.go:329-345 | exactly the masternodes that signed a block, each once |
| `Rewards.CountSignatures` | contracts/utils.go:327-355 | every account is credited with its counting signatures, and the total is their sum |
| `Rewards.CalculateRewardForSigner` | contracts/utils.go:363-384 | every signer gets its multiple of the reward per signature |
| `Rewards.RewardsSum` | contracts/utils.go:363-384 | all rewards sum to at most the chain reward, and less than one unit per signature is left |
| `Rewards.VoterCaps` | contracts/utils.go:417-427 | the voters' capacities, summed once each since TIP2019 |
| `Rewards.PayVoters` | contracts/utils.go:428-441 | the voters together get at most their part |
| `Rewards.GetRewardBalancesRate` | contracts/utils.go:405-461 | what a split pays in all: at most the reward, and all but one unit exactly after the tiered reward, or if the foundation does not own the signer, or with at most one unit to lose |
| `Rewards.FoundationLosesPart` | contracts/utils.go:442-461 | a foundation that owned the signer got 10 of a reward of 100 |

## Left out

- The databases, tries, batches and caches: maps and sets with atomic batch writes.
- EVM execution, token contracts, signatures and the verification of orders and headers: parameters.
- Price oracles and the conversion of cancellation fees: parameters.
- `insertChain`, side chains, event delivery, logs, metrics and rewinds of the head.
- The masternode cache and epoch-switch signals of a reorganisation.
- Lending orders of type Recall, which ApplyOrder matches like limit orders, and the mining of the recorded batches.
- Token existence and 256-bit overflow in the operations on open lending trades: both are only logged there.
- The truncation of token addresses in the hash of a trading pair: pairs are told apart.
- Indexers that depend on another indexer, and `AddKnownSectionHead`.
- The flush and the drain of the collection queue at shutdown, which drops markers by height.
- The trading and lending states in the garbage collection: whether they open is a parameter of adopting a known block.
- TradingSettlement.TradingLedger.PayFees: refuses where the registration contract owns less than the fees, because the
  source would let the contract's balance go below zero and balances are natural numbers here.
- TradingSettlement.TradingLedger.DoSettleBalance: refuses there too, for the same reason.
- LendingSettlement.LendingLedger.DoSettleBalance: refuses there too, for the same reason.
- Liquidation.LendingBook.ProcessLiquidationData: does not tell which of a stray and a surplus slot ends the pass when a
  book has both, because the order of their times and of the books decides it.
- Liquidation.LendingBook.SettleHighPrices: leaves open how it ends for a borrower with several trades above the price or
  who invests there, because the order in which a Go map is walked decides which top-up is still paid.
- Execution.ArchiveHeadExecuted: is stated for archive nodes, because a full node collects the states of old ancestors.
