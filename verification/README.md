# BlinkPredict, modelled and proved in Dafny

BlinkPredict is the backend of a prediction market: an in-memory matcher, a ledger of wallets and positions, a
pipeline that settles matches on chain, and a public feed of depth. This project models these five parts and proves
what they are for. `dafny verify dfyconfig.toml` checks all of it.

* **The matcher.** `OrderBook` is the book as it is built: an array of price levels, each a doubly linked list with a
  cached total, and cached best prices. Every command is proved to do what `BookModel` says on values, and `BookModel`
  to be one price-time sweep (`Matching`). `Rounding` has the arithmetic of money, `Batch` what a command reports,
  `MarketRun` what holds over any run of commands, and `Emitted` that what it hands over is what the ledger
  needs.
* **The funds ledger.** `Accounts` and `Deltas` treat one wallet, `Ledgers` all of them, `Inflight` and `FundsService`
  the messages. `Confluence`, `Pending`, `Conservation`, `Admission` and `Recovery` prove what holds over every history
  of messages, flushes and crashes. `FundsManager`, `FundsProcess` and `Projector` are the classes that do the work,
  each method proved against those functions.
* **The settlement lanes.** `Submissions` has the guarded rows, `Lanes` the steps over rows and lanes with crash and
  restart, `LaneRuns` what holds over every run, `LaneService` the service over the rows.
* **The settlement encoding.** `Intents`, `SettlementBatches`, `PreparedPayloads`, `SettlementArgs` and `TxEstimators`
  follow a match batch to the bytes that are signed, stored, sent and measured.
* **The public feed.** `DepthFeed`, `SequenceNumbers`, `FeedProtocol`, `Hub` and `PublicFeed` follow depth from the
  matcher's batches through publisher and connection to the rows a client shows.

Six promises do not hold of the code on all inputs. For each there is an input that breaks it and the condition under
which it holds: netting a wallet's fills is exact if and only if the wallet does not both buy and sell in the batch
(`Deltas.NettingIsExactIff`, `Deltas.TwoSidedStrands`); accepted buys may be refused later when a wallet buys in two
markets (`Admission.AcrossMarketsFails`, `Admission.OpenBuysSucceedIff`); the parts of a limit buy may take more than
its reserve (`Rounding.SplitOvershoots`, `OrderFunding.TakesOnlyItsOwnIff`); the final phase of a batch depends on order
when both verdicts arrive (`Confluence.BothKindsDisagree`, `Confluence.PhaseOfOneKind`); releasing an order a second
time, which a comment calls harmless, takes from other orders' locks (`Accounts.SecondReleaseTakesOthers`,
`Accounts.ReleasedTwiceIff`); a wallet without a name and positions in market 0 do not survive a crash
(`Recovery.UnnamedIsLost`, `Recovery.CrashIsInvisible`).

Hypotheses are named where they are used: `NoClamp` (a batch takes no more than is locked), `OneSided` (no wallet both
buys and sells in one batch), fresh order ids and prices from 1 to 99 (`MarketRun.Allowed`), and messages in stream
order for recovery.

## Model

| member | source | states |
|---|---|---|
| `Rounding.MachineCostExactIff` | Banckend/internal/matching/math.go:3-9 | The 64-bit ceiling `(a*b+div-1)/div` with `div = 100` is the true ceiling exactly when `lots*tick + 99` fits in 64 bits. |
| `Rounding.SpendRoundTrip` | Banckend/internal/matching/book.go:182-191 | Spending all that is left on whole lots (rounded down) costs (rounded up) exactly all that is left, and buys at least one lot if anything is left. |
| `Rounding.PartialBelowMaker` | Banckend/internal/matching/book.go:141-153 | When a maker costs more than the taker has left, what is left buys strictly fewer lots than the maker has, so the branch that trades a part never overtakes the maker. |
| `Rounding.ComplementCost` | Banckend/internal/matching/math.go:3-16 | The two sides of a complete set, at `tick` and `100 - tick`, cost its lots together, plus one unit exactly when the split is not even. |
| `Rounding.SplitTakesReserve` | Banckend/internal/funds/manager.go:501-518 | However a limit buy is split into fills and releases, the reserves of the parts add up to at least the reserve of the whole and at most one unit more per part after the first. |
| `Rounding.SlackIsUnused` | Banckend/internal/funds/manager.go:501-518 | What lots times price is short of a whole unit, by its remainder, is what the rounded cost charges and does not use. |
| `Rounding.SplitIsExactIff` | Banckend/internal/funds/manager.go:501-518 | The parts add up to exactly the reserve if and only if what each is short of a whole unit, read off the remainder of its lots times the price, adds up to less than a unit. |
| `Rounding.SplitOvershoots` | Banckend/internal/funds/manager.go:501-518 | The upper bound is reached, for any number of parts from 1 to 100. |
| `Matching.FillLotsInRange` | Banckend/internal/matching/book.go:140-163 | A fill is positive and at most the maker's lots, costs a spending taker at most what it has left, and a fill that leaves the maker something finishes the taker: the zero-lot branch is never taken. |
| `Matching.SweepTakesPrefix` | Banckend/internal/matching/book.go:109-180 | Strict priority: the makers met are a prefix of the queue in order, each expired, removed as a self-trade or traded by its own state; all but the last are gone, at most the last is cut, the rest is untouched; the sweep stops only if the taker is done, the queue empty or the next price does not cross. |
| `Matching.SweepKeepsTail` | Banckend/internal/matching/book.go:109-180 | What is left is the tail of the queue, with at most the amounts of its first order changed. |
| `Matching.SweepLeavesNoCross` | Banckend/internal/matching/book.go:109-180 | On a queue in price order, either the taker is done or nothing left in the queue crosses it. |
| `Matching.LotsTakerTradesMinimum` | Banckend/internal/matching/book.go:109-180 | A taker counted in lots trades exactly the lesser of what it asks and what eligible crossing makers offer. |
| `Matching.SpendTakerPaysExactly` | Banckend/internal/matching/book.go:140-163 | A market buy pays, over its fills, exactly what it set out to spend less what it has left. |
| `Matching.PriceProtection` | Banckend/internal/http/server.go:1140-1159 | For orders normalised to the YES book, whoever buys pays at most, and whoever sells receives at least, the price they signed, maker or taker. |
| `Matching.ClassificationSound` | Banckend/internal/matching/batcher.go:387-395 | On normalised orders the classification by action alone is sound: mint and burn are exactly the matches across outcomes, transfer exactly those within one. |
| `BookModel.WalkIsSweep` | Banckend/internal/matching/book.go:109-180 | The nested loops over price levels and over makers of a level do the same as one sweep of the whole side in price-time order: same queue, taker and events. |
| `BookModel.AppendIsInsert` | Banckend/internal/matching/book.go:312-342 | Joining the tail of one's own price level is insertion by price and then time into the whole side. |
| `BookModel.ExpiredPrefixSplits` | Banckend/internal/matching/book.go:387-407 | A tick takes off a level exactly its expired head: a prefix of expired orders, then the first good one and all behind it untouched. |
| `Batch.EnsureOrderKeepsInv` | Banckend/internal/matching/batcher.go:98-120 | Noting an order keeps the order list and the index map inverse, keeps every index already given, and gives the order a valid one. |
| `Batch.AddFillKeepsInv` | Banckend/internal/matching/batcher.go:143-160 | Adding a fill of a tradable pair keeps every fill sound: positive, priced 1 to 99, naming two different orders, with their class and value. |
| `Batch.RecordAllKeepsInv` | Banckend/internal/matching/batcher.go:98-186 | A whole sweep's events, recorded, keep the structure of the batch. |
| `Batch.RecordAllNotional` | Banckend/internal/matching/batcher.go:143-160 | The notionals a sweep adds to the batch are what its taker pays or is paid. |
| `Batch.PendingBatch.EnsureIndex` | Banckend/internal/matching/batcher.go:98-120 | The index handed out is the one the batch has for the order, old or new. |
| `Batch.PendingBatch.RecordFill` | Banckend/internal/matching/batcher.go:143-160 | The batch becomes the old one with the fill added. |
| `Batch.PendingBatch.RecordUpdate` | Banckend/internal/matching/batcher.go:175-186 | The batch becomes the old one with the update added. |
| `PriceLevels.PriceLevel.PushBack` | Banckend/internal/matching/book.go:312-342 | A level's linked list, its ghost sequence and its cached volume gain the order at the tail. |
| `PriceLevels.PriceLevel.Remove` | Banckend/internal/matching/book.go:285-300 | Unlinking an order anywhere keeps the list linked both ways, its order and its cached volume. |
| `PriceLevels.PriceLevel.Reduce` | Banckend/internal/matching/book.go:163-164 | A part traded lowers the order and the cached volume together. |
| `OrderBook.FixedArrayOrderBook.SweepLevel` | Banckend/internal/matching/book.go:127-173 | The inner loop over the linked makers of a level leaves the level, the taker and the batch as the functional sweep of its queue does. |
| `OrderBook.FixedArrayOrderBook.MatchAsks` | Banckend/internal/matching/book.go:109-180 | The outer loop leaves the asks, the taker and the batch as the walk over the levels does, and the cached best ask is the true one. |
| `OrderBook.FixedArrayOrderBook.MatchBids` | Banckend/internal/matching/book.go:193-271 | The same for an arriving sell, with the cached best bid. |
| `OrderBook.FixedArrayOrderBook.UpdateBestAsk` | Banckend/internal/matching/book.go:344-355 | The cached best ask is the lowest level with an order, or none. |
| `OrderBook.FixedArrayOrderBook.UpdateBestBid` | Banckend/internal/matching/book.go:357-368 | The cached best bid is the highest level with an order, or none. |
| `OrderBook.FixedArrayOrderBook.AddOrderToBook` | Banckend/internal/matching/book.go:312-342 | The order joins the tail of its level; the update and the level's new total are noted; the caches stay true. |
| `OrderBook.FixedArrayOrderBook.HandlePlaceOrder` | Banckend/internal/matching/book.go:78-107 | The heap book and the batch become what placing the order does to their values: refusal, sweep, refund or rest. |
| `OrderBook.FixedArrayOrderBook.SweepLevelO1` | Banckend/internal/matching/book.go:387-407 | One level under a tick loses its expired head, and the batch gains its updates and the new total. |
| `OrderBook.FixedArrayOrderBook.HandleTick` | Banckend/internal/matching/book.go:370-385 | A tick does this to all levels of both sides in turn. |
| `OrderBook.FixedArrayOrderBook.ProcessCommand` | Banckend/internal/matching/book.go:66-76 | Every command refines the functional matcher: list links, cached totals and cached best prices stay valid and the value of the book and batch is the model's. |
| `MarketRun.PlaceIsPriceTime` | Banckend/internal/matching/book.go:78-107 | Placing an order is one price-time sweep of the other side and, for a limit order with something left, one price-time insertion into its own. |
| `MarketRun.MarketBuyAccounted` | Banckend/internal/matching/book.go:78-107 | A market buy is accounted to the unit: the notionals of its fills plus the refund in its last update are its spend amount, and there is no refund exactly when it is filled. |
| `MarketRun.PlaceKeepsBookInv` | Banckend/internal/matching/book.go:78-180 | Placing keeps the book uncrossed and made of placed orders only. |
| `MarketRun.TickKeepsBookInv` | Banckend/internal/matching/book.go:370-407 | So does a tick. |
| `MarketRun.ReachableInv` | Banckend/internal/matching/book.go:66-107 | After any run of commands and batch hand-overs the book is uncrossed and valid and the batch is well formed. |
| `MarketRun.FillsAreProtected` | Banckend/internal/matching/batcher.go:143-160 | In every reachable batch a fill is positive, between different orders of different wallets with different indexes, rightly classified, and within both signed prices. |
| `MarketRun.DepthTicksExist` | Banckend/internal/matching/batcher.go:188-195 | Every depth change of a reachable batch is at a price from 1 to 99. |
| `MarketRun.DepthFollows` | Banckend/internal/matching/book.go:387-407 | However a run is cut into batches, a copy that applies each batch's depth as it is handed over, and then the open one, shows the total of every level. |
| `Accounts.ReserveMoves` | Banckend/internal/funds/manager.go:232-279 | A reservation succeeds exactly when enough is available, and moves exactly that from available to locked. |
| `Accounts.ReleasePreserves` | Banckend/internal/funds/manager.go:315-357 | A release, repeated or excessive, keeps available plus locked for cash and both outcomes, and everything pending. |
| `Accounts.ReserveThenRelease` | Banckend/internal/funds/manager.go:232-357 | Reserving an order and releasing it whole is no change. |
| `Accounts.ReleasedTwiceIff` | Banckend/internal/funds/service.go:958-991 | An order's end reaches the ledger in its batch and again by a message; the second release changes nothing, as the comment there promises, if and only if it asks for nothing or the first left nothing locked. |
| `Accounts.SecondReleaseTakesOthers` | Banckend/internal/funds/manager.go:315-357 | The input that breaks it: of two equal buys one is called off, told twice, and the other has no lock left. |
| `Deltas.DeltaParts` | Banckend/internal/funds/manager.go:560-635 | The delta of a wallet is proceeds less payments, and bought less sold with the sold kept apart, over its own fills. |
| `Deltas.FillsMakePending` | Banckend/internal/funds/manager.go:394-444 | Whatever is locked, fills make exactly the sale proceeds and the shares bought pending. |
| `Deltas.FillsUseLocks` | Banckend/internal/funds/manager.go:394-444 | With no clamp, the locks lose exactly what the delta says and the better price comes back at once. |
| `Deltas.NoClampIff` | Banckend/internal/funds/manager.go:394-444 | No fill is cut short if and only if the batch as a whole takes no more than is locked before it. |
| `Deltas.OneSidedIsExact` | Banckend/internal/funds/manager.go:560-635 | For a wallet that does not both buy and sell, the netted delta is what its fills made pending. |
| `Deltas.NettingIsExactIff` | Banckend/internal/funds/manager.go:604-630 | Netting a wallet's fills loses nothing if and only if the wallet does not both buy and sell in the batch. |
| `Deltas.ConfirmMoves` | Banckend/internal/funds/manager.go:639-687 | Confirming moves exactly what the fills made pending to available. |
| `Deltas.FailMoves` | Banckend/internal/funds/manager.go:689-745 | Failing takes it away and gives back what was paid and the shares that were sold. |
| `Deltas.ConfirmClearsPendingIff` | Banckend/internal/funds/manager.go:639-687 | A confirmed batch leaves nothing pending behind if and only if the wallet did not both buy and sell in it. |
| `Deltas.FailClearsPendingIff` | Banckend/internal/funds/manager.go:689-745 | Nor does a failed batch, if and only if the same holds. |
| `Deltas.TwoSidedStrands` | Banckend/internal/funds/manager.go:604-687 | A concrete wallet that sells and buys back in one batch keeps five units and ten shares pending for ever. |
| `Deltas.LocksAreSpentOrRefunded` | Banckend/internal/funds/manager.go:394-444 | Under price protection a lock is spent on the price paid or handed back, and on nothing else. |
| `Deltas.ApplyThenFail` | Banckend/internal/funds/manager.go:689-745 | Failing a batch gives back, out of whatever the account has become, all its fills took from the locks, and takes back all they made pending. |
| `Deltas.ApplyThenFailIff` | Banckend/internal/funds/manager.go:689-745 | A failed batch gives a wallet back all it took and takes back all it made pending if and only if the wallet did not both buy and sell in it. |
| `OrderFunding.MarketBuyEmptiesReserve` | Banckend/internal/funds/manager.go:315-444 | A market buy's fills and one release consume exactly its reserve. |
| `OrderFunding.LimitLegsTake` | Banckend/internal/funds/manager.go:394-444 | A limit buy's fills take the sum of their own reserves out of the lock, or all of it if there is less. |
| `OrderFunding.LimitBuyTakesReserve` | Banckend/internal/funds/manager.go:394-518 | Whatever else is locked, a limit buy's fills and the release of the rest take at least its reserve and at most one unit more for each fill: exactly the sum of their own reserves, or all that is locked if that is less. |
| `OrderFunding.FilledLimitBuyTakesReserve` | Banckend/internal/funds/manager.go:394-518 | The same for a limit buy filled in k parts, with at most k - 1 units more. |
| `OrderFunding.LoneLimitBuyEmptiesLock` | Banckend/internal/funds/manager.go:315-444 | With nothing but its own reserve locked, a limit buy takes exactly that, however it is split and wherever the rest is released. |
| `OrderFunding.TakesOnlyItsOwnIff` | Banckend/internal/funds/manager.go:394-518 | Among other reserves, a filled limit buy takes exactly its own if and only if its parts fall short of whole units by less than one in all, or there are no others. |
| `Ledgers.ApplyLegsIsMine` | Banckend/internal/funds/service.go:764-837 | Applying all fills of a batch in order does to each wallet what its own fills do. |
| `Ledgers.DeltaMapIsMine` | Banckend/internal/funds/manager.go:560-635 | The map of deltas holds, for exactly the wallets with fills, the sum over their own fills. |
| `Ledgers.SettleIsMine` | Banckend/internal/funds/manager.go:639-745 | Settling a batch settles each wallet by the sum of its own fills, in whatever order the map is walked. |
| `Inflight.InflightStore.RegisterEntry` | Banckend/internal/funds/inflight.go:90-102 | An entry is registered once; a second registration changes nothing. |
| `Inflight.InflightStore.AdvanceToSubmitted` | Banckend/internal/funds/inflight.go:104-126 | An entry that is not done becomes submitted; a done one is a conflict and stays. |
| `Inflight.InflightStore.AdvanceToTerminal` | Banckend/internal/funds/inflight.go:128-150 | The first verdict transitions and hands out the raw batch; the same again is a repeat and the other a conflict, and neither changes anything. |
| `Inflight.InflightStore.AddPendingTerminal` | Banckend/internal/funds/inflight.go:174-184 | News of an unknown batch waits, and only news of higher priority replaces it. |
| `Inflight.InflightStore.EvictTerminal` | Banckend/internal/funds/inflight.go:152-161 | Eviction drops the raw batch of done entries up to the snapshot, and nothing else. |
| `FundsService.LedgerIsJournal` | Banckend/internal/funds/service.go:764-1069 | After any history the ledger is the effects of its journal, performed in order on the first ledger. |
| `FundsService.ExactlyOnce` | Banckend/internal/funds/service.go:764-956 | For any order and repetition of messages, the journal holds for a batch: nothing, its application, or its application and one settlement of the same batch, as its entry says; an entry that is not done still holds its batch. |
| `FundsService.ReservedAtMostOnce` | Banckend/internal/funds/service.go:695-762 | Over every history a submit key is reserved at most once: after one message has answered it, no other under the same key changes the ledger. |
| `Confluence.PhaseIs` | Banckend/internal/funds/inflight.go:90-195 | Where a batch stands after any history, as a function of which messages came first. |
| `Confluence.PhaseOfOneKind` | Banckend/internal/funds/inflight.go:90-195 | With one kind of verdict, the phase depends on which messages came, not on their order or number. |
| `Confluence.Confluent` | Banckend/internal/funds/service.go:764-956 | Histories that bring the same news of a batch, with one kind of verdict, give it the same phase and the same effects, whatever else they contain. |
| `Confluence.SameLedger` | Banckend/internal/funds/service.go:764-956 | Histories of one batch alone end in the same ledger. |
| `Confluence.BothKindsDisagree` | Banckend/internal/funds/inflight.go:128-150 | With both verdicts order matters: the first after the batch stays, whatever follows. |
| `Pending.NeverCut` | Banckend/internal/funds/manager.go:639-745 | While the pending amounts are the sums over the batches in flight, settling any of them never meets a floor. |
| `Pending.PendingIsInFlight` | Banckend/internal/funds/service.go:764-956 | For one-sided batches, in every reachable state a wallet's pending cash is its sale proceeds over the batches in flight, and its pending shares are the shares it bought in them. |
| `Pending.ReachableNeverCut` | Banckend/internal/funds/manager.go:639-745 | So in every reachable state the caps of confirm and fail cut nothing. |
| `Pending.PendingNonNegative` | Banckend/internal/funds/projector.go:480-486 | And nothing pending is negative, which is what lets a row clamp it. |
| `Pending.FailedBatchGivesBack` | Banckend/internal/funds/manager.go:689-745 | A batch that fails after any further history, with other batches applied and settled in between, gives every wallet back all it took from the locks. |
| `Conservation.FillDrift` | Banckend/internal/matching/batcher.go:387-395 | A fill moves total YES and total NO alike; a transfer keeps cash, and a mint or burn misses cash plus sets by at most one unit. |
| `Conservation.BatchDriftBound` | Banckend/internal/funds/manager.go:394-444 | A batch misses by at most one unit for each fill that mints or burns, and moves total YES and total NO alike. |
| `Conservation.BatchesAre` | Banckend/internal/funds/service.go:764-785 | The batches of a history are exactly those first brought under their ids. |
| `Conservation.Conserved` | Banckend/internal/funds/service.go:764-1045 | Over any history cash plus YES shares is what it was, plus deposits, less withdrawals, plus the drift of exactly those batches of the history that have not failed; failed batches leave no trace; YES less NO stays in every market. |
| `Conservation.DriftIsBounded` | Banckend/internal/funds/manager.go:394-518 | So over the run it misses by at most the number of mint and burn fills in the batches of the history in flight or confirmed. |
| `Emitted.HandedIsProtected` | Banckend/internal/matching/batcher.go:143-160 | Every reachable batch is one that conservation counts: it trades or makes or breaks whole sets, charges no buy more than its lock holds for it, and asks of a wallet only that its locks hold what its fills use in all. |
| `Emitted.MarketBuyPaysItsWay` | Banckend/internal/matching/book.go:78-107 | A market buy's own legs of the batch and the refund of its last update are its spend amount, so applied to the ledger they empty its reservation exactly and cost only what was paid. |
| `Admission.PendingReserveStore.Mark` | Banckend/internal/funds/pending_reserve.go:37-52 | Both maps gain the hold, unless the submit or the wallet has no name. |
| `Admission.PendingReserveStore.Delete` | Banckend/internal/funds/pending_reserve.go:54-85 | The hold leaves both maps, each amount floored at nought, and an empty aggregate disappears. |
| `Admission.PendingReserveStore.Apply` | Banckend/internal/funds/pending_reserve.go:87-111 | A wallet is seen with what is held already taken off its available amounts. |
| `Admission.MarkKeepsSum` | Banckend/internal/funds/pending_reserve.go:37-52 | The aggregate of each wallet and market stays the sum over its outstanding submits. |
| `Admission.DeleteKeepsSum` | Banckend/internal/funds/pending_reserve.go:54-85 | It stays the sum when a hold is taken back, so the floor never cuts. |
| `Admission.CarriedOutOnce` | Banckend/internal/funds/service.go:695-743 | Carrying out a reservation marks its key, and a marked key has no effect whatever order comes with it. |
| `Admission.CarriedOutAtMostOnce` | Banckend/internal/funds/service.go:610-743 | Over every run of the desk a key is carried out at most once, even if it is submitted again. |
| `Admission.MarksStay` | Banckend/internal/funds/service.go:695-762 | Marks are never lost. |
| `Admission.AcceptedSellsSucceed` | Banckend/internal/funds/service.go:610-743 | After any run of the desk, every accepted sell still open can be reserved. |
| `Admission.AcceptedBuysSucceed` | Banckend/internal/funds/service.go:610-743 | So can every accepted buy of a wallet that buys in one market only and withdraws nothing meanwhile. |
| `Admission.AcrossMarketsFails` | Banckend/internal/funds/pending_reserve.go:87-111 | With two markets it fails: two buys are accepted on funds for one, and the second reservation is refused. |
| `Admission.AllSucceedIff` | Banckend/internal/funds/manager.go:232-279 | A wallet's buys, in any markets, all succeed if and only if together they cost no more than it has available. |
| `Admission.OpenBuysSucceedIff` | Banckend/internal/funds/service.go:610-743 | At any moment of the desk, all open buys of a wallet, in any markets and any order, can be carried out if and only if together they cost no more than it has available. |
| `FundsManager.Manager.ReserveOrder` | Banckend/internal/funds/manager.go:232-279 | The ledger and the dirty index become what a reservation makes of them, or stay, with the error. |
| `FundsManager.Manager.ReleaseOneOrder` | Banckend/internal/funds/manager.go:315-357 | The same for a release. |
| `FundsManager.Manager.ApplyFillForOrder` | Banckend/internal/funds/manager.go:394-444 | The same for one side of a fill. |
| `FundsManager.ComputeBatchDeltas` | Banckend/internal/funds/manager.go:560-635 | The loop over fills computes the map of summed deltas. |
| `FundsManager.Manager.ApplySettlementByBatch` | Banckend/internal/funds/manager.go:639-745 | Walking the map in any order settles every wallet by its own delta. |
| `FundsManager.Manager.CollectAndClearDirty` | Banckend/internal/funds/manager.go:763-797 | Exactly what is flagged is collected, as it is in memory, and the flags and the queue are cleared. |
| `FundsManager.Manager.RestoreDirty` | Banckend/internal/funds/manager.go:799-820 | Exactly what was collected is flagged and queued again, each once. |
| `FundsProcess.Service.HandleSubmit` | Banckend/internal/funds/service.go:610-693 | A submit not seen before is accepted exactly if its reservation would succeed on what is not held yet, and is then held; one seen before or without a key is dropped. |
| `FundsProcess.Service.HandleReserved` | Banckend/internal/funds/service.go:695-743 | The service steps to the model's next state, and the hold is gone. |
| `FundsProcess.Service.HandleReserveRejected` | Banckend/internal/funds/service.go:745-762 | The same when the reservation was turned down. |
| `FundsProcess.Service.HandleMatchBatch` | Banckend/internal/funds/service.go:764-837 | A batch is applied once; what waited for it is then acted on. |
| `FundsProcess.Service.HandleSettlementSubmitted` | Banckend/internal/funds/service.go:839-873 | The phase advances, or the news waits. |
| `FundsProcess.Service.ApplyTerminal` | Banckend/internal/funds/service.go:917-956 | The first verdict settles the raw batch; an unknown batch's verdict waits. |
| `FundsProcess.Service.HandleSettlementEnded` | Banckend/internal/funds/service.go:875-915 | The service steps to the model's next state. |
| `FundsProcess.Service.HandleOrderReleased` | Banckend/internal/funds/service.go:963-991 | The service steps to the model's next state. |
| `FundsProcess.Service.HandleDepositConfirmed` | Banckend/internal/funds/service.go:993-1016 | A deposit is credited once. |
| `FundsProcess.Service.HandleWithdrawConfirmed` | Banckend/internal/funds/service.go:1018-1045 | A withdrawal is debited once. |
| `Projector.ProjectorLoop.CaptureFlushState` | Banckend/internal/funds/projector.go:144-181 | A capture takes exactly what is flagged and the rest of the state at one event position, or nothing if nothing changed. |
| `Projector.Database.FlushPostgres` | Banckend/internal/funds/projector.go:190-388 | One transaction writes all rows of a flush, except those of market 0, and its checkpoint, or nothing. |
| `Projector.ProjectorLoop.FlushOnce` | Banckend/internal/funds/projector.go:102-142 | A flush that commits writes what was captured; one that fails flags all of it again; if only the cache fails, both. |
| `Recovery.FailKeeps` | Banckend/internal/funds/projector.go:102-142 | A failed flush loses no update. |
| `Recovery.RowsLagOnlyWhereFlagged` | Banckend/internal/funds/manager.go:763-874 | At any time, any wallet with a name and any position outside market 0 that is not flagged is, as in memory, in the flush under way or else in its row. |
| `Recovery.CrashIsInvisible` | Banckend/internal/funds/service.go:153-364 | In every run, through flushes, failed flushes and crashes at any point, the cash of every wallet with a name, its positions outside market 0 and the phases are those of the run without a crash over the messages handled so far, whatever the messages do to the rest. |
| `Recovery.CaughtUpRunsAgree` | Banckend/internal/funds/service.go:315-364 | Two runs over one log that have caught up agree, whatever crashed in either. |
| `Recovery.UnnamedIsLost` | Banckend/internal/funds/manager.go:839-851 | The name is needed: a deposit without a wallet's name is gone after a crash, though its message counts as handled. |
| `Submissions.SubmissionRepo.UpsertQueued` | Banckend/internal/settlement/submission_repo.go:78-129 | A row is inserted queued with its lane status, or left as it is if its id is taken. |
| `Submissions.SubmissionRepo.LoadNextByMarket` | Banckend/internal/settlement/submission_repo.go:131-215 | The oldest active row of the market with the status, or none if there is none. |
| `Submissions.SubmissionRepo.MarkPreparedCAS` | Banckend/internal/settlement/submission_repo.go:275-291 | Applied exactly if the row is queued and active. |
| `Submissions.SubmissionRepo.MarkSubmittedCAS` | Banckend/internal/settlement/submission_repo.go:256-273 | Applied exactly if the row is prepared and active; it then holds the signature. |
| `Submissions.SubmissionRepo.MarkProcessedCAS` | Banckend/internal/settlement/submission_repo.go:322-338 | Applied exactly if the row is submitted under this signature. |
| `Submissions.SubmissionRepo.MarkConfirmedCAS` | Banckend/internal/settlement/submission_repo.go:304-320 | Applied exactly if the row is processed under this signature. |
| `Submissions.SubmissionRepo.ReplaceSignatureCAS` | Banckend/internal/settlement/submission_repo.go:431-448 | Applied exactly if the row is submitted under the old signature. |
| `Submissions.SubmissionRepo.MarkFailedAndPauseQueued` | Banckend/internal/settlement/submission_repo.go:385-429 | Applied exactly if the row is submitted or processed under this signature; it fails and every active waiting row of its market is paused. |
| `Submissions.SubmissionRepo.MarkFailedBeforeSubmitAndPauseQueued` | Banckend/internal/settlement/submission_repo.go:340-383 | The same for a row that still waits. |
| `Submissions.SubmissionRepo.FailAndPause` | Banckend/internal/settlement/submission_repo.go:340-429 | The second update pauses every active waiting row of the failed row's market and leaves all others alone. |
| `Lanes.StepKeeps` | Banckend/internal/settlement/service.go:416-882 | Every handler, transaction, crash and restart keeps the invariant: paused lanes are those with a paused row, an open lane is busy with its market's submitted row and its submitter, and whatever was submitted is older than whatever waits. |
| `LaneService.StepLeavesInv` | Banckend/internal/settlement/service.go:416-882 | So every method of the service that takes a step of the protocol leaves rows and lanes within the invariant. |
| `LaneRuns.AtMostOneSubmitted` | Banckend/internal/settlement/service.go:492-520 | In every reachable state, through restarts, a market has at most one submitted row. |
| `LaneRuns.SubmittedInOrder` | Banckend/internal/settlement/service.go:492-611 | The rows of a market are submitted in the order they were created. |
| `LaneRuns.NothingLeftBehind` | Banckend/internal/settlement/submission_repo.go:174-215 | Nothing active and older still waits once a row has been submitted. |
| `LaneRuns.MovesBySignature` | Banckend/internal/settlement/submission_repo.go:304-448 | A submitted or processed row changes only by a step that names the signature it stores, and then only in the way that step says. |
| `LaneRuns.TerminalForGood` | Banckend/internal/settlement/submission_repo.go:256-448 | A confirmed or failed row is the same row after any further run. |
| `LaneRuns.PausedForGood` | Banckend/internal/settlement/service.go:832-882 | Once a market has a paused row, no further run, through restarts, submits anything in it. |
| `LaneRuns.NothingAfterFailure` | Banckend/internal/settlement/service.go:832-882 | Once a row of a market has failed, nothing more is submitted in that market. |
| `LaneService.Service.HandleFetched` | Banckend/internal/settlement/service.go:323-399 | A fetched batch is queued, paused if its lane is, and its market is to be prepared if it is active. |
| `LaneService.Service.PrepareMarket` | Banckend/internal/settlement/service.go:416-468 | The oldest queued row is prepared, or refused as too large, or tried again later. |
| `LaneService.Service.TryScheduleMarket` | Banckend/internal/settlement/service.go:492-520 | An idle, open lane takes the oldest prepared row of its market. |
| `LaneService.Service.SubmitMatch` | Banckend/internal/settlement/service.go:522-611 | A submitter submits its row exactly if it is still prepared and active and was signed, and otherwise lets its lane go or fails the row. |
| `LaneService.Service.FailBeforeSubmit` | Banckend/internal/settlement/service.go:859-882 | The row fails, its market is paused, and the lane that was busy with it is let go. |
| `LaneService.Service.ReleaseLaneByMatchEvent` | Banckend/internal/settlement/service.go:1135-1148 | The search through the lanes lets go of the row's lane and no other. |
| `LaneService.Service.ProcessSubmission` | Banckend/internal/settlement/service.go:788-810 | The row is processed, its lane is free and, unless paused, its market is scheduled again. |
| `LaneService.Service.ConfirmSubmission` | Banckend/internal/settlement/service.go:812-830 | The row is confirmed under its signature. |
| `LaneService.Service.FailSubmission` | Banckend/internal/settlement/service.go:832-857 | The row fails under its signature, its market is paused in rows and lane, and the lane is let go if asked. |
| `LaneService.Service.ResignSubmission` | Banckend/internal/settlement/service.go:748-786 | The signature is replaced if it is still the one known. |
| `LaneService.Service.AdoptSubmitted` | Banckend/internal/settlement/service.go:971-985 | An idle lane takes up a row read as submitted. |
| `LaneService.Service.RecoverState` | Banckend/internal/settlement/service.go:251-296 | After a crash the lanes are again those the rows call for, and the markets with prepared or queued active rows are to be scheduled or prepared. |
| `Intents.ParseAfterSerialize` | Banckend/internal/settlement/intent.go:51-92 | Every intent is read back from its 118 bytes. |
| `Intents.SerializeAfterParse` | Banckend/internal/settlement/intent.go:51-92 | Exactly the 118-byte strings with legal flags are read, and each is written back byte for byte. |
| `Intents.LeRoundTrip` | Banckend/internal/settlement/intent.go:113-137 | Little-endian bytes read back as the number, if it fits. |
| `Intents.FromLeRoundTrip` | Banckend/internal/settlement/intent.go:113-137 | And the number is written as the same bytes. |
| `Intents.ParseOrderIntent` | Banckend/internal/settlement/intent.go:64-92 | Walking the offset reads the fields where they are. |
| `SettlementBatches.DividingBackFindsOverflow` | Banckend/internal/settlement/submission.go:540-546 | Dividing the wrapped product back finds exactly the products that do not fit in 64 bits. |
| `SettlementBatches.NotionalExactIff` | Banckend/internal/settlement/submission.go:515-538 | The least notional is the spend of a market buy and otherwise the true ceiling, exactly when the product fits. |
| `SettlementBatches.ContiguousIffInPlace` | Banckend/internal/settlement/submission.go:92-102 | Sorted by index, orders stand at their own positions exactly if every index occurs. |
| `SettlementBatches.ValidateIntent` | Banckend/internal/settlement/submission.go:321-367 | The checks in turn accept exactly the intents that agree with the order executed. |
| `SettlementBatches.BuildSubmissionBatch` | Banckend/internal/settlement/submission.go:78-146 | A match batch is built exactly if it is accepted; every order then stands at its index with its own intent, every fill where it was, and the users are those of the orders, each once. |
| `SettlementBatches.MatcherStructureAccepted` | Banckend/internal/settlement/submission.go:89-145 | A batch the matcher can reach, with at most 255 orders and 32-bit amounts, is never refused for its structure. |
| `PreparedPayloads.BuiltIsSound` | Banckend/internal/settlement/prepared_payload.go:62-167 | Whatever is built meets every check made on reading. |
| `PreparedPayloads.EncodePreparedPayload` | Banckend/internal/settlement/prepared_payload.go:31-60 | Encoding never refuses, and stores each part as it is. |
| `PreparedPayloads.DecodePreparedPayload` | Banckend/internal/settlement/prepared_payload.go:62-167 | Exactly the readable payloads are read, as what they store. |
| `PreparedPayloads.SameUsersIff` | Banckend/internal/settlement/prepared_payload.go:133-140 | With all users of orders listed, comparing the two counts finds exactly the lists that name somebody without an order. |
| `PreparedPayloads.ReadAfterWrite` | Banckend/internal/settlement/prepared_payload.go:31-167 | A sound submission is read back as it was written. |
| `PreparedPayloads.WriteAfterRead` | Banckend/internal/settlement/prepared_payload.go:31-167 | A payload that is read is written back as it was, and what is read is sound. |
| `PreparedPayloads.BuiltComesBack` | Banckend/internal/settlement/service.go:432-468 | What is built from a match batch, with any orders marked warm, is stored and read back unchanged. |
| `SettlementArgs.FillSlots` | Banckend/internal/settlement/submission.go:431-451 | Every slot names its order's user and, exactly if the order is cold, its own witness; no index of a witness is the sentinel. |
| `SettlementArgs.EncodeSettleMatchBatchArgs` | Banckend/internal/settlement/submission.go:417-470 | Exactly the encodable batches are encoded, to `21 + 2*orders + 22*cold + 7*fills` bytes. |
| `SettlementArgs.SlotAt` | Banckend/internal/settlement/submission.go:452-454 | Every slot is read back at its own offset. |
| `SettlementArgs.WitnessAt` | Banckend/internal/settlement/submission.go:455-462 | So is every witness, field by field. |
| `SettlementArgs.FillAt` | Banckend/internal/settlement/submission.go:463-468 | So is every fill. |
| `SettlementArgs.CountsAt` | Banckend/internal/settlement/submission.go:417-464 | Each of the three lists is preceded by its own length, exactly as long as that fits in four bytes. |
| `SettlementArgs.SoundIsEncodable` | Banckend/internal/settlement/submission.go:417-451 | Whatever is read back from its stored form can be encoded. |
| `TxEstimators.BuildInstructions` | Banckend/internal/settlement/submission.go:148-205 | The instructions of a batch have just the numbers of accounts and bytes that its shape has. |
| `TxEstimators.BuildSynthetic` | Banckend/internal/solana/settlement_tx_estimator.go:152-197 | So have the synthetic ones: the estimate is for exactly what is built. |
| `TxEstimators.EncodeSynthetic` | Banckend/internal/solana/settlement_tx_estimator.go:199-236 | The synthetic arguments have the length of the real ones of the same shape. |
| `TxEstimators.SoundHasShape` | Banckend/internal/settlement/service.go:1397-1410 | A sound submission has a valid shape. |
| `TxEstimators.Estimator.Estimate` | Banckend/internal/solana/settlement_tx_estimator.go:70-94 | A valid shape is estimated, the same from the cache as computed, and an invalid one refused. |
| `TxEstimators.Estimator.MaxFillsWithinLimit` | Banckend/internal/solana/settlement_tx_estimator.go:96-124 | If more fills never make a transaction smaller, the search finds the most fills up to the ceiling that fit; if not even none fit it says none and has no estimate; it errs exactly on invalid shapes it has to try. |
| `DepthFeed.ApplyAt` | Banckend/internal/pusher/market_state.go:173-193 | After any updates a price shows what was last said about it, or what it showed. |
| `DepthFeed.SameLastSameDepth` | Banckend/internal/pusher/service.go:96-123 | Updates that finally say the same make every depth the same. |
| `DepthFeed.CompressDepthUpdates` | Banckend/internal/pusher/service.go:96-123 | The compressed updates finally say the same as the given ones, each price once. |
| `DepthFeed.MarketState.ApplyMatchEvent` | Banckend/internal/pusher/market_state.go:173-240 | A batch moves the publisher on by one, to its depth with the delta it sends applied. |
| `DepthFeed.MarketState.SnapshotPayload` | Banckend/internal/pusher/market_state.go:129-171 | A snapshot lists all volumes above zero, bids from the top, asks from the bottom, with the best prices, at the publisher's number. |
| `DepthFeed.ListsUnique` | Frontened/hooks/useMarketPublicFeed.ts:222-227 | A ladder has one listing, so whoever lists the same depth shows the same rows. |
| `DepthFeed.ApplyDepthLevels` | Frontened/hooks/useMarketPublicFeed.ts:206-235 | A client that shows a depth shows, after a delta, that depth with the delta applied, a volume of zero taking its price off. |
| `PublicFeed.PublishedTicksExist` | Banckend/internal/pusher/service.go:96-123 | Every delta published of a market's batches is at prices from 1 to 99, as the client's depth needs it. |
| `SequenceNumbers.CompareIsNumeric` | Frontened/hooks/useMarketPublicFeed.ts:168-182 | Comparing by length and then by characters, after dropping blanks and zeros, compares the numbers; anything but digits counts as nought. |
| `SequenceNumbers.BlanksDoNotCount` | Frontened/hooks/useMarketPublicFeed.ts:168-172 | Digits with any blanks before and after them count as what they print. |
| `SequenceNumbers.DecimalPrints` | Banckend/internal/pusher/market_state.go:230-234 | A printed number reads as itself. |
| `SequenceNumbers.FilterIsNumeric` | Frontened/hooks/useMarketPublicFeed.ts:105-109 | So the client drops exactly the deltas that are no newer than what it has. |
| `FeedProtocol.StepKeeps` | Banckend/internal/pusher/hub.go:276-359 | Under every interleaving, each connection's deltas are in place: sent, taken, pending or still to be offered, without a gap. |
| `FeedProtocol.LaterIsTail` | Banckend/internal/pusher/hub.go:342-348 | Of a run of pending deltas, those newer than the snapshot are its tail. |
| `FeedProtocol.ClientsAreExact` | Banckend/internal/pusher/hub.go:91-359 | Whatever the interleaving and whatever the client had before, once anything reaches it over a connection it has applied a snapshot and then exactly the deltas after it, in order, and shows the publisher's depth at its number. |
| `FeedProtocol.NothingIsMissed` | Banckend/internal/pusher/hub.go:324-359 | A connection that is not lost and has taken all it was sent has the publisher's latest number and depth. |
| `Hub.Connection.EnqueueRaw` | Banckend/internal/pusher/hub.go:311-322 | A message goes into the queue, or the full queue costs the connection. |
| `Hub.Connection.EnqueueMarket` | Banckend/internal/pusher/hub.go:324-336 | A delta waits while the connection bootstraps and is sent on otherwise. |
| `Hub.Connection.TakePending` | Banckend/internal/pusher/hub.go:341-353 | A round takes the pending deltas newer than the snapshot, or goes live if there are none. |
| `Hub.Connection.FinishMarketBootstrap` | Banckend/internal/pusher/hub.go:338-359 | With nobody publishing meanwhile the client is sent the snapshot and all that waited and is newer, unless they do not fit the queue. |
| `PublicFeed.PublishedIsShown` | Banckend/internal/pusher/hub.go:155-169 | Publishing every batch handed over, compressed, makes the publisher's depth the one that follows the market. |
| `PublicFeed.CaughtUpClientShowsTheBook` | Banckend/internal/pusher/hub.go:155-169 | End to end: with every batch published and the open one empty, a caught-up client shows the total of every level of the book. |

## Left out

- Amounts are unbounded naturals; 64-bit wrap-around is modelled only in `Rounding.MachineCostExactIff` and in the overflow test of the settlement notional.
- Each message handler, book command, transaction and lane step is atomic, and the goroutines, locks, timers and channels around them are not modelled; the feed protocol, whose steps interleave, is the exception.
- The clock tick that shares the book with the command loop: a tick is one more command.
- Between the transaction that fails a row and the pausing of its lane in memory a batch of the same market may be ingested as active; the model takes both as one step.
- Rows of one insert share a creation time in the database; the model gives every row its own.
- Lanes.Adopt: any row may be taken up by an idle lane, which covers rows read before they moved on; the watchers that poll for signatures are steps that may happen at any time.
- Retries, errors of the database and of the chain, and republication of events: steps that change nothing modelled.
- The shards of the ledger are one map; a wallet and a market make a pair where the code joins strings, and a market's number and its address are one identifier.
- Wallet names and submit keys arrive trimmed.
- `RestoreOrder`, the order pool and the map of orders by id, which nothing modelled reads.
- Seeding at first start, `RecoverOrderLock`, `ApplyChainLedger`, `DeletePosition`, `PurgeTerminal` and the settlement of a whole wallet: not on the paths modelled.
- JSON, hex, base64 and base58 are identities between values and their texts, and text that does not decode is a value that is refused; hashes and addresses derived from keys are not modelled.
- SettlementBatches.BuildSubmissionBatch: tells apart only a batch without fills and a batch refused, not the reasons for refusing; equal order indexes are sorted in some order, which only the message of the refusal shows.
- PreparedPayloads.DecodePreparedPayload: tells apart what is read and what is refused, not the reasons for refusing.
- TxEstimators.Estimator.Estimate: assembling a transaction from instructions is some function of their sizes; address tables and repeated accounts are not modelled.
- TxEstimators.Estimator.MaxFillsWithinLimit: that function is taken to grow with the fills.
- LaneService.Service.RecoverState: rows found submitted are taken up and moved on by separate steps (`LaneService.Service.AdoptSubmitted`), and nothing is published again.
- Hub.Connection.FinishMarketBootstrap: states what one call does with nobody publishing meanwhile; `FeedProtocol` has the interleavings.
- Emitted.HandedIsProtected, Emitted.MarketBuyPaysItsWay and MarketRun.FillsAreProtected: batches of more than 65536 orders, whose 16-bit indexes repeat, are excluded; a batch is due once it has 96 orders, so only one command that meets tens of thousands reaches them.
- Recent trades and price history in snapshots and deltas; market metadata in the feed.
- DepthFeed.ApplyDepthLevels: volumes are exact where the client's numbers round above 2 to the 53rd, and deltas at ticks above 100, which a market never publishes (`PublicFeed.PublishedTicksExist`), are excluded.
- The feed loads a market's first depth before its first delta, and that depth agrees with the stream; leaving a room and closing a connection are one step, losing it.
- HTTP handlers other than the normalisation to the YES book, accounts and authentication, query engines, wallets on chain, the program on chain, configuration, logging and the user interface.
