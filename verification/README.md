# Clear DeFi exporter: a verified model

The exporter turns decoded EVM logs, delivered at least once, into a ledger of SQL tables: LP, IOU and
pool balances and supplies, a reserve's token holdings, daily valuations, governance settings and Curve
pools. Each log is applied in one transaction; the registry that routes logs to handlers is kept in
memory, outside that transaction. This project models that machine and proves the promises its
documentation makes about whole runs: effects happen exactly once, supplies are conserved, holdings are
the sums of declared flows, and stored valuations agree with the live views.

## How it is organised

| module | what it holds |
|---|---|
| Addresses, Options, Text, Sums | normalized addresses, ASCII string helpers, finite sums |
| Kinds, Tables | contract kinds, table rows, logs and events |
| Valuation, ViewInputs | the two views and the snapshot statements as functions of the tables; what one reserve's view reads |
| CurvePools, Settings, Upserts | pool resolution, the generated settings upsert |
| Effects | what each event does to the ledger: the specification of the handlers |
| Machine | deliveries with failures and restarts: the specification of `NewLogEvent` and `Init` |
| Exporter | the plugin itself: a class whose methods run statement by statement, proved against Effects and Machine |
| Frames | which event touches which table |
| Delivery, ContractRows | exactly-once, routing, restarts; what the contract table holds |
| Accounting, Positions | conservation, the IOU mirror, positions and legs |
| Holders, FlowAccounting, Counters, SettingsFold, PoolColumns, RegistryColumns | every stored figure read off the events: holders' balances, holdings, counters, prices, settings, pools, reserves, assets, IOUs; which logs fail |
| NetValue | what the views' figures are: NAV net of debt, scales, prices, worth of a leg |
| EndOfDay, AssetEndOfDay | which snapshot each stored day is |
| History, Coherence, DayEnds, Freshness, SupplyColumn, Traces | the daily histories against the views; the same conditions read off events |
| Parity | when the two histories of a base reserve agree |
| Scenes, Depegs, Staleness | small runs on an empty database: two with tokens off par, two that leave a stored row stale |
| Pricing | weighted mean, no over-claim, nested truncation |
| AbiNames | how the protocol's contract names classify |
| Discovery | pairing deployments with pools, the two discovery events of one pool |
| ArrayArgs | the two renderings of an array argument |

A run is a list of steps, each the delivery of a log with a choice of the call that fails (or none), or a
restart. `Delivery.Truth` assigns every address its true kind; `Agrees` says that a log's ABI name and the
contract it makes known (`Delivery.Discovers`, read off the log's own fields) match it, `AgreesConfig` the same of the configuration. `Effective` is the
list of logs whose transaction committed, in commit order, and `Replay` is one failure-free pass. What the
chain or the database answers while a log is processed (a receipt, the pick of an unordered `LIMIT 1`) is
part of the delivered log, so every statement holds for every answer.
Conservation (`Accounting.AlwaysConserved`) and dense positions (`Positions.PositionsAlwaysKept`) need no
such agreement.

## Where the code and its comments differ

- handlers.go:222-232 says meta reserves' holdings are not reconstructed; handlers.go:457-460 books them.
  The model follows the code.
- schema.go:353-357 says the value and asset histories agree block for block. They do for meta reserves
  (`History.PartsAlwaysAgree`). For base reserves the aggregate is at par and the parts are at redemption
  prices: `Parity.AgreesIffDriftsCancel` says exactly when they agree, `Parity.StoredAgreeIffAtPar` in terms of
  prices and amounts, and `Depegs.HalfPricedDisagrees` gives a run of the exporter after which the stored rows do not.
- handlers.go:354-359 says each day holds its end-of-day value. Along ordered logs the gross, debt and net
  figures of base reserves do, in every state, if and only if every log that moves a reserve's value without
  snapshotting it falls on a later day than the reserve's newest row (`DayEnds.DaysAlwaysHoldIff`); total_supply
  goes stale with an LP Transfer (`SupplyColumn.SupplyAlwaysIff`, `Staleness.MintLeavesSupplyBehind`).
- handlers.go:354-359 calls the snapshot "base reserves only"; it is written for meta reserves too.

## Model

| member | source | states |
|---|---|---|
| Delivery.ExactlyOnce | main.go:247-278 | For every run with duplicates, failures and restarts the tables equal one failure-free pass over the committed logs, whose ids are distinct and are exactly the claimed ids |
| Delivery.UndisturbedRunAgrees | main.go:241-246 | Any run ends with the ledger and claimed ids that the exporter itself reaches when the committed logs are delivered once each without failures |
| Delivery.DeliveredTakesEffect | main.go:247-278 | The id of a log delivered without failure and not rejected by its handler is committed for good, and so is the log itself where an id determines its log |
| Delivery.CleanRunCommitsAll | main.go:247-278 | Delivering distinct ids without failures commits every log, in order |
| Delivery.DeliveryOutcome | main.go:256-277 | One delivery either leaves ledger, claims and contract rows alone or applies exactly the log's effect; memory and table keep only true kinds even after a rollback |
| Delivery.DeliveredLedger | main.go:256-277 | However a log is routed, a delivery leaves the ledger alone or applies one event's effect |
| Delivery.CommitsIff | main.go:247-278 | A delivery commits if and only if its id is new, its handler accepts the log and every call it makes succeeds: which calls those are is read off memory, the ABI name and the event |
| Delivery.ReachableRoutesTruly | registry.go:115-139 | In every reachable state memory and clear_contracts name only true kinds, leaked and lost entries included |
| Delivery.RestartKeepsRouting | registry.go:86-113 | Replacing the registry by a fresh load, or restarting, routes every later log to the same kind |
| Delivery.RestartIsInvisibleIff | registry.go:66-113 | A restart inserted anywhere leaves tables and claimed ids the same throughout the rest of the run if and only if memory agrees, with and without it, on every delivery whose persisting call fails |
| Delivery.RestartIsInvisible | registry.go:66-113 | In particular a restart changes neither tables nor claimed ids when no later persisting call fails |
| Delivery.SameTablesIff | registry.go:120-139 | Two states with the same tables and different memories run alike for exactly as long as they agree on those deliveries |
| Delivery.RestartCanShow | registry.go:126-138 | An input on which a restart changes whether a delivery commits: a log whose first commit fails and whose second attempt fails to persist its contract |
| Delivery.RetryLosesContractRow | registry.go:126-138 | Why clear_contracts is outside exactly-once: a first delivery that fails after caching leaves a retry that commits the same ledger without the contract row |
| ContractRows.RetryKeepsRowsIff | registry.go:120-172 | A retry leaves the contract rows of a clean delivery if and only if not: the log is unclaimed and accepted, its emitter has no row, and the failing attempt saw it for the first time or had just tracked it under its own announcement |
| ContractRows.RetryKeepsLedger | main.go:256-277 | A retry leaves the ledger of a clean delivery, except where the failed attempt had tracked the emitter as the contract it announced |
| ContractRows.RowsOfRun | registry.go:66-172 | In every reachable state a contract has a row if and only if it is configured, or a committed delivery announced it or saw it as its emitter for the first time |
| ContractRows.EmitterRowIff | registry.go:66-172 | The same under true routing, with announcements read off the logs: the row is missing exactly when the contract is neither configured nor announced and each of its committed logs found it in memory |
| ContractRows.DiscoveredIsTracked | registry.go:145-172 | A committed NewClearReserve is routed as a meta or base reserve by the type it names, an AssetAdded's IOU as an IOU, a deployed pool as a pool; where the address had no row, table and reload say the same |
| ContractRows.RunRoutesDiscovered | dispatch.go:56-67 | Anywhere later in a run with failures and restarts, and after one more restart, the logs of what a delivered log made known are routed so |
| ContractRows.SeedOverwrites | registry.go:66-84 | The configuration wins over any stored row, its last readable entry for an address over the others; every other row stays |
| ContractRows.RestartLoads | registry.go:86-113 | After a restart memory holds for each address the configured kind, else the stored one where it is readable |
| Delivery.TrackedKindSurvivesReload | registry.go:145-172 | trackContract's kind survives a reload if and only if the address had no row or its row names the same kind |
| Kinds.KindRoundTrip | registry.go:18-64 | kindFromString(String(k)) = k for every kind |
| Kinds.SpellingsRead | registry.go:43-64 | Every other spelling of a kind, in any case and between blanks, is read as that kind |
| AbiNames.ProtocolNames | db.go:41-67 | The names of the nine contracts of the protocol and of a plain token classify as what they are |
| Exporter.Exporter.NewLogEvent | main.go:247-278 | The method's final state is the delivery step of the machine for every failure choice; success means the id is claimed, an error that every table is as before; positions stay dense |
| Exporter.Exporter.constructor | main.go:162-239 | Start-up on an empty database reaches the machine's initial state |
| Exporter.Exporter.Init | main.go:162-239 | The registry part of Init is the machine's restart |
| Exporter.Exporter.SeedContracts | registry.go:69-84 | The loop writes every configured, recognized contract over what is stored and nothing else |
| Exporter.Exporter.LoadRegistry | registry.go:88-113 | The loop rebuilds memory from exactly the readable rows of the exporter's chain |
| Exporter.Exporter.ResolveKind | registry.go:120-139 | The cached kind, or the classification of the ABI name, which is cached before it is persisted |
| Exporter.Exporter.TrackContract | registry.go:145-152 | Memory is overwritten even if the insert then fails; the table keeps its first row |
| Exporter.Exporter.PersistContract | registry.go:162-172 | The first writer's row is kept |
| Exporter.Exporter.Dispatch | dispatch.go:13-32 | Runs the handler of the kind, then tracks what it announced; memory changes only once the handler succeeded |
| Exporter.Exporter.RunHandler | dispatch.go:13-32 | Every kind's dispatcher has exactly the specified effect, error cases included |
| Exporter.Exporter.DispatchReserve | dispatch.go:39-102 | Each reserve event reaches its own handler and has its effect |
| Exporter.Exporter.DispatchIou | dispatch.go:107-115 | IOU events |
| Exporter.Exporter.DispatchCurve | dispatch.go:118-136 | Curve pool events, including the failure on an unreadable array |
| Exporter.Exporter.HandleTransfer | handlers.go:132-220 | Mint, burn or transfer by the zero side, per kind; a Transfer without a value does nothing |
| Exporter.Exporter.TransferReserveLp | handlers.go:143-220 | Holder balances and lp_supply of a reserve after a Transfer |
| Exporter.Exporter.TransferIou | handlers.go:165-220 | IOU balances, supply, its mirror on the asset rows, and the second snapshot, for whichever claimant the LIMIT 1 returns |
| Exporter.Exporter.TransferCurveLp | handlers.go:153-220 | Holder balances, lp_supply and last_block of a pool |
| Exporter.Exporter.ReserveAssetsByPosition | handlers.go:236-252 | The map holds every asset of the reserve at its own position: no row is lost |
| Exporter.Exporter.FindMetaLegs | handlers.go:264-304 | The scans over the ordered rows return the specified legs |
| Exporter.Exporter.ApplyMetaAmounts | handlers.go:310-324 | Both scalars are booked on the resolved legs with the right sign |
| Exporter.Exporter.ApplyReserveAmounts | handlers.go:326-352 | The loop books amounts[i] on the asset at position i, skips unregistered positions and fails on an unreadable array |
| Exporter.Exporter.HandleReserveDeposit | handlers.go:446-468 | Flows in, snapshot before the reserve row is ensured, total_deposits raised |
| Exporter.Exporter.HandleReserveWithdraw | handlers.go:470-490 | Flows out, snapshot, total_withdrawals raised |
| Exporter.Exporter.HandleSingleAssetDeposit | handlers.go:492-514 | amountIn in, fee out |
| Exporter.Exporter.HandleSingleAssetWithdraw | handlers.go:516-537 | amountOut and fee out |
| Exporter.Exporter.HandleRebalanced | handlers.go:539-557 | tokenIn in, tokenOut out; the row is ensured before the snapshot |
| Exporter.Exporter.HandleFlashLoan | handlers.go:559-575 | Only the fee stays |
| Exporter.Exporter.HandleDonationRecognized | handlers.go:582-596 | The units come in |
| Exporter.Exporter.HandleIouMinted | handlers.go:598-615 | The amount comes in, iou_minted raised |
| Exporter.Exporter.HandleIouRedeemed | handlers.go:617-634 | The amount goes out, iou_redeemed raised |
| Exporter.Exporter.HandleReserveSwap | handlers.go:636-665 | tokenIn in, tokenOut out, swap_count raised |
| Exporter.Exporter.HandleAssetAdded | handlers.go:667-705 | The position is the row count on insert and kept on a re-emit, like iou_supply |
| Exporter.Exporter.AdjustTokenBalance | db.go:220-230 | Additive upsert; no row for a missing asset or a zero delta |
| Exporter.Exporter.HandleIouTreasuryFee | handlers.go:956-967 | The fee accumulates; a zero fee only ensures the row |
| Exporter.Exporter.DispatchFactory | handlers.go:990-1032 | A named reserve is created with the announced kind; an unknown type or unreadable tokens fail the event |
| Exporter.Exporter.DispatchCurveDeployer | handlers.go:1075-1101 | PoolDeployed overwrites the reserve linkage |
| Exporter.Exporter.DispatchCurveFactory | handlers.go:1120-1220 | The resolved pool's own columns are written and only missing linkage is filled in |
| Accounting.AlwaysConserved | handlers.go:160-219 | In every reachable state, with no assumption on log order or routing, each reserve's, IOU's and pool's stored supply is the sum of its holders' balances |
| Accounting.StaysConserved | handlers.go:132-220 | Every event keeps conservation, self-transfers, zero-to-zero Transfers and negative balances included |
| Accounting.MoveTotal | db.go:207-215 | A Transfer changes the sum of an owner's balances by exactly the supply change it declares, and no other owner's |
| Holders.BalancesAreReceipts | handlers.go:201-219 | In each of the three tables a holder's balance is the sum of the committed Transfers to it minus those from it; a mint only credits, a burn only debits |
| Holders.SuppliesAreMints | handlers.go:143-178 | Each supply is what the committed Transfers minted less what they burned |
| Holders.RunBalancesAreReceipts | main.go:247-278 | Both at the end of any disturbed run |
| Holders.MovedBalance | db.go:207-215 | A Transfer debits the sender and credits the receiver, and touches no other entry; to oneself it moves nothing |
| Accounting.MirrorKeptIff | handlers.go:168-178 | An event keeps iou_supply equal to total_supply on every row if and only if it is no registration of an IOU with a foreign supply |
| Accounting.MirrorAlwaysIff | handlers.go:667-705 | Along a whole run the mirror holds in every state if and only if every AssetAdded registers an IOU whose supply its row already carries |
| Traces.MirrorHoldsInEveryState | handlers.go:667-705 | Read off the events: registered before its first mint and never re-pointed, every IOU is mirrored in every state |
| FlowAccounting.BalancesAreDeclaredFlows | handlers.go:310-352 | Once assets and leg kinds are registered each holding is its start value plus the signed amounts the events name |
| FlowAccounting.EventMovesHolding | handlers.go:446-665 | Each of the ten events moves each holding of its reserve by the signed amount its own fields name, and no other log moves any |
| FlowAccounting.HoldingsAreSums | db.go:217-230 | Every holding is the sum of the signed amounts the committed logs name for it, each read against the layout it found |
| FlowAccounting.RunHoldingsAreSums | main.go:247-278 | So it is at the end of any disturbed run |
| FlowAccounting.RunBooksAmounts | main.go:247-278 | At the end of any disturbed run whose later logs are settled, each holding is what the earlier ones left plus what the later ones name |
| FlowAccounting.AmountAtPosition | handlers.go:326-352 | Of amounts[] an asset gets the entry at its own position, nothing if there is none |
| FlowAccounting.OrderIsIrrelevant | db.go:217-230 | Any permutation of the same settled logs gives the same balances |
| FlowAccounting.RunsAgreeOnBalances | main.go:241-246 | Two disturbed runs that commit the same registrations and then the same logs in any order end with the same balances |
| FlowAccounting.WithdrawUndoesDeposit | handlers.go:446-490 | A Withdraw with the same amounts undoes a Deposit, whatever settled logs run in between |
| FlowAccounting.AddFlowsBooks | db.go:220-230 | Booking a list of flows moves one holding by the sum of the amounts on it and nothing else |
| FlowAccounting.SettledKeepsLayout | handlers.go:236-304 | A settled log changes no position and no leg's kind |
| Positions.PositionsAlwaysKept | handlers.go:693-704 | In every reachable state a reserve's positions are exactly 0..n-1 without repeats, and no later step moves an existing row |
| Positions.PositionsKept | handlers.go:236-252 | The same for one event |
| Positions.LegsByPosition | handlers.go:264-304 | With any number of assets the base leg is the last one that is a base reserve and the native leg the first other one; without such an asset two are taken in order and any other number gives no legs |
| Positions.LegsOfTwoAssets | handlers.go:264-304 | With exactly one base reserve among two assets the legs are (native, baseLp), whatever the positions |
| Positions.EitherRegistrationOrder | handlers.go:254-263 | Two AssetAdded logs in either order resolve to the same legs |
| Positions.LegsBeforeIndexing | handlers.go:294-302 | Before the base reserve is indexed the fallback gives the right legs if and only if the native asset is at position 0 |
| Positions.IndexingKeepsLegs | handlers.go:264-304 | A native asset at position 0 keeps its leg when the base reserve is indexed later |
| Counters.CountersAreSums | handlers.go:438-444 | Each cumulative column of a reserve is the sum of what the committed events declare |
| Counters.PriceIsTheLastSet | handlers.go:790-845 | The price the views read is the last one an oracle event set, scaled, or par when none is set or the last was NULL |
| RegistryColumns.KindIsTheFirst | handlers.go:14-20 | A reserve has a row from the first committed log that opens it on, and keeps the type that log gives it |
| RegistryColumns.AssetsCarryTheLast | handlers.go:693-704 | An asset has a row from its first registration on, with the decimals, IOU and weight of its last one |
| RegistryColumns.IousAreNamed | handlers.go:30-34 | The IOUs with a row are those an AssetAdded names or a log of their own makes known |
| RegistryColumns.FeesAreSums | handlers.go:956-967 | An IOU's treasury fees are the sum of those its committed ClearIOUMinted logs name |
| RegistryColumns.RejectedIff | handlers.go:990-1032 | A log without a snapshot is rejected if and only if an array or type its handler needs cannot be read |
| RegistryColumns.FlowRejectedIff | handlers.go:326-380 | A flow is rejected if and only if its amounts cannot be read or an asset of its reserve is a base reserve with lp_supply -1 |
| RegistryColumns.MintRejectedIff | handlers.go:185-195 | An IOU mint or burn is rejected if and only if the claiming reserve has such an asset |
| Coherence.AlwaysCoherentIff | handlers.go:360-380 | Along logs whose blocks and days never go back on a chain, every base reserve's newest row equals the live gross, debt and NAV after every log if and only if every log is admissible: a registration that moves no value, an IOU claimed by no second valued reserve |
| Coherence.CoherenceKeptIff | handlers.go:185-195 | The same for one log from any coherent state |
| Coherence.RunIsCoherent | handlers.go:360-380 | At the end of any disturbed run whose commits are ordered and admissible the newest rows agree with the view |
| NetValue.NavIsNet | schema.go:499-588 | In every row of either view nav + debt = gross when gross covers the debt, and nav = 0 otherwise |
| NetValue.StoredRowsAreNet | handlers.go:360-380 | So it is of every stored row in every state of a run |
| NetValue.ParIsSum | schema.go:513-523 | At par gross and debt are the sums of the balances and IOU supplies times 10^(18-decimals) |
| NetValue.ScaleNormalizes | schema.go:513 | 10^(18-d) turns the 10^d units of a whole token into 10^18; unknown decimals count as 18 |
| NetValue.OraclePar | schema.go:486-497 | A price of 10^8 is par, every price is scaled by 10^10, a missing or NULL one is par |
| NetValue.RunDepositRaisesGross | handlers.go:446-468 | Anywhere in a run a base Deposit raises gross by each registered amount times 10^(18-d) and leaves the debt |
| NetValue.MintLowersNav | handlers.go:168-178 | A mint of v against an asset raises the debt by v * 10^(18-d) and lowers the NAV by as much while the NAV covers it |
| NetValue.RunMintLowersNav | handlers.go:168-178 | So it does anywhere in a run |
| NetValue.WeightIsNet | schema.go:524-537 | An asset weighs what its balance exceeds its IOU supply by, normalized |
| NetValue.AverageBounds | schema.go:508-510 | avg_redemption is the mean of the prices under these weights, rounded down |
| NetValue.TokenLegBounds | schema.go:565-568 | A token leg is worth its normalized units at its price, rounded down |
| NetValue.BaseLegBounds | schema.go:570-571 | A base leg is worth units * (nav + 1) / (lp_supply + 1) at the average redemption price, short of it by less than that price plus one |
| NetValue.MetaIsSum | schema.go:552-588 | A meta reserve's gross and debt are the worths of its legs' balances and IOU supplies, summed |
| DayEnds.SnapshotShowsView | handlers.go:360-380 | Right after a log that snapshots a reserve, base or meta, its newest row is of the log's day and block and equals the view's gross, debt and NAV and the LP supply |
| EndOfDay.DayIs | handlers.go:363 | The day of a timestamp is d exactly when it lies in [86400 d, 86400 (d + 1)) |
| EndOfDay.RowsAreTheDaysLast | handlers.go:360-380 | In every state, in whatever order blocks arrive, a reserve has one row per UTC day on which it was snapshotted, showing the view, LP supply and stamp right after its writer |
| EndOfDay.WriterIsHighest | handlers.go:371-379 | The writer is the last snapshot of the day's highest block, and there is none only if the reserve was not snapshotted that day |
| EndOfDay.FlowsRecord | handlers.go:446-665 | A flow snapshots its reserve; the row records it unless the reserve is new and the event one of the six that ensure it afterwards |
| EndOfDay.MintsRecord | handlers.go:185-195 | An IOU mint or burn snapshots a reserve naming the IOU, whichever the LIMIT 1 returns, and none only if none names it |
| EndOfDay.OthersRecordNothing | dispatch.go:39-136 | No other log takes a snapshot |
| AssetEndOfDay.AssetRowsAreTheDaysLast | handlers.go:387-418 | The same of an asset's row of the day: decimals, balance, IOU supply and their worth as a leg right after its writer |
| AssetEndOfDay.AssetWriterIsHighest | handlers.go:407-415 | Its writer is the last snapshot of the highest block of the day with the asset registered |
| DayEnds.DaysAlwaysHoldIff | handlers.go:354-359 | Along ordered logs every stored day of a base reserve holds, in every state, its value after the last log of its chain up to that day, if and only if each log that makes a reserve stale falls on a day later than its newest row |
| DayEnds.DaysHoldTheirEnd | handlers.go:354-359 | In particular they do along admissible logs |
| DayEnds.AdmissibleIffStalesNone | handlers.go:185-195 | The admissible logs are exactly those that make no valued base reserve stale |
| ViewInputs.SameReserveValue | schema.go:552-588 | A reserve's row of the view is a function of its own asset rows, balances and prices and, per base leg, of that leg's LP supply and holdings |
| Freshness.CurrentKeptIff | schema.go:549-551 | From a current newest row of any reserve a log keeps it current if and only if it snapshots the reserve, finds it without rows or does not move its view |
| Freshness.UndisturbedView | schema.go:549-551 | A log that touches neither a reserve's holdings nor its assets' prices nor its base legs does not move its view |
| Freshness.AlwaysCurrentIff | schema.go:549-551 | Along ordered logs a reserve's newest row is what the view shows in every state if and only if every log keeps it current |
| Freshness.SparedStaysCurrent | schema.go:549-551 | So it is if every log that touches what its view reads snapshots it as well |
| Staleness.PriceLeavesMetaBehind | schema.go:549-551 | A run after which an oracle move has left a meta reserve's newest row behind the view |
| SupplyColumn.SupplyKeptIff | handlers.go:164-178 | From newest rows that store lp_supply a log keeps them so if and only if it moves no LP supply or that of a reserve without rows |
| SupplyColumn.SupplyAlwaysIff | handlers.go:360-380 | Along ordered logs total_supply agrees with lp_supply in every state if and only if every log is such |
| Staleness.MintLeavesSupplyBehind | handlers.go:164-167 | A run after which an LP mint has left the newest row's total_supply behind lp_supply |
| Coherence.PutMovesValue | handlers.go:693-704 | A registration leaves a reserve's par valuation alone exactly when the new asset has no balance, or the scale stays, or neither balance nor supply is there to scale |
| Coherence.MirrorMovesValue | handlers.go:174-176 | A supply change moves a reserve's par valuation exactly when it is not zero and one of its rows names the IOU |
| Traces.CoherentInEveryState | handlers.go:360-380 | Read off the events: single registrations before any flow that names the asset, one reserve per IOU, ordered blocks and days make every state coherent |
| Traces.RunKeepsPromises | main.go:241-278 | Mirror and coherence at the end of any disturbed run, read off its committed logs |
| History.PartsAlwaysAgree | handlers.go:387-418 | When blocks and days never go back on a chain, each stored (reserve, day) row of a meta reserve has total_assets and iou_debt equal to the sums over that day's asset rows |
| History.RunKeepsPartsInStep | handlers.go:360-418 | The same at the end of any disturbed run |
| History.AllRewritten | handlers.go:407-415 | Under block order the guard keeps back no asset row: the day has exactly one fresh row per registered asset |
| History.StaysStamped | handlers.go:360-418 | Every history row of a reserve carries the block and UTC day of a processed log of its chain |
| History.HistoryFrame | handlers.go:360-418 | The histories change by one snapshot at most, of the emitter of a flow or of the reserve claiming a minted or burned IOU |
| Parity.AgreesIffDriftsCancel | schema.go:353-357 | For any prices, signs and legs a base reserve's aggregate equals its parts if and only if what the assets are worth beyond par cancels out, for holdings and for claims |
| Parity.AgreesAtPar | schema.go:353-357 | For tokens at any prices and in any amounts they agree when every holding and claim rounds to par |
| Parity.AgreesIffAtPar | schema.go:353-357 | Where prices and amounts pull one way, above or below par, they agree if and only if every holding and claim rounds to par |
| Parity.AtParRounds | schema.go:353-357 | An asset at par, or neither held nor owed, rounds to par; below par only an asset neither held nor owed does |
| Parity.StoredAgreeIffAtPar | handlers.go:387-418 | The same of the stored rows of the day, right after a log that snapshots the reserve |
| Depegs.HalfPricedDisagrees | schema.go:353-357 | A run of AssetAdded, RedemptionPriceChanged and DonationRecognized on an empty database after which the stored rows of a base reserve disagree |
| Depegs.CancellingAgrees | schema.go:353-357 | A run with two tokens at 0.5 and 1.5 after which they agree although neither token is at par: one-sidedness cannot be dropped |
| Pricing.MeanWithinPrices | schema.go:508-510 | A base reserve's avg_redemption lies within any bounds on the scaled prices of the assets with positive net par |
| Pricing.MeanAtPar | schema.go:508-510 | It is exactly 10^18 when they are all at par |
| Pricing.MeanZeroIff | schema.go:508-510 | For non-negative prices it is 0 if and only if there is no net balance or the mean truncates to 0 |
| Pricing.NoNetBalance | schema.go:524-537 | The net weight is 0 if and only if no asset's balance exceeds its IOU supply |
| Pricing.NoOverClaim | schema.go:544-547 | Non-negative holdings totalling at most lp_supply convert to at most the NAV together |
| Pricing.HoldersCannotOverClaim | schema.go:544-547 | In every reachable state a reserve's stored LP holders, none negative, can together claim at most its NAV |
| Pricing.TruncationBound | schema.go:570-571 | The two truncations never exceed the exact value and fall short by less than avg / 10^18 + 1 |
| Pricing.RedemptionMonotone | schema.go:570-571 | The redemption value is monotone in the units and in the NAV |
| Pricing.SplittingLosesAtMostTwo | schema.go:570-571 | Splitting a holding never gains and loses at most 2 when avg is at most 10^18 |
| Pricing.TruncRoundsTowardZero | schema.go:548-550 | trunc of a quotient rounds toward zero for every sign |
| CurvePools.ResolveDeployedPool | curve.go:83-110 | The scan returns the emitter of the highest-indexed constructor log below the event, or none exactly when there is none |
| CurvePools.ReadEventCoins | curve.go:298-316 | The coins an event carries, or failure on an unreadable array |
| PoolColumns.RowFollows | handlers.go:1075-1220 | After any log every column of a pool's row is the one its kind of event calls for: first and last block, swap count, linkage, description, coins |
| PoolColumns.RowsAreTold | handlers.go:709-726 | In every run a pool's row exists from the first event that touches it, with that event's block, the swaps counted, the last PoolDeployed's reserve and the last factory event's description |
| Discovery.ResolvedIsLatest | curve.go:83-110 | The resolved pool emitted a candidate of maximal index; it is empty if and only if there is no candidate |
| Discovery.DeploymentsPairUp | curve.go:65-111 | With c_1 < d_1 < c_2 < d_2 < ... and any other logs in any array order, each deploy event resolves to its own pool |
| Discovery.DeployedPairsUp | handlers.go:1120-1140 | So each such deployment log, with its receipt, describes its own pool |
| Discovery.DiscoveryCommutes | handlers.go:1113-1115 | PoolDeployed and the factory's event leave the same ledger in either order if and only if they are consistent; the reserve linkage survives either way |
| Upserts.BindColumns | handlers.go:927-934 | The loop keeps every column next to its own argument |
| Upserts.UpsertPatch | handlers.go:923-948 | Keys are written on insert only, the listed columns and last_block always; an empty or odd list is refused |
| SettingsFold.SettingsAreAFold | handlers.go:909-948 | After any replay each settings column is the value of the last event carrying it for that reserve, NULL if none |
| SettingsFold.RunFoldsSettings | dispatch.go:76-99 | The same at the end of any disturbed run |
| SettingsFold.KeysHold | handlers.go:909-921 | A reserve has a settings row from its first governance event on, keyed by chain, address and kind and stamped with the block of the last one |
| ArrayArgs.SplitArrayArg | db.go:134-165 | The loop returns the elements of either rendering, JSON first |
| ArrayArgs.JsonArrayArg | db.go:171-189 | Either rendering as one JSON array of strings, lowercased in place on request; NULL when absent |
| ArrayArgs.JsonTextReadsBack | db.go:144-158 | A list of strings json.Marshal does not escape survives its JSON form |
| ArrayArgs.NumberTextReadsBack | db.go:144-158 | Canonical decimals survive as JSON numbers, digit by digit |
| ArrayArgs.SprintTextReadsBack | db.go:160-165 | Decimal and hexadecimal tokens survive the fmt.Sprint form, a single one included |
| ArrayArgs.RenderingsAgree | db.go:121-133 | Whichever rendering the server used, a token list is split alike and stored alike |
| ArrayArgs.ColumnResplits | db.go:167-189 | Splitting the stored column again gives the stored elements |
| ArrayArgs.NegNegates | db.go:111-119 | neg negates the amount of every decimal string |

## Left out

- PostgreSQL, lib/pq, w3, go-plugin and gRPC: a transaction is all writes or none, an RPC answer is part of the log, and a transport error is a failed step.
- NUMERIC's finite division scale: quotients are exact before trunc, and decimals are at most 18.
- Concurrency: calls to NewLogEvent are sequential, so the registry's mutex is not modelled.
- host.go, and the registration of a pool as a log source: a failure there is a failure before the commit.
- clear_tokens, fetchTokenMeta, fetchCurvePool and clear_curve_pool_coins: best-effort metadata; a pool's coins are those its event carries.
- Swap, activity, liquidity and price history rows: inserted once per claimed id and read by nothing modelled here.
- Exporter.Exporter.HandleReserveDeposit: the activity row is not modelled.
- Exporter.Exporter.HandleReserveWithdraw: the activity row is not modelled.
- Exporter.Exporter.HandleSingleAssetDeposit: the activity row is not modelled.
- Exporter.Exporter.HandleSingleAssetWithdraw: the activity row is not modelled.
- Exporter.Exporter.HandleRebalanced: the activity row is not modelled.
- Exporter.Exporter.HandleFlashLoan: the activity row is not modelled.
- Exporter.Exporter.HandleDonationRecognized: the activity row is not modelled.
- Exporter.Exporter.HandleIouMinted: the activity row is not modelled.
- Exporter.Exporter.HandleIouRedeemed: the activity row is not modelled.
- Exporter.Exporter.HandleReserveSwap: the swap row is not modelled.
- Exporter.Exporter.DispatchCurve: the swap or liquidity row is not modelled.
- Exporter.Exporter.HandleAssetAdded: the token metadata in clear_tokens is not modelled.
- Exporter.Exporter.DispatchFactory: the reserve's descriptive columns, clear_tokens and the protocol configuration are not modelled.
- Exporter.Exporter.DispatchCurveDeployer: clear_tokens and the deployer configuration are not modelled.
- Exporter.Exporter.DispatchCurveFactory: the columns filled in over RPC, the coin rows and the registration of the pool as a log source are not modelled.
- last_block columns other than a pool's and the settings row's, and the name, symbol, implementation, index, tokens and factory columns of a reserve.
- Oracle columns other than redemption_price, and the protocol and deployer configuration tables (the generated upsert is proved for any column list without repeats).
- Upserts.UpsertPatch: requires distinct columns, which every call site's constant list satisfies; PostgreSQL would refuse a repeated one.
- Strings as amounts: a decimal argument is its integer and an absent one is 0, except in ArrayArgs, where text is modelled; NULL and the empty address are one value.
- ArrayArgs.SplitArrayArg: JSON is read as arrays of unescaped strings and integers, and text is ASCII; other values read as not JSON.
- ArrayArgs.JsonArrayArg: elements with characters that json.Marshal escapes are rendered as they are.
- Delivery.ExactlyOnce: clear_contracts is outside the refinement; ContractRows says exactly which rows it holds.
- Rows of clear_reserve_assets with a NULL position, left by versions that did not write one.
- ConfigSchema, Close, dialling and logging.
