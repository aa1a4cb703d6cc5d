/**
 What each event does to the ledger: the specification the handlers are proved against, and the
 function the whole-run theorems are about (handlers.go, dispatch.go).

 Every token-moving reserve event is described by one table: the flows it declares (Flows), the
 counter it bumps (Counted) and whether its row is ensured before or after the snapshot.
 */
module Effects {
  import opened Addresses
  import opened Options
  import opened Kinds
  import opened Sums
  import opened Tables
  import opened Valuation
  import CurvePools
  import Settings

  // --- statements ---

  /** The row an upsert finds or creates. */
  function ReserveRow(reserves: map<Id, Reserve>, id: Id, rt: ReserveType): Reserve {
    if id in reserves then reserves[id] else Reserve(rt, 0, 0, 0, 0, 0, 0)
  }

  function IouRow(ious: map<Id, IouToken>, id: Id): IouToken {
    if id in ious then ious[id] else IouToken(0, 0)
  }

  function EnsureReserve(reserves: map<Id, Reserve>, id: Id, rt: ReserveType): map<Id, Reserve> {
    reserves[id := ReserveRow(reserves, id, rt)]
  }

  function EnsureIou(ious: map<Id, IouToken>, id: Id): map<Id, IouToken> {
    ious[id := IouRow(ious, id)]
  }

  function EnsureCurve(pools: map<Id, Pool>, id: Id, block: nat): map<Id, Pool> {
    pools[id := CurvePools.Ensured(pools, id, block)]
  }

  /** A signed amount booked on an address. */
  datatype Flow = Flow(who: Addr, amount: int)

  /** adjustBalance: additive upsert of a holder's balance. */
  function AddBalance(table: map<Id, map<Addr, int>>, id: Id, holder: Addr, delta: int): map<Id, map<Addr, int>> {
    table[id := Rows(table, id)[holder := Get(Rows(table, id), holder) + delta]]
  }

  /** adjustTokenBalance: as adjustBalance, but a missing asset or a zero delta is a no-op. */
  function AdjustToken(table: map<Id, map<Addr, int>>, id: Id, asset: Addr, delta: int): map<Id, map<Addr, int>> {
    if asset == NoAddr || delta == 0 then table else AddBalance(table, id, asset, delta)
  }

  function AddFlows(table: map<Id, map<Addr, int>>, id: Id, flows: seq<Flow>): map<Id, map<Addr, int>> {
    if flows == [] then table
    else
      var last := flows[|flows| - 1];
      AdjustToken(AddFlows(table, id, flows[..|flows| - 1]), id, last.who, last.amount)
  }

  lemma OneFlow(table: map<Id, map<Addr, int>>, id: Id, f: Flow)
    ensures AddFlows(table, id, [f]) == AdjustToken(table, id, f.who, f.amount)
  {
    assert [f][..0] == [];
    assert AddFlows(table, id, []) == table;
  }

  // --- ERC-20 Transfer ---

  /** The holder balances after a Transfer: mint, burn or transfer, by its zero-address side. */
  function MoveBalances(table: map<Id, map<Addr, int>>, id: Id, from: Addr, to: Addr, v: int): map<Id, map<Addr, int>> {
    if from == ZERO_ADDRESS then AddBalance(table, id, to, v)
    else if to == ZERO_ADDRESS then AddBalance(table, id, from, -v)
    else AddBalance(AddBalance(table, id, from, -v), id, to, v)
  }

  predicate ChangesSupply(from: Addr, to: Addr) {
    from == ZERO_ADDRESS || to == ZERO_ADDRESS
  }

  function SupplyChange(from: Addr, to: Addr, value: int): int {
    if from == ZERO_ADDRESS then value else if to == ZERO_ADDRESS then -value else 0
  }

  function MirrorRows(rows: map<Addr, Asset>, iou: Addr, delta: int): map<Addr, Asset> {
    map a | a in rows ::
      if rows[a].iou == iou then rows[a].(iouSupply := rows[a].iouSupply + delta) else rows[a]
  }

  /** Adds an IOU's supply change to every asset row that names it. */
  function MirrorSupply(assets: map<Id, map<Addr, Asset>>, iou: Id, delta: int): map<Id, map<Addr, Asset>> {
    map id | id in assets :: if id.chain == iou.chain then MirrorRows(assets[id], iou.addr, delta) else assets[id]
  }

  predicate ClaimedIn(rows: map<Addr, Asset>, iou: Addr) {
    exists a :: a in rows && rows[a].iou == iou
  }

  /** The reserves with an asset row naming the IOU. */
  function Claimants(assets: map<Id, map<Addr, Asset>>, iou: Id): set<Addr> {
    set id | id in assets && id.chain == iou.chain && ClaimedIn(assets[id], iou.addr) :: id.addr
  }

  /** The claimant an unordered LIMIT 1 returns: any one of them, as the log carries it. */
  function Picked(claimants: set<Addr>, log: Log): (a: Addr)
    requires claimants != {}
    ensures a in claimants
  {
    if log.claimant in claimants then log.claimant else Least(claimants)
  }

  /** Snapshots the reserve that claims the IOU, if any does. */
  function Resnapshot(t: Ledger, iou: Id, log: Log): Option<Ledger> {
    var claimants := Claimants(t.assets, iou);
    if claimants == {} || Picked(claimants, log) == NoAddr then Some(t)
    else Snapshot(t, Id(iou.chain, Picked(claimants, log)), log)
  }

  function ReserveTransfer(t: Ledger, log: Log, rt: ReserveType, from: Addr, to: Addr, v: int): Ledger {
    var id := Emitter(log);
    var row := ReserveRow(t.reserves, id, rt);
    t.(lpBalances := MoveBalances(t.lpBalances, id, from, to, v),
       reserves := t.reserves[id := row.(lpSupply := row.lpSupply + SupplyChange(from, to, v))])
  }

  function TransferredPool(pools: map<Id, Pool>, log: Log, from: Addr, to: Addr, v: int): Pool {
    var row := CurvePools.Ensured(pools, Emitter(log), log.block);
    if ChangesSupply(from, to) then row.(lpSupply := row.lpSupply + SupplyChange(from, to, v), lastBlock := log.block)
    else row
  }

  function PoolTransfer(t: Ledger, log: Log, from: Addr, to: Addr, v: int): Ledger {
    var id := Emitter(log);
    t.(poolBalances := MoveBalances(t.poolBalances, id, from, to, v),
       pools := t.pools[id := TransferredPool(t.pools, log, from, to, v)])
  }

  function IouTransferred(t: Ledger, id: Id, from: Addr, to: Addr, v: int): Ledger {
    var row := IouRow(t.iouTokens, id);
    t.(iouBalances := MoveBalances(t.iouBalances, id, from, to, v),
       iouTokens := t.iouTokens[id := row.(totalSupply := row.totalSupply + SupplyChange(from, to, v))],
       assets := if ChangesSupply(from, to) then MirrorSupply(t.assets, id, SupplyChange(from, to, v)) else t.assets)
  }

  function IouTransfer(t: Ledger, log: Log, from: Addr, to: Addr, v: int): Option<Ledger> {
    var t1 := IouTransferred(t, Emitter(log), from, to, v);
    if ChangesSupply(from, to) then Resnapshot(t1, Emitter(log), log) else Some(t1)
  }

  // --- token flows of a reserve ---

  /** The asset a position of amounts[] is routed to; NoAddr when the position is not registered. */
  function AssetAt(rows: map<Addr, Asset>, i: nat): Addr {
    var at := set a | a in rows && rows[a].position == i;
    if at == {} then NoAddr else Least(at)
  }

  /** The positions of a reserve's n asset rows are exactly 0..n-1, each used once. */
  predicate Dense(rows: map<Addr, Asset>) {
    && (forall a :: a in rows ==> rows[a].position < |rows|)
    && (forall a, b :: a in rows && b in rows && rows[a].position == rows[b].position ==> a == b)
    && (forall i :: 0 <= i < |rows| ==> Occupied(rows, i))
  }

  predicate Occupied(rows: map<Addr, Asset>, i: nat) {
    exists a :: a in rows && rows[a].position == i
  }

  /** The reserve's assets in position order. */
  function Ordered(rows: map<Addr, Asset>): seq<Addr> {
    seq(|rows|, i requires 0 <= i < |rows| => AssetAt(rows, i))
  }

  datatype Legs = Legs(native: Addr, baseLp: Addr)

  /** The last asset in position order that is a base reserve. */
  function LastBase(t: Ledger, chain: nat, ordered: seq<Addr>): Addr {
    if ordered == [] then NoAddr
    else if IsBase(t, Id(chain, ordered[|ordered| - 1])) then ordered[|ordered| - 1]
    else LastBase(t, chain, ordered[..|ordered| - 1])
  }

  function FirstOther(ordered: seq<Addr>, baseLp: Addr): Addr {
    if ordered == [] then NoAddr
    else if ordered[0] != baseLp then ordered[0]
    else FirstOther(ordered[1..], baseLp)
  }

  /** metaLegs: the base leg is found by lookup, and by position order when it is not indexed yet. */
  function LegsOf(t: Ledger, chain: nat, ordered: seq<Addr>): Legs {
    var baseLp := LastBase(t, chain, ordered);
    if baseLp != NoAddr then Legs(FirstOther(ordered, baseLp), baseLp)
    else if |ordered| == 2 then Legs(ordered[0], ordered[1])
    else Legs(NoAddr, NoAddr)
  }

  function MetaLegs(t: Ledger, id: Id): Legs {
    LegsOf(t, id.chain, Ordered(Rows(t.assets, id)))
  }

  function Positional(rows: map<Addr, Asset>, amounts: seq<int>, sign: int): seq<Flow> {
    seq(|amounts|, i requires 0 <= i < |amounts| => Flow(AssetAt(rows, i), sign * amounts[i]))
  }

  function Balanced(t: Ledger, id: Id, rt: ReserveType, amounts: ArrayArg<int>, native: int,
                    baseLp: int, sign: int): seq<Flow> {
    if rt == MetaReserve then
      [Flow(MetaLegs(t, id).native, sign * native), Flow(MetaLegs(t, id).baseLp, sign * baseLp)]
    else if amounts.Malformed? then []
    else Positional(Rows(t.assets, id), amounts.elements, sign)
  }

  /** The signed movements of the reserve's own holdings that an event declares. */
  function Flows(t: Ledger, id: Id, rt: ReserveType, e: Event): seq<Flow> {
    match e
    case Deposit(amounts, native, baseLp, _) => Balanced(t, id, rt, amounts, native, baseLp, 1)
    case Withdraw(amounts, native, baseLp, _) => Balanced(t, id, rt, amounts, native, baseLp, -1)
    case SingleAssetDeposit(asset, amountIn, fee, _) => [Flow(asset, amountIn), Flow(asset, -fee)]
    case SingleAssetWithdraw(asset, amountOut, fee, _) => [Flow(asset, -amountOut), Flow(asset, -fee)]
    case Rebalanced(tokenIn, amountIn, tokenOut, amountOut) => [Flow(tokenIn, amountIn), Flow(tokenOut, -amountOut)]
    case Swap(tokenIn, amountIn, tokenOut, amountOut) => [Flow(tokenIn, amountIn), Flow(tokenOut, -amountOut)]
    case IouMinted(asset, amount) => [Flow(asset, amount)]
    case IouRedeemed(asset, amount) => [Flow(asset, -amount)]
    case FlashLoan(token, fee) => [Flow(token, fee)]
    case DonationRecognized(asset, units) => [Flow(asset, units)]
    case _ => []
  }

  predicate IsFlowEvent(e: Event) {
    e.Deposit? || e.Withdraw? || e.SingleAssetDeposit? || e.SingleAssetWithdraw? || e.Rebalanced? || e.Swap?
    || e.IouMinted? || e.IouRedeemed? || e.FlashLoan? || e.DonationRecognized?
  }

  /** These handlers ensure the reserve row before the snapshot; the others only after it. */
  predicate EnsuresFirst(e: Event) {
    e.Rebalanced? || e.Swap? || e.FlashLoan? || e.DonationRecognized?
  }

  /** A base reserve's balanced event with an unreadable amounts[] fails. */
  predicate RejectsAmounts(e: Event, rt: ReserveType) {
    rt == BaseReserve && ((e.Deposit? && e.amounts.Malformed?) || (e.Withdraw? && e.amounts.Malformed?))
  }

  function Counted(row: Reserve, e: Event): Reserve {
    match e
    case Deposit(_, _, _, lp) => row.(totalDeposits := row.totalDeposits + lp)
    case SingleAssetDeposit(_, _, _, lp) => row.(totalDeposits := row.totalDeposits + lp)
    case Withdraw(_, _, _, lp) => row.(totalWithdrawals := row.totalWithdrawals + lp)
    case SingleAssetWithdraw(_, _, _, lp) => row.(totalWithdrawals := row.totalWithdrawals + lp)
    case IouMinted(_, amount) => row.(iouMinted := row.iouMinted + amount)
    case IouRedeemed(_, amount) => row.(iouRedeemed := row.iouRedeemed + amount)
    case Swap(_, _, _, _) => row.(swapCount := row.swapCount + 1)
    case _ => row
  }

  /** The flows booked, before the snapshot. */
  function Moved(t: Ledger, id: Id, rt: ReserveType, e: Event): Ledger {
    t.(reserves := if EnsuresFirst(e) then EnsureReserve(t.reserves, id, rt) else t.reserves,
       tokenBalances := AddFlows(t.tokenBalances, id, Flows(t, id, rt, e)))
  }

  /** The counter bumped, after the snapshot. */
  function Count(t: Ledger, id: Id, rt: ReserveType, e: Event): Ledger {
    t.(reserves := t.reserves[id := Counted(ReserveRow(t.reserves, id, rt), e)])
  }

  /** A token-moving event: book the flows, snapshot the reserve, bump the counter. */
  function FlowEvent(t: Ledger, log: Log, rt: ReserveType): Option<Ledger> {
    var id := Emitter(log);
    if RejectsAmounts(log.event, rt) then None
    else
      match Snapshot(Moved(t, id, rt, log.event), id, log)
      case None => None
      case Some(t1) => Some(Count(t1, id, rt, log.event))
  }

  // --- registration and the remaining events ---

  /** The supply an asset row has mirrored so far. */
  function MirroredSoFar(rows: map<Addr, Asset>, a: Addr): int {
    if a in rows then rows[a].iouSupply else 0
  }

  function PutAsset(rows: map<Addr, Asset>, e: Event): map<Addr, Asset>
    requires e.AssetAdded?
  {
    rows[e.asset :=
      if e.asset in rows then rows[e.asset].(decimals := e.decimals, iou := e.iou, weight := e.weight)
      else Asset(e.decimals, e.iou, |rows|, 0, e.weight)]
  }

  function AddAsset(t: Ledger, log: Log, rt: ReserveType): Ledger
    requires log.event.AssetAdded?
  {
    var id := Emitter(log);
    var iou := Id(log.chain, log.event.iou);
    t.(reserves := EnsureReserve(t.reserves, id, rt),
       iouTokens := if Proper(iou.addr) then EnsureIou(t.iouTokens, iou) else t.iouTokens,
       assets := t.assets[id := PutAsset(Rows(t.assets, id), log.event)])
  }

  function UpdateSetting(t: Ledger, log: Log, rt: ReserveType): Ledger
    requires log.event.SettingUpdated?
  {
    var id := Emitter(log);
    t.(reserves := EnsureReserve(t.reserves, id, rt),
       settings := t.settings[id := Settings.SettingsRow(t.settings, id, rt, log.event.setting, log.block)])
  }

  /** A Transfer without a value has no effect. */
  predicate IsTransfer(e: Event) {
    e.Transfer? && e.value.Some?
  }

  function ApplyReserve(t: Ledger, log: Log, rt: ReserveType): Option<Ledger> {
    var e := log.event;
    if IsFlowEvent(e) then FlowEvent(t, log, rt)
    else if IsTransfer(e) then Some(ReserveTransfer(t, log, rt, e.from, e.to, e.value.value))
    else if e.AssetAdded? then Some(AddAsset(t, log, rt))
    else if e.SettingUpdated? then Some(UpdateSetting(t, log, rt))
    else Some(t)
  }

  /** ClearIouMinted: the treasury's cut accumulates. */
  function FeePaid(ious: map<Id, IouToken>, id: Id, fee: int): map<Id, IouToken> {
    var row := IouRow(ious, id);
    ious[id := row.(treasuryFees := row.treasuryFees + fee)]
  }

  function ApplyIou(t: Ledger, log: Log): Option<Ledger> {
    var e := log.event;
    if IsTransfer(e) then IouTransfer(t, log, e.from, e.to, e.value.value)
    else if e.ClearIouMinted? then Some(t.(iouTokens := FeePaid(t.iouTokens, Emitter(log), e.treasuryFee)))
    else Some(t)
  }

  /** The pool row after a swap or a liquidity event. */
  function TouchedPool(pools: map<Id, Pool>, log: Log): Pool {
    if log.event.TokenExchange? then CurvePools.Swapped(pools, Emitter(log), log.block)
    else CurvePools.Ensured(pools, Emitter(log), log.block)
  }

  /** A liquidity event with an unreadable array fails. */
  predicate RejectsLiquidity(e: Event) {
    e.LiquidityChanged? && (e.tokenAmounts.Malformed? || e.fees.Malformed?)
  }

  function ApplyCurve(t: Ledger, log: Log): Option<Ledger> {
    var e := log.event;
    if IsTransfer(e) then Some(PoolTransfer(t, log, e.from, e.to, e.value.value))
    else if RejectsLiquidity(e) then None
    else if e.TokenExchange? || e.LiquidityChanged?
    then Some(t.(pools := t.pools[Emitter(log) := TouchedPool(t.pools, log)]))
    else Some(t)
  }

  function PricesAfter(prices: map<Id, Option<int>>, log: Log): map<Id, Option<int>> {
    match log.event
    case OracleConfigured(asset, price) => if asset == NoAddr then prices else prices[Id(log.chain, asset) := price]
    case RedemptionPriceChanged(asset, price) =>
      if asset == NoAddr then prices else prices[Id(log.chain, asset) := Some(price)]
    case _ => prices
  }

  function ApplyOracle(t: Ledger, log: Log): Option<Ledger> {
    Some(t.(redemptionPrices := PricesAfter(t.redemptionPrices, log)))
  }

  function ApplyFactory(t: Ledger, log: Log): Option<Ledger> {
    var e := log.event;
    if !e.NewClearReserve? || !Proper(e.reserve) then Some(t)
    else if e.reserveType.None? || e.tokens.Malformed? then None
    else Some(t.(reserves := EnsureReserve(t.reserves, Id(log.chain, e.reserve), e.reserveType.value)))
  }

  function ApplyDeployer(t: Ledger, log: Log): Option<Ledger> {
    var e := log.event;
    if !e.PoolDeployed? || !Proper(e.pool) then Some(t)
    else
      var id := Id(log.chain, e.pool);
      Some(t.(pools := t.pools[id := CurvePools.Linked(t.pools, id, log)]))
  }

  function ApplyCurveFactory(t: Ledger, log: Log): Option<Ledger> {
    var e := log.event;
    if !e.CurvePoolDeployed? || e.receipt.None? || CurvePools.Deployed(log) == NoAddr then Some(t)
    else if !e.meta && e.coins.Malformed? then None
    else
      var id := Id(log.chain, CurvePools.Deployed(log));
      Some(t.(pools := t.pools[id := CurvePools.Described(t.pools, id, log)]))
  }

  /** The effect of a log routed as kind k; None when its handler fails. */
  function Apply(t: Ledger, log: Log, k: Kind): Option<Ledger> {
    match k
    case BaseReserveKind => ApplyReserve(t, log, BaseReserve)
    case MetaReserveKind => ApplyReserve(t, log, MetaReserve)
    case IouKind => ApplyIou(t, log)
    case CurveKind => ApplyCurve(t, log)
    case OracleKind => ApplyOracle(t, log)
    case FactoryKind => ApplyFactory(t, log)
    case CurveDeployerKind => ApplyDeployer(t, log)
    case CurveFactoryKind => ApplyCurveFactory(t, log)
    case UnknownKind => Some(t)
  }

  datatype Announcement = Announcement(addr: Addr, kind: Kind)

  function ReserveKind(rt: ReserveType): Kind {
    if rt == MetaReserve then MetaReserveKind else BaseReserveKind
  }

  function ReserveAnnouncement(log: Log): Option<Announcement> {
    if log.event.AssetAdded? && Proper(log.event.iou) then Some(Announcement(log.event.iou, IouKind)) else None
  }

  function FactoryAnnouncement(log: Log): Option<Announcement> {
    if log.event.NewClearReserve? && Proper(log.event.reserve) && log.event.reserveType.Some?
    then Some(Announcement(log.event.reserve, ReserveKind(log.event.reserveType.value)))
    else None
  }

  function DeployerAnnouncement(log: Log): Option<Announcement> {
    if log.event.PoolDeployed? && Proper(log.event.pool) then Some(Announcement(log.event.pool, CurveKind)) else None
  }

  function CurveFactoryAnnouncement(log: Log): Option<Announcement> {
    if log.event.CurvePoolDeployed? && log.event.receipt.Some? && CurvePools.Deployed(log) != NoAddr
    then Some(Announcement(CurvePools.Deployed(log), CurveKind))
    else None
  }

  /** The contract a handler registers through trackContract once it has run. */
  function Announced(log: Log, k: Kind): Option<Announcement> {
    match k
    case BaseReserveKind => ReserveAnnouncement(log)
    case MetaReserveKind => ReserveAnnouncement(log)
    case FactoryKind => FactoryAnnouncement(log)
    case CurveDeployerKind => DeployerAnnouncement(log)
    case CurveFactoryKind => CurveFactoryAnnouncement(log)
    case _ => None
  }

  lemma UnknownIsInert(t: Ledger, log: Log)
    ensures Apply(t, log, UnknownKind) == Some(t) && Announced(log, UnknownKind) == None
  {
  }

  lemma AnnouncesKnown(log: Log, k: Kind)
    ensures Announced(log, k).Some? ==>
              Announced(log, k).value.addr != NoAddr && Announced(log, k).value.kind != UnknownKind
  {
    hide CurvePools.Deployed;
  }
}
