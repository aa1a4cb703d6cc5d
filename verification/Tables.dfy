/**
 The tables of the ledger and the decoded logs that feed it (schema.go, main.go).

 A table whose primary key is (chain_id, owner, x) is a map from Id(chain_id, owner) to the map of
 that owner's rows. NUMERIC is an unbounded integer.
 */
module Tables {
  import opened Addresses
  import opened Kinds
  import opened Options

  /** A contract on a chain: the leading key columns (chain_id, address) of every entity table. */
  datatype Id = Id(chain: nat, addr: Addr)

  /** Token decimals; amounts are normalized to 18 decimals, so more than 18 is outside the model. */
  type Decimals = d: nat | d <= 18

  datatype ReserveType = BaseReserve | MetaReserve

  // --- rows ---

  datatype Reserve = Reserve(
    kind: ReserveType, lpSupply: int, totalDeposits: int, totalWithdrawals: int,
    iouMinted: int, iouRedeemed: int, swapCount: nat)

  datatype IouToken = IouToken(totalSupply: int, treasuryFees: int)

  datatype Asset = Asset(
    decimals: Option<Decimals>, iou: Addr, position: nat, iouSupply: int, weight: Option<int>)

  datatype Pool = Pool(
    lpSupply: int, swapCount: nat,
    // PoolDeployed's columns
    reserve: Addr, basePool: Addr, coin: Addr, isBasePool: Option<bool>, deployer: Addr,
    // PlainPoolDeployed / MetaPoolDeployed's columns
    curveFactory: Addr, isMeta: Option<bool>, amplification: Option<int>, fee: Option<int>,
    coins: seq<Addr>,
    firstBlock: nat, lastBlock: nat)

  datatype ValueRow = ValueRow(
    block: nat, timestamp: nat, totalAssets: int, iouDebt: int, nav: int, totalSupply: int)

  datatype AssetDay = AssetDay(
    block: nat, timestamp: nat, decimals: Option<Decimals>, balance: int, iouSupply: int,
    value: int, iouValue: int)

  /** A value bound to a placeholder of a generated statement. */
  datatype Cell = Text(s: string) | Number(n: nat) | Address(a: Addr)

  /** A row of a "fold the setters" table; a column that is not a key of the map is NULL. */
  type PatchRow = map<string, Cell>

  datatype DayKey = DayKey(id: Id, day: nat)

  datatype Ledger = Ledger(
    reserves: map<Id, Reserve>,
    lpBalances: map<Id, map<Addr, int>>,
    assets: map<Id, map<Addr, Asset>>,
    tokenBalances: map<Id, map<Addr, int>>,
    settings: map<Id, PatchRow>,
    iouTokens: map<Id, IouToken>,
    iouBalances: map<Id, map<Addr, int>>,
    pools: map<Id, Pool>,
    poolBalances: map<Id, map<Addr, int>>,
    redemptionPrices: map<Id, Option<int>>,
    valueHistory: map<Id, map<nat, ValueRow>>,
    assetHistory: map<DayKey, map<Addr, AssetDay>>)

  const EMPTY_LEDGER := Ledger(map[], map[], map[], map[], map[], map[], map[], map[], map[], map[], map[], map[])

  /** The rows of one owner; an owner without rows has the empty map. */
  function Rows<I, K, V>(table: map<I, map<K, V>>, id: I): map<K, V> {
    if id in table then table[id] else map[]
  }

  // --- logs ---

  /** An array argument after splitArrayArg: rejected, or its elements (empty when absent). */
  datatype ArrayArg<T> = Malformed | Elements(elements: seq<T>)

  datatype Setting =
    | FlashFee(flashFeeBps: string)
    | BaseQuoteFee(baseQuoteFeeBps: string)
    | SingleAssetFee(singleAssetFeeBps: string)
    | RedemptionProximity(redemptionProximityBps: string)
    | RebalanceTrigger(triggerBps: string)
    | RebalanceDeviation(deviationBps: string)
    | IouDistribution(traderBps: string, treasuryBps: string)
    | BaseQuoteDistribution(quoteTraderBps: string, quoteTreasuryBps: string)
    | SwapSpread(minBps: string, maxBps: string)

  /** One log of a transaction receipt, as far as a constructor Transfer is recognised by it. */
  datatype ReceiptLog = ReceiptLog(index: nat, emitter: Contract, transfer: Option<TransferArgs>)
  datatype TransferArgs = TransferArgs(from: Addr, to: Addr, value: int)

  /** An event with its decoded arguments. An absent numeric argument is 0, as num() reads it. */
  datatype Event =
    | Transfer(from: Addr, to: Addr, value: Option<int>)
    | Deposit(amounts: ArrayArg<int>, nativeIn: int, baseLpIn: int, lpMinted: int)
    | Withdraw(amounts: ArrayArg<int>, nativeOut: int, baseLpOut: int, lpBurned: int)
    | SingleAssetDeposit(asset: Addr, amountIn: int, fee: int, lpMinted: int)
    | SingleAssetWithdraw(asset: Addr, amountOut: int, fee: int, lpBurned: int)
    | Rebalanced(tokenIn: Addr, amountIn: int, tokenOut: Addr, amountOut: int)
    | Swap(tokenIn: Addr, amountIn: int, tokenOut: Addr, amountOut: int)
    | IouMinted(asset: Addr, amount: int)
    | IouRedeemed(asset: Addr, amount: int)
    | FlashLoan(token: Addr, fee: int)
    | DonationRecognized(asset: Addr, units: int)
    | AssetAdded(asset: Addr, decimals: Option<Decimals>, iou: Addr, weight: Option<int>)
    | SettingUpdated(setting: Setting)
    | ClearIouMinted(treasuryFee: int)
    | TokenExchange
    | LiquidityChanged(tokenAmounts: ArrayArg<int>, fees: ArrayArg<int>)
    | OracleConfigured(asset: Addr, redemptionPrice: Option<int>)
    | RedemptionPriceChanged(asset: Addr, price: int)
    | NewClearReserve(reserve: Addr, reserveType: Option<ReserveType>, tokens: ArrayArg<Addr>)
    | PoolDeployed(pool: Addr, reserve: Addr, basePool: Addr, coin: Addr)
    /** PlainPoolDeployed / MetaPoolDeployed; `receipt` is the chain's answer for the deployment
        transaction, None when the exporter has no RPC endpoint. */
    | CurvePoolDeployed(
        meta: bool, receipt: Option<seq<ReceiptLog>>, coins: ArrayArg<Addr>, coin: Addr, basePool: Addr,
        deployer: Addr, amplification: Option<int>, poolFee: Option<int>)
    | OtherEvent

  datatype Log = Log(
    id: string, chain: nat, address: Contract, contractName: string,
    block: nat, timestamp: nat, logIndex: nat, event: Event,
    /** The answer of the unordered LIMIT 1 query among the reserves that claim an IOU, if it is run. */
    claimant: Addr)

  /** The contract a log was emitted by. */
  function Emitter(log: Log): Id {
    Id(log.chain, log.address)
  }

  /** The UTC day of a block timestamp: (to_timestamp(ts) AT TIME ZONE 'UTC')::date. */
  function Day(timestamp: nat): nat {
    timestamp / 86400
  }

  function TypeOf(k: Kind): ReserveType {
    if k.MetaReserveKind? then MetaReserve else BaseReserve
  }
}
