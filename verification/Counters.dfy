/**
 Cumulative columns and the oracle price: what a run leaves in them, read off its events
 (handlers.go: the flow handlers' counters, handleIouTreasuryFee, the redemption price handlers).
 */
module Counters {
  import opened Addresses
  import opened Delivery
  import opened Effects
  import opened Frames
  import opened Kinds
  import opened Options
  import opened Sums
  import opened Tables
  import opened Valuation

  datatype Counter = Deposited | Withdrawn | IousMinted | IousRedeemed | Swaps

  function Read(row: Reserve, c: Counter): int {
    match c
    case Deposited => row.totalDeposits
    case Withdrawn => row.totalWithdrawals
    case IousMinted => row.iouMinted
    case IousRedeemed => row.iouRedeemed
    case Swaps => row.swapCount
  }

  function Stored(reserves: map<Id, Reserve>, id: Id, c: Counter): int {
    if id in reserves then Read(reserves[id], c) else 0
  }

  /** What an event adds to a counter. */
  function Adds(e: Event, c: Counter): int {
    match c
    case Deposited => if e.Deposit? || e.SingleAssetDeposit? then e.lpMinted else 0
    case Withdrawn => if e.Withdraw? || e.SingleAssetWithdraw? then e.lpBurned else 0
    case IousMinted => if e.IouMinted? then e.amount else 0
    case IousRedeemed => if e.IouRedeemed? then e.amount else 0
    case Swaps => if e.Swap? then 1 else 0
  }

  function AddedBy(truth: Truth, id: Id, c: Counter): Log -> int {
    (log: Log) => if IsReserveKind(truth(log.address)) && Emitter(log) == id then Adds(log.event, c) else 0
  }

  lemma CountedAdds(row: Reserve, e: Event, c: Counter)
    ensures Read(Counted(row, e), c) == Read(row, c) + Adds(e, c)
  {
  }

  lemma EnsureKeeps(reserves: map<Id, Reserve>, id: Id, rt: ReserveType, other: Id, c: Counter)
    ensures Stored(EnsureReserve(reserves, id, rt), other, c) == Stored(reserves, other, c)
    ensures Read(ReserveRow(reserves, id, rt), c) == Stored(reserves, id, c)
  {
  }

  lemma FlowCounts(t: Ledger, log: Log, rt: ReserveType, id: Id, c: Counter)
    requires FlowEvent(t, log, rt).Some?
    ensures Stored(FlowEvent(t, log, rt).value.reserves, id, c) ==
            Stored(t.reserves, id, c) + (if id == Emitter(log) then Adds(log.event, c) else 0)
  {
    hide SnapshotValue, SnapshotAssets, DividesByZero, AddFlows, Flows, Counted, Read, Adds, ReserveRow, EnsureReserve;
    var who := Emitter(log);
    var moved := Moved(t, who, rt, log.event).reserves;
    EnsureKeeps(t.reserves, who, rt, id, c);
    EnsureKeeps(t.reserves, who, rt, who, c);
    EnsureKeeps(moved, who, rt, who, c);
    CountedAdds(ReserveRow(moved, who, rt), log.event, c);
  }

  lemma OthersAddNothing(e: Event, c: Counter)
    requires !IsFlowEvent(e)
    ensures Adds(e, c) == 0
  {
  }

  lemma SupplyKeeps(reserves: map<Id, Reserve>, id: Id, rt: ReserveType, supply: int, other: Id, c: Counter)
    ensures Stored(reserves[id := ReserveRow(reserves, id, rt).(lpSupply := supply)], other, c) ==
            Stored(reserves, other, c)
  {
  }

  lemma ReserveCounts(t: Ledger, log: Log, rt: ReserveType, id: Id, c: Counter)
    requires ApplyReserve(t, log, rt).Some?
    ensures Stored(ApplyReserve(t, log, rt).value.reserves, id, c) ==
            Stored(t.reserves, id, c) + (if id == Emitter(log) then Adds(log.event, c) else 0)
  {
    hide FlowEvent, AddAsset, UpdateSetting, ReserveTransfer, Stored, Adds, ReserveRow, EnsureReserve, PutAsset;
    RegistrationFrame(t, log, rt);
    EnsureKeeps(t.reserves, Emitter(log), rt, id, c);
    if IsFlowEvent(log.event) {
      FlowCounts(t, log, rt, id, c);
    } else {
      OthersAddNothing(log.event, c);
      if IsTransfer(log.event) {
        ReserveTransferFrame(t, log, rt, log.event.from, log.event.to, log.event.value.value);
        SupplyKeeps(t.reserves, Emitter(log), rt,
                    ReserveRow(t.reserves, Emitter(log), rt).lpSupply +
                      SupplyChange(log.event.from, log.event.to, log.event.value.value), id, c);
      }
    }
  }

  lemma FactoryCounts(t: Ledger, log: Log, id: Id, c: Counter)
    requires ApplyFactory(t, log).Some?
    ensures Stored(ApplyFactory(t, log).value.reserves, id, c) == Stored(t.reserves, id, c)
  {
    hide Stored, EnsureReserve;
    if log.event.NewClearReserve? && log.event.reserveType.Some? {
      EnsureKeeps(t.reserves, Id(log.chain, log.event.reserve), log.event.reserveType.value, id, c);
    }
  }

  lemma CountStep(t: Ledger, log: Log, truth: Truth, id: Id, c: Counter)
    requires Apply(t, log, truth(log.address)).Some?
    ensures Stored(Apply(t, log, truth(log.address)).value.reserves, id, c) ==
            Stored(t.reserves, id, c) + AddedBy(truth, id, c)(log)
  {
    hide ApplyReserve, ApplyIou, ApplyCurve, ApplyOracle, ApplyFactory, ApplyDeployer, ApplyCurveFactory, Stored,
         Adds, EnsureReserve;
    var k := truth(log.address);
    if IsReserveKind(k) {
      ReserveCounts(t, log, TypeOf(k), id, c);
    } else if k.IouKind? {
      IouFrame(t, log);
    } else if k.FactoryKind? {
      FactoryCounts(t, log, id, c);
    } else {
      NonFactoryFrame(t, log, k);
    }
  }

  /** Every cumulative column of a reserve is the sum of what its committed events declare. */
  lemma {:induction false} CountersAreSums(truth: Truth, logs: seq<Log>, id: Id, c: Counter)
    requires Replay(truth, EMPTY_LEDGER, logs).Some?
    ensures Stored(Replay(truth, EMPTY_LEDGER, logs).value.reserves, id, c) == SumOver(logs, AddedBy(truth, id, c))
  {
    hide Apply, AddedBy;
    if logs != [] {
      var n := |logs| - 1;
      CountersAreSums(truth, logs[..n], id, c);
      CountStep(Replay(truth, EMPTY_LEDGER, logs[..n]).value, logs[n], truth, id, c);
    }
  }

  // --- the redemption price ---

  /** The price a log sets for an asset: Some(None) clears it to NULL. */
  function PriceSet(truth: Truth, log: Log, asset: Id): Option<Option<int>> {
    if !truth(log.address).OracleKind? || log.chain != asset.chain || asset.addr == NoAddr then None
    else if log.event.OracleConfigured? && log.event.asset == asset.addr then Some(log.event.redemptionPrice)
    else if log.event.RedemptionPriceChanged? && log.event.asset == asset.addr then Some(Some(log.event.price))
    else None
  }

  /** The last price set. */
  function LastPrice(truth: Truth, logs: seq<Log>, asset: Id): Option<Option<int>> {
    if logs == [] then None
    else if PriceSet(truth, logs[|logs| - 1], asset).Some? then PriceSet(truth, logs[|logs| - 1], asset)
    else LastPrice(truth, logs[..|logs| - 1], asset)
  }

  lemma OraclePrice(truth: Truth, prices: map<Id, Option<int>>, log: Log, asset: Id)
    requires truth(log.address).OracleKind?
    ensures Lookup(PricesAfter(prices, log), asset) ==
            if PriceSet(truth, log, asset).Some? then PriceSet(truth, log, asset) else Lookup(prices, asset)
  {
  }

  lemma OnlyOraclesSetPrices(truth: Truth, log: Log, asset: Id)
    ensures !truth(log.address).OracleKind? ==> PriceSet(truth, log, asset) == None
  {
  }

  lemma PriceStep(t: Ledger, log: Log, truth: Truth, asset: Id)
    requires Apply(t, log, truth(log.address)).Some?
    ensures Lookup(Apply(t, log, truth(log.address)).value.redemptionPrices, asset) ==
            if PriceSet(truth, log, asset).Some? then PriceSet(truth, log, asset) else Lookup(t.redemptionPrices, asset)
  {
    hide ApplyReserve, ApplyIou, ApplyCurve, ApplyFactory, ApplyDeployer, ApplyCurveFactory, PricesAfter, Lookup,
         PriceSet;
    var k := truth(log.address);
    OnlyOraclesSetPrices(truth, log, asset);
    if IsReserveKind(k) {
      ReserveFrame(t, log, TypeOf(k));
    } else if k.IouKind? {
      IouFrame(t, log);
    } else if k.OracleKind? {
      OraclePrice(truth, t.redemptionPrices, log, asset);
    } else {
      PricesFrame(t, log, k);
    }
  }

  lemma PricesFrame(t: Ledger, log: Log, k: Kind)
    requires !IsReserveKind(k) && !k.IouKind? && !k.OracleKind? && Apply(t, log, k).Some?
    ensures Apply(t, log, k).value.redemptionPrices == t.redemptionPrices
  {
    hide ApplyCurve, PricesAfter, ApplyFactory, ApplyDeployer, ApplyCurveFactory;
    if k.CurveKind? { CurveFrame(t, log); }
    DiscoveryFrame(t, log);
    CurveFactoryFrame(t, log);
  }

  function Lookup(prices: map<Id, Option<int>>, asset: Id): Option<Option<int>> {
    if asset in prices then Some(prices[asset]) else None
  }

  /** The price the valuation reads is the one the last committed oracle event set, scaled; par if none did. */
  lemma {:induction false} PriceIsTheLastSet(truth: Truth, logs: seq<Log>, asset: Id)
    requires Replay(truth, EMPTY_LEDGER, logs).Some?
    ensures Lookup(Replay(truth, EMPTY_LEDGER, logs).value.redemptionPrices, asset) == LastPrice(truth, logs, asset)
    ensures Price(Replay(truth, EMPTY_LEDGER, logs).value, asset) ==
            match LastPrice(truth, logs, asset) case Some(Some(p)) => p * ORACLE_PRICE_SCALE case _ => ONE
  {
    hide Apply, PriceSet;
    if logs != [] {
      var n := |logs| - 1;
      PriceIsTheLastSet(truth, logs[..n], asset);
      PriceStep(Replay(truth, EMPTY_LEDGER, logs[..n]).value, logs[n], truth, asset);
    }
  }
}
