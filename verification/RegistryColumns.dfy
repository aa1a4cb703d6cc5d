/**
 What the rows of reserves, assets and IOUs hold besides balances and supplies, read off the committed
 events, and which events fail (handlers.go: ensureReserve, handleAssetAdded, handleNewClearReserve,
 handleIouTreasuryFee).
 */
module RegistryColumns {
  import opened Addresses
  import opened Delivery
  import opened Effects
  import opened Frames
  import opened History
  import opened Kinds
  import opened Options
  import opened Sums
  import opened Tables
  import opened Traces
  import opened Valuation
  import CurvePools

  // --- reserves ---

  /** The type a log says the reserve is of, where the log adds a row for a reserve that has none. */
  function Opens(truth: Truth, log: Log, id: Id): Option<ReserveType> {
    var k, e := truth(log.address), log.event;
    if (k.BaseReserveKind? || k.MetaReserveKind?) && Emitter(log) == id && OpensOwn(e)
    then Some(if k.MetaReserveKind? then MetaReserve else BaseReserve)
    else if k.FactoryKind? && e.NewClearReserve? && log.chain == id.chain && e.reserve == id.addr
            && id.addr != NoAddr && id.addr != ZERO_ADDRESS
    then e.reserveType
    else None
  }

  /** Every event of a reserve but a Transfer without a value and the ones that are not followed. */
  predicate OpensOwn(e: Event) {
    || e.Deposit? || e.Withdraw? || e.SingleAssetDeposit? || e.SingleAssetWithdraw? || e.Rebalanced? || e.Swap?
    || e.IouMinted? || e.IouRedeemed? || e.FlashLoan? || e.DonationRecognized? || e.AssetAdded? || e.SettingUpdated?
    || (e.Transfer? && e.value.Some?)
  }

  function KindOf(t: Ledger, id: Id): Option<ReserveType> {
    if id in t.reserves then Some(t.reserves[id].kind) else None
  }

  /** The type the first of the logs that opens the reserve gives it. */
  function FirstType(truth: Truth, logs: seq<Log>, id: Id): Option<ReserveType> {
    if logs == [] then None
    else
      var earlier := FirstType(truth, logs[..|logs| - 1], id);
      if earlier.Some? then earlier else Opens(truth, logs[|logs| - 1], id)
  }

  lemma EnsuredKind(t: Ledger, id: Id, rt: ReserveType, other: Id)
    ensures var r := t.(reserves := EnsureReserve(t.reserves, id, rt));
            KindOf(r, other) ==
            if KindOf(t, other).Some? then KindOf(t, other) else if other == id then Some(rt) else None
  {
  }

  lemma FlowKind(t: Ledger, log: Log, rt: ReserveType, id: Id)
    requires FlowEvent(t, log, rt).Some?
    ensures KindOf(FlowEvent(t, log, rt).value, id) ==
            if KindOf(t, id).Some? then KindOf(t, id) else if id == Emitter(log) then Some(rt) else None
  {
    hide SnapshotValue, SnapshotAssets, DividesByZero, AddFlows, Flows, Counted;
    var b := Moved(t, Emitter(log), rt, log.event);
    CountedKeepsSupply(ReserveRow(b.reserves, Emitter(log), rt), log.event);
  }

  lemma ReserveKindStep(t: Ledger, log: Log, rt: ReserveType, id: Id)
    requires ApplyReserve(t, log, rt).Some?
    ensures KindOf(ApplyReserve(t, log, rt).value, id) ==
            if KindOf(t, id).Some? then KindOf(t, id)
            else if id == Emitter(log) && OpensOwn(log.event) then Some(rt) else None
  {
    hide FlowEvent, AddAsset, UpdateSetting, ReserveTransfer, PutAsset, EnsureReserve;
    RegistrationFrame(t, log, rt);
    EnsuredKind(t, Emitter(log), rt, id);
    if IsFlowEvent(log.event) {
      FlowKind(t, log, rt, id);
    } else if IsTransfer(log.event) {
      ReserveTransferFrame(t, log, rt, log.event.from, log.event.to, log.event.value.value);
    }
  }

  lemma FactoryKindStep(t: Ledger, log: Log, id: Id)
    requires ApplyFactory(t, log).Some?
    ensures var e := log.event;
            KindOf(ApplyFactory(t, log).value, id) ==
            if KindOf(t, id).Some? then KindOf(t, id)
            else if e.NewClearReserve? && Proper(e.reserve) && id == Id(log.chain, e.reserve) then e.reserveType
            else None
  {
    hide EnsureReserve;
    if log.event.NewClearReserve? && log.event.reserveType.Some? {
      EnsuredKind(t, Id(log.chain, log.event.reserve), log.event.reserveType.value, id);
    }
  }

  lemma KindStep(t: Ledger, log: Log, truth: Truth, id: Id)
    requires Apply(t, log, truth(log.address)).Some?
    ensures KindOf(Apply(t, log, truth(log.address)).value, id) ==
            if KindOf(t, id).Some? then KindOf(t, id) else Opens(truth, log, id)
  {
    hide ApplyReserve, ApplyIou, ApplyCurve, ApplyOracle, ApplyFactory, ApplyDeployer, ApplyCurveFactory, OpensOwn;
    var k := truth(log.address);
    if IsReserveKind(k) {
      ReserveKindStep(t, log, TypeOf(k), id);
    } else if k.IouKind? {
      IouFrame(t, log);
    } else if k.FactoryKind? {
      FactoryKindStep(t, log, id);
    } else {
      NonFactoryFrame(t, log, k);
    }
  }

  /** A reserve has a row from the first committed log that opens it on, and is ever after of the type that log
      gives it. */
  lemma {:induction false} KindIsTheFirst(truth: Truth, logs: seq<Log>, id: Id)
    requires Replay(truth, EMPTY_LEDGER, logs).Some?
    ensures KindOf(Replay(truth, EMPTY_LEDGER, logs).value, id) == FirstType(truth, logs, id)
  {
    hide Apply, Opens, KindOf;
    if logs == [] {
      NoKindYet(id);
    } else {
      var n := |logs| - 1;
      KindIsTheFirst(truth, logs[..n], id);
      KindStep(Replay(truth, EMPTY_LEDGER, logs[..n]).value, logs[n], truth, id);
    }
  }

  lemma NoKindYet(id: Id)
    ensures KindOf(EMPTY_LEDGER, id) == None
  {
  }

  // --- assets ---

  function LastRegistration(truth: Truth, logs: seq<Log>, id: Id, a: Addr): Option<Log> {
    if logs == [] then None
    else if RegistersAsset(truth, logs[|logs| - 1], id, a) then Some(logs[|logs| - 1])
    else LastRegistration(truth, logs[..|logs| - 1], id, a)
  }

  /** The asset's row carries the decimals, IOU and weight of a registration. */
  predicate Carries(t: Ledger, id: Id, a: Addr, log: Log) {
    var rows := Rows(t.assets, id);
    && a in rows && log.event.AssetAdded?
    && rows[a].decimals == log.event.decimals && rows[a].iou == log.event.iou && rows[a].weight == log.event.weight
  }

  lemma AssetStep(t: Ledger, log: Log, truth: Truth, id: Id, a: Addr, earlier: Log)
    requires Apply(t, log, truth(log.address)).Some?
    ensures var r := Apply(t, log, truth(log.address)).value;
            && (RegistersAsset(truth, log, id, a) ==> Carries(r, id, a, log))
            && (!RegistersAsset(truth, log, id, a) ==>
                  && (a in Rows(r.assets, id) <==> a in Rows(t.assets, id))
                  && (Carries(t, id, a, earlier) ==> Carries(r, id, a, earlier)))
  {
    hide Apply, PutAsset, MirrorSupply, AddFlows, Flows;
    var k := truth(log.address);
    RegistryFrame(t, log, k);
    if IsReserveKind(k) && log.event.AssetAdded? {
      PutRow(Rows(t.assets, Emitter(log)), log.event, a);
    } else if k.IouKind? && IsSupplyTransfer(log.event) {
      MirrorRow(t.assets, Emitter(log), SupplyChange(log.event.from, log.event.to, log.event.value.value), id, a);
    }
  }

  /** An asset has a row from its first registration on, with the decimals, IOU and weight of its last one. */
  lemma {:induction false} AssetsCarryTheLast(truth: Truth, logs: seq<Log>, id: Id, a: Addr)
    requires Replay(truth, EMPTY_LEDGER, logs).Some?
    ensures var t := Replay(truth, EMPTY_LEDGER, logs).value;
            match LastRegistration(truth, logs, id, a)
            case Some(log) => Carries(t, id, a, log)
            case None => a !in Rows(t.assets, id)
  {
    hide Apply, Carries, RegistersAsset;
    if logs != [] {
      var n := |logs| - 1;
      AssetsCarryTheLast(truth, logs[..n], id, a);
      var earlier := LastRegistration(truth, logs[..n], id, a);
      AssetStep(Replay(truth, EMPTY_LEDGER, logs[..n]).value, logs[n], truth, id, a, earlier.GetOr(logs[n]));
    }
  }

  // --- IOUs ---

  /** The log makes the IOU known: an asset names it, or it reports a transfer or a mint itself. */
  predicate NamesIou(truth: Truth, log: Log, id: Id) {
    var k, e := truth(log.address), log.event;
    || (k.IouKind? && Emitter(log) == id && (e.ClearIouMinted? || (e.Transfer? && e.value.Some?)))
    || ((k.BaseReserveKind? || k.MetaReserveKind?) && e.AssetAdded? && log.chain == id.chain && e.iou == id.addr
        && id.addr != NoAddr && id.addr != ZERO_ADDRESS)
  }

  lemma ReserveIous(t: Ledger, log: Log, rt: ReserveType, id: Id)
    requires ApplyReserve(t, log, rt).Some?
    ensures id in ApplyReserve(t, log, rt).value.iouTokens <==>
            || id in t.iouTokens
            || (log.event.AssetAdded? && Proper(log.event.iou) && Id(log.chain, log.event.iou) == id)
  {
    hide FlowEvent, UpdateSetting, ReserveTransfer, PutAsset, EnsureReserve;
    RegistrationFrame(t, log, rt);
    if IsFlowEvent(log.event) {
      FlowEventFrame(t, log, rt);
    } else if IsTransfer(log.event) {
      ReserveTransferFrame(t, log, rt, log.event.from, log.event.to, log.event.value.value);
    }
  }

  lemma TransferredIous(t: Ledger, iou: Id, from: Addr, to: Addr, v: int, id: Id)
    ensures id in IouTransferred(t, iou, from, to, v).iouTokens <==> id in t.iouTokens || id == iou
  {
    hide MoveBalances, MirrorSupply;
  }

  lemma OwnIous(t: Ledger, log: Log, id: Id)
    requires ApplyIou(t, log).Some?
    ensures id in ApplyIou(t, log).value.iouTokens <==>
            id in t.iouTokens || ((log.event.ClearIouMinted? || IsTransfer(log.event)) && Emitter(log) == id)
  {
    hide IouTransfer, IouTransferred;
    var e := log.event;
    if IsTransfer(e) {
      IouTransferFrame(t, log, e.from, e.to, e.value.value);
      TransferredIous(t, Emitter(log), e.from, e.to, e.value.value, id);
    } else if e.ClearIouMinted? {
      assert ApplyIou(t, log).value.iouTokens == FeePaid(t.iouTokens, Emitter(log), e.treasuryFee);
    }
  }

  lemma IouStep(t: Ledger, log: Log, truth: Truth, id: Id)
    requires Apply(t, log, truth(log.address)).Some?
    ensures id in Apply(t, log, truth(log.address)).value.iouTokens <==> id in t.iouTokens || NamesIou(truth, log, id)
  {
    hide ApplyReserve, ApplyIou, ApplyCurve, ApplyOracle, ApplyFactory, ApplyDeployer, ApplyCurveFactory;
    var k := truth(log.address);
    if IsReserveKind(k) {
      ReserveIous(t, log, TypeOf(k), id);
    } else if k.IouKind? {
      OwnIous(t, log, id);
    } else {
      OtherFrame(t, log, k);
    }
  }

  predicate Named(truth: Truth, logs: seq<Log>, id: Id) {
    logs != [] && (NamesIou(truth, logs[|logs| - 1], id) || Named(truth, logs[..|logs| - 1], id))
  }

  /** The IOUs with a row are those some committed log makes known. */
  lemma {:induction false} IousAreNamed(truth: Truth, logs: seq<Log>, id: Id)
    requires Replay(truth, EMPTY_LEDGER, logs).Some?
    ensures id in Replay(truth, EMPTY_LEDGER, logs).value.iouTokens <==> Named(truth, logs, id)
  {
    hide Apply, NamesIou;
    if logs != [] {
      var n := |logs| - 1;
      IousAreNamed(truth, logs[..n], id);
      IouStep(Replay(truth, EMPTY_LEDGER, logs[..n]).value, logs[n], truth, id);
    }
  }

  // --- treasury fees ---

  function Fees(t: Ledger, id: Id): int {
    if id in t.iouTokens then t.iouTokens[id].treasuryFees else 0
  }

  function FeeIn(truth: Truth, id: Id): Log -> int {
    (log: Log) =>
      if truth(log.address).IouKind? && Emitter(log) == id && log.event.ClearIouMinted? then log.event.treasuryFee
      else 0
  }

  lemma EnsuredFees(t: Ledger, iou: Id, id: Id)
    ensures Fees(t.(iouTokens := EnsureIou(t.iouTokens, iou)), id) == Fees(t, id)
  {
  }

  lemma ReserveFees(t: Ledger, log: Log, rt: ReserveType, id: Id)
    requires ApplyReserve(t, log, rt).Some?
    ensures Fees(ApplyReserve(t, log, rt).value, id) == Fees(t, id)
  {
    hide FlowEvent, UpdateSetting, ReserveTransfer, PutAsset, EnsureReserve, EnsureIou;
    RegistrationFrame(t, log, rt);
    if IsFlowEvent(log.event) {
      FlowEventFrame(t, log, rt);
    } else if IsTransfer(log.event) {
      ReserveTransferFrame(t, log, rt, log.event.from, log.event.to, log.event.value.value);
    } else if log.event.AssetAdded? {
      EnsuredFees(t, Id(log.chain, log.event.iou), id);
    }
  }

  lemma TransferFees(t: Ledger, iou: Id, from: Addr, to: Addr, v: int, id: Id)
    ensures Fees(IouTransferred(t, iou, from, to, v), id) == Fees(t, id)
  {
    hide MoveBalances, MirrorSupply;
  }

  lemma FeePaidFees(t: Ledger, iou: Id, fee: int, id: Id)
    ensures Fees(t.(iouTokens := FeePaid(t.iouTokens, iou, fee)), id) == Fees(t, id) + if id == iou then fee else 0
  {
  }

  lemma IouFees(t: Ledger, log: Log, id: Id)
    requires ApplyIou(t, log).Some?
    ensures Fees(ApplyIou(t, log).value, id) ==
            Fees(t, id) + if Emitter(log) == id && log.event.ClearIouMinted? then log.event.treasuryFee else 0
  {
    hide IouTransfer, IouTransferred, FeePaid, Fees;
    var e := log.event;
    if IsTransfer(e) {
      IouTransferFrame(t, log, e.from, e.to, e.value.value);
      TransferFees(t, Emitter(log), e.from, e.to, e.value.value, id);
      SameFees(IouTransferred(t, Emitter(log), e.from, e.to, e.value.value), ApplyIou(t, log).value, id);
    } else if e.ClearIouMinted? {
      FeePaidFees(t, Emitter(log), e.treasuryFee, id);
    }
  }

  lemma FeeStep(t: Ledger, log: Log, truth: Truth, id: Id)
    requires Apply(t, log, truth(log.address)).Some?
    ensures Fees(Apply(t, log, truth(log.address)).value, id) == Fees(t, id) + FeeIn(truth, id)(log)
  {
    hide ApplyReserve, ApplyIou, ApplyCurve, ApplyOracle, ApplyFactory, ApplyDeployer, ApplyCurveFactory, Fees;
    var k := truth(log.address);
    if IsReserveKind(k) {
      ReserveFees(t, log, TypeOf(k), id);
    } else if k.IouKind? {
      IouFees(t, log, id);
    } else {
      OtherFrame(t, log, k);
      SameFees(t, Apply(t, log, k).value, id);
    }
  }

  lemma SameFees(t: Ledger, r: Ledger, id: Id)
    requires r.iouTokens == t.iouTokens
    ensures Fees(r, id) == Fees(t, id)
  {
  }

  /** An IOU's treasury fees are the sum of those its committed ClearIOUMinted logs name. */
  lemma {:induction false} FeesAreSums(truth: Truth, logs: seq<Log>, id: Id)
    requires Replay(truth, EMPTY_LEDGER, logs).Some?
    ensures Fees(Replay(truth, EMPTY_LEDGER, logs).value, id) == SumOver(logs, FeeIn(truth, id))
  {
    hide Apply, FeeIn;
    if logs != [] {
      var n := |logs| - 1;
      FeesAreSums(truth, logs[..n], id);
      FeeStep(Replay(truth, EMPTY_LEDGER, logs[..n]).value, logs[n], truth, id);
    }
  }

  // --- failures ---

  /** The events whose handler returns an error for what they carry. */
  predicate Unreadable(log: Log, k: Kind) {
    var e := log.event;
    || (k.BaseReserveKind? && ((e.Deposit? && e.amounts.Malformed?) || (e.Withdraw? && e.amounts.Malformed?)))
    || (k.CurveKind? && e.LiquidityChanged? && (e.tokenAmounts.Malformed? || e.fees.Malformed?))
    || (k.FactoryKind? && e.NewClearReserve? && e.reserve != NoAddr && e.reserve != ZERO_ADDRESS
        && (e.reserveType.None? || e.tokens.Malformed?))
    || (k.CurveFactoryKind? && e.CurvePoolDeployed? && e.receipt.Some? && CurvePools.Deployed(log) != NoAddr
        && !e.meta && e.coins.Malformed?)
  }

  lemma FlowFails(t: Ledger, log: Log, rt: ReserveType)
    ensures FlowEvent(t, log, rt).None? <==>
            RejectsAmounts(log.event, rt) || DividesByZero(Moved(t, Emitter(log), rt, log.event), Emitter(log))
  {
    hide SnapshotValue, SnapshotAssets, DividesByZero, AddFlows, Flows, Counted;
  }

  /** A base leg of the reserve whose LP supply is -1: a snapshot would divide by zero. */
  predicate HasStuckLeg(t: Ledger, id: Id) {
    exists a :: a in Rows(t.assets, id) && IsStuck(t.reserves, Id(id.chain, a))
  }

  predicate IsStuck(reserves: map<Id, Reserve>, leg: Id) {
    leg in reserves && reserves[leg].kind.BaseReserve? && reserves[leg].lpSupply == -1
  }

  lemma DividesIffStuck(t: Ledger, r: Ledger, id: Id)
    requires forall a :: a in Rows(r.assets, id) <==> a in Rows(t.assets, id)
    requires forall leg :: IsStuck(r.reserves, leg) <==> IsStuck(t.reserves, leg)
    ensures DividesByZero(r, id) <==> HasStuckLeg(t, id)
  {
    forall a | a in Rows(r.assets, id)
      ensures LegDividesByZero(r, Id(id.chain, a)) <==> IsStuck(t.reserves, Id(id.chain, a))
    {
    }
  }

  /** A log that takes no snapshot is rejected exactly for its arguments. */
  lemma RejectedIff(t: Ledger, log: Log, k: Kind)
    requires !IsFlow(log, k) && !(k.IouKind? && IsSupplyTransfer(log.event))
    ensures Apply(t, log, k).None? <==> Unreadable(log, k)
  {
    hide FlowEvent, AddAsset, UpdateSetting, ReserveTransfer, PoolTransfer, TouchedPool, CurvePools.Linked,
         CurvePools.Described, CurvePools.Deployed, FeePaid, PricesAfter, IouTransferred, EnsureReserve;
  }

  /** A flow is rejected for its arguments or for a stuck leg of its reserve. */
  lemma FlowRejectedIff(t: Ledger, log: Log, k: Kind)
    requires IsFlow(log, k)
    ensures Apply(t, log, k).None? <==> Unreadable(log, k) || HasStuckLeg(t, Emitter(log))
  {
    hide FlowEvent, DividesByZero, HasStuckLeg, AddFlows, Flows, CurvePools.Deployed;
    FlowFails(t, log, TypeOf(k));
    DividesIffStuck(t, Moved(t, Emitter(log), TypeOf(k), log.event), Emitter(log));
  }

  /** The mint or burn of an IOU is rejected for a stuck leg of the reserve that claims it. */
  lemma MintRejectedIff(t: Ledger, log: Log)
    requires IsSupplyTransfer(log.event)
    ensures var claimants := Claimants(t.assets, Emitter(log));
            Apply(t, log, IouKind).None? <==>
            && claimants != {} && Picked(claimants, log) != NoAddr
            && HasStuckLeg(t, Id(log.chain, Picked(claimants, log)))
  {
    hide DividesByZero, HasStuckLeg, SnapshotValue, SnapshotAssets, MoveBalances;
    var e := log.event;
    var r := IouTransferred(t, Emitter(log), e.from, e.to, e.value.value);
    MirrorKeepsClaims(t.assets, Emitter(log), SupplyChange(e.from, e.to, e.value.value));
    var claimants := Claimants(t.assets, Emitter(log));
    if claimants != {} {
      DividesIffStuck(t, r, Id(log.chain, Picked(claimants, log)));
    }
  }
}
