/** Which events touch which tables (dispatch.go): one exact update per table, everything else unchanged. */
module Frames {
  import opened Addresses
  import opened Effects
  import opened Kinds
  import opened Tables
  import opened Valuation
  import CurvePools
  import Settings

  predicate IsReserveKind(k: Kind) {
    k.BaseReserveKind? || k.MetaReserveKind?
  }

  predicate IsSupplyTransfer(e: Event) {
    IsTransfer(e) && ChangesSupply(e.from, e.to)
  }

  predicate IsFlow(log: Log, k: Kind) {
    IsReserveKind(k) && IsFlowEvent(log.event)
  }

  /** The asset registry after a log. */
  function AssetsAfter(t: Ledger, log: Log, k: Kind): map<Id, map<Addr, Asset>> {
    if IsReserveKind(k) && log.event.AssetAdded?
    then t.assets[Emitter(log) := PutAsset(Rows(t.assets, Emitter(log)), log.event)]
    else if k.IouKind? && IsSupplyTransfer(log.event)
    then MirrorSupply(t.assets, Emitter(log), SupplyChange(log.event.from, log.event.to, log.event.value.value))
    else t.assets
  }

  /** The physical holdings after a log. */
  function TokenBalancesAfter(t: Ledger, log: Log, k: Kind): map<Id, map<Addr, int>> {
    if IsFlow(log, k)
    then AddFlows(t.tokenBalances, Emitter(log), Flows(t, Emitter(log), TypeOf(k), log.event))
    else t.tokenBalances
  }

  lemma FlowEventFrame(t: Ledger, log: Log, rt: ReserveType)
    requires FlowEvent(t, log, rt).Some?
    ensures var r := FlowEvent(t, log, rt).value;
            r == t.(tokenBalances := AddFlows(t.tokenBalances, Emitter(log), Flows(t, Emitter(log), rt, log.event)),
                    reserves := r.reserves, valueHistory := r.valueHistory, assetHistory := r.assetHistory)
  {
    hide SnapshotValue, SnapshotAssets, DividesByZero, AddFlows, Flows, Counted;
  }

  lemma IouTransferFrame(t: Ledger, log: Log, from: Addr, to: Addr, v: int)
    requires IouTransfer(t, log, from, to, v).Some?
    ensures var r, after := IouTransfer(t, log, from, to, v).value, IouTransferred(t, Emitter(log), from, to, v);
            r == after.(valueHistory := r.valueHistory, assetHistory := r.assetHistory)
  {
    hide SnapshotValue, SnapshotAssets, DividesByZero, IouTransferred, Claimants;
  }

  lemma IouTransferredFrame(t: Ledger, id: Id, from: Addr, to: Addr, v: int)
    ensures var r := IouTransferred(t, id, from, to, v);
            && r == t.(assets := r.assets, iouTokens := r.iouTokens, iouBalances := r.iouBalances)
            && r.assets ==
               if ChangesSupply(from, to) then MirrorSupply(t.assets, id, SupplyChange(from, to, v)) else t.assets
  {
    hide MoveBalances, MirrorSupply;
  }

  lemma RegistrationFrame(t: Ledger, log: Log, rt: ReserveType)
    ensures log.event.AssetAdded? ==>
              var r := AddAsset(t, log, rt);
              && r == t.(assets := r.assets, reserves := r.reserves, iouTokens := r.iouTokens)
              && r.assets == t.assets[Emitter(log) := PutAsset(Rows(t.assets, Emitter(log)), log.event)]
              && r.reserves == EnsureReserve(t.reserves, Emitter(log), rt)
    ensures log.event.SettingUpdated? ==>
              var r := UpdateSetting(t, log, rt);
              r == t.(settings := r.settings, reserves := EnsureReserve(t.reserves, Emitter(log), rt))
  {
    hide PutAsset, EnsureReserve, EnsureIou, Settings.SettingsRow;
  }

  lemma ReserveTransferFrame(t: Ledger, log: Log, rt: ReserveType, from: Addr, to: Addr, v: int)
    ensures var r, row := ReserveTransfer(t, log, rt, from, to, v), ReserveRow(t.reserves, Emitter(log), rt);
            r == t.(lpBalances := MoveBalances(t.lpBalances, Emitter(log), from, to, v),
                    reserves := t.reserves[Emitter(log) := row.(lpSupply := row.lpSupply + SupplyChange(from, to, v))])
  {
    hide MoveBalances, ReserveRow;
  }

  lemma ReserveFrame(t: Ledger, log: Log, rt: ReserveType)
    requires ApplyReserve(t, log, rt).Some?
    ensures var r := ApplyReserve(t, log, rt).value;
            && r.assets == AssetsAfter(t, log, ReserveKind(rt))
            && r.tokenBalances == TokenBalancesAfter(t, log, ReserveKind(rt))
            && r == t.(assets := r.assets, tokenBalances := r.tokenBalances, reserves := r.reserves,
                       lpBalances := r.lpBalances, iouTokens := r.iouTokens, settings := r.settings,
                       valueHistory := r.valueHistory, assetHistory := r.assetHistory)
  {
    hide FlowEvent, AddAsset, UpdateSetting, ReserveTransfer, Flows, AddFlows, PutAsset, MirrorSupply;
    RegistrationFrame(t, log, rt);
    if IsFlowEvent(log.event) {
      FlowEventFrame(t, log, rt);
    } else if IsTransfer(log.event) {
      ReserveTransferFrame(t, log, rt, log.event.from, log.event.to, log.event.value.value);
    }
  }

  lemma IouFrame(t: Ledger, log: Log)
    requires ApplyIou(t, log).Some?
    ensures var r := ApplyIou(t, log).value;
            && r.assets == AssetsAfter(t, log, IouKind)
            && r == t.(assets := r.assets, iouTokens := r.iouTokens, iouBalances := r.iouBalances,
                       valueHistory := r.valueHistory, assetHistory := r.assetHistory)
  {
    hide IouTransfer, IouTransferred, MirrorSupply, PutAsset, FeePaid;
    if IsTransfer(log.event) {
      IouTransferFrame(t, log, log.event.from, log.event.to, log.event.value.value);
      IouTransferredFrame(t, Emitter(log), log.event.from, log.event.to, log.event.value.value);
    } else if log.event.ClearIouMinted? {
      assert ApplyIou(t, log).value == t.(iouTokens := FeePaid(t.iouTokens, Emitter(log), log.event.treasuryFee));
    } else {
      assert ApplyIou(t, log).value == t;
    }
  }

  lemma PoolTransferFrame(t: Ledger, log: Log, from: Addr, to: Addr, v: int)
    ensures var r := PoolTransfer(t, log, from, to, v); r == t.(pools := r.pools, poolBalances := r.poolBalances)
  {
    hide MoveBalances, TransferredPool;
  }

  lemma CurveFrame(t: Ledger, log: Log)
    requires ApplyCurve(t, log).Some?
    ensures var r := ApplyCurve(t, log).value; r == t.(pools := r.pools, poolBalances := r.poolBalances)
  {
    hide PoolTransfer, TouchedPool;
    if IsTransfer(log.event) {
      PoolTransferFrame(t, log, log.event.from, log.event.to, log.event.value.value);
    }
  }

  lemma DiscoveryFrame(t: Ledger, log: Log)
    ensures var r := ApplyFactory(t, log); r.Some? ==> r.value == t.(reserves := r.value.reserves)
    ensures var r := ApplyDeployer(t, log); r.Some? && r.value == t.(pools := r.value.pools)
  {
    hide EnsureReserve, CurvePools.Linked;
  }

  lemma CurveFactoryFrame(t: Ledger, log: Log)
    ensures var r := ApplyCurveFactory(t, log); r.Some? ==> r.value == t.(pools := r.value.pools)
  {
    hide CurvePools.Described, CurvePools.Deployed;
  }

  /** Discovery, Curve and oracle logs leave the accounts and the histories of reserves and IOUs alone. */
  lemma OtherFrame(t: Ledger, log: Log, k: Kind)
    requires !IsReserveKind(k) && !k.IouKind? && Apply(t, log, k).Some?
    ensures var r := Apply(t, log, k).value;
            r == t.(reserves := r.reserves, pools := r.pools, poolBalances := r.poolBalances,
                    redemptionPrices := r.redemptionPrices)
  {
    hide ApplyCurve, PricesAfter, ApplyFactory, ApplyDeployer, ApplyCurveFactory;
    if k.CurveKind? { CurveFrame(t, log); }
    DiscoveryFrame(t, log);
    CurveFactoryFrame(t, log);
  }

  lemma RegistryFrame(t: Ledger, log: Log, k: Kind)
    requires Apply(t, log, k).Some?
    ensures Apply(t, log, k).value.assets == AssetsAfter(t, log, k)
    ensures Apply(t, log, k).value.tokenBalances == TokenBalancesAfter(t, log, k)
  {
    hide ApplyReserve, ApplyIou, ApplyCurve, ApplyOracle, ApplyFactory, ApplyDeployer, ApplyCurveFactory,
         Flows, AddFlows, PutAsset, MirrorSupply;
    if IsReserveKind(k) { ReserveFrame(t, log, TypeOf(k)); }
    else if k.IouKind? { IouFrame(t, log); }
    else { OtherFrame(t, log, k); }
  }

  // --- the reserves table ---

  function LpSupply(reserves: map<Id, Reserve>, id: Id): int {
    if id in reserves then reserves[id].lpSupply else 0
  }

  /** Rows are never dropped and never change kind, and only `id`'s LP supply moves, by delta. */
  ghost predicate Evolves(before: map<Id, Reserve>, after: map<Id, Reserve>, id: Id, delta: int) {
    && (forall r :: r in before ==> r in after && after[r].kind == before[r].kind)
    && (forall r :: LpSupply(after, r) == LpSupply(before, r) + (if r == id then delta else 0))
  }

  /** The LP supply change a log declares. */
  function LpChange(log: Log, k: Kind): int {
    if IsReserveKind(k) && IsTransfer(log.event)
    then SupplyChange(log.event.from, log.event.to, log.event.value.value) else 0
  }

  lemma EnsureEvolves(reserves: map<Id, Reserve>, id: Id, rt: ReserveType, emitter: Id)
    ensures Evolves(reserves, EnsureReserve(reserves, id, rt), emitter, 0)
  {
  }

  lemma CountedKeepsSupply(row: Reserve, e: Event)
    ensures Counted(row, e).kind == row.kind && Counted(row, e).lpSupply == row.lpSupply
  {
  }

  lemma FlowEventEvolves(t: Ledger, log: Log, rt: ReserveType)
    requires FlowEvent(t, log, rt).Some?
    ensures Evolves(t.reserves, FlowEvent(t, log, rt).value.reserves, Emitter(log), 0)
  {
    hide SnapshotValue, SnapshotAssets, DividesByZero, AddFlows, Flows, Counted, Evolves;
    var id := Emitter(log);
    var before := Moved(t, id, rt, log.event).reserves;
    EnsureEvolves(t.reserves, id, rt, id);
    assert Evolves(t.reserves, before, id, 0) by { Unmoved(t.reserves, id); }
    CountedKeepsSupply(ReserveRow(before, id, rt), log.event);
    PutEvolves(before, id, ReserveRow(before, id, rt), Counted(ReserveRow(before, id, rt), log.event));
    EvolvesTwice(t.reserves, before, FlowEvent(t, log, rt).value.reserves, id);
  }

  lemma Unmoved(reserves: map<Id, Reserve>, id: Id)
    ensures Evolves(reserves, reserves, id, 0)
  {
  }

  lemma PutEvolves(reserves: map<Id, Reserve>, id: Id, was: Reserve, row: Reserve)
    requires id in reserves ==> was == reserves[id]
    requires id !in reserves ==> was.lpSupply == 0
    requires row.kind == was.kind
    ensures Evolves(reserves, reserves[id := row], id, row.lpSupply - was.lpSupply)
  {
  }

  lemma EvolvesTwice(a: map<Id, Reserve>, b: map<Id, Reserve>, c: map<Id, Reserve>, id: Id)
    requires Evolves(a, b, id, 0) && Evolves(b, c, id, 0)
    ensures Evolves(a, c, id, 0)
  {
  }

  lemma ReserveEvolves(t: Ledger, log: Log, rt: ReserveType)
    requires ApplyReserve(t, log, rt).Some?
    ensures Evolves(t.reserves, ApplyReserve(t, log, rt).value.reserves, Emitter(log), LpChange(log, ReserveKind(rt)))
  {
    hide FlowEvent, AddAsset, UpdateSetting, ReserveTransfer, Evolves, EnsureReserve, PutAsset;
    RegistrationFrame(t, log, rt);
    var id := Emitter(log);
    Unmoved(t.reserves, id);
    EnsureEvolves(t.reserves, id, rt, id);
    if IsFlowEvent(log.event) {
      FlowEventEvolves(t, log, rt);
    } else if IsTransfer(log.event) {
      var row := ReserveRow(t.reserves, id, rt);
      ReserveTransferFrame(t, log, rt, log.event.from, log.event.to, log.event.value.value);
      PutEvolves(t.reserves, id, row, row.(lpSupply := row.lpSupply + LpChange(log, ReserveKind(rt))));
    } else if log.event.AssetAdded? {
    } else {
    }
  }

  /** The reserves table after any log. */
  lemma ReservesFrame(t: Ledger, log: Log, k: Kind)
    requires Apply(t, log, k).Some?
    ensures Evolves(t.reserves, Apply(t, log, k).value.reserves, Emitter(log), LpChange(log, k))
  {
    hide ApplyReserve, ApplyIou, ApplyCurve, ApplyOracle, ApplyDeployer, ApplyCurveFactory, Evolves, EnsureReserve;
    Unmoved(t.reserves, Emitter(log));
    if IsReserveKind(k) {
      ReserveEvolves(t, log, TypeOf(k));
    } else if k.IouKind? {
      IouFrame(t, log);
    } else if k.FactoryKind? {
      if log.event.NewClearReserve? && log.event.reserveType.Some? {
        EnsureEvolves(t.reserves, Id(log.chain, log.event.reserve), log.event.reserveType.value, Emitter(log));
      }
    } else {
      NonFactoryFrame(t, log, k);
    }
  }

  lemma NonFactoryFrame(t: Ledger, log: Log, k: Kind)
    requires !IsReserveKind(k) && !k.IouKind? && !k.FactoryKind? && Apply(t, log, k).Some?
    ensures Apply(t, log, k).value.reserves == t.reserves
  {
    hide ApplyCurve, PricesAfter, ApplyFactory, ApplyDeployer, ApplyCurveFactory;
    if k.CurveKind? { CurveFrame(t, log); }
    DiscoveryFrame(t, log);
    CurveFactoryFrame(t, log);
  }
}
