/**
 Supply accounting: every stored supply is the sum of its holders' balances, and an IOU's supply is
 mirrored on the asset rows that name it (handlers.go: handleTransfer, handleAssetAdded; db.go: adjustBalance).
 */
module Accounting {
  import opened Addresses
  import opened Effects
  import opened Frames
  import opened Kinds
  import opened Machine
  import opened Sums
  import opened Tables
  import CurvePools
  import opened Delivery

  type Accounts = map<Id, map<Addr, int>>

  // --- conservation ---

  function IouSupply(ious: map<Id, IouToken>, id: Id): int {
    if id in ious then ious[id].totalSupply else 0
  }

  function PoolSupply(pools: map<Id, Pool>, id: Id): int {
    if id in pools then pools[id].lpSupply else 0
  }

  ghost predicate ReservesConserved(t: Ledger) {
    forall id :: Total(Rows(t.lpBalances, id)) == LpSupply(t.reserves, id)
  }

  ghost predicate IousConserved(t: Ledger) {
    forall id :: Total(Rows(t.iouBalances, id)) == IouSupply(t.iouTokens, id)
  }

  ghost predicate PoolsConserved(t: Ledger) {
    forall id :: Total(Rows(t.poolBalances, id)) == PoolSupply(t.pools, id)
  }

  /** Each reserve's LP supply, IOU's supply and pool's LP supply equals the sum of its holders' balances. */
  ghost predicate Conserved(t: Ledger) {
    ReservesConserved(t) && IousConserved(t) && PoolsConserved(t)
  }

  lemma AddBalanceTotal(table: Accounts, id: Id, holder: Addr, delta: int)
    ensures Total(Rows(AddBalance(table, id, holder, delta), id)) == Total(Rows(table, id)) + delta
    ensures forall other :: other != id ==> Rows(AddBalance(table, id, holder, delta), other) == Rows(table, other)
  {
    hide Total;
    TotalUpdate(Rows(table, id), holder, Get(Rows(table, id), holder) + delta);
  }

  /** A Transfer changes the sum of an owner's balances by exactly the supply change it declares. */
  lemma MoveTotal(table: Accounts, id: Id, from: Addr, to: Addr, v: int)
    ensures Total(Rows(MoveBalances(table, id, from, to, v), id)) == Total(Rows(table, id)) + SupplyChange(from, to, v)
    ensures forall other :: other != id ==> Rows(MoveBalances(table, id, from, to, v), other) == Rows(table, other)
  {
    hide Total, AddBalance, Rows;
    if from == ZERO_ADDRESS {
      AddBalanceTotal(table, id, to, v);
    } else {
      AddBalanceTotal(table, id, from, -v);
      AddBalanceTotal(AddBalance(table, id, from, -v), id, to, v);
    }
  }

  function LpBalancesAfter(t: Ledger, log: Log, k: Kind): Accounts {
    if IsReserveKind(k) && IsTransfer(log.event)
    then MoveBalances(t.lpBalances, Emitter(log), log.event.from, log.event.to, log.event.value.value)
    else t.lpBalances
  }

  lemma ReserveLpFrame(t: Ledger, log: Log, rt: ReserveType)
    requires ApplyReserve(t, log, rt).Some?
    ensures ApplyReserve(t, log, rt).value.lpBalances == LpBalancesAfter(t, log, ReserveKind(rt))
  {
    hide FlowEvent, AddAsset, UpdateSetting, ReserveTransfer, MoveBalances;
    if IsFlowEvent(log.event) {
      FlowEventFrame(t, log, rt);
    } else if IsTransfer(log.event) {
      ReserveTransferFrame(t, log, rt, log.event.from, log.event.to, log.event.value.value);
    } else {
      RegistrationFrame(t, log, rt);
    }
  }

  lemma LpBalancesFrame(t: Ledger, log: Log, k: Kind)
    requires Apply(t, log, k).Some?
    ensures Apply(t, log, k).value.lpBalances == LpBalancesAfter(t, log, k)
  {
    hide ApplyReserve, ApplyIou, ApplyCurve, ApplyOracle, ApplyFactory, ApplyDeployer, ApplyCurveFactory, MoveBalances;
    if IsReserveKind(k) {
      ReserveLpFrame(t, log, TypeOf(k));
    } else if k.IouKind? {
      IouFrame(t, log);
    } else {
      OtherFrame(t, log, k);
    }
  }

  lemma ReservesStayConserved(t: Ledger, log: Log, k: Kind)
    requires ReservesConserved(t) && Apply(t, log, k).Some?
    ensures ReservesConserved(Apply(t, log, k).value)
  {
    hide Apply, Total, MoveBalances;
    LpBalancesFrame(t, log, k);
    ReservesFrame(t, log, k);
    if IsReserveKind(k) && IsTransfer(log.event) {
      MoveTotal(t.lpBalances, Emitter(log), log.event.from, log.event.to, log.event.value.value);
    }
  }

  /** Only `id`'s supply moves, by delta. */
  ghost predicate IouEvolves(before: map<Id, IouToken>, after: map<Id, IouToken>, id: Id, delta: int) {
    forall i :: IouSupply(after, i) == IouSupply(before, i) + (if i == id then delta else 0)
  }

  /** The IOU supply change a log declares. */
  function IouChange(log: Log, k: Kind): int {
    if k.IouKind? && IsTransfer(log.event) then SupplyChange(log.event.from, log.event.to, log.event.value.value) else 0
  }

  function IouBalancesAfter(t: Ledger, log: Log, k: Kind): Accounts {
    if k.IouKind? && IsTransfer(log.event)
    then MoveBalances(t.iouBalances, Emitter(log), log.event.from, log.event.to, log.event.value.value)
    else t.iouBalances
  }

  lemma AddAssetIou(t: Ledger, log: Log, rt: ReserveType, id: Id)
    requires log.event.AssetAdded?
    ensures IouEvolves(t.iouTokens, AddAsset(t, log, rt).iouTokens, id, 0)
  {
    hide PutAsset, EnsureReserve;
  }

  lemma ReserveIouFrame(t: Ledger, log: Log, rt: ReserveType)
    requires ApplyReserve(t, log, rt).Some?
    ensures IouEvolves(t.iouTokens, ApplyReserve(t, log, rt).value.iouTokens, Emitter(log), 0)
    ensures ApplyReserve(t, log, rt).value.iouBalances == t.iouBalances
  {
    hide FlowEvent, AddAsset, UpdateSetting, ReserveTransfer, IouEvolves;
    IouUnmoved(t.iouTokens, Emitter(log));
    ReserveFrame(t, log, rt);
    if IsFlowEvent(log.event) {
      FlowEventFrame(t, log, rt);
    } else if IsTransfer(log.event) {
      ReserveTransferFrame(t, log, rt, log.event.from, log.event.to, log.event.value.value);
    } else if log.event.AssetAdded? {
      AddAssetIou(t, log, rt, Emitter(log));
    } else {
      RegistrationFrame(t, log, rt);
    }
  }

  lemma IouUnmoved(ious: map<Id, IouToken>, id: Id)
    ensures IouEvolves(ious, ious, id, 0)
  {
  }

  lemma IouTransferredTables(t: Ledger, id: Id, from: Addr, to: Addr, v: int)
    ensures var r := IouTransferred(t, id, from, to, v);
            && IouEvolves(t.iouTokens, r.iouTokens, id, SupplyChange(from, to, v))
            && r.iouBalances == MoveBalances(t.iouBalances, id, from, to, v)
  {
    hide MoveBalances, MirrorSupply;
  }

  lemma FeeEvolves(ious: map<Id, IouToken>, id: Id, fee: int)
    ensures IouEvolves(ious, FeePaid(ious, id, fee), id, 0)
  {
  }

  lemma IouIouFrame(t: Ledger, log: Log)
    requires ApplyIou(t, log).Some?
    ensures IouEvolves(t.iouTokens, ApplyIou(t, log).value.iouTokens, Emitter(log), IouChange(log, IouKind))
    ensures ApplyIou(t, log).value.iouBalances == IouBalancesAfter(t, log, IouKind)
  {
    hide IouTransfer, IouTransferred, MoveBalances, IouEvolves, FeePaid;
    IouUnmoved(t.iouTokens, Emitter(log));
    if IsTransfer(log.event) {
      IouTransferFrame(t, log, log.event.from, log.event.to, log.event.value.value);
      IouTransferredTables(t, Emitter(log), log.event.from, log.event.to, log.event.value.value);
    } else if log.event.ClearIouMinted? {
      FeeEvolves(t.iouTokens, Emitter(log), log.event.treasuryFee);
    }
  }

  /** The IOU tables after a log: one IOU's balances and supply move together. */
  lemma IouTablesFrame(t: Ledger, log: Log, k: Kind)
    requires Apply(t, log, k).Some?
    ensures IouEvolves(t.iouTokens, Apply(t, log, k).value.iouTokens, Emitter(log), IouChange(log, k))
    ensures Apply(t, log, k).value.iouBalances == IouBalancesAfter(t, log, k)
  {
    hide ApplyReserve, ApplyIou, ApplyCurve, ApplyOracle, ApplyFactory, ApplyDeployer, ApplyCurveFactory,
         MoveBalances, IouEvolves;
    if IsReserveKind(k) {
      ReserveIouFrame(t, log, TypeOf(k));
    } else if k.IouKind? {
      IouIouFrame(t, log);
    } else {
      OtherFrame(t, log, k);
      IouUnmoved(t.iouTokens, Emitter(log));
    }
  }

  lemma IousStayConserved(t: Ledger, log: Log, k: Kind)
    requires IousConserved(t) && Apply(t, log, k).Some?
    ensures IousConserved(Apply(t, log, k).value)
  {
    hide Apply, Total, MoveBalances;
    IouTablesFrame(t, log, k);
    assert IouEvolves(t.iouTokens, Apply(t, log, k).value.iouTokens, Emitter(log), IouChange(log, k));
    if k.IouKind? && IsTransfer(log.event) {
      MoveTotal(t.iouBalances, Emitter(log), log.event.from, log.event.to, log.event.value.value);
    }
  }

  ghost predicate PoolEvolves(before: map<Id, Pool>, after: map<Id, Pool>, id: Id, delta: int) {
    forall i :: PoolSupply(after, i) == PoolSupply(before, i) + (if i == id then delta else 0)
  }

  function PoolChange(log: Log, k: Kind): int {
    if k.CurveKind? && IsTransfer(log.event)
    then SupplyChange(log.event.from, log.event.to, log.event.value.value) else 0
  }

  function PoolBalancesAfter(t: Ledger, log: Log, k: Kind): Accounts {
    if k.CurveKind? && IsTransfer(log.event)
    then MoveBalances(t.poolBalances, Emitter(log), log.event.from, log.event.to, log.event.value.value)
    else t.poolBalances
  }

  lemma PutPoolEvolves(pools: map<Id, Pool>, id: Id, row: Pool, emitter: Id)
    ensures row.lpSupply == PoolSupply(pools, id) ==> PoolEvolves(pools, pools[id := row], emitter, 0)
    ensures PoolEvolves(pools, pools[id := row], id, row.lpSupply - PoolSupply(pools, id))
    ensures PoolEvolves(pools, pools, emitter, 0)
  {
  }

  lemma RowSupplies(pools: map<Id, Pool>, id: Id, log: Log)
    ensures CurvePools.Ensured(pools, id, log.block).lpSupply == PoolSupply(pools, id)
    ensures CurvePools.Swapped(pools, id, log.block).lpSupply == PoolSupply(pools, id)
    ensures log.event.PoolDeployed? ==> CurvePools.Linked(pools, id, log).lpSupply == PoolSupply(pools, id)
    ensures log.event.CurvePoolDeployed? && (!log.event.meta ==> log.event.coins.Elements?) ==>
              CurvePools.Described(pools, id, log).lpSupply == PoolSupply(pools, id)
  {
  }

  lemma TouchedSupply(pools: map<Id, Pool>, log: Log)
    ensures TouchedPool(pools, log).lpSupply == PoolSupply(pools, Emitter(log))
  {
  }

  lemma PoolTransferTables(t: Ledger, log: Log, from: Addr, to: Addr, v: int)
    ensures var r := PoolTransfer(t, log, from, to, v);
            && PoolEvolves(t.pools, r.pools, Emitter(log), SupplyChange(from, to, v))
            && r.poolBalances == MoveBalances(t.poolBalances, Emitter(log), from, to, v)
  {
    hide MoveBalances, PoolEvolves, CurvePools.Ensured;
    RowSupplies(t.pools, Emitter(log), log);
    PutPoolEvolves(t.pools, Emitter(log), TransferredPool(t.pools, log, from, to, v), Emitter(log));
  }

  lemma CurveTransferFrame(t: Ledger, log: Log)
    requires IsTransfer(log.event)
    ensures var r := ApplyCurve(t, log).value;
            && PoolEvolves(t.pools, r.pools, Emitter(log), PoolChange(log, CurveKind))
            && r.poolBalances == PoolBalancesAfter(t, log, CurveKind)
  {
    hide MoveBalances, PoolEvolves, PoolTransfer, TouchedPool;
    PoolTransferTables(t, log, log.event.from, log.event.to, log.event.value.value);
  }

  lemma CurveEventFrame(t: Ledger, log: Log)
    requires !IsTransfer(log.event) && ApplyCurve(t, log).Some?
    ensures var r := ApplyCurve(t, log).value;
            && PoolEvolves(t.pools, r.pools, Emitter(log), 0)
            && r.poolBalances == t.poolBalances
  {
    hide MoveBalances, PoolEvolves, PoolTransfer, TouchedPool;
    TouchedSupply(t.pools, log);
    PutPoolEvolves(t.pools, Emitter(log), TouchedPool(t.pools, log), Emitter(log));
  }

  lemma CurveTablesFrame(t: Ledger, log: Log)
    requires ApplyCurve(t, log).Some?
    ensures PoolEvolves(t.pools, ApplyCurve(t, log).value.pools, Emitter(log), PoolChange(log, CurveKind))
    ensures ApplyCurve(t, log).value.poolBalances == PoolBalancesAfter(t, log, CurveKind)
  {
    hide MoveBalances, PoolEvolves, ApplyCurve;
    if IsTransfer(log.event) { CurveTransferFrame(t, log); } else { CurveEventFrame(t, log); }
  }

  lemma DiscoveryTablesFrame(t: Ledger, log: Log)
    ensures var r := ApplyDeployer(t, log); r.Some? ==> PoolEvolves(t.pools, r.value.pools, Emitter(log), 0)
    ensures var r := ApplyCurveFactory(t, log); r.Some? ==> PoolEvolves(t.pools, r.value.pools, Emitter(log), 0)
  {
    hide PoolEvolves, CurvePools.Linked, CurvePools.Described, CurvePools.Deployed;
    PutPoolEvolves(t.pools, Emitter(log), PoolOf(t, Emitter(log), log), Emitter(log));
    if log.event.PoolDeployed? {
      var id := Id(log.chain, log.event.pool);
      RowSupplies(t.pools, id, log);
      PutPoolEvolves(t.pools, id, CurvePools.Linked(t.pools, id, log), Emitter(log));
    } else if log.event.CurvePoolDeployed? && log.event.receipt.Some?
              && (!log.event.meta ==> log.event.coins.Elements?) {
      var id := Id(log.chain, CurvePools.Deployed(log));
      RowSupplies(t.pools, id, log);
      PutPoolEvolves(t.pools, id, CurvePools.Described(t.pools, id, log), Emitter(log));
    }
  }

  function PoolOf(t: Ledger, id: Id, log: Log): Pool {
    CurvePools.Ensured(t.pools, id, log.block)
  }

  lemma PoolTablesFrame(t: Ledger, log: Log, k: Kind)
    requires Apply(t, log, k).Some?
    ensures PoolEvolves(t.pools, Apply(t, log, k).value.pools, Emitter(log), PoolChange(log, k))
    ensures Apply(t, log, k).value.poolBalances == PoolBalancesAfter(t, log, k)
  {
    hide ApplyReserve, ApplyIou, ApplyCurve, PricesAfter, ApplyFactory, ApplyDeployer, ApplyCurveFactory,
         MoveBalances, PoolEvolves;
    PutPoolEvolves(t.pools, Emitter(log), PoolOf(t, Emitter(log), log), Emitter(log));
    DiscoveryTablesFrame(t, log);
    DiscoveryFrame(t, log);
    CurveFactoryFrame(t, log);
    if IsReserveKind(k) {
      ReserveFrame(t, log, TypeOf(k));
    } else if k.IouKind? {
      IouFrame(t, log);
    } else if k.CurveKind? {
      CurveTablesFrame(t, log);
    }
  }

  lemma PoolsStayConserved(t: Ledger, log: Log, k: Kind)
    requires PoolsConserved(t) && Apply(t, log, k).Some?
    ensures PoolsConserved(Apply(t, log, k).value)
  {
    hide Apply, Total, MoveBalances;
    PoolTablesFrame(t, log, k);
    if k.CurveKind? && IsTransfer(log.event) {
      MoveTotal(t.poolBalances, Emitter(log), log.event.from, log.event.to, log.event.value.value);
    }
  }

  lemma StaysConserved(t: Ledger, log: Log, k: Kind)
    requires Conserved(t) && Apply(t, log, k).Some?
    ensures Conserved(Apply(t, log, k).value)
  {
    hide Apply, ReservesConserved, IousConserved, PoolsConserved;
    ReservesStayConserved(t, log, k);
    IousStayConserved(t, log, k);
    PoolsStayConserved(t, log, k);
  }

  lemma EmptyConserved()
    ensures Conserved(EMPTY_LEDGER)
  {
  }

  /** Supply conservation in every reachable state, with no assumption on log order, routing or failures. */
  lemma {:induction false} AlwaysConserved(cfg: Config, steps: seq<Step>)
    ensures Conserved(Run(Initial(cfg), cfg, steps).ledger)
  {
    hide Conserved, Delivered, Restarted, Apply, Initial;
    if steps == [] {
      InitialIsEmpty(cfg);
      EmptyConserved();
    } else {
      var n := |steps| - 1;
      var s := Run(Initial(cfg), cfg, steps[..n]);
      AlwaysConserved(cfg, steps[..n]);
      match steps[n]
      case Restart => RestartFrame(s, cfg);
      case Deliver(log, fault) =>
        DeliveredLedger(s, log, fault);
        if Apply(s.ledger, log, Routed(s.registry, log)).Some? {
          StaysConserved(s.ledger, log, Routed(s.registry, log));
        }
    }
  }

  // --- the IOU mirror ---

  ghost predicate RowMirrored(ious: map<Id, IouToken>, chain: nat, row: Asset) {
    Proper(row.iou) ==> row.iouSupply == IouSupply(ious, Id(chain, row.iou))
  }

  /** Every asset row that names a real IOU carries that IOU's total supply. */
  ghost predicate Mirrored(t: Ledger) {
    forall id, a :: id in t.assets && a in t.assets[id] ==> RowMirrored(t.iouTokens, id.chain, t.assets[id][a])
  }

  /** An AssetAdded names no real IOU, or one whose supply the row already carries: an IOU that has
      not been minted yet, or the IOU the row named before. */
  predicate Registers(t: Ledger, log: Log, k: Kind) {
    IsReserveKind(k) && log.event.AssetAdded? && Proper(log.event.iou) ==>
      IouSupply(t.iouTokens, Id(log.chain, log.event.iou)) ==
        MirroredSoFar(Rows(t.assets, Emitter(log)), log.event.asset)
  }

  lemma MirroredAfterAssetAdded(t: Ledger, log: Log, k: Kind)
    requires IsReserveKind(k) && log.event.AssetAdded?
    requires Mirrored(t) && Apply(t, log, k).Some?
    ensures Mirrored(Apply(t, log, k).value) <==> Registers(t, log, k)
  {
    hide Apply;
    RegistryFrame(t, log, k);
    IouTablesFrame(t, log, k);
    var r := Apply(t, log, k).value;
    var id, asset := Emitter(log), log.event.asset;
    var row := r.assets[id][asset];
    assert row.iou == log.event.iou && row.iouSupply == MirroredSoFar(Rows(t.assets, id), asset);
    forall id', a | id' in r.assets && a in r.assets[id'] && (id' != id || a != asset)
      ensures RowMirrored(r.iouTokens, id'.chain, r.assets[id'][a])
    {
      assert id' in t.assets && a in t.assets[id'] && t.assets[id'][a] == r.assets[id'][a];
      assert RowMirrored(t.iouTokens, id'.chain, t.assets[id'][a]);
    }
    assert RowMirrored(r.iouTokens, id.chain, row) <==> Registers(t, log, k);
  }

  lemma MirroredAfterOther(t: Ledger, log: Log, k: Kind)
    requires !(IsReserveKind(k) && log.event.AssetAdded?)
    requires Mirrored(t) && Apply(t, log, k).Some?
    ensures Mirrored(Apply(t, log, k).value)
  {
    hide Apply;
    RegistryFrame(t, log, k);
    IouTablesFrame(t, log, k);
    var r := Apply(t, log, k).value;
    forall id, a | id in r.assets && a in r.assets[id]
      ensures RowMirrored(r.iouTokens, id.chain, r.assets[id][a])
    {
      assert id in t.assets && a in t.assets[id];
      assert RowMirrored(t.iouTokens, id.chain, t.assets[id][a]);
    }
  }

  /** The mirror survives an event if and only if it is not a registration that names a foreign supply. */
  lemma MirrorKeptIff(t: Ledger, log: Log, k: Kind)
    requires Mirrored(t) && Apply(t, log, k).Some?
    ensures Mirrored(Apply(t, log, k).value) <==> Registers(t, log, k)
  {
    hide Apply, Mirrored;
    if IsReserveKind(k) && log.event.AssetAdded? {
      MirroredAfterAssetAdded(t, log, k);
    } else {
      MirroredAfterOther(t, log, k);
    }
  }

  /** The stored IOU supplies agree in every state of a run if and only if every AssetAdded registers
      its IOU before the first mint (and is never re-pointed to an IOU with another supply). */
  lemma MirrorAlwaysIff(truth: Truth, logs: seq<Log>)
    requires Replay(truth, EMPTY_LEDGER, logs).Some?
    ensures InEveryState(truth, logs, Mirrored) <==> AtEveryLog(truth, logs, Registers)
  {
    hide Apply, Mirrored, Registers, At, Replay;
    EmptyMirrored();
    forall i | 0 <= i < |logs| && Mirrored(At(truth, logs, i))
      ensures Mirrored(At(truth, logs, i + 1)) <==> Registers(At(truth, logs, i), logs[i], truth(logs[i].address))
    {
      StepAt(truth, logs, i);
      MirrorKeptIff(At(truth, logs, i), logs[i], truth(logs[i].address));
    }
    HoldsThroughoutIff(truth, logs, Mirrored, Registers);
  }

  lemma EmptyMirrored()
    ensures Mirrored(EMPTY_LEDGER)
  {
  }
}
