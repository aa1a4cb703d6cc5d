/**
 The exporter as the plugin writes it: handlers that run statements one after the other on the
 tables of the current transaction, loops over amounts and rows, and a registry kept in memory
 (main.go, dispatch.go, handlers.go, registry.go, db.go). Each method is proved against the
 transition functions of Effects and Machine.
 */
module Exporter {
  import opened Addresses
  import opened Effects
  import opened Kinds
  import opened Machine
  import opened Options
  import opened Tables
  import opened Valuation
  import CurvePools
  import Positions
  import Upserts

  /** A handler's result: the tables it left behind, or None when it returned an error. */
  function Outcome(ok: bool, ledger: Ledger): Option<Ledger> {
    if ok then Some(ledger) else None
  }

  datatype TotalColumn = TotalDeposits | TotalWithdrawals | IouMintedTotal | IouRedeemedTotal

  function Bumped(row: Reserve, column: TotalColumn, delta: int): Reserve {
    match column
    case TotalDeposits => row.(totalDeposits := row.totalDeposits + delta)
    case TotalWithdrawals => row.(totalWithdrawals := row.totalWithdrawals + delta)
    case IouMintedTotal => row.(iouMinted := row.iouMinted + delta)
    case IouRedeemedTotal => row.(iouRedeemed := row.iouRedeemed + delta)
  }

  lemma TwoFlows(table: map<Id, map<Addr, int>>, id: Id, f: Flow, g: Flow)
    ensures AddFlows(table, id, [f, g]) == AdjustToken(AdjustToken(table, id, f.who, f.amount), id, g.who, g.amount)
  {
    assert [f, g][..1] == [f];
    OneFlow(table, id, f);
  }

  lemma NoFlows(table: map<Id, map<Addr, int>>, id: Id, flows: seq<Flow>)
    requires |flows| == 0
    ensures AddFlows(table, id, flows) == table
  {
  }

  lemma OneMoreFlow(table: map<Id, map<Addr, int>>, id: Id, flows: seq<Flow>, i: nat)
    requires i < |flows|
    ensures AddFlows(table, id, flows[..i + 1])
         == AdjustToken(AddFlows(table, id, flows[..i]), id, flows[i].who, flows[i].amount)
  {
    assert flows[..i + 1][..i] == flows[..i];
  }

  lemma NothingAdjusted(table: map<Id, map<Addr, int>>, id: Id, delta: int)
    ensures AdjustToken(table, id, NoAddr, delta) == table
  {
  }

  /** An IOU's supply moved, and mirrored onto the asset rows that name it. */
  function WithSupply(t: Ledger, id: Id, delta: int): Ledger {
    var row := IouRow(t.iouTokens, id);
    t.(iouTokens := t.iouTokens[id := row.(totalSupply := row.totalSupply + delta)],
       assets := MirrorSupply(t.assets, id, delta))
  }

  /** The IOU statements one by one: ensure the row, move the balances, then the supply and its mirror. */
  lemma IouMoved(t: Ledger, id: Id, from: Addr, to: Addr, v: int)
    ensures var moved := t.(iouTokens := EnsureIou(t.iouTokens, id),
                            iouBalances := MoveBalances(t.iouBalances, id, from, to, v));
            && id in moved.iouTokens
            && IouTransferred(t, id, from, to, v) ==
               if ChangesSupply(from, to) then WithSupply(moved, id, SupplyChange(from, to, v)) else moved
  {
    hide MoveBalances, MirrorSupply;
    var row := IouRow(t.iouTokens, id);
    assert row.(totalSupply := row.totalSupply + 0) == row;
  }

  class Exporter {
    const cfg: Config

    var ledger: Ledger
    var processed: set<string>
    var contracts: map<Id, ContractRow>
    var registry: map<Addr, Kind>

    ghost function Abstract(): State
      reads this
    {
      State(ledger, processed, contracts, registry)
    }

    /** Positions are dense in every reserve, which is what routing amounts[] by position needs. */
    ghost predicate Valid()
      reads this`ledger
    {
      Positions.AllDense(ledger)
    }

    constructor (cfg: Config)
      ensures this.cfg == cfg
      ensures Abstract() == Initial(cfg)
      ensures Valid()
    {
      this.cfg := cfg;
      ledger, processed, contracts, registry := EMPTY_LEDGER, {}, map[], map[];
      new;
      Init();
    }

    /** The registry part of Init: seed the configured contracts, then reload from the table. */
    method Init()
      modifies this`contracts, this`registry
      ensures Abstract() == Restarted(old(Abstract()), cfg)
    {
      SeedContracts();
      LoadRegistry();
    }

    // --- registry.go ---

    method SeedContracts()
      modifies this`contracts
      ensures contracts == Seed(old(contracts), cfg)
    {
      hide KindFromString;
      for i := 0 to |cfg.contracts|
        invariant contracts == Seed(old(contracts), cfg.(contracts := cfg.contracts[..i]))
      {
        assert cfg.contracts[..i + 1][..i] == cfg.contracts[..i];
        var c := cfg.contracts[i];
        var k := KindFromString(c.kind);
        if c.address == NoAddr || k == UnknownKind {
          continue;
        }
        contracts := contracts[Id(cfg.chain, c.address) := ContractRow(KindToken(k), true)];
      }
      assert cfg.contracts[..|cfg.contracts|] == cfg.contracts;
    }

    method LoadRegistry()
      modifies this`registry
      ensures registry == Load(contracts, cfg.chain)
    {
      hide KindFromString;
      var reg: map<Addr, Kind> := map[];
      var rows := set id | id in contracts && id.chain == cfg.chain;
      ghost var seen: set<Id> := {};
      while rows != {}
        invariant rows !! seen
        invariant rows + seen == set id | id in contracts && id.chain == cfg.chain
        invariant forall a :: a in reg <==>
                    Id(cfg.chain, a) in seen && KindFromString(contracts[Id(cfg.chain, a)].kind) != UnknownKind
        invariant forall a :: a in reg ==> reg[a] == KindFromString(contracts[Id(cfg.chain, a)].kind)
      {
        var id :| id in rows;
        var k := KindFromString(contracts[id].kind);
        if k != UnknownKind {
          reg := reg[id.addr := k];
        }
        rows, seen := rows - {id}, seen + {id};
      }
      registry := reg;
    }

    method RememberKind(addr: Addr, k: Kind)
      modifies this`registry
      ensures registry == old(registry)[addr := k]
    {
      registry := registry[addr := k];
    }

    method PersistContract(id: Id, k: Kind, fails: bool) returns (ok: bool)
      modifies this`contracts
      ensures ok <==> !fails
      ensures contracts == if fails then old(contracts) else Persist(old(contracts), id, k)
    {
      if fails {
        return false;
      }
      if id !in contracts {
        contracts := contracts[id := ContractRow(KindToken(k), false)];
      }
      return true;
    }

    method ResolveKind(log: Log, fault: Fault) returns (k: Kind, ok: bool)
      modifies this`contracts, this`registry
      ensures k == Routed(old(registry), log)
      ensures ok <==> !(fault == AtPersist && FirstSeen(old(Abstract()), log))
      ensures registry == Claimed(old(Abstract()), log).registry
      ensures ok ==> contracts == Claimed(old(Abstract()), log).contracts
    {
      if log.address in registry {
        assert registry == registry[log.address := registry[log.address]];
        return registry[log.address], true;
      }
      k := Classify(log.contractName);
      RememberKind(log.address, k);
      if k == UnknownKind {
        return k, true;
      }
      ok := PersistContract(Emitter(log), k, fault == AtPersist);
    }

    method TrackContract(id: Id, k: Kind, fault: Fault) returns (ok: bool)
      requires id.addr != NoAddr && k != UnknownKind
      modifies this`contracts, this`registry
      ensures ok <==> fault != AtTrack
      ensures registry == old(registry)[id.addr := k]
      ensures ok ==> contracts == Persist(old(contracts), id, k)
    {
      RememberKind(id.addr, k);
      ok := PersistContract(id, k, fault == AtTrack);
    }

    // --- db.go ---

    method AdjustTokenBalance(id: Id, asset: Addr, delta: int)
      modifies this`ledger
      ensures ledger == old(ledger).(tokenBalances := AdjustToken(old(ledger).tokenBalances, id, asset, delta))
    {
      if asset == NoAddr || delta == 0 {
        return;
      }
      var rows := Rows(ledger.tokenBalances, id);
      rows := rows[asset := if asset in rows then rows[asset] + delta else delta];
      ledger := ledger.(tokenBalances := ledger.tokenBalances[id := rows]);
    }

    // --- handlers.go: registry upserts and Transfer ---

    method EnsureReserveRow(id: Id, rt: ReserveType)
      modifies this`ledger
      ensures ledger == old(ledger).(reserves := EnsureReserve(old(ledger).reserves, id, rt))
    {
      if id !in ledger.reserves {
        ledger := ledger.(reserves := ledger.reserves[id := Reserve(rt, 0, 0, 0, 0, 0, 0)]);
      } else {
        assert ledger.reserves == ledger.reserves[id := ledger.reserves[id]];
      }
    }

    method HandleTransfer(log: Log, k: Kind) returns (ok: bool)
      requires log.event.Transfer?
      modifies this`ledger
      ensures Outcome(ok, ledger) == Apply(old(ledger), log, k)
    {
      var from, to := log.event.from, log.event.to;
      if log.event.value.None? {
        return true;
      }
      var v := log.event.value.value;
      match k {
        case BaseReserveKind => TransferReserveLp(log, BaseReserve, from, to, v); ok := true;
        case MetaReserveKind => TransferReserveLp(log, MetaReserve, from, to, v); ok := true;
        case IouKind => ok := TransferIou(log, from, to, v);
        case CurveKind => TransferCurveLp(log, from, to, v); ok := true;
        case _ => ok := true;
      }
    }

    method TransferReserveLp(log: Log, rt: ReserveType, from: Addr, to: Addr, v: int)
      modifies this`ledger
      ensures ledger == ReserveTransfer(old(ledger), log, rt, from, to, v)
    {
      hide AddBalance;
      var id := Emitter(log);
      EnsureReserveRow(id, rt);
      var t := ledger;
      var row := t.reserves[id];
      if from == ZERO_ADDRESS {
        ledger := t.(lpBalances := AddBalance(t.lpBalances, id, to, v),
                     reserves := t.reserves[id := row.(lpSupply := row.lpSupply + v)]);
      } else if to == ZERO_ADDRESS {
        ledger := t.(lpBalances := AddBalance(t.lpBalances, id, from, -v),
                     reserves := t.reserves[id := row.(lpSupply := row.lpSupply - v)]);
      } else {
        ledger := t.(lpBalances := AddBalance(AddBalance(t.lpBalances, id, from, -v), id, to, v));
        assert t.reserves[id := row.(lpSupply := row.lpSupply + 0)] == t.reserves;
      }
    }

    method TransferCurveLp(log: Log, from: Addr, to: Addr, v: int)
      modifies this`ledger
      ensures ledger == PoolTransfer(old(ledger), log, from, to, v)
    {
      hide AddBalance, CurvePools.Ensured;
      var id := Emitter(log);
      ledger := ledger.(pools := EnsureCurve(ledger.pools, id, log.block));
      var t := ledger;
      var row := t.pools[id];
      if from == ZERO_ADDRESS {
        ledger := t.(poolBalances := AddBalance(t.poolBalances, id, to, v),
                     pools := t.pools[id := row.(lpSupply := row.lpSupply + v, lastBlock := log.block)]);
      } else if to == ZERO_ADDRESS {
        ledger := t.(poolBalances := AddBalance(t.poolBalances, id, from, -v),
                     pools := t.pools[id := row.(lpSupply := row.lpSupply - v, lastBlock := log.block)]);
      } else {
        ledger := t.(poolBalances := AddBalance(AddBalance(t.poolBalances, id, from, -v), id, to, v));
      }
    }

    method TransferIou(log: Log, from: Addr, to: Addr, v: int) returns (ok: bool)
      modifies this`ledger
      ensures Outcome(ok, ledger) == IouTransfer(old(ledger), log, from, to, v)
    {
      hide Resnapshot, AddBalance, IouTransferred, EnsureIou, WithSupply;
      var id := Emitter(log);
      IouMoved(ledger, id, from, to, v);
      ledger := ledger.(iouTokens := EnsureIou(ledger.iouTokens, id));
      var balances := ledger.iouBalances;
      if from == ZERO_ADDRESS {
        ledger := ledger.(iouBalances := AddBalance(balances, id, to, v));
        AddIouSupply(id, v);
        ok := ResnapshotReserve(id, log);
      } else if to == ZERO_ADDRESS {
        ledger := ledger.(iouBalances := AddBalance(balances, id, from, -v));
        AddIouSupply(id, -v);
        ok := ResnapshotReserve(id, log);
      } else {
        ledger := ledger.(iouBalances := AddBalance(AddBalance(balances, id, from, -v), id, to, v));
        ok := true;
      }
    }

    method AddIouSupply(id: Id, delta: int)
      requires id in ledger.iouTokens
      modifies this`ledger
      ensures ledger == WithSupply(old(ledger), id, delta)
    {
      var row := ledger.iouTokens[id];
      ledger := ledger.(iouTokens := ledger.iouTokens[id := row.(totalSupply := row.totalSupply + delta)]);
      ledger := ledger.(assets := MirrorSupply(ledger.assets, id, delta));
    }

    method ResnapshotReserve(iou: Id, log: Log) returns (ok: bool)
      modifies this`ledger
      ensures Outcome(ok, ledger) == Resnapshot(old(ledger), iou, log)
    {
      var claimants := Claimants(ledger.assets, iou);
      if claimants == {} {
        return true;
      }
      var reserve := Picked(claimants, log);
      if reserve == NoAddr {
        return true;
      }
      ok := SnapshotReserveValue(Id(iou.chain, reserve), log);
    }

    // --- handlers.go: physical token balances ---

    /** The reserve's assets keyed by position; no row is lost. */
    method ReserveAssetsByPosition(id: Id) returns (byPos: map<nat, Addr>)
      requires Valid()
      ensures |byPos| == |Rows(ledger.assets, id)|
      ensures forall i :: i in byPos <==> 0 <= i < |Rows(ledger.assets, id)|
      ensures forall i :: i in byPos ==> byPos[i] == AssetAt(Rows(ledger.assets, id), i)
      ensures forall a :: a in Rows(ledger.assets, id) ==>
                var i := Rows(ledger.assets, id)[a].position; i in byPos && byPos[i] == a
    {
      var rows := Rows(ledger.assets, id);
      byPos := map[];
      var todo := rows.Keys;
      while todo != {}
        invariant todo <= rows.Keys
        invariant |byPos| + |todo| == |rows|
        invariant forall i :: i in byPos ==> byPos[i] in rows && byPos[i] !in todo && rows[byPos[i]].position == i
        invariant forall a :: a in rows && a !in todo ==> rows[a].position in byPos && byPos[rows[a].position] == a
      {
        var a :| a in todo;
        assert rows[a].position !in byPos;
        byPos := byPos[rows[a].position := a];
        todo := todo - {a};
      }
      forall i | i in byPos
        ensures byPos[i] == AssetAt(rows, i)
      {
        Positions.AssetAtPosition(rows, byPos[i]);
      }
      forall i | 0 <= i < |rows|
        ensures i in byPos
      {
        assert Occupied(rows, i);
      }
    }

    /** The reserve's assets in position order. */
    method AssetsInOrder(id: Id) returns (ordered: seq<Addr>)
      requires Valid()
      ensures ordered == Ordered(Rows(ledger.assets, id))
    {
      hide AssetAt;
      var byPos := ReserveAssetsByPosition(id);
      ordered := [];
      for i := 0 to |byPos|
        invariant ordered == Ordered(Rows(ledger.assets, id))[..i]
      {
        ordered := ordered + [byPos[i]];
      }
    }

    method FindMetaLegs(id: Id) returns (native: Addr, baseLp: Addr)
      requires Valid()
      ensures Legs(native, baseLp) == MetaLegs(ledger, id)
    {
      var ordered := AssetsInOrder(id);
      native, baseLp := NoAddr, NoAddr;
      for i := 0 to |ordered|
        invariant baseLp == LastBase(ledger, id.chain, ordered[..i])
      {
        assert ordered[..i + 1][..i] == ordered[..i];
        if IsBase(ledger, Id(id.chain, ordered[i])) {
          baseLp := ordered[i];
        }
      }
      assert ordered[..|ordered|] == ordered;
      if baseLp != NoAddr {
        for i := 0 to |ordered|
          invariant FirstOther(ordered, baseLp) == FirstOther(ordered[i..], baseLp)
        {
          if ordered[i] != baseLp {
            native := ordered[i];
            return;
          }
          assert ordered[i..][1..] == ordered[i + 1..];
        }
        assert ordered[|ordered|..] == [];
      } else if |ordered| == 2 {
        native, baseLp := ordered[0], ordered[1];
      }
    }

    method ApplyMetaAmounts(id: Id, native: int, baseLp: int, negate: bool)
      requires Valid()
      modifies this`ledger
      ensures ledger == old(ledger).(tokenBalances := AddFlows(old(ledger).tokenBalances, id,
        Balanced(old(ledger), id, MetaReserve, Malformed, native, baseLp, if negate then -1 else 1)))
    {
      hide AddFlows, MetaLegs;
      var nativeLeg, baseLpLeg := FindMetaLegs(id);
      var nativeAmt, baseLpAmt := native, baseLp;
      if negate {
        nativeAmt, baseLpAmt := -nativeAmt, -baseLpAmt;
      }
      TwoFlows(ledger.tokenBalances, id, Flow(nativeLeg, nativeAmt), Flow(baseLpLeg, baseLpAmt));
      AdjustTokenBalance(id, nativeLeg, nativeAmt);
      AdjustTokenBalance(id, baseLpLeg, baseLpAmt);
    }

    method ApplyReserveAmounts(id: Id, amounts: ArrayArg<int>, negate: bool) returns (ok: bool)
      requires Valid()
      modifies this`ledger
      ensures ok <==> amounts.Elements?
      ensures ok ==> ledger == old(ledger).(tokenBalances := AddFlows(old(ledger).tokenBalances, id,
        Positional(Rows(old(ledger).assets, id), amounts.elements, if negate then -1 else 1)))
    {
      hide AssetAt, Dense, AddFlows, AdjustToken;
      if amounts.Malformed? {
        return false;
      }
      var xs := amounts.elements;
      ghost var flows := Positional(Rows(ledger.assets, id), xs, if negate then -1 else 1);
      if |xs| == 0 {
        NoFlows(ledger.tokenBalances, id, flows);
        return true;
      }
      var byPos := ReserveAssetsByPosition(id);
      NoFlows(ledger.tokenBalances, id, flows[..0]);
      for i := 0 to |xs|
        invariant ledger == old(ledger).(tokenBalances := AddFlows(old(ledger).tokenBalances, id, flows[..i]))
      {
        OneMoreFlow(old(ledger).tokenBalances, id, flows, i);
        NothingAdjusted(ledger.tokenBalances, id, flows[i].amount);
        if i !in byPos {
          Unregistered(Rows(ledger.assets, id), i);
          continue;
        }
        var asset := byPos[i];
        if asset == NoAddr {
          continue;
        }
        var delta := xs[i];
        if negate {
          delta := -delta;
        }
        AdjustTokenBalance(id, asset, delta);
      }
      assert flows[..|xs|] == flows;
      return true;
    }

    static lemma Unregistered(rows: map<Addr, Asset>, i: nat)
      requires Dense(rows) && i >= |rows|
      ensures AssetAt(rows, i) == NoAddr
    {
    }

    /** Two statements, neither of which reads the history tables. */
    method SnapshotReserveValue(id: Id, log: Log) returns (ok: bool)
      modifies this`ledger
      ensures Outcome(ok, ledger) == Snapshot(old(ledger), id, log)
    {
      if DividesByZero(ledger, id) {
        return false;
      }
      var values := SnapshotValue(ledger, id, log);
      var assetDays := SnapshotAssets(ledger, id, log);
      ledger := ledger.(valueHistory := values, assetHistory := assetDays);
      return true;
    }

    // --- handlers.go: reserve events ---

    method BumpReserve(id: Id, rt: ReserveType, column: TotalColumn, delta: int)
      modifies this`ledger
      ensures ledger == old(ledger).(reserves :=
        old(ledger).reserves[id := Bumped(ReserveRow(old(ledger).reserves, id, rt), column, delta)])
    {
      EnsureReserveRow(id, rt);
      ledger := ledger.(reserves := ledger.reserves[id := Bumped(ledger.reserves[id], column, delta)]);
    }

    method HandleReserveDeposit(log: Log, rt: ReserveType) returns (ok: bool)
      requires Valid() && log.event.Deposit?
      modifies this`ledger
      ensures Outcome(ok, ledger) == FlowEvent(old(ledger), log, rt)
    {
      hide SnapshotValue, SnapshotAssets, DividesByZero, AddFlows, MetaLegs;
      var id, e := Emitter(log), log.event;
      if rt == MetaReserve {
        ApplyMetaAmounts(id, e.nativeIn, e.baseLpIn, false);
      } else {
        ok := ApplyReserveAmounts(id, e.amounts, false);
        if !ok { return; }
      }
      assert ledger == Moved(old(ledger), id, rt, e);
      ok := SnapshotReserveValue(id, log);
      if !ok { return; }
      BumpReserve(id, rt, TotalDeposits, e.lpMinted);
    }

    method HandleReserveWithdraw(log: Log, rt: ReserveType) returns (ok: bool)
      requires Valid() && log.event.Withdraw?
      modifies this`ledger
      ensures Outcome(ok, ledger) == FlowEvent(old(ledger), log, rt)
    {
      hide SnapshotValue, SnapshotAssets, DividesByZero, AddFlows, MetaLegs;
      var id, e := Emitter(log), log.event;
      if rt == MetaReserve {
        ApplyMetaAmounts(id, e.nativeOut, e.baseLpOut, true);
      } else {
        ok := ApplyReserveAmounts(id, e.amounts, true);
        if !ok { return; }
      }
      assert ledger == Moved(old(ledger), id, rt, e);
      ok := SnapshotReserveValue(id, log);
      if !ok { return; }
      BumpReserve(id, rt, TotalWithdrawals, e.lpBurned);
    }

    method HandleSingleAssetDeposit(log: Log, rt: ReserveType) returns (ok: bool)
      requires log.event.SingleAssetDeposit?
      modifies this`ledger
      ensures Outcome(ok, ledger) == FlowEvent(old(ledger), log, rt)
    {
      hide SnapshotValue, SnapshotAssets, DividesByZero, AddFlows, AdjustToken;
      var id, e := Emitter(log), log.event;
      TwoFlows(ledger.tokenBalances, id, Flow(e.asset, e.amountIn), Flow(e.asset, -e.fee));
      AdjustTokenBalance(id, e.asset, e.amountIn);
      AdjustTokenBalance(id, e.asset, -e.fee);
      ok := SnapshotReserveValue(id, log);
      if !ok { return; }
      BumpReserve(id, rt, TotalDeposits, e.lpMinted);
    }

    method HandleSingleAssetWithdraw(log: Log, rt: ReserveType) returns (ok: bool)
      requires log.event.SingleAssetWithdraw?
      modifies this`ledger
      ensures Outcome(ok, ledger) == FlowEvent(old(ledger), log, rt)
    {
      hide SnapshotValue, SnapshotAssets, DividesByZero, AddFlows, AdjustToken;
      var id, e := Emitter(log), log.event;
      TwoFlows(ledger.tokenBalances, id, Flow(e.asset, -e.amountOut), Flow(e.asset, -e.fee));
      AdjustTokenBalance(id, e.asset, -e.amountOut);
      AdjustTokenBalance(id, e.asset, -e.fee);
      ok := SnapshotReserveValue(id, log);
      if !ok { return; }
      BumpReserve(id, rt, TotalWithdrawals, e.lpBurned);
    }

    method HandleRebalanced(log: Log, rt: ReserveType) returns (ok: bool)
      requires log.event.Rebalanced?
      modifies this`ledger
      ensures Outcome(ok, ledger) == FlowEvent(old(ledger), log, rt)
    {
      hide SnapshotValue, SnapshotAssets, DividesByZero, AddFlows, AdjustToken;
      var id, e := Emitter(log), log.event;
      EnsureReserveRow(id, rt);
      TwoFlows(ledger.tokenBalances, id, Flow(e.tokenIn, e.amountIn), Flow(e.tokenOut, -e.amountOut));
      AdjustTokenBalance(id, e.tokenIn, e.amountIn);
      AdjustTokenBalance(id, e.tokenOut, -e.amountOut);
      ok := SnapshotReserveValue(id, log);
      assert ok ==> ledger.reserves[id := ledger.reserves[id]] == ledger.reserves;
    }

    method HandleReserveSwap(log: Log, rt: ReserveType) returns (ok: bool)
      requires log.event.Swap?
      modifies this`ledger
      ensures Outcome(ok, ledger) == FlowEvent(old(ledger), log, rt)
    {
      hide SnapshotValue, SnapshotAssets, DividesByZero, AddFlows, AdjustToken;
      var id, e := Emitter(log), log.event;
      EnsureReserveRow(id, rt);
      TwoFlows(ledger.tokenBalances, id, Flow(e.tokenIn, e.amountIn), Flow(e.tokenOut, -e.amountOut));
      AdjustTokenBalance(id, e.tokenIn, e.amountIn);
      AdjustTokenBalance(id, e.tokenOut, -e.amountOut);
      ok := SnapshotReserveValue(id, log);
      if !ok { return; }
      var row := ledger.reserves[id];
      ledger := ledger.(reserves := ledger.reserves[id := row.(swapCount := row.swapCount + 1)]);
    }

    method HandleFlashLoan(log: Log, rt: ReserveType) returns (ok: bool)
      requires log.event.FlashLoan?
      modifies this`ledger
      ensures Outcome(ok, ledger) == FlowEvent(old(ledger), log, rt)
    {
      hide SnapshotValue, SnapshotAssets, DividesByZero, AddFlows, AdjustToken;
      var id, e := Emitter(log), log.event;
      EnsureReserveRow(id, rt);
      OneFlow(ledger.tokenBalances, id, Flow(e.token, e.fee));
      AdjustTokenBalance(id, e.token, e.fee);
      ok := SnapshotReserveValue(id, log);
      assert ok ==> ledger.reserves[id := ledger.reserves[id]] == ledger.reserves;
    }

    method HandleDonationRecognized(log: Log, rt: ReserveType) returns (ok: bool)
      requires log.event.DonationRecognized?
      modifies this`ledger
      ensures Outcome(ok, ledger) == FlowEvent(old(ledger), log, rt)
    {
      hide SnapshotValue, SnapshotAssets, DividesByZero, AddFlows, AdjustToken;
      var id, e := Emitter(log), log.event;
      EnsureReserveRow(id, rt);
      OneFlow(ledger.tokenBalances, id, Flow(e.asset, e.units));
      AdjustTokenBalance(id, e.asset, e.units);
      ok := SnapshotReserveValue(id, log);
      assert ok ==> ledger.reserves[id := ledger.reserves[id]] == ledger.reserves;
    }

    method HandleIouMinted(log: Log, rt: ReserveType) returns (ok: bool)
      requires log.event.IouMinted?
      modifies this`ledger
      ensures Outcome(ok, ledger) == FlowEvent(old(ledger), log, rt)
    {
      hide SnapshotValue, SnapshotAssets, DividesByZero, AddFlows, AdjustToken;
      var id, e := Emitter(log), log.event;
      OneFlow(ledger.tokenBalances, id, Flow(e.asset, e.amount));
      AdjustTokenBalance(id, e.asset, e.amount);
      ok := SnapshotReserveValue(id, log);
      if !ok { return; }
      BumpReserve(id, rt, IouMintedTotal, e.amount);
    }

    method HandleIouRedeemed(log: Log, rt: ReserveType) returns (ok: bool)
      requires log.event.IouRedeemed?
      modifies this`ledger
      ensures Outcome(ok, ledger) == FlowEvent(old(ledger), log, rt)
    {
      hide SnapshotValue, SnapshotAssets, DividesByZero, AddFlows, AdjustToken;
      var id, e := Emitter(log), log.event;
      OneFlow(ledger.tokenBalances, id, Flow(e.asset, -e.amount));
      AdjustTokenBalance(id, e.asset, -e.amount);
      ok := SnapshotReserveValue(id, log);
      if !ok { return; }
      BumpReserve(id, rt, IouRedeemedTotal, e.amount);
    }

    method HandleAssetAdded(log: Log, rt: ReserveType)
      requires log.event.AssetAdded?
      modifies this`ledger
      ensures ledger == AddAsset(old(ledger), log, rt)
    {
      var id, e := Emitter(log), log.event;
      EnsureReserveRow(id, rt);
      if e.iou != NoAddr && e.iou != ZERO_ADDRESS {
        ledger := ledger.(iouTokens := EnsureIou(ledger.iouTokens, Id(log.chain, e.iou)));
      }
      var rows := Rows(ledger.assets, id);
      if e.asset in rows {
        rows := rows[e.asset := rows[e.asset].(decimals := e.decimals, iou := e.iou, weight := e.weight)];
      } else {
        rows := rows[e.asset := Asset(e.decimals, e.iou, |rows|, 0, e.weight)];
      }
      ledger := ledger.(assets := ledger.assets[id := rows]);
    }

    method HandleReserveSettings(log: Log, rt: ReserveType)
      requires log.event.SettingUpdated?
      modifies this`ledger
      ensures ledger == UpdateSetting(old(ledger), log, rt)
    {
      var id := Emitter(log);
      EnsureReserveRow(id, rt);
      var table := Upserts.UpsertSettings(ledger.settings, id, rt, log.event.setting, log.block);
      ledger := ledger.(settings := table);
    }

    // --- dispatch.go ---

    method DispatchReserve(log: Log, rt: ReserveType) returns (ok: bool)
      requires Valid()
      modifies this`ledger
      ensures Outcome(ok, ledger) == ApplyReserve(old(ledger), log, rt)
    {
      match log.event {
        case Transfer(_, _, _) => ok := HandleTransfer(log, ReserveKind(rt));
        case Deposit(_, _, _, _) => ok := HandleReserveDeposit(log, rt);
        case Withdraw(_, _, _, _) => ok := HandleReserveWithdraw(log, rt);
        case SingleAssetDeposit(_, _, _, _) => ok := HandleSingleAssetDeposit(log, rt);
        case SingleAssetWithdraw(_, _, _, _) => ok := HandleSingleAssetWithdraw(log, rt);
        case Rebalanced(_, _, _, _) => ok := HandleRebalanced(log, rt);
        case Swap(_, _, _, _) => ok := HandleReserveSwap(log, rt);
        case IouMinted(_, _) => ok := HandleIouMinted(log, rt);
        case IouRedeemed(_, _) => ok := HandleIouRedeemed(log, rt);
        case AssetAdded(_, _, _, _) => HandleAssetAdded(log, rt); ok := true;
        case FlashLoan(_, _) => ok := HandleFlashLoan(log, rt);
        case DonationRecognized(_, _) => ok := HandleDonationRecognized(log, rt);
        case SettingUpdated(_) => HandleReserveSettings(log, rt); ok := true;
        case _ => ok := true;
      }
    }

    method DispatchIou(log: Log) returns (ok: bool)
      modifies this`ledger
      ensures Outcome(ok, ledger) == ApplyIou(old(ledger), log)
    {
      match log.event {
        case Transfer(_, _, _) => ok := HandleTransfer(log, IouKind);
        case ClearIouMinted(fee) => HandleIouTreasuryFee(log, fee); ok := true;
        case _ => ok := true;
      }
    }

    method HandleIouTreasuryFee(log: Log, fee: int)
      modifies this`ledger
      ensures var row := IouRow(old(ledger).iouTokens, Emitter(log));
              ledger == old(ledger).(iouTokens :=
                old(ledger).iouTokens[Emitter(log) := row.(treasuryFees := row.treasuryFees + fee)])
    {
      var id := Emitter(log);
      ledger := ledger.(iouTokens := EnsureIou(ledger.iouTokens, id));
      var row := ledger.iouTokens[id];
      if fee == 0 {
        assert ledger.iouTokens[id := row] == ledger.iouTokens;
        return;
      }
      ledger := ledger.(iouTokens := ledger.iouTokens[id := row.(treasuryFees := row.treasuryFees + fee)]);
    }

    method DispatchCurve(log: Log) returns (ok: bool)
      modifies this`ledger
      ensures Outcome(ok, ledger) == ApplyCurve(old(ledger), log)
    {
      var id := Emitter(log);
      match log.event {
        case Transfer(_, _, _) => ok := HandleTransfer(log, CurveKind);
        case TokenExchange =>
          ledger := ledger.(pools := EnsureCurve(ledger.pools, id, log.block));
          var row := ledger.pools[id];
          ledger := ledger.(pools := ledger.pools[id := row.(swapCount := row.swapCount + 1, lastBlock := log.block)]);
          assert ledger.pools == old(ledger).pools[id := row.(swapCount := row.swapCount + 1, lastBlock := log.block)];
          ok := true;
        case LiquidityChanged(tokenAmounts, fees) =>
          ledger := ledger.(pools := EnsureCurve(ledger.pools, id, log.block));
          ok := tokenAmounts.Elements? && fees.Elements?;
        case _ => ok := true;
      }
    }

    method DispatchOracle(log: Log)
      modifies this`ledger
      ensures Outcome(true, ledger) == ApplyOracle(old(ledger), log)
    {
      match log.event {
        case OracleConfigured(asset, price) => SetRedemptionPrice(log.chain, asset, price);
        case RedemptionPriceChanged(asset, price) => SetRedemptionPrice(log.chain, asset, Some(price));
        case _ =>
      }
    }

    method SetRedemptionPrice(chain: nat, asset: Addr, price: Option<int>)
      modifies this`ledger
      ensures ledger == if asset == NoAddr then old(ledger)
                        else old(ledger).(redemptionPrices := old(ledger).redemptionPrices[Id(chain, asset) := price])
    {
      if asset == NoAddr {
        return;
      }
      ledger := ledger.(redemptionPrices := ledger.redemptionPrices[Id(chain, asset) := price]);
    }

    method DispatchFactory(log: Log) returns (ok: bool)
      modifies this`ledger
      ensures Outcome(ok, ledger) == ApplyFactory(old(ledger), log)
    {
      if !log.event.NewClearReserve? {
        return true;
      }
      var e := log.event;
      if e.reserve == NoAddr || e.reserve == ZERO_ADDRESS {
        return true;
      }
      if e.reserveType.None? {
        return false;
      }
      EnsureReserveRow(Id(log.chain, e.reserve), e.reserveType.value);
      return e.tokens.Elements?;
    }

    method DispatchCurveDeployer(log: Log)
      modifies this`ledger
      ensures Outcome(true, ledger) == ApplyDeployer(old(ledger), log)
    {
      hide CurvePools.Ensured;
      if !log.event.PoolDeployed? {
        return;
      }
      var e := log.event;
      if e.pool == NoAddr || e.pool == ZERO_ADDRESS {
        return;
      }
      var id := Id(log.chain, e.pool);
      var row := CurvePools.Ensured(ledger.pools, id, log.block);
      var coin := e.coin;
      var isBase := coin == NoAddr || coin == ZERO_ADDRESS;
      if isBase {
        coin := NoAddr;
      }
      row := row.(reserve := e.reserve, basePool := e.basePool, coin := coin, isBasePool := Some(isBase),
        deployer := log.address);
      ledger := ledger.(pools := ledger.pools[id := row]);
    }

    method DispatchCurveFactory(log: Log) returns (ok: bool, pool: Addr)
      modifies this`ledger
      ensures Outcome(ok, ledger) == ApplyCurveFactory(old(ledger), log)
      ensures pool ==
              if log.event.CurvePoolDeployed? && log.event.receipt.Some? then CurvePools.Deployed(log) else NoAddr
    {
      hide CurvePools.Ensured;
      if !log.event.CurvePoolDeployed? {
        return true, NoAddr;
      }
      var e := log.event;
      if e.receipt.None? {
        return true, NoAddr;
      }
      pool := CurvePools.ResolveDeployedPool(e.receipt.value, log.address, log.logIndex);
      if pool == NoAddr {
        return true, pool;
      }
      var coins;
      coins, ok := CurvePools.ReadEventCoins(e);
      if !ok {
        return;
      }
      var id := Id(log.chain, pool);
      var row := CurvePools.Ensured(ledger.pools, id, log.block);
      row := row.(curveFactory := log.address, isMeta := Some(e.meta), amplification := e.amplification,
                  fee := e.poolFee,
                  coins := if |coins| > 0 then coins else row.coins,
                  deployer := CurvePools.Coalesce(row.deployer, e.deployer),
                  basePool := CurvePools.Coalesce(row.basePool, e.basePool),
                  coin := CurvePools.Coalesce(row.coin, e.coin));
      ledger := ledger.(pools := ledger.pools[id := row]);
    }

    /** Routes a log to its handler; `announced` is the contract the handler goes on to track. */
    method RunHandler(log: Log, k: Kind) returns (ok: bool, announced: Option<Announcement>)
      requires Valid()
      modifies this`ledger
      ensures Outcome(ok, ledger) == Apply(old(ledger), log, k)
      ensures ok ==> announced == Announced(log, k)
    {
      hide ApplyReserve, ApplyIou, ApplyCurve, ApplyOracle, ApplyDeployer, ApplyCurveFactory, CurvePools.Deployed;
      announced := None;
      match k {
        case BaseReserveKind => ok := DispatchReserve(log, BaseReserve); announced := ReserveAnnouncement(log);
        case MetaReserveKind => ok := DispatchReserve(log, MetaReserve); announced := ReserveAnnouncement(log);
        case IouKind => ok := DispatchIou(log);
        case CurveKind => ok := DispatchCurve(log);
        case OracleKind => DispatchOracle(log); ok := true;
        case FactoryKind => ok := DispatchFactory(log); announced := FactoryAnnouncement(log);
        case CurveDeployerKind => DispatchCurveDeployer(log); ok := true; announced := DeployerAnnouncement(log);
        case CurveFactoryKind =>
          var pool;
          ok, pool := DispatchCurveFactory(log);
          if pool != NoAddr {
            announced := Some(Announcement(pool, CurveKind));
          }
        case UnknownKind => ok := true;
      }
    }

    /** Runs the handler, then tracks the contract it announced. */
    method Dispatch(log: Log, k: Kind, fault: Fault) returns (ok: bool)
      requires Valid()
      modifies this`ledger, this`contracts, this`registry
      ensures var ann := Announced(log, k);
              var before := old(Abstract());
              var after := Apply(old(ledger), log, k);
              && (ok <==> after.Some? && !(fault == AtTrack && ann.Some?))
              && (after.None? ==> registry == old(registry))
              && (after.Some? ==> registry == Tracked(before, log, ann).registry)
              && (ok ==> ledger == after.value && contracts == Tracked(before, log, ann).contracts)
    {
      hide Apply, Announced;
      var announced;
      ok, announced := RunHandler(log, k);
      if !ok || announced.None? {
        return;
      }
      AnnouncesKnown(log, k);
      ok := TrackContract(Id(log.chain, announced.value.addr), announced.value.kind, fault);
    }

    // --- main.go ---

    /** One delivery: claim the id, resolve, dispatch, commit. An error, on which the host redelivers,
        has rolled every table back; success means that the id is claimed. */
    method NewLogEvent(log: Log, fault: Fault) returns (ok: bool)
      requires Valid()
      modifies this
      ensures Abstract() == Delivered(old(Abstract()), log, fault)
      ensures Valid()
      ensures ok ==> log.id in processed
      ensures !ok ==> ledger == old(ledger) && processed == old(processed) && contracts == old(contracts)
    {
      hide Apply, Announced, Classify, Persist;
      UnknownIsInert(ledger, log);
      if fault == AtBegin {
        return false;
      }
      if log.id in processed {
        return true;
      }
      var ledger0, processed0, contracts0 := ledger, processed, contracts;
      processed := processed + {log.id};
      var k;
      k, ok := ResolveKind(log, fault);
      if ok && k != UnknownKind {
        if fault == InHandler {
          ok := false;
        } else {
          ok := Dispatch(log, k, fault);
        }
      }
      if ok && fault == AtCommit {
        ok := false;
      }
      if !ok {
        ledger, processed, contracts := ledger0, processed0, contracts0;
      } else {
        Positions.PositionsKept(ledger0, log, k);
      }
    }
  }
}
