/**
 The daily histories against the views they cache (handlers.go: snapshotReserveValue,
 snapshotReserveAssets; schema.go: clear_reserve_par_values, clear_reserve_values).
 */
module History {
  import opened Addresses
  import opened Effects
  import opened Frames
  import opened Kinds
  import opened Options
  import opened Sums
  import opened Tables
  import opened Valuation
  import opened Machine
  import opened Delivery

  // --- which snapshot a log takes ---

  /** The reserve a log snapshots: the emitter of a flow, or the reserve that claims a minted or burned IOU. */
  function Snapshots(t: Ledger, log: Log, k: Kind): Option<Id> {
    if IsFlow(log, k) then Some(Emitter(log))
    else if k.IouKind? && IsSupplyTransfer(log.event) && Claimants(t.assets, Emitter(log)) != {}
            && Picked(Claimants(t.assets, Emitter(log)), log) != NoAddr
    then Some(Id(log.chain, Picked(Claimants(t.assets, Emitter(log)), log)))
    else None
  }

  lemma SnapshotsOwnChain(t: Ledger, log: Log, k: Kind)
    ensures Snapshots(t, log, k).Some? ==> Snapshots(t, log, k).value.chain == log.chain
  {
    hide Claimants;
  }

  /** The ledger that snapshot reads. */
  function Read(t: Ledger, log: Log, k: Kind): Ledger {
    if IsFlow(log, k) then Moved(t, Emitter(log), TypeOf(k), log.event)
    else if k.IouKind? && IsTransfer(log.event)
    then IouTransferred(t, Emitter(log), log.event.from, log.event.to, log.event.value.value)
    else t
  }

  lemma MirrorKeepsClaims(assets: map<Id, map<Addr, Asset>>, iou: Id, delta: int)
    ensures Claimants(MirrorSupply(assets, iou, delta), iou) == Claimants(assets, iou)
  {
    var after := MirrorSupply(assets, iou, delta);
    forall id | id in assets && id.chain == iou.chain
      ensures ClaimedIn(after[id], iou.addr) <==> ClaimedIn(assets[id], iou.addr)
    {
      MirrorRowsClaims(assets[id], iou.addr, delta);
    }
  }

  lemma MirrorRowsClaims(rows: map<Addr, Asset>, iou: Addr, delta: int)
    ensures ClaimedIn(MirrorRows(rows, iou, delta), iou) <==> ClaimedIn(rows, iou)
  {
    var after := MirrorRows(rows, iou, delta);
    if a :| a in rows && rows[a].iou == iou {
      assert after[a].iou == iou;
    }
  }

  /** Both history tables after a log. */
  ghost predicate Recorded(t: Ledger, log: Log, k: Kind, r: Ledger) {
    var target := Snapshots(t, log, k);
    if target.None? then r.valueHistory == t.valueHistory && r.assetHistory == t.assetHistory
    else
      && r.valueHistory == SnapshotValue(Read(t, log, k), target.value, log)
      && r.assetHistory == SnapshotAssets(Read(t, log, k), target.value, log)
  }

  lemma FlowRecorded(t: Ledger, log: Log, k: Kind)
    requires IsFlow(log, k) && FlowEvent(t, log, TypeOf(k)).Some?
    ensures Recorded(t, log, k, FlowEvent(t, log, TypeOf(k)).value)
  {
    hide SnapshotValue, SnapshotAssets, DividesByZero, Moved, Counted, Claimants;
  }

  lemma IouTransferRecorded(t: Ledger, log: Log)
    requires IsTransfer(log.event) && ApplyIou(t, log).Some?
    ensures Recorded(t, log, IouKind, ApplyIou(t, log).value)
  {
    hide SnapshotValue, SnapshotAssets, DividesByZero, Claimants, IouTransferred, MirrorSupply, FeePaid;
    var from, to, v := log.event.from, log.event.to, log.event.value.value;
    IouTransferredFrame(t, Emitter(log), from, to, v);
    MirrorKeepsClaims(t.assets, Emitter(log), SupplyChange(from, to, v));
  }

  lemma IouRecorded(t: Ledger, log: Log)
    requires ApplyIou(t, log).Some?
    ensures Recorded(t, log, IouKind, ApplyIou(t, log).value)
  {
    hide Recorded, IouTransfer, FeePaid;
    if IsTransfer(log.event) {
      IouTransferRecorded(t, log);
    } else if log.event.ClearIouMinted? {
      StillRecorded(t, log, IouKind, ApplyIou(t, log).value);
    } else {
      StillRecorded(t, log, IouKind, t);
    }
  }

  lemma StillRecorded(t: Ledger, log: Log, k: Kind, r: Ledger)
    requires !IsFlow(log, k) && !(k.IouKind? && IsTransfer(log.event))
    requires r.valueHistory == t.valueHistory && r.assetHistory == t.assetHistory
    ensures Recorded(t, log, k, r)
  {
    hide SnapshotValue, SnapshotAssets, Claimants;
  }

  lemma ReserveRecorded(t: Ledger, log: Log, k: Kind)
    requires IsReserveKind(k) && ApplyReserve(t, log, TypeOf(k)).Some?
    ensures Recorded(t, log, k, ApplyReserve(t, log, TypeOf(k)).value)
  {
    hide Recorded, FlowEvent, AddAsset, UpdateSetting, ReserveTransfer;
    RegistrationFrame(t, log, TypeOf(k));
    if IsFlowEvent(log.event) {
      FlowRecorded(t, log, k);
    } else {
      if IsTransfer(log.event) {
        ReserveTransferFrame(t, log, TypeOf(k), log.event.from, log.event.to, log.event.value.value);
      }
      StillRecorded(t, log, k, ApplyReserve(t, log, TypeOf(k)).value);
    }
  }

  /** The history tables change by one snapshot at most, read from the ledger after the log's own updates. */
  lemma HistoryFrame(t: Ledger, log: Log, k: Kind)
    requires Apply(t, log, k).Some?
    ensures Recorded(t, log, k, Apply(t, log, k).value)
  {
    hide ApplyReserve, ApplyIou, ApplyCurve, ApplyOracle, ApplyFactory, ApplyDeployer, ApplyCurveFactory, Recorded;
    if IsReserveKind(k) {
      ReserveRecorded(t, log, k);
    } else if k.IouKind? {
      IouRecorded(t, log);
    } else {
      OtherFrame(t, log, k);
      StillRecorded(t, log, k, Apply(t, log, k).value);
    }
  }

  /** The ledger a snapshot reads already holds the log's final asset rows and balances, and has the
      histories of the start and at least its reserve rows. */
  ghost predicate ReadFrame(t: Ledger, b: Ledger, r: Ledger) {
    && b.assets == r.assets && b.tokenBalances == r.tokenBalances
    && b.valueHistory == t.valueHistory && b.assetHistory == t.assetHistory
    && (forall id :: id in t.reserves ==> id in b.reserves && b.reserves[id].kind == t.reserves[id].kind)
    && (forall id :: id in b.reserves ==>
          id in r.reserves && r.reserves[id].kind == b.reserves[id].kind
            && r.reserves[id].lpSupply == b.reserves[id].lpSupply)
  }

  lemma FlowReadFrame(t: Ledger, log: Log, k: Kind)
    requires IsFlow(log, k) && FlowEvent(t, log, TypeOf(k)).Some?
    ensures ReadFrame(t, Read(t, log, k), FlowEvent(t, log, TypeOf(k)).value)
  {
    hide SnapshotValue, SnapshotAssets, DividesByZero, Counted, AddFlows, Flows, Claimants;
    var b := Read(t, log, k);
    CountedKeepsSupply(ReserveRow(b.reserves, Emitter(log), TypeOf(k)), log.event);
  }

  lemma IouReadFrame(t: Ledger, log: Log)
    requires IsTransfer(log.event) && ApplyIou(t, log).Some?
    ensures ReadFrame(t, Read(t, log, IouKind), ApplyIou(t, log).value)
  {
    hide IouTransfer, IouTransferred, FeePaid;
    IouTransferFrame(t, log, log.event.from, log.event.to, log.event.value.value);
    IouTransferredFrame(t, Emitter(log), log.event.from, log.event.to, log.event.value.value);
  }

  lemma SnapshotReads(t: Ledger, log: Log, k: Kind)
    requires Snapshots(t, log, k).Some? && Apply(t, log, k).Some?
    ensures ReadFrame(t, Read(t, log, k), Apply(t, log, k).value)
  {
    hide FlowEvent, IouTransfer, Claimants, Read, ReadFrame;
    if IsFlow(log, k) { FlowReadFrame(t, log, k); } else { IouReadFrame(t, log); }
  }

  // --- ordered histories ---

  /** Value rows exist for known reserves only. */
  ghost predicate OfReserves(t: Ledger) {
    forall id :: id in t.valueHistory ==> id in t.reserves
  }

  ghost predicate ValuesBefore(history: map<Id, map<nat, ValueRow>>, log: Log) {
    forall id, d :: id in history && d in history[id] && id.chain == log.chain ==>
      history[id][d].block <= log.block && d <= Day(log.timestamp)
  }

  ghost predicate AssetDaysBefore(history: map<DayKey, map<Addr, AssetDay>>, log: Log) {
    forall key, a :: key in history && a in history[key] && key.id.chain == log.chain ==>
      history[key][a].block <= log.block
  }

  /** On the log's chain nothing recorded is later than the log. */
  ghost predicate Before(t: Ledger, log: Log) {
    ValuesBefore(t.valueHistory, log) && AssetDaysBefore(t.assetHistory, log)
  }

  lemma ReadBefore(t: Ledger, b: Ledger, r: Ledger, log: Log)
    requires ReadFrame(t, b, r)
    ensures Before(t, log) <==> Before(b, log)
    ensures OfReserves(t) ==> OfReserves(b)
  {
  }

  /** A ledger with both history tables of a reserve brought up to date. */
  function Taken(b: Ledger, id: Id, log: Log): Ledger {
    b.(valueHistory := SnapshotValue(b, id, log), assetHistory := SnapshotAssets(b, id, log))
  }

  lemma TakenOfReserves(b: Ledger, id: Id, log: Log)
    requires OfReserves(b)
    ensures OfReserves(Taken(b, id, log))
  {
    hide SnapshotAssets, ValueRowOf, Day;
  }

  lemma OfReservesFrame(t: Ledger, u: Ledger)
    requires OfReserves(t) && u.valueHistory == t.valueHistory
    requires forall id :: id in t.reserves ==> id in u.reserves
    ensures OfReserves(u)
  {
  }

  lemma StayOfReserves(t: Ledger, log: Log, k: Kind)
    requires OfReserves(t) && Apply(t, log, k).Some?
    ensures OfReserves(Apply(t, log, k).value)
  {
    hide Apply, SnapshotValue, SnapshotAssets, Snapshots, Read, OfReserves;
    var r := Apply(t, log, k).value;
    HistoryFrame(t, log, k);
    ReservesFrame(t, log, k);
    var target := Snapshots(t, log, k);
    if target.None? {
      OfReservesFrame(t, r);
    } else {
      var b := Read(t, log, k);
      SnapshotReads(t, log, k);
      ReadBefore(t, b, r, log);
      TakenOfReserves(b, target.value, log);
      OfReservesFrame(Taken(b, target.value, log), r);
    }
  }

  // --- where the rows come from ---

  /** On each chain blocks and days never go back along a list of logs. */
  predicate InOrder(logs: seq<Log>) {
    forall i, j :: 0 <= i <= j < |logs| && logs[i].chain == logs[j].chain ==>
      logs[i].block <= logs[j].block && Day(logs[i].timestamp) <= Day(logs[j].timestamp)
  }

  lemma PrefixInOrder(logs: seq<Log>, n: nat)
    requires n <= |logs| && InOrder(logs)
    ensures InOrder(logs[..n])
  {
    hide Day;
  }

  /** Some log of the list carries the stamp. */
  predicate Stamped(logs: seq<Log>, chain: nat, block: nat, day: nat) {
    exists i :: 0 <= i < |logs| && logs[i].chain == chain && logs[i].block == block && Day(logs[i].timestamp) == day
  }

  ghost predicate ValuesStamped(history: map<Id, map<nat, ValueRow>>, logs: seq<Log>) {
    forall id, d :: id in history && d in history[id] ==> Stamped(logs, id.chain, history[id][d].block, d)
  }

  ghost predicate AssetDaysStamped(history: map<DayKey, map<Addr, AssetDay>>, logs: seq<Log>) {
    forall key, a :: key in history && a in history[key] ==> Stamped(logs, key.id.chain, history[key][a].block, key.day)
  }

  /** Every recorded row carries the stamp of a processed log of its chain. */
  ghost predicate AllStamped(t: Ledger, logs: seq<Log>) {
    ValuesStamped(t.valueHistory, logs) && AssetDaysStamped(t.assetHistory, logs)
  }

  lemma StampedLonger(logs: seq<Log>, log: Log)
    ensures forall chain, block, day :: Stamped(logs, chain, block, day) ==> Stamped(logs + [log], chain, block, day)
    ensures Stamped(logs + [log], log.chain, log.block, Day(log.timestamp))
  {
    hide Day;
    var all := logs + [log];
    assert all[|logs|] == log;
    forall chain: nat, block: nat, day: nat | Stamped(logs, chain, block, day)
      ensures Stamped(all, chain, block, day)
    {
      var i :| 0 <= i < |logs| && logs[i].chain == chain && logs[i].block == block && Day(logs[i].timestamp) == day;
      assert all[i] == logs[i];
    }
  }

  lemma ValuesStayStamped(b: Ledger, id: Id, log: Log, logs: seq<Log>)
    requires ValuesStamped(b.valueHistory, logs) && id.chain == log.chain
    ensures ValuesStamped(SnapshotValue(b, id, log), logs + [log])
  {
    hide ReserveValue, Day, Stamped;
    StampedLonger(logs, log);
  }

  lemma AssetDaysStayStamped(b: Ledger, id: Id, log: Log, logs: seq<Log>)
    requires AssetDaysStamped(b.assetHistory, logs) && id.chain == log.chain
    ensures AssetDaysStamped(SnapshotAssets(b, id, log), logs + [log])
  {
    hide LegGross, LegDebt, Day, Stamped;
    StampedLonger(logs, log);
    var today := DayKey(id, Day(log.timestamp));
    assert forall a :: a in Rows(b.assetHistory, today) ==>
           Stamped(logs, id.chain, Rows(b.assetHistory, today)[a].block, today.day);
  }

  lemma StampedFrame(t: Ledger, u: Ledger, logs: seq<Log>, log: Log)
    requires AllStamped(t, logs) && u.valueHistory == t.valueHistory && u.assetHistory == t.assetHistory
    ensures AllStamped(u, logs) && AllStamped(u, logs + [log])
  {
    hide Stamped;
    StampedLonger(logs, log);
  }

  lemma StaysStamped(t: Ledger, log: Log, k: Kind, logs: seq<Log>)
    requires AllStamped(t, logs) && Apply(t, log, k).Some?
    ensures AllStamped(Apply(t, log, k).value, logs + [log])
  {
    hide Apply, SnapshotValue, SnapshotAssets, Read, ValuesStamped, AssetDaysStamped, Day, Claimants;
    var r := Apply(t, log, k).value;
    HistoryFrame(t, log, k);
    var target := Snapshots(t, log, k);
    if target.None? {
      StampedFrame(t, r, logs, log);
    } else {
      var b := Read(t, log, k);
      SnapshotReads(t, log, k);
      ValuesStayStamped(b, target.value, log, logs);
      AssetDaysStayStamped(b, target.value, log, logs);
    }
  }

  lemma StampedBefore(t: Ledger, logs: seq<Log>, n: nat)
    requires n < |logs| && InOrder(logs) && AllStamped(t, logs[..n])
    ensures Before(t, logs[n])
  {
    hide Day;
    assert forall i :: 0 <= i < n ==> logs[..n][i] == logs[i];
    forall chain: nat, block: nat, day: nat | Stamped(logs[..n], chain, block, day) && chain == logs[n].chain
      ensures block <= logs[n].block && day <= Day(logs[n].timestamp)
    {
    }
  }

  // --- the aggregate and its parts ---

  function Worth(days: map<Addr, AssetDay>, a: Addr): int {
    if a in days then days[a].value else 0
  }

  function Owed(days: map<Addr, AssetDay>, a: Addr): int {
    if a in days then days[a].iouValue else 0
  }

  /** A reserve's row of a day is the sum of that day's asset rows. */
  ghost predicate SumsParts(row: ValueRow, days: map<Addr, AssetDay>) {
    && row.totalAssets == Sum(days.Keys, a => Worth(days, a))
    && row.iouDebt == Sum(days.Keys, a => Owed(days, a))
  }

  ghost predicate PartsAgree(t: Ledger) {
    forall id, d :: id in t.valueHistory && d in t.valueHistory[id] && !IsBase(t, id) ==>
      SumsParts(t.valueHistory[id][d], Rows(t.assetHistory, DayKey(id, d)))
  }

  /** A day has rows for registered assets only. */
  ghost predicate DaysRegistered(t: Ledger) {
    forall key, a :: key in t.assetHistory && a in t.assetHistory[key] ==> a in Rows(t.assets, key.id)
  }

  /** Under the block order no row of the day is kept back by the guard. */
  lemma AllRewritten(b: Ledger, id: Id, log: Log)
    requires DaysRegistered(b) && Before(b, log) && id.chain == log.chain
    ensures var days := AssetDays(b, id, log);
            && days.Keys == Rows(b.assets, id).Keys
            && forall a :: a in days ==> days[a] == AssetDayOf(b, id, a, log)
  {
    hide LegGross, LegDebt, Day;
    var key := DayKey(id, Day(log.timestamp));
    assert forall a :: a in Rows(b.assetHistory, key) ==>
           a in Rows(b.assets, id) && Rows(b.assetHistory, key)[a].block <= log.block;
  }

  lemma SnapshotSumsParts(b: Ledger, id: Id, log: Log)
    requires DaysRegistered(b) && Before(b, log) && id.chain == log.chain
    requires id in b.reserves && !IsBase(b, id)
    ensures SumsParts(ValueRowOf(b, id, log), AssetDays(b, id, log))
  {
    hide LegGross, LegDebt, AssetDays, Before, DaysRegistered;
    AllRewritten(b, id, log);
    var days := AssetDays(b, id, log);
    SumCongruent(days.Keys, a => Worth(days, a), a => LegGross(b, id, a));
    SumCongruent(days.Keys, a => Owed(days, a), a => LegDebt(b, id, a));
  }

  lemma SnapshotPartsAgree(b: Ledger, id: Id, log: Log)
    requires PartsAgree(b) && DaysRegistered(b) && OfReserves(b)
    requires Before(b, log) && id.chain == log.chain
    ensures PartsAgree(Taken(b, id, log))
  {
    hide ValueRowOf, AssetDays, SumsParts, Day, DaysRegistered;
    var r := Taken(b, id, log);
    var today := Day(log.timestamp);
    forall x, d | x in r.valueHistory && d in r.valueHistory[x] && !IsBase(r, x)
      ensures SumsParts(r.valueHistory[x][d], Rows(r.assetHistory, DayKey(x, d)))
    {
      if x == id && d == today {
        SnapshotSumsParts(b, id, log);
      } else {
        assert x in b.valueHistory && d in b.valueHistory[x];
      }
    }
  }

  lemma SnapshotDays(b: Ledger, id: Id, log: Log)
    requires DaysRegistered(b)
    ensures DaysRegistered(Taken(b, id, log))
  {
    hide AssetDayOf, SnapshotValue, Day;
  }

  /** What the histories, reserve kinds and registered assets say together. */
  lemma PartsFrame(t: Ledger, u: Ledger)
    requires PartsAgree(t) && DaysRegistered(t) && OfReserves(t)
    requires u.valueHistory == t.valueHistory && u.assetHistory == t.assetHistory
    requires forall id :: id in t.reserves ==> id in u.reserves && u.reserves[id].kind == t.reserves[id].kind
    requires forall id, a :: a in Rows(t.assets, id) ==> a in Rows(u.assets, id)
    ensures PartsAgree(u) && DaysRegistered(u)
  {
    hide SumsParts;
  }

  /** No event drops an asset row. */
  lemma AssetsStay(t: Ledger, log: Log, k: Kind)
    requires Apply(t, log, k).Some?
    ensures forall id, a :: a in Rows(t.assets, id) ==> a in Rows(Apply(t, log, k).value.assets, id)
  {
    hide Apply;
    RegistryFrame(t, log, k);
  }

  lemma PartsStayInStep(t: Ledger, log: Log, k: Kind)
    requires PartsAgree(t) && DaysRegistered(t) && OfReserves(t)
    requires Before(t, log) && Apply(t, log, k).Some?
    ensures PartsAgree(Apply(t, log, k).value) && DaysRegistered(Apply(t, log, k).value)
  {
    hide Apply, SnapshotValue, SnapshotAssets, Snapshots, Read, Before, OfReserves, PartsAgree, DaysRegistered;
    var r := Apply(t, log, k).value;
    HistoryFrame(t, log, k);
    ReservesFrame(t, log, k);
    AssetsStay(t, log, k);
    var target := Snapshots(t, log, k);
    if target.None? {
      PartsFrame(t, r);
    } else {
      var b := Read(t, log, k);
      SnapshotReads(t, log, k);
      ReadBefore(t, b, r, log);
      PartsFrame(t, b);
      SnapshotsOwnChain(t, log, k);
      SnapshotPartsAgree(b, target.value, log);
      SnapshotDays(b, target.value, log);
      var taken := Taken(b, target.value, log);
      TakenOfReserves(b, target.value, log);
      PartsFrame(taken, r);
    }
  }

  lemma {:induction false} PartsAlwaysAgree(truth: Truth, logs: seq<Log>)
    requires InOrder(logs) && Replay(truth, EMPTY_LEDGER, logs).Some?
    ensures var t := Replay(truth, EMPTY_LEDGER, logs).value;
            PartsAgree(t) && DaysRegistered(t) && OfReserves(t) && AllStamped(t, logs)
  {
    hide Apply, PartsAgree, DaysRegistered, OfReserves, AllStamped, Before, Day;
    if logs == [] {
      EmptyHistories();
    } else {
      var n := |logs| - 1;
      var t, k := Replay(truth, EMPTY_LEDGER, logs[..n]).value, truth(logs[n].address);
      PartsAlwaysAgree(truth, logs[..n]);
      StampedBefore(t, logs, n);
      StayOfReserves(t, logs[n], k);
      StaysStamped(t, logs[n], k, logs[..n]);
      PartsStayInStep(t, logs[n], k);
      assert logs[..n] + [logs[n]] == logs;
    }
  }

  lemma EmptyHistories()
    ensures PartsAgree(EMPTY_LEDGER) && DaysRegistered(EMPTY_LEDGER) && OfReserves(EMPTY_LEDGER)
            && AllStamped(EMPTY_LEDGER, [])
  {
  }

  /** Aggregate equals parts: whatever is delivered twice, fails or is interrupted, each stored
      (reserve, day) row of a meta reserve is the sum of that day's asset rows if commits are in block order. */
  lemma RunKeepsPartsInStep(truth: Truth, cfg: Config, steps: seq<Step>)
    requires AgreesConfig(truth, cfg) && AllAgree(truth, steps)
    ensures InOrder(Effective(Initial(cfg), cfg, steps)) ==> PartsAgree(Run(Initial(cfg), cfg, steps).ledger)
  {
    hide Agrees, AgreesConfig, Run, Effective, Replay, Initial, DistinctIds, Ids, PartsAgree, DaysRegistered,
         OfReserves, AllStamped, InOrder;
    ExactlyOnce(truth, cfg, steps);
    if InOrder(Effective(Initial(cfg), cfg, steps)) {
      PartsAlwaysAgree(truth, Effective(Initial(cfg), cfg, steps));
    }
  }

  lemma ScalePositive(decimals: Option<Decimals>)
    ensures Scale(decimals) >= 1
  {
  }
}
