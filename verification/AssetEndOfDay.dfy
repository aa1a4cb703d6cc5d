/**
 The per-asset history: one row per reserve, asset and UTC day, whose columns are those of the asset right
 after the last of the day's highest-block snapshots that saw it (handlers.go: snapshotReserveAssets).
 */
module AssetEndOfDay {
  import opened Addresses
  import opened DayEnds
  import opened Delivery
  import opened Effects
  import opened EndOfDay
  import opened Frames
  import opened History
  import opened Kinds
  import opened Options
  import opened Sums
  import opened Tables
  import opened Valuation
  import opened ViewInputs
  import FlowAccounting

  /** An asset's row tells its decimals, balance and IOU supply in the state, and what they are worth as a leg. (A
      reserve that lists itself as an asset is valued before it is known, so its worth is left open.) */
  ghost predicate TellsAsset(row: AssetDay, r: Ledger, id: Id, a: Addr, log: Log) {
    && a in Rows(r.assets, id)
    && row.block == log.block && row.timestamp == log.timestamp && row.decimals == Rows(r.assets, id)[a].decimals
    && row.balance == Get(Rows(r.tokenBalances, id), a) && row.iouSupply == Rows(r.assets, id)[a].iouSupply
    && (a != id.addr ==> row.value == LegGross(r, id, a) && row.iouValue == LegDebt(r, id, a))
  }

  /** The asset's row of a day. */
  function DayRows(t: Ledger, id: Id, d: nat): map<Addr, AssetDay> {
    Rows(t.assetHistory, DayKey(id, d))
  }

  /** The log writes the asset's row of the day. */
  predicate WritesAsset(t: Ledger, log: Log, k: Kind, id: Id, d: nat, a: Addr) {
    && Snapshots(t, log, k) == Some(id) && a in Rows(t.assets, id) && OnDay(log.timestamp, d)
    && (a in DayRows(t, id, d) ==> DayRows(t, id, d)[a].block <= log.block)
  }

  /** A log that takes a snapshot registers nothing. */
  lemma SnapshotKeepsAssets(t: Ledger, log: Log, k: Kind, id: Id)
    requires Snapshots(t, log, k) == Some(id) && Apply(t, log, k).Some?
    ensures Rows(t.assets, id).Keys == Rows(Apply(t, log, k).value.assets, id).Keys
  {
    hide Apply, Claimants, MirrorRows;
    RegistryFrame(t, log, k);
    if !IsFlow(log, k) {
      MirrorKeys(Rows(t.assets, id), log.address, SupplyChange(log.event.from, log.event.to, log.event.value.value));
    }
  }

  lemma MirrorKeys(rows: map<Addr, Asset>, iou: Addr, delta: int)
    ensures MirrorRows(rows, iou, delta).Keys == rows.Keys
  {
  }

  /** What a snapshot reads of another contract than the reserve it is taken of is what holds after the log. */
  lemma OthersStand(t: Ledger, log: Log, k: Kind, id: Id, leg: Id)
    requires Snapshots(t, log, k) == Some(id) && Apply(t, log, k).Some? && leg != id
    ensures var b, r := Read(t, log, k), Apply(t, log, k).value;
            SameStanding(b, r, leg) && Price(b, leg) == Price(r, leg)
  {
    hide Apply, Read, Claimants;
    var b, r := Read(t, log, k), Apply(t, log, k).value;
    SnapshotReads(t, log, k);
    ReadPrices(t, log, k);
    FlowAccounting.OpensFrame(t, log, k);
    forall asset ensures Price(b, asset) == Price(r, asset) { }
  }

  lemma ReadPrices(t: Ledger, log: Log, k: Kind)
    requires Snapshots(t, log, k).Some? && Apply(t, log, k).Some?
    ensures Read(t, log, k).redemptionPrices == Apply(t, log, k).value.redemptionPrices
  {
    hide FlowEvent, IouTransfer, Claimants, Read;
    if IsFlow(log, k) { FlowValuation(t, log, k); } else { IouValuation(t, log); }
  }

  /** The row a snapshot makes of an asset, seen from the ledger after the log. */
  lemma TakenTells(t: Ledger, log: Log, k: Kind, id: Id, a: Addr)
    requires Snapshots(t, log, k) == Some(id) && Apply(t, log, k).Some? && a in Rows(Read(t, log, k).assets, id)
    ensures TellsAsset(AssetDayOf(Read(t, log, k), id, a, log), Apply(t, log, k).value, id, a, log)
  {
    hide Apply, Read, Snapshots, LegValue;
    var b, r := Read(t, log, k), Apply(t, log, k).value;
    SnapshotReads(t, log, k);
    if a != id.addr {
      var leg, row := Id(id.chain, a), Rows(b.assets, id)[a];
      OthersStand(t, log, k, id, leg);
      SameLeg(b, r, leg, row.decimals, Get(Rows(b.tokenBalances, id), a));
      SameLeg(b, r, leg, row.decimals, row.iouSupply);
    }
  }

  lemma TakenDays(b: Ledger, id: Id, log: Log, d: nat, a: Addr)
    ensures var rows, after := Rows(b.assetHistory, DayKey(id, d)), Rows(SnapshotAssets(b, id, log), DayKey(id, d));
            if Day(log.timestamp) == d && a in Rows(b.assets, id) && (a in rows ==> rows[a].block <= log.block)
            then a in after && after[a] == AssetDayOf(b, id, a, log)
            else (a in after <==> a in rows) && (a in rows ==> after[a] == rows[a])
  {
    hide AssetDayOf, Day;
  }

  lemma OtherDays(b: Ledger, id: Id, log: Log, other: Id, d: nat)
    requires other != id
    ensures Rows(SnapshotAssets(b, id, log), DayKey(other, d)) == Rows(b.assetHistory, DayKey(other, d))
  {
    hide AssetDays, Day;
  }

  /** One stored asset row after one log. */
  ghost predicate Stepped(t: Ledger, log: Log, k: Kind, id: Id, d: nat, a: Addr, r: Ledger) {
    var rows, after := DayRows(t, id, d), DayRows(r, id, d);
    if WritesAsset(t, log, k, id, d, a) then a in after && TellsAsset(after[a], r, id, a, log)
    else (a in after <==> a in rows) && (a in rows ==> after[a] == rows[a])
  }

  lemma SnapshotSteps(t: Ledger, log: Log, k: Kind, id: Id, d: nat, a: Addr)
    requires Apply(t, log, k).Some? && Snapshots(t, log, k) == Some(id)
    ensures Stepped(t, log, k, id, d, a, Apply(t, log, k).value)
  {
    hide Apply, Read, Snapshots, SnapshotValue, SnapshotAssets, Day, OnDay, TellsAsset, AssetDayOf;
    DayIs(log.timestamp, d);
    HistoryFrame(t, log, k);
    SnapshotReads(t, log, k);
    SnapshotKeepsAssets(t, log, k, id);
    var b := Read(t, log, k);
    TakenDays(b, id, log, d, a);
    if a in Rows(b.assets, id) { TakenTells(t, log, k, id, a); }
  }

  lemma PassedSteps(t: Ledger, log: Log, k: Kind, id: Id, d: nat, a: Addr)
    requires Apply(t, log, k).Some? && Snapshots(t, log, k) != Some(id)
    ensures DayRows(Apply(t, log, k).value, id, d) == DayRows(t, id, d)
  {
    hide Apply, Read, Snapshots, SnapshotValue, SnapshotAssets, Rows;
    HistoryFrame(t, log, k);
    var target := Snapshots(t, log, k);
    if target.Some? {
      SnapshotReads(t, log, k);
      OtherDays(Read(t, log, k), target.value, log, id, d);
    }
  }

  lemma AssetRowStep(t: Ledger, log: Log, k: Kind, id: Id, d: nat, a: Addr)
    requires Apply(t, log, k).Some?
    ensures Stepped(t, log, k, id, d, a, Apply(t, log, k).value)
  {
    hide Apply, Snapshots, OnDay, TellsAsset, DayRows;
    if Snapshots(t, log, k) == Some(id) {
      SnapshotSteps(t, log, k, id, d, a);
    } else {
      PassedSteps(t, log, k, id, d, a);
    }
  }

  /** Log j snapshots the reserve on the day while the asset is registered. */
  ghost predicate TakesAsset(truth: Truth, logs: seq<Log>, j: nat, id: Id, d: nat, a: Addr)
    requires j < |logs|
  {
    && Snapshots(At(truth, logs, j), logs[j], truth(logs[j].address)) == Some(id)
    && a in Rows(At(truth, logs, j).assets, id) && OnDay(logs[j].timestamp, d)
  }

  /** The log that wrote the asset's row of the day as it stands after the first i logs. */
  ghost function AssetWriter(truth: Truth, logs: seq<Log>, i: nat, id: Id, d: nat, a: Addr): (w: Option<nat>)
    requires i <= |logs|
    ensures w.Some? ==> w.value < i
  {
    if i == 0 then None
    else
      var earlier := AssetWriter(truth, logs, i - 1, id, d, a);
      if TakesAsset(truth, logs, i - 1, id, d, a) && (earlier.Some? ==> logs[earlier.value].block <= logs[i - 1].block)
      then Some(i - 1) else earlier
  }

  lemma {:induction false} AssetWriterIsHighest(truth: Truth, logs: seq<Log>, i: nat, id: Id, d: nat, a: Addr)
    requires i <= |logs|
    ensures var w := AssetWriter(truth, logs, i, id, d, a);
            && (w.None? ==> forall j :: 0 <= j < i ==> !TakesAsset(truth, logs, j, id, d, a))
            && (w.Some? ==>
                  && TakesAsset(truth, logs, w.value, id, d, a)
                  && forall j :: 0 <= j < i && TakesAsset(truth, logs, j, id, d, a) ==>
                       logs[j].block < logs[w.value].block || (logs[j].block == logs[w.value].block && j <= w.value))
  {
    hide TakesAsset;
    if i > 0 {
      AssetWriterIsHighest(truth, logs, i - 1, id, d, a);
    }
  }

  ghost predicate AssetRowIsWriters(truth: Truth, logs: seq<Log>, i: nat, id: Id, d: nat, a: Addr)
    requires i <= |logs|
  {
    var rows, w := DayRows(At(truth, logs, i), id, d), AssetWriter(truth, logs, i, id, d, a);
    && (a in rows <==> w.Some?)
    && (w.Some? ==> TellsAsset(rows[a], At(truth, logs, w.value + 1), id, a, logs[w.value]))
  }

  /** In every state of every run, in whatever order blocks arrive, an asset has one row per UTC day on which its
      reserve was snapshotted with it, and that row tells the asset as of the day's last highest-block snapshot. */
  lemma {:induction false} AssetRowsAreTheDaysLast(truth: Truth, logs: seq<Log>, i: nat, id: Id, d: nat, a: Addr)
    requires i <= |logs| && Replay(truth, EMPTY_LEDGER, logs).Some?
    ensures AssetRowIsWriters(truth, logs, i, id, d, a)
  {
    hide Apply, At, Replay, TellsAsset, Snapshots, OnDay, DayRows;
    if i == 0 {
      NoDaysAtStart(truth, logs, id, d);
    } else {
      AssetRowsAreTheDaysLast(truth, logs, i - 1, id, d, a);
      StepAt(truth, logs, i - 1);
      AssetRowStep(At(truth, logs, i - 1), logs[i - 1], truth(logs[i - 1].address), id, d, a);
      AssetBlock(truth, logs, i - 1, id, d, a);
    }
  }

  lemma NoDaysAtStart(truth: Truth, logs: seq<Log>, id: Id, d: nat)
    ensures DayRows(At(truth, logs, 0), id, d) == map[]
  {
    hide At;
    StartIsEmpty(truth, logs);
  }

  lemma AssetBlock(truth: Truth, logs: seq<Log>, i: nat, id: Id, d: nat, a: Addr)
    requires i <= |logs| && AssetRowIsWriters(truth, logs, i, id, d, a)
    ensures var rows, w := DayRows(At(truth, logs, i), id, d), AssetWriter(truth, logs, i, id, d, a);
            w.Some? ==> rows[a].block == logs[w.value].block
  {
    hide At, LegGross, LegDebt;
  }
}
