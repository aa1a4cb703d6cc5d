/**
 What the two daily histories store, read off the snapshots that were taken, with no assumption on their order:
 one row per reserve (and asset) and UTC day, written by the last of the day's highest-block snapshots
 (handlers.go: snapshotReserveValue, snapshotReserveAssets).
 */
module EndOfDay {
  import opened Addresses
  import opened Coherence
  import opened DayEnds
  import opened Delivery
  import opened Effects
  import opened Frames
  import opened History
  import opened Kinds
  import opened Options
  import opened Tables
  import opened Valuation
  import opened ViewInputs

  // --- UTC days ---

  const SECONDS_PER_DAY := 24 * 60 * 60

  /** The timestamp lies on the UTC day, counted from 1970-01-01. */
  predicate OnDay(timestamp: nat, d: nat) {
    SECONDS_PER_DAY * d <= timestamp < SECONDS_PER_DAY * (d + 1)
  }

  lemma DayIs(timestamp: nat, d: nat)
    ensures Day(timestamp) == d <==> OnDay(timestamp, d)
  {
    assert timestamp == SECONDS_PER_DAY * (timestamp / SECONDS_PER_DAY) + timestamp % SECONDS_PER_DAY;
    if OnDay(timestamp, d) {
      DayUnique(timestamp, d, timestamp / SECONDS_PER_DAY);
    }
  }

  /** A timestamp lies on one day only. */
  lemma DayUnique(timestamp: nat, d: nat, e: nat)
    requires OnDay(timestamp, d) && OnDay(timestamp, e)
    ensures d == e
  {
  }

  // --- value rows ---

  /** The log takes a snapshot of a reserve that the view shows. */
  predicate Records(t: Ledger, log: Log, k: Kind, id: Id) {
    Snapshots(t, log, k) == Some(id) && id in Read(t, log, k).reserves
  }

  /** A value row tells what the view shows of the reserve in the state, stamped with the log. */
  ghost predicate Tells(row: ValueRow, r: Ledger, id: Id, log: Log) {
    && row.block == log.block && row.timestamp == log.timestamp
    && row.totalAssets == ReserveValue(r, id).gross && row.iouDebt == ReserveValue(r, id).debt
    && row.nav == ReserveValue(r, id).nav && row.totalSupply == LpSupply(r.reserves, id)
  }

  /** The log writes the reserve's row of the day: it is on that day and not of a lower block than the row. */
  predicate WritesRow(t: Ledger, log: Log, k: Kind, id: Id, d: nat) {
    var rows := Rows(t.valueHistory, id);
    Records(t, log, k, id) && OnDay(log.timestamp, d) && (d in rows ==> rows[d].block <= log.block)
  }

  lemma TakenRow(b: Ledger, id: Id, log: Log, d: nat)
    requires id in b.reserves
    ensures var rows, after := Rows(b.valueHistory, id), Rows(SnapshotValue(b, id, log), id);
            if Day(log.timestamp) == d && (d in rows ==> rows[d].block <= log.block)
            then d in after && after[d] == ValueRowOf(b, id, log)
            else (d in after <==> d in rows) && (d in rows ==> after[d] == rows[d])
  {
    hide ReserveValue, Day;
  }

  lemma NoRowTaken(b: Ledger, id: Id, log: Log)
    requires id !in b.reserves
    ensures SnapshotValue(b, id, log) == b.valueHistory
  {
    hide ReserveValue, Day;
  }

  /** One stored row after one log. */
  lemma RowStep(t: Ledger, log: Log, k: Kind, id: Id, d: nat)
    requires Apply(t, log, k).Some?
    ensures var r := Apply(t, log, k).value;
            var rows, after := Rows(t.valueHistory, id), Rows(r.valueHistory, id);
            if WritesRow(t, log, k, id, d) then d in after && Tells(after[d], r, id, log)
            else (d in after <==> d in rows) && (d in rows ==> after[d] == rows[d])
  {
    hide Apply, Read, Snapshots, SnapshotValue, SnapshotAssets, Day, ReserveValue, OnDay;
    var r := Apply(t, log, k).value;
    DayIs(log.timestamp, d);
    if Snapshots(t, log, k) != Some(id) {
      RowsElsewhere(t, log, k, id);
    } else {
      HistoryFrame(t, log, k);
      SnapshotReads(t, log, k);
      var b := Read(t, log, k);
      if id in b.reserves {
        TakenRow(b, id, log, d);
        SnapshotValuation(t, log, k);
        SameValuationInputs(b, r, id);
        SameReserveValue(b, r, id);
      } else {
        NoRowTaken(b, id, log);
      }
    }
  }

  /** The log that wrote the row of the day as it stands after the first i logs. */
  ghost function Writer(truth: Truth, logs: seq<Log>, i: nat, id: Id, d: nat): (w: Option<nat>)
    requires i <= |logs|
    ensures w.Some? ==> w.value < i
  {
    if i == 0 then None
    else
      var earlier := Writer(truth, logs, i - 1, id, d);
      if Takes(truth, logs, i - 1, id, d) && (earlier.Some? ==> logs[earlier.value].block <= logs[i - 1].block)
      then Some(i - 1) else earlier
  }

  /** Log j snapshots the reserve on the day. */
  ghost predicate Takes(truth: Truth, logs: seq<Log>, j: nat, id: Id, d: nat)
    requires j < |logs|
  {
    Records(At(truth, logs, j), logs[j], truth(logs[j].address), id) && OnDay(logs[j].timestamp, d)
  }

  /** The writer is the last of the snapshots of the highest block of the day. */
  lemma {:induction false} WriterIsHighest(truth: Truth, logs: seq<Log>, i: nat, id: Id, d: nat)
    requires i <= |logs|
    ensures var w := Writer(truth, logs, i, id, d);
            && (w.None? ==> forall j :: 0 <= j < i ==> !Takes(truth, logs, j, id, d))
            && (w.Some? ==>
                  && Takes(truth, logs, w.value, id, d)
                  && forall j :: 0 <= j < i && Takes(truth, logs, j, id, d) ==>
                       logs[j].block < logs[w.value].block || (logs[j].block == logs[w.value].block && j <= w.value))
  {
    hide Takes;
    if i > 0 {
      WriterIsHighest(truth, logs, i - 1, id, d);
    }
  }

  /** The stored row is the writer's. */
  ghost predicate RowIsWriters(truth: Truth, logs: seq<Log>, i: nat, id: Id, d: nat)
    requires i <= |logs|
  {
    var rows, w := Rows(At(truth, logs, i).valueHistory, id), Writer(truth, logs, i, id, d);
    && (d in rows <==> w.Some?)
    && (w.Some? ==> Tells(rows[d], At(truth, logs, w.value + 1), id, logs[w.value]))
  }

  /** In every state of every run, in whatever order blocks arrive, a reserve has one row per UTC day on which it was
      snapshotted, and that row is what the view showed right after the day's last highest-block snapshot. */
  lemma {:induction false} RowsAreTheDaysLast(truth: Truth, logs: seq<Log>, i: nat, id: Id, d: nat)
    requires i <= |logs| && Replay(truth, EMPTY_LEDGER, logs).Some?
    ensures RowIsWriters(truth, logs, i, id, d)
  {
    hide Apply, At, Replay, Tells, Records, OnDay;
    if i == 0 {
      StartIsEmpty(truth, logs);
    } else {
      RowsAreTheDaysLast(truth, logs, i - 1, id, d);
      StepAt(truth, logs, i - 1);
      RowStep(At(truth, logs, i - 1), logs[i - 1], truth(logs[i - 1].address), id, d);
      TellsBlock(truth, logs, i - 1, id, d);
    }
  }

  lemma TellsBlock(truth: Truth, logs: seq<Log>, i: nat, id: Id, d: nat)
    requires i <= |logs| && RowIsWriters(truth, logs, i, id, d)
    ensures var rows, w := Rows(At(truth, logs, i).valueHistory, id), Writer(truth, logs, i, id, d);
            w.Some? ==> rows[d].block == logs[w.value].block
  {
    hide At, ReserveValue;
  }

  // --- which logs take a snapshot ---

  /** The ten events that move a reserve's holdings. */
  predicate MovesHoldings(e: Event) {
    || e.Deposit? || e.Withdraw? || e.SingleAssetDeposit? || e.SingleAssetWithdraw? || e.Rebalanced? || e.Swap?
    || e.IouMinted? || e.IouRedeemed? || e.FlashLoan? || e.DonationRecognized?
  }

  /** A mint or a burn. */
  predicate MintsOrBurns(e: Event) {
    e.Transfer? && e.value.Some? && (e.from == ZERO_ADDRESS || e.to == ZERO_ADDRESS)
  }

  /** Some row of the reserve names the IOU. */
  predicate Names(t: Ledger, id: Id, iou: Addr) {
    id in t.assets && exists a :: a in t.assets[id] && t.assets[id][a].iou == iou
  }

  /** A flow of a reserve snapshots that reserve. Its row records it if the reserve is known by then, which a rebalance,
      a swap, a flash loan and a donation see to themselves; the other flows make the reserve known only afterwards. */
  lemma FlowsRecord(t: Ledger, log: Log, k: Kind)
    requires (k.BaseReserveKind? || k.MetaReserveKind?) && MovesHoldings(log.event)
    ensures Snapshots(t, log, k) == Some(Emitter(log))
    ensures Records(t, log, k, Emitter(log)) <==>
            || Emitter(log) in t.reserves
            || log.event.Rebalanced? || log.event.Swap? || log.event.FlashLoan? || log.event.DonationRecognized?
  {
    hide AddFlows, Flows, Claimants;
  }

  lemma ClaimantsNameIt(t: Ledger, iou: Id, addr: Addr)
    ensures addr in Claimants(t.assets, iou) <==> Names(t, Id(iou.chain, addr), iou.addr)
  {
  }

  /** A mint or burn of an IOU snapshots a reserve that names it, if there is one: the one the database answers with. */
  lemma MintsRecord(t: Ledger, log: Log)
    requires MintsOrBurns(log.event) && Id(log.chain, NoAddr) !in t.assets
    ensures match Snapshots(t, log, IouKind)
            case Some(id) =>
              && id.chain == log.chain && Names(t, id, log.address)
              && (Names(t, Id(log.chain, log.claimant), log.address) ==> id.addr == log.claimant)
              && (Records(t, log, IouKind, id) <==> id in t.reserves)
            case None => forall id: Id :: id.chain == log.chain ==> !Names(t, id, log.address)
  {
    hide Read, Claimants, Names;
    var iou := Emitter(log);
    ReadsReserves(t, log);
    forall addr ensures addr in Claimants(t.assets, iou) <==> Names(t, Id(log.chain, addr), log.address) {
      ClaimantsNameIt(t, iou, addr);
    }
    assert !Names(t, Id(log.chain, NoAddr), log.address) by { NoRowsNoNames(t, log); }
    if Snapshots(t, log, IouKind).None? {
      forall id: Id | id.chain == log.chain ensures !Names(t, id, log.address) {
        assert id == Id(log.chain, id.addr);
        assert id.addr !in Claimants(t.assets, iou);
      }
    }
  }

  lemma ReadsReserves(t: Ledger, log: Log)
    requires MintsOrBurns(log.event)
    ensures Read(t, log, IouKind).reserves == t.reserves
  {
    hide MirrorSupply, MoveBalances;
  }

  lemma NoRowsNoNames(t: Ledger, log: Log)
    requires Id(log.chain, NoAddr) !in t.assets
    ensures !Names(t, Id(log.chain, NoAddr), log.address)
  {
  }

  /** No other log takes a snapshot. */
  lemma OthersRecordNothing(t: Ledger, log: Log, k: Kind)
    requires !((k.BaseReserveKind? || k.MetaReserveKind?) && MovesHoldings(log.event))
    requires !(k.IouKind? && MintsOrBurns(log.event))
    ensures Snapshots(t, log, k).None?
  {
    hide Claimants;
  }
}
