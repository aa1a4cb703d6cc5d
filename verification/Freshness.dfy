/**
 How long a stored valuation stays current: a base-side or oracle move reaches a meta reserve's stored row
 only at the meta reserve's next event (schema.go: clear_reserve_values; handlers.go: snapshotReserveValue).
 The same statements hold of base reserves.
 */
module Freshness {
  import opened Addresses
  import opened Coherence
  import opened DayEnds
  import opened Delivery
  import opened Effects
  import opened Frames
  import opened History
  import opened Kinds
  import opened Options
  import opened Tables
  import opened Valuation
  import opened ViewInputs
  import Counters
  import FlowAccounting

  /** The reserve's newest row, if it has one, is what the view shows of it. */
  ghost predicate Current(t: Ledger, id: Id) {
    forall d :: Newest(Rows(t.valueHistory, id), d) ==> Matches(Rows(t.valueHistory, id)[d], ReserveValue(t, id))
  }

  // --- what disturbs a reserve ---

  /** The log sets the price of an asset. */
  predicate SetsPrice(log: Log, k: Kind, asset: Id) {
    && k.OracleKind? && log.chain == asset.chain && asset.addr != NoAddr
    && ((log.event.OracleConfigured? && log.event.asset == asset.addr)
        || (log.event.RedemptionPriceChanged? && log.event.asset == asset.addr))
  }

  /** The log books a flow or registers an asset of the reserve, mints or burns an IOU its rows name, or sets
      the price of one of its assets. */
  predicate MovesHoldings(t: Ledger, log: Log, k: Kind, id: Id) {
    || (IsFlow(log, k) && Emitter(log) == id)
    || (IsReserveKind(k) && log.event.AssetAdded? && Emitter(log) == id)
    || (k.IouKind? && IsSupplyTransfer(log.event) && id.chain == log.chain
        && ClaimedIn(Rows(t.assets, id), log.address))
    || (exists a :: a in Rows(t.assets, id) && SetsPrice(log, k, Id(id.chain, a)))
  }

  /** For a leg that is a base reserve the log moves its holdings or LP supply, or it opens the leg as a reserve. */
  predicate MovesStanding(t: Ledger, log: Log, k: Kind, leg: Id) {
    || (IsBase(t, leg) && (MovesHoldings(t, log, k, leg) || (LpChange(log, k) != 0 && Emitter(log) == leg)))
    || (leg !in t.reserves && FlowAccounting.Opened(log, k) == Some(leg))
  }

  /** The log touches something the view of the reserve reads. */
  predicate Disturbs(t: Ledger, log: Log, k: Kind, id: Id) {
    MovesHoldings(t, log, k, id) || exists a :: a in Rows(t.assets, id) && MovesStanding(t, log, k, Id(id.chain, a))
  }

  lemma RowsUnmoved(t: Ledger, log: Log, k: Kind, id: Id)
    requires Apply(t, log, k).Some? && !MovesHoldings(t, log, k, id)
    ensures var r := Apply(t, log, k).value;
            Rows(r.assets, id) == Rows(t.assets, id) && Rows(r.tokenBalances, id) == Rows(t.tokenBalances, id)
  {
    hide Apply, AddFlows, Flows, PutAsset, SetsPrice, MirrorRows, ClaimedIn;
    RegistryFrame(t, log, k);
    if IsFlow(log, k) {
      FlowsElsewhere(t.tokenBalances, Emitter(log), Flows(t, Emitter(log), TypeOf(k), log.event), id);
    } else if k.IouKind? && IsSupplyTransfer(log.event) {
      UnclaimedRows(Rows(t.assets, id), log.address, SupplyChange(log.event.from, log.event.to, log.event.value.value));
    }
  }

  lemma UnclaimedRows(rows: map<Addr, Asset>, iou: Addr, delta: int)
    ensures !ClaimedIn(rows, iou) ==> MirrorRows(rows, iou, delta) == rows
  {
  }

  lemma PriceUnmoved(t: Ledger, log: Log, k: Kind, asset: Id)
    requires Apply(t, log, k).Some? && !SetsPrice(log, k, asset)
    ensures Price(Apply(t, log, k).value, asset) == Price(t, asset)
  {
    hide Apply;
    Counters.PriceStep(t, log, a => k, asset);
  }

  lemma HoldingsUnmoved(t: Ledger, log: Log, k: Kind, id: Id)
    requires Apply(t, log, k).Some? && !MovesHoldings(t, log, k, id)
    ensures SameHoldings(t, Apply(t, log, k).value, id)
  {
    hide Apply, Price, SetsPrice;
    RowsUnmoved(t, log, k, id);
    forall a | a in Rows(t.assets, id)
      ensures Price(t, Id(id.chain, a)) == Price(Apply(t, log, k).value, Id(id.chain, a))
    {
      PriceUnmoved(t, log, k, Id(id.chain, a));
    }
  }

  /** Kinds never change, so a contract becomes a base reserve only by being opened. */
  lemma BaseUnmoved(t: Ledger, log: Log, k: Kind, leg: Id)
    requires Apply(t, log, k).Some?
    ensures leg in t.reserves || FlowAccounting.Opened(log, k) != Some(leg) ==>
              (IsBase(t, leg) <==> IsBase(Apply(t, log, k).value, leg))
    ensures leg in t.reserves ==> leg in Apply(t, log, k).value.reserves
  {
    hide Apply;
    ReservesFrame(t, log, k);
    FlowAccounting.OpensFrame(t, log, k);
  }

  lemma StandingUnmoved(t: Ledger, log: Log, k: Kind, leg: Id)
    requires Apply(t, log, k).Some? && !MovesStanding(t, log, k, leg)
    ensures SameStanding(t, Apply(t, log, k).value, leg)
  {
    hide Apply, MovesHoldings, SameHoldings;
    BaseUnmoved(t, log, k, leg);
    if IsBase(t, leg) {
      HoldingsUnmoved(t, log, k, leg);
      ReservesFrame(t, log, k);
      assert LpSupply(Apply(t, log, k).value.reserves, leg) == LpSupply(t.reserves, leg);
    }
  }

  lemma InputsUnmoved(t: Ledger, log: Log, k: Kind, id: Id)
    requires Apply(t, log, k).Some? && id in t.reserves && !Disturbs(t, log, k, id)
    ensures SameInputs(t, Apply(t, log, k).value, id)
  {
    hide Apply, MovesHoldings, MovesStanding, SameHoldings, SameStanding, IsBase;
    HoldingsUnmoved(t, log, k, id);
    BaseUnmoved(t, log, k, id);
    forall a | a in Rows(t.assets, id)
      ensures SameStanding(t, Apply(t, log, k).value, Id(id.chain, a))
    {
      StandingUnmoved(t, log, k, Id(id.chain, a));
    }
  }

  // --- one log ---

  /** The log moves what the view shows of the reserve. */
  ghost predicate MovesView(t: Ledger, log: Log, k: Kind, id: Id) {
    Apply(t, log, k).Some? && ReserveValue(Apply(t, log, k).value, id) != ReserveValue(t, id)
  }

  /** A log that touches nothing the view of a known reserve reads does not move it. */
  lemma UndisturbedView(t: Ledger, log: Log, k: Kind, id: Id)
    requires id in t.reserves && !Disturbs(t, log, k, id)
    ensures !MovesView(t, log, k, id)
  {
    hide Apply, Disturbs, SameInputs, ReserveValue;
    if Apply(t, log, k).Some? {
      InputsUnmoved(t, log, k, id);
      SameReserveValue(t, Apply(t, log, k).value, id);
    }
  }

  /** The log snapshots the reserve, finds it without rows, or does not move its view. */
  ghost predicate KeepsCurrent(t: Ledger, log: Log, k: Kind, id: Id) {
    Snapshots(t, log, k) == Some(id) || !HasRows(t, id) || !MovesView(t, log, k, id)
  }

  lemma SnapshotIsCurrent(t: Ledger, log: Log, k: Kind)
    requires Snapshots(t, log, k).Some? && Apply(t, log, k).Some? && Before(t, log) && OfReserves(t)
    ensures Current(Apply(t, log, k).value, Snapshots(t, log, k).value)
  {
    hide Apply, Snapshots, Before, OfReserves, ReserveValue, Day;
    var id, r := Snapshots(t, log, k).value, Apply(t, log, k).value;
    forall d | Newest(Rows(r.valueHistory, id), d)
      ensures Matches(Rows(r.valueHistory, id)[d], ReserveValue(r, id))
    {
      SnapshotShowsView(t, log, k, d);
    }
  }

  lemma PassedRow(t: Ledger, r: Ledger, id: Id)
    requires Current(t, id) && Rows(r.valueHistory, id) == Rows(t.valueHistory, id)
    ensures Current(r, id) <==> !HasRows(t, id) || ReserveValue(r, id) == ReserveValue(t, id)
  {
    hide ReserveValue;
    if HasRows(t, id) {
      NewestExists(Rows(t.valueHistory, id));
      var d :| Newest(Rows(t.valueHistory, id), d);
      assert Matches(Rows(t.valueHistory, id)[d], ReserveValue(t, id));
      assert Current(r, id) ==> Matches(Rows(r.valueHistory, id)[d], ReserveValue(r, id));
    }
  }

  /** From a current row a log keeps the reserve current if and only if it snapshots it, finds it without
      rows, or does not move its view. */
  lemma CurrentKeptIff(t: Ledger, log: Log, k: Kind, id: Id)
    requires Current(t, id) && OfReserves(t) && Before(t, log) && Apply(t, log, k).Some?
    ensures Current(Apply(t, log, k).value, id) <==> KeepsCurrent(t, log, k, id)
  {
    hide Apply, Snapshots, Before, OfReserves, ReserveValue, Current, HasRows;
    if Snapshots(t, log, k) == Some(id) {
      SnapshotIsCurrent(t, log, k);
    } else {
      RowsElsewhere(t, log, k, id);
      PassedRow(t, Apply(t, log, k).value, id);
    }
  }

  // --- whole runs ---

  lemma EmptyCurrent(id: Id)
    ensures Current(EMPTY_LEDGER, id)
  {
    hide ReserveValue;
  }

  /** Along ordered logs a reserve's newest row is what the view shows in every state if and only if every log
      snapshots it, finds it without rows, or does not move its view. */
  lemma AlwaysCurrentIff(truth: Truth, logs: seq<Log>, id: Id)
    requires InOrder(logs) && Replay(truth, EMPTY_LEDGER, logs).Some?
    ensures InEveryState(truth, logs, t => Current(t, id)) <==>
            AtEveryLog(truth, logs, (t, log, k) => KeepsCurrent(t, log, k, id))
  {
    hide Apply, Current, KeepsCurrent, At, Replay, InOrder, Before, OfReserves, AllStamped, Day;
    var holds := (t: Ledger) => Current(t, id);
    var meets := (t: Ledger, log: Log, k: Kind) => KeepsCurrent(t, log, k, id);
    EmptyCurrent(id);
    forall i | 0 <= i < |logs| && holds(At(truth, logs, i))
      ensures holds(At(truth, logs, i + 1)) <==> meets(At(truth, logs, i), logs[i], truth(logs[i].address))
    {
      StepAt(truth, logs, i);
      OrderedAt(truth, logs, i);
      CurrentKeptIff(At(truth, logs, i), logs[i], truth(logs[i].address), id);
    }
    HoldsThroughoutIff(truth, logs, holds, meets);
  }

  /** The log snapshots the reserve or touches nothing its view reads. */
  predicate Spares(t: Ledger, log: Log, k: Kind, id: Id) {
    Snapshots(t, log, k) == Some(id) || !HasRows(t, id) || !Disturbs(t, log, k, id)
  }

  /** So a reserve stays current as long as every log that touches its holdings, the prices of its assets or
      its base legs snapshots it as well. */
  lemma SparedStaysCurrent(truth: Truth, logs: seq<Log>, id: Id)
    requires InOrder(logs) && Replay(truth, EMPTY_LEDGER, logs).Some?
    ensures AtEveryLog(truth, logs, (t, log, k) => Spares(t, log, k, id)) ==>
              InEveryState(truth, logs, t => Current(t, id))
  {
    hide Apply, Current, MovesView, Disturbs, Snapshots, At, Replay, InOrder, Before, AllStamped, Day;
    if AtEveryLog(truth, logs, (t, log, k) => Spares(t, log, k, id)) {
      forall i | 0 <= i < |logs|
        ensures KeepsCurrent(At(truth, logs, i), logs[i], truth(logs[i].address), id)
      {
        var t, k := At(truth, logs, i), truth(logs[i].address);
        assert Spares(t, logs[i], k, id);
        if HasRows(t, id) && !Disturbs(t, logs[i], k, id) {
          OrderedAt(truth, logs, i);
          UndisturbedView(t, logs[i], k, id);
        }
      }
      AlwaysCurrentIff(truth, logs, id);
    }
  }
}
