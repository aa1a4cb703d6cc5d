/**
 Each day of the value history holds the reserve's value at the end of that day, and a snapshot shows the
 view of the reserve it is taken of, base or meta (handlers.go: snapshotReserveValue).
 */
module DayEnds {
  import opened Coherence
  import opened Delivery
  import opened Effects
  import opened Frames
  import opened History
  import opened Kinds
  import opened Options
  import opened Tables
  import opened Valuation
  import SupplyColumn
  import opened ViewInputs

  // --- a snapshot shows the view ---

  /** The ledger a snapshot reads values every reserve as the ledger after the log does, if the reserve is known. */
  lemma SnapshotValuation(t: Ledger, log: Log, k: Kind)
    requires Snapshots(t, log, k).Some? && Apply(t, log, k).Some?
             && Snapshots(t, log, k).value in Read(t, log, k).reserves
    ensures SameValuation(Read(t, log, k), Apply(t, log, k).value)
  {
    hide FlowEvent, IouTransfer, Claimants, Read;
    SnapshotReads(t, log, k);
    if IsFlow(log, k) { FlowValuation(t, log, k); } else { IouValuation(t, log); }
  }

  lemma FlowValuation(t: Ledger, log: Log, k: Kind)
    requires IsFlow(log, k) && FlowEvent(t, log, TypeOf(k)).Some?
    ensures var b, r := Read(t, log, k), FlowEvent(t, log, TypeOf(k)).value;
            b.redemptionPrices == r.redemptionPrices
              && (Emitter(log) in b.reserves ==> b.reserves.Keys == r.reserves.Keys)
  {
    hide SnapshotValue, SnapshotAssets, DividesByZero, Counted, AddFlows, Flows, ReserveRow;
  }

  lemma IouValuation(t: Ledger, log: Log)
    requires IsTransfer(log.event) && ApplyIou(t, log).Some?
    ensures var b, r := Read(t, log, IouKind), ApplyIou(t, log).value;
            b.redemptionPrices == r.redemptionPrices && b.reserves == r.reserves
  {
    hide IouTransfer, IouTransferred, FeePaid;
    IouTransferFrame(t, log, log.event.from, log.event.to, log.event.value.value);
    IouTransferredFrame(t, Emitter(log), log.event.from, log.event.to, log.event.value.value);
  }

  /** Right after a log that snapshots a reserve, base or meta, its newest row is what the view shows of it. */
  lemma SnapshotShowsView(t: Ledger, log: Log, k: Kind, d: nat)
    requires Snapshots(t, log, k).Some? && Apply(t, log, k).Some? && Before(t, log) && OfReserves(t)
    requires Newest(Rows(Apply(t, log, k).value.valueHistory, Snapshots(t, log, k).value), d)
    ensures var id, r := Snapshots(t, log, k).value, Apply(t, log, k).value;
            var row := Rows(r.valueHistory, id)[d];
            && d == Day(log.timestamp) && row.block == log.block && row.timestamp == log.timestamp
            && Matches(row, ReserveValue(r, id)) && row.totalSupply == LpSupply(r.reserves, id)
  {
    hide Apply, Read, SnapshotValue, SnapshotAssets, Before, Snapshots, Day, ReserveValue;
    var id, r, b := Snapshots(t, log, k).value, Apply(t, log, k).value, Read(t, log, k);
    HistoryFrame(t, log, k);
    SnapshotReads(t, log, k);
    ReadBefore(t, b, r, log);
    SnapshotsOwnChain(t, log, k);
    if id in b.reserves {
      SnapshotValuation(t, log, k);
      SameValuationInputs(b, r, id);
      SameReserveValue(b, r, id);
      TakenIsNewest(b, r, id, log, d);
    } else {
      SupplyColumn.NoRowsTaken(b, id, log);
    }
  }

  // --- the end of each day ---

  /** The state after the last of the first i logs of a chain that is not later than a day. */
  function EndOf(logs: seq<Log>, i: nat, chain: nat, d: nat): (n: nat)
    requires i <= |logs|
    ensures n <= i
    ensures n > 0 ==> logs[n - 1].chain == chain && Day(logs[n - 1].timestamp) <= d
    ensures forall j :: n <= j < i ==> !(logs[j].chain == chain && Day(logs[j].timestamp) <= d)
  {
    if i == 0 then 0
    else if logs[i - 1].chain == chain && Day(logs[i - 1].timestamp) <= d then i
    else EndOf(logs, i - 1, chain, d)
  }

  /** A log writes no row of another day or another chain. */
  lemma OtherDaysStay(t: Ledger, log: Log, k: Kind, id: Id, d: nat)
    requires Apply(t, log, k).Some? && (id.chain != log.chain || d != Day(log.timestamp))
    ensures var rows, after := Rows(t.valueHistory, id), Rows(Apply(t, log, k).value.valueHistory, id);
            (d in after <==> d in rows) && (d in rows ==> after[d] == rows[d])
  {
    hide Apply, Read, Snapshots, SnapshotAssets, ReserveValue, Day;
    HistoryFrame(t, log, k);
    SnapshotsOwnChain(t, log, k);
    if Snapshots(t, log, k).Some? {
      SnapshotReads(t, log, k);
    }
  }

  /** Along logs in order no row of the log's chain is of a later day than the log. */
  lemma DaysUpTo(truth: Truth, logs: seq<Log>, i: nat, id: Id, d: nat)
    requires i < |logs| && InOrder(logs) && Replay(truth, EMPTY_LEDGER, logs).Some?
    requires id.chain == logs[i].chain && d in Rows(At(truth, logs, i + 1).valueHistory, id)
    ensures d <= Day(logs[i].timestamp)
  {
    hide Apply, At, Replay, Day, OfReserves, Before, AssetDaysStamped;
    OrderedAt(truth, logs, i);
    var t := At(truth, logs, i + 1);
    assert Stamped(logs[..i + 1], id.chain, t.valueHistory[id][d].block, d);
    var j :| 0 <= j <= i && logs[..i + 1][j].chain == id.chain && Day(logs[..i + 1][j].timestamp) == d;
    assert logs[j].chain == logs[i].chain;
  }

  /** After the first i logs each stored day of a base reserve holds its value after the last log of its chain
      up to that day. */
  ghost predicate DaysHold(truth: Truth, logs: seq<Log>, i: nat)
    requires i <= |logs|
  {
    forall id: Id, d: nat :: IsBase(At(truth, logs, i), id) && d in Rows(At(truth, logs, i).valueHistory, id) ==>
      DayHolds(truth, logs, i, id, d)
  }

  ghost predicate DayHolds(truth: Truth, logs: seq<Log>, i: nat, id: Id, d: nat)
    requires i <= |logs| && d in Rows(At(truth, logs, i).valueHistory, id)
  {
    Matches(Rows(At(truth, logs, i).valueHistory, id)[d], ParValue(At(truth, logs, EndOf(logs, i, id.chain, d)), id))
  }

  lemma StartIsEmpty(truth: Truth, logs: seq<Log>)
    ensures At(truth, logs, 0) == EMPTY_LEDGER
  {
    hide Apply;
    assert logs[..0] == [];
  }

  // --- which logs make a stored day stale ---

  /** The log moves the value of a base reserve with rows and takes no snapshot of it: it registers an asset
      harmfully, or mints or burns an IOU of the reserve while it snapshots another. */
  predicate Stales(t: Ledger, log: Log, k: Kind, id: Id) {
    && IsBase(t, id) && HasRows(t, id)
    && ((IsReserveKind(k) && log.event.AssetAdded? && id == Emitter(log)
         && !Harmless(Rows(t.assets, id), Rows(t.tokenBalances, id), log.event))
        || (k.IouKind? && IsSupplyTransfer(log.event) && log.event.value.value != 0
            && Exposed(t, log, id) && Snapshots(t, log, k) != Some(id)))
  }

  /** Every reserve the log makes stale has its newest row on an earlier day. */
  ghost predicate StalesOldDaysOnly(t: Ledger, log: Log, k: Kind) {
    forall id: Id, d: nat :: Stales(t, log, k, id) && Newest(Rows(t.valueHistory, id), d) ==> d < Day(log.timestamp)
  }

  lemma OtherValuesStay(t: Ledger, log: Log, k: Kind, id: Id)
    requires Apply(t, log, k).Some?
    requires !IsFlow(log, k) && !(IsReserveKind(k) && log.event.AssetAdded?)
    requires !(k.IouKind? && IsSupplyTransfer(log.event))
    ensures ParValue(Apply(t, log, k).value, id) == ParValue(t, id)
  {
    hide Apply, ParOf;
    RegistryFrame(t, log, k);
  }

  /** A log that takes no snapshot of a valued base reserve moves its value exactly when it makes it stale. */
  lemma StalesIffMoved(t: Ledger, log: Log, k: Kind, id: Id)
    requires Apply(t, log, k).Some? && IsBase(t, id) && HasRows(t, id) && Snapshots(t, log, k) != Some(id)
    ensures ParValue(Apply(t, log, k).value, id) != ParValue(t, id) <==> Stales(t, log, k, id)
  {
    hide Apply, ParValue, IsBase, HasRows, ClaimedIn, Harmless, Claimants;
    if IsFlow(log, k) {
      FlowElsewhere(t, log, k, id);
    } else if IsReserveKind(k) && log.event.AssetAdded? {
      RegistrationMoves(t, log, k, id);
    } else if k.IouKind? && IsSupplyTransfer(log.event) {
      MintMoves(t, log, id);
    } else {
      OtherValuesStay(t, log, k, id);
    }
  }

  /** A log of another chain moves no value of this one. */
  lemma OtherChainsStay(t: Ledger, log: Log, k: Kind, id: Id)
    requires Apply(t, log, k).Some? && id.chain != log.chain
    ensures ParValue(Apply(t, log, k).value, id) == ParValue(t, id)
  {
    hide Apply, ParValue, Claimants, ClaimedIn, Harmless;
    if IsFlow(log, k) {
      FlowElsewhere(t, log, k, id);
    } else if IsReserveKind(k) && log.event.AssetAdded? {
      RegistrationMoves(t, log, k, id);
    } else if k.IouKind? && IsSupplyTransfer(log.event) {
      MintMoves(t, log, id);
    } else {
      OtherValuesStay(t, log, k, id);
    }
  }

  /** While only other chains have logs a reserve keeps its value. */
  lemma {:induction false} ValueWaits(truth: Truth, logs: seq<Log>, n: nat, i: nat, id: Id)
    requires n <= i <= |logs| && Replay(truth, EMPTY_LEDGER, logs).Some?
    requires forall j :: n <= j < i ==> logs[j].chain != id.chain
    ensures ParValue(At(truth, logs, i), id) == ParValue(At(truth, logs, n), id)
    decreases i
  {
    hide Apply, At, Replay, ParValue;
    if n < i {
      StepAt(truth, logs, i - 1);
      OtherChainsStay(At(truth, logs, i - 1), logs[i - 1], truth(logs[i - 1].address), id);
      ValueWaits(truth, logs, n, i - 1, id);
    }
  }

  // --- one log, and whole runs ---

  /** A stored day the log does not belong to. */
  lemma EarlierDay(truth: Truth, logs: seq<Log>, i: nat, id: Id, d: nat)
    requires i < |logs| && InOrder(logs) && Replay(truth, EMPTY_LEDGER, logs).Some? && DaysHold(truth, logs, i)
    requires IsBase(At(truth, logs, i + 1), id) && d in Rows(At(truth, logs, i + 1).valueHistory, id)
    requires logs[i].chain != id.chain || d < Day(logs[i].timestamp)
    ensures DayHolds(truth, logs, i + 1, id, d)
  {
    hide Apply, At, Replay, Day, ParValue, InOrder, OfReserves, Before, AllStamped, IsBase;
    var log, t := logs[i], At(truth, logs, i);
    StepAt(truth, logs, i);
    OrderedAt(truth, logs, i);
    OtherDaysStay(t, log, truth(log.address), id, d);
    RowsAreOld(t, log, truth(log.address), id);
    assert DayHolds(truth, logs, i, id, d);
  }

  /** The log's own day, when the log snapshots the reserve. */
  lemma SnapshotDay(truth: Truth, logs: seq<Log>, i: nat, id: Id, d: nat)
    requires i < |logs| && InOrder(logs) && Replay(truth, EMPTY_LEDGER, logs).Some?
    requires IsBase(At(truth, logs, i + 1), id) && d in Rows(At(truth, logs, i + 1).valueHistory, id)
    requires logs[i].chain == id.chain && d == Day(logs[i].timestamp)
    requires Snapshots(At(truth, logs, i), logs[i], truth(logs[i].address)) == Some(id)
    ensures DayHolds(truth, logs, i + 1, id, d)
  {
    hide Apply, At, Replay, Day, ParValue, InOrder, OfReserves, Before, AllStamped, IsBase, Snapshots;
    var r := At(truth, logs, i + 1);
    StepAt(truth, logs, i);
    OrderedAt(truth, logs, i);
    SnapshotAt(At(truth, logs, i), logs[i], truth(logs[i].address));
    forall e | e in Rows(r.valueHistory, id) ensures e <= d { DaysUpTo(truth, logs, i, id, e); }
    assert Newest(Rows(r.valueHistory, id), d);
  }

  /** The value a reserve has before a log is the one its last log up to the log's day left it with. */
  lemma ValueBefore(truth: Truth, logs: seq<Log>, i: nat, id: Id)
    requires i < |logs| && InOrder(logs) && Replay(truth, EMPTY_LEDGER, logs).Some? && logs[i].chain == id.chain
    ensures var n := EndOf(logs, i, id.chain, Day(logs[i].timestamp));
            ParValue(At(truth, logs, i), id) == ParValue(At(truth, logs, n), id)
  {
    hide At, Replay, Day, ParValue;
    ValueWaits(truth, logs, EndOf(logs, i, id.chain, Day(logs[i].timestamp)), i, id);
  }

  /** The log's own day, when the log takes no snapshot of the reserve. */
  lemma PassedDay(truth: Truth, logs: seq<Log>, i: nat, id: Id, d: nat)
    requires i < |logs| && InOrder(logs) && Replay(truth, EMPTY_LEDGER, logs).Some? && DaysHold(truth, logs, i)
    requires IsBase(At(truth, logs, i + 1), id) && d in Rows(At(truth, logs, i + 1).valueHistory, id)
    requires logs[i].chain == id.chain && d == Day(logs[i].timestamp)
    requires Snapshots(At(truth, logs, i), logs[i], truth(logs[i].address)) != Some(id)
    ensures DayHolds(truth, logs, i + 1, id, d) <==> !Stales(At(truth, logs, i), logs[i], truth(logs[i].address), id)
  {
    hide Apply, At, Replay, Day, ParValue, InOrder, OfReserves, Before, AllStamped, IsBase, Snapshots, Stales;
    var log, t, k := logs[i], At(truth, logs, i), truth(logs[i].address);
    StepAt(truth, logs, i);
    OrderedAt(truth, logs, i);
    RowsElsewhere(t, log, k, id);
    RowsAreOld(t, log, k, id);
    assert DayHolds(truth, logs, i, id, d);
    ValueBefore(truth, logs, i, id);
    StalesIffMoved(t, log, k, id);
  }

  lemma StalesTakesNone(t: Ledger, log: Log, k: Kind, id: Id)
    requires Stales(t, log, k, id)
    ensures Snapshots(t, log, k) != Some(id) && id.chain == log.chain
  {
    hide Claimants, ClaimedIn, Harmless;
  }

  /** A stored day of a base reserve after one more log. */
  lemma DayHoldsIff(truth: Truth, logs: seq<Log>, i: nat, id: Id, d: nat)
    requires i < |logs| && InOrder(logs) && Replay(truth, EMPTY_LEDGER, logs).Some? && DaysHold(truth, logs, i)
    requires IsBase(At(truth, logs, i + 1), id) && d in Rows(At(truth, logs, i + 1).valueHistory, id)
    ensures DayHolds(truth, logs, i + 1, id, d) <==>
            !(Stales(At(truth, logs, i), logs[i], truth(logs[i].address), id) && d == Day(logs[i].timestamp))
  {
    hide At, Replay, Day, InOrder, IsBase, Snapshots, Stales, DaysHold, DayHolds;
    var t, k := At(truth, logs, i), truth(logs[i].address);
    if Stales(t, logs[i], k, id) { StalesTakesNone(t, logs[i], k, id); }
    if logs[i].chain == id.chain { DaysUpTo(truth, logs, i, id, d); }
    if logs[i].chain != id.chain || d < Day(logs[i].timestamp) {
      EarlierDay(truth, logs, i, id, d);
    } else if Snapshots(t, logs[i], k) == Some(id) {
      SnapshotDay(truth, logs, i, id, d);
    } else {
      PassedDay(truth, logs, i, id, d);
    }
  }

  /** A reserve the log makes stale keeps its rows, none of them of a later day. */
  lemma StaleRows(truth: Truth, logs: seq<Log>, i: nat, id: Id)
    requires i < |logs| && InOrder(logs) && Replay(truth, EMPTY_LEDGER, logs).Some?
    requires Stales(At(truth, logs, i), logs[i], truth(logs[i].address), id)
    ensures Rows(At(truth, logs, i + 1).valueHistory, id) == Rows(At(truth, logs, i).valueHistory, id)
    ensures IsBase(At(truth, logs, i + 1), id)
    ensures forall d :: d in Rows(At(truth, logs, i).valueHistory, id) ==> d <= Day(logs[i].timestamp)
  {
    hide Apply, At, Replay, Day, InOrder, OfReserves, Before, AllStamped, IsBase, Snapshots, Harmless, ClaimedIn;
    var log, t, k := logs[i], At(truth, logs, i), truth(logs[i].address);
    StepAt(truth, logs, i);
    OrderedAt(truth, logs, i);
    StalesTakesNone(t, log, k, id);
    RowsElsewhere(t, log, k, id);
    RowsAreOld(t, log, k, id);
    forall d | d in Rows(t.valueHistory, id) ensures d <= Day(log.timestamp) { DaysUpTo(truth, logs, i, id, d); }
  }

  lemma DaysHoldStep(truth: Truth, logs: seq<Log>, i: nat)
    requires i < |logs| && InOrder(logs) && Replay(truth, EMPTY_LEDGER, logs).Some? && DaysHold(truth, logs, i)
    ensures DaysHold(truth, logs, i + 1) <==>
            StalesOldDaysOnly(At(truth, logs, i), logs[i], truth(logs[i].address))
  {
    hide At, Replay, Day, InOrder, IsBase, Stales, DayHolds;
    var t, r, k := At(truth, logs, i), At(truth, logs, i + 1), truth(logs[i].address);
    if StalesOldDaysOnly(t, logs[i], k) {
      forall id: Id, d: nat | IsBase(r, id) && d in Rows(r.valueHistory, id)
        ensures DayHolds(truth, logs, i + 1, id, d)
      {
        DayHoldsIff(truth, logs, i, id, d);
        if Stales(t, logs[i], k, id) {
          StaleRows(truth, logs, i, id);
          assert d == Day(logs[i].timestamp) ==> Newest(Rows(t.valueHistory, id), d);
        }
      }
    } else {
      var id: Id, d: nat :| Stales(t, logs[i], k, id) && Newest(Rows(t.valueHistory, id), d)
                            && d >= Day(logs[i].timestamp);
      StaleRows(truth, logs, i, id);
      DayHoldsIff(truth, logs, i, id, d);
    }
  }

  lemma DaysHoldAtStart(truth: Truth, logs: seq<Log>)
    ensures DaysHold(truth, logs, 0)
  {
    hide At, ParValue, IsBase;
    StartIsEmpty(truth, logs);
  }

  ghost predicate DaysAlwaysHold(truth: Truth, logs: seq<Log>) {
    forall i :: 0 <= i <= |logs| ==> DaysHold(truth, logs, i)
  }

  lemma {:induction false} DaysHoldUpTo(truth: Truth, logs: seq<Log>, n: nat)
    requires n <= |logs| && InOrder(logs) && Replay(truth, EMPTY_LEDGER, logs).Some?
    requires AtEveryLog(truth, logs, StalesOldDaysOnly)
    ensures DaysHold(truth, logs, n)
  {
    hide At, Replay, InOrder, DaysHold, StalesOldDaysOnly;
    if n == 0 {
      DaysHoldAtStart(truth, logs);
    } else {
      DaysHoldUpTo(truth, logs, n - 1);
      DaysHoldStep(truth, logs, n - 1);
    }
  }

  /** End-of-day values: along ordered logs every stored day of a base reserve holds, in every state, its value after
      the last log of its chain up to that day, if and only if every log that makes a reserve stale falls on a
      day later than the reserve's newest row. */
  lemma DaysAlwaysHoldIff(truth: Truth, logs: seq<Log>)
    requires InOrder(logs) && Replay(truth, EMPTY_LEDGER, logs).Some?
    ensures DaysAlwaysHold(truth, logs) <==> AtEveryLog(truth, logs, StalesOldDaysOnly)
  {
    hide At, Replay, InOrder, DaysHold, StalesOldDaysOnly;
    if AtEveryLog(truth, logs, StalesOldDaysOnly) {
      forall n | 0 <= n <= |logs| ensures DaysHold(truth, logs, n) { DaysHoldUpTo(truth, logs, n); }
    } else if DaysAlwaysHold(truth, logs) {
      forall i | 0 <= i < |logs|
        ensures StalesOldDaysOnly(At(truth, logs, i), logs[i], truth(logs[i].address))
      {
        assert DaysHold(truth, logs, i) && DaysHold(truth, logs, i + 1);
        DaysHoldStep(truth, logs, i);
      }
    }
  }

  /** The admissible logs are those that make no reserve stale. */
  lemma AdmissibleIffStalesNone(t: Ledger, log: Log, k: Kind)
    ensures Admissible(t, log, k) <==> forall id :: !Stales(t, log, k, id)
  {
    hide Harmless, Snapshots, Exposed, IsBase, HasRows;
    forall id | Exposed(t, log, id) ensures IsBase(t, id) && HasRows(t, id) { ExposedIsValued(t, log, id); }
    if forall id :: !Stales(t, log, k, id) {
      assert !Stales(t, log, k, Emitter(log));
      forall id | Exposed(t, log, id)
        ensures k.IouKind? && IsSupplyTransfer(log.event) && log.event.value.value != 0 ==>
                  Snapshots(t, log, k) == Some(id)
      {
        assert !Stales(t, log, k, id);
      }
    }
  }

  lemma ExposedIsValued(t: Ledger, log: Log, id: Id)
    requires Exposed(t, log, id)
    ensures IsBase(t, id) && HasRows(t, id)
  {
    hide IsBase, HasRows, ClaimedIn;
  }

  /** So admissible logs leave every stored day with its end-of-day value. */
  lemma DaysHoldTheirEnd(truth: Truth, logs: seq<Log>)
    requires InOrder(logs) && Replay(truth, EMPTY_LEDGER, logs).Some? && AtEveryLog(truth, logs, Admissible)
    ensures DaysAlwaysHold(truth, logs)
  {
    hide At, Replay, InOrder, DaysHold, Stales, Admissible, Day;
    forall i | 0 <= i < |logs|
      ensures StalesOldDaysOnly(At(truth, logs, i), logs[i], truth(logs[i].address))
    {
      AdmissibleIffStalesNone(At(truth, logs, i), logs[i], truth(logs[i].address));
    }
    DaysAlwaysHoldIff(truth, logs);
  }
}
