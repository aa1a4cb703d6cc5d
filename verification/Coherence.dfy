/**
 The newest value-history row of a base reserve is a faithful cache of the live view
 (handlers.go: snapshotReserveValue, handleTransfer, handleAssetAdded; schema.go: clear_reserve_par_values).
 The row's total_supply, which an LP Transfer leaves behind, is the subject of SupplyColumn.
 */
module Coherence {
  import opened Addresses
  import opened Effects
  import opened Frames
  import opened History
  import opened Kinds
  import opened Options
  import opened Sums
  import opened Tables
  import opened Valuation
  import opened Machine
  import opened Delivery

  /** The day of a reserve's newest row. */
  ghost predicate Newest(rows: map<nat, ValueRow>, d: nat) {
    d in rows && forall e :: e in rows ==> e <= d
  }

  lemma {:induction false} NewestExists(rows: map<nat, ValueRow>)
    requires rows != map[]
    ensures exists d :: Newest(rows, d)
    decreases |rows|
  {
    var d :| d in rows;
    var rest := rows - {d};
    if rest == map[] {
      assert rows.Keys == {d} + rest.Keys;
      assert Newest(rows, d);
    } else {
      NewestExists(rest);
      var e :| Newest(rest, e);
      if d >= e { assert Newest(rows, d); } else { assert Newest(rows, e); }
    }
  }

  predicate Matches(row: ValueRow, v: Value) {
    row.totalAssets == v.gross && row.iouDebt == v.debt && row.nav == v.nav
  }

  ghost predicate CoherentAt(t: Ledger, id: Id) {
    forall d :: Newest(Rows(t.valueHistory, id), d) ==> Matches(Rows(t.valueHistory, id)[d], ParValue(t, id))
  }

  /** Every base reserve's newest row, if it has one, agrees with its live valuation. */
  ghost predicate Coherent(t: Ledger) {
    forall id :: IsBase(t, id) ==> CoherentAt(t, id)
  }

  predicate HasRows(t: Ledger, id: Id) {
    Rows(t.valueHistory, id) != map[]
  }

  // --- what a caller can check before a log ---

  /** Registering the asset does not move the reserve's value: a new asset has no balance yet, and an
      asset registered again keeps its scale or has neither balance nor IOU supply. */
  predicate Harmless(rows: map<Addr, Asset>, balances: map<Addr, int>, e: Event)
    requires e.AssetAdded?
  {
    if e.asset in rows
    then Scale(e.decimals) == Scale(rows[e.asset].decimals)
         || (Get(balances, e.asset) == 0 && rows[e.asset].iouSupply == 0)
    else Get(balances, e.asset) == 0
  }

  predicate RegistersHarmlessly(t: Ledger, log: Log, k: Kind) {
    var id := Emitter(log);
    IsReserveKind(k) && log.event.AssetAdded? && IsBase(t, id) && HasRows(t, id) ==>
      Harmless(Rows(t.assets, id), Rows(t.tokenBalances, id), log.event)
  }

  /** Every valued base reserve that an IOU mint or burn moves is the one it snapshots. */
  ghost predicate ClaimedByOne(t: Ledger, log: Log, k: Kind) {
    k.IouKind? && IsSupplyTransfer(log.event) && log.event.value.value != 0 ==>
      forall id :: Exposed(t, log, id) ==> Snapshots(t, log, k) == Some(id)
  }

  /** A valued base reserve with an asset row that names the log's emitter. */
  predicate Exposed(t: Ledger, log: Log, id: Id) {
    IsBase(t, id) && HasRows(t, id) && id.chain == log.chain && ClaimedIn(Rows(t.assets, id), log.address)
  }

  // --- how a log moves a reserve's value ---

  /** The net value follows from gross and debt. */
  lemma ParDecides(rows: map<Addr, Asset>, after: map<Addr, Asset>, balances: map<Addr, int>)
    ensures ParOf(after, balances) == ParOf(rows, balances) <==>
            ParOf(after, balances).gross == ParOf(rows, balances).gross
              && ParOf(after, balances).debt == ParOf(rows, balances).debt
  {
  }

  /** Only the registered asset's terms change. */
  lemma PutTerms(rows: map<Addr, Asset>, balances: map<Addr, int>, e: Event)
    requires e.AssetAdded?
    ensures var after := PutAsset(rows, e);
            && after.Keys == rows.Keys + {e.asset}
            && GrossPar(after, balances, e.asset) == Get(balances, e.asset) * Scale(e.decimals)
            && DebtPar(after, e.asset) == MirroredSoFar(rows, e.asset) * Scale(e.decimals)
            && (forall y :: y != e.asset ==>
              GrossPar(after, balances, y) == GrossPar(rows, balances, y) && DebtPar(after, y) == DebtPar(rows, y))
            && (e.asset !in rows ==> GrossPar(rows, balances, e.asset) == 0 && DebtPar(rows, e.asset) == 0)
  {
    hide Scale, Get;
  }

  lemma PutSums(rows: map<Addr, Asset>, balances: map<Addr, int>, e: Event)
    requires e.AssetAdded?
    ensures var was, now := ParOf(rows, balances), ParOf(PutAsset(rows, e), balances);
            && now.gross == was.gross - GrossPar(rows, balances, e.asset) + Get(balances, e.asset) * Scale(e.decimals)
            && now.debt == was.debt - DebtPar(rows, e.asset) + MirroredSoFar(rows, e.asset) * Scale(e.decimals)
  {
    hide Scale, Max0, Get, PutAsset, GrossPar, DebtPar, MirroredSoFar;
    var after := PutAsset(rows, e);
    PutTerms(rows, balances, e);
    SumChanged(rows.Keys, after.Keys, x => GrossPar(rows, balances, x), x => GrossPar(after, balances, x), e.asset);
    SumChanged(rows.Keys, after.Keys, x => DebtPar(rows, x), x => DebtPar(after, x), e.asset);
  }

  lemma PutMovesValue(rows: map<Addr, Asset>, balances: map<Addr, int>, e: Event)
    requires e.AssetAdded?
    ensures ParOf(PutAsset(rows, e), balances) == ParOf(rows, balances) <==> Harmless(rows, balances, e)
  {
    hide Scale, Get, ParOf, PutAsset;
    PutSums(rows, balances, e);
    ParDecides(rows, PutAsset(rows, e), balances);
    ScalePositive(e.decimals);
    if e.asset in rows {
      ScaledDiffers(Get(balances, e.asset), Scale(rows[e.asset].decimals), Scale(e.decimals));
      ScaledDiffers(rows[e.asset].iouSupply, Scale(rows[e.asset].decimals), Scale(e.decimals));
    } else {
      ScaledDiffers(Get(balances, e.asset), 0, Scale(e.decimals));
    }
  }

  lemma ScaledDiffers(units: int, s: int, r: int)
    ensures units * s == units * r <==> units == 0 || s == r
  {
    assert units * s - units * r == units * (s - r);
  }

  /** The weight of an asset row in the debt that an IOU's supply moves. */
  function Claims(rows: map<Addr, Asset>, iou: Addr, a: Addr): int {
    if a in rows && rows[a].iou == iou then Scale(rows[a].decimals) else 0
  }

  function ClaimedWeight(rows: map<Addr, Asset>, iou: Addr): int {
    Sum(rows.Keys, x => Claims(rows, iou, x))
  }

  lemma MirrorValue(rows: map<Addr, Asset>, balances: map<Addr, int>, iou: Addr, delta: int)
    ensures var after := MirrorRows(rows, iou, delta);
            && ParOf(after, balances).gross == ParOf(rows, balances).gross
            && ParOf(after, balances).debt == ParOf(rows, balances).debt + delta * ClaimedWeight(rows, iou)
  {
    hide Scale, Max0, Get;
    var after := MirrorRows(rows, iou, delta);
    assert after.Keys == rows.Keys;
    SumCongruent(rows.Keys, x => GrossPar(rows, balances, x), x => GrossPar(after, balances, x));
    forall x | x in rows
      ensures DebtPar(after, x) == DebtPar(rows, x) + delta * Claims(rows, iou, x)
    {
      Distribute(Scale(rows[x].decimals), rows[x].iouSupply, delta);
    }
    SumShifted(rows.Keys, x => DebtPar(rows, x), x => DebtPar(after, x), x => Claims(rows, iou, x), delta);
  }

  lemma ClaimedWeighs(rows: map<Addr, Asset>, iou: Addr)
    ensures ClaimedIn(rows, iou) ==> ClaimedWeight(rows, iou) >= 1
    ensures !ClaimedIn(rows, iou) ==> ClaimedWeight(rows, iou) == 0
  {
    hide Scale;
    if a :| a in rows && rows[a].iou == iou {
      ScalePositive(rows[a].decimals);
      SumAtLeast(rows.Keys, x => Claims(rows, iou, x), a);
    } else {
      SumCongruent(rows.Keys, x => Claims(rows, iou, x), x => 0);
      SumZero(rows.Keys);
    }
  }

  lemma MirrorMovesValue(rows: map<Addr, Asset>, balances: map<Addr, int>, iou: Addr, delta: int)
    ensures ParOf(MirrorRows(rows, iou, delta), balances) == ParOf(rows, balances) <==>
            delta == 0 || !ClaimedIn(rows, iou)
  {
    hide ParOf, MirrorRows, ClaimedWeight, ClaimedIn;
    MirrorValue(rows, balances, iou, delta);
    ParDecides(rows, MirrorRows(rows, iou, delta), balances);
    ClaimedWeighs(rows, iou);
    ScaledDiffers(delta, ClaimedWeight(rows, iou), 0);
  }

  // --- one reserve across a log ---

  lemma SameAt(t: Ledger, r: Ledger, id: Id)
    requires Rows(r.valueHistory, id) == Rows(t.valueHistory, id) && ParValue(r, id) == ParValue(t, id)
    ensures CoherentAt(r, id) <==> CoherentAt(t, id)
  {
    hide ParValue;
  }

  lemma EmptyAt(r: Ledger, id: Id)
    requires !HasRows(r, id)
    ensures CoherentAt(r, id)
  {
  }

  lemma StaleAt(t: Ledger, r: Ledger, id: Id)
    requires CoherentAt(t, id) && HasRows(t, id)
    requires Rows(r.valueHistory, id) == Rows(t.valueHistory, id) && ParValue(r, id) != ParValue(t, id)
    ensures !CoherentAt(r, id)
  {
    hide ParValue;
    NewestExists(Rows(t.valueHistory, id));
    var d :| Newest(Rows(t.valueHistory, id), d);
    assert Matches(Rows(t.valueHistory, id)[d], ParValue(t, id));
  }

  /** A snapshot no older than what is recorded writes the newest row. */
  lemma TakenIsNewest(b: Ledger, r: Ledger, id: Id, log: Log, d: nat)
    requires id in b.reserves && Before(b, log) && id.chain == log.chain
    requires r.valueHistory == SnapshotValue(b, id, log) && Newest(Rows(r.valueHistory, id), d)
    ensures d == Day(log.timestamp) && Rows(r.valueHistory, id)[d] == ValueRowOf(b, id, log)
  {
    hide ReserveValue, Day, AssetDaysBefore;
    var rows := Rows(b.valueHistory, id);
    var today := Day(log.timestamp);
    assert id in b.valueHistory && today in b.valueHistory[id] ==> b.valueHistory[id][today].block <= log.block;
    assert Rows(r.valueHistory, id) == rows[today := ValueRowOf(b, id, log)];
    assert today in Rows(r.valueHistory, id);
    assert d == today || d in rows;
  }

  /** It leaves that row in step with the view. */
  lemma FreshAt(b: Ledger, r: Ledger, id: Id, log: Log)
    requires IsBase(b, id) && Before(b, log) && id.chain == log.chain
    requires r.valueHistory == SnapshotValue(b, id, log) && ParValue(r, id) == ParValue(b, id)
    ensures CoherentAt(r, id)
  {
    hide ParValue, Day, Before, SnapshotValue;
    forall d | Newest(Rows(r.valueHistory, id), d)
      ensures Matches(Rows(r.valueHistory, id)[d], ParValue(r, id))
    {
      TakenIsNewest(b, r, id, log, d);
    }
  }

  lemma OtherAt(b: Ledger, r: Ledger, id: Id, log: Log, other: Id)
    requires r.valueHistory == SnapshotValue(b, id, log) && other != id
    ensures Rows(r.valueHistory, other) == Rows(b.valueHistory, other)
  {
    hide ReserveValue, Day;
  }

  // --- one log ---

  /** A reserve with rows was known before the log and has not changed kind. */
  lemma RowsAreOld(t: Ledger, log: Log, k: Kind, id: Id)
    requires OfReserves(t) && Apply(t, log, k).Some? && HasRows(t, id)
    ensures IsBase(Apply(t, log, k).value, id) <==> IsBase(t, id)
  {
    hide Apply;
    ReservesFrame(t, log, k);
  }

  /** Where the log has no say: the reserve's rows and value are those of before. */
  lemma KeptAt(t: Ledger, log: Log, k: Kind, id: Id)
    requires Coherent(t) && OfReserves(t) && Apply(t, log, k).Some?
    requires var r := Apply(t, log, k).value;
             Rows(r.valueHistory, id) == Rows(t.valueHistory, id) && ParValue(r, id) == ParValue(t, id)
    ensures IsBase(Apply(t, log, k).value, id) ==> CoherentAt(Apply(t, log, k).value, id)
  {
    hide Apply, ParValue, CoherentAt, IsBase;
    var r := Apply(t, log, k).value;
    if HasRows(t, id) {
      RowsAreOld(t, log, k, id);
      SameAt(t, r, id);
    } else {
      EmptyAt(r, id);
    }
  }

  lemma {:induction false} FlowsElsewhere(table: map<Id, map<Addr, int>>, id: Id, flows: seq<Flow>, other: Id)
    requires other != id
    ensures Rows(AddFlows(table, id, flows), other) == Rows(table, other)
  {
    if flows != [] {
      FlowsElsewhere(table, id, flows[..|flows| - 1], other);
    }
  }

  lemma FlowElsewhere(t: Ledger, log: Log, k: Kind, id: Id)
    requires IsFlow(log, k) && id != Emitter(log) && Apply(t, log, k).Some?
    ensures var r := Apply(t, log, k).value;
            Rows(r.valueHistory, id) == Rows(t.valueHistory, id) && ParValue(r, id) == ParValue(t, id)
  {
    hide Apply, ParOf, Read, SnapshotValue, SnapshotAssets, AddFlows, Flows;
    HistoryFrame(t, log, k);
    SnapshotReads(t, log, k);
    OtherAt(Read(t, log, k), Apply(t, log, k).value, Emitter(log), log, id);
    RegistryFrame(t, log, k);
    FlowsElsewhere(t.tokenBalances, Emitter(log), Flows(t, Emitter(log), TypeOf(k), log.event), id);
  }

  /** The reserve a log snapshots is in step with the view afterwards. */
  lemma SnapshotAt(t: Ledger, log: Log, k: Kind)
    requires Snapshots(t, log, k).Some? && Apply(t, log, k).Some?
    requires Before(t, log) && OfReserves(t)
    ensures var id, r := Snapshots(t, log, k).value, Apply(t, log, k).value;
            IsBase(r, id) ==> CoherentAt(r, id)
  {
    hide Apply, ParOf, Read, SnapshotAssets, CoherentAt, Before, Snapshots, Day, ValueRowOf;
    var id, r, b := Snapshots(t, log, k).value, Apply(t, log, k).value, Read(t, log, k);
    HistoryFrame(t, log, k);
    SnapshotReads(t, log, k);
    ReadBefore(t, b, r, log);
    assert ParValue(r, id) == ParValue(b, id);
    SnapshotsOwnChain(t, log, k);
    if IsBase(b, id) {
      FreshAt(b, r, id, log);
    } else if id !in b.reserves {
      EmptyAt(r, id);
    }
  }

  lemma FlowKeepsCoherence(t: Ledger, log: Log, k: Kind)
    requires Coherent(t) && OfReserves(t) && Before(t, log)
    requires IsFlow(log, k) && Apply(t, log, k).Some?
    ensures Coherent(Apply(t, log, k).value)
  {
    hide Apply, ParValue, CoherentAt, Before, OfReserves, IsBase, Day;
    var r := Apply(t, log, k).value;
    forall id | IsBase(r, id) ensures CoherentAt(r, id) {
      if id == Emitter(log) {
        SnapshotAt(t, log, k);
      } else {
        FlowElsewhere(t, log, k, id);
        KeptAt(t, log, k, id);
      }
    }
  }

  lemma RegistrationMoves(t: Ledger, log: Log, k: Kind, id: Id)
    requires IsReserveKind(k) && log.event.AssetAdded? && Apply(t, log, k).Some?
    ensures var r := Apply(t, log, k).value;
            && r.valueHistory == t.valueHistory
            && (id != Emitter(log) ==> ParValue(r, id) == ParValue(t, id))
            && (id == Emitter(log) ==>
                  (ParValue(r, id) == ParValue(t, id) <==>
                    Harmless(Rows(t.assets, id), Rows(t.tokenBalances, id), log.event)))
  {
    hide Apply, ParOf, PutAsset, SnapshotValue, SnapshotAssets, Harmless;
    HistoryFrame(t, log, k);
    RegistryFrame(t, log, k);
    if id == Emitter(log) {
      PutMovesValue(Rows(t.assets, id), Rows(t.tokenBalances, id), log.event);
    }
  }

  lemma RegistrationKeepsCoherenceIff(t: Ledger, log: Log, k: Kind)
    requires Coherent(t) && OfReserves(t)
    requires IsReserveKind(k) && log.event.AssetAdded? && Apply(t, log, k).Some?
    ensures Coherent(Apply(t, log, k).value) <==> RegistersHarmlessly(t, log, k)
  {
    hide Apply, ParValue, CoherentAt, OfReserves, IsBase, Harmless, HasRows;
    var r, id := Apply(t, log, k).value, Emitter(log);
    forall x | x != id ensures IsBase(r, x) ==> CoherentAt(r, x) {
      RegistrationMoves(t, log, k, x);
      KeptAt(t, log, k, x);
    }
    RegistrationMoves(t, log, k, id);
    if ParValue(r, id) == ParValue(t, id) {
      KeptAt(t, log, k, id);
    } else if HasRows(t, id) {
      RowsAreOld(t, log, k, id);
      if IsBase(t, id) { StaleAt(t, r, id); }
    } else {
      StillEmptyAt(t, r, id);
    }
  }

  lemma StillEmptyAt(t: Ledger, r: Ledger, id: Id)
    requires !HasRows(t, id) && Rows(r.valueHistory, id) == Rows(t.valueHistory, id)
    ensures CoherentAt(r, id)
  {
    hide ParValue;
    EmptyAt(r, id);
  }

  lemma MintMoves(t: Ledger, log: Log, id: Id)
    requires IsSupplyTransfer(log.event) && Apply(t, log, IouKind).Some?
    ensures ParValue(Apply(t, log, IouKind).value, id) == ParValue(t, id) <==>
            log.event.value.value == 0 || id.chain != log.chain || !ClaimedIn(Rows(t.assets, id), log.address)
  {
    hide Apply, ParOf, MirrorRows, PutAsset, AddFlows, Flows;
    RegistryFrame(t, log, IouKind);
    MirrorMovesValue(Rows(t.assets, id), Rows(t.tokenBalances, id), log.address,
                     SupplyChange(log.event.from, log.event.to, log.event.value.value));
  }

  /** A log writes no row of a reserve it does not snapshot. */
  lemma RowsElsewhere(t: Ledger, log: Log, k: Kind, id: Id)
    requires Apply(t, log, k).Some? && Snapshots(t, log, k) != Some(id)
    ensures Rows(Apply(t, log, k).value.valueHistory, id) == Rows(t.valueHistory, id)
  {
    hide Apply, Read, SnapshotValue, SnapshotAssets, Snapshots, Rows;
    HistoryFrame(t, log, k);
    var target := Snapshots(t, log, k);
    if target.Some? {
      SnapshotReads(t, log, k);
      OtherAt(Read(t, log, k), Apply(t, log, k).value, target.value, log, id);
    }
  }

  /** One reserve after an IOU mint or burn. */
  lemma MintAt(t: Ledger, log: Log, id: Id)
    requires Coherent(t) && OfReserves(t) && Before(t, log)
    requires IsSupplyTransfer(log.event) && Apply(t, log, IouKind).Some?
    ensures var r := Apply(t, log, IouKind).value;
            (IsBase(r, id) ==> CoherentAt(r, id)) <==>
            (log.event.value.value != 0 && Exposed(t, log, id) ==> Snapshots(t, log, IouKind) == Some(id))
  {
    hide Apply, ParValue, CoherentAt, Before, OfReserves, IsBase, HasRows, Day, ClaimedIn, Snapshots;
    var r := Apply(t, log, IouKind).value;
    if Snapshots(t, log, IouKind) == Some(id) {
      SnapshotAt(t, log, IouKind);
    } else {
      RowsElsewhere(t, log, IouKind, id);
      MintMoves(t, log, id);
      if ParValue(r, id) == ParValue(t, id) {
        KeptAt(t, log, IouKind, id);
      } else if HasRows(t, id) {
        RowsAreOld(t, log, IouKind, id);
        if IsBase(t, id) { StaleAt(t, r, id); }
      } else {
        StillEmptyAt(t, r, id);
      }
    }
  }

  lemma MintKeepsCoherenceIff(t: Ledger, log: Log)
    requires Coherent(t) && OfReserves(t) && Before(t, log)
    requires IsSupplyTransfer(log.event) && Apply(t, log, IouKind).Some?
    ensures Coherent(Apply(t, log, IouKind).value) <==> ClaimedByOne(t, log, IouKind)
  {
    hide Apply, ParValue, CoherentAt, Before, OfReserves, IsBase, HasRows, Day, ClaimedIn, Snapshots, Rows;
    forall id { MintAt(t, log, id); }
  }

  lemma OtherKeepsCoherence(t: Ledger, log: Log, k: Kind)
    requires Coherent(t) && OfReserves(t) && Apply(t, log, k).Some?
    requires !IsFlow(log, k) && !(IsReserveKind(k) && log.event.AssetAdded?)
             && !(k.IouKind? && IsSupplyTransfer(log.event))
    ensures Coherent(Apply(t, log, k).value)
  {
    hide Apply, ParOf, CoherentAt, OfReserves, IsBase, SnapshotValue, SnapshotAssets;
    var r := Apply(t, log, k).value;
    HistoryFrame(t, log, k);
    RegistryFrame(t, log, k);
    forall id | IsBase(r, id) ensures CoherentAt(r, id) {
      assert ParValue(r, id) == ParValue(t, id);
      KeptAt(t, log, k, id);
    }
  }

  /** What a log must respect: a harmless registration, an IOU claimed by no second valued base reserve. */
  ghost predicate Admissible(t: Ledger, log: Log, k: Kind) {
    RegistersHarmlessly(t, log, k) && ClaimedByOne(t, log, k)
  }

  /** A log no older than the histories keeps every newest row in step with the view if and only if it is admissible. */
  lemma CoherenceKeptIff(t: Ledger, log: Log, k: Kind)
    requires Coherent(t) && OfReserves(t) && Before(t, log)
    requires Apply(t, log, k).Some?
    ensures Coherent(Apply(t, log, k).value) <==> Admissible(t, log, k)
  {
    hide Apply, Coherent, Before, OfReserves, IsBase, HasRows, Day, ClaimedIn, Snapshots, Harmless;
    if IsFlow(log, k) {
      FlowKeepsCoherence(t, log, k);
    } else if IsReserveKind(k) && log.event.AssetAdded? {
      RegistrationKeepsCoherenceIff(t, log, k);
    } else if k.IouKind? && IsSupplyTransfer(log.event) {
      MintKeepsCoherenceIff(t, log);
    } else {
      OtherKeepsCoherence(t, log, k);
    }
  }

  // --- whole runs ---

  /** Along logs in order no log finds anything recorded that is later than itself. */
  lemma OrderedAt(truth: Truth, logs: seq<Log>, i: nat)
    requires i < |logs| && InOrder(logs) && Replay(truth, EMPTY_LEDGER, logs).Some?
    ensures OfReserves(At(truth, logs, i)) && Before(At(truth, logs, i), logs[i])
    ensures AllStamped(At(truth, logs, i + 1), logs[..i + 1]) && OfReserves(At(truth, logs, i + 1))
  {
    hide PartsAgree, DaysRegistered, OfReserves, AllStamped, Before, Day, Apply, Replay;
    PrefixReplays(truth, logs, i);
    PrefixReplays(truth, logs, i + 1);
    PrefixInOrder(logs, i);
    PrefixInOrder(logs, i + 1);
    PartsAlwaysAgree(truth, logs[..i]);
    PartsAlwaysAgree(truth, logs[..i + 1]);
    StampedBefore(At(truth, logs, i), logs, i);
  }

  lemma EmptyCoherent()
    ensures Coherent(EMPTY_LEDGER)
  {
    hide ParValue;
  }

  /** Snapshot coherence: along logs in block and day order, the newest rows agree with the view after
      every log if and only if every log is admissible when it is processed. */
  lemma AlwaysCoherentIff(truth: Truth, logs: seq<Log>)
    requires InOrder(logs) && Replay(truth, EMPTY_LEDGER, logs).Some?
    ensures InEveryState(truth, logs, Coherent) <==> AtEveryLog(truth, logs, Admissible)
  {
    hide Apply, Coherent, Admissible, At, Replay, InOrder, Before, OfReserves, AllStamped, Day;
    EmptyCoherent();
    forall i | 0 <= i < |logs| && Coherent(At(truth, logs, i))
      ensures Coherent(At(truth, logs, i + 1)) <==> Admissible(At(truth, logs, i), logs[i], truth(logs[i].address))
    {
      StepAt(truth, logs, i);
      OrderedAt(truth, logs, i);
      CoherenceKeptIff(At(truth, logs, i), logs[i], truth(logs[i].address));
    }
    HoldsThroughoutIff(truth, logs, Coherent, Admissible);
  }

  /** In any run whose commits are ordered and admissible, the stored newest rows agree with the live view. */
  lemma RunIsCoherent(truth: Truth, cfg: Config, steps: seq<Step>)
    requires AgreesConfig(truth, cfg) && AllAgree(truth, steps)
    requires InOrder(Effective(Initial(cfg), cfg, steps))
             && AtEveryLog(truth, Effective(Initial(cfg), cfg, steps), Admissible)
    ensures Coherent(Run(Initial(cfg), cfg, steps).ledger)
  {
    hide Agrees, AgreesConfig, Run, Effective, Replay, Initial, DistinctIds, Ids, Coherent, InOrder, Admissible, At;
    var logs := Effective(Initial(cfg), cfg, steps);
    ExactlyOnce(truth, cfg, steps);
    AlwaysCoherentIff(truth, logs);
    LastState(truth, logs);
    assert Coherent(At(truth, logs, |logs|));
  }
}
