/**
 The settings table is a fold of the governance events: each column holds the value of the last
 processed event that carries it (handlers.go: handleReserveSettings, upsertPatch; dispatch.go).
 */
module SettingsFold {
  import opened Delivery
  import opened Effects
  import opened Frames
  import opened Kinds
  import opened Machine
  import opened Options
  import opened Settings
  import opened Tables

  const KEY_COLUMNS := {"chain_id", "reserve", "kind", "last_block"}

  /** A stored column; None for NULL. */
  function Column(t: Ledger, id: Id, col: string): Option<Cell> {
    if id in t.settings && col in t.settings[id] then Some(t.settings[id][col]) else None
  }

  /** A governance event of the reserve. */
  predicate Governs(truth: Truth, log: Log, id: Id) {
    IsReserveKind(truth(log.address)) && log.event.SettingUpdated? && Emitter(log) == id
  }

  /** The value a governance event sets a column to. */
  function ValueFor(s: Setting, col: string): Option<string> {
    match s
    case FlashFee(bps) => if col == "flash_fee_bps" then Some(bps) else None
    case BaseQuoteFee(bps) => if col == "base_quote_fee_bps" then Some(bps) else None
    case SingleAssetFee(bps) => if col == "single_asset_fee_bps" then Some(bps) else None
    case RedemptionProximity(bps) => if col == "redemption_proximity_bps" then Some(bps) else None
    case RebalanceTrigger(bps) => if col == "rebalance_trigger_bps" then Some(bps) else None
    case RebalanceDeviation(bps) => if col == "rebalance_deviation_bps" then Some(bps) else None
    case IouDistribution(_, _) =>
      if col == "iou_trader_bps" then Some(s.traderBps)
      else if col == "iou_treasury_bps" then Some(s.treasuryBps)
      else None
    case BaseQuoteDistribution(_, _) =>
      if col == "base_quote_trader_bps" then Some(s.quoteTraderBps)
      else if col == "base_quote_treasury_bps" then Some(s.quoteTreasuryBps)
      else None
    case SwapSpread(_, _) =>
      if col == "swap_spread_min_bps" then Some(s.minBps)
      else if col == "swap_spread_max_bps" then Some(s.maxBps)
      else None
  }

  lemma OneCarried(col: string, v: string, other: string)
    ensures Carried([col, v], other) == if other == col then Some(Text(v)) else None
  {
    assert [col, v][..0] == [];
  }

  lemma TwoCarried(c: string, v: string, d: string, w: string, other: string)
    requires c != d
    ensures Carried([c, v, d, w], other) ==
            if other == c then Some(Text(v)) else if other == d then Some(Text(w)) else None
  {
    assert [c, v, d, w][..2] == [c, v];
    OneCarried(c, v, other);
  }

  /** The column/value list of an event carries exactly the values its fields name. */
  lemma CarriedIsValue(s: Setting, col: string)
    ensures Carried(ColVals(s), col) == match ValueFor(s, col) case Some(v) => Some(Text(v)) case None => None
  {
    hide Carried;
    var list := ColVals(s);
    if |list| == 2 {
      OneCarried(list[0], list[1], col);
    } else {
      assert list[0] != list[2] by { FirstDiffers(s); }
      TwoCarried(list[0], list[1], list[2], list[3], col);
    }
  }

  lemma FirstDiffers(s: Setting)
    ensures |ColVals(s)| == 2 || (|ColVals(s)| == 4 && ColVals(s)[0] != ColVals(s)[2])
  {
    match s
    case IouDistribution(_, _) => assert |"iou_trader_bps"| != |"iou_treasury_bps"|;
    case BaseQuoteDistribution(_, _) => assert |"base_quote_trader_bps"| != |"base_quote_treasury_bps"|;
    case SwapSpread(_, _) => assert "swap_spread_min_bps"[13] != "swap_spread_max_bps"[13];
    case _ =>
  }

  /** The value of a column in the last log that carries it. */
  function LastCarried(truth: Truth, logs: seq<Log>, id: Id, col: string): Option<Cell> {
    if logs == [] then None
    else
      var log := logs[|logs| - 1];
      if Governs(truth, log, id) && ValueFor(log.event.setting, col).Some?
      then Some(Text(ValueFor(log.event.setting, col).value))
      else LastCarried(truth, logs[..|logs| - 1], id, col)
  }

  lemma {:induction false} PatchedColumn(row: PatchRow, colVals: seq<string>, col: string)
    requires |colVals| % 2 == 0
    ensures var r := Patched(row, colVals);
            && (Carried(colVals, col).Some? ==> col in r && Some(r[col]) == Carried(colVals, col))
            && (Carried(colVals, col).None? ==> (col in r <==> col in row) && (col in row ==> r[col] == row[col]))
  {
    if colVals != [] {
      PatchedColumn(row, colVals[..|colVals| - 2], col);
    }
  }

  /** The settings rows after a log. */
  function SettingsAfter(t: Ledger, log: Log, k: Kind): map<Id, PatchRow> {
    if IsReserveKind(k) && log.event.SettingUpdated?
    then t.settings[Emitter(log) := SettingsRow(t.settings, Emitter(log), TypeOf(k), log.event.setting, log.block)]
    else t.settings
  }

  lemma ReserveSettingsFrame(t: Ledger, log: Log, k: Kind)
    requires IsReserveKind(k) && ApplyReserve(t, log, TypeOf(k)).Some?
    ensures ApplyReserve(t, log, TypeOf(k)).value.settings == SettingsAfter(t, log, k)
  {
    hide FlowEvent, AddAsset, ReserveTransfer, SettingsRow;
    RegistrationFrame(t, log, TypeOf(k));
    if IsFlowEvent(log.event) {
      FlowEventFrame(t, log, TypeOf(k));
    } else if IsTransfer(log.event) {
      ReserveTransferFrame(t, log, TypeOf(k), log.event.from, log.event.to, log.event.value.value);
    }
  }

  lemma SettingsFrame(t: Ledger, log: Log, k: Kind)
    requires Apply(t, log, k).Some?
    ensures Apply(t, log, k).value.settings == SettingsAfter(t, log, k)
  {
    hide ApplyReserve, ApplyIou, ApplyCurve, ApplyOracle, ApplyFactory, ApplyDeployer, ApplyCurveFactory, SettingsRow;
    if IsReserveKind(k) {
      ReserveSettingsFrame(t, log, k);
    } else if k.IouKind? {
      IouFrame(t, log);
    } else {
      OtherFrame(t, log, k);
    }
  }

  lemma KeysAreNoSettings(id: Id, rt: ReserveType, col: string)
    requires col !in KEY_COLUMNS
    ensures col !in KeyCells(id, rt)
  {
  }

  lemma RowColumn(table: map<Id, PatchRow>, id: Id, rt: ReserveType, s: Setting, block: nat, col: string)
    requires col !in KEY_COLUMNS
    ensures var r := SettingsRow(table, id, rt, s, block);
            && (Carried(ColVals(s), col).Some? ==> col in r && Some(r[col]) == Carried(ColVals(s), col))
            && (Carried(ColVals(s), col).None? && id in table ==>
              (col in r <==> col in table[id]) && (col in r ==> r[col] == table[id][col]))
            && (Carried(ColVals(s), col).None? && id !in table ==> col !in r)
  {
    hide Patched, Carried, ColVals, KeyCells;
    KeysAreNoSettings(id, rt, col);
    PatchedColumn(if id in table then table[id] else KeyCells(id, rt), ColVals(s), col);
  }

  lemma ColumnStep(t: Ledger, log: Log, truth: Truth, id: Id, col: string)
    requires col !in KEY_COLUMNS && Apply(t, log, truth(log.address)).Some?
    ensures Column(Apply(t, log, truth(log.address)).value, id, col) ==
            if Governs(truth, log, id) && ValueFor(log.event.setting, col).Some?
            then Some(Text(ValueFor(log.event.setting, col).value))
            else Column(t, id, col)
  {
    hide Apply, Carried, ColVals, SettingsRow, ValueFor;
    var k := truth(log.address);
    SettingsFrame(t, log, k);
    if Governs(truth, log, id) {
      CarriedIsValue(log.event.setting, col);
      RowColumn(t.settings, id, TypeOf(k), log.event.setting, log.block, col);
    }
  }

  /** Each settings column is the value of the last processed event carrying it, NULL if there is none. */
  lemma {:induction false} SettingsAreAFold(truth: Truth, logs: seq<Log>, id: Id, col: string)
    requires col !in KEY_COLUMNS && Replay(truth, EMPTY_LEDGER, logs).Some?
    ensures Column(Replay(truth, EMPTY_LEDGER, logs).value, id, col) == LastCarried(truth, logs, id, col)
  {
    hide Apply, ValueFor, Column;
    if logs == [] {
      NoColumnYet(id, col);
    } else {
      var n := |logs| - 1;
      SettingsAreAFold(truth, logs[..n], id, col);
      ColumnStep(Replay(truth, EMPTY_LEDGER, logs[..n]).value, logs[n], truth, id, col);
    }
  }

  lemma NoColumnYet(id: Id, col: string)
    ensures Column(EMPTY_LEDGER, id, col) == None
  {
  }

  /** The same for every run, whatever is delivered twice, fails or is interrupted. */
  lemma RunFoldsSettings(truth: Truth, cfg: Config, steps: seq<Step>, id: Id, col: string)
    requires AgreesConfig(truth, cfg) && AllAgree(truth, steps) && col !in KEY_COLUMNS
    ensures Column(Run(Initial(cfg), cfg, steps).ledger, id, col) ==
            LastCarried(truth, Effective(Initial(cfg), cfg, steps), id, col)
  {
    hide Agrees, AgreesConfig, Run, Effective, Replay, Initial, DistinctIds, Ids, Column, LastCarried;
    ExactlyOnce(truth, cfg, steps);
    SettingsAreAFold(truth, Effective(Initial(cfg), cfg, steps), id, col);
  }

  // --- the key columns ---

  /** The last governance event of the reserve. */
  function LastGovernance(truth: Truth, logs: seq<Log>, id: Id): Option<Log> {
    if logs == [] then None
    else if Governs(truth, logs[|logs| - 1], id) then Some(logs[|logs| - 1])
    else LastGovernance(truth, logs[..|logs| - 1], id)
  }

  /** The row's key columns name the reserve and its kind, and last_block the log's block. */
  ghost predicate KeyedBy(t: Ledger, id: Id, log: Log, k: Kind) {
    && Column(t, id, "chain_id") == Some(Number(id.chain))
    && Column(t, id, "reserve") == Some(Address(id.addr))
    && Column(t, id, "kind") == Some(Text(if k.MetaReserveKind? then "meta" else "base"))
    && Column(t, id, "last_block") == Some(Number(log.block))
  }

  lemma NoKeysPatched(s: Setting)
    ensures forall col :: col in KEY_COLUMNS ==> ValueFor(s, col) == None
  {
  }

  lemma RowKeys(table: map<Id, PatchRow>, id: Id, rt: ReserveType, s: Setting, block: nat, col: string)
    requires col in KEY_COLUMNS && col != "last_block"
    ensures var r := SettingsRow(table, id, rt, s, block);
            var before := if id in table then table[id] else KeyCells(id, rt);
            && (col in r <==> col in before) && (col in before ==> r[col] == before[col])
            && "last_block" in r && r["last_block"] == Number(block)
  {
    hide Patched, Carried, ColVals, KeyCells, ValueFor;
    NoKeysPatched(s);
    CarriedIsValue(s, col);
    PatchedColumn(if id in table then table[id] else KeyCells(id, rt), ColVals(s), col);
  }

  lemma FreshKeys(id: Id, rt: ReserveType)
    ensures var r := KeyCells(id, rt);
            && "chain_id" in r && r["chain_id"] == Number(id.chain)
            && "reserve" in r && r["reserve"] == Address(id.addr)
            && "kind" in r && r["kind"] == Text(if rt == MetaReserve then "meta" else "base")
  {
  }

  lemma GovernedKeys(t: Ledger, log: Log, truth: Truth, id: Id)
    requires Governs(truth, log, id) && Apply(t, log, truth(log.address)).Some?
    requires id in t.settings ==> exists earlier: Log :: KeyedBy(t, id, earlier, truth(id.addr))
    ensures KeyedBy(Apply(t, log, truth(log.address)).value, id, log, truth(id.addr))
  {
    hide Apply, SettingsRow, KeyCells, ColVals;
    var k := truth(log.address);
    SettingsFrame(t, log, k);
    FreshKeys(id, TypeOf(k));
    RowKeys(t.settings, id, TypeOf(k), log.event.setting, log.block, "chain_id");
    RowKeys(t.settings, id, TypeOf(k), log.event.setting, log.block, "reserve");
    RowKeys(t.settings, id, TypeOf(k), log.event.setting, log.block, "kind");
  }

  /** A reserve has a settings row from its first governance event on; the row is keyed by the reserve and stamped
      with the block of the last one. */
  lemma {:induction false} KeysHold(truth: Truth, logs: seq<Log>, id: Id)
    requires Replay(truth, EMPTY_LEDGER, logs).Some?
    ensures var t := Replay(truth, EMPTY_LEDGER, logs).value;
            match LastGovernance(truth, logs, id)
            case Some(log) => id in t.settings && KeyedBy(t, id, log, truth(id.addr))
            case None => id !in t.settings
  {
    hide Apply, KeyedBy, SettingsRow;
    if logs != [] {
      var n := |logs| - 1;
      var t, k := Replay(truth, EMPTY_LEDGER, logs[..n]).value, truth(logs[n].address);
      KeysHold(truth, logs[..n], id);
      SettingsFrame(t, logs[n], k);
      if Governs(truth, logs[n], id) {
        GovernedKeys(t, logs[n], truth, id);
      } else if LastGovernance(truth, logs, id).Some? {
        SameKeys(t, Apply(t, logs[n], k).value, id, LastGovernance(truth, logs, id).value, truth(id.addr));
      }
    }
  }

  lemma SameKeys(t: Ledger, r: Ledger, id: Id, log: Log, k: Kind)
    requires KeyedBy(t, id, log, k) && id in t.settings && id in r.settings && r.settings[id] == t.settings[id]
    ensures KeyedBy(r, id, log, k)
  {
  }
}
