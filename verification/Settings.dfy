/** The generated upsert behind the "fold the setters" tables (handlers.go: upsertPatch). */
module Settings {
  import opened Options
  import opened Tables

  /** The flat column/value list each governance event passes on (dispatch.go). */
  function ColVals(s: Setting): (r: seq<string>)
    ensures |r| > 0 && |r| % 2 == 0
  {
    match s
    case FlashFee(v) => ["flash_fee_bps", v]
    case BaseQuoteFee(v) => ["base_quote_fee_bps", v]
    case SingleAssetFee(v) => ["single_asset_fee_bps", v]
    case RedemptionProximity(v) => ["redemption_proximity_bps", v]
    case RebalanceTrigger(v) => ["rebalance_trigger_bps", v]
    case RebalanceDeviation(v) => ["rebalance_deviation_bps", v]
    case IouDistribution(trader, treasury) => ["iou_trader_bps", trader, "iou_treasury_bps", treasury]
    case BaseQuoteDistribution(trader, treasury) =>
      ["base_quote_trader_bps", trader, "base_quote_treasury_bps", treasury]
    case SwapSpread(min, max) => ["swap_spread_min_bps", min, "swap_spread_max_bps", max]
  }

  /** The value a column/value list carries for a column, the last one if it is repeated. */
  function Carried(colVals: seq<string>, col: string): Option<Cell>
    requires |colVals| % 2 == 0
  {
    if colVals == [] then None
    else if colVals[|colVals| - 2] == col then Some(Text(colVals[|colVals| - 1]))
    else Carried(colVals[..|colVals| - 2], col)
  }

  /** A row with the listed columns overwritten, in list order. */
  function Patched(row: PatchRow, colVals: seq<string>): PatchRow
    requires |colVals| % 2 == 0
  {
    if colVals == [] then row
    else Patched(row, colVals[..|colVals| - 2])[colVals[|colVals| - 2] := Text(colVals[|colVals| - 1])]
  }

  function KeyCells(id: Id, rt: ReserveType): PatchRow {
    map["chain_id" := Number(id.chain), "reserve" := Address(id.addr),
      "kind" := Text(if rt == MetaReserve then "meta" else "base")]
  }

  /** The settings row after an event: keys on insert only, then the event's columns and last_block. */
  function SettingsRow(table: map<Id, PatchRow>, id: Id, rt: ReserveType, s: Setting, block: nat): PatchRow {
    var row := if id in table then table[id] else KeyCells(id, rt);
    Patched(row, ColVals(s))["last_block" := Number(block)]
  }
}
