/**
 The two valuation views and the daily snapshot statements that cache them
 (schema.go: clear_reserve_par_values, clear_reserve_values; handlers.go: snapshotReserveValue,
 snapshotReserveAssets). Every figure is in normalized 18-decimal units.
 */
module Valuation {
  import opened Addresses
  import opened Options
  import opened Sums
  import opened Tables

  const ONE := 1_000_000_000_000_000_000
  const ORACLE_PRICE_SCALE := 10_000_000_000

  datatype Value = Value(gross: int, debt: int, nav: int)

  /** NUMERIC trunc(a / b): the quotient rounded toward zero. */
  function TruncDiv(a: int, b: int): int
    requires b != 0
  {
    var q := Abs(a) / Abs(b);
    if (a >= 0) == (b > 0) then q else -q
  }

  function Abs(x: int): nat {
    if x >= 0 then x else -x
  }

  function Max0(x: int): int {
    if x > 0 then x else 0
  }

  function Pow10(n: nat): (r: nat)
    ensures r >= 1
  {
    if n == 0 then 1 else 10 * Pow10(n - 1)
  }

  /** power(10, 18 - decimals), 18 when the decimals are unknown. */
  function Scale(decimals: Option<Decimals>): nat {
    Pow10(18 - decimals.GetOr(18))
  }

  /** The redemption price of an asset scaled to 18 decimals; par when the oracle has none. */
  function Price(t: Ledger, asset: Id): int {
    if asset in t.redemptionPrices && t.redemptionPrices[asset].Some?
    then t.redemptionPrices[asset].value * ORACLE_PRICE_SCALE
    else ONE
  }

  // --- layer 1: every leg at par ---

  function GrossPar(assets: map<Addr, Asset>, balances: map<Addr, int>, a: Addr): int {
    if a in assets then Get(balances, a) * Scale(assets[a].decimals) else 0
  }

  function DebtPar(assets: map<Addr, Asset>, a: Addr): int {
    if a in assets then assets[a].iouSupply * Scale(assets[a].decimals) else 0
  }

  function NetPar(assets: map<Addr, Asset>, balances: map<Addr, int>, a: Addr): int {
    if a in assets then Max0(Get(balances, a) - assets[a].iouSupply) * Scale(assets[a].decimals) else 0
  }

  /** A reserve valued at par: a function of its asset rows and token balances only. */
  function ParOf(assets: map<Addr, Asset>, balances: map<Addr, int>): Value {
    var gross := Sum(assets.Keys, a => GrossPar(assets, balances, a));
    var debt := Sum(assets.Keys, a => DebtPar(assets, a));
    Value(gross, debt, Max0(gross - debt))
  }

  function ParValue(t: Ledger, id: Id): Value {
    ParOf(Rows(t.assets, id), Rows(t.tokenBalances, id))
  }

  function NetParTotal(t: Ledger, id: Id): int {
    Sum(Rows(t.assets, id).Keys, a => NetPar(Rows(t.assets, id), Rows(t.tokenBalances, id), a))
  }

  function WeightedTotal(t: Ledger, id: Id): int {
    Sum(Rows(t.assets, id).Keys,
        a => NetPar(Rows(t.assets, id), Rows(t.tokenBalances, id), a) * Price(t, Id(id.chain, a)))
  }

  /** The redemption price of a base reserve's assets weighted by their net par balances. */
  function AvgRedemption(t: Ledger, id: Id): int {
    if NetParTotal(t, id) == 0 then 0 else TruncDiv(WeightedTotal(t, id), NetParTotal(t, id))
  }

  // --- layer 2: what each contract reports ---

  predicate IsBase(t: Ledger, id: Id) {
    id in t.reserves && t.reserves[id].kind == BaseReserve
  }

  /** IClearBaseReserve.convertToValue: LP units at NAV per share, with the +1/+1 virtual offset. */
  function ConvertToValue(units: int, nav: int, lpSupply: int): int
    requires lpSupply != -1
  {
    TruncDiv(units * (nav + 1), lpSupply + 1)
  }

  /** convertToRedemptionValue: the same LP units on the redemption basis. */
  function ConvertToRedemption(units: int, nav: int, lpSupply: int, avg: int): int
    requires lpSupply != -1
  {
    TruncDiv(ConvertToValue(units, nav, lpSupply) * avg, ONE)
  }

  /** The statement divides by lp_supply + 1 of every leg that is a base reserve. */
  predicate DividesByZero(t: Ledger, id: Id) {
    exists a :: a in Rows(t.assets, id) && LegDividesByZero(t, Id(id.chain, a))
  }

  predicate LegDividesByZero(t: Ledger, leg: Id) {
    IsBase(t, leg) && t.reserves[leg].lpSupply == -1
  }

  /** `units` of a leg: NAV per share for a base reserve's LP token, redemption price otherwise.
      (The value 0 stands for a division by zero, which fails the statement before it is used.) */
  function LegValue(t: Ledger, leg: Id, decimals: Option<Decimals>, units: int): int {
    if !IsBase(t, leg) then TruncDiv(units * Scale(decimals) * Price(t, leg), ONE)
    else if LegDividesByZero(t, leg) then 0
    else ConvertToRedemption(units, ParValue(t, leg).nav, t.reserves[leg].lpSupply, AvgRedemption(t, leg))
  }

  function LegGross(t: Ledger, id: Id, a: Addr): int {
    if a in Rows(t.assets, id)
    then LegValue(t, Id(id.chain, a), Rows(t.assets, id)[a].decimals, Get(Rows(t.tokenBalances, id), a))
    else 0
  }

  function LegDebt(t: Ledger, id: Id, a: Addr): int {
    if a in Rows(t.assets, id)
    then LegValue(t, Id(id.chain, a), Rows(t.assets, id)[a].decimals, Rows(t.assets, id)[a].iouSupply)
    else 0
  }

  function MetaValue(t: Ledger, id: Id): Value {
    var gross := Sum(Rows(t.assets, id).Keys, a => LegGross(t, id, a));
    var debt := Sum(Rows(t.assets, id).Keys, a => LegDebt(t, id, a));
    Value(gross, debt, Max0(gross - debt))
  }

  /** The row of clear_reserve_values for a reserve. */
  function ReserveValue(t: Ledger, id: Id): Value {
    if IsBase(t, id) then ParValue(t, id) else MetaValue(t, id)
  }

  // --- the daily snapshot ---

  function ValueRowOf(t: Ledger, id: Id, log: Log): ValueRow
    requires id in t.reserves
  {
    var v := ReserveValue(t, id);
    ValueRow(log.block, log.timestamp, v.gross, v.debt, v.nav, t.reserves[id].lpSupply)
  }

  /** Upserts the reserve's row of the day, unless a higher block has already written it. */
  function SnapshotValue(t: Ledger, id: Id, log: Log): map<Id, map<nat, ValueRow>> {
    var rows := Rows(t.valueHistory, id);
    var day := Day(log.timestamp);
    if id !in t.reserves || (day in rows && rows[day].block > log.block) then t.valueHistory
    else t.valueHistory[id := rows[day := ValueRowOf(t, id, log)]]
  }

  function AssetDayOf(t: Ledger, id: Id, a: Addr, log: Log): AssetDay
    requires a in Rows(t.assets, id)
  {
    var row := Rows(t.assets, id)[a];
    AssetDay(log.block, log.timestamp, row.decimals, Get(Rows(t.tokenBalances, id), a), row.iouSupply,
             LegGross(t, id, a), LegDebt(t, id, a))
  }

  function AssetDays(t: Ledger, id: Id, log: Log): map<Addr, AssetDay> {
    var was := Rows(t.assetHistory, DayKey(id, Day(log.timestamp)));
    map a | a in Rows(t.assets, id).Keys + was.Keys ::
      if a in Rows(t.assets, id) && (a !in was || was[a].block <= log.block)
      then AssetDayOf(t, id, a, log)
      else was[a]
  }

  /** Upserts one row of the day per asset of the reserve, under the same block guard. */
  function SnapshotAssets(t: Ledger, id: Id, log: Log): map<DayKey, map<Addr, AssetDay>> {
    t.assetHistory[DayKey(id, Day(log.timestamp)) := AssetDays(t, id, log)]
  }

  /** Both snapshot statements, or None when a division by zero fails them. */
  function Snapshot(t: Ledger, id: Id, log: Log): Option<Ledger> {
    if DividesByZero(t, id) then None
    else Some(t.(valueHistory := SnapshotValue(t, id, log), assetHistory := SnapshotAssets(t, id, log)))
  }
}
