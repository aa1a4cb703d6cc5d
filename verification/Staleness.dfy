/**
 Two runs after which a stored row is stale: an LP mint leaves the newest row's total_supply behind, and an
 oracle move leaves a meta reserve's newest valuation behind.
 */
module Staleness {
  import opened Addresses
  import opened Coherence
  import opened Delivery
  import opened Effects
  import opened Frames
  import opened Freshness
  import opened History
  import opened Kinds
  import opened Options
  import opened Parity
  import opened Scenes
  import opened SupplyColumn
  import opened Sums
  import opened Tables
  import opened Valuation

  predicate Usable(s: Setup, token: Addr) {
    Named(s) && token != NoAddr && token != s.reserve
  }

  /** The token is registered and two units of it are donated, which snapshots the reserve. */
  function Stocked(s: Setup, token: Addr): seq<Log> {
    [Added(s, 1, token)] + [Donated(s, 2, token, 2)]
  }

  /** The ledger after that, and what the snapshot left. */
  lemma StockedStands(s: Setup, token: Addr, logs: seq<Log>)
    requires Usable(s, token) && |logs| >= 2 && logs[..2] == Stocked(s, token) && IsScene(s, logs)
    ensures var u, id := Replay(Roles(s), EMPTY_LEDGER, logs[..2]), ReserveOf(s);
            && u.Some? && Stands(u.value, id, s.kind, map[token := Plain(0)], map[token := 2], map[])
            && id in u.value.reserves && HasRows(u.value, id) && Current(u.value, id) && SupplyAt(u.value, id)
  {
    hide Apply, Stands, Replay, Classify, Snapshots, Read, IsScene, Current, SupplyAt, HasRows, Before, DaysRegistered,
         OfReserves, InOrder;
    var added, donated, id := Added(s, 1, token), Donated(s, 2, token, 2), ReserveOf(s);
    var empty: map<Addr, Asset> := map[];
    EmptyStands(id, s.kind);
    ReplayOne(Roles(s), added);
    AddedStands(EMPTY_LEDGER, added, s.kind, empty, map[], map[]);
    assert PutAsset(empty, added.event) == map[token := Plain(0)];
    var k := ReserveKind(s.kind);
    var t := Apply(EMPTY_LEDGER, added, k).value;
    DonatedStands(t, donated, s.kind, map[token := Plain(0)], map[], map[]);
    ReplayMore(Roles(s), EMPTY_LEDGER, [added], donated);
    assert logs[..1] == logs[..2][..1] == [added] && logs[1] == logs[..2][1] == donated;
    SceneInOrder(s, logs);
    ReadyFor(Roles(s), logs, 1);
    StoredRows(t, donated, k, id);
    RowMeansRows(Apply(t, donated, k).value, id, Day(0));
    SnapshotIsCurrent(t, donated, k);
    TakenSupplyAt(t, donated, k);
  }

  lemma RowMeansRows(t: Ledger, id: Id, d: nat)
    requires d in Rows(t.valueHistory, id)
    ensures HasRows(t, id)
  {
  }

  // --- total_supply ---

  function LpMinted(s: Setup, block: nat, holder: Addr, units: int): Log {
    Emitted(s, block, s.reserve, Transfer(ZERO_ADDRESS, holder, Some(units)))
  }

  function MintAfterSnapshot(s: Setup, token: Addr, holder: Addr): seq<Log> {
    Stocked(s, token) + [LpMinted(s, 3, holder, 5)]
  }

  lemma MintScene(s: Setup, token: Addr, holder: Addr)
    requires Usable(s, token)
    ensures IsScene(s, MintAfterSnapshot(s, token, holder))
  {
    hide Classify;
  }

  lemma MintApplies(t: Ledger, log: Log, rt: ReserveType)
    requires IsTransfer(log.event)
    ensures Apply(t, log, ReserveKind(rt)).Some? && Snapshots(t, log, ReserveKind(rt)).None?
  {
    hide ReserveTransfer;
  }

  /** After an LP mint of 5 the reserve's newest row stores a total_supply that is not its LP supply. */
  lemma MintLeavesSupplyBehind(s: Setup, token: Addr, holder: Addr)
    requires Usable(s, token)
    ensures var r := RunOf(s, MintAfterSnapshot(s, token, holder));
            HasRows(r, ReserveOf(s)) && !SupplyAt(r, ReserveOf(s))
  {
    hide Apply, Stands, Replay, Classify, Snapshots, IsScene, Current, SupplyAt, Rows, RunOf;
    var logs, id, mint := MintAfterSnapshot(s, token, holder), ReserveOf(s), LpMinted(s, 3, holder, 5);
    var k := ReserveKind(s.kind);
    assert logs[..2] == Stocked(s, token);
    MintScene(s, token, holder);
    StockedStands(s, token, logs);
    var t := Replay(Roles(s), EMPTY_LEDGER, logs[..2]).value;
    ReplayMore(Roles(s), EMPTY_LEDGER, logs[..2], mint);
    MintApplies(t, mint, s.kind);
    RowsElsewhere(t, mint, k, id);
    ReservesFrame(t, mint, k);
    assert LpChange(mint, k) == 5;
    MovedSupplyAt(t, Apply(t, mint, k).value, id);
    SceneRuns(s, logs);
  }

  // --- a meta reserve's valuation ---

  function PriceAfterSnapshot(s: Setup, token: Addr): seq<Log> {
    Stocked(s, token) + [Priced(s, 3, token, 50_000_000)]
  }

  lemma PriceScene(s: Setup, token: Addr)
    requires Usable(s, token)
    ensures IsScene(s, PriceAfterSnapshot(s, token))
  {
    hide Classify;
  }

  lemma PriceTakesNoSnapshot(t: Ledger, log: Log)
    ensures Snapshots(t, log, OracleKind).None?
  {
  }

  /** Two units of the one asset of a meta reserve. */
  lemma TwoUnits(t: Ledger, id: Id, token: Addr, prices: Prices)
    requires Stands(t, id, MetaReserve, map[token := Plain(0)], map[token := 2], prices) && id in t.reserves
    requires token != id.addr
    ensures ReserveValue(t, id).gross == TruncDiv(2 * Price(t, Id(id.chain, token)), ONE)
  {
    hide TruncDiv, Price, Max0;
    assert Scale(Some(18)) == 1;
    var keys := Rows(t.assets, id).Keys;
    assert keys == {token};
    SumTakeOut(keys, a => LegGross(t, id, a), token);
    assert keys - {token} == {};
  }

  lemma HalvedPrice(t: Ledger, r: Ledger, asset: Id)
    requires t.redemptionPrices == map[] && r.redemptionPrices == map[asset := Some(50_000_000)]
    ensures TruncDiv(2 * Price(t, asset), ONE) == 2 && TruncDiv(2 * Price(r, asset), ONE) == 1
  {
  }

  /** After the oracle halves the price of its asset a meta reserve's newest row is not what the view shows. */
  lemma PriceLeavesMetaBehind(s: Setup, token: Addr)
    requires Usable(s, token) && s.kind == MetaReserve
    ensures var r := RunOf(s, PriceAfterSnapshot(s, token));
            HasRows(r, ReserveOf(s)) && !Current(r, ReserveOf(s))
  {
    hide Apply, Stands, Replay, Classify, Snapshots, IsScene, Current, SupplyAt, Rows, RunOf, ReserveValue,
         Price, TruncDiv;
    var logs, id, priced := PriceAfterSnapshot(s, token), ReserveOf(s), Priced(s, 3, token, 50_000_000);
    assert logs[..2] == Stocked(s, token);
    PriceScene(s, token);
    StockedStands(s, token, logs);
    var t := Replay(Roles(s), EMPTY_LEDGER, logs[..2]).value;
    ReplayMore(Roles(s), EMPTY_LEDGER, logs[..2], priced);
    PricedStands(t, priced, id, MetaReserve, map[token := Plain(0)], map[token := 2], map[]);
    var r := Apply(t, priced, OracleKind).value;
    PriceTakesNoSnapshot(t, priced);
    RowsElsewhere(t, priced, OracleKind, id);
    TwoUnits(t, id, token, map[]);
    TwoUnits(r, id, token, map[Id(s.chain, token) := Some(50_000_000)]);
    assert t.redemptionPrices == map[] && r.redemptionPrices == map[Id(s.chain, token) := Some(50_000_000)] by {
      StandsPrices(t, id, map[token := 2], map[], token);
      StandsPrices(r, id, map[token := 2], map[Id(s.chain, token) := Some(50_000_000)], token);
    }
    HalvedPrice(t, r, Id(s.chain, token));
    PassedRow(t, r, id);
    SceneRuns(s, logs);
  }

  lemma StandsPrices(t: Ledger, id: Id, balances: map<Addr, int>, prices: Prices, token: Addr)
    requires Stands(t, id, MetaReserve, map[token := Plain(0)], balances, prices)
    ensures t.redemptionPrices == prices
  {
  }
}
