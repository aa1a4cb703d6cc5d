/**
 Two runs of a base reserve whose tokens are off par, as the events bring them about: one in which the stored
 histories disagree, and one in which they agree although neither token is at par.
 */
module Depegs {
  import opened Addresses
  import opened Delivery
  import opened Effects
  import opened History
  import opened Kinds
  import opened Options
  import opened Parity
  import opened Scenes
  import opened Sums
  import opened Tables
  import opened Valuation

  // --- one token at half of par ---

  predicate Single(s: Setup, token: Addr) {
    Named(s) && s.kind == BaseReserve && token != NoAddr && token != s.reserve
  }

  /** The token is registered, priced at 0.5, and two units of it are donated. */
  function HalfPriced(s: Setup, token: Addr): seq<Log> {
    [Added(s, 1, token)] + [Priced(s, 2, token, 50_000_000)] + [Donated(s, 3, token, 2)]
  }

  /** The ledger before the donation. */
  lemma HalfPricedStands(s: Setup, token: Addr)
    requires Single(s, token)
    ensures var u := Replay(Roles(s), EMPTY_LEDGER, HalfPriced(s, token)[..2]);
            u.Some? && Stands(u.value, ReserveOf(s), BaseReserve, map[token := Plain(0)], map[],
              map[Id(s.chain, token) := Some(50_000_000)])
  {
    hide Apply, Stands, Replay, Classify;
    var added, priced := Added(s, 1, token), Priced(s, 2, token, 50_000_000);
    var empty: map<Addr, Asset> := map[];
    assert HalfPriced(s, token)[..2] == [added] + [priced];
    EmptyStands(ReserveOf(s), BaseReserve);
    ReplayOne(Roles(s), added);
    AddedStands(EMPTY_LEDGER, added, BaseReserve, empty, map[], map[]);
    assert PutAsset(empty, added.event) == map[token := Plain(0)];
    var t := Apply(EMPTY_LEDGER, added, BaseReserveKind).value;
    ReplayMore(Roles(s), EMPTY_LEDGER, [added], priced);
    PricedStands(t, priced, ReserveOf(s), BaseReserve, map[token := Plain(0)], map[], map[]);
  }

  lemma HalfPricedScene(s: Setup, token: Addr)
    requires Single(s, token)
    ensures IsScene(s, HalfPriced(s, token))
  {
    hide Classify;
  }

  /** At half of par the stored histories of a base reserve disagree: two units are 2 in the aggregate and 1 in
      the parts. */
  lemma HalfPricedDisagrees(s: Setup, token: Addr)
    requires Single(s, token)
    ensures var r, id := RunOf(s, HalfPriced(s, token)), ReserveOf(s);
            IsBase(r, id) && 0 in Rows(r.valueHistory, id) && !StoredAgree(r, id, 0)
  {
    hide Apply, Replay, StoredAgree, Read, Snapshots, Before, DaysRegistered, InOrder, IsScene, RunOf, Classify;
    var logs, id := HalfPriced(s, token), ReserveOf(s);
    var donated, rows := Donated(s, 3, token, 2), map[token := Plain(0)];
    var prices := map[Id(s.chain, token) := Some(50_000_000)];
    HalfPricedStands(s, token);
    var t := Replay(Roles(s), EMPTY_LEDGER, logs[..2]).value;
    DonatedStands(t, donated, BaseReserve, rows, map[], prices);
    assert logs == logs[..2] + [donated];
    ReplayMore(Roles(s), EMPTY_LEDGER, logs[..2], donated);
    HalfPricedScene(s, token);
    SceneInOrder(s, logs);
    ReadyFor(Roles(s), logs, 2);
    var r := Apply(t, donated, BaseReserveKind).value;
    StoredRows(t, donated, BaseReserveKind, id);
    HalfOff(r, id, token);
    StoredAgreeIffAtPar(t, donated, BaseReserveKind, id);
    SceneRuns(s, logs);
  }

  lemma Figures(r: Ledger, id: Id, token: Addr, units: int, price: int)
    requires Alone(r, id, BaseReserve) && Holds(r, id, token, units, price) && token != id.addr
    ensures !IsBase(r, Id(id.chain, token)) && Price(r, Id(id.chain, token)) == price * ORACLE_PRICE_SCALE
    ensures Held(r, id, token) == units && OwedAtPar(r, id, token) == 0
    ensures HeldDrift(r, id, token) == TruncDiv(units * (price * ORACLE_PRICE_SCALE), ONE) - units
            && OwedDrift(r, id, token) == 0
  {
    hide TruncDiv;
    assert Scale(Some(18)) == 1;
    ZeroQuotient();
    assert units * 1 == units && 0 * 1 * (price * ORACLE_PRICE_SCALE) == 0;
  }

  lemma HalfHeld(r: Ledger, id: Id, token: Addr)
    requires Stands(r, id, BaseReserve, map[token := Plain(0)], map[token := 2],
                    map[Id(id.chain, token) := Some(50_000_000)])
    ensures Alone(r, id, BaseReserve) && Holds(r, id, token, 2, 50_000_000) && Rows(r.assets, id).Keys == {token}
  {
    assert Rows(r.assets, id)[token] == Plain(0);
  }

  /** Two units at half of par do not round to par. */
  lemma HalfOff(r: Ledger, id: Id, token: Addr)
    requires Stands(r, id, BaseReserve, map[token := Plain(0)], map[token := 2],
                    map[Id(id.chain, token) := Some(50_000_000)])
    requires id in r.reserves && token != id.addr
    ensures IsBase(r, id) && TokensOnly(r, id) && OneSided(r, id) && !AllRoundToPar(r, id)
  {
    hide Stands, Held, OwedAtPar, Price, Holds;
    HalfHeld(r, id, token);
    Figures(r, id, token, 2, 50_000_000);
    assert Held(r, id, token) * Premium(r, id, token) <= 0;
    assert !RoundsToPar(2, 50_000_000 * ORACLE_PRICE_SCALE);
    assert token in Rows(r.assets, id);
  }

  // --- two tokens, one below and one above par ---

  /** Both tokens are registered, priced at 0.5 and at 1.5, and two units of each are donated. */
  function Cancelling(s: Setup, low: Addr, high: Addr): seq<Log> {
    [Added(s, 1, low)] + [Added(s, 2, high)] + [Priced(s, 3, low, 50_000_000)] + [Priced(s, 4, high, 150_000_000)]
    + [Donated(s, 5, low, 2)] + [Donated(s, 6, high, 2)]
  }

  function BothRows(low: Addr, high: Addr): map<Addr, Asset> {
    map[low := Plain(0), high := Plain(1)]
  }

  function BothPrices(s: Setup, low: Addr, high: Addr): map<Id, Option<int>> {
    map[Id(s.chain, low) := Some(50_000_000), Id(s.chain, high) := Some(150_000_000)]
  }

  predicate Apart(s: Setup, low: Addr, high: Addr) {
    && Named(s) && s.kind == BaseReserve
    && low != high && low != NoAddr && high != NoAddr && low != s.reserve && high != s.reserve
  }

  lemma BothAdded(s: Setup, low: Addr, high: Addr)
    requires Apart(s, low, high)
    ensures var u := Replay(Roles(s), EMPTY_LEDGER, [Added(s, 1, low)] + [Added(s, 2, high)]);
            u.Some? && Stands(u.value, ReserveOf(s), BaseReserve, BothRows(low, high), map[], map[])
  {
    hide Apply, Stands, Replay, Classify;
    var first, second := Added(s, 1, low), Added(s, 2, high);
    var empty: map<Addr, Asset> := map[];
    EmptyStands(ReserveOf(s), BaseReserve);
    ReplayOne(Roles(s), first);
    AddedStands(EMPTY_LEDGER, first, BaseReserve, empty, map[], map[]);
    var one := PutAsset(empty, first.event);
    assert one == map[low := Plain(0)];
    var t := Apply(EMPTY_LEDGER, first, BaseReserveKind).value;
    ReplayMore(Roles(s), EMPTY_LEDGER, [first], second);
    AddedStands(t, second, BaseReserve, one, map[], map[]);
    assert PutAsset(one, second.event) == BothRows(low, high);
  }

  /** Two logs of the oracle. */
  lemma BothPriced(s: Setup, low: Addr, high: Addr)
    requires Apart(s, low, high)
    ensures var logs := Cancelling(s, low, high)[..4];
            var u := Replay(Roles(s), EMPTY_LEDGER, logs);
            u.Some? && Stands(u.value, ReserveOf(s), BaseReserve, BothRows(low, high), map[], BothPrices(s, low, high))
  {
    hide Apply, Stands, Replay, Classify;
    var added := [Added(s, 1, low)] + [Added(s, 2, high)];
    var third, fourth := Priced(s, 3, low, 50_000_000), Priced(s, 4, high, 150_000_000);
    assert Cancelling(s, low, high)[..4] == added + [third] + [fourth];
    BothAdded(s, low, high);
    ReplayMore(Roles(s), EMPTY_LEDGER, added, third);
    ReplayMore(Roles(s), EMPTY_LEDGER, added + [third], fourth);
    var t := Replay(Roles(s), EMPTY_LEDGER, added).value;
    PricedStands(t, third, ReserveOf(s), BaseReserve, BothRows(low, high), map[], map[]);
    var u := Apply(t, third, OracleKind).value;
    PricedStands(u, fourth, ReserveOf(s), BaseReserve, BothRows(low, high), map[],
                 map[Id(s.chain, low) := Some(50_000_000)]);
  }

  lemma FirstDonated(s: Setup, low: Addr, high: Addr)
    requires Apart(s, low, high)
    ensures var u := Replay(Roles(s), EMPTY_LEDGER, Cancelling(s, low, high)[..5]);
            && u.Some?
            && Stands(u.value, ReserveOf(s), BaseReserve, BothRows(low, high), map[low := 2], BothPrices(s, low, high))
  {
    hide Apply, Stands, Replay, Snapshots, Read, Classify;
    var logs := Cancelling(s, low, high);
    BothPriced(s, low, high);
    assert logs[..5] == logs[..4] + [Donated(s, 5, low, 2)];
    ReplayMore(Roles(s), EMPTY_LEDGER, logs[..4], Donated(s, 5, low, 2));
    var t := Replay(Roles(s), EMPTY_LEDGER, logs[..4]).value;
    DonatedStands(t, Donated(s, 5, low, 2), BaseReserve, BothRows(low, high), map[], BothPrices(s, low, high));
  }

  lemma CancellingScene(s: Setup, low: Addr, high: Addr)
    requires Apart(s, low, high)
    ensures IsScene(s, Cancelling(s, low, high))
  {
    hide Classify;
  }

  lemma BothHeld(r: Ledger, id: Id, s: Setup, low: Addr, high: Addr)
    requires Apart(s, low, high) && id == ReserveOf(s)
    requires Stands(r, id, BaseReserve, BothRows(low, high), map[low := 2, high := 2], BothPrices(s, low, high))
    ensures Alone(r, id, BaseReserve) && Holds(r, id, low, 2, 50_000_000) && Holds(r, id, high, 2, 150_000_000)
    ensures Rows(r.assets, id).Keys == {low, high}
  {
    assert Rows(r.assets, id)[low] == Plain(0) && Rows(r.assets, id)[high] == Plain(1);
  }

  lemma SumOfTwo(f: Addr -> int, x: Addr, y: Addr)
    requires x != y
    ensures Sum({x, y}, f) == f(x) + f(y)
  {
    SumTakeOut({x, y}, f, x);
    assert {x, y} - {x} == {y};
    SumTakeOut({y}, f, y);
    assert {y} - {y} == {};
  }

  /** One unit lost on the low token is gained on the high one. */
  lemma DriftsCancel(r: Ledger, id: Id, s: Setup, low: Addr, high: Addr)
    requires Apart(s, low, high) && id == ReserveOf(s) && id in r.reserves
    requires Stands(r, id, BaseReserve, BothRows(low, high), map[low := 2, high := 2], BothPrices(s, low, high))
    ensures IsBase(r, id) && TokensOnly(r, id) && !AllRoundToPar(r, id)
    ensures Sum(Rows(r.assets, id).Keys, a => HeldDrift(r, id, a)) == 0
    ensures Sum(Rows(r.assets, id).Keys, a => OwedDrift(r, id, a)) == 0
  {
    hide Stands, Held, OwedAtPar, Price, Holds, HeldDrift, OwedDrift, Sum;
    BothHeld(r, id, s, low, high);
    Figures(r, id, low, 2, 50_000_000);
    Figures(r, id, high, 2, 150_000_000);
    SumOfTwo(a => HeldDrift(r, id, a), low, high);
    SumOfTwo(a => OwedDrift(r, id, a), low, high);
    assert low in Rows(r.assets, id) && !RoundsToPar(2, 50_000_000 * ORACLE_PRICE_SCALE);
  }

  /** Where prices pull both ways, agreement does not mean par: the stored histories agree although neither
      token rounds to par, so the one-sided hypothesis of the equivalence cannot be dropped. */
  lemma CancellingAgrees(s: Setup, low: Addr, high: Addr)
    requires Apart(s, low, high)
    ensures var r, id := RunOf(s, Cancelling(s, low, high)), ReserveOf(s);
            IsBase(r, id) && TokensOnly(r, id) && StoredAgree(r, id, 0) && !AllRoundToPar(r, id)
  {
    hide Apply, Replay, Read, Snapshots, Before, DaysRegistered, InOrder, IsScene, RunOf, Classify, SumsParts,
         ValueRowOf, AssetDays, HeldDrift, OwedDrift, Sum, AllRoundToPar, TokensOnly, Stands, IsBase;
    var logs, id, last := Cancelling(s, low, high), ReserveOf(s), Donated(s, 6, high, 2);
    FirstDonated(s, low, high);
    var t := Replay(Roles(s), EMPTY_LEDGER, logs[..5]).value;
    DonatedStands(t, last, BaseReserve, BothRows(low, high), map[low := 2], BothPrices(s, low, high));
    assert logs == logs[..5] + [last];
    ReplayMore(Roles(s), EMPTY_LEDGER, logs[..5], last);
    CancellingScene(s, low, high);
    SceneInOrder(s, logs);
    ReadyFor(Roles(s), logs, 5);
    var r := Apply(t, last, BaseReserveKind).value;
    assert map[low := 2][high := 2] == map[low := 2, high := 2];
    DriftsCancel(r, id, s, low, high);
    StoredRows(t, last, BaseReserveKind, id);
    StoredAgreeIffCancel(t, last, BaseReserveKind, id);
    SceneRuns(s, logs);
  }
}
