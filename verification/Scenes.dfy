/**
 Small runs of one reserve and its oracle on an empty database, built from the events that bring them about.
 */
module Scenes {
  import opened Addresses
  import opened Delivery
  import opened Effects
  import opened Frames
  import opened History
  import opened Kinds
  import opened Machine
  import opened Options
  import opened Sums
  import opened Tables
  import opened AbiNames
  import opened Valuation
  import Counters
  import DayEnds
  import ViewInputs

  /** A reserve, its oracle and the ABI names their logs carry; everything else is unknown. */
  datatype Setup = Setup(
    chain: nat, kind: ReserveType, reserve: Contract, oracle: Contract, reserveName: string, oracleName: string)

  /** The ABI names classify as what the contracts are, so that nothing has to be configured. */
  predicate Named(s: Setup) {
    s.reserve != s.oracle && Classify(s.reserveName) == ReserveKind(s.kind) && Classify(s.oracleName) == OracleKind
  }

  /** Every kind of setup has such names. */
  lemma NamesExist(s: Setup)
    requires s.reserve != s.oracle
    ensures var name := if s.kind == MetaReserve then "ClearMetaReserve" else "ClearBaseReserve";
            Named(s.(reserveName := name, oracleName := "ClearOracle"))
  {
    hide Classify;
    BaseReserveName();
    MetaReserveName();
    OracleName();
  }

  function Roles(s: Setup): Truth {
    a => if a == s.reserve then ReserveKind(s.kind) else if a == s.oracle then OracleKind else UnknownKind
  }

  function ReserveOf(s: Setup): Id {
    Id(s.chain, s.reserve)
  }

  function Emitted(s: Setup, block: nat, emitter: Contract, e: Event): Log {
    Log(seq(block, i => '.'), s.chain, emitter, if emitter == s.reserve then s.reserveName else s.oracleName,
        block, 0, 0, e, NoAddr)
  }

  function Added(s: Setup, block: nat, token: Addr): Log {
    Emitted(s, block, s.reserve, AssetAdded(token, Some(18), NoAddr, None))
  }

  /** The oracle's price with its 8 decimals: 100_000_000 is par. */
  function Priced(s: Setup, block: nat, token: Addr, price: int): Log {
    Emitted(s, block, s.oracle, RedemptionPriceChanged(token, price))
  }

  function Donated(s: Setup, block: nat, token: Addr, units: int): Log {
    Emitted(s, block, s.reserve, DonationRecognized(token, units))
  }

  // --- the run of a list of logs ---

  function ConfigOf(s: Setup): Config {
    Config(s.chain, [])
  }

  /** The ledger of the exporter after the logs, delivered once each to an empty database without failures. */
  function RunOf(s: Setup, logs: seq<Log>): Ledger {
    Run(Initial(ConfigOf(s)), ConfigOf(s), Clean(logs)).ledger
  }

  /** Log i is in block i + 1, comes from one of the two contracts and discovers nothing. */
  ghost predicate IsScene(s: Setup, logs: seq<Log>) {
    forall i :: 0 <= i < |logs| ==>
      && logs[i] == Emitted(s, i + 1, logs[i].address, logs[i].event)
      && (logs[i].address == s.reserve || logs[i].address == s.oracle)
      && (forall addr, kind :: !Discovers(logs[i], Roles(s)(logs[i].address), addr, kind))
  }

  lemma SceneAgrees(s: Setup, logs: seq<Log>, i: nat)
    requires Named(s) && IsScene(s, logs) && i < |logs|
    ensures Agrees(Roles(s), logs[i])
  {
    hide Discovers, Classify;
    assert logs[i] == Emitted(s, i + 1, logs[i].address, logs[i].event);
  }

  lemma SceneInOrder(s: Setup, logs: seq<Log>)
    requires IsScene(s, logs)
    ensures InOrder(logs) && DistinctIds(logs)
  {
    hide Discovers;
    forall i | 0 <= i < |logs| ensures logs[i].block == i + 1 && logs[i].timestamp == 0 && |logs[i].id| == i + 1 {
      assert logs[i] == Emitted(s, i + 1, logs[i].address, logs[i].event);
    }
  }

  /** The exporter's run over a scene is its replay. */
  lemma SceneRuns(s: Setup, logs: seq<Log>)
    requires Named(s) && IsScene(s, logs) && Replay(Roles(s), EMPTY_LEDGER, logs).Some?
    ensures RunOf(s, logs) == Replay(Roles(s), EMPTY_LEDGER, logs).value
  {
    hide Agrees, Initial, Run, Effective, Replay, IsScene, Ids, Classify;
    SceneInOrder(s, logs);
    forall log | log in logs
      ensures Agrees(Roles(s), log)
    {
      var i :| 0 <= i < |logs| && logs[i] == log;
      SceneAgrees(s, logs, i);
    }
    CleanRunCommitsAll(Roles(s), ConfigOf(s), logs);
    ExactlyOnce(Roles(s), ConfigOf(s), Clean(logs));
  }

  // --- what one log leaves ---

  type Prices = map<Id, Option<int>>

  /** The reserve is the only one indexed. */
  ghost predicate Alone(t: Ledger, id: Id, rt: ReserveType) {
    forall r :: r in t.reserves ==> r == id && t.reserves[r].kind == rt
  }

  /** The reserve's assets, balances and the prices of the chain's oracle. */
  ghost predicate Stands(
    t: Ledger, id: Id, rt: ReserveType, rows: map<Addr, Asset>, balances: map<Addr, int>, prices: Prices)
  {
    && Alone(t, id, rt) && Rows(t.assets, id) == rows && Rows(t.tokenBalances, id) == balances
    && t.redemptionPrices == prices
  }

  lemma ReplayMore(truth: Truth, t: Ledger, logs: seq<Log>, log: Log)
    ensures Replay(truth, t, logs + [log]) ==
            (match Replay(truth, t, logs) case None => None case Some(u) => Apply(u, log, truth(log.address)))
  {
    hide Apply;
    assert (logs + [log])[..|logs|] == logs;
  }

  lemma AddedStands(
    t: Ledger, log: Log, rt: ReserveType, rows: map<Addr, Asset>, balances: map<Addr, int>, prices: Prices)
    requires log.event.AssetAdded? && Stands(t, Emitter(log), rt, rows, balances, prices)
    ensures var r := Apply(t, log, ReserveKind(rt));
            && r.Some? && Stands(r.value, Emitter(log), rt, PutAsset(rows, log.event), balances, prices)
            && Emitter(log) in r.value.reserves
  {
    hide PutAsset, AddAsset, Alone, EnsureReserve, Apply;
    AddedApplies(t, log, rt);
    RegistrationFrame(t, log, rt);
    AloneEnsured(t, AddAsset(t, log, rt), Emitter(log), rt);
  }

  lemma AddedApplies(t: Ledger, log: Log, rt: ReserveType)
    requires log.event.AssetAdded?
    ensures Apply(t, log, ReserveKind(rt)) == Some(AddAsset(t, log, rt))
  {
    hide AddAsset;
  }

  lemma PricedStands(
    t: Ledger, log: Log, id: Id, rt: ReserveType, rows: map<Addr, Asset>, balances: map<Addr, int>, prices: Prices)
    requires log.event.RedemptionPriceChanged? && log.event.asset != NoAddr && Stands(t, id, rt, rows, balances, prices)
    ensures var r := Apply(t, log, OracleKind);
            && r.Some? && r.value.reserves == t.reserves
            && Stands(r.value, id, rt, rows, balances, prices[Id(log.chain, log.event.asset) := Some(log.event.price)])
  {
  }

  lemma DonationRead(t: Ledger, log: Log, rt: ReserveType)
    requires log.event.DonationRecognized? && log.event.asset != NoAddr && log.event.units != 0
    ensures var id, b := Emitter(log), Read(t, log, ReserveKind(rt));
            && Snapshots(t, log, ReserveKind(rt)) == Some(id)
            && b.reserves == EnsureReserve(t.reserves, id, rt)
            && b.assets == t.assets
            && b.tokenBalances == AddBalance(t.tokenBalances, id, log.event.asset, log.event.units)
  {
    hide AddBalance;
    OneFlow(t.tokenBalances, Emitter(log), Flow(log.event.asset, log.event.units));
  }

  /** No asset of the reserve is a reserve itself, so nothing divides by an LP supply. */
  lemma DonationApplies(t: Ledger, log: Log, rt: ReserveType)
    requires log.event.DonationRecognized? && log.event.asset != NoAddr && log.event.units != 0
    requires Alone(t, Emitter(log), rt) && Emitter(log).addr !in Rows(t.assets, Emitter(log))
    ensures Apply(t, log, ReserveKind(rt)).Some?
  {
    hide AddFlows, Flows, SnapshotValue, SnapshotAssets, Counted;
    var id := Emitter(log);
    var b := Moved(t, id, rt, log.event);
    forall a | a in Rows(b.assets, id)
      ensures !LegDividesByZero(b, Id(id.chain, a))
    {
      assert a != id.addr;
    }
  }

  lemma DonatedStands(
    t: Ledger, log: Log, rt: ReserveType, rows: map<Addr, Asset>, balances: map<Addr, int>, prices: Prices)
    requires log.event.DonationRecognized? && log.event.asset != NoAddr && log.event.units != 0
    requires Stands(t, Emitter(log), rt, rows, balances, prices) && Emitter(log).addr !in rows
    ensures var id, r := Emitter(log), Apply(t, log, ReserveKind(rt));
            && r.Some? && Snapshots(t, log, ReserveKind(rt)) == Some(id) && id in Read(t, log, ReserveKind(rt)).reserves
            && Stands(r.value, id, rt, rows,
                      balances[log.event.asset := Get(balances, log.event.asset) + log.event.units], prices)
            && id in r.value.reserves
  {
    hide Apply, Read, Snapshots, DividesByZero, Alone, EnsureReserve, ReadFrame;
    DonationApplies(t, log, rt);
    DonationRead(t, log, rt);
    AloneEnsured(t, Read(t, log, ReserveKind(rt)), Emitter(log), rt);
    DayEnds.SnapshotValuation(t, log, ReserveKind(rt));
    AloneAfter(Read(t, log, ReserveKind(rt)), Apply(t, log, ReserveKind(rt)).value, Emitter(log), rt);
    DonationPrices(t, log, rt);
  }

  lemma AloneEnsured(t: Ledger, b: Ledger, id: Id, rt: ReserveType)
    requires Alone(t, id, rt) && b.reserves == EnsureReserve(t.reserves, id, rt)
    ensures Alone(b, id, rt) && id in b.reserves
  {
  }

  lemma AloneAfter(b: Ledger, r: Ledger, id: Id, rt: ReserveType)
    requires Alone(b, id, rt) && id in b.reserves && ViewInputs.SameValuation(b, r)
    ensures Alone(r, id, rt) && id in r.reserves && r.assets == b.assets && r.tokenBalances == b.tokenBalances
  {
  }

  lemma DonationPrices(t: Ledger, log: Log, rt: ReserveType)
    requires log.event.DonationRecognized? && Apply(t, log, ReserveKind(rt)).Some?
    ensures Apply(t, log, ReserveKind(rt)).value.redemptionPrices == t.redemptionPrices
  {
    hide FlowEvent;
    FlowEventFrame(t, log, rt);
  }

  lemma ReplayOne(truth: Truth, log: Log)
    ensures Replay(truth, EMPTY_LEDGER, [log]) == Apply(EMPTY_LEDGER, log, truth(log.address))
  {
    hide Apply;
    assert [log][..0] == [];
  }

  lemma EmptyStands(id: Id, rt: ReserveType)
    ensures Stands(EMPTY_LEDGER, id, rt, map[], map[], map[])
  {
  }

  function Plain(position: nat): Asset {
    Asset(Some(18), NoAddr, position, 0, None)
  }

  /** An asset of the reserve without an IOU, its balance and its price. */
  ghost predicate Holds(r: Ledger, id: Id, token: Addr, units: int, price: int) {
    && token in Rows(r.assets, id) && (exists i :: Rows(r.assets, id)[token] == Plain(i))
    && Get(Rows(r.tokenBalances, id), token) == units
    && Counters.Lookup(r.redemptionPrices, Id(id.chain, token)) == Some(Some(price))
  }

  /** What the histories of an ordered run say before its log n. */
  lemma ReadyFor(truth: Truth, logs: seq<Log>, n: nat)
    requires n < |logs| && InOrder(logs) && Replay(truth, EMPTY_LEDGER, logs[..n]).Some?
    ensures var t := Replay(truth, EMPTY_LEDGER, logs[..n]).value;
            Before(t, logs[n]) && DaysRegistered(t) && OfReserves(t)
  {
    hide Apply, Replay, Before, AllStamped, PartsAgree, DaysRegistered, OfReserves, Day;
    PrefixInOrder(logs, n);
    PartsAlwaysAgree(truth, logs[..n]);
    StampedBefore(Replay(truth, EMPTY_LEDGER, logs[..n]).value, logs, n);
  }
}
