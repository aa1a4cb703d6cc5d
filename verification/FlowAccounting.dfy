/**
 Flow accounting: a reserve's stored token balances are the signed sums of the flows its events
 declare, whatever order the events are processed in (handlers.go: applyReserveAmounts,
 applyMetaAmounts and the flow handlers; db.go: adjustTokenBalance).
 */
module FlowAccounting {
  import opened Addresses
  import opened Effects
  import opened Frames
  import opened Kinds
  import opened Machine
  import opened Options
  import opened Sums
  import opened Tables
  import opened Valuation
  import opened Delivery

  /** The stored holding of an asset; a missing row reads as 0. */
  function Balance(t: Ledger, id: Id, a: Addr): int {
    Get(Rows(t.tokenBalances, id), a)
  }

  /** What a list of flows books on one address. */
  function Booked(flows: seq<Flow>, a: Addr): int {
    if flows == [] then 0
    else
      var last := flows[|flows| - 1];
      Booked(flows[..|flows| - 1], a) + (if last.who == a then last.amount else 0)
  }

  lemma {:induction false} AddFlowsBooks(table: map<Id, map<Addr, int>>, id: Id, flows: seq<Flow>, other: Id, a: Addr)
    ensures Get(Rows(AddFlows(table, id, flows), other), a) ==
            Get(Rows(table, other), a) + (if other == id && a != NoAddr then Booked(flows, a) else 0)
  {
    if flows != [] {
      AddFlowsBooks(table, id, flows[..|flows| - 1], other, a);
    }
  }

  // --- the layout flows are routed by ---

  /** The same assets at the same positions. */
  ghost predicate SamePlaces(rows: map<Addr, Asset>, after: map<Addr, Asset>) {
    rows.Keys == after.Keys && forall a :: a in rows ==> after[a].position == rows[a].position
  }

  /** The contract is an asset of some reserve on its chain; an unregistered position reads as NoAddr. */
  ghost predicate IsLeg(t: Ledger, leg: Id) {
    leg.addr == NoAddr || exists id: Id :: id.chain == leg.chain && leg.addr in Rows(t.assets, id)
  }

  /** The same positions, and the same legs are base reserves. */
  ghost predicate SameLayout(t: Ledger, u: Ledger) {
    && (forall id :: SamePlaces(Rows(t.assets, id), Rows(u.assets, id)))
    && (forall leg :: IsLeg(t, leg) ==> IsBase(t, leg) == IsBase(u, leg))
  }

  /** The reserve a log may add a row for. */
  function Opened(log: Log, k: Kind): Option<Id> {
    if IsReserveKind(k) then Some(Emitter(log))
    else if k.FactoryKind? && log.event.NewClearReserve? && Proper(log.event.reserve)
    then Some(Id(log.chain, log.event.reserve))
    else None
  }

  /** The log registers no asset and, if it opens a reserve, that reserve is no leg or is known already. */
  ghost predicate Settled(t: Ledger, log: Log, k: Kind) {
    && !(IsReserveKind(k) && log.event.AssetAdded?)
    && (Opened(log, k).Some? ==> Opened(log, k).value in t.reserves || !IsLeg(t, Opened(log, k).value))
  }

  lemma PlacesFix(rows: map<Addr, Asset>, after: map<Addr, Asset>)
    requires SamePlaces(rows, after)
    ensures |rows| == |after|
    ensures forall i: nat :: AssetAt(rows, i) == AssetAt(after, i)
    ensures Ordered(rows) == Ordered(after)
  {
    assert |rows| == |rows.Keys| == |after.Keys| == |after|;
    forall i: nat
      ensures AssetAt(rows, i) == AssetAt(after, i)
    {
      assert (set a | a in rows && rows[a].position == i) == (set a | a in after && after[a].position == i);
    }
  }

  lemma AssetAtIsLeg(t: Ledger, id: Id, i: nat)
    ensures IsLeg(t, Id(id.chain, AssetAt(Rows(t.assets, id), i)))
  {
  }

  lemma {:induction false} LastBaseFix(t: Ledger, u: Ledger, chain: nat, ordered: seq<Addr>)
    requires forall a :: a in ordered ==> IsBase(t, Id(chain, a)) == IsBase(u, Id(chain, a))
    ensures LastBase(t, chain, ordered) == LastBase(u, chain, ordered)
  {
    hide IsBase;
    if ordered != [] {
      LastBaseFix(t, u, chain, ordered[..|ordered| - 1]);
    }
  }

  lemma LegsFix(t: Ledger, u: Ledger, id: Id)
    requires SameLayout(t, u)
    ensures MetaLegs(t, id) == MetaLegs(u, id)
  {
    hide IsLeg, IsBase, SamePlaces, AssetAt, LastBase, FirstOther;
    var ordered := Ordered(Rows(t.assets, id));
    PlacesFix(Rows(t.assets, id), Rows(u.assets, id));
    forall a | a in ordered
      ensures IsBase(t, Id(id.chain, a)) == IsBase(u, Id(id.chain, a))
    {
      var i :| 0 <= i < |ordered| && ordered[i] == a;
      AssetAtIsLeg(t, id, i);
    }
    LastBaseFix(t, u, id.chain, ordered);
  }

  lemma BalancedFix(t: Ledger, u: Ledger, id: Id, rt: ReserveType, amounts: ArrayArg<int>, native: int,
      baseLp: int, sign: int)
    requires SameLayout(t, u)
    ensures Balanced(t, id, rt, amounts, native, baseLp, sign) == Balanced(u, id, rt, amounts, native, baseLp, sign)
  {
    hide IsLeg, IsBase, SamePlaces, AssetAt, MetaLegs;
    LegsFix(t, u, id);
    PlacesFix(Rows(t.assets, id), Rows(u.assets, id));
  }

  /** Flows are a function of the event and the layout. */
  lemma FlowsFix(t: Ledger, u: Ledger, id: Id, rt: ReserveType, e: Event)
    requires SameLayout(t, u)
    ensures Flows(t, id, rt, e) == Flows(u, id, rt, e)
  {
    hide SameLayout, Balanced;
    if e.Deposit? {
      BalancedFix(t, u, id, rt, e.amounts, e.nativeIn, e.baseLpIn, 1);
    } else if e.Withdraw? {
      BalancedFix(t, u, id, rt, e.amounts, e.nativeOut, e.baseLpOut, -1);
    }
  }

  // --- what a settled log leaves alone ---

  /** Rows are only added for the opened reserve. */
  ghost predicate OpensOnly(before: map<Id, Reserve>, after: map<Id, Reserve>, target: Option<Id>) {
    forall id :: id in after ==> id in before || target == Some(id)
  }

  lemma FlowOpens(t: Ledger, log: Log, rt: ReserveType)
    requires FlowEvent(t, log, rt).Some?
    ensures OpensOnly(t.reserves, FlowEvent(t, log, rt).value.reserves, Some(Emitter(log)))
  {
    hide SnapshotValue, SnapshotAssets, DividesByZero, AddFlows, Flows, Counted, ReserveRow;
  }

  lemma ReserveOpens(t: Ledger, log: Log, rt: ReserveType)
    requires ApplyReserve(t, log, rt).Some?
    ensures OpensOnly(t.reserves, ApplyReserve(t, log, rt).value.reserves, Some(Emitter(log)))
  {
    hide FlowEvent, AddAsset, UpdateSetting, ReserveTransfer, PutAsset, ReserveRow;
    RegistrationFrame(t, log, rt);
    if IsFlowEvent(log.event) {
      FlowOpens(t, log, rt);
    } else if IsTransfer(log.event) {
      ReserveTransferFrame(t, log, rt, log.event.from, log.event.to, log.event.value.value);
    }
  }

  lemma OpensFrame(t: Ledger, log: Log, k: Kind)
    requires Apply(t, log, k).Some?
    ensures OpensOnly(t.reserves, Apply(t, log, k).value.reserves, Opened(log, k))
  {
    hide ApplyReserve, ApplyIou, ApplyCurve, ApplyOracle, ApplyDeployer, ApplyCurveFactory, ReserveRow;
    if IsReserveKind(k) {
      ReserveOpens(t, log, TypeOf(k));
    } else if k.IouKind? {
      IouFrame(t, log);
    } else if !k.FactoryKind? {
      NonFactoryFrame(t, log, k);
    }
  }

  lemma MirrorRowsPlaces(assets: map<Id, map<Addr, Asset>>, iou: Id, delta: int, id: Id)
    ensures SamePlaces(Rows(assets, id), Rows(MirrorSupply(assets, iou, delta), id))
  {
  }

  lemma SettledKeepsPlaces(t: Ledger, log: Log, k: Kind)
    requires Settled(t, log, k) && Apply(t, log, k).Some?
    ensures forall id :: SamePlaces(Rows(t.assets, id), Rows(Apply(t, log, k).value.assets, id))
  {
    hide Apply, IsLeg, MirrorSupply, PutAsset;
    RegistryFrame(t, log, k);
    if k.IouKind? && IsSupplyTransfer(log.event) {
      var delta := SupplyChange(log.event.from, log.event.to, log.event.value.value);
      forall id { MirrorRowsPlaces(t.assets, Emitter(log), delta, id); }
    }
  }

  lemma SettledKeepsBases(t: Ledger, log: Log, k: Kind, leg: Id)
    requires Settled(t, log, k) && Apply(t, log, k).Some? && IsLeg(t, leg)
    ensures IsBase(t, leg) == IsBase(Apply(t, log, k).value, leg)
  {
    hide Apply, IsLeg;
    ReservesFrame(t, log, k);
    OpensFrame(t, log, k);
  }

  lemma SettledKeepsLayout(t: Ledger, log: Log, k: Kind)
    requires Settled(t, log, k) && Apply(t, log, k).Some?
    ensures SameLayout(t, Apply(t, log, k).value)
  {
    hide Apply, IsLeg, SamePlaces, IsBase, Settled;
    SettledKeepsPlaces(t, log, k);
    forall leg | IsLeg(t, leg)
      ensures IsBase(t, leg) == IsBase(Apply(t, log, k).value, leg)
    {
      SettledKeepsBases(t, log, k, leg);
    }
  }

  lemma SameLegs(t: Ledger, u: Ledger, leg: Id)
    requires forall id :: SamePlaces(Rows(t.assets, id), Rows(u.assets, id))
    ensures IsLeg(t, leg) <==> IsLeg(u, leg)
  {
    forall id
      ensures leg.addr in Rows(t.assets, id) <==> leg.addr in Rows(u.assets, id)
    {
      assert SamePlaces(Rows(t.assets, id), Rows(u.assets, id));
    }
  }

  lemma LayoutTwice(t: Ledger, u: Ledger, v: Ledger)
    requires SameLayout(t, u) && SameLayout(u, v)
    ensures SameLayout(t, v)
  {
    hide IsLeg, IsBase;
    forall leg | IsLeg(t, leg) ensures IsBase(t, leg) == IsBase(v, leg) { SameLegs(t, u, leg); }
    forall id ensures SamePlaces(Rows(t.assets, id), Rows(v.assets, id)) {
      assert SamePlaces(Rows(t.assets, id), Rows(u.assets, id));
      assert SamePlaces(Rows(u.assets, id), Rows(v.assets, id));
    }
  }

  lemma LayoutSame(t: Ledger)
    ensures SameLayout(t, t)
  {
  }

  lemma StaysSettled(t: Ledger, u: Ledger, log: Log, k: Kind)
    requires Settled(t, log, k) && SameLayout(t, u) && (forall id :: id in t.reserves ==> id in u.reserves)
    ensures Settled(u, log, k)
  {
    hide IsLeg, IsBase, SamePlaces;
    if Opened(log, k).Some? {
      SameLegs(t, u, Opened(log, k).value);
    }
  }

  // --- sums over a list of logs ---

  /** The amounts of a base reserve's balanced event that are routed to an asset. */
  function AmountsOn(rows: map<Addr, Asset>, amounts: seq<int>, a: Addr): int {
    if amounts == [] then 0
    else
      var n := |amounts| - 1;
      AmountsOn(rows, amounts[..n], a) + (if AssetAt(rows, n) == a then amounts[n] else 0)
  }

  /** What a balanced event says it moves of an asset: amounts[] for a base reserve, the two named amounts,
      each on its leg, for a meta reserve. */
  function BalancedAmount(
    t: Ledger, id: Id, rt: ReserveType, amounts: ArrayArg<int>, native: int, baseLp: int, a: Addr): int
  {
    match rt
    case MetaReserve =>
      (if MetaLegs(t, id).native == a then native else 0) + (if MetaLegs(t, id).baseLp == a then baseLp else 0)
    case BaseReserve => if amounts.Elements? then AmountsOn(Rows(t.assets, id), amounts.elements, a) else 0
  }

  /** What an event says it brings into a reserve of an asset, less what it says it takes out. */
  function Signed(t: Ledger, id: Id, rt: ReserveType, e: Event, a: Addr): int {
    match e
    case Deposit(amounts, nativeIn, baseLpIn, _) => BalancedAmount(t, id, rt, amounts, nativeIn, baseLpIn, a)
    case Withdraw(amounts, nativeOut, baseLpOut, _) => -BalancedAmount(t, id, rt, amounts, nativeOut, baseLpOut, a)
    case SingleAssetDeposit(asset, amountIn, fee, _) => if a == asset then amountIn - fee else 0
    case SingleAssetWithdraw(asset, amountOut, fee, _) => if a == asset then -(amountOut + fee) else 0
    case Rebalanced(tokenIn, amountIn, tokenOut, amountOut) =>
      (if a == tokenIn then amountIn else 0) - (if a == tokenOut then amountOut else 0)
    case Swap(tokenIn, amountIn, tokenOut, amountOut) =>
      (if a == tokenIn then amountIn else 0) - (if a == tokenOut then amountOut else 0)
    case IouMinted(asset, amount) => if a == asset then amount else 0
    case IouRedeemed(asset, amount) => if a == asset then -amount else 0
    case FlashLoan(token, fee) => if a == token then fee else 0
    case DonationRecognized(asset, units) => if a == asset then units else 0
    case _ => 0
  }

  /** What a log declares for one holding, read against the layout of t. */
  function Declared(truth: Truth, t: Ledger, log: Log, id: Id, a: Addr): int {
    var k := truth(log.address);
    if Emitter(log) != id || a == NoAddr then 0
    else if k.BaseReserveKind? then Signed(t, id, BaseReserve, log.event, a)
    else if k.MetaReserveKind? then Signed(t, id, MetaReserve, log.event, a)
    else 0
  }

  /** Positions being dense, an asset's own amount is the one at its position. */
  lemma {:induction false} AmountAtPosition(rows: map<Addr, Asset>, amounts: seq<int>, a: Addr)
    requires Dense(rows) && a != NoAddr
    ensures AmountsOn(rows, amounts, a) ==
            if a in rows && rows[a].position < |amounts| then amounts[rows[a].position] else 0
  {
    hide Dense;
    if amounts != [] {
      var n := |amounts| - 1;
      AmountAtPosition(rows, amounts[..n], a);
      AssetAtIff(rows, n, a);
    }
  }

  lemma AssetAtIff(rows: map<Addr, Asset>, i: nat, a: Addr)
    requires Dense(rows) && a != NoAddr
    ensures AssetAt(rows, i) == a <==> a in rows && rows[a].position == i
  {
    if a in rows && rows[a].position == i {
      assert (set b | b in rows && rows[b].position == i) == {a};
    }
  }

  lemma {:induction false} PositionalSigned(rows: map<Addr, Asset>, amounts: seq<int>, sign: int, a: Addr)
    ensures Booked(Positional(rows, amounts, sign), a) == sign * AmountsOn(rows, amounts, a)
  {
    hide AssetAt;
    if amounts != [] {
      var n := |amounts| - 1;
      PositionalSigned(rows, amounts[..n], sign, a);
      assert Positional(rows, amounts, sign)[..n] == Positional(rows, amounts[..n], sign);
      Distribute(sign, AmountsOn(rows, amounts[..n], a), if AssetAt(rows, n) == a then amounts[n] else 0);
    }
  }

  lemma OneBooked(f: Flow, a: Addr)
    ensures Booked([f], a) == if f.who == a then f.amount else 0
  {
    assert [f][..0] == [];
  }

  lemma PairBooked(f: Flow, g: Flow, a: Addr)
    ensures Booked([f, g], a) == (if f.who == a then f.amount else 0) + (if g.who == a then g.amount else 0)
  {
    var pair := [f, g];
    assert pair[..1] == [f];
    OneBooked(f, a);
  }

  lemma BalancedSigned(
    t: Ledger, id: Id, rt: ReserveType, amounts: ArrayArg<int>, native: int, baseLp: int, sign: int, a: Addr)
    requires sign == 1 || sign == -1
    ensures Booked(Balanced(t, id, rt, amounts, native, baseLp, sign), a) ==
            sign * BalancedAmount(t, id, rt, amounts, native, baseLp, a)
  {
    hide MetaLegs, Positional, AmountsOn;
    var flows := Balanced(t, id, rt, amounts, native, baseLp, sign);
    if rt == MetaReserve {
      PairBooked(flows[0], flows[1], a);
    } else if amounts.Elements? {
      PositionalSigned(Rows(t.assets, id), amounts.elements, sign, a);
    } else {
      assert flows == [];
    }
  }

  /** The flows an event books are the amounts it names, signed. */
  lemma FlowsSigned(t: Ledger, id: Id, rt: ReserveType, e: Event, a: Addr)
    ensures Booked(Flows(t, id, rt, e), a) == Signed(t, id, rt, e, a)
    ensures !IsFlowEvent(e) ==> Signed(t, id, rt, e, a) == 0
  {
    hide Balanced, BalancedAmount, Booked;
    var flows := Flows(t, id, rt, e);
    if e.Deposit? {
      BalancedSigned(t, id, rt, e.amounts, e.nativeIn, e.baseLpIn, 1, a);
    } else if e.Withdraw? {
      BalancedSigned(t, id, rt, e.amounts, e.nativeOut, e.baseLpOut, -1, a);
    } else if !IsFlowEvent(e) {
      NoneBooked(flows, a);
    } else if |flows| == 1 {
      OneBooked(flows[0], a);
    } else {
      PairBooked(flows[0], flows[1], a);
    }
  }

  lemma NoneBooked(flows: seq<Flow>, a: Addr)
    ensures flows == [] ==> Booked(flows, a) == 0
  {
  }

  function Declares(truth: Truth, t: Ledger, id: Id, a: Addr): Log -> int {
    log => Declared(truth, t, log, id, a)
  }

  function DeclaredBy(truth: Truth, t: Ledger, logs: seq<Log>, id: Id, a: Addr): int {
    SumOver(logs, Declares(truth, t, id, a))
  }

  ghost predicate AllSettled(truth: Truth, t: Ledger, logs: seq<Log>) {
    forall log :: log in logs ==> Settled(t, log, truth(log.address))
  }

  lemma OneStepBooks(truth: Truth, t: Ledger, u: Ledger, log: Log, id: Id, a: Addr)
    requires SameLayout(t, u) && Apply(u, log, truth(log.address)).Some?
    ensures Balance(Apply(u, log, truth(log.address)).value, id, a) ==
            Balance(u, id, a) + Declared(truth, t, log, id, a)
  {
    hide Apply, SameLayout, Flows, Booked, AddFlows, Signed;
    var k := truth(log.address);
    RegistryFrame(u, log, k);
    if IsReserveKind(k) { FlowsSigned(t, Emitter(log), TypeOf(k), log.event, a); }
    if IsFlow(log, k) {
      FlowsFix(t, u, Emitter(log), TypeOf(k), log.event);
      AddFlowsBooks(u.tokenBalances, Emitter(log), Flows(t, Emitter(log), TypeOf(k), log.event), id, a);
    }
  }

  /** The layout is still the one the run started with. */
  lemma {:induction false} LayoutHolds(truth: Truth, t: Ledger, logs: seq<Log>)
    requires AllSettled(truth, t, logs) && Replay(truth, t, logs).Some?
    ensures var u := Replay(truth, t, logs).value;
            SameLayout(t, u) && forall id :: id in t.reserves ==> id in u.reserves
  {
    hide Apply, SameLayout, Settled;
    if logs == [] {
      LayoutSame(t);
    } else {
      var n := |logs| - 1;
      LayoutHolds(truth, t, logs[..n]);
      var u := Replay(truth, t, logs[..n]).value;
      StaysSettled(t, u, logs[n], truth(logs[n].address));
      SettledKeepsLayout(u, logs[n], truth(logs[n].address));
      ReservesFrame(u, logs[n], truth(logs[n].address));
      LayoutTwice(t, u, Replay(truth, t, logs).value);
    }
  }

  /** Once the assets and leg kinds are registered, every balance moves by exactly the amounts the events name. */
  lemma {:induction false} BalancesAreDeclaredFlows(truth: Truth, t: Ledger, logs: seq<Log>, id: Id, a: Addr)
    requires AllSettled(truth, t, logs) && Replay(truth, t, logs).Some?
    ensures Balance(Replay(truth, t, logs).value, id, a) == Balance(t, id, a) + DeclaredBy(truth, t, logs, id, a)
  {
    hide Apply, SameLayout, Settled, Balance, Declared;
    if logs != [] {
      var n := |logs| - 1;
      BalancesAreDeclaredFlows(truth, t, logs[..n], id, a);
      LayoutHolds(truth, t, logs[..n]);
      OneStepBooks(truth, t, Replay(truth, t, logs[..n]).value, logs[n], id, a);
    }
  }

  /** One event moves each holding of its reserve by the amount it names for it, and no other holding. */
  lemma EventMovesHolding(t: Ledger, log: Log, k: Kind, id: Id, a: Addr)
    requires Apply(t, log, k).Some?
    ensures Balance(Apply(t, log, k).value, id, a) == Balance(t, id, a) + Declared(x => k, t, log, id, a)
  {
    hide Apply, Balance, Signed, SameLayout;
    LayoutSame(t);
    OneStepBooks(x => k, t, t, log, id, a);
  }

  /** What the logs of a replay name for one holding, each read against the layout it found. */
  function NamedSoFar(truth: Truth, logs: seq<Log>, id: Id, a: Addr): int
    requires Replay(truth, EMPTY_LEDGER, logs).Some?
  {
    if logs == [] then 0
    else
      var n := |logs| - 1;
      NamedSoFar(truth, logs[..n], id, a)
        + Declared(truth, Replay(truth, EMPTY_LEDGER, logs[..n]).value, logs[n], id, a)
  }

  /** Every holding is the sum of the amounts the committed logs name for it. */
  lemma {:induction false} HoldingsAreSums(truth: Truth, logs: seq<Log>, id: Id, a: Addr)
    requires Replay(truth, EMPTY_LEDGER, logs).Some?
    ensures Balance(Replay(truth, EMPTY_LEDGER, logs).value, id, a) == NamedSoFar(truth, logs, id, a)
  {
    hide Apply, Balance, Declared, SameLayout;
    if logs == [] {
      NothingHeld(id, a);
    } else {
      var n := |logs| - 1;
      HoldingsAreSums(truth, logs[..n], id, a);
      LayoutSame(Replay(truth, EMPTY_LEDGER, logs[..n]).value);
      OneStepBooks(truth, Replay(truth, EMPTY_LEDGER, logs[..n]).value,
                   Replay(truth, EMPTY_LEDGER, logs[..n]).value, logs[n], id, a);
    }
  }

  lemma NothingHeld(id: Id, a: Addr)
    ensures Balance(EMPTY_LEDGER, id, a) == 0
  {
  }

  /** So it is at the end of any run with duplicates, failures and restarts. */
  lemma RunHoldingsAreSums(truth: Truth, cfg: Config, steps: seq<Step>, id: Id, a: Addr)
    requires AgreesConfig(truth, cfg) && AllAgree(truth, steps)
    ensures var logs := Effective(Initial(cfg), cfg, steps);
            && Replay(truth, EMPTY_LEDGER, logs).Some?
            && Balance(Run(Initial(cfg), cfg, steps).ledger, id, a) == NamedSoFar(truth, logs, id, a)
  {
    hide Agrees, AgreesConfig, Run, Effective, Replay, Initial, DistinctIds, Ids, Balance, NamedSoFar;
    ExactlyOnce(truth, cfg, steps);
    HoldingsAreSums(truth, Effective(Initial(cfg), cfg, steps), id, a);
  }

  /** At the end of any run whose later commits are settled by the earlier ones each holding is what the earlier
      ones left plus what the later ones name. */
  lemma RunBooksAmounts(truth: Truth, cfg: Config, steps: seq<Step>, setup: seq<Log>, logs: seq<Log>, id: Id, a: Addr)
    requires AgreesConfig(truth, cfg) && AllAgree(truth, steps)
    ensures Effective(Initial(cfg), cfg, steps) == setup + logs && SettledAfter(truth, setup, logs) ==>
              var t := Replay(truth, EMPTY_LEDGER, setup).value;
              Balance(Run(Initial(cfg), cfg, steps).ledger, id, a) ==
              Balance(t, id, a) + DeclaredBy(truth, t, logs, id, a)
  {
    hide Agrees, AgreesConfig, Run, Effective, Replay, Initial, DistinctIds, Ids, Balance, AllSettled, DeclaredBy;
    if Effective(Initial(cfg), cfg, steps) == setup + logs && SettledAfter(truth, setup, logs) {
      ExactlyOnce(truth, cfg, steps);
      ReplayAppend(truth, EMPTY_LEDGER, setup, logs);
      BalancesAreDeclaredFlows(truth, Replay(truth, EMPTY_LEDGER, setup).value, logs, id, a);
    }
  }

  // --- order does not matter ---

  /** A log without the answer the database gave to it: two deliveries of one log may get different answers. */
  function Unanswered(log: Log): Log {
    log.(claimant := NoAddr)
  }

  function AllUnanswered(logs: seq<Log>): seq<Log> {
    seq(|logs|, i requires 0 <= i < |logs| => Unanswered(logs[i]))
  }

  lemma {:induction false} AnswersDeclareNothing(truth: Truth, t: Ledger, logs: seq<Log>, id: Id, a: Addr)
    ensures DeclaredBy(truth, t, logs, id, a) == DeclaredBy(truth, t, AllUnanswered(logs), id, a)
  {
    hide Signed;
    if logs != [] {
      var n := |logs| - 1;
      AnswersDeclareNothing(truth, t, logs[..n], id, a);
      assert AllUnanswered(logs)[..n] == AllUnanswered(logs[..n]);
      assert Declared(truth, t, Unanswered(logs[n]), id, a) == Declared(truth, t, logs[n], id, a);
    }
  }

  lemma PermutedSettled(truth: Truth, t: Ledger, logs: seq<Log>, other: seq<Log>)
    requires multiset(AllUnanswered(logs)) == multiset(AllUnanswered(other)) && AllSettled(truth, t, logs)
    ensures AllSettled(truth, t, other)
  {
    hide IsLeg;
    forall log | log in other
      ensures Settled(t, log, truth(log.address))
    {
      var j :| 0 <= j < |other| && other[j] == log;
      assert AllUnanswered(other)[j] in multiset(AllUnanswered(other));
      assert Unanswered(log) in multiset(AllUnanswered(logs));
      var i :| 0 <= i < |logs| && AllUnanswered(logs)[i] == Unanswered(log);
      assert Settled(t, logs[i], truth(logs[i].address));
    }
  }

  /** Any permutation of the same settled logs gives the same balances, whatever the database answered. */
  lemma OrderIsIrrelevant(truth: Truth, t: Ledger, logs: seq<Log>, other: seq<Log>, id: Id, a: Addr)
    requires multiset(AllUnanswered(logs)) == multiset(AllUnanswered(other)) && AllSettled(truth, t, logs)
    requires Replay(truth, t, logs).Some? && Replay(truth, t, other).Some?
    ensures Balance(Replay(truth, t, logs).value, id, a) == Balance(Replay(truth, t, other).value, id, a)
  {
    hide Apply, Settled, Balance, Declares, AllSettled, AllUnanswered, Replay;
    PermutedSettled(truth, t, logs, other);
    BalancesAreDeclaredFlows(truth, t, logs, id, a);
    BalancesAreDeclaredFlows(truth, t, other, id, a);
    AnswersDeclareNothing(truth, t, logs, id, a);
    AnswersDeclareNothing(truth, t, other, id, a);
    SumPermuted(AllUnanswered(logs), AllUnanswered(other), Declares(truth, t, id, a));
  }

  lemma {:induction false} ReplayAppend(truth: Truth, t: Ledger, first: seq<Log>, second: seq<Log>)
    requires Replay(truth, t, first).Some?
    ensures Replay(truth, t, first + second) == Replay(truth, Replay(truth, t, first).value, second)
  {
    hide Apply;
    if second == [] {
      assert first + second == first;
    } else {
      var n := |second| - 1;
      ReplayAppend(truth, t, first, second[..n]);
      assert (first + second)[..|first| + n] == first + second[..n];
    }
  }

  /** Two runs that commit the same registrations and then the same settled logs, in any order and with
      any duplicates, failures and restarts, end with the same balances. */
  lemma RunsAgreeOnBalances(
    truth: Truth, cfg: Config, run: seq<Step>, other: seq<Step>, setup: seq<Log>, logs: seq<Log>,
    permuted: seq<Log>, id: Id, a: Addr)
    requires AgreesConfig(truth, cfg) && AllAgree(truth, run) && AllAgree(truth, other)
    requires multiset(AllUnanswered(logs)) == multiset(AllUnanswered(permuted))
    ensures Effective(Initial(cfg), cfg, run) == setup + logs && Effective(Initial(cfg), cfg, other) == setup + permuted
            && SettledAfter(truth, setup, logs) ==>
              Balance(Run(Initial(cfg), cfg, run).ledger, id, a) == Balance(Run(Initial(cfg), cfg, other).ledger, id, a)
  {
    hide Agrees, AgreesConfig, Run, Effective, Replay, Initial, DistinctIds, Ids, Balance, AllSettled;
    if Effective(Initial(cfg), cfg, run) == setup + logs && Effective(Initial(cfg), cfg, other) == setup + permuted
       && SettledAfter(truth, setup, logs) {
      ExactlyOnce(truth, cfg, run);
      ExactlyOnce(truth, cfg, other);
      ReplayAppend(truth, EMPTY_LEDGER, setup, logs);
      ReplayAppend(truth, EMPTY_LEDGER, setup, permuted);
      OrderIsIrrelevant(truth, Replay(truth, EMPTY_LEDGER, setup).value, logs, permuted, id, a);
    }
  }

  /** Once the setup logs are processed, the others are settled. */
  ghost predicate SettledAfter(truth: Truth, setup: seq<Log>, logs: seq<Log>) {
    Replay(truth, EMPTY_LEDGER, setup).Some? && AllSettled(truth, Replay(truth, EMPTY_LEDGER, setup).value, logs)
  }

  // --- a withdrawal undoes a deposit ---

  predicate SameAmounts(d: Event, w: Event) {
    d.Deposit? && w.Withdraw? && d.amounts == w.amounts && d.nativeIn == w.nativeOut && d.baseLpIn == w.baseLpOut
  }

  /** A Withdraw with the same amounts undoes a Deposit, whatever settled logs are processed in between. */
  lemma WithdrawUndoesDeposit(truth: Truth, t: Ledger, deposit: Log, between: seq<Log>, withdraw: Log, id: Id, a: Addr)
    requires Emitter(deposit) == Emitter(withdraw) && IsReserveKind(truth(deposit.address))
    requires SameAmounts(deposit.event, withdraw.event)
    ensures var with, without := Replay(truth, t, [deposit] + between + [withdraw]), Replay(truth, t, between);
            AllSettled(truth, t, [deposit] + between + [withdraw]) && with.Some? && without.Some? ==>
              Balance(with.value, id, a) == Balance(without.value, id, a)
  {
    hide Apply, Settled, Balance, BalancedAmount, Replay;
    var all := [deposit] + between + [withdraw];
    if AllSettled(truth, t, all) && Replay(truth, t, all).Some? && Replay(truth, t, between).Some? {
      forall log | log in between ensures log in all { assert log in [deposit] + between; }
      BalancesAreDeclaredFlows(truth, t, all, id, a);
      BalancesAreDeclaredFlows(truth, t, between, id, a);
      assert all[..|all| - 1] == [deposit] + between;
      var f := Declares(truth, t, id, a);
      SumAppend([deposit], between, f);
      assert [deposit][..0] == [];
    }
  }
}
