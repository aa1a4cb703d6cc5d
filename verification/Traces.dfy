/**
 The same guarantees read off the events alone: when assets are registered in time and IOUs are not
 shared or re-pointed, the IOU mirror and the snapshots hold in every state of a run.
 */
module Traces {
  import opened Accounting
  import opened Addresses
  import opened Coherence
  import opened Delivery
  import opened Effects
  import opened FlowAccounting
  import opened Frames
  import opened History
  import opened Machine
  import opened Tables
  import opened Valuation

  // --- what the events say ---

  /** The log registers an asset. */
  predicate Registration(truth: Truth, log: Log) {
    IsReserveKind(truth(log.address)) && log.event.AssetAdded?
  }

  /** The log registers asset a of a reserve. */
  predicate RegistersAsset(truth: Truth, log: Log, id: Id, a: Addr) {
    Registration(truth, log) && Emitter(log) == id && log.event.asset == a
  }

  predicate Registered(truth: Truth, logs: seq<Log>, id: Id, a: Addr) {
    exists i :: 0 <= i < |logs| && RegistersAsset(truth, logs[i], id, a)
  }

  /** The log mints or burns an IOU. */
  predicate Mints(truth: Truth, log: Log, iou: Id) {
    truth(log.address).IouKind? && IsSupplyTransfer(log.event) && Emitter(log) == iou
  }

  predicate Minted(truth: Truth, logs: seq<Log>, iou: Id) {
    exists i :: 0 <= i < |logs| && Mints(truth, logs[i], iou)
  }

  /** The assets an event names itself, rather than by position or leg. */
  function Named(e: Event): set<Addr> {
    match e
    case SingleAssetDeposit(asset, _, _, _) => {asset}
    case SingleAssetWithdraw(asset, _, _, _) => {asset}
    case Rebalanced(tokenIn, _, tokenOut, _) => {tokenIn, tokenOut}
    case Swap(tokenIn, _, tokenOut, _) => {tokenIn, tokenOut}
    case IouMinted(asset, _) => {asset}
    case IouRedeemed(asset, _) => {asset}
    case FlashLoan(token, _) => {token}
    case DonationRecognized(asset, _) => {asset}
    case _ => {}
  }

  /** A flow of a reserve names the asset. */
  predicate Uses(truth: Truth, log: Log, id: Id, a: Addr) {
    IsFlow(log, truth(log.address)) && Emitter(log) == id && a in Named(log.event)
  }

  predicate Used(truth: Truth, logs: seq<Log>, id: Id, a: Addr) {
    exists i :: 0 <= i < |logs| && Uses(truth, logs[i], id, a)
  }

  lemma RegisteredSnoc(truth: Truth, logs: seq<Log>, id: Id, a: Addr)
    requires logs != []
    ensures var n := |logs| - 1;
            Registered(truth, logs, id, a) <==>
              Registered(truth, logs[..n], id, a) || RegistersAsset(truth, logs[n], id, a)
  {
    hide RegistersAsset;
    var n := |logs| - 1;
    assert forall i :: 0 <= i < n ==> logs[..n][i] == logs[i];
  }

  lemma MintedSnoc(truth: Truth, logs: seq<Log>, iou: Id)
    requires logs != []
    ensures var n := |logs| - 1;
            Minted(truth, logs, iou) <==> Minted(truth, logs[..n], iou) || Mints(truth, logs[n], iou)
  {
    hide Mints;
    var n := |logs| - 1;
    assert forall i :: 0 <= i < n ==> logs[..n][i] == logs[i];
  }

  lemma UsedSnoc(truth: Truth, logs: seq<Log>, id: Id, a: Addr)
    requires logs != []
    ensures var n := |logs| - 1;
            Used(truth, logs, id, a) <==> Used(truth, logs[..n], id, a) || Uses(truth, logs[n], id, a)
  {
    hide Uses;
    var n := |logs| - 1;
    assert forall i :: 0 <= i < n ==> logs[..n][i] == logs[i];
  }

  // --- what the tables say about the events ---

  lemma PutRow(rows: map<Addr, Asset>, e: Event, a: Addr)
    requires e.AssetAdded?
    ensures var after := PutAsset(rows, e);
            && (a in after <==> a in rows || a == e.asset)
            && (a != e.asset && a in rows ==> after[a] == rows[a])
            && after[e.asset].decimals == e.decimals && after[e.asset].iou == e.iou && after[e.asset].weight == e.weight
  {
  }

  lemma MirrorRow(assets: map<Id, map<Addr, Asset>>, iou: Id, delta: int, id: Id, a: Addr)
    ensures var rows, after := Rows(assets, id), Rows(MirrorSupply(assets, iou, delta), id);
            && (a in after <==> a in rows)
            && (a in rows ==> after[a] == rows[a].(iouSupply := after[a].iouSupply))
  {
  }

  lemma RowStep(t: Ledger, log: Log, truth: Truth, id: Id, a: Addr)
    requires Apply(t, log, truth(log.address)).Some?
    ensures var rows, after := Rows(t.assets, id), Rows(Apply(t, log, truth(log.address)).value.assets, id);
            && (a in after <==> a in rows || RegistersAsset(truth, log, id, a))
            && (a in rows && !RegistersAsset(truth, log, id, a) ==> after[a].iou == rows[a].iou)
            && (RegistersAsset(truth, log, id, a) ==> after[a].iou == log.event.iou)
  {
    hide Apply, PutAsset, MirrorSupply;
    RegistryFrame(t, log, truth(log.address));
    if Registration(truth, log) {
      PutRow(Rows(t.assets, Emitter(log)), log.event, a);
    } else if truth(log.address).IouKind? && IsSupplyTransfer(log.event) {
      MirrorRow(t.assets, Emitter(log), SupplyChange(log.event.from, log.event.to, log.event.value.value), id, a);
    }
  }

  /** Asset rows are exactly the registered assets. */
  lemma {:induction false} RowsAreRegistered(truth: Truth, logs: seq<Log>, id: Id, a: Addr)
    requires Replay(truth, EMPTY_LEDGER, logs).Some?
    ensures a in Rows(Replay(truth, EMPTY_LEDGER, logs).value.assets, id) <==> Registered(truth, logs, id, a)
  {
    hide Apply, RegistersAsset, Registered;
    if logs == [] {
      NothingYet(truth, id, a);
    } else {
      var n := |logs| - 1;
      RowsAreRegistered(truth, logs[..n], id, a);
      RegisteredSnoc(truth, logs, id, a);
      RowStep(Replay(truth, EMPTY_LEDGER, logs[..n]).value, logs[n], truth, id, a);
    }
  }

  lemma NothingYet(truth: Truth, id: Id, a: Addr)
    ensures !Registered(truth, [], id, a) && !Minted(truth, [], id) && !Used(truth, [], id, a)
  {
  }

  /** A row never re-pointed names the IOU of every one of its registrations. */
  predicate PointsTo(truth: Truth, logs: seq<Log>, id: Id, a: Addr, iou: Addr) {
    forall i :: 0 <= i < |logs| && RegistersAsset(truth, logs[i], id, a) ==> logs[i].event.iou == iou
  }

  lemma {:induction false} RowNames(truth: Truth, logs: seq<Log>, id: Id, a: Addr, iou: Addr)
    requires Replay(truth, EMPTY_LEDGER, logs).Some? && PointsTo(truth, logs, id, a, iou)
    requires a in Rows(Replay(truth, EMPTY_LEDGER, logs).value.assets, id)
    ensures Rows(Replay(truth, EMPTY_LEDGER, logs).value.assets, id)[a].iou == iou
  {
    hide Apply, RegistersAsset;
    var n := |logs| - 1;
    RowStep(Replay(truth, EMPTY_LEDGER, logs[..n]).value, logs[n], truth, id, a);
    if !RegistersAsset(truth, logs[n], id, a) {
      RowNames(truth, logs[..n], id, a, iou);
    }
  }

  /** An IOU that was never minted has no supply. */
  lemma {:induction false} UnmintedHasNoSupply(truth: Truth, logs: seq<Log>, iou: Id)
    requires Replay(truth, EMPTY_LEDGER, logs).Some? && !Minted(truth, logs, iou)
    ensures IouSupply(Replay(truth, EMPTY_LEDGER, logs).value.iouTokens, iou) == 0
  {
    hide Apply, Minted;
    if logs != [] {
      var n := |logs| - 1;
      MintedSnoc(truth, logs, iou);
      UnmintedHasNoSupply(truth, logs[..n], iou);
      var t := Replay(truth, EMPTY_LEDGER, logs[..n]).value;
      IouTablesFrame(t, logs[n], truth(logs[n].address));
      assert IouEvolves(t.iouTokens, Apply(t, logs[n], truth(logs[n].address)).value.iouTokens, Emitter(logs[n]),
             IouChange(logs[n], truth(logs[n].address)));
    }
  }

  lemma {:induction false} NotBooked(flows: seq<Flow>, a: Addr)
    requires forall f :: f in flows ==> f.who != a
    ensures Booked(flows, a) == 0
  {
    if flows != [] {
      NotBooked(flows[..|flows| - 1], a);
    }
  }

  lemma {:induction false} ScanStaysIn(t: Ledger, chain: nat, ordered: seq<Addr>, baseLp: Addr)
    ensures LastBase(t, chain, ordered) == NoAddr || LastBase(t, chain, ordered) in ordered
    ensures FirstOther(ordered, baseLp) == NoAddr || FirstOther(ordered, baseLp) in ordered
    decreases |ordered|
  {
    hide IsBase;
    if ordered != [] {
      ScanStaysIn(t, chain, ordered[..|ordered| - 1], baseLp);
      ScanStaysIn(t, chain, ordered[1..], baseLp);
    }
  }

  lemma LegsAreAssets(t: Ledger, id: Id)
    ensures MetaLegs(t, id).native == NoAddr || MetaLegs(t, id).native in Rows(t.assets, id)
    ensures MetaLegs(t, id).baseLp == NoAddr || MetaLegs(t, id).baseLp in Rows(t.assets, id)
  {
    hide LastBase, FirstOther;
    var ordered := Ordered(Rows(t.assets, id));
    assert forall a :: a in ordered ==> a == NoAddr || a in Rows(t.assets, id);
    ScanStaysIn(t, id.chain, ordered, LastBase(t, id.chain, ordered));
  }

  lemma BalancedStaysIn(t: Ledger, id: Id, rt: ReserveType, amounts: ArrayArg<int>, native: int, baseLp: int, sign: int)
    ensures forall f :: f in Balanced(t, id, rt, amounts, native, baseLp, sign) ==>
            f.who == NoAddr || f.who in Rows(t.assets, id)
  {
    hide MetaLegs;
    LegsAreAssets(t, id);
  }

  /** Flows book on assets the event names or the reserve has registered. */
  lemma FlowsStayIn(t: Ledger, id: Id, rt: ReserveType, e: Event)
    ensures forall f :: f in Flows(t, id, rt, e) ==> f.who in Named(e) || f.who == NoAddr || f.who in Rows(t.assets, id)
  {
    hide Balanced;
    if e.Deposit? {
      BalancedStaysIn(t, id, rt, e.amounts, e.nativeIn, e.baseLpIn, 1);
    } else if e.Withdraw? {
      BalancedStaysIn(t, id, rt, e.amounts, e.nativeOut, e.baseLpOut, -1);
    }
  }

  lemma UnusedStep(t: Ledger, log: Log, truth: Truth, id: Id, a: Addr)
    requires Apply(t, log, truth(log.address)).Some?
    requires a !in Rows(t.assets, id) && !Uses(truth, log, id, a)
    ensures Balance(Apply(t, log, truth(log.address)).value, id, a) == Balance(t, id, a)
  {
    hide Apply, Flows, Booked, AddFlows, Named;
    var k := truth(log.address);
    RegistryFrame(t, log, k);
    if IsFlow(log, k) {
      var flows := Flows(t, Emitter(log), TypeOf(k), log.event);
      AddFlowsBooks(t.tokenBalances, Emitter(log), flows, id, a);
      if id == Emitter(log) && a != NoAddr {
        FlowsStayIn(t, id, TypeOf(k), log.event);
        NotBooked(flows, a);
      }
    }
  }

  /** An asset neither registered nor named by a flow has no balance. */
  lemma {:induction false} UnusedHasNoBalance(truth: Truth, logs: seq<Log>, id: Id, a: Addr)
    requires Replay(truth, EMPTY_LEDGER, logs).Some? && !Registered(truth, logs, id, a) && !Used(truth, logs, id, a)
    ensures Balance(Replay(truth, EMPTY_LEDGER, logs).value, id, a) == 0
  {
    hide Apply, Registered, Used, Uses, RegistersAsset;
    if logs != [] {
      var n := |logs| - 1;
      RegisteredSnoc(truth, logs, id, a);
      UsedSnoc(truth, logs, id, a);
      UnusedHasNoBalance(truth, logs[..n], id, a);
      RowsAreRegistered(truth, logs[..n], id, a);
      UnusedStep(Replay(truth, EMPTY_LEDGER, logs[..n]).value, logs[n], truth, id, a);
    }
  }

  // --- the IOU mirror ---

  /** The log registers the asset another registration names. */
  predicate RegistersSame(truth: Truth, log: Log, other: Log)
    requires other.event.AssetAdded?
  {
    RegistersAsset(truth, log, Emitter(other), other.event.asset)
  }

  /** An asset registered again names the same IOU. */
  predicate NeverRepointed(truth: Truth, logs: seq<Log>) {
    forall i, j :: 0 <= i < j < |logs| && Registration(truth, logs[j]) && RegistersSame(truth, logs[i], logs[j]) ==>
      logs[i].event.iou == logs[j].event.iou
  }

  /** An IOU is registered for an asset before its first mint. */
  predicate BeforeFirstMint(truth: Truth, logs: seq<Log>) {
    forall j :: 0 <= j < |logs| && Registration(truth, logs[j]) && Proper(logs[j].event.iou) ==>
      Minted(truth, logs[..j], Id(logs[j].chain, logs[j].event.iou)) ==>
        Registered(truth, logs[..j], Emitter(logs[j]), logs[j].event.asset)
  }

  lemma RegistersInTime(truth: Truth, logs: seq<Log>, n: nat)
    requires n < |logs| && NeverRepointed(truth, logs) && BeforeFirstMint(truth, logs)
    requires Replay(truth, EMPTY_LEDGER, logs[..n]).Some? && Mirrored(At(truth, logs, n))
    ensures Registers(At(truth, logs, n), logs[n], truth(logs[n].address))
  {
    hide Apply, Registered, Minted, Replay;
    var log, t := logs[n], At(truth, logs, n);
    if Registration(truth, log) && Proper(log.event.iou) {
      var id, a := Emitter(log), log.event.asset;
      RowsAreRegistered(truth, logs[..n], id, a);
      if Registered(truth, logs[..n], id, a) {
        assert PointsTo(truth, logs[..n], id, a, log.event.iou);
        RowNames(truth, logs[..n], id, a, log.event.iou);
        assert RowMirrored(t.iouTokens, id.chain, t.assets[id][a]);
      } else {
        UnmintedHasNoSupply(truth, logs[..n], Id(log.chain, log.event.iou));
      }
    }
  }

  /** The mirror holds in every state of a run that registers each IOU before its first mint and never
      re-points an asset, across mints, burns, transfers and repeated registrations. */
  lemma MirrorHoldsInEveryState(truth: Truth, logs: seq<Log>)
    requires Replay(truth, EMPTY_LEDGER, logs).Some? && NeverRepointed(truth, logs) && BeforeFirstMint(truth, logs)
    ensures InEveryState(truth, logs, Mirrored) && AtEveryLog(truth, logs, Registers)
  {
    hide Apply, Mirrored, Registers, At, Replay, NeverRepointed, BeforeFirstMint;
    EmptyMirrored();
    forall i | 0 <= i < |logs| && Mirrored(At(truth, logs, i))
      ensures Mirrored(At(truth, logs, i + 1))
    {
      StepAt(truth, logs, i);
      RegistersInTime(truth, logs, i);
      MirrorKeptIff(At(truth, logs, i), logs[i], truth(logs[i].address));
    }
    HoldsThroughout(truth, logs, Mirrored);
    MirrorAlwaysIff(truth, logs);
  }

  // --- the snapshots ---

  /** Each asset has a single registration, before any flow that names it. */
  predicate RegisteredFirst(truth: Truth, logs: seq<Log>) {
    forall j :: 0 <= j < |logs| && Registration(truth, logs[j]) ==>
      !Registered(truth, logs[..j], Emitter(logs[j]), logs[j].event.asset)
      && !Used(truth, logs[..j], Emitter(logs[j]), logs[j].event.asset)
  }

  /** No two reserves register the same IOU. */
  predicate OneReservePerIou(truth: Truth, logs: seq<Log>) {
    forall i, j :: 0 <= i < j < |logs| && Registration(truth, logs[i]) && Registration(truth, logs[j])
                   && logs[i].chain == logs[j].chain && logs[i].event.iou == logs[j].event.iou
                   && Proper(logs[i].event.iou) ==>
      Emitter(logs[i]) == Emitter(logs[j])
  }

  predicate RegistersIou(truth: Truth, log: Log, id: Id, iou: Addr) {
    Registration(truth, log) && Emitter(log) == id && log.event.iou == iou
  }

  lemma LastHarmless(truth: Truth, logs: seq<Log>, j: nat)
    requires j < |logs| && RegisteredFirst(truth, logs) && Replay(truth, EMPTY_LEDGER, logs[..j]).Some?
    ensures RegistersHarmlessly(At(truth, logs, j), logs[j], truth(logs[j].address))
  {
    hide Apply, Registered, Used, Replay, Scale;
    if Registration(truth, logs[j]) {
      RowsAreRegistered(truth, logs[..j], Emitter(logs[j]), logs[j].event.asset);
      UnusedHasNoBalance(truth, logs[..j], Emitter(logs[j]), logs[j].event.asset);
    }
  }

  /** A claim on an IOU goes back to a registration that names it. */
  lemma ClaimIsRegistered(truth: Truth, logs: seq<Log>, id: Id, iou: Addr) returns (i: nat)
    requires RegisteredFirst(truth, logs) && Replay(truth, EMPTY_LEDGER, logs).Some?
    requires ClaimedIn(Rows(Replay(truth, EMPTY_LEDGER, logs).value.assets, id), iou)
    ensures i < |logs| && RegistersIou(truth, logs[i], id, iou)
  {
    hide Apply, Used, Replay;
    var rows := Rows(Replay(truth, EMPTY_LEDGER, logs).value.assets, id);
    var a :| a in rows && rows[a].iou == iou;
    RowsAreRegistered(truth, logs, id, a);
    i :| 0 <= i < |logs| && RegistersAsset(truth, logs[i], id, a);
    OnlyRegistration(truth, logs, i, id, a);
    RowNames(truth, logs, id, a, logs[i].event.iou);
  }

  lemma OnlyRegistration(truth: Truth, logs: seq<Log>, i: nat, id: Id, a: Addr)
    requires RegisteredFirst(truth, logs) && i < |logs| && RegistersAsset(truth, logs[i], id, a)
    ensures PointsTo(truth, logs, id, a, logs[i].event.iou)
  {
    hide Used;
    assert forall m, n :: 0 <= m < n < |logs| ==> logs[..n][m] == logs[m];
  }

  lemma ClaimsAgree(truth: Truth, logs: seq<Log>, id: Id, other: Id, iou: Addr)
    requires RegisteredFirst(truth, logs) && OneReservePerIou(truth, logs) && Replay(truth, EMPTY_LEDGER, logs).Some?
    requires id.chain == other.chain && Proper(iou)
    requires var t := Replay(truth, EMPTY_LEDGER, logs).value;
             ClaimedIn(Rows(t.assets, id), iou) && ClaimedIn(Rows(t.assets, other), iou)
    ensures id == other && id.addr != NoAddr
  {
    hide Apply, Used, Replay, RegisteredFirst, ClaimedIn;
    var i := ClaimIsRegistered(truth, logs, id, iou);
    var j := ClaimIsRegistered(truth, logs, other, iou);
  }

  lemma LastClaimedByOne(truth: Truth, logs: seq<Log>, j: nat)
    requires j < |logs| && RegisteredFirst(truth, logs[..j]) && OneReservePerIou(truth, logs[..j])
    requires Replay(truth, EMPTY_LEDGER, logs[..j]).Some?
    ensures ClaimedByOne(At(truth, logs, j), logs[j], truth(logs[j].address))
  {
    hide Apply, Used, Replay, RegisteredFirst, OneReservePerIou, ClaimedIn, IsBase, HasRows;
    var log, t := logs[j], At(truth, logs, j);
    forall id | Exposed(t, log, id)
      ensures Claimants(t.assets, Emitter(log)) == {id.addr} && id.addr != NoAddr
    {
      ClaimsAgree(truth, logs[..j], id, id, log.address);
      forall r | r in Claimants(t.assets, Emitter(log))
        ensures r == id.addr
      {
        ClaimsAgree(truth, logs[..j], id, Id(log.chain, r), log.address);
      }
      assert id in t.assets by { ClaimHasRows(t, id, log.address); }
      assert id.addr in Claimants(t.assets, Emitter(log));
    }
  }

  lemma ClaimHasRows(t: Ledger, id: Id, iou: Addr)
    requires ClaimedIn(Rows(t.assets, id), iou)
    ensures id in t.assets
  {
  }

  lemma PrefixFirst(truth: Truth, logs: seq<Log>, j: nat)
    requires j <= |logs| && RegisteredFirst(truth, logs) && OneReservePerIou(truth, logs)
    ensures RegisteredFirst(truth, logs[..j]) && OneReservePerIou(truth, logs[..j])
  {
    hide Registered, Used, Registration;
    var early := logs[..j];
    assert forall i :: 0 <= i < |early| ==> early[i] == logs[i] && early[..i] == logs[..i];
  }

  /** With ordered blocks and days, each asset's single registration before any flow that names it, and
      each IOU registered by one reserve, every base reserve's newest row agrees with the view in every state. */
  lemma CoherentInEveryState(truth: Truth, logs: seq<Log>)
    requires Replay(truth, EMPTY_LEDGER, logs).Some? && InOrder(logs)
    requires RegisteredFirst(truth, logs) && OneReservePerIou(truth, logs)
    ensures InEveryState(truth, logs, Coherent) && AtEveryLog(truth, logs, Admissible)
  {
    hide Apply, Replay, RegisteredFirst, OneReservePerIou, Coherent, InOrder, At, RegistersHarmlessly, ClaimedByOne;
    forall j | 0 <= j < |logs|
      ensures Admissible(At(truth, logs, j), logs[j], truth(logs[j].address))
    {
      PrefixReplays(truth, logs, j);
      PrefixFirst(truth, logs, j);
      LastHarmless(truth, logs, j);
      LastClaimedByOne(truth, logs, j);
    }
    AlwaysCoherentIff(truth, logs);
  }

  // --- disturbed runs ---

  /** Both guarantees at the end of any run with duplicates, failures and restarts, read off its committed logs. */
  lemma RunKeepsPromises(truth: Truth, cfg: Config, steps: seq<Step>)
    requires AgreesConfig(truth, cfg) && AllAgree(truth, steps)
    ensures var t, logs := Run(Initial(cfg), cfg, steps).ledger, Effective(Initial(cfg), cfg, steps);
            && (NeverRepointed(truth, logs) && BeforeFirstMint(truth, logs) ==> Mirrored(t))
            && (InOrder(logs) && RegisteredFirst(truth, logs) && OneReservePerIou(truth, logs) ==> Coherent(t))
  {
    hide Agrees, AgreesConfig, Run, Effective, Replay, Initial, DistinctIds, Ids, Coherent, Mirrored, InOrder,
         NeverRepointed, BeforeFirstMint, RegisteredFirst, OneReservePerIou, At;
    var logs := Effective(Initial(cfg), cfg, steps);
    ExactlyOnce(truth, cfg, steps);
    LastState(truth, logs);
    if NeverRepointed(truth, logs) && BeforeFirstMint(truth, logs) {
      MirrorHoldsInEveryState(truth, logs);
      assert Mirrored(At(truth, logs, |logs|));
    }
    if InOrder(logs) && RegisteredFirst(truth, logs) && OneReservePerIou(truth, logs) {
      CoherentInEveryState(truth, logs);
      assert Coherent(At(truth, logs, |logs|));
    }
  }
}
