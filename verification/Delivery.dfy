/**
 Whole-run theorems of the delivery state machine: exactly-once effects and restart-equivalent
 routing, over every sequence of deliveries with duplicates, failures and restarts.
 */
module Delivery {
  import opened Addresses
  import opened Effects
  import opened Kinds
  import opened Machine
  import opened Options
  import opened Tables
  import CurvePools

  /** The true kind of every contract. */
  type Truth = Addr -> Kind

  /** A log's ABI name agrees with the true kind of its emitter, and what it discovers truly is what it is said to
      be: an asset's IOU, a reserve of the named type, a Curve pool. */
  ghost predicate Agrees(truth: Truth, log: Log) {
    Classify(log.contractName) == truth(log.address)
    && forall addr, kind :: Discovers(log, truth(log.address), addr, kind) ==> truth(addr) == kind
  }

  /** A log of a contract of kind k makes another contract known, as a contract of the given kind. */
  predicate Discovers(log: Log, k: Kind, addr: Addr, kind: Kind) {
    || ((k.BaseReserveKind? || k.MetaReserveKind?) && log.event.AssetAdded?
        && addr == log.event.iou && addr != NoAddr && addr != ZERO_ADDRESS && kind == IouKind)
    || (k.FactoryKind? && log.event.NewClearReserve?
        && addr == log.event.reserve && addr != NoAddr && addr != ZERO_ADDRESS
        && ((log.event.reserveType == Some(BaseReserve) && kind == BaseReserveKind)
            || (log.event.reserveType == Some(MetaReserve) && kind == MetaReserveKind)))
    || (k.CurveDeployerKind? && log.event.PoolDeployed?
        && addr == log.event.pool && addr != NoAddr && addr != ZERO_ADDRESS && kind == CurveKind)
    || (k.CurveFactoryKind? && log.event.CurvePoolDeployed? && log.event.receipt.Some?
        && addr == CurvePools.Deployed(log) && addr != NoAddr && kind == CurveKind)
  }

  /** What a handler announces is what its log discovers. */
  lemma AnnouncedIsDiscovered(log: Log, k: Kind, addr: Addr, kind: Kind)
    ensures Announced(log, k) == Some(Announcement(addr, kind)) <==> Discovers(log, k, addr, kind)
  {
    hide CurvePools.Deployed;
  }

  predicate AgreesConfig(truth: Truth, cfg: Config) {
    forall c :: c in cfg.contracts && c.address != NoAddr && KindFromString(c.kind) != UnknownKind ==>
      truth(c.address) == KindFromString(c.kind)
  }

  ghost predicate AllAgree(truth: Truth, steps: seq<Step>) {
    forall step :: step in steps && step.Deliver? ==> Agrees(truth, step.log)
  }

  // --- routing ---

  /** Memory and table only hold true kinds; either may have lost entries. */
  ghost predicate RoutesTruly(truth: Truth, s: State) {
    && (forall a :: a in s.registry ==> s.registry[a] == truth(a))
    && TableTrue(truth, s.contracts)
  }

  ghost predicate TableTrue(truth: Truth, contracts: map<Id, ContractRow>) {
    forall id :: id in contracts ==> KindFromString(contracts[id].kind) == truth(id.addr)
  }

  lemma PersistTrue(truth: Truth, contracts: map<Id, ContractRow>, id: Id, k: Kind)
    requires TableTrue(truth, contracts) && truth(id.addr) == k
    ensures TableTrue(truth, Persist(contracts, id, k))
  {
    hide KindFromString, KindToken;
    KindRoundTrip(k);
  }

  lemma {:induction false} SeedTrue(truth: Truth, contracts: map<Id, ContractRow>, cfg: Config)
    requires TableTrue(truth, contracts) && AgreesConfig(truth, cfg)
    ensures TableTrue(truth, Seed(contracts, cfg))
    decreases |cfg.contracts|
  {
    hide KindFromString, KindToken;
    if cfg.contracts != [] {
      var n := |cfg.contracts| - 1;
      SeedTrue(truth, contracts, cfg.(contracts := cfg.contracts[..n]));
      KindRoundTrip(KindFromString(cfg.contracts[n].kind));
    }
  }

  lemma RestartRoutesTruly(truth: Truth, s: State, cfg: Config)
    requires TableTrue(truth, s.contracts) && AgreesConfig(truth, cfg)
    ensures RoutesTruly(truth, Restarted(s, cfg))
  {
    hide KindFromString, KindToken;
    SeedTrue(truth, s.contracts, cfg);
  }

  lemma RoutedIsTruth(truth: Truth, s: State, log: Log)
    requires RoutesTruly(truth, s) && Agrees(truth, log)
    ensures Routed(s.registry, log) == truth(log.address)
  {
    hide Classify, Announced, Discovers;
  }

  lemma ClaimedRoutesTruly(truth: Truth, s: State, log: Log)
    requires RoutesTruly(truth, s) && Agrees(truth, log)
    ensures RoutesTruly(truth, Claimed(s, log))
  {
    hide Classify, Announced, Discovers, KindFromString, Persist, TableTrue;
    if FirstSeen(s, log) {
      PersistTrue(truth, s.contracts, Emitter(log), truth(log.address));
    }
  }

  lemma TrackedRoutesTruly(truth: Truth, s: State, log: Log, ann: Option<Announcement>)
    requires RoutesTruly(truth, s)
    requires ann.Some? ==> truth(ann.value.addr) == ann.value.kind
    ensures RoutesTruly(truth, Tracked(s, log, ann))
  {
    hide KindFromString, Persist, TableTrue;
    if ann.Some? {
      PersistTrue(truth, s.contracts, Id(log.chain, ann.value.addr), ann.value.kind);
    }
  }

  /** What one delivery of an agreeing log does to the tables: nothing, or exactly its effect. */
  lemma DeliveryOutcome(truth: Truth, s: State, log: Log, fault: Fault)
    requires RoutesTruly(truth, s) && Agrees(truth, log)
    ensures var r, effect := Delivered(s, log, fault), Apply(s.ledger, log, truth(log.address));
            && RoutesTruly(truth, r)
            && (if Commits(s, log, fault)
                then effect.Some? && r.ledger == effect.value && r.processed == s.processed + {log.id}
                else r.ledger == s.ledger && r.processed == s.processed && r.contracts == s.contracts)
    ensures fault.NoFault? && log.id !in s.processed && Apply(s.ledger, log, truth(log.address)).Some? ==>
            Commits(s, log, fault)
  {
    hide Apply, Announced, Claimed, Tracked, RoutesTruly, FirstSeen, Agrees;
    RoutedIsTruth(truth, s, log);
    ClaimedRoutesTruly(truth, s, log);
    ClaimedFrame(s, log);
    assert Agrees(truth, log);
    match Apply(s.ledger, log, truth(log.address))
    case None =>
      RolledBackRoutesTruly(truth, s, Claimed(s, log));
    case Some(ledger) =>
      var working := Claimed(s, log).(ledger := ledger);
      var ann := Announced(log, truth(log.address));
      WithLedgerRoutesTruly(truth, Claimed(s, log), ledger);
      AnnouncementTrue(truth, log);
      TrackedRoutesTruly(truth, working, log, ann);
      TrackedFrame(working, log, ann);
      RolledBackRoutesTruly(truth, s, Claimed(s, log));
      RolledBackRoutesTruly(truth, s, Tracked(working, log, ann));
  }

  lemma ClaimedFrame(s: State, log: Log)
    ensures Claimed(s, log).ledger == s.ledger && Claimed(s, log).processed == s.processed + {log.id}
  {
    hide Classify, Persist;
  }

  lemma TrackedFrame(s: State, log: Log, ann: Option<Announcement>)
    ensures Tracked(s, log, ann).ledger == s.ledger && Tracked(s, log, ann).processed == s.processed
  {
    hide Persist;
  }

  lemma AnnouncementTrue(truth: Truth, log: Log)
    requires Agrees(truth, log)
    ensures var ann := Announced(log, truth(log.address)); ann.Some? ==> truth(ann.value.addr) == ann.value.kind
  {
    hide Announced, Discovers, Classify;
    var ann := Announced(log, truth(log.address));
    if ann.Some? { AnnouncedIsDiscovered(log, truth(log.address), ann.value.addr, ann.value.kind); }
  }

  lemma RolledBackRoutesTruly(truth: Truth, s: State, working: State)
    requires RoutesTruly(truth, s) && RoutesTruly(truth, working)
    ensures RoutesTruly(truth, RolledBack(s, working))
  {
    hide TableTrue;
  }

  lemma WithLedgerRoutesTruly(truth: Truth, s: State, ledger: Ledger)
    requires RoutesTruly(truth, s)
    ensures RoutesTruly(truth, s.(ledger := ledger))
  {
    hide TableTrue;
  }

  /** In every reachable state, leaked and lost registry entries included, routing follows the true kinds. */
  lemma {:induction false} ReachableRoutesTruly(truth: Truth, cfg: Config, steps: seq<Step>)
    requires AgreesConfig(truth, cfg) && AllAgree(truth, steps)
    ensures RoutesTruly(truth, Run(Initial(cfg), cfg, steps))
  {
    hide RoutesTruly, Agrees, AgreesConfig, Delivered, Restarted;
    if steps == [] {
      EmptyTableTrue(truth);
      RestartRoutesTruly(truth, State(EMPTY_LEDGER, {}, map[], map[]), cfg);
    } else {
      var n := |steps| - 1;
      ReachableRoutesTruly(truth, cfg, steps[..n]);
      StepRoutesTruly(truth, Run(Initial(cfg), cfg, steps[..n]), cfg, steps[n]);
    }
  }

  lemma EmptyTableTrue(truth: Truth)
    ensures TableTrue(truth, map[])
  {
  }

  lemma StepRoutesTruly(truth: Truth, s: State, cfg: Config, step: Step)
    requires AgreesConfig(truth, cfg) && RoutesTruly(truth, s) && (step.Deliver? ==> Agrees(truth, step.log))
    ensures RoutesTruly(truth, Next(s, cfg, step))
  {
    hide Agrees, AgreesConfig, Delivered, Restarted, Apply;
    match step
    case Deliver(log, fault) => DeliveryOutcome(truth, s, log, fault);
    case Restart => RestartRoutesTruly(truth, s, cfg);
  }

  /** Replacing the registry by a fresh load, or restarting altogether, routes every later log alike. */
  lemma RestartKeepsRouting(truth: Truth, cfg: Config, steps: seq<Step>, log: Log)
    requires AgreesConfig(truth, cfg) && AllAgree(truth, steps) && Agrees(truth, log)
    ensures var s := Run(Initial(cfg), cfg, steps);
            && Routed(s.registry, log) == truth(log.address)
            && Routed(Load(s.contracts, cfg.chain), log) == truth(log.address)
            && Routed(Restarted(s, cfg).registry, log) == truth(log.address)
  {
    hide Agrees, AgreesConfig, Classify, KindFromString, Run, Restarted;
    var s := Run(Initial(cfg), cfg, steps);
    ReachableRoutesTruly(truth, cfg, steps);
    RoutedIsTruth(truth, s, log);
    var loaded := s.(registry := Load(s.contracts, cfg.chain));
    assert RoutesTruly(truth, loaded);
    RoutedIsTruth(truth, loaded, log);
    RestartRoutesTruly(truth, s, cfg);
    RoutedIsTruth(truth, Restarted(s, cfg), log);
  }

  /** Whatever a delivery does, the tables either stay or take one event's effect, however it was routed. */
  lemma DeliveredLedger(s: State, log: Log, fault: Fault)
    ensures var effect := Apply(s.ledger, log, Routed(s.registry, log));
            || Delivered(s, log, fault).ledger == s.ledger
            || (effect.Some? && Delivered(s, log, fault).ledger == effect.value)
  {
    hide Apply, Announced, Claimed, Tracked, Routed, FailsBeforeHandler, FailsAfterHandler;
    ClaimedFrame(s, log);
    var k := Routed(s.registry, log);
    match Apply(s.ledger, log, k)
    case None =>
    case Some(ledger) => TrackedFrame(Claimed(s, log).(ledger := ledger), log, Announced(log, k));
  }

  // --- exactly once ---

  /** The delivery claims a new id and its transaction commits. */
  predicate Commits(s: State, log: Log, fault: Fault) {
    log.id !in s.processed && log.id in Delivered(s, log, fault).processed
  }

  /** A call that is reached succeeds: the emitter is persisted when memory does not name it and its ABI name tells
      what it is, a contract is tracked when the log makes one known, and only a known contract's log is handled. */
  ghost predicate Succeeds(s: State, log: Log, fault: Fault) {
    match fault
    case NoFault => true
    case AtBegin => false
    case AtPersist => log.address in s.registry || Classify(log.contractName).UnknownKind?
    case InHandler => Routed(s.registry, log).UnknownKind?
    case AtTrack => forall addr, kind :: !Discovers(log, Routed(s.registry, log), addr, kind)
    case AtCommit => false
  }

  /** A delivery commits if and only if its id is new, its handler accepts it and every call it makes succeeds; the
      ledger then is the handler's, and the one of before if it does not. */
  lemma CommitsIff(s: State, log: Log, fault: Fault)
    ensures var effect := Apply(s.ledger, log, Routed(s.registry, log));
            && (Commits(s, log, fault) <==> log.id !in s.processed && effect.Some? && Succeeds(s, log, fault))
            && Delivered(s, log, fault).ledger == if Commits(s, log, fault) then effect.value else s.ledger
  {
    hide Apply, Classify, Announced, Discovers, Persist;
    var k := Routed(s.registry, log);
    forall addr, kind ensures Announced(log, k) == Some(Announcement(addr, kind)) <==> Discovers(log, k, addr, kind) {
      AnnouncedIsDiscovered(log, k, addr, kind);
    }
    if Announced(log, k).Some? {
      AnnouncedIsDiscovered(log, k, Announced(log, k).value.addr, Announced(log, k).value.kind);
    }
  }

  /** The logs whose transaction committed, in commit order. */
  function Effective(s: State, cfg: Config, steps: seq<Step>): seq<Log> {
    if steps == [] then []
    else
      var n := |steps| - 1;
      var step := steps[n];
      var earlier := Effective(s, cfg, steps[..n]);
      if step.Deliver? && Commits(Run(s, cfg, steps[..n]), step.log, step.fault) then earlier + [step.log] else earlier
  }

  /** One failure-free pass over a list of logs, each routed by its true kind. */
  function Replay(truth: Truth, t: Ledger, logs: seq<Log>): Option<Ledger> {
    if logs == [] then Some(t)
    else
      var n := |logs| - 1;
      match Replay(truth, t, logs[..n])
      case None => None
      case Some(u) => Apply(u, logs[n], truth(logs[n].address))
  }

  // --- the states of a replay ---

  /** The ledger after the first i committed logs. */
  ghost function At(truth: Truth, logs: seq<Log>, i: nat): Ledger
    requires i <= |logs|
  {
    Replay(truth, EMPTY_LEDGER, logs[..i]).GetOr(EMPTY_LEDGER)
  }

  lemma {:induction false} PrefixReplays(truth: Truth, logs: seq<Log>, j: nat)
    requires j <= |logs| && Replay(truth, EMPTY_LEDGER, logs).Some?
    ensures Replay(truth, EMPTY_LEDGER, logs[..j]).Some?
  {
    hide Apply;
    if j < |logs| {
      PrefixReplays(truth, logs[..|logs| - 1], j);
      assert logs[..|logs| - 1][..j] == logs[..j];
    } else {
      assert logs[..j] == logs;
    }
  }

  lemma StepAt(truth: Truth, logs: seq<Log>, i: nat)
    requires i < |logs| && Replay(truth, EMPTY_LEDGER, logs).Some?
    ensures Replay(truth, EMPTY_LEDGER, logs[..i]).Some?
    ensures Apply(At(truth, logs, i), logs[i], truth(logs[i].address)) == Some(At(truth, logs, i + 1))
  {
    hide Apply;
    PrefixReplays(truth, logs, i);
    PrefixReplays(truth, logs, i + 1);
    assert logs[..i + 1][..i] == logs[..i];
  }

  ghost predicate InEveryState(truth: Truth, logs: seq<Log>, holds: Ledger -> bool) {
    forall i :: 0 <= i <= |logs| ==> holds(At(truth, logs, i))
  }

  /** Every log meets a condition on the ledger it is processed in. */
  ghost predicate AtEveryLog(truth: Truth, logs: seq<Log>, meets: (Ledger, Log, Kind) -> bool) {
    forall i :: 0 <= i < |logs| ==> meets(At(truth, logs, i), logs[i], truth(logs[i].address))
  }

  lemma {:induction false} HoldsUpTo(truth: Truth, logs: seq<Log>, holds: Ledger -> bool, n: nat)
    requires n <= |logs| && holds(EMPTY_LEDGER)
    requires forall i :: 0 <= i < n && holds(At(truth, logs, i)) ==> holds(At(truth, logs, i + 1))
    ensures holds(At(truth, logs, n))
  {
    if n == 0 {
      assert logs[..0] == [];
    } else {
      HoldsUpTo(truth, logs, holds, n - 1);
    }
  }

  /** What every log keeps holds in every state. */
  lemma HoldsThroughout(truth: Truth, logs: seq<Log>, holds: Ledger -> bool)
    requires holds(EMPTY_LEDGER)
    requires forall i :: 0 <= i < |logs| && holds(At(truth, logs, i)) ==> holds(At(truth, logs, i + 1))
    ensures InEveryState(truth, logs, holds)
  {
    hide At;
    forall n | 0 <= n <= |logs| ensures holds(At(truth, logs, n)) { HoldsUpTo(truth, logs, holds, n); }
  }

  /** What a log keeps exactly when it meets a condition holds in every state exactly when every log meets it. */
  lemma HoldsThroughoutIff(
    truth: Truth, logs: seq<Log>, holds: Ledger -> bool, meets: (Ledger, Log, Kind) -> bool)
    requires holds(EMPTY_LEDGER)
    requires forall i :: 0 <= i < |logs| && holds(At(truth, logs, i)) ==>
               (holds(At(truth, logs, i + 1)) <==> meets(At(truth, logs, i), logs[i], truth(logs[i].address)))
    ensures InEveryState(truth, logs, holds) <==> AtEveryLog(truth, logs, meets)
  {
    hide At;
    if AtEveryLog(truth, logs, meets) {
      HoldsThroughout(truth, logs, holds);
    } else if InEveryState(truth, logs, holds) {
      forall i | 0 <= i < |logs|
        ensures meets(At(truth, logs, i), logs[i], truth(logs[i].address))
      {
        assert holds(At(truth, logs, i)) && holds(At(truth, logs, i + 1));
      }
    }
  }

  /** The ledger of a replay is its last state. */
  lemma LastState(truth: Truth, logs: seq<Log>)
    ensures At(truth, logs, |logs|) == Replay(truth, EMPTY_LEDGER, logs).GetOr(EMPTY_LEDGER)
  {
    hide Replay;
    assert logs[..|logs|] == logs;
  }

  function Ids(logs: seq<Log>): set<string> {
    set i | 0 <= i < |logs| :: logs[i].id
  }

  predicate DistinctIds(logs: seq<Log>) {
    forall i, j :: 0 <= i < j < |logs| ==> logs[i].id != logs[j].id
  }

  /**
   Exactly-once refinement: whatever is delivered twice, fails or is interrupted by a restart, the
   tables are those of one failure-free pass over the committed logs, which have distinct ids.
   */
  lemma {:induction false} ExactlyOnce(truth: Truth, cfg: Config, steps: seq<Step>)
    requires AgreesConfig(truth, cfg) && AllAgree(truth, steps)
    ensures var s, logs := Run(Initial(cfg), cfg, steps), Effective(Initial(cfg), cfg, steps);
            && Replay(truth, EMPTY_LEDGER, logs) == Some(s.ledger)
            && s.processed == Ids(logs) && DistinctIds(logs)
            && (forall log :: log in logs ==> Agrees(truth, log))
  {
    hide Agrees, AgreesConfig, Delivered, Restarted, Apply, RoutesTruly, Commits;
    if steps == [] {
      InitialIsEmpty(cfg);
    } else {
      var n := |steps| - 1;
      var before := Run(Initial(cfg), cfg, steps[..n]);
      var logs := Effective(Initial(cfg), cfg, steps[..n]);
      ExactlyOnce(truth, cfg, steps[..n]);
      ReachableRoutesTruly(truth, cfg, steps[..n]);
      match steps[n]
      case Restart => RestartFrame(before, cfg);
      case Deliver(log, fault) =>
        DeliveryOutcome(truth, before, log, fault);
        if Commits(before, log, fault) {
          CommitsFresh(before, log, fault);
          AppendLog(truth, logs, log);
        }
    }
  }

  lemma CommitsFresh(s: State, log: Log, fault: Fault)
    requires Commits(s, log, fault)
    ensures log.id !in s.processed
  {
    hide Delivered;
  }

  lemma AppendLog(truth: Truth, logs: seq<Log>, log: Log)
    requires DistinctIds(logs) && log.id !in Ids(logs)
    ensures DistinctIds(logs + [log]) && Ids(logs + [log]) == Ids(logs) + {log.id}
    ensures forall t :: Replay(truth, t, logs + [log]) ==
              (match Replay(truth, t, logs) case None => None case Some(u) => Apply(u, log, truth(log.address)))
  {
    hide Apply;
    var all := logs + [log];
    assert all[..|logs|] == logs;
    forall id | id in Ids(logs) + {log.id}
      ensures id in Ids(all)
    {
      if id in Ids(logs) {
        var i :| 0 <= i < |logs| && logs[i].id == id;
        assert all[i].id == id;
      } else {
        assert all[|logs|].id == id;
      }
    }
  }

  lemma RestartFrame(s: State, cfg: Config)
    ensures Restarted(s, cfg).ledger == s.ledger && Restarted(s, cfg).processed == s.processed
  {
    hide Seed, Load;
  }

  lemma InitialIsEmpty(cfg: Config)
    ensures Initial(cfg).ledger == EMPTY_LEDGER && Initial(cfg).processed == {}
  {
    hide Seed, Load;
  }

  // --- the committed logs are the delivered ones ---

  function Clean(logs: seq<Log>): seq<Step> {
    seq(|logs|, i requires 0 <= i < |logs| => Deliver(logs[i], NoFault))
  }

  /** A failure-free run over logs with distinct ids that no handler rejects commits each of them. */
  lemma {:induction false} CleanRunCommitsAll(truth: Truth, cfg: Config, logs: seq<Log>)
    requires AgreesConfig(truth, cfg) && (forall log :: log in logs ==> Agrees(truth, log))
    requires DistinctIds(logs) && Replay(truth, EMPTY_LEDGER, logs).Some?
    ensures Effective(Initial(cfg), cfg, Clean(logs)) == logs
  {
    hide Agrees, AgreesConfig, Delivered, Restarted, Apply, RoutesTruly, Commits, Initial;
    if logs != [] {
      var n := |logs| - 1;
      var earlier := logs[..n];
      assert Clean(logs)[..n] == Clean(earlier);
      CleanRunCommitsAll(truth, cfg, earlier);
      ExactlyOnce(truth, cfg, Clean(earlier));
      ReachableRoutesTruly(truth, cfg, Clean(earlier));
      var before := Run(Initial(cfg), cfg, Clean(earlier));
      assert logs[n].id !in Ids(earlier);
      DeliveryOutcome(truth, before, logs[n], NoFault);
      assert earlier + [logs[n]] == logs;
    }
  }

  /** The ledger of any run is the one the exporter itself builds from its committed logs, undisturbed. */
  lemma UndisturbedRunAgrees(truth: Truth, cfg: Config, steps: seq<Step>)
    requires AgreesConfig(truth, cfg) && AllAgree(truth, steps)
    ensures var logs := Effective(Initial(cfg), cfg, steps);
            && Run(Initial(cfg), cfg, steps).ledger == Run(Initial(cfg), cfg, Clean(logs)).ledger
            && Run(Initial(cfg), cfg, steps).processed == Run(Initial(cfg), cfg, Clean(logs)).processed
  {
    hide Agrees, AgreesConfig, Run, Effective, Replay, Initial, DistinctIds, Ids;
    var logs := Effective(Initial(cfg), cfg, steps);
    ExactlyOnce(truth, cfg, steps);
    CleanRunCommitsAll(truth, cfg, logs);
    ExactlyOnce(truth, cfg, Clean(logs));
  }

  /** Committed ids stay committed, and committed logs stay in the list. */
  lemma {:induction false} EffectiveGrows(cfg: Config, steps: seq<Step>, i: nat)
    requires i <= |steps|
    ensures Effective(Initial(cfg), cfg, steps[..i]) <= Effective(Initial(cfg), cfg, steps)
    decreases |steps| - i
  {
    hide Commits, Initial, Run;
    if i < |steps| {
      assert steps[..i + 1][..i] == steps[..i];
      EffectiveGrows(cfg, steps, i + 1);
    } else {
      assert steps[..i] == steps;
    }
  }

  predicate IdsDetermineLogs(steps: seq<Step>) {
    forall i, j | 0 <= i < |steps| && 0 <= j < |steps| && steps[i].Deliver? && steps[j].Deliver? ::
      steps[i].log.id == steps[j].log.id ==> steps[i].log == steps[j].log
  }

  lemma {:induction false} EffectiveWasDelivered(cfg: Config, steps: seq<Step>, log: Log)
    requires log in Effective(Initial(cfg), cfg, steps)
    ensures exists i :: 0 <= i < |steps| && steps[i].Deliver? && steps[i].log == log
  {
    hide Commits, Initial, Run;
    var n := |steps| - 1;
    var earlier := Effective(Initial(cfg), cfg, steps[..n]);
    if log in earlier {
      EffectiveWasDelivered(cfg, steps[..n], log);
      var i :| 0 <= i < n && steps[..n][i].Deliver? && steps[..n][i].log == log;
      assert steps[i].log == log;
    } else {
      assert steps[n].log == log;
    }
  }

  /** A log delivered without a failure, and not rejected by its handler, has taken effect for good:
      its id is committed, and so is the log itself where an id determines its log. */
  lemma DeliveredTakesEffect(truth: Truth, cfg: Config, steps: seq<Step>, i: nat)
    requires AgreesConfig(truth, cfg) && AllAgree(truth, steps)
    requires i < |steps| && steps[i].Deliver? && steps[i].fault.NoFault?
    requires Apply(Run(Initial(cfg), cfg, steps[..i]).ledger, steps[i].log, truth(steps[i].log.address)).Some?
    ensures steps[i].log.id in Ids(Effective(Initial(cfg), cfg, steps))
    ensures IdsDetermineLogs(steps) ==> steps[i].log in Effective(Initial(cfg), cfg, steps)
  {
    hide Agrees, AgreesConfig, Apply, RoutesTruly, Commits, Initial, Delivered, Replay, DistinctIds, Run, Effective;
    TakesEffectNow(truth, cfg, steps, i);
    var now, logs := Effective(Initial(cfg), cfg, steps[..i + 1]), Effective(Initial(cfg), cfg, steps);
    EffectiveGrows(cfg, steps, i + 1);
    var j :| 0 <= j < |now| && now[j].id == steps[i].log.id;
    assert logs[j] == now[j];
    EffectiveWasDelivered(cfg, steps, logs[j]);
  }

  /** Right after such a delivery its id is among the committed ones. */
  lemma TakesEffectNow(truth: Truth, cfg: Config, steps: seq<Step>, i: nat)
    requires AgreesConfig(truth, cfg) && AllAgree(truth, steps)
    requires i < |steps| && steps[i].Deliver? && steps[i].fault.NoFault?
    requires Apply(Run(Initial(cfg), cfg, steps[..i]).ledger, steps[i].log, truth(steps[i].log.address)).Some?
    ensures steps[i].log.id in Ids(Effective(Initial(cfg), cfg, steps[..i + 1]))
  {
    hide Agrees, AgreesConfig, Apply, RoutesTruly, Commits, Initial, Delivered, Replay, DistinctIds, Effective, Ids;
    var early := steps[..i + 1];
    assert early[..i] == steps[..i] && early[i] == steps[i];
    assert forall step :: step in early ==> step in steps;
    ReachableRoutesTruly(truth, cfg, steps[..i]);
    DeliveryOutcome(truth, Run(Initial(cfg), cfg, steps[..i]), steps[i].log, NoFault);
    ExactlyOnce(truth, cfg, early);
  }

  // --- restarts are invisible in the tables ---

  /** Same tables and same claimed ids; the registries may differ. */
  predicate SameTables(s: State, u: State) {
    s.ledger == u.ledger && s.processed == u.processed
  }

  /** Persisting a first-seen contract is the one call that is made or not according to memory. */
  predicate MemoryAgrees(truth: Truth, s: State, u: State, step: Step) {
    step.Deliver? && step.fault == AtPersist && step.log.id !in s.processed
    && Apply(s.ledger, step.log, truth(step.log.address)).Some? ==>
      FirstSeen(s, step.log) == FirstSeen(u, step.log)
  }

  /** Whether a delivery commits depends on the tables, except that the call persisting a first-seen
      contract can only fail where it is made. */
  lemma SameCommitIff(truth: Truth, s: State, u: State, log: Log, fault: Fault)
    requires Agrees(truth, log) && RoutesTruly(truth, s) && RoutesTruly(truth, u) && SameTables(s, u)
    ensures Commits(s, log, fault) == Commits(u, log, fault) <==> MemoryAgrees(truth, s, u, Deliver(log, fault))
  {
    hide Agrees, Apply, Announced, Claimed, Tracked, RoutesTruly, FirstSeen;
    RoutedIsTruth(truth, s, log);
    RoutedIsTruth(truth, u, log);
    ClaimedFrame(s, log);
    ClaimedFrame(u, log);
    match Apply(s.ledger, log, truth(log.address))
    case None =>
    case Some(ledger) =>
      TrackedFrame(Claimed(s, log).(ledger := ledger), log, Announced(log, truth(log.address)));
      TrackedFrame(Claimed(u, log).(ledger := ledger), log, Announced(log, truth(log.address)));
  }

  /** From two states with the same tables one step keeps them the same exactly when memory agrees on it. */
  lemma SameStepIff(truth: Truth, s: State, u: State, cfg: Config, step: Step)
    requires AgreesConfig(truth, cfg) && (step.Deliver? ==> Agrees(truth, step.log))
    requires SameTables(s, u) && RoutesTruly(truth, s) && RoutesTruly(truth, u)
    ensures SameTables(Next(s, cfg, step), Next(u, cfg, step)) <==> MemoryAgrees(truth, s, u, step)
    ensures RoutesTruly(truth, Next(s, cfg, step)) && RoutesTruly(truth, Next(u, cfg, step))
  {
    hide Agrees, AgreesConfig, Apply, RoutesTruly, Restarted, Delivered, FirstSeen;
    StepRoutesTruly(truth, s, cfg, step);
    StepRoutesTruly(truth, u, cfg, step);
    match step
    case Restart =>
      RestartFrame(s, cfg);
      RestartFrame(u, cfg);
    case Deliver(log, fault) =>
      DeliveryOutcome(truth, s, log, fault);
      DeliveryOutcome(truth, u, log, fault);
      SameCommitIff(truth, s, u, log, fault);
      CommitsFreshId(s, log, fault);
      CommitsFreshId(u, log, fault);
  }

  lemma CommitsFreshId(s: State, log: Log, fault: Fault)
    ensures Commits(s, log, fault) ==> log.id !in s.processed && log.id in Delivered(s, log, fault).processed
  {
    hide Delivered;
  }

  ghost predicate AlwaysSameTables(s: State, u: State, cfg: Config, steps: seq<Step>) {
    forall i :: 0 <= i <= |steps| ==> SameAfter(s, u, cfg, steps[..i])
  }

  ghost predicate SameAfter(s: State, u: State, cfg: Config, steps: seq<Step>) {
    SameTables(Run(s, cfg, steps), Run(u, cfg, steps))
  }

  ghost predicate MemoryAlwaysAgrees(truth: Truth, s: State, u: State, cfg: Config, steps: seq<Step>) {
    forall i :: 0 <= i < |steps| ==> MemoryAgrees(truth, Run(s, cfg, steps[..i]), Run(u, cfg, steps[..i]), steps[i])
  }

  lemma AlwaysSameSnoc(s: State, u: State, cfg: Config, steps: seq<Step>)
    requires steps != []
    ensures AlwaysSameTables(s, u, cfg, steps) <==>
            AlwaysSameTables(s, u, cfg, steps[..|steps| - 1]) && SameAfter(s, u, cfg, steps)
  {
    hide SameAfter;
    var early := steps[..|steps| - 1];
    assert steps[..|steps|] == steps;
    forall i | 0 <= i <= |early| ensures early[..i] == steps[..i] { }
  }

  lemma MemoryAgreesSnoc(truth: Truth, s: State, u: State, cfg: Config, steps: seq<Step>)
    requires steps != []
    ensures var n := |steps| - 1;
            MemoryAlwaysAgrees(truth, s, u, cfg, steps) <==>
            MemoryAlwaysAgrees(truth, s, u, cfg, steps[..n])
            && MemoryAgrees(truth, Run(s, cfg, steps[..n]), Run(u, cfg, steps[..n]), steps[n])
  {
    hide Run, MemoryAgrees;
    var early := steps[..|steps| - 1];
    assert forall i :: 0 <= i < |early| ==> early[i] == steps[i] && early[..i] == steps[..i];
  }

  /** Two states with the same tables, but different memories, run alike for as long as memory agrees on
      every delivery whose persisting call fails, and no longer. */
  lemma {:induction false} SameTablesIff(truth: Truth, s: State, u: State, cfg: Config, steps: seq<Step>)
    requires AgreesConfig(truth, cfg) && AllAgree(truth, steps)
    requires SameTables(s, u) && RoutesTruly(truth, s) && RoutesTruly(truth, u)
    ensures AlwaysSameTables(s, u, cfg, steps) <==> MemoryAlwaysAgrees(truth, s, u, cfg, steps)
    ensures RoutesTruly(truth, Run(s, cfg, steps)) && RoutesTruly(truth, Run(u, cfg, steps))
  {
    hide Agrees, AgreesConfig, MemoryAgrees, RoutesTruly, Next, SameTables;
    if steps == [] {
      assert steps[..0] == [];
    } else {
      var n := |steps| - 1;
      assert forall step :: step in steps[..n] ==> step in steps;
      SameTablesIff(truth, s, u, cfg, steps[..n]);
      AlwaysSameSnoc(s, u, cfg, steps);
      MemoryAgreesSnoc(truth, s, u, cfg, steps);
      StepRoutesTruly(truth, Run(s, cfg, steps[..n]), cfg, steps[n]);
      StepRoutesTruly(truth, Run(u, cfg, steps[..n]), cfg, steps[n]);
      if AlwaysSameTables(s, u, cfg, steps[..n]) {
        assert steps[..n][..n] == steps[..n];
        SameStepIff(truth, Run(s, cfg, steps[..n]), Run(u, cfg, steps[..n]), cfg, steps[n]);
      }
    }
  }

  lemma {:induction false} RunAppend(s: State, cfg: Config, first: seq<Step>, second: seq<Step>)
    ensures Run(s, cfg, first + second) == Run(Run(s, cfg, first), cfg, second)
  {
    hide Next;
    if second == [] {
      assert first + second == first;
    } else {
      var n := |second| - 1;
      RunAppend(s, cfg, first, second[..n]);
      assert (first + second)[..|first| + n] == first + second[..n];
    }
  }

  /** A restart inserted anywhere in a run leaves tables and claimed ids the same throughout the rest if and
      only if memory agrees, with and without it, on every delivery whose persisting call fails. */
  lemma RestartIsInvisibleIff(truth: Truth, cfg: Config, first: seq<Step>, second: seq<Step>)
    requires AgreesConfig(truth, cfg) && AllAgree(truth, first) && AllAgree(truth, second)
    ensures var s := Run(Initial(cfg), cfg, first);
            && (AlwaysSameTables(s, Restarted(s, cfg), cfg, second) <==>
                MemoryAlwaysAgrees(truth, s, Restarted(s, cfg), cfg, second))
            && (AlwaysSameTables(s, Restarted(s, cfg), cfg, second) ==>
                SameTables(Run(Initial(cfg), cfg, first + second), Run(Initial(cfg), cfg, first + [Restart] + second)))
  {
    hide Agrees, AgreesConfig, RoutesTruly, Restarted, Initial, Next, MemoryAlwaysAgrees;
    var s := Run(Initial(cfg), cfg, first);
    ReachableRoutesTruly(truth, cfg, first);
    RunAppend(Initial(cfg), cfg, first, second);
    RunAppend(Initial(cfg), cfg, first + [Restart], second);
    RestartLast(Initial(cfg), cfg, first);
    RestartFrame(s, cfg);
    RestartKeepsTruth(truth, s, cfg);
    SameTablesIff(truth, s, Restarted(s, cfg), cfg, second);
    assert second[..|second|] == second;
  }

  lemma RestartLast(s: State, cfg: Config, first: seq<Step>)
    ensures Run(s, cfg, first + [Restart]) == Restarted(Run(s, cfg, first), cfg)
  {
    hide Restarted, Delivered;
    assert (first + [Restart])[..|first|] == first;
  }

  lemma RestartKeepsTruth(truth: Truth, s: State, cfg: Config)
    requires AgreesConfig(truth, cfg) && RoutesTruly(truth, s)
    ensures RoutesTruly(truth, Restarted(s, cfg))
  {
    hide AgreesConfig, TableTrue, Restarted;
    RestartRoutesTruly(truth, s, cfg);
  }

  /** Where the persisting call does not fail after the restart, the restart is invisible. */
  lemma RestartIsInvisible(truth: Truth, cfg: Config, first: seq<Step>, second: seq<Step>)
    requires AgreesConfig(truth, cfg) && AllAgree(truth, first) && AllAgree(truth, second)
    requires forall step :: step in second && step.Deliver? ==> step.fault != AtPersist
    ensures SameTables(Run(Initial(cfg), cfg, first + second), Run(Initial(cfg), cfg, first + [Restart] + second))
  {
    hide Agrees, AgreesConfig, Run, Restarted, Initial, FirstSeen;
    RestartIsInvisibleIff(truth, cfg, first, second);
  }

  const BLANK_STATE := State(EMPTY_LEDGER, {}, map[], map[])

  lemma BlankRestarts(chain: nat, registry: map<Addr, Kind>)
    ensures Initial(Config(chain, [])) == BLANK_STATE
    ensures Restarted(BLANK_STATE.(registry := registry), Config(chain, [])) == BLANK_STATE
  {
    hide KindToken, KindFromString;
  }

  lemma FirstAttempts(log: Log)
    requires Classify(log.contractName) == IouKind && log.event == OtherEvent
    ensures var cached := BLANK_STATE.(registry := map[log.address := IouKind]);
            && Delivered(BLANK_STATE, log, AtCommit) == cached
            && log.id in Delivered(cached, log, AtPersist).processed
            && log.id !in Delivered(BLANK_STATE, log, AtPersist).processed
  {
    hide Classify, KindToken, IouTransfer;
  }

  /** An input on which a restart shows: an attempt whose commit fails leaves its contract in memory, so the
      next attempt makes no persisting call that could fail, unless a restart came in between. */
  lemma RestartCanShow(log: Log)
    requires Classify(log.contractName) == IouKind && log.event == OtherEvent
    ensures var cfg := Config(log.chain, []);
            var failed, retried := Deliver(log, AtCommit), Deliver(log, AtPersist);
            && log.id in Run(Initial(cfg), cfg, [failed, retried]).processed
            && log.id !in Run(Initial(cfg), cfg, [failed, Restart, retried]).processed
  {
    hide Classify, Delivered, Restarted, Initial, Run;
    var cfg := Config(log.chain, []);
    var failed, retried := Deliver(log, AtCommit), Deliver(log, AtPersist);
    BlankRestarts(log.chain, map[log.address := IouKind]);
    FirstAttempts(log);
    RunThree(Initial(cfg), cfg, failed, retried, Restart);
    RunThree(Initial(cfg), cfg, failed, Restart, retried);
  }

  lemma RunThree(s: State, cfg: Config, a: Step, b: Step, c: Step)
    ensures Run(s, cfg, [a, b]) == Next(Next(s, cfg, a), cfg, b)
    ensures Run(s, cfg, [a, b, c]) == Next(Next(Next(s, cfg, a), cfg, b), cfg, c)
  {
    hide Next;
    assert [a, b, c][..2] == [a, b] && [a, b][..1] == [a] && [a][..0] == [];
    assert Run(s, cfg, [a]) == Next(s, cfg, a);
    assert Run(s, cfg, [a, b]) == Next(Run(s, cfg, [a]), cfg, b);
  }

  // --- what is not exactly-once, and what fails without agreement on the true kinds ---

  /** The registry table is not part of the guarantee: a first delivery whose commit fails, the contract
      being cached by then, leaves the retry with nothing to persist, so the retry commits the same ledger
      without the row a clean first delivery writes. */
  lemma RetryLosesContractRow(s: State, log: Log)
    requires log.address !in s.registry && Emitter(log) !in s.contracts && log.id !in s.processed
    requires Classify(log.contractName) != UnknownKind
    requires Apply(s.ledger, log, Classify(log.contractName)).Some? && Announced(log, Classify(log.contractName)).None?
    ensures var clean := Delivered(s, log, NoFault);
            var retried := Delivered(Delivered(s, log, AtCommit), log, NoFault);
            && SameTables(clean, retried)
            && Emitter(log) in clean.contracts && Emitter(log) !in retried.contracts
  {
    hide Classify, Apply, Announced, KindToken;
  }

  /** trackContract overwrites memory while the table keeps its first row: the tracked kind survives a
      reload if and only if the address had no row yet or its row names the same kind. */
  lemma TrackedKindSurvivesReload(s: State, log: Log, ann: Announcement)
    requires ann.kind != UnknownKind
    ensures var r := Tracked(s, log, Some(ann));
            var id := Id(log.chain, ann.addr);
            var loaded := Load(r.contracts, log.chain);
            ann.addr in loaded && loaded[ann.addr] == r.registry[ann.addr]
            <==> (id !in s.contracts || KindFromString(s.contracts[id].kind) == ann.kind)
  {
    hide KindFromString, KindToken;
    KindRoundTrip(ann.kind);
    var id := Id(log.chain, ann.addr);
    assert id.addr == ann.addr && id.chain == log.chain;
  }
}
