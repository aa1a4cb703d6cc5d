/**
 The delivery state machine (main.go: NewLogEvent, Init; registry.go). The tables change only by
 committed transactions; the in-memory registry is outside them and survives a rollback.
 */
module Machine {
  import opened Addresses
  import opened Effects
  import opened Kinds
  import opened Options
  import opened Tables

  /** A row of clear_contracts; `configured` is source = 'config'. */
  datatype ContractRow = ContractRow(kind: string, configured: bool)

  datatype ContractConfig = ContractConfig(address: Addr, kind: string)

  datatype Config = Config(chain: nat, contracts: seq<ContractConfig>)

  datatype State = State(
    ledger: Ledger, processed: set<string>, contracts: map<Id, ContractRow>, registry: map<Addr, Kind>)

  /** The database or chain call that fails during a delivery; calls not reached cannot fail. InHandler stands
      for any call of the handler, and is allowed even for an event whose handler makes none. */
  datatype Fault = NoFault | AtBegin | AtPersist | InHandler | AtTrack | AtCommit

  datatype Step = Deliver(log: Log, fault: Fault) | Restart

  /** persistContract: the first writer's row is kept. */
  function Persist(contracts: map<Id, ContractRow>, id: Id, k: Kind): map<Id, ContractRow> {
    if id in contracts then contracts else contracts[id := ContractRow(KindToken(k), false)]
  }

  /** seedContracts: a configured contract overwrites the stored row. */
  function Seed(contracts: map<Id, ContractRow>, cfg: Config): map<Id, ContractRow>
    decreases |cfg.contracts|
  {
    if cfg.contracts == [] then contracts
    else
      var n := |cfg.contracts| - 1;
      var c := cfg.contracts[n];
      var before := Seed(contracts, cfg.(contracts := cfg.contracts[..n]));
      if c.address == NoAddr || KindFromString(c.kind) == UnknownKind then before
      else before[Id(cfg.chain, c.address) := ContractRow(KindToken(KindFromString(c.kind)), true)]
  }

  /** loadRegistry: the readable rows of the exporter's own chain. */
  function Load(contracts: map<Id, ContractRow>, chain: nat): map<Addr, Kind> {
    map id | id in contracts && id.chain == chain && KindFromString(contracts[id].kind) != UnknownKind ::
      id.addr := KindFromString(contracts[id].kind)
  }

  /** The kind a log is routed by: the cached one, else the classification of its ABI name. */
  function Routed(registry: map<Addr, Kind>, log: Log): Kind {
    if log.address in registry then registry[log.address] else Classify(log.contractName)
  }

  /** Resolving a log persists a contract exactly when it is seen for the first time with a known kind. */
  predicate FirstSeen(s: State, log: Log) {
    log.address !in s.registry && Classify(log.contractName) != UnknownKind
  }

  function Tracked(s: State, log: Log, ann: Option<Announcement>): State {
    if ann.None? then s
    else s.(contracts := Persist(s.contracts, Id(log.chain, ann.value.addr), ann.value.kind),
            registry := s.registry[ann.value.addr := ann.value.kind])
  }

  /** The working state of a transaction once the id is claimed and the contract resolved. */
  function Claimed(s: State, log: Log): State {
    var k := Routed(s.registry, log);
    s.(processed := s.processed + {log.id},
       contracts := if FirstSeen(s, log) then Persist(s.contracts, Emitter(log), k) else s.contracts,
       registry := s.registry[log.address := k])
  }

  /** The working state after the handler; None when the log's handler rejects it. */
  function Handled(s: State, log: Log): Option<State> {
    var k := Routed(s.registry, log);
    match Apply(s.ledger, log, k)
    case None => None
    case Some(ledger) => Some(Tracked(Claimed(s, log).(ledger := ledger), log, Announced(log, k)))
  }

  /** Everything but the registry is taken back. */
  function RolledBack(s: State, working: State): State {
    s.(registry := working.registry)
  }

  predicate FailsBeforeHandler(s: State, log: Log, fault: Fault) {
    (fault == AtPersist && FirstSeen(s, log))
    || (fault == InHandler && Routed(s.registry, log) != UnknownKind)
  }

  predicate FailsAfterHandler(s: State, log: Log, fault: Fault) {
    fault == AtCommit || (fault == AtTrack && Announced(log, Routed(s.registry, log)).Some?)
  }

  /** One delivery of a log. */
  function Delivered(s: State, log: Log, fault: Fault): State {
    if fault == AtBegin || log.id in s.processed then s
    else if FailsBeforeHandler(s, log, fault) || Handled(s, log).None? then RolledBack(s, Claimed(s, log))
    else if FailsAfterHandler(s, log, fault) then RolledBack(s, Handled(s, log).value)
    else Handled(s, log).value
  }

  /** A process restart: seed the configured contracts, then reload the registry. */
  function Restarted(s: State, cfg: Config): State {
    var contracts := Seed(s.contracts, cfg);
    s.(contracts := contracts, registry := Load(contracts, cfg.chain))
  }

  function Next(s: State, cfg: Config, step: Step): State {
    match step
    case Deliver(log, fault) => Delivered(s, log, fault)
    case Restart => Restarted(s, cfg)
  }

  function Run(s: State, cfg: Config, steps: seq<Step>): State {
    if steps == [] then s
    else Next(Run(s, cfg, steps[..|steps| - 1]), cfg, steps[|steps| - 1])
  }

  /** The state after Init on an empty database. */
  function Initial(cfg: Config): State {
    Restarted(State(EMPTY_LEDGER, {}, map[], map[]), cfg)
  }
}
