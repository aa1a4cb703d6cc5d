/**
 What clear_contracts holds: the one table outside the exactly-once guarantee, because memory is cached
 before the commit and a cached contract is not persisted again (registry.go, main.go).
 */
module ContractRows {
  import opened Addresses
  import opened Delivery
  import opened Effects
  import opened Kinds
  import opened Machine
  import opened Options
  import opened Tables
  import opened Valuation
  import CurvePools

  // --- what the registry holds ---

  /** The kind the configuration gives an address: that of its last entry with a readable kind. */
  function ConfiguredKind(contracts: seq<ContractConfig>, addr: Addr): Option<Kind> {
    if contracts == [] then None
    else
      var c := contracts[|contracts| - 1];
      if c.address == addr && Readable(c) then Some(KindFromString(c.kind))
      else ConfiguredKind(contracts[..|contracts| - 1], addr)
  }

  predicate Readable(c: ContractConfig) {
    c.address != NoAddr && KindFromString(c.kind) != UnknownKind
  }

  /** Seeding makes the configuration win over any stored row, and leaves every other row alone. */
  lemma {:induction false} SeedOverwrites(contracts: map<Id, ContractRow>, cfg: Config, id: Id)
    ensures var after := Seed(contracts, cfg);
            match (if id.chain == cfg.chain then ConfiguredKind(cfg.contracts, id.addr) else None)
            case Some(k) => id in after && after[id] == ContractRow(KindToken(k), true)
            case None => (id in after <==> id in contracts) && (id in contracts ==> after[id] == contracts[id])
    decreases |cfg.contracts|
  {
    hide KindFromString, KindToken;
    if cfg.contracts != [] {
      SeedOverwrites(contracts, cfg.(contracts := cfg.contracts[..|cfg.contracts| - 1]), id);
    }
  }

  lemma {:induction false} ConfiguredIsKnown(contracts: seq<ContractConfig>, addr: Addr)
    ensures ConfiguredKind(contracts, addr).Some? ==> ConfiguredKind(contracts, addr).value != UnknownKind
  {
    hide KindFromString;
    if contracts != [] { ConfiguredIsKnown(contracts[..|contracts| - 1], addr); }
  }

  /** After a restart memory holds every address of the exporter's chain with a readable kind: the configured one, or
      the stored one where nothing is configured. */
  lemma RestartLoads(s: State, cfg: Config, addr: Addr)
    ensures var r, id := Restarted(s, cfg).registry, Id(cfg.chain, addr);
            match ConfiguredKind(cfg.contracts, addr)
            case Some(k) => addr in r && r[addr] == k
            case None =>
              && (addr in r <==> id in s.contracts && KindFromString(s.contracts[id].kind) != UnknownKind)
              && (addr in r ==> r[addr] == KindFromString(s.contracts[id].kind))
  {
    hide KindFromString, KindToken, Seed;
    SeedOverwrites(s.contracts, cfg, Id(cfg.chain, addr));
    ConfiguredIsKnown(cfg.contracts, addr);
    var k := ConfiguredKind(cfg.contracts, addr);
    if k.Some? { KindRoundTrip(k.value); }
    LoadedRow(Seed(s.contracts, cfg), cfg.chain, addr);
  }

  lemma LoadedRow(contracts: map<Id, ContractRow>, chain: nat, addr: Addr)
    ensures var r, id := Load(contracts, chain), Id(chain, addr);
            && (addr in r <==> id in contracts && KindFromString(contracts[id].kind) != UnknownKind)
            && (addr in r ==> r[addr] == KindFromString(contracts[id].kind))
  {
    hide KindFromString;
    var id := Id(chain, addr);
    assert id.addr == addr && id.chain == chain;
  }

  /** A committed discovery is in memory as what the log says it is and routes its later logs so; where no row was
      there before, the table and a reload of it say the same. */
  lemma DiscoveredIsTracked(s: State, log: Log, fault: Fault, addr: Addr, kind: Kind, later: Log)
    requires Commits(s, log, fault) && Discovers(log, Routed(s.registry, log), addr, kind) && later.address == addr
    ensures var r, id := Delivered(s, log, fault), Id(log.chain, addr);
            && addr in r.registry && r.registry[addr] == kind && Routed(r.registry, later) == kind
            && (id !in s.contracts && addr != log.address ==>
                  && id in r.contracts && r.contracts[id] == ContractRow(KindToken(kind), false)
                  && Routed(Load(r.contracts, log.chain), later) == kind)
  {
    hide Apply, Announced, Classify, Persist, KindFromString, KindToken, Discovers, Load;
    var k := Routed(s.registry, log);
    AnnouncedIsDiscovered(log, k, addr, kind);
    AnnouncesKnown(log, k);
    CommittedRows(s, log, fault);
    CleanRows(s, log);
    var id := Id(log.chain, addr);
    PersistRow(s.contracts, Emitter(log), k);
    PersistRow(Seen(s, log), id, kind);
    KindRoundTrip(kind);
    LoadedRow(Delivered(s, log, fault).contracts, log.chain, addr);
  }

  /** Throughout a run that agrees with the true kinds, and after any restart, the later logs of what a delivered log
      discovers are routed as what that log said it is. */
  lemma RunRoutesDiscovered(
    truth: Truth, cfg: Config, steps: seq<Step>, i: nat, addr: Addr, kind: Kind, later: Log)
    requires AgreesConfig(truth, cfg) && AllAgree(truth, steps) && Agrees(truth, later) && later.address == addr
    requires i < |steps| && steps[i].Deliver? && Discovers(steps[i].log, truth(steps[i].log.address), addr, kind)
    ensures var s := Run(Initial(cfg), cfg, steps);
            Routed(s.registry, later) == kind && Routed(Restarted(s, cfg).registry, later) == kind
  {
    hide AgreesConfig, Run, Restarted, Initial, Discovers, Classify, Load, Routed;
    assert Agrees(truth, steps[i].log) by { assert steps[i] in steps; }
    RestartKeepsRouting(truth, cfg, steps, later);
  }

  // --- one failed delivery and its retry ---

  predicate Fails(s: State, log: Log, fault: Fault) {
    FailsBeforeHandler(s, log, fault) || FailsAfterHandler(s, log, fault)
  }

  predicate Accepted(s: State, log: Log) {
    Apply(s.ledger, log, Routed(s.registry, log)).Some?
  }

  /** The contract a log announces is its own emitter. */
  predicate AnnouncesItself(s: State, log: Log) {
    var ann := Announced(log, Routed(s.registry, log));
    ann.Some? && ann.value.addr == log.address
  }

  /** The failing family: the emitter has no row, and the failed attempt leaves memory naming it. */
  predicate LosesRow(s: State, log: Log, fault: Fault) {
    && log.id !in s.processed && Accepted(s, log) && Emitter(log) !in s.contracts
    && ((Fails(s, log, fault) && FirstSeen(s, log)) || (FailsAfterHandler(s, log, fault) && AnnouncesItself(s, log)))
  }

  function Persisted(contracts: map<Id, ContractRow>, log: Log, ann: Option<Announcement>): map<Id, ContractRow> {
    if ann.None? then contracts else Persist(contracts, Id(log.chain, ann.value.addr), ann.value.kind)
  }

  /** The rows once the emitter is resolved. */
  function Seen(s: State, log: Log): map<Id, ContractRow> {
    if FirstSeen(s, log) then Persist(s.contracts, Emitter(log), Routed(s.registry, log)) else s.contracts
  }

  /** The contract rows a clean delivery of an accepted log leaves. */
  lemma CleanRows(s: State, log: Log)
    requires log.id !in s.processed && Accepted(s, log)
    ensures var k := Routed(s.registry, log);
            Delivered(s, log, NoFault).contracts ==
            Persisted(Seen(s, log), log, Announced(log, k))
  {
    hide Apply, Announced, Classify, Persist;
  }

  lemma RejectedRows(s: State, log: Log, fault: Fault)
    requires !Accepted(s, log)
    ensures Delivered(s, log, fault) == s
            || Delivered(s, log, fault) == s.(registry := s.registry[log.address := Routed(s.registry, log)])
  {
    hide Apply, Announced, Classify, Persist, Tracked;
  }

  /** The state a failed delivery leaves: the tables of before, and memory that names the emitter. */
  lemma FailedState(s: State, log: Log, fault: Fault)
    requires log.id !in s.processed && Accepted(s, log) && Fails(s, log, fault)
    ensures var k := Routed(s.registry, log);
            var ann := Announced(log, k);
            var cached := s.registry[log.address := k];
            Delivered(s, log, fault) ==
            s.(registry :=
                 if FailsAfterHandler(s, log, fault) && ann.Some? then cached[ann.value.addr := ann.value.kind]
                 else cached)
  {
    hide Apply, Announced, Classify, Persist;
  }

  lemma NoFailureDelivers(s: State, log: Log, fault: Fault)
    requires log.id !in s.processed && Accepted(s, log) && !Fails(s, log, fault)
    ensures Delivered(s, log, fault) == if fault == AtBegin then s else Delivered(s, log, NoFault)
  {
    hide Apply, Announced, Classify, Persist, Tracked;
  }

  lemma TokensDiffer(k: Kind, other: Kind)
    requires k != other
    ensures KindToken(k) != KindToken(other)
  {
    hide KindToken, KindOfToken;
    TokenNamesKind(k);
    TokenNamesKind(other);
  }

  /** No log announces a contract of the kind it is routed by, and a log routed by the kind it
      announces is inert. */
  lemma AnnouncedKinds(t: Ledger, log: Log, k: Kind)
    ensures var ann := Announced(log, k);
            ann.Some? ==>
              && ann.value.kind != k && Announced(log, ann.value.kind).None?
              && Apply(t, log, ann.value.kind) == Some(t)
  {
    hide CurvePools.Deployed, Snapshot, AddFlows, Flows, PutAsset;
  }

  lemma PersistRow(contracts: map<Id, ContractRow>, id: Id, k: Kind)
    ensures id in Persist(contracts, id, k)
    ensures id !in contracts ==> Persist(contracts, id, k)[id] == ContractRow(KindToken(k), false)
    ensures id in contracts ==> Persist(contracts, id, k) == contracts
    ensures forall other :: other != id ==>
              (other in Persist(contracts, id, k) <==> other in contracts)
              && (other in contracts ==> Persist(contracts, id, k)[other] == contracts[other])
  {
    hide KindToken;
  }

  /** A retry routes by what the failed attempt left in memory, and never sees its contract for the first time. */
  lemma RetriedRows(s: State, log: Log, fault: Fault)
    requires log.id !in s.processed && Accepted(s, log) && Fails(s, log, fault)
    ensures var retried := Delivered(Delivered(s, log, fault), log, NoFault);
            retried.contracts ==
            if FailsAfterHandler(s, log, fault) && AnnouncesItself(s, log) then s.contracts
            else Persisted(s.contracts, log, Announced(log, Routed(s.registry, log)))
  {
    hide Apply, Announced, Classify, Persist, Delivered, FailsBeforeHandler, FailsAfterHandler;
    FailedState(s, log, fault);
    AnnouncedKinds(s.ledger, log, Routed(s.registry, log));
    CleanRows(Delivered(s, log, fault), log);
  }

  /** The ledger has no such gap: the retry's is the clean delivery's, except where the failed attempt
      routed the retry to a contract the log announced in its own place. */
  lemma RetryKeepsLedger(s: State, log: Log, fault: Fault)
    requires log.id !in s.processed && Accepted(s, log) && Fails(s, log, fault)
    ensures var clean, retried := Delivered(s, log, NoFault), Delivered(Delivered(s, log, fault), log, NoFault);
            && retried.processed == clean.processed
            && retried.ledger ==
               if FailsAfterHandler(s, log, fault) && AnnouncesItself(s, log) then s.ledger else clean.ledger
  {
    hide Apply, Announced, Classify, Persist, Delivered, FailsBeforeHandler, FailsAfterHandler;
    FailedState(s, log, fault);
    AnnouncedKinds(s.ledger, log, Routed(s.registry, log));
    CleanTables(s, log);
    CleanTables(Delivered(s, log, fault), log);
  }

  lemma CleanTables(s: State, log: Log)
    requires log.id !in s.processed && Accepted(s, log)
    ensures Delivered(s, log, NoFault).ledger == Apply(s.ledger, log, Routed(s.registry, log)).value
    ensures Delivered(s, log, NoFault).processed == s.processed + {log.id}
  {
    hide Apply, Announced, Classify, Persist;
  }

  /** Two ways to write the rows of one delivery agree unless the emitter's own row is missing from one. */
  lemma RowsAgreeIff(contracts: map<Id, ContractRow>, log: Log, k: Kind, ann: Option<Announcement>)
    requires ann.Some? ==> ann.value.kind != k
    ensures Persisted(Persist(contracts, Emitter(log), k), log, ann) == Persisted(contracts, log, ann) <==>
            Emitter(log) in contracts
    ensures ann.Some? && ann.value.addr == log.address ==> Emitter(log) in Persisted(contracts, log, ann)
    ensures Emitter(log) in Persist(contracts, Emitter(log), k)
    ensures Emitter(log) in Persisted(Persist(contracts, Emitter(log), k), log, ann)
  {
    hide KindToken, Persist;
    PersistRow(contracts, Emitter(log), k);
    if ann.Some? {
      var id := Id(log.chain, ann.value.addr);
      TokensDiffer(k, ann.value.kind);
      PersistRow(contracts, id, ann.value.kind);
      PersistRow(Persist(contracts, Emitter(log), k), id, ann.value.kind);
    }
  }

  /** A retry leaves the contract rows of a clean delivery if and only if the log is not of the failing
      family, whatever call failed and whatever the log announces. */
  lemma RetryKeepsRowsIff(s: State, log: Log, fault: Fault)
    ensures Delivered(Delivered(s, log, fault), log, NoFault).contracts == Delivered(s, log, NoFault).contracts <==>
            !LosesRow(s, log, fault)
  {
    hide Apply, Announced, Classify, Persist, Tracked, Claimed, Delivered, FailsBeforeHandler, FailsAfterHandler,
         FirstSeen, Persisted;
    var k := Routed(s.registry, log);
    if log.id in s.processed {
      ClaimedIsInert(s, log, fault);
    } else if !Accepted(s, log) {
      RejectedRows(s, log, fault);
      RejectedRows(s, log, NoFault);
      RejectedRows(Delivered(s, log, fault), log, NoFault);
    } else if !Fails(s, log, fault) {
      NoFailureDelivers(s, log, fault);
      CommittedIsInert(s, log);
    } else {
      AnnouncedKinds(s.ledger, log, k);
      RetriedRows(s, log, fault);
      CleanRows(s, log);
      RowsAgreeIff(s.contracts, log, k, Announced(log, k));
      if Emitter(log) in s.contracts { KeptRow(s, log); }
    }
  }

  lemma ClaimedIsInert(s: State, log: Log, fault: Fault)
    requires log.id in s.processed
    ensures Delivered(s, log, fault) == s
  {
    hide Apply, Announced, Classify;
  }

  lemma CommittedIsInert(s: State, log: Log)
    requires Accepted(s, log)
    ensures Delivered(Delivered(s, log, NoFault), log, NoFault) == Delivered(s, log, NoFault)
  {
    hide Apply, Announced, Classify, Persist;
    ClaimedIsInert(Delivered(s, log, NoFault), log, NoFault);
  }

  /** With a row for the emitter already there, neither way writes another for it. */
  lemma KeptRow(s: State, log: Log)
    requires Emitter(log) in s.contracts
    ensures var k := Routed(s.registry, log);
            Persist(s.contracts, Emitter(log), k) == s.contracts
            && (AnnouncesItself(s, log) ==> Persisted(s.contracts, log, Announced(log, k)) == s.contracts)
  {
    hide Announced, Classify;
  }

  // --- whole runs ---

  /** The delivery writes a row for the contract: its transaction commits, and either its emitter was
      not in memory or its handler announced the contract. */
  ghost predicate Writes(s: State, log: Log, fault: Fault, id: Id) {
    && Commits(s, log, fault)
    && ((Emitter(log) == id && FirstSeen(s, log)) || DiscoversId(log, Routed(s.registry, log), id))
  }

  /** A log of a contract of kind k makes the contract known. */
  ghost predicate DiscoversId(log: Log, k: Kind, id: Id) {
    log.chain == id.chain && exists kind :: Discovers(log, k, id.addr, kind)
  }

  lemma AnnouncedId(log: Log, k: Kind, id: Id)
    ensures DiscoversId(log, k, id) <==>
            Announced(log, k).Some? && Id(log.chain, Announced(log, k).value.addr) == id
  {
    hide Announced, Discovers;
    var ann := Announced(log, k);
    if ann.Some? { AnnouncedIsDiscovered(log, k, ann.value.addr, ann.value.kind); }
    if DiscoversId(log, k, id) {
      var kind :| Discovers(log, k, id.addr, kind);
      AnnouncedIsDiscovered(log, k, id.addr, kind);
    }
  }

  lemma CommittedRows(s: State, log: Log, fault: Fault)
    ensures Commits(s, log, fault) ==> Accepted(s, log) && Delivered(s, log, fault) == Delivered(s, log, NoFault)
    ensures !Commits(s, log, fault) ==> Delivered(s, log, fault).contracts == s.contracts
  {
    hide Apply, Announced, Classify, Persist;
  }

  lemma DeliveryRow(s: State, log: Log, fault: Fault, id: Id)
    ensures id in Delivered(s, log, fault).contracts <==> id in s.contracts || Writes(s, log, fault, id)
  {
    hide Apply, Announced, Classify, Persist, Delivered, FirstSeen, DiscoversId;
    CommittedRows(s, log, fault);
    AnnouncedId(log, Routed(s.registry, log), id);
    if Commits(s, log, fault) {
      var k := Routed(s.registry, log);
      CleanRows(s, log);
      PersistRow(s.contracts, Emitter(log), k);
      var seen := if FirstSeen(s, log) then Persist(s.contracts, Emitter(log), k) else s.contracts;
      if Announced(log, k).Some? {
        PersistRow(seen, Id(log.chain, Announced(log, k).value.addr), Announced(log, k).value.kind);
      }
    }
  }

  /** The configuration lists the contract with a readable kind. */
  predicate Configured(cfg: Config, id: Id) {
    id.chain == cfg.chain
    && (exists c :: c in cfg.contracts && c.address == id.addr && Readable(c))
  }

  lemma {:induction false} SeedRow(contracts: map<Id, ContractRow>, cfg: Config, id: Id)
    ensures id in Seed(contracts, cfg) <==> id in contracts || Configured(cfg, id)
    decreases |cfg.contracts|
  {
    hide KindFromString, KindToken;
    if cfg.contracts != [] {
      var n := |cfg.contracts| - 1;
      SeedRow(contracts, cfg.(contracts := cfg.contracts[..n]), id);
      assert forall c :: c in cfg.contracts <==> c in cfg.contracts[..n] || c == cfg.contracts[n];
    }
  }

  /** Some delivery of the run writes a row for the contract. */
  ghost predicate Written(cfg: Config, steps: seq<Step>, id: Id) {
    exists i :: 0 <= i < |steps| && steps[i].Deliver?
      && Writes(Run(Initial(cfg), cfg, steps[..i]), steps[i].log, steps[i].fault, id)
  }

  lemma WrittenSnoc(cfg: Config, steps: seq<Step>, id: Id)
    requires steps != []
    ensures var n := |steps| - 1;
            Written(cfg, steps, id) <==>
            Written(cfg, steps[..n], id)
            || (steps[n].Deliver? && Writes(Run(Initial(cfg), cfg, steps[..n]), steps[n].log, steps[n].fault, id))
  {
    hide Writes, Run, Initial;
    var n := |steps| - 1;
    assert forall i :: 0 <= i < n ==> steps[..n][i] == steps[i] && steps[..n][..i] == steps[..i];
  }

  /** In every reachable state, under any routing, a contract has a row if and only if it is configured or
      a committed delivery announced it or saw it as its emitter for the first time. */
  lemma {:induction false} RowsOfRun(cfg: Config, steps: seq<Step>, id: Id)
    ensures id in Run(Initial(cfg), cfg, steps).contracts <==> Configured(cfg, id) || Written(cfg, steps, id)
  {
    hide Delivered, Configured, Written, Writes, Seed, Load;
    if steps == [] {
      SeedRow(map[], cfg, id);
      NothingWritten(cfg, id);
    } else {
      var n := |steps| - 1;
      var s := Run(Initial(cfg), cfg, steps[..n]);
      RowsOfRun(cfg, steps[..n], id);
      WrittenSnoc(cfg, steps, id);
      match steps[n]
      case Restart => SeedRow(s.contracts, cfg, id);
      case Deliver(log, fault) => DeliveryRow(s, log, fault, id);
    }
  }

  lemma NothingWritten(cfg: Config, id: Id)
    ensures !Written(cfg, [], id)
  {
  }

  /** Under true routing a contract's row is missing exactly when it is neither configured nor announced
      and every one of its own logs that committed found it in memory. */
  lemma EmitterRowIff(truth: Truth, cfg: Config, steps: seq<Step>, id: Id)
    requires AgreesConfig(truth, cfg) && AllAgree(truth, steps)
    ensures id in Run(Initial(cfg), cfg, steps).contracts <==>
            || Configured(cfg, id)
            || AnnouncedIn(truth, cfg, steps, id)
            || FirstSeenIn(cfg, steps, id)
  {
    hide Agrees, AgreesConfig, Run, Initial, Configured, Announced, FirstSeen, Commits, Routed, DiscoversId;
    RowsOfRun(cfg, steps, id);
    forall i | 0 <= i < |steps| && steps[i].Deliver?
      ensures Routed(Run(Initial(cfg), cfg, steps[..i]).registry, steps[i].log) == truth(steps[i].log.address)
    {
      assert forall step :: step in steps[..i] ==> step in steps;
      ReachableRoutesTruly(truth, cfg, steps[..i]);
      RoutedIsTruth(truth, Run(Initial(cfg), cfg, steps[..i]), steps[i].log);
    }
  }

  predicate CommitsAt(cfg: Config, steps: seq<Step>, i: nat)
    requires i < |steps|
  {
    steps[i].Deliver? && Commits(Run(Initial(cfg), cfg, steps[..i]), steps[i].log, steps[i].fault)
  }

  /** A committed log of the run announces the contract. */
  ghost predicate AnnouncedIn(truth: Truth, cfg: Config, steps: seq<Step>, id: Id) {
    exists i :: 0 <= i < |steps| && CommitsAt(cfg, steps, i)
                && DiscoversId(steps[i].log, truth(steps[i].log.address), id)
  }

  /** A committed log of the contract found it missing from memory. */
  predicate FirstSeenIn(cfg: Config, steps: seq<Step>, id: Id) {
    exists i :: 0 <= i < |steps| && CommitsAt(cfg, steps, i)
                && Emitter(steps[i].log) == id && FirstSeen(Run(Initial(cfg), cfg, steps[..i]), steps[i].log)
  }
}
