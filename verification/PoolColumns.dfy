/**
 What every column of a pool's row holds, read off the committed events (handlers.go: handleCurveSwap,
 handlePoolDeployed, handleCurvePoolDeployed; curve.go: eventCoins).
 */
module PoolColumns {
  import opened Addresses
  import opened CurvePools
  import opened Delivery
  import opened Effects
  import opened Frames
  import opened Kinds
  import opened Options
  import opened Sums
  import opened Tables

  // --- the events of a pool ---

  /** PoolDeployed of the pool, by a deployer. */
  predicate Links(truth: Truth, log: Log, id: Id) {
    && truth(log.address).CurveDeployerKind? && log.event.PoolDeployed? && log.chain == id.chain
    && log.event.pool == id.addr && id.addr != NoAddr && id.addr != ZERO_ADDRESS
  }

  /** Plain/MetaPoolDeployed whose receipt resolves to the pool, by a Curve factory. */
  predicate Describes(truth: Truth, log: Log, id: Id) {
    && truth(log.address).CurveFactoryKind? && log.event.CurvePoolDeployed? && log.event.receipt.Some?
    && log.chain == id.chain && Deployed(log) == id.addr && id.addr != NoAddr
    && (!log.event.meta ==> log.event.coins.Elements?)
  }

  /** A Transfer, swap or liquidity event the pool emitted itself. */
  predicate Uses(truth: Truth, log: Log, id: Id) {
    && truth(log.address).CurveKind? && Emitter(log) == id
    && ((log.event.Transfer? && log.event.value.Some?) || log.event.TokenExchange? || log.event.LiquidityChanged?)
  }

  predicate Touches(truth: Truth, log: Log, id: Id) {
    Links(truth, log, id) || Describes(truth, log, id) || Uses(truth, log, id)
  }

  /** The coins a deployment event lists: a metapool's coin and base pool, a plain pool's coins. */
  function ListedCoins(e: Event): seq<Addr>
    requires e.CurvePoolDeployed? && (!e.meta ==> e.coins.Elements?)
  {
    if !e.meta then e.coins.elements
    else
      (if e.coin != NoAddr && e.coin != ZERO_ADDRESS then [e.coin] else [])
      + (if e.basePool != NoAddr && e.basePool != ZERO_ADDRESS then [e.basePool] else [])
  }

  /** A swap, mint or burn, which stamps the row with its block even if that is lower. */
  predicate Stamps(truth: Truth, log: Log, id: Id) {
    && Uses(truth, log, id)
    && (log.event.TokenExchange?
        || (log.event.Transfer? && (log.event.from == ZERO_ADDRESS || log.event.to == ZERO_ADDRESS)))
  }

  // --- what a row should be ---

  /** The row the events leave, column by column: `before` is the row the earlier events left. */
  ghost predicate Follows(truth: Truth, log: Log, id: Id, before: Option<Pool>, after: Option<Pool>) {
    if !Touches(truth, log, id) then after == before
    else
      && after.Some?
      && var p, q := before.GetOr(BLANK.(firstBlock := log.block)), after.value;
         && q.firstBlock == p.firstBlock
         && q.swapCount == p.swapCount + (if Uses(truth, log, id) && log.event.TokenExchange? then 1 else 0)
         && q.lastBlock == (if log.block >= p.lastBlock || Stamps(truth, log, id) then log.block else p.lastBlock)
         && (if Links(truth, log, id) then LinkedRow(p, q, log)
             else q.reserve == p.reserve && q.isBasePool == p.isBasePool)
         && (if Describes(truth, log, id) then DescribedRow(p, q, log)
             else q.curveFactory == p.curveFactory && q.isMeta == p.isMeta && q.amplification == p.amplification
                  && q.fee == p.fee && q.coins == p.coins)
         && (Uses(truth, log, id) ==> q.basePool == p.basePool && q.coin == p.coin && q.deployer == p.deployer)
  }

  /** PoolDeployed overwrites the linkage; a zero coin marks the reserve's base pool. */
  predicate LinkedRow(p: Pool, q: Pool, log: Log)
    requires log.event.PoolDeployed?
  {
    var zero := log.event.coin == NoAddr || log.event.coin == ZERO_ADDRESS;
    && q.reserve == log.event.reserve && q.basePool == log.event.basePool && q.deployer == log.address
    && q.isBasePool == Some(zero) && q.coin == (if zero then NoAddr else log.event.coin)
  }

  /** The factory's event writes its own columns and only fills in a linkage that is missing. */
  predicate DescribedRow(p: Pool, q: Pool, log: Log)
    requires log.event.CurvePoolDeployed? && (!log.event.meta ==> log.event.coins.Elements?)
  {
    && q.curveFactory == log.address && q.isMeta == Some(log.event.meta)
    && q.amplification == log.event.amplification && q.fee == log.event.poolFee
    && q.coins == (if ListedCoins(log.event) == [] then p.coins else ListedCoins(log.event))
    && q.deployer == (if p.deployer == NoAddr then log.event.deployer else p.deployer)
    && q.basePool == (if p.basePool == NoAddr then log.event.basePool else p.basePool)
    && q.coin == (if p.coin == NoAddr then log.event.coin else p.coin)
  }

  function RowOf(t: Ledger, id: Id): Option<Pool> {
    if id in t.pools then Some(t.pools[id]) else None
  }

  // --- one log ---

  /** The pools after a log. */
  function PoolsAfter(t: Ledger, log: Log, k: Kind): map<Id, Pool> {
    if k.CurveKind? && IsTransfer(log.event)
    then t.pools[Emitter(log) := TransferredPool(t.pools, log, log.event.from, log.event.to, log.event.value.value)]
    else if k.CurveKind? && (log.event.TokenExchange? || log.event.LiquidityChanged?)
    then t.pools[Emitter(log) := TouchedPool(t.pools, log)]
    else if k.CurveDeployerKind? && log.event.PoolDeployed? && Proper(log.event.pool)
    then t.pools[Id(log.chain, log.event.pool) := Linked(t.pools, Id(log.chain, log.event.pool), log)]
    else if k.CurveFactoryKind? && log.event.CurvePoolDeployed? && log.event.receipt.Some? && Deployed(log) != NoAddr
            && (!log.event.meta ==> log.event.coins.Elements?)
    then t.pools[Id(log.chain, Deployed(log)) := Described(t.pools, Id(log.chain, Deployed(log)), log)]
    else t.pools
  }

  lemma TransferPools(t: Ledger, log: Log, from: Addr, to: Addr, v: int)
    ensures PoolTransfer(t, log, from, to, v).pools ==
            t.pools[Emitter(log) := TransferredPool(t.pools, log, from, to, v)]
  {
    hide MoveBalances, TransferredPool;
  }

  lemma CurvePoolsFrame(t: Ledger, log: Log)
    requires ApplyCurve(t, log).Some?
    ensures ApplyCurve(t, log).value.pools == PoolsAfter(t, log, CurveKind)
  {
    hide PoolTransfer, TransferredPool, TouchedPool, Linked, Described, Deployed;
    if IsTransfer(log.event) {
      TransferPools(t, log, log.event.from, log.event.to, log.event.value.value);
    } else if log.event.TokenExchange? || log.event.LiquidityChanged? {
      assert ApplyCurve(t, log).value == t.(pools := t.pools[Emitter(log) := TouchedPool(t.pools, log)]);
    } else {
      assert ApplyCurve(t, log).value == t;
    }
  }

  lemma DeployerPoolsFrame(t: Ledger, log: Log)
    ensures ApplyDeployer(t, log).Some? && ApplyDeployer(t, log).value.pools == PoolsAfter(t, log, CurveDeployerKind)
  {
    hide TransferredPool, TouchedPool, Linked, Described, Deployed;
    if !log.event.PoolDeployed? || !Proper(log.event.pool) {
      assert ApplyDeployer(t, log) == Some(t);
    }
  }

  lemma FactoryPoolsFrame(t: Ledger, log: Log)
    requires ApplyCurveFactory(t, log).Some?
    ensures ApplyCurveFactory(t, log).value.pools == PoolsAfter(t, log, CurveFactoryKind)
  {
    hide TransferredPool, TouchedPool, Linked, Described, Deployed;
    if !log.event.CurvePoolDeployed? || log.event.receipt.None? || Deployed(log) == NoAddr {
      assert ApplyCurveFactory(t, log) == Some(t);
    }
  }

  lemma PoolsFrame(t: Ledger, log: Log, k: Kind)
    requires Apply(t, log, k).Some?
    ensures Apply(t, log, k).value.pools == PoolsAfter(t, log, k)
  {
    hide ApplyReserve, ApplyIou, ApplyCurve, PricesAfter, ApplyFactory, ApplyDeployer, ApplyCurveFactory,
         TransferredPool, TouchedPool, Linked, Described, Deployed;
    if IsReserveKind(k) {
      ReserveFrame(t, log, TypeOf(k));
    } else if k.IouKind? {
      IouFrame(t, log);
    } else if k.CurveKind? {
      CurvePoolsFrame(t, log);
    } else if k.CurveDeployerKind? {
      DeployerPoolsFrame(t, log);
    } else if k.CurveFactoryKind? {
      FactoryPoolsFrame(t, log);
    } else {
      DiscoveryFrame(t, log);
    }
  }

  lemma UsedRow(t: Ledger, log: Log, truth: Truth, id: Id)
    requires Uses(truth, log, id)
    ensures Follows(truth, log, id, RowOf(t, id), RowOf(t.(pools := PoolsAfter(t, log, CurveKind)), id))
  {
    hide Deployed, Linked, Described;
    if log.event.Transfer? {
      UsedByTransfer(t, log, id, log.event.from, log.event.to, log.event.value.value);
    }
  }

  lemma UsedByTransfer(t: Ledger, log: Log, id: Id, from: Addr, to: Addr, v: int)
    requires id == Emitter(log)
    ensures var p, q := RowOf(t, id).GetOr(BLANK.(firstBlock := log.block)), TransferredPool(t.pools, log, from, to, v);
            && q.(lpSupply := p.lpSupply, lastBlock := p.lastBlock) == p
            && q.lastBlock == (if log.block >= p.lastBlock || from == ZERO_ADDRESS || to == ZERO_ADDRESS
                               then log.block else p.lastBlock)
  {
  }

  lemma LinkedFollows(t: Ledger, log: Log, truth: Truth, id: Id)
    requires Links(truth, log, id)
    ensures Follows(truth, log, id, RowOf(t, id), RowOf(t.(pools := PoolsAfter(t, log, CurveDeployerKind)), id))
  {
    hide Deployed, Described, TransferredPool;
  }

  lemma DescribedFollows(t: Ledger, log: Log, truth: Truth, id: Id)
    requires Describes(truth, log, id)
    ensures Follows(truth, log, id, RowOf(t, id), RowOf(t.(pools := PoolsAfter(t, log, CurveFactoryKind)), id))
  {
    hide Deployed, Linked, TransferredPool;
  }

  lemma UntouchedRow(t: Ledger, log: Log, truth: Truth, id: Id)
    requires !Touches(truth, log, id)
    ensures RowOf(t.(pools := PoolsAfter(t, log, truth(log.address))), id) == RowOf(t, id)
  {
    hide TransferredPool, TouchedPool, Linked, Described, Deployed;
  }

  /** The row of any pool after any log is the one its events call for. */
  lemma RowFollows(t: Ledger, log: Log, truth: Truth, id: Id)
    requires Apply(t, log, truth(log.address)).Some?
    ensures Follows(truth, log, id, RowOf(t, id), RowOf(Apply(t, log, truth(log.address)).value, id))
  {
    hide Apply, PoolsAfter, Deployed, LinkedRow, DescribedRow, ListedCoins;
    PoolsFrame(t, log, truth(log.address));
    if Uses(truth, log, id) {
      UsedRow(t, log, truth, id);
    } else if Links(truth, log, id) {
      LinkedFollows(t, log, truth, id);
    } else if Describes(truth, log, id) {
      DescribedFollows(t, log, truth, id);
    } else {
      UntouchedRow(t, log, truth, id);
    }
  }

  // --- whole runs ---

  /** The last log of a list with a property. */
  ghost function Last(logs: seq<Log>, has: Log -> bool): Option<Log> {
    if logs == [] then None
    else if has(logs[|logs| - 1]) then Some(logs[|logs| - 1])
    else Last(logs[..|logs| - 1], has)
  }

  ghost function First(logs: seq<Log>, has: Log -> bool): Option<Log> {
    if logs == [] then None
    else
      var earlier := First(logs[..|logs| - 1], has);
      if earlier.None? && has(logs[|logs| - 1]) then Some(logs[|logs| - 1]) else earlier
  }

  function Swaps(truth: Truth, id: Id): Log -> int {
    (log: Log) => if Uses(truth, log, id) && log.event.TokenExchange? then 1 else 0
  }

  /** A pool has a row from the first event that touches it on: first_block is that event's, the reserve linkage
      the last PoolDeployed's, the description the last factory event's, and the swaps are counted. */
  ghost predicate RowTells(truth: Truth, logs: seq<Log>, id: Id, row: Option<Pool>) {
    match First(logs, log => Touches(truth, log, id))
    case None => row == None
    case Some(first) =>
      && row.Some?
      && row.value.firstBlock == first.block && row.value.swapCount == SumOver(logs, Swaps(truth, id))
      && (match Last(logs, log => Links(truth, log, id))
          case None => row.value.reserve == NoAddr && row.value.isBasePool == None
          case Some(link) =>
            && link.event.PoolDeployed? && row.value.reserve == link.event.reserve
            && row.value.isBasePool == Some(link.event.coin == NoAddr || link.event.coin == ZERO_ADDRESS))
      && (match Last(logs, log => Describes(truth, log, id))
          case None => row.value.curveFactory == NoAddr && row.value.isMeta == None
                       && row.value.amplification == None && row.value.fee == None
          case Some(made) =>
            && made.event.CurvePoolDeployed? && row.value.curveFactory == made.address
            && row.value.isMeta == Some(made.event.meta)
            && row.value.amplification == made.event.amplification && row.value.fee == made.event.poolFee)
  }

  lemma {:induction false} NeverTouched(truth: Truth, logs: seq<Log>, id: Id)
    requires First(logs, log => Touches(truth, log, id)).None?
    ensures Last(logs, log => Links(truth, log, id)).None? && Last(logs, log => Describes(truth, log, id)).None?
    ensures SumOver(logs, Swaps(truth, id)) == 0
  {
    hide Links, Describes, Uses;
    if logs != [] {
      NeverTouched(truth, logs[..|logs| - 1], id);
    }
  }

  lemma TellsNext(truth: Truth, logs: seq<Log>, id: Id, before: Option<Pool>, after: Option<Pool>)
    requires logs != [] && RowTells(truth, logs[..|logs| - 1], id, before)
    requires Follows(truth, logs[|logs| - 1], id, before, after)
    ensures RowTells(truth, logs, id, after)
  {
    hide Deployed, ListedCoins;
    var early := logs[..|logs| - 1];
    if First(early, log => Touches(truth, log, id)).None? { NeverTouched(truth, early, id); }
  }

  /** In every run a pool's row is told by the committed events that touch it. */
  lemma {:induction false} RowsAreTold(truth: Truth, logs: seq<Log>, id: Id)
    requires Replay(truth, EMPTY_LEDGER, logs).Some?
    ensures RowTells(truth, logs, id, RowOf(Replay(truth, EMPTY_LEDGER, logs).value, id))
  {
    hide Apply, Follows, RowTells, RowOf;
    if logs == [] {
      NoRowYet(truth, id);
    } else {
      var n := |logs| - 1;
      var t := Replay(truth, EMPTY_LEDGER, logs[..n]).value;
      RowsAreTold(truth, logs[..n], id);
      RowFollows(t, logs[n], truth, id);
      TellsNext(truth, logs, id, RowOf(t, id), RowOf(Replay(truth, EMPTY_LEDGER, logs).value, id));
    }
  }

  lemma NoRowYet(truth: Truth, id: Id)
    ensures RowTells(truth, [], id, RowOf(EMPTY_LEDGER, id))
  {
  }
}
