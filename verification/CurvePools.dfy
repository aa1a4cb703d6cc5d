/** Curve pool discovery (curve.go: resolveDeployedPool, eventCoins; handlers.go: the pool row updates). */
module CurvePools {
  import opened Addresses
  import opened Options
  import opened Tables

  // --- resolving the deployed pool from its transaction receipt ---

  /** The Transfer(0x0, factory, 0) a pool fires at the end of its constructor. */
  predicate MintsNothing(l: ReceiptLog, factory: Addr) {
    l.emitter != factory && l.transfer == Some(TransferArgs(ZERO_ADDRESS, factory, 0))
  }

  /** A constructor log that precedes the deploy event. */
  predicate IsConstructorLog(l: ReceiptLog, factory: Addr, deployIndex: nat) {
    l.index < deployIndex && MintsNothing(l, factory)
  }

  /** Entry i is the constructor log with the highest index, the earliest one among equals. */
  predicate IsPick(logs: seq<ReceiptLog>, factory: Addr, deployIndex: nat, i: nat) {
    i < |logs| && IsConstructorLog(logs[i], factory, deployIndex)
    && forall j :: 0 <= j < |logs| && IsConstructorLog(logs[j], factory, deployIndex) ==>
         logs[j].index < logs[i].index || (logs[j].index == logs[i].index && i <= j)
  }

  /** The emitter of the last constructor log before the deploy event; NoAddr when there is none. */
  function Resolved(logs: seq<ReceiptLog>, factory: Addr, deployIndex: nat): Addr {
    if exists i :: 0 <= i < |logs| && IsPick(logs, factory, deployIndex, i)
    then
      var i :| 0 <= i < |logs| && IsPick(logs, factory, deployIndex, i);
      logs[i].emitter
    else NoAddr
  }

  method ResolveDeployedPool(logs: seq<ReceiptLog>, factory: Addr, deployIndex: nat) returns (pool: Addr)
    ensures pool == Resolved(logs, factory, deployIndex)
    ensures pool == NoAddr <==> forall j :: 0 <= j < |logs| ==> !IsConstructorLog(logs[j], factory, deployIndex)
  {
    pool := NoAddr;
    var poolIndex: nat := 0;
    ghost var pick: nat := 0;
    for i := 0 to |logs|
      invariant pool == NoAddr ==> forall j :: 0 <= j < i ==> !IsConstructorLog(logs[j], factory, deployIndex)
      invariant pool != NoAddr ==>
        pick < i && IsPick(logs[..i], factory, deployIndex, pick) && pool == logs[pick].emitter
          && poolIndex == logs[pick].index
    {
      var l := logs[i];
      if l.index >= deployIndex || l.emitter == factory {
        continue;
      }
      if l.transfer.None? {
        continue;
      }
      var args := l.transfer.value;
      if args.from != ZERO_ADDRESS || args.to != factory || args.value != 0 {
        continue;
      }
      if pool == NoAddr || l.index > poolIndex {
        pool, poolIndex := l.emitter, l.index;
        pick := i;
      }
    }
    assert logs[..|logs|] == logs;
    assert pool != NoAddr ==> IsPick(logs, factory, deployIndex, pick);
  }

  /** The pool a deployment log created, as far as the chain's receipt tells. */
  function Deployed(log: Log): Addr
    requires log.event.CurvePoolDeployed? && log.event.receipt.Some?
  {
    Resolved(log.event.receipt.value, log.address, log.logIndex)
  }

  // --- the pool row ---

  function Max(a: nat, b: nat): nat {
    if a >= b then a else b
  }

  const BLANK := Pool(0, 0, NoAddr, NoAddr, NoAddr, None, NoAddr, NoAddr, None, None, None, [], 0, 0)

  /** ensureCurve: a new row, or the existing one with its last block raised. */
  function Ensured(pools: map<Id, Pool>, id: Id, block: nat): Pool {
    if id in pools then pools[id].(lastBlock := Max(pools[id].lastBlock, block))
    else BLANK.(firstBlock := block, lastBlock := block)
  }

  /** The row after a TokenExchange. */
  function Swapped(pools: map<Id, Pool>, id: Id, block: nat): Pool {
    var p := Ensured(pools, id, block);
    p.(swapCount := p.swapCount + 1, lastBlock := block)
  }

  function Coalesce(a: Addr, b: Addr): Addr {
    if a != NoAddr then a else b
  }

  /** The row after PoolDeployed, which overwrites the reserve linkage. */
  function Linked(pools: map<Id, Pool>, id: Id, log: Log): Pool
    requires log.event.PoolDeployed?
  {
    var e := log.event;
    var isBase := !Proper(e.coin);
    Ensured(pools, id, log.block).(
      reserve := e.reserve, basePool := e.basePool, coin := if isBase then NoAddr else e.coin,
      isBasePool := Some(isBase), deployer := log.address)
  }

  /** The coin list carried by the deployment event itself. */
  function EventCoins(e: Event): seq<Addr>
    requires e.CurvePoolDeployed? && (!e.meta ==> e.coins.Elements?)
  {
    if e.meta then (if Proper(e.coin) then [e.coin] else []) + (if Proper(e.basePool) then [e.basePool] else [])
    else e.coins.elements
  }

  /** The coin list of a deployment event, or ok = false when its array cannot be read. */
  method ReadEventCoins(e: Event) returns (coins: seq<Addr>, ok: bool)
    requires e.CurvePoolDeployed?
    ensures ok <==> e.meta || e.coins.Elements?
    ensures ok ==> coins == EventCoins(e)
  {
    coins := [];
    if e.meta {
      var keys := [e.coin, e.basePool];
      for i := 0 to |keys|
        invariant i == 0 ==> coins == []
        invariant i == 1 ==> coins == if Proper(e.coin) then [e.coin] else []
        invariant i == 2 ==> coins == EventCoins(e)
      {
        if keys[i] != NoAddr && keys[i] != ZERO_ADDRESS {
          coins := coins + [keys[i]];
        }
      }
      return coins, true;
    }
    if e.coins.Malformed? {
      return coins, false;
    }
    return e.coins.elements, true;
  }

  /** The row after PlainPoolDeployed / MetaPoolDeployed, which only fills in a missing linkage. */
  function Described(pools: map<Id, Pool>, id: Id, log: Log): Pool
    requires log.event.CurvePoolDeployed? && (!log.event.meta ==> log.event.coins.Elements?)
  {
    var e := log.event;
    var p := Ensured(pools, id, log.block);
    p.(curveFactory := log.address, isMeta := Some(e.meta), amplification := e.amplification, fee := e.poolFee,
       coins := if EventCoins(e) != [] then EventCoins(e) else p.coins,
       deployer := Coalesce(p.deployer, e.deployer),
       basePool := Coalesce(p.basePool, e.basePool),
       coin := Coalesce(p.coin, e.coin))
  }
}
