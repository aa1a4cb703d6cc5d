/**
 Discovery of Curve pools: which pool a deployment event created, and what the two events that
 describe one pool leave behind in either order (curve.go: resolveDeployedPool; handlers.go:
 handlePoolDeployed, handleCurvePoolDeployed).
 */
module Discovery {
  import opened Addresses
  import opened CurvePools
  import opened Effects
  import opened Kinds
  import opened Options
  import opened Tables

  // --- resolving a deployment ---

  /** A pick exists as soon as any constructor log precedes the deploy event. */
  lemma {:induction false} PickExists(logs: seq<ReceiptLog>, factory: Addr, deployIndex: nat, j: nat)
    requires j < |logs| && IsConstructorLog(logs[j], factory, deployIndex)
    ensures exists i :: 0 <= i < |logs| && IsPick(logs, factory, deployIndex, i)
  {
    hide IsConstructorLog;
    var n := |logs| - 1;
    if m :| 0 <= m < n && IsConstructorLog(logs[m], factory, deployIndex) {
      var early := logs[..n];
      assert early[m] == logs[m];
      PickExists(early, factory, deployIndex, m);
      var i :| 0 <= i < n && IsPick(early, factory, deployIndex, i);
      assert forall q :: 0 <= q < n ==> early[q] == logs[q];
      if IsConstructorLog(logs[n], factory, deployIndex) && logs[n].index > logs[i].index {
        assert IsPick(logs, factory, deployIndex, n);
      } else {
        assert IsPick(logs, factory, deployIndex, i);
      }
    } else {
      assert IsPick(logs, factory, deployIndex, j);
    }
  }

  /** A contract other than the factory reports, at the end of its construction, a transfer of nothing from the zero
      address to the factory. */
  predicate BuiltFor(l: ReceiptLog, factory: Addr) {
    && l.emitter != factory && l.transfer.Some?
    && l.transfer.value.from == ZERO_ADDRESS && l.transfer.value.to == factory && l.transfer.value.value == 0
  }

  /** It does so before the deploy event. */
  predicate IsCandidate(l: ReceiptLog, factory: Addr, deployIndex: nat) {
    BuiltFor(l, factory) && l.index < deployIndex
  }

  lemma CandidateIs(l: ReceiptLog, factory: Addr, deployIndex: nat)
    ensures IsConstructorLog(l, factory, deployIndex) <==> IsCandidate(l, factory, deployIndex)
  {
  }

  /** The resolved pool emitted the highest-indexed constructor log below the event; it is empty exactly
      when there is none. */
  lemma ResolvedIsLatest(logs: seq<ReceiptLog>, factory: Addr, deployIndex: nat)
    ensures Resolved(logs, factory, deployIndex) == NoAddr <==>
            forall j :: 0 <= j < |logs| ==> !IsCandidate(logs[j], factory, deployIndex)
    ensures Resolved(logs, factory, deployIndex) != NoAddr ==>
              exists i :: 0 <= i < |logs| && IsLatest(logs, factory, deployIndex, i)
                && Resolved(logs, factory, deployIndex) == logs[i].emitter
  {
    forall l: ReceiptLog { CandidateIs(l, factory, deployIndex); }
    if j :| 0 <= j < |logs| && IsCandidate(logs[j], factory, deployIndex) {
      PickExists(logs, factory, deployIndex, j);
      var i :| 0 <= i < |logs| && IsPick(logs, factory, deployIndex, i)
          && Resolved(logs, factory, deployIndex) == logs[i].emitter;
      assert IsLatest(logs, factory, deployIndex, i);
    }
  }

  predicate IsLatest(logs: seq<ReceiptLog>, factory: Addr, deployIndex: nat, i: nat) {
    i < |logs| && IsCandidate(logs[i], factory, deployIndex)
    && forall j :: 0 <= j < |logs| && IsCandidate(logs[j], factory, deployIndex) ==> logs[j].index <= logs[i].index
  }

  /** One deployment of a transaction: its pool, the index of the pool's constructor log and of the deploy event. */
  datatype Deployment = Deployment(pool: Contract, constructed: nat, deployed: nat)

  /** Constructor log and deploy event alternate: c_1 < d_1 < c_2 < d_2 < ... */
  predicate Interleaved(ds: seq<Deployment>) {
    && (forall i :: 0 <= i < |ds| ==> ds[i].constructed < ds[i].deployed)
    && (forall i, j :: 0 <= i < j < |ds| ==> ds[i].deployed < ds[j].constructed)
  }

  predicate Constructs(l: ReceiptLog, factory: Addr, d: Deployment) {
    l.index == d.constructed && l.emitter == d.pool && BuiltFor(l, factory)
  }

  predicate HasConstructor(logs: seq<ReceiptLog>, factory: Addr, d: Deployment) {
    exists j :: 0 <= j < |logs| && Constructs(logs[j], factory, d)
  }

  predicate BelongsTo(l: ReceiptLog, factory: Addr, ds: seq<Deployment>) {
    exists i :: 0 <= i < |ds| && Constructs(l, factory, ds[i])
  }

  /** The receipt, in any array order, holds each deployment's constructor log and no other log that
      looks like one. */
  predicate Records(logs: seq<ReceiptLog>, factory: Addr, ds: seq<Deployment>) {
    && (forall i :: 0 <= i < |ds| ==> HasConstructor(logs, factory, ds[i]))
    && (forall j :: 0 <= j < |logs| && BuiltFor(logs[j], factory) ==> BelongsTo(logs[j], factory, ds))
  }

  lemma LatestIsOwn(ds: seq<Deployment>, i: nat, m: nat)
    requires Interleaved(ds) && i < |ds| && m < |ds|
    requires ds[i].constructed <= ds[m].constructed < ds[i].deployed
    ensures m == i
  {
  }

  /** Every deploy event of the transaction resolves to its own pool. */
  lemma DeploymentsPairUp(logs: seq<ReceiptLog>, factory: Addr, ds: seq<Deployment>, i: nat)
    requires Interleaved(ds) && Records(logs, factory, ds) && i < |ds|
    ensures Resolved(logs, factory, ds[i].deployed) == ds[i].pool
  {
    hide Resolved, Interleaved, BuiltFor;
    var at := ds[i].deployed;
    Precedes(ds, i);
    assert HasConstructor(logs, factory, ds[i]);
    var own :| 0 <= own < |logs| && Constructs(logs[own], factory, ds[i]);
    assert IsCandidate(logs[own], factory, at);
    ResolvedIsLatest(logs, factory, at);
    var p :| 0 <= p < |logs| && IsLatest(logs, factory, at, p) && Resolved(logs, factory, at) == logs[p].emitter;
    assert logs[own].index <= logs[p].index < at && BelongsTo(logs[p], factory, ds);
    var m :| 0 <= m < |ds| && Constructs(logs[p], factory, ds[m]);
    LatestIsOwn(ds, i, m);
  }

  /** So each of a transaction's deployment logs, recorded with the receipt, describes its own pool. */
  lemma DeployedPairsUp(log: Log, ds: seq<Deployment>, i: nat)
    requires log.event.CurvePoolDeployed? && log.event.receipt.Some?
    requires Interleaved(ds) && Records(log.event.receipt.value, log.address, ds) && i < |ds|
    requires log.logIndex == ds[i].deployed
    ensures Deployed(log) == ds[i].pool
  {
    hide Resolved, Interleaved, Records;
    DeploymentsPairUp(log.event.receipt.value, log.address, ds, i);
  }

  lemma Precedes(ds: seq<Deployment>, i: nat)
    requires Interleaved(ds) && i < |ds|
    ensures ds[i].constructed < ds[i].deployed
  {
  }

  // --- the two events of one pool ---

  /** PoolDeployed and Plain/MetaPoolDeployed for the same pool. */
  predicate SamePool(linked: Log, described: Log) {
    && linked.event.PoolDeployed? && Proper(linked.event.pool)
    && described.event.CurvePoolDeployed? && described.event.receipt.Some?
      && (!described.event.meta ==> described.event.coins.Elements?)
    && linked.chain == described.chain && linked.event.pool == Deployed(described)
  }

  function PoolId(linked: Log): Id
    requires linked.event.PoolDeployed?
  {
    Id(linked.chain, linked.event.pool)
  }

  /** The row after PoolDeployed, then the factory's event. */
  function LinkedFirst(pools: map<Id, Pool>, linked: Log, described: Log): map<Id, Pool>
    requires SamePool(linked, described)
  {
    var id := PoolId(linked);
    var after := pools[id := Linked(pools, id, linked)];
    after[id := Described(after, id, described)]
  }

  function DescribedFirst(pools: map<Id, Pool>, linked: Log, described: Log): map<Id, Pool>
    requires SamePool(linked, described)
  {
    var id := PoolId(linked);
    var after := pools[id := Described(pools, id, described)];
    after[id := Linked(after, id, linked)]
  }

  /** Nothing the factory's event would fill in is missing from PoolDeployed, and a new row is first seen in
      one block. */
  predicate Consistent(t: Ledger, linked: Log, described: Log)
    requires SamePool(linked, described)
  {
    && (PoolId(linked) in t.pools || linked.block == described.block)
    && (linked.event.basePool != NoAddr || described.event.basePool == NoAddr)
    && (Proper(linked.event.coin) || described.event.coin == NoAddr)
  }

  lemma RowsAgreeIff(pools: map<Id, Pool>, linked: Log, described: Log)
    requires SamePool(linked, described)
    ensures var id := PoolId(linked);
            var a, b := LinkedFirst(pools, linked, described)[id], DescribedFirst(pools, linked, described)[id];
            && (a == b <==>
                (id in pools || linked.block == described.block)
                && (linked.event.basePool != NoAddr || described.event.basePool == NoAddr)
                && (Proper(linked.event.coin) || described.event.coin == NoAddr))
            && a.reserve == b.reserve == linked.event.reserve
            && a.curveFactory == b.curveFactory == described.address
            && a.deployer == b.deployer == linked.address
  {
    hide EventCoins, Deployed;
  }

  lemma LinkApplies(t: Ledger, linked: Log)
    requires linked.event.PoolDeployed? && Proper(linked.event.pool)
    ensures Apply(t, linked, CurveDeployerKind) ==
            Some(t.(pools := t.pools[PoolId(linked) := Linked(t.pools, PoolId(linked), linked)]))
  {
    hide Linked;
  }

  lemma DescribeApplies(t: Ledger, linked: Log, described: Log)
    requires SamePool(linked, described)
    ensures Apply(t, described, CurveFactoryKind) ==
            Some(t.(pools := t.pools[PoolId(linked) := Described(t.pools, PoolId(linked), described)]))
  {
    hide Described, Deployed;
  }

  /** Discovery commutes: the two events leave the same ledger in either order if and only if they are
      consistent, and the reserve linkage survives whichever comes second. */
  lemma DiscoveryCommutes(t: Ledger, linked: Log, described: Log)
    requires SamePool(linked, described)
    ensures Apply(t, linked, CurveDeployerKind).Some? && Apply(t, described, CurveFactoryKind).Some?
    ensures var a := Apply(Apply(t, linked, CurveDeployerKind).value, described, CurveFactoryKind);
            var b := Apply(Apply(t, described, CurveFactoryKind).value, linked, CurveDeployerKind);
            && a.Some? && b.Some?
            && (a == b <==> Consistent(t, linked, described))
            && PoolId(linked) in a.value.pools && PoolId(linked) in b.value.pools
            && a.value.pools[PoolId(linked)].reserve == b.value.pools[PoolId(linked)].reserve == linked.event.reserve
  {
    hide Apply, Linked, Described, Deployed;
    LinkApplies(t, linked);
    DescribeApplies(t, linked, described);
    var linkedOnly, describedOnly := Apply(t, linked, CurveDeployerKind).value,
        Apply(t, described, CurveFactoryKind).value;
    LinkApplies(describedOnly, linked);
    DescribeApplies(linkedOnly, linked, described);
    RowsAgreeIff(t.pools, linked, described);
    var a, b := LinkedFirst(t.pools, linked, described), DescribedFirst(t.pools, linked, described);
    assert a.Keys == b.Keys;
    assert a[PoolId(linked)] == b[PoolId(linked)] ==> a == b;
  }
}
