/**
 The total_supply column of the value history. A snapshot stores lp_supply, but an LP Transfer moves
 lp_supply without a snapshot, so the stored figure and the live one can part (handlers.go: handleTransfer,
 snapshotReserveValue).
 */
module SupplyColumn {
  import opened Coherence
  import opened Delivery
  import opened Effects
  import opened Frames
  import opened History
  import opened Kinds
  import opened Options
  import opened Tables
  import opened Valuation

  /** The reserve's newest row, if it has one, stores its LP supply. */
  ghost predicate SupplyAt(t: Ledger, id: Id) {
    forall d :: Newest(Rows(t.valueHistory, id), d) ==>
      Rows(t.valueHistory, id)[d].totalSupply == LpSupply(t.reserves, id)
  }

  ghost predicate SupplyInStep(t: Ledger) {
    forall id :: SupplyAt(t, id)
  }

  /** The log moves no LP supply, or that of a reserve without rows. */
  predicate KeepsSupply(t: Ledger, log: Log, k: Kind) {
    LpChange(log, k) == 0 || !HasRows(t, Emitter(log))
  }

  lemma SameSupplyAt(t: Ledger, r: Ledger, id: Id)
    requires Rows(r.valueHistory, id) == Rows(t.valueHistory, id)
    ensures LpSupply(r.reserves, id) == LpSupply(t.reserves, id) ==> (SupplyAt(r, id) <==> SupplyAt(t, id))
    ensures !HasRows(t, id) ==> SupplyAt(r, id)
  {
  }

  lemma MovedSupplyAt(t: Ledger, r: Ledger, id: Id)
    requires Rows(r.valueHistory, id) == Rows(t.valueHistory, id) && HasRows(t, id)
    requires SupplyAt(t, id) && LpSupply(r.reserves, id) != LpSupply(t.reserves, id)
    ensures !SupplyAt(r, id)
  {
    NewestExists(Rows(t.valueHistory, id));
    var d :| Newest(Rows(t.valueHistory, id), d);
    assert Rows(t.valueHistory, id)[d].totalSupply == LpSupply(t.reserves, id);
  }

  /** Only a reserve's own Transfer moves its supply, and it takes no snapshot. */
  lemma SnapshotsMoveNothing(t: Ledger, log: Log, k: Kind)
    ensures Snapshots(t, log, k).Some? ==> LpChange(log, k) == 0
  {
    hide Claimants;
  }

  lemma TakenSupplyAt(t: Ledger, log: Log, k: Kind)
    requires Snapshots(t, log, k).Some? && Apply(t, log, k).Some? && Before(t, log) && OfReserves(t)
    ensures SupplyAt(Apply(t, log, k).value, Snapshots(t, log, k).value)
  {
    hide Apply, Read, SnapshotValue, SnapshotAssets, Before, Snapshots, Day, ReserveValue;
    var id, r, b := Snapshots(t, log, k).value, Apply(t, log, k).value, Read(t, log, k);
    HistoryFrame(t, log, k);
    SnapshotReads(t, log, k);
    ReadBefore(t, b, r, log);
    SnapshotsOwnChain(t, log, k);
    if id in b.reserves {
      forall d | Newest(Rows(r.valueHistory, id), d)
        ensures Rows(r.valueHistory, id)[d].totalSupply == LpSupply(r.reserves, id)
      {
        TakenIsNewest(b, r, id, log, d);
      }
    } else {
      NoRowsTaken(b, id, log);
    }
  }

  lemma NoRowsTaken(b: Ledger, id: Id, log: Log)
    requires id !in b.reserves && OfReserves(b)
    ensures Rows(SnapshotValue(b, id, log), id) == map[]
  {
    hide ReserveValue, Day;
  }

  /** One reserve's newest row after a log. */
  lemma SupplyAtIff(t: Ledger, log: Log, k: Kind, id: Id)
    requires SupplyInStep(t) && OfReserves(t) && Before(t, log) && Apply(t, log, k).Some?
    ensures SupplyAt(Apply(t, log, k).value, id) <==> id != Emitter(log) || KeepsSupply(t, log, k)
  {
    hide Apply, Read, SnapshotValue, SnapshotAssets, Before, Snapshots, SupplyAt, HasRows, Rows;
    var r, target := Apply(t, log, k).value, Snapshots(t, log, k);
    HistoryFrame(t, log, k);
    ReservesFrame(t, log, k);
    SnapshotsMoveNothing(t, log, k);
    assert SupplyAt(t, id);
    if target == Some(id) {
      TakenSupplyAt(t, log, k);
    } else {
      RowsElsewhere(t, log, k, id);
      SameSupplyAt(t, r, id);
      if id == Emitter(log) && !KeepsSupply(t, log, k) { MovedSupplyAt(t, r, id); }
    }
  }

  /** A log no older than the histories keeps every stored total_supply in step with lp_supply if and only if
      it moves no LP supply, or that of a reserve that has no rows yet. */
  lemma SupplyKeptIff(t: Ledger, log: Log, k: Kind)
    requires SupplyInStep(t) && OfReserves(t) && Before(t, log) && Apply(t, log, k).Some?
    ensures SupplyInStep(Apply(t, log, k).value) <==> KeepsSupply(t, log, k)
  {
    hide Apply, Before, OfReserves, SupplyAt, KeepsSupply;
    forall id ensures SupplyAt(Apply(t, log, k).value, id) <==> id != Emitter(log) || KeepsSupply(t, log, k) {
      SupplyAtIff(t, log, k, id);
    }
    assert SupplyAt(Apply(t, log, k).value, Emitter(log)) <==> KeepsSupply(t, log, k);
  }

  lemma EmptySupply()
    ensures SupplyInStep(EMPTY_LEDGER)
  {
  }

  /** Along logs in block and day order the newest rows store the LP supplies after every log if and only if
      no log moves the supply of a reserve that has rows. */
  lemma SupplyAlwaysIff(truth: Truth, logs: seq<Log>)
    requires InOrder(logs) && Replay(truth, EMPTY_LEDGER, logs).Some?
    ensures InEveryState(truth, logs, SupplyInStep) <==> AtEveryLog(truth, logs, KeepsSupply)
  {
    hide Apply, SupplyInStep, KeepsSupply, At, Replay, InOrder, Before, OfReserves, AllStamped, Day;
    EmptySupply();
    forall i | 0 <= i < |logs| && SupplyInStep(At(truth, logs, i))
      ensures SupplyInStep(At(truth, logs, i + 1)) <==> KeepsSupply(At(truth, logs, i), logs[i], truth(logs[i].address))
    {
      StepAt(truth, logs, i);
      OrderedAt(truth, logs, i);
      SupplyKeptIff(At(truth, logs, i), logs[i], truth(logs[i].address));
    }
    HoldsThroughoutIff(truth, logs, SupplyInStep, KeepsSupply);
  }
}
