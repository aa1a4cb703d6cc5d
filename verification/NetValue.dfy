/**
 What the valuation views compute, in the figures' own terms: every amount normalized to 18 decimals, a NAV
 that is net of the IOU debt, and how deposits and IOU mints move them (schema.go: clear_reserve_par_values,
 clear_reserve_values).
 */
module NetValue {
  import opened Addresses
  import opened Coherence
  import opened Delivery
  import opened Effects
  import opened FlowAccounting
  import opened Frames
  import opened Kinds
  import opened Options
  import opened Pricing
  import opened Sums
  import opened Tables
  import opened Valuation
  import EndOfDay
  import History
  import Positions

  // --- units ---

  lemma {:induction false} PowersAdd(m: nat, n: nat)
    ensures Pow10(m) * Pow10(n) == Pow10(m + n)
  {
    if m > 0 {
      PowersAdd(m - 1, n);
    }
  }

  /** Scaling by 10^(18-d) makes the 10^d units of one whole token the 10^18 of a normalized one; unknown decimals
      count as 18. */
  lemma ScaleNormalizes(d: Decimals)
    ensures Scale(Some(d)) * Pow10(d) == ONE
    ensures Scale(None) == 1
    ensures Pow10(0) == 1 && (d > 0 ==> Pow10(d) == 10 * Pow10(d - 1))
  {
    PowersAdd(18 - d, d);
    assert Pow10(18) == ONE by { Ten18(); }
  }

  lemma Ten18()
    ensures Pow10(18) == ONE
  {
    assert Pow10(6) == 1_000_000;
    PowersAdd(6, 6);
    PowersAdd(12, 6);
  }

  /** An oracle price of 100000000, one with its 8 decimals, is par. */
  lemma OraclePar(t: Ledger, asset: Id)
    ensures asset in t.redemptionPrices && t.redemptionPrices[asset] == Some(100_000_000) ==> Price(t, asset) == ONE
    ensures forall p :: asset in t.redemptionPrices && t.redemptionPrices[asset] == Some(p) ==>
              Price(t, asset) * 100_000_000 == p * ONE
    ensures asset !in t.redemptionPrices || t.redemptionPrices[asset] == None ==> Price(t, asset) == ONE
  {
  }

  // --- NAV is net ---

  /** In every row of the view the NAV is what the gross assets exceed the debt by, and nothing if they do not. */
  lemma NavIsNet(t: Ledger, id: Id)
    ensures var v := ReserveValue(t, id);
            (v.gross >= v.debt ==> v.nav + v.debt == v.gross) && (v.gross < v.debt ==> v.nav == 0)
    ensures var v := ParValue(t, id);
            (v.gross >= v.debt ==> v.nav + v.debt == v.gross) && (v.gross < v.debt ==> v.nav == 0)
  {
    hide Sum, LegGross, LegDebt, GrossPar, DebtPar;
  }

  /** A base reserve's gross assets and debt are its normalized balances and IOU supplies, summed. */
  lemma ParIsSum(t: Ledger, id: Id)
    ensures var rows, balances := Rows(t.assets, id), Rows(t.tokenBalances, id);
            && ParValue(t, id).gross == Sum(rows.Keys, a => Get(balances, a) * UnitsOf(rows, a))
            && ParValue(t, id).debt == Sum(rows.Keys, a => MirroredSoFar(rows, a) * UnitsOf(rows, a))
  {
    hide Scale, Max0;
    var rows, balances := Rows(t.assets, id), Rows(t.tokenBalances, id);
    SumCongruent(rows.Keys, a => GrossPar(rows, balances, a), a => Get(balances, a) * UnitsOf(rows, a));
    SumCongruent(rows.Keys, a => DebtPar(rows, a), a => MirroredSoFar(rows, a) * UnitsOf(rows, a));
  }

  /** 10^(18-d) for an asset of d decimals. */
  function UnitsOf(rows: map<Addr, Asset>, a: Addr): int {
    if a in rows then Scale(rows[a].decimals) else 1
  }

  // --- a deposit ---

  /** The amount a base reserve's balanced event carries for an asset: the one at the asset's position. */
  function AmountFor(rows: map<Addr, Asset>, amounts: seq<int>, a: Addr): int {
    if a in rows && a != NoAddr && rows[a].position < |amounts| then amounts[rows[a].position] else 0
  }

  lemma DepositBooks(t: Ledger, log: Log, a: Addr)
    requires log.event.Deposit? && log.event.amounts.Elements? && Apply(t, log, BaseReserveKind).Some?
    requires Dense(Rows(t.assets, Emitter(log)))
    ensures var id := Emitter(log);
            Balance(Apply(t, log, BaseReserveKind).value, id, a) ==
            Balance(t, id, a) + AmountFor(Rows(t.assets, id), log.event.amounts.elements, a)
  {
    hide Apply, Balance, Dense, AmountsOn;
    EventMovesHolding(t, log, BaseReserveKind, Emitter(log), a);
    if a != NoAddr { AmountAtPosition(Rows(t.assets, Emitter(log)), log.event.amounts.elements, a); }
  }

  /** A Deposit raises a base reserve's gross assets by each registered amount, normalized, and leaves its debt. */
  lemma DepositRaisesGross(t: Ledger, log: Log)
    requires log.event.Deposit? && log.event.amounts.Elements? && Apply(t, log, BaseReserveKind).Some?
    requires Dense(Rows(t.assets, Emitter(log)))
    ensures var id, r := Emitter(log), Apply(t, log, BaseReserveKind).value;
            var rows, amounts := Rows(t.assets, id), log.event.amounts.elements;
            && ParValue(r, id).gross ==
               ParValue(t, id).gross + Sum(rows.Keys, a => AmountFor(rows, amounts, a) * UnitsOf(rows, a))
            && ParValue(r, id).debt == ParValue(t, id).debt
  {
    hide Apply, Dense, ParOf, Get, AmountFor, UnitsOf, Sum, AddFlows, Flows;
    var id, r := Emitter(log), Apply(t, log, BaseReserveKind).value;
    var rows, amounts := Rows(t.assets, id), log.event.amounts.elements;
    RegistryFrame(t, log, BaseReserveKind);
    ParIsSum(t, id);
    ParIsSum(r, id);
    var was, now := Rows(t.tokenBalances, id), Rows(r.tokenBalances, id);
    forall a
      ensures Get(now, a) * UnitsOf(rows, a) ==
              Get(was, a) * UnitsOf(rows, a) + 1 * (AmountFor(rows, amounts, a) * UnitsOf(rows, a))
    {
      DepositBooks(t, log, a);
      Distribute(UnitsOf(rows, a), Get(was, a), AmountFor(rows, amounts, a));
    }
    SumShifted(rows.Keys, a => Get(was, a) * UnitsOf(rows, a), a => Get(now, a) * UnitsOf(rows, a),
               a => AmountFor(rows, amounts, a) * UnitsOf(rows, a), 1);
  }

  // --- an IOU mint ---

  /** The asset is the only one of the reserve that names the IOU. */
  predicate OnlyClaim(rows: map<Addr, Asset>, iou: Addr, a: Addr) {
    a in rows && forall b :: b in rows ==> (rows[b].iou == iou <==> b == a)
  }

  lemma OneClaimWeighs(rows: map<Addr, Asset>, iou: Addr, a: Addr)
    requires OnlyClaim(rows, iou, a)
    ensures ClaimedWeight(rows, iou) == UnitsOf(rows, a)
  {
    hide Scale;
    SumTakeOut(rows.Keys, x => Claims(rows, iou, x), a);
    SumCongruent(rows.Keys - {a}, x => Claims(rows, iou, x), x => 0);
    SumZero(rows.Keys - {a});
  }

  /** A mint of v against an asset raises the reserve's debt by v, normalized, and lowers its NAV by as much while
      the NAV covers it; a burn is a mint of -v. */
  lemma MintLowersNav(t: Ledger, log: Log, id: Id, a: Addr)
    requires log.event.Transfer? && log.event.value.Some? && Apply(t, log, IouKind).Some?
    requires (log.event.from == ZERO_ADDRESS || log.event.to == ZERO_ADDRESS)
    requires id.chain == log.chain && OnlyClaim(Rows(t.assets, id), log.address, a)
    ensures var r, v := Apply(t, log, IouKind).value, log.event.value.value;
            var minted := (if log.event.from == ZERO_ADDRESS then v else -v) * UnitsOf(Rows(t.assets, id), a);
            && ParValue(r, id).gross == ParValue(t, id).gross
            && ParValue(r, id).debt == ParValue(t, id).debt + minted
            && (0 <= minted <= ParValue(t, id).nav ==> ParValue(r, id).nav == ParValue(t, id).nav - minted)
  {
    hide Apply, ParOf, MirrorRows, OnlyClaim, ClaimedWeight, UnitsOf, AddFlows, Flows, PutAsset;
    var rows := Rows(t.assets, id);
    var delta := SupplyChange(log.event.from, log.event.to, log.event.value.value);
    RegistryFrame(t, log, IouKind);
    MirrorValue(rows, Rows(t.tokenBalances, id), log.address, delta);
    OneClaimWeighs(rows, log.address, a);
    assert id in t.assets by { OnlyClaimRows(t, id, log.address, a); }
    NavIsNet(t, id);
    NavIsNet(Apply(t, log, IouKind).value, id);
  }

  lemma OnlyClaimRows(t: Ledger, id: Id, iou: Addr, a: Addr)
    requires OnlyClaim(Rows(t.assets, id), iou, a)
    ensures id in t.assets
  {
  }

  // --- legs and the average ---

  /** A token leg is worth its normalized units at the asset's price, rounded down. */
  lemma TokenLegBounds(t: Ledger, leg: Id, decimals: Option<Decimals>, units: int)
    requires !IsBase(t, leg) && units >= 0 && Price(t, leg) >= 0
    ensures var worth := LegValue(t, leg, decimals, units);
            worth * ONE <= units * Scale(decimals) * Price(t, leg) < worth * ONE + ONE
  {
    hide TruncDiv, Price, Scale;
    History.ScalePositive(decimals);
    Scaled(0, units, Scale(decimals));
    Scaled(0, units * Scale(decimals), Price(t, leg));
    Floor(units * Scale(decimals) * Price(t, leg), ONE);
  }

  /** A base leg is worth its share of the base reserve's NAV at the reserve's average redemption price, short of
      it by less than that price plus one. */
  lemma BaseLegBounds(t: Ledger, leg: Id, decimals: Option<Decimals>, units: int)
    requires IsBase(t, leg) && units >= 0 && t.reserves[leg].lpSupply >= 0 && AvgRedemption(t, leg) >= 0
    ensures var worth, nav := LegValue(t, leg, decimals, units), ParValue(t, leg).nav;
            var lp, avg := t.reserves[leg].lpSupply, AvgRedemption(t, leg);
            && worth * ONE * (lp + 1) <= units * (nav + 1) * avg
            && units * (nav + 1) * avg < (worth * ONE + ONE + avg) * (lp + 1)
  {
    hide ConvertToRedemption, AvgRedemption, ParOf;
    NavIsNet(t, leg);
    TruncationBound(units, ParValue(t, leg).nav, t.reserves[leg].lpSupply, AvgRedemption(t, leg));
  }

  /** The weight of an asset in the average: what its balance exceeds its IOU supply by, normalized. */
  lemma WeightIsNet(t: Ledger, id: Id, a: Addr)
    requires a in Rows(t.assets, id)
    ensures var row, balance := Rows(t.assets, id)[a], Get(Rows(t.tokenBalances, id), a);
            Weight(t, id, a) == (if balance > row.iouSupply then balance - row.iouSupply else 0) * Scale(row.decimals)
  {
    hide Scale;
  }

  /** The average is the prices' mean under those weights, rounded down. */
  lemma AverageBounds(t: Ledger, id: Id)
    requires forall a :: a in Rows(t.assets, id) ==> Price(t, Id(id.chain, a)) >= 0
    ensures var keys, avg := Rows(t.assets, id).Keys, AvgRedemption(t, id);
            var weights := Sum(keys, a => Weight(t, id, a));
            var weighted := Sum(keys, a => Weight(t, id, a) * Price(t, Id(id.chain, a)));
            && weights >= 0
            && (weights == 0 ==> avg == 0)
            && (weights > 0 ==> avg * weights <= weighted < (avg + 1) * weights)
  {
    hide Price, NetPar, TruncDiv;
    var keys := Rows(t.assets, id).Keys;
    TotalsNonNegative(t, id);
    SumCongruent(keys, a => Weight(t, id, a), a => NetPar(Rows(t.assets, id), Rows(t.tokenBalances, id), a));
    SumCongruent(keys, a => Weight(t, id, a) * Price(t, Id(id.chain, a)),
                 a => NetPar(Rows(t.assets, id), Rows(t.tokenBalances, id), a) * Price(t, Id(id.chain, a)));
    if NetParTotal(t, id) > 0 { Floor(WeightedTotal(t, id), NetParTotal(t, id)); }
  }

  /** A meta reserve's gross assets and debt are the worths of its legs, summed. */
  lemma MetaIsSum(t: Ledger, id: Id)
    requires !IsBase(t, id)
    ensures var rows, balances := Rows(t.assets, id), Rows(t.tokenBalances, id);
            && ReserveValue(t, id).gross ==
               Sum(rows.Keys, a => LegValue(t, Id(id.chain, a), DecimalsOf(rows, a), Get(balances, a)))
            && ReserveValue(t, id).debt ==
               Sum(rows.Keys, a => LegValue(t, Id(id.chain, a), DecimalsOf(rows, a), MirroredSoFar(rows, a)))
  {
    hide LegValue, Max0;
    var rows, balances := Rows(t.assets, id), Rows(t.tokenBalances, id);
    SumCongruent(rows.Keys, a => LegGross(t, id, a),
                 a => LegValue(t, Id(id.chain, a), DecimalsOf(rows, a), Get(balances, a)));
    SumCongruent(rows.Keys, a => LegDebt(t, id, a),
                 a => LegValue(t, Id(id.chain, a), DecimalsOf(rows, a), MirroredSoFar(rows, a)));
  }

  function DecimalsOf(rows: map<Addr, Asset>, a: Addr): Option<Decimals> {
    if a in rows then rows[a].decimals else None
  }

  // --- along runs ---

  /** Positions are dense in every state of a run. */
  lemma DenseThroughout(truth: Truth, logs: seq<Log>)
    requires Replay(truth, EMPTY_LEDGER, logs).Some?
    ensures InEveryState(truth, logs, Positions.AllDense)
  {
    hide Apply, At, Replay, Positions.AllDense;
    Positions.EmptyAllDense();
    forall i | 0 <= i < |logs| && Positions.AllDense(At(truth, logs, i))
      ensures Positions.AllDense(At(truth, logs, i + 1))
    {
      StepAt(truth, logs, i);
      Positions.PositionsKept(At(truth, logs, i), logs[i], truth(logs[i].address));
    }
    HoldsThroughout(truth, logs, Positions.AllDense);
  }

  lemma DenseAt(truth: Truth, logs: seq<Log>, i: nat, id: Id)
    requires i <= |logs| && Replay(truth, EMPTY_LEDGER, logs).Some?
    ensures Dense(Rows(At(truth, logs, i).assets, id))
  {
    hide At, Replay, Dense;
    DenseThroughout(truth, logs);
    Positions.EmptyDense();
    assert Positions.AllDense(At(truth, logs, i));
  }

  /** Anywhere in a run a base reserve's Deposit raises its gross assets by its amounts, normalized. */
  lemma RunDepositRaisesGross(truth: Truth, logs: seq<Log>, i: nat)
    requires i < |logs| && Replay(truth, EMPTY_LEDGER, logs).Some?
    requires truth(logs[i].address).BaseReserveKind? && logs[i].event.Deposit? && logs[i].event.amounts.Elements?
    ensures var id, t, r := Emitter(logs[i]), At(truth, logs, i), At(truth, logs, i + 1);
            var rows, amounts := Rows(t.assets, id), logs[i].event.amounts.elements;
            && ParValue(r, id).gross ==
               ParValue(t, id).gross + Sum(rows.Keys, a => AmountFor(rows, amounts, a) * UnitsOf(rows, a))
            && ParValue(r, id).debt == ParValue(t, id).debt
  {
    hide Apply, At, Replay, Dense, ParValue, AmountFor, UnitsOf, Sum;
    StepAt(truth, logs, i);
    DenseAt(truth, logs, i, Emitter(logs[i]));
    DepositRaisesGross(At(truth, logs, i), logs[i]);
  }

  /** Anywhere in a run an IOU mint lowers the NAV of the reserve that owes it. */
  lemma RunMintLowersNav(truth: Truth, logs: seq<Log>, i: nat, id: Id, a: Addr)
    requires i < |logs| && Replay(truth, EMPTY_LEDGER, logs).Some?
    requires truth(logs[i].address).IouKind? && logs[i].event.Transfer? && logs[i].event.value.Some?
    requires logs[i].event.from == ZERO_ADDRESS && logs[i].event.value.value >= 0
    requires id.chain == logs[i].chain && OnlyClaim(Rows(At(truth, logs, i).assets, id), logs[i].address, a)
    ensures var t, r := At(truth, logs, i), At(truth, logs, i + 1);
            var minted := logs[i].event.value.value * UnitsOf(Rows(t.assets, id), a);
            minted <= ParValue(t, id).nav ==> ParValue(r, id).nav == ParValue(t, id).nav - minted
  {
    hide Apply, At, Replay, ParValue, OnlyClaim;
    var t := At(truth, logs, i);
    StepAt(truth, logs, i);
    MintLowersNav(t, logs[i], id, a);
    UnitsPositive(Rows(t.assets, id), a);
    Scaled(0, logs[i].event.value.value, UnitsOf(Rows(t.assets, id), a));
  }

  lemma UnitsPositive(rows: map<Addr, Asset>, a: Addr)
    ensures UnitsOf(rows, a) >= 1
  {
    hide Scale;
    if a in rows { History.ScalePositive(rows[a].decimals); }
  }

  /** In every state of every run each stored row's NAV is net of its debt. */
  lemma StoredRowsAreNet(truth: Truth, logs: seq<Log>, i: nat, id: Id, d: nat)
    requires i <= |logs| && Replay(truth, EMPTY_LEDGER, logs).Some?
    requires d in Rows(At(truth, logs, i).valueHistory, id)
    ensures var row := Rows(At(truth, logs, i).valueHistory, id)[d];
            (row.totalAssets >= row.iouDebt ==> row.nav + row.iouDebt == row.totalAssets)
            && (row.totalAssets < row.iouDebt ==> row.nav == 0)
  {
    hide At, Replay, ReserveValue;
    EndOfDay.RowsAreTheDaysLast(truth, logs, i, id, d);
    var w := EndOfDay.Writer(truth, logs, i, id, d);
    NavIsNet(At(truth, logs, w.value + 1), id);
  }
}
