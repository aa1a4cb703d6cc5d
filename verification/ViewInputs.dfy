/**
 What the view of one reserve reads: its own asset rows, balances and prices, and, for each of its assets
 that is a base reserve, that reserve's LP supply and holdings (schema.go: clear_reserve_values).
 */
module ViewInputs {
  import opened Options
  import opened Sums
  import opened Tables
  import opened Valuation

  /** The same asset rows and balances, and the same prices of those assets. */
  ghost predicate SameHoldings(b: Ledger, r: Ledger, id: Id) {
    && Rows(b.assets, id) == Rows(r.assets, id) && Rows(b.tokenBalances, id) == Rows(r.tokenBalances, id)
    && forall a :: a in Rows(b.assets, id) ==> Price(b, Id(id.chain, a)) == Price(r, Id(id.chain, a))
  }

  /** As a leg the contract is a base reserve in both or in neither, with the same LP supply and holdings. */
  ghost predicate SameStanding(b: Ledger, r: Ledger, leg: Id) {
    && (IsBase(b, leg) <==> IsBase(r, leg))
    && (IsBase(b, leg) ==> b.reserves[leg].lpSupply == r.reserves[leg].lpSupply && SameHoldings(b, r, leg))
  }

  ghost predicate SameInputs(b: Ledger, r: Ledger, id: Id) {
    && SameHoldings(b, r, id) && (IsBase(b, id) <==> IsBase(r, id))
    && forall a :: a in Rows(b.assets, id) ==> SameStanding(b, r, Id(id.chain, a))
  }

  lemma SameAverage(b: Ledger, r: Ledger, id: Id)
    requires SameHoldings(b, r, id)
    ensures AvgRedemption(b, id) == AvgRedemption(r, id) && ParValue(b, id) == ParValue(r, id)
  {
    hide NetPar, ParOf, TruncDiv, Price;
    var rows, balances := Rows(b.assets, id), Rows(b.tokenBalances, id);
    SumCongruent(rows.Keys, a => NetPar(rows, balances, a) * Price(b, Id(id.chain, a)),
                 a => NetPar(rows, balances, a) * Price(r, Id(id.chain, a)));
    assert WeightedTotal(b, id) == WeightedTotal(r, id);
    assert NetParTotal(b, id) == NetParTotal(r, id);
  }

  lemma SameLeg(b: Ledger, r: Ledger, leg: Id, decimals: Option<Decimals>, units: int)
    requires SameStanding(b, r, leg) && Price(b, leg) == Price(r, leg)
    ensures LegValue(b, leg, decimals, units) == LegValue(r, leg, decimals, units)
  {
    hide AvgRedemption, ParValue, ConvertToRedemption, TruncDiv, Scale, Price, SameHoldings;
    if IsBase(b, leg) { SameAverage(b, r, leg); }
  }

  lemma SameMetaValue(b: Ledger, r: Ledger, id: Id)
    requires SameInputs(b, r, id)
    ensures MetaValue(b, id) == MetaValue(r, id)
  {
    hide LegValue, Max0, Price, SameStanding, IsBase;
    var rows := Rows(b.assets, id);
    forall a | a in rows
      ensures LegGross(b, id, a) == LegGross(r, id, a) && LegDebt(b, id, a) == LegDebt(r, id, a)
    {
      SameLeg(b, r, Id(id.chain, a), rows[a].decimals, Get(Rows(b.tokenBalances, id), a));
      SameLeg(b, r, Id(id.chain, a), rows[a].decimals, rows[a].iouSupply);
    }
    SumCongruent(rows.Keys, a => LegGross(b, id, a), a => LegGross(r, id, a));
    SumCongruent(rows.Keys, a => LegDebt(b, id, a), a => LegDebt(r, id, a));
  }

  /** A reserve's row of the view is a function of these inputs. */
  lemma SameReserveValue(b: Ledger, r: Ledger, id: Id)
    requires SameInputs(b, r, id)
    ensures ReserveValue(b, id) == ReserveValue(r, id)
  {
    hide MetaValue, ParValue, Price, SameStanding;
    SameMetaValue(b, r, id);
    SameAverage(b, r, id);
  }

  // --- ledgers that agree on every reserve ---

  /** The same reserves, with the same kinds and LP supplies, and the same prices, assets and balances. */
  ghost predicate SameValuation(b: Ledger, r: Ledger) {
    && b.assets == r.assets && b.tokenBalances == r.tokenBalances && b.redemptionPrices == r.redemptionPrices
    && (forall id :: id in b.reserves <==> id in r.reserves)
    && (forall id :: id in b.reserves ==>
          r.reserves[id].kind == b.reserves[id].kind && r.reserves[id].lpSupply == b.reserves[id].lpSupply)
  }

  lemma SameValuationInputs(b: Ledger, r: Ledger, id: Id)
    requires SameValuation(b, r)
    ensures SameInputs(b, r, id) && SameStanding(b, r, id) && Price(b, id) == Price(r, id)
  {
    forall leg ensures Price(b, leg) == Price(r, leg) { }
  }
}
