/**
 When the two histories of a base reserve agree: its aggregate row is at par, its asset rows are at
 redemption prices (schema.go: clear_reserve_par_values and the asset history; handlers.go:
 snapshotReserveAssets).
 */
module Parity {
  import opened Addresses
  import opened Effects
  import opened History
  import opened Kinds
  import opened Options
  import opened Sums
  import opened Tables
  import opened Valuation
  import DayEnds
  import ViewInputs

  // --- the drift of one asset ---

  /** What an asset's holding is worth beyond par. */
  function HeldDrift(t: Ledger, id: Id, a: Addr): int {
    LegGross(t, id, a) - GrossPar(Rows(t.assets, id), Rows(t.tokenBalances, id), a)
  }

  /** What the claim on an asset is worth beyond par. */
  function OwedDrift(t: Ledger, id: Id, a: Addr): int {
    LegDebt(t, id, a) - DebtPar(Rows(t.assets, id), a)
  }

  lemma SumDifference(s: set<Addr>, f: Addr -> int, g: Addr -> int, d: Addr -> int)
    requires forall x :: x in s ==> d(x) == f(x) - g(x)
    ensures Sum(s, d) == Sum(s, f) - Sum(s, g)
  {
    SumShifted(s, f, d, g, -1);
  }

  /** In every case, any prices, signs and legs: the histories agree exactly when the drifts cancel. */
  lemma AgreesIffDriftsCancel(b: Ledger, id: Id, log: Log)
    requires DaysRegistered(b) && Before(b, log) && id.chain == log.chain && IsBase(b, id)
    ensures SumsParts(ValueRowOf(b, id, log), AssetDays(b, id, log)) <==>
            Sum(Rows(b.assets, id).Keys, a => HeldDrift(b, id, a)) == 0
              && Sum(Rows(b.assets, id).Keys, a => OwedDrift(b, id, a)) == 0
  {
    hide AssetDays, Before, DaysRegistered, LegGross, LegDebt, GrossPar, DebtPar, Max0;
    AllRewritten(b, id, log);
    var days := AssetDays(b, id, log);
    var rows, balances := Rows(b.assets, id), Rows(b.tokenBalances, id);
    SumDifference(rows.Keys, a => Worth(days, a), a => GrossPar(rows, balances, a), a => HeldDrift(b, id, a));
    SumDifference(rows.Keys, a => Owed(days, a), a => DebtPar(rows, a), a => OwedDrift(b, id, a));
  }

  /** A par amount that truncation brings back to itself: at par, nothing at all, or too little above par
      to make a whole unit. */
  predicate RoundsToPar(amount: int, price: int) {
    0 <= Abs(amount) * (price - ONE) < ONE
  }

  lemma PricedAbs(x: int, p: int)
    requires x >= 0
    ensures TruncDiv(x * p, ONE) == x <==> RoundsToPar(x, p)
    ensures p >= ONE ==> TruncDiv(x * p, ONE) >= x
    ensures p <= ONE ==> TruncDiv(x * p, ONE) <= x
  {
    assert x * p == x * ONE + x * (p - ONE);
    if p >= ONE {
      assert x * (p - ONE) >= 0;
      ShiftedQuotient(x, x * (p - ONE));
    } else {
      assert x * (p - ONE) <= 0;
      BelowQuotient(x, x * (p - ONE));
      assert x > 0 ==> x * (p - ONE) < 0;
    }
  }

  lemma ShiftedQuotient(x: int, e: int)
    requires x >= 0 && e >= 0
    ensures TruncDiv(x * ONE + e, ONE) == x + e / ONE
    ensures e / ONE >= 0 && (e / ONE == 0 <==> e < ONE)
  {
  }

  lemma BelowQuotient(x: int, e: int)
    requires x >= 0 && e <= 0
    ensures TruncDiv(x * ONE + e, ONE) <= x
    ensures TruncDiv(x * ONE + e, ONE) == x ==> e == 0 || x == 0
    ensures e == 0 ==> TruncDiv(x * ONE + e, ONE) == x
  {
  }

  lemma NegatedQuotient(a: int)
    ensures TruncDiv(-a, ONE) == -TruncDiv(a, ONE)
  {
  }

  /** The drift of an amount x at price p: its sign is that of x (p - 10^18), and it is 0 exactly when x rounds
      to par. */
  lemma Drifts(x: int, p: int)
    ensures TruncDiv(x * p, ONE) == x <==> RoundsToPar(x, p)
    ensures x * (p - ONE) >= 0 ==> TruncDiv(x * p, ONE) >= x
    ensures x * (p - ONE) <= 0 ==> TruncDiv(x * p, ONE) <= x
  {
    hide TruncDiv;
    if x >= 0 {
      PricedAbs(x, p);
      SignOf(x, p - ONE);
    } else {
      PricedAbs(-x, p);
      assert -x * p == -(x * p);
      NegatedQuotient(x * p);
      SignOf(-x, p - ONE);
      assert -x * (p - ONE) == -(x * (p - ONE));
    }
    if x == 0 { ZeroQuotient(); }
  }

  lemma ZeroQuotient()
    ensures TruncDiv(0, ONE) == 0
  {
  }

  lemma SignOf(x: int, e: int)
    requires x >= 0
    ensures x > 0 ==> (x * e >= 0 <==> e >= 0) && (x * e <= 0 <==> e <= 0)
  {
  }

  // --- reserves of tokens ---

  predicate TokensOnly(t: Ledger, id: Id) {
    forall a :: a in Rows(t.assets, id) ==> !IsBase(t, Id(id.chain, a))
  }

  /** An asset's holding and the claim on it, at par. */
  function Held(t: Ledger, id: Id, a: Addr): int {
    GrossPar(Rows(t.assets, id), Rows(t.tokenBalances, id), a)
  }

  function OwedAtPar(t: Ledger, id: Id, a: Addr): int {
    DebtPar(Rows(t.assets, id), a)
  }

  function Premium(t: Ledger, id: Id, a: Addr): int {
    Price(t, Id(id.chain, a)) - ONE
  }

  /** No holding pulls against another: all at or above par, or all at or below (a negative amount the
      other way round); and no claim against another. */
  predicate OneSided(t: Ledger, id: Id) {
    var keys := Rows(t.assets, id);
    && ((forall a :: a in keys ==> Held(t, id, a) * Premium(t, id, a) >= 0)
        || (forall a :: a in keys ==> Held(t, id, a) * Premium(t, id, a) <= 0))
    && ((forall a :: a in keys ==> OwedAtPar(t, id, a) * Premium(t, id, a) >= 0)
        || (forall a :: a in keys ==> OwedAtPar(t, id, a) * Premium(t, id, a) <= 0))
  }

  predicate AllRoundToPar(t: Ledger, id: Id) {
    forall a :: a in Rows(t.assets, id) ==>
      RoundsToPar(Held(t, id, a), Price(t, Id(id.chain, a)))
        && RoundsToPar(OwedAtPar(t, id, a), Price(t, Id(id.chain, a)))
  }

  lemma TokenDrifts(t: Ledger, id: Id, a: Addr)
    requires TokensOnly(t, id) && a in Rows(t.assets, id)
    ensures var p := Price(t, Id(id.chain, a));
            && (HeldDrift(t, id, a) == 0 <==> RoundsToPar(Held(t, id, a), p))
            && (OwedDrift(t, id, a) == 0 <==> RoundsToPar(OwedAtPar(t, id, a), p))
            && (Held(t, id, a) * Premium(t, id, a) >= 0 ==> HeldDrift(t, id, a) >= 0)
            && (Held(t, id, a) * Premium(t, id, a) <= 0 ==> HeldDrift(t, id, a) <= 0)
            && (OwedAtPar(t, id, a) * Premium(t, id, a) >= 0 ==> OwedDrift(t, id, a) >= 0)
            && (OwedAtPar(t, id, a) * Premium(t, id, a) <= 0 ==> OwedDrift(t, id, a) <= 0)
  {
    hide TruncDiv, Price, Scale, IsBase, RoundsToPar;
    Drifts(Held(t, id, a), Price(t, Id(id.chain, a)));
    Drifts(OwedAtPar(t, id, a), Price(t, Id(id.chain, a)));
  }

  lemma OneSidedSum(s: set<Addr>, d: Addr -> int)
    requires (forall x :: x in s ==> d(x) >= 0) || (forall x :: x in s ==> d(x) <= 0)
    ensures Sum(s, d) == 0 <==> forall x :: x in s ==> d(x) == 0
  {
    SumZero(s);
    if forall x :: x in s ==> d(x) >= 0 {
      SumDominated(s, x => 0, d);
    } else {
      SumDominated(s, d, x => 0);
    }
  }

  /** Whenever every holding and claim rounds to par the histories agree: no hypothesis on prices or signs. */
  lemma AgreesAtPar(b: Ledger, id: Id, log: Log)
    requires DaysRegistered(b) && Before(b, log) && id.chain == log.chain && IsBase(b, id) && TokensOnly(b, id)
    requires AllRoundToPar(b, id)
    ensures SumsParts(ValueRowOf(b, id, log), AssetDays(b, id, log))
  {
    hide ValueRowOf, AssetDays, SumsParts, HeldDrift, OwedDrift, RoundsToPar, Before, DaysRegistered, IsBase,
         TokensOnly, Price;
    var keys := Rows(b.assets, id).Keys;
    forall a | a in keys ensures HeldDrift(b, id, a) == 0 && OwedDrift(b, id, a) == 0 { TokenDrifts(b, id, a); }
    OneSidedSum(keys, a => HeldDrift(b, id, a));
    OneSidedSum(keys, a => OwedDrift(b, id, a));
    AgreesIffDriftsCancel(b, id, log);
  }

  /** With prices and amounts that pull one way, whatever their size and sign, the histories of a reserve of
      tokens agree if and only if every holding and every claim rounds to par. */
  lemma AgreesIffAtPar(b: Ledger, id: Id, log: Log)
    requires DaysRegistered(b) && Before(b, log) && id.chain == log.chain && IsBase(b, id) && TokensOnly(b, id)
    requires OneSided(b, id)
    ensures SumsParts(ValueRowOf(b, id, log), AssetDays(b, id, log)) <==> AllRoundToPar(b, id)
  {
    hide ValueRowOf, AssetDays, SumsParts, HeldDrift, OwedDrift, RoundsToPar, Before, DaysRegistered, IsBase,
         TokensOnly, Price, Premium, Held, OwedAtPar;
    var keys := Rows(b.assets, id).Keys;
    forall a | a in keys
      ensures HeldDrift(b, id, a) == 0 <==> RoundsToPar(Held(b, id, a), Price(b, Id(id.chain, a)))
      ensures OwedDrift(b, id, a) == 0 <==> RoundsToPar(OwedAtPar(b, id, a), Price(b, Id(id.chain, a)))
      ensures Held(b, id, a) * Premium(b, id, a) >= 0 ==> HeldDrift(b, id, a) >= 0
      ensures Held(b, id, a) * Premium(b, id, a) <= 0 ==> HeldDrift(b, id, a) <= 0
      ensures OwedAtPar(b, id, a) * Premium(b, id, a) >= 0 ==> OwedDrift(b, id, a) >= 0
      ensures OwedAtPar(b, id, a) * Premium(b, id, a) <= 0 ==> OwedDrift(b, id, a) <= 0
    {
      TokenDrifts(b, id, a);
    }
    OneSidedSum(keys, a => HeldDrift(b, id, a));
    OneSidedSum(keys, a => OwedDrift(b, id, a));
    AgreesIffDriftsCancel(b, id, log);
  }

  /** Priced at par, or neither held nor owed. */
  predicate AtPar(t: Ledger, id: Id, a: Addr) {
    Price(t, Id(id.chain, a)) == ONE || (Held(t, id, a) == 0 && OwedAtPar(t, id, a) == 0)
  }

  /** An asset at par rounds to par, and a discounted one does so only if it is neither held nor owed. */
  lemma AtParRounds(t: Ledger, id: Id, a: Addr)
    ensures var p := Price(t, Id(id.chain, a));
            && (AtPar(t, id, a) ==> RoundsToPar(Held(t, id, a), p) && RoundsToPar(OwedAtPar(t, id, a), p))
            && (p <= ONE && RoundsToPar(Held(t, id, a), p) && RoundsToPar(OwedAtPar(t, id, a), p) ==> AtPar(t, id, a))
  {
    hide Price, Held, OwedAtPar;
    Discounted(Held(t, id, a), Price(t, Id(id.chain, a)));
    Discounted(OwedAtPar(t, id, a), Price(t, Id(id.chain, a)));
  }

  lemma Discounted(x: int, p: int)
    ensures x == 0 || p == ONE ==> RoundsToPar(x, p)
    ensures p < ONE && RoundsToPar(x, p) ==> x == 0
  {
    if x == 0 {
      assert Abs(x) == 0;
    } else if p == ONE {
      assert Abs(x) * (p - ONE) == 0;
    } else if p < ONE {
      ProductNegative(Abs(x), p - ONE);
    }
  }

  lemma ProductNegative(x: int, e: int)
    requires x > 0 && e < 0
    ensures x * e < 0
  {
  }

  // --- the stored rows ---

  /** The rows of the log's day, as stored for the reserve. */
  ghost predicate StoredAgree(t: Ledger, id: Id, day: nat) {
    day in Rows(t.valueHistory, id) && SumsParts(Rows(t.valueHistory, id)[day], Rows(t.assetHistory, DayKey(id, day)))
  }

  lemma StoredRows(t: Ledger, log: Log, k: Kind, id: Id)
    requires Snapshots(t, log, k) == Some(id) && Apply(t, log, k).Some? && Before(t, log)
             && id in Read(t, log, k).reserves
    ensures var b, r, day := Read(t, log, k), Apply(t, log, k).value, Day(log.timestamp);
            && day in Rows(r.valueHistory, id) && Rows(r.valueHistory, id)[day] == ValueRowOf(b, id, log)
            && Rows(r.assetHistory, DayKey(id, day)) == AssetDays(b, id, log)
  {
    hide Apply, Read, Snapshots, ValueRowOf, AssetDays, Day, AssetDaysBefore;
    HistoryFrame(t, log, k);
    SnapshotsOwnChain(t, log, k);
    SnapshotReads(t, log, k);
    var b, day := Read(t, log, k), Day(log.timestamp);
    assert id in b.valueHistory && day in b.valueHistory[id] ==> b.valueHistory[id][day].block <= log.block;
  }

  /** The two ledgers hold the same tokens at the same prices. */
  lemma SameTokens(b: Ledger, r: Ledger, id: Id)
    requires ViewInputs.SameValuation(b, r)
    ensures TokensOnly(b, id) <==> TokensOnly(r, id)
    ensures OneSided(b, id) <==> OneSided(r, id)
    ensures AllRoundToPar(b, id) <==> AllRoundToPar(r, id)
    ensures IsBase(b, id) <==> IsBase(r, id)
  {
    hide RoundsToPar, GrossPar, DebtPar;
    forall a ensures Price(b, Id(id.chain, a)) == Price(r, Id(id.chain, a)) { }
  }

  /** Right after a log that snapshots a base reserve of tokens, its stored rows of the day agree if all amounts
      round to par, and only if they do where prices and amounts pull one way. */
  lemma StoredAgreeIffAtPar(t: Ledger, log: Log, k: Kind, id: Id)
    requires Snapshots(t, log, k) == Some(id) && Apply(t, log, k).Some? && Before(t, log) && DaysRegistered(t)
    requires id in Read(t, log, k).reserves
    requires var r := Apply(t, log, k).value; IsBase(r, id) && TokensOnly(r, id)
    ensures var r := Apply(t, log, k).value;
            && (AllRoundToPar(r, id) ==> StoredAgree(r, id, Day(log.timestamp)))
            && (OneSided(r, id) ==> (StoredAgree(r, id, Day(log.timestamp)) <==> AllRoundToPar(r, id)))
  {
    hide Apply, Read, Snapshots, ValueRowOf, AssetDays, Day, Before, DaysRegistered, SumsParts, AllRoundToPar,
         OneSided, TokensOnly, IsBase;
    var b, r := Read(t, log, k), Apply(t, log, k).value;
    StoredRows(t, log, k, id);
    DayEnds.SnapshotValuation(t, log, k);
    SameTokens(b, r, id);
    SnapshotsOwnChain(t, log, k);
    ReadRegistered(t, log, k);
    if AllRoundToPar(b, id) { AgreesAtPar(b, id, log); }
    if OneSided(b, id) { AgreesIffAtPar(b, id, log); }
  }

  /** In every case the stored rows agree if and only if the drifts cancel. */
  lemma StoredAgreeIffCancel(t: Ledger, log: Log, k: Kind, id: Id)
    requires Snapshots(t, log, k) == Some(id) && Apply(t, log, k).Some? && Before(t, log) && DaysRegistered(t)
    requires id in Read(t, log, k).reserves && IsBase(Apply(t, log, k).value, id)
    ensures var r := Apply(t, log, k).value;
            StoredAgree(r, id, Day(log.timestamp)) <==>
            Sum(Rows(r.assets, id).Keys, a => HeldDrift(r, id, a)) == 0
              && Sum(Rows(r.assets, id).Keys, a => OwedDrift(r, id, a)) == 0
  {
    hide Apply, Read, Snapshots, ValueRowOf, AssetDays, Day, Before, DaysRegistered, SumsParts, IsBase, HeldDrift,
         OwedDrift;
    var b, r := Read(t, log, k), Apply(t, log, k).value;
    StoredRows(t, log, k, id);
    DayEnds.SnapshotValuation(t, log, k);
    SameTokens(b, r, id);
    SnapshotsOwnChain(t, log, k);
    ReadRegistered(t, log, k);
    AgreesIffDriftsCancel(b, id, log);
    SameDrifts(b, r, id);
  }

  lemma SameDrifts(b: Ledger, r: Ledger, id: Id)
    requires ViewInputs.SameValuation(b, r)
    ensures Rows(b.assets, id) == Rows(r.assets, id)
    ensures Sum(Rows(b.assets, id).Keys, a => HeldDrift(b, id, a)) ==
            Sum(Rows(r.assets, id).Keys, a => HeldDrift(r, id, a))
    ensures Sum(Rows(b.assets, id).Keys, a => OwedDrift(b, id, a)) ==
            Sum(Rows(r.assets, id).Keys, a => OwedDrift(r, id, a))
  {
    hide LegValue, GrossPar, DebtPar;
    var rows := Rows(b.assets, id);
    forall a | a in rows
      ensures HeldDrift(b, id, a) == HeldDrift(r, id, a) && OwedDrift(b, id, a) == OwedDrift(r, id, a)
    {
      ViewInputs.SameValuationInputs(b, r, Id(id.chain, a));
      ViewInputs.SameLeg(b, r, Id(id.chain, a), rows[a].decimals, Get(Rows(b.tokenBalances, id), a));
      ViewInputs.SameLeg(b, r, Id(id.chain, a), rows[a].decimals, rows[a].iouSupply);
    }
    SumCongruent(rows.Keys, a => HeldDrift(b, id, a), a => HeldDrift(r, id, a));
    SumCongruent(rows.Keys, a => OwedDrift(b, id, a), a => OwedDrift(r, id, a));
  }

  lemma ReadRegistered(t: Ledger, log: Log, k: Kind)
    requires Snapshots(t, log, k).Some? && Apply(t, log, k).Some? && Before(t, log) && DaysRegistered(t)
    ensures Before(Read(t, log, k), log) && DaysRegistered(Read(t, log, k))
  {
    hide Apply, Read, Snapshots, Day;
    SnapshotReads(t, log, k);
    ReadBefore(t, Read(t, log, k), Apply(t, log, k).value, log);
    AssetsStay(t, log, k);
  }
}
