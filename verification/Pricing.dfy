/**
 The arithmetic of the valuation views: the weighted redemption price, LP units at NAV per share, and
 the two truncating divisions of a base leg (schema.go: clear_reserve_par_values, clear_reserve_values).
 */
module Pricing {
  import opened Addresses
  import opened Sums
  import opened Tables
  import opened Valuation
  import Accounting
  import opened Machine
  import Frames

  // --- arithmetic ---

  lemma Scaled(a: int, b: int, c: int)
    requires a <= b && c >= 0
    ensures a * c <= b * c
  {
  }

  lemma Floor(a: int, b: int)
    requires a >= 0 && b > 0
    ensures TruncDiv(a, b) >= 0
    ensures TruncDiv(a, b) * b <= a < TruncDiv(a, b) * b + b
  {
    Quotient(a, b);
    assert TruncDiv(a, b) == a / b;
  }

  lemma Quotient(a: nat, b: nat)
    requires b > 0
    ensures a / b >= 0 && (a / b) * b <= a < (a / b) * b + b
  {
    assert a == (a / b) * b + a % b;
  }

  lemma Unscaled(a: int, b: int, c: int)
    requires a * c < b * c && c > 0
    ensures a < b
  {
  }

  /** q is the quotient as soon as it brackets it. */
  lemma FloorIs(a: int, b: int, q: int)
    requires a >= 0 && b > 0 && q * b <= a
    ensures q <= TruncDiv(a, b)
  {
    Floor(a, b);
    if q > TruncDiv(a, b) {
      Scaled(TruncDiv(a, b) + 1, q, b);
      assert false;
    }
  }

  lemma FloorMonotone(a: int, c: int, b: int)
    requires 0 <= a <= c && b > 0
    ensures TruncDiv(a, b) <= TruncDiv(c, b)
  {
    hide TruncDiv;
    Floor(a, b);
    FloorIs(c, b, TruncDiv(a, b));
  }

  /** NUMERIC trunc rounds toward zero, whatever the signs. */
  lemma TruncRoundsTowardZero(a: int, b: int)
    requires b != 0
    ensures Abs(TruncDiv(a, b)) * Abs(b) <= Abs(a) < (Abs(TruncDiv(a, b)) + 1) * Abs(b)
    ensures TruncDiv(a, b) > 0 ==> (a > 0 <==> b > 0)
    ensures TruncDiv(a, b) < 0 ==> (a > 0 <==> b < 0)
  {
    hide TruncDiv;
    Floor(Abs(a), Abs(b));
    TruncAbs(a, b);
  }

  lemma TruncAbs(a: int, b: int)
    requires b != 0
    ensures Abs(TruncDiv(a, b)) == TruncDiv(Abs(a), Abs(b))
    ensures TruncDiv(a, b) > 0 ==> (a > 0 <==> b > 0)
    ensures TruncDiv(a, b) < 0 ==> (a > 0 <==> b < 0)
  {
    var q := Abs(a) / Abs(b);
    Quotient(Abs(a), Abs(b));
    assert TruncDiv(Abs(a), Abs(b)) == q;
    assert TruncDiv(a, b) == if (a >= 0) == (b > 0) then q else -q;
    assert a == 0 ==> q == 0;
  }

  // --- the weighted mean ---

  /** The net par weight of one asset. */
  function Weight(t: Ledger, id: Id, a: Addr): int {
    NetPar(Rows(t.assets, id), Rows(t.tokenBalances, id), a)
  }

  /** Every asset with a net balance is priced within [lo, hi]. */
  ghost predicate PricedWithin(t: Ledger, id: Id, lo: int, hi: int) {
    forall a :: a in Rows(t.assets, id) && Weight(t, id, a) > 0 ==> lo <= Price(t, Id(id.chain, a)) <= hi
  }

  lemma WeightNonNegative(t: Ledger, id: Id, a: Addr)
    ensures Weight(t, id, a) >= 0
    ensures a in Rows(t.assets, id) ==>
              (Weight(t, id, a) == 0 <==> Get(Rows(t.tokenBalances, id), a) <= Rows(t.assets, id)[a].iouSupply)
  {
    if a in Rows(t.assets, id) {
      var net, scale := Max0(Get(Rows(t.tokenBalances, id), a) - Rows(t.assets, id)[a].iouSupply),
          Scale(Rows(t.assets, id)[a].decimals);
      assert scale >= 1;
      ScaledZero(net, scale);
    }
  }

  lemma ScaledZero(x: int, s: int)
    requires x >= 0 && s >= 1
    ensures x * s >= 0 && (x * s == 0 <==> x == 0)
  {
  }

  lemma WeighedBounds(t: Ledger, id: Id, lo: int, hi: int)
    requires PricedWithin(t, id, lo, hi)
    ensures NetParTotal(t, id) >= 0
    ensures lo * NetParTotal(t, id) <= WeightedTotal(t, id) <= hi * NetParTotal(t, id)
  {
    hide NetPar, Price;
    var f := a => NetPar(Rows(t.assets, id), Rows(t.tokenBalances, id), a) * Price(t, Id(id.chain, a));
    var w := a => NetPar(Rows(t.assets, id), Rows(t.tokenBalances, id), a);
    var keys := Rows(t.assets, id).Keys;
    forall a | a in keys
      ensures w(a) >= 0 && lo * w(a) <= f(a) <= hi * w(a)
    {
      WeightNonNegative(t, id, a);
      if w(a) > 0 {
        Scaled(lo, Price(t, Id(id.chain, a)), w(a));
        Scaled(Price(t, Id(id.chain, a)), hi, w(a));
      }
    }
    SumBounds(keys, f, w, lo, hi);
  }

  /** A base reserve's average lies between any bounds, so between the least and the greatest, of the
      scaled prices of the assets with a positive net par. */
  lemma MeanWithinPrices(t: Ledger, id: Id, lo: int, hi: int)
    requires 0 <= lo && PricedWithin(t, id, lo, hi)
    ensures NetParTotal(t, id) != 0 ==> lo <= AvgRedemption(t, id) <= hi
  {
    hide NetParTotal, WeightedTotal, PricedWithin, TruncDiv;
    var w, n := WeightedTotal(t, id), NetParTotal(t, id);
    WeighedBounds(t, id, lo, hi);
    if n != 0 {
      Scaled(0, lo, n);
      QuotientWithin(w, n, lo, hi);
    }
  }

  lemma QuotientWithin(a: int, b: int, lo: int, hi: int)
    requires a >= 0 && b > 0 && lo * b <= a <= hi * b
    ensures lo <= TruncDiv(a, b) <= hi
  {
    hide TruncDiv;
    Floor(a, b);
    FloorIs(a, b, lo);
    if TruncDiv(a, b) > hi {
      Scaled(hi + 1, TruncDiv(a, b), b);
      assert false;
    }
  }

  /** The average is exactly 10^18 when every asset with a net balance is at par. */
  lemma MeanAtPar(t: Ledger, id: Id)
    requires PricedWithin(t, id, ONE, ONE)
    ensures NetParTotal(t, id) != 0 ==> AvgRedemption(t, id) == ONE
  {
    hide NetParTotal, AvgRedemption, PricedWithin;
    MeanWithinPrices(t, id, ONE, ONE);
  }

  lemma NoNetBalance(t: Ledger, id: Id)
    ensures NetParTotal(t, id) == 0 <==>
            forall a :: a in Rows(t.assets, id) ==> Get(Rows(t.tokenBalances, id), a) <= Rows(t.assets, id)[a].iouSupply
  {
    hide NetPar;
    var w := a => NetPar(Rows(t.assets, id), Rows(t.tokenBalances, id), a);
    var keys := Rows(t.assets, id).Keys;
    forall a | a in keys ensures w(a) >= 0 && w(a) == Weight(t, id, a) { WeightNonNegative(t, id, a); }
    forall a | a in keys ensures Sum(keys, w) >= w(a) { SumAtLeast(keys, w, a); }
    if forall a :: a in keys ==> w(a) == 0 {
      SumBounds(keys, w, w, 0, 0);
    }
    forall a | a in keys
      ensures w(a) == 0 <==> Get(Rows(t.tokenBalances, id), a) <= Rows(t.assets, id)[a].iouSupply
    {
      WeightNonNegative(t, id, a);
    }
  }

  lemma TotalsNonNegative(t: Ledger, id: Id)
    requires forall a :: a in Rows(t.assets, id) ==> Price(t, Id(id.chain, a)) >= 0
    ensures NetParTotal(t, id) >= 0 && WeightedTotal(t, id) >= 0
  {
    hide NetPar, Price;
    var f := a => NetPar(Rows(t.assets, id), Rows(t.tokenBalances, id), a) * Price(t, Id(id.chain, a));
    var w := a => NetPar(Rows(t.assets, id), Rows(t.tokenBalances, id), a);
    var keys := Rows(t.assets, id).Keys;
    forall a | a in keys
      ensures w(a) >= 0 && f(a) >= 0
    {
      WeightNonNegative(t, id, a);
      Scaled(0, Price(t, Id(id.chain, a)), w(a));
    }
    SumZero(keys);
    SumDominated(keys, a => 0, f);
    SumDominated(keys, a => 0, w);
  }

  /** For non-negative prices the average is 0 exactly when nothing has a net balance or the mean truncates to 0. */
  lemma MeanZeroIff(t: Ledger, id: Id)
    requires forall a :: a in Rows(t.assets, id) ==> Price(t, Id(id.chain, a)) >= 0
    ensures AvgRedemption(t, id) == 0 <==> NetParTotal(t, id) == 0 || WeightedTotal(t, id) < NetParTotal(t, id)
  {
    hide NetParTotal, WeightedTotal, Price, TruncDiv;
    var w, n := WeightedTotal(t, id), NetParTotal(t, id);
    TotalsNonNegative(t, id);
    if n > 0 {
      Floor(w, n);
      if w >= n { FloorIs(w, n, 1); }
    }
  }

  // --- no over-claim ---

  /** What one holding converts to, with the division cleared. */
  lemma ConvertFloor(u: int, nav: int, lp: int)
    requires u >= 0 && nav >= 0 && lp >= 0
    ensures var v := ConvertToValue(u, nav, lp); v >= 0 && v * (lp + 1) <= u * (nav + 1) < v * (lp + 1) + (lp + 1)
  {
    hide TruncDiv;
    Scaled(0, u, nav + 1);
    Floor(u * (nav + 1), lp + 1);
  }

  /** What a holding could claim; a negative one claims nothing. */
  function Claim(u: int, nav: int, lp: nat): int {
    if u >= 0 then ConvertToValue(u, nav, lp) else 0
  }

  lemma {:induction false} ClaimsWithin(units: seq<int>, nav: nat, lp: nat)
    requires forall i :: 0 <= i < |units| ==> units[i] >= 0
    ensures SumOver(units, u => Claim(u, nav, lp)) * (lp + 1) <= SumOver(units, u => u) * (nav + 1)
  {
    hide ConvertToValue;
    if units != [] {
      var n := |units| - 1;
      ClaimsWithin(units[..n], nav, lp);
      ConvertFloor(units[n], nav, lp);
      Distribute(lp + 1, SumOver(units[..n], u => Claim(u, nav, lp)), ConvertToValue(units[n], nav, lp));
      Distribute(nav + 1, SumOver(units[..n], u => u), units[n]);
    }
  }

  /** Claims whose units stay within the supply stay within the value. */
  lemma WithinValue(claims: int, units: int, nav: int, lp: int)
    requires nav >= 0 && lp >= 0 && units <= lp
    requires claims * (lp + 1) <= units * (nav + 1)
    ensures claims <= nav
  {
    Scaled(units, lp, nav + 1);
    assert lp * (nav + 1) < (nav + 1) * (lp + 1);
    Unscaled(claims, nav + 1, lp + 1);
  }

  /** No over-claim: holdings that total at most the LP supply convert to at most the NAV together. */
  lemma NoOverClaim(units: seq<int>, nav: nat, lp: nat)
    requires (forall i :: 0 <= i < |units| ==> units[i] >= 0) && SumOver(units, u => u) <= lp
    ensures SumOver(units, u => Claim(u, nav, lp)) <= nav
  {
    hide Claim;
    ClaimsWithin(units, nav, lp);
    WithinValue(SumOver(units, u => Claim(u, nav, lp)), SumOver(units, u => u), nav, lp);
  }

  /** What the stored LP holders of a reserve could claim at its current NAV. */
  function HolderClaims(t: Ledger, id: Id): int
    requires Frames.LpSupply(t.reserves, id) >= 0
  {
    var holders := Rows(t.lpBalances, id);
    Sum(holders.Keys, h => Claim(Get(holders, h), ParValue(t, id).nav, Frames.LpSupply(t.reserves, id)))
  }

  lemma ClaimFloor(u: int, nav: nat, lp: nat)
    requires u >= 0
    ensures (lp + 1) * Claim(u, nav, lp) <= (nav + 1) * u
  {
    hide ConvertToValue;
    ConvertFloor(u, nav, lp);
  }

  lemma HoldersWithin(holders: map<Addr, int>, nav: nat, lp: nat)
    requires (forall h :: h in holders ==> holders[h] >= 0) && Total(holders) <= lp
    ensures Sum(holders.Keys, h => Claim(Get(holders, h), nav, lp)) <= nav
  {
    hide Claim;
    var f := h => Claim(Get(holders, h), nav, lp);
    var w := h => Get(holders, h);
    forall h | h in holders.Keys ensures (lp + 1) * f(h) <= (nav + 1) * w(h) { ClaimFloor(Get(holders, h), nav, lp); }
    SumRatio(holders.Keys, f, w, lp + 1, nav + 1);
    WithinValue(Sum(holders.Keys, f), Total(holders), nav, lp);
  }

  /** In every reachable state the stored LP holders of a reserve, none of them negative, can together
      claim at most its NAV: the balances total the supply, and the conversion rounds in its favour. */
  lemma HoldersCannotOverClaim(cfg: Config, steps: seq<Step>, id: Id)
    requires var t := Run(Initial(cfg), cfg, steps).ledger;
             && Frames.LpSupply(t.reserves, id) >= 0
             && forall h :: h in Rows(t.lpBalances, id) ==> Rows(t.lpBalances, id)[h] >= 0
    ensures var t := Run(Initial(cfg), cfg, steps).ledger;
            HolderClaims(t, id) <= ParValue(t, id).nav
  {
    hide Run, Initial, Total, Frames.LpSupply, Claim;
    var t := Run(Initial(cfg), cfg, steps).ledger;
    Accounting.AlwaysConserved(cfg, steps);
    assert Total(Rows(t.lpBalances, id)) == Frames.LpSupply(t.reserves, id);
    HoldersWithin(Rows(t.lpBalances, id), ParValue(t, id).nav, Frames.LpSupply(t.reserves, id));
  }

  // --- the nested truncation of a base leg ---

  predicate Sound(u: int, nav: int, lp: int, avg: int) {
    u >= 0 && nav >= 0 && lp >= 0 && avg >= 0
  }

  lemma RedemptionFloor(u: int, nav: int, lp: int, avg: int)
    requires Sound(u, nav, lp, avg)
    ensures var v, r := ConvertToValue(u, nav, lp), ConvertToRedemption(u, nav, lp, avg);
            v >= 0 && r >= 0 && r * ONE <= v * avg < r * ONE + ONE
  {
    hide TruncDiv, ConvertToValue;
    ConvertFloor(u, nav, lp);
    var v := ConvertToValue(u, nav, lp);
    Scaled(0, v, avg);
    Floor(v * avg, ONE);
  }

  /** The two truncations never exceed the exact value u (nav+1) avg / ((lp+1) 10^18), and fall short of
      it by less than avg / 10^18 + 1. */
  lemma TruncationBound(u: int, nav: int, lp: int, avg: int)
    requires Sound(u, nav, lp, avg)
    ensures var r := ConvertToRedemption(u, nav, lp, avg);
            && r * ONE * (lp + 1) <= u * (nav + 1) * avg
            && u * (nav + 1) * avg < (r * ONE + ONE + avg) * (lp + 1)
  {
    hide ConvertToValue, ConvertToRedemption;
    ConvertFloor(u, nav, lp);
    RedemptionFloor(u, nav, lp, avg);
    TwoFloors(u * (nav + 1), lp + 1, ConvertToValue(u, nav, lp), avg, ConvertToRedemption(u, nav, lp, avg));
  }

  /** v = x / d and r = v avg / ONE, both rounded down. */
  lemma TwoFloors(x: int, d: int, v: int, avg: int, r: int)
    requires d > 0 && avg >= 0 && v * d <= x < v * d + d
    requires r * ONE <= v * avg < r * ONE + ONE
    ensures r * ONE * d <= x * avg < (r * ONE + ONE + avg) * d
  {
    Scaled(r * ONE, v * avg, d);
    Scaled(v * d, x, avg);
    assert v * avg * d == v * d * avg;
    Scaled(x, v * d + d, avg);
    assert (v * d + d) * avg == v * avg * d + d * avg;
    Scaled(v * avg + 1, r * ONE + ONE, d);
    assert (v * avg + 1) * d == v * avg * d + d;
    assert (r * ONE + ONE + avg) * d == (r * ONE + ONE) * d + avg * d;
  }

  /** More units, or a higher NAV, are never worth less. */
  lemma RedemptionMonotone(u: int, w: int, nav: int, richer: int, lp: int, avg: int)
    requires Sound(u, nav, lp, avg) && u <= w && nav <= richer
    ensures ConvertToRedemption(u, nav, lp, avg) <= ConvertToRedemption(w, richer, lp, avg)
  {
    hide TruncDiv;
    Scaled(u, w, nav + 1);
    Scaled(nav + 1, richer + 1, w);
    Scaled(0, u, nav + 1);
    FloorMonotone(u * (nav + 1), w * (richer + 1), lp + 1);
    ConvertFloor(u, nav, lp);
    var v, x := ConvertToValue(u, nav, lp), ConvertToValue(w, richer, lp);
    Scaled(v, x, avg);
    Scaled(0, v, avg);
    FloorMonotone(v * avg, x * avg, ONE);
  }

  lemma FloorAdds(a: int, c: int, b: int)
    requires a >= 0 && c >= 0 && b > 0
    ensures TruncDiv(a, b) + TruncDiv(c, b) <= TruncDiv(a + c, b) <= TruncDiv(a, b) + TruncDiv(c, b) + 1
  {
    hide TruncDiv;
    Floor(a, b);
    Floor(c, b);
    Floor(a + c, b);
    var p, q, s := TruncDiv(a, b), TruncDiv(c, b), TruncDiv(a + c, b);
    assert (p + q) * b == p * b + q * b;
    FloorIs(a + c, b, p + q);
    assert s * b < (p + q + 2) * b by { assert (p + q + 2) * b == p * b + b + (q * b + b); }
    Unscaled(s, p + q + 2, b);
  }

  /** Splitting a holding loses at most 2 units of value at prices up to par, and never gains. */
  lemma SplittingLosesAtMostTwo(u: int, w: int, nav: int, lp: int, avg: int)
    requires Sound(u, nav, lp, avg) && w >= 0 && avg <= ONE
    ensures var whole := ConvertToRedemption(u + w, nav, lp, avg);
            var parts := ConvertToRedemption(u, nav, lp, avg) + ConvertToRedemption(w, nav, lp, avg);
            parts <= whole <= parts + 2
  {
    hide TruncDiv;
    var v, x, y := ConvertToValue(u, nav, lp), ConvertToValue(w, nav, lp), ConvertToValue(u + w, nav, lp);
    ConvertFloor(u, nav, lp);
    ConvertFloor(w, nav, lp);
    Scaled(0, u, nav + 1);
    Scaled(0, w, nav + 1);
    assert (u + w) * (nav + 1) == u * (nav + 1) + w * (nav + 1);
    FloorAdds(u * (nav + 1), w * (nav + 1), lp + 1);
    TruncatedPrice(v, x, y, avg);
  }

  /** y exceeds v + x by at most one, so its price exceeds theirs by at most two. */
  lemma TruncatedPrice(v: int, x: int, y: int, avg: int)
    requires v >= 0 && x >= 0 && v + x <= y <= v + x + 1 && 0 <= avg <= ONE
    ensures TruncDiv(v * avg, ONE) + TruncDiv(x * avg, ONE) <= TruncDiv(y * avg, ONE)
            <= TruncDiv(v * avg, ONE) + TruncDiv(x * avg, ONE) + 2
  {
    hide TruncDiv;
    Scaled(0, v, avg);
    Scaled(0, x, avg);
    assert (v + x) * avg == v * avg + x * avg;
    FloorAdds(v * avg, x * avg, ONE);
    Scaled(v + x, y, avg);
    FloorMonotone((v + x) * avg, y * avg, ONE);
    Scaled(y, v + x + 1, avg);
    assert (v + x + 1) * avg == (v + x) * avg + avg;
    FloorMonotone(y * avg, (v + x) * avg + ONE, ONE);
    FloorAdds((v + x) * avg, ONE, ONE);
    AddsOne((v + x) * avg);
  }

  lemma AddsOne(a: int)
    requires a >= 0
    ensures TruncDiv(a + ONE, ONE) == TruncDiv(a, ONE) + 1
  {
  }
}
