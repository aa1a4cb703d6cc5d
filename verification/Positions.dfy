/** Positions of a reserve's assets and the two legs of a meta reserve (handlers.go). */
module Positions {
  import opened Addresses
  import opened Effects
  import opened Frames
  import opened Kinds
  import opened Machine
  import opened Tables
  import opened Valuation
  import Delivery

  ghost predicate AllDense(t: Ledger) {
    forall id :: id in t.assets ==> Dense(t.assets[id])
  }

  /** An existing row keeps its position. */
  ghost predicate Kept(rows: map<Addr, Asset>, after: map<Addr, Asset>) {
    forall a :: a in rows ==> a in after && after[a].position == rows[a].position
  }

  lemma PutAssetDense(rows: map<Addr, Asset>, e: Event)
    requires e.AssetAdded? && Dense(rows)
    ensures Dense(PutAsset(rows, e)) && Kept(rows, PutAsset(rows, e))
  {
    var after := PutAsset(rows, e);
    forall i | 0 <= i < |after|
      ensures Occupied(after, i)
    {
      if i < |rows| {
        assert Occupied(rows, i);
        var a :| a in rows && rows[a].position == i;
        assert after[a].position == i;
      } else {
        assert after[e.asset].position == i;
      }
    }
  }

  lemma MirrorRowsDense(rows: map<Addr, Asset>, iou: Addr, delta: int)
    requires Dense(rows)
    ensures Dense(MirrorRows(rows, iou, delta)) && Kept(rows, MirrorRows(rows, iou, delta))
  {
    var after := MirrorRows(rows, iou, delta);
    assert after.Keys == rows.Keys;
    assert |after| == |after.Keys| == |rows.Keys| == |rows|;
    forall i | 0 <= i < |after|
      ensures Occupied(after, i)
    {
      assert Occupied(rows, i);
      var a :| a in rows && rows[a].position == i;
      assert after[a].position == i;
    }
  }

  /** Every event keeps every reserve's positions a bijection onto 0..n-1 and moves no existing row. */
  lemma PositionsKept(t: Ledger, log: Log, k: Kind)
    requires AllDense(t) && Apply(t, log, k).Some?
    ensures AllDense(Apply(t, log, k).value)
    ensures forall id :: Kept(Rows(t.assets, id), Rows(Apply(t, log, k).value.assets, id))
  {
    hide Apply, Dense, PutAsset, MirrorRows;
    RegistryFrame(t, log, k);
    var r := Apply(t, log, k).value;
    forall id
      ensures Dense(Rows(r.assets, id)) && Kept(Rows(t.assets, id), Rows(r.assets, id))
    {
      assert Dense(Rows(t.assets, id)) by { EmptyDense(); }
      if IsReserveKind(k) && log.event.AssetAdded? && id == Emitter(log) {
        PutAssetDense(Rows(t.assets, id), log.event);
      } else if k.IouKind? && IsSupplyTransfer(log.event) && id in t.assets {
        MirrorRowsDense(t.assets[id], Emitter(log).addr,
          SupplyChange(log.event.from, log.event.to, log.event.value.value));
      }
    }
    assert forall id :: id in r.assets ==> r.assets[id] == Rows(r.assets, id);
  }

  lemma EmptyAllDense()
    ensures AllDense(EMPTY_LEDGER)
  {
  }

  lemma EmptyDense()
    ensures Dense(map[])
  {
  }

  /** In every reachable state positions are dense, and no later step moves an asset registered by then. */
  lemma {:induction false} PositionsAlwaysKept(cfg: Config, steps: seq<Step>, i: nat)
    requires i <= |steps|
    ensures var early, late := Run(Initial(cfg), cfg, steps[..i]).ledger, Run(Initial(cfg), cfg, steps).ledger;
            && AllDense(late)
            && forall id :: Kept(Rows(early.assets, id), Rows(late.assets, id))
  {
    hide AllDense, Delivered, Restarted, Apply, Initial;
    if steps == [] {
      Delivery.InitialIsEmpty(cfg);
      EmptyAllDense();
    } else {
      var n := |steps| - 1;
      var s := Run(Initial(cfg), cfg, steps[..n]);
      if i <= n {
        PositionsAlwaysKept(cfg, steps[..n], i);
        assert steps[..n][..i] == steps[..i];
      } else {
        PositionsAlwaysKept(cfg, steps[..n], n);
        assert steps[..i] == steps;
      }
      match steps[n]
      case Restart => Delivery.RestartFrame(s, cfg);
      case Deliver(log, fault) =>
        Delivery.DeliveredLedger(s, log, fault);
        if Apply(s.ledger, log, Routed(s.registry, log)).Some? {
          PositionsKept(s.ledger, log, Routed(s.registry, log));
        }
    }
  }

  // --- the two legs of a meta reserve ---

  lemma AssetAtPosition(rows: map<Addr, Asset>, a: Addr)
    requires Dense(rows) && a in rows
    ensures AssetAt(rows, rows[a].position) == a
  {
    assert (set b | b in rows && rows[b].position == rows[a].position) == {a};
  }

  /** An asset that is an indexed base reserve, behind all others that are. */
  predicate IsLastBase(t: Ledger, id: Id, a: Addr) {
    var rows := Rows(t.assets, id);
    && a in rows && IsBase(t, Id(id.chain, a))
    && forall b :: b in rows && IsBase(t, Id(id.chain, b)) ==> rows[b].position <= rows[a].position
  }

  /** The asset before all others but one; the empty address when there is no other. */
  predicate IsFirstBut(rows: map<Addr, Asset>, baseLp: Addr, n: Addr) {
    if exists a :: a in rows && a != baseLp
    then n in rows && n != baseLp && forall a :: a in rows && a != baseLp ==> rows[n].position <= rows[a].position
    else n == NoAddr
  }

  lemma OrderedAt(rows: map<Addr, Asset>)
    requires Dense(rows)
    ensures |Ordered(rows)| == |rows| && forall a :: a in rows ==> rows[a].position < |rows|
    ensures forall i :: 0 <= i < |rows| ==> Ordered(rows)[i] in rows && rows[Ordered(rows)[i]].position == i
    ensures forall a :: a in rows ==> Ordered(rows)[rows[a].position] == a
  {
    forall a | a in rows ensures Ordered(rows)[rows[a].position] == a {
      AssetAtPosition(rows, a);
    }
    forall i | 0 <= i < |rows| ensures Ordered(rows)[i] in rows && rows[Ordered(rows)[i]].position == i {
      assert Occupied(rows, i);
      var a :| a in rows && rows[a].position == i;
      AssetAtPosition(rows, a);
    }
  }

  lemma {:induction false} LastBaseScans(t: Ledger, chain: nat, ordered: seq<Addr>, k: nat)
    requires k < |ordered| && IsBase(t, Id(chain, ordered[k]))
    requires forall j :: k < j < |ordered| ==> !IsBase(t, Id(chain, ordered[j]))
    ensures LastBase(t, chain, ordered) == ordered[k]
  {
    var n := |ordered| - 1;
    if k < n {
      LastBaseScans(t, chain, ordered[..n], k);
    }
  }

  lemma {:induction false} NoBaseScans(t: Ledger, chain: nat, ordered: seq<Addr>)
    requires forall j :: 0 <= j < |ordered| ==> !IsBase(t, Id(chain, ordered[j]))
    ensures LastBase(t, chain, ordered) == NoAddr
  {
    if ordered != [] {
      NoBaseScans(t, chain, ordered[..|ordered| - 1]);
    }
  }

  lemma {:induction false} FirstOtherScans(ordered: seq<Addr>, baseLp: Addr, k: nat)
    requires k <= |ordered|
    requires forall j :: 0 <= j < k ==> ordered[j] == baseLp
    requires k < |ordered| ==> ordered[k] != baseLp
    ensures FirstOther(ordered, baseLp) == if k < |ordered| then ordered[k] else NoAddr
  {
    if k > 0 {
      FirstOtherScans(ordered[1..], baseLp, k - 1);
    }
  }

  lemma NativeIsFirst(rows: map<Addr, Asset>, baseLp: Addr)
    requires Dense(rows)
    ensures IsFirstBut(rows, baseLp, FirstOther(Ordered(rows), baseLp))
  {
    hide Dense, Ordered, FirstOther, IsFirstBut;
    OrderedAt(rows);
    var ordered := Ordered(rows);
    var k := if |ordered| > 0 && ordered[0] == baseLp then 1 else 0;
    FirstOtherScans(ordered, baseLp, k);
    FirstButAt(rows, ordered, baseLp, k);
  }

  lemma FirstButAt(rows: map<Addr, Asset>, ordered: seq<Addr>, baseLp: Addr, k: nat)
    requires |ordered| == |rows| && k <= |rows|
    requires forall i :: 0 <= i < |rows| ==> ordered[i] in rows && rows[ordered[i]].position == i
    requires forall a :: a in rows ==> rows[a].position < |rows| && ordered[rows[a].position] == a
    requires forall j :: 0 <= j < k ==> ordered[j] == baseLp
    requires k < |ordered| ==> ordered[k] != baseLp
    ensures IsFirstBut(rows, baseLp, if k < |ordered| then ordered[k] else NoAddr)
  {
    forall a | a in rows && a != baseLp
      ensures k < |rows| && k <= rows[a].position
    {
      assert ordered[rows[a].position] == a;
    }
  }

  lemma LegsWithBase(t: Ledger, id: Id, a: Addr)
    requires Dense(Rows(t.assets, id)) && IsLastBase(t, id, a) && a != NoAddr
    ensures MetaLegs(t, id).baseLp == a && IsFirstBut(Rows(t.assets, id), a, MetaLegs(t, id).native)
  {
    hide Dense, Ordered, FirstOther, LastBase, IsBase, IsFirstBut;
    var rows := Rows(t.assets, id);
    OrderedAt(rows);
    LastBaseScans(t, id.chain, Ordered(rows), rows[a].position);
    NativeIsFirst(rows, a);
  }

  lemma LegsWithoutBase(t: Ledger, id: Id)
    requires Dense(Rows(t.assets, id))
    requires forall a :: a in Rows(t.assets, id) ==> !IsBase(t, Id(id.chain, a))
    ensures var rows, legs := Rows(t.assets, id), MetaLegs(t, id);
            if |rows| == 2
            then && legs.native in rows && rows[legs.native].position == 0
                 && legs.baseLp in rows && rows[legs.baseLp].position == 1
            else legs == Legs(NoAddr, NoAddr)
  {
    hide Dense, Ordered, FirstOther, LastBase, IsBase;
    OrderedAt(Rows(t.assets, id));
    NoBaseScans(t, id.chain, Ordered(Rows(t.assets, id)));
  }

  /** The legs of a meta reserve with any assets: the base leg is the last asset that is a base reserve and the
      native leg the first other one; where none is, two assets are taken in position order, any other number
      gives no legs. */
  lemma LegsByPosition(t: Ledger, id: Id)
    requires Dense(Rows(t.assets, id))
    ensures var rows, legs := Rows(t.assets, id), MetaLegs(t, id);
            && (forall a :: IsLastBase(t, id, a) && a != NoAddr ==>
                  legs.baseLp == a && IsFirstBut(rows, a, legs.native))
            && ((forall a :: a in rows ==> !IsBase(t, Id(id.chain, a))) ==>
                  if |rows| == 2
                  then && legs.native in rows && rows[legs.native].position == 0
                       && legs.baseLp in rows && rows[legs.baseLp].position == 1
                  else legs == Legs(NoAddr, NoAddr))
  {
    hide Dense, IsFirstBut, MetaLegs, IsBase;
    forall a | IsLastBase(t, id, a) && a != NoAddr
      ensures MetaLegs(t, id).baseLp == a && IsFirstBut(Rows(t.assets, id), a, MetaLegs(t, id).native)
    {
      LegsWithBase(t, id, a);
    }
    if forall a :: a in Rows(t.assets, id) ==> !IsBase(t, Id(id.chain, a)) {
      LegsWithoutBase(t, id);
    }
  }

  /** Two assets in position order. */
  lemma OrderedPair(rows: map<Addr, Asset>, a: Addr, b: Addr)
    requires Dense(rows) && rows.Keys == {a, b} && a != b
    ensures Ordered(rows) == if rows[a].position == 0 then [a, b] else [b, a]
    ensures rows[a].position == 0 <==> rows[b].position != 0
  {
    hide AssetAt;
    assert |rows| == |rows.Keys| == 2;
    AssetAtPosition(rows, a);
    AssetAtPosition(rows, b);
  }

  /** The last base reserve of two assets, and the first other one. */
  lemma PairScan(t: Ledger, chain: nat, x: Addr, y: Addr)
    ensures LastBase(t, chain, [x, y]) ==
            if IsBase(t, Id(chain, y)) then y else if IsBase(t, Id(chain, x)) then x else NoAddr
    ensures x != y ==> FirstOther([x, y], x) == y && FirstOther([x, y], y) == x
  {
    hide IsBase;
    assert [x, y][..1] == [x] && [x][..0] == [] && [x, y][1..] == [y];
    assert LastBase(t, chain, [x]) == if IsBase(t, Id(chain, x)) then x else NoAddr;
    assert FirstOther([y], x) == if y != x then y else FirstOther([], x);
  }

  /** With exactly one indexed base reserve among two assets the legs do not depend on the
      registration order, and they are both assets of the reserve. */
  lemma LegsOfTwoAssets(t: Ledger, id: Id, native: Addr, base: Addr)
    requires Dense(Rows(t.assets, id)) && Rows(t.assets, id).Keys == {native, base}
    requires native != base && base != NoAddr
    requires IsBase(t, Id(id.chain, base)) && !IsBase(t, Id(id.chain, native))
    ensures MetaLegs(t, id) == Legs(native, base)
  {
    hide Dense, IsBase, LastBase, FirstOther, Ordered;
    OrderedPair(Rows(t.assets, id), native, base);
    PairScan(t, id.chain, native, base);
    PairScan(t, id.chain, base, native);
  }

  /** While the base reserve is not indexed yet the legs fall back to position order: the answer is
      the one given after indexing if and only if the native asset was registered first. */
  lemma LegsBeforeIndexing(t: Ledger, id: Id, native: Addr, base: Addr)
    requires Dense(Rows(t.assets, id)) && Rows(t.assets, id).Keys == {native, base} && native != base
    requires !IsBase(t, Id(id.chain, base)) && !IsBase(t, Id(id.chain, native))
    ensures MetaLegs(t, id) == Legs(native, base) <==> Rows(t.assets, id)[native].position == 0
    ensures MetaLegs(t, id) == Legs(base, native) <==> Rows(t.assets, id)[base].position == 0
  {
    hide Dense, IsBase, LastBase, FirstOther, Ordered;
    OrderedPair(Rows(t.assets, id), native, base);
    PairScan(t, id.chain, native, base);
    PairScan(t, id.chain, base, native);
  }

  /** A native asset at position 0 keeps its leg when the base reserve is indexed later. */
  lemma IndexingKeepsLegs(t: Ledger, u: Ledger, id: Id, native: Addr, base: Addr)
    requires Dense(Rows(t.assets, id)) && Rows(t.assets, id).Keys == {native, base}
    requires native != base && base != NoAddr && Rows(t.assets, id)[native].position == 0
    requires u.assets == t.assets && !IsBase(t, Id(id.chain, native)) && !IsBase(u, Id(id.chain, native))
    requires IsBase(u, Id(id.chain, base))
    ensures MetaLegs(t, id) == MetaLegs(u, id) == Legs(native, base)
  {
    hide Dense, IsBase, MetaLegs;
    LegsOfTwoAssets(u, id, native, base);
    if IsBase(t, Id(id.chain, base)) {
      LegsOfTwoAssets(t, id, native, base);
    } else {
      LegsBeforeIndexing(t, id, native, base);
    }
  }

  lemma PutPair(first: Event, second: Event)
    requires first.AssetAdded? && second.AssetAdded? && first.asset != second.asset
    ensures var rows := PutAsset(PutAsset(map[], first), second);
            && Dense(rows) && rows.Keys == {first.asset, second.asset}
  {
    hide Dense;
    EmptyDense();
    PutAssetDense(map[], first);
    PutAssetDense(PutAsset(map[], first), second);
  }

  lemma RegisteredPair(t: Ledger, first: Log, second: Log)
    requires first.event.AssetAdded? && second.event.AssetAdded? && Emitter(first) == Emitter(second)
    requires Rows(t.assets, Emitter(first)) == map[] && first.event.asset != second.event.asset
    ensures var u := AddAsset(AddAsset(t, first, MetaReserve), second, MetaReserve);
            var rows := Rows(u.assets, Emitter(first));
            && Dense(rows) && rows.Keys == {first.event.asset, second.event.asset}
            && u.reserves == EnsureReserve(EnsureReserve(t.reserves, Emitter(first), MetaReserve), Emitter(first),
              MetaReserve)
  {
    hide Dense, Apply, PutAsset, EnsureReserve, AddAsset;
    PutPair(first.event, second.event);
    RegistrationFrame(t, first, MetaReserve);
    RegistrationFrame(AddAsset(t, first, MetaReserve), second, MetaReserve);
  }

  /** A meta reserve's two AssetAdded logs resolve to the same legs in either order. */
  lemma EitherRegistrationOrder(t: Ledger, nativeLog: Log, baseLog: Log)
    requires nativeLog.event.AssetAdded? && baseLog.event.AssetAdded? && Emitter(nativeLog) == Emitter(baseLog)
    requires Rows(t.assets, Emitter(nativeLog)) == map[] && nativeLog.event.asset != baseLog.event.asset
    requires baseLog.event.asset != NoAddr
    requires IsBase(t, Id(baseLog.chain, baseLog.event.asset)) && !IsBase(t, Id(nativeLog.chain, nativeLog.event.asset))
    ensures var id, legs := Emitter(nativeLog), Legs(nativeLog.event.asset, baseLog.event.asset);
            && MetaLegs(AddAsset(AddAsset(t, nativeLog, MetaReserve), baseLog, MetaReserve), id) == legs
            && MetaLegs(AddAsset(AddAsset(t, baseLog, MetaReserve), nativeLog, MetaReserve), id) == legs
  {
    hide Dense, MetaLegs, AddAsset;
    RegisteredPair(t, nativeLog, baseLog);
    RegisteredPair(t, baseLog, nativeLog);
    var id := Emitter(nativeLog);
    var native, base := nativeLog.event.asset, baseLog.event.asset;
    LegsOfTwoAssets(AddAsset(AddAsset(t, nativeLog, MetaReserve), baseLog, MetaReserve), id, native, base);
    LegsOfTwoAssets(AddAsset(AddAsset(t, baseLog, MetaReserve), nativeLog, MetaReserve), id, native, base);
  }
}
