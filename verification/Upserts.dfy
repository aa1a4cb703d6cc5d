/** The statement builder behind the "fold the setters" tables (handlers.go: handleReserveSettings, upsertPatch). */
module Upserts {
  import opened Tables
  import opened Settings

  /** The row VALUES (ph) describes: column i is bound to the argument its placeholder names. */
  function Excluded(cols: seq<string>, ph: seq<nat>, args: seq<Cell>): PatchRow
    requires |cols| == |ph|
    requires forall i :: 0 <= i < |ph| ==> 1 <= ph[i] <= |args|
  {
    if cols == [] then map[]
    else
      var n := |cols| - 1;
      Excluded(cols[..n], ph[..n], args)[cols[n] := args[ph[n] - 1]]
  }

  /** SET c = EXCLUDED.c for every c of `sets`. */
  function Assigned(row: PatchRow, excluded: PatchRow, sets: seq<string>): PatchRow
    requires forall c :: c in sets ==> c in excluded
  {
    if sets == [] then row
    else
      var n := |sets| - 1;
      Assigned(row, excluded, sets[..n])[sets[n] := excluded[sets[n]]]
  }

  /** INSERT INTO table (cols) VALUES (ph) ON CONFLICT (key) DO UPDATE SET sets. */
  function ExecUpsert(table: map<Id, PatchRow>, id: Id, excluded: PatchRow, sets: seq<string>): map<Id, PatchRow>
    requires forall c :: c in sets ==> c in excluded
  {
    table[id := if id in table then Assigned(table[id], excluded, sets) else excluded]
  }

  /** The first |cols| arguments under the columns, in order. */
  function Zip(cols: seq<string>, args: seq<Cell>): PatchRow
    requires |cols| <= |args|
  {
    if cols == [] then map[]
    else
      var n := |cols| - 1;
      Zip(cols[..n], args)[cols[n] := args[n]]
  }

  lemma {:induction false} ZipPrefix(cols: seq<string>, args: seq<Cell>, more: seq<Cell>)
    requires |cols| <= |args|
    ensures Zip(cols, args + more) == Zip(cols, args)
  {
    if cols != [] {
      ZipPrefix(cols[..|cols| - 1], args, more);
    }
  }

  lemma {:induction false} ExcludedIsZip(cols: seq<string>, ph: seq<nat>, args: seq<Cell>)
    requires |cols| == |ph| <= |args|
    requires forall i :: 0 <= i < |ph| ==> ph[i] == i + 1
    ensures Excluded(cols, ph, args) == Zip(cols, args)
  {
    if cols != [] {
      ExcludedIsZip(cols[..|cols| - 1], ph[..|ph| - 1], args);
    }
  }

  lemma ZipAppend(cols: seq<string>, args: seq<Cell>, c: string, v: Cell)
    requires |cols| == |args|
    ensures Zip(cols + [c], args + [v]) == Zip(cols, args)[c := v]
  {
    assert (cols + [c])[..|cols|] == cols;
    ZipPrefix(cols, args, [v]);
  }

  /** The columns of a column/value list are pairwise different and none is last_block. */
  ghost predicate DistinctColumns(colVals: seq<string>) {
    && (forall i, j :: 0 <= i < j && 2 * j < |colVals| ==> colVals[2 * i] != colVals[2 * j])
    && (forall i :: 0 <= i && 2 * i < |colVals| ==> colVals[2 * i] != "last_block")
  }

  /** Every listed column is bound to its own value. */
  ghost predicate Bound(row: PatchRow, colVals: seq<string>, n: nat)
    requires 2 * n <= |colVals|
  {
    forall j :: 0 <= j < n ==> colVals[2 * j] in row && row[colVals[2 * j]] == Text(colVals[2 * j + 1])
  }

  /** One step of the binding loop. */
  lemma BoundStep(keyRow: PatchRow, row: PatchRow, colVals: seq<string>, k: nat)
    requires 2 * k + 1 < |colVals| && DistinctColumns(colVals)
    requires row == Patched(keyRow, colVals[..2 * k]) && Bound(row, colVals, k)
    ensures var next := row[colVals[2 * k] := Text(colVals[2 * k + 1])];
            next == Patched(keyRow, colVals[..2 * k + 2]) && Bound(next, colVals, k + 1)
  {
    assert colVals[..2 * k + 2][..2 * k] == colVals[..2 * k];
  }

  /** Appends the listed columns and values to the key columns and their arguments. */
  method BindColumns(keyCols: seq<string>, keyArgs: seq<Cell>, colVals: seq<string>)
    returns (cols: seq<string>, args: seq<Cell>)
    requires |keyCols| == |keyArgs| && |colVals| % 2 == 0 && DistinctColumns(colVals)
    ensures |cols| == |args| == |keyCols| + |colVals| / 2
    ensures forall j :: 0 <= j < |colVals| / 2 ==> cols[|keyCols| + j] == colVals[2 * j]
    ensures Zip(cols, args) == Patched(Zip(keyCols, keyArgs), colVals)
    ensures Bound(Zip(cols, args), colVals, |colVals| / 2)
  {
    hide Zip, Patched, Bound, DistinctColumns;
    cols, args := keyCols, keyArgs;
    var i := 0;
    ghost var k: nat := 0;
    BoundNone(Zip(keyCols, keyArgs), colVals);
    while i < |colVals|
      invariant i == 2 * k <= |colVals|
      invariant |cols| == |args| == |keyCols| + k
      invariant forall j :: 0 <= j < k ==> cols[|keyCols| + j] == colVals[2 * j]
      invariant Zip(cols, args) == Patched(Zip(keyCols, keyArgs), colVals[..2 * k])
      invariant Bound(Zip(cols, args), colVals, k)
    {
      ZipAppend(cols, args, colVals[i], Text(colVals[i + 1]));
      BoundStep(Zip(keyCols, keyArgs), Zip(cols, args), colVals, k);
      cols := cols + [colVals[i]];
      args := args + [Text(colVals[i + 1])];
      i, k := i + 2, k + 1;
    }
    assert colVals[..2 * k] == colVals;
  }

  lemma BoundNone(row: PatchRow, colVals: seq<string>)
    ensures Bound(row, colVals, 0) && Patched(row, colVals[..0]) == row
  {
  }

  /**
   Inserts or patches one row: the keys are written on insert only, the listed columns and
   last_block always. An empty or odd list is an error. Column names are code constants, so a
   caller never repeats one.
   */
  method UpsertPatch(table: map<Id, PatchRow>, id: Id, keyCols: seq<string>, keyArgs: seq<Cell>,
      colVals: seq<string>, block: nat)
    returns (ok: bool, result: map<Id, PatchRow>)
    requires |keyCols| == |keyArgs| && DistinctColumns(colVals)
    ensures ok <==> |colVals| > 0 && |colVals| % 2 == 0
    ensures ok ==> result == table[id :=
              Patched(if id in table then table[id] else Zip(keyCols, keyArgs), colVals)["last_block" := Number(block)]]
    ensures !ok ==> result == table
  {
    hide Zip, Patched, Assigned, Excluded;
    if |colVals| == 0 || |colVals| % 2 != 0 {
      return false, table;
    }
    var cols, args := BindColumns(keyCols, keyArgs, colVals);
    ghost var bound := Zip(cols, args);
    ZipAppend(cols, args, "last_block", Number(block));
    cols := cols + ["last_block"];
    args := args + [Number(block)];
    var ph := seq(|cols|, j requires 0 <= j < |cols| => j + 1);
    ExcludedIsZip(cols, ph, args);
    var excluded := Excluded(cols, ph, args);
    assert excluded == bound["last_block" := Number(block)];
    assert Bound(excluded, colVals, |colVals| / 2);
    var sets := cols[|keyCols|..];
    PatchAll(if id in table then table[id] else Zip(keyCols, keyArgs), excluded, sets, colVals, block);
    ok, result := true, ExecUpsert(table, id, excluded, sets);
  }

  lemma PatchAll(row: PatchRow, excluded: PatchRow, sets: seq<string>, colVals: seq<string>, block: nat)
    requires |colVals| % 2 == 0 && |sets| == |colVals| / 2 + 1 && sets[|sets| - 1] == "last_block"
    requires forall j :: 0 <= j < |colVals| / 2 ==> sets[j] == colVals[2 * j]
    requires Bound(excluded, colVals, |colVals| / 2)
    requires "last_block" in excluded && excluded["last_block"] == Number(block)
    ensures forall c :: c in sets ==> c in excluded
    ensures Assigned(row, excluded, sets) == Patched(row, colVals)["last_block" := Number(block)]
  {
    PatchPrefix(row, excluded, sets[..|sets| - 1], colVals);
  }

  lemma {:induction false} PatchPrefix(row: PatchRow, excluded: PatchRow, sets: seq<string>, colVals: seq<string>)
    requires |colVals| == 2 * |sets|
    requires forall j :: 0 <= j < |sets| ==> sets[j] == colVals[2 * j]
    requires Bound(excluded, colVals, |sets|)
    ensures forall c :: c in sets ==> c in excluded
    ensures Assigned(row, excluded, sets) == Patched(row, colVals)
  {
    if sets != [] {
      var n := |sets| - 1;
      var shorter := colVals[..2 * n];
      assert forall j :: 0 <= j < n ==> shorter[2 * j] == colVals[2 * j] && shorter[2 * j + 1] == colVals[2 * j + 1];
      PatchPrefix(row, excluded, sets[..n], shorter);
    }
  }

  lemma SettingColumnsDistinct(s: Setting)
    ensures DistinctColumns(ColVals(s))
  {
    match s
    case FlashFee(_) =>
    case BaseQuoteFee(_) =>
    case SingleAssetFee(_) =>
    case RedemptionProximity(_) =>
    case RebalanceTrigger(_) =>
    case RebalanceDeviation(_) =>
    case IouDistribution(_, _) =>
    case BaseQuoteDistribution(_, _) =>
    case SwapSpread(_, _) =>
  }

  method UpsertSettings(table: map<Id, PatchRow>, id: Id, rt: ReserveType, s: Setting, block: nat)
    returns (result: map<Id, PatchRow>)
    ensures result == table[id := SettingsRow(table, id, rt, s, block)]
  {
    SettingColumnsDistinct(s);
    var keyCols := ["chain_id", "reserve", "kind"];
    var keyArgs := [Number(id.chain), Address(id.addr), Text(if rt == MetaReserve then "meta" else "base")];
    KeyRow(keyCols, keyArgs);
    var ok;
    ok, result := UpsertPatch(table, id, keyCols, keyArgs, ColVals(s), block);
  }

  lemma KeyRow(cols: seq<string>, args: seq<Cell>)
    requires |cols| == |args| == 3
    ensures Zip(cols, args) == map[cols[0] := args[0], cols[1] := args[1], cols[2] := args[2]]
  {
    assert cols[..2][..1][..0] == [];
    assert Zip(cols[..2][..1], args) == map[cols[0] := args[0]];
    assert Zip(cols[..2], args) == map[cols[0] := args[0]][cols[1] := args[1]];
  }
}
