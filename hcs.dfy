/**
 * `PipelineManager._update_hcs_meta_from_config`: cutting the plate and well
 * metadata of a high-content-screening store down to the selected positions.
 *
 * The metadata follows the "plate" and "well" layout of the OME-NGFF (OME-Zarr)
 * specification: `plate` holds `rows`, `columns` and `wells`, each well entry
 * holds a `path` of the form `row/column`, and `well` is the per-well list.
 * Because the source copies the top-level dictionary only shallowly, the
 * `plate` dictionary is shared between the input and the result; the model
 * makes the plate an object so that this sharing is visible.
 */
module Hcs {
  import opened Common
  import opened PyStrings
  import CoordSet

  /** The `plate` dictionary: updated in place by the reduction. */
  class Plate {
    var rows: seq<Yaml>
    var columns: seq<Yaml>
    var wells: Option<seq<Yaml>>   // None: the dictionary has no 'wells' key

    constructor (rows: seq<Yaml>, columns: seq<Yaml>, wells: Option<seq<Yaml>>)
      ensures this.rows == rows && this.columns == columns && this.wells == wells
    {
      this.rows := rows;
      this.columns := columns;
      this.wells := wells;
    }
  }

  /** The top-level HCS metadata dictionary. */
  class HcsMeta {
    var plate: Plate?              // null: no 'plate' key
    var well: Option<seq<Yaml>>    // None: no 'well' key

    constructor (plate: Plate?, well: Option<seq<Yaml>>)
      ensures this.plate == plate && this.well == well
    {
      this.plate := plate;
      this.well := well;
    }
  }

  /** The value of `meta['plate']['wells']`, or None when either key is missing. */
  function PlateWells(meta: HcsMeta): Option<seq<Yaml>>
    reads meta, meta.plate
  {
    if meta.plate == null then None else meta.plate.wells
  }

  /** Python's `xs[p]` on a list: negative indices count from the end. */
  function PyIndex(xs: seq<Yaml>, p: int): (r: Result<Yaml>)
    ensures r.Ok? <==> -|xs| <= p < |xs|
    ensures r.Err? ==> r.error == IndexError
    ensures 0 <= p < |xs| ==> r == Ok(xs[p])
  {
    if 0 <= p < |xs| then Ok(xs[p])
    else if -|xs| <= p < 0 then Ok(xs[|xs| + p])
    else Err(IndexError)
  }

  /** `max(order)` for a non-empty sequence. */
  function SeqMax(s: seq<int>): (m: int)
    requires s != []
    ensures m in s && forall i :: 0 <= i < |s| ==> s[i] <= m
    decreases |s|
  {
    if |s| == 1 then s[0]
    else
      var r := SeqMax(s[1..]);
      if s[0] >= r then s[0] else r
  }

  /** `filter(None, xs)`: the truthy entries in order. */
  function KeepTruthy(xs: seq<Yaml>): (r: seq<Yaml>)
    ensures |r| <= |xs|
    ensures forall i :: 0 <= i < |r| ==> Truthy(r[i]) && r[i] in xs
    decreases |xs|
  {
    if xs == [] then []
    else (if Truthy(xs[0]) then [xs[0]] else []) + KeepTruthy(xs[1..])
  }

  /**
   * The copies made by the loop over the enumerated positions, from iteration
   * `idx` on: the well metadata and the plate well at each absolute index.  The
   * exceptions come in the order the statements raise them.
   */
  function Picks(well: Option<seq<Yaml>>, wells: Option<seq<Yaml>>, order: seq<int>, size: int, idx: nat)
    : (r: Result<(seq<Yaml>, seq<Yaml>)>)
    requires idx <= |order|
    ensures r.Ok? ==> |r.value.0| == |order| - idx && |r.value.1| == |order| - idx
    decreases |order| - idx
  {
    if idx == |order| then Ok(([], []))
    else
      var mw :- PickAt(well, wells, order[idx], idx, size);
      var rest :- Picks(well, wells, order, size, idx + 1);
      Ok(([mw.0] + rest.0, [mw.1] + rest.1))
  }

  /**
   * Iteration number `idx` of the copying loop, for position `p`: the entry of
   * `well`, stored at `idx`, then the entry of `wells`.
   */
  function PickAt(well: Option<seq<Yaml>>, wells: Option<seq<Yaml>>, p: int, idx: nat, size: int)
    : Result<(Yaml, Yaml)>
  {
    if well.None? then Err(KeyError)
    else
      var m :- PyIndex(well.value, p);
      if idx >= size then Err(IndexError)
      else if wells.None? then Err(KeyError)
      else
        var w :- PyIndex(wells.value, p);
        Ok((m, w))
  }

  /** The row and column names of a well path, or the exception reading them raises. */
  function PathParts(well: Yaml): (r: Result<seq<string>>)
    ensures r.Ok? ==> |r.value| >= 2
    ensures r.Ok? ==> PyGet(well, "path").Ok? && PyGet(well, "path").value.YStr?
    ensures r.Ok? ==> r.value == Split(PyGet(well, "path").value.s, '/')
  {
    var path :- PyGet(well, "path");
    if !path.YStr? then Err(AttributeError)
    else
      var parts := Split(path.s, '/');
      if |parts| < 2 then Err(IndexError) else Ok(parts)
  }

  /** `xs` with `x` appended unless already present. */
  function AddIfAbsent(xs: seq<string>, x: string): (r: seq<string>)
    ensures x in r && forall y :: y in r <==> y in xs || y == x
  {
    if x in xs then xs else xs + [x]
  }

  /** Row and column names, first seen first, of the retained wells. */
  function RowsColumns(wells: seq<Yaml>): (r: Result<(seq<string>, seq<string>)>)
    decreases |wells|
  {
    if wells == [] then Ok(([], []))
    else
      var rc :- RowsColumns(wells[..|wells| - 1]);
      var parts :- PathParts(wells[|wells| - 1]);
      Ok((AddIfAbsent(rc.0, parts[0]), AddIfAbsent(rc.1, parts[1])))
  }

  /** `{'name': n}`. */
  function NameDict(n: string): Yaml {
    YMap([("name", YStr(n))])
  }

  function NameDicts(ns: seq<string>): (r: seq<Yaml>)
    ensures |r| == |ns| && forall i :: 0 <= i < |ns| ==> r[i] == NameDict(ns[i])
  {
    seq(|ns|, i requires 0 <= i < |ns| => NameDict(ns[i]))
  }

  /** The new `rows`, `columns`, plate `wells` and `well` lists. */
  datatype Reduction = Reduction(rows: seq<string>, columns: seq<string>, wells: seq<Yaml>, well: seq<Yaml>)

  /**
   * The reduction for positions enumerated in `order`: ValueError for an empty
   * selection (from `max`), then the copies, the filter and the row/column scan.
   */
  function Reduce(well: Option<seq<Yaml>>, wells: Option<seq<Yaml>>, order: seq<int>): Result<Reduction>
  {
    if order == [] then Err(ValueError)
    else
      var kept :- Kept(Picks(well, wells, order, SeqMax(order) + 1, 0));
      var rc :- RowsColumns(kept.1);
      Ok(Reduction(rc.0, rc.1, kept.1, kept.0))
  }

  /**
   * What the reduction yields for metadata that is present or None: `max` of
   * an empty selection fails first, then None metadata fails at `.copy()`.
   */
  function ReduceMeta(present: bool, well: Option<seq<Yaml>>, wells: Option<seq<Yaml>>, order: seq<int>): (r: Result<Reduction>)
    ensures order == [] ==> r == Err(ValueError)
    ensures order != [] && !present ==> r == Err(AttributeError)
    ensures present ==> r == Reduce(well, wells, order)
  {
    if order != [] && !present then Err(AttributeError) else Reduce(well, wells, order)
  }

  /** The copies with their None (and other falsy) entries filtered out. */
  function Kept(picks: Result<(seq<Yaml>, seq<Yaml>)>): Result<(seq<Yaml>, seq<Yaml>)>
  {
    match picks
    case Ok(p) => Ok((KeepTruthy(p.0), KeepTruthy(p.1)))
    case Err(e) => Err(e)
  }

  /** `[None] * k`. */
  function Nones(k: nat): (s: seq<Yaml>)
    ensures |s| == k && forall i :: 0 <= i < k ==> s[i] == YNone
  {
    seq(k, _ => YNone)
  }

  /** Filtering ignores the trailing unused slots of the preallocated lists. */
  lemma {:induction false} KeepTruthyNones(xs: seq<Yaml>, n: nat)
    ensures KeepTruthy(xs + Nones(n)) == KeepTruthy(xs)
    decreases |xs| + n
  {
    if xs == [] {
      assert xs + Nones(n) == Nones(n);
      if n > 0 {
        assert Nones(n)[1..] == Nones(n - 1);
        KeepTruthyNones([], n - 1);
        assert [] + Nones(n - 1) == Nones(n - 1);
      }
    } else {
      assert (xs + Nones(n))[1..] == xs[1..] + Nones(n);
      KeepTruthyNones(xs[1..], n);
    }
  }

  /** `max(order)`, computed by a scan. */
  method MaxOf(order: seq<int>) returns (top: int)
    requires order != []
    ensures top in order && forall j :: 0 <= j < |order| ==> order[j] <= top
    ensures top == SeqMax(order)
  {
    top := order[0];
    var k := 1;
    while k < |order|
      invariant 1 <= k <= |order|
      invariant top in order[..k] && forall j :: 0 <= j < k ==> order[j] <= top
    {
      if order[k] > top {
        top := order[k];
      }
      k := k + 1;
    }
    assert order[..k] == order;
  }

  /**
   * The copying loop: lists of `size` None entries are filled by iteration
   * number, then filtered.  `well` and `wells` are the lists found under
   * `'well'` and `['plate']['wells']` (None when a key is missing).
   */
  method CopySelected(well: Option<seq<Yaml>>, wells: Option<seq<Yaml>>, order: seq<int>, size: int)
    returns (r: Result<(seq<Yaml>, seq<Yaml>)>)
    ensures r == Kept(Picks(well, wells, order, size, 0))
  {
    var n := if size < 0 then 0 else size;
    var wellsNew := Nones(n);
    var wellMetaNew := Nones(n);
    ghost var ms: seq<Yaml> := [];
    ghost var ws: seq<Yaml> := [];
    var idx := 0;
    ThenPicksEmpty(Picks(well, wells, order, size, 0));
    while idx < |order|
      invariant 0 <= idx <= |order| && idx <= n
      invariant |ms| == idx && |ws| == idx
      invariant wellMetaNew == ms + Nones(n - idx)
      invariant wellsNew == ws + Nones(n - idx)
      invariant Picks(well, wells, order, size, 0) == ThenPicks(ms, ws, Picks(well, wells, order, size, idx))
    {
      var step := PickAt(well, wells, order[idx], idx, size);
      PicksAdvance(well, wells, order, size, idx, ms, ws);
      if step.Err? {
        return Err(step.error);
      }
      var (m, w) := step.value;
      wellMetaNew := wellMetaNew[idx := m];
      wellsNew := wellsNew[idx := w];
      FillStep(ms, m, n - idx);
      FillStep(ws, w, n - idx);
      ms := ms + [m];
      ws := ws + [w];
      idx := idx + 1;
    }
    CopyDone(well, wells, order, size, ms, ws, n - idx);
    var keptWells := KeepTruthy(wellsNew);
    var keptMeta := KeepTruthy(wellMetaNew);
    r := Ok((keptMeta, keptWells));
  }

  lemma FillStep(ms: seq<Yaml>, m: Yaml, k: nat)
    requires k >= 1
    ensures (ms + Nones(k))[|ms| := m] == ms + [m] + Nones(k - 1)
  {
  }

  /** The loop collecting row and column names, first seen first. */
  method ScanRowsColumns(wells: seq<Yaml>) returns (r: Result<(seq<string>, seq<string>)>)
    ensures r == RowsColumns(wells)
  {
    var rows: seq<string> := [];
    var cols: seq<string> := [];
    var i := 0;
    while i < |wells|
      invariant 0 <= i <= |wells|
      invariant RowsColumns(wells[..i]) == Ok((rows, cols))
    {
      assert wells[..i + 1][..i] == wells[..i];
      var parts := PathParts(wells[i]);
      if parts.Err? {
        RowsColumnsPrefixErr(wells, i + 1);
        return Err(parts.error);
      }
      rows := AddIfAbsent(rows, parts.value[0]);
      cols := AddIfAbsent(cols, parts.value[1]);
      i := i + 1;
    }
    assert wells[..|wells|] == wells;
    r := Ok((rows, cols));
  }

  /**
   * `_update_hcs_meta_from_config`.  `order` is the order in which the set of
   * selected positions is enumerated (Python leaves it unspecified).  `max`
   * of an empty selection fails before the metadata is first touched.  On
   * success the result is a new top-level dictionary that shares the input's
   * plate, whose rows, columns and wells are overwritten; the input's own
   * `well` list is left alone.  On failure nothing is changed.
   */
  method UpdateHcsMeta(meta: HcsMeta?, order: seq<int>) returns (r: Result<HcsMeta>)
    modifies if meta == null then {} else {meta.plate}
    ensures order == [] ==> r == Err(ValueError)
    ensures meta == null && order != [] ==> r == Err(AttributeError)
    ensures meta != null ==> meta.plate == old(meta.plate) && meta.well == old(meta.well)
    ensures meta != null ==>
      var expected := Reduce(old(meta.well), old(PlateWells(meta)), order);
      (r.Ok? <==> expected.Ok?) &&
      (r.Err? ==> r.error == expected.error && (meta.plate != null ==> unchanged(meta.plate))) &&
      (r.Ok? ==>
        fresh(r.value) && r.value.plate == meta.plate && meta.plate != null &&
        r.value.well == Some(expected.value.well) &&
        meta.plate.wells == Some(expected.value.wells) &&
        meta.plate.rows == NameDicts(expected.value.rows) &&
        meta.plate.columns == NameDicts(expected.value.columns))
  {
    if order == [] {
      return Err(ValueError);
    }
    var top := MaxOf(order);
    if meta == null {
      return Err(AttributeError);
    }
    var kept := CopySelected(meta.well, PlateWells(meta), order, top + 1);
    if kept.Err? {
      return Err(kept.error);
    }
    var rc := ScanRowsColumns(kept.value.1);
    if rc.Err? {
      return Err(rc.error);
    }
    assert order != [] && PlateWells(meta).Some?;
    var plate := meta.plate;
    plate.rows := NameDicts(rc.value.0);
    plate.columns := NameDicts(rc.value.1);
    plate.wells := Some(kept.value.1);
    var result := new HcsMeta(plate, Some(kept.value.0));
    r := Ok(result);
  }

  function ThenPicks(ms: seq<Yaml>, ws: seq<Yaml>, r: Result<(seq<Yaml>, seq<Yaml>)>): Result<(seq<Yaml>, seq<Yaml>)> {
    if r.Ok? then Ok((ms + r.value.0, ws + r.value.1)) else r
  }

  lemma ThenPicksEmpty(r: Result<(seq<Yaml>, seq<Yaml>)>)
    ensures ThenPicks([], [], r) == r
  {
    if r.Ok? {
      assert [] + r.value.0 == r.value.0 && [] + r.value.1 == r.value.1;
    }
  }

  /** One more iteration of the copying loop either raises or extends the copies. */
  lemma PicksAdvance(well: Option<seq<Yaml>>, wells: Option<seq<Yaml>>, order: seq<int>, size: int, idx: nat,
                     ms: seq<Yaml>, ws: seq<Yaml>)
    requires idx < |order|
    requires Picks(well, wells, order, size, 0) == ThenPicks(ms, ws, Picks(well, wells, order, size, idx))
    ensures var step := PickAt(well, wells, order[idx], idx, size);
      step.Err? ==> Picks(well, wells, order, size, 0) == Err(step.error)
    ensures var step := PickAt(well, wells, order[idx], idx, size);
      step.Ok? ==>
        Picks(well, wells, order, size, 0) ==
        ThenPicks(ms + [step.value.0], ws + [step.value.1], Picks(well, wells, order, size, idx + 1))
  {
    var step := PickAt(well, wells, order[idx], idx, size);
    if step.Ok? {
      ThenPicksStep(ms, ws, step.value.0, step.value.1, Picks(well, wells, order, size, idx + 1));
    }
  }

  /** After the loop of `CopySelected`: the kept lists are those of the picks, the `None` padding dropped. */
  lemma CopyDone(well: Option<seq<Yaml>>, wells: Option<seq<Yaml>>, order: seq<int>, size: int,
                 ms: seq<Yaml>, ws: seq<Yaml>, pad: nat)
    requires Picks(well, wells, order, size, 0) == ThenPicks(ms, ws, Picks(well, wells, order, size, |order|))
    ensures Kept(Picks(well, wells, order, size, 0)) == Ok((KeepTruthy(ms + Nones(pad)), KeepTruthy(ws + Nones(pad))))
  {
    PicksDone(well, wells, order, size, ms, ws);
    KeepTruthyNones(ms, pad);
    KeepTruthyNones(ws, pad);
  }

  lemma PicksDone(well: Option<seq<Yaml>>, wells: Option<seq<Yaml>>, order: seq<int>, size: int,
                  ms: seq<Yaml>, ws: seq<Yaml>)
    requires Picks(well, wells, order, size, 0) == ThenPicks(ms, ws, Picks(well, wells, order, size, |order|))
    ensures Picks(well, wells, order, size, 0).Ok?
    ensures Picks(well, wells, order, size, 0).value.0 == ms && Picks(well, wells, order, size, 0).value.1 == ws
  {
    assert ms + [] == ms && ws + [] == ws;
  }

  lemma ThenPicksStep(ms: seq<Yaml>, ws: seq<Yaml>, m: Yaml, w: Yaml, r: Result<(seq<Yaml>, seq<Yaml>)>)
    ensures ThenPicks(ms, ws, if r.Ok? then Ok(([m] + r.value.0, [w] + r.value.1)) else r)
         == ThenPicks(ms + [m], ws + [w], r)
  {
    if r.Ok? {
      assert ms + ([m] + r.value.0) == (ms + [m]) + r.value.0;
      assert ws + ([w] + r.value.1) == (ws + [w]) + r.value.1;
    }
  }

  /** Once a prefix of the wells fails, every longer prefix fails the same way. */
  lemma {:induction false} RowsColumnsPrefixErr(wells: seq<Yaml>, n: nat)
    requires n <= |wells| && RowsColumns(wells[..n]).Err?
    ensures RowsColumns(wells) == RowsColumns(wells[..n])
    decreases |wells| - n
  {
    if n < |wells| {
      assert wells[..n + 1][..n] == wells[..n];
      RowsColumnsPrefixErr(wells, n + 1);
    } else {
      assert wells[..n] == wells;
    }
  }

  // ---------------------------------------------------------------------------
  // What the reduction guarantees.

  /** Each reduced list holds at most one entry per selected position. */
  lemma ReductionSizes(well: Option<seq<Yaml>>, wells: Option<seq<Yaml>>, order: seq<int>)
    requires Reduce(well, wells, order).Ok?
    ensures |Reduce(well, wells, order).value.wells| <= |order|
    ensures |Reduce(well, wells, order).value.well| <= |order|
  {
  }

  /**
   * Selecting distinct non-negative positions that exist in both lists never
   * overruns the lists allocated with `max + 1` entries: the copies succeed.
   */
  lemma DistinctSelectionFits(well: seq<Yaml>, wells: seq<Yaml>, order: seq<int>)
    requires order != [] && NoDup(order)
    requires forall i :: 0 <= i < |order| ==> 0 <= order[i] < |well| && order[i] < |wells|
    ensures Picks(Some(well), Some(wells), order, SeqMax(order) + 1, 0).Ok?
  {
    var size := SeqMax(order) + 1;
    DistinctLengthBound(order);
    PicksFit(well, wells, order, size, 0);
  }

  /** Distinct non-negative entries number at most their maximum plus one. */
  lemma DistinctLengthBound(order: seq<int>)
    requires order != [] && NoDup(order)
    requires forall i :: 0 <= i < |order| ==> 0 <= order[i]
    ensures |order| <= SeqMax(order) + 1
  {
    var m := SeqMax(order);
    var s := CoordSet.Members(order);
    forall x | x in s
      ensures 0 <= x <= m
    {
      var i :| 0 <= i < |order| && order[i] == x;
    }
    CoordSet.SizeAtMostMaxPlusOne(s, m);
    DistinctMembers(order);
  }

  lemma {:induction false} PicksFit(well: seq<Yaml>, wells: seq<Yaml>, order: seq<int>, size: int, idx: nat)
    requires idx <= |order| <= size
    requires forall i :: 0 <= i < |order| ==> 0 <= order[i] < |well| && order[i] < |wells|
    ensures Picks(Some(well), Some(wells), order, size, idx).Ok?
    decreases |order| - idx
  {
    if idx < |order| {
      PicksFit(well, wells, order, size, idx + 1);
    }
  }

  /** A sequence without repeats has as many members as entries. */
  lemma {:induction false} DistinctMembers(v: seq<int>)
    requires NoDup(v)
    ensures |CoordSet.Members(v)| == |v|
    decreases |v|
  {
    if v != [] {
      var u := v[..|v| - 1];
      DistinctMembers(u);
      assert CoordSet.Members(v) == CoordSet.Members(u) + {v[|v| - 1]};
      assert v[|v| - 1] !in CoordSet.Members(u);
    }
  }

  /** Every retained well of a successful scan has a `row/column` path. */
  lemma {:induction false} RowsColumnsAllParse(wells: seq<Yaml>)
    requires RowsColumns(wells).Ok?
    ensures forall i :: 0 <= i < |wells| ==> PathParts(wells[i]).Ok?
    decreases |wells|
  {
    if wells != [] {
      var u := wells[..|wells| - 1];
      RowsColumnsAllParse(u);
      forall i | 0 <= i < |u|
        ensures PathParts(wells[i]).Ok?
      {
        assert wells[i] == u[i];
      }
    }
  }

  /** The rows (`c == 0`) or the columns (`c == 1`) of a scan result. */
  function NamesAt(rc: (seq<string>, seq<string>), c: nat): seq<string> {
    if c == 0 then rc.0 else rc.1
  }

  lemma AddIfAbsentNoDup(xs: seq<string>, x: string)
    requires NoDup(xs)
    ensures NoDup(AddIfAbsent(xs, x))
  {
  }

  /** Path component number `c` of a well, when its path has one. */
  function Component(well: Yaml, c: nat): Option<string> {
    var parts := PathParts(well);
    if parts.Ok? && c < |parts.value| then Some(parts.value[c]) else None
  }

  /** Component number `c` of every well whose path has one, in order. */
  function Components(wells: seq<Yaml>, c: nat): seq<string>
    decreases |wells|
  {
    if wells == [] then []
    else
      var last := Component(wells[|wells| - 1], c);
      Components(wells[..|wells| - 1], c) + (if last.Some? then [last.value] else [])
  }

  /** The row (`c == 0`) or column (`c == 1`) names contain no repeats. */
  lemma {:induction false} RowsColumnsDistinct(wells: seq<Yaml>, c: nat)
    requires c < 2 && RowsColumns(wells).Ok?
    ensures NoDup(NamesAt(RowsColumns(wells).value, c))
    decreases |wells|
  {
    if wells != [] {
      var u := wells[..|wells| - 1];
      RowsColumnsDistinct(u, c);
      var parts := PathParts(wells[|wells| - 1]).value;
      AddIfAbsentNoDup(NamesAt(RowsColumns(u).value, c), parts[c]);
    }
  }

  /**
   * The row (`c == 0`) or column (`c == 1`) names are exactly the first
   * (second) path components of the retained wells.
   */
  lemma {:induction false} RowsColumnsNames(wells: seq<Yaml>, c: nat)
    requires c < 2 && RowsColumns(wells).Ok?
    ensures forall n :: n in NamesAt(RowsColumns(wells).value, c) <==> n in Components(wells, c)
    decreases |wells|
  {
    if wells != [] {
      var u := wells[..|wells| - 1];
      RowsColumnsNames(u, c);
      var x := PathParts(wells[|wells| - 1]).value[c];
      assert Component(wells[|wells| - 1], c) == Some(x);
      assert NamesAt(RowsColumns(wells).value, c) == AddIfAbsent(NamesAt(RowsColumns(u).value, c), x);
      assert Components(wells, c) == Components(u, c) + [x];
    }
  }
}
