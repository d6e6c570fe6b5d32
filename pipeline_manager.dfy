/**
 * `PipelineManager` (recOrder/pipelines/pipeline_manager.py): the offline
 * reconstruction orchestrator.
 *
 * The manager resolves the configured positions and timepoints into (p, t)
 * units and a position-to-output-slot map, reduces the plate metadata, builds
 * the reconstruction pipeline, and then drives every unit, in sorted order,
 * through the fixed sequence of stages, writing each result into the output
 * store.  The reader, the writer's store and the pipeline are collaborators:
 * the reader contributes two counts, the store is an object holding the
 * initialised output slots, the attributes and the log of writes, and the
 * pipeline is a `Stages.Pipeline` value.
 */
module Manager {
  import opened Common
  import opened PyStrings
  import opened CoordSet
  import opened Params
  import opened Stages
  import Hcs

  /** The configuration values the manager reads. */
  datatype ManagerConfig = ManagerConfig(
    dataType: string,
    saveDir: string,
    dataSaveName: string,
    recMethod: string,
    mode: string,
    positions: seq<Entry>,
    timepoints: seq<Entry>,
    yamlDict: Yaml,
    preDenoise: DenoiseConfig,
    postDenoise: DenoiseConfig,
    registration: RegistrationConfig)

  /**
   * What the raw-data reader reports: `get_num_positions()`, `frames`, the
   * length of the channel axis of each (C, Z, Y, X) volume `get_zarr(p)[t]`,
   * and the exception, if any, `get_zarr(p)` raises for a position.
   */
  datatype Reader = Reader(numPositions: int, frames: int, channels: nat, positionError: int -> Option<Error>)

  /**
   * `data.get_zarr(p)[t]`: the reader's exception for the position first, then
   * IndexError for a time outside [-frames, frames) on the array's time axis;
   * a negative time counts from the end.
   */
  function FetchRaw(reader: Reader, p: int, t: int): (r: Result<Buffer>)
    ensures reader.positionError(p).Some? ==> r == Err(reader.positionError(p).value)
    ensures reader.positionError(p).None? ==> (r.Ok? <==> -reader.frames <= t < reader.frames)
    ensures r.Ok? ==> r.value.Raw? && r.value.p == p && 0 <= r.value.t < reader.frames
    ensures r.Ok? && t < 0 ==> r.value == Raw(p, reader.frames + t)
  {
    if reader.positionError(p).Some? then Err(reader.positionError(p).value)
    else if -reader.frames <= t < reader.frames then Ok(Raw(p, if t < 0 then t + reader.frames else t))
    else Err(IndexError)
  }

  /** The arguments of one `init_array` call. */
  datatype ArrayInfo = ArrayInfo(shape: seq<nat>, chunks: seq<nat>, channels: seq<string>, name: Option<string>)

  /** The arguments of one `write_data` call. */
  datatype WriteRecord = WriteRecord(
    slot: nat, t: int, raw: Buffer, stokes: Buffer,
    birefringence: Buffer, d2: Buffer, d3: Buffer,
    registered: Option<seq<Buffer>>)

  /** The output store behind the writer: initialised slots, attributes, writes. */
  class Store {
    var arrays: map<int, ArrayInfo>
    var attrs: map<string, Yaml>
    var writes: seq<WriteRecord>

    constructor (attrs: map<string, Yaml>)
      ensures arrays == map[] && this.attrs == attrs && writes == []
    {
      arrays := map[];
      this.attrs := attrs;
      writes := [];
    }

    /** `init_array`: raises when the slot already holds an array. */
    method InitArray(slot: int, info: ArrayInfo) returns (o: Outcome)
      modifies this
      ensures slot in old(arrays) ==> o.Fail? && arrays == old(arrays)
      ensures slot !in old(arrays) ==> o == Pass && arrays == old(arrays)[slot := info]
      ensures attrs == old(attrs) && writes == old(writes)
    {
      if slot in arrays {
        return Fail(ValueError);
      }
      arrays := arrays[slot := info];
      o := Pass;
    }

    /** `write_data`: appends one unit's results. */
    method Write(rec: WriteRecord)
      modifies this
      ensures writes == old(writes) + [rec]
      ensures arrays == old(arrays) && attrs == old(attrs)
    {
      writes := writes + [rec];
    }

    /** `attrs.put`: replaces all attributes. */
    method Put(newAttrs: map<string, Yaml>)
      modifies this
      ensures attrs == newAttrs
      ensures arrays == old(arrays) && writes == old(writes)
    {
      attrs := newAttrs;
    }
  }

  /** `os.path.join(a, b)` on POSIX paths. */
  function PathJoin(a: string, b: string): (r: string)
    ensures StartsWith(b, "/") ==> r == b
    ensures !StartsWith(b, "/") ==> EndsWith(r, b) && StartsWith(r, a)
  {
    if StartsWith(b, "/") then b
    else if a == "" || EndsWith(a, "/") then a + b
    else a + "/" + b
  }

  /** The output path gets `.zarr` appended unless it already ends with it. */
  function ZarrPath(path: string): (r: string)
    ensures EndsWith(r, ".zarr")
    ensures StartsWith(r, path)
    ensures |r| <= |path| + 5
  {
    if EndsWith(path, ".zarr") then path else path + ".zarr"
  }

  /** Adding the suffix is idempotent, and it is dropped again by cutting five characters. */
  lemma ZarrPathIdempotent(path: string)
    ensures ZarrPath(ZarrPath(path)) == ZarrPath(path)
    ensures !EndsWith(path, ".zarr") ==> ZarrPath(path)[..|path|] == path && |ZarrPath(path)| == |path| + 5
  {
  }

  /** `shutil.rmtree(path)` on a set of existing paths: the path and everything below it. */
  function RemoveTree(fs: set<string>, path: string): (r: set<string>)
    ensures path !in r && r <= fs
    ensures forall q :: q in fs && q != path && !StartsWith(q, path + "/") ==> q in r
    ensures forall q :: q in r ==> !StartsWith(q, path + "/")
  {
    set q | q in fs && q != path && !StartsWith(q, path + "/")
  }

  /**
   * The method dispatch of `__init__`: the three known methods build a
   * pipeline, UPTI and IPS raise NotImplementedError, anything else leaves no
   * pipeline.
   */
  function Dispatch(name: string): (r: Result<Option<Kind>>)
    ensures r.Err? <==> name == "UPTI" || name == "IPS"
    ensures r.Err? ==> r.error == NotImplementedError
    ensures r.Ok? && r.value.Some? <==> name in {"QLIPP", "PhaseFromBF", "FluorDeconv"}
  {
    if name == "QLIPP" then Ok(Some(QLIPP))
    else if name == "PhaseFromBF" then Ok(Some(PhaseFromBF))
    else if name == "FluorDeconv" then Ok(Some(FluorDeconv))
    else if name == "UPTI" || name == "IPS" then Err(NotImplementedError)
    else Ok(None)
  }

  /** Python's tuple order on (p, t). */
  predicate LexLess(a: (int, int), b: (int, int)) {
    a.0 < b.0 || (a.0 == b.0 && a.1 < b.1)
  }

  predicate Ascending(xs: seq<(int, int)>) {
    forall i, j :: 0 <= i < j < |xs| ==> LexLess(xs[i], xs[j])
  }

  /** Two ascending sequences with the same members are the same sequence. */
  lemma {:induction false} AscendingUnique(xs: seq<(int, int)>, ys: seq<(int, int)>)
    requires Ascending(xs) && Ascending(ys)
    requires forall u :: u in xs <==> u in ys
    ensures xs == ys
    decreases |xs|
  {
    assert xs != [] ==> xs[0] in ys;
    assert ys != [] ==> ys[0] in xs;
    if xs != [] && ys != [] {
      assert xs[0] == ys[0];
      forall u
        ensures u in xs[1..] <==> u in ys[1..]
      {
        if u in xs[1..] {
          var j :| 1 <= j < |xs| && xs[j] == u;
          assert LexLess(xs[0], u);
          assert u in xs && u in ys;
          var k :| 0 <= k < |ys| && ys[k] == u;
          assert k != 0;
          assert ys[1..][k - 1] == u;
        }
        if u in ys[1..] {
          var j :| 1 <= j < |ys| && ys[j] == u;
          assert LexLess(ys[0], u);
          assert u in ys && u in xs;
          var k :| 0 <= k < |xs| && xs[k] == u;
          assert k != 0;
          assert xs[1..][k - 1] == u;
        }
      }
      AscendingUnique(xs[1..], ys[1..]);
    }
  }

  /** The least unit of a non-empty set, found by a scan of the set. */
  method MinUnit(s: set<(int, int)>) returns (m: (int, int))
    requires s != {}
    ensures m in s && forall u :: u in s && u != m ==> LexLess(m, u)
  {
    m :| m in s;
    var rest := s - {m};
    ghost var seen := {m};
    while |rest| > 0
      invariant rest <= s && seen <= s && m in seen
      invariant forall u :: u in s ==> u in seen || u in rest
      invariant forall u :: u in seen && u != m ==> LexLess(m, u)
      decreases |rest|
    {
      var u :| u in rest;
      if LexLess(u, m) {
        m := u;
      }
      seen := seen + {u};
      rest := rest - {u};
    }
  }

  /** `sorted(pt_set)`. */
  method SortUnits(s: set<(int, int)>) returns (xs: seq<(int, int)>)
    ensures Ascending(xs)
    ensures forall u :: u in xs <==> u in s
  {
    xs := [];
    var rest := s;
    while |rest| > 0
      invariant rest <= s
      invariant Ascending(xs)
      invariant forall u :: u in s <==> u in xs || u in rest
      invariant forall i, u :: 0 <= i < |xs| && u in rest ==> LexLess(xs[i], u)
      decreases |rest|
    {
      var m := MinUnit(rest);
      xs := xs + [m];
      rest := rest - {m};
    }
  }

  /** The run's per-unit trace: the writes made and how the run ended. */
  datatype Trace = Trace(writes: seq<WriteRecord>, outcome: Outcome)

  /** The manager object: what `__init__` and `_gen_coord_set` store on `self`. */
  class PipelineManager {
    const config: ManagerConfig
    const reader: Reader
    const useHcs: bool
    const store: Store
    var indicesMap: map<int, nat>
    var pIndices: set<int>
    var ptSet: set<(int, int)>
    var numP: nat
    var numT: nat
    var hcsMeta: Hcs.HcsMeta?
    var pipeline: Option<Pipeline>

    /** The part of `__init__` before coordinate resolution: `use_hcs` is decided by the data type. */
    constructor (config: ManagerConfig, reader: Reader, store: Store)
      ensures this.config == config && this.reader == reader && this.store == store
      ensures useHcs <==> config.dataType == "zarr"
      ensures indicesMap == map[] && pIndices == {} && ptSet == {} && hcsMeta == null && pipeline.None?
    {
      this.config := config;
      this.reader := reader;
      this.store := store;
      useHcs := config.dataType == "zarr";
      indicesMap := map[];
      pIndices := {};
      ptSet := {};
      numP := 0;
      numT := 0;
      hcsMeta := null;
      pipeline := None;
    }

    /**
     * `_gen_coord_set`: the position map and set, the timepoint set, their
     * sizes, and every combination of a position with a timepoint.
     */
    method GenCoordSet() returns (o: Outcome)
      modifies this`indicesMap, this`pIndices, this`ptSet, this`numP, this`numT
      ensures hcsMeta == old(hcsMeta) && pipeline == old(pipeline)
      ensures o == CoordOutcome() && (o.Pass? ==> CoordsResolved())
      ensures var pv := Visits(Positions, config.positions, reader.numPositions);
        var tv := Visits(Timepoints, config.timepoints, reader.frames);
        (o.Pass? <==> pv.Ok? && tv.Ok?) &&
        (pv.Err? ==> o == Fail(pv.error)) &&
        (pv.Ok? && tv.Err? ==> o == Fail(tv.error)) &&
        (o.Pass? ==>
          indicesMap == SlotMap(pv.value) && pIndices == Members(pv.value) &&
          ptSet == Units(pIndices, Members(tv.value)) &&
          numP == |pIndices| && numT == |Members(tv.value)|)
    {
      var ps := ScanPositions(config.positions, reader.numPositions);
      if ps.Err? {
        return Fail(ps.error);
      }
      indicesMap, pIndices := ps.value.0, ps.value.1;
      var ts := ScanTimepoints(config.timepoints, reader.frames);
      if ts.Err? {
        return Fail(ts.error);
      }
      numT := |ts.value|;
      numP := |pIndices|;
      ptSet := BuildUnits(pIndices, ts.value);
      o := Pass;
    }

    /** `position_name` for `init_array`: `Pos_%03d` of the raw position when there is no plate metadata. */
    function PositionName(p: int): (name: Option<string>)
      reads this
      ensures hcsMeta != null ==> name.None?
      ensures hcsMeta == null ==>
        name.Some? && StartsWith(name.value, "Pos_") && |name.value| >= 7 && ParseInt(name.value[4..]) == Ok(p)
    {
      if hcsMeta == null then
        Format03dRoundTrip(p);
        var name := "Pos_" + Format03d(p);
        assert name[4..] == Format03d(p);
        Some(name)
      else None
    }

    /** What `init_array` is called with for position `p`. */
    function ArrayFor(pl: Pipeline, p: int): ArrayInfo
      reads this
    {
      ArrayInfo(pl.dataShape, pl.chunkSize, pl.outputChannels, PositionName(p))
    }

    /** The slots after `_try_init_array(p)`: a slot is added unless one of its exceptions is raised. */
    function InitOne(arrays: map<int, ArrayInfo>, p: int): map<int, ArrayInfo>
      reads this
    {
      if pipeline.Some? && p in indicesMap && indicesMap[p] !in arrays then arrays[indicesMap[p] := ArrayFor(pipeline.value, p)]
      else arrays
    }

    /** The slots after `_try_init_array` for the positions of `units`, in order. */
    function ArraysAfter(arrays: map<int, ArrayInfo>, units: seq<(int, int)>): map<int, ArrayInfo>
      reads this
      decreases |units|
    {
      if units == [] then arrays else InitOne(ArraysAfter(arrays, units[..|units| - 1]), units[|units| - 1].0)
    }

    /** Initialising never drops or replaces a slot that was already there. */
    lemma {:induction false} InitializedKeep(arrays: map<int, ArrayInfo>, units: seq<(int, int)>)
      ensures forall s :: s in arrays ==> s in ArraysAfter(arrays, units) && ArraysAfter(arrays, units)[s] == arrays[s]
      decreases |units|
    {
      if units != [] {
        InitializedKeep(arrays, units[..|units| - 1]);
      }
    }

    /**
     * The slots after initialising for `units` are the old ones plus, when
     * there is a pipeline, the slot of every position of `units` that has one.
     */
    lemma {:induction false} InitializedDomain(arrays: map<int, ArrayInfo>, units: seq<(int, int)>)
      ensures forall s :: s in ArraysAfter(arrays, units) <==>
        s in arrays || (pipeline.Some? && exists i :: 0 <= i < |units| && units[i].0 in indicesMap && indicesMap[units[i].0] == s)
      decreases |units|
    {
      if units != [] {
        var init := units[..|units| - 1];
        InitializedDomain(arrays, init);
        forall i | 0 <= i < |init|
          ensures init[i] == units[i]
        {
        }
      }
    }

    /** One more unit: its position is initialised after the ones before it. */
    lemma ArraysStep(arrays: map<int, ArrayInfo>, order: seq<(int, int)>, k: nat)
      requires k < |order|
      ensures ArraysAfter(arrays, order[..k + 1]) == InitOne(ArraysAfter(arrays, order[..k]), order[k].0)
    {
      assert order[..k + 1][..k] == order[..k];
    }

    /** The units a run starts are the ones it writes, plus the one that raised if it failed. */
    lemma {:induction false} RunReachTrace(units: seq<(int, int)>)
      ensures RunReach(units) == |RunTrace(units).writes| + if RunTrace(units).outcome.Fail? then 1 else 0
      decreases |units|
    {
      if units != [] && UnitRecord(units[0]).Ok? {
        RunReachTrace(units[1..]);
      }
    }

    /**
     * `_try_init_array`: initialise the output slot of position `p`; every
     * exception (no pipeline, no slot for `p`, slot already there) is swallowed.
     */
    method TryInitArray(p: int)
      modifies store
      ensures var ok := pipeline.Some? && p in indicesMap && indicesMap[p] !in old(store.arrays);
        (ok ==> store.arrays == old(store.arrays)[indicesMap[p] := ArrayFor(pipeline.value, p)]) &&
        (!ok ==> store.arrays == old(store.arrays))
      ensures store.arrays == InitOne(old(store.arrays), p)
      ensures store.attrs == old(store.attrs) && store.writes == old(store.writes)
    {
      var name := PositionName(p);
      if pipeline.None? || p !in indicesMap {
        return;
      }
      var pl := pipeline.value;
      var _ := store.InitArray(indicesMap[p], ArrayInfo(pl.dataShape, pl.chunkSize, pl.outputChannels, name));
    }

    /** The write one unit makes, or the exception processing it raises. */
    function UnitRecord(u: (int, int)): Result<WriteRecord>
      reads this
    {
      var raw :- FetchRaw(reader, u.0, u.1);
      if pipeline.None? then Err(AttributeError)
      else
        var pl := pipeline.value;
        var stokes0 :- pl.stokes(raw);
        var preParams :- DenoiseParams(config.preDenoise);
        var stokes := PreProcess(stokes0, preParams);
        var bire :- pl.birefringence(stokes);
        var decon :- pl.deconvolve(stokes);
        var denoise :- DenoiseParams(config.postDenoise);
        var registration :- RegistrationParams(config.registration);
        var post :- PostProcess(pl, raw, reader.channels, decon.0, decon.1, bire, denoise, registration);
        if u.0 !in indicesMap then Err(KeyError)
        else Ok(WriteRecord(indicesMap[u.0], u.1, raw, stokes,
                            post.denoised.birefringence, post.denoised.d2, post.denoised.d3, post.registered))
    }

    /** The writes a run over `units` makes, and how it ends. */
    function RunTrace(units: seq<(int, int)>): Trace
      reads this
      decreases |units|
    {
      if units == [] then Trace([], Pass)
      else
        match UnitRecord(units[0])
        case Err(e) => Trace([], Fail(e))
        case Ok(rec) =>
          var rest := RunTrace(units[1..]);
          Trace([rec] + rest.writes, rest.outcome)
    }

    /** How many units a run over `units` starts: up to and including the first that fails. */
    function RunReach(units: seq<(int, int)>): (n: nat)
      reads this
      ensures n <= |units|
      ensures units != [] ==> n >= 1
      decreases |units|
    {
      if units == [] then 0
      else if UnitRecord(units[0]).Err? then 1
      else 1 + RunReach(units[1..])
    }

    /**
     * `run`: every unit in ascending (p, t) order; per unit, initialise the
     * slot, fetch the raw volume, then Stokes, pre-processing, birefringence,
     * deconvolution, post-processing, the write at (slot of p, raw t) and the
     * read-modify-write of the store attributes that sets 'Config'.
     */
    method Run() returns (o: Outcome, order: seq<(int, int)>)
      modifies store
      ensures Ascending(order) && forall u :: u in order <==> u in ptSet
      ensures o == RunTrace(order).outcome
      ensures store.writes == old(store.writes) + RunTrace(order).writes
      ensures store.attrs == if RunTrace(order).writes == [] then old(store.attrs)
                             else old(store.attrs)["Config" := config.yamlDict]
      ensures forall s :: s in old(store.arrays) ==> s in store.arrays && store.arrays[s] == old(store.arrays)[s]
      ensures store.arrays == ArraysAfter(old(store.arrays), order[..RunReach(order)])
    {
      order := SortUnits(ptSet);
      o := RunUnits(order);
    }

    /** The loop of `run` over the sorted units, stopping at the first exception. */
    method RunUnits(order: seq<(int, int)>) returns (o: Outcome)
      modifies store
      ensures o == RunTrace(order).outcome
      ensures store.writes == old(store.writes) + RunTrace(order).writes
      ensures store.attrs == if RunTrace(order).writes == [] then old(store.attrs)
                             else old(store.attrs)["Config" := config.yamlDict]
      ensures forall s :: s in old(store.arrays) ==> s in store.arrays && store.arrays[s] == old(store.arrays)[s]
      ensures store.arrays == ArraysAfter(old(store.arrays), order[..RunReach(order)])
    {
      var k := 0;
      ghost var done: seq<WriteRecord> := [];
      while k < |order|
        invariant 0 <= k <= |order|
        invariant RunUpTo(order, k, done, old(store.writes), old(store.attrs), old(store.arrays))
      {
        var rec := RunUnit(order, k, done, old(store.writes), old(store.attrs), old(store.arrays));
        if rec.Err? {
          InitializedKeep(old(store.arrays), order[..RunReach(order)]);
          o := Fail(rec.error);
          return;
        }
        done := done + [rec.value];
        k := k + 1;
      }
      assert order[k..] == [];
      assert done + [] == done;
      RunReachTrace(order);
      assert order[..k] == order[..RunReach(order)];
      InitializedKeep(old(store.arrays), order[..k]);
      o := Pass;
    }

    /**
     * The state of `run` after the first `k` units of `order` succeeded with
     * the writes `done`, from the store's writes, attributes and slots at the start.
     */
    ghost predicate RunUpTo(order: seq<(int, int)>, k: nat, done: seq<WriteRecord>,
                            writes0: seq<WriteRecord>, attrs0: map<string, Yaml>, arrays0: map<int, ArrayInfo>)
      reads this, store
    {
      StoreUpTo(order, k, done, writes0, attrs0, arrays0, store.writes, store.attrs, store.arrays)
    }

    /** `RunUpTo` over the store's writes, attributes and slots given as values. */
    ghost predicate StoreUpTo(order: seq<(int, int)>, k: nat, done: seq<WriteRecord>,
                              writes0: seq<WriteRecord>, attrs0: map<string, Yaml>, arrays0: map<int, ArrayInfo>,
                              writes: seq<WriteRecord>, attrs: map<string, Yaml>, arrays: map<int, ArrayInfo>)
      reads this
    {
      k <= |order| && |done| == k &&
      RunTrace(order).writes == done + RunTrace(order[k..]).writes &&
      RunTrace(order).outcome == RunTrace(order[k..]).outcome &&
      writes == writes0 + done &&
      attrs == (if done == [] then attrs0 else attrs0["Config" := config.yamlDict]) &&
      arrays == ArraysAfter(arrays0, order[..k])
    }

    /** How `run` stands after the unit that raised: the writes so far, and the slots of every unit it started. */
    ghost predicate StoreAtFailure(order: seq<(int, int)>, writes0: seq<WriteRecord>, attrs0: map<string, Yaml>,
                                   arrays0: map<int, ArrayInfo>, e: Error,
                                   writes: seq<WriteRecord>, attrs: map<string, Yaml>, arrays: map<int, ArrayInfo>)
      reads this
    {
      RunTrace(order).outcome == Fail(e) &&
      writes == writes0 + RunTrace(order).writes &&
      attrs == (if RunTrace(order).writes == [] then attrs0 else attrs0["Config" := config.yamlDict]) &&
      arrays == ArraysAfter(arrays0, order[..RunReach(order)])
    }

    /** Unit `k` of `run`: either the state moves on to `k + 1`, or the run ends where it raised. */
    method RunUnit(order: seq<(int, int)>, k: nat, ghost done: seq<WriteRecord>,
                   ghost writes0: seq<WriteRecord>, ghost attrs0: map<string, Yaml>, ghost arrays0: map<int, ArrayInfo>)
        returns (rec: Result<WriteRecord>)
      requires k < |order| && RunUpTo(order, k, done, writes0, attrs0, arrays0)
      modifies store
      ensures rec.Ok? ==> RunUpTo(order, k + 1, done + [rec.value], writes0, attrs0, arrays0)
      ensures rec.Err? ==> StoreAtFailure(order, writes0, attrs0, arrays0, rec.error, store.writes, store.attrs, store.arrays)
    {
      ghost var writes, attrs, arrays := store.writes, store.attrs, store.arrays;
      rec := HandleUnit(order[k]);
      UnitAdvances(order, k, done, writes0, attrs0, arrays0, writes, attrs, arrays, store.writes, store.attrs, store.arrays);
    }

    /** The step of `RunUnit`, on the store's state before and after one `HandleUnit`. */
    lemma UnitAdvances(order: seq<(int, int)>, k: nat, done: seq<WriteRecord>,
                       writes0: seq<WriteRecord>, attrs0: map<string, Yaml>, arrays0: map<int, ArrayInfo>,
                       writes: seq<WriteRecord>, attrs: map<string, Yaml>, arrays: map<int, ArrayInfo>,
                       writes': seq<WriteRecord>, attrs': map<string, Yaml>, arrays': map<int, ArrayInfo>)
      requires k < |order| && StoreUpTo(order, k, done, writes0, attrs0, arrays0, writes, attrs, arrays)
      requires UnitRecord(order[k]).Ok? ==> writes' == writes + [UnitRecord(order[k]).value] &&
                                            attrs' == attrs["Config" := config.yamlDict]
      requires UnitRecord(order[k]).Err? ==> writes' == writes && attrs' == attrs
      requires arrays' == InitOne(arrays, order[k].0)
      ensures UnitRecord(order[k]).Ok? ==>
        StoreUpTo(order, k + 1, done + [UnitRecord(order[k]).value], writes0, attrs0, arrays0, writes', attrs', arrays')
      ensures UnitRecord(order[k]).Err? ==>
        StoreAtFailure(order, writes0, attrs0, arrays0, UnitRecord(order[k]).error, writes', attrs', arrays')
    {
      ArraysStep(arrays0, order, k);
      var r := UnitRecord(order[k]);
      if r.Ok? {
        UnitSucceeds(order, k, done, r.value);
      } else {
        UnitRaises(order, k, done, r.error);
      }
    }

    /** A unit that succeeds adds its write to the run's writes so far. */
    lemma UnitSucceeds(order: seq<(int, int)>, k: nat, done: seq<WriteRecord>, rec: WriteRecord)
      requires k < |order| && UnitRecord(order[k]) == Ok(rec)
      requires RunTrace(order).writes == done + RunTrace(order[k..]).writes
      requires RunTrace(order).outcome == RunTrace(order[k..]).outcome
      ensures RunTrace(order).writes == (done + [rec]) + RunTrace(order[k + 1..]).writes
      ensures RunTrace(order).outcome == RunTrace(order[k + 1..]).outcome
    {
      RunStep(order, k, done);
    }

    /** A unit that raises ends the run: its writes are the ones so far, and it started `k + 1` units. */
    lemma UnitRaises(order: seq<(int, int)>, k: nat, done: seq<WriteRecord>, e: Error)
      requires k < |order| && UnitRecord(order[k]) == Err(e) && |done| == k
      requires RunTrace(order).writes == done + RunTrace(order[k..]).writes
      requires RunTrace(order).outcome == RunTrace(order[k..]).outcome
      ensures RunTrace(order).writes == done && RunTrace(order).outcome == Fail(e)
      ensures RunReach(order) == k + 1
    {
      RunStep(order, k, done);
      assert done + [] == done;
      RunReachTrace(order);
    }

    /** One iteration of `run`: slot initialisation, the stages, the write and the attributes. */
    method HandleUnit(u: (int, int)) returns (r: Result<WriteRecord>)
      modifies store
      ensures r == UnitRecord(u)
      ensures r.Ok? ==> store.writes == old(store.writes) + [r.value] &&
                        store.attrs == old(store.attrs)["Config" := config.yamlDict]
      ensures r.Err? ==> store.writes == old(store.writes) && store.attrs == old(store.attrs)
      ensures forall s :: s in old(store.arrays) ==> s in store.arrays && store.arrays[s] == old(store.arrays)[s]
      ensures store.arrays == InitOne(old(store.arrays), u.0)
    {
      TryInitArray(u.0);
      r := ProcessUnit(u);
      if r.Err? {
        return;
      }
      store.Write(r.value);
      var existing := store.attrs;
      store.Put(existing["Config" := config.yamlDict]);
    }

    /** The stages of one unit, in the order `run` calls them. */
    method ProcessUnit(u: (int, int)) returns (r: Result<WriteRecord>)
      ensures r == UnitRecord(u)
    {
      var raw := FetchRaw(reader, u.0, u.1);
      if raw.Err? {
        return Err(raw.error);
      }
      if pipeline.None? {
        return Err(AttributeError);
      }
      var pl := pipeline.value;
      var stokes := pl.stokes(raw.value);
      if stokes.Err? {
        return Err(stokes.error);
      }
      var preParams := ResolveDenoise(config.preDenoise);
      if preParams.Err? {
        return Err(preParams.error);
      }
      var denoised := PreProcess(stokes.value, preParams.value);
      var bire := pl.birefringence(denoised);
      if bire.Err? {
        return Err(bire.error);
      }
      var decon := pl.deconvolve(denoised);
      if decon.Err? {
        return Err(decon.error);
      }
      var params := ResolvePostprocessing(config.postDenoise, config.registration);
      if params.Err? {
        return Err(params.error);
      }
      var post := PostProcessing(pl, raw.value, reader.channels, decon.value.0, decon.value.1, bire.value,
                                 params.value.0, params.value.1);
      if post.Err? {
        return Err(post.error);
      }
      if u.0 !in indicesMap {
        return Err(KeyError);
      }
      r := Ok(WriteRecord(indicesMap[u.0], u.1, raw.value, denoised,
                          post.value.denoised.birefringence, post.value.denoised.d2, post.value.denoised.d3,
                          post.value.registered));
    }

    /** The first unit of a run either fails it with no write or contributes the first write. */
    lemma RunTraceCons(units: seq<(int, int)>)
      requires units != []
      ensures UnitRecord(units[0]).Err? ==> RunTrace(units) == Trace([], Fail(UnitRecord(units[0]).error))
      ensures UnitRecord(units[0]).Ok? ==>
        RunTrace(units).writes == [UnitRecord(units[0]).value] + RunTrace(units[1..]).writes &&
        RunTrace(units).outcome == RunTrace(units[1..]).outcome
    {
    }

    /** The run from unit `k` on is unit `k`'s write, if any, then the run from `k + 1`. */
    lemma RunStep(order: seq<(int, int)>, k: nat, done: seq<WriteRecord>)
      requires k < |order|
      ensures UnitRecord(order[k]).Err? ==> RunTrace(order[k..]) == Trace([], Fail(UnitRecord(order[k]).error))
      ensures UnitRecord(order[k]).Ok? ==>
        done + RunTrace(order[k..]).writes == (done + [UnitRecord(order[k]).value]) + RunTrace(order[k + 1..]).writes &&
        RunTrace(order[k..]).outcome == RunTrace(order[k + 1..]).outcome
    {
      assert order[k..][0] == order[k] && order[k..][1..] == order[k + 1..];
      RunTraceCons(order[k..]);
    }

    /**
     * Every write of a run goes to the slot mapped to the unit's position and
     * carries the unit's raw timepoint, in the order of the units.
     */
    lemma {:induction false} WritesAtSlotAndRawT(units: seq<(int, int)>)
      ensures |RunTrace(units).writes| <= |units|
      ensures forall i :: 0 <= i < |RunTrace(units).writes| ==>
        units[i].0 in indicesMap &&
        RunTrace(units).writes[i].slot == indicesMap[units[i].0] &&
        RunTrace(units).writes[i].t == units[i].1 &&
        FetchRaw(reader, units[i].0, units[i].1) == Ok(RunTrace(units).writes[i].raw)
      ensures RunTrace(units).outcome.Pass? ==> |RunTrace(units).writes| == |units|
      decreases |units|
    {
      if units != [] && UnitRecord(units[0]).Ok? {
        WritesAtSlotAndRawT(units[1..]);
      }
    }

    /**
     * Without a pipeline, a run over any unit writes nothing: the first unit's
     * fetch raises, or else the first stage call raises AttributeError.
     */
    lemma NoPipelineNoWrites(units: seq<(int, int)>)
      requires pipeline.None? && units != []
      ensures var raw := FetchRaw(reader, units[0].0, units[0].1);
        RunTrace(units) == Trace([], Fail(if raw.Err? then raw.error else AttributeError))
    {
    }

    /**
     * A timepoint outside the reader's frames stops the run at the first unit
     * that has it: every earlier unit is written, and this one raises
     * IndexError without a write.
     */
    lemma {:induction false} TimeOutOfRangeHalts(units: seq<(int, int)>, k: nat)
      requires k < |units|
      requires reader.positionError(units[k].0).None?
      requires !(-reader.frames <= units[k].1 < reader.frames)
      requires forall i :: 0 <= i < k ==> UnitRecord(units[i]).Ok?
      ensures RunTrace(units).outcome == Fail(IndexError)
      ensures |RunTrace(units).writes| == k
      decreases k
    {
      if k > 0 {
        TimeOutOfRangeHalts(units[1..], k - 1);
      }
    }

    /** Any stage that raises ends the unit with its exception and no write. */
    lemma StageErrorsPropagate(u: (int, int))
      requires FetchRaw(reader, u.0, u.1).Ok? && pipeline.Some?
      ensures var raw := FetchRaw(reader, u.0, u.1).value;
        pipeline.value.stokes(raw).Err? ==> UnitRecord(u) == Err(pipeline.value.stokes(raw).error)
      ensures var raw := FetchRaw(reader, u.0, u.1).value;
        var pre := DenoiseParams(config.preDenoise);
        pipeline.value.stokes(raw).Ok? && pre.Ok? &&
        pipeline.value.birefringence(PreProcess(pipeline.value.stokes(raw).value, pre.value)).Err? ==>
          UnitRecord(u) == Err(pipeline.value.birefringence(PreProcess(pipeline.value.stokes(raw).value, pre.value)).error)
      ensures var raw := FetchRaw(reader, u.0, u.1).value;
        var pre := DenoiseParams(config.preDenoise);
        pipeline.value.stokes(raw).Ok? && pre.Ok? &&
        pipeline.value.birefringence(PreProcess(pipeline.value.stokes(raw).value, pre.value)).Ok? &&
        pipeline.value.deconvolve(PreProcess(pipeline.value.stokes(raw).value, pre.value)).Err? ==>
          UnitRecord(u) == Err(pipeline.value.deconvolve(PreProcess(pipeline.value.stokes(raw).value, pre.value)).error)
    {
    }

    /** What `_gen_coord_set` raises, if anything: the positions are scanned first. */
    function CoordOutcome(): Outcome {
      var pv := Visits(Positions, config.positions, reader.numPositions);
      var tv := Visits(Timepoints, config.timepoints, reader.frames);
      if pv.Err? then Fail(pv.error) else if tv.Err? then Fail(tv.error) else Pass
    }

    /** The coordinate fields hold what the two scans computed. */
    predicate CoordsResolved()
      reads this`indicesMap, this`pIndices, this`ptSet, this`numP, this`numT
    {
      var pv := Visits(Positions, config.positions, reader.numPositions);
      var tv := Visits(Timepoints, config.timepoints, reader.frames);
      pv.Ok? && tv.Ok? &&
      indicesMap == SlotMap(pv.value) && pIndices == Members(pv.value) &&
      ptSet == Units(pIndices, Members(tv.value)) && numP == |pIndices| && numT == |Members(tv.value)|
    }

    /**
     * `__init__` after the reader is opened: resolve coordinates, reduce the
     * plate metadata (when the data is a zarr store) over the enumeration
     * `order` of the selected positions, delete an existing output when
     * overwriting, and build the pipeline for the configured method.  `fs` is
     * the set of existing paths; the one returned is the set afterwards.  Each
     * step's exception ends the setup, so an unimplemented method is reported
     * only after the old output has been deleted.
     */
    method Setup(rawMeta: Hcs.HcsMeta?, overwrite: bool, fs: set<string>, build: Kind -> Pipeline)
      returns (o: Outcome, fsAfter: set<string>, order: seq<int>)
      modifies this, if rawMeta == null then {} else {rawMeta.plate}
      ensures CoordOutcome().Fail? ==> o == CoordOutcome() && fsAfter == fs && pipeline == old(pipeline)
      ensures CoordOutcome().Pass? ==> CoordsResolved() && NoDup(order) && Members(order) == pIndices
      ensures CoordOutcome().Pass? ==>
        MetadataReduced(rawMeta, old(MetaLists(rawMeta)), order) &&
        SetupFinished(rawMeta, old(MetaLists(rawMeta)), order, old(pipeline), overwrite, fs, build, o, fsAfter)
    {
      fsAfter := fs;
      order := [];
      o := GenCoordSet();
      if o.Fail? {
        return;
      }
      order := Enumerate(pIndices);
      o, fsAfter := SetupRest(rawMeta, order, overwrite, fs, build);
    }

    /** The lists the reduction reads: `meta['well']` and `meta['plate']['wells']`, or None for None metadata. */
    function MetaLists(rawMeta: Hcs.HcsMeta?): Option<(Option<seq<Yaml>>, Option<seq<Yaml>>)>
      reads rawMeta, if rawMeta == null then {} else {rawMeta.plate}
    {
      if rawMeta == null then None else Some((rawMeta.well, Hcs.PlateWells(rawMeta)))
    }

    /** What the reduction yields for metadata whose lists were `lists`. */
    function Expected(lists: Option<(Option<seq<Yaml>>, Option<seq<Yaml>>)>, order: seq<int>): Result<Hcs.Reduction> {
      Hcs.ReduceMeta(lists.Some?, if lists.Some? then lists.value.0 else None, if lists.Some? then lists.value.1 else None, order)
    }

    /**
     * Without HCS there is no metadata; with HCS, a successful reduction leaves
     * the fresh top-level record sharing the raw plate, whose lists are the
     * reduced ones.
     */
    predicate MetadataReduced(rawMeta: Hcs.HcsMeta?, lists: Option<(Option<seq<Yaml>>, Option<seq<Yaml>>)>, order: seq<int>)
      reads this`hcsMeta, rawMeta, if rawMeta == null then {} else {rawMeta.plate}, if hcsMeta == null then {} else {hcsMeta}
    {
      var expected := Expected(lists, order);
      (!useHcs ==> hcsMeta == null) &&
      (useHcs && expected.Ok? ==>
        rawMeta != null && rawMeta.plate != null && hcsMeta != null && hcsMeta.plate == rawMeta.plate &&
        hcsMeta.well == Some(expected.value.well) && rawMeta.plate.wells == Some(expected.value.wells) &&
        rawMeta.plate.rows == Hcs.NameDicts(expected.value.rows) &&
        rawMeta.plate.columns == Hcs.NameDicts(expected.value.columns))
    }

    /**
     * How the setup ends once the coordinates are resolved: the reduction's
     * exception, or else the old output deleted when overwriting and then the
     * pipeline the method name picks or NotImplementedError.
     */
    ghost predicate SetupFinished(rawMeta: Hcs.HcsMeta?, lists: Option<(Option<seq<Yaml>>, Option<seq<Yaml>>)>, order: seq<int>,
                                  oldPipeline: Option<Pipeline>, overwrite: bool, fs: set<string>, build: Kind -> Pipeline,
                                  o: Outcome, fsAfter: set<string>)
      reads this`pipeline
    {
      var expected := Expected(lists, order);
      var path := ZarrPath(PathJoin(config.saveDir, config.dataSaveName));
      var kind := Dispatch(config.recMethod);
      (useHcs && expected.Err? ==> o == Fail(expected.error) && fsAfter == fs && pipeline == oldPipeline) &&
      (!useHcs || expected.Ok? ==>
        fsAfter == (if overwrite && path in fs then RemoveTree(fs, path) else fs) &&
        (kind.Err? ==> o == Fail(NotImplementedError) && pipeline == oldPipeline) &&
        (kind.Ok? ==>
          o == Pass &&
          (pipeline.Some? <==> kind.value.Some?) && (pipeline.Some? ==> pipeline.value == build(kind.value.value))))
    }

    /** `__init__` from the metadata step on. */
    method SetupRest(rawMeta: Hcs.HcsMeta?, order: seq<int>, overwrite: bool, fs: set<string>, build: Kind -> Pipeline)
      returns (o: Outcome, fsAfter: set<string>)
      modifies this`hcsMeta, this`pipeline, if rawMeta == null then {} else {rawMeta.plate}
      ensures MetadataReduced(rawMeta, old(MetaLists(rawMeta)), order)
      ensures SetupFinished(rawMeta, old(MetaLists(rawMeta)), order, old(pipeline), overwrite, fs, build, o, fsAfter)
    {
      fsAfter := fs;
      if useHcs {
        o := ReduceMetadata(rawMeta, order);
        if o.Fail? {
          return;
        }
      } else {
        hcsMeta := null;
      }
      o, fsAfter := FinishSetup(overwrite, fs, build);
    }

    /** The metadata step of `__init__`: the reduced plate metadata, or the reduction's exception. */
    method ReduceMetadata(rawMeta: Hcs.HcsMeta?, order: seq<int>) returns (o: Outcome)
      modifies this`hcsMeta, if rawMeta == null then {} else {rawMeta.plate}
      ensures var expected := Expected(old(MetaLists(rawMeta)), order);
        (expected.Err? ==> o == Fail(expected.error)) &&
        (expected.Ok? ==>
          o == Pass && rawMeta != null && rawMeta.plate != null && hcsMeta != null && hcsMeta.plate == rawMeta.plate &&
          hcsMeta.well == Some(expected.value.well) && rawMeta.plate.wells == Some(expected.value.wells) &&
          rawMeta.plate.rows == Hcs.NameDicts(expected.value.rows) &&
          rawMeta.plate.columns == Hcs.NameDicts(expected.value.columns))
    {
      var reduced := Hcs.UpdateHcsMeta(rawMeta, order);
      if reduced.Err? {
        return Fail(reduced.error);
      }
      hcsMeta := reduced.value;
      o := Pass;
    }

    /**
     * The last steps of `__init__`: the old output is deleted when overwriting,
     * then the method name picks the pipeline or raises NotImplementedError.
     */
    method FinishSetup(overwrite: bool, fs: set<string>, build: Kind -> Pipeline) returns (o: Outcome, fsAfter: set<string>)
      modifies this`pipeline
      ensures var path := ZarrPath(PathJoin(config.saveDir, config.dataSaveName));
        fsAfter == if overwrite && path in fs then RemoveTree(fs, path) else fs
      ensures var kind := Dispatch(config.recMethod);
        (kind.Err? ==> o == Fail(NotImplementedError) && pipeline == old(pipeline)) &&
        (kind.Ok? ==>
          o == Pass &&
          (pipeline.Some? <==> kind.value.Some?) && (pipeline.Some? ==> pipeline.value == build(kind.value.value)))
    {
      fsAfter := fs;
      if overwrite {
        var path := ZarrPath(PathJoin(config.saveDir, config.dataSaveName));
        if path in fs {
          fsAfter := RemoveTree(fs, path);
        }
      }
      var kind := Dispatch(config.recMethod);
      if kind.Err? {
        return Fail(kind.error), fsAfter;
      }
      pipeline := if kind.value.Some? then Some(build(kind.value.value)) else None;
      o := Pass;
    }
  }

  /**
   * The positions loop of `_gen_coord_set`: the slot map `indices_map` and the
   * set `p_indices` of the visits, or the exception the scan raises.
   */
  method ScanPositions(entries: seq<Entry>, n: int) returns (r: Result<(map<int, nat>, set<int>)>)
    ensures var whole := Visits(Positions, entries, n);
      (r.Ok? <==> whole.Ok?) && (r.Err? ==> r.error == whole.error) &&
      (r.Ok? ==> r.value.0 == SlotMap(whole.value) && r.value.1 == Members(whole.value))
  {
    ghost var whole := Visits(Positions, entries, n);
    ghost var visited: seq<int> := [];
    var slots: map<int, nat> := map[];
    var ps: set<int> := {};
    var cnt := 0;
    var k := 0;
    var stopped := false;
    assert entries[0..] == entries;
    ThenEmpty(whole);
    while k < |entries| && !stopped
      invariant 0 <= k <= |entries|
      invariant cnt == |visited|
      invariant slots == SlotMap(visited) && ps == Members(visited)
      invariant !stopped ==> whole == Then(visited, Visits(Positions, entries[k..], n))
      invariant stopped ==> whole == Ok(visited)
    {
      var entry := entries[k];
      assert entries[k..][0] == entry && entries[k..][1..] == entries[k + 1..];
      ghost var rest := Visits(Positions, entries[k + 1..], n);
      match entry {
        case Str(s) =>
          if s != "all" {
            return Err(ValueError);
          }
          slots, ps, cnt := VisitSpan(slots, ps, cnt, visited, 0, n);
          visited := visited + Span(0, n);
          stopped := true;
        case Int(x) =>
          VisitStep(visited, x);
          ps := ps + {x};
          slots := slots[x := cnt];
          ThenThen(visited, [x], rest);
          visited := visited + [x];
          cnt := cnt + 1;
        case IntList(items) =>
          if items != [] {
            return Err(TypeError);
          }
          assert visited + items == visited;
          ThenThen(visited, items, rest);
        case MixedList(values) =>
          if values != [] {
            return Err(MixedListError(Positions, values));
          }
          assert visited + [] == visited;
          ThenThen(visited, [], rest);
        case Tuple(items) =>
          if |items| < 2 {
            return Err(IndexError);
          }
          slots, ps, cnt := VisitSpan(slots, ps, cnt, visited, items[0], items[1]);
          ThenThen(visited, Span(items[0], items[1]), rest);
          visited := visited + Span(items[0], items[1]);
        case Other =>
          return Err(ValueError);
      }
      k := k + 1;
    }
    if !stopped {
      assert entries[k..] == [];
      assert visited + [] == visited;
    }
    r := Ok((slots, ps));
  }

  /** The timepoints loop of `_gen_coord_set`: the same rules, no map, and lists are accepted. */
  method ScanTimepoints(entries: seq<Entry>, n: int) returns (r: Result<set<int>>)
    ensures var whole := Visits(Timepoints, entries, n);
      (r.Ok? <==> whole.Ok?) && (r.Err? ==> r.error == whole.error) &&
      (r.Ok? ==> r.value == Members(whole.value))
  {
    ghost var whole := Visits(Timepoints, entries, n);
    ghost var visited: seq<int> := [];
    var ts: set<int> := {};
    var k := 0;
    var stopped := false;
    assert entries[0..] == entries;
    ThenEmpty(whole);
    while k < |entries| && !stopped
      invariant 0 <= k <= |entries|
      invariant ts == Members(visited)
      invariant !stopped ==> whole == Then(visited, Visits(Timepoints, entries[k..], n))
      invariant stopped ==> whole == Ok(visited)
    {
      var entry := entries[k];
      assert entries[k..][0] == entry && entries[k..][1..] == entries[k + 1..];
      ghost var rest := Visits(Timepoints, entries[k + 1..], n);
      match entry {
        case Str(s) =>
          if s != "all" {
            return Err(ValueError);
          }
          ts := CollectList(ts, visited, Span(0, n));
          visited := visited + Span(0, n);
          stopped := true;
        case Int(x) =>
          VisitStep(visited, x);
          ts := ts + {x};
          ThenThen(visited, [x], rest);
          visited := visited + [x];
        case IntList(items) =>
          ts := CollectList(ts, visited, items);
          ThenThen(visited, items, rest);
          visited := visited + items;
        case MixedList(values) =>
          if values != [] {
            return Err(MixedListError(Timepoints, values));
          }
          assert visited + [] == visited;
          ThenThen(visited, [], rest);
        case Tuple(items) =>
          if |items| < 2 {
            return Err(IndexError);
          }
          ts := CollectSpan(ts, visited, items[0], items[1]);
          ThenThen(visited, Span(items[0], items[1]), rest);
          visited := visited + Span(items[0], items[1]);
        case Other =>
          return Err(ValueError);
      }
      k := k + 1;
    }
    if !stopped {
      assert entries[k..] == [];
      assert visited + [] == visited;
    }
    r := Ok(ts);
  }

  /** `for p in range(a, b)` over the positions: each visit takes the next slot. */
  method VisitSpan(slots: map<int, nat>, ps: set<int>, cnt: nat, ghost visited: seq<int>, a: int, b: int)
    returns (slots': map<int, nat>, ps': set<int>, cnt': nat)
    requires slots == SlotMap(visited) && ps == Members(visited) && cnt == |visited|
    ensures slots' == SlotMap(visited + Span(a, b)) && ps' == Members(visited + Span(a, b))
    ensures cnt' == |visited + Span(a, b)|
  {
    slots', ps', cnt' := slots, ps, cnt;
    var p := a;
    assert visited + Span(a, p) == visited;
    while p < b
      invariant a <= p <= (if a <= b then b else a)
      invariant slots' == SlotMap(visited + Span(a, p)) && ps' == Members(visited + Span(a, p))
      invariant cnt' == |visited + Span(a, p)|
    {
      VisitStep(visited + Span(a, p), p);
      assert visited + Span(a, p + 1) == (visited + Span(a, p)) + [p];
      ps' := ps' + {p};
      slots' := slots'[p := cnt'];
      cnt' := cnt' + 1;
      p := p + 1;
    }
    if b < a {
      assert Span(a, b) == Span(a, p);
    }
  }

  /** `for t in range(a, b)` over the timepoints. */
  method CollectSpan(ts: set<int>, ghost visited: seq<int>, a: int, b: int) returns (ts': set<int>)
    requires ts == Members(visited)
    ensures ts' == Members(visited + Span(a, b))
  {
    ts' := ts;
    var t := a;
    assert visited + Span(a, t) == visited;
    while t < b
      invariant a <= t <= (if a <= b then b else a)
      invariant ts' == Members(visited + Span(a, t))
    {
      VisitStep(visited + Span(a, t), t);
      assert visited + Span(a, t + 1) == (visited + Span(a, t)) + [t];
      ts' := ts' + {t};
      t := t + 1;
    }
    if b < a {
      assert Span(a, b) == Span(a, t);
    }
  }

  /** The members of a list of timepoints join the set. */
  method CollectList(ts: set<int>, ghost visited: seq<int>, items: seq<int>) returns (ts': set<int>)
    requires ts == Members(visited)
    ensures ts' == Members(visited + items)
  {
    ts' := ts;
    var i := 0;
    while i < |items|
      invariant 0 <= i <= |items|
      invariant ts' == Members(visited + items[..i])
    {
      VisitStep(visited + items[..i], items[i]);
      assert visited + items[..i + 1] == (visited + items[..i]) + [items[i]];
      ts' := ts' + {items[i]};
      i := i + 1;
    }
    assert items[..|items|] == items;
  }

  /** Some member of a non-empty set: Python's set iteration order is left open. */
  method Pick<T>(s: set<T>) returns (x: T)
    requires s != {}
    ensures x in s
  {
    x :| x in s;
  }

  /** Enumerating a set, in an order the model leaves open. */
  method Enumerate(s: set<int>) returns (xs: seq<int>)
    ensures NoDup(xs) && Members(xs) == s && |xs| == |s|
  {
    xs := [];
    var rest := s;
    while |rest| > 0
      invariant rest <= s && NoDup(xs)
      invariant forall x :: x in s <==> x in xs || x in rest
      invariant forall x :: x in xs ==> x !in rest
      invariant |xs| + |rest| == |s|
      decreases |rest|
    {
      var x := Pick(rest);
      xs := xs + [x];
      rest := rest - {x};
    }
    assert rest == {};
    assert forall x :: x in Members(xs) <==> x in s;
    assert Members(xs) == s;
  }

  /** `for pos in p_indices: for t in t_indices: pt_set.add((pos, t))`. */
  method BuildUnits(ps: set<int>, ts: set<int>) returns (units: set<(int, int)>)
    ensures units == Units(ps, ts)
  {
    units := {};
    var restP := ps;
    while |restP| > 0
      invariant restP <= ps
      invariant forall p, t :: (p, t) in units <==> p in ps - restP && t in ts
      decreases |restP|
    {
      var p := Pick(restP);
      var restT := ts;
      while |restT| > 0
        invariant restT <= ts
        invariant forall q, t :: (q, t) in units <==> (q in ps - restP && t in ts) || (q == p && t in ts - restT)
        decreases |restT|
      {
        var t := Pick(restT);
        units := units + {(p, t)};
        restT := restT - {t};
      }
      restP := restP - {p};
    }
    assert restP == {};
    forall u
      ensures u in units <==> u in Units(ps, ts)
    {
      var (p, t) := u;
      assert (p, t) in units <==> p in ps && t in ts;
      assert (p, t) in Units(ps, ts) <==> p in ps && t in ts;
    }
  }

  lemma ThenEmpty(r: Result<seq<int>>)
    ensures Then([], r) == r
  {
    if r.Ok? {
      assert [] + r.value == r.value;
    }
  }

  lemma ThenOk(a: seq<int>, b: seq<int>)
    ensures Then(a, Ok(b)) == Ok(a + b)
  {
  }

  /** One more visit: the map gains the next counter value, the set gains the index. */
  lemma VisitStep(v: seq<int>, p: int)
    ensures SlotMap(v + [p]) == SlotMap(v)[p := |v|]
    ensures Members(v + [p]) == Members(v) + {p}
  {
    SlotStep(v, p);
    MemberStep(v, p);
  }

  lemma SlotStep(v: seq<int>, p: int)
    ensures SlotMap(v + [p]) == SlotMap(v)[p := |v|]
  {
    assert (v + [p])[..|v + [p]| - 1] == v;
  }

  lemma MemberStep(v: seq<int>, p: int)
    ensures Members(v + [p]) == Members(v) + {p}
  {
    forall x
      ensures x in Members(v + [p]) <==> x in Members(v) + {p}
    {
      assert x in v + [p] <==> x in v || x == p;
    }
  }
}
