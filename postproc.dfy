/**
 * The reconstruction stages `run` drives for one (position, time) unit, and
 * `PipelineManager.pre_processing` / `post_processing`.
 *
 * The numerical work (Stokes reconstruction, birefringence, deconvolution,
 * denoising, translation) is foreign code on float arrays.  The model keeps it
 * symbolic: a `Buffer` is a term recording which foreign call produced it from
 * which inputs, so two buffers are equal exactly when they come from the same
 * calls on the same inputs.  The pipeline object's stages are function-valued
 * fields, with no property assumed of them.
 */
module Stages {
  import opened Common
  import opened Params

  /** An opaque array, named by how it was produced. */
  datatype Buffer =
    | Raw(p: int, t: int)                              // data.get_zarr(p)[t]
    | Slice(of: Buffer, index: nat)                    // buffer[index] along the first axis
    | Indexed(of: Buffer, key: Yaml)                   // buffer[key] for any other NumPy index
    | PreDenoised(of: Buffer, params: seq<DenoiseParam>) // preproc_denoise(stokes, params)
    | PostDenoised(volume: Option<Buffer>, param: DenoiseParam) // post_proc_denoise(x, param)
    | Translated(of: Buffer, shift: Yaml)              // translate_3D(x, shift)
    | Computed(id: int)                                // any other foreign result
    | Stacked(items: seq<Buffer>)                      // np.copy of a list of arrays: one stacked array
    | NoneArray                                        // np.copy(None): a 0-d object array holding None

  /** The pipeline classes the manager can build. */
  datatype Kind = QLIPP | PhaseFromBF | FluorDeconv

  /** The pipeline object as the manager uses it. */
  datatype Pipeline = Pipeline(
    kind: Kind,
    mode: string,                          // the reconstruction mode, e.g. '2D' or '3D'
    channelMap: map<string, nat>,          // `pipeline.map`: deconvolved channel name to stack index
    dataShape: seq<nat>,
    chunkSize: seq<nat>,
    outputChannels: seq<string>,
    stackCount: nat,                       // first-axis length of the deconvolved volumes
    stokes: Buffer -> Result<Buffer>,                                  // reconstruct_stokes_volume
    birefringence: Buffer -> Result<Option<seq<Buffer>>>,              // reconstruct_birefringence_volume
    deconvolve: Buffer -> Result<(Option<Buffer>, Option<Buffer>)>)    // deconvolve_volume: (2D, 3D)

  /** `pre_processing`: denoise only with a non-empty parameter list. */
  function PreProcess(stokes: Buffer, params: Option<seq<DenoiseParam>>): (r: Buffer)
    ensures params.None? || params.value == [] ==> r == stokes
  {
    if params.Some? && params.value != [] then PreDenoised(stokes, params.value) else stokes
  }

  /** Where a post-processing denoise entry goes. */
  datatype Route = Retardance | Orientation | Brightfield | Phase2D | Phase3D

  /**
   * The target of a denoise entry: the first keyword contained in its channel
   * (Python `in`: substring for a string, membership for a list); ValueError
   * when none is, TypeError when the channel supports no `in`.
   */
  function RouteOf(channel: Yaml): (r: Result<Route>)
    ensures channel.YStr? ==> (r.Ok? <==>
      (Contains(channel.s, "Retardance") || Contains(channel.s, "Orientation") ||
       Contains(channel.s, "Brightfield") || Contains(channel.s, "Phase2D") || Contains(channel.s, "Phase3D")))
    ensures channel.YStr? && Contains(channel.s, "Retardance") ==> r == Ok(Retardance)
    ensures !(channel.YStr? || channel.YList? || channel.YMap?) ==> r == Err(TypeError)
  {
    if !(channel.YStr? || channel.YList? || channel.YMap?) then Err(TypeError)
    else if PyIn("Retardance", channel).value then Ok(Retardance)
    else if PyIn("Orientation", channel).value then Ok(Orientation)
    else if PyIn("Brightfield", channel).value then Ok(Brightfield)
    else if PyIn("Phase2D", channel).value then Ok(Phase2D)
    else if PyIn("Phase3D", channel).value then Ok(Phase3D)
    else Err(ValueError)
  }

  /** The arrays post-processing hands back: (birefringence, 2D, 3D), each an `np.copy`. */
  datatype Denoised = Denoised(birefringence: Buffer, d2: Buffer, d3: Buffer)

  /** `np.copy(x)` of a volume: the same array, or a 0-d object array for None. */
  function CopyOf(x: Option<Buffer>): Buffer {
    if x.None? then NoneArray else x.value
  }

  /** `np.copy(x)` of a birefringence result: its arrays stacked, or a 0-d object array for None. */
  function CopyOfStack(x: Option<seq<Buffer>>): Buffer {
    if x.None? then NoneArray else Stacked(x.value)
  }

  /** The three copies `post_processing` starts from. */
  function Copies(bire: Option<seq<Buffer>>, d2: Option<Buffer>, d3: Option<Buffer>): Denoised {
    Denoised(CopyOfStack(bire), CopyOf(d2), CopyOf(d3))
  }

  /** `x[i]` on a birefringence result: None is not subscriptable. */
  function BireAt(bire: Option<seq<Buffer>>, i: nat): Result<Buffer> {
    if bire.None? then Err(TypeError)
    else if i < |bire.value| then Ok(bire.value[i])
    else Err(IndexError)
  }

  /**
   * One denoise entry applied to the copies `acc`; the input to the denoiser is
   * always the un-denoised original.
   */
  function DenoiseStep(acc: Denoised, param: DenoiseParam, bire: Option<seq<Buffer>>, d2: Option<Buffer>, d3: Option<Buffer>)
    : Result<Denoised>
  {
    var route :- RouteOf(param.channel);
    match route
    case Retardance => var x :- BireAt(bire, 0); Store(acc, 0, PostDenoised(Some(x), param))
    case Orientation => var x :- BireAt(bire, 1); Store(acc, 1, PostDenoised(Some(x), param))
    case Brightfield => var x :- BireAt(bire, 2); Store(acc, 2, PostDenoised(Some(x), param))
    case Phase2D => Ok(acc.(d2 := PostDenoised(d2, param)))
    case Phase3D => Ok(acc.(d3 := PostDenoised(d3, param)))
  }

  /** `copy[i] = v` on the birefringence copy; a 0-d array, such as the copy of None, has no index. */
  function Store(acc: Denoised, i: nat, v: Buffer): Result<Denoised> {
    match acc.birefringence
    case Stacked(items) => if i < |items| then Ok(acc.(birefringence := Stacked(items[i := v]))) else Err(IndexError)
    case _ => Err(IndexError)
  }

  /** The denoise loop from entry `k` on, starting from the copies `acc`. */
  function DenoiseLoop(acc: Denoised, params: seq<DenoiseParam>, k: nat,
                       bire: Option<seq<Buffer>>, d2: Option<Buffer>, d3: Option<Buffer>): Result<Denoised>
    requires k <= |params|
    decreases |params| - k
  {
    if k == |params| then Ok(acc)
    else
      var next :- DenoiseStep(acc, params[k], bire, d2, d3);
      DenoiseLoop(next, params, k + 1, bire, d2, d3)
  }

  /** A Python int or bool, which NumPy reads as an integer inside an index list. */
  predicate IntLike(y: Yaml) {
    y.YInt? || y.YBool?
  }

  function AsInt(y: Yaml): int
    requires IntLike(y)
  {
    if y.YInt? then y.i else if y.b then 1 else 0
  }

  /**
   * NumPy's `a[key]` on an array `a` whose first axis has length `n`.  An
   * integer in [-n, n) selects one entry, a negative one counted from the end;
   * None and a bool add an axis; a non-empty list of bools is a mask of length
   * `n`; any other list is an integer index array whose entries must all lie in
   * [-n, n).  Anything else, and an integer out of range, raises IndexError.
   */
  function AxisIndex(a: Buffer, n: nat, key: Yaml): (r: Result<Buffer>)
    ensures key.YInt? ==> (r.Ok? <==> -(n as int) <= key.i < n)
    ensures key.YInt? && r.Ok? ==> r.value == Slice(a, if key.i < 0 then key.i + n else key.i)
    ensures key.YNone? || key.YBool? ==> r == Ok(Indexed(a, key))
    ensures key.YReal? || key.YStr? || key.YMap? ==> r == Err(IndexError)
    ensures key.YList? && key.items != [] && (forall k :: 0 <= k < |key.items| ==> key.items[k].YBool?) ==>
      (r.Ok? <==> |key.items| == n)
    ensures key.YList? && (exists k :: 0 <= k < |key.items| && !IntLike(key.items[k])) ==> r == Err(IndexError)
    ensures r.Ok? ==> (r.value.Slice? || r.value.Indexed?) && r.value.of == a
  {
    match key
    case YInt(i) => if -(n as int) <= i < n then Ok(Slice(a, i % n)) else Err(IndexError)
    case YNone => Ok(Indexed(a, key))
    case YBool(_) => Ok(Indexed(a, key))
    case YList(items) =>
      if items != [] && forall k :: 0 <= k < |items| ==> items[k].YBool? then
        (if |items| == n then Ok(Indexed(a, key)) else Err(IndexError))
      else if forall k :: 0 <= k < |items| ==> IntLike(items[k]) && -(n as int) <= AsInt(items[k]) < n then Ok(Indexed(a, key))
      else Err(IndexError)
    case _ => Err(IndexError)
  }

  /**
   * The stack a registration entry translates, or the exception selecting it
   * raises: a name in a fluorescence-deconvolution pipeline's map indexes the
   * deconvolved volume of its mode, anything else indexes the raw data, whose
   * channel axis has length `rawLength`.
   */
  function RegistrationSource(pipeline: Pipeline, ptData: Buffer, rawLength: nat, d2: Option<Buffer>, d3: Option<Buffer>, id: Yaml)
    : Result<Buffer>
  {
    if pipeline.kind == FluorDeconv && id.YStr? && id.s in pipeline.channelMap then
      var loc := pipeline.channelMap[id.s];
      if pipeline.mode == "3D" then (if d3.None? then Err(TypeError) else AxisIndex(d3.value, pipeline.stackCount, YInt(loc)))
      else if pipeline.mode == "2D" then (if d2.None? then Err(TypeError) else AxisIndex(d2.value, pipeline.stackCount, YInt(loc)))
      else Err(ValueError)
    else if pipeline.kind == FluorDeconv && (id.YList? || id.YMap?) then Err(TypeError)
    else AxisIndex(ptData, rawLength, id)
  }

  /** The registered stacks for entries `k` onwards. */
  function RegistrationLoop(pipeline: Pipeline, ptData: Buffer, rawLength: nat, d2: Option<Buffer>, d3: Option<Buffer>,
                            params: seq<RegistrationParam>, k: nat): Result<seq<Buffer>>
    requires k <= |params|
    decreases |params| - k
  {
    if k == |params| then Ok([])
    else
      var src :- RegistrationSource(pipeline, ptData, rawLength, d2, d3, params[k].channel);
      var rest :- RegistrationLoop(pipeline, ptData, rawLength, d2, d3, params, k + 1);
      Ok([Translated(src, params[k].shift)] + rest)
  }

  /** What `post_processing` returns: the denoised copies and the registered stacks. */
  datatype PostResult = PostResult(denoised: Denoised, registered: Option<seq<Buffer>>)

  /** The copies after the denoise entries, if there are any. */
  function DenoiseAll(bire: Option<seq<Buffer>>, d2: Option<Buffer>, d3: Option<Buffer>,
                      denoise: Option<seq<DenoiseParam>>): Result<Denoised>
  {
    if denoise.Some? && denoise.value != [] then DenoiseLoop(Copies(bire, d2, d3), denoise.value, 0, bire, d2, d3)
    else Ok(Copies(bire, d2, d3))
  }

  /** `post_processing` given the resolved parameter lists. */
  function PostProcess(pipeline: Pipeline, ptData: Buffer, rawLength: nat, d2: Option<Buffer>, d3: Option<Buffer>,
                       bire: Option<seq<Buffer>>, denoise: Option<seq<DenoiseParam>>,
                       registration: Option<seq<RegistrationParam>>): Result<PostResult>
  {
    var denoised :- DenoiseAll(bire, d2, d3, denoise);
    if registration.Some? && registration.value != [] then
      var stacks :- RegistrationLoop(pipeline, ptData, rawLength, d2, d3, registration.value, 0);
      Ok(PostResult(denoised, Some(stacks)))
    else Ok(PostResult(denoised, None))
  }

  /** The denoise loop of `post_processing`: entries overwrite slots of the copies. */
  method DenoiseCopies(params: seq<DenoiseParam>, bire: Option<seq<Buffer>>, d2: Option<Buffer>, d3: Option<Buffer>)
    returns (r: Result<Denoised>)
    ensures r == DenoiseLoop(Copies(bire, d2, d3), params, 0, bire, d2, d3)
  {
    var acc := Copies(bire, d2, d3);
    var k := 0;
    while k < |params|
      invariant 0 <= k <= |params|
      invariant DenoiseLoop(Copies(bire, d2, d3), params, 0, bire, d2, d3) == DenoiseLoop(acc, params, k, bire, d2, d3)
    {
      var next := DenoiseStep(acc, params[k], bire, d2, d3);
      if next.Err? {
        return Err(next.error);
      }
      acc := next.value;
      k := k + 1;
    }
    r := Ok(acc);
  }

  /** The registration loop of `post_processing`: one translated stack per entry. */
  method RegisterStacks(pipeline: Pipeline, ptData: Buffer, rawLength: nat, d2: Option<Buffer>, d3: Option<Buffer>,
                        params: seq<RegistrationParam>) returns (r: Result<seq<Buffer>>)
    ensures r == RegistrationLoop(pipeline, ptData, rawLength, d2, d3, params, 0)
  {
    var stacks: seq<Buffer> := [];
    var k := 0;
    ghost var whole := RegistrationLoop(pipeline, ptData, rawLength, d2, d3, params, 0);
    if whole.Ok? {
      assert [] + whole.value == whole.value;
    }
    while k < |params|
      invariant 0 <= k <= |params|
      invariant whole == ThenStacks(stacks, RegistrationLoop(pipeline, ptData, rawLength, d2, d3, params, k))
    {
      var src := RegistrationSource(pipeline, ptData, rawLength, d2, d3, params[k].channel);
      RegistrationAdvance(pipeline, ptData, rawLength, d2, d3, params, k, stacks);
      if src.Err? {
        return Err(src.error);
      }
      var stack := Translated(src.value, params[k].shift);
      stacks := stacks + [stack];
      k := k + 1;
    }
    assert stacks + [] == stacks;
    r := Ok(stacks);
  }

  function ThenStacks(done: seq<Buffer>, r: Result<seq<Buffer>>): Result<seq<Buffer>> {
    if r.Ok? then Ok(done + r.value) else r
  }

  /** One more registration entry either raises or adds its stack. */
  lemma RegistrationAdvance(pipeline: Pipeline, ptData: Buffer, rawLength: nat, d2: Option<Buffer>, d3: Option<Buffer>,
                            params: seq<RegistrationParam>, k: nat, stacks: seq<Buffer>)
    requires k < |params|
    ensures var src := RegistrationSource(pipeline, ptData, rawLength, d2, d3, params[k].channel);
      src.Err? ==> ThenStacks(stacks, RegistrationLoop(pipeline, ptData, rawLength, d2, d3, params, k)) == Err(src.error)
    ensures var src := RegistrationSource(pipeline, ptData, rawLength, d2, d3, params[k].channel);
      src.Ok? ==>
        ThenStacks(stacks, RegistrationLoop(pipeline, ptData, rawLength, d2, d3, params, k)) ==
        ThenStacks(stacks + [Translated(src.value, params[k].shift)], RegistrationLoop(pipeline, ptData, rawLength, d2, d3, params, k + 1))
  {
    var src := RegistrationSource(pipeline, ptData, rawLength, d2, d3, params[k].channel);
    var rest := RegistrationLoop(pipeline, ptData, rawLength, d2, d3, params, k + 1);
    if src.Ok? && rest.Ok? {
      var stack := Translated(src.value, params[k].shift);
      assert stacks + ([stack] + rest.value) == (stacks + [stack]) + rest.value;
    }
  }

  /** The copies, denoised when there are entries. */
  method DenoiseStage(bire: Option<seq<Buffer>>, d2: Option<Buffer>, d3: Option<Buffer>,
                      denoise: Option<seq<DenoiseParam>>) returns (r: Result<Denoised>)
    ensures r == DenoiseAll(bire, d2, d3, denoise)
  {
    if denoise.Some? && denoise.value != [] {
      r := DenoiseCopies(denoise.value, bire, d2, d3);
    } else {
      r := Ok(Copies(bire, d2, d3));
    }
  }

  /** `post_processing`: denoise into copies, then register. */
  method PostProcessing(pipeline: Pipeline, ptData: Buffer, rawLength: nat, d2: Option<Buffer>, d3: Option<Buffer>,
                        bire: Option<seq<Buffer>>, denoise: Option<seq<DenoiseParam>>,
                        registration: Option<seq<RegistrationParam>>) returns (r: Result<PostResult>)
    ensures r == PostProcess(pipeline, ptData, rawLength, d2, d3, bire, denoise, registration)
  {
    var d := DenoiseStage(bire, d2, d3, denoise);
    if d.Err? {
      return Err(d.error);
    }
    var acc := d.value;
    if registration.Some? && registration.value != [] {
      var stacks := RegisterStacks(pipeline, ptData, rawLength, d2, d3, registration.value);
      if stacks.Err? {
        return Err(stacks.error);
      }
      return Ok(PostResult(acc, Some(stacks.value)));
    }
    r := Ok(PostResult(acc, None));
  }

  // ---------------------------------------------------------------------------
  // What post-processing guarantees.

  /** The entries of `params` from `k` on that route to `route`. */
  predicate RoutesTo(param: DenoiseParam, route: Route) {
    RouteOf(param.channel) == Ok(route)
  }

  /**
   * Denoising the retardance twice keeps only the later result, and that
   * result is computed from the un-denoised retardance, not from the earlier
   * denoised one.
   */
  lemma LaterDenoiseWins(bire: seq<Buffer>, d2: Option<Buffer>, d3: Option<Buffer>, p1: DenoiseParam, p2: DenoiseParam)
    requires |bire| >= 1
    requires RoutesTo(p1, Retardance) && RoutesTo(p2, Retardance)
    ensures DenoiseLoop(Copies(Some(bire), d2, d3), [p1, p2], 0, Some(bire), d2, d3)
         == Ok(Denoised(Stacked(bire[0 := PostDenoised(Some(bire[0]), p2)]), CopyOf(d2), CopyOf(d3)))
  {
    var start := Copies(Some(bire), d2, d3);
    var first := Denoised(Stacked(bire[0 := PostDenoised(Some(bire[0]), p1)]), CopyOf(d2), CopyOf(d3));
    var second := Denoised(Stacked(bire[0 := PostDenoised(Some(bire[0]), p2)]), CopyOf(d2), CopyOf(d3));
    assert DenoiseStep(start, p1, Some(bire), d2, d3) == Ok(first);
    assert bire[0 := PostDenoised(Some(bire[0]), p1)][0 := PostDenoised(Some(bire[0]), p2)]
        == bire[0 := PostDenoised(Some(bire[0]), p2)];
    assert DenoiseStep(first, p2, Some(bire), d2, d3) == Ok(second);
    assert DenoiseLoop(second, [p1, p2], 2, Some(bire), d2, d3) == Ok(second);
  }

  /**
   * Without denoise entries post-processing hands back the plain copies: a
   * volume the pipeline returned unchanged, and for one it returned as None a
   * 0-d object array rather than None itself.
   */
  lemma UndenoisedCopies(pipeline: Pipeline, ptData: Buffer, rawLength: nat, d2: Option<Buffer>, d3: Option<Buffer>,
                         bire: Option<seq<Buffer>>, denoise: Option<seq<DenoiseParam>>,
                         registration: Option<seq<RegistrationParam>>)
    requires denoise.None? || denoise.value == []
    requires PostProcess(pipeline, ptData, rawLength, d2, d3, bire, denoise, registration).Ok?
    ensures var out := PostProcess(pipeline, ptData, rawLength, d2, d3, bire, denoise, registration).value.denoised;
      out == Copies(bire, d2, d3) &&
      (bire.None? ==> out.birefringence == NoneArray) &&
      (d2.None? ==> out.d2 == NoneArray) &&
      (d3.None? ==> out.d3 == NoneArray)
  {
  }

  /** A pipeline that returns no volumes at all still hands back three 0-d object arrays. */
  lemma NoVolumesCopiedAsArrays(pipeline: Pipeline, ptData: Buffer, rawLength: nat)
    ensures PostProcess(pipeline, ptData, rawLength, None, None, None, None, None)
         == Ok(PostResult(Denoised(NoneArray, NoneArray, NoneArray), None))
  {
  }

  /** Denoise entries only ever touch the array their channel routes to. */
  lemma {:induction false} DenoiseLoopFrame(acc: Denoised, params: seq<DenoiseParam>, k: nat,
                                            bire: Option<seq<Buffer>>, d2: Option<Buffer>, d3: Option<Buffer>)
    requires k <= |params|
    requires DenoiseLoop(acc, params, k, bire, d2, d3).Ok?
    ensures (forall j :: k <= j < |params| ==> !RoutesTo(params[j], Phase2D))
      ==> DenoiseLoop(acc, params, k, bire, d2, d3).value.d2 == acc.d2
    ensures (forall j :: k <= j < |params| ==> !RoutesTo(params[j], Phase3D))
      ==> DenoiseLoop(acc, params, k, bire, d2, d3).value.d3 == acc.d3
    ensures (forall j :: k <= j < |params| ==> RoutesTo(params[j], Phase2D) || RoutesTo(params[j], Phase3D))
      ==> DenoiseLoop(acc, params, k, bire, d2, d3).value.birefringence == acc.birefringence
    decreases |params| - k
  {
    if k < |params| {
      var next := DenoiseStep(acc, params[k], bire, d2, d3);
      DenoiseLoopFrame(next.value, params, k + 1, bire, d2, d3);
    }
  }

  /** A denoise entry whose channel names no known output raises ValueError. */
  lemma UnknownChannelRejected(acc: Denoised, param: DenoiseParam, bire: Option<seq<Buffer>>, d2: Option<Buffer>, d3: Option<Buffer>)
    requires param.channel.YStr?
    requires !Contains(param.channel.s, "Retardance") && !Contains(param.channel.s, "Orientation")
    requires !Contains(param.channel.s, "Brightfield") && !Contains(param.channel.s, "Phase2D")
    requires !Contains(param.channel.s, "Phase3D")
    ensures DenoiseStep(acc, param, bire, d2, d3) == Err(ValueError)
  {
  }

  /**
   * Registration yields one stack per entry, in entry order: for a
   * fluorescence-deconvolution pipeline a name in its map selects that stack of
   * the deconvolved volume of its mode; any other integer identifier selects
   * that channel of the raw data.
   */
  lemma {:induction false} RegistrationOrder(pipeline: Pipeline, ptData: Buffer, rawLength: nat, d2: Option<Buffer>, d3: Option<Buffer>,
                                             params: seq<RegistrationParam>, k: nat)
    requires k <= |params|
    requires RegistrationLoop(pipeline, ptData, rawLength, d2, d3, params, k).Ok?
    ensures |RegistrationLoop(pipeline, ptData, rawLength, d2, d3, params, k).value| == |params| - k
    ensures forall i :: k <= i < |params| ==>
      RegistrationSource(pipeline, ptData, rawLength, d2, d3, params[i].channel).Ok? &&
      RegistrationLoop(pipeline, ptData, rawLength, d2, d3, params, k).value[i - k] ==
        Translated(RegistrationSource(pipeline, ptData, rawLength, d2, d3, params[i].channel).value, params[i].shift)
    decreases |params| - k
  {
    if k < |params| {
      RegistrationOrder(pipeline, ptData, rawLength, d2, d3, params, k + 1);
      var src := RegistrationSource(pipeline, ptData, rawLength, d2, d3, params[k].channel);
      var rest := RegistrationLoop(pipeline, ptData, rawLength, d2, d3, params, k + 1);
      var stacks := RegistrationLoop(pipeline, ptData, rawLength, d2, d3, params, k).value;
      assert stacks == [Translated(src.value, params[k].shift)] + rest.value;
      forall i | k + 1 <= i < |params|
        ensures stacks[i - k] ==
          Translated(RegistrationSource(pipeline, ptData, rawLength, d2, d3, params[i].channel).value, params[i].shift)
      {
        assert stacks[i - k] == rest.value[i - (k + 1)];
      }
    }
  }

  /**
   * Without a fluorescence-deconvolution pipeline every identifier indexes the
   * raw data: an integer selects a channel exactly when it lies in
   * [-rawLength, rawLength), and otherwise raises IndexError.
   */
  lemma RawSourceOutsideFluorDeconv(pipeline: Pipeline, ptData: Buffer, rawLength: nat, d2: Option<Buffer>, d3: Option<Buffer>, id: Yaml)
    requires pipeline.kind != FluorDeconv
    ensures RegistrationSource(pipeline, ptData, rawLength, d2, d3, id) == AxisIndex(ptData, rawLength, id)
    ensures id.YInt? ==>
      RegistrationSource(pipeline, ptData, rawLength, d2, d3, id)
        == if -(rawLength as int) <= id.i < rawLength then Ok(Slice(ptData, if id.i < 0 then id.i + rawLength else id.i))
           else Err(IndexError)
  {
  }

  /**
   * A name in a fluorescence-deconvolution pipeline's map selects its stack of
   * the deconvolved volume of the pipeline's mode, and raises IndexError when
   * the map points past the stacks that volume holds.
   */
  lemma DeconvolvedSource(pipeline: Pipeline, ptData: Buffer, rawLength: nat, d2: Option<Buffer>, d3: Option<Buffer>, name: string)
    requires pipeline.kind == FluorDeconv && name in pipeline.channelMap
    ensures var loc := pipeline.channelMap[name];
      var volume := if pipeline.mode == "3D" then d3 else d2;
      RegistrationSource(pipeline, ptData, rawLength, d2, d3, YStr(name)) ==
        if pipeline.mode != "3D" && pipeline.mode != "2D" then Err(ValueError)
        else if volume.None? then Err(TypeError)
        else if loc < pipeline.stackCount then Ok(Slice(volume.value, loc))
        else Err(IndexError)
  {
  }

  /** A negative index counts from the end of the axis. */
  lemma NegativeIndexFromEnd(a: Buffer, n: nat, k: nat)
    requires 0 < k <= n
    ensures AxisIndex(a, n, YInt(-(k as int))) == AxisIndex(a, n, YInt(n - k))
  {
  }

  /**
   * Registering a four-channel raw volume with `channel_idx: [7]` raises
   * IndexError, whatever the pipeline.
   */
  lemma ChannelPastRawRejected(pipeline: Pipeline, ptData: Buffer, d2: Option<Buffer>, d3: Option<Buffer>)
    requires pipeline.kind != FluorDeconv
    ensures RegistrationSource(pipeline, ptData, 4, d2, d3, YList([YInt(7)])) == Err(IndexError)
  {
    var key := YList([YInt(7)]);
    assert !(-4 <= AsInt(key.items[0]) < 4);
  }

  /** An empty or absent registration list yields no stacks at all. */
  lemma NoRegistrationNoStacks(pipeline: Pipeline, ptData: Buffer, rawLength: nat, d2: Option<Buffer>, d3: Option<Buffer>,
                               bire: Option<seq<Buffer>>, denoise: Option<seq<DenoiseParam>>,
                               registration: Option<seq<RegistrationParam>>)
    requires registration.None? || registration.value == []
    requires PostProcess(pipeline, ptData, rawLength, d2, d3, bire, denoise, registration).Ok?
    ensures PostProcess(pipeline, ptData, rawLength, d2, d3, bire, denoise, registration).value.registered.None?
  {
  }
}
