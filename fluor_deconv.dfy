/**
 * Fluorescence deconvolution, up to the call into the reconstructor: how the
 * arguments of `initialize_fluorescence_reconstructor` are normalised, how
 * many background values `calculate_background` produces, and which arrays
 * the 2-D and 3-D deconvolutions accept and how they reorder their axes.
 *
 * An array is described by its shape.  The reconstructor, the deconvolution
 * itself and the per-channel background average are foreign numerical code:
 * the first two are left out, the average is a parameter.
 */
module Deconvolution {
  import opened Common

  // ---------------------------------------------------------------------------
  // Axis permutations, as `numpy.transpose` applies them

  /** `axes` lists every axis of an `n`-dimensional array exactly once. */
  predicate IsPermutation(axes: seq<nat>, n: nat) {
    && |axes| == n
    && (forall i :: 0 <= i < n ==> axes[i] < n)
    && (forall k :: 0 <= k < n ==> k in axes)
    && (forall i, j :: 0 <= i < j < n ==> axes[i] != axes[j])
  }

  /** The shape of `numpy.transpose(a, axes)`: axis `i` of the result is axis `axes[i]` of `a`. */
  function Permute<T>(shape: seq<T>, axes: seq<nat>): (r: seq<T>)
    requires forall i :: 0 <= i < |axes| ==> axes[i] < |shape|
    ensures |r| == |axes|
  {
    seq(|axes|, i requires 0 <= i < |axes| => shape[axes[i]])
  }

  /** Where axis `k` went: the position of `k` in `axes`. */
  function Position(axes: seq<nat>, k: nat): (i: nat)
    requires k in axes
    ensures i < |axes| && axes[i] == k
    ensures forall j :: 0 <= j < i ==> axes[j] != k
  {
    if axes[0] == k then 0 else 1 + Position(axes[1..], k)
  }

  /** The permutation that undoes `axes`. */
  function Inverse(axes: seq<nat>): (r: seq<nat>)
    requires IsPermutation(axes, |axes|)
    ensures |r| == |axes|
  {
    seq(|axes|, k requires 0 <= k < |axes| => Position(axes, k))
  }

  lemma InverseIsPermutation(axes: seq<nat>)
    requires IsPermutation(axes, |axes|)
    ensures IsPermutation(Inverse(axes), |axes|)
  {
    var inv := Inverse(axes);
    forall i | 0 <= i < |axes|
      ensures i in inv
    {
      assert inv[axes[i]] == Position(axes, axes[i]);
      assert inv[axes[i]] == i;
    }
  }

  /** Transposing by `axes` and then by its inverse gives the original shape back. */
  lemma PermuteThenInverse<T>(shape: seq<T>, axes: seq<nat>)
    requires IsPermutation(axes, |shape|)
    ensures Permute(Permute(shape, axes), Inverse(axes)) == shape
  {
    var once := Permute(shape, axes);
    var back := Permute(once, Inverse(axes));
    forall k | 0 <= k < |shape|
      ensures back[k] == shape[k]
    {
      var p := Position(axes, k);
      assert back[k] == once[p] == shape[axes[p]];
    }
  }

  /** Transposing by the inverse and then by `axes` gives the original shape back. */
  lemma InverseThenPermute<T>(shape: seq<T>, axes: seq<nat>)
    requires IsPermutation(axes, |shape|)
    ensures Permute(Permute(shape, Inverse(axes)), axes) == shape
  {
    var inv := Inverse(axes);
    var once := Permute(shape, inv);
    var back := Permute(once, axes);
    forall i | 0 <= i < |shape|
      ensures back[i] == shape[i]
    {
      var p := Position(axes, axes[i]);
      assert p == i;
      assert back[i] == once[axes[i]] == shape[inv[axes[i]]];
    }
  }

  /** (Z, Y, X) to (Y, X, Z): the reordering of `img_dim` and of a 3-D volume. */
  const ZyxToYxz: seq<nat> := [1, 2, 0]

  /** (N, Z, Y, X) to (N, Y, X, Z): the reordering of a stack of volumes. */
  const StackToYxz: seq<nat> := [0, 2, 3, 1]

  lemma ZyxToYxzUndone()
    ensures IsPermutation(ZyxToYxz, 3)
    ensures Inverse(ZyxToYxz) == [2, 0, 1]
  {
    var axes := ZyxToYxz;
    assert axes[0] == 1 && axes[1] == 2 && axes[2] == 0;
    assert forall k :: 0 <= k < 3 ==> k in axes by {
      assert 0 == axes[2] && 1 == axes[0] && 2 == axes[1];
    }
    assert Position(axes, 0) == 2;
    assert Position(axes, 1) == 0;
    assert Position(axes, 2) == 1;
  }

  lemma StackToYxzUndone()
    ensures IsPermutation(StackToYxz, 4)
    ensures Inverse(StackToYxz) == [0, 3, 1, 2]
  {
    var axes := StackToYxz;
    assert axes[0] == 0 && axes[1] == 2 && axes[2] == 3 && axes[3] == 1;
    assert forall k :: 0 <= k < 4 ==> k in axes by {
      assert 0 == axes[0] && 1 == axes[3] && 2 == axes[1] && 3 == axes[2];
    }
    assert Position(axes, 0) == 0;
    assert Position(axes, 1) == 3;
    assert Position(axes, 2) == 1;
    assert Position(axes, 3) == 2;
  }

  // ---------------------------------------------------------------------------
  // initialize_fluorescence_reconstructor

  /** What the reconstructor is built from. */
  datatype Settings = Settings(
    imgDim: seq<nat>,          // (Y, X, Z)
    lambdaEmiss: seq<real>,    // emission wavelengths in micrometres
    ps: real,
    psz: real,
    naObj: real,
    nMedia: real,
    deconvMode: string,        // "2D-WF" or "3D-WF"
    padZ: int,
    useGpu: bool,
    gpuId: int)

  /**
   * The wavelength argument as a list: a list stays as it is, a scalar int or
   * float (a bool is an int in Python) becomes a one-element list, anything
   * else raises ValueError.
   */
  function WavelengthList(wavelength: Yaml): (r: Result<seq<Yaml>>)
    ensures r.Ok? <==> wavelength.YList? || wavelength.YInt? || wavelength.YReal? || wavelength.YBool?
    ensures r.Err? ==> r.error == ValueError
    ensures wavelength.YList? ==> r == Ok(wavelength.items)
    ensures r.Ok? && !wavelength.YList? ==> r.value == [wavelength]
  {
    match wavelength
    case YList(items) => Ok(items)
    case YInt(_) => Ok([wavelength])
    case YReal(_) => Ok([wavelength])
    case YBool(_) => Ok([wavelength])
    case _ => Err(ValueError)
  }

  /** A number NumPy divides: a bool, an int or a float. */
  function Number(y: Yaml): Option<real> {
    match y
    case YBool(b) => Some(if b then 1.0 else 0.0)
    case YInt(i) => Some(i as real)
    case YReal(x) => Some(x)
    case _ => None
  }

  /** `wavelength_nm / 1000` on the array: each entry converted from nanometres to micrometres. */
  function Micrometres(nm: seq<Yaml>): (r: Result<seq<real>>)
    ensures r.Ok? <==> forall i :: 0 <= i < |nm| ==> Number(nm[i]).Some?
    ensures r.Err? ==> r.error == TypeError
    ensures r.Ok? ==> |r.value| == |nm| && forall i :: 0 <= i < |nm| ==> r.value[i] * 1000.0 == Number(nm[i]).value
    decreases |nm|
  {
    if nm == [] then Ok([])
    else match Number(nm[0])
      case None => Err(TypeError)
      case Some(x) =>
        match Micrometres(nm[1..])
        case Err(e) => Err(e)
        case Ok(rest) =>
          assert forall i :: 1 <= i < |nm| ==> nm[i] == nm[1..][i - 1];
          Ok([x / 1000.0] + rest)
  }

  /**
   * `initialize_fluorescence_reconstructor`: the settings handed to the
   * reconstructor, or the exception raised first.
   */
  function InitReconstructor(imgDim: seq<nat>, wavelength: Yaml, ps: real, psz: real, naObj: real, mode: string,
                             nMedia: real, padZ: int, useGpu: bool, gpuId: int): (r: Result<Settings>)
  {
    if |imgDim| < 3 then Err(IndexError)
    else
      var dims := [imgDim[1], imgDim[2], imgDim[0]];
      if mode != "2D" && mode != "3D" then Err(ValueError)
      else
        var deconvMode := if mode == "2D" then "2D-WF" else "3D-WF";
        match WavelengthList(wavelength)
        case Err(e) => Err(e)
        case Ok(nm) =>
          match Micrometres(nm)
          case Err(e) => Err(e)
          case Ok(um) => Ok(Settings(dims, um, ps, psz, naObj, nMedia, deconvMode, padZ, useGpu, gpuId))
  }

  /** Every wavelength given, scalar or list, is a number. */
  predicate Numeric(wavelength: Yaml) {
    WavelengthList(wavelength).Ok? && forall i :: 0 <= i < |WavelengthList(wavelength).value| ==>
      Number(WavelengthList(wavelength).value[i]).Some?
  }

  /**
   * The reconstructor is initialised exactly when `img_dim` has three entries,
   * the mode is "2D" or "3D" and the wavelengths are numbers; the failures come
   * in that order.
   */
  lemma InitReconstructorOutcome(imgDim: seq<nat>, wavelength: Yaml, ps: real, psz: real, naObj: real, mode: string,
                                 nMedia: real, padZ: int, useGpu: bool, gpuId: int)
    ensures var r := InitReconstructor(imgDim, wavelength, ps, psz, naObj, mode, nMedia, padZ, useGpu, gpuId);
      && (r.Ok? <==> |imgDim| >= 3 && (mode == "2D" || mode == "3D") && Numeric(wavelength))
      && (|imgDim| < 3 ==> r == Err(IndexError))
      && (|imgDim| >= 3 && mode != "2D" && mode != "3D" ==> r == Err(ValueError))
      && (|imgDim| >= 3 && (mode == "2D" || mode == "3D") && WavelengthList(wavelength).Err? ==> r == Err(ValueError))
      && (|imgDim| >= 3 && (mode == "2D" || mode == "3D") && WavelengthList(wavelength).Ok? && !Numeric(wavelength) ==>
            r == Err(TypeError))
  {
  }

  /**
   * Once initialised, the reconstructor holds the dimensions as (Y, X, Z), the
   * "-WF" mode matching the one asked for, the wavelengths in micrometres in the
   * order given, and the other settings unchanged.
   */
  lemma InitReconstructorSettings(imgDim: seq<nat>, wavelength: Yaml, ps: real, psz: real, naObj: real, mode: string,
                                  nMedia: real, padZ: int, useGpu: bool, gpuId: int)
    requires InitReconstructor(imgDim, wavelength, ps, psz, naObj, mode, nMedia, padZ, useGpu, gpuId).Ok?
    ensures var s := InitReconstructor(imgDim, wavelength, ps, psz, naObj, mode, nMedia, padZ, useGpu, gpuId).value;
      && s.imgDim == Permute(imgDim[..3], ZyxToYxz)
      && (s.deconvMode == "2D-WF" <==> mode == "2D")
      && (s.deconvMode == "3D-WF" <==> mode == "3D")
      && |s.lambdaEmiss| == |WavelengthList(wavelength).value|
      && (forall i :: 0 <= i < |s.lambdaEmiss| ==> s.lambdaEmiss[i] * 1000.0 == Number(WavelengthList(wavelength).value[i]).value)
      && s.ps == ps && s.psz == psz && s.naObj == naObj && s.nMedia == nMedia
      && s.padZ == padZ && s.useGpu == useGpu && s.gpuId == gpuId
  {
    var s := InitReconstructor(imgDim, wavelength, ps, psz, naObj, mode, nMedia, padZ, useGpu, gpuId).value;
    assert s.imgDim == [imgDim[1], imgDim[2], imgDim[0]];
    assert "2D-WF"[0] == '2' && "3D-WF"[0] == '3';
  }

  /** A single wavelength gives a single emission wavelength, that number over a thousand. */
  lemma ScalarWavelength(imgDim: seq<nat>, nm: int, ps: real, psz: real, naObj: real, mode: string,
                         nMedia: real, padZ: int, useGpu: bool, gpuId: int)
    requires |imgDim| >= 3 && (mode == "2D" || mode == "3D")
    ensures var r := InitReconstructor(imgDim, YInt(nm), ps, psz, naObj, mode, nMedia, padZ, useGpu, gpuId);
      r.Ok? && r.value.lambdaEmiss == [nm as real / 1000.0]
  {
    var r := InitReconstructor(imgDim, YInt(nm), ps, psz, naObj, mode, nMedia, padZ, useGpu, gpuId);
    var um := Micrometres([YInt(nm)]);
    assert um.Ok? && |um.value| == 1 && um.value[0] * 1000.0 == nm as real;
    assert um.value == [nm as real / 1000.0];
  }

  // ---------------------------------------------------------------------------
  // calculate_background

  /** How many channels `calculate_background` averages: ValueError unless the data is 2-D or 3-D. */
  function Channels(shape: seq<nat>): Result<nat> {
    if |shape| == 3 then Ok(shape[0])
    else if |shape| == 2 then Ok(1)
    else Err(ValueError)
  }

  /**
   * `calculate_background`: one value per channel, in channel order.  The
   * average over a channel's darkest pixels is `average(i)`.
   */
  method CalculateBackground(shape: seq<nat>, average: nat -> real) returns (r: Result<seq<real>>)
    ensures r.Ok? <==> Channels(shape).Ok?
    ensures r.Err? ==> r.error == ValueError
    ensures r.Ok? ==> |r.value| == Channels(shape).value
    ensures r.Ok? ==> forall i :: 0 <= i < |r.value| ==> r.value[i] == average(i)
  {
    var fluors: nat;
    if |shape| == 3 {
      fluors := shape[0];
    } else if |shape| == 2 {
      fluors := 1;
    } else {
      return Err(ValueError);
    }
    var values: seq<real> := [];
    var i := 0;
    while i < fluors
      invariant 0 <= i <= fluors
      invariant |values| == i
      invariant forall j :: 0 <= j < i ==> values[j] == average(j)
    {
      values := values + [average(i)];
      i := i + 1;
    }
    return Ok(values);
  }

  // ---------------------------------------------------------------------------
  // deconvolve_fluorescence_2D and deconvolve_fluorescence_3D

  /** The shape handed to `deconvolve_fluor_2D`: the data as it is, unless it has more than three axes. */
  function Process2D(shape: seq<nat>): (r: Result<seq<nat>>)
    ensures r.Ok? <==> |shape| <= 3
    ensures r.Ok? ==> r.value == shape
    ensures r.Err? ==> r.error == ValueError
  {
    if |shape| > 3 then Err(ValueError) else Ok(shape)
  }

  /** The shape handed to `deconvolve_fluor_3D`: (N, Z, Y, X) or (Z, Y, X) transposed to put Z last. */
  function Process3D(shape: seq<nat>): (r: Result<seq<nat>>)
  {
    if |shape| == 4 then Ok(Permute(shape, StackToYxz))
    else if |shape| == 3 then Ok(Permute(shape, ZyxToYxz))
    else Err(ValueError)
  }

  /**
   * The 3-D deconvolution accepts a volume or a stack of volumes, keeps the
   * channel axis first and moves Z from before Y and X to after them.
   */
  lemma Process3DShape(shape: seq<nat>)
    ensures Process3D(shape).Ok? <==> |shape| == 3 || |shape| == 4
    ensures Process3D(shape).Err? ==> Process3D(shape).error == ValueError
    ensures |shape| == 3 ==> Process3D(shape).value == [shape[1], shape[2], shape[0]]
    ensures |shape| == 4 ==> Process3D(shape).value == [shape[0], shape[2], shape[3], shape[1]]
  {
  }

  /** The axes of the volume handed over can be put back in their original order. */
  lemma Process3DReversible(shape: seq<nat>)
    requires |shape| == 3 || |shape| == 4
    ensures |shape| == 3 ==> Permute(Process3D(shape).value, [2, 0, 1]) == shape
    ensures |shape| == 4 ==> Permute(Process3D(shape).value, [0, 3, 1, 2]) == shape
  {
    if |shape| == 3 {
      ZyxToYxzUndone();
      PermuteThenInverse(shape, ZyxToYxz);
    } else {
      StackToYxzUndone();
      PermuteThenInverse(shape, StackToYxz);
    }
  }

  /**
   * A (Z, Y, X) volume whose shape initialised the reconstructor reaches the
   * 3-D deconvolution with exactly the reconstructor's (Y, X, Z) dimensions;
   * for a stack, every volume after the channel axis does.
   */
  lemma VolumeMatchesReconstructor(shape: seq<nat>, wavelength: Yaml, ps: real, psz: real, naObj: real, mode: string,
                                   nMedia: real, padZ: int, useGpu: bool, gpuId: int)
    requires |shape| == 3 || |shape| == 4
    requires var dims := if |shape| == 4 then shape[1..] else shape;
      InitReconstructor(dims, wavelength, ps, psz, naObj, mode, nMedia, padZ, useGpu, gpuId).Ok?
    ensures var dims := if |shape| == 4 then shape[1..] else shape;
      var s := InitReconstructor(dims, wavelength, ps, psz, naObj, mode, nMedia, padZ, useGpu, gpuId).value;
      var handed := Process3D(shape).value;
      if |shape| == 4 then handed[1..] == s.imgDim && handed[0] == shape[0] else handed == s.imgDim
  {
    var dims := if |shape| == 4 then shape[1..] else shape;
    InitReconstructorSettings(dims, wavelength, ps, psz, naObj, mode, nMedia, padZ, useGpu, gpuId);
    Process3DShape(shape);
    assert dims[..3] == dims;
  }

  /**
   * For (N, Y, X) data the background list and the 2-D deconvolution agree on
   * the channel count: one background value for each of the N images handed over.
   */
  lemma BackgroundPerChannel(shape: seq<nat>)
    requires |shape| == 3
    ensures Channels(shape) == Ok(shape[0])
    ensures Process2D(shape) == Ok(shape) && Process2D(shape).value[0] == Channels(shape).value
  {
  }
}
