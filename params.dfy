/**
 * `PipelineManager._get_preprocessing_params` and `_get_postprocessing_params`:
 * expanding the denoise and registration settings of the configuration into
 * per-channel parameter lists.
 *
 * Each setting is whatever value the configuration holds (a YAML value), and
 * every list access is Python's: `len` of None raises TypeError, an index past
 * the end raises IndexError.
 */
module Params {
  import opened Common

  /** The denoise settings of one processing stage. */
  datatype DenoiseConfig = DenoiseConfig(use: Yaml, channels: Yaml, threshold: Yaml, level: Yaml)

  /** The registration settings of the post-processing stage. */
  datatype RegistrationConfig = RegistrationConfig(use: Yaml, channelIdx: Yaml, shift: Yaml)

  /** One `[channel, threshold, level]` entry. */
  datatype DenoiseParam = DenoiseParam(channel: Yaml, threshold: Yaml, level: Yaml)

  /** One `[channel_idx, shift]` entry. */
  datatype RegistrationParam = RegistrationParam(channel: Yaml, shift: Yaml)

  const DefaultThreshold: Yaml := YReal(0.1)
  const DefaultLevel: Yaml := YInt(1)

  /** The `i`-th threshold: the default only when the whole setting is None. */
  function ThresholdAt(cfg: DenoiseConfig, i: nat): Result<Yaml> {
    if cfg.threshold == YNone then Ok(DefaultThreshold) else PyItem(cfg.threshold, i)
  }

  /** The `i`-th level: the default only when the whole setting is None. */
  function LevelAt(cfg: DenoiseConfig, i: nat): Result<Yaml> {
    if cfg.level == YNone then Ok(DefaultLevel) else PyItem(cfg.level, i)
  }

  /** The entries for channels `i` to `n - 1`, in the order the loop builds them. */
  function DenoiseFrom(cfg: DenoiseConfig, i: nat, n: nat): Result<seq<DenoiseParam>>
    requires i <= n
    decreases n - i
  {
    if i == n then Ok([])
    else
      var threshold :- ThresholdAt(cfg, i);
      var level :- LevelAt(cfg, i);
      var channel :- PyItem(cfg.channels, i);
      var rest :- DenoiseFrom(cfg, i + 1, n);
      Ok([DenoiseParam(channel, threshold, level)] + rest)
  }

  /** The denoise parameter list, None when the stage's use flag is falsy. */
  function DenoiseParams(cfg: DenoiseConfig): Result<Option<seq<DenoiseParam>>> {
    if !Truthy(cfg.use) then Ok(None)
    else
      var n :- PyLen(cfg.channels);
      var ps :- DenoiseFrom(cfg, 0, n);
      Ok(Some(ps))
  }

  /** The entries for indices `i` to `n - 1`. */
  function RegistrationFrom(cfg: RegistrationConfig, i: nat, n: nat): Result<seq<RegistrationParam>>
    requires i <= n
    decreases n - i
  {
    if i == n then Ok([])
    else
      var channel :- PyItem(cfg.channelIdx, i);
      var shift :- PyItem(cfg.shift, i);
      var rest :- RegistrationFrom(cfg, i + 1, n);
      Ok([RegistrationParam(channel, shift)] + rest)
  }

  /** The registration parameter list, None when the use flag is falsy. */
  function RegistrationParams(cfg: RegistrationConfig): Result<Option<seq<RegistrationParam>>> {
    if !Truthy(cfg.use) then Ok(None)
    else
      var n :- PyLen(cfg.channelIdx);
      var ps :- RegistrationFrom(cfg, 0, n);
      Ok(Some(ps))
  }

  function PrependDenoise(done: seq<DenoiseParam>, r: Result<seq<DenoiseParam>>): Result<seq<DenoiseParam>> {
    if r.Ok? then Ok(done + r.value) else r
  }

  function PrependRegistration(done: seq<RegistrationParam>, r: Result<seq<RegistrationParam>>)
    : Result<seq<RegistrationParam>>
  {
    if r.Ok? then Ok(done + r.value) else r
  }

  /** The loop of `_get_preprocessing_params` (and of the denoise half of `_get_postprocessing_params`). */
  method ResolveDenoise(cfg: DenoiseConfig) returns (r: Result<Option<seq<DenoiseParam>>>)
    ensures r == DenoiseParams(cfg)
  {
    if !Truthy(cfg.use) {
      return Ok(None);
    }
    var len := PyLen(cfg.channels);
    if len.Err? {
      return Err(len.error);
    }
    var n := len.value;
    var params: seq<DenoiseParam> := [];
    var i := 0;
    if DenoiseFrom(cfg, 0, n).Ok? {
      assert [] + DenoiseFrom(cfg, 0, n).value == DenoiseFrom(cfg, 0, n).value;
    }
    while i < n
      invariant 0 <= i <= n
      invariant DenoiseFrom(cfg, 0, n) == PrependDenoise(params, DenoiseFrom(cfg, i, n))
    {
      var threshold := ThresholdAt(cfg, i);
      if threshold.Err? {
        return Err(threshold.error);
      }
      var level := LevelAt(cfg, i);
      if level.Err? {
        return Err(level.error);
      }
      var channel := PyItem(cfg.channels, i);
      if channel.Err? {
        return Err(channel.error);
      }
      var p := DenoiseParam(channel.value, threshold.value, level.value);
      var rest := DenoiseFrom(cfg, i + 1, n);
      if rest.Ok? {
        assert params + ([p] + rest.value) == (params + [p]) + rest.value;
      }
      params := params + [p];
      i := i + 1;
    }
    assert params + [] == params;
    r := Ok(Some(params));
  }

  /** The registration loop of `_get_postprocessing_params`. */
  method ResolveRegistration(cfg: RegistrationConfig) returns (r: Result<Option<seq<RegistrationParam>>>)
    ensures r == RegistrationParams(cfg)
  {
    if !Truthy(cfg.use) {
      return Ok(None);
    }
    var len := PyLen(cfg.channelIdx);
    if len.Err? {
      return Err(len.error);
    }
    var n := len.value;
    var params: seq<RegistrationParam> := [];
    var i := 0;
    if RegistrationFrom(cfg, 0, n).Ok? {
      assert [] + RegistrationFrom(cfg, 0, n).value == RegistrationFrom(cfg, 0, n).value;
    }
    while i < n
      invariant 0 <= i <= n
      invariant RegistrationFrom(cfg, 0, n) == PrependRegistration(params, RegistrationFrom(cfg, i, n))
    {
      var channel := PyItem(cfg.channelIdx, i);
      if channel.Err? {
        return Err(channel.error);
      }
      var shift := PyItem(cfg.shift, i);
      if shift.Err? {
        return Err(shift.error);
      }
      var p := RegistrationParam(channel.value, shift.value);
      var rest := RegistrationFrom(cfg, i + 1, n);
      if rest.Ok? {
        assert params + ([p] + rest.value) == (params + [p]) + rest.value;
      }
      params := params + [p];
      i := i + 1;
    }
    assert params + [] == params;
    r := Ok(Some(params));
  }

  /**
   * `_get_postprocessing_params`: the denoise list first (its exception wins),
   * then the registration list.
   */
  method ResolvePostprocessing(denoise: DenoiseConfig, registration: RegistrationConfig)
    returns (r: Result<(Option<seq<DenoiseParam>>, Option<seq<RegistrationParam>>)>)
    ensures DenoiseParams(denoise).Err? ==> r == Err(DenoiseParams(denoise).error)
    ensures DenoiseParams(denoise).Ok? && RegistrationParams(registration).Err? ==>
      r == Err(RegistrationParams(registration).error)
    ensures DenoiseParams(denoise).Ok? && RegistrationParams(registration).Ok? ==>
      r == Ok((DenoiseParams(denoise).value, RegistrationParams(registration).value))
  {
    var d := ResolveDenoise(denoise);
    if d.Err? {
      return Err(d.error);
    }
    var g := ResolveRegistration(registration);
    if g.Err? {
      return Err(g.error);
    }
    r := Ok((d.value, g.value));
  }

  // ---------------------------------------------------------------------------
  // What the resolved lists contain.

  /** A setting is either None or a list. */
  predicate NoneOrList(y: Yaml) { y == YNone || y.YList? }

  /** A None setting stands for "long enough"; a list must cover `n` channels. */
  predicate Covers(y: Yaml, n: nat) { y == YNone || (y.YList? && |y.items| >= n) }

  /** The `i`-th entry as the source promises it: defaults only for a None list. */
  function ExpectedDenoise(cfg: DenoiseConfig, i: nat): DenoiseParam
    requires cfg.channels.YList? && i < |cfg.channels.items|
    requires Covers(cfg.threshold, |cfg.channels.items|) && Covers(cfg.level, |cfg.channels.items|)
  {
    DenoiseParam(
      cfg.channels.items[i],
      if cfg.threshold == YNone then DefaultThreshold else cfg.threshold.items[i],
      if cfg.level == YNone then DefaultLevel else cfg.level.items[i])
  }

  lemma {:induction false} DenoiseFromEntries(cfg: DenoiseConfig, i: nat)
    requires cfg.channels.YList? && i <= |cfg.channels.items|
    requires Covers(cfg.threshold, |cfg.channels.items|) && Covers(cfg.level, |cfg.channels.items|)
    ensures var n := |cfg.channels.items|;
      DenoiseFrom(cfg, i, n).Ok? &&
      |DenoiseFrom(cfg, i, n).value| == n - i &&
      forall k :: 0 <= k < n - i ==> DenoiseFrom(cfg, i, n).value[k] == ExpectedDenoise(cfg, i + k)
    decreases |cfg.channels.items| - i
  {
    if i < |cfg.channels.items| {
      DenoiseFromEntries(cfg, i + 1);
    }
  }

  /**
   * With a used stage, a channel list and threshold/level settings that are
   * None or long enough, there is one entry per channel, in channel order; the
   * defaults 0.1 and 1 appear only where the whole setting is None, and a None
   * element of a threshold list is passed on as given.
   */
  lemma DenoiseParamsEntries(cfg: DenoiseConfig)
    requires Truthy(cfg.use) && cfg.channels.YList?
    requires Covers(cfg.threshold, |cfg.channels.items|) && Covers(cfg.level, |cfg.channels.items|)
    ensures DenoiseParams(cfg).Ok? && DenoiseParams(cfg).value.Some?
    ensures var ps := DenoiseParams(cfg).value.value;
      |ps| == |cfg.channels.items| &&
      forall i :: 0 <= i < |ps| ==> ps[i] == ExpectedDenoise(cfg, i)
  {
    DenoiseFromEntries(cfg, 0);
  }

  /** A threshold or level list shorter than the channel list raises IndexError. */
  lemma DenoiseShortList(cfg: DenoiseConfig)
    requires Truthy(cfg.use) && cfg.channels.YList?
    requires NoneOrList(cfg.threshold) && NoneOrList(cfg.level)
    requires !(Covers(cfg.threshold, |cfg.channels.items|) && Covers(cfg.level, |cfg.channels.items|))
    ensures DenoiseParams(cfg) == Err(IndexError)
  {
    DenoiseShortFrom(cfg, 0);
  }

  lemma {:induction false} DenoiseShortFrom(cfg: DenoiseConfig, i: nat)
    requires cfg.channels.YList? && i <= |cfg.channels.items|
    requires NoneOrList(cfg.threshold) && NoneOrList(cfg.level)
    requires (cfg.threshold.YList? && i <= |cfg.threshold.items| < |cfg.channels.items|)
          || (cfg.level.YList? && i <= |cfg.level.items| < |cfg.channels.items|)
    ensures DenoiseFrom(cfg, i, |cfg.channels.items|) == Err(IndexError)
    decreases |cfg.channels.items| - i
  {
    if i < |cfg.channels.items| {
      if !(cfg.threshold.YList? && |cfg.threshold.items| == i) && !(cfg.level.YList? && |cfg.level.items| == i) {
        DenoiseShortFrom(cfg, i + 1);
      }
    }
  }

  /** A used stage without a channel list fails on `len(None)`; an unused stage resolves to None. */
  lemma DenoiseUseAndChannels(cfg: DenoiseConfig)
    ensures !Truthy(cfg.use) ==> DenoiseParams(cfg) == Ok(None)
    ensures Truthy(cfg.use) && cfg.channels == YNone ==> DenoiseParams(cfg) == Err(TypeError)
  {
  }

  lemma {:induction false} RegistrationFromEntries(cfg: RegistrationConfig, i: nat)
    requires cfg.channelIdx.YList? && cfg.shift.YList? && i <= |cfg.channelIdx.items| <= |cfg.shift.items|
    ensures var n := |cfg.channelIdx.items|;
      RegistrationFrom(cfg, i, n).Ok? && |RegistrationFrom(cfg, i, n).value| == n - i &&
      forall k :: 0 <= k < n - i ==>
        RegistrationFrom(cfg, i, n).value[k] == RegistrationParam(cfg.channelIdx.items[i + k], cfg.shift.items[i + k])
    decreases |cfg.channelIdx.items| - i
  {
    if i < |cfg.channelIdx.items| {
      RegistrationFromEntries(cfg, i + 1);
    }
  }

  lemma {:induction false} RegistrationShortFrom(cfg: RegistrationConfig, i: nat)
    requires cfg.channelIdx.YList? && cfg.shift.YList? && i <= |cfg.shift.items| < |cfg.channelIdx.items|
    ensures RegistrationFrom(cfg, i, |cfg.channelIdx.items|) == Err(IndexError)
    decreases |cfg.channelIdx.items| - i
  {
    if i < |cfg.shift.items| {
      RegistrationShortFrom(cfg, i + 1);
    }
  }

  /**
   * With both settings lists, the entries pair `channel_idx[i]` with
   * `shift[i]` in order, and a shift list shorter than the index list raises
   * IndexError.
   */
  lemma RegistrationParamsEntries(cfg: RegistrationConfig)
    requires Truthy(cfg.use) && cfg.channelIdx.YList? && cfg.shift.YList?
    ensures |cfg.shift.items| < |cfg.channelIdx.items| ==> RegistrationParams(cfg) == Err(IndexError)
    ensures |cfg.shift.items| >= |cfg.channelIdx.items| ==>
      RegistrationParams(cfg).Ok? && RegistrationParams(cfg).value.Some? &&
      |RegistrationParams(cfg).value.value| == |cfg.channelIdx.items| &&
      forall i :: 0 <= i < |cfg.channelIdx.items| ==>
        RegistrationParams(cfg).value.value[i] == RegistrationParam(cfg.channelIdx.items[i], cfg.shift.items[i])
  {
    if |cfg.shift.items| < |cfg.channelIdx.items| {
      RegistrationShortFrom(cfg, 0);
    } else {
      RegistrationFromEntries(cfg, 0);
    }
  }
}
