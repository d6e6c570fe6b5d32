/**
 * `ConfigReader` (recOrder/io/config_reader_old.py): an immutable
 * configuration object whose attributes start at fixed defaults and are then
 * filled in by `read_config` from an already-parsed YAML document.
 *
 * The attributes are a map from attribute name to value.  `read_config` is
 * modelled twice over the same scanning functions: `AsWritten` follows the
 * code, `Corrected` repairs the required-field handling and the type checks on
 * the dataset selections (see the findings in the README).  A scan carries the
 * attributes written so far, the local flags `read_config` binds (an unbound
 * flag is an absent key), and the outcome; writes made before an exception
 * stay visible, as they do on the Python object.
 */
module ConfigFile {
  import opened Common

  datatype Revision = AsWritten | Corrected

  datatype Scan = Scan(attrs: map<string, Yaml>, flags: map<string, bool>, outcome: Outcome)

  const AllSelection := YList([YStr("all")])

  /**
   * The attributes `__init__` sets before any configuration file is read:
   * the tuning constants, then the fields the reading and the pipeline
   * depend on.
   */
  function Defaults(dataDir: Yaml, saveDir: Yaml, name: Yaml): (d: map<string, Yaml>)
    ensures forall k :: k in CoreNames ==> k in d && d[k] == CoreDefaults(dataDir, saveDir, name)[k]
    ensures d["positions"] == AllSelection && d["z_slices"] == AllSelection && d["timepoints"] == AllSelection
    ensures !Truthy(d["preproc_denoise_use"]) && !Truthy(d["postproc_denoise_use"])
    ensures !Truthy(d["postproc_registration_use"]) && !Truthy(d["use_gpu"])
    ensures d["background_correction"] == YStr("None") && d["n_objective_media"] == YReal(1.003)
    ensures d["method"] == YNone && d["mode"] == YNone
    ensures d["data_dir"] == dataDir && d["save_dir"] == saveDir && d["data_save_name"] == name
  {
    TuningDefaults() + CoreDefaults(dataDir, saveDir, name)
  }

  /** The defaults of the fields the reading and the pipeline depend on. */
  function CoreDefaults(dataDir: Yaml, saveDir: Yaml, name: Yaml): (d: map<string, Yaml>)
    ensures d.Keys == CoreNames
    ensures d["positions"] == AllSelection && d["z_slices"] == AllSelection && d["timepoints"] == AllSelection
    ensures !Truthy(d["preproc_denoise_use"]) && !Truthy(d["postproc_denoise_use"])
    ensures !Truthy(d["postproc_registration_use"]) && !Truthy(d["use_gpu"])
    ensures d["background_correction"] == YStr("None") && d["n_objective_media"] == YReal(1.003)
    ensures d["method"] == YNone && d["mode"] == YNone
    ensures d["data_dir"] == dataDir && d["save_dir"] == saveDir && d["data_save_name"] == name
  {
    map[
      "background_correction" := YStr("None"),
      "use_gpu" := YBool(false),
      "n_objective_media" := YReal(1.003),
      "preproc_denoise_use" := YBool(false),
      "postproc_denoise_use" := YBool(false),
      "postproc_registration_use" := YBool(false),
      "positions" := AllSelection,
      "z_slices" := AllSelection,
      "timepoints" := AllSelection,
      "data_dir" := dataDir,
      "save_dir" := saveDir,
      "data_save_name" := name,
      "method" := YNone,
      "mode" := YNone
    ]
  }

  const CoreNames := {"background_correction", "use_gpu", "n_objective_media", "preproc_denoise_use",
                      "postproc_denoise_use", "postproc_registration_use", "positions", "z_slices",
                      "timepoints", "data_dir", "save_dir", "data_save_name", "method", "mode"}

  /** The remaining defaults of `__init__`. */
  function TuningDefaults(): map<string, Yaml> {
    map[
      "yaml_config" := YNone,
      "data_type" := YNone,
      "background" := YNone,
      "calibration_metadata" := YNone,
      "preproc_denoise_channels" := YNone,
      "preproc_denoise_thresholds" := YNone,
      "preproc_denoise_levels" := YNone,
      "flatfield_correction" := YNone,
      "circularity" := YStr("rcp"),
      "gpu_id" := YInt(0),
      "wavelength" := YNone,
      "pixel_size" := YNone,
      "magnification" := YNone,
      "NA_objective" := YNone,
      "NA_condenser" := YNone,
      "z_step" := YNone,
      "focus_zidx" := YNone,
      "pad_z" := YInt(0),
      "phase_denoiser_2D" := YStr("Tikhonov"),
      "Tik_reg_abs_2D" := YReal(0.0001),
      "Tik_reg_ph_2D" := YReal(0.0001),
      "rho_2D" := YInt(1),
      "itr_2D" := YInt(50),
      "TV_reg_abs_2D" := YReal(0.001),
      "TV_reg_ph_2D" := YReal(0.00001),
      "phase_denoiser_3D" := YStr("Tikhonov"),
      "rho_3D" := YReal(0.001),
      "itr_3D" := YInt(50),
      "Tik_reg_ph_3D" := YReal(0.0001),
      "TV_reg_ph_3D" := YReal(0.00005),
      "postproc_denoise_channels" := YNone,
      "postproc_denoise_thresholds" := YNone,
      "postproc_denoise_levels" := YNone,
      "postproc_registration_channel_idx" := YNone,
      "postproc_registration_shift" := YNone
    ]
  }

  /** Reading attribute `name`; an attribute never set raises AttributeError. */
  function Get(attrs: map<string, Yaml>, name: string): (r: Result<Yaml>)
    ensures r.Ok? <==> name in attrs
  {
    if name in attrs then Ok(attrs[name]) else Err(AttributeError)
  }

  function Failed(s: Scan, e: Error): Scan {
    s.(outcome := Fail(e))
  }

  function SetAttr(s: Scan, name: string, value: Yaml): Scan {
    s.(attrs := s.attrs[name := value])
  }

  // ---------------------------------------------------------------------------
  // The dataset section

  /**
   * Which dataset key must be present when an attribute is unset.  As written,
   * `method` is checked against `'mode'` and `data_save_name` against `'save_dir'`.
   */
  function RequiredPairs(rev: Revision): seq<(string, string)> {
    if rev == AsWritten then
      [("method", "mode"), ("mode", "mode"), ("data_dir", "data_dir"),
       ("save_dir", "save_dir"), ("data_save_name", "save_dir")]
    else
      [("method", "method"), ("mode", "mode"), ("data_dir", "data_dir"),
       ("save_dir", "save_dir"), ("data_save_name", "data_save_name")]
  }

  const RequiredNames := ["method", "mode", "data_dir", "save_dir", "data_save_name"]

  /** The required-field assertions, in order. */
  function Required(attrs: map<string, Yaml>, dataset: Yaml, pairs: seq<(string, string)>): (o: Outcome)
    ensures o.Pass? ==> forall i :: 0 <= i < |pairs| ==> pairs[i].0 in attrs
    ensures o.Pass? ==> forall i :: 0 <= i < |pairs| && !Truthy(attrs[pairs[i].0]) ==> PyIn(pairs[i].1, dataset) == Ok(true)
    decreases |pairs|
  {
    if pairs == [] then Pass
    else
      match Get(attrs, pairs[0].0)
      case Err(e) => Fail(e)
      case Ok(v) =>
        if Truthy(v) then Required(attrs, dataset, pairs[1..])
        else
          match PyIn(pairs[0].1, dataset)
          case Err(e) => Fail(e)
          case Ok(found) => if found then Required(attrs, dataset, pairs[1..]) else Fail(AssertionError)
  }

  /**
   * Copying dataset values onto attributes.  As written an attribute is
   * overwritten only when it is already truthy; corrected, only when it is unset.
   * A None value in the file never overwrites.
   */
  function Overwrite(rev: Revision, s: Scan, dataset: Yaml, names: seq<string>): Scan
    decreases |names|
  {
    if names == [] then s
    else
      var name := names[0];
      match Get(s.attrs, name)
      case Err(e) => Failed(s, e)
      case Ok(v) =>
        var wanted := if rev == AsWritten then Truthy(v) else !Truthy(v);
        if !wanted then Overwrite(rev, s, dataset, names[1..])
        else
          match PyGet(dataset, name)
          case Err(e) => Failed(s, e)
          case Ok(y) => Overwrite(rev, if y != YNone then SetAttr(s, name, y) else s, dataset, names[1..])
  }

  /** `'all'` becomes `['all']`; any other value is kept as it is. */
  function Selection(value: Yaml): (r: Yaml)
    ensures value == YStr("all") ==> r == AllSelection
    ensures value != YStr("all") ==> r == value
  {
    if value == YStr("all") then AllSelection else value
  }

  predicate IsSelectionKey(key: string) {
    key in {"positions", "z_slices", "timepoints"}
  }

  predicate IsStoredKey(key: string) {
    key in {"background", "background_ROI", "calibration_metadata"}
  }

  /** Keys the dataset loop passes over without storing anything. */
  predicate IsSkippedKey(rev: Revision, key: string) {
    key in {"data_dir", "processed_dir", "data_type"} ||
    (rev == Corrected && key in {"method", "mode", "save_dir", "data_save_name"})
  }

  predicate IsDatasetKey(rev: Revision, key: string) {
    IsSelectionKey(key) || IsStoredKey(key) || IsSkippedKey(rev, key)
  }

  /**
   * The loop over the dataset items.  As written the "type assertions" assert a
   * two-element tuple, which is always true; corrected, a selection that is
   * neither a string nor a list fails the assertion.
   */
  function DatasetLoop(rev: Revision, s: Scan, items: seq<(string, Yaml)>): Scan
    decreases |items|
  {
    if items == [] then s
    else
      var (key, value) := items[0];
      if IsSelectionKey(key) then
        if rev == Corrected && !(value.YStr? || value.YList?) then Failed(s, AssertionError)
        else DatasetLoop(rev, SetAttr(s, key, Selection(value)), items[1..])
      else if IsStoredKey(key) then DatasetLoop(rev, SetAttr(s, key, value), items[1..])
      else if IsSkippedKey(rev, key) then DatasetLoop(rev, s, items[1..])
      else Failed(s, NameError)
  }

  // ---------------------------------------------------------------------------
  // The pre- and post-processing sections

  /** The keys of `pre_processing['denoise']`; the channel check precedes the write. */
  function PreDenoiseKeys(s: Scan, items: seq<(string, Yaml)>): Scan
    decreases |items|
  {
    if items == [] then s
    else
      var (key, value) := items[0];
      if key == "use" then
        var next := SetAttr(s, "preproc_denoise_use", value).(flags := s.flags["preproc_denoise" := Truthy(value)]);
        PreDenoiseKeys(next, items[1..])
      else if key == "channels" then
        if "preproc_denoise" !in s.flags then Failed(s, UnboundLocalError)
        else if s.flags["preproc_denoise"] && value == YNone then Failed(s, AssertionError)
        else PreDenoiseKeys(SetAttr(s, "preproc_denoise_channels", value), items[1..])
      else if key == "threshold" then PreDenoiseKeys(SetAttr(s, "preproc_denoise_thresholds", value), items[1..])
      else if key == "level" then PreDenoiseKeys(SetAttr(s, "preproc_denoise_levels", value), items[1..])
      else PreDenoiseKeys(s, items[1..])
  }

  /**
   * The keys of `post_processing['denoise']`; here the channels are written
   * before the flag is checked.
   */
  function PostDenoiseKeys(s: Scan, items: seq<(string, Yaml)>): Scan
    decreases |items|
  {
    if items == [] then s
    else
      var (key, value) := items[0];
      if key == "use" then
        var next := SetAttr(s, "postproc_denoise_use", value).(flags := s.flags["postproc_denoise" := Truthy(value)]);
        PostDenoiseKeys(next, items[1..])
      else if key == "channels" then
        var next := SetAttr(s, "postproc_denoise_channels", value);
        if "postproc_denoise" !in s.flags then Failed(next, UnboundLocalError)
        else if s.flags["postproc_denoise"] && value == YNone then Failed(next, AssertionError)
        else PostDenoiseKeys(next, items[1..])
      else if key == "threshold" then PostDenoiseKeys(SetAttr(s, "postproc_denoise_thresholds", value), items[1..])
      else if key == "level" then PostDenoiseKeys(SetAttr(s, "postproc_denoise_levels", value), items[1..])
      else PostDenoiseKeys(s, items[1..])
  }

  /** `isinstance(value, int)` holds for ints and bools; such a value is wrapped in a list. */
  function ChannelIndex(value: Yaml): (r: Yaml)
    ensures value.YInt? || value.YBool? ==> r == YList([value])
    ensures !(value.YInt? || value.YBool?) ==> r == value
  {
    if value.YInt? || value.YBool? then YList([value]) else value
  }

  /** The keys of `post_processing['registration']`. */
  function RegistrationKeys(s: Scan, items: seq<(string, Yaml)>): Scan
    decreases |items|
  {
    if items == [] then s
    else
      var (key, value) := items[0];
      if key == "use" then
        var next := SetAttr(s, "postproc_registration_use", value).(flags := s.flags["postproc_registration" := Truthy(value)]);
        RegistrationKeys(next, items[1..])
      else if key == "channel_idx" then
        if "postproc_registration" !in s.flags then Failed(s, UnboundLocalError)
        else if s.flags["postproc_registration"] && value == YNone then Failed(s, AssertionError)
        else RegistrationKeys(SetAttr(s, "postproc_registration_channel_idx", ChannelIndex(value)), items[1..])
      else if key == "shift" then
        var next := SetAttr(s, "postproc_registration_shift", value);
        if "postproc_registration" !in s.flags then Failed(next, UnboundLocalError)
        else if s.flags["postproc_registration"] && value == YNone then Failed(next, AssertionError)
        else RegistrationKeys(next, items[1..])
      else RegistrationKeys(s, items[1..])
  }

  /** The sub-dictionary `section[name]` walked by `keys`, or the exception reaching it raises. */
  function SubItems(section: Yaml, name: string): Result<seq<(string, Yaml)>> {
    match PyGet(section, name)
    case Err(e) => Err(e)
    case Ok(d) => PyItems(d)
  }

  /**
   * The loop over the keys of `pre_processing`: every key containing
   * `'denoise'` walks `pre_processing['denoise']` again.
   */
  function PreSection(s: Scan, section: Yaml, keys: seq<(string, Yaml)>): Scan
    decreases |keys|
  {
    if keys == [] then s
    else if Contains(keys[0].0, "denoise") then
      match SubItems(section, "denoise")
      case Err(e) => Failed(s, e)
      case Ok(items) =>
        var next := PreDenoiseKeys(s, items);
        if next.outcome.Fail? then next else PreSection(next, section, keys[1..])
    else PreSection(s, section, keys[1..])
  }

  /** One key of `post_processing`: the denoise walk, then (independently) the registration walk. */
  function PostKey(s: Scan, section: Yaml, key: string): Scan {
    var afterDenoise :=
      if Contains(key, "denoise") then
        match SubItems(section, "denoise")
        case Err(e) => Failed(s, e)
        case Ok(items) => PostDenoiseKeys(s, items)
      else s;
    if afterDenoise.outcome.Fail? || !Contains(key, "registration") then afterDenoise
    else
      match SubItems(section, "registration")
      case Err(e) => Failed(afterDenoise, e)
      case Ok(items) => RegistrationKeys(afterDenoise, items)
  }

  function PostSection(s: Scan, section: Yaml, keys: seq<(string, Yaml)>): Scan
    decreases |keys|
  {
    if keys == [] then s
    else
      var next := PostKey(s, section, keys[0].0);
      if next.outcome.Fail? then next else PostSection(next, section, keys[1..])
  }

  // ---------------------------------------------------------------------------
  // The processing section

  /** Processing keys that are stored under their own name. */
  predicate IsProcessingKey(key: string) {
    key in {"background_correction", "flatfield_correction", "use_gpu", "gpu_id", "wavelength",
            "pixel_size", "magnification", "NA_objective", "NA_condenser", "n_objective_media",
            "z_step", "focus_zidx", "phase_denoiser_2D", "Tik_reg_abs_2D", "Tik_reg_ph_2D",
            "rho_2D", "itr_2D", "TV_reg_abs_2D", "TV_reg_ph_2D", "phase_denoiser_3D", "rho_3D",
            "itr_3D", "Tik_reg_ph_3D", "TV_reg_ph_3D", "pad_z"}
  }

  /** Whether the output channels ask for a phase reconstruction (short-circuit `or` of three `in` tests). */
  function PhaseRequested(channels: Yaml): (r: Result<bool>)
    ensures r.Ok? <==> PyIn("Phase2D", channels).Ok?
    ensures channels.YList? ==> r == Ok(YStr("Phase2D") in channels.items || YStr("Phase_semi3D") in channels.items
                                        || YStr("Phase3D") in channels.items)
  {
    match PyIn("Phase2D", channels)
    case Err(e) => Err(e)
    case Ok(a) =>
      if a then Ok(true)
      else
        match PyIn("Phase_semi3D", channels)
        case Err(e) => Err(e)
        case Ok(b) => if b then Ok(true) else PyIn("Phase3D", channels)
  }

  function ProcessingKeys(s: Scan, items: seq<(string, Yaml)>): Scan
    decreases |items|
  {
    if items == [] then s
    else
      var (key, value) := items[0];
      if key == "output_channels" then
        var next := SetAttr(s, "output_channels", value);
        match PhaseRequested(value)
        case Err(e) => Failed(next, e)
        case Ok(phase) => ProcessingKeys(next.(flags := next.flags["phase_processing" := phase]), items[1..])
      else if IsProcessingKey(key) then ProcessingKeys(SetAttr(s, key, value), items[1..])
      else Failed(s, NameError)
  }

  /**
   * `a >= b` on two strings: code point by code point, a proper prefix being
   * the smaller.
   */
  function StrAtLeast(a: string, b: string): bool
    decreases |b|
  {
    if b == [] then true
    else if a == [] then false
    else if a[0] != b[0] then a[0] > b[0]
    else StrAtLeast(a[1..], b[1..])
  }

  /** Any two strings are ordered one way or the other. */
  lemma {:induction false} StrAtLeastTotal(a: string, b: string)
    ensures StrAtLeast(a, b) || StrAtLeast(b, a)
    decreases |b|
  {
    if a != [] && b != [] && a[0] == b[0] {
      StrAtLeastTotal(a[1..], b[1..]);
    }
  }

  /** Strings each at least the other are equal. */
  lemma {:induction false} StrAtLeastAntisymmetric(a: string, b: string)
    requires StrAtLeast(a, b) && StrAtLeast(b, a)
    ensures a == b
    decreases |b|
  {
    if a != [] && b != [] {
      StrAtLeastAntisymmetric(a[1..], b[1..]);
      assert a == [a[0]] + a[1..] && b == [b[0]] + b[1..];
    }
  }

  /** A string is at least each of its prefixes. */
  lemma {:induction false} StrAtLeastPrefix(a: string, k: nat)
    requires k <= |a|
    ensures StrAtLeast(a, a[..k])
    decreases k
  {
    if k > 0 {
      assert a[..k][1..] == a[1..][..k - 1];
      StrAtLeastPrefix(a[1..], k - 1);
    }
  }

  /**
   * `a >= b`: numbers (bools counting as 0 and 1) compare by value, two
   * strings compare lexicographically, and other operand types raise
   * TypeError.
   */
  function AtLeast(a: Yaml, b: Yaml): (r: Result<bool>)
    ensures r.Ok? <==> (AsReal(a).Some? && AsReal(b).Some?) || (a.YStr? && b.YStr?)
    ensures r.Err? ==> r.error == TypeError
    ensures AsReal(a).Some? && AsReal(b).Some? ==> r == Ok(AsReal(a).value >= AsReal(b).value)
    ensures a.YStr? && b.YStr? ==> r == Ok(StrAtLeast(a.s, b.s))
  {
    if a.YStr? && b.YStr? then Ok(StrAtLeast(a.s, b.s))
    else
      match (AsReal(a), AsReal(b))
      case (Some(x), Some(y)) => Ok(x >= y)
      case _ => Err(TypeError)
  }

  /** Quoted numbers are compared as text: `'1.5' >= '1.4'` holds and `'10' >= '9'` does not. */
  lemma QuotedNumbersCompareAsText()
    ensures AtLeast(YStr("1.5"), YStr("1.4")) == Ok(true)
    ensures AtLeast(YStr("10"), YStr("9")) == Ok(false)
    ensures AtLeast(YStr("1.5"), YReal(1.4)) == Err(TypeError)
  {
    assert "1.5"[1..] == ".5" && "1.4"[1..] == ".4";
    assert ".5"[1..] == "5" && ".4"[1..] == "4";
  }

  /** What a passing `a >= b` assert leaves known about its operands. */
  predicate AtLeastHolds(a: Yaml, b: Yaml) {
    (AsReal(a).Some? && AsReal(b).Some? && AsReal(a).value >= AsReal(b).value) ||
    (a.YStr? && b.YStr? && StrAtLeast(a.s, b.s))
  }

  const PhaseFields := ["pixel_size", "magnification", "NA_objective", "NA_condenser", "n_objective_media"]

  /** The fields a phase reconstruction needs must be set. */
  function AllSet(attrs: map<string, Yaml>, names: seq<string>): (o: Outcome)
    ensures o.Pass? <==> forall i :: 0 <= i < |names| ==> names[i] in attrs && attrs[names[i]] != YNone
    decreases |names|
  {
    if names == [] then Pass
    else
      match Get(attrs, names[0])
      case Err(e) => Fail(e)
      case Ok(v) => if v == YNone then Fail(AssertionError) else AllSet(attrs, names[1..])
  }

  /** The assertions made when a phase output is requested. */
  function PhasePrerequisites(attrs: map<string, Yaml>): Outcome {
    match AllSet(attrs, PhaseFields)
    case Fail(e) => Fail(e)
    case Pass =>
      var n := attrs["n_objective_media"];
      match AtLeast(n, attrs["NA_objective"])
      case Err(e) => Fail(e)
      case Ok(objective) =>
        if !objective then Fail(AssertionError)
        else
          match AtLeast(n, attrs["NA_condenser"])
          case Err(e) => Fail(e)
          case Ok(condenser) =>
            if !condenser then Fail(AssertionError)
            else
              match Get(attrs, "z_slices")
              case Err(e) => Fail(e)
              case Ok(z) => if z != AllSelection then Fail(AssertionError) else Pass
  }

  /** `'Phase2D' in output_channels` needs `focus_zidx`. */
  function FocusCheck(attrs: map<string, Yaml>): Outcome {
    match Get(attrs, "output_channels")
    case Err(e) => Fail(e)
    case Ok(channels) =>
      match PyIn("Phase2D", channels)
      case Err(e) => Fail(e)
      case Ok(phase2D) =>
        if !phase2D then Pass
        else
          match Get(attrs, "focus_zidx")
          case Err(e) => Fail(e)
          case Ok(f) => if f == YNone then Fail(AssertionError) else Pass
  }

  /** The checks after the processing loop; an unseen `output_channels` leaves the flag unbound. */
  function PhaseChecks(s: Scan): Scan {
    if "phase_processing" !in s.flags then Failed(s, UnboundLocalError)
    else
      var prerequisites := if s.flags["phase_processing"] then PhasePrerequisites(s.attrs) else Pass;
      if prerequisites.Fail? then s.(outcome := prerequisites)
      else s.(outcome := FocusCheck(s.attrs))
  }

  function ProcessingSection(s: Scan, section: Yaml): Scan {
    match PyItems(section)
    case Err(e) => Failed(s, e)
    case Ok(items) =>
      var next := ProcessingKeys(s, items);
      if next.outcome.Fail? then next else PhaseChecks(next)
  }

  // ---------------------------------------------------------------------------
  // The whole of read_config

  /** The three optional sections, in order, of a configuration that is a mapping. */
  function Sections(s: Scan, config: seq<(string, Yaml)>): Scan {
    var afterPre :=
      match Lookup(config, "pre_processing")
      case None => s
      case Some(section) =>
        (match PyItems(section)
         case Err(e) => Failed(s, e)
         case Ok(keys) => PreSection(s, section, keys));
    if afterPre.outcome.Fail? then afterPre
    else
      var afterPost :=
        match Lookup(config, "post_processing")
        case None => afterPre
        case Some(section) =>
          (match PyItems(section)
           case Err(e) => Failed(afterPre, e)
           case Ok(keys) => PostSection(afterPre, section, keys));
      if afterPost.outcome.Fail? then afterPost
      else
        match Lookup(config, "processing")
        case None => afterPost
        case Some(section) => ProcessingSection(afterPost, section)
  }

  /** `read_config` on the parsed document `config`, from the attributes `attrs`. */
  function Read(rev: Revision, attrs: map<string, Yaml>, config: Yaml): Scan {
    var s := Scan(attrs["yaml_config" := config], map[], Pass);
    match PyIn("dataset", config)
    case Err(e) => Failed(s, e)
    case Ok(hasDataset) =>
      if !hasDataset then Failed(s, AssertionError)
      else
        match PyGet(config, "dataset")
        case Err(e) => Failed(s, e)
        case Ok(dataset) =>
          var scanned := ReadDataset(rev, s, dataset);
          if scanned.outcome.Fail? || !config.YMap? then scanned
          else Sections(scanned, config.entries)
  }

  /** The dataset part of `read_config`: required fields, overwrites, the dataset loop. */
  function ReadDataset(rev: Revision, s: Scan, dataset: Yaml): Scan {
    var required := Required(s.attrs, dataset, RequiredPairs(rev));
    if required.Fail? then s.(outcome := required)
    else
      var copied := Overwrite(rev, s, dataset, RequiredNames);
      if copied.outcome.Fail? then copied
      else
        match PyItems(dataset)
        case Err(e) => Failed(copied, e)
        case Ok(items) => DatasetLoop(rev, copied, items)
  }

  // ---------------------------------------------------------------------------
  // Properties

  /** The dataset loop passes exactly when every key is one it knows. */
  lemma {:induction false} DatasetLoopPasses(rev: Revision, s: Scan, items: seq<(string, Yaml)>)
    requires s.outcome.Pass?
    requires rev == AsWritten
    ensures DatasetLoop(rev, s, items).outcome.Pass? <==> forall i :: 0 <= i < |items| ==> IsDatasetKey(rev, items[i].0)
    ensures DatasetLoop(rev, s, items).flags == s.flags
    decreases |items|
  {
    if items != [] {
      var (key, value) := items[0];
      var rest := items[1..];
      assert forall i :: 1 <= i < |items| ==> items[i] == rest[i - 1];
      if IsSelectionKey(key) {
        DatasetLoopPasses(rev, SetAttr(s, key, Selection(value)), rest);
      } else if IsStoredKey(key) {
        DatasetLoopPasses(rev, SetAttr(s, key, value), rest);
      } else if IsSkippedKey(rev, key) {
        DatasetLoopPasses(rev, s, rest);
      }
    }
  }

  /**
   * A dataset naming a key the loop does not know, such as `mode`, makes the
   * loop fail; as written, where no value is checked, that failure is NameError.
   */
  lemma {:induction false} DatasetLoopRejects(rev: Revision, s: Scan, items: seq<(string, Yaml)>, key: string)
    requires HasKey(items, key) && !IsDatasetKey(rev, key)
    ensures DatasetLoop(rev, s, items).outcome.Fail?
    ensures rev == AsWritten && s.outcome.Pass? ==> DatasetLoop(rev, s, items).outcome == Fail(NameError)
    decreases |items|
  {
    var (k, value) := items[0];
    if k != key {
      var rest := items[1..];
      var i :| 0 <= i < |items| && items[i].0 == key;
      assert rest[i - 1].0 == key;
      if s.outcome.Fail? {
        DatasetLoopKeepsFailure(rev, s, items);
      } else if IsSelectionKey(k) {
        if !(rev == Corrected && !(value.YStr? || value.YList?)) {
          DatasetLoopRejects(rev, SetAttr(s, k, Selection(value)), rest, key);
        }
      } else if IsStoredKey(k) {
        DatasetLoopRejects(rev, SetAttr(s, k, value), rest, key);
      } else if IsSkippedKey(rev, k) {
        DatasetLoopRejects(rev, s, rest, key);
      }
    }
  }

  lemma {:induction false} DatasetLoopKeepsFailure(rev: Revision, s: Scan, items: seq<(string, Yaml)>)
    requires s.outcome.Fail?
    ensures DatasetLoop(rev, s, items).outcome.Fail?
    decreases |items|
  {
    if items != [] {
      var (key, value) := items[0];
      if IsSelectionKey(key) {
        DatasetLoopKeepsFailure(rev, SetAttr(s, key, Selection(value)), items[1..]);
      } else if IsStoredKey(key) {
        DatasetLoopKeepsFailure(rev, SetAttr(s, key, value), items[1..]);
      } else if IsSkippedKey(rev, key) {
        DatasetLoopKeepsFailure(rev, s, items[1..]);
      }
    }
  }

  /**
   * `read_config` as written never completes while `method` is unset: the
   * required-field check then demands a `mode` key in the dataset, and the
   * dataset loop rejects that key with NameError.
   */
  lemma ReadNeverCompletes(attrs: map<string, Yaml>, config: Yaml)
    requires "method" in attrs && !Truthy(attrs["method"])
    ensures Read(AsWritten, attrs, config).outcome.Fail?
  {
    var s := Scan(attrs["yaml_config" := config], map[], Pass);
    if PyIn("dataset", config) == Ok(true) && PyGet(config, "dataset").Ok? {
      var dataset := PyGet(config, "dataset").value;
      var required := Required(s.attrs, dataset, RequiredPairs(AsWritten));
      if required.Pass? {
        assert RequiredPairs(AsWritten)[0] == ("method", "mode");
        assert PyIn("mode", dataset) == Ok(true);
        var copied := Overwrite(AsWritten, s, dataset, RequiredNames);
        if copied.outcome.Pass? && dataset.YMap? {
          DatasetLoopRejects(AsWritten, copied, dataset.entries, "mode");
        }
      }
    }
  }

  /** So a reader built with a configuration path always raises: `method` starts as None. */
  lemma DefaultsNeverRead(dataDir: Yaml, saveDir: Yaml, name: Yaml, config: Yaml)
    ensures Read(AsWritten, Defaults(dataDir, saveDir, name), config).outcome.Fail?
  {
    ReadNeverCompletes(Defaults(dataDir, saveDir, name), config);
  }

  /**
   * As written, the overwrite step never fills an unset attribute: with every
   * required attribute unset it changes nothing.
   */
  lemma {:induction false} OverwriteKeepsUnset(s: Scan, dataset: Yaml, names: seq<string>)
    requires forall i :: 0 <= i < |names| ==> names[i] in s.attrs && !Truthy(s.attrs[names[i]])
    ensures Overwrite(AsWritten, s, dataset, names) == s
    decreases |names|
  {
    if names != [] {
      OverwriteKeepsUnset(s, dataset, names[1..]);
    }
  }

  /** Corrected, the overwrite step fills each unset attribute from a present, non-None dataset value. */
  lemma {:induction false} OverwriteFills(s: Scan, ds: seq<(string, Yaml)>, names: seq<string>)
    requires s.outcome.Pass?
    requires forall i :: 0 <= i < |names| ==> names[i] in s.attrs && HasKey(ds, names[i])
    requires NoDup(names)
    ensures Overwrite(Corrected, s, YMap(ds), names).outcome.Pass?
    ensures Overwrite(Corrected, s, YMap(ds), names).flags == s.flags
    ensures forall k :: k in s.attrs ==> k in Overwrite(Corrected, s, YMap(ds), names).attrs
    ensures forall i :: 0 <= i < |names| && !Truthy(s.attrs[names[i]]) && Lookup(ds, names[i]).value != YNone ==>
      Overwrite(Corrected, s, YMap(ds), names).attrs[names[i]] == Lookup(ds, names[i]).value
    ensures forall k :: k in s.attrs && k !in names ==>
      Overwrite(Corrected, s, YMap(ds), names).attrs[k] == s.attrs[k]
    decreases |names|
  {
    if names != [] {
      var name := names[0];
      var y := Lookup(ds, name).value;
      var next := if !Truthy(s.attrs[name]) && y != YNone then SetAttr(s, name, y) else s;
      assert forall i :: 1 <= i < |names| ==> names[i] == names[1..][i - 1] && names[i] != name;
      OverwriteFills(next, ds, names[1..]);
    }
  }

  /** Corrected, a dataset of known keys is scanned without failure and keeps the other attributes. */
  lemma {:induction false} DatasetLoopAccepts(s: Scan, items: seq<(string, Yaml)>)
    requires s.outcome.Pass?
    requires forall i :: 0 <= i < |items| ==> IsDatasetKey(Corrected, items[i].0)
    requires forall i :: 0 <= i < |items| && IsSelectionKey(items[i].0) ==> items[i].1.YStr? || items[i].1.YList?
    ensures DatasetLoop(Corrected, s, items).outcome.Pass?
    ensures DatasetLoop(Corrected, s, items).flags == s.flags
    ensures forall k :: k in s.attrs ==> k in DatasetLoop(Corrected, s, items).attrs
    ensures forall k :: k in s.attrs && !IsSelectionKey(k) && !IsStoredKey(k) ==>
      DatasetLoop(Corrected, s, items).attrs[k] == s.attrs[k]
    decreases |items|
  {
    if items != [] {
      var (key, value) := items[0];
      var rest := items[1..];
      assert forall i :: 1 <= i < |items| ==> items[i] == rest[i - 1];
      if IsSelectionKey(key) {
        DatasetLoopAccepts(SetAttr(s, key, Selection(value)), rest);
      } else if IsStoredKey(key) {
        DatasetLoopAccepts(SetAttr(s, key, value), rest);
      } else {
        DatasetLoopAccepts(s, rest);
      }
    }
  }

  /**
   * The corrected reader accepts a document whose only section is a dataset
   * naming method, mode, data_dir, save_dir and data_save_name with known keys
   * and string or list selections, and takes the unset method and mode from it
   * (as from the defaults, where both are None).
   */
  lemma CorrectedReadAccepts(attrs: map<string, Yaml>, config: Yaml, ds: seq<(string, Yaml)>)
    requires config == YMap([("dataset", YMap(ds))])
    requires forall i :: 0 <= i < |RequiredNames| ==> RequiredNames[i] in attrs
    requires "method" in attrs && "mode" in attrs && !Truthy(attrs["method"]) && !Truthy(attrs["mode"])
    requires forall i :: 0 <= i < |RequiredNames| ==> HasKey(ds, RequiredNames[i])
    requires forall i :: 0 <= i < |ds| ==> IsDatasetKey(Corrected, ds[i].0)
    requires forall i :: 0 <= i < |ds| && IsSelectionKey(ds[i].0) ==> ds[i].1.YStr? || ds[i].1.YList?
    requires Lookup(ds, "method") != Some(YNone) && Lookup(ds, "mode") != Some(YNone)
    ensures var s := Read(Corrected, attrs, config);
      s.outcome.Pass? && "method" in s.attrs && "mode" in s.attrs &&
      s.attrs["method"] == Lookup(ds, "method").value && s.attrs["mode"] == Lookup(ds, "mode").value
  {
    DocumentDatasetAccepts(attrs, config, ds);
    ReadOnlyDataset(attrs, config, ds);
  }

  /** The dataset part of the corrected reader, started from the attributes `attrs`. */
  lemma DocumentDatasetAccepts(attrs: map<string, Yaml>, config: Yaml, ds: seq<(string, Yaml)>)
    requires forall i :: 0 <= i < |RequiredNames| ==> RequiredNames[i] in attrs
    requires "method" in attrs && "mode" in attrs && !Truthy(attrs["method"]) && !Truthy(attrs["mode"])
    requires forall i :: 0 <= i < |RequiredNames| ==> HasKey(ds, RequiredNames[i])
    requires forall i :: 0 <= i < |ds| ==> IsDatasetKey(Corrected, ds[i].0)
    requires forall i :: 0 <= i < |ds| && IsSelectionKey(ds[i].0) ==> ds[i].1.YStr? || ds[i].1.YList?
    requires Lookup(ds, "method") != Some(YNone) && Lookup(ds, "mode") != Some(YNone)
    ensures var r := ReadDataset(Corrected, Scan(attrs["yaml_config" := config], map[], Pass), YMap(ds));
      r.outcome.Pass? && "method" in r.attrs && "mode" in r.attrs &&
      r.attrs["method"] == Lookup(ds, "method").value && r.attrs["mode"] == Lookup(ds, "mode").value
  {
    ConfigKeepsKeys(attrs, config);
    ReadDatasetAccepts(Scan(attrs["yaml_config" := config], map[], Pass), ds);
  }

  /** Recording the document under yaml_config keeps the required attributes. */
  lemma ConfigKeepsKeys(attrs: map<string, Yaml>, config: Yaml)
    requires forall i :: 0 <= i < |RequiredNames| ==> RequiredNames[i] in attrs
    requires "method" in attrs && "mode" in attrs
    ensures forall i :: 0 <= i < |RequiredNames| ==> RequiredNames[i] in attrs["yaml_config" := config]
    ensures "method" in attrs["yaml_config" := config] && "mode" in attrs["yaml_config" := config]
    ensures attrs["yaml_config" := config]["method"] == attrs["method"]
    ensures attrs["yaml_config" := config]["mode"] == attrs["mode"]
  {
  }

  /** On a document made of a dataset section alone, reading is reading the dataset. */
  lemma ReadOnlyDataset(attrs: map<string, Yaml>, config: Yaml, ds: seq<(string, Yaml)>)
    requires config == YMap([("dataset", YMap(ds))])
    ensures Read(Corrected, attrs, config) == ReadDataset(Corrected, Scan(attrs["yaml_config" := config], map[], Pass), YMap(ds))
  {
    var s := Scan(attrs["yaml_config" := config], map[], Pass);
    OnlyDataset(config, ds);
    SectionsAbsent(ReadDataset(Corrected, s, YMap(ds)), config.entries);
  }

  /** A document made of a dataset section alone. */
  lemma OnlyDataset(config: Yaml, ds: seq<(string, Yaml)>)
    requires config == YMap([("dataset", YMap(ds))])
    ensures PyIn("dataset", config) == Ok(true) && PyGet(config, "dataset") == Ok(YMap(ds))
    ensures !HasKey(config.entries, "pre_processing") && !HasKey(config.entries, "post_processing")
    ensures !HasKey(config.entries, "processing")
  {
    assert config.entries[0].0 == "dataset";
  }

  /** Without the three optional sections, nothing more happens. */
  lemma SectionsAbsent(s: Scan, config: seq<(string, Yaml)>)
    requires !HasKey(config, "pre_processing") && !HasKey(config, "post_processing") && !HasKey(config, "processing")
    ensures Sections(s, config) == s
  {
  }

  /** The dataset part of the corrected reader, on a dataset of the kind above. */
  lemma ReadDatasetAccepts(s: Scan, ds: seq<(string, Yaml)>)
    requires s.outcome.Pass?
    requires forall i :: 0 <= i < |RequiredNames| ==> RequiredNames[i] in s.attrs
    requires forall i :: 0 <= i < |RequiredNames| ==> HasKey(ds, RequiredNames[i])
    requires "method" in s.attrs && "mode" in s.attrs && !Truthy(s.attrs["method"]) && !Truthy(s.attrs["mode"])
    requires forall i :: 0 <= i < |ds| ==> IsDatasetKey(Corrected, ds[i].0)
    requires forall i :: 0 <= i < |ds| && IsSelectionKey(ds[i].0) ==> ds[i].1.YStr? || ds[i].1.YList?
    requires Lookup(ds, "method") != Some(YNone) && Lookup(ds, "mode") != Some(YNone)
    ensures var r := ReadDataset(Corrected, s, YMap(ds));
      r.outcome.Pass? && "method" in r.attrs && "mode" in r.attrs &&
      r.attrs["method"] == Lookup(ds, "method").value && r.attrs["mode"] == Lookup(ds, "mode").value
  {
    RequiredAccepts(s, ds);
    CopiedFills(s, ds);
    var copied := Overwrite(Corrected, s, YMap(ds), RequiredNames);
    DatasetLoopAccepts(copied, ds);
    var loop := DatasetLoop(Corrected, copied, ds);
    MethodModeUnscanned();
    assert loop.attrs["method"] == copied.attrs["method"] && loop.attrs["mode"] == copied.attrs["mode"];
    ReadDatasetSteps(s, ds);
  }

  /** Method and mode are neither selections nor stored by the dataset loop. */
  lemma MethodModeUnscanned()
    ensures !IsSelectionKey("method") && !IsStoredKey("method")
    ensures !IsSelectionKey("mode") && !IsStoredKey("mode")
  {
  }

  /** Once the required check and the overwrites pass, the dataset loop decides. */
  lemma ReadDatasetSteps(s: Scan, ds: seq<(string, Yaml)>)
    requires Required(s.attrs, YMap(ds), RequiredPairs(Corrected)) == Pass
    requires Overwrite(Corrected, s, YMap(ds), RequiredNames).outcome.Pass?
    ensures ReadDataset(Corrected, s, YMap(ds)) == DatasetLoop(Corrected, Overwrite(Corrected, s, YMap(ds), RequiredNames), ds)
  {
  }

  /** The corrected overwrite fills the unset method and mode from the dataset. */
  lemma CopiedFills(s: Scan, ds: seq<(string, Yaml)>)
    requires s.outcome.Pass?
    requires forall i :: 0 <= i < |RequiredNames| ==> RequiredNames[i] in s.attrs && HasKey(ds, RequiredNames[i])
    requires "method" in s.attrs && "mode" in s.attrs && !Truthy(s.attrs["method"]) && !Truthy(s.attrs["mode"])
    requires Lookup(ds, "method") != Some(YNone) && Lookup(ds, "mode") != Some(YNone)
    ensures var r := Overwrite(Corrected, s, YMap(ds), RequiredNames);
      r.outcome.Pass? && "method" in r.attrs && "mode" in r.attrs &&
      r.attrs["method"] == Lookup(ds, "method").value && r.attrs["mode"] == Lookup(ds, "mode").value
  {
    assert NoDup(RequiredNames);
    OverwriteFills(s, ds, RequiredNames);
    assert RequiredNames[0] == "method" && RequiredNames[1] == "mode";
  }

  /** The required-field check passes when every required name is present on both sides. */
  lemma RequiredAccepts(s: Scan, ds: seq<(string, Yaml)>)
    requires forall i :: 0 <= i < |RequiredNames| ==> RequiredNames[i] in s.attrs && HasKey(ds, RequiredNames[i])
    ensures Required(s.attrs, YMap(ds), RequiredPairs(Corrected)) == Pass
  {
    var pairs := RequiredPairs(Corrected);
    forall i | 0 <= i < |pairs|
      ensures pairs[i].0 in s.attrs && PyIn(pairs[i].1, YMap(ds)) == Ok(true)
    {
      assert pairs[i].1 == RequiredNames[i] && pairs[i].0 == RequiredNames[i];
    }
    RequiredPassesWhenPresent(s.attrs, YMap(ds), pairs);
  }

  lemma {:induction false} RequiredPassesWhenPresent(attrs: map<string, Yaml>, dataset: Yaml, pairs: seq<(string, string)>)
    requires forall i :: 0 <= i < |pairs| ==> pairs[i].0 in attrs && PyIn(pairs[i].1, dataset) == Ok(true)
    ensures Required(attrs, dataset, pairs) == Pass
    decreases |pairs|
  {
    if pairs != [] {
      assert forall i :: 1 <= i < |pairs| ==> pairs[i] == pairs[1..][i - 1];
      RequiredPassesWhenPresent(attrs, dataset, pairs[1..]);
    }
  }

  /** As written, a selection of any type is accepted; corrected, a number fails the assertion. */
  lemma SelectionTypeUnchecked(s: Scan)
    requires s.outcome.Pass?
    ensures DatasetLoop(AsWritten, s, [("positions", YInt(3))]) == SetAttr(s, "positions", YInt(3))
    ensures DatasetLoop(Corrected, s, [("positions", YInt(3))]).outcome == Fail(AssertionError)
  {
    assert [("positions", YInt(3))][1..] == [];
  }

  /**
   * A walk of the registration keys that completes never stores a bare int as
   * the channel index, and every index and shift it met was preceded by a
   * `use` key; with the flag set, neither was None.
   */
  lemma {:induction false} RegistrationChecked(s: Scan, items: seq<(string, Yaml)>)
    requires s.outcome.Pass?
    requires "postproc_registration_channel_idx" in s.attrs
    requires !(s.attrs["postproc_registration_channel_idx"].YInt? || s.attrs["postproc_registration_channel_idx"].YBool?)
    ensures "postproc_registration_channel_idx" in RegistrationKeys(s, items).attrs
    ensures var r := RegistrationKeys(s, items);
      r.outcome.Pass? ==>
        !(r.attrs["postproc_registration_channel_idx"].YInt? || r.attrs["postproc_registration_channel_idx"].YBool?)
    ensures var r := RegistrationKeys(s, items);
      r.outcome.Pass? ==> forall i :: 0 <= i < |items| && items[i].0 in {"channel_idx", "shift"} ==>
        UseFlag(s.flags, "postproc_registration", items[..i]).Some? &&
        (UseFlag(s.flags, "postproc_registration", items[..i]).value ==> items[i].1 != YNone)
    decreases |items|
  {
    if items != [] {
      var (key, value) := items[0];
      var rest := items[1..];
      var next :=
        if key == "use" then SetAttr(s, "postproc_registration_use", value).(flags := s.flags["postproc_registration" := Truthy(value)])
        else if key == "channel_idx" then SetAttr(s, "postproc_registration_channel_idx", ChannelIndex(value))
        else if key == "shift" then SetAttr(s, "postproc_registration_shift", value)
        else s;
      RegistrationChecked(next, rest);
      forall i | 1 <= i < |items|
        ensures UseFlag(s.flags, "postproc_registration", items[..i]) == UseFlag(next.flags, "postproc_registration", rest[..i - 1])
      {
        UseFlagCons(s.flags, "postproc_registration", items, i);
      }
    }
  }

  /** The value a flag has after the `use` keys among `items`: unbound when there is none and it was unbound. */
  function UseFlag(flags: map<string, bool>, flag: string, items: seq<(string, Yaml)>): Option<bool>
    decreases |items|
  {
    if items == [] then (if flag in flags then Some(flags[flag]) else None)
    else if items[|items| - 1].0 == "use" then Some(Truthy(items[|items| - 1].1))
    else UseFlag(flags, flag, items[..|items| - 1])
  }

  /** Reading the flag over `items[..i]` equals reading it over the tail after the first key has been applied. */
  lemma {:induction false} UseFlagCons(flags: map<string, bool>, flag: string, items: seq<(string, Yaml)>, i: nat)
    requires 1 <= i <= |items|
    ensures UseFlag(flags, flag, items[..i]) ==
      UseFlag(if items[0].0 == "use" then flags[flag := Truthy(items[0].1)] else flags, flag, items[1..][..i - 1])
    decreases i
  {
    if i > 1 {
      assert items[..i][..i - 1] == items[..i - 1];
      assert items[1..][..i - 1][..i - 2] == items[1..][..i - 2];
      assert items[..i][i - 1] == items[1..][..i - 1][i - 2];
      UseFlagCons(flags, flag, items, i - 1);
    } else {
      assert items[..1][..0] == [];
    }
  }

  // ---------------------------------------------------------------------------
  // When the key walks pass, and which exception stops them

  /** The keys whose value the denoise walks check against their flag. */
  const DenoiseGuarded: set<string> := {"channels"}

  /** The keys whose value the registration walk checks against its flag. */
  const RegistrationGuarded: set<string> := {"channel_idx", "shift"}

  /** A checked value passes when its flag is bound and, if the flag is truthy, the value is not None. */
  predicate FlagAllows(use: Option<bool>, value: Yaml) {
    use.Some? && (use.value ==> value != YNone)
  }

  /** The exception a rejected value raises: UnboundLocalError for an unbound flag, else AssertionError. */
  function FlagError(use: Option<bool>): Error {
    if use.None? then UnboundLocalError else AssertionError
  }

  /** Every guarded key of `items` meets its flag as the `use` keys before it (or `flags`) set it. */
  predicate KeysAccepted(flags: map<string, bool>, flag: string, guarded: set<string>, items: seq<(string, Yaml)>) {
    forall i :: 0 <= i < |items| && items[i].0 in guarded ==> FlagAllows(UseFlag(flags, flag, items[..i]), items[i].1)
  }

  /** A flag that is unbound, or whose walk is accepted even starting unbound, cannot make a later walk fail. */
  predicate FlagSettled(flags: map<string, bool>, flag: string, guarded: set<string>, items: seq<(string, Yaml)>) {
    flag !in flags || KeysAccepted(map[], flag, guarded, items)
  }

  /** The flags after the first key of `items` has been applied. */
  function FlagsAfter(flags: map<string, bool>, flag: string, key: (string, Yaml)): map<string, bool> {
    if key.0 == "use" then flags[flag := Truthy(key.1)] else flags
  }

  /** Acceptance of a walk is acceptance of its first key and of the rest under the updated flags. */
  lemma KeysAcceptedCons(flags: map<string, bool>, flag: string, guarded: set<string>, items: seq<(string, Yaml)>)
    requires items != []
    ensures KeysAccepted(flags, flag, guarded, items) <==>
      (items[0].0 in guarded ==> FlagAllows(if flag in flags then Some(flags[flag]) else None, items[0].1)) &&
      KeysAccepted(FlagsAfter(flags, flag, items[0]), flag, guarded, items[1..])
  {
    var next := FlagsAfter(flags, flag, items[0]);
    assert items[..0] == [];
    forall i | 1 <= i <= |items|
      ensures UseFlag(flags, flag, items[..i]) == UseFlag(next, flag, items[1..][..i - 1])
    {
      UseFlagCons(flags, flag, items, i);
    }
    if KeysAccepted(flags, flag, guarded, items) {
      forall j | 0 <= j < |items[1..]| && items[1..][j].0 in guarded
        ensures FlagAllows(UseFlag(next, flag, items[1..][..j]), items[1..][j].1)
      {
        assert items[j + 1] == items[1..][j];
      }
    }
    if (items[0].0 in guarded ==> FlagAllows(if flag in flags then Some(flags[flag]) else None, items[0].1)) &&
       KeysAccepted(next, flag, guarded, items[1..]) {
      forall i | 0 <= i < |items| && items[i].0 in guarded
        ensures FlagAllows(UseFlag(flags, flag, items[..i]), items[i].1)
      {
        if i > 0 {
          assert items[1..][i - 1] == items[i];
        }
      }
    }
  }

  /** An unbound flag reads as in the empty map. */
  lemma {:induction false} UseFlagUnbound(flags: map<string, bool>, flag: string, items: seq<(string, Yaml)>)
    requires flag !in flags
    ensures UseFlag(flags, flag, items) == UseFlag(map[], flag, items)
    decreases |items|
  {
    if items != [] && items[|items| - 1].0 != "use" {
      UseFlagUnbound(flags, flag, items[..|items| - 1]);
    }
  }

  /** Once a `use` key has bound the flag, the flags the walk started with no longer matter. */
  lemma {:induction false} UseFlagBound(flags: map<string, bool>, flag: string, items: seq<(string, Yaml)>)
    requires UseFlag(map[], flag, items).Some?
    ensures UseFlag(flags, flag, items) == UseFlag(map[], flag, items)
    decreases |items|
  {
    if items != [] && items[|items| - 1].0 != "use" {
      UseFlagBound(flags, flag, items[..|items| - 1]);
    }
  }

  /** A walk accepted from an unbound flag is accepted from any flags. */
  lemma KeysAcceptedAnyFlags(flags: map<string, bool>, flag: string, guarded: set<string>, items: seq<(string, Yaml)>)
    requires KeysAccepted(map[], flag, guarded, items)
    ensures KeysAccepted(flags, flag, guarded, items)
  {
    forall i | 0 <= i < |items| && items[i].0 in guarded
      ensures FlagAllows(UseFlag(flags, flag, items[..i]), items[i].1)
    {
      UseFlagBound(flags, flag, items[..i]);
    }
  }

  /** With the flag unbound, acceptance is acceptance from the empty map. */
  lemma KeysAcceptedUnbound(flags: map<string, bool>, flag: string, guarded: set<string>, items: seq<(string, Yaml)>)
    requires flag !in flags
    ensures KeysAccepted(flags, flag, guarded, items) <==> KeysAccepted(map[], flag, guarded, items)
  {
    forall i | 0 <= i < |items|
      ensures UseFlag(flags, flag, items[..i]) == UseFlag(map[], flag, items[..i])
    {
      UseFlagUnbound(flags, flag, items[..i]);
    }
  }

  /** A settled flag makes the walk's acceptance independent of the flags it starts from. */
  lemma SettledAccepted(flags: map<string, bool>, flag: string, guarded: set<string>, items: seq<(string, Yaml)>)
    requires FlagSettled(flags, flag, guarded, items)
    ensures KeysAccepted(flags, flag, guarded, items) <==> KeysAccepted(map[], flag, guarded, items)
  {
    if flag in flags {
      KeysAcceptedAnyFlags(flags, flag, guarded, items);
    } else {
      KeysAcceptedUnbound(flags, flag, guarded, items);
    }
  }

  /**
   * The walk of `pre_processing['denoise']` completes exactly when every
   * `channels` key comes after a `use` key (or a bound flag) and is not None
   * while the flag is truthy; it binds no flag but its own.
   */
  lemma {:induction false} PreDenoisePasses(s: Scan, items: seq<(string, Yaml)>)
    requires s.outcome.Pass?
    ensures PreDenoiseKeys(s, items).outcome.Pass? <==> KeysAccepted(s.flags, "preproc_denoise", DenoiseGuarded, items)
    ensures forall f :: f != "preproc_denoise" ==> (f in PreDenoiseKeys(s, items).flags <==> f in s.flags)
    ensures "preproc_denoise" in s.flags ==> "preproc_denoise" in PreDenoiseKeys(s, items).flags
    decreases |items|
  {
    if items != [] {
      var (key, value) := items[0];
      KeysAcceptedCons(s.flags, "preproc_denoise", DenoiseGuarded, items);
      if key == "use" {
        PreDenoisePasses(SetAttr(s, "preproc_denoise_use", value).(flags := s.flags["preproc_denoise" := Truthy(value)]), items[1..]);
      } else if key == "channels" {
        if "preproc_denoise" in s.flags && !(s.flags["preproc_denoise"] && value == YNone) {
          PreDenoisePasses(SetAttr(s, "preproc_denoise_channels", value), items[1..]);
        }
      } else if key == "threshold" {
        PreDenoisePasses(SetAttr(s, "preproc_denoise_thresholds", value), items[1..]);
      } else if key == "level" {
        PreDenoisePasses(SetAttr(s, "preproc_denoise_levels", value), items[1..]);
      } else {
        PreDenoisePasses(s, items[1..]);
      }
    }
  }

  /**
   * The first rejected `channels` key stops the pre-processing walk with
   * UnboundLocalError when no `use` key came before it, else AssertionError.
   */
  lemma {:induction false} PreDenoiseFirstRejected(s: Scan, items: seq<(string, Yaml)>, i: nat)
    requires s.outcome.Pass? && i < |items| && items[i].0 == "channels"
    requires KeysAccepted(s.flags, "preproc_denoise", DenoiseGuarded, items[..i])
    requires !FlagAllows(UseFlag(s.flags, "preproc_denoise", items[..i]), items[i].1)
    ensures PreDenoiseKeys(s, items).outcome == Fail(FlagError(UseFlag(s.flags, "preproc_denoise", items[..i])))
    decreases i
  {
    if i > 0 {
      assert items[..i][1..] == items[1..][..i - 1];
      var (key, value) := items[0];
      KeysAcceptedCons(s.flags, "preproc_denoise", DenoiseGuarded, items[..i]);
      UseFlagCons(s.flags, "preproc_denoise", items, i);
      if key == "use" {
        PreDenoiseFirstRejected(SetAttr(s, "preproc_denoise_use", value).(flags := s.flags["preproc_denoise" := Truthy(value)]), items[1..], i - 1);
      } else if key == "channels" {
        PreDenoiseFirstRejected(SetAttr(s, "preproc_denoise_channels", value), items[1..], i - 1);
      } else if key == "threshold" {
        PreDenoiseFirstRejected(SetAttr(s, "preproc_denoise_thresholds", value), items[1..], i - 1);
      } else if key == "level" {
        PreDenoiseFirstRejected(SetAttr(s, "preproc_denoise_levels", value), items[1..], i - 1);
      } else {
        PreDenoiseFirstRejected(s, items[1..], i - 1);
      }
    } else {
      assert items[..0] == [];
    }
  }

  /**
   * The walk of `post_processing['denoise']` completes under the same rule as
   * the pre-processing one.
   */
  lemma {:induction false} PostDenoisePasses(s: Scan, items: seq<(string, Yaml)>)
    requires s.outcome.Pass?
    ensures PostDenoiseKeys(s, items).outcome.Pass? <==> KeysAccepted(s.flags, "postproc_denoise", DenoiseGuarded, items)
    ensures forall f :: f != "postproc_denoise" ==> (f in PostDenoiseKeys(s, items).flags <==> f in s.flags)
    ensures "postproc_denoise" in s.flags ==> "postproc_denoise" in PostDenoiseKeys(s, items).flags
    decreases |items|
  {
    if items != [] {
      var (key, value) := items[0];
      KeysAcceptedCons(s.flags, "postproc_denoise", DenoiseGuarded, items);
      if key == "use" {
        PostDenoisePasses(SetAttr(s, "postproc_denoise_use", value).(flags := s.flags["postproc_denoise" := Truthy(value)]), items[1..]);
      } else if key == "channels" {
        if "postproc_denoise" in s.flags && !(s.flags["postproc_denoise"] && value == YNone) {
          PostDenoisePasses(SetAttr(s, "postproc_denoise_channels", value), items[1..]);
        }
      } else if key == "threshold" {
        PostDenoisePasses(SetAttr(s, "postproc_denoise_thresholds", value), items[1..]);
      } else if key == "level" {
        PostDenoisePasses(SetAttr(s, "postproc_denoise_levels", value), items[1..]);
      } else {
        PostDenoisePasses(s, items[1..]);
      }
    }
  }

  /**
   * The first rejected `channels` key stops the post-processing walk with the
   * same exception as before, but only after its value has been stored.
   */
  lemma {:induction false} PostDenoiseFirstRejected(s: Scan, items: seq<(string, Yaml)>, i: nat)
    requires s.outcome.Pass? && i < |items| && items[i].0 == "channels"
    requires KeysAccepted(s.flags, "postproc_denoise", DenoiseGuarded, items[..i])
    requires !FlagAllows(UseFlag(s.flags, "postproc_denoise", items[..i]), items[i].1)
    ensures PostDenoiseKeys(s, items).outcome == Fail(FlagError(UseFlag(s.flags, "postproc_denoise", items[..i])))
    ensures "postproc_denoise_channels" in PostDenoiseKeys(s, items).attrs &&
            PostDenoiseKeys(s, items).attrs["postproc_denoise_channels"] == items[i].1
    decreases i
  {
    if i > 0 {
      assert items[..i][1..] == items[1..][..i - 1];
      var (key, value) := items[0];
      KeysAcceptedCons(s.flags, "postproc_denoise", DenoiseGuarded, items[..i]);
      UseFlagCons(s.flags, "postproc_denoise", items, i);
      if key == "use" {
        PostDenoiseFirstRejected(SetAttr(s, "postproc_denoise_use", value).(flags := s.flags["postproc_denoise" := Truthy(value)]), items[1..], i - 1);
      } else if key == "channels" {
        PostDenoiseFirstRejected(SetAttr(s, "postproc_denoise_channels", value), items[1..], i - 1);
      } else if key == "threshold" {
        PostDenoiseFirstRejected(SetAttr(s, "postproc_denoise_thresholds", value), items[1..], i - 1);
      } else if key == "level" {
        PostDenoiseFirstRejected(SetAttr(s, "postproc_denoise_levels", value), items[1..], i - 1);
      } else {
        PostDenoiseFirstRejected(s, items[1..], i - 1);
      }
    } else {
      assert items[..0] == [];
    }
  }

  /**
   * The walk of `post_processing['registration']` completes exactly when every
   * `channel_idx` and `shift` key comes after a `use` key (or a bound flag) and
   * is not None while the flag is truthy.
   */
  lemma {:induction false} RegistrationPasses(s: Scan, items: seq<(string, Yaml)>)
    requires s.outcome.Pass?
    ensures RegistrationKeys(s, items).outcome.Pass? <==> KeysAccepted(s.flags, "postproc_registration", RegistrationGuarded, items)
    ensures forall f :: f != "postproc_registration" ==> (f in RegistrationKeys(s, items).flags <==> f in s.flags)
    ensures "postproc_registration" in s.flags ==> "postproc_registration" in RegistrationKeys(s, items).flags
    decreases |items|
  {
    if items != [] {
      var (key, value) := items[0];
      KeysAcceptedCons(s.flags, "postproc_registration", RegistrationGuarded, items);
      var ok := "postproc_registration" in s.flags && !(s.flags["postproc_registration"] && value == YNone);
      if key == "use" {
        RegistrationPasses(SetAttr(s, "postproc_registration_use", value).(flags := s.flags["postproc_registration" := Truthy(value)]), items[1..]);
      } else if key == "channel_idx" {
        if ok {
          RegistrationPasses(SetAttr(s, "postproc_registration_channel_idx", ChannelIndex(value)), items[1..]);
        }
      } else if key == "shift" {
        if ok {
          RegistrationPasses(SetAttr(s, "postproc_registration_shift", value), items[1..]);
        }
      } else {
        RegistrationPasses(s, items[1..]);
      }
    }
  }

  /**
   * The first rejected `channel_idx` or `shift` key stops the registration walk
   * with UnboundLocalError when no `use` key came before it, else
   * AssertionError; a rejected shift has been stored first.
   */
  lemma {:induction false} RegistrationFirstRejected(s: Scan, items: seq<(string, Yaml)>, i: nat)
    requires s.outcome.Pass? && i < |items| && items[i].0 in RegistrationGuarded
    requires KeysAccepted(s.flags, "postproc_registration", RegistrationGuarded, items[..i])
    requires !FlagAllows(UseFlag(s.flags, "postproc_registration", items[..i]), items[i].1)
    ensures RegistrationKeys(s, items).outcome == Fail(FlagError(UseFlag(s.flags, "postproc_registration", items[..i])))
    ensures items[i].0 == "shift" ==>
      "postproc_registration_shift" in RegistrationKeys(s, items).attrs &&
      RegistrationKeys(s, items).attrs["postproc_registration_shift"] == items[i].1
    decreases i
  {
    if i > 0 {
      assert items[..i][1..] == items[1..][..i - 1];
      var (key, value) := items[0];
      KeysAcceptedCons(s.flags, "postproc_registration", RegistrationGuarded, items[..i]);
      UseFlagCons(s.flags, "postproc_registration", items, i);
      if key == "use" {
        RegistrationFirstRejected(SetAttr(s, "postproc_registration_use", value).(flags := s.flags["postproc_registration" := Truthy(value)]), items[1..], i - 1);
      } else if key == "channel_idx" {
        RegistrationFirstRejected(SetAttr(s, "postproc_registration_channel_idx", ChannelIndex(value)), items[1..], i - 1);
      } else if key == "shift" {
        RegistrationFirstRejected(SetAttr(s, "postproc_registration_shift", value), items[1..], i - 1);
      } else {
        RegistrationFirstRejected(s, items[1..], i - 1);
      }
    } else {
      assert items[..0] == [];
    }
  }

  /** No key of a section contains `word`, so no walk of `section[word]` starts. */
  predicate NoKeyContains(keys: seq<(string, Yaml)>, word: string) {
    forall k :: 0 <= k < |keys| ==> !Contains(keys[k].0, word)
  }

  lemma NoKeyContainsCons(keys: seq<(string, Yaml)>, word: string)
    requires keys != []
    ensures NoKeyContains(keys, word) <==> !Contains(keys[0].0, word) && NoKeyContains(keys[1..], word)
  {
    if !Contains(keys[0].0, word) && NoKeyContains(keys[1..], word) {
      forall k | 0 < k < |keys|
        ensures !Contains(keys[k].0, word)
      {
        assert keys[k] == keys[1..][k - 1];
      }
    }
  }

  /**
   * The `pre_processing` loop completes exactly when no key names the denoise
   * section or the denoise walk is accepted; as the loop walks the section
   * again for every such key, only the first walk can fail, and then the loop
   * ends with that walk's exception.  In `read_config` the flag starts unbound,
   * which settles it.
   */
  lemma {:induction false} PreSectionPasses(s: Scan, section: Yaml, keys: seq<(string, Yaml)>, items: seq<(string, Yaml)>)
    requires s.outcome.Pass?
    requires SubItems(section, "denoise") == Ok(items) || NoKeyContains(keys, "denoise")
    requires FlagSettled(s.flags, "preproc_denoise", DenoiseGuarded, items)
    ensures PreSection(s, section, keys).outcome.Pass? <==>
      NoKeyContains(keys, "denoise") || KeysAccepted(map[], "preproc_denoise", DenoiseGuarded, items)
    ensures PreSection(s, section, keys).outcome.Fail? ==>
      PreSection(s, section, keys).outcome == PreDenoiseKeys(s, items).outcome
    decreases |keys|
  {
    if keys != [] {
      NoKeyContainsCons(keys, "denoise");
      if Contains(keys[0].0, "denoise") {
        PreDenoisePasses(s, items);
        SettledAccepted(s.flags, "preproc_denoise", DenoiseGuarded, items);
        var next := PreDenoiseKeys(s, items);
        if next.outcome.Pass? {
          PreSectionPasses(next, section, keys[1..], items);
        }
      } else {
        PreSectionPasses(s, section, keys[1..], items);
      }
    }
  }

  /**
   * One key of `post_processing`: it completes exactly when each walk it
   * starts is accepted, and afterwards both flags are still settled.
   */
  lemma PostKeyPasses(s: Scan, section: Yaml, key: string, denoise: seq<(string, Yaml)>, registration: seq<(string, Yaml)>)
    requires s.outcome.Pass?
    requires Contains(key, "denoise") ==> SubItems(section, "denoise") == Ok(denoise)
    requires Contains(key, "registration") ==> SubItems(section, "registration") == Ok(registration)
    requires FlagSettled(s.flags, "postproc_denoise", DenoiseGuarded, denoise)
    requires FlagSettled(s.flags, "postproc_registration", RegistrationGuarded, registration)
    ensures var n := PostKey(s, section, key);
      n.outcome.Pass? <==>
        (Contains(key, "denoise") ==> KeysAccepted(map[], "postproc_denoise", DenoiseGuarded, denoise)) &&
        (Contains(key, "registration") ==> KeysAccepted(map[], "postproc_registration", RegistrationGuarded, registration))
    ensures var n := PostKey(s, section, key);
      n.outcome.Pass? ==>
        FlagSettled(n.flags, "postproc_denoise", DenoiseGuarded, denoise) &&
        FlagSettled(n.flags, "postproc_registration", RegistrationGuarded, registration)
  {
    var afterDenoise := if Contains(key, "denoise") then PostDenoiseKeys(s, denoise) else s;
    if Contains(key, "denoise") {
      PostDenoisePasses(s, denoise);
      SettledAccepted(s.flags, "postproc_denoise", DenoiseGuarded, denoise);
    }
    if afterDenoise.outcome.Pass? && Contains(key, "registration") {
      assert FlagSettled(afterDenoise.flags, "postproc_registration", RegistrationGuarded, registration);
      RegistrationPasses(afterDenoise, registration);
      SettledAccepted(afterDenoise.flags, "postproc_registration", RegistrationGuarded, registration);
    }
  }

  /**
   * The `post_processing` loop completes exactly when the denoise walk is
   * accepted (or never starts) and the registration walk is accepted (or
   * never starts).  In `read_config` both flags start unbound.
   */
  lemma {:induction false} PostSectionPasses(s: Scan, section: Yaml, keys: seq<(string, Yaml)>,
                                             denoise: seq<(string, Yaml)>, registration: seq<(string, Yaml)>)
    requires s.outcome.Pass?
    requires SubItems(section, "denoise") == Ok(denoise) || NoKeyContains(keys, "denoise")
    requires SubItems(section, "registration") == Ok(registration) || NoKeyContains(keys, "registration")
    requires FlagSettled(s.flags, "postproc_denoise", DenoiseGuarded, denoise)
    requires FlagSettled(s.flags, "postproc_registration", RegistrationGuarded, registration)
    ensures PostSection(s, section, keys).outcome.Pass? <==>
      (NoKeyContains(keys, "denoise") || KeysAccepted(map[], "postproc_denoise", DenoiseGuarded, denoise)) &&
      (NoKeyContains(keys, "registration") || KeysAccepted(map[], "postproc_registration", RegistrationGuarded, registration))
    decreases |keys|
  {
    if keys != [] {
      NoKeyContainsCons(keys, "denoise");
      NoKeyContainsCons(keys, "registration");
      PostKeyPasses(s, section, keys[0].0, denoise, registration);
      var next := PostKey(s, section, keys[0].0);
      if next.outcome.Pass? {
        PostSectionPasses(next, section, keys[1..], denoise, registration);
      }
    }
  }

  /** One processing key the loop accepts: `output_channels` whose phase test works, or a known name. */
  predicate ProcessingKeyAccepted(item: (string, Yaml)) {
    if item.0 == "output_channels" then PhaseRequested(item.1).Ok? else IsProcessingKey(item.0)
  }

  /** The exception a rejected processing key raises: the phase test's, else NameError for an unknown name. */
  function ProcessingKeyError(item: (string, Yaml)): Error {
    if item.0 == "output_channels" && PhaseRequested(item.1).Err? then PhaseRequested(item.1).error else NameError
  }

  /** No key of `items` is `name`. */
  predicate KeyAbsent(items: seq<(string, Yaml)>, name: string) {
    forall j :: 0 <= j < |items| ==> items[j].0 != name
  }

  /** The state after one accepted processing key. */
  function ProcessingStep(s: Scan, item: (string, Yaml)): Scan
    requires ProcessingKeyAccepted(item)
  {
    if item.0 == "output_channels" then
      SetAttr(s, item.0, item.1).(flags := s.flags["phase_processing" := PhaseRequested(item.1).value])
    else SetAttr(s, item.0, item.1)
  }

  /** The `processing` loop completes exactly when every key is accepted. */
  lemma {:induction false} ProcessingKeysPasses(s: Scan, items: seq<(string, Yaml)>)
    requires s.outcome.Pass?
    ensures ProcessingKeys(s, items).outcome.Pass? <==> forall i :: 0 <= i < |items| ==> ProcessingKeyAccepted(items[i])
    decreases |items|
  {
    if items != [] && ProcessingKeyAccepted(items[0]) {
      assert ProcessingKeys(s, items) == ProcessingKeys(ProcessingStep(s, items[0]), items[1..]);
      ProcessingKeysPasses(ProcessingStep(s, items[0]), items[1..]);
      forall i | 0 < i < |items|
        ensures items[i] == items[1..][i - 1]
      {
      }
    }
  }

  /**
   * Attributes the `processing` loop meets no key for are left alone, and so
   * are the flags when there is no `output_channels` key.
   */
  lemma {:induction false} ProcessingKeysFrame(s: Scan, items: seq<(string, Yaml)>, name: string)
    requires KeyAbsent(items, name)
    ensures var r := ProcessingKeys(s, items);
      (name in r.attrs <==> name in s.attrs) && (name in s.attrs ==> r.attrs[name] == s.attrs[name])
    ensures name == "output_channels" ==> ProcessingKeys(s, items).flags == s.flags
    decreases |items|
  {
    if items != [] && ProcessingKeyAccepted(items[0]) {
      assert ProcessingKeys(s, items) == ProcessingKeys(ProcessingStep(s, items[0]), items[1..]);
      assert items[0].0 != name;
      forall j | 0 <= j < |items| - 1
        ensures items[1..][j].0 != name
      {
        assert items[1..][j] == items[j + 1];
      }
      ProcessingKeysFrame(ProcessingStep(s, items[0]), items[1..], name);
    }
  }

  /**
   * A completed `processing` loop stores every key under its own name, the
   * last occurrence winning, and the phase flag is the phase test of the last
   * `output_channels`.
   */
  lemma {:induction false} ProcessingKeysLastWins(s: Scan, items: seq<(string, Yaml)>, i: nat)
    requires i < |items| && KeyAbsent(items[i + 1..], items[i].0)
    requires ProcessingKeys(s, items).outcome.Pass?
    ensures var r := ProcessingKeys(s, items);
      items[i].0 in r.attrs && r.attrs[items[i].0] == items[i].1 &&
      (items[i].0 == "output_channels" ==>
        "phase_processing" in r.flags && PhaseRequested(items[i].1) == Ok(r.flags["phase_processing"]))
    decreases i
  {
    assert ProcessingKeyAccepted(items[0]);
    var next := ProcessingStep(s, items[0]);
    assert ProcessingKeys(s, items) == ProcessingKeys(next, items[1..]);
    if i > 0 {
      assert items[1..][i - 1] == items[i] && items[1..][i..] == items[i + 1..];
      ProcessingKeysLastWins(next, items[1..], i - 1);
    } else {
      ProcessingKeysFrame(next, items[1..], items[0].0);
    }
  }

  /** The first key the `processing` loop rejects ends it with that key's exception. */
  lemma {:induction false} ProcessingFirstRejected(s: Scan, items: seq<(string, Yaml)>, i: nat)
    requires s.outcome.Pass? && i < |items|
    requires forall j :: 0 <= j < i ==> ProcessingKeyAccepted(items[j])
    requires !ProcessingKeyAccepted(items[i])
    ensures ProcessingKeys(s, items).outcome == Fail(ProcessingKeyError(items[i]))
    decreases i
  {
    if i > 0 {
      assert ProcessingKeyAccepted(items[0]);
      forall j | 0 <= j < i - 1
        ensures ProcessingKeyAccepted(items[1..][j])
      {
        assert items[1..][j] == items[j + 1];
      }
      assert items[1..][i - 1] == items[i];
      assert ProcessingKeys(s, items) == ProcessingKeys(ProcessingStep(s, items[0]), items[1..]);
      ProcessingFirstRejected(ProcessingStep(s, items[0]), items[1..], i - 1);
    }
  }

  /**
   * When a phase output is requested and the processing checks pass, the
   * required fields are set, the immersion index is at least both apertures,
   * and z_slices is `['all']`.
   */
  lemma PhaseChecksEnforce(s: Scan)
    requires PhaseChecks(s).outcome.Pass?
    requires "phase_processing" in s.flags && s.flags["phase_processing"]
    ensures forall i :: 0 <= i < |PhaseFields| ==> PhaseFields[i] in s.attrs && s.attrs[PhaseFields[i]] != YNone
    ensures AtLeastHolds(s.attrs["n_objective_media"], s.attrs["NA_objective"])
    ensures AtLeastHolds(s.attrs["n_objective_media"], s.attrs["NA_condenser"])
    ensures s.attrs["z_slices"] == AllSelection
  {
    assert PhasePrerequisites(s.attrs).Pass?;
    assert PhaseFields[2] == "NA_objective" && PhaseFields[3] == "NA_condenser" && PhaseFields[4] == "n_objective_media";
  }

  /** A listed `Phase2D` output needs `focus_zidx`, whether or not other checks ran. */
  lemma FocusRequired(s: Scan)
    requires PhaseChecks(s).outcome.Pass?
    requires "output_channels" in s.attrs && s.attrs["output_channels"].YList?
    requires YStr("Phase2D") in s.attrs["output_channels"].items
    ensures "focus_zidx" in s.attrs && s.attrs["focus_zidx"] != YNone
  {
  }

  // ---------------------------------------------------------------------------
  // The object and the imperative scans

  /** The configuration object; its attributes change only inside `read_config`. */
  class ConfigReader {
    var attrs: map<string, Yaml>

    constructor (dataDir: Yaml, saveDir: Yaml, name: Yaml)
      ensures attrs == Defaults(dataDir, saveDir, name)
    {
      attrs := Defaults(dataDir, saveDir, name);
    }

    /** `__setattr__`: every assignment from outside is refused. */
    method SetAttribute(name: string, value: Yaml) returns (o: Outcome)
      ensures o == Fail(AttributeError)
    {
      o := Fail(AttributeError);
    }

    /** `read_config` on the parsed document, as written. */
    method ReadConfig(config: Yaml) returns (o: Outcome)
      modifies this
      ensures attrs == Read(AsWritten, old(attrs), config).attrs
      ensures o == Read(AsWritten, old(attrs), config).outcome
    {
      var s := RunRead(AsWritten, attrs, config);
      attrs := s.attrs;
      o := s.outcome;
    }
  }

  /**
   * `ConfigReader(path, data_dir, save_dir, name)`: the defaults, then
   * `read_config` when a path is given; `config` is what loading that file yields.
   */
  method Open(path: string, config: Yaml, dataDir: Yaml, saveDir: Yaml, name: Yaml)
    returns (reader: ConfigReader, o: Outcome)
    ensures fresh(reader)
    ensures path == "" ==> o == Pass && reader.attrs == Defaults(dataDir, saveDir, name)
    ensures path != "" ==> o.Fail? && reader.attrs == Read(AsWritten, Defaults(dataDir, saveDir, name), config).attrs
  {
    reader := new ConfigReader(dataDir, saveDir, name);
    o := Pass;
    if path != "" {
      DefaultsNeverRead(dataDir, saveDir, name, config);
      o := reader.ReadConfig(config);
    }
  }

  /** `read_config`'s statements in order, on values. */
  method RunRead(rev: Revision, attrs: map<string, Yaml>, config: Yaml) returns (s: Scan)
    ensures s == Read(rev, attrs, config)
  {
    s := Scan(attrs["yaml_config" := config], map[], Pass);
    var hasDataset := PyIn("dataset", config);
    if hasDataset.Err? {
      return Failed(s, hasDataset.error);
    }
    if !hasDataset.value {
      return Failed(s, AssertionError);
    }
    var dataset := PyGet(config, "dataset");
    if dataset.Err? {
      return Failed(s, dataset.error);
    }
    s := RunReadDataset(rev, s, dataset.value);
    if s.outcome.Fail? {
      return;
    }
    s := RunSections(s, config.entries);
  }

  method RunReadDataset(rev: Revision, s0: Scan, dataset: Yaml) returns (s: Scan)
    ensures s == ReadDataset(rev, s0, dataset)
  {
    s := s0;
    var required := RunRequired(s.attrs, dataset, RequiredPairs(rev));
    if required.Fail? {
      return s.(outcome := required);
    }
    s := RunOverwrite(rev, s, dataset, RequiredNames);
    if s.outcome.Fail? {
      return;
    }
    var items := PyItems(dataset);
    if items.Err? {
      return Failed(s, items.error);
    }
    s := RunDataset(rev, s, items.value);
  }

  method RunRequired(attrs: map<string, Yaml>, dataset: Yaml, pairs: seq<(string, string)>) returns (o: Outcome)
    ensures o == Required(attrs, dataset, pairs)
  {
    var k := 0;
    while k < |pairs|
      invariant 0 <= k <= |pairs|
      invariant Required(attrs, dataset, pairs) == Required(attrs, dataset, pairs[k..])
    {
      assert pairs[k..][1..] == pairs[k + 1..];
      var (name, key) := pairs[k];
      if name !in attrs {
        return Fail(AttributeError);
      }
      if !Truthy(attrs[name]) {
        var found := PyIn(key, dataset);
        if found.Err? {
          return Fail(found.error);
        }
        if !found.value {
          return Fail(AssertionError);
        }
      }
      k := k + 1;
    }
    assert pairs[k..] == [];
    o := Pass;
  }

  method RunOverwrite(rev: Revision, s0: Scan, dataset: Yaml, names: seq<string>) returns (s: Scan)
    ensures s == Overwrite(rev, s0, dataset, names)
  {
    s := s0;
    var k := 0;
    while k < |names|
      invariant 0 <= k <= |names|
      invariant Overwrite(rev, s0, dataset, names) == Overwrite(rev, s, dataset, names[k..])
    {
      assert names[k..][1..] == names[k + 1..];
      var name := names[k];
      if name !in s.attrs {
        return Failed(s, AttributeError);
      }
      var current := s.attrs[name];
      var wanted := if rev == AsWritten then Truthy(current) else !Truthy(current);
      if wanted {
        var y := PyGet(dataset, name);
        if y.Err? {
          return Failed(s, y.error);
        }
        if y.value != YNone {
          s := SetAttr(s, name, y.value);
        }
      }
      k := k + 1;
    }
    assert names[k..] == [];
  }

  method RunDataset(rev: Revision, s0: Scan, items: seq<(string, Yaml)>) returns (s: Scan)
    ensures s == DatasetLoop(rev, s0, items)
  {
    s := s0;
    var k := 0;
    while k < |items|
      invariant 0 <= k <= |items|
      invariant DatasetLoop(rev, s0, items) == DatasetLoop(rev, s, items[k..])
    {
      assert items[k..][1..] == items[k + 1..];
      var (key, value) := items[k];
      if IsSelectionKey(key) {
        if rev == Corrected && !(value.YStr? || value.YList?) {
          return Failed(s, AssertionError);
        }
        s := SetAttr(s, key, Selection(value));
      } else if IsStoredKey(key) {
        s := SetAttr(s, key, value);
      } else if !IsSkippedKey(rev, key) {
        return Failed(s, NameError);
      }
      k := k + 1;
    }
    assert items[k..] == [];
  }

  method RunPreDenoise(s0: Scan, items: seq<(string, Yaml)>) returns (s: Scan)
    ensures s == PreDenoiseKeys(s0, items)
    ensures s0.outcome.Pass? ==> (s.outcome.Pass? <==> KeysAccepted(s0.flags, "preproc_denoise", DenoiseGuarded, items))
  {
    if s0.outcome.Pass? {
      PreDenoisePasses(s0, items);
    }
    s := s0;
    var k := 0;
    while k < |items|
      invariant 0 <= k <= |items|
      invariant PreDenoiseKeys(s0, items) == PreDenoiseKeys(s, items[k..])
    {
      assert items[k..][1..] == items[k + 1..];
      var (key, value) := items[k];
      if key == "use" {
        s := SetAttr(s, "preproc_denoise_use", value).(flags := s.flags["preproc_denoise" := Truthy(value)]);
      } else if key == "channels" {
        if "preproc_denoise" !in s.flags {
          return Failed(s, UnboundLocalError);
        }
        if s.flags["preproc_denoise"] && value == YNone {
          return Failed(s, AssertionError);
        }
        s := SetAttr(s, "preproc_denoise_channels", value);
      } else if key == "threshold" {
        s := SetAttr(s, "preproc_denoise_thresholds", value);
      } else if key == "level" {
        s := SetAttr(s, "preproc_denoise_levels", value);
      }
      k := k + 1;
    }
    assert items[k..] == [];
  }

  method RunPostDenoise(s0: Scan, items: seq<(string, Yaml)>) returns (s: Scan)
    ensures s == PostDenoiseKeys(s0, items)
    ensures s0.outcome.Pass? ==> (s.outcome.Pass? <==> KeysAccepted(s0.flags, "postproc_denoise", DenoiseGuarded, items))
  {
    if s0.outcome.Pass? {
      PostDenoisePasses(s0, items);
    }
    s := s0;
    var k := 0;
    while k < |items|
      invariant 0 <= k <= |items|
      invariant PostDenoiseKeys(s0, items) == PostDenoiseKeys(s, items[k..])
    {
      assert items[k..][1..] == items[k + 1..];
      var (key, value) := items[k];
      if key == "use" {
        s := SetAttr(s, "postproc_denoise_use", value).(flags := s.flags["postproc_denoise" := Truthy(value)]);
      } else if key == "channels" {
        var flagged := s.flags;
        s := SetAttr(s, "postproc_denoise_channels", value);
        if "postproc_denoise" !in flagged {
          return Failed(s, UnboundLocalError);
        }
        if flagged["postproc_denoise"] && value == YNone {
          return Failed(s, AssertionError);
        }
      } else if key == "threshold" {
        s := SetAttr(s, "postproc_denoise_thresholds", value);
      } else if key == "level" {
        s := SetAttr(s, "postproc_denoise_levels", value);
      }
      k := k + 1;
    }
    assert items[k..] == [];
  }

  method RunRegistration(s0: Scan, items: seq<(string, Yaml)>) returns (s: Scan)
    ensures s == RegistrationKeys(s0, items)
    ensures s0.outcome.Pass? ==>
      (s.outcome.Pass? <==> KeysAccepted(s0.flags, "postproc_registration", RegistrationGuarded, items))
  {
    if s0.outcome.Pass? {
      RegistrationPasses(s0, items);
    }
    s := s0;
    var k := 0;
    while k < |items|
      invariant 0 <= k <= |items|
      invariant RegistrationKeys(s0, items) == RegistrationKeys(s, items[k..])
    {
      assert items[k..][1..] == items[k + 1..];
      var (key, value) := items[k];
      if key == "use" {
        s := SetAttr(s, "postproc_registration_use", value).(flags := s.flags["postproc_registration" := Truthy(value)]);
      } else if key == "channel_idx" {
        if "postproc_registration" !in s.flags {
          return Failed(s, UnboundLocalError);
        }
        if s.flags["postproc_registration"] && value == YNone {
          return Failed(s, AssertionError);
        }
        s := SetAttr(s, "postproc_registration_channel_idx", ChannelIndex(value));
      } else if key == "shift" {
        var flagged := s.flags;
        s := SetAttr(s, "postproc_registration_shift", value);
        if "postproc_registration" !in flagged {
          return Failed(s, UnboundLocalError);
        }
        if flagged["postproc_registration"] && value == YNone {
          return Failed(s, AssertionError);
        }
      }
      k := k + 1;
    }
    assert items[k..] == [];
  }

  method RunPreSection(s0: Scan, section: Yaml, keys: seq<(string, Yaml)>) returns (s: Scan)
    ensures s == PreSection(s0, section, keys)
    ensures var items := SubItems(section, "denoise");
      s0.outcome.Pass? && "preproc_denoise" !in s0.flags && items.Ok? ==>
        (s.outcome.Pass? <==> NoKeyContains(keys, "denoise") || KeysAccepted(map[], "preproc_denoise", DenoiseGuarded, items.value))
  {
    var items := SubItems(section, "denoise");
    if s0.outcome.Pass? && "preproc_denoise" !in s0.flags && items.Ok? {
      PreSectionPasses(s0, section, keys, items.value);
    }
    s := s0;
    var k := 0;
    while k < |keys|
      invariant 0 <= k <= |keys|
      invariant PreSection(s0, section, keys) == PreSection(s, section, keys[k..])
    {
      assert keys[k..][1..] == keys[k + 1..];
      if Contains(keys[k].0, "denoise") {
        var items := SubItems(section, "denoise");
        if items.Err? {
          return Failed(s, items.error);
        }
        s := RunPreDenoise(s, items.value);
        if s.outcome.Fail? {
          return;
        }
      }
      k := k + 1;
    }
    assert keys[k..] == [];
  }

  method RunPostSection(s0: Scan, section: Yaml, keys: seq<(string, Yaml)>) returns (s: Scan)
    ensures s == PostSection(s0, section, keys)
    ensures var denoise := SubItems(section, "denoise");
      var registration := SubItems(section, "registration");
      s0.outcome.Pass? && "postproc_denoise" !in s0.flags && "postproc_registration" !in s0.flags &&
      denoise.Ok? && registration.Ok? ==>
        (s.outcome.Pass? <==>
          (NoKeyContains(keys, "denoise") || KeysAccepted(map[], "postproc_denoise", DenoiseGuarded, denoise.value)) &&
          (NoKeyContains(keys, "registration") ||
           KeysAccepted(map[], "postproc_registration", RegistrationGuarded, registration.value)))
  {
    var denoise := SubItems(section, "denoise");
    var registration := SubItems(section, "registration");
    if s0.outcome.Pass? && "postproc_denoise" !in s0.flags && "postproc_registration" !in s0.flags &&
       denoise.Ok? && registration.Ok? {
      PostSectionPasses(s0, section, keys, denoise.value, registration.value);
    }
    s := s0;
    var k := 0;
    while k < |keys|
      invariant 0 <= k <= |keys|
      invariant PostSection(s0, section, keys) == PostSection(s, section, keys[k..])
    {
      assert keys[k..][1..] == keys[k + 1..];
      s := RunPostKey(s, section, keys[k].0);
      if s.outcome.Fail? {
        return;
      }
      k := k + 1;
    }
    assert keys[k..] == [];
  }

  method RunPostKey(s0: Scan, section: Yaml, key: string) returns (s: Scan)
    ensures s == PostKey(s0, section, key)
  {
    s := s0;
    if Contains(key, "denoise") {
      var items := SubItems(section, "denoise");
      if items.Err? {
        return Failed(s, items.error);
      }
      s := RunPostDenoise(s, items.value);
    }
    if s.outcome.Fail? {
      return;
    }
    if Contains(key, "registration") {
      var items := SubItems(section, "registration");
      if items.Err? {
        return Failed(s, items.error);
      }
      s := RunRegistration(s, items.value);
    }
  }

  method RunProcessing(s0: Scan, items: seq<(string, Yaml)>) returns (s: Scan)
    ensures s == ProcessingKeys(s0, items)
    ensures s0.outcome.Pass? ==> (s.outcome.Pass? <==> forall i :: 0 <= i < |items| ==> ProcessingKeyAccepted(items[i]))
  {
    if s0.outcome.Pass? {
      ProcessingKeysPasses(s0, items);
    }
    s := s0;
    var k := 0;
    while k < |items|
      invariant 0 <= k <= |items|
      invariant ProcessingKeys(s0, items) == ProcessingKeys(s, items[k..])
    {
      assert items[k..][1..] == items[k + 1..];
      var (key, value) := items[k];
      if key == "output_channels" {
        s := SetAttr(s, "output_channels", value);
        var phase := PhaseRequested(value);
        if phase.Err? {
          return Failed(s, phase.error);
        }
        s := s.(flags := s.flags["phase_processing" := phase.value]);
      } else if IsProcessingKey(key) {
        s := SetAttr(s, key, value);
      } else {
        return Failed(s, NameError);
      }
      k := k + 1;
    }
    assert items[k..] == [];
  }

  method RunSections(s0: Scan, config: seq<(string, Yaml)>) returns (s: Scan)
    ensures s == Sections(s0, config)
  {
    s := s0;
    var pre := Lookup(config, "pre_processing");
    if pre.Some? {
      var keys := PyItems(pre.value);
      if keys.Err? {
        return Failed(s, keys.error);
      }
      s := RunPreSection(s, pre.value, keys.value);
    }
    if s.outcome.Fail? {
      return;
    }
    var post := Lookup(config, "post_processing");
    if post.Some? {
      var keys := PyItems(post.value);
      if keys.Err? {
        return Failed(s, keys.error);
      }
      s := RunPostSection(s, post.value, keys.value);
    }
    if s.outcome.Fail? {
      return;
    }
    var processing := Lookup(config, "processing");
    if processing.Some? {
      var items := PyItems(processing.value);
      if items.Err? {
        return Failed(s, items.error);
      }
      s := RunProcessing(s, items.value);
      if s.outcome.Fail? {
        return;
      }
      s := PhaseChecks(s);
    }
  }
}
