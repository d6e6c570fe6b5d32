# recOrder reconstruction core, modelled in Dafny

recOrder reconstructs polarisation, phase and fluorescence data from
microscope acquisitions. This project models six of its components:

- **Reconstruction manager** (`PipelineManager`). It builds the set of
  (position, time) units a configuration selects and assigns each position a
  write slot (`_gen_coord_set`). It reduces the plate metadata of an HCS
  dataset to the selected positions (`_update_hcs_meta_from_config`). It may
  delete an earlier output store, picks a pipeline by method name, and resolves
  the pre- and post-processing parameter lists. Then it reconstructs every unit
  in sorted order, initialising its output array and writing its results
  (`run`). Post-processing routes each denoise entry to a channel, and
  registration picks its source volumes.
  Modules: `CoordSet`, `Hcs`, `Params`, `Stages`, `Manager`.
- **Old configuration reader** (`config_reader_old.py`). It starts from
  defaults, then scans the `dataset`, `pre_processing`, `post_processing` and
  `processing` sections of a YAML document. It applies the required-field,
  unknown-key and phase-reconstruction checks. Module `ConfigFile`.
- **Reconstruction widget** (`plugin/widget/main_widget.py`). It parses the
  position and timepoint fields into config selections, splits the
  output-channel field, writes a selection back to its field, and appends a
  note to the last calibration file. Module `GuiParse`.
- **Acquisition widget set-up** (`plugin/main_widget.py`). At connect it finds
  the config group that holds the calibration states, lists the bright-field
  presets, and picks the liquid-crystal control mode. It checks the chosen
  config group and whether the presets agree with the mode. It also covers the
  background-correction combo box and the field check before an acquisition.
  Module `MmSetup`.
- **Calibration workers** (`plugin/workers/calibration_workers.py`). This covers:
  - the order of steps, progress reports and stop checks of a calibration and
    of a background capture;
  - the choice of metadata file and background folder name;
  - grading of the extinction ratio;
  - loading the LC states from a calibration file;
  - the microscope parameters written after a background capture.
  Module `Calibration`.
- **Fluorescence deconvolution helpers** (`compute/fluorescence_deconvolution.py`).
  This covers reconstructor initialisation (axis order, mode, wavelength
  handling), the per-channel background, and the shape checks and axis
  transposes of 2D and 3D deconvolution. Module `Deconvolution`.

Shared modules: `Common` models Python values loaded from YAML/JSON (`Yaml`),
exceptions (`Error`), results, and dictionary and `in` semantics. `PyStrings`
models `str.split`, `str.join`, `replace(' ', '')`, `int()`/`str()` on
integers and `:03d` formatting.

External effects are parameters of the model. This covers:
- the data reader's position and frame counts;
- the file system, as a set of paths;
- Micro-Manager's config groups, presets and device list;
- the text of line edits;
- the pipelines' stage functions, as function-typed fields;
- `float()` on a field text;
- the enumeration order of Python sets.

Imperative code is modelled as methods with loops and classes with fields:
- the output store;
- the manager;
- the HCS plate shared by the shallow metadata copy;
- the widgets;
- the background-folder file system.

Each method is proved against a specification function, about which the
listed lemmas are proved.

Where the behaviour described for the system and the code differ, the model
follows the code. Examples:
- a non-empty list entry in the configured positions raises `TypeError`. The
  position loop stores the list itself as a dictionary key
  (`recOrder/pipelines/pipeline_manager.py:217`);
- `_gen_coord_set` reports every unrecognised entry as `ValueError`;
- the old reader can never finish reading a file (see Findings).

## Model

| member | source | states |
|---|---|---|
| `CoordSet.EntryOf` | recOrder/pipelines/pipeline_manager.py:203-225 | a config entry is classified as the loop tests it: a string only as a string; a Python int, bools included, keeps its value; a list of ints becomes an int list with those values, and any other list keeps its items as a mixed list |
| `CoordSet.Span` | recOrder/pipelines/pipeline_manager.py:220 | `range(a, b)`: length b-a (0 when b <= a) and element i is a+i |
| `CoordSet.SpanMembers` | recOrder/pipelines/pipeline_manager.py:205 | x is visited by `range(a, b)` exactly when a <= x < b |
| `CoordSet.ThenThen` | recOrder/pipelines/pipeline_manager.py:202-225 | visiting two prefixes in turn is visiting their concatenation (the scan is sequential) |
| `CoordSet.Members` | recOrder/pipelines/pipeline_manager.py:197-199 | the index set holds exactly the visited indices |
| `CoordSet.SlotMapIsLastVisit` | recOrder/pipelines/pipeline_manager.py:202-222 | `indices_map` has a key exactly for each visited position, and maps it to the counter value of its LAST visit |
| `CoordSet.SlotMapInjective` | recOrder/pipelines/pipeline_manager.py:202-222 | distinct positions get distinct write slots, each below the number of visits |
| `CoordSet.SlotMapEarlierSlotUnused` | recOrder/pipelines/pipeline_manager.py:202-222 | a position visited twice leaves its earlier counter value unused by every position |
| `CoordSet.VisitsAppend` | recOrder/pipelines/pipeline_manager.py:202-242 | until 'all' is met, the entries are scanned left to right: the visits of pre+rest are those of pre followed by those of rest, and an error in rest propagates |
| `CoordSet.AllStopsScan` | recOrder/pipelines/pipeline_manager.py:204-208 | 'all' visits range(extent) and ends the loop: nothing after it is read, even a malformed entry |
| `CoordSet.ListEntry` | recOrder/pipelines/pipeline_manager.py:214-217 | a non-empty list entry raises TypeError for positions (the list is used as a dict key) and visits its items in order for timepoints |
| `CoordSet.MixedListEntry` | recOrder/pipelines/pipeline_manager.py:214-217 | a non-empty list holding a non-int item raises TypeError among the positions (the list becomes a dict key), and also among the timepoints when an item is a list or a dict (it cannot join the set) |
| `CoordSet.BoundedSetSize` | recOrder/pipelines/pipeline_manager.py:86 | a set of indices inside [0, bound) has at most bound members |
| `CoordSet.SizeAtMostMaxPlusOne` | recOrder/pipelines/pipeline_manager.py:86 | a set of non-negative indices has at most max+1 members, so the lists of length max+1 hold every selected position |
| `CoordSet.MembersSize` | recOrder/pipelines/pipeline_manager.py:244-245 | `num_p`/`num_t` never exceed the number of visits |
| `CoordSet.Units` | recOrder/pipelines/pipeline_manager.py:248-251 | `pt_set` is the full product of the position and time index sets |
| `Manager.Store.constructor` | recOrder/pipelines/pipeline_manager.py:51-52 | a new output store has no arrays, no writes and the given attributes |
| `Manager.Store.InitArray` | recOrder/pipelines/pipeline_manager.py:263-271 | initialising an existing slot fails and changes nothing; a new slot is added with its info; attributes and writes are untouched |
| `Manager.Store.Write` | recOrder/pipelines/pipeline_manager.py:302-303 | a write is appended to the write log; arrays and attributes are unchanged |
| `Manager.Store.Put` | recOrder/pipelines/pipeline_manager.py:308-310 | the store attributes are replaced; nothing else changes |
| `Manager.PathJoin` | recOrder/pipelines/pipeline_manager.py:45 | `os.path.join`: an absolute second part replaces the first; otherwise the result starts with the directory and ends with the name |
| `Manager.ZarrPath` | recOrder/pipelines/pipeline_manager.py:46 | the output path ends in `.zarr`, extends the given path, and is at most five characters longer |
| `Manager.ZarrPathIdempotent` | recOrder/pipelines/pipeline_manager.py:46 | adding the suffix is idempotent, and a path without it gets exactly `.zarr` appended |
| `Manager.RemoveTree` | recOrder/pipelines/pipeline_manager.py:47-48 | `shutil.rmtree` removes the path and everything below it, and keeps every other path |
| `Manager.Dispatch` | recOrder/pipelines/pipeline_manager.py:55-68 | UPTI and IPS raise NotImplementedError; QLIPP, PhaseFromBF and FluorDeconv select a pipeline; any other name selects none |
| `Manager.AscendingUnique` | recOrder/pipelines/pipeline_manager.py:279 | two ascending sequences with the same members are equal, so `sorted(pt_set)` is determined by the set |
| `Manager.SortUnits` | recOrder/pipelines/pipeline_manager.py:279 | the run order is lexicographically ascending and holds exactly the units of the set |
| `Manager.PipelineManager.constructor` | recOrder/pipelines/pipeline_manager.py:27-29 | the manager keeps its config and reader; HCS mode is on exactly for zarr data; maps and sets start empty |
| `Manager.PipelineManager.GenCoordSet` | recOrder/pipelines/pipeline_manager.py:186-251 | succeeds exactly when both scans succeed (a position error is reported first) and otherwise raises the first scan error; on success the slot map, position set, unit set and counts are those of the visit sequences |
| `Manager.PipelineManager.PositionName` | recOrder/pipelines/pipeline_manager.py:258-261 | without HCS metadata the array is named `Pos_` plus at least three digits that parse back to the position; with it, no name |
| `Manager.PipelineManager.TryInitArray` | recOrder/pipelines/pipeline_manager.py:253-271 | a missing pipeline, an unmapped position or an existing array is swallowed and leaves the store unchanged; otherwise the position's slot gets the pipeline's array named for the position |
| `Manager.PipelineManager.Run` | recOrder/pipelines/pipeline_manager.py:275-310 | units are processed in sorted order; the outcome and the appended writes are those of the specification trace, in which a unit whose raw fetch, stage call, parameter resolution, post-processing or slot lookup raises ends the run with that exception and no write of its own; the Config attribute is set once any unit was written; the arrays are the old ones with the slot initialisation of every unit the run started, up to and including the one that raised |
| `Manager.PipelineManager.HandleUnit` | recOrder/pipelines/pipeline_manager.py:282-310 | one unit: its slot is initialised first, whatever happens next; on success its record is written and the Config attribute stored; on failure the store's writes and attributes are unchanged |
| `Manager.PipelineManager.RunUnits` | recOrder/pipelines/pipeline_manager.py:279-310 | the loop over the sorted units ends at the first exception with the trace's outcome, writes, attributes and arrays |
| `Manager.PipelineManager.RunUnit` | recOrder/pipelines/pipeline_manager.py:280-310 | one iteration either keeps the loop state in step with the trace for one more unit, or leaves the store as the trace says a failed run does |
| `Manager.PipelineManager.RunReach` | recOrder/pipelines/pipeline_manager.py:279-310 | a run starts at most all its units, and at least one when there is any |
| `Manager.PipelineManager.RunReachTrace` | recOrder/pipelines/pipeline_manager.py:279-310 | the units a run starts are the ones it writes, plus the one that raised when it fails |
| `Manager.PipelineManager.InitializedKeep` | recOrder/pipelines/pipeline_manager.py:263-271 | initialising slots for a run never drops or replaces an array that was already there |
| `Manager.PipelineManager.InitializedDomain` | recOrder/pipelines/pipeline_manager.py:253-271 | after a run the slots are the old ones plus, when there is a pipeline, the slot of every started unit's position that has one |
| `Manager.PipelineManager.ArraysStep` | recOrder/pipelines/pipeline_manager.py:282-283 | each unit initialises its slot after the units before it |
| `Manager.PipelineManager.UnitSucceeds` | recOrder/pipelines/pipeline_manager.py:284-310 | a unit that succeeds appends its record to the run's writes so far |
| `Manager.PipelineManager.UnitRaises` | recOrder/pipelines/pipeline_manager.py:284-310 | a unit that raises ends the run with its exception and the writes so far |
| `Manager.PipelineManager.UnitAdvances` | recOrder/pipelines/pipeline_manager.py:282-310 | one unit moves the loop state to the next unit, or to the state of a failed run |
| `Manager.PipelineManager.ProcessUnit` | recOrder/pipelines/pipeline_manager.py:284-303 | one unit's record, or the first exception in source order: the raw fetch `get_zarr(p)[t]`, the missing pipeline, the Stokes stage, pre-processing's parameters, the birefringence and deconvolution stages, post-processing, then the slot lookup |
| `Manager.PipelineManager.RunTraceCons` | recOrder/pipelines/pipeline_manager.py:279-310 | the first failing unit ends the run with its exception and no write of its own; a successful unit's record precedes the rest |
| `Manager.PipelineManager.WritesAtSlotAndRawT` | recOrder/pipelines/pipeline_manager.py:284-303 | the i-th write goes to the slot of the i-th unit's position, with its time index and the raw volume the fetch returned for it; a completed run writes every unit |
| `Manager.PipelineManager.NoPipelineNoWrites` | recOrder/pipelines/pipeline_manager.py:284-287 | without a pipeline the first unit raises before anything is written: the fetch's exception, or AttributeError at the first stage call |
| `Manager.FetchRaw` | recOrder/pipelines/pipeline_manager.py:284 | the reader's exception for the position comes first; otherwise the fetch succeeds exactly for a time in [-frames, frames), and a negative time selects frame frames + t |
| `Manager.PipelineManager.TimeOutOfRangeHalts` | recOrder/pipelines/pipeline_manager.py:279-284 | a timepoint outside the reader's frames ends the run with IndexError at the first unit that has it, after writing exactly the units before it |
| `Manager.PipelineManager.StageErrorsPropagate` | recOrder/pipelines/pipeline_manager.py:286-294 | an exception of the Stokes, birefringence or deconvolution stage is the unit's exception |
| `Manager.PipelineManager.Setup` | recOrder/pipelines/pipeline_manager.py:19-68 | a coordinate error is raised before anything else happens. Otherwise the coordinates are resolved, the HCS metadata is the reduction of the raw lists to the enumerated positions (or its exception ends the set-up), the old store is removed only when overwrite was asked and it exists, and the method name then selects the pipeline or raises NotImplementedError after that removal |
| `Manager.PipelineManager.SetupRest` | recOrder/pipelines/pipeline_manager.py:36-68 | after the coordinates: the metadata reduction, then the overwrite removal and the pipeline choice, with the same outcomes as `Setup` |
| `Manager.PipelineManager.ReduceMetadata` | recOrder/pipelines/pipeline_manager.py:36-40 | the outcome is that of the reduction of the raw metadata's lists (its exception when it fails), and on success the new record shares the raw plate, whose wells, rows and columns are the reduced ones |
| `Manager.PipelineManager.FinishSetup` | recOrder/pipelines/pipeline_manager.py:44-68 | the store path is removed only with overwrite set and the path present; UPTI and IPS then raise NotImplementedError; a known method sets its pipeline and any other name leaves none |
| `Manager.ScanPositions` | recOrder/pipelines/pipeline_manager.py:202-225 | the positions loop yields exactly the slot map and index set of the visit sequence, or its exception |
| `Manager.ScanTimepoints` | recOrder/pipelines/pipeline_manager.py:228-242 | the timepoints loop yields exactly the index set of the visit sequence, or its exception |
| `Manager.VisitSpan` | recOrder/pipelines/pipeline_manager.py:204-207 | the 'all' and tuple inner loops extend the slot map, index set and counter as visiting the range does |
| `Manager.CollectSpan` | recOrder/pipelines/pipeline_manager.py:229-231 | the timepoint range loop adds exactly the range |
| `Manager.CollectList` | recOrder/pipelines/pipeline_manager.py:236-238 | the timepoint list loop adds exactly the items |
| `Manager.Enumerate` | recOrder/pipelines/pipeline_manager.py:90 | enumerating a set yields each member exactly once |
| `Manager.BuildUnits` | recOrder/pipelines/pipeline_manager.py:248-251 | the nested loop builds exactly the product set |
| `Manager.ThenEmpty` | recOrder/pipelines/pipeline_manager.py:202-225 | visiting nothing before a scan leaves its result alone |
| `Manager.ThenOk` | recOrder/pipelines/pipeline_manager.py:202-225 | visits before a successful scan are prepended to it |
| `Manager.VisitStep` | recOrder/pipelines/pipeline_manager.py:212-213 | one visit sets the position's slot to the current counter and adds it to the index set |
| `Hcs.Plate.constructor` | recOrder/pipelines/pipeline_manager.py:96 | a plate record holds the given rows, columns and wells |
| `Hcs.HcsMeta.constructor` | recOrder/pipelines/pipeline_manager.py:89 | a metadata record holds the given plate (shared, not copied) and well list |
| `Hcs.PyIndex` | recOrder/pipelines/pipeline_manager.py:94-97 | Python list indexing: negative indices count from the end, and indices outside [-len, len) raise IndexError |
| `Hcs.SeqMax` | recOrder/pipelines/pipeline_manager.py:86 | `max` of a non-empty selection is one of its elements and bounds all of them |
| `Hcs.KeepTruthy` | recOrder/pipelines/pipeline_manager.py:100-101 | `filter(None, ...)` keeps only truthy elements of the list, never more |
| `Hcs.Picks` | recOrder/pipelines/pipeline_manager.py:90-97 | the per-position copies produce one well and one metadata entry per enumerated position, or the first exception |
| `Hcs.PathParts` | recOrder/pipelines/pipeline_manager.py:107 | a well whose path splits into at least two parts on '/' has a string `path`, split as `str.split` does |
| `Hcs.AddIfAbsent` | recOrder/pipelines/pipeline_manager.py:108-112 | the row or column name list gains the name when absent and nothing else |
| `Hcs.NameDicts` | recOrder/pipelines/pipeline_manager.py:109 | each name becomes a `{'name': n}` dictionary, in order |
| `Hcs.KeepTruthyNones` | recOrder/pipelines/pipeline_manager.py:86-101 | the unused `None` slots of the preallocated lists disappear in the filter |
| `Hcs.MaxOf` | recOrder/pipelines/pipeline_manager.py:86 | the loop computes the maximum position |
| `Hcs.CopySelected` | recOrder/pipelines/pipeline_manager.py:86-101 | the copy loop into lists of max+1 `None` slots, then `filter(None, ...)`, gives the truthy entries of the per-position picks, in selection order, or the first exception a pick raises |
| `Hcs.ScanRowsColumns` | recOrder/pipelines/pipeline_manager.py:104-112 | the row/column loop computes the specification's distinct names, or the exception of the first malformed well |
| `Hcs.UpdateHcsMeta` | recOrder/pipelines/pipeline_manager.py:70-120 | an empty selection raises ValueError from `max` before the metadata is touched; otherwise null metadata raises AttributeError; with metadata the result is the reduction. On success a fresh top-level record shares the input's plate, whose rows, columns and wells are overwritten. On failure the plate is unchanged |
| `Hcs.ReduceMeta` | recOrder/pipelines/pipeline_manager.py:86-89 | an empty selection raises ValueError; otherwise missing metadata raises AttributeError; with metadata the reduction of its lists |
| `Hcs.CopyDone` | recOrder/pipelines/pipeline_manager.py:86-101 | after the copy loop the kept lists are the picks with the `None` padding dropped |
| `Hcs.ReductionSizes` | recOrder/pipelines/pipeline_manager.py:86-101 | the reduced well lists are no longer than the selection |
| `Hcs.DistinctSelectionFits` | recOrder/pipelines/pipeline_manager.py:86-97 | distinct selected positions that index both lists never overflow the preallocated lists of length max+1 |
| `Hcs.PicksFit` | recOrder/pipelines/pipeline_manager.py:90-97 | the copies succeed when every position indexes both lists and the selection fits the preallocated size |
| `Hcs.DistinctMembers` | recOrder/pipelines/pipeline_manager.py:90 | a selection without duplicates has as many members as elements |
| `Hcs.RowsColumnsAllParse` | recOrder/pipelines/pipeline_manager.py:106-107 | when the scan succeeds every kept well has a path of at least two parts |
| `Hcs.AddIfAbsentNoDup` | recOrder/pipelines/pipeline_manager.py:108-112 | adding only absent names keeps the list duplicate-free |
| `Hcs.RowsColumnsDistinct` | recOrder/pipelines/pipeline_manager.py:104-112 | the new rows and the new columns have no duplicates |
| `Hcs.RowsColumnsNames` | recOrder/pipelines/pipeline_manager.py:104-112 | a name is a new row (column) exactly when it is the first (second) path component of some kept well |
| `Hcs.RowsColumnsPrefixErr` | recOrder/pipelines/pipeline_manager.py:106-107 | an exception in a prefix of the wells is the exception of the whole scan |
| `Params.ResolveDenoise` | recOrder/pipelines/pipeline_manager.py:122-146 | the pre-processing loop computes the denoise parameter list of the specification (None when unused), or its exception |
| `Params.ResolveRegistration` | recOrder/pipelines/pipeline_manager.py:176-182 | the registration loop computes the (channel, shift) list, or its exception |
| `Params.ResolvePostprocessing` | recOrder/pipelines/pipeline_manager.py:148-184 | denoise errors come first, then registration errors; otherwise both parameter lists |
| `Params.DenoiseFromEntries` | recOrder/pipelines/pipeline_manager.py:135-141 | from entry i on, each channel gets its threshold (default 0.1) and level (default 1) at the same index |
| `Params.DenoiseParamsEntries` | recOrder/pipelines/pipeline_manager.py:134-143 | with denoising on and long enough settings there is one entry per channel: channel, threshold or 0.1, level or 1 |
| `Params.DenoiseShortList` | recOrder/pipelines/pipeline_manager.py:136-139 | a threshold or level list shorter than the channel list raises IndexError |
| `Params.DenoiseShortFrom` | recOrder/pipelines/pipeline_manager.py:136-139 | the loop from i on raises IndexError once it reaches the end of a short list |
| `Params.DenoiseUseAndChannels` | recOrder/pipelines/pipeline_manager.py:134-146 | denoising off gives None; on with channels None raises TypeError (`len(None)`) |
| `Params.RegistrationFromEntries` | recOrder/pipelines/pipeline_manager.py:178-180 | from entry i on, each channel index is paired with the shift at the same index |
| `Params.RegistrationShortFrom` | recOrder/pipelines/pipeline_manager.py:178-180 | a shift list shorter than the channel list raises IndexError |
| `Params.RegistrationParamsEntries` | recOrder/pipelines/pipeline_manager.py:176-182 | registration on: IndexError when shifts are fewer than channels, else one (channel, shift) pair per channel |
| `Stages.PreProcess` | recOrder/pipelines/pipeline_manager.py:312-316 | with no or empty denoise parameters the Stokes volume passes through unchanged |
| `Stages.RouteOf` | recOrder/pipelines/pipeline_manager.py:327-338 | a channel name is routed when it contains one of the five channel words; Retardance is matched first; a value `in` cannot search raises TypeError |
| `Stages.DenoiseCopies` | recOrder/pipelines/pipeline_manager.py:322-338 | the denoise loop over the copies computes the specification's result or its exception |
| `Stages.DenoiseStage` | recOrder/pipelines/pipeline_manager.py:320-338 | the `np.copy` copies, denoised when there are entries |
| `Stages.UndenoisedCopies` | recOrder/pipelines/pipeline_manager.py:322-325 | without denoise entries the copies come back as they are: a volume unchanged, the birefringence list stacked, and a None result as a 0-d object array rather than None |
| `Stages.NoVolumesCopiedAsArrays` | recOrder/pipelines/pipeline_manager.py:318-373 | with no volumes and no parameters, post-processing returns three 0-d object arrays and no registered stacks |
| `Stages.RegisterStacks` | recOrder/pipelines/pipeline_manager.py:340-368 | the registration loop computes the specification's stacks, or the first exception an entry raises: a NumPy index out of range or of an unusable kind raises IndexError, an unhashable identifier raises TypeError with fluorescence deconvolution, and a missing deconvolved volume raises TypeError |
| `Stages.PostProcessing` | recOrder/pipelines/pipeline_manager.py:318-373 | post-processing computes the specification's denoised copies (a None volume copied as a 0-d object array) and registered stacks, or the first exception of denoising and then of registration, including IndexError for a channel index outside the raw data's channel axis |
| `Stages.LaterDenoiseWins` | recOrder/pipelines/pipeline_manager.py:326-328 | two Retardance entries both denoise the original volume, and the later result is kept |
| `Stages.DenoiseLoopFrame` | recOrder/pipelines/pipeline_manager.py:326-336 | entries that do not route to a volume leave that volume as copied |
| `Stages.UnknownChannelRejected` | recOrder/pipelines/pipeline_manager.py:337-338 | a channel name with none of the five words raises ValueError |
| `Stages.RegistrationOrder` | recOrder/pipelines/pipeline_manager.py:340-368 | the registered stacks are in parameter order, each the translation of its source by its shift |
| `Stages.RawSourceOutsideFluorDeconv` | recOrder/pipelines/pipeline_manager.py:365-368 | outside fluorescence deconvolution the identifier is a NumPy index into the raw data: an integer selects a channel exactly when it lies in [-C, C) for C channels, counting negative ones from the end, and otherwise raises IndexError |
| `Stages.AxisIndex` | recOrder/pipelines/pipeline_manager.py:356-368 | NumPy indexing of the first axis: an integer works exactly inside [-n, n); None and a bool add an axis; a list of bools must have length n; a list holding anything but ints and bools, a float, a string or a dict raises IndexError |
| `Stages.NegativeIndexFromEnd` | recOrder/pipelines/pipeline_manager.py:364 | index -k selects the same stack as index n - k |
| `Stages.DeconvolvedSource` | recOrder/pipelines/pipeline_manager.py:353-360 | a name in the deconvolution map selects its stack of the 3D or 2D deconvolved volume by mode; another mode raises ValueError, a missing volume TypeError, and a map entry past the volume's stacks IndexError |
| `Stages.ChannelPastRawRejected` | recOrder/pipelines/pipeline_manager.py:366-368 | registering channel list [7] of four-channel raw data raises IndexError |
| `Stages.NoRegistrationNoStacks` | recOrder/pipelines/pipeline_manager.py:340-371 | no or empty registration parameters give no registered stacks |
| `ConfigFile.Defaults` | recOrder/io/config_reader_old.py:5-73 | the default attributes: selections are ['all'], denoising, registration and GPU are off, background correction 'None', n_objective_media 1.003, method and mode None, and the given paths |
| `ConfigFile.Get` | recOrder/io/config_reader_old.py:102-111 | reading an attribute succeeds exactly when it is set |
| `ConfigFile.Required` | recOrder/io/config_reader_old.py:89-100 | the required-field asserts pass only when every unset field's key (as the code spells it) is in the dataset section |
| `ConfigFile.Selection` | recOrder/io/config_reader_old.py:119-122 | 'all' is stored as ['all']; any other value is stored as is |
| `ConfigFile.ChannelIndex` | recOrder/io/config_reader_old.py:197-198 | an int channel index is wrapped in a list; other values pass through |
| `ConfigFile.PhaseRequested` | recOrder/io/config_reader_old.py:211-214 | phase processing is on exactly when the output channels contain Phase2D, Phase_semi3D or Phase3D |
| `ConfigFile.AtLeast` | recOrder/io/config_reader_old.py:285 | Python's `>=`: two numbers (bools as 0/1) compare by value, two strings compare lexicographically by code point, anything else raises TypeError |
| `ConfigFile.StrAtLeastTotal` | recOrder/io/config_reader_old.py:285 | of two strings one is always at least the other |
| `ConfigFile.StrAtLeastAntisymmetric` | recOrder/io/config_reader_old.py:285 | two strings each at least the other are equal |
| `ConfigFile.StrAtLeastPrefix` | recOrder/io/config_reader_old.py:285 | a string is at least each of its prefixes |
| `ConfigFile.QuotedNumbersCompareAsText` | recOrder/io/config_reader_old.py:285 | quoted numbers compare as text: '1.5' >= '1.4' holds, '10' >= '9' does not, and a string against a number raises TypeError |
| `ConfigFile.AllSet` | recOrder/io/config_reader_old.py:270-283 | the None asserts pass exactly when every listed attribute is set and not None |
| `ConfigFile.DatasetLoopPasses` | recOrder/io/config_reader_old.py:113-147 | the dataset loop as written passes exactly when every key is one it recognises |
| `ConfigFile.DatasetLoopRejects` | recOrder/io/config_reader_old.py:146-147 | a dataset section holding an unrecognised key always fails; in the reader as written, from a passing scan, the exception is NameError |
| `ConfigFile.DatasetLoopKeepsFailure` | recOrder/io/config_reader_old.py:113-147 | once an exception is raised the rest of the loop does not run |
| `ConfigFile.ReadNeverCompletes` | recOrder/io/config_reader_old.py:91-147 | as written, reading fails whenever no method is set: 'mode' must be in the dataset section, and the loop rejects that key |
| `ConfigFile.DefaultsNeverRead` | recOrder/io/config_reader_old.py:75-147 | a reader built from the defaults can never read a configuration file |
| `ConfigFile.OverwriteKeepsUnset` | recOrder/io/config_reader_old.py:102-111 | as written, only fields already set are overwritten, so unset fields stay unset |
| `ConfigFile.OverwriteFills` | recOrder/io/config_reader_old.py:102-111 | corrected, every unset field takes its non-None dataset value and no other attribute changes |
| `ConfigFile.DatasetLoopAccepts` | recOrder/io/config_reader_old.py:113-147 | corrected, a dataset section with recognised keys and string/list selections is accepted, keeping other attributes |
| `ConfigFile.CorrectedReadAccepts` | recOrder/io/config_reader_old.py:85-147 | corrected, a file with only a valid dataset section is read, and method and mode come from it |
| `ConfigFile.DocumentDatasetAccepts` | recOrder/io/config_reader_old.py:85-147 | corrected, the dataset step on the loaded document fills method and mode from the file |
| `ConfigFile.ReadOnlyDataset` | recOrder/io/config_reader_old.py:154-207 | a document with only a dataset section skips the three processing sections |
| `ConfigFile.ReadDatasetAccepts` | recOrder/io/config_reader_old.py:89-147 | corrected, the required-field check, the overwrite and the dataset loop all pass and fill method and mode |
| `ConfigFile.ReadDatasetSteps` | recOrder/io/config_reader_old.py:89-147 | the dataset step is the required check, then the overwrite, then the key loop |
| `ConfigFile.CopiedFills` | recOrder/io/config_reader_old.py:102-105 | corrected, unset method and mode take the dataset's values |
| `ConfigFile.RequiredAccepts` | recOrder/io/config_reader_old.py:89-100 | corrected, the required check passes when the dataset holds every required key |
| `ConfigFile.RequiredPassesWhenPresent` | recOrder/io/config_reader_old.py:89-100 | every asserted key present means the check passes |
| `ConfigFile.SelectionTypeUnchecked` | recOrder/io/config_reader_old.py:116-122 | as written, an int `positions` value is stored unchecked (the assert tests a tuple); corrected, it raises AssertionError |
| `ConfigFile.RegistrationChecked` | recOrder/io/config_reader_old.py:187-205 | after a successful registration scan the channel index is a list, and every channel_idx/shift seen while registration is on is not None |
| `ConfigFile.PhaseChecksEnforce` | recOrder/io/config_reader_old.py:268-289 | when phase processing passes its checks, the optics fields are set, n_objective_media is at least both NAs as Python's `>=` compares them, and z_slices is ['all'] |
| `ConfigFile.FocusRequired` | recOrder/io/config_reader_old.py:292-295 | Phase2D output passes only with focus_zidx set |
| `ConfigFile.ConfigReader.constructor` | recOrder/io/config_reader_old.py:5-73 | a new reader holds the defaults |
| `ConfigFile.ConfigReader.SetAttribute` | recOrder/io/config_reader_old.py:82-83 | assigning an attribute always raises AttributeError |
| `ConfigFile.ConfigReader.ReadConfig` | recOrder/io/config_reader_old.py:85-295 | reading updates the attributes as the as-written specification does, up to the first exception |
| `ConfigFile.Open` | recOrder/io/config_reader_old.py:75-76 | without a path the reader keeps the defaults; with one it reads, and fails |
| `ConfigFile.RunRead` | recOrder/io/config_reader_old.py:85-295 | the imperative reading of all sections computes the specification |
| `ConfigFile.RunReadDataset` | recOrder/io/config_reader_old.py:89-147 | the imperative dataset step computes the specification |
| `ConfigFile.RunRequired` | recOrder/io/config_reader_old.py:89-100 | the assert sequence computes the specification |
| `ConfigFile.RunOverwrite` | recOrder/io/config_reader_old.py:102-111 | the overwrite sequence computes the specification |
| `ConfigFile.RunDataset` | recOrder/io/config_reader_old.py:113-147 | the dataset key loop computes the specification |
| `ConfigFile.RunPreDenoise` | recOrder/io/config_reader_old.py:154-169 | the pre-processing denoise loop computes the specification, and from a passing scan it passes exactly when every `channels` key follows a `use` key and is not None under a truthy one (proved in `ConfigFile.PreDenoisePasses`) |
| `ConfigFile.RunPostDenoise` | recOrder/io/config_reader_old.py:171-186 | the post-processing denoise loop computes the specification, and from a passing scan it passes exactly when every `channels` key follows a `use` key and is not None under a truthy one (proved in `ConfigFile.PostDenoisePasses`) |
| `ConfigFile.RunRegistration` | recOrder/io/config_reader_old.py:187-205 | the registration loop computes the specification, and from a passing scan it passes exactly when every `channel_idx` and `shift` key follows a `use` key and is not None under a truthy one (proved in `ConfigFile.RegistrationPasses`) |
| `ConfigFile.RunPreSection` | recOrder/io/config_reader_old.py:154-169 | the pre_processing section loop computes the specification; with the flag unbound it passes exactly when no key names denoise or the denoise walk accepts its keys (proved in `ConfigFile.PreSectionPasses`) |
| `ConfigFile.RunPostSection` | recOrder/io/config_reader_old.py:171-205 | the post_processing section loop computes the specification; with both flags unbound it passes exactly when each of the denoise and registration walks is either not reached or accepts its keys (proved in `ConfigFile.PostSectionPasses`) |
| `ConfigFile.RunPostKey` | recOrder/io/config_reader_old.py:172-205 | one post_processing key computes the specification |
| `ConfigFile.RunProcessing` | recOrder/io/config_reader_old.py:207-266 | the processing key loop computes the specification, and from a passing scan it passes exactly when every key is a known processing key and every `output_channels` value passes the phase test (proved in `ConfigFile.ProcessingKeysPasses`) |
| `ConfigFile.KeysAcceptedCons` | recOrder/io/config_reader_old.py:157-169 | a walk accepts its keys exactly when the first guarded key meets the flag as bound so far and the rest is accepted under the flag the first key leaves |
| `ConfigFile.PreDenoisePasses` | recOrder/io/config_reader_old.py:157-169 | the pre-processing denoise walk passes exactly when every `channels` key meets a bound flag that is false or sees a non-None value; it binds no other flag and never unbinds its own |
| `ConfigFile.PostDenoisePasses` | recOrder/io/config_reader_old.py:174-186 | the post-processing denoise walk passes exactly when every `channels` key meets a bound flag that is false or sees a non-None value; it binds no other flag and never unbinds its own |
| `ConfigFile.RegistrationPasses` | recOrder/io/config_reader_old.py:188-205 | the registration walk passes exactly when every `channel_idx` and `shift` key meets a bound flag that is false or sees a non-None value; it binds no other flag and never unbinds its own |
| `ConfigFile.PreDenoiseFirstRejected` | recOrder/io/config_reader_old.py:161-165 | the first rejected `channels` key raises UnboundLocalError before any `use` key and AssertionError under a truthy flag with None |
| `ConfigFile.PostDenoiseFirstRejected` | recOrder/io/config_reader_old.py:178-182 | the first rejected `channels` key raises UnboundLocalError before any `use` key and AssertionError under a truthy flag with None, after its value was stored |
| `ConfigFile.RegistrationFirstRejected` | recOrder/io/config_reader_old.py:192-205 | the first rejected `channel_idx` or `shift` key raises UnboundLocalError before any `use` key and AssertionError under a truthy flag with None; a rejected shift was stored first |
| `ConfigFile.PreSectionPasses` | recOrder/io/config_reader_old.py:154-169 | the pre_processing section passes exactly when no key names denoise or its denoise walk, from an unbound flag, accepts; its failure is that walk's |
| `ConfigFile.PostKeyPasses` | recOrder/io/config_reader_old.py:172-205 | one post_processing key passes exactly when each walk it names accepts its keys, and it leaves the flags settled for the next key |
| `ConfigFile.PostSectionPasses` | recOrder/io/config_reader_old.py:171-205 | the post_processing section passes exactly when each of its denoise and registration walks is either not reached or accepts its keys |
| `ConfigFile.ProcessingKeysPasses` | recOrder/io/config_reader_old.py:207-266 | the processing walk passes exactly when every key is `output_channels` passing the phase test or one of the known processing names |
| `ConfigFile.ProcessingKeysFrame` | recOrder/io/config_reader_old.py:207-266 | a name no key of the section carries keeps its attribute, and without `output_channels` the flags are unchanged |
| `ConfigFile.ProcessingKeysLastWins` | recOrder/io/config_reader_old.py:207-266 | in a passing walk the last occurrence of a key sets its attribute, and the last `output_channels` sets the phase flag |
| `ConfigFile.ProcessingFirstRejected` | recOrder/io/config_reader_old.py:207-266 | the first rejected processing key raises NameError for an unknown name, or the phase test's exception for `output_channels` |
| `ConfigFile.RunSections` | recOrder/io/config_reader_old.py:154-295 | the three optional sections are read in order |
| `GuiParse.Inner` | recOrder/plugin/widget/main_widget.py:738 | `text[1:-1]` drops the first and last characters |
| `GuiParse.ParseInts` | recOrder/plugin/widget/main_widget.py:747-749 | `int()` on every part: succeeds exactly when every part parses, with the parsed values; otherwise ValueError |
| `GuiParse.Ints` | recOrder/plugin/widget/main_widget.py:749 | the parsed integers become int entries, in order |
| `GuiParse.ParseSelection` | recOrder/plugin/widget/main_widget.py:732-749 | parsing only ever raises ValueError |
| `GuiParse.OutputChannels` | recOrder/plugin/widget/main_widget.py:791-794 | one channel per comma-separated part, with its spaces removed |
| `GuiParse.PushNote` | recOrder/plugin/widget/main_widget.py:1715-1732 | no calibration file raises ValueError. Otherwise the note is pushed exactly when the file has a None or string 'Notes'. Failures are ValueError, KeyError or TypeError; the acquisition widget's `push_note` (recOrder/plugin/main_widget.py:1737-1764) follows the same rule |
| `GuiParse.SelectionFields.constructor` | recOrder/plugin/widget/main_widget.py:732-767 | fields start at ['all'] with nothing highlighted |
| `GuiParse.SelectionFields.Populate` | recOrder/plugin/widget/main_widget.py:717-767 | a fresh configuration object is filled: positions then timepoints are parsed, an assigned value is stored, and a flagged or unread field holds the fresh object's default. The highlights follow each field from their earlier state. A ValueError in positions stops before timepoints |
| `GuiParse.ShowInts` | recOrder/plugin/widget/main_widget.py:898-899 | `str()` of each integer, in order |
| `GuiParse.ShowEntries` | recOrder/plugin/widget/main_widget.py:898-899 | `str()` of each entry, in order |
| `GuiParse.ParseIgnoresSpaces` | recOrder/plugin/widget/main_widget.py:734 | spaces never change the parse or the highlight |
| `GuiParse.AllIff` | recOrder/plugin/widget/main_widget.py:735-736 | the selection is ['all'] exactly when the text without spaces is `all`, `['all']` or `[all]` |
| `GuiParse.AllBeforeBrackets` | recOrder/plugin/widget/main_widget.py:735-739 | `[all]` is taken as 'all' although it is also bracketed with one part |
| `GuiParse.AllTextOnePart` | recOrder/plugin/widget/main_widget.py:735-739 | every spelling of 'all' that is bracketed has one part, so the 'all' test must come first |
| `GuiParse.RangeIff` | recOrder/plugin/widget/main_widget.py:737-745 | the selection is the range (a, b) exactly when the text is bracketed with two parts that parse to a and b |
| `GuiParse.FlaggedIff` | recOrder/plugin/widget/main_widget.py:737-741 | the field is flagged (left unchanged) exactly for bracketed text with a part count other than two, which is exactly when it turns red |
| `GuiParse.ListIff` | recOrder/plugin/widget/main_widget.py:746-749 | unbracketed text other than 'all' becomes the list of its parsed parts, or raises ValueError |
| `GuiParse.EmptyFieldRaises` | recOrder/plugin/widget/main_widget.py:746-749 | an empty or all-space field raises ValueError (`int('')`) |
| `GuiParse.ReparseAll` | recOrder/plugin/widget/main_widget.py:898-899 | ['all'] is written back as `['all']` and parses back to ['all'] |
| `GuiParse.ReparseInts` | recOrder/plugin/widget/main_widget.py:898-899 | an int list written back parses as a range when it has two elements and is flagged otherwise |
| `GuiParse.ParseBracketed` | recOrder/plugin/widget/main_widget.py:737-745 | bracketed text is flagged unless it has two parts, which form a range or raise ValueError |
| `GuiParse.ReparseRange` | recOrder/plugin/widget/main_widget.py:898-899 | a range written back as `[(a, b)]` raises ValueError when parsed again |
| `GuiParse.ReparseIdentityOnlyAll` | recOrder/plugin/widget/main_widget.py:732-767 | of all parsed selections, only ['all'] survives being written back and parsed again |
| `GuiParse.ParsedSelectionScans` | recOrder/plugin/widget/main_widget.py:732-767 | a parsed selection always scans without error: 'all' visits range(extent), a bracket its range, a list its integers |
| `GuiParse.IntsVisits` | recOrder/plugin/widget/main_widget.py:749 | a list of int entries visits exactly those integers |
| `GuiParse.OutputChannelsRoundTrip` | recOrder/plugin/widget/main_widget.py:791-794 | the channels contain no space or comma, and joining them with commas gives the field without spaces |
| `GuiParse.JoinRemoveSpaces` | recOrder/plugin/widget/main_widget.py:793-794 | removing spaces part by part and rejoining equals removing spaces from the whole |
| `GuiParse.MergeNoteIff` | recOrder/plugin/widget/main_widget.py:1725-1729 | the new note always ends with the pushed note. It replaces the stored note exactly when that is None, empty or equal to it. Otherwise the stored note is kept as prefix; the same rule holds for the acquisition widget (recOrder/plugin/main_widget.py:1760-1764) |
| `GuiParse.PushNoteAppends` | recOrder/plugin/widget/main_widget.py:1717-1729 | pushing onto a different non-empty stored note gives `stored, note` |
| `GuiParse.PushTwiceRepeats` | recOrder/plugin/widget/main_widget.py:1726-1729 | pushing the same note twice appends it twice when something else precedes it |
| `MmSetup.QualifyingGroups` | recOrder/plugin/main_widget.py:926-945 | at most one offered name per group |
| `MmSetup.BfFilter` | recOrder/plugin/main_widget.py:948-956 | at most one bright-field entry per preset |
| `MmSetup.ModeAtConnect` | recOrder/plugin/main_widget.py:976-991 | no LC adapter gives DAC; otherwise 'Voltage (V)' gives MM-Voltage, else 'String send to' gives MM-Retardance, else the mode is unchanged |
| `MmSetup.ConfigCheck` | recOrder/plugin/main_widget.py:1924-1970 | an unknown mode raises ValueError; DAC warns exactly when the LC adapter is loaded |
| `MmSetup.BgOption` | recOrder/plugin/main_widget.py:1503-1523 | combo indices 0-3 select None, global, local_fit, local_fit+; other indices change nothing |
| `MmSetup.RequiredFields` | recOrder/plugin/main_widget.py:814-833 | save_dir is required for birefringence and phase, bg_path additionally for global and local_fit+, and the phase fields exactly for phase |
| `MmSetup.MissingStates` | recOrder/plugin/main_widget.py:1376-1380 | at most one missing entry per state |
| `MmSetup.MmWidget.constructor` | recOrder/plugin/main_widget.py:280-300 | start values: config group Channel, MM-Retardance, background option None, empty combo boxes, no bright-field channel, the background path field hidden (recOrder/plugin/main_widget.py:360-362) and no red field |
| `MmSetup.MmWidget.Connect` | recOrder/plugin/main_widget.py:873-991 | the qualifying groups and bright-field presets are appended, the first qualifying group is chosen, no qualifying group raises KeyError, and the LC mode is the one chosen at connect |
| `MmSetup.MmWidget.EnterConfigGroup` | recOrder/plugin/main_widget.py:1352-1394 | with an empty combo box nothing happens; otherwise the chosen group is stored and KeyError is raised exactly when a state is missing; every other field of the widget is unchanged |
| `MmSetup.MmWidget.EnterBgCorrection` | recOrder/plugin/main_widget.py:1503-1523 | the option and the path field's visibility follow the combo index; every other field of the widget is unchanged |
| `MmSetup.MmWidget.CheckRequirementsForAcq` | recOrder/plugin/main_widget.py:775-839 | no calibration raises RuntimeError. Otherwise exactly the empty required fields end red, the phase fields and filled fields are cleared, and ValueError is raised exactly when some required field is empty; every other field of the widget is unchanged |
| `MmSetup.TestFields` | recOrder/plugin/main_widget.py:809-833 | the field loop finds exactly the empty fields and marks exactly those red |
| `MmSetup.ScanGroups` | recOrder/plugin/main_widget.py:928-956 | the group loop yields the qualifying groups, the first one, and the bright-field presets |
| `MmSetup.CollectBf` | recOrder/plugin/main_widget.py:948-956 | the preset loop yields the bright-field presets in order |
| `MmSetup.CollectMissing` | recOrder/plugin/main_widget.py:1376-1380 | the state loop yields the missing states in order |
| `MmSetup.QualifyingGroupsMembers` | recOrder/plugin/main_widget.py:934-945 | a group name is offered exactly when a group of that name has every calibration state as a substring of some preset |
| `MmSetup.FirstQualifying` | recOrder/plugin/main_widget.py:940-944 | the chosen group is the first qualifying one: every earlier group fails the rule |
| `MmSetup.NoGroupNoConnect` | recOrder/plugin/main_widget.py:958-966 | connect raises KeyError exactly when no group qualifies |
| `MmSetup.BfPresetsMembers` | recOrder/plugin/main_widget.py:948-956 | a preset is listed as bright-field exactly when some group has it and it contains a keyword, ignoring case |
| `MmSetup.BfFilterMembers` | recOrder/plugin/main_widget.py:948-956 | within one group, exactly the presets containing a keyword, ignoring case |
| `MmSetup.MissingStatesMembers` | recOrder/plugin/main_widget.py:1376-1380 | a state is reported missing exactly when no preset has its exact name |
| `MmSetup.ExactImpliesQualifies` | recOrder/plugin/main_widget.py:934-939 | a group accepted by the exact check also passes the substring rule at connect |
| `MmSetup.PrefixedStatesRejected` | recOrder/plugin/main_widget.py:934-939 | prefixed presets pass the substring rule at connect but have every state missing by exact name |
| `MmSetup.LabelFreeStatesRejected` | recOrder/plugin/main_widget.py:1376-1392 | `LF-State0`..`LF-State4` qualify at connect and fail the config group check on every state |
| `MmSetup.MissingAll` | recOrder/plugin/main_widget.py:1376-1380 | when no state is a preset, every state is reported missing, in order |
| `MmSetup.DacConsistent` | recOrder/plugin/main_widget.py:1959-1966 | without the LC adapter, connect picks DAC and the configuration check stays quiet |
| `MmSetup.RetardanceConsistent` | recOrder/plugin/main_widget.py:1927-1941 | presets that send strings and set no voltage make connect pick MM-Retardance, whose check stays quiet |
| `MmSetup.VoltageConsistent` | recOrder/plugin/main_widget.py:1942-1958 | presets with both LC voltages and no string make connect pick MM-Voltage, whose check stays quiet |
| `MmSetup.MixedDescriptionWarns` | recOrder/plugin/main_widget.py:983-988 | a description with both markers picks MM-Voltage, and the check then warns |
| `MmSetup.BgPathShownWhenNeeded` | recOrder/plugin/main_widget.py:1503-1523 | the background path field is shown exactly for the options that make an acquisition require it |
| `Calibration.JoinInjective` | recOrder/plugin/workers/calibration_workers.py:107-114 | joining distinct relative names to one directory gives distinct paths |
| `Calibration.MetaCandidateInjective` | recOrder/plugin/workers/calibration_workers.py:107-114 | the candidate metadata file names are pairwise distinct |
| `Calibration.MetaCandidatesBounded` | recOrder/plugin/workers/calibration_workers.py:109-114 | only finitely many candidates can exist, so the search ends |
| `Calibration.FindMetaFile` | recOrder/plugin/workers/calibration_workers.py:107-114 | the metadata file is the first candidate (`calibration_metadata.txt`, then `_1`, `_2`, ...) that does not exist |
| `Calibration.FirstFreeNumbered` | recOrder/plugin/workers/calibration_workers.py:255-260 | the background folder is `<base>_k` for the first k >= 1 that does not exist |
| `Calibration.Disk.constructor` | recOrder/plugin/workers/calibration_workers.py:250-251 | the file system holds the given paths |
| `Calibration.Disk.BackgroundFolder` | recOrder/plugin/workers/calibration_workers.py:249-260 | a new folder is created when absent; otherwise the first free numbered name is chosen and nothing is created |
| `Calibration.AssessBands` | recOrder/plugin/workers/calibration_workers.py:210-229 | the grade is good from 100 up, okay in [80, 100), and bad below 80 |
| `Calibration.AssessMonotone` | recOrder/plugin/workers/calibration_workers.py:216-229 | a larger extinction ratio never gets a worse grade |
| `Calibration.AssessmentSignals` | recOrder/plugin/workers/calibration_workers.py:210-229 | the assessment emitted is good, okay or bad exactly on the ratio bands [100, ...), [80, 100) and below 80; only a poor ratio gets the advice on misaligned optics, and every other ratio's message reports a successful calibration |
| `Calibration.SchemeOptimisations` | recOrder/plugin/workers/calibration_workers.py:143-208 | 4-State optimises Iext, I0, I60, I120; any other scheme optimises Iext, I0, I45, I90, I135 |
| `Calibration.CalibrationOptimisations` | recOrder/plugin/workers/calibration_workers.py:51-131 | the whole calibration optimises exactly the scheme's states, in order |
| `Calibration.CalibrationProgress` | recOrder/plugin/workers/calibration_workers.py:51-131 | the reported progress strictly increases and ends at 100 |
| `Calibration.ProgressValues` | recOrder/plugin/workers/calibration_workers.py:51-131 | a calibration reports exactly 1, 10, 60, 65, 75, 85, 100 (4-State) or 1, 10, 50, 55, 65, 75, 85, 100 (any other scheme), cropped or not |
| `Calibration.SchemePercents` | recOrder/plugin/workers/calibration_workers.py:143-208 | the scheme reports 60, 65, 75, 85 (4-State) or 50, 55, 65, 75, 85 |
| `Calibration.RaisingFailsIff` | recOrder/plugin/workers/calibration_workers.py:133-141 | a calibration raises TimeoutError exactly when a stop was requested at one of its checks; otherwise it completes |
| `Calibration.RaisingPassRunsAll` | recOrder/plugin/workers/calibration_workers.py:133-141 | a completed calibration ran every step and never emitted aborted |
| `Calibration.RaisingFailEndsAborted` | recOrder/plugin/workers/calibration_workers.py:139-141 | a stopped calibration emits aborted exactly once, as its last event |
| `Calibration.RaisingStepsPrefix` | recOrder/plugin/workers/calibration_workers.py:133-141 | the steps run are a prefix of the planned ones |
| `Calibration.ContinuingRunsAll` | recOrder/plugin/workers/calibration_workers.py:242-245 | the background worker's check never stops it: every step runs |
| `Calibration.CalibrationStopsEarly` | recOrder/plugin/workers/calibration_workers.py:56-61 | a stop requested at the first check ends the calibration after the full-ROI step and the 1% report |
| `Calibration.BackgroundIgnoresStop` | recOrder/plugin/workers/calibration_workers.py:247-333 | a background capture runs all its steps, in order, whatever stops are requested |
| `Calibration.Pair` | recOrder/plugin/workers/calibration_workers.py:356-357 | a state's two LC values are the first two items; a shorter list raises IndexError |
| `Calibration.DefineAll` | recOrder/plugin/workers/calibration_workers.py:353-357 | states are defined in order, each under its name, all of them when nothing failed |
| `Calibration.DefineAllNames` | recOrder/plugin/workers/calibration_workers.py:356-357 | a successful definition defines exactly the named states |
| `Calibration.FirstNames` | recOrder/plugin/workers/calibration_workers.py:352-357 | State0 and State1 come first for both schemes |
| `Calibration.SchemeNames` | recOrder/plugin/workers/calibration_workers.py:360-375 | 4-State defines State2 and State3; the 5-State branch defines State2 to State4 |
| `Calibration.StateNamesAppend` | recOrder/plugin/workers/calibration_workers.py:356-375 | definitions done in two groups define the names of both, in order |
| `Calibration.LoadGroupNames` | recOrder/plugin/workers/calibration_workers.py:360-375 | loading a group after earlier ones adds its names after theirs |
| `Calibration.LoadedStates` | recOrder/plugin/workers/calibration_workers.py:352-375 | a successful load defines State0-State3 for a 4-State file and State0-State4 for any other |
| `Calibration.UnknownSchemeKeyError` | recOrder/plugin/workers/calibration_workers.py:360 | a file without 'Acquired Using' raises KeyError after State0 and State1 were defined |
| `Calibration.FieldValue` | recOrder/plugin/workers/calibration_workers.py:300-307 | an empty field gives None; otherwise `float()` of the text or its error |
| `Calibration.MicroscopeParamsValues` | recOrder/plugin/workers/calibration_workers.py:298-308 | the parameters succeed exactly when every non-empty field converts. There are nine entries, with the background option, the swing and the converted fields in place |
| `Calibration.UpdateLastCalibration` | recOrder/plugin/workers/calibration_workers.py:313-327 | the last calibration file gets the merged note and the microscope parameters, and keeps every other key; it fails without a usable 'Notes' |
| `Deconvolution.Permute` | recOrder/compute/fluorescence_deconvolution.py:143-145 | a transpose has one axis per entry of the permutation |
| `Deconvolution.InverseIsPermutation` | recOrder/compute/fluorescence_deconvolution.py:143-145 | the inverse of a transpose is a transpose |
| `Deconvolution.PermuteThenInverse` | recOrder/compute/fluorescence_deconvolution.py:143-145 | transposing and then applying the inverse restores the original axes |
| `Deconvolution.InverseThenPermute` | recOrder/compute/fluorescence_deconvolution.py:143-145 | applying the inverse and then the transpose restores the original axes |
| `Deconvolution.ZyxToYxzUndone` | recOrder/compute/fluorescence_deconvolution.py:34 | (Z, Y, X) to (Y, X, Z) is a permutation, undone by [2, 0, 1] |
| `Deconvolution.StackToYxzUndone` | recOrder/compute/fluorescence_deconvolution.py:143 | (C, Z, Y, X) to (C, Y, X, Z) is a permutation, undone by [0, 3, 1, 2] |
| `Deconvolution.WavelengthList` | recOrder/compute/fluorescence_deconvolution.py:42-48 | a list is kept as is, a single number becomes a one-element list, anything else raises ValueError |
| `Deconvolution.Micrometres` | recOrder/compute/fluorescence_deconvolution.py:55 | dividing by 1000 keeps one value per wavelength (value times 1000 is the wavelength) and fails with TypeError on a non-number |
| `Deconvolution.InitReconstructorOutcome` | recOrder/compute/fluorescence_deconvolution.py:33-55 | initialisation succeeds exactly for at least three dimensions, mode 2D or 3D and numeric wavelengths. The errors come in code order: IndexError, then ValueError for the mode, then ValueError, then TypeError for the wavelength |
| `Deconvolution.InitReconstructorSettings` | recOrder/compute/fluorescence_deconvolution.py:33-63 | the reconstructor gets (Y, X, Z) dimensions, 2D-WF or 3D-WF as the mode says, the wavelengths in micrometres, and every other setting unchanged |
| `Deconvolution.ScalarWavelength` | recOrder/compute/fluorescence_deconvolution.py:42-44 | a single integer wavelength in nm becomes one emission wavelength of nm/1000 micrometres |
| `Deconvolution.CalculateBackground` | recOrder/compute/fluorescence_deconvolution.py:72-98 | 2D and 3D data succeed with one background value per channel (one for 2D), each the channel's average; other ranks raise ValueError |
| `Deconvolution.Process2D` | recOrder/compute/fluorescence_deconvolution.py:118-121 | 2D deconvolution refuses data of more than three dimensions with ValueError and hands the rest over unchanged |
| `Deconvolution.BackgroundPerChannel` | recOrder/compute/fluorescence_deconvolution.py:72-121 | for (N, Y, X) data the background list has one value per image handed to the 2D deconvolution |
| `Deconvolution.Process3DShape` | recOrder/compute/fluorescence_deconvolution.py:142-147 | 3D deconvolution accepts exactly 3 or 4 dimensions (else ValueError) and hands over (Y, X, Z) or (C, Y, X, Z) |
| `Deconvolution.Process3DReversible` | recOrder/compute/fluorescence_deconvolution.py:142-145 | the transpose loses no axis: it can be undone |
| `Deconvolution.VolumeMatchesReconstructor` | recOrder/compute/fluorescence_deconvolution.py:142-145 | the volume handed to the reconstructor has exactly the (Y, X, Z) dimensions the reconstructor was initialised with |
| `PyStrings.SplitJoin` | recOrder/pipelines/pipeline_manager.py:107 | `str.split` and `str.join` on the same separator are inverse |
| `PyStrings.ParseShowInt` | recOrder/plugin/widget/main_widget.py:898-899 | `int(str(n)) == n` for every integer |
| `PyStrings.Format03dRoundTrip` | recOrder/pipelines/pipeline_manager.py:259 | the `:03d` form has at least three characters and parses back to the number |

## Left out

- `recOrder/io/config_reader.py` is not part of this model. It is the newer
  reader the manager's type hint names; the model gives the manager its
  configuration as a record.
- Data I/O: reading the raw data (`WaveorderReader`), writing zarr stores and
  reading/writing JSON files. The reader contributes only its position and
  frame counts, the length of the channel axis of each volume, and the
  exception `get_zarr` raises for a position (a parameter, since the reader
  is foreign code). The writer is a `Store` class that records arrays, writes and
  attributes. JSON documents are `Yaml` values.
- Numerics: the pipelines' reconstructions, `preproc_denoise`,
  `post_proc_denoise`, `translate_3D`, waveorder's reconstructor and the
  deconvolutions. These are uninterpreted terms (`Buffer` constructors) or
  function-typed parameters.
- `Deconvolution.CalculateBackground`: the per-channel background average is
  a parameter. The autocontrast limits, the weighting and NumPy arrays are
  not modelled.
- `Manager.Store.Write`: the pipeline's `write_data` is recorded as a write
  and never raises; its checks on the arrays it is given are foreign code.
- `Stages.CopyOfStack`: `np.copy` of a birefringence list is one stacked
  array; a list of volumes of different shapes, which NumPy refuses or keeps
  as an object array, is not modelled.
- `Stages.AxisIndex`: a list that nests other lists (a multi-dimensional
  NumPy index array) is reported as IndexError, although NumPy accepts one
  whose integers all lie in range. The deprecated reading of a list holding
  None as a tuple index, from NumPy versions before 1.23, is not modelled.
  Slices cannot come from the configuration and are not modelled.
- `Stages.Pipeline`: the first-axis length of the deconvolved volumes
  (`stackCount`) is a field of the pipeline value, since the pipeline classes
  are not part of this model.
- `Deconvolution.Micrometres`: NumPy turns nested lists or strings into
  arrays of other shapes or types. The model treats any non-number list
  element as a TypeError.
- Qt and napari: widgets, styles other than the red/clear field highlight,
  signals other than the emitted events of the workers, threads and timing.
- Micro-Manager and the pycromanager bridge. Connection failure, the ZMQ
  version warning, hardware calls (`set_lc_state`, `define_lc_state`, snaps,
  ROI) and the `enter_calib_mode` DAC listing are left out. Config groups,
  presets and descriptions are parameters.
- `Calibration.Disk.BackgroundFolder`: the source then deletes `State*` files
  and a `calibration_metadata.txt` inside the numbered folder it has just
  found absent (recOrder/plugin/workers/calibration_workers.py:260-265), so the deletion never
  removes anything; the model leaves it out.
- `Calibration.BackgroundIgnoresStop`: the background worker's capture,
  reconstruction and retardance computations are steps, not values.
- Timing, logging and `print` output everywhere.
- Python set iteration order is a parameter (`Pick`, `Enumerate`). Every
  proved property holds for every order.
- `PyStrings.ParseInt`: `int()` accepts ASCII digits with an optional sign.
  Underscores, surrounding whitespace inside parts and Unicode digits are not
  modelled (spaces are already removed where the widget parses).
- `Common.Lower`: case folding is ASCII only.
- Floating point: floats are Dafny `real`s; NaN and rounding are not
  modelled. `float()` on a text field is a parameter.
- `GuiParse.SelectionFields.Populate`: the fresh configuration object's
  default lists are parameters, because `recOrder/io/config_reader.py` is not
  part of this model. Its other attributes are not modelled.
- `GuiParse.PushNote`: the file is a parameter document; opening or writing
  it is not modelled.
- `ConfigFile.AtLeast`: two lists, which Python compares element by element,
  are reported as TypeError; numbers and strings are compared as Python does.
- `CoordSet.MixedListError`: a timepoint list whose items are floats, strings
  or None is accepted by the source, and those items join the timepoint set.
  The model's timepoints are integers, so it reports ValueError there. Lists
  with a list or dict item, and every such list among the positions, raise
  TypeError as in the source.

## Findings

| source | as written | input that shows it | evidently intended | confidence | as-written member | corrected member |
|---|---|---|---|---|---|---|
| recOrder/io/config_reader_old.py:91-147 | when `method` is unset the code asserts that `mode` is in the dataset section; the dataset loop then raises NameError for the keys `method`, `mode`, `save_dir` and `data_save_name`; and the overwrite step only replaces fields that are already set | `ConfigReader(path=p)` with defaults and any file: no method, so 'mode' must be present, which the loop rejects | fields missing from the reader are required in the file and then copied from it, and those keys are accepted | high (not executed) | `ConfigFile.ReadNeverCompletes` | `ConfigFile.CorrectedReadAccepts` |
| recOrder/io/config_reader_old.py:117-118 | `assert (cond, message)` asserts a non-empty tuple, which is always true, so a non-string non-list selection is stored unchecked | `positions: 3` in the dataset section | the assert checks that the value is a string or a list | high (not executed) | `ConfigFile.SelectionTypeUnchecked` | `ConfigFile.DatasetLoopAccepts` |
