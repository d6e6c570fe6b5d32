/**
 * The discrete decisions of the calibration workers: where a calibration's
 * metadata file and a background folder go, how an extinction ratio is
 * graded, which optimisation steps each calibration scheme runs and how a
 * stop request ends (or fails to end) a worker, which liquid-crystal states a
 * saved calibration defines, and the microscope parameters written beside a
 * background.
 *
 * The file system is a set of existing paths; Micro-Manager, the optimisers,
 * image capture and reconstruction are steps whose effects are not modelled;
 * Python's `float()` on a text field is a parameter.
 */
module Calibration {
  import opened Common
  import opened PyStrings
  import GuiParse

  // ---------------------------------------------------------------------------
  // Paths

  /** POSIX `os.path.join(dir, name)`: an absolute name replaces the directory. */
  function JoinPath(dir: string, name: string): (p: string)
  {
    if |name| > 0 && name[0] == '/' then name
    else if dir == "" || dir[|dir| - 1] == '/' then dir + name
    else dir + "/" + name
  }

  /** The directory part `JoinPath` puts in front of a relative name. */
  function DirPrefix(dir: string): string {
    if dir == "" || dir[|dir| - 1] == '/' then dir else dir + "/"
  }

  lemma JoinRelative(dir: string, name: string)
    requires |name| > 0 && name[0] != '/'
    ensures JoinPath(dir, name) == DirPrefix(dir) + name
  {
  }

  /** Joining one directory with two different relative names gives two different paths. */
  lemma JoinInjective(dir: string, a: string, b: string)
    requires |a| > 0 && a[0] != '/' && |b| > 0 && b[0] != '/'
    requires a != b
    ensures JoinPath(dir, a) != JoinPath(dir, b)
  {
    JoinRelative(dir, a);
    JoinRelative(dir, b);
    var pre := DirPrefix(dir);
    assert (pre + a)[|pre|..] == a;
    assert (pre + b)[|pre|..] == b;
  }

  /** `pre + a + post` determines `a`. */
  lemma FramedCancel(pre: string, a: string, b: string, post: string)
    requires pre + a + post == pre + b + post
    ensures a == b
  {
    assert |a| == |b|;
    assert (pre + a + post)[|pre|..|pre| + |a|] == a;
    assert (pre + b + post)[|pre|..|pre| + |b|] == b;
  }

  /** `str(n)` is injective. */
  lemma ShowIntInjective(m: int, n: int)
    requires ShowInt(m) == ShowInt(n)
    ensures m == n
  {
    ParseShowInt(m);
    ParseShowInt(n);
  }

  // ---------------------------------------------------------------------------
  // The calibration metadata file

  const MetaStem := "calibration_metadata"
  const MetaBase := "calibration_metadata.txt"
  const MetaFirstNumbered := "calibration_metadata_1.txt"

  /** The k-th name tried: the plain name, then `_1`, `_2`, ... */
  function MetaName(k: nat): (name: string)
    ensures |name| > 0 && name[0] == 'c'
  {
    if k == 0 then MetaBase else MetaStem + "_" + ShowInt(k) + ".txt"
  }

  function MetaCandidate(dir: string, k: nat): string {
    JoinPath(dir, MetaName(k))
  }

  lemma MetaNameInjective(j: nat, k: nat)
    requires j != k
    ensures MetaName(j) != MetaName(k)
  {
    if j > 0 && k > 0 && MetaName(j) == MetaName(k) {
      FramedCancel(MetaStem + "_", ShowInt(j), ShowInt(k), ".txt");
      ShowIntInjective(j, k);
    }
  }

  lemma MetaCandidateInjective(dir: string, j: nat, k: nat)
    requires j != k
    ensures MetaCandidate(dir, j) != MetaCandidate(dir, k)
  {
    MetaNameInjective(j, k);
    JoinInjective(dir, MetaName(j), MetaName(k));
  }

  /** The literal first numbered name is the name the numbering gives for 1. */
  lemma FirstNumbered()
    ensures MetaFirstNumbered == MetaName(1)
  {
    assert ShowInt(1) == "1";
  }

  /**
   * The name search can only pass as many taken names as there are existing
   * paths, which is why it ends.
   */
  lemma {:induction false} MetaCandidatesBounded(existing: set<string>, dir: string, k: nat)
    requires forall j :: 0 <= j < k ==> MetaCandidate(dir, j) in existing
    ensures k <= |existing|
    decreases k
  {
    if k > 0 {
      var last := MetaCandidate(dir, k - 1);
      forall j | 0 <= j < k - 1
        ensures MetaCandidate(dir, j) in existing - {last}
      {
        MetaCandidateInjective(dir, j, k - 1);
      }
      MetaCandidatesBounded(existing - {last}, dir, k - 1);
    }
  }

  /**
   * The file name search of `CalibrationWorker.work`: the plain name, then
   * `_1`, `_2`, ...; the loop exits only on a name that does not exist.
   */
  method FindMetaFile(existing: set<string>, dir: string) returns (metaFile: string)
    ensures metaFile !in existing
    ensures exists k: nat :: metaFile == MetaCandidate(dir, k) &&
                            forall j :: 0 <= j < k ==> MetaCandidate(dir, j) in existing
  {
    metaFile := JoinPath(dir, MetaBase);
    var idx := 1;
    ghost var k: nat := 0;
    while metaFile in existing
      invariant (k == 0 && idx == 1) || (k >= 1 && k == idx)
      invariant metaFile == MetaCandidate(dir, k)
      invariant forall j :: 0 <= j < k ==> MetaCandidate(dir, j) in existing
      decreases |existing| - k
    {
      MetaCandidatesBounded(existing, dir, k + 1);
      if metaFile == JoinPath(dir, MetaBase) {
        if k != 0 {
          MetaCandidateInjective(dir, 0, k);
        }
        FirstNumbered();
        metaFile := JoinPath(dir, MetaFirstNumbered);
        k := 1;
      } else {
        idx := idx + 1;
        metaFile := JoinPath(dir, MetaStem + "_" + ShowInt(idx) + ".txt");
        k := idx;
      }
    }
  }

  // ---------------------------------------------------------------------------
  // The background folder

  /** The k-th numbered alternative to a background folder that exists. */
  function Numbered(base: string, k: nat): string {
    base + "_" + ShowInt(k)
  }

  lemma {:induction false} NumberedBounded(existing: set<string>, base: string, k: nat)
    requires forall j :: 1 <= j < k ==> Numbered(base, j) in existing
    ensures k <= |existing| + 1
    decreases k
  {
    if k > 1 {
      var last := Numbered(base, k - 1);
      forall j | 1 <= j < k - 1
        ensures Numbered(base, j) in existing - {last}
      {
        if Numbered(base, j) == last {
          FramedCancel(base + "_", ShowInt(j), ShowInt(k - 1), "");
          ShowIntInjective(j, k - 1);
        }
      }
      NumberedBounded(existing - {last}, base, k - 1);
    }
  }

  /** The increment loop of `BackgroundCaptureWorker.work`: the least k >= 1 whose folder does not exist. */
  method FirstFreeNumbered(existing: set<string>, base: string) returns (path: string)
    ensures path !in existing
    ensures exists k: nat :: k >= 1 && path == Numbered(base, k) &&
                            forall j :: 1 <= j < k ==> Numbered(base, j) in existing
  {
    var idx := 1;
    while Numbered(base, idx) in existing
      invariant idx >= 1
      invariant forall j :: 1 <= j < idx ==> Numbered(base, j) in existing
      decreases |existing| + 1 - idx
    {
      NumberedBounded(existing, base, idx + 1);
      idx := idx + 1;
    }
    path := Numbered(base, idx);
  }

  /** The paths that exist; `mkdir` adds one. */
  class Disk {
    var paths: set<string>

    constructor (paths0: set<string>)
      ensures paths == paths0
    {
      paths := paths0;
    }

    /**
     * The folder `BackgroundCaptureWorker.work` captures into: the requested
     * folder, created, when it does not exist; otherwise the first free
     * numbered alternative, which the worker does not create.
     */
    method BackgroundFolder(dir: string, folder: string) returns (bgPath: string)
      modifies this
      ensures var base := JoinPath(dir, folder);
        if base !in old(paths) then bgPath == base && paths == old(paths) + {base}
        else paths == old(paths) && bgPath !in paths &&
             exists k: nat :: k >= 1 && bgPath == Numbered(base, k) &&
                              forall j :: 1 <= j < k ==> Numbered(base, j) in paths
    {
      bgPath := JoinPath(dir, folder);
      if bgPath !in paths {
        paths := paths + {bgPath};
      } else {
        bgPath := FirstFreeNumbered(paths, bgPath);
      }
    }
  }

  // ---------------------------------------------------------------------------
  // Grading a calibration

  datatype Grade = Good | Okay | Bad

  /** `_assess_calibration` on the extinction ratio. */
  function Assess(ratio: real): (g: Grade)
  {
    if ratio >= 100.0 then Good
    else if 80.0 <= ratio < 100.0 then Okay
    else Bad
  }

  function GradeRank(g: Grade): nat {
    match g
    case Bad => 0
    case Okay => 1
    case Good => 2
  }

  /** The three grades split the ratios into [100, ...), [80, 100) and below 80. */
  lemma AssessBands(ratio: real)
    ensures Assess(ratio) == Good <==> 100.0 <= ratio
    ensures Assess(ratio) == Okay <==> 80.0 <= ratio < 100.0
    ensures Assess(ratio) == Bad <==> ratio < 80.0
  {
  }

  /** A higher extinction ratio never earns a worse grade. */
  lemma AssessMonotone(r1: real, r2: real)
    requires r1 <= r2
    ensures GradeRank(Assess(r1)) <= GradeRank(Assess(r2))
  {
  }

  const PoorAdvice :=
    "Possibilities are: a) linear polarizer and LC are not oriented properly, " +
    "b) circular analyzer has wrong handedness, " +
    "c) the condenser is not setup for Kohler illumination, " +
    "d) a component, such as autofocus dichroic or sample chamber, distorts the polarization state"

  /** The assessment and the message `_assess_calibration` emits for a grade. */
  function GradeSignals(g: Grade): (s: (string, string))
  {
    match g
    case Good => ("good", "Successful Calibration")
    case Okay => ("okay", "Successful Calibration, Okay Extinction Ratio")
    case Bad => ("bad", "Poor Extinction. " + PoorAdvice)
  }

  /**
   * `_assess_calibration` emits "good", "okay" or "bad" exactly on the three
   * bands of the extinction ratio; only a ratio below 80 gets the advice on
   * misaligned optics, and every other ratio reports a successful calibration.
   */
  lemma AssessmentSignals(ratio: real)
    ensures GradeSignals(Assess(ratio)).0 == "good" <==> 100.0 <= ratio
    ensures GradeSignals(Assess(ratio)).0 == "okay" <==> 80.0 <= ratio < 100.0
    ensures GradeSignals(Assess(ratio)).0 == "bad" <==> ratio < 80.0
    ensures ratio < 80.0 ==> GradeSignals(Assess(ratio)).1 == "Poor Extinction. " + PoorAdvice
    ensures 80.0 <= ratio ==> StartsWith(GradeSignals(Assess(ratio)).1, "Successful Calibration")
  {
    AssessBands(ratio);
  }

  // ---------------------------------------------------------------------------
  // Step sequences and stop requests

  /** The steps a worker drives; their effects on the hardware are not modelled. */
  datatype Stage =
    | FullRoi | CropRoi | ClearRoi | BlackLevel | SetWavelength
    | Scheme4 | Scheme5
    | OptIext | OptI0 | OptI60 | OptI120 | OptI45 | OptI90 | OptI135
    | Extinction | WriteMetadata | AssessCalibration
    | MakeFolder | CaptureBackground | InitReconstructor | Stokes | Birefringence
    | RecordLastCalibration | EmitImages

  /** A step, a progress report, or a `_check_abort` call. */
  datatype Op = Do(stage: Stage) | Report(percent: int) | CheckAbort

  datatype Event = Did(stage: Stage) | Reported(percent: int) | Aborted

  /** One state of a scheme: optimise it, report the progress, check for a stop request. */
  function Optimise(s: Stage, percent: int): seq<Op> {
    [Do(s), Report(percent), CheckAbort]
  }

  /** `_calibrate_4state` up to the first state's progress report. */
  function FourStateStart(): seq<Op> {
    [Do(Scheme4), CheckAbort, Do(OptIext), CheckAbort, Report(60)]
  }

  /** `_calibrate_4state`. */
  function FourStateOps(): seq<Op> {
    FourStateStart() + Optimise(OptI0, 65) + Optimise(OptI60, 75) + Optimise(OptI120, 85)
  }

  /** `_calibrate_5state`. */
  function FiveStateOps(): seq<Op> {
    [Do(Scheme5)] + Optimise(OptIext, 50) + Optimise(OptI0, 55) +
    Optimise(OptI45, 65) + Optimise(OptI90, 75) + Optimise(OptI135, 85)
  }

  /** The scheme choice of `CalibrationWorker.work`. */
  function SchemeOps(scheme: string): seq<Op> {
    if scheme == "4-State" then FourStateOps() else FiveStateOps()
  }

  /** A step taken only with the cropped-ROI setting. */
  function WhenCropped(cropped: bool, s: Stage): seq<Op> {
    if cropped then [Do(s)] else []
  }

  function StartOps(): seq<Op> {
    [Do(FullRoi), Report(1), CheckAbort]
  }

  function PrepareOps(): seq<Op> {
    [CheckAbort, Do(BlackLevel), CheckAbort, Report(10), Do(SetWavelength), CheckAbort]
  }

  function FinishOps(): seq<Op> {
    [CheckAbort, Do(Extinction), CheckAbort, Do(WriteMetadata), Report(100), CheckAbort,
     Do(AssessCalibration), CheckAbort]
  }

  /** `CalibrationWorker.work` up to the scheme, with `cropped` the cropped-ROI setting. */
  function CalibrationHead(cropped: bool): seq<Op> {
    StartOps() + WhenCropped(cropped, CropRoi) + PrepareOps()
  }

  /** `CalibrationWorker.work` after the scheme. */
  function CalibrationTail(cropped: bool): seq<Op> {
    WhenCropped(cropped, ClearRoi) + FinishOps()
  }

  /** `CalibrationWorker.work`. */
  function CalibrationOps(scheme: string, cropped: bool): seq<Op> {
    CalibrationHead(cropped) + SchemeOps(scheme) + CalibrationTail(cropped)
  }

  /** `BackgroundCaptureWorker.work`: folder, capture, reconstruction, then the results. */
  function BackgroundOps(): seq<Op> {
    BackgroundCapture() + BackgroundReconstruct() + BackgroundFinish()
  }

  function BackgroundCapture(): seq<Op> {
    [Do(MakeFolder), CheckAbort, Do(CaptureBackground), Do(InitReconstructor), CheckAbort]
  }

  function BackgroundReconstruct(): seq<Op> {
    [Do(Stokes), CheckAbort, Do(Birefringence), CheckAbort]
  }

  function BackgroundFinish(): seq<Op> {
    [Do(WriteMetadata), Do(RecordLastCalibration), CheckAbort, Do(EmitImages)]
  }

  /** What `pick` takes from each of `ops[i..]`, in order. */
  function Gather<T>(ops: seq<Op>, i: nat, pick: Op -> seq<T>): seq<T>
    decreases |ops| - i
  {
    if i >= |ops| then [] else pick(ops[i]) + Gather(ops, i + 1, pick)
  }

  predicate IsOptimisation(s: Stage) {
    s.OptIext? || s.OptI0? || s.OptI60? || s.OptI120? || s.OptI45? || s.OptI90? || s.OptI135?
  }

  function StageOf(o: Op): seq<Stage> {
    if o.Do? then [o.stage] else []
  }

  function OptimisationOf(o: Op): seq<Stage> {
    if o.Do? && IsOptimisation(o.stage) then [o.stage] else []
  }

  function PercentOf(o: Op): seq<int> {
    if o.Report? then [o.percent] else []
  }

  function CheckOf(o: Op): seq<Op> {
    if o.CheckAbort? then [o] else []
  }

  /** The steps of a sequence, in order. */
  function Stages(ops: seq<Op>): seq<Stage> {
    Gather(ops, 0, StageOf)
  }

  function CountChecks(ops: seq<Op>, i: nat): nat {
    |Gather(ops, i, CheckOf)|
  }

  lemma {:induction false} GatherShift<T>(a: seq<Op>, b: seq<Op>, j: nat, pick: Op -> seq<T>)
    ensures Gather(a + b, |a| + j, pick) == Gather(b, j, pick)
    decreases |b| - j
  {
    if j < |b| {
      GatherShift(a, b, j + 1, pick);
      assert (a + b)[|a| + j] == b[j];
    }
  }

  lemma {:induction false} GatherAppend<T>(a: seq<Op>, b: seq<Op>, i: nat, pick: Op -> seq<T>)
    requires i <= |a|
    ensures Gather(a + b, i, pick) == Gather(a, i, pick) + Gather(b, 0, pick)
    decreases |a| - i
  {
    if i == |a| {
      GatherShift(a, b, 0, pick);
    } else {
      GatherAppend(a, b, i + 1, pick);
      assert (a + b)[i] == a[i];
    }
  }

  /** The 4-State scheme optimises Iext, I0, I60, I120; every other scheme Iext, I0, I45, I90, I135. */
  lemma SchemeOptimisations(scheme: string)
    ensures Gather(SchemeOps(scheme), 0, OptimisationOf) ==
      if scheme == "4-State" then [OptIext, OptI0, OptI60, OptI120]
      else [OptIext, OptI0, OptI45, OptI90, OptI135]
  {
    if scheme == "4-State" {
      FourStateOptimisations();
    } else {
      FiveStateOptimisations();
    }
  }

  lemma FourStateOptimisations()
    ensures Gather(FourStateOps(), 0, OptimisationOf) == [OptIext, OptI0, OptI60, OptI120]
  {
    var a := FourStateStart();
    var b, c, d := Optimise(OptI0, 65), Optimise(OptI60, 75), Optimise(OptI120, 85);
    GatherFour(a, b, c, d, OptimisationOf);
    FourStateStartGathers();
    OptimiseGathers(OptI0, 65);
    OptimiseGathers(OptI60, 75);
    OptimiseGathers(OptI120, 85);
    assert FourStateOps() == a + b + c + d;
    var g := Gather(FourStateOps(), 0, OptimisationOf);
    assert g == [OptIext] + [OptI0] + [OptI60] + [OptI120];
    ListedFour(g, OptIext, OptI0, OptI60, OptI120);
  }

  lemma FourStateStartGathers()
    ensures Gather(FourStateStart(), 0, OptimisationOf) == [OptIext]
    ensures Gather(FourStateStart(), 0, PercentOf) == [60]
  {
    var ops := FourStateStart();
    assert Gather(ops, 4, OptimisationOf) == [] && Gather(ops, 4, PercentOf) == [60];
    assert Gather(ops, 2, OptimisationOf) == [OptIext] && Gather(ops, 2, PercentOf) == [60];
  }

  lemma ListedFour<T>(g: seq<T>, x1: T, x2: T, x3: T, x4: T)
    requires g == [x1] + [x2] + [x3] + [x4]
    ensures g == [x1, x2, x3, x4]
  {
  }

  /** Each state of a scheme optimises that state and reports its percentage. */
  lemma OptimiseGathers(s: Stage, percent: int)
    requires IsOptimisation(s)
    ensures Gather(Optimise(s, percent), 0, OptimisationOf) == [s]
    ensures Gather(Optimise(s, percent), 0, PercentOf) == [percent]
  {
    var ops := Optimise(s, percent);
    assert Gather(ops, 3, OptimisationOf) == [] && Gather(ops, 3, PercentOf) == [];
    assert Gather(ops, 2, OptimisationOf) == [] && Gather(ops, 2, PercentOf) == [];
    assert Gather(ops, 1, OptimisationOf) == [] && Gather(ops, 1, PercentOf) == [percent];
  }

  lemma GatherFour<T>(a: seq<Op>, b: seq<Op>, c: seq<Op>, d: seq<Op>, pick: Op -> seq<T>)
    ensures Gather(a + b + c + d, 0, pick) == Gather(a, 0, pick) + Gather(b, 0, pick) + Gather(c, 0, pick) + Gather(d, 0, pick)
  {
    GatherAppend(a + b + c, d, 0, pick);
    GatherAppend(a + b, c, 0, pick);
    GatherAppend(a, b, 0, pick);
  }

  lemma GatherSixInLine<T>(a: seq<Op>, b: seq<Op>, c: seq<Op>, d: seq<Op>, e: seq<Op>, f: seq<Op>, pick: Op -> seq<T>)
    ensures Gather(a + b + c + d + e + f, 0, pick) ==
      Gather(a, 0, pick) + Gather(b, 0, pick) + Gather(c, 0, pick) + Gather(d, 0, pick) + Gather(e, 0, pick) +
      Gather(f, 0, pick)
  {
    GatherAppend(a + b + c + d + e, f, 0, pick);
    GatherFour(a + b, c, d, e, pick);
    GatherAppend(a, b, 0, pick);
  }

  lemma FiveStateOptimisations()
    ensures Gather(FiveStateOps(), 0, OptimisationOf) == [OptIext, OptI0, OptI45, OptI90, OptI135]
  {
    var a := [Do(Scheme5)];
    var b, c, d := Optimise(OptIext, 50), Optimise(OptI0, 55), Optimise(OptI45, 65);
    var e, f := Optimise(OptI90, 75), Optimise(OptI135, 85);
    GatherSixInLine(a, b, c, d, e, f, OptimisationOf);
    GatherOne(Do(Scheme5), OptimisationOf);
    OptimiseGathers(OptIext, 50);
    OptimiseGathers(OptI0, 55);
    OptimiseGathers(OptI45, 65);
    OptimiseGathers(OptI90, 75);
    OptimiseGathers(OptI135, 85);
    assert FiveStateOps() == a + b + c + d + e + f;
    assert OptimisationOf(Do(Scheme5)) == [];
    var g := Gather(FiveStateOps(), 0, OptimisationOf);
    assert g == [] + [OptIext] + [OptI0] + [OptI45] + [OptI90] + [OptI135];
    ListedFive(g, OptIext, OptI0, OptI45, OptI90, OptI135);
  }

  lemma GatherOne<T>(o: Op, pick: Op -> seq<T>)
    ensures Gather([o], 0, pick) == pick(o)
  {
    assert Gather([o], 1, pick) == [];
  }

  lemma ListedFive<T>(g: seq<T>, x1: T, x2: T, x3: T, x4: T, x5: T)
    requires g == [] + [x1] + [x2] + [x3] + [x4] + [x5]
    ensures g == [x1, x2, x3, x4, x5]
  {
  }

  /** No optimisation runs outside the scheme. */
  lemma {:induction false} NoOptimisations(ops: seq<Op>, i: nat)
    requires forall k :: i <= k < |ops| ==> !(ops[k].Do? && IsOptimisation(ops[k].stage))
    ensures Gather(ops, i, OptimisationOf) == []
    decreases |ops| - i
  {
    if i < |ops| {
      NoOptimisations(ops, i + 1);
    }
  }

  /** A whole calibration run optimises exactly the states of its scheme, in order. */
  lemma CalibrationOptimisations(scheme: string, cropped: bool)
    ensures Gather(CalibrationOps(scheme, cropped), 0, OptimisationOf) == Gather(SchemeOps(scheme), 0, OptimisationOf)
  {
    CalibrationPieces(scheme, cropped, OptimisationOf);
    PiecesOptimiseNothing(cropped);
  }

  lemma PiecesOptimiseNothing(cropped: bool)
    ensures Gather(StartOps(), 0, OptimisationOf) == []
    ensures Gather(WhenCropped(cropped, CropRoi), 0, OptimisationOf) == []
    ensures Gather(PrepareOps(), 0, OptimisationOf) == []
    ensures Gather(WhenCropped(cropped, ClearRoi), 0, OptimisationOf) == []
    ensures Gather(FinishOps(), 0, OptimisationOf) == []
  {
    NoOptimisations(StartOps(), 0);
    NoOptimisations(WhenCropped(cropped, CropRoi), 0);
    NoOptimisations(PrepareOps(), 0);
    NoOptimisations(WhenCropped(cropped, ClearRoi), 0);
    NoOptimisations(FinishOps(), 0);
  }

  /** What a calibration run yields is what its pieces yield, in order. */
  lemma CalibrationPieces<T>(scheme: string, cropped: bool, pick: Op -> seq<T>)
    ensures Gather(CalibrationOps(scheme, cropped), 0, pick) ==
      Gather(StartOps(), 0, pick) + Gather(WhenCropped(cropped, CropRoi), 0, pick) + Gather(PrepareOps(), 0, pick) +
      Gather(SchemeOps(scheme), 0, pick) +
      Gather(WhenCropped(cropped, ClearRoi), 0, pick) + Gather(FinishOps(), 0, pick)
  {
    GatherSix(StartOps(), WhenCropped(cropped, CropRoi), PrepareOps(), SchemeOps(scheme),
              WhenCropped(cropped, ClearRoi), FinishOps(), pick);
  }

  lemma GatherSix<T>(a: seq<Op>, b: seq<Op>, c: seq<Op>, s: seq<Op>, d: seq<Op>, f: seq<Op>, pick: Op -> seq<T>)
    ensures Gather(a + b + c + s + (d + f), 0, pick) ==
      Gather(a, 0, pick) + Gather(b, 0, pick) + Gather(c, 0, pick) + Gather(s, 0, pick) +
      Gather(d, 0, pick) + Gather(f, 0, pick)
  {
    GatherAppend(a + b + c + s, d + f, 0, pick);
    GatherAppend(a + b + c, s, 0, pick);
    GatherAppend(a + b, c, 0, pick);
    GatherAppend(a, b, 0, pick);
    GatherAppend(d, f, 0, pick);
    var ga, gb, gc, gs, gd, gf := Gather(a, 0, pick), Gather(b, 0, pick), Gather(c, 0, pick),
                                  Gather(s, 0, pick), Gather(d, 0, pick), Gather(f, 0, pick);
    assert ga + gb + gc + gs + (gd + gf) == ga + gb + gc + gs + gd + gf;
  }

  predicate StrictlyIncreasing(s: seq<int>) {
    forall i, j :: 0 <= i < j < |s| ==> s[i] < s[j]
  }

  /** The progress bar of a calibration only moves forward, and ends at 100. */
  lemma CalibrationProgress(scheme: string, cropped: bool)
    ensures var p := Gather(CalibrationOps(scheme, cropped), 0, PercentOf);
      StrictlyIncreasing(p) && |p| > 0 && p[|p| - 1] == 100
  {
    ProgressValues(scheme, cropped);
    var p := Gather(CalibrationOps(scheme, cropped), 0, PercentOf);
    forall i | 0 <= i < |p| - 1
      ensures p[i] < p[i + 1]
    {
    }
    StepsIncreasing(p);
  }

  /** A sequence that rises at every step rises overall. */
  lemma {:induction false} StepsIncreasing(s: seq<int>)
    requires forall i :: 0 <= i < |s| - 1 ==> s[i] < s[i + 1]
    ensures StrictlyIncreasing(s)
    decreases |s|
  {
    if |s| > 1 {
      StepsIncreasing(s[1..]);
      forall j | 2 <= j < |s|
        ensures s[1] < s[j]
      {
        assert s[1..][0] < s[1..][j - 1];
      }
    }
  }

  /** The percentages a calibration reports, in order. */
  lemma ProgressValues(scheme: string, cropped: bool)
    ensures Gather(CalibrationOps(scheme, cropped), 0, PercentOf) ==
      if scheme == "4-State" then [1, 10, 60, 65, 75, 85, 100] else [1, 10, 50, 55, 65, 75, 85, 100]
  {
    ProgressPieces(scheme, cropped);
    SchemePercents(scheme);
    FramedPercents(Gather(CalibrationOps(scheme, cropped), 0, PercentOf), Gather(SchemeOps(scheme), 0, PercentOf),
                   scheme == "4-State");
  }

  /** A calibration reports 1, then 10, then what its scheme reports, then 100. */
  lemma ProgressPieces(scheme: string, cropped: bool)
    ensures Gather(CalibrationOps(scheme, cropped), 0, PercentOf) ==
      [1] + [] + [10] + Gather(SchemeOps(scheme), 0, PercentOf) + [] + [100]
  {
    CalibrationPieces(scheme, cropped, PercentOf);
    PiecesPercents(cropped);
  }

  lemma FramedPercents(p: seq<int>, x: seq<int>, fourState: bool)
    requires p == [1] + [] + [10] + x + [] + [100]
    requires x == if fourState then [60, 65, 75, 85] else [50, 55, 65, 75, 85]
    ensures p == if fourState then [1, 10, 60, 65, 75, 85, 100] else [1, 10, 50, 55, 65, 75, 85, 100]
  {
  }



  lemma PiecesPercents(cropped: bool)
    ensures Gather(StartOps(), 0, PercentOf) == [1]
    ensures Gather(WhenCropped(cropped, CropRoi), 0, PercentOf) == []
    ensures Gather(PrepareOps(), 0, PercentOf) == [10]
    ensures Gather(WhenCropped(cropped, ClearRoi), 0, PercentOf) == []
    ensures Gather(FinishOps(), 0, PercentOf) == [100]
  {
    NoPercents(StartOps(), 2);
    NoPercents(WhenCropped(cropped, CropRoi), 0);
    NoPercents(PrepareOps(), 4);
    assert Gather(PrepareOps(), 2, PercentOf) == [10];
    NoPercents(WhenCropped(cropped, ClearRoi), 0);
    NoPercents(FinishOps(), 5);
    assert Gather(FinishOps(), 2, PercentOf) == [100];
  }

  lemma {:induction false} NoPercents(ops: seq<Op>, i: nat)
    requires forall k :: i <= k < |ops| ==> !ops[k].Report?
    ensures Gather(ops, i, PercentOf) == []
    decreases |ops| - i
  {
    if i < |ops| {
      NoPercents(ops, i + 1);
    }
  }

  lemma SchemePercents(scheme: string)
    ensures Gather(SchemeOps(scheme), 0, PercentOf) ==
      if scheme == "4-State" then [60, 65, 75, 85] else [50, 55, 65, 75, 85]
  {
    if scheme == "4-State" {
      FourStatePercents();
    } else {
      FiveStatePercents();
    }
  }

  lemma FourStatePercents()
    ensures Gather(FourStateOps(), 0, PercentOf) == [60, 65, 75, 85]
  {
    var a := FourStateStart();
    var b, c, d := Optimise(OptI0, 65), Optimise(OptI60, 75), Optimise(OptI120, 85);
    GatherFour(a, b, c, d, PercentOf);
    FourStateStartGathers();
    OptimiseGathers(OptI0, 65);
    OptimiseGathers(OptI60, 75);
    OptimiseGathers(OptI120, 85);
    assert FourStateOps() == a + b + c + d;
    var g := Gather(FourStateOps(), 0, PercentOf);
    assert g == [60] + [65] + [75] + [85];
    ListedFour(g, 60, 65, 75, 85);
  }

  lemma FiveStatePercents()
    ensures Gather(FiveStateOps(), 0, PercentOf) == [50, 55, 65, 75, 85]
  {
    var a := [Do(Scheme5)];
    var b, c, d := Optimise(OptIext, 50), Optimise(OptI0, 55), Optimise(OptI45, 65);
    var e, f := Optimise(OptI90, 75), Optimise(OptI135, 85);
    GatherSixInLine(a, b, c, d, e, f, PercentOf);
    GatherOne(Do(Scheme5), PercentOf);
    OptimiseGathers(OptIext, 50);
    OptimiseGathers(OptI0, 55);
    OptimiseGathers(OptI45, 65);
    OptimiseGathers(OptI90, 75);
    OptimiseGathers(OptI135, 85);
    assert FiveStateOps() == a + b + c + d + e + f;
    assert PercentOf(Do(Scheme5)) == [];
    var g := Gather(FiveStateOps(), 0, PercentOf);
    assert g == [] + [50] + [55] + [65] + [75] + [85];
    ListedFive(g, 50, 55, 65, 75, 85);
  }

  /** Whether the stop request is seen at the c-th abort check. */
  predicate Requested(flags: seq<bool>, c: nat) {
    c < |flags| && flags[c]
  }

  /** The steps performed in a list of events, in order. */
  function Done(events: seq<Event>): seq<Stage>
    decreases |events|
  {
    if events == [] then [] else (if events[0].Did? then [events[0].stage] else []) + Done(events[1..])
  }

  /**
   * `CalibrationWorker` from `ops[i]` on, `c` checks having passed: a check
   * that sees the stop request emits `aborted` and raises TimeoutError.
   */
  function RunRaising(ops: seq<Op>, i: nat, flags: seq<bool>, c: nat): (r: (seq<Event>, Outcome))
    decreases |ops| - i
  {
    if i >= |ops| then ([], Pass)
    else match ops[i]
      case CheckAbort =>
        if Requested(flags, c) then ([Aborted], Fail(TimeoutError)) else RunRaising(ops, i + 1, flags, c + 1)
      case Do(s) => var r := RunRaising(ops, i + 1, flags, c); ([Did(s)] + r.0, r.1)
      case Report(p) => var r := RunRaising(ops, i + 1, flags, c); ([Reported(p)] + r.0, r.1)
  }

  /**
   * `BackgroundCaptureWorker` from `ops[i]` on: a check that sees the stop
   * request emits `aborted` and returns True, which the worker ignores.
   */
  function RunContinuing(ops: seq<Op>, i: nat, flags: seq<bool>, c: nat): (events: seq<Event>)
    decreases |ops| - i
  {
    if i >= |ops| then []
    else match ops[i]
      case CheckAbort =>
        (if Requested(flags, c) then [Aborted] else []) + RunContinuing(ops, i + 1, flags, c + 1)
      case Do(s) => [Did(s)] + RunContinuing(ops, i + 1, flags, c)
      case Report(p) => [Reported(p)] + RunContinuing(ops, i + 1, flags, c)
  }

  /** A raising worker fails, with TimeoutError, exactly when one of its checks sees the stop request. */
  lemma {:induction false} RaisingFailsIff(ops: seq<Op>, i: nat, flags: seq<bool>, c: nat)
    ensures RunRaising(ops, i, flags, c).1 == Fail(TimeoutError) <==>
      exists k :: c <= k < c + CountChecks(ops, i) && Requested(flags, k)
    ensures RunRaising(ops, i, flags, c).1 == Pass || RunRaising(ops, i, flags, c).1 == Fail(TimeoutError)
    decreases |ops| - i
  {
    if i < |ops| {
      var next := if ops[i].CheckAbort? then c + 1 else c;
      RaisingFailsIff(ops, i + 1, flags, next);
      if ops[i].CheckAbort? && Requested(flags, c) {
        assert c <= c < c + CountChecks(ops, i);
      }
    }
  }

  /** A raising worker that is not stopped performs every step and never emits `aborted`. */
  lemma {:induction false} RaisingPassRunsAll(ops: seq<Op>, i: nat, flags: seq<bool>, c: nat)
    requires RunRaising(ops, i, flags, c).1 == Pass
    ensures Done(RunRaising(ops, i, flags, c).0) == Gather(ops, i, StageOf)
    ensures Aborted !in RunRaising(ops, i, flags, c).0
    decreases |ops| - i
  {
    if i < |ops| {
      var next := if ops[i].CheckAbort? then c + 1 else c;
      RaisingPassRunsAll(ops, i + 1, flags, next);
      var r := RunRaising(ops, i, flags, c);
      var t := RunRaising(ops, i + 1, flags, next);
      if !ops[i].CheckAbort? {
        assert r.0[1..] == t.0;
      }
    }
  }

  /** A raising worker that is stopped ends with its only `aborted` event. */
  lemma {:induction false} RaisingFailEndsAborted(ops: seq<Op>, i: nat, flags: seq<bool>, c: nat)
    requires RunRaising(ops, i, flags, c).1.Fail?
    ensures var e := RunRaising(ops, i, flags, c).0;
      |e| > 0 && e[|e| - 1] == Aborted && Aborted !in e[..|e| - 1]
    decreases |ops| - i
  {
    if i < |ops| {
      var next := if ops[i].CheckAbort? then c + 1 else c;
      var e := RunRaising(ops, i, flags, c).0;
      var t := RunRaising(ops, i + 1, flags, next).0;
      if !ops[i].CheckAbort? {
        RaisingFailEndsAborted(ops, i + 1, flags, next);
        assert e[..|e| - 1] == [e[0]] + t[..|t| - 1];
      } else if !Requested(flags, c) {
        RaisingFailEndsAborted(ops, i + 1, flags, next);
      }
    }
  }

  /** A raising worker performs a prefix of its steps, in order: nothing after a stop runs. */
  lemma {:induction false} RaisingStepsPrefix(ops: seq<Op>, i: nat, flags: seq<bool>, c: nat)
    ensures Done(RunRaising(ops, i, flags, c).0) <= Gather(ops, i, StageOf)
    decreases |ops| - i
  {
    if i < |ops| {
      var next := if ops[i].CheckAbort? then c + 1 else c;
      RaisingStepsPrefix(ops, i + 1, flags, next);
      var e := RunRaising(ops, i, flags, c).0;
      var t := RunRaising(ops, i + 1, flags, next).0;
      match ops[i]
      case CheckAbort =>
      case Do(s) =>
        assert e[1..] == t;
        assert Done(e) == [s] + Done(t);
      case Report(p) =>
        assert e[1..] == t;
        assert Done(e) == Done(t);
    }
  }

  /** A continuing worker performs every step whatever the stop requests. */
  lemma {:induction false} ContinuingRunsAll(ops: seq<Op>, i: nat, flags: seq<bool>, c: nat)
    ensures Done(RunContinuing(ops, i, flags, c)) == Gather(ops, i, StageOf)
    decreases |ops| - i
  {
    if i < |ops| {
      var next := if ops[i].CheckAbort? then c + 1 else c;
      ContinuingRunsAll(ops, i + 1, flags, next);
      var e := RunContinuing(ops, i, flags, c);
      var t := RunContinuing(ops, i + 1, flags, next);
      match ops[i]
      case CheckAbort =>
        if Requested(flags, c) {
          assert e[1..] == t;
        } else {
          assert e == t;
        }
      case Do(s) => assert e[1..] == t;
      case Report(p) => assert e[1..] == t;
    }
  }

  /** A stop request seen at the first check ends a calibration before the black level is measured. */
  lemma CalibrationStopsEarly(scheme: string, cropped: bool, flags: seq<bool>)
    requires Requested(flags, 0)
    ensures RunRaising(CalibrationOps(scheme, cropped), 0, flags, 0).0 == [Did(FullRoi), Reported(1), Aborted]
    ensures RunRaising(CalibrationOps(scheme, cropped), 0, flags, 0).1 == Fail(TimeoutError)
  {
    var ops := CalibrationOps(scheme, cropped);
    var head := CalibrationHead(cropped);
    assert head[0] == Do(FullRoi) && head[1] == Report(1) && head[2] == CheckAbort;
    assert ops[0] == Do(FullRoi) && ops[1] == Report(1) && ops[2] == CheckAbort;
    StartStops(ops, flags);
  }

  lemma StartStops(ops: seq<Op>, flags: seq<bool>)
    requires |ops| >= 3 && ops[0] == Do(FullRoi) && ops[1] == Report(1) && ops[2] == CheckAbort
    requires Requested(flags, 0)
    ensures RunRaising(ops, 0, flags, 0).0 == [Did(FullRoi), Reported(1), Aborted]
    ensures RunRaising(ops, 0, flags, 0).1 == Fail(TimeoutError)
  {
    assert RunRaising(ops, 1, flags, 0).0 == [Reported(1), Aborted];
    assert RunRaising(ops, 1, flags, 0).1 == Fail(TimeoutError);
  }

  /** The background worker captures, reconstructs and emits its images even when asked to stop. */
  lemma BackgroundIgnoresStop(flags: seq<bool>)
    ensures Done(RunContinuing(BackgroundOps(), 0, flags, 0)) ==
      [MakeFolder, CaptureBackground, InitReconstructor, Stokes, Birefringence, WriteMetadata,
       RecordLastCalibration, EmitImages]
  {
    ContinuingRunsAll(BackgroundOps(), 0, flags, 0);
    BackgroundStages();
  }

  lemma BackgroundStages()
    ensures Gather(BackgroundOps(), 0, StageOf) ==
      [MakeFolder, CaptureBackground, InitReconstructor, Stokes, Birefringence, WriteMetadata,
       RecordLastCalibration, EmitImages]
  {
    var a, b, c := BackgroundCapture(), BackgroundReconstruct(), BackgroundFinish();
    GatherAppend(a + b, c, 0, StageOf);
    GatherAppend(a, b, 0, StageOf);
    BackgroundPartStages();
    var g := Gather(BackgroundOps(), 0, StageOf);
    assert g == [MakeFolder, CaptureBackground, InitReconstructor] + [Stokes, Birefringence] +
      [WriteMetadata, RecordLastCalibration, EmitImages];
  }

  lemma BackgroundPartStages()
    ensures Gather(BackgroundCapture(), 0, StageOf) == [MakeFolder, CaptureBackground, InitReconstructor]
    ensures Gather(BackgroundReconstruct(), 0, StageOf) == [Stokes, Birefringence]
    ensures Gather(BackgroundFinish(), 0, StageOf) == [WriteMetadata, RecordLastCalibration, EmitImages]
  {
    var a, b, c := BackgroundCapture(), BackgroundReconstruct(), BackgroundFinish();
    assert Gather(a, 2, StageOf) == [CaptureBackground, InitReconstructor];
    assert Gather(b, 2, StageOf) == [Birefringence];
    assert Gather(c, 2, StageOf) == [EmitImages];
  }


  // ---------------------------------------------------------------------------
  // Loading a saved calibration

  /** A `define_lc_state` call: the state and its LCA and LCB values. */
  datatype Define = Define(state: string, lca: Yaml, lcb: Yaml)

  /** `state[0]` and `state[1]`, in that order. */
  function Pair(v: Yaml): (r: Result<(Yaml, Yaml)>)
    ensures v.YList? && |v.items| >= 2 ==> r == Ok((v.items[0], v.items[1]))
    ensures v.YList? && |v.items| < 2 ==> r == Err(IndexError)
  {
    match PyItem(v, 0)
    case Err(e) => Err(e)
    case Ok(a) =>
      match PyItem(v, 1)
      case Err(e) => Err(e)
      case Ok(b) => Ok((a, b))
  }

  /** Reads one summary entry and defines the state from it. */
  function DefineFrom(summary: Yaml, state: string, key: string): (r: Result<Define>)
    ensures r.Ok? ==> r.value.state == state
  {
    match PyGet(summary, key)
    case Err(e) => Err(e)
    case Ok(v) =>
      match Pair(v)
      case Err(e) => Err(e)
      case Ok(p) => Ok(Define(state, p.0, p.1))
  }

  /** The state names and summary keys both schemes define. */
  function FirstStates(): seq<(string, string)> {
    [("State0", "[LCA_Ext, LCB_Ext]"), ("State1", "[LCA_0, LCB_0]")]
  }

  /** The state names and summary keys a scheme defines beyond State0 and State1. */
  function SchemeStates(fourState: bool): seq<(string, string)> {
    if fourState then [("State2", "[LCA_60, LCB_60]"), ("State3", "[LCA_120, LCB_120]")]
    else [("State2", "[LCA_45, LCB_45]"), ("State3", "[LCA_90, LCB_90]"), ("State4", "[LCA_135, LCB_135]")]
  }

  /**
   * `load_calibration` up to the first failing subscript: the states it has
   * defined by then, and how it ends.  Both entries of a group are read
   * before the group's states are defined.
   */
  function LoadStates(meta: Yaml): (r: (seq<Define>, Outcome))
  {
    match PyGet(meta, "Summary")
    case Err(e) => ([], Fail(e))
    case Ok(summary) => LoadGroup(summary, FirstStates(), [], true)
  }

  /**
   * Reads a group's entries, then defines its states after those already
   * `defined`; the first group is followed by the scheme's group.
   */
  function LoadGroup(summary: Yaml, states: seq<(string, string)>, defined: seq<Define>, first: bool)
    : (r: (seq<Define>, Outcome))
    decreases if first then 1 else 0
  {
    if GetAll(summary, states).Fail? then (defined, GetAll(summary, states))
    else
      var group := DefineAll(summary, states);
      if group.1.Fail? || !first then (defined + group.0, group.1)
      else
        match PyGet(summary, "Acquired Using")
        case Err(e) => (defined + group.0, Fail(e))
        case Ok(scheme) => LoadGroup(summary, SchemeStates(scheme == YStr("4-State")), defined + group.0, false)
  }

  /** Reads every entry of a group, in order, failing at the first missing one. */
  function GetAll(summary: Yaml, states: seq<(string, string)>): (o: Outcome)
    decreases |states|
  {
    if states == [] then Pass
    else match PyGet(summary, states[0].1)
      case Err(e) => Fail(e)
      case Ok(_) => GetAll(summary, states[1..])
  }

  /** Defines the states of a group, in order, up to the first failing subscript. */
  function DefineAll(summary: Yaml, states: seq<(string, string)>): (r: (seq<Define>, Outcome))
    ensures |r.0| <= |states|
    ensures forall i :: 0 <= i < |r.0| ==> r.0[i].state == states[i].0
    ensures r.1 == Pass ==> |r.0| == |states|
    decreases |states|
  {
    if states == [] then ([], Pass)
    else match DefineFrom(summary, states[0].0, states[0].1)
      case Err(e) => ([], Fail(e))
      case Ok(d) =>
        var rest := DefineAll(summary, states[1..]);
        ([d] + rest.0, rest.1)
  }

  /** The names of the states a complete load defines. */
  function StateNames(defs: seq<Define>): seq<string>
    decreases |defs|
  {
    if defs == [] then [] else [defs[0].state] + StateNames(defs[1..])
  }

  lemma {:induction false} DefineAllNames(summary: Yaml, states: seq<(string, string)>)
    requires DefineAll(summary, states).1 == Pass
    ensures StateNames(DefineAll(summary, states).0) == Names(states)
    decreases |states|
  {
    if states != [] {
      DefineAllNames(summary, states[1..]);
      var r := DefineAll(summary, states);
      assert r.0[1..] == DefineAll(summary, states[1..]).0;
    }
  }

  function Names(states: seq<(string, string)>): seq<string> {
    seq(|states|, i requires 0 <= i < |states| => states[i].0)
  }

  lemma FirstNames()
    ensures Names(FirstStates()) == ["State0", "State1"]
  {
  }

  lemma SchemeNames(fourState: bool)
    ensures Names(SchemeStates(fourState)) ==
      if fourState then ["State2", "State3"] else ["State2", "State3", "State4"]
  {
    if fourState {
      FourStateNames();
    } else {
      FiveStateNames();
    }
  }

  lemma FourStateNames()
    ensures Names(SchemeStates(true)) == ["State2", "State3"]
  {
    var st := SchemeStates(true);
    assert Names(st) == [st[0].0, st[1].0];
  }

  lemma FiveStateNames()
    ensures Names(SchemeStates(false)) == ["State2", "State3", "State4"]
  {
    var st := SchemeStates(false);
    assert Names(st) == [st[0].0, st[1].0, st[2].0];
  }

  lemma {:induction false} StateNamesAppend(a: seq<Define>, b: seq<Define>)
    ensures StateNames(a + b) == StateNames(a) + StateNames(b)
    decreases |a|
  {
    if a != [] {
      assert (a + b)[1..] == a[1..] + b;
      StateNamesAppend(a[1..], b);
      assert (a + b)[0] == a[0];
      assert StateNames(a) == [a[0].state] + StateNames(a[1..]);
      assert StateNames(a + b) == [a[0].state] + StateNames(a[1..] + b);
    } else {
      assert a + b == b;
    }
  }

  /** A group that loads completely adds its own state names, in order. */
  lemma LoadGroupNames(summary: Yaml, states: seq<(string, string)>, defined: seq<Define>)
    requires LoadGroup(summary, states, defined, false).1 == Pass
    ensures StateNames(LoadGroup(summary, states, defined, false).0) == StateNames(defined) + Names(states)
  {
    var group := DefineAll(summary, states);
    DefineAllNames(summary, states);
    StateNamesAppend(defined, group.0);
  }

  /**
   * A load that completes defines State0 to State3 for a 4-State
   * calibration and State0 to State4 for any other.
   */
  lemma LoadedStates(meta: Yaml)
    requires LoadStates(meta).1 == Pass
    ensures var summary := PyGet(meta, "Summary").value;
      StateNames(LoadStates(meta).0) ==
        if PyGet(summary, "Acquired Using") == Ok(YStr("4-State"))
        then ["State0", "State1", "State2", "State3"]
        else ["State0", "State1", "State2", "State3", "State4"]
  {
    var summary := PyGet(meta, "Summary").value;
    var first := DefineAll(summary, FirstStates()).0;
    var fourState := PyGet(summary, "Acquired Using") == Ok(YStr("4-State"));
    LoadStatesSecondGroup(meta);
    LoadGroupNames(summary, SchemeStates(fourState), first);
    DefineAllNames(summary, FirstStates());
    AllStateNames(fourState);
  }

  /** A load that completes is the scheme's group loaded, completely, after the first group. */
  lemma LoadStatesSecondGroup(meta: Yaml)
    requires LoadStates(meta).1 == Pass
    ensures PyGet(meta, "Summary").Ok?
    ensures DefineAll(PyGet(meta, "Summary").value, FirstStates()).1 == Pass
    ensures var summary := PyGet(meta, "Summary").value;
      var second := SchemeStates(PyGet(summary, "Acquired Using") == Ok(YStr("4-State")));
      var first := DefineAll(summary, FirstStates()).0;
      LoadStates(meta).0 == LoadGroup(summary, second, first, false).0 &&
      LoadGroup(summary, second, first, false).1 == Pass
  {
    var summary := PyGet(meta, "Summary").value;
    var first := DefineAll(summary, FirstStates()).0;
    assert [] + first == first;
  }

  lemma AllStateNames(fourState: bool)
    ensures Names(FirstStates()) + Names(SchemeStates(fourState)) ==
      if fourState then ["State0", "State1", "State2", "State3"]
      else ["State0", "State1", "State2", "State3", "State4"]
  {
    FirstNames();
    SchemeNames(fourState);
  }

  /** A summary without "Acquired Using" stops the load with KeyError once State0 and State1 are defined. */
  lemma UnknownSchemeKeyError(summary: seq<(string, Yaml)>)
    requires GetAll(YMap(summary), FirstStates()).Pass?
    requires DefineAll(YMap(summary), FirstStates()).1 == Pass
    requires !HasKey(summary, "Acquired Using")
    ensures var r := LoadStates(YMap([("Summary", YMap(summary))]));
      r.1 == Fail(KeyError) && StateNames(r.0) == ["State0", "State1"]
  {
    DefineAllNames(YMap(summary), FirstStates());
    FirstNames();
    assert [] + DefineAll(YMap(summary), FirstStates()).0 == DefineAll(YMap(summary), FirstStates()).0;
  }

  // ---------------------------------------------------------------------------
  // Microscope parameters of a background

  /** The texts of the line edits the background worker reads. */
  datatype FieldTexts = FieldTexts(padZ: string, nMedia: string, objNa: string, condNa: string, mag: string, ps: string)

  /** A line edit's value: None when empty, `float(text)` otherwise. */
  function FieldValue(text: string, toFloat: string -> Result<real>): (r: Result<Yaml>)
    ensures text == "" <==> r == Ok(YNone)
    ensures text != "" ==> (r.Ok? <==> toFloat(text).Ok?)
    ensures text != "" && r.Ok? ==> r.value == YReal(toFloat(text).value)
  {
    if text == "" then Ok(YNone)
    else match toFloat(text)
      case Ok(x) => Ok(YReal(x))
      case Err(e) => Err(e)
  }

  /**
   * The `microscope_params` dictionary, keys in display order; the fields are
   * converted in that order and the first failing conversion raises.
   */
  function MicroscopeParams(t: FieldTexts, bgOption: string, swing: real, toFloat: string -> Result<real>)
    : (r: Result<seq<(string, Yaml)>>)
  {
    var padZ :- FieldValue(t.padZ, toFloat);
    var nMedia :- FieldValue(t.nMedia, toFloat);
    var objNa :- FieldValue(t.objNa, toFloat);
    var condNa :- FieldValue(t.condNa, toFloat);
    var mag :- FieldValue(t.mag, toFloat);
    var ps :- FieldValue(t.ps, toFloat);
    Ok([("phase_dimension", YNone), ("pad_z", padZ), ("n_objective_media", nMedia),
        ("bg_correction_option", YStr(bgOption)), ("objective_NA", objNa), ("condenser_NA", condNa),
        ("magnification", mag), ("swing", YReal(swing)), ("pixel_size", ps)])
  }

  function Texts(t: FieldTexts): seq<string> {
    [t.padZ, t.nMedia, t.objNa, t.condNa, t.mag, t.ps]
  }

  /**
   * The dictionary is built exactly when every non-empty field converts;
   * each field's entry is None for an empty text and its float otherwise,
   * and the background option and swing are copied.
   */
  lemma MicroscopeParamsValues(t: FieldTexts, bgOption: string, swing: real, toFloat: string -> Result<real>)
    ensures var r := MicroscopeParams(t, bgOption, swing, toFloat);
      (r.Ok? <==> forall i :: 0 <= i < 6 ==> Texts(t)[i] == "" || toFloat(Texts(t)[i]).Ok?) &&
      (r.Ok? ==>
        |r.value| == 9 &&
        r.value[3] == ("bg_correction_option", YStr(bgOption)) && r.value[7] == ("swing", YReal(swing)) &&
        r.value[1].1 == FieldValue(t.padZ, toFloat).value && r.value[2].1 == FieldValue(t.nMedia, toFloat).value &&
        r.value[4].1 == FieldValue(t.objNa, toFloat).value && r.value[5].1 == FieldValue(t.condNa, toFloat).value &&
        r.value[6].1 == FieldValue(t.mag, toFloat).value && r.value[8].1 == FieldValue(t.ps, toFloat).value)
  {
    var ts := Texts(t);
    if forall i :: 0 <= i < 6 ==> ts[i] == "" || toFloat(ts[i]).Ok? {
      assert ts[0] == t.padZ && ts[1] == t.nMedia && ts[2] == t.objNa;
      assert ts[3] == t.condNa && ts[4] == t.mag && ts[5] == t.ps;
    }
  }

  /**
   * The last calibration file after a background: its notes merged with the
   * new note as the widget merges them, and its microscope parameters
   * replaced.  A file without "Notes" raises KeyError; a stored note that is
   * neither a string nor None raises TypeError.
   */
  function UpdateLastCalibration(doc: Yaml, note: string, params: seq<(string, Yaml)>): (r: Result<Yaml>)
    ensures r.Ok? <==> doc.YMap? && HasKey(doc.entries, "Notes") && GuiParse.NoteText(Lookup(doc.entries, "Notes").value).Some?
    ensures r.Ok? ==> r.value.YMap?
    ensures r.Ok? ==>
      Lookup(r.value.entries, "Notes") ==
      Some(YStr(GuiParse.MergeNote(GuiParse.NoteText(Lookup(doc.entries, "Notes").value).value, note)))
    ensures r.Ok? ==> Lookup(r.value.entries, "Microscope Parameters") == Some(YMap(params))
    ensures r.Ok? ==>
      forall k :: k != "Notes" && k != "Microscope Parameters" ==> Lookup(r.value.entries, k) == Lookup(doc.entries, k)
  {
    match PyGet(doc, "Notes")
    case Err(e) => Err(e)
    case Ok(stored) =>
      match GuiParse.NoteText(stored)
      case None => Err(TypeError)
      case Some(text) =>
        var withNote := PySet(doc.entries, "Notes", YStr(GuiParse.MergeNote(text, note)));
        Ok(YMap(PySet(withNote, "Microscope Parameters", YMap(params))))
  }
}
