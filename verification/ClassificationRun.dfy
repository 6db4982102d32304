// internal/domain/classification.go and the deterministic argmax of the run builder.
module ClassificationRun {
  import opened Bytes
  import opened Floats
  import opened Integers
  import LightCurve
  import opened Wrappers

  const COARSE_COUNT := 7
  const FINE_COUNT := 10
  const LEAF_COUNT := 12

  const MAXIMUM_COMPUTE_CURRENT_EPOCHS := 20

  type CoarseVector = v: seq<Float> | |v| == COARSE_COUNT witness seq(COARSE_COUNT, _ => NaN)
  type FineVector = v: seq<Float> | |v| == FINE_COUNT witness seq(FINE_COUNT, _ => NaN)
  type LeafVector = v: seq<Float> | |v| == LEAF_COUNT witness seq(LEAF_COUNT, _ => NaN)

  // An instant in UTC, counted from 1970; the zero instant is the first of year 1.
  datatype Instant = Instant(seconds: Int64, nanos: Nanos)

  type Nanos = n: int | 0 <= n < 1_000_000_000

  const ZERO_SECONDS := -62135596800

  predicate IsZero(t: Instant) {
    t.seconds == ZERO_SECONDS && t.nanos == 0
  }

  // Values of CoarseSourceType.
  const COMPUTED_CURRENT := 1
  const REUSED_PREVIOUS := 2
  const COMPUTED_BOOTSTRAP := 3

  datatype Run = Run(
    runID: Text,
    jobID: Text,
    objectID: Text,
    candidateRevision: Int64,
    lightCurveRevision: Int64,
    effectiveEpochCount: Uint32,
    executionMode: Uint8,
    coarseSourceType: Uint8,
    coarseSourceRunID: Option<Text>,
    coarseSourceRevision: Int64,
    coarseSourceEpochCount: Uint32,
    xgboostExecuted: bool,
    modelBundleVersion: Text,
    coarse: CoarseVector,
    fine: FineVector,
    leaf: LeafVector,
    predictedCoarse: Int32,
    predictedLeaf: Int32,
    completedAt: Instant)

  // ---- provenance ----

  predicate EpochsInRange(count: int) {
    LightCurve.MINIMUM_EPOCHS <= count <= LightCurve.MAXIMUM_EPOCHS
  }

  // Where a run's coarse probabilities come from, as one rule.
  predicate Provenance(run: Run) {
    if run.coarseSourceType == REUSED_PREVIOUS then
      && run.effectiveEpochCount > MAXIMUM_COMPUTE_CURRENT_EPOCHS
      && run.coarseSourceRunID.Some?
      && 0 < run.coarseSourceRevision < run.lightCurveRevision
      && EpochsInRange(run.coarseSourceEpochCount)
      && !run.xgboostExecuted
    else
      && run.coarseSourceType == (if run.effectiveEpochCount > MAXIMUM_COMPUTE_CURRENT_EPOCHS then COMPUTED_BOOTSTRAP else COMPUTED_CURRENT)
      && run.coarseSourceRunID.None?
      && run.coarseSourceRevision == run.lightCurveRevision
      && run.coarseSourceEpochCount == run.effectiveEpochCount
      && run.xgboostExecuted
  }

  // ---- argmax ----

  // The first position that no value exceeds.  A leading NaN is never exceeded, and
  // later NaNs never exceed anything.
  ghost predicate FirstMaximum(values: seq<Float>, index: int) {
    && 0 <= index < |values|
    && (forall j :: 0 <= j < |values| ==> !Less(values[index], values[j]))
    && (forall j :: 0 <= j < index ==> Less(values[j], values[index]) || values[j] == NaN)
    && (index > 0 ==> values[0] != NaN && values[index] != NaN)
  }

  lemma FirstMaximumUnique(values: seq<Float>, i: int, j: int)
    requires FirstMaximum(values, i) && FirstMaximum(values, j)
    ensures i == j
  {
    var forward, backward := Less(values[i], values[j]), Less(values[j], values[i]);
  }

  function FirstMaximumIndex(values: seq<Float>): (index: nat)
    requires values != []
    ensures FirstMaximum(values, index)
  {
    var last := |values| - 1;
    if last == 0 then 0
    else
      var front := FirstMaximumIndex(values[..last]);
      assert forall j :: 0 <= j < last ==> values[..last][j] == values[j];
      if Less(values[front], values[last]) then last else front
  }

  method FindFirstMaximum(values: seq<Float>) returns (maximumIndex: nat)
    requires values != []
    ensures maximumIndex == FirstMaximumIndex(values)
  {
    maximumIndex := 0;
    for index := 1 to |values|
      invariant maximumIndex == FirstMaximumIndex(values[..index])
    {
      assert values[..index + 1][..index] == values[..index];
      if Less(values[maximumIndex], values[index]) {
        maximumIndex := index;
      }
    }
    assert values[..|values|] == values;
  }

  // ---- classes ----

  // The frozen numbers of the classes, by name.
  const PULSATING := 10
  const LONG_PERIOD := 20
  const CATACLYSMIC := 30
  const RR_LYRAE := 40
  const ROTATING := 50
  const ECLIPSING_BINARY := 60
  const SUPERNOVA := 70

  // Probability order and enumeration numbers differ.
  function CoarseClassAt(index: nat): (class_: Int32)
    requires index < COARSE_COUNT
    ensures ValidCoarseClass(class_)
  {
    match index
    case 0 => ROTATING
    case 1 => CATACLYSMIC
    case 2 => ECLIPSING_BINARY
    case 3 => LONG_PERIOD
    case 4 => PULSATING
    case 5 => RR_LYRAE
    case 6 => SUPERNOVA
  }

  function LeafClassAt(index: nat): (class_: Int32)
    requires index < LEAF_COUNT
    ensures ValidLeafClass(class_)
  {
    match index
    case 0 => 6001 // EW
    case 1 => 6002 // EA
    case 2 => 5001 // BY Dra
    case 3 => 5002 // RS CVn
    case 4 => 4001 // RRab
    case 5 => 4002 // RRc
    case 6 => 2001 // SR
    case 7 => 2002 // Mira
    case 8 => 1001 // DSCT
    case 9 => 1002 // CEP
    case 10 => CATACLYSMIC
    case 11 => SUPERNOVA
  }

  predicate ValidCoarseClass(class_: int) {
    class_ in {10, 20, 30, 40, 50, 60, 70}
  }

  predicate ValidLeafClass(class_: int) {
    class_ in {30, 70, 1001, 1002, 2001, 2002, 4001, 4002, 5001, 5002, 6001, 6002}
  }

  function PredictedCoarse(v: CoarseVector): (class_: Int32)
    ensures ValidCoarseClass(class_)
  {
    CoarseClassAt(FirstMaximumIndex(v))
  }

  function PredictedLeaf(v: LeafVector): (class_: Int32)
    ensures ValidLeafClass(class_)
  {
    LeafClassAt(FirstMaximumIndex(v))
  }

  lemma ClassesDistinct(i: nat, j: nat)
    ensures i < COARSE_COUNT && j < COARSE_COUNT && CoarseClassAt(i) == CoarseClassAt(j) ==> i == j
    ensures i < LEAF_COUNT && j < LEAF_COUNT && LeafClassAt(i) == LeafClassAt(j) ==> i == j
  {
  }

  // The predicted class names one position, and that position is the first maximum.
  lemma PredictionMeansFirstMaximum(coarse: CoarseVector, leaf: LeafVector, i: nat, j: nat)
    requires i < COARSE_COUNT && j < LEAF_COUNT
    ensures PredictedCoarse(coarse) == CoarseClassAt(i) <==> FirstMaximum(coarse, i)
    ensures PredictedLeaf(leaf) == LeafClassAt(j) <==> FirstMaximum(leaf, j)
  {
    ClassesDistinct(i, FirstMaximumIndex(coarse));
    ClassesDistinct(j, FirstMaximumIndex(leaf));
    hide FirstMaximum, CoarseClassAt, LeafClassAt;
    if FirstMaximum(coarse, i) {
      FirstMaximumUnique(coarse, i, FirstMaximumIndex(coarse));
    }
    if FirstMaximum(leaf, j) {
      FirstMaximumUnique(leaf, j, FirstMaximumIndex(leaf));
    }
  }

  // The coarse class that a leaf class belongs to.
  function ParentClass(leaf: Int32): int {
    if leaf >= 1000 then leaf / 100 else leaf
  }

  // Every coarse position has its leaves, and every leaf belongs to a coarse class: two
  // leaves for each, in pairs, except for the classes that are leaves themselves.
  lemma LeavesBelong(j: nat)
    requires j < LEAF_COUNT
    ensures ValidCoarseClass(ParentClass(LeafClassAt(j)))
    ensures ParentClass(LeafClassAt(j)) ==
      [ECLIPSING_BINARY, ECLIPSING_BINARY, ROTATING, ROTATING, RR_LYRAE, RR_LYRAE, LONG_PERIOD, LONG_PERIOD,
       PULSATING, PULSATING, CATACLYSMIC, SUPERNOVA][j]
    ensures j < 10 ==> LeafClassAt(j) % 100 == 1 + j % 2
  {
  }
}
