// internal/application/classification_run_builder.go.
module RunBuilder {
  import opened Bytes
  import opened ClassificationRun
  import opened CoarseSelection
  import opened Identity
  import opened Integers
  import opened LightCurve
  import opened Uuid
  import opened Wrappers

  datatype Revision = Revision(objectID: Text, revision: Int64, eligibleEpochCount: Uint32, epochs: seq<Epoch>)

  datatype Prepared = Prepared(revision: Revision, selection: Selection, input: ClassificationInput)

  datatype Output = Output(coarse: CoarseVector, fine: FineVector, leaf: LeafVector, xgboostExecuted: bool)

  datatype Request = Request(
    jobID: Text,
    candidateRevision: Int64,
    executionMode: Uint8,
    prepared: Prepared,
    servingBundle: Text,
    output: Output,
    completedAt: Instant)

  datatype BuildError = InvalidBuild | InvalidCoarseSource

  datatype CoarseSource = CoarseSource(sourceType: Uint8, runID: Option<Text>, revision: Int64, epochCount: Uint32)

  function MapCoarseSource(p: Prepared, xgboostExecuted: bool, epochCount: Uint32): Option<CoarseSource> {
    var current := p.revision.revision;
    var nothingReused := p.selection.reused.None? && p.input.reusedProbabilities.None?;
    if p.selection.mode == COMPUTE_CURRENT then
      if epochCount <= MAXIMUM_COMPUTE_CURRENT_EPOCHS && nothingReused && xgboostExecuted
      then Some(CoarseSource(COMPUTED_CURRENT, None, current, epochCount)) else None
    else if p.selection.mode == REUSE_PREVIOUS then
      if epochCount > MAXIMUM_COMPUTE_CURRENT_EPOCHS && p.selection.reused.Some? && p.input.reusedProbabilities.Some? && !xgboostExecuted
      then
        var c := p.selection.reused.value;
        if c.sourceRunID != [] && 0 < c.sourceRevision < current && EpochsInRange(c.sourceEpochCount)
        then Some(CoarseSource(REUSED_PREVIOUS, Some(c.sourceRunID), c.sourceRevision, c.sourceEpochCount)) else None
      else None
    else if p.selection.mode == COMPUTE_BOOTSTRAP then
      if epochCount > MAXIMUM_COMPUTE_CURRENT_EPOCHS && nothingReused && xgboostExecuted
      then Some(CoarseSource(COMPUTED_BOOTSTRAP, None, current, epochCount)) else None
    else None
  }

  predicate ValidPrepared(p: Prepared) {
    && CleanText(p.revision.objectID)
    && p.revision.revision > 0
    && EpochsInRange(|p.revision.epochs|)
    && p.revision.eligibleEpochCount == |p.revision.epochs|
    && |p.input.timeMJD| == |p.input.magnitude| == |p.input.magnitudeError| == |p.revision.epochs|
    && p.input.mode == p.selection.mode
  }

  function Build(digest: Digest, r: Request): Result<Run, BuildError> {
    var runID := GenerateRunID(digest, r.jobID);
    if runID.None? || r.candidateRevision <= 0 || !ValidMode(r.executionMode) || IsZero(r.completedAt) then Err(InvalidBuild)
    else if !ValidPrepared(r.prepared) then Err(InvalidBuild)
    else if !CleanText(r.prepared.selection.modelBundle) || r.servingBundle != r.prepared.selection.modelBundle then Err(InvalidBuild)
    else
      var revision := r.prepared.revision;
      var count: Uint32 := |revision.epochs|;
      var source := MapCoarseSource(r.prepared, r.output.xgboostExecuted, count);
      if source.None? then Err(InvalidCoarseSource)
      else Ok(Run(
        runID.value, r.jobID, revision.objectID, r.candidateRevision, revision.revision, count, r.executionMode,
        source.value.sourceType, source.value.runID, source.value.revision, source.value.epochCount,
        r.output.xgboostExecuted, r.servingBundle, r.output.coarse, r.output.fine, r.output.leaf,
        PredictedCoarse(r.output.coarse), PredictedLeaf(r.output.leaf), r.completedAt))
  }

  // Whatever the selector, the input and the output look like, a run that gets built
  // obeys the one provenance rule and predicts its first maxima.
  lemma BuiltRunsAreSound(digest: Digest, r: Request)
    requires Build(digest, r).Ok?
    ensures var run := Build(digest, r).value;
      && Provenance(run)
      && EpochsInRange(run.effectiveEpochCount)
      && run.candidateRevision > 0 && run.lightCurveRevision > 0
      && run.predictedCoarse == PredictedCoarse(run.coarse) && run.predictedLeaf == PredictedLeaf(run.leaf)
      && (run.coarseSourceRunID.Some? ==> r.prepared.selection.reused.Some? && run.coarseSourceRunID.value == r.prepared.selection.reused.value.sourceRunID)
      && GenerateRunID(digest, run.jobID) == Some(run.runID)
  {
    hide GenerateRunID, PredictedCoarse, PredictedLeaf, CleanText;
  }

  // A sound selection and an output that agrees with its mode always map to a source.
  lemma SoundSelectionsBuild(digest: Digest, r: Request)
    requires ValidPrepared(r.prepared) && Consistent(r.prepared.selection)
    requires Sound(r.prepared.selection, r.prepared.revision.revision, |r.prepared.revision.epochs|)
    requires InputOf(r.prepared.revision.epochs, r.prepared.selection) == Some(r.prepared.input)
    requires CleanText(r.prepared.selection.modelBundle) && r.servingBundle == r.prepared.selection.modelBundle
    requires GenerateRunID(digest, r.jobID).Some? && r.candidateRevision > 0 && ValidMode(r.executionMode)
    ensures Build(digest, r).Ok? <==>
      !IsZero(r.completedAt) && r.output.xgboostExecuted == (r.prepared.selection.mode != REUSE_PREVIOUS)
  {
    hide GenerateRunID, PredictedCoarse, PredictedLeaf, CleanText;
  }

  // A built run carries the request and nothing else: the model's own probabilities, the
  // command's and the revision's fields, and classes at first maxima of those probabilities.
  lemma BuiltRunsCarryTheRequest(digest: Digest, r: Request)
    requires Build(digest, r).Ok?
    ensures var run, revision := Build(digest, r).value, r.prepared.revision;
      && run.coarse == r.output.coarse && run.fine == r.output.fine && run.leaf == r.output.leaf
      && run.xgboostExecuted == r.output.xgboostExecuted
      && run.jobID == r.jobID && run.candidateRevision == r.candidateRevision && run.executionMode == r.executionMode
      && run.completedAt == r.completedAt && run.modelBundleVersion == r.prepared.selection.modelBundle == r.servingBundle
      && run.objectID == revision.objectID && run.lightCurveRevision == revision.revision
      && run.effectiveEpochCount == |revision.epochs| == revision.eligibleEpochCount
    ensures var run := Build(digest, r).value;
      && (forall i :: 0 <= i < COARSE_COUNT ==> (FirstMaximum(r.output.coarse, i) <==> run.predictedCoarse == CoarseClassAt(i)))
      && (forall j :: 0 <= j < LEAF_COUNT ==> (FirstMaximum(r.output.leaf, j) <==> run.predictedLeaf == LeafClassAt(j)))
  {
    hide GenerateRunID, PredictedCoarse, PredictedLeaf, CleanText, FirstMaximum, CoarseClassAt, LeafClassAt;
    var run := Build(digest, r).value;
    forall i | 0 <= i < COARSE_COUNT
      ensures FirstMaximum(r.output.coarse, i) <==> run.predictedCoarse == CoarseClassAt(i)
    {
      PredictionMeansFirstMaximum(r.output.coarse, r.output.leaf, i, 0);
    }
    forall j | 0 <= j < LEAF_COUNT
      ensures FirstMaximum(r.output.leaf, j) <==> run.predictedLeaf == LeafClassAt(j)
    {
      PredictionMeansFirstMaximum(r.output.coarse, r.output.leaf, 0, j);
    }
  }

  // A reused source is the selected one, field by field, and the mode says which kind.
  lemma BuiltSources(digest: Digest, r: Request)
    requires Build(digest, r).Ok?
    ensures var run, p := Build(digest, r).value, r.prepared;
      && (p.selection.mode == REUSE_PREVIOUS ==>
            && p.selection.reused.Some? && run.coarseSourceType == REUSED_PREVIOUS
            && run.coarseSourceRunID == Some(p.selection.reused.value.sourceRunID)
            && run.coarseSourceRevision == p.selection.reused.value.sourceRevision
            && run.coarseSourceEpochCount == p.selection.reused.value.sourceEpochCount)
      && (p.selection.mode == COMPUTE_CURRENT ==> run.coarseSourceType == COMPUTED_CURRENT)
      && (p.selection.mode == COMPUTE_BOOTSTRAP ==> run.coarseSourceType == COMPUTED_BOOTSTRAP)
      && p.selection.mode in {COMPUTE_CURRENT, REUSE_PREVIOUS, COMPUTE_BOOTSTRAP}
  {
    hide GenerateRunID, PredictedCoarse, PredictedLeaf, CleanText;
  }
}
