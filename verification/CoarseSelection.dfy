// internal/application/coarse_mode_selector.go and classification_input_builder.go.
module CoarseSelection {
  import opened Bytes
  import opened ClassificationRun
  import opened Floats
  import opened Integers
  import opened LightCurve
  import opened Wrappers

  const COMPUTE_CURRENT := 1
  const REUSE_PREVIOUS := 2
  const COMPUTE_BOOTSTRAP := 3

  // A stored run's coarse probabilities, as the repository returns them.
  datatype CompatibleCoarse = CompatibleCoarse(sourceRunID: Text, sourceRevision: Int64, sourceEpochCount: Uint32, probabilities: CoarseVector)

  datatype Selection = Selection(mode: Uint8, modelBundle: Text, reused: Option<CompatibleCoarse>)

  datatype SelectError = Cancelled | InvalidArgument | TooFewEpochs | TooManyEpochs | ResolveFailed | BundleMismatch | FindFailed | InvalidCompatibleCoarse

  datatype Finding = Found(coarse: CompatibleCoarse) | NotFound | Failed

  // What the ports answer, and whether the context is live at each check.
  datatype Ports = Ports(liveAtStart: bool, resolved: Option<Text>, liveAfterResolve: bool, finding: Finding, liveAfterFind: bool)

  predicate ValidCompatibleCoarse(target: int, c: CompatibleCoarse) {
    c.sourceRunID != [] && 0 < c.sourceRevision < target && EpochsInRange(c.sourceEpochCount)
  }

  function Select(objectID: Text, target: Int64, epochCount: Uint32, bundle: Text, ports: Ports): Result<Selection, SelectError> {
    if !ports.liveAtStart then Err(Cancelled)
    else if objectID == [] || target <= 0 || bundle == [] then Err(InvalidArgument)
    else if epochCount < MINIMUM_EPOCHS then Err(TooFewEpochs)
    else if epochCount > MAXIMUM_EPOCHS then Err(TooManyEpochs)
    else if ports.resolved.None? then Err(ResolveFailed)
    else if !ports.liveAfterResolve then Err(Cancelled)
    else if ports.resolved.value != bundle then Err(BundleMismatch)
    else if epochCount <= MAXIMUM_COMPUTE_CURRENT_EPOCHS then Ok(Selection(COMPUTE_CURRENT, bundle, None))
    else
      match ports.finding
      case NotFound => Ok(Selection(COMPUTE_BOOTSTRAP, bundle, None))
      case Failed => Err(FindFailed)
      case Found(c) =>
        if !ports.liveAfterFind then Err(Cancelled)
        else if !ValidCompatibleCoarse(target, c) then Err(InvalidCompatibleCoarse)
        else Ok(Selection(REUSE_PREVIOUS, bundle, Some(c)))
  }

  // What a selection for this revision and epoch count may look like.
  predicate Sound(s: Selection, target: int, epochCount: int) {
    if epochCount <= 20 then s.mode == COMPUTE_CURRENT && s.reused.None?
    else if s.reused.None? then s.mode == COMPUTE_BOOTSTRAP
    else s.mode == REUSE_PREVIOUS && ValidCompatibleCoarse(target, s.reused.value)
  }

  // Ports that answer for the requested bundle, and a history that is empty or whose
  // answer is an older run of the right size.
  predicate Answers(ports: Ports, bundle: Text, target: int, epochCount: int) {
    && ports.liveAtStart && ports.liveAfterResolve
    && ports.resolved == Some(bundle)
    && (epochCount > 20 ==>
          match ports.finding
          case NotFound => true
          case Failed => false
          case Found(c) => ports.liveAfterFind && ValidCompatibleCoarse(target, c))
  }

  // Selection succeeds exactly then, its result is sound, and it never bootstraps
  // unless the history was reported empty.
  lemma SelectSound(objectID: Text, target: Int64, epochCount: Uint32, bundle: Text, ports: Ports)
    ensures var r := Select(objectID, target, epochCount, bundle, ports);
      && (r.Ok? <==> objectID != [] && bundle != [] && target > 0 && EpochsInRange(epochCount) && Answers(ports, bundle, target, epochCount))
      && (r.Ok? ==> Sound(r.value, target, epochCount) && r.value.modelBundle == bundle)
      && (r.Ok? && r.value.mode == COMPUTE_BOOTSTRAP ==> ports.finding == NotFound)
      && (r.Ok? && r.value.mode == REUSE_PREVIOUS ==> ports.finding == Found(r.value.reused.value))
  {
  }

  // An error names something that is the case, and an ended context comes first.
  lemma SelectBlames(objectID: Text, target: Int64, epochCount: Uint32, bundle: Text, ports: Ports)
    requires Select(objectID, target, epochCount, bundle, ports).Err?
    ensures !ports.liveAtStart ==> Select(objectID, target, epochCount, bundle, ports) == Err(Cancelled)
    ensures match Select(objectID, target, epochCount, bundle, ports).error
      case Cancelled => !ports.liveAtStart || !ports.liveAfterResolve || (ports.finding.Found? && !ports.liveAfterFind)
      case InvalidArgument => objectID == [] || target <= 0 || bundle == []
      case TooFewEpochs => epochCount < 3
      case TooManyEpochs => epochCount > 1024
      case ResolveFailed => ports.resolved.None?
      case BundleMismatch => ports.resolved.Some? && ports.resolved.value != bundle
      case FindFailed => ports.finding.Failed?
      case InvalidCompatibleCoarse => ports.finding.Found? && !ValidCompatibleCoarse(target, ports.finding.coarse)
  {
  }

  // ---- the classifier's input ----

  datatype ClassificationInput = ClassificationInput(
    timeMJD: seq<Float>,
    magnitude: seq<Float>,
    magnitudeError: seq<Float>,
    mode: Uint8,
    reusedProbabilities: Option<CoarseVector>)

  // The mode is known and the reused probabilities are present exactly when it reuses.
  predicate Consistent(s: Selection) {
    s.mode in {COMPUTE_CURRENT, REUSE_PREVIOUS, COMPUTE_BOOTSTRAP} && (s.reused.Some? <==> s.mode == REUSE_PREVIOUS)
  }

  // Row k of the input is epoch k.
  predicate Columns(input: ClassificationInput, epochs: seq<Epoch>) {
    && |input.timeMJD| == |input.magnitude| == |input.magnitudeError| == |epochs|
    && forall k :: 0 <= k < |epochs| ==>
         epochs[k] == Epoch(input.timeMJD[k], input.magnitude[k], input.magnitudeError[k])
  }

  function InputOf(epochs: seq<Epoch>, s: Selection): Option<ClassificationInput> {
    if !Consistent(s) then None
    else
      var n := |epochs|;
      Some(ClassificationInput(
             seq(n, k requires 0 <= k < n => epochs[k].time),
             seq(n, k requires 0 <= k < n => epochs[k].magnitude),
             seq(n, k requires 0 <= k < n => epochs[k].magnitudeError),
             s.mode,
             if s.mode == REUSE_PREVIOUS then Some(s.reused.value.probabilities) else None))
  }

  method BuildInput(epochs: seq<Epoch>, s: Selection) returns (input: Option<ClassificationInput>)
    ensures input.Some? <==> Consistent(s)
    ensures input.Some? ==> Columns(input.value, epochs)
    ensures input == InputOf(epochs, s)
  {
    if s.mode != COMPUTE_CURRENT && s.mode != REUSE_PREVIOUS && s.mode != COMPUTE_BOOTSTRAP {
      return None;
    }
    if s.mode != REUSE_PREVIOUS && s.reused.Some? {
      return None;
    }
    if s.mode == REUSE_PREVIOUS && s.reused.None? {
      return None;
    }
    var n := |epochs|;
    var time, magnitude, error := new Float[n], new Float[n], new Float[n];
    for k := 0 to n
      invariant forall j :: 0 <= j < k ==> epochs[j] == Epoch(time[j], magnitude[j], error[j])
    {
      time[k] := epochs[k].time;
      magnitude[k] := epochs[k].magnitude;
      error[k] := epochs[k].magnitudeError;
    }
    var probabilities: Option<CoarseVector> := if s.mode == REUSE_PREVIOUS then Some(s.reused.value.probabilities) else None;
    input := Some(ClassificationInput(time[..], magnitude[..], error[..], s.mode, probabilities));
    ghost var expected := InputOf(epochs, s).value;
    assert time[..] == expected.timeMJD && magnitude[..] == expected.magnitude && error[..] == expected.magnitudeError;
  }
}
