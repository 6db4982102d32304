// From a decoded command to the writer's decoder: selector, input builder, run builder,
// result encoder and result decoder agree.
module AcceptanceChain {
  import opened Bytes
  import opened ClassificationRun
  import opened CoarseSelection
  import CommandCodec
  import Identity
  import opened Integers
  import opened LightCurve
  import opened Messages
  import opened ResultCodec
  import RunBuilder
  import opened Uuid
  import opened Wrappers

  // What the worker reads while it handles one command.
  datatype Surroundings = Surroundings(ports: Ports, servingBundle: Text, output: RunBuilder.Output, completedAt: Instant)

  // The worker's stages between decoding the command and publishing the result, for a
  // revision whose epochs are already prepared.
  function RunOf(digest: Digest, c: CommandCodec.Command, revision: RunBuilder.Revision, s: Surroundings): Option<Run>
    requires |revision.epochs| <= MAXIMUM_EPOCHS
  {
    var selected := Select(c.objectID, c.lightCurveRevision, |revision.epochs|, c.modelBundleVersion, s.ports);
    if selected.Err? then None
    else
      var input := InputOf(revision.epochs, selected.value);
      if input.None? then None
      else
        var prepared := RunBuilder.Prepared(revision, selected.value, input.value);
        var built := RunBuilder.Build(digest, RunBuilder.Request(
          c.jobID, c.candidateRevision, c.executionMode, prepared, s.servingBundle, s.output, s.completedAt));
        if built.Err? then None else Some(built.value)
  }

  // The prepared revision for a command: same object and revision, epochs in canonical
  // form of some acceptable list.
  ghost predicate PreparedFor(c: CommandCodec.Command, eligible: Uint32, raw: seq<Epoch>, revision: RunBuilder.Revision) {
    && Acceptable(raw, c.declaredEpochCount, eligible)
    && CanonicalForm(raw, revision.epochs)
    && revision.objectID == c.objectID
    && revision.revision == c.lightCurveRevision
    && revision.eligibleEpochCount == eligible
  }

  // Reusing an older run, rather than computing.
  predicate Reuses(epochCount: int, ports: Ports) {
    epochCount > MAXIMUM_COMPUTE_CURRENT_EPOCHS && ports.finding.Found?
  }

  // The outside world plays its part: the ports answer for the requested bundle, the
  // model ran the coarse stage exactly when asked to, and the serving bundle is the
  // requested one.
  predicate Cooperates(c: CommandCodec.Command, epochCount: int, s: Surroundings) {
    && Answers(s.ports, c.modelBundleVersion, c.lightCurveRevision, epochCount)
    && s.output.xgboostExecuted == !Reuses(epochCount, s.ports)
    && s.servingBundle == c.modelBundleVersion
  }

  lemma PreparedCount(c: CommandCodec.Command, eligible: Uint32, raw: seq<Epoch>, revision: RunBuilder.Revision)
    requires PreparedFor(c, eligible, raw, revision)
    ensures |revision.epochs| == eligible && EpochsInRange(eligible)
  {
    SameLength(raw, revision.epochs);
  }

  lemma SelectionFor(digest: Digest, c: CommandCodec.Command, epochCount: Uint32, s: Surroundings)
    requires CommandCodec.AcceptableCommand(digest, c) && EpochsInRange(epochCount)
    ensures var r := Select(c.objectID, c.lightCurveRevision, epochCount, c.modelBundleVersion, s.ports);
      && (r.Ok? <==> Answers(s.ports, c.modelBundleVersion, c.lightCurveRevision, epochCount))
      && (r.Ok? ==> Sound(r.value, c.lightCurveRevision, epochCount) && r.value.modelBundle == c.modelBundleVersion)
      && (r.Ok? ==> (r.value.mode == REUSE_PREVIOUS <==> Reuses(epochCount, s.ports)))
      && (r.Ok? && Reuses(epochCount, s.ports) ==> r.value.reused == Some(s.ports.finding.coarse))
  {
    hide Identity.ValidIdentity;
    Identity.IdentityFields(CommandCodec.IdentityOf(c));
    SelectSound(c.objectID, c.lightCurveRevision, epochCount, c.modelBundleVersion, s.ports);
  }

  // Stage by stage: every stage up to the built run succeeds, and only because the
  // outside world cooperates and the clock is not zero.
  lemma StagesSucceed(digest: Digest, c: CommandCodec.Command, eligible: Uint32, raw: seq<Epoch>, revision: RunBuilder.Revision, s: Surroundings)
    requires CommandCodec.AcceptableCommand(digest, c) && PreparedFor(c, eligible, raw, revision)
    ensures |revision.epochs| <= MAXIMUM_EPOCHS
    ensures RunOf(digest, c, revision, s).Some? <==> Cooperates(c, eligible, s) && !IsZero(s.completedAt)
  {
    hide Identity.ValidIdentity, Identity.JobUuid, Identity.GenerateRunID, Identity.GenerateJobID;
    hide CleanText, Select, InputOf, Acceptable, CanonicalForm, Answers, Parse;
    PreparedCount(c, eligible, raw, revision);
    SelectionFor(digest, c, eligible, s);
    CommandIdentity(digest, c);
    var selected := Select(c.objectID, c.lightCurveRevision, eligible, c.modelBundleVersion, s.ports);
    if selected.Ok? {
      InputFor(revision.epochs, selected.value, c.lightCurveRevision);
      var input := InputOf(revision.epochs, selected.value).value;
      var prepared := RunBuilder.Prepared(revision, selected.value, input);
      var request := RunBuilder.Request(c.jobID, c.candidateRevision, c.executionMode, prepared, s.servingBundle, s.output, s.completedAt);
      hide Sound;
      if s.servingBundle == c.modelBundleVersion {
        RunBuilder.SoundSelectionsBuild(digest, request);
      }
    }
  }

  lemma InputFor(epochs: seq<Epoch>, s: Selection, target: int)
    requires Sound(s, target, |epochs|)
    ensures Consistent(s) && InputOf(epochs, s).Some?
    ensures var input := InputOf(epochs, s).value;
      input.mode == s.mode && |input.timeMJD| == |input.magnitude| == |input.magnitudeError| == |epochs|
  {
  }

  lemma CommandIdentity(digest: Digest, c: CommandCodec.Command)
    requires CommandCodec.AcceptableCommand(digest, c)
    ensures Identity.GenerateRunID(digest, c.jobID).Some?
    ensures CleanText(c.objectID) && CleanText(c.modelBundleVersion) && c.lightCurveRevision > 0 && Identity.ValidMode(c.executionMode)
  {
    hide Trimmed, Identity.JobUuid, Identity.GenerateRunID;
    Identity.IdentifiersExist(digest, CommandCodec.IdentityOf(c));
  }

  // The worker's result is accepted by the writer's decoder, as the same run, exactly
  // when the outside world cooperates, the completion time fits a timestamp and the
  // reused run's identifier is a canonical UUID.
  lemma WriterAccepts(
      digest: Digest, c: CommandCodec.Command, eligible: Uint32, raw: seq<Epoch>, revision: RunBuilder.Revision, s: Surroundings, topic: Text)
    requires CommandCodec.AcceptableCommand(digest, c) && PreparedFor(c, eligible, raw, revision) && topic != []
    ensures |revision.epochs| <= MAXIMUM_EPOCHS
    ensures var run := RunOf(digest, c, revision, s);
      (run.Some? && Decode(digest, topic, BuildMessage(topic, run.value, c.trace)) == Ok(Decoded(run.value, c.trace)))
      <==>
      && Cooperates(c, eligible, s)
      && Representable(s.completedAt)
      && (Reuses(eligible, s.ports) ==> CanonicalNonNil(s.ports.finding.coarse.sourceRunID))
  {
    StagesSucceed(digest, c, eligible, raw, revision, s);
    hide Decode, BuildMessage, AcceptableRun, RunOf, Cooperates, CanonicalNonNil, CommandCodec.AcceptableCommand, PreparedFor;
    var run := RunOf(digest, c, revision, s);
    if run.Some? {
      RunFacts(digest, c, eligible, raw, revision, s);
      EncodeDecode(digest, topic, run.value, c.trace);
    }
  }

  lemma RunFacts(digest: Digest, c: CommandCodec.Command, eligible: Uint32, raw: seq<Epoch>, revision: RunBuilder.Revision, s: Surroundings)
    requires CommandCodec.AcceptableCommand(digest, c) && PreparedFor(c, eligible, raw, revision) && |revision.epochs| <= MAXIMUM_EPOCHS
    requires RunOf(digest, c, revision, s).Some?
    ensures AcceptableRun(digest, RunOf(digest, c, revision, s).value) <==>
      Representable(s.completedAt) && (Reuses(eligible, s.ports) ==> CanonicalNonNil(s.ports.finding.coarse.sourceRunID))
  {
    hide Trimmed, Identity.JobUuid, PredictedCoarse, PredictedLeaf, CanonicalForm, Parse, CheckValid;
  }

  // ---- what is published ----

  // The built request behind a run.
  lemma RunIsBuilt(digest: Digest, c: CommandCodec.Command, revision: RunBuilder.Revision, s: Surroundings)
    returns (r: RunBuilder.Request)
    requires |revision.epochs| <= MAXIMUM_EPOCHS && RunOf(digest, c, revision, s).Some?
    ensures RunBuilder.Build(digest, r) == Ok(RunOf(digest, c, revision, s).value)
    ensures r.jobID == c.jobID && r.candidateRevision == c.candidateRevision && r.executionMode == c.executionMode
    ensures r.prepared.revision == revision && r.servingBundle == s.servingBundle && r.output == s.output && r.completedAt == s.completedAt
    ensures Select(c.objectID, c.lightCurveRevision, |revision.epochs|, c.modelBundleVersion, s.ports) == Ok(r.prepared.selection)
    ensures InputOf(revision.epochs, r.prepared.selection) == Some(r.prepared.input)
  {
    hide Select, InputOf, RunBuilder.Build;
    var selection := Select(c.objectID, c.lightCurveRevision, |revision.epochs|, c.modelBundleVersion, s.ports).value;
    var prepared := RunBuilder.Prepared(revision, selection, InputOf(revision.epochs, selection).value);
    r := RunBuilder.Request(c.jobID, c.candidateRevision, c.executionMode, prepared, s.servingBundle, s.output, s.completedAt);
  }

  // The seven classes in the order of the probabilities.
  const COARSE_ORDER: seq<int> := [ROTATING, CATACLYSMIC, ECLIPSING_BINARY, LONG_PERIOD, PULSATING, RR_LYRAE, SUPERNOVA]

  // The message carries the command, the revision and the model's own output under their
  // own names, and its classes belong to the first maxima of that output.
  lemma PublishedMessageCarriesTheOutput(digest: Digest, c: CommandCodec.Command, revision: RunBuilder.Revision, s: Surroundings, topic: Text)
    requires |revision.epochs| <= MAXIMUM_EPOCHS && RunOf(digest, c, revision, s).Some?
    ensures var message := BuildMessage(topic, RunOf(digest, c, revision, s).value, c.trace);
      var m := message.body.message;
      && message.topic == topic && message.key == m.objectID == revision.objectID
      && m.jobID == c.jobID && Some(m.runID) == Identity.GenerateRunID(digest, c.jobID)
      && m.candidateRevision == c.candidateRevision && m.executionMode == c.executionMode
      && m.lightCurveRevision == revision.revision && m.effectiveEpochCount == |revision.epochs|
      && m.versions == Some(c.modelBundleVersion) && m.xgboostExecuted == s.output.xgboostExecuted
      && m.completedAt == Some(Timestamp(s.completedAt.seconds, s.completedAt.nanos)) && DecodeTrace(m.trace) == c.trace
    ensures var m := Encode(RunOf(digest, c, revision, s).value, c.trace);
      && m.coarse.Some? && m.fine.Some? && m.leaf.Some?
      && var (k, f, l) := (m.coarse.value, m.fine.value, m.leaf.value);
      && s.output.coarse == [k.rotating, k.cataclysmic, k.eclipsingBinary, k.longPeriod, k.pulsating, k.rrLyrae, k.supernova]
      && s.output.fine == [f.ew, f.ea, f.byDra, f.rsCvn, f.rrab, f.rrc, f.sr, f.mira, f.dsct, f.cep]
      && s.output.leaf == [l.ew, l.ea, l.byDra, l.rsCvn, l.rrab, l.rrc, l.sr, l.mira, l.dsct, l.cep, l.cataclysmic, l.supernova]
    ensures var m := Encode(RunOf(digest, c, revision, s).value, c.trace);
      && (forall i :: 0 <= i < COARSE_COUNT ==> (m.predictedCoarse == COARSE_ORDER[i] <==> FirstMaximum(s.output.coarse, i)))
      && (forall j :: 0 <= j < LEAF_COUNT ==> (m.predictedLeaf == LeafClassAt(j) <==> FirstMaximum(s.output.leaf, j)))
  {
    hide RunOf, Identity.GenerateRunID, FirstMaximum, LeafClassAt, Select, InputOf, RunBuilder.Build;
    var r := RunIsBuilt(digest, c, revision, s);
    RunBuilder.BuiltRunsCarryTheRequest(digest, r);
    RunBuilder.BuiltRunsAreSound(digest, r);
    SelectSound(c.objectID, c.lightCurveRevision, |revision.epochs|, c.modelBundleVersion, s.ports);
    VectorsRoundTrip(s.output.coarse, s.output.fine, s.output.leaf);
    CoarseOrder();
  }

  lemma CoarseOrder()
    ensures forall i :: 0 <= i < COARSE_COUNT ==> CoarseClassAt(i) == COARSE_ORDER[i]
  {
  }
}
