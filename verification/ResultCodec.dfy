// internal/application/classification_result.go and classification_result_decode.go.
module ResultCodec {
  import opened Bytes
  import opened ClassificationRun
  import opened Floats
  import opened Identity
  import opened Integers
  import opened Messages
  import opened Uuid
  import opened Wrappers

  // ---- the protobuf message ----

  datatype CoarseMessage = CoarseMessage(
    rotating: Float, cataclysmic: Float, eclipsingBinary: Float, longPeriod: Float, pulsating: Float, rrLyrae: Float, supernova: Float)

  datatype FineMessage = FineMessage(
    ew: Float, ea: Float, byDra: Float, rsCvn: Float, rrab: Float, rrc: Float, sr: Float, mira: Float, dsct: Float, cep: Float)

  datatype LeafMessage = LeafMessage(
    ew: Float, ea: Float, byDra: Float, rsCvn: Float, rrab: Float, rrc: Float, sr: Float, mira: Float, dsct: Float, cep: Float,
    cataclysmic: Float, supernova: Float)

  datatype ResultMessage = ResultMessage(
    runID: Text,
    jobID: Text,
    objectID: Text,
    candidateRevision: Int64,
    lightCurveRevision: Int64,
    effectiveEpochCount: Uint32,
    executionMode: Int32,
    coarseSourceType: Int32,
    coarseSourceRunID: Option<Text>,
    coarseSourceRevision: Int64,
    coarseSourceEpochCount: Uint32,
    xgboostExecuted: bool,
    versions: Option<Text>,
    coarse: Option<CoarseMessage>,
    fine: Option<FineMessage>,
    leaf: Option<LeafMessage>,
    predictedCoarse: Int32,
    predictedLeaf: Int32,
    completedAt: Option<Timestamp>,
    trace: Option<Trace>)

  function CoarseFields(v: CoarseVector): CoarseMessage {
    CoarseMessage(v[0], v[1], v[2], v[3], v[4], v[5], v[6])
  }

  function CoarseArray(m: CoarseMessage): CoarseVector {
    [m.rotating, m.cataclysmic, m.eclipsingBinary, m.longPeriod, m.pulsating, m.rrLyrae, m.supernova]
  }

  function FineFields(v: FineVector): FineMessage {
    FineMessage(v[0], v[1], v[2], v[3], v[4], v[5], v[6], v[7], v[8], v[9])
  }

  function FineArray(m: FineMessage): FineVector {
    [m.ew, m.ea, m.byDra, m.rsCvn, m.rrab, m.rrc, m.sr, m.mira, m.dsct, m.cep]
  }

  function LeafFields(v: LeafVector): LeafMessage {
    LeafMessage(v[0], v[1], v[2], v[3], v[4], v[5], v[6], v[7], v[8], v[9], v[10], v[11])
  }

  function LeafArray(m: LeafMessage): LeafVector {
    [m.ew, m.ea, m.byDra, m.rsCvn, m.rrab, m.rrc, m.sr, m.mira, m.dsct, m.cep, m.cataclysmic, m.supernova]
  }

  lemma VectorsRoundTrip(coarse: CoarseVector, fine: FineVector, leaf: LeafVector)
    ensures CoarseArray(CoarseFields(coarse)) == coarse
    ensures FineArray(FineFields(fine)) == fine
    ensures LeafArray(LeafFields(leaf)) == leaf
  {
  }

  lemma FieldsRoundTrip(coarse: CoarseMessage, fine: FineMessage, leaf: LeafMessage)
    ensures CoarseFields(CoarseArray(coarse)) == coarse
    ensures FineFields(FineArray(fine)) == fine
    ensures LeafFields(LeafArray(leaf)) == leaf
  {
  }

  // ---- encoding ----

  function Encode(run: Run, trace: Trace): ResultMessage {
    ResultMessage(
      run.runID, run.jobID, run.objectID, run.candidateRevision, run.lightCurveRevision, run.effectiveEpochCount,
      run.executionMode, run.coarseSourceType, run.coarseSourceRunID, run.coarseSourceRevision, run.coarseSourceEpochCount,
      run.xgboostExecuted, Some(run.modelBundleVersion),
      Some(CoarseFields(run.coarse)), Some(FineFields(run.fine)), Some(LeafFields(run.leaf)),
      run.predictedCoarse, run.predictedLeaf, Some(NewTimestamp(run.completedAt)), EncodeTrace(trace))
  }

  function BuildMessage(topic: Text, run: Run, trace: Trace): Inbound<ResultMessage> {
    Inbound(topic, run.objectID, Encoded(Encode(run, trace)))
  }

  // ---- decoding ----

  datatype ResultError =
    NoExpectedTopic | UnexpectedTopic | MalformedMessage | InvalidField(field: string) | KeyMismatch | JobIDMismatch | RunIDMismatch

  datatype Decoded = Decoded(run: Run, trace: Trace)

  // A Go conversion to an eight-bit enumeration keeps the low byte.
  function Narrow(value: Int32): Uint8 {
    value % 256
  }

  function MapResult(m: ResultMessage): Result<Decoded, ResultError> {
    if m.versions.None? then Err(InvalidField("versions"))
    else if m.coarse.None? then Err(InvalidField("coarse_probabilities"))
    else if m.fine.None? then Err(InvalidField("fine_conditional_probabilities"))
    else if m.leaf.None? then Err(InvalidField("leaf_probabilities"))
    else if m.completedAt.None? || !CheckValid(m.completedAt.value) then Err(InvalidField("completed_at"))
    else if m.coarseSourceRunID.Some? && !CanonicalNonNil(m.coarseSourceRunID.value) then Err(InvalidField("coarse_source_run_id"))
    else Ok(Decoded(
      Run(m.runID, m.jobID, m.objectID, m.candidateRevision, m.lightCurveRevision, m.effectiveEpochCount,
          Narrow(m.executionMode), Narrow(m.coarseSourceType), m.coarseSourceRunID, m.coarseSourceRevision, m.coarseSourceEpochCount,
          m.xgboostExecuted, m.versions.value,
          CoarseArray(m.coarse.value), FineArray(m.fine.value), LeafArray(m.leaf.value),
          m.predictedCoarse, m.predictedLeaf, AsTime(m.completedAt.value)),
      DecodeTrace(m.trace)))
  }

  predicate ValidateCoarseSource(run: Run) {
    if run.coarseSourceType == COMPUTED_CURRENT then
      && run.effectiveEpochCount <= MAXIMUM_COMPUTE_CURRENT_EPOCHS
      && run.coarseSourceRunID.None?
      && run.coarseSourceRevision == run.lightCurveRevision
      && run.coarseSourceEpochCount == run.effectiveEpochCount
      && run.xgboostExecuted
    else if run.coarseSourceType == REUSED_PREVIOUS then
      && run.effectiveEpochCount > MAXIMUM_COMPUTE_CURRENT_EPOCHS
      && run.coarseSourceRunID.Some?
      && 0 < run.coarseSourceRevision < run.lightCurveRevision
      && EpochsInRange(run.coarseSourceEpochCount)
      && !run.xgboostExecuted
    else if run.coarseSourceType == COMPUTED_BOOTSTRAP then
      && run.effectiveEpochCount > MAXIMUM_COMPUTE_CURRENT_EPOCHS
      && run.coarseSourceRunID.None?
      && run.coarseSourceRevision == run.lightCurveRevision
      && run.coarseSourceEpochCount == run.effectiveEpochCount
      && run.xgboostExecuted
    else true
  }

  function ValidateRun(run: Run): Option<ResultError> {
    if run.objectID == [] then Some(InvalidField("object_id"))
    else if run.candidateRevision <= 0 then Some(InvalidField("candidate_revision"))
    else if run.lightCurveRevision <= 0 then Some(InvalidField("light_curve_revision"))
    else if !EpochsInRange(run.effectiveEpochCount) then Some(InvalidField("effective_epoch_count"))
    else if !ValidMode(run.executionMode) then Some(InvalidField("execution_mode"))
    else if run.coarseSourceType !in {COMPUTED_CURRENT, REUSED_PREVIOUS, COMPUTED_BOOTSTRAP} then Some(InvalidField("coarse_source_type"))
    else if run.modelBundleVersion == [] then Some(InvalidField("model_bundle_version"))
    else if !ValidCoarseClass(run.predictedCoarse) then Some(InvalidField("predicted_coarse_class"))
    else if !ValidLeafClass(run.predictedLeaf) then Some(InvalidField("predicted_leaf_class"))
    else if IsZero(run.completedAt) then Some(InvalidField("completed_at"))
    else if run.predictedCoarse != PredictedCoarse(run.coarse) then Some(InvalidField("predicted_coarse_class"))
    else if run.predictedLeaf != PredictedLeaf(run.leaf) then Some(InvalidField("predicted_leaf_class"))
    else if !ValidateCoarseSource(run) then Some(InvalidField("coarse_source"))
    else None
  }

  function IdentityOf(run: Run): JobIdentity {
    JobIdentity(run.objectID, run.lightCurveRevision, run.modelBundleVersion, run.executionMode)
  }

  function CheckRun(digest: Digest, key: Text, decoded: Decoded): Result<Decoded, ResultError> {
    var run := decoded.run;
    if key != run.objectID then Err(KeyMismatch)
    else
      var jobID := GenerateJobID(digest, IdentityOf(run));
      if jobID.None? then Err(InvalidField("job_identity"))
      else if run.jobID != jobID.value then Err(JobIDMismatch)
      else
        var runID := GenerateRunID(digest, jobID.value);
        if runID.None? then Err(InvalidField("run_id"))
        else if run.runID != runID.value then Err(RunIDMismatch)
        else
          var invalid := ValidateRun(run);
          if invalid.Some? then Err(invalid.value) else Ok(decoded)
  }

  function Decode(digest: Digest, expectedTopic: Text, message: Inbound<ResultMessage>): Result<Decoded, ResultError> {
    if expectedTopic == [] then Err(NoExpectedTopic)
    else if message.topic != expectedTopic then Err(UnexpectedTopic)
    else if message.key == [] then Err(InvalidField("key"))
    else if !message.body.Encoded? then Err(MalformedMessage)
    else
      var mapped := MapResult(message.body.message);
      if mapped.Err? then mapped else CheckRun(digest, message.key, mapped.value)
  }

  // A message with its enumerations narrowed and its trace normalised.
  function NarrowedForm(m: ResultMessage): ResultMessage {
    m.(executionMode := Narrow(m.executionMode), coarseSourceType := Narrow(m.coarseSourceType), trace := EncodeTrace(DecodeTrace(m.trace)))
  }

  // ---- what the decoder accepts ----

  // The identifiers a run must carry.
  predicate DerivedIdentifiers(digest: Digest, run: Run) {
    && ValidIdentity(IdentityOf(run))
    && Some(run.jobID) == GenerateJobID(digest, IdentityOf(run))
    && Some(run.runID) == GenerateRunID(digest, run.jobID)
  }

  // A run that the rest of the pipeline may rely on.
  predicate AcceptableRun(digest: Digest, run: Run) {
    && DerivedIdentifiers(digest, run)
    && run.candidateRevision > 0
    && EpochsInRange(run.effectiveEpochCount)
    && Provenance(run)
    && (run.coarseSourceRunID.Some? ==> CanonicalNonNil(run.coarseSourceRunID.value))
    && run.predictedCoarse == PredictedCoarse(run.coarse)
    && run.predictedLeaf == PredictedLeaf(run.leaf)
    && Representable(run.completedAt)
  }

  lemma ValidatedRuns(digest: Digest, run: Run)
    requires DerivedIdentifiers(digest, run)
    requires run.coarseSourceRunID.Some? ==> CanonicalNonNil(run.coarseSourceRunID.value)
    requires CheckValid(NewTimestamp(run.completedAt))
    ensures ValidateRun(run).None? <==> AcceptableRun(digest, run)
  {
    hide ValidIdentity, Provenance, ValidateCoarseSource, EpochsInRange, CheckValid, IsZero, ValidMode;
    hide GenerateJobID, GenerateRunID, PredictedCoarse, PredictedLeaf, ValidCoarseClass, ValidLeafClass, CanonicalNonNil;
    IdentityFields(IdentityOf(run));
    SourceCheckIsProvenance(run);
  }

  // The decoder's three-way check, with its test of the type, is the one provenance rule.
  lemma SourceCheckIsProvenance(run: Run)
    ensures Provenance(run) <==>
      run.coarseSourceType in {COMPUTED_CURRENT, REUSED_PREVIOUS, COMPUTED_BOOTSTRAP} && ValidateCoarseSource(run)
  {
  }

  lemma CheckedRuns(digest: Digest, key: Text, decoded: Decoded)
    requires decoded.run.coarseSourceRunID.Some? ==> CanonicalNonNil(decoded.run.coarseSourceRunID.value)
    requires CheckValid(NewTimestamp(decoded.run.completedAt))
    ensures var r := CheckRun(digest, key, decoded);
      r == Ok(decoded) || r.Err?
    ensures CheckRun(digest, key, decoded).Ok? <==> key == decoded.run.objectID && AcceptableRun(digest, decoded.run)
  {
    if DerivedIdentifiers(digest, decoded.run) {
      ValidatedRuns(digest, decoded.run);
    }
    hide ValidIdentity, ValidateRun, Provenance, PredictedCoarse, PredictedLeaf, CanonicalNonNil, Parse, Representable;
  }

  // What mapping a message establishes before any check of identity.
  lemma MappedRuns(m: ResultMessage)
    requires MapResult(m).Ok?
    ensures var d := MapResult(m).value;
      && (d.run.coarseSourceRunID.Some? ==> CanonicalNonNil(d.run.coarseSourceRunID.value))
      && CheckValid(NewTimestamp(d.run.completedAt))
      && Encode(d.run, d.trace) == NarrowedForm(m)
  {
    FieldsRoundTrip(m.coarse.value, m.fine.value, m.leaf.value);
    hide CoarseArray, CoarseFields, FineArray, FineFields, LeafArray, LeafFields, CanonicalNonNil;
  }

  // Whatever bytes arrive, an accepted result carries an acceptable run, and its object
  // is the message's key.
  lemma DecodedRunsAreAcceptable(digest: Digest, topic: Text, message: Inbound<ResultMessage>)
    requires Decode(digest, topic, message).Ok?
    ensures var d := Decode(digest, topic, message).value;
      AcceptableRun(digest, d.run) && d.run.objectID == message.key && message.topic == topic
  {
    var mapped := MapResult(message.body.message);
    MappedRuns(message.body.message);
    CheckedRuns(digest, message.key, mapped.value);
    hide CheckRun, AcceptableRun, MapResult, CanonicalNonNil, CheckValid;
  }

  // Encoding then decoding gives the run back exactly when it is acceptable.
  lemma EncodeDecode(digest: Digest, topic: Text, run: Run, trace: Trace)
    ensures var r := Decode(digest, topic, BuildMessage(topic, run, trace));
      && (r.Ok? <==> topic != [] && AcceptableRun(digest, run))
      && (r.Ok? ==> r.value == Decoded(run, trace))
  {
    var m := Encode(run, trace);
    VectorsRoundTrip(run.coarse, run.fine, run.leaf);
    MapEncode(run, trace);
    if MapResult(m).Ok? {
      CheckedRuns(digest, run.objectID, Decoded(run, trace));
    }
    AcceptableNotEmpty(digest, run);
    hide CheckRun, AcceptableRun, MapResult, Encode, CanonicalNonNil, CheckValid;
  }

  lemma AcceptableNotEmpty(digest: Digest, run: Run)
    ensures AcceptableRun(digest, run) ==>
      && run.objectID != []
      && CheckValid(NewTimestamp(run.completedAt))
      && (run.coarseSourceRunID.Some? ==> CanonicalNonNil(run.coarseSourceRunID.value))
  {
    hide GenerateJobID, GenerateRunID, PredictedCoarse, PredictedLeaf, CanonicalNonNil, Provenance;
  }

  lemma MapEncode(run: Run, trace: Trace)
    ensures var mapped := MapResult(Encode(run, trace));
      && (mapped.Ok? <==> CheckValid(NewTimestamp(run.completedAt)) && (run.coarseSourceRunID.Some? ==> CanonicalNonNil(run.coarseSourceRunID.value)))
      && (mapped.Ok? ==> mapped.value == Decoded(run, trace))
  {
    VectorsRoundTrip(run.coarse, run.fine, run.leaf);
    hide CoarseArray, CoarseFields, FineArray, FineFields, LeafArray, LeafFields, CanonicalNonNil;
  }

  // Re-encoding an accepted result is accepted again, with the same run and trace.
  lemma DecodeEncodeDecode(digest: Digest, topic: Text, message: Inbound<ResultMessage>)
    requires Decode(digest, topic, message).Ok?
    ensures var d := Decode(digest, topic, message).value;
      Decode(digest, topic, BuildMessage(topic, d.run, d.trace)) == Ok(d)
  {
    var d := Decode(digest, topic, message).value;
    DecodedRunsAreAcceptable(digest, topic, message);
    assert topic != [];
    EncodeDecode(digest, topic, d.run, d.trace);
    hide Decode, AcceptableRun, BuildMessage;
  }

  // The converse fails: the low byte alone decides the mode, so a second message
  // that no encoder produces is accepted as the same run.
  lemma NarrowingAcceptsMore(digest: Digest, topic: Text, run: Run, trace: Trace)
    requires topic != [] && AcceptableRun(digest, run)
    ensures var m := Encode(run, trace);
      var other := m.(executionMode := m.executionMode + 256);
      && Decode(digest, topic, Inbound(topic, run.objectID, Encoded(other))) == Ok(Decoded(run, trace))
      && forall r: Run, t: Trace :: Encode(r, t) != other
  {
    hide CheckRun, AcceptableRun, MapResult, Encode;
    EncodedModes(run, trace);
    EncodeDecode(digest, topic, run, trace);
    var m := Encode(run, trace);
    var other := m.(executionMode := m.executionMode + 256);
    NarrowedAlike(m, other);
    forall r: Run, t: Trace
      ensures Encode(r, t) != other
    {
      EncodedModes(r, t);
    }
  }

  lemma EncodedModes(run: Run, trace: Trace)
    ensures 0 <= Encode(run, trace).executionMode < 256
  {
    hide CoarseFields, FineFields, LeafFields;
  }

  lemma NarrowedAlike(m: ResultMessage, other: ResultMessage)
    requires m.executionMode <= MAX_INT32 - 256 && other == m.(executionMode := m.executionMode + 256)
    ensures MapResult(other) == MapResult(m)
  {
    hide CoarseArray, FineArray, LeafArray, CanonicalNonNil;
  }

  // Narrowing is the only loss: accepted messages decode alike exactly when they agree
  // after it.
  lemma DecodeDeterminesNarrowedForm(digest: Digest, topic: Text, a: Inbound<ResultMessage>, b: Inbound<ResultMessage>)
    requires Decode(digest, topic, a).Ok? && Decode(digest, topic, b).Ok?
    ensures Decode(digest, topic, a) == Decode(digest, topic, b) <==>
      NarrowedForm(a.body.message) == NarrowedForm(b.body.message)
  {
    DecodedIsEncoded(digest, topic, a);
    DecodedIsEncoded(digest, topic, b);
    var da, db := Decode(digest, topic, a).value, Decode(digest, topic, b).value;
    if NarrowedForm(a.body.message) == NarrowedForm(b.body.message) {
      MapEncode(da.run, da.trace);
      MapEncode(db.run, db.trace);
    }
    hide Decode, MapResult, Encode, NarrowedForm;
  }

  // An accepted message is, after narrowing, the encoding of what it decodes to.
  lemma DecodedIsEncoded(digest: Digest, topic: Text, message: Inbound<ResultMessage>)
    requires Decode(digest, topic, message).Ok?
    ensures var d := Decode(digest, topic, message).value;
      && message.body.Encoded?
      && Encode(d.run, d.trace) == NarrowedForm(message.body.message)
      && MapResult(Encode(d.run, d.trace)) == Ok(d)
  {
    var m := message.body.message;
    MappedRuns(m);
    CheckedRuns(digest, message.key, MapResult(m).value);
    var d := Decode(digest, topic, message).value;
    MapEncode(d.run, d.trace);
    hide CheckRun, MapResult, Encode, NarrowedForm, CanonicalNonNil, CheckValid, AcceptableRun;
  }

  // What a producer can check: both enumerations fit in eight bits, and a trace that is
  // present is not empty.
  predicate FitsEncoder(m: ResultMessage) {
    0 <= m.executionMode < 256 && 0 <= m.coarseSourceType < 256 && m.trace != Some(NoTrace())
  }

  // Exactly which accepted messages an encoder produces.
  lemma EncodersImage(digest: Digest, topic: Text, message: Inbound<ResultMessage>)
    requires Decode(digest, topic, message).Ok?
    ensures (exists run: Run, trace: Trace :: BuildMessage(topic, run, trace) == message)
      <==> NarrowedForm(message.body.message) == message.body.message
    ensures (exists run: Run, trace: Trace :: BuildMessage(topic, run, trace) == message)
      <==> FitsEncoder(message.body.message)
  {
    hide Decode, Encode, NarrowedForm, FitsEncoder, AcceptableRun;
    DecodedIsEncoded(digest, topic, message);
    DecodedRunsAreAcceptable(digest, topic, message);
    var m, d := message.body.message, Decode(digest, topic, message).value;
    NarrowedExactly(m);
    if NarrowedForm(m) == m {
      assert BuildMessage(topic, d.run, d.trace) == message;
    }
    if run: Run, trace: Trace :| BuildMessage(topic, run, trace) == message {
      EncodedFits(run, trace);
    }
  }

  lemma NarrowedExactly(m: ResultMessage)
    ensures NarrowedForm(m) == m <==> FitsEncoder(m)
  {
  }

  lemma EncodedFits(run: Run, trace: Trace)
    ensures FitsEncoder(Encode(run, trace))
  {
    hide CoarseFields, FineFields, LeafFields;
  }

  // Narrowing first changes nothing: a message is accepted, as some run, exactly when its
  // narrowed form is the encoding of that run and the run is acceptable.
  lemma AcceptsExactly(digest: Digest, topic: Text, message: Inbound<ResultMessage>, run: Run, trace: Trace)
    ensures Decode(digest, topic, message) == Ok(Decoded(run, trace)) <==>
      && topic != [] && message.topic == topic && message.key == run.objectID && message.body.Encoded?
      && NarrowedForm(message.body.message) == Encode(run, trace) && AcceptableRun(digest, run)
  {
    hide CheckRun, AcceptableRun, MapResult, Encode, NarrowedForm, CanonicalNonNil, CheckValid;
    if Decode(digest, topic, message) == Ok(Decoded(run, trace)) {
      DecodedIsEncoded(digest, topic, message);
      DecodedRunsAreAcceptable(digest, topic, message);
    }
    AcceptableNotEmpty(digest, run);
    if message.body.Encoded? && NarrowedForm(message.body.message) == Encode(run, trace) && AcceptableRun(digest, run) {
      MapNarrowed(message.body.message);
      MapEncode(run, trace);
      CheckedRuns(digest, message.key, Decoded(run, trace));
    }
  }

  lemma MapNarrowed(m: ResultMessage)
    ensures MapResult(NarrowedForm(m)) == MapResult(m)
  {
    hide CoarseArray, FineArray, LeafArray, CanonicalNonNil;
  }

  // An error names something that is wrong with the message.
  lemma DecodeBlames(digest: Digest, topic: Text, message: Inbound<ResultMessage>)
    requires Decode(digest, topic, message).Err?
    ensures match Decode(digest, topic, message).error
      case NoExpectedTopic => topic == []
      case UnexpectedTopic => message.topic != topic
      case MalformedMessage => !message.body.Encoded?
      case InvalidField(_) => message.key == [] || message.body.Encoded?
      case KeyMismatch => message.body.Encoded? && message.key != message.body.message.objectID
      case JobIDMismatch => message.body.Encoded? && exists jobID :: WrongJob(digest, message.body.message, jobID)
      case RunIDMismatch => message.body.Encoded? && GenerateRunID(digest, message.body.message.jobID) != Some(message.body.message.runID)
  {
    hide CoarseArray, FineArray, LeafArray, CanonicalNonNil, CheckValid, ValidateCoarseSource, PredictedCoarse, PredictedLeaf, GenerateJobID, GenerateRunID;
    if Decode(digest, topic, message).error.JobIDMismatch? {
      var run := MapResult(message.body.message).value.run;
      assert WrongJob(digest, message.body.message, GenerateJobID(digest, IdentityOf(run)).value);
    }
  }

  // The derived job identifier is another one.
  predicate WrongJob(digest: Digest, m: ResultMessage, jobID: Text) {
    && m.jobID != jobID && m.versions.Some?
    && GenerateJobID(digest, JobIdentity(m.objectID, m.lightCurveRevision, m.versions.value, Narrow(m.executionMode))) == Some(jobID)
  }
}
