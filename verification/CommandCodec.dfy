// internal/application/classification_command.go and classification_command_decode.go.
module CommandCodec {
  import opened Bytes
  import opened ClassificationRun
  import opened Identity
  import opened Integers
  import LightCurve
  import opened Messages
  import opened Uuid
  import opened Wrappers

  const REALTIME := 1

  datatype CommandMessage = CommandMessage(
    jobID: Text,
    objectID: Text,
    candidateRevision: Int64,
    lightCurveRevision: Int64,
    declaredEpochCount: Uint32,
    modelBundleVersion: Text,
    executionMode: Int32,
    priority: Int32,
    createdAt: Option<Timestamp>,
    deadlineAt: Option<Timestamp>,
    trace: Option<Trace>)

  datatype Command = Command(
    jobID: Text,
    objectID: Text,
    candidateRevision: Int64,
    lightCurveRevision: Int64,
    declaredEpochCount: Uint32,
    modelBundleVersion: Text,
    executionMode: Uint8,
    createdAt: Instant,
    trace: Trace)

  datatype CommandError =
    NoExpectedTopic | UnexpectedTopic | MissingKey | MalformedProto | InvalidField(field: string)
  | UnsupportedExecutionMode | UnsupportedPriority | UnsupportedDeadline | KeyMismatch | JobIDMismatch

  function IdentityOf(c: Command): JobIdentity {
    JobIdentity(c.objectID, c.lightCurveRevision, c.modelBundleVersion, c.executionMode)
  }

  // ---- decoding ----

  function CheckFields(m: CommandMessage): Option<CommandError> {
    if !CleanText(m.jobID) then Some(InvalidField("job_id"))
    else if !CleanText(m.objectID) then Some(InvalidField("object_id"))
    else if m.candidateRevision <= 0 then Some(InvalidField("candidate_revision"))
    else if m.lightCurveRevision <= 0 then Some(InvalidField("light_curve_revision"))
    else if m.declaredEpochCount < LightCurve.MINIMUM_EPOCHS then Some(InvalidField("declared_eligible_epoch_count"))
    else if !CleanText(m.modelBundleVersion) then Some(InvalidField("model_bundle_version"))
    else if !ValidMode(m.executionMode) then Some(UnsupportedExecutionMode)
    else if m.priority != REALTIME then Some(UnsupportedPriority)
    else if m.createdAt.None? || !CheckValid(m.createdAt.value) || IsZero(AsTime(m.createdAt.value)) then Some(InvalidField("created_at"))
    else if m.deadlineAt.Some? then Some(UnsupportedDeadline)
    else None
  }

  function Decode(digest: Digest, expectedTopic: Text, message: Inbound<CommandMessage>): Result<Command, CommandError> {
    if expectedTopic == [] then Err(NoExpectedTopic)
    else if message.topic != expectedTopic then Err(UnexpectedTopic)
    else if message.key == [] then Err(MissingKey)
    else if !message.body.Encoded? then Err(MalformedProto)
    else
      var m := message.body.message;
      var invalid := CheckFields(m);
      if invalid.Some? then Err(invalid.value)
      else if message.key != m.objectID then Err(KeyMismatch)
      else
        var expected := GenerateJobID(digest, JobIdentity(m.objectID, m.lightCurveRevision, m.modelBundleVersion, m.executionMode));
        if expected.None? then Err(InvalidField("identity"))
        else if m.jobID != expected.value then Err(JobIDMismatch)
        else Ok(Command(
          m.jobID, m.objectID, m.candidateRevision, m.lightCurveRevision, m.declaredEpochCount,
          m.modelBundleVersion, m.executionMode, AsTime(m.createdAt.value), DecodeTrace(m.trace)))
  }

  // What a decoded command promises to the rest of the worker.
  predicate AcceptableCommand(digest: Digest, c: Command) {
    && ValidIdentity(IdentityOf(c))
    && Some(c.jobID) == GenerateJobID(digest, IdentityOf(c))
    && c.candidateRevision > 0
    && c.declaredEpochCount >= LightCurve.MINIMUM_EPOCHS
    && Representable(c.createdAt)
  }

  lemma DecodedCommandsAreAcceptable(digest: Digest, topic: Text, message: Inbound<CommandMessage>)
    requires Decode(digest, topic, message).Ok?
    ensures var c := Decode(digest, topic, message).value;
      AcceptableCommand(digest, c) && c.objectID == message.key && message.topic == topic
  {
    hide JobUuid, Trimmed, Format;
  }

  // ---- encoding ----

  // What the candidate side knows when it asks for a classification.
  datatype Proposal = Proposal(
    objectID: Text,
    candidateRevision: Int64,
    lightCurveRevision: Int64,
    eligibleEpochCount: Uint32,
    supportedEvent: bool,
    occurredAt: Instant,
    shouldClassify: bool,
    modelBundleVersion: Text,
    executionMode: Uint8,
    priority: Uint8,
    hasDeadline: bool,
    trace: Trace)

  function Build(digest: Digest, topic: Text, p: Proposal): Option<Inbound<CommandMessage>> {
    var jobID := GenerateJobID(digest, JobIdentity(p.objectID, p.lightCurveRevision, p.modelBundleVersion, p.executionMode));
    if topic == [] || !p.shouldClassify || !p.supportedEvent || p.candidateRevision <= 0
       || p.eligibleEpochCount < LightCurve.MINIMUM_EPOCHS || IsZero(p.occurredAt) || p.hasDeadline
       || !ValidMode(p.executionMode) || p.priority != REALTIME || jobID.None? || !CheckValid(NewTimestamp(p.occurredAt))
    then None
    else Some(Inbound(topic, p.objectID, Encoded(CommandMessage(
      jobID.value, p.objectID, p.candidateRevision, p.lightCurveRevision, p.eligibleEpochCount, p.modelBundleVersion,
      p.executionMode, p.priority, Some(NewTimestamp(p.occurredAt)), None, EncodeTrace(p.trace)))))
  }

  // A built command always passes the worker's decoder, with every field unchanged.
  lemma BuiltCommandsDecode(digest: Digest, topic: Text, p: Proposal)
    requires Build(digest, topic, p).Some?
    ensures var m := Build(digest, topic, p).value;
      Decode(digest, topic, m) == Ok(Command(
        m.body.message.jobID, p.objectID, p.candidateRevision, p.lightCurveRevision, p.eligibleEpochCount,
        p.modelBundleVersion, p.executionMode, p.occurredAt, p.trace))
  {
    hide JobUuid, Trimmed, Format;
    var identity := JobIdentity(p.objectID, p.lightCurveRevision, p.modelBundleVersion, p.executionMode);
    IdentifiersExist(digest, identity);
    FormattedIsClean(JobUuid(digest, identity));
  }

  // The text of a UUID holds neither white space nor NUL.
  lemma FormattedIsClean(u: Uuid)
    ensures CleanText(Format(u))
  {
    var s := Format(u);
    assert forall b :: b in s ==> b == HYPHEN || 48 <= b <= 57 || 97 <= b <= 102;
  }

  // ---- what the codec accepts ----

  // The message says exactly this command, as a realtime one without a deadline.
  predicate Says(m: CommandMessage, c: Command) {
    && m.jobID == c.jobID && m.objectID == c.objectID
    && m.candidateRevision == c.candidateRevision && m.lightCurveRevision == c.lightCurveRevision
    && m.declaredEpochCount == c.declaredEpochCount && m.modelBundleVersion == c.modelBundleVersion
    && m.executionMode == c.executionMode && m.priority == 1
    && m.createdAt == Some(Timestamp(c.createdAt.seconds, c.createdAt.nanos)) && m.deadlineAt.None?
    && (m.trace == Some(c.trace) || (m.trace.None? && c.trace == Trace([], [], [])))
  }

  // The worker decodes a message to a command exactly when the message says it, comes on
  // the expected topic under its object's key, and its job identifier is the derived one.
  lemma DecodesExactly(digest: Digest, topic: Text, message: Inbound<CommandMessage>, c: Command)
    ensures Decode(digest, topic, message) == Ok(c) <==>
      && topic != [] && message.topic == topic && message.key == c.objectID
      && message.body.Encoded? && Says(message.body.message, c)
      && CleanText(c.objectID) && |c.objectID| <= MAX_UINT32 && CleanText(c.modelBundleVersion) && |c.modelBundleVersion| <= MAX_UINT32
      && c.lightCurveRevision > 0 && c.candidateRevision > 0 && c.declaredEpochCount >= 3 && c.executionMode in {1, 2, 3}
      && c.jobID == Format(NameBased(digest, UrlNamespace(), Payload(IdentityOf(c))))
      && -62135596800 <= c.createdAt.seconds <= 253402300799 && !IsZero(c.createdAt)
  {
    hide NameBased, Payload, UrlNamespace, Trimmed, Format;
    if c.lightCurveRevision > 0 {
      FormattedIsClean(JobUuid(digest, IdentityOf(c)));
    }
  }

  // A command is built exactly for a supported proposal.
  lemma BuildsExactly(digest: Digest, topic: Text, p: Proposal)
    ensures Build(digest, topic, p).Some? <==>
      && topic != [] && p.shouldClassify && p.supportedEvent && !p.hasDeadline && p.priority == 1
      && p.candidateRevision > 0 && p.eligibleEpochCount >= 3
      && CleanText(p.objectID) && |p.objectID| <= MAX_UINT32 && CleanText(p.modelBundleVersion) && |p.modelBundleVersion| <= MAX_UINT32
      && p.lightCurveRevision > 0 && p.executionMode in {1, 2, 3}
      && -62135596800 <= p.occurredAt.seconds <= 253402300799 && !IsZero(p.occurredAt)
  {
    hide JobUuid, Trimmed, Format;
  }

  // An error names something that is wrong with the message.
  lemma DecodeBlames(digest: Digest, topic: Text, message: Inbound<CommandMessage>)
    requires Decode(digest, topic, message).Err?
    ensures match Decode(digest, topic, message).error
      case NoExpectedTopic => topic == []
      case UnexpectedTopic => message.topic != topic
      case MissingKey => message.key == []
      case MalformedProto => !message.body.Encoded?
      case InvalidField(_) => message.body.Encoded?
      case UnsupportedExecutionMode => message.body.Encoded? && message.body.message.executionMode !in {1, 2, 3}
      case UnsupportedPriority => message.body.Encoded? && message.body.message.priority != 1
      case UnsupportedDeadline => message.body.Encoded? && message.body.message.deadlineAt.Some?
      case KeyMismatch => message.body.Encoded? && message.key != message.body.message.objectID
      case JobIDMismatch =>
        message.body.Encoded? &&
        var m := message.body.message;
        m.lightCurveRevision > 0 && m.jobID != Format(JobUuid(digest, JobIdentity(m.objectID, m.lightCurveRevision, m.modelBundleVersion, m.executionMode)))
  {
    hide JobUuid, Trimmed, Format;
  }
}
