// internal/domain/identity.go: the payload behind a job's deterministic UUID.
module Identity {
  import opened Bytes
  import opened Integers
  import opened Uuid
  import opened Wrappers

  const PRODUCTION := 1
  const SHADOW := 2
  const REPROCESS := 3

  datatype JobIdentity = JobIdentity(objectID: Text, lightCurveRevision: int, modelBundleVersion: Text, executionMode: int)

  predicate ValidMode(mode: int) {
    mode == PRODUCTION || mode == SHADOW || mode == REPROCESS
  }

  predicate ValidIdentity(id: JobIdentity) {
    && CleanText(id.objectID) && |id.objectID| <= MAX_UINT32
    && 0 < id.lightCurveRevision <= MAX_INT64
    && CleanText(id.modelBundleVersion) && |id.modelBundleVersion| <= MAX_UINT32
    && ValidMode(id.executionMode)
  }

  lemma IdentityFields(id: JobIdentity)
    requires ValidIdentity(id)
    ensures id.objectID != [] && id.modelBundleVersion != [] && id.lightCurveRevision > 0 && ValidMode(id.executionMode)
  {
    hide Trimmed;
  }

  // ---- the payload ----

  // The bytes of "astro.classification.job.v1".
  const JOB_NAME_PREFIX: Text :=
    [97, 115, 116, 114, 111, 46, 99, 108, 97, 115, 115, 105, 102, 105, 99, 97, 116, 105, 111, 110, 46, 106, 111, 98, 46, 118, 49]

  // The bytes of "classification-run-v1".
  const RUN_NAME: Text :=
    [99, 108, 97, 115, 115, 105, 102, 105, 99, 97, 116, 105, 111, 110, 45, 114, 117, 110, 45, 118, 49]

  lemma NamesSpelled()
    ensures JOB_NAME_PREFIX == Ascii("astro.classification.job.v1") && RUN_NAME == Ascii("classification-run-v1")
  {
  }

  // uint32(len(value)) keeps the low 32 bits only; validation keeps lengths below that.
  function AppendLengthPrefixed(dst: Text, value: Text): Text {
    dst + BigEndian(|value| % (MAX_UINT32 + 1), 4) + value
  }

  // The encoding under any name prefix; GenerateJobID always uses JOB_NAME_PREFIX.
  function PayloadUnder(prefix: Text, id: JobIdentity): Text
    requires id.lightCurveRevision >= 0
  {
    var p1 := AppendLengthPrefixed([], prefix);
    var p2 := AppendLengthPrefixed(p1, id.objectID);
    var p3 := p2 + BigEndian(id.lightCurveRevision, 8);
    var p4 := AppendLengthPrefixed(p3, id.modelBundleVersion);
    p4 + [id.executionMode % 256]
  }

  function Payload(id: JobIdentity): Text
    requires id.lightCurveRevision >= 0
  {
    PayloadUnder(JOB_NAME_PREFIX, id)
  }

  // ---- identifiers ----

  function JobUuid(digest: Digest, id: JobIdentity): (u: Uuid)
    requires id.lightCurveRevision >= 0
    ensures u != Nil()
  {
    NameBased(digest, UrlNamespace(), Payload(id))
  }

  function GenerateJobID(digest: Digest, id: JobIdentity): Option<Text> {
    if ValidIdentity(id) then Some(Format(JobUuid(digest, id))) else None
  }

  function GenerateRunID(digest: Digest, jobID: Text): Option<Text> {
    var parsed := Parse(jobID);
    if parsed.None? || parsed.value == Nil() then None
    else Some(Format(NameBased(digest, parsed.value, RUN_NAME)))
  }

  // ---- parsing the payload back ----

  // A length-prefixed field and what follows it.
  function TakeField(s: Text): Option<(Text, Text)> {
    if |s| < 4 then None
    else
      var n := FromBigEndian(s[..4]);
      if |s| - 4 < n then None else Some((s[4..4 + n], s[4 + n..]))
  }

  function ParseBody(s: Text): Option<JobIdentity> {
    match TakeField(s)
    case None => None
    case Some((objectID, rest)) =>
      if |rest| < 8 then None
      else
        match TakeField(rest[8..])
        case None => None
        case Some((bundle, mode)) =>
          if |mode| != 1 then None
          else Some(JobIdentity(objectID, FromBigEndian(rest[..8]), bundle, mode[0]))
  }

  function ParsePayload(prefix: Text, s: Text): Option<JobIdentity> {
    match TakeField(s)
    case None => None
    case Some((found, rest)) => if found == prefix then ParseBody(rest) else None
  }

  function Field(value: Text): Text {
    BigEndian(|value|, 4) + value
  }

  lemma FieldRoundTrip(value: Text, rest: Text)
    requires |value| <= MAX_UINT32
    ensures TakeField(Field(value) + rest) == Some((value, rest))
  {
    var s := Field(value) + rest;
    assert Pow256(1) == 256 && Pow256(2) == 65536 && Pow256(3) == 16777216 && Pow256(4) == MAX_UINT32 + 1;
    BigEndianRoundTrip(|value|, 4);
    assert s[..4] == BigEndian(|value|, 4);
    assert s[4..4 + |value|] == value && s[4 + |value|..] == rest;
  }

  lemma RevisionFits(n: nat)
    requires n <= MAX_INT64
    ensures FromBigEndian(BigEndian(n, 8)) == n
  {
    assert Pow256(1) == 256 && Pow256(2) == 65536 && Pow256(4) == 0x1_0000_0000 && Pow256(6) == 0x1_0000_0000_0000;
    assert Pow256(8) == 0x1_0000_0000_0000_0000;
    BigEndianRoundTrip(n, 8);
  }

  lemma BodyRoundTrip(id: JobIdentity, tail: Text)
    requires ValidIdentity(id) && tail == BigEndian(id.lightCurveRevision, 8) + (Field(id.modelBundleVersion) + [id.executionMode])
    ensures ParseBody(Field(id.objectID) + tail) == Some(id)
  {
    FieldRoundTrip(id.objectID, tail);
    FieldRoundTrip(id.modelBundleVersion, [id.executionMode]);
    RevisionFits(id.lightCurveRevision);
    hide BigEndian, FromBigEndian, TakeField, Field, CleanText;
    assert tail[..8] == BigEndian(id.lightCurveRevision, 8);
    assert tail[8..] == Field(id.modelBundleVersion) + [id.executionMode];
  }

  lemma PayloadShape(prefix: Text, id: JobIdentity, tail: Text)
    requires ValidIdentity(id) && |prefix| <= MAX_UINT32
    requires tail == BigEndian(id.lightCurveRevision, 8) + (Field(id.modelBundleVersion) + [id.executionMode])
    ensures PayloadUnder(prefix, id) == Field(prefix) + (Field(id.objectID) + tail)
  {
    hide BigEndian, CleanText;
  }

  // The payload of a valid identity can be read back: no field boundary is ambiguous.
  lemma PayloadRoundTrip(prefix: Text, id: JobIdentity)
    requires ValidIdentity(id) && |prefix| <= MAX_UINT32
    ensures ParsePayload(prefix, PayloadUnder(prefix, id)) == Some(id)
  {
    var tail := BigEndian(id.lightCurveRevision, 8) + (Field(id.modelBundleVersion) + [id.executionMode]);
    PayloadShape(prefix, id, tail);
    BodyRoundTrip(id, tail);
    FieldRoundTrip(prefix, Field(id.objectID) + tail);
    hide ParseBody, PayloadUnder, TakeField, Field, CleanText;
  }

  // Distinct valid identities never share a payload.
  lemma PayloadInjective(a: JobIdentity, b: JobIdentity)
    requires ValidIdentity(a) && ValidIdentity(b) && Payload(a) == Payload(b)
    ensures a == b
  {
    hide PayloadUnder, ParsePayload, CleanText;
    PayloadRoundTrip(JOB_NAME_PREFIX, a);
    PayloadRoundTrip(JOB_NAME_PREFIX, b);
  }

  // The digest separates the payloads and the run names of these identities.
  ghost predicate CollisionFree(digest: Digest, ids: set<JobIdentity>) {
    forall a, b | a in ids && b in ids && ValidIdentity(a) && ValidIdentity(b) ::
      && (JobUuid(digest, a) == JobUuid(digest, b) ==> Payload(a) == Payload(b))
      && (NameBased(digest, JobUuid(digest, a), RUN_NAME) == NameBased(digest, JobUuid(digest, b), RUN_NAME) ==>
            JobUuid(digest, a) == JobUuid(digest, b))
  }

  // Every valid identity has a job identifier and from it a run identifier, both
  // canonical; as far as the digest separates payloads, either one determines the identity.
  lemma IdentifiersIdentify(digest: Digest, ids: set<JobIdentity>, a: JobIdentity, b: JobIdentity)
    requires CollisionFree(digest, ids) && a in ids && b in ids && ValidIdentity(a) && ValidIdentity(b)
    ensures GenerateJobID(digest, a).Some? && CanonicalNonNil(GenerateJobID(digest, a).value)
    ensures var run := GenerateRunID(digest, GenerateJobID(digest, a).value); run.Some? && CanonicalNonNil(run.value)
    ensures GenerateJobID(digest, a) == GenerateJobID(digest, b) <==> a == b
    ensures GenerateRunID(digest, GenerateJobID(digest, a).value) == GenerateRunID(digest, GenerateJobID(digest, b).value) <==> a == b
  {
    IdentifiersExist(digest, a);
    IdentifiersExist(digest, b);
    var ja, jb := JobUuid(digest, a), JobUuid(digest, b);
    var ra, rb := NameBased(digest, ja, RUN_NAME), NameBased(digest, jb, RUN_NAME);
    hide JobUuid, NameBased, Payload, ValidIdentity, Format, Parse;
    if Format(ra) == Format(rb) {
      FormatInjective(ra, rb);
    }
    if Format(ja) == Format(jb) {
      FormatInjective(ja, jb);
      PayloadInjective(a, b);
    }
  }

  lemma IdentifiersExist(digest: Digest, id: JobIdentity)
    requires ValidIdentity(id)
    ensures var job := GenerateJobID(digest, id);
      job == Some(Format(JobUuid(digest, id))) && CanonicalNonNil(job.value)
      && GenerateRunID(digest, job.value) == Some(Format(NameBased(digest, JobUuid(digest, id), RUN_NAME)))
    ensures CanonicalNonNil(Format(NameBased(digest, JobUuid(digest, id), RUN_NAME)))
  {
    hide NameBased, JobUuid, Format, Parse;
    ParseFormat(JobUuid(digest, id));
    FormattedNotEmpty(JobUuid(digest, id));
    FormattedNotEmpty(NameBased(digest, JobUuid(digest, id), RUN_NAME));
  }
}
