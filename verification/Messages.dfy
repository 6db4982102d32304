// Messages as the handlers see them: protobuf values as records, a body that is
// empty, not parseable, or a message.
module Messages {
  import opened Bytes
  import opened ClassificationRun
  import opened Integers
  import opened Wrappers

  datatype Body<+M> = Empty | Malformed | Encoded(message: M)

  datatype Inbound<+M> = Inbound(topic: Text, key: Text, body: Body<M>)

  // ---- timestamps ----

  datatype Timestamp = Timestamp(seconds: Int64, nanos: Int32)

  const MINIMUM_TIMESTAMP_SECONDS := -62135596800
  const MAXIMUM_TIMESTAMP_SECONDS := 253402300799

  function NewTimestamp(t: Instant): Timestamp {
    Timestamp(t.seconds, t.nanos)
  }

  predicate CheckValid(t: Timestamp) {
    MINIMUM_TIMESTAMP_SECONDS <= t.seconds <= MAXIMUM_TIMESTAMP_SECONDS && 0 <= t.nanos < 1_000_000_000
  }

  function AsTime(t: Timestamp): Instant
    requires CheckValid(t)
  {
    Instant(t.seconds, t.nanos)
  }

  // Years 1 to 9999, except the very first instant.
  predicate Representable(t: Instant) {
    CheckValid(NewTimestamp(t)) && !IsZero(t)
  }

  // ---- trace context ----

  datatype Trace = Trace(traceID: Text, correlationID: Text, causationID: Text)

  function NoTrace(): Trace { Trace([], [], []) }

  function EncodeTrace(t: Trace): Option<Trace> {
    if t == NoTrace() then None else Some(t)
  }

  function DecodeTrace(t: Option<Trace>): Trace {
    if t.Some? then t.value else NoTrace()
  }
}
