// The result side: DLQ(Retry(Writer)) of classification_result_dlq_handler.go,
// classification_result_retry_handler.go and classification_result_writer.go.
module ResultHandlers {
  import opened Bytes
  import opened ClassificationRun
  import opened CommandHandlers
  import Identity
  import opened Messages
  import opened Repository
  import ResultCodec
  import opened Uuid
  import opened WorkerErrors
  import opened Wrappers

  // ---- the writer ----

  predicate IsPermanent(c: Chain) {
    First(c, IsResultFailure()).Some?
  }

  function DecodeFailure(e: ResultCodec.ResultError): Chain {
    match e
    case NoExpectedTopic => [Opaque]
    case UnexpectedTopic => [ResultFailure("RESULT_TOPIC_UNEXPECTED")]
    case MalformedMessage => [ResultFailure("RESULT_MESSAGE_MALFORMED")]
    case InvalidField(_) => [ResultFailure("RESULT_FIELD_INVALID")]
    case KeyMismatch => [ResultFailure("RESULT_KEY_MISMATCH")]
    case JobIDMismatch => [ResultFailure("RESULT_JOB_ID_MISMATCH")]
    case RunIDMismatch => [ResultFailure("RESULT_RUN_ID_MISMATCH")]
  }

  // What the writer makes of a save; `cause` is the repository's own error.
  function SaveFailure(outcome: Outcome, cause: Chain): Option<Chain> {
    match outcome
    case Saved(_, _) => None
    case Conflict => Some([ResultFailure("RESULT_REPOSITORY_CONFLICT"), Known(ClassificationRunConflict)])
    case _ => Some([Opaque] + cause)
  }

  // One attempt: decode, save, translate the error.
  method WriteResult(
      live: Option<ContextError>, digest: Digest, topic: Text, message: Inbound<ResultCodec.ResultMessage>,
      store: Store, time: int, fate: Fate, cause: Chain)
      returns (error: Option<Chain>)
    requires !Is(cause, Known(ClassificationRunConflict))
    modifies store
    ensures live.Some? ==> error == ContextFailure(live) && store.Contents() == old(store.Contents())
    ensures live.None? ==> var decoded := ResultCodec.Decode(digest, topic, message);
      if decoded.Err? then error == Some(DecodeFailure(decoded.error)) && store.Contents() == old(store.Contents())
      else
        var (db, outcome) := Save(old(store.Contents()), decoded.value.run, time, fate);
        store.Contents() == db && error == SaveFailure(outcome, cause)
    // Success means the identity is in the table.
    ensures error.None? ==>
      var decoded := ResultCodec.Decode(digest, topic, message);
      decoded.Ok? && Recorded(store.rows, decoded.value.run.runID, decoded.value.run.jobID)
  {
    if live.Some? {
      return ContextFailure(live);
    }
    var decoded := ResultCodec.Decode(digest, topic, message);
    if decoded.Err? {
      return Some(DecodeFailure(decoded.error));
    }
    var run := decoded.value.run;
    var outcome := store.SaveRunAndMaybeAdvanceCurrent(run, time, fate);
    hide ResultCodec.Decode;
    if outcome.Saved? {
      SavedIsRecorded(old(store.Contents()), run, time, fate);
      return None;
    }
    return SaveFailure(outcome, cause);
  }

  lemma SavedIsRecorded(db: Db, run: Run, time: int, fate: Fate)
    requires Save(db, run, time, fate).1.Saved?
    ensures Recorded(Save(db, run, time, fate).0.rows, run.runID, run.jobID)
  {
    hide CheckConstraints, SourceExists;
    var rows := Save(db, run, time, fate).0.rows;
    if rows != db.rows {
      assert rows[|db.rows|].run == run;
    }
  }

  // ---- retrying ----

  // What the writer answers, the context's state after it, and the wait.
  datatype ResultTurn = ResultTurn(error: Option<Chain>, contextAfter: Option<ContextError>, wait: Option<ContextError>)

  // Everything transient is retried, an expired deadline included, as long as the
  // record's own context is live.
  predicate Transient(t: ResultTurn) {
    t.error.Some? && !IsPermanent(t.error.value) && t.contextAfter.None? && !Is(t.error.value, ContextCanceled)
  }

  predicate RetriesResult(t: ResultTurn) {
    Transient(t) && t.wait.None?
  }

  function ResultLeading(script: seq<ResultTurn>): (k: nat)
    ensures k <= |script|
    ensures forall j :: 0 <= j < k ==> RetriesResult(script[j])
    ensures k < |script| ==> !RetriesResult(script[k])
  {
    if script == [] || !RetriesResult(script[0]) then 0 else 1 + ResultLeading(script[1..])
  }

  lemma {:induction false} ResultLeadingUnique(script: seq<ResultTurn>, k: nat)
    requires k <= |script| && (forall j :: 0 <= j < k ==> RetriesResult(script[j])) && (k < |script| ==> !RetriesResult(script[k]))
    ensures ResultLeading(script) == k
  {
    if k > 0 {
      ResultLeadingUnique(script[1..], k - 1);
    }
  }

  function FinalResult(t: ResultTurn): Option<Chain> {
    if t.error.None? || IsPermanent(t.error.value) then t.error
    else if t.contextAfter.Some? then ContextFailure(t.contextAfter)
    else if Is(t.error.value, ContextCanceled) then t.error
    else ContextFailure(t.wait)
  }

  function ResultRetryResult(script: seq<ResultTurn>): HandleResult {
    var k := ResultLeading(script);
    if k == |script| then StillRetrying else Returned(FinalResult(script[k]))
  }

  method RetryResultWrites(live: Option<ContextError>, script: seq<ResultTurn>, delays: seq<nat>)
      returns (result: HandleResult, calls: nat, waits: seq<nat>)
    requires delays != []
    ensures live.Some? ==> result == Returned(ContextFailure(live)) && calls == 0 && waits == []
    ensures live.None? ==> result == ResultRetryResult(script) && WaitsFollow(waits, delays)
    ensures live.None? ==> var k := ResultLeading(script);
      && calls == (if k < |script| then k + 1 else k)
      && |waits| == (if k < |script| && Transient(script[k]) then k + 1 else k)
  {
    if live.Some? {
      return Returned(ContextFailure(live)), 0, [];
    }
    calls, waits := 0, [];
    while calls < |script|
      invariant calls <= |script| && |waits| == calls && WaitsFollow(waits, delays)
      invariant forall j :: 0 <= j < calls ==> RetriesResult(script[j])
    {
      var turn := script[calls];
      calls := calls + 1;
      if turn.error.None? || IsPermanent(turn.error.value) {
        ResultLeadingUnique(script, calls - 1);
        return Returned(turn.error), calls, waits;
      }
      if turn.contextAfter.Some? {
        ResultLeadingUnique(script, calls - 1);
        return Returned(ContextFailure(turn.contextAfter)), calls, waits;
      }
      if Is(turn.error.value, ContextCanceled) {
        ResultLeadingUnique(script, calls - 1);
        return Returned(turn.error), calls, waits;
      }
      waits := waits + [DelayAt(delays, calls - 1)];
      if turn.wait.Some? {
        ResultLeadingUnique(script, calls - 1);
        return Returned(ContextFailure(turn.wait)), calls, waits;
      }
    }
    ResultLeadingUnique(script, |script|);
    return StillRetrying, calls, waits;
  }

  // An expired deadline inside one write does not end the retries by itself: only a
  // permanent failure, a cancellation, or the record's own context does.
  lemma DeadlineIsRetried(t: ResultTurn)
    requires t.error.Some? && Is(t.error.value, ContextDeadlineExceeded)
    ensures RetriesResult(t) <==>
      && (forall link :: link in t.error.value ==> !link.ResultFailure? && link != ContextCanceled)
      && t.contextAfter.None? && t.wait.None?
  {
    hide First;
    FirstFinds(t.error.value, IsResultFailure());
  }

  // ---- dead letters ----

  function FailureCode(c: Chain): string {
    match First(c, IsResultFailure())
    case Some(ResultFailure(code)) => code
    case _ => ""
  }

  function ResultDeadLetterResult(next: HandleResult, delivery: Delivery): HandleResult {
    if next.StillRetrying? || next.error.None? || !IsPermanent(next.error.value) then next
    else if FailureCode(next.error.value) == "" then Returned(Some([Opaque]))
    else if delivery.Acknowledged? then Returned(None)
    else Returned(Some([Opaque] + delivery.error))
  }

  method HandleResultDeadLetter<M>(next: HandleResult, delivery: Delivery, publisher: Publisher<M>, original: M)
      returns (result: HandleResult)
    modifies publisher
    ensures result == ResultDeadLetterResult(next, delivery)
    ensures publisher.calls <= old(publisher.calls) + 1
    ensures publisher.calls > old(publisher.calls) <==> next.Returned? && next.error.Some? && IsPermanent(next.error.value) && FailureCode(next.error.value) != ""
    ensures publisher.sent == old(publisher.sent) || publisher.sent == old(publisher.sent) + [original]
    ensures result == Returned(None) && next != Returned(None) ==> publisher.sent == old(publisher.sent) + [original]
  {
    if next.StillRetrying? || next.error.None? || !IsPermanent(next.error.value) {
      return next;
    }
    if FailureCode(next.error.value) == "" {
      return Returned(Some([Opaque]));
    }
    var publishError := publisher.Publish(original, delivery);
    if publishError.Some? {
      return Returned(Some([Opaque] + publishError.value));
    }
    return Returned(None);
  }

  function ResultStack(live: Option<ContextError>, script: seq<ResultTurn>, delivery: Delivery): HandleResult {
    if live.Some? then Returned(ContextFailure(live)) else ResultDeadLetterResult(ResultRetryResult(script), delivery)
  }

  // nil means the last write succeeded, or failed permanently with its dead letter
  // acknowledged.
  lemma ResultStackNil(live: Option<ContextError>, script: seq<ResultTurn>, delivery: Delivery)
    ensures ResultStack(live, script, delivery) == Returned(None) <==>
      live.None? &&
      var k := ResultLeading(script);
      k < |script| && (script[k].error.None? || (IsPermanent(script[k].error.value) && FailureCode(script[k].error.value) != "" && delivery.Acknowledged?))
  {
    var k := ResultLeading(script);
    if k < |script| && script[k].error.Some? && !IsPermanent(script[k].error.value) {
      ContextErrorsAreNotPermanent(script[k].contextAfter);
      ContextErrorsAreNotPermanent(script[k].wait);
    }
    hide IsPermanent, FailureCode;
  }

  lemma ContextErrorsAreNotPermanent(e: Option<ContextError>)
    ensures e.Some? ==> !IsPermanent(ErrorOf(e.value))
  {
    if e.Some? {
      FirstFinds(ErrorOf(e.value), IsResultFailure());
    }
  }

  // Every permanent failure of the writer has a code, so its dead letter can be built.
  lemma WriterFailuresAreBuildable(e: ResultCodec.ResultError, outcome: Outcome, cause: Chain)
    requires First(cause, IsResultFailure()).None?
    ensures IsPermanent(DecodeFailure(e)) <==> !e.NoExpectedTopic?
    ensures IsPermanent(DecodeFailure(e)) ==> FailureCode(DecodeFailure(e)) != ""
    ensures var failure := SaveFailure(outcome, cause);
      && (failure.Some? && IsPermanent(failure.value) <==> outcome == Conflict)
      && (failure.Some? && IsPermanent(failure.value) ==> FailureCode(failure.value) != "")
  {
    FirstFinds(DecodeFailure(e), IsResultFailure());
    assert cause == ([Opaque] + cause)[1..];
  }

  // The code of a refused result's dead letter names something that is wrong with it.
  lemma ResultCodeNamesTheFault(digest: Digest, topic: Text, message: Inbound<ResultCodec.ResultMessage>)
    requires topic != [] && ResultCodec.Decode(digest, topic, message).Err?
    ensures var cause := DecodeFailure(ResultCodec.Decode(digest, topic, message).error);
      && cause[0].ResultFailure?
      && match cause[0].code
         case "RESULT_TOPIC_UNEXPECTED" => message.topic != topic
         case "RESULT_MESSAGE_MALFORMED" => !message.body.Encoded?
         case "RESULT_KEY_MISMATCH" => message.body.Encoded? && message.key != message.body.message.objectID
         case "RESULT_JOB_ID_MISMATCH" =>
           message.body.Encoded? && exists jobID :: ResultCodec.WrongJob(digest, message.body.message, jobID)
         case "RESULT_RUN_ID_MISMATCH" =>
           message.body.Encoded? && Identity.GenerateRunID(digest, message.body.message.jobID) != Some(message.body.message.runID)
         case code => code == "RESULT_FIELD_INVALID"
  {
    hide ResultCodec.Decode, ResultCodec.WrongJob, Identity.GenerateRunID;
    ResultCodec.DecodeBlames(digest, topic, message);
  }
}
