// The command side: DLQ(Retry(Worker)) of classification_command_dlq_handler.go,
// classification_command_retry_handler.go and classification_worker.go.  What the
// wrapped handler answers is a script of any length; a script that runs out leaves the
// handler still retrying.
module CommandHandlers {
  import opened Bytes
  import CommandCodec
  import opened Messages
  import opened RetryObserver
  import opened Uuid
  import opened WorkerErrors
  import opened Wrappers

  // ---- publishing ----

  // An acknowledged send, or an error after which the message may be there or not.
  datatype Delivery = Acknowledged | Unacknowledged(error: Chain, applied: bool)

  class Publisher<M> {
    var sent: seq<M>
    var calls: nat

    constructor ()
      ensures sent == [] && calls == 0
    {
      sent, calls := [], 0;
    }

    method Publish(message: M, delivery: Delivery) returns (error: Option<Chain>)
      modifies this
      ensures calls == old(calls) + 1
      ensures sent == if delivery.Acknowledged? || delivery.applied then old(sent) + [message] else old(sent)
      ensures error == if delivery.Acknowledged? then None else Some(delivery.error)
    {
      calls := calls + 1;
      if delivery.Acknowledged? || delivery.applied {
        sent := sent + [message];
      }
      return if delivery.Acknowledged? then None else Some(delivery.error);
    }
  }

  // ---- the worker ----

  // The decoder's error.  A missing topic is the deployment's fault, not the message's.
  function CommandDecodeFailure(e: CommandCodec.CommandError): Chain {
    match e
    case NoExpectedTopic => [Opaque]
    case UnexpectedTopic => [CommandFailure("COMMAND_TOPIC_UNEXPECTED"), Opaque]
    case MissingKey => [CommandFailure("COMMAND_KEY_MISSING"), Opaque]
    case MalformedProto => [CommandFailure("COMMAND_PROTO_MALFORMED"), Opaque]
    case InvalidField(_) => [CommandFailure("COMMAND_FIELD_INVALID"), Opaque]
    case UnsupportedExecutionMode => [CommandFailure("COMMAND_EXECUTION_MODE_UNSUPPORTED"), Opaque]
    case UnsupportedPriority => [CommandFailure("COMMAND_PRIORITY_UNSUPPORTED"), Opaque]
    case UnsupportedDeadline => [CommandFailure("COMMAND_DEADLINE_UNSUPPORTED"), Opaque]
    case KeyMismatch => [CommandFailure("COMMAND_KEY_MISMATCH"), Opaque]
    case JobIDMismatch => [CommandFailure("COMMAND_JOB_ID_MISMATCH"), Opaque]
  }

  // The error of each stage, if it fails.
  datatype Stages = Stages(
    decode: Option<Chain>,
    prepare: Option<Chain>,
    resolve: Option<Chain>,
    classify: Option<Chain>,
    contextAfter: Option<ContextError>,
    buildRun: Option<Chain>,
    buildResult: Option<Chain>,
    publish: Delivery)

  function DeliveryError(d: Delivery): Option<Chain> {
    if d.Acknowledged? then None else Some(d.error)
  }

  function ContextFailure(e: Option<ContextError>): Option<Chain> {
    if e.None? then None else Some(ErrorOf(e.value))
  }

  function StageList(s: Stages): seq<(Operation, Option<Chain>)> {
    [(DecodeCommand, s.decode), (PrepareInput, s.prepare), (ResolveBundle, s.resolve), (Classify, s.classify),
     (Classify, ContextFailure(s.contextAfter)), (BuildRun, s.buildRun), (BuildResult, s.buildResult), (PublishResult, DeliveryError(s.publish))]
  }

  function FirstFailure(stages: seq<(Operation, Option<Chain>)>): Option<Chain> {
    if stages == [] then None
    else if stages[0].1.Some? then Some(Wrap(stages[0].0, stages[0].1.value))
    else FirstFailure(stages[1..])
  }

  predicate ReachesPublish(s: Stages) {
    s.decode.None? && s.prepare.None? && s.resolve.None? && s.classify.None? && s.contextAfter.None? && s.buildRun.None? && s.buildResult.None?
  }

  // One attempt: the result is published only after every earlier stage succeeded, and
  // nil comes back exactly when that publication was acknowledged.
  method HandleCommand<M>(live: Option<ContextError>, stages: Stages, publisher: Publisher<M>, result: M) returns (error: Option<Chain>)
    modifies publisher
    ensures live.Some? ==> error == ContextFailure(live) && publisher.calls == old(publisher.calls) && publisher.sent == old(publisher.sent)
    ensures live.None? ==> error == FirstFailure(StageList(stages))
    ensures live.None? ==> publisher.calls == old(publisher.calls) + if ReachesPublish(stages) then 1 else 0
    ensures error.None? <==> live.None? && ReachesPublish(stages) && stages.publish.Acknowledged?
    ensures error.None? ==> publisher.sent == old(publisher.sent) + [result]
    ensures !ReachesPublish(stages) ==> publisher.sent == old(publisher.sent)
  {
    if live.Some? {
      return ContextFailure(live);
    }
    ghost var list := StageList(stages);
    FailureAt(list, if stages.decode.Some? then 0 else if stages.prepare.Some? then 1 else if stages.resolve.Some? then 2
                    else if stages.classify.Some? then 3 else if stages.contextAfter.Some? then 4 else if stages.buildRun.Some? then 5
                    else if stages.buildResult.Some? then 6 else 7);
    if stages.decode.Some? {
      return Some(Wrap(DecodeCommand, stages.decode.value));
    }
    if stages.prepare.Some? {
      return Some(Wrap(PrepareInput, stages.prepare.value));
    }
    if stages.resolve.Some? {
      return Some(Wrap(ResolveBundle, stages.resolve.value));
    }
    if stages.classify.Some? {
      return Some(Wrap(Classify, stages.classify.value));
    }
    if stages.contextAfter.Some? {
      return Some(Wrap(Classify, ErrorOf(stages.contextAfter.value)));
    }
    if stages.buildRun.Some? {
      return Some(Wrap(BuildRun, stages.buildRun.value));
    }
    if stages.buildResult.Some? {
      return Some(Wrap(BuildResult, stages.buildResult.value));
    }
    var publishError := publisher.Publish(result, stages.publish);
    if publishError.Some? {
      return Some(Wrap(PublishResult, publishError.value));
    }
    return None;
  }

  lemma {:induction false} FailureAt(list: seq<(Operation, Option<Chain>)>, k: nat)
    requires k < |list| && forall j :: 0 <= j < k ==> list[j].1.None?
    ensures list[k].1.Some? ==> FirstFailure(list) == Some(Wrap(list[k].0, list[k].1.value))
    ensures list[k].1.None? && k == |list| - 1 ==> FirstFailure(list) == None
  {
    if k > 0 {
      FailureAt(list[1..], k - 1);
    }
  }

  // Every failure of an attempt on a live context is structured, so only its class
  // decides what happens next.
  lemma FailuresAreStructured(list: seq<(Operation, Option<Chain>)>)
    ensures FirstFailure(list).Some? ==> Structured(FirstFailure(list).value).Some?
  {
    if list != [] {
      if list[0].1.Some? {
        WrapStructures(list[0].0, list[0].1.value);
      } else {
        FailuresAreStructured(list[1..]);
      }
    }
  }

  // ---- retrying ----

  // What the wrapped handler answers, and whether a wait after it is cut short.
  datatype Turn = Turn(error: Option<Chain>, wait: Option<ContextError>)

  datatype HandleResult = Returned(error: Option<Chain>) | StillRetrying

  predicate IsRetryable(t: Turn) {
    t.error.Some? && HasClass(t.error.value, Retryable)
  }

  predicate WillRetry(t: Turn) {
    IsRetryable(t) && t.wait.None?
  }

  // How many attempts at the start of the script are followed by another one.
  function Leading(script: seq<Turn>): (k: nat)
    ensures k <= |script|
    ensures forall j :: 0 <= j < k ==> WillRetry(script[j])
    ensures k < |script| ==> !WillRetry(script[k])
  {
    if script == [] || !WillRetry(script[0]) then 0 else 1 + Leading(script[1..])
  }

  lemma {:induction false} LeadingUnique(script: seq<Turn>, k: nat)
    requires k <= |script| && (forall j :: 0 <= j < k ==> WillRetry(script[j])) && (k < |script| ==> !WillRetry(script[k]))
    ensures Leading(script) == k
  {
    if k > 0 {
      LeadingUnique(script[1..], k - 1);
    }
  }

  // What the retry handler makes of the attempt that ends the loop.
  function Final(t: Turn): Option<Chain> {
    if IsRetryable(t) && t.wait.Some? then Some(Wrap(RetryWait, ErrorOf(t.wait.value))) else t.error
  }

  function DelayAt(delays: seq<nat>, j: nat): nat
    requires delays != []
  {
    if j < |delays| then delays[j] else delays[|delays| - 1]
  }

  function RetryResult(script: seq<Turn>): HandleResult {
    var k := Leading(script);
    if k == |script| then StillRetrying else Returned(Final(script[k]))
  }

  // The waits: one after every retryable attempt, by position in the delay list, the
  // last delay repeating.
  predicate WaitsFollow(waits: seq<nat>, delays: seq<nat>)
    requires delays != []
  {
    forall j :: 0 <= j < |waits| ==>
      && (j < |delays| ==> waits[j] == delays[j])
      && (j >= |delays| ==> waits[j] == delays[|delays| - 1])
  }

  method HandleWithRetry(live: Option<ContextError>, script: seq<Turn>, delays: seq<nat>, observer: Observer, now: int)
      returns (result: HandleResult, calls: nat, waits: seq<nat>)
    requires delays != []
    modifies observer
    ensures live.Some? ==> result == Returned(ContextFailure(live)) && calls == 0 && waits == [] && observer.State() == old(observer.State())
    ensures live.None? ==> result == RetryResult(script)
    ensures live.None? ==> var k := Leading(script);
      && calls == (if k < |script| then k + 1 else k)
      && |waits| == (if k < |script| && IsRetryable(script[k]) then k + 1 else k)
      && WaitsFollow(waits, delays)
      && observer.State().attempts == old(observer.State()).attempts + (if calls > 0 then calls - 1 else 0)
    ensures result.Returned? ==> observer.State().retrying == old(observer.State()).retrying
    ensures result.StillRetrying? ==> observer.State().retrying == old(observer.State()).retrying + (if script == [] then 0 else 1)
  {
    if live.Some? {
      return Returned(ContextFailure(live)), 0, [];
    }
    var retrying := false;
    calls, waits := 0, [];
    while calls < |script|
      invariant calls <= |script| && |waits| == calls && WaitsFollow(waits, delays)
      invariant forall j :: 0 <= j < calls ==> WillRetry(script[j])
      invariant retrying <==> calls > 0
      invariant observer.State().retrying == old(observer.State()).retrying + if retrying then 1 else 0
      invariant observer.State().attempts == old(observer.State()).attempts + if calls > 0 then calls - 1 else 0
    {
      if calls > 0 {
        observer.RetryAttempted();
      }
      var turn := script[calls];
      calls := calls + 1;
      if turn.error.None? || !HasClass(turn.error.value, Retryable) {
        LeadingUnique(script, calls - 1);
        if retrying {
          observer.RetryFinished();
        }
        return Returned(turn.error), calls, waits;
      }
      if !retrying {
        observer.RetryStarted(now);
        retrying := true;
      }
      waits := waits + [DelayAt(delays, calls - 1)];
      if turn.wait.Some? {
        LeadingUnique(script, calls - 1);
        observer.RetryFinished();
        return Returned(Some(Wrap(RetryWait, ErrorOf(turn.wait.value)))), calls, waits;
      }
    }
    LeadingUnique(script, |script|);
    return StillRetrying, calls, waits;
  }

  // ---- dead letters ----

  predicate Buildable(error: WorkerError) {
    error.class_ == Permanent && error.code != ""
  }

  function DeadLetterResult(next: HandleResult, delivery: Delivery): HandleResult {
    if next.StillRetrying? || next.error.None? || !HasClass(next.error.value, Permanent) then next
    else if !Buildable(Structured(next.error.value).value) then Returned(Some(Wrap(BuildCommandDLQ, [Opaque])))
    else if delivery.Acknowledged? then Returned(None)
    else Returned(Some(Wrap(PublishCommandDLQ, delivery.error)))
  }

  // At most one dead letter, and only for a permanent failure.
  method HandleDeadLetter<M>(next: HandleResult, delivery: Delivery, publisher: Publisher<M>, original: M) returns (result: HandleResult)
    modifies publisher
    ensures result == DeadLetterResult(next, delivery)
    ensures publisher.calls <= old(publisher.calls) + 1
    ensures publisher.calls > old(publisher.calls) <==>
      next.Returned? && next.error.Some? && HasClass(next.error.value, Permanent) && Buildable(Structured(next.error.value).value)
    ensures publisher.sent == old(publisher.sent) || publisher.sent == old(publisher.sent) + [original]
    ensures result == Returned(None) && next != Returned(None) ==> publisher.sent == old(publisher.sent) + [original]
  {
    if next.StillRetrying? || next.error.None? {
      return next;
    }
    var workerError := Structured(next.error.value);
    if workerError.None? || workerError.value.class_ != Permanent {
      return next;
    }
    if workerError.value.code == "" {
      return Returned(Some(Wrap(BuildCommandDLQ, [Opaque])));
    }
    var publishError := publisher.Publish(original, delivery);
    if publishError.Some? {
      return Returned(Some(Wrap(PublishCommandDLQ, publishError.value)));
    }
    return Returned(None);
  }

  // ---- the stack ----

  function StackResult(live: Option<ContextError>, script: seq<Turn>, delivery: Delivery): HandleResult {
    if live.Some? then Returned(ContextFailure(live)) else DeadLetterResult(RetryResult(script), delivery)
  }

  // The whole stack returns nil exactly when the attempt that ended the retries
  // succeeded, or failed permanently with its dead letter acknowledged.
  lemma StackNil(live: Option<ContextError>, script: seq<Turn>, delivery: Delivery)
    ensures StackResult(live, script, delivery) == Returned(None) <==>
      live.None? &&
      var k := Leading(script);
      k < |script| &&
      (script[k].error.None? ||
       (HasClass(script[k].error.value, Permanent) && Structured(script[k].error.value).value.code != "" && delivery.Acknowledged?))
  {
    hide Wrap, Structured;
    var k := Leading(script);
    if k < |script| && IsRetryable(script[k]) {
      ContextErrorsAreCancelled(RetryWait, script[k].wait.value);
    }
  }

  lemma DecodeFailuresArePermanent(e: CommandCodec.CommandError)
    ensures var error := Structured(Wrap(DecodeCommand, CommandDecodeFailure(e)));
      && error.Some? && Buildable(error.value) && error.value.operation == DecodeCommand
      && (!e.NoExpectedTopic? ==> CommandDecodeFailure(e)[0] == CommandFailure(error.value.code))
  {
    hide ClassifyStatus, ByOperation, FirstSentinel;
    var cause := CommandDecodeFailure(e);
    FirstFinds(cause, IsWorker());
    FirstFinds(cause, IsDeclared());
    if e.NoExpectedTopic? {
      InternalFailure();
    } else {
      CommandFailureKeepsCode(DecodeCommand, cause, cause[0].code);
    }
  }

  lemma InternalFailure()
    ensures Structured(Wrap(DecodeCommand, [Opaque])) == Some(WorkerError(Permanent, "WORKER_INTERNAL_INVALID", DecodeCommand))
  {
    hide FirstSentinel, First;
    var cause: Chain := [Opaque];
    FirstFinds(cause, IsWorker());
    FirstFinds(cause, IsDeclared());
    FirstFinds(cause, IsHTTPStatus());
    FirstFinds(cause, IsNetwork());
    FirstFinds(cause, IsCommandFailure());
    SentinelsDecide(cause);
    WrappedHead(DecodeCommand, cause);
  }

  // A command that the decoder refuses is never retried: the stack returns nil exactly when
  // its dead letter is acknowledged, whatever would have come next.
  lemma RefusedCommandsAreDeadLettered(stages: Stages, e: CommandCodec.CommandError, wait: Option<ContextError>, rest: seq<Turn>, delivery: Delivery)
    requires stages.decode == Some(CommandDecodeFailure(e))
    ensures var turn := Turn(FirstFailure(StageList(stages)), wait);
      && Leading([turn] + rest) == 0 && !ReachesPublish(stages)
      && (StackResult(None, [turn] + rest, delivery) == Returned(None) <==> delivery.Acknowledged?)
  {
    hide Wrap, Structured;
    DecodeFailuresArePermanent(e);
    FailureAt(StageList(stages), 0);
    StackNil(None, [Turn(FirstFailure(StageList(stages)), wait)] + rest, delivery);
  }

  // The code of a refused command's dead letter names something that is wrong with it.
  lemma CommandCodeNamesTheFault(digest: Digest, topic: Text, message: Inbound<CommandCodec.CommandMessage>)
    requires topic != [] && CommandCodec.Decode(digest, topic, message).Err?
    ensures var cause := CommandDecodeFailure(CommandCodec.Decode(digest, topic, message).error);
      && cause[0].CommandFailure?
      && match cause[0].code
         case "COMMAND_TOPIC_UNEXPECTED" => message.topic != topic
         case "COMMAND_KEY_MISSING" => message.key == []
         case "COMMAND_PROTO_MALFORMED" => !message.body.Encoded?
         case "COMMAND_EXECUTION_MODE_UNSUPPORTED" => message.body.Encoded? && message.body.message.executionMode !in {1, 2, 3}
         case "COMMAND_PRIORITY_UNSUPPORTED" => message.body.Encoded? && message.body.message.priority != 1
         case "COMMAND_DEADLINE_UNSUPPORTED" => message.body.Encoded? && message.body.message.deadlineAt.Some?
         case "COMMAND_KEY_MISMATCH" => message.body.Encoded? && message.key != message.body.message.objectID
         case "COMMAND_JOB_ID_MISMATCH" => message.body.Encoded?
         case code => code == "COMMAND_FIELD_INVALID" && message.body.Encoded?
  {
    hide CommandCodec.Decode;
    CommandCodec.DecodeBlames(digest, topic, message);
  }
}
