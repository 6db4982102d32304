// internal/application/classification_worker_error.go.  An error is the tree of errors it
// wraps, several where it joins them, listed in the order in which errors.Is and errors.As
// visit it: each error before what it wraps, siblings from the left.
module WorkerErrors {
  import opened Wrappers

  datatype Class = Unspecified | Retryable | Permanent | Cancelled

  datatype Operation =
    DecodeCommand | PrepareInput | ResolveBundle | Classify | BuildRun | BuildResult | PublishResult
  | BuildCommandDLQ | PublishCommandDLQ | RetryWait

  datatype Sentinel =
    LightCurveRevisionNotFound | LightCurveRevisionNotReady | LightCurveSourceUnavailable
  | LightCurveRevisionInconsistent | LightCurveRevisionIdentityMismatch | LightCurveEpochCountMismatch
  | InsufficientLightCurveEpochs | TooManyLightCurveEpochs | InvalidObservationTime | InvalidMagnitude
  | InvalidMagnitudeError | DuplicateObservationTime
  | ModelBundleNotFound | ServingBundleNotFound
  | InvalidModelBundleMetadata | InvalidCompatibleCoarseResult | InvalidCoarseModeSelection
  | InvalidClassificationRunBuild | InvalidClassificationResultMessage
  | InvalidCoarseSourceMapping | ClassificationRunConflict

  datatype WorkerError = WorkerError(class_: Class, code: string, operation: Operation)

  datatype Link =
    | Opaque                                     // a wrapper, or an error nobody recognises
    | ContextCanceled
    | ContextDeadlineExceeded
    | Worker(error: WorkerError)
    | Declared(class_: Class, code: string)      // an adapter that states its own class
    | CommandFailure(code: string)               // PermanentClassificationCommandError
    | ResultFailure(code: string)                // PermanentClassificationResultError
    | Known(sentinel: Sentinel)
    | HTTPStatus(status: int)
    | Network

  type Chain = c: seq<Link> | c != [] witness [Opaque]

  // What a finished context reports.
  datatype ContextError = WasCanceled | DeadlinePassed

  function ErrorOf(e: ContextError): Chain {
    match e
    case WasCanceled => [ContextCanceled]
    case DeadlinePassed => [ContextDeadlineExceeded]
  }

  predicate Is(c: Chain, link: Link) {
    link in c
  }

  // errors.As: the first visited link of the wanted kind.
  function First(c: seq<Link>, wanted: Link -> bool): Option<Link> {
    if c == [] then None else if wanted(c[0]) then Some(c[0]) else First(c[1..], wanted)
  }

  function IsWorker(): Link -> bool { (l: Link) => l.Worker? }
  function IsDeclared(): Link -> bool { (l: Link) => l.Declared? }
  function IsCommandFailure(): Link -> bool { (l: Link) => l.CommandFailure? }
  function IsResultFailure(): Link -> bool { (l: Link) => l.ResultFailure? }
  function IsHTTPStatus(): Link -> bool { (l: Link) => l.HTTPStatus? }
  function IsNetwork(): Link -> bool { (l: Link) => l.Network? || l.ContextDeadlineExceeded? }

  lemma {:induction false} FirstFinds(c: seq<Link>, wanted: Link -> bool)
    ensures First(c, wanted).Some? <==> exists k :: 0 <= k < |c| && wanted(c[k])
    ensures First(c, wanted).Some? ==> wanted(First(c, wanted).value) && First(c, wanted).value in c
  {
    if c != [] && !wanted(c[0]) {
      FirstFinds(c[1..], wanted);
      assert forall k :: 0 <= k < |c[1..]| ==> c[1..][k] == c[k + 1];
      if k :| 0 <= k < |c| && wanted(c[k]) {
        assert c[1..][k - 1] == c[k];
      }
    }
  }

  predicate ContextEnded(c: Chain) {
    Is(c, ContextCanceled) || Is(c, ContextDeadlineExceeded)
  }

  function ClassifyStatus(status: int): (Class, string) {
    if status in {408, 425, 429, 500, 502, 503, 504} then (Retryable, "TRITON_UNAVAILABLE")
    else if 500 <= status <= 599 then (Retryable, "TRITON_UNAVAILABLE")
    else (Permanent, "TRITON_REQUEST_REJECTED")
  }

  function ClassifySentinel(s: Sentinel): Option<(Class, string)> {
    match s
    case LightCurveRevisionNotFound => Some((Permanent, "LIGHT_CURVE_NOT_FOUND"))
    case LightCurveRevisionNotReady => Some((Retryable, "LIGHT_CURVE_NOT_READY"))
    case LightCurveSourceUnavailable => Some((Retryable, "LIGHT_CURVE_UNAVAILABLE"))
    case ModelBundleNotFound | ServingBundleNotFound => Some((Permanent, "MODEL_BUNDLE_NOT_FOUND"))
    case InvalidModelBundleMetadata | InvalidCompatibleCoarseResult | InvalidCoarseModeSelection => Some((Permanent, "MODEL_BUNDLE_INVALID"))
    case InvalidClassificationRunBuild | InvalidClassificationResultMessage => Some((Permanent, "CLASSIFICATION_RESULT_INVALID"))
    case InvalidCoarseSourceMapping | ClassificationRunConflict => None
    case _ => Some((Permanent, "LIGHT_CURVE_INVALID"))
  }

  // The switch tests the sentinels in this order, whatever their order in the chain.
  const SENTINEL_ORDER: seq<Sentinel> :=
    [LightCurveRevisionNotFound, LightCurveRevisionNotReady, LightCurveSourceUnavailable] + PERMANENT_SENTINELS

  const PERMANENT_SENTINELS: seq<Sentinel> :=
    [LightCurveRevisionInconsistent, LightCurveRevisionIdentityMismatch, LightCurveEpochCountMismatch,
     InsufficientLightCurveEpochs, TooManyLightCurveEpochs, InvalidObservationTime, InvalidMagnitude,
     InvalidMagnitudeError, DuplicateObservationTime, ModelBundleNotFound, ServingBundleNotFound,
     InvalidModelBundleMetadata, InvalidCompatibleCoarseResult, InvalidCoarseModeSelection,
     InvalidClassificationRunBuild, InvalidClassificationResultMessage]

  function FirstSentinel(order: seq<Sentinel>, c: Chain): Option<(Class, string)> {
    if order == [] then None
    else if Is(c, Known(order[0])) then ClassifySentinel(order[0])
    else FirstSentinel(order[1..], c)
  }

  // Dependency failures are retried, failures of internal steps are not.
  function ByOperation(operation: Operation): (Class, string) {
    match operation
    case PrepareInput | ResolveBundle | Classify => (Retryable, "DEPENDENCY_UNAVAILABLE")
    case PublishResult => (Retryable, "RESULT_PUBLISH_FAILED")
    case PublishCommandDLQ => (Retryable, "COMMAND_DLQ_PUBLISH_FAILED")
    case BuildCommandDLQ => (Permanent, "COMMAND_DLQ_INVALID")
    case _ => (Permanent, "WORKER_INTERNAL_INVALID")
  }

  function ClassifyCause(operation: Operation, cause: Chain): (Class, string) {
    if ContextEnded(cause) then (Cancelled, "WORKER_CANCELLED")
    else
      match First(cause, IsDeclared())
      case Some(Declared(class_, code)) => (class_, code)
      case _ =>
        match First(cause, IsCommandFailure())
        case Some(CommandFailure(code)) => (Permanent, code)
        case _ =>
          match FirstSentinel(SENTINEL_ORDER, cause)
          case Some(known) => known
          case None =>
            match First(cause, IsHTTPStatus())
            case Some(HTTPStatus(status)) => ClassifyStatus(status)
            case _ =>
              if First(cause, IsNetwork()).Some? then (Retryable, "DEPENDENCY_UNAVAILABLE") else ByOperation(operation)
  }

  function Wrap(operation: Operation, cause: Chain): Chain {
    if First(cause, IsWorker()).Some? then cause
    else
      var (class_, code) := ClassifyCause(operation, cause);
      [Worker(WorkerError(class_, code, operation))] + cause
  }

  // The structured error that handlers look for.
  function Structured(c: Chain): Option<WorkerError> {
    match First(c, IsWorker())
    case Some(Worker(error)) => Some(error)
    case _ => None
  }

  predicate HasClass(c: Chain, class_: Class) {
    Structured(c).Some? && Structured(c).value.class_ == class_
  }

  // ---- properties ----

  // Wrapping always yields a structured error, keeps every cause visible, and never
  // reclassifies one that is already structured.
  lemma WrapStructures(operation: Operation, cause: Chain)
    ensures Structured(Wrap(operation, cause)).Some?
    ensures forall link :: link in cause ==> link in Wrap(operation, cause)
    ensures forall later: Operation :: Wrap(later, Wrap(operation, cause)) == Wrap(operation, cause)
    ensures Structured(cause).Some? ==> Structured(Wrap(operation, cause)) == Structured(cause)
  {
    hide ClassifyCause;
    FirstFinds(cause, IsWorker());
    FirstFinds(Wrap(operation, cause), IsWorker());
  }

  // The class that an adapter declared, if one did.
  function DeclaredClass(cause: Chain): Option<Class> {
    match First(cause, IsDeclared())
    case Some(Declared(class_, _)) => Some(class_)
    case _ => None
  }

  // A structured error keeps its class.  Any other reads as CANCELLED exactly when a
  // context ended, an expired deadline being enough, or an adapter declared that class.
  lemma CancelledExactly(operation: Operation, cause: Chain)
    ensures HasClass(Wrap(operation, cause), Cancelled) <==>
      if Structured(cause).Some? then Structured(cause).value.class_ == Cancelled
      else ContextEnded(cause) || DeclaredClass(cause) == Some(Cancelled)
  {
    hide FirstSentinel, First, Is;
    FirstFinds(cause, IsWorker());
    FirstFinds(cause, IsDeclared());
    FirstFinds(cause, IsCommandFailure());
    SentinelsAreNotCancelled(SENTINEL_ORDER, cause);
    WrappedClass(operation, cause, Cancelled);
  }

  // The class after wrapping: that of the structured error, or that of the cause.
  lemma WrappedClass(operation: Operation, cause: Chain, class_: Class)
    ensures HasClass(Wrap(operation, cause), class_) <==>
      if Structured(cause).Some? then Structured(cause).value.class_ == class_ else ClassifyCause(operation, cause).0 == class_
  {
    hide ClassifyCause;
    FirstFinds(cause, IsWorker());
    if First(cause, IsWorker()).None? {
      WrappedHead(operation, cause);
    }
  }

  lemma WrappedHead(operation: Operation, cause: Chain)
    requires First(cause, IsWorker()).None?
    ensures Structured(Wrap(operation, cause)) == Some(WorkerError(ClassifyCause(operation, cause).0, ClassifyCause(operation, cause).1, operation))
  {
    hide ClassifyCause;
  }

  lemma {:induction false} SentinelsAreNotCancelled(order: seq<Sentinel>, c: Chain)
    ensures FirstSentinel(order, c).Some? ==> FirstSentinel(order, c).value.0 in {Retryable, Permanent} && FirstSentinel(order, c).value.1 != ""
  {
    if order != [] && !Is(c, Known(order[0])) {
      SentinelsAreNotCancelled(order[1..], c);
    }
  }

  // In particular the context's own error.
  lemma ContextErrorsAreCancelled(operation: Operation, e: ContextError)
    ensures HasClass(Wrap(operation, ErrorOf(e)), Cancelled)
  {
    var cause := ErrorOf(e);
    FirstFinds(cause, IsWorker());
    WrappedHead(operation, cause);
  }

  // A deadline that expired inside a dependency reads as CANCELLED although nothing
  // cancelled the command's own context.
  lemma DeadlineReadsAsCancelled(operation: Operation, cause: Chain)
    requires Is(cause, ContextDeadlineExceeded) && !Is(cause, ContextCanceled)
    requires forall link :: link in cause ==> !link.Worker?
    ensures HasClass(Wrap(operation, cause), Cancelled)
  {
    FirstFinds(cause, IsWorker());
    WrappedHead(operation, cause);
  }

  // The dead-letter builder refuses empty codes; wrapping never produces one unless an
  // adapter or the command decoder supplied it.
  lemma CodesAreNotEmpty(operation: Operation, cause: Chain)
    requires forall link :: link in cause ==>
      !link.Worker? && (link.Declared? ==> link.code != "") && (link.CommandFailure? ==> link.code != "")
    ensures Structured(Wrap(operation, cause)).Some? && Structured(Wrap(operation, cause)).value.code != ""
  {
    FirstFinds(cause, IsWorker());
    FirstFinds(cause, IsDeclared());
    FirstFinds(cause, IsCommandFailure());
    SentinelsAreNotCancelled(SENTINEL_ORDER, cause);
    WrappedHead(operation, cause);
    hide FirstSentinel, First;
  }

  // ---- what is retried ----

  // A failure of the application that the classification knows.
  predicate Listed(cause: Chain) {
    exists s :: Known(s) in cause && ListedSentinel(s)
  }

  predicate ListedSentinel(s: Sentinel) {
    s != InvalidCoarseSourceMapping && s != ClassificationRunConflict
  }

  // A light curve that is late or unreachable, and not known to be missing.
  predicate LateLightCurve(cause: Chain) {
    && !Is(cause, Known(LightCurveRevisionNotFound))
    && (Is(cause, Known(LightCurveRevisionNotReady)) || Is(cause, Known(LightCurveSourceUnavailable)))
  }

  predicate RetriedStatus(status: int) {
    status in {408, 425, 429} || 500 <= status <= 599
  }

  predicate DependencyStep(operation: Operation) {
    operation in {PrepareInput, ResolveBundle, Classify, PublishResult, PublishCommandDLQ}
  }

  predicate HasNetwork(cause: Chain) {
    Is(cause, Network) || Is(cause, ContextDeadlineExceeded)
  }

  function FirstStatus(cause: Chain): Option<int> {
    match First(cause, IsHTTPStatus())
    case Some(HTTPStatus(status)) => Some(status)
    case _ => None
  }

  // Nothing decides before the sentinels: no structured error, no ended context, no
  // declared class, no command failure.
  predicate Undecided(cause: Chain) {
    && Structured(cause).None? && !ContextEnded(cause) && DeclaredClass(cause).None?
    && forall link :: link in cause ==> !link.CommandFailure?
  }

  // Wrapping makes an error retryable exactly when it was already, or an adapter said so,
  // or else the light curve is late, the status invites a retry, or the network or an
  // unnamed dependency failed; the earlier kind of failure wins.
  lemma RetriedExactly(operation: Operation, cause: Chain)
    ensures HasClass(Wrap(operation, cause), Retryable) <==>
      if Structured(cause).Some? then Structured(cause).value.class_ == Retryable
      else
        && !ContextEnded(cause)
        && if DeclaredClass(cause).Some? then DeclaredClass(cause).value == Retryable
           else
             && Undecided(cause)
             && if Listed(cause) then LateLightCurve(cause)
                else if FirstStatus(cause).Some? then RetriedStatus(FirstStatus(cause).value)
                else HasNetwork(cause) || DependencyStep(operation)
  {
    hide First, FirstSentinel, Listed, LateLightCurve, Is;
    WrappedClass(operation, cause, Retryable);
    FirstFinds(cause, IsWorker());
    FirstFinds(cause, IsDeclared());
    FirstFinds(cause, IsHTTPStatus());
    CommandFailures(cause);
    NetworkLinks(cause);
    SentinelsDecide(cause);
  }

  lemma CommandFailures(cause: Chain)
    ensures First(cause, IsCommandFailure()).Some? <==> exists link :: link in cause && link.CommandFailure?
    ensures First(cause, IsCommandFailure()).Some? ==> First(cause, IsCommandFailure()).value.CommandFailure?
  {
    hide First;
    FirstFinds(cause, IsCommandFailure());
  }

  lemma NetworkLinks(cause: Chain)
    ensures First(cause, IsNetwork()).Some? <==> HasNetwork(cause)
  {
    hide First;
    FirstFinds(cause, IsNetwork());
    if Is(cause, Network) {
      var k :| 0 <= k < |cause| && cause[k] == Network;
      assert IsNetwork()(cause[k]);
    }
    if Is(cause, ContextDeadlineExceeded) {
      var k :| 0 <= k < |cause| && cause[k] == ContextDeadlineExceeded;
      assert IsNetwork()(cause[k]);
    }
  }

  // The scan in order, as a fact about which sentinels are there.
  lemma SentinelsDecide(cause: Chain)
    ensures FirstSentinel(SENTINEL_ORDER, cause).Some? <==> Listed(cause)
    ensures FirstSentinel(SENTINEL_ORDER, cause).Some? ==>
      (FirstSentinel(SENTINEL_ORDER, cause).value.0 == Retryable <==> LateLightCurve(cause))
  {
    hide FirstSentinel, ClassifySentinel, PERMANENT_SENTINELS;
    var order := SENTINEL_ORDER;
    forall s
      ensures s in PERMANENT_SENTINELS <==> ClassifySentinel(s).Some? && ClassifySentinel(s).value.0 == Permanent && s != LightCurveRevisionNotFound
    {
      SentinelKinds(s);
    }
    SentinelKinds(LightCurveRevisionNotFound);
    SentinelKinds(LightCurveRevisionNotReady);
    SentinelKinds(LightCurveSourceUnavailable);
    SentinelKinds(InvalidCoarseSourceMapping);
    SentinelKinds(ClassificationRunConflict);
    ScanUnfolds(order, cause);
    assert order[1..][1..] == order[2..] && order[2..][1..] == PERMANENT_SENTINELS;
    ScanUnfolds(order[1..], cause);
    ScanUnfolds(order[2..], cause);
    ScanIsPermanent(PERMANENT_SENTINELS, cause);
    ScanFinds(PERMANENT_SENTINELS, cause);
    forall s
      ensures ListedSentinel(s) <==> s in order
    {
      SentinelKinds(s);
    }
  }

  lemma SentinelKinds(s: Sentinel)
    ensures s in PERMANENT_SENTINELS <==> ClassifySentinel(s).Some? && ClassifySentinel(s).value.0 == Permanent && s != LightCurveRevisionNotFound
    ensures ClassifySentinel(s).Some? <==> ListedSentinel(s)
    ensures ClassifySentinel(s).Some? ==>
      (ClassifySentinel(s).value.0 == Retryable <==> s == LightCurveRevisionNotReady || s == LightCurveSourceUnavailable)
      && ClassifySentinel(s).value.0 in {Retryable, Permanent}
  {
  }

  lemma ScanUnfolds(order: seq<Sentinel>, c: Chain)
    requires order != []
    ensures FirstSentinel(order, c) == if Is(c, Known(order[0])) then ClassifySentinel(order[0]) else FirstSentinel(order[1..], c)
  {
  }

  lemma {:induction false} ScanFinds(order: seq<Sentinel>, c: Chain)
    requires forall s :: s in order ==> ClassifySentinel(s).Some?
    ensures FirstSentinel(order, c).Some? <==> exists s :: s in order && Known(s) in c
  {
    if order != [] && !Is(c, Known(order[0])) {
      ScanFinds(order[1..], c);
    }
  }

  lemma {:induction false} ScanIsPermanent(order: seq<Sentinel>, c: Chain)
    requires forall s :: s in order ==> ClassifySentinel(s).Some? && ClassifySentinel(s).value.0 == Permanent
    ensures FirstSentinel(order, c).Some? ==> FirstSentinel(order, c).value.0 == Permanent
  {
    if order != [] && !Is(c, Known(order[0])) {
      ScanIsPermanent(order[1..], c);
    }
  }

  // And it makes an error permanent exactly when it was already, or an adapter said so, or
  // else a command failed to decode, a known failure is not a late light curve, the status
  // does not invite a retry, or an internal step failed for no known reason.
  lemma PermanentExactly(operation: Operation, cause: Chain)
    ensures HasClass(Wrap(operation, cause), Permanent) <==>
      if Structured(cause).Some? then Structured(cause).value.class_ == Permanent
      else
        && !ContextEnded(cause)
        && if DeclaredClass(cause).Some? then DeclaredClass(cause).value == Permanent
           else
             || (exists link :: link in cause && link.CommandFailure?)
             || (if Listed(cause) then !LateLightCurve(cause)
                 else if FirstStatus(cause).Some? then !RetriedStatus(FirstStatus(cause).value)
                 else !HasNetwork(cause) && !DependencyStep(operation))
  {
    hide First, FirstSentinel, Listed, LateLightCurve, Is;
    WrappedClass(operation, cause, Permanent);
    FirstFinds(cause, IsWorker());
    FirstFinds(cause, IsDeclared());
    FirstFinds(cause, IsHTTPStatus());
    CommandFailures(cause);
    NetworkLinks(cause);
    SentinelsDecide(cause);
    SentinelsAreNotCancelled(SENTINEL_ORDER, cause);
  }

  // Only an adapter can leave a class open.
  lemma UnspecifiedExactly(operation: Operation, cause: Chain)
    ensures HasClass(Wrap(operation, cause), Unspecified) <==>
      if Structured(cause).Some? then Structured(cause).value.class_ == Unspecified
      else !ContextEnded(cause) && DeclaredClass(cause) == Some(Unspecified)
  {
    hide First, Listed, LateLightCurve, Is, ContextEnded, FirstStatus, HasNetwork, Wrap;
    WrapStructures(operation, cause);
    CancelledExactly(operation, cause);
    RetriedExactly(operation, cause);
    PermanentExactly(operation, cause);
  }

  // ---- codes ----

  predicate AnyOf(c: Chain, sentinels: seq<Sentinel>) {
    exists s :: s in sentinels && Known(s) in c
  }

  lemma {:induction false} ScanSplits(a: seq<Sentinel>, b: seq<Sentinel>, c: Chain)
    requires forall s :: s in a ==> ClassifySentinel(s).Some?
    ensures FirstSentinel(a + b, c) == if FirstSentinel(a, c).Some? then FirstSentinel(a, c) else FirstSentinel(b, c)
  {
    if a == [] {
      assert a + b == b;
    } else {
      assert (a + b)[0] == a[0] && (a + b)[1..] == a[1..] + b;
      ScanSplits(a[1..], b, c);
    }
  }

  // Sentinels of one kind answer alike.
  lemma {:induction false} ScanKind(order: seq<Sentinel>, c: Chain, kind: (Class, string))
    requires forall s :: s in order ==> ClassifySentinel(s) == Some(kind)
    ensures FirstSentinel(order, c) == if AnyOf(c, order) then Some(kind) else None
  {
    if order != [] && !Is(c, Known(order[0])) {
      ScanKind(order[1..], c, kind);
      assert AnyOf(c, order) ==> AnyOf(c, order[1..]);
    }
  }

  const INVALID_LIGHT_CURVE: seq<Sentinel> :=
    [LightCurveRevisionInconsistent, LightCurveRevisionIdentityMismatch, LightCurveEpochCountMismatch,
     InsufficientLightCurveEpochs, TooManyLightCurveEpochs, InvalidObservationTime, InvalidMagnitude,
     InvalidMagnitudeError, DuplicateObservationTime]

  // The code of a known failure: the first of these kinds that it wraps.
  function KnownCode(cause: Chain): string {
    if Is(cause, Known(LightCurveRevisionNotFound)) then "LIGHT_CURVE_NOT_FOUND"
    else if Is(cause, Known(LightCurveRevisionNotReady)) then "LIGHT_CURVE_NOT_READY"
    else if Is(cause, Known(LightCurveSourceUnavailable)) then "LIGHT_CURVE_UNAVAILABLE"
    else if AnyOf(cause, INVALID_LIGHT_CURVE) then "LIGHT_CURVE_INVALID"
    else if AnyOf(cause, [ModelBundleNotFound, ServingBundleNotFound]) then "MODEL_BUNDLE_NOT_FOUND"
    else if AnyOf(cause, [InvalidModelBundleMetadata, InvalidCompatibleCoarseResult, InvalidCoarseModeSelection]) then "MODEL_BUNDLE_INVALID"
    else "CLASSIFICATION_RESULT_INVALID"
  }

  lemma ScanCode(cause: Chain)
    ensures FirstSentinel(SENTINEL_ORDER, cause).Some? ==> FirstSentinel(SENTINEL_ORDER, cause).value.1 == KnownCode(cause)
  {
    hide FirstSentinel, AnyOf, Is;
    var bundle, invalid, result :=
      [ModelBundleNotFound, ServingBundleNotFound], [InvalidModelBundleMetadata, InvalidCompatibleCoarseResult, InvalidCoarseModeSelection],
      [InvalidClassificationRunBuild, InvalidClassificationResultMessage];
    ScanKind([LightCurveRevisionNotFound], cause, (Permanent, "LIGHT_CURVE_NOT_FOUND"));
    ScanKind([LightCurveRevisionNotReady], cause, (Retryable, "LIGHT_CURVE_NOT_READY"));
    ScanKind([LightCurveSourceUnavailable], cause, (Retryable, "LIGHT_CURVE_UNAVAILABLE"));
    ScanKind(INVALID_LIGHT_CURVE, cause, (Permanent, "LIGHT_CURVE_INVALID"));
    ScanKind(bundle, cause, (Permanent, "MODEL_BUNDLE_NOT_FOUND"));
    ScanKind(invalid, cause, (Permanent, "MODEL_BUNDLE_INVALID"));
    ScanKind(result, cause, (Permanent, "CLASSIFICATION_RESULT_INVALID"));
    ScanSplits([LightCurveRevisionNotFound], [LightCurveRevisionNotReady] + ([LightCurveSourceUnavailable] + (INVALID_LIGHT_CURVE + (bundle + (invalid + result)))), cause);
    ScanSplits([LightCurveRevisionNotReady], [LightCurveSourceUnavailable] + (INVALID_LIGHT_CURVE + (bundle + (invalid + result))), cause);
    ScanSplits([LightCurveSourceUnavailable], INVALID_LIGHT_CURVE + (bundle + (invalid + result)), cause);
    ScanSplits(INVALID_LIGHT_CURVE, bundle + (invalid + result), cause);
    ScanSplits(bundle, invalid + result, cause);
    ScanSplits(invalid, result, cause);
    OneSentinel(cause);
    assert SENTINEL_ORDER == [LightCurveRevisionNotFound] + ([LightCurveRevisionNotReady] + ([LightCurveSourceUnavailable]
      + (INVALID_LIGHT_CURVE + (bundle + (invalid + result)))));
  }

  lemma OneSentinel(cause: Chain)
    ensures forall s :: AnyOf(cause, [s]) <==> Is(cause, Known(s))
  {
    forall s
      ensures AnyOf(cause, [s]) <==> Is(cause, Known(s))
    {
      assert s in [s];
    }
  }

  // The code of every error that no structured error, ended context, adapter or command
  // failure decides.
  lemma CodesExactly(operation: Operation, cause: Chain)
    requires Undecided(cause)
    ensures Structured(Wrap(operation, cause)).Some? && Structured(Wrap(operation, cause)).value.operation == operation
    ensures Structured(Wrap(operation, cause)).value.code ==
      if Listed(cause) then KnownCode(cause)
      else if FirstStatus(cause).Some? then if RetriedStatus(FirstStatus(cause).value) then "TRITON_UNAVAILABLE" else "TRITON_REQUEST_REJECTED"
      else if HasNetwork(cause) || operation in {PrepareInput, ResolveBundle, Classify} then "DEPENDENCY_UNAVAILABLE"
      else if operation == PublishResult then "RESULT_PUBLISH_FAILED"
      else if operation == PublishCommandDLQ then "COMMAND_DLQ_PUBLISH_FAILED"
      else if operation == BuildCommandDLQ then "COMMAND_DLQ_INVALID"
      else "WORKER_INTERNAL_INVALID"
  {
    hide First, FirstSentinel, Listed, LateLightCurve, Is, KnownCode;
    FirstFinds(cause, IsWorker());
    FirstFinds(cause, IsDeclared());
    FirstFinds(cause, IsHTTPStatus());
    CommandFailures(cause);
    NetworkLinks(cause);
    SentinelsDecide(cause);
    ScanCode(cause);
    WrappedHead(operation, cause);
  }

  // A command failure keeps its own code, and every structured error names its step.
  lemma CommandFailureKeepsCode(operation: Operation, cause: Chain, code: string)
    requires Structured(cause).None? && !ContextEnded(cause) && DeclaredClass(cause).None?
    requires First(cause, IsCommandFailure()) == Some(CommandFailure(code))
    ensures Structured(Wrap(operation, cause)) == Some(WorkerError(Permanent, code, operation))
  {
    hide First, FirstSentinel;
    FirstFinds(cause, IsWorker());
    FirstFinds(cause, IsDeclared());
    FirstFinds(cause, IsCommandFailure());
    WrappedHead(operation, cause);
  }

  // However deeply it is wrapped, the outermost HTTP status decides alone, unless an
  // earlier kind of failure is in the chain.
  lemma RetriedStatuses(operation: Operation, cause: Chain)
    requires Undecided(cause) && !Listed(cause) && FirstStatus(cause).Some?
    ensures HasClass(Wrap(operation, cause), Retryable) <==> RetriedStatus(FirstStatus(cause).value)
  {
    hide Wrap, HasClass, ContextEnded, Listed, LateLightCurve, FirstStatus, HasNetwork;
    RetriedExactly(operation, cause);
  }

  // A known failure is retried only for light curves that are late or unreachable, and
  // what nobody can name only in a dependency step.
  lemma RetriedFailures(operation: Operation, cause: Chain)
    requires Undecided(cause)
    ensures Listed(cause) ==> (HasClass(Wrap(operation, cause), Retryable) <==> LateLightCurve(cause))
    ensures !Listed(cause) && FirstStatus(cause).None? && !HasNetwork(cause) ==>
      (HasClass(Wrap(operation, cause), Retryable) <==> DependencyStep(operation))
  {
    hide Wrap, HasClass, ContextEnded, Listed, LateLightCurve, FirstStatus, HasNetwork;
    RetriedExactly(operation, cause);
  }

  // An unreachable light curve is not retried when its request ran into a deadline: the
  // adapter joins both causes, and the deadline wins.
  lemma TimedOutSourceIsCancelled(operation: Operation, cause: Chain)
    requires Structured(cause).None? && Is(cause, Known(LightCurveSourceUnavailable)) && Is(cause, ContextDeadlineExceeded)
    ensures HasClass(Wrap(operation, cause), Cancelled) && !HasClass(Wrap(operation, cause), Retryable)
  {
    hide Wrap, First;
    CancelledExactly(operation, cause);
  }
}
