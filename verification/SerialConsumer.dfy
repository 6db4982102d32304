// The serial runner: internal/adapter/kafka/consumer_rebalance_yield.go with the
// handle-then-commit processor of record_processor.go.  One record per poll, and
// the commit comes before the yield check.
module SerialConsumer {
  import opened KafkaTypes
  import opened ConsumerGroup
  import RebalanceYield

  datatype EndReason = Stopped | ClientClosed | FetchFailed | Yielded | HandlerFailed | Crashed

  datatype Phase =
    | Ready
    | Captured
    | Polled(record: Record, base: nat)
    | Handling(record: Record, base: nat)
    | Handled(record: Record, base: nat)                // the handler returned nil, the commit is next
    | Returned(record: Record, base: nat, ok: bool, applied: bool) // the processor returned; was the commit applied?
    | Confirmed(record: Record)                         // success, first yield check passed
    | Ended(reason: EndReason)
  {
    predicate InWindow() { !Ready? && !Captured? && !Ended? }
    predicate Bound() { Handling? || Handled? || Returned? || Confirmed? }
  }

  datatype Session = Session(phase: Phase, signal: RebalanceYield.State, positions: map<PartitionKey, nat>, runCancelled: bool)

  datatype System = System(broker: Broker, sessions: map<Member, Session>)

  const FreshSession := Session(Ready, RebalanceYield.Initial, map[], false)

  ghost predicate Init(s: System) {
    && BrokerInit(s.broker)
    && forall m :: m in s.sessions ==> s.sessions[m] == FreshSession.(phase := Ended(Stopped))
  }

  datatype Step =
    | ProducerAppend(record: Record)
    | AssignPartition(m: Member, p: PartitionKey)
    | RevokePartition(p: PartitionKey)
    | Evict(m: Member)
    | Crash(m: Member)
    | StartSession(m: Member)
    | CancelRun(m: Member)
    | RequestLock(m: Member)
    | RequestCancel(m: Member, context: nat)
    | StopAtTop(m: Member)
    | CaptureGeneration(m: Member)
    | PollEmpty(m: Member)
    | PollEnds(m: Member, reason: EndReason)
    | Poll(m: Member, record: Record)
    | BindRecord(m: Member)
    | HandlerReturn(m: Member, ok: bool)
    | CommitRecord(m: Member, applied: bool, ok: bool)
    | CheckResult(m: Member)   // first RequestedSince, then the processor's error
    | CheckAgain(m: Member)    // second RequestedSince, release, AllowRebalance

  // The next logged record at or after the position, with nothing skipped.
  ghost predicate NextInLog(log: set<Record>, from: nat, r: Record) {
    && r in log && from <= r.offset
    && (forall q :: q in log && q.Home() == r.Home() && from <= q.offset ==> r.offset <= q.offset)
  }

  ghost predicate Enabled(s: System, step: Step) {
    match step
    case ProducerAppend(r) => CanAppend(s.broker, r)
    case AssignPartition(m, p) =>
      && m in s.sessions && (s.sessions[m].phase.Ready? || s.sessions[m].phase.Captured?)
      && p in s.broker.high && p !in s.broker.owner
    case RevokePartition(p) =>
      p in s.broker.owner && s.broker.owner[p] in s.sessions && !s.sessions[s.broker.owner[p]].phase.InWindow()
    case Evict(m) => m in s.sessions
    case Crash(m) => m in s.sessions
    case StartSession(m) => m in s.sessions && s.sessions[m].phase.Ended?
    case CancelRun(m) => m in s.sessions
    case RequestLock(m) => m in s.sessions
    case RequestCancel(m, c) => m in s.sessions && c in s.sessions[m].signal.pending
    case StopAtTop(m) => m in s.sessions && s.sessions[m].phase.Ready? && s.sessions[m].runCancelled
    case CaptureGeneration(m) => m in s.sessions && s.sessions[m].phase.Ready? && !s.sessions[m].runCancelled
    case PollEmpty(m) => m in s.sessions && s.sessions[m].phase.Captured? && !s.sessions[m].runCancelled
    case PollEnds(m, reason) =>
      && m in s.sessions && s.sessions[m].phase.Captured?
      && if s.sessions[m].runCancelled then reason == Stopped else reason == ClientClosed || reason == FetchFailed
    case Poll(m, r) =>
      && m in s.sessions && s.sessions[m].phase.Captured? && !s.sessions[m].runCancelled
      && r.Home() in s.broker.owner && s.broker.owner[r.Home()] == m && r.Home() in s.sessions[m].positions
      && NextInLog(s.broker.log, s.sessions[m].positions[r.Home()], r)
    case BindRecord(m) => m in s.sessions && s.sessions[m].phase.Polled?
    case HandlerReturn(m, _) => m in s.sessions && s.sessions[m].phase.Handling?
    case CommitRecord(m, applied, ok) =>
      && m in s.sessions && s.sessions[m].phase.Handled? && (ok ==> applied)
      && (applied ==> var p := s.sessions[m].phase.record.Home(); p in s.broker.owner && s.broker.owner[p] == m)
    case CheckResult(m) => m in s.sessions && s.sessions[m].phase.Returned?
    case CheckAgain(m) => m in s.sessions && s.sessions[m].phase.Confirmed?
  }

  function Release(session: Session, phase: Phase): Session {
    session.(phase := phase, signal := RebalanceYield.Apply(session.signal, RebalanceYield.Release))
  }

  function Put(s: System, m: Member, session: Session): System {
    s.(sessions := s.sessions[m := session])
  }

  ghost function Apply(s: System, step: Step): System
    requires Enabled(s, step)
  {
    var b := s.broker;
    match step
    case ProducerAppend(r) => s.(broker := Append(b, r))
    case AssignPartition(m, p) =>
      var session := s.sessions[m];
      var at := if p in b.committed then b.committed[p] else 0;
      Put(s, m, session.(positions := session.positions[p := at])).(broker := Assign(b, p, m))
    case RevokePartition(p) => s.(broker := Unassign(b, p))
    case Evict(m) => s.(broker := UnassignAll(b, m))
    case Crash(m) => Put(s, m, FreshSession.(phase := Ended(Crashed))).(broker := UnassignAll(b, m))
    case StartSession(m) => Put(s, m, FreshSession).(broker := UnassignAll(b, m))
    case CancelRun(m) => Put(s, m, s.sessions[m].(runCancelled := true))
    case RequestLock(m) => Put(s, m, s.sessions[m].(signal := RebalanceYield.Apply(s.sessions[m].signal, RebalanceYield.RequestLock)))
    case RequestCancel(m, c) => Put(s, m, s.sessions[m].(signal := RebalanceYield.Apply(s.sessions[m].signal, RebalanceYield.RequestCancel(c))))
    case StopAtTop(m) => Put(s, m, s.sessions[m].(phase := Ended(Stopped)))
    case CaptureGeneration(m) =>
      Put(s, m, s.sessions[m].(phase := Captured, signal := RebalanceYield.Apply(s.sessions[m].signal, RebalanceYield.Capture)))
    case PollEmpty(m) => Put(s, m, s.sessions[m].(phase := Ready))
    case PollEnds(m, reason) => Put(s, m, s.sessions[m].(phase := Ended(reason)))
    case Poll(m, r) =>
      var session := s.sessions[m];
      Put(s, m, session.(phase := Polled(r, session.positions[r.Home()]), positions := session.positions[r.Home() := r.offset + 1]))
    case BindRecord(m) =>
      var session := s.sessions[m];
      Put(s, m, session.(phase := Handling(session.phase.record, session.phase.base),
                         signal := RebalanceYield.Apply(session.signal, RebalanceYield.Bind)))
    case HandlerReturn(m, ok) =>
      var session := s.sessions[m];
      var r := session.phase.record;
      if ok then Put(s, m, session.(phase := Handled(r, session.phase.base))).(broker := Handle(b, r))
      else Put(s, m, session.(phase := Returned(r, session.phase.base, false, false)))
    case CommitRecord(m, applied, ok) =>
      var session := s.sessions[m];
      var r := session.phase.record;
      Put(s, m, session.(phase := Returned(r, session.phase.base, ok, applied))).(broker := if applied then Commit(b, map[r.Home() := r]) else b)
    case CheckResult(m) =>
      var session := s.sessions[m];
      if session.signal.generation != session.signal.captured then Put(s, m, Release(session, Ended(Yielded)))
      else if !session.phase.ok then Put(s, m, Release(session, Ended(if session.runCancelled then Stopped else HandlerFailed)))
      else Put(s, m, session.(phase := Confirmed(session.phase.record)))
    case CheckAgain(m) =>
      var session := s.sessions[m];
      Put(s, m, Release(session, if session.signal.generation != session.signal.captured then Ended(Yielded) else Ready))
  }

  ghost function Run(s: System, steps: seq<Step>): System
    decreases |steps|
  {
    if steps == [] then s else Run(if Enabled(s, steps[0]) then Apply(s, steps[0]) else s, steps[1..])
  }

  // ---- the invariant ----

  // The polled record is the first one not yet handled in its partition.
  ghost predicate RecordInv(b: Broker, r: Record, base: nat) {
    && NextInLog(b.log, base, r)
    && r.Home() in b.high && base <= b.high[r.Home()] && Covered(b, r.Home(), base)
  }

  // While the window is open only this member's commit moves its partitions.
  ghost predicate Held(b: Broker, m: Member, r: Record, committed: nat, positions: map<PartitionKey, nat>) {
    forall p :: p in b.owner && b.owner[p] == m ==>
                  && p in positions && p in b.committed
                  && (if p == r.Home() then b.committed[p] == committed && positions[p] == r.offset + 1
                      else positions[p] == b.committed[p])
  }

  ghost predicate SessionInv(b: Broker, m: Member, session: Session) {
    && RebalanceYield.Inv(session.signal)
    && (session.signal.bound.Some? <==> session.phase.Bound())
    && match session.phase
       case Ready => InSync(b, m, session.positions)
       case Captured => InSync(b, m, session.positions)
       case Polled(r, base) => RecordInv(b, r, base) && Held(b, m, r, base, session.positions)
       case Handling(r, base) => RecordInv(b, r, base) && Held(b, m, r, base, session.positions)
       case Handled(r, base) => RecordInv(b, r, base) && Held(b, m, r, base, session.positions) && r in b.handled
       case Returned(r, base, ok, applied) =>
         base <= r.offset && (ok ==> applied) && Held(b, m, r, if applied then r.offset + 1 else base, session.positions)
       case Confirmed(r) => Held(b, m, r, r.offset + 1, session.positions)
       case Ended(_) => true
  }

  ghost predicate Inv(s: System) {
    && BrokerInv(s.broker)
    && (forall m :: m in s.sessions ==> SessionInv(s.broker, m, s.sessions[m]))
  }

  lemma SessionFrame(b: Broker, c: Broker, m: Member, session: Session)
    requires SessionInv(b, m, session) && LogInv(b.log, b.high) && Undisturbed(b, c, m)
    ensures SessionInv(c, m, session)
  {
    hide RebalanceYield.Inv;
    if session.phase.Polled? || session.phase.Handling? || session.phase.Handled? {
      CoveredExtends(b, c, session.phase.record.Home(), session.phase.base);
    }
  }

  lemma StepKeeps(s: System, m: Member, session: Session, c: Broker)
    requires Inv(s) && BrokerInv(c) && SessionInv(c, m, session)
    requires forall n :: n in s.sessions && n != m ==> Undisturbed(s.broker, c, n)
    ensures Inv(Put(s, m, session).(broker := c))
  {
    hide SessionInv;
    forall n | n in s.sessions && n != m
      ensures SessionInv(c, n, s.sessions[n])
    {
      SessionFrame(s.broker, c, n, s.sessions[n]);
    }
  }

  lemma BrokerStepKeeps(s: System, c: Broker)
    requires Inv(s) && BrokerInv(c)
    requires forall n :: n in s.sessions ==> Undisturbed(s.broker, c, n)
    ensures Inv(s.(broker := c))
  {
    hide SessionInv;
    forall n | n in s.sessions
      ensures SessionInv(c, n, s.sessions[n])
    {
      SessionFrame(s.broker, c, n, s.sessions[n]);
    }
  }

  lemma GroupStepsKeep(s: System, step: Step)
    requires Inv(s) && Enabled(s, step)
    requires step.ProducerAppend? || step.RevokePartition? || step.Evict?
    ensures Inv(Apply(s, step)) && NotBack(s.broker, Apply(s, step).broker)
  {
    hide SessionInv, BrokerInv, LogInv;
    var b := s.broker;
    match step {
      case ProducerAppend(r) =>
        AppendKeeps(b, r);
        BrokerStepKeeps(s, Append(b, r));
      case RevokePartition(p) =>
        OwnerShrinks(b, Unassign(b, p).owner);
        BrokerStepKeeps(s, Unassign(b, p));
      case Evict(m) =>
        OwnerShrinks(b, UnassignAll(b, m).owner);
        BrokerStepKeeps(s, UnassignAll(b, m));
    }
  }

  lemma AssignKeeps(s: System, m: Member, p: PartitionKey)
    requires Inv(s) && Enabled(s, AssignPartition(m, p))
    ensures Inv(Apply(s, AssignPartition(m, p)))
  {
    hide LogInv, RebalanceYield.Inv, Covered;
    var b := s.broker;
    var c := Assign(b, p, m);
    OwnerKeeps(b, c.owner);
    var next := Apply(s, AssignPartition(m, p)).sessions[m];
    assert SessionInv(c, m, next);
    StepKeeps(s, m, next, c);
  }

  lemma LeaveKeeps(s: System, step: Step, m: Member)
    requires Inv(s) && Enabled(s, step)
    requires step == Crash(m) || step == StartSession(m)
    ensures Inv(Apply(s, step))
  {
    hide LogInv, Covered;
    var b := s.broker;
    var c := UnassignAll(b, m);
    OwnerShrinks(b, c.owner);
    var next := Apply(s, step).sessions[m];
    assert SessionInv(c, m, next);
    StepKeeps(s, m, next, c);
  }

  // Requests and cancellations.
  lemma SignalsKeep(s: System, step: Step, m: Member)
    requires Inv(s) && Enabled(s, step)
    requires step == CancelRun(m) || step == RequestLock(m) || (step.RequestCancel? && step.m == m)
    ensures Inv(Apply(s, step))
  {
    hide LogInv, Covered, InSync, Held, RecordInv, RebalanceYield.Inv, BrokerInv, NextInLog, Undisturbed, CanAppend;
    SignalKeeps(s.sessions[m].signal);
    SameBroker(s.broker);
    var next := Apply(s, step).sessions[m];
    assert SessionInv(s.broker, m, next);
    StepKeeps(s, m, next, s.broker);
  }

  // The steps outside a window.
  lemma QuietStepsKeep(s: System, step: Step, m: Member)
    requires Inv(s) && Enabled(s, step)
    requires step == StopAtTop(m) || step == CaptureGeneration(m) || step == PollEmpty(m) || (step.PollEnds? && step.m == m)
    ensures Inv(Apply(s, step))
  {
    hide LogInv, Covered, InSync, Held, RecordInv, RebalanceYield.Inv, BrokerInv, NextInLog, Undisturbed, CanAppend;
    SignalKeeps(s.sessions[m].signal);
    SameBroker(s.broker);
    var next := Apply(s, step).sessions[m];
    assert SessionInv(s.broker, m, next);
    StepKeeps(s, m, next, s.broker);
  }

  // The steps of a window that leave the broker alone.
  lemma WindowStepsKeep(s: System, step: Step, m: Member)
    requires Inv(s) && Enabled(s, step)
    requires step == BindRecord(m) || step == CheckResult(m)
    ensures Inv(Apply(s, step))
  {
    hide LogInv, Covered, BrokerInv, NextInLog, RebalanceYield.Inv, Undisturbed, Held, RecordInv, InSync, CanAppend;
    SignalKeeps(s.sessions[m].signal);
    SameBroker(s.broker);
    var next := Apply(s, step).sessions[m];
    assert SessionInv(s.broker, m, next);
    StepKeeps(s, m, next, s.broker);
  }

  lemma FailedHandlerKeeps(s: System, m: Member)
    requires Inv(s) && Enabled(s, HandlerReturn(m, false))
    ensures Inv(Apply(s, HandlerReturn(m, false)))
  {
    hide LogInv, Covered, BrokerInv, NextInLog, RebalanceYield.Inv, Undisturbed, Held, RecordInv, InSync, CanAppend;
    SameBroker(s.broker);
    RecordBase(s.broker, m, s.sessions[m]);
    var next := Apply(s, HandlerReturn(m, false)).sessions[m];
    assert SessionInv(s.broker, m, next);
    StepKeeps(s, m, next, s.broker);
  }

  // Leaving the window in sync, or yielding.
  lemma CheckAgainKeeps(s: System, m: Member)
    requires Inv(s) && Enabled(s, CheckAgain(m))
    ensures Inv(Apply(s, CheckAgain(m)))
  {
    hide LogInv, Covered, BrokerInv, NextInLog, RebalanceYield.Inv, Undisturbed, RecordInv, CanAppend;
    SignalKeeps(s.sessions[m].signal);
    SameBroker(s.broker);
    var next := Apply(s, CheckAgain(m)).sessions[m];
    assert SessionInv(s.broker, m, next);
    StepKeeps(s, m, next, s.broker);
  }

  lemma RecordBase(b: Broker, m: Member, session: Session)
    requires SessionInv(b, m, session) && session.phase.Handling?
    ensures session.phase.base <= session.phase.record.offset
  {
  }

  lemma SignalKeeps(y: RebalanceYield.State)
    requires RebalanceYield.Inv(y)
    ensures forall e :: RebalanceYield.Inv(RebalanceYield.Apply(y, e))
  {
    forall e
      ensures RebalanceYield.Inv(RebalanceYield.Apply(y, e))
    {
      RebalanceYield.InvStep(y, e);
    }
  }

  lemma PollKeeps(s: System, m: Member, r: Record)
    requires Inv(s) && Enabled(s, Poll(m, r))
    ensures Inv(Apply(s, Poll(m, r)))
  {
    hide LogInv, RebalanceYield.Inv;
    var next := Apply(s, Poll(m, r)).sessions[m];
    assert SessionInv(s.broker, m, next);
    StepKeeps(s, m, next, s.broker);
  }

  lemma HandlerReturnKeeps(s: System, m: Member)
    requires Inv(s) && Enabled(s, HandlerReturn(m, true))
    ensures Inv(Apply(s, HandlerReturn(m, true)))
  {
    hide LogInv, RebalanceYield.Inv;
    var r := s.sessions[m].phase.record;
    var c := Handle(s.broker, r);
    HandleKeeps(s.broker, r);
    var next := Apply(s, HandlerReturn(m, true)).sessions[m];
    assert SessionInv(c, m, next);
    StepKeeps(s, m, next, c);
  }

  lemma CommitIsSafe(b: Broker, m: Member, r: Record, base: nat, positions: map<PartitionKey, nat>)
    requires BrokerInv(b) && RecordInv(b, r, base) && Held(b, m, r, base, positions) && r in b.handled
    requires r.Home() in b.owner && b.owner[r.Home()] == m
    ensures SafeCommit(b, r.Home(), r.offset + 1)
  {
  }

  lemma CommitRecordKeeps(s: System, m: Member, applied: bool, ok: bool)
    requires Inv(s) && Enabled(s, CommitRecord(m, applied, ok))
    ensures Inv(Apply(s, CommitRecord(m, applied, ok)))
    ensures NotBack(s.broker, Apply(s, CommitRecord(m, applied, ok)).broker)
  {
    hide RebalanceYield.Inv, LogInv, Covered;
    var b := s.broker;
    var session := s.sessions[m];
    var r, base := session.phase.record, session.phase.base;
    var step := CommitRecord(m, applied, ok);
    var next, c := Apply(s, step).sessions[m], Apply(s, step).broker;
    SameBroker(b);
    if applied {
      CommitIsSafe(b, m, r, base, session.positions);
      CommitKeeps(b, map[r.Home() := r]);
    }
    assert SessionInv(c, m, next);
    hide SessionInv;
    StepKeeps(s, m, next, c);
  }

  lemma StepInv(s: System, step: Step)
    requires Inv(s) && Enabled(s, step)
    ensures Inv(Apply(s, step)) && NotBack(s.broker, Apply(s, step).broker)
  {
    hide Inv;
    match step {
      case ProducerAppend(_) => GroupStepsKeep(s, step);
      case RevokePartition(_) => GroupStepsKeep(s, step);
      case Evict(_) => GroupStepsKeep(s, step);
      case AssignPartition(m, p) => AssignKeeps(s, m, p);
      case Crash(m) => LeaveKeeps(s, step, m);
      case StartSession(m) => LeaveKeeps(s, step, m);
      case Poll(m, r) => PollKeeps(s, m, r);
      case HandlerReturn(m, ok) => if ok { HandlerReturnKeeps(s, m); } else { FailedHandlerKeeps(s, m); }
      case CommitRecord(m, applied, ok) => CommitRecordKeeps(s, m, applied, ok);
      case BindRecord(m) => WindowStepsKeep(s, step, m);
      case CheckResult(m) => WindowStepsKeep(s, step, m);
      case CheckAgain(m) => CheckAgainKeeps(s, m);
      case CancelRun(m) => SignalsKeep(s, step, m);
      case RequestLock(m) => SignalsKeep(s, step, m);
      case RequestCancel(m, _) => SignalsKeep(s, step, m);
      case _ => QuietStepsKeep(s, step, step.m);
    }
  }

  lemma {:induction false} RunInv(s: System, steps: seq<Step>)
    requires Inv(s)
    ensures Inv(Run(s, steps)) && NotBack(s.broker, Run(s, steps).broker)
    decreases |steps|
  {
    hide Inv;
    if steps != [] {
      if Enabled(s, steps[0]) {
        StepInv(s, steps[0]);
        RunInv(Apply(s, steps[0]), steps[1..]);
      } else {
        RunInv(s, steps[1..]);
      }
    }
  }

  // ---- theorems ----

  lemma InitInv(s: System)
    requires Init(s)
    ensures Inv(s)
  {
    BrokerInitInv(s.broker);
  }

  lemma AtLeastOnce(init: System, steps: seq<Step>, r: Record)
    requires Init(init)
    requires var b := Run(init, steps).broker; r in b.log && r.Home() in b.start && r.Home() in b.committed
    requires var b := Run(init, steps).broker; b.start[r.Home()] <= r.offset < b.committed[r.Home()]
    ensures r in Run(init, steps).broker.handled
  {
    InitInv(init);
    RunInv(init, steps);
  }

  lemma CommittedNeverMovesBack(init: System, steps: seq<Step>, more: seq<Step>)
    requires Init(init)
    ensures NotBack(Run(init, steps).broker, Run(Run(init, steps), more).broker)
  {
    InitInv(init);
    RunInv(init, steps);
    RunInv(Run(init, steps), more);
  }

  // Partition order: the handler sees a record only after every earlier record of
  // its partition has been handled.
  lemma HandlerSeesPartitionOrder(init: System, steps: seq<Step>, m: Member, q: Record)
    requires Init(init)
    requires var s := Run(init, steps);
             && m in s.sessions && s.sessions[m].phase.Handling?
             && q in s.broker.log && q.Home() == s.sessions[m].phase.record.Home() && q.Home() in s.broker.start
             && s.broker.start[q.Home()] <= q.offset < s.sessions[m].phase.record.offset
    ensures q in Run(init, steps).broker.handled
  {
    InitInv(init);
    RunInv(init, steps);
    var s := Run(init, steps);
    assert SessionInv(s.broker, m, s.sessions[m]);
  }

  lemma RequestIsSeen(y: RebalanceYield.State)
    requires RebalanceYield.Inv(y)
    ensures RebalanceYield.Apply(y, RebalanceYield.RequestLock).generation != RebalanceYield.Apply(y, RebalanceYield.RequestLock).captured
  {
  }

  // A yield may follow the commit: from every point where the handler has just succeeded,
  // the commit goes through, then a request arrives, and the session ends yielded with its
  // record committed.
  lemma YieldAfterCommit(s: System, m: Member)
    requires Inv(s) && m in s.sessions && s.sessions[m].phase.Handled?
    requires var p := s.sessions[m].phase.record.Home(); p in s.broker.owner && s.broker.owner[p] == m && p in s.broker.committed
    ensures var end := Run(s, [CommitRecord(m, true, true), RequestLock(m), CheckResult(m)]);
            var r := s.sessions[m].phase.record;
            && m in end.sessions && end.sessions[m].phase == Ended(Yielded)
            && r.Home() in end.broker.committed && end.broker.committed[r.Home()] == r.offset + 1
  {
    hide Held, RecordInv, InSync, BrokerInv, LogInv, Covered, NextInLog, CanAppend, RebalanceYield.Inv;
    var steps := [CommitRecord(m, true, true), RequestLock(m), CheckResult(m)];
    var s1 := Apply(s, steps[0]);
    RequestIsSeen(s1.sessions[m].signal);
    var s2 := Apply(s1, steps[1]);
    var s3 := Apply(s2, steps[2]);
    assert steps[1..] == [steps[1], steps[2]] && steps[1..][1..] == [steps[2]] && steps[1..][1..][1..] == [];
    assert Run(s2, [steps[2]]) == s3;
    assert Run(s1, steps[1..]) == s3;
  }
}
