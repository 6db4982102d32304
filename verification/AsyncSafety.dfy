// Safety of the async runner over every run of the transition system.
module AsyncSafety {
  import opened KafkaTypes
  import opened BatchProcessing
  import opened Grouping
  import opened ConsumerGroup
  import opened AsyncConsumer
  import RebalanceYield

  // ---- the invariant ----

  // A polled batch continues its partitions without a gap, and everything before it was handled.
  ghost predicate BatchInv(b: Broker, batch: Batch, concurrency: nat) {
    && 0 < |batch.records| <= concurrency
    && PollOrdered(batch.records)
    && (forall r :: r in batch.records ==> r in b.log && r.Home() in batch.base && batch.base[r.Home()] <= r.offset)
    && Gapless(batch.records, b.log, batch.base)
    && (forall p :: p in batch.base ==> p in b.high && batch.base[p] <= b.high[p] && Covered(b, p, batch.base[p]))
  }

  // While the window is open nobody else moves the partitions the member still owns.
  ghost predicate Held(b: Broker, m: Member, batch: Batch, positions: map<PartitionKey, nat>) {
    forall p :: p in b.owner && b.owner[p] == m ==>
                  && p in batch.base && p in b.committed && b.committed[p] == batch.base[p]
                  && p in positions && positions[p] == NextPosition(batch.records, p, batch.base[p])
  }

  ghost predicate LanesInv(work: Work) {
    && |work.lanes| == |work.groups|
    && (forall g :: 0 <= g < |work.lanes| ==> work.lanes[g].done <= |work.groups[g]|)
    && (forall g :: 0 <= g < |work.lanes| && work.lanes[g].status == Handling ==> work.lanes[g].done < |work.groups[g]|)
    && (forall g, i :: 0 <= g < |work.lanes| && 0 <= i < work.lanes[g].done ==> work.groups[g][i] in work.completed)
  }

  ghost predicate WorkInv(b: Broker, records: seq<Record>, work: Work) {
    && Groups(records, work.order, work.groups)
    && LanesInv(work)
    && (forall r :: r in work.completed ==> r in records && r in b.handled)
  }

  ghost predicate Complete(work: Work) {
    |work.lanes| == |work.groups| && forall g :: 0 <= g < |work.lanes| ==> work.lanes[g].done == |work.groups[g]|
  }

  // A goroutine leaves early only after a failure or a cancellation.
  ghost predicate EarlyExitsExplained(work: Work, cancelled: bool) {
    forall g :: 0 <= g < |work.lanes| && g < |work.groups| && work.lanes[g].status == Exited && work.lanes[g].done < |work.groups[g]| ==> cancelled
  }

  ghost predicate SessionInv(b: Broker, m: Member, session: Session, concurrency: nat) {
    && RebalanceYield.Inv(session.signal)
    && match session.phase
       case Ready => session.signal.bound.None? && InSync(b, m, session.positions)
       case Captured => session.signal.bound.None? && InSync(b, m, session.positions)
       case Polled(batch) => session.signal.bound.None? && BatchInv(b, batch, concurrency) && Held(b, m, batch, session.positions)
       case Processing(batch, work) =>
         && session.signal.bound.Some?
         && BatchInv(b, batch, concurrency) && Held(b, m, batch, session.positions)
         && WorkInv(b, batch.records, work)
         && EarlyExitsExplained(work, ContextCancelled(session))
       case Inspected(batch, work) =>
         && session.signal.bound.Some?
         && BatchInv(b, batch, concurrency) && Held(b, m, batch, session.positions)
         && WorkInv(b, batch.records, work)
         && (Complete(work) || work.failed || session.runCancelled)
       case Committing(batch, work) =>
         && session.signal.bound.Some?
         && BatchInv(b, batch, concurrency) && Held(b, m, batch, session.positions)
         && WorkInv(b, batch.records, work)
         && (Complete(work) || work.failed)
       case Ended(_) => session.signal.bound.None?
  }

  ghost predicate Inv(s: System) {
    && BrokerInv(s.broker)
    && (forall m :: m in s.sessions ==> SessionInv(s.broker, m, s.sessions[m], s.concurrency))
  }

  // ---- framing ----

  lemma BatchFrame(b: Broker, c: Broker, batch: Batch, concurrency: nat)
    requires BatchInv(b, batch, concurrency) && LogInv(b.log, b.high) && Extends(b, c)
    ensures BatchInv(c, batch, concurrency)
  {
    hide PollOrdered;
    forall p | p in batch.base
      ensures p in c.high && batch.base[p] <= c.high[p] && Covered(c, p, batch.base[p])
    {
      CoveredExtends(b, c, p, batch.base[p]);
    }
    forall r, q | r in batch.records && q in c.log && q.Home() == r.Home() && batch.base[r.Home()] <= q.offset < r.offset
      ensures q in batch.records
    {
      assert r in b.log;
    }
  }

  lemma SessionFrame(b: Broker, c: Broker, m: Member, session: Session, concurrency: nat)
    requires SessionInv(b, m, session, concurrency) && LogInv(b.log, b.high) && Undisturbed(b, c, m)
    ensures SessionInv(c, m, session, concurrency)
  {
    hide Groups, LanesInv, BatchInv, LogInv, Complete, EarlyExitsExplained, RebalanceYield.Inv, NextPosition;
    if session.phase.InWindow() {
      BatchFrame(b, c, session.phase.batch, concurrency);
    }
  }

  // A step that changes one session and leaves the others undisturbed.
  lemma StepKeeps(s: System, m: Member, session: Session, c: Broker)
    requires Inv(s) && BrokerInv(c)
    requires SessionInv(c, m, session, s.concurrency)
    requires forall n :: n in s.sessions && n != m ==> Undisturbed(s.broker, c, n)
    ensures Inv(Put(s, m, session).(broker := c))
  {
    hide SessionInv;
    forall n | n in s.sessions && n != m
      ensures SessionInv(c, n, s.sessions[n], s.concurrency)
    {
      SessionFrame(s.broker, c, n, s.sessions[n], s.concurrency);
    }
  }

  // A step of the environment alone.
  lemma BrokerStepKeeps(s: System, c: Broker)
    requires Inv(s) && BrokerInv(c)
    requires forall n :: n in s.sessions ==> Undisturbed(s.broker, c, n)
    ensures Inv(s.(broker := c))
  {
    hide SessionInv;
    forall n | n in s.sessions
      ensures SessionInv(c, n, s.sessions[n], s.concurrency)
    {
      SessionFrame(s.broker, c, n, s.sessions[n], s.concurrency);
    }
  }

  // ---- every step keeps the invariant ----

  lemma EnvironmentKeeps(s: System, step: Step)
    requires Inv(s) && Enabled(s, step)
    requires step.ProducerAppend? || step.RevokePartition? || step.Evict?
    ensures Inv(Apply(s, step))
  {
    hide SessionInv, BrokerInv, LogInv;
    var b := s.broker;
    match step {
      case ProducerAppend(r) =>
        AppendKeeps(b, r);
        BrokerStepKeeps(s, Append(b, r));
      case RevokePartition(p) =>
        OwnerShrinks(b, Unassign(b, p).owner);
        BrokerStepKeeps(s, Unassign(b, p));
      case Evict(m) =>
        OwnerShrinks(b, UnassignAll(b, m).owner);
        BrokerStepKeeps(s, UnassignAll(b, m));
    }
  }

  lemma AssignKeeps(s: System, m: Member, p: PartitionKey)
    requires Inv(s) && Enabled(s, AssignPartition(m, p))
    ensures Inv(Apply(s, AssignPartition(m, p)))
  {
    hide LogInv, RebalanceYield.Inv, Covered;
    var b := s.broker;
    var c := Assign(b, p, m);
    OwnerKeeps(b, c.owner);
    var session := s.sessions[m];
    var moved := session.(positions := session.positions[p := b.committed[p]]);
    assert SessionInv(c, m, moved, s.concurrency);
    StepKeeps(s, m, moved, c);
  }

  // Steps that only replace a session by one that is outside any window.
  lemma LeaveKeeps(s: System, step: Step, m: Member)
    requires Inv(s) && Enabled(s, step)
    requires step == Crash(m) || step == StartSession(m)
    ensures Inv(Apply(s, step))
  {
    hide LogInv, Covered;
    var b := s.broker;
    var c := UnassignAll(b, m);
    OwnerShrinks(b, c.owner);
    var next := Apply(s, step).sessions[m];
    assert SessionInv(c, m, next, s.concurrency);
    StepKeeps(s, m, next, c);
  }

  lemma SignalsKeep(s: System, step: Step, m: Member)
    requires Inv(s) && Enabled(s, step)
    requires step == CancelRun(m) || step == RequestLock(m) || (step.RequestCancel? && step.m == m)
    ensures Inv(Apply(s, step))
  {
    hide LogInv, Covered, BatchInv, WorkInv, Held, InSync, Complete, RebalanceYield.Inv;
    var session := s.sessions[m];
    SignalEvents(session.signal);
    var next := Apply(s, step).sessions[m];
    if session.phase.Processing? {
      assert ContextCancelled(session) ==> ContextCancelled(next);
    }
    assert SessionInv(s.broker, m, next, s.concurrency);
    SameBroker(s.broker);
    StepKeeps(s, m, next, s.broker);
  }

  // Requests neither bind nor release, and cancellation is monotone.
  lemma SignalEvents(y: RebalanceYield.State)
    requires RebalanceYield.Inv(y)
    ensures forall e :: RebalanceYield.Inv(RebalanceYield.Apply(y, e))
    ensures forall e: RebalanceYield.Event :: e.RequestLock? || e.RequestCancel? ==>
              && RebalanceYield.Apply(y, e).bound == y.bound
              && y.cancelled <= RebalanceYield.Apply(y, e).cancelled
  {
    forall e
      ensures RebalanceYield.Inv(RebalanceYield.Apply(y, e))
    {
      RebalanceYield.InvStep(y, e);
    }
  }

  lemma IdleStepsKeep(s: System, step: Step, m: Member)
    requires Inv(s) && Enabled(s, step)
    requires step == StopAtTop(m) || step == CaptureGeneration(m) || step == PollEmpty(m) || (step.PollEnds? && step.m == m)
    ensures Inv(Apply(s, step))
  {
    hide LogInv, Covered, InSync, RebalanceYield.Inv;
    var session := s.sessions[m];
    SignalEvents(session.signal);
    var next := Apply(s, step).sessions[m];
    assert SessionInv(s.broker, m, next, s.concurrency);
    SameBroker(s.broker);
    StepKeeps(s, m, next, s.broker);
  }

  lemma PollKeeps(s: System, m: Member, records: seq<Record>)
    requires Inv(s) && Enabled(s, Poll(m, records))
    ensures Inv(Apply(s, Poll(m, records)))
  {
    hide LogInv, Covered, PollOrdered, RebalanceYield.Inv, NextPosition;
    var b := s.broker;
    var next := Apply(s, Poll(m, records)).sessions[m];
    var batch := next.phase.batch;
    assert Gapless(records, b.log, batch.base);
    assert BatchInv(b, batch, s.concurrency);
    assert Held(b, m, batch, next.positions);
    SameBroker(b);
    StepKeeps(s, m, next, b);
  }

  lemma BindKeeps(s: System, m: Member, order: seq<ProcessingKey>, groups: seq<seq<Record>>)
    requires Inv(s) && Enabled(s, BindBatch(m, order, groups))
    ensures Inv(Apply(s, BindBatch(m, order, groups)))
  {
    hide LogInv, Covered, BatchInv, Held, Groups;
    var next := Apply(s, BindBatch(m, order, groups)).sessions[m];
    RebalanceYield.InvStep(s.sessions[m].signal, RebalanceYield.Bind);
    hide RebalanceYield.Inv;
    SameBroker(s.broker);
    StepKeeps(s, m, next, s.broker);
  }

  lemma LaneNextKeeps(s: System, m: Member, g: nat)
    requires Inv(s) && Enabled(s, LaneNext(m, g))
    ensures Inv(Apply(s, LaneNext(m, g)))
  {
    hide LogInv, Covered, BatchInv, Held, Groups, RebalanceYield.Inv;
    var next := Apply(s, LaneNext(m, g)).sessions[m];
    SameBroker(s.broker);
    StepKeeps(s, m, next, s.broker);
  }

  lemma LaneReturnKeeps(b: Broker, records: seq<Record>, work: Work, g: nat, ok: bool)
    requires WorkInv(b, records, work)
    requires g < |work.lanes| && g < |work.groups| && work.lanes[g].done < |work.groups[g]|
    ensures WorkInv(if ok then Handle(b, work.groups[g][work.lanes[g].done]) else b, records, LaneReturn(work, g, ok))
  {
    hide Groups, LanesInv;
    LanesReturn(work, g, ok);
    var r := work.groups[g][work.lanes[g].done];
    assert r in work.groups[g];
    GroupsPartitionBatch(records, work.order, work.groups, r);
  }

  lemma LanesReturn(work: Work, g: nat, ok: bool)
    requires LanesInv(work) && g < |work.lanes| && g < |work.groups| && work.lanes[g].done < |work.groups[g]|
    ensures LanesInv(LaneReturn(work, g, ok))
  {
  }

  lemma HandlerReturnKeeps(s: System, m: Member, g: nat, ok: bool)
    requires Inv(s) && Enabled(s, HandlerReturn(m, g, ok))
    ensures Inv(Apply(s, HandlerReturn(m, g, ok)))
  {
    hide LogInv, Covered, BatchInv, RebalanceYield.Inv, NextPosition, Groups, LanesInv, WorkInv;
    var b := s.broker;
    var session := s.sessions[m];
    var work := session.phase.work;
    var r := work.groups[g][work.lanes[g].done];
    var next := Apply(s, HandlerReturn(m, g, ok)).sessions[m];
    var c := if ok then Handle(b, r) else b;
    SameBroker(b);
    HandleKeeps(b, r);
    BatchFrame(b, c, session.phase.batch, s.concurrency);
    LaneReturnKeeps(b, session.phase.batch.records, work, g, ok);
    StepKeeps(s, m, next, c);
  }

  lemma CheckYieldKeeps(s: System, m: Member)
    requires Inv(s) && Enabled(s, CheckYield(m))
    ensures Inv(Apply(s, CheckYield(m)))
  {
    hide LogInv, Covered, BatchInv, Held, Groups;
    var session := s.sessions[m];
    var next := Apply(s, CheckYield(m)).sessions[m];
    SignalEvents(session.signal);
    SameBroker(s.broker);
    StepKeeps(s, m, next, s.broker);
  }

  lemma CheckContextKeeps(s: System, m: Member)
    requires Inv(s) && Enabled(s, CheckContext(m))
    ensures Inv(Apply(s, CheckContext(m)))
  {
    hide LogInv, Covered, BatchInv, Held, WorkInv, Complete, RebalanceYield.Inv;
    var session := s.sessions[m];
    var next := Apply(s, CheckContext(m)).sessions[m];
    SignalEvents(session.signal);
    SameBroker(s.broker);
    StepKeeps(s, m, next, s.broker);
  }

  // ---- the commit ----

  // Everything up to a committable record has been handled.
  lemma CommitIsSafe(b: Broker, m: Member, batch: Batch, work: Work, positions: map<PartitionKey, nat>, concurrency: nat,
                     commit: map<PartitionKey, Record>, p: PartitionKey)
    requires BrokerInv(b) && BatchInv(b, batch, concurrency) && Held(b, m, batch, positions) && WorkInv(b, batch.records, work)
    requires CommitList(batch.records, work.completed, commit) && p in commit && p in b.owner && b.owner[p] == m
    ensures SafeCommit(b, p, commit[p].offset + 1)
  {
    hide PrefixOf, LastOfPrefix, PollOrdered, Groups, LanesInv, NextPosition;
    var last := commit[p];
    assert last in batch.records && last in b.log;
    forall q | q in b.log && q.Home() == p && b.start[p] <= q.offset < last.offset + 1
      ensures q in b.handled
    {
      if batch.base[p] <= q.offset {
        assert q in batch.records;
        CommitCoversPrefix(batch.records, work.completed, commit, p, q);
      }
    }
  }

  lemma CompleteMeansAllDone(b: Broker, records: seq<Record>, work: Work)
    requires WorkInv(b, records, work) && Complete(work)
    ensures forall r :: r in records ==> r in work.completed
  {
    forall r | r in records
      ensures r in work.completed
    {
      GroupsPartitionBatch(records, work.order, work.groups, r);
      var g :| 0 <= g < |work.groups| && r in work.groups[g];
      var i :| 0 <= i < |work.groups[g]| && work.groups[g][i] == r;
    }
  }

  // The position after a poll is the offset after the last polled record.
  lemma {:induction false} NextPositionIsLast(records: seq<Record>, p: PartitionKey, current: nat)
    requires PollOrdered(records)
    ensures (forall r :: r in records ==> r.Home() != p) ==> NextPosition(records, p, current) == current
    ensures forall r :: r in records && r.Home() == p ==> r.offset < NextPosition(records, p, current)
    ensures (exists r :: r in records && r.Home() == p) ==>
              exists r :: r in records && r.Home() == p && NextPosition(records, p, current) == r.offset + 1
  {
    if records != [] {
      var n := |records| - 1;
      assert records == records[..n] + [records[n]];
      if records[n].Home() != p {
        NextPositionIsLast(records[..n], p, current);
      }
    }
  }

  // A complete batch is committed exactly up to the position polled.
  lemma CompleteCommitReachesPosition(b: Broker, batch: Batch, work: Work, commit: map<PartitionKey, Record>, p: PartitionKey, current: nat)
    requires PollOrdered(batch.records) && WorkInv(b, batch.records, work) && Complete(work)
    requires CommitList(batch.records, work.completed, commit)
    ensures NextPosition(batch.records, p, current) == if p in commit then commit[p].offset + 1 else current
  {
    hide WorkInv, Complete, PollOrdered, NextPosition;
    CompleteMeansAllDone(b, batch.records, work);
    NextPositionIsLast(batch.records, p, current);
    forall r | r in batch.records && r.Home() == p
      ensures p in commit && r.offset <= commit[p].offset
    {
      CommitReachesEnd(batch.records, work.completed, commit, r);
    }
    if p in commit {
      assert commit[p] in batch.records && commit[p].Home() == p;
    }
  }

  lemma CompleteCommitResyncs(b: Broker, m: Member, batch: Batch, work: Work, positions: map<PartitionKey, nat>, concurrency: nat,
                              commit: map<PartitionKey, Record>)
    requires BatchInv(b, batch, concurrency) && Held(b, m, batch, positions) && WorkInv(b, batch.records, work) && Complete(work)
    requires CommitList(batch.records, work.completed, commit)
    ensures InSync(Commit(b, commit), m, positions)
  {
    hide WorkInv, CommitList, Complete, NextPosition, LogInv, Gapless, PollOrdered, Covered;
    BatchIsOrdered(b, batch, concurrency);
    hide BatchInv;
    forall p | p in b.owner && b.owner[p] == m
      ensures p in b.committed && positions[p] == Commit(b, commit).committed[p]
    {
      CompleteCommitReachesPosition(b, batch, work, commit, p, batch.base[p]);
    }
  }

  lemma AppliedIsSafe(s: System, m: Member, commit: map<PartitionKey, Record>, applied: map<PartitionKey, Record>, ok: bool)
    requires Inv(s) && Enabled(s, FinishCommit(m, commit, applied, ok))
    ensures forall p :: p in applied ==> SafeCommit(s.broker, p, applied[p].offset + 1)
  {
    hide LogInv, Covered, BatchInv, WorkInv, CommitList, Complete, RebalanceYield.Inv, NextPosition, SafeCommit;
    var session := s.sessions[m];
    forall p | p in applied
      ensures SafeCommit(s.broker, p, applied[p].offset + 1)
    {
      CommitIsSafe(s.broker, m, session.phase.batch, session.phase.work, session.positions, s.concurrency, commit, p);
    }
  }

  // The session after its commit.
  lemma CommittedSession(s: System, m: Member, commit: map<PartitionKey, Record>, applied: map<PartitionKey, Record>, ok: bool)
    requires Inv(s) && Enabled(s, FinishCommit(m, commit, applied, ok))
    ensures SessionInv(Commit(s.broker, applied), m, Apply(s, FinishCommit(m, commit, applied, ok)).sessions[m], s.concurrency)
  {
    hide LogInv, Covered, BatchInv, WorkInv, CommitList, Complete, RebalanceYield.Inv, NextPosition, InSync, Commit, BrokerInv, Held;
    var session := s.sessions[m];
    SignalEvents(session.signal);
    if Apply(s, FinishCommit(m, commit, applied, ok)).sessions[m].phase.Ready? {
      CompleteCommitResyncs(s.broker, m, session.phase.batch, session.phase.work, session.positions, s.concurrency, commit);
    }
  }

  // A commit for partitions that m owns moves nobody else's.
  lemma OthersUndisturbed(s: System, m: Member, applied: map<PartitionKey, Record>)
    requires Extends(s.broker, Commit(s.broker, applied))
    requires forall p :: p in applied ==> p in s.broker.owner && s.broker.owner[p] == m
    ensures forall n :: n != m ==> Undisturbed(s.broker, Commit(s.broker, applied), n)
  {
    hide Extends;
  }

  lemma CommitKeepsInv(s: System, m: Member, commit: map<PartitionKey, Record>, applied: map<PartitionKey, Record>, ok: bool)
    requires Inv(s) && Enabled(s, FinishCommit(m, commit, applied, ok))
    ensures Inv(Apply(s, FinishCommit(m, commit, applied, ok)))
    ensures NotBack(s.broker, Apply(s, FinishCommit(m, commit, applied, ok)).broker)
  {
    hide LogInv, Covered, CommitList, NextPosition, SessionInv, Commit, SafeCommit;
    var b := s.broker;
    var next := Apply(s, FinishCommit(m, commit, applied, ok)).sessions[m];
    AppliedIsSafe(s, m, commit, applied, ok);
    CommitKeeps(b, applied);
    CommittedSession(s, m, commit, applied, ok);
    OthersUndisturbed(s, m, applied);
    StepKeeps(s, m, next, Commit(b, applied));
  }

  lemma BatchIsOrdered(b: Broker, batch: Batch, concurrency: nat)
    requires BatchInv(b, batch, concurrency)
    ensures PollOrdered(batch.records)
  {
  }

  // ---- whole runs ----

  lemma StepInv(s: System, step: Step)
    requires Inv(s) && Enabled(s, step)
    ensures Inv(Apply(s, step)) && NotBack(s.broker, Apply(s, step).broker)
  {
    hide Inv;
    match step {
      case ProducerAppend(_) => EnvironmentKeeps(s, step);
      case RevokePartition(_) => EnvironmentKeeps(s, step);
      case Evict(_) => EnvironmentKeeps(s, step);
      case AssignPartition(m, p) => AssignKeeps(s, m, p);
      case Crash(m) => LeaveKeeps(s, step, m);
      case StartSession(m) => LeaveKeeps(s, step, m);
      case CancelRun(m) => SignalsKeep(s, step, m);
      case RequestLock(m) => SignalsKeep(s, step, m);
      case RequestCancel(m, _) => SignalsKeep(s, step, m);
      case StopAtTop(m) => IdleStepsKeep(s, step, m);
      case CaptureGeneration(m) => IdleStepsKeep(s, step, m);
      case PollEmpty(m) => IdleStepsKeep(s, step, m);
      case PollEnds(m, _) => IdleStepsKeep(s, step, m);
      case Poll(m, records) => PollKeeps(s, m, records);
      case BindBatch(m, order, groups) => BindKeeps(s, m, order, groups);
      case LaneNext(m, g) => LaneNextKeeps(s, m, g);
      case HandlerReturn(m, g, ok) => HandlerReturnKeeps(s, m, g, ok);
      case CheckYield(m) => CheckYieldKeeps(s, m);
      case CheckContext(m) => CheckContextKeeps(s, m);
      case FinishCommit(m, commit, applied, ok) => CommitKeepsInv(s, m, commit, applied, ok);
    }
  }

  lemma InitInv(s: System)
    requires Init(s)
    ensures Inv(s)
  {
    BrokerInitInv(s.broker);
  }

  lemma {:induction false} RunInv(s: System, steps: seq<Step>)
    requires Inv(s)
    ensures Inv(Run(s, steps)) && NotBack(s.broker, Run(s, steps).broker)
    decreases |steps|
  {
    hide Inv;
    if steps != [] {
      if Enabled(s, steps[0]) {
        StepInv(s, steps[0]);
        RunInv(Apply(s, steps[0]), steps[1..]);
      } else {
        RunInv(s, steps[1..]);
      }
    }
  }

  // At-least-once: in every run, every logged record between the group's start
  // and its committed offset has been handled successfully.
  lemma AtLeastOnce(init: System, steps: seq<Step>, r: Record)
    requires Init(init)
    requires var b := Run(init, steps).broker; r in b.log && r.Home() in b.start && r.Home() in b.committed
    requires var b := Run(init, steps).broker; b.start[r.Home()] <= r.offset < b.committed[r.Home()]
    ensures r in Run(init, steps).broker.handled
  {
    InitInv(init);
    RunInv(init, steps);
  }

  // Committed offsets never move back, whatever happens in between.
  lemma CommittedNeverMovesBack(init: System, steps: seq<Step>, more: seq<Step>)
    requires Init(init)
    ensures NotBack(Run(init, steps).broker, Run(Run(init, steps), more).broker)
  {
    InitInv(init);
    RunInv(init, steps);
    RunInv(Run(init, steps), more);
  }

  // The record a goroutine passes to the handler next.
  function NextRecordOf(work: Work, g: nat): Record
    requires g < |work.lanes| && g < |work.groups| && work.lanes[g].done < |work.groups[g]|
  {
    work.groups[g][work.lanes[g].done]
  }

  // Per-key order, across sessions and redeliveries: whenever the handler is given
  // a record, every earlier record of the same partition and processing key (from
  // the group's start) has already been handled successfully.
  lemma HandlerSeesKeyOrder(init: System, steps: seq<Step>, m: Member, g: nat, q: Record)
    requires Init(init)
    requires var s := Run(init, steps);
             && m in s.sessions && s.sessions[m].phase.Processing?
             && g < |s.sessions[m].phase.work.lanes| && s.sessions[m].phase.work.lanes[g].status == Handling
    requires var s := Run(init, steps);
             var work := s.sessions[m].phase.work;
             && g < |work.groups| && work.lanes[g].done < |work.groups[g]|
             && q in s.broker.log && q.Home() in s.broker.start
             && q.Home() == NextRecordOf(work, g).Home() && KeyOf(q) == KeyOf(NextRecordOf(work, g))
             && s.broker.start[q.Home()] <= q.offset < NextRecordOf(work, g).offset
    ensures q in Run(init, steps).broker.handled
  {
    InitInv(init);
    RunInv(init, steps);
    var s := Run(init, steps);
    EarlierRecordsHandled(s, m, g, q);
  }

  lemma EarlierRecordsHandled(s: System, m: Member, g: nat, q: Record)
    requires Inv(s) && m in s.sessions && s.sessions[m].phase.Processing?
    requires var work := s.sessions[m].phase.work;
             g < |work.lanes| && g < |work.groups| && work.lanes[g].done < |work.groups[g]|
    requires var r := NextRecordOf(s.sessions[m].phase.work, g);
             && q in s.broker.log && q.Home() in s.broker.start
             && q.Home() == r.Home() && KeyOf(q) == KeyOf(r) && s.broker.start[q.Home()] <= q.offset < r.offset
    ensures q in s.broker.handled
  {
    hide PollOrdered, LogInv, Groups, Held, KeyOf;
    var batch, work := s.sessions[m].phase.batch, s.sessions[m].phase.work;
    var r := NextRecordOf(work, g);
    assert SessionInv(s.broker, m, s.sessions[m], s.concurrency);
    GroupsPartitionBatch(batch.records, work.order, work.groups, r);
    if batch.base[r.Home()] <= q.offset {
      GroupRunsInOrder(batch.records, work.order, work.groups, g, work.lanes[g].done, q);
    }
  }

  // At most `concurrency` handlers of one member run at once.
  lemma BoundedConcurrency(init: System, steps: seq<Step>, m: Member, running: set<nat>)
    requires Init(init)
    requires var s := Run(init, steps);
             && m in s.sessions && s.sessions[m].phase.Processing?
             && (forall g :: g in running ==> g < |s.sessions[m].phase.work.lanes| && s.sessions[m].phase.work.lanes[g].status == Handling)
    ensures |running| <= Run(init, steps).concurrency
  {
    InitInv(init);
    RunInv(init, steps);
    var s := Run(init, steps);
    var work := s.sessions[m].phase.work;
    assert SessionInv(s.broker, m, s.sessions[m], s.concurrency);
    BoundedSet(running, |work.lanes|);
  }

  lemma {:induction false} BoundedSet(numbers: set<nat>, n: nat)
    requires forall i :: i in numbers ==> i < n
    ensures |numbers| <= n
  {
    if n > 0 {
      BoundedSet(numbers - {n - 1}, n - 1);
    }
  }

  // Every record was handled, and each touched partition is committed to the offset after
  // its last record.
  ghost predicate Consumed(records: seq<Record>, b: Broker) {
    forall r :: r in records ==>
                  && r in b.handled && r.Home() in b.committed
                  && r.offset < b.committed[r.Home()] == NextPosition(records, r.Home(), 0)
  }

  // No skip: a session leaves a window back to polling only by a successful commit
  // after every record of the batch was handled, with every touched partition
  // committed to the offset after its last batch record.
  lemma NoSkip(init: System, steps: seq<Step>, step: Step, m: Member)
    requires Init(init) && Enabled(Run(init, steps), step)
    requires m in Run(init, steps).sessions && Run(init, steps).sessions[m].phase.InWindow()
    requires var phase := Apply(Run(init, steps), step).sessions[m].phase; phase.Ready? || phase.Captured?
    ensures step.FinishCommit? && step.m == m && step.ok
    ensures Consumed(Run(init, steps).sessions[m].phase.batch.records, Apply(Run(init, steps), step).broker)
  {
    InitInv(init);
    RunInv(init, steps);
    BackToPolling(Run(init, steps), step, m);
  }

  lemma BatchIsLogged(b: Broker, batch: Batch, concurrency: nat)
    requires BatchInv(b, batch, concurrency)
    ensures forall r :: r in batch.records ==> r in b.log && r.Home() in b.high
  {
    hide LogInv, Covered, Gapless, PollOrdered;
  }

  lemma CompletedIsHandled(b: Broker, records: seq<Record>, work: Work)
    requires WorkInv(b, records, work)
    ensures work.completed <= b.handled
  {
    hide Groups, LanesInv;
  }

  lemma OnlyFullCommitsPollAgain(s: System, step: Step, m: Member)
    requires Enabled(s, step)
    requires m in s.sessions && s.sessions[m].phase.InWindow()
    requires Apply(s, step).sessions[m].phase.Ready? || Apply(s, step).sessions[m].phase.Captured?
    ensures step.FinishCommit? && step.m == m && step.ok && s.sessions[m].phase.Committing? && !s.sessions[m].phase.work.failed
  {
    hide CommitList, Groups, NextPosition, ValidPoll, CanAppend, AllExited, ContextCancelled, RebalanceYield.Apply, LaneAdvance, LaneReturn;
  }

  lemma BackToPolling(s: System, step: Step, m: Member)
    requires Inv(s) && Enabled(s, step)
    requires m in s.sessions && s.sessions[m].phase.InWindow()
    requires Apply(s, step).sessions[m].phase.Ready? || Apply(s, step).sessions[m].phase.Captured?
    ensures step.FinishCommit? && step.m == m && step.ok
    ensures Consumed(s.sessions[m].phase.batch.records, Apply(s, step).broker)
  {
    hide LogInv, Covered, CommitList, Groups, LanesInv, RebalanceYield.Inv, NextPosition, Gapless, ValidPoll, PollOrdered, CanAppend, BatchInv, WorkInv, Complete;
    OnlyFullCommitsPollAgain(s, step, m);
    assert SessionInv(s.broker, m, s.sessions[m], s.concurrency);
    var batch, work := s.sessions[m].phase.batch, s.sessions[m].phase.work;
    BatchIsOrdered(s.broker, batch, s.concurrency);
    BatchIsLogged(s.broker, batch, s.concurrency);
    CompletedIsHandled(s.broker, batch.records, work);
    CompleteMeansAllDone(s.broker, batch.records, work);
    forall r | r in batch.records
      ensures r.Home() in step.commit && r.offset <= step.commit[r.Home()].offset
      ensures NextPosition(batch.records, r.Home(), 0) == step.commit[r.Home()].offset + 1
    {
      CommitReachesEnd(batch.records, work.completed, step.commit, r);
      CompleteCommitReachesPosition(s.broker, batch, work, step.commit, r.Home(), 0);
    }
  }

  // A session that ends with a yield has committed nothing of the abandoned batch:
  // wherever it is still the owner, the group will read the whole batch again.
  lemma YieldCommitsNothing(init: System, steps: seq<Step>, m: Member)
    requires Init(init) && Enabled(Run(init, steps), CheckYield(m))
    requires Apply(Run(init, steps), CheckYield(m)).sessions[m].phase == Ended(Yielded)
    ensures var s, c := Run(init, steps), Apply(Run(init, steps), CheckYield(m)).broker;
            && c.committed == s.broker.committed
            && forall r :: r in s.sessions[m].phase.batch.records && r.Home() in c.owner && c.owner[r.Home()] == m ==>
                 r.Home() in c.committed && c.committed[r.Home()] <= r.offset
  {
    InitInv(init);
    RunInv(init, steps);
    var s := Run(init, steps);
    assert SessionInv(s.broker, m, s.sessions[m], s.concurrency);
  }

  // A batch with an unhandled record is committed only together with a failure, and the
  // session then ends.  (PartialBatches has the partial list without a failure.)
  lemma PartialBatchEndsSession(init: System, steps: seq<Step>, m: Member, r: Record, step: Step)
    requires Init(init) && Enabled(Run(init, steps), step)
    requires m in Run(init, steps).sessions && Run(init, steps).sessions[m].phase.Committing?
    requires r in Run(init, steps).sessions[m].phase.batch.records && r !in Run(init, steps).sessions[m].phase.work.completed
    requires step.FinishCommit? && step.m == m
    ensures Apply(Run(init, steps), step).sessions[m].phase == Ended(if step.ok then HandlerFailed else CommitFailed)
  {
    InitInv(init);
    RunInv(init, steps);
    var s := Run(init, steps);
    assert SessionInv(s.broker, m, s.sessions[m], s.concurrency);
    var batch, work := s.sessions[m].phase.batch, s.sessions[m].phase.work;
    if Complete(work) {
      CompleteMeansAllDone(s.broker, batch.records, work);
    }
  }
}
