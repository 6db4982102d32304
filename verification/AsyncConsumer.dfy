// The async runner as a transition system: Run and processBatch of
// internal/adapter/kafka/async_consumer.go, the session loop of
// cmd/async-classifier-worker/main.go, and the group around them.  Every
// goroutine of a batch is a lane; any enabled step of any member may come next.
module AsyncConsumer {
  import opened KafkaTypes
  import opened BatchProcessing
  import opened Grouping
  import opened ConsumerGroup
  import RebalanceYield

  // ---- state ----

  datatype LaneStatus = Waiting | Handling | Exited

  // One goroutine: how many of its group's records were handled, and what it is doing.
  datatype Lane = Lane(done: nat, status: LaneStatus)

  datatype Batch = Batch(records: seq<Record>, base: map<PartitionKey, nat>)

  datatype Work = Work(
    order: seq<ProcessingKey>,
    groups: seq<seq<Record>>,
    lanes: seq<Lane>,
    completed: set<Record>,  // successful completions sent to the collector
    failed: bool)            // firstFailure is set and the processing context cancelled

  datatype EndReason = Stopped | ClientClosed | FetchFailed | Yielded | CommitFailed | HandlerFailed | Crashed

  datatype Phase =
    | Ready
    | Captured                              // generation read, poll not returned
    | Polled(batch: Batch)                  // window open, nothing bound yet
    | Processing(batch: Batch, work: Work)
    | Inspected(batch: Batch, work: Work)   // RequestedSince was false
    | Committing(batch: Batch, work: Work)  // the run context was live
    | Ended(reason: EndReason)
  {
    // Between a poll that returned records and AllowRebalance.
    predicate InWindow() { Polled? || Processing? || Inspected? || Committing? }
  }

  datatype Session = Session(phase: Phase, signal: RebalanceYield.State, positions: map<PartitionKey, nat>, runCancelled: bool)

  datatype System = System(broker: Broker, sessions: map<Member, Session>, concurrency: nat)

  const FreshSession := Session(Ready, RebalanceYield.Initial, map[], false)

  // Every process starts out not running.
  ghost predicate Init(s: System) {
    && BrokerInit(s.broker)
    && forall m :: m in s.sessions ==> s.sessions[m] == FreshSession.(phase := Ended(Stopped))
  }

  // The offset after the last polled record of p.
  function NextPosition(records: seq<Record>, p: PartitionKey, current: nat): nat {
    if records == [] then current
    else if records[|records| - 1].Home() == p then records[|records| - 1].offset + 1
    else NextPosition(records[..|records| - 1], p, current)
  }

  function ContextCancelled(session: Session): bool
    requires session.phase.Processing?
  {
    session.phase.work.failed || session.runCancelled
    || (session.signal.bound.Some? && session.signal.bound.value.context in session.signal.cancelled)
  }

  // ---- steps ----

  datatype Step =
    | ProducerAppend(record: Record)
    | AssignPartition(m: Member, p: PartitionKey)
    | RevokePartition(p: PartitionKey)
    | Evict(m: Member)                    // the coordinator fences a member, in a window or not
    | Crash(m: Member)
    | StartSession(m: Member)             // a yielded session's successor, or a restarted process
    | CancelRun(m: Member)
    | RequestLock(m: Member)
    | RequestCancel(m: Member, context: nat)
    | StopAtTop(m: Member)
    | CaptureGeneration(m: Member)
    | PollEmpty(m: Member)
    | PollEnds(m: Member, reason: EndReason)
    | Poll(m: Member, records: seq<Record>)
    | BindBatch(m: Member, order: seq<ProcessingKey>, groups: seq<seq<Record>>)
    | LaneNext(m: Member, lane: nat)      // the goroutine looks for its next record
    | HandlerReturn(m: Member, lane: nat, ok: bool)
    | CheckYield(m: Member)
    | CheckContext(m: Member)
    | FinishCommit(m: Member, commit: map<PartitionKey, Record>, applied: map<PartitionKey, Record>, ok: bool)

  // No logged record between a partition's position and a polled record is missing.
  ghost predicate Gapless(records: seq<Record>, log: set<Record>, from: map<PartitionKey, nat>) {
    forall r, q :: r in records && q in log && q.Home() == r.Home() && r.Home() in from && from[r.Home()] <= q.offset < r.offset ==>
                     q in records
  }

  // franz-go's poll contract: owned partitions only, from the position on, in
  // offset order, skipping nothing, at most `concurrency` records.
  ghost predicate ValidPoll(s: System, m: Member, records: seq<Record>)
    requires m in s.sessions
  {
    var positions := s.sessions[m].positions;
    && 0 < |records| <= s.concurrency
    && PollOrdered(records)
    && (forall r :: r in records ==>
          && r in s.broker.log && r.Home() in s.broker.owner && s.broker.owner[r.Home()] == m
          && r.Home() in positions && positions[r.Home()] <= r.offset)
    && Gapless(records, s.broker.log, positions)
  }

  ghost predicate AllExited(work: Work) {
    forall g :: 0 <= g < |work.lanes| ==> work.lanes[g].status == Exited
  }

  ghost predicate Enabled(s: System, step: Step) {
    match step
    case ProducerAppend(r) => CanAppend(s.broker, r)
    case AssignPartition(m, p) =>
      && m in s.sessions && (s.sessions[m].phase.Ready? || s.sessions[m].phase.Captured?)
      && p in s.broker.high && p !in s.broker.owner
    case RevokePartition(p) =>
      p in s.broker.owner && s.broker.owner[p] in s.sessions && !s.sessions[s.broker.owner[p]].phase.InWindow()
    case Evict(m) => m in s.sessions
    case Crash(m) => m in s.sessions
    case StartSession(m) => m in s.sessions && s.sessions[m].phase.Ended?
    case CancelRun(m) => m in s.sessions
    case RequestLock(m) => m in s.sessions
    case RequestCancel(m, c) => m in s.sessions && c in s.sessions[m].signal.pending
    case StopAtTop(m) => m in s.sessions && s.sessions[m].phase.Ready? && s.sessions[m].runCancelled
    case CaptureGeneration(m) => m in s.sessions && s.sessions[m].phase.Ready? && !s.sessions[m].runCancelled
    case PollEmpty(m) => m in s.sessions && s.sessions[m].phase.Captured? && !s.sessions[m].runCancelled
    case PollEnds(m, reason) =>
      && m in s.sessions && s.sessions[m].phase.Captured?
      && if s.sessions[m].runCancelled then reason == Stopped else reason == ClientClosed || reason == FetchFailed
    case Poll(m, records) =>
      m in s.sessions && s.sessions[m].phase.Captured? && !s.sessions[m].runCancelled && ValidPoll(s, m, records)
    case BindBatch(m, order, groups) =>
      m in s.sessions && s.sessions[m].phase.Polled? && Groups(s.sessions[m].phase.batch.records, order, groups)
    case LaneNext(m, g) =>
      && m in s.sessions && s.sessions[m].phase.Processing?
      && g < |s.sessions[m].phase.work.lanes| && s.sessions[m].phase.work.lanes[g].status == Waiting
    case HandlerReturn(m, g, ok) =>
      && m in s.sessions && s.sessions[m].phase.Processing?
      && g < |s.sessions[m].phase.work.lanes| && s.sessions[m].phase.work.lanes[g].status == Handling
      && g < |s.sessions[m].phase.work.groups| && s.sessions[m].phase.work.lanes[g].done < |s.sessions[m].phase.work.groups[g]|
    case CheckYield(m) => m in s.sessions && s.sessions[m].phase.Processing? && AllExited(s.sessions[m].phase.work)
    case CheckContext(m) => m in s.sessions && s.sessions[m].phase.Inspected?
    case FinishCommit(m, commit, applied, ok) =>
      && m in s.sessions && s.sessions[m].phase.Committing?
      && CommitList(s.sessions[m].phase.batch.records, s.sessions[m].phase.work.completed, commit)
      // A failed commit may have been applied for any partition still owned.
      && (forall p :: p in applied ==> p in commit && applied[p] == commit[p] && p in s.broker.owner && s.broker.owner[p] == m)
      && (ok ==> applied == commit) && (commit == map[] ==> ok)
  }

  function Release(session: Session, phase: Phase): Session {
    session.(phase := phase, signal := RebalanceYield.Apply(session.signal, RebalanceYield.Release))
  }

  function Put(s: System, m: Member, session: Session): System {
    s.(sessions := s.sessions[m := session])
  }

  // ---- the lane steps, on the work alone ----

  function LaneAdvance(work: Work, g: nat, cancelled: bool): Work
    requires g < |work.lanes|
  {
    var lane := work.lanes[g];
    var stop := cancelled || g >= |work.groups| || lane.done >= |work.groups[g]|;
    work.(lanes := work.lanes[g := lane.(status := if stop then Exited else Handling)])
  }

  function LaneReturn(work: Work, g: nat, ok: bool): Work
    requires g < |work.lanes| && g < |work.groups| && work.lanes[g].done < |work.groups[g]|
  {
    var lane := work.lanes[g];
    if ok then
      work.(lanes := work.lanes[g := Lane(lane.done + 1, Waiting)],
            completed := work.completed + {work.groups[g][lane.done]})
    else
      work.(lanes := work.lanes[g := lane.(status := Exited)], failed := true)
  }

  ghost function Apply(s: System, step: Step): System
    requires Enabled(s, step)
  {
    var b := s.broker;
    match step
    case ProducerAppend(r) => s.(broker := Append(b, r))
    case AssignPartition(m, p) =>
      var session := s.sessions[m];
      var at := if p in b.committed then b.committed[p] else 0;
      Put(s, m, session.(positions := session.positions[p := at])).(broker := Assign(b, p, m))
    case RevokePartition(p) => s.(broker := Unassign(b, p))
    case Evict(m) => s.(broker := UnassignAll(b, m))
    case Crash(m) => Put(s, m, FreshSession.(phase := Ended(Crashed))).(broker := UnassignAll(b, m))
    case StartSession(m) => Put(s, m, FreshSession).(broker := UnassignAll(b, m))
    case CancelRun(m) => Put(s, m, s.sessions[m].(runCancelled := true))
    case RequestLock(m) => Put(s, m, s.sessions[m].(signal := RebalanceYield.Apply(s.sessions[m].signal, RebalanceYield.RequestLock)))
    case RequestCancel(m, c) => Put(s, m, s.sessions[m].(signal := RebalanceYield.Apply(s.sessions[m].signal, RebalanceYield.RequestCancel(c))))
    case StopAtTop(m) => Put(s, m, s.sessions[m].(phase := Ended(Stopped)))
    case CaptureGeneration(m) =>
      Put(s, m, s.sessions[m].(phase := Captured, signal := RebalanceYield.Apply(s.sessions[m].signal, RebalanceYield.Capture)))
    case PollEmpty(m) => Put(s, m, s.sessions[m].(phase := Ready))
    case PollEnds(m, reason) => Put(s, m, s.sessions[m].(phase := Ended(reason)))
    case Poll(m, records) =>
      var session := s.sessions[m];
      var base := map p | p in session.positions && p in b.owner && b.owner[p] == m :: session.positions[p];
      var positions := map p | p in session.positions :: NextPosition(records, p, session.positions[p]);
      Put(s, m, session.(phase := Polled(Batch(records, base)), positions := positions))
    case BindBatch(m, order, groups) =>
      var session := s.sessions[m];
      var work := Work(order, groups, seq(|groups|, _ => Lane(0, Waiting)), {}, false);
      Put(s, m, session.(phase := Processing(session.phase.batch, work), signal := RebalanceYield.Apply(session.signal, RebalanceYield.Bind)))
    case LaneNext(m, g) =>
      var session := s.sessions[m];
      Put(s, m, session.(phase := Processing(session.phase.batch, LaneAdvance(session.phase.work, g, ContextCancelled(session)))))
    case HandlerReturn(m, g, ok) =>
      var session := s.sessions[m];
      var work := session.phase.work;
      var after := Put(s, m, session.(phase := Processing(session.phase.batch, LaneReturn(work, g, ok))));
      if ok then after.(broker := Handle(b, work.groups[g][work.lanes[g].done])) else after
    case CheckYield(m) =>
      var session := s.sessions[m];
      if session.signal.generation != session.signal.captured then Put(s, m, Release(session, Ended(Yielded)))
      else Put(s, m, session.(phase := Inspected(session.phase.batch, session.phase.work)))
    case CheckContext(m) =>
      var session := s.sessions[m];
      if session.runCancelled then Put(s, m, Release(session, Ended(Stopped)))
      else Put(s, m, session.(phase := Committing(session.phase.batch, session.phase.work)))
    case FinishCommit(m, commit, applied, ok) =>
      var session := s.sessions[m];
      var next := if !ok then Ended(CommitFailed) else if session.phase.work.failed then Ended(HandlerFailed) else Ready;
      Put(s, m, Release(session, next)).(broker := Commit(b, applied))
  }

  // A run: disabled steps are skipped, so every sequence of steps is a schedule.
  ghost function Run(s: System, steps: seq<Step>): System
    decreases |steps|
  {
    if steps == [] then s else Run(if Enabled(s, steps[0]) then Apply(s, steps[0]) else s, steps[1..])
  }
}
