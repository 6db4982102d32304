// What becomes of a polled batch (internal/adapter/kafka/async_consumer.go:165-202): what a
// commit writes, failed batch or not, when the session yields, and that a batch which
// nothing disturbs can always be finished and committed.
module BatchOutcomes {
  import opened KafkaTypes
  import opened BatchProcessing
  import opened Grouping
  import opened ConsumerGroup
  import opened AsyncConsumer
  import opened AsyncSafety
  import opened PartialBatches
  import RebalanceYield

  // ---- what a commit writes ----

  // An acknowledged commit sets every partition to the offset after its completed prefix,
  // whether or not a handler failed, and leaves the others alone.  An unacknowledged one
  // may have done so for some partitions.  The handler's error comes after the commit.
  lemma CommitExactly(init: System, steps: seq<Step>, m: Member, commit: map<PartitionKey, Record>, applied: map<PartitionKey, Record>, ok: bool)
    requires Init(init) && Enabled(Run(init, steps), FinishCommit(m, commit, applied, ok))
    ensures var s, t := Run(init, steps), Apply(Run(init, steps), FinishCommit(m, commit, applied, ok));
      var batch, work := s.sessions[m].phase.batch, s.sessions[m].phase.work;
      && t.broker.committed.Keys == s.broker.committed.Keys
      && (forall p :: p in s.broker.committed ==>
            if PrefixOf(batch.records, work.completed, p) == 0 then t.broker.committed[p] == s.broker.committed[p]
            else if ok then t.broker.committed[p] == LastOfPrefix(batch.records, work.completed, p) + 1
            else t.broker.committed[p] in {s.broker.committed[p], LastOfPrefix(batch.records, work.completed, p) + 1})
      && (ok && work.failed ==> t.sessions[m].phase == Ended(HandlerFailed))
      && (!ok ==> t.sessions[m].phase == Ended(CommitFailed))
      && (ok && !work.failed ==> t.sessions[m].phase == Ready)
  {
    hide Run, Init, PrefixOf, LastOfPrefix, RebalanceYield.Apply;
  }

  // ---- a failed batch that is committed ----

  // Both records polled, the first handled and the second refused; the signal is untouched.
  function Refused(r: Record, q: Record, phase: Phase, committed: nat, signal: RebalanceYield.State): System {
    var p := r.Home();
    System(
      Broker({r, q}, map[p := q.offset + 1], map[p := r.offset], map[p := committed], map[p := 0], {r}),
      map[0 := Session(phase, signal, map[p := q.offset + 1], false)],
      2)
  }

  function BothPolled(r: Record, q: Record): Batch {
    Batch([r, q], map[r.Home() := r.offset])
  }

  function FirstDone(r: Record, q: Record): Work {
    Work([KeyOf(r)], [[r, q]], [Lane(1, Exited)], {r}, true)
  }

  function RefusedSteps(r: Record, q: Record): seq<Step> {
    Opening(r, q) + [LaneNext(0, 0), HandlerReturn(0, 0, true)] + [LaneNext(0, 0)] + [HandlerReturn(0, 0, false)]
      + [CheckYield(0)] + [CheckContext(0)] + [FinishCommit(0, map[r.Home() := r], map[r.Home() := r], true)]
  }

  lemma RefuseStep(r: Record, q: Record)
    ensures var s := Working(r, q, Lane(1, Handling), {r}, BoundSignal, false);
      && Enabled(s, HandlerReturn(0, 0, false))
      && Apply(s, HandlerReturn(0, 0, false)) == Refused(r, q, Processing(BothPolled(r, q), FirstDone(r, q)), r.offset, BoundSignal)
  {
    hide KeyOf, ContextCancelled;
    var s := Working(r, q, Lane(1, Handling), {r}, BoundSignal, false);
    var work := s.sessions[0].phase.work;
    assert work.lanes[0 := Lane(1, Exited)] == [Lane(1, Exited)];
    assert Apply(s, HandlerReturn(0, 0, false)).sessions == Refused(r, q, Processing(BothPolled(r, q), FirstDone(r, q)), r.offset, BoundSignal).sessions;
  }

  lemma CheckSteps(r: Record, q: Record)
    ensures var s := Refused(r, q, Processing(BothPolled(r, q), FirstDone(r, q)), r.offset, BoundSignal);
      Enabled(s, CheckYield(0)) &&
      Apply(s, CheckYield(0)) == Refused(r, q, Inspected(BothPolled(r, q), FirstDone(r, q)), r.offset, BoundSignal)
    ensures var s := Refused(r, q, Inspected(BothPolled(r, q), FirstDone(r, q)), r.offset, BoundSignal);
      Enabled(s, CheckContext(0)) &&
      Apply(s, CheckContext(0)) == Refused(r, q, Committing(BothPolled(r, q), FirstDone(r, q)), r.offset, BoundSignal)
  {
    hide KeyOf, ContextCancelled, RebalanceYield.Apply;
    var s := Refused(r, q, Processing(BothPolled(r, q), FirstDone(r, q)), r.offset, BoundSignal);
    var t := Refused(r, q, Inspected(BothPolled(r, q), FirstDone(r, q)), r.offset, BoundSignal);
    var u := Refused(r, q, Committing(BothPolled(r, q), FirstDone(r, q)), r.offset, BoundSignal);
    assert Apply(s, CheckYield(0)).sessions == t.sessions;
    assert Apply(t, CheckContext(0)).sessions == u.sessions;
  }

  function ReleasedSignal(): RebalanceYield.State {
    RebalanceYield.Apply(BoundSignal, RebalanceYield.Release)
  }

  lemma RefusedCommit(r: Record, q: Record)
    requires Pair(r, q)
    ensures var s := Refused(r, q, Committing(BothPolled(r, q), FirstDone(r, q)), r.offset, BoundSignal);
      var commit := map[r.Home() := r];
      Enabled(s, FinishCommit(0, commit, commit, true)) &&
      Apply(s, FinishCommit(0, commit, commit, true)) == Refused(r, q, Ended(HandlerFailed), r.offset + 1, ReleasedSignal())
  {
    hide KeyOf, CommitList, RebalanceYield.Apply;
    FirstOnly(r, q);
    var s := Refused(r, q, Committing(BothPolled(r, q), FirstDone(r, q)), r.offset, BoundSignal);
    var t := Refused(r, q, Ended(HandlerFailed), r.offset + 1, ReleasedSignal());
    var commit := map[r.Home() := r];
    assert Apply(s, FinishCommit(0, commit, commit, true)).sessions == t.sessions;
    assert Apply(s, FinishCommit(0, commit, commit, true)).broker.committed == t.broker.committed;
  }

  // For every two records of one partition and key: the first is handled, the second
  // fails, and the session ends with the handler's error and the first committed.
  lemma FailedBatchStillCommits(r: Record, q: Record)
    requires Pair(r, q)
    ensures Init(TwoRecords(r, q))
    ensures var t := Run(TwoRecords(r, q), RefusedSteps(r, q));
      && t == Refused(r, q, Ended(HandlerFailed), r.offset + 1, ReleasedSignal())
      && t.broker.committed == map[r.Home() := r.offset + 1]
  {
    TwoRecordsInit(r, q);
    NotCancelledYet(r, q, Lane(1, Waiting), {r});
    LaneNextStep(r, q, 1, {r}, BoundSignal, false);
    RefuseStep(r, q);
    CheckSteps(r, q);
    RefusedCommit(r, q);
    RefusedCommitted(r, q);
    hide Run, Enabled, Apply, TwoRecords, Opening, ContextCancelled, Working, Refused, Init;
    FirstHandled(r, q);
    var init, two := TwoRecords(r, q), Opening(r, q) + [LaneNext(0, 0), HandlerReturn(0, 0, true)];
    var batch, work := BothPolled(r, q), FirstDone(r, q);
    Follow(init, two, Working(r, q, Lane(1, Waiting), {r}, BoundSignal, false), LaneNext(0, 0));
    var three := two + [LaneNext(0, 0)];
    Follow(init, three, Working(r, q, Lane(1, Handling), {r}, BoundSignal, false), HandlerReturn(0, 0, false));
    var four := three + [HandlerReturn(0, 0, false)];
    Follow(init, four, Refused(r, q, Processing(batch, work), r.offset, BoundSignal), CheckYield(0));
    var five := four + [CheckYield(0)];
    Follow(init, five, Refused(r, q, Inspected(batch, work), r.offset, BoundSignal), CheckContext(0));
    Follow(init, five + [CheckContext(0)], Refused(r, q, Committing(batch, work), r.offset, BoundSignal),
           FinishCommit(0, map[r.Home() := r], map[r.Home() := r], true));
  }

  lemma RefusedCommitted(r: Record, q: Record)
    ensures Refused(r, q, Ended(HandlerFailed), r.offset + 1, ReleasedSignal()).broker.committed == map[r.Home() := r.offset + 1]
  {
  }

  // ---- when the session yields ----

  // A rebalance was requested since m last captured the generation.
  ghost predicate Requested(init: System, steps: seq<Step>, m: Member)
    decreases |steps|
  {
    steps != [] &&
    var before, last := steps[..|steps| - 1], steps[|steps| - 1];
    if !Enabled(Run(init, before), last) then Requested(init, before, m)
    else if last == RequestLock(m) then true
    else if last == CaptureGeneration(m) || last == StartSession(m) || last == Crash(m) then false
    else Requested(init, before, m)
  }

  lemma CapturedBefore(s: System, m: Member)
    requires Inv(s) && m in s.sessions
    ensures s.sessions[m].signal.captured <= s.sessions[m].signal.generation
  {
    assert SessionInv(s.broker, m, s.sessions[m], s.concurrency);
    assert RebalanceYield.Inv(s.sessions[m].signal);
  }

  lemma StepRequested(s: System, step: Step, m: Member, requested: bool)
    requires Inv(s) && Enabled(s, step)
    requires m in s.sessions ==> (s.sessions[m].signal.generation != s.sessions[m].signal.captured <==> requested)
    ensures var t := Apply(s, step);
      var next := if step == RequestLock(m) then true
                  else if step == CaptureGeneration(m) || step == StartSession(m) || step == Crash(m) then false else requested;
      m in t.sessions ==> (t.sessions[m].signal.generation != t.sessions[m].signal.captured <==> next)
  {
    hide RebalanceYield.Inv;
    hide BrokerInv, BatchInv, WorkInv, Held, InSync, Complete, EarlyExitsExplained, ContextCancelled, CommitList, Groups, NextPosition, ValidPoll, AllExited;
    hide Append, Assign, Unassign, UnassignAll, Handle, Commit, CanAppend, LaneAdvance, LaneReturn;
    if m in s.sessions {
      CapturedBefore(s, m);
    }
  }

  lemma {:induction false} RunRequested(init: System, steps: seq<Step>, m: Member)
    requires Init(init)
    ensures var s := Run(init, steps);
      m in s.sessions ==> (s.sessions[m].signal.generation != s.sessions[m].signal.captured <==> Requested(init, steps, m))
    decreases |steps|
  {
    hide Init, Enabled, Apply, Run, Inv;
    if steps == [] {
      NothingRequested(init, m);
    } else {
      var before, last := steps[..|steps| - 1], steps[|steps| - 1];
      assert steps == before + [last];
      RunRequested(init, before, m);
      RunConcat(init, before, [last]);
      RunOne(Run(init, before), last);
      if Enabled(Run(init, before), last) {
        InitInv(init);
        RunInv(init, before);
        StepRequested(Run(init, before), last, m, Requested(init, before, m));
      }
    }
  }

  lemma NothingRequested(init: System, m: Member)
    requires Init(init)
    ensures Run(init, []) == init
    ensures m in init.sessions ==> init.sessions[m].signal.generation == init.sessions[m].signal.captured
  {
  }

  lemma {:induction false} RunConcat(s: System, a: seq<Step>, b: seq<Step>)
    ensures Run(s, a + b) == Run(Run(s, a), b)
    decreases |a|
  {
    hide Enabled, Apply;
    if a == [] {
      assert a + b == b;
    } else {
      assert (a + b)[1..] == a[1..] + b;
      RunConcat(if Enabled(s, a[0]) then Apply(s, a[0]) else s, a[1..], b);
    }
  }

  lemma RunOne(s: System, step: Step)
    ensures Run(s, [step]) == if Enabled(s, step) then Apply(s, step) else s
  {
    hide Enabled, Apply;
    assert [step][1..] == [];
  }

  // In every run, a session whose goroutines have all returned yields exactly when a
  // rebalance was requested since it captured the generation before its poll.
  lemma YieldsExactlyWhenRequested(init: System, steps: seq<Step>, m: Member)
    requires Init(init) && Enabled(Run(init, steps), CheckYield(m))
    ensures var next := Apply(Run(init, steps), CheckYield(m)).sessions[m].phase;
      && (next == Ended(Yielded) <==> Requested(init, steps, m))
      && (!Requested(init, steps, m) ==> next.Inspected?)
  {
    hide Run, Init, Requested, RebalanceYield.Apply;
    RunRequested(init, steps, m);
  }

  // ---- a batch that nothing disturbs can be finished ----

  // No handler failed, the run is live, no request came, and the partitions are still owned.
  ghost predicate Smooth(s: System, m: Member) {
    && m in s.sessions && s.sessions[m].phase.Processing?
    && var session := s.sessions[m];
    && !session.phase.work.failed && !session.runCancelled
    && session.signal.generation == session.signal.captured
    && forall r :: r in session.phase.batch.records ==> r.Home() in s.broker.owner && s.broker.owner[r.Home()] == m
  }

  // Only the work has gone on, lane g at most.
  ghost predicate OnlyLane(s: System, t: System, m: Member, g: nat) {
    && Smooth(s, m) && Smooth(t, m)
    && t.broker == s.broker.(handled := t.broker.handled)
    && var v, w := s.sessions[m].phase.work, t.sessions[m].phase.work;
    && t.sessions[m] == s.sessions[m].(phase := Processing(s.sessions[m].phase.batch, w))
    && w.groups == v.groups && |w.lanes| == |v.lanes|
    && (forall h :: 0 <= h < |v.lanes| && h != g ==> w.lanes[h] == v.lanes[h])
  }

  lemma SmoothIsLive(s: System, m: Member)
    requires Inv(s) && Smooth(s, m)
    ensures !ContextCancelled(s.sessions[m]) && LanesInv(s.sessions[m].phase.work)
    ensures EarlyExitsExplained(s.sessions[m].phase.work, false)
  {
    hide BrokerInv, BatchInv, Held, Groups;
    assert SessionInv(s.broker, m, s.sessions[m], s.concurrency);
  }

  lemma NextOnLane(s: System, m: Member, g: nat)
    requires Inv(s) && Smooth(s, m) && g < |s.sessions[m].phase.work.lanes|
    ensures var work := s.sessions[m].phase.work;
      work.lanes[g].status == Waiting ==>
        && Enabled(s, LaneNext(m, g))
        && OnlyLane(s, Apply(s, LaneNext(m, g)), m, g)
        && Apply(s, LaneNext(m, g)).sessions[m].phase.work.lanes[g] ==
             Lane(work.lanes[g].done, if work.lanes[g].done < |work.groups[g]| then Handling else Exited)
  {
    hide Inv, ContextCancelled;
    SmoothIsLive(s, m);
  }

  lemma HandleOnLane(s: System, m: Member, g: nat)
    requires Inv(s) && Smooth(s, m) && g < |s.sessions[m].phase.work.lanes|
    ensures var work := s.sessions[m].phase.work;
      work.lanes[g].status == Handling ==>
        && Enabled(s, HandlerReturn(m, g, true))
        && OnlyLane(s, Apply(s, HandlerReturn(m, g, true)), m, g)
        && Apply(s, HandlerReturn(m, g, true)).sessions[m].phase.work.lanes[g] == Lane(work.lanes[g].done + 1, Waiting)
  {
    hide Inv, ContextCancelled;
    SmoothIsLive(s, m);
  }

  lemma OnlyLaneTwice(s: System, t: System, u: System, m: Member, g: nat)
    requires OnlyLane(s, t, m, g) && OnlyLane(t, u, m, g)
    ensures OnlyLane(s, u, m, g)
  {
  }

  lemma NothingRun(s: System)
    ensures Run(s, []) == s
  {
  }

  // The goroutine of group g can go through the rest of its records.
  lemma FinishLane(s: System, m: Member, g: nat) returns (steps: seq<Step>)
    requires Inv(s) && Smooth(s, m) && g < |s.sessions[m].phase.work.lanes|
    ensures Inv(Run(s, steps)) && OnlyLane(s, Run(s, steps), m, g)
    ensures Run(s, steps).sessions[m].phase.work.lanes[g].status == Exited
    decreases |s.sessions[m].phase.work.groups[g]| - s.sessions[m].phase.work.lanes[g].done,
      if s.sessions[m].phase.work.lanes[g].status == Waiting then 1 else 0
  {
    hide Inv, Enabled, Apply, Run;
    SmoothIsLive(s, m);
    NextOnLane(s, m, g);
    HandleOnLane(s, m, g);
    var lane := s.sessions[m].phase.work.lanes[g];
    if lane.status == Exited {
      NothingRun(s);
      return [];
    }
    var step := if lane.status == Waiting then LaneNext(m, g) else HandlerReturn(m, g, true);
    StepInv(s, step);
    RunOne(s, step);
    var rest := FinishLane(Apply(s, step), m, g);
    steps := [step] + rest;
    RunConcat(s, [step], rest);
    OnlyLaneTwice(s, Apply(s, step), Run(s, steps), m, g);
  }

  // The work has gone on.
  ghost predicate GoneOn(s: System, t: System, m: Member) {
    && Smooth(s, m) && Smooth(t, m)
    && t.broker == s.broker.(handled := t.broker.handled)
    && var v, w := s.sessions[m].phase.work, t.sessions[m].phase.work;
    && t.sessions[m] == s.sessions[m].(phase := Processing(s.sessions[m].phase.batch, w))
    && |w.lanes| == |v.lanes|
  }

  ghost predicate ExitedFrom(s: System, m: Member, g: nat) {
    && m in s.sessions && s.sessions[m].phase.Processing?
    && forall h :: g <= h < |s.sessions[m].phase.work.lanes| ==> s.sessions[m].phase.work.lanes[h].status == Exited
  }

  lemma OneMoreExited(s: System, t: System, u: System, m: Member, g: nat)
    requires GoneOn(s, t, m) && OnlyLane(t, u, m, g) && ExitedFrom(t, m, g + 1) && g < |t.sessions[m].phase.work.lanes|
    requires u.sessions[m].phase.work.lanes[g].status == Exited
    ensures GoneOn(s, u, m) && ExitedFrom(u, m, g)
  {
  }

  // All goroutines from g on can.
  lemma FinishLanes(s: System, m: Member, g: nat) returns (steps: seq<Step>)
    requires Inv(s) && Smooth(s, m) && g <= |s.sessions[m].phase.work.lanes|
    ensures Inv(Run(s, steps)) && GoneOn(s, Run(s, steps), m) && ExitedFrom(Run(s, steps), m, g)
    decreases |s.sessions[m].phase.work.lanes| - g
  {
    hide Inv, Enabled, Apply, Run, OnlyLane;
    if g == |s.sessions[m].phase.work.lanes| {
      NothingRun(s);
      return [];
    }
    var rest := FinishLanes(s, m, g + 1);
    var t := Run(s, rest);
    var last := FinishLane(t, m, g);
    RunConcat(s, rest, last);
    OneMoreExited(s, t, Run(t, last), m, g);
    steps := rest + last;
  }

  // There is always a commit list.
  lemma CommitListExists(records: seq<Record>, done: set<Record>) returns (commit: map<PartitionKey, Record>)
    ensures CommitList(records, done, commit)
  {
    hide PartitionOffsets;
    var touched := set p | p in Homes(records) && PrefixOf(records, done, p) > 0;
    forall p | PrefixOf(records, done, p) > 0
      ensures p in touched && exists r :: IsLast(records, done, p, r)
    {
      PartitionOffsetsMembers(records, p);
      var last := LastOfPrefix(records, done, p);
      assert last in PartitionOffsets(records, p);
      var r :| r in records && r.Home() == p && r.offset == last;
      assert IsLast(records, done, p, r);
    }
    commit := map p | p in touched :: var r :| IsLast(records, done, p, r); r;
  }

  ghost predicate IsLast(records: seq<Record>, done: set<Record>, p: PartitionKey, r: Record) {
    PrefixOf(records, done, p) > 0 && r in records && r.Home() == p && r.offset == LastOfPrefix(records, done, p)
  }

  // The checks and the commit after the goroutines have returned.
  lemma CommitSmooth(s: System, m: Member) returns (steps: seq<Step>)
    requires Inv(s) && Smooth(s, m) && ExitedFrom(s, m, 0)
    ensures var t := Run(s, steps);
      && m in t.sessions && t.sessions[m].phase == Ready
      && Consumed(s.sessions[m].phase.batch.records, t.broker)
  {
    hide BrokerInv, BatchInv, Held, WorkInv, Consumed, Run, Complete, EarlyExitsExplained, RebalanceYield.Inv, ContextCancelled, RebalanceYield.Apply;
    var batch, work := s.sessions[m].phase.batch, s.sessions[m].phase.work;
    var commit := CommitListExists(batch.records, work.completed);
    hide CommitList;
    var last := FinishCommit(m, commit, commit, true);
    var t := Apply(s, CheckYield(m));
    StepInv(s, CheckYield(m));
    var u := Apply(t, CheckContext(m));
    StepInv(t, CheckContext(m));
    CommitOwned(batch.records, work.completed, commit);
    assert Enabled(u, last);
    BackToPolling(u, last, m);
    steps := [CheckYield(m)] + [CheckContext(m)] + [last];
    RunOne(s, CheckYield(m));
    RunConcat(s, [CheckYield(m)], [CheckContext(m)]);
    RunOne(t, CheckContext(m));
    RunConcat(s, [CheckYield(m)] + [CheckContext(m)], [last]);
    RunOne(u, last);
  }

  lemma CommitOwned(records: seq<Record>, done: set<Record>, commit: map<PartitionKey, Record>)
    requires CommitList(records, done, commit)
    ensures forall p :: p in commit ==> commit[p] in records && commit[p].Home() == p
  {
  }

  // No run gets stuck in a batch: from every reachable state in which nothing disturbs it,
  // the goroutines can finish, every record is handled and committed, and the session polls again.
  lemma EveryBatchCanFinish(init: System, steps: seq<Step>, m: Member) returns (more: seq<Step>)
    requires Init(init) && Smooth(Run(init, steps), m)
    ensures var s, t := Run(init, steps), Run(init, steps + more);
      && m in t.sessions && t.sessions[m].phase == Ready
      && Consumed(s.sessions[m].phase.batch.records, t.broker)
  {
    hide Inv, Run, Init, Consumed;
    InitInv(init);
    RunInv(init, steps);
    var s := Run(init, steps);
    var first := FinishLanes(s, m, 0);
    var last := CommitSmooth(Run(s, first), m);
    more := first + last;
    RunConcat(s, first, last);
    RunConcat(init, steps, more);
  }

  // ---- why a session ends ----

  // In every run: the reason with which a step ends a session says what happened.
  lemma EndsForItsReason(init: System, steps: seq<Step>, step: Step, m: Member)
    requires Init(init) && Enabled(Run(init, steps), step) && m in Run(init, steps).sessions
    requires !Run(init, steps).sessions[m].phase.Ended? && Apply(Run(init, steps), step).sessions[m].phase.Ended?
    ensures var session := Run(init, steps).sessions[m];
      match Apply(Run(init, steps), step).sessions[m].phase.reason
      case Yielded => step == CheckYield(m) && Requested(init, steps, m)
      case Stopped => session.runCancelled && (step == StopAtTop(m) || step == PollEnds(m, Stopped) || step == CheckContext(m))
      case HandlerFailed => step.FinishCommit? && step.m == m && step.ok && session.phase.work.failed
      case CommitFailed => step.FinishCommit? && step.m == m && !step.ok
      case ClientClosed => step == PollEnds(m, ClientClosed) && !session.runCancelled
      case FetchFailed => step == PollEnds(m, FetchFailed) && !session.runCancelled
      case Crashed => step == Crash(m)
  {
    hide Run, Init, Requested, RebalanceYield.Apply, CommitList, AllExited, Groups, ValidPoll, NextPosition, LaneAdvance, LaneReturn, ContextCancelled;
    RunRequested(init, steps, m);
  }

  // A session whose run was cancelled outside a batch can only stop: it never polls again,
  // and both places where it may be let it end.
  lemma CancelledSessionsStop(s: System, m: Member)
    requires m in s.sessions && s.sessions[m].runCancelled
    ensures forall records :: !Enabled(s, Poll(m, records))
    ensures !Enabled(s, CaptureGeneration(m)) && !Enabled(s, PollEmpty(m))
    ensures s.sessions[m].phase.Ready? ==>
      Enabled(s, StopAtTop(m)) && Apply(s, StopAtTop(m)).sessions[m].phase == Ended(Stopped) && Apply(s, StopAtTop(m)).broker == s.broker
    ensures s.sessions[m].phase.Captured? ==>
      Enabled(s, PollEnds(m, Stopped)) && Apply(s, PollEnds(m, Stopped)).sessions[m].phase == Ended(Stopped)
      && Apply(s, PollEnds(m, Stopped)).broker == s.broker
  {
    hide ValidPoll;
  }

  // A live one can take the next record of any partition it owns.
  lemma LiveSessionsPoll(s: System, m: Member, r: Record)
    requires m in s.sessions && s.sessions[m].phase.Captured? && !s.sessions[m].runCancelled && s.concurrency >= 1
    requires r in s.broker.log && r.Home() in s.broker.owner && s.broker.owner[r.Home()] == m
    requires r.Home() in s.sessions[m].positions && s.sessions[m].positions[r.Home()] <= r.offset
    requires forall q :: q in s.broker.log && q.Home() == r.Home() && s.sessions[m].positions[r.Home()] <= q.offset ==> r.offset <= q.offset
    ensures Enabled(s, Poll(m, [r]))
    ensures var next := Apply(s, Poll(m, [r])).sessions[m];
      next.phase.Polled? && next.phase.batch.records == [r] && next.positions[r.Home()] == r.offset + 1
  {
  }

  // A poll that fails ends the session with its reason; one without records lets it poll again.
  lemma FailedPollsEnd(s: System, m: Member, reason: EndReason)
    ensures Enabled(s, PollEnds(m, reason)) ==>
      Apply(s, PollEnds(m, reason)).sessions[m].phase == Ended(reason) && reason in {Stopped, ClientClosed, FetchFailed}
      && Apply(s, PollEnds(m, reason)).broker == s.broker
    ensures Enabled(s, PollEmpty(m)) ==> Apply(s, PollEmpty(m)).sessions[m].phase == Ready && Apply(s, PollEmpty(m)).broker == s.broker
  {
  }
}
