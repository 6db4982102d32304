// processBatch may return without an error although records of its batch were not
// handled (internal/adapter/kafka/async_consumer.go:254-256, 326-336): exactly when a
// goroutine found the context ended before its last record and no handler failed.  The
// two checks in Run then abandon the batch.
module PartialBatches {
  import opened KafkaTypes
  import opened BatchProcessing
  import opened Grouping
  import opened ConsumerGroup
  import opened AsyncConsumer
  import opened AsyncSafety
  import CompletionTracker
  import RebalanceYield
  import opened Wrappers

  // Some record of the batch was not handled.
  ghost predicate Missing(records: seq<Record>, work: Work) {
    exists r :: r in records && r !in work.completed
  }

  // The goroutine of group g has records left.
  predicate LeftOver(work: Work, g: nat) {
    g < |work.lanes| && g < |work.groups| && work.lanes[g].done < |work.groups[g]|
  }

  // processBatch is about to return a partial list and no error.
  ghost predicate NilPartial(session: Session) {
    && session.phase.Processing?
    && AllExited(session.phase.work)
    && !session.phase.work.failed
    && Missing(session.phase.batch.records, session.phase.work)
  }

  // ---- completions come from finished positions only ----

  predicate DoneAt(work: Work, g: nat, i: nat, r: Record) {
    g < |work.lanes| && g < |work.groups| && i < work.lanes[g].done && i < |work.groups[g]| && work.groups[g][i] == r
  }

  ghost predicate DoneOnly(work: Work) {
    forall r :: r in work.completed ==> exists g: nat, i: nat :: DoneAt(work, g, i, r)
  }

  ghost predicate SessionDone(session: Session) {
    session.phase.Processing? ==> DoneOnly(session.phase.work)
  }

  ghost predicate DoneInv(s: System) {
    forall m :: m in s.sessions ==> SessionDone(s.sessions[m])
  }

  lemma AdvanceDone(work: Work, g: nat, cancelled: bool)
    requires DoneOnly(work) && g < |work.lanes|
    ensures DoneOnly(LaneAdvance(work, g, cancelled))
  {
    var next := LaneAdvance(work, g, cancelled);
    forall r | r in next.completed
      ensures exists h: nat, i: nat :: DoneAt(next, h, i, r)
    {
      var h: nat, i: nat :| DoneAt(work, h, i, r);
      assert DoneAt(next, h, i, r);
    }
  }

  lemma ReturnDone(work: Work, g: nat, ok: bool)
    requires DoneOnly(work) && g < |work.lanes| && g < |work.groups| && work.lanes[g].done < |work.groups[g]|
    ensures DoneOnly(LaneReturn(work, g, ok))
  {
    var next := LaneReturn(work, g, ok);
    forall r | r in next.completed
      ensures exists h: nat, i: nat :: DoneAt(next, h, i, r)
    {
      if r in work.completed {
        var h: nat, i: nat :| DoneAt(work, h, i, r);
        assert DoneAt(next, h, i, r);
      } else {
        assert DoneAt(next, g, work.lanes[g].done, r);
      }
    }
  }

  // The only steps that touch the work of a batch.
  lemma StepDone(s: System, step: Step)
    requires DoneInv(s) && Enabled(s, step)
    ensures DoneInv(Apply(s, step))
  {
    hide DoneOnly, LaneAdvance, LaneReturn, ContextCancelled, CommitList, Groups, NextPosition, ValidPoll, AllExited, CanAppend;
    hide RebalanceYield.Apply, Append, Assign, Unassign, UnassignAll, Handle, Commit;
    match step {
      case LaneNext(m, g) =>
        AdvanceDone(s.sessions[m].phase.work, g, ContextCancelled(s.sessions[m]));
      case HandlerReturn(m, g, ok) =>
        ReturnDone(s.sessions[m].phase.work, g, ok);
      case BindBatch(m, order, groups) =>
        NothingDone(order, groups);
      case _ =>
        OtherStepDone(s, step);
    }
  }

  // No other step leaves a session processing with new work.
  lemma OtherStepDone(s: System, step: Step)
    requires DoneInv(s) && Enabled(s, step) && !step.LaneNext? && !step.HandlerReturn? && !step.BindBatch?
    ensures DoneInv(Apply(s, step))
  {
    hide DoneOnly, ContextCancelled, CommitList, NextPosition, ValidPoll, AllExited, CanAppend;
    hide RebalanceYield.Apply, Append, Assign, Unassign, UnassignAll, Commit;
  }

  lemma NothingDone(order: seq<ProcessingKey>, groups: seq<seq<Record>>)
    ensures DoneOnly(Work(order, groups, seq(|groups|, _ => Lane(0, Waiting)), {}, false))
  {
  }

  lemma {:induction false} RunDone(s: System, steps: seq<Step>)
    requires DoneInv(s)
    ensures DoneInv(Run(s, steps))
    decreases |steps|
  {
    hide DoneInv, Enabled, Apply;
    if steps != [] {
      if Enabled(s, steps[0]) {
        StepDone(s, steps[0]);
        RunDone(Apply(s, steps[0]), steps[1..]);
      } else {
        RunDone(s, steps[1..]);
      }
    }
  }

  lemma SamePosition(records: seq<Record>, i: nat, j: nat)
    requires PollOrdered(records) && i < |records| && j < |records| && records[i] == records[j]
    ensures i == j
  {
    var forward, backward := records[i].offset < records[j].offset, records[j].offset < records[i].offset;
  }

  // The record at a position that is not done was not completed.
  lemma LeftOverIsMissing(b: Broker, records: seq<Record>, work: Work, g: nat)
    requires WorkInv(b, records, work) && PollOrdered(records) && DoneOnly(work) && LeftOver(work, g)
    ensures work.groups[g][work.lanes[g].done] in records && work.groups[g][work.lanes[g].done] !in work.completed
  {
    var r := work.groups[g][work.lanes[g].done];
    assert r in work.groups[g];
    GroupsPartitionBatch(records, work.order, work.groups, r);
    forall h: nat, j: nat
      ensures !DoneAt(work, h, j, r)
    {
      NotDoneElsewhere(b, records, work, g, h, j);
    }
  }

  lemma NotDoneElsewhere(b: Broker, records: seq<Record>, work: Work, g: nat, h: nat, j: nat)
    requires WorkInv(b, records, work) && PollOrdered(records) && LeftOver(work, g)
    ensures !DoneAt(work, h, j, work.groups[g][work.lanes[g].done])
  {
    var i := work.lanes[g].done;
    var r := work.groups[g][i];
    RecordsOfOrdered(records, work.order[g]);
    GroupsPartitionBatch(records, work.order, work.groups, r);
    assert r in work.groups[g];
    if h < |work.groups| && j < |work.groups[h]| && work.groups[h][j] == r {
      assert r in work.groups[h];
      SamePosition(work.groups[g], i, j);
    }
  }

  // A batch misses a record exactly while some goroutine has records left.
  lemma MissingMeansLeftOver(b: Broker, records: seq<Record>, work: Work)
    requires WorkInv(b, records, work) && PollOrdered(records) && DoneOnly(work)
    ensures Missing(records, work) <==> exists g: nat :: LeftOver(work, g)
  {
    if g: nat :| LeftOver(work, g) {
      LeftOverIsMissing(b, records, work, g);
    } else {
      assert forall g: nat :: g < |work.lanes| ==> !LeftOver(work, g);
      NothingLeftIsComplete(b, records, work);
      CompleteMeansAllDone(b, records, work);
    }
  }

  lemma NothingLeftIsComplete(b: Broker, records: seq<Record>, work: Work)
    requires WorkInv(b, records, work) && forall g: nat :: g < |work.lanes| ==> !LeftOver(work, g)
    ensures Complete(work)
  {
    hide Groups;
    forall g | 0 <= g < |work.lanes|
      ensures work.lanes[g].done == |work.groups[g]|
    {
      assert !LeftOver(work, g);
    }
  }

  // ---- when it happens, and what becomes of it ----

  lemma ProcessingFacts(init: System, steps: seq<Step>, m: Member)
    requires Init(init) && m in Run(init, steps).sessions && Run(init, steps).sessions[m].phase.Processing?
    ensures var s := Run(init, steps);
      var batch, work := s.sessions[m].phase.batch, s.sessions[m].phase.work;
      && WorkInv(s.broker, batch.records, work) && PollOrdered(batch.records) && DoneOnly(work)
      && EarlyExitsExplained(work, ContextCancelled(s.sessions[m]))
      && RebalanceYield.Inv(s.sessions[m].signal) && s.sessions[m].signal.bound.Some?
  {
    hide Run, BrokerInv, Gapless, LogInv, Covered, Held, WorkInv, EarlyExitsExplained, RebalanceYield.Inv, ContextCancelled, DoneOnly;
    InitInv(init);
    RunInv(init, steps);
    InitDone(init);
    RunDone(init, steps);
    var s := Run(init, steps);
    assert SessionInv(s.broker, m, s.sessions[m], s.concurrency);
    assert SessionDone(s.sessions[m]);
  }

  lemma InitDone(s: System)
    requires Init(s)
    ensures DoneInv(s)
  {
  }

  // When all goroutines have returned, the list is partial without an error exactly when
  // no handler failed and a goroutine stopped at its context check with records left.
  lemma NilPartialExactly(init: System, steps: seq<Step>, m: Member)
    requires Init(init) && m in Run(init, steps).sessions
    requires var phase := Run(init, steps).sessions[m].phase; phase.Processing? && AllExited(phase.work)
    ensures var session := Run(init, steps).sessions[m];
      NilPartial(session) <==> !session.phase.work.failed && exists g: nat :: LeftOver(session.phase.work, g)
  {
    hide Run, Init, Missing, LeftOver, AllExited, WorkInv, DoneOnly, EarlyExitsExplained;
    ProcessingFacts(init, steps, m);
    var s := Run(init, steps);
    MissingMeansLeftOver(s.broker, s.sessions[m].phase.batch.records, s.sessions[m].phase.work);
  }

  // Then the run's context has ended or a request came after the capture, so the yield
  // check ends the session, or the next check will; neither commits anything.
  lemma NilPartialIsAbandoned(init: System, steps: seq<Step>, m: Member)
    requires Init(init) && m in Run(init, steps).sessions && NilPartial(Run(init, steps).sessions[m])
    ensures var session := Run(init, steps).sessions[m];
      session.runCancelled || session.signal.generation != session.signal.captured
    ensures var s := Run(init, steps);
      Enabled(s, CheckYield(m)) &&
      var next := Apply(s, CheckYield(m));
      && next.broker == s.broker
      && (next.sessions[m].phase == Ended(Yielded) || (next.sessions[m].phase.Inspected? && next.sessions[m].runCancelled))
  {
    hide Run, Init, WorkInv, DoneOnly, Missing;
    NilPartialExactly(init, steps, m);
    ProcessingFacts(init, steps, m);
    var session := Run(init, steps).sessions[m];
    var g: nat :| LeftOver(session.phase.work, g);
    assert session.phase.work.lanes[g].status == Exited;
  }

  // A partial list without an error that reaches the context check ends there: the run
  // stops and commits nothing.
  lemma NilPartialStopsAtContextCheck(init: System, steps: seq<Step>, m: Member)
    requires Init(init) && m in Run(init, steps).sessions
    requires var phase := Run(init, steps).sessions[m].phase;
      phase.Inspected? && !phase.work.failed && Missing(phase.batch.records, phase.work)
    ensures var s := Run(init, steps);
      Enabled(s, CheckContext(m)) &&
      var next := Apply(s, CheckContext(m));
      next.sessions[m].phase == Ended(Stopped) && next.broker == s.broker
  {
    hide Run, Init, BrokerInv, BatchInv, Held, WorkInv, Complete, RebalanceYield.Inv;
    InitInv(init);
    RunInv(init, steps);
    var s := Run(init, steps);
    assert SessionInv(s.broker, m, s.sessions[m], s.concurrency);
    var batch, work := s.sessions[m].phase.batch, s.sessions[m].phase.work;
    if Complete(work) {
      CompleteMeansAllDone(s.broker, batch.records, work);
    }
  }

  // ---- runs that get there ----

  lemma {:induction false} RunAppend(s: System, steps: seq<Step>, step: Step)
    requires Enabled(Run(s, steps), step)
    ensures Run(s, steps + [step]) == Apply(Run(s, steps), step)
    decreases |steps|
  {
    hide Enabled, Apply;
    if steps == [] {
      assert [step][1..] == [];
      assert Run(Apply(s, step), []) == Apply(s, step);
    } else {
      assert (steps + [step])[1..] == steps[1..] + [step];
      RunAppend(if Enabled(s, steps[0]) then Apply(s, steps[0]) else s, steps[1..], step);
    }
  }

  // Two records of one partition and one key.
  predicate Pair(r: Record, q: Record) {
    r.Home() == q.Home() && r.key == q.key && r.offset < q.offset
  }

  // One stopped member in front of a log with exactly these two records.
  function TwoRecords(r: Record, q: Record): System {
    var p := r.Home();
    System(
      Broker({r, q}, map[p := q.offset + 1], map[p := r.offset], map[p := r.offset], map[], {}),
      map[0 := FreshSession.(phase := Ended(Stopped))],
      2)
  }

  lemma TwoRecordsInit(r: Record, q: Record)
    requires Pair(r, q)
    ensures Init(TwoRecords(r, q))
  {
  }

  const BoundSignal := RebalanceYield.State(0, Some(0), multiset{}, {}, 0, Some(RebalanceYield.Binding(0, 0)), 1)

  // Both records polled and bound, `done` of them handled.
  function Working(r: Record, q: Record, lane: Lane, completed: set<Record>, signal: RebalanceYield.State, runCancelled: bool): System {
    var p := r.Home();
    System(
      Broker({r, q}, map[p := q.offset + 1], map[p := r.offset], map[p := r.offset], map[p := 0], completed),
      map[0 := Session(
        Processing(Batch([r, q], map[p := r.offset]), Work([KeyOf(r)], [[r, q]], [lane], completed, false)),
        signal, map[p := q.offset + 1], runCancelled)],
      2)
  }

  // A fresh session polls both records and starts its one goroutine.
  function Opening(r: Record, q: Record): seq<Step> {
    [StartSession(0), AssignPartition(0, r.Home()), CaptureGeneration(0), Poll(0, [r, q]), BindBatch(0, [KeyOf(r)], [[r, q]])]
  }

  // The context ends, through a request or through the run itself.
  function Interruption(byRequest: bool): seq<Step> {
    if byRequest then [RequestLock(0), RequestCancel(0, 0)] else [CancelRun(0)]
  }

  function Interrupted(byRequest: bool): RebalanceYield.State {
    if byRequest then BoundSignal.(generation := 1, cancelled := {0}) else BoundSignal
  }

  lemma Follow(init: System, steps: seq<Step>, s: System, step: Step)
    requires Run(init, steps) == s && Enabled(s, step)
    ensures Run(init, steps + [step]) == Apply(s, step)
  {
    hide Enabled, Apply;
    RunAppend(init, steps, step);
  }

  // The session right after its poll.
  function Polling(r: Record, q: Record): System {
    var p := r.Home();
    System(
      Broker({r, q}, map[p := q.offset + 1], map[p := r.offset], map[p := r.offset], map[p := 0], {}),
      map[0 := Session(Polled(Batch([r, q], map[p := r.offset])), RebalanceYield.Initial, map[p := q.offset + 1], false)],
      2)
  }

  function Assigned(r: Record, q: Record): System {
    var p := r.Home();
    System(
      Broker({r, q}, map[p := q.offset + 1], map[p := r.offset], map[p := r.offset], map[p := 0], {}),
      map[0 := Session(Captured, RebalanceYield.Initial, map[p := r.offset], false)],
      2)
  }

  lemma AssignedReached(r: Record, q: Record)
    requires Pair(r, q)
    ensures Run(TwoRecords(r, q), Opening(r, q)[..3]) == Assigned(r, q)
  {
    var init, p := TwoRecords(r, q), r.Home();
    Follow(init, [], init, StartSession(0));
    var s1 := Apply(init, StartSession(0));
    Follow(init, [StartSession(0)], s1, AssignPartition(0, p));
    var s2 := Apply(s1, AssignPartition(0, p));
    Follow(init, [StartSession(0)] + [AssignPartition(0, p)], s2, CaptureGeneration(0));
    assert Opening(r, q)[..3] == [StartSession(0)] + [AssignPartition(0, p)] + [CaptureGeneration(0)];
    assert Apply(s2, CaptureGeneration(0)) == Assigned(r, q);
  }

  lemma PollEnabled(r: Record, q: Record)
    requires Pair(r, q)
    ensures Enabled(Assigned(r, q), Poll(0, [r, q])) && Apply(Assigned(r, q), Poll(0, [r, q])) == Polling(r, q)
  {
    var records, s, t := [r, q], Assigned(r, q), Polling(r, q);
    assert ValidPoll(s, 0, records);
    assert NextPosition(records, r.Home(), r.offset) == q.offset + 1;
    var next := Apply(s, Poll(0, records)).sessions[0];
    assert next.phase.batch.base == t.sessions[0].phase.batch.base;
    assert next.positions == t.sessions[0].positions;
    assert Apply(s, Poll(0, records)).sessions == t.sessions;
  }

  lemma BindEnabled(r: Record, q: Record)
    requires Pair(r, q)
    ensures Enabled(Polling(r, q), BindBatch(0, [KeyOf(r)], [[r, q]]))
    ensures Apply(Polling(r, q), BindBatch(0, [KeyOf(r)], [[r, q]])) == Working(r, q, Lane(0, Waiting), {}, BoundSignal, false)
  {
    var records, k := [r, q], KeyOf(r);
    assert records[..1] == [r] && [r][..0] == [];
    assert RecordsOf([r], k) == [] + [r];
    assert RecordsOf(records, k) == records;
    assert Groups(records, [k], [records]);
    assert seq(1, _ => Lane(0, Waiting)) == [Lane(0, Waiting)];
  }

  lemma OpeningReaches(r: Record, q: Record)
    requires Pair(r, q)
    ensures Run(TwoRecords(r, q), Opening(r, q)) == Working(r, q, Lane(0, Waiting), {}, BoundSignal, false)
  {
    AssignedReached(r, q);
    PollEnabled(r, q);
    BindEnabled(r, q);
    hide Enabled, Apply, TwoRecords, Assigned, Polling, Working, KeyOf;
    var init, all := TwoRecords(r, q), Opening(r, q);
    Follow(init, all[..3], Assigned(r, q), Poll(0, [r, q]));
    assert all[..4] == all[..3] + [Poll(0, [r, q])];
    Follow(init, all[..4], Polling(r, q), BindBatch(0, [KeyOf(r)], [[r, q]]));
    assert all == all[..4] + [BindBatch(0, [KeyOf(r)], [[r, q]])];
  }

  // One lane step, seen on the whole system.
  lemma LaneNextStep(r: Record, q: Record, done: nat, completed: set<Record>, signal: RebalanceYield.State, runCancelled: bool)
    requires done <= 2
    ensures var s := Working(r, q, Lane(done, Waiting), completed, signal, runCancelled);
      var stop := ContextCancelled(s.sessions[0]) || done == 2;
      && Enabled(s, LaneNext(0, 0))
      && Apply(s, LaneNext(0, 0)) == Working(r, q, Lane(done, if stop then Exited else Handling), completed, signal, runCancelled)
  {
    hide ContextCancelled, KeyOf;
    var s := Working(r, q, Lane(done, Waiting), completed, signal, runCancelled);
    var stop := ContextCancelled(s.sessions[0]) || done == 2;
    var t := Working(r, q, Lane(done, if stop then Exited else Handling), completed, signal, runCancelled);
    var work := s.sessions[0].phase.work;
    var lanes := work.lanes[0 := Lane(done, if stop then Exited else Handling)];
    assert lanes == [Lane(done, if stop then Exited else Handling)];
    assert Apply(s, LaneNext(0, 0)).sessions[0] == t.sessions[0];
    assert Apply(s, LaneNext(0, 0)).sessions == t.sessions;
  }

  // One successful handler call.
  lemma HandlerStep(r: Record, q: Record, done: nat, completed: set<Record>, signal: RebalanceYield.State, runCancelled: bool)
    requires done < 2
    ensures var s := Working(r, q, Lane(done, Handling), completed, signal, runCancelled);
      && Enabled(s, HandlerReturn(0, 0, true))
      && Apply(s, HandlerReturn(0, 0, true)) == Working(r, q, Lane(done + 1, Waiting), completed + {[r, q][done]}, signal, runCancelled)
  {
    hide ContextCancelled, KeyOf;
    var s := Working(r, q, Lane(done, Handling), completed, signal, runCancelled);
    var t := Working(r, q, Lane(done + 1, Waiting), completed + {[r, q][done]}, signal, runCancelled);
    var work := s.sessions[0].phase.work;
    assert work.lanes[0 := Lane(done + 1, Waiting)] == [Lane(done + 1, Waiting)];
    assert Apply(s, HandlerReturn(0, 0, true)).sessions[0] == t.sessions[0];
    assert Apply(s, HandlerReturn(0, 0, true)).sessions == t.sessions;
  }

  lemma CancelStep(r: Record, q: Record, lane: Lane, completed: set<Record>)
    ensures var s := Working(r, q, lane, completed, BoundSignal, false);
      Enabled(s, CancelRun(0)) && Apply(s, CancelRun(0)) == Working(r, q, lane, completed, BoundSignal, true)
  {
    hide KeyOf;
    var s := Working(r, q, lane, completed, BoundSignal, false);
    assert Apply(s, CancelRun(0)).sessions == Working(r, q, lane, completed, BoundSignal, true).sessions;
  }

  function Requested(): RebalanceYield.State {
    RebalanceYield.Apply(BoundSignal, RebalanceYield.RequestLock)
  }

  lemma RequestStep(r: Record, q: Record, lane: Lane, completed: set<Record>)
    ensures var s := Working(r, q, lane, completed, BoundSignal, false);
      Enabled(s, RequestLock(0)) && Apply(s, RequestLock(0)) == Working(r, q, lane, completed, Requested(), false)
  {
    hide KeyOf, RebalanceYield.Apply;
    var s := Working(r, q, lane, completed, BoundSignal, false);
    assert Apply(s, RequestLock(0)).sessions == Working(r, q, lane, completed, Requested(), false).sessions;
  }

  lemma RequestedCancels()
    ensures 0 in Requested().pending
    ensures RebalanceYield.Apply(Requested(), RebalanceYield.RequestCancel(0)) == Interrupted(true)
  {
  }

  lemma RequestCancelStep(r: Record, q: Record, lane: Lane, completed: set<Record>)
    ensures var s := Working(r, q, lane, completed, Requested(), false);
      Enabled(s, RequestCancel(0, 0)) && Apply(s, RequestCancel(0, 0)) == Working(r, q, lane, completed, Interrupted(true), false)
  {
    hide KeyOf, RebalanceYield.Apply, Requested, Interrupted;
    RequestedCancels();
    var s := Working(r, q, lane, completed, Requested(), false);
    assert Apply(s, RequestCancel(0, 0)).sessions == Working(r, q, lane, completed, Interrupted(true), false).sessions;
  }

  lemma InterruptionReaches(init: System, steps: seq<Step>, r: Record, q: Record, lane: Lane, completed: set<Record>, byRequest: bool)
    requires Run(init, steps) == Working(r, q, lane, completed, BoundSignal, false)
    ensures Run(init, steps + Interruption(byRequest)) == Working(r, q, lane, completed, Interrupted(byRequest), !byRequest)
  {
    hide Run, Enabled, Apply, Working, Requested;
    var s := Working(r, q, lane, completed, BoundSignal, false);
    if byRequest {
      RequestStep(r, q, lane, completed);
      RequestCancelStep(r, q, lane, completed);
      Follow(init, steps, s, RequestLock(0));
      Follow(init, steps + [RequestLock(0)], Working(r, q, lane, completed, Requested(), false), RequestCancel(0, 0));
      assert steps + [RequestLock(0)] + [RequestCancel(0, 0)] == steps + Interruption(true);
    } else {
      CancelStep(r, q, lane, completed);
      Follow(init, steps, s, CancelRun(0));
    }
  }

  // The first record is handled.
  lemma FirstHandled(r: Record, q: Record)
    requires Pair(r, q)
    ensures Run(TwoRecords(r, q), Opening(r, q) + [LaneNext(0, 0), HandlerReturn(0, 0, true)])
         == Working(r, q, Lane(1, Waiting), {r}, BoundSignal, false)
  {
    NotCancelledYet(r, q, Lane(0, Waiting), {});
    LaneNextStep(r, q, 0, {}, BoundSignal, false);
    HandlerStep(r, q, 0, {}, BoundSignal, false);
    hide Run, Enabled, Apply, TwoRecords, Opening, ContextCancelled, Working;
    OpeningReaches(r, q);
    var init, opening := TwoRecords(r, q), Opening(r, q);
    var one := opening + [LaneNext(0, 0)];
    Follow(init, opening, Working(r, q, Lane(0, Waiting), {}, BoundSignal, false), LaneNext(0, 0));
    Follow(init, one, Working(r, q, Lane(0, Handling), {}, BoundSignal, false), HandlerReturn(0, 0, true));
    assert {} + {[r, q][0]} == {r};
    assert one + [HandlerReturn(0, 0, true)] == opening + [LaneNext(0, 0), HandlerReturn(0, 0, true)];
  }

  lemma NotCancelledYet(r: Record, q: Record, lane: Lane, completed: set<Record>)
    ensures !ContextCancelled(Working(r, q, lane, completed, BoundSignal, false).sessions[0])
  {
  }

  lemma InterruptedIsCancelled(r: Record, q: Record, lane: Lane, completed: set<Record>, byRequest: bool)
    ensures ContextCancelled(Working(r, q, lane, completed, Interrupted(byRequest), !byRequest).sessions[0])
  {
  }

  // The steps of a partial batch: the context ends before the second record.
  function PartialSteps(r: Record, q: Record, byRequest: bool): seq<Step> {
    Opening(r, q) + [LaneNext(0, 0), HandlerReturn(0, 0, true)] + Interruption(byRequest) + [LaneNext(0, 0)]
  }

  // From the initial state, for every two records: the first is handled, the context ends,
  // and the goroutine returns.  The commit list then holds the first record, the second is
  // missing, and no handler failed.
  lemma NilPartialHappens(r: Record, q: Record, byRequest: bool)
    requires Pair(r, q)
    ensures Init(TwoRecords(r, q))
    ensures var session := Working(r, q, Lane(1, Exited), {r}, Interrupted(byRequest), !byRequest).sessions[0];
      && Run(TwoRecords(r, q), PartialSteps(r, q, byRequest)).sessions == map[0 := session]
      && NilPartial(session)
      && CommitList([r, q], session.phase.work.completed, map[r.Home() := r])
  {
    PartialReached(r, q, byRequest);
    hide Run, PartialSteps, CommitList;
    FirstOnly(r, q);
    TwoRecordsInit(r, q);
    assert q in [r, q];
  }

  lemma PartialReached(r: Record, q: Record, byRequest: bool)
    requires Pair(r, q)
    ensures Run(TwoRecords(r, q), PartialSteps(r, q, byRequest))
         == Working(r, q, Lane(1, Exited), {r}, Interrupted(byRequest), !byRequest)
  {
    InterruptedIsCancelled(r, q, Lane(1, Waiting), {r}, byRequest);
    LaneNextStep(r, q, 1, {r}, Interrupted(byRequest), !byRequest);
    hide Run, Enabled, Apply, TwoRecords, Opening, ContextCancelled, Working, Interrupted, Interruption;
    FirstHandled(r, q);
    var init, two := TwoRecords(r, q), Opening(r, q) + [LaneNext(0, 0), HandlerReturn(0, 0, true)];
    InterruptionReaches(init, two, r, q, Lane(1, Waiting), {r}, byRequest);
    Follow(init, two + Interruption(byRequest), Working(r, q, Lane(1, Waiting), {r}, Interrupted(byRequest), !byRequest), LaneNext(0, 0));
  }

  lemma FirstOnly(r: Record, q: Record)
    requires Pair(r, q)
    ensures CommitList([r, q], {r}, map[r.Home() := r])
  {
    var records, p := [r, q], r.Home();
    assert records[..1] == [r] && [r][..0] == [];
    assert PartitionOffsets([r], p) == [] + [r.offset];
    assert PartitionOffsets(records, p) == [r.offset, q.offset];
    forall other | other != p
      ensures PartitionOffsets(records, other) == []
    {
      assert PartitionOffsets([r], other) == [];
    }
    assert MarkedOffsets({r}, p) == {r.offset};
    PrefixLengthOne(r.offset, q.offset);
  }

  lemma PrefixLengthOne(a: int, b: int)
    requires a != b
    ensures CompletionTracker.PrefixLength([a, b], {a}) == 1
  {
    CompletionTracker.PrefixLengthUnique([a, b], {a}, 1);
  }

  // The steps of a full batch whose context ends while the last handler is at work.
  function FullSteps(r: Record, q: Record, byRequest: bool): seq<Step> {
    Opening(r, q) + [LaneNext(0, 0), HandlerReturn(0, 0, true)] + [LaneNext(0, 0)] + Interruption(byRequest)
      + [HandlerReturn(0, 0, true)] + [LaneNext(0, 0)]
  }

  // The converse goes no further: an ended context or a request does not force a partial
  // list.  If it comes while the last handler is at work, that handler may still succeed.
  lemma EndedContextMayComplete(r: Record, q: Record, byRequest: bool)
    requires Pair(r, q)
    ensures Init(TwoRecords(r, q))
    ensures var session := Working(r, q, Lane(2, Exited), {r, q}, Interrupted(byRequest), !byRequest).sessions[0];
      && Run(TwoRecords(r, q), FullSteps(r, q, byRequest)).sessions == map[0 := session]
      && session.phase.Processing? && AllExited(session.phase.work) && !session.phase.work.failed && ContextCancelled(session)
      && (if byRequest then session.signal.generation != session.signal.captured else session.runCancelled)
      && !NilPartial(session)
  {
    FullReached(r, q, byRequest);
    hide Run, FullSteps;
    TwoRecordsInit(r, q);
  }

  lemma FullReached(r: Record, q: Record, byRequest: bool)
    requires Pair(r, q)
    ensures Run(TwoRecords(r, q), FullSteps(r, q, byRequest))
         == Working(r, q, Lane(2, Exited), {r, q}, Interrupted(byRequest), !byRequest)
  {
    NotCancelledYet(r, q, Lane(1, Waiting), {r});
    LaneNextStep(r, q, 1, {r}, BoundSignal, false);
    HandlerStep(r, q, 1, {r}, Interrupted(byRequest), !byRequest);
    LaneNextStep(r, q, 2, {r, q}, Interrupted(byRequest), !byRequest);
    hide Run, Enabled, Apply, TwoRecords, Opening, ContextCancelled, Working, Interrupted, Interruption;
    FirstHandled(r, q);
    var init, two := TwoRecords(r, q), Opening(r, q) + [LaneNext(0, 0), HandlerReturn(0, 0, true)];
    Follow(init, two, Working(r, q, Lane(1, Waiting), {r}, BoundSignal, false), LaneNext(0, 0));
    var three := two + [LaneNext(0, 0)];
    InterruptionReaches(init, three, r, q, Lane(1, Handling), {r}, byRequest);
    var four := three + Interruption(byRequest);
    Follow(init, four, Working(r, q, Lane(1, Handling), {r}, Interrupted(byRequest), !byRequest), HandlerReturn(0, 0, true));
    assert {r} + {[r, q][1]} == {r, q};
    Follow(init, four + [HandlerReturn(0, 0, true)], Working(r, q, Lane(2, Waiting), {r, q}, Interrupted(byRequest), !byRequest), LaneNext(0, 0));
  }
}
