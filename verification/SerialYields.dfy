// When the serial runner yields, is its record committed?  The record processor commits
// before the runner looks for a request (internal/adapter/kafka/record_processor.go:33-57,
// consumer_rebalance_yield.go:125-162), so a yielded record may be committed.  It is
// exactly when the handler returned nil and the broker applied the commit.
module SerialYields {
  import opened KafkaTypes
  import opened ConsumerGroup
  import opened SerialConsumer
  import RebalanceYield
  import opened Wrappers

  // ---- what a run did for the record that member m works on ----

  // The handler has returned nil since m last bound a record.
  ghost predicate HandlerSucceeded(init: System, steps: seq<Step>, m: Member)
    decreases |steps|
  {
    steps != [] &&
    var before, last := steps[..|steps| - 1], steps[|steps| - 1];
    if !Enabled(Run(init, before), last) then HandlerSucceeded(init, before, m)
    else if last == BindRecord(m) then false
    else if last.HandlerReturn? && last.m == m then last.ok
    else HandlerSucceeded(init, before, m)
  }

  // The broker has applied a commit of m since m last bound a record.
  ghost predicate CommitApplied(init: System, steps: seq<Step>, m: Member)
    decreases |steps|
  {
    steps != [] &&
    var before, last := steps[..|steps| - 1], steps[|steps| - 1];
    if !Enabled(Run(init, before), last) then CommitApplied(init, before, m)
    else if last == BindRecord(m) then false
    else if last.CommitRecord? && last.m == m then last.applied
    else CommitApplied(init, before, m)
  }

  // What a phase says about that history.
  ghost predicate Tells(phase: Phase, succeeded: bool, applied: bool) {
    match phase
    case Handling(_, _) => !succeeded && !applied
    case Handled(_, _) => succeeded && !applied
    case Returned(_, _, ok, a) => (ok ==> a) && a == applied && (applied ==> succeeded)
    case Confirmed(_) => succeeded && applied
    case _ => true
  }

  lemma {:induction false} RunAppend(s: System, steps: seq<Step>, step: Step)
    ensures var t := Run(s, steps);
      Run(s, steps + [step]) == if Enabled(t, step) then Apply(t, step) else t
    decreases |steps|
  {
    hide Enabled, Apply;
    if steps == [] {
      assert [step][1..] == [];
    } else {
      assert (steps + [step])[1..] == steps[1..] + [step];
      RunAppend(if Enabled(s, steps[0]) then Apply(s, steps[0]) else s, steps[1..], step);
    }
  }

  // One step of the history and one step of the machine agree.
  lemma StepTells(s: System, step: Step, m: Member, succeeded: bool, applied: bool)
    requires Enabled(s, step) && (m in s.sessions ==> Tells(s.sessions[m].phase, succeeded, applied))
    ensures var t := Apply(s, step);
      var nextSucceeded := if step == BindRecord(m) then false else if step.HandlerReturn? && step.m == m then step.ok else succeeded;
      var nextApplied := if step == BindRecord(m) then false else if step.CommitRecord? && step.m == m then step.applied else applied;
      m in t.sessions ==> Tells(t.sessions[m].phase, nextSucceeded, nextApplied)
  {
    hide RebalanceYield.Apply, Append, Assign, Unassign, UnassignAll, Handle, Commit, CanAppend, NextInLog;
  }

  lemma {:induction false} RunTells(init: System, steps: seq<Step>, m: Member)
    requires Init(init)
    ensures var s := Run(init, steps);
      m in s.sessions ==> Tells(s.sessions[m].phase, HandlerSucceeded(init, steps, m), CommitApplied(init, steps, m))
    decreases |steps|
  {
    hide Init, Enabled, Apply, Tells, Run;
    if steps == [] {
      StartTells(init, m);
    } else {
      var before, last := steps[..|steps| - 1], steps[|steps| - 1];
      assert steps == before + [last];
      RunTells(init, before, m);
      RunAppend(init, before, last);
      if Enabled(Run(init, before), last) {
        StepTells(Run(init, before), last, m, HandlerSucceeded(init, before, m), CommitApplied(init, before, m));
      }
    }
  }

  lemma StartTells(init: System, m: Member)
    requires Init(init)
    ensures m in Run(init, []).sessions ==> Tells(Run(init, []).sessions[m].phase, false, false)
  {
  }

  // ---- both yield checks ----

  ghost predicate YieldsBy(s: System, m: Member, check: Step) {
    && (check == CheckResult(m) || check == CheckAgain(m))
    && Enabled(s, check) && Apply(s, check).sessions[m].phase == Ended(Yielded)
  }

  // A session that yields and still owns its record's partition leaves the record committed
  // exactly when, in this run, the handler returned nil for it and the broker applied its
  // commit.  Otherwise the partition stays at or below the record.
  lemma YieldedExactly(init: System, steps: seq<Step>, m: Member, check: Step)
    requires Init(init) && YieldsBy(Run(init, steps), m, check)
    ensures var s := Run(init, steps);
      var c, r := Apply(s, check).broker, s.sessions[m].phase.record;
      var committed := HandlerSucceeded(init, steps, m) && CommitApplied(init, steps, m);
      && (r.Home() in c.owner && c.owner[r.Home()] == m ==>
            && r.Home() in c.committed
            && (committed ==> c.committed[r.Home()] == r.offset + 1)
            && (!committed ==> c.committed[r.Home()] <= r.offset))
      && (check == CheckAgain(m) ==> committed)
  {
    hide Inv, Run, Init, Apply, Tells, HandlerSucceeded, CommitApplied;
    InitInv(init);
    RunInv(init, steps);
    RunTells(init, steps, m);
    YieldedBroker(Run(init, steps), m, check, HandlerSucceeded(init, steps, m), CommitApplied(init, steps, m));
  }

  lemma YieldedBroker(s: System, m: Member, check: Step, succeeded: bool, applied: bool)
    requires Inv(s) && YieldsBy(s, m, check) && Tells(s.sessions[m].phase, succeeded, applied)
    ensures var c, r := Apply(s, check).broker, s.sessions[m].phase.record;
      && (r.Home() in c.owner && c.owner[r.Home()] == m ==>
            && r.Home() in c.committed
            && (succeeded && applied ==> c.committed[r.Home()] == r.offset + 1)
            && (!(succeeded && applied) ==> c.committed[r.Home()] <= r.offset))
      && (check == CheckAgain(m) ==> succeeded && applied)
  {
    hide BrokerInv, NextInLog, CanAppend, RebalanceYield.Inv, RecordInv, InSync, RebalanceYield.Apply;
    assert SessionInv(s.broker, m, s.sessions[m]);
  }

  // ---- a run that yields after the commit, at either check ----

  // One stopped member in front of a log with exactly this record.
  function OneRecord(r: Record): System {
    var p := r.Home();
    System(
      Broker({r}, map[p := r.offset + 1], map[p := r.offset], map[p := r.offset], map[], {}),
      map[0 := FreshSession.(phase := Ended(Stopped))])
  }

  // The member owns the partition and is in the given phase.
  function At(r: Record, phase: Phase, signal: RebalanceYield.State, position: nat, committed: nat, handled: set<Record>): System {
    var p := r.Home();
    System(
      Broker({r}, map[p := r.offset + 1], map[p := r.offset], map[p := committed], map[p := 0], handled),
      map[0 := Session(phase, signal, map[p := position], false)])
  }

  // The record is handled and its commit applied.
  function ToCommit(r: Record): seq<Step> {
    [StartSession(0), AssignPartition(0, r.Home()), CaptureGeneration(0), Poll(0, r), BindRecord(0), HandlerReturn(0, true),
     CommitRecord(0, true, true)]
  }

  // The request comes before the first check, or between the two.
  function YieldSteps(r: Record, late: bool): seq<Step> {
    ToCommit(r) + if late then [CheckResult(0), RequestLock(0), CheckAgain(0)] else [RequestLock(0), CheckResult(0)]
  }

  const Bound := RebalanceYield.State(0, Some(0), multiset{}, {}, 0, Some(RebalanceYield.Binding(0, 0)), 1)

  const Requested := Bound.(generation := 1, pending := multiset{0})
  const Released := Requested.(target := None, bound := None, cancelled := {0})

  lemma Signals()
    ensures RebalanceYield.Apply(RebalanceYield.Initial, RebalanceYield.Capture) == RebalanceYield.Initial
    ensures RebalanceYield.Apply(RebalanceYield.Initial, RebalanceYield.Bind) == Bound
    ensures RebalanceYield.Apply(Bound, RebalanceYield.RequestLock) == Requested
    ensures RebalanceYield.Apply(Requested, RebalanceYield.Release) == Released
  {
  }

  lemma Follow(init: System, steps: seq<Step>, s: System, step: Step)
    requires Run(init, steps) == s && Enabled(s, step)
    ensures Run(init, steps + [step]) == Apply(s, step)
  {
    hide Enabled, Apply;
    RunAppend(init, steps, step);
  }

  lemma Starts(r: Record)
    ensures Init(OneRecord(r))
    ensures Run(OneRecord(r), ToCommit(r)[..2]) == At(r, Ready, RebalanceYield.Initial, r.offset, r.offset, {})
  {
    var init, p, all := OneRecord(r), r.Home(), ToCommit(r);
    Follow(init, [], init, StartSession(0));
    var s := Apply(init, StartSession(0));
    Follow(init, [StartSession(0)], s, AssignPartition(0, p));
    var t := At(r, Ready, RebalanceYield.Initial, r.offset, r.offset, {});
    assert Apply(s, AssignPartition(0, p)).sessions == t.sessions;
    assert Apply(s, AssignPartition(0, p)).broker.owner == t.broker.owner;
    assert all[..2] == [StartSession(0)] + [AssignPartition(0, p)];
  }

  lemma CaptureAndPoll(r: Record)
    ensures var s := At(r, Ready, RebalanceYield.Initial, r.offset, r.offset, {});
      Enabled(s, CaptureGeneration(0)) &&
      Apply(s, CaptureGeneration(0)) == At(r, Captured, RebalanceYield.Initial, r.offset, r.offset, {})
    ensures var s := At(r, Captured, RebalanceYield.Initial, r.offset, r.offset, {});
      Enabled(s, Poll(0, r)) &&
      Apply(s, Poll(0, r)) == At(r, Polled(r, r.offset), RebalanceYield.Initial, r.offset + 1, r.offset, {})
  {
    hide RebalanceYield.Apply;
    Signals();
    var s := At(r, Ready, RebalanceYield.Initial, r.offset, r.offset, {});
    var t := At(r, Captured, RebalanceYield.Initial, r.offset, r.offset, {});
    var u := At(r, Polled(r, r.offset), RebalanceYield.Initial, r.offset + 1, r.offset, {});
    assert Apply(s, CaptureGeneration(0)).sessions == t.sessions;
    assert Apply(t, Poll(0, r)).sessions[0].positions == u.sessions[0].positions;
    assert Apply(t, Poll(0, r)).sessions == u.sessions;
  }

  lemma BindStep(r: Record)
    ensures var s := At(r, Polled(r, r.offset), RebalanceYield.Initial, r.offset + 1, r.offset, {});
      Enabled(s, BindRecord(0)) &&
      Apply(s, BindRecord(0)) == At(r, Handling(r, r.offset), Bound, r.offset + 1, r.offset, {})
  {
    hide RebalanceYield.Apply;
    Signals();
    var s := At(r, Polled(r, r.offset), RebalanceYield.Initial, r.offset + 1, r.offset, {});
    assert Apply(s, BindRecord(0)).sessions == At(r, Handling(r, r.offset), Bound, r.offset + 1, r.offset, {}).sessions;
  }

  lemma HandleStep(r: Record)
    ensures var s := At(r, Handling(r, r.offset), Bound, r.offset + 1, r.offset, {});
      Enabled(s, HandlerReturn(0, true)) &&
      Apply(s, HandlerReturn(0, true)) == At(r, Handled(r, r.offset), Bound, r.offset + 1, r.offset, {r})
  {
    var s := At(r, Handling(r, r.offset), Bound, r.offset + 1, r.offset, {});
    assert Apply(s, HandlerReturn(0, true)).sessions == At(r, Handled(r, r.offset), Bound, r.offset + 1, r.offset, {r}).sessions;
  }

  lemma CommitStep(r: Record)
    ensures var s := At(r, Handled(r, r.offset), Bound, r.offset + 1, r.offset, {r});
      Enabled(s, CommitRecord(0, true, true)) &&
      Apply(s, CommitRecord(0, true, true)) == At(r, Returned(r, r.offset, true, true), Bound, r.offset + 1, r.offset + 1, {r})
  {
    var s := At(r, Handled(r, r.offset), Bound, r.offset + 1, r.offset, {r});
    var t := At(r, Returned(r, r.offset, true, true), Bound, r.offset + 1, r.offset + 1, {r});
    assert Apply(s, CommitRecord(0, true, true)).sessions == t.sessions;
    assert Apply(s, CommitRecord(0, true, true)).broker.committed == t.broker.committed;
  }

  lemma CommitReached(r: Record)
    ensures Run(OneRecord(r), ToCommit(r)) == At(r, Returned(r, r.offset, true, true), Bound, r.offset + 1, r.offset + 1, {r})
  {
    hide Run, Enabled, Apply, At, OneRecord;
    Starts(r);
    CaptureAndPoll(r);
    BindStep(r);
    HandleStep(r);
    CommitStep(r);
    var init, all := OneRecord(r), ToCommit(r);
    assert forall n: nat :: n < |all| ==> all[..n + 1] == all[..n] + [all[n]];
    Follow(init, all[..2], At(r, Ready, RebalanceYield.Initial, r.offset, r.offset, {}), CaptureGeneration(0));
    assert all[..3] == all[..2] + [CaptureGeneration(0)];
    Follow(init, all[..3], At(r, Captured, RebalanceYield.Initial, r.offset, r.offset, {}), Poll(0, r));
    assert all[..4] == all[..3] + [Poll(0, r)];
    Follow(init, all[..4], At(r, Polled(r, r.offset), RebalanceYield.Initial, r.offset + 1, r.offset, {}), BindRecord(0));
    assert all[..5] == all[..4] + [BindRecord(0)];
    Follow(init, all[..5], At(r, Handling(r, r.offset), Bound, r.offset + 1, r.offset, {}), HandlerReturn(0, true));
    assert all[..6] == all[..5] + [HandlerReturn(0, true)];
    Follow(init, all[..6], At(r, Handled(r, r.offset), Bound, r.offset + 1, r.offset, {r}), CommitRecord(0, true, true));
    assert all == all[..6] + [CommitRecord(0, true, true)];
  }

  // The end of the run: yielded, with the record committed.
  function YieldedEnd(r: Record): System {
    At(r, Ended(Yielded), Released, r.offset + 1, r.offset + 1, {r})
  }

  lemma EarlySteps(r: Record)
    ensures var s := At(r, Returned(r, r.offset, true, true), Bound, r.offset + 1, r.offset + 1, {r});
      Enabled(s, RequestLock(0)) &&
      Apply(s, RequestLock(0)) == At(r, Returned(r, r.offset, true, true), Requested, r.offset + 1, r.offset + 1, {r})
    ensures var s := At(r, Returned(r, r.offset, true, true), Requested, r.offset + 1, r.offset + 1, {r});
      Enabled(s, CheckResult(0)) && Apply(s, CheckResult(0)) == YieldedEnd(r)
  {
    hide RebalanceYield.Apply;
    Signals();
    var s := At(r, Returned(r, r.offset, true, true), Bound, r.offset + 1, r.offset + 1, {r});
    var t := At(r, Returned(r, r.offset, true, true), Requested, r.offset + 1, r.offset + 1, {r});
    assert Apply(s, RequestLock(0)).sessions == t.sessions;
    assert Apply(t, CheckResult(0)).sessions == YieldedEnd(r).sessions;
  }

  lemma LateSteps(r: Record)
    ensures var s := At(r, Returned(r, r.offset, true, true), Bound, r.offset + 1, r.offset + 1, {r});
      Enabled(s, CheckResult(0)) && Apply(s, CheckResult(0)) == At(r, Confirmed(r), Bound, r.offset + 1, r.offset + 1, {r})
    ensures var s := At(r, Confirmed(r), Bound, r.offset + 1, r.offset + 1, {r});
      Enabled(s, RequestLock(0)) && Apply(s, RequestLock(0)) == At(r, Confirmed(r), Requested, r.offset + 1, r.offset + 1, {r})
  {
    hide RebalanceYield.Apply;
    Signals();
    var s := At(r, Returned(r, r.offset, true, true), Bound, r.offset + 1, r.offset + 1, {r});
    var t := At(r, Confirmed(r), Bound, r.offset + 1, r.offset + 1, {r});
    var u := At(r, Confirmed(r), Requested, r.offset + 1, r.offset + 1, {r});
    assert Apply(s, CheckResult(0)).sessions == t.sessions;
    assert Apply(t, RequestLock(0)).sessions == u.sessions;
  }

  lemma LastStep(r: Record)
    ensures var s := At(r, Confirmed(r), Requested, r.offset + 1, r.offset + 1, {r});
      Enabled(s, CheckAgain(0)) && Apply(s, CheckAgain(0)) == YieldedEnd(r)
  {
    hide RebalanceYield.Apply;
    Signals();
    var s := At(r, Confirmed(r), Requested, r.offset + 1, r.offset + 1, {r});
    assert Apply(s, CheckAgain(0)).sessions == YieldedEnd(r).sessions;
  }

  lemma EndIsCommitted(r: Record)
    ensures YieldedEnd(r).sessions[0].phase == Ended(Yielded) && YieldedEnd(r).broker.committed == map[r.Home() := r.offset + 1]
  {
  }

  // For every record, a run from the initial state that yields with the record committed.
  lemma YieldAfterCommitHappens(r: Record, late: bool)
    ensures Init(OneRecord(r))
    ensures Run(OneRecord(r), YieldSteps(r, late)) == YieldedEnd(r)
    ensures YieldedEnd(r).sessions[0].phase == Ended(Yielded) && YieldedEnd(r).broker.committed == map[r.Home() := r.offset + 1]
  {
    Starts(r);
    EarlySteps(r);
    LateSteps(r);
    LastStep(r);
    EndIsCommitted(r);
    hide Run, Enabled, Apply, OneRecord, ToCommit, At, YieldedEnd;
    CommitReached(r);
    var init, all := OneRecord(r), ToCommit(r);
    var s := At(r, Returned(r, r.offset, true, true), Bound, r.offset + 1, r.offset + 1, {r});
    if late {
      var t := At(r, Confirmed(r), Bound, r.offset + 1, r.offset + 1, {r});
      Follow(init, all, s, CheckResult(0));
      Follow(init, all + [CheckResult(0)], t, RequestLock(0));
      Follow(init, all + [CheckResult(0)] + [RequestLock(0)], At(r, Confirmed(r), Requested, r.offset + 1, r.offset + 1, {r}), CheckAgain(0));
      assert YieldSteps(r, late) == all + [CheckResult(0)] + [RequestLock(0)] + [CheckAgain(0)];
    } else {
      Follow(init, all, s, RequestLock(0));
      Follow(init, all + [RequestLock(0)], At(r, Returned(r, r.offset, true, true), Requested, r.offset + 1, r.offset + 1, {r}), CheckResult(0));
      assert YieldSteps(r, late) == all + [RequestLock(0)] + [CheckResult(0)];
    }
  }

  // ---- when the runner yields, and what it does otherwise ----

  // A rebalance was requested since m last captured the generation.
  ghost predicate RequestedSince(init: System, steps: seq<Step>, m: Member)
    decreases |steps|
  {
    steps != [] &&
    var before, last := steps[..|steps| - 1], steps[|steps| - 1];
    if !Enabled(Run(init, before), last) then RequestedSince(init, before, m)
    else if last == RequestLock(m) then true
    else if last == CaptureGeneration(m) || last == StartSession(m) || last == Crash(m) then false
    else RequestedSince(init, before, m)
  }

  lemma CapturedBefore(s: System, m: Member)
    requires Inv(s) && m in s.sessions
    ensures s.sessions[m].signal.captured <= s.sessions[m].signal.generation
  {
    assert SessionInv(s.broker, m, s.sessions[m]);
  }

  lemma StepRequested(s: System, step: Step, m: Member, requested: bool)
    requires Inv(s) && Enabled(s, step)
    requires m in s.sessions ==> (s.sessions[m].signal.generation != s.sessions[m].signal.captured <==> requested)
    ensures var t := Apply(s, step);
      var next := if step == RequestLock(m) then true
                  else if step == CaptureGeneration(m) || step == StartSession(m) || step == Crash(m) then false else requested;
      m in t.sessions ==> (t.sessions[m].signal.generation != t.sessions[m].signal.captured <==> next)
  {
    hide RebalanceYield.Inv;
    hide BrokerInv, RecordInv, Held, InSync, NextInLog, Append, Assign, Unassign, UnassignAll, Handle, Commit, CanAppend;
    if m in s.sessions {
      CapturedBefore(s, m);
    }
  }

  lemma {:induction false} RunRequested(init: System, steps: seq<Step>, m: Member)
    requires Init(init)
    ensures var s := Run(init, steps);
      m in s.sessions ==> (s.sessions[m].signal.generation != s.sessions[m].signal.captured <==> RequestedSince(init, steps, m))
    decreases |steps|
  {
    hide Init, Enabled, Apply, Run, Inv;
    if steps == [] {
      NothingRequested(init, m);
    } else {
      var before, last := steps[..|steps| - 1], steps[|steps| - 1];
      assert steps == before + [last];
      RunRequested(init, before, m);
      RunAppend(init, before, last);
      if Enabled(Run(init, before), last) {
        InitInv(init);
        RunInv(init, before);
        StepRequested(Run(init, before), last, m, RequestedSince(init, before, m));
      }
    }
  }

  lemma NothingRequested(init: System, m: Member)
    requires Init(init)
    ensures Run(init, []) == init
    ensures m in init.sessions ==> init.sessions[m].signal.generation == init.sessions[m].signal.captured
  {
  }

  // In every run: at either check the session yields exactly when a rebalance was requested
  // since its capture.  Otherwise the first check ends it exactly when the processor failed,
  // and the second one polls again.
  lemma ChecksDecideExactly(init: System, steps: seq<Step>, m: Member)
    requires Init(init)
    ensures var s := Run(init, steps);
      Enabled(s, CheckResult(m)) ==>
        var next := Apply(s, CheckResult(m)).sessions[m].phase;
        && (next == Ended(Yielded) <==> RequestedSince(init, steps, m))
        && (next.Confirmed? <==> !RequestedSince(init, steps, m) && s.sessions[m].phase.ok)
        && (next == Ended(HandlerFailed) <==> !RequestedSince(init, steps, m) && !s.sessions[m].phase.ok && !s.sessions[m].runCancelled)
    ensures var s := Run(init, steps);
      Enabled(s, CheckAgain(m)) ==>
        Apply(s, CheckAgain(m)).sessions[m].phase == if RequestedSince(init, steps, m) then Ended(Yielded) else Ready
  {
    hide Run, Init, RequestedSince, RebalanceYield.Apply;
    RunRequested(init, steps, m);
  }

  // The commit of a handled record sets its partition to the next offset exactly when the
  // broker applies it, and touches no other partition.
  lemma CommitExactly(init: System, steps: seq<Step>, m: Member, applied: bool, ok: bool)
    requires Init(init) && Enabled(Run(init, steps), CommitRecord(m, applied, ok))
    ensures var s, t := Run(init, steps), Apply(Run(init, steps), CommitRecord(m, applied, ok));
      var r := s.sessions[m].phase.record;
      && r in s.broker.handled
      && t.broker.committed.Keys == s.broker.committed.Keys
      && (applied ==> r.Home() in t.broker.committed && t.broker.committed[r.Home()] == r.offset + 1)
      && (forall p :: p in s.broker.committed && (p != r.Home() || !applied) ==> t.broker.committed[p] == s.broker.committed[p])
  {
    hide Run, Init;
    InitInv(init);
    RunInv(init, steps);
    hide RebalanceYield.Inv, RebalanceYield.Apply, NextInLog;
    var s := Run(init, steps);
    assert SessionInv(s.broker, m, s.sessions[m]);
  }

  // Nothing disturbs the record: the run is live, no request came, its partition is owned.
  ghost predicate Smooth(s: System, m: Member) {
    && m in s.sessions && s.sessions[m].phase.Handling?
    && s.sessions[m].signal.generation == s.sessions[m].signal.captured
    && var p := s.sessions[m].phase.record.Home(); p in s.broker.owner && s.broker.owner[p] == m
  }

  // From every such reachable state: if the handler succeeds the record is committed and
  // the session polls again; if it fails the session ends and nothing is committed.
  lemma EveryRecordFinishes(init: System, steps: seq<Step>, m: Member)
    requires Init(init) && Smooth(Run(init, steps), m)
    ensures var s := Run(init, steps);
      var r, t := s.sessions[m].phase.record, Run(s, [HandlerReturn(m, true), CommitRecord(m, true, true), CheckResult(m), CheckAgain(m)]);
      && m in t.sessions && t.sessions[m].phase == Ready && r in t.broker.handled
      && r.Home() in t.broker.committed && t.broker.committed[r.Home()] == r.offset + 1
    ensures var s := Run(init, steps);
      var t := Run(s, [HandlerReturn(m, false), CheckResult(m)]);
      && m in t.sessions && t.broker == s.broker
      && t.sessions[m].phase == Ended(if s.sessions[m].runCancelled then Stopped else HandlerFailed)
  {
    hide Run, Init;
    InitInv(init);
    RunInv(init, steps);
    SmoothRuns(Run(init, steps), m);
    SmoothFails(Run(init, steps), m);
  }

  lemma RunTwo(s: System, a: Step, b: Step)
    requires Enabled(s, a) && Enabled(Apply(s, a), b)
    ensures Run(s, [a, b]) == Apply(Apply(s, a), b)
  {
    hide Enabled, Apply;
    assert [a] + [b] == [a, b] && [a][1..] == [];
    RunAppend(s, [a], b);
  }

  lemma SmoothFails(s: System, m: Member)
    requires Inv(s) && Smooth(s, m)
    ensures var t := Run(s, [HandlerReturn(m, false), CheckResult(m)]);
      && m in t.sessions && t.broker == s.broker
      && t.sessions[m].phase == Ended(if s.sessions[m].runCancelled then Stopped else HandlerFailed)
  {
    hide Inv, Run, RebalanceYield.Apply;
    RunTwo(s, HandlerReturn(m, false), CheckResult(m));
  }

  lemma SmoothRuns(s: System, m: Member)
    requires Inv(s) && Smooth(s, m)
    ensures var r, t := s.sessions[m].phase.record, Run(s, [HandlerReturn(m, true), CommitRecord(m, true, true), CheckResult(m), CheckAgain(m)]);
      && m in t.sessions && t.sessions[m].phase == Ready && r in t.broker.handled
      && r.Home() in t.broker.committed && t.broker.committed[r.Home()] == r.offset + 1
  {
    hide Run, Enabled, Apply;
    var a, b, c, d := HandlerReturn(m, true), CommitRecord(m, true, true), CheckResult(m), CheckAgain(m);
    SmoothCommits(s, m);
    var t := Apply(Apply(s, a), b);
    SmoothChecks(t, m);
    RunTwo(s, a, b);
    RunTwo(t, c, d);
    RunJoin(s, [a, b], c, d);
    assert [a, b] + [c] + [d] == [a, b, c, d];
  }

  lemma SmoothCommits(s: System, m: Member)
    requires Inv(s) && Smooth(s, m)
    ensures Enabled(s, HandlerReturn(m, true)) && Enabled(Apply(s, HandlerReturn(m, true)), CommitRecord(m, true, true))
    ensures var r, t := s.sessions[m].phase.record, Apply(Apply(s, HandlerReturn(m, true)), CommitRecord(m, true, true));
      && m in t.sessions && t.sessions[m].phase == Returned(r, s.sessions[m].phase.base, true, true)
      && t.sessions[m].signal == s.sessions[m].signal
      && r in t.broker.handled && r.Home() in t.broker.committed && t.broker.committed[r.Home()] == r.offset + 1
  {
    hide Held, RecordInv, InSync, LogInv, Covered, NextInLog, RebalanceYield.Inv, RebalanceYield.Apply, SessionInv;
  }

  lemma SmoothChecks(t: System, m: Member)
    requires m in t.sessions && t.sessions[m].phase.Returned? && t.sessions[m].phase.ok
    requires t.sessions[m].signal.generation == t.sessions[m].signal.captured
    ensures Enabled(t, CheckResult(m)) && Enabled(Apply(t, CheckResult(m)), CheckAgain(m))
    ensures var u := Apply(Apply(t, CheckResult(m)), CheckAgain(m));
      m in u.sessions && u.sessions[m].phase == Ready && u.broker == t.broker
  {
    hide RebalanceYield.Apply;
  }

  lemma RunJoin(s: System, front: seq<Step>, c: Step, d: Step)
    requires Enabled(Run(s, front), c) && Enabled(Apply(Run(s, front), c), d)
    ensures Run(s, front + [c] + [d]) == Apply(Apply(Run(s, front), c), d)
  {
    hide Enabled, Apply, Run;
    RunAppend(s, front, c);
    RunAppend(s, front + [c], d);
  }

  // In every run: the reason with which a step ends a session says what happened.
  lemma EndsForItsReason(init: System, steps: seq<Step>, step: Step, m: Member)
    requires Init(init) && Enabled(Run(init, steps), step) && m in Run(init, steps).sessions
    requires !Run(init, steps).sessions[m].phase.Ended? && Apply(Run(init, steps), step).sessions[m].phase.Ended?
    ensures var session := Run(init, steps).sessions[m];
      match Apply(Run(init, steps), step).sessions[m].phase.reason
      case Yielded => (step == CheckResult(m) || step == CheckAgain(m)) && RequestedSince(init, steps, m)
      case Stopped => session.runCancelled && (step == StopAtTop(m) || step == PollEnds(m, Stopped) || step == CheckResult(m))
      case HandlerFailed => step == CheckResult(m) && !session.phase.ok && !session.runCancelled
      case ClientClosed => step == PollEnds(m, ClientClosed) && !session.runCancelled
      case FetchFailed => step == PollEnds(m, FetchFailed) && !session.runCancelled
      case Crashed => step == Crash(m)
  {
    hide Run, Init, RequestedSince, RebalanceYield.Apply, NextInLog;
    RunRequested(init, steps, m);
  }

  // A session whose run was cancelled outside a record can only stop.
  lemma CancelledSessionsStop(s: System, m: Member)
    requires m in s.sessions && s.sessions[m].runCancelled
    ensures forall r :: !Enabled(s, Poll(m, r))
    ensures !Enabled(s, CaptureGeneration(m)) && !Enabled(s, PollEmpty(m))
    ensures s.sessions[m].phase.Ready? ==> Enabled(s, StopAtTop(m)) && Apply(s, StopAtTop(m)).sessions[m].phase == Ended(Stopped)
    ensures s.sessions[m].phase.Captured? ==> Enabled(s, PollEnds(m, Stopped))
  {
  }

  // A poll that fails ends the session with its reason; one without a record lets it poll again.
  lemma FailedPollsEnd(s: System, m: Member, reason: EndReason)
    ensures Enabled(s, PollEnds(m, reason)) ==>
      Apply(s, PollEnds(m, reason)).sessions[m].phase == Ended(reason) && reason in {Stopped, ClientClosed, FetchFailed}
      && Apply(s, PollEnds(m, reason)).broker == s.broker
    ensures Enabled(s, PollEmpty(m)) ==> Apply(s, PollEmpty(m)).sessions[m].phase == Ready && Apply(s, PollEmpty(m)).broker == s.broker
  {
  }
}
