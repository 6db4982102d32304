// cmd/triton-capacity-bench/workload.go: a dispatcher, an unbuffered channel and a
// fixed number of workers that write one slot of a results array per job.
module Workload {
  import RateScheduler
  import opened Wrappers

  datatype Worker = Receiving | Running(index: nat) | Exited

  datatype State = State(
    paced: bool,
    submitted: nat,
    dispatching: bool,            // the channel is still open
    workers: seq<Worker>,
    writes: seq<nat>,             // how often each slot of the results was written
    failed: set<nat>,             // jobs whose call returned an error
    firstFailure: Option<nat>,    // the one-element failure channel
    cancelled: bool)              // the paced context

  ghost predicate Init(s: State) {
    && s.submitted == 0 && s.dispatching && !s.cancelled && s.failed == {} && s.firstFailure == None
    && (forall w :: 0 <= w < |s.workers| ==> s.workers[w] == Receiving)
    && (forall i :: 0 <= i < |s.writes| ==> s.writes[i] == 0)
  }

  datatype Step =
    | Send(w: nat)              // the dispatcher hands the next job to worker w
    | StopDispatch              // the dispatcher is finished, or the paced one gives up; the channel closes
    | Finish(w: nat, ok: bool)  // the call returns, its slot is written
    | Drain(w: nat)             // the worker finds the channel closed
    | Cancel                    // the parent context

  predicate Enabled(s: State, step: Step) {
    match step
    case Send(w) => s.dispatching && s.submitted < |s.writes| && w < |s.workers| && s.workers[w].Receiving?
    case StopDispatch => s.dispatching && (s.paced || s.submitted == |s.writes|)
    case Finish(w, _) => w < |s.workers| && s.workers[w].Running? && s.workers[w].index < |s.writes|
    case Drain(w) => !s.dispatching && w < |s.workers| && s.workers[w].Receiving?
    case Cancel => true
  }

  function Apply(s: State, step: Step): State
    requires Enabled(s, step)
  {
    match step
    case Send(w) => s.(workers := s.workers[w := Running(s.submitted)], submitted := s.submitted + 1)
    case StopDispatch => s.(dispatching := false)
    case Finish(w, ok) =>
      var index := s.workers[w].index;
      var written := s.(writes := s.writes[index := s.writes[index] + 1], failed := if ok then s.failed else s.failed + {index});
      if s.paced && !ok then
        written.(workers := s.workers[w := Exited], cancelled := true,
                 firstFailure := if s.firstFailure.None? then Some(index) else s.firstFailure)
      else written.(workers := s.workers[w := Receiving])
    case Drain(w) => s.(workers := s.workers[w := Exited])
    case Cancel => s.(cancelled := true)
  }

  // Disabled steps are skipped, so every sequence of steps is a schedule.
  function Run(s: State, steps: seq<Step>): State
    decreases |steps|
  {
    if steps == [] then s else Run(if Enabled(s, steps[0]) then Apply(s, steps[0]) else s, steps[1..])
  }

  // ---- the invariant ----

  predicate InHand(s: State, i: nat, w: nat) {
    w < |s.workers| && s.workers[w] == Running(i)
  }

  // A submitted job is either in the hands of one worker or written once.
  ghost predicate Inv(s: State) {
    && s.submitted <= |s.writes|
    && (forall w :: 0 <= w < |s.workers| && s.workers[w].Running? ==> s.workers[w].index < s.submitted && s.writes[s.workers[w].index] == 0)
    && (forall v, w :: 0 <= v < w < |s.workers| && s.workers[v].Running? ==> s.workers[v] != s.workers[w])
    && (forall i :: 0 <= i < |s.writes| ==> s.writes[i] <= 1)
    && (forall i :: s.submitted <= i < |s.writes| ==> s.writes[i] == 0)
    && (forall i: nat :: i < s.submitted && s.writes[i] == 0 ==> exists w: nat :: InHand(s, i, w))
    && (forall i :: i in s.failed ==> i < |s.writes| && s.writes[i] == 1)
    && (s.firstFailure.Some? ==> s.firstFailure.value in s.failed)
    && (s.paced && s.failed != {} ==> s.firstFailure.Some? && s.cancelled)
    && (!s.paced ==> s.firstFailure.None? && (!s.dispatching ==> s.submitted == |s.writes|))
  }

  lemma HandsKept(s: State, t: State, w: nat, i: nat)
    requires Inv(s) && |t.workers| == |s.workers| && w < |s.workers|
    requires forall v :: 0 <= v < |s.workers| && v != w ==> t.workers[v] == s.workers[v]
    requires i < s.submitted && s.writes[i] == 0 && s.workers[w] != Running(i)
    ensures exists v: nat :: InHand(t, i, v)
  {
    var v: nat :| InHand(s, i, v);
    assert InHand(t, i, v);
  }

  lemma SendKeeps(s: State, w: nat)
    requires Inv(s) && Enabled(s, Send(w))
    ensures Inv(Apply(s, Send(w)))
  {
    var t := Apply(s, Send(w));
    forall i: nat | i < t.submitted && t.writes[i] == 0
      ensures exists v: nat :: InHand(t, i, v)
    {
      if i == s.submitted {
        assert InHand(t, i, w);
      } else {
        HandsKept(s, t, w, i);
      }
    }
  }

  lemma FinishKeeps(s: State, w: nat, ok: bool)
    requires Inv(s) && Enabled(s, Finish(w, ok))
    ensures Inv(Apply(s, Finish(w, ok)))
  {
    var t := Apply(s, Finish(w, ok));
    forall i: nat | i < t.submitted && t.writes[i] == 0
      ensures exists v: nat :: InHand(t, i, v)
    {
      HandsKept(s, t, w, i);
    }
  }

  // The other steps change no job that is in hand.
  lemma QuietKeeps(s: State, step: Step)
    requires Inv(s) && Enabled(s, step) && (step.Drain? || step.StopDispatch? || step.Cancel?)
    ensures Inv(Apply(s, step))
  {
    var t := Apply(s, step);
    forall i: nat | i < t.submitted && t.writes[i] == 0
      ensures exists v: nat :: InHand(t, i, v)
    {
      var v: nat :| InHand(s, i, v);
      assert InHand(t, i, v);
    }
  }

  lemma StepInv(s: State, step: Step)
    requires Inv(s) && Enabled(s, step)
    ensures Inv(Apply(s, step)) && s.submitted <= Apply(s, step).submitted && |Apply(s, step).writes| == |s.writes|
  {
    hide Inv;
    match step
    case Send(w) => SendKeeps(s, w);
    case Finish(w, ok) => FinishKeeps(s, w, ok);
    case Drain(_) => QuietKeeps(s, step);
    case StopDispatch => QuietKeeps(s, step);
    case Cancel => QuietKeeps(s, step);
  }

  lemma {:induction false} RunInv(s: State, steps: seq<Step>)
    requires Inv(s)
    ensures Inv(Run(s, steps)) && |Run(s, steps).writes| == |s.writes| && Run(s, steps).paced == s.paced
    decreases |steps|
  {
    hide Inv;
    if steps != [] {
      if Enabled(s, steps[0]) {
        StepInv(s, steps[0]);
        RunInv(Apply(s, steps[0]), steps[1..]);
      } else {
        RunInv(s, steps[1..]);
      }
    }
  }

  // ---- conservation ----

  // The dispatcher has returned and every worker is done.
  ghost predicate Finished(s: State) {
    !s.dispatching && forall w :: 0 <= w < |s.workers| ==> s.workers[w] == Exited
  }

  // When the workload returns, exactly the submitted jobs' slots were written, each
  // once; an error is reported exactly when a paced call failed; and the unpaced
  // mode submitted everything.
  lemma EachSubmittedJobWrittenOnce(init: State, steps: seq<Step>)
    requires Init(init) && Finished(Run(init, steps))
    ensures var s := Run(init, steps);
      && s.submitted <= |init.writes| == |s.writes|
      && (forall i :: 0 <= i < |s.writes| ==> s.writes[i] == if i < s.submitted then 1 else 0)
      && (s.firstFailure.Some? <==> s.paced && s.failed != {})
      && (!s.paced ==> s.submitted == |s.writes|)
  {
    RunInv(init, steps);
    var s := Run(init, steps);
    forall i: nat | i < s.submitted
      ensures s.writes[i] == 1
    {
      NothingInHand(s, i);
    }
  }

  lemma NothingInHand(s: State, i: nat)
    requires Finished(s)
    ensures forall w: nat :: !InHand(s, i, w)
  {
  }

  // The jobs handed over, in order.
  function Sent(s: State, steps: seq<Step>): seq<nat>
    decreases |steps|
  {
    if steps == [] then []
    else if !Enabled(s, steps[0]) then Sent(s, steps[1..])
    else (if steps[0].Send? then [s.submitted] else []) + Sent(Apply(s, steps[0]), steps[1..])
  }

  lemma {:induction false} SentInOrder(s: State, steps: seq<Step>)
    ensures |Sent(s, steps)| == Run(s, steps).submitted - s.submitted
    ensures forall i :: 0 <= i < |Sent(s, steps)| ==> Sent(s, steps)[i] == s.submitted + i
    decreases |steps|
  {
    if steps != [] {
      SentInOrder(if Enabled(s, steps[0]) then Apply(s, steps[0]) else s, steps[1..]);
    }
  }

  // The rate scheduler counts the jobs that its callback handed over and reports that they
  // are the first ones.  When the workload returns, exactly so many slots were written.
  lemma DispatchedJobsAreWritten(init: State, steps: seq<Step>, count: nat)
    requires Init(init) && Finished(Run(init, steps))
    requires Sent(init, steps) == RateScheduler.Indices(count)
    ensures var s := Run(init, steps);
      && count == s.submitted <= |s.writes|
      && (forall i :: 0 <= i < |s.writes| ==> s.writes[i] == if i < count then 1 else 0)
  {
    hide Run, Sent, Finished;
    SentInOrder(init, steps);
    EachSubmittedJobWrittenOnce(init, steps);
  }

  // No slot is ever written by two workers at once, or twice.
  lemma NoSlotIsShared(init: State, steps: seq<Step>, v: nat, w: nat)
    requires Init(init)
    requires var s := Run(init, steps); v < w < |s.workers| && s.workers[v].Running? && s.workers[w].Running?
    ensures var s := Run(init, steps); s.workers[v].index != s.workers[w].index && s.workers[v].index < |s.writes| && s.writes[s.workers[v].index] == 0
  {
    RunInv(init, steps);
  }

  // ---- the workload can always finish ----

  // Unpaced, no worker leaves while jobs may come.
  ghost predicate Staffed(s: State) {
    !s.paced && s.dispatching ==> forall w :: 0 <= w < |s.workers| ==> s.workers[w] != Exited
  }

  lemma {:induction false} RunStaffed(s: State, steps: seq<Step>)
    requires Staffed(s)
    ensures Staffed(Run(s, steps)) && |Run(s, steps).workers| == |s.workers|
    decreases |steps|
  {
    if steps != [] {
      RunStaffed(if Enabled(s, steps[0]) then Apply(s, steps[0]) else s, steps[1..]);
    }
  }

  lemma {:induction false} RunConcat(s: State, a: seq<Step>, b: seq<Step>)
    ensures Run(s, a + b) == Run(Run(s, a), b)
    decreases |a|
  {
    hide Enabled, Apply;
    if a == [] {
      assert a + b == b;
    } else {
      assert (a + b)[1..] == a[1..] + b;
      RunConcat(if Enabled(s, a[0]) then Apply(s, a[0]) else s, a[1..], b);
    }
  }

  lemma RunOne(s: State, step: Step)
    requires Enabled(s, step)
    ensures Run(s, [step]) == Apply(s, step)
  {
    hide Enabled, Apply;
    assert [step][1..] == [];
  }

  // The calls in flight return.
  lemma CallsReturn(s: State, from: nat) returns (steps: seq<Step>)
    requires Inv(s) && Staffed(s) && from <= |s.workers|
    ensures var t := Run(s, steps);
      && Inv(t) && Staffed(t) && t.paced == s.paced && t.dispatching == s.dispatching && t.submitted == s.submitted
      && |t.workers| == |s.workers| && |t.writes| == |s.writes|
      && (forall w :: from <= w < |t.workers| ==> !t.workers[w].Running?)
      && (forall w :: 0 <= w < from ==> t.workers[w] == s.workers[w])
    decreases |s.workers| - from
  {
    hide Inv;
    if from == |s.workers| {
      return [];
    }
    var rest := CallsReturn(s, from + 1);
    var t := Run(s, rest);
    steps := rest;
    if t.workers[from].Running? {
      HandIsSlot(t, from);
      StepInv(t, Finish(from, true));
      RunOne(t, Finish(from, true));
      RunConcat(s, rest, [Finish(from, true)]);
      hide Run;
      steps := rest + [Finish(from, true)];
    }
  }

  lemma HandIsSlot(s: State, w: nat)
    requires Inv(s) && w < |s.workers| && s.workers[w].Running?
    ensures s.workers[w].index < |s.writes|
  {
  }

  // An idle unpaced workload can run the remaining jobs one by one.
  lemma JobsRun(s: State) returns (steps: seq<Step>)
    requires Inv(s) && !s.paced && s.dispatching && s.workers != [] && forall w :: 0 <= w < |s.workers| ==> s.workers[w] == Receiving
    ensures var t := Run(s, steps);
      && Inv(t) && t.paced == s.paced && t.dispatching && t.workers == s.workers && |t.writes| == |s.writes|
      && t.submitted == |t.writes|
    decreases |s.writes| - s.submitted
  {
    SubmittedFits(s);
    hide Inv;
    if s.submitted == |s.writes| {
      return [];
    }
    var a, b := Send(0), Finish(0, true);
    StepInv(s, a);
    RunOne(s, a);
    var t := Apply(s, a);
    StepInv(t, b);
    RunOne(t, b);
    var u := Apply(t, b);
    assert u.workers == s.workers;
    var rest := JobsRun(u);
    RunConcat(s, [a], [b]);
    RunConcat(s, [a] + [b], rest);
    steps := [a] + [b] + rest;
  }

  lemma SubmittedFits(s: State)
    requires Inv(s)
    ensures s.submitted <= |s.writes|
  {
  }

  // Workers find the channel closed.
  lemma WorkersLeave(s: State, from: nat) returns (steps: seq<Step>)
    requires !s.dispatching && from <= |s.workers| && forall w :: 0 <= w < |s.workers| ==> !s.workers[w].Running?
    ensures var t := Run(s, steps);
      && !t.dispatching && |t.workers| == |s.workers|
      && (forall w :: 0 <= w < |t.workers| ==> !t.workers[w].Running?)
      && (forall w :: from <= w < |t.workers| ==> t.workers[w] == Exited)
    decreases |s.workers| - from
  {
    if from == |s.workers| {
      return [];
    }
    var rest := WorkersLeave(s, from + 1);
    var t := Run(s, rest);
    steps := rest;
    if t.workers[from].Receiving? {
      RunOne(t, Drain(from));
      RunConcat(s, rest, [Drain(from)]);
      hide Run;
      steps := rest + [Drain(from)];
    }
  }

  // From every reachable state the workload can return: nobody waits for ever on the
  // channel, whatever failed or was cancelled before.
  lemma CanAlwaysFinish(init: State, before: seq<Step>) returns (steps: seq<Step>)
    requires Init(init) && init.workers != []
    ensures Finished(Run(init, before + steps))
  {
    RunInv(init, before);
    RunStaffed(init, before);
    var s := Run(init, before);
    var calls := CallsReturn(s, 0);
    var t := Run(s, calls);
    var jobs: seq<Step> := [];
    if !t.paced && t.dispatching {
      jobs := JobsRun(t);
    }
    var u := Run(t, jobs);
    var stop := if u.dispatching then [StopDispatch] else [];
    if u.dispatching {
      RunOne(u, StopDispatch);
    }
    var v := Run(u, stop);
    var leave := WorkersLeave(v, 0);
    hide Run, Inv, Staffed;
    RunConcat(s, calls, jobs);
    RunConcat(s, calls + jobs, stop);
    RunConcat(s, calls + jobs + stop, leave);
    steps := calls + jobs + stop + leave;
    RunConcat(init, before, steps);
  }

  // ---- which failure is reported ----

  // The first call that failed, in the order in which the calls returned.
  function FirstFailed(s: State, steps: seq<Step>): Option<nat>
    decreases |steps|
  {
    if steps == [] then None
    else if Enabled(s, steps[0]) && steps[0].Finish? && !steps[0].ok then Some(s.workers[steps[0].w].index)
    else FirstFailed(if Enabled(s, steps[0]) then Apply(s, steps[0]) else s, steps[1..])
  }

  // A paced workload reports the first failure and cancels its calls for it, an unpaced one
  // does neither.
  lemma {:induction false} ReportsFirstFailure(s: State, steps: seq<Step>)
    ensures Run(s, steps).firstFailure ==
      if s.firstFailure.Some? || !s.paced then s.firstFailure else FirstFailed(s, steps)
    ensures Run(s, steps).cancelled <==> s.cancelled || Cancel in steps || (s.paced && FirstFailed(s, steps).Some?)
    decreases |steps|
  {
    if steps != [] {
      ReportsFirstFailure(if Enabled(s, steps[0]) then Apply(s, steps[0]) else s, steps[1..]);
    }
  }
}
