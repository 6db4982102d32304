// cmd/triton-capacity-bench/rate_schedule.go.  Times are integers in nanoseconds;
// each iteration's clock readings, and what the callback and the context do, come from
// a script.
module RateScheduler {
  import opened Integers
  import opened Wrappers

  const SECOND := 1_000_000_000
  const MAX_RATE_DURATION := 600 * SECOND
  const MAX_RATE_REQUESTS := 100000
  const MAX_DISPATCH_LAG := SECOND
  const DISPATCH_WINDOW := 30 * SECOND

  datatype Plan = Plan(rate: int, duration: int, requests: int)

  // ---- planning ----

  function NewPlan(rate: int, duration: int): (plan: Option<Plan>)
    // Up to two hundred a second, for one second to ten minutes, a hundred thousand in all.
    ensures plan.Some? <==> 1 <= rate <= 200 && 1_000_000_000 <= duration <= 600_000_000_000 && duration * rate <= 100_000 * 1_000_000_000
    ensures plan.Some? ==>
      var p := plan.value;
      && p.rate == rate && p.duration == duration
      // One request for every started interval of 1/rate seconds, and no overflow on the way.
      && (p.requests - 1) * SECOND < p.duration * p.rate <= p.requests * SECOND
      && p.duration * p.rate + SECOND - 1 <= MAX_INT64
      && p.requests * SECOND <= MAX_INT64
      && 1 <= p.requests <= MAX_RATE_REQUESTS
  {
    if rate < 1 || rate > 200 || duration < SECOND || duration > MAX_RATE_DURATION then None
    else
      ProductBounds(rate, duration);
      var count := (duration * rate + SECOND - 1) / SECOND;
      if count > MAX_RATE_REQUESTS then None else Some(Plan(rate, duration, count))
  }

  lemma ProductBounds(rate: int, duration: int)
    requires 1 <= rate <= 200 && SECOND <= duration <= MAX_RATE_DURATION
    ensures duration <= duration * rate <= 200 * MAX_RATE_DURATION
  {
    ScaleUp(1, rate, duration);
    ScaleUp(rate, 200, duration);
  }

  predicate Planned(p: Plan) {
    NewPlan(p.rate, p.duration) == Some(p)
  }

  // ---- the scripted environment ----

  datatype Tick = Tick(
    live: bool,        // the context at the top of the iteration
    now: int,          // when the wait for the due time is computed
    fired: bool,       // the timer, rather than the context, ended the wait
    lagAt: int,        // the lag check
    accepted: bool,    // the callback returned nil
    acceptedAt: int,
    endAt: int)        // the last lag check

  function Due(start: int, rate: int, index: nat): int
    requires rate >= 1
  {
    start + index * SECOND / rate
  }

  predicate TickFollows(rate: int, start: int, ticks: nat -> Tick, i: nat)
    requires rate >= 1
  {
    var t := ticks(i);
    && (if i == 0 then start else ticks(i - 1).endAt) <= t.now <= t.lagAt <= t.acceptedAt <= t.endAt
    && (t.fired && t.now < Due(start, rate, i) ==> Due(start, rate, i) <= t.lagAt)
  }

  // A monotonic clock, and timers that do not fire early.
  ghost predicate ClockRuns(plan: Plan, start: int, ticks: nat -> Tick) {
    plan.rate >= 1 ==> forall i: nat :: TickFollows(plan.rate, start, ticks, i)
  }

  lemma {:induction false} ClockAt(plan: Plan, start: int, ticks: nat -> Tick, i: nat)
    requires ClockRuns(plan, start, ticks) && plan.rate >= 1
    ensures start <= ticks(i).now <= ticks(i).lagAt <= ticks(i).acceptedAt <= ticks(i).endAt
    ensures i > 0 ==> ticks(i - 1).acceptedAt <= ticks(i).acceptedAt
    ensures ticks(i).fired && ticks(i).now < Due(start, plan.rate, i) ==> Due(start, plan.rate, i) <= ticks(i).lagAt
  {
    hide Due;
    assert TickFollows(plan.rate, start, ticks, i);
    if i > 0 {
      ClockAt(plan, start, ticks, i - 1);
    }
  }

  // What the callback hands the jobs to.
  class Jobs {
    var indices: seq<nat>

    constructor ()
      ensures indices == []
    {
      indices := [];
    }

    method Submit(index: nat, accepted: bool)
      modifies this
      ensures indices == if accepted then old(indices) + [index] else old(indices)
    {
      if accepted {
        indices := indices + [index];
      }
    }
  }

  // ---- windows ----

  function WindowOf(start: int, time: int): int {
    (time - start) / DISPATCH_WINDOW
  }

  // How many of the first n jobs were accepted in window w.
  function CountIn(start: int, ticks: nat -> Tick, n: nat, w: int): nat {
    if n == 0 then 0
    else CountIn(start, ticks, n - 1, w) + if WindowOf(start, ticks(n - 1).acceptedAt) == w then 1 else 0
  }

  // At least 95 percent of the rate, over thirty seconds.
  predicate Enough(rate: int, count: int) {
    100 * count >= 95 * 30 * rate
  }

  lemma {:induction false} CountBlock(start: int, ticks: nat -> Tick, from: nat, n: nat, w: int)
    requires from <= n
    requires forall i: nat :: i < from ==> WindowOf(start, ticks(i).acceptedAt) != w
    requires forall i: nat :: from <= i < n ==> WindowOf(start, ticks(i).acceptedAt) == w
    ensures CountIn(start, ticks, n, w) == n - from
  {
    if n > 0 {
      CountBlock(start, ticks, if from < n then from else n - 1, n - 1, w);
    }
  }

  lemma DueSteps(start: int, rate: int, index: nat)
    requires rate >= 1
    ensures Due(start, rate, index) <= Due(start, rate, index + 1) <= Due(start, rate, index) + SECOND
  {
    var a, b := index * SECOND, (index + 1) * SECOND;
    DivideStep(a, b, rate);
  }

  lemma DivideStep(a: int, b: int, d: int)
    requires d >= 1 && a <= b <= a + SECOND
    ensures a / d <= b / d <= a / d + SECOND
  {
    var p, q := a / d, b / d;
    assert p * d <= a < p * d + d && q * d <= b < q * d + d;
    LessFactor(p, q + 1, d);
    assert SECOND <= SECOND * d;
    assert q * d < (p + SECOND + 1) * d;
    LessFactor(q, p + SECOND + 1, d);
  }

  lemma LessFactor(x: int, y: int, d: int)
    requires d >= 1 && x * d < y * d
    ensures x < y
  {
  }

  lemma DivideAtLeast(a: int, d: int, q: int)
    requires d >= 1 && q * d <= a
    ensures q <= a / d
  {
    assert a < (a / d) * d + d;
    LessFactor(q, a / d + 1, d);
  }

  lemma WindowSteps(start: int, s: int, t: int)
    requires start <= s <= t <= s + DISPATCH_WINDOW
    ensures 0 <= WindowOf(start, s) <= WindowOf(start, t) <= WindowOf(start, s) + 1
  {
  }

  lemma FirstWindow(start: int, t: int)
    requires start <= t < start + DISPATCH_WINDOW
    ensures WindowOf(start, t) == 0
  {
  }

  // ---- the state of the loop ----

  // Job i was accepted on time.
  ghost predicate OnTime(plan: Plan, start: int, ticks: nat -> Tick, i: nat)
    requires plan.rate >= 1
  {
    var due := Due(start, plan.rate, i);
    ticks(i).accepted && due <= ticks(i).acceptedAt <= due + MAX_DISPATCH_LAG
    && (plan.duration > 0 ==> ticks(i).acceptedAt < start + plan.duration)
  }

  ghost predicate AllOnTime(plan: Plan, start: int, ticks: nat -> Tick, n: nat)
    requires plan.rate >= 1
  {
    forall i: nat :: i < n ==> OnTime(plan, start, ticks, i)
  }

  // The jobs since `from` are exactly those of the open window; earlier windows were full enough.
  ghost predicate WindowsHold(plan: Plan, start: int, ticks: nat -> Tick, n: nat, from: nat, checked: int) {
    && from <= n
    && (n == 0 ==> checked == 0)
    && (n > 0 ==> WindowOf(start, ticks(n - 1).acceptedAt) == checked)
    && (forall i: nat :: i < from ==> 0 <= WindowOf(start, ticks(i).acceptedAt) < checked)
    && (forall i: nat :: from <= i < n ==> WindowOf(start, ticks(i).acceptedAt) == checked)
    && (forall w :: 0 <= w < checked ==> Enough(plan.rate, CountIn(start, ticks, n, w)))
  }

  // One more job in the same window or the next.
  lemma WindowAdvances(plan: Plan, start: int, ticks: nat -> Tick, n: nat, from: nat, checked: int)
    requires plan.rate >= 1 && ClockRuns(plan, start, ticks)
    requires AllOnTime(plan, start, ticks, n + 1) && WindowsHold(plan, start, ticks, n, from, checked)
    ensures var w := WindowOf(start, ticks(n).acceptedAt);
      && (w == checked || w == checked + 1)
      && (w == checked ==> WindowsHold(plan, start, ticks, n + 1, from, checked))
      && (w == checked + 1 && Enough(plan.rate, n - from) ==> WindowsHold(plan, start, ticks, n + 1, n, w))
  {
    hide CountIn, Enough, WindowOf, ClockRuns, AllOnTime;
    CountBlock(start, ticks, from, n, checked);
    NextWindow(plan, start, ticks, n, checked);
    var next := WindowOf(start, ticks(n).acceptedAt);
    var m := n + 1;
    forall w | 0 <= w < next
      ensures w < checked || Enough(plan.rate, n - from) ==> Enough(plan.rate, CountIn(start, ticks, m, w))
    {
      CountStays(start, ticks, n, w);
    }
  }

  lemma CountStays(start: int, ticks: nat -> Tick, n: nat, w: int)
    ensures w != WindowOf(start, ticks(n).acceptedAt) ==> CountIn(start, ticks, n + 1, w) == CountIn(start, ticks, n, w)
  {
    hide WindowOf;
  }

  lemma NextWindow(plan: Plan, start: int, ticks: nat -> Tick, n: nat, checked: int)
    requires plan.rate >= 1 && ClockRuns(plan, start, ticks) && AllOnTime(plan, start, ticks, n + 1)
    requires if n == 0 then checked == 0 else WindowOf(start, ticks(n - 1).acceptedAt) == checked
    ensures var w := WindowOf(start, ticks(n).acceptedAt); w == checked || w == checked + 1
    ensures checked >= 0
  {
    hide ClockRuns, WindowOf, Due;
    assert OnTime(plan, start, ticks, n);
    ClockAt(plan, start, ticks, n);
    if n == 0 {
      DueAtStart(start, plan.rate);
      FirstWindow(start, ticks(n).acceptedAt);
    } else {
      assert OnTime(plan, start, ticks, n - 1);
      ClockAt(plan, start, ticks, n - 1);
      DueSteps(start, plan.rate, n - 1);
      WindowSteps(start, ticks(n - 1).acceptedAt, ticks(n).acceptedAt);
    }
  }

  lemma DueAtStart(start: int, rate: int)
    requires rate >= 1
    ensures Due(start, rate, 0) == start
  {
  }

  // ---- dispatching ----

  datatype DispatchError = InvalidArguments | ContextDone | Overloaded | NotSubmitted | AcceptedLate | UnderTarget | UnexpectedFinalWindow

  method CheckDispatchWindow(rate: int, submitted: int, windowNumber: int) returns (error: Option<DispatchError>)
    ensures rate > 0 && submitted >= 0 && windowNumber >= 1 ==> error == if Enough(rate, submitted) then None else Some(UnderTarget)
    ensures rate <= 0 || submitted < 0 || windowNumber < 1 ==> error == Some(InvalidArguments)
  {
    if rate <= 0 || submitted < 0 || windowNumber < 1 {
      return Some(InvalidArguments);
    }
    return if 100 * submitted < 95 * 30 * rate then Some(UnderTarget) else None;
  }

  // The number of planned windows that end within the duration.
  function FullWindows(plan: Plan): int {
    plan.duration / DISPATCH_WINDOW
  }

  method CheckFinalDispatchWindow(plan: Plan, submitted: int, windowStartSubmitted: int, windowsChecked: int)
      returns (error: Option<DispatchError>)
    requires plan.rate > 0 && windowStartSubmitted <= submitted
    ensures plan.duration < DISPATCH_WINDOW || plan.duration % DISPATCH_WINDOW != 0 ==> error == None
    ensures plan.duration >= DISPATCH_WINDOW && plan.duration % DISPATCH_WINDOW == 0 ==>
      if windowsChecked == FullWindows(plan) then error == None
      else if windowsChecked != FullWindows(plan) - 1 then error == Some(UnexpectedFinalWindow)
      else error == if Enough(plan.rate, submitted - windowStartSubmitted) then None else Some(UnderTarget)
  {
    if plan.duration < DISPATCH_WINDOW || plan.duration % DISPATCH_WINDOW != 0 {
      return None;
    }
    var fullWindows := plan.duration / DISPATCH_WINDOW;
    if windowsChecked == fullWindows {
      return None;
    }
    if windowsChecked != fullWindows - 1 {
      return Some(UnexpectedFinalWindow);
    }
    error := CheckDispatchWindow(plan.rate, submitted - windowStartSubmitted, fullWindows);
  }

  function Indices(n: nat): seq<nat> {
    seq(n, i => i)
  }

  // A nil error means that every planned job was submitted, in order and on time, and
  // that every complete window was full enough.
  ghost predicate Guarantee(plan: Plan, start: int, ticks: nat -> Tick) {
    && plan.rate >= 1 && plan.requests >= 0
    && AllOnTime(plan, start, ticks, plan.requests)
    && forall w :: 0 <= w < FullWindows(plan) ==> Enough(plan.rate, CountIn(start, ticks, plan.requests, w))
  }

  // Nothing is wrong with iteration i: the context is live, the wait ends, both lag checks
  // come within one second of the due time, and the job is accepted within the duration.
  ghost predicate Good(plan: Plan, start: int, ticks: nat -> Tick, i: nat)
    requires plan.rate >= 1
  {
    var t, due := ticks(i), Due(start, plan.rate, i);
    && t.live && (due <= t.now || t.fired) && t.accepted
    && t.lagAt <= due + 1_000_000_000 && t.endAt <= due + 1_000_000_000
    && t.acceptedAt < start + plan.duration
  }

  ghost predicate AllGood(plan: Plan, start: int, ticks: nat -> Tick, n: nat)
    requires plan.rate >= 1
  {
    forall i: nat :: i < n ==> Good(plan, start, ticks, i)
  }

  predicate WaitsForEnd(plan: Plan) {
    plan.duration >= 30_000_000_000 && plan.duration % 30_000_000_000 == 0
  }

  // Nothing is wrong with the whole run.
  ghost predicate Healthy(plan: Plan, start: int, ticks: nat -> Tick, endLive: bool) {
    && plan.rate >= 1 && plan.requests >= 0
    && AllGood(plan, start, ticks, plan.requests)
    && (forall w :: 0 <= w < plan.duration / 30_000_000_000 ==> 100 * CountIn(start, ticks, plan.requests, w) >= 95 * 30 * plan.rate)
    && (WaitsForEnd(plan) ==> endLive)
  }

  // The fault that an error names, after this many accepted jobs.
  ghost predicate Fault(plan: Plan, start: int, ticks: nat -> Tick, endLive: bool, submitted: nat, error: DispatchError)
    requires plan.rate >= 1
  {
    match error
    case ContextDone =>
      if submitted == plan.requests then WaitsForEnd(plan) && !endLive
      else var t := ticks(submitted); !t.live || (Due(start, plan.rate, submitted) > t.now && !t.fired)
    case Overloaded =>
      || (submitted < plan.requests && ticks(submitted).lagAt > Due(start, plan.rate, submitted) + 1_000_000_000)
      || (submitted > 0 && ticks(submitted - 1).endAt > Due(start, plan.rate, submitted - 1) + 1_000_000_000)
    case NotSubmitted => submitted < plan.requests && !ticks(submitted).accepted
    case AcceptedLate => submitted > 0 && ticks(submitted - 1).acceptedAt >= start + plan.duration
    case UnderTarget => exists w :: UnderTargetIn(plan, start, ticks, w)
    case InvalidArguments => false
    case UnexpectedFinalWindow => false
  }

  // Some complete window got too few jobs.
  ghost predicate UnderTargetIn(plan: Plan, start: int, ticks: nat -> Tick, w: int) {
    0 <= w < FullWindows(plan) && plan.requests >= 0 && !Enough(plan.rate, CountIn(start, ticks, plan.requests, w))
  }

  // The error names a fault, and no earlier iteration had one.
  ghost predicate Blames(plan: Plan, start: int, ticks: nat -> Tick, endLive: bool, submitted: nat, error: DispatchError) {
    && plan.rate >= 1 && submitted <= plan.requests
    && AllGood(plan, start, ticks, if submitted == 0 then 0 else submitted - 1)
    && Fault(plan, start, ticks, endLive, submitted, error)
  }

  lemma FaultIsBlamed(plan: Plan, start: int, ticks: nat -> Tick, endLive: bool, n: nat, submitted: nat, error: DispatchError)
    requires plan.rate >= 1 && submitted <= plan.requests && AllGood(plan, start, ticks, n) && submitted <= n + 1
    requires Fault(plan, start, ticks, endLive, submitted, error)
    ensures Blames(plan, start, ticks, endLive, submitted, error) && !Healthy(plan, start, ticks, endLive)
  {
    hide Due, CountIn, AllGood;
    AllGoodAt(plan, start, ticks, plan.requests, submitted);
    AllGoodAt(plan, start, ticks, plan.requests, if submitted == 0 then 0 else submitted - 1);
    FewerGood(plan, start, ticks, n, if submitted == 0 then 0 else submitted - 1);
  }

  lemma AllGoodAt(plan: Plan, start: int, ticks: nat -> Tick, n: nat, i: nat)
    requires plan.rate >= 1
    ensures AllGood(plan, start, ticks, n) && i < n ==> Good(plan, start, ticks, i)
  {
  }

  lemma FewerGood(plan: Plan, start: int, ticks: nat -> Tick, n: nat, fewer: nat)
    requires plan.rate >= 1 && AllGood(plan, start, ticks, n) && fewer <= n
    ensures AllGood(plan, start, ticks, fewer)
  {
  }

  // The count of a window does not change any more once a later one has opened.
  lemma {:induction false} CountFinal(plan: Plan, start: int, ticks: nat -> Tick, n: nat, end: nat, w: int)
    requires plan.rate >= 1 && ClockRuns(plan, start, ticks) && n <= end && w < WindowOf(start, ticks(n).acceptedAt)
    ensures CountIn(start, ticks, end, w) == CountIn(start, ticks, n, w)
    ensures w < WindowOf(start, ticks(end).acceptedAt)
  {
    hide ClockRuns, Due;
    if n < end {
      CountFinal(plan, start, ticks, n, end - 1, w);
      ClockAt(plan, start, ticks, end);
      LaterWindow(start, ticks(end - 1).acceptedAt, ticks(end).acceptedAt);
    }
  }

  lemma LaterWindow(start: int, s: int, t: int)
    requires s <= t
    ensures WindowOf(start, s) <= WindowOf(start, t)
  {
  }

  // A window that closes below target is one of the complete ones.
  lemma ClosedUnderTarget(plan: Plan, start: int, ticks: nat -> Tick, n: nat, from: nat, checked: int)
    requires plan.rate >= 1 && ClockRuns(plan, start, ticks) && n < plan.requests && checked >= 0
    requires WindowsHold(plan, start, ticks, n, from, checked) && checked < WindowOf(start, ticks(n).acceptedAt)
    requires ticks(n).acceptedAt < start + plan.duration && from <= n && !Enough(plan.rate, n - from)
    ensures UnderTargetIn(plan, start, ticks, checked)
  {
    hide ClockRuns, Due, Enough, CountIn;
    CountBlock(start, ticks, from, n, checked);
    CountFinal(plan, start, ticks, n, plan.requests, checked);
    WindowWithin(plan, start, ticks(n).acceptedAt, checked);
  }

  lemma WindowWithin(plan: Plan, start: int, t: int, w: int)
    requires w < WindowOf(start, t) && t < start + plan.duration
    ensures w < FullWindows(plan)
  {
  }

  // `endLive` is the context after the wait for the end of the last window.
  method Dispatch(plan: Plan, start: int, ticks: nat -> Tick, endLive: bool, jobs: Jobs)
      returns (submitted: nat, error: Option<DispatchError>)
    requires ClockRuns(plan, start, ticks)
    modifies jobs
    // On every path the count is the number of accepted jobs, and those are the first ones.
    ensures jobs.indices == old(jobs.indices) + Indices(submitted)
    ensures error == None ==> submitted == plan.requests
    ensures error == None && Planned(plan) ==> Guarantee(plan, start, ticks)
    ensures Planned(plan) ==> error != Some(UnexpectedFinalWindow)
    // A planned run succeeds exactly when it is healthy, and an error names the first fault.
    ensures Planned(plan) ==> (error == None <==> Healthy(plan, start, ticks, endLive))
    ensures Planned(plan) && error.Some? ==> Blames(plan, start, ticks, endLive, submitted, error.value)
  {
    if plan.rate < 1 || plan.requests < 1 {
      return 0, Some(InvalidArguments);
    }
    hide CountIn, Enough, Due, WindowOf, ClockRuns, NewPlan, Healthy, Blames, AllGood, Good, Guarantee, UnderTargetIn, Planned, OnTime, AllOnTime, LastOpen, WindowsHold, Fault, Indices;
    PlannedFacts(plan);
    submitted := 0;
    var windowStartSubmitted, windowsChecked := 0, 0;
    NothingYet(plan, start, ticks);
    IndicesStep(0);
    for index := 0 to plan.requests
      invariant submitted == index
      invariant jobs.indices == old(jobs.indices) + Indices(submitted)
      invariant AllOnTime(plan, start, ticks, submitted)
      invariant plan.duration > 0 ==> AllGood(plan, start, ticks, submitted)
      invariant WindowsHold(plan, start, ticks, submitted, windowStartSubmitted, windowsChecked)
    {
      var tick := ticks(index);
      Faults(plan, start, ticks, endLive, index);
      IndicesStep(index);
      if !tick.live {
        MaybeBlamed(plan, start, ticks, endLive, index, submitted, ContextDone);
        return submitted, Some(ContextDone);
      }
      var due := Due(start, plan.rate, index);
      if due > tick.now && !tick.fired {
        MaybeBlamed(plan, start, ticks, endLive, index, submitted, ContextDone);
        return submitted, Some(ContextDone);
      }
      if tick.lagAt - due > MAX_DISPATCH_LAG {
        MaybeBlamed(plan, start, ticks, endLive, index, submitted, Overloaded);
        return submitted, Some(Overloaded);
      }
      jobs.Submit(index, tick.accepted);
      if !tick.accepted {
        MaybeBlamed(plan, start, ticks, endLive, index, submitted, NotSubmitted);
        return submitted, Some(NotSubmitted);
      }
      if plan.duration > 0 && tick.acceptedAt >= start + plan.duration {
        MaybeBlamed(plan, start, ticks, endLive, index, submitted + 1, AcceptedLate);
        return submitted + 1, Some(AcceptedLate);
      }
      WindowsAreCounted(plan, start, ticks, submitted, windowStartSubmitted, windowsChecked);
      var windowNumber := WindowOf(start, tick.acceptedAt);
      ghost var before := windowStartSubmitted;
      ghost var checkedBefore := windowsChecked;
      if windowNumber > windowsChecked {
        var windowError := CheckDispatchWindow(plan.rate, submitted - windowStartSubmitted, windowsChecked + 1);
        if windowError != None {
          if plan.duration > 0 {
            ClosedUnderTarget(plan, start, ticks, submitted, windowStartSubmitted, windowsChecked);
            WindowFault(plan, start, ticks, endLive, submitted + 1, windowsChecked);
          }
          MaybeBlamed(plan, start, ticks, endLive, index, submitted + 1, UnderTarget);
          return submitted + 1, windowError;
        }
        assert Enough(plan.rate, submitted - windowStartSubmitted);
        windowStartSubmitted, windowsChecked := submitted, windowNumber;
      }
      submitted := submitted + 1;
      if tick.endAt - due > MAX_DISPATCH_LAG {
        MaybeBlamed(plan, start, ticks, endLive, index, submitted, Overloaded);
        return submitted, Some(Overloaded);
      }
      GoodSoFar(plan, start, ticks, index);
      WindowAdvances(plan, start, ticks, index, before, checkedBefore);
    }
    if plan.duration >= DISPATCH_WINDOW && plan.duration % DISPATCH_WINDOW == 0 && !endLive {
      EndFault(plan, start, ticks);
      MaybeBlamed(plan, start, ticks, endLive, submitted, submitted, ContextDone);
      return submitted, Some(ContextDone);
    }
    WindowsAreCounted(plan, start, ticks, submitted, windowStartSubmitted, windowsChecked);
    error := CheckFinalDispatchWindow(plan, submitted, windowStartSubmitted, windowsChecked);
    Decided(plan, start, ticks, endLive, windowStartSubmitted, windowsChecked, error);
  }

  // What the final check says about the whole run.
  lemma Decided(plan: Plan, start: int, ticks: nat -> Tick, endLive: bool, from: nat, checked: int, error: Option<DispatchError>)
    requires plan.rate >= 1 && plan.requests >= 0 && from <= plan.requests && ClockRuns(plan, start, ticks)
    requires plan.duration > 0 ==> AllGood(plan, start, ticks, plan.requests)
    requires AllOnTime(plan, start, ticks, plan.requests)
    requires WindowsHold(plan, start, ticks, plan.requests, from, checked) && (WaitsForEnd(plan) ==> endLive)
    requires !WaitsForEnd(plan) ==> error == None
    requires WaitsForEnd(plan) ==>
      if checked == FullWindows(plan) then error == None
      else if checked != FullWindows(plan) - 1 then error == Some(UnexpectedFinalWindow)
      else error == if Enough(plan.rate, plan.requests - from) then None else Some(UnderTarget)
    ensures Planned(plan) ==>
      && error != Some(UnexpectedFinalWindow)
      && (error == None ==> Guarantee(plan, start, ticks) && Healthy(plan, start, ticks, endLive))
      && (error.Some? ==> Blames(plan, start, ticks, endLive, plan.requests, error.value) && !Healthy(plan, start, ticks, endLive))
  {
    hide CountIn, Enough, Due, WindowOf, ClockRuns, NewPlan, Healthy, Blames, AllGood, Good, Guarantee, UnderTargetIn, OnTime, AllOnTime, WindowsHold, Fault;
    PlannedFacts(plan);
    if Planned(plan) {
      LastWindow(plan, start, ticks, from, checked);
      FinalCheck(plan, start, ticks, endLive, from, checked);
      if error.Some? {
        WindowFault(plan, start, ticks, endLive, plan.requests, checked);
        FaultIsBlamed(plan, start, ticks, endLive, plan.requests, plan.requests, error.value);
      }
    }
  }

  lemma IndicesStep(n: nat)
    ensures Indices(0) == [] && Indices(n + 1) == Indices(n) + [n]
  {
  }

  // What can go wrong with iteration i.
  lemma Faults(plan: Plan, start: int, ticks: nat -> Tick, endLive: bool, i: nat)
    requires plan.rate >= 1 && i < plan.requests
    ensures var t, due := ticks(i), Due(start, plan.rate, i);
      && (!t.live || (due > t.now && !t.fired) ==> Fault(plan, start, ticks, endLive, i, ContextDone))
      && (t.lagAt - due > MAX_DISPATCH_LAG ==> Fault(plan, start, ticks, endLive, i, Overloaded))
      && (!t.accepted ==> Fault(plan, start, ticks, endLive, i, NotSubmitted))
      && (t.acceptedAt >= start + plan.duration ==> Fault(plan, start, ticks, endLive, i + 1, AcceptedLate))
      && (t.endAt - due > MAX_DISPATCH_LAG ==> Fault(plan, start, ticks, endLive, i + 1, Overloaded))
  {
    hide Due;
  }

  lemma WindowFault(plan: Plan, start: int, ticks: nat -> Tick, endLive: bool, submitted: nat, w: int)
    requires plan.rate >= 1 && UnderTargetIn(plan, start, ticks, w)
    ensures Fault(plan, start, ticks, endLive, submitted, UnderTarget)
  {
    hide UnderTargetIn;
  }

  lemma EndFault(plan: Plan, start: int, ticks: nat -> Tick)
    requires plan.rate >= 1 && plan.requests >= 0 && WaitsForEnd(plan)
    ensures Fault(plan, start, ticks, false, plan.requests, ContextDone)
  {
  }

  lemma PlannedFacts(plan: Plan)
    ensures Planned(plan) ==> plan.rate >= 1 && plan.requests >= 1 && plan.duration > 0
  {
  }

  lemma NothingYet(plan: Plan, start: int, ticks: nat -> Tick)
    requires plan.rate >= 1
    ensures AllGood(plan, start, ticks, 0) && AllOnTime(plan, start, ticks, 0) && WindowsHold(plan, start, ticks, 0, 0, 0)
  {
  }

  // Nothing is claimed of an unplanned run.
  lemma MaybeBlamed(plan: Plan, start: int, ticks: nat -> Tick, endLive: bool, n: nat, submitted: nat, error: DispatchError)
    requires plan.rate >= 1
    requires plan.duration > 0 ==>
      && submitted <= plan.requests && AllGood(plan, start, ticks, n) && submitted <= n + 1
      && Fault(plan, start, ticks, endLive, submitted, error)
    ensures plan.duration > 0 ==> Blames(plan, start, ticks, endLive, submitted, error) && !Healthy(plan, start, ticks, endLive)
  {
    hide Fault, Blames, Healthy, AllGood;
    if plan.duration > 0 {
      FaultIsBlamed(plan, start, ticks, endLive, n, submitted, error);
    }
  }

  // An iteration that gets to its end was on time, and good within a positive duration.
  lemma GoodSoFar(plan: Plan, start: int, ticks: nat -> Tick, n: nat)
    requires plan.rate >= 1 && ClockRuns(plan, start, ticks) && AllOnTime(plan, start, ticks, n)
    requires plan.duration > 0 ==> AllGood(plan, start, ticks, n)
    requires var t, due := ticks(n), Due(start, plan.rate, n);
      && t.live && (due <= t.now || t.fired) && t.accepted && t.lagAt <= due + MAX_DISPATCH_LAG && t.endAt <= due + MAX_DISPATCH_LAG
      && (plan.duration > 0 ==> t.acceptedAt < start + plan.duration)
    ensures AllOnTime(plan, start, ticks, n + 1)
    ensures plan.duration > 0 ==> AllGood(plan, start, ticks, n + 1)
  {
    hide ClockRuns, Due;
    ClockAt(plan, start, ticks, n);
    assert OnTime(plan, start, ticks, n);
  }

  // What is left after the last job: the last window, if it is complete.
  lemma FinalCheck(plan: Plan, start: int, ticks: nat -> Tick, endLive: bool, from: nat, checked: int)
    requires plan.rate >= 1 && plan.requests >= 0 && from <= plan.requests
    requires AllGood(plan, start, ticks, plan.requests) && AllOnTime(plan, start, ticks, plan.requests)
    requires WindowsHold(plan, start, ticks, plan.requests, from, checked) && (WaitsForEnd(plan) ==> endLive)
    requires checked == LastOpen(plan) && CountIn(start, ticks, plan.requests, checked) == plan.requests - from
    ensures !WaitsForEnd(plan) || Enough(plan.rate, plan.requests - from) ==>
      Healthy(plan, start, ticks, endLive) && Guarantee(plan, start, ticks)
    ensures WaitsForEnd(plan) && !Enough(plan.rate, plan.requests - from) ==> UnderTargetIn(plan, start, ticks, checked)
  {
    hide CountIn, Due, AllGood, AllOnTime, WindowOf;
  }

  lemma WindowsAreCounted(plan: Plan, start: int, ticks: nat -> Tick, n: nat, from: nat, checked: int)
    requires plan.rate >= 1 && ClockRuns(plan, start, ticks) && AllOnTime(plan, start, ticks, n)
    requires WindowsHold(plan, start, ticks, n, from, checked)
    ensures checked >= 0 && from <= n
  {
    if n > 0 {
      hide ClockRuns, Due;
      ClockAt(plan, start, ticks, n - 1);
    }
  }

  // The last window that contains a due time.
  function LastOpen(plan: Plan): int {
    if plan.duration % DISPATCH_WINDOW == 0 then FullWindows(plan) - 1 else FullWindows(plan)
  }

  lemma LastDue(plan: Plan, start: int)
    requires Planned(plan)
    ensures plan.rate >= 1 && plan.requests >= 1 && plan.duration > 0
    ensures Due(start, plan.rate, plan.requests - 1) >= start + LastOpen(plan) * DISPATCH_WINDOW
    ensures plan.duration <= (LastOpen(plan) + 1) * DISPATCH_WINDOW
  {
    var k, rate, requests := LastOpen(plan), plan.rate, plan.requests;
    assert plan.duration >= k * DISPATCH_WINDOW + 1;
    ScaleUp(k * DISPATCH_WINDOW + 1, plan.duration, rate);
    assert (k * DISPATCH_WINDOW + 1) * rate == (k * 30 * rate) * SECOND + rate;
    LessFactor(k * 30 * rate, requests, SECOND);
    assert (requests - 1) * SECOND >= (k * 30 * rate) * SECOND == (k * DISPATCH_WINDOW) * rate;
    DivideAtLeast((requests - 1) * SECOND, rate, k * DISPATCH_WINDOW);
  }

  lemma ScaleUp(x: int, y: int, d: int)
    requires d >= 1 && x <= y
    ensures x * d <= y * d
  {
  }

  // The last job falls into the last planned window, so the final check is never
  // surprised and completes the guarantee.
  lemma LastWindow(plan: Plan, start: int, ticks: nat -> Tick, from: nat, checked: int)
    requires Planned(plan) && ClockRuns(plan, start, ticks)
    requires plan.rate >= 1 && plan.requests >= 0 && AllOnTime(plan, start, ticks, plan.requests)
    requires WindowsHold(plan, start, ticks, plan.requests, from, checked)
    ensures checked == LastOpen(plan)
    ensures CountIn(start, ticks, plan.requests, checked) == plan.requests - from
  {
    hide ClockRuns, Due, CountIn, Enough, LastOpen, NewPlan;
    var n := plan.requests;
    LastDue(plan, start);
    CountBlock(start, ticks, from, n, checked);
    assert OnTime(plan, start, ticks, n - 1);
    InWindow(start, ticks(n - 1).acceptedAt, LastOpen(plan));
  }

  lemma InWindow(start: int, t: int, k: int)
    requires start + k * DISPATCH_WINDOW <= t < start + (k + 1) * DISPATCH_WINDOW
    ensures WindowOf(start, t) == k
  {
  }
}
