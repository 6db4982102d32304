// internal/observability/commandmetrics/observer.go: how many commands are in retry,
// and since when.
module RetryObserver {
  import opened Wrappers

  datatype Metrics = Metrics(retrying: nat, startedAt: Option<int>, attempts: nat)

  function Started(m: Metrics, now: int): Metrics {
    m.(retrying := m.retrying + 1, startedAt := if m.retrying == 0 then Some(now) else m.startedAt)
  }

  function Finished(m: Metrics): Metrics {
    var left := if m.retrying > 0 then m.retrying - 1 else 0;
    m.(retrying := left, startedAt := if left == 0 then None else m.startedAt)
  }

  class Observer {
    var retrying: nat
    var retryStartedAt: Option<int>
    var retryAttempts: nat

    constructor ()
      ensures State() == Metrics(0, None, 0)
    {
      retrying, retryStartedAt, retryAttempts := 0, None, 0;
    }

    function State(): Metrics
      reads this
    {
      Metrics(retrying, retryStartedAt, retryAttempts)
    }

    method RetryStarted(now: int)
      modifies this
      ensures State() == Started(old(State()), now)
    {
      retrying := retrying + 1;
      if retrying == 1 {
        retryStartedAt := Some(now);
      }
    }

    method RetryAttempted()
      modifies this
      ensures State() == old(State()).(attempts := old(retryAttempts) + 1)
    {
      retryAttempts := retryAttempts + 1;
    }

    method RetryFinished()
      modifies this
      ensures State() == Finished(old(State()))
    {
      if retrying > 0 {
        retrying := retrying - 1;
      }
      if retrying == 0 {
        retryStartedAt := None;
      }
    }
  }

  // ---- concurrent handlers ----

  // Handlers enter and leave the retrying state in any interleaving.
  datatype Event = Enter(handler: nat, now: int) | Leave(handler: nat)

  // The handlers that are retrying, with the time each began.
  function Active(events: seq<Event>): map<nat, int>
    decreases |events|
  {
    if events == [] then map[]
    else
      var before := Active(events[..|events| - 1]);
      match events[|events| - 1]
      case Enter(h, now) => before[h := now]
      case Leave(h) => before - {h}
  }

  // One handler at a time enters and then leaves, and the clock does not run back.
  ghost predicate Alternating(events: seq<Event>) {
    && (forall k :: 0 <= k < |events| ==>
          match events[k]
          case Enter(h, _) => h !in Active(events[..k])
          case Leave(h) => h in Active(events[..k]))
    && (forall j, k :: 0 <= j < k < |events| && events[j].Enter? && events[k].Enter? ==> events[j].now <= events[k].now)
  }

  function Observed(events: seq<Event>): Metrics
    decreases |events|
  {
    if events == [] then Metrics(0, None, 0)
    else
      var before := Observed(events[..|events| - 1]);
      match events[|events| - 1]
      case Enter(_, now) => Started(before, now)
      case Leave(_) => Finished(before)
  }

  // The gauge equals the number of handlers in retry, the start time is set exactly
  // while there are any, and it is not later than any of their own start times.
  ghost predicate Gauge(m: Metrics, active: map<nat, int>) {
    && m.retrying == |active|
    && (m.startedAt.Some? <==> active != map[])
    && (forall h :: h in active ==> m.startedAt.value <= active[h])
  }

  lemma EnterKeeps(m: Metrics, active: map<nat, int>, h: nat, now: int)
    requires Gauge(m, active) && h !in active && (m.startedAt.Some? ==> m.startedAt.value <= now)
    ensures Gauge(Started(m, now), active[h := now])
  {
    var next := active[h := now];
    assert next.Keys == active.Keys + {h} && h in next;
    assert |next| == |next.Keys| && |active| == |active.Keys|;
    assert m.retrying == 0 ==> active == map[];
  }

  lemma LeaveKeeps(m: Metrics, active: map<nat, int>, h: nat)
    requires Gauge(m, active) && h in active
    ensures Gauge(Finished(m), active - {h})
  {
    var next := active - {h};
    assert next.Keys == active.Keys - {h};
    assert |next| == |next.Keys| && |active| == |active.Keys|;
    if next != map[] {
      var other :| other in next;
      assert other in next.Keys;
    }
  }

  lemma {:induction false} StartedBefore(events: seq<Event>, t: int)
    requires forall k :: 0 <= k < |events| && events[k].Enter? ==> events[k].now <= t
    ensures Observed(events).startedAt.Some? ==> Observed(events).startedAt.value <= t
    decreases |events|
  {
    if events != [] {
      StartedBefore(events[..|events| - 1], t);
    }
  }

  lemma {:induction false} GaugeCountsHandlers(events: seq<Event>)
    requires Alternating(events)
    ensures Gauge(Observed(events), Active(events))
    decreases |events|
  {
    if events != [] {
      hide Gauge, Started, Finished;
      var front, last := events[..|events| - 1], events[|events| - 1];
      assert forall k :: 0 <= k < |front| ==> front[..k] == events[..k];
      GaugeCountsHandlers(front);
      match last
      case Enter(h, now) =>
        StartedBefore(front, now);
        EnterKeeps(Observed(front), Active(front), h, now);
      case Leave(h) =>
        LeaveKeeps(Observed(front), Active(front), h);
    } else {
      assert Gauge(Metrics(0, None, 0), map[]);
    }
  }
}
