// internal/adapter/kafka/rebalance_yield.go: the mutex-guarded object, and the
// interleavings of its lock sections with the cancel calls made outside the lock.
module RebalanceYield {
  import opened Wrappers

  // ---- the object ----

  const GENERATIONS: nat := 0x1_0000_0000_0000_0000  // uint64 wraps here

  class CancelHandle {
    var cancelled: bool

    constructor (parentCancelled: bool)
      ensures cancelled == parentCancelled
    {
      cancelled := parentCancelled;
    }

    method Cancel()
      modifies this
      ensures cancelled
    {
      cancelled := true;
    }
  }

  // The object next to the machine below: `machine` takes one event per call, and
  // `contexts` are the contexts bound so far, by number.
  class Yield {
    var generation: nat
    var cancel: CancelHandle?
    ghost var machine: State
    ghost var contexts: seq<CancelHandle>
    ghost var orphaned: set<nat>  // contexts whose parent had ended

    ghost predicate Valid()
      reads this, contexts
    {
      && generation == machine.generation % GENERATIONS
      && machine.captured <= machine.generation
      && Numbered(machine)
      && machine.nextContext == |contexts|
      && (forall i, j :: 0 <= i < j < |contexts| ==> contexts[i] != contexts[j])
      && (forall c :: 0 <= c < |contexts| ==> (contexts[c].cancelled <==> c in machine.cancelled || c in orphaned))
      && (forall c :: c in orphaned ==> c < |contexts|)
      && cancel == if machine.target.Some? then contexts[machine.target.value] else null
    }

    constructor ()
      ensures Valid() && machine == Initial && contexts == []
    {
      generation, cancel := 0, null;
      machine, contexts, orphaned := Initial, [], {};
    }

    // The runner reads the generation before it polls.
    method Generation() returns (captured: nat)
      requires Valid() && Enabled(machine, Capture)
      modifies `machine
      ensures Valid() && machine == Apply(old(machine), Capture)
      ensures captured == machine.captured % GENERATIONS
    {
      captured := generation;
      machine := Apply(machine, Capture);
    }

    // Request's lock section; the caller cancels the returned handle afterwards.
    method Request() returns (handle: CancelHandle?)
      requires Valid()
      modifies `generation, `machine
      ensures Valid() && machine == Apply(old(machine), RequestLock)
      ensures handle == if machine.target.Some? then contexts[machine.target.value] else null
      ensures machine.target.Some? ==> machine.target.value in machine.pending
    {
      WrapStep(machine.generation);
      generation := (generation + 1) % GENERATIONS;
      handle := cancel;
      machine := Apply(machine, RequestLock);
    }

    // Request's call outside the lock, whenever it comes.
    method CancelTaken(handle: CancelHandle, ghost c: nat)
      requires Valid() && c in machine.pending && handle == contexts[c]
      modifies `machine, handle
      ensures Valid() && machine == Apply(old(machine), RequestCancel(c))
      ensures handle.cancelled
    {
      handle.Cancel();
      machine := Apply(machine, RequestCancel(c));
    }

    // A batch bound after a missed request starts out cancelled.  This is the machine's
    // step except after a multiple of 2^64 requests, which the wrapped generation misses.
    method Bind(parentCancelled: bool, baseline: nat) returns (handle: CancelHandle)
      requires Valid() && Enabled(machine, Event.Bind) && baseline == machine.captured % GENERATIONS
      modifies this
      ensures Valid() && fresh(handle) && contexts == old(contexts) + [handle]
      ensures var missed := (machine.generation - machine.captured) % GENERATIONS == 0 && machine.generation != machine.captured;
        machine == if missed then Apply(old(machine), Event.Bind).(cancelled := old(machine).cancelled) else Apply(old(machine), Event.Bind)
      ensures handle.cancelled <==> parentCancelled || (machine.generation - machine.captured) % GENERATIONS != 0
    {
      hide Apply;
      BindApplied(machine);
      handle := new CancelHandle(parentCancelled);
      cancel := handle;
      WrapExact(machine.captured, machine.generation);
      ghost var before := machine;
      if generation != baseline {
        handle.Cancel();
      }
      machine := Apply(before, Event.Bind).(cancelled := if generation != baseline then before.cancelled + {before.nextContext} else before.cancelled);
      orphaned := if parentCancelled then orphaned + {before.nextContext} else orphaned;
      contexts := contexts + [handle];
    }

    method Release(handle: CancelHandle)
      requires Valid() && machine.bound.Some? && handle == contexts[machine.bound.value.context]
      modifies `cancel, `machine, handle
      ensures Valid() && machine == Apply(old(machine), Event.Release)
      ensures cancel == null && handle.cancelled
    {
      cancel := null;
      handle.Cancel();
      machine := Apply(machine, Event.Release);
    }

    // Exact up to wrap-around: only a multiple of 2^64 requests goes unnoticed.
    method RequestedSince(baseline: nat) returns (requested: bool)
      requires Valid() && baseline == machine.captured % GENERATIONS
      ensures requested <==> (machine.generation - machine.captured) % GENERATIONS != 0
    {
      WrapExact(machine.captured, machine.generation);
      requested := generation != baseline;
    }
  }

  lemma BindApplied(s: State)
    requires Enabled(s, Bind)
    ensures var c := s.nextContext;
      Apply(s, Bind) == s.(target := Some(c), bound := Some(Binding(c, s.captured)), nextContext := c + 1,
                           cancelled := if s.generation != s.captured then s.cancelled + {c} else s.cancelled)
  {
  }

  // Every context the machine speaks of has been numbered.
  ghost predicate Numbered(s: State) {
    && (s.target.Some? ==> s.target.value < s.nextContext)
    && (s.bound.Some? ==> s.bound.value.context < s.nextContext)
    && (forall c :: c in s.pending || c in s.cancelled ==> c < s.nextContext)
  }

  lemma WrapStep(n: nat)
    ensures (n % GENERATIONS + 1) % GENERATIONS == (n + 1) % GENERATIONS
  {
  }

  lemma WrapExact(seen: nat, requests: nat)
    requires seen <= requests
    ensures requests % GENERATIONS == seen % GENERATIONS <==> (requests - seen) % GENERATIONS == 0
  {
  }

  // ---- the interleavings ----

  datatype Binding = Binding(context: nat, baseline: nat)

  // One runner captures, binds and releases; any number of requesters run
  // concurrently.  Contexts are numbered in creation order.  `pending` holds the
  // cancel functions read under the lock and not called yet.
  datatype State = State(
    generation: nat,
    target: Option<nat>,
    pending: multiset<nat>,
    cancelled: set<nat>,
    captured: nat,
    bound: Option<Binding>,
    nextContext: nat)

  datatype Event = Capture | Bind | Release | RequestLock | RequestCancel(context: nat)

  const Initial := State(0, None, multiset{}, {}, 0, None, 0)

  // The events that can happen next; the runner binds at most one batch at a time.
  predicate Enabled(s: State, e: Event) {
    match e
    case Capture => s.bound.None?
    case Bind => s.bound.None?
    case Release => s.bound.Some?
    case RequestLock => true
    case RequestCancel(c) => c in s.pending
  }

  function Apply(s: State, e: Event): State {
    if !Enabled(s, e) then s
    else
      match e
      case Capture => s.(captured := s.generation)
      case Bind =>
        var c := s.nextContext;
        s.(target := Some(c), bound := Some(Binding(c, s.captured)), nextContext := c + 1,
           cancelled := if s.generation != s.captured then s.cancelled + {c} else s.cancelled)
      case Release => s.(target := None, bound := None, cancelled := s.cancelled + {s.bound.value.context})
      case RequestLock =>
        s.(generation := s.generation + 1,
           pending := if s.target.Some? then s.pending + multiset{s.target.value} else s.pending)
      case RequestCancel(c) => s.(pending := s.pending - multiset{c}, cancelled := s.cancelled + {c})
  }

  function Run(s: State, events: seq<Event>): State
    decreases |events|
  {
    if events == [] then s else Run(Apply(s, events[0]), events[1..])
  }

  ghost predicate Inv(s: State) {
    && s.captured <= s.generation
    && (s.target.Some? <==> s.bound.Some?)
    && (forall c :: c in s.pending || c in s.cancelled ==> c < s.nextContext)
    && (s.bound.Some? ==>
          && s.target.value == s.bound.value.context == s.nextContext - 1
          && s.bound.value.baseline == s.captured
          && (s.generation == s.captured <==> s.bound.value.context !in s.pending && s.bound.value.context !in s.cancelled))
  }

  lemma InvStep(s: State, e: Event)
    requires Inv(s)
    ensures Inv(Apply(s, e))
  {
  }

  lemma {:induction false} InvRun(s: State, events: seq<Event>)
    requires Inv(s)
    ensures Inv(Run(s, events))
    decreases |events|
  {
    if events != [] {
      InvStep(s, events[0]);
      InvRun(Apply(s, events[0]), events[1..]);
    }
  }

  // After any interleaving, once no cancel call is outstanding, an unreleased
  // batch has been cancelled exactly when the generation left its baseline.
  lemma Linearised(events: seq<Event>)
    ensures var s := Run(Initial, events);
            s.bound.Some? ==>
              && (s.generation == s.bound.value.baseline ==> s.bound.value.context !in s.cancelled)
              && (s.bound.value.context !in s.pending ==>
                    (s.bound.value.context in s.cancelled <==> s.generation != s.bound.value.baseline))
  {
    InvRun(Initial, events);
  }

  // A request that read an older batch's cancel function never cancels the batch
  // bound later: as long as no request takes the lock after the capture, the new
  // batch stays live, whichever outstanding cancel calls run.
  lemma StaleRequestsHarmless(before: seq<Event>, after: seq<Event>)
    requires Run(Initial, before).bound.None?
    requires Run(Initial, before).captured == Run(Initial, before).generation
    requires forall e :: e in after ==> e != RequestLock && e != Release
    ensures var s := Run(Apply(Run(Initial, before), Bind), after);
            s.bound.Some? && s.bound.value.context !in s.cancelled
  {
    var s := Run(Initial, before);
    InvRun(Initial, before);
    InvStep(s, Bind);
    OnlyLocksMatter(Apply(s, Bind), after);
  }

  lemma {:induction false} OnlyLocksMatter(s: State, after: seq<Event>)
    requires Inv(s) && s.bound.Some? && s.generation == s.captured
    requires forall e :: e in after ==> e != RequestLock && e != Release
    ensures Run(s, after).bound == s.bound && s.bound.value.context !in Run(s, after).cancelled
    decreases |after|
  {
    if after != [] {
      assert after[0] in after && forall e :: e in after[1..] ==> e in after;
      InvStep(s, after[0]);
      OnlyLocksMatter(Apply(s, after[0]), after[1..]);
    }
  }
}
