/**
 * A fleet of workers is one more interleaving of exported calls, so every
 * theorem about runs of the controller holds for it; in particular crashed and
 * replaced workers place a device's changeset at most once.
 */
module FleetRuns {
  import opened Common
  import opened ChangeSets
  import opened DeviceSlot
  import opened Controller
  import OnceOnly
  import RowProjection
  import Leases
  import opened Worker
  import opened StagedRollout
  import StagedSafety
  import StagedTheorem

  /** The call a worker's next step makes, if it makes one. */
  function WorkerCalls(e: Env, k: WorkerState, duration: int): seq<Call> {
    match k.stage
    case Checking(p) => if p.terminalCount > k.lease.cursor then [OnLease(CallCursor(k.lease, p.terminalCount))] else []
    case Advancing(p) =>
      if CanAdvance(k.lease, p) && NextPhase(e, k.lease, p).Queue? then
        var next := NextPhase(e, k.lease, p);
        [OnDevice(next.device.id, CallQueueFor(k.lease.site, next.device.role, next.cs, k.lease.rolloutId))]
      else []
    case Saving(p, x, generation) => [OnLease(CallResults(k.lease, MarkQueued(p.results, x, generation)))]
    case Renewing => [OnLease(CallRenew(k.lease, duration))]
    case _ => []
  }

  lemma OneCall(e: Env, w: World, c: Call)
    ensures Run(e, w, [c]) == Step(e, w, c)
  {
    assert [c][1..] == [];
  }

  lemma DecisionIsCall(e: Env, w: World, k: WorkerState, duration: int)
    requires k.stage.Advancing?
    ensures var calls := WorkerCalls(e, k, duration);
            && |calls| <= 1
            && WorkerStep(e, w, k, duration).0 == if calls == [] then w else Step(e, w, calls[0])
  {
  }

  lemma WorkerStepIsRun(e: Env, w: World, k: WorkerState, duration: int)
    ensures WorkerStep(e, w, k, duration).0 == Run(e, w, WorkerCalls(e, k, duration))
  {
    var calls := WorkerCalls(e, k, duration);
    if k.stage.Advancing? {
      DecisionIsCall(e, w, k, duration);
    }
    if calls != [] {
      assert calls == [calls[0]];
      OneCall(e, w, calls[0]);
    }
  }

  function EventCalls(e: Env, s: Setup, f: Fleet, ev: Event): seq<Call> {
    match ev
    case External(call) => [call]
    case Spawn(duration) => [OnLease(CallClaimLease(duration, s.r))]
    case Work(token, duration) => if token in f.workers then WorkerCalls(e, f.workers[token], duration) else []
    case Crash(_) => []
  }

  lemma EventIsRun(e: Env, s: Setup, f: Fleet, ev: Event)
    ensures StepFleet(e, s, f, ev).w == Run(e, f.w, EventCalls(e, s, f, ev))
  {
    match ev
    case External(call) => OneCall(e, f.w, call);
    case Spawn(duration) => OneCall(e, f.w, OnLease(CallClaimLease(duration, s.r)));
    case Work(token, duration) =>
      if token in f.workers {
        WorkerStepIsRun(e, f.w, f.workers[token], duration);
      }
    case Crash(_) =>
  }

  function FleetCalls(e: Env, s: Setup, f: Fleet, events: seq<Event>): seq<Call>
    decreases events
  {
    if events == [] then [] else EventCalls(e, s, f, events[0]) + FleetCalls(e, s, StepFleet(e, s, f, events[0]), events[1..])
  }

  lemma {:induction false} RunConcat(e: Env, w: World, xs: seq<Call>, ys: seq<Call>)
    ensures Run(e, w, xs + ys) == Run(e, Run(e, w, xs), ys)
    decreases xs
  {
    if xs == [] {
      assert xs + ys == ys;
    } else {
      assert (xs + ys)[1..] == xs[1..] + ys;
      RunConcat(e, Step(e, w, xs[0]), xs[1..], ys);
    }
  }

  /** The tables after a fleet's events are the tables after a run of calls. */
  lemma {:induction false} FleetIsARun(e: Env, s: Setup, f: Fleet, events: seq<Event>)
    ensures RunFleet(e, s, f, events).w == Run(e, f.w, FleetCalls(e, s, f, events))
    decreases events
  {
    if events != [] {
      var f' := StepFleet(e, s, f, events[0]);
      EventIsRun(e, s, f, events[0]);
      FleetIsARun(e, s, f', events[1..]);
      RunConcat(e, f.w, EventCalls(e, s, f, events[0]), FleetCalls(e, s, f', events[1..]));
    }
  }

  // ---- Crashes and retries ------------------------------------------------------

  /** The changeset that every worker derives for the i-th device from the immutable plan. */
  function Planned(e: Env, s: Setup, i: nat): Option<ChangeSet> {
    var order := SortDevices(s.plan.devices);
    if i >= |order| then None else
      var ops := OperationsFrom(order[i], NAMESPACES);
      if ops.None? then None
      else Some(RolloutChangeSet(e, e.rolloutText(s.r), order[i].id, ops.value, s.plan.healthChecks, LOCAL_AUTO))
  }

  /** External calls that, on device x, queue no other changeset. */
  ghost predicate OthersQueueNoOther(events: seq<Event>, x: string, id: string) {
    forall ev | ev in events :: ev.External? ==> RowProjection.QueuesNoOther(ev.call, x, id)
  }

  lemma EventQueuesThePlan(e: Env, s: Setup, f: Fleet, ev: Event, i: nat, cs: ChangeSet)
    requires StagedSafety.FleetInv(e, s, f) && i < |s.order| && Planned(e, s, i) == Some(cs)
    requires ev.External? ==> RowProjection.QueuesNoOther(ev.call, s.order[i], cs.id)
    ensures forall c | c in EventCalls(e, s, f, ev) :: RowProjection.QueuesNoOther(c, s.order[i], cs.id)
  {
  }

  lemma {:induction false} FleetQueuesThePlan(e: Env, s: Setup, f: Fleet, events: seq<Event>, i: nat, cs: ChangeSet)
    requires StagedSafety.FleetInv(e, s, f) && AllAllowed(e, s, events)
    requires i < |s.order| && Planned(e, s, i) == Some(cs) && OthersQueueNoOther(events, s.order[i], cs.id)
    ensures forall c | c in FleetCalls(e, s, f, events) :: RowProjection.QueuesNoOther(c, s.order[i], cs.id)
    decreases events
  {
    if events != [] {
      assert events[0] in events;
      EventQueuesThePlan(e, s, f, events[0], i, cs);
      StagedTheorem.EventKeepsFleet(e, s, f, events[0]);
      FleetQueuesThePlan(e, s, StepFleet(e, s, f, events[0]), events[1..], i, cs);
    }
  }

  /**
   * Crash safety: any number of workers, crashing before or after they save
   * what they queued, with any operations, reports and edits in between, place
   * a device's changeset at most once, and the attempts raise its desired
   * generation by exactly the number of placements.
   */
  lemma CrashesNeverApplyTwice(e: Env, s: Setup, f: Fleet, events: seq<Event>, i: nat, cs: ChangeSet)
    requires StagedSafety.FleetInv(e, s, f) && AllAllowed(e, s, events)
    requires i < |s.order| && Planned(e, s, i) == Some(cs) && OthersQueueNoOther(events, s.order[i], cs.id)
    requires s.order[i] in f.w.devices
    ensures var trace := RowProjection.RunTrace(e, f.w, FleetCalls(e, s, f, events), s.order[i]);
            var d := f.w.devices[s.order[i]];
            && OnceOnly.Placements(e, s.order[i], d, cs.id, trace) <= 1
            && ((forall a | a in trace && OnceOnly.Attempts(a, cs.id) :: a.cs.generation.None?) ==>
                  OnceOnly.Raised(e, s.order[i], d, cs.id, trace) == OnceOnly.Placements(e, s.order[i], d, cs.id, trace))
            && s.order[i] in RunFleet(e, s, f, events).w.devices
            && RunFleet(e, s, f, events).w.devices[s.order[i]] == RunRow(e, s.order[i], d, trace)
  {
    var x, calls := s.order[i], FleetCalls(e, s, f, events);
    var trace := RowProjection.RunTrace(e, f.w, calls, x);
    FleetIsARun(e, s, f, events);
    FleetQueuesThePlan(e, s, f, events, i, cs);
    RowProjection.RunTraceNoOther(e, f.w, calls, x, cs.id);
    RowProjection.RunProjects(e, f.w, calls, x);
    OnceOnly.RetriesAlonePlaceOnce(e, x, f.w.devices[x], cs.id, trace);
    if forall a | a in trace && OnceOnly.Attempts(a, cs.id) :: a.cs.generation.None? {
      OnceOnly.RaisedByPlacements(e, x, f.w.devices[x], cs.id, trace, true);
    }
  }

  // ---- Leases in a fleet -----------------------------------------------------------

  predicate ShortLease(ev: Event, maxLease: int) {
    match ev
    case External(call) => Leases.Bounded(call, maxLease)
    case Spawn(duration) => duration <= maxLease
    case Work(_, duration) => duration <= maxLease
    case Crash(_) => true
  }

  ghost predicate ShortLeases(events: seq<Event>, maxLease: int) {
    forall ev | ev in events :: ShortLease(ev, maxLease)
  }

  lemma {:induction false} FleetCallsAreBounded(e: Env, s: Setup, f: Fleet, events: seq<Event>, maxLease: int)
    requires ShortLeases(events, maxLease)
    ensures Leases.AllBounded(FleetCalls(e, s, f, events), maxLease)
    decreases events
  {
    if events != [] {
      assert events[0] in events;
      assert Leases.AllBounded(EventCalls(e, s, f, events[0]), maxLease);
      FleetCallsAreBounded(e, s, StepFleet(e, s, f, events[0]), events[1..], maxLease);
    }
  }

  /** With leases of at most twenty minutes, no interleaving of workers makes the two clocks disagree. */
  lemma FleetKeepsBothClocks(e: Env, s: Setup, f: Fleet, events: seq<Event>, maxLease: int)
    requires Leases.LeasesOk(f.w, maxLease) && ShortLeases(events, maxLease) && maxLease <= TWENTY_MINUTES
    ensures Leases.LeasesOk(RunFleet(e, s, f, events).w, maxLease) && Leases.ClocksAgree(RunFleet(e, s, f, events).w)
  {
    FleetIsARun(e, s, f, events);
    FleetCallsAreBounded(e, s, f, events, maxLease);
    Leases.RunsKeepLeases(e, f.w, FleetCalls(e, s, f, events), maxLease);
    Leases.LiveIsFresh(RunFleet(e, s, f, events).w, maxLease);
  }
}
