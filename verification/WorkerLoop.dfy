/**
 * The worker's own code: the loops of `queueNextPhase` and of `reconcileLease`,
 * proved to take exactly the atomic steps of the model when nothing else runs.
 */
module WorkerLoop {
  import opened Common
  import opened ChangeSets
  import opened Controller
  import opened Worker
  import opened Store

  lemma {:induction false} CommandsForAppend(commands: seq<Command>, c: Command, namespace: string)
    ensures CommandsFor(commands + [c], namespace) == CommandsFor(commands, namespace) + (if c.config == namespace then [c] else [])
    decreases commands
  {
    if commands == [] {
      assert commands + [c] == [c] && [c][1..] == [];
    } else {
      assert (commands + [c])[1..] == commands[1..] + [c];
      CommandsForAppend(commands[1..], c, namespace);
    }
  }

  function Grouped(byNamespace: map<string, seq<Command>>, namespace: string): seq<Command> {
    if namespace in byNamespace then byNamespace[namespace] else []
  }

  ghost predicate Groups(byNamespace: map<string, seq<Command>>, commands: seq<Command>) {
    forall n :: Grouped(byNamespace, n) == CommandsFor(commands, n)
  }

  lemma GroupsAppend(byNamespace: map<string, seq<Command>>, commands: seq<Command>, c: Command)
    requires Groups(byNamespace, commands)
    ensures Groups(byNamespace[c.config := Grouped(byNamespace, c.config) + [c]], commands + [c])
  {
    forall n ensures Grouped(byNamespace[c.config := Grouped(byNamespace, c.config) + [c]], n) == CommandsFor(commands + [c], n) {
      CommandsForAppend(commands, c, n);
    }
  }

  /** The supported namespaces of the plan. */
  method SupportedNamespaces(plan: Plan) returns (namespaces: set<string>)
    ensures forall n :: n in namespaces <==> n in plan.namespaces && n in NAMESPACES
  {
    namespaces := {};
    for i := 0 to |plan.namespaces|
      invariant forall n :: n in namespaces <==> n in plan.namespaces[..i] && n in NAMESPACES
    {
      if plan.namespaces[i] in NAMESPACES {
        namespaces := namespaces + {plan.namespaces[i]};
      }
    }
    assert plan.namespaces[..|plan.namespaces|] == plan.namespaces;
  }

  predicate AllWithin(commands: seq<Command>, namespaces: set<string>) {
    forall i | 0 <= i < |commands| :: commands[i].config in namespaces
  }

  /** Groups commands by namespace; None when one lies outside the allowed ones. */
  method GroupCommands(commands: seq<Command>, namespaces: set<string>) returns (r: Option<map<string, seq<Command>>>)
    ensures r.Some? <==> AllWithin(commands, namespaces)
    ensures r.Some? ==> Groups(r.value, commands)
  {
    var byNamespace: map<string, seq<Command>> := map[];
    for i := 0 to |commands|
      invariant AllWithin(commands[..i], namespaces)
      invariant Groups(byNamespace, commands[..i])
    {
      var command := commands[i];
      if command.config !in namespaces {
        return None;
      }
      GroupsAppend(byNamespace, commands[..i], command);
      assert commands[..i + 1] == commands[..i] + [command];
      byNamespace := byNamespace[command.config := Grouped(byNamespace, command.config) + [command]];
    }
    assert commands[..|commands|] == commands;
    return Some(byNamespace);
  }

  function After(done: seq<Operation>, rest: Option<seq<Operation>>): Option<seq<Operation>> {
    if rest.None? then None else Some(done + rest.value)
  }

  lemma NothingBefore(rest: Option<seq<Operation>>)
    ensures After([], rest) == rest
  {
    if rest.Some? {
      assert [] + rest.value == rest.value;
    }
  }

  lemma OneMore(done: seq<Operation>, op: Operation, rest: Option<seq<Operation>>)
    ensures After(done, After([op], rest)) == After(done + [op], rest)
  {
    if rest.Some? {
      assert done + ([op] + rest.value) == (done + [op]) + rest.value;
    }
  }

  /** One operation per namespace with commands, in the fixed namespace order. */
  method CollectOperations(device: PlanDevice, byNamespace: map<string, seq<Command>>, namespaces: seq<string>) returns (r: Option<seq<Operation>>)
    requires Groups(byNamespace, device.commands)
    ensures r == OperationsFrom(device, namespaces)
  {
    var operations: seq<Operation> := [];
    assert namespaces[0..] == namespaces;
    NothingBefore(OperationsFrom(device, namespaces));
    for i := 0 to |namespaces|
      invariant OperationsFrom(device, namespaces) == After(operations, OperationsFrom(device, namespaces[i..]))
    {
      var n := namespaces[i];
      ghost var rest := OperationsFrom(device, namespaces[i + 1..]);
      assert namespaces[i..][0] == n && namespaces[i..][1..] == namespaces[i + 1..];
      var commands := Grouped(byNamespace, n);
      if commands != [] {
        var observed := if n in device.observed then device.observed[n] else "";
        if observed == "" {
          return None;
        }
        var operation := Operation("", n, commands, observed);
        OneMore(operations, operation, rest);
        operations := operations + [operation];
      }
    }
    assert namespaces[|namespaces|..] == [];
    assert operations + [] == operations;
    return Some(operations);
  }

  method HasStarted(results: seq<Entry>, x: string) returns (started: bool)
    ensures started <==> Started(results, x)
  {
    for i := 0 to |results|
      invariant !Started(results[..i], x)
    {
      if results[i].deviceId == Some(x) && !results[i].status.Waiting? {
        return true;
      }
    }
    return false;
  }

  /** The decision of `queueNextPhase`; it is only called with a positive cursor. */
  method DecideNextPhase(e: Env, lease: Lease, p: Progress) returns (decision: Decision)
    requires lease.cursor > 0
    ensures decision == NextPhase(e, lease, p)
  {
    var order := SortDevices(p.plan.devices);
    if lease.cursor >= |order| {
      return Nothing;
    }
    var device := order[lease.cursor];
    var started := HasStarted(p.results, device.id);
    if started {
      return Nothing;
    }
    var namespaces := SupportedNamespaces(p.plan);
    var grouped := GroupCommands(device.commands, namespaces);
    assert AllWithin(device.commands, namespaces) <==> CommandsStayInPlan(p.plan, device);
    if grouped.None? {
      return Nothing;
    }
    var operations := CollectOperations(device, grouped.value, NAMESPACES);
    if operations.None? {
      return Nothing;
    }
    var changeSet := NewDeviceChangeSetForRolloutOperations(e, e.rolloutText(lease.rolloutId), device.id, operations.value, p.plan.healthChecks, LOCAL_AUTO);
    return if changeSet.Ok? then Queue(device, changeSet.value) else BadChangeSet;
  }

  /** Edits the result entries of one device in place. */
  method MarkQueuedInPlace(results: array<Entry>, x: string, generation: int)
    modifies results
    ensures results[..] == MarkQueued(old(results[..]), x, generation)
  {
    for i := 0 to results.Length
      invariant forall k | 0 <= k < i :: results[k] == MarkQueuedEntry(old(results[k]), x, generation)
      invariant forall k | i <= k < results.Length :: results[k] == old(results[k])
    {
      if results[i].deviceId == Some(x) {
        results[i] := results[i].(status := EntryQueued, generation := Some(generation));
      }
    }
  }

  // ---- The loop ------------------------------------------------------------------

  function Iterate<S>(f: S -> S, s: S, n: nat): S
    decreases n
  {
    if n == 0 then s else Iterate(f, f(s), n - 1)
  }

  lemma {:induction false} IterateTogether<S>(f: S -> S, s: S, first: nat, second: nat)
    ensures Iterate(f, s, first + second) == Iterate(f, Iterate(f, s, first), second)
    decreases first
  {
    if first > 0 {
      IterateTogether(f, f(s), first - 1, second);
    }
  }

  type Position = (World, Option<WorkerState>)

  /** One atomic step of a worker; one that has returned stays where it is. */
  function Stepper(e: Env, duration: int): Position -> Position {
    (at: Position) => if at.1.None? then at else WorkerStep(e, at.0, at.1.value, duration)
  }

  /** A worker taking the given number of atomic steps, unless it returns first. */
  function Drive(e: Env, w: World, k: WorkerState, duration: int, steps: nat): Position {
    Iterate(Stepper(e, duration), (w, Some(k)), steps)
  }

  lemma DriveFurther(e: Env, w: World, k: WorkerState, duration: int, steps: nat)
    requires Drive(e, w, k, duration, steps).1.Some?
    ensures var (w', k') := Drive(e, w, k, duration, steps);
            Drive(e, w, k, duration, steps + 1) == WorkerStep(e, w', k'.value, duration)
  {
    IterateTogether(Stepper(e, duration), (w, Some(k)), steps, 1);
  }

  lemma DriveTogether(e: Env, w: World, k: WorkerState, duration: int, first: nat, second: nat)
    requires Drive(e, w, k, duration, first).1.Some?
    ensures var (w', k') := Drive(e, w, k, duration, first);
            Drive(e, w, k, duration, first + second) == Drive(e, w', k'.value, duration, second)
  {
    IterateTogether(Stepper(e, duration), (w, Some(k)), first, second);
  }

  /** `queueNextPhase`: false when the worker gives up. */
  method QueueNextPhase(e: Env, store: ControllerStore, lease: Lease, p: Progress, duration: int) returns (ok: bool, ghost steps: nat)
    requires CanAdvance(lease, p)
    modifies store
    ensures Drive(e, old(store.Tables()), WorkerState(lease, Advancing(p)), duration, steps)
            == (store.Tables(), if ok then Some(WorkerState(lease, Deciding(p))) else None)
  {
    ghost var k := WorkerState(lease, Advancing(p));
    ghost var before := store.Tables();
    DriveFurther(e, before, k, duration, 0);
    var decision := DecideNextPhase(e, lease, p);
    if !decision.Queue? {
      return decision.Nothing?, 1;
    }
    var answer := store.QueueDeviceChangeSetForRollout(e, lease.site, decision.device.role, decision.device.id, decision.cs, lease.rolloutId);
    if answer.Err? {
      return false, 1;
    }
    var results := new Entry[|p.results|](i requires 0 <= i < |p.results| => p.results[i]);
    assert results[..] == p.results;
    MarkQueuedInPlace(results, decision.device.id, answer.value);
    assert Drive(e, before, k, duration, 1) == (store.Tables(), Some(WorkerState(lease, Saving(p, decision.device.id, answer.value))));
    DriveFurther(e, before, k, duration, 1);
    ok := store.UpdateRolloutWorkerResults(e, lease, results[..]);
    return ok, 2;
  }

  /** The loop's first half: read the progress and raise the cursor to it. */
  method CatchUp(e: Env, store: ControllerStore, lease: Lease, duration: int) returns (r: Option<(Lease, Progress)>, ghost steps: nat)
    modifies store
    ensures Drive(e, old(store.Tables()), WorkerState(lease, Reading), duration, steps)
            == (store.Tables(), if r.Some? then Some(WorkerState(r.value.0, Advancing(r.value.1))) else None)
  {
    ghost var before, k := store.Tables(), WorkerState(lease, Reading);
    DriveFurther(e, before, k, duration, 0);
    if lease.rolloutId >= |store.rollouts| || store.rollouts[lease.rolloutId].site != lease.site {
      return None, 1;
    }
    var progress := GetRolloutProgress(store.rollouts[lease.rolloutId]);
    DriveFurther(e, before, k, duration, 1);
    if progress.terminalCount > lease.cursor {
      var ok := store.UpdateRolloutWorkerCursor(e, lease, progress.terminalCount);
      if !ok {
        return None, 2;
      }
      return Some((lease.(cursor := progress.terminalCount), progress)), 2;
    }
    return Some((lease, progress)), 2;
  }

  /** One pass of the loop up to the wait for its ticker; None when the worker returns. */
  method ReconcileOnce(e: Env, store: ControllerStore, lease: Lease, duration: int) returns (next: Option<Lease>, ghost steps: nat)
    modifies store
    ensures Drive(e, old(store.Tables()), WorkerState(lease, Reading), duration, steps)
            == (store.Tables(), if next.Some? then Some(WorkerState(next.value, Renewing)) else None)
  {
    ghost var before, k := store.Tables(), WorkerState(lease, Reading);
    var seen;
    seen, steps := CatchUp(e, store, lease, duration);
    if seen.None? {
      return None, steps;
    }
    var (current, progress) := seen.value;
    if CanAdvance(current, progress) {
      var ok; ghost var more;
      ok, more := QueueNextPhase(e, store, current, progress, duration);
      DriveTogether(e, before, k, duration, steps, more);
      steps := steps + more;
      if !ok {
        return None, steps;
      }
    } else {
      DriveFurther(e, before, k, duration, steps);
      steps := steps + 1;
    }
    DriveFurther(e, before, k, duration, steps);
    if !progress.status.Running? || (progress.resultCount > 0 && progress.terminalCount == progress.resultCount) {
      return None, steps + 1;
    }
    return Some(current), steps + 1;
  }

  /**
   * `reconcileLease`: passes until the worker returns or its context is
   * cancelled after the given number of ticks. What it does to the tables is
   * what the worker's atomic steps do.
   */
  method ReconcileLease(e: Env, store: ControllerStore, claimed: Lease, duration: int, ticks: nat)
    returns (ghost last: Option<WorkerState>, ghost steps: nat)
    modifies store
    ensures Drive(e, old(store.Tables()), WorkerState(claimed, Reading), duration, steps) == (store.Tables(), last)
    ensures last.Some? ==> last.value.stage.Renewing?
  {
    ghost var before, k := store.Tables(), WorkerState(claimed, Reading);
    var lease := claimed;
    var tick := 0;
    last, steps := Some(k), 0;
    while true
      invariant Drive(e, before, k, duration, steps) == (store.Tables(), Some(WorkerState(lease, Reading)))
      invariant tick <= ticks
      decreases ticks - tick
    {
      var next; ghost var more;
      next, more := ReconcileOnce(e, store, lease, duration);
      DriveTogether(e, before, k, duration, steps, more);
      steps := steps + more;
      if next.None? {
        return None, steps;
      }
      lease := next.value;
      if tick == ticks {
        return Some(WorkerState(lease, Renewing)), steps;
      }
      tick := tick + 1;
      DriveFurther(e, before, k, duration, steps);
      var ok := store.RenewRolloutLease(e, lease, duration);
      steps := steps + 1;
      if !ok {
        return None, steps;
      }
    }
  }
}
