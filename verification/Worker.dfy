/**
 * The rollout worker: the order in which devices are changed, the progress it
 * reads, the changeset it queues next, and one pass of its loop as atomic steps.
 */
module Worker {
  import opened Common
  import opened ChangeSets
  import opened Controller
  import DeviceOrder

  // ---- The order of devices ----------------------------------------------------

  predicate IsGateway(role: string) { EqualFold(role, "Gateway") }

  predicate GoesBefore(a: PlanDevice, b: PlanDevice) { DeviceOrder.Before(IsGateway, a, b) }

  /** The stable sort of the plan's devices. */
  function SortDevices(devices: seq<PlanDevice>): seq<PlanDevice> { DeviceOrder.SortBy(IsGateway, devices) }

  /** The order is sorted and a rearrangement of the plan's devices. */
  lemma SortIsSorted(devices: seq<PlanDevice>)
    ensures forall i, j | 0 <= i < j < |SortDevices(devices)| :: !GoesBefore(SortDevices(devices)[j], SortDevices(devices)[i])
    ensures multiset(SortDevices(devices)) == multiset(devices)
  {
    DeviceOrder.SortBySorts(IsGateway, devices);
  }

  /** Gateways come last: whatever stands after a Gateway is one too. */
  lemma GatewaysComeLast(devices: seq<PlanDevice>, i: nat, j: nat)
    requires i < j < |SortDevices(devices)| && IsGateway(SortDevices(devices)[i].role)
    ensures IsGateway(SortDevices(devices)[j].role)
  {
    SortIsSorted(devices);
    assert !GoesBefore(SortDevices(devices)[j], SortDevices(devices)[i]);
  }

  // ---- Progress -------------------------------------------------------------------

  datatype Progress = Progress(status: RolloutStatus, terminalCount: nat, resultCount: nat, failureCount: nat, plan: Plan, results: seq<Entry>)

  predicate CountsDone(en: Entry) { en.status.Success? || en.status.Skipped? || EntryTerminal(en) }

  predicate CountsFailed(en: Entry) { CountsDone(en) && !en.status.Success? && !en.status.Skipped? && !EntryCommitted(en) }

  function DoneCount(results: seq<Entry>): nat {
    if results == [] then 0 else
      DoneCount(results[..|results| - 1]) + (if CountsDone(results[|results| - 1]) then 1 else 0)
  }

  function FailedCount(results: seq<Entry>): nat {
    if results == [] then 0 else
      FailedCount(results[..|results| - 1]) + (if CountsFailed(results[|results| - 1]) then 1 else 0)
  }

  function ProgressOf(r: Rollout): Progress {
    Progress(r.status, DoneCount(r.results), |r.results|, FailedCount(r.results), r.plan, r.results)
  }

  /** `GetRolloutProgress`: counters accumulated in one pass over the results. */
  method GetRolloutProgress(r: Rollout) returns (p: Progress)
    ensures p == ProgressOf(r)
  {
    var terminalCount, failureCount := 0, 0;
    for i := 0 to |r.results|
      invariant terminalCount == DoneCount(r.results[..i]) && failureCount == FailedCount(r.results[..i])
    {
      assert r.results[..i + 1][..i] == r.results[..i];
      var en := r.results[i];
      var terminal := en.status.Success? || en.status.Skipped? || EntryTerminal(en);
      if terminal {
        terminalCount := terminalCount + 1;
        if !en.status.Success? && !en.status.Skipped? && !EntryCommitted(en) {
          failureCount := failureCount + 1;
        }
      }
    }
    assert r.results[..|r.results|] == r.results;
    return Progress(r.status, terminalCount, |r.results|, failureCount, r.plan, r.results);
  }

  predicate CanAdvance(lease: Lease, p: Progress) { lease.cursor > 0 && p.failureCount == 0 }

  // ---- The next changeset ---------------------------------------------------------------

  function CommandsFor(commands: seq<Command>, namespace: string): seq<Command> {
    if commands == [] then [] else
      (if commands[0].config == namespace then [commands[0]] else []) + CommandsFor(commands[1..], namespace)
  }

  /** The operations of one device, namespace by namespace; None when an observed hash is missing. */
  function OperationsFrom(d: PlanDevice, namespaces: seq<string>): Option<seq<Operation>> {
    if namespaces == [] then Some([]) else
      var commands := CommandsFor(d.commands, namespaces[0]);
      if commands == [] then OperationsFrom(d, namespaces[1..])
      else if namespaces[0] !in d.observed || d.observed[namespaces[0]] == "" then None
      else
        var rest := OperationsFrom(d, namespaces[1..]);
        if rest.None? then None
        else Some([Operation("", namespaces[0], commands, d.observed[namespaces[0]])] + rest.value)
  }

  predicate CommandsStayInPlan(p: Plan, d: PlanDevice) {
    forall i | 0 <= i < |d.commands| :: d.commands[i].config in p.namespaces && d.commands[i].config in NAMESPACES
  }

  datatype Decision = Nothing | BadChangeSet | Queue(device: PlanDevice, cs: ChangeSet)

  predicate Started(results: seq<Entry>, x: string) {
    exists i | 0 <= i < |results| :: results[i].deviceId == Some(x) && !results[i].status.Waiting?
  }

  /** What `queueNextPhase` decides before it calls the database. */
  function NextPhase(e: Env, lease: Lease, p: Progress): Decision {
    var order := SortDevices(p.plan.devices);
    if lease.cursor < 0 || lease.cursor >= |order| then Nothing else
      var device := order[lease.cursor];
      if Started(p.results, device.id) then Nothing
      else if !CommandsStayInPlan(p.plan, device) then Nothing
      else
        var ops := OperationsFrom(device, NAMESPACES);
        if ops.None? then Nothing else
          var cs := RolloutChangeSet(e, e.rolloutText(lease.rolloutId), device.id, ops.value, p.plan.healthChecks, LOCAL_AUTO);
          if ServiceAccepts(e, cs) then Queue(device, cs) else BadChangeSet
  }

  function MarkQueuedEntry(en: Entry, x: string, generation: int): Entry {
    if en.deviceId == Some(x) then en.(status := EntryQueued, generation := Some(generation)) else en
  }

  function MarkQueued(results: seq<Entry>, x: string, generation: int): seq<Entry> {
    seq(|results|, i requires 0 <= i < |results| => MarkQueuedEntry(results[i], x, generation))
  }

  // ---- The loop as atomic steps ------------------------------------------------------------

  /** Where a worker stands between two database calls. */
  datatype Stage =
    | Reading
    | Checking(p: Progress)
    | Advancing(p: Progress)
    | Saving(p: Progress, x: string, generation: int)
    | Deciding(p: Progress)
    | Renewing

  datatype WorkerState = WorkerState(lease: Lease, stage: Stage)

  /** One atomic step of `reconcileLease`; None means the worker returned. */
  function WorkerStep(e: Env, w: World, k: WorkerState, duration: int): (World, Option<WorkerState>) {
    var lease := k.lease;
    match k.stage
    case Reading =>
      if lease.rolloutId < |w.rollouts| && w.rollouts[lease.rolloutId].site == lease.site
      then (w, Some(WorkerState(lease, Checking(ProgressOf(w.rollouts[lease.rolloutId])))))
      else (w, None)
    case Checking(p) =>
      if p.terminalCount > lease.cursor then
        var (w', ok) := UpdateCursor(w, lease, p.terminalCount);
        if ok then (w', Some(WorkerState(lease.(cursor := p.terminalCount), Advancing(p)))) else (w, None)
      else (w, Some(WorkerState(lease, Advancing(p))))
    case Advancing(p) =>
      if !CanAdvance(lease, p) then (w, Some(WorkerState(lease, Deciding(p)))) else
        var next := NextPhase(e, lease, p);
        (match next
         case Nothing => (w, Some(WorkerState(lease, Deciding(p))))
         case BadChangeSet => (w, None)
         case Queue(device, cs) =>
           var (w', answer) := QueueFor(e, w, lease.site, device.role, device.id, cs, lease.rolloutId);
           if answer.Ok? then (w', Some(WorkerState(lease, Saving(p, device.id, answer.value)))) else (w', None))
    case Saving(p, x, generation) =>
      var (w', ok) := UpdateResults(w, lease, MarkQueued(p.results, x, generation));
      (w', if ok then Some(WorkerState(lease, Deciding(p))) else None)
    case Deciding(p) =>
      if !p.status.Running? || (p.resultCount > 0 && p.terminalCount == p.resultCount) then (w, None)
      else (w, Some(WorkerState(lease, Renewing)))
    case Renewing =>
      var (w', ok) := RenewLease(w, lease, duration);
      (w', if ok then Some(WorkerState(lease, Reading)) else None)
  }
}
