/** Workers of a staged rollout keep its invariant, and queue devices strictly in order. */
module StagedTheorem {
  import opened Common
  import opened ChangeSets
  import opened DeviceSlot
  import opened Controller
  import RowProjection
  import Leases
  import opened Worker
  import opened StagedRollout
  import opened StagedSafety

  // ---- One worker step ----------------------------------------------------------

  /** What the rollout's own workers may do to its row. */
  ghost predicate Advances(r: Rollout, r': Rollout) {
    && r'.site == r.site && r'.plan == r.plan && r'.workerToken.Some?
    && SameProgress(r.results, r'.results) && DoneCount(r'.results) == DoneCount(r.results)
  }

  lemma SameProgressIsTransitive(a: seq<Entry>, b: seq<Entry>, c: seq<Entry>)
    requires SameProgress(a, b) && SameProgress(b, c)
    ensures SameProgress(a, c)
  {
  }

  /** A worker's knowledge survives everything the rollout's row may go through. */
  lemma WorkerKnowledgeLasts(s: Setup, r: Rollout, r': Rollout, k: WorkerState)
    requires WorkerInv(s, r, k) && Advances(r, r')
    ensures WorkerInv(s, r', k)
  {
    if k.stage.Checking? || k.stage.Advancing? || k.stage.Saving? {
      SameProgressIsTransitive(k.stage.p.results, r.results, r'.results);
    }
  }

  lemma SnapshotShape(e: Env, s: Setup, r: Rollout, p: Progress, t: nat)
    requires Shape(e, s, r.results, t) && Snapshot(r, p)
    ensures Shape(e, s, p.results, t) && p.terminalCount == t == DoneCount(r.results)
  {
    SameShape(e, s, p.results, r.results, t);
    ShapeCounts(e, s, p.results, t);
    ShapeCounts(e, s, r.results, t);
  }

  /** A worker that decides to queue has seen exactly the first t devices succeed. */
  lemma DecisionIsNext(e: Env, s: Setup, r: Rollout, k: WorkerState, p: Progress, t: nat)
    requires Shape(e, s, r.results, t) && r.plan == s.plan && WorkerInv(s, r, k) && k.stage == Advancing(p)
    requires CanAdvance(k.lease, p) && NextPhase(e, k.lease, p).Queue?
    ensures var next := NextPhase(e, k.lease, p);
            && 0 < t < |s.order| && k.lease.cursor == t == DoneCount(r.results)
            && next.device == SortDevices(s.plan.devices)[t] && next.device.id == s.order[t]
            && next.cs.deviceId == s.order[t] && next.cs.id == CsOf(e, s, t)
    ensures forall j | 0 <= j < |s.pos| && s.pos[j] < t :: EntryCommitted(r.results[j])
  {
    SnapshotShape(e, s, r, p, t);
    AllSucceeded(e, s, p, t);
  }

  lemma AllSucceeded(e: Env, s: Setup, p: Progress, t: nat)
    requires Shape(e, s, p.results, t) && p.failureCount == FailedCount(p.results) == 0
    ensures forall j | 0 <= j < |s.pos| && s.pos[j] < t :: EntryCommitted(p.results[j])
  {
    NoFailures(p.results);
    forall j | 0 <= j < |s.pos| && s.pos[j] < t ensures EntryCommitted(p.results[j]) {
      assert EntryFits(p.results[j], s.order[s.pos[j]], CsOf(e, s, s.pos[j]), s.pos[j], t);
      assert !CountsFailed(p.results[j]);
    }
  }

  /** Rewriting only the rollout's row, within its invariant, keeps everything. */
  lemma ReplaceRollout(e: Env, s: Setup, w: World, r': Rollout)
    requires RolloutInv(e, s, w) && r'.plan == s.plan && r'.workerToken.Some?
    requires Leases.ColumnsOk(w.now, w.nextToken, r') && LaunchedOk(e, s, w.devices, r')
    ensures RolloutInv(e, s, w.(rollouts := w.rollouts[s.r := r']))
  {
  }

  /** Rewriting only device rows, within the slot invariant and the results, keeps everything. */
  lemma ReplaceDevices(e: Env, s: Setup, w: World, devices: map<string, Device>)
    requires RolloutInv(e, s, w) && w.rollouts[s.r].workerToken.Some? && RowProjection.SlotsOk(e, w.(devices := devices))
    requires LaunchedOk(e, s, devices, w.rollouts[s.r])
    ensures RolloutInv(e, s, w.(devices := devices))
  {
  }

  /** What one step of a worker must keep: the rollout's invariant, its progress, and the worker's own knowledge. */
  ghost predicate StepOk(e: Env, s: Setup, w: World, w': World, k': Option<WorkerState>) {
    && RolloutInv(e, s, w) && RolloutInv(e, s, w') && Advances(w.rollouts[s.r], w'.rollouts[s.r])
    && (k'.Some? ==> WorkerInv(s, w'.rollouts[s.r], k'.value))
  }

  lemma UnchangedIsOk(e: Env, s: Setup, w: World, k': Option<WorkerState>)
    requires RolloutInv(e, s, w) && w.rollouts[s.r].workerToken.Some?
    requires k'.Some? ==> WorkerInv(s, w.rollouts[s.r], k'.value)
    ensures StepOk(e, s, w, w, k')
  {
  }

  lemma ReplacedIsOk(e: Env, s: Setup, w: World, r': Rollout, k': Option<WorkerState>)
    requires RolloutInv(e, s, w) && Advances(w.rollouts[s.r], r')
    requires Leases.ColumnsOk(w.now, w.nextToken, r') && LaunchedOk(e, s, w.devices, r')
    requires k'.Some? ==> WorkerInv(s, r', k'.value)
    ensures StepOk(e, s, w, w.(rollouts := w.rollouts[s.r := r']), k')
  {
    ReplaceRollout(e, s, w, r');
  }

  lemma SameResultsStayLaunched(e: Env, s: Setup, devices: map<string, Device>, r: Rollout, r': Rollout)
    requires LaunchedOk(e, s, devices, r) && r'.results == r.results && r'.status == r.status
    requires 0 <= r'.cursor <= DoneCount(r.results)
    ensures LaunchedOk(e, s, devices, r')
  {
  }

  lemma SeenCount(e: Env, s: Setup, devices: map<string, Device>, r: Rollout, p: Progress)
    requires LaunchedOk(e, s, devices, r) && Snapshot(r, p)
    ensures p.terminalCount == DoneCount(r.results)
  {
    SnapshotShape(e, s, r, p, DoneCount(r.results));
  }

  lemma CursorIsOk(e: Env, s: Setup, w: World, k: WorkerState)
    requires RolloutInv(e, s, w) && WorkerInv(s, w.rollouts[s.r], k) && k.stage.Checking?
    requires k.stage.p.terminalCount == DoneCount(w.rollouts[s.r].results)
    ensures var r, done := w.rollouts[s.r], k.stage.p.terminalCount;
            StepOk(e, s, w, w.(rollouts := w.rollouts[s.r := r.(cursor := Max(r.cursor, done), updatedAt := w.now)]),
                   Some(WorkerState(k.lease.(cursor := done), Advancing(k.stage.p))))
  {
    var r, done := w.rollouts[s.r], k.stage.p.terminalCount;
    var r' := r.(cursor := Max(r.cursor, done), updatedAt := w.now);
    SameResultsStayLaunched(e, s, w.devices, r, r');
    ReplacedIsOk(e, s, w, r', Some(WorkerState(k.lease.(cursor := done), Advancing(k.stage.p))));
  }

  lemma CheckingStep(e: Env, s: Setup, w: World, k: WorkerState, duration: int)
    requires RolloutInv(e, s, w) && WorkerInv(s, w.rollouts[s.r], k) && k.stage.Checking?
    ensures var (w', k') := WorkerStep(e, w, k, duration); StepOk(e, s, w, w', k')
  {
    var p := k.stage.p;
    SeenCount(e, s, w.devices, w.rollouts[s.r], p);
    if p.terminalCount <= k.lease.cursor {
      UnchangedIsOk(e, s, w, Some(WorkerState(k.lease, Advancing(p))));
    } else if HoldsLease(w, k.lease) {
      CursorIsOk(e, s, w, k);
    } else {
      UnchangedIsOk(e, s, w, None);
    }
  }

  lemma AdvancingStep(e: Env, s: Setup, w: World, k: WorkerState, duration: int)
    requires RolloutInv(e, s, w) && WorkerInv(s, w.rollouts[s.r], k) && k.stage.Advancing?
    ensures var (w', k') := WorkerStep(e, w, k, duration); StepOk(e, s, w, w', k')
  {
    var p := k.stage.p;
    if !CanAdvance(k.lease, p) || NextPhase(e, k.lease, p).Nothing? {
      UnchangedIsOk(e, s, w, Some(WorkerState(k.lease, Deciding(p))));
    } else if NextPhase(e, k.lease, p).BadChangeSet? {
      UnchangedIsOk(e, s, w, None);
    } else {
      DecisionIsNext(e, s, w.rollouts[s.r], k, p, DoneCount(w.rollouts[s.r].results));
      QueueingStep(e, s, w, k, NextPhase(e, k.lease, p).device, NextPhase(e, k.lease, p).cs);
    }
  }

  lemma QueueingStep(e: Env, s: Setup, w: World, k: WorkerState, device: PlanDevice, cs: ChangeSet)
    requires RolloutInv(e, s, w) && WorkerInv(s, w.rollouts[s.r], k) && k.stage.Advancing? && CanAdvance(k.lease, k.stage.p)
    requires var t := DoneCount(w.rollouts[s.r].results); t < |s.order| && device.id == cs.deviceId == s.order[t]
    ensures var (w', answer) := QueueFor(e, w, k.lease.site, device.role, device.id, cs, s.r);
            && StepOk(e, s, w, w', None)
            && (answer.Ok? ==> StepOk(e, s, w, w', Some(WorkerState(k.lease, Saving(k.stage.p, device.id, answer.value)))))
  {
    QueueingKeepsRollout(e, s, w, k.lease.site, device.role, cs);
  }

  lemma QueueingKeepsRows(e: Env, s: Setup, w: World, c: Call, cs: ChangeSet, r: Rollout)
    requires RowProjection.SlotsOk(e, w) && LaunchedOk(e, s, w.devices, r) && !r.status.Queued?
    requires var t := DoneCount(r.results); t < |s.order| && cs.deviceId == s.order[t]
    requires c.OnDevice? && c.x == cs.deviceId
    ensures LaunchedOk(e, s, Step(e, w, c).devices, r)
  {
    var t := DoneCount(r.results);
    RowsKeepFitting(e, s, w, c, r.results, t, false);
  }

  lemma QueueingKeepsRollout(e: Env, s: Setup, w: World, site: string, role: string, cs: ChangeSet)
    requires RolloutInv(e, s, w) && w.rollouts[s.r].workerToken.Some?
    requires var t := DoneCount(w.rollouts[s.r].results); t < |s.order| && cs.deviceId == s.order[t]
    ensures var w' := QueueFor(e, w, site, role, cs.deviceId, cs, s.r).0;
            RolloutInv(e, s, w') && w'.rollouts == w.rollouts
  {
    var c := OnDevice(cs.deviceId, CallQueueFor(site, role, cs, s.r));
    var devices := Step(e, w, c).devices;
    assert RowProjection.SlotsOk(e, w.(devices := devices)) by {
      RowProjection.StepKeepsSlots(e, w, c);
    }
    assert LaunchedOk(e, s, devices, w.rollouts[s.r]) by {
      QueueingKeepsRows(e, s, w, c, cs, w.rollouts[s.r]);
    }
    ReplaceDevices(e, s, w, devices);
    QueueForIsStep(e, s, w, site, role, cs);
  }

  lemma QueueForIsStep(e: Env, s: Setup, w: World, site: string, role: string, cs: ChangeSet)
    ensures QueueFor(e, w, site, role, cs.deviceId, cs, s.r).0 == Step(e, w, OnDevice(cs.deviceId, CallQueueFor(site, role, cs, s.r)))
  {
  }

  lemma SavedEntryFits(e: Env, s: Setup, seen: Entry, stored: Entry, i: nat, t: nat, generation: int)
    requires SetupOk(s) && i < |s.order| && t < |s.order|
    requires EntryFits(seen, s.order[i], CsOf(e, s, i), i, t) && EntryFits(stored, s.order[i], CsOf(e, s, i), i, t)
    requires i == t || seen.status == stored.status || (seen.status.Waiting? && stored.status.EntryQueued?)
    ensures var saved := MarkQueuedEntry(seen, s.order[t], generation);
            && EntryFits(saved, s.order[i], CsOf(e, s, i), i, t)
            && (saved.status == stored.status || (stored.status.Waiting? && saved.status.EntryQueued?))
            && saved.deviceId == seen.deviceId && saved.csId == seen.csId && saved.csState == seen.csState
  {
    if i != t {
      assert s.order[i] != s.order[t];
    }
  }

  lemma SavedResults(e: Env, s: Setup, r: Rollout, p: Progress, t: nat, generation: int)
    requires Shape(e, s, r.results, t) && Shape(e, s, p.results, t) && SameProgress(p.results, r.results) && t < |s.order|
    requires p.failureCount == FailedCount(p.results) == 0
    ensures var saved := MarkQueued(p.results, s.order[t], generation);
            Shape(e, s, saved, t) && SameProgress(r.results, saved)
  {
    var saved := MarkQueued(p.results, s.order[t], generation);
    AllSucceeded(e, s, p, t);
    forall j | 0 <= j < |saved|
      ensures EntryFits(saved[j], s.order[s.pos[j]], CsOf(e, s, s.pos[j]), s.pos[j], t)
      ensures s.pos[j] < t ==> EntryCommitted(saved[j])
      ensures saved[j].deviceId == r.results[j].deviceId && saved[j].csId == r.results[j].csId && saved[j].csState == r.results[j].csState
      ensures saved[j].status == r.results[j].status || (r.results[j].status.Waiting? && saved[j].status.EntryQueued?)
    {
      SavedEntryFits(e, s, p.results[j], r.results[j], s.pos[j], t, generation);
    }
  }

  lemma SavedKeepsLaunched(e: Env, s: Setup, devices: map<string, Device>, r: Rollout, p: Progress, generation: int, now: int)
    requires LaunchedOk(e, s, devices, r) && !r.status.Queued? && Snapshot(r, p) && p.failureCount == 0
    requires DoneCount(r.results) < |s.order|
    ensures var r' := r.(results := MarkQueued(p.results, s.order[DoneCount(r.results)], generation), updatedAt := now);
            && LaunchedOk(e, s, devices, r')
            && SameProgress(r.results, r'.results) && DoneCount(r'.results) == DoneCount(r.results)
  {
    var t := DoneCount(r.results);
    SameShape(e, s, p.results, r.results, t);
    SavedResults(e, s, r, p, t, generation);
    var saved := MarkQueued(p.results, s.order[t], generation);
    ShapeCounts(e, s, saved, t);
  }

  lemma SavingStep(e: Env, s: Setup, w: World, k: WorkerState, duration: int)
    requires RolloutInv(e, s, w) && WorkerInv(s, w.rollouts[s.r], k) && k.stage.Saving?
    ensures var (w', k') := WorkerStep(e, w, k, duration); StepOk(e, s, w, w', k')
  {
    var r, p := w.rollouts[s.r], k.stage.p;
    if HoldsLease(w, k.lease) {
      var r' := r.(results := MarkQueued(p.results, k.stage.x, k.stage.generation), updatedAt := w.now);
      SavedKeepsLaunched(e, s, w.devices, r, p, k.stage.generation, w.now);
      ReplacedIsOk(e, s, w, r', Some(WorkerState(k.lease, Deciding(p))));
    } else {
      UnchangedIsOk(e, s, w, None);
    }
  }

  lemma RenewalIsOk(e: Env, s: Setup, w: World, k: WorkerState, r': Rollout)
    requires RolloutInv(e, s, w) && WorkerInv(s, w.rollouts[s.r], k) && Leases.ColumnsOk(w.now, w.nextToken, r')
    requires r' == w.rollouts[s.r].(leaseUntil := r'.leaseUntil, updatedAt := r'.updatedAt)
    ensures StepOk(e, s, w, w.(rollouts := w.rollouts[s.r := r']), Some(WorkerState(k.lease, Reading)))
  {
    SameResultsStayLaunched(e, s, w.devices, w.rollouts[s.r], r');
    ReplacedIsOk(e, s, w, r', Some(WorkerState(k.lease, Reading)));
  }

  lemma RenewingStep(e: Env, s: Setup, w: World, k: WorkerState, duration: int)
    requires RolloutInv(e, s, w) && WorkerInv(s, w.rollouts[s.r], k) && k.stage.Renewing?
    ensures var (w', k') := WorkerStep(e, w, k, duration); StepOk(e, s, w, w', k')
  {
    if HoldsLease(w, k.lease) {
      RenewalIsOk(e, s, w, k, w.rollouts[s.r].(leaseUntil := Some(w.now + duration), updatedAt := w.now));
    } else {
      UnchangedIsOk(e, s, w, None);
    }
  }

  lemma DecidingStep(e: Env, s: Setup, w: World, k: WorkerState, duration: int)
    requires RolloutInv(e, s, w) && WorkerInv(s, w.rollouts[s.r], k) && (k.stage.Deciding? || k.stage.Reading?)
    ensures var (w', k') := WorkerStep(e, w, k, duration); StepOk(e, s, w, w', k')
  {
    var k' := WorkerStep(e, w, k, duration).1;
    UnchangedIsOk(e, s, w, k');
  }

  lemma WorkerKeepsRollout(e: Env, s: Setup, w: World, k: WorkerState, duration: int)
    requires RolloutInv(e, s, w) && WorkerInv(s, w.rollouts[s.r], k)
    ensures var (w', k') := WorkerStep(e, w, k, duration); StepOk(e, s, w, w', k')
  {
    match k.stage
    case Checking(_) => CheckingStep(e, s, w, k, duration);
    case Advancing(_) => AdvancingStep(e, s, w, k, duration);
    case Saving(_, _, _) => SavingStep(e, s, w, k, duration);
    case Renewing => RenewingStep(e, s, w, k, duration);
    case _ => DecidingStep(e, s, w, k, duration);
  }

  // ---- Every event ------------------------------------------------------------------

  lemma ExternalAdvances(e: Env, s: Setup, w: World, c: Call)
    requires RolloutInv(e, s, w) && Allowed(e, s, c) && w.rollouts[s.r].workerToken.Some?
    ensures s.r < |Step(e, w, c).rollouts| && Advances(w.rollouts[s.r], Step(e, w, c).rollouts[s.r])
  {
    if c.OnReport? {
      ReportsMissClaimed(w, c.x, c.report, s.r);
    } else if c.CallClaimAndQueue? && c.id == s.r {
      assert !Claimable(w, c.site, c.id);
    } else {
      CallIsQuiet(e, s, w, c);
    }
  }

  /** Reports only reach QUEUED rollouts, and a worker's rollout is not QUEUED. */
  lemma ReportsMissClaimed(w: World, x: string, report: Report, i: nat)
    requires i < |w.rollouts| && !w.rollouts[i].status.Queued?
    ensures i < |RecordReport(w, x, report).0.rollouts| && RecordReport(w, x, report).0.rollouts[i] == w.rollouts[i]
  {
  }

  lemma SpawnKeepsRollout(e: Env, s: Setup, w: World, duration: int)
    requires RolloutInv(e, s, w) && ClaimLease(w, duration, s.r).1.Ok?
    ensures var (w', answer) := ClaimLease(w, duration, s.r);
            && RolloutInv(e, s, w') && WorkerInv(s, w'.rollouts[s.r], WorkerState(answer.value, Reading))
            && (w.rollouts[s.r].workerToken.Some? ==> Advances(w.rollouts[s.r], w'.rollouts[s.r]))
  {
    var c := OnLease(CallClaimLease(duration, s.r));
    var r := w.rollouts[s.r];
    ColumnsStayOk(e, w, c, s.r);
    RowProjection.StepKeepsSlots(e, w, c);
    assert Launched(r);
    assert RowsFit(e, s, w.devices, r.results, DoneCount(r.results), r.status.Queued?);
  }

  lemma EventKeepsFleet(e: Env, s: Setup, f: Fleet, ev: Event)
    requires FleetInv(e, s, f) && (ev.External? ==> Allowed(e, s, ev.call))
    ensures FleetInv(e, s, StepFleet(e, s, f, ev))
  {
    match ev
    case External(c) => ExternalKeepsFleet(e, s, f, c);
    case Spawn(duration) => SpawnKeepsFleet(e, s, f, duration);
    case Work(token, duration) => WorkKeepsFleet(e, s, f, token, duration);
    case Crash(token) =>
  }

  lemma SpawnKeepsFleet(e: Env, s: Setup, f: Fleet, duration: int)
    requires FleetInv(e, s, f)
    ensures FleetInv(e, s, StepFleet(e, s, f, Spawn(duration)))
  {
    if ClaimLease(f.w, duration, s.r).1.Ok? {
      SpawnKeepsRollout(e, s, f.w, duration);
      WorkersLast(s, f.w.rollouts[s.r], ClaimLease(f.w, duration, s.r).0.rollouts[s.r], f.workers);
    }
  }

  lemma WorkKeepsFleet(e: Env, s: Setup, f: Fleet, token: nat, duration: int)
    requires FleetInv(e, s, f)
    ensures FleetInv(e, s, StepFleet(e, s, f, Work(token, duration)))
  {
    if token in f.workers {
      WorkerKeepsRollout(e, s, f.w, f.workers[token], duration);
      WorkersLast(s, f.w.rollouts[s.r], WorkerStep(e, f.w, f.workers[token], duration).0.rollouts[s.r], f.workers);
    }
  }

  lemma ExternalKeepsFleet(e: Env, s: Setup, f: Fleet, c: Call)
    requires FleetInv(e, s, f) && Allowed(e, s, c)
    ensures FleetInv(e, s, f.(w := Step(e, f.w, c)))
  {
    ExternalKeepsRollout(e, s, f.w, c);
    if f.workers != map[] {
      var token :| token in f.workers;
      assert WorkerInv(s, f.w.rollouts[s.r], f.workers[token]);
      ExternalAdvances(e, s, f.w, c);
      WorkersLast(s, f.w.rollouts[s.r], Step(e, f.w, c).rollouts[s.r], f.workers);
    }
  }

  lemma WorkersLast(s: Setup, r: Rollout, r': Rollout, workers: map<nat, WorkerState>)
    requires forall token | token in workers :: WorkerInv(s, r, workers[token]) && Advances(r, r')
    ensures forall token | token in workers :: WorkerInv(s, r', workers[token])
  {
    forall token | token in workers ensures WorkerInv(s, r', workers[token]) {
      WorkerKnowledgeLasts(s, r, r', workers[token]);
    }
  }

  lemma {:induction false} RunKeepsFleet(e: Env, s: Setup, f: Fleet, events: seq<Event>)
    requires FleetInv(e, s, f) && AllAllowed(e, s, events)
    ensures FleetInv(e, s, RunFleet(e, s, f, events))
    decreases events
  {
    if events != [] {
      assert events[0] in events;
      EventKeepsFleet(e, s, f, events[0]);
      RunKeepsFleet(e, s, StepFleet(e, s, f, events[0]), events[1..]);
    }
  }

  // ---- The theorem ---------------------------------------------------------------------

  /** A draft whose devices never saw its changesets, before any claim. */
  ghost predicate StartsAsDraft(e: Env, s: Setup, f: Fleet) {
    && SetupOk(s) && s.started == 1 && f.workers == map[]
    && s.r < |f.w.rollouts| && RowProjection.SlotsOk(e, f.w)
    && f.w.rollouts[s.r].status.Draft? && f.w.rollouts[s.r].plan == s.plan && f.w.rollouts[s.r].cursor == 0
    && Leases.ColumnsOk(f.w.now, f.w.nextToken, f.w.rollouts[s.r])
    && RowsFresh(e, s, f.w.devices)
  }

  /** This event is a worker's successful queue call. */
  predicate Queues(e: Env, f: Fleet, ev: Event) {
    && ev.Work? && ev.token in f.workers && f.workers[ev.token].stage.Advancing?
    && var k := WorkerStep(e, f.w, f.workers[ev.token], ev.duration).1;
       k.Some? && k.value.stage.Saving?
  }

  /** The k-th device may be changed now: all before it succeeded, all after it wait, and nothing else is in flight. */
  ghost predicate TurnOf(e: Env, s: Setup, w: World, k: nat) {
    && SetupOk(s) && k < |s.order| && s.r < |w.rollouts| && |w.rollouts[s.r].results| == |s.pos|
    && (forall j | 0 <= j < |s.pos| :: s.pos[j] < k ==> w.rollouts[s.r].results[j].status.Success? && EntryCommitted(w.rollouts[s.r].results[j]))
    && (forall j | 0 <= j < |s.pos| :: s.pos[j] > k ==> w.rollouts[s.r].results[j].status.Waiting?)
    && (forall i | 0 <= i < |s.order| && i != k && s.order[i] in w.devices && w.devices[s.order[i]].pendingCs.Some? ::
          w.devices[s.order[i]].pendingCs.value.id != CsOf(e, s, i))
    && (IsGateway(SortDevices(s.plan.devices)[k].role) ==>
          forall i | k <= i < |s.order| :: IsGateway(SortDevices(s.plan.devices)[i].role))
  }

  lemma QueueMeansTurn(e: Env, s: Setup, f: Fleet, ev: Event)
    requires FleetInv(e, s, f) && Queues(e, f, ev)
    ensures var k := f.workers[ev.token].lease.cursor;
            && 0 < k < |s.order| && k <= s.started
            && WorkerStep(e, f.w, f.workers[ev.token], ev.duration).1.value.stage.x == s.order[k]
            && TurnOf(e, s, f.w, k)
  {
    var worker, r := f.workers[ev.token], f.w.rollouts[s.r];
    var t := DoneCount(r.results);
    assert WorkerInv(s, r, worker);
    DecisionIsNext(e, s, r, worker, worker.stage.p, t);
    TurnHolds(e, s, f.w, t);
  }

  lemma TurnHolds(e: Env, s: Setup, w: World, t: nat)
    requires s.r < |w.rollouts| && Shape(e, s, w.rollouts[s.r].results, t) && t < |s.order|
    requires RowsFit(e, s, w.devices, w.rollouts[s.r].results, t, w.rollouts[s.r].status.Queued?)
    requires forall j | 0 <= j < |s.pos| && s.pos[j] < t :: EntryCommitted(w.rollouts[s.r].results[j])
    ensures TurnOf(e, s, w, t)
  {
    var r := w.rollouts[s.r];
    NothingElseInFlight(e, s, w.devices, r.results, t, r.status.Queued?);
    GatewayTurn(s, t);
  }

  lemma GatewayTurn(s: Setup, t: nat)
    requires SetupOk(s) && t < |s.order|
    ensures IsGateway(SortDevices(s.plan.devices)[t].role) ==>
              forall i | t <= i < |s.order| :: IsGateway(SortDevices(s.plan.devices)[i].role)
  {
    forall i | t < i < |s.order| && IsGateway(SortDevices(s.plan.devices)[t].role)
      ensures IsGateway(SortDevices(s.plan.devices)[i].role)
    {
      GatewaysComeLast(s.plan.devices, t, i);
    }
  }

  lemma NothingElseInFlight(e: Env, s: Setup, devices: map<string, Device>, results: seq<Entry>, t: nat, queued: bool)
    requires Shape(e, s, results, t) && RowsFit(e, s, devices, results, t, queued)
    ensures forall i | 0 <= i < |s.order| && i != t && s.order[i] in devices && devices[s.order[i]].pendingCs.Some? ::
              devices[s.order[i]].pendingCs.value.id != CsOf(e, s, i)
  {
    forall i | 0 <= i < |s.order| && i != t && s.order[i] in devices && devices[s.order[i]].pendingCs.Some?
      ensures devices[s.order[i]].pendingCs.value.id != CsOf(e, s, i)
    {
      var j := s.place[i];
      assert EntryFits(results[j], s.order[s.pos[j]], CsOf(e, s, s.pos[j]), s.pos[j], t);
      assert RowFits(devices[s.order[s.pos[j]]], results[j], CsOf(e, s, s.pos[j]), s.pos[j], t, queued);
    }
  }

  /**
   * Staged rollout: in any interleaving of workers, crashes, re-claims, reports
   * and other calls, whenever a worker queues a device, every earlier device of
   * the order has succeeded, every later one waits, and no other device holds
   * this rollout's changeset; so a Gateway only follows all non-Gateways.
   */
  lemma WorkersQueueInOrder(e: Env, s: Setup, f: Fleet, events: seq<Event>, ev: Event)
    requires FleetInv(e, s, f) && AllAllowed(e, s, events)
    requires Queues(e, RunFleet(e, s, f, events), ev)
    ensures var now := RunFleet(e, s, f, events);
            var k := now.workers[ev.token].lease.cursor;
            0 < k < |s.order| && TurnOf(e, s, now.w, k)
            && WorkerStep(e, now.w, now.workers[ev.token], ev.duration).1.value.stage.x == s.order[k]
  {
    RunKeepsFleet(e, s, f, events);
    QueueMeansTurn(e, s, RunFleet(e, s, f, events), ev);
  }

  /**
   * A limit of the code: reports only reach rollouts that are QUEUED, and a
   * claimed rollout never returns to QUEUED, so from a draft no worker ever
   * queues a device beyond the second one of the order.
   */
  lemma WorkersStopAtTheSecondDevice(e: Env, s: Setup, f: Fleet, events: seq<Event>, ev: Event)
    requires StartsAsDraft(e, s, f) && AllAllowed(e, s, events)
    requires Queues(e, RunFleet(e, s, f, events), ev)
    ensures var now := RunFleet(e, s, f, events);
            && now.workers[ev.token].lease.cursor == 1 && |s.order| > 1
            && WorkerStep(e, now.w, now.workers[ev.token], ev.duration).1.value.stage.x == s.order[1]
            && TurnOf(e, s, now.w, 1)
  {
    RunKeepsFleet(e, s, f, events);
    QueueMeansTurn(e, s, RunFleet(e, s, f, events), ev);
  }

  /** Once a worker has claimed the rollout, no event changes which devices are done, or how. */
  lemma {:induction false} ClaimedProgressIsFrozen(e: Env, s: Setup, f: Fleet, events: seq<Event>)
    requires FleetInv(e, s, f) && AllAllowed(e, s, events) && f.w.rollouts[s.r].workerToken.Some?
    ensures var now := RunFleet(e, s, f, events);
            && FleetInv(e, s, now)
            && SameProgress(f.w.rollouts[s.r].results, now.w.rollouts[s.r].results)
            && DoneCount(now.w.rollouts[s.r].results) == DoneCount(f.w.rollouts[s.r].results)
    decreases events
  {
    if events != [] {
      var ev := events[0];
      var f' := StepFleet(e, s, f, ev);
      assert ev in events;
      EventKeepsFleet(e, s, f, ev);
      EventAdvances(e, s, f, ev);
      ClaimedProgressIsFrozen(e, s, f', events[1..]);
      SameProgressIsTransitive(f.w.rollouts[s.r].results, f'.w.rollouts[s.r].results, RunFleet(e, s, f', events[1..]).w.rollouts[s.r].results);
    }
  }

  lemma EventAdvances(e: Env, s: Setup, f: Fleet, ev: Event)
    requires FleetInv(e, s, f) && f.w.rollouts[s.r].workerToken.Some? && (ev.External? ==> Allowed(e, s, ev.call))
    ensures var f' := StepFleet(e, s, f, ev);
            s.r < |f'.w.rollouts| && Advances(f.w.rollouts[s.r], f'.w.rollouts[s.r])
  {
    match ev
    case External(c) => ExternalAdvances(e, s, f.w, c);
    case Spawn(duration) =>
      if ClaimLease(f.w, duration, s.r).1.Ok? {
        SpawnKeepsRollout(e, s, f.w, duration);
      }
    case Work(token, duration) =>
      if token in f.workers {
        WorkerKeepsRollout(e, s, f.w, f.workers[token], duration);
      }
    case Crash(_) =>
  }
}
