/** What one worker does with its lease: while it lives it goes round, once it is lost it stops. */
module WorkerLaws {
  import opened Common
  import opened ChangeSets
  import opened DeviceSlot
  import opened Controller
  import opened Worker

  /** How many steps a worker can take before it has to write under its lease. */
  function StepsLeft(s: Stage): nat {
    match s
    case Reading => 5
    case Checking(_) => 4
    case Advancing(_) => 3
    case Saving(_, _, _) => 2
    case Deciding(_) => 1
    case Renewing => 0
  }

  /** The stages at which the worker writes under its lease. */
  predicate WritesUnderLease(k: WorkerState) {
    k.stage.Saving? || k.stage.Renewing? || (k.stage.Checking? && k.stage.p.terminalCount > k.lease.cursor)
  }

  /**
   * A worker whose lease is gone returns at its next write under it, has at most
   * five more steps until then, and touches no rollout on the way.
   */
  lemma LostLeaseStops(e: Env, w: World, k: WorkerState, duration: int)
    requires !HoldsLease(w, k.lease)
    ensures var (w', next) := WorkerStep(e, w, k, duration);
            && w'.rollouts == w.rollouts
            && (WritesUnderLease(k) ==> next == None && w' == w)
            && (next.Some? ==> next.value.lease == k.lease && StepsLeft(next.value.stage) < StepsLeft(k.stage))
  {
  }

  /** A worker reads progress exactly from a rollout of its lease's site, and starts its check with what it read. */
  lemma ReadsItsOwnSite(e: Env, w: World, lease: Lease, duration: int)
    ensures var (w', next) := WorkerStep(e, w, WorkerState(lease, Reading), duration);
            && w' == w
            && next == if lease.rolloutId < |w.rollouts| && w.rollouts[lease.rolloutId].site == lease.site
                       then Some(WorkerState(lease, Checking(ProgressOf(w.rollouts[lease.rolloutId])))) else None
  {
  }

  /**
   * Under a live lease the check leaves worker and rollout at the number of
   * finished entries, if that is ahead of the worker, and touches nothing else.
   */
  lemma CheckingCatchesUp(e: Env, w: World, k: WorkerState, duration: int)
    requires HoldsLease(w, k.lease) && k.stage.Checking?
    ensures var (w', next) := WorkerStep(e, w, k, duration);
            var done, i := k.stage.p.terminalCount, k.lease.rolloutId;
            && next.Some? && next.value.stage == Advancing(k.stage.p)
            && next.value.lease == k.lease.(cursor := if done > k.lease.cursor then done else k.lease.cursor)
            && |w'.rollouts| == |w.rollouts| && w'.devices == w.devices
            && (forall j | 0 <= j < |w.rollouts| && j != i :: w'.rollouts[j] == w.rollouts[j])
            && w'.rollouts[i].cursor >= w.rollouts[i].cursor
            && (done > k.lease.cursor ==> w'.rollouts[i].cursor >= done && (w'.rollouts[i].cursor in {done, w.rollouts[i].cursor}))
            && (done <= k.lease.cursor ==> w' == w)
  {
  }

  /** Under a live lease, renewing sends the worker round again with the full duration ahead. */
  lemma RenewingGoesRound(e: Env, w: World, k: WorkerState, duration: int)
    requires HoldsLease(w, k.lease) && k.stage.Renewing?
    ensures var (w', next) := WorkerStep(e, w, k, duration);
            && next == Some(WorkerState(k.lease, Reading))
            && w'.rollouts[k.lease.rolloutId].leaseUntil == Some(w.now + duration)
  {
  }

  /** The worker rests exactly when its rollout ended or all its entries are finished; else it goes on to renew. */
  lemma RestsExactly(e: Env, w: World, lease: Lease, p: Progress, duration: int)
    ensures var (w', next) := WorkerStep(e, w, WorkerState(lease, Deciding(p)), duration);
            && w' == w
            && next == if p.status == Running && (p.resultCount == 0 || p.terminalCount != p.resultCount)
                       then Some(WorkerState(lease, Renewing)) else None
  {
  }

  // ---- The order ------------------------------------------------------------------------

  /** The role names a Gateway, in any letter case. */
  predicate SaysGateway(role: string) { Lower(role) == "gateway" }

  /** In the worker's order nothing but Gateways follows a Gateway, and devices of one kind follow each other by id. */
  lemma OrderIsByRoleAndId(devices: seq<PlanDevice>, i: nat, j: nat)
    requires i < j < |SortDevices(devices)|
    ensures var a, b := SortDevices(devices)[i], SortDevices(devices)[j];
            && (SaysGateway(a.role) ==> SaysGateway(b.role))
            && (SaysGateway(a.role) == SaysGateway(b.role) ==> !LexLess(b.id, a.id))
  {
    SortIsSorted(devices);
    var a, b := SortDevices(devices)[i], SortDevices(devices)[j];
    assert !GoesBefore(b, a);
    assert Lower("Gateway") == "gateway";
  }

  // ---- What a worker reads and writes ------------------------------------------------

  predicate Finished(en: Entry) {
    en.status in {Success, Skipped} || en.csState in {Some(Committed), Some(Restored), Some(RecoveryRequired), Some(Rejected)}
  }

  /** Ended otherwise than by success, and neither skipped nor marked a success. */
  predicate FailedEntry(en: Entry) {
    en.status !in {Success, Skipped} && en.csState in {Some(Restored), Some(RecoveryRequired), Some(Rejected)}
  }

  ghost function Places(results: seq<Entry>, holds: Entry -> bool): set<int> {
    set i | 0 <= i < |results| && holds(results[i])
  }

  lemma OneMorePlace(results: seq<Entry>, holds: Entry -> bool)
    requires results != []
    ensures var n := |results| - 1;
            |Places(results, holds)| == |Places(results[..n], holds)| + if holds(results[n]) then 1 else 0
  {
    var n := |results| - 1;
    assert Places(results, holds) == Places(results[..n], holds) + if holds(results[n]) then {n} else {};
  }

  lemma {:induction false} CountsArePlaces(results: seq<Entry>)
    ensures DoneCount(results) == |Places(results, Finished)| && FailedCount(results) == |Places(results, FailedEntry)|
    decreases |results|
  {
    if results == [] {
      assert Places(results, Finished) == {} && Places(results, FailedEntry) == {};
    } else {
      CountsArePlaces(results[..|results| - 1]);
      OneMorePlace(results, Finished);
      OneMorePlace(results, FailedEntry);
    }
  }

  /** The progress of a rollout counts its finished and its failed entries. */
  lemma ProgressCounts(r: Rollout)
    ensures var p := ProgressOf(r);
            && p.status == r.status && p.plan == r.plan && p.results == r.results && p.resultCount == |r.results|
            && p.terminalCount == |Places(r.results, Finished)| && p.failureCount == |Places(r.results, FailedEntry)|
  {
    CountsArePlaces(r.results);
  }

  /**
   * Under a live lease saving writes the results that were read, with every
   * entry of the queued device QUEUED at its generation, and touches nothing else.
   */
  lemma SavingRecords(e: Env, w: World, k: WorkerState, duration: int)
    requires HoldsLease(w, k.lease) && k.stage.Saving?
    ensures var (w', next) := WorkerStep(e, w, k, duration);
            var read, i := k.stage.p.results, k.lease.rolloutId;
            && next == Some(WorkerState(k.lease, Deciding(k.stage.p)))
            && |w'.rollouts| == |w.rollouts| && w'.devices == w.devices
            && (forall j | 0 <= j < |w.rollouts| && j != i :: w'.rollouts[j] == w.rollouts[j])
            && w'.rollouts[i] == w.rollouts[i].(results := w'.rollouts[i].results, updatedAt := w.now)
            && |w'.rollouts[i].results| == |read|
            && forall j | 0 <= j < |read| ::
                 w'.rollouts[i].results[j] ==
                 if read[j].deviceId == Some(k.stage.x) then read[j].(status := EntryQueued, generation := Some(k.stage.generation)) else read[j]
  {
  }
}
