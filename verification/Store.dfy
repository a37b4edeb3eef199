/**
 * The controller's tables as one object: each exported call is a method that
 * updates rows in place and is proved equal to its step of the transition system.
 */
module Store {
  import opened Common
  import opened ChangeSets
  import opened DeviceSlot
  import opened Controller
  import Leases

  class ControllerStore {
    var now: int
    var nextToken: nat
    var devices: map<string, Device>
    var rollouts: seq<Rollout>

    function Tables(): World
      reads this
    {
      World(now, nextToken, devices, rollouts)
    }

    constructor ()
      ensures Tables() == EMPTY
    {
      now, nextToken, devices, rollouts := 0, 0, map[], [];
    }

    /** The private copy of a transaction. */
    constructor Begin(w: World)
      ensures Tables() == w
    {
      now, nextToken, devices, rollouts := w.now, w.nextToken, w.devices, w.rollouts;
    }

    // ---- Device rows -------------------------------------------------------------

    /** `queueDeviceChangeSet`: the guarded update, then the idempotent answers for a retry. */
    method EnqueueChangeSet(e: Env, site: string, role: string, deviceId: string, cs: ChangeSet, rollout: Option<nat>)
      returns (answer: Outcome<int, QueueError>)
      modifies this`devices
      ensures rollout.None? ==> (Tables(), answer) == QueueDirect(e, old(Tables()), deviceId, cs)
      ensures rollout.Some? ==> (Tables(), answer) == QueueFor(e, old(Tables()), site, role, deviceId, cs, rollout.value)
    {
      var parsed := ParseChangeSet(e, cs);
      if parsed.Err? {
        NoRowChanges(e, Tables(), site, role, deviceId, cs, rollout);
        return Err(BadDocument);
      }
      var identity := parsed.value;
      if !EqualFold(identity.deviceId, deviceId) {
        NoRowChanges(e, Tables(), site, role, deviceId, cs, rollout);
        return Err(OtherDevice);
      }
      if deviceId !in devices {
        return Err(DeviceNotFound);
      }
      var d := devices[deviceId];
      var owned := rollout.None? ||
        (&& d.site == Some(site) && RoleOf(d) == role
         && rollout.value < |rollouts| && Some(rollouts[rollout.value].site) == d.site && rollouts[rollout.value].status.Running?);
      if && owned && d.capable && d.pendingOp.None? && d.pendingCs.None? && !NeedsRecoveryOp(d) && !NeedsRecoveryCs(d)
         && (d.lastCs.None? || d.lastCs.value.id != identity.id) && !d.flag.FlagRunning? && !RowFenced(Tables(), d, rollout)
         && (identity.generation == 0 || d.desired == identity.generation) {
        var generation := if identity.generation > 0 then d.desired else d.desired + 1;
        d := d.(pendingCs := Some(cs.(generation := Some(generation))), desired := generation, flag := FlagQueued);
        devices := devices[deviceId := d];
        return Ok(d.desired);
      }
      assert devices[deviceId := d] == devices;
      answer := ExplainRefusedChangeSet(e, d, cs, if rollout.None? then NoOwner else OwnerFor(Tables(), d, site, role, rollout.value));
    }

    method QueueDeviceChangeSet(e: Env, deviceId: string, cs: ChangeSet) returns (answer: Outcome<int, QueueError>)
      modifies this`devices
      ensures (Tables(), answer) == QueueDirect(e, old(Tables()), deviceId, cs)
      ensures Tables() == Step(e, old(Tables()), OnDevice(deviceId, CallQueue(cs)))
    {
      answer := EnqueueChangeSet(e, "", "", deviceId, cs, None);
    }

    method QueueDeviceChangeSetForRollout(e: Env, site: string, role: string, deviceId: string, cs: ChangeSet, rolloutId: nat)
      returns (answer: Outcome<int, QueueError>)
      modifies this`devices
      ensures (Tables(), answer) == QueueFor(e, old(Tables()), site, role, deviceId, cs, rolloutId)
      ensures Tables() == Step(e, old(Tables()), OnDevice(deviceId, CallQueueFor(site, role, cs, rolloutId)))
    {
      answer := EnqueueChangeSet(e, site, role, deviceId, cs, Some(rolloutId));
    }

    method QueueDeviceOperation(e: Env, deviceId: string, op: DeviceOperation) returns (answer: Outcome<int, QueueError>)
      modifies this`devices
      ensures (Tables(), answer) == QueueOp(old(Tables()), deviceId, op)
      ensures Tables() == Step(e, old(Tables()), OnDevice(deviceId, CallQueueOp(op)))
    {
      if !OperationParses(op) {
        if deviceId in devices {
          assert devices[deviceId := devices[deviceId]] == devices;
        }
        return Err(BadDocument);
      }
      if deviceId !in devices {
        return Err(DeviceNotFound);
      }
      var d, requested := devices[deviceId], OperationGeneration(op);
      if && !d.flag.FlagRunning? && d.pendingOp.None? && d.pendingCs.None? && !NeedsRecoveryOp(d) && !NeedsRecoveryCs(d)
         && !RowFenced(Tables(), d, None) && (d.lastOp.None? || d.lastOp.value.id != op.id)
         && (requested == 0 || d.desired == requested) {
        if requested == 0 {
          d := d.(desired := d.desired + 1);
        }
        d := d.(pendingOp := Some(op.(generation := Some(d.desired))), lastOp := None, flag := FlagQueued);
        devices := devices[deviceId := d];
        return Ok(d.desired);
      }
      assert devices[deviceId := d] == devices;
      answer := ExplainRefusedOperation(d, op);
    }

    method RecordDeviceOperationStatus(e: Env, deviceId: string, report: OperationReport) returns (applied: bool)
      modifies this`devices
      ensures (Tables(), applied) == RecordOp(old(Tables()), deviceId, report)
      ensures Tables() == Step(e, old(Tables()), OnDevice(deviceId, CallRecordOp(report)))
    {
      if deviceId !in devices {
        return false;
      }
      var d, parsed := devices[deviceId], ParseOperationReport(report);
      assert devices[deviceId := d] == devices;
      if parsed.None? || !(OperationMatchesPending(d, parsed.value) || OperationMatchesLast(d, parsed.value)) {
        return false;
      }
      var s := parsed.value;
      var generation := OperationStatusGeneration(s);
      var finished := OperationTerminal(s.state) && OperationMatchesPending(d, s);
      d := d.(lastOp := Some(s));
      if finished {
        d := d.(pendingOp := None);
      }
      if !d.flag.FlagRunning? {
        d := d.(flag := FlagState(s.state));
      }
      if s.state.Committed? && generation > 0 {
        d := d.(observed := Max(d.observed, generation), lastSuccessful := Max(d.lastSuccessful, generation));
      }
      devices := devices[deviceId := d];
      return true;
    }

    /** `RecordDeviceChangeSetStatus`: the device row, then the rollouts that await a terminal report. */
    method RecordDeviceChangeSetStatus(e: Env, deviceId: string, report: Report) returns (applied: bool)
      modifies this`devices, this`rollouts
      ensures (Tables(), applied) == RecordReport(old(Tables()), deviceId, report)
      ensures Tables() == Step(e, old(Tables()), OnReport(deviceId, report))
    {
      if deviceId !in devices {
        return false;
      }
      var d, parsed := devices[deviceId], ParseReport(report);
      assert devices[deviceId := d] == devices;
      if parsed.None? || !EqualFold(report.deviceId, deviceId) {
        return false;
      }
      var s := parsed.value;
      var pendingMatch, lastMatch := MatchesPending(deviceId, d, s), MatchesLast(deviceId, d, s);
      if !pendingMatch && !lastMatch {
        return false;
      }
      var site := d.site;
      d := d.(lastCs := Some(s));
      if Terminal(s.state) && pendingMatch {
        d := d.(pendingCs := None);
      }
      if !d.flag.FlagRunning? {
        d := d.(flag := FlagState(s.state));
      }
      if s.state.Committed? {
        d := d.(observed := Max(d.observed, s.generation), lastSuccessful := Max(d.lastSuccessful, s.generation));
      }
      assert d == StoreStatus(deviceId, devices[deviceId], s);
      devices := devices[deviceId := d];
      if Terminal(s.state) {
        var rows, at := rollouts, now;
        rollouts := seq(|rows|, i requires 0 <= i < |rows| => AbsorbReport(rows[i], at, site, deviceId, s));
        assert rollouts == RecordReport(old(Tables()), deviceId, report).0.rollouts;
      }
      return true;
    }

    // ---- Drafts --------------------------------------------------------------------

    method CreateRolloutDraft(e: Env, site: string, plan: Plan) returns (id: nat)
      modifies this`rollouts
      ensures Tables() == Step(e, old(Tables()), OnDraft(CallCreateDraft(site, plan)))
      ensures id == |old(rollouts)| < |rollouts| && rollouts[id].status.Draft?
      ensures forall i | 0 <= i < id :: rollouts[i].site == site ==> !rollouts[i].status.Draft? && rollouts[i].sequence < rollouts[id].sequence
    {
      var sequence := MaxSequence(rollouts, site) + 1;
      var rows, at := rollouts, now;
      rollouts := seq(|rows|, i requires 0 <= i < |rows| =>
                        StaleIf(rows[i], rows[i].site == site && rows[i].status.Draft? && rows[i].sequence < sequence, at));
      rollouts := rollouts + [Rollout(site, sequence, Draft, None, None, None, 0, plan, [], now)];
      forall i | 0 <= i < |rows| && rows[i].site == site ensures rows[i].sequence < sequence {
        Leases.MaxSequenceBounds(rows, site, i);
      }
      return |rows|;
    }

    /** `claimRolloutDraftTx`; every subquery sees the rows as they were before the statement. */
    method ClaimInTransaction(site: string, id: nat) returns (token: Option<nat>)
      modifies this`devices, this`rollouts, this`nextToken
      ensures token == if Claimable(old(Tables()), site, id) then Some(old(nextToken)) else None
      ensures Tables() == if Claimable(old(Tables()), site, id) then Claimed(old(Tables()), site, id) else old(Tables())
    {
      var before := Tables();
      if id >= |rollouts| || rollouts[id].site != site || !rollouts[id].status.Draft? {
        return None;
      }
      if NewerDraft(before, site, rollouts[id].sequence) || SiteFenced(before, site, None) {
        return None;
      }
      devices := CloseRunningFlags(before, site, AnyExpired(before, site));
      rollouts := seq(|before.rollouts|, i requires 0 <= i < |before.rollouts| =>
                        StaleIf(before.rollouts[i],
                                Expired(before, before.rollouts[i], site) ||
                                (before.rollouts[i].site == site && before.rollouts[i].status.Draft? && NewerDraft(before, site, before.rollouts[i].sequence)),
                                before.now));
      rollouts := rollouts[id := before.rollouts[id].(status := Running, claimToken := Some(nextToken), updatedAt := now)];
      token := Some(nextToken);
      nextToken := nextToken + 1;
      assert rollouts == Claimed(before, site, id).rollouts;
    }

    method ClaimRolloutDraft(e: Env, site: string, id: nat) returns (answer: Outcome<nat, DraftError>)
      modifies this
      ensures (Tables(), answer) == ClaimDraft(old(Tables()), site, id)
      ensures Tables() == Step(e, old(Tables()), OnDraft(CallClaimDraft(site, id)))
    {
      var token := ClaimInTransaction(site, id);
      return if token.Some? then Ok(token.value) else Err(NotAvailable);
    }

    /**
     * `ClaimAndQueueDeviceChangeSets`: the claim and every item run on a copy of
     * the tables; only a complete success is committed.
     */
    method ClaimAndQueueDeviceChangeSets(e: Env, site: string, id: nat, items: seq<QueueItem>, results: seq<Entry>)
      returns (answer: Outcome<map<string, int>, DraftError>)
      modifies this
      ensures (Tables(), answer) == ClaimAndQueue(e, old(Tables()), site, id, items, results)
      ensures Tables() == Step(e, old(Tables()), CallClaimAndQueue(site, id, items, results))
      ensures answer.Err? ==> Tables() == old(Tables())
    {
      if |items| == 0 {
        return Err(NoItems);
      }
      var tx := new ControllerStore.Begin(Tables());
      var token := tx.ClaimInTransaction(site, id);
      if token.None? {
        return Err(NotAvailable);
      }
      var generations: map<string, int> := map[];
      for i := 0 to |items|
        invariant Tables() == old(Tables())
        invariant QueueItems(e, Claimed(Tables(), site, id), site, id, items, map[]) == QueueItems(e, tx.Tables(), site, id, items[i..], generations)
        modifies tx
      {
        var cs := items[i].cs;
        assert items[i..][0] == items[i] && items[i..][1..] == items[i + 1..];
        var queued := tx.QueueDeviceChangeSetForRollout(e, site, items[i].role, cs.deviceId, cs, id);
        if queued.Err? {
          return Err(ItemRefused(queued.error));
        }
        generations := generations[cs.deviceId := queued.value];
      }
      var updated := AddDeviceGenerations(results, generations);
      if updated.None? {
        return Err(ResultsMismatch);
      }
      if !HoldsClaim(tx.Tables(), site, id, token.value) {
        return Err(NotAvailable);
      }
      var queuedRow := tx.rollouts[id].(status := Queued, results := updated.value, claimToken := None, updatedAt := tx.now);
      now, nextToken, devices, rollouts := tx.now, tx.nextToken, tx.devices, tx.rollouts[id := queuedRow];
      return Ok(generations);
    }

    method RejectRolloutDraft(e: Env, site: string, id: nat, reason: string) returns (ok: bool)
      modifies this`rollouts
      ensures (Tables(), ok) == RejectDraft(old(Tables()), site, id, reason)
      ensures Tables() == Step(e, old(Tables()), OnDraft(CallRejectDraft(site, id, reason)))
    {
      if id >= |rollouts| || rollouts[id].site != site || !rollouts[id].status.Draft? {
        return false;
      }
      var entry := Entry(None, EntryRejected, None, None, None, None, Some(reason));
      rollouts := rollouts[id := rollouts[id].(status := DraftRejected, results := [entry], updatedAt := now)];
      return true;
    }

    method ReleaseRolloutDraft(e: Env, site: string, id: nat, token: nat) returns (ok: bool)
      modifies this`rollouts
      ensures (Tables(), ok) == ReleaseDraft(old(Tables()), site, id, token)
      ensures Tables() == Step(e, old(Tables()), OnDraft(CallReleaseDraft(site, id, token)))
    {
      if !HoldsClaim(Tables(), site, id, token) {
        return false;
      }
      rollouts := rollouts[id := rollouts[id].(status := Draft, claimToken := None, updatedAt := now)];
      return true;
    }

    method MarkRolloutDraftStale(e: Env, site: string, id: nat, token: nat) returns (ok: bool)
      modifies this`devices, this`rollouts
      ensures (Tables(), ok) == MarkStale(old(Tables()), site, id, token)
      ensures Tables() == Step(e, old(Tables()), OnDraft(CallMarkStale(site, id, token)))
    {
      if id >= |rollouts| || rollouts[id].site != site {
        return false;
      }
      var previous := rollouts[id].status;
      if !previous.Draft? && !(previous.Running? && rollouts[id].claimToken == Some(token)) {
        return false;
      }
      rollouts := rollouts[id := rollouts[id].(status := Stale, claimToken := None, updatedAt := now)];
      devices := CloseRunningFlags(Tables(), site, previous.Running?);
      return true;
    }

    // ---- Worker leases -------------------------------------------------------------------

    /** `ClaimQueuedRollout`: the ordered subquery picks a row, of equal sequences any. */
    method ClaimQueuedRollout(e: Env, duration: int) returns (answer: Outcome<Lease, LeaseError>)
      modifies this`rollouts, this`nextToken
      ensures answer.Ok? ==>
                && (Tables(), answer) == ClaimLease(old(Tables()), duration, answer.value.rolloutId)
                && Tables() == Step(e, old(Tables()), OnLease(CallClaimLease(duration, answer.value.rolloutId)))
      ensures answer.Err? ==> Tables() == old(Tables())
      ensures answer.Ok? <==> duration > 0 && exists i | 0 <= i < |old(rollouts)| :: Candidate(old(Tables()), i)
    {
      if duration <= 0 {
        return Err(BadDuration);
      }
      var before := Tables();
      if id :| 0 <= id < |rollouts| && FirstCandidate(before, id) {
        var token := nextToken;
        nextToken := nextToken + 1;
        rollouts := rollouts[id := rollouts[id].(status := Running, workerToken := Some(token), leaseUntil := Some(now + duration), updatedAt := now)];
        return Ok(Lease(id, rollouts[id].site, token, rollouts[id].cursor));
      }
      if i :| 0 <= i < |rollouts| && Candidate(before, i) {
        SomeCandidateIsFirst(before, i, |rollouts|);
      }
      return Err(LeaseUnavailable);
    }

    method RenewRolloutLease(e: Env, lease: Lease, duration: int) returns (ok: bool)
      modifies this`rollouts
      ensures (Tables(), ok) == RenewLease(old(Tables()), lease, duration)
      ensures Tables() == Step(e, old(Tables()), OnLease(CallRenew(lease, duration)))
    {
      if !HoldsLease(Tables(), lease) {
        return false;
      }
      var id := lease.rolloutId;
      rollouts := rollouts[id := rollouts[id].(leaseUntil := Some(now + duration), updatedAt := now)];
      return true;
    }

    method UpdateRolloutWorkerCursor(e: Env, lease: Lease, cursor: int) returns (ok: bool)
      modifies this`rollouts
      ensures (Tables(), ok) == UpdateCursor(old(Tables()), lease, cursor)
      ensures Tables() == Step(e, old(Tables()), OnLease(CallCursor(lease, cursor)))
    {
      if !HoldsLease(Tables(), lease) {
        return false;
      }
      var id := lease.rolloutId;
      rollouts := rollouts[id := rollouts[id].(cursor := Max(rollouts[id].cursor, cursor), updatedAt := now)];
      return true;
    }

    method UpdateRolloutWorkerResults(e: Env, lease: Lease, results: seq<Entry>) returns (ok: bool)
      modifies this`rollouts
      ensures (Tables(), ok) == UpdateResults(old(Tables()), lease, results)
      ensures Tables() == Step(e, old(Tables()), OnLease(CallResults(lease, results)))
    {
      if !HoldsLease(Tables(), lease) {
        return false;
      }
      var id := lease.rolloutId;
      rollouts := rollouts[id := rollouts[id].(results := results, updatedAt := now)];
      return true;
    }
  }

  lemma NoRowChanges(e: Env, w: World, site: string, role: string, x: string, cs: ChangeSet, rollout: Option<nat>)
    requires !Acceptable(e, cs) || !EqualFold(cs.deviceId, x)
    ensures QueueDirect(e, w, x, cs).0 == w
    ensures rollout.Some? ==> QueueFor(e, w, site, role, x, cs, rollout.value).0 == w
  {
    if x in w.devices {
      assert w.devices[x := w.devices[x]] == w.devices;
    }
  }

  /** Among any candidates one has the least sequence. */
  lemma {:induction false} SomeCandidateIsFirst(w: World, i: nat, bound: nat)
    requires Candidate(w, i) && bound <= |w.rollouts|
    requires forall j | bound <= j < |w.rollouts| && Candidate(w, j) :: w.rollouts[i].sequence <= w.rollouts[j].sequence
    ensures exists id | 0 <= id < |w.rollouts| :: FirstCandidate(w, id)
    decreases bound
  {
    if bound == 0 {
      assert FirstCandidate(w, i);
    } else if Candidate(w, bound - 1) && w.rollouts[bound - 1].sequence < w.rollouts[i].sequence {
      SomeCandidateIsFirst(w, bound - 1, bound - 1);
    } else {
      SomeCandidateIsFirst(w, i, bound - 1);
    }
  }
  /** The reads after an update that matched no row, in source order. */
  method ExplainRefusedChangeSet(e: Env, d: Device, cs: ChangeSet, owner: Owner) returns (answer: Outcome<int, QueueError>)
    ensures answer == ChangeSetFallback(e, d, cs, owner)
  {
    if d.site.None? {
      return Err(NoSite);
    }
    if owner.OwnedBy? {
      if d.site.value != owner.site {
        return Err(WrongSite);
      }
      if RoleOf(d) != owner.role {
        return Err(StaleRole);
      }
    }
    if !d.capable {
      return Err(NoCapability);
    }
    if NeedsRecoveryCs(d) {
      return Err(NeedsRecovery);
    }
    if d.pendingCs.Some? {
      var pending := ParseChangeSet(e, d.pendingCs.value);
      if pending.Err? || pending.value.id != cs.id {
        return Err(SlotTaken);
      }
      if pending.value.planHash != cs.planHash {
        return Err(IdReused);
      }
      if cs.generation.Some? && pending.value.generation != cs.generation.value {
        return Err(GenerationConflict);
      }
      return Ok(pending.value.generation);
    }
    if d.lastCs.Some? && StatusParses(d.lastCs.value) && d.lastCs.value.id == cs.id {
      var last := d.lastCs.value;
      if last.planHash != cs.planHash {
        return Err(IdReused);
      }
      if cs.generation.Some? && last.generation != cs.generation.value {
        return Err(GenerationConflict);
      }
      return Ok(last.generation);
    }
    if cs.generation.Some? && d.desired != cs.generation.value {
      return Err(GenerationConflict);
    }
    return Err(NotQueued);
  }

  method ExplainRefusedOperation(d: Device, op: DeviceOperation) returns (answer: Outcome<int, QueueError>)
    ensures answer == OperationFallback(d, op)
  {
    var requested := OperationGeneration(op);
    if NeedsRecoveryOp(d) {
      return Err(NeedsRecovery);
    }
    if d.pendingOp.Some? {
      var pending := d.pendingOp.value;
      if !OperationParses(pending) || pending.id != op.id {
        return Err(SlotTaken);
      }
      if pending.planHash != op.planHash {
        return Err(IdReused);
      }
      if requested > 0 && OperationGeneration(pending) != requested {
        return Err(GenerationConflict);
      }
      return Ok(OperationGeneration(pending));
    }
    if d.lastOp.Some? && OperationStatusParses(d.lastOp.value) && d.lastOp.value.id == op.id {
      var last := d.lastOp.value;
      if last.planHash != "" && last.planHash != op.planHash {
        return Err(IdReused);
      }
      if requested <= 0 {
        return Ok(OperationStatusGeneration(last));
      }
      if OperationStatusGeneration(last) > 0 && OperationStatusGeneration(last) != requested {
        return Err(GenerationConflict);
      }
      if d.desired != requested {
        return Err(GenerationConflict);
      }
      return Ok(requested);
    }
    if requested > 0 && d.desired != requested {
      return Err(GenerationConflict);
    }
    return Err(NotQueued);
  }

  /** `addDeviceGenerations`: one pass that writes generations and remembers the devices seen. */
  method AddDeviceGenerations(results: seq<Entry>, generations: map<string, int>) returns (updated: Option<seq<Entry>>)
    ensures updated == if ResultsFit(results, generations) then Some(WithGenerations(results, generations)) else None
  {
    var entries := results;
    var seen: map<string, bool> := map[];
    for i := 0 to |results|
      invariant |entries| == |results|
      invariant forall k | 0 <= k < i :: entries[k] == WithGeneration(results[k], generations)
      invariant forall k | i <= k < |results| :: entries[k] == results[k]
      invariant forall k | 0 <= k < i :: results[k].deviceId.Some? && (results[k].deviceId.value !in generations ==> results[k].status.Waiting?)
      invariant forall x :: x in seen <==> exists k | 0 <= k < i :: results[k].deviceId == Some(x)
      invariant forall k, l | 0 <= k < l < i :: results[k].deviceId.value in generations ==> results[k].deviceId != results[l].deviceId
    {
      if entries[i].deviceId.None? {
        return None;
      }
      var x := entries[i].deviceId.value;
      if x !in generations {
        if !entries[i].status.Waiting? {
          return None;
        }
        assert entries[i] == WithGeneration(results[i], generations);
      } else {
        if x in seen {
          return None;
        }
        entries := entries[i := entries[i].(generation := Some(generations[x]))];
      }
      seen := seen[x := true];
    }
    if exists x | x in generations :: x !in seen {
      return None;
    }
    assert entries == WithGenerations(results, generations);
    return Some(entries);
  }
}
