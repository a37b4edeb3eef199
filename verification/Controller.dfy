/**
 * The controller's tables and every exported call on them as one atomic step.
 * Rollout rows are never deleted, so a rollout id is its row number; tokens
 * come from a counter and are therefore fresh.
 */
module Controller {
  import opened Common
  import opened ChangeSets
  import opened DeviceSlot

  datatype EntryStatus = Waiting | EntryQueued | Success | EntryFailed | Skipped | EntryRejected | OtherEntry(text: string)

  /** One object of a rollout's `results` array; absent keys are None. */
  datatype Entry = Entry(
    deviceId: Option<string>, status: EntryStatus, csId: Option<string>, csState: Option<AgentState>,
    planHash: Option<string>, generation: Option<int>, error: Option<string>)

  datatype PlanDevice = PlanDevice(id: string, role: string, commands: seq<Command>, observed: map<string, string>)

  /** The immutable plan; `namespaces` is the comma separated list, split and trimmed. */
  datatype Plan = Plan(namespaces: seq<string>, healthChecks: seq<string>, devices: seq<PlanDevice>)

  datatype RolloutStatus = Draft | Running | Queued | Stale | DraftRejected | Completed | Failed | Finished(text: string)

  datatype Rollout = Rollout(
    site: string, sequence: int, status: RolloutStatus, claimToken: Option<nat>,
    workerToken: Option<nat>, leaseUntil: Option<int>, cursor: int,
    plan: Plan, results: seq<Entry>, updatedAt: int)

  datatype World = World(now: int, nextToken: nat, devices: map<string, Device>, rollouts: seq<Rollout>)

  datatype Lease = Lease(rolloutId: nat, site: string, token: nat, cursor: int)

  datatype QueueItem = QueueItem(role: string, cs: ChangeSet)

  datatype DraftError = NotAvailable | NoItems | ItemRefused(cause: QueueError) | ResultsMismatch

  datatype LeaseError = LeaseUnavailable | BadDuration | LeaseLost

  /** Microseconds. */
  const TWENTY_MINUTES: int := 1_200_000_000

  // ---- Fences ----------------------------------------------------------------

  predicate FreshRunning(w: World, r: Rollout, site: string) {
    r.site == site && r.status.Running? && r.updatedAt >= w.now - TWENTY_MINUTES
  }

  /** Some rollout of the site, other than the excepted one, is RUNNING and recently updated. */
  predicate SiteFenced(w: World, site: string, except: Option<nat>) {
    exists i | 0 <= i < |w.rollouts| :: FreshRunning(w, w.rollouts[i], site) && except != Some(i)
  }

  predicate RowFenced(w: World, d: Device, except: Option<nat>) {
    d.site.Some? && SiteFenced(w, d.site.value, except)
  }

  predicate Live(w: World, r: Rollout) {
    r.status.Running? && r.leaseUntil.Some? && r.leaseUntil.value >= w.now
  }

  // ---- Device calls ------------------------------------------------------------

  function OwnerFor(w: World, d: Device, site: string, role: string, rolloutId: nat): Owner {
    OwnedBy(site, role, rolloutId < |w.rollouts| && Some(w.rollouts[rolloutId].site) == d.site && w.rollouts[rolloutId].status.Running?)
  }

  function MissingRow(e: Env, deviceId: string, cs: ChangeSet): QueueError {
    if !Acceptable(e, cs) then BadDocument
    else if !EqualFold(cs.deviceId, deviceId) then OtherDevice
    else DeviceNotFound
  }

  function QueueDirect(e: Env, w: World, deviceId: string, cs: ChangeSet): (World, Outcome<int, QueueError>) {
    if deviceId !in w.devices then (w, Err(MissingRow(e, deviceId, cs))) else
      var d := w.devices[deviceId];
      var (d', answer) := QueueChangeSet(e, deviceId, d, cs, NoOwner, RowFenced(w, d, None));
      (w.(devices := w.devices[deviceId := d']), answer)
  }

  function QueueFor(e: Env, w: World, site: string, role: string, deviceId: string, cs: ChangeSet, rolloutId: nat): (World, Outcome<int, QueueError>) {
    if deviceId !in w.devices then (w, Err(MissingRow(e, deviceId, cs))) else
      var d := w.devices[deviceId];
      var (d', answer) := QueueChangeSet(e, deviceId, d, cs, OwnerFor(w, d, site, role, rolloutId), RowFenced(w, d, Some(rolloutId)));
      (w.(devices := w.devices[deviceId := d']), answer)
  }

  function QueueOp(w: World, deviceId: string, op: DeviceOperation): (World, Outcome<int, QueueError>) {
    if deviceId !in w.devices then (w, Err(if OperationParses(op) then DeviceNotFound else BadDocument)) else
      var d := w.devices[deviceId];
      var (d', answer) := QueueOperation(d, op, RowFenced(w, d, None));
      (w.(devices := w.devices[deviceId := d']), answer)
  }

  function RecordOp(w: World, deviceId: string, r: OperationReport): (World, bool) {
    if deviceId !in w.devices then (w, false) else
      var (d', applied) := RecordOperation(w.devices[deviceId], r);
      (w.(devices := w.devices[deviceId := d']), applied)
  }

  // ---- Terminal reports and rollout results -----------------------------------------

  predicate Mentions(en: Entry, deviceId: string, csId: string) {
    en.deviceId == Some(deviceId) && en.csId == Some(csId)
  }

  /** SQL: NOT (device matches AND changeset matches) is true, an unknown does not count. */
  predicate Elsewhere(en: Entry, deviceId: string, csId: string) {
    || (en.deviceId.Some? && en.deviceId.value != deviceId)
    || (en.csId.Some? && en.csId.value != csId)
  }

  predicate EntryTerminal(en: Entry) { en.csState.Some? && Terminal(en.csState.value) }

  predicate EntryCommitted(en: Entry) { en.csState == Some(Committed) }

  function StatusAfterReport(results: seq<Entry>, deviceId: string, s: Status): RolloutStatus {
    if exists i | 0 <= i < |results| :: Elsewhere(results[i], deviceId, s.id) && !EntryTerminal(results[i]) then Queued
    else if exists i | 0 <= i < |results| :: Elsewhere(results[i], deviceId, s.id) && !EntryCommitted(results[i]) then Failed
    else if s.state.Committed? then Completed
    else Failed
  }

  function MarkEntry(en: Entry, deviceId: string, s: Status): Entry {
    if !Mentions(en, deviceId, s.id) then en
    else en.(status := if s.state.Committed? then Success else EntryFailed,
             csState := Some(s.state), planHash := Some(s.planHash), generation := Some(s.generation),
             error := if s.failure != "" then Some(s.failure) else en.error)
  }

  function MarkEntries(results: seq<Entry>, deviceId: string, s: Status): seq<Entry> {
    seq(|results|, i requires 0 <= i < |results| => MarkEntry(results[i], deviceId, s))
  }

  predicate AwaitsReport(r: Rollout, site: Option<string>, deviceId: string, csId: string) {
    && r.status.Queued? && Some(r.site) == site
    && exists i | 0 <= i < |r.results| :: Mentions(r.results[i], deviceId, csId)
  }

  function AbsorbReport(r: Rollout, now: int, site: Option<string>, deviceId: string, s: Status): Rollout {
    if AwaitsReport(r, site, deviceId, s.id)
    then r.(status := StatusAfterReport(r.results, deviceId, s), results := MarkEntries(r.results, deviceId, s), updatedAt := now)
    else r
  }

  /** `RecordDeviceChangeSetStatus`: the row, then every QUEUED rollout that awaits this report. */
  function RecordReport(w: World, deviceId: string, r: Report): (World, bool) {
    if deviceId !in w.devices then (w, false) else
      var d := w.devices[deviceId];
      var (d', stored) := RecordStatus(deviceId, d, r);
      var devices := w.devices[deviceId := d'];
      if stored.Some? && Terminal(stored.value.state) then
        (w.(devices := devices,
            rollouts := seq(|w.rollouts|, i requires 0 <= i < |w.rollouts| => AbsorbReport(w.rollouts[i], w.now, d.site, deviceId, stored.value))), true)
      else (w.(devices := devices), stored.Some?)
  }

  // ---- Drafts ---------------------------------------------------------------------------

  /** COALESCE(MAX(generation), 0) over the rollouts of a site; generations start at 1. */
  function MaxSequence(rollouts: seq<Rollout>, site: string): int {
    if rollouts == [] then 0 else
      var last := rollouts[|rollouts| - 1];
      var rest := MaxSequence(rollouts[..|rollouts| - 1], site);
      if last.site == site then Max(rest, last.sequence) else rest
  }

  function StaleIf(r: Rollout, condition: bool, now: int): Rollout {
    if condition then r.(status := Stale, claimToken := None, updatedAt := now) else r
  }

  function CreateDraft(w: World, site: string, plan: Plan): World {
    var sequence := MaxSequence(w.rollouts, site) + 1;
    var closed := seq(|w.rollouts|, i requires 0 <= i < |w.rollouts| =>
                        StaleIf(w.rollouts[i], w.rollouts[i].site == site && w.rollouts[i].status.Draft? && w.rollouts[i].sequence < sequence, w.now));
    w.(rollouts := closed + [Rollout(site, sequence, Draft, None, None, None, 0, plan, [], w.now)])
  }

  predicate NewerDraft(w: World, site: string, sequence: int) {
    exists i | 0 <= i < |w.rollouts| :: w.rollouts[i].site == site && w.rollouts[i].status.Draft? && w.rollouts[i].sequence > sequence
  }

  predicate Claimable(w: World, site: string, id: nat) {
    && id < |w.rollouts| && w.rollouts[id].site == site && w.rollouts[id].status.Draft?
    && !NewerDraft(w, site, w.rollouts[id].sequence)
    && !SiteFenced(w, site, None)
  }

  predicate Expired(w: World, r: Rollout, site: string) {
    r.site == site && r.status.Running? && r.updatedAt < w.now - TWENTY_MINUTES
  }

  function AfterClaim(w: World, site: string, id: nat, i: nat): Rollout
    requires i < |w.rollouts|
  {
    var r := w.rollouts[i];
    if i == id then r.(status := Running, claimToken := Some(w.nextToken), updatedAt := w.now)
    else StaleIf(r, Expired(w, r, site) || (r.site == site && r.status.Draft? && NewerDraft(w, site, r.sequence)), w.now)
  }

  function CloseRunningFlag(d: Device, site: string, condition: bool): Device {
    if condition && d.site == Some(site) && d.flag.FlagRunning? then d.(flag := FlagFailed) else d
  }

  function CloseRunningFlags(w: World, site: string, condition: bool): map<string, Device> {
    map x | x in w.devices :: CloseRunningFlag(w.devices[x], site, condition)
  }

  predicate AnyExpired(w: World, site: string) {
    exists i | 0 <= i < |w.rollouts| :: Expired(w, w.rollouts[i], site)
  }

  /** `claimRolloutDraftTx`: every subquery reads the state before the statement. */
  function Claimed(w: World, site: string, id: nat): World
    requires Claimable(w, site, id)
  {
    w.(nextToken := w.nextToken + 1,
       devices := CloseRunningFlags(w, site, AnyExpired(w, site)),
       rollouts := seq(|w.rollouts|, i requires 0 <= i < |w.rollouts| => AfterClaim(w, site, id, i)))
  }

  /** `ClaimRolloutDraft`: a refused claim rolls the whole transaction back. */
  function ClaimDraft(w: World, site: string, id: nat): (World, Outcome<nat, DraftError>) {
    if Claimable(w, site, id) then (Claimed(w, site, id), Ok(w.nextToken)) else (w, Err(NotAvailable))
  }

  predicate HoldsClaim(w: World, site: string, id: nat, token: nat) {
    && id < |w.rollouts| && w.rollouts[id].site == site
    && w.rollouts[id].status.Running? && w.rollouts[id].claimToken == Some(token)
  }

  function ReleaseDraft(w: World, site: string, id: nat, token: nat): (World, bool) {
    if HoldsClaim(w, site, id, token)
    then (w.(rollouts := w.rollouts[id := w.rollouts[id].(status := Draft, claimToken := None, updatedAt := w.now)]), true)
    else (w, false)
  }

  function RejectedEntry(reason: string): Entry {
    Entry(None, EntryRejected, None, None, None, None, Some(reason))
  }

  function RejectDraft(w: World, site: string, id: nat, reason: string): (World, bool) {
    if id < |w.rollouts| && w.rollouts[id].site == site && w.rollouts[id].status.Draft?
    then (w.(rollouts := w.rollouts[id := w.rollouts[id].(status := DraftRejected, results := [RejectedEntry(reason)], updatedAt := w.now)]), true)
    else (w, false)
  }

  function MarkStale(w: World, site: string, id: nat, token: nat): (World, bool) {
    if id < |w.rollouts| && w.rollouts[id].site == site && (w.rollouts[id].status.Draft? || HoldsClaim(w, site, id, token))
    then (w.(rollouts := w.rollouts[id := StaleIf(w.rollouts[id], true, w.now)],
             devices := CloseRunningFlags(w, site, w.rollouts[id].status.Running?)), true)
    else (w, false)
  }

  /** The direct SSH path closes the rollout it claimed with its final status and results. */
  function FinishClaimed(w: World, id: nat, token: nat, status: RolloutStatus, results: seq<Entry>): (World, bool) {
    if id < |w.rollouts| && HoldsClaim(w, w.rollouts[id].site, id, token) && !status.Draft? && !status.Running? && !status.Queued?
    then (w.(rollouts := w.rollouts[id := w.rollouts[id].(status := status, results := results, claimToken := None, updatedAt := w.now)]), true)
    else (w, false)
  }

  // ---- Claim and queue ---------------------------------------------------------------------

  /** The loop over the items, on the transaction's working copy. */
  function QueueItems(e: Env, w: World, site: string, id: nat, items: seq<QueueItem>, generations: map<string, int>): Outcome<(World, map<string, int>), QueueError>
    decreases items
  {
    if items == [] then Ok((w, generations)) else
      var cs := items[0].cs;
      var (w', answer) := QueueFor(e, w, site, items[0].role, cs.deviceId, cs, id);
      if answer.Err? then Err(answer.error)
      else QueueItems(e, w', site, id, items[1..], generations[cs.deviceId := answer.value])
  }

  /** When `addDeviceGenerations` accepts the prepared results. */
  predicate ResultsFit(results: seq<Entry>, generations: map<string, int>) {
    && (forall i | 0 <= i < |results| ::
          && results[i].deviceId.Some?
          && (results[i].deviceId.value !in generations ==> results[i].status.Waiting?))
    && (forall i, j | 0 <= i < j < |results| ::
          results[i].deviceId.Some? && results[i].deviceId.value in generations ==> results[i].deviceId != results[j].deviceId)
    && (forall x | x in generations :: exists i | 0 <= i < |results| :: results[i].deviceId == Some(x))
  }

  function WithGeneration(en: Entry, generations: map<string, int>): Entry {
    if en.deviceId.Some? && en.deviceId.value in generations then en.(generation := Some(generations[en.deviceId.value])) else en
  }

  function WithGenerations(results: seq<Entry>, generations: map<string, int>): seq<Entry> {
    seq(|results|, i requires 0 <= i < |results| => WithGeneration(results[i], generations))
  }

  function ClaimAndQueue(e: Env, w: World, site: string, id: nat, items: seq<QueueItem>, results: seq<Entry>): (World, Outcome<map<string, int>, DraftError>) {
    if items == [] then (w, Err(NoItems))
    else if !Claimable(w, site, id) then (w, Err(NotAvailable))
    else
      var queued := QueueItems(e, Claimed(w, site, id), site, id, items, map[]);
      if queued.Err? then (w, Err(ItemRefused(queued.error)))
      else if !ResultsFit(results, queued.value.1) then (w, Err(ResultsMismatch))
      else
        var w' := queued.value.0;
        if !HoldsClaim(w', site, id, w.nextToken) then (w, Err(NotAvailable))
        else
          (w'.(rollouts := w'.rollouts[id := w'.rollouts[id].(
                 status := Queued, results := WithGenerations(results, queued.value.1), claimToken := None, updatedAt := w'.now)]),
           Ok(queued.value.1))
  }

  // ---- Worker leases --------------------------------------------------------------------------

  predicate Candidate(w: World, id: nat) {
    && id < |w.rollouts|
    && (w.rollouts[id].status.Queued? ||
        (w.rollouts[id].status.Running? && w.rollouts[id].leaseUntil.Some? && w.rollouts[id].leaseUntil.value < w.now))
    && !(exists i | 0 <= i < |w.rollouts| :: w.rollouts[i].site == w.rollouts[id].site && Live(w, w.rollouts[i]))
  }

  /** ORDER BY generation LIMIT 1; equal generations of different sites may come in any order. */
  predicate FirstCandidate(w: World, id: nat) {
    && Candidate(w, id)
    && forall i | 0 <= i < |w.rollouts| :: Candidate(w, i) ==> w.rollouts[id].sequence <= w.rollouts[i].sequence
  }

  function ClaimLease(w: World, duration: int, id: nat): (World, Outcome<Lease, LeaseError>) {
    if duration <= 0 then (w, Err(BadDuration))
    else if !FirstCandidate(w, id) then (w, Err(LeaseUnavailable))
    else
      var r := w.rollouts[id];
      (w.(nextToken := w.nextToken + 1,
          rollouts := w.rollouts[id := r.(status := Running, workerToken := Some(w.nextToken), leaseUntil := Some(w.now + duration), updatedAt := w.now)]),
       Ok(Lease(id, r.site, w.nextToken, r.cursor)))
  }

  predicate HoldsLease(w: World, lease: Lease) {
    && lease.rolloutId < |w.rollouts|
    && w.rollouts[lease.rolloutId].site == lease.site
    && w.rollouts[lease.rolloutId].workerToken == Some(lease.token)
    && Live(w, w.rollouts[lease.rolloutId])
  }

  function RenewLease(w: World, lease: Lease, duration: int): (World, bool) {
    if HoldsLease(w, lease)
    then (w.(rollouts := w.rollouts[lease.rolloutId := w.rollouts[lease.rolloutId].(leaseUntil := Some(w.now + duration), updatedAt := w.now)]), true)
    else (w, false)
  }

  function UpdateCursor(w: World, lease: Lease, cursor: int): (World, bool) {
    if HoldsLease(w, lease)
    then (w.(rollouts := w.rollouts[lease.rolloutId := w.rollouts[lease.rolloutId].(cursor := Max(w.rollouts[lease.rolloutId].cursor, cursor), updatedAt := w.now)]), true)
    else (w, false)
  }

  function UpdateResults(w: World, lease: Lease, results: seq<Entry>): (World, bool) {
    if HoldsLease(w, lease)
    then (w.(rollouts := w.rollouts[lease.rolloutId := w.rollouts[lease.rolloutId].(results := results, updatedAt := w.now)]), true)
    else (w, false)
  }

  // ---- Runs -------------------------------------------------------------------------------------

  /** Calls that touch one device row only. */
  datatype DeviceCall =
    | AddDevice(site: Option<string>, role: Option<string>, capable: bool)
    | EditDevice(site: Option<string>, role: Option<string>, capable: bool)
    | FlagDevice(flag: RolloutFlag)
    | CallQueueOp(op: DeviceOperation)
    | CallRecordOp(opReport: OperationReport)
    | CallQueue(cs: ChangeSet)
    | CallQueueFor(ownerSite: string, ownerRole: string, ownedCs: ChangeSet, rolloutId: nat)

  datatype DraftCall =
    | CallCreateDraft(site: string, plan: Plan)
    | CallClaimDraft(site: string, id: nat)
    | CallReleaseDraft(site: string, id: nat, token: nat)
    | CallRejectDraft(site: string, id: nat, reason: string)
    | CallMarkStale(site: string, id: nat, token: nat)
    | CallFinish(id: nat, token: nat, status: RolloutStatus, results: seq<Entry>)

  datatype LeaseCall =
    | CallClaimLease(duration: int, id: nat)
    | CallRenew(lease: Lease, duration: int)
    | CallCursor(lease: Lease, cursor: int)
    | CallResults(lease: Lease, results: seq<Entry>)

  /** Everything that can happen: the exported calls, the clock, and edits of a device's own attributes. */
  datatype Call =
    | Tick(delta: nat)
    | OnDevice(x: string, deviceCall: DeviceCall)
    | OnReport(x: string, report: Report)
    | OnDraft(draftCall: DraftCall)
    | OnLease(leaseCall: LeaseCall)
    | CallClaimAndQueue(site: string, id: nat, items: seq<QueueItem>, results: seq<Entry>)

  function NewDevice(site: Option<string>, role: Option<string>, capable: bool): Device {
    Device(site, role, capable, 0, 0, 0, None, None, None, None, NoFlag)
  }

  function StepDevice(e: Env, w: World, x: string, c: DeviceCall): World {
    match c
    case AddDevice(site, role, capable) =>
      if x in w.devices then w else w.(devices := w.devices[x := NewDevice(site, role, capable)])
    case EditDevice(site, role, capable) =>
      if x !in w.devices then w else w.(devices := w.devices[x := w.devices[x].(site := site, role := role, capable := capable)])
    case FlagDevice(flag) =>
      if x !in w.devices then w else w.(devices := w.devices[x := w.devices[x].(flag := flag)])
    case CallQueueOp(op) => QueueOp(w, x, op).0
    case CallRecordOp(report) => RecordOp(w, x, report).0
    case CallQueue(cs) => QueueDirect(e, w, x, cs).0
    case CallQueueFor(site, role, cs, id) => QueueFor(e, w, site, role, x, cs, id).0
  }

  function StepDraft(w: World, c: DraftCall): World {
    match c
    case CallCreateDraft(site, plan) => CreateDraft(w, site, plan)
    case CallClaimDraft(site, id) => ClaimDraft(w, site, id).0
    case CallReleaseDraft(site, id, token) => ReleaseDraft(w, site, id, token).0
    case CallRejectDraft(site, id, reason) => RejectDraft(w, site, id, reason).0
    case CallMarkStale(site, id, token) => MarkStale(w, site, id, token).0
    case CallFinish(id, token, status, results) => FinishClaimed(w, id, token, status, results).0
  }

  function StepLease(w: World, c: LeaseCall): World {
    match c
    case CallClaimLease(duration, id) => ClaimLease(w, duration, id).0
    case CallRenew(lease, duration) => RenewLease(w, lease, duration).0
    case CallCursor(lease, cursor) => UpdateCursor(w, lease, cursor).0
    case CallResults(lease, results) => UpdateResults(w, lease, results).0
  }

  function Step(e: Env, w: World, c: Call): World {
    match c
    case Tick(delta) => w.(now := w.now + delta)
    case OnDevice(x, call) => StepDevice(e, w, x, call)
    case OnReport(x, report) => RecordReport(w, x, report).0
    case OnDraft(call) => StepDraft(w, call)
    case OnLease(call) => StepLease(w, call)
    case CallClaimAndQueue(site, id, items, results) => ClaimAndQueue(e, w, site, id, items, results).0
  }

  function Run(e: Env, w: World, calls: seq<Call>): World
    decreases calls
  {
    if calls == [] then w else Run(e, Step(e, w, calls[0]), calls[1..])
  }

  const EMPTY := World(0, 0, map[], [])
}
