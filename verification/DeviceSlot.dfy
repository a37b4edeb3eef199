/**
 * One device row: the slot that holds at most one pending operation or
 * changeset, the last agent reports, and the three generation counters.
 * Every function is one guarded row update together with its fallback reads.
 */
module DeviceSlot {
  import opened Common
  import opened ChangeSets

  datatype AgentState =
    | Prepared | Applying | PendingConfirm | RollingBack
    | Committed | Restored | RecoveryRequired | Rejected

  /** An agent's changeset report; an unknown state text has no AgentState. */
  datatype Report = Report(
    id: string, deviceId: string, planHash: string, generation: Option<int>, state: Option<AgentState>, failure: string)

  /** A report that parsed: generation and state are present. */
  datatype Status = Status(id: string, deviceId: string, planHash: string, generation: int, state: AgentState, failure: string)

  datatype DeviceOperation = DeviceOperation(id: string, planHash: string, generation: Option<int>, body: string)

  /** An operation report; an absent plan hash is the empty string. */
  datatype OperationReport = OperationReport(id: string, planHash: string, generation: Option<int>, state: Option<AgentState>)

  datatype OperationStatus = OperationStatus(id: string, planHash: string, generation: Option<int>, state: AgentState)

  /** `last_rollout_status`: only RUNNING fences, the other texts are informative. */
  datatype RolloutFlag = NoFlag | FlagRunning | FlagQueued | FlagFailed | FlagState(state: AgentState) | FlagOther(text: string)

  datatype Device = Device(
    site: Option<string>, role: Option<string>, capable: bool,
    desired: int, observed: int, lastSuccessful: int,
    pendingOp: Option<DeviceOperation>, lastOp: Option<OperationStatus>,
    pendingCs: Option<ChangeSet>, lastCs: Option<Status>,
    flag: RolloutFlag)

  /** The rollout on whose behalf a changeset is queued; `running` is its EXISTS subquery. */
  datatype Owner = NoOwner | OwnedBy(site: string, role: string, running: bool)

  datatype QueueError =
    | BadDocument | OtherDevice | DeviceNotFound | NoSite | WrongSite | StaleRole | NoCapability
    | NeedsRecovery | IdReused | GenerationConflict | SlotTaken | NotQueued

  function RoleOf(d: Device): string {
    if d.role.Some? then d.role.value else "AP"
  }

  predicate Terminal(s: AgentState) {
    s.Committed? || s.Restored? || s.RecoveryRequired? || s.Rejected?
  }

  predicate OperationTerminal(s: AgentState) { s.Committed? || s.Restored? }

  predicate NeedsRecoveryCs(d: Device) { d.lastCs.Some? && d.lastCs.value.state.RecoveryRequired? }

  predicate NeedsRecoveryOp(d: Device) { d.lastOp.Some? && d.lastOp.value.state.RecoveryRequired? }

  function Max(a: int, b: int): int { if a >= b then a else b }

  // ---- Queueing a changeset ------------------------------------------------

  function Requested(cs: ChangeSet): int {
    if cs.generation.Some? then cs.generation.value else 0
  }

  predicate OwnerMatches(d: Device, owner: Owner) {
    match owner
    case NoOwner => true
    case OwnedBy(site, role, running) => d.site == Some(site) && running && RoleOf(d) == role
  }

  /** The WHERE clause of the guarded update; `fenced` is its rollout subquery. */
  predicate AdmitsChangeSet(d: Device, cs: ChangeSet, owner: Owner, fenced: bool) {
    && OwnerMatches(d, owner)
    && d.capable
    && d.pendingOp.None? && d.pendingCs.None?
    && !NeedsRecoveryOp(d) && !NeedsRecoveryCs(d)
    && (d.lastCs.Some? ==> d.lastCs.value.id != cs.id)
    && !d.flag.FlagRunning?
    && !fenced
    && (Requested(cs) == 0 || d.desired == Requested(cs))
  }

  function PlaceChangeSet(d: Device, cs: ChangeSet): Device {
    var generation := if Requested(cs) > 0 then d.desired else d.desired + 1;
    d.(pendingCs := Some(Bind(cs, generation)), desired := generation, flag := FlagQueued)
  }

  predicate StatusParses(s: Status) {
    ValidId(s.id) && ValidDeviceId(s.deviceId) && ValidHash(s.planHash) && s.generation > 0
  }

  /** What a caller is told when the guarded update matched no row. */
  function ChangeSetFallback(e: Env, d: Device, cs: ChangeSet, owner: Owner): Outcome<int, QueueError> {
    if d.site.None? then Err(NoSite)
    else if owner.OwnedBy? && d.site.value != owner.site then Err(WrongSite)
    else if owner.OwnedBy? && RoleOf(d) != owner.role then Err(StaleRole)
    else if !d.capable then Err(NoCapability)
    else if NeedsRecoveryCs(d) then Err(NeedsRecovery)
    else if d.pendingCs.Some? then
      var pending := d.pendingCs.value;
      if Acceptable(e, pending) && pending.id == cs.id then
        if pending.planHash != cs.planHash then Err(IdReused)
        else if cs.generation.Some? && Requested(pending) != Requested(cs) then Err(GenerationConflict)
        else Ok(Requested(pending))
      else Err(SlotTaken)
    else if d.lastCs.Some? && StatusParses(d.lastCs.value) && d.lastCs.value.id == cs.id then
      var last := d.lastCs.value;
      if last.planHash != cs.planHash then Err(IdReused)
      else if cs.generation.Some? && last.generation != Requested(cs) then Err(GenerationConflict)
      else Ok(last.generation)
    else if cs.generation.Some? && d.desired != Requested(cs) then Err(GenerationConflict)
    else Err(NotQueued)
  }

  /** `queueDeviceChangeSet` on the row of `rowId`: the row afterwards and the answer. */
  function QueueChangeSet(e: Env, rowId: string, d: Device, cs: ChangeSet, owner: Owner, fenced: bool): (Device, Outcome<int, QueueError>) {
    if !Acceptable(e, cs) then (d, Err(BadDocument))
    else if !EqualFold(cs.deviceId, rowId) then (d, Err(OtherDevice))
    else if AdmitsChangeSet(d, cs, owner, fenced) then
      var placed := PlaceChangeSet(d, cs);
      (placed, Ok(placed.desired))
    else (d, ChangeSetFallback(e, d, cs, owner))
  }

  // ---- Recording a changeset report -----------------------------------------

  function ParseReport(r: Report): Option<Status> {
    if ValidId(r.id) && ValidDeviceId(r.deviceId) && ValidHash(r.planHash) && r.state.Some? && r.generation.Some? && r.generation.value > 0
    then Some(Status(r.id, r.deviceId, r.planHash, r.generation.value, r.state.value, r.failure))
    else None
  }

  /** Which stored state a report may follow; `None` is the empty text. */
  predicate MayFollow(last: Option<AgentState>, s: AgentState) {
    match s
    case Prepared => last in {None, Some(Prepared)}
    case Applying => last in {Some(Prepared), Some(Applying)}
    case PendingConfirm => last in {Some(Applying), Some(PendingConfirm)}
    case RollingBack => last in {Some(Prepared), Some(Applying), Some(PendingConfirm), Some(RollingBack)}
    case Committed => last in {Some(Applying), Some(PendingConfirm), Some(Committed)}
    case Restored => last in {Some(RollingBack), Some(Restored)}
    case RecoveryRequired => last in {Some(Prepared), Some(Applying), Some(PendingConfirm), Some(RollingBack), Some(RecoveryRequired)}
    case Rejected => last in {None, Some(Prepared), Some(Applying), Some(Rejected)}
  }

  function LastState(d: Device): Option<AgentState> {
    if d.lastCs.Some? then Some(d.lastCs.value.state) else None
  }

  predicate TransitionAllowed(d: Device, s: Status) {
    || d.lastCs.None? || d.lastCs.value.id != s.id
    || MayFollow(LastState(d), s.state)
  }

  predicate MatchesPending(rowId: string, d: Device, s: Status) {
    && d.pendingOp.None? && d.pendingCs.Some?
    && d.pendingCs.value.id == s.id && d.pendingCs.value.deviceId == rowId
    && d.pendingCs.value.planHash == s.planHash && d.pendingCs.value.generation == Some(s.generation)
    && TransitionAllowed(d, s)
  }

  predicate MatchesLast(rowId: string, d: Device, s: Status) {
    && d.pendingOp.None? && d.pendingCs.None? && d.lastCs.Some?
    && d.lastCs.value.id == s.id && d.lastCs.value.deviceId == rowId
    && d.lastCs.value.planHash == s.planHash && d.lastCs.value.generation == s.generation
    && (!Terminal(d.lastCs.value.state) || d.lastCs.value.state == s.state)
    && TransitionAllowed(d, s)
  }

  predicate AcceptsStatus(rowId: string, d: Device, s: Status) {
    && EqualFold(s.deviceId, rowId)
    && (MatchesPending(rowId, d, s) || MatchesLast(rowId, d, s))
  }

  function StoreStatus(rowId: string, d: Device, s: Status): Device {
    var counts := s.state.Committed?;
    d.(lastCs := Some(s),
       pendingCs := if Terminal(s.state) && MatchesPending(rowId, d, s) then None else d.pendingCs,
       flag := if d.flag.FlagRunning? then d.flag else FlagState(s.state),
       observed := if counts then Max(d.observed, s.generation) else d.observed,
       lastSuccessful := if counts then Max(d.lastSuccessful, s.generation) else d.lastSuccessful)
  }

  /** `RecordDeviceChangeSetStatus` on one row: the accepted status, if any, and the row afterwards. */
  function RecordStatus(rowId: string, d: Device, r: Report): (Device, Option<Status>) {
    var parsed := ParseReport(r);
    if parsed.Some? && AcceptsStatus(rowId, d, parsed.value)
    then (StoreStatus(rowId, d, parsed.value), parsed)
    else (d, None)
  }

  // ---- Operations share the slot ----------------------------------------------

  function OperationGeneration(op: DeviceOperation): int {
    if op.generation.Some? then op.generation.value else 0
  }

  predicate OperationParses(op: DeviceOperation) {
    ValidId(op.id) && ValidHash(op.planHash) && OperationGeneration(op) >= 0
  }

  predicate AdmitsOperation(d: Device, op: DeviceOperation, fenced: bool) {
    && !d.flag.FlagRunning?
    && d.pendingOp.None? && d.pendingCs.None?
    && !NeedsRecoveryOp(d) && !NeedsRecoveryCs(d)
    && !fenced
    && (d.lastOp.Some? ==> d.lastOp.value.id != op.id)
    && (OperationGeneration(op) == 0 || d.desired == OperationGeneration(op))
  }

  function PlaceOperation(d: Device, op: DeviceOperation): Device {
    var generation := if OperationGeneration(op) > 0 then d.desired else d.desired + 1;
    d.(pendingOp := Some(op.(generation := Some(generation))), desired := generation, lastOp := None, flag := FlagQueued)
  }

  function OperationStatusGeneration(s: OperationStatus): int {
    if s.generation.Some? then s.generation.value else 0
  }

  predicate OperationStatusParses(s: OperationStatus) {
    ValidId(s.id) && (s.planHash == "" || ValidHash(s.planHash)) && OperationStatusGeneration(s) >= 0
  }

  function OperationFallback(d: Device, op: DeviceOperation): Outcome<int, QueueError> {
    var generation := OperationGeneration(op);
    if NeedsRecoveryOp(d) then Err(NeedsRecovery)
    else if d.pendingOp.Some? then
      var pending := d.pendingOp.value;
      if OperationParses(pending) && pending.id == op.id then
        if pending.planHash != op.planHash then Err(IdReused)
        else if generation > 0 && OperationGeneration(pending) != generation then Err(GenerationConflict)
        else Ok(OperationGeneration(pending))
      else Err(SlotTaken)
    else if d.lastOp.Some? && OperationStatusParses(d.lastOp.value) && d.lastOp.value.id == op.id then
      var last := d.lastOp.value;
      if last.planHash != "" && last.planHash != op.planHash then Err(IdReused)
      else if generation > 0 then
        if OperationStatusGeneration(last) > 0 && OperationStatusGeneration(last) != generation then Err(GenerationConflict)
        else if d.desired != generation then Err(GenerationConflict)
        else Ok(generation)
      else Ok(OperationStatusGeneration(last))
    else if generation > 0 && d.desired != generation then Err(GenerationConflict)
    else Err(NotQueued)
  }

  /** `QueueDeviceOperation` on one row. */
  function QueueOperation(d: Device, op: DeviceOperation, fenced: bool): (Device, Outcome<int, QueueError>) {
    if !OperationParses(op) then (d, Err(BadDocument))
    else if AdmitsOperation(d, op, fenced) then
      var placed := PlaceOperation(d, op);
      (placed, Ok(placed.desired))
    else (d, OperationFallback(d, op))
  }

  function ParseOperationReport(r: OperationReport): Option<OperationStatus> {
    if && ValidId(r.id) && (r.planHash == "" || ValidHash(r.planHash))
       && (r.generation.Some? ==> r.generation.value >= 0)
       && r.state.Some? && !r.state.value.Prepared? && !r.state.value.Rejected?
    then Some(OperationStatus(r.id, r.planHash, r.generation, r.state.value))
    else None
  }

  predicate OperationMatchesPending(d: Device, s: OperationStatus) {
    && d.pendingOp.Some? && d.pendingOp.value.id == s.id
    && (if s.planHash != "" then d.pendingOp.value.planHash == s.planHash else d.pendingOp.value.generation.None?)
    && (OperationStatusGeneration(s) > 0 ==> d.pendingOp.value.generation == s.generation)
  }

  predicate OperationMatchesLast(d: Device, s: OperationStatus) {
    && d.pendingCs.None? && d.lastOp.Some? && d.lastOp.value.id == s.id
    && (if s.planHash != "" then d.lastOp.value.planHash == s.planHash else d.lastOp.value.generation.None?)
    && (OperationStatusGeneration(s) > 0 ==> d.lastOp.value.generation == s.generation)
    && (!OperationTerminal(d.lastOp.value.state) || d.lastOp.value.state == s.state)
  }

  function StoreOperationStatus(d: Device, s: OperationStatus): Device {
    var generation := OperationStatusGeneration(s);
    var counts := s.state.Committed? && generation > 0;
    d.(lastOp := Some(s),
       pendingOp := if OperationTerminal(s.state) && OperationMatchesPending(d, s) then None else d.pendingOp,
       flag := if d.flag.FlagRunning? then d.flag else FlagState(s.state),
       observed := if counts then Max(d.observed, generation) else d.observed,
       lastSuccessful := if counts then Max(d.lastSuccessful, generation) else d.lastSuccessful)
  }

  /** `RecordDeviceOperationStatus` on one row. */
  function RecordOperation(d: Device, r: OperationReport): (Device, bool) {
    var parsed := ParseOperationReport(r);
    if parsed.Some? && (OperationMatchesPending(d, parsed.value) || OperationMatchesLast(d, parsed.value))
    then (StoreOperationStatus(d, parsed.value), true)
    else (d, false)
  }

  // ---- Runs of one row -------------------------------------------------------

  /** Everything that can happen to a row, one atomic step each. */
  datatype RowAction =
    | TryChangeSet(cs: ChangeSet, owner: Owner, fenced: bool)
    | TryOperation(op: DeviceOperation, opFenced: bool)
    | GetReport(report: Report)
    | GetOperationReport(opReport: OperationReport)
    | SetFlag(flag: RolloutFlag)
    | Edit(site: Option<string>, role: Option<string>, capable: bool)

  function StepRow(e: Env, rowId: string, d: Device, a: RowAction): Device {
    match a
    case TryChangeSet(cs, owner, fenced) => QueueChangeSet(e, rowId, d, cs, owner, fenced).0
    case TryOperation(op, fenced) => QueueOperation(d, op, fenced).0
    case GetReport(report) => RecordStatus(rowId, d, report).0
    case GetOperationReport(report) => RecordOperation(d, report).0
    case SetFlag(flag) => d.(flag := flag)
    case Edit(site, role, capable) => d.(site := site, role := role, capable := capable)
  }

  function RunRow(e: Env, rowId: string, d: Device, actions: seq<RowAction>): Device
    decreases actions
  {
    if actions == [] then d else RunRow(e, rowId, StepRow(e, rowId, d, actions[0]), actions[1..])
  }

  lemma {:induction false} RunRowConcat(e: Env, rowId: string, d: Device, xs: seq<RowAction>, ys: seq<RowAction>)
    ensures RunRow(e, rowId, d, xs + ys) == RunRow(e, rowId, RunRow(e, rowId, d, xs), ys)
    decreases xs
  {
    if xs == [] {
      assert xs + ys == ys;
    } else {
      assert (xs + ys)[1..] == xs[1..] + ys;
      RunRowConcat(e, rowId, StepRow(e, rowId, d, xs[0]), xs[1..], ys);
    }
  }

  // ---- The slot and generation invariant ----------------------------------------

  ghost predicate GenerationsAgree(d: Device) {
    0 <= d.observed == d.lastSuccessful <= d.desired
  }

  /** One item at most, at the desired generation, and an empty slot only after a terminal report. */
  ghost predicate SlotInvariant(e: Env, rowId: string, d: Device) {
    && GenerationsAgree(d)
    && (d.pendingOp.None? || d.pendingCs.None?)
    && (d.pendingOp.Some? ==> d.pendingOp.value.generation == Some(d.desired) && d.desired > 0 && OperationParses(d.pendingOp.value))
    && (d.pendingCs.Some? ==> d.pendingCs.value.generation == Some(d.desired) && Acceptable(e, d.pendingCs.value))
    && (d.pendingOp.None? && d.lastOp.Some? ==> OperationTerminal(d.lastOp.value.state))
    && (d.pendingOp.Some? && d.lastOp.Some? ==> d.lastOp.value.id == d.pendingOp.value.id)
    && (d.lastOp.Some? ==> OperationStatusParses(d.lastOp.value) && OperationStatusGeneration(d.lastOp.value) <= d.desired)
    && (d.lastCs.Some? ==> StatusParses(d.lastCs.value) && d.lastCs.value.generation <= d.desired && EqualFold(d.lastCs.value.deviceId, rowId))
    && (d.lastCs.Some? && d.pendingCs.None? ==> Terminal(d.lastCs.value.state))
    && (d.lastCs.Some? && d.pendingCs.Some? ==>
          if d.lastCs.value.id == d.pendingCs.value.id
          then !Terminal(d.lastCs.value.state) && d.lastCs.value.planHash == d.pendingCs.value.planHash && d.lastCs.value.generation == d.desired
          else Terminal(d.lastCs.value.state))
    && (NeedsRecoveryCs(d) ==> d.pendingOp.None? && d.pendingCs.None?)
  }

  ghost predicate GenerationsGrow(d: Device, d': Device) {
    d.desired <= d'.desired && d.observed <= d'.observed && d.lastSuccessful <= d'.lastSuccessful
  }

  lemma PlacingKeepsSlot(e: Env, rowId: string, d: Device, cs: ChangeSet, owner: Owner, fenced: bool)
    requires SlotInvariant(e, rowId, d)
    ensures var d' := QueueChangeSet(e, rowId, d, cs, owner, fenced).0; SlotInvariant(e, rowId, d') && GenerationsGrow(d, d')
  {
    if Acceptable(e, cs) && AdmitsChangeSet(d, cs, owner, fenced) {
      BoundChangeSetParsesAgain(e, cs, PlaceChangeSet(d, cs).desired);
    }
  }

  lemma ReportKeepsSlot(e: Env, rowId: string, d: Device, report: Report)
    requires SlotInvariant(e, rowId, d)
    ensures var d' := RecordStatus(rowId, d, report).0; SlotInvariant(e, rowId, d') && GenerationsGrow(d, d')
  {
  }

  lemma StepKeepsSlot(e: Env, rowId: string, d: Device, a: RowAction)
    requires SlotInvariant(e, rowId, d)
    ensures SlotInvariant(e, rowId, StepRow(e, rowId, d, a))
    ensures GenerationsGrow(d, StepRow(e, rowId, d, a))
  {
    match a
    case TryChangeSet(cs, owner, fenced) => PlacingKeepsSlot(e, rowId, d, cs, owner, fenced);
    case GetReport(report) => ReportKeepsSlot(e, rowId, d, report);
    case _ =>
  }

  /** Over any run of a row. */
  lemma {:induction false} RunKeepsSlot(e: Env, rowId: string, d: Device, actions: seq<RowAction>)
    requires SlotInvariant(e, rowId, d)
    ensures SlotInvariant(e, rowId, RunRow(e, rowId, d, actions))
    ensures GenerationsGrow(d, RunRow(e, rowId, d, actions))
    decreases actions
  {
    if actions != [] {
      StepKeepsSlot(e, rowId, d, actions[0]);
      RunKeepsSlot(e, rowId, StepRow(e, rowId, d, actions[0]), actions[1..]);
    }
  }
}
