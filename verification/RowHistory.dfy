/**
 * A row told by its history: what reports and placements leave behind, that
 * repeating a report is harmless, and when a pending changeset can end.
 */
module RowHistory {
  import opened Common
  import opened ChangeSets
  import opened DeviceSlot
  import opened OnceOnly
  import OperationOnce
  import Controller
  import RowProjection

  // ---- The latest word ---------------------------------------------------------

  predicate Stores(rowId: string, d: Device, a: RowAction) {
    a.GetReport? && RecordStatus(rowId, d, a.report).1.Some?
  }

  predicate StoresOperation(d: Device, a: RowAction) {
    a.GetOperationReport? && RecordOperation(d, a.opReport).1
  }

  /** What an event of the row says about its rollout status; RUNNING gives way to explicit writes only. */
  function SaidBy(e: Env, rowId: string, d: Device, a: RowAction): Option<RolloutFlag> {
    var d' := StepRow(e, rowId, d, a);
    match a
    case TryChangeSet(cs, _, _) => if Takes(d, d', cs.id) then Some(FlagQueued) else None
    case TryOperation(op, _) => if OperationOnce.TakesOp(d, d', op.id) then Some(FlagQueued) else None
    case GetReport(report) => if Stores(rowId, d, a) && report.state.Some? && d.flag != FlagRunning then Some(FlagState(report.state.value)) else None
    case GetOperationReport(report) =>
      if StoresOperation(d, a) && report.state.Some? && d.flag != FlagRunning then Some(FlagState(report.state.value)) else None
    case SetFlag(flag) => Some(flag)
    case Edit(_, _, _) => None
  }

  ghost function LatestWord(e: Env, rowId: string, d: Device, actions: seq<RowAction>, start: RolloutFlag): RolloutFlag
    decreases actions
  {
    if actions == [] then start else
      var said := SaidBy(e, rowId, d, actions[0]);
      LatestWord(e, rowId, StepRow(e, rowId, d, actions[0]), actions[1..], if said.Some? then said.value else start)
  }

  lemma FlagMoves(e: Env, rowId: string, d: Device, a: RowAction)
    requires SlotInvariant(e, rowId, d)
    ensures StepRow(e, rowId, d, a).flag == if SaidBy(e, rowId, d, a).Some? then SaidBy(e, rowId, d, a).value else d.flag
  {
  }

  /** The rollout status of a row is the latest word of its history: queued, a reported state, or an explicit write. */
  lemma {:induction false} FlagIsLatestWord(e: Env, rowId: string, d: Device, actions: seq<RowAction>)
    requires SlotInvariant(e, rowId, d)
    ensures RunRow(e, rowId, d, actions).flag == LatestWord(e, rowId, d, actions, d.flag)
    decreases actions
  {
    if actions != [] {
      FlagMoves(e, rowId, d, actions[0]);
      StepKeepsSlot(e, rowId, d, actions[0]);
      FlagIsLatestWord(e, rowId, StepRow(e, rowId, d, actions[0]), actions[1..]);
    }
  }

  /** The report as the row keeps it. */
  function Kept(r: Report): Option<Status> {
    if r.generation.Some? && r.state.Some? then Some(Status(r.id, r.deviceId, r.planHash, r.generation.value, r.state.value, r.failure)) else None
  }

  ghost function LatestReport(e: Env, rowId: string, d: Device, actions: seq<RowAction>, start: Option<Status>): Option<Status>
    decreases actions
  {
    if actions == [] then start else
      LatestReport(e, rowId, StepRow(e, rowId, d, actions[0]), actions[1..], if Stores(rowId, d, actions[0]) then Kept(actions[0].report) else start)
  }

  /** The last changeset status is the latest report that was stored, word for word; nothing else writes it. */
  lemma {:induction false} LastReportIsLatest(e: Env, rowId: string, d: Device, actions: seq<RowAction>)
    ensures RunRow(e, rowId, d, actions).lastCs == LatestReport(e, rowId, d, actions, d.lastCs)
    decreases actions
  {
    if actions != [] {
      LastReportIsLatest(e, rowId, StepRow(e, rowId, d, actions[0]), actions[1..]);
    }
  }

  function KeptOperation(r: OperationReport): Option<OperationStatus> {
    if r.state.Some? then Some(OperationStatus(r.id, r.planHash, r.generation, r.state.value)) else None
  }

  predicate PlacesOperation(e: Env, rowId: string, d: Device, a: RowAction) {
    a.TryOperation? && OperationOnce.TakesOp(d, StepRow(e, rowId, d, a), a.op.id)
  }

  /** What an action makes of the last operation status. */
  function OperationWordAfter(e: Env, rowId: string, d: Device, a: RowAction, start: Option<OperationStatus>): Option<OperationStatus> {
    if StoresOperation(d, a) then KeptOperation(a.opReport) else if PlacesOperation(e, rowId, d, a) then None else start
  }

  ghost function LatestOperationReport(
    e: Env, rowId: string, d: Device, actions: seq<RowAction>, start: Option<OperationStatus>): Option<OperationStatus>
    decreases actions
  {
    if actions == [] then start else
      LatestOperationReport(e, rowId, StepRow(e, rowId, d, actions[0]), actions[1..], OperationWordAfter(e, rowId, d, actions[0], start))
  }

  lemma OperationWordMoves(e: Env, rowId: string, d: Device, a: RowAction)
    requires SlotInvariant(e, rowId, d)
    ensures StepRow(e, rowId, d, a).lastOp == OperationWordAfter(e, rowId, d, a, d.lastOp)
  {
  }

  /** The last operation status is the latest report stored since an operation was placed. */
  lemma {:induction false} LastOperationReportIsLatest(e: Env, rowId: string, d: Device, actions: seq<RowAction>)
    requires SlotInvariant(e, rowId, d)
    ensures RunRow(e, rowId, d, actions).lastOp == LatestOperationReport(e, rowId, d, actions, d.lastOp)
    decreases actions
  {
    if actions != [] {
      OperationWordMoves(e, rowId, d, actions[0]);
      StepKeepsSlot(e, rowId, d, actions[0]);
      LastOperationReportIsLatest(e, rowId, StepRow(e, rowId, d, actions[0]), actions[1..]);
    }
  }

  /** The states an operation can be reported in; PREPARED and REJECTED are for changesets. */
  predicate OperationState(s: AgentState) { s in {Applying, PendingConfirm, RollingBack, Committed, Restored, RecoveryRequired} }

  /** In every run each stored operation status is in one of these states, and reports in them are the only ones that are read. */
  lemma {:induction false} OperationStatesAre(e: Env, rowId: string, d: Device, actions: seq<RowAction>)
    requires d.lastOp.Some? ==> OperationState(d.lastOp.value.state)
    ensures var d' := RunRow(e, rowId, d, actions); d'.lastOp.Some? ==> OperationState(d'.lastOp.value.state)
    ensures forall r: OperationReport ::
              ParseOperationReport(r).Some? <==>
              && ValidId(r.id) && (r.planHash == "" || ValidHash(r.planHash)) && (r.generation.Some? ==> 0 <= r.generation.value)
              && r.state.Some? && OperationState(r.state.value)
    decreases actions
  {
    if actions != [] {
      OperationStatesAre(e, rowId, StepRow(e, rowId, d, actions[0]), actions[1..]);
    }
  }

  // ---- What is in the slot ----------------------------------------------------------

  datatype Slot = Slot(cs: Option<ChangeSet>, op: Option<DeviceOperation>)

  predicate Ends(s: AgentState) { s in {Committed, Restored, RecoveryRequired, Rejected} }

  /** The report speaks of this very operation, as far as it says which. */
  predicate SpeaksOf(r: OperationReport, op: DeviceOperation) {
    r.id == op.id && r.planHash == op.planHash && (r.generation.Some? && r.generation.value > 0 ==> r.generation == op.generation)
  }

  /** Placing fills the slot; a stored report of a final state empties it, for operations only COMMITTED and RESTORED are final. */
  function SlotAfter(e: Env, rowId: string, d: Device, a: RowAction, slot: Slot): Slot {
    var d' := StepRow(e, rowId, d, a);
    match a
    case TryChangeSet(cs, _, _) => if Takes(d, d', cs.id) then Slot(Filled(d, cs).pendingCs, None) else slot
    case TryOperation(op, _) => if OperationOnce.TakesOp(d, d', op.id) then Slot(None, OperationOnce.OpFilled(d, op).pendingOp) else slot
    case GetReport(report) => if Stores(rowId, d, a) && report.state.Some? && Ends(report.state.value) then Slot(None, None) else slot
    case GetOperationReport(report) =>
      if slot.op.Some? && SpeaksOf(report, slot.op.value) && StoresOperation(d, a) && report.state in {Some(Committed), Some(Restored)} then Slot(None, None)
      else slot
    case _ => slot
  }

  ghost function SlotThrough(e: Env, rowId: string, d: Device, actions: seq<RowAction>, slot: Slot): Slot
    decreases actions
  {
    if actions == [] then slot else
      SlotThrough(e, rowId, StepRow(e, rowId, d, actions[0]), actions[1..], SlotAfter(e, rowId, d, actions[0], slot))
  }

  lemma SlotMoves(e: Env, rowId: string, d: Device, a: RowAction)
    requires SlotInvariant(e, rowId, d)
    ensures var d' := StepRow(e, rowId, d, a);
            Slot(d'.pendingCs, d'.pendingOp) == SlotAfter(e, rowId, d, a, Slot(d.pendingCs, d.pendingOp))
  {
  }

  /** The slot holds what was placed last, until a final report about it is stored. */
  lemma {:induction false} SlotHoldsLatest(e: Env, rowId: string, d: Device, actions: seq<RowAction>)
    requires SlotInvariant(e, rowId, d)
    ensures var d' := RunRow(e, rowId, d, actions);
            Slot(d'.pendingCs, d'.pendingOp) == SlotThrough(e, rowId, d, actions, Slot(d.pendingCs, d.pendingOp))
    decreases actions
  {
    if actions != [] {
      SlotMoves(e, rowId, d, actions[0]);
      StepKeepsSlot(e, rowId, d, actions[0]);
      SlotHoldsLatest(e, rowId, StepRow(e, rowId, d, actions[0]), actions[1..]);
    }
  }

  // ---- Which reports are stored ----------------------------------------------------------

  /** What an agent may report next about the same changeset: itself again, onwards, back, or an end; nothing follows an end. */
  function Successors(s: AgentState): set<AgentState> {
    match s
    case Prepared => {Prepared, Applying, RollingBack, RecoveryRequired, Rejected}
    case Applying => {Applying, PendingConfirm, RollingBack, Committed, RecoveryRequired, Rejected}
    case PendingConfirm => {PendingConfirm, RollingBack, Committed, RecoveryRequired}
    case RollingBack => {RollingBack, Restored, RecoveryRequired}
    case _ => {s}
  }

  /** The report names the changeset in the slot, or the last one reported when the slot is empty. */
  predicate SpeaksOfCurrent(rowId: string, d: Device, r: Report) {
    && d.pendingOp.None?
    && if d.pendingCs.Some? then
         var cs := d.pendingCs.value;
         cs.id == r.id && cs.deviceId == rowId && cs.planHash == r.planHash && cs.generation == r.generation
       else
         && d.lastCs.Some?
         && var last := d.lastCs.value;
            last.id == r.id && last.deviceId == rowId && last.planHash == r.planHash && Some(last.generation) == r.generation
  }

  /**
   * A report is stored exactly when it is complete, comes from this device,
   * speaks of the current changeset and, unless it is the first about it, its
   * state may follow the last one.
   */
  lemma ReportStoredExactly(e: Env, rowId: string, d: Device, r: Report)
    requires SlotInvariant(e, rowId, d)
    ensures RecordStatus(rowId, d, r).1.Some? <==>
            && ValidId(r.id) && ValidDeviceId(r.deviceId) && ValidHash(r.planHash) && r.generation.Some? && r.generation.value > 0
            && r.state.Some? && EqualFold(r.deviceId, rowId) && SpeaksOfCurrent(rowId, d, r)
            && (d.lastCs.Some? && d.lastCs.value.id == r.id ==> r.state.value in Successors(d.lastCs.value.state))
  {
  }

  /** An operation's report names the operation in the slot, or the last one reported; without a plan hash only when no generation was kept. */
  predicate NamesOperation(id: string, planHash: string, generation: Option<int>, r: OperationReport) {
    && id == r.id
    && (if r.planHash == "" then generation == None else planHash == r.planHash)
    && (r.generation.Some? && r.generation.value > 0 ==> generation == r.generation)
  }

  /** An operation's report is stored exactly when it is complete and names the pending operation, or the last one unless that ended in another state. */
  lemma OperationReportStoredExactly(d: Device, r: OperationReport)
    ensures RecordOperation(d, r).1 <==>
            && ValidId(r.id) && (r.planHash == "" || ValidHash(r.planHash)) && (r.generation.Some? ==> 0 <= r.generation.value)
            && r.state.Some? && OperationState(r.state.value)
            && (|| (d.pendingOp.Some? && NamesOperation(d.pendingOp.value.id, d.pendingOp.value.planHash, d.pendingOp.value.generation, r))
                || (d.pendingCs.None? && d.lastOp.Some? && NamesOperation(d.lastOp.value.id, d.lastOp.value.planHash, d.lastOp.value.generation, r)
                    && (d.lastOp.value.state !in {Committed, Restored} || Some(d.lastOp.value.state) == r.state)))
  {
  }

  // ---- Repeated reports -----------------------------------------------------------------

  /**
   * Reports may be delivered again: a stored report is accepted once more and
   * changes nothing. Only a final one that spells the device's id in another
   * letter case is not recognised the second time; it changes nothing either.
   */
  lemma RepeatedReportIsHarmless(e: Env, rowId: string, d: Device, report: Report)
    requires SlotInvariant(e, rowId, d) && RecordStatus(rowId, d, report).1.Some?
    ensures report.state.Some?
    ensures var d' := RecordStatus(rowId, d, report).0;
            && RecordStatus(rowId, d', report).0 == d'
            && (RecordStatus(rowId, d', report).1.Some? <==> report.deviceId == rowId || !Ends(report.state.value))
  {
  }

  /** The same for operations, except when a report without a plan hash spells out generation zero. */
  lemma RepeatedOperationReportIsHarmless(e: Env, rowId: string, d: Device, report: OperationReport)
    requires SlotInvariant(e, rowId, d) && RecordOperation(d, report).1
    ensures var d' := RecordOperation(d, report).0;
            && RecordOperation(d', report).0 == d'
            && (RecordOperation(d', report).1 <==> report.planHash != "" || report.generation != Some(0))
  {
  }

  // ---- How a pending changeset ends -------------------------------------------------------

  /** A stored report that empties the slot. */
  predicate Finishes(rowId: string, d: Device, report: Report) {
    d.pendingCs.Some? && RecordStatus(rowId, d, report).1.Some? && RecordStatus(rowId, d, report).0.pendingCs.None?
  }

  /** The agent gives the pending changeset up. */
  function GivenUp(cs: ChangeSet): Report {
    Report(cs.id, cs.deviceId, cs.planHash, cs.generation, Some(RecoveryRequired), "")
  }

  /**
   * A pending changeset can be ended by some report exactly when it spells the
   * device's id as the row does. Queueing accepts any letter case, so a
   * changeset in another one is placed and cannot be reported.
   */
  lemma PendingCanEndExactly(e: Env, rowId: string, d: Device)
    requires SlotInvariant(e, rowId, d) && d.pendingCs.Some?
    ensures (exists report :: Finishes(rowId, d, report)) <==> d.pendingCs.value.deviceId == rowId
  {
    if d.pendingCs.value.deviceId == rowId {
      assert Finishes(rowId, d, GivenUp(d.pendingCs.value));
    }
  }

  /** Such a changeset blocks its device in every run: it stays pending, and nothing else is placed or reported. */
  lemma {:induction false} MisspelledIsStuck(e: Env, rowId: string, d: Device, actions: seq<RowAction>)
    requires SlotInvariant(e, rowId, d) && d.pendingCs.Some? && d.pendingCs.value.deviceId != rowId
    ensures var d' := RunRow(e, rowId, d, actions);
            && d'.pendingCs == d.pendingCs && d'.pendingOp.None? && d'.desired == d.desired
            && d'.lastCs == d.lastCs && d'.observed == d.observed
    decreases actions
  {
    if actions != [] {
      StepKeepsSlot(e, rowId, d, actions[0]);
      StuckStep(e, rowId, d, actions[0]);
      MisspelledIsStuck(e, rowId, StepRow(e, rowId, d, actions[0]), actions[1..]);
    }
  }

  lemma StuckStep(e: Env, rowId: string, d: Device, a: RowAction)
    requires SlotInvariant(e, rowId, d) && d.pendingCs.Some? && d.pendingCs.value.deviceId != rowId
    ensures var d' := StepRow(e, rowId, d, a);
            && d'.pendingCs == d.pendingCs && d'.pendingOp.None? && d'.desired == d.desired
            && d'.lastCs == d.lastCs && d'.observed == d.observed
  {
  }

  // ---- In every run of the controller ---------------------------------------------------------

  /** All of it in every run of calls, seen from one device: slot, reports and rollout status are those its own history leaves. */
  lemma HistoryInEveryRun(e: Env, w: Controller.World, calls: seq<Controller.Call>, x: string)
    requires x in w.devices && SlotInvariant(e, x, w.devices[x])
    ensures x in Controller.Run(e, w, calls).devices
    ensures var d, d', trace := w.devices[x], Controller.Run(e, w, calls).devices[x], RowProjection.RunTrace(e, w, calls, x);
            && d'.flag == LatestWord(e, x, d, trace, d.flag)
            && d'.lastCs == LatestReport(e, x, d, trace, d.lastCs)
            && d'.lastOp == LatestOperationReport(e, x, d, trace, d.lastOp)
            && Slot(d'.pendingCs, d'.pendingOp) == SlotThrough(e, x, d, trace, Slot(d.pendingCs, d.pendingOp))
  {
    var trace := RowProjection.RunTrace(e, w, calls, x);
    RowProjection.RunProjects(e, w, calls, x);
    FlagIsLatestWord(e, x, w.devices[x], trace);
    LastReportIsLatest(e, x, w.devices[x], trace);
    LastOperationReportIsLatest(e, x, w.devices[x], trace);
    SlotHoldsLatest(e, x, w.devices[x], trace);
  }

  /** A changeset that spells its device otherwise blocks the device whatever anyone calls. */
  lemma MisspelledIsStuckInEveryRun(e: Env, w: Controller.World, calls: seq<Controller.Call>, x: string)
    requires x in w.devices && SlotInvariant(e, x, w.devices[x])
    requires w.devices[x].pendingCs.Some? && w.devices[x].pendingCs.value.deviceId != x
    ensures x in Controller.Run(e, w, calls).devices
    ensures Controller.Run(e, w, calls).devices[x].pendingCs == w.devices[x].pendingCs
    ensures Controller.Run(e, w, calls).devices[x].desired == w.devices[x].desired
  {
    RowProjection.RunProjects(e, w, calls, x);
    MisspelledIsStuck(e, x, w.devices[x], RowProjection.RunTrace(e, w, calls, x));
  }
}
