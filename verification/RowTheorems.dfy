/** What every run of one device row keeps: the recovery fence and the report ladder. */
module RowTheorems {
  import opened Common
  import opened ChangeSets
  import opened DeviceSlot

  // ---- The recovery fence --------------------------------------------------

  /** What a row in recovery must never lose. */
  ghost predicate FenceHolds(before: Device, after: Device) {
    && NeedsRecoveryCs(before) && NeedsRecoveryCs(after)
    && after.lastCs.value.id == before.lastCs.value.id
    && after.lastCs.value.generation == before.lastCs.value.generation
    && after.pendingOp.None? && after.pendingCs.None?
    && after.desired == before.desired
  }

  /** RECOVERY_REQUIRED on a changeset is permanent: no run queues anything or moves the generation again. */
  lemma {:induction false} RecoveryFenceIsPermanent(e: Env, rowId: string, d: Device, actions: seq<RowAction>)
    requires NeedsRecoveryCs(d) && d.pendingOp.None? && d.pendingCs.None?
    ensures FenceHolds(d, RunRow(e, rowId, d, actions))
    decreases actions
  {
    if actions != [] {
      var d' := StepRow(e, rowId, d, actions[0]);
      assert FenceHolds(d, d');
      RecoveryFenceIsPermanent(e, rowId, d', actions[1..]);
    }
  }

  // ---- The report ladder -----------------------------------------------------

  function Rank(s: AgentState): nat {
    match s
    case Prepared => 0
    case Applying => 1
    case PendingConfirm => 2
    case RollingBack => 3
    case _ => 4
  }

  /** The state of the report this action stores, if it stores one. */
  function StoredBy(rowId: string, d: Device, a: RowAction): seq<AgentState> {
    if a.GetReport? && RecordStatus(rowId, d, a.report).1.Some?
    then [RecordStatus(rowId, d, a.report).1.value.state]
    else []
  }

  /** The states of all stored reports, in order. */
  function Ladder(e: Env, rowId: string, d: Device, actions: seq<RowAction>): seq<AgentState>
    decreases actions
  {
    if actions == [] then [] else
      StoredBy(rowId, d, actions[0]) + Ladder(e, rowId, StepRow(e, rowId, d, actions[0]), actions[1..])
  }

  /** No queue attempt of this run changes the row. */
  ghost predicate NothingQueued(e: Env, rowId: string, d: Device, actions: seq<RowAction>)
    decreases actions
  {
    actions != [] ==>
      && (actions[0].TryChangeSet? || actions[0].TryOperation? ==> StepRow(e, rowId, d, actions[0]) == d)
      && NothingQueued(e, rowId, StepRow(e, rowId, d, actions[0]), actions[1..])
  }

  /** One rung to the next: the same state again, or strictly upwards and never from rollback to commit. */
  predicate Climbs(a: AgentState, b: AgentState) {
    || a == b
    || (Rank(a) < Rank(b) && !(a.RollingBack? && b.Committed?))
  }

  ghost predicate IsLadder(states: seq<AgentState>) {
    forall i | 0 < i < |states| :: Climbs(states[i - 1], states[i])
  }

  /** Where the ladder may continue from: the state already reported for the item in the slot. */
  ghost predicate ContinuesFrom(d: Device, states: seq<AgentState>) {
    states != [] && d.lastCs.Some? && (d.pendingCs.Some? ==> d.lastCs.value.id == d.pendingCs.value.id)
    ==> Climbs(d.lastCs.value.state, states[0])
  }

  lemma StoredReportClimbs(e: Env, rowId: string, d: Device, report: Report)
    requires SlotInvariant(e, rowId, d)
    requires RecordStatus(rowId, d, report).1.Some?
    ensures var d' := RecordStatus(rowId, d, report).0;
            var s := RecordStatus(rowId, d, report).1.value;
            && d'.lastCs == Some(s)
            && (d'.pendingCs.Some? ==> d'.pendingCs.value.id == s.id)
            && (d.lastCs.Some? && (d.pendingCs.Some? ==> d.lastCs.value.id == d.pendingCs.value.id) ==> Climbs(d.lastCs.value.state, s.state))
  {
  }

  /** Between two queue steps the stored reports climb the ladder. */
  lemma {:induction false} ReportsClimb(e: Env, rowId: string, d: Device, actions: seq<RowAction>)
    requires SlotInvariant(e, rowId, d) && NothingQueued(e, rowId, d, actions)
    ensures IsLadder(Ladder(e, rowId, d, actions))
    ensures ContinuesFrom(d, Ladder(e, rowId, d, actions))
    decreases actions
  {
    if actions != [] {
      var d' := StepRow(e, rowId, d, actions[0]);
      StepKeepsSlot(e, rowId, d, actions[0]);
      ReportsClimb(e, rowId, d', actions[1..]);
      LadderExtends(e, rowId, d, actions[0], Ladder(e, rowId, d', actions[1..]));
    }
  }

  lemma LadderExtends(e: Env, rowId: string, d: Device, a: RowAction, rest: seq<AgentState>)
    requires SlotInvariant(e, rowId, d) && IsLadder(rest) && ContinuesFrom(StepRow(e, rowId, d, a), rest)
    requires a.TryChangeSet? || a.TryOperation? ==> StepRow(e, rowId, d, a) == d
    ensures IsLadder(StoredBy(rowId, d, a) + rest) && ContinuesFrom(d, StoredBy(rowId, d, a) + rest)
  {
    var d' := StepRow(e, rowId, d, a);
    if StoredBy(rowId, d, a) == [] {
      assert StoredBy(rowId, d, a) + rest == rest;
      assert d'.lastCs == d.lastCs && d'.pendingCs == d.pendingCs;
    } else {
      StoredReportClimbs(e, rowId, d, a.report);
    }
  }

  /** Along a ladder: ranks never fall, equal ranks mean the same state, and rollback never ends in a commit. */
  lemma {:induction false} LadderIsMonotone(states: seq<AgentState>, i: nat, j: nat)
    requires IsLadder(states) && i <= j < |states|
    ensures Rank(states[i]) <= Rank(states[j])
    ensures Rank(states[i]) == Rank(states[j]) ==> states[i] == states[j]
    ensures states[i].RollingBack? ==> !states[j].Committed?
    decreases j
  {
    if i < j {
      LadderIsMonotone(states, i, j - 1);
      assert Climbs(states[j - 1], states[j]);
    }
  }

  function StatesIn(states: seq<AgentState>): set<AgentState> {
    set s | s in states
  }

  /** Only one terminal state can appear, beside the four that are not terminal. */
  lemma FiveStatesAtMost(states: seq<AgentState>)
    requires IsLadder(states)
    ensures |StatesIn(states)| <= 5
  {
    var open := {Prepared, Applying, PendingConfirm, RollingBack};
    if i :| 0 <= i < |states| && Terminal(states[i]) {
      forall j | 0 <= j < |states| ensures states[j] in open + {states[i]} {
        if Terminal(states[j]) {
          LadderIsMonotone(states, if i <= j then i else j, if i <= j then j else i);
        }
      }
      SubsetIsSmaller(StatesIn(states), open + {states[i]});
    } else {
      SubsetIsSmaller(StatesIn(states), open);
    }
  }

  /**
   * The ladder theorem: between two queue steps, the stored reports never fall
   * in rank, a terminal state is absorbing, COMMITTED never follows
   * ROLLING_BACK, and at most five distinct states are ever stored.
   */
  lemma ReportLadder(e: Env, rowId: string, d: Device, actions: seq<RowAction>)
    requires SlotInvariant(e, rowId, d) && NothingQueued(e, rowId, d, actions)
    ensures var states := Ladder(e, rowId, d, actions);
            && (forall i, j | 0 <= i <= j < |states| ::
                  && Rank(states[i]) <= Rank(states[j])
                  && (Rank(states[i]) == Rank(states[j]) ==> states[i] == states[j])
                  && (Terminal(states[i]) ==> states[j] == states[i])
                  && (states[i].RollingBack? ==> !states[j].Committed?))
            && |StatesIn(states)| <= 5
  {
    var states := Ladder(e, rowId, d, actions);
    ReportsClimb(e, rowId, d, actions);
    forall i, j | 0 <= i <= j < |states|
      ensures && Rank(states[i]) <= Rank(states[j])
              && (Rank(states[i]) == Rank(states[j]) ==> states[i] == states[j])
              && (Terminal(states[i]) ==> states[j] == states[i])
              && (states[i].RollingBack? ==> !states[j].Committed?)
    {
      LadderIsMonotone(states, i, j);
    }
    FiveStatesAtMost(states);
  }

  /** A report about anything but the item in the slot, or the last one when the slot is empty, changes nothing. */
  lemma ForeignReportChangesNothing(e: Env, rowId: string, d: Device, report: Report)
    requires var current := if d.pendingCs.Some? then Some((d.pendingCs.value.id, d.pendingCs.value.planHash, d.pendingCs.value.generation))
                            else if d.lastCs.Some? then Some((d.lastCs.value.id, d.lastCs.value.planHash, Some(d.lastCs.value.generation)))
                            else None;
             d.pendingOp.Some? || current != Some((report.id, report.planHash, report.generation))
    ensures RecordStatus(rowId, d, report) == (d, None)
  {
  }
}
