/**
 * How often one row takes one changeset. A row remembers the changeset in its
 * slot and the one last reported, and forgets the latter when it stores a
 * report about another one; it takes a changeset exactly when it does not
 * remember it.
 */
module OnceOnly {
  import opened Common
  import opened ChangeSets
  import opened DeviceSlot

  predicate Remembers(d: Device, id: string) {
    || (d.pendingCs.Some? && d.pendingCs.value.id == id)
    || (d.lastCs.Some? && d.lastCs.value.id == id)
  }

  predicate Attempts(a: RowAction, id: string) {
    a.TryChangeSet? && a.cs.id == id
  }

  predicate Takes(d: Device, d': Device, id: string) {
    d.pendingCs.None? && d'.pendingCs.Some? && d'.pendingCs.value.id == id
  }

  predicate Forgets(rowId: string, d: Device, a: RowAction, id: string) {
    Remembers(d, id) && a.GetReport? && RecordStatus(rowId, d, a.report).1.Some? && a.report.id != id
  }

  function One(b: bool): nat { if b then 1 else 0 }

  /** How often the row took the changeset into its slot. */
  function Placements(e: Env, rowId: string, d: Device, id: string, actions: seq<RowAction>): nat
    decreases actions
  {
    if actions == [] then 0 else
      var d' := StepRow(e, rowId, d, actions[0]);
      One(Takes(d, d', id)) + Placements(e, rowId, d', id, actions[1..])
  }

  /** How often the row, remembering the changeset, stored a report about another one. */
  function Forgettings(e: Env, rowId: string, d: Device, id: string, actions: seq<RowAction>): nat
    decreases actions
  {
    if actions == [] then 0 else
      One(Forgets(rowId, d, actions[0], id)) + Forgettings(e, rowId, StepRow(e, rowId, d, actions[0]), id, actions[1..])
  }

  /** By how much the attempts to queue the changeset raised the desired generation. */
  function Raised(e: Env, rowId: string, d: Device, id: string, actions: seq<RowAction>): int
    decreases actions
  {
    if actions == [] then 0 else
      var d' := StepRow(e, rowId, d, actions[0]);
      (if Attempts(actions[0], id) then d'.desired - d.desired else 0) + Raised(e, rowId, d', id, actions[1..])
  }

  function AnswersOf(e: Env, rowId: string, d: Device, id: string, a: RowAction): seq<int> {
    if Attempts(a, id) && QueueChangeSet(e, rowId, d, a.cs, a.owner, a.fenced).1.Ok?
    then [QueueChangeSet(e, rowId, d, a.cs, a.owner, a.fenced).1.value]
    else []
  }

  /** The generations that successful attempts to queue the changeset returned, in order. */
  function Answers(e: Env, rowId: string, d: Device, id: string, actions: seq<RowAction>): seq<int>
    decreases actions
  {
    if actions == [] then [] else
      AnswersOf(e, rowId, d, id, actions[0]) + Answers(e, rowId, StepRow(e, rowId, d, actions[0]), id, actions[1..])
  }

  // ---- The balance -----------------------------------------------------------

  lemma MemoryStep(e: Env, rowId: string, d: Device, id: string, a: RowAction)
    requires SlotInvariant(e, rowId, d)
    ensures var d' := StepRow(e, rowId, d, a);
            One(Takes(d, d', id)) + One(Remembers(d, id)) == One(Forgets(rowId, d, a, id)) + One(Remembers(d', id))
  {
  }

  /**
   * Placements balance forgettings over every run, whatever else is queued:
   * each placement starts a memory and only a stored report about another
   * changeset ends one. So an unknown changeset is placed again only after it
   * was forgotten.
   */
  lemma {:induction false} PlacementsBalance(e: Env, rowId: string, d: Device, id: string, actions: seq<RowAction>)
    requires SlotInvariant(e, rowId, d)
    ensures Placements(e, rowId, d, id, actions) + One(Remembers(d, id))
            == Forgettings(e, rowId, d, id, actions) + One(Remembers(RunRow(e, rowId, d, actions), id))
    decreases actions
  {
    if actions != [] {
      MemoryStep(e, rowId, d, id, actions[0]);
      StepKeepsSlot(e, rowId, d, actions[0]);
      PlacementsBalance(e, rowId, StepRow(e, rowId, d, actions[0]), id, actions[1..]);
    }
  }

  // ---- Answers -----------------------------------------------------------------

  /** The changeset is remembered, and its generation is g wherever it is. */
  predicate RemembersAt(d: Device, id: string, g: int) {
    && Remembers(d, id)
    && (d.pendingCs.Some? && d.pendingCs.value.id == id ==> d.pendingCs.value.generation == Some(g))
    && (d.lastCs.Some? && d.lastCs.value.id == id ==> d.lastCs.value.generation == g)
  }

  lemma RememberedStep(e: Env, rowId: string, d: Device, id: string, a: RowAction, g: int)
    requires SlotInvariant(e, rowId, d) && RemembersAt(d, id, g) && !Forgets(rowId, d, a, id)
    ensures RemembersAt(StepRow(e, rowId, d, a), id, g)
    ensures Attempts(a, id) ==> StepRow(e, rowId, d, a) == d
    ensures AnswersOf(e, rowId, d, id, a) == [] || AnswersOf(e, rowId, d, id, a) == [g]
  {
  }

  lemma FirstAnswer(e: Env, rowId: string, d: Device, id: string, a: RowAction)
    requires SlotInvariant(e, rowId, d) && !Remembers(d, id)
    ensures var d' := StepRow(e, rowId, d, a);
            if AnswersOf(e, rowId, d, id, a) == [] then !Remembers(d', id)
            else |AnswersOf(e, rowId, d, id, a)| == 1 && RemembersAt(d', id, AnswersOf(e, rowId, d, id, a)[0])
  {
  }

  lemma {:induction false} RememberedRun(e: Env, rowId: string, d: Device, id: string, actions: seq<RowAction>, g: int)
    requires SlotInvariant(e, rowId, d) && RemembersAt(d, id, g) && Forgettings(e, rowId, d, id, actions) == 0
    ensures RemembersAt(RunRow(e, rowId, d, actions), id, g)
    ensures forall i | 0 <= i < |Answers(e, rowId, d, id, actions)| :: Answers(e, rowId, d, id, actions)[i] == g
    decreases actions
  {
    if actions != [] {
      RememberedStep(e, rowId, d, id, actions[0], g);
      StepKeepsSlot(e, rowId, d, actions[0]);
      RememberedRun(e, rowId, StepRow(e, rowId, d, actions[0]), id, actions[1..], g);
    }
  }

  lemma AttemptRaises(e: Env, rowId: string, d: Device, id: string, a: RowAction)
    requires SlotInvariant(e, rowId, d) && Attempts(a, id)
    ensures var d' := StepRow(e, rowId, d, a);
            d'.desired - d.desired == One(Takes(d, d', id) && a.cs.generation.None?)
  {
  }

  /** Attempts raise the desired generation by one for each placement of an unbound changeset, and never for a bound one. */
  lemma {:induction false} RaisedByPlacements(e: Env, rowId: string, d: Device, id: string, actions: seq<RowAction>, unbound: bool)
    requires SlotInvariant(e, rowId, d)
    requires forall a | a in actions && Attempts(a, id) :: a.cs.generation.None? == unbound
    ensures Raised(e, rowId, d, id, actions) == if unbound then Placements(e, rowId, d, id, actions) else 0
    decreases actions
  {
    if actions != [] {
      var d' := StepRow(e, rowId, d, actions[0]);
      assert actions[0] in actions;
      if Attempts(actions[0], id) {
        AttemptRaises(e, rowId, d, id, actions[0]);
      } else {
        OnlyAttemptsTake(e, rowId, d, id, actions[0]);
      }
      StepKeepsSlot(e, rowId, d, actions[0]);
      RaisedByPlacements(e, rowId, d', id, actions[1..], unbound);
    }
  }

  lemma OnlyAttemptsTake(e: Env, rowId: string, d: Device, id: string, a: RowAction)
    ensures Takes(d, StepRow(e, rowId, d, a), id) ==> Attempts(a, id)
  {
  }

  // ---- Exactly once --------------------------------------------------------------

  predicate AllEqual(answers: seq<int>) {
    forall i, j | 0 <= i < j < |answers| :: answers[i] == answers[j]
  }

  /**
   * Exactly once: in any run of the row, with other changesets, operations,
   * reports, flags and edits in between, a changeset that is not forgotten is
   * placed at most once, and all successful attempts to queue it return the
   * same generation.
   */
  lemma {:induction false} ExactlyOnce(e: Env, rowId: string, d: Device, id: string, actions: seq<RowAction>)
    requires SlotInvariant(e, rowId, d) && Forgettings(e, rowId, d, id, actions) == 0
    ensures var answers := Answers(e, rowId, d, id, actions);
            && Placements(e, rowId, d, id, actions) <= 1
            && AllEqual(answers)
            && (answers != [] ==> RemembersAt(RunRow(e, rowId, d, actions), id, answers[0]))
    decreases actions
  {
    PlacementsBalance(e, rowId, d, id, actions);
    if actions != [] {
      var d' := StepRow(e, rowId, d, actions[0]);
      StepKeepsSlot(e, rowId, d, actions[0]);
      if Remembers(d, id) {
        var g := if d.pendingCs.Some? && d.pendingCs.value.id == id then d.desired else d.lastCs.value.generation;
        RememberedRun(e, rowId, d, id, actions, g);
      } else {
        FirstAnswer(e, rowId, d, id, actions[0]);
        if AnswersOf(e, rowId, d, id, actions[0]) == [] {
          ExactlyOnce(e, rowId, d', id, actions[1..]);
        } else {
          RememberedRun(e, rowId, d', id, actions[1..], AnswersOf(e, rowId, d, id, actions[0])[0]);
        }
      }
    }
  }

  /** Who may ask: a rollout only for a device of its own site, in the role it planned with, while it is RUNNING. */
  predicate OwnerMayAsk(d: Device, owner: Owner) {
    match owner
    case NoOwner => true
    case OwnedBy(site, role, running) => running && d.site == Some(site) && (d.role == Some(role) || (d.role.None? && role == "AP"))
  }

  /** Everything a placement needs, apart from the memory of the changeset. */
  predicate Ready(e: Env, rowId: string, d: Device, cs: ChangeSet, owner: Owner, fenced: bool) {
    && Acceptable(e, cs) && EqualFold(cs.deviceId, rowId) && OwnerMayAsk(d, owner) && !fenced
    && d.capable && d.pendingOp.None? && d.pendingCs.None? && d.flag != FlagRunning
    && (d.lastOp.Some? ==> d.lastOp.value.state != RecoveryRequired)
    && (d.lastCs.Some? ==> d.lastCs.value.state != RecoveryRequired)
    && (cs.generation.Some? ==> cs.generation.value == d.desired)
  }

  /** The row with the changeset in its slot, at its own generation or the next one. */
  function Filled(d: Device, cs: ChangeSet): Device {
    var g := if cs.generation.Some? then cs.generation.value else d.desired + 1;
    d.(pendingCs := Some(cs.(generation := Some(g))), desired := g, flag := FlagQueued)
  }

  /**
   * The exact limit: after any run, a retry is placed again if and only if the
   * row is ready and every memory of the changeset, the first one and one for
   * each placement since, was ended by a stored report about another one. It
   * then only fills the slot, and otherwise it changes nothing.
   */
  lemma RetryIsPlacedExactly(
    e: Env, rowId: string, d: Device, cs: ChangeSet, actions: seq<RowAction>, owner: Owner, fenced: bool)
    requires SlotInvariant(e, rowId, d)
    ensures var d1 := RunRow(e, rowId, d, actions);
            var d2 := StepRow(e, rowId, d1, TryChangeSet(cs, owner, fenced));
            var memories := One(Remembers(d, cs.id)) + Placements(e, rowId, d, cs.id, actions);
            && (Takes(d1, d2, cs.id) <==> Ready(e, rowId, d1, cs, owner, fenced) && Forgettings(e, rowId, d, cs.id, actions) == memories)
            && d2 == if Takes(d1, d2, cs.id) then Filled(d1, cs) else d1
  {
    PlacementsBalance(e, rowId, d, cs.id, actions);
    RunKeepsSlot(e, rowId, d, actions);
  }

  /** The item the row is about: the one in the slot, else the last one reported. */
  predicate IsCurrent(d: Device, cs: ChangeSet, g: int) {
    if d.pendingCs.Some? then d.pendingCs.value.id == cs.id && d.pendingCs.value.planHash == cs.planHash && d.pendingCs.value.generation == Some(g)
    else d.lastCs.Some? && d.lastCs.value.id == cs.id && d.lastCs.value.planHash == cs.planHash && d.lastCs.value.generation == g
  }

  /** Whom a retry of the current changeset is answered: a rollout of the device's site and role, running or not. */
  predicate MayBeTold(d: Device, owner: Owner) {
    && d.site.Some? && d.capable && !NeedsRecoveryCs(d)
    && (owner.OwnedBy? ==> OwnerMayAsk(d, owner.(running := true)))
  }

  /**
   * A call succeeds exactly when it is placed, or repeats the current changeset
   * with the same plan and without asking for another generation; the answer is
   * the generation that the row holds for it.
   */
  lemma AnsweredExactly(e: Env, rowId: string, d: Device, cs: ChangeSet, owner: Owner, fenced: bool, g: int)
    requires SlotInvariant(e, rowId, d)
    ensures QueueChangeSet(e, rowId, d, cs, owner, fenced).1 == Ok(g) <==>
            || (Ready(e, rowId, d, cs, owner, fenced) && !Remembers(d, cs.id) && g == Filled(d, cs).desired)
            || (&& Acceptable(e, cs) && EqualFold(cs.deviceId, rowId) && MayBeTold(d, owner)
                && IsCurrent(d, cs, g) && (cs.generation.Some? ==> cs.generation.value == g))
  {
  }

  // ---- Runs without another changeset ------------------------------------------------

  /** A run that tries to queue no other changeset; operations, reports, flags and edits are arbitrary. */
  ghost predicate NoOther(actions: seq<RowAction>, id: string) {
    forall a | a in actions :: a.TryChangeSet? ==> a.cs.id == id
  }

  /** A foreign changeset that still waits for reports. */
  predicate ForeignPending(d: Device, id: string) {
    d.pendingCs.Some? && d.pendingCs.value.id != id
  }

  lemma NoOtherStep(e: Env, rowId: string, d: Device, id: string, a: RowAction)
    requires SlotInvariant(e, rowId, d) && (a.TryChangeSet? ==> a.cs.id == id)
    ensures var d' := StepRow(e, rowId, d, a);
            && (ForeignPending(d', id) ==> ForeignPending(d, id))
            && (Forgets(rowId, d, a, id) ==> ForeignPending(d, id))
            && (ForeignPending(d', id) && Remembers(d', id) ==> Remembers(d, id))
  {
  }

  /** Where nothing else is queued, a changeset is forgotten at most once, and then the row remembered it from the start. */
  lemma {:induction false} ForgottenWithoutOthers(e: Env, rowId: string, d: Device, id: string, actions: seq<RowAction>)
    requires SlotInvariant(e, rowId, d) && NoOther(actions, id)
    ensures Forgettings(e, rowId, d, id, actions) <= One(ForeignPending(d, id) && Remembers(d, id))
    decreases actions
  {
    if actions != [] {
      var d' := StepRow(e, rowId, d, actions[0]);
      assert actions[0] in actions;
      NoOtherStep(e, rowId, d, id, actions[0]);
      MemoryStep(e, rowId, d, id, actions[0]);
      StepKeepsSlot(e, rowId, d, actions[0]);
      ForgottenWithoutOthers(e, rowId, d', id, actions[1..]);
    }
  }

  /** Retries of one changeset, mixed with anything but other changesets, place it at most once. */
  lemma RetriesAlonePlaceOnce(e: Env, rowId: string, d: Device, id: string, actions: seq<RowAction>)
    requires SlotInvariant(e, rowId, d) && NoOther(actions, id)
    ensures Placements(e, rowId, d, id, actions) <= 1
  {
    ForgottenWithoutOthers(e, rowId, d, id, actions);
    PlacementsBalance(e, rowId, d, id, actions);
  }

  // ---- A run that places a changeset twice ---------------------------------------------------

  function CommitReports(rowId: string, cs: ChangeSet, generation: int): seq<RowAction> {
    var report := Report(cs.id, rowId, cs.planHash, Some(generation), Some(Applying), "");
    [GetReport(report), GetReport(report.(state := Some(Committed)))]
  }

  lemma CommitsInTwoReports(e: Env, rowId: string, d: Device, cs: ChangeSet)
    requires SlotInvariant(e, rowId, d) && ValidDeviceId(rowId)
    requires d.pendingCs.Some? && d.pendingCs.value == Bind(cs, d.desired) && cs.deviceId == rowId && Acceptable(e, cs) && d.desired > 0
    requires d.lastCs.Some? ==> d.lastCs.value.id != cs.id
    requires !d.flag.FlagRunning?
    ensures var d' := RunRow(e, rowId, d, CommitReports(rowId, cs, d.desired));
            && d'.pendingCs.None? && d'.pendingOp.None? && d'.desired == d.desired && !d'.flag.FlagRunning?
            && d'.lastCs == Some(Status(cs.id, rowId, cs.planHash, d.desired, Committed, ""))
            && d'.capable == d.capable && d'.site == d.site && d'.lastOp == d.lastOp
  {
    var reports := CommitReports(rowId, cs, d.desired);
    var d1 := StepRow(e, rowId, d, reports[0]);
    assert reports[1..] == [reports[1]] && reports[1..][1..] == [];
    assert RunRow(e, rowId, d1, reports[1..]) == StepRow(e, rowId, d1, reports[1]);
  }

  /** A capable row with nothing in its slot whose last changeset, if any, was another one and committed. */
  predicate IdleFor(d: Device, cs: ChangeSet) {
    && d.capable && d.pendingCs.None? && d.pendingOp.None? && d.lastOp.None? && !d.flag.FlagRunning?
    && (d.lastCs.Some? ==> d.lastCs.value.id != cs.id && d.lastCs.value.state.Committed?)
  }

  /**
   * A family of runs in which a changeset is forgotten: another one was queued
   * and committed in between, and a late retry of the first is placed a second
   * time.
   */
  lemma LateRetryIsPlacedAgain(e: Env, rowId: string, d: Device, a: ChangeSet, b: ChangeSet)
    requires Acceptable(e, a) && Acceptable(e, b) && a.id != b.id && a.deviceId == b.deviceId == rowId
    requires a.generation.None? && b.generation.None? && ValidDeviceId(rowId)
    requires SlotInvariant(e, rowId, d) && IdleFor(d, a) && IdleFor(d, b)
    ensures var trace := [TryChangeSet(a, NoOwner, false)] + CommitReports(rowId, a, d.desired + 1)
                       + [TryChangeSet(b, NoOwner, false)] + CommitReports(rowId, b, d.desired + 2) + [TryChangeSet(a, NoOwner, false)];
            var d' := RunRow(e, rowId, d, trace);
            d'.desired == d.desired + 3 && d'.pendingCs == Some(Bind(a, d.desired + 3))
  {
    var qa, qb := [TryChangeSet(a, NoOwner, false)], [TryChangeSet(b, NoOwner, false)];
    var ca, cb := CommitReports(rowId, a, d.desired + 1), CommitReports(rowId, b, d.desired + 2);
    var d1 := PlacedNext(e, rowId, d, a);
    CommitsInTwoReports(e, rowId, d1, a);
    var d2 := RunRow(e, rowId, d1, ca);
    RunRowConcat(e, rowId, d, qa, ca);
    RunKeepsSlot(e, rowId, d1, ca);
    var d3 := PlacedNext(e, rowId, d2, b);
    RunRowConcat(e, rowId, d, qa + ca, qb);
    CommitsInTwoReports(e, rowId, d3, b);
    var d4 := RunRow(e, rowId, d3, cb);
    RunRowConcat(e, rowId, d, qa + ca + qb, cb);
    RunKeepsSlot(e, rowId, d3, cb);
    var d5 := PlacedNext(e, rowId, d4, a);
    RunRowConcat(e, rowId, d, qa + ca + qb + cb, qa);
  }

  /** Queueing on an idle row whose last changeset was another one. */
  lemma PlacedNext(e: Env, rowId: string, d: Device, cs: ChangeSet) returns (next: Device)
    requires SlotInvariant(e, rowId, d) && Acceptable(e, cs) && cs.deviceId == rowId && cs.generation.None?
    requires IdleFor(d, cs)
    ensures next == RunRow(e, rowId, d, [TryChangeSet(cs, NoOwner, false)])
    ensures next == PlaceChangeSet(d, cs) && SlotInvariant(e, rowId, next) && next.desired == d.desired + 1
  {
    var step := [TryChangeSet(cs, NoOwner, false)];
    next := StepRow(e, rowId, d, step[0]);
    assert step[1..] == [];
    StepKeepsSlot(e, rowId, d, step[0]);
  }
}
