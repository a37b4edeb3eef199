/**
 * How often one row takes one operation, and what a retry is told. Placing an
 * operation erases the report about the one before, so that is where a row
 * forgets; a report stored without its generation is where a retry is told a
 * different generation than the first call.
 */
module OperationOnce {
  import opened Common
  import opened ChangeSets
  import opened DeviceSlot
  import OnceOnly

  predicate KnowsOp(d: Device, id: string) {
    || (d.pendingOp.Some? && d.pendingOp.value.id == id)
    || (d.lastOp.Some? && d.lastOp.value.id == id)
  }

  predicate TakesOp(d: Device, d': Device, id: string) {
    d.pendingOp.None? && d'.pendingOp.Some? && d'.pendingOp.value.id == id
  }

  /** The row takes another operation and loses the report about this one. */
  predicate Displaces(d: Device, d': Device, id: string) {
    KnowsOp(d, id) && d.pendingOp.None? && d'.pendingOp.Some? && d'.pendingOp.value.id != id
  }

  function OpPlacements(e: Env, rowId: string, d: Device, id: string, actions: seq<RowAction>): nat
    decreases actions
  {
    if actions == [] then 0 else
      var d' := StepRow(e, rowId, d, actions[0]);
      OnceOnly.One(TakesOp(d, d', id)) + OpPlacements(e, rowId, d', id, actions[1..])
  }

  function Displacements(e: Env, rowId: string, d: Device, id: string, actions: seq<RowAction>): nat
    decreases actions
  {
    if actions == [] then 0 else
      var d' := StepRow(e, rowId, d, actions[0]);
      OnceOnly.One(Displaces(d, d', id)) + Displacements(e, rowId, d', id, actions[1..])
  }

  lemma OpMemoryStep(e: Env, rowId: string, d: Device, id: string, a: RowAction)
    requires SlotInvariant(e, rowId, d)
    ensures var d' := StepRow(e, rowId, d, a);
            OnceOnly.One(TakesOp(d, d', id)) + OnceOnly.One(KnowsOp(d, id)) == OnceOnly.One(Displaces(d, d', id)) + OnceOnly.One(KnowsOp(d', id))
  {
  }

  /**
   * Placements of an operation balance its displacements over every run, so an
   * operation is placed at most once unless another one was placed after it.
   */
  lemma {:induction false} OperationsBalance(e: Env, rowId: string, d: Device, id: string, actions: seq<RowAction>)
    requires SlotInvariant(e, rowId, d)
    ensures OpPlacements(e, rowId, d, id, actions) + OnceOnly.One(KnowsOp(d, id))
            == Displacements(e, rowId, d, id, actions) + OnceOnly.One(KnowsOp(RunRow(e, rowId, d, actions), id))
    decreases actions
  {
    if actions != [] {
      OpMemoryStep(e, rowId, d, id, actions[0]);
      StepKeepsSlot(e, rowId, d, actions[0]);
      OperationsBalance(e, rowId, StepRow(e, rowId, d, actions[0]), id, actions[1..]);
    }
  }

  /** Everything a placement needs, apart from the report about the operation. */
  predicate OpReady(d: Device, op: DeviceOperation, fenced: bool) {
    && OperationParses(op) && !fenced
    && d.pendingOp.None? && d.pendingCs.None? && d.flag != FlagRunning
    && (d.lastOp.Some? ==> d.lastOp.value.state != RecoveryRequired)
    && (d.lastCs.Some? ==> d.lastCs.value.state != RecoveryRequired)
    && (op.generation.Some? && op.generation.value > 0 ==> op.generation.value == d.desired)
  }

  /** The row with the operation in its slot and the report about the previous one erased. */
  function OpFilled(d: Device, op: DeviceOperation): Device {
    var g := if op.generation.Some? && op.generation.value > 0 then op.generation.value else d.desired + 1;
    d.(pendingOp := Some(op.(generation := Some(g))), desired := g, lastOp := None, flag := FlagQueued)
  }

  /**
   * After any run, an operation is placed if and only if the row is ready and
   * every earlier placement of it was displaced by another one; it then only
   * fills the slot, and otherwise it changes nothing.
   */
  lemma OperationIsPlacedExactly(e: Env, rowId: string, d: Device, op: DeviceOperation, actions: seq<RowAction>, fenced: bool)
    requires SlotInvariant(e, rowId, d)
    ensures var d1 := RunRow(e, rowId, d, actions);
            var d2 := StepRow(e, rowId, d1, TryOperation(op, fenced));
            var known := OnceOnly.One(KnowsOp(d, op.id)) + OpPlacements(e, rowId, d, op.id, actions);
            && (TakesOp(d1, d2, op.id) <==> OpReady(d1, op, fenced) && Displacements(e, rowId, d, op.id, actions) == known)
            && d2 == if TakesOp(d1, d2, op.id) then OpFilled(d1, op) else d1
  {
    OperationsBalance(e, rowId, d, op.id, actions);
    RunKeepsSlot(e, rowId, d, actions);
  }

  // ---- What the row knows about an operation -----------------------------------------

  /** The pending item is this operation at generation g; the report about it has its plan hash and generation, or lacks them. */
  predicate KnowsAt(d: Device, op: DeviceOperation, g: int) {
    && KnowsOp(d, op.id) && g > 0 && ValidHash(op.planHash)
    && (d.pendingOp.Some? ==> d.pendingOp.value.id == op.id && d.pendingOp.value.planHash == op.planHash && d.pendingOp.value.generation == Some(g))
    && (d.lastOp.Some? ==>
          && d.lastOp.value.id == op.id && d.lastOp.value.planHash in {"", op.planHash}
          && OperationStatusGeneration(d.lastOp.value) in {0, g})
  }

  /** The row can still tell the generation. */
  predicate Tells(d: Device) {
    d.pendingOp.Some? || (d.lastOp.Some? && OperationStatusGeneration(d.lastOp.value) > 0)
  }

  /** A report without a generation becomes the last word about the operation. */
  predicate Drops(d: Device, a: RowAction) {
    && a.GetOperationReport? && RecordOperation(d, a.opReport).1
    && RecordOperation(d, a.opReport).0.pendingOp.None?
    && (a.opReport.generation.Some? ==> a.opReport.generation.value == 0)
  }

  ghost predicate DropsInRun(e: Env, rowId: string, d: Device, actions: seq<RowAction>)
    decreases actions
  {
    actions != [] && (Drops(d, actions[0]) || DropsInRun(e, rowId, StepRow(e, rowId, d, actions[0]), actions[1..]))
  }

  lemma PlacedIsKnown(d: Device, op: DeviceOperation, fenced: bool)
    requires OperationParses(op) && AdmitsOperation(d, op, fenced) && d.desired >= 0
    ensures var (d', answer) := QueueOperation(d, op, fenced);
            && d'.desired == (if OperationGeneration(op) == 0 then d.desired + 1 else d.desired)
            && answer == Ok(d'.desired)
            && TakesOp(d, d', op.id)
            && (d'.desired > 0 ==> KnowsAt(d', op, d'.desired) && Tells(d'))
  {
  }

  lemma KnownStep(e: Env, rowId: string, d: Device, op: DeviceOperation, a: RowAction, g: int)
    requires SlotInvariant(e, rowId, d) && KnowsAt(d, op, g) && !Displaces(d, StepRow(e, rowId, d, a), op.id)
    ensures KnowsAt(StepRow(e, rowId, d, a), op, g)
    ensures Tells(StepRow(e, rowId, d, a)) <==> Tells(d) && !Drops(d, a)
    ensures a.TryOperation? && a.op.id == op.id ==> StepRow(e, rowId, d, a) == d
  {
  }

  lemma {:induction false} KnownRun(e: Env, rowId: string, d: Device, op: DeviceOperation, actions: seq<RowAction>, g: int)
    requires SlotInvariant(e, rowId, d) && KnowsAt(d, op, g) && Displacements(e, rowId, d, op.id, actions) == 0
    ensures KnowsAt(RunRow(e, rowId, d, actions), op, g)
    ensures Tells(RunRow(e, rowId, d, actions)) <==> Tells(d) && !DropsInRun(e, rowId, d, actions)
    decreases actions
  {
    if actions != [] {
      KnownStep(e, rowId, d, op, actions[0], g);
      StepKeepsSlot(e, rowId, d, actions[0]);
      KnownRun(e, rowId, StepRow(e, rowId, d, actions[0]), op, actions[1..], g);
    }
  }

  // ---- What a retry is told -------------------------------------------------------------

  /**
   * A retry of a known operation changes nothing. Bound, it is told its own
   * generation or refused; unbound, it is told g while the row can tell, and
   * zero afterwards, unless the device needs recovery.
   */
  lemma RetryAnswer(e: Env, rowId: string, d: Device, op: DeviceOperation, fenced: bool, g: int)
    requires SlotInvariant(e, rowId, d) && KnowsAt(d, op, g) && OperationParses(op)
    ensures var (d', answer) := QueueOperation(d, op, fenced);
            && d' == d
            && (answer.Err? && answer.error.NeedsRecovery? <==> NeedsRecoveryOp(d))
            && (OperationGeneration(op) == 0 && !NeedsRecoveryOp(d) ==> answer == Ok(if Tells(d) then g else 0))
            && (OperationGeneration(op) > 0 && answer.Ok? ==> answer.value == OperationGeneration(op))
            && (OperationGeneration(op) > 0 && !NeedsRecoveryOp(d) ==>
                  (answer.Ok? <==> if d.pendingOp.Some? then OperationGeneration(op) == g
                                   else OperationGeneration(op) == d.desired && (Tells(d) ==> d.desired == g)))
  {
  }

  /**
   * After any run that placed no other operation, an unbound retry is told the
   * generation of the first call if and only if no report without a generation
   * became the last word; otherwise it is told zero.
   */
  lemma RetryIsToldExactly(e: Env, rowId: string, d: Device, op: DeviceOperation, actions: seq<RowAction>, fenced: bool, g: int)
    requires SlotInvariant(e, rowId, d) && KnowsAt(d, op, g) && Tells(d)
    requires OperationParses(op) && OperationGeneration(op) == 0
    requires Displacements(e, rowId, d, op.id, actions) == 0
    ensures var d1 := RunRow(e, rowId, d, actions);
            !NeedsRecoveryOp(d1) ==>
              QueueOperation(d1, op, fenced) == (d1, Ok(if DropsInRun(e, rowId, d, actions) then 0 else g))
  {
    KnownRun(e, rowId, d, op, actions, g);
    RunKeepsSlot(e, rowId, d, actions);
    RetryAnswer(e, rowId, RunRow(e, rowId, d, actions), op, fenced, g);
  }

  function OpAnswersOf(d: Device, op: DeviceOperation, a: RowAction): seq<int> {
    if a.TryOperation? && a.op == op && QueueOperation(d, op, a.opFenced).1.Ok?
    then [QueueOperation(d, op, a.opFenced).1.value]
    else []
  }

  /** The generations that successful attempts to queue the operation returned, in order. */
  function OpAnswers(e: Env, rowId: string, d: Device, op: DeviceOperation, actions: seq<RowAction>): seq<int>
    decreases actions
  {
    if actions == [] then [] else
      OpAnswersOf(d, op, actions[0]) + OpAnswers(e, rowId, StepRow(e, rowId, d, actions[0]), op, actions[1..])
  }

  predicate AllAre(answers: seq<int>, g: int) {
    forall i | 0 <= i < |answers| :: answers[i] == g
  }

  lemma AllAreConcat(xs: seq<int>, ys: seq<int>, g: int)
    ensures AllAre(xs + ys, g) <==> AllAre(xs, g) && AllAre(ys, g)
  {
    if AllAre(xs + ys, g) {
      assert forall i | 0 <= i < |xs| :: xs[i] == (xs + ys)[i];
      assert forall i | 0 <= i < |ys| :: ys[i] == (xs + ys)[|xs| + i];
    }
  }

  /** Every successful unbound attempt of the run is made while the row can tell the generation. */
  ghost predicate AskedInTime(e: Env, rowId: string, d: Device, op: DeviceOperation, actions: seq<RowAction>)
    decreases actions
  {
    actions != [] ==>
      && (actions[0].TryOperation? && actions[0].op == op && !NeedsRecoveryOp(d) ==> Tells(d))
      && AskedInTime(e, rowId, StepRow(e, rowId, d, actions[0]), op, actions[1..])
  }

  lemma OneAnswer(e: Env, rowId: string, d: Device, op: DeviceOperation, a: RowAction, g: int)
    requires SlotInvariant(e, rowId, d) && KnowsAt(d, op, g) && OperationParses(op) && OperationGeneration(op) == 0
    ensures AllAre(OpAnswersOf(d, op, a), g) <==> (a.TryOperation? && a.op == op && !NeedsRecoveryOp(d) ==> Tells(d))
  {
    if a.TryOperation? && a.op == op {
      RetryAnswer(e, rowId, d, op, a.opFenced, g);
      if !NeedsRecoveryOp(d) {
        assert OpAnswersOf(d, op, a) == [if Tells(d) then g else 0];
        assert OpAnswersOf(d, op, a)[0] == g <==> Tells(d);
      }
    }
  }

  /**
   * Over a whole run: all successful attempts of a placed, unbound operation
   * return its generation if and only if none of them is answered from a report
   * without a generation.
   */
  lemma {:induction false} AnswersAgreeExactly(e: Env, rowId: string, d: Device, op: DeviceOperation, actions: seq<RowAction>, g: int)
    requires SlotInvariant(e, rowId, d) && KnowsAt(d, op, g)
    requires OperationParses(op) && OperationGeneration(op) == 0
    requires Displacements(e, rowId, d, op.id, actions) == 0
    ensures AllAre(OpAnswers(e, rowId, d, op, actions), g) <==> AskedInTime(e, rowId, d, op, actions)
    ensures Tells(d) && !DropsInRun(e, rowId, d, actions) ==> AskedInTime(e, rowId, d, op, actions)
    decreases actions
  {
    if actions != [] {
      var a := actions[0];
      var d' := StepRow(e, rowId, d, a);
      KnownStep(e, rowId, d, op, a, g);
      StepKeepsSlot(e, rowId, d, a);
      AnswersAgreeExactly(e, rowId, d', op, actions[1..], g);
      OneAnswer(e, rowId, d, op, a, g);
      AllAreConcat(OpAnswersOf(d, op, a), OpAnswers(e, rowId, d', op, actions[1..]), g);
    }
  }

  /**
   * Another plan under the id of a known operation is refused as such exactly
   * while the row still has the plan hash to compare with.
   */
  lemma OtherPlanIsRefusedExactly(e: Env, rowId: string, d: Device, op: DeviceOperation, other: DeviceOperation, fenced: bool, g: int)
    requires SlotInvariant(e, rowId, d) && KnowsAt(d, op, g) && !NeedsRecoveryOp(d)
    requires OperationParses(other) && other.id == op.id && other.planHash != op.planHash
    ensures QueueOperation(d, other, fenced).0 == d
    ensures QueueOperation(d, other, fenced).1 == Err(IdReused) <==> d.pendingOp.Some? || d.lastOp.value.planHash != ""
  {
  }

  // ---- A run that loses the generation -------------------------------------------------

  /**
   * The failing run: an unbound operation is placed, its agent reports COMMITTED
   * with the plan hash and no generation, and the retry is told zero. After one
   * more such report, without the plan hash, another plan under the same id is
   * accepted as if it were this one.
   */
  lemma GenerationIsLost(e: Env, rowId: string, d: Device, op: DeviceOperation, other: DeviceOperation)
    requires SlotInvariant(e, rowId, d) && OperationParses(op) && OperationGeneration(op) == 0
    requires AdmitsOperation(d, op, false)
    requires OperationParses(other) && OperationGeneration(other) == 0 && other.id == op.id && other.planHash != op.planHash
    ensures var d1 := StepRow(e, rowId, d, TryOperation(op, false));
            var d2 := StepRow(e, rowId, d1, GetOperationReport(OperationReport(op.id, op.planHash, None, Some(Committed))));
            var d3 := StepRow(e, rowId, d2, GetOperationReport(OperationReport(op.id, "", None, Some(Committed))));
            && QueueOperation(d, op, false).1 == Ok(d.desired + 1)
            && QueueOperation(d2, op, false).1 == Ok(0)
            && QueueOperation(d2, other, false).1 == Err(IdReused)
            && QueueOperation(d3, other, false).1 == Ok(0)
  {
    var committed := OperationReport(op.id, op.planHash, None, Some(Committed));
    var d1 := StepRow(e, rowId, d, TryOperation(op, false));
    assert d1 == PlaceOperation(d, op);
    var d2 := StepRow(e, rowId, d1, GetOperationReport(committed));
    assert d2.lastOp == Some(OperationStatus(op.id, op.planHash, None, Committed)) && d2.pendingOp.None?;
    var d3 := StepRow(e, rowId, d2, GetOperationReport(committed.(planHash := "")));
    assert d3.lastOp == Some(OperationStatus(op.id, "", None, Committed)) && d3.pendingOp.None?;
  }
}
