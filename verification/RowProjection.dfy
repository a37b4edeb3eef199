/**
 * Every run of the controller, seen from one device row, is a run of that row.
 * This lifts the theorems about rows to all interleavings of calls.
 */
module RowProjection {
  import opened Common
  import opened ChangeSets
  import opened DeviceSlot
  import opened Controller
  import RowTheorems
  import opened OnceOnly
  import opened OperationOnce

  ghost function ItemsTrace(e: Env, w: World, site: string, id: nat, items: seq<QueueItem>, x: string): seq<RowAction>
    decreases items
  {
    if items == [] then [] else
      var cs := items[0].cs;
      var w' := QueueFor(e, w, site, items[0].role, cs.deviceId, cs, id).0;
      (if cs.deviceId == x && x in w.devices
       then [TryChangeSet(cs, OwnerFor(w, w.devices[x], site, items[0].role, id), RowFenced(w, w.devices[x], Some(id)))] else [])
      + ItemsTrace(e, w', site, id, items[1..], x)
  }

  /** What a call on its own row does to that row. */
  ghost function DeviceTrace(w: World, d: Device, c: DeviceCall): seq<RowAction> {
    match c
    case AddDevice(_, _, _) => []
    case EditDevice(site, role, capable) => [Edit(site, role, capable)]
    case FlagDevice(flag) => [SetFlag(flag)]
    case CallQueueOp(op) => [TryOperation(op, RowFenced(w, d, None))]
    case CallRecordOp(report) => [GetOperationReport(report)]
    case CallQueue(cs) => [TryChangeSet(cs, NoOwner, RowFenced(w, d, None))]
    case CallQueueFor(site, role, cs, id) => [TryChangeSet(cs, OwnerFor(w, d, site, role, id), RowFenced(w, d, Some(id)))]
  }

  ghost function ClaimTrace(e: Env, w: World, site: string, id: nat, items: seq<QueueItem>, x: string): seq<RowAction>
    requires Claimable(w, site, id) && x in w.devices
  {
    [SetFlag(Claimed(w, site, id).devices[x].flag)] + ItemsTrace(e, Claimed(w, site, id), site, id, items, x)
  }

  /** What one call does to the row of device x. */
  ghost function CallTrace(e: Env, w: World, c: Call, x: string): seq<RowAction>
    requires x in w.devices
  {
    match c
    case OnDevice(y, call) => if y == x then DeviceTrace(w, w.devices[x], call) else []
    case OnReport(y, report) => if y == x then [GetReport(report)] else []
    case OnDraft(call) => DraftKeepsKeys(w, call); [SetFlag(StepDraft(w, call).devices[x].flag)]
    case CallClaimAndQueue(site, id, items, results) =>
      if ClaimAndQueue(e, w, site, id, items, results).1.Ok? then ClaimTrace(e, w, site, id, items, x) else []
    case _ => []
  }

  lemma DraftKeepsKeys(w: World, c: DraftCall)
    ensures StepDraft(w, c).devices.Keys == w.devices.Keys
  {
  }

  lemma {:induction false} ItemsProject(e: Env, w: World, site: string, id: nat, items: seq<QueueItem>, g: map<string, int>, x: string)
    requires x in w.devices && QueueItems(e, w, site, id, items, g).Ok?
    ensures var w' := QueueItems(e, w, site, id, items, g).value.0;
            x in w'.devices && w'.devices[x] == RunRow(e, x, w.devices[x], ItemsTrace(e, w, site, id, items, x))
    decreases items
  {
    if items != [] {
      var cs := items[0].cs;
      var (w', answer) := QueueFor(e, w, site, items[0].role, cs.deviceId, cs, id);
      ItemsProject(e, w', site, id, items[1..], g[cs.deviceId := answer.value], x);
      var rest := ItemsTrace(e, w', site, id, items[1..], x);
      if cs.deviceId == x {
        var a := TryChangeSet(cs, OwnerFor(w, w.devices[x], site, items[0].role, id), RowFenced(w, w.devices[x], Some(id)));
        assert ItemsTrace(e, w, site, id, items, x) == [a] + rest;
        assert ([a] + rest)[1..] == rest;
        assert w'.devices[x] == StepRow(e, x, w.devices[x], a);
      } else {
        assert ItemsTrace(e, w, site, id, items, x) == rest;
      }
    }
  }

  lemma SingleStepRow(e: Env, x: string, d: Device, a: RowAction)
    ensures RunRow(e, x, d, [a]) == StepRow(e, x, d, a)
  {
    assert [a][1..] == [];
  }

  lemma ClaimAndQueueProjects(e: Env, w: World, site: string, id: nat, items: seq<QueueItem>, results: seq<Entry>, x: string)
    requires x in w.devices && ClaimAndQueue(e, w, site, id, items, results).1.Ok?
    ensures var w' := ClaimAndQueue(e, w, site, id, items, results).0;
            x in w'.devices && w'.devices[x] == RunRow(e, x, w.devices[x], ClaimTrace(e, w, site, id, items, x))
  {
    var w1 := Claimed(w, site, id);
    var flag := [SetFlag(w1.devices[x].flag)];
    SingleStepRow(e, x, w.devices[x], flag[0]);
    RunRowConcat(e, x, w.devices[x], flag, ItemsTrace(e, w1, site, id, items, x));
    ItemsProject(e, w1, site, id, items, map[], x);
  }

  lemma DraftProjects(w: World, c: DraftCall, x: string)
    requires x in w.devices
    ensures x in StepDraft(w, c).devices
    ensures StepDraft(w, c).devices[x] == w.devices[x].(flag := StepDraft(w, c).devices[x].flag)
  {
  }

  lemma DeviceCallProjects(e: Env, w: World, c: DeviceCall, x: string)
    requires x in w.devices
    ensures x in StepDevice(e, w, x, c).devices
    ensures StepDevice(e, w, x, c).devices[x] == RunRow(e, x, w.devices[x], DeviceTrace(w, w.devices[x], c))
  {
    var trace := DeviceTrace(w, w.devices[x], c);
    if !c.AddDevice? {
      SingleStepRow(e, x, w.devices[x], trace[0]);
      assert StepDevice(e, w, x, c).devices[x] == StepRow(e, x, w.devices[x], trace[0]);
    }
  }

  lemma OtherRowsUntouched(e: Env, w: World, c: DeviceCall, y: string, x: string)
    requires x in w.devices && x != y
    ensures x in StepDevice(e, w, y, c).devices && StepDevice(e, w, y, c).devices[x] == w.devices[x]
  {
  }

  lemma LeaseKeepsDevices(w: World, c: LeaseCall)
    ensures StepLease(w, c).devices == w.devices
  {
  }

  lemma CallProjects(e: Env, w: World, c: Call, x: string)
    requires x in w.devices
    ensures x in Step(e, w, c).devices
    ensures Step(e, w, c).devices[x] == RunRow(e, x, w.devices[x], CallTrace(e, w, c, x))
  {
    match c
    case OnDevice(y, call) =>
      if y == x {
        DeviceCallProjects(e, w, call, x);
      } else {
        OtherRowsUntouched(e, w, call, y, x);
      }
    case OnReport(y, report) =>
      if y == x {
        SingleStepRow(e, x, w.devices[x], GetReport(report));
      }
    case OnDraft(call) =>
      DraftProjects(w, call, x);
      SingleStepRow(e, x, w.devices[x], CallTrace(e, w, c, x)[0]);
    case OnLease(call) => LeaseKeepsDevices(w, call);
    case CallClaimAndQueue(site, id, items, results) =>
      if ClaimAndQueue(e, w, site, id, items, results).1.Ok? {
        ClaimAndQueueProjects(e, w, site, id, items, results, x);
      }
    case Tick(_) =>
  }

  ghost function RunTrace(e: Env, w: World, calls: seq<Call>, x: string): seq<RowAction>
    requires x in w.devices
    decreases calls
  {
    if calls == [] then [] else
      CallProjects(e, w, calls[0], x);
      CallTrace(e, w, calls[0], x) + RunTrace(e, Step(e, w, calls[0]), calls[1..], x)
  }

  /** Projection: the row after a run of the controller is the row after its own trace. */
  lemma {:induction false} RunProjects(e: Env, w: World, calls: seq<Call>, x: string)
    requires x in w.devices
    ensures x in Run(e, w, calls).devices
    ensures Run(e, w, calls).devices[x] == RunRow(e, x, w.devices[x], RunTrace(e, w, calls, x))
    decreases calls
  {
    if calls != [] {
      CallProjects(e, w, calls[0], x);
      var w' := Step(e, w, calls[0]);
      RunProjects(e, w', calls[1..], x);
      RunRowConcat(e, x, w.devices[x], CallTrace(e, w, calls[0], x), RunTrace(e, w', calls[1..], x));
    }
  }

  // ---- Lifted theorems -----------------------------------------------------------

  ghost predicate SlotsOk(e: Env, w: World) {
    forall x | x in w.devices :: SlotInvariant(e, x, w.devices[x])
  }

  lemma StepKeepsSlots(e: Env, w: World, c: Call)
    requires SlotsOk(e, w)
    ensures SlotsOk(e, Step(e, w, c))
  {
    forall x | x in Step(e, w, c).devices ensures SlotInvariant(e, x, Step(e, w, c).devices[x]) {
      if x in w.devices {
        CallProjects(e, w, c, x);
        RunKeepsSlot(e, x, w.devices[x], CallTrace(e, w, c, x));
      } else {
        NoCallInvents(e, w, c, x);
      }
    }
  }

  lemma {:induction false} ItemsKeepKeys(e: Env, w: World, site: string, id: nat, items: seq<QueueItem>, g: map<string, int>)
    requires QueueItems(e, w, site, id, items, g).Ok?
    ensures QueueItems(e, w, site, id, items, g).value.0.devices.Keys == w.devices.Keys
    decreases items
  {
    if items != [] {
      var cs := items[0].cs;
      var (w', answer) := QueueFor(e, w, site, items[0].role, cs.deviceId, cs, id);
      ItemsKeepKeys(e, w', site, id, items[1..], g[cs.deviceId := answer.value]);
    }
  }

  lemma NoCallInvents(e: Env, w: World, c: Call, x: string)
    requires x !in w.devices && x in Step(e, w, c).devices
    ensures c.OnDevice? && c.deviceCall.AddDevice?
    ensures Step(e, w, c).devices[x] == NewDevice(c.deviceCall.site, c.deviceCall.role, c.deviceCall.capable)
  {
    match c
    case OnDraft(call) => DraftKeepsKeys(w, call);
    case OnLease(call) => LeaseKeepsDevices(w, call);
    case CallClaimAndQueue(site, id, items, results) =>
      if ClaimAndQueue(e, w, site, id, items, results).1.Ok? {
        ItemsKeepKeys(e, Claimed(w, site, id), site, id, items, map[]);
      }
    case _ =>
  }

  /** In every reachable state every row satisfies the slot and generation invariant. */
  lemma {:induction false} RunsKeepSlots(e: Env, w: World, calls: seq<Call>)
    requires SlotsOk(e, w)
    ensures SlotsOk(e, Run(e, w, calls))
    decreases calls
  {
    if calls != [] {
      StepKeepsSlots(e, w, calls[0]);
      RunsKeepSlots(e, Step(e, w, calls[0]), calls[1..]);
    }
  }

  /** Generations never fall, whatever the interleaving. */
  lemma GenerationsNeverFall(e: Env, w: World, calls: seq<Call>, x: string)
    requires x in w.devices && SlotsOk(e, w)
    ensures x in Run(e, w, calls).devices && GenerationsGrow(w.devices[x], Run(e, w, calls).devices[x])
  {
    RunProjects(e, w, calls, x);
    RunKeepsSlot(e, x, w.devices[x], RunTrace(e, w, calls, x));
  }

  /** A device in RECOVERY_REQUIRED stays fenced in every run of the controller. */
  lemma RecoveryFenceInEveryRun(e: Env, w: World, calls: seq<Call>, x: string)
    requires x in w.devices && SlotInvariant(e, x, w.devices[x]) && NeedsRecoveryCs(w.devices[x])
    ensures x in Run(e, w, calls).devices && RowTheorems.FenceHolds(w.devices[x], Run(e, w, calls).devices[x])
  {
    RunProjects(e, w, calls, x);
    RowTheorems.RecoveryFenceIsPermanent(e, x, w.devices[x], RunTrace(e, w, calls, x));
  }

  // ---- Exactly once in every run --------------------------------------------------

  /** The row of device x, remembering the changeset, stores a report about another one. */
  predicate CallForgets(w: World, c: Call, x: string, id: string)
    requires x in w.devices
  {
    c.OnReport? && c.x == x && Forgets(x, w.devices[x], GetReport(c.report), id)
  }

  /** How often a run of calls makes device x forget the changeset. */
  ghost function CallForgettings(e: Env, w: World, calls: seq<Call>, x: string, id: string): nat
    requires x in w.devices
    decreases calls
  {
    if calls == [] then 0 else
      CallProjects(e, w, calls[0], x);
      One(CallForgets(w, calls[0], x, id)) + CallForgettings(e, Step(e, w, calls[0]), calls[1..], x, id)
  }

  ghost predicate NoReports(actions: seq<RowAction>) {
    forall a | a in actions :: !a.GetReport?
  }

  lemma {:induction false} NothingForgotten(e: Env, x: string, d: Device, id: string, actions: seq<RowAction>)
    requires NoReports(actions)
    ensures Forgettings(e, x, d, id, actions) == 0
    decreases actions
  {
    if actions != [] {
      assert actions[0] in actions;
      NothingForgotten(e, x, StepRow(e, x, d, actions[0]), id, actions[1..]);
    }
  }

  lemma {:induction false} ForgettingsConcat(e: Env, x: string, d: Device, id: string, xs: seq<RowAction>, ys: seq<RowAction>)
    ensures Forgettings(e, x, d, id, xs + ys) == Forgettings(e, x, d, id, xs) + Forgettings(e, x, RunRow(e, x, d, xs), id, ys)
    decreases xs
  {
    if xs == [] {
      assert xs + ys == ys;
    } else {
      assert (xs + ys)[1..] == xs[1..] + ys;
      ForgettingsConcat(e, x, StepRow(e, x, d, xs[0]), id, xs[1..], ys);
    }
  }

  lemma {:induction false} ItemsAreNoReports(e: Env, w: World, site: string, id: nat, items: seq<QueueItem>, x: string)
    ensures NoReports(ItemsTrace(e, w, site, id, items, x))
    decreases items
  {
    if items != [] {
      var w' := QueueFor(e, w, site, items[0].role, items[0].cs.deviceId, items[0].cs, id).0;
      ItemsAreNoReports(e, w', site, id, items[1..], x);
    }
  }

  lemma CallForgetsAsItsTrace(e: Env, w: World, c: Call, x: string, id: string)
    requires x in w.devices
    ensures Forgettings(e, x, w.devices[x], id, CallTrace(e, w, c, x)) == One(CallForgets(w, c, x, id))
  {
    var trace := CallTrace(e, w, c, x);
    if c.OnReport? && c.x == x {
      assert trace[1..] == [];
    } else {
      if c.CallClaimAndQueue? && ClaimAndQueue(e, w, c.site, c.id, c.items, c.results).1.Ok? {
        ItemsAreNoReports(e, Claimed(w, c.site, c.id), c.site, c.id, c.items, x);
      }
      NothingForgotten(e, x, w.devices[x], id, trace);
    }
  }

  lemma {:induction false} RunForgetsAsItsTrace(e: Env, w: World, calls: seq<Call>, x: string, id: string)
    requires x in w.devices
    ensures Forgettings(e, x, w.devices[x], id, RunTrace(e, w, calls, x)) == CallForgettings(e, w, calls, x, id)
    decreases calls
  {
    if calls != [] {
      var w' := Step(e, w, calls[0]);
      CallProjects(e, w, calls[0], x);
      CallForgetsAsItsTrace(e, w, calls[0], x, id);
      ForgettingsConcat(e, x, w.devices[x], id, CallTrace(e, w, calls[0], x), RunTrace(e, w', calls[1..], x));
      RunForgetsAsItsTrace(e, w', calls[1..], x, id);
    }
  }

  /**
   * Exactly once in every run of the controller: the placements of a changeset
   * on its device balance the reports that made the row forget it. A changeset
   * that is never forgotten is placed at most once, whatever crashes, claims,
   * operations and other changesets come in between, and all successful
   * attempts return one generation.
   */
  lemma ExactlyOnceInEveryRun(e: Env, w: World, calls: seq<Call>, x: string, id: string)
    requires x in w.devices && SlotInvariant(e, x, w.devices[x])
    ensures var trace := RunTrace(e, w, calls, x);
            var d := w.devices[x];
            && x in Run(e, w, calls).devices
            && Placements(e, x, d, id, trace) + One(Remembers(d, id))
               == CallForgettings(e, w, calls, x, id) + One(Remembers(Run(e, w, calls).devices[x], id))
            && (CallForgettings(e, w, calls, x, id) == 0 ==>
                  Placements(e, x, d, id, trace) <= 1 && AllEqual(Answers(e, x, d, id, trace)))
  {
    var trace := RunTrace(e, w, calls, x);
    RunProjects(e, w, calls, x);
    RunForgetsAsItsTrace(e, w, calls, x, id);
    PlacementsBalance(e, x, w.devices[x], id, trace);
    if CallForgettings(e, w, calls, x, id) == 0 {
      ExactlyOnce(e, x, w.devices[x], id, trace);
    }
  }

  /** No other rollout of the device's site is RUNNING and was updated within twenty minutes. */
  predicate SiteFree(w: World, d: Device, except: Option<nat>) {
    forall i | 0 <= i < |w.rollouts| && Some(w.rollouts[i].site) == d.site && w.rollouts[i].status == Running && except != Some(i) ::
      w.rollouts[i].updatedAt < w.now - 1_200_000_000
  }

  /** The rollout is RUNNING in the device's own site, and the device still has the role it was planned with. */
  predicate RolloutMayAsk(w: World, d: Device, site: string, role: string, id: nat) {
    && d.site == Some(site) && (d.role == Some(role) || (d.role.None? && role == "AP"))
    && id < |w.rollouts| && w.rollouts[id].site == site && w.rollouts[id].status == Running
  }

  lemma FenceIsNotFree(w: World, d: Device, except: Option<nat>)
    ensures RowFenced(w, d, except) <==> !SiteFree(w, d, except)
  {
  }

  /**
   * After any calls, a changeset is placed directly if and only if the row is
   * ready, no rollout of the site is at work, and every memory of the changeset
   * was forgotten. It then only fills the slot, and otherwise nothing changes.
   */
  lemma RetryInEveryRun(e: Env, w: World, calls: seq<Call>, x: string, cs: ChangeSet)
    requires x in w.devices && SlotInvariant(e, x, w.devices[x])
    ensures var w1 := Run(e, w, calls);
            var memories := One(Remembers(w.devices[x], cs.id)) + Placements(e, x, w.devices[x], cs.id, RunTrace(e, w, calls, x));
            && x in w1.devices
            && var d1 := w1.devices[x];
            && Step(e, w1, OnDevice(x, CallQueue(cs))) ==
               if && Ready(e, x, d1, cs, NoOwner, false) && SiteFree(w1, d1, None)
                  && CallForgettings(e, w, calls, x, cs.id) == memories
               then w1.(devices := w1.devices[x := Filled(d1, cs)]) else w1
  {
    var w1 := Run(e, w, calls);
    RunProjects(e, w, calls, x);
    var d1, fenced := w1.devices[x], RowFenced(w1, w1.devices[x], None);
    RunForgetsAsItsTrace(e, w, calls, x, cs.id);
    FenceIsNotFree(w1, d1, None);
    RetryIsPlacedExactly(e, x, w.devices[x], cs, RunTrace(e, w, calls, x), NoOwner, fenced);
    assert w1.devices[x := d1] == w1.devices;
  }

  /** The same on behalf of a rollout: it must hold the site itself and know the device's role. */
  lemma OwnedRetryInEveryRun(e: Env, w: World, calls: seq<Call>, x: string, cs: ChangeSet, site: string, role: string, id: nat)
    requires x in w.devices && SlotInvariant(e, x, w.devices[x])
    ensures var w1 := Run(e, w, calls);
            var memories := One(Remembers(w.devices[x], cs.id)) + Placements(e, x, w.devices[x], cs.id, RunTrace(e, w, calls, x));
            && x in w1.devices
            && var d1 := w1.devices[x];
            && Step(e, w1, OnDevice(x, CallQueueFor(site, role, cs, id))) ==
               if && Ready(e, x, d1, cs, NoOwner, false) && RolloutMayAsk(w1, d1, site, role, id) && SiteFree(w1, d1, Some(id))
                  && CallForgettings(e, w, calls, x, cs.id) == memories
               then w1.(devices := w1.devices[x := Filled(d1, cs)]) else w1
  {
    var w1 := Run(e, w, calls);
    RunProjects(e, w, calls, x);
    var d1, fenced := w1.devices[x], RowFenced(w1, w1.devices[x], Some(id));
    var owner := OwnerFor(w1, d1, site, role, id);
    RunForgetsAsItsTrace(e, w, calls, x, cs.id);
    FenceIsNotFree(w1, d1, Some(id));
    RetryIsPlacedExactly(e, x, w.devices[x], cs, RunTrace(e, w, calls, x), owner, fenced);
    assert w1.devices[x := d1] == w1.devices;
  }

  /**
   * Operations in every run of the controller: placements balance
   * displacements, and a retry of an unbound operation that was not displaced
   * is told its generation exactly when no report without one became the last
   * word.
   */
  lemma OperationsInEveryRun(e: Env, w: World, calls: seq<Call>, x: string, op: DeviceOperation, g: int)
    requires x in w.devices && SlotInvariant(e, x, w.devices[x])
    ensures var trace := RunTrace(e, w, calls, x);
            var d := w.devices[x];
            var w1 := Run(e, w, calls);
            && x in w1.devices
            && OpPlacements(e, x, d, op.id, trace) + One(KnowsOp(d, op.id))
               == Displacements(e, x, d, op.id, trace) + One(KnowsOp(w1.devices[x], op.id))
            && (Displacements(e, x, d, op.id, trace) == 0 && KnowsAt(d, op, g) && Tells(d)
                && OperationParses(op) && OperationGeneration(op) == 0 && !NeedsRecoveryOp(w1.devices[x]) ==>
                  QueueOp(w1, x, op) == (w1, Ok(if DropsInRun(e, x, d, trace) then 0 else g)))
  {
    var trace := RunTrace(e, w, calls, x);
    var d := w.devices[x];
    var w1 := Run(e, w, calls);
    RunProjects(e, w, calls, x);
    OperationsBalance(e, x, d, op.id, trace);
    if && Displacements(e, x, d, op.id, trace) == 0 && KnowsAt(d, op, g) && Tells(d)
       && OperationParses(op) && OperationGeneration(op) == 0 && !NeedsRecoveryOp(w1.devices[x])
    {
      RetryIsToldExactly(e, x, d, op, trace, RowFenced(w1, w1.devices[x], None), g);
      assert w1.devices[x := w1.devices[x]] == w1.devices;
    }
  }

  /** After any calls, an operation is placed if and only if the row is ready, the site is free and every earlier placement of it was displaced. */
  lemma OperationPlacedInEveryRun(e: Env, w: World, calls: seq<Call>, x: string, op: DeviceOperation)
    requires x in w.devices && SlotInvariant(e, x, w.devices[x])
    ensures var w1 := Run(e, w, calls);
            var trace := RunTrace(e, w, calls, x);
            var known := One(KnowsOp(w.devices[x], op.id)) + OpPlacements(e, x, w.devices[x], op.id, trace);
            && x in w1.devices
            && var d1 := w1.devices[x];
            && Step(e, w1, OnDevice(x, CallQueueOp(op))) ==
               if OpReady(d1, op, false) && SiteFree(w1, d1, None) && Displacements(e, x, w.devices[x], op.id, trace) == known
               then w1.(devices := w1.devices[x := OpFilled(d1, op)]) else w1
  {
    var w1, trace := Run(e, w, calls), RunTrace(e, w, calls, x);
    RunProjects(e, w, calls, x);
    var d1, fenced := w1.devices[x], RowFenced(w1, w1.devices[x], None);
    FenceIsNotFree(w1, d1, None);
    OperationIsPlacedExactly(e, x, w.devices[x], op, trace, fenced);
    assert w1.devices[x := d1] == w1.devices;
  }

  // ---- Runs without another changeset ------------------------------------------------

  /** On device x the call queues no other changeset. */
  ghost predicate QueuesNoOther(c: Call, x: string, id: string) {
    match c
    case OnDevice(y, call) => y == x ==> (call.CallQueue? ==> call.cs.id == id) && (call.CallQueueFor? ==> call.ownedCs.id == id)
    case CallClaimAndQueue(_, _, items, _) => forall i | 0 <= i < |items| :: items[i].cs.deviceId == x ==> items[i].cs.id == id
    case _ => true
  }

  lemma {:induction false} ItemsTraceNoOther(e: Env, w: World, site: string, rollout: nat, items: seq<QueueItem>, x: string, id: string)
    requires forall i | 0 <= i < |items| :: items[i].cs.deviceId == x ==> items[i].cs.id == id
    ensures NoOther(ItemsTrace(e, w, site, rollout, items, x), id)
    decreases items
  {
    if items != [] {
      var w' := QueueFor(e, w, site, items[0].role, items[0].cs.deviceId, items[0].cs, rollout).0;
      ItemsTraceNoOther(e, w', site, rollout, items[1..], x, id);
    }
  }

  lemma {:induction false} RunTraceNoOther(e: Env, w: World, calls: seq<Call>, x: string, id: string)
    requires x in w.devices
    requires forall c | c in calls :: QueuesNoOther(c, x, id)
    ensures NoOther(RunTrace(e, w, calls, x), id)
    decreases calls
  {
    if calls != [] {
      var c := calls[0];
      assert c in calls;
      CallProjects(e, w, c, x);
      if c.CallClaimAndQueue? && ClaimAndQueue(e, w, c.site, c.id, c.items, c.results).1.Ok? {
        ItemsTraceNoOther(e, Claimed(w, c.site, c.id), c.site, c.id, c.items, x, id);
      }
      assert NoOther(CallTrace(e, w, c, x), id);
      RunTraceNoOther(e, Step(e, w, c), calls[1..], x, id);
    }
  }
}
