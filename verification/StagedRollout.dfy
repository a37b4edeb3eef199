/**
 * One rollout with any number of workers, some stale, some crashed, mixed with
 * any other calls: devices are changed strictly in order, one at a time.
 */
module StagedRollout {
  import opened Common
  import opened ChangeSets
  import opened DeviceSlot
  import opened Controller
  import RowProjection
  import opened Worker

  // ---- The system ---------------------------------------------------------------

  /** The controller and the live workers of one rollout, by their fencing token. */
  datatype Fleet = Fleet(w: World, workers: map<nat, WorkerState>)

  datatype Event =
    | External(call: Call)
    | Spawn(leaseDuration: int)
    | Work(token: nat, duration: int)
    | Crash(token: nat)

  /**
   * The rollout under study: its row, its plan, the device ids in order, and how
   * results and order correspond: the j-th result is for device `order[pos[j]]`,
   * and the i-th device has its result at `place[i]`.
   */
  datatype Setup = Setup(r: nat, plan: Plan, order: seq<string>, pos: seq<nat>, place: seq<nat>, started: nat)

  function StepFleet(e: Env, s: Setup, f: Fleet, ev: Event): Fleet {
    match ev
    case External(call) => f.(w := Step(e, f.w, call))
    case Spawn(duration) =>
      var (w', answer) := ClaimLease(f.w, duration, s.r);
      if answer.Ok? then Fleet(w', f.workers[answer.value.token := WorkerState(answer.value, Reading)]) else f
    case Work(token, duration) =>
      if token !in f.workers then f else
        var (w', k) := WorkerStep(e, f.w, f.workers[token], duration);
        Fleet(w', if k.Some? then f.workers[token := k.value] else f.workers - {token})
    case Crash(token) => f.(workers := f.workers - {token})
  }

  function RunFleet(e: Env, s: Setup, f: Fleet, events: seq<Event>): Fleet
    decreases events
  {
    if events == [] then f else RunFleet(e, s, StepFleet(e, s, f, events[0]), events[1..])
  }

  ghost predicate SetupOk(s: Setup) {
    && s.plan.devices != []
    && |s.order| == |s.pos| && Inverse(s.pos, s.place)
    && s.order == IdsOf(SortDevices(s.plan.devices))
    && (forall i, j | 0 <= i < j < |s.order| :: s.order[i] != s.order[j])
  }

  /** Two permutations of the same positions, each undoing the other. */
  ghost predicate Inverse(pos: seq<nat>, place: seq<nat>) {
    && |pos| == |place|
    && (forall j | 0 <= j < |pos| :: pos[j] < |pos| && place[pos[j]] == j)
    && (forall i | 0 <= i < |place| :: place[i] < |pos| && pos[place[i]] == i)
  }

  function IdsOf(devices: seq<PlanDevice>): seq<string> {
    seq(|devices|, i requires 0 <= i < |devices| => devices[i].id)
  }

  /** The changeset id the rollout derives for the i-th device in order. */
  function CsOf(e: Env, s: Setup, i: nat): string
    requires i < |s.order|
  {
    RolloutChangeSetId(e, e.rolloutText(s.r), s.order[i])
  }

  /** The first phase as the orchestrator prepares it: only the first device is queued. */
  ghost predicate FirstPhase(e: Env, s: Setup, items: seq<QueueItem>, results: seq<Entry>) {
    && |items| == 1 && |results| == |s.pos| && 0 < |s.order|
    && items[0].cs.deviceId == s.order[0] && items[0].cs.id == CsOf(e, s, 0)
    && forall j | 0 <= j < |results| ::
         && s.pos[j] < |s.order|
         && results[j].deviceId == Some(s.order[s.pos[j]]) && results[j].csId == Some(CsOf(e, s, s.pos[j]))
         && results[j].csState.None? && results[j].status == if s.pos[j] == 0 then EntryQueued else Waiting
  }

  /** No other call uses this rollout's changeset ids or holds a lease on it. */
  ghost predicate Foreign(e: Env, s: Setup, id: string) {
    forall i | 0 <= i < |s.order| :: CsOf(e, s, i) != id
  }

  ghost predicate Allowed(e: Env, s: Setup, c: Call) {
    match c
    case OnDevice(_, call) => (call.CallQueue? ==> Foreign(e, s, call.cs.id)) && (call.CallQueueFor? ==> Foreign(e, s, call.ownedCs.id))
    case OnLease(call) => if call.CallClaimLease? then call.id != s.r else call.lease.rolloutId != s.r
    case CallClaimAndQueue(_, id, items, results) =>
      if id == s.r then FirstPhase(e, s, items, results)
      else forall i | 0 <= i < |items| :: Foreign(e, s, items[i].cs.id)
    case _ => true
  }

  ghost predicate AllAllowed(e: Env, s: Setup, events: seq<Event>) {
    forall ev | ev in events :: ev.External? ==> Allowed(e, s, ev.call)
  }

  // ---- The shape of the results -----------------------------------------------------

  /** The entry of the i-th device when the first t devices are done. */
  ghost predicate EntryFits(en: Entry, x: string, csId: string, i: nat, t: nat) {
    && en.deviceId == Some(x) && en.csId == Some(csId)
    && (if i < t then EntryTerminal(en) && en.status == (if EntryCommitted(en) then Success else EntryFailed) else en.csState.None?)
    && (i == t ==> en.status.Waiting? || en.status.EntryQueued?)
    && (i > t ==> en.status.Waiting?)
  }

  ghost predicate Shape(e: Env, s: Setup, results: seq<Entry>, t: nat) {
    && SetupOk(s) && |results| == |s.pos| && t <= |s.order|
    && (forall j | 0 <= j < |results| :: EntryFits(results[j], s.order[s.pos[j]], CsOf(e, s, s.pos[j]), s.pos[j], t))
    && (forall j, k | 0 <= j < |results| && 0 <= k < |results| ::
          s.pos[j] < t && !EntryCommitted(results[j]) ==> s.pos[j] == t - 1 && (s.pos[k] == t ==> results[k].status.Waiting?))
  }

  ghost function PlacesBelow(pos: seq<nat>, t: nat): set<nat> {
    set j | 0 <= j < |pos| && pos[j] < t
  }

  lemma {:induction false} PlacesBelowCount(pos: seq<nat>, place: seq<nat>, t: nat)
    requires Inverse(pos, place) && t <= |pos|
    ensures |PlacesBelow(pos, t)| == t
  {
    if t == 0 {
      assert PlacesBelow(pos, 0) == {};
    } else {
      PlacesBelowCount(pos, place, t - 1);
      var j := place[t - 1];
      assert PlacesBelow(pos, t) == PlacesBelow(pos, t - 1) + {j};
    }
  }

  ghost function DonePlaces(results: seq<Entry>): set<nat> {
    set j | 0 <= j < |results| && CountsDone(results[j])
  }

  lemma {:induction false} DoneCountIsCardinality(results: seq<Entry>)
    ensures DoneCount(results) == |DonePlaces(results)|
  {
    if results == [] {
      assert DonePlaces(results) == {};
    } else {
      var n := |results| - 1;
      DoneCountIsCardinality(results[..n]);
      assert DonePlaces(results) == DonePlaces(results[..n]) + (if CountsDone(results[n]) then {n} else {});
    }
  }

  /** In this shape the worker's terminal count is the number of devices done. */
  lemma ShapeCounts(e: Env, s: Setup, results: seq<Entry>, t: nat)
    requires Shape(e, s, results, t)
    ensures DoneCount(results) == t
  {
    DoneCountIsCardinality(results);
    PlacesBelowCount(s.pos, s.place, t);
    forall j | 0 <= j < |results| ensures CountsDone(results[j]) <==> s.pos[j] < t {
      assert EntryFits(results[j], s.order[s.pos[j]], CsOf(e, s, s.pos[j]), s.pos[j], t);
    }
    assert DonePlaces(results) == PlacesBelow(s.pos, t);
  }

  lemma {:induction false} NoFailures(results: seq<Entry>)
    ensures FailedCount(results) == 0 <==> forall j | 0 <= j < |results| :: !CountsFailed(results[j])
  {
    if results != [] {
      var n := |results| - 1;
      NoFailures(results[..n]);
      assert forall j | 0 <= j < n :: results[..n][j] == results[j];
    }
  }

  /** Two readings of the results that show the same progress; marks are never taken back. */
  ghost predicate SameProgress(old': seq<Entry>, new': seq<Entry>) {
    && |old'| == |new'|
    && forall j | 0 <= j < |old'| ::
         && old'[j].deviceId == new'[j].deviceId && old'[j].csId == new'[j].csId && old'[j].csState == new'[j].csState
         && (old'[j].status == new'[j].status || (old'[j].status.Waiting? && new'[j].status.EntryQueued?))
  }

  lemma SameShape(e: Env, s: Setup, old': seq<Entry>, new': seq<Entry>, t: nat)
    requires SameProgress(old', new') && Shape(e, s, new', t)
    ensures Shape(e, s, old', t)
  {
    forall j | 0 <= j < |old'| ensures EntryFits(old'[j], s.order[s.pos[j]], CsOf(e, s, s.pos[j]), s.pos[j], t) {
      assert EntryFits(new'[j], s.order[s.pos[j]], CsOf(e, s, s.pos[j]), s.pos[j], t);
    }
  }

  // ---- The rows of the rollout's devices ------------------------------------------------

  /** The row never held this changeset. */
  predicate NeverHad(d: Device, csId: string) {
    && (d.pendingCs.Some? ==> d.pendingCs.value.id != csId)
    && (d.lastCs.Some? ==> d.lastCs.value.id != csId)
  }

  /** The changeset is finished on this row: not pending, and its last report, if still stored, says so. */
  predicate DoneOnRow(d: Device, csId: string, state: AgentState) {
    && (d.pendingCs.Some? ==> d.pendingCs.value.id != csId)
    && (d.lastCs.Some? && d.lastCs.value.id == csId ==> d.lastCs.value.state == state)
  }

  predicate RowFits(d: Device, en: Entry, csId: string, i: nat, t: nat, queued: bool) {
    && (i < t && en.csState.Some? ==> DoneOnRow(d, csId, en.csState.value))
    && (i > t || (i == t && queued && en.status.Waiting?) ==> NeverHad(d, csId))
  }

  ghost predicate RowsFit(e: Env, s: Setup, devices: map<string, Device>, results: seq<Entry>, t: nat, queued: bool)
    requires Shape(e, s, results, t)
  {
    forall j | 0 <= j < |results| && s.order[s.pos[j]] in devices ::
      RowFits(devices[s.order[s.pos[j]]], results[j], CsOf(e, s, s.pos[j]), s.pos[j], t, queued)
  }

  ghost predicate RowsFresh(e: Env, s: Setup, devices: map<string, Device>) {
    forall i | 0 <= i < |s.order| && s.order[i] in devices :: NeverHad(devices[s.order[i]], CsOf(e, s, i))
  }

  lemma RowActionKeeps(e: Env, x: string, d: Device, a: RowAction, csId: string, state: AgentState)
    requires SlotInvariant(e, x, d) && (a.TryChangeSet? ==> a.cs.id != csId) && Terminal(state)
    ensures NeverHad(d, csId) ==> NeverHad(StepRow(e, x, d, a), csId)
    ensures DoneOnRow(d, csId, state) ==> DoneOnRow(StepRow(e, x, d, a), csId, state)
  {
  }

  ghost predicate AvoidsId(actions: seq<RowAction>, csId: string) {
    forall a | a in actions :: a.TryChangeSet? ==> a.cs.id != csId
  }

  lemma {:induction false} RowRunKeeps(e: Env, x: string, d: Device, actions: seq<RowAction>, csId: string, state: AgentState)
    requires SlotInvariant(e, x, d) && AvoidsId(actions, csId) && Terminal(state)
    ensures NeverHad(d, csId) ==> NeverHad(RunRow(e, x, d, actions), csId)
    ensures DoneOnRow(d, csId, state) ==> DoneOnRow(RunRow(e, x, d, actions), csId, state)
    decreases actions
  {
    if actions != [] {
      assert actions[0] in actions;
      RowActionKeeps(e, x, d, actions[0], csId, state);
      StepKeepsSlot(e, x, d, actions[0]);
      RowRunKeeps(e, x, StepRow(e, x, d, actions[0]), actions[1..], csId, state);
    }
  }

  /** The call queues nothing under this id on this device. */
  ghost predicate CallAvoids(c: Call, x: string, csId: string) {
    match c
    case OnDevice(y, call) => y == x ==> (call.CallQueue? ==> call.cs.id != csId) && (call.CallQueueFor? ==> call.ownedCs.id != csId)
    case CallClaimAndQueue(_, _, items, _) => forall i | 0 <= i < |items| :: items[i].cs.deviceId == x ==> items[i].cs.id != csId
    case _ => true
  }

  lemma {:induction false} ItemsTraceAvoids(e: Env, w: World, site: string, id: nat, items: seq<QueueItem>, x: string, csId: string)
    requires forall i | 0 <= i < |items| :: items[i].cs.deviceId == x ==> items[i].cs.id != csId
    ensures AvoidsId(RowProjection.ItemsTrace(e, w, site, id, items, x), csId)
    decreases items
  {
    if items != [] {
      var w' := QueueFor(e, w, site, items[0].role, items[0].cs.deviceId, items[0].cs, id).0;
      ItemsTraceAvoids(e, w', site, id, items[1..], x, csId);
    }
  }

  lemma CallTraceAvoids(e: Env, w: World, c: Call, x: string, csId: string)
    requires x in w.devices && CallAvoids(c, x, csId)
    ensures AvoidsId(RowProjection.CallTrace(e, w, c, x), csId)
  {
    if c.CallClaimAndQueue? && ClaimAndQueue(e, w, c.site, c.id, c.items, c.results).1.Ok? {
      ItemsTraceAvoids(e, Claimed(w, c.site, c.id), c.site, c.id, c.items, x, csId);
    }
  }

  /** A call that avoids the id keeps what is known about the row. */
  lemma CallKeepsRow(e: Env, w: World, c: Call, x: string, csId: string, state: AgentState)
    requires RowProjection.SlotsOk(e, w) && CallAvoids(c, x, csId) && Terminal(state)
    requires x in Step(e, w, c).devices
    ensures (x in w.devices ==> NeverHad(w.devices[x], csId)) ==> NeverHad(Step(e, w, c).devices[x], csId)
    ensures (x in w.devices ==> DoneOnRow(w.devices[x], csId, state)) ==> DoneOnRow(Step(e, w, c).devices[x], csId, state)
  {
    if x in w.devices {
      RowProjection.CallProjects(e, w, c, x);
      CallTraceAvoids(e, w, c, x, csId);
      RowRunKeeps(e, x, w.devices[x], RowProjection.CallTrace(e, w, c, x), csId, state);
    } else {
      RowProjection.NoCallInvents(e, w, c, x);
    }
  }
}
