/** Two results about rollout results: the all-or-nothing claim and the incremental status. */
module RolloutResults {
  import opened Common
  import opened ChangeSets
  import opened DeviceSlot
  import opened Controller
  import RowProjection
  import Leases

  // ---- The all-or-nothing claim -------------------------------------------------

  /** Item i is the last one for its device. */
  predicate LastForDevice(items: seq<QueueItem>, i: nat)
    requires i < |items|
  {
    forall j | i < j < |items| :: items[j].cs.deviceId != items[i].cs.deviceId
  }

  /** The changeset is in the slot, or was the last one reported, at generation g. */
  predicate HeldAt(d: Device, cs: ChangeSet, g: int) {
    || (d.pendingCs.Some? && d.pendingCs.value.id == cs.id && d.pendingCs.value.planHash == cs.planHash && d.pendingCs.value.generation == Some(g))
    || (d.pendingCs.None? && d.lastCs.Some? && d.lastCs.value.id == cs.id && d.lastCs.value.planHash == cs.planHash && d.lastCs.value.generation == g)
  }

  ghost predicate ItemHeld(w: World, item: QueueItem, generations: map<string, int>) {
    var x := item.cs.deviceId;
    x in w.devices && x in generations && HeldAt(w.devices[x], item.cs, generations[x])
  }

  ghost function ItemDevices(items: seq<QueueItem>): set<string> {
    if items == [] then {} else {items[0].cs.deviceId} + ItemDevices(items[1..])
  }

  lemma {:induction false} ItemDevicesAre(items: seq<QueueItem>, x: string)
    ensures x in ItemDevices(items) <==> exists j | 0 <= j < |items| :: items[j].cs.deviceId == x
  {
    if items != [] {
      var rest := items[1..];
      ItemDevicesAre(rest, x);
      if j :| 0 <= j < |rest| && rest[j].cs.deviceId == x {
        assert items[j + 1].cs.deviceId == x;
      }
      if j :| 0 <= j < |items| && items[j].cs.deviceId == x {
        assert j > 0 ==> rest[j - 1].cs.deviceId == x;
      }
    }
  }

  lemma QueueForHolds(e: Env, w: World, site: string, role: string, cs: ChangeSet, id: nat)
    requires RowProjection.SlotsOk(e, w) && QueueFor(e, w, site, role, cs.deviceId, cs, id).1.Ok?
    ensures var (w', answer) := QueueFor(e, w, site, role, cs.deviceId, cs, id);
            RowProjection.SlotsOk(e, w') && cs.deviceId in w'.devices && HeldAt(w'.devices[cs.deviceId], cs, answer.value)
  {
    RowProjection.StepKeepsSlots(e, w, OnDevice(cs.deviceId, CallQueueFor(site, role, cs, id)));
    assert SlotInvariant(e, cs.deviceId, w.devices[cs.deviceId]);
  }

  ghost predicate Untouched(items: seq<QueueItem>, w: World, w': World, g: map<string, int>, g': map<string, int>) {
    && w'.devices.Keys == w.devices.Keys
    && g'.Keys == g.Keys + ItemDevices(items)
    && (forall x | x in w.devices && x !in ItemDevices(items) :: w'.devices[x] == w.devices[x])
    && (forall x | x in g && x !in ItemDevices(items) :: g'[x] == g[x])
  }

  lemma {:induction false} ItemsTouchOnlyTheirDevices(e: Env, w: World, site: string, id: nat, items: seq<QueueItem>, g: map<string, int>)
    requires QueueItems(e, w, site, id, items, g).Ok?
    ensures var (w', g') := QueueItems(e, w, site, id, items, g).value; Untouched(items, w, w', g, g')
    decreases items
  {
    if items != [] {
      var cs := items[0].cs;
      var (w1, answer) := QueueFor(e, w, site, items[0].role, cs.deviceId, cs, id);
      ItemsTouchOnlyTheirDevices(e, w1, site, id, items[1..], g[cs.deviceId := answer.value]);
    }
  }

  lemma {:induction false} ItemsHold(e: Env, w: World, site: string, id: nat, items: seq<QueueItem>, g: map<string, int>, i: nat)
    requires RowProjection.SlotsOk(e, w) && QueueItems(e, w, site, id, items, g).Ok?
    requires i < |items| && LastForDevice(items, i)
    ensures var (w', g') := QueueItems(e, w, site, id, items, g).value; ItemHeld(w', items[i], g')
    decreases items
  {
    var cs, rest := items[0].cs, items[1..];
    var (w1, answer) := QueueFor(e, w, site, items[0].role, cs.deviceId, cs, id);
    var g1 := g[cs.deviceId := answer.value];
    QueueForHolds(e, w, site, items[0].role, cs, id);
    if i > 0 {
      ItemsHold(e, w1, site, id, rest, g1, i - 1);
    } else {
      ItemsTouchOnlyTheirDevices(e, w1, site, id, rest, g1);
      ItemDevicesAre(rest, cs.deviceId);
    }
  }

  /** Exactly one entry names the device, and it records the generation. */
  ghost predicate RecordedOnce(results: seq<Entry>, x: string, generation: int) {
    exists i | 0 <= i < |results| ::
      && results[i].deviceId == Some(x) && results[i].generation == Some(generation)
      && forall j | 0 <= j < |results| && j != i :: results[j].deviceId != Some(x)
  }

  ghost predicate EveryItemHeld(w: World, items: seq<QueueItem>, g: map<string, int>) {
    && g.Keys == ItemDevices(items)
    && forall i | 0 <= i < |items| && LastForDevice(items, i) :: ItemHeld(w, items[i], g)
  }

  ghost predicate ResultsRecord(results: seq<Entry>, g: map<string, int>) {
    && (forall x | x in g :: RecordedOnce(results, x, g[x]))
    && (forall i | 0 <= i < |results| :: results[i].deviceId.Some? && (results[i].deviceId.value !in g ==> results[i].status.Waiting?))
  }

  /** The prepared entries are stored as they are, apart from generations. */
  predicate SameButGenerations(prepared: seq<Entry>, stored: seq<Entry>) {
    |stored| == |prepared| && forall i | 0 <= i < |stored| :: stored[i] == prepared[i].(generation := stored[i].generation)
  }

  /** Of the rollout's own row only status, results and the time of the change are new. */
  predicate OnlyQueued(w: World, before: Rollout, after: Rollout) {
    after == before.(status := Queued, claimToken := None, results := after.results, updatedAt := w.now)
  }

  lemma QueuedItemsAreHeld(e: Env, w: World, site: string, id: nat, items: seq<QueueItem>)
    requires RowProjection.SlotsOk(e, w) && QueueItems(e, w, site, id, items, map[]).Ok?
    ensures var (w', g) := QueueItems(e, w, site, id, items, map[]).value; EveryItemHeld(w', items, g)
  {
    ItemsTouchOnlyTheirDevices(e, w, site, id, items, map[]);
    var (w', g) := QueueItems(e, w, site, id, items, map[]).value;
    forall i | 0 <= i < |items| && LastForDevice(items, i) ensures ItemHeld(w', items[i], g) {
      ItemsHold(e, w, site, id, items, map[], i);
    }
  }

  lemma FittingResultsRecord(results: seq<Entry>, g: map<string, int>)
    requires ResultsFit(results, g)
    ensures ResultsRecord(WithGenerations(results, g), g)
  {
    forall x | x in g ensures RecordedOnce(WithGenerations(results, g), x, g[x]) {
      FittingResultsRecordOnce(results, g, x);
    }
  }

  /**
   * All or nothing: a refused claim changes no table; an accepted one leaves
   * the rollout QUEUED, the last changeset of every item's device pending on it
   * or last reported by it at the recorded generation, each such device exactly
   * once in the results, and every other entry WAITING.
   */
  lemma ClaimIsAllOrNothing(e: Env, w: World, site: string, id: nat, items: seq<QueueItem>, results: seq<Entry>)
    requires RowProjection.SlotsOk(e, w)
    ensures var (w', answer) := ClaimAndQueue(e, w, site, id, items, results);
            if answer.Err? then w' == w
            else
              && id < |w.rollouts| && w.rollouts[id].status.Draft?
              && |w'.rollouts| == |w.rollouts| && w'.rollouts[id].status.Queued? && w'.rollouts[id].claimToken.None?
              && EveryItemHeld(w', items, answer.value)
              && ResultsRecord(w'.rollouts[id].results, answer.value)
  {
    if ClaimAndQueue(e, w, site, id, items, results).1.Ok? {
      var w1 := Claimed(w, site, id);
      QueuedItemsAreHeld(e, w1, site, id, items);
      var (w2, g) := QueueItems(e, w1, site, id, items, map[]).value;
      Leases.ItemsKeepRollouts(e, w1, site, id, items, map[]);
      FittingResultsRecord(results, g);
      var w' := ClaimAndQueue(e, w, site, id, items, results).0;
      assert w'.devices == w2.devices && w'.rollouts[id].results == WithGenerations(results, g);
    }
  }

  /** The accepted claim stores the caller's results and changes nothing else of its rollout. */
  lemma ClaimStoresThePrepared(e: Env, w: World, site: string, id: nat, items: seq<QueueItem>, results: seq<Entry>)
    requires ClaimAndQueue(e, w, site, id, items, results).1.Ok?
    ensures var w' := ClaimAndQueue(e, w, site, id, items, results).0;
            && id < |w.rollouts| == |w'.rollouts|
            && SameButGenerations(results, w'.rollouts[id].results)
            && OnlyQueued(w, w.rollouts[id], w'.rollouts[id])
            && forall j | 0 <= j < |w.rollouts| && j != id :: w'.rollouts[j] == Claimed(w, site, id).rollouts[j]
  {
    Leases.ItemsKeepRollouts(e, Claimed(w, site, id), site, id, items, map[]);
  }

  lemma FittingResultsRecordOnce(results: seq<Entry>, g: map<string, int>, x: string)
    requires ResultsFit(results, g) && x in g
    ensures RecordedOnce(WithGenerations(results, g), x, g[x])
  {
    var updated := WithGenerations(results, g);
    assert forall j | 0 <= j < |results| :: updated[j] == WithGeneration(results[j], g);
    var i :| 0 <= i < |results| && results[i].deviceId == Some(x);
    forall j | 0 <= j < |results| && j != i ensures updated[j].deviceId != Some(x) {
      if j < i {
        assert results[j].deviceId != results[i].deviceId;
      }
    }
  }

  // ---- The incremental status ---------------------------------------------------------

  /** The status a full recount of the results would give. */
  predicate AllTerminal(results: seq<Entry>) { forall i | 0 <= i < |results| :: EntryTerminal(results[i]) }

  predicate AllCommitted(results: seq<Entry>) { forall i | 0 <= i < |results| :: EntryCommitted(results[i]) }

  function Recount(results: seq<Entry>): RolloutStatus {
    if !AllTerminal(results) then Queued else if AllCommitted(results) then Completed else Failed
  }

  /** Neither the reported entry nor certainly another one, because a key is missing. */
  predicate Ambiguous(en: Entry, deviceId: string, csId: string) {
    !Mentions(en, deviceId, csId) && !Elsewhere(en, deviceId, csId)
  }

  /** Entries whose missing keys hide them from the update cannot change its outcome. */
  predicate HiddenEntriesHarmless(results: seq<Entry>, deviceId: string, s: Status) {
    || (exists i | 0 <= i < |results| :: Elsewhere(results[i], deviceId, s.id) && !EntryTerminal(results[i]))
    || (forall i | 0 <= i < |results| && Ambiguous(results[i], deviceId, s.id) :: EntryCommitted(results[i]))
    || (&& (forall i | 0 <= i < |results| && Ambiguous(results[i], deviceId, s.id) :: EntryTerminal(results[i]))
        && (!s.state.Committed? || exists i | 0 <= i < |results| :: Elsewhere(results[i], deviceId, s.id) && !EntryCommitted(results[i])))
  }

  /**
   * The status computed from the other entries alone is the recount of the
   * updated results, exactly when entries with missing keys are harmless.
   */
  lemma IncrementalStatusIsRecount(results: seq<Entry>, deviceId: string, s: Status)
    requires Terminal(s.state)
    requires exists i | 0 <= i < |results| :: Mentions(results[i], deviceId, s.id)
    ensures StatusAfterReport(results, deviceId, s) == Recount(MarkEntries(results, deviceId, s))
            <==> HiddenEntriesHarmless(results, deviceId, s)
  {
    var marked := MarkEntries(results, deviceId, s);
    assert forall i | 0 <= i < |results| :: marked[i] == MarkEntry(results[i], deviceId, s);
    var m :| 0 <= m < |results| && Mentions(results[m], deviceId, s.id);
    assert marked[m].csState == Some(s.state);
  }

  /** In particular whenever every entry of the reporting device carries a changeset id. */
  lemma CompleteEntriesAreCounted(results: seq<Entry>, deviceId: string, s: Status)
    requires Terminal(s.state)
    requires exists i | 0 <= i < |results| :: Mentions(results[i], deviceId, s.id)
    requires forall i | 0 <= i < |results| :: results[i].deviceId.Some? && (results[i].deviceId.value == deviceId ==> results[i].csId.Some?)
    ensures StatusAfterReport(results, deviceId, s) == Recount(MarkEntries(results, deviceId, s))
  {
    IncrementalStatusIsRecount(results, deviceId, s);
  }

  // ---- What a report leaves in the results --------------------------------------------------

  /** The entry says what the device row says. */
  predicate SaysTheSame(en: Entry, d: Device) {
    && d.lastCs.Some?
    && en.csState == Some(d.lastCs.value.state) && en.planHash == Some(d.lastCs.value.planHash) && en.generation == Some(d.lastCs.value.generation)
    && en.status == (if d.lastCs.value.state == Committed then Success else EntryFailed)
    && (d.lastCs.value.failure != "" ==> en.error == Some(d.lastCs.value.failure))
  }

  /** Entry by entry: those about the device and its changeset now say what its row says, the others are kept. */
  predicate Mirrored(before: seq<Entry>, after: seq<Entry>, x: string, d: Device) {
    && d.lastCs.Some? && |after| == |before|
    && forall i | 0 <= i < |before| ::
         if before[i].deviceId == Some(x) && before[i].csId == Some(d.lastCs.value.id)
         then SaysTheSame(after[i], d) && after[i].deviceId == before[i].deviceId && after[i].csId == before[i].csId
              && (d.lastCs.value.failure == "" ==> after[i].error == before[i].error)
         else after[i] == before[i]
  }

  /** The rollout waits for this device's changeset. */
  predicate WaitsFor(r: Rollout, d: Device, x: string, csId: string) {
    && r.status == Queued && d.site == Some(r.site)
    && exists i | 0 <= i < |r.results| :: r.results[i].deviceId == Some(x) && r.results[i].csId == Some(csId)
  }

  /**
   * A report changes the results of a rollout exactly when it was stored, is
   * final, and the QUEUED rollout of the device's site waits for it. The
   * entries then say what the device row says; all other entries, rollouts and
   * columns are kept.
   */
  lemma FinalReportIsMirrored(w: World, x: string, r: Report, i: nat)
    requires i < |w.rollouts| && x in w.devices
    ensures var (w', stored) := RecordReport(w, x, r);
            && x in w'.devices && i < |w'.rollouts|
            && var row, after := w.rollouts[i], w'.rollouts[i];
            && var mirrored := stored && r.state in {Some(Committed), Some(Restored), Some(RecoveryRequired), Some(Rejected)}
                               && WaitsFor(row, w.devices[x], x, r.id);
            if mirrored
            then Mirrored(row.results, after.results, x, w'.devices[x])
                 && after == row.(status := after.status, results := after.results, updatedAt := w.now)
            else after == row
  {
    if x in w.devices && RecordStatus(x, w.devices[x], r).1.Some? {
      var s := RecordStatus(x, w.devices[x], r).1.value;
      var results := w.rollouts[i].results;
      assert forall j | 0 <= j < |results| :: MarkEntries(results, x, s)[j] == MarkEntry(results[j], x, s);
      assert AwaitsReport(w.rollouts[i], w.devices[x].site, x, s.id) <==> WaitsFor(w.rollouts[i], w.devices[x], x, r.id);
    }
  }
}
