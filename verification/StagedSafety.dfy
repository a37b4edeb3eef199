/** The invariant of a staged rollout over every interleaving, and what it says when a worker queues a device. */
module StagedSafety {
  import opened Common
  import opened ChangeSets
  import opened DeviceSlot
  import opened Controller
  import RowProjection
  import opened Leases
  import opened Worker
  import opened StagedRollout

  // ---- The invariant -----------------------------------------------------------

  /** Claimed and queued as a changeset rollout, or already handed to a worker. */
  predicate Launched(r: Rollout) { r.status.Queued? || r.workerToken.Some? }

  ghost predicate LaunchedOk(e: Env, s: Setup, devices: map<string, Device>, r: Rollout) {
    var t := DoneCount(r.results);
    && Shape(e, s, r.results, t)
    && RowsFit(e, s, devices, r.results, t, r.status.Queued?)
    && 0 <= r.cursor <= t <= s.started
    && (r.status.Queued? ==> forall j | 0 <= j < |r.results| :: s.pos[j] >= s.started ==> r.results[j].status.Waiting?)
  }

  ghost predicate RolloutInv(e: Env, s: Setup, w: World) {
    && SetupOk(s) && s.started >= 1
    && s.r < |w.rollouts| && RowProjection.SlotsOk(e, w)
    && w.rollouts[s.r].plan == s.plan && ColumnsOk(w.now, w.nextToken, w.rollouts[s.r])
    && (Launched(w.rollouts[s.r]) ==> LaunchedOk(e, s, w.devices, w.rollouts[s.r]))
    && (!Launched(w.rollouts[s.r]) && !Closed(w.rollouts[s.r].status) ==> RowsFresh(e, s, w.devices) && w.rollouts[s.r].cursor == 0)
  }

  /** A worker's snapshot shows the progress that is still stored. */
  ghost predicate Snapshot(r: Rollout, p: Progress) {
    && p.plan == r.plan && SameProgress(p.results, r.results)
    && p.terminalCount == DoneCount(p.results) && p.failureCount == FailedCount(p.results)
  }

  ghost predicate WorkerInv(s: Setup, r: Rollout, k: WorkerState) {
    var t := DoneCount(r.results);
    && r.workerToken.Some? && k.lease.rolloutId == s.r && k.lease.site == r.site && 0 <= k.lease.cursor <= t
    && match k.stage
       case Checking(p) => Snapshot(r, p)
       case Advancing(p) => Snapshot(r, p) && k.lease.cursor == t
       case Saving(p, x, _) => Snapshot(r, p) && k.lease.cursor == t && t < |s.order| && x == s.order[t] && p.failureCount == 0
       case _ => true
  }

  ghost predicate FleetInv(e: Env, s: Setup, f: Fleet) {
    && RolloutInv(e, s, f.w)
    && forall token | token in f.workers :: WorkerInv(s, f.w.rollouts[s.r], f.workers[token])
  }

  // ---- Calls of others ------------------------------------------------------------

  /** What a call that is neither a report nor this rollout's own claim does to the rollout. */
  ghost predicate Quiet(r: Rollout, r': Rollout) {
    && r'.site == r.site && r'.plan == r.plan && r'.workerToken == r.workerToken && r'.cursor == r.cursor
    && (Launched(r) ==> r'.results == r.results && (r'.status.Queued? <==> r.status.Queued?))
    && (!Launched(r) ==> !Launched(r') && (Closed(r.status) ==> Closed(r'.status)))
  }

  lemma DraftIsQuiet(w: World, c: DraftCall, i: nat)
    requires i < |w.rollouts| && ColumnsOk(w.now, w.nextToken, w.rollouts[i])
    ensures i < |StepDraft(w, c).rollouts| && Quiet(w.rollouts[i], StepDraft(w, c).rollouts[i])
  {
  }

  lemma LeaseIsQuiet(w: World, c: LeaseCall, i: nat)
    requires i < |w.rollouts| && i != (if c.CallClaimLease? then c.id else c.lease.rolloutId)
    ensures i < |StepLease(w, c).rollouts| && StepLease(w, c).rollouts[i] == w.rollouts[i]
  {
  }

  lemma OtherClaimIsQuiet(e: Env, w: World, site: string, id: nat, items: seq<QueueItem>, results: seq<Entry>, i: nat)
    requires i < |w.rollouts| && i != id && ColumnsOk(w.now, w.nextToken, w.rollouts[i])
    ensures var w' := ClaimAndQueue(e, w, site, id, items, results).0;
            i < |w'.rollouts| && Quiet(w.rollouts[i], w'.rollouts[i])
  {
    if ClaimAndQueue(e, w, site, id, items, results).1.Ok? {
      ItemsKeepRollouts(e, Claimed(w, site, id), site, id, items, map[]);
    }
  }

  lemma CallIsQuiet(e: Env, s: Setup, w: World, c: Call)
    requires s.r < |w.rollouts| && ColumnsOk(w.now, w.nextToken, w.rollouts[s.r]) && Allowed(e, s, c)
    requires !c.OnReport? && !(c.CallClaimAndQueue? && c.id == s.r)
    ensures s.r < |Step(e, w, c).rollouts| && Quiet(w.rollouts[s.r], Step(e, w, c).rollouts[s.r])
  {
    match c
    case OnDevice(x, call) => DeviceCallKeepsRollouts(e, w, x, call);
    case OnDraft(call) => DraftIsQuiet(w, call, s.r);
    case OnLease(call) => LeaseIsQuiet(w, call, s.r);
    case CallClaimAndQueue(site, id, items, results) => OtherClaimIsQuiet(e, w, site, id, items, results, s.r);
    case Tick(_) =>
  }

  /** Calls that avoid the rollout's ids keep its rows fitting the same results. */
  lemma RowsKeepFitting(e: Env, s: Setup, w: World, c: Call, results: seq<Entry>, t: nat, queued: bool)
    requires RowProjection.SlotsOk(e, w) && Shape(e, s, results, t) && RowsFit(e, s, w.devices, results, t, queued)
    requires forall j | 0 <= j < |results| :: s.pos[j] != t || queued ==> CallAvoids(c, s.order[s.pos[j]], CsOf(e, s, s.pos[j]))
    ensures RowsFit(e, s, Step(e, w, c).devices, results, t, queued)
  {
    var w' := Step(e, w, c);
    forall j | 0 <= j < |results| && s.order[s.pos[j]] in w'.devices
      ensures RowFits(w'.devices[s.order[s.pos[j]]], results[j], CsOf(e, s, s.pos[j]), s.pos[j], t, queued)
    {
      if s.pos[j] != t || queued {
        assert EntryFits(results[j], s.order[s.pos[j]], CsOf(e, s, s.pos[j]), s.pos[j], t);
        CallKeepsRow(e, w, c, s.order[s.pos[j]], CsOf(e, s, s.pos[j]), if s.pos[j] < t then results[j].csState.value else Committed);
      }
    }
  }

  lemma RowsStayFresh(e: Env, s: Setup, w: World, c: Call)
    requires RowProjection.SlotsOk(e, w) && RowsFresh(e, s, w.devices)
    requires forall i | 0 <= i < |s.order| :: CallAvoids(c, s.order[i], CsOf(e, s, i))
    ensures RowsFresh(e, s, Step(e, w, c).devices)
  {
    forall i | 0 <= i < |s.order| && s.order[i] in Step(e, w, c).devices
      ensures NeverHad(Step(e, w, c).devices[s.order[i]], CsOf(e, s, i))
    {
      CallKeepsRow(e, w, c, s.order[i], CsOf(e, s, i), Committed);
    }
  }

  lemma QuietCallKeepsRollout(e: Env, s: Setup, w: World, c: Call)
    requires RolloutInv(e, s, w) && Allowed(e, s, c)
    requires !c.OnReport? && !(c.CallClaimAndQueue? && c.id == s.r)
    ensures RolloutInv(e, s, Step(e, w, c))
  {
    var w' := Step(e, w, c);
    RowProjection.StepKeepsSlots(e, w, c);
    CallIsQuiet(e, s, w, c);
    ColumnsStayOk(e, w, c, s.r);
    QuietRows(e, s, w, c, w', w.rollouts[s.r], w'.rollouts[s.r]);
  }

  lemma QuietRows(e: Env, s: Setup, w: World, c: Call, w': World, r: Rollout, r': Rollout)
    requires RolloutInv(e, s, w) && r == w.rollouts[s.r] && w' == Step(e, w, c) && Quiet(r, r')
    requires forall i | 0 <= i < |s.order| :: CallAvoids(c, s.order[i], CsOf(e, s, i))
    ensures Launched(r') ==> LaunchedOk(e, s, w'.devices, r')
    ensures !Launched(r') && !Closed(r'.status) ==> RowsFresh(e, s, w'.devices) && r'.cursor == 0
  {
    if Launched(r) {
      var t := DoneCount(r.results);
      assert forall j | 0 <= j < |r.results| :: CallAvoids(c, s.order[s.pos[j]], CsOf(e, s, s.pos[j]));
      RowsKeepFitting(e, s, w, c, r.results, t, r.status.Queued?);
    } else if !Closed(r.status) {
      RowsStayFresh(e, s, w, c);
    }
  }

  function CallLength(c: Call): int {
    if c.OnLease? && (c.leaseCall.CallClaimLease? || c.leaseCall.CallRenew?) then c.leaseCall.duration else 0
  }

  lemma ColumnsStayOk(e: Env, w: World, c: Call, i: nat)
    requires i < |w.rollouts| && ColumnsOk(w.now, w.nextToken, w.rollouts[i])
    ensures var w' := Step(e, w, c); i < |w'.rollouts| && ColumnsOk(w'.now, w'.nextToken, w'.rollouts[i])
  {
    StepMovesTable(e, w, c, CallLength(c));
    assert RowMoves(w, Step(e, w, c), w.rollouts[i], Step(e, w, c).rollouts[i], CallLength(c));
  }

  // ---- The rollout's own claim -------------------------------------------------------

  lemma FirstPhaseFits(e: Env, s: Setup, items: seq<QueueItem>, results: seq<Entry>, g: map<string, int>)
    requires SetupOk(s) && FirstPhase(e, s, items, results)
    ensures Shape(e, s, WithGenerations(results, g), 0) && DoneCount(WithGenerations(results, g)) == 0
    ensures forall j | 0 <= j < |results| :: s.pos[j] >= 1 ==> WithGenerations(results, g)[j].status.Waiting?
    ensures forall j | 0 <= j < |results| :: s.pos[j] == 0 ==> !WithGenerations(results, g)[j].status.Waiting?
  {
    var updated := WithGenerations(results, g);
    forall j | 0 <= j < |results|
      ensures EntryFits(updated[j], s.order[s.pos[j]], CsOf(e, s, s.pos[j]), s.pos[j], 0)
    {
      assert updated[j] == WithGeneration(results[j], g);
    }
    ShapeCounts(e, s, updated, 0);
  }

  lemma FirstPhaseRows(e: Env, s: Setup, w: World, c: Call, results: seq<Entry>)
    requires RowProjection.SlotsOk(e, w) && RowsFresh(e, s, w.devices) && Shape(e, s, results, 0)
    requires c.CallClaimAndQueue? && FirstPhase(e, s, c.items, c.results)
    requires forall j | 0 <= j < |results| :: s.pos[j] == 0 ==> !results[j].status.Waiting?
    ensures RowsFit(e, s, Step(e, w, c).devices, results, 0, true)
  {
    var devices := Step(e, w, c).devices;
    forall j | 0 <= j < |results| && s.order[s.pos[j]] in devices
      ensures RowFits(devices[s.order[s.pos[j]]], results[j], CsOf(e, s, s.pos[j]), s.pos[j], 0, true)
    {
      if s.pos[j] > 0 {
        assert s.order[s.pos[j]] != s.order[0];
        assert CallAvoids(c, s.order[s.pos[j]], CsOf(e, s, s.pos[j]));
        CallKeepsRow(e, w, c, s.order[s.pos[j]], CsOf(e, s, s.pos[j]), Committed);
      }
    }
  }

  lemma ClaimedRolloutIs(e: Env, w: World, site: string, id: nat, items: seq<QueueItem>, results: seq<Entry>)
    requires ClaimAndQueue(e, w, site, id, items, results).1.Ok?
    ensures var (w', answer) := ClaimAndQueue(e, w, site, id, items, results);
            && id < |w.rollouts| && w.rollouts[id].status.Draft? && |w'.rollouts| == |w.rollouts|
            && w'.rollouts[id] == w.rollouts[id].(status := Queued, results := WithGenerations(results, answer.value), claimToken := None, updatedAt := w.now)
  {
    ItemsKeepRollouts(e, Claimed(w, site, id), site, id, items, map[]);
  }

  lemma OwnClaimKeepsRollout(e: Env, s: Setup, w: World, site: string, items: seq<QueueItem>, results: seq<Entry>)
    requires RolloutInv(e, s, w) && FirstPhase(e, s, items, results)
    ensures RolloutInv(e, s, Step(e, w, CallClaimAndQueue(site, s.r, items, results)))
  {
    var c := CallClaimAndQueue(site, s.r, items, results);
    var (w', answer) := ClaimAndQueue(e, w, site, s.r, items, results);
    if answer.Ok? {
      RowProjection.StepKeepsSlots(e, w, c);
      ColumnsStayOk(e, w, c, s.r);
      ClaimedRolloutIs(e, w, site, s.r, items, results);
      FirstPhaseFits(e, s, items, results, answer.value);
      FirstPhaseRows(e, s, w, c, WithGenerations(results, answer.value));
    }
  }

  // ---- Reports --------------------------------------------------------------------------

  /** What a terminal report for the device of entry j may be, given the results. */
  ghost predicate ReportFits(e: Env, s: Setup, results: seq<Entry>, t: nat, j: nat, status: Status) {
    && Shape(e, s, results, t) && j < |results|
    && Terminal(status.state) && status.id == CsOf(e, s, s.pos[j])
    && s.pos[j] <= t && (s.pos[j] < t ==> results[j].csState == Some(status.state))
    && (s.pos[j] == t ==> results[j].status.EntryQueued?)
  }

  lemma MarkedEntryFits(e: Env, s: Setup, results: seq<Entry>, t: nat, j: nat, status: Status, k: nat)
    requires ReportFits(e, s, results, t, j, status) && k < |results|
    ensures var en := MarkEntry(results[k], s.order[s.pos[j]], status);
            && EntryFits(en, s.order[s.pos[k]], CsOf(e, s, s.pos[k]), s.pos[k], if s.pos[j] == t then t + 1 else t)
            && (if k == j then en.csState == Some(status.state) else en == results[k])
  {
    assert EntryFits(results[k], s.order[s.pos[k]], CsOf(e, s, s.pos[k]), s.pos[k], t);
    if k != j {
      assert s.pos[k] != s.pos[j];
      assert s.order[s.pos[k]] != s.order[s.pos[j]];
    }
  }

  lemma MarkedShape(e: Env, s: Setup, results: seq<Entry>, t: nat, j: nat, status: Status)
    requires ReportFits(e, s, results, t, j, status)
    ensures var marked := MarkEntries(results, s.order[s.pos[j]], status);
            && Shape(e, s, marked, if s.pos[j] == t then t + 1 else t)
            && marked[j].csState == Some(status.state)
            && forall k | 0 <= k < |results| && k != j :: marked[k] == results[k]
  {
    var marked := MarkEntries(results, s.order[s.pos[j]], status);
    forall k | 0 <= k < |results|
      ensures EntryFits(marked[k], s.order[s.pos[k]], CsOf(e, s, s.pos[k]), s.pos[k], if s.pos[j] == t then t + 1 else t)
      ensures if k == j then marked[k].csState == Some(status.state) else marked[k] == results[k]
    {
      MarkedEntryFits(e, s, results, t, j, status, k);
    }
  }

  lemma ReportKeepsRollout(e: Env, s: Setup, w: World, x: string, report: Report)
    requires RolloutInv(e, s, w)
    ensures RolloutInv(e, s, Step(e, w, OnReport(x, report)))
  {
    var c := OnReport(x, report);
    var w' := Step(e, w, c);
    var r := w.rollouts[s.r];
    RowProjection.StepKeepsSlots(e, w, c);
    ColumnsStayOk(e, w, c, s.r);
    if x !in w.devices {
    } else if Launched(r) {
      var d := w.devices[x];
      var stored := RecordStatus(x, d, report).1;
      if stored.Some? && Terminal(stored.value.state) && AwaitsReport(r, d.site, x, stored.value.id) {
        AwaitedReportKeepsRollout(e, s, w, x, report);
      } else {
        assert w'.rollouts[s.r] == r;
        RowsKeepFitting(e, s, w, c, r.results, DoneCount(r.results), r.status.Queued?);
      }
    } else {
      assert w'.rollouts[s.r] == r;
      if !Closed(r.status) {
        RowsStayFresh(e, s, w, c);
      }
    }
  }

  lemma ReportedRowsFit(e: Env, s: Setup, devices: map<string, Device>, results: seq<Entry>, t: nat, j: nat, d': Device, status: Status)
    requires ReportFits(e, s, results, t, j, status) && RowsFit(e, s, devices, results, t, true)
    requires DoneOnRow(d', CsOf(e, s, s.pos[j]), status.state)
    ensures var marked, t' := MarkEntries(results, s.order[s.pos[j]], status), if s.pos[j] == t then t + 1 else t;
            Shape(e, s, marked, t') && RowsFit(e, s, devices[s.order[s.pos[j]] := d'], marked, t', true)
  {
    var x := s.order[s.pos[j]];
    var marked := MarkEntries(results, x, status);
    var t' := if s.pos[j] == t then t + 1 else t;
    MarkedShape(e, s, results, t, j, status);
    forall k | 0 <= k < |marked| && s.order[s.pos[k]] in devices[x := d']
      ensures RowFits(devices[x := d'][s.order[s.pos[k]]], marked[k], CsOf(e, s, s.pos[k]), s.pos[k], t', true)
    {
      if k != j {
        assert s.pos[k] != s.pos[j];
        assert s.order[s.pos[k]] != x;
        assert RowFits(devices[s.order[s.pos[k]]], results[k], CsOf(e, s, s.pos[k]), s.pos[k], t, true);
      }
    }
  }

  lemma MarkedCounts(e: Env, s: Setup, results: seq<Entry>, t: nat, j: nat, status: Status)
    requires ReportFits(e, s, results, t, j, status) && t <= s.started
    requires forall k | 0 <= k < |results| :: s.pos[k] >= s.started ==> results[k].status.Waiting?
    ensures var marked := MarkEntries(results, s.order[s.pos[j]], status);
            && DoneCount(marked) == (if s.pos[j] == t then t + 1 else t) <= s.started
            && forall k | 0 <= k < |results| :: s.pos[k] >= s.started ==> marked[k].status.Waiting?
  {
    var marked := MarkEntries(results, s.order[s.pos[j]], status);
    MarkedShape(e, s, results, t, j, status);
    ShapeCounts(e, s, marked, if s.pos[j] == t then t + 1 else t);
    assert EntryFits(results[j], s.order[s.pos[j]], CsOf(e, s, s.pos[j]), s.pos[j], t);
  }

  lemma MarkedKeepsLaunched(e: Env, s: Setup, devices: map<string, Device>, r: Rollout, j: nat, d': Device, status: Status, r': Rollout)
    requires r.status.Queued? && LaunchedOk(e, s, devices, r) && ReportFits(e, s, r.results, DoneCount(r.results), j, status)
    requires DoneOnRow(d', CsOf(e, s, s.pos[j]), status.state)
    requires r'.results == MarkEntries(r.results, s.order[s.pos[j]], status) && r'.cursor == r.cursor
    requires r'.status.Queued?
    ensures LaunchedOk(e, s, devices[s.order[s.pos[j]] := d'], r')
  {
    var t := DoneCount(r.results);
    ReportedRowsFit(e, s, devices, r.results, t, j, d', status);
    MarkedCounts(e, s, r.results, t, j, status);
  }

  /** The entry an awaited terminal report is about. */
  lemma AwaitedEntry(e: Env, s: Setup, d: Device, r: Rollout, x: string, report: Report, t: nat) returns (j: nat)
    requires SlotInvariant(e, x, d) && Shape(e, s, r.results, t)
    requires forall k | 0 <= k < |r.results| && s.order[s.pos[k]] == x :: RowFits(d, r.results[k], CsOf(e, s, s.pos[k]), s.pos[k], t, true)
    requires var stored := RecordStatus(x, d, report).1;
             stored.Some? && Terminal(stored.value.state) && AwaitsReport(r, d.site, x, stored.value.id)
    ensures var (d', stored) := RecordStatus(x, d, report);
            && ReportFits(e, s, r.results, t, j, stored.value) && s.order[s.pos[j]] == x
            && DoneOnRow(d', CsOf(e, s, s.pos[j]), stored.value.state)
  {
    var stored := RecordStatus(x, d, report).1;
    j :| 0 <= j < |r.results| && Mentions(r.results[j], x, stored.value.id);
    assert EntryFits(r.results[j], s.order[s.pos[j]], CsOf(e, s, s.pos[j]), s.pos[j], t);
  }

  lemma AwaitedReportKeepsRollout(e: Env, s: Setup, w: World, x: string, report: Report)
    requires RowProjection.SlotsOk(e, w) && s.r < |w.rollouts| && w.rollouts[s.r].workerToken.None? && x in w.devices
    requires LaunchedOk(e, s, w.devices, w.rollouts[s.r])
    requires var stored := RecordStatus(x, w.devices[x], report).1;
             && stored.Some? && Terminal(stored.value.state)
             && AwaitsReport(w.rollouts[s.r], w.devices[x].site, x, stored.value.id)
    ensures var w', r' := RecordReport(w, x, report).0, RecordReport(w, x, report).0.rollouts[s.r];
            && r'.plan == w.rollouts[s.r].plan && r'.workerToken.None?
            && (if r'.status.Queued? then LaunchedOk(e, s, w'.devices, r') else Closed(r'.status))
  {
    var r, d := w.rollouts[s.r], w.devices[x];
    var (d', stored) := RecordStatus(x, d, report);
    var j := AwaitedEntry(e, s, d, r, x, report, DoneCount(r.results));
    var r' := AbsorbReport(r, w.now, d.site, x, stored.value);
    if r'.status.Queued? {
      MarkedKeepsLaunched(e, s, w.devices, r, j, d', stored.value, r');
    }
  }

  /** Whatever others do, the rollout's invariant holds. */
  lemma ExternalKeepsRollout(e: Env, s: Setup, w: World, c: Call)
    requires RolloutInv(e, s, w) && Allowed(e, s, c)
    ensures RolloutInv(e, s, Step(e, w, c))
  {
    if c.OnReport? {
      ReportKeepsRollout(e, s, w, c.x, c.report);
    } else if c.CallClaimAndQueue? && c.id == s.r {
      OwnClaimKeepsRollout(e, s, w, c.site, c.items, c.results);
    } else {
      QuietCallKeepsRollout(e, s, w, c);
    }
  }
}
