/** The two counters of success: they move on stored COMMITTED reports, and on nothing else. */
module Counters {
  import opened Common
  import opened ChangeSets
  import opened DeviceSlot
  import opened Controller
  import RowProjection

  /** The generation of the COMMITTED report that this action stores, if it stores one that has a generation. */
  function CommittedBy(rowId: string, d: Device, a: RowAction): seq<int> {
    match a
    case GetReport(report) =>
      if RecordStatus(rowId, d, report).1.Some? && report.state == Some(Committed) && report.generation.Some? then [report.generation.value] else []
    case GetOperationReport(report) =>
      if RecordOperation(d, report).1 && report.state == Some(Committed) && report.generation.Some? then [report.generation.value] else []
    case _ => []
  }

  /** The generations of all COMMITTED reports that a run stores, in order. */
  function CommittedGenerations(e: Env, rowId: string, d: Device, actions: seq<RowAction>): seq<int>
    decreases actions
  {
    if actions == [] then [] else
      CommittedBy(rowId, d, actions[0]) + CommittedGenerations(e, rowId, StepRow(e, rowId, d, actions[0]), actions[1..])
  }

  /** m is the largest of a start value and the reported ones. */
  predicate IsLargest(m: int, start: int, reported: seq<int>) {
    && m >= start && (forall i | 0 <= i < |reported| :: m >= reported[i])
    && (m == start || m in reported)
  }

  lemma LargestOfBoth(m: int, middle: int, start: int, first: seq<int>, rest: seq<int>)
    requires IsLargest(middle, start, first) && IsLargest(m, middle, rest)
    ensures IsLargest(m, start, first + rest)
  {
    var all := first + rest;
    forall i | 0 <= i < |all| ensures m >= all[i] {
      assert all[i] == if i < |first| then first[i] else rest[i - |first|];
    }
  }

  /** One action moves both counters to its COMMITTED generation, if that is larger, and otherwise leaves them alone. */
  lemma CountersStep(e: Env, rowId: string, d: Device, a: RowAction)
    requires SlotInvariant(e, rowId, d)
    ensures var d' := StepRow(e, rowId, d, a);
            && IsLargest(d'.observed, d.observed, CommittedBy(rowId, d, a))
            && IsLargest(d'.lastSuccessful, d.lastSuccessful, CommittedBy(rowId, d, a))
  {
    var reported := CommittedBy(rowId, d, a);
    assert |reported| == 1 ==> reported[0] in reported;
  }

  /**
   * Over any run of a row, the observed and the last successful generation are
   * the largest of their start value and the generations of the stored
   * COMMITTED reports, of changesets and operations alike.
   */
  lemma {:induction false} CountersAreLargestCommitted(e: Env, rowId: string, d: Device, actions: seq<RowAction>)
    requires SlotInvariant(e, rowId, d)
    ensures var d' := RunRow(e, rowId, d, actions);
            && IsLargest(d'.observed, d.observed, CommittedGenerations(e, rowId, d, actions))
            && IsLargest(d'.lastSuccessful, d.lastSuccessful, CommittedGenerations(e, rowId, d, actions))
    decreases actions
  {
    if actions != [] {
      var d1 := StepRow(e, rowId, d, actions[0]);
      var first, rest := CommittedBy(rowId, d, actions[0]), CommittedGenerations(e, rowId, d1, actions[1..]);
      CountersStep(e, rowId, d, actions[0]);
      StepKeepsSlot(e, rowId, d, actions[0]);
      CountersAreLargestCommitted(e, rowId, d1, actions[1..]);
      var d' := RunRow(e, rowId, d1, actions[1..]);
      LargestOfBoth(d'.observed, d1.observed, d.observed, first, rest);
      LargestOfBoth(d'.lastSuccessful, d1.lastSuccessful, d.lastSuccessful, first, rest);
    }
  }

  // ---- In every run of the controller ------------------------------------------------------

  /** The same for any run of calls, seen from one device. */
  lemma CountersInEveryRun(e: Env, w: World, calls: seq<Call>, x: string)
    requires x in w.devices && SlotInvariant(e, x, w.devices[x])
    ensures var d, committed := w.devices[x], CommittedGenerations(e, x, w.devices[x], RowProjection.RunTrace(e, w, calls, x));
            && x in Run(e, w, calls).devices
            && IsLargest(Run(e, w, calls).devices[x].observed, d.observed, committed)
            && IsLargest(Run(e, w, calls).devices[x].lastSuccessful, d.lastSuccessful, committed)
  {
    RowProjection.RunProjects(e, w, calls, x);
    CountersAreLargestCommitted(e, x, w.devices[x], RowProjection.RunTrace(e, w, calls, x));
  }

  /** The call brings no COMMITTED report for the device. */
  predicate BringsNoCommit(c: Call, x: string) {
    && (c.OnReport? && c.x == x ==> c.report.state != Some(Committed))
    && (c.OnDevice? && c.x == x && c.deviceCall.CallRecordOp? ==> c.deviceCall.opReport.state != Some(Committed))
  }

  ghost predicate NoCommits(actions: seq<RowAction>) {
    forall a | a in actions ::
      && (a.GetReport? ==> a.report.state != Some(Committed))
      && (a.GetOperationReport? ==> a.opReport.state != Some(Committed))
  }

  lemma {:induction false} NothingCommitted(e: Env, rowId: string, d: Device, actions: seq<RowAction>)
    requires NoCommits(actions)
    ensures CommittedGenerations(e, rowId, d, actions) == []
    decreases actions
  {
    if actions != [] {
      assert actions[0] in actions;
      NothingCommitted(e, rowId, StepRow(e, rowId, d, actions[0]), actions[1..]);
    }
  }

  lemma CallTraceCommitsNothing(e: Env, w: World, c: Call, x: string)
    requires x in w.devices && BringsNoCommit(c, x)
    ensures NoCommits(RowProjection.CallTrace(e, w, c, x))
  {
    if c.CallClaimAndQueue? && ClaimAndQueue(e, w, c.site, c.id, c.items, c.results).1.Ok? {
      ItemsCommitNothing(e, Claimed(w, c.site, c.id), c.site, c.id, c.items, x);
    }
  }

  lemma {:induction false} ItemsCommitNothing(e: Env, w: World, site: string, id: nat, items: seq<QueueItem>, x: string)
    ensures NoCommits(RowProjection.ItemsTrace(e, w, site, id, items, x))
    decreases items
  {
    if items != [] {
      var w' := QueueFor(e, w, site, items[0].role, items[0].cs.deviceId, items[0].cs, id).0;
      ItemsCommitNothing(e, w', site, id, items[1..], x);
    }
  }

  lemma {:induction false} RunTraceCommitsNothing(e: Env, w: World, calls: seq<Call>, x: string)
    requires x in w.devices && forall c | c in calls :: BringsNoCommit(c, x)
    ensures NoCommits(RowProjection.RunTrace(e, w, calls, x))
    decreases calls
  {
    if calls != [] {
      assert calls[0] in calls;
      RowProjection.CallProjects(e, w, calls[0], x);
      CallTraceCommitsNothing(e, w, calls[0], x);
      RunTraceCommitsNothing(e, Step(e, w, calls[0]), calls[1..], x);
    }
  }

  /** Without a COMMITTED report, whatever is queued, rolled back or restored, both counters stay as they are. */
  lemma NoCommitNoSuccess(e: Env, w: World, calls: seq<Call>, x: string)
    requires x in w.devices && SlotInvariant(e, x, w.devices[x]) && forall c | c in calls :: BringsNoCommit(c, x)
    ensures x in Run(e, w, calls).devices
    ensures Run(e, w, calls).devices[x].observed == w.devices[x].observed
    ensures Run(e, w, calls).devices[x].lastSuccessful == w.devices[x].lastSuccessful
  {
    CountersInEveryRun(e, w, calls, x);
    RunTraceCommitsNothing(e, w, calls, x);
    NothingCommitted(e, x, w.devices[x], RowProjection.RunTrace(e, w, calls, x));
  }
}
