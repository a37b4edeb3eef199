/**
 * What a lease is worth over whole runs: it lives until the deadline of its
 * latest grant, its cursor is the largest one written, its results the last.
 */
module LeaseTerms {
  import opened Common
  import opened ChangeSets
  import opened DeviceSlot
  import opened Controller
  import opened Leases

  // ---- Deadlines -----------------------------------------------------------

  /** A successful claim or renewal of rollout i. */
  predicate Grants(w: World, c: Call, i: nat) {
    ClaimsLease(w, c, i) ||
    (c.OnLease? && c.leaseCall.CallRenew? && c.leaseCall.lease.rolloutId == i && RenewLease(w, c.leaseCall.lease, c.leaseCall.duration).1)
  }

  /** The deadline that the latest grant in a run promised: its own time and the duration it asked for. */
  ghost function LatestDeadline(e: Env, w: World, calls: seq<Call>, i: nat, start: Option<int>): Option<int>
    decreases calls
  {
    if calls == [] then start else
      LatestDeadline(e, Step(e, w, calls[0]), calls[1..], i, if Grants(w, calls[0], i) then Some(w.now + calls[0].leaseCall.duration) else start)
  }

  function DeadlineAt(w: World, i: nat): Option<int> {
    if i < |w.rollouts| then w.rollouts[i].leaseUntil else None
  }

  lemma DeadlineMoves(e: Env, w: World, c: Call, i: nat)
    ensures DeadlineAt(Step(e, w, c), i) == if Grants(w, c, i) then Some(w.now + c.leaseCall.duration) else DeadlineAt(w, i)
  {
    if !c.OnLease? {
      StepKeepsLeaseColumns(e, w, c);
    }
  }

  lemma {:induction false} DeadlineIsLatest(e: Env, w: World, calls: seq<Call>, i: nat)
    ensures DeadlineAt(Run(e, w, calls), i) == LatestDeadline(e, w, calls, i, DeadlineAt(w, i))
    decreases calls
  {
    if calls != [] {
      DeadlineMoves(e, w, calls[0], i);
      DeadlineIsLatest(e, Step(e, w, calls[0]), calls[1..], i);
    }
  }

  /** Whoever has time left is RUNNING. */
  ghost predicate UnexpiredRuns(w: World) {
    forall i | 0 <= i < |w.rollouts| && w.rollouts[i].leaseUntil.Some? && w.now <= w.rollouts[i].leaseUntil.value ::
      w.rollouts[i].status.Running?
  }

  lemma StepKeepsUnexpired(e: Env, w: World, c: Call, maxLease: int)
    requires LeasesOk(w, maxLease) && Bounded(c, maxLease) && maxLease <= TWENTY_MINUTES && UnexpiredRuns(w)
    ensures UnexpiredRuns(Step(e, w, c))
  {
    var w' := Step(e, w, c);
    StepMovesTable(e, w, c, maxLease);
    forall i | 0 <= i < |w'.rollouts| && w'.rollouts[i].leaseUntil.Some? && w'.now <= w'.rollouts[i].leaseUntil.value
      ensures w'.rollouts[i].status.Running?
    {
      DeadlineMoves(e, w, c, i);
      if !Grants(w, c, i) {
        LiveLeaseProtectsSite(e, w, c, maxLease, i);
      }
    }
  }

  lemma {:induction false} RunsKeepUnexpired(e: Env, w: World, calls: seq<Call>, maxLease: int)
    requires LeasesOk(w, maxLease) && AllBounded(calls, maxLease) && maxLease <= TWENTY_MINUTES && UnexpiredRuns(w)
    ensures UnexpiredRuns(Run(e, w, calls))
    decreases calls
  {
    if calls != [] {
      assert calls[0] in calls;
      StepKeepsUnexpired(e, w, calls[0], maxLease);
      StepKeepsLeases(e, w, calls[0], maxLease);
      RunsKeepUnexpired(e, Step(e, w, calls[0]), calls[1..], maxLease);
    }
  }

  /**
   * With leases of at most twenty minutes a rollout is live exactly until the
   * deadline of its latest successful claim or renewal, in every reachable
   * state: nothing ends a lease early, and nothing but a grant prolongs it.
   */
  lemma LiveUntilItsDeadline(e: Env, calls: seq<Call>, maxLease: int, i: nat)
    requires AllBounded(calls, maxLease) && maxLease <= TWENTY_MINUTES
    ensures var w := Run(e, EMPTY, calls);
            var deadline := LatestDeadline(e, EMPTY, calls, i, None);
            i < |w.rollouts| && Live(w, w.rollouts[i]) <==> deadline.Some? && w.now <= deadline.value
  {
    DeadlineIsLatest(e, EMPTY, calls, i);
    RunsKeepUnexpired(e, EMPTY, calls, maxLease);
  }

  ghost predicate NoGrant(e: Env, w: World, calls: seq<Call>, i: nat)
    decreases calls
  {
    calls == [] || (!Grants(w, calls[0], i) && NoGrant(e, Step(e, w, calls[0]), calls[1..], i))
  }

  lemma {:induction false} NoGrantKeepsDeadline(e: Env, w: World, calls: seq<Call>, i: nat, start: Option<int>)
    requires NoGrant(e, w, calls, i)
    ensures LatestDeadline(e, w, calls, i, start) == start
    decreases calls
  {
    if calls != [] {
      NoGrantKeepsDeadline(e, Step(e, w, calls[0]), calls[1..], i, start);
    }
  }

  /**
   * Any durations: after a successful renewal the lease is live at a later time
   * exactly when the rollout is still RUNNING and the renewed duration has not
   * passed, as long as nobody is granted the lease again.
   */
  lemma RenewedLeaseLives(e: Env, w: World, lease: Lease, duration: int, calls: seq<Call>)
    requires RenewLease(w, lease, duration).1
    requires NoGrant(e, RenewLease(w, lease, duration).0, calls, lease.rolloutId)
    ensures var later := Run(e, RenewLease(w, lease, duration).0, calls);
            var i := lease.rolloutId;
            && i < |later.rollouts|
            && (Live(later, later.rollouts[i]) <==> later.rollouts[i].status.Running? && later.now <= w.now + duration)
  {
    var i, renewed := lease.rolloutId, RenewLease(w, lease, duration).0;
    DeadlineMoves(e, w, OnLease(CallRenew(lease, duration)), i);
    DeadlineIsLatest(e, renewed, calls, i);
    NoGrantKeepsDeadline(e, renewed, calls, i, DeadlineAt(renewed, i));
    TokenIsLatest(e, renewed, calls, i);
  }

  // ---- Who is granted a lease ----------------------------------------------------

  /** The rollout was queued, or its last worker let its lease run out. */
  predicate Waits(w: World, i: nat) {
    && i < |w.rollouts|
    && var r := w.rollouts[i];
       r.status == Queued || (r.status == Running && r.leaseUntil.Some? && r.leaseUntil.value < w.now)
  }

  /** Some worker is at work in the site, in time. */
  predicate IsWorkedOn(w: World, site: string) {
    exists j | 0 <= j < |w.rollouts| ::
      w.rollouts[j].site == site && w.rollouts[j].status == Running && w.rollouts[j].leaseUntil.Some? && w.now <= w.rollouts[j].leaseUntil.value
  }

  /**
   * A lease is granted exactly for a positive duration to a waiting rollout of
   * a site that nobody works on, such that no other of these has a smaller
   * number; the grant names it, its site and its cursor, under a fresh token.
   */
  lemma LeaseGrantedExactly(w: World, duration: int, i: nat)
    ensures var (w', answer) := ClaimLease(w, duration, i);
            && (answer.Ok? <==>
                && duration > 0 && Waits(w, i) && !IsWorkedOn(w, w.rollouts[i].site)
                && forall j | 0 <= j < |w.rollouts| && Waits(w, j) && !IsWorkedOn(w, w.rollouts[j].site) ::
                     w.rollouts[i].sequence <= w.rollouts[j].sequence)
            && (answer.Ok? ==> answer.value == Lease(i, w.rollouts[i].site, w.nextToken, w.rollouts[i].cursor) && w'.nextToken == w.nextToken + 1)
            && (answer.Err? ==> w' == w)
  {
    forall j | 0 <= j < |w.rollouts| ensures Candidate(w, j) <==> Waits(w, j) && !IsWorkedOn(w, w.rollouts[j].site) {
    }
  }

  // ---- Cursors -----------------------------------------------------------------

  predicate WritesCursor(w: World, c: Call, i: nat) {
    c.OnLease? && c.leaseCall.CallCursor? && c.leaseCall.lease.rolloutId == i && UpdateCursor(w, c.leaseCall.lease, c.leaseCall.cursor).1
  }

  /** The cursors that a run wrote for rollout i. */
  ghost function CursorsWritten(e: Env, w: World, calls: seq<Call>, i: nat): set<int>
    decreases calls
  {
    if calls == [] then {} else
      (if WritesCursor(w, calls[0], i) then {calls[0].leaseCall.cursor} else {}) + CursorsWritten(e, Step(e, w, calls[0]), calls[1..], i)
  }

  ghost predicate IsLargestOf(x: int, xs: set<int>) {
    x in xs && forall y | y in xs :: y <= x
  }

  function CursorAt(w: World, i: nat): int {
    if i < |w.rollouts| then w.rollouts[i].cursor else 0
  }

  lemma CursorMoves(e: Env, w: World, c: Call, i: nat)
    ensures CursorAt(Step(e, w, c), i) == if WritesCursor(w, c, i) then Max(CursorAt(w, i), c.leaseCall.cursor) else CursorAt(w, i)
  {
    if !c.OnLease? {
      StepKeepsLeaseColumns(e, w, c);
    }
  }

  lemma {:induction false} CursorIsLargest(e: Env, w: World, calls: seq<Call>, i: nat)
    ensures IsLargestOf(CursorAt(Run(e, w, calls), i), {CursorAt(w, i)} + CursorsWritten(e, w, calls, i))
    decreases calls
  {
    if calls != [] {
      CursorMoves(e, w, calls[0], i);
      CursorIsLargest(e, Step(e, w, calls[0]), calls[1..], i);
    }
  }

  /** A worker that takes a rollout over starts at the largest cursor ever written for it. */
  lemma TakeoverResumes(e: Env, calls: seq<Call>, duration: int, i: nat)
    requires ClaimLease(Run(e, EMPTY, calls), duration, i).1.Ok?
    ensures IsLargestOf(ClaimLease(Run(e, EMPTY, calls), duration, i).1.value.cursor, {0} + CursorsWritten(e, EMPTY, calls, i))
  {
    CursorIsLargest(e, EMPTY, calls, i);
  }

  // ---- Results -------------------------------------------------------------------

  predicate WritesResults(w: World, c: Call, i: nat) {
    c.OnLease? && c.leaseCall.CallResults? && c.leaseCall.lease.rolloutId == i && UpdateResults(w, c.leaseCall.lease, c.leaseCall.results).1
  }

  ghost function LastResults(e: Env, w: World, calls: seq<Call>, i: nat, start: seq<Entry>): seq<Entry>
    decreases calls
  {
    if calls == [] then start else
      LastResults(e, Step(e, w, calls[0]), calls[1..], i, if WritesResults(w, calls[0], i) then calls[0].leaseCall.results else start)
  }

  ghost predicate WasLeased(w: World, i: nat) {
    i < |w.rollouts| && w.rollouts[i].workerToken.Some? && ColumnsOk(w.now, w.nextToken, w.rollouts[i])
  }

  lemma DraftCallsKeepResults(w: World, c: DraftCall, i: nat)
    requires WasLeased(w, i)
    ensures i < |StepDraft(w, c).rollouts| && StepDraft(w, c).rollouts[i].results == w.rollouts[i].results
  {
  }

  lemma ClaimAndQueueKeepsResults(e: Env, w: World, site: string, id: nat, items: seq<QueueItem>, results: seq<Entry>, i: nat)
    requires WasLeased(w, i)
    ensures var w' := ClaimAndQueue(e, w, site, id, items, results).0;
            i < |w'.rollouts| && w'.rollouts[i].results == w.rollouts[i].results
  {
    if ClaimAndQueue(e, w, site, id, items, results).1.Ok? {
      ItemsKeepRollouts(e, Claimed(w, site, id), site, id, items, map[]);
    }
  }

  lemma StaysLeased(e: Env, w: World, c: Call, i: nat)
    requires WasLeased(w, i)
    ensures WasLeased(Step(e, w, c), i)
  {
    var maxLease := LongestLease([c]);
    LongestLeaseBounds([c]);
    assert c in [c];
    StepMovesTable(e, w, c, maxLease);
    assert RowMoves(w, Step(e, w, c), w.rollouts[i], Step(e, w, c).rollouts[i], maxLease);
    WorkerTokenMoves(e, w, c, i);
  }

  lemma ResultsMove(e: Env, w: World, c: Call, i: nat)
    requires WasLeased(w, i)
    ensures i < |Step(e, w, c).rollouts|
    ensures Step(e, w, c).rollouts[i].results == if WritesResults(w, c, i) then c.leaseCall.results else w.rollouts[i].results
  {
    match c
    case OnDevice(x, call) => DeviceCallKeepsRollouts(e, w, x, call);
    case OnDraft(call) => DraftCallsKeepResults(w, call, i);
    case CallClaimAndQueue(site, id, items, results) => ClaimAndQueueKeepsResults(e, w, site, id, items, results, i);
    case _ =>
  }

  /**
   * Once a rollout was leased, its results are those of the last successful
   * worker write: neither reports nor operators touch them again.
   */
  lemma {:induction false} ResultsAreLastWritten(e: Env, w: World, calls: seq<Call>, i: nat)
    requires WasLeased(w, i)
    ensures i < |Run(e, w, calls).rollouts|
    ensures Run(e, w, calls).rollouts[i].results == LastResults(e, w, calls, i, w.rollouts[i].results)
    decreases calls
  {
    if calls != [] {
      StaysLeased(e, w, calls[0], i);
      ResultsMove(e, w, calls[0], i);
      ResultsAreLastWritten(e, Step(e, w, calls[0]), calls[1..], i);
    }
  }
}
