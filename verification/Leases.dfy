/**
 * Rollout rows over whole runs: worker leases and claims, the two clocks,
 * fencing tokens, and the statuses that nothing leaves.
 */
module Leases {
  import opened Common
  import opened ChangeSets
  import opened DeviceSlot
  import opened Controller

  // ---- The lease invariant --------------------------------------------------

  /** How status, tokens and lease columns of one rollout fit together. */
  ghost predicate ColumnsOk(now: int, nextToken: nat, r: Rollout) {
    && r.updatedAt <= now
    && (r.claimToken.Some? ==> r.status.Running? && r.workerToken.None? && r.claimToken.value < nextToken)
    && (r.workerToken.Some? <==> r.leaseUntil.Some?)
    && (r.workerToken.Some? ==> r.workerToken.value < nextToken && !r.status.Draft? && !r.status.Queued? && !r.status.DraftRejected?)
    && (r.status.Running? ==> r.claimToken.Some? || r.leaseUntil.Some?)
  }

  /** `maxLease` bounds every lease duration used so far. */
  ghost predicate RolloutOk(now: int, nextToken: nat, r: Rollout, maxLease: int) {
    && ColumnsOk(now, nextToken, r)
    && (r.status.Running? && r.leaseUntil.Some? ==> r.leaseUntil.value <= r.updatedAt + maxLease)
  }

  /** At most one live lease in a site. */
  ghost predicate Exclusive(w: World) {
    forall i, j | 0 <= i < |w.rollouts| && 0 <= j < |w.rollouts| ::
      Live(w, w.rollouts[i]) && Live(w, w.rollouts[j]) && w.rollouts[i].site == w.rollouts[j].site ==> i == j
  }

  ghost predicate RolloutsOk(w: World, maxLease: int) {
    forall i | 0 <= i < |w.rollouts| :: RolloutOk(w.now, w.nextToken, w.rollouts[i], maxLease)
  }

  ghost predicate LeasesOk(w: World, maxLease: int) {
    RolloutsOk(w, maxLease) && Exclusive(w)
  }

  predicate Bounded(c: Call, maxLease: int) {
    c.OnLease? && (c.leaseCall.CallClaimLease? || c.leaseCall.CallRenew?) ==> c.leaseCall.duration <= maxLease
  }

  ghost predicate AllBounded(calls: seq<Call>, maxLease: int) {
    forall c | c in calls :: Bounded(c, maxLease)
  }

  /** What any call may do to one rollout row. */
  ghost predicate RowMoves(w: World, w': World, r: Rollout, r': Rollout, maxLease: int) {
    && r'.site == r.site && r'.sequence == r.sequence && r'.plan == r.plan
    && (ColumnsOk(w.now, w.nextToken, r) ==> ColumnsOk(w'.now, w'.nextToken, r'))
    && (RolloutOk(w.now, w.nextToken, r, maxLease) ==> RolloutOk(w'.now, w'.nextToken, r', maxLease))
    && (Closed(r.status) ==> r' == r)
    && (r'.workerToken == r.workerToken || r'.workerToken == Some(w.nextToken))
  }

  /** The statuses that are never left. */
  predicate Closed(s: RolloutStatus) {
    !s.Draft? && !s.Running? && !s.Queued?
  }

  ghost predicate TableMoves(w: World, w': World, maxLease: int) {
    && w.now <= w'.now && w.nextToken <= w'.nextToken
    && |w.rollouts| <= |w'.rollouts|
    && (forall i | 0 <= i < |w.rollouts| :: RowMoves(w, w', w.rollouts[i], w'.rollouts[i], maxLease))
    && (forall i | |w.rollouts| <= i < |w'.rollouts| :: RolloutOk(w'.now, w'.nextToken, w'.rollouts[i], maxLease) && w'.rollouts[i].status.Draft?)
  }

  lemma {:induction false} ItemsKeepRollouts(e: Env, w: World, site: string, id: nat, items: seq<QueueItem>, g: map<string, int>)
    requires QueueItems(e, w, site, id, items, g).Ok?
    ensures var w' := QueueItems(e, w, site, id, items, g).value.0;
            w'.now == w.now && w'.nextToken == w.nextToken && w'.rollouts == w.rollouts
    decreases items
  {
    if items != [] {
      var cs := items[0].cs;
      var (w', answer) := QueueFor(e, w, site, items[0].role, cs.deviceId, cs, id);
      ItemsKeepRollouts(e, w', site, id, items[1..], g[cs.deviceId := answer.value]);
    }
  }

  lemma ClaimMovesTable(w: World, site: string, id: nat, maxLease: int)
    requires Claimable(w, site, id)
    ensures TableMoves(w, Claimed(w, site, id), maxLease)
    ensures HoldsClaim(Claimed(w, site, id), site, id, w.nextToken)
  {
  }

  lemma ClaimAndQueueMovesTable(e: Env, w: World, site: string, id: nat, items: seq<QueueItem>, results: seq<Entry>, maxLease: int)
    ensures TableMoves(w, ClaimAndQueue(e, w, site, id, items, results).0, maxLease)
  {
    var (w', answer) := ClaimAndQueue(e, w, site, id, items, results);
    if answer.Ok? {
      var w1 := Claimed(w, site, id);
      ClaimMovesTable(w, site, id, maxLease);
      ItemsKeepRollouts(e, w1, site, id, items, map[]);
      forall i | 0 <= i < |w.rollouts| ensures RowMoves(w, w', w.rollouts[i], w'.rollouts[i], maxLease) {
        assert RowMoves(w, w1, w.rollouts[i], w1.rollouts[i], maxLease);
      }
    }
  }

  lemma DraftMovesTable(w: World, c: DraftCall, maxLease: int)
    ensures TableMoves(w, StepDraft(w, c), maxLease)
  {
    if c.CallClaimDraft? && Claimable(w, c.site, c.id) {
      ClaimMovesTable(w, c.site, c.id, maxLease);
    }
  }

  lemma LeaseMovesTable(w: World, c: LeaseCall, maxLease: int)
    requires Bounded(OnLease(c), maxLease)
    ensures TableMoves(w, StepLease(w, c), maxLease)
  {
  }

  lemma ReportMovesTable(w: World, x: string, report: Report, maxLease: int)
    ensures TableMoves(w, RecordReport(w, x, report).0, maxLease)
  {
  }

  lemma DeviceCallKeepsRollouts(e: Env, w: World, x: string, c: DeviceCall)
    ensures var w' := StepDevice(e, w, x, c);
            w'.now == w.now && w'.nextToken == w.nextToken && w'.rollouts == w.rollouts
  {
  }

  lemma StepMovesTable(e: Env, w: World, c: Call, maxLease: int)
    requires Bounded(c, maxLease)
    ensures TableMoves(w, Step(e, w, c), maxLease)
  {
    match c
    case Tick(_) =>
    case OnDevice(x, call) => DeviceCallKeepsRollouts(e, w, x, call);
    case OnReport(x, report) => ReportMovesTable(w, x, report, maxLease);
    case OnDraft(call) => DraftMovesTable(w, call, maxLease);
    case OnLease(call) => LeaseMovesTable(w, call, maxLease);
    case CallClaimAndQueue(site, id, items, results) => ClaimAndQueueMovesTable(e, w, site, id, items, results, maxLease);
  }

  // ---- What each kind of call leaves alone ------------------------------------------

  /** Only lease calls write the lease columns; only claims start a run. */
  ghost predicate LeaseColumnsKept(w: World, w': World) {
    && |w.rollouts| <= |w'.rollouts| && w.now <= w'.now
    && (forall i | 0 <= i < |w.rollouts| ::
          && w'.rollouts[i].site == w.rollouts[i].site
          && w'.rollouts[i].leaseUntil == w.rollouts[i].leaseUntil
          && w'.rollouts[i].workerToken == w.rollouts[i].workerToken
          && w'.rollouts[i].cursor == w.rollouts[i].cursor
          && (w'.rollouts[i].status.Running? ==> w.rollouts[i].status.Running? || w.rollouts[i].status.Draft?))
    && (forall i | |w.rollouts| <= i < |w'.rollouts| :: w'.rollouts[i].leaseUntil.None? && w'.rollouts[i].cursor == 0)
  }

  lemma ClaimAndQueueKeepsLeaseColumns(e: Env, w: World, site: string, id: nat, items: seq<QueueItem>, results: seq<Entry>)
    ensures LeaseColumnsKept(w, ClaimAndQueue(e, w, site, id, items, results).0)
  {
    if ClaimAndQueue(e, w, site, id, items, results).1.Ok? {
      ItemsKeepRollouts(e, Claimed(w, site, id), site, id, items, map[]);
    }
  }

  lemma DraftKeepsLeaseColumns(w: World, c: DraftCall)
    ensures LeaseColumnsKept(w, StepDraft(w, c))
  {
  }

  lemma StepKeepsLeaseColumns(e: Env, w: World, c: Call)
    requires !c.OnLease?
    ensures LeaseColumnsKept(w, Step(e, w, c))
  {
    match c
    case OnDevice(x, call) => DeviceCallKeepsRollouts(e, w, x, call);
    case OnDraft(call) => DraftKeepsLeaseColumns(w, call);
    case CallClaimAndQueue(site, id, items, results) => ClaimAndQueueKeepsLeaseColumns(e, w, site, id, items, results);
    case _ =>
  }

  lemma StepKeepsExclusive(e: Env, w: World, c: Call, maxLease: int)
    requires LeasesOk(w, maxLease) && Bounded(c, maxLease)
    ensures Exclusive(Step(e, w, c))
  {
    var w' := Step(e, w, c);
    if !c.OnLease? {
      StepKeepsLeaseColumns(e, w, c);
      forall i | 0 <= i < |w'.rollouts| && Live(w', w'.rollouts[i]) ensures i < |w.rollouts| && Live(w, w.rollouts[i]) {
        assert i < |w.rollouts| ==> RolloutOk(w.now, w.nextToken, w.rollouts[i], maxLease);
      }
    }
  }

  lemma StepKeepsLeases(e: Env, w: World, c: Call, maxLease: int)
    requires LeasesOk(w, maxLease) && Bounded(c, maxLease)
    ensures LeasesOk(Step(e, w, c), maxLease)
  {
    var w' := Step(e, w, c);
    StepMovesTable(e, w, c, maxLease);
    StepKeepsExclusive(e, w, c, maxLease);
    forall i | 0 <= i < |w'.rollouts| ensures RolloutOk(w'.now, w'.nextToken, w'.rollouts[i], maxLease) {
      if i < |w.rollouts| {
        assert RowMoves(w, w', w.rollouts[i], w'.rollouts[i], maxLease);
      }
    }
  }

  /** Lease exclusivity in every reachable state: a site has at most one live lease. */
  lemma {:induction false} RunsKeepLeases(e: Env, w: World, calls: seq<Call>, maxLease: int)
    requires LeasesOk(w, maxLease) && AllBounded(calls, maxLease)
    ensures LeasesOk(Run(e, w, calls), maxLease)
    decreases calls
  {
    if calls != [] {
      assert calls[0] in calls;
      StepKeepsLeases(e, w, calls[0], maxLease);
      RunsKeepLeases(e, Step(e, w, calls[0]), calls[1..], maxLease);
    }
  }

  // ---- Closed statuses and tokens over runs --------------------------------------

  function LongestLease(calls: seq<Call>): int
    decreases calls
  {
    if calls == [] then 0 else
      var c := calls[0];
      Max(LongestLease(calls[1..]), if c.OnLease? && (c.leaseCall.CallClaimLease? || c.leaseCall.CallRenew?) then c.leaseCall.duration else 0)
  }

  lemma {:induction false} LongestLeaseBounds(calls: seq<Call>)
    ensures AllBounded(calls, LongestLease(calls))
    decreases calls
  {
    if calls != [] {
      LongestLeaseBounds(calls[1..]);
      forall c | c in calls ensures Bounded(c, LongestLease(calls)) {
        if c != calls[0] {
          assert c in calls[1..];
        }
      }
    }
  }

  /** STALE, REJECTED, completed and failed rollouts never change again, in any run. */
  lemma {:induction false} ClosedRolloutsStayClosed(e: Env, w: World, calls: seq<Call>, i: nat)
    requires i < |w.rollouts| && Closed(w.rollouts[i].status)
    ensures i < |Run(e, w, calls).rollouts| && Run(e, w, calls).rollouts[i] == w.rollouts[i]
    decreases calls
  {
    if calls != [] {
      LongestLeaseBounds(calls);
      assert calls[0] in calls;
      StepMovesTable(e, w, calls[0], LongestLease(calls));
      assert RowMoves(w, Step(e, w, calls[0]), w.rollouts[i], Step(e, w, calls[0]).rollouts[i], LongestLease(calls));
      ClosedRolloutsStayClosed(e, Step(e, w, calls[0]), calls[1..], i);
    }
  }

  lemma {:induction false} MaxSequenceBounds(rollouts: seq<Rollout>, site: string, i: nat)
    requires i < |rollouts| && rollouts[i].site == site
    ensures rollouts[i].sequence <= MaxSequence(rollouts, site)
    decreases |rollouts|
  {
    var n := |rollouts| - 1;
    if i < n {
      MaxSequenceBounds(rollouts[..n], site, i);
    }
  }

  /** A draft that is still a DRAFT when a newer one is created is STALE in every later state. */
  lemma SupersededDraftNeverRuns(e: Env, w: World, site: string, plan: Plan, calls: seq<Call>, i: nat)
    requires i < |w.rollouts| && w.rollouts[i].site == site && w.rollouts[i].status.Draft?
    ensures var w' := Run(e, CreateDraft(w, site, plan), calls);
            i < |w'.rollouts| && w'.rollouts[i].status.Stale?
  {
    MaxSequenceBounds(w.rollouts, site, i);
    ClosedRolloutsStayClosed(e, CreateDraft(w, site, plan), calls, i);
  }

  /** A rollout that is not RUNNING queues nothing: the call leaves every table alone. */
  lemma OnlyRunningRolloutsQueue(e: Env, w: World, site: string, role: string, x: string, cs: ChangeSet, id: nat)
    requires id >= |w.rollouts| || !w.rollouts[id].status.Running?
    ensures QueueFor(e, w, site, role, x, cs, id).0 == w
  {
    if x in w.devices {
      assert w.devices[x := w.devices[x]] == w.devices;
    }
  }

  /** The rollout a lease call speaks about. */
  function LeaseOf(c: LeaseCall): nat {
    if c.CallClaimLease? then c.id else c.lease.rolloutId
  }

  /** Calls on behalf of rollout i. */
  predicate ActsFor(c: Call, i: nat) {
    match c
    case OnDevice(_, call) => call.CallQueueFor? && call.rolloutId == i
    case OnLease(call) => LeaseOf(call) == i
    case CallClaimAndQueue(_, id, _, _) => id == i
    case _ => false
  }

  /**
   * A closed rollout is spent: in every later state it queues nothing for any
   * device, is neither claimed nor leased, and accepts no worker write.
   */
  lemma ClosedRolloutsActNoMore(e: Env, w: World, calls: seq<Call>, i: nat, c: Call)
    requires i < |w.rollouts| && Closed(w.rollouts[i].status) && ActsFor(c, i)
    ensures var later := Run(e, w, calls); Step(e, later, c) == later
  {
    var later := Run(e, w, calls);
    ClosedRolloutsStayClosed(e, w, calls, i);
    if c.OnDevice? {
      OnlyRunningRolloutsQueue(e, later, c.deviceCall.ownerSite, c.deviceCall.ownerRole, c.x, c.deviceCall.ownedCs, i);
    }
  }

  predicate ClaimsLease(w: World, c: Call, i: nat) {
    c.OnLease? && c.leaseCall.CallClaimLease? && c.leaseCall.id == i && ClaimLease(w, c.leaseCall.duration, i).1.Ok?
  }

  /** The token handed out by the latest successful lease claim of rollout i in a run. */
  ghost function LatestToken(e: Env, w: World, calls: seq<Call>, i: nat, start: Option<nat>): Option<nat>
    decreases calls
  {
    if calls == [] then start else
      LatestToken(e, Step(e, w, calls[0]), calls[1..], i, if ClaimsLease(w, calls[0], i) then Some(w.nextToken) else start)
  }

  lemma WorkerTokenMoves(e: Env, w: World, c: Call, i: nat)
    requires i < |w.rollouts|
    ensures i < |Step(e, w, c).rollouts|
    ensures Step(e, w, c).rollouts[i].workerToken == if ClaimsLease(w, c, i) then Some(w.nextToken) else w.rollouts[i].workerToken
  {
    if !c.OnLease? {
      StepKeepsLeaseColumns(e, w, c);
    }
  }

  lemma {:induction false} TokenIsLatest(e: Env, w: World, calls: seq<Call>, i: nat)
    requires i < |w.rollouts|
    ensures i < |Run(e, w, calls).rollouts|
    ensures Run(e, w, calls).rollouts[i].workerToken == LatestToken(e, w, calls, i, w.rollouts[i].workerToken)
    decreases calls
  {
    if calls != [] {
      WorkerTokenMoves(e, w, calls[0], i);
      TokenIsLatest(e, Step(e, w, calls[0]), calls[1..], i);
    }
  }

  predicate LeaseWrite(c: LeaseCall) { c.CallRenew? || c.CallCursor? || c.CallResults? }

  /**
   * Fencing: a cursor, result or renewal write that changes anything carries the
   * token of the rollout's most recent claim, and comes before its lease expired.
   */
  lemma WritesCarryTheLatestToken(e: Env, w: World, calls: seq<Call>, c: LeaseCall)
    requires LeaseWrite(c) && c.lease.rolloutId < |w.rollouts|
    ensures var now := Run(e, w, calls);
            StepLease(now, c) != now ==>
              && LatestToken(e, w, calls, c.lease.rolloutId, w.rollouts[c.lease.rolloutId].workerToken) == Some(c.lease.token)
              && c.lease.rolloutId < |now.rollouts|
              && now.rollouts[c.lease.rolloutId].leaseUntil.Some?
              && now.now <= now.rollouts[c.lease.rolloutId].leaseUntil.value
  {
    TokenIsLatest(e, w, calls, c.lease.rolloutId);
  }

  ghost predicate TokenAtLeast(w: World, i: nat, bound: nat) {
    i < |w.rollouts| && w.rollouts[i].workerToken.Some? && w.rollouts[i].workerToken.value >= bound && w.nextToken >= bound
  }

  lemma {:induction false} TokensOnlyGrow(e: Env, w: World, calls: seq<Call>, i: nat, bound: nat)
    requires TokenAtLeast(w, i, bound)
    ensures TokenAtLeast(Run(e, w, calls), i, bound)
    decreases calls
  {
    if calls != [] {
      LongestLeaseBounds(calls);
      assert calls[0] in calls;
      StepMovesTable(e, w, calls[0], LongestLease(calls));
      assert RowMoves(w, Step(e, w, calls[0]), w.rollouts[i], Step(e, w, calls[0]).rollouts[i], LongestLease(calls));
      TokensOnlyGrow(e, Step(e, w, calls[0]), calls[1..], i, bound);
    }
  }

  /** Once a rollout is claimed again, the previous holder's writes are refused for ever. */
  lemma DeposedWorkerNeverWrites(e: Env, w: World, duration: int, id: nat, deposed: Lease, calls: seq<Call>, c: LeaseCall)
    requires ClaimLease(w, duration, id).1.Ok? && deposed.rolloutId == id && deposed.token < w.nextToken
    requires LeaseWrite(c) && c.lease == deposed
    ensures var later := Run(e, ClaimLease(w, duration, id).0, calls);
            StepLease(later, c) == later
  {
    TokensOnlyGrow(e, ClaimLease(w, duration, id).0, calls, id, w.nextToken);
  }

  // ---- The two clocks ------------------------------------------------------------------

  /** Every live lease belongs to a rollout that also looks fresh to the twenty-minute fence. */
  ghost predicate ClocksAgree(w: World) {
    forall i | 0 <= i < |w.rollouts| && Live(w, w.rollouts[i]) :: FreshRunning(w, w.rollouts[i], w.rollouts[i].site)
  }

  lemma LiveIsFresh(w: World, maxLease: int)
    requires RolloutsOk(w, maxLease) && maxLease <= TWENTY_MINUTES
    ensures ClocksAgree(w)
  {
    forall i | 0 <= i < |w.rollouts| && Live(w, w.rollouts[i]) ensures FreshRunning(w, w.rollouts[i], w.rollouts[i].site) {
      assert RolloutOk(w.now, w.nextToken, w.rollouts[i], maxLease);
    }
  }

  /** Calls that would start competing work in the site, other than for rollout i. */
  predicate Competes(w: World, c: Call, site: string, i: nat) {
    match c
    case OnDraft(call) => call.CallClaimDraft? && call.site == site
    case CallClaimAndQueue(s, _, _, _) => s == site
    case OnLease(call) => call.CallClaimLease? && call.id < |w.rollouts| && w.rollouts[call.id].site == site
    case OnDevice(x, call) =>
      && x in w.devices && w.devices[x].site == Some(site)
      && (call.CallQueueOp? || call.CallQueue? || (call.CallQueueFor? && call.rolloutId != i))
    case _ => false
  }

  lemma FencedRowQueuesNothing(e: Env, w: World, x: string, c: DeviceCall, site: string, i: nat)
    requires SiteFenced(w, site, None) && forall id | id != i :: SiteFenced(w, site, Some(id))
    requires Competes(w, OnDevice(x, c), site, i)
    ensures StepDevice(e, w, x, c) == w
  {
    assert w.devices[x := w.devices[x]] == w.devices;
  }

  lemma RunningOutlivesDraftCalls(w: World, c: DraftCall, i: nat)
    requires i < |w.rollouts| && FreshRunning(w, w.rollouts[i], w.rollouts[i].site) && w.rollouts[i].claimToken.None?
    ensures i < |StepDraft(w, c).rollouts| && StepDraft(w, c).rollouts[i].status.Running?
  {
  }

  lemma RunningOutlivesClaimAndQueue(e: Env, w: World, site: string, id: nat, items: seq<QueueItem>, results: seq<Entry>, i: nat)
    requires i < |w.rollouts| && FreshRunning(w, w.rollouts[i], w.rollouts[i].site)
    ensures var w' := ClaimAndQueue(e, w, site, id, items, results).0;
            i < |w'.rollouts| && w'.rollouts[i].status.Running?
  {
    if ClaimAndQueue(e, w, site, id, items, results).1.Ok? {
      ItemsKeepRollouts(e, Claimed(w, site, id), site, id, items, map[]);
    }
  }

  lemma CompetingCallsFail(e: Env, w: World, c: Call, i: nat)
    requires i < |w.rollouts| && Live(w, w.rollouts[i]) && FreshRunning(w, w.rollouts[i], w.rollouts[i].site)
    requires Competes(w, c, w.rollouts[i].site, i)
    ensures Step(e, w, c) == w
  {
    var site := w.rollouts[i].site;
    assert SiteFenced(w, site, None);
    assert forall id | id != i :: SiteFenced(w, site, Some(id));
    if c.OnDevice? {
      FencedRowQueuesNothing(e, w, c.x, c.deviceCall, site, i);
    }
  }

  lemma FreshRunningSurvives(e: Env, w: World, c: Call, i: nat)
    requires i < |w.rollouts| && w.rollouts[i].claimToken.None? && FreshRunning(w, w.rollouts[i], w.rollouts[i].site)
    ensures i < |Step(e, w, c).rollouts| && Step(e, w, c).rollouts[i].status.Running?
  {
    match c
    case OnDevice(x, call) => DeviceCallKeepsRollouts(e, w, x, call);
    case OnDraft(call) => RunningOutlivesDraftCalls(w, call, i);
    case CallClaimAndQueue(s, id, items, results) => RunningOutlivesClaimAndQueue(e, w, s, id, items, results, i);
    case _ =>
  }

  /**
   * While rollout i holds a live lease of at most twenty minutes, no competing
   * call on its site has any effect, and no call at all takes it out of RUNNING.
   */
  lemma LiveLeaseProtectsSite(e: Env, w: World, c: Call, maxLease: int, i: nat)
    requires LeasesOk(w, maxLease) && Bounded(c, maxLease) && maxLease <= TWENTY_MINUTES
    requires i < |w.rollouts| && Live(w, w.rollouts[i])
    ensures Competes(w, c, w.rollouts[i].site, i) ==> Step(e, w, c) == w
    ensures i < |Step(e, w, c).rollouts| && Step(e, w, c).rollouts[i].status.Running?
  {
    LiveIsFresh(w, maxLease);
    assert RolloutOk(w.now, w.nextToken, w.rollouts[i], maxLease);
    FreshRunningSurvives(e, w, c, i);
    if Competes(w, c, w.rollouts[i].site, i) {
      CompetingCallsFail(e, w, c, i);
    }
  }
}
