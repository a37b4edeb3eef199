/**
 * The life of drafts over whole runs: their numbers, what a claim leaves of the
 * other rollouts of its site, what a release gives back, that verdicts are
 * final, and how two rollouts of one site can be RUNNING and block each other.
 */
module DraftLife {
  import opened Common
  import opened ChangeSets
  import opened DeviceSlot
  import opened Controller
  import opened Leases

  // ---- Numbers ---------------------------------------------------------------

  /** How many of the rollouts belong to the site. */
  function OfSite(rollouts: seq<Rollout>, site: string): nat {
    if rollouts == [] then 0 else
      OfSite(rollouts[..|rollouts| - 1], site) + if rollouts[|rollouts| - 1].site == site then 1 else 0
  }

  /** The rollouts of each site are numbered one, two, three and so on. */
  ghost predicate Numbered(rollouts: seq<Rollout>) {
    forall i | 0 <= i < |rollouts| :: rollouts[i].sequence == OfSite(rollouts[..i], rollouts[i].site) + 1
  }

  lemma NumberedFront(rollouts: seq<Rollout>, n: nat)
    requires Numbered(rollouts) && n <= |rollouts|
    ensures Numbered(rollouts[..n])
  {
    forall i | 0 <= i < n ensures rollouts[..n][i].sequence == OfSite(rollouts[..n][..i], rollouts[..n][i].site) + 1 {
      assert rollouts[..n][..i] == rollouts[..i];
    }
  }

  lemma {:induction false} LargestIsCount(rollouts: seq<Rollout>, site: string)
    requires Numbered(rollouts)
    ensures MaxSequence(rollouts, site) == OfSite(rollouts, site)
    decreases |rollouts|
  {
    if rollouts != [] {
      var n := |rollouts| - 1;
      NumberedFront(rollouts, n);
      LargestIsCount(rollouts[..n], site);
    }
  }

  ghost predicate SameNames(a: seq<Rollout>, b: seq<Rollout>) {
    |a| <= |b| && forall i | 0 <= i < |a| :: a[i].site == b[i].site && a[i].sequence == b[i].sequence
  }

  lemma {:induction false} SameCount(a: seq<Rollout>, b: seq<Rollout>, site: string)
    requires SameNames(a, b) && |a| == |b|
    ensures OfSite(a, site) == OfSite(b, site)
    decreases |a|
  {
    if a != [] {
      SameCount(a[..|a| - 1], b[..|b| - 1], site);
    }
  }

  lemma OneMoreNumbered(a: seq<Rollout>, b: seq<Rollout>)
    requires Numbered(a) && SameNames(a, b) && |b| <= |a| + 1
    requires |b| == |a| + 1 ==> b[|a|].sequence == OfSite(a, b[|a|].site) + 1
    ensures Numbered(b)
  {
    forall i | 0 <= i < |b| ensures b[i].sequence == OfSite(b[..i], b[i].site) + 1 {
      SameCount(a[..i], b[..i], b[i].site);
      assert a[..|a|] == a;
    }
  }

  lemma CallKeepsNames(e: Env, w: World, c: Call)
    ensures SameNames(w.rollouts, Step(e, w, c).rollouts)
    ensures !(c.OnDraft? && c.draftCall.CallCreateDraft?) ==> |Step(e, w, c).rollouts| == |w.rollouts|
  {
    LongestLeaseBounds([c]);
    assert c in [c];
    StepMovesTable(e, w, c, LongestLease([c]));
    if c.CallClaimAndQueue? && ClaimAndQueue(e, w, c.site, c.id, c.items, c.results).1.Ok? {
      ItemsKeepRollouts(e, Claimed(w, c.site, c.id), c.site, c.id, c.items, map[]);
    }
  }

  /** In every run the drafts of a site are numbered in the order they were created, without a gap. */
  lemma {:induction false} RunsNumber(e: Env, w: World, calls: seq<Call>)
    requires Numbered(w.rollouts)
    ensures Numbered(Run(e, w, calls).rollouts)
    decreases calls
  {
    if calls != [] {
      var c, w' := calls[0], Step(e, w, calls[0]);
      CallKeepsNames(e, w, c);
      if c.OnDraft? && c.draftCall.CallCreateDraft? {
        LargestIsCount(w.rollouts, c.draftCall.site);
      }
      OneMoreNumbered(w.rollouts, w'.rollouts);
      RunsNumber(e, w', calls[1..]);
    }
  }

  lemma {:induction false} CountGrows(rollouts: seq<Rollout>, site: string, i: nat, j: nat)
    requires i < j <= |rollouts| && rollouts[i].site == site
    ensures OfSite(rollouts[..i], site) < OfSite(rollouts[..j], site)
    decreases j
  {
    assert rollouts[..j][..j - 1] == rollouts[..j - 1];
    if i < j - 1 {
      CountGrows(rollouts, site, i, j - 1);
    }
  }

  lemma LaterIsNewer(rollouts: seq<Rollout>, i: nat, j: nat)
    requires Numbered(rollouts) && i < j < |rollouts| && rollouts[i].site == rollouts[j].site
    ensures rollouts[i].sequence < rollouts[j].sequence
  {
    CountGrows(rollouts, rollouts[i].site, i, j);
  }

  // ---- What a claim leaves ------------------------------------------------------

  predicate AtWork(s: RolloutStatus) { s == Running || s == Draft }

  /** The site had a crashed run: RUNNING, and not touched for twenty minutes. */
  predicate HadCrashedRun(w: World, site: string) {
    exists i | 0 <= i < |w.rollouts| :: w.rollouts[i].site == site && w.rollouts[i].status == Running && w.rollouts[i].updatedAt < w.now - 1_200_000_000
  }

  /**
   * A claim leaves its site with one rollout that may do anything: the claimed
   * draft, RUNNING under a fresh token. Crashed runs and all other drafts of the
   * site are STALE, and no other rollout is touched. Devices that a crashed run
   * left RUNNING are FAILED, and no other device is touched.
   */
  lemma ClaimLeavesOne(w: World, site: string, id: nat)
    requires Numbered(w.rollouts) && Claimable(w, site, id)
    ensures var w' := Claimed(w, site, id);
            && |w'.rollouts| == |w.rollouts|
            && w'.rollouts[id] == w.rollouts[id].(status := Running, claimToken := Some(w.nextToken), updatedAt := w.now)
            && (forall j | 0 <= j < |w.rollouts| && j != id ::
                  w'.rollouts[j] ==
                  if w.rollouts[j].site == site && AtWork(w.rollouts[j].status)
                  then w.rollouts[j].(status := Stale, claimToken := None, updatedAt := w.now) else w.rollouts[j])
            && w'.devices.Keys == w.devices.Keys
            && (forall x | x in w.devices ::
                  w'.devices[x] ==
                  if HadCrashedRun(w, site) && w.devices[x].site == Some(site) && w.devices[x].flag == FlagRunning
                  then w.devices[x].(flag := FlagFailed) else w.devices[x])
  {
    forall j | 0 <= j < |w.rollouts| && j != id && w.rollouts[j].site == site
      ensures w.rollouts[j].status == Draft ==> w.rollouts[j].sequence < w.rollouts[id].sequence
      ensures w.rollouts[j].status == Running ==> w.rollouts[j].updatedAt < w.now - 1_200_000_000
    {
      LaterIsNewer(w.rollouts, if id < j then id else j, if id < j then j else id);
      assert FreshRunning(w, w.rollouts[j], site) <==> w.rollouts[j].status == Running && w.rollouts[j].updatedAt >= w.now - 1_200_000_000;
    }
  }

  // ---- Claims in every run ---------------------------------------------------------

  ghost predicate OneHolder(w: World) {
    forall i, j | 0 <= i < |w.rollouts| && 0 <= j < |w.rollouts| && w.rollouts[i].site == w.rollouts[j].site
      && w.rollouts[i].claimToken.Some? && w.rollouts[j].claimToken.Some? :: i == j
  }

  /** Where a claim token can come from. */
  predicate GrantsClaim(w: World, c: Call, i: nat) {
    c.OnDraft? && c.draftCall.CallClaimDraft? && c.draftCall.id == i && Claimable(w, c.draftCall.site, i)
  }

  lemma DraftTokensComeFromClaims(w: World, c: DraftCall, i: nat)
    requires i < |StepDraft(w, c).rollouts| && StepDraft(w, c).rollouts[i].claimToken.Some?
    ensures i < |w.rollouts| && (GrantsClaim(w, OnDraft(c), i) || StepDraft(w, c).rollouts[i].claimToken == w.rollouts[i].claimToken)
  {
  }

  lemma TokensComeFromClaims(e: Env, w: World, c: Call, i: nat)
    requires i < |Step(e, w, c).rollouts| && Step(e, w, c).rollouts[i].claimToken.Some?
    ensures i < |w.rollouts| && (GrantsClaim(w, c, i) || Step(e, w, c).rollouts[i].claimToken == w.rollouts[i].claimToken)
  {
    match c
    case OnDevice(x, call) => DeviceCallKeepsRollouts(e, w, x, call);
    case OnDraft(call) => DraftTokensComeFromClaims(w, call, i);
    case CallClaimAndQueue(site, id, items, results) =>
      if ClaimAndQueue(e, w, site, id, items, results).1.Ok? {
        ItemsKeepRollouts(e, Claimed(w, site, id), site, id, items, map[]);
      }
    case _ =>
  }

  lemma StepKeepsOneHolder(e: Env, w: World, c: Call, maxLease: int)
    requires LeasesOk(w, maxLease) && Bounded(c, maxLease) && Numbered(w.rollouts) && OneHolder(w)
    ensures OneHolder(Step(e, w, c))
  {
    var w' := Step(e, w, c);
    CallKeepsNames(e, w, c);
    StepKeepsLeases(e, w, c, maxLease);
    forall i, j | 0 <= i < |w'.rollouts| && 0 <= j < |w'.rollouts| && w'.rollouts[i].site == w'.rollouts[j].site
      && w'.rollouts[i].claimToken.Some? && w'.rollouts[j].claimToken.Some?
      ensures i == j
    {
      TokensComeFromClaims(e, w, c, i);
      TokensComeFromClaims(e, w, c, j);
      if GrantsClaim(w, c, i) {
        ClaimExcludes(w, c.draftCall.site, i, j);
      } else if GrantsClaim(w, c, j) {
        ClaimExcludes(w, c.draftCall.site, j, i);
      }
    }
  }

  lemma ClaimExcludes(w: World, site: string, id: nat, j: nat)
    requires Numbered(w.rollouts) && Claimable(w, site, id) && j < |w.rollouts| && w.rollouts[j].site == site
    requires forall i | 0 <= i < |w.rollouts| && w.rollouts[i].claimToken.Some? :: w.rollouts[i].status.Running?
    ensures Claimed(w, site, id).rollouts[j].claimToken.Some? ==> j == id
  {
    ClaimLeavesOne(w, site, id);
  }

  /** In every reachable state at most one rollout of a site is claimed, and at most one has a live lease. */
  lemma {:induction false} OneHolderInEveryRun(e: Env, w: World, calls: seq<Call>, maxLease: int)
    requires LeasesOk(w, maxLease) && AllBounded(calls, maxLease) && Numbered(w.rollouts) && OneHolder(w)
    ensures OneHolder(Run(e, w, calls)) && Exclusive(Run(e, w, calls))
    decreases calls
  {
    if calls != [] {
      assert calls[0] in calls;
      var w' := Step(e, w, calls[0]);
      StepKeepsOneHolder(e, w, calls[0], maxLease);
      StepKeepsLeases(e, w, calls[0], maxLease);
      RunsNumber(e, w, [calls[0]]);
      assert [calls[0]][1..] == [] && Run(e, w, [calls[0]]) == w';
      OneHolderInEveryRun(e, w', calls[1..], maxLease);
    }
  }

  // ---- Releases and verdicts ---------------------------------------------------------------

  /** A released claim gives the draft back as it was, and it can be claimed again at once. */
  lemma ReleaseUndoesClaim(w: World, site: string, id: nat)
    requires Numbered(w.rollouts) && Claimable(w, site, id) && ColumnsOk(w.now, w.nextToken, w.rollouts[id])
    ensures var (w', ok) := ReleaseDraft(Claimed(w, site, id), site, id, w.nextToken);
            && ok && w'.rollouts[id] == w.rollouts[id].(updatedAt := w.now)
            && Claimable(w', site, id)
  {
    ClaimLeavesOne(w, site, id);
    var w' := ReleaseDraft(Claimed(w, site, id), site, id, w.nextToken).0;
    assert forall j | 0 <= j < |w'.rollouts| && j != id && w'.rollouts[j].site == site :: !AtWork(w'.rollouts[j].status);
  }

  /** A verdict closes the rollout for good: rejected with its reason, finished with its results, or stale. */
  lemma VerdictsAreFinal(e: Env, w: World, site: string, id: nat, token: nat, calls: seq<Call>)
    ensures forall reason :: RejectDraft(w, site, id, reason).1 ==>
              var later := Run(e, RejectDraft(w, site, id, reason).0, calls);
              && id < |later.rollouts| && later.rollouts[id].status == DraftRejected
              && |later.rollouts[id].results| == 1
              && later.rollouts[id].results[0].status == EntryRejected && later.rollouts[id].results[0].error == Some(reason)
    ensures forall status, results :: FinishClaimed(w, id, token, status, results).1 ==>
              var later := Run(e, FinishClaimed(w, id, token, status, results).0, calls);
              && id < |later.rollouts| && later.rollouts[id].status == status && later.rollouts[id].results == results
    ensures MarkStale(w, site, id, token).1 ==>
              var later := Run(e, MarkStale(w, site, id, token).0, calls);
              id < |later.rollouts| && later.rollouts[id].status == Stale
  {
    forall reason | RejectDraft(w, site, id, reason).1
      ensures var w', later := RejectDraft(w, site, id, reason).0, Run(e, RejectDraft(w, site, id, reason).0, calls);
              id < |later.rollouts| && later.rollouts[id] == w'.rollouts[id]
    {
      ClosedRolloutsStayClosed(e, RejectDraft(w, site, id, reason).0, calls, id);
    }
    forall status, results | FinishClaimed(w, id, token, status, results).1
      ensures var w', later := FinishClaimed(w, id, token, status, results).0, Run(e, FinishClaimed(w, id, token, status, results).0, calls);
              id < |later.rollouts| && later.rollouts[id] == w'.rollouts[id]
    {
      ClosedRolloutsStayClosed(e, FinishClaimed(w, id, token, status, results).0, calls, id);
    }
    if MarkStale(w, site, id, token).1 {
      ClosedRolloutsStayClosed(e, MarkStale(w, site, id, token).0, calls, id);
    }
  }

  /** Only the holder gives a verdict on a RUNNING rollout; making one stale fails the devices it left RUNNING, and touches no other. */
  lemma StaleClosesDevices(w: World, site: string, id: nat, token: nat)
    ensures var (w', ok) := MarkStale(w, site, id, token);
            && (ok <==> id < |w.rollouts| && w.rollouts[id].site == site
                        && (w.rollouts[id].status == Draft || (w.rollouts[id].status == Running && w.rollouts[id].claimToken == Some(token))))
            && w'.devices.Keys == w.devices.Keys
            && forall x | x in w.devices ::
                 w'.devices[x] ==
                 if ok && w.rollouts[id].status == Running && w.devices[x].site == Some(site) && w.devices[x].flag == FlagRunning
                 then w.devices[x].(flag := FlagFailed) else w.devices[x]
  {
  }

  // ---- Two at work ---------------------------------------------------------------------------

  /** Two rollouts of the site are RUNNING and recently updated. */
  ghost predicate Overlap(w: World, site: string, i: nat, j: nat) {
    && i < |w.rollouts| && j < |w.rollouts| && i != j
    && FreshRunning(w, w.rollouts[i], site) && FreshRunning(w, w.rollouts[j], site)
  }

  /** While two overlap they fence each other: nothing is queued on any device of the site, on nobody's behalf. */
  lemma OverlapBlocksTheSite(e: Env, w: World, site: string, i: nat, j: nat, x: string, c: DeviceCall)
    requires Overlap(w, site, i, j) && x in w.devices && w.devices[x].site == Some(site)
    requires c.CallQueue? || c.CallQueueFor? || c.CallQueueOp?
    ensures StepDevice(e, w, x, c) == w
  {
    forall id: nat ensures SiteFenced(w, site, Some(id)) {
      var other := if id == i then j else i;
      assert FreshRunning(w, w.rollouts[other], site) && Some(id) != Some(other);
    }
    var bystander: nat := if c.CallQueueFor? then c.rolloutId + 1 else 0;
    FencedRowQueuesNothing(e, w, x, c, site, bystander);
  }

  /** The three calls: a new draft, its claim, and a worker's claim of the queued rollout. */
  function OverlapCalls(w: World, site: string, plan: Plan, i: nat, duration: int): seq<Call> {
    [OnDraft(CallCreateDraft(site, plan)), OnDraft(CallClaimDraft(site, |w.rollouts|)), OnLease(CallClaimLease(duration, i))]
  }

  /**
   * The lease claim looks for live leases only and the draft claim for RUNNING
   * rollouts only, so a QUEUED rollout and a new draft of its site come to
   * overlap whenever the draft is claimed first.
   */
  lemma QueuedRolloutIsOverlapped(e: Env, w: World, plan: Plan, i: nat, duration: int)
    requires FirstCandidate(w, i) && w.rollouts[i].status.Queued? && duration > 0
    requires Numbered(w.rollouts) && !SiteFenced(w, w.rollouts[i].site, None)
    ensures var site := w.rollouts[i].site; Overlap(Run(e, w, OverlapCalls(w, site, plan, i, duration)), site, i, |w.rollouts|)
  {
    var site := w.rollouts[i].site;
    var calls := OverlapCalls(w, site, plan, i, duration);
    var w2 := AfterTwo(w, plan, i);
    var w3 := ClaimLease(w2, duration, i).0;
    assert FreshRunning(w3, w3.rollouts[i], site) && FreshRunning(w3, w3.rollouts[|w.rollouts|], site);
    ThreeCalls(e, w, calls);
  }

  /** The draft is created and claimed; the queued rollout is next in line as before. */
  lemma AfterTwo(w: World, plan: Plan, i: nat) returns (w2: World)
    requires FirstCandidate(w, i) && w.rollouts[i].status.Queued?
    requires Numbered(w.rollouts) && !SiteFenced(w, w.rollouts[i].site, None)
    ensures var site, n := w.rollouts[i].site, |w.rollouts|;
            && w2 == ClaimDraft(CreateDraft(w, site, plan), site, n).0
            && n < |w2.rollouts| && w2.rollouts[i] == w.rollouts[i] && FirstCandidate(w2, i) && FreshRunning(w2, w2.rollouts[n], site)
  {
    var site, n := w.rollouts[i].site, |w.rollouts|;
    var w1 := CreateDraft(w, site, plan);
    LargestIsCount(w.rollouts, site);
    OneMoreNumbered(w.rollouts, w1.rollouts);
    NewDraftIsClaimable(w, site, plan);
    ClaimLeavesOne(w1, site, n);
    w2 := Claimed(w1, site, n);
    StillFirst(w, w2, i);
  }

  lemma NewDraftIsClaimable(w: World, site: string, plan: Plan)
    requires Numbered(w.rollouts) && !SiteFenced(w, site, None)
    ensures Claimable(CreateDraft(w, site, plan), site, |w.rollouts|)
  {
    var w1, n := CreateDraft(w, site, plan), |w.rollouts|;
    forall j | 0 <= j < |w1.rollouts| && w1.rollouts[j].site == site && w1.rollouts[j].status.Draft? ensures w1.rollouts[j].sequence <= w1.rollouts[n].sequence {
      if j < n {
        MaxSequenceBounds(w.rollouts, site, j);
      }
    }
    forall j | 0 <= j < |w1.rollouts| ensures !FreshRunning(w1, w1.rollouts[j], site) {
      assert j < n ==> (FreshRunning(w1, w1.rollouts[j], site) ==> FreshRunning(w, w.rollouts[j], site));
    }
  }

  lemma StillFirst(w: World, w2: World, i: nat)
    requires FirstCandidate(w, i) && w2.now == w.now && |w.rollouts| <= |w2.rollouts|
    requires forall j | 0 <= j < |w.rollouts| ::
               w2.rollouts[j] == w.rollouts[j] || (w2.rollouts[j].status.Stale? && w2.rollouts[j].site == w.rollouts[j].site == w.rollouts[i].site)
    requires forall j | |w.rollouts| <= j < |w2.rollouts| :: w2.rollouts[j].leaseUntil.None? && !w2.rollouts[j].status.Queued?
    requires w2.rollouts[i] == w.rollouts[i]
    ensures FirstCandidate(w2, i)
  {
    forall j | 0 <= j < |w2.rollouts| ensures Live(w2, w2.rollouts[j]) ==> j < |w.rollouts| && Live(w, w.rollouts[j]) {
    }
    forall j | 0 <= j < |w2.rollouts| && Candidate(w2, j) ensures j < |w.rollouts| && Candidate(w, j) {
      SameCandidate(w, w2, i, j);
    }
  }

  lemma SameCandidate(w: World, w2: World, i: nat, j: nat)
    requires Candidate(w, i) && w2.now == w.now && |w.rollouts| <= |w2.rollouts| && Candidate(w2, j)
    requires forall k | 0 <= k < |w.rollouts| ::
               w2.rollouts[k] == w.rollouts[k] || (w2.rollouts[k].status.Stale? && w2.rollouts[k].site == w.rollouts[k].site == w.rollouts[i].site)
    requires forall k | |w.rollouts| <= k < |w2.rollouts| :: w2.rollouts[k].leaseUntil.None? && !w2.rollouts[k].status.Queued?
    ensures j < |w.rollouts| && Candidate(w, j)
  {
    forall k | 0 <= k < |w.rollouts| && w.rollouts[k].site == w.rollouts[j].site ensures !Live(w, w.rollouts[k]) {
      assert w2.rollouts[k] == w.rollouts[k] ==> !Live(w2, w2.rollouts[k]);
    }
  }

  lemma ThreeCalls(e: Env, w: World, calls: seq<Call>)
    requires |calls| == 3
    ensures Run(e, w, calls) == Step(e, Step(e, Step(e, w, calls[0]), calls[1]), calls[2])
  {
    var rest := calls[1..];
    var last := rest[1..];
    assert rest[0] == calls[1] && last[0] == calls[2] && last[1..] == [];
    var w2 := Step(e, Step(e, w, calls[0]), calls[1]);
    assert Run(e, w2, last) == Run(e, Step(e, w2, calls[2]), []);
  }
}
