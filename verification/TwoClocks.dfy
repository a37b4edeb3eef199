/** The lease clock and the twenty-minute clock agree exactly when leases last at most twenty minutes. */
module TwoClocks {
  import opened Common
  import opened ChangeSets
  import opened Controller
  import Leases

  // ---- A run that queues one changeset and leases its rollout ----------------

  const SAMPLE_SITE := "s"
  const SAMPLE_DEVICE := "d"

  function SampleUnsigned(): ChangeSet {
    ChangeSet("c", SAMPLE_DEVICE, "", None,
              [Operation("o", "system", [Command(Add, "system", "", "", "t")], seq(64, _ => '0'))], [], LOCAL_AUTO)
  }

  function SampleChangeSet(e: Env): ChangeSet {
    SampleUnsigned().(planHash := e.contentDigest(ContentOf(SampleUnsigned())))
  }

  function SampleEntry(): Entry { Entry(Some(SAMPLE_DEVICE), EntryQueued, Some("c"), None, None, None, None) }

  function LeasedRun(e: Env, lease: int): seq<Call> {
    [ OnDevice(SAMPLE_DEVICE, AddDevice(Some(SAMPLE_SITE), None, true)),
      OnDraft(CallCreateDraft(SAMPLE_SITE, Plan([], [], []))),
      CallClaimAndQueue(SAMPLE_SITE, 0, [QueueItem("AP", SampleChangeSet(e))], [SampleEntry()]),
      OnLease(CallClaimLease(lease, 0)) ]
  }

  /** One capable device in the site, and one draft. */
  function SampleWorld(): World {
    World(0, 0, map[SAMPLE_DEVICE := NewDevice(Some(SAMPLE_SITE), None, true)],
          [Rollout(SAMPLE_SITE, 1, Draft, None, None, None, 0, Plan([], [], []), [], 0)])
  }

  /** After the draft is claimed and queued, its rollout is QUEUED in the table. */
  lemma SampleQueues(e: Env, w: World)
    requires w == SampleWorld()
    ensures var w' := ClaimAndQueue(e, w, SAMPLE_SITE, 0, [QueueItem("AP", SampleChangeSet(e))], [SampleEntry()]).0;
            && w'.now == 0 && |w'.rollouts| == 1
            && w'.rollouts[0].status.Queued? && w'.rollouts[0].leaseUntil.None? && w'.rollouts[0].site == SAMPLE_SITE
  {
    var cs := SampleChangeSet(e);
    var items := [QueueItem("AP", cs)];
    assert Claimable(w, SAMPLE_SITE, 0);
    var w1 := Claimed(w, SAMPLE_SITE, 0);
    var (w2, answer) := QueueFor(e, w1, SAMPLE_SITE, "AP", SAMPLE_DEVICE, cs, 0);
    assert answer == Ok(1);
    assert items[1..] == [];
    assert QueueItems(e, w2, SAMPLE_SITE, 0, items[1..], map[SAMPLE_DEVICE := 1]) == Ok((w2, map[SAMPLE_DEVICE := 1]));
    assert QueueItems(e, w1, SAMPLE_SITE, 0, items, map[]) == Ok((w2, map[SAMPLE_DEVICE := 1]));
    assert [SampleEntry()][0].deviceId == Some(SAMPLE_DEVICE);
    assert ResultsFit([SampleEntry()], map[SAMPLE_DEVICE := 1]);
  }

  lemma LeasingSample(e: Env, lease: int, w: World)
    requires lease > 0 && w == SampleWorld()
    ensures var w' := Step(e, Step(e, w, LeasedRun(e, lease)[2]), LeasedRun(e, lease)[3]);
            && w'.now == 0 && |w'.rollouts| == 1
            && w'.rollouts[0].status.Running? && w'.rollouts[0].updatedAt == 0 && w'.rollouts[0].leaseUntil == Some(lease)
  {
    SampleQueues(e, w);
  }

  lemma LeasedRunState(e: Env, lease: int)
    requires lease > 0
    ensures var w := Run(e, EMPTY, LeasedRun(e, lease));
            && w.now == 0 && |w.rollouts| == 1
            && w.rollouts[0].status.Running? && w.rollouts[0].updatedAt == 0 && w.rollouts[0].leaseUntil == Some(lease)
  {
    LeasingSample(e, lease, Step(e, Step(e, EMPTY, LeasedRun(e, lease)[0]), LeasedRun(e, lease)[1]));
    FourSteps(e, EMPTY, LeasedRun(e, lease));
  }

  lemma FourSteps(e: Env, w: World, calls: seq<Call>)
    requires |calls| == 4
    ensures Run(e, w, calls) == Step(e, Step(e, Step(e, Step(e, w, calls[0]), calls[1]), calls[2]), calls[3])
  {
    assert calls[..0] == [] && calls[..1] == calls[..0] + [calls[0]] && calls[..2] == calls[..1] + [calls[1]];
    assert calls[..3] == calls[..2] + [calls[2]] && calls == calls[..3] + [calls[3]];
    RunAppend(e, w, calls[..0], calls[0]);
    RunAppend(e, w, calls[..1], calls[1]);
    RunAppend(e, w, calls[..2], calls[2]);
    RunAppend(e, w, calls[..3], calls[3]);
  }

  lemma {:induction false} RunAppend(e: Env, w: World, calls: seq<Call>, c: Call)
    ensures Run(e, w, calls + [c]) == Step(e, Run(e, w, calls), c)
    decreases calls
  {
    if calls == [] {
      assert calls + [c] == [c] && [c][1..] == [];
    } else {
      assert (calls + [c])[1..] == calls[1..] + [c];
      RunAppend(e, Step(e, w, calls[0]), calls[1..], c);
    }
  }

  /** In every reachable state of every run with leases up to `maxLease`. */
  ghost predicate ClocksAlwaysAgree(e: Env, maxLease: int) {
    forall calls :: Leases.AllBounded(calls, maxLease) ==> Leases.ClocksAgree(Run(e, EMPTY, calls))
  }

  /** The two clocks agree in every run if and only if no lease outlives the twenty-minute fence. */
  lemma ClocksAgreeExactlyWithinTwentyMinutes(e: Env, maxLease: int)
    ensures ClocksAlwaysAgree(e, maxLease) <==> maxLease <= TWENTY_MINUTES
  {
    if maxLease <= TWENTY_MINUTES {
      forall calls | Leases.AllBounded(calls, maxLease) ensures Leases.ClocksAgree(Run(e, EMPTY, calls)) {
        Leases.RunsKeepLeases(e, EMPTY, calls, maxLease);
        Leases.LiveIsFresh(Run(e, EMPTY, calls), maxLease);
      }
    } else {
      var calls := LeasedRun(e, maxLease);
      var late := calls + [Tick(maxLease)];
      LeasedRunState(e, maxLease);
      RunAppend(e, EMPTY, calls, Tick(maxLease));
      var w := Run(e, EMPTY, late);
      assert Live(w, w.rollouts[0]) && !FreshRunning(w, w.rollouts[0], w.rollouts[0].site);
      assert Leases.AllBounded(late, maxLease);
    }
  }
}
