/**
 * A run in which a worker does queue the second device: the theorems about
 * staged rollouts speak about something that happens, whatever the digests are.
 */
module StagedExample {
  import opened Common
  import opened ChangeSets
  import opened DeviceSlot
  import opened Controller
  import DeviceOrder
  import opened Worker
  import opened StagedRollout
  import StagedTheorem

  const SITE := "s"
  const COMMANDS: seq<Command> := [Command(Add, "system", "", "", "t")]

  function Hash(): (h: string)
    ensures ValidHash(h) && h != ""
  {
    seq(64, _ => '0')
  }

  function First(): PlanDevice { PlanDevice("a", "AP", COMMANDS, map["system" := Hash()]) }

  function Second(): PlanDevice { PlanDevice("b", "AP", COMMANDS, map["system" := Hash()]) }

  function ThePlan(): Plan { Plan(["system"], [], [First(), Second()]) }

  function Idle(): Device { NewDevice(Some(SITE), Some("AP"), true) }

  function Drafted(): Rollout { Rollout(SITE, 1, Draft, None, None, None, 0, ThePlan(), [], 0) }

  function Start(): World { World(0, 0, map["a" := Idle(), "b" := Idle()], [Drafted()]) }

  function TheSetup(): Setup { Setup(0, ThePlan(), ["a", "b"], [0, 1], [0, 1], 1) }

  function OneOperation(): seq<Operation> { [Operation("", "system", COMMANDS, Hash())] }

  function CsFor(e: Env, x: string): ChangeSet {
    RolloutChangeSet(e, e.rolloutText(0), x, OneOperation(), [], LOCAL_AUTO)
  }

  function EntryFor(e: Env, x: string, status: EntryStatus): Entry {
    Entry(Some(x), status, Some(CsFor(e, x).id), None, None, None, None)
  }

  function FirstResults(e: Env): seq<Entry> { [EntryFor(e, "a", EntryQueued), EntryFor(e, "b", Waiting)] }

  function ReportFor(e: Env, state: AgentState): Report {
    Report(CsFor(e, "a").id, "a", CsFor(e, "a").planHash, Some(1), Some(state), "")
  }

  // ---- The documents ------------------------------------------------------------------

  lemma DocumentsAreAccepted(e: Env, x: string)
    requires x == "a" || x == "b"
    ensures ServiceAccepts(e, CsFor(e, x)) && Acceptable(e, CsFor(e, x))
  {
    var cs := CsFor(e, x);
    RolloutChangeSetIsWellSigned(e, e.rolloutText(0), x, OneOperation(), [], LOCAL_AUTO);
    assert NAMESPACES[0] == "system";
    assert cs.operations[0] == OneOperation()[0].(id := cs.operations[0].id);
    assert ServiceAcceptsOperation(e, cs.operations[0]);
    ServiceAcceptedUnlessScripted(e, cs);
  }

  // ---- The states, one event after another ------------------------------------------------

  function Holding(e: Env): Device { PlaceChangeSet(Idle(), CsFor(e, "a")) }

  function Committed1(e: Env): Status { Status(CsFor(e, "a").id, "a", CsFor(e, "a").planHash, 1, Committed, "") }

  function Done(e: Env): Device {
    Holding(e).(pendingCs := None, lastCs := Some(Committed1(e)), observed := 1, lastSuccessful := 1, flag := FlagState(Committed))
  }

  function QueuedResults(e: Env): seq<Entry> {
    [EntryFor(e, "a", EntryQueued).(generation := Some(1)), EntryFor(e, "b", Waiting)]
  }

  function DoneResults(e: Env): seq<Entry> {
    [Entry(Some("a"), Success, Some(CsFor(e, "a").id), Some(Committed), Some(CsFor(e, "a").planHash), Some(1), None), EntryFor(e, "b", Waiting)]
  }

  function Claimed1(e: Env): World {
    World(0, 1, map["a" := Holding(e), "b" := Idle()], [Drafted().(status := Queued, results := QueuedResults(e))])
  }

  function Reported(e: Env): World {
    World(0, 1, map["a" := Done(e), "b" := Idle()], [Drafted().(status := Queued, results := DoneResults(e))])
  }

  function Leased(e: Env, cursor: int): World {
    World(0, 2, map["a" := Done(e), "b" := Idle()],
          [Drafted().(status := Running, results := DoneResults(e), workerToken := Some(1), leaseUntil := Some(1), cursor := cursor)])
  }

  function Seen(e: Env): Progress { ProgressOf(Leased(e, 0).rollouts[0]) }

  function TheLease(cursor: int): Lease { Lease(0, SITE, 1, cursor) }

  lemma ClaimingQueuesTheFirst(e: Env)
    ensures Step(e, Start(), CallClaimAndQueue(SITE, 0, [QueueItem("AP", CsFor(e, "a"))], FirstResults(e))) == Claimed1(e)
  {
    var items := [QueueItem("AP", CsFor(e, "a"))];
    assert Claimable(Start(), SITE, 0);
    var w1 := World(0, 1, Start().devices, [Drafted().(status := Running, claimToken := Some(0))]);
    assert Claimed(Start(), SITE, 0).devices == w1.devices && Claimed(Start(), SITE, 0) == w1;
    ItemsAreQueued(e, w1);
    FirstResultsFit(e);
    assert HoldsClaim(w1, SITE, 0, 0);
    assert Claimed1(e).rollouts == w1.rollouts[0 := Claimed1(e).rollouts[0]];
  }

  lemma ItemsAreQueued(e: Env, w: World)
    requires w == World(0, 1, Start().devices, [Drafted().(status := Running, claimToken := Some(0))])
    ensures QueueItems(e, w, SITE, 0, [QueueItem("AP", CsFor(e, "a"))], map[])
            == Ok((w.(devices := Claimed1(e).devices), map["a" := 1]))
  {
    var items := [QueueItem("AP", CsFor(e, "a"))];
    var w' := w.(devices := Claimed1(e).devices);
    FirstIsAdmitted(e, w);
    assert CsFor(e, "a").deviceId == "a" && w.devices["a" := Holding(e)] == w'.devices;
    assert items[1..] == [];
    assert QueueItems(e, w', SITE, 0, items[1..], map["a" := 1]) == Ok((w', map["a" := 1]));
  }

  /** An idle device takes an unbound changeset. */
  lemma IdleTakes(e: Env, x: string, cs: ChangeSet, owner: Owner)
    requires Acceptable(e, cs) && cs.deviceId == x && cs.generation.None? && OwnerMatches(Idle(), owner)
    ensures QueueChangeSet(e, x, Idle(), cs, owner, false) == (PlaceChangeSet(Idle(), cs), Ok(1))
  {
  }

  lemma FirstIsAdmitted(e: Env, w: World)
    requires w == World(0, 1, Start().devices, [Drafted().(status := Running, claimToken := Some(0))])
    ensures QueueFor(e, w, SITE, "AP", "a", CsFor(e, "a"), 0) == (w.(devices := w.devices["a" := Holding(e)]), Ok(1))
  {
    DocumentsAreAccepted(e, "a");
    assert CsFor(e, "a").deviceId == "a" && CsFor(e, "a").generation.None?;
    assert !SiteFenced(w, SITE, Some(0));
    IdleTakes(e, "a", CsFor(e, "a"), OwnedBy(SITE, "AP", true));
  }

  lemma FirstResultsFit(e: Env)
    ensures ResultsFit(FirstResults(e), map["a" := 1]) && WithGenerations(FirstResults(e), map["a" := 1]) == QueuedResults(e)
  {
    var results := FirstResults(e);
    assert results[0].deviceId == Some("a") && results[1].deviceId == Some("b");
  }

  function Applying1(e: Env): Device {
    Holding(e).(lastCs := Some(Committed1(e).(state := Applying)), flag := FlagState(Applying))
  }

  lemma ResultsAbsorb(e: Env)
    ensures AbsorbReport(Claimed1(e).rollouts[0], 0, Some(SITE), "a", Committed1(e)) == Reported(e).rollouts[0]
  {
    var s := Committed1(e);
    assert Mentions(QueuedResults(e)[0], "a", s.id);
    assert AwaitsReport(Claimed1(e).rollouts[0], Some(SITE), "a", s.id);
    assert Elsewhere(QueuedResults(e)[1], "a", s.id) && !EntryTerminal(QueuedResults(e)[1]);
    assert StatusAfterReport(QueuedResults(e), "a", s) == Queued;
    assert MarkEntries(QueuedResults(e), "a", s) == DoneResults(e);
  }

  lemma ReportsFinishTheFirst(e: Env)
    ensures Step(e, Step(e, Claimed1(e), OnReport("a", ReportFor(e, Applying))), OnReport("a", ReportFor(e, Committed))) == Reported(e)
  {
    RowReports(e);
    ResultsAbsorb(e);
    var w2 := Claimed1(e).(devices := Claimed1(e).devices["a" := Applying1(e)]);
    var w3 := Step(e, w2, OnReport("a", ReportFor(e, Committed)));
    assert w2.devices["a" := Done(e)] == Reported(e).devices;
    assert w3.rollouts == Reported(e).rollouts;
  }

  lemma RowReports(e: Env)
    ensures RecordStatus("a", Holding(e), ReportFor(e, Applying)) == (Applying1(e), Some(Committed1(e).(state := Applying)))
    ensures RecordStatus("a", Applying1(e), ReportFor(e, Committed)) == (Done(e), Some(Committed1(e)))
  {
    DocumentsAreAccepted(e, "a");
    assert CsFor(e, "a").deviceId == "a";
  }

  lemma LeasingStarts(e: Env)
    ensures ClaimLease(Reported(e), 1, 0) == (Leased(e, 0), Ok(TheLease(0)))
  {
    assert Candidate(Reported(e), 0) && FirstCandidate(Reported(e), 0);
    assert Reported(e).rollouts[0 := Leased(e, 0).rollouts[0]] == Leased(e, 0).rollouts;
  }

  lemma ProgressIsSeen(e: Env)
    ensures Seen(e).terminalCount == 1 && Seen(e).failureCount == 0
  {
    var results := DoneResults(e);
    assert results[..1] == [results[0]] && [results[0]][..0] == [];
    assert DoneCount([results[0]]) == 1 && FailedCount([results[0]]) == 0;
  }

  lemma SecondPhase(e: Env, lease: Lease, p: Progress, cs: ChangeSet)
    requires lease.rolloutId == 0 && lease.cursor == 1 && p.plan == ThePlan() && !Started(p.results, "b")
    requires cs == CsFor(e, "b") && ServiceAccepts(e, cs)
    ensures NextPhase(e, lease, p) == Queue(Second(), cs)
  {
    OrderIs();
    OperationsAre();
  }

  lemma SecondIsDecided(e: Env)
    ensures CanAdvance(TheLease(1), Seen(e)) && NextPhase(e, TheLease(1), Seen(e)) == Queue(Second(), CsFor(e, "b"))
  {
    ProgressIsSeen(e);
    SecondPhase(e, TheLease(1), Seen(e), CsFor(e, "b"));
  }

  lemma OrderIs()
    ensures SortDevices(ThePlan().devices) == [First(), Second()]
  {
    assert ThePlan().devices[1..] == [Second()] && [Second()][1..] == [];
    assert SortDevices([Second()]) == [Second()];
    assert DeviceOrder.Before(IsGateway, First(), Second()) && !DeviceOrder.Before(IsGateway, Second(), First());
  }

  lemma OperationsAre()
    ensures OperationsFrom(Second(), NAMESPACES) == Some(OneOperation())
  {
    assert COMMANDS[1..] == [];
    assert CommandsFor(COMMANDS, "system") == COMMANDS;
    var rest := NAMESPACES[1..];
    assert rest == ["dhcp", "firewall", "dropbear", "sqm"];
    NothingElse(rest);
    assert NAMESPACES[0] == "system" && OneOperation() + [] == OneOperation();
  }

  lemma {:induction false} NothingElse(namespaces: seq<string>)
    requires "system" !in namespaces
    ensures OperationsFrom(Second(), namespaces) == Some([])
    decreases namespaces
  {
    if namespaces != [] {
      assert COMMANDS[1..] == [];
      assert CommandsFor(COMMANDS, namespaces[0]) == [];
      NothingElse(namespaces[1..]);
    }
  }

  lemma SecondIsAdmitted(e: Env)
    ensures QueueFor(e, Leased(e, 1), SITE, "AP", "b", CsFor(e, "b"), 0).1 == Ok(1)
  {
    DocumentsAreAccepted(e, "b");
    assert CsFor(e, "b").deviceId == "b" && CsFor(e, "b").generation.None?;
    IdleTakes(e, "b", CsFor(e, "b"), OwnedBy(SITE, "AP", true));
  }

  // ---- The run ------------------------------------------------------------------------------

  function Events(e: Env): seq<Event> {
    [ External(CallClaimAndQueue(SITE, 0, [QueueItem("AP", CsFor(e, "a"))], FirstResults(e))),
      External(OnReport("a", ReportFor(e, Applying))),
      External(OnReport("a", ReportFor(e, Committed))),
      Spawn(1), Work(1, 1), Work(1, 1) ]
  }

  function Final(e: Env): Fleet {
    Fleet(Leased(e, 1), map[1 := WorkerState(TheLease(1), Advancing(Seen(e)))])
  }

  lemma ClaimAllowed(e: Env)
    ensures AllAllowed(e, TheSetup(), Events(e))
  {
    var results := FirstResults(e);
    assert CsFor(e, "a").id == CsOf(e, TheSetup(), 0) && CsFor(e, "b").id == CsOf(e, TheSetup(), 1);
    assert CsFor(e, "a").deviceId == "a";
    assert FirstPhase(e, TheSetup(), [QueueItem("AP", CsFor(e, "a"))], results);
  }

  lemma StartIsDraft(e: Env)
    ensures StagedTheorem.StartsAsDraft(e, TheSetup(), Fleet(Start(), map[]))
  {
    OrderIs();
    assert IdsOf([First(), Second()]) == ["a", "b"];
  }

  lemma WorkerReads(e: Env)
    ensures WorkerStep(e, Leased(e, 0), WorkerState(TheLease(0), Reading), 1) == (Leased(e, 0), Some(WorkerState(TheLease(0), Checking(Seen(e)))))
    ensures WorkerStep(e, Leased(e, 0), WorkerState(TheLease(0), Checking(Seen(e))), 1)
            == (Leased(e, 1), Some(WorkerState(TheLease(1), Advancing(Seen(e)))))
  {
    ProgressIsSeen(e);
    assert Leased(e, 0).rollouts[0 := Leased(e, 1).rollouts[0]] == Leased(e, 1).rollouts;
  }

  lemma RunIs(e: Env)
    ensures RunFleet(e, TheSetup(), Fleet(Start(), map[]), Events(e)) == Final(e)
  {
    var events := Events(e);
    var f0 := Fleet(Start(), map[]);
    ClaimingQueuesTheFirst(e);
    ReportsFinishTheFirst(e);
    LeasingStarts(e);
    WorkerReads(e);
    var f3 := Fleet(Reported(e), map[]);
    var f4 := Fleet(Leased(e, 0), map[1 := WorkerState(TheLease(0), Reading)]);
    var f5 := Fleet(Leased(e, 0), map[1 := WorkerState(TheLease(0), Checking(Seen(e)))]);
    SixEvents(e, f0, events);
    assert StepFleet(e, TheSetup(), StepFleet(e, TheSetup(), StepFleet(e, TheSetup(), f0, events[0]), events[1]), events[2]) == f3;
    assert StepFleet(e, TheSetup(), f3, events[3]) == f4;
    assert f4.workers[1 := WorkerState(TheLease(0), Checking(Seen(e)))] == f5.workers;
    assert StepFleet(e, TheSetup(), f4, events[4]) == f5;
    assert f5.workers[1 := WorkerState(TheLease(1), Advancing(Seen(e)))] == Final(e).workers;
    assert StepFleet(e, TheSetup(), f5, events[5]) == Final(e);
  }

  lemma SixEvents(e: Env, f: Fleet, events: seq<Event>)
    requires |events| == 6
    ensures RunFleet(e, TheSetup(), f, events) ==
            StepFleet(e, TheSetup(), StepFleet(e, TheSetup(), StepFleet(e, TheSetup(), StepFleet(e, TheSetup(), StepFleet(e, TheSetup(),
              StepFleet(e, TheSetup(), f, events[0]), events[1]), events[2]), events[3]), events[4]), events[5])
  {
    var f1 := StepFleet(e, TheSetup(), f, events[0]);
    var f2 := StepFleet(e, TheSetup(), f1, events[1]);
    var f3 := StepFleet(e, TheSetup(), f2, events[2]);
    var f4 := StepFleet(e, TheSetup(), f3, events[3]);
    var f5 := StepFleet(e, TheSetup(), f4, events[4]);
    assert events[0..] == events && events[6..] == [];
    NextEvent(e, f, events, 0);
    NextEvent(e, f1, events, 1);
    NextEvent(e, f2, events, 2);
    NextEvent(e, f3, events, 3);
    NextEvent(e, f4, events, 4);
    NextEvent(e, f5, events, 5);
  }

  lemma NextEvent(e: Env, f: Fleet, events: seq<Event>, i: nat)
    requires i < |events|
    ensures RunFleet(e, TheSetup(), f, events[i..]) == RunFleet(e, TheSetup(), StepFleet(e, TheSetup(), f, events[i]), events[i + 1..])
  {
    assert events[i..][1..] == events[i + 1..];
  }

  lemma FinalQueues(e: Env)
    ensures StagedTheorem.Queues(e, Final(e), Work(1, 1))
  {
    SecondIsDecided(e);
    SecondIsAdmitted(e);
    QueueingFollows(e, Leased(e, 1), WorkerState(TheLease(1), Advancing(Seen(e))), Second(), CsFor(e, "b"));
  }

  lemma QueueingFollows(e: Env, w: World, k: WorkerState, device: PlanDevice, cs: ChangeSet)
    requires k.stage.Advancing? && CanAdvance(k.lease, k.stage.p) && NextPhase(e, k.lease, k.stage.p) == Queue(device, cs)
    requires QueueFor(e, w, k.lease.site, device.role, device.id, cs, k.lease.rolloutId).1.Ok?
    ensures var k' := WorkerStep(e, w, k, 1).1; k'.Some? && k'.value.stage.Saving?
  {
  }

  /** From a draft, through a claim, two reports and a lease, a worker queues the second device. */
  lemma SecondDeviceIsQueued(e: Env)
    ensures StagedTheorem.StartsAsDraft(e, TheSetup(), Fleet(Start(), map[])) && AllAllowed(e, TheSetup(), Events(e))
    ensures StagedTheorem.Queues(e, RunFleet(e, TheSetup(), Fleet(Start(), map[]), Events(e)), Work(1, 1))
  {
    StartIsDraft(e);
    ClaimAllowed(e);
    RunIs(e);
    FinalQueues(e);
  }
}
