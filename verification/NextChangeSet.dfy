/** What a worker puts into the changeset it queues, and when it queues nothing. */
module NextChangeSet {
  import opened Common
  import opened ChangeSets
  import opened Controller
  import opened Worker
  import PlanHash

  /** All commands of the plan for one namespace, each once and in plan order; `places` says where they stand. */
  ghost predicate SelectsAt(selected: seq<Command>, commands: seq<Command>, config: string, places: seq<nat>) {
    && |places| == |selected|
    && (forall i, j | 0 <= i < j < |places| :: places[i] < places[j])
    && (forall i | 0 <= i < |places| :: places[i] < |commands| && commands[places[i]] == selected[i])
    && (forall k: nat | k < |commands| :: k in places <==> commands[k].config == config)
  }

  ghost predicate Selects(selected: seq<Command>, commands: seq<Command>, config: string) {
    exists places: seq<nat> :: SelectsAt(selected, commands, config, places)
  }

  function Shifted(places: seq<nat>): seq<nat> {
    seq(|places|, i requires 0 <= i < |places| => places[i] + 1)
  }

  lemma ShiftedHolds(places: seq<nat>, k: nat)
    ensures k in Shifted(places) <==> k > 0 && k - 1 in places
  {
    if k > 0 && k - 1 in places {
      var i :| 0 <= i < |places| && places[i] == k - 1;
      assert Shifted(places)[i] == k;
    }
  }

  lemma SkippedSelects(c: Command, rest: seq<Command>, selected: seq<Command>, config: string, places: seq<nat>)
    requires SelectsAt(selected, rest, config, places) && c.config != config
    ensures SelectsAt(selected, [c] + rest, config, Shifted(places))
  {
    var commands, moved := [c] + rest, Shifted(places);
    forall k: nat | k < |commands| ensures k in moved <==> commands[k].config == config {
      ShiftedHolds(places, k);
    }
  }

  lemma InOrder(places: seq<nat>)
    requires forall i, j | 0 <= i < j < |places| :: places[i] < places[j]
    ensures var all := [0] + Shifted(places); forall i, j | 0 <= i < j < |all| :: all[i] < all[j]
  {
    var all := [0] + Shifted(places);
    forall i, j | 0 <= i < j < |all| ensures all[i] < all[j] {
      assert all[j] == places[j - 1] + 1;
      if i > 0 {
        assert all[i] == places[i - 1] + 1;
      }
    }
  }

  lemma TakenSelects(c: Command, rest: seq<Command>, selected: seq<Command>, config: string, places: seq<nat>)
    requires SelectsAt(selected, rest, config, places) && c.config == config
    ensures SelectsAt([c] + selected, [c] + rest, config, [0] + Shifted(places))
  {
    var commands, all := [c] + rest, [0] + Shifted(places);
    InOrder(places);
    forall i | 0 <= i < |all| ensures all[i] < |commands| && commands[all[i]] == ([c] + selected)[i] {
      assert i > 0 ==> all[i] == places[i - 1] + 1;
    }
    forall k: nat | k < |commands| ensures k in all <==> commands[k].config == config {
      ShiftedHolds(places, k);
      assert k in all <==> k == 0 || k in Shifted(places);
    }
  }

  lemma {:induction false} GroupsSelect(commands: seq<Command>, config: string) returns (places: seq<nat>)
    ensures SelectsAt(CommandsFor(commands, config), commands, config, places)
    decreases commands
  {
    if commands == [] {
      places := [];
    } else {
      var rest := GroupsSelect(commands[1..], config);
      var selected := CommandsFor(commands[1..], config);
      assert commands == [commands[0]] + commands[1..];
      if commands[0].config == config {
        TakenSelects(commands[0], commands[1..], selected, config, rest);
        places := [0] + Shifted(rest);
      } else {
        SkippedSelects(commands[0], commands[1..], selected, config, rest);
        assert [] + selected == selected;
        places := Shifted(rest);
      }
    }
  }

  // ---- Nothing is lost and nothing added -------------------------------------------------

  function Flatten(ops: seq<Operation>): seq<Command> {
    if ops == [] then [] else ops[0].commands + Flatten(ops[1..])
  }

  function Grouped(commands: seq<Command>, namespaces: seq<string>): seq<Command> {
    if namespaces == [] then [] else CommandsFor(commands, namespaces[0]) + Grouped(commands, namespaces[1..])
  }

  ghost predicate Distinct(namespaces: seq<string>) {
    forall i, j | 0 <= i < j < |namespaces| :: namespaces[i] != namespaces[j]
  }

  lemma {:induction false} OneMoreCommand(c: Command, rest: seq<Command>, namespaces: seq<string>)
    requires Distinct(namespaces)
    ensures multiset(Grouped([c] + rest, namespaces)) ==
            multiset(Grouped(rest, namespaces)) + if c.config in namespaces then multiset{c} else multiset{}
    decreases namespaces
  {
    if namespaces != [] {
      OneMoreCommand(c, rest, namespaces[1..]);
      assert ([c] + rest)[1..] == rest;
      assert namespaces == [namespaces[0]] + namespaces[1..];
      var first := CommandsFor(rest, namespaces[0]);
      assert multiset([c] + first) == multiset{c} + multiset(first);
    }
  }

  lemma {:induction false} GroupsRearrange(commands: seq<Command>, namespaces: seq<string>)
    requires Distinct(namespaces) && forall i | 0 <= i < |commands| :: commands[i].config in namespaces
    ensures multiset(Grouped(commands, namespaces)) == multiset(commands)
    decreases commands
  {
    if commands == [] {
      NothingGrouped(namespaces);
    } else {
      GroupsRearrange(commands[1..], namespaces);
      assert commands == [commands[0]] + commands[1..];
      OneMoreCommand(commands[0], commands[1..], namespaces);
    }
  }

  lemma {:induction false} NothingGrouped(namespaces: seq<string>)
    ensures Grouped([], namespaces) == []
    decreases namespaces
  {
    if namespaces != [] {
      NothingGrouped(namespaces[1..]);
    }
  }

  // ---- The operations of one device -----------------------------------------------------------

  /** One operation says all of one namespace. */
  ghost predicate Carries(op: Operation, d: PlanDevice) {
    && op.commands != [] && Selects(op.commands, d.commands, op.config)
    && op.config in d.observed && op.observedHash == d.observed[op.config] && op.observedHash != ""
  }

  ghost predicate Precedes(first: string, second: string, namespaces: seq<string>) {
    exists a, b | 0 <= a < b < |namespaces| :: namespaces[a] == first && namespaces[b] == second
  }

  /** The operations follow the given order of namespaces. */
  ghost predicate FollowOrder(ops: seq<Operation>, namespaces: seq<string>) {
    forall i, j | 0 <= i < j < |ops| :: Precedes(ops[i].config, ops[j].config, namespaces)
  }

  /** What the first namespace adds: one operation, or nothing when no command is its own. */
  lemma FirstNamespace(d: PlanDevice, n: string, rest: seq<string>)
    requires OperationsFrom(d, [n] + rest).Some?
    ensures OperationsFrom(d, rest).Some?
    ensures var commands, more := CommandsFor(d.commands, n), OperationsFrom(d, rest).value;
            if commands == [] then OperationsFrom(d, [n] + rest).value == more
            else
              && n in d.observed && d.observed[n] != ""
              && OperationsFrom(d, [n] + rest).value == [Operation("", n, commands, d.observed[n])] + more
  {
    assert ([n] + rest)[1..] == rest;
  }

  lemma {:induction false} FlattenedAreGrouped(d: PlanDevice, namespaces: seq<string>)
    requires OperationsFrom(d, namespaces).Some?
    ensures Flatten(OperationsFrom(d, namespaces).value) == Grouped(d.commands, namespaces)
    decreases namespaces
  {
    if namespaces != [] {
      var n, rest := namespaces[0], namespaces[1..];
      assert namespaces == [n] + rest;
      FirstNamespace(d, n, rest);
      FlattenedAreGrouped(d, rest);
      var more := OperationsFrom(d, rest).value;
      assert [] + Grouped(d.commands, rest) == Grouped(d.commands, rest);
      assert ([Operation("", n, CommandsFor(d.commands, n), "")] + more)[1..] == more;
    }
  }

  ghost predicate AllCarry(ops: seq<Operation>, d: PlanDevice, namespaces: seq<string>) {
    forall i | 0 <= i < |ops| :: ops[i].config in namespaces && Carries(ops[i], d)
  }

  lemma {:induction false} EachCarries(d: PlanDevice, namespaces: seq<string>)
    requires OperationsFrom(d, namespaces).Some?
    ensures AllCarry(OperationsFrom(d, namespaces).value, d, namespaces)
    decreases namespaces
  {
    if namespaces != [] {
      var n, rest := namespaces[0], namespaces[1..];
      assert namespaces == [n] + rest;
      FirstNamespace(d, n, rest);
      EachCarries(d, rest);
      var places := GroupsSelect(d.commands, n);
    }
  }

  lemma {:induction false} OperationsFollow(d: PlanDevice, namespaces: seq<string>)
    requires OperationsFrom(d, namespaces).Some?
    ensures FollowOrder(OperationsFrom(d, namespaces).value, namespaces)
    decreases namespaces
  {
    if namespaces != [] {
      var n, rest := namespaces[0], namespaces[1..];
      assert namespaces == [n] + rest;
      FirstNamespace(d, n, rest);
      OperationsFollow(d, rest);
      EachCarries(d, rest);
      var ops, more := OperationsFrom(d, namespaces).value, OperationsFrom(d, rest).value;
      forall i, j | 0 <= i < j < |ops| ensures Precedes(ops[i].config, ops[j].config, namespaces) {
        LaterOperations(ops, more, namespaces, i, j);
      }
    }
  }

  lemma OperationsCarry(d: PlanDevice, namespaces: seq<string>)
    requires OperationsFrom(d, namespaces).Some?
    ensures var ops := OperationsFrom(d, namespaces).value;
            Flatten(ops) == Grouped(d.commands, namespaces) && AllCarry(ops, d, namespaces) && FollowOrder(ops, namespaces)
  {
    FlattenedAreGrouped(d, namespaces);
    EachCarries(d, namespaces);
    OperationsFollow(d, namespaces);
  }

  lemma LaterOperations(ops: seq<Operation>, more: seq<Operation>, namespaces: seq<string>, i: nat, j: nat)
    requires namespaces != [] && FollowOrder(more, namespaces[1..]) && i < j < |ops|
    requires forall k | 0 <= k < |more| :: more[k].config in namespaces[1..]
    requires ops == more || (|ops| == |more| + 1 && ops[1..] == more && ops[0].config == namespaces[0])
    ensures Precedes(ops[i].config, ops[j].config, namespaces)
  {
    var rest := namespaces[1..];
    if ops != more && i == 0 {
      assert ops[j] == more[j - 1];
      var b :| 0 <= b < |rest| && rest[b] == more[j - 1].config;
      assert namespaces[b + 1] == ops[j].config;
    } else {
      var shift := if ops == more then 0 else 1;
      assert ops[i] == more[i - shift] && ops[j] == more[j - shift];
      assert Precedes(more[i - shift].config, more[j - shift].config, rest);
      var a, b :| 0 <= a < b < |rest| && rest[a] == more[i - shift].config && rest[b] == more[j - shift].config;
      assert namespaces[a + 1] == ops[i].config && namespaces[b + 1] == ops[j].config;
    }
  }

  predicate Unhashed(d: PlanDevice, config: string) { config !in d.observed || d.observed[config] == "" }

  /** A command of a namespace without an observed hash. */
  ghost predicate LacksHash(d: PlanDevice, namespaces: seq<string>) {
    exists i | 0 <= i < |d.commands| :: d.commands[i].config in namespaces && Unhashed(d, d.commands[i].config)
  }

  ghost predicate Uses(commands: seq<Command>, config: string) {
    exists i | 0 <= i < |commands| :: commands[i].config == config
  }

  lemma {:induction false} UsedIsSelected(commands: seq<Command>, config: string)
    ensures CommandsFor(commands, config) != [] <==> Uses(commands, config)
    decreases commands
  {
    if commands != [] {
      var rest := commands[1..];
      UsedIsSelected(rest, config);
      if i :| 0 <= i < |rest| && rest[i].config == config {
        assert commands[i + 1].config == config;
      }
      if i :| 0 < i < |commands| && commands[i].config == config {
        assert rest[i - 1].config == config;
      }
    }
  }

  lemma LacksMore(d: PlanDevice, n: string, rest: seq<string>)
    ensures LacksHash(d, [n] + rest) <==> (Uses(d.commands, n) && Unhashed(d, n)) || LacksHash(d, rest)
  {
  }

  lemma {:induction false} RefusedExactly(d: PlanDevice, namespaces: seq<string>)
    ensures OperationsFrom(d, namespaces).None? <==> LacksHash(d, namespaces)
    decreases namespaces
  {
    if namespaces != [] {
      var n, rest := namespaces[0], namespaces[1..];
      RefusedExactly(d, rest);
      UsedIsSelected(d.commands, n);
      LacksMore(d, n, rest);
      assert namespaces == [n] + rest;
    }
  }

  // ---- The decision ------------------------------------------------------------------------------

  lemma NamespacesAreDistinct()
    ensures Distinct(NAMESPACES)
  {
    var n := NAMESPACES;
    assert |n[0]| == 6 && |n[1]| == 4 && |n[2]| == 8 && |n[3]| == 8 && |n[4]| == 3;
    assert n[2][0] != n[3][0];
  }

  /**
   * The changeset that is queued is the plan of the device at the cursor:
   * together its operations carry the device's commands, each once; each
   * operation has all commands of its namespace in plan order, under the hash
   * observed for it; and health checks and policy are the plan's and the agent's
   * own confirmation.
   */
  lemma QueuedChangeSetIsThePlan(e: Env, lease: Lease, p: Progress, device: PlanDevice, cs: ChangeSet)
    requires NextPhase(e, lease, p) == Queue(device, cs)
    ensures 0 <= lease.cursor < |SortDevices(p.plan.devices)| && device == SortDevices(p.plan.devices)[lease.cursor]
    ensures cs.deviceId == device.id && cs.healthChecks == p.plan.healthChecks && cs.policy == "local_auto" && cs.generation.None?
    ensures multiset(Flatten(cs.operations)) == multiset(device.commands)
    ensures forall i | 0 <= i < |cs.operations| :: Carries(cs.operations[i], device)
    ensures FollowOrder(cs.operations, NAMESPACES)
  {
    var ops := OperationsFrom(device, NAMESPACES).value;
    NamespacesAreDistinct();
    OperationsCarry(device, NAMESPACES);
    GroupsRearrange(device.commands, NAMESPACES);
    PlanHash.DerivedCarriesThePlan(e, e.rolloutText(lease.rolloutId), device.id, ops, p.plan.healthChecks, LOCAL_AUTO);
    SameFlattened(ops, cs.operations);
    SameConfigsFollow(ops, cs.operations, NAMESPACES);
  }

  lemma SameConfigsFollow(a: seq<Operation>, b: seq<Operation>, namespaces: seq<string>)
    requires |a| == |b| && FollowOrder(a, namespaces) && forall i | 0 <= i < |a| :: a[i].config == b[i].config
    ensures FollowOrder(b, namespaces)
  {
    forall i, j | 0 <= i < j < |b| ensures Precedes(b[i].config, b[j].config, namespaces) {
      assert Precedes(a[i].config, a[j].config, namespaces);
    }
  }

  lemma {:induction false} SameFlattened(a: seq<Operation>, b: seq<Operation>)
    requires |a| == |b| && forall i | 0 <= i < |a| :: a[i].commands == b[i].commands
    ensures Flatten(a) == Flatten(b)
    decreases a
  {
    if a != [] {
      SameFlattened(a[1..], b[1..]);
    }
  }

  /** A command that leaves the plan's namespaces or the supported ones. */
  ghost predicate LeavesPlan(p: Plan, d: PlanDevice) {
    exists i | 0 <= i < |d.commands| :: d.commands[i].config !in p.namespaces || d.commands[i].config !in NAMESPACES
  }

  /**
   * Nothing is decided exactly when there is no device at the cursor, it was
   * started, one of its commands leaves the plan, or one lacks an observed hash.
   */
  lemma NothingIsQueuedExactly(e: Env, lease: Lease, p: Progress)
    ensures var order := SortDevices(p.plan.devices);
            NextPhase(e, lease, p).Nothing? <==>
              || !(0 <= lease.cursor < |order|)
              || (exists i | 0 <= i < |p.results| :: p.results[i].deviceId == Some(order[lease.cursor].id) && !p.results[i].status.Waiting?)
              || LeavesPlan(p.plan, order[lease.cursor])
              || LacksHash(order[lease.cursor], NAMESPACES)
  {
    var order := SortDevices(p.plan.devices);
    if 0 <= lease.cursor < |order| {
      RefusedExactly(order[lease.cursor], NAMESPACES);
    }
  }
}
