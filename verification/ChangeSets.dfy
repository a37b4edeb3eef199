/**
 * Device changesets: the document, the two validators (the controller service
 * that builds a changeset and the database layer that parses it again), and
 * the stable identities a rollout derives for its devices.
 */
module ChangeSets {
  import opened Common

  datatype Action =
    | Set | Delete | Rename | AddList | DelList | Add
    | EnsureHost | DeleteAll | OtherAction(name: string)

  datatype Command = Command(action: Action, config: string, section: string, option: string, value: string)

  datatype Operation = Operation(id: string, config: string, commands: seq<Command>, observedHash: string)

  /** What the plan hash covers: operations without their ids, health checks and policy. */
  datatype Content = Content(operations: seq<OperationContent>, healthChecks: seq<string>, policy: string)

  datatype OperationContent = OperationContent(config: string, commands: seq<Command>, observedHash: string)

  datatype ChangeSet = ChangeSet(
    id: string, deviceId: string, planHash: string, generation: Option<int>,
    operations: seq<Operation>, healthChecks: seq<string>, policy: string)

  datatype Identity = Identity(id: string, deviceId: string, planHash: string, generation: int, hasGeneration: bool)

  datatype Refusal =
    | InvalidIdentity | InvalidGeneration | Unsupported | UnsupportedOperation
    | InvalidHealthChecks | InvalidCommand | HashMismatch
    | InvalidDevice | OperationCount | UnsupportedNamespace | DuplicateNamespace | InvalidObservedHash

  /**
   * The functions the model leaves open: the SHA-256 digest of the canonical
   * content, the SHA-256 digest of an identity seed, IP address parsing,
   * whether the static-lease script can be rendered for a command, and the
   * text form of a rollout's UUID.
   */
  datatype Env = Env(
    contentDigest: Content -> Digest,
    seedDigest: string -> Digest,
    parsesAsIp: string -> bool,
    hostScriptPrints: Command -> bool,
    rolloutText: nat -> string)

  const LOCAL_AUTO := "local_auto"
  const NAMESPACES: seq<string> := ["system", "dhcp", "firewall", "dropbear", "sqm"]

  // ---- Character classes -------------------------------------------------

  predicate IsIdChar(c: char) { IsLetter(c) || IsDigit(c) || c == '.' || c == '_' || c == '-' }

  predicate IsNameChar(c: char) { IsLetter(c) || IsDigit(c) || c == '_' || c == '-' }

  predicate ValidId(id: string) {
    0 < |id| <= 128 && forall i | 0 <= i < |id| :: IsIdChar(id[i])
  }

  predicate ValidDeviceId(id: string) {
    0 < |id| <= 50 && forall i | 0 <= i < |id| :: IsIdChar(id[i]) || id[i] == ':'
  }

  predicate ValidHash(hash: string) {
    |hash| == 64 && forall i | 0 <= i < |hash| :: IsDigit(hash[i]) || 'A' <= hash[i] <= 'F' || 'a' <= hash[i] <= 'f'
  }

  predicate ValidName(s: string) {
    s != "" && forall i | 0 <= i < |s| :: IsNameChar(s[i])
  }

  predicate ValidIndex(s: string) {
    if s != "" && s[0] == '-' then s != "-" && AllDigits(s[1..]) else s != "" && AllDigits(s)
  }

  /** `name`, `@type` or `@type[n]`. */
  predicate ValidSection(s: string) {
    || ValidName(s)
    || (s != "" && s[0] == '@' &&
        (ValidName(s[1..]) ||
         (s[|s| - 1] == ']' && exists j | 1 < j < |s| - 1 :: s[j] == '[' && ValidName(s[1..j]) && ValidIndex(s[j + 1..|s| - 1]))))
  }

  predicate ValidHealthCheck(e: Env, target: string) {
    || e.parsesAsIp(target)
    || (0 < |target| <= 253 && forall i | 0 <= i < |target| :: IsLetter(target[i]) || IsDigit(target[i]) || target[i] == '.' || target[i] == '-')
  }

  function ContentOf(cs: ChangeSet): Content {
    Content(seq(|cs.operations|, i requires 0 <= i < |cs.operations| =>
                  OperationContent(cs.operations[i].config, cs.operations[i].commands, cs.operations[i].observedHash)),
            cs.healthChecks, cs.policy)
  }

  // ---- The database parser ----------------------------------------------

  predicate ParserAcceptsCommand(c: Command) {
    && c.config in NAMESPACES
    && match c.action
       case Set | Delete => ValidSection(c.section) && (c.option == "" || ValidName(c.option))
       case Rename => ValidSection(c.section) && (c.option == "" || ValidName(c.option)) && ValidName(c.value)
       case AddList | DelList => ValidSection(c.section) && ValidName(c.option)
       case Add => ValidName(c.value)
       case _ => false
  }

  predicate ParserAcceptsOperation(op: Operation) {
    ValidId(op.id) && op.config in NAMESPACES && ValidHash(op.observedHash) && op.commands != []
  }

  predicate DistinctNamespaces(ops: seq<Operation>) {
    forall i, j | 0 <= i < j < |ops| :: ops[i].config != ops[j].config
  }

  predicate ValidIdentity(cs: ChangeSet) {
    ValidId(cs.id) && ValidDeviceId(cs.deviceId) && ValidHash(cs.planHash)
  }

  /** Everything the database demands of a changeset before it is queued or read back. */
  predicate Acceptable(e: Env, cs: ChangeSet) {
    && ValidIdentity(cs)
    && (cs.generation.Some? ==> cs.generation.value > 0)
    && cs.policy == LOCAL_AUTO
    && 0 < |cs.operations| <= 8
    && OperationsParse(cs.operations)
    && HealthChecksParse(e, cs.healthChecks)
    && CommandsParse(cs.operations)
    && e.contentDigest(ContentOf(cs)) == cs.planHash
  }

  function IdentityOf(cs: ChangeSet): Identity {
    Identity(cs.id, cs.deviceId, cs.planHash, if cs.generation.Some? then cs.generation.value else 0, cs.generation.Some?)
  }

  predicate OperationsParse(ops: seq<Operation>) {
    && (forall i | 0 <= i < |ops| :: ParserAcceptsOperation(ops[i]))
    && DistinctNamespaces(ops)
  }

  predicate CommandsParse(ops: seq<Operation>) {
    forall i, j | 0 <= i < |ops| && 0 <= j < |ops[i].commands| :: ParserAcceptsCommand(ops[i].commands[j])
  }

  predicate HealthChecksParse(e: Env, targets: seq<string>) {
    forall i | 0 <= i < |targets| :: ValidHealthCheck(e, targets[i])
  }

  /** The loop that remembers the namespaces it has seen. */
  method CheckOperations(ops: seq<Operation>) returns (ok: bool)
    ensures ok <==> OperationsParse(ops)
  {
    var seen: map<string, bool> := map[];
    for i := 0 to |ops|
      invariant OperationsParse(ops[..i])
      invariant forall c :: c in seen <==> exists k | 0 <= k < i :: ops[k].config == c
    {
      if !ParserAcceptsOperation(ops[i]) || ops[i].config in seen {
        return false;
      }
      seen := seen[ops[i].config := true];
    }
    return true;
  }

  method CheckHealthChecks(e: Env, targets: seq<string>) returns (ok: bool)
    ensures ok <==> HealthChecksParse(e, targets)
  {
    for i := 0 to |targets|
      invariant HealthChecksParse(e, targets[..i])
    {
      if !ValidHealthCheck(e, targets[i]) {
        return false;
      }
    }
    assert targets[..|targets|] == targets;
    return true;
  }

  method CheckCommands(ops: seq<Operation>) returns (ok: bool)
    ensures ok <==> CommandsParse(ops)
  {
    for i := 0 to |ops|
      invariant CommandsParse(ops[..i])
    {
      for j := 0 to |ops[i].commands|
        invariant forall l | 0 <= l < j :: ParserAcceptsCommand(ops[i].commands[l])
      {
        if !ParserAcceptsCommand(ops[i].commands[j]) {
          return false;
        }
      }
    }
    return true;
  }

  /** The parser itself, checking in source order. */
  method ParseChangeSet(e: Env, cs: ChangeSet) returns (r: Outcome<Identity, Refusal>)
    ensures r.Ok? <==> Acceptable(e, cs)
    ensures r.Ok? ==>
              && r.value.id == cs.id && r.value.deviceId == cs.deviceId && r.value.planHash == cs.planHash
              && (r.value.hasGeneration <==> cs.generation != None)
              && (if r.value.hasGeneration then cs.generation == Some(r.value.generation) else r.value.generation == 0)
  {
    if !ValidIdentity(cs) {
      return Err(InvalidIdentity);
    }
    if cs.generation.Some? && cs.generation.value <= 0 {
      return Err(InvalidGeneration);
    }
    if cs.policy != LOCAL_AUTO || |cs.operations| == 0 || |cs.operations| > 8 {
      return Err(Unsupported);
    }
    var operationsOk := CheckOperations(cs.operations);
    if !operationsOk {
      return Err(UnsupportedOperation);
    }
    var healthOk := CheckHealthChecks(e, cs.healthChecks);
    if !healthOk {
      return Err(InvalidHealthChecks);
    }
    var commandsOk := CheckCommands(cs.operations);
    if !commandsOk {
      return Err(InvalidCommand);
    }
    if e.contentDigest(ContentOf(cs)) != cs.planHash {
      return Err(HashMismatch);
    }
    return Ok(IdentityOf(cs));
  }

  /** Writing the reserved generation into the stored document. */
  function Bind(cs: ChangeSet, generation: int): ChangeSet {
    cs.(generation := Some(generation))
  }

  /** A stored changeset always parses again, as the same identity at the reserved generation. */
  lemma BoundChangeSetParsesAgain(e: Env, cs: ChangeSet, generation: int)
    requires Acceptable(e, cs) && generation > 0
    ensures Acceptable(e, Bind(cs, generation))
    ensures IdentityOf(Bind(cs, generation)) == IdentityOf(cs).(generation := generation, hasGeneration := true)
  {
    assert ContentOf(Bind(cs, generation)) == ContentOf(cs);
    assert forall i | 0 <= i < |Bind(cs, generation).operations| :: Bind(cs, generation).operations[i] == cs.operations[i];
  }

  // ---- The service that builds rollout changesets -------------------------

  /** Whether the command printer emits a non-empty line. */
  predicate Prints(e: Env, c: Command) {
    match c.action
    case Set => ValidName(c.config) && ValidSection(c.section) && (c.option == "" || ValidName(c.option))
    case Delete => ValidName(c.config) && ValidSection(c.section) && (c.option == "" || ValidName(c.option))
    case AddList | DelList => ValidName(c.config) && ValidSection(c.section) && ValidName(c.option)
    case Add => ValidName(c.config) && ValidName(c.value)
    case Rename => ValidName(c.config) && ValidSection(c.section) && (c.option == "" || ValidName(c.option)) && ValidName(c.value)
    case EnsureHost => e.hostScriptPrints(c)
    case DeleteAll => ValidName(c.config) && ValidName(c.section) && c.option == "" && c.value == ""
    case OtherAction(_) => false
  }

  predicate ServiceAcceptsCommand(e: Env, config: string, c: Command) {
    && c.config == config
    && (c.action.EnsureHost? ==> config == "dhcp")
    && (c.action.DeleteAll? ==> config == "firewall" && c.section == "redirect" && c.option == "" && c.value == "")
    && Prints(e, c)
  }

  predicate ServiceAcceptsOperation(e: Env, op: Operation) {
    && ValidId(op.id) && op.config in NAMESPACES && ValidHash(op.observedHash)
    && op.commands != []
    && forall j | 0 <= j < |op.commands| :: ServiceAcceptsCommand(e, op.config, op.commands[j])
  }

  predicate ServiceAccepts(e: Env, cs: ChangeSet) {
    && ValidIdentity(cs)
    && (cs.generation.Some? ==> cs.generation.value >= 0)
    && cs.policy == LOCAL_AUTO
    && 0 < |cs.operations| <= 8
    && "" !in cs.healthChecks && HealthChecksParse(e, cs.healthChecks)
    && ServiceAcceptsOperations(e, cs.operations)
    && e.contentDigest(ContentOf(cs)) == cs.planHash
  }

  predicate ServiceAcceptsOperations(e: Env, ops: seq<Operation>) {
    && (forall i | 0 <= i < |ops| :: ServiceAcceptsOperation(e, ops[i]))
    && DistinctNamespaces(ops)
  }

  method CheckServiceOperation(e: Env, op: Operation) returns (r: Outcome<(), Refusal>)
    ensures r.Ok? <==> ServiceAcceptsOperation(e, op)
  {
    if !ValidId(op.id) || op.config !in NAMESPACES {
      return Err(UnsupportedNamespace);
    }
    if !ValidHash(op.observedHash) {
      return Err(InvalidObservedHash);
    }
    if op.commands == [] {
      return Err(InvalidCommand);
    }
    for j := 0 to |op.commands|
      invariant forall l | 0 <= l < j :: ServiceAcceptsCommand(e, op.config, op.commands[l])
    {
      if !ServiceAcceptsCommand(e, op.config, op.commands[j]) {
        return Err(InvalidCommand);
      }
    }
    return Ok(());
  }

  method CheckServiceOperations(e: Env, ops: seq<Operation>) returns (r: Outcome<(), Refusal>)
    ensures r.Ok? <==> ServiceAcceptsOperations(e, ops)
  {
    var seen: map<string, bool> := map[];
    for i := 0 to |ops|
      invariant ServiceAcceptsOperations(e, ops[..i])
      invariant forall c :: c in seen <==> exists k | 0 <= k < i :: ops[k].config == c
    {
      if !ValidId(ops[i].id) || ops[i].config !in NAMESPACES {
        return Err(UnsupportedNamespace);
      }
      if ops[i].config in seen {
        return Err(DuplicateNamespace);
      }
      var checked := CheckServiceOperation(e, ops[i]);
      if checked.Err? {
        return checked;
      }
      seen := seen[ops[i].config := true];
    }
    return Ok(());
  }

  method ValidateDeviceChangeSet(e: Env, cs: ChangeSet) returns (r: Outcome<(), Refusal>)
    ensures r.Ok? <==> ServiceAccepts(e, cs)
  {
    if !ValidId(cs.id) || !ValidHash(cs.planHash) {
      return Err(InvalidIdentity);
    }
    if !ValidDeviceId(cs.deviceId) {
      return Err(InvalidDevice);
    }
    if cs.generation.Some? && cs.generation.value < 0 {
      return Err(InvalidGeneration);
    }
    if cs.policy != LOCAL_AUTO {
      return Err(Unsupported);
    }
    if |cs.operations| == 0 || |cs.operations| > 8 {
      return Err(OperationCount);
    }
    if "" in cs.healthChecks {
      return Err(InvalidHealthChecks);
    }
    var healthOk := CheckHealthChecks(e, cs.healthChecks);
    if !healthOk {
      return Err(InvalidHealthChecks);
    }
    var checked := CheckServiceOperations(e, cs.operations);
    if checked.Err? {
      return checked;
    }
    if e.contentDigest(ContentOf(cs)) != cs.planHash {
      return Err(HashMismatch);
    }
    return Ok(());
  }

  function IdentitySeed(rolloutId: string, deviceId: string): string {
    Lower(rolloutId) + ":" + Lower(deviceId)
  }

  function RolloutChangeSetId(e: Env, rolloutId: string, deviceId: string): string {
    "cs-" + e.seedDigest("device-change-set:" + IdentitySeed(rolloutId, deviceId))[..32]
  }

  function RolloutOperationId(e: Env, rolloutId: string, deviceId: string, index: nat, config: string): string {
    "op-" + e.seedDigest("device-operation:" + IdentitySeed(rolloutId, deviceId) + ":" + Decimal(index) + ":" + config)[..32]
  }

  /** The changeset a rollout derives for one device, before validation. */
  function RolloutChangeSet(e: Env, rolloutId: string, deviceId: string, ops: seq<Operation>, healthChecks: seq<string>, policy: string): ChangeSet {
    var named := seq(|ops|, i requires 0 <= i < |ops| => ops[i].(id := RolloutOperationId(e, rolloutId, deviceId, i, ops[i].config)));
    var unsigned := ChangeSet(RolloutChangeSetId(e, rolloutId, deviceId), deviceId, "", None, named, healthChecks, policy);
    unsigned.(planHash := e.contentDigest(ContentOf(unsigned)))
  }

  method NewDeviceChangeSetForRolloutOperations(e: Env, rolloutId: string, deviceId: string, operations: seq<Operation>,
        healthChecks: seq<string>, policy: string)
    returns (r: Outcome<ChangeSet, Refusal>)
    ensures r.Ok? <==> ServiceAccepts(e, RolloutChangeSet(e, rolloutId, deviceId, operations, healthChecks, policy))
    ensures r.Ok? ==> r.value == RolloutChangeSet(e, rolloutId, deviceId, operations, healthChecks, policy)
  {
    var ops := operations;
    for index := 0 to |operations|
      invariant |ops| == |operations|
      invariant forall k | 0 <= k < index :: ops[k] == operations[k].(id := RolloutOperationId(e, rolloutId, deviceId, k, operations[k].config))
      invariant forall k | index <= k < |ops| :: ops[k] == operations[k]
    {
      ops := ops[index := ops[index].(id := RolloutOperationId(e, rolloutId, deviceId, index, ops[index].config))];
    }
    var changeSet := ChangeSet(RolloutChangeSetId(e, rolloutId, deviceId), deviceId, "", None, ops, healthChecks, policy);
    changeSet := changeSet.(planHash := e.contentDigest(ContentOf(changeSet)));
    assert changeSet == RolloutChangeSet(e, rolloutId, deviceId, operations, healthChecks, policy) by {
      assert ops == seq(|operations|, i requires 0 <= i < |operations| =>
                          operations[i].(id := RolloutOperationId(e, rolloutId, deviceId, i, operations[i].config)));
    }
    var checked := ValidateDeviceChangeSet(e, changeSet);
    return if checked.Ok? then Ok(changeSet) else Err(checked.error);
  }

  // ---- How the two validators relate ---------------------------------------

  /** Derived ids are well formed, and the plan hash always covers the content. */
  lemma RolloutChangeSetIsWellSigned(e: Env, rolloutId: string, deviceId: string, ops: seq<Operation>, healthChecks: seq<string>, policy: string)
    ensures var cs := RolloutChangeSet(e, rolloutId, deviceId, ops, healthChecks, policy);
            && ValidId(cs.id) && ValidHash(cs.planHash)
            && (forall i | 0 <= i < |cs.operations| :: ValidId(cs.operations[i].id))
            && e.contentDigest(ContentOf(cs)) == cs.planHash
  {
    var cs := RolloutChangeSet(e, rolloutId, deviceId, ops, healthChecks, policy);
    assert ContentOf(cs) == ContentOf(cs.(planHash := ""));
    DigestPrefixIsId("cs-", e.seedDigest("device-change-set:" + IdentitySeed(rolloutId, deviceId)));
    forall i | 0 <= i < |cs.operations| ensures ValidId(cs.operations[i].id) {
      DigestPrefixIsId("op-", e.seedDigest("device-operation:" + IdentitySeed(rolloutId, deviceId) + ":" + Decimal(i) + ":" + ops[i].config));
    }
  }

  lemma DigestPrefixIsId(prefix: string, digest: Digest)
    requires prefix == "cs-" || prefix == "op-"
    ensures ValidId(prefix + digest[..32])
  {
    var id := prefix + digest[..32];
    forall i | 0 <= i < |id| ensures IsIdChar(id[i]) {
      if i >= 3 {
        assert id[i] == digest[i - 3];
      }
    }
  }

  predicate NeedsScript(c: Command) { c.action.EnsureHost? || c.action.DeleteAll? }

  /**
   * The two validators disagree on exactly one thing: a changeset the service
   * builds is accepted by the database unless it carries a scripted command.
   */
  lemma ServiceAcceptedUnlessScripted(e: Env, cs: ChangeSet)
    requires ServiceAccepts(e, cs) && (cs.generation.Some? ==> cs.generation.value != 0)
    ensures Acceptable(e, cs) <==>
            forall i, j | 0 <= i < |cs.operations| && 0 <= j < |cs.operations[i].commands| :: !NeedsScript(cs.operations[i].commands[j])
  {
    forall i, j | 0 <= i < |cs.operations| && 0 <= j < |cs.operations[i].commands|
      ensures ParserAcceptsCommand(cs.operations[i].commands[j]) <==> !NeedsScript(cs.operations[i].commands[j])
    {
      assert ServiceAcceptsOperation(e, cs.operations[i]);
      assert ServiceAcceptsCommand(e, cs.operations[i].config, cs.operations[i].commands[j]);
    }
    forall i | 0 <= i < |cs.operations| ensures ParserAcceptsOperation(cs.operations[i]) {
      assert ServiceAcceptsOperation(e, cs.operations[i]);
    }
  }

  /** A command that its operation carries for another namespace. */
  predicate Misplaced(cs: ChangeSet) {
    exists i, j | 0 <= i < |cs.operations| && 0 <= j < |cs.operations[i].commands| ::
      cs.operations[i].commands[j].config != cs.operations[i].config
  }

  /**
   * The other way round: of what the database accepts, the service would refuse
   * exactly the changesets in which a command stands in the operation of another
   * namespace. (The empty text is no IP address.)
   */
  lemma ParserAcceptedUnlessMisplaced(e: Env, cs: ChangeSet)
    requires Acceptable(e, cs) && !e.parsesAsIp("")
    ensures ServiceAccepts(e, cs) <==> !Misplaced(cs)
  {
    forall i, j | 0 <= i < |cs.operations| && 0 <= j < |cs.operations[i].commands|
      ensures var op := cs.operations[i]; ServiceAcceptsCommand(e, op.config, op.commands[j]) <==> op.commands[j].config == op.config
    {
      assert ParserAcceptsCommand(cs.operations[i].commands[j]);
      AllowedNamesAreNames(cs.operations[i].commands[j].config);
    }
    assert forall i | 0 <= i < |cs.healthChecks| :: ValidHealthCheck(e, cs.healthChecks[i]);
    forall i | 0 <= i < |cs.operations|
      ensures ServiceAcceptsOperation(e, cs.operations[i]) <==>
              forall j | 0 <= j < |cs.operations[i].commands| :: cs.operations[i].commands[j].config == cs.operations[i].config
    {
      assert ParserAcceptsOperation(cs.operations[i]);
    }
  }

  lemma AllowedNamesAreNames(config: string)
    requires config in NAMESPACES
    ensures ValidName(config)
  {
  }

  /** Ids depend on the rollout and device only, whatever their letter case. */
  lemma RolloutIdentityIsCaseBlind(e: Env, r1: string, d1: string, r2: string, d2: string)
    requires EqualFold(r1, r2) && EqualFold(d1, d2)
    ensures RolloutChangeSetId(e, r1, d1) == RolloutChangeSetId(e, r2, d2)
  {
  }
}
