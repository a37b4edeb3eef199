/**
 * The learning tables as one object: each lifecycle function is a method that
 * checks the stored state and updates rows in place, proved equal to its step.
 */
module SentinelStore {
  import opened Common
  import opened Sentinel
  import SentinelTools

  // ---- Lists ------------------------------------------------------------------------

  /** `uniqueLearningRefs`: one pass with a map of the keys seen, then the sort. */
  method UniqueLearningRefs(refs: seq<Ref>) returns (unique: seq<Ref>)
    ensures unique == UniqueRefs(refs)
  {
    var seen: map<string, bool> := map[];
    var result: seq<Ref> := [];
    for i := 0 to |refs|
      invariant result == FirstRefs(refs[..i])
      invariant forall k :: k in seen <==> exists j | 0 <= j < |result| :: Key(result[j]) == k
    {
      assert refs[..i + 1][..i] == refs[..i];
      var ref := refs[i];
      var key := Key(ref);
      if ref.caseText == "" || ref.evidence == "" || key in seen {
        continue;
      }
      ghost var before, known := result, seen;
      seen := seen[key := true];
      result := result + [ref];
      forall k | k in seen ensures exists j | 0 <= j < |result| :: Key(result[j]) == k {
        if k == key {
          assert Key(result[|before|]) == k;
        } else {
          assert k in known;
          var j :| 0 <= j < |before| && Key(before[j]) == k;
          assert Key(result[j]) == k;
        }
      }
    }
    assert refs[..|refs|] == refs;
    return SortRefs(result);
  }

  /** The loop of `validateSentinelLearningEvidenceRefs`, with its cache of loaded cases. */
  method ValidateEvidenceRefs(e: Env, w: World, scope: Scope, refs: seq<Ref>, needed: bool) returns (checked: Option<seq<Ref>>)
    ensures checked == CheckRefs(e, w, scope, refs, needed)
  {
    var unique := UniqueLearningRefs(refs);
    if needed && unique == [] {
      return None;
    }
    var cache: map<string, CaseRow> := map[];
    for i := 0 to |unique|
      invariant RefsHold(e, w, scope, unique[..i])
      invariant forall t | t in cache :: e.rowOf(t).Some? && e.rowOf(t).value in w.cases && cache[t] == w.cases[e.rowOf(t).value]
    {
      var ref := unique[i];
      if ref.caseText !in cache {
        var row := FindRow(e, w.cases, ref.caseText);
        if row.None? {
          assert !RefHolds(e, w, scope, unique[i]);
          return None;
        }
        cache := cache[ref.caseText := w.cases[row.value]];
      }
      var item := cache[ref.caseText];
      if (scope.site != "" && item.site != scope.site) || (scope.device != "" && item.device != "" && item.device != scope.device) {
        assert !RefHolds(e, w, scope, unique[i]);
        return None;
      }
      if !HasEvidence(item, ref.evidence) {
        assert !RefHolds(e, w, scope, unique[i]);
        return None;
      }
    }
    return Some(unique);
  }

  method NormalizeStringSet(values: seq<string>, maxItems: nat, maxLen: nat) returns (r: Option<seq<string>>)
    ensures r.Some? <==> SetFits(values, maxItems, maxLen)
    ensures r.Some? ==> forall v :: v in r.value <==> v != "" && exists i | 0 <= i < |values| :: Normal(values[i]) == v
    ensures r.Some? ==> forall i, j | 0 <= i < j < |r.value| :: r.value[i] != r.value[j]
  {
    if |values| > maxItems {
      return None;
    }
    var result: seq<string> := [];
    for i := 0 to |values|
      invariant SetFits(values[..i], maxItems, maxLen)
      invariant forall v :: v in result <==> v != "" && exists k | 0 <= k < i :: Normal(values[k]) == v
      invariant forall k, l | 0 <= k < l < |result| :: result[k] != result[l]
    {
      var value := Normal(values[i]);
      if value == "" {
        continue;
      }
      if |value| > maxLen {
        return None;
      }
      if value !in result {
        result := result + [value];
      }
    }
    SentinelTools.SortKeepsTexts(result);
    SentinelTools.DistinctTexts(result, SortTexts(result));
    return Some(SortTexts(result));
  }

  predicate NotAllReadOnly(e: Env, tools: seq<string>) {
    exists i | 0 <= i < |tools| :: !IsReadOnly(e, tools[i])
  }

  lemma UnsafeToolsAreNamed(e: Env, spec: SkillSpec)
    ensures UnsafeTools(e, spec) <==> NotAllReadOnly(e, NamedTools(spec.tools))
  {
    var named := NamedTools(spec.tools);
    SentinelTools.NamedToolsAre(spec.tools);
    if i :| 0 <= i < |spec.tools| && TrimSpace(spec.tools[i]) != "" && !IsReadOnly(e, TrimSpace(spec.tools[i])) {
      assert TrimSpace(spec.tools[i]) in SentinelTools.NamedIn(spec.tools);
      var k :| 0 <= k < |named| && named[k] == TrimSpace(spec.tools[i]);
    }
    if k :| 0 <= k < |named| && !IsReadOnly(e, named[k]) {
      assert named[k] in SentinelTools.Elements(named);
      var i :| 0 <= i < |spec.tools| && TrimSpace(spec.tools[i]) != "" && TrimSpace(spec.tools[i]) == named[k];
    }
  }

  lemma NextNamed(tools: seq<string>, i: nat)
    requires i < |tools|
    ensures var seen, tool := NamedTools(tools[..i]), TrimSpace(tools[i]);
            NamedTools(tools[..i + 1]) == if tool == "" || tool in seen then seen else seen + [tool]
  {
    assert tools[..i + 1][..i] == tools[..i];
  }

  /** What the tool loop knows about the distinct tools seen so far. */
  ghost predicate ToolsChecked(e: Env, seen: seq<string>, validated: seq<string>, unsafe: bool) {
    validated == OnlyReadOnly(e, seen) && (unsafe <==> NotAllReadOnly(e, seen))
  }

  lemma NextTool(e: Env, seen: seq<string>, validated: seq<string>, unsafe: bool, tool: string)
    requires ToolsChecked(e, seen, validated, unsafe)
    ensures if IsReadOnly(e, tool) then ToolsChecked(e, seen + [tool], validated + [tool], unsafe) else ToolsChecked(e, seen + [tool], validated, true)
  {
    var more := seen + [tool];
    assert more[..|seen|] == seen && more[|seen|] == tool;
    assert forall k | 0 <= k < |seen| :: more[k] == seen[k];
    assert validated + [] == validated;
  }

  /** The tool loop of `ValidateSentinelSkillSpec`. */
  method ValidateTools(e: Env, tools: seq<string>) returns (validated: seq<string>, unsafe: bool)
    ensures validated == OnlyReadOnly(e, NamedTools(tools))
    ensures unsafe <==> NotAllReadOnly(e, NamedTools(tools))
  {
    var seen: seq<string> := [];
    validated, unsafe := [], false;
    for i := 0 to |tools|
      invariant seen == NamedTools(tools[..i])
      invariant ToolsChecked(e, seen, validated, unsafe)
    {
      NextNamed(tools, i);
      var tool := TrimSpace(tools[i]);
      if tool == "" || tool in seen {
        continue;
      }
      NextTool(e, seen, validated, unsafe, tool);
      seen := seen + [tool];
      if IsReadOnly(e, tool) {
        validated := validated + [tool];
      } else {
        unsafe := true;
      }
    }
    assert tools[..|tools|] == tools;
  }

  /** `ValidateSentinelSkillSpec`; errors are only counted. */
  method ValidateSkillSpec(e: Env, spec: SkillSpec) returns (v: Validation)
    ensures v == ValidateSpec(e, spec)
  {
    var errors := 0;
    if spec.schemaVersion != 1 {
      errors := errors + 1;
    }
    if !NamePattern(TrimSpace(spec.name)) {
      errors := errors + 1;
    }
    if |spec.description| > 1000 {
      errors := errors + 1;
    }
    if |spec.tools| == 0 || |spec.tools| > 4 {
      errors := errors + 1;
    }
    var validated, unsafe := ValidateTools(e, spec.tools);
    UnsafeToolsAreNamed(e, spec);
    var sources := NormalizeStringSet(spec.sources, 8, 64);
    if sources.None? {
      errors := errors + 1;
    }
    var keywords := NormalizeStringSet(spec.keywords, 12, 64);
    if keywords.None? {
      errors := errors + 1;
    }
    var severitiesFit := CheckSeverities(spec.severities);
    if !severitiesFit {
      errors := errors + 1;
    }
    return Validation(errors == 0 && !unsafe, unsafe, SortTexts(validated));
  }

  method CheckSeverities(values: seq<string>) returns (fit: bool)
    ensures fit <==> SeveritiesFit(values)
  {
    var severities := NormalizeStringSet(values, 5, 16);
    if severities.None? {
      return false;
    }
    var allowed := ["", "info", "low", "medium", "high", "critical"];
    for i := 0 to |severities.value|
      invariant forall k | 0 <= k < i :: severities.value[k] in allowed
    {
      if severities.value[i] !in allowed {
        assert severities.value[i] in severities.value;
        return false;
      }
    }
    forall i | 0 <= i < |values| ensures Normal(values[i]) in allowed {
      if Normal(values[i]) == "" {
        assert allowed[0] == "";
      } else {
        assert Normal(values[i]) in severities.value;
      }
    }
    return true;
  }

  method CountSatisfied(tools: seq<string>, available: set<string>) returns (satisfied: nat)
    ensures satisfied == CountIn(tools, available)
  {
    satisfied := 0;
    for i := 0 to |tools|
      invariant satisfied == CountIn(tools[..i], available)
    {
      assert tools[..i + 1][..i] == tools[..i];
      if tools[i] in available {
        satisfied := satisfied + 1;
      }
    }
    assert tools[..|tools|] == tools;
  }

  // ---- The tables -----------------------------------------------------------------------

  class LearningStore {
    var now: int
    var nextId: nat
    var cases: map<nat, CaseRow>
    var memories: map<nat, Memory>
    var skills: map<nat, Skill>
    var evaluations: seq<Evaluation>

    function Tables(): World
      reads this
    {
      World(now, nextId, cases, memories, skills, evaluations)
    }

    constructor ()
      ensures Tables() == EMPTY
    {
      now, nextId, cases, memories, skills, evaluations := 0, 0, map[], map[], map[], [];
    }

    method CreateCandidate(e: Env, input: MemoryInput) returns (r: Outcome<nat, Failure>)
      modifies this`nextId, this`memories
      ensures (Tables(), r) == CreateMemory(e, old(Tables()), input)
      ensures Tables() == Step(e, old(Tables()), OnMemory(CallCreate(input)))
    {
      if input.statement == "" || |input.statement| > 4000 {
        return Err(BadStatement);
      }
      if input.confidence < 0.0 || input.confidence > 1.0 {
        return Err(BadConfidence);
      }
      var source := FindRow(e, cases, input.sourceText);
      if source.None? {
        return Err(NotFound);
      }
      var item := cases[source.value];
      if !ScopeFits(item, input.scope) {
        return Err(BadScope);
      }
      var scope := Scope(item.site, item.device);
      var evidence := ValidateEvidenceRefs(e, Tables(), scope, input.evidence, true);
      if evidence.None? {
        return Err(BadEvidence);
      }
      var counter := ValidateEvidenceRefs(e, Tables(), scope, input.counter, false);
      if counter.None? {
        return Err(BadEvidence);
      }
      var ttl := LearningTtl(input.ttlHours);
      if ttl.None? {
        return Err(BadTtl);
      }
      var existing := FindClaim(Tables(), source.value, input.statement, nextId);
      if existing.Some? {
        return Ok(existing.value);
      }
      memories := memories[nextId := Memory(source.value, input.statement, scope, Candidate, evidence.value, counter.value, now + ttl.value, None)];
      nextId := nextId + 1;
      return Ok(nextId - 1);
    }

    method Validate(e: Env, text: string) returns (r: Outcome<(), Failure>)
      modifies this`memories
      ensures (Tables(), r) == ValidateMemory(e, old(Tables()), text)
      ensures Tables() == Step(e, old(Tables()), OnMemory(CallValidate(text)))
    {
      var id := FindRow(e, memories, text);
      if id.None? {
        return Err(NotFound);
      }
      var m := memories[id.value];
      if !m.state.Candidate? {
        return Err(WrongState);
      }
      if m.expiresAt <= now {
        memories := memories[id.value := m.(state := Expired)];
        return Err(IsExpired);
      }
      if |m.counter| > 0 {
        return Err(HasCounterEvidence);
      }
      var checked := ValidateEvidenceRefs(e, Tables(), m.scope, m.evidence, true);
      if checked.None? {
        return Err(BadEvidence);
      }
      memories := memories[id.value := m.(state := Validated)];
      return Ok(());
    }

    method Reject(e: Env, text: string) returns (r: Outcome<(), Failure>)
      modifies this`memories
      ensures (Tables(), r) == RejectMemory(e, old(Tables()), text)
      ensures Tables() == Step(e, old(Tables()), OnMemory(CallReject(text)))
    {
      var id := FindRow(e, memories, text);
      if id.None? || !memories[id.value].state.Candidate? {
        return Err(WrongState);
      }
      memories := memories[id.value := memories[id.value].(state := MemoryRejected)];
      return Ok(());
    }

    method RecordCounterEvidence(e: Env, text: string, refs: seq<Ref>) returns (r: Outcome<(), Failure>)
      modifies this`memories
      ensures (Tables(), r) == AddCounterEvidence(e, old(Tables()), text, refs)
      ensures Tables() == Step(e, old(Tables()), OnMemory(CallCounter(text, refs)))
    {
      var id := FindRow(e, memories, text);
      if id.None? {
        return Err(NotFound);
      }
      var m := memories[id.value];
      if !m.state.Candidate? && !m.state.Validated? {
        return Err(WrongState);
      }
      var checked := ValidateEvidenceRefs(e, Tables(), m.scope, refs, true);
      if checked.None? {
        return Err(BadEvidence);
      }
      var counter := UniqueLearningRefs(m.counter + checked.value);
      m := m.(counter := counter);
      if m.state.Validated? {
        m := m.(state := Candidate);
      }
      memories := memories[id.value := m];
      return Ok(());
    }

    method SupersedeMemory(e: Env, oldText: string, newText: string) returns (r: Outcome<(), Failure>)
      modifies this`memories
      ensures (Tables(), r) == Supersede(e, old(Tables()), oldText, newText)
      ensures Tables() == Step(e, old(Tables()), OnMemory(CallSupersede(oldText, newText)))
    {
      var oldId, newId := FindRow(e, memories, oldText), FindRow(e, memories, newText);
      if oldId.None? || newId.None? {
        return Err(NotFound);
      }
      var oldItem, newItem := memories[oldId.value], memories[newId.value];
      if !oldItem.state.Validated? || !newItem.state.Validated? {
        return Err(WrongState);
      }
      if oldText == newText {
        return Err(SameMemory);
      }
      if oldItem.scope != newItem.scope {
        return Err(OtherScope);
      }
      if oldItem.supersededBy.Some? {
        return Err(NotSuperseded);
      }
      memories := memories[oldId.value := oldItem.(state := Superseded, supersededBy := newId)];
      return Ok(());
    }

    method ExpireLearnedMemories(e: Env)
      modifies this`memories
      ensures Tables() == Step(e, old(Tables()), OnMemory(CallExpire))
    {
      var rows, w := memories, Tables();
      memories := map id | id in rows :: ExpireOne(w, rows[id]);
    }

    /** The case deletion of `SweepSentinelHistory`. */
    method SweepCases(e: Env, cutoff: int) returns (r: Outcome<nat, Failure>)
      modifies this
      ensures Tables() == Step(e, old(Tables()), CallSweep(cutoff))
      ensures r.Ok? <==> !SweepRefused(e, old(Tables()), cutoff)
      ensures r.Ok? ==> r.value == |old(cases)| - |cases|
    {
      var w := Tables();
      if SweepRefused(e, w, cutoff) {
        return Err(Referenced);
      }
      var before := |cases|;
      cases := map c | c in w.cases && !Sweepable(e, w, c, cutoff) :: w.cases[c];
      memories := map id | id in w.memories && !Swept(e, w, id, cutoff) :: w.memories[id];
      skills := map id | id in w.skills && !Sweepable(e, w, w.skills[id].source, cutoff) :: w.skills[id];
      evaluations := KeepEvaluations(w.evaluations, skills, cases);
      FewerRows(w.cases, cases);
      return Ok(before - |cases|);
    }

    // ---- Skills -----------------------------------------------------------------------

    method CreateSkillDraft(e: Env, sourceText: string, scope: Scope, spec: SkillSpec) returns (r: Outcome<nat, Failure>)
      modifies this`nextId, this`skills
      ensures (Tables(), r) == CreateSkill(e, old(Tables()), sourceText, scope, spec)
      ensures Tables() == Step(e, old(Tables()), OnSkill(CallDraft(sourceText, scope, spec)))
    {
      var source := FindRow(e, cases, sourceText);
      if source.None? {
        return Err(NotFound);
      }
      var item := cases[source.value];
      if !ScopeFits(item, scope) {
        return Err(BadScope);
      }
      if |spec.description| > 4000 || |spec.tools| > 16 {
        return Err(BadSpec);
      }
      var named := spec.(name := TrimSpace(spec.name));
      var existing := FindSkill(Tables(), source.value, named.name, nextId);
      if existing.Some? {
        return Ok(existing.value);
      }
      skills := skills[nextId := Skill(source.value, Scope(item.site, item.device), SkillDraft, named)];
      nextId := nextId + 1;
      return Ok(nextId - 1);
    }

    method ValidateDraft(e: Env, text: string) returns (r: Outcome<(), Failure>)
      modifies this`skills
      ensures (Tables(), r) == ValidateSkill(e, old(Tables()), text)
      ensures Tables() == Step(e, old(Tables()), OnSkill(CallValidateSkill(text)))
    {
      var id := FindRow(e, skills, text);
      if id.None? {
        return Err(NotFound);
      }
      if !skills[id.value].state.SkillDraft? {
        return Err(WrongState);
      }
      var validation := ValidateSkillSpec(e, skills[id.value].spec);
      if !validation.valid {
        return Err(BadSpec);
      }
      skills := skills[id.value := skills[id.value].(state := SkillValidated)];
      return Ok(());
    }

    /** The evaluation part that replay and shadow runs share. */
    method EvaluateSkill(e: Env, id: nat, caseId: nat, mode: EvaluationMode, asOf: int, query: string, available: set<string>)
      returns (evaluation: Evaluation)
      requires id in skills && caseId in cases
      ensures evaluation == Evaluate(e, id, skills[id], caseId, cases[caseId], mode, asOf, query, available)
    {
      var validation := ValidateSkillSpec(e, skills[id].spec);
      var matched := validation.valid && e.matches(skills[id].spec, cases[caseId].text, query);
      var satisfied := 0;
      if matched {
        satisfied := CountSatisfied(validation.tools, available);
      }
      var total := |validation.tools|;
      return Evaluation(id, caseId, mode, asOf, matched, total, satisfied, validation.unsafe, Score(total, satisfied, validation.unsafe));
    }

    method Replay(e: Env, text: string, caseText: string, asOf: Option<int>) returns (r: Outcome<(), Failure>)
      modifies this`evaluations
      ensures (Tables(), r) == ReplaySkill(e, old(Tables()), text, caseText, asOf)
      ensures Tables() == Step(e, old(Tables()), OnSkill(CallReplay(text, caseText, asOf)))
    {
      var id := FindRow(e, skills, text);
      if id.None? {
        return Err(NotFound);
      }
      var skill := skills[id.value];
      if !skill.state.SkillValidated? && !skill.state.Shadow? {
        return Err(WrongState);
      }
      var caseId := FindRow(e, cases, caseText);
      if caseId.None? {
        return Err(NotFound);
      }
      var item := cases[caseId.value];
      if skill.scope.site != "" && item.site != skill.scope.site {
        return Err(OutOfScope);
      }
      if skill.scope.device != "" && item.device != skill.scope.device {
        return Err(OutOfScope);
      }
      var at := item.updatedAt;
      if asOf.Some? {
        at := asOf.value;
      } else if item.resolvedAt.Some? {
        at := item.resolvedAt.value;
      }
      var evaluation := EvaluateSkill(e, id.value, caseId.value, EvaluationMode.Replay, at, "", ToolsAt(item, at));
      if !Repeats(evaluations, evaluation) {
        evaluations := evaluations + [evaluation];
      }
      return Ok(());
    }

    method StartSkillShadow(e: Env, text: string) returns (r: Outcome<(), Failure>)
      modifies this`skills
      ensures (Tables(), r) == StartShadow(e, old(Tables()), text)
      ensures Tables() == Step(e, old(Tables()), OnSkill(CallStartShadow(text)))
    {
      var id := FindRow(e, skills, text);
      if id.None? {
        return Err(NotFound);
      }
      if !skills[id.value].state.SkillValidated? {
        return Err(WrongState);
      }
      var stats := PromotionStats(Tables(), id.value);
      if stats.replayCount < 3 || stats.replayRate < 0.8 || stats.unsafeCount != 0 {
        return Err(BelowThreshold);
      }
      skills := skills[id.value := skills[id.value].(state := Shadow)];
      return Ok(());
    }

    /** The loop of `EvaluateSentinelShadowSkills` over the SHADOW skills it listed. */
    method EvaluateShadowSkills(e: Env, listed: seq<nat>, caseId: nat, query: string, available: set<string>)
      requires caseId in cases
      requires forall i | 0 <= i < |listed| :: listed[i] in skills && skills[listed[i]].state.Shadow? && InScope(skills[listed[i]].scope, cases[caseId])
      modifies this`evaluations
      ensures Tables() == Run(e, old(Tables()), ShadowCalls(listed, caseId, query, available))
    {
      for i := 0 to |listed|
        invariant Run(e, old(Tables()), ShadowCalls(listed, caseId, query, available)) == Run(e, Tables(), ShadowCalls(listed[i..], caseId, query, available))
        invariant skills == old(skills) && cases == old(cases)
      {
        ShadowCallFirst(e, Tables(), listed, i, caseId, query, available);
        var evaluation := EvaluateSkill(e, listed[i], caseId, ShadowRun, now, query, available);
        evaluations := evaluations + [evaluation];
      }
      assert listed[|listed|..] == [];
    }

    method PromoteSkill(e: Env, text: string) returns (r: Outcome<(), Failure>)
      modifies this`skills
      ensures (Tables(), r) == Promote(e, old(Tables()), text)
      ensures Tables() == Step(e, old(Tables()), OnSkill(CallPromote(text)))
    {
      var id := FindRow(e, skills, text);
      if id.None? {
        return Err(NotFound);
      }
      if !skills[id.value].state.Shadow? {
        return Err(WrongState);
      }
      var validation := ValidateSkillSpec(e, skills[id.value].spec);
      if !validation.valid || validation.unsafe {
        return Err(BadSpec);
      }
      var stats := PromotionStats(Tables(), id.value);
      if !CanPromote(stats) {
        return Err(BelowThreshold);
      }
      skills := skills[id.value := skills[id.value].(state := Trusted)];
      return Ok(());
    }

    method DeprecateSkill(e: Env, text: string) returns (r: Outcome<(), Failure>)
      modifies this`skills
      ensures (Tables(), r) == Deprecate(e, old(Tables()), text)
      ensures Tables() == Step(e, old(Tables()), OnSkill(CallDeprecate(text)))
    {
      var id := FindRow(e, skills, text);
      if id.None? || !skills[id.value].state.Trusted? {
        return Err(WrongState);
      }
      skills := skills[id.value := skills[id.value].(state := Deprecated)];
      return Ok(());
    }

    method RevokeSkill(e: Env, text: string) returns (r: Outcome<(), Failure>)
      modifies this`skills
      ensures (Tables(), r) == Revoke(e, old(Tables()), text)
      ensures Tables() == Step(e, old(Tables()), OnSkill(CallRevoke(text)))
    {
      var id := FindRow(e, skills, text);
      if id.None? {
        return Err(NotFound);
      }
      if skills[id.value].state.Revoked? {
        assert skills[id.value := skills[id.value]] == skills;
        return Ok(());
      }
      skills := skills[id.value := skills[id.value].(state := Revoked)];
      return Ok(());
    }
  }

  predicate InScope(scope: Scope, c: CaseRow) {
    (scope.site == "" || scope.site == c.site) && (scope.device == "" || scope.device == c.device)
  }

  function ShadowCalls(listed: seq<nat>, caseId: nat, query: string, available: set<string>): seq<Call> {
    if listed == [] then [] else [OnSkill(CallShadowRun(listed[0], caseId, query, available))] + ShadowCalls(listed[1..], caseId, query, available)
  }

  lemma ShadowCallFirst(e: Env, w: World, listed: seq<nat>, i: nat, caseId: nat, query: string, available: set<string>)
    requires i < |listed| && caseId in w.cases && listed[i] in w.skills && w.skills[listed[i]].state.Shadow? && InScope(w.skills[listed[i]].scope, w.cases[caseId])
    ensures var ev := Evaluate(e, listed[i], w.skills[listed[i]], caseId, w.cases[caseId], ShadowRun, w.now, query, available);
            Run(e, w, ShadowCalls(listed[i..], caseId, query, available))
            == Run(e, w.(evaluations := w.evaluations + [ev]), ShadowCalls(listed[i + 1..], caseId, query, available))
  {
    var calls := ShadowCalls(listed[i..], caseId, query, available);
    assert listed[i..][0] == listed[i] && listed[i..][1..] == listed[i + 1..];
    assert calls[0] == OnSkill(CallShadowRun(listed[i], caseId, query, available));
    assert calls[1..] == ShadowCalls(listed[i + 1..], caseId, query, available);
  }

  lemma FewerRows(a: map<nat, CaseRow>, b: map<nat, CaseRow>)
    requires b.Keys <= a.Keys
    ensures |b| <= |a|
  {
    SubsetIsSmaller(b.Keys, a.Keys);
    assert |b| == |b.Keys| && |a| == |a.Keys|;
  }
}
