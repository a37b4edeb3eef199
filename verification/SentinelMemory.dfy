/** What every run of the learning lifecycle keeps about memories: trust, supersession and retention. */
module SentinelMemory {
  import opened Common
  import opened Sentinel

  // ---- Reference lists ------------------------------------------------------------

  predicate IsComplete(r: Ref) { r.caseText != "" && r.evidence != "" }

  lemma {:induction false} InsertKeepsRefs(r: Ref, sorted: seq<Ref>)
    ensures multiset(InsertRef(r, sorted)) == multiset{r} + multiset(sorted)
    decreases sorted
  {
    if sorted != [] && RefLess(sorted[0], r) {
      assert sorted == [sorted[0]] + sorted[1..];
      InsertKeepsRefs(r, sorted[1..]);
    }
  }

  lemma {:induction false} SortKeepsRefs(refs: seq<Ref>)
    ensures multiset(SortRefs(refs)) == multiset(refs)
    decreases refs
  {
    if refs != [] {
      assert refs == [refs[0]] + refs[1..];
      SortKeepsRefs(refs[1..]);
      InsertKeepsRefs(refs[0], SortRefs(refs[1..]));
    }
  }

  lemma {:induction false} FirstRefsAreRefs(refs: seq<Ref>)
    ensures forall r | r in FirstRefs(refs) :: r in refs && IsComplete(r)
    ensures refs != [] && IsComplete(refs[|refs| - 1]) ==> FirstRefs(refs) != []
    decreases |refs|
  {
    if refs != [] {
      FirstRefsAreRefs(refs[..|refs| - 1]);
    }
  }

  /** The stored list holds only given, complete references, and keeps at least one of a list that ends in one. */
  lemma UniqueRefsAreRefs(refs: seq<Ref>)
    ensures forall r | r in UniqueRefs(refs) :: r in refs && IsComplete(r)
    ensures refs != [] && IsComplete(refs[|refs| - 1]) ==> UniqueRefs(refs) != []
  {
    FirstRefsAreRefs(refs);
    SortKeepsRefs(FirstRefs(refs));
    forall r | r in UniqueRefs(refs) ensures r in refs && IsComplete(r) {
      assert r in multiset(UniqueRefs(refs));
    }
    if FirstRefs(refs) != [] {
      assert FirstRefs(refs)[0] in multiset(FirstRefs(refs));
      assert FirstRefs(refs)[0] in multiset(UniqueRefs(refs));
    }
  }

  lemma MoreCounterEvidence(counter: seq<Ref>, refs: seq<Ref>)
    requires UniqueRefs(refs) != []
    ensures UniqueRefs(counter + UniqueRefs(refs)) != []
    ensures forall r | r in UniqueRefs(counter + UniqueRefs(refs)) :: r in counter || r in UniqueRefs(refs)
  {
    var more := UniqueRefs(refs);
    UniqueRefsAreRefs(refs);
    assert more[|more| - 1] in more;
    assert (counter + more)[|counter + more| - 1] == more[|more| - 1];
    UniqueRefsAreRefs(counter + more);
  }

  // ---- The invariant -----------------------------------------------------------------

  predicate MemoryOk(m: Memory) {
    && m.evidence != []
    && (m.state.Validated? ==> m.counter == [])
    && (m.supersededBy.Some? <==> m.state.Superseded?)
  }

  ghost predicate MemoriesOk(w: World) {
    forall id | id in w.memories :: MemoryOk(w.memories[id]) && id < w.nextId
  }

  /** Every reference between rows finds its row. */
  ghost predicate ForeignKeys(w: World) {
    && (forall id | id in w.memories :: w.memories[id].source in w.cases)
    && (forall id | id in w.memories && w.memories[id].supersededBy.Some? :: w.memories[id].supersededBy.value in w.memories)
    && (forall id | id in w.skills :: w.skills[id].source in w.cases)
    && (forall ev | ev in w.evaluations :: ev.skill in w.skills && ev.caseId in w.cases)
    && (forall id | id in w.cases :: id < w.nextId)
    && (forall id | id in w.skills :: id < w.nextId)
  }

  /** What one call may do to one memory. */
  ghost predicate MemoryMoves(m: Memory, m': Memory) {
    && m'.source == m.source && m'.scope == m.scope && m'.evidence == m.evidence && m'.expiresAt == m.expiresAt
    && (m.counter != [] ==> m'.counter != [] && !m'.state.Validated?)
    && (m.state.Superseded? || m.state.MemoryRejected? || m.state.Expired? ==> m' == m)
  }

  ghost predicate TableMoves(w: World, w': World) {
    && w.nextId <= w'.nextId
    && (forall id | id in w.memories && id in w'.memories :: MemoryMoves(w.memories[id], w'.memories[id]))
    && (forall id | id in w'.memories && id !in w.memories :: id == w.nextId < w'.nextId)
  }

  /** What must hold before one memory is replaced. */
  ghost predicate MayReplace(w: World, id: nat, m: Memory) {
    && id in w.memories && MemoryOk(m) && MemoryMoves(w.memories[id], m)
    && (m.supersededBy.Some? ==> m.supersededBy.value in w.memories)
  }

  lemma ReplacingKeeps(w: World, id: nat, m: Memory)
    requires MemoriesOk(w) && ForeignKeys(w) && MayReplace(w, id, m)
    ensures var w' := w.(memories := w.memories[id := m]); MemoriesOk(w') && ForeignKeys(w') && TableMoves(w, w')
  {
  }

  ghost predicate Keeps(w: World, w': World) {
    MemoriesOk(w') && ForeignKeys(w') && TableMoves(w, w')
  }

  lemma NothingChanged(w: World)
    requires MemoriesOk(w) && ForeignKeys(w)
    ensures Keeps(w, w)
  {
  }

  lemma CreateKeeps(e: Env, w: World, input: MemoryInput)
    requires MemoriesOk(w) && ForeignKeys(w)
    ensures Keeps(w, CreateMemory(e, w, input).0)
  {
    var w' := CreateMemory(e, w, input).0;
    if w' == w {
      NothingChanged(w);
    }
  }

  lemma CounterKeeps(e: Env, w: World, text: string, refs: seq<Ref>)
    requires MemoriesOk(w) && ForeignKeys(w)
    ensures Keeps(w, AddCounterEvidence(e, w, text, refs).0)
  {
    if AddCounterEvidence(e, w, text, refs).1.Ok? {
      var id := FindRow(e, w.memories, text).value;
      var m := w.memories[id];
      MoreCounterEvidence(m.counter, refs);
      ReplacingKeeps(w, id, m.(counter := UniqueRefs(m.counter + UniqueRefs(refs)), state := Candidate));
    } else {
      NothingChanged(w);
    }
  }

  lemma StateChangeKeeps(w: World, id: nat, state: MemoryState)
    requires MemoriesOk(w) && ForeignKeys(w) && id in w.memories && !state.Superseded?
    requires w.memories[id].state.Candidate? && (state.Validated? ==> w.memories[id].counter == [])
    ensures Keeps(w, SetState(w, id, state))
  {
    ReplacingKeeps(w, id, w.memories[id].(state := state));
  }

  lemma ValidateKeeps(e: Env, w: World, text: string)
    requires MemoriesOk(w) && ForeignKeys(w)
    ensures Keeps(w, ValidateMemory(e, w, text).0)
  {
    var id := FindRow(e, w.memories, text);
    if ValidateMemory(e, w, text).1.Ok? {
      StateChangeKeeps(w, id.value, Validated);
    } else if ValidateMemory(e, w, text).1.error.IsExpired? {
      StateChangeKeeps(w, id.value, Expired);
    } else {
      NothingChanged(w);
    }
  }

  lemma SupersedeKeeps(e: Env, w: World, oldText: string, newText: string)
    requires MemoriesOk(w) && ForeignKeys(w)
    ensures Keeps(w, Supersede(e, w, oldText, newText).0)
  {
    if Supersede(e, w, oldText, newText).1.Ok? {
      var id := FindRow(e, w.memories, oldText).value;
      ReplacingKeeps(w, id, w.memories[id].(state := Superseded, supersededBy := FindRow(e, w.memories, newText)));
    } else {
      NothingChanged(w);
    }
  }

  lemma MemoryCallKeeps(e: Env, w: World, c: MemoryCall)
    requires MemoriesOk(w) && ForeignKeys(w)
    ensures Keeps(w, StepMemory(e, w, c))
  {
    match c
    case CallCreate(input) => CreateKeeps(e, w, input);
    case CallValidate(text) => ValidateKeeps(e, w, text);
    case CallReject(text) =>
      if RejectMemory(e, w, text).1.Ok? {
        StateChangeKeeps(w, FindRow(e, w.memories, text).value, MemoryRejected);
      } else {
        NothingChanged(w);
      }
    case CallCounter(text, refs) => CounterKeeps(e, w, text, refs);
    case CallSupersede(oldText, newText) => SupersedeKeeps(e, w, oldText, newText);
    case CallExpire => ExpireKeeps(w);
  }

  lemma ExpiringMoves(w: World, m: Memory)
    requires MemoryOk(m)
    ensures MemoryOk(ExpireOne(w, m)) && MemoryMoves(m, ExpireOne(w, m)) && ExpireOne(w, m).supersededBy == m.supersededBy
  {
  }

  lemma ExpireKeeps(w: World)
    requires MemoriesOk(w) && ForeignKeys(w)
    ensures Keeps(w, ExpireMemories(w))
  {
    forall id | id in w.memories
      ensures MemoryOk(ExpireOne(w, w.memories[id])) && MemoryMoves(w.memories[id], ExpireOne(w, w.memories[id]))
      ensures ExpireOne(w, w.memories[id]).supersededBy == w.memories[id].supersededBy
    {
      ExpiringMoves(w, w.memories[id]);
    }
  }

  lemma {:induction false} KeptEvaluationsAreSafe(evaluations: seq<Evaluation>, skills: map<nat, Skill>, cases: map<nat, CaseRow>)
    ensures forall ev | ev in KeepEvaluations(evaluations, skills, cases) :: ev.skill in skills && ev.caseId in cases
    decreases |evaluations|
  {
    if evaluations != [] {
      KeptEvaluationsAreSafe(evaluations[..|evaluations| - 1], skills, cases);
    }
  }

  lemma SweepKeeps(e: Env, w: World, cutoff: int)
    requires MemoriesOk(w) && ForeignKeys(w)
    ensures Keeps(w, Sweep(e, w, cutoff).0)
  {
    var w' := Sweep(e, w, cutoff).0;
    if !SweepRefused(e, w, cutoff) {
      KeptEvaluationsAreSafe(w.evaluations, w'.skills, w'.cases);
    }
  }

  /** Skill calls only touch the skill tables, and keep their references. */
  ghost predicate OnlySkills(w: World, w': World) {
    && w'.memories == w.memories && w'.cases == w.cases && w'.now == w.now && w.nextId <= w'.nextId
    && (forall id | id in w'.skills :: w'.skills[id].source in w.cases && id < w'.nextId)
    && (forall id | id in w.skills :: id in w'.skills)
    && (forall ev | ev in w'.evaluations :: ev in w.evaluations || (ev.skill in w.skills && ev.caseId in w.cases))
  }

  lemma EvaluationTouchesSkills(w: World, ev: Evaluation)
    requires ForeignKeys(w) && ev.skill in w.skills && ev.caseId in w.cases
    ensures OnlySkills(w, RecordEvaluation(w, ev))
  {
  }

  lemma StateTouchesSkills(w: World, id: nat, state: SkillState)
    requires ForeignKeys(w) && id in w.skills
    ensures OnlySkills(w, w) && OnlySkills(w, SetSkill(w, id, state))
  {
  }

  lemma ReplayTouchesSkills(e: Env, w: World, text: string, caseText: string, asOf: Option<int>)
    requires ForeignKeys(w)
    ensures OnlySkills(w, ReplaySkill(e, w, text, caseText, asOf).0)
  {
    if ReplaySkill(e, w, text, caseText, asOf).1.Ok? {
      var id, caseId := FindRow(e, w.skills, text).value, FindRow(e, w.cases, caseText).value;
      var c := w.cases[caseId];
      var at := if asOf.Some? then asOf.value else if c.resolvedAt.Some? then c.resolvedAt.value else c.updatedAt;
      EvaluationTouchesSkills(w, Evaluate(e, id, w.skills[id], caseId, c, Replay, at, "", ToolsAt(c, at)));
    }
  }

  lemma ShadowRunTouchesSkills(e: Env, w: World, id: nat, caseId: nat, query: string, available: set<string>)
    requires ForeignKeys(w)
    ensures OnlySkills(w, EvaluateShadow(e, w, id, caseId, query, available))
  {
    if EvaluateShadow(e, w, id, caseId, query, available) != w {
      EvaluationTouchesSkills(w, Evaluate(e, id, w.skills[id], caseId, w.cases[caseId], ShadowRun, w.now, query, available));
    }
  }

  lemma SkillCallsTouchSkills(e: Env, w: World, c: SkillCall)
    requires ForeignKeys(w)
    ensures OnlySkills(w, StepSkill(e, w, c))
  {
    match c
    case CallDraft(source, scope, spec) =>
    case CallReplay(skill, caseText, asOf) => ReplayTouchesSkills(e, w, skill, caseText, asOf);
    case CallShadowRun(row, caseId, query, available) => ShadowRunTouchesSkills(e, w, row, caseId, query, available);
    case _ =>
      if StepSkill(e, w, c) != w {
        var id := FindRow(e, w.skills, c.skill).value;
        StateTouchesSkills(w, id, StepSkill(e, w, c).skills[id].state);
      }
  }

  lemma SkillCallKeeps(e: Env, w: World, c: SkillCall)
    requires MemoriesOk(w) && ForeignKeys(w)
    ensures var w' := StepSkill(e, w, c);
            && w'.memories == w.memories && w'.cases == w.cases && w'.now == w.now && ForeignKeys(w') && Keeps(w, w')
  {
    SkillCallsTouchSkills(e, w, c);
    var w' := StepSkill(e, w, c);
  }

  lemma StepKeeps(e: Env, w: World, c: Call)
    requires MemoriesOk(w) && ForeignKeys(w)
    ensures Keeps(w, Step(e, w, c))
  {
    match c
    case OnMemory(call) => MemoryCallKeeps(e, w, call);
    case OnSkill(call) => SkillCallKeeps(e, w, call);
    case CallSweep(cutoff) => SweepKeeps(e, w, cutoff);
    case _ =>
  }

  /** In every run a VALIDATED memory has evidence and no counter-evidence, and all references between rows hold. */
  lemma {:induction false} RunsKeepMemories(e: Env, w: World, calls: seq<Call>)
    requires MemoriesOk(w) && ForeignKeys(w)
    ensures MemoriesOk(Run(e, w, calls)) && ForeignKeys(Run(e, w, calls)) && w.nextId <= Run(e, w, calls).nextId
    decreases calls
  {
    if calls != [] {
      StepKeeps(e, w, calls[0]);
      RunsKeepMemories(e, Step(e, w, calls[0]), calls[1..]);
    }
  }

  // ---- Trust ------------------------------------------------------------------------------

  /** Gone, or present with counter-evidence and not trusted. */
  ghost predicate Untrusted(w: World, id: nat) {
    id < w.nextId && (id in w.memories ==> w.memories[id].counter != [] && !w.memories[id].state.Validated?)
  }

  /** A memory that has counter-evidence is not VALIDATED in any later state. */
  lemma {:induction false} ContradictedNeverTrusted(e: Env, w: World, calls: seq<Call>, id: nat)
    requires MemoriesOk(w) && ForeignKeys(w) && Untrusted(w, id)
    ensures Untrusted(Run(e, w, calls), id)
    decreases calls
  {
    if calls != [] {
      StepKeeps(e, w, calls[0]);
      ContradictedNeverTrusted(e, Step(e, w, calls[0]), calls[1..], id);
    }
  }

  // ---- Retention -----------------------------------------------------------------------------

  /** The case a reference denotes exists. */
  ghost predicate RefFound(e: Env, w: World, r: Ref) {
    e.rowOf(r.caseText).Some? && e.rowOf(r.caseText).value in w.cases
  }

  ghost predicate AllFound(e: Env, w: World, refs: seq<Ref>) {
    forall r | r in refs :: RefFound(e, w, r)
  }

  /** The reference is written the way the database prints the id. */
  ghost predicate Canonical(e: Env, r: Ref) {
    e.rowOf(r.caseText).Some? ==> r.caseText == e.idText(e.rowOf(r.caseText).value)
  }

  ghost predicate AllCanonical(e: Env, refs: seq<Ref>) {
    forall r | r in refs :: Canonical(e, r)
  }

  ghost predicate CanonicalMemories(e: Env, w: World) {
    forall id | id in w.memories :: AllCanonical(e, w.memories[id].evidence) && AllCanonical(e, w.memories[id].counter)
  }

  /** The cited cases of every live memory exist. */
  ghost predicate LiveCasesExist(e: Env, w: World) {
    forall id | id in w.memories && Live(w, w.memories[id]) ::
      AllFound(e, w, w.memories[id].evidence) && AllFound(e, w, w.memories[id].counter)
  }

  ghost predicate CanonicalCall(e: Env, c: Call) {
    c.OnMemory? ==>
      && (c.memoryCall.CallCreate? ==> AllCanonical(e, c.memoryCall.input.evidence) && AllCanonical(e, c.memoryCall.input.counter))
      && (c.memoryCall.CallCounter? ==> AllCanonical(e, c.memoryCall.refs))
  }

  lemma CheckedRefs(e: Env, w: World, scope: Scope, refs: seq<Ref>, needed: bool)
    requires CheckRefs(e, w, scope, refs, needed).Some?
    ensures var checked := CheckRefs(e, w, scope, refs, needed).value;
            AllFound(e, w, checked) && (AllCanonical(e, refs) ==> AllCanonical(e, checked))
  {
    UniqueRefsAreRefs(refs);
    var checked := CheckRefs(e, w, scope, refs, needed).value;
    forall r | r in checked ensures RefFound(e, w, r) {
      var i :| 0 <= i < |checked| && checked[i] == r;
      assert RefHolds(e, w, scope, checked[i]);
    }
  }

  lemma CreateKeepsCases(e: Env, w: World, input: MemoryInput)
    requires CanonicalMemories(e, w) && LiveCasesExist(e, w) && AllCanonical(e, input.evidence) && AllCanonical(e, input.counter)
    ensures var w' := CreateMemory(e, w, input).0; CanonicalMemories(e, w') && LiveCasesExist(e, w')
  {
    var w' := CreateMemory(e, w, input).0;
    if w' != w {
      var source := FindRow(e, w.cases, input.sourceText).value;
      var scope := Scope(w.cases[source].site, w.cases[source].device);
      CheckedRefs(e, w, scope, input.evidence, true);
      CheckedRefs(e, w, scope, input.counter, false);
    }
  }

  lemma CounterKeepsCases(e: Env, w: World, text: string, refs: seq<Ref>)
    requires CanonicalMemories(e, w) && LiveCasesExist(e, w) && AllCanonical(e, refs)
    ensures var w' := AddCounterEvidence(e, w, text, refs).0; CanonicalMemories(e, w') && LiveCasesExist(e, w')
  {
    var w' := AddCounterEvidence(e, w, text, refs).0;
    if AddCounterEvidence(e, w, text, refs).1.Ok? {
      var id := FindRow(e, w.memories, text).value;
      var m := w.memories[id];
      CheckedRefs(e, w, m.scope, refs, true);
      MoreCounterEvidence(m.counter, refs);
      assert AllCanonical(e, w'.memories[id].counter);
      assert Live(w', w'.memories[id]) ==> Live(w, m) && AllFound(e, w', w'.memories[id].counter);
    }
  }

  lemma StateChangeKeepsCases(e: Env, w: World, id: nat, m: Memory)
    requires CanonicalMemories(e, w) && LiveCasesExist(e, w) && id in w.memories
    requires m.evidence == w.memories[id].evidence && m.counter == w.memories[id].counter && (Live(w, m) ==> Live(w, w.memories[id]))
    ensures var w' := w.(memories := w.memories[id := m]); CanonicalMemories(e, w') && LiveCasesExist(e, w')
  {
  }

  lemma MemoryCallKeepsCases(e: Env, w: World, c: MemoryCall)
    requires CanonicalMemories(e, w) && LiveCasesExist(e, w) && CanonicalCall(e, OnMemory(c))
    ensures CanonicalMemories(e, StepMemory(e, w, c)) && LiveCasesExist(e, StepMemory(e, w, c))
  {
    match c
    case CallCreate(input) => CreateKeepsCases(e, w, input);
    case CallCounter(text, refs) => CounterKeepsCases(e, w, text, refs);
    case CallExpire =>
    case CallValidate(text) =>
      if StepMemory(e, w, c) != w {
        var id := FindRow(e, w.memories, text).value;
        StateChangeKeepsCases(e, w, id, StepMemory(e, w, c).memories[id]);
      }
    case CallReject(text) =>
      if StepMemory(e, w, c) != w {
        var id := FindRow(e, w.memories, text).value;
        StateChangeKeepsCases(e, w, id, StepMemory(e, w, c).memories[id]);
      }
    case CallSupersede(oldText, _) =>
      if StepMemory(e, w, c) != w {
        var id := FindRow(e, w.memories, oldText).value;
        StateChangeKeepsCases(e, w, id, StepMemory(e, w, c).memories[id]);
      }
  }

  /** A sweep deletes no live memory, and no case that a live memory cites canonically. */
  lemma SweepSparesLiveMemories(e: Env, w: World, cutoff: int, id: nat)
    requires id in w.memories && Live(w, w.memories[id])
    ensures var w' := Sweep(e, w, cutoff).0;
            && id in w'.memories && w'.memories[id] == w.memories[id]
            && forall r | (r in w.memories[id].evidence || r in w.memories[id].counter) && RefFound(e, w, r) && Canonical(e, r) :: RefFound(e, w', r)
  {
    var m := w.memories[id];
    forall r | (r in m.evidence || r in m.counter) && RefFound(e, w, r) && Canonical(e, r)
      ensures Cites(e, m, e.rowOf(r.caseText).value)
    {
    }
    assert Cites(e, m, m.source);
  }

  lemma StepKeepsCases(e: Env, w: World, c: Call)
    requires CanonicalMemories(e, w) && LiveCasesExist(e, w) && CanonicalCall(e, c)
    requires MemoriesOk(w) && ForeignKeys(w)
    ensures CanonicalMemories(e, Step(e, w, c)) && LiveCasesExist(e, Step(e, w, c))
  {
    match c
    case OnMemory(call) => MemoryCallKeepsCases(e, w, call);
    case OnSkill(call) => SkillCallKeeps(e, w, call);
    case CallSweep(cutoff) =>
    case _ =>
  }

  /**
   * Retention: in every run whose references are written canonically, the cases
   * that a live memory cites exist, after any number of sweeps.
   */
  lemma {:induction false} CitedCasesSurvive(e: Env, w: World, calls: seq<Call>)
    requires CanonicalMemories(e, w) && LiveCasesExist(e, w) && MemoriesOk(w) && ForeignKeys(w)
    requires forall c | c in calls :: CanonicalCall(e, c)
    ensures CanonicalMemories(e, Run(e, w, calls)) && LiveCasesExist(e, Run(e, w, calls))
    decreases calls
  {
    if calls != [] {
      assert calls[0] in calls;
      StepKeeps(e, w, calls[0]);
      StepKeepsCases(e, w, calls[0]);
      CitedCasesSurvive(e, Step(e, w, calls[0]), calls[1..]);
    }
  }
}
