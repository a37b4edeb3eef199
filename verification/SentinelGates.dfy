/**
 * The gates of a skill's life: what each call asks for, in plain terms, that no
 * name is active twice, and what a replay or a shadow run may record.
 */
module SentinelGates {
  import opened Common
  import opened Sentinel
  import opened SentinelSkills
  import opened SentinelTools
  import SentinelReplay

  // ---- Specs ------------------------------------------------------------------

  const SEVERITIES: seq<string> := ["info", "low", "medium", "high", "critical"]

  ghost predicate ShortTexts(values: seq<string>, many: nat, long: nat) {
    |values| <= many && forall v | v in values :: |Lower(TrimSpace(v))| <= long
  }

  /** A spec may be validated: a proper name, few and short texts, known severities, and one to four tools, all known and read-only. */
  ghost predicate SoundSpec(e: Env, spec: SkillSpec) {
    && spec.schemaVersion == 1 && NamePattern(TrimSpace(spec.name)) && |spec.description| <= 1000
    && 1 <= |spec.tools| <= 4 && (forall t | t in NamedIn(spec.tools) :: e.readOnly(t) == Some(true))
    && ShortTexts(spec.sources, 8, 64) && ShortTexts(spec.keywords, 12, 64) && ShortTexts(spec.severities, 5, 16)
    && forall v | v in spec.severities :: TrimSpace(v) == "" || Lower(TrimSpace(v)) in SEVERITIES
  }

  lemma TextsFit(values: seq<string>, many: nat, long: nat)
    ensures SetFits(values, many, long) <==> ShortTexts(values, many, long)
  {
    if SetFits(values, many, long) {
      forall v | v in values ensures |Lower(TrimSpace(v))| <= long {
        var i :| 0 <= i < |values| && values[i] == v;
        assert |Normal(values[i])| <= long;
      }
    }
    if ShortTexts(values, many, long) {
      forall i | 0 <= i < |values| ensures |Normal(values[i])| <= long {
        assert values[i] in values;
      }
    }
  }

  lemma KnownSeverity(v: string)
    ensures Normal(v) in ["", "info", "low", "medium", "high", "critical"] <==> TrimSpace(v) == "" || Lower(TrimSpace(v)) in SEVERITIES
  {
    var all := ["", "info", "low", "medium", "high", "critical"];
    assert all == [""] + SEVERITIES;
    assert Normal(v) == "" <==> TrimSpace(v) == "" by {
      assert |Normal(v)| == |TrimSpace(v)|;
    }
  }

  lemma SeveritiesAreKnown(values: seq<string>)
    ensures SeveritiesFit(values) <==>
            ShortTexts(values, 5, 16) && forall v | v in values :: TrimSpace(v) == "" || Lower(TrimSpace(v)) in SEVERITIES
  {
    TextsFit(values, 5, 16);
    forall v ensures Normal(v) in ["", "info", "low", "medium", "high", "critical"] <==> TrimSpace(v) == "" || Lower(TrimSpace(v)) in SEVERITIES {
      KnownSeverity(v);
    }
    if forall v | v in values :: TrimSpace(v) == "" || Lower(TrimSpace(v)) in SEVERITIES {
      forall i | 0 <= i < |values| ensures Normal(values[i]) in ["", "info", "low", "medium", "high", "critical"] {
        assert values[i] in values;
      }
    }
  }

  lemma ToolsAreSafe(e: Env, spec: SkillSpec)
    ensures !UnsafeTools(e, spec) <==> forall t | t in NamedIn(spec.tools) :: e.readOnly(t) == Some(true)
  {
    if i :| 0 <= i < |spec.tools| && TrimSpace(spec.tools[i]) != "" && !IsReadOnly(e, TrimSpace(spec.tools[i])) {
      assert TrimSpace(spec.tools[i]) in NamedIn(spec.tools);
    }
  }

  lemma ValidSpecsAreSound(e: Env, spec: SkillSpec)
    ensures ValidateSpec(e, spec).valid <==> SoundSpec(e, spec)
    ensures ValidateSpec(e, spec).unsafe <==> exists t :: t in NamedIn(spec.tools) && e.readOnly(t) != Some(true)
  {
    TextsFit(spec.sources, 8, 64);
    TextsFit(spec.keywords, 12, 64);
    SeveritiesAreKnown(spec.severities);
    ToolsAreSafe(e, spec);
  }

  // ---- The gates ------------------------------------------------------------------

  /** At least three cases matched in replay, their latest scores average at least 0.8, and no latest result is unsafe. */
  ghost predicate EarnedInReplay(w: World, skill: nat) {
    && |MatchedCases(w.evaluations, skill, Replay)| >= 3
    && TallyOf(Latest(w.evaluations, skill), Replay).sum >= 0.8 * |MatchedCases(w.evaluations, skill, Replay)| as real
    && NoLatestUnsafe(w, skill)
  }

  lemma ShadowThresholdsMeanCases(w: World, skill: nat)
    ensures CanEnterShadow(PromotionStats(w, skill)) <==> EarnedInReplay(w, skill)
  {
    var rows := Latest(w.evaluations, skill);
    CountsAreDistinctCases(w.evaluations, skill, Replay);
    NoUnsafeRows(rows);
    if NoLatestUnsafe(w, skill) {
      SafeLatestMeansSafeRows(w, skill);
    } else if UnsafeCount(rows) == 0 {
      SafeRowsMeanSafeLatest(w, skill);
    }
    RateMeansCases(TallyOf(rows, Replay), |MatchedCases(w.evaluations, skill, Replay)|, 3);
  }

  /** The call either moves this skill to the state and nothing else, or is refused and changes nothing. */
  ghost predicate Gate(w: World, step: (World, Outcome<(), Failure>), id: nat, opens: bool, state: SkillState)
    requires id in w.skills
  {
    && (step.1.Ok? <==> opens)
    && step.0 == if opens then w.(skills := w.skills[id := w.skills[id].(state := state)]) else w
  }

  /** Every call on a skill opens exactly on what it asks for. */
  lemma GatesOpenExactly(e: Env, w: World, text: string, id: nat)
    requires e.rowOf(text) == Some(id) && id in w.skills
    ensures var s := w.skills[id];
            && Gate(w, ValidateSkill(e, w, text), id, s.state == SkillDraft && SoundSpec(e, s.spec), SkillValidated)
            && Gate(w, StartShadow(e, w, text), id, s.state == SkillValidated && EarnedInReplay(w, id), Shadow)
            && Gate(w, Promote(e, w, text), id, s.state == Shadow && SoundSpec(e, s.spec) && EarnedOnCases(w, id), Trusted)
            && Gate(w, Deprecate(e, w, text), id, s.state == Trusted, Deprecated)
            && Gate(w, Revoke(e, w, text), id, true, Revoked)
  {
    ValidSpecsAreSound(e, w.skills[id].spec);
    ShadowThresholdsMeanCases(w, id);
    ThresholdsMeanCases(w, id);
  }

  // ---- Recording ----------------------------------------------------------------------

  /** The case lies where the skill was learned. */
  predicate InScope(s: Skill, c: CaseRow) {
    (s.scope.site == "" || s.scope.site == c.site) && (s.scope.device == "" || s.scope.device == c.device)
  }

  /** A replay is accepted exactly for a VALIDATED or SHADOW skill and a case in its scope; it changes evaluations only. */
  lemma ReplayAcceptedExactly(e: Env, w: World, text: string, caseText: string, asOf: Option<int>)
    ensures var (w', answer) := ReplaySkill(e, w, text, caseText, asOf);
            var id, caseId := e.rowOf(text), e.rowOf(caseText);
            && (answer.Ok? <==>
                && id.Some? && id.value in w.skills && w.skills[id.value].state in {SkillValidated, Shadow}
                && caseId.Some? && caseId.value in w.cases && InScope(w.skills[id.value], w.cases[caseId.value]))
            && (answer.Err? ==> w' == w)
            && w' == w.(evaluations := w'.evaluations)
  {
  }

  /** What a shadow run records: of the usable tools, the share whose evidence the investigation already had. */
  ghost predicate ShadowShare(e: Env, s: Skill, c: CaseRow, query: string, available: set<string>, ev: Evaluation) {
    var usable := UsableTools(e, s.spec);
    && ev.matched == (SoundSpec(e, s.spec) && e.matches(s.spec, c.text, query))
    && ev.total == |usable| && ev.satisfied == (if ev.matched then |usable * available| else 0)
    && (ev.unsafe || usable == {} ==> ev.score == 0.0)
    && (!ev.unsafe && usable != {} ==> ev.score * |usable| as real == ev.satisfied as real)
  }

  /** A shadow run records one evaluation of a SHADOW skill in its scope, at the present time, and nothing else for anyone. */
  lemma ShadowRunRecords(e: Env, w: World, id: nat, caseId: nat, query: string, available: set<string>)
    ensures var w' := EvaluateShadow(e, w, id, caseId, query, available);
            if id in w.skills && w.skills[id].state == Shadow && caseId in w.cases && InScope(w.skills[id], w.cases[caseId])
            then && w' == w.(evaluations := w'.evaluations)
                 && |w'.evaluations| == |w.evaluations| + 1 && w'.evaluations[..|w.evaluations|] == w.evaluations
                 && var ev := w'.evaluations[|w.evaluations|];
                 && ev.skill == id && ev.caseId == caseId && ev.mode == ShadowRun && ev.asOf == w.now
                 && ShadowShare(e, w.skills[id], w.cases[caseId], query, available, ev)
            else w' == w
  {
    if id in w.skills && w.skills[id].state == Shadow && caseId in w.cases && InScope(w.skills[id], w.cases[caseId]) {
      ShadowShareHolds(e, id, w.skills[id], caseId, w.cases[caseId], w.now, query, available);
    }
  }

  lemma ShadowCounts(e: Env, id: nat, s: Skill, caseId: nat, c: CaseRow, at: int, query: string, available: set<string>)
    ensures var ev, usable := Evaluate(e, id, s, caseId, c, ShadowRun, at, query, available), UsableTools(e, s.spec);
            && ev.matched == (SoundSpec(e, s.spec) && e.matches(s.spec, c.text, query))
            && ev.total == |usable| && ev.satisfied == if ev.matched then |usable * available| else 0
  {
    ValidatedToolsAre(e, s.spec);
    CountIsShare(ValidateSpec(e, s.spec).tools, available);
    ValidSpecsAreSound(e, s.spec);
  }

  lemma CountsMakeTheShare(e: Env, s: Skill, c: CaseRow, query: string, available: set<string>, ev: Evaluation)
    requires ev.matched == (SoundSpec(e, s.spec) && e.matches(s.spec, c.text, query))
    requires ev.total == |UsableTools(e, s.spec)| && ev.satisfied == if ev.matched then |UsableTools(e, s.spec) * available| else 0
    requires ev.score == Score(ev.total, ev.satisfied, ev.unsafe)
    ensures ShadowShare(e, s, c, query, available, ev)
  {
    SentinelReplay.ScoreOfShare(UsableTools(e, s.spec), available, ev);
  }

  lemma ShadowShareHolds(e: Env, id: nat, s: Skill, caseId: nat, c: CaseRow, at: int, query: string, available: set<string>)
    ensures ShadowShare(e, s, c, query, available, Evaluate(e, id, s, caseId, c, ShadowRun, at, query, available))
  {
    ShadowCounts(e, id, s, caseId, c, at, query, available);
    CountsMakeTheShare(e, s, c, query, available, Evaluate(e, id, s, caseId, c, ShadowRun, at, query, available));
  }

  // ---- No name is active twice ------------------------------------------------------------

  predicate InUse(s: SkillState) { s in {SkillDraft, SkillValidated, Shadow, Trusted} }

  ghost predicate Holds(w: World, id: nat, source: nat, name: string) {
    id in w.skills && w.skills[id].source == source && w.skills[id].spec.name == name && InUse(w.skills[id].state)
  }

  lemma {:induction false} FindSkillFinds(w: World, source: nat, name: string, n: nat)
    ensures var found := FindSkill(w, source, name, n);
            && (found.Some? ==> found.value < n && Holds(w, found.value, source, name))
            && (found.None? ==> forall id: nat | id < n :: !Holds(w, id, source, name))
    decreases n
  {
    if n > 0 {
      FindSkillFinds(w, source, name, n - 1);
    }
  }

  /**
   * Proposing a skill again while its name is in use for the case gives the
   * one there is; otherwise it starts a draft under the trimmed name, scoped to
   * the case.
   */
  lemma CreatedSkillIs(e: Env, w: World, sourceText: string, scope: Scope, spec: SkillSpec)
    requires CreateSkill(e, w, sourceText, scope, spec).1.Ok? && NumberedSkills(w)
    ensures var (w', r) := CreateSkill(e, w, sourceText, scope, spec);
            var source, name := e.rowOf(sourceText), TrimSpace(spec.name);
            && source.Some? && source.value in w.cases
            && var c := w.cases[source.value];
            && (scope.site == "" || scope.site == c.site) && (scope.device == "" || scope.device == c.device)
            && if exists id :: Holds(w, id, source.value, name)
               then w' == w && Holds(w, r.value, source.value, name)
               else && r.value == w.nextId
                    && w' == w.(nextId := w.nextId + 1,
                                skills := w.skills[w.nextId := Skill(source.value, Scope(c.site, c.device), SkillDraft, spec.(name := name))])
  {
    FindSkillFinds(w, e.rowOf(sourceText).value, TrimSpace(spec.name), w.nextId);
  }

  ghost predicate NamesUnique(w: World) {
    forall i, j | i in w.skills && j in w.skills && InUse(w.skills[i].state) && InUse(w.skills[j].state)
      && w.skills[i].source == w.skills[j].source && w.skills[i].spec.name == w.skills[j].spec.name :: i == j
  }

  ghost predicate UseComesFrom(w: World, w': World, i: nat)
    requires i in w'.skills
  {
    var s := w'.skills[i];
    || Holds(w, i, s.source, s.spec.name)
    || (i == w.nextId && forall id :: !Holds(w, id, s.source, s.spec.name))
  }

  lemma SkillCallsAdd(e: Env, w: World, c: SkillCall, id: nat)
    requires id !in w.skills && id in StepSkill(e, w, c).skills
    ensures c.CallDraft? && CreateSkill(e, w, c.source, c.scope, c.spec).1.Ok?
  {
  }

  lemma OnlyDraftingAdds(e: Env, w: World, c: Call, id: nat)
    requires id !in w.skills && id in Step(e, w, c).skills
    ensures c.OnSkill? && c.skillCall.CallDraft?
    ensures CreateSkill(e, w, c.skillCall.source, c.skillCall.scope, c.skillCall.spec).1.Ok?
  {
    match c
    case OnMemory(call) => MemoryCallsKeepSkills(e, w, call);
    case OnSkill(call) => SkillCallsAdd(e, w, call, id);
    case _ =>
  }

  lemma UseStepsBack(e: Env, w: World, c: Call, i: nat)
    requires NumberedSkills(w)
    requires var w' := Step(e, w, c); i in w'.skills && InUse(w'.skills[i].state)
    ensures UseComesFrom(w, Step(e, w, c), i)
  {
    StepMovesSkills(e, w, c, i);
    if i !in w.skills {
      OnlyDraftingAdds(e, w, c, i);
      CreatedSkillIs(e, w, c.skillCall.source, c.skillCall.scope, c.skillCall.spec);
    }
  }

  lemma StepKeepsNames(e: Env, w: World, c: Call)
    requires NumberedSkills(w) && NamesUnique(w)
    ensures NamesUnique(Step(e, w, c))
  {
    var w' := Step(e, w, c);
    forall i, j | i in w'.skills && j in w'.skills && InUse(w'.skills[i].state) && InUse(w'.skills[j].state)
      && w'.skills[i].source == w'.skills[j].source && w'.skills[i].spec.name == w'.skills[j].spec.name
      ensures i == j
    {
      var source, name := w'.skills[i].source, w'.skills[i].spec.name;
      UseStepsBack(e, w, c, i);
      UseStepsBack(e, w, c, j);
      assert Holds(w, i, source, name) || i == w.nextId;
      assert Holds(w, j, source, name) || j == w.nextId;
    }
  }

  /** In every run no case has two active skills of one name. */
  lemma {:induction false} NamesStayUnique(e: Env, w: World, calls: seq<Call>)
    requires NumberedSkills(w) && NamesUnique(w)
    ensures NamesUnique(Run(e, w, calls))
    decreases calls
  {
    if calls != [] {
      StepKeepsNames(e, w, calls[0]);
      StepMovesSkills(e, w, calls[0], 0);
      NamesStayUnique(e, Step(e, w, calls[0]), calls[1..]);
    }
  }
}
