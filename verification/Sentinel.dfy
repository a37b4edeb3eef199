/**
 * Sentinel's learned artifacts: cases, memories, skills and skill evaluations,
 * and every lifecycle call as one atomic step. Rows are numbered; callers name
 * rows by UUID text, which may differ from the canonical text of the same row.
 */
module Sentinel {
  import opened Common

  datatype Scope = Scope(site: string, device: string)

  /** One piece of evidence, named by the text of its case's id. */
  datatype Ref = Ref(caseText: string, evidence: string)

  /** One record of a case's evidence ledger; an unreadable time is None. */
  datatype Record = Record(id: string, tool: string, capturedAt: Option<int>)

  datatype CaseRow = CaseRow(site: string, device: string, records: seq<Record>, updatedAt: int, resolvedAt: Option<int>, text: string)

  datatype MemoryState = Candidate | Validated | MemoryRejected | Superseded | Expired

  datatype Memory = Memory(
    source: nat, statement: string, scope: Scope, state: MemoryState,
    evidence: seq<Ref>, counter: seq<Ref>, expiresAt: int, supersededBy: Option<nat>)

  datatype SkillState = SkillDraft | SkillValidated | Shadow | Trusted | Deprecated | Revoked

  datatype SkillSpec = SkillSpec(
    schemaVersion: int, name: string, description: string,
    sources: seq<string>, severities: seq<string>, keywords: seq<string>, tools: seq<string>)

  datatype Skill = Skill(source: nat, scope: Scope, state: SkillState, spec: SkillSpec)

  datatype EvaluationMode = Replay | ShadowRun

  datatype Evaluation = Evaluation(
    skill: nat, caseId: nat, mode: EvaluationMode, asOf: int,
    matched: bool, total: nat, satisfied: nat, unsafe: bool, score: real)

  datatype World = World(
    now: int, nextId: nat, cases: map<nat, CaseRow>, memories: map<nat, Memory>, skills: map<nat, Skill>, evaluations: seq<Evaluation>)

  /**
   * What the model leaves open: UUID texts and the rows they denote, the tool
   * registry (whether a known tool is read-only), and how a skill matches the
   * source, severity and title of a case and a query.
   */
  datatype Env = Env(
    rowOf: string -> Option<nat>, idText: nat -> string,
    readOnly: string -> Option<bool>, matches: (SkillSpec, string, string) -> bool)

  /** The canonical text of a row denotes that row. */
  ghost predicate EnvOk(e: Env) { forall n: nat :: e.rowOf(e.idText(n)) == Some(n) }

  datatype Failure =
    | NotFound | WrongState | IsExpired | HasCounterEvidence | BadEvidence | BadStatement | BadConfidence
    | BadScope | BadTtl | SameMemory | OtherScope | NotSuperseded | BadSpec | BelowThreshold | OutOfScope | Referenced

  // ---- Evidence references -------------------------------------------------------

  function Key(r: Ref): string { r.caseText + ":" + r.evidence }

  predicate RefLess(a: Ref, b: Ref) {
    if a.caseText == b.caseText then LexLess(a.evidence, b.evidence) else LexLess(a.caseText, b.caseText)
  }

  function InsertRef(r: Ref, sorted: seq<Ref>): seq<Ref> {
    if sorted == [] || !RefLess(sorted[0], r) then [r] + sorted else [sorted[0]] + InsertRef(r, sorted[1..])
  }

  function SortRefs(refs: seq<Ref>): seq<Ref> {
    if refs == [] then [] else InsertRef(refs[0], SortRefs(refs[1..]))
  }

  /** The first reference of each key; incomplete references are dropped. */
  function FirstRefs(refs: seq<Ref>): seq<Ref> {
    if refs == [] then [] else
      var front, last := FirstRefs(refs[..|refs| - 1]), refs[|refs| - 1];
      if last.caseText == "" || last.evidence == "" || (exists i | 0 <= i < |front| :: Key(front[i]) == Key(last)) then front else front + [last]
  }

  function UniqueRefs(refs: seq<Ref>): seq<Ref> { SortRefs(FirstRefs(refs)) }

  predicate HasEvidence(c: CaseRow, id: string) {
    id != "" && exists i | 0 <= i < |c.records| :: c.records[i].id == id
  }

  predicate RefHolds(e: Env, w: World, scope: Scope, r: Ref) {
    && e.rowOf(r.caseText).Some? && e.rowOf(r.caseText).value in w.cases
    && var c := w.cases[e.rowOf(r.caseText).value];
       && (scope.site != "" ==> c.site == scope.site)
       && (scope.device != "" && c.device != "" ==> c.device == scope.device)
       && HasEvidence(c, r.evidence)
  }

  predicate RefsHold(e: Env, w: World, scope: Scope, refs: seq<Ref>) {
    forall i | 0 <= i < |refs| :: RefHolds(e, w, scope, refs[i])
  }

  /** `validateSentinelLearningEvidenceRefs`. */
  function CheckRefs(e: Env, w: World, scope: Scope, refs: seq<Ref>, needed: bool): Option<seq<Ref>> {
    var unique := UniqueRefs(refs);
    if (needed && unique == []) || !RefsHold(e, w, scope, unique) then None else Some(unique)
  }

  // ---- Memories --------------------------------------------------------------------

  datatype MemoryInput = MemoryInput(
    sourceText: string, statement: string, scope: Scope, confidence: real, ttlHours: int, evidence: seq<Ref>, counter: seq<Ref>)

  /** Microseconds. */
  const HOUR: int := 3_600_000_000

  function LearningTtl(hours: int): Option<int> {
    if hours <= 0 then Some(720 * HOUR) else if hours > 8760 then None else Some(hours * HOUR)
  }

  predicate Live(w: World, m: Memory) {
    (m.state.Candidate? || m.state.Validated?) && m.expiresAt > w.now
  }

  function FindRow<T>(e: Env, rows: map<nat, T>, text: string): Option<nat> {
    var row := e.rowOf(text);
    if row.Some? && row.value in rows then row else None
  }

  predicate ScopeFits(c: CaseRow, scope: Scope) {
    (scope.site == "" || scope.site == c.site) && (scope.device == "" || scope.device == c.device)
  }

  predicate SameClaim(w: World, m: Memory, source: nat, statement: string) {
    m.source == source && m.statement == statement && Live(w, m)
  }

  /** The youngest live memory with this source and statement. */
  function FindClaim(w: World, source: nat, statement: string, n: nat): Option<nat> {
    if n == 0 then None
    else if n - 1 in w.memories && SameClaim(w, w.memories[n - 1], source, statement) then Some(n - 1)
    else FindClaim(w, source, statement, n - 1)
  }

  function CreateMemory(e: Env, w: World, input: MemoryInput): (World, Outcome<nat, Failure>) {
    if input.statement == "" || |input.statement| > 4000 then (w, Err(BadStatement))
    else if input.confidence < 0.0 || input.confidence > 1.0 then (w, Err(BadConfidence))
    else
      var source := FindRow(e, w.cases, input.sourceText);
      if source.None? then (w, Err(NotFound))
      else if !ScopeFits(w.cases[source.value], input.scope) then (w, Err(BadScope))
      else
        var scope := Scope(w.cases[source.value].site, w.cases[source.value].device);
        var evidence := CheckRefs(e, w, scope, input.evidence, true);
        var counter := CheckRefs(e, w, scope, input.counter, false);
        var ttl := LearningTtl(input.ttlHours);
        if evidence.None? || counter.None? then (w, Err(BadEvidence))
        else if ttl.None? then (w, Err(BadTtl))
        else
          var existing := FindClaim(w, source.value, input.statement, w.nextId);
          if existing.Some? then (w, Ok(existing.value))
          else
            var m := Memory(source.value, input.statement, scope, Candidate, evidence.value, counter.value, w.now + ttl.value, None);
            (w.(nextId := w.nextId + 1, memories := w.memories[w.nextId := m]), Ok(w.nextId))
  }

  function SetState(w: World, id: nat, state: MemoryState): World
    requires id in w.memories
  {
    w.(memories := w.memories[id := w.memories[id].(state := state)])
  }

  function ValidateMemory(e: Env, w: World, text: string): (World, Outcome<(), Failure>) {
    var id := FindRow(e, w.memories, text);
    if id.None? then (w, Err(NotFound))
    else
      var m := w.memories[id.value];
      if !m.state.Candidate? then (w, Err(WrongState))
      else if m.expiresAt <= w.now then (SetState(w, id.value, Expired), Err(IsExpired))
      else if m.counter != [] then (w, Err(HasCounterEvidence))
      else if CheckRefs(e, w, m.scope, m.evidence, true).None? then (w, Err(BadEvidence))
      else (SetState(w, id.value, Validated), Ok(()))
  }

  function RejectMemory(e: Env, w: World, text: string): (World, Outcome<(), Failure>) {
    var id := FindRow(e, w.memories, text);
    if id.None? || !w.memories[id.value].state.Candidate? then (w, Err(WrongState))
    else (SetState(w, id.value, MemoryRejected), Ok(()))
  }

  function AddCounterEvidence(e: Env, w: World, text: string, refs: seq<Ref>): (World, Outcome<(), Failure>) {
    var id := FindRow(e, w.memories, text);
    if id.None? then (w, Err(NotFound))
    else
      var m := w.memories[id.value];
      if !m.state.Candidate? && !m.state.Validated? then (w, Err(WrongState))
      else
        var checked := CheckRefs(e, w, m.scope, refs, true);
        if checked.None? then (w, Err(BadEvidence))
        else (w.(memories := w.memories[id.value := m.(counter := UniqueRefs(m.counter + checked.value), state := Candidate)]), Ok(()))
  }

  /** The two ids are compared as texts, not as rows. */
  function Supersede(e: Env, w: World, oldText: string, newText: string): (World, Outcome<(), Failure>) {
    var oldId, newId := FindRow(e, w.memories, oldText), FindRow(e, w.memories, newText);
    if oldId.None? || newId.None? then (w, Err(NotFound))
    else
      var a, b := w.memories[oldId.value], w.memories[newId.value];
      if !a.state.Validated? || !b.state.Validated? then (w, Err(WrongState))
      else if oldText == newText then (w, Err(SameMemory))
      else if a.scope != b.scope then (w, Err(OtherScope))
      else if a.supersededBy.Some? then (w, Err(NotSuperseded))
      else (w.(memories := w.memories[oldId.value := a.(state := Superseded, supersededBy := newId)]), Ok(()))
  }

  function ExpireOne(w: World, m: Memory): Memory {
    if (m.state.Candidate? || m.state.Validated?) && m.expiresAt <= w.now then m.(state := Expired) else m
  }

  function ExpireMemories(w: World): World {
    w.(memories := map id | id in w.memories :: ExpireOne(w, w.memories[id]))
  }

  // ---- Retention --------------------------------------------------------------------

  /** References are compared with the canonical text of the case. */
  predicate Cites(e: Env, m: Memory, c: nat) {
    || m.source == c
    || (exists i | 0 <= i < |m.evidence| :: m.evidence[i].caseText == e.idText(c))
    || (exists i | 0 <= i < |m.counter| :: m.counter[i].caseText == e.idText(c))
  }

  predicate Active(s: Skill) { s.state.SkillDraft? || s.state.SkillValidated? || s.state.Shadow? || s.state.Trusted? }

  predicate Sweepable(e: Env, w: World, c: nat, cutoff: int) {
    && c in w.cases && w.cases[c].resolvedAt.Some? && w.cases[c].resolvedAt.value < cutoff
    && (forall id | id in w.memories && Live(w, w.memories[id]) :: !Cites(e, w.memories[id], c))
    && (forall id | id in w.skills && Active(w.skills[id]) :: w.skills[id].source != c)
  }

  predicate Swept(e: Env, w: World, id: nat, cutoff: int)
    requires id in w.memories
  {
    Sweepable(e, w, w.memories[id].source, cutoff)
  }

  /** A memory that stays points to one that would go: the foreign key refuses the whole statement. */
  predicate SweepRefused(e: Env, w: World, cutoff: int) {
    exists id | id in w.memories ::
      && !Swept(e, w, id, cutoff) && w.memories[id].supersededBy.Some?
      && w.memories[id].supersededBy.value in w.memories && Swept(e, w, w.memories[id].supersededBy.value, cutoff)
  }

  function KeepEvaluations(evaluations: seq<Evaluation>, skills: map<nat, Skill>, cases: map<nat, CaseRow>): seq<Evaluation> {
    if evaluations == [] then [] else
      var n := |evaluations| - 1;
      KeepEvaluations(evaluations[..n], skills, cases)
      + if evaluations[n].skill in skills && evaluations[n].caseId in cases then [evaluations[n]] else []
  }

  /** The case deletion of `SweepSentinelHistory`, with its cascades. */
  function Sweep(e: Env, w: World, cutoff: int): (World, Outcome<(), Failure>) {
    if SweepRefused(e, w, cutoff) then (w, Err(Referenced))
    else
      var cases := map c | c in w.cases && !Sweepable(e, w, c, cutoff) :: w.cases[c];
      var memories := map id | id in w.memories && !Swept(e, w, id, cutoff) :: w.memories[id];
      var skills := map id | id in w.skills && !Sweepable(e, w, w.skills[id].source, cutoff) :: w.skills[id];
      (w.(cases := cases, memories := memories, skills := skills, evaluations := KeepEvaluations(w.evaluations, skills, cases)), Ok(()))
  }

  // ---- Skills --------------------------------------------------------------------------

  datatype Validation = Validation(valid: bool, unsafe: bool, tools: seq<string>)

  predicate NamePattern(s: string) {
    3 <= |s| <= 64 && 'a' <= s[0] <= 'z' && forall i | 0 < i < |s| :: 'a' <= s[i] <= 'z' || IsDigit(s[i]) || s[i] == '_' || s[i] == '-'
  }

  /** The tools named at all, each once, in order of appearance. */
  function NamedTools(tools: seq<string>): seq<string> {
    if tools == [] then [] else
      var front, last := NamedTools(tools[..|tools| - 1]), TrimSpace(tools[|tools| - 1]);
      if last == "" || last in front then front else front + [last]
  }

  predicate IsReadOnly(e: Env, tool: string) { e.readOnly(tool) == Some(true) }

  function OnlyReadOnly(e: Env, tools: seq<string>): seq<string> {
    if tools == [] then [] else
      OnlyReadOnly(e, tools[..|tools| - 1]) + if IsReadOnly(e, tools[|tools| - 1]) then [tools[|tools| - 1]] else []
  }

  function InsertText(s: string, sorted: seq<string>): seq<string> {
    if sorted == [] || !LexLess(sorted[0], s) then [s] + sorted else [sorted[0]] + InsertText(s, sorted[1..])
  }

  function SortTexts(texts: seq<string>): seq<string> {
    if texts == [] then [] else InsertText(texts[0], SortTexts(texts[1..]))
  }

  function Normal(value: string): string { Lower(TrimSpace(value)) }

  /** `normalizeSentinelStringSet` accepts. */
  predicate SetFits(values: seq<string>, maxItems: nat, maxLen: nat) {
    |values| <= maxItems && forall i | 0 <= i < |values| :: |Normal(values[i])| <= maxLen
  }

  predicate SeveritiesFit(values: seq<string>) {
    SetFits(values, 5, 16) && forall i | 0 <= i < |values| :: Normal(values[i]) in ["", "info", "low", "medium", "high", "critical"]
  }

  predicate UnsafeTools(e: Env, spec: SkillSpec) {
    exists i | 0 <= i < |spec.tools| :: TrimSpace(spec.tools[i]) != "" && !IsReadOnly(e, TrimSpace(spec.tools[i]))
  }

  function ValidateSpec(e: Env, spec: SkillSpec): Validation {
    var wellFormed :=
      && spec.schemaVersion == 1 && NamePattern(TrimSpace(spec.name)) && |spec.description| <= 1000 && 1 <= |spec.tools| <= 4
      && SetFits(spec.sources, 8, 64) && SetFits(spec.keywords, 12, 64) && SeveritiesFit(spec.severities);
    var unsafe := UnsafeTools(e, spec);
    Validation(wellFormed && !unsafe, unsafe, SortTexts(OnlyReadOnly(e, NamedTools(spec.tools))))
  }

  function Score(total: nat, satisfied: nat, unsafe: bool): real {
    if unsafe || total == 0 then 0.0 else (if satisfied > total then total else satisfied) as real / total as real
  }

  function CountIn(tools: seq<string>, available: set<string>): nat {
    if tools == [] then 0 else CountIn(tools[..|tools| - 1], available) + if tools[|tools| - 1] in available then 1 else 0
  }

  /** One evaluation of a skill against a case, with the tools that are available to it. */
  function Evaluate(e: Env, id: nat, skill: Skill, caseId: nat, c: CaseRow, mode: EvaluationMode, asOf: int, query: string, available: set<string>): Evaluation {
    var v := ValidateSpec(e, skill.spec);
    var matched := v.valid && e.matches(skill.spec, c.text, query);
    var satisfied := if matched then CountIn(v.tools, available) else 0;
    Evaluation(id, caseId, mode, asOf, matched, |v.tools|, satisfied, v.unsafe, Score(|v.tools|, satisfied, v.unsafe))
  }

  function ToolsAt(c: CaseRow, asOf: int): set<string> {
    set i | 0 <= i < |c.records| && c.records[i].capturedAt.Some? && c.records[i].capturedAt.value <= asOf :: c.records[i].tool
  }

  /** A replay of the same case at the same time is stored once. */
  predicate Repeats(evaluations: seq<Evaluation>, ev: Evaluation) {
    ev.mode.Replay? && exists i | 0 <= i < |evaluations| ::
      evaluations[i].mode.Replay? && evaluations[i].skill == ev.skill && evaluations[i].caseId == ev.caseId && evaluations[i].asOf == ev.asOf
  }

  function RecordEvaluation(w: World, ev: Evaluation): World {
    if Repeats(w.evaluations, ev) then w else w.(evaluations := w.evaluations + [ev])
  }

  // ---- Promotion statistics --------------------------------------------------------------

  predicate SameCell(a: Evaluation, b: Evaluation) { a.mode == b.mode && a.caseId == b.caseId }

  function WithoutCell(rows: seq<Evaluation>, ev: Evaluation): seq<Evaluation> {
    if rows == [] then [] else
      WithoutCell(rows[..|rows| - 1], ev) + if SameCell(rows[|rows| - 1], ev) then [] else [rows[|rows| - 1]]
  }

  /** DISTINCT ON (mode, case): the latest evaluation of the skill for each case and mode. */
  function Latest(evaluations: seq<Evaluation>, skill: nat): seq<Evaluation> {
    if evaluations == [] then [] else
      var front, last := Latest(evaluations[..|evaluations| - 1], skill), evaluations[|evaluations| - 1];
      if last.skill == skill then WithoutCell(front, last) + [last] else front
  }

  datatype Tally = Tally(count: nat, sum: real)

  function TallyOf(rows: seq<Evaluation>, mode: EvaluationMode): Tally {
    if rows == [] then Tally(0, 0.0) else
      var front, last := TallyOf(rows[..|rows| - 1], mode), rows[|rows| - 1];
      if last.mode == mode && last.matched then Tally(front.count + 1, front.sum + last.score) else front
  }

  /** COALESCE(AVG(score), 0). */
  function Mean(t: Tally): real { if t.count == 0 then 0.0 else t.sum / t.count as real }

  function UnsafeCount(rows: seq<Evaluation>): nat {
    if rows == [] then 0 else UnsafeCount(rows[..|rows| - 1]) + if rows[|rows| - 1].unsafe then 1 else 0
  }

  datatype Stats = Stats(replayCount: nat, replayRate: real, shadowCount: nat, shadowRate: real, unsafeCount: nat)

  function PromotionStats(w: World, skill: nat): Stats {
    var rows := Latest(w.evaluations, skill);
    var replay, shadow := TallyOf(rows, Replay), TallyOf(rows, ShadowRun);
    Stats(replay.count, Mean(replay), shadow.count, Mean(shadow), UnsafeCount(rows))
  }

  const MIN_REPLAY := 3
  const MIN_SHADOW := 5
  const MIN_RATE: real := 0.8

  predicate CanEnterShadow(s: Stats) { s.replayCount >= MIN_REPLAY && s.replayRate >= MIN_RATE && s.unsafeCount == 0 }

  predicate CanPromote(s: Stats) { CanEnterShadow(s) && s.shadowCount >= MIN_SHADOW && s.shadowRate >= MIN_RATE }

  // ---- The skill lifecycle -----------------------------------------------------------------

  function SetSkill(w: World, id: nat, state: SkillState): World
    requires id in w.skills
  {
    w.(skills := w.skills[id := w.skills[id].(state := state)])
  }

  function CreateSkill(e: Env, w: World, sourceText: string, scope: Scope, spec: SkillSpec): (World, Outcome<nat, Failure>) {
    var source := FindRow(e, w.cases, sourceText);
    if source.None? then (w, Err(NotFound))
    else if !ScopeFits(w.cases[source.value], scope) then (w, Err(BadScope))
    else if |spec.description| > 4000 || |spec.tools| > 16 then (w, Err(BadSpec))
    else
      var named := spec.(name := TrimSpace(spec.name));
      var existing := FindSkill(w, source.value, named.name, w.nextId);
      if existing.Some? then (w, Ok(existing.value))
      else
        var skill := Skill(source.value, Scope(w.cases[source.value].site, w.cases[source.value].device), SkillDraft, named);
        (w.(nextId := w.nextId + 1, skills := w.skills[w.nextId := skill]), Ok(w.nextId))
  }

  function FindSkill(w: World, source: nat, name: string, n: nat): Option<nat> {
    if n == 0 then None
    else if n - 1 in w.skills && w.skills[n - 1].source == source && w.skills[n - 1].spec.name == name && Active(w.skills[n - 1]) then Some(n - 1)
    else FindSkill(w, source, name, n - 1)
  }

  function ValidateSkill(e: Env, w: World, text: string): (World, Outcome<(), Failure>) {
    var id := FindRow(e, w.skills, text);
    if id.None? then (w, Err(NotFound))
    else if !w.skills[id.value].state.SkillDraft? then (w, Err(WrongState))
    else if !ValidateSpec(e, w.skills[id.value].spec).valid then (w, Err(BadSpec))
    else (SetSkill(w, id.value, SkillValidated), Ok(()))
  }

  function ReplaySkill(e: Env, w: World, text: string, caseText: string, asOf: Option<int>): (World, Outcome<(), Failure>) {
    var id, caseId := FindRow(e, w.skills, text), FindRow(e, w.cases, caseText);
    if id.None? then (w, Err(NotFound))
    else
      var skill := w.skills[id.value];
      if !skill.state.SkillValidated? && !skill.state.Shadow? then (w, Err(WrongState))
      else if caseId.None? then (w, Err(NotFound))
      else
        var c := w.cases[caseId.value];
        if (skill.scope.site != "" && c.site != skill.scope.site) || (skill.scope.device != "" && c.device != skill.scope.device) then (w, Err(OutOfScope))
        else
          var at := if asOf.Some? then asOf.value else if c.resolvedAt.Some? then c.resolvedAt.value else c.updatedAt;
          (RecordEvaluation(w, Evaluate(e, id.value, skill, caseId.value, c, Replay, at, "", ToolsAt(c, at))), Ok(()))
  }

  function StartShadow(e: Env, w: World, text: string): (World, Outcome<(), Failure>) {
    var id := FindRow(e, w.skills, text);
    if id.None? then (w, Err(NotFound))
    else if !w.skills[id.value].state.SkillValidated? then (w, Err(WrongState))
    else if !CanEnterShadow(PromotionStats(w, id.value)) then (w, Err(BelowThreshold))
    else (SetSkill(w, id.value, Shadow), Ok(()))
  }

  /** One SHADOW skill against evidence an investigation already collected. */
  function EvaluateShadow(e: Env, w: World, id: nat, caseId: nat, query: string, available: set<string>): World {
    if id in w.skills && w.skills[id].state.Shadow? && caseId in w.cases
       && (w.skills[id].scope.site == "" || w.skills[id].scope.site == w.cases[caseId].site)
       && (w.skills[id].scope.device == "" || w.skills[id].scope.device == w.cases[caseId].device)
    then RecordEvaluation(w, Evaluate(e, id, w.skills[id], caseId, w.cases[caseId], ShadowRun, w.now, query, available))
    else w
  }

  function Promote(e: Env, w: World, text: string): (World, Outcome<(), Failure>) {
    var id := FindRow(e, w.skills, text);
    if id.None? then (w, Err(NotFound))
    else if !w.skills[id.value].state.Shadow? then (w, Err(WrongState))
    else if !ValidateSpec(e, w.skills[id.value].spec).valid then (w, Err(BadSpec))
    else if !CanPromote(PromotionStats(w, id.value)) then (w, Err(BelowThreshold))
    else (SetSkill(w, id.value, Trusted), Ok(()))
  }

  function Deprecate(e: Env, w: World, text: string): (World, Outcome<(), Failure>) {
    var id := FindRow(e, w.skills, text);
    if id.None? || !w.skills[id.value].state.Trusted? then (w, Err(WrongState)) else (SetSkill(w, id.value, Deprecated), Ok(()))
  }

  function Revoke(e: Env, w: World, text: string): (World, Outcome<(), Failure>) {
    var id := FindRow(e, w.skills, text);
    if id.None? then (w, Err(NotFound)) else (SetSkill(w, id.value, Revoked), Ok(()))
  }

  // ---- Runs ------------------------------------------------------------------------------------

  datatype MemoryCall =
    | CallCreate(input: MemoryInput)
    | CallValidate(id: string)
    | CallReject(id: string)
    | CallCounter(id: string, refs: seq<Ref>)
    | CallSupersede(oldId: string, newId: string)
    | CallExpire

  datatype SkillCall =
    | CallDraft(source: string, scope: Scope, spec: SkillSpec)
    | CallValidateSkill(skill: string)
    | CallReplay(skill: string, caseText: string, asOf: Option<int>)
    | CallStartShadow(skill: string)
    | CallShadowRun(row: nat, caseId: nat, query: string, available: set<string>)
    | CallPromote(skill: string)
    | CallDeprecate(skill: string)
    | CallRevoke(skill: string)

  datatype Call =
    | Tick(delta: nat)
    | OpenCase(row: CaseRow)
    | EditCase(caseId: nat, row: CaseRow)
    | OnMemory(memoryCall: MemoryCall)
    | OnSkill(skillCall: SkillCall)
    | CallSweep(cutoff: int)

  function StepMemory(e: Env, w: World, c: MemoryCall): World {
    match c
    case CallCreate(input) => CreateMemory(e, w, input).0
    case CallValidate(id) => ValidateMemory(e, w, id).0
    case CallReject(id) => RejectMemory(e, w, id).0
    case CallCounter(id, refs) => AddCounterEvidence(e, w, id, refs).0
    case CallSupersede(oldId, newId) => Supersede(e, w, oldId, newId).0
    case CallExpire => ExpireMemories(w)
  }

  function StepSkill(e: Env, w: World, c: SkillCall): World {
    match c
    case CallDraft(source, scope, spec) => CreateSkill(e, w, source, scope, spec).0
    case CallValidateSkill(skill) => ValidateSkill(e, w, skill).0
    case CallReplay(skill, caseText, asOf) => ReplaySkill(e, w, skill, caseText, asOf).0
    case CallStartShadow(skill) => StartShadow(e, w, skill).0
    case CallShadowRun(row, caseId, query, available) => EvaluateShadow(e, w, row, caseId, query, available)
    case CallPromote(skill) => Promote(e, w, skill).0
    case CallDeprecate(skill) => Deprecate(e, w, skill).0
    case CallRevoke(skill) => Revoke(e, w, skill).0
  }

  function Step(e: Env, w: World, c: Call): World {
    match c
    case Tick(delta) => w.(now := w.now + delta)
    case OpenCase(row) => w.(nextId := w.nextId + 1, cases := w.cases[w.nextId := row])
    case EditCase(id, row) => if id in w.cases then w.(cases := w.cases[id := row]) else w
    case OnMemory(call) => StepMemory(e, w, call)
    case OnSkill(call) => StepSkill(e, w, call)
    case CallSweep(cutoff) => Sweep(e, w, cutoff).0
  }

  function Run(e: Env, w: World, calls: seq<Call>): World
    decreases calls
  {
    if calls == [] then w else Run(e, Step(e, w, calls[0]), calls[1..])
  }

  const EMPTY := World(0, 0, map[], map[], map[], [])
}
