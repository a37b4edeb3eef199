/** A replay sees a case as it was at one time: what it scores, and that later evidence cannot change it. */
module SentinelReplay {
  import opened Common
  import opened Sentinel
  import opened SentinelTools

  // ---- What a replay stores ----------------------------------------------------------------

  /** The tools with a record of the case that was captured at or before the time. */
  ghost function CapturedBy(c: CaseRow, at: int): set<string> {
    set r | r in c.records && r.capturedAt.Some? && r.capturedAt.value <= at :: r.tool
  }

  lemma ToolsAtAreCaptured(c: CaseRow, at: int)
    ensures ToolsAt(c, at) == CapturedBy(c, at)
  {
    forall t | t in CapturedBy(c, at) ensures t in ToolsAt(c, at) {
      var r :| r in c.records && r.capturedAt.Some? && r.capturedAt.value <= at && r.tool == t;
      var i :| 0 <= i < |c.records| && c.records[i] == r;
    }
  }

  /** The given time; without one the resolution of the case, else its last update. */
  function ReplayTime(c: CaseRow, asOf: Option<int>): int {
    match asOf
    case Some(at) => at
    case None => if c.resolvedAt.Some? then c.resolvedAt.value else c.updatedAt
  }

  /** The result says which share of the usable tools had captured something by the time. */
  ghost predicate IsShare(e: Env, spec: SkillSpec, c: CaseRow, at: int, ev: Evaluation) {
    var usable := UsableTools(e, spec);
    && ev.asOf == at && ev.mode.Replay?
    && ev.matched == (ValidateSpec(e, spec).valid && e.matches(spec, c.text, ""))
    && ev.total == |usable|
    && ev.satisfied == (if ev.matched then |usable * CapturedBy(c, at)| else 0)
    && (ev.unsafe <==> UnsafeTools(e, spec))
    && (ev.unsafe || usable == {} ==> ev.score == 0.0)
    && (!ev.unsafe && usable != {} ==> ev.score * |usable| as real == ev.satisfied as real)
  }

  ghost predicate Stored(before: seq<Evaluation>, after: seq<Evaluation>, skill: nat, caseId: nat, at: int) {
    exists ev | ev in before :: after == before && ev.mode.Replay? && ev.skill == skill && ev.caseId == caseId && ev.asOf == at
  }

  lemma SubsetSize(a: set<string>, b: set<string>)
    ensures |a * b| <= |a|
  {
    SubsetIsSmaller(a * b, a);
  }

  lemma ScoreIsQuotient(total: nat, satisfied: nat, unsafe: bool)
    requires satisfied <= total
    ensures unsafe || total == 0 ==> Score(total, satisfied, unsafe) == 0.0
    ensures !unsafe && total > 0 ==> Score(total, satisfied, unsafe) * total as real == satisfied as real
  {
  }

  lemma ScoreOfShare(usable: set<string>, available: set<string>, ev: Evaluation)
    requires ev.total == |usable| && ev.satisfied == (if ev.matched then |usable * available| else 0)
    requires ev.score == Score(ev.total, ev.satisfied, ev.unsafe)
    ensures ev.unsafe || usable == {} ==> ev.score == 0.0
    ensures !ev.unsafe && usable != {} ==> ev.score * |usable| as real == ev.satisfied as real
  {
    SubsetSize(usable, available);
    EmptyIsZero(usable);
    ScoreIsQuotient(ev.total, ev.satisfied, ev.unsafe);
  }

  lemma EvaluationCounts(e: Env, id: nat, skill: Skill, caseId: nat, c: CaseRow, at: int)
    ensures var ev := Evaluate(e, id, skill, caseId, c, Replay, at, "", ToolsAt(c, at));
            && ev.total == |UsableTools(e, skill.spec)|
            && ev.satisfied == if ev.matched then |UsableTools(e, skill.spec) * CapturedBy(c, at)| else 0
  {
    var v := ValidateSpec(e, skill.spec);
    ValidatedToolsAre(e, skill.spec);
    ToolsAtAreCaptured(c, at);
    CountIsShare(v.tools, ToolsAt(c, at));
  }

  lemma ShareFollows(e: Env, spec: SkillSpec, c: CaseRow, at: int, ev: Evaluation)
    requires ev.asOf == at && ev.mode.Replay? && ev.matched == (ValidateSpec(e, spec).valid && e.matches(spec, c.text, ""))
    requires ev.total == |UsableTools(e, spec)| && ev.satisfied == if ev.matched then |UsableTools(e, spec) * CapturedBy(c, at)| else 0
    requires (ev.unsafe <==> UnsafeTools(e, spec)) && ev.score == Score(ev.total, ev.satisfied, ev.unsafe)
    ensures IsShare(e, spec, c, at, ev)
  {
    ScoreOfShare(UsableTools(e, spec), CapturedBy(c, at), ev);
  }

  lemma EvaluationIsShare(e: Env, id: nat, skill: Skill, caseId: nat, c: CaseRow, at: int)
    ensures IsShare(e, skill.spec, c, at, Evaluate(e, id, skill, caseId, c, Replay, at, "", ToolsAt(c, at)))
  {
    EvaluationCounts(e, id, skill, caseId, c, at);
    ShareFollows(e, skill.spec, c, at, Evaluate(e, id, skill, caseId, c, Replay, at, "", ToolsAt(c, at)));
  }

  lemma EmptyIsZero(a: set<string>)
    ensures a == {} <==> |a| == 0
  {
  }

  /**
   * An accepted replay only adds one evaluation, the share of the usable tools
   * that had captured something by its time, unless the same replay was stored
   * before.
   */
  lemma ReplayStoresTheShare(e: Env, w: World, text: string, caseText: string, asOf: Option<int>)
    requires ReplaySkill(e, w, text, caseText, asOf).1.Ok?
    ensures e.rowOf(text).Some? && e.rowOf(text).value in w.skills && e.rowOf(caseText).Some? && e.rowOf(caseText).value in w.cases
    ensures var w' := ReplaySkill(e, w, text, caseText, asOf).0;
            var id, caseId := e.rowOf(text).value, e.rowOf(caseText).value;
            var at := ReplayTime(w.cases[caseId], asOf);
            && w' == w.(evaluations := w'.evaluations)
            && (Stored(w.evaluations, w'.evaluations, id, caseId, at) ||
                (&& |w'.evaluations| == |w.evaluations| + 1 && w'.evaluations[..|w.evaluations|] == w.evaluations
                 && w'.evaluations[|w.evaluations|].skill == id && w'.evaluations[|w.evaluations|].caseId == caseId
                 && IsShare(e, w.skills[id].spec, w.cases[caseId], at, w'.evaluations[|w.evaluations|])))
  {
    var id, caseId := e.rowOf(text).value, e.rowOf(caseText).value;
    var c := w.cases[caseId];
    var at := ReplayTime(c, asOf);
    EvaluationIsShare(e, id, w.skills[id], caseId, c, at);
    var ev := Evaluate(e, id, w.skills[id], caseId, c, Replay, at, "", ToolsAt(c, at));
    if Repeats(w.evaluations, ev) {
      var i :| 0 <= i < |w.evaluations| && w.evaluations[i].mode.Replay? && w.evaluations[i].skill == id && w.evaluations[i].caseId == caseId && w.evaluations[i].asOf == at;
      assert w.evaluations[i] in w.evaluations;
    }
  }

  /** A full score means a matching, valid skill with tools, each of which had captured something by the time. */
  lemma FullScoreExactly(e: Env, spec: SkillSpec, c: CaseRow, at: int, ev: Evaluation)
    requires IsShare(e, spec, c, at, ev)
    ensures ev.score == 1.0 <==>
            && ValidateSpec(e, spec).valid && e.matches(spec, c.text, "")
            && NamedIn(spec.tools) != {} && NamedIn(spec.tools) <= CapturedBy(c, at)
  {
    EmptyIsZero(UsableTools(e, spec));
    if !ev.unsafe && UsableTools(e, spec) != {} {
      OneIsAll(ev.score, |UsableTools(e, spec)|, ev.satisfied);
    }
    WholeShare(UsableTools(e, spec), CapturedBy(c, at));
    if ValidateSpec(e, spec).valid {
      ValidToolsAreUsable(e, spec);
    }
  }

  lemma ValidToolsAreUsable(e: Env, spec: SkillSpec)
    requires ValidateSpec(e, spec).valid
    ensures UsableTools(e, spec) == NamedIn(spec.tools) && !UnsafeTools(e, spec)
  {
    forall t | t in NamedIn(spec.tools) ensures IsReadOnly(e, t) {
      var i :| 0 <= i < |spec.tools| && TrimSpace(spec.tools[i]) != "" && TrimSpace(spec.tools[i]) == t;
    }
  }

  lemma WholeShare(a: set<string>, b: set<string>)
    ensures |a * b| == |a| <==> a <= b
  {
    if a <= b {
      assert a * b == a;
    } else {
      var t :| t in a && t !in b;
      SubsetIsSmaller(a * b, a - {t});
    }
  }

  lemma OneIsAll(score: real, total: nat, satisfied: nat)
    requires total > 0 && score * total as real == satisfied as real
    ensures score == 1.0 <==> satisfied == total
  {
    if satisfied == total {
      assert (score - 1.0) * total as real == 0.0;
    }
  }

  // ---- No hindsight ------------------------------------------------------------------------

  /** The two ledgers hold the same records up to this time, whatever was captured later or has no readable time. */
  ghost predicate SameUpTo(a: seq<Record>, b: seq<Record>, at: int) {
    forall r: Record | r.capturedAt.Some? && r.capturedAt.value <= at :: r in a <==> r in b
  }

  /**
   * No hindsight: whatever evidence is added to the case or removed from it, as
   * long as it was captured after the replay's time, the replay gives the same
   * answer and stores the same evaluation.
   */
  lemma NoHindsight(e: Env, w: World, text: string, caseText: string, asOf: Option<int>, records: seq<Record>)
    requires e.rowOf(caseText).Some? && e.rowOf(caseText).value in w.cases
    requires var c := w.cases[e.rowOf(caseText).value]; SameUpTo(c.records, records, ReplayTime(c, asOf))
    ensures var caseId := e.rowOf(caseText).value;
            var changed := w.(cases := w.cases[caseId := w.cases[caseId].(records := records)]);
            && ReplaySkill(e, changed, text, caseText, asOf).1 == ReplaySkill(e, w, text, caseText, asOf).1
            && ReplaySkill(e, changed, text, caseText, asOf).0.evaluations == ReplaySkill(e, w, text, caseText, asOf).0.evaluations
  {
    var caseId := e.rowOf(caseText).value;
    var c := w.cases[caseId];
    var c', at := c.(records := records), ReplayTime(c, asOf);
    ToolsAtAreCaptured(c, at);
    ToolsAtAreCaptured(c', at);
    assert CapturedBy(c, at) == CapturedBy(c', at);
  }
}
