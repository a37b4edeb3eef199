/** Skill promotion: it rests on distinct cases, moves forward only, and trust is always earned in SHADOW. */
module SentinelSkills {
  import opened Common
  import opened Sentinel

  // ---- The latest evaluation of each case --------------------------------------------

  /** The last evaluation of a skill for one case in one mode. */
  function LatestFor(evaluations: seq<Evaluation>, skill: nat, mode: EvaluationMode, caseId: nat): Option<Evaluation> {
    if evaluations == [] then None else
      var last := evaluations[|evaluations| - 1];
      if last.skill == skill && last.mode == mode && last.caseId == caseId then Some(last)
      else LatestFor(evaluations[..|evaluations| - 1], skill, mode, caseId)
  }

  ghost predicate OnePerCell(rows: seq<Evaluation>) {
    forall i, j | 0 <= i < j < |rows| :: !SameCell(rows[i], rows[j])
  }

  lemma {:induction false} WithoutCellIs(rows: seq<Evaluation>, ev: Evaluation)
    ensures forall r :: r in WithoutCell(rows, ev) <==> r in rows && !SameCell(r, ev)
    ensures OnePerCell(rows) ==> OnePerCell(WithoutCell(rows, ev))
    decreases |rows|
  {
    if rows != [] {
      var n := |rows| - 1;
      WithoutCellIs(rows[..n], ev);
      var front := WithoutCell(rows[..n], ev);
      if OnePerCell(rows) && !SameCell(rows[n], ev) {
        forall i | 0 <= i < |front| ensures !SameCell(front[i], rows[n]) {
          assert front[i] in front;
          var k :| 0 <= k < n && rows[..n][k] == front[i];
        }
      }
    }
  }

  /** The selected rows are exactly the latest ones, one for each case and mode. */
  lemma {:induction false} LatestIsLatestPerCase(evaluations: seq<Evaluation>, skill: nat)
    ensures OnePerCell(Latest(evaluations, skill))
    ensures forall r :: r in Latest(evaluations, skill) <==> LatestFor(evaluations, skill, r.mode, r.caseId) == Some(r)
    decreases |evaluations|
  {
    if evaluations != [] {
      var n := |evaluations| - 1;
      var last, front := evaluations[n], Latest(evaluations[..n], skill);
      LatestIsLatestPerCase(evaluations[..n], skill);
      LatestForIs(evaluations[..n], skill);
      if last.skill == skill {
        WithoutCellIs(front, last);
        var kept := WithoutCell(front, last);
        forall i | 0 <= i < |kept| ensures !SameCell(kept[i], last) {
          assert kept[i] in kept;
        }
      }
    }
  }

  lemma {:induction false} LatestForIs(evaluations: seq<Evaluation>, skill: nat)
    ensures forall mode, c :: LatestFor(evaluations, skill, mode, c).Some? ==>
              var ev := LatestFor(evaluations, skill, mode, c).value; ev in evaluations && ev.skill == skill && ev.mode == mode && ev.caseId == c
    decreases |evaluations|
  {
    if evaluations != [] {
      LatestForIs(evaluations[..|evaluations| - 1], skill);
    }
  }

  // ---- Counts are numbers of cases ------------------------------------------------------

  /** The cases whose latest evaluation in this mode matched. */
  ghost function MatchedCases(evaluations: seq<Evaluation>, skill: nat, mode: EvaluationMode): set<nat> {
    set i | 0 <= i < |evaluations| && MatchedLast(evaluations, skill, mode, evaluations[i].caseId) :: evaluations[i].caseId
  }

  predicate MatchedLast(evaluations: seq<Evaluation>, skill: nat, mode: EvaluationMode, caseId: nat) {
    var ev := LatestFor(evaluations, skill, mode, caseId);
    ev.Some? && ev.value.matched
  }

  lemma MatchedCasesAre(evaluations: seq<Evaluation>, skill: nat, mode: EvaluationMode, c: nat)
    ensures c in MatchedCases(evaluations, skill, mode) <==> MatchedLast(evaluations, skill, mode, c)
  {
    LatestForIs(evaluations, skill);
    if MatchedLast(evaluations, skill, mode, c) {
      var ev := LatestFor(evaluations, skill, mode, c).value;
      var i :| 0 <= i < |evaluations| && evaluations[i] == ev;
      assert evaluations[i].caseId == c;
    }
  }

  ghost function MatchedRows(rows: seq<Evaluation>, mode: EvaluationMode): set<nat> {
    set i | 0 <= i < |rows| && rows[i].mode == mode && rows[i].matched :: rows[i].caseId
  }

  lemma LastRowIsNew(rows: seq<Evaluation>, mode: EvaluationMode)
    requires OnePerCell(rows) && rows != []
    ensures var front, last := MatchedRows(rows[..|rows| - 1], mode), rows[|rows| - 1];
            if last.mode == mode && last.matched
            then last.caseId !in front && MatchedRows(rows, mode) == front + {last.caseId}
            else MatchedRows(rows, mode) == front
  {
    var n := |rows| - 1;
    var front, last := MatchedRows(rows[..n], mode), rows[n];
    forall c | c in front ensures c in MatchedRows(rows, mode) && (last.mode == mode ==> c != last.caseId) {
      var i :| 0 <= i < n && rows[..n][i].mode == mode && rows[..n][i].matched && rows[..n][i].caseId == c;
      assert rows[i] == rows[..n][i] && !SameCell(rows[i], rows[n]);
    }
    forall c | c in MatchedRows(rows, mode) ensures c in front || (c == last.caseId && last.mode == mode && last.matched) {
      var i :| 0 <= i <= n && rows[i].mode == mode && rows[i].matched && rows[i].caseId == c;
      if i < n {
        assert rows[..n][i] == rows[i];
      }
    }
  }

  lemma {:induction false} TallyCountsCases(rows: seq<Evaluation>, mode: EvaluationMode)
    requires OnePerCell(rows)
    ensures TallyOf(rows, mode).count == |MatchedRows(rows, mode)|
    decreases |rows|
  {
    if rows == [] {
      assert MatchedRows(rows, mode) == {};
    } else {
      TallyCountsCases(rows[..|rows| - 1], mode);
      LastRowIsNew(rows, mode);
    }
  }

  /** The count of a mode is the number of distinct cases whose latest evaluation matched. */
  lemma CountsAreDistinctCases(evaluations: seq<Evaluation>, skill: nat, mode: EvaluationMode)
    ensures TallyOf(Latest(evaluations, skill), mode).count == |MatchedCases(evaluations, skill, mode)|
  {
    var rows := Latest(evaluations, skill);
    LatestIsLatestPerCase(evaluations, skill);
    LatestForIs(evaluations, skill);
    TallyCountsCases(rows, mode);
    forall c ensures c in MatchedRows(rows, mode) <==> c in MatchedCases(evaluations, skill, mode) {
      MatchedCasesAre(evaluations, skill, mode, c);
      if c in MatchedCases(evaluations, skill, mode) {
        var ev := LatestFor(evaluations, skill, mode, c).value;
        assert ev in rows;
        var i :| 0 <= i < |rows| && rows[i] == ev;
      }
      if c in MatchedRows(rows, mode) {
        var i :| 0 <= i < |rows| && rows[i].mode == mode && rows[i].matched && rows[i].caseId == c;
        assert rows[i] in rows;
      }
    }
    assert MatchedRows(rows, mode) == MatchedCases(evaluations, skill, mode);
  }

  // ---- Repeating one case --------------------------------------------------------------------

  lemma {:induction false} OtherCellsKept(evaluations: seq<Evaluation>, extra: seq<Evaluation>, skill: nat, mode: EvaluationMode, c: nat)
    requires forall ev | ev in extra :: ev.caseId != c
    ensures LatestFor(evaluations + extra, skill, mode, c) == LatestFor(evaluations, skill, mode, c)
    decreases |extra|
  {
    if extra == [] {
      assert evaluations + extra == evaluations;
    } else {
      var n := |extra| - 1;
      assert (evaluations + extra)[..|evaluations| + n] == evaluations + extra[..n];
      assert extra[n] in extra;
      OtherCellsKept(evaluations, extra[..n], skill, mode, c);
    }
  }

  lemma OneApart(a: set<nat>, b: set<nat>, c: nat)
    requires a <= b + {c} && b <= a + {c}
    ensures -1 <= |a| - |b| <= 1
  {
    SubsetIsSmaller(a, b + {c});
    SubsetIsSmaller(b, a + {c});
  }

  /** However often one case is evaluated, each count changes by at most one. */
  lemma OneCaseCountsOnce(evaluations: seq<Evaluation>, extra: seq<Evaluation>, skill: nat, mode: EvaluationMode, c: nat)
    requires forall ev | ev in extra :: ev.caseId == c
    ensures -1 <= TallyOf(Latest(evaluations + extra, skill), mode).count - TallyOf(Latest(evaluations, skill), mode).count <= 1
  {
    CountsAreDistinctCases(evaluations, skill, mode);
    CountsAreDistinctCases(evaluations + extra, skill, mode);
    var a, b := MatchedCases(evaluations + extra, skill, mode), MatchedCases(evaluations, skill, mode);
    forall x | x != c ensures x in a <==> x in b {
      MatchedCasesAre(evaluations, skill, mode, x);
      MatchedCasesAre(evaluations + extra, skill, mode, x);
      OtherCellsKept(evaluations, extra, skill, mode, x);
    }
    OneApart(a, b, c);
  }

  // ---- What promotion needs --------------------------------------------------------------------

  lemma {:induction false} NoUnsafeRows(rows: seq<Evaluation>)
    ensures UnsafeCount(rows) == 0 <==> forall i | 0 <= i < |rows| :: !rows[i].unsafe
    decreases |rows|
  {
    if rows != [] {
      NoUnsafeRows(rows[..|rows| - 1]);
    }
  }

  /** Enough distinct cases matched, their latest scores average at least 0.8, and no latest result is unsafe. */
  ghost predicate EarnedOnCases(w: World, skill: nat) {
    && |MatchedCases(w.evaluations, skill, Replay)| >= 3
    && |MatchedCases(w.evaluations, skill, ShadowRun)| >= 5
    && TallyOf(Latest(w.evaluations, skill), Replay).sum >= 0.8 * |MatchedCases(w.evaluations, skill, Replay)| as real
    && TallyOf(Latest(w.evaluations, skill), ShadowRun).sum >= 0.8 * |MatchedCases(w.evaluations, skill, ShadowRun)| as real
    && NoLatestUnsafe(w, skill)
  }

  lemma RateMeansCases(t: Tally, cases: nat, least: nat)
    requires t.count == cases && least > 0
    ensures t.count >= least && Mean(t) >= 0.8 <==> cases >= least && t.sum >= 0.8 * cases as real
  {
  }

  /** No latest result of the skill is unsafe. */
  ghost predicate NoLatestUnsafe(w: World, skill: nat) {
    forall mode, c :: LatestFor(w.evaluations, skill, mode, c).Some? ==> !LatestFor(w.evaluations, skill, mode, c).value.unsafe
  }

  /** The SQL thresholds say exactly that promotion is earned on distinct cases. */
  lemma ThresholdsMeanCases(w: World, skill: nat)
    ensures CanPromote(PromotionStats(w, skill)) <==> EarnedOnCases(w, skill)
  {
    var rows := Latest(w.evaluations, skill);
    CountsAreDistinctCases(w.evaluations, skill, Replay);
    CountsAreDistinctCases(w.evaluations, skill, ShadowRun);
    NoUnsafeRows(rows);
    if NoLatestUnsafe(w, skill) {
      SafeLatestMeansSafeRows(w, skill);
    } else if UnsafeCount(rows) == 0 {
      SafeRowsMeanSafeLatest(w, skill);
    }
    RateMeansCases(TallyOf(rows, Replay), |MatchedCases(w.evaluations, skill, Replay)|, 3);
    RateMeansCases(TallyOf(rows, ShadowRun), |MatchedCases(w.evaluations, skill, ShadowRun)|, 5);
  }

  lemma SafeLatestMeansSafeRows(w: World, skill: nat)
    requires NoLatestUnsafe(w, skill)
    ensures forall i | 0 <= i < |Latest(w.evaluations, skill)| :: !Latest(w.evaluations, skill)[i].unsafe
  {
    var rows := Latest(w.evaluations, skill);
    LatestIsLatestPerCase(w.evaluations, skill);
    forall i | 0 <= i < |rows| ensures !rows[i].unsafe {
      var r := rows[i];
      assert r in rows;
      assert LatestFor(w.evaluations, skill, r.mode, r.caseId) == Some(r);
    }
  }

  lemma SafeRowsMeanSafeLatest(w: World, skill: nat)
    requires forall i | 0 <= i < |Latest(w.evaluations, skill)| :: !Latest(w.evaluations, skill)[i].unsafe
    ensures NoLatestUnsafe(w, skill)
  {
    var rows := Latest(w.evaluations, skill);
    LatestIsLatestPerCase(w.evaluations, skill);
    LatestForIs(w.evaluations, skill);
    forall mode, c | LatestFor(w.evaluations, skill, mode, c).Some? ensures !LatestFor(w.evaluations, skill, mode, c).value.unsafe {
      var ev := LatestFor(w.evaluations, skill, mode, c).value;
      assert ev in rows;
      var i :| 0 <= i < |rows| && rows[i] == ev;
    }
  }

  // ---- The lifecycle over runs -------------------------------------------------------------------

  function Stage(s: SkillState): nat {
    match s
    case SkillDraft => 0
    case SkillValidated => 1
    case Shadow => 2
    case Trusted => 3
    case Deprecated => 4
    case Revoked => 5
  }

  /** This step takes the skill from SHADOW to TRUSTED, on distinct cases and with a valid, safe spec. */
  ghost predicate Promotes(e: Env, w: World, w': World, id: nat) {
    && id in w.skills && id in w'.skills && w.skills[id].state.Shadow? && w'.skills[id].state.Trusted?
    && EarnedOnCases(w, id)
    && ValidateSpec(e, w.skills[id].spec).valid && !UnsafeTools(e, w.skills[id].spec)
  }

  /** What a call may do to a skill: nothing, one stage forward, or revocation. */
  ghost predicate SkillMoves(e: Env, w: World, w': World, id: nat)
    requires id in w.skills && id in w'.skills
  {
    var a, b := w.skills[id].state, w'.skills[id].state;
    && w'.skills[id] == w.skills[id].(state := b)
    && (a == b || b.Revoked? || Stage(b) == Stage(a) + 1)
    && (a.Revoked? ==> b.Revoked?)
    && (b.Trusted? && !a.Trusted? ==> Promotes(e, w, w', id))
  }

  lemma PromoteMoves(e: Env, w: World, text: string, id: nat)
    requires id in w.skills
    ensures id in Promote(e, w, text).0.skills && SkillMoves(e, w, Promote(e, w, text).0, id)
  {
    ThresholdsMeanCases(w, id);
  }

  lemma AdvancingMoves(e: Env, w: World, row: nat, state: SkillState, id: nat)
    requires id in w.skills && row in w.skills && !state.Trusted?
    requires state.Revoked? || (!w.skills[row].state.Revoked? && Stage(state) == Stage(w.skills[row].state) + 1)
    ensures SkillMoves(e, w, SetSkill(w, row, state), id) && SkillMoves(e, w, w, id)
  {
  }

  /** The skill tables of two worlds hold the same row for this skill. */
  lemma SameRowMoves(e: Env, w: World, w': World, id: nat)
    requires id in w.skills && id in w'.skills && w'.skills[id] == w.skills[id]
    ensures SkillMoves(e, w, w', id)
  {
  }

  lemma SkillCallMoves(e: Env, w: World, c: SkillCall, id: nat)
    requires id in w.skills && id < w.nextId
    ensures id in StepSkill(e, w, c).skills && SkillMoves(e, w, StepSkill(e, w, c), id)
  {
    if c.CallPromote? {
      PromoteMoves(e, w, c.skill, id);
    } else if c.CallDraft? || c.CallReplay? || c.CallShadowRun? {
      SameRowMoves(e, w, StepSkill(e, w, c), id);
    } else {
      var row := FindRow(e, w.skills, c.skill);
      var w' := StepSkill(e, w, c);
      if w' != w {
        AdvancingMoves(e, w, row.value, w'.skills[row.value].state, id);
      } else {
        SameRowMoves(e, w, w, id);
      }
    }
  }

  ghost predicate NumberedSkills(w: World) {
    forall id | id in w.skills :: id < w.nextId
  }

  lemma SkillCallsNumber(e: Env, w: World, c: SkillCall, id: nat)
    requires NumberedSkills(w)
    ensures NumberedSkills(StepSkill(e, w, c)) && w.nextId <= StepSkill(e, w, c).nextId
    ensures id !in w.skills && id in StepSkill(e, w, c).skills ==> StepSkill(e, w, c).skills[id].state.SkillDraft? && id == w.nextId
  {
  }

  lemma MemoryCallsKeepSkills(e: Env, w: World, c: MemoryCall)
    ensures StepMemory(e, w, c).skills == w.skills && w.nextId <= StepMemory(e, w, c).nextId
  {
  }

  lemma StepMovesSkills(e: Env, w: World, c: Call, id: nat)
    requires NumberedSkills(w)
    ensures NumberedSkills(Step(e, w, c)) && w.nextId <= Step(e, w, c).nextId
    ensures id in w.skills && id in Step(e, w, c).skills ==> SkillMoves(e, w, Step(e, w, c), id)
    ensures id !in w.skills && id in Step(e, w, c).skills ==> Step(e, w, c).skills[id].state.SkillDraft? && id == w.nextId
  {
    match c
    case OnMemory(call) => MemoryCallsKeepSkills(e, w, call);
    case OnSkill(call) =>
      SkillCallsNumber(e, w, call, id);
      if id in w.skills {
        SkillCallMoves(e, w, call, id);
      }
    case _ =>
  }

  /** Somewhere in the run the skill was promoted from SHADOW on distinct cases. */
  ghost predicate EverPromoted(e: Env, w: World, calls: seq<Call>, id: nat)
    decreases calls
  {
    calls != [] && (Promotes(e, w, Step(e, w, calls[0]), id) || EverPromoted(e, Step(e, w, calls[0]), calls[1..], id))
  }

  /** Every skill that is TRUSTED after a run, and was not before, earned it in SHADOW on distinct cases. */
  lemma {:induction false} TrustIsEarned(e: Env, w: World, calls: seq<Call>, id: nat)
    requires NumberedSkills(w) && (id in w.skills ==> !w.skills[id].state.Trusted?)
    requires id in Run(e, w, calls).skills && Run(e, w, calls).skills[id].state.Trusted?
    ensures EverPromoted(e, w, calls, id)
    decreases calls
  {
    if calls != [] {
      var w' := Step(e, w, calls[0]);
      StepMovesSkills(e, w, calls[0], id);
      if !(id in w'.skills && w'.skills[id].state.Trusted?) {
        TrustIsEarned(e, w', calls[1..], id);
      }
    }
  }

  /** Stages never go back, and REVOKED is final. */
  lemma {:induction false} StagesNeverGoBack(e: Env, w: World, calls: seq<Call>, id: nat)
    requires NumberedSkills(w) && id in w.skills
    ensures id in Run(e, w, calls).skills ==>
              && Stage(w.skills[id].state) <= Stage(Run(e, w, calls).skills[id].state)
              && Run(e, w, calls).skills[id].spec == w.skills[id].spec
    decreases calls
  {
    if calls != [] {
      var w' := Step(e, w, calls[0]);
      StepMovesSkills(e, w, calls[0], id);
      if id in w'.skills {
        StagesNeverGoBack(e, w', calls[1..], id);
      } else {
        StaysGone(e, w', calls[1..], id);
      }
    }
  }

  lemma {:induction false} StaysGone(e: Env, w: World, calls: seq<Call>, id: nat)
    requires NumberedSkills(w) && id !in w.skills && id < w.nextId
    ensures id !in Run(e, w, calls).skills
    decreases calls
  {
    if calls != [] {
      StepMovesSkills(e, w, calls[0], id);
      StaysGone(e, Step(e, w, calls[0]), calls[1..], id);
    }
  }

  // ---- Evaluations ----------------------------------------------------------------------------------

  lemma {:induction false} CountInBounds(tools: seq<string>, available: set<string>)
    ensures CountIn(tools, available) <= |tools|
    ensures CountIn(tools, available) == |tools| <==> forall i | 0 <= i < |tools| :: tools[i] in available
    decreases |tools|
  {
    if tools != [] {
      CountInBounds(tools[..|tools| - 1], available);
    }
  }

  lemma ScoreBounds(total: nat, satisfied: nat, unsafe: bool)
    requires satisfied <= total
    ensures 0.0 <= Score(total, satisfied, unsafe) <= 1.0
    ensures Score(total, satisfied, unsafe) == 1.0 <==> !unsafe && total > 0 && satisfied == total
  {
    if total > 0 {
      assert satisfied as real <= total as real;
    }
  }

  /** What is recorded satisfies the table's checks, and a full score means that every tool was available. */
  lemma EvaluationsAreConsistent(e: Env, id: nat, skill: Skill, caseId: nat, c: CaseRow, mode: EvaluationMode, asOf: int, query: string, available: set<string>)
    ensures var ev := Evaluate(e, id, skill, caseId, c, mode, asOf, query, available);
            && ev.satisfied <= ev.total && 0.0 <= ev.score <= 1.0
            && (ev.score == 1.0 ==> ev.matched && !ev.unsafe && forall i | 0 <= i < ev.total :: ValidateSpec(e, skill.spec).tools[i] in available)
  {
    var v := ValidateSpec(e, skill.spec);
    CountInBounds(v.tools, available);
    ScoreBounds(|v.tools|, if v.valid && e.matches(skill.spec, c.text, query) then CountIn(v.tools, available) else 0, v.unsafe);
  }

  /** Replaying the same case at the same time again stores nothing. */
  lemma ReplayIsIdempotent(e: Env, w: World, text: string, caseText: string, asOf: int)
    requires ReplaySkill(e, w, text, caseText, Some(asOf)).1.Ok?
    ensures var w' := ReplaySkill(e, w, text, caseText, Some(asOf)).0;
            ReplaySkill(e, w', text, caseText, Some(asOf)) == (w', Ok(()))
  {
    var id, caseId := FindRow(e, w.skills, text).value, FindRow(e, w.cases, caseText).value;
    var ev := Evaluate(e, id, w.skills[id], caseId, w.cases[caseId], Replay, asOf, "", ToolsAt(w.cases[caseId], asOf));
    if !Repeats(w.evaluations, ev) {
      var after := w.evaluations + [ev];
      assert after[|w.evaluations|] == ev;
    }
  }
}
