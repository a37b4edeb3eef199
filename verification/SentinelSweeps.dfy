/** What a retention sweep deletes, and what it must leave. */
module SentinelSweeps {
  import opened Common
  import opened Sentinel
  import opened SentinelMemory
  import SentinelGates

  /** Nothing alive needs the case any more, and it was resolved before the cutoff. */
  ghost predicate Obsolete(e: Env, w: World, c: nat, cutoff: int) {
    && c in w.cases && w.cases[c].resolvedAt.Some? && w.cases[c].resolvedAt.value < cutoff
    && (forall id | id in w.memories && w.memories[id].state in {Candidate, Validated} && w.now < w.memories[id].expiresAt ::
          && w.memories[id].source != c
          && forall r | r in w.memories[id].evidence || r in w.memories[id].counter :: r.caseText != e.idText(c))
    && (forall id | id in w.skills && SentinelGates.InUse(w.skills[id].state) :: w.skills[id].source != c)
  }

  lemma CitesMeans(e: Env, m: Memory, c: nat)
    ensures Cites(e, m, c) <==> m.source == c || exists r :: (r in m.evidence || r in m.counter) && r.caseText == e.idText(c)
  {
    if Cites(e, m, c) && m.source != c {
      if i :| 0 <= i < |m.evidence| && m.evidence[i].caseText == e.idText(c) {
        assert m.evidence[i] in m.evidence;
      } else {
        var i :| 0 <= i < |m.counter| && m.counter[i].caseText == e.idText(c);
        assert m.counter[i] in m.counter;
      }
    }
  }

  lemma SweepableMeansObsolete(e: Env, w: World, c: nat, cutoff: int)
    ensures Sweepable(e, w, c, cutoff) <==> Obsolete(e, w, c, cutoff)
  {
    forall id | id in w.memories
      ensures Cites(e, w.memories[id], c) <==>
              w.memories[id].source == c || exists r :: (r in w.memories[id].evidence || r in w.memories[id].counter) && r.caseText == e.idText(c)
    {
      CitesMeans(e, w.memories[id], c);
    }
  }

  /** A memory that would stay says it was superseded by one that would go. */
  ghost predicate LinkWouldBreak(e: Env, w: World, cutoff: int) {
    exists id, t :: && id in w.memories && t in w.memories && w.memories[id].supersededBy == Some(t)
                    && !Obsolete(e, w, w.memories[id].source, cutoff) && Obsolete(e, w, w.memories[t].source, cutoff)
  }

  lemma RefusedMeansBroken(e: Env, w: World, cutoff: int)
    ensures SweepRefused(e, w, cutoff) <==> LinkWouldBreak(e, w, cutoff)
  {
    forall id | id in w.memories ensures Swept(e, w, id, cutoff) <==> Obsolete(e, w, w.memories[id].source, cutoff) {
      SweepableMeansObsolete(e, w, w.memories[id].source, cutoff);
    }
    if LinkWouldBreak(e, w, cutoff) {
      var id, t :| && id in w.memories && t in w.memories && w.memories[id].supersededBy == Some(t)
                   && !Obsolete(e, w, w.memories[id].source, cutoff) && Obsolete(e, w, w.memories[t].source, cutoff);
      assert !Swept(e, w, id, cutoff) && Swept(e, w, w.memories[id].supersededBy.value, cutoff);
    }
  }

  lemma {:induction false} KeptCounts(evaluations: seq<Evaluation>, skills: map<nat, Skill>, cases: map<nat, CaseRow>, ev: Evaluation)
    ensures multiset(KeepEvaluations(evaluations, skills, cases))[ev]
            == if ev.skill in skills && ev.caseId in cases then multiset(evaluations)[ev] else 0
    decreases |evaluations|
  {
    if evaluations != [] {
      var n := |evaluations| - 1;
      KeptCounts(evaluations[..n], skills, cases, ev);
      assert evaluations == evaluations[..n] + [evaluations[n]];
    }
  }

  lemma {:induction false} KeptInOrder(a: seq<Evaluation>, b: seq<Evaluation>, skills: map<nat, Skill>, cases: map<nat, CaseRow>)
    ensures KeepEvaluations(a + b, skills, cases) == KeepEvaluations(a, skills, cases) + KeepEvaluations(b, skills, cases)
    decreases |b|
  {
    if b == [] {
      assert a + b == a && KeepEvaluations(a, skills, cases) + [] == KeepEvaluations(a, skills, cases);
    } else {
      var n := |b| - 1;
      assert (a + b)[..|a + b| - 1] == a + b[..n];
      KeptInOrder(a, b[..n], skills, cases);
    }
  }


  /**
   * A sweep is refused as a whole exactly when a supersession link would break.
   * Otherwise it deletes exactly the obsolete cases, the memories and skills
   * learned from them, and the evaluations that lost their skill or case.
   */
  lemma SweepDeletesExactly(e: Env, w: World, cutoff: int)
    ensures var (w', answer) := Sweep(e, w, cutoff);
            && (answer.Err? <==> LinkWouldBreak(e, w, cutoff))
            && (answer.Err? ==> w' == w)
            && (answer.Ok? ==>
                  && w' == w.(cases := w'.cases, memories := w'.memories, skills := w'.skills, evaluations := w'.evaluations)
                  && (forall c :: c in w'.cases <==> c in w.cases && !Obsolete(e, w, c, cutoff))
                  && (forall c | c in w'.cases :: w'.cases[c] == w.cases[c])
                  && (forall id :: id in w'.memories <==> id in w.memories && !Obsolete(e, w, w.memories[id].source, cutoff))
                  && (forall id | id in w'.memories :: w'.memories[id] == w.memories[id])
                  && (forall id :: id in w'.skills <==> id in w.skills && !Obsolete(e, w, w.skills[id].source, cutoff))
                  && (forall id | id in w'.skills :: w'.skills[id] == w.skills[id])
                  && (forall ev :: multiset(w'.evaluations)[ev] ==
                                   if ev.skill in w'.skills && ev.caseId in w'.cases then multiset(w.evaluations)[ev] else 0))
  {
    RefusedMeansBroken(e, w, cutoff);
    forall c ensures Sweepable(e, w, c, cutoff) <==> Obsolete(e, w, c, cutoff) {
      SweepableMeansObsolete(e, w, c, cutoff);
    }
    var w' := Sweep(e, w, cutoff).0;
    if !SweepRefused(e, w, cutoff) {
      forall ev ensures multiset(w'.evaluations)[ev] == if ev.skill in w'.skills && ev.caseId in w'.cases then multiset(w.evaluations)[ev] else 0 {
        KeptCounts(w.evaluations, w'.skills, w'.cases, ev);
      }
    }
  }
}
