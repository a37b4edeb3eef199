/** Supersession: chains are finite, stay within one scope and never return, as long as no row goes by two names. */
module SentinelForest {
  import opened Common
  import opened Sentinel
  import opened SentinelMemory

  type Ranks = map<nat, nat>

  /** Ranks that strictly grow along every supersession link between superseded memories. */
  ghost predicate Ranked(memories: map<nat, Memory>, ranks: Ranks, bound: nat) {
    forall id | id in memories && memories[id].supersededBy.Some? ::
      && id in ranks && ranks[id] < bound
      && var t := memories[id].supersededBy.value;
         && t in memories && memories[t].scope == memories[id].scope
         && (memories[t].supersededBy.Some? ==> t in ranks && ranks[id] < ranks[t])
  }

  ghost predicate Forest(memories: map<nat, Memory>) {
    exists ranks: Ranks, bound: nat :: Ranked(memories, ranks, bound)
  }

  // ---- What a forest means ------------------------------------------------------------

  /** The memory reached from `id` after k supersession links. */
  function Follow(memories: map<nat, Memory>, id: nat, k: nat): Option<nat>
    decreases k
  {
    if id !in memories then None
    else if k == 0 then Some(id)
    else if memories[id].supersededBy.None? then None
    else Follow(memories, memories[id].supersededBy.value, k - 1)
  }

  lemma {:induction false} RanksGrow(memories: map<nat, Memory>, ranks: Ranks, bound: nat, id: nat, k: nat)
    requires Ranked(memories, ranks, bound) && id in memories && Follow(memories, id, k).Some?
    ensures var t := Follow(memories, id, k).value;
            && t in memories && memories[t].scope == memories[id].scope
            && (k > 0 ==> id in ranks)
            && (k > 0 && memories[t].supersededBy.Some? ==> t in ranks && ranks[id] + k <= ranks[t])
    decreases k
  {
    if k > 0 {
      RanksGrow(memories, ranks, bound, memories[id].supersededBy.value, k - 1);
    }
  }

  /** In a forest every chain ends, never comes back, and keeps one scope. */
  lemma ForestChains(memories: map<nat, Memory>, id: nat)
    requires Forest(memories) && id in memories
    ensures exists n: nat :: Follow(memories, id, n).None?
    ensures forall k: nat | k > 0 :: Follow(memories, id, k) != Some(id)
    ensures forall k: nat | Follow(memories, id, k).Some? ::
              Follow(memories, id, k).value in memories && memories[Follow(memories, id, k).value].scope == memories[id].scope
  {
    var ranks: Ranks, bound: nat :| Ranked(memories, ranks, bound);
    forall k: nat | Follow(memories, id, k).Some?
      ensures Follow(memories, id, k).value in memories && memories[Follow(memories, id, k).value].scope == memories[id].scope
      ensures k > 0 ==> Follow(memories, id, k) != Some(id)
    {
      RanksGrow(memories, ranks, bound, id, k);
    }
    LongChainsEnd(memories, ranks, bound, id);
  }

  lemma {:induction false} FollowMore(memories: map<nat, Memory>, id: nat, k: nat)
    ensures Follow(memories, id, k + 1) ==
            var t := Follow(memories, id, k);
            if t.None? || t.value !in memories || memories[t.value].supersededBy.None? then None else Follow(memories, memories[t.value].supersededBy.value, 0)
    decreases k
  {
    if id in memories && k > 0 && memories[id].supersededBy.Some? {
      FollowMore(memories, memories[id].supersededBy.value, k - 1);
    }
  }

  lemma LongChainsEnd(memories: map<nat, Memory>, ranks: Ranks, bound: nat, id: nat)
    requires Ranked(memories, ranks, bound) && id in memories
    ensures Follow(memories, id, bound + 2).None?
  {
    FollowMore(memories, id, bound + 1);
    if Follow(memories, id, bound + 2).Some? {
      RanksGrow(memories, ranks, bound, id, bound + 1);
    }
  }

  // ---- Links are added one at a time ------------------------------------------------------

  lemma LinkKeepsForest(memories: map<nat, Memory>, a: nat, b: nat)
    requires Forest(memories) && a in memories && b in memories && a != b
    requires memories[a].supersededBy.None? && memories[b].supersededBy.None? && memories[a].scope == memories[b].scope
    ensures Forest(memories[a := memories[a].(state := Superseded, supersededBy := Some(b))])
  {
    var ranks: Ranks, bound: nat :| Ranked(memories, ranks, bound);
    var linked := memories[a := memories[a].(state := Superseded, supersededBy := Some(b))];
    assert Ranked(linked, ranks[a := bound], bound + 1);
  }

  lemma LoopIsNoForest(memories: map<nat, Memory>, id: nat)
    requires id in memories && memories[id].supersededBy == Some(id)
    ensures !Forest(memories)
  {
    forall ranks: Ranks, bound: nat ensures !Ranked(memories, ranks, bound) {
    }
  }

  /**
   * One supersession keeps the forest if and only if the two ids name different
   * rows. The code compares the ids as texts, so two spellings of one id pass.
   */
  lemma SupersedeKeepsForestExactly(e: Env, w: World, oldText: string, newText: string)
    requires MemoriesOk(w) && Forest(w.memories) && Supersede(e, w, oldText, newText).1.Ok?
    ensures Forest(Supersede(e, w, oldText, newText).0.memories) <==> e.rowOf(oldText) != e.rowOf(newText)
  {
    var a, b := FindRow(e, w.memories, oldText).value, FindRow(e, w.memories, newText).value;
    if a != b {
      LinkKeepsForest(w.memories, a, b);
    } else {
      LoopIsNoForest(Supersede(e, w, oldText, newText).0.memories, a);
    }
  }

  // ---- Every run --------------------------------------------------------------------------------

  /** No call names one memory by two different texts. */
  predicate OneNameEach(e: Env, c: Call) {
    c.OnMemory? && c.memoryCall.CallSupersede? && e.rowOf(c.memoryCall.oldId) == e.rowOf(c.memoryCall.newId)
    ==> c.memoryCall.oldId == c.memoryCall.newId
  }

  /** The same links: nothing new is superseded, and links are kept or removed with their memory. */
  ghost predicate SameLinks(a: map<nat, Memory>, b: map<nat, Memory>) {
    && (forall id | id in b && b[id].supersededBy.Some? ::
          && id in a && a[id].supersededBy == b[id].supersededBy && a[id].scope == b[id].scope
          && b[id].supersededBy.value in b)
    && (forall id | id in b && id in a :: b[id].scope == a[id].scope && b[id].supersededBy == a[id].supersededBy)
  }

  lemma SameLinksKeepForest(a: map<nat, Memory>, b: map<nat, Memory>)
    requires Forest(a) && SameLinks(a, b)
    ensures Forest(b)
  {
    var ranks: Ranks, bound: nat :| Ranked(a, ranks, bound);
    assert Ranked(b, ranks, bound);
  }

  lemma AddingKeepsLinks(w: World, m: Memory)
    requires MemoriesOk(w) && ForeignKeys(w) && m.supersededBy.None?
    ensures SameLinks(w.memories, w.memories[w.nextId := m])
  {
  }

  lemma CreateKeepsLinks(e: Env, w: World, input: MemoryInput)
    requires MemoriesOk(w) && ForeignKeys(w)
    ensures SameLinks(w.memories, CreateMemory(e, w, input).0.memories)
  {
    var w' := CreateMemory(e, w, input).0;
    if w' != w {
      AddingKeepsLinks(w, w'.memories[w.nextId]);
    } else {
      UnchangedLinks(w);
    }
  }

  lemma UnchangedLinks(w: World)
    requires ForeignKeys(w)
    ensures SameLinks(w.memories, w.memories)
  {
  }

  lemma ExpireKeepsLinks(w: World)
    requires ForeignKeys(w)
    ensures SameLinks(w.memories, ExpireMemories(w).memories)
  {
  }

  lemma OtherMemoryCallsKeepLinks(e: Env, w: World, c: MemoryCall)
    requires MemoriesOk(w) && ForeignKeys(w) && !c.CallSupersede?
    ensures SameLinks(w.memories, StepMemory(e, w, c).memories)
  {
    if c.CallCreate? {
      CreateKeepsLinks(e, w, c.input);
    } else if c.CallExpire? {
      ExpireKeepsLinks(w);
    } else {
      var row := FindRow(e, w.memories, c.id);
      var w' := StepMemory(e, w, c);
      if w' != w {
        assert w'.memories == w.memories[row.value := w'.memories[row.value]];
      } else {
        UnchangedLinks(w);
      }
    }
  }

  lemma StepKeepsForest(e: Env, w: World, c: Call)
    requires MemoriesOk(w) && ForeignKeys(w) && Forest(w.memories) && OneNameEach(e, c)
    ensures Forest(Step(e, w, c).memories)
  {
    match c
    case OnMemory(call) =>
      if !call.CallSupersede? {
        OtherMemoryCallsKeepLinks(e, w, call);
        SameLinksKeepForest(w.memories, Step(e, w, c).memories);
      } else if Supersede(e, w, call.oldId, call.newId).1.Ok? {
        SupersedeKeepsForestExactly(e, w, call.oldId, call.newId);
      }
    case OnSkill(call) => SkillCallKeeps(e, w, call);
    case CallSweep(cutoff) =>
      SweepKeeps(e, w, cutoff);
      SameLinksKeepForest(w.memories, Step(e, w, c).memories);
    case _ =>
  }

  /**
   * In every run in which no call names one memory by two texts, supersession
   * is a forest: links sit exactly on SUPERSEDED memories, every chain is
   * finite and never returns, and all its memories share one scope.
   */
  lemma {:induction false} SupersessionStaysForest(e: Env, w: World, calls: seq<Call>)
    requires MemoriesOk(w) && ForeignKeys(w) && Forest(w.memories)
    requires forall c | c in calls :: OneNameEach(e, c)
    ensures Forest(Run(e, w, calls).memories)
    ensures forall id | id in Run(e, w, calls).memories ::
              Run(e, w, calls).memories[id].supersededBy.Some? <==> Run(e, w, calls).memories[id].state.Superseded?
    decreases calls
  {
    if calls != [] {
      assert calls[0] in calls;
      StepKeeps(e, w, calls[0]);
      StepKeepsForest(e, w, calls[0]);
      SupersessionStaysForest(e, Step(e, w, calls[0]), calls[1..]);
    }
  }

  // ---- Two spellings of one id ---------------------------------------------------------------------

  /** A memory supersedes itself when its id is passed in two spellings. */
  lemma SelfSupersession(e: Env, w: World, id: nat, spelling: string)
    requires EnvOk(e) && MemoriesOk(w) && id in w.memories && w.memories[id].state.Validated?
    requires e.rowOf(spelling) == Some(id) && spelling != e.idText(id)
    ensures var w' := Step(e, w, OnMemory(CallSupersede(e.idText(id), spelling)));
            id in w'.memories && w'.memories[id].supersededBy == Some(id) && !Forest(w'.memories)
  {
    assert e.rowOf(e.idText(id)) == Some(id);
    LoopIsNoForest(Step(e, w, OnMemory(CallSupersede(e.idText(id), spelling))).memories, id);
  }

  // ---- References in another spelling --------------------------------------------------------------

  /** A case cited only in another spelling is swept although a live memory cites it. */
  lemma OtherSpellingIsNotProtected(e: Env, w: World, id: nat, r: Ref, c: nat, cutoff: int)
    requires id in w.memories && Live(w, w.memories[id]) && r in w.memories[id].evidence && e.rowOf(r.caseText) == Some(c)
    requires c in w.cases && w.cases[c].resolvedAt.Some? && w.cases[c].resolvedAt.value < cutoff
    requires Sweep(e, w, cutoff).1.Ok?
    ensures var w' := Sweep(e, w, cutoff).0;
            && id in w'.memories
            && (c in w'.cases <==>
                  || (exists m | m in w.memories && Live(w, w.memories[m]) :: Cites(e, w.memories[m], c))
                  || (exists s | s in w.skills && Active(w.skills[s]) :: w.skills[s].source == c))
  {
    SweepSparesLiveMemories(e, w, cutoff, id);
  }

  function SpellingRun(e: Env, spelling: string): seq<Call> {
    [ OpenCase(CaseRow("", "", [], 0, None, "")),
      OpenCase(CaseRow("", "", [Record("r", "t", None)], 0, Some(0), "")),
      OnMemory(CallCreate(MemoryInput(e.idText(0), "s", Scope("", ""), 0.5, 1, [Ref(spelling, "r")], []))),
      CallSweep(1) ]
  }

  lemma UniqueOne(r: Ref)
    requires IsComplete(r)
    ensures UniqueRefs([r]) == [r] && UniqueRefs([]) == []
  {
    assert [r][..0] == [] && FirstRefs([]) == [];
    assert [] + [r] == [r] && FirstRefs([r]) == [r];
    assert [r][1..] == [] && SortRefs([]) == [] && InsertRef(r, []) == [r] + [] == [r];
  }

  /** A reachable state: the live memory's evidence names a case that the sweep removed. */
  lemma SpellingLosesItsCase(e: Env, spelling: string)
    requires EnvOk(e) && e.rowOf(spelling) == Some(1) && spelling != e.idText(1) && spelling != ""
    ensures var w := Run(e, EMPTY, SpellingRun(e, spelling));
            2 in w.memories && Live(w, w.memories[2]) && Ref(spelling, "r") in w.memories[2].evidence && 1 !in w.cases
  {
    var calls := SpellingRun(e, spelling);
    var w1 := Step(e, EMPTY, calls[0]);
    var w2 := Step(e, w1, calls[1]);
    SpellingMemory(e, spelling, w2);
    var w3 := Step(e, w2, calls[2]);
    var w4 := Step(e, w3, calls[3]);
    assert calls[1..][0] == calls[1] && calls[1..][1..] == calls[2..] && calls[2..][1..] == calls[3..] && calls[3..][1..] == [];
    assert Run(e, w3, calls[3..]) == w4;
    assert Run(e, w2, calls[2..]) == w4;
    assert Run(e, w1, calls[1..]) == w4;
  }

  lemma SpellingMemory(e: Env, spelling: string, w: World)
    requires EnvOk(e) && e.rowOf(spelling) == Some(1) && spelling != ""
    requires w.now == 0 && w.nextId == 2 && w.memories == map[] && w.skills == map[]
    requires w.cases == map[0 := CaseRow("", "", [], 0, None, ""), 1 := CaseRow("", "", [Record("r", "t", None)], 0, Some(0), "")]
    ensures var w' := Step(e, w, SpellingRun(e, spelling)[2]);
            && w'.memories == map[2 := Memory(0, "s", Scope("", ""), Candidate, [Ref(spelling, "r")], [], HOUR, None)]
            && w'.cases == w.cases && w'.now == 0 && w'.skills == map[] && w'.evaluations == w.evaluations
  {
    var r := Ref(spelling, "r");
    UniqueOne(r);
    assert e.rowOf(e.idText(0)) == Some(0);
    assert w.cases[1].records[0].id == "r";
    assert RefHolds(e, w, Scope("", ""), r);
    assert FindClaim(w, 0, "s", 2) == None by {
      assert FindClaim(w, 0, "s", 1) == None;
    }
  }

  // ---- A link that blocks the sweep ------------------------------------------------------------------

  /** Memory `id` was superseded by t, and its case is not resolved. */
  ghost predicate KeptLink(w: World, id: nat, t: nat) {
    && MemoriesOk(w) && ForeignKeys(w)
    && id in w.memories && w.memories[id].supersededBy == Some(t)
    && w.cases[w.memories[id].source].resolvedAt.None?
  }

  /** The call does not resolve the case. */
  predicate LeavesOpen(c: Call, caseId: nat) {
    c.EditCase? && c.caseId == caseId ==> c.row.resolvedAt.None?
  }

  /** The case deletion is one statement: while the link stays and the successor's case is due, it deletes nothing. */
  lemma KeptLinkBlocksTheSweep(e: Env, w: World, id: nat, t: nat, cutoff: int)
    requires KeptLink(w, id, t) && Sweepable(e, w, w.memories[t].source, cutoff)
    ensures Step(e, w, CallSweep(cutoff)) == w
  {
    assert !Swept(e, w, id, cutoff) && Swept(e, w, t, cutoff);
  }

  lemma LinkStep(e: Env, w: World, id: nat, t: nat, c: Call)
    requires KeptLink(w, id, t) && LeavesOpen(c, w.memories[id].source)
    ensures var w' := Step(e, w, c);
            && KeptLink(w', id, t) && w'.memories[id] == w.memories[id]
            && t in w'.memories && w'.memories[t].source == w.memories[t].source
  {
    StepKeeps(e, w, c);
    match c
    case OnMemory(call) => MemoriesStay(e, w, call);
    case OnSkill(call) => SkillCallKeeps(e, w, call);
    case CallSweep(cutoff) =>
    case _ =>
  }

  lemma MemoriesStay(e: Env, w: World, c: MemoryCall)
    ensures w.memories.Keys <= StepMemory(e, w, c).memories.Keys && StepMemory(e, w, c).cases == w.cases
  {
  }

  /**
   * As long as the superseded memory's case stays unresolved, in every run the
   * link and both memories stay, the successor's case is never deleted, and
   * every sweep that would delete it deletes no case at all.
   */
  lemma {:induction false} LinkBlocksEverySweep(e: Env, w: World, calls: seq<Call>, id: nat, t: nat)
    requires KeptLink(w, id, t)
    requires forall c | c in calls :: LeavesOpen(c, w.memories[id].source)
    ensures var later := Run(e, w, calls);
            && KeptLink(later, id, t) && later.memories[id] == w.memories[id]
            && later.memories[t].source == w.memories[t].source
            && w.memories[t].source in later.cases
            && forall cutoff | Sweepable(e, later, w.memories[t].source, cutoff) :: Step(e, later, CallSweep(cutoff)) == later
    decreases calls
  {
    if calls == [] {
      forall cutoff | Sweepable(e, w, w.memories[t].source, cutoff) ensures Step(e, w, CallSweep(cutoff)) == w {
        KeptLinkBlocksTheSweep(e, w, id, t, cutoff);
      }
    } else {
      assert calls[0] in calls;
      LinkStep(e, w, id, t, calls[0]);
      LinkBlocksEverySweep(e, Step(e, w, calls[0]), calls[1..], id, t);
    }
  }
}
