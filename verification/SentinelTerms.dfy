/**
 * What a memory is worth over whole runs: what a candidate starts from, how
 * long it lives, what its validation checked, and that no claim lives twice.
 */
module SentinelTerms {
  import opened Common
  import opened Sentinel
  import opened SentinelMemory

  // ---- Reference lists --------------------------------------------------------

  ghost predicate DistinctKeys(refs: seq<Ref>) {
    forall i, j | 0 <= i < j < |refs| :: Key(refs[i]) != Key(refs[j])
  }

  ghost predicate HasKey(refs: seq<Ref>, key: string) {
    exists i | 0 <= i < |refs| :: Key(refs[i]) == key
  }

  lemma {:induction false} FirstOfEachKey(refs: seq<Ref>)
    ensures DistinctKeys(FirstRefs(refs))
    ensures forall i | 0 <= i < |refs| && IsComplete(refs[i]) :: HasKey(FirstRefs(refs), Key(refs[i]))
    decreases |refs|
  {
    if refs != [] {
      var n := |refs| - 1;
      FirstOfEachKey(refs[..n]);
      forall i | 0 <= i < |refs| && IsComplete(refs[i]) ensures HasKey(FirstRefs(refs), Key(refs[i])) {
        if i < n {
          assert refs[..n][i] == refs[i];
          var k :| 0 <= k < |FirstRefs(refs[..n])| && Key(FirstRefs(refs[..n])[k]) == Key(refs[i]);
          assert FirstRefs(refs)[k] == FirstRefs(refs[..n])[k];
        } else {
          var front := FirstRefs(refs[..n]);
          assert FirstRefs(refs) == front + [refs[n]] ==> Key(FirstRefs(refs)[|front|]) == Key(refs[n]);
        }
      }
    }
  }

  ghost function Keys(refs: seq<Ref>): multiset<string> {
    if refs == [] then multiset{} else multiset{Key(refs[0])} + Keys(refs[1..])
  }

  lemma {:induction false} KeysOfInserted(r: Ref, sorted: seq<Ref>)
    ensures Keys(InsertRef(r, sorted)) == multiset{Key(r)} + Keys(sorted)
    decreases sorted
  {
    if sorted != [] && RefLess(sorted[0], r) {
      KeysOfInserted(r, sorted[1..]);
    } else {
      assert ([r] + sorted)[1..] == sorted;
    }
  }

  lemma {:induction false} KeysOfSorted(refs: seq<Ref>)
    ensures Keys(SortRefs(refs)) == Keys(refs)
    decreases refs
  {
    if refs != [] {
      KeysOfSorted(refs[1..]);
      KeysOfInserted(refs[0], SortRefs(refs[1..]));
    }
  }

  lemma {:induction false} KeysAre(refs: seq<Ref>, key: string)
    ensures key in Keys(refs) <==> HasKey(refs, key)
    ensures DistinctKeys(refs) ==> Keys(refs)[key] <= 1
    decreases refs
  {
    if refs != [] {
      var rest := refs[1..];
      KeysAre(rest, key);
      if i :| 0 <= i < |rest| && Key(rest[i]) == key {
        assert Key(refs[i + 1]) == key;
      }
      if i :| 0 < i < |refs| && Key(refs[i]) == key {
        assert Key(rest[i - 1]) == key;
      }
      if DistinctKeys(refs) && Key(refs[0]) == key {
        assert !HasKey(rest, key);
      }
    }
  }

  lemma {:induction false} SingleKeysAreDistinct(refs: seq<Ref>)
    requires forall key :: Keys(refs)[key] <= 1
    ensures DistinctKeys(refs)
    decreases refs
  {
    if refs != [] {
      var rest := refs[1..];
      assert forall key :: Keys(rest)[key] <= Keys(refs)[key];
      SingleKeysAreDistinct(rest);
      KeysAre(rest, Key(refs[0]));
      forall i, j | 0 <= i < j < |refs| ensures Key(refs[i]) != Key(refs[j]) {
        if i > 0 {
          assert refs[i] == rest[i - 1] && refs[j] == rest[j - 1];
        } else {
          assert Key(rest[j - 1]) == Key(refs[j]);
        }
      }
    }
  }

  /** The stored list has one reference for every key that was given, and no key twice. */
  lemma UniqueRefsKeepEveryKey(refs: seq<Ref>)
    ensures DistinctKeys(UniqueRefs(refs))
    ensures forall i | 0 <= i < |refs| && IsComplete(refs[i]) :: HasKey(UniqueRefs(refs), Key(refs[i]))
  {
    FirstOfEachKey(refs);
    KeysOfSorted(FirstRefs(refs));
    forall key ensures Keys(UniqueRefs(refs))[key] <= 1 {
      KeysAre(FirstRefs(refs), key);
    }
    SingleKeysAreDistinct(UniqueRefs(refs));
    forall i | 0 <= i < |refs| && IsComplete(refs[i]) ensures HasKey(UniqueRefs(refs), Key(refs[i])) {
      KeysAre(FirstRefs(refs), Key(refs[i]));
      KeysAre(UniqueRefs(refs), Key(refs[i]));
    }
  }

  ghost predicate Tidy(refs: seq<Ref>) {
    DistinctKeys(refs) && forall r | r in refs :: IsComplete(r)
  }

  lemma {:induction false} TidyStays(refs: seq<Ref>)
    requires Tidy(refs)
    ensures FirstRefs(refs) == refs
    decreases |refs|
  {
    if refs != [] {
      var n := |refs| - 1;
      TidyStays(refs[..n]);
      assert refs[n] in refs;
      assert refs == refs[..n] + [refs[n]];
    }
  }

  /** Sorting a tidy list again neither adds nor drops a reference. */
  lemma TidyIsRechecked(refs: seq<Ref>, r: Ref)
    requires Tidy(refs)
    ensures r in UniqueRefs(refs) <==> r in refs
  {
    TidyStays(refs);
    SortKeepsRefs(refs);
    assert r in UniqueRefs(refs) <==> r in multiset(UniqueRefs(refs));
    assert r in refs <==> r in multiset(refs);
  }

  lemma ColonSeparates(a: string, x: string, b: string, y: string)
    requires ':' !in a && ':' !in b && a + ":" + x == b + ":" + y
    ensures a == b && x == y
  {
    CutFirst(a, ':', x);
    CutFirst(b, ':', y);
  }

  /**
   * As long as no case text has a colon, as in a UUID, the stored list holds
   * exactly the complete references that were given.
   */
  lemma UniqueRefsAreAll(refs: seq<Ref>, r: Ref)
    requires forall x | x in refs :: ':' !in x.caseText
    ensures r in UniqueRefs(refs) <==> r in refs && IsComplete(r)
  {
    UniqueRefsAreRefs(refs);
    UniqueRefsKeepEveryKey(refs);
    if r in refs && IsComplete(r) {
      var i :| 0 <= i < |refs| && refs[i] == r;
      var unique := UniqueRefs(refs);
      assert HasKey(unique, Key(refs[i]));
      var k :| 0 <= k < |unique| && Key(unique[k]) == Key(r);
      assert unique[k] in unique && unique[k] in refs;
      ColonSeparates(unique[k].caseText, unique[k].evidence, r.caseText, r.evidence);
      assert unique[k] == r;
    }
  }

  /** Ordered by case text, then by evidence. */
  ghost predicate InRefOrder(a: Ref, b: Ref) {
    LexLess(a.caseText, b.caseText) || (a.caseText == b.caseText && !LexLess(b.evidence, a.evidence))
  }

  ghost predicate Ordered(refs: seq<Ref>) {
    forall i, j | 0 <= i < j < |refs| :: InRefOrder(refs[i], refs[j])
  }

  lemma OrderIsTransitive(a: Ref, b: Ref, c: Ref)
    requires InRefOrder(a, b) && InRefOrder(b, c)
    ensures InRefOrder(a, c)
  {
    LexLessIrreflexive(a.caseText);
    LexLessIrreflexive(b.caseText);
    if a.caseText == b.caseText == c.caseText {
      if LexLess(c.evidence, a.evidence) {
        LexLessTotal(a.evidence, b.evidence);
        LexLessTotal(b.evidence, c.evidence);
        if a.evidence != b.evidence {
          LexLessTransitive(c.evidence, a.evidence, b.evidence);
        }
      }
    } else if a.caseText != b.caseText && b.caseText != c.caseText {
      LexLessTransitive(a.caseText, b.caseText, c.caseText);
    }
  }

  lemma LessMeansOrder(a: Ref, b: Ref)
    ensures RefLess(a, b) ==> InRefOrder(a, b)
    ensures !RefLess(a, b) ==> InRefOrder(b, a)
  {
    LexLessTotal(a.caseText, b.caseText);
    LexLessTotal(a.evidence, b.evidence);
    if LexLess(a.evidence, b.evidence) && LexLess(b.evidence, a.evidence) {
      LexLessTransitive(a.evidence, b.evidence, a.evidence);
    }
    LexLessIrreflexive(a.evidence);
  }

  lemma {:induction false} InsertionKeepsOrder(r: Ref, sorted: seq<Ref>)
    requires Ordered(sorted)
    ensures Ordered(InsertRef(r, sorted)) && forall x :: x in InsertRef(r, sorted) <==> x == r || x in sorted
    decreases sorted
  {
    if sorted != [] {
      var first, rest := sorted[0], sorted[1..];
      LessMeansOrder(first, r);
      if RefLess(first, r) {
        InsertionKeepsOrder(r, rest);
        var inserted := InsertRef(r, rest);
        forall x | x in inserted ensures InRefOrder(first, x) {
          if x in rest {
            var k :| 0 <= k < |rest| && rest[k] == x;
            assert sorted[k + 1] == x;
          }
        }
        assert sorted == [first] + rest;
      } else {
        forall x | x in sorted ensures InRefOrder(r, x) {
          var k :| 0 <= k < |sorted| && sorted[k] == x;
          if k > 0 {
            OrderIsTransitive(r, first, x);
          }
        }
      }
    }
  }

  /** The stored list is sorted. */
  lemma {:induction false} SortedRefsAreOrdered(refs: seq<Ref>)
    ensures Ordered(SortRefs(refs))
    decreases refs
  {
    if refs != [] {
      SortedRefsAreOrdered(refs[1..]);
      InsertionKeepsOrder(refs[0], SortRefs(refs[1..]));
    }
  }

  /** A reference holds exactly when its case exists within the scope and has evidence of that name; a case without a device suits any. */
  lemma RefHoldsExactly(e: Env, w: World, scope: Scope, r: Ref)
    requires r.evidence != ""
    ensures RefHolds(e, w, scope, r) <==>
            exists c :: && e.rowOf(r.caseText) == Some(c) && c in w.cases
                        && (scope.site == "" || scope.site == w.cases[c].site)
                        && (scope.device == "" || w.cases[c].device == "" || scope.device == w.cases[c].device)
                        && exists record :: record in w.cases[c].records && record.id == r.evidence
  {
    if e.rowOf(r.caseText).Some? && e.rowOf(r.caseText).value in w.cases {
      var records := w.cases[e.rowOf(r.caseText).value].records;
      if record :| record in records && record.id == r.evidence {
        var i :| 0 <= i < |records| && records[i] == record;
      }
      if i :| 0 <= i < |records| && records[i].id == r.evidence {
        assert records[i] in records;
      }
    }
  }

  // ---- How a memory starts, and how long it lives -------------------------------

  /** Thirty days unless the caller asks for less than a year. */
  function Hours(asked: int): int { if asked <= 0 then 720 else asked }

  ghost predicate LiveClaim(w: World, id: nat, source: nat, statement: string) {
    && id in w.memories && w.memories[id].source == source && w.memories[id].statement == statement
    && w.memories[id].state in {Candidate, Validated} && w.memories[id].expiresAt > w.now
  }

  lemma {:induction false} FindClaimFinds(w: World, source: nat, statement: string, n: nat)
    ensures var found := FindClaim(w, source, statement, n);
            && (found.Some? ==> found.value < n && LiveClaim(w, found.value, source, statement))
            && (found.None? ==> forall id: nat | id < n :: !LiveClaim(w, id, source, statement))
    decreases n
  {
    if n > 0 {
      FindClaimFinds(w, source, statement, n - 1);
    }
  }

  /** A new candidate: of this case and statement, scoped to the case, with the given evidence, for the asked hours. */
  ghost predicate Starts(e: Env, w: World, input: MemoryInput, m: Memory) {
    && e.rowOf(input.sourceText) == Some(m.source) && m.source in w.cases
    && m.statement == input.statement && m.scope == Scope(w.cases[m.source].site, w.cases[m.source].device)
    && m.state == Candidate && m.supersededBy == None
    && m.expiresAt == w.now + Hours(input.ttlHours) * 3_600_000_000
    && m.evidence == UniqueRefs(input.evidence) && m.counter == UniqueRefs(input.counter)
    && m.evidence != [] && RefsHold(e, w, m.scope, m.evidence) && RefsHold(e, w, m.scope, m.counter)
  }

  /**
   * An accepted claim is either already live, and then nothing changes, or
   * starts a new candidate.
   */
  lemma CreatedMemoryIs(e: Env, w: World, input: MemoryInput)
    requires CreateMemory(e, w, input).1.Ok? && MemoriesOk(w)
    ensures var (w', r) := CreateMemory(e, w, input);
            var source := e.rowOf(input.sourceText);
            && source.Some?
            && if exists id :: LiveClaim(w, id, source.value, input.statement)
               then w' == w && LiveClaim(w, r.value, source.value, input.statement)
               else && r.value == w.nextId && w.nextId in w'.memories
                    && w' == w.(nextId := w.nextId + 1, memories := w.memories[w.nextId := w'.memories[w.nextId]])
                    && Starts(e, w, input, w'.memories[w.nextId])
  {
    FindClaimFinds(w, e.rowOf(input.sourceText).value, input.statement, w.nextId);
  }

  /** The evidence may be stored: references are given when needed, and all of them hold. */
  ghost predicate EvidenceHolds(e: Env, w: World, scope: Scope, refs: seq<Ref>) {
    forall r | r in UniqueRefs(refs) :: RefHolds(e, w, scope, r)
  }

  /**
   * A claim is accepted exactly when its statement, confidence and asked life
   * are within bounds, its case exists and fits the asked scope, at least one
   * reference is given, and all evidence for and against it holds.
   */
  lemma CreationAcceptedExactly(e: Env, w: World, input: MemoryInput)
    ensures CreateMemory(e, w, input).1.Ok? <==>
            && 0 < |input.statement| <= 4000 && 0.0 <= input.confidence <= 1.0 && input.ttlHours <= 8760
            && exists c :: && e.rowOf(input.sourceText) == Some(c) && c in w.cases
                           && (input.scope.site == "" || input.scope.site == w.cases[c].site)
                           && (input.scope.device == "" || input.scope.device == w.cases[c].device)
                           && UniqueRefs(input.evidence) != []
                           && EvidenceHolds(e, w, Scope(w.cases[c].site, w.cases[c].device), input.evidence)
                           && EvidenceHolds(e, w, Scope(w.cases[c].site, w.cases[c].device), input.counter)
  {
    if e.rowOf(input.sourceText).Some? && e.rowOf(input.sourceText).value in w.cases {
      var c := w.cases[e.rowOf(input.sourceText).value];
      RefsHoldAll(e, w, Scope(c.site, c.device), UniqueRefs(input.evidence));
      RefsHoldAll(e, w, Scope(c.site, c.device), UniqueRefs(input.counter));
    }
  }

  lemma {:induction false} GoneStaysGone(e: Env, w: World, calls: seq<Call>, id: nat)
    requires MemoriesOk(w) && ForeignKeys(w) && id !in w.memories && id < w.nextId
    ensures id !in Run(e, w, calls).memories
    decreases calls
  {
    if calls != [] {
      StepKeeps(e, w, calls[0]);
      GoneStaysGone(e, Step(e, w, calls[0]), calls[1..], id);
    }
  }

  lemma {:induction false} ExpiryIsFixed(e: Env, w: World, calls: seq<Call>, id: nat)
    requires MemoriesOk(w) && ForeignKeys(w) && id in w.memories
    ensures var w' := Run(e, w, calls); id in w'.memories ==> w'.memories[id].expiresAt == w.memories[id].expiresAt
    decreases calls
  {
    if calls != [] {
      var w1 := Step(e, w, calls[0]);
      StepKeeps(e, w, calls[0]);
      if id in w1.memories {
        ExpiryIsFixed(e, w1, calls[1..], id);
      } else {
        GoneStaysGone(e, w1, calls[1..], id);
      }
    }
  }

  /** Whatever happens to it, a memory lives until its hours have passed since it was created, and not longer. */
  lemma MemoryLivesItsHours(e: Env, w: World, input: MemoryInput, calls: seq<Call>)
    requires MemoriesOk(w) && ForeignKeys(w) && CreateMemory(e, w, input).1 == Ok(w.nextId)
    ensures var later := Run(e, CreateMemory(e, w, input).0, calls);
            w.nextId in later.memories ==>
              (Live(later, later.memories[w.nextId]) <==>
               && later.memories[w.nextId].state in {Candidate, Validated}
               && later.now < w.now + Hours(input.ttlHours) * 3_600_000_000)
  {
    CreatedMemoryIs(e, w, input);
    CreateKeeps(e, w, input);
    ExpiryIsFixed(e, CreateMemory(e, w, input).0, calls, w.nextId);
  }

  /** After an expiry pass no candidate and no trusted memory is overdue. */
  lemma ExpiryLeavesNoneOverdue(w: World, id: nat)
    requires id in w.memories
    ensures var m, m' := w.memories[id], ExpireMemories(w).memories[id];
            && (m'.state in {Candidate, Validated} ==> m'.expiresAt > w.now)
            && (m' == m || (m' == m.(state := Expired) && m.state in {Candidate, Validated} && m.expiresAt <= w.now))
  {
  }

  // ---- What trust and its loss rest on ------------------------------------------------------

  ghost predicate TidyEvidence(w: World) {
    forall id | id in w.memories :: Tidy(w.memories[id].evidence)
  }

  /** Validation saw a live candidate without counter-evidence, every reference of which held. */
  ghost predicate Checked(e: Env, w: World, m: Memory) {
    && m.state == Candidate && m.expiresAt > w.now && m.counter == []
    && m.evidence != [] && forall r | r in m.evidence :: RefHolds(e, w, m.scope, r)
  }

  /** Superseding links to another text for a VALIDATED memory of the same scope. */
  ghost predicate Replaced(w: World, m: Memory, m': Memory) {
    && m.state == Validated && m.supersededBy == None && m'.supersededBy.Some?
    && var t := m'.supersededBy.value;
       t in w.memories && w.memories[t].state == Validated && w.memories[t].scope == m.scope
  }

  /** The edges of a memory's life, each with what it rests on. */
  ghost predicate Edge(e: Env, w: World, m: Memory, m': Memory) {
    || m' == m
    || (m' == m.(state := Validated) && Checked(e, w, m))
    || (m' == m.(state := MemoryRejected) && m.state == Candidate)
    || (m' == m.(state := Expired) && m.state in {Candidate, Validated} && m.expiresAt <= w.now)
    || (m' == m.(state := Superseded, supersededBy := m'.supersededBy) && Replaced(w, m, m'))
    || (m' == m.(state := Candidate, counter := m'.counter) && m.state in {Candidate, Validated} && AllKept(m.counter, m'.counter) && m'.counter != [])
  }

  /** No reference is forgotten, up to its key. */
  ghost predicate AllKept(before: seq<Ref>, after: seq<Ref>) {
    forall i | 0 <= i < |before| && IsComplete(before[i]) :: HasKey(after, Key(before[i]))
  }

  lemma CounterIsKept(counter: seq<Ref>, more: seq<Ref>)
    ensures AllKept(counter, UniqueRefs(counter + more))
  {
    var all := counter + more;
    UniqueRefsKeepEveryKey(all);
    forall i | 0 <= i < |counter| && IsComplete(counter[i]) ensures HasKey(UniqueRefs(all), Key(counter[i])) {
      assert all[i] == counter[i];
    }
  }

  lemma ValidationEdge(e: Env, w: World, text: string, id: nat)
    requires id in w.memories && Tidy(w.memories[id].evidence) && MemoryOk(w.memories[id])
    ensures var w' := ValidateMemory(e, w, text).0; id in w'.memories && Edge(e, w, w.memories[id], w'.memories[id])
  {
    var m := w.memories[id];
    if ValidateMemory(e, w, text).1.Ok? && FindRow(e, w.memories, text) == Some(id) {
      var unique := UniqueRefs(m.evidence);
      forall r | r in m.evidence ensures RefHolds(e, w, m.scope, r) {
        TidyIsRechecked(m.evidence, r);
        var i :| 0 <= i < |unique| && unique[i] == r;
      }
    }
  }

  lemma CounterEdge(e: Env, w: World, text: string, refs: seq<Ref>, id: nat)
    requires id in w.memories
    ensures var w' := AddCounterEvidence(e, w, text, refs).0; id in w'.memories && Edge(e, w, w.memories[id], w'.memories[id])
  {
    if AddCounterEvidence(e, w, text, refs).1.Ok? && FindRow(e, w.memories, text) == Some(id) {
      CounterIsKept(w.memories[id].counter, UniqueRefs(refs));
      MoreCounterEvidence(w.memories[id].counter, refs);
    }
  }

  lemma SupersessionEdge(e: Env, w: World, oldText: string, newText: string, id: nat)
    requires id in w.memories
    ensures var w' := Supersede(e, w, oldText, newText).0; id in w'.memories && Edge(e, w, w.memories[id], w'.memories[id])
  {
  }

  lemma MemoryCallsFollowEdges(e: Env, w: World, c: MemoryCall, id: nat)
    requires MemoriesOk(w) && TidyEvidence(w) && id in w.memories
    ensures id in StepMemory(e, w, c).memories && Edge(e, w, w.memories[id], StepMemory(e, w, c).memories[id])
  {
    match c
    case CallCreate(_) =>
    case CallValidate(text) => ValidationEdge(e, w, text, id);
    case CallReject(_) =>
    case CallCounter(text, refs) => CounterEdge(e, w, text, refs, id);
    case CallSupersede(oldText, newText) => SupersessionEdge(e, w, oldText, newText, id);
    case CallExpire => ExpiryLeavesNoneOverdue(w, id);
  }

  /** Every call moves every memory along one of the edges, or leaves it alone. */
  lemma CallsFollowEdges(e: Env, w: World, c: Call, id: nat)
    requires MemoriesOk(w) && ForeignKeys(w) && TidyEvidence(w) && id in w.memories && id in Step(e, w, c).memories
    ensures Edge(e, w, w.memories[id], Step(e, w, c).memories[id])
  {
    match c
    case OnMemory(call) => MemoryCallsFollowEdges(e, w, call, id);
    case OnSkill(call) => SkillCallKeeps(e, w, call);
    case _ =>
  }

  /** The memory that the text names. */
  ghost predicate Names(e: Env, w: World, text: string, id: nat) {
    e.rowOf(text) == Some(id) && id in w.memories
  }

  /** Each call on a memory succeeds exactly on the guards of its edge. */
  lemma MemoryCallsSucceedExactly(e: Env, w: World, text: string, id: nat, refs: seq<Ref>)
    requires Names(e, w, text, id) && TidyEvidence(w) && MemoryOk(w.memories[id])
    ensures var m := w.memories[id];
            && (ValidateMemory(e, w, text).1.Ok? <==> Checked(e, w, m))
            && (RejectMemory(e, w, text).1.Ok? <==> m.state == Candidate)
            && (AddCounterEvidence(e, w, text, refs).1.Ok? <==>
                m.state in {Candidate, Validated} && UniqueRefs(refs) != [] && forall r | r in UniqueRefs(refs) :: RefHolds(e, w, m.scope, r))
            && (AddCounterEvidence(e, w, text, refs).1.Ok? ==> AllKept(refs, AddCounterEvidence(e, w, text, refs).0.memories[id].counter))
  {
    var m := w.memories[id];
    TidyRefsHold(e, w, m.scope, m.evidence);
    RefsHoldAll(e, w, m.scope, UniqueRefs(refs));
    if AddCounterEvidence(e, w, text, refs).1.Ok? {
      NewCounterIsKept(m.counter, refs);
    }
  }

  lemma RefsHoldAll(e: Env, w: World, scope: Scope, refs: seq<Ref>)
    ensures RefsHold(e, w, scope, refs) <==> forall r | r in refs :: RefHolds(e, w, scope, r)
  {
    if forall r | r in refs :: RefHolds(e, w, scope, r) {
      forall i | 0 <= i < |refs| ensures RefHolds(e, w, scope, refs[i]) {
        assert refs[i] in refs;
      }
    }
  }

  lemma TidyRefsHold(e: Env, w: World, scope: Scope, refs: seq<Ref>)
    requires Tidy(refs)
    ensures CheckRefs(e, w, scope, refs, true).Some? <==> refs != [] && forall r | r in refs :: RefHolds(e, w, scope, r)
  {
    RefsHoldAll(e, w, scope, UniqueRefs(refs));
    forall r: Ref ensures r in UniqueRefs(refs) <==> r in refs {
      TidyIsRechecked(refs, r);
    }
    assert refs != [] ==> refs[0] in refs;
    assert UniqueRefs(refs) != [] ==> UniqueRefs(refs)[0] in UniqueRefs(refs);
  }

  lemma NewCounterIsKept(counter: seq<Ref>, refs: seq<Ref>)
    ensures AllKept(refs, UniqueRefs(counter + UniqueRefs(refs)))
  {
    var more, all := UniqueRefs(refs), counter + UniqueRefs(refs);
    UniqueRefsKeepEveryKey(refs);
    UniqueRefsKeepEveryKey(all);
    UniqueRefsAreRefs(refs);
    forall i | 0 <= i < |refs| && IsComplete(refs[i]) ensures HasKey(UniqueRefs(all), Key(refs[i])) {
      var k :| 0 <= k < |more| && Key(more[k]) == Key(refs[i]);
      assert more[k] in more && all[|counter| + k] == more[k];
    }
  }

  /** Supersession succeeds exactly between two trusted memories of one scope, under two different texts, the first not superseded yet. */
  lemma SupersedeSucceedsExactly(e: Env, w: World, oldText: string, newText: string, a: nat, b: nat)
    requires Names(e, w, oldText, a) && Names(e, w, newText, b)
    ensures var first, second := w.memories[a], w.memories[b];
            Supersede(e, w, oldText, newText).1.Ok? <==>
            first.state == Validated && second.state == Validated && oldText != newText && first.scope == second.scope && first.supersededBy == None
  {
  }

  lemma StepKeepsTidy(e: Env, w: World, c: Call)
    requires MemoriesOk(w) && ForeignKeys(w) && TidyEvidence(w)
    ensures TidyEvidence(Step(e, w, c))
  {
    var w' := Step(e, w, c);
    StepKeeps(e, w, c);
    forall id | id in w'.memories ensures Tidy(w'.memories[id].evidence) {
      if id in w.memories {
        assert MemoryMoves(w.memories[id], w'.memories[id]);
      } else {
        OnlyCreationAdds(e, w, c, id);
        CreatedMemoryIs(e, w, c.memoryCall.input);
        UniqueRefsKeepEveryKey(c.memoryCall.input.evidence);
        UniqueRefsAreRefs(c.memoryCall.input.evidence);
      }
    }
  }

  lemma OnlyCreationAdds(e: Env, w: World, c: Call, id: nat)
    requires MemoriesOk(w) && ForeignKeys(w) && id !in w.memories && id in Step(e, w, c).memories
    ensures c.OnMemory? && c.memoryCall.CallCreate? && CreateMemory(e, w, c.memoryCall.input).1.Ok? && id == w.nextId
  {
    if c.OnSkill? {
      SkillCallKeeps(e, w, c.skillCall);
    }
  }

  /** This step validates the memory, and everything validation checks holds. */
  ghost predicate Validates(e: Env, w: World, w': World, id: nat) {
    && id in w.memories && id in w'.memories && Checked(e, w, w.memories[id])
    && w'.memories[id] == w.memories[id].(state := Validated)
  }

  /** Somewhere in the run the memory was validated. */
  ghost predicate EverChecked(e: Env, w: World, calls: seq<Call>, id: nat)
    decreases calls
  {
    calls != [] && (Validates(e, w, Step(e, w, calls[0]), id) || EverChecked(e, Step(e, w, calls[0]), calls[1..], id))
  }

  /** A memory that is VALIDATED after a run, and was not before, passed every check of validation during it. */
  lemma {:induction false} TrustWasChecked(e: Env, w: World, calls: seq<Call>, id: nat)
    requires MemoriesOk(w) && ForeignKeys(w) && TidyEvidence(w)
    requires id in w.memories ==> w.memories[id].state != Validated
    requires id in Run(e, w, calls).memories && Run(e, w, calls).memories[id].state == Validated
    ensures EverChecked(e, w, calls, id)
    decreases calls
  {
    if calls != [] {
      var c, w' := calls[0], Step(e, w, calls[0]);
      StepKeeps(e, w, c);
      StepKeepsTidy(e, w, c);
      if id in w'.memories && w'.memories[id].state == Validated {
        if id in w.memories {
          CallsFollowEdges(e, w, c, id);
        } else {
          OnlyCreationAdds(e, w, c, id);
          CreatedMemoryIs(e, w, c.memoryCall.input);
          assert false;
        }
      } else {
        TrustWasChecked(e, w', calls[1..], id);
      }
    }
  }

  // ---- No claim lives twice ------------------------------------------------------------

  ghost predicate ClaimsUnique(w: World) {
    forall i, j | i in w.memories && j in w.memories && Live(w, w.memories[i]) && Live(w, w.memories[j])
      && w.memories[i].source == w.memories[j].source && w.memories[i].statement == w.memories[j].statement :: i == j
  }

  /** A memory that is live after a call was live before with the same claim, or is new and its claim was not live. */
  ghost predicate LiveComesFrom(w: World, w': World, i: nat)
    requires i in w'.memories
  {
    var m := w'.memories[i];
    || (i in w.memories && Live(w, w.memories[i]) && w.memories[i].source == m.source && w.memories[i].statement == m.statement)
    || (i == w.nextId && forall id :: !LiveClaim(w, id, m.source, m.statement))
  }

  lemma TimeMovesOn(e: Env, w: World, c: Call)
    requires MemoriesOk(w) && ForeignKeys(w)
    ensures w.now <= Step(e, w, c).now
  {
    if c.OnSkill? {
      SkillCallKeeps(e, w, c.skillCall);
    }
  }

  lemma LiveMemoriesStepBack(e: Env, w: World, c: Call, i: nat)
    requires MemoriesOk(w) && ForeignKeys(w) && TidyEvidence(w)
    requires var w' := Step(e, w, c); i in w'.memories && Live(w', w'.memories[i])
    ensures LiveComesFrom(w, Step(e, w, c), i)
  {
    TimeMovesOn(e, w, c);
    if i in w.memories {
      CallsFollowEdges(e, w, c, i);
    } else {
      OnlyCreationAdds(e, w, c, i);
      CreatedMemoryIs(e, w, c.memoryCall.input);
    }
  }

  lemma StepKeepsClaims(e: Env, w: World, c: Call)
    requires MemoriesOk(w) && ForeignKeys(w) && TidyEvidence(w) && ClaimsUnique(w)
    ensures ClaimsUnique(Step(e, w, c))
  {
    var w' := Step(e, w, c);
    forall i, j | i in w'.memories && j in w'.memories && Live(w', w'.memories[i]) && Live(w', w'.memories[j])
      && w'.memories[i].source == w'.memories[j].source && w'.memories[i].statement == w'.memories[j].statement
      ensures i == j
    {
      var source, statement := w'.memories[i].source, w'.memories[i].statement;
      LiveMemoriesStepBack(e, w, c, i);
      LiveMemoriesStepBack(e, w, c, j);
      assert LiveClaim(w, i, source, statement) || i == w.nextId;
      assert LiveClaim(w, j, source, statement) || j == w.nextId;
    }
  }

  /** In every run no case has two live memories with the same statement. */
  lemma {:induction false} ClaimsStayUnique(e: Env, w: World, calls: seq<Call>)
    requires MemoriesOk(w) && ForeignKeys(w) && TidyEvidence(w) && ClaimsUnique(w)
    ensures ClaimsUnique(Run(e, w, calls))
    decreases calls
  {
    if calls != [] {
      StepKeepsClaims(e, w, calls[0]);
      StepKeeps(e, w, calls[0]);
      StepKeepsTidy(e, w, calls[0]);
      ClaimsStayUnique(e, Step(e, w, calls[0]), calls[1..]);
    }
  }
}
