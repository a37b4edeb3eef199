/** The tool list of a skill: each usable tool once, sorted, and how many of them a set of tools covers. */
module SentinelTools {
  import opened Common
  import opened Sentinel

  ghost function Elements(texts: seq<string>): set<string> { set t | t in texts }

  ghost predicate Distinct(texts: seq<string>) {
    forall i, j | 0 <= i < j < |texts| :: texts[i] != texts[j]
  }

  /** The tools a spec names, trimmed and without blanks. */
  ghost function NamedIn(tools: seq<string>): set<string> {
    set i | 0 <= i < |tools| && TrimSpace(tools[i]) != "" :: TrimSpace(tools[i])
  }

  lemma MoreElements(front: seq<string>, t: string)
    ensures Elements(front + [t]) == Elements(front) + {t}
    ensures Distinct(front) && t !in front ==> Distinct(front + [t])
  {
  }

  lemma {:induction false} NamedToolsAre(tools: seq<string>)
    ensures Elements(NamedTools(tools)) == NamedIn(tools) && Distinct(NamedTools(tools))
    decreases |tools|
  {
    if tools != [] {
      var n := |tools| - 1;
      var front, last := NamedTools(tools[..n]), TrimSpace(tools[n]);
      NamedToolsAre(tools[..n]);
      MoreElements(front, last);
      LastNamed(tools);
    }
  }

  lemma LastNamed(tools: seq<string>)
    requires tools != []
    ensures var n := |tools| - 1;
            NamedIn(tools) == NamedIn(tools[..n]) + if TrimSpace(tools[n]) == "" then {} else {TrimSpace(tools[n])}
  {
    var n := |tools| - 1;
    forall t | t in NamedIn(tools) ensures t in NamedIn(tools[..n]) || t == TrimSpace(tools[n]) {
      var i :| 0 <= i < |tools| && TrimSpace(tools[i]) != "" && TrimSpace(tools[i]) == t;
      if i < n {
        assert tools[..n][i] == tools[i];
      }
    }
    forall t | t in NamedIn(tools[..n]) ensures t in NamedIn(tools) {
      var i :| 0 <= i < n && TrimSpace(tools[..n][i]) != "" && TrimSpace(tools[..n][i]) == t;
      assert tools[i] == tools[..n][i];
    }
  }

  ghost function ReadOnlyIn(e: Env, tools: set<string>): set<string> { set t | t in tools && IsReadOnly(e, t) }

  lemma MoreReadOnly(e: Env, tools: set<string>, t: string)
    ensures ReadOnlyIn(e, tools + {t}) == ReadOnlyIn(e, tools) + if IsReadOnly(e, t) then {t} else {}
  {
  }

  lemma {:induction false} ReadOnlyOnesAre(e: Env, tools: seq<string>)
    requires Distinct(tools)
    ensures Distinct(OnlyReadOnly(e, tools)) && Elements(OnlyReadOnly(e, tools)) == ReadOnlyIn(e, Elements(tools))
    decreases |tools|
  {
    if tools != [] {
      var n := |tools| - 1;
      ReadOnlyOnesAre(e, tools[..n]);
      var front := OnlyReadOnly(e, tools[..n]);
      assert tools[n] !in Elements(tools[..n]);
      assert tools[n] !in Elements(front);
      MoreElements(front, tools[n]);
      MoreElements(tools[..n], tools[n]);
      MoreReadOnly(e, Elements(tools[..n]), tools[n]);
      assert tools == tools[..n] + [tools[n]];
      assert front + [] == front;
    }
  }

  lemma {:induction false} InsertKeepsTexts(s: string, sorted: seq<string>)
    ensures multiset(InsertText(s, sorted)) == multiset{s} + multiset(sorted)
    decreases sorted
  {
    if sorted != [] && LexLess(sorted[0], s) {
      assert sorted == [sorted[0]] + sorted[1..];
      InsertKeepsTexts(s, sorted[1..]);
    }
  }

  lemma {:induction false} SortKeepsTexts(texts: seq<string>)
    ensures multiset(SortTexts(texts)) == multiset(texts)
    ensures forall t :: t in SortTexts(texts) <==> t in texts
    decreases texts
  {
    if texts != [] {
      assert texts == [texts[0]] + texts[1..];
      SortKeepsTexts(texts[1..]);
      InsertKeepsTexts(texts[0], SortTexts(texts[1..]));
    }
    forall t ensures t in SortTexts(texts) <==> t in texts {
      assert t in SortTexts(texts) <==> t in multiset(SortTexts(texts));
    }
  }

  lemma DistinctTexts(a: seq<string>, b: seq<string>)
    requires multiset(a) == multiset(b)
    requires forall i, j | 0 <= i < j < |a| :: a[i] != a[j]
    ensures forall i, j | 0 <= i < j < |b| :: b[i] != b[j]
  {
    forall i, j | 0 <= i < j < |b| ensures b[i] != b[j] {
      if b[i] == b[j] {
        TwiceInMultiset(b, i, j);
        OnceInMultiset(a, b[i]);
      }
    }
  }

  lemma RearrangedSame(a: seq<string>, b: seq<string>)
    requires multiset(a) == multiset(b) && Distinct(a)
    ensures Distinct(b) && Elements(a) == Elements(b)
  {
    forall t ensures t in a <==> t in b {
      assert t in a <==> t in multiset(a);
    }
    DistinctTexts(a, b);
  }

  /** What a spec may use: the tools it names that are known and read-only. */
  ghost function UsableTools(e: Env, spec: SkillSpec): set<string> { ReadOnlyIn(e, NamedIn(spec.tools)) }

  /** The validated list holds each usable tool once. */
  lemma ValidatedToolsAre(e: Env, spec: SkillSpec)
    ensures Distinct(ValidateSpec(e, spec).tools) && Elements(ValidateSpec(e, spec).tools) == UsableTools(e, spec)
  {
    var named := NamedTools(spec.tools);
    NamedToolsAre(spec.tools);
    ReadOnlyOnesAre(e, named);
    SortKeepsTexts(OnlyReadOnly(e, named));
    RearrangedSame(OnlyReadOnly(e, named), SortTexts(OnlyReadOnly(e, named)));
  }

  lemma OneMoreShared(front: set<string>, t: string, available: set<string>)
    requires t !in front
    ensures |front + {t}| == |front| + 1
    ensures |(front + {t}) * available| == |front * available| + if t in available then 1 else 0
  {
    assert (front + {t}) * available == front * available + if t in available then {t} else {};
  }

  lemma LastIsNew(tools: seq<string>)
    requires tools != [] && Distinct(tools)
    ensures var n := |tools| - 1;
            Distinct(tools[..n]) && tools[n] !in Elements(tools[..n]) && Elements(tools) == Elements(tools[..n]) + {tools[n]}
  {
    var n := |tools| - 1;
    MoreElements(tools[..n], tools[n]);
    assert tools == tools[..n] + [tools[n]];
  }

  lemma {:induction false} CountIsShare(tools: seq<string>, available: set<string>)
    requires Distinct(tools)
    ensures |tools| == |Elements(tools)| && CountIn(tools, available) == |Elements(tools) * available|
    decreases |tools|
  {
    if tools == [] {
      assert Elements(tools) == {} && Elements(tools) * available == {};
    } else {
      var n := |tools| - 1;
      LastIsNew(tools);
      CountIsShare(tools[..n], available);
      OneMoreShared(Elements(tools[..n]), tools[n], available);
    }
  }
}
