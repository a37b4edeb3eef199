/**
 * What a plan does when it is applied, and how the drift check and the
 * preflight filter relate to it.
 */
module UciPlan {
  import opened Common
  import opened ChangeSets
  import opened UciShow
  import opened UciDrift

  // ---- Applying commands -----------------------------------------------------------

  function ValuesAt(options: map<string, Value>, option: string): Option<seq<string>> {
    if option in options then Some(Values(options[option])) else None
  }

  /** The effect of one command on the values of its option. */
  function Effect(c: Command, before: Option<seq<string>>): Option<seq<string>> {
    match c.action
    case Set => Some([c.value])
    case Delete => None
    case AddList => Some((if before.Some? then before.value else []) + [c.value])
    case _ => before
  }

  function Store(options: map<string, Value>, option: string, values: Option<seq<string>>): map<string, Value> {
    if values.Some? then options[option := FromValues(values.value)] else options - {option}
  }

  /** Standard UCI: the command changes one option of the section its reference names. */
  function Apply(c: Command, sections: seq<UCISection>): seq<UCISection> {
    var at := Resolve(c.section, sections);
    ResolveIsInside(c.section, sections);
    if at.None? then sections
    else
      var s := sections[at.value];
      sections[at.value := s.(options := Store(s.options, c.option, Effect(c, ValuesAt(s.options, c.option))))]
  }

  function ApplyAll(commands: seq<Command>, sections: seq<UCISection>): seq<UCISection>
    decreases commands
  {
    if commands == [] then sections else ApplyAll(commands[1..], Apply(commands[0], sections))
  }

  /** Same sections up to their options. */
  ghost predicate SameFrame(a: seq<UCISection>, b: seq<UCISection>) {
    && |a| == |b|
    && forall i | 0 <= i < |a| :: a[i].id == b[i].id && a[i].typ == b[i].typ && a[i].name == b[i].name && a[i].isAnon == b[i].isAnon
  }

  lemma {:induction false} FrameKeepsCounts(a: seq<UCISection>, b: seq<UCISection>, text: string, k: int)
    requires SameFrame(a, b)
    ensures TypeCount(a, text) == TypeCount(b, text) && FindId(a, text) == FindId(b, text) && NthOfType(a, text, k) == NthOfType(b, text, k)
    decreases |a|
  {
    if a != [] {
      var n := |a| - 1;
      FrameKeepsCounts(a[..n], b[..n], text, k);
    }
  }

  lemma FrameKeepsResolve(a: seq<UCISection>, b: seq<UCISection>, reference: string)
    requires SameFrame(a, b)
    ensures Resolve(reference, a) == Resolve(reference, b)
  {
    FrameKeepsCounts(a, b, reference, 0);
    var parsed := ParseReference(reference);
    if parsed.Some? {
      FrameKeepsCounts(a, b, parsed.value.typ, 0);
      FrameKeepsCounts(a, b, parsed.value.typ, PlaceOf(parsed.value, a));
    }
  }

  lemma FrameKeepsNames(a: seq<UCISection>, b: seq<UCISection>)
    requires SameFrame(a, b) && WellNamed(a)
    ensures WellNamed(b)
  {
    forall i | 0 <= i < |b| && ParseReference(b[i].id).Some?
      ensures var own := ParseReference(b[i].id).value;
              own.typ == b[i].typ && PlaceOf(own, b) == TypeCount(b[..i], own.typ)
    {
      var own := ParseReference(b[i].id).value;
      assert a[i].id == b[i].id;
      FrameKeepsCounts(a, b, own.typ, 0);
      FrameKeepsCounts(a[..i], b[..i], own.typ, 0);
    }
  }

  function OptionAt(sections: seq<UCISection>, i: nat, option: string): Option<seq<string>>
    requires i < |sections|
  {
    ValuesAt(sections[i].options, option)
  }

  /** The values an option ends with when the commands that name it by this text are applied in turn. */
  function After(commands: seq<Command>, section: string, option: string, before: Option<seq<string>>): Option<seq<string>>
    decreases commands
  {
    if commands == [] then before else
      After(commands[1..], section, option,
            if commands[0].section == section && commands[0].option == option then Effect(commands[0], before) else before)
  }

  lemma ApplyAt(c: Command, sections: seq<UCISection>, i: nat, option: string)
    requires i < |sections|
    ensures SameFrame(sections, Apply(c, sections))
    ensures OptionAt(Apply(c, sections), i, option) ==
            if Resolve(c.section, sections) == Some(i) && c.option == option then Effect(c, OptionAt(sections, i, option)) else OptionAt(sections, i, option)
  {
    ResolveIsInside(c.section, sections);
  }

  /** The command writes this option of section i, whatever text it names the section by. */
  predicate Writes(c: Command, sections: seq<UCISection>, i: nat, option: string) {
    Resolve(c.section, sections) == Some(i) && c.option == option
  }

  /** The values an option ends with when the commands that write it are applied in turn. */
  function Fold(commands: seq<Command>, sections: seq<UCISection>, i: nat, option: string, before: Option<seq<string>>): Option<seq<string>>
    decreases commands
  {
    if commands == [] then before else
      Fold(commands[1..], sections, i, option, if Writes(commands[0], sections, i, option) then Effect(commands[0], before) else before)
  }

  lemma {:induction false} ApplyAllFrame(commands: seq<Command>, sections: seq<UCISection>)
    ensures SameFrame(sections, ApplyAll(commands, sections))
    decreases commands
  {
    if commands != [] {
      ResolveIsInside(commands[0].section, sections);
      ApplyAllFrame(commands[1..], Apply(commands[0], sections));
    }
  }

  lemma {:induction false} FoldSeesNames(
    commands: seq<Command>, a: seq<UCISection>, b: seq<UCISection>, i: nat, option: string, before: Option<seq<string>>)
    requires SameFrame(a, b)
    ensures Fold(commands, a, i, option, before) == Fold(commands, b, i, option, before)
    decreases commands
  {
    if commands != [] {
      FrameKeepsResolve(a, b, commands[0].section);
      FoldSeesNames(commands[1..], a, b, i, option, if Writes(commands[0], a, i, option) then Effect(commands[0], before) else before);
    }
  }

  /** Applying a plan folds, for every option of every section, the commands that write it. */
  lemma {:induction false} ApplyAllFolds(commands: seq<Command>, sections: seq<UCISection>, i: nat, option: string)
    requires i < |sections|
    ensures |ApplyAll(commands, sections)| == |sections|
    ensures OptionAt(ApplyAll(commands, sections), i, option) == Fold(commands, sections, i, option, OptionAt(sections, i, option))
    decreases commands
  {
    if commands != [] {
      var next := Apply(commands[0], sections);
      ApplyAt(commands[0], sections, i, option);
      ApplyAllFolds(commands[1..], next, i, option);
      FoldSeesNames(commands[1..], sections, next, i, option, OptionAt(next, i, option));
    }
  }

  /** Among the commands for this option, exactly those with this text name section i. */
  ghost predicate NamesOnly(commands: seq<Command>, sections: seq<UCISection>, section: string, i: nat, option: string) {
    forall k | 0 <= k < |commands| && commands[k].option == option ::
      Resolve(commands[k].section, sections) == Some(i) <==> commands[k].section == section
  }

  lemma {:induction false} FoldByText(
    commands: seq<Command>, sections: seq<UCISection>, section: string, i: nat, option: string, before: Option<seq<string>>)
    requires NamesOnly(commands, sections, section, i, option)
    ensures Fold(commands, sections, i, option, before) == After(commands, section, option, before)
    decreases commands
  {
    if commands != [] {
      var next := if Writes(commands[0], sections, i, option) then Effect(commands[0], before) else before;
      FoldByText(commands[1..], sections, section, i, option, next);
    }
  }

  lemma {:induction false} FoldNothing(commands: seq<Command>, sections: seq<UCISection>, i: nat, option: string, before: Option<seq<string>>)
    requires forall k | 0 <= k < |commands| :: !Writes(commands[k], sections, i, option)
    ensures Fold(commands, sections, i, option, before) == before
    decreases commands
  {
    if commands != [] {
      FoldNothing(commands[1..], sections, i, option, before);
    }
  }

  lemma ApplyAllAt(commands: seq<Command>, sections: seq<UCISection>, section: string, i: nat, option: string)
    requires i < |sections| && NamesOnly(commands, sections, section, i, option)
    ensures |ApplyAll(commands, sections)| == |sections|
    ensures OptionAt(ApplyAll(commands, sections), i, option) == After(commands, section, option, OptionAt(sections, i, option))
  {
    ApplyAllFolds(commands, sections, i, option);
    FoldByText(commands, sections, section, i, option, OptionAt(sections, i, option));
  }

  lemma UntouchedAt(commands: seq<Command>, sections: seq<UCISection>, i: nat, option: string)
    requires i < |sections| && forall k | 0 <= k < |commands| :: !Writes(commands[k], sections, i, option)
    ensures |ApplyAll(commands, sections)| == |sections|
    ensures OptionAt(ApplyAll(commands, sections), i, option) == OptionAt(sections, i, option)
  {
    ApplyAllFolds(commands, sections, i, option);
    FoldNothing(commands, sections, i, option, OptionAt(sections, i, option));
  }

  // ---- Tidy plans ---------------------------------------------------------------------

  predicate SameKey(a: Command, b: Command) { a.section == b.section && a.option == b.option }

  /**
   * Each option is written once: by one `set`, by one `delete`, or by one
   * `delete` followed by `add_list`s. All commands are for one config.
   */
  ghost predicate TidyPlan(commands: seq<Command>) {
    && (forall i | 0 <= i < |commands| ::
          && commands[i].option != "" && commands[i].config == commands[0].config
          && (commands[i].action.Set? || commands[i].action.Delete? || commands[i].action.AddList?)
          && (commands[i].action.Delete? ==> commands[i].value == ""))
    && (forall i, j | 0 <= i < j < |commands| && SameKey(commands[i], commands[j]) :: commands[j].action.AddList? && !commands[i].action.Set?)
    && (forall j | 0 <= j < |commands| && commands[j].action.AddList? :: HasLeader(commands, j))
  }

  ghost predicate HasLeader(commands: seq<Command>, j: nat)
    requires j < |commands|
  {
    exists i | 0 <= i < j :: commands[i].action.Delete? && SameKey(commands[i], commands[j])
  }

  /** Every reference names a section. */
  ghost predicate Resolvable(commands: seq<Command>, sections: seq<UCISection>) {
    WellNamed(sections) && forall i | 0 <= i < |commands| :: Resolve(commands[i].section, sections).Some?
  }

  /** Moreover, no option of a section is written under two texts for the section. */
  ghost predicate Grounded(commands: seq<Command>, sections: seq<UCISection>) {
    && Resolvable(commands, sections)
    && forall i, j | 0 <= i < |commands| && 0 <= j < |commands|
         && commands[i].option == commands[j].option && Resolve(commands[i].section, sections) == Resolve(commands[j].section, sections) ::
         commands[i].section == commands[j].section
  }

  /** What the plan leaves in the option of a command, whatever was there. */
  function Planned(commands: seq<Command>, c: Command): Option<seq<string>> {
    After(commands, c.section, c.option, None)
  }

  ghost function Place(c: Command, sections: seq<UCISection>): nat
    requires Resolve(c.section, sections).Some?
    ensures Place(c, sections) < |sections|
  {
    ResolveIsInside(c.section, sections);
    Resolve(c.section, sections).value
  }

  /** The option already has its planned value. */
  ghost predicate Reached(commands: seq<Command>, c: Command, sections: seq<UCISection>)
    requires Resolve(c.section, sections).Some?
  {
    OptionAt(sections, Place(c, sections), c.option) == Planned(commands, c)
  }

  lemma GroundedNames(commands: seq<Command>, sections: seq<UCISection>, j: nat)
    requires Grounded(commands, sections) && j < |commands|
    ensures NamesOnly(commands, sections, commands[j].section, Place(commands[j], sections), commands[j].option)
  {
  }

  /** The values of the `add_list`s for one option. */
  function Added(commands: seq<Command>, section: string, option: string): seq<string> {
    if commands == [] then [] else
      (if commands[0].section == section && commands[0].option == option then [commands[0].value] else [])
      + Added(commands[1..], section, option)
  }

  ghost predicate OnlyAdds(commands: seq<Command>, section: string, option: string) {
    forall k | 0 <= k < |commands| && commands[k].section == section && commands[k].option == option :: commands[k].action.AddList?
  }

  function Extended(before: Option<seq<string>>, more: seq<string>): Option<seq<string>> {
    if more == [] then before else Some((if before.Some? then before.value else []) + more)
  }

  lemma ExtendedStep(before: Option<seq<string>>, value: string, more: seq<string>)
    ensures Extended(Some((if before.Some? then before.value else []) + [value]), more) == Extended(before, [value] + more)
  {
    var start := if before.Some? then before.value else [];
    assert [value] + [] == [value];
    assert (start + [value]) + more == start + ([value] + more);
  }

  lemma {:induction false} AfterAdds(commands: seq<Command>, section: string, option: string, before: Option<seq<string>>)
    requires OnlyAdds(commands, section, option)
    ensures After(commands, section, option, before) == Extended(before, Added(commands, section, option))
    decreases commands
  {
    if commands != [] {
      var c, rest := commands[0], commands[1..];
      if c.section == section && c.option == option {
        AfterAdds(rest, section, option, Effect(c, before));
        ExtendedStep(before, c.value, Added(rest, section, option));
      } else {
        AfterAdds(rest, section, option, before);
        assert [] + Added(rest, section, option) == Added(rest, section, option);
      }
    }
  }

  lemma {:induction false} AfterSkips(commands: seq<Command>, section: string, option: string, before: Option<seq<string>>, k: nat)
    requires k <= |commands|
    requires forall l | 0 <= l < k :: commands[l].section != section || commands[l].option != option
    ensures After(commands, section, option, before) == After(commands[k..], section, option, before)
    decreases k
  {
    if k > 0 {
      AfterSkips(commands[1..], section, option, before, k - 1);
      assert commands[1..][k - 1..] == commands[k..];
    } else {
      assert commands[0..] == commands;
    }
  }

  /** The command that starts the writes of an option: its `set` or its `delete`. */
  predicate Leads(c: Command) { c.action.Set? || c.action.Delete? }

  /** The planned value of an option, read off its first command and the `add_list`s behind it. */
  function LeaderValue(commands: seq<Command>, k: nat): Option<seq<string>>
    requires k < |commands|
  {
    var c := commands[k];
    if c.action.Set? then Some([c.value])
    else
      var added := Added(commands[k + 1..], c.section, c.option);
      if added == [] then None else Some(added)
  }

  lemma BehindLeader(commands: seq<Command>, k: nat)
    requires TidyPlan(commands) && k < |commands| && Leads(commands[k])
    ensures forall l | 0 <= l < k :: !SameKey(commands[l], commands[k])
    ensures OnlyAdds(commands[k + 1..], commands[k].section, commands[k].option)
    ensures commands[k].action.Set? ==> Added(commands[k + 1..], commands[k].section, commands[k].option) == []
  {
    var c, later := commands[k], commands[k + 1..];
    forall l | 0 <= l < |later| && later[l].section == c.section && later[l].option == c.option
      ensures later[l].action.AddList? && !c.action.Set?
    {
      assert SameKey(commands[k], commands[k + 1 + l]);
    }
    if c.action.Set? {
      NothingAdded(later, c.section, c.option);
    }
  }

  lemma {:induction false} NothingAdded(commands: seq<Command>, section: string, option: string)
    requires forall l | 0 <= l < |commands| :: commands[l].section != section || commands[l].option != option
    ensures Added(commands, section, option) == []
    decreases commands
  {
    if commands != [] {
      NothingAdded(commands[1..], section, option);
    }
  }

  /** A tidy plan fixes the value of every option it writes, whatever was there before. */
  lemma PlanFixesOption(commands: seq<Command>, k: nat, before: Option<seq<string>>)
    requires TidyPlan(commands) && k < |commands| && Leads(commands[k])
    ensures After(commands, commands[k].section, commands[k].option, before) == LeaderValue(commands, k) == Planned(commands, commands[k])
  {
    var c := commands[k];
    BehindLeader(commands, k);
    assert forall l | 0 <= l < k :: !SameKey(commands[l], c);
    AfterSkips(commands, c.section, c.option, before, k);
    AfterSkips(commands, c.section, c.option, None, k);
    assert commands[k..][1..] == commands[k + 1..];
    AfterAdds(commands[k + 1..], c.section, c.option, Effect(c, before));
    AfterAdds(commands[k + 1..], c.section, c.option, Effect(c, None));
    assert [] + Added(commands[k + 1..], c.section, c.option) == Added(commands[k + 1..], c.section, c.option);
  }

  ghost predicate IsLeaderOf(commands: seq<Command>, k: nat, j: nat) {
    k <= j < |commands| && Leads(commands[k]) && SameKey(commands[k], commands[j])
  }

  lemma LeaderOf(commands: seq<Command>, j: nat) returns (k: nat)
    requires TidyPlan(commands) && j < |commands|
    ensures IsLeaderOf(commands, k, j) && (commands[j].action.AddList? ==> k < j)
  {
    if commands[j].action.AddList? {
      assert HasLeader(commands, j);
      k :| 0 <= k < j && commands[k].action.Delete? && SameKey(commands[k], commands[j]);
    } else {
      k := j;
    }
  }

  // ---- The check against the plan ---------------------------------------------------------

  ghost predicate AllMatch(commands: seq<Command>, sections: seq<UCISection>) {
    forall j | 0 <= j < |commands| :: MatchesInPlan(j, commands, sections)
  }

  ghost predicate AllReached(commands: seq<Command>, sections: seq<UCISection>)
    requires Resolvable(commands, sections)
  {
    forall j | 0 <= j < |commands| :: Reached(commands, commands[j], sections)
  }

  /** The reference matches this section and no other. */
  ghost predicate OnlyMatch(reference: string, sections: seq<UCISection>, at: nat) {
    at < |sections| && forall i | 0 <= i < |sections| :: MatchesReference(reference, sections[i], sections) <==> i == at
  }

  lemma PlaceIsOnlyMatch(c: Command, sections: seq<UCISection>)
    requires WellNamed(sections) && Resolve(c.section, sections).Some?
    ensures OnlyMatch(c.section, sections, Place(c, sections))
  {
    forall i | 0 <= i < |sections| ensures MatchesReference(c.section, sections[i], sections) <==> i == Place(c, sections) {
      ReferenceNamesOneSection(c.section, sections, i);
    }
  }

  lemma FirstMatchIsPlace(c: Command, sections: seq<UCISection>)
    requires WellNamed(sections) && Resolve(c.section, sections).Some?
    ensures FirstMatch(c.section, sections, 0) == Some(Place(c, sections))
    ensures OnlyMatch(c.section, sections, Place(c, sections))
  {
    PlaceIsOnlyMatch(c, sections);
    OnlyMatchIsFirst(c.section, sections, Place(c, sections));
  }

  lemma OnlyMatchIsFirst(reference: string, sections: seq<UCISection>, at: nat)
    requires OnlyMatch(reference, sections, at)
    ensures FirstMatch(reference, sections, 0) == Some(at)
  {
    var first := FirstMatch(reference, sections, 0);
    assert MatchesReference(reference, sections[at], sections);
  }

  lemma {:induction false} PlannedAfterIsAdded(later: seq<Command>, c: Command)
    requires OnlyAdds(later, c.section, c.option) && forall l | 0 <= l < |later| :: later[l].config == c.config
    ensures PlannedAfter(later, c) == Some(Added(later, c.section, c.option))
    decreases later
  {
    if later != [] {
      PlannedAfterIsAdded(later[1..], c);
      assert [] + Added(later[1..], c.section, c.option) == Added(later[1..], c.section, c.option);
    }
  }

  /** A first command is satisfied exactly when its option has the planned value. */
  lemma LeaderMatches(commands: seq<Command>, sections: seq<UCISection>, k: nat)
    requires TidyPlan(commands) && Resolvable(commands, sections) && k < |commands| && Leads(commands[k])
    ensures MatchesInPlan(k, commands, sections) <==> Reached(commands, commands[k], sections)
  {
    var c := commands[k];
    FirstMatchIsPlace(c, sections);
    PlanFixesOption(commands, k, None);
    if c.action.Delete? {
      BehindLeader(commands, k);
      PlannedAfterIsAdded(commands[k + 1..], c);
    } else {
      SetMatches(c, sections);
    }
  }

  lemma SetMatches(c: Command, sections: seq<UCISection>)
    requires c.action.Set? && WellNamed(sections) && Resolve(c.section, sections).Some?
    ensures CommandMatches(c, sections) <==> OptionAt(sections, Place(c, sections), c.option) == Some([c.value])
  {
    FirstMatchIsPlace(c, sections);
    var i := Place(c, sections);
    assert MatchesReference(c.section, sections[i], sections);
  }

  lemma {:induction false} AddedHolds(commands: seq<Command>, j: nat)
    requires j < |commands|
    ensures commands[j].value in Added(commands, commands[j].section, commands[j].option)
    decreases commands
  {
    if j > 0 {
      AddedHolds(commands[1..], j - 1);
    }
  }

  /** Once an option has its planned list, every `add_list` of it is satisfied. */
  lemma AddMatches(commands: seq<Command>, sections: seq<UCISection>, k: nat, j: nat)
    requires TidyPlan(commands) && Resolvable(commands, sections) && k < j && IsLeaderOf(commands, k, j) && commands[j].action.AddList?
    requires Reached(commands, commands[k], sections)
    ensures MatchesInPlan(j, commands, sections)
  {
    var c := commands[j];
    assert SameKey(commands[k], commands[j]);
    PlanFixesOption(commands, k, None);
    assert commands[k + 1..][j - k - 1] == c;
    AddedHolds(commands[k + 1..], j - k - 1);
    FirstMatchIsPlace(c, sections);
    assert MatchesReference(c.section, sections[Place(c, sections)], sections);
  }

  /** The whole plan is satisfied exactly when every option has its planned value. */
  lemma MatchMeansReached(commands: seq<Command>, sections: seq<UCISection>)
    requires TidyPlan(commands) && Resolvable(commands, sections)
    ensures AllMatch(commands, sections) <==> AllReached(commands, sections)
  {
    forall j | 0 <= j < |commands|
      ensures AllMatch(commands, sections) ==> Reached(commands, commands[j], sections)
      ensures AllReached(commands, sections) ==> MatchesInPlan(j, commands, sections)
    {
      var k := LeaderOf(commands, j);
      LeaderMatches(commands, sections, k);
      if AllReached(commands, sections) && k < j {
        AddMatches(commands, sections, k, j);
      }
    }
  }

  lemma AppliedIsReached(commands: seq<Command>, sections: seq<UCISection>, j: nat)
    requires TidyPlan(commands) && Grounded(commands, sections) && j < |commands|
    ensures |ApplyAll(commands, sections)| == |sections|
    ensures OptionAt(ApplyAll(commands, sections), Place(commands[j], sections), commands[j].option) == Planned(commands, commands[j])
  {
    var k := LeaderOf(commands, j);
    var i := Place(commands[j], sections);
    GroundedNames(commands, sections, j);
    ApplyAllAt(commands, sections, commands[j].section, i, commands[j].option);
    PlanFixesOption(commands, k, OptionAt(sections, i, commands[j].option));
  }

  lemma StillResolvable(commands: seq<Command>, a: seq<UCISection>, b: seq<UCISection>)
    requires SameFrame(a, b) && Resolvable(commands, a)
    ensures Resolvable(commands, b)
    ensures forall j | 0 <= j < |commands| :: Resolve(commands[j].section, a) == Resolve(commands[j].section, b)
  {
    FrameKeepsNames(a, b);
    forall j | 0 <= j < |commands| ensures Resolve(commands[j].section, a) == Resolve(commands[j].section, b) {
      FrameKeepsResolve(a, b, commands[j].section);
    }
  }

  // ---- The check after the plan was applied ---------------------------------------------------

  /** What all commands that write the option of `c`, under any name, leave in it. */
  ghost function Left(commands: seq<Command>, sections: seq<UCISection>, c: Command): Option<seq<string>>
    requires Resolve(c.section, sections).Some?
  {
    Fold(commands, sections, Place(c, sections), c.option, None)
  }

  lemma {:induction false} FoldForgets(
    commands: seq<Command>, sections: seq<UCISection>, i: nat, option: string, a: Option<seq<string>>, b: Option<seq<string>>, k: nat)
    requires k < |commands| && Leads(commands[k]) && Writes(commands[k], sections, i, option)
    ensures Fold(commands, sections, i, option, a) == Fold(commands, sections, i, option, b)
    decreases commands
  {
    if k > 0 {
      var a' := if Writes(commands[0], sections, i, option) then Effect(commands[0], a) else a;
      var b' := if Writes(commands[0], sections, i, option) then Effect(commands[0], b) else b;
      FoldForgets(commands[1..], sections, i, option, a', b', k - 1);
    }
  }

  lemma AppliedLeaves(commands: seq<Command>, sections: seq<UCISection>, j: nat)
    requires TidyPlan(commands) && Resolvable(commands, sections) && j < |commands|
    ensures |ApplyAll(commands, sections)| == |sections|
    ensures OptionAt(ApplyAll(commands, sections), Place(commands[j], sections), commands[j].option) == Left(commands, sections, commands[j])
  {
    var k := LeaderOf(commands, j);
    var i, o := Place(commands[j], sections), commands[j].option;
    ApplyAllFolds(commands, sections, i, o);
    FoldForgets(commands, sections, i, o, OptionAt(sections, i, o), None, k);
  }

  /**
   * Apply and check agree exactly when, for every option the plan starts to
   * write, all commands that write it under any name leave what the commands
   * under this name plan. This depends on the plan and the section names only.
   */
  lemma AppliedPlanMatchesExactly(commands: seq<Command>, sections: seq<UCISection>)
    requires TidyPlan(commands) && Resolvable(commands, sections)
    ensures AllMatch(commands, ApplyAll(commands, sections)) <==>
            forall k | 0 <= k < |commands| && Leads(commands[k]) :: Left(commands, sections, commands[k]) == Planned(commands, commands[k])
  {
    var applied := ApplyAll(commands, sections);
    ApplyAllFrame(commands, sections);
    StillResolvable(commands, sections, applied);
    MatchMeansReached(commands, applied);
    forall j | 0 <= j < |commands|
      ensures Reached(commands, commands[j], applied) <==> Left(commands, sections, commands[j]) == Planned(commands, commands[j])
      ensures exists k | 0 <= k < |commands| :: IsLeaderOf(commands, k, j)
    {
      AppliedLeaves(commands, sections, j);
      var k := LeaderOf(commands, j);
    }
  }

  /** Apply and check agree: after a grounded tidy plan is applied, the drift check finds every command satisfied. */
  lemma AppliedPlanMatches(commands: seq<Command>, sections: seq<UCISection>)
    requires TidyPlan(commands) && Grounded(commands, sections)
    ensures AllMatch(commands, ApplyAll(commands, sections))
  {
    AppliedPlanMatchesExactly(commands, sections);
    forall k | 0 <= k < |commands| && Leads(commands[k]) ensures Left(commands, sections, commands[k]) == Planned(commands, commands[k]) {
      GroundedNames(commands, sections, k);
      FoldByText(commands, sections, commands[k].section, Place(commands[k], sections), commands[k].option, None);
    }
  }

  // ---- No drift means nothing to do ---------------------------------------------------------

  /** Options as the parser leaves them: a list of one is a plain string. */
  ghost predicate Normal(sections: seq<UCISection>) {
    forall i | 0 <= i < |sections| :: NormalOptions(sections[i].options)
  }

  predicate NormalOptions(options: map<string, Value>) {
    forall o | o in options :: options[o] == FromValues(Values(options[o]))
  }

  lemma {:induction false} ApplyAllNormal(commands: seq<Command>, sections: seq<UCISection>)
    requires Normal(sections)
    ensures Normal(ApplyAll(commands, sections))
    decreases commands
  {
    if commands != [] {
      ResolveIsInside(commands[0].section, sections);
      ApplyAllNormal(commands[1..], Apply(commands[0], sections));
    }
  }

  lemma SameOptionsAreEqual(a: map<string, Value>, b: map<string, Value>)
    requires NormalOptions(a) && NormalOptions(b) && forall o :: ValuesAt(a, o) == ValuesAt(b, o)
    ensures a == b
  {
    forall o ensures o in a <==> o in b {
      assert ValuesAt(a, o) == ValuesAt(b, o);
    }
    forall o | o in a ensures a[o] == b[o] {
      assert ValuesAt(a, o) == ValuesAt(b, o);
    }
  }

  /** Sections with the same frame and the same option values are the same. */
  lemma SameValuesAreEqual(a: seq<UCISection>, b: seq<UCISection>)
    requires SameFrame(a, b) && Normal(a) && Normal(b)
    requires forall i, o | 0 <= i < |a| :: OptionAt(a, i, o) == OptionAt(b, i, o)
    ensures a == b
  {
    forall i | 0 <= i < |a| ensures a[i] == b[i] {
      assert forall o :: ValuesAt(a[i].options, o) == ValuesAt(b[i].options, o) by {
        forall o ensures ValuesAt(a[i].options, o) == ValuesAt(b[i].options, o) {
          assert OptionAt(a, i, o) == OptionAt(b, i, o);
        }
      }
      SameOptionsAreEqual(a[i].options, b[i].options);
    }
  }

  /** The drift check passes exactly when applying the plan would change nothing. */
  lemma NoDriftMeansNoChange(commands: seq<Command>, sections: seq<UCISection>)
    requires TidyPlan(commands) && Grounded(commands, sections) && Normal(sections)
    ensures AllMatch(commands, sections) <==> ApplyAll(commands, sections) == sections
  {
    var applied := ApplyAll(commands, sections);
    MatchMeansReached(commands, sections);
    ApplyAllFrame(commands, sections);
    ApplyAllNormal(commands, sections);
    if AllMatch(commands, sections) {
      forall i, o | 0 <= i < |sections| ensures OptionAt(applied, i, o) == OptionAt(sections, i, o) {
        if j :| 0 <= j < |commands| && Writes(commands[j], sections, i, o) {
          AppliedIsReached(commands, sections, j);
          assert Reached(commands, commands[j], sections);
        } else {
          UntouchedAt(commands, sections, i, o);
        }
      }
      SameValuesAreEqual(applied, sections);
    } else if applied == sections {
      forall j | 0 <= j < |commands| ensures Reached(commands, commands[j], sections) {
        AppliedIsReached(commands, sections, j);
      }
    }
  }

  // ---- Why one section may not go by two names -----------------------------------------------

  const ALIASED_PLAN: seq<Command> := [
    Command(Delete, "dhcp", "dns", "server", ""),
    Command(AddList, "dhcp", "@dnsmasq[0]", "server", "9.9.9.9")]

  const ONE_SECTION: seq<UCISection> := [UCISection("dns", "dnsmasq", "dns", false, map[])]

  lemma AliasResolves()
    ensures Resolve("@dnsmasq[0]", ONE_SECTION) == Some(0)
  {
    var s := "@dnsmasq[0]";
    assert s[1..|s| - 1] == "dnsmasq" + ['['] + "0";
    CutFirst("dnsmasq", '[', "0");
    assert ValidName("dnsmasq") && ValidIndex("0") by {
      var digits := "0";
      assert forall i | 0 <= i < |digits| :: IsDigit(digits[i]);
    }
    assert Cut(s[1..|s| - 1], '[') == Some(("dnsmasq", "0"));
    assert Atoi("0") == 0 by {
      assert "0"[..0] == "";
    }
    NthFinds(ONE_SECTION, "dnsmasq", 0, 0);
    FindIdInside(ONE_SECTION, s);
  }

  /**
   * The check compares references as text: a list deleted under one name and
   * rebuilt under another shows drift even right after the plan was applied.
   */
  lemma AliasedPlanShowsDrift()
    ensures WellNamed(ONE_SECTION)
    ensures forall i | 0 <= i < |ALIASED_PLAN| :: Resolve(ALIASED_PLAN[i].section, ONE_SECTION) == Some(0)
    ensures !AllMatch(ALIASED_PLAN, ApplyAll(ALIASED_PLAN, ONE_SECTION))
  {
    var plan, start := ALIASED_PLAN, ONE_SECTION;
    assert ParseReference("dns").None?;
    AliasResolves();
    assert Resolve("dns", start) == Some(0);
    var deleted := Apply(plan[0], start);
    assert deleted == start;
    var applied := Apply(plan[1], deleted);
    assert plan[1..] == [plan[1]] && plan[1..][1..] == [];
    assert ApplyAll(plan, start) == applied;
    assert "server" in applied[0].options;
    assert PlannedAfter(plan[1..], plan[0]) == Some([]);
    assert MatchesReference("dns", applied[0], applied);
    assert !MatchesInPlan(0, plan, applied);
  }
}
