/**
 * The drift check: which section a reference names, when a planned command
 * counts as satisfied, and the preflight filter that drops satisfied commands.
 */
module UciDrift {
  import opened Common
  import opened ChangeSets
  import opened UciShow
  import UciHost

  // ---- References ---------------------------------------------------------------

  datatype Reference = Reference(typ: string, index: int)

  function Atoi(s: string): int {
    if s != "" && s[0] == '-' then -Digits(s[1..]) else Digits(s)
  }

  /** `@type[n]`, where a negative n counts from the end. */
  function ParseReference(s: string): Option<Reference> {
    if |s| < 2 || s[0] != '@' || s[|s| - 1] != ']' then None
    else
      var parts := Cut(s[1..|s| - 1], '[');
      if parts.None? || !ValidName(parts.value.0) || !ValidIndex(parts.value.1) then None
      else Some(Reference(parts.value.0, Atoi(parts.value.1)))
  }

  function TypeCount(sections: seq<UCISection>, typ: string): nat {
    if sections == [] then 0 else
      var n := |sections| - 1;
      TypeCount(sections[..n], typ) + if sections[n].typ == typ then 1 else 0
  }

  /** The position, among sections of a type, of the one with this id; -1 when there is none. */
  function IndexByType(sections: seq<UCISection>, typ: string, id: string): int {
    if sections == [] then -1 else
      var n := |sections| - 1;
      if sections[n].typ == typ && sections[n].id == id then TypeCount(sections[..n], typ)
      else IndexByType(sections[..n], typ, id)
  }

  predicate MatchesReference(reference: string, section: UCISection, sections: seq<UCISection>) {
    || reference == section.id
    || (var parsed := ParseReference(reference);
        && parsed.Some? && section.typ == parsed.value.typ
        && var at := IndexByType(sections, section.typ, section.id);
           at != -1 && at == if parsed.value.index < 0 then TypeCount(sections, section.typ) + parsed.value.index else parsed.value.index)
  }

  /** `uciSectionMatchesReference`. */
  method SectionMatchesReference(reference: string, section: UCISection, sections: seq<UCISection>) returns (matches: bool)
    ensures matches <==> MatchesReference(reference, section, sections)
  {
    if reference == section.id {
      return true;
    }
    var parsed := ParseReference(reference);
    if parsed.None? || section.typ != parsed.value.typ {
      return false;
    }
    var index, typ := parsed.value.index, parsed.value.typ;
    var typeIndex, lastTypeIndex, sectionTypeIndex := 0, -1, -1;
    for i := 0 to |sections|
      invariant typeIndex == TypeCount(sections[..i], typ) && lastTypeIndex == typeIndex - 1
      invariant sectionTypeIndex == IndexByType(sections[..i], typ, section.id)
    {
      assert sections[..i + 1][..i] == sections[..i];
      if sections[i].typ != typ {
        continue;
      }
      if sections[i].id == section.id {
        sectionTypeIndex := typeIndex;
      }
      lastTypeIndex := typeIndex;
      typeIndex := typeIndex + 1;
    }
    assert sections[..|sections|] == sections;
    if sectionTypeIndex == -1 {
      return false;
    }
    if index < 0 {
      return sectionTypeIndex == lastTypeIndex + index + 1;
    }
    return sectionTypeIndex == index;
  }

  // ---- What a reference names ------------------------------------------------------

  function FindId(sections: seq<UCISection>, id: string): Option<nat> {
    if sections == [] then None else
      var n := |sections| - 1;
      if sections[n].id == id then Some(n) else FindId(sections[..n], id)
  }

  function NthOfType(sections: seq<UCISection>, typ: string, k: int): Option<nat> {
    if sections == [] then None else
      var n := |sections| - 1;
      if sections[n].typ == typ && TypeCount(sections[..n], typ) == k then Some(n) else NthOfType(sections[..n], typ, k)
  }

  function PlaceOf(reference: Reference, sections: seq<UCISection>): int {
    if reference.index < 0 then TypeCount(sections, reference.typ) + reference.index else reference.index
  }

  /** The section UCI itself would pick: by id, else by position within a type. */
  function Resolve(reference: string, sections: seq<UCISection>): Option<nat> {
    var byId := FindId(sections, reference);
    if byId.Some? then byId else
      var parsed := ParseReference(reference);
      if parsed.None? then None else NthOfType(sections, parsed.value.typ, PlaceOf(parsed.value, sections))
  }

  /** Ids are distinct, and an id of the form `@type[n]` tells the section's own place. */
  ghost predicate WellNamed(sections: seq<UCISection>) {
    && (forall i, j | 0 <= i < j < |sections| :: sections[i].id != sections[j].id)
    && (forall i | 0 <= i < |sections| && ParseReference(sections[i].id).Some? ::
          var own := ParseReference(sections[i].id).value;
          own.typ == sections[i].typ && PlaceOf(own, sections) == TypeCount(sections[..i], own.typ))
  }

  lemma {:induction false} FindIdFinds(sections: seq<UCISection>, id: string, i: nat)
    requires forall k, l | 0 <= k < l < |sections| :: sections[k].id != sections[l].id
    requires i < |sections|
    ensures FindId(sections, id) == Some(i) <==> sections[i].id == id
    decreases |sections|
  {
    var n := |sections| - 1;
    if i < n {
      FindIdFinds(sections[..n], id, i);
    } else if sections[n].id != id && FindId(sections[..n], id).Some? {
      FindIdInside(sections[..n], id);
    }
  }

  lemma {:induction false} FindIdInside(sections: seq<UCISection>, id: string)
    ensures FindId(sections, id).Some? ==> FindId(sections, id).value < |sections| && sections[FindId(sections, id).value].id == id
    decreases |sections|
  {
    if sections != [] {
      FindIdInside(sections[..|sections| - 1], id);
    }
  }

  lemma {:induction false} TypeCountGrows(sections: seq<UCISection>, typ: string, i: nat)
    requires i < |sections| && sections[i].typ == typ
    ensures TypeCount(sections[..i], typ) < TypeCount(sections, typ)
    decreases |sections|
  {
    var n := |sections| - 1;
    if i < n {
      TypeCountGrows(sections[..n], typ, i);
      assert sections[..n][..i] == sections[..i];
    }
  }

  lemma {:induction false} NthFinds(sections: seq<UCISection>, typ: string, k: int, i: nat)
    requires i < |sections|
    ensures NthOfType(sections, typ, k) == Some(i) <==> sections[i].typ == typ && TypeCount(sections[..i], typ) == k
    decreases |sections|
  {
    var n := |sections| - 1;
    if i < n {
      NthFinds(sections[..n], typ, k, i);
      assert sections[..n][..i] == sections[..i];
      if sections[i].typ == typ {
        TypeCountGrows(sections[..n], typ, i);
      }
    } else {
      NthInside(sections[..n], typ, k);
    }
  }

  lemma {:induction false} NthInside(sections: seq<UCISection>, typ: string, k: int)
    ensures NthOfType(sections, typ, k).Some? ==> NthOfType(sections, typ, k).value < |sections|
    decreases |sections|
  {
    if sections != [] {
      NthInside(sections[..|sections| - 1], typ, k);
    }
  }

  lemma {:induction false} IndexIsPlace(sections: seq<UCISection>, i: nat)
    requires forall k, l | 0 <= k < l < |sections| :: sections[k].id != sections[l].id
    requires i < |sections|
    ensures IndexByType(sections, sections[i].typ, sections[i].id) == TypeCount(sections[..i], sections[i].typ)
    decreases |sections|
  {
    var n := |sections| - 1;
    if i < n {
      IndexIsPlace(sections[..n], i);
      assert sections[..n][..i] == sections[..i];
    }
  }

  lemma ResolveIsInside(reference: string, sections: seq<UCISection>)
    ensures Resolve(reference, sections).Some? ==> Resolve(reference, sections).value < |sections|
  {
    FindIdInside(sections, reference);
    if ParseReference(reference).Some? {
      NthInside(sections, ParseReference(reference).value.typ, PlaceOf(ParseReference(reference).value, sections));
    }
  }

  /** A reference matches exactly the one section it names, in either notation. */
  lemma ReferenceNamesOneSection(reference: string, sections: seq<UCISection>, i: nat)
    requires WellNamed(sections) && i < |sections|
    ensures MatchesReference(reference, sections[i], sections) <==> Resolve(reference, sections) == Some(i)
  {
    FindIdFinds(sections, reference, i);
    FindIdInside(sections, reference);
    IndexIsPlace(sections, i);
    var parsed := ParseReference(reference);
    if parsed.Some? {
      NthFinds(sections, parsed.value.typ, PlaceOf(parsed.value, sections), i);
      var byId := FindId(sections, reference);
      if byId.Some? && byId.value != i {
        // The id of another section: that section has the place, and places are unique.
        NthFinds(sections, parsed.value.typ, PlaceOf(parsed.value, sections), byId.value);
      }
    }
  }

  // ---- When a command counts as satisfied ---------------------------------------------

  predicate ValueMatches(action: Action, observed: Value, want: string) {
    if action.AddList? then want in Values(observed)
    else if action.DelList? then want !in Values(observed)
    else Values(observed) == [want]
  }

  predicate SameOption(a: Command, b: Command) {
    a.config == b.config && a.section == b.section && a.option == b.option
  }

  /** The list a deleted option is rebuilt to; None when another write intervenes. */
  function PlannedAfter(later: seq<Command>, command: Command): Option<seq<string>> {
    if later == [] then Some([]) else
      var rest := PlannedAfter(later[1..], command);
      if !SameOption(later[0], command) then rest
      else match later[0].action
        case AddList => if rest.None? then None else Some([later[0].value] + rest.value)
        case Set | Delete | DelList => None
        case _ => rest
  }

  function Onto(done: seq<string>, rest: Option<seq<string>>): Option<seq<string>> {
    if rest.None? then None else Some(done + rest.value)
  }

  lemma OntoMore(done: seq<string>, value: string, rest: Option<seq<string>>)
    ensures Onto(done, Onto([value], rest)) == Onto(done + [value], rest)
  {
    if rest.Some? {
      assert done + ([value] + rest.value) == (done + [value]) + rest.value;
    }
  }

  lemma OntoNothing(rest: Option<seq<string>>)
    ensures Onto([], rest) == rest
  {
    if rest.Some? {
      assert [] + rest.value == rest.value;
    }
  }

  /** `plannedListAfterDelete`: the empty list means that nothing is planned. */
  method PlannedListAfterDelete(index: nat, commands: seq<Command>) returns (desired: Option<seq<string>>)
    requires index < |commands|
    ensures desired == PlannedAfter(commands[index + 1..], commands[index])
  {
    var command, later := commands[index], commands[index + 1..];
    var values: seq<string> := [];
    assert later[0..] == later;
    OntoNothing(PlannedAfter(later, command));
    for i := 0 to |later|
      invariant PlannedAfter(later, command) == Onto(values, PlannedAfter(later[i..], command))
    {
      assert later[i..][0] == later[i] && later[i..][1..] == later[i + 1..];
      if !SameOption(later[i], command) {
        continue;
      }
      match later[i].action
      case AddList =>
        OntoMore(values, later[i].value, PlannedAfter(later[i + 1..], command));
        values := values + [later[i].value];
      case Set | Delete | DelList => return None;
      case _ =>
    }
    assert later[|later|..] == [] && values + [] == values;
    return Some(values);
  }

  /** Where a command writes, as the plan names it. */
  function Target(c: Command): (string, string, string) { (c.config, c.section, c.option) }

  /** The values that later commands add to the option, in order. */
  function LaterAdds(later: seq<Command>, command: Command): seq<string> {
    if later == [] then [] else
      (if Target(later[0]) == Target(command) && later[0].action == AddList then [later[0].value] else []) + LaterAdds(later[1..], command)
  }

  /** A set, a delete or a del_list of the same option comes later. */
  predicate Intervenes(later: seq<Command>, command: Command) {
    exists i | 0 <= i < |later| :: Target(later[i]) == Target(command) && later[i].action in {Set, Delete, DelList}
  }

  /** A deleted option is rebuilt to exactly what is added to it later, and to nothing when another write intervenes anywhere. */
  lemma {:induction false} RebuiltExactly(later: seq<Command>, command: Command)
    ensures PlannedAfter(later, command) == if Intervenes(later, command) then None else Some(LaterAdds(later, command))
    decreases later
  {
    if later != [] {
      var rest := later[1..];
      RebuiltExactly(rest, command);
      if i :| 0 <= i < |rest| && Target(rest[i]) == Target(command) && rest[i].action in {Set, Delete, DelList} {
        assert later[i + 1] == rest[i];
      }
      if i :| 0 < i < |later| && Target(later[i]) == Target(command) && later[i].action in {Set, Delete, DelList} {
        assert rest[i - 1] == later[i];
      }
      assert [] + LaterAdds(rest, command) == LaterAdds(rest, command);
    }
  }

  /** The first section, from k on, that the reference matches. */
  function FirstMatch(reference: string, sections: seq<UCISection>, k: nat): (r: Option<nat>)
    requires k <= |sections|
    ensures r.Some? ==> k <= r.value < |sections| && MatchesReference(reference, sections[r.value], sections)
    ensures r.None? ==> forall i | k <= i < |sections| :: !MatchesReference(reference, sections[i], sections)
    decreases |sections| - k
  {
    if k == |sections| then None
    else if MatchesReference(reference, sections[k], sections) then Some(k)
    else FirstMatch(reference, sections, k + 1)
  }

  /** `uciCommandMatchesObserved`. */
  predicate CommandMatches(c: Command, sections: seq<UCISection>) {
    if c.action.EnsureHost? then UciHost.HostMatches(c, sections)
    else if c.action.Delete? then
      var first := FirstMatch(c.section, sections, 0);
      first.None? || (c.option != "" && c.option !in sections[first.value].options)
    else
      exists i | 0 <= i < |sections| ::
        && MatchesReference(c.section, sections[i], sections)
        && c.option in sections[i].options && ValueMatches(c.action, sections[i].options[c.option], c.value)
  }

  /** Where each reference names one section, a command is judged by that section's option alone. */
  lemma MatchesExactly(c: Command, sections: seq<UCISection>)
    requires WellNamed(sections) && !c.action.EnsureHost?
    ensures var at := Resolve(c.section, sections);
            && (at.Some? ==> at.value < |sections|)
            && var present := at.Some? && c.option in sections[at.value].options;
            && var have := if present then Values(sections[at.value].options[c.option]) else [];
            && (c.action == Delete ==> (CommandMatches(c, sections) <==> at == None || (c.option != "" && !present)))
            && (c.action == AddList ==> (CommandMatches(c, sections) <==> present && exists k | 0 <= k < |have| :: have[k] == c.value))
            && (c.action == DelList ==> (CommandMatches(c, sections) <==> present && forall k | 0 <= k < |have| :: have[k] != c.value))
            && (c.action !in {Delete, AddList, DelList} ==> (CommandMatches(c, sections) <==> present && have == [c.value]))
  {
    ResolveIsInside(c.section, sections);
    forall i | 0 <= i < |sections| ensures MatchesReference(c.section, sections[i], sections) <==> Resolve(c.section, sections) == Some(i) {
      ReferenceNamesOneSection(c.section, sections, i);
    }
  }

  /** Adding and removing a value are satisfied in opposite cases, and neither without the option. */
  lemma AddAndRemoveExclude(c: Command, sections: seq<UCISection>)
    requires WellNamed(sections)
    ensures var at := Resolve(c.section, sections);
            var add, remove := CommandMatches(c.(action := AddList), sections), CommandMatches(c.(action := DelList), sections);
            && (at.Some? ==> at.value < |sections|)
            && if at.Some? && c.option in sections[at.value].options then add != remove else !add && !remove
  {
    MatchesExactly(c.(action := AddList), sections);
    MatchesExactly(c.(action := DelList), sections);
  }

  method CommandMatchesObserved(c: Command, sections: seq<UCISection>) returns (matches: bool)
    ensures matches <==> CommandMatches(c, sections)
  {
    if c.action.EnsureHost? {
      matches := UciHost.HostMatchesObserved(c, sections);
      return;
    }
    for i := 0 to |sections|
      invariant c.action.Delete? ==> FirstMatch(c.section, sections, 0) == FirstMatch(c.section, sections, i)
      invariant !c.action.Delete? ==> forall k | 0 <= k < i && MatchesReference(c.section, sections[k], sections) ::
                  !(c.option in sections[k].options && ValueMatches(c.action, sections[k].options[c.option], c.value))
    {
      var here := SectionMatchesReference(c.section, sections[i], sections);
      if !here {
        continue;
      }
      if c.action.Delete? {
        return c.option != "" && c.option !in sections[i].options;
      }
      if c.option in sections[i].options && ValueMatches(c.action, sections[i].options[c.option], c.value) {
        return true;
      }
    }
    return c.action.Delete?;
  }

  /** `observedUCIOption`. */
  function ObservedOption(reference: string, option: string, sections: seq<UCISection>): Option<Value> {
    var first := FirstMatch(reference, sections, 0);
    if first.None? || option !in sections[first.value].options then None
    else Some(sections[first.value].options[option])
  }

  predicate MatchesInPlan(index: nat, commands: seq<Command>, sections: seq<UCISection>)
    requires index < |commands|
  {
    var c := commands[index];
    var desired := PlannedAfter(commands[index + 1..], c);
    if c.action.Delete? && desired.Some? && desired.value != [] then
      var observed := ObservedOption(c.section, c.option, sections);
      observed.Some? && Values(observed.value) == desired.value
    else CommandMatches(c, sections)
  }

  /** `uciCommandMatchesObservedInPlan`. */
  method CommandMatchesObservedInPlan(index: nat, commands: seq<Command>, sections: seq<UCISection>) returns (matches: bool)
    requires index < |commands|
    ensures matches <==> MatchesInPlan(index, commands, sections)
  {
    var c := commands[index];
    if c.action.Delete? {
      var desired := PlannedListAfterDelete(index, commands);
      if desired.Some? && desired.value != [] {
        var observed := ObservedOption(c.section, c.option, sections);
        return observed.Some? && Values(observed.value) == desired.value;
      }
    }
    matches := CommandMatchesObserved(c, sections);
  }

  /** `isDefaultDifference`. */
  predicate DefaultDifference(c: Command) {
    c.config == "wireless" && c.option == "disabled" && c.value == "0"
  }

  predicate Dropped(index: nat, commands: seq<Command>, sections: seq<UCISection>)
    requires index < |commands|
  {
    commands[index].option != "" && (MatchesInPlan(index, commands, sections) || DefaultDifference(commands[index]))
  }

  /** The commands from index k on that the preflight filter keeps. */
  function Kept(commands: seq<Command>, sections: seq<UCISection>, k: nat): seq<Command>
    requires k <= |commands|
    decreases |commands| - k
  {
    if k == |commands| then []
    else (if Dropped(k, commands, sections) then [] else [commands[k]]) + Kept(commands, sections, k + 1)
  }

  /** `filterUCICommandsByObservedState`. */
  method FilterCommandsByObservedState(commands: seq<Command>, sections: seq<UCISection>) returns (filtered: seq<Command>)
    ensures filtered == Kept(commands, sections, 0)
  {
    filtered := [];
    assert [] + Kept(commands, sections, 0) == Kept(commands, sections, 0);
    for index := 0 to |commands|
      invariant filtered + Kept(commands, sections, index) == Kept(commands, sections, 0)
    {
      if commands[index].option != "" {
        var matches := CommandMatchesObservedInPlan(index, commands, sections);
        if matches || DefaultDifference(commands[index]) {
          assert [] + Kept(commands, sections, index + 1) == Kept(commands, sections, index + 1);
          continue;
        }
      }
      assert filtered + ([commands[index]] + Kept(commands, sections, index + 1)) == (filtered + [commands[index]]) + Kept(commands, sections, index + 1);
      filtered := filtered + [commands[index]];
    }
    assert filtered + [] == filtered;
  }
}
