/**
 * The preflight filter drops the commands whose effect the device already
 * shows. For list options that is not always harmless: this module says exactly
 * when the filtered plan still has the effect of the whole plan.
 */
module UciFilter {
  import opened Common
  import opened ChangeSets
  import opened UciShow
  import opened UciDrift
  import opened UciPlan

  /** The filter drops a command although its option does not have its planned value. */
  ghost predicate Loses(commands: seq<Command>, j: nat, sections: seq<UCISection>)
    requires j < |commands| && Resolve(commands[j].section, sections).Some?
  {
    Dropped(j, commands, sections) && !Reached(commands, commands[j], sections)
  }

  ghost predicate LosesNothing(commands: seq<Command>, sections: seq<UCISection>)
    requires Resolvable(commands, sections)
  {
    forall j | 0 <= j < |commands| :: !Loses(commands, j, sections)
  }

  // ---- Which commands are kept -------------------------------------------------------------

  /** The default that an access point may leave out. */
  predicate MayBeLeftOut(c: Command) { c.config == "wireless" && c.option == "disabled" && c.value == "0" }

  ghost predicate KeptAt(kept: seq<Command>, commands: seq<Command>, places: seq<nat>) {
    && |places| == |kept|
    && (forall i, j | 0 <= i < j < |places| :: places[i] < places[j])
    && (forall i | 0 <= i < |places| :: places[i] < |commands| && kept[i] == commands[places[i]])
  }

  lemma OneMoreKept(kept: seq<Command>, commands: seq<Command>, places: seq<nat>, k: nat)
    requires KeptAt(kept, commands, places) && k < |commands| && forall i | 0 <= i < |places| :: k < places[i]
    ensures KeptAt([commands[k]] + kept, commands, [k] + places)
  {
    var all := [k] + places;
    forall i, j | 0 <= i < j < |all| ensures all[i] < all[j] {
      assert all[j] == places[j - 1] && (i > 0 ==> all[i] == places[i - 1]);
    }
  }

  /**
   * The filter keeps the commands at these places, in order: all that name no
   * option, and of the others those that are neither satisfied nor a default
   * that may be left out.
   */
  lemma {:induction false} FilterKeepsExactly(commands: seq<Command>, sections: seq<UCISection>, k: nat) returns (places: seq<nat>)
    requires k <= |commands|
    ensures KeptAt(Kept(commands, sections, k), commands, places)
    ensures forall j: nat :: j in places <==>
              k <= j < |commands| && (commands[j].option == "" || !(MatchesInPlan(j, commands, sections) || MayBeLeftOut(commands[j])))
    decreases |commands| - k
  {
    if k == |commands| {
      places := [];
    } else {
      var rest := FilterKeepsExactly(commands, sections, k + 1);
      var kept := Kept(commands, sections, k + 1);
      forall i | 0 <= i < |rest| ensures k < rest[i] {
        assert rest[i] in rest;
      }
      if Dropped(k, commands, sections) {
        assert [] + kept == kept;
        places := rest;
      } else {
        OneMoreKept(kept, commands, rest, k);
        places := [k] + rest;
      }
    }
  }

  // ---- What the kept commands do to one option ------------------------------------------

  predicate HasKey(c: Command, section: string, option: string) { c.section == section && c.option == option }

  /** The values of the `add_list`s for one option, from index k on, that are kept. */
  function KeptAdded(commands: seq<Command>, sections: seq<UCISection>, section: string, option: string, k: nat): seq<string>
    requires k <= |commands|
    decreases |commands| - k
  {
    if k == |commands| then []
    else (if HasKey(commands[k], section, option) && !Dropped(k, commands, sections) then [commands[k].value] else [])
         + KeptAdded(commands, sections, section, option, k + 1)
  }

  /** The option after the kept commands, from index k on, that have its name. */
  function KeptAfter(commands: seq<Command>, sections: seq<UCISection>, section: string, option: string, before: Option<seq<string>>, k: nat): Option<seq<string>>
    requires k <= |commands|
    decreases |commands| - k
  {
    if k == |commands| then before else
      var next := if HasKey(commands[k], section, option) && !Dropped(k, commands, sections) then Effect(commands[k], before) else before;
      KeptAfter(commands, sections, section, option, next, k + 1)
  }

  lemma {:induction false} AfterKept(commands: seq<Command>, sections: seq<UCISection>, section: string, option: string, before: Option<seq<string>>, k: nat)
    requires k <= |commands|
    ensures After(Kept(commands, sections, k), section, option, before) == KeptAfter(commands, sections, section, option, before, k)
    decreases |commands| - k
  {
    if k < |commands| {
      var rest := Kept(commands, sections, k + 1);
      if Dropped(k, commands, sections) {
        assert [] + rest == rest;
        AfterKept(commands, sections, section, option, before, k + 1);
      } else {
        AfterKept(commands, sections, section, option, if HasKey(commands[k], section, option) then Effect(commands[k], before) else before, k + 1);
      }
    }
  }

  lemma {:induction false} KeptSkips(commands: seq<Command>, sections: seq<UCISection>, section: string, option: string, before: Option<seq<string>>, j: nat, k: nat)
    requires j <= k <= |commands|
    requires forall l | j <= l < k :: !HasKey(commands[l], section, option)
    ensures KeptAfter(commands, sections, section, option, before, j) == KeptAfter(commands, sections, section, option, before, k)
    decreases k - j
  {
    if j < k {
      KeptSkips(commands, sections, section, option, before, j + 1, k);
    }
  }

  lemma {:induction false} KeptAdds(commands: seq<Command>, sections: seq<UCISection>, section: string, option: string, before: Option<seq<string>>, k: nat)
    requires k <= |commands| && OnlyAdds(commands[k..], section, option)
    ensures KeptAfter(commands, sections, section, option, before, k) == Extended(before, KeptAdded(commands, sections, section, option, k))
    decreases |commands| - k
  {
    if k < |commands| {
      var c, rest := commands[k], KeptAdded(commands, sections, section, option, k + 1);
      assert commands[k..][0] == c && commands[k..][1..] == commands[k + 1..];
      if HasKey(c, section, option) && !Dropped(k, commands, sections) {
        KeptAdds(commands, sections, section, option, Effect(c, before), k + 1);
        ExtendedStep(before, c.value, rest);
      } else {
        KeptAdds(commands, sections, section, option, before, k + 1);
        assert [] + rest == rest;
      }
    }
  }

  /** The kept values are all of them exactly when none of these commands is dropped. */
  lemma {:induction false} KeptAddedCompletely(commands: seq<Command>, sections: seq<UCISection>, section: string, option: string, k: nat)
    requires k <= |commands|
    ensures |KeptAdded(commands, sections, section, option, k)| <= |Added(commands[k..], section, option)|
    ensures (forall l | k <= l < |commands| && HasKey(commands[l], section, option) :: !Dropped(l, commands, sections))
            <==> KeptAdded(commands, sections, section, option, k) == Added(commands[k..], section, option)
    ensures |KeptAdded(commands, sections, section, option, k)| == |Added(commands[k..], section, option)|
            ==> KeptAdded(commands, sections, section, option, k) == Added(commands[k..], section, option)
    decreases |commands| - k
  {
    if k < |commands| {
      assert commands[k..][0] == commands[k] && commands[k..][1..] == commands[k + 1..];
      KeptAddedCompletely(commands, sections, section, option, k + 1);
    }
  }

  lemma {:induction false} AllDropped(commands: seq<Command>, sections: seq<UCISection>, section: string, option: string, before: Option<seq<string>>, k: nat)
    requires k <= |commands|
    requires forall l | k <= l < |commands| && HasKey(commands[l], section, option) :: Dropped(l, commands, sections)
    ensures KeptAfter(commands, sections, section, option, before, k) == before
    decreases |commands| - k
  {
    if k < |commands| {
      AllDropped(commands, sections, section, option, before, k + 1);
    }
  }

  // ---- One option --------------------------------------------------------------------------

  /** What the filtered plan leaves in the option that command k starts to write. */
  ghost function FilteredValue(commands: seq<Command>, sections: seq<UCISection>, k: nat): Option<seq<string>>
    requires k < |commands| && Resolve(commands[k].section, sections).Some?
  {
    KeptAfter(commands, sections, commands[k].section, commands[k].option, OptionAt(sections, Place(commands[k], sections), commands[k].option), 0)
  }

  /** No command that writes the option of command k is lost. */
  ghost predicate KeyLosesNothing(commands: seq<Command>, sections: seq<UCISection>, k: nat)
    requires Grounded(commands, sections) && k < |commands|
  {
    forall j | 0 <= j < |commands| && SameKey(commands[k], commands[j]) :: !Loses(commands, j, sections)
  }

  lemma ReachedKeyIsDropped(commands: seq<Command>, sections: seq<UCISection>, k: nat)
    requires TidyPlan(commands) && Grounded(commands, sections) && k < |commands| && Leads(commands[k])
    requires Reached(commands, commands[k], sections)
    ensures FilteredValue(commands, sections, k) == Planned(commands, commands[k]) && KeyLosesNothing(commands, sections, k)
  {
    var c := commands[k];
    LeaderMatches(commands, sections, k);
    BehindLeader(commands, k);
    forall l | 0 <= l < |commands| && HasKey(commands[l], c.section, c.option) ensures Dropped(l, commands, sections) {
      assert SameKey(commands[l], c);
      if l != k {
        assert l > k && SameKey(commands[k], commands[l]);
        AddMatches(commands, sections, k, l);
      }
    }
    AllDropped(commands, sections, c.section, c.option, OptionAt(sections, Place(c, sections), c.option), 0);
  }

  lemma UnreachedSet(commands: seq<Command>, sections: seq<UCISection>, k: nat)
    requires TidyPlan(commands) && Grounded(commands, sections) && k < |commands| && commands[k].action.Set?
    requires !Reached(commands, commands[k], sections)
    ensures FilteredValue(commands, sections, k) == Planned(commands, commands[k]) <==> KeyLosesNothing(commands, sections, k)
  {
    var c := commands[k];
    var before := OptionAt(sections, Place(c, sections), c.option);
    BehindLeader(commands, k);
    PlanFixesOption(commands, k, None);
    forall j | 0 <= j < |commands| && SameKey(commands[k], commands[j]) ensures j == k {
      if j < k {
        assert SameKey(commands[j], commands[k]);
      }
    }
    KeptSkips(commands, sections, c.section, c.option, before, 0, k);
    KeptSkips(commands, sections, c.section, c.option, if Dropped(k, commands, sections) then before else Effect(c, before), k + 1, |commands|);
  }

  lemma UnreachedDelete(commands: seq<Command>, sections: seq<UCISection>, k: nat)
    requires TidyPlan(commands) && Grounded(commands, sections) && k < |commands| && commands[k].action.Delete?
    requires !Reached(commands, commands[k], sections)
    ensures FilteredValue(commands, sections, k) == Planned(commands, commands[k]) <==> KeyLosesNothing(commands, sections, k)
  {
    var c := commands[k];
    var before := OptionAt(sections, Place(c, sections), c.option);
    LeaderMatches(commands, sections, k);
    BehindLeader(commands, k);
    PlanFixesOption(commands, k, None);
    assert !Dropped(k, commands, sections);
    KeptSkips(commands, sections, c.section, c.option, before, 0, k);
    KeptAdds(commands, sections, c.section, c.option, None, k + 1);
    KeptAddedCompletely(commands, sections, c.section, c.option, k + 1);
    DroppedBehind(commands, sections, k);
    var added, kept := Added(commands[k + 1..], c.section, c.option), KeptAdded(commands, sections, c.section, c.option, k + 1);
    assert [] + kept == kept;
    assert FilteredValue(commands, sections, k) == if kept == [] then None else Some(kept);
  }

  /** Of an option that must be rebuilt, exactly the dropped `add_list`s are lost. */
  lemma DroppedBehind(commands: seq<Command>, sections: seq<UCISection>, k: nat)
    requires TidyPlan(commands) && Grounded(commands, sections) && k < |commands| && commands[k].action.Delete?
    requires !Reached(commands, commands[k], sections) && !Dropped(k, commands, sections)
    ensures KeyLosesNothing(commands, sections, k) <==>
            forall l | k + 1 <= l < |commands| && HasKey(commands[l], commands[k].section, commands[k].option) :: !Dropped(l, commands, sections)
  {
    BehindLeader(commands, k);
    forall j | 0 <= j < |commands| && SameKey(commands[k], commands[j])
      ensures j >= k && (Loses(commands, j, sections) <==> Dropped(j, commands, sections))
    {
      if j < k {
        assert SameKey(commands[j], commands[k]);
      }
    }
  }

  /** The filtered plan gives an option its planned value exactly when the filter loses none of its commands. */
  lemma FilteredOption(commands: seq<Command>, sections: seq<UCISection>, k: nat)
    requires TidyPlan(commands) && Grounded(commands, sections) && k < |commands| && Leads(commands[k])
    ensures FilteredValue(commands, sections, k) == Planned(commands, commands[k]) <==> KeyLosesNothing(commands, sections, k)
  {
    if Reached(commands, commands[k], sections) {
      ReachedKeyIsDropped(commands, sections, k);
    } else if commands[k].action.Set? {
      UnreachedSet(commands, sections, k);
    } else {
      UnreachedDelete(commands, sections, k);
    }
  }

  // ---- The whole plan -------------------------------------------------------------------------

  lemma {:induction false} KeptAreCommands(commands: seq<Command>, sections: seq<UCISection>, k: nat)
    requires k <= |commands|
    ensures forall c | c in Kept(commands, sections, k) :: c in commands
    decreases |commands| - k
  {
    if k < |commands| {
      KeptAreCommands(commands, sections, k + 1);
    }
  }

  lemma KeptNames(commands: seq<Command>, sections: seq<UCISection>, j: nat)
    requires Grounded(commands, sections) && j < |commands|
    ensures NamesOnly(Kept(commands, sections, 0), sections, commands[j].section, Place(commands[j], sections), commands[j].option)
  {
    var kept := Kept(commands, sections, 0);
    KeptAreCommands(commands, sections, 0);
    GroundedNames(commands, sections, j);
    forall k | 0 <= k < |kept| && kept[k].option == commands[j].option
      ensures Resolve(kept[k].section, sections) == Some(Place(commands[j], sections)) <==> kept[k].section == commands[j].section
    {
      assert kept[k] in commands;
      var l :| 0 <= l < |commands| && commands[l] == kept[k];
    }
  }

  lemma FilteredAt(commands: seq<Command>, sections: seq<UCISection>, k: nat)
    requires TidyPlan(commands) && Grounded(commands, sections) && k < |commands|
    ensures |ApplyAll(Kept(commands, sections, 0), sections)| == |sections| == |ApplyAll(commands, sections)|
    ensures OptionAt(ApplyAll(Kept(commands, sections, 0), sections), Place(commands[k], sections), commands[k].option) == FilteredValue(commands, sections, k)
    ensures OptionAt(ApplyAll(commands, sections), Place(commands[k], sections), commands[k].option) == Planned(commands, commands[k])
  {
    KeptNames(commands, sections, k);
    var i, c := Place(commands[k], sections), commands[k];
    ApplyAllAt(Kept(commands, sections, 0), sections, c.section, i, c.option);
    AfterKept(commands, sections, c.section, c.option, OptionAt(sections, i, c.option), 0);
    AppliedIsReached(commands, sections, k);
  }

  lemma UntouchedByBoth(commands: seq<Command>, sections: seq<UCISection>, i: nat, option: string)
    requires i < |sections|
    requires forall k | 0 <= k < |commands| :: !Writes(commands[k], sections, i, option)
    ensures |ApplyAll(Kept(commands, sections, 0), sections)| == |sections| == |ApplyAll(commands, sections)|
    ensures OptionAt(ApplyAll(Kept(commands, sections, 0), sections), i, option) == OptionAt(ApplyAll(commands, sections), i, option)
  {
    var kept := Kept(commands, sections, 0);
    KeptAreCommands(commands, sections, 0);
    forall k | 0 <= k < |kept| ensures !Writes(kept[k], sections, i, option) {
      assert kept[k] in commands;
    }
    UntouchedAt(kept, sections, i, option);
    UntouchedAt(commands, sections, i, option);
  }

  lemma LosslessFilter(commands: seq<Command>, sections: seq<UCISection>)
    requires TidyPlan(commands) && Grounded(commands, sections) && Normal(sections) && LosesNothing(commands, sections)
    ensures ApplyAll(Kept(commands, sections, 0), sections) == ApplyAll(commands, sections)
  {
    var kept := Kept(commands, sections, 0);
    var filtered, applied := ApplyAll(kept, sections), ApplyAll(commands, sections);
    ApplyAllFrame(kept, sections);
    ApplyAllFrame(commands, sections);
    ApplyAllNormal(kept, sections);
    ApplyAllNormal(commands, sections);
    forall i, o | 0 <= i < |sections| ensures OptionAt(filtered, i, o) == OptionAt(applied, i, o) {
      if j :| 0 <= j < |commands| && Writes(commands[j], sections, i, o) {
        var k := LeaderOf(commands, j);
        FilteredOption(commands, sections, k);
        FilteredAt(commands, sections, k);
      } else {
        UntouchedByBoth(commands, sections, i, o);
      }
    }
    SameValuesAreEqual(filtered, applied);
  }

  lemma LossyFilter(commands: seq<Command>, sections: seq<UCISection>, j: nat)
    requires TidyPlan(commands) && Grounded(commands, sections) && j < |commands| && Loses(commands, j, sections)
    ensures ApplyAll(Kept(commands, sections, 0), sections) != ApplyAll(commands, sections)
  {
    var k := LeaderOf(commands, j);
    assert SameKey(commands[k], commands[j]);
    FilteredOption(commands, sections, k);
    FilteredAt(commands, sections, k);
  }

  /**
   * Filtering a tidy plan keeps its effect if and only if no dropped command
   * belongs to an option that still lacks its planned value.
   */
  lemma FilterKeepsEffectExactly(commands: seq<Command>, sections: seq<UCISection>)
    requires TidyPlan(commands) && Grounded(commands, sections) && Normal(sections)
    ensures ApplyAll(Kept(commands, sections, 0), sections) == ApplyAll(commands, sections) <==> LosesNothing(commands, sections)
  {
    if LosesNothing(commands, sections) {
      LosslessFilter(commands, sections);
    } else {
      var j :| 0 <= j < |commands| && Loses(commands, j, sections);
      LossyFilter(commands, sections, j);
    }
  }

  /** The value is already in the list, and the list is not the planned one. */
  ghost predicate PresentInWrongList(commands: seq<Command>, sections: seq<UCISection>, c: Command)
    requires Resolve(c.section, sections).Some?
  {
    var observed := OptionAt(sections, Place(c, sections), c.option);
    observed.Some? && c.value in observed.value && observed != Planned(commands, c)
  }

  /** An `add_list` of a value that is already in a list which must be rebuilt is always lost. */
  lemma PresentValueIsLost(commands: seq<Command>, sections: seq<UCISection>, j: nat)
    requires TidyPlan(commands) && Grounded(commands, sections) && j < |commands| && commands[j].action.AddList?
    requires PresentInWrongList(commands, sections, commands[j])
    ensures ApplyAll(Kept(commands, sections, 0), sections) != ApplyAll(commands, sections)
  {
    var c := commands[j];
    FirstMatchIsPlace(c, sections);
    assert MatchesReference(c.section, sections[Place(c, sections)], sections);
    LossyFilter(commands, sections, j);
  }

  // ---- A plan that loses a server ----------------------------------------------------------------

  const RESET_PLAN: seq<Command> := [
    Command(Delete, "dhcp", "dns", "server", ""),
    Command(AddList, "dhcp", "dns", "server", "9.9.9.9"),
    Command(AddList, "dhcp", "dns", "server", "1.1.1.1")]

  const OBSERVED: seq<UCISection> := [UCISection("dns", "dnsmasq", "dns", false, map["server" := List(["9.9.9.9", "8.8.8.8"])])]

  /** A device that already lists one of two planned servers: the filtered plan is not the plan. */
  lemma ResetPlanLosesAServer()
    ensures TidyPlan(RESET_PLAN) && Grounded(RESET_PLAN, OBSERVED)
    ensures ApplyAll(Kept(RESET_PLAN, OBSERVED, 0), OBSERVED) != ApplyAll(RESET_PLAN, OBSERVED)
  {
    ResetPlanIsTidy();
    ResetPlanPlans();
    var observed := OptionAt(OBSERVED, Place(RESET_PLAN[1], OBSERVED), "server");
    assert observed == Some(["9.9.9.9", "8.8.8.8"]) && ["9.9.9.9", "8.8.8.8"][1] != ["9.9.9.9", "1.1.1.1"][1];
    PresentValueIsLost(RESET_PLAN, OBSERVED, 1);
  }

  lemma ResetPlanIsTidy()
    ensures TidyPlan(RESET_PLAN) && Grounded(RESET_PLAN, OBSERVED)
    ensures Resolve("dns", OBSERVED) == Some(0)
  {
    var plan := RESET_PLAN;
    assert SameKey(plan[0], plan[1]) && SameKey(plan[0], plan[2]);
    assert HasLeader(plan, 1) && HasLeader(plan, 2);
    assert ParseReference("dns").None?;
  }

  lemma ResetPlanPlans()
    requires TidyPlan(RESET_PLAN)
    ensures Planned(RESET_PLAN, RESET_PLAN[1]) == Some(["9.9.9.9", "1.1.1.1"])
  {
    var plan := RESET_PLAN;
    PlanFixesOption(plan, 0, None);
    assert plan[1..] == [plan[1], plan[2]] && plan[1..][1..] == [plan[2]] && plan[1..][1..][1..] == [];
    assert Added(plan[1..], "dns", "server") == ["9.9.9.9", "1.1.1.1"];
  }
}
