/** Static leases: lists of MAC addresses and when the device already has the lease. */
module UciHost {
  import opened Common
  import opened ChangeSets
  import opened UciShow

  predicate IsHexDigit(c: char) { IsDigit(c) || 'a' <= c <= 'f' || 'A' <= c <= 'F' }

  /** What stands at place i of an address: two hexadecimal digits, then a colon. */
  predicate MacChar(i: nat, c: char) { if i % 3 == 2 then c == ':' else IsHexDigit(c) }

  predicate StartsMac(raw: string) { |raw| >= 17 && forall i | 0 <= i < 17 :: MacChar(i, raw[i]) }

  /** Six pairs of hexadecimal digits, separated by colons. */
  predicate IsMac(s: string) { |s| == 17 && StartsMac(s) }

  function UpperChar(c: char): char {
    if 'a' <= c <= 'z' then c - 32 as char else c
  }

  function Upper(s: string): string {
    seq(|s|, i requires 0 <= i < |s| => UpperChar(s[i]))
  }

  /** All addresses in the text, from the left and without overlap, in upper case. */
  function FoundMacs(raw: string): seq<string>
    decreases |raw|
  {
    if raw == "" then []
    else if StartsMac(raw) then [Upper(raw[..17])] + FoundMacs(raw[17..])
    else FoundMacs(raw[1..])
  }

  /** What may stand between addresses. */
  predicate IsFiller(c: char) { c in {'\'', '"', ' ', '\t', '\r', '\n'} }

  predicate OnlyFiller(s: string) { forall i | 0 <= i < |s| :: IsFiller(s[i]) }

  /** The text without its addresses is filler. */
  predicate NothingElse(raw: string)
    decreases |raw|
  {
    raw == "" || if StartsMac(raw) then NothingElse(raw[17..]) else IsFiller(raw[0]) && NothingElse(raw[1..])
  }

  /** Each address where it first occurs. */
  function FirstOnly(macs: seq<string>): seq<string> {
    if macs == [] then [] else
      var n := |macs| - 1;
      var front := FirstOnly(macs[..n]);
      if macs[n] in front then front else front + [macs[n]]
  }

  function MacList(raw: string): Option<seq<string>> {
    if FoundMacs(raw) == [] || !NothingElse(raw) then None else Some(FirstOnly(FoundMacs(raw)))
  }

  /** `ParseMACList`. */
  method ParseMACList(raw: string) returns (result: Option<seq<string>>)
    ensures result == MacList(raw)
  {
    var found := FoundMacs(raw);
    if found == [] || !NothingElse(raw) {
      return None;
    }
    var macs: seq<string> := [];
    var seen: map<string, bool> := map[];
    for i := 0 to |found|
      invariant macs == FirstOnly(found[..i])
      invariant forall m :: m in seen <==> m in macs
    {
      assert found[..i + 1][..i] == found[..i];
      if found[i] in seen {
        continue;
      }
      seen := seen[found[i] := true];
      macs := macs + [found[i]];
    }
    assert found[..|found|] == found;
    return Some(macs);
  }

  // ---- Printed lists are read back -------------------------------------------------

  function JoinMacs(macs: seq<string>, separator: string): string {
    if macs == [] then "" else if |macs| == 1 then macs[0] else macs[0] + (separator + JoinMacs(macs[1..], separator))
  }

  lemma {:induction false} SkipFiller(filler: string, rest: string)
    requires OnlyFiller(filler)
    ensures FoundMacs(filler + rest) == FoundMacs(rest) && NothingElse(filler + rest) == NothingElse(rest)
    decreases filler
  {
    if filler == "" {
      assert filler + rest == rest;
    } else {
      var raw := filler + rest;
      assert raw[0] == filler[0] && raw[1..] == filler[1..] + rest;
      assert !MacChar(0, raw[0]);
      SkipFiller(filler[1..], rest);
    }
  }

  predicate IsUpperMac(s: string) { IsMac(s) && Upper(s) == s }

  lemma TakeMac(mac: string, rest: string)
    requires IsUpperMac(mac)
    ensures FoundMacs(mac + rest) == [mac] + FoundMacs(rest) && NothingElse(mac + rest) == NothingElse(rest)
  {
    var raw := mac + rest;
    assert raw[..17] == mac && raw[17..] == rest;
    assert forall i | 0 <= i < 17 :: raw[i] == mac[i];
  }

  lemma {:induction false} DistinctStay(macs: seq<string>)
    requires forall i, j | 0 <= i < j < |macs| :: macs[i] != macs[j]
    ensures FirstOnly(macs) == macs
    decreases |macs|
  {
    if macs != [] {
      var n := |macs| - 1;
      DistinctStay(macs[..n]);
      assert macs == macs[..n] + [macs[n]];
    }
  }

  lemma {:induction false} JoinedAreFound(macs: seq<string>, separator: string)
    requires OnlyFiller(separator) && forall i | 0 <= i < |macs| :: IsUpperMac(macs[i])
    ensures FoundMacs(JoinMacs(macs, separator)) == macs && NothingElse(JoinMacs(macs, separator))
    decreases macs
  {
    if |macs| == 1 {
      assert macs[0] + "" == macs[0] && [macs[0]] + [] == macs;
      TakeMac(macs[0], "");
    } else if |macs| > 1 {
      var rest := JoinMacs(macs[1..], separator);
      JoinedAreFound(macs[1..], separator);
      TakeMac(macs[0], separator + rest);
      SkipFiller(separator, rest);
      assert [macs[0]] + macs[1..] == macs;
    }
  }

  /**
   * A list of distinct addresses, joined by a blank as the host script does or
   * by quotes and a blank as the importer stores it, is read back.
   */
  lemma JoinedMacsParse(macs: seq<string>, separator: string)
    requires macs != [] && OnlyFiller(separator) && forall i | 0 <= i < |macs| :: IsUpperMac(macs[i])
    requires forall i, j | 0 <= i < j < |macs| :: macs[i] != macs[j]
    ensures MacList(JoinMacs(macs, separator)) == Some(macs)
  {
    JoinedAreFound(macs, separator);
    DistinctStay(macs);
  }

  lemma FoldedStarts(a: string, b: string)
    requires EqualFold(a, b)
    ensures |a| == |b| && StartsMac(a) == StartsMac(b)
    ensures |a| >= 17 ==> Upper(a[..17]) == Upper(b[..17]) && EqualFold(a[17..], b[17..])
    ensures |a| >= 1 ==> IsFiller(a[0]) == IsFiller(b[0]) && EqualFold(a[1..], b[1..])
  {
    assert |Lower(a)| == |a| && |Lower(b)| == |b|;
    forall i | 0 <= i < |a|
      ensures MacChar(i, a[i]) == MacChar(i, b[i])
      ensures IsFiller(a[i]) == IsFiller(b[i]) && UpperChar(a[i]) == UpperChar(b[i]) && LowerChar(a[i]) == LowerChar(b[i])
    {
      assert Lower(a)[i] == Lower(b)[i];
    }
  }

  lemma {:induction false} FoldedScan(a: string, b: string)
    requires EqualFold(a, b)
    ensures FoundMacs(a) == FoundMacs(b) && NothingElse(a) == NothingElse(b)
    decreases |a|
  {
    FoldedStarts(a, b);
    if a != "" {
      if StartsMac(a) {
        FoldedScan(a[17..], b[17..]);
      } else {
        FoldedScan(a[1..], b[1..]);
      }
    }
  }

  /** The letter case of a MAC list does not matter. */
  lemma MacListIsCaseBlind(a: string, b: string)
    requires EqualFold(a, b)
    ensures MacList(a) == MacList(b)
  {
    FoldedScan(a, b);
  }

  // ---- When a lease is present --------------------------------------------------------

  /** `uciMACListsEqual`: the same addresses in the same order, in any letter case. */
  predicate SameMacs(observed: seq<string>, macs: seq<string>) {
    |observed| == |macs| && forall i | 0 <= i < |macs| :: EqualFold(observed[i], macs[i])
  }

  method MACListsEqual(observed: seq<string>, macs: seq<string>) returns (equal: bool)
    ensures equal <==> SameMacs(observed, macs)
  {
    if |observed| != |macs| {
      return false;
    }
    for i := 0 to |macs|
      invariant forall k | 0 <= k < i :: EqualFold(observed[k], macs[k])
    {
      if !EqualFold(observed[i], macs[i]) {
        return false;
      }
    }
    return true;
  }

  /** The section is this lease: its name, its addresses, and the IP among its IPs. */
  predicate IsLease(c: Command, macs: seq<string>, section: UCISection) {
    && section.typ == "host"
    && "name" in section.options && "mac" in section.options && "ip" in section.options
    && section.options["name"] == Text(c.section)
    && SameMacs(Values(section.options["mac"]), macs)
    && c.value in Values(section.options["ip"])
  }

  predicate HostMatches(c: Command, sections: seq<UCISection>) {
    MacList(c.option).Some? && exists i | 0 <= i < |sections| :: IsLease(c, MacList(c.option).value, sections[i])
  }

  /** The `ensure_host` branch of `uciCommandMatchesObserved`. */
  method HostMatchesObserved(c: Command, sections: seq<UCISection>) returns (matches: bool)
    ensures matches <==> HostMatches(c, sections)
  {
    var macs := ParseMACList(c.option);
    if macs.None? {
      return false;
    }
    for i := 0 to |sections|
      invariant forall k | 0 <= k < i :: !IsLease(c, macs.value, sections[k])
    {
      var options := sections[i].options;
      if sections[i].typ != "host" || "name" !in options || "mac" !in options || "ip" !in options {
        continue;
      }
      var same := MACListsEqual(Values(options["mac"]), macs.value);
      if options["name"] == Text(c.section) && same && c.value in Values(options["ip"]) {
        return true;
      }
    }
    return false;
  }

  function UpperAll(texts: seq<string>): seq<string> {
    seq(|texts|, i requires 0 <= i < |texts| => Upper(texts[i]))
  }

  lemma FoldedChars(a: char, b: char)
    ensures LowerChar(a) == LowerChar(b) <==> UpperChar(a) == UpperChar(b)
    ensures UpperChar(UpperChar(a)) == UpperChar(a)
  {
  }

  lemma FoldedTexts(a: string, b: string)
    ensures EqualFold(a, b) <==> Upper(a) == Upper(b)
    ensures Upper(Upper(a)) == Upper(a)
  {
    forall i | 0 <= i < |a| ensures UpperChar(UpperChar(a[i])) == UpperChar(a[i]) {
      FoldedChars(a[i], a[i]);
    }
    if |a| == |b| {
      forall i | 0 <= i < |a| ensures Lower(a)[i] == Lower(b)[i] <==> Upper(a)[i] == Upper(b)[i] {
        FoldedChars(a[i], b[i]);
      }
    } else {
      assert |Lower(a)| != |Lower(b)| && |Upper(a)| != |Upper(b)|;
    }
  }

  lemma {:induction false} FoundAreUpper(raw: string)
    ensures forall m | m in FoundMacs(raw) :: Upper(m) == m
    decreases |raw|
  {
    if raw != "" {
      if StartsMac(raw) {
        FoldedTexts(raw[..17], "");
        FoundAreUpper(raw[17..]);
      } else {
        FoundAreUpper(raw[1..]);
      }
    }
  }

  lemma {:induction false} FirstAreFound(macs: seq<string>)
    ensures forall m | m in FirstOnly(macs) :: m in macs
    decreases |macs|
  {
    if macs != [] {
      FirstAreFound(macs[..|macs| - 1]);
    }
  }

  lemma SameMacsMeans(observed: seq<string>, macs: seq<string>)
    requires forall m | m in macs :: Upper(m) == m
    ensures SameMacs(observed, macs) <==> UpperAll(observed) == macs
  {
    if |observed| == |macs| {
      forall i | 0 <= i < |macs| ensures EqualFold(observed[i], macs[i]) <==> UpperAll(observed)[i] == macs[i] {
        assert macs[i] in macs;
        FoldedTexts(observed[i], macs[i]);
      }
    }
  }

  /**
   * A lease counts as present exactly when some host section bears its name,
   * holds its addresses in upper case and in order, and has its IP among the
   * section's IPs.
   */
  lemma LeaseIsPresentExactly(c: Command, sections: seq<UCISection>)
    ensures HostMatches(c, sections) <==>
            && MacList(c.option).Some?
            && exists i | 0 <= i < |sections| && sections[i].typ == "host" && sections[i].options.Keys >= {"name", "mac", "ip"} ::
                 && sections[i].options["name"] == Text(c.section)
                 && UpperAll(Values(sections[i].options["mac"])) == MacList(c.option).value
                 && c.value in Values(sections[i].options["ip"])
  {
    if MacList(c.option).Some? {
      var macs := MacList(c.option).value;
      FoundAreUpper(c.option);
      FirstAreFound(FoundMacs(c.option));
      forall i | 0 <= i < |sections| && "mac" in sections[i].options
        ensures SameMacs(Values(sections[i].options["mac"]), macs) <==> UpperAll(Values(sections[i].options["mac"])) == macs
      {
        SameMacsMeans(Values(sections[i].options["mac"]), macs);
      }
    }
  }

  /** A host section as the host script leaves it. */
  function WithLease(c: Command, macs: seq<string>, section: UCISection): UCISection {
    section.(options := section.options["name" := Text(c.section)]["mac" := FromValues(macs)]["ip" := Text(c.value)])
  }

  /** A lease that was written is found again, also when its addresses are given in another letter case. */
  lemma WrittenLeaseMatches(c: Command, given: Command, sections: seq<UCISection>, i: nat)
    requires i < |sections| && sections[i].typ == "host" && MacList(c.option).Some?
    requires given.section == c.section && given.value == c.value && EqualFold(given.option, c.option)
    ensures HostMatches(given, sections[i := WithLease(c, MacList(c.option).value, sections[i])])
  {
    var macs := MacList(c.option).value;
    var written := sections[i := WithLease(c, macs, sections[i])];
    MacListIsCaseBlind(given.option, c.option);
    assert IsLease(given, macs, written[i]);
  }
}
