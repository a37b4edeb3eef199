/**
 * References by position: which number a text denotes, and which section
 * `@type[n]` and `@type[-k]` name, counted without any of the checker's own
 * counters.
 */
module UciIndex {
  import opened Common
  import opened ChangeSets
  import opened UciShow
  import opened UciDrift
  import Decimals

  function ForwardReference(typ: string, n: nat): string { "@" + typ + "[" + Decimal(n) + "]" }

  function BackwardReference(typ: string, k: nat): string { "@" + typ + "[" + ("-" + Decimal(k)) + "]" }

  /** `strconv.Atoi` on the decimal text of a number and of its negation. */
  lemma AtoiReadsDecimals(n: nat)
    ensures Atoi(Decimal(n)) == n && Atoi("-" + Decimal(n)) == 0 - n
    ensures ValidIndex(Decimal(n)) && ValidIndex("-" + Decimal(n))
  {
    var text := Decimal(n);
    Decimals.DecimalIsRead(n);
    assert IsDigit(text[0]);
    assert ("-" + text)[1..] == text;
  }

  /** In general the index is the sum of the digits' place values, negated behind a minus sign. */
  lemma AtoiAddsPlaces(s: string)
    requires ValidIndex(s)
    ensures Atoi(s) == if s[0] == '-' then -Decimals.PlaceValues(s[1..]) else Decimals.PlaceValues(s)
  {
    Decimals.DigitsArePlaces(if s[0] == '-' then s[1..] else s);
  }

  lemma IndexedParses(typ: string, index: string)
    requires ValidName(typ) && ValidIndex(index)
    ensures ParseReference("@" + typ + "[" + index + "]") == Some(Reference(typ, Atoi(index)))
  {
    var s := "@" + typ + "[" + index + "]";
    assert s[1..|s| - 1] == typ + ['['] + index;
    CutFirst(typ, '[', index);
  }

  // ---- Sections before and behind ----------------------------------------------------

  /** The sections of a type among those at these places. */
  function OfType(sections: seq<UCISection>, typ: string, lo: nat, hi: nat): set<nat>
    requires hi <= |sections|
  {
    set j | lo <= j < hi && sections[j].typ == typ
  }

  /** The counter's difference between two places is the number of sections of the type there. */
  lemma {:induction false} CountsAreSections(sections: seq<UCISection>, typ: string, lo: nat, hi: nat)
    requires lo <= hi <= |sections|
    ensures TypeCount(sections[..hi], typ) == TypeCount(sections[..lo], typ) + |OfType(sections, typ, lo, hi)|
    decreases hi - lo
  {
    if lo == hi {
      assert OfType(sections, typ, lo, hi) == {};
    } else {
      CountsAreSections(sections, typ, lo, hi - 1);
      assert sections[..hi][..hi - 1] == sections[..hi - 1];
      var front := OfType(sections, typ, lo, hi - 1);
      if sections[hi - 1].typ == typ {
        assert OfType(sections, typ, lo, hi) == front + {hi - 1};
      } else {
        assert OfType(sections, typ, lo, hi) == front;
      }
    }
  }

  lemma AroundSection(sections: seq<UCISection>, i: nat)
    requires i < |sections|
    ensures var typ := sections[i].typ;
            && TypeCount(sections[..i], typ) == |OfType(sections, typ, 0, i)|
            && TypeCount(sections, typ) == |OfType(sections, typ, 0, i)| + 1 + |OfType(sections, typ, i + 1, |sections|)|
  {
    var typ := sections[i].typ;
    assert TypeCount(sections[..0], typ) == 0;
    CountsAreSections(sections, typ, 0, i);
    assert sections[..i + 1][..i] == sections[..i];
    CountsAreSections(sections, typ, i + 1, |sections|);
    assert sections[..|sections|] == sections;
  }

  // ---- What a reference by position names ------------------------------------------------

  ghost predicate NoSuchId(sections: seq<UCISection>, text: string) {
    forall i | 0 <= i < |sections| :: sections[i].id != text
  }

  lemma PositionMatches(typ: string, index: string, sections: seq<UCISection>, i: nat)
    requires WellNamed(sections) && ValidName(typ) && ValidIndex(index) && i < |sections|
    requires NoSuchId(sections, "@" + typ + "[" + index + "]")
    ensures MatchesReference("@" + typ + "[" + index + "]", sections[i], sections) <==>
            sections[i].typ == typ && TypeCount(sections[..i], typ) == PlaceOf(Reference(typ, Atoi(index)), sections)
  {
    var text := "@" + typ + "[" + index + "]";
    IndexedParses(typ, index);
    IndexIsPlace(sections, i);
    assert sections[i].id != text;
  }

  /** `@type[n]` names exactly the section that has n sections of its type before it. */
  lemma ForwardNamesByPosition(typ: string, n: nat, sections: seq<UCISection>, i: nat)
    requires WellNamed(sections) && ValidName(typ) && i < |sections| && NoSuchId(sections, ForwardReference(typ, n))
    ensures MatchesReference(ForwardReference(typ, n), sections[i], sections) <==>
            sections[i].typ == typ && |OfType(sections, typ, 0, i)| == n
  {
    AtoiReadsDecimals(n);
    PositionMatches(typ, Decimal(n), sections, i);
    AroundSection(sections, i);
  }

  /** `@type[-k]` names exactly the section that has k - 1 sections of its type behind it. */
  lemma BackwardNamesByPosition(typ: string, k: nat, sections: seq<UCISection>, i: nat)
    requires k > 0 && WellNamed(sections) && ValidName(typ) && i < |sections| && NoSuchId(sections, BackwardReference(typ, k))
    ensures MatchesReference(BackwardReference(typ, k), sections[i], sections) <==>
            sections[i].typ == typ && |OfType(sections, typ, i + 1, |sections|)| == k - 1
  {
    AtoiReadsDecimals(k);
    PositionMatches(typ, "-" + Decimal(k), sections, i);
    AroundSection(sections, i);
  }
}
