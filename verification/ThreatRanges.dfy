/** The threat filter in plain terms: which addresses are reserved, and what a line of a list says. */
module ThreatRanges {
  import opened Common
  import opened ThreatCidr

  // ---- The reserved addresses, byte by byte -----------------------------------

  /**
   * This network, private, shared, loopback, link-local, protocol assignments,
   * documentation, benchmarking, multicast and the rest of class E.
   */
  predicate Reserved(b: Bytes4) {
    || b[0] in {0, 10, 127}
    || (b[0] == 100 && 64 <= b[1] <= 127)
    || (b[0] == 169 && b[1] == 254)
    || (b[0] == 172 && 16 <= b[1] <= 31)
    || (b[0] == 192 && b[1] == 0 && b[2] in {0, 2})
    || (b[0] == 192 && b[1] == 168)
    || (b[0] == 198 && 18 <= b[1] <= 19)
    || (b[0] == 198 && b[1] == 51 && b[2] == 100)
    || (b[0] == 203 && b[1] == 0 && b[2] == 113)
    || 224 <= b[0]
  }

  lemma MasksAre()
    ensures CIDRMask(4) == 0xF000_0000 && CIDRMask(8) == 0xFF00_0000 && CIDRMask(10) == 0xFFC0_0000 && CIDRMask(12) == 0xFFF0_0000
    ensures CIDRMask(15) == 0xFFFE_0000 && CIDRMask(16) == 0xFFFF_0000 && CIDRMask(24) == 0xFFFF_FF00
  {
  }

  /** The address lies in the j-th excluded network. */
  predicate Hits(b: Bytes4, j: nat)
    requires j < |EXCLUDED|
  {
    Contains(EXCLUDED[j], Word(b))
  }

  lemma OneByte(b: Bytes4)
    ensures SameUnder(Word([0, 0, 0, 0]), Word(b), 0xFF00_0000) <==> b[0] == 0
    ensures SameUnder(Word([10, 0, 0, 0]), Word(b), 0xFF00_0000) <==> b[0] == 10
    ensures SameUnder(Word([127, 0, 0, 0]), Word(b), 0xFF00_0000) <==> b[0] == 127
  {
  }

  lemma TwoBytes(b: Bytes4)
    ensures SameUnder(Word([169, 254, 0, 0]), Word(b), 0xFFFF_0000) <==> b[0] == 169 && b[1] == 254
    ensures SameUnder(Word([192, 168, 0, 0]), Word(b), 0xFFFF_0000) <==> b[0] == 192 && b[1] == 168
  {
  }

  lemma ThreeBytes(b: Bytes4)
    ensures SameUnder(Word([192, 0, 0, 0]), Word(b), 0xFFFF_FF00) <==> b[0] == 192 && b[1] == 0 && b[2] == 0
    ensures SameUnder(Word([192, 0, 2, 0]), Word(b), 0xFFFF_FF00) <==> b[0] == 192 && b[1] == 0 && b[2] == 2
    ensures SameUnder(Word([198, 51, 100, 0]), Word(b), 0xFFFF_FF00) <==> b[0] == 198 && b[1] == 51 && b[2] == 100
    ensures SameUnder(Word([203, 0, 113, 0]), Word(b), 0xFFFF_FF00) <==> b[0] == 203 && b[1] == 0 && b[2] == 113
  {
  }

  lemma OddMasks(b: Bytes4)
    ensures SameUnder(Word([100, 64, 0, 0]), Word(b), 0xFFC0_0000) <==> b[0] == 100 && 64 <= b[1] <= 127
    ensures SameUnder(Word([172, 16, 0, 0]), Word(b), 0xFFF0_0000) <==> b[0] == 172 && 16 <= b[1] <= 31
    ensures SameUnder(Word([198, 18, 0, 0]), Word(b), 0xFFFE_0000) <==> b[0] == 198 && 18 <= b[1] <= 19
    ensures SameUnder(Word([224, 0, 0, 0]), Word(b), 0xF000_0000) || SameUnder(Word([240, 0, 0, 0]), Word(b), 0xF000_0000) <==> 224 <= b[0]
  {
  }

  lemma LowHits(b: Bytes4)
    ensures |EXCLUDED| == 14
    ensures Hits(b, 0) <==> b[0] == 0
    ensures Hits(b, 1) <==> b[0] == 10
    ensures Hits(b, 2) <==> b[0] == 100 && 64 <= b[1] <= 127
    ensures Hits(b, 3) <==> b[0] == 127
    ensures Hits(b, 4) <==> b[0] == 169 && b[1] == 254
  {
    MasksAre();
    OneByte(b);
    TwoBytes(b);
    ThreeBytes(b);
    OddMasks(b);
  }

  lemma HighHits(b: Bytes4)
    ensures |EXCLUDED| == 14
    ensures Hits(b, 5) <==> b[0] == 172 && 16 <= b[1] <= 31
    ensures Hits(b, 6) <==> b[0] == 192 && b[1] == 0 && b[2] == 0
    ensures Hits(b, 7) <==> b[0] == 192 && b[1] == 0 && b[2] == 2
    ensures Hits(b, 8) <==> b[0] == 192 && b[1] == 168
    ensures Hits(b, 9) <==> b[0] == 198 && 18 <= b[1] <= 19
    ensures Hits(b, 10) <==> b[0] == 198 && b[1] == 51 && b[2] == 100
    ensures Hits(b, 11) <==> b[0] == 203 && b[1] == 0 && b[2] == 113
    ensures Hits(b, 12) || Hits(b, 13) <==> 224 <= b[0]
  {
    MasksAre();
    TwoBytes(b);
    ThreeBytes(b);
    OddMasks(b);
  }

  /** The fourteen excluded networks hold the reserved addresses and no others. */
  lemma ExcludedAreReserved(b: Bytes4)
    ensures (exists j | 0 <= j < |EXCLUDED| :: Hits(b, j)) <==> Reserved(b)
  {
    LowHits(b);
    HighHits(b);
    if j :| 0 <= j < |EXCLUDED| && Hits(b, j) {
      assert j in {0, 1, 2, 3, 4, 5, 6, 7, 8, 9, 10, 11, 12, 13};
    }
  }

  /** A network passes the filter exactly when none of its addresses is reserved. */
  lemma SafeMeansPublic(n: IPNet)
    ensures Disjoint(n, EXCLUDED) <==> forall b: Bytes4 :: Contains(n, Word(b)) ==> !Reserved(b)
  {
    if Disjoint(n, EXCLUDED) {
      forall b: Bytes4 | Contains(n, Word(b)) ensures !Reserved(b) {
        ExcludedAreReserved(b);
        forall j | 0 <= j < |EXCLUDED| ensures !Hits(b, j) {
          assert !Overlap(n, EXCLUDED[j]);
        }
      }
    }
    if j, a: Address :| 0 <= j < |EXCLUDED| && Contains(n, a) && Contains(EXCLUDED[j], a) {
      ExcludedAreReserved(Bytes(a));
      assert Hits(Bytes(a), j);
      assert Contains(n, Word(Bytes(a)));
    }
  }

  // ---- Lines ------------------------------------------------------------------------

  predicate AllSpace(s: string) { forall i | 0 <= i < |s| :: IsSpace(s[i]) }

  predicate NoSpace(s: string) { forall i | 0 <= i < |s| :: !IsSpace(s[i]) }

  predicate OnlyMarks(s: string) { forall i | 0 <= i < |s| :: s[i] == ';' || s[i] == ',' }

  lemma {:induction false} FieldIsLeading(field: string, rest: string)
    requires NoSpace(field) && (rest == "" || IsSpace(rest[0]))
    ensures LeadingField(field + rest) == field
    decreases field
  {
    if field == "" {
      assert field + rest == rest;
    } else {
      assert (field + rest)[1..] == field[1..] + rest;
      FieldIsLeading(field[1..], rest);
      assert [field[0]] + field[1..] == field;
    }
  }

  lemma {:induction false} FieldIsFirst(blanks: string, field: string, rest: string)
    requires AllSpace(blanks) && NoSpace(field) && (rest == "" || IsSpace(rest[0]))
    requires field == "" ==> rest == ""
    ensures FirstField(blanks + field + rest) == field
    decreases blanks
  {
    var line := blanks + field + rest;
    if blanks == "" {
      assert line == field + rest;
      FieldIsLeading(field, rest);
    } else {
      assert line[0] == blanks[0] && line[1..] == blanks[1..] + field + rest;
      FieldIsFirst(blanks[1..], field, rest);
    }
  }

  lemma {:induction false} MarksAreTrimmed(token: string, marks: string)
    requires token != "" && token[|token| - 1] != ';' && token[|token| - 1] != ',' && OnlyMarks(marks)
    ensures TrimRight(token + marks) == token
    decreases |marks|
  {
    if marks == "" {
      assert token + marks == token;
    } else {
      var n := |marks| - 1;
      var text := token + marks;
      assert text[|text| - 1] == marks[n] && text[..|text| - 1] == token + marks[..n];
      MarksAreTrimmed(token, marks[..n]);
    }
  }

  /**
   * A line says its first word without trailing semicolons and commas,
   * whatever is indented before it or written after it; a blank line says
   * nothing.
   */
  lemma LineSaysItsToken(blanks: string, token: string, marks: string, rest: string)
    requires AllSpace(blanks) && NoSpace(token) && OnlyMarks(marks) && (rest == "" || IsSpace(rest[0]))
    requires token != "" && token[|token| - 1] != ';' && token[|token| - 1] != ','
    ensures Tokens([blanks + (token + marks) + rest]) == [token]
    ensures Tokens([blanks]) == []
  {
    var field, line := token + marks, blanks + (token + marks) + rest;
    FieldIsFirst(blanks, field, rest);
    MarksAreTrimmed(token, marks);
    assert [line][..0] == [] && [blanks][..0] == [];
    assert blanks + "" + "" == blanks;
    FieldIsFirst(blanks, "", "");
  }

  /** The entries of a list are those of its parts. */
  lemma {:induction false} TokensOfParts(a: seq<string>, b: seq<string>)
    ensures Tokens(a + b) == Tokens(a) + Tokens(b)
    decreases |b|
  {
    if b == [] {
      assert a + b == a && Tokens(a) + [] == Tokens(a);
    } else {
      var n := |b| - 1;
      assert (a + b)[..|a + b| - 1] == a + b[..n];
      TokensOfParts(a, b[..n]);
    }
  }
}
