/**
 * The threat-list filter: a CIDR is kept only when it shares no address with a
 * reserved network. The filter overwrites the network's own bytes in place
 * between tests and is exact all the same.
 */
module ThreatCidr {
  import opened Common

  type Address = bv32

  /** A network number, not necessarily masked, and its mask. */
  datatype IPNet = IPNet(ip: Address, mask: Address)

  // ---- Masks --------------------------------------------------------------------

  /** The mask of a prefix length: that many ones from the top (section 3.1 of RFC 4632). */
  function CIDRMask(ones: nat): Address {
    if ones == 0 then 0 else 0x8000_0000 | (CIDRMask(ones - 1) >> 1)
  }

  ghost predicate IsPrefixMask(mask: Address) {
    exists ones: nat :: ones <= 32 && mask == CIDRMask(ones)
  }

  /** Every bit of the small mask is a bit of the large one. */
  predicate Nested(small: Address, large: Address) {
    small & large == small
  }

  lemma ShiftedMasksNest(x: Address, y: Address)
    requires Nested(x, y)
    ensures Nested(0x8000_0000 | (x >> 1), 0x8000_0000 | (y >> 1))
  {
  }

  lemma {:induction false} LongerMasksNest(p: nat, q: nat)
    requires p <= q
    ensures Nested(CIDRMask(p), CIDRMask(q))
  {
    if p > 0 {
      LongerMasksNest(p - 1, q - 1);
      ShiftedMasksNest(CIDRMask(p - 1), CIDRMask(q - 1));
    }
  }

  /** Of two prefix masks one is always nested in the other. */
  lemma PrefixMasksNest(m: Address, n: Address)
    requires IsPrefixMask(m) && IsPrefixMask(n)
    ensures Nested(m, n) || Nested(n, m)
  {
    var p: nat :| p <= 32 && m == CIDRMask(p);
    var q: nat :| q <= 32 && n == CIDRMask(q);
    if p <= q {
      LongerMasksNest(p, q);
    } else {
      LongerMasksNest(q, p);
    }
  }

  // ---- Networks -----------------------------------------------------------------

  /** Membership compares the network number and the address after masking both. */
  predicate Contains(n: IPNet, a: Address) {
    SameUnder(n.ip, a, n.mask)
  }

  predicate SameUnder(a: Address, b: Address, mask: Address) {
    a & mask == b & mask
  }

  function LastAddress(a: Address, mask: Address): Address {
    a | !mask
  }

  ghost predicate Overlap(n: IPNet, m: IPNet) {
    exists a: Address :: Contains(n, a) && Contains(m, a)
  }

  lemma SmallerIsHeld(nIp: Address, nMask: Address, mIp: Address, mMask: Address, a: Address)
    requires Nested(nMask, mMask) && SameUnder(nIp, a, nMask) && SameUnder(mIp, a, mMask)
    ensures SameUnder(nIp, mIp, nMask)
  {
  }

  lemma LargerHoldsLast(nIp: Address, nMask: Address, mIp: Address, mMask: Address, a: Address)
    requires Nested(mMask, nMask) && SameUnder(nIp, a, nMask) && SameUnder(mIp, a, mMask)
    ensures SameUnder(mIp, LastAddress(nIp, nMask), mMask)
  {
  }

  lemma LastBelongs(n: IPNet)
    ensures Contains(n, LastAddress(n.ip, n.mask))
  {
  }

  /** A shared address forces one of the two end points to be shared. */
  lemma SharedAddressMeansSharedEnd(n: IPNet, m: IPNet, a: Address)
    requires Nested(n.mask, m.mask) || Nested(m.mask, n.mask)
    requires Contains(n, a) && Contains(m, a)
    ensures Contains(n, m.ip) || Contains(m, LastAddress(n.ip, n.mask))
  {
    if Nested(n.mask, m.mask) {
      SmallerIsHeld(n.ip, n.mask, m.ip, m.mask, a);
    } else {
      LargerHoldsLast(n.ip, n.mask, m.ip, m.mask, a);
    }
  }

  /** Prefixes nest or are disjoint, so two tests on end points decide the overlap. */
  lemma OverlapByEnds(n: IPNet, m: IPNet)
    requires IsPrefixMask(n.mask) && IsPrefixMask(m.mask)
    ensures Overlap(n, m) <==> Contains(n, m.ip) || Contains(m, LastAddress(n.ip, n.mask))
  {
    if Contains(n, m.ip) {
      assert Contains(m, m.ip);
    }
    LastBelongs(n);
    if a: Address :| Contains(n, a) && Contains(m, a) {
      PrefixMasksNest(n.mask, m.mask);
      SharedAddressMeansSharedEnd(n, m, a);
    }
  }

  /** The three tests decide the overlap, whichever address of the network its first field holds. */
  lemma TestsDecide(n: IPNet, ip: Address, m: IPNet)
    requires IsPrefixMask(n.mask) && IsPrefixMask(m.mask) && Contains(n, ip)
    ensures Overlap(n, m) <==> Contains(m, ip) || Contains(n.(ip := ip), m.ip) || Contains(m, LastAddress(ip, n.mask))
    ensures Contains(n, LastAddress(ip, n.mask))
  {
    OverlapByEnds(n, m);
    SameLast(n, ip);
    LastBelongs(n);
    SameNumber(n, ip, m.ip);
  }

  /** Replacing a network's number by any of its addresses leaves the same network. */
  lemma SameNumber(n: IPNet, ip: Address, a: Address)
    requires Contains(n, ip)
    ensures Contains(n.(ip := ip), a) <==> Contains(n, a)
  {
    SameUnderEuclidean(n.ip, ip, a, n.mask);
  }

  lemma SameUnderEuclidean(a: Address, b: Address, c: Address, mask: Address)
    requires SameUnder(a, b, mask)
    ensures SameUnder(b, c, mask) <==> SameUnder(a, c, mask)
  {
  }

  /** Every address of a network leads to the same last address. */
  lemma SameLast(n: IPNet, a: Address)
    requires Contains(n, a)
    ensures LastAddress(a, n.mask) == LastAddress(n.ip, n.mask)
  {
  }

  // ---- The filter ------------------------------------------------------------------

  /** Four bytes, most significant first. */
  type Bytes4 = a: seq<bv8> | |a| == 4 witness [0, 0, 0, 0]

  function Word(b: Bytes4): Address {
    ((b[0] as bv32) << 24) | ((b[1] as bv32) << 16) | ((b[2] as bv32) << 8) | (b[3] as bv32)
  }

  function Bytes(a: Address): (b: Bytes4)
    ensures Word(b) == a
  {
    [((a >> 24) & 0xFF) as bv8, ((a >> 16) & 0xFF) as bv8, ((a >> 8) & 0xFF) as bv8, (a & 0xFF) as bv8]
  }

  const EXCLUDED: seq<IPNet> := [
    IPNet(Word([0, 0, 0, 0]), CIDRMask(8)), IPNet(Word([10, 0, 0, 0]), CIDRMask(8)),
    IPNet(Word([100, 64, 0, 0]), CIDRMask(10)), IPNet(Word([127, 0, 0, 0]), CIDRMask(8)),
    IPNet(Word([169, 254, 0, 0]), CIDRMask(16)), IPNet(Word([172, 16, 0, 0]), CIDRMask(12)),
    IPNet(Word([192, 0, 0, 0]), CIDRMask(24)), IPNet(Word([192, 0, 2, 0]), CIDRMask(24)),
    IPNet(Word([192, 168, 0, 0]), CIDRMask(16)), IPNet(Word([198, 18, 0, 0]), CIDRMask(15)),
    IPNet(Word([198, 51, 100, 0]), CIDRMask(24)), IPNet(Word([203, 0, 113, 0]), CIDRMask(24)),
    IPNet(Word([224, 0, 0, 0]), CIDRMask(4)), IPNet(Word([240, 0, 0, 0]), CIDRMask(4))]

  ghost predicate AllPrefixes(nets: seq<IPNet>) {
    forall j | 0 <= j < |nets| :: IsPrefixMask(nets[j].mask)
  }

  function LastBytes(b: Bytes4, mask: Bytes4): Bytes4 {
    [b[0] | !mask[0], b[1] | !mask[1], b[2] | !mask[2], b[3] | !mask[3]]
  }

  lemma LastBytesWord(b: Bytes4, mask: Bytes4)
    ensures Word(LastBytes(b, mask)) == LastAddress(Word(b), Word(mask))
  {
  }

  /** `networkLastIP`: it returns the network's own bytes, overwritten. */
  method NetworkLastIP(ip: array<bv8>, mask: Bytes4) returns (last: array<bv8>)
    requires ip.Length == 4
    modifies ip
    ensures last == ip && Word(ip[..]) == LastAddress(Word(old(ip[..])), Word(mask))
  {
    last := ip;
    for i := 0 to 4
      invariant forall k | 0 <= k < i :: last[k] == old(ip[k]) | !mask[k]
      invariant forall k | i <= k < 4 :: last[k] == old(ip[k])
    {
      last[i] := last[i] | !mask[i];
    }
    LastBytesWord(old(ip[..]), mask);
    assert ip[..] == LastBytes(old(ip[..]), mask);
  }

  /** No address lies both in the network and in one of the others. */
  ghost predicate Disjoint(n: IPNet, others: seq<IPNet>) {
    forall j | 0 <= j < |others| :: !Overlap(n, others[j])
  }

  /**
   * The loop of `safeThreatCIDR` over any list of excluded networks: true
   * exactly when no address lies both in the network and in one of them.
   */
  method AvoidsAll(n: IPNet, excluded: seq<IPNet>) returns (safe: bool)
    requires IsPrefixMask(n.mask) && AllPrefixes(excluded)
    ensures safe <==> Disjoint(n, excluded)
  {
    var first, mask := Bytes(n.ip & n.mask), Bytes(n.mask);
    var ip := new bv8[4](i requires 0 <= i < 4 => first[i]);
    assert ip[..] == first;
    for j := 0 to |excluded|
      invariant Contains(n, Word(ip[..]))
      invariant Disjoint(n, excluded[..j])
    {
      TestsDecide(n, Word(ip[..]), excluded[j]);
      if Contains(excluded[j], Word(ip[..])) || Contains(n.(ip := Word(ip[..])), excluded[j].ip) {
        return false;
      }
      var last := NetworkLastIP(ip, mask);
      if Contains(excluded[j], Word(last[..])) {
        return false;
      }
    }
    return true;
  }

  /** `safeThreatCIDR` on the parsed token; only IPv4 tokens parse here. */
  method SafeThreatCidr(parsed: Option<IPNet>) returns (safe: bool)
    requires parsed.Some? ==> IsPrefixMask(parsed.value.mask)
    ensures safe <==> parsed.Some? && Disjoint(parsed.value, EXCLUDED)
  {
    if parsed.None? {
      return false;
    }
    safe := AvoidsAll(parsed.value, EXCLUDED);
  }

  // ---- Whole lists -------------------------------------------------------------------

  function LeadingField(line: string): string {
    if line == "" || IsSpace(line[0]) then "" else [line[0]] + LeadingField(line[1..])
  }

  /** The first field of a line, empty when the line has none. */
  function FirstField(line: string): string {
    if line == "" then "" else if IsSpace(line[0]) then FirstField(line[1..]) else LeadingField(line)
  }

  function TrimRight(token: string): string {
    if token != "" && token[|token| - 1] in {';', ','} then TrimRight(token[..|token| - 1]) else token
  }

  /** The tokens of a list, one for each line that has a field. */
  function Tokens(lines: seq<string>): seq<string> {
    if lines == [] then [] else
      var n := |lines| - 1;
      Tokens(lines[..n]) + if FirstField(lines[n]) == "" then [] else [TrimRight(FirstField(lines[n]))]
  }

  ghost predicate SafeToken(parse: string -> Option<IPNet>, token: string) {
    parse(token).Some? && Disjoint(parse(token).value, EXCLUDED)
  }

  /**
   * `ValidateThreatListContent`: a list is served only when it has at least ten
   * entries and not one of them touches a reserved address.
   */
  method ValidateThreatListContent(parse: string -> Option<IPNet>, content: string) returns (valid: bool)
    requires forall token :: parse(token).Some? ==> IsPrefixMask(parse(token).value.mask)
    ensures var tokens := Tokens(SplitLines(content));
            valid <==> |tokens| >= 10 && AllSafe(parse, tokens)
  {
    var count := 0;
    var lines := SplitLines(content);
    for i := 0 to |lines|
      invariant count == |Tokens(lines[..i])| && AllSafe(parse, Tokens(lines[..i]))
    {
      NextToken(lines, i);
      var field := FirstField(lines[i]);
      if field != "" {
        var token := TrimRight(field);
        var safe := SafeThreatCidr(parse(token));
        if !safe {
          TokenIsListed(lines, i);
          return false;
        }
        count := count + 1;
      }
    }
    assert lines[..|lines|] == lines;
    return count >= 10;
  }

  ghost predicate AllSafe(parse: string -> Option<IPNet>, tokens: seq<string>) {
    forall i | 0 <= i < |tokens| :: SafeToken(parse, tokens[i])
  }

  lemma NextToken(lines: seq<string>, i: nat)
    requires i < |lines|
    ensures Tokens(lines[..i + 1]) == Tokens(lines[..i]) + if FirstField(lines[i]) == "" then [] else [TrimRight(FirstField(lines[i]))]
  {
    assert lines[..i + 1][..i] == lines[..i];
  }

  lemma TokenIsListed(lines: seq<string>, i: nat)
    requires i < |lines| && FirstField(lines[i]) != ""
    ensures TrimRight(FirstField(lines[i])) in Tokens(lines)
  {
    NextToken(lines, i);
    TokensGrow(lines, i + 1);
    assert Tokens(lines[..i + 1])[|Tokens(lines[..i])|] == TrimRight(FirstField(lines[i]));
  }

  lemma {:induction false} TokensGrow(lines: seq<string>, i: nat)
    requires i <= |lines|
    ensures Tokens(lines[..i]) <= Tokens(lines)
    decreases |lines|
  {
    if i < |lines| {
      var front := lines[..|lines| - 1];
      assert front[..i] == lines[..i];
      TokensGrow(front, i);
    } else {
      assert lines[..i] == lines;
    }
  }
}
