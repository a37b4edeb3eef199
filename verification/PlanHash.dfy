/** What the plan hash and the derived ids of a changeset tell apart. */
module PlanHash {
  import opened Common
  import opened ChangeSets
  import Decimals

  /** The parts of a changeset that an agent carries out. */
  predicate SamePlan(a: ChangeSet, b: ChangeSet) {
    && a.healthChecks == b.healthChecks && a.policy == b.policy && |a.operations| == |b.operations|
    && forall i | 0 <= i < |a.operations| ::
         && a.operations[i].config == b.operations[i].config
         && a.operations[i].commands == b.operations[i].commands
         && a.operations[i].observedHash == b.operations[i].observedHash
  }

  /** The hashed content determines the plan and is determined by it: neither ids nor the generation enter. */
  lemma ContentIsThePlan(a: ChangeSet, b: ChangeSet)
    ensures ContentOf(a) == ContentOf(b) <==> SamePlan(a, b)
  {
    var x, y := ContentOf(a), ContentOf(b);
    if x == y {
      assert |x.operations| == |a.operations| && |y.operations| == |b.operations|;
      forall i | 0 <= i < |a.operations|
        ensures a.operations[i].config == b.operations[i].config && a.operations[i].commands == b.operations[i].commands
        ensures a.operations[i].observedHash == b.operations[i].observedHash
      {
        assert x.operations[i] == y.operations[i];
      }
    }
    if SamePlan(a, b) {
      assert x.operations == y.operations;
    }
  }

  /** The digest does not confuse these two plans. */
  ghost predicate NoCollision(e: Env, a: ChangeSet, b: ChangeSet) {
    e.contentDigest(ContentOf(a)) == e.contentDigest(ContentOf(b)) ==> ContentOf(a) == ContentOf(b)
  }

  /**
   * A plan hash stands for one plan: two changesets with the same plan hash that
   * either validator accepts carry the same commands, observed hashes, health
   * checks and policy. So a document that was changed after it was signed is
   * refused by both.
   */
  lemma OneHashOnePlan(e: Env, a: ChangeSet, b: ChangeSet)
    requires NoCollision(e, a, b) && a.planHash == b.planHash
    requires (Acceptable(e, a) || ServiceAccepts(e, a)) && (Acceptable(e, b) || ServiceAccepts(e, b))
    ensures SamePlan(a, b)
  {
    ContentIsThePlan(a, b);
  }

  /** Conversely the same plan has the same hash, whatever the ids and the generation are. */
  lemma OnePlanOneHash(e: Env, a: ChangeSet, b: ChangeSet)
    requires SamePlan(a, b)
    requires (Acceptable(e, a) || ServiceAccepts(e, a)) && (Acceptable(e, b) || ServiceAccepts(e, b))
    ensures a.planHash == b.planHash
  {
    ContentIsThePlan(a, b);
  }

  /** A changeset derived for a rollout carries the operations it was given, in order, with the given checks and policy. */
  lemma DerivedCarriesThePlan(e: Env, rolloutId: string, deviceId: string, ops: seq<Operation>, healthChecks: seq<string>, policy: string)
    ensures var cs := RolloutChangeSet(e, rolloutId, deviceId, ops, healthChecks, policy);
            && cs.deviceId == deviceId && cs.generation.None? && cs.healthChecks == healthChecks && cs.policy == policy
            && |cs.operations| == |ops|
            && forall i | 0 <= i < |ops| :: cs.operations[i] == ops[i].(id := cs.operations[i].id)
  {
  }

  // ---- Derived ids -------------------------------------------------------------------

  /** The first half of the digest does not confuse these two seeds. */
  ghost predicate SeedsApart(e: Env, s: string, t: string) {
    e.seedDigest(s)[..32] == e.seedDigest(t)[..32] ==> s == t
  }

  lemma {:induction false} LowerKeepsOut(s: string)
    requires ':' !in s
    ensures ':' !in Lower(s)
  {
    forall i | 0 <= i < |s| ensures Lower(s)[i] != ':' {
      assert s[i] != ':';
    }
  }

  lemma SeedSplits(rolloutId: string, deviceId: string)
    requires ':' !in rolloutId
    ensures Cut(IdentitySeed(rolloutId, deviceId), ':') == Some((Lower(rolloutId), Lower(deviceId)))
  {
    LowerKeepsOut(rolloutId);
    CutFirst(Lower(rolloutId), ':', Lower(deviceId));
    assert IdentitySeed(rolloutId, deviceId) == Lower(rolloutId) + [':'] + Lower(deviceId);
  }

  lemma PrefixCancels(p: string, a: string, b: string)
    ensures p + a == p + b <==> a == b
  {
    assert (p + a)[|p|..] == a && (p + b)[|p|..] == b;
  }

  lemma SamePrefix(p: string, a: Digest, b: Digest)
    ensures p + a[..32] == p + b[..32] <==> a[..32] == b[..32]
  {
    PrefixCancels(p, a[..32], b[..32]);
  }

  /** A changeset id names its rollout and its device, up to letter case; a UUID has no colon. */
  lemma ChangeSetIdsTellApart(e: Env, r1: string, d1: string, r2: string, d2: string)
    requires ':' !in r1 && ':' !in r2
    requires SeedsApart(e, "device-change-set:" + IdentitySeed(r1, d1), "device-change-set:" + IdentitySeed(r2, d2))
    ensures RolloutChangeSetId(e, r1, d1) == RolloutChangeSetId(e, r2, d2) <==> EqualFold(r1, r2) && EqualFold(d1, d2)
  {
    SeedSplits(r1, d1);
    SeedSplits(r2, d2);
    PrefixCancels("device-change-set:", IdentitySeed(r1, d1), IdentitySeed(r2, d2));
    SamePrefix("cs-", e.seedDigest("device-change-set:" + IdentitySeed(r1, d1)), e.seedDigest("device-change-set:" + IdentitySeed(r2, d2)));
  }

  function OperationTail(index: nat, config: string): string { Decimal(index) + ":" + config }

  lemma TailsTellApart(i: nat, c1: string, j: nat, c2: string)
    ensures OperationTail(i, c1) == OperationTail(j, c2) <==> i == j && c1 == c2
  {
    Decimals.DecimalIsRead(i);
    Decimals.DecimalIsRead(j);
    CutFirst(Decimal(i), ':', c1);
    CutFirst(Decimal(j), ':', c2);
    assert OperationTail(i, c1) == Decimal(i) + [':'] + c1 && OperationTail(j, c2) == Decimal(j) + [':'] + c2;
  }

  function OperationSeed(rolloutId: string, deviceId: string, index: nat, config: string): string {
    "device-operation:" + IdentitySeed(rolloutId, deviceId) + ":" + Decimal(index) + ":" + config
  }

  lemma OperationSeedIs(rolloutId: string, deviceId: string, index: nat, config: string)
    ensures OperationSeed(rolloutId, deviceId, index, config)
            == ("device-operation:" + IdentitySeed(rolloutId, deviceId) + ":") + OperationTail(index, config)
  {
  }

  /** Within one changeset an operation id names its place and its namespace. */
  lemma OperationIdsTellApart(e: Env, r: string, d: string, i: nat, c1: string, j: nat, c2: string)
    requires SeedsApart(e, OperationSeed(r, d, i, c1), OperationSeed(r, d, j, c2))
    ensures RolloutOperationId(e, r, d, i, c1) == RolloutOperationId(e, r, d, j, c2) <==> i == j && c1 == c2
  {
    OperationSeedIs(r, d, i, c1);
    OperationSeedIs(r, d, j, c2);
    PrefixCancels("device-operation:" + IdentitySeed(r, d) + ":", OperationTail(i, c1), OperationTail(j, c2));
    TailsTellApart(i, c1, j, c2);
    SamePrefix("op-", e.seedDigest(OperationSeed(r, d, i, c1)), e.seedDigest(OperationSeed(r, d, j, c2)));
  }

  // ---- How large a changeset can be -------------------------------------------------

  lemma {:induction false} DistinctConfigs(ops: seq<Operation>)
    requires DistinctNamespaces(ops)
    ensures |set i | 0 <= i < |ops| :: ops[i].config| == |ops|
    decreases |ops|
  {
    if ops != [] {
      var n := |ops| - 1;
      var front, all := set i | 0 <= i < n :: ops[..n][i].config, set i | 0 <= i < |ops| :: ops[i].config;
      DistinctConfigs(ops[..n]);
      assert front == set i | 0 <= i < |ops[..n]| :: ops[..n][i].config;
      assert all == front + {ops[n].config} by {
        forall x | x in all ensures x in front + {ops[n].config} {
          var i :| 0 <= i < |ops| && ops[i].config == x;
          assert i < n ==> ops[..n][i].config in front;
        }
      }
      assert ops[n].config !in front;
    }
  }

  /**
   * One operation for each namespace and five namespaces: the limit of eight
   * operations is never reached, and a sixth operation is always refused. Changesets
   * that ask for any other confirmation than the agent's own are refused too.
   */
  lemma AtMostFiveOperations(e: Env, cs: ChangeSet)
    requires Acceptable(e, cs) || ServiceAccepts(e, cs)
    ensures 1 <= |cs.operations| <= 5 && cs.policy == "local_auto"
  {
    var named := {"system", "dhcp", "firewall", "dropbear", "sqm"};
    var configs := set i | 0 <= i < |cs.operations| :: cs.operations[i].config;
    DistinctConfigs(cs.operations);
    forall i | 0 <= i < |cs.operations| ensures cs.operations[i].config in named {
      assert cs.operations[i].config in NAMESPACES;
    }
    SubsetIsSmaller(configs, named);
  }
}
