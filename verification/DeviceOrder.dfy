/** The stable sort that puts Gateways last and devices of one kind by id, for any test of what a Gateway is. */
module DeviceOrder {
  import opened Common
  import opened Controller

  type RoleTest = string -> bool

  predicate Before(gateway: RoleTest, a: PlanDevice, b: PlanDevice) {
    if gateway(a.role) != gateway(b.role) then !gateway(a.role) else LexLess(a.id, b.id)
  }

  function InsertBy(gateway: RoleTest, d: PlanDevice, sorted: seq<PlanDevice>): seq<PlanDevice>
    decreases sorted
  {
    if sorted == [] || !Before(gateway, sorted[0], d) then [d] + sorted else [sorted[0]] + InsertBy(gateway, d, sorted[1..])
  }

  function SortBy(gateway: RoleTest, devices: seq<PlanDevice>): seq<PlanDevice>
    decreases devices
  {
    if devices == [] then [] else InsertBy(gateway, devices[0], SortBy(gateway, devices[1..]))
  }

  ghost predicate SortedBy(gateway: RoleTest, devices: seq<PlanDevice>) {
    forall i, j | 0 <= i < j < |devices| :: !Before(gateway, devices[j], devices[i])
  }

  lemma NotBeforeIsTransitive(gateway: RoleTest, a: PlanDevice, b: PlanDevice, c: PlanDevice)
    requires !Before(gateway, b, a) && !Before(gateway, c, b)
    ensures !Before(gateway, c, a)
  {
    if Before(gateway, c, a) && gateway(a.role) == gateway(b.role) == gateway(c.role) {
      LexLessTotal(a.id, b.id);
      LexLessTotal(b.id, c.id);
      if LexLess(a.id, b.id) {
        LexLessTransitive(c.id, a.id, b.id);
      }
    }
  }

  lemma BeforeIsAsymmetric(gateway: RoleTest, a: PlanDevice, b: PlanDevice)
    requires Before(gateway, a, b)
    ensures !Before(gateway, b, a)
  {
    if Before(gateway, b, a) {
      LexLessTransitive(a.id, b.id, a.id);
      LexLessIrreflexive(a.id);
    }
  }

  lemma {:induction false} InsertKeepsSorted(gateway: RoleTest, d: PlanDevice, sorted: seq<PlanDevice>)
    requires SortedBy(gateway, sorted)
    ensures SortedBy(gateway, InsertBy(gateway, d, sorted))
    ensures multiset(InsertBy(gateway, d, sorted)) == multiset{d} + multiset(sorted)
    decreases sorted
  {
    var r := InsertBy(gateway, d, sorted);
    if sorted == [] {
    } else if !Before(gateway, sorted[0], d) {
      forall j | 0 <= j < |sorted| ensures !Before(gateway, sorted[j], d) {
        if j > 0 {
          NotBeforeIsTransitive(gateway, d, sorted[0], sorted[j]);
        }
      }
    } else {
      var rest := sorted[1..];
      assert sorted == [sorted[0]] + rest;
      InsertKeepsSorted(gateway, d, rest);
      BeforeIsAsymmetric(gateway, sorted[0], d);
      forall j | 1 <= j < |r| ensures !Before(gateway, r[j], sorted[0]) {
        assert r[j] in multiset(InsertBy(gateway, d, rest));
        if r[j] != d {
          assert r[j] in rest;
          var k :| 0 <= k < |rest| && rest[k] == r[j];
          assert sorted[k + 1] == r[j];
        }
      }
    }
  }

  /** The result is sorted and a rearrangement of its input. */
  lemma {:induction false} SortBySorts(gateway: RoleTest, devices: seq<PlanDevice>)
    ensures SortedBy(gateway, SortBy(gateway, devices))
    ensures multiset(SortBy(gateway, devices)) == multiset(devices)
    decreases devices
  {
    if devices != [] {
      SortBySorts(gateway, devices[1..]);
      InsertKeepsSorted(gateway, devices[0], SortBy(gateway, devices[1..]));
      assert devices == [devices[0]] + devices[1..];
    }
  }

  // ---- Two sorts of one list -----------------------------------------------------

  ghost predicate DistinctIds(devices: seq<PlanDevice>) {
    forall i, j | 0 <= i < j < |devices| :: devices[i].id != devices[j].id
  }

  lemma DifferentIdsAreOrdered(gateway: RoleTest, a: PlanDevice, b: PlanDevice)
    requires a.id != b.id
    ensures Before(gateway, a, b) <==> !Before(gateway, b, a)
  {
    LexLessTotal(a.id, b.id);
    if Before(gateway, a, b) {
      BeforeIsAsymmetric(gateway, a, b);
    }
  }

  lemma {:induction false} SameMembers(a: seq<PlanDevice>, b: seq<PlanDevice>)
    requires multiset(a) == multiset(b)
    ensures forall d :: d in a <==> d in b
  {
    forall d ensures d in a <==> d in b {
      assert d in a <==> d in multiset(a);
      assert d in b <==> d in multiset(b);
    }
  }

  lemma RearrangedIdsStayDistinct(a: seq<PlanDevice>, b: seq<PlanDevice>)
    requires multiset(a) == multiset(b) && DistinctIds(a)
    ensures DistinctIds(b)
  {
    SameMembers(a, b);
    forall i, j | 0 <= i < j < |b| ensures b[i].id != b[j].id {
      if b[i].id == b[j].id {
        assert b[i] in a && b[j] in a;
        var k :| 0 <= k < |a| && a[k] == b[i];
        var l :| 0 <= l < |a| && a[l] == b[j];
        TwiceInMultiset(b, i, j);
        OnceInMultiset(a, b[i]);
      }
    }
  }

  /** Both tests put the two devices in the same order. */
  ghost predicate AgreeOn(one: RoleTest, two: RoleTest, a: PlanDevice, b: PlanDevice) {
    Before(one, a, b) == Before(two, a, b)
  }

  ghost predicate AgreeWithin(one: RoleTest, two: RoleTest, devices: seq<PlanDevice>) {
    forall a, b | a in devices && b in devices :: AgreeOn(one, two, a, b)
  }

  lemma {:induction false} InsertsAgree(one: RoleTest, two: RoleTest, d: PlanDevice, sorted: seq<PlanDevice>)
    requires forall a | a in sorted :: AgreeOn(one, two, a, d)
    ensures InsertBy(one, d, sorted) == InsertBy(two, d, sorted)
    decreases sorted
  {
    if sorted != [] {
      assert AgreeOn(one, two, sorted[0], d);
      InsertsAgree(one, two, d, sorted[1..]);
    }
  }

  lemma {:induction false} SortsAgree(one: RoleTest, two: RoleTest, devices: seq<PlanDevice>)
    requires AgreeWithin(one, two, devices)
    ensures SortBy(one, devices) == SortBy(two, devices)
    decreases devices
  {
    if devices != [] {
      SortsAgree(one, two, devices[1..]);
      SortBySorts(one, devices[1..]);
      SameMembers(SortBy(one, devices[1..]), devices[1..]);
      InsertsAgree(one, two, devices[0], SortBy(one, devices[1..]));
    }
  }

  lemma EqualSortsOrder(one: RoleTest, two: RoleTest, devices: seq<PlanDevice>, a: PlanDevice, b: PlanDevice)
    requires DistinctIds(devices) && SortBy(one, devices) == SortBy(two, devices)
    requires a in devices && b in devices
    ensures AgreeOn(one, two, a, b)
  {
    var r := SortBy(one, devices);
    SortBySorts(one, devices);
    SortBySorts(two, devices);
    SameMembers(devices, r);
    RearrangedIdsStayDistinct(devices, r);
    var i :| 0 <= i < |r| && r[i] == a;
    var j :| 0 <= j < |r| && r[j] == b;
    if i < j {
      DifferentIdsAreOrdered(one, a, b);
      DifferentIdsAreOrdered(two, a, b);
    } else if i == j {
      LexLessIrreflexive(a.id);
    }
  }

  /** For distinct ids two sorts agree on a list exactly when the two tests agree on every pair of it. */
  lemma SortsAgreeExactly(one: RoleTest, two: RoleTest, devices: seq<PlanDevice>)
    requires DistinctIds(devices)
    ensures SortBy(one, devices) == SortBy(two, devices) <==> AgreeWithin(one, two, devices)
  {
    if AgreeWithin(one, two, devices) {
      SortsAgree(one, two, devices);
    } else if SortBy(one, devices) == SortBy(two, devices) {
      forall a, b | a in devices && b in devices ensures AgreeOn(one, two, a, b) {
        EqualSortsOrder(one, two, devices, a, b);
      }
    }
  }
}
