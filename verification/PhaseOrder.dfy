/**
 * The first phase is chosen by the orchestrator, the later ones by the worker,
 * each with its own sort. The orchestrator recognises a Gateway by the exact
 * role text, the worker in any letter case.
 */
module PhaseOrder {
  import opened Common
  import opened Controller
  import opened DeviceOrder
  import opened Worker

  predicate ExactGateway(role: string) { role == "Gateway" }

  /** The orchestrator's stable sort: one device per phase. */
  function SortPhases(devices: seq<PlanDevice>): seq<PlanDevice> { SortBy(ExactGateway, devices) }

  /** Whoever is a Gateway in any letter case is one exactly. */
  predicate PlainRole(d: PlanDevice) { IsGateway(d.role) == ExactGateway(d.role) }

  /** A Gateway in another spelling stands, by id, between the plain non-Gateways and the exact Gateways. */
  ghost predicate SpellingsHarmless(devices: seq<PlanDevice>) {
    forall g, o | g in devices && o in devices && !PlainRole(g) && PlainRole(o) ::
      if IsGateway(o.role) then LexLess(g.id, o.id) else LexLess(o.id, g.id)
  }

  lemma ExactIsAnyCase(role: string)
    requires ExactGateway(role)
    ensures IsGateway(role)
  {
  }

  /** Between a Gateway in another spelling and a plainly spelled device the two sorts agree exactly by id. */
  lemma MixedPairAgrees(g: PlanDevice, o: PlanDevice)
    requires !PlainRole(g) && PlainRole(o) && g.id != o.id
    ensures AgreeOn(IsGateway, ExactGateway, g, o) <==> if IsGateway(o.role) then LexLess(g.id, o.id) else LexLess(o.id, g.id)
    ensures AgreeOn(IsGateway, ExactGateway, g, o) <==> AgreeOn(IsGateway, ExactGateway, o, g)
  {
    LexLessTotal(g.id, o.id);
    DifferentIdsAreOrdered(IsGateway, g, o);
    DifferentIdsAreOrdered(ExactGateway, g, o);
    if ExactGateway(g.role) {
      ExactIsAnyCase(g.role);
    }
  }

  lemma AlikePairAgrees(a: PlanDevice, b: PlanDevice)
    requires PlainRole(a) == PlainRole(b)
    ensures AgreeOn(IsGateway, ExactGateway, a, b)
  {
    if ExactGateway(a.role) {
      ExactIsAnyCase(a.role);
    }
    if ExactGateway(b.role) {
      ExactIsAnyCase(b.role);
    }
  }

  /** Over a list of distinct ids: pairwise agreement is the condition on spellings. */
  lemma AgreementMeansHarmless(devices: seq<PlanDevice>)
    requires DistinctIds(devices)
    ensures AgreeWithin(IsGateway, ExactGateway, devices) <==> SpellingsHarmless(devices)
  {
    forall a, b | a in devices && b in devices
      ensures PlainRole(a) == PlainRole(b) ==> AgreeOn(IsGateway, ExactGateway, a, b)
      ensures !PlainRole(a) && PlainRole(b) ==>
                && (AgreeOn(IsGateway, ExactGateway, a, b) <==> if IsGateway(b.role) then LexLess(a.id, b.id) else LexLess(b.id, a.id))
                && (AgreeOn(IsGateway, ExactGateway, a, b) <==> AgreeOn(IsGateway, ExactGateway, b, a))
    {
      if PlainRole(a) == PlainRole(b) {
        AlikePairAgrees(a, b);
      } else if !PlainRole(a) {
        MixedPairAgrees(a, b);
      }
    }
  }

  /** The orchestrator's phases are the worker's order if and only if other spellings of Gateway are harmless. */
  lemma OrdersAgreeExactly(devices: seq<PlanDevice>)
    requires DistinctIds(devices)
    ensures SortPhases(devices) == SortDevices(devices) <==> SpellingsHarmless(devices)
  {
    SortsAgreeExactly(IsGateway, ExactGateway, devices);
    AgreementMeansHarmless(devices);
  }

  /** The roles that the role handler stores; a device without one is an access point. */
  predicate StoredRole(role: string) { role in ["Gateway", "AP", "IoT_Node"] }

  /** With the roles the handler can store, the two orders are always the same. */
  lemma StoredRolesKeepOneOrder(devices: seq<PlanDevice>)
    requires forall d | d in devices :: StoredRole(d.role)
    ensures SortPhases(devices) == SortDevices(devices)
  {
    forall a, b | a in devices && b in devices ensures AgreeOn(IsGateway, ExactGateway, a, b) {
      StoredRolesArePlain(a);
      StoredRolesArePlain(b);
      AlikePairAgrees(a, b);
    }
    SortsAgree(IsGateway, ExactGateway, devices);
  }

  lemma StoredRolesArePlain(d: PlanDevice)
    requires StoredRole(d.role)
    ensures PlainRole(d)
  {
    if d.role == "AP" {
      assert |Lower("AP")| != |Lower("Gateway")|;
    } else if d.role == "IoT_Node" {
      assert |Lower("IoT_Node")| != |Lower("Gateway")|;
    }
  }
}
