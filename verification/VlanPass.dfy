/**
 One pass of repairs in the vlan scenario.  A vlan whose attributes differ is deleted and added again, and the routes
 through it go with it; the routes are judged on the snapshot taken before.
 */
module VlanPass {
  import opened Wrappers
  import opened NetState
  import opened Verify
  import opened Kernel
  import opened Consistency
  import opened Tracking
  import opened Remake
  import opened Run

  // The states that are repaired, and what can go wrong.

  /** The vlan is there with other attributes, and is made anew. */
  predicate Recreated(ds: Desired, rs: Real) {
    var vl, link := FindVlan(rs.vlans, ds.vlan), FindBy(rs, ds.vlanLink);
    && FindBy(rs, ds.vlan).Some?
    && !(vl.Some? && vl.value.id == Some(ds.vlanId) && link.Some? && vl.value.link == Some(link.value.ifindex))
  }

  /** The rest of a state, besides its vlan. */
  function PlanOf(ds: Desired, rs: Real): Plan {
    Plan(ds, UplinkUp, GatewayGoes(ds, rs, Links(rs)), {})
  }

  /** A state of the vlan scenario, with its vlan in its bridge, whose parts do not stand in each other's way. */
  predicate VlanPlaced(ds: Desired, rs: Real) {
    && ScenarioOf(ds.scenario) == VlanBridge && BridgePlaced(ds, rs) && MembersThere(ds, rs) && DistinctKeys(ds.routes)
    && ds.vlanBridge == ds.bridge && ds.vlan != ds.vlanLink && Elsewhere(PlanOf(ds, rs), ds.vlan)
    && Alone(rs, ds.vlan, Recreated(ds, rs)) && (UpOk(ds.vlanLink, rs) || ds.vlanLink in Members(ds) + {ds.bridge})
  }

  /** No desired route goes through a vlan that is made anew and is there on the snapshot. */
  predicate RoutesSurvive(ds: Desired, rs: Real) {
    Survive(ds.routes, rs, ds.vlan, Recreated(ds, rs))
  }

  /** The networks that are on-link before the routes are looked at. */
  function VlanLinks(ds: Desired, rs: Real): set<Link> {
    MadeLinks(rs, ds.vlan, Recreated(ds, rs), FirstLinks(ds, rs, UplinkUp))
  }

  /** Every device is up and every next hop is on-link by the time that it is needed. */
  predicate VlanCarried(ds: Desired, rs: Real) {
    && GatewayGoes(ds, rs, Links(rs))
    && RoutesGo(ds.routes, FirstUps(ds, UplinkUp) + {ds.vlan}, Seen(rs, ds.vlan, Recreated(ds, rs)), VlanLinks(ds, rs))
  }

  // The vlan is made.

  lemma {:induction false} FindVlanLast(vlans: seq<Vlan>, last: Vlan, n: string)
    ensures FindVlan(vlans + [last], n) ==
            if FindVlan(vlans, n).Some? then FindVlan(vlans, n) else if last.ifname == n then Some(last) else None
  {
    if vlans == [] {
      assert vlans + [last] == [last] && [last][1..] == [];
    } else {
      FindVlanLast(vlans[1..], last, n);
      assert (vlans + [last])[1..] == vlans[1..] + [last];
    }
  }

  lemma {:induction false} AddDone(k: Kernel, link: string, name: string, id: nat)
    requires Consistent(k) && FindBy(k.state, name).None? && FindBy(k.state, link).Some?
    ensures var act, index := LinkAddVlan(link, name, id), FindBy(k.state, link).value.ifindex;
            && Exec(k, act).Some? && Added(k, After(k, act), name, "vlan") && FindVlan(k.state.vlans, name).None?
            && FindVlan(After(k, act).state.vlans, name) == Some(Vlan(name, Some(id), Some(index)))
  {
    hide FindIface, FindVlan, FindVxlan, KernelOk;
    var vlan := Vlan(name, Some(id), Some(FindBy(k.state, link).value.ifindex));
    assert KindThere(k.state, name);
    FindVlanLast(k.state.vlans, vlan, name);
    forall n: string
      ensures AddedFind(k, After(k, LinkAddVlan(link, name, id)), name, n)
    {
      FindVlanLast(k.state.vlans, vlan, n);
    }
  }

  /** An interface that is up is up by its number. */
  lemma {:induction false} UpByNumber(rs: Real, name: string)
    requires UpOk(name, rs)
    ensures UpNumber(rs, FindBy(rs, name).value.ifindex)
  {
    FoundIn(rs.ifaces, name);
  }

  lemma {:induction false} NewGoesUp(k: Kernel, u: Kernel, name: string, link: string)
    requires Added(k, u, name, "vlan") && FindBy(k.state, name).None? && UpOk(link, k.state)
    requires FindVlan(u.state.vlans, name).Some?
    requires FindVlan(u.state.vlans, name).value.link == Some(FindBy(k.state, link).value.ifindex)
    ensures MayGoUp(u.state, name)
  {
    hide FindIface, FindVlan, FindVxlan;
    FindAdded(k, u, name, "vlan", name);
    UpByNumber(k.state, link);
    var i :| i in k.state.ifaces && i.ifindex == FindBy(k.state, link).value.ifindex && i.up;
    assert i in u.state.ifaces;
  }

  /** The commands for the vlan, by what the snapshot shows of it. */
  lemma {:induction false} VlanActs(ds: Desired, rs: Real)
    requires KindThere(rs, ds.vlan)
    ensures var make := [LinkAddVlan(ds.vlanLink, ds.vlan, ds.vlanId), LinkUp(ds.vlan),
                         LinkMaster(ds.vlan, ds.vlanBridge)];
            var iface := FindBy(rs, ds.vlan);
            Acts(CheckVlan(ds, rs)) ==
            if iface.None? then make
            else if Recreated(ds, rs) then [LinkDel(ds.vlan)] + make
            else Acts(CheckUp(ds.vlan, iface) + CheckMaster(ds.vlan, iface, ds.vlanBridge, rs))
  {
    hide FindIface, FindVlan, FindVxlan, CheckUp, CheckMaster;
    var iface, vl := FindBy(rs, ds.vlan), FindVlan(rs.vlans, ds.vlan);
    var make := [LinkAddVlan(ds.vlanLink, ds.vlan, ds.vlanId), LinkUp(ds.vlan), LinkMaster(ds.vlan, ds.vlanBridge)];
    var del := LinkDel(ds.vlan);
    MakeActs(ds);
    ActsOfOne(del);
    if vl.None? {
      var first: Report := [Miss] + (if iface.Some? then [Do(del)] else []);
      ActsConcat([Miss], if iface.Some? then [Do(del)] else []);
      ActsConcat(first, AddVlan(ds));
      assert [] + make == make && [] + [del] == [del];
    } else {
      var checks := [Ok] + CheckVlanId(ds, vl.value) + CheckVlanLink(ds, rs, vl.value);
      QuietChecks(ds, rs, vl.value);
      var rest := if Recreated(ds, rs) then [Do(del)] + AddVlan(ds)
                  else CheckUp(ds.vlan, iface) + CheckMaster(ds.vlan, iface, ds.vlanBridge, rs);
      assert CheckVlan(ds, rs) == checks + rest;
      ActsConcat(checks, rest);
      ActsConcat([Do(del)], AddVlan(ds));
      assert [] + Acts(rest) == Acts(rest);
    }
  }

  lemma {:induction false} MakeActs(ds: Desired)
    ensures Acts(AddVlan(ds)) == [LinkAddVlan(ds.vlanLink, ds.vlan, ds.vlanId), LinkUp(ds.vlan),
                                  LinkMaster(ds.vlan, ds.vlanBridge)]
  {
    var a, b, c := LinkAddVlan(ds.vlanLink, ds.vlan, ds.vlanId), LinkUp(ds.vlan), LinkMaster(ds.vlan, ds.vlanBridge);
    assert AddVlan(ds) == [Do(a)] + ([Do(b)] + [Do(c)]);
    ActsOfOne(a);
    ActsOfOne(b);
    ActsOfOne(c);
    ActsConcat([Do(b)], [Do(c)]);
    ActsConcat([Do(a)], [Do(b)] + [Do(c)]);
  }

  lemma {:induction false} QuietChecks(ds: Desired, rs: Real, vl: Vlan)
    ensures Acts([Ok] + CheckVlanId(ds, vl) + CheckVlanLink(ds, rs, vl)) == []
  {
    hide FindIface, Acts;
    var x, y := CheckVlanId(ds, vl), CheckVlanLink(ds, rs, vl);
    ActsOfOne(Note);
    ActsConcat([Ok], x);
    ActsConcat([Ok] + x, y);
  }

  ghost predicate VlanReady(ds: Desired, rs: Real, k: Kernel) {
    && VlanPlaced(ds, rs) && UpOk(ds.vlanLink, k.state)
    && Ready(PlanOf(ds, rs), ds.vlan, rs, k, FirstLinks(ds, rs, UplinkUp), GatewayKeys(ds, rs), FirstUps(ds, UplinkUp))
  }

  ghost predicate VlanMade(ds: Desired, rs: Real, u: Kernel) {
    && Made(PlanOf(ds, rs), ds.vlan, rs, Recreated(ds, rs), u, FirstLinks(ds, rs, UplinkUp), GatewayKeys(ds, rs),
            FirstUps(ds, UplinkUp))
    && VlanOk(ds, u.state)
  }

  /** The vlan goes up over its link. */
  lemma {:induction false} VlanLifts(ds: Desired, rs: Real, k: Kernel)
    requires VlanReady(ds, rs, k) && FindBy(rs, ds.vlan).Some? && !Recreated(ds, rs)
    ensures MayGoUp(k.state, ds.vlan) && StillThere(rs, k.state, ds.vlanLink)
  {
    hide FindIface, FindVlan, FindVxlan, KernelOk, RestOk, BridgePlaced, Tracks, Sound, Alone, MembersThere,
         DistinctKeys;
    assert StillThere(rs, k.state, ds.vlan) && StillThere(rs, k.state, ds.vlanLink);
    UpByNumber(k.state, ds.vlanLink);
  }

  /** The vlan is right but for being up and in the bridge. */
  lemma {:induction false} RightVlan(ds: Desired, rs: Real, k: Kernel)
    requires VlanReady(ds, rs, k) && FindBy(rs, ds.vlan).Some? && !Recreated(ds, rs)
    ensures var acts := Acts(CheckVlan(ds, rs));
            !AnyFails(k, acts) && VlanMade(ds, rs, RunActs(k, acts))
  {
    hide FindIface, FindVlan, FindVxlan, Acts, RunActs, AnyFails, Improves, KernelOk, RestOk, BridgePlaced, CheckUp,
         CheckMaster, MayGoUp, Tracks, MembersThere, DistinctKeys, FirstLinks, GatewayKeys, FirstUps, MadeLinks, Along;
    assert KindThere(rs, ds.vlan);
    VlanActs(ds, rs);
    VlanLifts(ds, rs, k);
    RightMade(PlanOf(ds, rs), ds.vlan, rs, k, FirstLinks(ds, rs, UplinkUp), GatewayKeys(ds, rs),
              FirstUps(ds, UplinkUp));
    SameNumber(k.state, RunActs(k, Acts(CheckVlan(ds, rs))).state, ds.bridge, ds.vlanLink);
  }

  /** A vlan that is added. */
  lemma {:induction false} AddedVlan(ds: Desired, rs: Real, k: Kernel)
    requires VlanPlaced(ds, rs) && UpOk(ds.vlanLink, k.state) && FindBy(k.state, ds.vlan).None?
    requires var seen := Seen(rs, ds.vlan, Recreated(ds, rs));
             && Along(seen, k, ds.bridge, GatewayKeys(ds, rs)) && RestOk(PlanOf(ds, rs), k.state)
             && FindBy(seen, ds.vlan).None?
             && Tracks(seen, k, ds.bridge, VlanLinks(ds, rs), GatewayKeys(ds, rs), FirstUps(ds, UplinkUp))
    ensures var acts := [LinkAddVlan(ds.vlanLink, ds.vlan, ds.vlanId), LinkUp(ds.vlan),
                         LinkMaster(ds.vlan, ds.vlanBridge)];
            !AnyFails(k, acts) && VlanMade(ds, rs, RunActs(k, acts))
  {
    hide FindIface, FindVlan, FindVxlan, RunActs, AnyFails, Improves, RestOk, BridgePlaced, Tracks, MembersThere,
         DistinctKeys, FirstLinks, GatewayKeys, FirstUps, MadeLinks, Along, Added, MayGoUp, Exec, After, Consistent,
         Seen, Alone, Recreated;
    var add, p := LinkAddVlan(ds.vlanLink, ds.vlan, ds.vlanId), PlanOf(ds, rs);
    TracksLinks(Seen(rs, ds.vlan, Recreated(ds, rs)), k, ds.bridge, VlanLinks(ds, rs), GatewayKeys(ds, rs),
                FirstUps(ds, UplinkUp));
    AddDone(k, ds.vlanLink, ds.vlan, ds.vlanId);
    NewGoesUp(k, After(k, add), ds.vlan, ds.vlanLink);
    NewMade(p, ds.vlan, "vlan", add, rs, Recreated(ds, rs), k, FirstLinks(ds, rs, UplinkUp), GatewayKeys(ds, rs),
            FirstUps(ds, UplinkUp));
    var u := RunActs(k, [add, LinkUp(ds.vlan), LinkMaster(ds.vlan, ds.bridge)]);
    SameNumber(k.state, u.state, ds.bridge, ds.vlanLink);
  }

  /** There is no vlan of that name. */
  lemma {:induction false} NewVlan(ds: Desired, rs: Real, k: Kernel)
    requires VlanReady(ds, rs, k) && FindBy(rs, ds.vlan).None?
    ensures var acts := Acts(CheckVlan(ds, rs));
            !AnyFails(k, acts) && VlanMade(ds, rs, RunActs(k, acts))
  {
    hide FindIface, FindVlan, FindVxlan, Acts, RunActs, AnyFails, RestOk, BridgePlaced, CheckVlan, Tracks, MembersThere,
         DistinctKeys, FirstLinks, GatewayKeys, FirstUps, Along, VlanMade;
    assert KindThere(rs, ds.vlan);
    VlanActs(ds, rs);
    assert AddrLinks(ds.vlan, rs) == {} && FirstLinks(ds, rs, UplinkUp) + {} == FirstLinks(ds, rs, UplinkUp);
    AddedVlan(ds, rs, k);
  }

  /** It is there with other attributes. */
  lemma {:induction false} OtherVlan(ds: Desired, rs: Real, k: Kernel)
    requires VlanReady(ds, rs, k) && Recreated(ds, rs)
    ensures var acts := Acts(CheckVlan(ds, rs));
            !AnyFails(k, acts) && VlanMade(ds, rs, RunActs(k, acts))
  {
    hide FindIface, FindVlan, FindVxlan, Acts, RunActs, AnyFails, RestOk, BridgePlaced, CheckVlan, Tracks, MembersThere,
         DistinctKeys, FirstLinks, GatewayKeys, FirstUps, Along, VlanMade, Exec, After, Lost, Deleted, Recreated;
    assert KindThere(rs, ds.vlan);
    VlanActs(ds, rs);
    var del, p := LinkDel(ds.vlan), PlanOf(ds, rs);
    DeletedReady(p, ds.vlan, rs, k, FirstLinks(ds, rs, UplinkUp), GatewayKeys(ds, rs), FirstUps(ds, UplinkUp));
    var k1 := After(k, del);
    LostKeeps(k.state, k1.state, ds.vlan, FindBy(k.state, ds.vlan).value.ifindex, ds.vlanLink);
    AddedVlan(ds, rs, k1);
    var make := [LinkAddVlan(ds.vlanLink, ds.vlan, ds.vlanId), LinkUp(ds.vlan), LinkMaster(ds.vlan, ds.vlanBridge)];
    RunFew(k, del, del);
    RunConcat(k, [del], make);
    FailsConcat(k, [del], make);
    FailsOne(k, del);
  }

  lemma {:induction false} VlanDone(ds: Desired, rs: Real, k: Kernel)
    requires VlanReady(ds, rs, k)
    ensures var acts := Acts(CheckVlan(ds, rs));
            !AnyFails(k, acts) && VlanMade(ds, rs, RunActs(k, acts))
  {
    hide VlanReady, VlanMade, Acts, RunActs, AnyFails, CheckVlan, FindIface;
    if FindBy(rs, ds.vlan).None? {
      NewVlan(ds, rs, k);
    } else if Recreated(ds, rs) {
      OtherVlan(ds, rs, k);
    } else {
      RightVlan(ds, rs, k);
    }
  }

  // The whole pass.

  lemma {:induction false} VlanStays(ds: Desired, rs: Real, u: Real, keys: set<Prefix>)
    requires Improves(rs, u, ds.bridge, keys) && VlanOk(ds, rs) && ds.vlanBridge == ds.bridge
    ensures VlanOk(ds, u)
  {
    hide FindIface, FindVlan;
    assert StillThere(rs, u, ds.vlanLink) && VlanStaysThere(rs, u, ds.vlan);
    UpStays(rs, u, ds.bridge, keys, ds.vlan);
    MastersStay(rs, u, ds.bridge, keys, ds.vlan);
  }

  lemma {:induction false} AllOk(ds: Desired, rs: Real)
    requires ScenarioOf(ds.scenario) == VlanBridge
    ensures Satisfied(ds, rs) ==> RoutesOk(ds.routes, rs) && GatewayOk(ds, rs)
    ensures RoutesOk(ds.routes, rs) && FirstDone(ds, rs, UplinkUp, true) && VlanOk(ds, rs) ==> Satisfied(ds, rs)
  {
    hide RoutesOk, VlanOk, PortsOk, UpOk, BridgeOk, AddrOk, GatewayOk, DnsOk;
  }

  /** What comes before the vlan. */
  lemma {:induction false} VlanFirst(ds: Desired, k: Kernel)
    requires VlanPlaced(ds, k.state) && Consistent(k)
    ensures var acts := Acts(FirstReport(ds, k.state, UplinkUp));
            && VlanReady(ds, k.state, RunActs(k, acts))
            && (GatewayGoes(ds, k.state, Links(k.state)) ==> !AnyFails(k, acts))
  {
    hide FindIface, Acts, RunActs, AnyFails, Mild, Consistent, FirstReport, PortsThere, BridgePlaced, Tracks, Ready,
         Lifts, NothingOver, Improves, Links, GatewayGoes, GatewayKeys, FirstLinks, UpOk, Along, DistinctKeys, KernelOk;
    var rs, keys, p := k.state, GatewayKeys(ds, k.state), PlanOf(ds, k.state);
    FirstPart(ds, k, UplinkUp);
    var acts := Acts(FirstReport(ds, rs, UplinkUp));
    IsReady(p, ds.vlan, k, acts, FirstLinks(ds, rs, UplinkUp), keys, FirstUps(ds, UplinkUp));
    var u := RunActs(k, acts);
    if UpOk(ds.vlanLink, rs) {
      AlongImproves(rs, u, ds.bridge, keys);
      UpStays(rs, u.state, ds.bridge, keys, ds.vlanLink);
    } else {
      FirstAreUp(ds, u.state, UplinkUp, p.goes);
    }
  }

  lemma {:induction false} AllUp(ds: Desired, rs: Real, u: Kernel)
    requires VlanMade(ds, rs, u)
    ensures forall dev :: dev in FirstUps(ds, UplinkUp) + {ds.vlan} ==> UpOk(dev, u.state)
  {
    hide UpOk, Along, Tracks, FirstUps, FirstLinks, GatewayKeys, MasterOk, FirstDone, FindIface;
    FirstAreUp(ds, u.state, UplinkUp, PlanOf(ds, rs).goes);
  }

  /**
   One pass of repairs in the vlan scenario, planned on a snapshot taken before it, leaves nothing to repair if and only
   if no desired route that the snapshot shows goes through a vlan that is made anew, and every device is up and every
   next hop is on-link by the time that its command comes; and then no command fails.
   */
  lemma {:induction false} VlanPassConverges(ds: Desired, k: Kernel)
    requires VlanPlaced(ds, k.state) && Consistent(k)
    ensures var acts := Acts(StateReport(ds, k.state));
            var fine := RoutesSurvive(ds, k.state) && VlanCarried(ds, k.state);
            (Satisfied(ds, RunActs(k, acts).state) <==> fine) && (fine ==> !AnyFails(k, acts))
  {
    hide FindIface, Acts, RunActs, AnyFails, Consistent, FirstReport, CheckVlan, CheckRoutes, Satisfied, VlanReady,
         VlanMade, Recreated, Sound, KernelOk, StateReport, VlanPlaced, RoutesGo, GatewayGoes, VlanLinks, Seen,
         FirstUps, RoutesOk, GatewayOk;
    var rs := k.state;
    var first, v, h := FirstReport(ds, rs, UplinkUp), CheckVlan(ds, rs), CheckRoutes(ds.routes, rs);
    VlanFirst(ds, k);
    var k1 := RunActs(k, Acts(first));
    VlanDone(ds, rs, k1);
    var k2 := RunActs(k1, Acts(v));
    ActsConcat(first, v);
    ActsConcat(first + v, h);
    RunConcat(k, Acts(first), Acts(v));
    RunConcat(k, Acts(first + v), Acts(h));
    FailsConcat(k, Acts(first), Acts(v));
    FailsConcat(k, Acts(first + v), Acts(h));
    WholeReport(ds, rs);
    VlanRoutes(ds, rs, k2, k);
  }

  lemma {:induction false} WholeReport(ds: Desired, rs: Real)
    requires VlanPlaced(ds, rs)
    ensures StateReport(ds, rs) == FirstReport(ds, rs, UplinkUp) + CheckVlan(ds, rs) + CheckRoutes(ds.routes, rs)
  {
    hide BridgeReport, CheckUplink, CheckPorts, CheckRoutes, CheckVlan, FindIface, BridgePlaced, MembersThere, Alone,
         DistinctKeys, UpOk;
  }

  lemma {:induction false} VlanRoutes(ds: Desired, rs: Real, k: Kernel, from: Kernel)
    requires VlanPlaced(ds, rs) && VlanMade(ds, rs, k) && Consistent(from) && from.state == rs
    ensures var acts := Acts(CheckRoutes(ds.routes, rs));
            var fine := RoutesSurvive(ds, rs) && VlanCarried(ds, rs);
            (Satisfied(ds, RunActs(k, acts).state) <==> fine) && (fine ==> !AnyFails(k, acts))
  {
    hide FindIface, FindVlan, Acts, RunActs, AnyFails, Improves, Mild, Consistent, KeysOfAll, CheckRoutes, Recreated,
         VlanOk, RoutesOk, NotAmong, MembersThere, Seen, ParseIp4, ParsePrefix, DnsOk, Sound, NothingOver, BridgeLinks,
         Covered, GatewayOk, UpOk, Along, Tracks, RoutesGo, MadeLinks, FirstLinks, FirstUps, Links, RestOk,
         DistinctKeys, Satisfied, MasterOk, Survive, RouteKey, FirstDone, ScenarioOf;
    var p, remade, keys := PlanOf(ds, rs), Recreated(ds, rs), GatewayKeys(ds, rs);
    var acts := Acts(CheckRoutes(ds.routes, rs));
    var u := RunActs(k, acts);
    IsConsistent(from);
    AllOk(ds, u.state);
    if p.goes {
      KeysApart(ds, keys);
      AllUp(ds, rs, k);
      LastPart(p, ds.vlan, rs, remade, k, FirstLinks(ds, rs, UplinkUp), keys, FirstUps(ds, UplinkUp));
      if RoutesSurvive(ds, rs) && VlanCarried(ds, rs) {
        VlanStays(ds, k.state, u.state, KeysOfAll(acts));
        RestIsDone(p, u.state);
      }
    } else {
      GatewayLost(p, ds.vlan, rs, remade, k, FirstLinks(ds, rs, UplinkUp), keys, FirstUps(ds, UplinkUp));
    }
  }

  /** On a host that nobody else changes, one run repairs the state and says so exactly under that condition. */
  lemma {:induction false} VlanRunRepairs(ds: Desired, k: Kernel)
    requires VlanPlaced(ds, k.state) && Consistent(k)
    ensures var fine := RoutesSurvive(ds, k.state) && VlanCarried(ds, k.state);
            && (Code([ds], k, true) == 0 <==> fine)
            && (Satisfied(ds, Pass([ds], k.state, k, true).kernel.state) <==> fine)
  {
    hide VlanPlaced, Consistent, Satisfied, StateReport, RunActs, AnyFails, Acts, Pass, RoutesSurvive, VlanCarried,
         Code;
    VlanPassConverges(ds, k);
    IsVlan(ds, k.state);
    OneRunTells(ds, k);
  }

  lemma {:induction false} IsVlan(ds: Desired, rs: Real)
    requires VlanPlaced(ds, rs)
    ensures ScenarioOf(ds.scenario) == VlanBridge
  {
  }

  // A state that one pass does not repair.

  const BRIDGE := Iface("br", "bridge", 1, true, 0)
  const UPLINK := Iface("lo", "", 2, true, 0)
  const VLAN := Iface("v", "vlan", 3, true, 1)

  /** A vlan with id 7, and the default route through it. */
  const BEFORE := Real([BRIDGE, UPLINK, VLAN], [], [Route(0, 0, None, 3)], [], [], [Vlan("v", Some(7), Some(2))])

  /** The vlan is to have id 8. */
  const WANTED := Desired("vlan_bridge", "br", NoAddr, "", "", [], "", [], "lo", "v", 8, "lo", "br", "", "", "", "", 0,
                          "", "", "",
                          [DesiredRoute(DEFAULT_ROUTE, None, "v")])

  lemma {:induction false} FindAmong(n: string)
    ensures FindBy(BEFORE, n) == if n == "br" then Some(BRIDGE) else if n == "lo" then Some(UPLINK)
                                 else if n == "v" then Some(VLAN) else None
    ensures FindVlan(BEFORE.vlans, n) == if n == "v" then Some(Vlan("v", Some(7), Some(2))) else None
  {
    var ifaces := BEFORE.ifaces;
    assert ifaces[1..] == [UPLINK, VLAN] && ifaces[1..][1..] == [VLAN] && [VLAN][1..] == [];
    assert FindIface([VLAN], n) == if n == "v" then Some(VLAN) else None;
    assert FindIface([UPLINK, VLAN], n) == if n == "lo" then Some(UPLINK) else FindIface([VLAN], n);
    assert BEFORE.vlans[1..] == [];
  }

  /** The default route is lost with the vlan that is made anew, and the pass does not put it back. */
  lemma {:induction false} VlanRouteIsLost(k: Kernel)
    requires k.state == BEFORE && k.next == 4
    ensures VlanPlaced(WANTED, BEFORE) && Consistent(k)
    ensures !Satisfied(WANTED, RunActs(k, Acts(StateReport(WANTED, BEFORE))).state)
  {
    hide FindIface, FindVlan, ParsePrefix, ParseIp4, NoHostBits, Acts, RunActs, Satisfied, StateReport, AnyFails,
         VlanCarried, GatewayGoes;
    FindAmong("br");
    FindAmong("lo");
    FindAmong("v");
    ParseDefault();
    assert ScenarioOf(WANTED.scenario) == VlanBridge;
    assert WANTED.routes[0] == DesiredRoute(DEFAULT_ROUTE, None, "v");
    assert Route(0, 0, None, 3) == BEFORE.routes[0];
    assert RouteOk(WANTED.routes[0], BEFORE) && Recreated(WANTED, BEFORE);
    BeforeConsistent(k);
    VlanPassConverges(WANTED, k);
  }

  lemma {:induction false} BeforeConsistent(k: Kernel)
    requires k.state == BEFORE && k.next == 4
    ensures Consistent(k)
  {
    hide FindIface, FindVlan;
    forall n: string
      ensures Numbered(k, n) && KindThere(k.state, n)
    {
      FindAmong(n);
    }
    forall a: string, b: string
      ensures Apart(k.state, a, b)
    {
      FindAmong(a);
      FindAmong(b);
    }
    forall i | i in k.state.ifaces
      ensures Sole(k.state, i)
    {
      FindAmong(i.name);
    }
  }
}
