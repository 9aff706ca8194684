/**
 One pass for a state, planned on an older snapshot, in the scenarios that a set of states can hold: the uplink alone,
 the uplink in a bridge, and a vlan in a bridge that is not made anew.
 */
module PlannedPass {
  import opened NetState
  import opened Verify
  import opened Kernel
  import opened Consistency
  import opened Tracking
  import opened Remake
  import opened VlanPass

  predicate HasBridge(ds: Desired) {
    ScenarioOf(ds.scenario) == UplinkBridge || ScenarioOf(ds.scenario) == VlanBridge
  }

  /** The parts of a state are there or can be made, and do not contradict each other. */
  predicate SetPlaced(ds: Desired, rs: Real) {
    match ScenarioOf(ds.scenario)
    case OnlyUplink => Lifts(ds.uplink, rs) && DistinctKeys(ds.routes)
    case UplinkBridge => Placed(ds, rs)
    case VlanBridge => VlanPlaced(ds, rs) && !Recreated(ds, rs)
    case _ => false
  }

  /** The interfaces that are up before the routes are looked at. */
  function SetDevs(ds: Desired): set<string> {
    match ScenarioOf(ds.scenario)
    case UplinkBridge => Members(ds) + {ds.bridge}
    case VlanBridge => FirstUps(ds, UplinkUp) + {ds.vlan}
    case _ => {ds.uplink}
  }

  /** The networks that are on-link before the vlan is looked at. */
  function VlanLinksBefore(ds: Desired, rs: Real, links: set<Link>): set<Link> {
    RaisedLinks(Raised(ds, UplinkUp), rs, GatewayLinks(ds, rs, BridgeLinks(ds, rs, links)))
  }

  /** The networks that are on-link before the routes are looked at. */
  function SetLinks(ds: Desired, rs: Real, links: set<Link>): set<Link> {
    match ScenarioOf(ds.scenario)
    case UplinkBridge => LinksBefore(ds, rs, links)
    case VlanBridge => MadeLinks(rs, ds.vlan, false, VlanLinksBefore(ds, rs, links))
    case _ => RaisedLinks([ds.uplink], rs, links)
  }

  /** And after them. */
  function EndLinks(ds: Desired, rs: Real, links: set<Link>): set<Link> {
    RoutesLinks(ds.routes, rs, SetLinks(ds, rs, links))
  }

  /** Every device is up and every next hop is on-link by the time that it is needed. */
  predicate SetCarried(ds: Desired, rs: Real, links: set<Link>) {
    (HasBridge(ds) ==> GatewayGoes(ds, rs, links)) && RoutesGo(ds.routes, SetDevs(ds), rs, SetLinks(ds, rs, links))
  }

  /** A kernel that is no worse than the snapshot for a state, but for routes of other keys. */
  ghost predicate Starts(ds: Desired, rs: Real, k: Kernel, keys: set<Prefix>) {
    && Consistent(k) && Improves(rs, k.state, ds.bridge, keys) && NotAmong(ds.routes, keys) && KindThere(rs, ds.vlan)
    && (HasBridge(ds) ==>
          && SameAddrs(ds, rs, k) && (FindBy(rs, ds.bridge).None? ==> FindBy(k.state, ds.bridge).None?)
          && (ds.gateway != "" ==> Prefix(0, 0) !in keys))
    && (ScenarioOf(ds.scenario) == VlanBridge && FindBy(rs, ds.vlan).None? ==> FindBy(k.state, ds.vlan).None?)
  }

  // The uplink alone.

  lemma {:induction false} OnlyUplinkPlanned(ds: Desired, rs: Real, k: Kernel, keys: set<Prefix>, links: set<Link>)
    requires ScenarioOf(ds.scenario) == OnlyUplink && SetPlaced(ds, rs) && SetCarried(ds, rs, links)
    requires Starts(ds, rs, k, keys) && links <= Links(k.state)
    ensures var acts := Acts(StateReport(ds, rs));
            && !AnyFails(k, acts) && Satisfied(ds, RunActs(k, acts).state)
            && EndLinks(ds, rs, links) <= Links(RunActs(k, acts).state)
  {
    hide FindIface, Acts, RunActs, AnyFails, Improves, Mild, KernelOk, Consistent, KeysOfAll, CheckUp, CheckRoutes,
         RoutesGo, RoutesLinks, NotAmong, Links, MayGoUp, UpOk, RaisedLinks, Steps, DistinctKeys, RoutesOk, Lifts,
         KindThere;
    var bridge, a, b := ds.bridge, CheckUplink(ds, rs), CheckRoutes(ds.routes, rs);
    LiftsThere(ds.uplink, rs);
    UplinkReportUp(ds, rs);
    LiftStays(rs, k.state, bridge, keys, ds.uplink);
    LiftsThere(ds.uplink, k.state);
    StillLifts(ds.uplink, rs, k.state);
    UpBlock(ds.uplink, bridge, rs, k, keys);
    IsConsistent(k);
    GoingOn(rs, k, bridge, keys, Acts(a));
    assert keys + {} == keys;
    var k1 := RunActs(k, Acts(a));
    UpSteps(ds.uplink, bridge, rs, links);
    OneRaised(ds.uplink, rs, links);
    NoAddrUp(ds, rs);
    StepsHave(Acts(a), rs, k, bridge, keys, links);
    RoutesBlock(ds.routes, bridge, {ds.uplink}, rs, k1, keys, RaisedLinks([ds.uplink], rs, links));
    GoingOn(rs, k1, bridge, keys, Acts(b));
    UpStays(k1.state, RunActs(k1, Acts(b)).state, bridge, KeysOfAll(Acts(b)), ds.uplink);
    Sequenced(k, a, b, bridge);
  }

  lemma {:induction false} OneRaised(name: string, rs: Real, links: set<Link>)
    ensures RaisedLinks([name], rs, links) == links + if UpOk(name, rs) then {} else AddrLinks(name, rs)
  {
    hide AddrLinks, UpOk;
    assert [name][1..] == [];
  }

  lemma {:induction false} NoAddrUp(ds: Desired, rs: Real)
    ensures forall a :: a in Acts(CheckUplink(ds, rs)) ==> !a.AddrAdd?
  {
    hide Acts;
    NoAddrUplink(ds, rs, UplinkUp);
  }

  // A vlan in a bridge.

  /** What comes before the vlan. */
  lemma {:induction false} VlanStart(ds: Desired, rs: Real, k: Kernel, keys: set<Prefix>, links: set<Link>)
    requires VlanPlaced(ds, rs) && GatewayGoes(ds, rs, links) && Starts(ds, rs, k, keys) && links <= Links(k.state)
    ensures var acts := Acts(FirstReport(ds, rs, UplinkUp));
            var u := RunActs(k, acts);
            && !AnyFails(k, acts) && AllMild(acts, ds.bridge)
            && KeysOfAll(acts) <= (if ds.gateway != "" then {Prefix(0, 0)} else {})
            && Along(rs, u, ds.bridge, keys + KeysOfAll(acts)) && FirstDone(ds, u.state, UplinkUp, true)
            && VlanLinksBefore(ds, rs, links) <= Links(u.state)
  {
    hide FindIface, Acts, RunActs, AnyFails, Improves, Mild, KernelOk, Consistent, KeysOfAll, BridgeReport,
         UplinkReport, CheckPorts, NotAmong, Links, UpOk, RaisedLinks, BridgeLinks, GatewayLinks, DistinctKeys, Lifts,
         KindThere, PortsOk, MasterOk, AddrOk, GatewayOk, DnsOk, GatewayGoes, ParsePrefix, ParseIp4, Alone, PortsThere,
         Recreated, SameAddrs;
    var a, e := BridgeReport(ds, rs), UplinkReport(ds, rs, UplinkUp) + CheckPorts(ds.ports, ds.bridge, rs);
    IsConsistent(k);
    BridgePartDone(ds, rs, k, keys, links);
    var k1 := RunActs(k, Acts(a));
    MembersDone(ds, rs, k1, keys + KeysOfAll(Acts(a)), GatewayLinks(ds, rs, BridgeLinks(ds, rs, links)), UplinkUp);
    var k2 := RunActs(k1, Acts(e));
    BridgePartStays(ds, k1.state, k2.state, {});
    Sequenced(k, a, e, ds.bridge);
    assert FirstReport(ds, rs, UplinkUp) == a + e;
    assert KeysOfAll(Acts(a)) + {} == KeysOfAll(Acts(a));
  }

  /** The link of the vlan is up by then. */
  lemma {:induction false} LinkIsUp(ds: Desired, rs: Real, k: Kernel, keys: set<Prefix>)
    requires VlanPlaced(ds, rs) && Along(rs, k, ds.bridge, keys) && FirstDone(ds, k.state, UplinkUp, true)
    ensures UpOk(ds.vlanLink, k.state)
  {
    hide FindIface, Improves, KernelOk, UpOk, BridgePlaced, MembersThere, DistinctKeys, Alone, Elsewhere, FirstDone,
         Recreated;
    if UpOk(ds.vlanLink, rs) {
      UpStays(rs, k.state, ds.bridge, keys, ds.vlanLink);
    } else {
      FirstAreUp(ds, k.state, UplinkUp, true);
    }
  }

  lemma {:induction false} VlanPlanned(ds: Desired, rs: Real, k: Kernel, keys: set<Prefix>, links: set<Link>)
    requires VlanPlaced(ds, rs) && !Recreated(ds, rs) && KindThere(rs, ds.vlan) && links <= Links(k.state)
    requires Along(rs, k, ds.bridge, keys) && Consistent(k) && FirstDone(ds, k.state, UplinkUp, true)
    requires FindBy(rs, ds.vlan).None? ==> FindBy(k.state, ds.vlan).None?
    ensures var acts := Acts(CheckVlan(ds, rs));
            var u := RunActs(k, acts);
            && !AnyFails(k, acts) && VlanOk(ds, u.state) && Improves(k.state, u.state, ds.bridge, {})
            && Along(rs, u, ds.bridge, keys) && MadeLinks(rs, ds.vlan, false, links) <= Links(u.state)
  {
    hide VlanPlaced, FindIface, Acts, RunActs, AnyFails, Along, Consistent, FirstDone, CheckVlan, Links, MadeLinks,
         Improves, VlanOk, KindThere, Recreated;
    LinkIsUp(ds, rs, k, keys);
    if FindBy(rs, ds.vlan).Some? {
      RightPlanned(ds, rs, k, keys, links);
    } else {
      NewPlanned(ds, rs, k, keys, links);
    }
  }

  lemma {:induction false} RightPlanned(ds: Desired, rs: Real, k: Kernel, keys: set<Prefix>, links: set<Link>)
    requires VlanPlaced(ds, rs) && !Recreated(ds, rs) && KindThere(rs, ds.vlan) && links <= Links(k.state)
    requires Along(rs, k, ds.bridge, keys) && UpOk(ds.vlanLink, k.state) && FindBy(rs, ds.vlan).Some?
    ensures var acts := Acts(CheckVlan(ds, rs));
            var u := RunActs(k, acts);
            && !AnyFails(k, acts) && VlanOk(ds, u.state) && Improves(k.state, u.state, ds.bridge, {})
            && Along(rs, u, ds.bridge, keys) && MadeLinks(rs, ds.vlan, false, links) <= Links(u.state)
  {
    hide FindIface, FindVlan, FindVxlan, Acts, RunActs, AnyFails, Improves, KernelOk, BridgePlaced, MembersThere,
         DistinctKeys, Alone, CheckUp, CheckMaster, MayGoUp, Links, Steps, AddrLinks, Mild, KeysOfAll;
    var bridge, iface := ds.bridge, FindBy(rs, ds.vlan);
    var report := CheckUp(ds.vlan, iface) + CheckMaster(ds.vlan, iface, bridge, rs);
    VlanActs(ds, rs);
    StaysRight(ds, rs, k.state, keys);
    UpMasterBlock(ds.vlan, bridge, rs, k, keys);
    AlongOn(rs, k, bridge, keys, Acts(report));
    assert keys + {} == keys;
    var u := RunActs(k, Acts(report));
    StaysRight(ds, k.state, u.state, {});
    UpMasterSteps(ds.vlan, bridge, rs, links);
    NoAddrVlan(ds.vlan, bridge, rs);
    StepsHave(Acts(report), rs, k, bridge, keys, links);
    assert links + {} == links;
  }

  lemma {:induction false} NoAddrVlan(name: string, bridge: string, rs: Real)
    ensures forall a :: a in Acts(CheckUp(name, FindBy(rs, name)) + CheckMaster(name, FindBy(rs, name), bridge, rs)) ==>
              !a.AddrAdd?
  {
    hide FindIface, Acts, CheckUp, CheckMaster;
    NoAddrMember(name, bridge, rs);
    OnlyDone(CheckUp(name, FindBy(rs, name)) + CheckMaster(name, FindBy(rs, name), bridge, rs));
  }

  /** What the vlan is and what it is over stays so. */
  lemma {:induction false} StaysRight(ds: Desired, rs: Real, u: Real, keys: set<Prefix>)
    requires Improves(rs, u, ds.bridge, keys) && FindBy(rs, ds.vlan).Some? && !Recreated(ds, rs)
    ensures FindVlan(u.vlans, ds.vlan) == FindVlan(rs.vlans, ds.vlan) && FindBy(u, ds.vlan).Some? && !Recreated(ds, u)
    ensures UpOk(ds.vlanLink, u) ==> MayGoUp(u, ds.vlan)
  {
    hide FindIface, FindVlan, UpNumber;
    assert StillThere(rs, u, ds.vlan) && StillThere(rs, u, ds.vlanLink) && VlanStaysThere(rs, u, ds.vlan);
    if UpOk(ds.vlanLink, u) {
      UpByNumber(u, ds.vlanLink);
    }
  }

  lemma {:induction false} NewPlanned(ds: Desired, rs: Real, k: Kernel, keys: set<Prefix>, links: set<Link>)
    requires VlanPlaced(ds, rs) && KindThere(rs, ds.vlan) && links <= Links(k.state) && Consistent(k)
    requires Along(rs, k, ds.bridge, keys) && UpOk(ds.vlanLink, k.state)
    requires FindBy(rs, ds.vlan).None? && FindBy(k.state, ds.vlan).None?
    ensures var acts := Acts(CheckVlan(ds, rs));
            var u := RunActs(k, acts);
            && !AnyFails(k, acts) && VlanOk(ds, u.state) && Improves(k.state, u.state, ds.bridge, {})
            && Along(rs, u, ds.bridge, keys) && MadeLinks(rs, ds.vlan, false, links) <= Links(u.state)
  {
    hide FindIface, FindVlan, FindVxlan, Acts, RunActs, AnyFails, Improves, KernelOk, BridgePlaced, MembersThere,
         DistinctKeys, Alone, MayGoUp, Links, Consistent, Added, Exec, After, CheckVlan;
    var bridge, add := ds.bridge, LinkAddVlan(ds.vlanLink, ds.vlan, ds.vlanId);
    VlanActs(ds, rs);
    AddDone(k, ds.vlanLink, ds.vlan, ds.vlanId);
    NewGoesUp(k, After(k, add), ds.vlan, ds.vlanLink);
    MakeDone(ds.vlan, "vlan", add, bridge, k);
    var u := RunActs(k, [add, LinkUp(ds.vlan), LinkMaster(ds.vlan, bridge)]);
    SameNumber(k.state, u.state, bridge, ds.vlanLink);
    ImprovesTwice(rs, k.state, u.state, bridge, keys, {});
    assert keys + {} == keys;
    IsConsistent(u);
    KindStays(k.state, u.state, bridge);
    LinksStay(links, k.state, u.state, bridge, {});
    assert AddrLinks(ds.vlan, rs) == {} && links + {} == links;
  }

  lemma {:induction false} VlanSetPlanned(ds: Desired, rs: Real, k: Kernel, keys: set<Prefix>, links: set<Link>)
    requires ScenarioOf(ds.scenario) == VlanBridge && SetPlaced(ds, rs) && SetCarried(ds, rs, links)
    requires Starts(ds, rs, k, keys) && links <= Links(k.state)
    ensures var acts := Acts(StateReport(ds, rs));
            && !AnyFails(k, acts) && Satisfied(ds, RunActs(k, acts).state)
            && EndLinks(ds, rs, links) <= Links(RunActs(k, acts).state)
  {
    hide FindIface, Acts, RunActs, AnyFails, Improves, Mild, Consistent, KeysOfAll, FirstReport, CheckVlan, CheckRoutes,
         RoutesGo, NotAmong, Links, UpOk, DistinctKeys, RoutesOk, KindThere, VlanPlaced, GatewayGoes, Satisfied, VlanOk,
         FirstDone, Along, MadeLinks, VlanLinksBefore, StateReport, SameAddrs, Recreated, FirstUps;
    var bridge, devs := ds.bridge, SetDevs(ds);
    var a, v, h := FirstReport(ds, rs, UplinkUp), CheckVlan(ds, rs), CheckRoutes(ds.routes, rs);
    VlanStart(ds, rs, k, keys, links);
    var k1, now := RunActs(k, Acts(a)), keys + KeysOfAll(Acts(a));
    RunConsistent(k, Acts(a), bridge);
    NotTheBridge(ds, rs);
    VlanPlanned(ds, rs, k1, now, VlanLinksBefore(ds, rs, links));
    var k2 := RunActs(k1, Acts(v));
    FirstStays(ds, k1.state, k2.state, UplinkUp, true, {});
    KeysApart(ds, KeysOfAll(Acts(a)));
    NotAmongBoth(ds.routes, keys, KeysOfAll(Acts(a)));
    VlanIsUp(ds, k2.state);
    FirstAreUp(ds, k2.state, UplinkUp, true);
    AlongImproves(rs, k2, bridge, now);
    RoutesBlock(ds.routes, bridge, devs, rs, k2, now, SetLinks(ds, rs, links));
    AlongOn(rs, k2, bridge, now, Acts(h));
    var u := RunActs(k2, Acts(h));
    GatewayKeySafe(ds, KeysOfAll(Acts(h)));
    FirstStays(ds, k2.state, u.state, UplinkUp, true, KeysOfAll(Acts(h)));
    VlanStays(ds, k2.state, u.state, KeysOfAll(Acts(h)));
    AllOk(ds, u.state);
    WholeReport(ds, rs);
    ActsConcat(a, v);
    ActsConcat(a + v, h);
    RunConcat(k, Acts(a), Acts(v));
    RunConcat(k, Acts(a + v), Acts(h));
    FailsConcat(k, Acts(a), Acts(v));
    FailsConcat(k, Acts(a + v), Acts(h));
  }

  lemma {:induction false} NotTheBridge(ds: Desired, rs: Real)
    requires VlanPlaced(ds, rs)
    ensures ds.vlan != ds.bridge && !ds.addrMode.Dhcp? && DistinctKeys(ds.routes) && ds.vlanBridge == ds.bridge
    ensures ds.gateway != "" ==> NotAmong(ds.routes, {Prefix(0, 0)})
  {
    hide DistinctKeys, NotAmong, DnsOk, MembersThere, Alone, UpOk, Recreated;
  }

  lemma {:induction false} VlanIsUp(ds: Desired, rs: Real)
    requires VlanOk(ds, rs)
    ensures UpOk(ds.vlan, rs)
  {
    hide UpOk, FindVlan, FindIface;
  }

  /** A state of any of these scenarios is repaired, and no command fails. */
  lemma {:induction false} PlannedDone(ds: Desired, rs: Real, k: Kernel, keys: set<Prefix>, links: set<Link>)
    requires SetPlaced(ds, rs) && SetCarried(ds, rs, links) && Starts(ds, rs, k, keys) && links <= Links(k.state)
    ensures var acts := Acts(StateReport(ds, rs));
            && !AnyFails(k, acts) && Satisfied(ds, RunActs(k, acts).state)
            && EndLinks(ds, rs, links) <= Links(RunActs(k, acts).state)
  {
    hide Acts, RunActs, AnyFails, StateReport, Satisfied, Links, Consistent, Placed, VlanPlaced, Recreated, GatewayGoes,
         RoutesGo, Improves, NotAmong, SameAddrs, KindThere, FindIface, Lifts, DistinctKeys, KernelOk;
    match ScenarioOf(ds.scenario)
    case OnlyUplink => OnlyUplinkPlanned(ds, rs, k, keys, links);
    case UplinkBridge =>
      IsConsistent(k);
      PlannedPassConverges(ds, rs, k, keys, links);
    case VlanBridge => VlanSetPlanned(ds, rs, k, keys, links);
    case _ =>
  }
}
