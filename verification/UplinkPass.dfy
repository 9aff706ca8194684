/** One pass of repairs in the uplink scenario, exactly. */
module UplinkPass {
  import opened Wrappers
  import opened NetState
  import opened Verify
  import opened Kernel
  import opened Consistency
  import opened Tracking

  lemma {:induction false} SameDevs(ds: Desired, rs: Real)
    ensures FirstUps(ds, UplinkIn) == Members(ds) + {ds.bridge}
    ensures GatewayGoes(ds, rs, Links(rs)) ==> FirstLinks(ds, rs, UplinkIn) == LinksBefore(ds, rs, Links(rs))
  {
    hide Links, BridgeLinks, GatewayLinks, RaisedLinks, GatewayGoes;
  }

  lemma {:induction false} WholeReport(ds: Desired, rs: Real)
    requires ScenarioOf(ds.scenario) == UplinkBridge
    ensures StateReport(ds, rs) == FirstReport(ds, rs, UplinkIn) + CheckRoutes(ds.routes, rs)
  {
    hide BridgeReport, CheckUplink, CheckMaster, CheckPorts, CheckRoutes, FindIface;
    var a, b := BridgeReport(ds, rs), CheckUplink(ds, rs);
    var c, d := CheckMaster(ds.uplink, FindBy(rs, ds.uplink), ds.bridge, rs), CheckPorts(ds.ports, ds.bridge, rs);
    assert a + b + c + d == a + (b + c) + d;
  }

  lemma {:induction false} AllOk(ds: Desired, rs: Real)
    requires ScenarioOf(ds.scenario) == UplinkBridge
    ensures Satisfied(ds, rs) ==> RoutesOk(ds.routes, rs) && GatewayOk(ds, rs)
    ensures RoutesOk(ds.routes, rs) && FirstDone(ds, rs, UplinkIn, true) ==> Satisfied(ds, rs)
  {
    hide RoutesOk, UpOk, MasterOk, PortsOk, BridgeOk, AddrOk, GatewayOk, DnsOk;
  }

  /** A default route that does not go is not there in the end. */
  lemma {:induction false} GatewayIsMissing(ds: Desired, rs: Real, k: Kernel, how: Uplink)
    requires BridgePlaced(ds, rs) && !GatewayGoes(ds, rs, Links(rs))
    requires Tracks(rs, k, ds.bridge, FirstLinks(ds, rs, how), GatewayKeys(ds, rs), FirstUps(ds, how))
    ensures !GatewayOk(ds, RunActs(k, Acts(CheckRoutes(ds.routes, rs))).state)
  {
    hide Tracks, Links, BridgeLinks, Covered, Acts, RunActs, CheckRoutes, FirstLinks, ParseIp4, ParsePrefix, FindIface,
         DnsOk, NotAmong, FirstUps, RouteVia;
    GatewayAbsent(ds, rs, k, FirstLinks(ds, rs, how), GatewayKeys(ds, rs), FirstUps(ds, how));
    GatewayStaysOut(ds, rs, k);
  }

  lemma {:induction false} RoutesNotAmong(ds: Desired, rs: Real)
    requires BridgePlaced(ds, rs)
    ensures NotAmong(ds.routes, GatewayKeys(ds, rs)) && GatewayKeys(ds, rs) <= {Prefix(0, 0)}
  {
    hide GatewayGoes, GatewayOk, Links, ParseIp4, ParsePrefix, RouteKey, DnsOk, FindIface;
  }

  /**
   One pass of repairs, planned on a snapshot taken before it, leaves nothing to repair if and only if every device is
   up and every next hop is on-link by the time that its command comes; and then no command fails.
   */
  lemma {:induction false} OnePassConverges(ds: Desired, k: Kernel)
    requires Placed(ds, k.state) && Consistent(k)
    ensures var acts := Acts(StateReport(ds, k.state));
            var u := RunActs(k, acts);
            && (Satisfied(ds, u.state) <==> Carried(ds, k.state, Links(k.state)))
            && (Carried(ds, k.state, Links(k.state)) ==>
                  !AnyFails(k, acts) && Misses(StateReport(ds, u.state)) == 0 && Acts(StateReport(ds, u.state)) == [])
  {
    hide AnyFails, Acts, RunActs, StateReport, Satisfied, Consistent, Misses, FirstReport, CheckRoutes, Tracks, Along,
         FirstDone, Links, GatewayGoes, RoutesGo, BridgePlaced, GatewayKeys, FirstLinks, FirstUps, LinksBefore,
         RoutesOk, GatewayOk, UpOk, PortsThere, Lifts, DistinctKeys, NotAmong, KeysOfAll, Improves, Mild, RouteKey,
         ScenarioOf;
    var rs, keys := k.state, GatewayKeys(ds, k.state);
    var goes, links := GatewayGoes(ds, rs, Links(rs)), FirstLinks(ds, rs, UplinkIn);
    var devs := FirstUps(ds, UplinkIn);
    FirstPart(ds, k, UplinkIn);
    WholeReport(ds, rs);
    var a, b := FirstReport(ds, rs, UplinkIn), CheckRoutes(ds.routes, rs);
    ActsConcat(a, b);
    RunConcat(k, Acts(a), Acts(b));
    FailsConcat(k, Acts(a), Acts(b));
    var k1 := RunActs(k, Acts(a));
    var u := RunActs(k1, Acts(b));
    AllOk(ds, u.state);
    SameDevs(ds, rs);
    if goes {
      RoutesNotAmong(ds, rs);
      FirstAreUp(ds, k1.state, UplinkIn, goes);
      RoutesDone(ds.routes, devs, rs, k1, ds.bridge, links, keys);
      if RoutesGo(ds.routes, devs, rs, links) {
        NoDhcp(ds, rs);
        GatewayKeySafe(ds, KeysOfAll(Acts(b)));
        FirstStays(ds, k1.state, u.state, UplinkIn, goes, KeysOfAll(Acts(b)));
        Supported(ds);
        JudgeState(ds, u.state);
      }
    } else {
      GatewayIsMissing(ds, rs, k1, UplinkIn);
    }
  }

  lemma {:induction false} Supported(ds: Desired)
    requires ScenarioOf(ds.scenario) == UplinkBridge
    ensures !ScenarioOf(ds.scenario).Unsupported?
  {
  }

  lemma {:induction false} NoDhcp(ds: Desired, rs: Real)
    requires BridgePlaced(ds, rs)
    ensures !ds.addrMode.Dhcp? && (ds.gateway != "" ==> NotAmong(ds.routes, {Prefix(0, 0)}))
  {
    hide NotAmong, DnsOk;
  }

  // A host with its bridge and its uplink, and no route.

  const BRIDGE := Iface("br", "bridge", 1, true, 0)
  const UPLINK := Iface("lo", "", 2, true, 1)
  const HOST := Real([BRIDGE, UPLINK], [], [], [], [], [])

  const ZERO := "0.0.0.0"

  /** A route to one host, and one to everything else by way of that host. */
  const NEAR := DesiredRoute(ZERO + "/32", None, "br")
  const FAR := DesiredRoute(DEFAULT_ROUTE, Some(ZERO), "br")

  function Wanted(gateway: string, routes: seq<DesiredRoute>): Desired {
    Desired("uplink_bridge", "br", NoAddr, "", gateway, [], "", [], "lo", "", 0, "", "", "", "", "", "", 0, "", "", "",
            routes)
  }

  lemma {:induction false} FindAmong(n: string)
    ensures FindBy(HOST, n) == if n == "br" then Some(BRIDGE) else if n == "lo" then Some(UPLINK) else None
  {
    var ifaces := HOST.ifaces;
    assert ifaces[1..] == [UPLINK] && [UPLINK][1..] == [];
    assert FindIface([UPLINK], n) == if n == "lo" then Some(UPLINK) else None;
  }

  lemma {:induction false} HostConsistent(k: Kernel)
    requires k.state == HOST && k.next == 3
    ensures Consistent(k)
  {
    hide FindIface;
    forall n: string
      ensures Numbered(k, n) && KindThere(k.state, n)
    {
      FindAmong(n);
    }
    forall a: string, b: string
      ensures Apart(k.state, a, b)
    {
      FindAmong(a);
      FindAmong(b);
    }
    forall i | i in k.state.ifaces
      ensures Sole(k.state, i)
    {
      FindAmong(i.name);
    }
  }

  lemma {:induction false} TwoRoutes()
    ensures ParseRoute(NEAR) == Some(ReadRoute(Prefix(0, 32), None)) && NoHostBits(Prefix(0, 32))
    ensures ParseRoute(FAR) == Some(ReadRoute(Prefix(0, 0), Some(0))) && NoHostBits(Prefix(0, 0))
    ensures RouteKey(NEAR) == Some(Prefix(0, 32)) && RouteKey(FAR) == Some(Prefix(0, 0)) && ParseIp4(ZERO) == Some(0)
    ensures !RouteOk(NEAR, HOST) && !RouteOk(FAR, HOST)
  {
    hide ParsePrefix, ParseIp4;
    ParseZeros();
    ParseHost(ZERO);
    ParseDefault();
    WholeHost(0);
  }

  lemma {:induction false} HostPlaced(gateway: string, routes: seq<DesiredRoute>)
    requires DistinctKeys(routes) && (gateway != "" ==> ParseIp4(gateway).Some? && NotAmong(routes, {Prefix(0, 0)}))
    ensures Placed(Wanted(gateway, routes), HOST) && UpOk("br", HOST) && UpOk("lo", HOST)
  {
    hide FindIface, ParseIp4, RouteKey;
    FindAmong("br");
    FindAmong("lo");
    assert "lo" != "br";
    assert ScenarioOf("uplink_bridge") == UplinkBridge;
  }

  lemma {:induction false} NoLinks(gateway: string, routes: seq<DesiredRoute>)
    ensures Links(HOST) == {} && BridgeLinks(Wanted(gateway, routes), HOST, {}) == {}
    ensures LinksBefore(Wanted(gateway, routes), HOST, {}) == {}
  {
    hide FindIface;
    FindAmong("br");
    FindAmong("lo");
    assert [Wanted(gateway, routes).uplink] + Wanted(gateway, routes).ports == ["lo"] && ["lo"][1..] == [];
  }

  /**
   A route can carry the next hop of one that comes after it, and not of one that comes before: of the same two routes,
   one order is repaired in one pass and the other is not.
   */
  lemma {:induction false} RouteOrderMatters(k: Kernel)
    requires k.state == HOST && k.next == 3
    ensures Placed(Wanted("", [NEAR, FAR]), HOST) && Placed(Wanted("", [FAR, NEAR]), HOST) && Consistent(k)
    ensures Satisfied(Wanted("", [NEAR, FAR]), RunActs(k, Acts(StateReport(Wanted("", [NEAR, FAR]), HOST))).state)
    ensures !Satisfied(Wanted("", [FAR, NEAR]), RunActs(k, Acts(StateReport(Wanted("", [FAR, NEAR]), HOST))).state)
  {
    hide FindIface, ParseRoute, ParseIp4, NoHostBits, RouteKey, RouteOk, Acts, RunActs, Satisfied, StateReport, Placed,
         Consistent, LinksBefore, BridgeLinks, Links;
    TwoRoutes();
    HostConsistent(k);
    HostPlaced("", [NEAR, FAR]);
    HostPlaced("", [FAR, NEAR]);
    NoLinks("", [NEAR, FAR]);
    NoLinks("", [FAR, NEAR]);
    var devs := Members(Wanted("", [NEAR, FAR])) + {"br"};
    assert devs == Members(Wanted("", [FAR, NEAR])) + {"br"};
    NearThenFar(devs);
    OnePassConverges(Wanted("", [NEAR, FAR]), k);
    OnePassConverges(Wanted("", [FAR, NEAR]), k);
  }

  lemma {:induction false} NearThenFar(devs: set<string>)
    requires "br" in devs
    ensures RoutesGo([NEAR, FAR], devs, HOST, {}) && !RoutesGo([FAR, NEAR], devs, HOST, {})
  {
    hide FindIface, ParseRoute, ParseIp4, NoHostBits, RouteOk, UpOk;
    TwoRoutes();
    assert [NEAR, FAR][1..] == [FAR] && [FAR][1..] == [];
    var links := RouteLinks(NEAR, HOST, {});
    assert Link("br", Prefix(0, 32)) in links && Network(0, 32) == 0;
    assert RouteGoes(NEAR, devs, HOST, {}) && RouteGoes(FAR, devs, HOST, links);
    assert RoutesGo([FAR], devs, HOST, links);
  }

  /** The gateway comes before the routes: an on-link route to it that is only listed there is too late. */
  lemma {:induction false} GatewayComesFirst(k: Kernel)
    requires k.state == HOST && k.next == 3
    ensures Placed(Wanted(ZERO, [NEAR]), HOST) && Consistent(k)
    ensures !Satisfied(Wanted(ZERO, [NEAR]), RunActs(k, Acts(StateReport(Wanted(ZERO, [NEAR]), HOST))).state)
  {
    hide FindIface, ParseRoute, ParseIp4, NoHostBits, RouteKey, RouteOk, Acts, RunActs, Satisfied, StateReport, Placed,
         Consistent, LinksBefore, BridgeLinks, Links;
    TwoRoutes();
    HostConsistent(k);
    HostPlaced(ZERO, [NEAR]);
    NoLinks(ZERO, [NEAR]);
    OnePassConverges(Wanted(ZERO, [NEAR]), k);
  }
}
