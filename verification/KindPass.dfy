/**
 One pass of repairs where an interface of another kind has the name of the bridge.  It is deleted, a bridge is added,
 and what hung on the old interface is gone; but all that follows is judged on the snapshot taken before.
 */
module KindPass {
  import opened Wrappers
  import opened NetState
  import opened Verify
  import opened Kernel
  import opened Consistency
  import opened Tracking
  import opened UplinkPass
  import opened Remake
  import opened Run
  import opened SetRepairs

  predicate OtherKind(ds: Desired, rs: Real) {
    FindBy(rs, ds.bridge).Some? && FindBy(rs, ds.bridge).value.kind != "bridge"
  }

  /** The snapshot without the interface. */
  function Bare(ds: Desired, rs: Real): Real {
    Seen(rs, ds.bridge, true)
  }

  /** A state of the uplink-bridge scenario whose parts are there or can be made, and do not contradict each other. */
  predicate KindPlaced(ds: Desired, rs: Real) {
    && ScenarioOf(ds.scenario) == UplinkBridge && OtherKind(ds, rs) && Alone(rs, ds.bridge, true)
    && !ds.addrMode.Dhcp? && (ds.addrMode.Static? ==> ParsePrefix(ds.addr).Some?) && DnsOk(ds.dns, rs)
    && (ds.gateway != "" ==> ParseIp4(ds.gateway).Some? && NotAmong(ds.routes, {Prefix(0, 0)}))
    && MembersThere(ds, rs) && DistinctKeys(ds.routes)
  }

  /** A route that comes back with the address of the bridge. */
  predicate ComesBack(ds: Desired, rt: DesiredRoute) {
    ds.addrMode.Static? && rt.via.None? && RouteKey(rt).Some? && RouteKey(rt) == AddrKey(ds)
  }

  /** A route through the interface that the snapshot shows. */
  predicate Hangs(ds: Desired, rs: Real, rt: DesiredRoute) {
    rt.dev == ds.bridge && RouteOk(rt, rs)
  }

  /** Nothing that the state asks for hangs on the interface, but for the route that comes with the address. */
  predicate NothingHangs(ds: Desired, rs: Real) {
    && !(ds.addrMode.Static? && AddrOk(ds, rs)) && !(ds.gateway != "" && GatewayOk(ds, rs))
    && !MasterOk(ds.uplink, ds.bridge, rs)
    && (forall i :: 0 <= i < |ds.ports| ==> !MasterOk(ds.ports[i], ds.bridge, rs))
    && (forall i :: 0 <= i < |ds.routes| && Hangs(ds, rs, ds.routes[i]) ==> ComesBack(ds, ds.routes[i]))
  }

  /** Every device is up and every next hop is on-link by the time that it is needed, without the interface. */
  predicate KindCarried(ds: Desired, rs: Real) {
    Carried(Rest(ds, rs), Bare(ds, rs), Links(Bare(ds, rs)))
  }

  // If nothing hangs on it.

  lemma {:induction false} BareIsLost(ds: Desired, rs: Real)
    requires Sound(rs) && Alone(rs, ds.bridge, true)
    ensures FindBy(rs, ds.bridge).Some?
    ensures Lost(rs, Bare(ds, rs), ds.bridge, FindBy(rs, ds.bridge).value.ifindex)
    ensures FindBy(Bare(ds, rs), ds.bridge).None?
  {
    hide Sound, Lost, NothingOver, FindIface, Deleted;
    DeletedIsLost(rs, ds.bridge);
    LostIsGone(rs, Bare(ds, rs), ds.bridge, FindBy(rs, ds.bridge).value.ifindex);
  }

  /** What goes up on the snapshot goes up without the interface. */
  lemma {:induction false} LiftsBare(ds: Desired, rs: Real, name: string)
    requires Sound(rs) && Alone(rs, ds.bridge, true) && name != ds.bridge && Lifts(name, rs)
    ensures Lifts(name, Bare(ds, rs))
  {
    hide Sound, FindIface, FindVxlan, UpNumber, Bare, LostFrom;
    BareIsLost(ds, rs);
    var u, index := Bare(ds, rs), FindBy(rs, ds.bridge).value.ifindex;
    assert LostFind(rs, u, ds.bridge, index, name);
    var vl := FindVlan(rs.vlans, name);
    FoundVlan(rs.vlans, name);
    if vl.Some? && vl.value.link.Some? {
      assert LostUp(rs, u, index, vl.value.link.value);
    }
  }

  lemma {:induction false} FoundVlan(vlans: seq<Vlan>, n: string)
    ensures FindVlan(vlans, n).Some? ==> FindVlan(vlans, n).value in vlans
  {
    if vlans != [] {
      FoundVlan(vlans[1..], n);
    }
  }

  /** The routes that do not hang on the interface. */
  function Trimmed(ds: Desired, rs: Real, routes: seq<DesiredRoute>): (r: seq<DesiredRoute>)
    ensures forall i :: 0 <= i < |r| ==> r[i] in routes && !Hangs(ds, rs, r[i])
    ensures forall i :: 0 <= i < |routes| && !Hangs(ds, rs, routes[i]) ==> routes[i] in r
  {
    if routes == [] then []
    else (if Hangs(ds, rs, routes[0]) then [] else [routes[0]]) + Trimmed(ds, rs, routes[1..])
  }

  lemma {:induction false} TrimmedDistinct(ds: Desired, rs: Real, routes: seq<DesiredRoute>)
    requires DistinctKeys(routes)
    ensures DistinctKeys(Trimmed(ds, rs, routes))
  {
    hide RouteKey, Hangs;
    if routes != [] {
      var rest := Trimmed(ds, rs, routes[1..]);
      TrimmedDistinct(ds, rs, routes[1..]);
      if !Hangs(ds, rs, routes[0]) {
        forall j | 0 <= j < |rest|
          ensures RouteKey(routes[0]) != RouteKey(rest[j])
        {
          var i :| 0 <= i < |routes[1..]| && routes[1..][i] == rest[j];
          assert rest[j] == routes[i + 1];
        }
        var all := Trimmed(ds, rs, routes);
        assert all == [routes[0]] + rest;
        assert forall i :: 0 < i < |all| ==> all[i] == rest[i - 1];
      }
    }
  }

  lemma {:induction false} TrimmedActs(ds: Desired, rs: Real, routes: seq<DesiredRoute>)
    ensures Acts(CheckRoutes(Trimmed(ds, rs, routes), rs)) == Acts(CheckRoutes(routes, rs))
  {
    hide Acts, CheckRoute, RouteOk, ParseRoute;
    if routes != [] {
      var rest := Trimmed(ds, rs, routes[1..]);
      TrimmedActs(ds, rs, routes[1..]);
      ActsConcat(CheckRoute(routes[0], rs), CheckRoutes(routes[1..], rs));
      if Hangs(ds, rs, routes[0]) {
        HangingIsOk(ds, rs, routes[0]);
        ActsOfOne(Note);
        assert [] + rest == rest;
        assert [] + Acts(CheckRoutes(routes[1..], rs)) == Acts(CheckRoutes(routes[1..], rs));
      } else {
        ActsConcat(CheckRoute(routes[0], rs), CheckRoutes(rest, rs));
        assert ([routes[0]] + rest)[1..] == rest;
      }
    }
  }

  lemma {:induction false} HangingIsOk(ds: Desired, rs: Real, rt: DesiredRoute)
    requires Hangs(ds, rs, rt)
    ensures CheckRoute(rt, rs) == [Ok]
  {
    hide FindIface, ParseRoute;
    CheckRouteBy(rt, rs);
  }

  /** A route that does not hang on the interface is there or not, with it or without. */
  lemma {:induction false} SameTrimmed(ds: Desired, rs: Real, rt: DesiredRoute)
    requires Sound(rs) && Alone(rs, ds.bridge, true) && !Hangs(ds, rs, rt)
    ensures RouteOk(rt, Bare(ds, rs)) <==> RouteOk(rt, rs)
  {
    hide Sound, Lost, FindIface, Bare, ParsePrefix, ParseIp4, Alone;
    BareIsLost(ds, rs);
    if rt.dev != ds.bridge && ParseRoute(rt).Some? {
      var r := ParseRoute(rt).value;
      LostRoute(rs, Bare(ds, rs), ds.bridge, r.prefix, r.via, rt.dev);
    }
  }

  lemma {:induction false} SameTrimmedReports(ds: Desired, rs: Real, routes: seq<DesiredRoute>)
    requires Sound(rs) && Alone(rs, ds.bridge, true) && forall i :: 0 <= i < |routes| ==> !Hangs(ds, rs, routes[i])
    ensures CheckRoutes(routes, Bare(ds, rs)) == CheckRoutes(routes, rs)
  {
    hide Sound, Bare, CheckRoute, RouteOk, Alone, Hangs;
    if routes != [] {
      SameTrimmed(ds, rs, routes[0]);
      SameRoute(routes[0], rs, Bare(ds, rs));
      SameTrimmedReports(ds, rs, routes[1..]);
    }
  }

  /** The state without the routes that hang on the interface. */
  function Rest(ds: Desired, rs: Real): Desired {
    ds.(routes := Trimmed(ds, rs, ds.routes))
  }

  lemma {:induction false} RestMembers(ds: Desired, rs: Real)
    requires Sound(rs) && Alone(rs, ds.bridge, true) && MembersThere(ds, rs)
    ensures MembersThere(Rest(ds, rs), Bare(ds, rs))
  {
    hide Sound, Bare, Lifts, Alone, Trimmed;
    LiftsBare(ds, rs, ds.uplink);
    forall i | 0 <= i < |ds.ports|
      ensures Lifts(ds.ports[i], Bare(ds, rs)) && ds.ports[i] != ds.bridge
    {
      LiftsBare(ds, rs, ds.ports[i]);
    }
  }

  /** Without the interface, the rest is one whose parts are there or can be made. */
  lemma {:induction false} RestPlaced(ds: Desired, rs: Real)
    requires Sound(rs) && KindPlaced(ds, rs)
    ensures Placed(Rest(ds, rs), Bare(ds, rs))
  {
    hide Sound, Bare, MembersThere, Alone, FindIface, ParsePrefix, ParseIp4, Hangs, RouteKey, Trimmed, DistinctKeys;
    BareIsLost(ds, rs);
    RestMembers(ds, rs);
    TrimmedDistinct(ds, rs, ds.routes);
    SameDnsOk(ds, rs);
    assert forall i :: 0 <= i < |Rest(ds, rs).routes| ==> Rest(ds, rs).routes[i] in ds.routes;
  }

  lemma {:induction false} SameDnsOk(ds: Desired, rs: Real)
    requires Sound(rs) && Alone(rs, ds.bridge, true)
    ensures Bare(ds, rs).dns == rs.dns
  {
    hide Sound, Bare, Alone, FindIface, LostFind, LostUp, LostFrom;
    BareIsLost(ds, rs);
  }

  // The same commands follow.

  lemma {:induction false} SameAddrReport(ds: Desired, rs: Real)
    requires FindBy(Bare(ds, rs), ds.bridge).None? && NothingHangs(ds, rs) && !ds.addrMode.Dhcp?
    ensures CheckAddr(Rest(ds, rs), Bare(ds, rs)) == CheckAddr(ds, rs)
    ensures CheckGateway(Rest(ds, rs), Bare(ds, rs)) == CheckGateway(ds, rs)
  {
    hide FindIface, ParsePrefix, ParseIp4, Bare, Trimmed, Hangs;
  }

  lemma {:induction false} SameMemberReports(ds: Desired, rs: Real, name: string)
    requires Sound(rs) && Alone(rs, ds.bridge, true) && name != ds.bridge && !MasterOk(name, ds.bridge, rs)
    ensures CheckUp(name, FindBy(Bare(ds, rs), name)) == CheckUp(name, FindBy(rs, name))
    ensures CheckMaster(name, FindBy(Bare(ds, rs), name), ds.bridge, Bare(ds, rs)) ==
            CheckMaster(name, FindBy(rs, name), ds.bridge, rs)
    ensures FindBy(Bare(ds, rs), name).Some? <==> FindBy(rs, name).Some?
  {
    hide Sound, FindIface, Bare, Lost, Alone;
    BareIsLost(ds, rs);
    LostKeeps(rs, Bare(ds, rs), ds.bridge, FindBy(rs, ds.bridge).value.ifindex, name);
  }

  lemma {:induction false} SamePortReports(ds: Desired, rs: Real, ports: seq<string>)
    requires Sound(rs) && Alone(rs, ds.bridge, true)
    requires forall i :: 0 <= i < |ports| ==> ports[i] != ds.bridge && !MasterOk(ports[i], ds.bridge, rs)
    ensures CheckPorts(ports, ds.bridge, Bare(ds, rs)) == CheckPorts(ports, ds.bridge, rs)
  {
    hide Sound, FindBy, Bare, Alone, MasterOk, CheckUp, CheckMaster;
    if ports != [] {
      SameMemberReports(ds, rs, ports[0]);
      SamePortReports(ds, rs, ports[1..]);
    }
  }

  /** What is asked for after the bridge. */
  function Others(ds: Desired, rs: Real): Report {
    CheckAddr(ds, rs) + CheckGateway(ds, rs) + CheckDns(ds.dns, rs) + CheckUplink(ds, rs)
    + CheckMaster(ds.uplink, FindBy(rs, ds.uplink), ds.bridge, rs) + CheckPorts(ds.ports, ds.bridge, rs)
  }

  lemma {:induction false} SameOthers(ds: Desired, rs: Real)
    requires Sound(rs) && KindPlaced(ds, rs) && NothingHangs(ds, rs)
    ensures Others(Rest(ds, rs), Bare(ds, rs)) == Others(ds, rs)
  {
    hide Sound, FindBy, Bare, Alone, MasterOk, CheckUp, CheckMaster, CheckAddr, CheckGateway, CheckDns, CheckPorts,
         AddrOk, GatewayOk, Lifts, ParsePrefix, ParseIp4, NotAmong, Keys, Trimmed, Hangs, DnsOk;
    BareIsLost(ds, rs);
    SameAddrReport(ds, rs);
    SameDnsOk(ds, rs);
    SameDns(ds.dns, rs, Bare(ds, rs));
    SameMemberReports(ds, rs, ds.uplink);
    SamePortReports(ds, rs, ds.ports);
  }

  lemma {:induction false} Whole(ds: Desired, rs: Real)
    requires ScenarioOf(ds.scenario) == UplinkBridge
    ensures Acts(StateReport(ds, rs)) ==
            Acts(CheckBridge(ds, rs)) + (Acts(Others(ds, rs)) + Acts(CheckRoutes(ds.routes, rs)))
  {
    hide Acts, CheckBridge, CheckAddr, CheckGateway, CheckDns, CheckUplink, CheckMaster, CheckPorts, CheckRoutes,
         FindIface;
    var a, b, c := CheckBridge(ds, rs), Others(ds, rs), CheckRoutes(ds.routes, rs);
    assert StateReport(ds, rs) == a + (b + c);
    ActsConcat(b, c);
    ActsConcat(a, b + c);
  }

  lemma {:induction false} FourLines(a: Act, b: Act, c: Act)
    ensures Acts([Miss, Do(a), Do(b), Do(c)]) == [a] + [b, c] && Acts([Miss, Do(b), Do(c)]) == [b, c]
  {
    ActsOfLines(b, c);
    assert [Miss, Do(a), Do(b), Do(c)][1..] == [Do(a), Do(b), Do(c)];
    assert [Do(a), Do(b), Do(c)][1..] == [Do(b), Do(c)];
    assert [Miss, Do(b), Do(c)][1..] == [Do(b), Do(c)];
  }

  /** The commands are those of a pass planned on the snapshot without the interface, after it is deleted. */
  lemma {:induction false} SameCommands(ds: Desired, rs: Real)
    requires Sound(rs) && KindPlaced(ds, rs) && NothingHangs(ds, rs)
    ensures Acts(StateReport(ds, rs)) == [LinkDel(ds.bridge)] + Acts(StateReport(Rest(ds, rs), Bare(ds, rs)))
  {
    hide Acts, Others, CheckRoutes, FindIface, Sound, Bare, Alone, MembersThere, NothingHangs, ParsePrefix, ParseIp4,
         Keys, Hangs, DnsOk, GatewayOk, StateReport, Trimmed;
    BareIsLost(ds, rs);
    var del, add, up := LinkDel(ds.bridge), LinkAddBridge(ds.bridge), LinkUp(ds.bridge);
    FourLines(del, add, up);
    SameOthers(ds, rs);
    Whole(ds, rs);
    Whole(Rest(ds, rs), Bare(ds, rs));
    TrimmedActs(ds, rs, ds.routes);
    SameTrimmedReports(ds, rs, Trimmed(ds, rs, ds.routes));
    var tail := Acts(Others(ds, rs)) + Acts(CheckRoutes(ds.routes, rs));
    assert [del] + [add, up] + tail == [del] + ([add, up] + tail);
  }

  // The route that comes with the address.

  /** Where the bridge is up and has its address, the route is there. */
  predicate RouteFollows(ds: Desired, rs: Real) {
    var br, p := FindBy(rs, ds.bridge), ParsePrefix(ds.addr);
    br.Some? && br.value.up && p.Some? && Addr(br.value.ifindex, p.value.addr, p.value.len) in rs.addrs ==>
      ConnectedRoute(Addr(br.value.ifindex, p.value.addr, p.value.len)) in rs.routes
  }

  lemma {:induction false} AfterFollows(ds: Desired, k: Kernel, a: Act)
    requires KernelOk(k) && Mild(a, ds.bridge) && RouteFollows(ds, k.state) && AddrKey(ds).Some?
    requires AddrKey(ds).value !in KeysOf(a) && (a.AddrAdd? ==> a.dev == ds.bridge)
    ensures RouteFollows(ds, After(k, a).state)
  {
    hide FindIface, SetUp, SetMaster, ConnectedRoutes, ParsePrefix, ParseIp4, MayGoUp, OnLink, Network, NoHostBits;
    var br, p := FindBy(k.state, ds.bridge), ParsePrefix(ds.addr).value;
    match a
    case LinkAddBridge(name) => FindLast(k.state.ifaces, Iface(name, "bridge", k.next, false, 0), ds.bridge);
    case LinkUp(name) =>
      if Exec(k, a).Some? {
        FindUp(k.state.ifaces, name, ds.bridge);
        UpDone(k, name);
        if br.Some? && name == ds.bridge && Addr(br.value.ifindex, p.addr, p.len) in k.state.addrs {
          ConnectedIn(k.state.addrs, Addr(br.value.ifindex, p.addr, p.len));
        }
      }
    case LinkMaster(name, bridge) =>
      if Exec(k, a).Some? {
        FindMaster(k.state.ifaces, name, FindBy(k.state, bridge).value.ifindex, ds.bridge);
      }
    case AddrAdd(_, _) =>
    case RouteReplace(_, _, _) =>
    case Note =>
  }

  lemma {:induction false} RunFollows(ds: Desired, k: Kernel, acts: seq<Act>, rest: Desired, keys: set<Prefix>)
    requires KernelOk(k) && AllBelong(acts, rest, keys) && ScenarioOf(rest.scenario) == UplinkBridge
    requires RouteFollows(ds, k.state) && AddrKey(ds).Some?
    requires AddrKey(ds).value !in KeysOfAll(acts) && rest.bridge == ds.bridge
    ensures RouteFollows(ds, RunActs(k, acts).state)
    decreases |acts|
  {
    hide KernelOk, After, Mild, RouteFollows, AddrKey, KeysOf, Members, Keys;
    if acts != [] {
      assert Belongs(acts[0], rest, keys);
      BelongsIsMild(acts[0], rest, keys);
      AfterFollows(ds, k, acts[0]);
      AfterNumbered(k, acts[0], ds.bridge);
      RunFollows(ds, After(k, acts[0]), acts[1..], rest, keys);
    }
  }

  /** Its key is replaced by no other route of the state. */
  lemma {:induction false} KeyIsAlone(ds: Desired, rs: Real, i: nat)
    requires KindPlaced(ds, rs) && i < |ds.routes| && Hangs(ds, rs, ds.routes[i]) && RouteKey(ds.routes[i]).Some?
    ensures RouteKey(ds.routes[i]).value !in Keys(Rest(ds, rs))
  {
    hide Hangs, RouteKey, Alone, MembersThere, ParsePrefix, ParseIp4, GatewayOk, DnsOk, Trimmed, FindIface, RouteOk;
    var key, some := RouteKey(ds.routes[i]).value, Trimmed(ds, rs, ds.routes);
    forall j | 0 <= j < |some| && RouteKey(some[j]).Some?
      ensures RouteKey(some[j]).value != key
    {
      var m :| 0 <= m < |ds.routes| && ds.routes[m] == some[j];
      assert RouteKey(ds.routes[m]) != RouteKey(ds.routes[i]);
    }
  }

  lemma {:induction false} RouteComesBack(ds: Desired, u: Real, rt: DesiredRoute, k: Kernel)
    requires ComesBack(ds, rt) && rt.dev == ds.bridge && RouteFollows(ds, u) && BridgeOk(ds, u) && AddrOk(ds, u)
    requires KernelOk(k) && k.state == u
    ensures RouteOk(rt, u)
  {
    hide FindIface, ParsePrefix, Network;
    NumberOf(k, ds.bridge);
  }

  lemma {:induction false} RestOnly(ds: Desired, rs: Real, u: Real)
    requires ScenarioOf(ds.scenario) == UplinkBridge && Satisfied(ds, u)
    ensures Satisfied(Rest(ds, rs), u)
  {
    hide RouteOk, Hangs, UpOk, MasterOk, FindIface, BridgePartOk, Trimmed;
    SameParts(ds, rs, u);
  }

  lemma {:induction false} AllBack(ds: Desired, rs: Real, u: Real)
    requires ScenarioOf(ds.scenario) == UplinkBridge && Satisfied(Rest(ds, rs), u)
    requires forall i :: 0 <= i < |ds.routes| && Hangs(ds, rs, ds.routes[i]) ==> RouteOk(ds.routes[i], u)
    ensures Satisfied(ds, u)
  {
    hide RouteOk, Hangs, UpOk, MasterOk, FindIface, BridgeOk, ParsePrefix, ParseIp4, RouteVia, Trimmed;
    var some := Trimmed(ds, rs, ds.routes);
    forall i | 0 <= i < |ds.routes|
      ensures RouteOk(ds.routes[i], u)
    {
      if !Hangs(ds, rs, ds.routes[i]) {
        var j :| 0 <= j < |some| && some[j] == ds.routes[i];
        assert RouteOk(Rest(ds, rs).routes[j], u);
      }
    }
    SameParts(ds, rs, u);
  }

  lemma {:induction false} SameParts(ds: Desired, rs: Real, u: Real)
    ensures BridgePartOk(Rest(ds, rs), u) <==> BridgePartOk(ds, u)
  {
    hide FindIface, ParsePrefix, ParseIp4, Trimmed, DnsOk;
  }

  /** The interface is gone, and the pass goes on as on a snapshot taken then. */
  lemma {:induction false} StartsBare(ds: Desired, k: Kernel)
    requires KindPlaced(ds, k.state) && Consistent(k)
    ensures var k1 := After(k, LinkDel(ds.bridge));
            && Exec(k, LinkDel(ds.bridge)).Some? && Consistent(k1) && k1.state == Bare(ds, k.state)
            && k1.next == k.next && Sound(k.state)
  {
    hide FindIface, Sound, KernelOk, NothingOver, MembersThere, ParsePrefix, ParseIp4, Keys, DnsOk, GatewayOk, Deleted,
         Lost;
    IsConsistent(k);
    DelDone(k, ds.bridge);
  }

  lemma {:induction false} NothingHangsDone(ds: Desired, k: Kernel)
    requires KindPlaced(ds, k.state) && Consistent(k) && NothingHangs(ds, k.state)
    ensures var acts := Acts(StateReport(ds, k.state));
            && (Satisfied(ds, RunActs(k, acts).state) <==> KindCarried(ds, k.state))
            && (KindCarried(ds, k.state) ==> !AnyFails(k, acts))
  {
    hide FindIface, Sound, KernelOk, KindPlaced, Consistent, Acts, RunActs, AnyFails, StateReport, Bare, Rest, After,
         Exec, Satisfied, Placed, Keys, Hangs, ComesBack, AllBelong, KeysOfAll, Carried, Misses, Replaced, Links,
         NothingHangs, KindThere;
    var rs, del := k.state, LinkDel(ds.bridge);
    StartsBare(ds, k);
    var k1 := After(k, del);
    var rest, bare := Rest(ds, rs), Bare(ds, rs);
    RestPlaced(ds, rs);
    SameCommands(ds, rs);
    var acts := Acts(StateReport(rest, bare));
    OnePassConverges(rest, k1);
    RunFew(k, del, del);
    RunConcat(k, [del], acts);
    FailsConcat(k, [del], acts);
    FailsOne(k, del);
    var u := RunActs(k1, acts);
    IsUplinkToo(ds, rs);
    if Satisfied(rest, u.state) {
      RestBelongs(ds, rs, k1);
      var keys := Replaced(rest, bare);
      forall i | 0 <= i < |ds.routes| && Hangs(ds, rs, ds.routes[i])
        ensures RouteOk(ds.routes[i], u.state)
      {
        HangingReturns(ds, rs, k1, acts, keys, i);
      }
      AllBack(ds, rs, u.state);
    } else if Satisfied(ds, u.state) {
      RestOnly(ds, rs, u.state);
    }
  }

  lemma {:induction false} RestBelongs(ds: Desired, rs: Real, k: Kernel)
    requires KindPlaced(ds, rs) && Sound(rs) && Consistent(k) && k.state == Bare(ds, rs)
    ensures var rest, bare := Rest(ds, rs), Bare(ds, rs);
            var acts := Acts(StateReport(rest, bare));
            AllBelong(acts, rest, Replaced(rest, bare)) && KeysOfAll(acts) <= Keys(rest)
  {
    hide Bare, Trimmed, FindIface, KernelOk, Acts, StateReport, AllBelong, KeysOfAll, Keys, Replaced, FindVlan,
         FindVxlan, Sole, Alone, MembersThere, DistinctKeys, NotAmong, ParsePrefix, ParseIp4, DnsOk, Placed;
    var rest, bare := Rest(ds, rs), Bare(ds, rs);
    RestPlaced(ds, rs);
    assert KindThere(k.state, rest.vlan);
    StateBelongs(rest, bare);
    BelongKeys(Acts(StateReport(rest, bare)), rest, Replaced(rest, bare));
    FewerKeys(rest, bare);
  }

  lemma {:induction false} IsUplinkToo(ds: Desired, rs: Real)
    requires KindPlaced(ds, rs)
    ensures ScenarioOf(ds.scenario) == UplinkBridge
  {
  }

  lemma {:induction false} HangingReturns(ds: Desired, rs: Real, k: Kernel, acts: seq<Act>, keys: set<Prefix>, i: nat)
    requires KindPlaced(ds, rs) && NothingHangs(ds, rs) && Consistent(k) && k.state == Bare(ds, rs) && Sound(rs)
    requires AllBelong(acts, Rest(ds, rs), keys) && KeysOfAll(acts) <= Keys(Rest(ds, rs))
    requires Satisfied(Rest(ds, rs), RunActs(k, acts).state) && i < |ds.routes| && Hangs(ds, rs, ds.routes[i])
    ensures RouteOk(ds.routes[i], RunActs(k, acts).state)
  {
    hide Sound, KernelOk, Bare, RunActs, KeysOfAll, Mild, FindIface, RouteOk, Keys, ParsePrefix, ParseIp4, Alone,
         MembersThere, DnsOk, GatewayOk, RouteKey, Trimmed, RouteFollows, AddrKey, RoutesOk, MasterOk, UpOk, PortsOk,
         AddrOk, NotAmong, Belongs;
    var rt, u := ds.routes[i], RunActs(k, acts);
    KeyIsAlone(ds, rs, i);
    BareIsLost(ds, rs);
    NoBridgeYet(ds, k.state);
    IsConsistent(k);
    RunFollows(ds, k, acts, Rest(ds, rs), keys);
    RunBelongNumbered(k, acts, Rest(ds, rs), keys);
    SameParts(ds, rs, u.state);
    RouteComesBack(ds, u.state, rt, u);
  }

  lemma {:induction false} RunBelongNumbered(k: Kernel, acts: seq<Act>, ds: Desired, keys: set<Prefix>)
    requires Consistent(k) && AllBelong(acts, ds, keys)
    ensures KernelOk(RunActs(k, acts))
  {
    hide Consistent, RunActs, AllBelong;
    RunStaysConsistent(k, acts, ds, keys);
    IsConsistent(RunActs(k, acts));
  }

  lemma {:induction false} NoBridgeYet(ds: Desired, rs: Real)
    requires FindBy(rs, ds.bridge).None?
    ensures RouteFollows(ds, rs)
  {
  }

  // If something hangs on it.

  /** What is lost with the interface. */
  datatype Loss = OfAddr | OfRoute(key: Prefix, via: Option<nat>) | OfMember(name: string)

  /** It is lost on a new bridge with that number. */
  predicate Gone(loss: Loss, ds: Desired, number: int, rs: Real) {
    && FindBy(rs, ds.bridge).Some? && FindBy(rs, ds.bridge).value.ifindex == number
    && match loss
       case OfAddr => forall a :: a in rs.addrs ==> a.ifindex != number
       case OfRoute(key, via) =>
         && (forall r :: r in rs.routes ==> r.oif != number || Prefix(r.dst, r.prefix) != key || r.gw != via)
         && (via.None? ==>
               forall a :: a in rs.addrs && a.ifindex == number ==> Prefix(Network(a.addr, a.prefix), a.prefix) != key)
       case OfMember(name) => FindBy(rs, name).Some? && FindBy(rs, name).value.master == 0
  }

  /** A command that does not put it back. */
  predicate Spares(loss: Loss, ds: Desired, a: Act) {
    && Mild(a, ds.bridge)
    && match loss
       case OfAddr => !a.AddrAdd?
       case OfRoute(key, via) =>
         && (a.RouteReplace? ==> ParsePrefix(a.dst) != Some(key))
         && (a.AddrAdd? && via.None? ==> a.addr == ds.addr && AddrKey(ds) != Some(key))
       case OfMember(name) => a.LinkMaster? ==> a.name != name
  }

  lemma {:induction false} RouteStaysGone(key: Prefix, via: Option<nat>, ds: Desired, number: int, k: Kernel, a: Act)
    requires Gone(OfRoute(key, via), ds, number, k.state) && Spares(OfRoute(key, via), ds, a)
    ensures Gone(OfRoute(key, via), ds, number, After(k, a).state)
  {
    hide FindIface, SetUp, SetMaster, ConnectedRoutes, ParsePrefix, ParseIp4, MayGoUp, OnLink, Network, NoHostBits;
    MildNumbers(k, a, ds.bridge, ds.bridge);
    if a.LinkUp? && Exec(k, a).Some? {
      UpDoneToo(k, a.name);
      forall r | r in After(k, a).state.routes
        ensures r.oif != number || Prefix(r.dst, r.prefix) != key || r.gw != via
      {
        if r !in k.state.routes {
          ConnectedThere(k.state.addrs, FindBy(k.state, a.name).value.ifindex, r);
        }
      }
    }
  }

  lemma {:induction false} UpDoneToo(k: Kernel, name: string)
    requires Exec(k, LinkUp(name)).Some?
    ensures FindBy(k.state, name).Some? && After(k, LinkUp(name)).state.addrs == k.state.addrs
    ensures After(k, LinkUp(name)).state.routes ==
            k.state.routes + ConnectedRoutes(k.state.addrs, FindBy(k.state, name).value.ifindex)
  {
    hide FindIface, ConnectedRoutes, SetUp;
  }

  lemma {:induction false} StaysGone(loss: Loss, ds: Desired, number: int, k: Kernel, a: Act)
    requires Gone(loss, ds, number, k.state) && Spares(loss, ds, a)
    ensures Gone(loss, ds, number, After(k, a).state)
  {
    hide FindIface, SetUp, SetMaster, ConnectedRoutes, ParsePrefix, ParseIp4, ParseRoute, MayGoUp, OnLink, Network,
         NoHostBits;
    MildNumbers(k, a, ds.bridge, ds.bridge);
    match loss
    case OfAddr =>
    case OfRoute(key, via) => RouteStaysGone(key, via, ds, number, k, a);
    case OfMember(name) =>
      match a
      case LinkAddBridge(n) => FindLast(k.state.ifaces, Iface(n, "bridge", k.next, false, 0), name);
      case LinkUp(n) => FindUp(k.state.ifaces, n, name);
      case LinkMaster(n, br) =>
        if FindBy(k.state, br).Some? {
          FindMaster(k.state.ifaces, n, FindBy(k.state, br).value.ifindex, name);
        }
      case _ =>
  }

  lemma {:induction false} RunStaysGone(loss: Loss, ds: Desired, number: int, k: Kernel, acts: seq<Act>)
    requires Gone(loss, ds, number, k.state) && forall i :: 0 <= i < |acts| ==> Spares(loss, ds, acts[i])
    ensures Gone(loss, ds, number, RunActs(k, acts).state)
    decreases |acts|
  {
    hide Gone, Spares, After;
    if acts != [] {
      StaysGone(loss, ds, number, k, acts[0]);
      RunStaysGone(loss, ds, number, After(k, acts[0]), acts[1..]);
    }
  }

  /** A report that does not ask for it to be put back. */
  predicate SparesIn(loss: Loss, ds: Desired, report: Report) {
    forall i :: 0 <= i < |report| && report[i].Do? ==> Spares(loss, ds, report[i].act)
  }

  lemma {:induction false} SparesActs(loss: Loss, ds: Desired, report: Report)
    requires SparesIn(loss, ds, report)
    ensures forall i :: 0 <= i < |Acts(report)| ==> Spares(loss, ds, Acts(report)[i])
  {
    hide Spares;
    if report != [] {
      SparesActs(loss, ds, report[1..]);
    }
  }

  /** The snapshot shows it, and nothing else that is asked for brings it. */
  predicate Shown(loss: Loss, ds: Desired, rs: Real) {
    match loss
    case OfAddr => ds.addrMode.Static? && AddrOk(ds, rs)
    case OfRoute(key, via) =>
      && (ds.gateway != "" && key == Prefix(0, 0) ==> GatewayOk(ds, rs))
      && (forall i :: 0 <= i < |ds.routes| ==> RouteOk(ds.routes[i], rs) || RouteKey(ds.routes[i]) != Some(key))
      && (ds.addrMode.Static? && via.None? ==> AddrKey(ds) != Some(key))
    case OfMember(name) => MasterOk(name, ds.bridge, rs)
  }

  lemma {:induction false} SparesAddr(loss: Loss, ds: Desired, rs: Real)
    requires Shown(loss, ds, rs) && !ds.addrMode.Dhcp?
    ensures SparesIn(loss, ds, CheckAddr(ds, rs)) && SparesIn(loss, ds, CheckGateway(ds, rs))
  {
    hide ParsePrefix, ParseIp4, FindIface, RouteOk, Network;
    ParseDefault();
  }

  lemma {:induction false} SparesDns(loss: Loss, ds: Desired, dns: seq<string>, rs: Real)
    ensures SparesIn(loss, ds, CheckDns(dns, rs))
  {
    hide ParseIp4;
    if dns != [] {
      SparesDns(loss, ds, dns[1..], rs);
    }
  }

  lemma {:induction false} SparesMember(loss: Loss, ds: Desired, name: string, rs: Real)
    requires Shown(loss, ds, rs)
    ensures SparesIn(loss, ds, CheckUp(name, FindBy(rs, name)))
    ensures SparesIn(loss, ds, CheckMaster(name, FindBy(rs, name), ds.bridge, rs))
  {
    hide FindIface, RouteOk, ParsePrefix, ParseIp4;
  }

  lemma {:induction false} SparesPorts(loss: Loss, ds: Desired, ports: seq<string>, rs: Real)
    requires Shown(loss, ds, rs)
    ensures SparesIn(loss, ds, CheckPorts(ports, ds.bridge, rs))
  {
    hide Shown, CheckUp, CheckMaster, FindIface;
    if ports != [] {
      SparesMember(loss, ds, ports[0], rs);
      SparesPorts(loss, ds, ports[1..], rs);
      assert SparesIn(loss, ds, CheckPort(ports[0], ds.bridge, rs));
    }
  }

  lemma {:induction false} SparesRoutes(loss: Loss, ds: Desired, routes: seq<DesiredRoute>, rs: Real)
    requires Shown(loss, ds, rs) && forall i :: 0 <= i < |routes| ==> routes[i] in ds.routes
    ensures SparesIn(loss, ds, CheckRoutes(routes, rs))
  {
    hide ParsePrefix, ParseIp4, FindIface, RouteOk, CheckRoute, AddrOk, GatewayOk, MasterOk;
    if routes != [] {
      OneReport(routes[0], rs);
      assert SparesIn(loss, ds, CheckRoute(routes[0], rs));
      SparesRoutes(loss, ds, routes[1..], rs);
    }
  }

  lemma {:induction false} SparesRest(loss: Loss, ds: Desired, rs: Real)
    requires Shown(loss, ds, rs) && !ds.addrMode.Dhcp?
    ensures SparesIn(loss, ds, Others(ds, rs) + CheckRoutes(ds.routes, rs))
  {
    hide Shown, CheckUp, CheckMaster, CheckAddr, CheckGateway, CheckDns, CheckPorts, CheckRoutes, FindIface, Spares;
    SparesAddr(loss, ds, rs);
    SparesDns(loss, ds, ds.dns, rs);
    SparesMember(loss, ds, ds.uplink, rs);
    SparesPorts(loss, ds, ds.ports, rs);
    SparesRoutes(loss, ds, ds.routes, rs);
    NoteSpares(loss, ds);
    assert SparesIn(loss, ds, CheckUplink(ds, rs));
    assert SparesIn(loss, ds, CheckAddr(ds, rs) + CheckGateway(ds, rs) + CheckDns(ds.dns, rs));
    assert SparesIn(loss, ds, Others(ds, rs));
  }

  lemma {:induction false} NoteSpares(loss: Loss, ds: Desired)
    ensures Spares(loss, ds, Note)
  {
  }

  lemma {:induction false} StartsGone(loss: Loss, ds: Desired, k: Kernel)
    requires KindPlaced(ds, k.state) && Consistent(k) && Shown(loss, ds, k.state)
    requires loss.OfMember? ==> loss.name != ds.bridge
    ensures var k2 := After(After(k, LinkDel(ds.bridge)), LinkAddBridge(ds.bridge));
            Gone(loss, ds, k.next, k2.state) && k.next > 0
  {
    hide FindIface, Sound, Bare, MembersThere, ParsePrefix, ParseIp4, Keys, DnsOk, GatewayOk, LostFrom, LostUp, RouteOk,
         NotAmong, Alone, AddrOk, Network;
    StartsBare(ds, k);
    var rs, k1 := k.state, After(k, LinkDel(ds.bridge));
    BareIsLost(ds, rs);
    BridgeAdded(k1, ds.bridge);
    if loss.OfMember? {
      assert LostFind(rs, k1.state, ds.bridge, FindBy(rs, ds.bridge).value.ifindex, loss.name);
      FindLast(k1.state.ifaces, Iface(ds.bridge, "bridge", k1.next, false, 0), loss.name);
    }
  }

  /** What is shown and is lost is lost for good. */
  lemma {:induction false} LostForGood(loss: Loss, ds: Desired, k: Kernel)
    requires KindPlaced(ds, k.state) && Consistent(k) && Shown(loss, ds, k.state)
    requires loss.OfMember? ==> loss.name != ds.bridge
    ensures Gone(loss, ds, k.next, RunActs(k, Acts(StateReport(ds, k.state))).state) && k.next > 0
  {
    hide FindIface, Acts, RunActs, After, StateReport, Gone, Shown, Consistent, Others, CheckRoutes, Alone,
         MembersThere, ParsePrefix, ParseIp4, Keys, DnsOk, GatewayOk, NotAmong, Spares;
    var rs := k.state;
    var del, add, up := LinkDel(ds.bridge), LinkAddBridge(ds.bridge), LinkUp(ds.bridge);
    StartsGone(loss, ds, k);
    FourLines(del, add, up);
    Whole(ds, rs);
    SparesRest(loss, ds, rs);
    var rest := Others(ds, rs) + CheckRoutes(ds.routes, rs);
    ActsConcat(Others(ds, rs), CheckRoutes(ds.routes, rs));
    SparesActs(loss, ds, rest);
    UpSpares(loss, ds);
    var tail := [up] + Acts(rest);
    assert Acts(StateReport(ds, rs)) == [del, add] + tail;
    RunConcat(k, [del, add], tail);
    RunFew(k, del, add);
    RunStaysGone(loss, ds, k.next, RunActs(k, [del, add]), tail);
  }

  lemma {:induction false} UpSpares(loss: Loss, ds: Desired)
    ensures Spares(loss, ds, LinkUp(ds.bridge))
  {
  }

  lemma {:induction false} SomethingHangs(ds: Desired, k: Kernel)
    requires KindPlaced(ds, k.state) && Consistent(k) && !NothingHangs(ds, k.state)
    ensures !Satisfied(ds, RunActs(k, Acts(StateReport(ds, k.state))).state)
  {
    hide FindIface, Acts, RunActs, StateReport, Consistent, Alone, Lifts, ParsePrefix, ParseIp4, Keys, DnsOk, Bare,
         Network;
    var rs := k.state;
    if ds.addrMode.Static? && AddrOk(ds, rs) {
      LostForGood(OfAddr, ds, k);
    } else if ds.gateway != "" && GatewayOk(ds, rs) {
      LostForGood(OfRoute(Prefix(0, 0), ParseIp4(ds.gateway)), ds, k);
    } else if MasterOk(ds.uplink, ds.bridge, rs) {
      LostForGood(OfMember(ds.uplink), ds, k);
    } else if i :| 0 <= i < |ds.ports| && MasterOk(ds.ports[i], ds.bridge, rs) {
      LostForGood(OfMember(ds.ports[i]), ds, k);
    } else {
      var i :| 0 <= i < |ds.routes| && Hangs(ds, rs, ds.routes[i]) && !ComesBack(ds, ds.routes[i]);
      RouteIsLost(ds, k, i);
    }
  }

  lemma {:induction false} RouteIsLost(ds: Desired, k: Kernel, i: nat)
    requires KindPlaced(ds, k.state) && Consistent(k)
    requires i < |ds.routes| && Hangs(ds, k.state, ds.routes[i]) && !ComesBack(ds, ds.routes[i])
    ensures !RouteOk(ds.routes[i], RunActs(k, Acts(StateReport(ds, k.state))).state)
  {
    hide FindIface, Acts, RunActs, StateReport, Consistent, Alone, MembersThere, ParsePrefix, ParseIp4, Keys, DnsOk,
         Bare, AddrKey, GatewayOk;
    var rs, rt := k.state, ds.routes[i];
    var r := ParseRoute(rt).value;
    assert RouteKey(rt) == Some(r.prefix);
    forall j | 0 <= j < |ds.routes|
      ensures RouteOk(ds.routes[j], rs) || RouteKey(ds.routes[j]) != Some(r.prefix)
    {
      assert j == i || RouteKey(ds.routes[i]) != RouteKey(ds.routes[j]);
    }
    LostForGood(OfRoute(r.prefix, r.via), ds, k);
  }

  /**
   One pass of repairs, planned on a snapshot where an interface of another kind has the name of the bridge, leaves
   nothing to repair if and only if nothing that the state asks for hangs on that interface, and every device is up and
   every next hop is on-link by the time that its command comes; and then no command fails.
   */
  lemma {:induction false} KindPassConverges(ds: Desired, k: Kernel)
    requires KindPlaced(ds, k.state) && Consistent(k)
    ensures var acts := Acts(StateReport(ds, k.state));
            var fine := NothingHangs(ds, k.state) && KindCarried(ds, k.state);
            (Satisfied(ds, RunActs(k, acts).state) <==> fine) && (fine ==> !AnyFails(k, acts))
  {
    hide KindPlaced, Consistent, Acts, RunActs, StateReport, Satisfied, NothingHangs, AnyFails, KindCarried;
    if NothingHangs(ds, k.state) {
      NothingHangsDone(ds, k);
    } else {
      SomethingHangs(ds, k);
    }
  }

  /** On a host that nobody else changes, one run repairs the state and says so exactly under that condition. */
  lemma {:induction false} KindRunRepairs(ds: Desired, k: Kernel)
    requires KindPlaced(ds, k.state) && Consistent(k)
    ensures var fine := NothingHangs(ds, k.state) && KindCarried(ds, k.state);
            && (Code([ds], k, true) == 0 <==> fine)
            && (Satisfied(ds, Pass([ds], k.state, k, true).kernel.state) <==> fine)
  {
    hide KindPlaced, Consistent, Satisfied, StateReport, RunActs, AnyFails, Acts, Pass, NothingHangs, Code, KindCarried;
    KindPassConverges(ds, k);
    IsUplinkToo(ds, k.state);
    OneRunTells(ds, k);
  }

  // Two hosts: one where nothing hangs on the interface, and one where the uplink does.

  function Host(master: int): Real {
    Real([Iface("br", "dummy", 1, true, 0), Iface("lo", "", 2, true, master)], [], [], [], [], [])
  }

  const WANTED := Desired("uplink_bridge", "br", NoAddr, "", "", [], "", [], "lo", "", 0, "", "", "", "", "", "", 0, "",
                          "", "", [])

  lemma {:induction false} FindAmong(master: int, n: string)
    ensures FindBy(Host(master), n) ==
            if n == "br" then Some(Iface("br", "dummy", 1, true, 0))
            else if n == "lo" then Some(Iface("lo", "", 2, true, master)) else None
  {
    var ifaces := Host(master).ifaces;
    assert ifaces[1..] == [Iface("lo", "", 2, true, master)] && ifaces[1..][1..] == [];
    assert FindIface(ifaces[1..], n) == if n == "lo" then Some(ifaces[1]) else None;
  }

  /** The interface is replaced in one pass if and only if the uplink is not in it. */
  lemma {:induction false} DummyIsReplaced(master: int, k: Kernel)
    requires k.state == Host(master) && k.next == 3
    ensures KindPlaced(WANTED, k.state) && Consistent(k)
    ensures Satisfied(WANTED, RunActs(k, Acts(StateReport(WANTED, k.state))).state) <==> master != 1
  {
    hide FindIface, Acts, RunActs, Satisfied, StateReport, Keys, Bare;
    FindAmong(master, "br");
    FindAmong(master, "lo");
    assert "dummy"[0] != "bridge"[0] && "lo" != "br";
    assert ScenarioOf(WANTED.scenario) == UplinkBridge;
    assert UpOk("lo", k.state) && Lifts("lo", k.state);
    forall n: string
      ensures Numbered(k, n) && KindThere(k.state, n)
    {
      FindAmong(master, n);
    }
    forall a: string, b: string
      ensures Apart(k.state, a, b)
    {
      FindAmong(master, a);
      FindAmong(master, b);
    }
    forall i | i in k.state.ifaces
      ensures Sole(k.state, i)
    {
      FindAmong(master, i.name);
    }
    KindPassConverges(WANTED, k);
  }
}
