/** The reconciler of `verify.c`: what it reports of a desired state against a snapshot. */
module Verify {
  import opened Wrappers
  import opened NetState
  import opened Substitution

  /** A repair command, or a note to the operator where no command can help. */
  datatype Act =
    | LinkAddBridge(name: string)
    | LinkAddWireguard(name: string)
    | LinkAddVlan(link: string, name: string, id: nat)
    | LinkAddVxlan(name: string, vni: nat, remote: string, dev: string)
    | LinkDel(name: string)
    | LinkUp(name: string)
    | LinkMaster(name: string, bridge: string)
    | AddrAdd(addr: string, dev: string)
    | RouteReplace(dst: string, via: Option<string>, dev: string)
    | Command(text: string)
    | Note

  /** What starts with `#` is printed and not run. */
  predicate IsComment(a: Act) {
    a.Note? || (a.Command? && a.text != "" && a.text[0] == '#')
  }

  /** A line of the report. */
  datatype Line = Ok | Miss | Do(act: Act)

  type Report = seq<Line>

  function Misses(report: Report): nat {
    if report == [] then 0 else (if report[0].Miss? then 1 else 0) + Misses(report[1..])
  }

  function Acts(report: Report): seq<Act> {
    if report == [] then []
    else if report[0].Do? then [report[0].act] + Acts(report[1..])
    else Acts(report[1..])
  }

  function FindBy(rs: Real, name: string): Option<Iface> {
    FindIface(rs.ifaces, name)
  }

  predicate RouteExact(rs: Real, dst: nat, prefix: nat, oif: int, gw: Option<nat>) {
    oif > 0 && Route(dst, prefix, gw, oif) in rs.routes
  }

  predicate AddrAny(rs: Real, ifindex: int) {
    exists i :: 0 <= i < |rs.addrs| && rs.addrs[i].ifindex == ifindex
  }

  function CheckBridge(ds: Desired, rs: Real): Report {
    match FindBy(rs, ds.bridge)
    case None => [Miss, Do(LinkAddBridge(ds.bridge)), Do(LinkUp(ds.bridge))]
    case Some(br) =>
      if br.kind == "bridge" then
        if br.up then [Ok, Ok] else [Ok, Miss, Do(LinkUp(ds.bridge))]
      else [Miss, Do(LinkDel(ds.bridge)), Do(LinkAddBridge(ds.bridge)), Do(LinkUp(ds.bridge))]
  }

  const CMD_SIZE := 256

  /** The command for a bridge that should have an address and has none: the one given, with its name put in. */
  lemma {:induction false} DhcpCommand(ds: Desired, rs: Real, parts: seq<string>)
    requires ds.addrMode.Dhcp? && Cut(ds.dhcpCmd, parts)
    requires FindBy(rs, ds.bridge).Some? ==> !AddrAny(rs, FindBy(rs, ds.bridge).value.ifindex)
    ensures var cmd := Join(parts, ds.bridge);
            CheckAddr(ds, rs) == [Miss, Do(if |cmd| < 256 then Command(cmd) else Note)]
  {
    hide Cut, Join, Subst;
    SubstReplaces(ds.dhcpCmd, parts, ds.bridge);
  }

  function CheckAddr(ds: Desired, rs: Real): Report {
    var br := FindBy(rs, ds.bridge);
    match ds.addrMode
    case NoAddr => []
    case Dhcp =>
      if br.Some? && AddrAny(rs, br.value.ifindex) then [Ok]
      else
        var cmd := Subst(ds.dhcpCmd, ds.bridge);
        [Miss, Do(if |cmd| >= CMD_SIZE then Note else Command(cmd))]
    case Static =>
      match ParsePrefix(ds.addr)
      case None => [Miss, Do(Note)]
      case Some(p) =>
        if br.Some? && Addr(br.value.ifindex, p.addr, p.len) in rs.addrs then [Ok]
        else [Miss, Do(AddrAdd(ds.addr, ds.bridge))]
  }

  const DEFAULT_ROUTE := "0.0.0.0/0"

  function CheckGateway(ds: Desired, rs: Real): Report {
    if ds.gateway == "" then []
    else
      match ParseIp4(ds.gateway)
      case None => [Miss, Do(Note)]
      case Some(gw) =>
        var br := FindBy(rs, ds.bridge);
        if br.Some? && RouteExact(rs, 0, 0, br.value.ifindex, Some(gw)) then [Ok]
        else [Miss, Do(RouteReplace(DEFAULT_ROUTE, Some(ds.gateway), ds.bridge))]
  }

  function CheckDns(dns: seq<string>, rs: Real): Report {
    if dns == [] then []
    else
      (match ParseIp4(dns[0])
       case None => [Miss, Do(Note)]
       case Some(addr) => if addr in rs.dns then [Ok] else [Miss, Do(Note)])
      + CheckDns(dns[1..], rs)
  }

  function CheckWgPeerRoute(ds: Desired, rs: Real): Report {
    match ParseIp4(ds.wgPeer)
    case None => [Miss, Do(Note)]
    case Some(ip) =>
      var dev := FindBy(rs, ds.wgRouteDev);
      if dev.Some? && RouteExact(rs, ip, 32, dev.value.ifindex, None) then [Ok]
      else [Miss, Do(RouteReplace(ds.wgPeer + "/32", None, ds.wgRouteDev))]
  }

  /** A desired route, read: the next hop is missing if there is to be none. */
  datatype ReadRoute = ReadRoute(prefix: Prefix, via: Option<nat>)

  function ParseRoute(rt: DesiredRoute): Option<ReadRoute> {
    match ParsePrefix(rt.dst)
    case None => None
    case Some(p) =>
      if rt.via.None? then Some(ReadRoute(p, None))
      else
        match ParseIp4(rt.via.value)
        case None => None
        case Some(gw) => Some(ReadRoute(p, Some(gw)))
  }

  function CheckRoute(rt: DesiredRoute, rs: Real): Report {
    match ParseRoute(rt)
    case None => [Miss, Do(Note)]
    case Some(r) =>
      var dev := FindBy(rs, rt.dev);
      if dev.Some? && RouteExact(rs, r.prefix.addr, r.prefix.len, dev.value.ifindex, r.via) then [Ok]
      else [Miss, Do(RouteReplace(rt.dst, rt.via, rt.dev))]
  }

  function CheckRoutes(routes: seq<DesiredRoute>, rs: Real): Report {
    if routes == [] then [] else CheckRoute(routes[0], rs) + CheckRoutes(routes[1..], rs)
  }

  function CheckUp(name: string, iface: Option<Iface>): Report {
    if iface.None? then [Miss]
    else if iface.value.up then [Ok]
    else [Miss, Do(LinkUp(name))]
  }

  function CheckMaster(name: string, iface: Option<Iface>, bridge: string, rs: Real): Report {
    if iface.None? then []
    else
      var br := FindBy(rs, bridge);
      if br.Some? && iface.value.master == br.value.ifindex then [Ok]
      else [Miss, Do(LinkMaster(name, bridge))]
  }

  function CheckPort(port: string, bridge: string, rs: Real): Report {
    var iface := FindBy(rs, port);
    if iface.None? then [Miss, Do(Note)]
    else [Ok] + CheckUp(port, iface) + CheckMaster(port, iface, bridge, rs)
  }

  function CheckPorts(ports: seq<string>, bridge: string, rs: Real): Report {
    if ports == [] then [] else CheckPort(ports[0], bridge, rs) + CheckPorts(ports[1..], bridge, rs)
  }

  function AddVxlan(ds: Desired): Report {
    [Do(LinkAddVxlan(ds.vxlan, ds.vxlanVni, ds.vxlanRemote, ds.vxlanDev)), Do(LinkUp(ds.vxlan)),
     Do(LinkMaster(ds.vxlan, ds.vxlanBridge))]
  }

  function CheckVxlanVni(ds: Desired, vx: Vxlan): Report {
    if vx.vni == Some(ds.vxlanVni) then [Ok] else [Miss]
  }

  function CheckVxlanRemote(ds: Desired, vx: Vxlan): Report {
    match ParseIp4(ds.vxlanRemote)
    case None => [Miss, Do(Note)]
    case Some(remote) => if vx.remote == Some(remote) then [Ok] else [Miss]
  }

  function CheckVxlanDev(ds: Desired, rs: Real, vx: Vxlan): Report {
    if ds.vxlanDev == "" then []
    else
      var dev := FindBy(rs, ds.vxlanDev);
      if dev.Some? && vx.link == Some(dev.value.ifindex) then [Ok] else [Miss]
  }

  /** What differs cannot be changed in place: the interface is deleted and added again. */
  predicate RecreateVxlan(ds: Desired, rs: Real, vx: Vxlan) {
    || CheckVxlanVni(ds, vx) == [Miss]
    || CheckVxlanRemote(ds, vx) == [Miss]
    || CheckVxlanDev(ds, rs, vx) == [Miss]
  }

  /** `check_vxlan_attrs`, and the check of the master that follows unless the interface is recreated. */
  function CheckVxlan(ds: Desired, rs: Real): Report {
    var iface := FindBy(rs, ds.vxlan);
    match FindVxlan(rs.vxlans, ds.vxlan)
    case None => [Miss] + (if iface.Some? then [Do(LinkDel(ds.vxlan))] else []) + AddVxlan(ds)
    case Some(vx) =>
      [Ok] + CheckVxlanVni(ds, vx) + CheckVxlanRemote(ds, vx) + CheckVxlanDev(ds, rs, vx) +
      if RecreateVxlan(ds, rs, vx) then [Do(LinkDel(ds.vxlan))] + AddVxlan(ds)
      else CheckUp(ds.vxlan, iface) + CheckMaster(ds.vxlan, iface, ds.vxlanBridge, rs)
  }

  function AddVlan(ds: Desired): Report {
    [Do(LinkAddVlan(ds.vlanLink, ds.vlan, ds.vlanId)), Do(LinkUp(ds.vlan)), Do(LinkMaster(ds.vlan, ds.vlanBridge))]
  }

  function CheckVlanId(ds: Desired, vl: Vlan): Report {
    if vl.id == Some(ds.vlanId) then [Ok] else [Miss]
  }

  function CheckVlanLink(ds: Desired, rs: Real, vl: Vlan): Report {
    var link := FindBy(rs, ds.vlanLink);
    if link.Some? && vl.link == Some(link.value.ifindex) then [Ok] else [Miss]
  }

  /** `check_vlan_attrs`, and the check of the master that follows unless the interface is recreated. */
  function CheckVlan(ds: Desired, rs: Real): Report {
    var iface := FindBy(rs, ds.vlan);
    match FindVlan(rs.vlans, ds.vlan)
    case None => [Miss] + (if iface.Some? then [Do(LinkDel(ds.vlan))] else []) + AddVlan(ds)
    case Some(vl) =>
      [Ok] + CheckVlanId(ds, vl) + CheckVlanLink(ds, rs, vl) +
      if CheckVlanId(ds, vl) == [Miss] || CheckVlanLink(ds, rs, vl) == [Miss] then [Do(LinkDel(ds.vlan))] + AddVlan(ds)
      else CheckUp(ds.vlan, iface) + CheckMaster(ds.vlan, iface, ds.vlanBridge, rs)
  }

  function CheckWg(ds: Desired, rs: Real): Report {
    var wg := FindBy(rs, ds.wg);
    if wg.None? then [Miss, Do(LinkAddWireguard(ds.wg))] else [Ok] + CheckUp(ds.wg, wg)
  }

  /** `verify_only_uplink` */
  function CheckUplink(ds: Desired, rs: Real): Report {
    var up := FindBy(rs, ds.uplink);
    if up.None? then [Miss, Do(Note)] else [Ok] + CheckUp(ds.uplink, up)
  }

  function BridgeReport(ds: Desired, rs: Real): Report {
    CheckBridge(ds, rs) + CheckAddr(ds, rs) + CheckGateway(ds, rs) + CheckDns(ds.dns, rs)
  }

  datatype Scenario = OnlyUplink | UplinkBridge | VlanBridge | WgVxlanBridge | Unsupported

  function ScenarioOf(name: string): Scenario {
    if name == "only_uplink" || name == "only_uplink_iface" then OnlyUplink
    else if name == "uplink_bridge" || name == "uplink_in_bridge" then UplinkBridge
    else if name == "vlan_bridge" || name == "vlan_in_bridge" then VlanBridge
    else if name == "wg_vxlan_bridge" then WgVxlanBridge
    else Unsupported
  }

  function ScenarioReport(ds: Desired, rs: Real): Report {
    match ScenarioOf(ds.scenario)
    case OnlyUplink => CheckUplink(ds, rs)
    case UplinkBridge =>
      BridgeReport(ds, rs) + CheckUplink(ds, rs) +
      CheckMaster(ds.uplink, FindBy(rs, ds.uplink), ds.bridge, rs) + CheckPorts(ds.ports, ds.bridge, rs)
    case VlanBridge =>
      BridgeReport(ds, rs) + CheckUplink(ds, rs) + CheckPorts(ds.ports, ds.bridge, rs) + CheckVlan(ds, rs)
    case WgVxlanBridge =>
      BridgeReport(ds, rs) + (if ds.uplink != "" then CheckUplink(ds, rs) else []) +
      CheckPorts(ds.ports, ds.bridge, rs) + CheckWgPeerRoute(ds, rs) + CheckWg(ds, rs) + CheckVxlan(ds, rs)
    case Unsupported => []
  }

  /** The report of `verify_state` for a supported scenario. */
  function StateReport(ds: Desired, rs: Real): Report {
    ScenarioReport(ds, rs) + CheckRoutes(ds.routes, rs)
  }

  lemma {:induction false} MissesConcat(a: Report, b: Report)
    ensures Misses(a + b) == Misses(a) + Misses(b)
    decreases |a|
  {
    if a == [] {
      assert a + b == b;
    } else {
      MissesConcat(a[1..], b);
      assert (a + b)[1..] == a[1..] + b;
    }
  }

  lemma {:induction false} ActsConcat(a: Report, b: Report)
    ensures Acts(a + b) == Acts(a) + Acts(b)
    decreases |a|
  {
    if a == [] {
      assert a + b == b && [] + Acts(b) == Acts(b);
    } else {
      ActsConcat(a[1..], b);
      assert (a + b)[1..] == a[1..] + b;
      if a[0].Do? {
        assert [a[0].act] + (Acts(a[1..]) + Acts(b)) == [a[0].act] + Acts(a[1..]) + Acts(b);
      }
    }
  }

  /** The report misses nothing exactly when the condition holds, and then asks for nothing to be done. */
  predicate Judges(report: Report, holds: bool) {
    && (Misses(report) == 0 <==> holds)
    && (holds ==> Acts(report) == [])
  }

  lemma {:induction false} JudgeBoth(a: Report, x: bool, b: Report, y: bool)
    requires Judges(a, x) && Judges(b, y)
    ensures Judges(a + b, x && y)
  {
    MissesConcat(a, b);
    ActsConcat(a, b);
  }

  /** The reports of one thing that is right, and of one that is missing. */
  lemma {:induction false} JudgeLines(report: Report)
    ensures report == [] || report == [Ok] || report == [Ok, Ok] ==> Judges(report, true)
    ensures |report| > 0 && report[0] == Miss ==> Judges(report, false)
    ensures |report| > 1 && report[0] == Ok && report[1] == Miss ==> Judges(report, false)
    decreases |report|
  {
    if report == [Ok] {
      assert report[1..] == [];
    } else if report == [Ok, Ok] {
      JudgeLines([Ok]);
      assert report[1..] == [Ok];
    }
  }

  // What the desired state asks for, item by item.

  predicate BridgeOk(ds: Desired, rs: Real) {
    var br := FindBy(rs, ds.bridge);
    br.Some? && br.value.kind == "bridge" && br.value.up
  }

  predicate AddrOk(ds: Desired, rs: Real) {
    var br := FindBy(rs, ds.bridge);
    match ds.addrMode
    case NoAddr => true
    case Dhcp => br.Some? && AddrAny(rs, br.value.ifindex)
    case Static =>
      var p := ParsePrefix(ds.addr);
      p.Some? && br.Some? && Addr(br.value.ifindex, p.value.addr, p.value.len) in rs.addrs
  }

  /** There is such a route out of the interface. */
  predicate RouteVia(rs: Real, dst: nat, prefix: nat, gw: Option<nat>, dev: string) {
    var iface := FindBy(rs, dev);
    iface.Some? && iface.value.ifindex > 0 && Route(dst, prefix, gw, iface.value.ifindex) in rs.routes
  }

  predicate GatewayOk(ds: Desired, rs: Real) {
    ds.gateway != "" ==>
      var gw := ParseIp4(ds.gateway);
      gw.Some? && RouteVia(rs, 0, 0, gw, ds.bridge)
  }

  predicate DnsOk(dns: seq<string>, rs: Real) {
    forall i :: 0 <= i < |dns| ==> ParseIp4(dns[i]).Some? && ParseIp4(dns[i]).value in rs.dns
  }

  predicate UpOk(name: string, rs: Real) {
    FindBy(rs, name).Some? && FindBy(rs, name).value.up
  }

  predicate MasterOk(name: string, bridge: string, rs: Real) {
    FindBy(rs, name).Some? && FindBy(rs, bridge).Some? &&
    FindBy(rs, name).value.master == FindBy(rs, bridge).value.ifindex
  }

  predicate PortsOk(ports: seq<string>, bridge: string, rs: Real) {
    forall i :: 0 <= i < |ports| ==> UpOk(ports[i], rs) && MasterOk(ports[i], bridge, rs)
  }

  predicate RouteOk(rt: DesiredRoute, rs: Real) {
    var r := ParseRoute(rt);
    r.Some? && RouteVia(rs, r.value.prefix.addr, r.value.prefix.len, r.value.via, rt.dev)
  }

  predicate RoutesOk(routes: seq<DesiredRoute>, rs: Real) {
    forall i :: 0 <= i < |routes| ==> RouteOk(routes[i], rs)
  }

  predicate VlanOk(ds: Desired, rs: Real) {
    var vl := FindVlan(rs.vlans, ds.vlan);
    var link := FindBy(rs, ds.vlanLink);
    && vl.Some? && vl.value.id == Some(ds.vlanId)
    && link.Some? && vl.value.link == Some(link.value.ifindex)
    && UpOk(ds.vlan, rs) && MasterOk(ds.vlan, ds.vlanBridge, rs)
  }

  predicate VxlanOk(ds: Desired, rs: Real) {
    var vx := FindVxlan(rs.vxlans, ds.vxlan);
    var remote := ParseIp4(ds.vxlanRemote);
    var dev := FindBy(rs, ds.vxlanDev);
    && vx.Some? && vx.value.vni == Some(ds.vxlanVni)
    && remote.Some? && vx.value.remote == remote
    && (ds.vxlanDev != "" ==> dev.Some? && vx.value.link == Some(dev.value.ifindex))
    && UpOk(ds.vxlan, rs) && MasterOk(ds.vxlan, ds.vxlanBridge, rs)
  }

  predicate WgOk(ds: Desired, rs: Real) {
    var peer := ParseIp4(ds.wgPeer);
    peer.Some? && RouteVia(rs, peer.value, 32, None, ds.wgRouteDev) && UpOk(ds.wg, rs)
  }

  predicate BridgePartOk(ds: Desired, rs: Real) {
    BridgeOk(ds, rs) && AddrOk(ds, rs) && GatewayOk(ds, rs) && DnsOk(ds.dns, rs)
  }

  /** What it means for a system to be in a desired state of a supported scenario. */
  predicate Satisfied(ds: Desired, rs: Real) {
    && RoutesOk(ds.routes, rs)
    && match ScenarioOf(ds.scenario)
       case OnlyUplink => UpOk(ds.uplink, rs)
       case UplinkBridge =>
         && BridgePartOk(ds, rs) && UpOk(ds.uplink, rs) && MasterOk(ds.uplink, ds.bridge, rs)
         && PortsOk(ds.ports, ds.bridge, rs)
       case VlanBridge =>
         BridgePartOk(ds, rs) && UpOk(ds.uplink, rs) && PortsOk(ds.ports, ds.bridge, rs) && VlanOk(ds, rs)
       case WgVxlanBridge =>
         && BridgePartOk(ds, rs) && (ds.uplink != "" ==> UpOk(ds.uplink, rs)) && PortsOk(ds.ports, ds.bridge, rs)
         && WgOk(ds, rs) && VxlanOk(ds, rs)
       case Unsupported => false
  }

  lemma {:induction false} JudgeBridge(ds: Desired, rs: Real)
    ensures Judges(CheckBridge(ds, rs), BridgeOk(ds, rs))
  {
    JudgeLines(CheckBridge(ds, rs));
  }

  lemma {:induction false} JudgeAddr(ds: Desired, rs: Real)
    ensures Judges(CheckAddr(ds, rs), AddrOk(ds, rs))
  {
    hide ParsePrefix, Subst;
    JudgeLines(CheckAddr(ds, rs));
  }

  lemma {:induction false} JudgeGateway(ds: Desired, rs: Real)
    ensures Judges(CheckGateway(ds, rs), GatewayOk(ds, rs))
  {
    hide ParseIp4;
    JudgeLines(CheckGateway(ds, rs));
  }

  lemma {:induction false} JudgeDns(dns: seq<string>, rs: Real)
    ensures Judges(CheckDns(dns, rs), DnsOk(dns, rs))
    decreases |dns|
  {
    hide ParseIp4, Judges;
    JudgeLines([]);
    if dns != [] {
      var addr := ParseIp4(dns[0]);
      var first: Report := if addr.Some? && addr.value in rs.dns then [Ok] else [Miss, Do(Note)];
      JudgeLines(first);
      JudgeDns(dns[1..], rs);
      JudgeBoth(first, addr.Some? && addr.value in rs.dns, CheckDns(dns[1..], rs), DnsOk(dns[1..], rs));
      assert DnsOk(dns, rs) <==> (addr.Some? && addr.value in rs.dns) && DnsOk(dns[1..], rs) by {
        assert forall i :: 1 <= i < |dns| ==> dns[i] == dns[1..][i - 1];
      }
    }
  }

  lemma {:induction false} JudgeRoute(rt: DesiredRoute, rs: Real)
    ensures Judges(CheckRoute(rt, rs), RouteOk(rt, rs))
  {
    hide ParseRoute;
    JudgeLines(CheckRoute(rt, rs));
  }

  lemma {:induction false} JudgeRoutes(routes: seq<DesiredRoute>, rs: Real)
    ensures Judges(CheckRoutes(routes, rs), RoutesOk(routes, rs))
    decreases |routes|
  {
    hide Judges, CheckRoute, RouteOk;
    JudgeLines([]);
    if routes != [] {
      JudgeRoute(routes[0], rs);
      JudgeRoutes(routes[1..], rs);
      JudgeBoth(CheckRoute(routes[0], rs), RouteOk(routes[0], rs), CheckRoutes(routes[1..], rs),
                RoutesOk(routes[1..], rs));
      assert RoutesOk(routes, rs) <==> RouteOk(routes[0], rs) && RoutesOk(routes[1..], rs) by {
        assert forall i :: 1 <= i < |routes| ==> routes[i] == routes[1..][i - 1];
      }
    }
  }

  lemma {:induction false} JudgeUp(name: string, rs: Real)
    ensures Judges(CheckUp(name, FindBy(rs, name)), UpOk(name, rs))
  {
    JudgeLines(CheckUp(name, FindBy(rs, name)));
  }

  lemma {:induction false} JudgeMaster(name: string, bridge: string, rs: Real)
    requires FindBy(rs, name).Some?
    ensures Judges(CheckMaster(name, FindBy(rs, name), bridge, rs), MasterOk(name, bridge, rs))
  {
    JudgeLines(CheckMaster(name, FindBy(rs, name), bridge, rs));
  }

  /** An interface that has to be there, up, and in the bridge. */
  lemma {:induction false} JudgeUpAndMaster(name: string, bridge: string, rs: Real)
    ensures Judges(CheckUp(name, FindBy(rs, name)) + CheckMaster(name, FindBy(rs, name), bridge, rs),
                   UpOk(name, rs) && MasterOk(name, bridge, rs))
  {
    hide Judges;
    var up, master := CheckUp(name, FindBy(rs, name)), CheckMaster(name, FindBy(rs, name), bridge, rs);
    JudgeUp(name, rs);
    if FindBy(rs, name).Some? {
      JudgeMaster(name, bridge, rs);
      JudgeBoth(up, UpOk(name, rs), master, MasterOk(name, bridge, rs));
    } else {
      assert up + master == up;
    }
  }

  lemma {:induction false} JudgePort(port: string, bridge: string, rs: Real)
    ensures Judges(CheckPort(port, bridge, rs), UpOk(port, rs) && MasterOk(port, bridge, rs))
  {
    hide Judges, CheckUp, CheckMaster;
    var iface := FindBy(rs, port);
    if iface.None? {
      JudgeLines([Miss, Do(Note)]);
    } else {
      JudgeLines([Ok]);
      JudgeUpAndMaster(port, bridge, rs);
      var up, master := CheckUp(port, iface), CheckMaster(port, iface, bridge, rs);
      JudgeBoth([Ok], true, up + master, UpOk(port, rs) && MasterOk(port, bridge, rs));
      assert [Ok] + up + master == [Ok] + (up + master);
    }
  }

  lemma {:induction false} JudgePorts(ports: seq<string>, bridge: string, rs: Real)
    ensures Judges(CheckPorts(ports, bridge, rs), PortsOk(ports, bridge, rs))
    decreases |ports|
  {
    hide Judges, CheckPort, UpOk, MasterOk;
    JudgeLines([]);
    if ports != [] {
      JudgePort(ports[0], bridge, rs);
      JudgePorts(ports[1..], bridge, rs);
      var good := UpOk(ports[0], rs) && MasterOk(ports[0], bridge, rs);
      JudgeBoth(CheckPort(ports[0], bridge, rs), good, CheckPorts(ports[1..], bridge, rs),
                PortsOk(ports[1..], bridge, rs));
      assert PortsOk(ports, bridge, rs) <==> good && PortsOk(ports[1..], bridge, rs) by {
        assert forall i :: 1 <= i < |ports| ==> ports[i] == ports[1..][i - 1];
      }
    }
  }

  lemma {:induction false} JudgeUplink(ds: Desired, rs: Real)
    ensures Judges(CheckUplink(ds, rs), UpOk(ds.uplink, rs))
  {
    hide Judges, CheckUp;
    var up := FindBy(rs, ds.uplink);
    if up.None? {
      JudgeLines([Miss, Do(Note)]);
    } else {
      JudgeLines([Ok]);
      JudgeUp(ds.uplink, rs);
      JudgeBoth([Ok], true, CheckUp(ds.uplink, up), UpOk(ds.uplink, rs));
    }
  }

  lemma {:induction false} JudgeWg(ds: Desired, rs: Real)
    ensures Judges(CheckWgPeerRoute(ds, rs) + CheckWg(ds, rs), WgOk(ds, rs))
  {
    hide Judges, CheckUp, ParseIp4, CheckWg, CheckWgPeerRoute;
    JudgePeerRoute(ds, rs);
    JudgeWgUp(ds, rs);
    var peer := ParseIp4(ds.wgPeer);
    JudgeBoth(CheckWgPeerRoute(ds, rs), peer.Some? && RouteVia(rs, peer.value, 32, None, ds.wgRouteDev),
              CheckWg(ds, rs), UpOk(ds.wg, rs));
  }

  lemma {:induction false} JudgePeerRoute(ds: Desired, rs: Real)
    ensures var peer := ParseIp4(ds.wgPeer);
            Judges(CheckWgPeerRoute(ds, rs), peer.Some? && RouteVia(rs, peer.value, 32, None, ds.wgRouteDev))
  {
    hide ParseIp4;
    JudgeLines(CheckWgPeerRoute(ds, rs));
  }

  lemma {:induction false} JudgeWgUp(ds: Desired, rs: Real)
    ensures Judges(CheckWg(ds, rs), UpOk(ds.wg, rs))
  {
    hide Judges, CheckUp;
    var wg := FindBy(rs, ds.wg);
    if wg.None? {
      JudgeLines([Miss, Do(LinkAddWireguard(ds.wg))]);
    } else {
      JudgeLines([Ok]);
      JudgeUp(ds.wg, rs);
      JudgeBoth([Ok], true, CheckUp(ds.wg, wg), UpOk(ds.wg, rs));
    }
  }

  /** A report of something missing, whatever follows. */
  lemma {:induction false} JudgeMiss(a: Report, b: Report)
    requires Judges(a, false)
    ensures Judges(a + b, false)
  {
    MissesConcat(a, b);
  }

  lemma {:induction false} JudgeVlan(ds: Desired, rs: Real)
    ensures Judges(CheckVlan(ds, rs), VlanOk(ds, rs))
  {
    hide Judges, CheckUp, CheckMaster, UpOk, MasterOk;
    var vl := FindVlan(rs.vlans, ds.vlan);
    if vl.None? {
      var iface := FindBy(rs, ds.vlan);
      JudgeLines([Miss]);
      var del: Report := if iface.Some? then [Do(LinkDel(ds.vlan))] else [];
      JudgeMiss([Miss], del + AddVlan(ds));
      assert [Miss] + del + AddVlan(ds) == [Miss] + (del + AddVlan(ds));
    } else {
      JudgeVlanFound(ds, rs, vl.value);
    }
  }

  lemma {:induction false} JudgeVlanFound(ds: Desired, rs: Real, vl: Vlan)
    requires FindVlan(rs.vlans, ds.vlan) == Some(vl)
    ensures Judges(CheckVlan(ds, rs), VlanOk(ds, rs))
  {
    hide Judges, CheckUp, CheckMaster, UpOk, MasterOk, FindIface;
    var a, b := CheckVlanId(ds, vl), CheckVlanLink(ds, rs, vl);
    var iface := FindBy(rs, ds.vlan);
    var rest := if a == [Miss] || b == [Miss] then [Do(LinkDel(ds.vlan))] + AddVlan(ds)
                else CheckUp(ds.vlan, iface) + CheckMaster(ds.vlan, iface, ds.vlanBridge, rs);
    JudgeLines([Ok]);
    JudgeLines(a);
    JudgeLines(b);
    JudgeBoth([Ok], true, a, a == [Ok]);
    JudgeBoth([Ok] + a, a == [Ok], b, b == [Ok]);
    JudgeUpAndMaster(ds.vlan, ds.vlanBridge, rs);
    if a == [Ok] && b == [Ok] {
      JudgeBoth([Ok] + a + b, true, rest, UpOk(ds.vlan, rs) && MasterOk(ds.vlan, ds.vlanBridge, rs));
    } else {
      JudgeMiss([Ok] + a + b, rest);
    }
  }

  lemma {:induction false} JudgeVxlan(ds: Desired, rs: Real)
    ensures Judges(CheckVxlan(ds, rs), VxlanOk(ds, rs))
  {
    hide Judges, CheckUp, CheckMaster, UpOk, MasterOk, ParseIp4;
    var vx := FindVxlan(rs.vxlans, ds.vxlan);
    if vx.None? {
      var iface := FindBy(rs, ds.vxlan);
      JudgeLines([Miss]);
      var del: Report := if iface.Some? then [Do(LinkDel(ds.vxlan))] else [];
      JudgeMiss([Miss], del + AddVxlan(ds));
      assert [Miss] + del + AddVxlan(ds) == [Miss] + (del + AddVxlan(ds));
    } else {
      JudgeVxlanFound(ds, rs, vx.value);
    }
  }

  predicate Good(report: Report) {
    report == [] || report == [Ok]
  }

  lemma {:induction false} JudgeVxlanFound(ds: Desired, rs: Real, vx: Vxlan)
    requires FindVxlan(rs.vxlans, ds.vxlan) == Some(vx)
    ensures Judges(CheckVxlan(ds, rs), VxlanOk(ds, rs))
  {
    hide Judges, CheckUp, CheckMaster, UpOk, MasterOk, FindIface, ParseIp4;
    var a, b, c := CheckVxlanVni(ds, vx), CheckVxlanRemote(ds, vx), CheckVxlanDev(ds, rs, vx);
    var iface := FindBy(rs, ds.vxlan);
    var rest := if RecreateVxlan(ds, rs, vx) then [Do(LinkDel(ds.vxlan))] + AddVxlan(ds)
                else CheckUp(ds.vxlan, iface) + CheckMaster(ds.vxlan, iface, ds.vxlanBridge, rs);
    JudgeLines([Ok]);
    JudgeLines(a);
    JudgeLines(b);
    JudgeLines(c);
    JudgeBoth([Ok], true, a, Good(a));
    JudgeBoth([Ok] + a, Good(a), b, Good(b));
    JudgeBoth([Ok] + a + b, Good(a) && Good(b), c, Good(c));
    JudgeUpAndMaster(ds.vxlan, ds.vxlanBridge, rs);
    if Good(a) && Good(b) && Good(c) {
      JudgeBoth([Ok] + a + b + c, true, rest, UpOk(ds.vxlan, rs) && MasterOk(ds.vxlan, ds.vxlanBridge, rs));
    } else {
      JudgeMiss([Ok] + a + b + c, rest);
    }
  }

  lemma {:induction false} JudgeBridgePart(ds: Desired, rs: Real)
    ensures Judges(BridgeReport(ds, rs), BridgePartOk(ds, rs))
  {
    hide Judges, CheckBridge, CheckAddr, CheckGateway, CheckDns, BridgeOk, AddrOk, GatewayOk, DnsOk;
    var a, b, c, d := CheckBridge(ds, rs), CheckAddr(ds, rs), CheckGateway(ds, rs), CheckDns(ds.dns, rs);
    JudgeBridge(ds, rs);
    JudgeAddr(ds, rs);
    JudgeGateway(ds, rs);
    JudgeDns(ds.dns, rs);
    JudgeBoth(a, BridgeOk(ds, rs), b, AddrOk(ds, rs));
    JudgeBoth(a + b, BridgeOk(ds, rs) && AddrOk(ds, rs), c, GatewayOk(ds, rs));
    JudgeBoth(a + b + c, BridgeOk(ds, rs) && AddrOk(ds, rs) && GatewayOk(ds, rs), d, DnsOk(ds.dns, rs));
  }

  lemma {:induction false} JudgeUplinkBridge(ds: Desired, rs: Real)
    requires ScenarioOf(ds.scenario) == UplinkBridge
    ensures Judges(ScenarioReport(ds, rs),
                   BridgePartOk(ds, rs) && UpOk(ds.uplink, rs) && MasterOk(ds.uplink, ds.bridge, rs)
                   && PortsOk(ds.ports, ds.bridge, rs))
  {
    hide Judges, BridgeReport, CheckPorts, CheckMaster, BridgePartOk, UpOk, MasterOk, PortsOk;
    var a, d := BridgeReport(ds, rs), CheckPorts(ds.ports, ds.bridge, rs);
    var b, c := CheckUplink(ds, rs), CheckMaster(ds.uplink, FindBy(rs, ds.uplink), ds.bridge, rs);
    JudgeBridgePart(ds, rs);
    JudgeUplinkMaster(ds, rs);
    JudgePorts(ds.ports, ds.bridge, rs);
    JudgeBoth(a, BridgePartOk(ds, rs), b + c, UpOk(ds.uplink, rs) && MasterOk(ds.uplink, ds.bridge, rs));
    JudgeBoth(a + (b + c), BridgePartOk(ds, rs) && UpOk(ds.uplink, rs) && MasterOk(ds.uplink, ds.bridge, rs),
              d, PortsOk(ds.ports, ds.bridge, rs));
    assert a + b + c + d == a + (b + c) + d;
  }

  lemma {:induction false} JudgeUplinkMaster(ds: Desired, rs: Real)
    ensures Judges(CheckUplink(ds, rs) + CheckMaster(ds.uplink, FindBy(rs, ds.uplink), ds.bridge, rs),
                   UpOk(ds.uplink, rs) && MasterOk(ds.uplink, ds.bridge, rs))
  {
    hide Judges, CheckUp, CheckMaster;
    var up := FindBy(rs, ds.uplink);
    var b, c := CheckUplink(ds, rs), CheckMaster(ds.uplink, up, ds.bridge, rs);
    JudgeUplink(ds, rs);
    if up.None? {
      JudgeMiss(b, c);
    } else {
      JudgeMaster(ds.uplink, ds.bridge, rs);
      JudgeBoth(b, UpOk(ds.uplink, rs), c, MasterOk(ds.uplink, ds.bridge, rs));
    }
  }

  lemma {:induction false} JudgeVlanBridge(ds: Desired, rs: Real)
    requires ScenarioOf(ds.scenario) == VlanBridge
    ensures Judges(ScenarioReport(ds, rs),
                   BridgePartOk(ds, rs) && UpOk(ds.uplink, rs) && PortsOk(ds.ports, ds.bridge, rs) && VlanOk(ds, rs))
  {
    hide Judges, BridgeReport, CheckUplink, CheckPorts, CheckVlan, BridgePartOk, UpOk, PortsOk, VlanOk;
    var a, b := BridgeReport(ds, rs), CheckUplink(ds, rs);
    var c, d := CheckPorts(ds.ports, ds.bridge, rs), CheckVlan(ds, rs);
    JudgeBridgePart(ds, rs);
    JudgeUplink(ds, rs);
    JudgePorts(ds.ports, ds.bridge, rs);
    JudgeVlan(ds, rs);
    JudgeBoth(a, BridgePartOk(ds, rs), b, UpOk(ds.uplink, rs));
    JudgeBoth(a + b, BridgePartOk(ds, rs) && UpOk(ds.uplink, rs), c, PortsOk(ds.ports, ds.bridge, rs));
    JudgeBoth(a + b + c, BridgePartOk(ds, rs) && UpOk(ds.uplink, rs) && PortsOk(ds.ports, ds.bridge, rs), d,
              VlanOk(ds, rs));
  }

  lemma {:induction false} JudgeWgVxlanBridge(ds: Desired, rs: Real)
    requires ScenarioOf(ds.scenario) == WgVxlanBridge
    ensures Judges(ScenarioReport(ds, rs),
                   BridgePartOk(ds, rs) && (ds.uplink != "" ==> UpOk(ds.uplink, rs)) && PortsOk(ds.ports, ds.bridge, rs)
                   && WgOk(ds, rs) && VxlanOk(ds, rs))
  {
    hide Judges, BridgeReport, CheckUplink, CheckPorts, CheckVxlan, CheckWg, CheckWgPeerRoute, BridgePartOk, UpOk,
         PortsOk, VxlanOk, WgOk;
    var a, c := BridgeReport(ds, rs), CheckPorts(ds.ports, ds.bridge, rs);
    var b: Report := if ds.uplink != "" then CheckUplink(ds, rs) else [];
    var d, e, f := CheckWgPeerRoute(ds, rs), CheckWg(ds, rs), CheckVxlan(ds, rs);
    var up := ds.uplink != "" ==> UpOk(ds.uplink, rs);
    JudgeBridgePart(ds, rs);
    JudgeUplink(ds, rs);
    JudgeLines([]);
    JudgePorts(ds.ports, ds.bridge, rs);
    JudgeWg(ds, rs);
    JudgeVxlan(ds, rs);
    JudgeBoth(a, BridgePartOk(ds, rs), b, up);
    JudgeBoth(a + b, BridgePartOk(ds, rs) && up, c, PortsOk(ds.ports, ds.bridge, rs));
    JudgeBoth(a + b + c, BridgePartOk(ds, rs) && up && PortsOk(ds.ports, ds.bridge, rs), d + e, WgOk(ds, rs));
    JudgeBoth(a + b + c + (d + e), BridgePartOk(ds, rs) && up && PortsOk(ds.ports, ds.bridge, rs) && WgOk(ds, rs),
              f, VxlanOk(ds, rs));
    assert a + b + c + d + e + f == a + b + c + (d + e) + f;
  }

  /** The report misses nothing exactly when the desired state is satisfied, and then asks for nothing to be done. */
  lemma {:induction false} JudgeState(ds: Desired, rs: Real)
    requires !ScenarioOf(ds.scenario).Unsupported?
    ensures Judges(StateReport(ds, rs), Satisfied(ds, rs))
  {
    hide Judges, ScenarioReport, CheckRoutes, RoutesOk, BridgePartOk, UpOk, MasterOk, PortsOk, VlanOk, VxlanOk, WgOk;
    JudgeRoutes(ds.routes, rs);
    match ScenarioOf(ds.scenario)
    case OnlyUplink =>
      JudgeUplink(ds, rs);
      OnlyUplinkReport(ds, rs);
      JudgeBoth(ScenarioReport(ds, rs), UpOk(ds.uplink, rs), CheckRoutes(ds.routes, rs), RoutesOk(ds.routes, rs));
    case UplinkBridge =>
      JudgeUplinkBridge(ds, rs);
      JudgeBoth(ScenarioReport(ds, rs),
                BridgePartOk(ds, rs) && UpOk(ds.uplink, rs) && MasterOk(ds.uplink, ds.bridge, rs)
                && PortsOk(ds.ports, ds.bridge, rs),
                CheckRoutes(ds.routes, rs), RoutesOk(ds.routes, rs));
    case VlanBridge =>
      JudgeVlanBridge(ds, rs);
      JudgeBoth(ScenarioReport(ds, rs),
                BridgePartOk(ds, rs) && UpOk(ds.uplink, rs) && PortsOk(ds.ports, ds.bridge, rs) && VlanOk(ds, rs),
                CheckRoutes(ds.routes, rs), RoutesOk(ds.routes, rs));
    case WgVxlanBridge =>
      JudgeWgVxlanBridge(ds, rs);
      JudgeBoth(ScenarioReport(ds, rs),
                BridgePartOk(ds, rs) && (ds.uplink != "" ==> UpOk(ds.uplink, rs)) && PortsOk(ds.ports, ds.bridge, rs)
                && WgOk(ds, rs) && VxlanOk(ds, rs),
                CheckRoutes(ds.routes, rs), RoutesOk(ds.routes, rs));
  }

  lemma {:induction false} OnlyUplinkReport(ds: Desired, rs: Real)
    requires ScenarioOf(ds.scenario) == OnlyUplink
    ensures ScenarioReport(ds, rs) == CheckUplink(ds, rs)
  {
  }
}
