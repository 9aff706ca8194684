/** Desired states as configuration trees: the fields that `uci.c` prints and `yaml.c` reads. */
module DesiredTree {
  import opened Wrappers
  import opened CfgTree
  import opened Numerals
  import opened Strtoul
  import N = NetState

  /** A field that may be there. */
  datatype Entry = Entry(name: string, tree: Option<Tree>)

  /** The fields that are there. */
  function Build(entries: seq<Entry>): seq<Field> {
    if entries == [] then []
    else if entries[0].tree.Some? then [Field(entries[0].name, entries[0].tree.value)] + Build(entries[1..])
    else Build(entries[1..])
  }

  predicate NamesDiffer(entries: seq<Entry>) {
    forall i, j :: 0 <= i < j < |entries| ==> entries[i].name != entries[j].name
  }

  /** `cfg_child` */
  function Child(t: Tree, name: string): Option<Tree> {
    if t.Obj? && Find(t.fields, name) < |t.fields| then Some(t.fields[Find(t.fields, name)].value) else None
  }

  predicate Has(entries: seq<Entry>, name: string) {
    entries != [] && (entries[0].name == name || Has(entries[1..], name))
  }

  lemma {:induction false} BuildNames(entries: seq<Entry>)
    ensures forall k :: 0 <= k < |Build(entries)| ==> Has(entries, Build(entries)[k].name)
  {
    if entries != [] {
      BuildNames(entries[1..]);
      var rest := Build(entries[1..]);
      if entries[0].tree.Some? {
        assert forall k :: 1 <= k < |Build(entries)| ==> Build(entries)[k] == rest[k - 1];
      }
    }
  }

  lemma {:induction false} HasNot(entries: seq<Entry>, name: string)
    requires forall j :: 0 <= j < |entries| ==> entries[j].name != name
    ensures !Has(entries, name)
  {
    if entries != [] {
      assert forall j :: 0 <= j < |entries[1..]| ==> entries[1..][j] == entries[j + 1];
      HasNot(entries[1..], name);
    }
  }

  /** What is looked up is what was put there. */
  lemma {:induction false} ChildOfBuild(entries: seq<Entry>, i: nat)
    requires NamesDiffer(entries) && i < |entries|
    ensures Child(Obj(Build(entries)), entries[i].name) == entries[i].tree
    decreases |entries|
  {
    var rest := entries[1..];
    assert forall j :: 0 <= j < |rest| ==> rest[j] == entries[j + 1];
    if i == 0 {
      if entries[0].tree.None? {
        NotThere(rest, entries[0].name);
      }
    } else {
      ChildOfBuild(rest, i - 1);
    }
  }

  lemma {:induction false} NotThere(entries: seq<Entry>, name: string)
    requires forall j :: 0 <= j < |entries| ==> entries[j].name != name
    ensures Child(Obj(Build(entries)), name).None?
  {
    BuildNames(entries);
    HasNot(entries, name);
  }

  function Text(s: string): Option<Tree> {
    Some(Str(s))
  }

  /** A string that is printed only if it is not empty. */
  function Given(s: string): Option<Tree> {
    if s == "" then None else Some(Str(s))
  }

  function List(items: seq<string>): Option<Tree> {
    if items == [] then None else Some(Arr(items))
  }

  function Section(there: bool, entries: seq<Entry>): Option<Tree> {
    if there then Some(Obj(Build(entries))) else None
  }

  function ModeName(mode: N.AddrMode): string {
    match mode
    case NoAddr => "none"
    case Static => "static"
    case Dhcp => "dhcp"
  }

  function BridgeEntries(ds: N.Desired): seq<Entry> {
    var static_ := ds.addrMode.Static?;
    [Entry("name", Text(ds.bridge)), Entry("addr_mode", Text(ModeName(ds.addrMode))),
     Entry("addr", if static_ then Text(ds.addr) else None),
     Entry("gateway", if static_ then Given(ds.gateway) else None),
     Entry("dns", if static_ then List(ds.dns) else None),
     Entry("dhcp_cmd", if ds.addrMode.Dhcp? then Text(ds.dhcpCmd) else None),
     Entry("ports", List(ds.ports))]
  }

  function VlanEntries(ds: N.Desired): seq<Entry> {
    [Entry("ifname", Text(ds.vlan)), Entry("id", Text(Decimal(ds.vlanId))),
     Entry("link", Given(ds.vlanLink)), Entry("bridge", Given(ds.vlanBridge))]
  }

  function WgEntries(ds: N.Desired): seq<Entry> {
    [Entry("ifname", Text(ds.wg)), Entry("peer_ip", Text(ds.wgPeer)), Entry("route_dev", Text(ds.wgRouteDev))]
  }

  function VxlanEntries(ds: N.Desired): seq<Entry> {
    [Entry("ifname", Text(ds.vxlan)), Entry("vni", Text(Decimal(ds.vxlanVni))), Entry("remote", Text(ds.vxlanRemote)),
     Entry("dev", Given(ds.vxlanDev)), Entry("bridge", Text(ds.vxlanBridge))]
  }

  function RouteEntries(rt: N.DesiredRoute): seq<Entry> {
    [Entry("dst", Text(rt.dst)), Entry("dev", Text(rt.dev)),
     Entry("via", if rt.via.Some? then Text(rt.via.value) else None)]
  }

  function RouteName(i: nat): string {
    "r" + Decimal(i)
  }

  /** The routes, named by their numbers from `i` on. */
  function RouteFields(routes: seq<N.DesiredRoute>, i: nat): seq<Field> {
    if routes == [] then []
    else [Field(RouteName(i), Obj(Build(RouteEntries(routes[0]))))] + RouteFields(routes[1..], i + 1)
  }

  function StateEntries(ds: N.Desired): seq<Entry> {
    [Entry("scenario", Text(ds.scenario)),
     Entry("bridge", Section(ds.bridge != "", BridgeEntries(ds))),
     Entry("uplink", Section(ds.uplink != "", [Entry("ifname", Text(ds.uplink))])),
     Entry("vlan", Section(ds.vlan != "", VlanEntries(ds))),
     Entry("wg", Section(ds.wg != "", WgEntries(ds))),
     Entry("vxlan", Section(ds.vxlan != "", VxlanEntries(ds))),
     Entry("routes", if ds.routes == [] then None else Some(Obj(RouteFields(ds.routes, 0))))]
  }

  /** The tree of a desired state. */
  function StateTree(ds: N.Desired): Tree {
    Obj(Build(StateEntries(ds)))
  }

  // `yaml.c`: reading a desired state back from a tree.

  /** `cpy`: what fits an array of that size. */
  function Copy(s: string, size: nat): string
    requires size > 0
  {
    if |s| < size then s else s[..size - 1]
  }

  /** `get_str` */
  function GetStr(t: Tree, key: string, size: nat, required: bool): Result<string>
    requires size > 0
  {
    match Child(t, key)
    case None => if required then Err(EINVAL) else Ok("")
    case Some(Str(s)) => Ok(Copy(s, size))
    case Some(_) => Err(EINVAL)
  }

  /** `get_u32` */
  function GetU32(t: Tree, key: string): Result<nat> {
    match Child(t, key)
    case Some(Str(s)) => (match ParseU32(s) case None => Err(EINVAL) case Some(v) => Ok(v))
    case _ => Err(EINVAL)
  }

  function CopyAll(items: seq<string>, size: nat): seq<string>
    requires size > 0
  {
    if items == [] then [] else [Copy(items[0], size)] + CopyAll(items[1..], size)
  }

  /** `get_str_arr` and `get_dns_arr` */
  function GetArr(t: Tree, key: string, size: nat, max: nat): Result<seq<string>>
    requires size > 0
  {
    match Child(t, key)
    case None => Ok([])
    case Some(Arr(items)) => if |items| > max then Err(E2BIG) else Ok(CopyAll(items, size))
    case Some(_) => Err(EINVAL)
  }

  function Check(holds: bool): Result<()> {
    if holds then Ok(()) else Err(EINVAL)
  }

  /** The state that loading starts from. */
  const BLANK := N.Desired("", "", N.NoAddr, "", "", [], "", [], "", "", 0, "", "", "", "", "", "", 0, "", "", "", [])

  /** An object of that name, which has to be there. */
  function GetObj(t: Tree, key: string): Result<Tree> {
    match Child(t, key)
    case Some(Obj(fields)) => Ok(Obj(fields))
    case _ => Err(EINVAL)
  }

  /** The address mode by its name, and by the address where no name is given. */
  function ModeOf(mode: string, addr: string, cmd: string): Result<N.AddrMode> {
    if mode == "" then Ok(if addr != "" then N.Static else N.NoAddr)
    else if mode == "static" then if addr == "" then Err(EINVAL) else Ok(N.Static)
    else if mode == "dhcp" then if addr != "" || cmd == "" then Err(EINVAL) else Ok(N.Dhcp)
    else if mode == "none" then if addr != "" then Err(EINVAL) else Ok(N.NoAddr)
    else Err(EINVAL)
  }

  /** `load_bridge` */
  function LoadBridge(t: Tree, ds: N.Desired): Result<N.Desired> {
    var br :- GetObj(t, "bridge");
    var name :- GetStr(br, "name", N.NAME_SIZE, true);
    var addr :- GetStr(br, "addr", N.ADDR_SIZE, false);
    var gateway :- GetStr(br, "gateway", N.IP_SIZE, false);
    var dns :- GetArr(br, "dns", N.IP_SIZE, N.DNS_MAX);
    var modeName :- GetStr(br, "addr_mode", 16, false);
    var cmd :- GetStr(br, "dhcp_cmd", N.DHCP_SIZE, false);
    var mode :- ModeOf(modeName, addr, cmd);
    var _ :- Check(gateway != "" ==> mode.Static?);
    var _ :- Check(dns != [] ==> mode.Static?);
    var ports :- GetArr(br, "ports", N.NAME_SIZE, N.PORT_MAX);
    Ok(ds.(bridge := name, addrMode := mode, addr := addr, gateway := gateway, dns := dns, dhcpCmd := cmd,
           ports := ports))
  }

  /** `load_uplink` */
  function LoadUplink(t: Tree, ds: N.Desired): Result<N.Desired> {
    var up :- GetObj(t, "uplink");
    var name :- GetStr(up, "ifname", N.NAME_SIZE, true);
    Ok(ds.(uplink := name))
  }

  /** `load_vlan` */
  function LoadVlan(t: Tree, ds: N.Desired): Result<N.Desired> {
    var vl :- GetObj(t, "vlan");
    var name :- GetStr(vl, "ifname", N.NAME_SIZE, true);
    var id :- GetU32(vl, "id");
    var link :- GetStr(vl, "link", N.NAME_SIZE, false);
    var bridge :- GetStr(vl, "bridge", N.NAME_SIZE, false);
    var theLink := if link == "" then ds.uplink else link;
    var theBridge := if bridge == "" then ds.bridge else bridge;
    var _ :- Check(theLink == ds.uplink);
    var _ :- Check(theBridge == ds.bridge);
    Ok(ds.(vlan := name, vlanId := id, vlanLink := theLink, vlanBridge := theBridge))
  }

  /** `load_wg_vxlan` */
  function LoadWgVxlan(t: Tree, ds: N.Desired): Result<N.Desired> {
    var wg :- GetObj(t, "wg");
    var vx :- GetObj(t, "vxlan");
    var wgName :- GetStr(wg, "ifname", N.NAME_SIZE, true);
    var peer :- GetStr(wg, "peer_ip", N.IP_SIZE, true);
    var routeDev :- GetStr(wg, "route_dev", N.NAME_SIZE, true);
    var name :- GetStr(vx, "ifname", N.NAME_SIZE, true);
    var vni :- GetU32(vx, "vni");
    var remote :- GetStr(vx, "remote", N.IP_SIZE, true);
    var dev :- GetStr(vx, "dev", N.NAME_SIZE, false);
    var bridge :- GetStr(vx, "bridge", N.NAME_SIZE, true);
    var _ :- Check(dev != "" ==> dev == wgName);
    var _ :- Check(bridge == ds.bridge);
    Ok(ds.(wg := wgName, wgPeer := peer, wgRouteDev := routeDev,
           vxlan := name, vxlanVni := vni, vxlanRemote := remote, vxlanDev := dev, vxlanBridge := bridge))
  }

  function LoadRoute(t: Tree): Result<N.DesiredRoute> {
    var _ :- Check(t.Obj?);
    var dst :- GetStr(t, "dst", N.ADDR_SIZE, true);
    var dev :- GetStr(t, "dev", N.NAME_SIZE, true);
    var via :- GetStr(t, "via", N.IP_SIZE, false);
    Ok(N.DesiredRoute(dst, if via == "" then None else Some(via), dev))
  }

  /** The routes from the `n`-th on. */
  function LoadRouteFields(fields: seq<Field>, n: nat): Result<seq<N.DesiredRoute>>
    decreases |fields|
  {
    if fields == [] then Ok([])
    else if !fields[0].value.Obj? then Err(EINVAL)
    else if n >= N.ROUTE_MAX then Err(E2BIG)
    else
      var first :- LoadRoute(fields[0].value);
      var rest :- LoadRouteFields(fields[1..], n + 1);
      Ok([first] + rest)
  }

  /** `load_routes` */
  function LoadRoutes(t: Tree, ds: N.Desired): Result<N.Desired> {
    match Child(t, "routes")
    case None => Ok(ds)
    case Some(Obj(fields)) =>
      var routes :- LoadRouteFields(fields, 0);
      Ok(ds.(routes := routes))
    case Some(_) => Err(EINVAL)
  }

  predicate Is(scenario: string, a: string, b: string) {
    scenario == a || scenario == b
  }

  function LoadScenario(t: Tree, ds: N.Desired): Result<N.Desired> {
    if Is(ds.scenario, "only_uplink", "only_uplink_iface") then LoadUplink(t, ds)
    else if Is(ds.scenario, "uplink_bridge", "uplink_in_bridge") then
      var a :- LoadBridge(t, ds);
      LoadUplink(t, a)
    else if Is(ds.scenario, "vlan_bridge", "vlan_in_bridge") then
      var a :- LoadBridge(t, ds);
      var b :- LoadUplink(t, a);
      LoadVlan(t, b)
    else if ds.scenario == "wg_vxlan_bridge" then
      var a :- LoadBridge(t, ds);
      var b :- if Child(t, "uplink").Some? then LoadUplink(t, a) else Ok(a);
      LoadWgVxlan(t, b)
    else Err(EINVAL)
  }

  /** `load_state` */
  function LoadState(t: Tree): Result<N.Desired> {
    var scenario :- GetStr(t, "scenario", N.SCENARIO_SIZE, true);
    var ds :- LoadScenario(t, BLANK.(scenario := scenario));
    LoadRoutes(t, ds)
  }

  /** The states from the `n`-th on. */
  function LoadStates(fields: seq<Field>, n: nat): Result<seq<N.Desired>>
    decreases |fields|
  {
    if fields == [] then Ok([])
    else if !fields[0].value.Obj? then Err(EINVAL)
    else if n >= N.STATE_MAX then Err(E2BIG)
    else
      var first :- LoadState(fields[0].value);
      var rest :- LoadStates(fields[1..], n + 1);
      Ok([first] + rest)
  }

  /** `yaml_load_desired_set` on a tree that is loaded. */
  function LoadSet(t: Tree): Result<seq<N.Desired>> {
    if Child(t, "scenario").Some? then
      var ds :- LoadState(t);
      Ok([ds])
    else
      var states :- GetObj(t, "state");
      var all :- LoadStates(states.fields, 0);
      var _ :- Check(all != []);
      Ok(all)
  }

  // What is read back from the tree of a state.

  predicate AllShort(items: seq<string>, size: nat) {
    forall i :: 0 <= i < |items| ==> |items[i]| < size
  }

  /** The fields fit the arrays they are kept in. */
  predicate Fits(ds: N.Desired) {
    && |ds.scenario| < N.SCENARIO_SIZE
    && |ds.bridge| < N.NAME_SIZE && |ds.addr| < N.ADDR_SIZE && |ds.gateway| < N.IP_SIZE && |ds.dhcpCmd| < N.DHCP_SIZE
    && |ds.dns| <= N.DNS_MAX && AllShort(ds.dns, N.IP_SIZE) && |ds.ports| <= N.PORT_MAX
    && AllShort(ds.ports, N.NAME_SIZE)
    && |ds.uplink| < N.NAME_SIZE
    && |ds.vlan| < N.NAME_SIZE && |ds.vlanLink| < N.NAME_SIZE && |ds.vlanBridge| < N.NAME_SIZE
    && ds.vlanId < 0x1_0000_0000
    && |ds.wg| < N.NAME_SIZE && |ds.wgPeer| < N.IP_SIZE && |ds.wgRouteDev| < N.NAME_SIZE
    && |ds.vxlan| < N.NAME_SIZE && |ds.vxlanRemote| < N.IP_SIZE && |ds.vxlanDev| < N.NAME_SIZE
    && |ds.vxlanBridge| < N.NAME_SIZE
    && ds.vxlanVni < 0x1_0000_0000
    && |ds.routes| <= N.ROUTE_MAX && forall i :: 0 <= i < |ds.routes| ==> RouteOk(ds.routes[i])
  }

  /** A route fits, and has no empty next hop. */
  predicate RouteOk(rt: N.DesiredRoute) {
    |rt.dst| < N.ADDR_SIZE && |rt.dev| < N.NAME_SIZE && (rt.via.Some? ==> 0 < |rt.via.value| < N.IP_SIZE)
  }

  predicate NoBridge(ds: N.Desired) {
    && ds.bridge == "" && ds.addrMode.NoAddr? && ds.addr == "" && ds.gateway == "" && ds.dns == []
    && ds.dhcpCmd == "" && ds.ports == []
  }

  /** A bridge with the fields of its address mode and no others. */
  predicate BridgeTidy(ds: N.Desired) {
    && ds.bridge != ""
    && (ds.addrMode.Static? <==> ds.addr != "") && (ds.addrMode.Dhcp? <==> ds.dhcpCmd != "")
    && (!ds.addrMode.Static? ==> ds.gateway == "" && ds.dns == [])
  }

  predicate NoVlan(ds: N.Desired) {
    ds.vlan == "" && ds.vlanId == 0 && ds.vlanLink == "" && ds.vlanBridge == ""
  }

  predicate NoWg(ds: N.Desired) {
    && ds.wg == "" && ds.wgPeer == "" && ds.wgRouteDev == ""
    && ds.vxlan == "" && ds.vxlanVni == 0 && ds.vxlanRemote == "" && ds.vxlanDev == "" && ds.vxlanBridge == ""
  }

  /** A state with what its scenario needs and nothing else. */
  predicate Tidy(ds: N.Desired) {
    if Is(ds.scenario, "only_uplink", "only_uplink_iface") then
      NoBridge(ds) && ds.uplink != "" && NoVlan(ds) && NoWg(ds)
    else if Is(ds.scenario, "uplink_bridge", "uplink_in_bridge") then
      BridgeTidy(ds) && ds.uplink != "" && NoVlan(ds) && NoWg(ds)
    else if Is(ds.scenario, "vlan_bridge", "vlan_in_bridge") then
      && BridgeTidy(ds) && ds.uplink != "" && NoWg(ds)
      && ds.vlan != "" && ds.vlanLink == ds.uplink && ds.vlanBridge == ds.bridge
    else if ds.scenario == "wg_vxlan_bridge" then
      && BridgeTidy(ds) && NoVlan(ds)
      && ds.wg != "" && ds.vxlan != "" && (ds.vxlanDev != "" ==> ds.vxlanDev == ds.wg) && ds.vxlanBridge == ds.bridge
    else false
  }

  lemma {:induction false} CopyAllShort(items: seq<string>, size: nat)
    requires size > 0 && AllShort(items, size)
    ensures CopyAll(items, size) == items
  {
    if items != [] {
      assert forall i :: 0 <= i < |items[1..]| ==> items[1..][i] == items[i + 1];
      CopyAllShort(items[1..], size);
    }
  }

  lemma {:induction false} BridgeNames(ds: N.Desired)
    ensures NamesDiffer(BridgeEntries(ds))
  {
    var e := BridgeEntries(ds);
    assert |"name"| == 4 && |"addr"| == 4 && |"ports"| == 5 && |"dns"| == 3 && |"gateway"| == 7;
    assert "name"[0] != "addr"[0];
    assert |"addr_mode"| == 9 && |"dhcp_cmd"| == 8;
  }

  lemma {:induction false} BridgeLoads(t: Tree, ds: N.Desired, d: N.Desired)
    requires Child(t, "bridge") == Some(Obj(Build(BridgeEntries(ds)))) && BridgeTidy(ds) && Fits(ds)
    ensures LoadBridge(t, d) ==
            Ok(d.(bridge := ds.bridge, addrMode := ds.addrMode, addr := ds.addr, gateway := ds.gateway, dns := ds.dns,
                  dhcpCmd := ds.dhcpCmd, ports := ds.ports))
  {
    hide Build, Child, NamesDiffer, CopyAll, AllShort;
    var e := BridgeEntries(ds);
    BridgeNames(ds);
    ChildOfBuild(e, 0);
    ChildOfBuild(e, 1);
    ChildOfBuild(e, 2);
    ChildOfBuild(e, 3);
    ChildOfBuild(e, 4);
    ChildOfBuild(e, 5);
    ChildOfBuild(e, 6);
    CopyAllShort(ds.dns, N.IP_SIZE);
    CopyAllShort(ds.ports, N.NAME_SIZE);
    ModesDiffer();
  }

  lemma {:induction false} ModesDiffer()
    ensures "none" != "" && "static" != "none" && "dhcp" != "none" && "static" != "dhcp" && "static" != ""
    ensures "dhcp" != ""
  {
    assert |"none"| == 4 && |"static"| == 6 && |"dhcp"| == 4 && "none"[0] != "dhcp"[0];
  }

  lemma {:induction false} UplinkLoads(t: Tree, ds: N.Desired, d: N.Desired)
    requires Child(t, "uplink") == Section(true, [Entry("ifname", Text(ds.uplink))]) && Fits(ds)
    ensures LoadUplink(t, d) == Ok(d.(uplink := ds.uplink))
  {
    hide Build, Child, AllShort;
    var e := [Entry("ifname", Text(ds.uplink))];
    ChildOfBuild(e, 0);
  }

  lemma {:induction false} VlanLoads(t: Tree, ds: N.Desired, d: N.Desired)
    requires Child(t, "vlan") == Section(true, VlanEntries(ds)) && Fits(ds)
    requires d.uplink == ds.uplink == ds.vlanLink != "" && d.bridge == ds.bridge == ds.vlanBridge != ""
    ensures LoadVlan(t, d) ==
            Ok(d.(vlan := ds.vlan, vlanId := ds.vlanId, vlanLink := ds.vlanLink, vlanBridge := ds.vlanBridge))
  {
    hide Build, Child, AllShort, ParseU32, Decimal;
    var e := VlanEntries(ds);
    assert |"ifname"| == 6 && |"id"| == 2 && |"link"| == 4 && |"bridge"| == 6 && "ifname"[0] != "bridge"[0];
    ChildOfBuild(e, 0);
    ChildOfBuild(e, 1);
    ChildOfBuild(e, 2);
    ChildOfBuild(e, 3);
    PrintedRead(ds.vlanId);
  }

  lemma {:induction false} WgVxlanLoads(t: Tree, ds: N.Desired, d: N.Desired)
    requires Child(t, "wg") == Section(true, WgEntries(ds)) && Child(t, "vxlan") == Section(true, VxlanEntries(ds))
    requires Fits(ds)
    requires d.bridge == ds.bridge == ds.vxlanBridge && (ds.vxlanDev != "" ==> ds.vxlanDev == ds.wg)
    ensures LoadWgVxlan(t, d) ==
            Ok(d.(wg := ds.wg, wgPeer := ds.wgPeer, wgRouteDev := ds.wgRouteDev, vxlan := ds.vxlan,
                  vxlanVni := ds.vxlanVni,
                  vxlanRemote := ds.vxlanRemote, vxlanDev := ds.vxlanDev, vxlanBridge := ds.vxlanBridge))
  {
    hide Build, Child, AllShort, ParseU32, Decimal, NamesDiffer;
    var w, v := WgEntries(ds), VxlanEntries(ds);
    WgNames(ds);
    ChildOfBuild(w, 0);
    ChildOfBuild(w, 1);
    ChildOfBuild(w, 2);
    ChildOfBuild(v, 0);
    ChildOfBuild(v, 1);
    ChildOfBuild(v, 2);
    ChildOfBuild(v, 3);
    ChildOfBuild(v, 4);
    PrintedRead(ds.vxlanVni);
  }

  lemma {:induction false} WgNames(ds: N.Desired)
    ensures NamesDiffer(WgEntries(ds)) && NamesDiffer(VxlanEntries(ds))
  {
    assert |"ifname"| == 6 && |"peer_ip"| == 7 && |"route_dev"| == 9;
    assert |"vni"| == 3 && |"dev"| == 3 && "vni"[0] != "dev"[0];
    assert |"remote"| == 6 && |"bridge"| == 6 && "ifname"[0] == 'i' && "remote"[0] == 'r' && "bridge"[0] == 'b';
  }

  lemma {:induction false} RouteLoads(rt: N.DesiredRoute)
    requires RouteOk(rt)
    ensures LoadRoute(Obj(Build(RouteEntries(rt)))) == Ok(rt)
  {
    hide Build, Child;
    var e := RouteEntries(rt);
    assert |"dst"| == 3 && |"dev"| == 3 && |"via"| == 3 && "dst"[1] != "dev"[1] && "via"[0] != "dst"[0]
           && "via"[0] != "dev"[0];
    ChildOfBuild(e, 0);
    ChildOfBuild(e, 1);
    ChildOfBuild(e, 2);
  }

  lemma {:induction false} RoutesLoad(routes: seq<N.DesiredRoute>, i: nat)
    requires i + |routes| <= N.ROUTE_MAX && forall j :: 0 <= j < |routes| ==> RouteOk(routes[j])
    ensures LoadRouteFields(RouteFields(routes, i), i) == Ok(routes)
    decreases |routes|
  {
    hide Build, LoadRoute, RouteOk;
    if routes != [] {
      RouteLoads(routes[0]);
      assert forall j :: 0 <= j < |routes[1..]| ==> routes[1..][j] == routes[j + 1];
      RoutesLoad(routes[1..], i + 1);
      var fields := RouteFields(routes, i);
      assert fields[1..] == RouteFields(routes[1..], i + 1);
      assert [routes[0]] + routes[1..] == routes;
    }
  }

  lemma {:induction false} StateNames(ds: N.Desired)
    ensures NamesDiffer(StateEntries(ds))
  {
    assert |"scenario"| == 8 && |"bridge"| == 6 && |"uplink"| == 6 && |"vlan"| == 4 && |"wg"| == 2 && |"vxlan"| == 5
           && |"routes"| == 6;
    assert "bridge"[0] == 'b' && "uplink"[0] == 'u' && "routes"[0] == 'r';
  }

  /** Where each part of a state is found. */
  lemma {:induction false} StateParts(ds: N.Desired)
    ensures var t := StateTree(ds);
            && Child(t, "scenario") == Text(ds.scenario)
            && Child(t, "bridge") == Section(ds.bridge != "", BridgeEntries(ds))
            && Child(t, "uplink") == Section(ds.uplink != "", [Entry("ifname", Text(ds.uplink))])
            && Child(t, "vlan") == Section(ds.vlan != "", VlanEntries(ds))
            && Child(t, "wg") == Section(ds.wg != "", WgEntries(ds))
            && Child(t, "vxlan") == Section(ds.vxlan != "", VxlanEntries(ds))
            && Child(t, "routes") == if ds.routes == [] then None else Some(Obj(RouteFields(ds.routes, 0)))
  {
    hide Build, Child, NamesDiffer, Section, BridgeEntries, VlanEntries, WgEntries, VxlanEntries, RouteFields;
    var e := StateEntries(ds);
    StateNames(ds);
    ChildOfBuild(e, 0);
    ChildOfBuild(e, 1);
    ChildOfBuild(e, 2);
    ChildOfBuild(e, 3);
    ChildOfBuild(e, 4);
    ChildOfBuild(e, 5);
    ChildOfBuild(e, 6);
  }

  /** A state that is in order is read back from its tree as it is. */
  lemma {:induction false} LoadStateTree(ds: N.Desired)
    requires Tidy(ds) && Fits(ds)
    ensures LoadState(StateTree(ds)) == Ok(ds)
  {
    hide Build, Child, LoadBridge, LoadUplink, LoadVlan, LoadWgVxlan, LoadRouteFields, RouteFields, BridgeEntries,
         VlanEntries, WgEntries, VxlanEntries, AllShort;
    var t := StateTree(ds);
    StateParts(ds);
    var d := BLANK.(scenario := ds.scenario);
    RoutesLoad(ds.routes, 0);
    if Is(ds.scenario, "only_uplink", "only_uplink_iface") {
      UplinkLoads(t, ds, d);
    } else {
      BridgeLoads(t, ds, d);
      var d1 := LoadBridge(t, d).value;
      if ds.uplink != "" {
        UplinkLoads(t, ds, d1);
      }
      var d2 := d1.(uplink := ds.uplink);
      if Is(ds.scenario, "vlan_bridge", "vlan_in_bridge") {
        VlanLoads(t, ds, d2);
      } else if ds.scenario == "wg_vxlan_bridge" {
        WgVxlanLoads(t, ds, d2);
      }
    }
  }

  // The loops of `yaml.c` over the children of a node.

  /** The rest of what a loop reads, after what it has read. */
  function Onto<T>(done: seq<T>, rest: Result<seq<T>>): Result<seq<T>> {
    match rest case Ok(more) => Ok(done + more) case Err(e) => Err(e)
  }

  lemma {:induction false} OntoMore<T>(done: seq<T>, x: T, rest: Result<seq<T>>)
    ensures Onto(done, Onto([x], rest)) == Onto(done + [x], rest)
    ensures Onto([], rest) == rest && Onto(done, Ok([])) == Ok(done)
  {
    assert rest.Ok? ==> done + ([x] + rest.value) == done + [x] + rest.value && [] + rest.value == rest.value;
    assert done + [] == done;
  }

  /** `get_str_arr` and `get_dns_arr`, item by item. */
  method ReadArr(t: Tree, key: string, size: nat, max: nat) returns (r: Result<seq<string>>)
    requires size > 0
    ensures r == GetArr(t, key, size, max)
  {
    var arr := Child(t, key);
    if arr.None? {
      return Ok([]);
    }
    if !arr.value.Arr? {
      return Err(EINVAL);
    }
    var items, out := arr.value.items, [];
    for n := 0 to |items|
      invariant n <= max && CopyAll(items, size) == out + CopyAll(items[n..], size)
    {
      if n >= max {
        return Err(E2BIG);
      }
      assert items[n..][1..] == items[n + 1..];
      out := out + [Copy(items[n], size)];
    }
    assert items[|items|..] == [] && out + [] == out;
    return Ok(out);
  }

  /** `load_routes`, route by route. */
  method ReadRoutes(t: Tree, ds: N.Desired) returns (r: Result<N.Desired>)
    ensures r == LoadRoutes(t, ds)
  {
    hide LoadRoute;
    var node := Child(t, "routes");
    if node.None? {
      return Ok(ds);
    }
    if !node.value.Obj? {
      return Err(EINVAL);
    }
    var fields: seq<Field>, routes := node.value.fields, [];
    OntoMore(routes, N.DesiredRoute("", None, ""), LoadRouteFields(fields, 0));
    assert fields[0..] == fields;
    for n := 0 to |fields|
      invariant LoadRouteFields(fields, 0) == Onto(routes, LoadRouteFields(fields[n..], n))
    {
      assert fields[n..][1..] == fields[n + 1..];
      if !fields[n].value.Obj? {
        return Err(EINVAL);
      }
      if n >= N.ROUTE_MAX {
        return Err(E2BIG);
      }
      var one := LoadRoute(fields[n].value);
      if one.Err? {
        return Err(one.error);
      }
      OntoMore(routes, one.value, LoadRouteFields(fields[n + 1..], n + 1));
      routes := routes + [one.value];
    }
    assert fields[|fields|..] == [];
    OntoMore(routes, N.DesiredRoute("", None, ""), Ok([]));
    return Ok(ds.(routes := routes));
  }

  /** The loop of `yaml_load_desired_set` over the states. */
  method ReadStates(fields: seq<Field>) returns (r: Result<seq<N.Desired>>)
    ensures r == LoadStates(fields, 0)
  {
    hide LoadState;
    var states := [];
    OntoMore(states, BLANK, LoadStates(fields, 0));
    assert fields[0..] == fields;
    for n := 0 to |fields|
      invariant LoadStates(fields, 0) == Onto(states, LoadStates(fields[n..], n))
    {
      assert fields[n..][1..] == fields[n + 1..];
      if !fields[n].value.Obj? {
        return Err(EINVAL);
      }
      if n >= N.STATE_MAX {
        return Err(E2BIG);
      }
      var one := LoadState(fields[n].value);
      if one.Err? {
        return Err(one.error);
      }
      OntoMore(states, one.value, LoadStates(fields[n + 1..], n + 1));
      states := states + [one.value];
    }
    assert fields[|fields|..] == [];
    OntoMore(states, BLANK, Ok([]));
    return Ok(states);
  }
}
