/** Which trees are desired states: exactly those that `yaml.c` loads. */
module DesiredRefusals {
  import opened Wrappers
  import opened CfgTree
  import opened Strtoul
  import opened DesiredTree
  import N = NetState

  // What a tree has under a name.

  predicate Lacks(t: Tree, key: string) {
    Child(t, key) == None
  }

  predicate HasText(t: Tree, key: string) {
    Child(t, key).Some? && Child(t, key).value.Str?
  }

  predicate MayText(t: Tree, key: string) {
    Lacks(t, key) || HasText(t, key)
  }

  predicate HasSection(t: Tree, key: string) {
    Child(t, key).Some? && Child(t, key).value.Obj?
  }

  function SectionOf(t: Tree, key: string): Tree
    requires HasSection(t, key)
  {
    Child(t, key).value
  }

  /** A list that is not there, or not too long. */
  predicate MayList(t: Tree, key: string, max: nat) {
    Lacks(t, key) || (Child(t, key).value.Arr? && |Child(t, key).value.items| <= max)
  }

  predicate Lists(t: Tree, key: string) {
    Child(t, key).Some? && Child(t, key).value.Arr? && Child(t, key).value.items != []
  }

  /** The text, as far as it fits, and nothing where there is none. */
  function Says(t: Tree, key: string, size: nat): string
    requires size > 0
  {
    if HasText(t, key) then Copy(Child(t, key).value.val, size) else ""
  }

  /** A number of 32 bits, in one of the ways in which it can be spelled. */
  ghost predicate HasNumber(t: Tree, key: string) {
    && HasText(t, key)
    && exists sp :: SpellsU32(sp, Child(t, key).value.val)
  }

  predicate SpellsU32(sp: Spelling, text: string) {
    && SpellingOk(sp) && SpellingText(sp) == text
    && ValueIn(sp.digits, Radix(sp.base)) < ULONG && Number(sp) < 0x1_0000_0000
  }

  // The sections of a state.

  /** The address, the gateway and the servers go with the mode, which may be left to the address to tell. */
  predicate ModeFits(mode: string, addr: bool, cmd: bool, more: bool) {
    && (mode == "" || mode == "static" || mode == "dhcp" || mode == "none")
    && (mode == "static" ==> addr) && (mode == "dhcp" ==> !addr && cmd) && (mode == "none" ==> !addr)
    && (more ==> addr)
  }

  predicate BridgeFits(t: Tree) {
    && HasSection(t, "bridge")
    && var br := SectionOf(t, "bridge");
       && HasText(br, "name") && MayText(br, "addr") && MayText(br, "gateway") && MayText(br, "addr_mode")
       && MayText(br, "dhcp_cmd") && MayList(br, "dns", 4) && MayList(br, "ports", 32)
       && ModeFits(Says(br, "addr_mode", 16), Says(br, "addr", N.ADDR_SIZE) != "",
                   Says(br, "dhcp_cmd", N.DHCP_SIZE) != "",
                   Says(br, "gateway", N.IP_SIZE) != "" || Lists(br, "dns"))
  }

  function BridgeName(t: Tree): string {
    if HasSection(t, "bridge") then Says(SectionOf(t, "bridge"), "name", N.NAME_SIZE) else ""
  }

  predicate UplinkFits(t: Tree) {
    HasSection(t, "uplink") && HasText(SectionOf(t, "uplink"), "ifname")
  }

  function UplinkName(t: Tree): string {
    if HasSection(t, "uplink") then Says(SectionOf(t, "uplink"), "ifname", N.NAME_SIZE) else ""
  }

  /** A name that is given is that name. */
  predicate Agrees(t: Tree, key: string, name: string) {
    MayText(t, key) && (Says(t, key, N.NAME_SIZE) != "" ==> Says(t, key, N.NAME_SIZE) == name)
  }

  /** A vlan is over the uplink and in the bridge. */
  ghost predicate VlanFits(t: Tree) {
    && HasSection(t, "vlan")
    && var vl := SectionOf(t, "vlan");
       && HasText(vl, "ifname") && HasNumber(vl, "id")
       && Agrees(vl, "link", UplinkName(t)) && Agrees(vl, "bridge", BridgeName(t))
  }

  /** A vxlan is over the tunnel and in the bridge. */
  ghost predicate TunnelFits(t: Tree) {
    && HasSection(t, "wg") && HasSection(t, "vxlan")
    && var wg := SectionOf(t, "wg");
       var vx := SectionOf(t, "vxlan");
       && HasText(wg, "ifname") && HasText(wg, "peer_ip") && HasText(wg, "route_dev")
       && HasText(vx, "ifname") && HasNumber(vx, "vni") && HasText(vx, "remote")
       && Agrees(vx, "dev", Says(wg, "ifname", N.NAME_SIZE))
       && HasText(vx, "bridge") && Says(vx, "bridge", N.NAME_SIZE) == BridgeName(t)
  }

  predicate RouteFits(t: Tree) {
    t.Obj? && HasText(t, "dst") && HasText(t, "dev") && MayText(t, "via")
  }

  predicate RoutesFit(t: Tree) {
    || Lacks(t, "routes")
    || (&& HasSection(t, "routes")
        && var fields := SectionOf(t, "routes").fields;
           |fields| <= 64 && forall i :: 0 <= i < |fields| ==> RouteFits(fields[i].value))
  }

  /** Whether the tree has what its scenario needs. */
  ghost predicate StateFits(t: Tree) {
    && HasText(t, "scenario") && RoutesFit(t)
    && var s := Says(t, "scenario", N.SCENARIO_SIZE);
       || (s in {"only_uplink", "only_uplink_iface"} && UplinkFits(t))
       || (s in {"uplink_bridge", "uplink_in_bridge"} && BridgeFits(t) && UplinkFits(t))
       || (s in {"vlan_bridge", "vlan_in_bridge"} && BridgeFits(t) && UplinkFits(t) && VlanFits(t))
       || (s == "wg_vxlan_bridge" && BridgeFits(t) && (Lacks(t, "uplink") || UplinkFits(t)) && TunnelFits(t))
  }

  // What the loader makes of them.

  lemma {:induction false} StrRead(t: Tree, key: string, size: nat)
    requires size > 0
    ensures GetStr(t, key, size, true) == if HasText(t, key) then Ok(Says(t, key, size)) else Err(EINVAL)
    ensures GetStr(t, key, size, false) == if MayText(t, key) then Ok(Says(t, key, size)) else Err(EINVAL)
  {
    hide Child;
  }

  lemma {:induction false} NumberRead(t: Tree, key: string)
    ensures GetU32(t, key).Ok? <==> HasNumber(t, key)
  {
    hide Child, ParseU32, SpellsU32;
    if HasText(t, key) {
      var text := Child(t, key).value.val;
      if ParseU32(text).Some? {
        var sp := SpellingOf(text);
        SpellingIs(sp, text);
        assert SpellsU32(sp, text);
      }
      forall sp | SpellsU32(sp, text)
        ensures ParseU32(text).Some?
      {
        SpellsSome(sp, text);
      }
    }
  }

  lemma {:induction false} SpellingIs(sp: Spelling, text: string)
    requires SpellingOk(sp) && SpellingText(sp) == text && ParseU32(text).Some?
    ensures SpellsU32(sp, text)
  {
    hide ParseU32, ValueIn;
    SpellingRead(sp);
  }

  lemma {:induction false} SpellsSome(sp: Spelling, text: string)
    requires SpellsU32(sp, text)
    ensures ParseU32(text).Some?
  {
    hide ParseU32, ValueIn;
    SpellingRead(sp);
  }

  lemma {:induction false} ListRead(t: Tree, key: string, size: nat, max: nat)
    requires size > 0
    ensures GetArr(t, key, size, max).Ok? <==> MayList(t, key, max)
    ensures MayList(t, key, max) ==> (GetArr(t, key, size, max).value != [] <==> Lists(t, key))
  {
    hide Child;
  }

  lemma {:induction false} SectionRead(t: Tree, key: string)
    ensures GetObj(t, key) == if HasSection(t, key) then Ok(SectionOf(t, key)) else Err(EINVAL)
  {
    hide Child;
  }

  lemma {:induction false} ModeRead(mode: string, addr: string, cmd: string, gateway: string, dns: seq<string>)
    ensures ModeFits(mode, addr != "", cmd != "", gateway != "" || dns != []) <==>
              && ModeOf(mode, addr, cmd).Ok?
              && (gateway != "" ==> ModeOf(mode, addr, cmd).value.Static?)
              && (dns != [] ==> ModeOf(mode, addr, cmd).value.Static?)
  {
    assert "static"[0] != "dhcp"[0] && "static"[0] != "none"[0] && "dhcp"[0] != "none"[0];
  }

  lemma {:induction false} BridgeRead(t: Tree, ds: N.Desired)
    ensures LoadBridge(t, ds).Ok? <==> BridgeFits(t)
    ensures BridgeFits(t) ==> LoadBridge(t, ds).value.bridge == BridgeName(t)
    ensures BridgeFits(t) ==> LoadBridge(t, ds).value.uplink == ds.uplink
  {
    hide Child, HasText, MayText, MayList, Lists, Says, GetStr, GetArr, GetObj, HasSection, SectionOf, ModeFits, ModeOf;
    SectionRead(t, "bridge");
    if HasSection(t, "bridge") {
      var br := SectionOf(t, "bridge");
      StrRead(br, "name", N.NAME_SIZE);
      StrRead(br, "addr", N.ADDR_SIZE);
      StrRead(br, "gateway", N.IP_SIZE);
      ListRead(br, "dns", N.IP_SIZE, N.DNS_MAX);
      StrRead(br, "addr_mode", 16);
      StrRead(br, "dhcp_cmd", N.DHCP_SIZE);
      ListRead(br, "ports", N.NAME_SIZE, N.PORT_MAX);
      if MayList(br, "dns", N.DNS_MAX) {
        ModeRead(Says(br, "addr_mode", 16), Says(br, "addr", N.ADDR_SIZE), Says(br, "dhcp_cmd", N.DHCP_SIZE),
                 Says(br, "gateway", N.IP_SIZE), GetArr(br, "dns", N.IP_SIZE, N.DNS_MAX).value);
      }
    }
  }

  lemma {:induction false} UplinkRead(t: Tree, ds: N.Desired)
    ensures LoadUplink(t, ds) == if UplinkFits(t) then Ok(ds.(uplink := UplinkName(t))) else Err(EINVAL)
  {
    hide Child, HasText, Says, GetStr, GetObj, HasSection, SectionOf;
    SectionRead(t, "uplink");
    if HasSection(t, "uplink") {
      StrRead(SectionOf(t, "uplink"), "ifname", N.NAME_SIZE);
    }
  }

  lemma {:induction false} VlanRead(t: Tree, ds: N.Desired)
    requires ds.uplink == UplinkName(t) && ds.bridge == BridgeName(t)
    ensures LoadVlan(t, ds).Ok? <==> VlanFits(t)
  {
    hide Child, HasText, MayText, Says, GetStr, GetU32, GetObj, HasSection, SectionOf, HasNumber, UplinkName,
         BridgeName;
    SectionRead(t, "vlan");
    if HasSection(t, "vlan") {
      var vl := SectionOf(t, "vlan");
      StrRead(vl, "ifname", N.NAME_SIZE);
      NumberRead(vl, "id");
      StrRead(vl, "link", N.NAME_SIZE);
      StrRead(vl, "bridge", N.NAME_SIZE);
    }
  }

  lemma {:induction false} TunnelRead(t: Tree, ds: N.Desired)
    requires ds.bridge == BridgeName(t)
    ensures LoadWgVxlan(t, ds).Ok? <==> TunnelFits(t)
  {
    hide Child, HasText, MayText, Says, GetStr, GetU32, GetObj, HasSection, SectionOf, HasNumber, BridgeName;
    SectionRead(t, "wg");
    SectionRead(t, "vxlan");
    if HasSection(t, "wg") && HasSection(t, "vxlan") {
      var wg, vx := SectionOf(t, "wg"), SectionOf(t, "vxlan");
      StrRead(wg, "ifname", N.NAME_SIZE);
      StrRead(wg, "peer_ip", N.IP_SIZE);
      StrRead(wg, "route_dev", N.NAME_SIZE);
      StrRead(vx, "ifname", N.NAME_SIZE);
      NumberRead(vx, "vni");
      StrRead(vx, "remote", N.IP_SIZE);
      StrRead(vx, "dev", N.NAME_SIZE);
      StrRead(vx, "bridge", N.NAME_SIZE);
    }
  }

  lemma {:induction false} RouteRead(t: Tree)
    ensures LoadRoute(t).Ok? <==> RouteFits(t)
  {
    hide Child, HasText, MayText, Says, GetStr;
    StrRead(t, "dst", N.ADDR_SIZE);
    StrRead(t, "dev", N.NAME_SIZE);
    StrRead(t, "via", N.IP_SIZE);
  }

  lemma {:induction false} RouteFieldsRead(fields: seq<Field>, n: nat)
    requires n <= 64
    ensures LoadRouteFields(fields, n).Ok? <==>
              n + |fields| <= 64 && forall i :: 0 <= i < |fields| ==> RouteFits(fields[i].value)
    decreases |fields|
  {
    hide LoadRoute, RouteFits;
    if fields != [] {
      RouteRead(fields[0].value);
      assert RouteFits(fields[0].value) ==> fields[0].value.Obj? by { RouteIsObj(fields[0].value); }
      assert fields == [fields[0]] + fields[1..];
      if n < 64 {
        RouteFieldsRead(fields[1..], n + 1);
      }
    }
  }

  lemma {:induction false} RouteIsObj(t: Tree)
    ensures RouteFits(t) ==> t.Obj?
  {
  }

  lemma {:induction false} RoutesRead(t: Tree, ds: N.Desired)
    ensures LoadRoutes(t, ds).Ok? <==> RoutesFit(t)
  {
    hide Child, RouteFits, LoadRouteFields;
    if HasSection(t, "routes") {
      RouteFieldsRead(SectionOf(t, "routes").fields, 0);
    }
  }

  lemma {:induction false} ScenarioRead(t: Tree, ds: N.Desired)
    requires ds.uplink == ""
    ensures LoadScenario(t, ds).Ok? <==>
              || (ds.scenario in {"only_uplink", "only_uplink_iface"} && UplinkFits(t))
              || (ds.scenario in {"uplink_bridge", "uplink_in_bridge"} && BridgeFits(t) && UplinkFits(t))
              || (ds.scenario in {"vlan_bridge", "vlan_in_bridge"} && BridgeFits(t) && UplinkFits(t) && VlanFits(t))
              || (&& ds.scenario == "wg_vxlan_bridge" && BridgeFits(t) && (Lacks(t, "uplink") || UplinkFits(t))
                  && TunnelFits(t))
  {
    hide Child, BridgeFits, UplinkFits, VlanFits, TunnelFits, LoadBridge, LoadUplink, LoadVlan, LoadWgVxlan, UplinkName,
         BridgeName;
    Scenarios(ds.scenario);
    BridgeRead(t, ds);
    UplinkRead(t, ds);
    if BridgeFits(t) {
      var a := LoadBridge(t, ds).value;
      UplinkRead(t, a);
      TunnelRead(t, a);
      if UplinkFits(t) {
        VlanRead(t, LoadUplink(t, a).value);
        TunnelRead(t, LoadUplink(t, a).value);
      }
    }
  }

  /** The scenarios have different names. */
  lemma {:induction false} Scenarios(s: string)
    ensures s in {"only_uplink", "only_uplink_iface"} ==>
              s !in {"uplink_bridge", "uplink_in_bridge", "vlan_bridge", "vlan_in_bridge", "wg_vxlan_bridge"}
    ensures s in {"uplink_bridge", "uplink_in_bridge"} ==> s !in {"vlan_bridge", "vlan_in_bridge", "wg_vxlan_bridge"}
    ensures s in {"vlan_bridge", "vlan_in_bridge"} ==> s != "wg_vxlan_bridge"
  {
    assert "only_uplink"[0] == "only_uplink_iface"[0] == 'o' && "uplink_bridge"[0] == "uplink_in_bridge"[0] == 'u';
    assert "vlan_bridge"[0] == "vlan_in_bridge"[0] == 'v' && "wg_vxlan_bridge"[0] == 'w';
  }

  /** A tree is loaded as a state if and only if it is one. */
  lemma {:induction false} StateRead(t: Tree)
    ensures LoadState(t).Ok? <==> StateFits(t)
  {
    hide Child, HasText, Says, GetStr, LoadScenario, LoadRoutes, RoutesFit, BridgeFits, UplinkFits, VlanFits,
         TunnelFits, Lacks;
    StrRead(t, "scenario", N.SCENARIO_SIZE);
    if HasText(t, "scenario") {
      var ds := BLANK.(scenario := Says(t, "scenario", N.SCENARIO_SIZE));
      ScenarioRead(t, ds);
      if LoadScenario(t, ds).Ok? {
        RoutesRead(t, LoadScenario(t, ds).value);
      }
    }
  }
}
