/** Printing a set of desired states as configuration lines (`uci.c`), and reading the lines back (`yaml.c`). */
module DesiredSet {
  import opened Wrappers
  import opened CfgTree
  import opened CfgPath
  import opened CfgDump
  import opened CfgText
  import opened DesiredTree
  import opened Numerals
  import N = NetState

  /** One printed line: `state.<id>.<tail> = "<val>"`. */
  function P(id: string, tail: string, val: string): string {
    Line("state." + id + "." + tail, val) + "\n"
  }

  function Tail(a: string, b: string): string {
    a + "." + b
  }

  function PGiven(id: string, tail: string, val: string): string {
    if val == "" then "" else P(id, tail, val)
  }

  function PList(id: string, tail: string, items: seq<string>): string {
    if items == [] then "" else P(id, tail, items[0]) + PList(id, tail, items[1..])
  }

  function PrintBridge(ds: N.Desired, id: string): string {
    if ds.bridge == "" then ""
    else
      P(id, Tail("bridge", "name"), ds.bridge) +
      (match ds.addrMode
       case Static =>
         P(id, Tail("bridge", "addr_mode"), "static") +
         (P(id, Tail("bridge", "addr"), ds.addr) +
          (PGiven(id, Tail("bridge", "gateway"), ds.gateway) +
           (PList(id, Tail("bridge", "dns[]"), ds.dns) + PList(id, Tail("bridge", "ports[]"), ds.ports))))
       case Dhcp =>
         P(id, Tail("bridge", "addr_mode"), "dhcp") +
         (P(id, Tail("bridge", "dhcp_cmd"), ds.dhcpCmd) + PList(id, Tail("bridge", "ports[]"), ds.ports))
       case NoAddr =>
         P(id, Tail("bridge", "addr_mode"), "none") + PList(id, Tail("bridge", "ports[]"), ds.ports))
  }

  function PrintUplink(ds: N.Desired, id: string): string {
    if ds.uplink == "" then "" else P(id, Tail("uplink", "ifname"), ds.uplink)
  }

  function PrintVlan(ds: N.Desired, id: string): string {
    if ds.vlan == "" then ""
    else
      P(id, Tail("vlan", "ifname"), ds.vlan) +
      (P(id, Tail("vlan", "id"), Decimal(ds.vlanId)) +
       (PGiven(id, Tail("vlan", "link"), ds.vlanLink) + PGiven(id, Tail("vlan", "bridge"), ds.vlanBridge)))
  }

  function PrintWg(ds: N.Desired, id: string): string {
    if ds.wg == "" then ""
    else
      P(id, Tail("wg", "ifname"), ds.wg) +
      (P(id, Tail("wg", "peer_ip"), ds.wgPeer) + P(id, Tail("wg", "route_dev"), ds.wgRouteDev))
  }

  function PrintVxlan(ds: N.Desired, id: string): string {
    if ds.vxlan == "" then ""
    else
      P(id, Tail("vxlan", "ifname"), ds.vxlan) +
      (P(id, Tail("vxlan", "vni"), Decimal(ds.vxlanVni)) +
       (P(id, Tail("vxlan", "remote"), ds.vxlanRemote) +
        (PGiven(id, Tail("vxlan", "dev"), ds.vxlanDev) + P(id, Tail("vxlan", "bridge"), ds.vxlanBridge))))
  }

  function PrintRoute(rt: N.DesiredRoute, id: string, i: nat): string {
    var at := Tail("routes", RouteName(i));
    P(id, Tail(at, "dst"), rt.dst) +
    (P(id, Tail(at, "dev"), rt.dev) + if rt.via.Some? then P(id, Tail(at, "via"), rt.via.value) else "")
  }

  function PrintRoutes(routes: seq<N.DesiredRoute>, id: string, i: nat): string {
    if routes == [] then "" else PrintRoute(routes[0], id, i) + PrintRoutes(routes[1..], id, i + 1)
  }

  /** `cfg_state`, once the state has its id. */
  function PrintState(ds: N.Desired, id: string): string {
    P(id, "scenario", ds.scenario) +
    (PrintBridge(ds, id) +
     (PrintUplink(ds, id) +
      (PrintVlan(ds, id) + (PrintWg(ds, id) + (PrintVxlan(ds, id) + PrintRoutes(ds.routes, id, 0))))))
  }

  // The printed lines are the lines of the tree.

  function Root(id: string): seq<Tok> {
    [Key("state"), Key(id)]
  }

  lemma {:induction false} RootShows(id: string)
    ensures Show(Root(id)) == "state." + id
  {
    assert Root(id) == [Key("state")] + [Key(id)];
    ShowOne("state");
    ShowSnoc([Key("state")], Key(id));
    assert "state" + ("." + id) == "state." + id;
  }

  lemma {:induction false} UnderShows(id: string, at: seq<Tok>, tail: string, b: string)
    requires at != [] && at[0].Key? && Show(at) == "state." + id + "." + tail
    ensures Show(at + [Key(b)]) == "state." + id + "." + Tail(tail, b)
  {
    ShowSnoc(at, Key(b));
    assert "state." + id + "." + tail + ("." + b) == "state." + id + "." + (tail + "." + b);
  }

  lemma {:induction false} FirstShows(id: string, a: string)
    ensures Show(Root(id) + [Key(a)]) == "state." + id + "." + a
  {
    RootShows(id);
    ShowSnoc(Root(id), Key(a));
    assert "state." + id + ("." + a) == "state." + id + "." + a;
  }

  /** The text of one field. */
  function EntryText(at: seq<Tok>, e: Entry): string {
    if e.tree.None? then "" else Lines(at + [Key(e.name)], Leaves(e.tree.value))
  }

  function EntriesText(at: seq<Tok>, es: seq<Entry>, i: nat): string
    decreases |es| - i
  {
    if i >= |es| then "" else EntryText(at, es[i]) + EntriesText(at, es, i + 1)
  }

  lemma {:induction false} EntriesLines(at: seq<Tok>, es: seq<Entry>, i: nat)
    requires i <= |es|
    ensures Lines(at, FieldLeaves(Build(es[i..]))) == EntriesText(at, es, i)
    decreases |es| - i
  {
    hide Lines, Leaves;
    if i == |es| {
      assert es[i..] == [];
      NoLines(at);
    } else {
      EntriesLines(at, es, i + 1);
      var e := es[i];
      var rest := Build(es[i + 1..]);
      assert es[i..][0] == e && es[i..][1..] == es[i + 1..];
      if e.tree.Some? {
        var f := Field(e.name, e.tree.value);
        assert ([f] + rest)[1..] == rest;
        LinesConcat(at, Under(f.name, Leaves(f.value)), FieldLeaves(rest));
        LinesUnder(at, f.name, Leaves(f.value));
      } else {
        assert "" + EntriesText(at, es, i + 1) == EntriesText(at, es, i + 1);
      }
    }
  }

  lemma {:induction false} NoLines(at: seq<Tok>)
    ensures Lines(at, FieldLeaves([])) == ""
  {
  }

  lemma {:induction false} SectionLines(at: seq<Tok>, es: seq<Entry>)
    ensures Lines(at, Leaves(Obj(Build(es)))) == EntriesText(at, es, 0)
  {
    hide Lines;
    EntriesLines(at, es, 0);
    assert es[0..] == es;
  }

  /** A string, and a list of strings, under a path that is written `state.<id>.<tail>`. */
  lemma {:induction false} TextLine(id: string, at: seq<Tok>, tail: string, b: string, val: string)
    requires at != [] && at[0].Key? && Show(at) == "state." + id + "." + tail
    ensures Lines(at + [Key(b)], Leaves(Str(val))) == P(id, Tail(tail, b), val)
  {
    hide Lines, Line, Show;
    UnderShows(id, at, tail, b);
    LinesOfString(at + [Key(b)], val);
  }

  lemma {:induction false} ListLines(id: string, at: seq<Tok>, tail: string, b: string, items: seq<string>)
    requires at != [] && at[0].Key? && Show(at) == "state." + id + "." + tail
    ensures Lines(at + [Key(b)], Leaves(Arr(items))) == PList(id, Tail(tail, b + "[]"), items)
  {
    hide Lines, Line, Show;
    UnderShows(id, at, tail, b);
    LinesOfItems(at + [Key(b)], items);
    ItemsArePrinted(id, Tail(tail, b), Tail(tail, b + "[]"), items);
  }

  lemma {:induction false} ItemsArePrinted(id: string, tail: string, listTail: string, items: seq<string>)
    requires listTail == tail + "[]"
    ensures ItemLines("state." + id + "." + tail, items) == PList(id, listTail, items)
  {
    hide Line;
    if items != [] {
      ItemsArePrinted(id, tail, listTail, items[1..]);
      assert "state." + id + "." + tail + "[]" == "state." + id + "." + (tail + "[]");
    }
  }

  /** A path that is written `state.<id>.<tail>`. */
  predicate Named(at: seq<Tok>, id: string, tail: string) {
    at != [] && at[0].Key? && Show(at) == "state." + id + "." + tail
  }

  lemma {:induction false} NamedFirst(id: string, a: string)
    ensures Named(Root(id) + [Key(a)], id, a)
  {
    FirstShows(id, a);
  }

  lemma {:induction false} TextText(at: seq<Tok>, id: string, tail: string, b: string, s: string)
    requires Named(at, id, tail)
    ensures EntryText(at, Entry(b, Text(s))) == P(id, Tail(tail, b), s)
    ensures EntryText(at, Entry(b, Given(s))) == PGiven(id, Tail(tail, b), s)
  {
    hide Lines, Show, P;
    TextLine(id, at, tail, b, s);
  }

  lemma {:induction false} ListText(at: seq<Tok>, id: string, tail: string, b: string, items: seq<string>)
    requires Named(at, id, tail)
    ensures EntryText(at, Entry(b, List(items))) == PList(id, Tail(tail, b + "[]"), items)
  {
    hide Lines, Show, P;
    ListLines(id, at, tail, b, items);
  }

  lemma {:induction false} NoText(at: seq<Tok>, b: string)
    ensures EntryText(at, Entry(b, None)) == ""
  {
  }

  lemma {:induction false} Texts7(at: seq<Tok>, es: seq<Entry>)
    requires |es| == 7
    ensures EntriesText(at, es, 0) ==
            EntryText(at, es[0]) + (EntryText(at, es[1]) + (EntryText(at, es[2]) + (EntryText(at, es[3]) +
            (EntryText(at, es[4]) + (EntryText(at, es[5]) + EntryText(at, es[6]))))))
  {
    hide EntryText;
    assert EntriesText(at, es, 7) == "" && EntryText(at, es[6]) + "" == EntryText(at, es[6]);
    assert EntriesText(at, es, 6) == EntryText(at, es[6]);
    assert EntriesText(at, es, 5) == EntryText(at, es[5]) + EntriesText(at, es, 6);
    assert EntriesText(at, es, 4) == EntryText(at, es[4]) + EntriesText(at, es, 5);
    assert EntriesText(at, es, 3) == EntryText(at, es[3]) + EntriesText(at, es, 4);
    assert EntriesText(at, es, 2) == EntryText(at, es[2]) + EntriesText(at, es, 3);
    assert EntriesText(at, es, 1) == EntryText(at, es[1]) + EntriesText(at, es, 2);
  }

  lemma {:induction false} Texts5(at: seq<Tok>, es: seq<Entry>)
    requires |es| == 5
    ensures EntriesText(at, es, 0) ==
            EntryText(at, es[0]) + (EntryText(at, es[1])
                                    + (EntryText(at, es[2]) + (EntryText(at, es[3]) + EntryText(at, es[4]))))
  {
    hide EntryText;
    assert EntriesText(at, es, 5) == "" && EntryText(at, es[4]) + "" == EntryText(at, es[4]);
    assert EntriesText(at, es, 4) == EntryText(at, es[4]);
    assert EntriesText(at, es, 3) == EntryText(at, es[3]) + EntriesText(at, es, 4);
    assert EntriesText(at, es, 2) == EntryText(at, es[2]) + EntriesText(at, es, 3);
    assert EntriesText(at, es, 1) == EntryText(at, es[1]) + EntriesText(at, es, 2);
  }

  lemma {:induction false} Texts4(at: seq<Tok>, es: seq<Entry>)
    requires |es| == 4
    ensures EntriesText(at, es, 0) ==
            EntryText(at, es[0]) + (EntryText(at, es[1]) + (EntryText(at, es[2]) + EntryText(at, es[3])))
  {
    hide EntryText;
    assert EntriesText(at, es, 4) == "" && EntryText(at, es[3]) + "" == EntryText(at, es[3]);
    assert EntriesText(at, es, 3) == EntryText(at, es[3]);
    assert EntriesText(at, es, 2) == EntryText(at, es[2]) + EntriesText(at, es, 3);
    assert EntriesText(at, es, 1) == EntryText(at, es[1]) + EntriesText(at, es, 2);
  }

  lemma {:induction false} Texts3(at: seq<Tok>, es: seq<Entry>)
    requires |es| == 3
    ensures EntriesText(at, es, 0) == EntryText(at, es[0]) + (EntryText(at, es[1]) + EntryText(at, es[2]))
  {
    hide EntryText;
    assert EntriesText(at, es, 3) == "" && EntryText(at, es[2]) + "" == EntryText(at, es[2]);
    assert EntriesText(at, es, 2) == EntryText(at, es[2]);
    assert EntriesText(at, es, 1) == EntryText(at, es[1]) + EntriesText(at, es, 2);
  }

  lemma {:induction false} BridgeText(ds: N.Desired, id: string)
    ensures EntryText(Root(id), Entry("bridge", Section(ds.bridge != "", BridgeEntries(ds)))) == PrintBridge(ds, id)
  {
    hide Lines, Show, P, Named, EntriesText, Build, PList, PGiven;
    if ds.bridge != "" {
      var at, e := Root(id) + [Key("bridge")], BridgeEntries(ds);
      NamedFirst(id, "bridge");
      SectionLines(at, e);
      Texts7(at, e);
      BridgeTexts(ds, id, at);
    }
  }

  lemma {:induction false} BridgeTexts(ds: N.Desired, id: string, at: seq<Tok>)
    requires Named(at, id, "bridge") && ds.bridge != ""
    ensures var e := BridgeEntries(ds);
            EntryText(at, e[0]) + (EntryText(at, e[1]) + (EntryText(at, e[2]) + (EntryText(at, e[3]) +
            (EntryText(at, e[4]) + (EntryText(at, e[5]) + EntryText(at, e[6])))))) == PrintBridge(ds, id)
  {
    hide EntryText, P, Named, PList, PGiven, Text, Given, List;
    assert "dns" + "[]" == "dns[]" && "ports" + "[]" == "ports[]";
    TextText(at, id, "bridge", "name", ds.bridge);
    TextText(at, id, "bridge", "addr_mode", ModeName(ds.addrMode));
    TextText(at, id, "bridge", "addr", ds.addr);
    TextText(at, id, "bridge", "gateway", ds.gateway);
    TextText(at, id, "bridge", "dhcp_cmd", ds.dhcpCmd);
    ListText(at, id, "bridge", "dns", ds.dns);
    ListText(at, id, "bridge", "ports", ds.ports);
    NoText(at, "addr");
    NoText(at, "gateway");
    NoText(at, "dns");
    NoText(at, "dhcp_cmd");
    var ports := PList(id, Tail("bridge", "ports[]"), ds.ports);
    var cmd := P(id, Tail("bridge", "dhcp_cmd"), ds.dhcpCmd);
    assert "" + ports == ports && "" + (cmd + ports) == cmd + ports;
  }

  lemma {:induction false} UplinkText(ds: N.Desired, id: string)
    ensures EntryText(Root(id), Entry("uplink", Section(ds.uplink != "", [Entry("ifname", Text(ds.uplink))]))) ==
            PrintUplink(ds, id)
  {
    hide Lines, Show, P, Named, Build, PList, PGiven;
    if ds.uplink != "" {
      var at, e := Root(id) + [Key("uplink")], [Entry("ifname", Text(ds.uplink))];
      NamedFirst(id, "uplink");
      SectionLines(at, e);
      TextText(at, id, "uplink", "ifname", ds.uplink);
      assert EntriesText(at, e, 1) == "" && EntryText(at, e[0]) + "" == EntryText(at, e[0]);
    }
  }

  lemma {:induction false} VlanText(ds: N.Desired, id: string)
    ensures EntryText(Root(id), Entry("vlan", Section(ds.vlan != "", VlanEntries(ds)))) == PrintVlan(ds, id)
  {
    hide Lines, Show, P, Named, Build, PList, PGiven, EntriesText, Decimal;
    if ds.vlan != "" {
      var at, e := Root(id) + [Key("vlan")], VlanEntries(ds);
      NamedFirst(id, "vlan");
      SectionLines(at, e);
      Texts4(at, e);
      TextText(at, id, "vlan", "ifname", ds.vlan);
      TextText(at, id, "vlan", "id", Decimal(ds.vlanId));
      TextText(at, id, "vlan", "link", ds.vlanLink);
      TextText(at, id, "vlan", "bridge", ds.vlanBridge);
    }
  }

  lemma {:induction false} WgText(ds: N.Desired, id: string)
    ensures EntryText(Root(id), Entry("wg", Section(ds.wg != "", WgEntries(ds)))) == PrintWg(ds, id)
  {
    hide Lines, Show, P, Named, Build, PList, PGiven, EntriesText;
    if ds.wg != "" {
      var at, e := Root(id) + [Key("wg")], WgEntries(ds);
      NamedFirst(id, "wg");
      SectionLines(at, e);
      Texts3(at, e);
      TextText(at, id, "wg", "ifname", ds.wg);
      TextText(at, id, "wg", "peer_ip", ds.wgPeer);
      TextText(at, id, "wg", "route_dev", ds.wgRouteDev);
    }
  }

  lemma {:induction false} VxlanText(ds: N.Desired, id: string)
    ensures EntryText(Root(id), Entry("vxlan", Section(ds.vxlan != "", VxlanEntries(ds)))) == PrintVxlan(ds, id)
  {
    hide Lines, Show, P, Named, Build, PList, PGiven, EntriesText, Decimal;
    if ds.vxlan != "" {
      var at, e := Root(id) + [Key("vxlan")], VxlanEntries(ds);
      NamedFirst(id, "vxlan");
      SectionLines(at, e);
      Texts5(at, e);
      TextText(at, id, "vxlan", "ifname", ds.vxlan);
      TextText(at, id, "vxlan", "vni", Decimal(ds.vxlanVni));
      TextText(at, id, "vxlan", "remote", ds.vxlanRemote);
      TextText(at, id, "vxlan", "dev", ds.vxlanDev);
      TextText(at, id, "vxlan", "bridge", ds.vxlanBridge);
    }
  }

  lemma {:induction false} RouteText(rt: N.DesiredRoute, id: string, i: nat)
    ensures Lines(Root(id) + [Key("routes")] + [Key(RouteName(i))], Leaves(Obj(Build(RouteEntries(rt))))) ==
            PrintRoute(rt, id, i)
  {
    hide Lines, Show, P, Named, Build, EntriesText, RouteName;
    var at, e := Root(id) + [Key("routes")] + [Key(RouteName(i))], RouteEntries(rt);
    var tail := Tail("routes", RouteName(i));
    NamedFirst(id, "routes");
    NamedUnder(Root(id) + [Key("routes")], id, "routes", RouteName(i));
    SectionLines(at, e);
    Texts3(at, e);
    TextText(at, id, tail, "dst", rt.dst);
    TextText(at, id, tail, "dev", rt.dev);
    NoText(at, "via");
    if rt.via.Some? {
      TextText(at, id, tail, "via", rt.via.value);
    }
  }

  lemma {:induction false} NamedUnder(at: seq<Tok>, id: string, tail: string, b: string)
    requires Named(at, id, tail)
    ensures Named(at + [Key(b)], id, Tail(tail, b))
  {
    UnderShows(id, at, tail, b);
  }

  lemma {:induction false} RoutesText(routes: seq<N.DesiredRoute>, id: string, i: nat)
    ensures Lines(Root(id) + [Key("routes")], FieldLeaves(RouteFields(routes, i))) == PrintRoutes(routes, id, i)
    decreases |routes|
  {
    hide Lines, Leaves, PrintRoute, Build, RouteName, Root;
    var at := Root(id) + [Key("routes")];
    if routes == [] {
      NoLines(at);
    } else {
      RoutesText(routes[1..], id, i + 1);
      RouteText(routes[0], id, i);
      var t, rest := Obj(Build(RouteEntries(routes[0]))), RouteFields(routes[1..], i + 1);
      var fields := [Field(RouteName(i), t)] + rest;
      assert fields[1..] == rest;
      LinesConcat(at, Under(RouteName(i), Leaves(t)), FieldLeaves(rest));
      LinesUnder(at, RouteName(i), Leaves(t));
    }
  }

  /** What is printed of a state is the lines of its tree. */
  lemma {:induction false} StateText(ds: N.Desired, id: string)
    ensures PrintState(ds, id) == Lines(Root(id), Leaves(StateTree(ds)))
  {
    hide Lines, P, EntryText, EntriesText, PrintBridge, PrintUplink, PrintVlan, PrintWg, PrintVxlan, PrintRoutes,
         Section, BridgeEntries, VlanEntries, WgEntries, VxlanEntries, RouteFields, Build, Root;
    var e := StateEntries(ds);
    SectionLines(Root(id), e);
    Texts7(Root(id), e);
    ScenarioText(ds, id);
    BridgeText(ds, id);
    UplinkText(ds, id);
    VlanText(ds, id);
    WgText(ds, id);
    VxlanText(ds, id);
    AllRoutesText(ds, id);
  }

  lemma {:induction false} ScenarioText(ds: N.Desired, id: string)
    ensures EntryText(Root(id), Entry("scenario", Text(ds.scenario))) == P(id, "scenario", ds.scenario)
  {
    hide Lines, Show, Line;
    FirstShows(id, "scenario");
    LinesOfString(Root(id) + [Key("scenario")], ds.scenario);
  }

  lemma {:induction false} AllRoutesText(ds: N.Desired, id: string)
    ensures EntryText(Root(id), Entry("routes", if ds.routes == [] then None else Some(Obj(RouteFields(ds.routes, 0)))))
            == PrintRoutes(ds.routes, id, 0)
  {
    hide Lines, PrintRoute, RouteFields;
    RoutesText(ds.routes, id, 0);
  }

  /** `cfg_set` once every state has its id. */
  function PrintStates(states: seq<N.Desired>, ids: seq<string>): string
    requires |ids| == |states|
  {
    if states == [] then "" else PrintState(states[0], ids[0]) + PrintStates(states[1..], ids[1..])
  }

  function StateFields(states: seq<N.Desired>, ids: seq<string>): seq<Field>
    requires |ids| == |states|
  {
    if states == [] then [] else [Field(ids[0], StateTree(states[0]))] + StateFields(states[1..], ids[1..])
  }

  /** The tree of a set of states. */
  function SetTree(states: seq<N.Desired>, ids: seq<string>): Tree
    requires |ids| == |states|
  {
    Obj([Field("state", Obj(StateFields(states, ids)))])
  }

  lemma {:induction false} StatesText(states: seq<N.Desired>, ids: seq<string>)
    requires |ids| == |states|
    ensures PrintStates(states, ids) == Lines([Key("state")], FieldLeaves(StateFields(states, ids)))
    decreases |states|
  {
    hide Lines, Leaves, PrintState, StateTree;
    var at := [Key("state")];
    if states == [] {
      NoLines(at);
    } else {
      StatesText(states[1..], ids[1..]);
      StateText(states[0], ids[0]);
      assert at + [Key(ids[0])] == Root(ids[0]);
      var t, rest := StateTree(states[0]), StateFields(states[1..], ids[1..]);
      var fields := [Field(ids[0], t)] + rest;
      assert fields[1..] == rest;
      LinesConcat(at, Under(ids[0], Leaves(t)), FieldLeaves(rest));
      LinesUnder(at, ids[0], Leaves(t));
    }
  }

  lemma {:induction false} SetText(states: seq<N.Desired>, ids: seq<string>)
    requires |ids| == |states|
    ensures PrintStates(states, ids) == Lines([], Leaves(SetTree(states, ids)))
  {
    hide Lines, FieldLeaves, PrintStates, StateFields;
    StatesText(states, ids);
    var t := Obj(StateFields(states, ids));
    LeavesOfOne("state", t);
    LinesUnder([], "state", Leaves(t));
    assert [] + [Key("state")] == [Key("state")];
  }
}
