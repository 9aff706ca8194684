/** A printed set of desired states, loaded again, is the same set. */
module DesiredReload {
  import opened CfgTree
  import opened CfgPath
  import opened CfgDump
  import opened CfgText
  import opened DesiredTree
  import opened DesiredSet
  import opened Numerals
  import Commands
  import N = NetState

  const VALUE_MAX := 128

  predicate ShortString(s: string) {
    IsCString(s) && |s| < VALUE_MAX
  }

  predicate ShortKey(s: string) {
    IsKey(s) && |s| < 16
  }

  /** A tree of short strings and keys in which no container is empty. */
  predicate Printable(t: Tree, depth: nat) {
    match t
    case Str(s) => ShortString(s)
    case Arr(items) => depth > 0 && items != [] && forall i :: 0 <= i < |items| ==> ShortString(items[i])
    case Obj(fields) =>
      && depth > 0 && fields != []
      && (forall i, j :: 0 <= i < j < |fields| ==> fields[i].name != fields[j].name)
      && (forall i :: 0 <= i < |fields| ==> ShortKey(fields[i].name) && Printable(fields[i].value, depth - 1))
  }

  lemma {:induction false} PrintableIsStored(t: Tree, depth: nat)
    requires Printable(t, depth)
    ensures Stored(t, depth)
    decreases depth
  {
    hide IsKey, IsCString;
    if t.Obj? {
      forall i | 0 <= i < |t.fields|
        ensures Stored(t.fields[i].value, depth - 1)
      {
        PrintableIsStored(t.fields[i].value, depth - 1);
      }
    }
  }

  lemma {:induction false} StoredDeeper(t: Tree, depth: nat, more: nat)
    requires Stored(t, depth) && depth <= more
    ensures Stored(t, more)
    decreases depth
  {
    hide IsKey, IsCString;
    if t.Obj? {
      forall i | 0 <= i < |t.fields|
        ensures Stored(t.fields[i].value, more - 1)
      {
        StoredDeeper(t.fields[i].value, depth - 1, more - 1);
      }
    }
  }

  predicate FieldsPrintable(fields: seq<Field>, depth: nat) {
    forall i :: 0 <= i < |fields| ==> ShortKey(fields[i].name) && Printable(fields[i].value, depth)
  }

  lemma {:induction false} PrintableIsFull(t: Tree, depth: nat)
    requires Printable(t, depth)
    ensures Full(t) && Leaves(t) != []
    decreases depth, 1, 0
  {
    hide ShortKey, ShortString;
    if t.Obj? {
      FieldsAreFull(t.fields, depth - 1);
    } else if t.Arr? {
      assert |Appends(t.items)| == |t.items|;
    }
  }

  lemma {:induction false} FieldsAreFull(fields: seq<Field>, depth: nat)
    requires FieldsPrintable(fields, depth)
    ensures FullFields(fields) && (fields != [] ==> FieldLeaves(fields) != [])
    decreases depth, 2, |fields|
  {
    hide ShortKey, Printable, Leaves;
    if fields != [] {
      PrintableIsFull(fields[0].value, depth);
      FieldsAreFull(fields[1..], depth);
      assert |Under(fields[0].name, Leaves(fields[0].value))| > 0;
    }
  }

  /** A path of short keys, and a short string. */
  predicate SmallLeaf(leaf: Leaf, depth: nat) {
    && |leaf.path| <= depth && |leaf.val| < VALUE_MAX
    && forall i :: 0 <= i < |leaf.path| ==> leaf.path[i].Append? || (leaf.path[i].Key? && |leaf.path[i].name| < 16)
  }

  lemma {:induction false} SmallLeaves(t: Tree, depth: nat)
    requires Printable(t, depth)
    ensures forall i :: 0 <= i < |Leaves(t)| ==> SmallLeaf(Leaves(t)[i], depth)
    decreases depth, 1, 0
  {
    hide ShortKey, IsCString;
    if t.Obj? {
      SmallFieldLeaves(t.fields, depth - 1);
    }
  }

  lemma {:induction false} SmallFieldLeaves(fields: seq<Field>, depth: nat)
    requires FieldsPrintable(fields, depth)
    ensures forall i :: 0 <= i < |FieldLeaves(fields)| ==> SmallLeaf(FieldLeaves(fields)[i], depth + 1)
    decreases depth, 2, |fields|
  {
    hide Printable, IsKey, Leaves;
    if fields != [] {
      var f := fields[0];
      SmallLeaves(f.value, depth);
      SmallFieldLeaves(fields[1..], depth);
      var leaves := Leaves(f.value);
      forall i | 0 <= i < |leaves|
        ensures SmallLeaf(Leaf([Key(f.name)] + leaves[i].path, leaves[i].val), depth + 1)
      {
        var whole := [Key(f.name)] + leaves[i].path;
        assert forall j :: 1 <= j < |whole| ==> whole[j] == leaves[i].path[j - 1];
      }
    }
  }

  lemma {:induction false} StepsLength(path: seq<Tok>)
    requires forall i :: 0 <= i < |path| ==> path[i].Append? || (path[i].Key? && |path[i].name| < 16)
    ensures |ShowSteps(path)| <= 16 * |path|
    decreases |path|
  {
    if path != [] {
      StepsLength(path[1..]);
    }
  }

  lemma {:induction false} EscapedLength(val: string)
    ensures |Escaped(val)| <= 2 * |val|
  {
    if val != "" {
      EscapedLength(val[1..]);
    }
  }

  lemma {:induction false} SmallLineFits(leaf: Leaf)
    requires SmallLeaf(leaf, 8)
    ensures |Line(Show(leaf.path), leaf.val)| <= LINE_MAX
  {
    hide Escaped, ShowSteps;
    EscapedLength(leaf.val);
    if leaf.path != [] {
      StepsLength(leaf.path[1..]);
      StepsLength(leaf.path);
    } else {
      StepsLength([]);
    }
  }

  /** Printable trees go through a file as they are. */
  lemma {:induction false} PrintableReloads(t: Tree)
    requires t.Obj? && Printable(t, 8)
    ensures LoadText(EMPTY, Lines([], Leaves(t))) == Ok(t)
  {
    hide Leaves, LoadText, Load, Prune, Printable, LeafOk, SmallLeaf, Line, Full;
    PrintableIsStored(t, 8);
    StoredDeeper(t, 8, DEPTH_MAX);
    StoredIsDistinct(t, DEPTH_MAX);
    CfgDump.LoadAfterDump(t);
    StoredLeaves(t, DEPTH_MAX);
    ObjectLeaves(t);
    LoadLines(EMPTY, Leaves(t));
    SmallLeaves(t, 8);
    forall i | 0 <= i < |Leaves(t)|
      ensures |Line(Show(Leaves(t)[i].path), Leaves(t)[i].val)| <= LINE_MAX
    {
      SmallLineFits(Leaves(t)[i]);
    }
    PrintableIsFull(t, 8);
    PruneKeeps(t);
  }

  // The trees of desired states are printable.

  predicate KeyChars(s: string, i: nat)
    decreases |s| - i
  {
    i >= |s| || (IsKeyChar(s[i]) && KeyChars(s, i + 1))
  }

  lemma {:induction false} KeyCharsAre(s: string, i: nat)
    requires KeyChars(s, i)
    ensures forall j :: i <= j < |s| ==> IsKeyChar(s[j])
    decreases |s| - i
  {
    if i < |s| {
      KeyCharsAre(s, i + 1);
    }
  }

  predicate PlainKey(s: string) {
    0 < |s| < 16 && IsKeyStart(s[0]) && KeyChars(s, 1)
  }

  lemma {:induction false} PlainKeyIsShort(s: string)
    requires PlainKey(s)
    ensures ShortKey(s)
  {
    KeyCharsAre(s, 1);
  }

  lemma {:induction false} StateKeys()
    ensures PlainKey("scenario") && PlainKey("bridge") && PlainKey("uplink") && PlainKey("vlan") && PlainKey("wg")
    ensures PlainKey("vxlan") && PlainKey("routes") && PlainKey("state")
  {
  }

  lemma {:induction false} BridgeKeys()
    ensures PlainKey("name") && PlainKey("addr_mode") && PlainKey("addr") && PlainKey("gateway") && PlainKey("dns")
    ensures PlainKey("dhcp_cmd") && PlainKey("ports")
  {
  }

  lemma {:induction false} LinkKeys()
    ensures PlainKey("ifname") && PlainKey("id") && PlainKey("link") && PlainKey("bridge") && PlainKey("peer_ip")
    ensures PlainKey("route_dev") && PlainKey("vni") && PlainKey("remote") && PlainKey("dev")
  {
  }

  lemma {:induction false} RouteKeys()
    ensures PlainKey("dst") && PlainKey("via") && PlainKey("dev")
  {
  }

  /** A field of the state's tree: named by a key, and printable if it is there. */
  predicate EntryOk(e: Entry, depth: nat) {
    PlainKey(e.name) && (e.tree.Some? ==> Printable(e.tree.value, depth))
  }

  predicate NamesDistinct(fields: seq<Field>) {
    forall i, j :: 0 <= i < j < |fields| ==> fields[i].name != fields[j].name
  }

  lemma {:induction false} BuildFields(entries: seq<Entry>, depth: nat)
    requires forall i :: 0 <= i < |entries| ==> EntryOk(entries[i], depth)
    ensures FieldsPrintable(Build(entries), depth)
    decreases |entries|
  {
    hide Printable, PlainKey, ShortKey;
    if entries != [] {
      var e, rest := entries[0], entries[1..];
      assert forall j :: 0 <= j < |rest| ==> rest[j] == entries[j + 1];
      BuildFields(rest, depth);
      if e.tree.Some? {
        PlainKeyIsShort(e.name);
        MoreFields(Field(e.name, e.tree.value), Build(rest), depth);
      }
    }
  }

  lemma {:induction false} MoreFields(f: Field, fields: seq<Field>, depth: nat)
    requires FieldsPrintable(fields, depth) && ShortKey(f.name) && Printable(f.value, depth)
    ensures FieldsPrintable([f] + fields, depth)
  {
    hide Printable, ShortKey;
  }

  lemma {:induction false} BuildNamesDiffer(entries: seq<Entry>)
    requires NamesDiffer(entries)
    ensures NamesDistinct(Build(entries))
    decreases |entries|
  {
    if entries != [] {
      var rest := entries[1..];
      assert forall j :: 0 <= j < |rest| ==> rest[j] == entries[j + 1];
      BuildNamesDiffer(rest);
      BuildNames(rest);
      HasNot(rest, entries[0].name);
    }
  }

  lemma {:induction false} BuildPrintable(entries: seq<Entry>, depth: nat)
    requires NamesDiffer(entries) && entries != [] && entries[0].tree.Some?
    requires forall i :: 0 <= i < |entries| ==> EntryOk(entries[i], depth)
    ensures Printable(Obj(Build(entries)), depth + 1)
  {
    hide PlainKey, ShortKey;
    BuildFields(entries, depth);
    BuildNamesDiffer(entries);
  }

  predicate AllStrings(items: seq<string>) {
    forall i :: 0 <= i < |items| ==> IsCString(items[i])
  }

  /** The strings of a state are C strings. */
  predicate Strings(ds: N.Desired) {
    && IsCString(ds.scenario) && IsCString(ds.bridge) && IsCString(ds.addr) && IsCString(ds.gateway)
    && AllStrings(ds.dns)
    && IsCString(ds.dhcpCmd) && AllStrings(ds.ports) && IsCString(ds.uplink)
    && IsCString(ds.vlan) && IsCString(ds.vlanLink) && IsCString(ds.vlanBridge)
    && IsCString(ds.wg) && IsCString(ds.wgPeer) && IsCString(ds.wgRouteDev)
    && IsCString(ds.vxlan) && IsCString(ds.vxlanRemote) && IsCString(ds.vxlanDev) && IsCString(ds.vxlanBridge)
    && forall i :: 0 <= i < |ds.routes| ==>
         IsCString(ds.routes[i].dst) && IsCString(ds.routes[i].dev)
         && (ds.routes[i].via.Some? ==> IsCString(ds.routes[i].via.value))
  }

  lemma {:induction false} UintIsShort(n: nat)
    requires n < 0x1_0000_0000
    ensures ShortString(Decimal(n))
  {
    Commands.DecimalOfUint(n);
    ValueOfDecimal(n);
  }

  lemma {:induction false} BridgePrintable(ds: N.Desired, depth: nat)
    requires Fits(ds) && Strings(ds) && depth > 0
    ensures Printable(Obj(Build(BridgeEntries(ds))), depth + 1)
  {
    hide Build, PlainKey, IsCString, NamesDiffer;
    BridgeKeys();
    BridgeNames(ds);
    ModeStrings();
    BuildPrintable(BridgeEntries(ds), depth);
  }

  lemma {:induction false} ModeStrings()
    ensures ShortString("none") && ShortString("static") && ShortString("dhcp")
  {
  }

  lemma {:induction false} VlanPrintable(ds: N.Desired, depth: nat)
    requires Fits(ds) && Strings(ds)
    ensures Printable(Obj(Build(VlanEntries(ds))), depth + 1)
  {
    hide Build, PlainKey, IsCString, Decimal;
    LinkKeys();
    assert |"ifname"| == 6 && |"id"| == 2 && |"link"| == 4 && |"bridge"| == 6 && "ifname"[0] != "bridge"[0];
    UintIsShort(ds.vlanId);
    BuildPrintable(VlanEntries(ds), depth);
  }

  lemma {:induction false} WgPrintable(ds: N.Desired, depth: nat)
    requires Fits(ds) && Strings(ds)
    ensures Printable(Obj(Build(WgEntries(ds))), depth + 1)
    ensures Printable(Obj(Build(VxlanEntries(ds))), depth + 1)
    ensures Printable(Obj(Build([Entry("ifname", Text(ds.uplink))])), depth + 1)
  {
    hide Build, PlainKey, IsCString, Decimal, NamesDiffer;
    LinkKeys();
    WgNames(ds);
    UintIsShort(ds.vxlanVni);
    BuildPrintable(WgEntries(ds), depth);
    BuildPrintable(VxlanEntries(ds), depth);
    OneName(Entry("ifname", Text(ds.uplink)));
    BuildPrintable([Entry("ifname", Text(ds.uplink))], depth);
  }

  lemma {:induction false} OneName(e: Entry)
    ensures NamesDiffer([e])
  {
  }

  lemma {:induction false} RouteNameIsShort(i: nat)
    requires i < N.ROUTE_MAX
    ensures ShortKey(RouteName(i))
  {
    ValueOfDecimal(i);
    Commands.DecimalOfUint(i);
    var d := Decimal(i);
    assert forall j :: 1 <= j < |RouteName(i)| ==> RouteName(i)[j] == d[j - 1];
  }

  lemma {:induction false} RouteNamesDiffer(i: nat, j: nat)
    requires RouteName(i) == RouteName(j)
    ensures i == j
  {
    ValueOfDecimal(i);
    ValueOfDecimal(j);
    assert RouteName(i)[1..] == Decimal(i) && RouteName(j)[1..] == Decimal(j);
  }

  predicate RouteStrings(rt: N.DesiredRoute) {
    IsCString(rt.dst) && IsCString(rt.dev) && (rt.via.Some? ==> IsCString(rt.via.value))
  }

  lemma {:induction false} RoutePrintable(rt: N.DesiredRoute, depth: nat)
    requires RouteOk(rt) && RouteStrings(rt)
    ensures Printable(Obj(Build(RouteEntries(rt))), depth + 1)
  {
    hide Build, PlainKey, IsCString;
    RouteKeys();
    assert "dst"[1] != "dev"[1] && "dst"[0] != "via"[0] && "dev"[0] != "via"[0];
    BuildPrintable(RouteEntries(rt), depth);
  }

  lemma {:induction false} RoutesPrintable(routes: seq<N.DesiredRoute>, i: nat, depth: nat)
    requires i + |routes| <= N.ROUTE_MAX
    requires forall k :: 0 <= k < |routes| ==> RouteOk(routes[k]) && RouteStrings(routes[k])
    ensures FieldsPrintable(RouteFields(routes, i), depth + 1)
    ensures |RouteFields(routes, i)| == |routes|
    ensures forall k :: 0 <= k < |routes| ==> RouteFields(routes, i)[k].name == RouteName(i + k)
    decreases |routes|
  {
    hide Printable, ShortKey, RouteOk, RouteStrings, RouteEntries, RouteName;
    if routes != [] {
      var rest := routes[1..];
      RoutePrintable(routes[0], depth);
      RouteNameIsShort(i);
      RoutesPrintable(rest, i + 1, depth);
      var f := Field(RouteName(i), Obj(Build(RouteEntries(routes[0]))));
      MoreFields(f, RouteFields(rest, i + 1), depth + 1);
      assert forall k :: 1 <= k < |routes| ==> RouteFields(routes, i)[k] == RouteFields(rest, i + 1)[k - 1];
    }
  }

  lemma {:induction false} AllRoutesPrintable(ds: N.Desired, depth: nat)
    requires Fits(ds) && Strings(ds) && ds.routes != []
    ensures Printable(Obj(RouteFields(ds.routes, 0)), depth + 2)
  {
    hide RouteFields, ShortKey, RouteName, RouteOk, IsCString;
    RoutesPrintable(ds.routes, 0, depth);
    var fields := RouteFields(ds.routes, 0);
    forall i, j | 0 <= i < j < |fields|
      ensures fields[i].name != fields[j].name
    {
      if fields[i].name == fields[j].name {
        RouteNamesDiffer(i, j);
      }
    }
  }

  /** The tree of a state that fits is printable. */
  lemma {:induction false} StatePrintable(ds: N.Desired)
    requires Fits(ds) && Strings(ds)
    ensures Printable(StateTree(ds), 6)
  {
    hide Build, PlainKey, NamesDiffer, RouteFields, BridgeEntries, VlanEntries, WgEntries, VxlanEntries;
    StateKeys();
    StateNames(ds);
    BridgePrintable(ds, 4);
    VlanPrintable(ds, 4);
    WgPrintable(ds, 4);
    if ds.routes != [] {
      AllRoutesPrintable(ds, 3);
    }
    BuildPrintable(StateEntries(ds), 5);
  }

  predicate StateOk(ds: N.Desired) {
    Tidy(ds) && Fits(ds) && Strings(ds)
  }

  predicate AllOk(states: seq<N.Desired>) {
    forall i :: 0 <= i < |states| ==> StateOk(states[i])
  }

  predicate DistinctIds(ids: seq<string>) {
    forall i, j :: 0 <= i < j < |ids| ==> ids[i] != ids[j]
  }

  lemma {:induction false} StatesPrintable(states: seq<N.Desired>, ids: seq<string>)
    requires |ids| == |states| && AllOk(states) && forall i :: 0 <= i < |ids| ==> ShortKey(ids[i])
    ensures FieldsPrintable(StateFields(states, ids), 6)
    ensures |StateFields(states, ids)| == |ids|
    ensures forall k :: 0 <= k < |ids| ==> StateFields(states, ids)[k].name == ids[k]
    decreases |states|
  {
    hide Printable, ShortKey, StateTree, Tidy, Fits, Strings;
    if states != [] {
      var moreStates, moreIds := states[1..], ids[1..];
      StatePrintable(states[0]);
      StatesPrintable(moreStates, moreIds);
      MoreFields(Field(ids[0], StateTree(states[0])), StateFields(moreStates, moreIds), 6);
      assert forall k :: 1 <= k < |ids| ==> StateFields(states, ids)[k] == StateFields(moreStates, moreIds)[k - 1];
    }
  }

  lemma {:induction false} SetPrintable(states: seq<N.Desired>, ids: seq<string>)
    requires |ids| == |states| > 0 && AllOk(states) && DistinctIds(ids)
    requires forall i :: 0 <= i < |ids| ==> ShortKey(ids[i])
    ensures Printable(SetTree(states, ids), 8)
  {
    hide ShortKey, PlainKey, StateFields, StateOk;
    StatesPrintable(states, ids);
    StateKeys();
    PlainKeyIsShort("state");
    var t := Obj(StateFields(states, ids));
    assert Printable(t, 7);
  }

  lemma {:induction false} FirstState(states: seq<N.Desired>, ids: seq<string>)
    requires |ids| == |states| && states != []
    ensures var fields := StateFields(states, ids);
            && fields != [] && fields[0].value == StateTree(states[0]) && fields[0].value.Obj?
            && fields[1..] == StateFields(states[1..], ids[1..])
  {
  }

  lemma {:induction false} StatesLoad(states: seq<N.Desired>, ids: seq<string>, n: nat)
    requires |ids| == |states| && AllOk(states) && n + |states| <= N.STATE_MAX
    ensures LoadStates(StateFields(states, ids), n) == Ok(states)
    decreases |states|
  {
    hide LoadState, Tidy, Fits, Strings, StateTree;
    if states != [] {
      LoadStateTree(states[0]);
      StatesLoad(states[1..], ids[1..], n + 1);
      FirstState(states, ids);
      assert states == [states[0]] + states[1..];
      hide StateFields;
    }
  }
}
