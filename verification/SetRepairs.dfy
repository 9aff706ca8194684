/**
 A pass over several states.  All of them are judged on the same snapshot, while the commands for the first ones already
 change the kernel.  States that have nothing in common are all repaired.
 */
module SetRepairs {
  import opened Wrappers
  import opened NetState
  import opened Substitution
  import opened Verify
  import opened Kernel
  import opened Consistency
  import opened Tracking
  import opened Remake
  import opened VlanPass
  import opened PlannedPass
  import opened Run

  // What a state has to itself.

  /** The interfaces that it may add. */
  function Adds(ds: Desired): set<string> {
    match ScenarioOf(ds.scenario)
    case UplinkBridge => {ds.bridge}
    case VlanBridge => {ds.bridge, ds.vlan}
    case _ => {}
  }

  /** The interfaces that it may take into its bridge. */
  function Mine(ds: Desired): set<string> {
    match ScenarioOf(ds.scenario)
    case UplinkBridge => Members(ds)
    case VlanBridge => (set p | p in ds.ports) + {ds.vlan}
    case _ => {}
  }

  /** The state, without a gateway if its scenario has none. */
  function Routed(ds: Desired): Desired {
    if HasBridge(ds) then ds else ds.(gateway := "")
  }

  /** Two states that have neither bridge, nor vlan, nor members, nor routes in common. */
  predicate Independent(a: Desired, b: Desired) {
    Adds(a) !! Adds(b) && Mine(a) !! Mine(b) && Keys(Routed(a)) !! Keys(Routed(b))
  }

  /** A command that a state can give, which replaces no route but those with these keys. */
  predicate Belongs(a: Act, ds: Desired, keys: set<Prefix>) {
    || a.LinkUp? || a.Note?
    || (HasBridge(ds) && (a == LinkAddBridge(ds.bridge) || (a.AddrAdd? && a.dev == ds.bridge)))
    || (ScenarioOf(ds.scenario) == VlanBridge && a.LinkAddVlan? && a.name == ds.vlan)
    || (a.LinkMaster? && a.bridge == ds.bridge && a.name in Mine(ds))
    || (a.RouteReplace? && KeysOf(a) <= keys)
  }

  predicate AllBelong(acts: seq<Act>, ds: Desired, keys: set<Prefix>) {
    forall i :: 0 <= i < |acts| ==> Belongs(acts[i], ds, keys)
  }

  /** A report that asks for such commands only. */
  ghost predicate Theirs(report: Report, ds: Desired, keys: set<Prefix>) {
    forall a :: Do(a) in report ==> Belongs(a, ds, keys)
  }

  lemma {:induction false} TheirActs(report: Report, ds: Desired, keys: set<Prefix>)
    requires Theirs(report, ds, keys)
    ensures AllBelong(Acts(report), ds, keys)
  {
    hide Belongs, Acts;
    OnlyDone(report);
    assert forall i :: 0 <= i < |Acts(report)| ==> Acts(report)[i] in Acts(report);
  }

  lemma {:induction false} TheirBoth(a: Report, b: Report, ds: Desired, keys: set<Prefix>)
    requires Theirs(a, ds, keys) && Theirs(b, ds, keys)
    ensures Theirs(a + b, ds, keys)
  {
    hide Belongs;
  }

  lemma {:induction false} BridgeTheirs(ds: Desired, rs: Real)
    requires BridgePlaced(ds, rs) && HasBridge(ds)
    ensures Theirs(BridgeReport(ds, rs), ds, Replaced(ds, rs))
  {
    hide FindIface, ParsePrefix, ParseIp4, NotAmong, CheckDns, DnsOk, RouteKey, RouteOk, Mine, HasBridge;
    var keys := Replaced(ds, rs);
    assert Theirs(CheckBridge(ds, rs), ds, keys);
    assert Theirs(CheckAddr(ds, rs), ds, keys);
    GatewayTheirs(ds, rs);
    DnsTheirs(ds.dns, ds, rs, keys);
    TheirBoth(CheckBridge(ds, rs), CheckAddr(ds, rs), ds, keys);
    TheirBoth(CheckBridge(ds, rs) + CheckAddr(ds, rs), CheckGateway(ds, rs), ds, keys);
    TheirBoth(CheckBridge(ds, rs) + CheckAddr(ds, rs) + CheckGateway(ds, rs), CheckDns(ds.dns, rs), ds, keys);
  }

  lemma {:induction false} GatewayTheirs(ds: Desired, rs: Real)
    requires ds.gateway != "" ==> ParseIp4(ds.gateway).Some?
    ensures Theirs(CheckGateway(ds, rs), ds, Replaced(ds, rs))
  {
    hide FindIface, ParsePrefix, ParseIp4, RouteKey, RouteOk, Mine, HasBridge;
    ParseDefault();
  }

  lemma {:induction false} DnsTheirs(dns: seq<string>, ds: Desired, rs: Real, keys: set<Prefix>)
    ensures Theirs(CheckDns(dns, rs), ds, keys)
  {
    hide ParseIp4, Mine, HasBridge;
    if dns != [] {
      DnsTheirs(dns[1..], ds, rs, keys);
    }
  }

  lemma {:induction false} MemberTheirs(name: string, ds: Desired, rs: Real, keys: set<Prefix>)
    ensures Theirs(CheckUp(name, FindBy(rs, name)), ds, keys)
    ensures name in Mine(ds) ==> Theirs(CheckMaster(name, FindBy(rs, name), ds.bridge, rs), ds, keys)
  {
    hide FindIface, Mine, HasBridge;
  }

  lemma {:induction false} UplinkTheirs(ds: Desired, rs: Real, keys: set<Prefix>)
    ensures Theirs(CheckUplink(ds, rs), ds, keys)
  {
    hide FindIface, Mine, HasBridge, CheckUp, Belongs;
    NoteTheirs(ds, keys);
    MemberTheirs(ds.uplink, ds, rs, keys);
    TheirBoth([Ok], CheckUp(ds.uplink, FindBy(rs, ds.uplink)), ds, keys);
  }

  lemma {:induction false} NoteTheirs(ds: Desired, keys: set<Prefix>)
    ensures Theirs([Miss, Do(Note)], ds, keys) && Theirs([Ok], ds, keys) && Theirs([], ds, keys)
  {
    hide Mine, HasBridge;
  }

  lemma {:induction false} PortsTheirs(ports: seq<string>, ds: Desired, rs: Real, keys: set<Prefix>)
    requires forall i :: 0 <= i < |ports| ==> ports[i] in Mine(ds)
    ensures Theirs(CheckPorts(ports, ds.bridge, rs), ds, keys)
    decreases |ports|
  {
    hide FindIface, Mine, HasBridge, CheckUp, CheckMaster, Belongs;
    NoteTheirs(ds, keys);
    if ports != [] {
      var port := ports[0];
      var a, b := CheckUp(port, FindBy(rs, port)), CheckMaster(port, FindBy(rs, port), ds.bridge, rs);
      MemberTheirs(port, ds, rs, keys);
      TheirBoth([Ok], a, ds, keys);
      TheirBoth([Ok] + a, b, ds, keys);
      PortsTheirs(ports[1..], ds, rs, keys);
      TheirBoth(CheckPort(port, ds.bridge, rs), CheckPorts(ports[1..], ds.bridge, rs), ds, keys);
    }
  }

  lemma {:induction false} RoutesTheirs(routes: seq<DesiredRoute>, ds: Desired, rs: Real)
    requires forall i :: 0 <= i < |routes| ==> routes[i] in ds.routes
    ensures Theirs(CheckRoutes(routes, rs), ds, Replaced(Routed(ds), rs))
    decreases |routes|
  {
    hide FindIface, Mine, HasBridge, CheckRoute, Belongs, Replaced, ParseRoute, RouteOk;
    var keys := Replaced(Routed(ds), rs);
    NoteTheirs(ds, keys);
    if routes != [] {
      var rt := routes[0];
      OneReport(rt, rs);
      RouteTheirs(rt, ds, rs);
      RoutesTheirs(routes[1..], ds, rs);
      TheirBoth(CheckRoute(rt, rs), CheckRoutes(routes[1..], rs), ds, keys);
    }
  }

  lemma {:induction false} RouteTheirs(rt: DesiredRoute, ds: Desired, rs: Real)
    requires rt in ds.routes
    ensures !RouteOk(rt, rs) ==>
              Theirs([Miss, Do(RouteReplace(rt.dst, rt.via, rt.dev))], ds, Replaced(Routed(ds), rs))
  {
    hide ParsePrefix, RouteOk, GatewayOk, Mine, HasBridge;
    var i :| 0 <= i < |ds.routes| && ds.routes[i] == rt;
    assert Routed(ds).routes == ds.routes;
    if RouteKey(rt).Some? && !RouteOk(rt, rs) {
      assert RouteKey(Routed(ds).routes[i]).value in Replaced(Routed(ds), rs);
    }
  }

  lemma {:induction false} VlanTheirs(ds: Desired, rs: Real, keys: set<Prefix>)
    requires ScenarioOf(ds.scenario) == VlanBridge && !Recreated(ds, rs) && ds.vlanBridge == ds.bridge
    requires KindThere(rs, ds.vlan)
    ensures Theirs(CheckVlan(ds, rs), ds, keys)
  {
    hide FindIface, FindVlan, FindVxlan, CheckUp, CheckMaster;
    var iface, vl := FindBy(rs, ds.vlan), FindVlan(rs.vlans, ds.vlan);
    MemberTheirs(ds.vlan, ds, rs, keys);
    assert Theirs(AddVlan(ds), ds, keys);
    if vl.None? {
      assert CheckVlan(ds, rs) == [Miss] + AddVlan(ds);
    } else {
      var up, master := CheckUp(ds.vlan, iface), CheckMaster(ds.vlan, iface, ds.vlanBridge, rs);
      TheirBoth(up, master, ds, keys);
      TheirBoth([Ok] + CheckVlanId(ds, vl.value) + CheckVlanLink(ds, rs, vl.value), up + master, ds, keys);
    }
  }

  /** The commands of a state touch nothing that is not its own, but for setting interfaces up. */
  lemma {:induction false} StateBelongs(ds: Desired, rs: Real)
    requires SetPlaced(ds, rs) && KindThere(rs, ds.vlan)
    ensures AllBelong(Acts(StateReport(ds, rs)), ds, Replaced(Routed(ds), rs))
  {
    hide Acts, FindIface, BridgeReport, CheckUplink, CheckMaster, CheckPorts, CheckRoutes, CheckVlan, Belongs,
         AllBelong, Theirs, Replaced, KindThere, MembersThere, DistinctKeys, Alone, Elsewhere, UpOk, BridgePlaced,
         Lifts, Recreated;
    var keys := Replaced(Routed(ds), rs);
    var a, b := BridgeReport(ds, rs), CheckUplink(ds, rs);
    var c := CheckMaster(ds.uplink, FindBy(rs, ds.uplink), ds.bridge, rs);
    var d, e, v := CheckPorts(ds.ports, ds.bridge, rs), CheckRoutes(ds.routes, rs), CheckVlan(ds, rs);
    UplinkTheirs(ds, rs, keys);
    RoutesTheirs(ds.routes, ds, rs);
    if ScenarioOf(ds.scenario) == OnlyUplink {
      TheirBoth(b, e, ds, keys);
    } else {
      BridgeTheirs(ds, rs);
      MemberTheirs(ds.uplink, ds, rs, keys);
      PortsTheirs(ds.ports, ds, rs, keys);
      TheirBoth(a, b, ds, keys);
      if ScenarioOf(ds.scenario) == UplinkBridge {
        TheirBoth(a + b, c, ds, keys);
        TheirBoth(a + b + c, d, ds, keys);
        TheirBoth(a + b + c + d, e, ds, keys);
      } else {
        VlanTheirs(ds, rs, keys);
        TheirBoth(a + b, d, ds, keys);
        TheirBoth(a + b + d, v, ds, keys);
        TheirBoth(a + b + d + v, e, ds, keys);
      }
    }
    TheirActs(StateReport(ds, rs), ds, keys);
  }

  lemma {:induction false} FewerKeys(ds: Desired, rs: Real)
    ensures Replaced(ds, rs) <= Keys(ds)
  {
    hide RouteKey, RouteOk, GatewayOk;
  }

  lemma {:induction false} BelongKeys(acts: seq<Act>, ds: Desired, keys: set<Prefix>)
    requires AllBelong(acts, ds, keys)
    ensures KeysOfAll(acts) <= keys
    decreases |acts|
  {
    hide ParsePrefix, Mine, HasBridge;
    if acts != [] {
      assert Belongs(acts[0], ds, keys);
      BelongKeys(acts[1..], ds, keys);
    }
  }

  // What the commands of other states leave alone.

  /** `u` is no worse than `rs` for a state, but for routes with these keys. */
  ghost predicate Keeps(ds: Desired, rs: Real, u: Real, keys: set<Prefix>) {
    && (forall name: string :: StillThere(rs, u, name))
    && (forall name: string :: name in Mine(ds) ==> MasterStays(rs, u, ds.bridge, name))
    && (forall index: int :: UpStaysUp(rs, u, index))
    && (forall name: string :: VlanStaysThere(rs, u, name))
    && (forall a :: a in rs.addrs ==> a in u.addrs)
    && (forall r :: r in rs.routes && Prefix(r.dst, r.prefix) !in keys ==> r in u.routes)
    && u.dns == rs.dns
  }

  lemma {:induction false} KeepsTwice(ds: Desired, a: Real, b: Real, c: Real, x: set<Prefix>, y: set<Prefix>)
    requires Keeps(ds, a, b, x) && Keeps(ds, b, c, y)
    ensures Keeps(ds, a, c, x + y)
  {
    hide FindBy, FindVlan, UpNumber, Mine;
    forall index: int
      ensures UpStaysUp(a, c, index)
    {
      assert UpStaysUp(a, b, index) && UpStaysUp(b, c, index);
    }
    forall name: string
      ensures StillThere(a, c, name) && (name in Mine(ds) ==> MasterStays(a, c, ds.bridge, name))
              && VlanStaysThere(a, c, name)
    {
      assert VlanStaysThere(a, b, name) && VlanStaysThere(b, c, name);
      assert StillThere(a, b, name) && StillThere(b, c, name);
      assert name in Mine(ds) ==> MasterStays(a, b, ds.bridge, name) && MasterStays(b, c, ds.bridge, name);
    }
  }

  lemma {:induction false} BelongsIsMild(a: Act, ds: Desired, keys: set<Prefix>)
    requires Belongs(a, ds, keys) && !a.LinkAddVlan?
    ensures Mild(a, ds.bridge)
  {
    hide Mine;
  }

  lemma {:induction false} KeepsSelf(ds: Desired, rs: Real)
    ensures Keeps(ds, rs, rs, {})
  {
    hide Mine;
  }

  /** The master of an interface does not change when another one gets a master. */
  lemma {:induction false} OtherMaster(k: Kernel, a: Act, ds: Desired, name: string)
    requires a.LinkMaster? && a.name != name
    ensures MasterStays(k.state, After(k, a).state, ds.bridge, name)
  {
    hide SetMaster, FindIface;
    var br := FindBy(k.state, a.bridge);
    if br.Some? {
      FindMaster(k.state.ifaces, a.name, br.value.ifindex, name);
      FindMaster(k.state.ifaces, a.name, br.value.ifindex, ds.bridge);
    }
  }

  /** A command that gives no master improves things for every bridge. */
  lemma {:induction false} MildEither(a: Act, other: Desired, ds: Desired, k: Kernel)
    requires Mild(a, other.bridge) && !a.LinkMaster?
    ensures forall name: string :: MasterStays(k.state, After(k, a).state, ds.bridge, name)
  {
    hide FindIface, SetUp, SetMaster, ConnectedRoutes, ParsePrefix, ParseIp4, ParseRoute, NoHostBits, MayGoUp, OnLink;
    var u := After(k, a).state;
    match a
    case LinkAddBridge(n) =>
      if FindBy(k.state, n).None? {
        AddImproves(k, n, "bridge", ds.bridge);
      }
    case LinkUp(n) => UpImproves(k, n, ds.bridge);
    case AddrAdd(_, _) => SameIfaces(k.state, u, ds.bridge);
    case RouteReplace(_, _, _) => SameIfaces(k.state, u, ds.bridge);
    case Note =>
  }

  /** A vlan that is added, or that cannot be. */
  lemma {:induction false} VlanAdded(k: Kernel, a: Act)
    requires Consistent(k) && a.LinkAddVlan? && Exec(k, a).Some?
    ensures FindBy(k.state, a.name).None? && Added(k, After(k, a), a.name, "vlan") && Consistent(After(k, a))
    ensures FindVlan(k.state.vlans, a.name).None?
  {
    hide FindIface, FindVlan, FindVxlan, Consistent, Added;
    AddDone(k, a.link, a.name, a.id);
    AddedConsistent(k, After(k, a), a.name, "vlan");
  }

  lemma {:induction false} AfterKeeps(k: Kernel, a: Act, other: Desired, keys: set<Prefix>, ds: Desired)
    requires Belongs(a, other, keys) && Independent(ds, other) && Consistent(k)
    ensures Keeps(ds, k.state, After(k, a).state, KeysOf(a)) && Consistent(After(k, a))
  {
    hide FindBy, StillThere, MasterStays, Keys, UpStaysUp, VlanStaysThere, Exec, Consistent, Added, FindVlan, Routed;
    if a.LinkAddVlan? {
      if Exec(k, a).Some? {
        VlanAdded(k, a);
        AddedImproves(k, After(k, a), a.name, "vlan", ds.bridge);
      } else {
        KeepsSelf(ds, k.state);
      }
    } else {
      BelongsIsMild(a, other, keys);
      AfterImproves(k, a, other.bridge);
      MildConsistent(k, a, other.bridge);
      forall name: string | name in Mine(ds)
        ensures MasterStays(k.state, After(k, a).state, ds.bridge, name)
      {
        if a.LinkMaster? {
          OtherMaster(k, a, ds, name);
        } else {
          MildEither(a, other, ds, k);
        }
      }
    }
  }

  /** What a state needs of a kernel that others have changed since the snapshot. */
  ghost predicate Untouched(ds: Desired, rs: Real, k: Kernel, keys: set<Prefix>) {
    && Consistent(k) && Keeps(ds, rs, k.state, keys) && KindThere(rs, ds.vlan)
    && (HasBridge(ds) ==> SameAddrs(ds, rs, k))
    && forall n :: n in Adds(ds) && FindBy(rs, n).None? ==> FindBy(k.state, n).None?
  }

  /** An address of another bridge is not on this one. */
  lemma {:induction false} OtherAddrs(k: Kernel, a: Act, other: Desired, keys: set<Prefix>, ds: Desired, rs: Real)
    requires Consistent(k) && Belongs(a, other, keys) && HasBridge(ds) && Independent(ds, other) && SameAddrs(ds, rs, k)
    requires StillThere(rs, k.state, ds.bridge)
    ensures SameAddrs(ds, rs, After(k, a))
  {
    hide FindIface, SetUp, SetMaster, ConnectedRoutes, ParsePrefix, ParseIp4, ParseRoute, NoHostBits, KernelOk, MayGoUp,
         OnLink, Mine, Keys, Sole, KindThere;
    assert Apart(k.state, ds.bridge, other.bridge);
  }

  lemma {:induction false} OtherNames(k: Kernel, a: Act, other: Desired, keys: set<Prefix>, ds: Desired, n: string)
    requires Consistent(k) && Belongs(a, other, keys) && Independent(ds, other) && n in Adds(ds)
    requires FindBy(k.state, n).None?
    ensures FindBy(After(k, a).state, n).None?
  {
    hide FindIface, Mine, Keys, Consistent, Exec, After, Added, Mild, FindVlan;
    if a.LinkAddVlan? {
      if Exec(k, a).Some? {
        VlanAdded(k, a);
        FindAdded(k, After(k, a), a.name, "vlan", n);
      } else {
        NotRun(k, a);
      }
    } else {
      BelongsIsMild(a, other, keys);
      MildNumbers(k, a, other.bridge, n);
      BridgeOrNone(k, a, other, keys, n);
    }
  }

  lemma {:induction false} NotRun(k: Kernel, a: Act)
    requires Exec(k, a).None?
    ensures After(k, a) == k
  {
  }

  /** A bridge is added only by a state that has one. */
  lemma {:induction false} BridgeOrNone(k: Kernel, a: Act, other: Desired, keys: set<Prefix>, n: string)
    requires Belongs(a, other, keys) && !a.LinkAddVlan? && FindBy(k.state, n).None?
    ensures FindBy(After(k, a).state, n).Some? ==> HasBridge(other) && n == other.bridge
  {
    hide FindIface, SetUp, SetMaster, ConnectedRoutes, ParsePrefix, ParseIp4, ParseRoute, MayGoUp, OnLink, Mine,
         HasBridge;
    match a
    case LinkAddBridge(name) => FindLast(k.state.ifaces, Iface(name, "bridge", k.next, false, 0), n);
    case LinkUp(name) => FindUp(k.state.ifaces, name, n);
    case LinkMaster(name, br) =>
      if FindBy(k.state, br).Some? {
        FindMaster(k.state.ifaces, name, FindBy(k.state, br).value.ifindex, n);
      }
    case _ =>
  }

  lemma {:induction false} AfterUntouched(k: Kernel, a: Act, other: Desired, theirs: set<Prefix>, ds: Desired, rs: Real,
                                          keys: set<Prefix>)
    requires Untouched(ds, rs, k, keys) && Belongs(a, other, theirs) && Independent(ds, other)
    ensures Untouched(ds, rs, After(k, a), keys + KeysOf(a))
  {
    hide After, Consistent, FindBy, Mine, Adds, Keys, SameAddrs, Belongs, KeysOf, Independent, KindThere;
    AfterKeeps(k, a, other, theirs, ds);
    KeepsTwice(ds, rs, k.state, After(k, a).state, keys, KeysOf(a));
    forall n | n in Adds(ds) && FindBy(rs, n).None?
      ensures FindBy(After(k, a).state, n).None?
    {
      OtherNames(k, a, other, theirs, ds, n);
    }
    if HasBridge(ds) {
      OtherAddrs(k, a, other, theirs, ds, rs);
    }
  }

  lemma {:induction false} RunUntouched(k: Kernel, acts: seq<Act>, other: Desired, theirs: set<Prefix>, ds: Desired,
                                        rs: Real, keys: set<Prefix>)
    requires Untouched(ds, rs, k, keys) && AllBelong(acts, other, theirs) && Independent(ds, other)
    ensures Untouched(ds, rs, RunActs(k, acts), keys + KeysOfAll(acts))
    decreases |acts|
  {
    hide After, Untouched, Independent, Belongs, KeysOf;
    if acts == [] {
      assert keys + {} == keys;
    } else {
      AfterUntouched(k, acts[0], other, theirs, ds, rs, keys);
      RunUntouched(After(k, acts[0]), acts[1..], other, theirs, ds, rs, keys + KeysOf(acts[0]));
      assert keys + KeysOf(acts[0]) + KeysOfAll(acts[1..]) == keys + KeysOfAll(acts);
    }
  }

  lemma {:induction false} RunKeeps(k: Kernel, acts: seq<Act>, other: Desired, theirs: set<Prefix>, ds: Desired)
    requires AllBelong(acts, other, theirs) && Independent(ds, other) && Consistent(k)
    ensures Keeps(ds, k.state, RunActs(k, acts).state, KeysOfAll(acts))
    decreases |acts|
  {
    hide After, Independent, Belongs, KeysOf, Keeps, Consistent;
    if acts == [] {
      KeepsSelf(ds, k.state);
    } else {
      AfterKeeps(k, acts[0], other, theirs, ds);
      RunKeeps(After(k, acts[0]), acts[1..], other, theirs, ds);
      KeepsTwice(ds, k.state, After(k, acts[0]).state, RunActs(k, acts).state, KeysOf(acts[0]), KeysOfAll(acts[1..]));
    }
  }

  lemma {:induction false} RunStaysConsistent(k: Kernel, acts: seq<Act>, ds: Desired, keys: set<Prefix>)
    requires AllBelong(acts, ds, keys) && Consistent(k)
    ensures Consistent(RunActs(k, acts))
    decreases |acts|
  {
    hide Belongs, Consistent, Exec, Added;
    if acts != [] {
      var a := acts[0];
      if a.LinkAddVlan? {
        if Exec(k, a).Some? {
          VlanAdded(k, a);
        }
      } else {
        BelongsIsMild(a, ds, keys);
        MildConsistent(k, a, ds.bridge);
      }
      RunStaysConsistent(After(k, a), acts[1..], ds, keys);
    }
  }

  // A snapshot without the masters of interfaces that a state has no say in.

  const NO_MASTER := -1

  function Masked(ifaces: seq<Iface>, names: set<string>): seq<Iface> {
    if ifaces == [] then []
    else [if ifaces[0].name in names then ifaces[0] else ifaces[0].(master := NO_MASTER)] + Masked(ifaces[1..], names)
  }

  function Own(ds: Desired, rs: Real): Real {
    rs.(ifaces := Masked(rs.ifaces, Mine(ds)))
  }

  lemma {:induction false} FindMasked(ifaces: seq<Iface>, names: set<string>, n: string)
    ensures FindIface(Masked(ifaces, names), n) ==
            match FindIface(ifaces, n)
            case None => None
            case Some(i) => Some(if n in names then i else i.(master := NO_MASTER))
  {
    if ifaces != [] {
      FindMasked(ifaces[1..], names, n);
      assert Masked(ifaces, names)[1..] == Masked(ifaces[1..], names);
    }
  }

  /** What an interface looks like there. */
  lemma {:induction false} FindOwn(ds: Desired, rs: Real, n: string)
    ensures FindBy(Own(ds, rs), n).Some? <==> FindBy(rs, n).Some?
    ensures FindBy(rs, n).Some? ==>
              && FindBy(Own(ds, rs), n).value == FindBy(rs, n).value.(master := FindBy(Own(ds, rs), n).value.master)
              && FindBy(Own(ds, rs), n).value.master == if n in Mine(ds) then FindBy(rs, n).value.master
                 else NO_MASTER
  {
    hide FindIface, Masked, Mine;
    FindMasked(rs.ifaces, Mine(ds), n);
  }

  lemma {:induction false} SameBridge(ds: Desired, rs: Real)
    ensures BridgeReport(ds, Own(ds, rs)) == BridgeReport(ds, rs)
  {
    hide CheckBridge, CheckAddr, CheckGateway, CheckDns, Mine, Masked;
    SameAddress(ds, rs);
    SameGateway(ds, rs);
    SameDns(ds.dns, rs, Own(ds, rs));
  }

  lemma {:induction false} SameAddress(ds: Desired, rs: Real)
    ensures CheckBridge(ds, Own(ds, rs)) == CheckBridge(ds, rs) && CheckAddr(ds, Own(ds, rs)) == CheckAddr(ds, rs)
  {
    hide FindBy, ParsePrefix, Subst, Mine, Masked;
    FindOwn(ds, rs, ds.bridge);
  }

  lemma {:induction false} SameGateway(ds: Desired, rs: Real)
    ensures CheckGateway(ds, Own(ds, rs)) == CheckGateway(ds, rs)
  {
    hide FindBy, ParseIp4, Mine, Masked;
    FindOwn(ds, rs, ds.bridge);
  }

  lemma {:induction false} SameDns(dns: seq<string>, rs: Real, u: Real)
    requires u.dns == rs.dns
    ensures CheckDns(dns, u) == CheckDns(dns, rs)
  {
    hide ParseIp4;
    if dns != [] {
      SameDns(dns[1..], rs, u);
    }
  }

  lemma {:induction false} SameMember(name: string, ds: Desired, rs: Real)
    requires name in Mine(ds)
    ensures CheckUp(name, FindBy(Own(ds, rs), name)) == CheckUp(name, FindBy(rs, name))
    ensures CheckMaster(name, FindBy(Own(ds, rs), name), ds.bridge, Own(ds, rs)) ==
            CheckMaster(name, FindBy(rs, name), ds.bridge, rs)
  {
    hide FindBy, Mine, Own;
    FindOwn(ds, rs, ds.bridge);
    FindOwn(ds, rs, name);
  }

  lemma {:induction false} SamePorts(ports: seq<string>, ds: Desired, rs: Real)
    requires forall i :: 0 <= i < |ports| ==> ports[i] in Mine(ds)
    ensures CheckPorts(ports, ds.bridge, Own(ds, rs)) == CheckPorts(ports, ds.bridge, rs)
    decreases |ports|
  {
    hide FindBy, Mine, Own, CheckUp, CheckMaster;
    if ports != [] {
      FindOwn(ds, rs, ports[0]);
      SameMember(ports[0], ds, rs);
      SamePorts(ports[1..], ds, rs);
    }
  }

  lemma {:induction false} SameRouteReports(routes: seq<DesiredRoute>, ds: Desired, rs: Real)
    ensures CheckRoutes(routes, Own(ds, rs)) == CheckRoutes(routes, rs)
    decreases |routes|
  {
    hide FindBy, Mine, Masked, ParseRoute;
    if routes != [] {
      FindOwn(ds, rs, routes[0].dev);
      SameRouteReports(routes[1..], ds, rs);
    }
  }

  lemma {:induction false} SameUplink(ds: Desired, rs: Real)
    ensures CheckUplink(ds, Own(ds, rs)) == CheckUplink(ds, rs)
  {
    hide FindBy, Own, Mine;
    FindOwn(ds, rs, ds.uplink);
  }

  lemma {:induction false} SameVlan(ds: Desired, rs: Real)
    requires ScenarioOf(ds.scenario) == VlanBridge && ds.vlanBridge == ds.bridge
    ensures CheckVlan(ds, Own(ds, rs)) == CheckVlan(ds, rs)
    ensures Recreated(ds, Own(ds, rs)) <==> Recreated(ds, rs)
  {
    hide FindBy, Masked, FindVlan, CheckUp, CheckMaster;
    FindOwn(ds, rs, ds.vlan);
    FindOwn(ds, rs, ds.vlanLink);
    SameMember(ds.vlan, ds, rs);
  }

  lemma {:induction false} SameReport(ds: Desired, rs: Real)
    requires SetPlaced(ds, rs)
    ensures StateReport(ds, Own(ds, rs)) == StateReport(ds, rs)
  {
    hide FindBy, Own, BridgeReport, CheckUplink, CheckMaster, CheckPorts, CheckRoutes, CheckVlan, BridgePlaced,
         MembersThere, DistinctKeys, Lifts, Alone, UpOk, Recreated, Elsewhere;
    SameUplink(ds, rs);
    SameRouteReports(ds.routes, ds, rs);
    if HasBridge(ds) {
      SameBridge(ds, rs);
      SamePorts(ds.ports, ds, rs);
      if ScenarioOf(ds.scenario) == VlanBridge {
        SameVlan(ds, rs);
      } else {
        SameMember(ds.uplink, ds, rs);
      }
    }
  }

  lemma {:induction false} UpOwn(ds: Desired, rs: Real, index: int)
    ensures UpNumber(Own(ds, rs), index) <==> UpNumber(rs, index)
  {
    hide Masked, Mine;
    var names := Mine(ds);
    if UpNumber(rs, index) {
      var i :| i in rs.ifaces && i.ifindex == index && i.up;
      var j := MaskedTo(rs.ifaces, names, i);
    }
    if UpNumber(Own(ds, rs), index) {
      var j :| j in Own(ds, rs).ifaces && j.ifindex == index && j.up;
      var i := MaskedFrom(rs.ifaces, names, j);
    }
  }

  lemma {:induction false} MaskedTo(ifaces: seq<Iface>, names: set<string>, i: Iface) returns (j: Iface)
    requires i in ifaces
    ensures j in Masked(ifaces, names) && j.ifindex == i.ifindex && j.up == i.up
  {
    if i == ifaces[0] {
      j := Masked(ifaces, names)[0];
    } else {
      j := MaskedTo(ifaces[1..], names, i);
    }
  }

  lemma {:induction false} MaskedFrom(ifaces: seq<Iface>, names: set<string>, j: Iface) returns (i: Iface)
    requires j in Masked(ifaces, names)
    ensures i in ifaces && j.ifindex == i.ifindex && j.up == i.up
  {
    if j == Masked(ifaces, names)[0] {
      i := ifaces[0];
    } else {
      i := MaskedFrom(ifaces[1..], names, j);
    }
  }

  lemma {:induction false} OwnLifts(ds: Desired, rs: Real, name: string)
    ensures Lifts(name, Own(ds, rs)) <==> Lifts(name, rs)
  {
    hide FindBy, Masked, Mine, FindVlan, UpNumber;
    FindOwn(ds, rs, name);
    var vl := FindVlan(rs.vlans, name);
    if vl.Some? && vl.value.link.Some? {
      UpOwn(ds, rs, vl.value.link.value);
    }
  }

  lemma {:induction false} OwnBridge(ds: Desired, rs: Real)
    requires BridgePlaced(ds, rs)
    ensures BridgePlaced(ds, Own(ds, rs))
  {
    hide FindBy, Mine, Masked, ParsePrefix, ParseIp4, NotAmong;
    FindOwn(ds, rs, ds.bridge);
  }

  lemma {:induction false} OwnMembers(ds: Desired, rs: Real)
    requires MembersThere(ds, rs)
    ensures MembersThere(ds, Own(ds, rs))
  {
    hide Lifts, Own;
    OwnLifts(ds, rs, ds.uplink);
    forall i | 0 <= i < |ds.ports|
      ensures Lifts(ds.ports[i], Own(ds, rs)) && ds.ports[i] != ds.bridge
    {
      OwnLifts(ds, rs, ds.ports[i]);
    }
  }

  lemma {:induction false} OwnPlaced(ds: Desired, rs: Real)
    requires SetPlaced(ds, rs)
    ensures SetPlaced(ds, Own(ds, rs))
  {
    hide FindBy, Own, BridgePlaced, MembersThere, DistinctKeys, Lifts, Recreated, NothingOver, Links, GatewayGoes;
    if ScenarioOf(ds.scenario) == OnlyUplink {
      OwnLifts(ds, rs, ds.uplink);
    } else {
      OwnBridge(ds, rs);
      OwnMembers(ds, rs);
      if ScenarioOf(ds.scenario) == VlanBridge {
        SameVlan(ds, rs);
        FindOwn(ds, rs, ds.vlanLink);
      }
    }
  }

  lemma {:induction false} OwnParts(ds: Desired, rs: Real, dev: string)
    ensures AddrLinks(dev, Own(ds, rs)) == AddrLinks(dev, rs) && (UpOk(dev, Own(ds, rs)) <==> UpOk(dev, rs))
  {
    hide FindBy, Mine, Masked, Network;
    FindOwn(ds, rs, dev);
  }

  lemma {:induction false} OwnRaised(ds: Desired, rs: Real, names: seq<string>, links: set<Link>)
    ensures RaisedLinks(names, Own(ds, rs), links) == RaisedLinks(names, rs, links)
    decreases |names|
  {
    hide Own, AddrLinks, UpOk;
    if names != [] {
      OwnParts(ds, rs, names[0]);
      OwnRaised(ds, rs, names[1..], links + if UpOk(names[0], rs) then {} else AddrLinks(names[0], rs));
    }
  }

  lemma {:induction false} OwnGateway(ds: Desired, rs: Real, links: set<Link>)
    ensures BridgeLinks(ds, Own(ds, rs), links) == BridgeLinks(ds, rs, links)
    ensures GatewayLinks(ds, Own(ds, rs), links) == GatewayLinks(ds, rs, links)
    ensures GatewayGoes(ds, Own(ds, rs), links) <==> GatewayGoes(ds, rs, links)
  {
    hide FindBy, Mine, Masked, ParsePrefix, ParseIp4, AddrLinks, UpOk, Covered, AddrKey;
    FindOwn(ds, rs, ds.bridge);
    OwnParts(ds, rs, ds.bridge);
  }

  lemma {:induction false} OwnRoute(ds: Desired, rs: Real, rt: DesiredRoute, devs: set<string>, links: set<Link>)
    ensures RouteGoes(rt, devs, Own(ds, rs), links) <==> RouteGoes(rt, devs, rs, links)
    ensures RouteLinks(rt, Own(ds, rs), links) == RouteLinks(rt, rs, links)
  {
    hide FindBy, Mine, Masked, ParsePrefix, ParseIp4, Covered, NoHostBits, UpOk;
    FindOwn(ds, rs, rt.dev);
    OwnParts(ds, rs, rt.dev);
  }

  lemma {:induction false} OwnRoutes(ds: Desired, rs: Real, routes: seq<DesiredRoute>, devs: set<string>,
                                     links: set<Link>)
    ensures RoutesGo(routes, devs, Own(ds, rs), links) <==> RoutesGo(routes, devs, rs, links)
    ensures RoutesLinks(routes, Own(ds, rs), links) == RoutesLinks(routes, rs, links)
    decreases |routes|
  {
    hide Own, RouteGoes, RouteLinks;
    if routes != [] {
      OwnRoute(ds, rs, routes[0], devs, links);
      OwnRoutes(ds, rs, routes[1..], devs, RouteLinks(routes[0], rs, links));
    }
  }

  lemma {:induction false} OwnSetLinks(ds: Desired, rs: Real, links: set<Link>)
    ensures SetLinks(ds, Own(ds, rs), links) == SetLinks(ds, rs, links)
  {
    hide Own, RaisedLinks, BridgeLinks, GatewayLinks, AddrLinks, UpOk;
    OwnRaised(ds, rs, [ds.uplink], links);
    OwnGateway(ds, rs, links);
    OwnGateway(ds, rs, BridgeLinks(ds, rs, links));
    var mid := GatewayLinks(ds, rs, BridgeLinks(ds, rs, links));
    OwnRaised(ds, rs, [ds.uplink] + ds.ports, mid);
    OwnRaised(ds, rs, Raised(ds, UplinkUp), mid);
    OwnParts(ds, rs, ds.vlan);
  }

  lemma {:induction false} OwnCarried(ds: Desired, rs: Real, links: set<Link>)
    ensures SetCarried(ds, Own(ds, rs), links) <==> SetCarried(ds, rs, links)
    ensures EndLinks(ds, Own(ds, rs), links) == EndLinks(ds, rs, links)
  {
    hide Own, SetLinks, RoutesGo, RoutesLinks, GatewayGoes, SetDevs;
    OwnSetLinks(ds, rs, links);
    OwnGateway(ds, rs, links);
    OwnRoutes(ds, rs, ds.routes, SetDevs(ds), SetLinks(ds, rs, links));
  }

  lemma {:induction false} OwnImproves(ds: Desired, rs: Real, k: Kernel, keys: set<Prefix>)
    requires Untouched(ds, rs, k, keys)
    ensures Improves(Own(ds, rs), k.state, ds.bridge, keys)
  {
    hide FindBy, Mine, Masked, KernelOk, FindVlan, UpNumber, Sound;
    var own := Own(ds, rs);
    IsConsistent(k);
    FindOwn(ds, rs, ds.bridge);
    NumberOf(k, ds.bridge);
    assert StillThere(rs, k.state, ds.bridge);
    forall n: string
      ensures StillThere(own, k.state, n) && MasterStays(own, k.state, ds.bridge, n)
    {
      FindOwn(ds, rs, n);
      assert StillThere(rs, k.state, n) && (n in Mine(ds) ==> MasterStays(rs, k.state, ds.bridge, n));
    }
    forall index: int
      ensures UpStaysUp(own, k.state, index)
    {
      UpOwn(ds, rs, index);
      assert UpStaysUp(rs, k.state, index);
    }
    forall n: string
      ensures VlanStaysThere(own, k.state, n)
    {
      assert VlanStaysThere(rs, k.state, n);
    }
  }

  lemma {:induction false} RoutesApart(ds: Desired, keys: set<Prefix>)
    requires keys !! Keys(Routed(ds))
    ensures NotAmong(ds.routes, keys) && (HasBridge(ds) && ds.gateway != "" ==> Prefix(0, 0) !in keys)
  {
    hide RouteKey, HasBridge;
    forall i | 0 <= i < |ds.routes| && RouteKey(ds.routes[i]).Some?
      ensures RouteKey(ds.routes[i]).value !in keys
    {
      assert Routed(ds).routes == ds.routes;
      assert RouteKey(Routed(ds).routes[i]).value in Keys(Routed(ds));
    }
    if HasBridge(ds) && ds.gateway != "" {
      assert Prefix(0, 0) in Keys(ds);
    }
  }

  lemma {:induction false} OwnStarts(ds: Desired, rs: Real, k: Kernel, keys: set<Prefix>)
    requires Untouched(ds, rs, k, keys) && keys !! Keys(Routed(ds))
    ensures Starts(ds, Own(ds, rs), k, keys)
  {
    hide FindBy, Masked, Mine, Consistent, Improves, Keeps, NotAmong, Keys, FindVlan, FindVxlan;
    OwnImproves(ds, rs, k, keys);
    RoutesApart(ds, keys);
    FindOwn(ds, rs, ds.bridge);
    FindOwn(ds, rs, ds.vlan);
  }

  /** A state is repaired on a kernel that others have changed. */
  lemma {:induction false} StateRepaired(ds: Desired, rs: Real, k: Kernel, keys: set<Prefix>, links: set<Link>)
    requires SetPlaced(ds, rs) && SetCarried(ds, rs, links) && Untouched(ds, rs, k, keys) && keys !! Keys(Routed(ds))
    requires links <= Links(k.state)
    ensures var acts := Acts(StateReport(ds, rs));
            && !AnyFails(k, acts) && Satisfied(ds, RunActs(k, acts).state)
            && AllBelong(acts, ds, Replaced(Routed(ds), rs))
            && Consistent(RunActs(k, acts)) && EndLinks(ds, rs, links) <= Links(RunActs(k, acts).state)
  {
    hide Untouched, Keys, Own, Acts, RunActs, AnyFails, Satisfied, StateReport, Starts, AllBelong, Consistent,
         SetPlaced, SetCarried, FindIface, Links, EndLinks, Replaced, Routed, KindThere;
    OwnPlaced(ds, rs);
    OwnCarried(ds, rs, links);
    OwnStarts(ds, rs, k, keys);
    SameReport(ds, rs);
    PlannedDone(ds, Own(ds, rs), k, keys, links);
    UntouchedConsistent(ds, rs, k, keys);
    StateBelongs(ds, rs);
    RunStaysConsistent(k, Acts(StateReport(ds, rs)), ds, Replaced(Routed(ds), rs));
  }

  lemma {:induction false} UntouchedConsistent(ds: Desired, rs: Real, k: Kernel, keys: set<Prefix>)
    requires Untouched(ds, rs, k, keys)
    ensures Consistent(k) && KindThere(rs, ds.vlan)
  {
  }

  // And stays so when others are repaired.

  lemma {:induction false} BridgeKept(ds: Desired, rs: Real, u: Real, keys: set<Prefix>)
    requires BridgePartOk(ds, rs) && Keeps(ds, rs, u, keys) && !ds.addrMode.Dhcp?
    requires ds.gateway != "" ==> Prefix(0, 0) !in keys
    ensures BridgePartOk(ds, u)
  {
    hide FindBy, ParsePrefix, ParseIp4, Mine, FindVlan, UpNumber;
    assert StillThere(rs, u, ds.bridge);
  }

  lemma {:induction false} MemberKept(ds: Desired, rs: Real, u: Real, keys: set<Prefix>, n: string)
    requires Keeps(ds, rs, u, keys)
    ensures UpOk(n, rs) ==> UpOk(n, u)
    ensures n in Mine(ds) && MasterOk(n, ds.bridge, rs) ==> MasterOk(n, ds.bridge, u)
  {
    hide FindBy, Mine, FindVlan, UpNumber;
    assert StillThere(rs, u, n) && (n in Mine(ds) ==> MasterStays(rs, u, ds.bridge, n));
  }

  lemma {:induction false} PortsKept(ds: Desired, rs: Real, u: Real, keys: set<Prefix>)
    requires Keeps(ds, rs, u, keys) && PortsOk(ds.ports, ds.bridge, rs)
    requires forall i :: 0 <= i < |ds.ports| ==> ds.ports[i] in Mine(ds)
    ensures PortsOk(ds.ports, ds.bridge, u)
  {
    hide Keeps, Mine, UpOk, MasterOk;
    forall i | 0 <= i < |ds.ports|
      ensures UpOk(ds.ports[i], u) && MasterOk(ds.ports[i], ds.bridge, u)
    {
      MemberKept(ds, rs, u, keys, ds.ports[i]);
    }
  }

  lemma {:induction false} VlanKept(ds: Desired, rs: Real, u: Real, keys: set<Prefix>)
    requires Keeps(ds, rs, u, keys) && VlanOk(ds, rs) && ds.vlan in Mine(ds) && ds.vlanBridge == ds.bridge
    ensures VlanOk(ds, u)
  {
    hide FindBy, Mine, FindVlan, UpNumber, UpOk, MasterOk;
    assert StillThere(rs, u, ds.vlanLink) && VlanStaysThere(rs, u, ds.vlan);
    MemberKept(ds, rs, u, keys, ds.vlan);
  }

  lemma {:induction false} RouteKept(rt: DesiredRoute, ds: Desired, rs: Real, u: Real, keys: set<Prefix>)
    requires RouteOk(rt, rs) && Keeps(ds, rs, u, keys) && NotAmong([rt], keys)
    ensures RouteOk(rt, u)
  {
    hide FindBy, ParsePrefix, ParseIp4, Mine, FindVlan, UpNumber;
    assert StillThere(rs, u, rt.dev) && [rt][0] == rt;
    assert RouteKey(rt) == Some(ParseRoute(rt).value.prefix);
  }

  lemma {:induction false} RoutesKept(ds: Desired, rs: Real, u: Real, keys: set<Prefix>)
    requires RoutesOk(ds.routes, rs) && Keeps(ds, rs, u, keys) && NotAmong(ds.routes, keys)
    ensures RoutesOk(ds.routes, u)
  {
    hide RouteOk, RouteKey, Keeps;
    forall i | 0 <= i < |ds.routes|
      ensures RouteOk(ds.routes[i], u)
    {
      assert [ds.routes[i]][0] == ds.routes[i];
      RouteKept(ds.routes[i], ds, rs, u, keys);
    }
  }

  /** Not DHCP, and a vlan in its own bridge. */
  predicate Plainly(ds: Desired) {
    (HasBridge(ds) ==> !ds.addrMode.Dhcp?) && (ScenarioOf(ds.scenario) == VlanBridge ==> ds.vlanBridge == ds.bridge)
  }

  lemma {:induction false} PlacedPlainly(ds: Desired, rs: Real)
    requires SetPlaced(ds, rs)
    ensures Plainly(ds) && !ScenarioOf(ds.scenario).Unsupported? && ScenarioOf(ds.scenario) != WgVxlanBridge
  {
    hide DnsOk, NotAmong, MembersThere, DistinctKeys, Lifts, Alone, UpOk, Recreated, FindIface;
  }

  lemma {:induction false} SatisfiedStays(ds: Desired, rs: Real, u: Real, keys: set<Prefix>)
    requires Plainly(ds) && ScenarioOf(ds.scenario) != WgVxlanBridge && Satisfied(ds, rs)
    requires Keeps(ds, rs, u, keys) && keys !! Keys(Routed(ds))
    ensures Satisfied(ds, u)
  {
    hide Keeps, Keys, Routed, BridgePartOk, UpOk, MasterOk, PortsOk, VlanOk, RoutesOk, NotAmong;
    RoutesApart(ds, keys);
    RoutesKept(ds, rs, u, keys);
    MemberKept(ds, rs, u, keys, ds.uplink);
    if HasBridge(ds) {
      BridgeKept(ds, rs, u, keys);
      PortsKept(ds, rs, u, keys);
      if ScenarioOf(ds.scenario) == VlanBridge {
        VlanKept(ds, rs, u, keys);
      }
    }
  }

  // All states.

  predicate AllIndependent(states: seq<Desired>) {
    forall i, j :: 0 <= i < |states| && 0 <= j < |states| && i != j ==> Independent(states[i], states[j])
  }

  /** The networks that are on-link after the commands for some states. */
  function LinksBy(states: seq<Desired>, rs: Real): set<Link> {
    if states == [] then Links(rs) else EndLinks(states[|states| - 1], rs, LinksBy(states[..|states| - 1], rs))
  }

  /** Every state is one whose parts are there or can be made, and every next hop is on-link when it is needed. */
  predicate AllRepairable(states: seq<Desired>, rs: Real) {
    forall i :: 0 <= i < |states| ==> SetPlaced(states[i], rs) && SetCarried(states[i], rs, LinksBy(states[..i], rs))
  }

  /** The keys that the commands for some states replace. */
  function ReplacedBy(states: seq<Desired>, rs: Real): set<Prefix> {
    if states == [] then {}
    else ReplacedBy(states[..|states| - 1], rs) + Replaced(Routed(states[|states| - 1]), rs)
  }

  lemma {:induction false} KeysAreApart(states: seq<Desired>, rs: Real, n: nat, ds: Desired)
    requires n <= |states| && forall j :: 0 <= j < n ==> Independent(ds, states[j])
    ensures ReplacedBy(states[..n], rs) !! Keys(Routed(ds))
    decreases n
  {
    hide Keys, Mine, Adds, Replaced, Routed;
    if n > 0 {
      assert states[..n][..n - 1] == states[..n - 1];
      KeysAreApart(states, rs, n - 1, ds);
      FewerKeys(Routed(states[n - 1]), rs);
    }
  }

  /** After the first states: they are satisfied, and the others are as they were. */
  ghost predicate DoneUpTo(states: seq<Desired>, rs: Real, k: Kernel, n: nat)
    requires n <= |states|
  {
    && Consistent(k) && LinksBy(states[..n], rs) <= Links(k.state)
    && (forall i :: 0 <= i < n ==> Satisfied(states[i], k.state))
    && (forall i :: n <= i < |states| ==> Untouched(states[i], rs, k, ReplacedBy(states[..n], rs)))
  }

  lemma {:induction false} MoreKeys(ds: Desired, rs: Real, k: Kernel, keys: set<Prefix>, more: set<Prefix>)
    requires Untouched(ds, rs, k, keys) && keys <= more
    ensures Untouched(ds, rs, k, more)
  {
    hide Consistent, FindBy, Mine, Adds, StillThere, MasterStays, UpStaysUp, VlanStaysThere, KindThere, SameAddrs;
  }

  lemma {:induction false} OneMoreDone(states: seq<Desired>, rs: Real, k: Kernel, n: nat)
    requires n < |states| && AllIndependent(states) && AllRepairable(states, rs) && DoneUpTo(states, rs, k, n)
    ensures var acts := Acts(StateReport(states[n], rs));
            !AnyFails(k, acts) && DoneUpTo(states, rs, RunActs(k, acts), n + 1)
  {
    hide Acts, RunActs, AnyFails, Satisfied, StateReport, Untouched, Keys, Mine, Adds, AllBelong, Consistent, Keeps,
         Independent, SetPlaced, SetCarried, Links, EndLinks, Replaced, Routed;
    var ds, keys := states[n], ReplacedBy(states[..n], rs);
    var mine := Replaced(Routed(ds), rs);
    assert states[..n + 1][..n] == states[..n];
    KeysAreApart(states, rs, n, ds);
    StateRepaired(ds, rs, k, keys, LinksBy(states[..n], rs));
    var acts := Acts(StateReport(ds, rs));
    var u := RunActs(k, acts);
    BelongKeys(acts, ds, mine);
    FewerKeys(Routed(ds), rs);
    forall i | 0 <= i < n
      ensures Satisfied(states[i], u.state)
    {
      RunKeeps(k, acts, ds, mine, states[i]);
      PlacedPlainly(states[i], rs);
      ApartKeys(states[i], ds, KeysOfAll(acts));
      SatisfiedStays(states[i], k.state, u.state, KeysOfAll(acts));
    }
    forall i | n + 1 <= i < |states|
      ensures Untouched(states[i], rs, u, ReplacedBy(states[..n + 1], rs))
    {
      RunUntouched(k, acts, ds, mine, states[i], rs, keys);
      MoreKeys(states[i], rs, u, keys + KeysOfAll(acts), ReplacedBy(states[..n + 1], rs));
    }
  }

  lemma {:induction false} ApartKeys(a: Desired, b: Desired, keys: set<Prefix>)
    requires Independent(a, b) && keys <= Keys(Routed(b))
    ensures keys !! Keys(Routed(a))
  {
    hide Keys, Mine, Adds, Routed;
  }

  lemma {:induction false} NoneDone(states: seq<Desired>, k: Kernel)
    requires Consistent(k)
    ensures DoneUpTo(states, k.state, k, 0)
  {
    hide FindIface, KernelOk, Links, Mine, Adds, Keeps, FindVlan, FindVxlan, Sole;
    assert states[..0] == [];
    forall i | 0 <= i < |states|
      ensures Untouched(states[i], k.state, k, ReplacedBy(states[..0], k.state))
    {
      KeepsSelf(states[i], k.state);
      assert KindThere(k.state, states[i].vlan);
    }
  }

  /** The pass over the first states. */
  lemma {:induction false} PassDone(states: seq<Desired>, k: Kernel, n: nat)
    requires n <= |states| && AllIndependent(states) && AllRepairable(states, k.state) && Consistent(k)
    ensures var r := Pass(states[..n], k.state, k, true);
            !r.actFail && DoneUpTo(states, k.state, r.kernel, n)
    decreases n
  {
    hide Acts, RunActs, AnyFails, StateReport, DoneUpTo, SetPlaced, SetCarried, Consistent, LinksBy, AllIndependent,
         Misses, ScenarioOf;
    if n == 0 {
      NoneDone(states, k);
    } else {
      PassDone(states, k, n - 1);
      assert states[..n][..n - 1] == states[..n - 1];
      OneMoreDone(states, k.state, Pass(states[..n - 1], k.state, k, true).kernel, n - 1);
      PlacedPlainly(states[n - 1], k.state);
    }
  }

  /**
   On a host that nobody else changes, one run repairs every set of states of these scenarios that can be repaired and
   have nothing in common, and says so.
   */
  lemma {:induction false} RunRepairsAll(states: seq<Desired>, k: Kernel)
    requires AllIndependent(states) && AllRepairable(states, k.state) && Consistent(k)
    ensures Code(states, k, true) == 0 && AllSatisfied(states, Pass(states, k.state, k, true).kernel.state)
  {
    hide Pass, Missing, Repairs, Satisfied, SetPlaced, SetCarried, Consistent, AllIndependent, Untouched, FindIface,
         LinksBy, Links;
    PassDone(states, k, |states|);
    assert states[..|states|] == states;
    var first := Pass(states, k.state, k, true);
    CleanPass(states, first.kernel.state, first.kernel, false);
  }
}
