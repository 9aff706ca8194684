/** What a kernel that is not damaged looks like, and that commands which only add keep it so. */
module Consistency {
  import opened Wrappers
  import opened NetState
  import opened Verify
  import opened Kernel

  predicate Apart(rs: Real, a: string, b: string) {
    a != b && FindBy(rs, a).Some? && FindBy(rs, b).Some? ==> FindBy(rs, a).value.ifindex != FindBy(rs, b).value.ifindex
  }

  /** What is known of a vlan or a vxlan is known of an interface. */
  predicate KindThere(rs: Real, name: string) {
    FindVlan(rs.vlans, name).Some? || FindVxlan(rs.vxlans, name).Some? ==> FindBy(rs, name).Some?
  }

  /** An interface is the only one of its name. */
  predicate Sole(rs: Real, i: Iface) {
    FindBy(rs, i.name).Some? && FindBy(rs, i.name).value.ifindex == i.ifindex
  }

  /** Interfaces have names and numbers of their own, and vlans and vxlans are interfaces. */
  ghost predicate Sound(rs: Real) {
    && (forall a: string, b: string :: Apart(rs, a, b))
    && (forall name: string :: KindThere(rs, name))
    && (forall i :: i in rs.ifaces ==> Sole(rs, i))
  }

  /** No route goes through a number that is not given yet either. */
  ghost predicate Consistent(k: Kernel) {
    KernelOk(k) && Sound(k.state) && forall r :: r in k.state.routes ==> r.oif < k.next
  }

  lemma {:induction false} IsConsistent(k: Kernel)
    requires Consistent(k)
    ensures KernelOk(k) && Sound(k.state)
  {
  }

  lemma {:induction false} NumberOf(k: Kernel, n: string)
    requires KernelOk(k)
    ensures FindBy(k.state, n).Some? ==> 0 < FindBy(k.state, n).value.ifindex < k.next
  {
    assert Numbered(k, n);
  }

  lemma {:induction false} ConnectedThere(addrs: seq<Addr>, ifindex: int, r: Route)
    requires r in ConnectedRoutes(addrs, ifindex)
    ensures r.oif == ifindex && r.gw == None && exists a :: a in addrs && a.ifindex == ifindex && r == ConnectedRoute(a)
    decreases |addrs|
  {
    if !(addrs[0].ifindex == ifindex && r == ConnectedRoute(addrs[0])) {
      ConnectedThere(addrs[1..], ifindex, r);
    }
  }

  /** The numbers of the interfaces do not change, but for a new bridge, which gets a new one. */
  lemma {:induction false} MildNumbers(k: Kernel, a: Act, bridge: string, n: string)
    requires Mild(a, bridge)
    ensures var u := After(k, a);
            && u.state.vlans == k.state.vlans && u.state.vxlans == k.state.vxlans && u.next >= k.next
            && (FindBy(k.state, n).Some? ==>
                  FindBy(u.state, n).Some? && FindBy(u.state, n).value.ifindex == FindBy(k.state, n).value.ifindex)
            && (FindBy(k.state, n).None? && FindBy(u.state, n).Some? ==>
                  n == bridge && FindBy(u.state, n).value.ifindex == k.next)
  {
    hide FindIface, SetUp, SetMaster, ConnectedRoutes, ParsePrefix, ParseIp4, ParseRoute, MayGoUp, OnLink;
    match a
    case LinkAddBridge(name) => FindLast(k.state.ifaces, Iface(name, "bridge", k.next, false, 0), n);
    case LinkUp(name) => FindUp(k.state.ifaces, name, n);
    case LinkMaster(name, br) =>
      if FindBy(k.state, br).Some? {
        FindMaster(k.state.ifaces, name, FindBy(k.state, br).value.ifindex, n);
      }
    case AddrAdd(_, _) =>
    case RouteReplace(_, _, _) =>
    case Note =>
  }

  lemma {:induction false} MildRoutes(k: Kernel, a: Act, bridge: string, r: Route)
    requires KernelOk(k) && Mild(a, bridge) && r in After(k, a).state.routes && r !in k.state.routes
    ensures r.oif < k.next
  {
    hide FindIface, SetUp, SetMaster, ConnectedRoutes, ParsePrefix, ParseIp4, ParseRoute, FindVlan, UpNumber, OnLink;
    match a
    case LinkUp(name) =>
      assert Numbered(k, name);
      ConnectedThere(k.state.addrs, FindBy(k.state, name).value.ifindex, r);
    case AddrAdd(_, dev) => assert Numbered(k, dev);
    case RouteReplace(_, _, dev) => assert Numbered(k, dev);
    case _ =>
  }

  lemma {:induction false} UpFrom(ifaces: seq<Iface>, name: string, i: Iface) returns (j: Iface)
    requires i in SetUp(ifaces, name)
    ensures j in ifaces && j.name == i.name && j.ifindex == i.ifindex && (i.name != name ==> j == i)
  {
    if i == SetUp(ifaces, name)[0] {
      j := ifaces[0];
    } else if ifaces[0].name == name {
      j := i;
    } else {
      j := UpFrom(ifaces[1..], name, i);
    }
  }

  lemma {:induction false} MasterFrom(ifaces: seq<Iface>, name: string, master: int, i: Iface) returns (j: Iface)
    requires i in SetMaster(ifaces, name, master)
    ensures j in ifaces && j.name == i.name && j.ifindex == i.ifindex && j.up == i.up
  {
    if i == SetMaster(ifaces, name, master)[0] {
      j := ifaces[0];
    } else if ifaces[0].name == name {
      j := i;
    } else {
      j := MasterFrom(ifaces[1..], name, master, i);
    }
  }

  lemma {:induction false} MildSole(k: Kernel, a: Act, bridge: string, i: Iface)
    requires Mild(a, bridge) && i in After(k, a).state.ifaces && forall j :: j in k.state.ifaces ==> Sole(k.state, j)
    ensures Sole(After(k, a).state, i)
  {
    hide FindIface, SetUp, SetMaster, ConnectedRoutes, ParsePrefix, ParseIp4, ParseRoute, MayGoUp, OnLink;
    MildNumbers(k, a, bridge, i.name);
    var j := i;
    if a.LinkUp? && Exec(k, a).Some? {
      j := UpFrom(k.state.ifaces, a.name, i);
    } else if a.LinkMaster? && Exec(k, a).Some? {
      j := MasterFrom(k.state.ifaces, a.name, FindBy(k.state, a.bridge).value.ifindex, i);
    } else if i !in k.state.ifaces {
      FindLast(k.state.ifaces, i, i.name);
    }
    assert j in k.state.ifaces ==> Sole(k.state, j);
  }

  lemma {:induction false} MildConsistent(k: Kernel, a: Act, bridge: string)
    requires Consistent(k) && Mild(a, bridge)
    ensures Consistent(After(k, a))
  {
    hide Mild, After, FindBy, KernelOk, FindVlan, FindVxlan, Sole;
    AfterNumbered(k, a, bridge);
    var u := After(k, a);
    forall x: string, y: string
      ensures Apart(u.state, x, y)
    {
      assert Apart(k.state, x, y);
      MildNumbers(k, a, bridge, x);
      MildNumbers(k, a, bridge, y);
      NumberOf(k, x);
      NumberOf(k, y);
    }
    forall n: string
      ensures KindThere(u.state, n)
    {
      assert KindThere(k.state, n);
      MildNumbers(k, a, bridge, n);
    }
    forall i | i in u.state.ifaces
      ensures Sole(u.state, i)
    {
      MildSole(k, a, bridge, i);
    }
    MildNumbers(k, a, bridge, bridge);
    forall r | r in u.state.routes
      ensures r.oif < u.next
    {
      if r !in k.state.routes {
        MildRoutes(k, a, bridge, r);
      }
    }
  }

  /** Commands that only add. */
  lemma {:induction false} RunConsistent(k: Kernel, acts: seq<Act>, bridge: string)
    requires Consistent(k) && AllMild(acts, bridge)
    ensures Consistent(RunActs(k, acts))
    ensures RunActs(k, acts).state.vlans == k.state.vlans && RunActs(k, acts).state.vxlans == k.state.vxlans
    ensures forall n: string :: n != bridge && FindBy(k.state, n).None? ==> FindBy(RunActs(k, acts).state, n).None?
    decreases |acts|
  {
    hide Consistent, After, Mild, FindIface;
    if acts != [] {
      MildConsistent(k, acts[0], bridge);
      MildNumbers(k, acts[0], bridge, bridge);
      forall n: string | n != bridge && FindBy(k.state, n).None?
        ensures FindBy(After(k, acts[0]).state, n).None?
      {
        MildNumbers(k, acts[0], bridge, n);
      }
      RunConsistent(After(k, acts[0]), acts[1..], bridge);
    }
  }
}
