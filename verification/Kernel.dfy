/** What the repair commands of `verify.c` do to the kernel, and that one pass of them is enough. */
module Kernel {
  import opened Wrappers
  import opened Characters
  import opened NetState
  import opened Substitution
  import opened Verify

  /**
   The kernel: what a snapshot of it shows, the index of the next interface, and what a command of the operator does to
   it, or that it fails.
   */
  datatype Kernel = Kernel(state: Real, next: nat, script: (Real, string) -> Option<Real>)

  /** The kernel numbers interfaces from one, and there is no address on a number not given yet. */
  ghost predicate KernelOk(k: Kernel) {
    && k.next > 0 && (forall name: string :: Numbered(k, name))
    && (forall a :: a in k.state.addrs ==> a.ifindex < k.next)
  }

  predicate Numbered(k: Kernel, name: string) {
    FindBy(k.state, name).Some? ==> 0 < FindBy(k.state, name).value.ifindex < k.next
  }

  function SetUp(ifaces: seq<Iface>, name: string): seq<Iface> {
    if ifaces == [] then []
    else if ifaces[0].name == name then [ifaces[0].(up := true)] + ifaces[1..]
    else [ifaces[0]] + SetUp(ifaces[1..], name)
  }

  function SetMaster(ifaces: seq<Iface>, name: string, master: int): seq<Iface> {
    if ifaces == [] then []
    else if ifaces[0].name == name then [ifaces[0].(master := master)] + ifaces[1..]
    else [ifaces[0]] + SetMaster(ifaces[1..], name, master)
  }

  /** The number with its low bits cleared. */
  function ClearLow(addr: nat, bits: nat): nat
    decreases bits
  {
    if bits == 0 then addr else 2 * ClearLow(addr / 2, bits - 1)
  }

  /** The network an address is in. */
  function Network(addr: nat, len: nat): nat {
    if len > 32 then addr else ClearLow(addr, 32 - len)
  }

  function ConnectedRoute(a: Addr): Route {
    Route(Network(a.addr, a.prefix), a.prefix, None, a.ifindex)
  }

  /** The routes that come with the addresses of an interface when it goes up. */
  function ConnectedRoutes(addrs: seq<Addr>, ifindex: int): seq<Route> {
    if addrs == [] then []
    else if addrs[0].ifindex == ifindex then [ConnectedRoute(addrs[0])] + ConnectedRoutes(addrs[1..], ifindex)
    else ConnectedRoutes(addrs[1..], ifindex)
  }

  function WithoutRoute(routes: seq<Route>, key: Prefix): (r: seq<Route>)
    ensures forall x :: x in r <==> x in routes && (x.dst != key.addr || x.prefix != key.len)
  {
    if routes == [] then []
    else if routes[0].dst == key.addr && routes[0].prefix == key.len then WithoutRoute(routes[1..], key)
    else [routes[0]] + WithoutRoute(routes[1..], key)
  }

  function AddIface(k: Kernel, name: string, kind: string): Kernel {
    k.(state := k.state.(ifaces := k.state.ifaces + [Iface(name, kind, k.next, false, 0)]), next := k.next + 1)
  }

  /** The interface with that number is up. */
  predicate UpNumber(rs: Real, index: int) {
    exists i :: i in rs.ifaces && i.ifindex == index && i.up
  }

  /** An interface is there and can go up: a vlan only over one that is up. */
  predicate MayGoUp(rs: Real, name: string) {
    var iface, vl := FindBy(rs, name), FindVlan(rs.vlans, name);
    && iface.Some?
    && (iface.value.kind == "vlan" ==> vl.Some? && (vl.value.link.Some? ==> UpNumber(rs, vl.value.link.value)))
  }

  /** A next hop is on a network of an interface. */
  predicate OnLink(rs: Real, index: int, gw: nat) {
    exists r :: r in rs.routes && Covers(r, index, gw)
  }

  predicate Covers(r: Route, index: int, gw: nat) {
    r.gw == None && r.oif == index && Network(gw, r.prefix) == r.dst
  }

  /** The result of a command, or nothing if it fails. */
  function Exec(k: Kernel, a: Act): Option<Kernel> {
    match a
    case LinkAddBridge(name) =>
      if FindBy(k.state, name).Some? then None else Some(AddIface(k, name, "bridge"))
    case LinkAddWireguard(name) =>
      if FindBy(k.state, name).Some? then None else Some(AddIface(k, name, "wireguard"))
    case LinkAddVlan(link, name, id) =>
      var parent := FindBy(k.state, link);
      if FindBy(k.state, name).Some? || parent.None? then None
      else
        var u := AddIface(k, name, "vlan");
        Some(u.(state := u.state.(vlans := u.state.vlans + [Vlan(name, Some(id), Some(parent.value.ifindex))])))
    case LinkAddVxlan(name, vni, remote, dev) =>
      var parent := FindBy(k.state, dev);
      var ip := ParseIp4(remote);
      if FindBy(k.state, name).Some? || ip.None? || (dev != "" && parent.None?) then None
      else
        var u := AddIface(k, name, "vxlan");
        var link := if dev != "" then Some(parent.value.ifindex) else None;
        Some(u.(state := u.state.(vxlans := u.state.vxlans + [Vxlan(name, Some(vni), ip, link)])))
    case LinkDel(name) =>
      if FindBy(k.state, name).None? then None else Some(k.(state := Deleted(k.state, FindBy(k.state, name).value)))
    case LinkUp(name) =>
      if !MayGoUp(k.state, name) then None
      else
        var ifindex := FindBy(k.state, name).value.ifindex;
        Some(k.(state := k.state.(ifaces := SetUp(k.state.ifaces, name),
                                  routes := k.state.routes + ConnectedRoutes(k.state.addrs, ifindex))))
    case LinkMaster(name, bridge) =>
      var br := FindBy(k.state, bridge);
      if FindBy(k.state, name).None? || br.None? || br.value.kind != "bridge" || name == bridge then None
      else Some(k.(state := k.state.(ifaces := SetMaster(k.state.ifaces, name, br.value.ifindex))))
    case AddrAdd(addr, dev) =>
      var p, iface := ParsePrefix(addr), FindBy(k.state, dev);
      if p.None? || iface.None? || Addr(iface.value.ifindex, p.value.addr, p.value.len) in k.state.addrs then None
      else
        var a := Addr(iface.value.ifindex, p.value.addr, p.value.len);
        Some(k.(state := k.state.(addrs := k.state.addrs + [a],
                                routes := k.state.routes + if iface.value.up then [ConnectedRoute(a)] else [])))
    case RouteReplace(dst, via, dev) =>
      var r, iface := ParseRoute(DesiredRoute(dst, via, dev)), FindBy(k.state, dev);
      if r.None? || iface.None? || !iface.value.up || !NoHostBits(r.value.prefix) then None
      else if r.value.via.Some? && !OnLink(k.state, iface.value.ifindex, r.value.via.value) then None
      else
        var route := Route(r.value.prefix.addr, r.value.prefix.len, r.value.via, iface.value.ifindex);
        Some(k.(state := k.state.(routes := WithoutRoute(k.state.routes, r.value.prefix) + [route])))
    case Command(text) =>
      if IsComment(a) then Some(k)
      else (match k.script(k.state, text) case None => None case Some(rs) => Some(k.(state := rs)))
    case Note => Some(k)
  }

  predicate NoHostBits(p: Prefix) {
    Network(p.addr, p.len) == p.addr
  }

  /** An interface is a vlan or a vxlan over one of these. */
  predicate IsOn(rs: Real, i: Iface, below: set<int>) {
    || (exists v :: v in rs.vlans && v.ifname == i.name && v.link.Some? && v.link.value in below)
    || (exists v :: v in rs.vxlans && v.ifname == i.name && v.link.Some? && v.link.value in below)
  }

  /** These interfaces, those over them, those over those, and so on. */
  function Stack(rs: Real, below: set<int>, fuel: nat): set<int>
    decreases fuel
  {
    if fuel == 0 then below
    else Stack(rs, below + set i | i in rs.ifaces && IsOn(rs, i, below) :: i.ifindex, fuel - 1)
  }

  function NamesOf(ifaces: seq<Iface>, indices: set<int>): set<string> {
    set i | i in ifaces && i.ifindex in indices :: i.name
  }

  /** A snapshot after an interface is gone, with those over it, and with what was bound to them. */
  function Deleted(rs: Real, gone: Iface): Real {
    var all := Stack(rs, {gone.ifindex}, |rs.ifaces|);
    var names := NamesOf(rs.ifaces, all);
    Real(Freed(Filter(rs.ifaces, (i: Iface) => i.ifindex !in all), all),
         Filter(rs.addrs, (a: Addr) => a.ifindex !in all),
         Filter(rs.routes, (r: Route) => r.oif !in all),
         rs.dns,
         Filter(rs.vxlans, (v: Vxlan) => v.ifname !in names),
         Filter(rs.vlans, (v: Vlan) => v.ifname !in names))
  }

  function FreedOne(i: Iface, masters: set<int>): Iface {
    if i.master in masters then i.(master := 0) else i
  }

  /** The interfaces, without a master that is gone. */
  function Freed(ifaces: seq<Iface>, masters: set<int>): seq<Iface> {
    if ifaces == [] then [] else [FreedOne(ifaces[0], masters)] + Freed(ifaces[1..], masters)
  }

  function Filter<T>(s: seq<T>, keep: T -> bool): seq<T> {
    if s == [] then [] else if keep(s[0]) then [s[0]] + Filter(s[1..], keep) else Filter(s[1..], keep)
  }

  /** The kernel after a command, which changes nothing if it fails. */
  function After(k: Kernel, a: Act): Kernel {
    match Exec(k, a)
    case None => k
    case Some(u) => u
  }

  function RunActs(k: Kernel, acts: seq<Act>): Kernel
    decreases |acts|
  {
    if acts == [] then k else RunActs(After(k, acts[0]), acts[1..])
  }

  lemma {:induction false} RunConcat(k: Kernel, a: seq<Act>, b: seq<Act>)
    ensures RunActs(k, a + b) == RunActs(RunActs(k, a), b)
    decreases |a|
  {
    hide After;
    if a == [] {
      assert a + b == b;
    } else {
      RunConcat(After(k, a[0]), a[1..], b);
      assert (a + b)[1..] == a[1..] + b;
    }
  }

  /** Whether one of the commands fails when they are run one after the other. */
  predicate AnyFails(k: Kernel, acts: seq<Act>)
    decreases |acts|
  {
    acts != [] && (Exec(k, acts[0]).None? || AnyFails(After(k, acts[0]), acts[1..]))
  }

  lemma {:induction false} FailsConcat(k: Kernel, a: seq<Act>, b: seq<Act>)
    ensures AnyFails(k, a + b) <==> AnyFails(k, a) || AnyFails(RunActs(k, a), b)
    decreases |a|
  {
    hide After, Exec;
    if a == [] {
      assert a + b == b;
    } else {
      FailsConcat(After(k, a[0]), a[1..], b);
      assert (a + b)[1..] == a[1..] + b;
    }
  }

  lemma {:induction false} FailsOne(k: Kernel, a: Act)
    ensures AnyFails(k, [a]) <==> Exec(k, a).None?
  {
    hide After, Exec;
    assert [a][1..] == [];
  }

  /** The commands that are run, of those that are printed. */
  function Executed(acts: seq<Act>): seq<Act> {
    if acts == [] then [] else (if IsComment(acts[0]) then [] else [acts[0]]) + Executed(acts[1..])
  }

  lemma {:induction false} ExecutedMore(acts: seq<Act>, a: Act)
    ensures Executed(acts + [a]) == Executed(acts) + if IsComment(a) then [] else [a]
    decreases |acts|
  {
    hide IsComment;
    if acts == [] {
      assert acts + [a] == [a] && [a][1..] == [];
    } else {
      ExecutedMore(acts[1..], a);
      assert (acts + [a])[1..] == acts[1..] + [a];
    }
  }

  lemma {:induction false} CommentIsNothing(k: Kernel, a: Act)
    requires IsComment(a)
    ensures Exec(k, a) == Some(k) && After(k, a) == k
  {
  }

  /** Where nothing is run, nothing fails and nothing changes. */
  lemma {:induction false} NoneExecuted(k: Kernel, acts: seq<Act>)
    requires Executed(acts) == []
    ensures !AnyFails(k, acts) && RunActs(k, acts) == k
    decreases |acts|
  {
    hide After, Exec, IsComment;
    if acts != [] {
      CommentIsNothing(k, acts[0]);
      NoneExecuted(k, acts[1..]);
    }
  }

  lemma {:induction false} FindUp(ifaces: seq<Iface>, name: string, n: string)
    ensures FindIface(SetUp(ifaces, name), n) ==
            match FindIface(ifaces, n)
            case None => None
            case Some(i) => Some(if n == name then i.(up := true) else i)
  {
    if ifaces != [] {
      FindUp(ifaces[1..], name, n);
    }
  }

  lemma {:induction false} FindMaster(ifaces: seq<Iface>, name: string, master: int, n: string)
    ensures FindIface(SetMaster(ifaces, name, master), n) ==
            match FindIface(ifaces, n)
            case None => None
            case Some(i) => Some(if n == name then i.(master := master) else i)
  {
    if ifaces != [] {
      FindMaster(ifaces[1..], name, master, n);
    }
  }

  lemma {:induction false} FindLast(ifaces: seq<Iface>, last: Iface, n: string)
    ensures FindIface(ifaces + [last], n) ==
            if FindIface(ifaces, n).Some? then FindIface(ifaces, n) else if last.name == n then Some(last) else None
  {
    if ifaces == [] {
      assert ifaces + [last] == [last] && [last][1..] == [];
    } else {
      FindLast(ifaces[1..], last, n);
      assert (ifaces + [last])[1..] == ifaces[1..] + [last];
    }
  }

  /** The interface is still there, is the same, and is up if it was. */
  predicate StillThere(rs: Real, u: Real, name: string) {
    FindBy(rs, name).Some? ==>
      && FindBy(u, name).Some?
      && FindBy(u, name).value.ifindex == FindBy(rs, name).value.ifindex
      && FindBy(u, name).value.kind == FindBy(rs, name).value.kind
      && (FindBy(rs, name).value.up ==> FindBy(u, name).value.up)
  }

  predicate MasterStays(rs: Real, u: Real, bridge: string, name: string) {
    MasterOk(name, bridge, rs) ==> MasterOk(name, bridge, u)
  }

  /** What a pass for a bridge never undoes, but for the routes whose keys it replaces. */
  ghost predicate Improves(rs: Real, u: Real, bridge: string, keys: set<Prefix>) {
    && (forall name: string :: StillThere(rs, u, name))
    && (forall name: string :: MasterStays(rs, u, bridge, name))
    && (forall index: int :: UpStaysUp(rs, u, index))
    && (forall name: string :: VlanStaysThere(rs, u, name))
    && (forall a :: a in rs.addrs ==> a in u.addrs)
    && (forall r :: r in rs.routes && Prefix(r.dst, r.prefix) !in keys ==> r in u.routes)
    && u.dns == rs.dns
  }

  predicate UpStaysUp(rs: Real, u: Real, index: int) {
    UpNumber(rs, index) ==> UpNumber(u, index)
  }

  predicate VlanStaysThere(rs: Real, u: Real, name: string) {
    FindVlan(rs.vlans, name).Some? ==> FindVlan(u.vlans, name) == FindVlan(rs.vlans, name)
  }

  lemma {:induction false} ImprovesSelf(rs: Real, bridge: string)
    ensures Improves(rs, rs, bridge, {})
  {
  }

  lemma {:induction false} ImprovesTwice(a: Real, b: Real, c: Real, bridge: string, x: set<Prefix>, y: set<Prefix>)
    requires Improves(a, b, bridge, x) && Improves(b, c, bridge, y)
    ensures Improves(a, c, bridge, x + y)
  {
    hide FindBy, FindVlan, UpNumber;
    forall name: string
      ensures StillThere(a, c, name) && MasterStays(a, c, bridge, name) && VlanStaysThere(a, c, name)
    {
      assert StillThere(a, b, name) && StillThere(b, c, name);
      assert MasterStays(a, b, bridge, name) && MasterStays(b, c, bridge, name);
      assert VlanStaysThere(a, b, name) && VlanStaysThere(b, c, name);
    }
    forall index: int
      ensures UpStaysUp(a, c, index)
    {
      assert UpStaysUp(a, b, index) && UpStaysUp(b, c, index);
    }
  }

  /** The commands that a pass for a bridge, absent or there as a bridge, can give. */
  predicate Mild(a: Act, bridge: string) {
    || a.LinkUp? || a.AddrAdd? || a.RouteReplace? || a.Note? || a == LinkAddBridge(bridge)
    || (a.LinkMaster? && a.bridge == bridge)
  }

  function KeysOf(a: Act): set<Prefix> {
    if a.RouteReplace? && ParsePrefix(a.dst).Some? then {ParsePrefix(a.dst).value} else {}
  }

  lemma {:induction false} AddImproves(k: Kernel, name: string, kind: string, bridge: string)
    requires FindBy(k.state, name).None?
    ensures Improves(k.state, AddIface(k, name, kind).state, bridge, {})
  {
    var u := AddIface(k, name, kind).state;
    forall n: string
      ensures StillThere(k.state, u, n) && MasterStays(k.state, u, bridge, n)
    {
      FindLast(k.state.ifaces, Iface(name, kind, k.next, false, 0), n);
      FindLast(k.state.ifaces, Iface(name, kind, k.next, false, 0), bridge);
    }
    forall i | i in k.state.ifaces
      ensures i in u.ifaces
    {
    }
  }

  lemma {:induction false} SetUpThere(ifaces: seq<Iface>, name: string, i: Iface)
    requires i in ifaces && i.up
    ensures i in SetUp(ifaces, name)
  {
    if ifaces[0] == i {
      if i.name == name {
        assert i.(up := true) == i;
      }
    } else if ifaces[0].name != name {
      SetUpThere(ifaces[1..], name, i);
    }
  }

  lemma {:induction false} SetMasterThere(ifaces: seq<Iface>, name: string, master: int, i: Iface)
    requires i in ifaces
    ensures exists j :: j in SetMaster(ifaces, name, master) && j.ifindex == i.ifindex && j.up == i.up
  {
    if ifaces[0] == i {
      var first := if i.name == name then i.(master := master) else i;
      assert first in SetMaster(ifaces, name, master);
    } else if ifaces[0].name == name {
      assert i in SetMaster(ifaces, name, master);
    } else {
      SetMasterThere(ifaces[1..], name, master, i);
      var j :| j in SetMaster(ifaces[1..], name, master) && j.ifindex == i.ifindex && j.up == i.up;
      assert j in SetMaster(ifaces, name, master);
    }
  }

  lemma {:induction false} UpImproves(k: Kernel, name: string, bridge: string)
    ensures Improves(k.state, After(k, LinkUp(name)).state, bridge, {})
  {
    hide SetUp, ConnectedRoutes, FindIface;
    var u := After(k, LinkUp(name)).state;
    forall n: string
      ensures StillThere(k.state, u, n) && MasterStays(k.state, u, bridge, n)
    {
      FindUp(k.state.ifaces, name, n);
      FindUp(k.state.ifaces, name, bridge);
    }
    forall index: int
      ensures UpStaysUp(k.state, u, index)
    {
      if UpNumber(k.state, index) {
        var i :| i in k.state.ifaces && i.ifindex == index && i.up;
        SetUpThere(k.state.ifaces, name, i);
      }
    }
  }

  lemma {:induction false} MasterImproves(k: Kernel, name: string, bridge: string)
    ensures Improves(k.state, After(k, LinkMaster(name, bridge)).state, bridge, {})
  {
    hide SetMaster, FindIface;
    var u := After(k, LinkMaster(name, bridge)).state;
    var br := FindBy(k.state, bridge);
    forall n: string
      ensures StillThere(k.state, u, n) && MasterStays(k.state, u, bridge, n)
    {
      if br.Some? {
        FindMaster(k.state.ifaces, name, br.value.ifindex, n);
        FindMaster(k.state.ifaces, name, br.value.ifindex, bridge);
      }
    }
    forall index: int
      ensures UpStaysUp(k.state, u, index)
    {
      if br.Some? && UpNumber(k.state, index) {
        var i :| i in k.state.ifaces && i.ifindex == index && i.up;
        SetMasterThere(k.state.ifaces, name, br.value.ifindex, i);
      }
    }
  }

  lemma {:induction false} SameIfaces(rs: Real, u: Real, bridge: string)
    requires u.ifaces == rs.ifaces && u.vlans == rs.vlans
    ensures forall name: string :: StillThere(rs, u, name) && MasterStays(rs, u, bridge, name)
    ensures (forall index: int :: UpStaysUp(rs, u, index)) && forall name: string :: VlanStaysThere(rs, u, name)
  {
  }

  lemma {:induction false} AfterImproves(k: Kernel, a: Act, bridge: string)
    requires Mild(a, bridge)
    ensures Improves(k.state, After(k, a).state, bridge, KeysOf(a))
  {
    hide FindIface, SetUp, SetMaster, ConnectedRoutes, ParsePrefix, ParseIp4, StillThere, MasterStays;
    match a
    case LinkAddBridge(name) =>
      if FindBy(k.state, name).None? {
        AddImproves(k, name, "bridge", bridge);
      } else {
        ImprovesSelf(k.state, bridge);
      }
    case LinkUp(name) => UpImproves(k, name, bridge);
    case LinkMaster(name, _) => MasterImproves(k, name, bridge);
    case AddrAdd(_, _) => SameIfaces(k.state, After(k, a).state, bridge);
    case RouteReplace(_, _, _) => SameIfaces(k.state, After(k, a).state, bridge);
    case Note => ImprovesSelf(k.state, bridge);
  }

  // A pass over the parts of a desired state, on a kernel that is no worse than the snapshot it was planned on.

  /** The keys of the routes that a list of commands replaces. */
  function KeysOfAll(acts: seq<Act>): set<Prefix> {
    if acts == [] then {} else KeysOf(acts[0]) + KeysOfAll(acts[1..])
  }

  lemma {:induction false} KeysConcat(a: seq<Act>, b: seq<Act>)
    ensures KeysOfAll(a + b) == KeysOfAll(a) + KeysOfAll(b)
    decreases |a|
  {
    hide KeysOf;
    if a == [] {
      assert a + b == b;
    } else {
      KeysConcat(a[1..], b);
      assert (a + b)[1..] == a[1..] + b;
    }
  }

  predicate AllMild(acts: seq<Act>, bridge: string) {
    forall i :: 0 <= i < |acts| ==> Mild(acts[i], bridge)
  }

  lemma {:induction false} RunImproves(k: Kernel, acts: seq<Act>, bridge: string)
    requires AllMild(acts, bridge)
    ensures Improves(k.state, RunActs(k, acts).state, bridge, KeysOfAll(acts))
    decreases |acts|
  {
    hide Improves, After, KeysOf, Mild;
    if acts == [] {
      ImprovesSelf(k.state, bridge);
    } else {
      AfterImproves(k, acts[0], bridge);
      RunImproves(After(k, acts[0]), acts[1..], bridge);
      ImprovesTwice(k.state, After(k, acts[0]).state, RunActs(k, acts).state, bridge, KeysOf(acts[0]),
                    KeysOfAll(acts[1..]));
    }
  }

  /** The conditions on interfaces and addresses that hold stay, and so do those on routes whose key is not replaced. */
  lemma {:induction false} UpStays(rs: Real, u: Real, bridge: string, keys: set<Prefix>, name: string)
    requires Improves(rs, u, bridge, keys) && UpOk(name, rs)
    ensures UpOk(name, u)
  {
    assert StillThere(rs, u, name);
  }

  lemma {:induction false} MastersStay(rs: Real, u: Real, bridge: string, keys: set<Prefix>, name: string)
    requires Improves(rs, u, bridge, keys) && MasterOk(name, bridge, rs)
    ensures MasterOk(name, bridge, u)
  {
    assert MasterStays(rs, u, bridge, name);
  }

  lemma {:induction false} RouteStays(rs: Real, u: Real, bridge: string, keys: set<Prefix>,
                                      p: Prefix, gw: Option<nat>, dev: string)
    requires Improves(rs, u, bridge, keys) && RouteVia(rs, p.addr, p.len, gw, dev) && p !in keys
    ensures RouteVia(u, p.addr, p.len, gw, dev)
  {
    assert StillThere(rs, u, dev);
  }

  lemma {:induction false} BridgeStays(ds: Desired, rs: Real, u: Real, keys: set<Prefix>)
    requires Improves(rs, u, ds.bridge, keys) && BridgeOk(ds, rs)
    ensures BridgeOk(ds, u)
  {
    assert StillThere(rs, u, ds.bridge);
  }

  lemma {:induction false} AddrStays(ds: Desired, rs: Real, u: Real, keys: set<Prefix>)
    requires Improves(rs, u, ds.bridge, keys) && AddrOk(ds, rs) && !ds.addrMode.Dhcp?
    ensures AddrOk(ds, u)
  {
    hide ParsePrefix;
    assert StillThere(rs, u, ds.bridge);
  }

  lemma {:induction false} DnsStays(ds: Desired, rs: Real, u: Real, keys: set<Prefix>)
    requires Improves(rs, u, ds.bridge, keys) && DnsOk(ds.dns, rs)
    ensures DnsOk(ds.dns, u)
  {
    hide ParseIp4;
  }

  lemma {:induction false} GatewayStays(ds: Desired, rs: Real, u: Real, keys: set<Prefix>)
    requires Improves(rs, u, ds.bridge, keys) && GatewayOk(ds, rs) && (ds.gateway != "" ==> Prefix(0, 0) !in keys)
    ensures GatewayOk(ds, u)
  {
    hide ParseIp4, RouteVia;
    if ds.gateway != "" {
      RouteStays(rs, u, ds.bridge, keys, Prefix(0, 0), ParseIp4(ds.gateway), ds.bridge);
    }
  }

  lemma {:induction false} AfterNumbered(k: Kernel, a: Act, bridge: string)
    requires KernelOk(k) && Mild(a, bridge)
    ensures KernelOk(After(k, a))
  {
    hide FindIface, SetUp, SetMaster, ConnectedRoutes, ParsePrefix, ParseIp4, ParseRoute;
    var u := After(k, a);
    forall n: string
      ensures Numbered(u, n)
    {
      assert Numbered(k, n);
      match a
      case LinkAddBridge(name) => FindLast(k.state.ifaces, Iface(name, "bridge", k.next, false, 0), n);
      case LinkUp(name) => FindUp(k.state.ifaces, name, n);
      case LinkMaster(name, br) =>
        if FindBy(k.state, br).Some? {
          FindMaster(k.state.ifaces, name, FindBy(k.state, br).value.ifindex, n);
        }
      case AddrAdd(_, _) =>
      case RouteReplace(_, _, _) =>
      case Note =>
    }
    if a.AddrAdd? {
      assert Numbered(k, a.dev);
    }
  }

  lemma {:induction false} RunNumbered(k: Kernel, acts: seq<Act>, bridge: string)
    requires KernelOk(k) && AllMild(acts, bridge)
    ensures KernelOk(RunActs(k, acts))
    decreases |acts|
  {
    hide KernelOk, After, Mild;
    if acts != [] {
      AfterNumbered(k, acts[0], bridge);
      RunNumbered(After(k, acts[0]), acts[1..], bridge);
    }
  }

  lemma {:induction false} ActsOfOne(a: Act)
    ensures Acts([Do(a)]) == [a] && Acts([Ok]) == [] && Acts([Miss]) == [] && Acts([]) == []
  {
    assert [Do(a)][1..] == [] && [Ok][1..] == [] && [Miss][1..] == [];
  }

  lemma {:induction false} ActsOfLines(a: Act, b: Act)
    ensures Acts([Miss]) == [] && Acts([Ok]) == [] && Acts([]) == [] && Acts([Ok, Ok]) == []
    ensures Acts([Miss, Do(a)]) == [a] && Acts([Ok, Miss, Do(a)]) == [a]
    ensures Acts([Miss, Do(a), Do(b)]) == [a, b]
  {
    assert [Do(b)][1..] == [] && [Do(a)][1..] == [] && [Do(a), Do(b)][1..] == [Do(b)];
    assert Acts([Do(b)]) == [b] && Acts([Do(a)]) == [a] && Acts([Do(a), Do(b)]) == [a, b];
    assert [Miss, Do(a)][1..] == [Do(a)] && [Miss, Do(a), Do(b)][1..] == [Do(a), Do(b)];
    assert [Ok, Miss, Do(a)][1..] == [Miss, Do(a)] && [Ok, Ok][1..] == [Ok] && [Ok][1..] == [] && [Miss][1..] == [];
    assert Acts([Ok]) == [];
  }

  lemma {:induction false} RunFew(k: Kernel, a: Act, b: Act)
    ensures RunActs(k, []) == k && RunActs(k, [a]) == After(k, a)
    ensures RunActs(k, [a, b]) == After(After(k, a), b)
  {
    hide After;
    assert [a][1..] == [] && [b][1..] == [] && [a, b][1..] == [b];
    assert RunActs(After(k, a), [b]) == After(After(k, a), b);
  }

  lemma {:induction false} FailsFew(k: Kernel, a: Act, b: Act)
    ensures !AnyFails(k, []) && (AnyFails(k, [a]) <==> Exec(k, a).None?)
    ensures AnyFails(k, [a, b]) <==> Exec(k, a).None? || Exec(After(k, a), b).None?
  {
    hide After, Exec;
    FailsOne(k, a);
    FailsOne(After(k, a), b);
    assert [a, b][1..] == [b];
  }

  lemma {:induction false} UpDone(k: Kernel, name: string)
    requires MayGoUp(k.state, name)
    ensures FindBy(After(k, LinkUp(name)).state, name) == Some(FindBy(k.state, name).value.(up := true))
    ensures Exec(k, LinkUp(name)).Some? && After(k, LinkUp(name)).state.addrs == k.state.addrs
    ensures After(k, LinkUp(name)).state.routes ==
            k.state.routes + ConnectedRoutes(k.state.addrs, FindBy(k.state, name).value.ifindex)
  {
    hide SetUp, FindIface, ConnectedRoutes;
    FindUp(k.state.ifaces, name, name);
  }

  lemma {:induction false} BridgeGoesUp(rs: Real, name: string)
    requires FindBy(rs, name).Some? && FindBy(rs, name).value.kind == "bridge"
    ensures MayGoUp(rs, name)
  {
    hide FindIface, FindVlan;
    assert "bridge"[0] != "vlan"[0];
  }

  /** An interface that is up, or can go up. */
  predicate Lifts(name: string, rs: Real) {
    UpOk(name, rs) || MayGoUp(rs, name)
  }

  lemma {:induction false} LiftStays(rs: Real, u: Real, bridge: string, keys: set<Prefix>, name: string)
    requires Improves(rs, u, bridge, keys)
    ensures Lifts(name, rs) ==> Lifts(name, u)
    ensures MayGoUp(rs, name) ==> MayGoUp(u, name)
  {
    hide FindIface, FindVlan, UpNumber;
    assert StillThere(rs, u, name) && VlanStaysThere(rs, u, name);
    var vl := FindVlan(rs.vlans, name);
    if vl.Some? && vl.value.link.Some? {
      assert UpStaysUp(rs, u, vl.value.link.value);
    }
  }

  lemma {:induction false} StillLifts(name: string, rs: Real, u: Real)
    requires Lifts(name, rs) && (MayGoUp(rs, name) ==> MayGoUp(u, name))
    ensures UpOk(name, rs) || MayGoUp(u, name)
  {
    hide FindIface, FindVlan, UpNumber;
  }

  lemma {:induction false} LiftsThere(name: string, rs: Real)
    requires Lifts(name, rs)
    ensures FindBy(rs, name).Some? && (UpOk(name, rs) || MayGoUp(rs, name))
  {
    hide FindIface, FindVlan;
  }

  // The networks that are on-link.

  /** A network that an interface is on. */
  datatype Link = Link(dev: string, net: Prefix)

  predicate Entry(rs: Real, l: Link) {
    FindBy(rs, l.dev).Some? && Route(l.net.addr, l.net.len, None, FindBy(rs, l.dev).value.ifindex) in rs.routes
  }

  predicate IsLink(rs: Real, dev: string, r: Route) {
    FindBy(rs, dev).Some? && r.gw.None? && r.oif == FindBy(rs, dev).value.ifindex
  }

  function Links(rs: Real): set<Link> {
    set i, r | i in rs.ifaces && r in rs.routes && IsLink(rs, i.name, r) :: Link(i.name, Prefix(r.dst, r.prefix))
  }

  lemma {:induction false} FoundIn(ifaces: seq<Iface>, n: string)
    ensures FindIface(ifaces, n).Some? ==> FindIface(ifaces, n).value in ifaces && FindIface(ifaces, n).value.name == n
    ensures FindIface(ifaces, n).None? ==> forall i :: i in ifaces ==> i.name != n
  {
    if ifaces != [] {
      FoundIn(ifaces[1..], n);
      assert ifaces == [ifaces[0]] + ifaces[1..];
    }
  }

  lemma {:induction false} LinkIn(rs: Real, l: Link)
    ensures l in Links(rs) <==> Entry(rs, l)
  {
    hide FindIface;
    if Entry(rs, l) {
      FoundIn(rs.ifaces, l.dev);
      var i, r := FindBy(rs, l.dev).value, Route(l.net.addr, l.net.len, None, FindBy(rs, l.dev).value.ifindex);
      assert i in rs.ifaces && r in rs.routes && IsLink(rs, i.name, r);
    }
  }

  function NetOf(a: Addr): Prefix {
    Prefix(Network(a.addr, a.prefix), a.prefix)
  }

  /** The networks that come with the addresses of an interface. */
  function AddrLinks(dev: string, rs: Real): set<Link> {
    match FindBy(rs, dev)
    case None => {}
    case Some(i) => set a | a in rs.addrs && a.ifindex == i.ifindex :: Link(dev, NetOf(a))
  }

  function Without(links: set<Link>, net: Prefix): set<Link> {
    set l | l in links && l.net != net
  }

  predicate Covered(links: set<Link>, dev: string, gw: nat) {
    exists l :: l in links && l.dev == dev && Network(gw, l.net.len) == l.net.addr
  }

  /** A next hop is on-link exactly if a network of the interface covers it. */
  lemma {:induction false} OnLinkIff(rs: Real, dev: string, gw: nat)
    requires FindBy(rs, dev).Some?
    ensures OnLink(rs, FindBy(rs, dev).value.ifindex, gw) <==> Covered(Links(rs), dev, gw)
  {
    hide FindIface, Network, Links;
    var index := FindBy(rs, dev).value.ifindex;
    if OnLink(rs, index, gw) {
      var r :| r in rs.routes && Covers(r, index, gw);
      assert r == Route(r.dst, r.prefix, None, index);
      LinkIn(rs, Link(dev, Prefix(r.dst, r.prefix)));
    }
    if Covered(Links(rs), dev, gw) {
      var l :| l in Links(rs) && l.dev == dev && Network(gw, l.net.len) == l.net.addr;
      LinkIn(rs, l);
      assert Covers(Route(l.net.addr, l.net.len, None, index), index, gw);
    }
  }

  lemma {:induction false} CoveredMore(links: set<Link>, more: set<Link>, dev: string, gw: nat)
    requires links <= more && Covered(links, dev, gw)
    ensures Covered(more, dev, gw)
  {
    hide Network;
  }

  /** What a command that succeeds makes of the networks; the addresses are those of the snapshot. */
  function Step(a: Act, rs: Real, links: set<Link>): set<Link> {
    match a
    case LinkUp(name) => links + AddrLinks(name, rs)
    case AddrAdd(addr, dev) =>
      var p := ParsePrefix(addr);
      if p.None? then links else links + {Link(dev, Prefix(Network(p.value.addr, p.value.len), p.value.len))}
    case RouteReplace(dst, via, dev) =>
      var r := ParseRoute(DesiredRoute(dst, via, dev));
      if r.None? then links
      else Without(links, r.value.prefix) + if r.value.via.None? then {Link(dev, r.value.prefix)} else {}
    case _ => links
  }

  function Steps(acts: seq<Act>, rs: Real, links: set<Link>): set<Link>
    decreases |acts|
  {
    if acts == [] then links else Steps(acts[1..], rs, Step(acts[0], rs, links))
  }

  lemma {:induction false} StepsConcat(a: seq<Act>, b: seq<Act>, rs: Real, links: set<Link>)
    ensures Steps(a + b, rs, links) == Steps(b, rs, Steps(a, rs, links))
    decreases |a|
  {
    hide Step;
    if a == [] {
      assert a + b == b;
    } else {
      StepsConcat(a[1..], b, rs, Step(a[0], rs, links));
      assert (a + b)[1..] == a[1..] + b;
    }
  }

  lemma {:induction false} StepsFew(a: Act, b: Act, rs: Real, links: set<Link>)
    ensures Steps([], rs, links) == links && Steps([a], rs, links) == Step(a, rs, links)
    ensures Steps([a, b], rs, links) == Step(b, rs, Step(a, rs, links))
  {
    hide Step;
    assert [a][1..] == [] && [b][1..] == [] && [a, b][1..] == [b];
    assert Steps([b], rs, Step(a, rs, links)) == Step(b, rs, Step(a, rs, links));
  }

  /** Networks stay, but for those whose keys are replaced. */
  lemma {:induction false} LinksStay(links: set<Link>, rs: Real, u: Real, bridge: string, keys: set<Prefix>)
    requires links <= Links(rs) && Improves(rs, u, bridge, keys) && forall l :: l in links ==> l.net !in keys
    ensures links <= Links(u)
  {
    hide FindIface, Links, FindVlan, UpNumber;
    forall l | l in links
      ensures l in Links(u)
    {
      LinkIn(rs, l);
      assert StillThere(rs, u, l.dev);
      LinkIn(u, l);
    }
  }

  /** A command that succeeds leaves at least the networks that it is to leave. */
  lemma {:induction false} StepHas(a: Act, rs: Real, k: Kernel, bridge: string, keys: set<Prefix>, links: set<Link>)
    requires Mild(a, bridge) && Exec(k, a).Some? && Improves(rs, k.state, bridge, keys) && links <= Links(k.state)
    requires a.AddrAdd? ==> UpOk(a.dev, k.state)
    ensures Step(a, rs, links) <= Links(After(k, a).state)
  {
    hide FindIface, Links, FindVlan, UpNumber, Improves, ParsePrefix, ParseIp4, Exec, After, Network;
    var u := After(k, a).state;
    AfterImproves(k, a, bridge);
    match a
    case LinkUp(name) =>
      LinksStay(links, k.state, u, bridge, {});
      UpLinks(name, rs, k, bridge, keys);
    case AddrAdd(addr, dev) =>
      LinksStay(links, k.state, u, bridge, {});
      AddrLink(addr, dev, k);
    case RouteReplace(dst, via, dev) =>
      RouteLink(dst, via, dev, k);
      var r := ParseRoute(DesiredRoute(dst, via, dev)).value;
      LinksStay(Without(links, r.prefix), k.state, u, bridge, KeysOf(a));
    case _ => LinksStay(links, k.state, u, bridge, {});
  }

  lemma {:induction false} UpLinks(name: string, rs: Real, k: Kernel, bridge: string, keys: set<Prefix>)
    requires Exec(k, LinkUp(name)).Some? && Improves(rs, k.state, bridge, keys)
    ensures AddrLinks(name, rs) <= Links(After(k, LinkUp(name)).state)
  {
    hide FindIface, Links, FindVlan, UpNumber, Network, SetUp, ConnectedRoutes;
    var u := After(k, LinkUp(name)).state;
    assert StillThere(rs, k.state, name);
    UpDone(k, name);
    forall l | l in AddrLinks(name, rs)
      ensures l in Links(u)
    {
      var a :| a in rs.addrs && a.ifindex == FindBy(rs, name).value.ifindex && l == Link(name, NetOf(a));
      ConnectedIn(k.state.addrs, a);
      LinkIn(u, l);
    }
  }

  lemma {:induction false} AddrLink(addr: string, dev: string, k: Kernel)
    requires Exec(k, AddrAdd(addr, dev)).Some? && UpOk(dev, k.state)
    ensures ParsePrefix(addr).Some?
    ensures var p := ParsePrefix(addr).value;
            Link(dev, Prefix(Network(p.addr, p.len), p.len)) in Links(After(k, AddrAdd(addr, dev)).state)
  {
    hide FindIface, Links, Network, ParsePrefix;
    var p := ParsePrefix(addr).value;
    LinkIn(After(k, AddrAdd(addr, dev)).state, Link(dev, Prefix(Network(p.addr, p.len), p.len)));
  }

  lemma {:induction false} RouteLink(dst: string, via: Option<string>, dev: string, k: Kernel)
    requires Exec(k, RouteReplace(dst, via, dev)).Some?
    ensures ParseRoute(DesiredRoute(dst, via, dev)).Some?
    ensures var r := ParseRoute(DesiredRoute(dst, via, dev)).value;
            && KeysOf(RouteReplace(dst, via, dev)) == {r.prefix}
            && (r.via.None? ==> Link(dev, r.prefix) in Links(After(k, RouteReplace(dst, via, dev)).state))
  {
    hide FindIface, Links, ParsePrefix, ParseIp4, NoHostBits, OnLink;
    var r := ParseRoute(DesiredRoute(dst, via, dev)).value;
    LinkIn(After(k, RouteReplace(dst, via, dev)).state, Link(dev, r.prefix));
  }

  /** So do commands that all succeed. */
  lemma {:induction false} StepsHave(acts: seq<Act>, rs: Real, k: Kernel, bridge: string, keys: set<Prefix>,
                                     links: set<Link>)
    requires AllMild(acts, bridge) && !AnyFails(k, acts) && Improves(rs, k.state, bridge, keys)
    requires links <= Links(k.state) && forall a :: a in acts && a.AddrAdd? ==> UpOk(a.dev, k.state)
    ensures Steps(acts, rs, links) <= Links(RunActs(k, acts).state)
    decreases |acts|
  {
    hide Improves, Links, Step, After, Exec, Mild, KeysOf, UpOk;
    if acts != [] {
      var u := After(k, acts[0]);
      StepHas(acts[0], rs, k, bridge, keys, links);
      AfterImproves(k, acts[0], bridge);
      ImprovesTwice(rs, k.state, u.state, bridge, keys, KeysOf(acts[0]));
      forall a | a in acts[1..] && a.AddrAdd?
        ensures UpOk(a.dev, u.state)
      {
        UpStays(k.state, u.state, bridge, KeysOf(acts[0]), a.dev);
      }
      StepsHave(acts[1..], rs, u, bridge, keys + KeysOf(acts[0]), Step(acts[0], rs, links));
    }
  }

  // The networks that a pass comes to be on.

  /** The key of the route that comes with the address of the bridge. */
  function AddrKey(ds: Desired): Option<Prefix> {
    match ParsePrefix(ds.addr) case None => None case Some(p) => Some(Prefix(Network(p.addr, p.len), p.len))
  }

  /** With the bridge up and with its address. */
  function BridgeLinks(ds: Desired, rs: Real, links: set<Link>): set<Link> {
    links + (if UpOk(ds.bridge, rs) then {} else AddrLinks(ds.bridge, rs))
    + if ds.addrMode.Static? && !AddrOk(ds, rs) && AddrKey(ds).Some? then {Link(ds.bridge, AddrKey(ds).value)} else {}
  }

  /** With the default route replaced, if it is. */
  function GatewayLinks(ds: Desired, rs: Real, links: set<Link>): set<Link> {
    if ds.gateway != "" && !GatewayOk(ds, rs) then Without(links, Prefix(0, 0)) else links
  }

  /** With some interfaces up. */
  function RaisedLinks(names: seq<string>, rs: Real, links: set<Link>): set<Link>
    decreases |names|
  {
    if names == [] then links
    else RaisedLinks(names[1..], rs, links + if UpOk(names[0], rs) then {} else AddrLinks(names[0], rs))
  }

  lemma {:induction false} BridgeSteps(ds: Desired, rs: Real, links: set<Link>)
    requires FindBy(rs, ds.bridge).Some? ==> FindBy(rs, ds.bridge).value.kind == "bridge"
    requires !ds.addrMode.Dhcp? && (ds.addrMode.Static? ==> ParsePrefix(ds.addr).Some?)
    ensures Steps(Acts(CheckAddr(ds, rs)), rs, Steps(Acts(CheckBridge(ds, rs)), rs, links)) ==
            BridgeLinks(ds, rs, links)
  {
    hide FindIface, Acts, Steps, ParsePrefix, Network;
    var add, up, addr := LinkAddBridge(ds.bridge), LinkUp(ds.bridge), AddrAdd(ds.addr, ds.bridge);
    ActsOfLines(add, up);
    ActsOfLines(up, up);
    ActsOfLines(addr, addr);
    StepsFew(add, up, rs, links);
    StepsFew(up, up, rs, links);
    var mid := Steps(Acts(CheckBridge(ds, rs)), rs, links);
    StepsFew(addr, addr, rs, mid);
    assert mid == links + if UpOk(ds.bridge, rs) then {} else AddrLinks(ds.bridge, rs);
  }

  lemma {:induction false} GatewaySteps(ds: Desired, rs: Real, links: set<Link>)
    requires ds.gateway != "" ==> ParseIp4(ds.gateway).Some?
    ensures Steps(Acts(CheckGateway(ds, rs)), rs, links) == GatewayLinks(ds, rs, links)
  {
    hide FindIface, Acts, Steps, ParsePrefix, ParseIp4;
    var a := RouteReplace(DEFAULT_ROUTE, Some(ds.gateway), ds.bridge);
    ParseDefault();
    ActsOfLines(a, a);
    StepsFew(a, a, rs, links);
    assert Without(links, Prefix(0, 0)) + {} == Without(links, Prefix(0, 0));
  }

  lemma {:induction false} UpSteps(name: string, bridge: string, rs: Real, links: set<Link>)
    requires FindBy(rs, name).Some?
    ensures Steps(Acts(CheckUp(name, FindBy(rs, name))), rs, links) ==
            links + if UpOk(name, rs) then {} else AddrLinks(name, rs)
    ensures Steps(Acts(CheckMaster(name, FindBy(rs, name), bridge, rs)), rs, links) == links
  {
    hide FindIface, Acts, Steps, AddrLinks;
    var up, master := LinkUp(name), LinkMaster(name, bridge);
    ActsOfLines(up, up);
    ActsOfLines(master, master);
    StepsFew(up, up, rs, links);
    StepsFew(master, master, rs, links);
    assert links + {} == links;
  }

  lemma {:induction false} UpMasterSteps(name: string, bridge: string, rs: Real, links: set<Link>)
    requires FindBy(rs, name).Some?
    ensures Steps(Acts(CheckUp(name, FindBy(rs, name)) + CheckMaster(name, FindBy(rs, name), bridge, rs)), rs, links) ==
            links + if UpOk(name, rs) then {} else AddrLinks(name, rs)
  {
    hide FindIface, Acts, Steps, AddrLinks, CheckUp, CheckMaster;
    var a, b := CheckUp(name, FindBy(rs, name)), CheckMaster(name, FindBy(rs, name), bridge, rs);
    UpSteps(name, bridge, rs, links);
    ActsConcat(a, b);
    StepsConcat(Acts(a), Acts(b), rs, links);
    UpSteps(name, bridge, rs, Steps(Acts(a), rs, links));
  }

  lemma {:induction false} PortsSteps(ports: seq<string>, bridge: string, rs: Real, links: set<Link>)
    requires forall i :: 0 <= i < |ports| ==> FindBy(rs, ports[i]).Some?
    ensures Steps(Acts(CheckPorts(ports, bridge, rs)), rs, links) == RaisedLinks(ports, rs, links)
    decreases |ports|
  {
    hide FindIface, Acts, Steps, AddrLinks, CheckUp, CheckMaster;
    ActsOfLines(Note, Note);
    StepsFew(Note, Note, rs, links);
    if ports != [] {
      var port, iface := ports[0], FindBy(rs, ports[0]);
      var a, b := CheckUp(port, iface), CheckMaster(port, iface, bridge, rs);
      var c := CheckPorts(ports[1..], bridge, rs);
      FirstOk(a + b);
      assert [Ok] + a + b == [Ok] + (a + b);
      UpMasterSteps(port, bridge, rs, links);
      ActsConcat([Ok] + a + b, c);
      StepsConcat(Acts([Ok] + a + b), Acts(c), rs, links);
      PortsSteps(ports[1..], bridge, rs, Steps(Acts([Ok] + a + b), rs, links));
    }
  }

  /** The kernel is no worse than the snapshot, and the bridge is not there if the snapshot does not show it. */
  ghost predicate Fresh(ds: Desired, rs: Real, k: Kernel, keys: set<Prefix>) {
    && KernelOk(k) && Improves(rs, k.state, ds.bridge, keys)
    && (FindBy(rs, ds.bridge).None? ==> FindBy(k.state, ds.bridge).None?)
  }

  /** The bridge is there and up after its part of the pass. */
  lemma {:induction false} BridgeDone(ds: Desired, rs: Real, k: Kernel, keys: set<Prefix>)
    requires FindBy(rs, ds.bridge).Some? ==> FindBy(rs, ds.bridge).value.kind == "bridge"
    requires Fresh(ds, rs, k, keys)
    ensures BridgeOk(ds, RunActs(k, Acts(CheckBridge(ds, rs))).state)
    ensures AllMild(Acts(CheckBridge(ds, rs)), ds.bridge)
    ensures KeysOfAll(Acts(CheckBridge(ds, rs))) == {}
    ensures !AnyFails(k, Acts(CheckBridge(ds, rs)))
    ensures RunActs(k, Acts(CheckBridge(ds, rs))).state.addrs == k.state.addrs
    ensures FindBy(rs, ds.bridge).None? ==>
              FindBy(RunActs(k, Acts(CheckBridge(ds, rs))).state, ds.bridge).value.ifindex == k.next
    ensures FindBy(rs, ds.bridge).Some? ==>
              FindBy(RunActs(k, Acts(CheckBridge(ds, rs))).state, ds.bridge).value.ifindex ==
                FindBy(rs, ds.bridge).value.ifindex
  {
    hide FindIface, After, Acts, RunActs, AddIface, Exec, AnyFails, Improves, KernelOk, MayGoUp, ConnectedRoutes;
    BridgeStillThere(rs, k.state, ds.bridge, keys);
    var add, up := LinkAddBridge(ds.bridge), LinkUp(ds.bridge);
    ActsOfLines(add, up);
    ActsOfLines(up, up);
    RunFew(k, add, up);
    RunFew(k, up, up);
    FailsFew(k, add, up);
    FailsFew(k, up, up);
    NoKeys(add, up);
    NoKeys(up, up);
    if FindBy(k.state, ds.bridge).None? {
      BridgeAdded(k, ds.bridge);
      BridgeGoesUp(After(k, add).state, ds.bridge);
      UpDone(After(k, add), ds.bridge);
    } else {
      BridgeGoesUp(k.state, ds.bridge);
      UpDone(k, ds.bridge);
    }
  }

  lemma {:induction false} ConnectedIn(addrs: seq<Addr>, a: Addr)
    requires a in addrs
    ensures ConnectedRoute(a) in ConnectedRoutes(addrs, a.ifindex)
  {
    hide ConnectedRoute;
    if addrs[0] != a {
      ConnectedIn(addrs[1..], a);
    }
  }

  lemma {:induction false} BridgeAdded(k: Kernel, name: string)
    requires FindBy(k.state, name).None?
    ensures FindBy(After(k, LinkAddBridge(name)).state, name) == Some(Iface(name, "bridge", k.next, false, 0))
    ensures Exec(k, LinkAddBridge(name)).Some? && After(k, LinkAddBridge(name)).state.addrs == k.state.addrs
  {
    FindLast(k.state.ifaces, Iface(name, "bridge", k.next, false, 0), name);
  }

  lemma {:induction false} NoKeys(a: Act, b: Act)
    requires !a.RouteReplace? && !b.RouteReplace?
    ensures KeysOfAll([]) == {} && KeysOfAll([a]) == {} && KeysOfAll([a, b]) == {}
  {
    assert [a][1..] == [] && [b][1..] == [] && [a, b][1..] == [b];
    assert KeysOfAll([b]) == {};
  }

  lemma {:induction false} AddrDone(ds: Desired, rs: Real, k: Kernel, keys: set<Prefix>)
    requires Improves(rs, k.state, ds.bridge, keys) && BridgeOk(ds, k.state)
    requires !ds.addrMode.Dhcp? && (ds.addrMode.Static? ==> ParsePrefix(ds.addr).Some?)
    ensures AddrOk(ds, RunActs(k, Acts(CheckAddr(ds, rs))).state)
    ensures AllMild(Acts(CheckAddr(ds, rs)), ds.bridge)
    ensures KeysOfAll(Acts(CheckAddr(ds, rs))) == {}
    ensures AddrIsNew(ds, rs, k) ==> !AnyFails(k, Acts(CheckAddr(ds, rs)))
  {
    hide FindIface, Acts, RunActs, ParsePrefix, Improves, AnyFails;
    var add := AddrAdd(ds.addr, ds.bridge);
    ActsOfLines(add, add);
    RunFew(k, add, add);
    NoKeys(add, add);
    FailsFew(k, add, add);
    BridgeStillThere(rs, k.state, ds.bridge, keys);
    if AddrOk(ds, rs) {
      AddrStays(ds, rs, k.state, keys);
    }
  }

  /** An address that the snapshot does not show on the bridge is not there. */
  predicate AddrIsNew(ds: Desired, rs: Real, k: Kernel) {
    var br, p := FindBy(k.state, ds.bridge), ParsePrefix(ds.addr);
    !AddrOk(ds, rs) && br.Some? && p.Some? ==> Addr(br.value.ifindex, p.value.addr, p.value.len) !in k.state.addrs
  }

  /** The addresses on the bridge are those that the snapshot shows there. */
  predicate SameAddrs(ds: Desired, rs: Real, k: Kernel) {
    var br := FindBy(rs, ds.bridge);
    br.Some? ==> forall a :: a in k.state.addrs && a.ifindex == br.value.ifindex ==> a in rs.addrs
  }

  lemma {:induction false} RouteDone(k: Kernel, dst: string, via: Option<string>, dev: string)
    requires KernelOk(k) && UpOk(dev, k.state)
    requires var r := ParseRoute(DesiredRoute(dst, via, dev));
             && r.Some? && NoHostBits(r.value.prefix)
             && (r.value.via.Some? ==> Covered(Links(k.state), dev, r.value.via.value))
    ensures var r := ParseRoute(DesiredRoute(dst, via, dev)).value;
            RouteVia(After(k, RouteReplace(dst, via, dev)).state, r.prefix.addr, r.prefix.len, r.via, dev)
    ensures Exec(k, RouteReplace(dst, via, dev)).Some?
  {
    hide FindIface, ParseRoute, NoHostBits, Links, Covered;
    assert Numbered(k, dev);
    var r := ParseRoute(DesiredRoute(dst, via, dev)).value;
    if r.via.Some? {
      OnLinkIff(k.state, dev, r.via.value);
    }
  }

  lemma {:induction false} ParseZeros()
    ensures ParseIp4("0.0.0.0") == Some(0)
  {
    var a, b, c, d := "0.0.0.0", "0.0.0", "0.0", "0";
    assert IndexOf(a, '.') == 1 && a[..1] == "0" && a[2..] == b by { assert a[1..][0] == '.'; }
    assert IndexOf(b, '.') == 1 && b[..1] == "0" && b[2..] == c by { assert b[1..][0] == '.'; }
    assert IndexOf(c, '.') == 1 && c[..1] == "0" && c[2..] == d by { assert c[1..][0] == '.'; }
    assert IndexOf(d, '.') == 1 && d[..1] == "0" by { assert d[1..] == ""; }
    assert ParseOctet("0") == Some(0);
    assert ParseOctets(d, 1, 0) == Some(0);
    assert ParseOctets(c, 2, 0) == Some(0);
    assert ParseOctets(b, 3, 0) == Some(0);
  }

  lemma {:induction false} ParseDefault()
    ensures ParsePrefix(DEFAULT_ROUTE) == Some(Prefix(0, 0)) && NoHostBits(Prefix(0, 0))
  {
    hide ParseIp4;
    ParseZeros();
    ParseZeroLong();
    SlashAt();
    ClearZero(32);
    assert DEFAULT_ROUTE[..7] == "0.0.0.0" && DEFAULT_ROUTE[8..] == "0";
  }

  lemma {:induction false} SlashAt()
    ensures IndexOf(DEFAULT_ROUTE, '/') == 7
  {
    var s := DEFAULT_ROUTE;
    assert s[7..][0] == '/' && IndexOf(s[7..], '/') == 0;
    assert s[6..][1..] == s[7..] && IndexOf(s[6..], '/') == 1;
    assert s[5..][1..] == s[6..] && IndexOf(s[5..], '/') == 2;
    assert s[4..][1..] == s[5..] && IndexOf(s[4..], '/') == 3;
    assert s[3..][1..] == s[4..] && IndexOf(s[3..], '/') == 4;
    assert s[2..][1..] == s[3..] && IndexOf(s[2..], '/') == 5;
    assert s[1..][1..] == s[2..] && IndexOf(s[1..], '/') == 6;
  }

  lemma {:induction false} ParseZeroLong()
    ensures ParseLong("0") == Some(0)
  {
    assert SkipSpaces("0") == "0";
    assert "0"[1..] == "";
    assert ParseDigits("", 0) == Some(0);
  }

  lemma {:induction false} OctetsHaveNoSlash(s: string, n: nat, acc: nat)
    requires n > 0 && ParseOctets(s, n, acc).Some?
    ensures '/' !in s
    decreases n
  {
    var dot := IndexOf(s, '.');
    assert '/' !in s[..dot];
    if n > 1 {
      OctetsHaveNoSlash(s[dot + 1..], n - 1, 256 * acc + ParseOctet(s[..dot]).value);
      assert s == s[..dot] + [s[dot]] + s[dot + 1..];
    } else {
      assert s == s[..dot];
    }
  }

  lemma {:induction false} SlashAfter(s: string, rest: string)
    requires '/' !in s
    ensures IndexOf(s + "/" + rest, '/') == |s|
  {
    if s != "" {
      SlashAfter(s[1..], rest);
      assert (s + "/" + rest)[1..] == s[1..] + "/" + rest;
    }
  }

  lemma {:induction false} ParseThirtyTwo()
    ensures ParseLong("32") == Some(32)
  {
    assert SkipSpaces("32") == "32" && "32"[1..] == "2" && "2"[1..] == "";
    assert ParseDigits("2", 3) == Some(32);
  }

  /** The address of a host is read as a prefix of 32 bits. */
  lemma {:induction false} ParseHost(s: string)
    requires ParseIp4(s).Some?
    ensures ParsePrefix(s + "/32") == Some(Prefix(ParseIp4(s).value, 32))
  {
    hide ParseOctets, ParseLong;
    OctetsHaveNoSlash(s, 4, 0);
    SlashAfter(s, "32");
    ParseThirtyTwo();
    assert s + "/32" == s + "/" + "32";
    assert (s + "/32")[..|s|] == s && (s + "/32")[|s| + 1..] == "32";
  }

  lemma {:induction false} WholeHost(addr: nat)
    ensures NoHostBits(Prefix(addr, 32))
  {
  }

  lemma {:induction false} ClearZero(bits: nat)
    ensures ClearLow(0, bits) == 0
  {
    if bits > 0 {
      ClearZero(bits - 1);
    }
  }

  lemma {:induction false} GatewayDone(ds: Desired, rs: Real, k: Kernel, keys: set<Prefix>)
    requires KernelOk(k) && Improves(rs, k.state, ds.bridge, keys) && BridgeOk(ds, k.state)
    requires ds.gateway != "" ==> ParseIp4(ds.gateway).Some? && Prefix(0, 0) !in keys
    requires ds.gateway != "" && !GatewayOk(ds, rs) ==>
               Covered(Links(k.state), ds.bridge, ParseIp4(ds.gateway).value)
    ensures GatewayOk(ds, RunActs(k, Acts(CheckGateway(ds, rs))).state)
    ensures AllMild(Acts(CheckGateway(ds, rs)), ds.bridge)
    ensures KeysOfAll(Acts(CheckGateway(ds, rs))) <= if ds.gateway != "" then {Prefix(0, 0)} else {}
    ensures !AnyFails(k, Acts(CheckGateway(ds, rs)))
  {
    hide FindIface, Acts, RunActs, ParsePrefix, ParseIp4, Improves, After, NoHostBits, KernelOk, Exec, AnyFails, Links,
         Covered;
    var a := RouteReplace(DEFAULT_ROUTE, Some(ds.gateway), ds.bridge);
    ActsOfLines(a, a);
    RunFew(k, a, a);
    FailsFew(k, a, a);
    OneKey(a);
    ParseDefault();
    if GatewayOk(ds, rs) {
      GatewayStays(ds, rs, k.state, keys);
    } else {
      RouteDone(k, DEFAULT_ROUTE, Some(ds.gateway), ds.bridge);
    }
  }

  lemma {:induction false} OneKey(a: Act)
    ensures KeysOfAll([]) == {} && KeysOfAll([a]) == KeysOf(a)
  {
    assert [a][1..] == [];
  }

  lemma {:induction false} UpBlock(name: string, bridge: string, rs: Real, k: Kernel, keys: set<Prefix>)
    requires Improves(rs, k.state, bridge, keys) && FindBy(rs, name).Some?
    requires UpOk(name, rs) || MayGoUp(k.state, name)
    ensures UpOk(name, RunActs(k, Acts(CheckUp(name, FindBy(rs, name)))).state)
    ensures AllMild(Acts(CheckUp(name, FindBy(rs, name))), bridge)
    ensures KeysOfAll(Acts(CheckUp(name, FindBy(rs, name)))) == {}
    ensures !AnyFails(k, Acts(CheckUp(name, FindBy(rs, name))))
  {
    hide FindIface, Acts, RunActs, After, SetUp, ConnectedRoutes, Exec, AnyFails, MayGoUp;
    var a := LinkUp(name);
    ActsOfLines(a, a);
    RunFew(k, a, a);
    FailsFew(k, a, a);
    NoKeys(a, a);
    assert StillThere(rs, k.state, name);
    if !UpOk(name, rs) {
      UpDone(k, name);
    }
  }

  lemma {:induction false} MasterBlock(name: string, bridge: string, rs: Real, k: Kernel, keys: set<Prefix>)
    requires Improves(rs, k.state, bridge, keys) && FindBy(rs, name).Some? && name != bridge
    requires FindBy(k.state, bridge).Some? && FindBy(k.state, bridge).value.kind == "bridge"
    ensures var acts := Acts(CheckMaster(name, FindBy(rs, name), bridge, rs));
            && MasterOk(name, bridge, RunActs(k, acts).state) && AllMild(acts, bridge) && KeysOfAll(acts) == {}
            && !AnyFails(k, acts)
  {
    hide FindIface, Acts, RunActs, After, SetMaster, Exec, AnyFails;
    var a := LinkMaster(name, bridge);
    ActsOfLines(a, a);
    RunFew(k, a, a);
    FailsFew(k, a, a);
    NoKeys(a, a);
    assert StillThere(rs, k.state, name);
    if MasterOk(name, bridge, rs) {
      MastersStay(rs, k.state, bridge, keys, name);
    } else {
      MasterDone(k, name, bridge);
    }
  }

  lemma {:induction false} MasterDone(k: Kernel, name: string, bridge: string)
    requires FindBy(k.state, name).Some? && name != bridge
    requires FindBy(k.state, bridge).Some? && FindBy(k.state, bridge).value.kind == "bridge"
    ensures MasterOk(name, bridge, After(k, LinkMaster(name, bridge)).state)
    ensures Exec(k, LinkMaster(name, bridge)).Some?
  {
    hide FindIface, SetMaster;
    var index := FindBy(k.state, bridge).value.ifindex;
    FindMaster(k.state.ifaces, name, index, name);
    FindMaster(k.state.ifaces, name, index, bridge);
  }

  /** A pass goes on from a kernel that an earlier part of it has left. */
  ghost predicate Going(rs: Real, k: Kernel, bridge: string, keys: set<Prefix>) {
    KernelOk(k) && Improves(rs, k.state, bridge, keys)
  }

  /** And the bridge is there by now. */
  ghost predicate Along(rs: Real, k: Kernel, bridge: string, keys: set<Prefix>) {
    && Going(rs, k, bridge, keys)
    && FindBy(k.state, bridge).Some? && FindBy(k.state, bridge).value.kind == "bridge"
  }

  lemma {:induction false} GoingOn(rs: Real, k: Kernel, bridge: string, keys: set<Prefix>, acts: seq<Act>)
    requires Going(rs, k, bridge, keys) && AllMild(acts, bridge)
    ensures Going(rs, RunActs(k, acts), bridge, keys + KeysOfAll(acts))
    ensures Improves(k.state, RunActs(k, acts).state, bridge, KeysOfAll(acts))
  {
    hide Improves, RunActs, KernelOk;
    RunImproves(k, acts, bridge);
    RunNumbered(k, acts, bridge);
    ImprovesTwice(rs, k.state, RunActs(k, acts).state, bridge, keys, KeysOfAll(acts));
  }

  lemma {:induction false} AlongOn(rs: Real, k: Kernel, bridge: string, keys: set<Prefix>, acts: seq<Act>)
    requires Along(rs, k, bridge, keys) && AllMild(acts, bridge)
    ensures Along(rs, RunActs(k, acts), bridge, keys + KeysOfAll(acts))
    ensures Improves(k.state, RunActs(k, acts).state, bridge, KeysOfAll(acts))
  {
    hide Improves, RunActs, KernelOk;
    GoingOn(rs, k, bridge, keys, acts);
    BridgeStillThere(k.state, RunActs(k, acts).state, bridge, KeysOfAll(acts));
  }

  lemma {:induction false} BridgeStillThere(rs: Real, u: Real, bridge: string, keys: set<Prefix>)
    requires Improves(rs, u, bridge, keys)
    ensures StillThere(rs, u, bridge)
  {
  }

  /** Two lists of commands, one after the other. */
  lemma {:induction false} Sequenced(k: Kernel, a: Report, b: Report, bridge: string)
    requires AllMild(Acts(a), bridge) && AllMild(Acts(b), bridge)
    ensures RunActs(k, Acts(a + b)) == RunActs(RunActs(k, Acts(a)), Acts(b))
    ensures AllMild(Acts(a + b), bridge)
    ensures KeysOfAll(Acts(a + b)) == KeysOfAll(Acts(a)) + KeysOfAll(Acts(b))
    ensures AnyFails(k, Acts(a + b)) <==> AnyFails(k, Acts(a)) || AnyFails(RunActs(k, Acts(a)), Acts(b))
  {
    hide Acts, RunActs, KeysOfAll, Mild, AnyFails;
    FailsConcat(k, Acts(a), Acts(b));
    ActsConcat(a, b);
    RunConcat(k, Acts(a), Acts(b));
    KeysConcat(Acts(a), Acts(b));
  }

  lemma {:induction false} UpMasterBlock(name: string, bridge: string, rs: Real, k: Kernel, keys: set<Prefix>)
    requires Along(rs, k, bridge, keys) && FindBy(rs, name).Some? && name != bridge
    requires UpOk(name, rs) || MayGoUp(k.state, name)
    ensures var report := CheckUp(name, FindBy(rs, name)) + CheckMaster(name, FindBy(rs, name), bridge, rs);
            var u := RunActs(k, Acts(report));
            && UpOk(name, u.state) && MasterOk(name, bridge, u.state)
            && AllMild(Acts(report), bridge) && KeysOfAll(Acts(report)) == {} && !AnyFails(k, Acts(report))
  {
    hide Acts, RunActs, KeysOfAll, Mild, Improves, FindIface, CheckUp, CheckMaster, KernelOk, AnyFails, MayGoUp;
    var a, b := CheckUp(name, FindBy(rs, name)), CheckMaster(name, FindBy(rs, name), bridge, rs);
    UpBlock(name, bridge, rs, k, keys);
    var m := RunActs(k, Acts(a));
    AlongOn(rs, k, bridge, keys, Acts(a));
    MasterBlock(name, bridge, rs, m, keys + KeysOfAll(Acts(a)));
    AlongOn(rs, m, bridge, keys + KeysOfAll(Acts(a)), Acts(b));
    UpStays(m.state, RunActs(m, Acts(b)).state, bridge, KeysOfAll(Acts(b)), name);
    Sequenced(k, a, b, bridge);
  }

  lemma {:induction false} FirstOk(report: Report)
    ensures Acts([Ok] + report) == Acts(report)
  {
    assert ([Ok] + report)[1..] == report;
  }

  lemma {:induction false} PortBlock(port: string, bridge: string, rs: Real, k: Kernel, keys: set<Prefix>)
    requires Along(rs, k, bridge, keys) && Lifts(port, rs) && port != bridge
    ensures var acts := Acts(CheckPort(port, bridge, rs));
            && UpOk(port, RunActs(k, acts).state) && MasterOk(port, bridge, RunActs(k, acts).state)
            && AllMild(acts, bridge) && KeysOfAll(acts) == {} && !AnyFails(k, acts)
  {
    hide Acts, RunActs, KeysOfAll, Mild, Improves, KernelOk, CheckUp, CheckMaster, AnyFails, FindIface;
    LiftStays(rs, k.state, bridge, keys, port);
    UpMasterBlock(port, bridge, rs, k, keys);
    var iface := FindBy(rs, port);
    var a, b := CheckUp(port, iface), CheckMaster(port, iface, bridge, rs);
    FirstOk(a + b);
    assert [Ok] + a + b == [Ok] + (a + b);
  }

  predicate PortsThere(ports: seq<string>, bridge: string, rs: Real) {
    forall i :: 0 <= i < |ports| ==> Lifts(ports[i], rs) && ports[i] != bridge
  }

  lemma {:induction false} PortsBlock(ports: seq<string>, bridge: string, rs: Real, k: Kernel, keys: set<Prefix>)
    requires Along(rs, k, bridge, keys) && PortsThere(ports, bridge, rs)
    ensures var acts := Acts(CheckPorts(ports, bridge, rs));
            && PortsOk(ports, bridge, RunActs(k, acts).state) && AllMild(acts, bridge) && KeysOfAll(acts) == {}
            && !AnyFails(k, acts)
    decreases |ports|
  {
    hide Acts, RunActs, KeysOfAll, Mild, Along, CheckPort, Improves, UpOk, MasterOk, FindBy, AnyFails;
    if ports == [] {
      FailsFew(k, Note, Note);
      ActsOfLines(Note, Note);
      NoKeys(Note, Note);
    } else {
      var a, b := CheckPort(ports[0], bridge, rs), CheckPorts(ports[1..], bridge, rs);
      PortBlock(ports[0], bridge, rs, k, keys);
      var m := RunActs(k, Acts(a));
      AlongOn(rs, k, bridge, keys, Acts(a));
      PortsBlock(ports[1..], bridge, rs, m, keys + KeysOfAll(Acts(a)));
      AlongOn(rs, m, bridge, keys + KeysOfAll(Acts(a)), Acts(b));
      var u := RunActs(m, Acts(b));
      UpStays(m.state, u.state, bridge, {}, ports[0]);
      MastersStay(m.state, u.state, bridge, {}, ports[0]);
      Sequenced(k, a, b, bridge);
      forall i | 0 <= i < |ports|
        ensures UpOk(ports[i], u.state) && MasterOk(ports[i], bridge, u.state)
      {
        assert i > 0 ==> ports[i] == ports[1..][i - 1];
      }
    }
  }

  // The uplink and the ports.

  /** What is asked of the uplink: nothing, to be up, or to be up and in the bridge. */
  datatype Uplink = NoUplink | UplinkUp | UplinkIn

  lemma {:induction false} UplinkReportUp(ds: Desired, rs: Real)
    requires FindBy(rs, ds.uplink).Some?
    ensures Acts(CheckUplink(ds, rs)) == Acts(CheckUp(ds.uplink, FindBy(rs, ds.uplink)))
  {
    hide CheckUp, Acts;
    FirstOk(CheckUp(ds.uplink, FindBy(rs, ds.uplink)));
  }

  function UplinkReport(ds: Desired, rs: Real, how: Uplink): Report {
    match how
    case NoUplink => []
    case UplinkUp => CheckUplink(ds, rs)
    case UplinkIn => CheckUplink(ds, rs) + CheckMaster(ds.uplink, FindBy(rs, ds.uplink), ds.bridge, rs)
  }

  /** The members, in the order in which they are looked at. */
  function Raised(ds: Desired, how: Uplink): seq<string> {
    (if how.NoUplink? then [] else [ds.uplink]) + ds.ports
  }

  lemma {:induction false} UplinkActs(ds: Desired, rs: Real)
    requires Lifts(ds.uplink, rs)
    ensures Acts(CheckUplink(ds, rs) + CheckMaster(ds.uplink, FindBy(rs, ds.uplink), ds.bridge, rs)) ==
            Acts(CheckUp(ds.uplink, FindBy(rs, ds.uplink)) + CheckMaster(ds.uplink, FindBy(rs, ds.uplink), ds.bridge,
                                                                         rs))
  {
    hide Acts, CheckUp, CheckMaster;
    var up := FindBy(rs, ds.uplink);
    var a, b := CheckUp(ds.uplink, up), CheckMaster(ds.uplink, up, ds.bridge, rs);
    FirstOk(a + b);
    assert [Ok] + a + b == [Ok] + (a + b);
  }

  predicate UplinkThere(ds: Desired, rs: Real, how: Uplink) {
    !how.NoUplink? ==> Lifts(ds.uplink, rs) && ds.uplink != ds.bridge
  }

  predicate UplinkDone(ds: Desired, rs: Real, how: Uplink) {
    && (!how.NoUplink? ==> UpOk(ds.uplink, rs))
    && (how.UplinkIn? ==> MasterOk(ds.uplink, ds.bridge, rs))
  }

  lemma {:induction false} UplinkBlock(ds: Desired, rs: Real, k: Kernel, keys: set<Prefix>, how: Uplink)
    requires Along(rs, k, ds.bridge, keys) && UplinkThere(ds, rs, how)
    ensures var acts := Acts(UplinkReport(ds, rs, how));
            && UplinkDone(ds, RunActs(k, acts).state, how) && AllMild(acts, ds.bridge) && KeysOfAll(acts) == {}
            && !AnyFails(k, acts)
  {
    hide FindIface, Acts, RunActs, AnyFails, Improves, Mild, KernelOk, KeysOfAll, CheckUp, CheckUplink, CheckMaster,
         MayGoUp;
    ActsOfLines(Note, Note);
    NoKeys(Note, Note);
    FailsFew(k, Note, Note);
    if !how.NoUplink? {
      LiftsThere(ds.uplink, rs);
      LiftStays(rs, k.state, ds.bridge, keys, ds.uplink);
      if how.UplinkUp? {
        UplinkReportUp(ds, rs);
        UpBlock(ds.uplink, ds.bridge, rs, k, keys);
      } else {
        UplinkActs(ds, rs);
        UpMasterBlock(ds.uplink, ds.bridge, rs, k, keys);
      }
    }
  }

  lemma {:induction false} UplinkSteps(ds: Desired, rs: Real, how: Uplink, links: set<Link>)
    requires UplinkThere(ds, rs, how)
    ensures Steps(Acts(UplinkReport(ds, rs, how)), rs, links) ==
            RaisedLinks(if how.NoUplink? then [] else [ds.uplink], rs, links)
  {
    hide FindIface, Acts, Steps, CheckUp, CheckUplink, CheckMaster, MayGoUp, UpOk, AddrLinks, Lifts;
    ActsOfLines(Note, Note);
    StepsFew(Note, Note, rs, links);
    if !how.NoUplink? {
      LiftsThere(ds.uplink, rs);
      assert [ds.uplink][1..] == [];
      if how.UplinkUp? {
        UplinkReportUp(ds, rs);
        UpSteps(ds.uplink, ds.bridge, rs, links);
      } else {
        UplinkActs(ds, rs);
        UpMasterSteps(ds.uplink, ds.bridge, rs, links);
      }
    }
  }

  lemma {:induction false} RaisedConcat(a: seq<string>, b: seq<string>, rs: Real, links: set<Link>)
    ensures RaisedLinks(a + b, rs, links) == RaisedLinks(b, rs, RaisedLinks(a, rs, links))
    decreases |a|
  {
    hide AddrLinks, UpOk;
    if a == [] {
      assert a + b == b;
    } else {
      RaisedConcat(a[1..], b, rs, links + if UpOk(a[0], rs) then {} else AddrLinks(a[0], rs));
      assert (a + b)[1..] == a[1..] + b;
    }
  }

  lemma {:induction false} UplinkStays(ds: Desired, rs: Real, u: Real, how: Uplink)
    requires Improves(rs, u, ds.bridge, {}) && UplinkDone(ds, rs, how)
    ensures UplinkDone(ds, u, how)
  {
    hide Improves, UpOk, MasterOk;
    if !how.NoUplink? {
      UpStays(rs, u, ds.bridge, {}, ds.uplink);
    }
    if how.UplinkIn? {
      MastersStay(rs, u, ds.bridge, {}, ds.uplink);
    }
  }

  /** The uplink and the ports, planned on an older snapshot. */
  lemma {:induction false} MembersDone(ds: Desired, rs: Real, k: Kernel, keys: set<Prefix>, links: set<Link>,
                                       how: Uplink)
    requires Along(rs, k, ds.bridge, keys) && UplinkThere(ds, rs, how) && PortsThere(ds.ports, ds.bridge, rs)
    requires links <= Links(k.state)
    ensures var acts := Acts(UplinkReport(ds, rs, how) + CheckPorts(ds.ports, ds.bridge, rs));
            var u := RunActs(k, acts);
            && UplinkDone(ds, u.state, how) && PortsOk(ds.ports, ds.bridge, u.state) && AllMild(acts, ds.bridge)
            && KeysOfAll(acts) == {} && !AnyFails(k, acts) && Along(rs, u, ds.bridge, keys)
            && Improves(k.state, u.state, ds.bridge, {}) && RaisedLinks(Raised(ds, how), rs, links) <= Links(u.state)
  {
    hide Acts, RunActs, KeysOfAll, Mild, AnyFails, Improves, KernelOk, CheckPorts, UplinkReport, FindIface, PortsThere,
         UpOk, MasterOk, PortsOk, Links, Lifts, RaisedLinks, Steps;
    var bridge, e, g := ds.bridge, UplinkReport(ds, rs, how), CheckPorts(ds.ports, ds.bridge, rs);
    UplinkBlock(ds, rs, k, keys, how);
    var k1 := RunActs(k, Acts(e));
    AlongOn(rs, k, bridge, keys, Acts(e));
    assert keys + {} == keys;
    PortsBlock(ds.ports, bridge, rs, k1, keys);
    var k2 := RunActs(k1, Acts(g));
    AlongOn(rs, k1, bridge, keys, Acts(g));
    UplinkStays(ds, k1.state, k2.state, how);
    ImprovesTwice(k.state, k1.state, k2.state, bridge, {}, {});
    assert {} + {} == KeysOfAll(Acts(e));
    Sequenced(k, e, g, bridge);
    NoAddrUplink(ds, rs, how);
    NoAddrPorts(ds.ports, bridge, rs);
    UplinkSteps(ds, rs, how, links);
    StepsHave(Acts(e), rs, k, bridge, keys, links);
    var mid := Steps(Acts(e), rs, links);
    PortsFound(ds.ports, bridge, rs);
    PortsSteps(ds.ports, bridge, rs, mid);
    StepsHave(Acts(g), rs, k1, bridge, keys, mid);
    RaisedConcat(if how.NoUplink? then [] else [ds.uplink], ds.ports, rs, links);
  }

  /** Every command of a report is in one of its lines. */
  lemma {:induction false} OnlyDone(report: Report)
    ensures forall a :: a in Acts(report) ==> Do(a) in report
  {
    if report != [] {
      OnlyDone(report[1..]);
    }
  }

  lemma {:induction false} NoAddrMember(name: string, bridge: string, rs: Real)
    ensures forall a :: Do(a) in CheckUp(name, FindBy(rs, name)) ==> !a.AddrAdd?
    ensures forall a :: Do(a) in CheckMaster(name, FindBy(rs, name), bridge, rs) ==> !a.AddrAdd?
  {
    hide FindIface;
  }

  lemma {:induction false} PortsFound(ports: seq<string>, bridge: string, rs: Real)
    requires PortsThere(ports, bridge, rs)
    ensures forall i :: 0 <= i < |ports| ==> FindBy(rs, ports[i]).Some?
  {
    hide FindIface, FindVlan, UpNumber;
  }

  lemma {:induction false} NoAddrUplink(ds: Desired, rs: Real, how: Uplink)
    ensures forall a :: a in Acts(UplinkReport(ds, rs, how)) ==> !a.AddrAdd?
  {
    hide FindIface, Acts, CheckUp, CheckMaster;
    NoAddrMember(ds.uplink, ds.bridge, rs);
    OnlyDone(UplinkReport(ds, rs, how));
  }

  lemma {:induction false} NoAddrPorts(ports: seq<string>, bridge: string, rs: Real)
    ensures forall a :: a in Acts(CheckPorts(ports, bridge, rs)) ==> !a.AddrAdd?
    decreases |ports|
  {
    hide FindIface, Acts, CheckUp, CheckMaster;
    ActsOfOne(Note);
    if ports != [] {
      NoAddrPorts(ports[1..], bridge, rs);
      NoAddrMember(ports[0], bridge, rs);
      ActsConcat(CheckPort(ports[0], bridge, rs), CheckPorts(ports[1..], bridge, rs));
      OnlyDone(CheckPort(ports[0], bridge, rs));
    }
  }

  function RouteKey(rt: DesiredRoute): Option<Prefix> {
    ParsePrefix(rt.dst)
  }

  /** The keys of the routes of a state. */
  function Keys(ds: Desired): set<Prefix> {
    (if ds.gateway != "" then {Prefix(0, 0)} else {}) +
    set i | 0 <= i < |ds.routes| && RouteKey(ds.routes[i]).Some? :: RouteKey(ds.routes[i]).value
  }

  /** The keys that a pass replaces. */
  function Replaced(ds: Desired, rs: Real): set<Prefix> {
    (if ds.gateway != "" && !GatewayOk(ds, rs) then {Prefix(0, 0)} else {}) +
    set i | 0 <= i < |ds.routes| && RouteKey(ds.routes[i]).Some? && !RouteOk(ds.routes[i], rs) ::
      RouteKey(ds.routes[i]).value
  }

  predicate DistinctKeys(routes: seq<DesiredRoute>) {
    forall i, j :: 0 <= i < j < |routes| ==> RouteKey(routes[i]) != RouteKey(routes[j])
  }

  /**
   A route that is there, or that the kernel takes: it is well formed, its device is up or is among those brought up,
   and its next hop is on-link.
   */
  predicate RouteGoes(rt: DesiredRoute, devs: set<string>, rs: Real, links: set<Link>) {
    var r := ParseRoute(rt);
    && r.Some?
    && (|| RouteOk(rt, rs)
        || (&& NoHostBits(r.value.prefix) && (UpOk(rt.dev, rs) || rt.dev in devs)
            && (r.value.via.Some? ==> Covered(links, rt.dev, r.value.via.value))))
  }

  /** The networks after a route is looked at: one that is made can carry the next hops of those after it. */
  function RouteLinks(rt: DesiredRoute, rs: Real, links: set<Link>): set<Link> {
    var r := ParseRoute(rt);
    if r.None? || RouteOk(rt, rs) then links
    else Without(links, r.value.prefix) + if r.value.via.None? then {Link(rt.dev, r.value.prefix)} else {}
  }

  /** All routes go, one after the other. */
  predicate RoutesGo(routes: seq<DesiredRoute>, devs: set<string>, rs: Real, links: set<Link>)
    decreases |routes|
  {
    routes == [] ||
    (RouteGoes(routes[0], devs, rs, links) && RoutesGo(routes[1..], devs, rs, RouteLinks(routes[0], rs, links)))
  }

  /** The networks after all routes are looked at. */
  function RoutesLinks(routes: seq<DesiredRoute>, rs: Real, links: set<Link>): set<Link>
    decreases |routes|
  {
    if routes == [] then links else RoutesLinks(routes[1..], rs, RouteLinks(routes[0], rs, links))
  }

  lemma {:induction false} RouteSteps(rt: DesiredRoute, rs: Real, links: set<Link>)
    ensures Steps(Acts(CheckRoute(rt, rs)), rs, links) == RouteLinks(rt, rs, links)
  {
    hide FindIface, Acts, Steps, ParsePrefix, ParseIp4;
    var a := RouteReplace(rt.dst, rt.via, rt.dev);
    ActsOfLines(a, a);
    ActsOfLines(Note, Note);
    StepsFew(a, a, rs, links);
    StepsFew(Note, Note, rs, links);
    assert DesiredRoute(rt.dst, rt.via, rt.dev) == rt;
  }

  predicate NotAmong(routes: seq<DesiredRoute>, keys: set<Prefix>) {
    forall i :: 0 <= i < |routes| ==> RouteKey(routes[i]).Some? ==> RouteKey(routes[i]).value !in keys
  }

  lemma {:induction false} RouteBlock(rt: DesiredRoute, bridge: string, devs: set<string>, rs: Real, k: Kernel,
                                      keys: set<Prefix>, links: set<Link>)
    requires Going(rs, k, bridge, keys) && RouteGoes(rt, devs, rs, links) && NotAmong([rt], keys)
    requires links <= Links(k.state) && forall dev :: dev in devs ==> UpOk(dev, k.state)
    ensures var acts := Acts(CheckRoute(rt, rs));
            && RouteOk(rt, RunActs(k, acts).state) && AllMild(acts, bridge)
            && RouteKey(rt).Some? && KeysOfAll(acts) <= {RouteKey(rt).value} && !AnyFails(k, acts)
            && RouteLinks(rt, rs, links) <= Links(RunActs(k, acts).state)
  {
    hide FindIface, Acts, RunActs, ParsePrefix, ParseIp4, Improves, After, NoHostBits, KernelOk, Exec, AnyFails, Links,
         RouteLinks, Steps, Covered;
    var a := RouteReplace(rt.dst, rt.via, rt.dev);
    ActsOfLines(a, a);
    RunFew(k, a, a);
    FailsFew(k, a, a);
    OneKey(a);
    var r := ParseRoute(rt).value;
    assert [rt][0] == rt;
    if RouteOk(rt, rs) {
      RouteStays(rs, k.state, bridge, keys, r.prefix, r.via, rt.dev);
    } else {
      assert DesiredRoute(rt.dst, rt.via, rt.dev) == rt;
      if UpOk(rt.dev, rs) {
        UpStays(rs, k.state, bridge, keys, rt.dev);
      }
      if r.via.Some? {
        CoveredMore(links, Links(k.state), rt.dev, r.via.value);
      }
      RouteDone(k, rt.dst, rt.via, rt.dev);
    }
    RouteSteps(rt, rs, links);
    StepsHave(Acts(CheckRoute(rt, rs)), rs, k, bridge, keys, links);
  }

  lemma {:induction false} RoutesBlock(routes: seq<DesiredRoute>, bridge: string, devs: set<string>, rs: Real,
                                       k: Kernel, keys: set<Prefix>, links: set<Link>)
    requires Going(rs, k, bridge, keys) && RoutesGo(routes, devs, rs, links) && NotAmong(routes, keys)
    requires DistinctKeys(routes)
    requires links <= Links(k.state) && forall dev :: dev in devs ==> UpOk(dev, k.state)
    ensures var acts := Acts(CheckRoutes(routes, rs));
            && RoutesOk(routes, RunActs(k, acts).state) && AllMild(acts, bridge) && !AnyFails(k, acts)
            && (forall p :: p in KeysOfAll(acts) ==> exists i :: 0 <= i < |routes| && RouteKey(routes[i]) == Some(p))
            && RoutesLinks(routes, rs, links) <= Links(RunActs(k, acts).state)
    decreases |routes|
  {
    hide Acts, RunActs, KeysOfAll, Mild, Going, CheckRoute, Improves, RouteOk, RouteGoes, RouteLinks, RouteKey,
         AnyFails, UpOk, Links;
    if routes == [] {
      RunFew(k, Note, Note);
      FailsFew(k, Note, Note);
      ActsOfLines(Note, Note);
      NoKeys(Note, Note);
    } else {
      var a, b := CheckRoute(routes[0], rs), CheckRoutes(routes[1..], rs);
      assert [routes[0]][0] == routes[0];
      RouteBlock(routes[0], bridge, devs, rs, k, keys, links);
      var m := RunActs(k, Acts(a));
      GoingOn(rs, k, bridge, keys, Acts(a));
      StillNotAmong(routes, keys, KeysOfAll(Acts(a)));
      StayUp(devs, k.state, m.state, bridge, KeysOfAll(Acts(a)));
      RestDistinct(routes);
      RoutesBlock(routes[1..], bridge, devs, rs, m, keys + KeysOfAll(Acts(a)), RouteLinks(routes[0], rs, links));
      GoingOn(rs, m, bridge, keys + KeysOfAll(Acts(a)), Acts(b));
      var u := RunActs(m, Acts(b));
      FirstRouteStays(routes, bridge, m.state, u.state, KeysOfAll(Acts(b)));
      Sequenced(k, a, b, bridge);
      forall i | 0 <= i < |routes|
        ensures RouteOk(routes[i], u.state)
      {
        assert i > 0 ==> routes[i] == routes[1..][i - 1];
      }
      KeysOfRoutes(routes, KeysOfAll(Acts(a)), KeysOfAll(Acts(b)));
    }
  }

  lemma {:induction false} StayUp(devs: set<string>, rs: Real, u: Real, bridge: string, keys: set<Prefix>)
    requires Improves(rs, u, bridge, keys) && forall dev :: dev in devs ==> UpOk(dev, rs)
    ensures forall dev :: dev in devs ==> UpOk(dev, u)
  {
    hide Improves, UpOk;
    forall dev | dev in devs
      ensures UpOk(dev, u)
    {
      UpStays(rs, u, bridge, keys, dev);
    }
  }

  lemma {:induction false} RestDistinct(routes: seq<DesiredRoute>)
    requires routes != [] && DistinctKeys(routes)
    ensures DistinctKeys(routes[1..])
  {
    hide RouteKey;
    assert forall i :: 0 <= i < |routes[1..]| ==> routes[1..][i] == routes[i + 1];
  }

  lemma {:induction false} StillNotAmong(routes: seq<DesiredRoute>, keys: set<Prefix>, more: set<Prefix>)
    requires routes != [] && NotAmong(routes, keys) && RouteKey(routes[0]).Some? && more <= {RouteKey(routes[0]).value}
    requires DistinctKeys(routes)
    ensures NotAmong(routes[1..], keys + more)
  {
    hide RouteKey;
    var rest := routes[1..];
    forall i | 0 <= i < |rest|
      ensures RouteKey(rest[i]).Some? ==> RouteKey(rest[i]).value !in keys + more
    {
      assert rest[i] == routes[i + 1] && RouteKey(routes[0]) != RouteKey(routes[i + 1]);
    }
  }

  lemma {:induction false} FirstRouteStays(routes: seq<DesiredRoute>, bridge: string, rs: Real, u: Real,
                                           keys: set<Prefix>)
    requires routes != [] && RouteOk(routes[0], rs) && Improves(rs, u, bridge, keys)
    requires DistinctKeys(routes)
    requires forall p :: p in keys ==> exists i :: 0 <= i < |routes[1..]| && RouteKey(routes[1..][i]) == Some(p)
    ensures RouteOk(routes[0], u)
  {
    hide Improves, ParsePrefix, ParseIp4, RouteVia;
    var r := ParseRoute(routes[0]).value;
    assert forall i :: 0 <= i < |routes[1..]| ==> routes[1..][i] == routes[i + 1];
    assert RouteKey(routes[0]) == Some(r.prefix);
    RouteStays(rs, u, bridge, keys, r.prefix, r.via, routes[0].dev);
  }

  lemma {:induction false} KeysOfRoutes(routes: seq<DesiredRoute>, a: set<Prefix>, b: set<Prefix>)
    requires routes != [] && RouteKey(routes[0]).Some? && a <= {RouteKey(routes[0]).value}
    requires forall p :: p in b ==> exists i :: 0 <= i < |routes[1..]| && RouteKey(routes[1..][i]) == Some(p)
    ensures forall p :: p in a + b ==> exists i :: 0 <= i < |routes| && RouteKey(routes[i]) == Some(p)
  {
    hide RouteKey;
    forall p | p in a + b
      ensures exists i :: 0 <= i < |routes| && RouteKey(routes[i]) == Some(p)
    {
      if p in b {
        var i :| 0 <= i < |routes[1..]| && RouteKey(routes[1..][i]) == Some(p);
        assert routes[1..][i] == routes[i + 1];
      } else {
        assert RouteKey(routes[0]) == Some(p);
      }
    }
  }

  /** A bridge, with its address and name servers, that one pass can bring about. */
  predicate BridgePlaced(ds: Desired, rs: Real) {
    && (FindBy(rs, ds.bridge).Some? ==> FindBy(rs, ds.bridge).value.kind == "bridge")
    && !ds.addrMode.Dhcp? && (ds.addrMode.Static? ==> ParsePrefix(ds.addr).Some?)
    && DnsOk(ds.dns, rs)
    && (ds.gateway != "" ==> ParseIp4(ds.gateway).Some? && NotAmong(ds.routes, {Prefix(0, 0)}))
  }

  /** The default route is there, or its next hop is on-link when it is asked for. */
  predicate GatewayGoes(ds: Desired, rs: Real, links: set<Link>) {
    ds.gateway != "" ==>
      var gw := ParseIp4(ds.gateway);
      gw.Some? && (GatewayOk(ds, rs) || Covered(BridgeLinks(ds, rs, links), ds.bridge, gw.value))
  }

  /** The interfaces that are to be in the bridge of a state. */
  function Members(ds: Desired): set<string> {
    {ds.uplink} + set p | p in ds.ports
  }

  /** The members are there, and none is the bridge. */
  predicate MembersThere(ds: Desired, rs: Real) {
    Lifts(ds.uplink, rs) && ds.uplink != ds.bridge && PortsThere(ds.ports, ds.bridge, rs)
  }

  /** A state of the uplink-bridge scenario whose parts are there or can be made, and do not contradict each other. */
  predicate Placed(ds: Desired, rs: Real) {
    ScenarioOf(ds.scenario) == UplinkBridge && BridgePlaced(ds, rs) && MembersThere(ds, rs) && DistinctKeys(ds.routes)
  }

  /** The networks that are on-link before the routes are looked at. */
  function LinksBefore(ds: Desired, rs: Real, links: set<Link>): set<Link> {
    RaisedLinks([ds.uplink] + ds.ports, rs, GatewayLinks(ds, rs, BridgeLinks(ds, rs, links)))
  }

  /** Every device is up and every next hop is on-link by the time that it is needed. */
  predicate Carried(ds: Desired, rs: Real, links: set<Link>) {
    GatewayGoes(ds, rs, links) && RoutesGo(ds.routes, Members(ds) + {ds.bridge}, rs, LinksBefore(ds, rs, links))
  }

  /** The first half of the pass: the bridge, its address and its gateway; `keys` are replaced already. */
  lemma {:induction false} BridgePartDone(ds: Desired, rs: Real, k: Kernel, keys: set<Prefix>, links: set<Link>)
    requires BridgePlaced(ds, rs) && GatewayGoes(ds, rs, links) && Fresh(ds, rs, k, keys) && SameAddrs(ds, rs, k)
    requires links <= Links(k.state) && (ds.gateway != "" ==> Prefix(0, 0) !in keys)
    ensures var acts := Acts(BridgeReport(ds, rs));
            var u := RunActs(k, acts);
            && BridgePartOk(ds, u.state) && AllMild(acts, ds.bridge) && !AnyFails(k, acts)
            && KeysOfAll(acts) <= (if ds.gateway != "" then {Prefix(0, 0)} else {})
            && Along(rs, u, ds.bridge, keys + KeysOfAll(acts))
            && GatewayLinks(ds, rs, BridgeLinks(ds, rs, links)) <= Links(u.state)
  {
    hide Acts, RunActs, KeysOfAll, Mild, Improves, KernelOk, CheckBridge, CheckAddr, CheckGateway, CheckDns,
         ParsePrefix, ParseIp4, DnsOk, NotAmong, FindIface, AnyFails, Links, BridgeLinks, Covered, GatewayOk, UpOk;
    var bridge := ds.bridge;
    var a, b, c, d := CheckBridge(ds, rs), CheckAddr(ds, rs), CheckGateway(ds, rs), CheckDns(ds.dns, rs);
    BridgeDone(ds, rs, k, keys);
    var k1 := RunActs(k, Acts(a));
    StartAlong(ds, rs, k, keys, Acts(a));
    NewAddr(ds, rs, k, k1);
    AddrDone(ds, rs, k1, keys);
    var k2 := RunActs(k1, Acts(b));
    AlongOn(rs, k1, bridge, keys, Acts(b));
    assert keys + {} == keys;
    BridgeStays(ds, k1.state, k2.state, KeysOfAll(Acts(b)));
    AddrHas(ds, rs, k, keys, links);
    if ds.gateway != "" && !GatewayOk(ds, rs) {
      CoveredMore(BridgeLinks(ds, rs, links), Links(k2.state), bridge, ParseIp4(ds.gateway).value);
    }
    GatewayDone(ds, rs, k2, keys);
    var k3 := RunActs(k2, Acts(c));
    AlongOn(rs, k2, bridge, keys, Acts(c));
    GatewaySteps(ds, rs, BridgeLinks(ds, rs, links));
    NoAddrAdds(ds, rs);
    StepsHave(Acts(c), rs, k2, bridge, keys, BridgeLinks(ds, rs, links));
    BridgeStays(ds, k2.state, k3.state, KeysOfAll(Acts(c)));
    AddrStays(ds, k2.state, k3.state, KeysOfAll(Acts(c)));
    DnsStays(ds, rs, k3.state, keys + KeysOfAll(Acts(c)));
    JudgeDns(ds.dns, rs);
    NoKeys(Note, Note);
    FailsFew(k3, Note, Note);
    RunFew(k3, Note, Note);
    Sequenced(k, a, b, bridge);
    Sequenced(k, a + b, c, bridge);
    Sequenced(k, a + b + c, d, bridge);
    assert KeysOfAll(Acts(a + b + c + d)) == KeysOfAll(Acts(c));
  }

  lemma {:induction false} NoAddrAdds(ds: Desired, rs: Real)
    ensures forall a :: a in Acts(CheckGateway(ds, rs)) || a in Acts(CheckBridge(ds, rs)) ==> !a.AddrAdd?
    ensures forall a :: a in Acts(CheckAddr(ds, rs)) && a.AddrAdd? ==> a.dev == ds.bridge
  {
    hide FindIface, ParsePrefix, ParseIp4, Acts, Subst;
    OnlyDone(CheckGateway(ds, rs));
    OnlyDone(CheckBridge(ds, rs));
    OnlyDone(CheckAddr(ds, rs));
  }

  /** Once the bridge is up and has its address, it is on the networks that it is to be on. */
  lemma {:induction false} AddrHas(ds: Desired, rs: Real, k: Kernel, keys: set<Prefix>, links: set<Link>)
    requires BridgePlaced(ds, rs) && Fresh(ds, rs, k, keys) && SameAddrs(ds, rs, k) && links <= Links(k.state)
    ensures var k1 := RunActs(k, Acts(CheckBridge(ds, rs)));
            BridgeLinks(ds, rs, links) <= Links(RunActs(k1, Acts(CheckAddr(ds, rs))).state)
  {
    hide Acts, RunActs, KeysOfAll, Mild, Improves, KernelOk, CheckBridge, CheckAddr, ParsePrefix, ParseIp4, DnsOk,
         NotAmong, FindIface, AnyFails, Links, BridgeLinks, AddrOk, Steps;
    var a, b := CheckBridge(ds, rs), CheckAddr(ds, rs);
    BridgeDone(ds, rs, k, keys);
    var k1 := RunActs(k, Acts(a));
    StartAlong(ds, rs, k, keys, Acts(a));
    NewAddr(ds, rs, k, k1);
    AddrDone(ds, rs, k1, keys);
    NoAddrAdds(ds, rs);
    BridgeSteps(ds, rs, links);
    StepsHave(Acts(a), rs, k, ds.bridge, keys, links);
    StepsHave(Acts(b), rs, k1, ds.bridge, keys, Steps(Acts(a), rs, links));
  }

  /** On a new bridge there is no address, and on an old one none that the snapshot does not show. */
  lemma {:induction false} NewAddr(ds: Desired, rs: Real, k: Kernel, u: Kernel)
    requires KernelOk(k) && u.state.addrs == k.state.addrs && SameAddrs(ds, rs, k)
    requires !ds.addrMode.Dhcp? && FindBy(u.state, ds.bridge).Some?
    requires FindBy(rs, ds.bridge).None? ==> FindBy(u.state, ds.bridge).value.ifindex == k.next
    requires FindBy(rs, ds.bridge).Some? ==>
               FindBy(u.state, ds.bridge).value.ifindex == FindBy(rs, ds.bridge).value.ifindex
    ensures AddrIsNew(ds, rs, u)
  {
    hide FindIface, ParsePrefix;
  }

  lemma {:induction false} StartAlong(ds: Desired, rs: Real, k: Kernel, keys: set<Prefix>, acts: seq<Act>)
    requires Fresh(ds, rs, k, keys) && AllMild(acts, ds.bridge) && KeysOfAll(acts) == {}
    requires BridgeOk(ds, RunActs(k, acts).state)
    ensures Along(rs, RunActs(k, acts), ds.bridge, keys)
  {
    hide RunActs, KeysOfAll, Mild, Improves, KernelOk, FindIface;
    RunImproves(k, acts, ds.bridge);
    RunNumbered(k, acts, ds.bridge);
    ImprovesTwice(rs, k.state, RunActs(k, acts).state, ds.bridge, keys, {});
    assert keys + {} == keys;
  }

  lemma {:induction false} KeysApart(ds: Desired, keys: set<Prefix>)
    requires keys <= (if ds.gateway != "" then {Prefix(0, 0)} else {})
    requires ds.gateway != "" ==> NotAmong(ds.routes, {Prefix(0, 0)})
    ensures NotAmong(ds.routes, keys)
  {
    hide RouteKey;
  }

  /** The second half: the uplink, the ports and the routes. */
  lemma {:induction false} LinksDone(ds: Desired, rs: Real, k: Kernel, keys: set<Prefix>, links: set<Link>)
    requires Placed(ds, rs) && Along(rs, k, ds.bridge, keys) && BridgePartOk(ds, k.state)
    requires NotAmong(ds.routes, keys) && links <= Links(k.state)
    requires RoutesGo(ds.routes, Members(ds) + {ds.bridge}, rs, RaisedLinks([ds.uplink] + ds.ports, rs, links))
    ensures var report := UplinkReport(ds, rs, UplinkIn) + CheckPorts(ds.ports, ds.bridge, rs)
                          + CheckRoutes(ds.routes, rs);
            && Satisfied(ds, RunActs(k, Acts(report)).state) && AllMild(Acts(report), ds.bridge)
            && !AnyFails(k, Acts(report))
            && RoutesLinks(ds.routes, rs, RaisedLinks([ds.uplink] + ds.ports, rs, links)) <=
               Links(RunActs(k, Acts(report)).state)
  {
    hide Acts, RunActs, KeysOfAll, Mild, AnyFails, Improves, UplinkReport, CheckPorts, CheckRoutes, FindIface,
         ParsePrefix, ParseIp4, DnsOk, PortsThere, RoutesGo, NotAmong, UpOk, MasterOk, PortsOk, RoutesOk, BridgePartOk,
         Links, Lifts, Members, GatewayOk, RaisedLinks, DistinctKeys, KernelOk, RoutesLinks;
    var bridge, devs := ds.bridge, Members(ds) + {ds.bridge};
    var e, h := UplinkReport(ds, rs, UplinkIn) + CheckPorts(ds.ports, ds.bridge, rs), CheckRoutes(ds.routes, rs);
    MembersDone(ds, rs, k, keys, links, UplinkIn);
    var k1 := RunActs(k, Acts(e));
    BridgePartStays(ds, k.state, k1.state, {});
    MembersUp(ds, k1.state);
    RoutesBlock(ds.routes, bridge, devs, rs, k1, keys, RaisedLinks([ds.uplink] + ds.ports, rs, links));
    var k2 := RunActs(k1, Acts(h));
    AlongOn(rs, k1, bridge, keys, Acts(h));
    GatewayKeySafe(ds, KeysOfAll(Acts(h)));
    BridgePartStays(ds, k1.state, k2.state, KeysOfAll(Acts(h)));
    UpStays(k1.state, k2.state, bridge, KeysOfAll(Acts(h)), ds.uplink);
    MastersStay(k1.state, k2.state, bridge, KeysOfAll(Acts(h)), ds.uplink);
    PortsStay(ds.ports, bridge, k1.state, k2.state, KeysOfAll(Acts(h)));
    Sequenced(k, e, h, bridge);
  }

  lemma {:induction false} AlongImproves(rs: Real, k: Kernel, bridge: string, keys: set<Prefix>)
    requires Along(rs, k, bridge, keys)
    ensures Going(rs, k, bridge, keys) && Improves(rs, k.state, bridge, keys)
  {
  }

  lemma {:induction false} MembersUp(ds: Desired, rs: Real)
    requires BridgePartOk(ds, rs) && UpOk(ds.uplink, rs) && PortsOk(ds.ports, ds.bridge, rs)
    ensures forall dev :: dev in Members(ds) + {ds.bridge} ==> UpOk(dev, rs)
  {
    hide AddrOk, GatewayOk, DnsOk, FindIface, MasterOk;
  }

  lemma {:induction false} GatewayKeySafe(ds: Desired, keys: set<Prefix>)
    requires ds.gateway != "" ==> NotAmong(ds.routes, {Prefix(0, 0)})
    requires forall p :: p in keys ==> exists i :: 0 <= i < |ds.routes| && RouteKey(ds.routes[i]) == Some(p)
    ensures ds.gateway != "" ==> Prefix(0, 0) !in keys
  {
    hide RouteKey;
  }

  lemma {:induction false} BridgePartStays(ds: Desired, rs: Real, u: Real, keys: set<Prefix>)
    requires Improves(rs, u, ds.bridge, keys) && BridgePartOk(ds, rs) && !ds.addrMode.Dhcp?
    requires ds.gateway != "" ==> Prefix(0, 0) !in keys
    ensures BridgePartOk(ds, u)
  {
    hide Improves, AddrOk, GatewayOk, DnsOk, FindIface;
    BridgeStays(ds, rs, u, keys);
    AddrStays(ds, rs, u, keys);
    GatewayStays(ds, rs, u, keys);
    DnsStays(ds, rs, u, keys);
  }

  lemma {:induction false} PortsStay(ports: seq<string>, bridge: string, rs: Real, u: Real, keys: set<Prefix>)
    requires Improves(rs, u, bridge, keys) && PortsOk(ports, bridge, rs)
    ensures PortsOk(ports, bridge, u)
  {
    hide Improves, UpOk, MasterOk;
    forall i | 0 <= i < |ports|
      ensures UpOk(ports[i], u) && MasterOk(ports[i], bridge, u)
    {
      UpStays(rs, u, bridge, keys, ports[i]);
      MastersStay(rs, u, bridge, keys, ports[i]);
    }
  }

  /**
   One pass of repairs, planned on a snapshot that is not newer, and on a kernel that is no worse than it but for routes
   of other keys, succeeds and leaves the state satisfied.
   */
  lemma {:induction false} PlannedPassConverges(ds: Desired, rs: Real, k: Kernel, keys: set<Prefix>, links: set<Link>)
    requires Placed(ds, rs) && Carried(ds, rs, links) && Fresh(ds, rs, k, keys) && SameAddrs(ds, rs, k)
    requires NotAmong(ds.routes, keys) && (ds.gateway != "" ==> Prefix(0, 0) !in keys) && links <= Links(k.state)
    ensures var acts := Acts(StateReport(ds, rs));
            && !AnyFails(k, acts) && Satisfied(ds, RunActs(k, acts).state) && AllMild(acts, ds.bridge)
            && RoutesLinks(ds.routes, rs, LinksBefore(ds, rs, links)) <= Links(RunActs(k, acts).state)
  {
    hide AnyFails, Acts, RunActs, KeysOfAll, Mild, Along, BridgeReport, CheckUplink, CheckMaster, CheckPorts,
         CheckRoutes, FindIface, Satisfied, BridgePartOk, KernelOk, MembersThere, RoutesGo, NotAmong, DnsOk,
         ParsePrefix, ParseIp4, Misses, Links, RoutesLinks, BridgeLinks, GatewayLinks, RaisedLinks, GatewayGoes,
         GatewayOk, Members, DistinctKeys;
    var a := BridgeReport(ds, rs);
    var e, g, h := UplinkReport(ds, rs, UplinkIn), CheckPorts(ds.ports, ds.bridge, rs), CheckRoutes(ds.routes, rs);
    BridgePartDone(ds, rs, k, keys, links);
    KeysApart(ds, KeysOfAll(Acts(a)));
    NotAmongBoth(ds.routes, keys, KeysOfAll(Acts(a)));
    LinksDone(ds, rs, RunActs(k, Acts(a)), keys + KeysOfAll(Acts(a)), GatewayLinks(ds, rs, BridgeLinks(ds, rs, links)));
    Sequenced(k, a, e + g + h, ds.bridge);
    assert StateReport(ds, rs) == a + (e + g + h);
  }

  lemma {:induction false} NotAmongBoth(routes: seq<DesiredRoute>, a: set<Prefix>, b: set<Prefix>)
    requires NotAmong(routes, a) && NotAmong(routes, b)
    ensures NotAmong(routes, a + b)
  {
    hide RouteKey;
  }
}
