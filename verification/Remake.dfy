/**
 An interface that is deleted and made anew in the course of a pass.  What was bound to its old number goes with it, and
 the routes are judged on the snapshot taken before.
 */
module Remake {
  import opened Wrappers
  import opened NetState
  import opened Verify
  import opened Kernel
  import opened Consistency
  import opened Tracking

  // An interface that is deleted, and has none over it.

  /** Neither a vlan nor a vxlan is over the interface with that number. */
  predicate NothingOver(rs: Real, index: int) {
    && (forall v :: v in rs.vlans ==> v.link != Some(index))
    && (forall v :: v in rs.vxlans ==> v.link != Some(index))
  }

  lemma {:induction false} StackAlone(rs: Real, index: int, fuel: nat)
    requires NothingOver(rs, index)
    ensures Stack(rs, {index}, fuel) == {index}
    decreases fuel
  {
    if fuel > 0 {
      assert {index} + (set i | i in rs.ifaces && IsOn(rs, i, {index}) :: i.ifindex) == {index};
      StackAlone(rs, index, fuel - 1);
    }
  }

  lemma {:induction false} NameAlone(rs: Real, name: string)
    requires Sound(rs) && FindBy(rs, name).Some?
    ensures NamesOf(rs.ifaces, {FindBy(rs, name).value.ifindex}) == {name}
  {
    hide FindIface, KindThere;
    var index := FindBy(rs, name).value.ifindex;
    FoundIn(rs.ifaces, name);
    assert FindBy(rs, name).value.name in NamesOf(rs.ifaces, {index});
    forall n | n in NamesOf(rs.ifaces, {index})
      ensures n == name
    {
      var i :| i in rs.ifaces && i.ifindex in {index} && i.name == n;
      assert Sole(rs, i) && Apart(rs, n, name);
    }
  }

  lemma {:induction false} FilterIn<T>(s: seq<T>, keep: T -> bool, x: T)
    ensures x in Filter(s, keep) <==> x in s && keep(x)
  {
    if s != [] {
      FilterIn(s[1..], keep, x);
      assert s == [s[0]] + s[1..];
    }
  }

  lemma {:induction false} FreedFrom(ifaces: seq<Iface>, masters: set<int>, i: Iface) returns (j: Iface)
    requires i in Freed(ifaces, masters)
    ensures j in ifaces && i == FreedOne(j, masters)
  {
    if i == Freed(ifaces, masters)[0] {
      j := ifaces[0];
    } else {
      j := FreedFrom(ifaces[1..], masters, i);
    }
  }

  lemma {:induction false} FreedIn(ifaces: seq<Iface>, masters: set<int>, i: Iface)
    requires i in ifaces
    ensures FreedOne(i, masters) in Freed(ifaces, masters)
  {
    if i != ifaces[0] {
      FreedIn(ifaces[1..], masters, i);
    }
  }

  lemma {:induction false} FindFreed(ifaces: seq<Iface>, masters: set<int>, n: string)
    ensures FindIface(Freed(ifaces, masters), n) ==
            match FindIface(ifaces, n) case None => None case Some(i) => Some(FreedOne(i, masters))
  {
    if ifaces != [] {
      FindFreed(ifaces[1..], masters, n);
      assert Freed(ifaces, masters)[1..] == Freed(ifaces[1..], masters);
    }
  }

  /** An interface that is not deleted is found. */
  lemma {:induction false} FilterIface(ifaces: seq<Iface>, all: set<int>, n: string)
    requires FindIface(ifaces, n).Some? ==>
               forall i :: i in ifaces && i.name == n ==>
                 (i.ifindex in all <==> FindIface(ifaces, n).value.ifindex in all)
    ensures FindIface(Filter(ifaces, (i: Iface) => i.ifindex !in all), n) ==
            if FindIface(ifaces, n).Some? && FindIface(ifaces, n).value.ifindex in all then None
            else FindIface(ifaces, n)
  {
    if ifaces != [] {
      FoundIn(ifaces[1..], n);
      FilterIface(ifaces[1..], all, n);
      var keep := (i: Iface) => i.ifindex !in all;
      var rest := Filter(ifaces[1..], keep);
      assert Filter(ifaces, keep) == (if keep(ifaces[0]) then [ifaces[0]] + rest else rest);
      assert ([ifaces[0]] + rest)[1..] == rest;
    }
  }

  lemma {:induction false} FilterVlan(vlans: seq<Vlan>, names: set<string>, n: string)
    ensures FindVlan(Filter(vlans, (v: Vlan) => v.ifname !in names), n) == if n in names then None
            else FindVlan(vlans, n)
  {
    if vlans != [] {
      FilterVlan(vlans[1..], names, n);
      var keep := (v: Vlan) => v.ifname !in names;
      var rest := Filter(vlans[1..], keep);
      assert Filter(vlans, keep) == (if keep(vlans[0]) then [vlans[0]] + rest else rest);
      assert ([vlans[0]] + rest)[1..] == rest;
    }
  }

  lemma {:induction false} FilterVxlan(vxlans: seq<Vxlan>, names: set<string>, n: string)
    ensures FindVxlan(Filter(vxlans, (v: Vxlan) => v.ifname !in names), n) == if n in names then None
            else FindVxlan(vxlans, n)
  {
    if vxlans != [] {
      FilterVxlan(vxlans[1..], names, n);
      var keep := (v: Vxlan) => v.ifname !in names;
      var rest := Filter(vxlans[1..], keep);
      assert Filter(vxlans, keep) == (if keep(vxlans[0]) then [vxlans[0]] + rest else rest);
      assert ([vxlans[0]] + rest)[1..] == rest;
    }
  }

  function FreedBy(iface: Option<Iface>, index: int): Option<Iface> {
    match iface case None => None case Some(i) => Some(FreedOne(i, {index}))
  }

  /** `u` is `rs` without interface `name` and what was bound to its number. */
  ghost predicate Lost(rs: Real, u: Real, name: string, index: int) {
    && (forall n: string :: LostFind(rs, u, name, index, n))
    && (forall i: int :: LostUp(rs, u, index, i))
    && (forall i :: i in u.ifaces ==> LostFrom(rs, index, i))
    && (forall a :: a in u.addrs <==> a in rs.addrs && a.ifindex != index)
    && (forall r :: r in u.routes <==> r in rs.routes && r.oif != index)
    && u.dns == rs.dns
  }

  predicate LostFind(rs: Real, u: Real, name: string, index: int, n: string) {
    && FindBy(u, n) == (if n == name then None else FreedBy(FindBy(rs, n), index))
    && FindVlan(u.vlans, n) == (if n == name then None else FindVlan(rs.vlans, n))
    && FindVxlan(u.vxlans, n) == (if n == name then None else FindVxlan(rs.vxlans, n))
  }

  predicate LostUp(rs: Real, u: Real, index: int, i: int) {
    UpNumber(u, i) <==> UpNumber(rs, i) && i != index
  }

  predicate LostFrom(rs: Real, index: int, i: Iface) {
    exists j :: j in rs.ifaces && j.ifindex != index && i == FreedOne(j, {index})
  }

  /** The interfaces that are left. */
  function IfacesBut(ifaces: seq<Iface>, index: int): seq<Iface> {
    var all := {index};
    Freed(Filter(ifaces, (i: Iface) => i.ifindex !in all), all)
  }

  lemma {:induction false} ButFind(rs: Real, name: string, n: string)
    requires Sound(rs) && FindBy(rs, name).Some?
    ensures FindIface(IfacesBut(rs.ifaces, FindBy(rs, name).value.ifindex), n) ==
            if n == name then None else FreedBy(FindBy(rs, n), FindBy(rs, name).value.ifindex)
  {
    hide FindIface, KindThere, Filter, Freed;
    var all := {FindBy(rs, name).value.ifindex};
    forall i | i in rs.ifaces && i.name == n
      ensures i.ifindex in all <==> FindBy(rs, n).value.ifindex in all
    {
      assert Sole(rs, i);
    }
    assert Apart(rs, n, name);
    FilterIface(rs.ifaces, all, n);
    FindFreed(Filter(rs.ifaces, (i: Iface) => i.ifindex !in all), all, n);
  }

  lemma {:induction false} ButFrom(ifaces: seq<Iface>, index: int, i: Iface) returns (j: Iface)
    requires i in IfacesBut(ifaces, index)
    ensures j in ifaces && j.ifindex != index && i == FreedOne(j, {index})
  {
    var all := {index};
    j := FreedFrom(Filter(ifaces, (i: Iface) => i.ifindex !in all), all, i);
    FilterIn(ifaces, (i: Iface) => i.ifindex !in all, j);
  }

  lemma {:induction false} ButIn(ifaces: seq<Iface>, index: int, i: Iface)
    requires i in ifaces && i.ifindex != index
    ensures FreedOne(i, {index}) in IfacesBut(ifaces, index)
  {
    var all := {index};
    FilterIn(ifaces, (i: Iface) => i.ifindex !in all, i);
    FreedIn(Filter(ifaces, (i: Iface) => i.ifindex !in all), all, i);
  }

  lemma {:induction false} ButUp(rs: Real, u: Real, index: int, i: int)
    requires u.ifaces == IfacesBut(rs.ifaces, index)
    ensures LostUp(rs, u, index, i)
  {
    hide IfacesBut;
    if UpNumber(u, i) {
      var x :| x in u.ifaces && x.ifindex == i && x.up;
      var j := ButFrom(rs.ifaces, index, x);
      assert j.up && j.ifindex == i;
    }
    if UpNumber(rs, i) && i != index {
      var j :| j in rs.ifaces && j.ifindex == i && j.up;
      ButIn(rs.ifaces, index, j);
      assert FreedOne(j, {index}).up && FreedOne(j, {index}).ifindex == i;
    }
  }

  lemma {:induction false} DeletedIs(rs: Real, name: string)
    requires Sound(rs) && FindBy(rs, name).Some? && NothingOver(rs, FindBy(rs, name).value.ifindex)
    ensures var gone, all, names := FindBy(rs, name).value, {FindBy(rs, name).value.ifindex}, {name};
            Deleted(rs, gone) ==
            Real(IfacesBut(rs.ifaces, gone.ifindex), Filter(rs.addrs, (a: Addr) => a.ifindex !in all),
                 Filter(rs.routes, (r: Route) => r.oif !in all), rs.dns,
                 Filter(rs.vxlans, (v: Vxlan) => v.ifname !in names),
                 Filter(rs.vlans, (v: Vlan) => v.ifname !in names))
  {
    hide FindIface, Filter, Freed, Stack, NamesOf, NothingOver;
    StackAlone(rs, FindBy(rs, name).value.ifindex, |rs.ifaces|);
    NameAlone(rs, name);
  }

  lemma {:induction false} DeletedIsLost(rs: Real, name: string)
    requires Sound(rs) && FindBy(rs, name).Some? && NothingOver(rs, FindBy(rs, name).value.ifindex)
    ensures Lost(rs, Deleted(rs, FindBy(rs, name).value), name, FindBy(rs, name).value.ifindex)
  {
    hide Filter, FindIface, FindVlan, FindVxlan, Deleted, IfacesBut, NothingOver, Sound;
    var gone := FindBy(rs, name).value;
    var all, names, u := {gone.ifindex}, {name}, Deleted(rs, gone);
    DeletedIs(rs, name);
    forall n: string
      ensures LostFind(rs, u, name, gone.ifindex, n)
    {
      ButFind(rs, name, n);
      FilterVlan(rs.vlans, names, n);
      FilterVxlan(rs.vxlans, names, n);
    }
    forall i: int
      ensures LostUp(rs, u, gone.ifindex, i)
    {
      ButUp(rs, u, gone.ifindex, i);
    }
    forall i | i in u.ifaces
      ensures LostFrom(rs, gone.ifindex, i)
    {
      var j := ButFrom(rs.ifaces, gone.ifindex, i);
    }
    forall a
      ensures a in u.addrs <==> a in rs.addrs && a.ifindex != gone.ifindex
    {
      FilterIn(rs.addrs, (a: Addr) => a.ifindex !in all, a);
    }
    forall r
      ensures r in u.routes <==> r in rs.routes && r.oif != gone.ifindex
    {
      FilterIn(rs.routes, (r: Route) => r.oif !in all, r);
    }
  }

  lemma {:induction false} DelDone(k: Kernel, name: string)
    requires Consistent(k) && FindBy(k.state, name).Some? && NothingOver(k.state, FindBy(k.state, name).value.ifindex)
    ensures var u := After(k, LinkDel(name));
            && Exec(k, LinkDel(name)).Some? && u.next == k.next && Consistent(u)
            && u.state == Deleted(k.state, FindBy(k.state, name).value)
            && Lost(k.state, u.state, name, FindBy(k.state, name).value.ifindex)
  {
    hide FindIface, FindVlan, FindVxlan, Deleted, Lost, Sound, KernelOk, NothingOver;
    IsConsistent(k);
    DeletedIsLost(k.state, name);
    LostConsistent(k, After(k, LinkDel(name)), name);
  }

  lemma {:induction false} LostConsistent(k: Kernel, u: Kernel, name: string)
    requires Consistent(k) && FindBy(k.state, name).Some?
    requires Lost(k.state, u.state, name, FindBy(k.state, name).value.ifindex) && u.next == k.next
    ensures Consistent(u)
  {
    hide FindBy, FindVlan, FindVxlan, UpNumber;
    var index := FindBy(k.state, name).value.ifindex;
    forall n: string
      ensures Numbered(u, n) && KindThere(u.state, n)
    {
      assert LostFind(k.state, u.state, name, index, n) && Numbered(k, n) && KindThere(k.state, n);
    }
    forall x: string, y: string
      ensures Apart(u.state, x, y)
    {
      assert LostFind(k.state, u.state, name, index, x) && LostFind(k.state, u.state, name, index, y);
      assert Apart(k.state, x, y);
    }
    forall i | i in u.state.ifaces
      ensures Sole(u.state, i)
    {
      assert LostFrom(k.state, index, i);
      var j :| j in k.state.ifaces && j.ifindex != index && i == FreedOne(j, {index});
      assert Sole(k.state, j) && LostFind(k.state, u.state, name, index, j.name);
    }
  }

  /** What was no worse than the snapshot is, without the interface, no worse than the snapshot without it. */
  lemma {:induction false} LostImproves(rs: Real, k: Real, rs': Real, k': Real, name: string, index: int,
                                        bridge: string, keys: set<Prefix>)
    requires Improves(rs, k, bridge, keys) && Lost(rs, rs', name, index) && Lost(k, k', name, index) && name != bridge
    requires FindBy(rs, bridge).Some? ==> 0 < FindBy(rs, bridge).value.ifindex != index
    ensures Improves(rs', k', bridge, keys)
  {
    hide FindBy, FindVlan, FindVxlan, UpNumber, LostFrom;
    forall n: string
      ensures StillThere(rs', k', n) && MasterStays(rs', k', bridge, n) && VlanStaysThere(rs', k', n)
    {
      assert LostFind(rs, rs', name, index, n) && LostFind(k, k', name, index, n);
      assert StillThere(rs, k, n) && StillThere(rs, k, bridge) && MasterStays(rs, k, bridge, n);
      assert VlanStaysThere(rs, k, n);
      assert LostFind(rs, rs', name, index, bridge) && LostFind(k, k', name, index, bridge);
    }
    forall i: int
      ensures UpStaysUp(rs', k', i)
    {
      assert LostUp(rs, rs', index, i) && LostUp(k, k', index, i) && UpStaysUp(rs, k, i);
    }
  }

  /** What is not bound to the interface stays. */
  lemma {:induction false} LostKeeps(rs: Real, u: Real, name: string, index: int, n: string)
    requires Lost(rs, u, name, index) && n != name
    ensures FindBy(u, n) == FreedBy(FindBy(rs, n), index) && (UpOk(n, rs) <==> UpOk(n, u)) && FindBy(u, name) == None
  {
    assert LostFind(rs, u, name, index, n) && LostFind(rs, u, name, index, name);
  }

  lemma {:induction false} LostRoute(rs: Real, u: Real, name: string, p: Prefix, gw: Option<nat>, dev: string)
    requires Sound(rs) && FindBy(rs, name).Some? && Lost(rs, u, name, FindBy(rs, name).value.ifindex) && dev != name
    ensures RouteVia(rs, p.addr, p.len, gw, dev) <==> RouteVia(u, p.addr, p.len, gw, dev)
  {
    hide FindIface, FindVlan, FindVxlan, Sole, KindThere;
    assert LostFind(rs, u, name, FindBy(rs, name).value.ifindex, dev) && Apart(rs, name, dev);
  }

  /** What the routes may as well be judged on. */
  function Seen(rs: Real, name: string, remade: bool): Real {
    if remade && FindBy(rs, name).Some? then Deleted(rs, FindBy(rs, name).value) else rs
  }

  function LinksBut(links: set<Link>, name: string): set<Link> {
    set l | l in links && l.dev != name
  }

  lemma {:induction false} LostFollows(rs: Real, k: Kernel, rs': Real, k': Kernel, bridge: string, name: string)
    requires Follows(rs, k, bridge) && FindBy(rs, name).Some? && FindBy(k.state, name).Some? && name != bridge
    requires Lost(rs, rs', name, FindBy(rs, name).value.ifindex)
    requires Lost(k.state, k'.state, name, FindBy(k.state, name).value.ifindex)
    requires Consistent(k') && k'.next == k.next
    ensures Follows(rs', k', bridge)
  {
    hide FindIface, FindVlan, FindVxlan, Consistent, LostUp, LostFrom;
    var index := FindBy(rs, name).value.ifindex;
    assert KeepsNumber(rs, k.state, name);
    forall n: string
      ensures KeepsNumber(rs', k'.state, n)
    {
      assert KeepsNumber(rs, k.state, n);
      assert LostFind(rs, rs', name, index, n) && LostFind(k.state, k'.state, name, index, n);
    }
    assert LostFind(k.state, k'.state, name, index, bridge);
    forall a | a in k'.state.addrs
      ensures SeenAddr(rs', k'.state, bridge, a)
    {
      assert SeenAddr(rs, k.state, bridge, a);
    }
  }

  lemma {:induction false} LostLinks(k: Kernel, u: Real, name: string)
    requires Consistent(k) && FindBy(k.state, name).Some?
    requires Lost(k.state, u, name, FindBy(k.state, name).value.ifindex)
    ensures Links(u) == LinksBut(Links(k.state), name)
  {
    hide FindIface, FindVlan, FindVxlan, KernelOk, KindThere, Sole, LostUp, LostFrom, Links;
    var index := FindBy(k.state, name).value.ifindex;
    forall l: Link
      ensures l in Links(u) <==> l in LinksBut(Links(k.state), name)
    {
      LinkIn(u, l);
      LinkIn(k.state, l);
      assert LostFind(k.state, u, name, index, l.dev) && Apart(k.state, l.dev, name);
    }
  }

  lemma {:induction false} LostSprung(rs: Real, k: Real, rs': Real, k': Real, name: string, index: int,
                                      keys: set<Prefix>)
    requires Sprung(rs, k, keys) && Lost(rs, rs', name, index) && Lost(k, k', name, index)
    requires FindBy(k, name).Some? && FindBy(k, name).value.ifindex == index
    ensures Sprung(rs', k', keys)
  {
    hide FindIface, FindVlan, FindVxlan, LostUp, LostFrom, NoHostBits;
    forall r | r in k'.routes
      ensures r in rs'.routes || Prefix(r.dst, r.prefix) in keys || Comes(k', r)
    {
      if r !in rs.routes && Comes(k, r) {
        var n: string :| IsUpAt(k, n, r.oif);
        assert LostFind(k, k', name, index, n);
        assert IsUpAt(k', n, r.oif);
      }
    }
  }

  lemma {:induction false} LostRose(rs: Real, k: Real, rs': Real, k': Real, name: string, index: int, ups: set<string>)
    requires OnlyUp(rs, k, ups) && Lost(rs, rs', name, index) && Lost(k, k', name, index)
    ensures OnlyUp(rs', k', ups)
  {
    hide FindIface, FindVlan, FindVxlan, LostUp, LostFrom;
    forall n: string
      ensures RoseOnly(rs', k', ups, n)
    {
      assert RoseOnly(rs, k, ups, n) && LostFind(rs, rs', name, index, n) && LostFind(k, k', name, index, n);
    }
  }

  // The parts of a state that have nothing to do with the interface.

  /** A state, what it asks of its uplink, whether its default route can be set, and what else is to be up. */
  datatype Plan = Plan(ds: Desired, how: Uplink, goes: bool, more: set<string>)

  predicate RestOk(p: Plan, rs: Real) {
    FirstDone(p.ds, rs, p.how, p.goes) && forall n :: n in p.more ==> UpOk(n, rs)
  }

  lemma {:induction false} RestStays(p: Plan, rs: Real, u: Real, keys: set<Prefix>)
    requires Improves(rs, u, p.ds.bridge, keys) && RestOk(p, rs) && !p.ds.addrMode.Dhcp?
    requires p.ds.gateway != "" ==> Prefix(0, 0) !in keys
    ensures RestOk(p, u)
  {
    hide Improves, FirstDone, UpOk;
    FirstStays(p.ds, rs, u, p.how, p.goes, keys);
    StayUp(p.more, rs, u, p.ds.bridge, keys);
  }

  /** The interface is none of those that the rest is about. */
  predicate Elsewhere(p: Plan, name: string) {
    && name != p.ds.bridge && (!p.how.NoUplink? ==> name != p.ds.uplink) && name !in p.ds.ports && name !in p.more
    && !p.ds.addrMode.Dhcp?
  }

  /** The interface is made anew only if it is there and nothing is over it. */
  predicate Alone(rs: Real, name: string, remade: bool) {
    remade ==> FindBy(rs, name).Some? && NothingOver(rs, FindBy(rs, name).value.ifindex)
  }

  /** Deleting the interface does not touch the bridge. */
  lemma {:induction false} BaseSurvives(ds: Desired, k: Kernel, u: Real, name: string)
    requires Consistent(k) && FindBy(k.state, name).Some? && name != ds.bridge && !ds.addrMode.Dhcp?
    requires Lost(k.state, u, name, FindBy(k.state, name).value.ifindex)
    ensures BaseOk(ds, k.state) ==> BaseOk(ds, u)
    ensures GatewayOk(ds, k.state) <==> GatewayOk(ds, u)
  {
    hide FindIface, ParsePrefix, ParseIp4, KernelOk, FindVlan, FindVxlan, Sole, KindThere, LostFrom, LostUp;
    var rs, index := k.state, FindBy(k.state, name).value.ifindex;
    assert LostFind(rs, u, name, index, ds.bridge) && Apart(rs, ds.bridge, name);
  }

  lemma {:induction false} MemberSurvives(bridge: string, k: Kernel, u: Real, name: string, n: string)
    requires Consistent(k) && FindBy(k.state, name).Some? && name != bridge && n != name
    requires Lost(k.state, u, name, FindBy(k.state, name).value.ifindex)
    ensures UpOk(n, k.state) ==> UpOk(n, u)
    ensures MasterOk(n, bridge, k.state) ==> MasterOk(n, bridge, u)
  {
    hide FindIface, KernelOk, FindVlan, FindVxlan, Sole, KindThere, LostFrom, LostUp;
    var index := FindBy(k.state, name).value.ifindex;
    assert LostFind(k.state, u, name, index, bridge) && LostFind(k.state, u, name, index, n);
    assert Apart(k.state, bridge, name);
    NumberOf(k, bridge);
  }

  lemma {:induction false} RestSurvives(p: Plan, k: Kernel, u: Real, name: string)
    requires Consistent(k) && FindBy(k.state, name).Some? && Elsewhere(p, name)
    requires Lost(k.state, u, name, FindBy(k.state, name).value.ifindex) && RestOk(p, k.state)
    ensures RestOk(p, u)
  {
    hide FindBy, Consistent, Lost, UpOk, MasterOk, BaseOk, GatewayOk;
    BaseSurvives(p.ds, k, u, name);
    if !p.how.NoUplink? {
      MemberSurvives(p.ds.bridge, k, u, name, p.ds.uplink);
    }
    forall i | 0 <= i < |p.ds.ports|
      ensures UpOk(p.ds.ports[i], u) && MasterOk(p.ds.ports[i], p.ds.bridge, u)
    {
      MemberSurvives(p.ds.bridge, k, u, name, p.ds.ports[i]);
    }
    forall n | n in p.more
      ensures UpOk(n, u)
    {
      MemberSurvives(p.ds.bridge, k, u, name, n);
    }
  }

  /** Before the interface is looked at. */
  ghost predicate Ready(p: Plan, name: string, rs: Real, k: Kernel, links: set<Link>, keys: set<Prefix>,
                        ups: set<string>) {
    && Along(rs, k, p.ds.bridge, keys) && Tracks(rs, k, p.ds.bridge, links, keys, ups) && RestOk(p, k.state)
    && k.state.vlans == rs.vlans && k.state.vxlans == rs.vxlans && Sound(rs)
    && (FindBy(rs, name).None? ==> FindBy(k.state, name).None?)
  }

  /** The networks after it. */
  function MadeLinks(rs: Real, name: string, remade: bool, links: set<Link>): set<Link> {
    if remade then LinksBut(links, name)
    else if UpOk(name, rs) then links
    else links + AddrLinks(name, rs)
  }

  /** And after. */
  ghost predicate Made(p: Plan, name: string, rs: Real, remade: bool, u: Kernel, links: set<Link>, keys: set<Prefix>,
                       ups: set<string>) {
    var seen := Seen(rs, name, remade);
    && Along(seen, u, p.ds.bridge, keys) && RestOk(p, u.state)
    && Tracks(seen, u, p.ds.bridge, MadeLinks(rs, name, remade, links), keys, ups + {name})
    && UpOk(name, u.state) && MasterOk(name, p.ds.bridge, u.state)
    && (remade ==> forall r :: r in u.state.routes ==> r.oif != FindBy(u.state, name).value.ifindex)
  }

  lemma {:induction false} IsReady(p: Plan, name: string, k: Kernel, acts: seq<Act>, links: set<Link>,
                                   keys: set<Prefix>, ups: set<string>)
    requires Consistent(k) && AllMild(acts, p.ds.bridge) && name != p.ds.bridge
    requires var u := RunActs(k, acts);
             Along(k.state, u, p.ds.bridge, keys) && RestOk(p, u.state)
             && Tracks(k.state, u, p.ds.bridge, links, keys, ups)
    ensures Ready(p, name, k.state, RunActs(k, acts), links, keys, ups)
  {
    hide Consistent, RunActs, RestOk, Tracks, Along, Mild, FindIface, Sound, KernelOk;
    RunConsistent(k, acts, p.ds.bridge);
    IsConsistent(k);
  }

  lemma {:induction false} NothingOverNow(rs: Real, u: Real, name: string)
    requires u.vlans == rs.vlans && u.vxlans == rs.vxlans && StillThere(rs, u, name) && FindBy(rs, name).Some?
    requires NothingOver(rs, FindBy(rs, name).value.ifindex)
    ensures NothingOver(u, FindBy(u, name).value.ifindex)
  {
    hide FindIface;
  }

  // The interface is deleted.

  lemma {:induction false} DeletedReady(p: Plan, name: string, rs: Real, k: Kernel, links: set<Link>,
                                        keys: set<Prefix>, ups: set<string>)
    requires Ready(p, name, rs, k, links, keys, ups) && Elsewhere(p, name) && Alone(rs, name, true)
    ensures var u, seen := After(k, LinkDel(name)), Seen(rs, name, true);
            && Exec(k, LinkDel(name)).Some? && Along(seen, u, p.ds.bridge, keys) && RestOk(p, u.state)
            && Tracks(seen, u, p.ds.bridge, LinksBut(links, name), keys, ups)
            && FindBy(u.state, name).None? && FindBy(seen, name).None? && FindBy(k.state, name).Some?
            && Lost(k.state, u.state, name, FindBy(k.state, name).value.ifindex)
  {
    hide FindIface, FindVlan, FindVxlan, Deleted, Lost, Sound, KernelOk, NothingOver, RestOk, Consistent, Improves,
         Exec, After, Follows, Links, Sprung, OnlyUp;
    var bridge := p.ds.bridge;
    BridgeStillThereToo(rs, k.state, bridge, keys, name);
    NothingOverNow(rs, k.state, name);
    IsFollowed(rs, k, bridge);
    DelDone(k, name);
    DeletedIsLost(rs, name);
    var u, seen, index := After(k, LinkDel(name)), Seen(rs, name, true), FindBy(rs, name).value.ifindex;
    IsConsistent(k);
    IsConsistent(u);
    BridgeNumber(bridge, name, rs, k, keys);
    LostImproves(rs, k.state, seen, u.state, name, index, bridge, keys);
    LostFollows(rs, k, seen, u, bridge, name);
    LostLinks(k, u.state, name);
    LostSprung(rs, k.state, seen, u.state, name, index, keys);
    LostRose(rs, k.state, seen, u.state, name, index, ups);
    RestSurvives(p, k, u.state, name);
    LostKeeps(k.state, u.state, name, index, bridge);
    LostIsGone(rs, seen, name, index);
  }

  lemma {:induction false} IsFollowed(rs: Real, k: Kernel, bridge: string)
    requires Follows(rs, k, bridge)
    ensures Consistent(k)
  {
  }

  lemma {:induction false} BridgeStillThereToo(rs: Real, u: Real, bridge: string, keys: set<Prefix>, name: string)
    requires Improves(rs, u, bridge, keys)
    ensures StillThere(rs, u, bridge) && StillThere(rs, u, name)
  {
  }

  lemma {:induction false} BridgeNumber(bridge: string, name: string, rs: Real, k: Kernel, keys: set<Prefix>)
    requires Sound(rs) && KernelOk(k) && Improves(rs, k.state, bridge, keys) && name != bridge && FindBy(rs, name).Some?
    ensures FindBy(rs, bridge).Some? ==>
              0 < FindBy(rs, bridge).value.ifindex != FindBy(rs, name).value.ifindex
  {
    hide FindIface, FindVlan, FindVxlan, KindThere, Sole;
    assert Apart(rs, bridge, name) && StillThere(rs, k.state, bridge);
    NumberOf(k, bridge);
  }

  // The interface is added.

  /** A new interface, and nothing else that is new. */
  ghost predicate Added(k: Kernel, u: Kernel, name: string, kind: string) {
    && u.next == k.next + 1 && u.state.addrs == k.state.addrs && u.state.routes == k.state.routes
    && u.state.dns == k.state.dns && u.state.ifaces == k.state.ifaces + [Iface(name, kind, k.next, false, 0)]
    && (forall n: string :: AddedFind(k, u, name, n))
  }

  predicate AddedFind(k: Kernel, u: Kernel, name: string, n: string) {
    n != name ==>
      && FindVlan(u.state.vlans, n) == FindVlan(k.state.vlans, n)
      && FindVxlan(u.state.vxlans, n) == FindVxlan(k.state.vxlans, n)
  }

  lemma {:induction false} FindAdded(k: Kernel, u: Kernel, name: string, kind: string, n: string)
    requires Added(k, u, name, kind) && FindBy(k.state, name).None?
    ensures FindBy(u.state, n) == if n == name then Some(Iface(n, kind, k.next, false, 0)) else FindBy(k.state, n)
  {
    hide FindIface, FindVlan, FindVxlan;
    FindLast(k.state.ifaces, Iface(name, kind, k.next, false, 0), n);
  }

  lemma {:induction false} AddedConsistent(k: Kernel, u: Kernel, name: string, kind: string)
    requires Consistent(k) && Added(k, u, name, kind) && FindBy(k.state, name).None?
    ensures Consistent(u)
  {
    hide FindBy, FindVlan, FindVxlan;
    forall n: string
      ensures Numbered(u, n) && KindThere(u.state, n)
    {
      FindAdded(k, u, name, kind, n);
      assert AddedFind(k, u, name, n) && Numbered(k, n) && KindThere(k.state, n);
    }
    forall x: string, y: string
      ensures Apart(u.state, x, y)
    {
      FindAdded(k, u, name, kind, x);
      FindAdded(k, u, name, kind, y);
      assert Apart(k.state, x, y) && Numbered(k, x) && Numbered(k, y);
    }
    forall i | i in u.state.ifaces
      ensures Sole(u.state, i)
    {
      FindAdded(k, u, name, kind, i.name);
      if i in k.state.ifaces {
        assert Sole(k.state, i);
      }
    }
  }

  lemma {:induction false} AddedImproves(k: Kernel, u: Kernel, name: string, kind: string, bridge: string)
    requires Added(k, u, name, kind) && FindBy(k.state, name).None?
    requires FindVlan(k.state.vlans, name).None?
    ensures Improves(k.state, u.state, bridge, {})
  {
    hide FindBy, FindVlan, FindVxlan;
    forall n: string
      ensures StillThere(k.state, u.state, n) && MasterStays(k.state, u.state, bridge, n)
              && VlanStaysThere(k.state, u.state, n)
    {
      FindAdded(k, u, name, kind, n);
      FindAdded(k, u, name, kind, bridge);
      assert AddedFind(k, u, name, n);
    }
    assert forall i :: i in k.state.ifaces ==> i in u.state.ifaces;
  }

  /** No route goes through an interface that was just added, not even when it goes up. */
  lemma {:induction false} NoRoutesYet(k: Kernel, u: Kernel, name: string, kind: string)
    requires Consistent(k) && Added(k, u, name, kind) && FindBy(k.state, name).None? && MayGoUp(u.state, name)
    ensures forall r :: r in After(u, LinkUp(name)).state.routes ==> r.oif != k.next
  {
    hide FindIface, FindVlan, FindVxlan, SetUp, ConnectedRoutes, MayGoUp, Sound;
    FindAdded(k, u, name, kind, name);
    UpDone(u, name);
    forall r | r in After(u, LinkUp(name)).state.routes
      ensures r.oif != k.next
    {
      if r !in k.state.routes {
        ConnectedThere(u.state.addrs, k.next, r);
      }
    }
  }

  lemma {:induction false} RunThree(k: Kernel, a: Act, b: Act, c: Act)
    ensures RunActs(k, [a, b, c]) == After(After(After(k, a), b), c)
    ensures AnyFails(k, [a, b, c]) <==>
              Exec(k, a).None? || Exec(After(k, a), b).None? || Exec(After(After(k, a), b), c).None?
  {
    hide After, Exec;
    RunFew(After(k, a), b, c);
    FailsFew(After(k, a), b, c);
    assert [a, b, c][1..] == [b, c];
  }

  lemma {:induction false} SameRoutes(k: Kernel, name: string, bridge: string)
    ensures After(k, LinkMaster(name, bridge)).state.routes == k.state.routes
  {
  }

  /** The interface goes up and into the bridge. */
  lemma {:induction false} MakeDone(name: string, kind: string, add: Act, bridge: string, k: Kernel)
    requires Consistent(k) && FindBy(k.state, name).None? && name != bridge && FindVlan(k.state.vlans, name).None?
    requires FindBy(k.state, bridge).Some? && FindBy(k.state, bridge).value.kind == "bridge"
    requires Exec(k, add).Some? && Added(k, After(k, add), name, kind) && MayGoUp(After(k, add).state, name)
    ensures var acts := [add, LinkUp(name), LinkMaster(name, bridge)];
            var u, k1 := RunActs(k, acts), After(k, add);
            && !AnyFails(k, acts) && Consistent(u) && UpOk(name, u.state) && MasterOk(name, bridge, u.state)
            && Improves(k.state, u.state, bridge, {}) && Improves(k1.state, u.state, bridge, {})
            && u.state.vlans == k1.state.vlans && u.state.vxlans == k1.state.vxlans
            && forall r :: r in u.state.routes ==> r.oif != FindBy(u.state, name).value.ifindex
  {
    hide FindIface, After, RunActs, AnyFails, Exec, Improves, KernelOk, Consistent, FindVlan, FindVxlan, Added, MayGoUp,
         ConnectedRoutes;
    var up, master := LinkUp(name), LinkMaster(name, bridge);
    RunThree(k, add, up, master);
    var k1 := After(k, add);
    AddedConsistent(k, k1, name, kind);
    AddedImproves(k, k1, name, kind, bridge);
    FindAdded(k, k1, name, kind, name);
    UpDone(k1, name);
    AfterImproves(k1, up, bridge);
    MildConsistent(k1, up, bridge);
    var k2 := After(k1, up);
    MildNumbers(k1, up, bridge, name);
    NoRoutesYet(k, k1, name, kind);
    KindStays(k.state, k1.state, bridge);
    KindStays(k1.state, k2.state, bridge);
    MasterDone(k2, name, bridge);
    AfterImproves(k2, master, bridge);
    MildConsistent(k2, master, bridge);
    var u := After(k2, master);
    MildNumbers(k2, master, bridge, name);
    SameRoutes(k2, name, bridge);
    assert {} + {} == KeysOf(up);
    ImprovesTwice(k1.state, k2.state, u.state, bridge, {}, {});
    ImprovesTwice(k.state, k1.state, u.state, bridge, {}, {});
    UpStays(k2.state, u.state, bridge, {}, name);
  }

  lemma {:induction false} KindStays(rs: Real, u: Real, bridge: string)
    requires Improves(rs, u, bridge, {}) && FindBy(rs, bridge).Some?
    ensures FindBy(u, bridge).Some? && FindBy(u, bridge).value.kind == FindBy(rs, bridge).value.kind
  {
    assert StillThere(rs, u, bridge);
  }

  lemma {:induction false} AddedTracks(k: Kernel, u: Kernel, name: string, kind: string, rs: Real, bridge: string,
                                       links: set<Link>, keys: set<Prefix>, ups: set<string>)
    requires Tracks(rs, k, bridge, links, keys, ups) && Added(k, u, name, kind) && FindBy(k.state, name).None?
    requires FindBy(rs, name).None?
    ensures Tracks(rs, u, bridge, links, keys, ups)
  {
    hide FindIface, FindVlan, FindVxlan, Consistent, NoHostBits, Links;
    AddedConsistent(k, u, name, kind);
    forall n: string
      ensures KeepsNumber(rs, u.state, n) && RoseOnly(rs, u.state, ups, n)
    {
      assert KeepsNumber(rs, k.state, n) && RoseOnly(rs, k.state, ups, n);
      FindAdded(k, u, name, kind, n);
    }
    FindAdded(k, u, name, kind, bridge);
    forall a | a in u.state.addrs
      ensures SeenAddr(rs, u.state, bridge, a)
    {
      assert SeenAddr(rs, k.state, bridge, a);
    }
    forall r | r in u.state.routes && r !in rs.routes && Comes(k.state, r)
      ensures Comes(u.state, r)
    {
      var n: string :| IsUpAt(k.state, n, r.oif);
      FindAdded(k, u, name, kind, n);
      assert IsUpAt(u.state, n, r.oif);
    }
    AddedLinks(k, u, name, kind);
  }

  lemma {:induction false} AddedLinks(k: Kernel, u: Kernel, name: string, kind: string)
    requires Consistent(k) && Added(k, u, name, kind) && FindBy(k.state, name).None?
    ensures Links(u.state) == Links(k.state)
  {
    hide FindIface, FindVlan, FindVxlan, KernelOk, Sound, Links;
    forall l: Link
      ensures l in Links(u.state) <==> l in Links(k.state)
    {
      LinkIn(u.state, l);
      LinkIn(k.state, l);
      FindAdded(k, u, name, kind, l.dev);
    }
  }

  lemma {:induction false} MakeTracks(name: string, kind: string, add: Act, bridge: string, k: Kernel, rs: Real,
                                      links: set<Link>, keys: set<Prefix>, ups: set<string>)
    requires Tracks(rs, k, bridge, links, keys, ups) && Improves(rs, k.state, bridge, keys) && FindBy(rs, name).None?
    requires FindBy(k.state, name).None? && name != bridge && FindVlan(k.state.vlans, name).None?
    requires FindBy(k.state, bridge).Some? && FindBy(k.state, bridge).value.kind == "bridge"
    requires Exec(k, add).Some? && Added(k, After(k, add), name, kind) && MayGoUp(After(k, add).state, name)
    ensures Tracks(rs, RunActs(k, [add, LinkUp(name), LinkMaster(name, bridge)]), bridge, links, keys, ups + {name})
  {
    hide FindIface, After, RunActs, AnyFails, Exec, Improves, Consistent, FindVlan, FindVxlan, Added, MayGoUp, Links,
         Tracks, Step, Mild;
    var up, master, k1 := LinkUp(name), LinkMaster(name, bridge), After(k, add);
    TracksLinks(rs, k, bridge, links, keys, ups);
    RunThree(k, add, up, master);
    AddedTracks(k, k1, name, kind, rs, bridge, links, keys, ups);
    AddedImproves(k, k1, name, kind, bridge);
    assert keys + {} == keys;
    ImprovesTwice(rs, k.state, k1.state, bridge, keys, {});
    FindAdded(k, k1, name, kind, name);
    UpDone(k1, name);
    MildMaster(name, bridge);
    TracksAfter(up, rs, k1, bridge, links, keys, ups);
    NothingComes(name, rs, links, keys, bridge);
    AfterImproves(k1, up, bridge);
    var k2 := After(k1, up);
    ImprovesTwice(rs, k1.state, k2.state, bridge, keys, {});
    KindStays(k.state, k1.state, bridge);
    KindStays(k1.state, k2.state, bridge);
    MasterDone(k2, name, bridge);
    TracksAfter(master, rs, k2, bridge, links, keys, ups + {name});
    assert ups + {name} + Raises(master) == ups + {name};
  }

  lemma {:induction false} MildMaster(name: string, bridge: string)
    ensures Mild(LinkUp(name), bridge) && Mild(LinkMaster(name, bridge), bridge)
    ensures KeysOf(LinkUp(name)) == {} && KeysOf(LinkMaster(name, bridge)) == {}
  {
  }

  lemma {:induction false} NothingComes(name: string, rs: Real, links: set<Link>, keys: set<Prefix>, bridge: string)
    requires FindBy(rs, name).None?
    ensures Step(LinkUp(name), rs, links) == links && Step(LinkMaster(name, bridge), rs, links) == links
    ensures keys + KeysOf(LinkUp(name)) == keys && keys + KeysOf(LinkMaster(name, bridge)) == keys
  {
  }

  /** The interface is there, and goes up and into the bridge. */
  lemma {:induction false} RightMade(p: Plan, name: string, rs: Real, k: Kernel, links: set<Link>, keys: set<Prefix>,
                                     ups: set<string>)
    requires Ready(p, name, rs, k, links, keys, ups) && FindBy(rs, name).Some? && Elsewhere(p, name)
    requires UpOk(name, rs) || MayGoUp(k.state, name)
    ensures var acts := Acts(CheckUp(name, FindBy(rs, name)) + CheckMaster(name, FindBy(rs, name), p.ds.bridge, rs));
            var u := RunActs(k, acts);
            && !AnyFails(k, acts) && Made(p, name, rs, false, u, links, keys, ups)
            && Improves(k.state, u.state, p.ds.bridge, {}) && u.state.vlans == rs.vlans && u.state.vxlans == rs.vxlans
  {
    hide FindIface, Acts, RunActs, AnyFails, Improves, Mild, KernelOk, RestOk, CheckUp, CheckMaster, KeysOfAll, MayGoUp,
         Sound, Tracks, Steps, Lifting, AddrLinks, Consistent;
    var bridge, iface := p.ds.bridge, FindBy(rs, name);
    var a, b := CheckUp(name, iface), CheckMaster(name, iface, bridge, rs);
    UpMasterBlock(name, bridge, rs, k, keys);
    LiftingMember(name, bridge, rs);
    LiftingBoth(a, b, bridge, {name}, {});
    assert {name} + {} == {name};
    ReportTracks(a + b, rs, k, bridge, links, keys, ups, {name});
    UpMasterSteps(name, bridge, rs, links);
    var u := RunActs(k, Acts(a + b));
    RestStays(p, k.state, u.state, {});
    TracksLinks(rs, k, bridge, links, keys, ups);
    RunConsistent(k, Acts(a + b), bridge);
    assert links + {} == links;
  }

  /** A new interface. */
  lemma {:induction false} NewMade(p: Plan, name: string, kind: string, add: Act, rs: Real, remade: bool, k: Kernel,
                                   links: set<Link>, keys: set<Prefix>, ups: set<string>)
    requires var seen := Seen(rs, name, remade);
             && Along(seen, k, p.ds.bridge, keys) && RestOk(p, k.state) && FindBy(seen, name).None?
             && Tracks(seen, k, p.ds.bridge, MadeLinks(rs, name, remade, links), keys, ups)
    requires FindBy(k.state, name).None? && Elsewhere(p, name) && FindVlan(k.state.vlans, name).None?
    requires Exec(k, add).Some? && Added(k, After(k, add), name, kind) && MayGoUp(After(k, add).state, name)
    ensures var acts := [add, LinkUp(name), LinkMaster(name, p.ds.bridge)];
            var u, k1 := RunActs(k, acts), After(k, add);
            && !AnyFails(k, acts) && Made(p, name, rs, remade, u, links, keys, ups)
            && Improves(k.state, u.state, p.ds.bridge, {})
            && u.state.vlans == k1.state.vlans && u.state.vxlans == k1.state.vxlans
  {
    hide FindIface, RunActs, AnyFails, Exec, After, Improves, Consistent, FindVlan, Added, MayGoUp, Tracks, RestOk,
         KernelOk, MadeLinks, Seen;
    var bridge, seen := p.ds.bridge, Seen(rs, name, remade);
    TracksLinks(seen, k, bridge, MadeLinks(rs, name, remade, links), keys, ups);
    MakeDone(name, kind, add, bridge, k);
    MakeTracks(name, kind, add, bridge, k, seen, MadeLinks(rs, name, remade, links), keys, ups);
    var u := RunActs(k, [add, LinkUp(name), LinkMaster(name, bridge)]);
    RestStays(p, k.state, u.state, {});
    ImprovesTwice(seen, k.state, u.state, bridge, keys, {});
    assert keys + {} == keys;
    IsConsistent(u);
    KindStays(k.state, u.state, bridge);
  }

  // The routes.

  /** No desired route goes through an interface that is made anew and is there on the snapshot. */
  predicate Survive(routes: seq<DesiredRoute>, rs: Real, name: string, remade: bool) {
    remade ==> forall i :: 0 <= i < |routes| && routes[i].dev == name ==> !RouteOk(routes[i], rs)
  }

  /** A route is there or not, with the interface or without. */
  lemma {:induction false} RouteSeen(routes: seq<DesiredRoute>, rs: Real, name: string, remade: bool, rt: DesiredRoute)
    requires Survive(routes, rs, name, remade) && rt in routes && Sound(rs) && Alone(rs, name, remade)
    ensures RouteOk(rt, Seen(rs, name, remade)) <==> RouteOk(rt, rs)
  {
    hide FindIface, ParsePrefix, ParseIp4, Deleted, Lost, NothingOver, Sound, FindVlan, FindVxlan;
    if remade {
      var index := FindBy(rs, name).value.ifindex;
      DeletedIsLost(rs, name);
      if rt.dev == name {
        LostIsGone(rs, Seen(rs, name, remade), name, index);
      } else if ParseRoute(rt).Some? {
        var r := ParseRoute(rt).value;
        LostRoute(rs, Seen(rs, name, remade), name, r.prefix, r.via, rt.dev);
      }
    }
  }

  lemma {:induction false} LostIsGone(rs: Real, u: Real, name: string, index: int)
    requires Lost(rs, u, name, index)
    ensures FindBy(u, name).None?
  {
    assert LostFind(rs, u, name, index, name);
  }

  lemma {:induction false} SameReports(routes: seq<DesiredRoute>, rs: Real, name: string, remade: bool,
                                       some: seq<DesiredRoute>)
    requires Survive(routes, rs, name, remade) && Sound(rs) && Alone(rs, name, remade)
    requires forall i :: 0 <= i < |some| ==> some[i] in routes
    ensures CheckRoutes(some, Seen(rs, name, remade)) == CheckRoutes(some, rs)
    decreases |some|
  {
    hide CheckRoute, RouteOk, Seen, FindIface, ParseRoute, Sound, Survive, Alone;
    if some != [] {
      RouteSeen(routes, rs, name, remade, some[0]);
      SameRoute(some[0], rs, Seen(rs, name, remade));
      SameReports(routes, rs, name, remade, some[1..]);
    }
  }

  lemma {:induction false} SameRoute(rt: DesiredRoute, rs: Real, u: Real)
    requires RouteOk(rt, u) <==> RouteOk(rt, rs)
    ensures CheckRoute(rt, u) == CheckRoute(rt, rs)
  {
    hide FindIface, ParseRoute;
    if ParseRoute(rt).Some? {
      CheckRouteBy(rt, rs);
      CheckRouteBy(rt, u);
    }
  }

  /** A route through an interface that is made anew is lost with it, if the snapshot shows it. */
  lemma {:induction false} RouteLost(routes: seq<DesiredRoute>, rs: Real, name: string, k: Kernel, i: nat)
    requires DistinctKeys(routes) && i < |routes| && routes[i].dev == name && RouteOk(routes[i], rs)
    requires FindBy(k.state, name).Some?
    requires forall r :: r in k.state.routes ==> r.oif != FindBy(k.state, name).value.ifindex
    ensures !RoutesOk(routes, RunActs(k, Acts(CheckRoutes(routes, rs))).state)
  {
    hide FindIface, Acts, RunActs, CheckRoutes, ParsePrefix, ParseIp4, DistinctKeys, OtherKeys;
    var rt := routes[i];
    var r, acts := ParseRoute(rt).value, Acts(CheckRoutes(routes, rs));
    OthersDiffer(routes, rs, i);
    StaysOut(k, acts, Route(r.prefix.addr, r.prefix.len, r.via, FindBy(k.state, name).value.ifindex));
    assert !RouteOk(rt, RunActs(k, acts).state);
  }

  /** A default route that does not go is not there in the end. */
  lemma {:induction false} GatewayLost(p: Plan, name: string, rs: Real, remade: bool, k: Kernel, links: set<Link>,
                                       keys: set<Prefix>, ups: set<string>)
    requires Made(p, name, rs, remade, k, links, keys, ups) && Sound(rs)
    requires Elsewhere(p, name) && Alone(rs, name, remade)
    requires !GatewayOk(p.ds, rs) && Prefix(0, 0) !in keys && NotAmong(p.ds.routes, {Prefix(0, 0)})
    ensures !GatewayOk(p.ds, RunActs(k, Acts(CheckRoutes(p.ds.routes, rs))).state)
  {
    hide FindIface, Acts, RunActs, CheckRoutes, Tracks, RestOk, Sound, NothingOver, MadeLinks, RouteKey, Along, Deleted,
         ParseIp4, Lost;
    var seen := Seen(rs, name, remade);
    if remade {
      DeletedIsLost(rs, name);
      if ParseIp4(p.ds.gateway).Some? {
        LostRoute(rs, seen, name, Prefix(0, 0), ParseIp4(p.ds.gateway), p.ds.bridge);
      }
    }
    GatewayAbsent(p.ds, seen, k, MadeLinks(rs, name, remade, links), keys, ups + {name});
    GatewayStaysOut(p.ds, rs, k);
  }

  /** The last part of a pass. */
  lemma {:induction false} LastPart(p: Plan, name: string, rs: Real, remade: bool, k: Kernel, links: set<Link>,
                                    keys: set<Prefix>, ups: set<string>)
    requires Made(p, name, rs, remade, k, links, keys, ups) && Sound(rs)
    requires Elsewhere(p, name) && Alone(rs, name, remade)
    requires DistinctKeys(p.ds.routes) && NotAmong(p.ds.routes, keys) && p.goes
    requires p.ds.gateway != "" ==> NotAmong(p.ds.routes, {Prefix(0, 0)})
    requires forall dev :: dev in ups + {name} ==> UpOk(dev, k.state)
    ensures var acts, seen := Acts(CheckRoutes(p.ds.routes, rs)), Seen(rs, name, remade);
            var fine := && Survive(p.ds.routes, rs, name, remade)
                        && RoutesGo(p.ds.routes, ups + {name}, seen, MadeLinks(rs, name, remade, links));
            var u := RunActs(k, acts);
            && (RoutesOk(p.ds.routes, u.state) <==> fine)
            && (fine ==> && !AnyFails(k, acts) && RestOk(p, u.state) && AllMild(acts, p.ds.bridge)
                         && Improves(k.state, u.state, p.ds.bridge, KeysOfAll(acts))
                         && (forall q :: q in KeysOfAll(acts) ==>
                               exists i :: 0 <= i < |p.ds.routes| && RouteKey(p.ds.routes[i]) == Some(q)))
  {
    hide FindIface, Acts, RunActs, AnyFails, Improves, Mild, KeysOfAll, CheckRoutes, RoutesOk, NotAmong, Seen, Sound,
         RouteKey, Alone, Along, UpOk, Tracks, RoutesGo, RestOk, MadeLinks, MasterOk, DistinctKeys, RouteOk;
    var ds, seen := p.ds, Seen(rs, name, remade);
    var acts := Acts(CheckRoutes(ds.routes, rs));
    if Survive(ds.routes, rs, name, remade) {
      SameReports(ds.routes, rs, name, remade, ds.routes);
      RoutesDone(ds.routes, ups + {name}, seen, k, ds.bridge, MadeLinks(rs, name, remade, links), keys);
      if RoutesGo(ds.routes, ups + {name}, seen, MadeLinks(rs, name, remade, links)) {
        GatewayKeySafe(ds, KeysOfAll(acts));
        RestStays(p, k.state, RunActs(k, acts).state, KeysOfAll(acts));
      }
    } else {
      var i :| 0 <= i < |ds.routes| && ds.routes[i].dev == name && RouteOk(ds.routes[i], rs);
      IsThere(name, k.state);
      RouteLost(ds.routes, rs, name, k, i);
    }
  }

  lemma {:induction false} RestIsDone(p: Plan, rs: Real)
    requires RestOk(p, rs)
    ensures FirstDone(p.ds, rs, p.how, p.goes)
  {
  }

  lemma {:induction false} IsThere(name: string, rs: Real)
    requires UpOk(name, rs)
    ensures FindBy(rs, name).Some?
  {
  }

  lemma {:induction false} SameNumber(rs: Real, u: Real, bridge: string, n: string)
    requires Improves(rs, u, bridge, {})
    ensures StillThere(rs, u, n)
  {
  }
}
