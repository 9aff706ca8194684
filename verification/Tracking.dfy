/**
 What a pass of commands makes of the kernel, exactly: the networks that are on-link, the interfaces that are up and the
 routes that are new are those that can be told from the snapshot.
 */
module Tracking {
  import opened Wrappers
  import opened NetState
  import opened Verify
  import opened Kernel
  import opened Consistency

  /** An interface has the number that the snapshot shows, or is new and has one that nothing there is bound to. */
  predicate KeepsNumber(rs: Real, u: Real, n: string) {
    && (FindBy(rs, n).Some? ==> FindBy(u, n).Some? && FindBy(u, n).value.ifindex == FindBy(rs, n).value.ifindex)
    && (FindBy(rs, n).None? && FindBy(u, n).Some? ==>
          && (forall a :: a in rs.addrs ==> a.ifindex != FindBy(u, n).value.ifindex)
          && (forall r :: r in rs.routes ==> r.oif != FindBy(u, n).value.ifindex))
  }

  /** An address is one that the snapshot shows, or is on the bridge. */
  predicate SeenAddr(rs: Real, u: Real, bridge: string, a: Addr) {
    a in rs.addrs || (FindBy(u, bridge).Some? && a.ifindex == FindBy(u, bridge).value.ifindex)
  }

  /** The kernel is what a pass for a bridge, planned on the snapshot, can have made of it. */
  ghost predicate Follows(rs: Real, k: Kernel, bridge: string) {
    && Consistent(k)
    && (forall a :: a in rs.addrs ==> a.ifindex < k.next)
    && (forall r :: r in rs.routes ==> r.oif < k.next)
    && (forall n: string :: KeepsNumber(rs, k.state, n))
    && (forall a :: a in k.state.addrs ==> SeenAddr(rs, k.state, bridge, a))
  }

  /** A new route that comes with an address of an interface that is up. */
  ghost predicate Comes(u: Real, r: Route) {
    r.gw.None? && NoHostBits(Prefix(r.dst, r.prefix)) && exists n: string :: IsUpAt(u, n, r.oif)
  }

  predicate IsUpAt(u: Real, n: string, index: int) {
    UpOk(n, u) && FindBy(u, n).value.ifindex == index
  }

  /** A route is on the snapshot, or has one of these keys, or comes with an address. */
  ghost predicate Sprung(rs: Real, u: Real, keys: set<Prefix>) {
    forall r :: r in u.routes ==> r in rs.routes || Prefix(r.dst, r.prefix) in keys || Comes(u, r)
  }

  /** Only these interfaces have come up. */
  ghost predicate OnlyUp(rs: Real, u: Real, ups: set<string>) {
    forall n: string :: RoseOnly(rs, u, ups, n)
  }

  predicate RoseOnly(rs: Real, u: Real, ups: set<string>, n: string) {
    UpOk(n, u) ==> UpOk(n, rs) || n in ups
  }

  ghost predicate Tracks(rs: Real, k: Kernel, bridge: string, links: set<Link>, keys: set<Prefix>, ups: set<string>) {
    Follows(rs, k, bridge) && Links(k.state) == links && Sprung(rs, k.state, keys) && OnlyUp(rs, k.state, ups)
  }

  /** The interfaces that commands bring up. */
  function Raises(a: Act): set<string> {
    if a.LinkUp? then {a.name} else {}
  }

  function RaisesAll(acts: seq<Act>): set<string> {
    if acts == [] then {} else Raises(acts[0]) + RaisesAll(acts[1..])
  }

  lemma {:induction false} RaisesConcat(a: seq<Act>, b: seq<Act>)
    ensures RaisesAll(a + b) == RaisesAll(a) + RaisesAll(b)
    decreases |a|
  {
    hide Raises;
    if a == [] {
      assert a + b == b;
    } else {
      RaisesConcat(a[1..], b);
      assert (a + b)[1..] == a[1..] + b;
    }
  }

  /** Addresses are added to the bridge only, once it is up, and not before it goes up. */
  predicate Tidy(a: Act, rs: Real, k: Kernel, bridge: string) {
    && (a.AddrAdd? ==> a.dev == bridge && UpOk(bridge, k.state))
    && (a == LinkUp(bridge) ==> k.state.addrs == rs.addrs)
  }

  // One command.

  lemma {:induction false} AddrsAfter(a: Act, k: Kernel, bridge: string)
    requires Mild(a, bridge)
    ensures !a.AddrAdd? ==> After(k, a).state.addrs == k.state.addrs
    ensures a.AddrAdd? && Exec(k, a).Some? ==>
              && FindBy(k.state, a.dev).Some? && ParsePrefix(a.addr).Some?
              && After(k, a).state.addrs == k.state.addrs + [Addr(FindBy(k.state, a.dev).value.ifindex,
                                                                 ParsePrefix(a.addr).value.addr,
                                                                 ParsePrefix(a.addr).value.len)]
  {
    hide FindIface, SetUp, SetMaster, ConnectedRoutes, ParsePrefix, ParseIp4, OnLink, NoHostBits, MayGoUp;
  }

  lemma {:induction false} FollowsAfter(a: Act, rs: Real, k: Kernel, bridge: string)
    requires Follows(rs, k, bridge) && Mild(a, bridge) && Exec(k, a).Some? && Tidy(a, rs, k, bridge)
    ensures Follows(rs, After(k, a), bridge)
  {
    hide FindIface, Consistent, Exec, After, Mild, ParsePrefix;
    var u := After(k, a);
    MildConsistent(k, a, bridge);
    MildNumbers(k, a, bridge, bridge);
    IsConsistent(k);
    forall n: string
      ensures KeepsNumber(rs, u.state, n)
    {
      assert KeepsNumber(rs, k.state, n);
      MildNumbers(k, a, bridge, n);
    }
    AddrsAfter(a, k, bridge);
    forall x | x in u.state.addrs
      ensures SeenAddr(rs, u.state, bridge, x)
    {
      if x in k.state.addrs {
        assert SeenAddr(rs, k.state, bridge, x);
      }
    }
  }

  lemma {:induction false} UpOnly(name: string, rs: Real, k: Kernel, bridge: string, a: Addr)
    requires Follows(rs, k, bridge) && FindBy(k.state, name).Some? && Tidy(LinkUp(name), rs, k, bridge)
    requires a in k.state.addrs && a.ifindex == FindBy(k.state, name).value.ifindex
    ensures Link(name, NetOf(a)) in AddrLinks(name, rs)
  {
    hide FindIface, Network, KernelOk, KindThere, Sole;
    assert KeepsNumber(rs, k.state, name) && SeenAddr(rs, k.state, bridge, a) && Apart(k.state, name, bridge);
  }

  lemma {:induction false} StepOnly(a: Act, rs: Real, k: Kernel, bridge: string)
    requires Follows(rs, k, bridge) && Mild(a, bridge) && Exec(k, a).Some? && Tidy(a, rs, k, bridge)
    ensures Links(After(k, a).state) <= Step(a, rs, Links(k.state))
  {
    hide FindIface, Links, Network, Exec, After, Follows, AddrLinks, ParsePrefix, ParseIp4, Mild;
    var u := After(k, a).state;
    forall l | l in Links(u)
      ensures l in Step(a, rs, Links(k.state))
    {
      LinkIn(u, l);
      LinkIn(k.state, l);
      NewEntry(a, rs, k, bridge, l);
    }
  }

  /** Where a network comes from. */
  lemma {:induction false} NewEntry(a: Act, rs: Real, k: Kernel, bridge: string, l: Link)
    requires Follows(rs, k, bridge) && Mild(a, bridge) && Exec(k, a).Some? && Tidy(a, rs, k, bridge)
    requires Entry(After(k, a).state, l) && (Entry(k.state, l) <==> l in Links(k.state))
    ensures l in Step(a, rs, Links(k.state))
  {
    hide FindIface, Links, Network, KernelOk, KindThere, Sole, SetUp, SetMaster, ConnectedRoutes, ParsePrefix, ParseIp4,
         OnLink, NoHostBits, AddrLinks, FindVlan, UpNumber;
    MildNumbers(k, a, bridge, l.dev);
    match a
    case LinkUp(name) =>
      UpDone(k, name);
      FindUp(k.state.ifaces, name, l.dev);
      var index := FindBy(k.state, name).value.ifindex;
      if !Entry(k.state, l) {
        assert Apart(k.state, l.dev, name);
        var r := Route(l.net.addr, l.net.len, None, FindBy(k.state, l.dev).value.ifindex);
        ConnectedThere(k.state.addrs, index, r);
        var x :| x in k.state.addrs && x.ifindex == index && r == ConnectedRoute(x);
        UpOnly(name, rs, k, bridge, x);
      }
    case AddrAdd(_, dev) => assert Apart(k.state, l.dev, dev);
    case RouteReplace(_, _, dev) => assert Apart(k.state, l.dev, dev);
    case LinkAddBridge(name) => FindLast(k.state.ifaces, Iface(name, "bridge", k.next, false, 0), l.dev);
    case LinkMaster(name, br) =>
      FindMaster(k.state.ifaces, name, FindBy(k.state, br).value.ifindex, l.dev);
    case _ =>
  }

  lemma {:induction false} ClearTwice(addr: nat, bits: nat)
    ensures ClearLow(ClearLow(addr, bits), bits) == ClearLow(addr, bits)
    decreases bits
  {
    if bits > 0 {
      ClearTwice(addr / 2, bits - 1);
    }
  }

  /** A network has no host bits. */
  lemma {:induction false} NetHasNone(a: Addr)
    ensures NoHostBits(NetOf(a))
  {
    if a.prefix <= 32 {
      ClearTwice(a.addr, 32 - a.prefix);
    }
  }

  lemma {:induction false} SprungAfter(a: Act, rs: Real, k: Kernel, bridge: string, keys: set<Prefix>)
    requires Mild(a, bridge) && Exec(k, a).Some? && Sprung(rs, k.state, keys) && Tidy(a, rs, k, bridge)
    ensures Sprung(rs, After(k, a).state, keys + KeysOf(a))
  {
    hide FindIface, Exec, After, NoHostBits, ParsePrefix, ParseIp4, Mild, FindVlan, UpNumber;
    var u := After(k, a).state;
    AfterImproves(k, a, bridge);
    forall r | r in u.routes
      ensures r in rs.routes || Prefix(r.dst, r.prefix) in keys + KeysOf(a) || Comes(u, r)
    {
      if r in k.state.routes {
        if Comes(k.state, r) {
          var n: string :| IsUpAt(k.state, n, r.oif);
          assert StillThere(k.state, u, n);
          assert IsUpAt(u, n, r.oif);
        }
      } else {
        NewRoute(a, rs, k, bridge, r);
      }
    }
  }

  lemma {:induction false} NewRoute(a: Act, rs: Real, k: Kernel, bridge: string, r: Route)
    requires Mild(a, bridge) && Exec(k, a).Some? && Tidy(a, rs, k, bridge)
    requires r in After(k, a).state.routes && r !in k.state.routes
    ensures Prefix(r.dst, r.prefix) in KeysOf(a) || Comes(After(k, a).state, r)
  {
    hide FindIface, SetUp, SetMaster, ConnectedRoutes, ParsePrefix, ParseIp4, OnLink, NoHostBits, FindVlan, UpNumber,
         Network;
    var u := After(k, a).state;
    match a
    case LinkUp(name) =>
      UpDone(k, name);
      var index := FindBy(k.state, name).value.ifindex;
      ConnectedThere(k.state.addrs, index, r);
      var x :| x in k.state.addrs && x.ifindex == index && r == ConnectedRoute(x);
      NetHasNone(x);
      assert IsUpAt(u, name, r.oif);
    case AddrAdd(addr, dev) =>
      var p := ParsePrefix(addr).value;
      NetHasNone(Addr(FindBy(k.state, dev).value.ifindex, p.addr, p.len));
      assert IsUpAt(u, dev, r.oif);
    case _ =>
  }

  lemma {:induction false} OnlyUpAfter(a: Act, rs: Real, k: Kernel, bridge: string, ups: set<string>)
    requires Mild(a, bridge) && OnlyUp(rs, k.state, ups)
    ensures OnlyUp(rs, After(k, a).state, ups + Raises(a))
  {
    hide FindIface, SetUp, SetMaster, ConnectedRoutes, ParsePrefix, ParseIp4, OnLink, NoHostBits, FindVlan, UpNumber;
    var u := After(k, a).state;
    forall n: string
      ensures RoseOnly(rs, u, ups + Raises(a), n)
    {
      assert RoseOnly(rs, k.state, ups, n);
      match a
      case LinkAddBridge(name) => FindLast(k.state.ifaces, Iface(name, "bridge", k.next, false, 0), n);
      case LinkUp(name) => FindUp(k.state.ifaces, name, n);
      case LinkMaster(name, br) =>
        if FindBy(k.state, br).Some? {
          FindMaster(k.state.ifaces, name, FindBy(k.state, br).value.ifindex, n);
        }
      case _ =>
    }
  }

  lemma {:induction false} TracksAfter(a: Act, rs: Real, k: Kernel, bridge: string, links: set<Link>, keys: set<Prefix>,
                                       ups: set<string>)
    requires Tracks(rs, k, bridge, links, keys, ups) && Improves(rs, k.state, bridge, keys)
    requires Mild(a, bridge) && Exec(k, a).Some? && Tidy(a, rs, k, bridge)
    ensures Tracks(rs, After(k, a), bridge, Step(a, rs, links), keys + KeysOf(a), ups + Raises(a))
  {
    hide Follows, Links, Sprung, OnlyUp, Improves, Mild, Exec, After, Step, KeysOf, Raises;
    FollowsAfter(a, rs, k, bridge);
    StepOnly(a, rs, k, bridge);
    TidyAdds(a, rs, k, bridge);
    StepHas(a, rs, k, bridge, keys, links);
    SprungAfter(a, rs, k, bridge, keys);
    OnlyUpAfter(a, rs, k, bridge, ups);
  }

  lemma {:induction false} TidyAdds(a: Act, rs: Real, k: Kernel, bridge: string)
    requires Tidy(a, rs, k, bridge)
    ensures a.AddrAdd? ==> UpOk(a.dev, k.state)
  {
  }

  // Some commands.

  /** Neither does the bridge go up nor does it get an address. */
  predicate Plain(a: Act, bridge: string) {
    !a.AddrAdd? && a != LinkUp(bridge)
  }

  lemma {:induction false} TracksOn(acts: seq<Act>, rs: Real, k: Kernel, bridge: string, links: set<Link>,
                                    keys: set<Prefix>, ups: set<string>)
    requires Tracks(rs, k, bridge, links, keys, ups) && Improves(rs, k.state, bridge, keys)
    requires AllMild(acts, bridge) && !AnyFails(k, acts) && forall a :: a in acts ==> Plain(a, bridge)
    ensures Tracks(rs, RunActs(k, acts), bridge, Steps(acts, rs, links), keys + KeysOfAll(acts), ups + RaisesAll(acts))
    decreases |acts|
  {
    hide Tracks, Improves, Mild, Exec, After, Step, KeysOf, Raises;
    if acts == [] {
      assert keys + {} == keys && ups + {} == ups;
    } else {
      var a := acts[0];
      assert Plain(a, bridge);
      TracksAfter(a, rs, k, bridge, links, keys, ups);
      AfterImproves(k, a, bridge);
      ImprovesTwice(rs, k.state, After(k, a).state, bridge, keys, KeysOf(a));
      TracksOn(acts[1..], rs, After(k, a), bridge, Step(a, rs, links), keys + KeysOf(a), ups + Raises(a));
      assert keys + KeysOf(a) + KeysOfAll(acts[1..]) == keys + KeysOfAll(acts);
      assert ups + Raises(a) + RaisesAll(acts[1..]) == ups + RaisesAll(acts);
    }
  }

  /** More interfaces may come up. */
  lemma {:induction false} MoreUps(rs: Real, k: Kernel, bridge: string, links: set<Link>, keys: set<Prefix>,
                                   ups: set<string>, more: set<string>)
    requires Tracks(rs, k, bridge, links, keys, ups) && ups <= more
    ensures Tracks(rs, k, bridge, links, keys, more)
  {
    hide Follows, Links, Sprung, UpOk;
    forall n: string
      ensures RoseOnly(rs, k.state, more, n)
    {
      assert RoseOnly(rs, k.state, ups, n);
    }
  }

  lemma {:induction false} TracksSelf(k: Kernel, bridge: string)
    requires Consistent(k)
    ensures Tracks(k.state, k, bridge, Links(k.state), {}, {})
  {
    hide FindIface, Links, Sound;
  }

  // The bridge, its address and its gateway.

  predicate BaseOk(ds: Desired, rs: Real) {
    BridgeOk(ds, rs) && AddrOk(ds, rs) && DnsOk(ds.dns, rs)
  }

  lemma {:induction false} BaseStays(ds: Desired, rs: Real, u: Real, keys: set<Prefix>)
    requires Improves(rs, u, ds.bridge, keys) && BaseOk(ds, rs) && !ds.addrMode.Dhcp?
    ensures BaseOk(ds, u)
  {
    hide Improves, AddrOk, DnsOk, FindIface;
    BridgeStays(ds, rs, u, keys);
    AddrStays(ds, rs, u, keys);
    DnsStays(ds, rs, u, keys);
  }

  lemma {:induction false} BridgeUpTracks(ds: Desired, k: Kernel)
    requires BridgePlaced(ds, k.state) && Consistent(k)
    ensures var rs, acts := k.state, Acts(CheckBridge(ds, k.state));
            var u := RunActs(k, acts);
            && Tracks(rs, u, ds.bridge, Steps(acts, rs, Links(rs)), {}, {ds.bridge}) && Along(rs, u, ds.bridge, {})
            && BridgeOk(ds, u.state) && u.state.addrs == rs.addrs && !AnyFails(k, acts)
            && AddrIsNew(ds, rs, u) && AllMild(acts, ds.bridge) && KeysOfAll(acts) == {}
  {
    hide FindIface, Acts, RunActs, AnyFails, Improves, KernelOk, Consistent, Tracks, Steps, Step, Links, Exec, After,
         DnsOk, ParsePrefix, ParseIp4, NotAmong, Mild, KeysOf;
    var rs, bridge := k.state, ds.bridge;
    var add, up := LinkAddBridge(bridge), LinkUp(bridge);
    IsConsistent(k);
    ImprovesSelf(rs, bridge);
    BridgeDone(ds, rs, k, {});
    StartAlong(ds, rs, k, {}, Acts(CheckBridge(ds, rs)));
    NewAddr(ds, rs, k, RunActs(k, Acts(CheckBridge(ds, rs))));
    TracksSelf(k, bridge);
    ActsOfLines(add, up);
    ActsOfLines(up, up);
    RunFew(k, add, up);
    RunFew(k, up, up);
    FailsFew(k, add, up);
    FailsFew(k, up, up);
    StepsFew(add, up, rs, Links(rs));
    StepsFew(up, up, rs, Links(rs));
    MildUp(bridge);
    var br := FindBy(rs, bridge);
    if br.None? {
      TracksAfter(add, rs, k, bridge, Links(rs), {}, {});
      AfterImproves(k, add, bridge);
      AddrsAfter(add, k, bridge);
      assert {} + {} == KeysOf(add) && {} + Raises(add) == {};
      TracksAfter(up, rs, After(k, add), bridge, Step(add, rs, Links(rs)), {}, {});
    } else if !br.value.up {
      TracksAfter(up, rs, k, bridge, Links(rs), {}, {});
    } else {
      MoreUps(rs, k, bridge, Links(rs), {}, {}, {bridge});
    }
    assert {} + {} == KeysOf(up) && {} + Raises(up) == {bridge};
  }

  lemma {:induction false} MildUp(bridge: string)
    ensures Mild(LinkUp(bridge), bridge) && Mild(LinkAddBridge(bridge), bridge)
    ensures KeysOf(LinkUp(bridge)) == {} && KeysOf(LinkAddBridge(bridge)) == {}
  {
  }

  lemma {:induction false} AddrTracks(ds: Desired, k: Kernel)
    requires BridgePlaced(ds, k.state) && Consistent(k)
    ensures var rs, a, b := k.state, Acts(CheckBridge(ds, k.state)), Acts(CheckAddr(ds, k.state));
            var u := RunActs(RunActs(k, a), b);
            && Tracks(rs, u, ds.bridge, BridgeLinks(ds, rs, Links(rs)), {}, {ds.bridge}) && Along(rs, u, ds.bridge, {})
            && BridgeOk(ds, u.state) && AddrOk(ds, u.state) && !AnyFails(k, a) && !AnyFails(RunActs(k, a), b)
            && AllMild(a, ds.bridge) && AllMild(b, ds.bridge) && KeysOfAll(a) == KeysOfAll(b) == {}
  {
    hide FindIface, Acts, RunActs, AnyFails, Improves, KernelOk, Consistent, Tracks, Steps, Step, Links, Exec, After,
         DnsOk, ParsePrefix, ParseIp4, NotAmong, Mild, AddrIsNew, BridgeLinks, KeysOf;
    var rs, bridge, k1 := k.state, ds.bridge, RunActs(k, Acts(CheckBridge(ds, k.state)));
    BridgeUpTracks(ds, k);
    AddrDone(ds, rs, k1, {});
    AlongOn(rs, k1, bridge, {}, Acts(CheckAddr(ds, rs)));
    assert {} + {} == KeysOfAll(Acts(CheckAddr(ds, rs)));
    BridgeSteps(ds, rs, Links(rs));
    var mid, add := Steps(Acts(CheckBridge(ds, rs)), rs, Links(rs)), AddrAdd(ds.addr, bridge);
    ActsOfLines(add, add);
    RunFew(k1, add, add);
    FailsFew(k1, add, add);
    StepsFew(add, add, rs, mid);
    BridgeStays(ds, k1.state, RunActs(k1, Acts(CheckAddr(ds, rs))).state, {});
    if Acts(CheckAddr(ds, rs)) == [add] {
      MildAdd(ds.addr, bridge);
      TracksAfter(add, rs, k1, bridge, mid, {}, {bridge});
      assert {bridge} + Raises(add) == {bridge};
    }
  }

  lemma {:induction false} MildAdd(addr: string, bridge: string)
    ensures Mild(AddrAdd(addr, bridge), bridge) && KeysOf(AddrAdd(addr, bridge)) == {}
  {
  }

  /** The default route is not there if it was not and no command made it. */
  lemma {:induction false} GatewayAbsent(ds: Desired, rs: Real, k: Kernel, links: set<Link>, keys: set<Prefix>,
                                         ups: set<string>)
    requires Tracks(rs, k, ds.bridge, links, keys, ups) && Prefix(0, 0) !in keys && !GatewayOk(ds, rs)
    ensures !GatewayOk(ds, k.state)
  {
    hide FindIface, Links, OnlyUp, ParseIp4, Consistent, NoHostBits, IsUpAt;
    assert KeepsNumber(rs, k.state, ds.bridge);
  }

  /** The keys that the first part replaces. */
  function GatewayKeys(ds: Desired, rs: Real): set<Prefix> {
    if ds.gateway != "" && !GatewayOk(ds, rs) && GatewayGoes(ds, rs, Links(rs)) then {Prefix(0, 0)} else {}
  }

  /** The networks after the first part. */
  function StartLinks(ds: Desired, rs: Real): set<Link> {
    var links := BridgeLinks(ds, rs, Links(rs));
    if GatewayGoes(ds, rs, Links(rs)) then GatewayLinks(ds, rs, links) else links
  }

  lemma {:induction false} GatewayTracks(ds: Desired, rs: Real, k: Kernel)
    requires BridgePlaced(ds, rs) && BridgeOk(ds, k.state) && Along(rs, k, ds.bridge, {})
    requires Tracks(rs, k, ds.bridge, BridgeLinks(ds, rs, Links(rs)), {}, {ds.bridge})
    ensures var acts := Acts(CheckGateway(ds, rs));
            var u := RunActs(k, acts);
            && Tracks(rs, u, ds.bridge, StartLinks(ds, rs), GatewayKeys(ds, rs), {ds.bridge})
            && Along(rs, u, ds.bridge, GatewayKeys(ds, rs))
            && Improves(k.state, u.state, ds.bridge, GatewayKeys(ds, rs))
            && (GatewayGoes(ds, rs, Links(rs)) ==> GatewayOk(ds, u.state) && !AnyFails(k, acts))
            && AllMild(acts, ds.bridge)
  {
    hide FindIface, Acts, RunActs, AnyFails, Improves, KernelOk, Tracks, Steps, Step, Links, Exec, After, DnsOk,
         ParsePrefix, ParseIp4, NotAmong, Mild, Covered, BridgeLinks, Raises;
    var bridge, links := ds.bridge, BridgeLinks(ds, rs, Links(rs));
    var act := RouteReplace(DEFAULT_ROUTE, Some(ds.gateway), bridge);
    ActsOfLines(act, act);
    RunFew(k, act, act);
    FailsFew(k, act, act);
    StepsFew(act, act, rs, links);
    GatewaySteps(ds, rs, links);
    ImprovesSelf(k.state, bridge);
    TracksLinks(rs, k, bridge, links, {}, {bridge});
    if ds.gateway == "" || GatewayOk(ds, rs) {
      GatewayStays(ds, rs, k.state, {});
    } else {
      ParseDefault();
      MildGateway(ds);
      if GatewayGoes(ds, rs, Links(rs)) {
        GatewayDone(ds, rs, k, {});
        AlongOn(rs, k, bridge, {}, Acts(CheckGateway(ds, rs)));
        OneKey(act);
        TracksAfter(act, rs, k, bridge, links, {}, {bridge});
        NoRaise(act, bridge);
        assert {} + {Prefix(0, 0)} == {Prefix(0, 0)};
      } else {
        GatewayRefused(ds, k);
      }
    }
  }

  lemma {:induction false} TracksLinks(rs: Real, k: Kernel, bridge: string, links: set<Link>, keys: set<Prefix>,
                                       ups: set<string>)
    requires Tracks(rs, k, bridge, links, keys, ups)
    ensures Links(k.state) == links && Consistent(k)
  {
  }

  lemma {:induction false} MildGateway(ds: Desired)
    requires ParseIp4(ds.gateway).Some?
    ensures var a := RouteReplace(DEFAULT_ROUTE, Some(ds.gateway), ds.bridge);
            Mild(a, ds.bridge) && KeysOf(a) == {Prefix(0, 0)}
  {
    ParseDefault();
  }

  lemma {:induction false} NoRaise(a: Act, bridge: string)
    requires !a.LinkUp?
    ensures {bridge} + Raises(a) == {bridge}
  {
  }

  lemma {:induction false} GatewayRefused(ds: Desired, k: Kernel)
    requires BridgeOk(ds, k.state) && ParseIp4(ds.gateway).Some?
    requires !Covered(Links(k.state), ds.bridge, ParseIp4(ds.gateway).value)
    ensures Exec(k, RouteReplace(DEFAULT_ROUTE, Some(ds.gateway), ds.bridge)).None?
    ensures After(k, RouteReplace(DEFAULT_ROUTE, Some(ds.gateway), ds.bridge)) == k
  {
    hide FindIface, Links, ParsePrefix, ParseIp4, Covered;
    ParseDefault();
    OnLinkIff(k.state, ds.bridge, ParseIp4(ds.gateway).value);
  }

  /** The first part of a pass, whether the default route can be set or not. */
  lemma {:induction false} BridgeStage(ds: Desired, k: Kernel)
    requires BridgePlaced(ds, k.state) && Consistent(k)
    ensures var rs, acts := k.state, Acts(BridgeReport(ds, k.state));
            var u := RunActs(k, acts);
            && Tracks(rs, u, ds.bridge, StartLinks(ds, rs), GatewayKeys(ds, rs), {ds.bridge})
            && Along(rs, u, ds.bridge, GatewayKeys(ds, rs)) && BaseOk(ds, u.state) && AllMild(acts, ds.bridge)
            && (GatewayGoes(ds, rs, Links(rs)) ==> GatewayOk(ds, u.state) && !AnyFails(k, acts))
  {
    hide FindIface, Acts, RunActs, AnyFails, Improves, KernelOk, Tracks, Links, DnsOk, ParsePrefix, ParseIp4, NotAmong,
         Mild, Consistent, CheckBridge, CheckAddr, CheckGateway, CheckDns, StartLinks, GatewayKeys, BridgeLinks,
         GatewayGoes, KeysOfAll, AddrOk, GatewayOk;
    var rs, bridge := k.state, ds.bridge;
    var a, b, c, d := CheckBridge(ds, rs), CheckAddr(ds, rs), CheckGateway(ds, rs), CheckDns(ds.dns, rs);
    AddrTracks(ds, k);
    var k2 := RunActs(RunActs(k, Acts(a)), Acts(b));
    GatewayTracks(ds, rs, k2);
    var k3 := RunActs(k2, Acts(c));
    JudgeDns(ds.dns, rs);
    FailsFew(k3, Note, Note);
    RunFew(k3, Note, Note);
    Sequenced(k, a, b, bridge);
    Sequenced(k, a + b, c, bridge);
    Sequenced(k, a + b + c, d, bridge);
    BridgeStays(ds, k2.state, k3.state, GatewayKeys(ds, rs));
    AddrStays(ds, k2.state, k3.state, GatewayKeys(ds, rs));
    AlongImproves(rs, k3, bridge, GatewayKeys(ds, rs));
    DnsStays(ds, rs, k3.state, GatewayKeys(ds, rs));
  }

  // The uplink and the ports.

  /** The interfaces that are up after the first parts. */
  function FirstUps(ds: Desired, how: Uplink): set<string> {
    (set n | n in Raised(ds, how)) + {ds.bridge}
  }

  /** Commands that bring up no interface but these, and add no address. */
  ghost predicate Lifting(report: Report, bridge: string, names: set<string>) {
    forall a :: Do(a) in report ==> Plain(a, bridge) && Raises(a) <= names
  }

  lemma {:induction false} LiftingMember(name: string, bridge: string, rs: Real)
    requires name != bridge
    ensures Lifting(CheckUp(name, FindBy(rs, name)), bridge, {name})
    ensures Lifting(CheckMaster(name, FindBy(rs, name), bridge, rs), bridge, {})
  {
    hide FindIface;
  }

  lemma {:induction false} LiftingBoth(a: Report, b: Report, bridge: string, x: set<string>, y: set<string>)
    requires Lifting(a, bridge, x) && Lifting(b, bridge, y)
    ensures Lifting(a + b, bridge, x + y)
  {
    hide Plain, Raises;
  }

  lemma {:induction false} LiftingNote(bridge: string)
    ensures Lifting([], bridge, {}) && Lifting([Ok], bridge, {}) && Lifting([Miss, Do(Note)], bridge, {})
  {
  }

  lemma {:induction false} LiftingUplink(ds: Desired, rs: Real, how: Uplink)
    requires UplinkThere(ds, rs, how)
    ensures Lifting(UplinkReport(ds, rs, how), ds.bridge, if how.NoUplink? then {} else {ds.uplink})
  {
    hide FindIface, CheckUp, CheckMaster, Lifting, Lifts;
    LiftingNote(ds.bridge);
    if !how.NoUplink? {
      var up := FindBy(rs, ds.uplink);
      LiftingMember(ds.uplink, ds.bridge, rs);
      LiftingBoth([Ok], CheckUp(ds.uplink, up), ds.bridge, {}, {ds.uplink});
      LiftsThere(ds.uplink, rs);
      var master := CheckMaster(ds.uplink, up, ds.bridge, rs);
      LiftingBoth(CheckUplink(ds, rs), master, ds.bridge, {} + {ds.uplink}, {});
      assert {} + {ds.uplink} + {} == {ds.uplink} == {} + {ds.uplink};
    }
  }

  lemma {:induction false} LiftingPorts(ports: seq<string>, bridge: string, rs: Real)
    requires forall i :: 0 <= i < |ports| ==> ports[i] != bridge
    ensures Lifting(CheckPorts(ports, bridge, rs), bridge, set n | n in ports)
    decreases |ports|
  {
    hide FindIface, CheckUp, CheckMaster, Lifting;
    LiftingNote(bridge);
    if ports != [] {
      var port, iface := ports[0], FindBy(rs, ports[0]);
      var up, master := CheckUp(port, iface), CheckMaster(port, iface, bridge, rs);
      LiftingMember(port, bridge, rs);
      LiftingBoth([Ok], up, bridge, {}, {port});
      LiftingBoth([Ok] + up, master, bridge, {} + {port}, {});
      LiftingPorts(ports[1..], bridge, rs);
      var x := if iface.None? then {} else {} + {port} + {};
      LiftingBoth(CheckPort(port, bridge, rs), CheckPorts(ports[1..], bridge, rs), bridge, x, set n | n in ports[1..]);
      LiftingMore(CheckPorts(ports, bridge, rs), bridge, x + (set n | n in ports[1..]), set n | n in ports);
    } else {
      LiftingMore([], bridge, {}, set n | n in ports);
    }
  }

  lemma {:induction false} LiftingMore(report: Report, bridge: string, x: set<string>, y: set<string>)
    requires Lifting(report, bridge, x) && x <= y
    ensures Lifting(report, bridge, y)
  {
    hide Plain, Raises;
  }

  lemma {:induction false} LiftingActs(report: Report, bridge: string, names: set<string>)
    requires Lifting(report, bridge, names)
    ensures (forall a :: a in Acts(report) ==> Plain(a, bridge)) && RaisesAll(Acts(report)) <= names
  {
    hide Plain, Raises;
    if report != [] {
      LiftingActs(report[1..], bridge, names);
      if report[0].Do? {
        assert Plain(report[0].act, bridge);
        assert Acts(report) == [report[0].act] + Acts(report[1..]);
        assert Acts(report)[1..] == Acts(report[1..]);
      }
    }
  }

  /** A report whose commands all succeed. */
  lemma {:induction false} ReportTracks(report: Report, rs: Real, k: Kernel, bridge: string, links: set<Link>,
                                        keys: set<Prefix>, ups: set<string>, names: set<string>)
    requires Tracks(rs, k, bridge, links, keys, ups) && Along(rs, k, bridge, keys) && AllMild(Acts(report), bridge)
    requires !AnyFails(k, Acts(report)) && KeysOfAll(Acts(report)) == {} && Lifting(report, bridge, names)
    ensures var u := RunActs(k, Acts(report));
            && Tracks(rs, u, bridge, Steps(Acts(report), rs, links), keys, ups + names) && Along(rs, u, bridge, keys)
            && Improves(k.state, u.state, bridge, {})
  {
    hide Tracks, Improves, KernelOk, Acts, RunActs, AnyFails, KeysOfAll, RaisesAll, Mild, Plain, Steps, FindIface,
         Lifting;
    LiftingActs(report, bridge, names);
    TracksOn(Acts(report), rs, k, bridge, links, keys, ups);
    AlongOn(rs, k, bridge, keys, Acts(report));
    assert keys + {} == keys;
    var u := RunActs(k, Acts(report));
    MoreUps(rs, u, bridge, Steps(Acts(report), rs, links), keys, ups + RaisesAll(Acts(report)), ups + names);
  }

  lemma {:induction false} BridgeIsUp(ds: Desired, rs: Real)
    requires BaseOk(ds, rs)
    ensures UpOk(ds.bridge, rs)
  {
    hide AddrOk, DnsOk, FindIface;
  }

  lemma {:induction false} PortsAreUp(ds: Desired, rs: Real)
    requires PortsOk(ds.ports, ds.bridge, rs)
    ensures forall p :: p in ds.ports ==> UpOk(p, rs)
  {
    hide UpOk, MasterOk;
  }

  /** The bridge, the members, and the default route if it can be set. */
  predicate FirstDone(ds: Desired, rs: Real, how: Uplink, goes: bool) {
    BaseOk(ds, rs) && UplinkDone(ds, rs, how) && PortsOk(ds.ports, ds.bridge, rs) && (goes ==> GatewayOk(ds, rs))
  }

  lemma {:induction false} FirstStays(ds: Desired, rs: Real, u: Real, how: Uplink, goes: bool, keys: set<Prefix>)
    requires FirstDone(ds, rs, how, goes) && Improves(rs, u, ds.bridge, keys) && !ds.addrMode.Dhcp?
    requires ds.gateway != "" ==> Prefix(0, 0) !in keys
    ensures FirstDone(ds, u, how, goes)
  {
    hide Improves, BaseOk, UpOk, MasterOk, PortsOk, GatewayOk;
    BaseStays(ds, rs, u, keys);
    if !how.NoUplink? {
      UpStays(rs, u, ds.bridge, keys, ds.uplink);
    }
    if how.UplinkIn? {
      MastersStay(rs, u, ds.bridge, keys, ds.uplink);
    }
    PortsStay(ds.ports, ds.bridge, rs, u, keys);
    if goes {
      GatewayStays(ds, rs, u, keys);
    }
  }

  function FirstReport(ds: Desired, rs: Real, how: Uplink): Report {
    BridgeReport(ds, rs) + UplinkReport(ds, rs, how) + CheckPorts(ds.ports, ds.bridge, rs)
  }

  /** The networks that are on-link after the members have been looked at. */
  function FirstLinks(ds: Desired, rs: Real, how: Uplink): set<Link> {
    RaisedLinks(Raised(ds, how), rs, StartLinks(ds, rs))
  }

  /** The parts of a pass that come first in every scenario with a bridge. */
  lemma {:induction false} FirstPart(ds: Desired, k: Kernel, how: Uplink)
    requires BridgePlaced(ds, k.state) && Consistent(k) && PortsThere(ds.ports, ds.bridge, k.state)
    requires UplinkThere(ds, k.state, how)
    ensures var rs, acts := k.state, Acts(FirstReport(ds, k.state, how));
            var goes := GatewayGoes(ds, rs, Links(rs));
            var u := RunActs(k, acts);
            && Tracks(rs, u, ds.bridge, FirstLinks(ds, rs, how), GatewayKeys(ds, rs), FirstUps(ds, how))
            && Along(rs, u, ds.bridge, GatewayKeys(ds, rs)) && FirstDone(ds, u.state, how, goes)
            && AllMild(acts, ds.bridge) && (goes ==> !AnyFails(k, acts))
  {
    hide FindIface, Acts, RunActs, AnyFails, Improves, KernelOk, Tracks, Links, Mild, Consistent, BridgeReport,
         CheckPorts, StartLinks, GatewayKeys, GatewayGoes, KeysOfAll, PortsOk, UpOk, MasterOk, GatewayOk, BaseOk,
         UplinkReport, Steps, Lifting, Lifts, RaisedLinks, Along, ParsePrefix, ParseIp4, DnsOk, NotAmong;
    var rs, bridge, keys := k.state, ds.bridge, GatewayKeys(ds, k.state);
    var goes := GatewayGoes(ds, rs, Links(rs));
    var a, e, g := BridgeReport(ds, rs), UplinkReport(ds, rs, how), CheckPorts(ds.ports, bridge, rs);
    BridgeStage(ds, k);
    var k1 := RunActs(k, Acts(a));
    var first, second := if how.NoUplink? then [] else [ds.uplink], if how.NoUplink? then {} else {ds.uplink};
    UplinkBlock(ds, rs, k1, keys, how);
    LiftingUplink(ds, rs, how);
    UplinkSteps(ds, rs, how, StartLinks(ds, rs));
    ReportTracks(e, rs, k1, bridge, StartLinks(ds, rs), keys, {bridge}, second);
    var k2 := RunActs(k1, Acts(e));
    PortsBlock(ds.ports, bridge, rs, k2, keys);
    PortsFound(ds.ports, bridge, rs);
    LiftingPorts(ds.ports, bridge, rs);
    var mid := RaisedLinks(first, rs, StartLinks(ds, rs));
    PortsSteps(ds.ports, bridge, rs, mid);
    RaisedConcat(first, ds.ports, rs, StartLinks(ds, rs));
    ReportTracks(g, rs, k2, bridge, mid, keys, {bridge} + second, set n | n in ds.ports);
    var k3 := RunActs(k2, Acts(g));
    assert {bridge} + second + (set n | n in ds.ports) == FirstUps(ds, how);
    UplinkStays(ds, k2.state, k3.state, how);
    BaseStays(ds, k1.state, k2.state, {});
    BaseStays(ds, k2.state, k3.state, {});
    if goes {
      GatewayStays(ds, k1.state, k2.state, {});
      GatewayStays(ds, k2.state, k3.state, {});
    }
    Sequenced(k, a, e, bridge);
    Sequenced(k, a + e, g, bridge);
  }

  /** All of these are up. */
  lemma {:induction false} FirstAreUp(ds: Desired, rs: Real, how: Uplink, goes: bool)
    requires FirstDone(ds, rs, how, goes)
    ensures forall dev :: dev in FirstUps(ds, how) ==> UpOk(dev, rs)
  {
    hide UpOk, MasterOk, BaseOk, PortsOk, GatewayOk;
    BridgeIsUp(ds, rs);
    PortsAreUp(ds, rs);
  }

  // The routes.

  /** A route is reported by whether it is there. */
  lemma {:induction false} CheckRouteBy(rt: DesiredRoute, rs: Real)
    requires ParseRoute(rt).Some?
    ensures CheckRoute(rt, rs) == if RouteOk(rt, rs) then [Ok] else [Miss, Do(RouteReplace(rt.dst, rt.via, rt.dev))]
  {
    hide FindIface, ParseRoute;
  }

  lemma {:induction false} OneReport(rt: DesiredRoute, rs: Real)
    ensures CheckRoute(rt, rs) == [Miss, Do(Note)]
            || CheckRoute(rt, rs) == if RouteOk(rt, rs) then [Ok] else [Miss, Do(RouteReplace(rt.dst, rt.via, rt.dev))]
  {
    hide FindIface, ParseRoute;
    if ParseRoute(rt).Some? {
      CheckRouteBy(rt, rs);
    }
  }

  /** Only routes with other keys are replaced. */
  predicate OtherKeys(acts: seq<Act>, key: Prefix) {
    forall i :: 0 <= i < |acts| ==> acts[i].Note? || (acts[i].RouteReplace? && ParsePrefix(acts[i].dst) != Some(key))
  }

  lemma {:induction false} OtherKeysConcat(a: Report, b: Report, key: Prefix)
    requires OtherKeys(Acts(a), key) && OtherKeys(Acts(b), key)
    ensures OtherKeys(Acts(a + b), key)
  {
    hide Acts;
    ActsConcat(a, b);
  }

  lemma {:induction false} OtherRoutes(routes: seq<DesiredRoute>, rs: Real, key: Prefix)
    requires forall i :: 0 <= i < |routes| ==> RouteOk(routes[i], rs) || RouteKey(routes[i]) != Some(key)
    ensures OtherKeys(Acts(CheckRoutes(routes, rs)), key)
    decreases |routes|
  {
    hide Acts, RouteOk, ParseRoute, ParsePrefix, FindIface, CheckRoute;
    ActsOfLines(Note, Note);
    if routes != [] {
      var rt := routes[0];
      var act := RouteReplace(rt.dst, rt.via, rt.dev);
      ActsOfLines(act, act);
      OneReport(rt, rs);
      OtherRoutes(routes[1..], rs, key);
      OtherKeysConcat(CheckRoute(rt, rs), CheckRoutes(routes[1..], rs), key);
    }
  }

  lemma {:induction false} OthersDiffer(routes: seq<DesiredRoute>, rs: Real, i: nat)
    requires DistinctKeys(routes) && i < |routes| && RouteOk(routes[i], rs) && RouteKey(routes[i]).Some?
    ensures OtherKeys(Acts(CheckRoutes(routes, rs)), RouteKey(routes[i]).value)
  {
    hide RouteOk, RouteKey, CheckRoutes, Acts, ParsePrefix;
    var key := RouteKey(routes[i]).value;
    forall j | 0 <= j < |routes|
      ensures RouteOk(routes[j], rs) || RouteKey(routes[j]) != Some(key)
    {
      assert j == i || RouteKey(routes[i]) != RouteKey(routes[j]);
    }
    OtherRoutes(routes, rs, key);
  }

  /** A route that is not there is not there after the others are replaced. */
  lemma {:induction false} StaysOut(k: Kernel, acts: seq<Act>, r: Route)
    requires OtherKeys(acts, Prefix(r.dst, r.prefix)) && r !in k.state.routes
    ensures r !in RunActs(k, acts).state.routes && RunActs(k, acts).state.ifaces == k.state.ifaces
    decreases |acts|
  {
    hide ParsePrefix, ParseIp4, FindIface, NoHostBits, OnLink;
    if acts != [] {
      assert acts[0].RouteReplace? || acts[0].Note?;
      StaysOut(After(k, acts[0]), acts[1..], r);
    }
  }

  /** A route that does not go is refused, and is not there. */
  lemma {:induction false} RouteRefused(rt: DesiredRoute, devs: set<string>, rs: Real, k: Kernel, bridge: string,
                                        links: set<Link>, keys: set<Prefix>)
    requires Tracks(rs, k, bridge, links, keys, devs) && NotAmong([rt], keys) && !RouteGoes(rt, devs, rs, links)
    ensures RunActs(k, Acts(CheckRoute(rt, rs))) == k && !RouteOk(rt, k.state)
  {
    hide FindIface, Acts, RunActs, ParsePrefix, ParseIp4, NoHostBits, Links, Covered, Consistent, Exec, After;
    var a := RouteReplace(rt.dst, rt.via, rt.dev);
    ActsOfLines(a, a);
    ActsOfLines(Note, Note);
    RunFew(k, a, a);
    RunFew(k, Note, Note);
    NoteDoesNothing(k);
    assert [rt][0] == rt;
    if ParseRoute(rt).Some? {
      assert DesiredRoute(rt.dst, rt.via, rt.dev) == rt;
      assert RoseOnly(rs, k.state, devs, rt.dev);
      ExecNeeds(rt, k);
      CheckRouteBy(rt, rs);
      if RouteOk(rt, k.state) {
        IsNoNewRoute(rt, devs, rs, k, bridge, links, keys);
      }
    }
  }

  lemma {:induction false} NoteDoesNothing(k: Kernel)
    ensures After(k, Note) == k
  {
  }

  lemma {:induction false} ExecNeeds(rt: DesiredRoute, k: Kernel)
    requires ParseRoute(rt).Some?
    ensures var a, r := RouteReplace(rt.dst, rt.via, rt.dev), ParseRoute(rt).value;
            && (Exec(k, a).Some? ==> NoHostBits(r.prefix) && UpOk(rt.dev, k.state)
                                     && (r.via.Some? ==> Covered(Links(k.state), rt.dev, r.via.value)))
            && (Exec(k, a).None? ==> After(k, a) == k)
  {
    hide FindIface, ParsePrefix, ParseIp4, NoHostBits, Links, Covered;
    assert DesiredRoute(rt.dst, rt.via, rt.dev) == rt;
    var r := ParseRoute(rt).value;
    if r.via.Some? && FindBy(k.state, rt.dev).Some? {
      OnLinkIff(k.state, rt.dev, r.via.value);
    }
  }

  lemma {:induction false} IsNoNewRoute(rt: DesiredRoute, devs: set<string>, rs: Real, k: Kernel, bridge: string,
                                        links: set<Link>, keys: set<Prefix>)
    requires Tracks(rs, k, bridge, links, keys, devs) && NotAmong([rt], keys) && RouteOk(rt, k.state)
    ensures RouteGoes(rt, devs, rs, links)
  {
    hide FindIface, ParsePrefix, ParseIp4, NoHostBits, Links, Covered, KernelOk, KindThere, Sole;
    var r := ParseRoute(rt).value;
    var route := Route(r.prefix.addr, r.prefix.len, r.via, FindBy(k.state, rt.dev).value.ifindex);
    assert [rt][0] == rt && KeepsNumber(rs, k.state, rt.dev) && RouteKey(rt) == Some(r.prefix);
    assert Prefix(route.dst, route.prefix) == r.prefix;
    if route !in rs.routes {
      var n: string :| IsUpAt(k.state, n, route.oif);
      assert Apart(k.state, n, rt.dev) && RoseOnly(rs, k.state, devs, rt.dev);
    }
  }

  lemma {:induction false} RoutesFail(routes: seq<DesiredRoute>, devs: set<string>, rs: Real, k: Kernel, bridge: string,
                                      links: set<Link>, keys: set<Prefix>)
    requires Tracks(rs, k, bridge, links, keys, devs) && Along(rs, k, bridge, keys) && NotAmong(routes, keys)
    requires DistinctKeys(routes) && !RoutesGo(routes, devs, rs, links)
    requires forall dev :: dev in devs ==> UpOk(dev, k.state)
    ensures !RoutesOk(routes, RunActs(k, Acts(CheckRoutes(routes, rs))).state)
    decreases |routes|
  {
    hide Acts, RunActs, KeysOfAll, Mild, Along, CheckRoute, Improves, RouteOk, RouteGoes, RouteLinks, RouteKey,
         AnyFails, UpOk, Links, Tracks, FindIface;
    var a, b := CheckRoute(routes[0], rs), CheckRoutes(routes[1..], rs);
    assert [routes[0]][0] == routes[0];
    ActsConcat(a, b);
    RunConcat(k, Acts(a), Acts(b));
    var m := RunActs(k, Acts(a));
    var u := RunActs(m, Acts(b));
    if RouteGoes(routes[0], devs, rs, links) {
      TracksLinks(rs, k, bridge, links, keys, devs);
      AlongImproves(rs, k, bridge, keys);
      RouteBlock(routes[0], bridge, devs, rs, k, keys, links);
      RouteTracks(routes[0], rs, k, bridge, links, keys, devs);
      StillNotAmong(routes, keys, KeysOfAll(Acts(a)));
      StayUp(devs, k.state, m.state, bridge, KeysOfAll(Acts(a)));
      RestDistinct(routes);
      RoutesFail(routes[1..], devs, rs, m, bridge, RouteLinks(routes[0], rs, links), keys + KeysOfAll(Acts(a)));
      var i :| 0 <= i < |routes[1..]| && !RouteOk(routes[1..][i], u.state);
      assert !RouteOk(routes[i + 1], u.state);
    } else {
      RouteRefused(routes[0], devs, rs, k, bridge, links, keys);
      RestStaysOut(routes, rs, k);
    }
  }

  lemma {:induction false} RouteTracks(rt: DesiredRoute, rs: Real, k: Kernel, bridge: string, links: set<Link>,
                                       keys: set<Prefix>, ups: set<string>)
    requires Tracks(rs, k, bridge, links, keys, ups) && Along(rs, k, bridge, keys)
    requires AllMild(Acts(CheckRoute(rt, rs)), bridge) && !AnyFails(k, Acts(CheckRoute(rt, rs)))
    ensures var acts := Acts(CheckRoute(rt, rs));
            var u := RunActs(k, acts);
            && Tracks(rs, u, bridge, RouteLinks(rt, rs, links), keys + KeysOfAll(acts), ups)
            && Along(rs, u, bridge, keys + KeysOfAll(acts)) && Improves(k.state, u.state, bridge, KeysOfAll(acts))
  {
    hide Acts, RunActs, KeysOfAll, Mild, Improves, RouteLinks, AnyFails, Tracks, FindIface, Steps, CheckRoute,
         RaisesAll, KernelOk, Lifting, Plain, ParseRoute;
    OneReport(rt, rs);
    LiftingRoute(rt, bridge);
    LiftingNote(bridge);
    LiftingActs(CheckRoute(rt, rs), bridge, {});
    RouteSteps(rt, rs, links);
    TracksOn(Acts(CheckRoute(rt, rs)), rs, k, bridge, links, keys, ups);
    AlongOn(rs, k, bridge, keys, Acts(CheckRoute(rt, rs)));
    assert ups + RaisesAll(Acts(CheckRoute(rt, rs))) == ups;
  }

  lemma {:induction false} LiftingRoute(rt: DesiredRoute, bridge: string)
    ensures Lifting([Miss, Do(RouteReplace(rt.dst, rt.via, rt.dev))], bridge, {})
  {
  }

  /** The first route is not put there by the others. */
  lemma {:induction false} RestStaysOut(routes: seq<DesiredRoute>, rs: Real, k: Kernel)
    requires routes != [] && DistinctKeys(routes) && !RouteOk(routes[0], k.state)
    ensures !RouteOk(routes[0], RunActs(k, Acts(CheckRoutes(routes[1..], rs))).state)
  {
    hide Acts, RunActs, CheckRoutes, ParsePrefix, ParseIp4, FindIface, OtherKeys;
    var rt := routes[0];
    if ParseRoute(rt).Some? && FindBy(k.state, rt.dev).Some? {
      var r := ParseRoute(rt).value;
      var route := Route(r.prefix.addr, r.prefix.len, r.via, FindBy(k.state, rt.dev).value.ifindex);
      RestDiffers(routes, rs, r.prefix);
      if route !in k.state.routes {
        StaysOut(k, Acts(CheckRoutes(routes[1..], rs)), route);
      }
    }
    SameIfacesAfter(k, routes[1..], rs);
  }

  lemma {:induction false} RestDiffers(routes: seq<DesiredRoute>, rs: Real, key: Prefix)
    requires routes != [] && DistinctKeys(routes) && RouteKey(routes[0]) == Some(key)
    ensures OtherKeys(Acts(CheckRoutes(routes[1..], rs)), key)
  {
    hide RouteKey, Acts, CheckRoutes, RouteOk, OtherKeys;
    forall i | 0 <= i < |routes[1..]|
      ensures RouteKey(routes[1..][i]) != Some(key)
    {
      assert routes[1..][i] == routes[i + 1] && RouteKey(routes[0]) != RouteKey(routes[i + 1]);
    }
    OtherRoutes(routes[1..], rs, key);
  }

  /** Routes change no interface. */
  lemma {:induction false} SameIfacesAfter(k: Kernel, routes: seq<DesiredRoute>, rs: Real)
    ensures RunActs(k, Acts(CheckRoutes(routes, rs))).state.ifaces == k.state.ifaces
    decreases |routes|
  {
    hide Acts, RunActs, CheckRoute, ParseRoute, FindIface, RouteOk, NoHostBits, OnLink;
    ActsOfLines(Note, Note);
    RunFew(k, Note, Note);
    if routes != [] {
      var rt := routes[0];
      var a, b := CheckRoute(rt, rs), CheckRoutes(routes[1..], rs);
      var act := RouteReplace(rt.dst, rt.via, rt.dev);
      ActsOfLines(act, act);
      RunFew(k, act, act);
      OneReport(rt, rs);
      ActsConcat(a, b);
      RunConcat(k, Acts(a), Acts(b));
      SameIfacesAfter(RunActs(k, Acts(a)), routes[1..], rs);
    }
  }

  /** The routes end as desired exactly if all of them go; and then no command fails. */
  lemma {:induction false} RoutesDone(routes: seq<DesiredRoute>, devs: set<string>, rs: Real, k: Kernel, bridge: string,
                                      links: set<Link>, keys: set<Prefix>)
    requires Tracks(rs, k, bridge, links, keys, devs) && Along(rs, k, bridge, keys) && NotAmong(routes, keys)
    requires DistinctKeys(routes) && forall dev :: dev in devs ==> UpOk(dev, k.state)
    ensures var acts := Acts(CheckRoutes(routes, rs));
            && (RoutesOk(routes, RunActs(k, acts).state) <==> RoutesGo(routes, devs, rs, links))
            && (RoutesGo(routes, devs, rs, links) ==>
                  && !AnyFails(k, acts) && Improves(k.state, RunActs(k, acts).state, bridge, KeysOfAll(acts))
                  && AllMild(acts, bridge)
                  && (forall p :: p in KeysOfAll(acts) ==>
                        exists i :: 0 <= i < |routes| && RouteKey(routes[i]) == Some(p)))
  {
    hide Acts, RunActs, KeysOfAll, Mild, Along, CheckRoutes, Improves, RoutesGo, RouteKey, AnyFails, UpOk, Links,
         Tracks, RoutesOk, NotAmong;
    if RoutesGo(routes, devs, rs, links) {
      TracksLinks(rs, k, bridge, links, keys, devs);
      AlongImproves(rs, k, bridge, keys);
      RoutesBlock(routes, bridge, devs, rs, k, keys, links);
      AlongOn(rs, k, bridge, keys, Acts(CheckRoutes(routes, rs)));
    } else {
      RoutesFail(routes, devs, rs, k, bridge, links, keys);
    }
  }

  /** A default route that is not there is not put there by the routes. */
  lemma {:induction false} GatewayStaysOut(ds: Desired, rs: Real, k: Kernel)
    requires !GatewayOk(ds, k.state) && NotAmong(ds.routes, {Prefix(0, 0)})
    ensures !GatewayOk(ds, RunActs(k, Acts(CheckRoutes(ds.routes, rs))).state)
  {
    hide Acts, RunActs, CheckRoutes, ParseIp4, FindIface, OtherKeys, RouteOk, RouteKey;
    SameIfacesAfter(k, ds.routes, rs);
    if ParseIp4(ds.gateway).Some? && FindBy(k.state, ds.bridge).Some? {
      var route := Route(0, 0, ParseIp4(ds.gateway), FindBy(k.state, ds.bridge).value.ifindex);
      OtherRoutes(ds.routes, rs, Prefix(0, 0));
      if route !in k.state.routes {
        StaysOut(k, Acts(CheckRoutes(ds.routes, rs)), route);
      }
    }
  }
}
