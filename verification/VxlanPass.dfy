/**
 One pass of repairs in the WireGuard scenario.  A WireGuard interface that is not there is added and is not brought up;
 the route to the peer comes before the interface goes up; a vxlan whose attributes differ is deleted and added again,
 and the routes through it go with it.
 */
module VxlanPass {
  import opened Wrappers
  import opened NetState
  import opened Verify
  import opened Kernel
  import opened Consistency
  import opened Tracking
  import opened Remake
  import opened Run

  // The route to the peer.

  /** The route to the peer, as a desired route. */
  function PeerRoute(ds: Desired): DesiredRoute {
    DesiredRoute(ds.wgPeer + "/32", None, ds.wgRouteDev)
  }

  lemma {:induction false} PeerRead(ds: Desired)
    requires ParseIp4(ds.wgPeer).Some?
    ensures ParseRoute(PeerRoute(ds)) == Some(ReadRoute(Prefix(ParseIp4(ds.wgPeer).value, 32), None))
    ensures RouteKey(PeerRoute(ds)) == Some(Prefix(ParseIp4(ds.wgPeer).value, 32))
  {
    hide ParsePrefix, ParseIp4;
    ParseHost(ds.wgPeer);
  }

  lemma {:induction false} PeerIsRoute(ds: Desired, rs: Real)
    requires ParseIp4(ds.wgPeer).Some?
    ensures CheckWgPeerRoute(ds, rs) == CheckRoute(PeerRoute(ds), rs)
    ensures RouteOk(PeerRoute(ds), rs) <==> RouteVia(rs, ParseIp4(ds.wgPeer).value, 32, None, ds.wgRouteDev)
  {
    hide ParseRoute, ParseIp4, FindIface;
    PeerRead(ds);
  }

  // The states that are repaired, and what can go wrong.

  /** The vxlan is there with other attributes, and is made anew. */
  predicate Remade(ds: Desired, rs: Real) {
    var vx := FindVxlan(rs.vxlans, ds.vxlan);
    FindBy(rs, ds.vxlan).Some? && (vx.None? || RecreateVxlan(ds, rs, vx.value))
  }

  function HowOf(ds: Desired): Uplink {
    if ds.uplink != "" then UplinkUp else NoUplink
  }

  /** The rest of a state, besides its vxlan and the route to its peer. */
  function PlanOf(ds: Desired, rs: Real): Plan {
    Plan(ds, HowOf(ds), GatewayGoes(ds, rs, Links(rs)), {ds.wg})
  }

  function PeerNet(ds: Desired): Prefix {
    if ParseIp4(ds.wgPeer).Some? then Prefix(ParseIp4(ds.wgPeer).value, 32) else Prefix(0, 32)
  }

  /** The peer is read, and no other part of the state makes or replaces the route to it. */
  predicate PeerPlaced(ds: Desired, rs: Real) {
    && ParseIp4(ds.wgPeer).Some? && ds.wgRouteDev != ds.vxlan && NotAmong(ds.routes, {PeerNet(ds)})
    && (ds.wgRouteDev == ds.wg ==> Link(ds.wg, PeerNet(ds)) !in AddrLinks(ds.wg, rs))
  }

  /** A state of the WireGuard scenario, with its vxlan in its bridge, whose parts do not stand in each other's way. */
  predicate WgPlaced(ds: Desired, rs: Real) {
    && ScenarioOf(ds.scenario) == WgVxlanBridge && BridgePlaced(ds, rs) && PortsThere(ds.ports, ds.bridge, rs)
    && UplinkThere(ds, rs, HowOf(ds)) && DistinctKeys(ds.routes) && PeerPlaced(ds, rs)
    && ds.wg != ds.bridge && (FindBy(rs, ds.wg).Some? ==> Lifts(ds.wg, rs))
    && ds.vxlanBridge == ds.bridge && ds.vxlan != ds.vxlanDev && ParseIp4(ds.vxlanRemote).Some?
    && (ds.vxlanDev == "" || FindBy(rs, ds.vxlanDev).Some? || ds.vxlanDev == ds.bridge)
    && Elsewhere(PlanOf(ds, rs), ds.vxlan) && Alone(rs, ds.vxlan, Remade(ds, rs))
    && (FindBy(rs, ds.vxlan).Some? && !Remade(ds, rs) ==> Lifts(ds.vxlan, rs))
  }

  /**
   The route to the peer is there, or its device is up when it is asked for, which is before the interface goes up.
   */
  predicate PeerGoes(ds: Desired, rs: Real) {
    RouteGoes(PeerRoute(ds), FirstUps(ds, HowOf(ds)), rs, FirstLinks(ds, rs, HowOf(ds)))
  }

  /** The networks after the route to the peer. */
  function PeerLinks(ds: Desired, rs: Real): set<Link> {
    var links := FirstLinks(ds, rs, HowOf(ds));
    if PeerGoes(ds, rs) then RouteLinks(PeerRoute(ds), rs, links) else links
  }

  /** The keys that are replaced by then. */
  function PeerKeys(ds: Desired, rs: Real): set<Prefix> {
    GatewayKeys(ds, rs) + if PeerGoes(ds, rs) then KeysOfAll(Acts(CheckRoute(PeerRoute(ds), rs))) else {}
  }

  /** The networks after the WireGuard interface. */
  function WgLinks(ds: Desired, rs: Real): set<Link> {
    PeerLinks(ds, rs) + if UpOk(ds.wg, rs) then {} else AddrLinks(ds.wg, rs)
  }

  function WgUps(ds: Desired): set<string> {
    FirstUps(ds, HowOf(ds)) + {ds.wg}
  }

  /** Every device is up and every next hop is on-link by the time that it is needed. */
  predicate WgCarried(ds: Desired, rs: Real) {
    && GatewayGoes(ds, rs, Links(rs)) && PeerGoes(ds, rs)
    && RoutesGo(ds.routes, WgUps(ds) + {ds.vxlan}, Seen(rs, ds.vxlan, Remade(ds, rs)),
                MadeLinks(rs, ds.vxlan, Remade(ds, rs), WgLinks(ds, rs)))
  }

  // The vxlan is made.

  lemma {:induction false} FindVxlanLast(vxlans: seq<Vxlan>, last: Vxlan, n: string)
    ensures FindVxlan(vxlans + [last], n) ==
            if FindVxlan(vxlans, n).Some? then FindVxlan(vxlans, n) else if last.ifname == n then Some(last) else None
  {
    if vxlans == [] {
      assert vxlans + [last] == [last] && [last][1..] == [];
    } else {
      FindVxlanLast(vxlans[1..], last, n);
      assert (vxlans + [last])[1..] == vxlans[1..] + [last];
    }
  }

  function AddAct(ds: Desired): Act {
    LinkAddVxlan(ds.vxlan, ds.vxlanVni, ds.vxlanRemote, ds.vxlanDev)
  }

  /** The number of the interface that the vxlan is over. */
  function Below(ds: Desired, rs: Real): Option<int> {
    if ds.vxlanDev != "" && FindBy(rs, ds.vxlanDev).Some? then Some(FindBy(rs, ds.vxlanDev).value.ifindex) else None
  }

  lemma {:induction false} AddDone(ds: Desired, k: Kernel)
    requires Consistent(k) && FindBy(k.state, ds.vxlan).None? && ParseIp4(ds.vxlanRemote).Some?
    requires ds.vxlanDev != "" ==> FindBy(k.state, ds.vxlanDev).Some?
    ensures var u := After(k, AddAct(ds));
            && Exec(k, AddAct(ds)).Some? && Added(k, u, ds.vxlan, "vxlan")
            && FindVlan(k.state.vlans, ds.vxlan).None? && MayGoUp(u.state, ds.vxlan)
            && FindVxlan(u.state.vxlans, ds.vxlan) ==
               Some(Vxlan(ds.vxlan, Some(ds.vxlanVni), ParseIp4(ds.vxlanRemote), Below(ds, k.state)))
  {
    hide FindIface, FindVlan, FindVxlan, KernelOk, ParseIp4;
    var vxlan := Vxlan(ds.vxlan, Some(ds.vxlanVni), ParseIp4(ds.vxlanRemote), Below(ds, k.state));
    assert KindThere(k.state, ds.vxlan);
    FindVxlanLast(k.state.vxlans, vxlan, ds.vxlan);
    var u := After(k, AddAct(ds));
    forall n: string
      ensures AddedFind(k, u, ds.vxlan, n)
    {
      FindVxlanLast(k.state.vxlans, vxlan, n);
    }
    FindAdded(k, u, ds.vxlan, "vxlan", ds.vxlan);
    assert "vxlan"[1] != "vlan"[1];
  }

  /** The commands for the vxlan, by what the snapshot shows of it. */
  lemma {:induction false} VxlanActs(ds: Desired, rs: Real)
    requires KindThere(rs, ds.vxlan) && ParseIp4(ds.vxlanRemote).Some?
    ensures var make := [AddAct(ds), LinkUp(ds.vxlan), LinkMaster(ds.vxlan, ds.vxlanBridge)];
            var iface := FindBy(rs, ds.vxlan);
            Acts(CheckVxlan(ds, rs)) ==
            if iface.None? then make
            else if Remade(ds, rs) then [LinkDel(ds.vxlan)] + make
            else Acts(CheckUp(ds.vxlan, iface) + CheckMaster(ds.vxlan, iface, ds.vxlanBridge, rs))
  {
    hide FindIface, FindVlan, FindVxlan, CheckUp, CheckMaster, ParseIp4;
    var iface, vx := FindBy(rs, ds.vxlan), FindVxlan(rs.vxlans, ds.vxlan);
    var make := [AddAct(ds), LinkUp(ds.vxlan), LinkMaster(ds.vxlan, ds.vxlanBridge)];
    var del := LinkDel(ds.vxlan);
    MakeActs(ds);
    ActsOfOne(del);
    if vx.None? {
      var first: Report := [Miss] + (if iface.Some? then [Do(del)] else []);
      ActsConcat([Miss], if iface.Some? then [Do(del)] else []);
      ActsConcat(first, AddVxlan(ds));
      assert [] + make == make && [] + [del] == [del];
    } else {
      var checks := [Ok] + CheckVxlanVni(ds, vx.value) + CheckVxlanRemote(ds, vx.value)
                    + CheckVxlanDev(ds, rs, vx.value);
      QuietChecks(ds, rs, vx.value);
      var rest := if Remade(ds, rs) then [Do(del)] + AddVxlan(ds)
                  else CheckUp(ds.vxlan, iface) + CheckMaster(ds.vxlan, iface, ds.vxlanBridge, rs);
      assert CheckVxlan(ds, rs) == checks + rest;
      ActsConcat(checks, rest);
      ActsConcat([Do(del)], AddVxlan(ds));
      assert [] + Acts(rest) == Acts(rest);
    }
  }

  lemma {:induction false} MakeActs(ds: Desired)
    ensures Acts(AddVxlan(ds)) == [AddAct(ds), LinkUp(ds.vxlan), LinkMaster(ds.vxlan, ds.vxlanBridge)]
  {
    var a, b, c := AddAct(ds), LinkUp(ds.vxlan), LinkMaster(ds.vxlan, ds.vxlanBridge);
    assert AddVxlan(ds) == [Do(a)] + ([Do(b)] + [Do(c)]);
    ActsOfOne(a);
    ActsOfOne(b);
    ActsOfOne(c);
    ActsConcat([Do(b)], [Do(c)]);
    ActsConcat([Do(a)], [Do(b)] + [Do(c)]);
  }

  lemma {:induction false} QuietChecks(ds: Desired, rs: Real, vx: Vxlan)
    requires ParseIp4(ds.vxlanRemote).Some?
    ensures Acts([Ok] + CheckVxlanVni(ds, vx) + CheckVxlanRemote(ds, vx) + CheckVxlanDev(ds, rs, vx)) == []
  {
    hide FindIface, Acts, ParseIp4;
    var x, y, z := CheckVxlanVni(ds, vx), CheckVxlanRemote(ds, vx), CheckVxlanDev(ds, rs, vx);
    ActsOfOne(Note);
    ActsConcat([Ok], x);
    ActsConcat([Ok] + x, y);
    ActsConcat([Ok] + x + y, z);
  }

  ghost predicate WgReady(ds: Desired, rs: Real, k: Kernel) {
    && WgPlaced(ds, rs) && (PeerGoes(ds, rs) ==> RouteOk(PeerRoute(ds), k.state))
    && Ready(PlanOf(ds, rs), ds.vxlan, rs, k, WgLinks(ds, rs), PeerKeys(ds, rs), WgUps(ds))
  }

  ghost predicate VxlanMade(ds: Desired, rs: Real, u: Kernel) {
    && Made(PlanOf(ds, rs), ds.vxlan, rs, Remade(ds, rs), u, WgLinks(ds, rs), PeerKeys(ds, rs), WgUps(ds))
    && VxlanOk(ds, u.state) && (PeerGoes(ds, rs) ==> RouteOk(PeerRoute(ds), u.state))
  }

  lemma {:induction false} RouteOkStays(rt: DesiredRoute, bridge: string, rs: Real, u: Real, keys: set<Prefix>)
    requires RouteOk(rt, rs) && Improves(rs, u, bridge, keys) && (RouteKey(rt).Some? ==> RouteKey(rt).value !in keys)
    ensures RouteOk(rt, u)
  {
    hide Improves, ParsePrefix, ParseIp4, RouteVia;
    var r := ParseRoute(rt).value;
    RouteStays(rs, u, bridge, keys, r.prefix, r.via, rt.dev);
  }

  lemma {:induction false} RouteSurvives(rt: DesiredRoute, name: string, rs: Real, u: Real)
    requires RouteOk(rt, rs) && rt.dev != name && Sound(rs) && FindBy(rs, name).Some?
    requires Lost(rs, u, name, FindBy(rs, name).value.ifindex)
    ensures RouteOk(rt, u)
  {
    hide Sound, Lost, ParsePrefix, ParseIp4, RouteVia, FindIface;
    var r := ParseRoute(rt).value;
    LostRoute(rs, u, name, r.prefix, r.via, rt.dev);
  }

  lemma {:induction false} DevThere(ds: Desired, rs: Real, k: Kernel)
    requires WgReady(ds, rs, k)
    ensures ds.vxlanDev != "" ==> FindBy(k.state, ds.vxlanDev).Some?
    ensures StillThere(rs, k.state, ds.vxlanDev) && StillThere(rs, k.state, ds.vxlan)
  {
    hide FindIface, KernelOk, RestOk, BridgePlaced, Tracks, Sound, Alone, PortsThere, WgLinks, PeerKeys, WgUps,
         PeerPlaced, PeerGoes, ParseIp4, Remade, MayGoUp, DistinctKeys, UplinkThere, Elsewhere;
    assert StillThere(rs, k.state, ds.vxlanDev) && StillThere(rs, k.state, ds.vxlan);
  }

  /** The vxlan is right but for being up and in the bridge. */
  lemma {:induction false} RightVxlan(ds: Desired, rs: Real, k: Kernel)
    requires WgReady(ds, rs, k) && FindBy(rs, ds.vxlan).Some? && !Remade(ds, rs)
    ensures var acts := Acts(CheckVxlan(ds, rs));
            !AnyFails(k, acts) && VxlanMade(ds, rs, RunActs(k, acts))
  {
    hide FindIface, FindVlan, FindVxlan, Acts, RunActs, AnyFails, Improves, KernelOk, RestOk, BridgePlaced, CheckUp,
         CheckMaster, MayGoUp, Tracks, PortsThere, DistinctKeys, WgLinks, PeerKeys, WgUps, MadeLinks, PeerPlaced,
         PeerGoes, ParseIp4, RecreateVxlan, RouteOk, UplinkThere, Elsewhere;
    assert KindThere(rs, ds.vxlan);
    VxlanActs(ds, rs);
    DevThere(ds, rs, k);
    AlongImproves(rs, k, ds.bridge, PeerKeys(ds, rs));
    LiftStays(rs, k.state, ds.bridge, PeerKeys(ds, rs), ds.vxlan);
    RightMade(PlanOf(ds, rs), ds.vxlan, rs, k, WgLinks(ds, rs), PeerKeys(ds, rs), WgUps(ds));
    var u := RunActs(k, Acts(CheckVxlan(ds, rs)));
    SameNumber(k.state, u.state, ds.bridge, ds.vxlanDev);
    RightAttributes(ds, rs, u.state);
    if PeerGoes(ds, rs) {
      RouteOkStays(PeerRoute(ds), ds.bridge, k.state, u.state, {});
    }
  }

  lemma {:induction false} RightAttributes(ds: Desired, rs: Real, u: Real)
    requires KindThere(rs, ds.vxlan) && FindBy(rs, ds.vxlan).Some? && !Remade(ds, rs) && u.vxlans == rs.vxlans
    requires ParseIp4(ds.vxlanRemote).Some? && ds.vxlanBridge == ds.bridge
    requires FindBy(rs, ds.vxlanDev).Some? ==>
               && FindBy(u, ds.vxlanDev).Some?
               && FindBy(u, ds.vxlanDev).value.ifindex == FindBy(rs, ds.vxlanDev).value.ifindex
    requires UpOk(ds.vxlan, u) && MasterOk(ds.vxlan, ds.bridge, u)
    ensures VxlanOk(ds, u)
  {
    hide FindIface, FindVxlan, ParseIp4;
  }

  /** A vxlan that is added. */
  lemma {:induction false} AddedVxlan(ds: Desired, rs: Real, k: Kernel)
    requires WgPlaced(ds, rs) && FindBy(k.state, ds.vxlan).None?
    requires ds.vxlanDev != "" ==> FindBy(k.state, ds.vxlanDev).Some?
    requires PeerGoes(ds, rs) ==> RouteOk(PeerRoute(ds), k.state)
    requires var seen := Seen(rs, ds.vxlan, Remade(ds, rs));
             && Along(seen, k, ds.bridge, PeerKeys(ds, rs)) && RestOk(PlanOf(ds, rs), k.state)
             && FindBy(seen, ds.vxlan).None?
             && Tracks(seen, k, ds.bridge, MadeLinks(rs, ds.vxlan, Remade(ds, rs), WgLinks(ds, rs)), PeerKeys(ds, rs),
                       WgUps(ds))
    ensures var acts := [AddAct(ds), LinkUp(ds.vxlan), LinkMaster(ds.vxlan, ds.vxlanBridge)];
            !AnyFails(k, acts) && VxlanMade(ds, rs, RunActs(k, acts))
  {
    hide FindIface, FindVlan, FindVxlan, RunActs, AnyFails, Improves, RestOk, BridgePlaced, Tracks, PortsThere,
         DistinctKeys, WgLinks, PeerKeys, WgUps, MadeLinks, Along, Added, MayGoUp, Exec, After, Consistent, Seen, Alone,
         Remade, AddAct, PeerPlaced, PeerGoes, ParseIp4, RouteOk, UplinkThere;
    var p, remade := PlanOf(ds, rs), Remade(ds, rs);
    TracksLinks(Seen(rs, ds.vxlan, remade), k, ds.bridge, MadeLinks(rs, ds.vxlan, remade, WgLinks(ds, rs)),
                PeerKeys(ds, rs), WgUps(ds));
    AddDone(ds, k);
    NewMade(p, ds.vxlan, "vxlan", AddAct(ds), rs, remade, k, WgLinks(ds, rs), PeerKeys(ds, rs), WgUps(ds));
    var u := RunActs(k, [AddAct(ds), LinkUp(ds.vxlan), LinkMaster(ds.vxlan, ds.bridge)]);
    SameNumber(k.state, u.state, ds.bridge, ds.vxlanDev);
    if PeerGoes(ds, rs) {
      RouteOkStays(PeerRoute(ds), ds.bridge, k.state, u.state, {});
    }
  }

  /** There is no vxlan of that name. */
  lemma {:induction false} NewVxlan(ds: Desired, rs: Real, k: Kernel)
    requires WgReady(ds, rs, k) && FindBy(rs, ds.vxlan).None?
    ensures var acts := Acts(CheckVxlan(ds, rs));
            !AnyFails(k, acts) && VxlanMade(ds, rs, RunActs(k, acts))
  {
    hide FindIface, FindVlan, FindVxlan, Acts, RunActs, AnyFails, RestOk, BridgePlaced, CheckVxlan, Tracks, PortsThere,
         DistinctKeys, WgLinks, PeerKeys, WgUps, VxlanMade, AddAct, PeerPlaced, PeerGoes, ParseIp4, RouteOk,
         UplinkThere, Along;
    assert KindThere(rs, ds.vxlan);
    VxlanActs(ds, rs);
    DevThere(ds, rs, k);
    assert AddrLinks(ds.vxlan, rs) == {} && WgLinks(ds, rs) + {} == WgLinks(ds, rs);
    AddedVxlan(ds, rs, k);
  }

  /** It is there with other attributes. */
  lemma {:induction false} OtherVxlan(ds: Desired, rs: Real, k: Kernel)
    requires WgReady(ds, rs, k) && Remade(ds, rs)
    ensures var acts := Acts(CheckVxlan(ds, rs));
            !AnyFails(k, acts) && VxlanMade(ds, rs, RunActs(k, acts))
  {
    hide FindIface, FindVlan, FindVxlan, Acts, RunActs, AnyFails, RestOk, BridgePlaced, CheckVxlan, Tracks, PortsThere,
         DistinctKeys, WgLinks, PeerKeys, WgUps, VxlanMade, AddAct, PeerPlaced, PeerGoes, ParseIp4, RouteOk,
         UplinkThere, Along, Exec, After, Lost, Deleted, Remade;
    assert KindThere(rs, ds.vxlan);
    VxlanActs(ds, rs);
    DevThere(ds, rs, k);
    var del, p := LinkDel(ds.vxlan), PlanOf(ds, rs);
    DeletedReady(p, ds.vxlan, rs, k, WgLinks(ds, rs), PeerKeys(ds, rs), WgUps(ds));
    var k1 := After(k, del);
    LostKeeps(k.state, k1.state, ds.vxlan, FindBy(k.state, ds.vxlan).value.ifindex, ds.vxlanDev);
    if PeerGoes(ds, rs) {
      ReadySound(p, ds.vxlan, rs, k, WgLinks(ds, rs), PeerKeys(ds, rs), WgUps(ds));
      PeerElsewhere(ds, rs);
      RouteSurvives(PeerRoute(ds), ds.vxlan, k.state, k1.state);
    }
    AddedVxlan(ds, rs, k1);
    var make := [AddAct(ds), LinkUp(ds.vxlan), LinkMaster(ds.vxlan, ds.vxlanBridge)];
    RunFew(k, del, del);
    RunConcat(k, [del], make);
    FailsConcat(k, [del], make);
    FailsOne(k, del);
  }

  lemma {:induction false} ReadySound(p: Plan, name: string, rs: Real, k: Kernel, links: set<Link>, keys: set<Prefix>,
                                      ups: set<string>)
    requires Ready(p, name, rs, k, links, keys, ups)
    ensures Sound(k.state)
  {
    hide Sound, RestOk, Links, Sprung, OnlyUp, Along;
    IsFollowed(rs, k, p.ds.bridge);
    IsConsistent(k);
  }

  lemma {:induction false} PeerElsewhere(ds: Desired, rs: Real)
    requires WgPlaced(ds, rs)
    ensures PeerRoute(ds).dev != ds.vxlan
  {
  }

  lemma {:induction false} VxlanDone(ds: Desired, rs: Real, k: Kernel)
    requires WgReady(ds, rs, k)
    ensures var acts := Acts(CheckVxlan(ds, rs));
            !AnyFails(k, acts) && VxlanMade(ds, rs, RunActs(k, acts))
  {
    hide WgReady, VxlanMade, Acts, RunActs, AnyFails, CheckVxlan, FindIface;
    if FindBy(rs, ds.vxlan).None? {
      NewVxlan(ds, rs, k);
    } else if Remade(ds, rs) {
      OtherVxlan(ds, rs, k);
    } else {
      RightVxlan(ds, rs, k);
    }
  }

  // What comes before the vxlan.

  /** The route to the peer, whether it can be set or not. */
  lemma {:induction false} PeerDone(ds: Desired, rs: Real, k: Kernel)
    requires PeerPlaced(ds, rs) && BridgePlaced(ds, rs) && Along(rs, k, ds.bridge, GatewayKeys(ds, rs))
    requires Tracks(rs, k, ds.bridge, FirstLinks(ds, rs, HowOf(ds)), GatewayKeys(ds, rs), FirstUps(ds, HowOf(ds)))
    requires FirstDone(ds, k.state, HowOf(ds), PlanOf(ds, rs).goes)
    ensures var acts := Acts(CheckWgPeerRoute(ds, rs));
            var u := RunActs(k, acts);
            && Tracks(rs, u, ds.bridge, PeerLinks(ds, rs), PeerKeys(ds, rs), FirstUps(ds, HowOf(ds)))
            && Along(rs, u, ds.bridge, PeerKeys(ds, rs)) && FirstDone(ds, u.state, HowOf(ds), PlanOf(ds, rs).goes)
            && AllMild(acts, ds.bridge) && (PeerGoes(ds, rs) ==> !AnyFails(k, acts) && RouteOk(PeerRoute(ds), u.state))
            && (!PeerGoes(ds, rs) ==> Link(ds.wgRouteDev, PeerNet(ds)) !in PeerLinks(ds, rs))
            && PeerKeys(ds, rs) <= GatewayKeys(ds, rs) + {PeerNet(ds)}
  {
    hide Improves, ParsePrefix, ParseIp4, FindIface, Acts, RunActs, AnyFails, KeysOfAll, Mild, Tracks, CheckWgPeerRoute,
         CheckRoute, KernelOk, RouteGoes, RouteLinks, FirstDone, FirstLinks, FirstUps, GatewayKeys, GatewayGoes,
         RouteOk, Links, UpOk, DnsOk, NotAmong, AddrLinks, RouteKey;
    var rt, keys := PeerRoute(ds), GatewayKeys(ds, rs);
    var links, ups := FirstLinks(ds, rs, HowOf(ds)), FirstUps(ds, HowOf(ds));
    var acts, goes := Acts(CheckWgPeerRoute(ds, rs)), PlanOf(ds, rs).goes;
    PeerRead(ds);
    PeerIsRoute(ds, rs);
    PeerNotAmong(ds, rs);
    MildPeer(ds, rs);
    TracksLinks(rs, k, ds.bridge, links, keys, ups);
    if PeerGoes(ds, rs) {
      FirstAreUp(ds, k.state, HowOf(ds), goes);
      RouteBlock(rt, ds.bridge, ups, rs, k, keys, links);
      RouteTracks(rt, rs, k, ds.bridge, links, keys, ups);
      PeerIsNoDefault(ds);
      FirstStays(ds, k.state, RunActs(k, acts).state, HowOf(ds), goes, KeysOfAll(acts));
    } else {
      RouteRefused(rt, ups, rs, k, ds.bridge, links, keys);
      assert keys + {} == keys;
      IsConsistent(k);
      NumberOf(k, ds.wgRouteDev);
      PeerEntry(ds, k.state);
    }
  }

  lemma {:induction false} PeerEntry(ds: Desired, rs: Real)
    requires ParseIp4(ds.wgPeer).Some?
    ensures RouteOk(PeerRoute(ds), rs) ==> Link(ds.wgRouteDev, PeerNet(ds)) in Links(rs)
    ensures (FindBy(rs, ds.wgRouteDev).Some? ==> FindBy(rs, ds.wgRouteDev).value.ifindex > 0) ==>
              Link(ds.wgRouteDev, PeerNet(ds)) in Links(rs) ==> RouteOk(PeerRoute(ds), rs)
  {
    hide ParseIp4, FindIface, Links, RouteOk;
    PeerIsRoute(ds, rs);
    LinkIn(rs, Link(ds.wgRouteDev, PeerNet(ds)));
  }

  lemma {:induction false} PeerNotAmong(ds: Desired, rs: Real)
    requires ParseIp4(ds.wgPeer).Some? && BridgePlaced(ds, rs)
    ensures NotAmong([PeerRoute(ds)], GatewayKeys(ds, rs))
  {
    hide ParseIp4, ParsePrefix, GatewayGoes, GatewayOk, Links, DnsOk, FindIface;
    PeerRead(ds);
  }

  lemma {:induction false} PeerIsNoDefault(ds: Desired)
    requires ParseIp4(ds.wgPeer).Some?
    ensures RouteKey(PeerRoute(ds)) == Some(PeerNet(ds)) && PeerNet(ds) != Prefix(0, 0)
  {
    hide ParseIp4, ParsePrefix;
    PeerRead(ds);
  }

  lemma {:induction false} MildPeer(ds: Desired, rs: Real)
    ensures AllMild(Acts(CheckWgPeerRoute(ds, rs)), ds.bridge)
  {
    hide ParseIp4, FindIface, Acts;
    OnlyDone(CheckWgPeerRoute(ds, rs));
    assert forall a :: Do(a) in CheckWgPeerRoute(ds, rs) ==> Mild(a, ds.bridge);
    assert forall i :: 0 <= i < |Acts(CheckWgPeerRoute(ds, rs))| ==>
                         Acts(CheckWgPeerRoute(ds, rs))[i] in Acts(CheckWgPeerRoute(ds, rs));
  }

  lemma {:induction false} WgUp(ds: Desired, rs: Real)
    requires FindBy(rs, ds.wg).Some?
    ensures Acts(CheckWg(ds, rs)) == Acts(CheckUp(ds.wg, FindBy(rs, ds.wg)))
  {
    hide CheckUp, Acts;
    FirstOk(CheckUp(ds.wg, FindBy(rs, ds.wg)));
  }

  /** The WireGuard interface, if it is there. */
  lemma {:induction false} WgDone(ds: Desired, rs: Real, k: Kernel)
    requires FindBy(rs, ds.wg).Some? && Lifts(ds.wg, rs) && ds.wg != ds.bridge && !ds.addrMode.Dhcp?
    requires Tracks(rs, k, ds.bridge, PeerLinks(ds, rs), PeerKeys(ds, rs), FirstUps(ds, HowOf(ds)))
    requires Along(rs, k, ds.bridge, PeerKeys(ds, rs)) && FirstDone(ds, k.state, HowOf(ds), PlanOf(ds, rs).goes)
    ensures var acts := Acts(CheckWg(ds, rs));
            var u := RunActs(k, acts);
            && Tracks(rs, u, ds.bridge, WgLinks(ds, rs), PeerKeys(ds, rs), WgUps(ds)) && RestOk(PlanOf(ds, rs), u.state)
            && Along(rs, u, ds.bridge, PeerKeys(ds, rs)) && AllMild(acts, ds.bridge) && !AnyFails(k, acts)
            && (RouteOk(PeerRoute(ds), k.state) ==> RouteOk(PeerRoute(ds), u.state))
  {
    hide Improves, FindIface, Acts, RunActs, AnyFails, KeysOfAll, Mild, Tracks, CheckWg, FirstDone, PeerLinks, PeerKeys,
         FirstUps, GatewayGoes, RouteOk, Links, UpOk, AddrLinks, MayGoUp, CheckUp, Along, Steps, Lifting, Lifts;
    var up, keys := CheckUp(ds.wg, FindBy(rs, ds.wg)), PeerKeys(ds, rs);
    WgUp(ds, rs);
    AlongImproves(rs, k, ds.bridge, keys);
    LiftStays(rs, k.state, ds.bridge, keys, ds.wg);
    LiftsThere(ds.wg, rs);
    StillLifts(ds.wg, rs, k.state);
    UpBlock(ds.wg, ds.bridge, rs, k, keys);
    LiftingMember(ds.wg, ds.bridge, rs);
    ReportTracks(up, rs, k, ds.bridge, PeerLinks(ds, rs), keys, FirstUps(ds, HowOf(ds)), {ds.wg});
    UpSteps(ds.wg, ds.bridge, rs, PeerLinks(ds, rs));
    var u := RunActs(k, Acts(up));
    FirstStays(ds, k.state, u.state, HowOf(ds), PlanOf(ds, rs).goes, {});
    if RouteOk(PeerRoute(ds), k.state) {
      RouteOkStays(PeerRoute(ds), ds.bridge, k.state, u.state, {});
    }
  }

  lemma {:induction false} WgFirst(ds: Desired, k: Kernel)
    requires WgPlaced(ds, k.state) && Consistent(k) && FindBy(k.state, ds.wg).Some?
    ensures var rs := k.state;
            var acts := Acts(FirstReport(ds, rs, HowOf(ds)) + CheckWgPeerRoute(ds, rs) + CheckWg(ds, rs));
            && WgReady(ds, k.state, RunActs(k, acts))
            && (PlanOf(ds, k.state).goes && PeerGoes(ds, k.state) ==> !AnyFails(k, acts))
            && (!PeerGoes(ds, k.state) ==> Link(ds.wgRouteDev, PeerNet(ds)) !in WgLinks(ds, k.state))
            && PeerKeys(ds, k.state) <= GatewayKeys(ds, k.state) + {PeerNet(ds)}
  {
    hide FindIface, Acts, RunActs, AnyFails, Mild, Consistent, FirstReport, PortsThere, Tracks, Ready, Lifts,
         NothingOver, Improves, Links, GatewayGoes, GatewayKeys, FirstLinks, FirstUps, Along, DistinctKeys, KernelOk,
         CheckWgPeerRoute, CheckWg, RouteOk, ParseIp4, ParsePrefix, GatewayOk, DnsOk, NotAmong, PeerGoes, PeerLinks,
         PeerKeys, FirstDone, RestOk, UpOk, Remade, KeysOfAll;
    var rs, p := k.state, PlanOf(ds, k.state);
    var a, b, c := FirstReport(ds, rs, HowOf(ds)), CheckWgPeerRoute(ds, rs), CheckWg(ds, rs);
    FirstPart(ds, k, HowOf(ds));
    var k1 := RunActs(k, Acts(a));
    PeerDone(ds, rs, k1);
    var k2 := RunActs(k1, Acts(b));
    WgDone(ds, rs, k2);
    Sequenced(k, a, b, ds.bridge);
    Sequenced(k, a + b, c, ds.bridge);
    IsReady(p, ds.vxlan, k, Acts(a + b + c), WgLinks(ds, rs), PeerKeys(ds, rs), WgUps(ds));
    if !PeerGoes(ds, rs) {
      NotFromWg(ds, rs);
    }
  }

  /** The addresses of the WireGuard interface do not bring the route to the peer. */
  lemma {:induction false} NotFromWg(ds: Desired, rs: Real)
    requires PeerPlaced(ds, rs) && Link(ds.wgRouteDev, PeerNet(ds)) !in PeerLinks(ds, rs)
    ensures Link(ds.wgRouteDev, PeerNet(ds)) !in WgLinks(ds, rs)
  {
    hide FindIface, PeerLinks, ParseIp4, NotAmong, Network;
  }

  // The whole pass.

  lemma {:induction false} VxlanStays(ds: Desired, rs: Real, u: Real, keys: set<Prefix>)
    requires Improves(rs, u, ds.bridge, keys) && VxlanOk(ds, rs) && ds.vxlanBridge == ds.bridge && u.vxlans == rs.vxlans
    ensures VxlanOk(ds, u)
  {
    hide FindIface, FindVxlan, ParseIp4;
    assert StillThere(rs, u, ds.vxlanDev);
    UpStays(rs, u, ds.bridge, keys, ds.vxlan);
    MastersStay(rs, u, ds.bridge, keys, ds.vxlan);
  }

  lemma {:induction false} AllUp(ds: Desired, rs: Real, u: Kernel)
    requires VxlanMade(ds, rs, u)
    ensures forall dev :: dev in WgUps(ds) + {ds.vxlan} ==> UpOk(dev, u.state)
  {
    hide UpOk, Along, Tracks, FirstUps, WgLinks, PeerKeys, MasterOk, FirstDone, FindIface, VxlanOk, RouteOk, PeerGoes;
    FirstAreUp(ds, u.state, HowOf(ds), PlanOf(ds, rs).goes);
  }

  lemma {:induction false} AllOk(ds: Desired, rs: Real)
    requires ScenarioOf(ds.scenario) == WgVxlanBridge && ParseIp4(ds.wgPeer).Some?
    ensures Satisfied(ds, rs) ==> RoutesOk(ds.routes, rs) && GatewayOk(ds, rs) && RouteOk(PeerRoute(ds), rs)
    ensures RoutesOk(ds.routes, rs) && FirstDone(ds, rs, HowOf(ds), true) && VxlanOk(ds, rs) && UpOk(ds.wg, rs) ==>
              RouteOk(PeerRoute(ds), rs) ==> Satisfied(ds, rs)
  {
    hide RoutesOk, VxlanOk, PortsOk, UpOk, BridgeOk, AddrOk, GatewayOk, DnsOk, RouteOk, ParseIp4;
    PeerIsRoute(ds, rs);
  }

  lemma {:induction false} WgUpOk(p: Plan, rs: Real, name: string)
    requires RestOk(p, rs) && name in p.more
    ensures UpOk(name, rs) && FirstDone(p.ds, rs, p.how, p.goes)
  {
    hide FirstDone;
  }

  /** A route to the peer that does not go is not there in the end. */
  lemma {:induction false} PeerIsMissing(ds: Desired, rs: Real, k: Kernel)
    requires WgPlaced(ds, rs) && VxlanMade(ds, rs, k) && Link(ds.wgRouteDev, PeerNet(ds)) !in WgLinks(ds, rs)
    ensures !RouteOk(PeerRoute(ds), RunActs(k, Acts(CheckRoutes(ds.routes, rs))).state)
  {
    hide FindIface, Acts, RunActs, CheckRoutes, Consistent, RestOk, WgLinks, PeerKeys, WgUps, Along, BridgePlaced,
         PortsThere, DistinctKeys, ParseIp4, ParsePrefix, Links, Follows, Sprung, OnlyUp, NotAmong, OtherKeys, VxlanOk,
         Lifts, Network, Alone;
    PeerRead(ds);
    PeerNotMade(ds, rs);
    PeerEntry(ds, k.state);
    var routes := ds.routes;
    SameIfacesAfter(k, routes, rs);
    OthersNotPeer(ds, rs);
    if FindBy(k.state, ds.wgRouteDev).Some? {
      var route := Route(PeerNet(ds).addr, 32, None, FindBy(k.state, ds.wgRouteDev).value.ifindex);
      if route !in k.state.routes {
        StaysOut(k, Acts(CheckRoutes(routes, rs)), route);
      } else {
        LinkIn(k.state, Link(ds.wgRouteDev, PeerNet(ds)));
      }
    }
  }

  lemma {:induction false} PeerNotMade(ds: Desired, rs: Real)
    requires WgPlaced(ds, rs) && Link(ds.wgRouteDev, PeerNet(ds)) !in WgLinks(ds, rs)
    ensures Link(ds.wgRouteDev, PeerNet(ds)) !in MadeLinks(rs, ds.vxlan, Remade(ds, rs), WgLinks(ds, rs))
  {
    hide FindIface, WgLinks, BridgePlaced, PortsThere, DistinctKeys, ParseIp4, NotAmong, Lifts, Network, Alone, Remade,
         UpOk;
  }

  lemma {:induction false} OthersNotPeer(ds: Desired, rs: Real)
    requires PeerPlaced(ds, rs)
    ensures OtherKeys(Acts(CheckRoutes(ds.routes, rs)), PeerNet(ds))
  {
    hide RouteOk, RouteKey, CheckRoutes, Acts, OtherKeys, ParseIp4, AddrLinks;
    OtherRoutes(ds.routes, rs, PeerNet(ds));
  }

  lemma {:induction false} WgRoutes(ds: Desired, rs: Real, k: Kernel, from: Kernel)
    requires WgPlaced(ds, rs) && VxlanMade(ds, rs, k) && Consistent(from) && from.state == rs
    requires PeerKeys(ds, rs) <= GatewayKeys(ds, rs) + {PeerNet(ds)}
    requires !PeerGoes(ds, rs) ==> Link(ds.wgRouteDev, PeerNet(ds)) !in WgLinks(ds, rs)
    ensures var acts := Acts(CheckRoutes(ds.routes, rs));
            var fine := Survive(ds.routes, rs, ds.vxlan, Remade(ds, rs)) && WgCarried(ds, rs);
            (Satisfied(ds, RunActs(k, acts).state) <==> fine) && (fine ==> !AnyFails(k, acts))
  {
    hide FindIface, FindVxlan, Acts, RunActs, AnyFails, Improves, Mild, Consistent, KeysOfAll, CheckRoutes, Remade,
         VxlanOk, RoutesOk, NotAmong, PortsThere, Seen, ParseIp4, ParsePrefix, DnsOk, Sound, NothingOver, BridgeLinks,
         Covered, GatewayOk, UpOk, Along, Tracks, RoutesGo, MadeLinks, WgLinks, WgUps, Links, RestOk, DistinctKeys,
         Satisfied, MasterOk, Survive, RouteKey, FirstDone, ScenarioOf, PeerKeys, RouteOk, PeerGoes, PeerNet, AddrLinks,
         Lifts;
    var p, remade, keys := PlanOf(ds, rs), Remade(ds, rs), PeerKeys(ds, rs);
    var acts := Acts(CheckRoutes(ds.routes, rs));
    var u := RunActs(k, acts);
    IsConsistent(from);
    AllOk(ds, u.state);
    KeysApart(ds, GatewayKeys(ds, rs));
    NotAmongBoth(ds.routes, GatewayKeys(ds, rs), {PeerNet(ds)});
    FewerAmong(ds.routes, keys, GatewayKeys(ds, rs) + {PeerNet(ds)});
    if !p.goes {
      PeerIsNoDefault(ds);
      GatewayLost(p, ds.vxlan, rs, remade, k, WgLinks(ds, rs), keys, WgUps(ds));
    } else if !PeerGoes(ds, rs) {
      PeerIsMissing(ds, rs, k);
    } else {
      AllUp(ds, rs, k);
      LastPart(p, ds.vxlan, rs, remade, k, WgLinks(ds, rs), keys, WgUps(ds));
      if Survive(ds.routes, rs, ds.vxlan, remade) && WgCarried(ds, rs) {
        PeerIsNoDefault(ds);
        PeerKeySafe(ds, KeysOfAll(acts), PeerNet(ds));
        MadeConsistent(p, ds.vxlan, rs, remade, k, WgLinks(ds, rs), keys, WgUps(ds));
        RunConsistent(k, acts, ds.bridge);
        VxlanStays(ds, k.state, u.state, KeysOfAll(acts));
        RouteOkStays(PeerRoute(ds), ds.bridge, k.state, u.state, KeysOfAll(acts));
        WgUpOk(p, u.state, ds.wg);
      }
    }
  }

  lemma {:induction false} MadeConsistent(p: Plan, name: string, rs: Real, remade: bool, k: Kernel, links: set<Link>,
                                          keys: set<Prefix>, ups: set<string>)
    requires Made(p, name, rs, remade, k, links, keys, ups)
    ensures Consistent(k)
  {
    hide Links, Sprung, OnlyUp, Along, RestOk, MadeLinks, Seen, Consistent;
  }

  lemma {:induction false} FewerAmong(routes: seq<DesiredRoute>, keys: set<Prefix>, more: set<Prefix>)
    requires NotAmong(routes, more) && keys <= more
    ensures NotAmong(routes, keys)
  {
    hide RouteKey;
  }

  lemma {:induction false} PeerKeySafe(ds: Desired, keys: set<Prefix>, key: Prefix)
    requires NotAmong(ds.routes, {key})
    requires forall p :: p in keys ==> exists i :: 0 <= i < |ds.routes| && RouteKey(ds.routes[i]) == Some(p)
    ensures key !in keys
  {
    hide RouteKey;
  }

  // A WireGuard interface that is not there.

  /** No interface of that name is up. */
  predicate NoneUp(rs: Real, name: string) {
    forall i :: i in rs.ifaces && i.name == name ==> !i.up
  }

  /** A command that does not bring up an interface, and is not one of the operator's. */
  predicate NoLift(a: Act, name: string) {
    a != LinkUp(name) && (a.Command? ==> IsComment(a))
  }

  lemma {:induction false} DeletedFrom(rs: Real, gone: Iface, i: Iface) returns (j: Iface)
    requires i in Deleted(rs, gone).ifaces
    ensures j in rs.ifaces && j.name == i.name && j.up == i.up
  {
    hide Filter, Stack;
    var all := Stack(rs, {gone.ifindex}, |rs.ifaces|);
    j := FreedFrom(Filter(rs.ifaces, (i: Iface) => i.ifindex !in all), all, i);
    FilterIn(rs.ifaces, (i: Iface) => i.ifindex !in all, j);
  }

  lemma {:induction false} StaysDown(k: Kernel, a: Act, name: string)
    requires NoneUp(k.state, name) && NoLift(a, name)
    ensures NoneUp(After(k, a).state, name)
  {
    hide FindIface, SetUp, SetMaster, ConnectedRoutes, ParsePrefix, ParseIp4, ParseRoute, MayGoUp, OnLink, Deleted;
    forall i | i in After(k, a).state.ifaces && i.name == name
      ensures !i.up
    {
      if Exec(k, a).Some? {
        match a
        case LinkUp(n) => var j := UpFrom(k.state.ifaces, n, i);
        case LinkMaster(n, br) => var j := MasterFrom(k.state.ifaces, n, FindBy(k.state, br).value.ifindex, i);
        case LinkDel(n) => var j := DeletedFrom(k.state, FindBy(k.state, n).value, i);
        case _ =>
      }
    }
  }

  lemma {:induction false} RunStaysDown(k: Kernel, acts: seq<Act>, name: string)
    requires NoneUp(k.state, name) && forall i :: 0 <= i < |acts| ==> NoLift(acts[i], name)
    ensures NoneUp(RunActs(k, acts).state, name)
    decreases |acts|
  {
    hide After, NoneUp, NoLift;
    if acts != [] {
      StaysDown(k, acts[0], name);
      RunStaysDown(After(k, acts[0]), acts[1..], name);
    }
  }

  /** A report that does not ask for the interface to be brought up. */
  predicate NoLiftIn(report: Report, name: string) {
    forall i :: 0 <= i < |report| && report[i].Do? ==> NoLift(report[i].act, name)
  }

  lemma {:induction false} NoLiftActs(report: Report, name: string)
    requires NoLiftIn(report, name)
    ensures forall i :: 0 <= i < |Acts(report)| ==> NoLift(Acts(report)[i], name)
  {
    hide NoLift;
    if report != [] {
      NoLiftActs(report[1..], name);
    }
  }

  lemma {:induction false} NoLiftBridge(ds: Desired, rs: Real)
    requires ds.wg != ds.bridge && !ds.addrMode.Dhcp?
    ensures NoLiftIn(BridgeReport(ds, rs), ds.wg)
  {
    hide ParsePrefix, ParseIp4, FindIface, CheckDns;
    NoLiftDns(ds.dns, rs, ds.wg);
    assert NoLiftIn(CheckBridge(ds, rs), ds.wg);
    assert NoLiftIn(CheckAddr(ds, rs), ds.wg);
    assert NoLiftIn(CheckGateway(ds, rs), ds.wg);
  }

  lemma {:induction false} NoLiftDns(dns: seq<string>, rs: Real, name: string)
    ensures NoLiftIn(CheckDns(dns, rs), name)
  {
    hide ParseIp4;
    if dns != [] {
      NoLiftDns(dns[1..], rs, name);
    }
  }

  lemma {:induction false} NoLiftUplink(ds: Desired, rs: Real)
    requires FindBy(rs, ds.wg).None?
    ensures NoLiftIn(UplinkReport(ds, rs, HowOf(ds)), ds.wg)
  {
    hide FindIface;
  }

  lemma {:induction false} NoLiftPorts(ports: seq<string>, bridge: string, rs: Real, name: string)
    requires FindBy(rs, name).None?
    ensures NoLiftIn(CheckPorts(ports, bridge, rs), name)
  {
    hide FindIface;
    if ports != [] {
      assert NoLiftIn(CheckPort(ports[0], bridge, rs), name);
      NoLiftPorts(ports[1..], bridge, rs, name);
    }
  }

  lemma {:induction false} NoLiftRoutes(routes: seq<DesiredRoute>, rs: Real, name: string)
    ensures NoLiftIn(CheckRoutes(routes, rs), name)
  {
    hide FindIface, ParseRoute;
    if routes != [] {
      assert NoLiftIn(CheckRoute(routes[0], rs), name);
      NoLiftRoutes(routes[1..], rs, name);
    }
  }

  lemma {:induction false} NoLiftVxlan(ds: Desired, rs: Real)
    requires FindBy(rs, ds.wg).None? && ds.wg != ds.vxlan
    ensures NoLiftIn(CheckVxlan(ds, rs), ds.wg)
  {
    hide FindIface, FindVxlan, RecreateVxlan, CheckVxlanVni, CheckVxlanRemote, CheckVxlanDev, CheckUp, CheckMaster,
         AddVxlan;
    var iface, vx := FindBy(rs, ds.vxlan), FindVxlan(rs.vxlans, ds.vxlan);
    NoLiftParts(ds, rs, if vx.Some? then vx.value else Vxlan("", None, None, None));
    var up, master := CheckUp(ds.vxlan, iface), CheckMaster(ds.vxlan, iface, ds.vxlanBridge, rs);
    NoLiftBoth(up, master, ds.wg);
    NoLiftBoth([Do(LinkDel(ds.vxlan))], AddVxlan(ds), ds.wg);
    if vx.None? {
      var first: Report := if iface.Some? then [Do(LinkDel(ds.vxlan))] else [];
      NoLiftBoth([Miss], first, ds.wg);
      NoLiftBoth([Miss] + first, AddVxlan(ds), ds.wg);
    } else {
      var a, b, c := CheckVxlanVni(ds, vx.value), CheckVxlanRemote(ds, vx.value), CheckVxlanDev(ds, rs, vx.value);
      NoLiftBoth([Ok], a, ds.wg);
      NoLiftBoth([Ok] + a, b, ds.wg);
      NoLiftBoth([Ok] + a + b, c, ds.wg);
      NoLiftBoth([Ok] + a + b + c, if RecreateVxlan(ds, rs, vx.value) then [Do(LinkDel(ds.vxlan))] + AddVxlan(ds)
                                   else up + master, ds.wg);
    }
  }

  lemma {:induction false} NoLiftBoth(a: Report, b: Report, name: string)
    requires NoLiftIn(a, name) && NoLiftIn(b, name)
    ensures NoLiftIn(a + b, name)
  {
    hide NoLift;
  }

  lemma {:induction false} NoLiftParts(ds: Desired, rs: Real, vx: Vxlan)
    requires FindBy(rs, ds.wg).None? && ds.wg != ds.vxlan
    ensures NoLiftIn(AddVxlan(ds), ds.wg) && NoLiftIn(CheckUp(ds.vxlan, FindBy(rs, ds.vxlan)), ds.wg)
    ensures NoLiftIn(CheckMaster(ds.vxlan, FindBy(rs, ds.vxlan), ds.vxlanBridge, rs), ds.wg)
    ensures NoLiftIn(CheckVxlanVni(ds, vx), ds.wg) && NoLiftIn(CheckVxlanRemote(ds, vx), ds.wg)
    ensures NoLiftIn(CheckVxlanDev(ds, rs, vx), ds.wg) && NoLiftIn([Do(LinkDel(ds.vxlan))], ds.wg)
  {
    hide FindIface, ParseIp4;
  }

  /**
   A WireGuard interface that the snapshot does not show is not up after the pass, whatever else is repaired: it is
   added and not brought up.
   */
  lemma {:induction false} MissingWgStaysDown(ds: Desired, k: Kernel)
    requires ScenarioOf(ds.scenario) == WgVxlanBridge && FindBy(k.state, ds.wg).None?
    requires ds.wg != ds.bridge && ds.wg != ds.vxlan && !ds.addrMode.Dhcp?
    ensures !Satisfied(ds, RunActs(k, Acts(StateReport(ds, k.state))).state)
  {
    hide FindIface, Acts, RunActs, BridgeReport, UplinkReport, CheckPorts, CheckVxlan, CheckRoutes, NoLift, RoutesOk,
         BridgePartOk, PortsOk, VxlanOk, ParseIp4;
    var rs := k.state;
    NoLiftBridge(ds, rs);
    NoLiftUplink(ds, rs);
    NoLiftPorts(ds.ports, ds.bridge, rs, ds.wg);
    NoLiftWg(ds, rs);
    NoLiftVxlan(ds, rs);
    NoLiftRoutes(ds.routes, rs, ds.wg);
    var report := FirstReport(ds, rs, HowOf(ds)) + CheckWgPeerRoute(ds, rs) + CheckWg(ds, rs) + CheckVxlan(ds, rs)
                  + CheckRoutes(ds.routes, rs);
    assert NoLiftIn(FirstReport(ds, rs, HowOf(ds)), ds.wg);
    assert UplinkReport(ds, rs, HowOf(ds)) == if ds.uplink != "" then CheckUplink(ds, rs) else [] by {
      IsUplinkReport(ds, rs);
    }
    assert StateReport(ds, rs) == report;
    NoLiftActs(report, ds.wg);
    FoundIn(rs.ifaces, ds.wg);
    RunStaysDown(k, Acts(report), ds.wg);
    FoundIn(RunActs(k, Acts(report)).state.ifaces, ds.wg);
  }

  lemma {:induction false} IsUplinkReport(ds: Desired, rs: Real)
    ensures UplinkReport(ds, rs, HowOf(ds)) == if ds.uplink != "" then CheckUplink(ds, rs) else []
  {
  }

  lemma {:induction false} NoLiftWg(ds: Desired, rs: Real)
    requires FindBy(rs, ds.wg).None?
    ensures NoLiftIn(CheckWgPeerRoute(ds, rs), ds.wg) && NoLiftIn(CheckWg(ds, rs), ds.wg)
  {
    hide FindIface, ParseIp4;
  }

  // The result.

  /**
   One pass of repairs in the WireGuard scenario, planned on a snapshot taken before it, leaves nothing to repair if and
   only if the snapshot shows the WireGuard interface, no desired route that it shows goes through a vxlan that is made
   anew, and every device is up and every next hop is on-link by the time that its command comes; and then no command
   fails.
   */
  lemma {:induction false} WgPassConverges(ds: Desired, k: Kernel)
    requires WgPlaced(ds, k.state) && Consistent(k)
    ensures var acts := Acts(StateReport(ds, k.state));
            && (Satisfied(ds, RunActs(k, acts).state) <==> WgFine(ds, k.state))
            && (WgFine(ds, k.state) ==> !AnyFails(k, acts))
  {
    hide FindIface, Acts, RunActs, AnyFails, Consistent, FirstReport, CheckWgPeerRoute, CheckWg, CheckVxlan,
         CheckRoutes, Satisfied, WgReady, VxlanMade, Remade, WgPlaced, StateReport, Survive, RoutesGo, PeerGoes,
         GatewayGoes, PeerNet, PeerKeys, WgLinks, GatewayKeys, WgUps, Seen, MadeLinks, Links;
    var rs := k.state;
    WgParts(ds, rs);
    if FindBy(rs, ds.wg).None? {
      MissingWgStaysDown(ds, k);
    } else {
      var first := FirstReport(ds, rs, HowOf(ds)) + CheckWgPeerRoute(ds, rs) + CheckWg(ds, rs);
      var v, h := CheckVxlan(ds, rs), CheckRoutes(ds.routes, rs);
      WgFirst(ds, k);
      var k1 := RunActs(k, Acts(first));
      VxlanDone(ds, rs, k1);
      var k2 := RunActs(k1, Acts(v));
      ActsConcat(first, v);
      ActsConcat(first + v, h);
      RunConcat(k, Acts(first), Acts(v));
      RunConcat(k, Acts(first + v), Acts(h));
      FailsConcat(k, Acts(first), Acts(v));
      FailsConcat(k, Acts(first + v), Acts(h));
      WgRoutes(ds, rs, k2, k);
    }
  }

  predicate WgFine(ds: Desired, rs: Real) {
    FindBy(rs, ds.wg).Some? && Survive(ds.routes, rs, ds.vxlan, Remade(ds, rs)) && WgCarried(ds, rs)
  }

  lemma {:induction false} WgParts(ds: Desired, rs: Real)
    requires WgPlaced(ds, rs)
    ensures ScenarioOf(ds.scenario) == WgVxlanBridge && ds.wg != ds.bridge && ds.wg != ds.vxlan && !ds.addrMode.Dhcp?
    ensures StateReport(ds, rs) ==
            FirstReport(ds, rs, HowOf(ds)) + CheckWgPeerRoute(ds, rs) + CheckWg(ds, rs) + CheckVxlan(ds, rs)
            + CheckRoutes(ds.routes, rs)
  {
    hide FindIface, BridgeReport, CheckUplink, CheckPorts, CheckWgPeerRoute, CheckWg, CheckVxlan, CheckRoutes,
         BridgePlaced, PeerPlaced, PortsThere, Lifts, ParseIp4, NothingOver, DistinctKeys;
  }

  /** On a host that nobody else changes, one run repairs the state and says so exactly under that condition. */
  lemma {:induction false} WgRunRepairs(ds: Desired, k: Kernel)
    requires WgPlaced(ds, k.state) && Consistent(k)
    ensures Code([ds], k, true) == 0 <==> WgFine(ds, k.state)
    ensures Satisfied(ds, Pass([ds], k.state, k, true).kernel.state) <==> WgFine(ds, k.state)
  {
    hide WgPlaced, Consistent, Satisfied, StateReport, RunActs, AnyFails, Acts, Pass, WgFine, Code, FindIface;
    WgPassConverges(ds, k);
    WgParts(ds, k.state);
    OneRunTells(ds, k);
  }

  // Hosts that one pass does not repair.

  const BRIDGE := Iface("br", "bridge", 1, true, 0)
  const UPLINK := Iface("lo", "", 2, true, 0)
  const WG := Iface("wg", "wireguard", 3, false, 0)

  /** A host without the WireGuard interface, or with one that is down. */
  function Host(there: bool): Real {
    Real([BRIDGE, UPLINK] + (if there then [WG] else []), [], [], [], [], [])
  }

  function Wanted(routeDev: string): Desired {
    Desired("wg_vxlan_bridge", "br", NoAddr, "", "", [], "", [], "lo", "", 0, "", "", "wg", "0.0.0.0", routeDev,
            "vx", 1, "0.0.0.0", "", "br", [])
  }

  lemma {:induction false} FindAmong(there: bool, n: string)
    ensures FindBy(Host(there), n) ==
            if n == "br" then Some(BRIDGE) else if n == "lo" then Some(UPLINK)
            else if n == "wg" && there then Some(WG) else None
  {
    var ifaces, last: seq<Iface> := Host(there).ifaces, if there then [WG] else [];
    assert ifaces[1..] == [UPLINK] + last && ([UPLINK] + last)[1..] == last && (there ==> last[1..] == []);
    assert FindIface(last, n) == if n == "wg" && there then Some(WG) else None;
    assert FindIface([UPLINK] + last, n) == if n == "lo" then Some(UPLINK) else FindIface(last, n);
  }

  lemma {:induction false} HostConsistent(there: bool, k: Kernel)
    requires k.state == Host(there) && k.next == 4
    ensures Consistent(k)
  {
    hide FindIface;
    forall n: string
      ensures Numbered(k, n) && KindThere(k.state, n)
    {
      FindAmong(there, n);
    }
    forall a: string, b: string
      ensures Apart(k.state, a, b)
    {
      FindAmong(there, a);
      FindAmong(there, b);
    }
    forall i | i in k.state.ifaces
      ensures Sole(k.state, i)
    {
      FindAmong(there, i.name);
    }
  }

  lemma {:induction false} HostPlaced(there: bool, routeDev: string)
    requires routeDev != "vx"
    ensures WgPlaced(Wanted(routeDev), Host(there))
  {
    hide FindIface, ParsePrefix, ParseIp4, Links, GatewayGoes, FindVlan, UpNumber, Network;
    FindAmong(there, "br");
    FindAmong(there, "lo");
    FindAmong(there, "wg");
    FindAmong(there, "vx");
    FindAmong(there, "");
    ParseZeros();
    assert "uplink_bridge"[0] != "wg_vxlan_bridge"[0];
    assert ScenarioOf(Wanted(routeDev).scenario) == WgVxlanBridge;
    assert "lo" != "vx" && "lo" != "br" && "wg" != "vx" && "vx" != "br" && "vx" != "" && "wg" != "br";
    assert "wireguard"[0] != "vlan"[0];
    assert AddrLinks("wg", Host(there)) == {};
  }

  /** All is repaired but for a WireGuard interface that is not there. */
  lemma {:induction false} WgIsNotBroughtUp(k: Kernel)
    requires k.state == Host(false) && k.next == 4
    ensures WgPlaced(Wanted("lo"), k.state) && Consistent(k)
    ensures !Satisfied(Wanted("lo"), RunActs(k, Acts(StateReport(Wanted("lo"), k.state))).state)
  {
    hide FindIface, Acts, RunActs, Satisfied, StateReport, WgPlaced, Consistent;
    FindAmong(false, "wg");
    HostConsistent(false, k);
    HostPlaced(false, "lo");
    WgPassConverges(Wanted("lo"), k);
  }

  /** Or but for the route to the peer, where that is over a WireGuard interface that is down. */
  lemma {:induction false} PeerOverWgFails(k: Kernel)
    requires k.state == Host(true) && k.next == 4
    ensures WgPlaced(Wanted("wg"), k.state) && Consistent(k)
    ensures !Satisfied(Wanted("wg"), RunActs(k, Acts(StateReport(Wanted("wg"), k.state))).state)
  {
    hide FindIface, Acts, RunActs, Satisfied, StateReport, WgPlaced, Consistent, ParseIp4, FirstLinks;
    HostConsistent(true, k);
    HostPlaced(true, "wg");
    PeerIsLate();
    WgPassConverges(Wanted("wg"), k);
  }

  lemma {:induction false} PeerIsLate()
    ensures !PeerGoes(Wanted("wg"), Host(true))
  {
    hide FindIface, ParseIp4, FirstLinks, NoHostBits, ParseRoute;
    ParseZeros();
    FindAmong(true, "wg");
    PeerIsRoute(Wanted("wg"), Host(true));
    assert "wg" != "lo" && "wg" != "br" && Raised(Wanted("wg"), UplinkUp) == ["lo"];
  }
}
