/** The passes of `verify.c` and `run.c` as they run: checks that print, count and repair on the way. */
module Reconciler {
  import opened Wrappers
  import opened NetState
  import opened Substitution
  import opened Verify
  import opened Kernel

  lemma {:induction false} OneMore(k: Kernel, log: Report, a: Act)
    ensures Acts(log + [Do(a)]) == Acts(log) + [a]
    ensures RunActs(k, Acts(log + [Do(a)])) == After(RunActs(k, Acts(log)), a)
    ensures AnyFails(k, Acts(log + [Do(a)])) <==> AnyFails(k, Acts(log)) || Exec(RunActs(k, Acts(log)), a).None?
  {
    hide After, Exec;
    ActsConcat(log, [Do(a)]);
    ActsOfOne(a);
    RunConcat(k, Acts(log), [a]);
    FailsConcat(k, Acts(log), [a]);
    RunFew(RunActs(k, Acts(log)), a, a);
    FailsOne(RunActs(k, Acts(log)), a);
  }

  // The linear searches of `state.c` and `verify.c`.

  lemma {:induction false} FindFrom(ifaces: seq<Iface>, i: nat, name: string)
    requires i <= |ifaces| && forall j :: 0 <= j < i ==> ifaces[j].name != name
    ensures FindIface(ifaces, name) == FindIface(ifaces[i..], name)
    decreases |ifaces|
  {
    if i == 0 {
      assert ifaces[0..] == ifaces;
    } else {
      FindFrom(ifaces[1..], i - 1, name);
      assert ifaces[1..][i - 1..] == ifaces[i..];
    }
  }

  method Lookup(rs: Real, name: string) returns (r: Option<Iface>)
    ensures r == FindBy(rs, name)
  {
    var i := 0;
    while i < |rs.ifaces|
      invariant i <= |rs.ifaces| && forall j :: 0 <= j < i ==> rs.ifaces[j].name != name
    {
      if rs.ifaces[i].name == name {
        FindFrom(rs.ifaces, i, name);
        return Some(rs.ifaces[i]);
      }
      i := i + 1;
    }
    FindFrom(rs.ifaces, i, name);
    r := None;
  }

  lemma {:induction false} FindVlanFrom(vlans: seq<Vlan>, i: nat, name: string)
    requires i <= |vlans| && forall j :: 0 <= j < i ==> vlans[j].ifname != name
    ensures FindVlan(vlans, name) == FindVlan(vlans[i..], name)
    decreases |vlans|
  {
    if i == 0 {
      assert vlans[0..] == vlans;
    } else {
      FindVlanFrom(vlans[1..], i - 1, name);
      assert vlans[1..][i - 1..] == vlans[i..];
    }
  }

  method LookupVlan(rs: Real, name: string) returns (r: Option<Vlan>)
    ensures r == FindVlan(rs.vlans, name)
  {
    var i := 0;
    while i < |rs.vlans|
      invariant i <= |rs.vlans| && forall j :: 0 <= j < i ==> rs.vlans[j].ifname != name
    {
      if rs.vlans[i].ifname == name {
        FindVlanFrom(rs.vlans, i, name);
        return Some(rs.vlans[i]);
      }
      i := i + 1;
    }
    FindVlanFrom(rs.vlans, i, name);
    r := None;
  }

  lemma {:induction false} FindVxlanFrom(vxlans: seq<Vxlan>, i: nat, name: string)
    requires i <= |vxlans| && forall j :: 0 <= j < i ==> vxlans[j].ifname != name
    ensures FindVxlan(vxlans, name) == FindVxlan(vxlans[i..], name)
    decreases |vxlans|
  {
    if i == 0 {
      assert vxlans[0..] == vxlans;
    } else {
      FindVxlanFrom(vxlans[1..], i - 1, name);
      assert vxlans[1..][i - 1..] == vxlans[i..];
    }
  }

  method LookupVxlan(rs: Real, name: string) returns (r: Option<Vxlan>)
    ensures r == FindVxlan(rs.vxlans, name)
  {
    var i := 0;
    while i < |rs.vxlans|
      invariant i <= |rs.vxlans| && forall j :: 0 <= j < i ==> rs.vxlans[j].ifname != name
    {
      if rs.vxlans[i].ifname == name {
        FindVxlanFrom(rs.vxlans, i, name);
        return Some(rs.vxlans[i]);
      }
      i := i + 1;
    }
    FindVxlanFrom(rs.vxlans, i, name);
    r := None;
  }

  /** `route_exact` */
  method HasRoute(rs: Real, dst: nat, prefix: nat, oif: int, gw: Option<nat>) returns (found: bool)
    ensures found == RouteExact(rs, dst, prefix, oif, gw)
  {
    if oif <= 0 {
      return false;
    }
    var i := 0;
    while i < |rs.routes|
      invariant i <= |rs.routes| && Route(dst, prefix, gw, oif) !in rs.routes[..i]
    {
      var r := rs.routes[i];
      if r.oif == oif && r.prefix == prefix && r.dst == dst &&
         (if gw.Some? then r.gw.Some? && r.gw.value == gw.value else r.gw.None?) {
        return true;
      }
      i := i + 1;
    }
    assert rs.routes[..i] == rs.routes;
    found := false;
  }

  /** `addr_exists` */
  method HasAddr(rs: Real, ifindex: int, addr: nat, prefix: nat) returns (found: bool)
    ensures found == (Addr(ifindex, addr, prefix) in rs.addrs)
  {
    var i := 0;
    while i < |rs.addrs|
      invariant i <= |rs.addrs| && Addr(ifindex, addr, prefix) !in rs.addrs[..i]
    {
      var a := rs.addrs[i];
      if a.ifindex == ifindex && a.prefix == prefix && a.addr == addr {
        return true;
      }
      i := i + 1;
    }
    assert rs.addrs[..i] == rs.addrs;
    found := false;
  }

  /** `addr_any_exists` */
  method HasAnyAddr(rs: Real, ifindex: int) returns (found: bool)
    ensures found == AddrAny(rs, ifindex)
  {
    var i := 0;
    while i < |rs.addrs|
      invariant i <= |rs.addrs| && forall j :: 0 <= j < i ==> rs.addrs[j].ifindex != ifindex
    {
      if rs.addrs[i].ifindex == ifindex {
        return true;
      }
      i := i + 1;
    }
    found := false;
  }

  /**
   `struct vctx`, with what has been printed, what has been run, and the kernel that it was run on.  Unless it is quiet
   there, others change the kernel between two commands.
   */
  class Context {
    const apply: bool
    const quiet: bool
    var actFail: bool
    var log: Report
    var ran: seq<Act>
    var kernel: Kernel
    ghost const start: Kernel

    /** What was printed has been run, if anything is to be run; only what has been run can have failed. */
    ghost predicate Valid()
      reads this
    {
      && ran == (if apply then Executed(Acts(log)) else [])
      && (ran == [] ==> !actFail)
      && (quiet ==>
            && kernel == (if apply then RunActs(start, Acts(log)) else start)
            && actFail == (apply && AnyFails(start, Acts(log))))
    }

    constructor (kernel: Kernel, apply: bool, quiet: bool)
      ensures Valid() && log == [] && start == kernel && this.apply == apply && this.quiet == quiet
    {
      this.apply, this.quiet, actFail, log, ran, this.kernel, start := apply, quiet, false, [], [], kernel, kernel;
    }

    method SayOk()
      requires Valid()
      modifies this`log
      ensures Valid() && log == old(log) + [Ok]
    {
      ActsConcat(log, [Ok]);
      ActsOfOne(Note);
      assert Acts(log) + [] == Acts(log);
      log := log + [Ok];
    }

    method SayMiss()
      requires Valid()
      modifies this`log
      ensures Valid() && log == old(log) + [Miss]
    {
      ActsConcat(log, [Miss]);
      ActsOfOne(Note);
      assert Acts(log) + [] == Acts(log);
      log := log + [Miss];
    }

    /** `act`: always printed, run only when repairs are applied and there is something to run. */
    method Act(a: Act)
      requires Valid()
      modifies this
      ensures Valid() && log == old(log) + [Do(a)]
    {
      hide After, Acts, RunActs, AnyFails, Executed, IsComment, Exec;
      OneMore(start, log, a);
      ExecutedMore(Acts(log), a);
      AfterIs(kernel, a);
      log := log + [Do(a)];
      if apply && !IsComment(a) {
        if !quiet {
          var others: Kernel := *;
          kernel := others;
        }
        ran := ran + [a];
        match Exec(kernel, a)
        case None =>
          actFail := true;
        case Some(k) =>
          kernel := k;
      } else if apply {
        CommentIsNothing(kernel, a);
      }
    }

    // Each check adds its report to what is printed, and returns how many lines of it are misses.

    method VerifyBridge(ds: Desired, rs: Real) returns (diff: nat)
      requires Valid()
      modifies this
      ensures Valid() && log == old(log) + CheckBridge(ds, rs) && diff == Misses(CheckBridge(ds, rs))
    {
      hide Valid, After, Acts, RunActs, AnyFails, Executed, Exec, FindIface, Misses;
      CountFew(CheckBridge(ds, rs));
      var br := Lookup(rs, ds.bridge);
      diff := 0;
      if br.Some? && br.value.kind == "bridge" {
        SayOk();
        if br.value.up {
          SayOk();
        } else {
          SayMiss();
          Act(LinkUp(ds.bridge));
          diff := diff + 1;
        }
        return;
      }
      SayMiss();
      if br.Some? {
        Act(LinkDel(ds.bridge));
      }
      Act(LinkAddBridge(ds.bridge));
      Act(LinkUp(ds.bridge));
      diff := 1;
    }

    method VerifyAddr(ds: Desired, rs: Real) returns (diff: nat)
      requires Valid()
      modifies this
      ensures Valid() && log == old(log) + CheckAddr(ds, rs) && diff == Misses(CheckAddr(ds, rs))
    {
      hide Valid, After, Acts, RunActs, AnyFails, Executed, Exec, FindIface, Misses, ParsePrefix, ParseIp4, Subst,
           AddrAny;
      CountFew(CheckAddr(ds, rs));
      diff := 0;
      if ds.addrMode.NoAddr? {
        assert log + [] == log;
        return;
      }
      var br := Lookup(rs, ds.bridge);
      if ds.addrMode.Dhcp? {
        var any := false;
        if br.Some? {
          any := HasAnyAddr(rs, br.value.ifindex);
        }
        if any {
          SayOk();
          return;
        }
        SayMiss();
        var fits, cmd := SubstIface(CMD_SIZE, ds.dhcpCmd, ds.bridge);
        Act(if fits then Command(cmd) else Note);
        return 1;
      }
      var p := ParsePrefix(ds.addr);
      if p.None? {
        SayMiss();
        Act(Note);
        return 1;
      }
      var there := false;
      if br.Some? {
        there := HasAddr(rs, br.value.ifindex, p.value.addr, p.value.len);
      }
      if there {
        SayOk();
        return;
      }
      SayMiss();
      Act(AddrAdd(ds.addr, ds.bridge));
      diff := 1;
    }

    method VerifyGateway(ds: Desired, rs: Real) returns (diff: nat)
      requires Valid()
      modifies this
      ensures Valid() && log == old(log) + CheckGateway(ds, rs) && diff == Misses(CheckGateway(ds, rs))
    {
      hide Valid, After, Acts, RunActs, AnyFails, Executed, Exec, FindIface, Misses, ParsePrefix, ParseIp4, RouteExact;
      CountFew(CheckGateway(ds, rs));
      diff := 0;
      if ds.gateway == "" {
        assert log + [] == log;
        return;
      }
      var gw := ParseIp4(ds.gateway);
      if gw.None? {
        SayMiss();
        Act(Note);
        return 1;
      }
      var br := Lookup(rs, ds.bridge);
      var there := false;
      if br.Some? {
        there := HasRoute(rs, 0, 0, br.value.ifindex, gw);
      }
      if there {
        SayOk();
        return;
      }
      SayMiss();
      Act(RouteReplace(DEFAULT_ROUTE, Some(ds.gateway), ds.bridge));
      diff := 1;
    }

    method VerifyDns(ds: Desired, rs: Real) returns (diff: nat)
      requires Valid()
      modifies this
      ensures Valid() && log == old(log) + CheckDns(ds.dns, rs) && diff == Misses(CheckDns(ds.dns, rs))
    {
      hide Valid, After, Acts, RunActs, AnyFails, Executed, Exec, FindIface, Misses, ParsePrefix, ParseIp4;
      diff := 0;
      var i := 0;
      assert ds.dns[0..] == ds.dns && log + CheckDns(ds.dns, rs) == old(log) + CheckDns(ds.dns, rs);
      while i < |ds.dns|
        invariant i <= |ds.dns| && Valid()
        invariant log + CheckDns(ds.dns[i..], rs) == old(log) + CheckDns(ds.dns, rs)
        invariant diff + Misses(CheckDns(ds.dns[i..], rs)) == Misses(CheckDns(ds.dns, rs))
      {
        var addr := ParseIp4(ds.dns[i]);
        ghost var first: Report := if addr.Some? && addr.value in rs.dns then [Ok] else [Miss, Do(Note)];
        ghost var rest := CheckDns(ds.dns[i + 1..], rs);
        assert ds.dns[i..][1..] == ds.dns[i + 1..];
        CountFew(first);
        MissesConcat(first, rest);
        ghost var before := log;
        assert before + (first + rest) == before + first + rest;
        if addr.Some? && addr.value in rs.dns {
          SayOk();
        } else {
          SayMiss();
          Act(Note);
          assert before + [Miss] + [Do(Note)] == before + [Miss, Do(Note)];
          diff := diff + 1;
        }
        i := i + 1;
      }
      CountFew([]);
      assert log + [] == log;
    }

    method VerifyPeerRoute(ds: Desired, rs: Real) returns (diff: nat)
      requires Valid()
      modifies this
      ensures Valid() && log == old(log) + CheckWgPeerRoute(ds, rs) && diff == Misses(CheckWgPeerRoute(ds, rs))
    {
      hide Valid, After, Acts, RunActs, AnyFails, Executed, Exec, FindIface, Misses, ParsePrefix, ParseIp4, RouteExact;
      CountFew(CheckWgPeerRoute(ds, rs));
      var ip := ParseIp4(ds.wgPeer);
      if ip.None? {
        SayMiss();
        Act(Note);
        return 1;
      }
      var dev := Lookup(rs, ds.wgRouteDev);
      var there := false;
      if dev.Some? {
        there := HasRoute(rs, ip.value, 32, dev.value.ifindex, None);
      }
      if there {
        SayOk();
        return 0;
      }
      SayMiss();
      Act(RouteReplace(ds.wgPeer + "/32", None, ds.wgRouteDev));
      diff := 1;
    }

    method VerifyRoute(rt: DesiredRoute, rs: Real) returns (diff: nat)
      requires Valid()
      modifies this
      ensures Valid() && log == old(log) + CheckRoute(rt, rs) && diff == Misses(CheckRoute(rt, rs))
    {
      hide Valid, After, Acts, RunActs, AnyFails, Executed, Exec, FindIface, Misses, ParsePrefix, ParseIp4, RouteExact;
      CountFew(CheckRoute(rt, rs));
      var p := ParsePrefix(rt.dst);
      if p.None? {
        SayMiss();
        Act(Note);
        return 1;
      }
      var via: Option<nat> := None;
      if rt.via.Some? {
        via := ParseIp4(rt.via.value);
        if via.None? {
          SayMiss();
          Act(Note);
          return 1;
        }
      }
      var dev := Lookup(rs, rt.dev);
      var there := false;
      if dev.Some? {
        there := HasRoute(rs, p.value.addr, p.value.len, dev.value.ifindex, via);
      }
      if there {
        SayOk();
        return 0;
      }
      SayMiss();
      Act(RouteReplace(rt.dst, rt.via, rt.dev));
      diff := 1;
    }

    method VerifyRoutes(routes: seq<DesiredRoute>, rs: Real) returns (diff: nat)
      requires Valid()
      modifies this
      ensures Valid() && log == old(log) + CheckRoutes(routes, rs) && diff == Misses(CheckRoutes(routes, rs))
    {
      hide Valid, After, Acts, RunActs, AnyFails, Executed, Exec, FindIface, Misses, ParsePrefix, ParseIp4, CheckRoute;
      diff := 0;
      var i := 0;
      assert routes[0..] == routes;
      while i < |routes|
        invariant i <= |routes| && Valid()
        invariant log + CheckRoutes(routes[i..], rs) == old(log) + CheckRoutes(routes, rs)
        invariant diff + Misses(CheckRoutes(routes[i..], rs)) == Misses(CheckRoutes(routes, rs))
      {
        ghost var first, rest := CheckRoute(routes[i], rs), CheckRoutes(routes[i + 1..], rs);
        assert routes[i..][1..] == routes[i + 1..];
        MissesConcat(first, rest);
        assert log + (first + rest) == log + first + rest;
        var d := VerifyRoute(routes[i], rs);
        diff, i := diff + d, i + 1;
      }
      CountFew([]);
      assert log + [] == log;
    }

    method VerifyUp(name: string, iface: Option<Iface>) returns (diff: nat)
      requires Valid()
      modifies this
      ensures Valid() && log == old(log) + CheckUp(name, iface) && diff == Misses(CheckUp(name, iface))
    {
      hide Valid, After, Acts, RunActs, AnyFails, Executed, Exec, FindIface, Misses, ParsePrefix, ParseIp4;
      CountFew(CheckUp(name, iface));
      if iface.None? {
        SayMiss();
        return 1;
      }
      if iface.value.up {
        SayOk();
        return 0;
      }
      SayMiss();
      Act(LinkUp(name));
      diff := 1;
    }

    method VerifyMaster(name: string, iface: Option<Iface>, bridge: string, rs: Real) returns (diff: nat)
      requires Valid()
      modifies this
      ensures Valid() && log == old(log) + CheckMaster(name, iface, bridge, rs)
      ensures diff == Misses(CheckMaster(name, iface, bridge, rs))
    {
      hide Valid, After, Acts, RunActs, AnyFails, Executed, Exec, FindIface, Misses, ParsePrefix, ParseIp4;
      CountFew(CheckMaster(name, iface, bridge, rs));
      if iface.None? {
        assert log + [] == log;
        return 0;
      }
      var br := Lookup(rs, bridge);
      if br.Some? && iface.value.master == br.value.ifindex {
        SayOk();
        return 0;
      }
      SayMiss();
      Act(LinkMaster(name, bridge));
      diff := 1;
    }

    method VerifyPort(port: string, bridge: string, rs: Real) returns (diff: nat)
      requires Valid()
      modifies this
      ensures Valid() && log == old(log) + CheckPort(port, bridge, rs) && diff == Misses(CheckPort(port, bridge, rs))
    {
      hide Valid, After, Acts, RunActs, AnyFails, Executed, Exec, FindIface, Misses, ParsePrefix, ParseIp4, CheckUp,
           CheckMaster;
      CountFew([Ok]);
      CountFew([Miss, Do(Note)]);
      var iface := Lookup(rs, port);
      if iface.None? {
        SayMiss();
        Act(Note);
        return 1;
      }
      SayOk();
      ghost var a, b := CheckUp(port, iface), CheckMaster(port, iface, bridge, rs);
      MissesConcat([Ok], a);
      MissesConcat([Ok] + a, b);
      var up := VerifyUp(port, iface);
      var master := VerifyMaster(port, iface, bridge, rs);
      assert old(log) + [Ok] + a + b == old(log) + ([Ok] + a + b);
      diff := up + master;
    }

    method VerifyPorts(ports: seq<string>, bridge: string, rs: Real) returns (diff: nat)
      requires Valid()
      modifies this
      ensures Valid() && log == old(log) + CheckPorts(ports, bridge, rs)
      ensures diff == Misses(CheckPorts(ports, bridge, rs))
    {
      hide Valid, After, Acts, RunActs, AnyFails, Executed, Exec, FindIface, Misses, ParsePrefix, ParseIp4, CheckPort;
      diff := 0;
      var i := 0;
      assert ports[0..] == ports;
      while i < |ports|
        invariant i <= |ports| && Valid()
        invariant log + CheckPorts(ports[i..], bridge, rs) == old(log) + CheckPorts(ports, bridge, rs)
        invariant diff + Misses(CheckPorts(ports[i..], bridge, rs)) == Misses(CheckPorts(ports, bridge, rs))
      {
        ghost var first, rest := CheckPort(ports[i], bridge, rs), CheckPorts(ports[i + 1..], bridge, rs);
        assert ports[i..][1..] == ports[i + 1..];
        MissesConcat(first, rest);
        assert log + (first + rest) == log + first + rest;
        var d := VerifyPort(ports[i], bridge, rs);
        diff, i := diff + d, i + 1;
      }
      CountFew([]);
      assert log + [] == log;
    }

    method VerifyUplink(ds: Desired, rs: Real) returns (diff: nat)
      requires Valid()
      modifies this
      ensures Valid() && log == old(log) + CheckUplink(ds, rs) && diff == Misses(CheckUplink(ds, rs))
    {
      hide Valid, After, Acts, RunActs, AnyFails, Executed, Exec, FindIface, Misses, ParsePrefix, ParseIp4, CheckUp;
      CountFew([Ok]);
      CountFew([Miss, Do(Note)]);
      var up := Lookup(rs, ds.uplink);
      if up.None? {
        SayMiss();
        Act(Note);
        return 1;
      }
      SayOk();
      MissesConcat([Ok], CheckUp(ds.uplink, up));
      diff := VerifyUp(ds.uplink, up);
      assert old(log) + [Ok] + CheckUp(ds.uplink, up) == old(log) + ([Ok] + CheckUp(ds.uplink, up));
    }

    method VerifyWg(ds: Desired, rs: Real) returns (diff: nat)
      requires Valid()
      modifies this
      ensures Valid() && log == old(log) + CheckWg(ds, rs) && diff == Misses(CheckWg(ds, rs))
    {
      hide Valid, After, Acts, RunActs, AnyFails, Executed, Exec, FindIface, Misses, ParsePrefix, ParseIp4, CheckUp;
      CountFew([Ok]);
      CountFew([Miss, Do(LinkAddWireguard(ds.wg))]);
      var wg := Lookup(rs, ds.wg);
      if wg.None? {
        SayMiss();
        Act(LinkAddWireguard(ds.wg));
        return 1;
      }
      SayOk();
      MissesConcat([Ok], CheckUp(ds.wg, wg));
      diff := VerifyUp(ds.wg, wg);
      assert old(log) + [Ok] + CheckUp(ds.wg, wg) == old(log) + ([Ok] + CheckUp(ds.wg, wg));
    }

    method AddLink(add: Act, name: string, bridge: string)
      requires Valid()
      modifies this
      ensures Valid() && log == old(log) + [Do(add), Do(LinkUp(name)), Do(LinkMaster(name, bridge))]
    {
      hide Valid, After, Acts, RunActs, AnyFails, Executed, Exec;
      Act(add);
      Act(LinkUp(name));
      Act(LinkMaster(name, bridge));
    }

    /** What `check_vxlan_attrs` says of the attributes, and whether the interface has to be made again. */
    method VerifyVxlanAttrs(ds: Desired, rs: Real, vx: Vxlan) returns (diff: nat, recreate: bool)
      requires Valid()
      modifies this
      ensures var report := CheckVxlanVni(ds, vx) + CheckVxlanRemote(ds, vx) + CheckVxlanDev(ds, rs, vx);
              Valid() && log == old(log) + report && diff == Misses(report)
      ensures recreate == RecreateVxlan(ds, rs, vx)
    {
      hide Valid, After, Acts, RunActs, AnyFails, Executed, Exec, FindIface, Misses, ParseIp4, CheckVxlanVni,
           CheckVxlanRemote, CheckVxlanDev;
      ghost var a, b, c := CheckVxlanVni(ds, vx), CheckVxlanRemote(ds, vx), CheckVxlanDev(ds, rs, vx);
      MissesConcat(a, b);
      MissesConcat(a + b, c);
      var d, r := VerifyVni(ds, vx);
      diff, recreate := d, r;
      d, r := VerifyRemote(ds, vx);
      diff, recreate := diff + d, recreate || r;
      d, r := VerifyDev(ds, rs, vx);
      diff, recreate := diff + d, recreate || r;
      assert old(log) + a + b + c == old(log) + (a + b + c);
    }

    method VerifyVni(ds: Desired, vx: Vxlan) returns (diff: nat, recreate: bool)
      requires Valid()
      modifies this
      ensures Valid() && log == old(log) + CheckVxlanVni(ds, vx) && diff == Misses(CheckVxlanVni(ds, vx))
      ensures recreate == (CheckVxlanVni(ds, vx) == [Miss])
    {
      hide Valid, After, Acts, RunActs, AnyFails, Executed, Exec, FindIface, Misses, ParseIp4;
      CountFew(CheckVxlanVni(ds, vx));
      recreate := vx.vni != Some(ds.vxlanVni);
      if recreate {
        SayMiss();
      } else {
        SayOk();
      }
      diff := if recreate then 1 else 0;
    }

    method VerifyRemote(ds: Desired, vx: Vxlan) returns (diff: nat, recreate: bool)
      requires Valid()
      modifies this
      ensures Valid() && log == old(log) + CheckVxlanRemote(ds, vx) && diff == Misses(CheckVxlanRemote(ds, vx))
      ensures recreate == (CheckVxlanRemote(ds, vx) == [Miss])
    {
      hide Valid, After, Acts, RunActs, AnyFails, Executed, Exec, FindIface, Misses, ParseIp4;
      CountFew(CheckVxlanRemote(ds, vx));
      var remote := ParseIp4(ds.vxlanRemote);
      if remote.None? {
        SayMiss();
        Act(Note);
        return 1, false;
      }
      recreate := vx.remote != remote;
      if recreate {
        SayMiss();
      } else {
        SayOk();
      }
      diff := if recreate then 1 else 0;
    }

    method VerifyDev(ds: Desired, rs: Real, vx: Vxlan) returns (diff: nat, recreate: bool)
      requires Valid()
      modifies this
      ensures Valid() && log == old(log) + CheckVxlanDev(ds, rs, vx) && diff == Misses(CheckVxlanDev(ds, rs, vx))
      ensures recreate == (CheckVxlanDev(ds, rs, vx) == [Miss])
    {
      hide Valid, After, Acts, RunActs, AnyFails, Executed, Exec, FindIface, Misses, ParseIp4;
      CountFew(CheckVxlanDev(ds, rs, vx));
      if ds.vxlanDev == "" {
        assert log + [] == log;
        return 0, false;
      }
      var dev := Lookup(rs, ds.vxlanDev);
      recreate := !(dev.Some? && vx.link == Some(dev.value.ifindex));
      if recreate {
        SayMiss();
      } else {
        SayOk();
      }
      diff := if recreate then 1 else 0;
    }

    method VerifyVlanAttrs(ds: Desired, rs: Real, vl: Vlan) returns (diff: nat, recreate: bool)
      requires Valid()
      modifies this
      ensures var report := CheckVlanId(ds, vl) + CheckVlanLink(ds, rs, vl);
              Valid() && log == old(log) + report && diff == Misses(report)
      ensures recreate == (CheckVlanId(ds, vl) == [Miss] || CheckVlanLink(ds, rs, vl) == [Miss])
    {
      hide Valid, After, Acts, RunActs, AnyFails, Executed, Exec, FindIface, Misses;
      ghost var a, b := CheckVlanId(ds, vl), CheckVlanLink(ds, rs, vl);
      CountFew(a);
      CountFew(b);
      MissesConcat(a, b);
      diff, recreate := 0, false;
      if vl.id == Some(ds.vlanId) {
        SayOk();
      } else {
        SayMiss();
        diff, recreate := 1, true;
      }
      assert log == old(log) + a && diff == Misses(a);
      var link := Lookup(rs, ds.vlanLink);
      if link.Some? && vl.link == Some(link.value.ifindex) {
        SayOk();
      } else {
        SayMiss();
        diff, recreate := diff + 1, true;
      }
      assert log == old(log) + (a + b);
    }

    method VerifyVxlan(ds: Desired, rs: Real) returns (diff: nat)
      requires Valid()
      modifies this
      ensures Valid() && log == old(log) + CheckVxlan(ds, rs) && diff == Misses(CheckVxlan(ds, rs))
    {
      hide Valid, After, Acts, RunActs, AnyFails, Executed, Exec, FindIface, Misses, ParsePrefix, ParseIp4, CheckUp,
           CheckMaster, FindVxlan, CheckVxlanVni, CheckVxlanRemote, CheckVxlanDev, RecreateVxlan;
      var iface := Lookup(rs, ds.vxlan);
      var found := LookupVxlan(rs, ds.vxlan);
      ghost var add := AddVxlan(ds);
      NoneLeft(add);
      CountFew([Ok]);
      CountFew([Miss]);
      if found.None? {
        ghost var del: Report := if iface.Some? then [Do(LinkDel(ds.vxlan))] else [];
        NoneLeft(del);
        MissesConcat([Miss], del);
        MissesConcat([Miss] + del, add);
        SayMiss();
        if iface.Some? {
          Act(LinkDel(ds.vxlan));
        }
        AddLink(LinkAddVxlan(ds.vxlan, ds.vxlanVni, ds.vxlanRemote, ds.vxlanDev), ds.vxlan, ds.vxlanBridge);
        assert log == old(log) + ([Miss] + del + add);
        return 1;
      }
      SayOk();
      ghost var attrs := CheckVxlanVni(ds, found.value) + CheckVxlanRemote(ds, found.value) + CheckVxlanDev(ds, rs,
              found.value);
      var recreate: bool;
      diff, recreate := VerifyVxlanAttrs(ds, rs, found.value);
      MissesConcat([Ok], attrs);
      ghost var rest := if recreate then [Do(LinkDel(ds.vxlan))] + add
                        else CheckUp(ds.vxlan, iface) + CheckMaster(ds.vxlan, iface, ds.vxlanBridge, rs);
      MissesConcat([Ok] + attrs, rest);
      VxlanRegroup(ds, rs, found.value);
      if recreate {
        NoneLeft([Do(LinkDel(ds.vxlan))] + add);
        Act(LinkDel(ds.vxlan));
        AddLink(LinkAddVxlan(ds.vxlan, ds.vxlanVni, ds.vxlanRemote, ds.vxlanDev), ds.vxlan, ds.vxlanBridge);
      } else {
        MissesConcat(CheckUp(ds.vxlan, iface), CheckMaster(ds.vxlan, iface, ds.vxlanBridge, rs));
        var up := VerifyUp(ds.vxlan, iface);
        var master := VerifyMaster(ds.vxlan, iface, ds.vxlanBridge, rs);
        diff := diff + up + master;
      }
      assert log == old(log) + ([Ok] + attrs + rest);
    }

    method VerifyVlan(ds: Desired, rs: Real) returns (diff: nat)
      requires Valid()
      modifies this
      ensures Valid() && log == old(log) + CheckVlan(ds, rs) && diff == Misses(CheckVlan(ds, rs))
    {
      hide Valid, After, Acts, RunActs, AnyFails, Executed, Exec, FindIface, Misses, ParsePrefix, ParseIp4, CheckUp,
           CheckMaster, FindVlan, CheckVlanId, CheckVlanLink;
      var iface := Lookup(rs, ds.vlan);
      var found := LookupVlan(rs, ds.vlan);
      ghost var add := AddVlan(ds);
      NoneLeft(add);
      CountFew([Ok]);
      CountFew([Miss]);
      if found.None? {
        ghost var del: Report := if iface.Some? then [Do(LinkDel(ds.vlan))] else [];
        NoneLeft(del);
        MissesConcat([Miss], del);
        MissesConcat([Miss] + del, add);
        SayMiss();
        if iface.Some? {
          Act(LinkDel(ds.vlan));
        }
        AddLink(LinkAddVlan(ds.vlanLink, ds.vlan, ds.vlanId), ds.vlan, ds.vlanBridge);
        assert log == old(log) + ([Miss] + del + add);
        return 1;
      }
      SayOk();
      ghost var attrs := CheckVlanId(ds, found.value) + CheckVlanLink(ds, rs, found.value);
      var recreate: bool;
      diff, recreate := VerifyVlanAttrs(ds, rs, found.value);
      MissesConcat([Ok], attrs);
      ghost var rest := if recreate then [Do(LinkDel(ds.vlan))] + add
                        else CheckUp(ds.vlan, iface) + CheckMaster(ds.vlan, iface, ds.vlanBridge, rs);
      MissesConcat([Ok] + attrs, rest);
      VlanRegroup(ds, rs, found.value);
      if recreate {
        NoneLeft([Do(LinkDel(ds.vlan))] + add);
        Act(LinkDel(ds.vlan));
        AddLink(LinkAddVlan(ds.vlanLink, ds.vlan, ds.vlanId), ds.vlan, ds.vlanBridge);
      } else {
        MissesConcat(CheckUp(ds.vlan, iface), CheckMaster(ds.vlan, iface, ds.vlanBridge, rs));
        var up := VerifyUp(ds.vlan, iface);
        var master := VerifyMaster(ds.vlan, iface, ds.vlanBridge, rs);
        diff := diff + up + master;
      }
      assert log == old(log) + ([Ok] + attrs + rest);
    }

    method VerifyBridgePart(ds: Desired, rs: Real) returns (diff: nat)
      requires Valid()
      modifies this
      ensures Valid() && log == old(log) + BridgeReport(ds, rs) && diff == Misses(BridgeReport(ds, rs))
    {
      hide Valid, After, Acts, RunActs, AnyFails, Executed, Exec, FindIface, Misses, ScenarioOf, CheckBridge, CheckAddr,
           CheckGateway, CheckDns;
      ghost var a, b := CheckBridge(ds, rs), CheckAddr(ds, rs);
      ghost var c, d := CheckGateway(ds, rs), CheckDns(ds.dns, rs);
      MissesConcat(a, b);
      MissesConcat(a + b, c);
      MissesConcat(a + b + c, d);
      var bridge := VerifyBridge(ds, rs);
      var addr := VerifyAddr(ds, rs);
      var gateway := VerifyGateway(ds, rs);
      var dns := VerifyDns(ds, rs);
      assert old(log) + a + b + c + d == old(log) + (a + b + c + d);
      diff := bridge + addr + gateway + dns;
    }

    /** `verify_uplink_bridge` */
    method VerifyUplinkBridge(ds: Desired, rs: Real) returns (diff: nat)
      requires Valid() && ScenarioOf(ds.scenario) == UplinkBridge
      modifies this
      ensures Valid() && log == old(log) + ScenarioReport(ds, rs) && diff == Misses(ScenarioReport(ds, rs))
    {
      hide Valid, After, Acts, RunActs, AnyFails, Executed, Exec, FindIface, Misses, ScenarioOf, BridgeReport,
           CheckUplink, CheckMaster, CheckPorts;
      var iface := Lookup(rs, ds.uplink);
      ghost var a, b := BridgeReport(ds, rs), CheckUplink(ds, rs);
      ghost var c, d := CheckMaster(ds.uplink, iface, ds.bridge, rs), CheckPorts(ds.ports, ds.bridge, rs);
      MissesConcat(a, b);
      MissesConcat(a + b, c);
      MissesConcat(a + b + c, d);
      var bridge := VerifyBridgePart(ds, rs);
      var up := VerifyUplink(ds, rs);
      var master := VerifyMaster(ds.uplink, iface, ds.bridge, rs);
      var ports := VerifyPorts(ds.ports, ds.bridge, rs);
      assert old(log) + a + b + c + d == old(log) + (a + b + c + d);
      diff := bridge + up + master + ports;
    }

    /** `verify_vlan_bridge` */
    method VerifyVlanBridge(ds: Desired, rs: Real) returns (diff: nat)
      requires Valid() && ScenarioOf(ds.scenario) == VlanBridge
      modifies this
      ensures Valid() && log == old(log) + ScenarioReport(ds, rs) && diff == Misses(ScenarioReport(ds, rs))
    {
      hide Valid, After, Acts, RunActs, AnyFails, Executed, Exec, FindIface, Misses, ScenarioOf, BridgeReport,
           CheckUplink, CheckVlan, CheckPorts;
      ghost var a, b := BridgeReport(ds, rs), CheckUplink(ds, rs);
      ghost var c, d := CheckPorts(ds.ports, ds.bridge, rs), CheckVlan(ds, rs);
      MissesConcat(a, b);
      MissesConcat(a + b, c);
      MissesConcat(a + b + c, d);
      var bridge := VerifyBridgePart(ds, rs);
      var up := VerifyUplink(ds, rs);
      var ports := VerifyPorts(ds.ports, ds.bridge, rs);
      var vlan := VerifyVlan(ds, rs);
      assert old(log) + a + b + c + d == old(log) + (a + b + c + d);
      diff := bridge + up + ports + vlan;
    }

    /** `verify_wg_vxlan_bridge` */
    method VerifyWgVxlanBridge(ds: Desired, rs: Real) returns (diff: nat)
      requires Valid() && ScenarioOf(ds.scenario) == WgVxlanBridge
      modifies this
      ensures Valid() && log == old(log) + ScenarioReport(ds, rs) && diff == Misses(ScenarioReport(ds, rs))
    {
      hide Valid, After, Acts, RunActs, AnyFails, Executed, Exec, FindIface, Misses, ScenarioOf, BridgeReport,
           CheckUplink, CheckVxlan, CheckPorts, CheckWg, CheckWgPeerRoute;
      ghost var a, c := BridgeReport(ds, rs), CheckPorts(ds.ports, ds.bridge, rs);
      ghost var b: Report := if ds.uplink != "" then CheckUplink(ds, rs) else [];
      ghost var d, e, f := CheckWgPeerRoute(ds, rs), CheckWg(ds, rs), CheckVxlan(ds, rs);
      CountFew([]);
      MissesConcat(a, b);
      MissesConcat(a + b, c);
      MissesConcat(a + b + c, d);
      MissesConcat(a + b + c + d, e);
      MissesConcat(a + b + c + d + e, f);
      diff := VerifyBridgePart(ds, rs);
      if ds.uplink != "" {
        var up := VerifyUplink(ds, rs);
        diff := diff + up;
      }
      assert log == old(log) + (a + b) && diff == Misses(a + b);
      var ports := VerifyPorts(ds.ports, ds.bridge, rs);
      var peer := VerifyPeerRoute(ds, rs);
      var wg := VerifyWg(ds, rs);
      var vxlan := VerifyVxlan(ds, rs);
      assert old(log) + (a + b) + c + d + e + f == old(log) + (a + b + c + d + e + f);
      diff := diff + ports + peer + wg + vxlan;
    }

    /** The dispatch of `verify_state` on a supported scenario, and the routes. */
    method VerifyAll(ds: Desired, rs: Real) returns (diff: nat)
      requires Valid() && !ScenarioOf(ds.scenario).Unsupported?
      modifies this
      ensures Valid() && log == old(log) + StateReport(ds, rs) && diff == Misses(StateReport(ds, rs))
    {
      hide Valid, After, Acts, RunActs, AnyFails, Executed, Exec, FindIface, Misses, ScenarioOf, ScenarioReport,
           CheckRoutes, CheckUplink;
      ghost var a, b := ScenarioReport(ds, rs), CheckRoutes(ds.routes, rs);
      MissesConcat(a, b);
      match ScenarioOf(ds.scenario) {
        case OnlyUplink =>
          OnlyUplinkReport(ds, rs);
          diff := VerifyUplink(ds, rs);
        case UplinkBridge => diff := VerifyUplinkBridge(ds, rs);
        case VlanBridge => diff := VerifyVlanBridge(ds, rs);
        case WgVxlanBridge => diff := VerifyWgVxlanBridge(ds, rs);
      }
      assert log == old(log) + a && diff == Misses(a);
      var routes := VerifyRoutes(ds.routes, rs);
      assert old(log) + a + b == old(log) + (a + b);
      diff := diff + routes;
    }
  }

  lemma {:induction false} VxlanRegroup(ds: Desired, rs: Real, vx: Vxlan)
    requires FindVxlan(rs.vxlans, ds.vxlan) == Some(vx)
    ensures var attrs := CheckVxlanVni(ds, vx) + CheckVxlanRemote(ds, vx) + CheckVxlanDev(ds, rs, vx);
            var iface := FindBy(rs, ds.vxlan);
            var rest := if RecreateVxlan(ds, rs, vx) then [Do(LinkDel(ds.vxlan))] + AddVxlan(ds)
                        else CheckUp(ds.vxlan, iface) + CheckMaster(ds.vxlan, iface, ds.vxlanBridge, rs);
            CheckVxlan(ds, rs) == [Ok] + attrs + rest
  {
    hide FindVxlan, CheckUp, CheckMaster, CheckVxlanVni, CheckVxlanRemote, CheckVxlanDev, RecreateVxlan, FindIface;
    var a, b, c := CheckVxlanVni(ds, vx), CheckVxlanRemote(ds, vx), CheckVxlanDev(ds, rs, vx);
    assert [Ok] + a + b + c == [Ok] + (a + b + c);
  }

  lemma {:induction false} VlanRegroup(ds: Desired, rs: Real, vl: Vlan)
    requires FindVlan(rs.vlans, ds.vlan) == Some(vl)
    ensures var a, b := CheckVlanId(ds, vl), CheckVlanLink(ds, rs, vl);
            var iface := FindBy(rs, ds.vlan);
            var rest := if a == [Miss] || b == [Miss] then [Do(LinkDel(ds.vlan))] + AddVlan(ds)
                        else CheckUp(ds.vlan, iface) + CheckMaster(ds.vlan, iface, ds.vlanBridge, rs);
            CheckVlan(ds, rs) == [Ok] + (a + b) + rest
  {
    hide FindVlan, CheckUp, CheckMaster, CheckVlanId, CheckVlanLink, FindIface;
    var a, b := CheckVlanId(ds, vl), CheckVlanLink(ds, rs, vl);
    assert [Ok] + a + b == [Ok] + (a + b);
  }

  /** `subst_iface`: replaces from the left into a buffer of that size, if the result and its end fit. */
  method SubstIface(size: nat, src: string, ifname: string) returns (fits: bool, dst: string)
    requires size > 0
    ensures fits <==> |Subst(src, ifname)| < size
    ensures fits ==> dst == Subst(src, ifname)
    ensures forall parts :: Cut(src, parts) ==>
              (fits <==> |Join(parts, ifname)| < size) && (fits ==> dst == Join(parts, ifname))
  {
    hide Cut, Join;
    forall parts | Cut(src, parts)
      ensures Subst(src, ifname) == Join(parts, ifname)
    {
      SubstReplaces(src, parts, ifname);
    }
    dst := "";
    var i := 0;
    assert src[0..] == src && "" + Subst(src, ifname) == Subst(src, ifname);
    while i < |src|
      invariant i <= |src| && |dst| < size
      invariant dst + Subst(src[i..], ifname) == Subst(src, ifname)
    {
      ghost var rest := src[i..];
      if "$iface" <= src[i..] {
        assert rest[6..] == src[i + 6..];
        assert dst + (ifname + Subst(src[i + 6..], ifname)) == dst + ifname + Subst(src[i + 6..], ifname);
        if |dst| + |ifname| >= size {
          return false, dst;
        }
        dst, i := dst + ifname, i + 6;
      } else {
        assert rest[1..] == src[i + 1..];
        assert dst + ([src[i]] + Subst(src[i + 1..], ifname)) == dst + [src[i]] + Subst(src[i + 1..], ifname);
        if |dst| + 1 >= size {
          return false, dst;
        }
        dst, i := dst + [src[i]], i + 1;
      }
    }
    assert src[i..] == "" && dst + "" == dst;
    fits := true;
  }

  /** How many misses the reports of a single check have. */
  lemma {:induction false} CountFew(report: Report)
    ensures |report| > 0 && report[0] == Miss && NoMoreMisses(report) ==> Misses(report) == 1
    ensures |report| > 1 && report[0] == Ok && report[1] == Miss && NoMoreMisses(report[1..]) ==> Misses(report) == 1
    ensures Good(report) || report == [Ok, Ok] ==> Misses(report) == 0
  {
    if |report| > 0 {
      NoneLeft(report[1..]);
      if |report| > 1 {
        NoneLeft(report[1..][1..]);
      }
    }
    JudgeLines(report);
  }

  predicate NoMoreMisses(report: Report)
    requires report != []
  {
    forall i :: 1 <= i < |report| ==> report[i] != Miss
  }

  lemma {:induction false} NoneLeft(report: Report)
    ensures (forall i :: 0 <= i < |report| ==> report[i] != Miss) ==> Misses(report) == 0
  {
    if report != [] {
      NoneLeft(report[1..]);
      assert forall i :: 0 <= i < |report[1..]| ==> report[1..][i] == report[i + 1];
    }
  }

  lemma {:induction false} AfterIs(k: Kernel, a: Act)
    ensures After(k, a) == match Exec(k, a) case None => k case Some(u) => u
  {
  }
}
