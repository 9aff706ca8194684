/** The text of the repair commands of `verify.c`, and how it is taken apart to be run. */
module Commands {
  import opened Characters
  import opened NetState
  import opened Substitution
  import opened Numerals
  import opened Verify

  // `cmd_split`: words are the maximal runs of characters that are not blank.

  predicate RunStart(s: string, i: nat)
    requires i < |s|
  {
    !IsBlank(s[i]) && (i == 0 || IsBlank(s[i - 1]))
  }

  /** The starts of the words among the first `n` characters, in order. */
  function Starts(s: string, n: nat): (starts: seq<nat>)
    requires n <= |s|
    ensures forall j :: 0 <= j < |starts| ==> starts[j] < n && RunStart(s, starts[j])
  {
    if n == 0 then [] else Starts(s, n - 1) + if RunStart(s, n - 1) then [n - 1] else []
  }

  lemma {:induction false} StartsAreAll(s: string, n: nat, i: nat)
    requires i < n <= |s| && RunStart(s, i)
    ensures i in Starts(s, n)
  {
    if i < n - 1 {
      StartsAreAll(s, n - 1, i);
    }
  }

  lemma {:induction false} StartsInOrder(s: string, n: nat)
    requires n <= |s|
    ensures forall i, j :: 0 <= i < j < |Starts(s, n)| ==> Starts(s, n)[i] < Starts(s, n)[j]
  {
    if n > 0 {
      StartsInOrder(s, n - 1);
    }
  }

  /** The end of the run of characters from `i` on that are not blank. */
  function RunEnd(s: string, i: nat): (e: nat)
    requires i <= |s|
    ensures i <= e <= |s|
    ensures forall j :: i <= j < e ==> !IsBlank(s[j])
    ensures e < |s| ==> IsBlank(s[e])
    decreases |s| - i
  {
    if i < |s| && !IsBlank(s[i]) then RunEnd(s, i + 1) else i
  }

  /** The C string at a place in memory. */
  function CStringAt(mem: seq<char>, i: nat): string
    requires i <= |mem|
    decreases |mem| - i
  {
    if i == |mem| || mem[i] == '\0' then "" else [mem[i]] + CStringAt(mem, i + 1)
  }

  /** The text with its blanks ended. */
  predicate Cut(s: string, mem: seq<char>) {
    && |mem| > |s| && mem[|s|] == '\0'
    && forall i :: 0 <= i < |s| ==> mem[i] == if IsBlank(s[i]) then '\0' else s[i]
  }

  lemma {:induction false} CutGivesRun(s: string, mem: seq<char>, i: nat)
    requires Cut(s, mem) && i <= |s| && (forall j :: 0 <= j < |s| ==> s[j] != '\0')
    ensures CStringAt(mem, i) == s[i..RunEnd(s, i)]
    decreases |s| - i
  {
    if i < |s| && !IsBlank(s[i]) {
      CutGivesRun(s, mem, i + 1);
      assert s[i..RunEnd(s, i)] == [s[i]] + s[i + 1..RunEnd(s, i)];
    } else {
      assert s[i..RunEnd(s, i)] == "";
    }
  }

  lemma {:induction false} NoStart(s: string, a: nat, b: nat)
    requires a <= b <= |s| && forall i :: a <= i < b ==> !RunStart(s, i)
    ensures Starts(s, b) == Starts(s, a)
    decreases b
  {
    if a < b {
      NoStart(s, a, b - 1);
    }
  }

  lemma {:induction false} FewerStarts(s: string, a: nat, b: nat)
    requires a <= b <= |s|
    ensures |Starts(s, a)| <= |Starts(s, b)|
    decreases b
  {
    if a < b {
      FewerStarts(s, a, b - 1);
    }
  }

  /** The first `p` characters have been cut, and the others have not. */
  ghost predicate CutTo(s: string, buf: array<char>, p: nat)
    reads buf
  {
    && p <= |s| < buf.Length && buf[|s|] == '\0'
    && (forall i :: 0 <= i < p ==> buf[i] == if IsBlank(s[i]) then '\0' else s[i])
    && (forall i :: p <= i < |s| ==> buf[i] == s[i])
    && (forall i :: 0 <= i < |s| ==> s[i] != '\0')
  }

  method CutBlanks(buf: array<char>, ghost s: string, p: nat) returns (q: nat)
    requires CutTo(s, buf, p)
    modifies buf
    ensures CutTo(s, buf, q) && p <= q && (forall i :: p <= i < q ==> IsBlank(s[i]))
    ensures q == |s| || !IsBlank(s[q])
  {
    q := p;
    while buf[q] == ' ' || buf[q] == '\t'
      invariant p <= q && CutTo(s, buf, q)
      invariant forall i :: p <= i < q ==> IsBlank(s[i])
      decreases |s| - q
    {
      buf[q] := '\0';
      q := q + 1;
    }
  }

  method SkipWord(buf: array<char>, ghost s: string, p: nat) returns (q: nat)
    requires CutTo(s, buf, p) && p < |s| && !IsBlank(s[p])
    ensures CutTo(s, buf, q) && p < q && (forall i :: p <= i < q ==> !IsBlank(s[i]))
    ensures q == |s| || IsBlank(s[q])
  {
    q := p;
    while buf[q] != '\0' && buf[q] != ' ' && buf[q] != '\t'
      invariant p <= q && CutTo(s, buf, q)
      invariant forall i :: p <= i < q ==> !IsBlank(s[i])
      decreases |s| - q
    {
      q := q + 1;
    }
  }

  /**
   `cmd_split`: cuts the command in place, and finds all its words, unless there are too many for the vector.
   */
  method CmdSplit(buf: array<char>, ghost s: string, max: nat) returns (ok: bool, argv: seq<nat>)
    requires max > 0 && |s| < buf.Length && buf[..|s|] == s && buf[|s|] == '\0'
    requires forall i :: 0 <= i < |s| ==> s[i] != '\0'
    modifies buf
    ensures ok <==> |Starts(s, |s|)| < max
    ensures ok ==> argv == Starts(s, |s|) && Cut(s, buf[..])
    ensures ok ==> forall j :: 0 <= j < |argv| ==> CStringAt(buf[..], argv[j]) == s[argv[j]..RunEnd(s, argv[j])]
  {
    argv := [];
    var p := 0;
    assert forall i :: 0 <= i < |s| ==> buf[i] == buf[..|s|][i];
    while buf[p] != '\0'
      invariant CutTo(s, buf, p) && argv == Starts(s, p) && |argv| < max
      invariant p == 0 || p == |s| || IsBlank(s[p])
      decreases |s| - p
    {
      var q := CutBlanks(buf, s, p);
      NoStart(s, p, q);
      p := q;
      if buf[p] == '\0' {
        break;
      }
      assert RunStart(s, p) && Starts(s, p + 1) == Starts(s, p) + [p];
      if |argv| + 1 >= max {
        FewerStarts(s, p + 1, |s|);
        return false, [];
      }
      argv := argv + [p];
      q := SkipWord(buf, s, p);
      NoStart(s, p + 1, q);
      p := q;
    }
    ok := true;
    forall j | 0 <= j < |argv|
      ensures CStringAt(buf[..], argv[j]) == s[argv[j]..RunEnd(s, argv[j])]
    {
      CutGivesRun(s, buf[..], argv[j]);
    }
  }

  // The text of the commands.

  /** The text that a command is printed as. */
  function Render(a: Act): string {
    match a
    case LinkAddBridge(name) => "ip link add " + name + " type bridge"
    case LinkAddWireguard(name) => "ip link add " + name + " type wireguard"
    case LinkAddVlan(link, name, id) => "ip link add link " + link + " name " + name + " type vlan id " + Decimal(id)
    case LinkAddVxlan(name, vni, remote, dev) =>
      "ip link add " + name + " type vxlan id " + Decimal(vni) + " remote " + remote +
      if dev != "" then " dev " + dev else ""
    case LinkDel(name) => "ip link del " + name
    case LinkUp(name) => "ip link set " + name + " up"
    case LinkMaster(name, bridge) => "ip link set " + name + " master " + bridge
    case AddrAdd(addr, dev) => "ip addr add " + addr + " dev " + dev
    case RouteReplace(dst, via, dev) =>
      "ip route replace " + dst + (if via.Some? then " via " + via.value else "") + " dev " + dev
    case Command(text) => text
    case Note => "#"
  }

  const UINT_MAX := 0x1_0000_0000

  /** The fields of a desired state fit the arrays they are kept in. */
  predicate FieldsFit(ds: Desired) {
    && |ds.bridge| < NAME_SIZE && |ds.uplink| < NAME_SIZE && |ds.addr| < ADDR_SIZE && |ds.gateway| < IP_SIZE
    && |ds.vlan| < NAME_SIZE && |ds.vlanLink| < NAME_SIZE && |ds.vlanBridge| < NAME_SIZE && ds.vlanId < UINT_MAX
    && |ds.wg| < NAME_SIZE && |ds.wgPeer| < IP_SIZE && |ds.wgRouteDev| < NAME_SIZE
    && |ds.vxlan| < NAME_SIZE && ds.vxlanVni < UINT_MAX && |ds.vxlanRemote| < IP_SIZE && |ds.vxlanDev| < NAME_SIZE
    && |ds.vxlanBridge| < NAME_SIZE
    && (forall i :: 0 <= i < |ds.ports| ==> |ds.ports[i]| < NAME_SIZE)
    && (forall i :: 0 <= i < |ds.routes| ==> RouteFieldsFit(ds.routes[i]))
  }

  predicate RouteFieldsFit(rt: DesiredRoute) {
    |rt.dst| < ADDR_SIZE && |rt.dev| < NAME_SIZE && (rt.via.Some? ==> |rt.via.value| < IP_SIZE)
  }

  /** What a command is made of fits the arrays it comes from. */
  predicate ActFits(a: Act) {
    match a
    case LinkAddBridge(name) => |name| < NAME_SIZE
    case LinkAddWireguard(name) => |name| < NAME_SIZE
    case LinkAddVlan(link, name, id) => |link| < NAME_SIZE && |name| < NAME_SIZE && id < UINT_MAX
    case LinkAddVxlan(name, vni, remote, dev) =>
      |name| < NAME_SIZE && vni < UINT_MAX && |remote| < IP_SIZE && |dev| < NAME_SIZE
    case LinkDel(name) => |name| < NAME_SIZE
    case LinkUp(name) => |name| < NAME_SIZE
    case LinkMaster(name, bridge) => |name| < NAME_SIZE && |bridge| < NAME_SIZE
    case AddrAdd(addr, dev) => |addr| < ADDR_SIZE && |dev| < NAME_SIZE
    case RouteReplace(dst, via, dev) => |dst| < ADDR_SIZE && |dev| < NAME_SIZE && (via.Some? ==> |via.value| < IP_SIZE)
    case Command(text) => |text| < CMD_SIZE
    case Note => true
  }

  lemma {:induction false} DecimalLength(n: nat, d: nat, bound: nat)
    requires d > 0 && n < bound && bound <= Ten(d)
    ensures |Decimal(n)| <= d
    decreases d
  {
    if n >= 10 {
      assert Ten(0) == 1;
      DecimalLength(n / 10, d - 1, Ten(d - 1));
    }
  }

  function Ten(d: nat): nat {
    if d == 0 then 1 else 10 * Ten(d - 1)
  }

  lemma {:induction false} DecimalOfUint(n: nat)
    requires n < UINT_MAX
    ensures |Decimal(n)| <= 10
  {
    assert Ten(2) == 100 by { assert Ten(1) == 10 by { assert Ten(0) == 1; } }
    assert Ten(4) == 10000 by { assert Ten(3) == 1000; }
    assert Ten(6) == 1000000 by { assert Ten(5) == 100000; }
    assert Ten(8) == 100000000 by { assert Ten(7) == 10000000; }
    assert Ten(10) == 10000000000 by { assert Ten(9) == 1000000000; }
    DecimalLength(n, 10, UINT_MAX);
  }

  /** No command is cut short by the buffer it is printed into. */
  lemma {:induction false} RenderFits(a: Act)
    requires ActFits(a)
    ensures |Render(a)| < CMD_SIZE
  {
    hide Decimal;
    if a.LinkAddVlan? {
      DecimalOfUint(a.id);
    } else if a.LinkAddVxlan? {
      DecimalOfUint(a.vni);
    }
  }

  predicate AllFit(acts: seq<Act>) {
    forall i :: 0 <= i < |acts| ==> ActFits(acts[i])
  }

  /** Every line of the report that asks for something asks for something that fits. */
  predicate LinesFit(report: Report) {
    forall i :: 0 <= i < |report| ==> report[i].Do? ==> ActFits(report[i].act)
  }

  lemma {:induction false} FitActs(report: Report)
    requires LinesFit(report)
    ensures AllFit(Acts(report))
  {
    hide ActFits;
    if report != [] {
      assert forall i :: 0 <= i < |report[1..]| ==> report[1..][i] == report[i + 1];
      FitActs(report[1..]);
    }
  }

  lemma {:induction false} FitBoth(a: Report, b: Report)
    requires LinesFit(a) && LinesFit(b)
    ensures LinesFit(a + b)
  {
  }

  lemma {:induction false} DnsFits(dns: seq<string>, rs: Real)
    ensures LinesFit(CheckDns(dns, rs))
  {
    hide ParseIp4;
    if dns != [] {
      DnsFits(dns[1..], rs);
    }
  }

  lemma {:induction false} PortsFit(ports: seq<string>, bridge: string, rs: Real)
    requires |bridge| < NAME_SIZE && forall i :: 0 <= i < |ports| ==> |ports[i]| < NAME_SIZE
    ensures LinesFit(CheckPorts(ports, bridge, rs))
  {
    hide FindIface;
    if ports != [] {
      PortsFit(ports[1..], bridge, rs);
      var iface := FindBy(rs, ports[0]);
      FitBoth([Ok], CheckUp(ports[0], iface));
      FitBoth([Ok] + CheckUp(ports[0], iface), CheckMaster(ports[0], iface, bridge, rs));
      FitBoth(CheckPort(ports[0], bridge, rs), CheckPorts(ports[1..], bridge, rs));
    }
  }

  lemma {:induction false} RoutesFit(routes: seq<DesiredRoute>, rs: Real)
    requires forall i :: 0 <= i < |routes| ==> RouteFieldsFit(routes[i])
    ensures LinesFit(CheckRoutes(routes, rs))
  {
    hide FindIface, ParseRoute;
    if routes != [] {
      RoutesFit(routes[1..], rs);
      FitBoth(CheckRoute(routes[0], rs), CheckRoutes(routes[1..], rs));
    }
  }

  lemma {:induction false} BridgePartFits(ds: Desired, rs: Real)
    requires FieldsFit(ds)
    ensures LinesFit(BridgeReport(ds, rs))
  {
    hide FindIface, ParsePrefix, ParseIp4, Subst, CheckDns, AddrAny;
    DnsFits(ds.dns, rs);
    var a, b, c := CheckBridge(ds, rs), CheckAddr(ds, rs), CheckGateway(ds, rs);
    FitBoth(a, b);
    FitBoth(a + b, c);
    FitBoth(a + b + c, CheckDns(ds.dns, rs));
  }

  lemma {:induction false} VlanFits(ds: Desired, rs: Real)
    requires FieldsFit(ds)
    ensures LinesFit(CheckVlan(ds, rs))
  {
    hide FindIface, FindVlan;
  }

  lemma {:induction false} VxlanPartsFit(ds: Desired, rs: Real)
    requires FieldsFit(ds)
    ensures LinesFit([Ok]) && LinesFit([Miss]) && LinesFit([]) && LinesFit([Do(LinkDel(ds.vxlan))])
    ensures LinesFit(AddVxlan(ds))
    ensures LinesFit(CheckUp(ds.vxlan, FindBy(rs, ds.vxlan)))
    ensures LinesFit(CheckMaster(ds.vxlan, FindBy(rs, ds.vxlan), ds.vxlanBridge, rs))
  {
    hide FindIface;
  }

  lemma {:induction false} VxlanAttrsFit(ds: Desired, rs: Real, vx: Vxlan)
    ensures LinesFit(CheckVxlanVni(ds, vx)) && LinesFit(CheckVxlanRemote(ds, vx)) && LinesFit(CheckVxlanDev(ds, rs, vx))
  {
    hide FindIface, ParseIp4;
  }

  lemma {:induction false} VxlanFits(ds: Desired, rs: Real)
    requires FieldsFit(ds)
    ensures LinesFit(CheckVxlan(ds, rs))
  {
    hide FindIface, FindVxlan, ParseIp4, RecreateVxlan, CheckVxlanVni, CheckVxlanRemote, CheckVxlanDev, LinesFit;
    var iface, found := FindBy(rs, ds.vxlan), FindVxlan(rs.vxlans, ds.vxlan);
    VxlanPartsFit(ds, rs);
    if found.None? {
      FitBoth([Miss], if iface.Some? then [Do(LinkDel(ds.vxlan))] else []);
      FitBoth([Miss] + (if iface.Some? then [Do(LinkDel(ds.vxlan))] else []), AddVxlan(ds));
    } else {
      var vx := found.value;
      var a, b, c := CheckVxlanVni(ds, vx), CheckVxlanRemote(ds, vx), CheckVxlanDev(ds, rs, vx);
      VxlanAttrsFit(ds, rs, vx);
      FitBoth([Do(LinkDel(ds.vxlan))], AddVxlan(ds));
      FitBoth(CheckUp(ds.vxlan, iface), CheckMaster(ds.vxlan, iface, ds.vxlanBridge, rs));
      FitBoth([Ok], a);
      FitBoth([Ok] + a, b);
      FitBoth([Ok] + a + b, c);
      FitBoth([Ok] + a + b + c, if RecreateVxlan(ds, rs, vx) then [Do(LinkDel(ds.vxlan))] + AddVxlan(ds)
                                else CheckUp(ds.vxlan, iface) + CheckMaster(ds.vxlan, iface, ds.vxlanBridge, rs));
    }
  }

  lemma {:induction false} SmallPartsFit(ds: Desired, rs: Real)
    requires FieldsFit(ds)
    ensures LinesFit([]) && LinesFit(CheckUplink(ds, rs)) && LinesFit(CheckWgPeerRoute(ds, rs))
    ensures LinesFit(CheckWg(ds, rs))
    ensures LinesFit(CheckMaster(ds.uplink, FindBy(rs, ds.uplink), ds.bridge, rs))
  {
    hide FindIface, ParseIp4;
  }

  lemma {:induction false} ScenarioFits(ds: Desired, rs: Real)
    requires FieldsFit(ds)
    ensures LinesFit(ScenarioReport(ds, rs))
  {
    hide FindBy, BridgeReport, CheckPorts, CheckVlan, CheckVxlan, CheckUplink, CheckMaster, CheckWgPeerRoute, CheckWg,
         ScenarioOf, LinesFit;
    BridgePartFits(ds, rs);
    PortsFit(ds.ports, ds.bridge, rs);
    SmallPartsFit(ds, rs);
    var a, b, c := BridgeReport(ds, rs), CheckUplink(ds, rs), CheckPorts(ds.ports, ds.bridge, rs);
    match ScenarioOf(ds.scenario)
    case OnlyUplink =>
    case UplinkBridge =>
      var d := CheckMaster(ds.uplink, FindBy(rs, ds.uplink), ds.bridge, rs);
      FitBoth(a, b);
      FitBoth(a + b, d);
      FitBoth(a + b + d, c);
    case VlanBridge =>
      VlanFits(ds, rs);
      FitBoth(a, b);
      FitBoth(a + b, c);
      FitBoth(a + b + c, CheckVlan(ds, rs));
    case WgVxlanBridge =>
      VxlanFits(ds, rs);
      var u, d, e := if ds.uplink != "" then b else [], CheckWgPeerRoute(ds, rs), CheckWg(ds, rs);
      FitBoth(a, u);
      FitBoth(a + u, c);
      FitBoth(a + u + c, d);
      FitBoth(a + u + c + d, e);
      FitBoth(a + u + c + d + e, CheckVxlan(ds, rs));
    case Unsupported =>
  }

  /** Whatever the snapshot, every command of a pass is printed and run whole. */
  lemma {:induction false} CommandsAreWhole(ds: Desired, rs: Real)
    requires FieldsFit(ds)
    ensures var acts := Acts(StateReport(ds, rs));
            forall i :: 0 <= i < |acts| ==> |Render(acts[i])| < CMD_SIZE
  {
    hide ScenarioReport, CheckRoutes, Render, ActFits;
    ScenarioFits(ds, rs);
    RoutesFit(ds.routes, rs);
    FitBoth(ScenarioReport(ds, rs), CheckRoutes(ds.routes, rs));
    FitActs(StateReport(ds, rs));
    var acts := Acts(StateReport(ds, rs));
    forall i | 0 <= i < |acts|
      ensures |Render(acts[i])| < CMD_SIZE
    {
      RenderFits(acts[i]);
    }
  }
}
