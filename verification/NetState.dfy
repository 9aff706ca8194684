/** What netrec wants and what it sees: the desired state, and a snapshot of the kernel (`state.h`). */
module NetState {
  import opened Wrappers
  import opened Characters

  datatype AddrMode = NoAddr | Static | Dhcp

  datatype DesiredRoute = DesiredRoute(dst: string, via: Option<string>, dev: string)

  datatype Desired = Desired(
    scenario: string,
    bridge: string, addrMode: AddrMode, addr: string, gateway: string, dns: seq<string>, dhcpCmd: string,
      ports: seq<string>,
    uplink: string, vlan: string, vlanId: nat, vlanLink: string, vlanBridge: string,
    wg: string, wgPeer: string, wgRouteDev: string,
    vxlan: string, vxlanVni: nat, vxlanRemote: string, vxlanDev: string, vxlanBridge: string, routes: seq<DesiredRoute>)

  // The sizes of the arrays that a desired state is kept in.

  const NAME_SIZE := 16
  const IP_SIZE := 16
  const ADDR_SIZE := 32
  const DHCP_SIZE := 128
  const SCENARIO_SIZE := 32
  const DNS_MAX := 4
  const PORT_MAX := 32
  const ROUTE_MAX := 64
  const STATE_MAX := 16

  datatype Iface = Iface(name: string, kind: string, ifindex: int, up: bool, master: int)

  datatype Addr = Addr(ifindex: int, addr: nat, prefix: nat)

  datatype Route = Route(dst: nat, prefix: nat, gw: Option<nat>, oif: int)

  datatype Vxlan = Vxlan(ifname: string, vni: Option<nat>, remote: Option<nat>, link: Option<int>)

  datatype Vlan = Vlan(ifname: string, id: Option<nat>, link: Option<int>)

  datatype Real = Real(ifaces: seq<Iface>, addrs: seq<Addr>, routes: seq<Route>, dns: seq<nat>,
                       vxlans: seq<Vxlan>, vlans: seq<Vlan>)

  /** The first interface of that name. */
  function FindIface(ifaces: seq<Iface>, name: string): Option<Iface> {
    if ifaces == [] then None
    else if ifaces[0].name == name then Some(ifaces[0])
    else FindIface(ifaces[1..], name)
  }

  function FindVxlan(vxlans: seq<Vxlan>, name: string): Option<Vxlan> {
    if vxlans == [] then None
    else if vxlans[0].ifname == name then Some(vxlans[0])
    else FindVxlan(vxlans[1..], name)
  }

  function FindVlan(vlans: seq<Vlan>, name: string): Option<Vlan> {
    if vlans == [] then None
    else if vlans[0].ifname == name then Some(vlans[0])
    else FindVlan(vlans[1..], name)
  }

  /** A number below 256 without leading zeros, as `inet_pton` reads it. */
  function ParseOctet(s: string): Option<nat> {
    if |s| == 1 && IsDigit(s[0]) then Some(DigitValue(s[0]))
    else if |s| == 2 && IsDigit(s[0]) && IsDigit(s[1]) && s[0] != '0' then
      Some(10 * DigitValue(s[0]) + DigitValue(s[1]))
    else if |s| == 3 && IsDigit(s[0]) && IsDigit(s[1]) && IsDigit(s[2]) && s[0] != '0' then
      var v := 100 * DigitValue(s[0]) + 10 * DigitValue(s[1]) + DigitValue(s[2]);
      if v < 256 then Some(v) else None
    else None
  }

  function DigitValue(c: char): nat
    requires IsDigit(c)
  {
    (c - '0') as nat
  }

  /** That many octets, joined by dots, the last one ending the text. */
  function ParseOctets(s: string, n: nat, acc: nat): Option<nat>
    requires n > 0
    decreases n
  {
    var dot := IndexOf(s, '.');
    var octet := ParseOctet(s[..dot]);
    if octet.None? then None
    else if n == 1 then if dot == |s| then Some(256 * acc + octet.value) else None
    else if dot == |s| then None
    else ParseOctets(s[dot + 1..], n - 1, 256 * acc + octet.value)
  }

  /** `parse_ip4` */
  function ParseIp4(s: string): Option<nat> {
    ParseOctets(s, 4, 0)
  }

  predicate IsSpace(c: char) {
    c == ' ' || ('\t' <= c <= '\r')
  }

  function SkipSpaces(s: string): string {
    if s != "" && IsSpace(s[0]) then SkipSpaces(s[1..]) else s
  }

  /** What `strtol` reads from the text, if it reads all of it and it is not negative; the empty text is zero. */
  function ParseLong(s: string): Option<nat> {
    var t := SkipSpaces(s);
    if s == "" then Some(0)
    else if t != "" && t[0] == '-' then (if |t| > 1 && ParseDigits(t[1..], 0) == Some(0) then Some(0) else None)
    else if t != "" && t[0] == '+' then (if |t| > 1 then ParseDigits(t[1..], 0) else None)
    else if t != "" then ParseDigits(t, 0)
    else None
  }

  function ParseDigits(s: string, acc: nat): Option<nat>
    decreases |s|
  {
    if s == "" then Some(acc)
    else if IsDigit(s[0]) then ParseDigits(s[1..], 10 * acc + DigitValue(s[0]))
    else None
  }

  datatype Prefix = Prefix(addr: nat, len: nat)

  /** `parse_addr_prefix` */
  function ParsePrefix(s: string): Option<Prefix> {
    var slash := IndexOf(s, '/');
    if slash == |s| then None
    else
      var addr := ParseIp4(s[..slash]);
      var len := ParseLong(s[slash + 1..]);
      if addr.None? || len.None? || len.value > 32 then None
      else Some(Prefix(addr.value, len.value))
  }
}
