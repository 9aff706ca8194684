/** The words of the repair commands: what a command becomes when it is split to be run. */
module CommandWords {
  import opened Wrappers
  import opened Characters
  import opened Numerals
  import opened Verify
  import opened Commands

  /** The words that a text is split into. */
  function Words(s: string): (ws: seq<string>)
    ensures |ws| == |Starts(s, |s|)| && forall j :: 0 <= j < |ws| ==> ws[j] == WordAt(s, Starts(s, |s|)[j])
  {
    seq(|Starts(s, |s|)|, j requires 0 <= j < |Starts(s, |s|)| => WordAt(s, Starts(s, |s|)[j]))
  }

  function WordAt(s: string, i: nat): string
    requires i <= |s|
  {
    s[i..RunEnd(s, i)]
  }

  predicate IsWord(w: string) {
    w != "" && forall i :: 0 <= i < |w| ==> !IsBlank(w[i])
  }

  predicate AreWords(ws: seq<string>) {
    forall i :: 0 <= i < |ws| ==> IsWord(ws[i])
  }

  /** Words with a space between them. */
  function Spaced(ws: seq<string>): string {
    if ws == [] then "" else if |ws| == 1 then ws[0] else Spaced(ws[..|ws| - 1]) + " " + ws[|ws| - 1]
  }

  // Splitting.

  lemma {:induction false} StartsOfFront(s: string, t: string, n: nat)
    requires n <= |s|
    ensures Starts(s + t, n) == Starts(s, n)
  {
    if n > 0 {
      StartsOfFront(s, t, n - 1);
      assert RunStart(s + t, n - 1) == RunStart(s, n - 1);
    }
  }

  lemma {:induction false} RunEndOfFront(s: string, t: string, i: nat)
    requires i <= |s| && t != "" && IsBlank(t[0])
    ensures RunEnd(s + t, i) == RunEnd(s, i)
    decreases |s| - i
  {
    if i < |s| && !IsBlank(s[i]) {
      RunEndOfFront(s, t, i + 1);
    }
  }

  lemma {:induction false} RunToEnd(s: string, i: nat)
    requires i <= |s| && forall j :: i <= j < |s| ==> !IsBlank(s[j])
    ensures RunEnd(s, i) == |s|
    decreases |s| - i
  {
    if i < |s| {
      RunToEnd(s, i + 1);
    }
  }

  lemma {:induction false} StartsMore(s: string, w: string)
    requires IsWord(w)
    ensures var t := s + " " + w; Starts(t, |t|) == Starts(s, |s|) + [|s| + 1]
  {
    var t, n := s + " " + w, |s|;
    assert t == s + (" " + w);
    StartsOfFront(s, " " + w, n);
    assert forall i :: n < i < |t| ==> t[i] == w[i - n - 1];
    assert IsBlank(t[n]) && RunStart(t, n + 1);
    assert Starts(t, n + 1) == Starts(t, n) && Starts(t, n + 2) == Starts(t, n + 1) + [n + 1];
    NoStart(t, n + 2, |t|);
  }

  lemma {:induction false} WordAtMore(s: string, w: string, i: nat)
    requires i <= |s|
    ensures WordAt(s + " " + w, i) == WordAt(s, i)
  {
    hide RunEnd;
    var t := s + " " + w;
    assert t == s + (" " + w);
    RunEndOfFront(s, " " + w, i);
    assert t[i..RunEnd(s, i)] == s[i..RunEnd(s, i)];
  }

  lemma {:induction false} LastWord(s: string, w: string)
    requires IsWord(w)
    ensures WordAt(s + " " + w, |s| + 1) == w
  {
    hide RunEnd;
    var t := s + " " + w;
    assert t[|s| + 1..] == w;
    assert forall i :: |s| < i < |t| ==> t[i] == w[i - |s| - 1];
    RunToEnd(t, |s| + 1);
  }

  /** A word more. */
  lemma {:induction false} WordsMore(s: string, w: string)
    requires IsWord(w)
    ensures Words(s + " " + w) == Words(s) + [w]
  {
    hide WordAt, Starts, IsWord;
    var t := s + " " + w;
    StartsMore(s, w);
    LastWord(s, w);
    forall j | 0 <= j < |Starts(s, |s|)|
      ensures Words(t)[j] == Words(s)[j]
    {
      WordAtMore(s, w, Starts(s, |s|)[j]);
    }
  }

  lemma {:induction false} WordsOne(w: string)
    requires IsWord(w)
    ensures Words(w) == [w]
  {
    hide RunEnd;
    assert Starts(w, 0) == [];
    assert Starts(w, 1) == Starts(w, 0) + [0];
    NoStart(w, 1, |w|);
    RunToEnd(w, 0);
    assert WordAt(w, 0) == w;
  }

  /** Words with spaces between them are split into these words. */
  lemma {:induction false} SplitSpaced(ws: seq<string>)
    requires ws != [] && AreWords(ws)
    ensures Words(Spaced(ws)) == ws
    decreases |ws|
  {
    hide Words, IsWord;
    if |ws| == 1 {
      WordsOne(ws[0]);
    } else {
      var front, last := ws[..|ws| - 1], ws[|ws| - 1];
      SplitSpaced(front);
      WordsMore(Spaced(front), last);
      assert Spaced(ws) == Spaced(front) + " " + last;
      assert front + [last] == ws;
    }
  }

  // The words of the commands.

  function LinkAdd(): seq<string> {
    ["ip", "link", "add"]
  }

  function LinkSet(): seq<string> {
    ["ip", "link", "set"]
  }

  function Type(kind: string): seq<string> {
    ["type", kind]
  }

  function Named(option: string, value: string): seq<string> {
    [option, value]
  }

  /** The words of a command that the reconciler makes up itself. */
  function WordsOf(a: Act): seq<string>
    requires !a.Command? && !a.Note?
  {
    match a
    case LinkAddBridge(name) => LinkAdd() + [name] + Type("bridge")
    case LinkAddWireguard(name) => LinkAdd() + [name] + Type("wireguard")
    case LinkAddVlan(link, name, id) =>
      LinkAdd() + Named("link", link) + Named("name", name) + Type("vlan") + Named("id", Decimal(id))
    case LinkAddVxlan(name, vni, remote, dev) =>
      LinkAdd() + [name] + Type("vxlan") + Named("id", Decimal(vni)) + Named("remote", remote) +
      if dev != "" then Named("dev", dev) else []
    case LinkDel(name) => ["ip", "link", "del"] + [name]
    case LinkUp(name) => LinkSet() + [name] + ["up"]
    case LinkMaster(name, bridge) => LinkSet() + [name] + Named("master", bridge)
    case AddrAdd(addr, dev) => ["ip", "addr", "add"] + [addr] + Named("dev", dev)
    case RouteReplace(dst, via, dev) =>
      ["ip", "route", "replace"] + [dst] + (if via.Some? then Named("via", via.value) else []) + Named("dev", dev)
  }

  lemma {:induction false} SpacedJoined(a: seq<string>, b: seq<string>)
    requires a != [] && b != []
    ensures Spaced(a + b) == Spaced(a) + " " + Spaced(b)
    decreases |b|
  {
    var all := a + b;
    if |b| == 1 {
      assert all[..|all| - 1] == a;
    } else {
      SpacedJoined(a, b[..|b| - 1]);
      assert all[..|all| - 1] == a + b[..|b| - 1];
      assert Spaced(a) + " " + Spaced(b[..|b| - 1]) + " " + b[|b| - 1] ==
             Spaced(a) + " " + (Spaced(b[..|b| - 1]) + " " + b[|b| - 1]);
    }
  }

  lemma {:induction false} SpacedFew(a: string, b: string, c: string)
    ensures Spaced([a]) == a && Spaced([a, b]) == a + " " + b && Spaced([a, b, c]) == a + " " + b + " " + c
  {
    assert [a, b][..1] == [a] && [a, b, c][..2] == [a, b];
  }

  /** A text that goes on with words: what is printed before each is a space, or ends with one. */
  lemma {:induction false} Goes(text: string, ws: seq<string>, more: string, xs: seq<string>)
    requires ws != [] && xs != [] && text == Spaced(ws) && more == " " + Spaced(xs)
    ensures text + more == Spaced(ws + xs)
  {
    hide Spaced;
    SpacedJoined(ws, xs);
    assert text + (" " + Spaced(xs)) == text + " " + Spaced(xs);
  }

  lemma {:induction false} First(head: string, ws: seq<string>, x: string)
    requires ws != [] && head == Spaced(ws) + " "
    ensures head + x == Spaced(ws + [x])
  {
    hide Spaced;
    SpacedJoined(ws, [x]);
    SpacedFew(x, "", "");
  }

  lemma {:induction false} Optional(prefix: string, option: string, value: string)
    requires prefix == " " + option + " "
    ensures prefix + value == " " + Spaced(Named(option, value))
  {
    SpacedFew(option, value, "");
    assert " " + option + " " + value == " " + (option + " " + value);
  }

  // The words that are printed as they are.

  lemma {:induction false} LinkAddText()
    ensures "ip link add " == Spaced(LinkAdd()) + " "
  {
    SpacedFew("ip", "link", "add");
  }

  lemma {:induction false} LinkSetText()
    ensures "ip link set " == Spaced(LinkSet()) + " "
  {
    SpacedFew("ip", "link", "set");
  }

  lemma {:induction false} LinkDelText()
    ensures "ip link del " == Spaced(["ip", "link", "del"]) + " "
  {
    SpacedFew("ip", "link", "del");
  }

  lemma {:induction false} AddrAddText()
    ensures "ip addr add " == Spaced(["ip", "addr", "add"]) + " "
  {
    SpacedFew("ip", "addr", "add");
  }

  lemma {:induction false} RouteReplaceText()
    ensures "ip route replace " == Spaced(["ip", "route", "replace"]) + " "
  {
    SpacedFew("ip", "route", "replace");
  }

  lemma {:induction false} TypeText()
    ensures " type bridge" == " " + Spaced(Type("bridge")) && " type wireguard" == " " + Spaced(Type("wireguard"))
    ensures " type vlan" == " " + Spaced(Type("vlan")) && " type vxlan" == " " + Spaced(Type("vxlan"))
  {
    SpacedFew("type", "bridge", "");
    SpacedFew("type", "wireguard", "");
    SpacedFew("type", "vlan", "");
    SpacedFew("type", "vxlan", "");
  }

  lemma {:induction false} OptionText()
    ensures " name " == " " + "name" + " " && " id " == " " + "id" + " " && " remote " == " " + "remote" + " "
    ensures " dev " == " " + "dev" + " " && " master " == " " + "master" + " " && " via " == " " + "via" + " "
  {
  }

  lemma {:induction false} BridgeText(name: string)
    ensures Render(LinkAddBridge(name)) == Spaced(WordsOf(LinkAddBridge(name)))
  {
    hide Spaced, LinkAdd, Type;
    LinkAddText();
    assert LinkAdd() != [] && Type("bridge") != [] by { NotEmpty("bridge"); }
    First("ip link add ", LinkAdd(), name);
    TypeText();
    Goes("ip link add " + name, LinkAdd() + [name], " type bridge", Type("bridge"));
  }

  lemma {:induction false} NotEmpty(kind: string)
    ensures LinkAdd() != [] && LinkSet() != [] && Type(kind) != []
  {
  }

  lemma {:induction false} WireguardText(name: string)
    ensures Render(LinkAddWireguard(name)) == Spaced(WordsOf(LinkAddWireguard(name)))
  {
    hide Spaced, LinkAdd, Type;
    LinkAddText();
    NotEmpty("wireguard");
    First("ip link add ", LinkAdd(), name);
    TypeText();
    Goes("ip link add " + name, LinkAdd() + [name], " type wireguard", Type("wireguard"));
  }

  lemma {:induction false} VlanStart(link: string)
    ensures "ip link add link " + link == Spaced(LinkAdd() + Named("link", link))
  {
    hide Spaced;
    LinkAddText();
    SpacedJoined(LinkAdd(), ["link"]);
    SpacedFew("link", "", "");
    var ws := LinkAdd() + ["link"];
    assert "ip link add link " == "ip link add " + "link" + " ";
    First("ip link add link ", ws, link);
    assert ws + [link] == LinkAdd() + Named("link", link);
  }

  lemma {:induction false} VlanGoes(text: string, id: string)
    ensures text + " type vlan id " + id == text + " type vlan" + (" id " + id)
  {
    assert " type vlan id " == " type vlan" + " id ";
  }

  lemma {:induction false} VlanText(link: string, name: string, id: nat)
    ensures Render(LinkAddVlan(link, name, id)) == Spaced(WordsOf(LinkAddVlan(link, name, id)))
  {
    hide Spaced, LinkAdd, Type, Named, Decimal;
    VlanStart(link);
    NotEmpty("vlan");
    NamedSome("link", link);
    NamedSome("name", name);
    NamedSome("id", Decimal(id));
    OptionText();
    TypeText();
    var a, ws := "ip link add link " + link, LinkAdd() + Named("link", link);
    Optional(" name ", "name", name);
    Goes(a, ws, " name " + name, Named("name", name));
    assert a + (" name " + name) == a + " name " + name;
    var b, xs := a + " name " + name, ws + Named("name", name);
    Goes(b, xs, " type vlan", Type("vlan"));
    Optional(" id ", "id", Decimal(id));
    Goes(b + " type vlan", xs + Type("vlan"), " id " + Decimal(id), Named("id", Decimal(id)));
    VlanGoes(b, Decimal(id));
  }

  lemma {:induction false} NamedSome(option: string, value: string)
    ensures Named(option, value) != []
  {
  }

  lemma {:induction false} VxlanText(name: string, vni: nat, remote: string, dev: string)
    ensures Render(LinkAddVxlan(name, vni, remote, dev)) == Spaced(WordsOf(LinkAddVxlan(name, vni, remote, dev)))
  {
    hide Spaced, LinkAdd, Type, Named, Decimal;
    var id := Decimal(vni);
    LinkAddText();
    NotEmpty("vxlan");
    NamedSome("id", id);
    NamedSome("remote", remote);
    NamedSome("dev", dev);
    OptionText();
    TypeText();
    First("ip link add ", LinkAdd(), name);
    var a, ws := "ip link add " + name, LinkAdd() + [name];
    Goes(a, ws, " type vxlan", Type("vxlan"));
    Optional(" id ", "id", id);
    var b, xs := a + " type vxlan", ws + Type("vxlan");
    Goes(b, xs, " id " + id, Named("id", id));
    Optional(" remote ", "remote", remote);
    var c, ys := b + (" id " + id), xs + Named("id", id);
    Goes(c, ys, " remote " + remote, Named("remote", remote));
    VxlanGoes(a, id, remote);
    var d, zs := c + (" remote " + remote), ys + Named("remote", remote);
    if dev != "" {
      Optional(" dev ", "dev", dev);
      Goes(d, zs, " dev " + dev, Named("dev", dev));
    } else {
      assert d + "" == d && zs + [] == zs;
    }
  }

  lemma {:induction false} VxlanGoes(text: string, id: string, remote: string)
    ensures text + " type vxlan id " + id + " remote " + remote ==
            text + " type vxlan" + (" id " + id) + (" remote " + remote)
  {
    assert " type vxlan id " == " type vxlan" + " id ";
  }

  lemma {:induction false} OneMore(text: string, ws: seq<string>, name: string)
    requires ws != [] && text == Spaced(ws) + " "
    ensures text + name == Spaced(ws + [name])
    ensures text + name + " up" == Spaced(ws + [name] + ["up"])
  {
    hide Spaced;
    First(text, ws, name);
    SpacedFew("up", "", "");
    assert " up" == " " + "up";
    Goes(text + name, ws + [name], " up", ["up"]);
  }

  /** A name, and an option after it. */
  lemma {:induction false} NameAndOption(text: string, ws: seq<string>, name: string, prefix: string, option: string,
                                         value: string)
    requires ws != [] && text == Spaced(ws) + " " && prefix == " " + option + " "
    ensures text + name + prefix + value == Spaced(ws + [name] + Named(option, value))
  {
    hide Spaced, Named;
    First(text, ws, name);
    NamedSome(option, value);
    Optional(prefix, option, value);
    Goes(text + name, ws + [name], prefix + value, Named(option, value));
    assert text + name + (prefix + value) == text + name + prefix + value;
  }

  lemma {:induction false} RouteText(dst: string, via: Option<string>, dev: string)
    ensures Render(RouteReplace(dst, via, dev)) == Spaced(WordsOf(RouteReplace(dst, via, dev)))
  {
    hide Spaced, Named;
    RouteReplaceText();
    OptionText();
    RouteGoes("ip route replace ", ["ip", "route", "replace"], dst, via, dev);
  }

  lemma {:induction false} RouteGoes(text: string, ws: seq<string>, dst: string, via: Option<string>, dev: string)
    requires ws != [] && text == Spaced(ws) + " " && " via " == " " + "via" + " " && " dev " == " " + "dev" + " "
    ensures text + dst + (if via.Some? then " via " + via.value else "") + " dev " + dev ==
            Spaced(ws + [dst] + (if via.Some? then Named("via", via.value) else []) + Named("dev", dev))
  {
    hide Spaced, Named;
    First(text, ws, dst);
    NamedSome("dev", dev);
    Optional(" dev ", "dev", dev);
    var a, xs := text + dst, ws + [dst];
    if via.Some? {
      NamedSome("via", via.value);
      Optional(" via ", "via", via.value);
      Goes(a, xs, " via " + via.value, Named("via", via.value));
      var b, ys := a + (" via " + via.value), xs + Named("via", via.value);
      Goes(b, ys, " dev " + dev, Named("dev", dev));
      assert b + (" dev " + dev) == b + " dev " + dev;
    } else {
      assert a + "" == a && xs + [] == xs;
      Goes(a, xs, " dev " + dev, Named("dev", dev));
      assert a + (" dev " + dev) == a + " dev " + dev;
    }
  }

  /** The text of a command is its words, with spaces between them. */
  lemma {:induction false} TextOfWords(a: Act)
    requires !a.Command? && !a.Note?
    ensures Render(a) == Spaced(WordsOf(a))
  {
    hide Spaced, LinkAdd, LinkSet, Type, Named, Decimal;
    NotEmpty("");
    match a
    case LinkAddBridge(name) => BridgeText(name);
    case LinkAddWireguard(name) => WireguardText(name);
    case LinkAddVlan(link, name, id) => VlanText(link, name, id);
    case LinkAddVxlan(name, vni, remote, dev) => VxlanText(name, vni, remote, dev);
    case LinkDel(name) =>
      LinkDelText();
      OneMore("ip link del ", ["ip", "link", "del"], name);
    case LinkUp(name) =>
      LinkSetText();
      OneMore("ip link set ", LinkSet(), name);
    case LinkMaster(name, bridge) =>
      LinkSetText();
      OptionText();
      NameAndOption("ip link set ", LinkSet(), name, " master ", "master", bridge);
    case AddrAdd(addr, dev) =>
      AddrAddText();
      OptionText();
      NameAndOption("ip addr add ", ["ip", "addr", "add"], addr, " dev ", "dev", dev);
    case RouteReplace(dst, via, dev) => RouteText(dst, via, dev);
  }

  /** The names and addresses of a command are words. */
  predicate ArgsAreWords(a: Act) {
    match a
    case LinkAddBridge(name) => IsWord(name)
    case LinkAddWireguard(name) => IsWord(name)
    case LinkAddVlan(link, name, _) => IsWord(link) && IsWord(name)
    case LinkAddVxlan(name, _, remote, dev) => IsWord(name) && IsWord(remote) && (dev == "" || IsWord(dev))
    case LinkDel(name) => IsWord(name)
    case LinkUp(name) => IsWord(name)
    case LinkMaster(name, bridge) => IsWord(name) && IsWord(bridge)
    case AddrAdd(addr, dev) => IsWord(addr) && IsWord(dev)
    case RouteReplace(dst, via, dev) => IsWord(dst) && IsWord(dev) && (via.Some? ==> IsWord(via.value))
    case Command(_) => false
    case Note => false
  }

  lemma {:induction false} FixedWords()
    ensures AreWords(LinkAdd()) && AreWords(LinkSet()) && AreWords(["ip", "link", "del"])
    ensures AreWords(["ip", "addr", "add"]) && AreWords(["ip", "route", "replace"]) && AreWords(["up"])
  {
  }

  lemma {:induction false} FixedTypes()
    ensures AreWords(Type("bridge")) && AreWords(Type("wireguard")) && AreWords(Type("vlan")) && AreWords(Type("vxlan"))
  {
  }

  lemma {:induction false} FixedOptions()
    ensures IsWord("link") && IsWord("name") && IsWord("id") && IsWord("remote") && IsWord("dev") && IsWord("master")
    ensures IsWord("via")
  {
  }

  lemma {:induction false} NamedWords(option: string, value: string)
    requires IsWord(option) && IsWord(value)
    ensures AreWords(Named(option, value)) && |Named(option, value)| == 2
  {
  }

  lemma AreWordsJoined(a: seq<string>, b: seq<string>)
    requires AreWords(a) && AreWords(b)
    ensures AreWords(a + b)
  {
  }

  lemma {:induction false} NumberIsWord(n: nat)
    ensures IsWord(Decimal(n))
  {
    ValueOfDecimal(n);
    NoLeadingZero(n);
  }

  lemma {:induction false} WordsAreWords(a: Act)
    requires ArgsAreWords(a)
    ensures WordsOf(a) != [] && AreWords(WordsOf(a))
  {
    hide Decimal, IsWord, LinkAdd, LinkSet, Type, Named;
    FixedWords();
    FixedTypes();
    FixedOptions();
    NotEmpty("");
    match a
    case LinkAddVlan(link, name, id) =>
      NumberIsWord(id);
      NamedWords("link", link);
      NamedWords("name", name);
      NamedWords("id", Decimal(id));
    case LinkAddVxlan(name, vni, remote, dev) =>
      NumberIsWord(vni);
      NamedWords("id", Decimal(vni));
      NamedWords("remote", remote);
      if dev != "" {
        NamedWords("dev", dev);
      }
    case LinkMaster(_, bridge) => NamedWords("master", bridge);
    case AddrAdd(_, dev) => NamedWords("dev", dev);
    case RouteReplace(_, via, dev) =>
      NamedWords("dev", dev);
      if via.Some? {
        NamedWords("via", via.value);
      }
    case _ =>
  }

  lemma {:induction false} FewWords(a: Act)
    requires !a.Command? && !a.Note?
    ensures |WordsOf(a)| <= 12
  {
    hide Decimal;
  }

  /** A command is run with exactly its words for arguments: they fit the vector, and are what it is split into. */
  lemma {:induction false} CommandSplits(a: Act)
    requires ArgsAreWords(a)
    ensures Words(Render(a)) == WordsOf(a) && |Starts(Render(a), |Render(a)|)| < 32
  {
    hide WordsOf, Render, Spaced, WordAt, Starts;
    TextOfWords(a);
    WordsAreWords(a);
    FewWords(a);
    SplitSpaced(WordsOf(a));
  }

  lemma {:induction false} WordsDiffer()
    ensures "add" != "set" && "add" != "del" && "link" != "addr" && "bridge" != "wireguard"
  {
    assert "add"[0] != "set"[0] && "add"[0] != "del"[0] && "link"[0] != "addr"[0];
  }

  /** What can be told of a command from its words. */
  predicate Tells(a: Act, ws: seq<string>)
    requires !a.Command? && !a.Note?
  {
    |ws| >= 4 &&
    match a
    case LinkAddBridge(name) => |ws| == 6 && ws[1] == "link" && ws[2] == "add" && ws[3] == name && ws[5] == "bridge"
    case LinkAddWireguard(name) =>
      |ws| == 6 && ws[1] == "link" && ws[2] == "add" && ws[3] == name && ws[5] == "wireguard"
    case LinkAddVlan(link, name, id) => |ws| == 11 && ws[4] == link && ws[6] == name && ws[10] == Decimal(id)
    case LinkAddVxlan(name, vni, remote, dev) =>
      && |ws| == (if dev != "" then 12 else 10) && ws[1] == "link" && ws[3] == name && ws[7] == Decimal(vni)
      && ws[9] == remote && (dev != "" ==> ws[11] == dev)
    case LinkDel(name) => |ws| == 4 && ws[3] == name
    case LinkUp(name) => |ws| == 5 && ws[3] == name
    case LinkMaster(name, bridge) => |ws| == 6 && ws[1] == "link" && ws[2] == "set" && ws[3] == name && ws[5] == bridge
    case AddrAdd(addr, dev) => |ws| == 6 && ws[1] == "addr" && ws[3] == addr && ws[5] == dev
    case RouteReplace(dst, via, dev) =>
      && |ws| == (if via.Some? then 8 else 6) && ws[1] == "route" && ws[3] == dst
      && ws[|ws| - 1] == dev && (via.Some? ==> ws[5] == via.value)
  }

  lemma {:induction false} WordsTell(a: Act)
    requires !a.Command? && !a.Note?
    ensures Tells(a, WordsOf(a))
  {
    hide Decimal;
  }

  lemma {:induction false} SameWords(a: Act, b: Act)
    requires !a.Command? && !a.Note? && !b.Command? && !b.Note? && WordsOf(a) == WordsOf(b)
    ensures a == b
  {
    hide Decimal, WordsOf;
    WordsDiffer();
    WordsTell(a);
    WordsTell(b);
    if a.LinkAddVlan? {
      ValueOfDecimal(a.id);
      ValueOfDecimal(b.id);
    } else if a.LinkAddVxlan? {
      ValueOfDecimal(a.vni);
      ValueOfDecimal(b.vni);
    }
  }

  /** Different commands have different texts. */
  lemma {:induction false} SameText(a: Act, b: Act)
    requires ArgsAreWords(a) && ArgsAreWords(b) && Render(a) == Render(b)
    ensures a == b
  {
    hide WordsOf, Render, Words, Starts, IsWord;
    CommandSplits(a);
    CommandSplits(b);
    SameWords(a, b);
  }
}
