# Verified models of netrec and of the libyaml it carries

netrec keeps the network of a host as a configuration describes it. This project models its logic in Dafny and
proves what it is for; beside it stands a model of the libyaml in `deps/`, as a component of its own.

Nothing here runs either program. Where the C code updates things in place the model does too: linked trees,
buffers and stacks are objects and arrays, loops are loops, and each method is proved against a specification
whose own properties are the results listed below. `dafny verify dfyconfig.toml` checks everything.

## What is modelled

**The configuration store** (`CfgTree`, `CfgPath`, `CfgDump`, `CfgText`, `CfgLines`, `CfgNodes`, `CfgStore`). A tree of
objects, arrays and strings, set, read and deleted by path, dumped as text and loaded again. The linked nodes refine an
ordered tree under every mix of calls; the path grammar is characterised exactly; a dump loads as what was dumped
exactly if its lines fit the buffer that files are read with. Files that people write, with blanks, comments and bare or
quoted values, load as the strings that they write, and every other line is refused.

**The desired set** (`DesiredTree`, `DesiredRefusals`, `DesiredSet`, `DesiredReload`, `StateIds`, `SetReload`, with
`Strtoul`). States printed as configuration lines by `uci.c` and read back through the store by `yaml.c`. The same
states come back in the same order exactly if their ids are distinct; `br-a` and `br_a` are not. Which trees are states
at all is said exactly.

**The reconciler** (`NetState`, `Verify`, `Kernel`, `Consistency`, `Tracking`, `UplinkPass`, `Remake`, `VlanPass`,
`VxlanPass`, `KindPass`, `PlannedPass`, `SetRepairs`, `Reconciler`, `Run`, `Commands`, `CommandWords`, with `Numerals`
and `Substitution`). The `CheckX` functions of `Verify` say what the code reports and runs; `Satisfied` says what a
state asks for, without naming a check, and the report has no miss exactly if it holds. The abstract kernel takes a
route only over a device that is up and to a next hop that is on-link, brings a vlan up only over one that is up, and
deletes what is stacked on an interface with it. For every scenario with a bridge it is proved exactly when one pass of
the commands, planned on a stale snapshot, leaves nothing to repair: what is made anew takes nothing with it that was
seen satisfied, and every device is up and every next hop on-link by the time that its command comes. Sets of states
that share nothing are repaired together. A run that returns 0 has seen everything satisfied in its last snapshot and
has run no command since.

**The watch loop** (`Watch`). Loop, callbacks and stop requests over a bounded pipe, in every interleaving; a first run
is made, what is unserved is served, and a stop ends the loop.

**The node graph of libyaml** (`NodeGraph`, `YamlEvents`, `Dumper` with `Traversal`, `Loader`, `Compose`, `DumpLoad`).
Every graph, with sharing and cycles, goes through the events of the dumper and the loader and comes back isomorphic.
Every document that loads is the table of the nodes that its events announce.

**Its parser** (`EventGrammar`, `ParserMoves`, `Parser`, `TokenGrammar`, `TokenParse`, `TokenSplit`, `ParseStream`,
`LoadStream`, `HeaderGrammar`, `HeaderParse`, `Tags`). The parser accepts exactly the token sequences of a grammar of
syntax trees, and gives their events; of the streams of the grammar that heads `parser.c`, exactly the regular ones of
known handles. Parsed and loaded, a stream of the grammar gives the nodes of its syntax trees. Every state function
keeps one contract: its event is one that the grammar of events allows next and carries what the tokens said, the
stacks of states and marks stay in step with that grammar and never underflow, and event and new state are those of the
move `Next` of the pure machine. The rows below say what each move is.

**Its emitter** (`EmitterMoves`, `EmitterRuns`, `Emitter`, `Pipeline`, `EmitPipeline`). An event is refused exactly if
the grammar of events refuses it, or for its anchor, tag, flags or directives. Every state function keeps one contract
here too: refused as that says, and otherwise the stacks of states and indents stay in step with the grammar and are
those of the move `Moved`; every node leaves them as they were. What the parser makes of the tokens of the scanner is
emitted, and a dump exactly if no tag in it is empty and its directives are good.

**Its scanner** (`Queue`, `ScannerMoves`, `ScanOrder`, `Layout`, `FlatPages`, `BlockPages`, `PageScan`, `Scanner`).
Syntax trees that are laid out on the page, block collections in growing columns and flow collections anywhere, are
read as their tokens, with those of simple keys, and are then accepted by the parser. The parser takes tokens from a
queue while the scanner puts those of simple keys in before others. Every insertion is within the queue, and taking
tokens early is never noticed: the parser gets what reading the same lexemes in one go would have made. Every method
that fetches leaves each possible key naming a queued token, and as many open levels as the tokens open.

**Its reader and its double-quoted scalars** (`Utf8`, `Reader`, `DoubleQuoted`). The incremental decoder accepts
exactly UTF-8 as section 4 of RFC 3629 defines it, in the allowed range, however the input is split. Every text
written double-quoted is scanned as the same octets.

`Wrappers` and `Characters` hold what several of these share.

## Where the code differs from what is written about it

- The grammar that heads `parser.c` lets a pair of a flow sequence go without its key, and a pair of a block mapping
  without its KEY. The code passes over the token after a missing key (`parser.c:1037-1042`) and has no rule for a VALUE
  that no KEY comes before. So `[? : x]`, `[? , a]` and a mapping that starts with VALUE are refused
  (`HeaderParse.PairWithoutKeyFails`, `KeyAloneFails`, `ValueWithoutKeyFails`). The grammar does not ask for tag handles
  to be known nor for one VERSION-DIRECTIVE at most, and the code does (`HeaderParse.UnknownHandleFails`,
  `TwoVersionsFail`). `HeaderParse.AcceptedIffRegular` says exactly which streams of that grammar are accepted.
- The emitter does not take every stream of events: anchors, tags, flags and directives have to be good as well
  (`Emitter.EmitAll`; `EmitPipeline.EmptyTagRefused` and `BareScalarRefused` are streams that are refused). It takes a
  dump exactly if its directives are good and no reachable node has an empty tag (`EmitPipeline.DumpThenEmit`).
- The loader reads the tag `!` as no tag (`loader.c:384-388`), so tags survive a dump and a load exactly if no
  reachable node has it (`DumpLoad.TagsSurvive`, `BangIsLost`).
- A dump can succeed and yet not be loadable: lines of more than 4094 characters (`CfgText.LongStringIsNotReloaded`).
- `act_fail` is overwritten for every state (`verify.c:808-810`), so a failure can be forgotten
  (`Run.FailureForgotten`). It tells of every failure exactly if no supported state comes after one with commands
  (`Run.FailureReported`). The result of a run is right all the same, since it looks again.
- One pass does not always repair an `uplink_bridge`: the gateway comes before the routes (`verify.c:710`, `verify.c:806`),
  so a route to it that is only listed there comes too late (`UplinkPass.GatewayComesFirst`), and routes are set in the
  order in which they are listed (`UplinkPass.RouteOrderMatters`); `UplinkPass.OnePassConverges` has the exact condition.
- Nor does it always repair a `vlan_bridge`: a vlan that is made anew takes a route with it that the snapshot
  showed as satisfied (`VlanPass.VlanRouteIsLost`); `VlanPass.VlanPassConverges` has the exact condition.
- Nor a `wg_vxlan_bridge`: a missing WireGuard interface is added and never brought up (`verify.c:764-769`,
  `VxlanPass.WgIsNotBroughtUp`), and a route to the peer over one that is down comes before it goes up
  (`VxlanPass.PeerOverWgFails`); `VxlanPass.WgPassConverges` has the exact condition.
- Nor a bridge whose name an interface of another kind has: what was seen satisfied on that interface goes with it
  (`verify.c:291-297`, `KindPass.DummyIsReplaced`); `KindPass.KindPassConverges` has the exact condition.

## Model

| member | source | states |
|---|---|---|
| `CfgTree.Find` | cfg.c:90-102 | The first child of that name: it has the name, and no child before it does. |
| `CfgTree.SetReads` | cfg.c:755-814 | For every tree, path and value, and every canonical path read afterwards: only the path that was set reads differently, and only if the call succeeded; a failed call changes no reading. |
| `CfgTree.SetThenGet` | cfg.c:719-814 | After a successful set the path reads back as the value, with `[-1]` in the place of an append. |
| `CfgTree.DeleteReads` | cfg.c:816-864 | A failed delete changes nothing; after a successful one every canonical path reads what its pre-image read, so that exactly the later elements of an array move up and the deleted node reads as missing. |
| `CfgTree.FromEnd` | cfg.c:104-121 | In an array of n elements `[i]` and `[i-n]` are interchangeable in every get, set and delete, whatever is before and after them in the path. |
| `CfgTree.SetStores` | cfg.c:303-368 | A set keeps what every tree of the store satisfies: object children have distinct key names, arrays hold strings only, and no path is deeper than 64. |
| `CfgTree.DeleteStores` | cfg.c:370-429 | A delete keeps the same: distinct key names, arrays of strings, and a depth of at most 64. |
| `CfgPath.PathLanguage` | cfg.c:135-240 | A string parses as a path if and only if the path is within the limits and the string is one of its spellings, both directions; the only tokens with two spellings are indices of zero. |
| `CfgPath.ParseAfterShow` | cfg.c:203-240 | Printing a path and parsing it gives the path back. |
| `CfgPath.ParseMinusZero` | cfg.c:186-198 | `[-0]` is index 0. |
| `CfgPath.ScanKey` | cfg.c:143-163 | The cursor loop over a key stops where the grammar ends the key, or fails where it has none. |
| `CfgPath.ScanNumber` | cfg.c:186-201 | The digits, the leading-zero rule, the range of `int` and the closing bracket, as the grammar of indices has them. |
| `CfgPath.ScanIndex` | cfg.c:165-201 | An append or an index, and the place after it. |
| `CfgPath.ScanStep` | cfg.c:203-235 | One step of a path, with its dot or bracket. |
| `CfgPath.ScanPath` | cfg.c:203-240 | The loop accepts exactly the spellings of paths of at most 64 steps and returns the path spelled. |
| `CfgDump.LoadAfterDump` | cfg.c:582-631 | Setting the printed strings one after the other in an empty store rebuilds the tree in the same order, without the containers that hold no string. |
| `CfgDump.FailedSetKeepsLeaves` | cfg.c:755-814 | A set that fails leaves the ordered list of paths and strings as it was, though it may leave empty containers. |
| `CfgText.ValueAfterQuote` | cfg.c:452-580 | Every string survives quoting and parsing. |
| `CfgText.LoadDumpedLine` | cfg.c:517-548 | A printed line, loaded, sets exactly the string it was printed for. |
| `CfgText.DumpIsLines` | cfg.c:582-631 | What the recursive printer writes is one line for each string of the tree, in order, with its path. |
| `CfgText.LoadAfterDump` | cfg.c:653-717 | For every tree of the store whose dump succeeds: loading the text gives the tree without its empty containers, in the same order, if and only if every line has at most 4094 characters; otherwise the load fails with E2BIG. |
| `CfgText.PruneKeeps` | cfg.c:582-631 | A tree loses nothing in a dump if and only if no container in it is without a string. |
| `CfgText.DumpAfterLoad` | cfg.c:653-717 | Dumping what was loaded from a dump gives the same text. |
| `CfgText.RunKeepsConfig` | cfg.c:755-864 | Every tree that any sequence of sets and deletes makes of a store is one that the round trip holds for. |
| `CfgText.LongStringIsNotReloaded` | cfg.c:653-689 | Every string of more than 4094 characters makes a dump that succeeds and cannot be loaded. |
| `CfgText.WriteQuoted` | cfg.c:550-580 | The loop writes a text that parses back as the string. |
| `CfgLines.ReadQuoted` | cfg.c:474-500 | The loop over a quoted value reads what the grammar of quoted values says, or fails as it does. |
| `CfgLines.ValueLanguage` | cfg.c:452-515 | A value is read as the string that is written, in each of its spellings and whatever blanks and comment follow: quoted, with `n` and `t` after a backslash for a new line and a tab and all else for itself; or bare, without `#`, without a quote before it and without blanks at its ends. Nothing else is read. |
| `CfgLines.ReadValue` | cfg.c:452-515 | The same of the method: it returns the string of every spelling, and fails exactly if the text is none. |
| `CfgLines.LoadEntry` | cfg.c:517-548 | For every line `blanks key blanks = blanks value blanks comment`, in any spelling, and every tree: loading it is exactly setting that string at that path. |
| `CfgLines.LoadRemark` | cfg.c:517-548 | A line of blanks, or a comment after blanks, changes nothing. |
| `CfgLines.LineLanguage` | cfg.c:517-548 | Every line is one of these or is refused, and then changes nothing. |
| `CfgLines.FileLoads` | cfg.c:653-689 | A file of such lines, in any spellings and line ends, with or without an end of the last, loads as the strings it writes, in order, up to the first line of more than 4094 characters. |
| `CfgNodes.RefreshWorks` | cfg.c:755-814 | When the tree at one node changes, the trees recorded on the way to the root can be renewed so that every node of the store stands for its tree again. |
| `CfgNodes.AttachModel` | cfg.c:80-88 | A node added last keeps the sibling lists disjoint and acyclic and changes the whole tree at that place only. |
| `CfgNodes.DetachModel` | cfg.c:370-429 | A node taken out, and all below it, leaves the other sibling lists disjoint and acyclic, and the whole tree without that child. |
| `CfgNodes.AssignModel` | cfg.c:303-324 | Another value for a string changes no list, and the whole tree at that string only. |
| `CfgStore.ChildAdd` | cfg.c:80-88 | The linked list becomes the old list and the node: `child`, `next`, `tail`, `n_child` and `parent` agree with it. |
| `CfgStore.Unlink` | cfg.c:370-429 | The linked list becomes the old list without that node, whether it was first, last, both or neither. |
| `CfgStore.Store.constructor` | cfg.c:633-636 | An empty store is valid and stands for the empty object. |
| `CfgStore.Store.ObjFind` | cfg.c:90-102 | The walk over siblings finds the node of the first field of that name, or nothing. |
| `CfgStore.Store.ArrNth` | cfg.c:123-133 | The node of that element, or nothing past the end. |
| `CfgStore.Store.Attach` | cfg.c:80-88 | Linking a new node in keeps the store valid and adds its tree at the end of one container. |
| `CfgStore.Store.Detach` | cfg.c:370-429 | Unlinking a node keeps the store valid and removes its tree from one container. |
| `CfgStore.Store.Assign` | cfg.c:303-324 | Another string at one place; nothing else changes. |
| `CfgStore.Store.SetStrPlain` | cfg.c:303-324 | The store after the call is the tree with that field set, or the unchanged tree with the error. |
| `CfgStore.Store.SetElement` | cfg.c:326-368 | The same for an append and for an index from either end. |
| `CfgStore.Store.Create` | cfg.c:791-797 | A missing container is created of the kind the next step needs, and the set goes on in it. |
| `CfgStore.Store.Enter` | cfg.c:768-804 | One step into the store either fails without a change or leads to the child that the path names. |
| `CfgStore.Store.SetTokens` | cfg.c:755-814 | The linked tree after a set, failed or not, stands for what setting the path in the abstract tree gives, with the same error. |
| `CfgStore.Store.SetStr` | cfg.c:755-814 | The same from the text of the path, with the errors of parsing. |
| `CfgStore.Store.DelPlain` | cfg.c:405-429 | The store after the call is the tree without that field, or unchanged with the error. |
| `CfgStore.Store.DelArr` | cfg.c:370-403 | The store after the call is the tree without that element, or unchanged with the error. |
| `CfgStore.Store.Walk` | cfg.c:262-301 | A step of a lookup ends at the child the token names, or with the error that the abstract lookup gives. |
| `CfgStore.Store.Del` | cfg.c:816-864 | The linked tree after a delete stands for the abstract tree after it, with the same error. |
| `CfgStore.Store.GetNode` | cfg.c:719-726 | The node found stands for the subtree that the path names, or the error is the same. |
| `CfgStore.Store.GetStr` | cfg.c:728-740 | The string at the path, EISDIR for a container, or the error of the lookup. |
| `CfgStore.Store.LoadOne` | cfg.c:517-548 | A line changes the linked store as it changes the abstract tree: a remark not at all, a line that writes a string by setting it, in any spelling, and any other line is refused and changes nothing. |
| `CfgStore.Store.LoadFile` | cfg.c:653-689 | The loop over a file does what loading its text into the abstract tree does, up to the first error; so a file of lines in any spellings sets the strings that it writes, in order. |
| `CfgStore.Store.DumpItems` | cfg.c:598-610 | The lines of an array, in order. |
| `CfgStore.Store.Dump` | cfg.c:582-631 | The recursive walk over the linked nodes writes the text of the abstract tree, with its errors. |
| `CfgStore.Reload` | cfg.c:653-717 | A valid store, dumped and loaded into an empty one, is there again without its empty containers if its lines fit, and is itself unchanged. |
| `DesiredTree.ChildOfBuild` | cfg.c:870-872 | What is looked up in an object of distinct fields is what was put there, and nothing where nothing was. |
| `DesiredTree.ReadArr` | yaml.c:85-151 | The loop takes all strings of a list, cut to their arrays, and fails on a list that is too long. |
| `DesiredTree.ReadRoutes` | yaml.c:153-200 | The loop takes the routes in order and fails at the first that is not one, or past the 64th. |
| `DesiredTree.ReadStates` | yaml.c:463-483 | The loop takes the states in order and fails at the first that is not one, or past the 16th. |
| `DesiredTree.BridgeLoads` | yaml.c:202-271 | The bridge section of a state loads as the bridge of the state, for every address mode. |
| `DesiredTree.VlanLoads` | yaml.c:285-323 | The vlan section loads as the vlan of the state. |
| `DesiredTree.WgVxlanLoads` | yaml.c:325-373 | The wg and vxlan sections load as those of the state. |
| `DesiredTree.RoutesLoad` | yaml.c:153-200 | The routes load as the routes of the state, in order. |
| `DesiredTree.LoadStateTree` | yaml.c:375-413 | Every state that has the fields of its scenario and address mode and no others, and fits its arrays, is loaded from its tree as it is. |
| `Strtoul.SpellingRead` | yaml.c:22-40 | A number is read in each of its spellings, decimal, octal or hexadecimal, with white space and a sign before it, if it has at most 32 bits once a minus has wrapped it around at 64. |
| `Strtoul.SpellingOf` | yaml.c:22-40 | And nothing else is read as a number. |
| `DesiredRefusals.BridgeRead` | yaml.c:202-271 | A bridge section is accepted if and only if its fields are texts and short lists, the name is there, and the address, the DHCP command, the gateway and the name servers go with the address mode. |
| `DesiredRefusals.VlanRead` | yaml.c:285-323 | A vlan section is accepted if and only if it has a name and a number and its link and bridge, where given, are those of the state. |
| `DesiredRefusals.TunnelRead` | yaml.c:325-373 | The wg and vxlan sections are accepted if and only if their fields are there, the device of the vxlan, where given, is the tunnel, and its bridge is that of the state. |
| `DesiredRefusals.RoutesRead` | yaml.c:153-200 | Routes are accepted if and only if there are at most 64, each an object with a destination, a device and perhaps a next hop. |
| `DesiredRefusals.StateRead` | yaml.c:375-413 | A tree is loaded as a state if and only if it has what its scenario needs, in these terms and without naming the loader. |
| `DesiredSet.StateText` | uci.c:688-904 | The lines printed for a state are the dump of its tree under its id. |
| `DesiredSet.SetText` | uci.c:906-917 | The lines printed for a set are the dump of one tree that holds all states. |
| `DesiredReload.PrintableReloads` | cfg.c:517-689 | A tree of short keys and strings with no empty container goes through a file as it is. |
| `DesiredReload.StatePrintable` | uci.c:688-904 | The tree of every state that fits its arrays is such a tree. |
| `StateIds.IdText` | uci.c:650-678 | An id starts with a letter or `_`, has only characters of keys, and is as long as the name, or one longer if the name starts with a digit. |
| `StateIds.IdIsKey` | uci.c:643-686 | Every id that is generated is a valid path key of at most 15 characters. |
| `StateIds.IdsCollide` | uci.c:667-672 | `br-a` and `br_a` get the same id. |
| `StateIds.WriteId` | uci.c:643-686 | The loop leaves the id and its NUL in a buffer of any size, and fails with E2BIG exactly where they do not fit. |
| `StateIds.WriteSet` | uci.c:906-917 | The loop prints all states in order under their ids, or fails with the first id that fails. |
| `SetReload.DistinctReload` | uci.c:643-917 | With distinct ids the printed set loads as the tree it was printed from, and that as the same states. |
| `SetReload.CollidingReload` | uci.c:643-917 | With two equal ids, what is loaded, if anything is, has fewer states than were printed. |
| `SetReload.SetReloads` | yaml.c:431-492 | For every set of at most 16 well-formed states that prints: the printed lines load as the same states in the same order if and only if the ids are distinct. The empty set fails with EINVAL. |
| `Verify.JudgeLines` | verify.c:153-175 | Reports without a MISS or with one judge as they should: they count misses, and act only after a miss. |
| `Verify.JudgeState` | verify.c:781-813 | For every supported state and snapshot: the report has no MISS if and only if `Satisfied` holds, a predicate over bridge, addresses, routes, links, vlan and vxlan that names no check; and then it has no command. |
| `Reconciler.Lookup` | state.c:52-63 | The search finds the first interface of that name. |
| `Reconciler.LookupVlan` | state.c:89-99 | The first vlan of that name. |
| `Reconciler.LookupVxlan` | state.c:77-87 | The first vxlan of that name. |
| `Reconciler.HasRoute` | verify.c:60-88 | True exactly if a route with that destination, device and next hop is in the snapshot. |
| `Reconciler.HasAddr` | verify.c:90-107 | True exactly if the address is on the interface. |
| `Reconciler.HasAnyAddr` | verify.c:109-119 | True exactly if some address is on the interface. |
| `Substitution.SubstReplaces` | verify.c:121-151 | For every text and every way to cut it into parts such that `$iface` is at the joints and nowhere else: the result is the parts with the name between them. |
| `Substitution.CutExists` | verify.c:121-151 | Every text has such parts. |
| `Verify.DhcpCommand` | verify.c:305-346 | The command reported for a DHCP bridge without an address is its template with the name of the bridge at every `$iface`. |
| `Reconciler.SubstIface` | verify.c:121-151 | Succeeds exactly if the result fits the buffer, and then leaves it there: the parts of the text between the places of `$iface`, with the name between them. |
| `Reconciler.Context.Act` | verify.c:248-272 | A command is reported in both modes and is run only when repairs are applied; a line that starts with `#` is reported and never run; a DHCP command does to the host what its script does; and a failure of any is remembered. |
| `Reconciler.Context.VerifyBridge` | verify.c:274-303 | Reports what `CheckBridge` says: an interface of another kind under the name is deleted first, a missing bridge is made, and the result is the number of misses. |
| `Reconciler.Context.VerifyAddr` | verify.c:305-346 | Reports what `CheckAddr` says: a static address on the interface, or any address under DHCP, whose command is the template with `$iface` replaced. |
| `Reconciler.Context.VerifyGateway` | verify.c:348-372 | Reports what `CheckGateway` says: a default route over the gateway on the bridge, where a gateway is given. |
| `Reconciler.Context.VerifyDns` | verify.c:374-398 | Reports what `CheckDns` says: one line for each name server; a missing one is noted in a comment, and nothing is run. |
| `Reconciler.Context.VerifyPeerRoute` | verify.c:400-420 | Reports what `CheckWgPeerRoute` says: a host route to the peer over its device. |
| `Reconciler.Context.VerifyRoute` | verify.c:422-460 | Reports what `CheckRoute` says: a route with the destination as it is written, the device and the next hop, replaced if it is missing. |
| `Reconciler.Context.VerifyUp` | verify.c:484-498 | Reports what `CheckUp` says: the interface is there and up; a missing one is a miss without a command. |
| `Reconciler.Context.VerifyMaster` | verify.c:500-518 | Reports what `CheckMaster` says: the index of the bridge is the master of the interface. |
| `Reconciler.Context.VerifyPorts` | verify.c:520-540 | Reports what `CheckPorts` says: every port up and in the bridge, in order, with all misses added up. |
| `Reconciler.Context.VerifyRoutes` | verify.c:462-472 | The loop reports on every route, in order, and adds up the misses. |
| `Reconciler.Context.VerifyVxlan` | verify.c:553-622 | Reports what `CheckVxlan` says: made if missing, and deleted and made anew if its id, remote or device differs; otherwise it is to be up and in its bridge. |
| `Reconciler.Context.VerifyVlan` | verify.c:629-685 | Reports what `CheckVlan` says: made if missing, and deleted and made anew if its id or its link differs; otherwise it is to be up and in its bridge. |
| `Reconciler.Context.VerifyUplinkBridge` | verify.c:703-718 | The parts of this scenario, in their order. |
| `Reconciler.Context.VerifyVlanBridge` | verify.c:720-741 | The parts of this scenario; the master of the uplink is not among them. |
| `Reconciler.Context.VerifyWgVxlanBridge` | verify.c:743-779 | The parts of this scenario: the route to the peer is asked for before the wg interface, and that before the vxlan. |
| `Reconciler.Context.VerifyAll` | verify.c:781-806 | The report of a whole state and its misses; the same list of commands in a dry run. |
| `Kernel.BridgePartDone` | verify.c:274-372 | The commands for the bridge, its address and its gateway, planned on the old snapshot, leave these as desired and none fails, if the next hop of the gateway is there or on-link once the bridge is up with its address; and the networks that are on-link then are at least those named. |
| `Kernel.LinksDone` | verify.c:422-540 | The commands for links and routes, planned on the same old snapshot, leave the whole state satisfied and none fails, if every next hop is on-link when its route is looked at; a route made before it counts. |
| `Tracking.TracksAfter` | verify.c:274-540 | A command that the kernel takes changes the networks that are on-link exactly as `Step` says, brings up no other interface, and adds no route but its own and those that come with addresses. |
| `Tracking.BridgeStage` | verify.c:274-372 | After the commands for bridge, address and gateway, failing or not, the networks that are on-link are exactly those told from the snapshot; the default route is set exactly if its next hop is among them. |
| `Tracking.FirstPart` | verify.c:703-741 | The same after uplink and ports, in every scenario with a bridge. |
| `Tracking.RoutesDone` | verify.c:462-472 | For every kernel so far: the desired routes all end as desired if and only if each is there on the snapshot or has a device that is up and a next hop on-link when it is looked at, those made before it included; and then no command fails. |
| `UplinkPass.OnePassConverges` | verify.c:703-718 | For every `uplink_bridge` whose parts are there or can be made, and every kernel: one pass planned on the old snapshot leads to a kernel whose report has no miss and no command if and only if every device is up and every next hop is on-link by the time that its command comes, which is told from the snapshot; and then no command fails. |
| `UplinkPass.RouteOrderMatters` | verify.c:462-472 | Two routes, the second by way of the first: one pass sets both in that order, and not in the other. |
| `UplinkPass.GatewayComesFirst` | verify.c:708-710 | A gateway whose on-link route is only listed among the routes: one pass leaves it unset. |
| `Kernel.PlannedPassConverges` | verify.c:703-718 | The if half for commands planned on an older snapshot, whatever was done to the kernel since by commands of other bridges and other routes. |
| `VlanPass.VlanDone` | verify.c:629-685 | The commands for a vlan, planned on the old snapshot, make it, or make it anew, as desired; what they delete are the old vlan, its addresses and its routes. |
| `Remake.LastPart` | verify.c:462-472 | The routes end as desired if and only if none that was seen satisfied went with an interface made anew and, on the snapshot without it, every route goes. |
| `Remake.RouteLost` | verify.c:720-741 | A route that was seen satisfied is gone when its interface is made anew, and the pass does not put it back. |
| `Remake.DelDone` | verify.c:645-668 | Deleting an interface that nothing is stacked on takes its addresses, its routes and its place as a master with it, and nothing else. |
| `Remake.DeletedReady` | verify.c:645-668 | The rest of a state stays as desired when its vlan or vxlan is deleted, and what follows is as if planned on the snapshot without it. |
| `VlanPass.VlanPassConverges` | verify.c:720-741 | For every `vlan_bridge` whose parts are there or can be made, and every kernel: one pass leads to a kernel that satisfies the state if and only if the vlan is not made anew under a route that the snapshot shows as satisfied, and every device is up and every next hop is on-link by the time that its command comes; and then no command fails. |
| `VlanPass.VlanRunRepairs` | run.c:94-143 | Undisturbed, one run for such a state returns 0, and leaves it satisfied, if and only if that condition holds. |
| `VlanPass.VlanRouteIsLost` | verify.c:645-668 | A vlan of another id with the desired route over it: after the pass the route is missing. |
| `VxlanPass.PeerDone` | verify.c:397-420 | The route to the peer is there after its command if and only if it was seen or its device is up by then, which is before the WireGuard interface goes up. |
| `VxlanPass.VxlanDone` | verify.c:542-627 | The commands for a vxlan, planned on the old snapshot, make it, or make it anew, as desired. |
| `VxlanPass.MissingWgStaysDown` | verify.c:764-769 | For every kernel: a WireGuard interface that the snapshot does not show is added and not brought up, so the pass leaves the state unsatisfied. |
| `VxlanPass.WgPassConverges` | verify.c:743-779 | For every `wg_vxlan_bridge` whose parts are there or can be made, and every kernel: one pass leads to a kernel that satisfies the state if and only if the snapshot shows the WireGuard interface, no vxlan is made anew under a route that it shows as satisfied, and every device is up and every next hop is on-link by the time that its command comes, the route to the peer included; and then no command fails. |
| `VxlanPass.WgRunRepairs` | run.c:94-143 | Undisturbed, one run for such a state returns 0, and leaves it satisfied, if and only if that condition holds. |
| `VxlanPass.WgIsNotBroughtUp` | verify.c:764-769 | A host that lacks only the WireGuard interface and the vxlan: after the pass the state is not satisfied. |
| `VxlanPass.PeerOverWgFails` | verify.c:759-770 | A host whose WireGuard interface is there and down, with the route to the peer over it: after the pass the state is not satisfied. |
| `KindPass.SameCommands` | verify.c:291-297 | Where nothing hangs on an interface of another kind with the name of the bridge, the commands are its deletion and then those planned on the snapshot without it. |
| `KindPass.LostForGood` | verify.c:291-297 | What is seen satisfied and hangs on that interface - address, route or member - is lost with it, and no command of the pass puts it back. |
| `KindPass.KindPassConverges` | verify.c:274-300 | For every such `uplink_bridge` and kernel: one pass leads to a kernel that satisfies the state if and only if nothing that the state asks for hangs on the old interface on the snapshot - address, gateway, member, or a route that does not come back with the address - and every device is up and every next hop is on-link by the time that its command comes; and then no command fails. |
| `KindPass.KindRunRepairs` | run.c:94-143 | Undisturbed, one run for such a state returns 0, and leaves it satisfied, if and only if that condition holds. |
| `KindPass.DummyIsReplaced` | verify.c:291-297 | A dummy interface named like the bridge is replaced in one pass if and only if the uplink is not a member of it. |
| `Run.VerifyState` | verify.c:781-813 | The result is the number of misses, zero exactly if the state is satisfied; the commands that ran are exactly those of the report, none in a dry run and none if there is no miss; an unknown scenario counts one and leaves `act_fail` alone. |
| `Run.CleanPass` | run.c:53-76 | A pass over a set counts nothing if and only if every state is satisfied on the snapshot, and then changes nothing. |
| `Run.CleanState` | verify.c:781-813 | A state has no miss if and only if it is satisfied, unsupported scenarios included, and then no command. |
| `Run.PassReports` | verify.c:808-810 | After a pass `act_fail` is true exactly if the last supported state has a command that fails, whatever failed before it. |
| `Run.FailureReported` | verify.c:808-810 | For every set and snapshot: `act_fail` tells of a failure wherever one occurs, whichever commands fail, if and only if no supported state comes after a state that has commands to run. |
| `Run.FailureForgotten` | verify.c:808-810 | Two states, the first with a command that fails and the second satisfied: after the pass `act_fail` is false. |
| `Run.Host.Observe` | run.c:34-51 | A snapshot shows the kernel as it is then, and no command has run since; or there is none. |
| `Run.Host.VerifySet` | run.c:53-76 | All states are judged on one snapshot, in order, while their commands already change the kernel; the commands run since the snapshot are exactly the repairs that the snapshot calls for. |
| `Run.Host.RunOnce` | run.c:94-143 | Returns 0 only if the last snapshot satisfies every state and the record of commands run since it is empty, whatever others do between the steps. A dry run that gets a snapshot returns 0 if it satisfies every state and 1 otherwise, and runs nothing. Undisturbed it returns exactly what two passes come to. |
| `Run.CodeTells` | run.c:94-143 | Undisturbed, for every set: a dry run returns 0 if and only if every state is satisfied, and changes nothing; a run that applies returns 0 if and only if no failure is left in `act_fail` and every state is satisfied after it. |
| `Run.OneRunTells` | run.c:94-143 | Undisturbed, a run for one state of any scenario returns 0 if and only if no command fails and the state is satisfied after them. |
| `Run.RunRepairs` | run.c:94-143 | Undisturbed, one run for such an `uplink_bridge` returns 0, and leaves it satisfied, if and only if that condition holds. |
| `PlannedPass.PlannedDone` | verify.c:687-741 | A state of `only_uplink`, of `uplink_bridge`, or of `vlan_bridge` with a vlan that is not made anew is repaired by commands planned on an older snapshot, and none fails, if its next hops are on-link in time. |
| `SetRepairs.StateBelongs` | verify.c:703-741 | Every command for a state of these scenarios makes its own bridge or vlan, takes its own members into it, adds an address to it or replaces a route of its own that the snapshot does not show; to any other interface all it does is bring it up. |
| `SetRepairs.StateRepaired` | verify.c:687-741 | Such a state is repaired by commands planned on the snapshot, even after the commands of other states were run, if they were about other names and other destinations; routes that those states made can carry its next hops. |
| `SetRepairs.SatisfiedStays` | verify.c:687-741 | And it stays satisfied while such commands run. |
| `SetRepairs.RunRepairsAll` | run.c:94-143 | Undisturbed, one run repairs every set of such states, of the three scenarios in any mix, that share no interface and no destination and whose next hops are on-link in time, and returns 0. |
| `Commands.StartsAreAll` | verify.c:177-199 | Every maximal run of non-blank characters has its start among the arguments. |
| `Commands.StartsInOrder` | verify.c:177-199 | And they are in the order of the text, none twice. |
| `Commands.CutGivesRun` | verify.c:177-199 | Once the blanks are NUL, the C string at a start is exactly the run. |
| `Commands.CmdSplit` | verify.c:177-199 | In place, in the buffer: the arguments are exactly the maximal non-blank runs, and it fails exactly if there are as many as the limit or more. |
| `Commands.RenderFits` | verify.c:248-258 | No command is longer than the buffer it is printed into, given the sizes of the fields. |
| `CommandWords.SplitSpaced` | verify.c:177-199 | Words with spaces between them are split into exactly these words. |
| `CommandWords.CommandSplits` | verify.c:201-224 | For every command whose names and addresses are words: what it is split into to be run is its list of words, and they fit the vector. |
| `CommandWords.SameText` | verify.c:248-258 | Two such commands with the same text are the same command. |
| `Commands.CommandsAreWhole` | state.h:46-86 | So for every state and every snapshot, every command of a pass is run whole. |
| `Watch.EveryRunKeepsInv` | watch.c:235-323 | Every step of the loop, of a callback or of a stop request, in any order, keeps the invariant of the protocol. |
| `Watch.WatchIsSafe` | watch.c:55-323 | In every interleaving: the loop never sleeps on an empty pipe with an event unserved, runs never exceed wakes, a run starts only after a quiet debounce poll, and at most one starts after a stop. |
| `Watch.StoppedLoopEnds` | watch.c:235-323 | After a stop every step of the loop brings it nearer to its end. |
| `Watch.StoppedLoopFinishes` | watch.c:235-323 | And it gets there by steps of its own, unless it is asleep with nothing in the pipe. |
| `Watch.UnservedNearer` | watch.c:235-323 | While an event is unserved and no stop is asked for, every step of the loop but a failing or an idle poll starts a run or brings one nearer. |
| `Watch.UnservedIsServed` | watch.c:235-323 | From every reachable state with an unserved event the loop gets to a run by steps of its own, in a bounded number. |
| `Watch.FirstRunIsMade` | watch.c:272-323 | From the start, whatever callbacks do, as long as no stop comes and no poll fails: until the first run the loop is not asleep on an empty pipe, and gets to that run by its own steps in a bounded number. |
| `Watch.StopIsKept` | watch.c:227-243 | A stop is forgotten exactly if it came before the flag is cleared. |
| `Watch.ClearedOnce` | watch.c:243 | The flag is cleared once. |
| `Numerals.ValueOfDecimal` | deps/libyaml/src/dumper.c:248-257 | Decimal numerals read back as the numbers they were printed for. |
| `Traversal.AnchorNameInjective` | deps/libyaml/src/dumper.c:244-257 | Different anchor ids have different names, however long. |
| `Traversal.OrderIsFresh` | deps/libyaml/src/dumper.c:264-294 | Every node that is reached is written in full exactly once, shared or on a cycle. |
| `Traversal.OrderIsReachable` | deps/libyaml/src/dumper.c:264-294 | Only what can be reached from the root is written. |
| `Dumper.GraphDumper.AnchorNode` | deps/libyaml/src/dumper.c:207-238 | The references counted and those still to come add up to the same; an id is given at the second reference, each once. |
| `Dumper.GraphDumper.AnchorItems` | deps/libyaml/src/dumper.c:217-222 | The loop over the items of a sequence keeps that sum. |
| `Dumper.GraphDumper.AnchorPairs` | deps/libyaml/src/dumper.c:223-230 | So does the loop over the pairs of a mapping, keys before values. |
| `Dumper.GraphDumper.AssignAnchors` | deps/libyaml/src/dumper.c:112-160 | Afterwards a node has an anchor exactly if it is referred to more than once, and no two have the same. |
| `Dumper.GraphDumper.DumpNode` | deps/libyaml/src/dumper.c:264-294 | The events so far and those still to come stay the same sequence: a node met again is an alias, any other is written in full. |
| `Dumper.GraphDumper.DumpScalar` | deps/libyaml/src/dumper.c:316-332 | The event of a scalar, implicit exactly if its tag is the default. |
| `Dumper.GraphDumper.DumpSequence` | deps/libyaml/src/dumper.c:339-362 | A sequence with its items, between its two events. |
| `Dumper.GraphDumper.DumpMapping` | deps/libyaml/src/dumper.c:369-393 | A mapping with its keys and values, between its two events. |
| `Dumper.GraphDumper.OpenStream` | deps/libyaml/src/dumper.c:62-79 | The start of the stream is sent once. |
| `Dumper.GraphDumper.CloseStream` | deps/libyaml/src/dumper.c:86-105 | And its end, unless it was sent before. |
| `Dumper.GraphDumper.Dump` | deps/libyaml/src/dumper.c:112-160 | For every graph with ids in range, the empty one included: the recursion ends, the stream is opened where it is not, an empty document closes it, and any other is sent as the events of the traversal between its two events. |
| `Loader.ExtendNode` | deps/libyaml/src/loader.c:299-344 | An item goes to the end of a sequence; in a mapping it completes the open pair or opens one. |
| `Loader.Composer.constructor` | deps/libyaml/src/loader.c:185-210 | Nothing is loaded yet. |
| `Loader.Composer.RegisterAnchor` | deps/libyaml/src/loader.c:264-292 | An anchor is known by its index from then on; one that is known already is an error. |
| `Loader.Composer.LoadNodeAdd` | deps/libyaml/src/loader.c:299-344 | The node becomes the next child of the innermost open collection, and the impossible cases do not occur. |
| `Loader.Composer.LoadAlias` | deps/libyaml/src/loader.c:351-368 | An alias adds the node that its anchor names, or is an error. |
| `Loader.Composer.LoadScalar` | deps/libyaml/src/loader.c:375-408 | A scalar becomes a node, with the tag `tag:yaml.org,2002:str` where it has none or `!`, as `Compose.NodeAdded` says of `LoadEvent`. |
| `Loader.Composer.LoadSequence` | deps/libyaml/src/loader.c:415-459 | A sequence becomes a node and the innermost open collection, with the tag `tag:yaml.org,2002:seq` where it has none or `!`. |
| `Loader.Composer.LoadMapping` | deps/libyaml/src/loader.c:483-527 | So does a mapping, with the tag `tag:yaml.org,2002:map`. |
| `Loader.Composer.LoadSequenceEnd` | deps/libyaml/src/loader.c:462-476 | The innermost sequence is closed. |
| `Loader.Composer.LoadMappingEnd` | deps/libyaml/src/loader.c:530-544 | The innermost mapping is closed. |
| `Loader.Composer.LoadNodes` | deps/libyaml/src/loader.c:217-257 | The event loop does what the events say one after the other, up to the end of the document or the first error. |
| `Compose.NodeAdded` | deps/libyaml/src/loader.c:375-527 | For every event that announces a node: the node has the kind, the value, the style and the tag of the event, or `tag:yaml.org,2002:str`, `seq` or `map` where it has none or `!`; its anchor has its number, and its parent an edge to it. |
| `Compose.DocumentComposes` | deps/libyaml/src/loader.c:217-544 | Every document that loads is the table of its nodes in the order in which they are announced, with edges to the nodes below them, where an alias leads to the node that has the name for its anchor. |
| `DumpLoad.LoadAfterDump` | deps/libyaml/src/dumper.c:207-393 | For every graph, cyclic or shared: the dumper's events load without error, and the nodes loaded are those reached, renumbered in the order of their first visit. |
| `DumpLoad.RebuiltIsIsomorphic` | deps/libyaml/src/loader.c:217-544 | Such nodes form a graph isomorphic to the part reachable from the root. |
| `DumpLoad.TagsSurvive` | deps/libyaml/src/loader.c:384-388 | The tags survive the round trip if and only if no reachable node has the tag `!`. |
| `DumpLoad.BangIsLost` | deps/libyaml/src/loader.c:384-388 | A document of one scalar with the tag `!` comes back with the default tag, and so not as it was. |
| `DumpLoad.DumpThenLoad` | deps/libyaml/src/loader.c:217-257 | The two programs, one fed to the other, rebuild a graph isomorphic to the reachable part, whatever the document event says. |
| `EventGrammar.AcceptedIffStream` | deps/libyaml/src/parser.c:233-311 | The acceptor of events ends exactly on streams of documents: balanced collections and as many values as keys. |
| `EventGrammar.AcceptedIffPrefix` | deps/libyaml/src/parser.c:233-311 | And it is alive exactly on the beginnings of streams. |
| `Parser.EventParser.ProcessDirectives` | deps/libyaml/src/parser.c:1241-1347 | The directives are read up to the first token that is none; one version of 1.1 or 1.2, each handle once, and the two default handles afterwards; the version and the tag directives of the event are those of the tokens. |
| `Parser.EventParser.AppendTagDirective` | deps/libyaml/src/parser.c:1354-1386 | A handle that is there already is an error or is skipped; a new one goes to the end. |
| `Parser.EventParser.ParseProperties` | deps/libyaml/src/parser.c:536-600 | The anchor and the tag in either order, and where the content starts. |
| `Parser.EventParser.ResolveTag` | deps/libyaml/src/parser.c:602-640 | The prefix of the first directive with the handle, and the suffix; an unknown handle is an error. |
| `Parser.EventParser.ParseStreamStart` | deps/libyaml/src/parser.c:320-338 | The first token has to start the stream, and its event does. |
| `Parser.EventParser.ParseDocumentStart` | deps/libyaml/src/parser.c:349-438 | A document starts bare, or with directives and a marker; the end of the stream ends it; anything else fails. An implicit start is possible only for the first document. |
| `Parser.EventParser.ParseDocumentContent` | deps/libyaml/src/parser.c:447-466 | A marker or the end where a root should be gives an empty scalar and goes back to the stack. |
| `Parser.EventParser.ParseDocumentEnd` | deps/libyaml/src/parser.c:477-504 | The document ends, explicitly exactly if a marker is there, and its tag directives go. |
| `Parser.EventParser.ParseNode` | deps/libyaml/src/parser.c:536-724 | An alias, a scalar or the start of a collection with its properties; only properties make an empty scalar, and where nothing fits it fails. |
| `Parser.EventParser.ParseBlockSequenceEntry` | deps/libyaml/src/parser.c:733-782 | Past the opening token, which leaves a mark: an entry, empty where its node is missing, or the end, which takes the mark away. |
| `Parser.EventParser.ParseIndentlessSequenceEntry` | deps/libyaml/src/parser.c:791-826 | An entry, or the end at any other token, which is left where it is. |
| `Parser.EventParser.ParseBlockMappingKey` | deps/libyaml/src/parser.c:841-891 | A key, empty where its node is missing, or the end; a value without a key fails. |
| `Parser.EventParser.ParseBlockMappingValue` | deps/libyaml/src/parser.c:906-939 | The value after its token, or an empty one without it. |
| `Parser.EventParser.ParseFlowSequenceEntry` | deps/libyaml/src/parser.c:956-1008 | After the first entry a comma is needed; a key token opens a mapping of one pair inside the sequence. |
| `Parser.EventParser.ParseFlowSequenceEntryMappingKey` | deps/libyaml/src/parser.c:1017-1043 | The key of such a pair; where it is missing, the token that shows it is passed over unless it ends the sequence. |
| `Parser.EventParser.ParseFlowSequenceEntryMappingValue` | deps/libyaml/src/parser.c:1052-1074 | The value of such a pair, or an empty one. |
| `Parser.EventParser.ParseFlowSequenceEntryMappingEnd` | deps/libyaml/src/parser.c:1083-1095 | The pair ends without a token, and the sequence goes on. |
| `Parser.EventParser.ParseFlowMappingKey` | deps/libyaml/src/parser.c:1112-1173 | After the first pair a comma is needed; a key with its token, or a node that is a key without a value. |
| `Parser.EventParser.ParseFlowMappingValue` | deps/libyaml/src/parser.c:1182-1211 | The value after its token, or an empty one; always empty after a key without a token. |
| `Parser.EventParser.Step` | deps/libyaml/src/parser.c:233-311 | Every event is allowed next, progress is made towards the end of the tokens, and the step is the move of the state machine. |
| `Parser.ParseAll` | deps/libyaml/src/parser.c:178-197 | For every token sequence: it ends after at most four events a token, the events are the beginning of a stream, or a stream if it succeeds, each carries what its tokens said with none lost or reordered, and it fails only where there is no move. |
| `ParserMoves.YieldsUnique` | deps/libyaml/src/parser.c:233-311 | The tokens determine the events: two complete runs give the same. |
| `TokenParse.NodeParses` | deps/libyaml/src/parser.c:536-724 | Every node of the token grammar, wherever it may stand and with anything allowed after it, is read as its events and leaves the stack as it was. |
| `TokenParse.DocParses` | deps/libyaml/src/parser.c:349-504 | Every document, with or without directives and markers, is read as its events. |
| `TokenParse.StreamParses` | deps/libyaml/src/parser.c:320-504 | Every stream of the token grammar is read to its end, as the events it stands for. |
| `TokenSplit.NodeSplit` | deps/libyaml/src/parser.c:536-724 | In a run that gets to the end, what a node was read from is a node of the token grammar, and the events are its events. |
| `TokenSplit.DocSplit` | deps/libyaml/src/parser.c:349-504 | The same for a document. |
| `TokenSplit.StreamSplit` | deps/libyaml/src/parser.c:320-504 | What was read to the end is a stream of the token grammar, and the events are those it stands for. |
| `TokenSplit.AcceptedIffGrammar` | deps/libyaml/src/parser.c:320-1211 | The parser accepts exactly the token sequences that the grammar has a tree for. |
| `ParseStream.ParseStream` | deps/libyaml/src/parser.c:178-1211 | Parsing succeeds if and only if the tokens are in the grammar, and gives the events of every tree they can be read as. |
| `LoadStream.EventsOfTree` | deps/libyaml/src/parser.c:536-724 | The events of every syntax tree, written out: a missing node is an empty plain scalar whose tag may be left out; a scalar without a tag may go without it in its own style, one with `!` in the plain style, and any other in none. |
| `LoadStream.LoadDocuments` | deps/libyaml/src/loader.c:84-127 | The documents of a stream are loaded one after the other, up to the first that cannot be. |
| `LoadStream.LoadTokens` | deps/libyaml/src/loader.c:84-127 | Parsing and loading together: for every stream of the token grammar the documents are the node tables of its syntax trees, in order, up to the first with an anchor defined twice or an alias before its anchor; any other stream is not read to its end. |
| `HeaderGrammar.SameTokens` | deps/libyaml/src/parser.c:3-40 | A regular tree of the grammar in the header whose tags have known handles stands for the same tokens as a tree of the grammar that the parser reads. |
| `HeaderParse.NodeJams` | deps/libyaml/src/parser.c:536-724 | A node of the grammar in the header that is not regular, or has a tag of a handle that no directive gives, stops the parser, wherever it may stand and whatever may follow it. |
| `HeaderParse.AcceptedIffRegular` | deps/libyaml/src/parser.c:3-40 | For every stream of the grammar in the header, by any of its derivations: the parser accepts it if and only if every VALUE in a block mapping follows a KEY, and every pair of a flow sequence without a key has no value node and has its VALUE token or is the last entry, and no document has a second VERSION-DIRECTIVE, one that is not 1.1 or 1.2, the same handle twice, or a tag of an unknown handle; and then it gives the events of that derivation, with pairs joined. |
| `HeaderParse.UnknownHandleFails` | deps/libyaml/src/parser.c:601-633 | A scalar with a tag of the handle `!x!`, which no directive gives, is in the grammar of the header, and is refused. |
| `HeaderParse.TwoVersionsFail` | deps/libyaml/src/parser.c:1269-1273 | So is a document with two VERSION-DIRECTIVEs. |
| `HeaderParse.PairWithoutKeyFails` | deps/libyaml/src/parser.c:1037-1042 | `[? : x]` is in the grammar of the header, and is refused. |
| `HeaderParse.KeyAloneFails` | deps/libyaml/src/parser.c:1037-1042 | So is `[? , a]`, where the comma is passed over with the missing key. |
| `HeaderParse.ValueWithoutKeyFails` | deps/libyaml/src/parser.c:841-891 | And a block mapping that starts with VALUE. |
| `Tags.ReadAfterShortened` | deps/libyaml/src/emitter.c:1476-1512 | A tag that is shortened by the first directive whose prefix it has, or is left whole, reads back as the same tag by the directives of the document. |
| `Emitter.EventEmitter.AnalyzeAnchor` | deps/libyaml/src/emitter.c:1440-1468 | The loop accepts exactly the names that are not empty and have only letters, digits, `_` and `-`. |
| `Emitter.EventEmitter.AnalyzeTag` | deps/libyaml/src/emitter.c:1476-1512 | Exactly the empty tag is refused; of any other the handle and the suffix kept read back as the tag. |
| `Emitter.EventEmitter.AnalyzeEvent` | deps/libyaml/src/emitter.c:1719-1800 | An event is refused exactly for a bad anchor, or for an empty tag that would have to be written; otherwise what is kept of its tag is what will be written. |
| `Emitter.EventEmitter.AnalyzeVersion` | deps/libyaml/src/emitter.c:1370-1382 | Exactly the versions 1.1 and 1.2 are accepted. |
| `Emitter.EventEmitter.AnalyzeTagDirective` | deps/libyaml/src/emitter.c:1389-1433 | Accepts exactly a handle that starts and ends with `!` and has only letters, digits, `_` and `-` between, with a prefix that is not empty. |
| `Emitter.EventEmitter.AppendTagDirective` | deps/libyaml/src/emitter.c:382-414 | A handle that is there already is an error or is skipped; a new one goes to the end. |
| `Emitter.EventEmitter.AppendDirectives` | deps/libyaml/src/emitter.c:570-625 | The directives of a document are taken exactly if the version and each of them are good and no handle is there twice; then the two defaults are added, and the tags written can be read by them. |
| `Emitter.EventEmitter.IncreaseIndent` | deps/libyaml/src/emitter.c:421-435 | The old indent is saved; the new one is deeper by one step, or starts at the margin. |
| `Emitter.EventEmitter.EmitStreamStart` | deps/libyaml/src/emitter.c:513-563 | Anything but the start of the stream is refused, and the indent starts at the margin. |
| `Emitter.EventEmitter.EmitDocumentStart` | deps/libyaml/src/emitter.c:570-702 | A document starts, unless its directives are not good, or the stream ends; anything else is refused. |
| `Emitter.EventEmitter.EmitDocumentContent` | deps/libyaml/src/emitter.c:709-716 | The root, to be followed by the end of the document. |
| `Emitter.EventEmitter.EmitDocumentEnd` | deps/libyaml/src/emitter.c:723-756 | The document ends, and its tag directives go with it. |
| `Emitter.EventEmitter.EmitFlowSequenceItem` | deps/libyaml/src/emitter.c:764-806 | The first item opens a level of flow and of indent, the end closes both, and items are flow nodes. |
| `Emitter.EventEmitter.EmitFlowMappingKey` | deps/libyaml/src/emitter.c:813-869 | The same for pairs: a key, simple or not, or the end. |
| `Emitter.EventEmitter.EmitFlowMappingValue` | deps/libyaml/src/emitter.c:876-894 | The value after either kind of key, and then the next key. |
| `Emitter.EventEmitter.EmitBlockSequenceItem` | deps/libyaml/src/emitter.c:901-928 | The first item opens a level of indent, unless the sequence is indentless, and the end closes it. |
| `Emitter.EventEmitter.EmitBlockMappingKey` | deps/libyaml/src/emitter.c:935-973 | The same for pairs: a key, simple or not, or the end. |
| `Emitter.EventEmitter.EmitBlockMappingValue` | deps/libyaml/src/emitter.c:980-998 | The value after either kind of key, and then the next key. |
| `Emitter.EventEmitter.EmitAlias` | deps/libyaml/src/emitter.c:1040-1049 | An alias is a whole node: the machine returns to the state on the stack. |
| `Emitter.EventEmitter.EmitScalar` | deps/libyaml/src/emitter.c:1056-1072 | So is a scalar, which is refused exactly if it has neither a tag that is written nor a flag that lets it go without; the indent opened for it is closed again. |
| `Emitter.EventEmitter.EmitStart` | deps/libyaml/src/emitter.c:1079-1120 | A collection starts in flow style exactly inside flow, in canonical form, on demand, or if it is empty. |
| `Emitter.EventEmitter.EmitNode` | deps/libyaml/src/emitter.c:1005-1033 | Exactly aliases, scalars and starts of collections are nodes; inside a flow collection nothing is in block style. |
| `Emitter.EventEmitter.Step` | deps/libyaml/src/emitter.c:442-506 | The state machine refuses an event exactly if the grammar does, or for its directives, or for the flags of a scalar; otherwise its stacks, indents and flow level are those of the move. |
| `Emitter.EventEmitter.NeedMoreEvents` | deps/libyaml/src/emitter.c:327-375 | More events are awaited exactly while what the first one opens is not closed and too few are there to look ahead. |
| `Emitter.EventEmitter.Emit` | deps/libyaml/src/emitter.c:299-315 | Events are taken in order until more are needed, or one is refused by the grammar or for its data; the first such one is. |
| `Emitter.EmitAll` | deps/libyaml/src/emitter.c:299-506 | For every sequence of events: one is refused if and only if the grammar refuses it or its anchor, tag, flags or directives do, and none before it, for every indent; after a whole stream nothing is held back and all stacks are empty. |
| `Emitter.NothingHeldBack` | deps/libyaml/src/emitter.c:327-375 | At the end of a stream the queue is empty. |
| `EmitterRuns.TreeRestores` | deps/libyaml/src/emitter.c:764-1120 | Whatever the styles decided on the way, the events of a node take the machine back to where it was: states, indents and their stack, flow level and directives; only the state goes on. |
| `EmitterRuns.StreamRestores` | deps/libyaml/src/emitter.c:442-506 | And the events of a stream take it from its first state to its last with empty stacks. |
| `EmitPipeline.YieldsAnalyzed` | deps/libyaml/src/parser.c:536-724 | Every event that the parser makes of tokens with good names and tags is one the emitter accepts for its data. |
| `EmitPipeline.ParseThenEmit` | deps/libyaml/src/emitter.c:299-506 | For every token sequence whose anchors, tags and directives are as the scanner makes them, the emitter takes all events of the parser; for any other that is parsed, exactly if the data of its events are good. Nothing of a stream is held back. |
| `Pipeline.LoadsExactly` | deps/libyaml/src/loader.c:217-344 | On the events of a document the loader fails exactly for an anchor defined twice or an alias of none, and its stack follows the grammar. |
| `Pipeline.DocumentLoads` | deps/libyaml/src/loader.c:217-544 | Every document loads with all pairs complete, or fails for an anchor. Its nodes are the ones that its events announce, in order, each with the kind, the value, the style and the tag of its event, or the tag of its kind where the event has none or `!`. |
| `Pipeline.DumpIsDocument` | deps/libyaml/src/dumper.c:112-160 | What the dumper makes of any graph is one document of the event grammar, with the document event it was given. |
| `EmitPipeline.DumpAnalyzed` | deps/libyaml/src/dumper.c:207-393 | The events of a dump are all accepted for their data if and only if the directives of the document are good and no reachable node has an empty tag. |
| `EmitPipeline.DumpThenEmit` | deps/libyaml/src/dumper.c:112-160 | For every graph the emitter takes the whole dump if and only if the directives are good and no reachable node has an empty tag, and then holds back nothing. |
| `EmitPipeline.EmptyTagRefused` | deps/libyaml/src/emitter.c:1486-1489 | A graph of one scalar with an empty tag is well formed and not `Dumpable`, so `DumpThenEmit` does not succeed on it. |
| `EmitPipeline.BareScalarRefused` | deps/libyaml/src/emitter.c:1221-1225 | A stream of one scalar without a tag and without either flag is in the grammar of events and not `AllAnalyzed`, so `EmitAll` refuses it. |
| `Queue.Queue.constructor` | deps/libyaml/src/yaml_private.h:456-462 | An empty queue. |
| `Queue.Queue.Extend` | deps/libyaml/src/api.c:142-169 | The contents stay the same and there is room at the end, whether the buffer was doubled or the queue moved to its beginning. |
| `Queue.Queue.Enqueue` | deps/libyaml/src/yaml_private.h:471-478 | One more at the end. |
| `Queue.Queue.Dequeue` | deps/libyaml/src/yaml_private.h:480-481 | The first is taken. |
| `Queue.Queue.Insert` | deps/libyaml/src/yaml_private.h:483-493 | One more at any place, the others in their order. |
| `Scanner.KeysAfterInsert` | deps/libyaml/src/scanner.c:1702-1777 | A token put in behind all that possible keys name leaves each key naming the token it was saved for. |
| `Scanner.KeysAfterSave` | deps/libyaml/src/scanner.c:1104-1134 | A key saved for the next token comes after all others. |
| `Scanner.KeysAfterTake` | deps/libyaml/src/scanner.c:807-860 | Taking a token that no possible key names keeps every possible key in the queue. |
| `Scanner.Scanner.StaleSimpleKeys` | deps/libyaml/src/scanner.c:1063-1096 | Exactly the keys of an earlier line or more than 1024 characters back go; it fails exactly if one of them was required. |
| `Scanner.Scanner.RemoveSimpleKey` | deps/libyaml/src/scanner.c:1141-1161 | The key of the open level goes, unless it was required. |
| `Scanner.Scanner.SaveSimpleKey` | deps/libyaml/src/scanner.c:1104-1134 | A key is saved for the token to come exactly if one is allowed; the old one must not have been required. |
| `Scanner.Scanner.IncreaseFlowLevel` | deps/libyaml/src/scanner.c:1168-1193 | One level more with no key, unless the nesting is too deep. |
| `Scanner.Scanner.DecreaseFlowLevel` | deps/libyaml/src/scanner.c:1200-1208 | One level less, if there is one. |
| `Scanner.Scanner.RollIndent` | deps/libyaml/src/scanner.c:1218-1267 | A deeper column opens a level and its token goes to the end or to a place that is queued; nothing happens in flow context, and too deep a nesting fails. |
| `Scanner.Scanner.UnrollIndent` | deps/libyaml/src/scanner.c:1277-1303 | Every level deeper than the column ends with a token, from the innermost out. |
| `Scanner.Scanner.FetchStreamStart` | deps/libyaml/src/scanner.c:1310-1341 | The first token, a level without a key, and keys allowed. |
| `Scanner.Scanner.FetchMarker` | deps/libyaml/src/scanner.c:1348-1460 | A directive, a document marker or the end of the stream: all block levels end before it, and the key goes. |
| `Scanner.Scanner.FetchFlowStart` | deps/libyaml/src/scanner.c:1467-1503 | The bracket may itself start a key; one level of flow more, with no key yet, and too deep a nesting fails. |
| `Scanner.Scanner.FetchFlowEnd` | deps/libyaml/src/scanner.c:1510-1546 | The key inside goes, and the level with it. |
| `Scanner.Scanner.FetchFlowEntry` | deps/libyaml/src/scanner.c:1553-1581 | A comma ends the key before it and allows one after it. |
| `Scanner.Scanner.FetchBlock` | deps/libyaml/src/scanner.c:1588-1695 | A dash or a question mark may open a block level at its column, where it is allowed, and fails where it is not. |
| `Scanner.Scanner.FetchContent` | deps/libyaml/src/scanner.c:1784-1931 | An anchor, a tag or a scalar may start a key, but for a block scalar. |
| `Scanner.Scanner.FetchSimpleValue` | deps/libyaml/src/scanner.c:1702-1745 | The key names a token that is still queued, the one it was saved for; KEY goes right before it, and BLOCK-MAPPING-START before that where a level opens, as `ScanOrder.KeyBeforeItsToken` says of `ValueMade`. |
| `Scanner.Scanner.FetchValue` | deps/libyaml/src/scanner.c:1702-1777 | A value with or without a simple key before it. |
| `Scanner.Scanner.FetchNextToken` | deps/libyaml/src/scanner.c:867-1055 | One lexeme: stale keys go, levels end, and its tokens come. |
| `Scanner.Scanner.NeedMore` | deps/libyaml/src/scanner.c:807-860 | The parser has to wait exactly if nothing is queued or a possible key names the head of the queue. |
| `Scanner.Scanner.FetchMoreTokens` | deps/libyaml/src/scanner.c:807-860 | When it returns there is a token that no key can go before any more. |
| `Scanner.Scanner.Scan` | deps/libyaml/src/scanner.c:749-782 | The parser takes the head of the queue. |
| `ScannerMoves.FetchedSame` | deps/libyaml/src/scanner.c:807-860 | Removing stale keys early makes no difference to what is read next. |
| `ScannerMoves.OverdueStays` | deps/libyaml/src/scanner.c:1063-1096 | A required key that is missed is missed for good: the next lexeme fails. |
| `ScanOrder.KeyBeforeItsToken` | deps/libyaml/src/scanner.c:1702-1745 | A colon that finds a simple key puts KEY right before the token that was saved, BLOCK-MAPPING-START before KEY if and only if the key is deeper than the open block, and VALUE at the end; all other tokens stay as they are. |
| `ScanOrder.ScannedOrderly` | deps/libyaml/src/scanner.c:866-1938 | Whatever is read: BLOCK-MAPPING-START is followed by KEY or VALUE, BLOCK-SEQUENCE-START by BLOCK-ENTRY, and what may still be a simple key is a node or the start of a flow collection. |
| `FlatPages.FlatUnit` | deps/libyaml/src/scanner.c:1467-1578 | For every word or flow collection, with anchors and tags before it and simple and explicit keys in it: the scanner makes its tokens, and saves it as a key where one is allowed. |
| `BlockPages.SimpleColonRead` | deps/libyaml/src/scanner.c:1702-1745 | A simple key on one line with its colon, within 1024 characters: the start of the mapping, where it opens, and KEY come before the tokens of the key, and VALUE after them. |
| `BlockPages.BlockRead` | deps/libyaml/src/scanner.c:866-1938 | For every node laid out in columns, block sequences and mappings nested at growing columns, indentless sequences, simple and explicit keys, and flow collections anywhere: the scanner makes its tokens, with BLOCK-END for each level once the next lexeme ends it. |
| `PageScan.PagesScan` | deps/libyaml/src/scanner.c:866-1938 | For every stream of documents laid out so, with directives and markers, the scanner reads all of it, and makes the tokens that the layout shows. |
| `PageScan.TreesScan` | deps/libyaml/src/scanner.c:866-1938 | For every stream of syntax trees laid out so, these are the kinds of the tokens of the trees, which the parser accepts. |
| `Scanner.ScanAll` | deps/libyaml/src/scanner.c:749-860 | In every run: every insertion is within the queue, no block collection is ended that was not begun, each that is begun goes on with its first entry, and it ends. The tokens taken are the beginning of what reading the same lexemes in one go makes, and all of it for a text whose last lexeme is its end. It fails only where reading them in one go fails at the next lexeme, or where there is none and a token or the fate of a key is waited for. A stream that is laid out on pages is taken to its end, as the tokens that the pages show. |
| `Utf8.DecodeIsStandard` | deps/libyaml/src/reader.c:202-312 | A sequence is accepted exactly if it is well formed by the table in section 4 of RFC 3629 and its character is allowed, and decodes as that character. |
| `Utf8.RangesAgree` | deps/libyaml/src/reader.c:280-300 | The tests on width, surrogates and range are together the table of RFC 3629. |
| `Utf8.EncodeScalar` | deps/libyaml/src/reader.c:425-450 | A well-formed sequence is the encoding of its character. |
| `Utf8.ScalarEncode` | deps/libyaml/src/reader.c:425-450 | And every scalar value has one. |
| `Reader.Reader.constructor` | deps/libyaml/src/reader.c:142-160 | Nothing is read yet. |
| `Reader.Reader.UpdateRaw` | deps/libyaml/src/reader.c:94-132 | Whatever part of the source is given, nothing is lost between the source and the raw buffer, and there is more or the end. |
| `Reader.Reader.DetermineEncoding` | deps/libyaml/src/reader.c:51-87 | The byte order mark of UTF-8 is passed over; a mark of UTF-16 is recognised. |
| `Reader.Reader.DecodeOne` | deps/libyaml/src/reader.c:215-300 | The loop over the octets of a character decodes what the standard says. |
| `Reader.Reader.MoveOne` | deps/libyaml/src/reader.c:420-455 | A character goes to the working buffer as it is, which has room for it. |
| `Reader.Reader.DecodeRaw` | deps/libyaml/src/reader.c:190-455 | All whole characters are moved; it fails only on a text that is not valid. |
| `Reader.Reader.UpdateBuffer` | deps/libyaml/src/reader.c:142-469 | As many characters as asked for are there, or all to the end; nothing that was delivered changes. |
| `Reader.ReadAll` | deps/libyaml/src/reader.c:51-469 | For every input, every way it is split, and every sequence of requests and of characters taken between them: reading succeeds if and only if the input is valid UTF-8 of allowed characters, and delivers it without its byte order mark, and one NUL. |
| `DoubleQuoted.EscapeReads` | deps/libyaml/src/scanner.c:3043-3409 | Every escape that the emitter writes, named or with two, four or eight digits, is scanned as the character it was written for. |
| `DoubleQuoted.NameReads` | deps/libyaml/src/scanner.c:3143-3222 | Each of the 18 escapes of a single letter is scanned as its code point in UTF-8, also the tab, the space and the slash, which are never written. |
| `DoubleQuoted.OnlyNames` | deps/libyaml/src/scanner.c:3143-3222 | And no other letter is such an escape. |
| `DoubleQuoted.ReadAfterWrite` | deps/libyaml/src/emitter.c:2069-2222 | For every UTF-8 text: what is written double-quoted is scanned as the same octets, and the scan stops right after the quote. |
| `DoubleQuoted.WriteDoubleQuoted` | deps/libyaml/src/emitter.c:2069-2222 | The loop writes exactly that, between quotes. |
| `DoubleQuoted.ScanEscape` | deps/libyaml/src/scanner.c:3130-3312 | A named escape, or a loop over two, four or eight hexadecimal digits whose value has to be a character. |
| `DoubleQuoted.ScanPiece` | deps/libyaml/src/scanner.c:3103-3312 | An escape or a character is read, or is an error. |
| `DoubleQuoted.ScanWord` | deps/libyaml/src/scanner.c:3095-3314 | The loop over what is not blank. |
| `DoubleQuoted.ScanBlanks` | deps/libyaml/src/scanner.c:3316-3365 | The loop over blanks. |
| `DoubleQuoted.ScanDoubleQuoted` | deps/libyaml/src/scanner.c:3043-3409 | The loops read what the grammar of double-quoted scalars on one line says. |
| `DoubleQuoted.WriteThenScan` | deps/libyaml/src/scanner.c:3043-3409 | The two programs, one fed to the other, give back every text. |

## Left out

- Memory: allocation succeeds, nothing is freed, and the limits of `INT_MAX` on stacks are not reached. The limit on nesting in the scanner is modelled.
- Marks and error texts of the parser, the loader and the emitter: the marks are counted on their stack, and errors are told apart only where a caller can.
- The characters that make a lexeme, and their positions: the scanner is modelled from lexemes on, with the positions as parameters.
- PageScan.PagesScan: for layouts in which every pair has a key, before its colon or after a question mark, because the parser refuses a VALUE without a KEY; what is made of any other lexemes is left to `ScanOrder.ScannedOrderly`.
- Scanner.ScanAll: the kinds of tokens only; what an anchor, a tag or a scalar says is not carried. It compares with reading in one go for positions that go forward.
- The text that the emitter writes, apart from double-quoted scalars, and its choice of a style for a scalar. Whether a key is simple and whether a sequence is indentless depend on that text and are parameters of the emitter's steps.
- EmitPipeline.ParseThenEmit: what the scanner makes of anchors, tags and directives is a predicate on tokens, `TokensOk`, because the scanner is modelled for kinds of tokens only; a NUL written as `%00` in a tag, which ends the string in C, is not modelled.
- Plain, single-quoted, literal and folded scalars, and line folding: a line break inside a double-quoted scalar ends the model of the scan.
- Reader.Reader.DetermineEncoding: a mark of UTF-16 is recognised and not followed, because UTF-16 input is not modelled.
- Reader.Reader.UpdateBuffer: for requests of at most 8000 characters, because the working buffer is not enlarged and a longer request would not fit it; the scanner asks for a few at a time.
- Reader.ReadAll: for requests of at most 8000 characters, as `UpdateBuffer`; there is no limit on the size of a file, and errors of the read handler are not modelled.
- `writer.c` and the public interface of libyaml.
- inet_pton and strtol are partial functions on strings; strtoul has 64 bits and no binary numbers.
- NUL characters inside configuration files.
- DesiredSet.StateText: the paths are whole; that `cfg_path` fails with E2BIG for a path that does not fit its buffer is not modelled, because no id and no field name that is printed makes one that long.
- Commands.RenderFits: the comment lines that report a wrong address, name server or route are one `#` each, because they are never run; their texts are not measured.
- Netlink, the processes that run commands, the lock, signals and the system log: a snapshot is given, a command is its effect on an abstract kernel, and what a DHCP command does to the host is a parameter of that kernel.
- UplinkPass.OnePassConverges: for `uplink_bridge` without DHCP, because what the DHCP command does is not known; for members that can go up as the snapshot shows them, and routes with distinct destinations. Where an interface of another kind has the name of the bridge, `KindPass.KindPassConverges` says when one pass is enough.
- Kernel.PlannedPassConverges: only that the pass repairs the state where every next hop is on-link in time; what becomes of a state planned on an older snapshot where one is not is left open.
- VlanPass.VlanPassConverges: for a vlan that is to be in the bridge of its own state, over an interface that is up by then, and with nothing stacked on it if it is made anew.
- VxlanPass.WgPassConverges: for a vxlan that is to be in the bridge of its own state and is not the device of the route to the peer, with nothing stacked on it if it is made anew; and for a peer whose address the WireGuard interface does not have as its own /32, which would bring the route when the interface goes up.
- KindPass.KindPassConverges: for `uplink_bridge` without DHCP, with nothing stacked on the old interface.
- SetRepairs.RunRepairsAll: without `wg_vxlan_bridge` states and vlans that are made anew, which take routes of others with them; and only that the set is repaired, not what becomes of one where a next hop is not on-link in time.
- The abstract kernel has one routing table and IPv4 only, keeps routes when an address goes or an interface goes down (no command does either), and does not check that a vlan id or a VNI is free.
- The wording of OK and MISS lines, and `main.c`.
- The part of `uci.c` that makes desired states of UCI sections: it would add many simple members.
- The walks of `yaml.c` over sibling lists are loops over the children in their order; that the lists have that order is what `CfgStore` proves.
