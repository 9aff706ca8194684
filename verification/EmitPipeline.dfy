/** The parser's and the dumper's events as input of the emitter: what it makes of their data. */
module EmitPipeline {
  import opened Wrappers
  import opened YamlEvents
  import opened EventGrammar
  import opened Tags
  import opened ParserMoves
  import EmitterMoves
  import Emitter
  import Parser
  import NodeGraph
  import Traversal
  import Dumper
  import DumpLoad
  import Loader
  import Pipeline

  // The events of the parser.

  /** Names, tags and directives as the scanner makes them. */
  predicate TokenOk(t: Token) {
    match t
    case AliasToken(name) => NameOk(name)
    case AnchorToken(name) => NameOk(name)
    case TagToken(_, suffix) => suffix != ""
    case TagDirectiveToken(handle, prefix) => DirectiveOk(TagDirective(handle, prefix))
    case _ => true
  }

  predicate TokensOk(ts: seq<Token>) {
    forall i :: 0 <= i < |ts| ==> TokenOk(ts[i])
  }

  lemma {:induction false} ContentAnalyzed(ts: seq<Token>, c: Config, block: bool, anchor: Option<string>,
                                           tag: Option<string>, canonical: bool)
    requires EmitterMoves.AnchorOk(anchor) && tag != Some("") && FromContent(ts, c, block, anchor, tag).Some?
    ensures EmitterMoves.Analyzed(FromContent(ts, c, block, anchor, tag).value.event, canonical)
  {
    hide NameOk;
  }

  /** A tag is not empty, since its suffix is not. */
  lemma {:induction false} ExpandedNotEmpty(tags: seq<TagDirective>, handle: string, suffix: string)
    requires suffix != ""
    ensures Resolve(tags, handle, suffix) != Some("") && Expanded(tags, handle, suffix) != Some("")
    decreases |tags|
  {
    if tags != [] {
      ExpandedNotEmpty(tags[1..], handle, suffix);
    }
  }

  lemma {:induction false} NodeAnalyzed(ts: seq<Token>, c: Config, block: bool, indentless: bool, canonical: bool)
    requires TokensOk(ts) && FromNode(ts, c, block, indentless).Some?
    ensures EmitterMoves.Analyzed(FromNode(ts, c, block, indentless).value.event, canonical)
  {
    hide FromContent, Resolve, NameOk;
    if !ts[c.head].AliasToken? {
      var p := ReadProperties(ts, c.head).value;
      var tag: Option<string> := None;
      if p.tag.Some? {
        ExpandedNotEmpty(c.tags, p.tag.value.handle, p.tag.value.suffix);
        tag := Resolve(c.tags, p.tag.value.handle, p.tag.value.suffix);
      }
      var at := c.(head := p.head);
      if FromContent(ts, at, block, p.anchor, tag).Some? {
        ContentAnalyzed(ts, at, block, p.anchor, tag, canonical);
      }
    }
  }

  /** The directives that the parser lets through. */
  lemma {:induction false} DirectivesAnalyzed(ts: seq<Token>, head: nat, tags: seq<TagDirective>, seen: bool)
    requires TokensOk(ts) && Directives(ts, head, tags, seen).Some?
    ensures DirectivesOk(VersionIn(ts, head), TagsIn(ts, head))
    ensures forall k :: 0 <= k < |TagsIn(ts, head)| ==> !HasHandle(tags, TagsIn(ts, head)[k].handle)
    decreases |ts| - head
  {
    hide DirectiveOk, NameOk, WithDefaults;
    match ts[head] {
      case VersionDirectiveToken(_, _) =>
        DirectivesAnalyzed(ts, head + 1, tags, true);
      case TagDirectiveToken(handle, prefix) =>
        var more := tags + [TagDirective(handle, prefix)];
        DirectivesAnalyzed(ts, head + 1, more, seen);
        var rest := TagsIn(ts, head + 1);
        assert more[|tags|].handle == handle;
        assert forall k :: 0 <= k < |tags| ==> more[k] == tags[k];
        assert forall k :: 0 <= k < |rest| ==> !HasHandle(more, rest[k].handle);
      case _ =>
    }
  }

  lemma {:induction false} DocumentAnalyzed(ts: seq<Token>, c: Config, implicit: bool, canonical: bool)
    requires TokensOk(ts) && FromDocument(ts, c, implicit).Some?
    ensures EmitterMoves.Analyzed(FromDocument(ts, c, implicit).value.event, canonical)
  {
    hide DirectiveOk, Directives, VersionIn, TagsIn;
    if Directives(ts, c.head, c.tags, false).Some? {
      DirectivesAnalyzed(ts, c.head, c.tags, false);
    }
  }

  /** Nothing is asked of the events that carry no names, tags or directives. */
  lemma {:induction false} PlainAnalyzed(canonical: bool)
    ensures EmitterMoves.Analyzed(EMPTY_SCALAR, canonical)
    ensures EmitterMoves.Analyzed(MappingStart(None, None, true, Flow), canonical)
    ensures forall e: Event :: e.StreamStart? || e.StreamEnd? || e.DocumentEnd? || e.SequenceEnd? || e.MappingEnd? ==>
                                 EmitterMoves.Analyzed(e, canonical)
  {
  }

  predicate MoveOk(m: Option<Move>, canonical: bool) {
    m.Some? ==> EmitterMoves.Analyzed(m.value.event, canonical)
  }

  lemma {:induction false} OptionalOk(ts: seq<Token>, c: Config, next: State, block: bool, indentless: bool,
                                      none: set<Token>, canonical: bool)
    requires TokensOk(ts)
    ensures MoveOk(Optional(ts, c, next, block, indentless, none), canonical)
    ensures MoveOk(Node(ts, c, next, block, indentless), canonical)
    ensures MoveOk(FromNode(ts, c, block, indentless), canonical)
  {
    hide FromNode, EmitterMoves.Analyzed;
    PlainAnalyzed(canonical);
    if FromNode(ts, c, block, indentless).Some? {
      NodeAnalyzed(ts, c, block, indentless, canonical);
    }
    var inner := c.(states := c.states + [next]);
    if FromNode(ts, inner, block, indentless).Some? {
      NodeAnalyzed(ts, inner, block, indentless, canonical);
    }
  }

  lemma {:induction false} BlockOk(ts: seq<Token>, c: Config, canonical: bool)
    requires TokensOk(ts)
    ensures MoveOk(FromBlockSequence(ts, c), canonical) && MoveOk(FromIndentless(ts, c), canonical)
    ensures MoveOk(FromBlockKey(ts, c), canonical) && MoveOk(FromBlockValue(ts, c), canonical)
  {
    hide Optional, FromNode, EmitterMoves.Analyzed;
    PlainAnalyzed(canonical);
    var d := Skipped(c);
    OptionalOk(ts, d, BlockSequenceEntryState, true, false, NO_BLOCK_ENTRY, canonical);
    OptionalOk(ts, d, IndentlessSequenceEntryState, true, false, NO_INDENTLESS_ENTRY, canonical);
    OptionalOk(ts, d, BlockMappingValueState, true, true, NO_BLOCK_PART, canonical);
    OptionalOk(ts, d, BlockMappingKeyState, true, true, NO_BLOCK_PART, canonical);
  }

  lemma {:induction false} FlowSequenceOk(ts: seq<Token>, c: Config, first: bool, canonical: bool)
    requires TokensOk(ts)
    ensures MoveOk(FromFlowSequence(ts, c, first), canonical) && MoveOk(FromPairKey(ts, c), canonical)
    ensures MoveOk(FromPairValue(ts, c), canonical) && MoveOk(FromPairEnd(ts, c), canonical)
  {
    hide Optional, Node, FromNode, EmitterMoves.Analyzed;
    PlainAnalyzed(canonical);
    var d := Skipped(c);
    OptionalOk(ts, c, FlowSequenceEntryState, false, false, {}, canonical);
    OptionalOk(ts, d, FlowSequenceEntryState, false, false, {}, canonical);
    OptionalOk(ts, c, FlowSequenceEntryMappingValueState, false, false, {}, canonical);
    OptionalOk(ts, d, FlowSequenceEntryMappingEndState, false, false, NO_PAIR_VALUE, canonical);
  }

  lemma {:induction false} FlowMappingOk(ts: seq<Token>, c: Config, first: bool, canonical: bool)
    requires TokensOk(ts)
    ensures MoveOk(FromFlowKey(ts, c, first), canonical) && MoveOk(FromFlowValue(ts, c, first), canonical)
  {
    hide Optional, Node, FromNode, EmitterMoves.Analyzed;
    PlainAnalyzed(canonical);
    var d := Skipped(c);
    OptionalOk(ts, c, FlowMappingEmptyValueState, false, false, {}, canonical);
    OptionalOk(ts, d, FlowMappingEmptyValueState, false, false, {}, canonical);
    OptionalOk(ts, d, FlowMappingValueState, false, false, NO_FLOW_KEY, canonical);
    OptionalOk(ts, Skipped(d), FlowMappingValueState, false, false, NO_FLOW_KEY, canonical);
    OptionalOk(ts, d, FlowMappingKeyState, false, false, NO_FLOW_VALUE, canonical);
  }

  lemma {:induction false} OutsideOk(ts: seq<Token>, c: Config, implicit: bool, canonical: bool)
    requires TokensOk(ts)
    ensures MoveOk(FromStreamStart(ts, c), canonical) && MoveOk(FromDocumentStart(ts, c, implicit), canonical)
    ensures MoveOk(FromDocumentContent(ts, c), canonical) && MoveOk(FromDocumentEnd(ts, c), canonical)
  {
    hide FromNode, FromDocument, EmitterMoves.Analyzed;
    PlainAnalyzed(canonical);
    OptionalOk(ts, c, BlockNodeState, true, false, {}, canonical);
    var d := if implicit then c else c.(head := AfterEnds(ts, c.head));
    if FromDocument(ts, d, implicit).Some? {
      DocumentAnalyzed(ts, d, implicit, canonical);
    }
  }

  /** What the parser makes of tokens of the scanner is what the emitter asks for. */
  lemma {:induction false} NextAnalyzed(ts: seq<Token>, c: Config, canonical: bool)
    requires TokensOk(ts)
    ensures MoveOk(Next(ts, c), canonical)
  {
    hide MoveOk, FromStreamStart, FromDocumentStart, FromDocumentContent, FromDocumentEnd, FromNode, FromBlockSequence,
         FromIndentless, FromBlockKey, FromBlockValue, FromFlowSequence, FromPairKey, FromPairValue, FromPairEnd,
         FromFlowKey, FromFlowValue, Skipped;
    NoMove(canonical);
    OutsideOk(ts, c, true, canonical);
    OutsideOk(ts, c, false, canonical);
    OptionalOk(ts, c, BlockNodeState, true, false, {}, canonical);
    BlockOk(ts, c, canonical);
    BlockOk(ts, Skipped(c), canonical);
    FlowSequenceOk(ts, c, false, canonical);
    FlowSequenceOk(ts, Skipped(c), true, canonical);
    FlowMappingOk(ts, c, false, canonical);
    FlowMappingOk(ts, c, true, canonical);
    FlowMappingOk(ts, Skipped(c), true, canonical);
  }

  lemma {:induction false} NoMove(canonical: bool)
    ensures MoveOk(None, canonical)
  {
  }

  lemma {:induction false} YieldsAnalyzed(ts: seq<Token>, c: Config, events: seq<Event>, d: Config, canonical: bool)
    requires TokensOk(ts) && Yields(ts, c, events, d)
    ensures EmitterMoves.AllAnalyzed(events, canonical)
    decreases |events|
  {
    hide Next, EmitterMoves.Analyzed;
    if events != [] {
      NextAnalyzed(ts, c, canonical);
      YieldsAnalyzed(ts, Next(ts, c).value.next, events[1..], d, canonical);
      assert forall i :: 1 <= i < |events| ==> events[i] == events[1..][i - 1];
    }
  }

  /**
   What the parser makes of tokens, as input of the emitter.  For tokens with the names, tags and directives of the
   scanner none of it is refused; for others a stream is taken exactly if its data is allowed.
   */
  method ParseThenEmit(tokens: seq<Token>, canonical: bool, indent: int)
    returns (events: seq<Event>, parsed: bool, emitted: bool, left: seq<Event>)
    ensures TokensOk(tokens) ==> emitted
    ensures parsed ==> (emitted <==> EmitterMoves.AllAnalyzed(events, canonical))
    ensures parsed && emitted ==> left == []
    ensures parsed ==> IsStream(events)
    ensures parsed ==> exists last: Config :: last.state == EndState && Yields(tokens, FIRST, events, last)
  {
    hide Yields, Next, IsStream, EmitterMoves.AllAnalyzed, TokensOk;
    ghost var cuts, last;
    events, parsed, cuts, last := Parser.ParseAll(tokens);
    if TokensOk(tokens) {
      YieldsAnalyzed(tokens, FIRST, events, last, canonical);
    }
    ghost var taken, choices, end;
    emitted, left, taken, choices, end := Emitter.EmitAll(events, canonical, indent);
  }

  // The events of the dumper.

  ghost predicate NamesFit(names: seq<Option<string>>) {
    forall k :: 0 <= k < |names| ==> EmitterMoves.AnchorOk(names[k])
  }

  lemma {:induction false} NamesAlpha(table: seq<Dumper.Anchors>)
    ensures NamesFit(Dumper.Names(table))
  {
    forall k | 0 <= k < |table|
      ensures EmitterMoves.AnchorOk(Dumper.Names(table)[k])
    {
      var id := table[k].anchor;
      var name := Traversal.AnchorName(id);
      Traversal.ValueOfAnchorName(id);
      assert name[..2] == "id" && forall i :: 2 <= i < |name| ==> name[i] == name[2..][i - 2];
    }
  }

  /** The collections that are left are left by their end events. */
  ghost predicate ClosesOnly(work: seq<Traversal.Work>) {
    forall k :: 0 <= k < |work| && work[k].Close? ==> work[k].event in {SequenceEnd, MappingEnd}
  }

  lemma {:induction false} AnnounceAnalyzed(node: NodeGraph.Node, anchor: Option<string>, canonical: bool)
    requires EmitterMoves.AnchorOk(anchor)
    ensures EmitterMoves.Analyzed(Traversal.Announce(node, anchor), canonical) <==> node.tag != ""
  {
    hide NameOk;
  }

  lemma {:induction false} StepAnalyzed(g: NodeGraph.Graph, names: seq<Option<string>>, p: Traversal.Point,
                                        canonical: bool)
    requires Traversal.Ok(g, p) && p.work != [] && Traversal.Covered(g, names, p) && NamesFit(names)
    requires ClosesOnly(p.work)
    ensures ClosesOnly(Traversal.Next(g, p).work)
    ensures EmitterMoves.Analyzed(Traversal.StepEvent(g, names, p), canonical) <==>
            (Traversal.FirstVisit(p) ==> g[p.work[0].id - 1].tag != "")
  {
    hide NameOk, Traversal.Covered;
    Traversal.CoveredStep(g, names, p);
    if Traversal.FirstVisit(p) {
      AnnounceAnalyzed(g[p.work[0].id - 1], names[p.work[0].id - 1], canonical);
    }
  }

  lemma {:induction false} EmitAnalyzed(g: NodeGraph.Graph, names: seq<Option<string>>, p: Traversal.Point,
                                        canonical: bool)
    requires Traversal.Ok(g, p) && Traversal.Covered(g, names, p) && NamesFit(names) && ClosesOnly(p.work)
    ensures EmitterMoves.AllAnalyzed(Traversal.Emit(g, names, p), canonical) <==>
            TagsSet(g, Traversal.Order(g, p))
    decreases Traversal.Unseen(|g|, p.seen), |p.work|
  {
    hide EmitterMoves.Analyzed, EmitterMoves.AllAnalyzed, Traversal.Covered, NamesFit, ClosesOnly, Traversal.StepEvent,
         TagsSet;
    NothingToSet(g, canonical);
    if p.work != [] {
      Traversal.CoveredStep(g, names, p);
      StepAnalyzed(g, names, p, canonical);
      var q := Traversal.Next(g, p);
      EmitAnalyzed(g, names, q, canonical);
      var e, rest := Traversal.StepEvent(g, names, p), Traversal.Emit(g, names, q);
      AllOfCons(e, rest, canonical);
      if Traversal.FirstVisit(p) {
        OneMoreSet(g, p.work[0].id, Traversal.Order(g, q));
      } else {
        assert [] + Traversal.Order(g, q) == Traversal.Order(g, q);
      }
    }
  }

  /** None of these nodes has an empty tag. */
  ghost predicate TagsSet(g: NodeGraph.Graph, ids: seq<nat>) {
    forall k :: 0 <= k < |ids| && 1 <= ids[k] <= |g| ==> g[ids[k] - 1].tag != ""
  }

  lemma {:induction false} NothingToSet(g: NodeGraph.Graph, canonical: bool)
    ensures TagsSet(g, []) && EmitterMoves.AllAnalyzed([], canonical)
  {
  }

  lemma {:induction false} OneMoreSet(g: NodeGraph.Graph, id: nat, ids: seq<nat>)
    requires 1 <= id <= |g|
    ensures TagsSet(g, [id] + ids) <==> g[id - 1].tag != "" && TagsSet(g, ids)
  {
    var all := [id] + ids;
    assert all[0] == id && forall k :: 0 <= k < |ids| ==> ids[k] == all[k + 1];
  }

  lemma {:induction false} ReachedSet(g: NodeGraph.Graph, ids: seq<nat>)
    requires forall id :: id in ids <==> NodeGraph.Reachable(g, 1, id)
    ensures TagsSet(g, ids) <==>
            forall id: nat :: NodeGraph.Reachable(g, 1, id) && 1 <= id <= |g| ==> g[id - 1].tag != ""
  {
    hide NodeGraph.Reachable;
    if TagsSet(g, ids) {
      forall id: nat | NodeGraph.Reachable(g, 1, id) && 1 <= id <= |g|
        ensures g[id - 1].tag != ""
      {
        var k :| 0 <= k < |ids| && ids[k] == id;
      }
    } else {
      var k :| 0 <= k < |ids| && 1 <= ids[k] <= |g| && g[ids[k] - 1].tag == "";
      assert ids[k] in ids;
    }
  }

  lemma {:induction false} AllOfCons(e: Event, rest: seq<Event>, canonical: bool)
    ensures EmitterMoves.AllAnalyzed([e] + rest, canonical) <==>
            EmitterMoves.Analyzed(e, canonical) && EmitterMoves.AllAnalyzed(rest, canonical)
  {
    hide EmitterMoves.Analyzed;
    var all := [e] + rest;
    assert all[0] == e && forall i :: 0 <= i < |rest| ==> rest[i] == all[i + 1];
  }

  lemma {:induction false} AllOfConcat(a: seq<Event>, b: seq<Event>, canonical: bool)
    ensures EmitterMoves.AllAnalyzed(a + b, canonical) <==>
            EmitterMoves.AllAnalyzed(a, canonical) && EmitterMoves.AllAnalyzed(b, canonical)
  {
    hide EmitterMoves.Analyzed;
    var all := a + b;
    assert (forall i :: 0 <= i < |a| ==> a[i] == all[i]) && forall i :: 0 <= i < |b| ==> b[i] == all[i + |a|];
  }

  /**
   A document that the emitter takes: its directives are well formed, and nothing that is reached has an empty tag.
   */
  ghost predicate Dumpable(g: NodeGraph.Graph, start: Event)
    requires start.DocumentStart?
  {
    |g| > 0 ==>
      && DirectivesOk(start.version, start.directives)
      && forall id: nat :: NodeGraph.Reachable(g, 1, id) && 1 <= id <= |g| ==> g[id - 1].tag != ""
  }

  /** A document of one scalar with an empty tag is refused, though nothing forbids to make it. */
  lemma {:induction false} EmptyTagRefused(value: string, style: Style, start: Event)
    requires start.DocumentStart?
    ensures NodeGraph.WellFormed([NodeGraph.ScalarNode("", value, style)])
    ensures !Dumpable([NodeGraph.ScalarNode("", value, style)], start)
  {
    var g := [NodeGraph.ScalarNode("", value, style)];
    NodeGraph.ReachableSelf(g, 1);
    assert g[1 - 1].tag == "";
  }

  /** A scalar event that has no tag and may not do without one is refused, though nothing forbids to make it. */
  lemma {:induction false} BareScalarRefused(value: string, style: Style, canonical: bool)
    ensures IsStream(OneScalar(Scalar(None, None, value, false, false, style)))
    ensures !EmitterMoves.AllAnalyzed(OneScalar(Scalar(None, None, value, false, false, style)), canonical)
  {
    var e := Scalar(None, None, value, false, false, style);
    var events := OneScalar(e);
    var d := Document(None, [], true, Leaf(e), true);
    assert DocumentsEvents([]) == [] && [d][1..] == [];
    assert DocumentsEvents([d]) == [BARE_START, e, DocumentEnd(true)];
    assert Serializes([d], events);
    assert events[2] == e && !EmitterMoves.Carried(e);
  }

  /** A stream of one document that is one scalar. */
  function OneScalar(e: Event): seq<Event> {
    [StreamStart, BARE_START, e, DocumentEnd(true), StreamEnd]
  }

  /** The data of a whole dump is allowed exactly if the document can be dumped. */
  lemma {:induction false} DumpAnalyzed(g: NodeGraph.Graph, names: seq<Option<string>>, start: Event, endImplicit: bool,
                                        canonical: bool)
    requires NodeGraph.WellFormed(g) && |g| > 0 && start.DocumentStart? && Traversal.NamesOk(g, names)
    requires NamesFit(names)
    ensures Traversal.Ok(g, Traversal.START)
    ensures var body := Traversal.Emit(g, names, Traversal.START);
            var events := [StreamStart] + ([start] + body + [DocumentEnd(endImplicit)] + [StreamEnd]);
            EmitterMoves.AllAnalyzed(events, canonical) <==> Dumpable(g, start)
  {
    hide NodeGraph.WellFormed, Traversal.NamesOk, NamesFit, Traversal.Order, Traversal.Emit, EmitterMoves.AllAnalyzed,
         DirectivesOk, NodeGraph.Reachable, Loader.LoadEvents, Traversal.Covered, TagsSet;
    DumpLoad.LoadAfterDump(g, names);
    ReachedSet(g, Traversal.Order(g, Traversal.START));
    Traversal.NamesCover(g, names);
    EmitAnalyzed(g, names, Traversal.START, canonical);
    var body, end := Traversal.Emit(g, names, Traversal.START), DocumentEnd(endImplicit);
    PlainAnalyzed(canonical);
    StartAnalyzed(start, canonical);
    JustOne(start, canonical);
    JustOne(end, canonical);
    JustOne(StreamEnd, canonical);
    AllOfConcat([start], body, canonical);
    AllOfConcat([start] + body, [end], canonical);
    AllOfConcat([start] + body + [end], [StreamEnd], canonical);
    AllOfCons(StreamStart, [start] + body + [end] + [StreamEnd], canonical);
  }

  lemma {:induction false} StartAnalyzed(start: Event, canonical: bool)
    requires start.DocumentStart?
    ensures EmitterMoves.Analyzed(start, canonical) <==> DirectivesOk(start.version, start.directives)
  {
  }

  lemma {:induction false} JustOne(e: Event, canonical: bool)
    ensures EmitterMoves.AllAnalyzed([e], canonical) <==> EmitterMoves.Analyzed(e, canonical)
  {
    hide EmitterMoves.Analyzed;
    AllOfCons(e, [], canonical);
    assert [e] + [] == [e];
  }

  /**
   `yaml_emitter_dump` on a document, and the end of the stream: the emitter takes it exactly if the directives are
   well formed and no node that is reached has an empty tag.
   */
  method DumpThenEmit(g: NodeGraph.Graph, start: Event, endImplicit: bool, canonical: bool, indent: int)
    returns (ok: bool, left: seq<Event>)
    requires NodeGraph.WellFormed(g) && start.DocumentStart?
    ensures ok <==> Dumpable(g, start)
    ensures ok ==> left == []
  {
    hide IsStream, NodeGraph.WellFormed, Traversal.Emit, Accept, Dumpable, EmitterMoves.AllAnalyzed, Traversal.NamesOk,
         Run;
    var dumper := new Dumper.GraphDumper(g);
    dumper.Dump(start, endImplicit);
    dumper.CloseStream();
    var events := dumper.events;
    if |g| > 0 {
      ghost var names := Dumper.Names(dumper.anchors[..]);
      ghost var body := Traversal.Emit(g, names, Traversal.START);
      assert events == [StreamStart] + ([start] + body + [DocumentEnd(endImplicit)] + [StreamEnd]);
      Pipeline.DumpIsDocument(g, names, start, endImplicit);
      assert [start] + body + [DocumentEnd(endImplicit)] == [start] + (body + [DocumentEnd(endImplicit)]);
      Pipeline.WrapStream([start] + (body + [DocumentEnd(endImplicit)]));
      NamesAlpha(dumper.anchors[..]);
      DumpAnalyzed(g, names, start, endImplicit, canonical);
    } else {
      NoDocuments(g, start, canonical);
      assert events == [StreamStart] + ([] + [StreamEnd]);
    }
    ghost var taken, choices, end;
    ok, left, taken, choices, end := Emitter.EmitAll(events, canonical, indent);
  }

  lemma {:induction false} NoDocuments(g: NodeGraph.Graph, start: Event, canonical: bool)
    requires start.DocumentStart? && g == []
    ensures Dumpable(g, start) && IsStream([StreamStart] + ([] + [StreamEnd]))
    ensures EmitterMoves.AllAnalyzed([StreamStart] + ([] + [StreamEnd]), canonical)
  {
    RunNothing(BetweenDocuments);
    Pipeline.WrapStream([]);
  }
}
