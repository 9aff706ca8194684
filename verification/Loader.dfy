/**
 The composer of `loader.c`: an event loop that rebuilds a node table, with a stack of open
 collections and a list of anchors.
 */
module Loader {
  import opened Wrappers
  import opened YamlEvents
  import opened NodeGraph

  datatype Kind = AScalar | ASequence | AMapping

  /** A node under construction: the edges seen so far, a mapping's keys and values alike. */
  datatype Shape = Shape(kind: Kind, tag: string, value: string, style: Style, kids: seq<nat>)

  datatype Error = DuplicateAnchor | UndefinedAlias | AssertionFailed | EndOfEvents

  datatype Result<+T> = Ok(value: T) | Err(error: Error)

  /** What the loader knows: the nodes so far, the anchors so far, and the open collections. */
  datatype Loading = Loading(nodes: seq<Shape>, anchors: map<string, nat>, ctx: seq<nat>)

  const NOTHING := Loading([], map[], [])

  ghost predicate CtxOk(st: Loading) {
    forall k :: 0 <= k < |st.ctx| ==> 1 <= st.ctx[k] <= |st.nodes| && st.nodes[st.ctx[k] - 1].kind != AScalar
  }

  /** A missing tag and the non-specific tag "!" become the default one. */
  function LoadedTag(tag: Option<string>, default: string): string {
    if tag == None || tag == Some("!") then default else tag.value
  }

  /** Adds an edge from the innermost open collection, if there is one. */
  function Attach(st: Loading, index: nat): (r: Loading)
    requires CtxOk(st)
  {
    if st.ctx == [] then st
    else
      var parent := st.ctx[|st.ctx| - 1] - 1;
      st.(nodes := st.nodes[parent := st.nodes[parent].(kids := st.nodes[parent].kids + [index])])
  }

  lemma {:induction false} AttachKeepsCtx(st: Loading, index: nat)
    requires CtxOk(st)
    ensures CtxOk(Attach(st, index)) && |Attach(st, index).nodes| == |st.nodes|
  {
  }

  lemma {:induction false} AppendKeepsCtx(st: Loading, shape: Shape, anchors: map<string, nat>)
    requires CtxOk(st)
    ensures CtxOk(Loading(st.nodes + [shape], anchors, st.ctx))
  {
  }

  /** Adds a node, under its anchor and below its parent. */
  function AddNode(st: Loading, shape: Shape, anchor: Option<string>): (r: Result<Loading>)
    requires CtxOk(st)
    ensures r.Ok? ==> |r.value.nodes| == |st.nodes| + 1 && CtxOk(r.value) && r.value.ctx == st.ctx
    ensures r.Ok? ==> r.value.nodes[|st.nodes|].kind == shape.kind
  {
    if anchor.Some? && anchor.value in st.anchors then Err(DuplicateAnchor)
    else
      var index := |st.nodes| + 1;
      var st' := st.(nodes := st.nodes + [shape],
                     anchors := if anchor.Some? then st.anchors[anchor.value := index] else st.anchors);
      Ok(Attach(st', index))
  }

  function Opened(r: Result<Loading>): (r': Result<Loading>)
    requires r.Ok? ==> CtxOk(r.value) && r.value.nodes != [] && r.value.nodes[|r.value.nodes| - 1].kind != AScalar
    ensures r'.Ok? ==> CtxOk(r'.value)
  {
    if r.Ok? then Ok(r.value.(ctx := r.value.ctx + [|r.value.nodes|])) else r
  }

  function Closed(st: Loading, kind: Kind): Result<Loading>
    requires CtxOk(st)
  {
    if st.ctx == [] || st.nodes[st.ctx[|st.ctx| - 1] - 1].kind != kind then Err(AssertionFailed)
    else Ok(st.(ctx := st.ctx[..|st.ctx| - 1]))
  }

  /** One turn of the event loop. */
  function LoadEvent(st: Loading, event: Event): (r: Result<Loading>)
    requires CtxOk(st)
    ensures r.Ok? ==> CtxOk(r.value)
  {
    match event
    case Alias(name) => if name in st.anchors then Ok(Attach(st, st.anchors[name])) else Err(UndefinedAlias)
    case Scalar(anchor, tag, value, _, _, style) =>
      AddNode(st, Shape(AScalar, LoadedTag(tag, DEFAULT_SCALAR_TAG), value, style, []), anchor)
    case SequenceStart(anchor, tag, _, style) =>
      Opened(AddNode(st, Shape(ASequence, LoadedTag(tag, DEFAULT_SEQUENCE_TAG), "", style, []), anchor))
    case MappingStart(anchor, tag, _, style) =>
      Opened(AddNode(st, Shape(AMapping, LoadedTag(tag, DEFAULT_MAPPING_TAG), "", style, []), anchor))
    case SequenceEnd => Closed(st, ASequence)
    case MappingEnd => Closed(st, AMapping)
    case _ => Err(AssertionFailed)
  }

  function LoadEvents(st: Loading, events: seq<Event>): (r: Result<Loading>)
    requires CtxOk(st)
    decreases |events|
  {
    if events == [] then Ok(st)
    else
      match LoadEvent(st, events[0])
      case Ok(st') => LoadEvents(st', events[1..])
      case Err(e) => Err(e)
  }

  /** The events up to the end of the document. */
  function Body(events: seq<Event>): (body: seq<Event>)
    ensures body <= events
  {
    if events == [] || events[0].DocumentEnd? then [] else [events[0]] + Body(events[1..])
  }

  /** The edges of a mapping whose last value may still be missing, which 0 stands for. */
  function KnownPairs(pairs: seq<Pair>): seq<nat> {
    if pairs == [] then []
    else
      var last := pairs[|pairs| - 1];
      Flatten(pairs[..|pairs| - 1]) + (if last.value == 0 then [last.key] else [last.key, last.value])
  }

  function ShapeOf(node: Node): Shape {
    match node
    case ScalarNode(tag, value, style) => Shape(AScalar, tag, value, style, [])
    case SequenceNode(tag, items, style) => Shape(ASequence, tag, "", style, items)
    case MappingNode(tag, pairs, style) => Shape(AMapping, tag, "", style, KnownPairs(pairs))
  }

  function Shapes(nodes: seq<Node>): (shapes: seq<Shape>)
    ensures |shapes| == |nodes|
    ensures forall k :: 0 <= k < |nodes| ==> shapes[k] == ShapeOf(nodes[k])
  {
    seq(|nodes|, k requires 0 <= k < |nodes| => ShapeOf(nodes[k]))
  }

  lemma {:induction false} ShapesUpdate(nodes: seq<Node>, k: nat, node: Node)
    requires k < |nodes|
    ensures Shapes(nodes[k := node]) == Shapes(nodes)[k := ShapeOf(node)]
  {
  }

  lemma {:induction false} ShapesAppend(nodes: seq<Node>, node: Node)
    ensures Shapes(nodes + [node]) == Shapes(nodes) + [ShapeOf(node)]
  {
  }

  /** `yaml_alias_data_t` */
  datatype AliasData = AliasData(anchor: string, index: nat)

  function AnchorMap(aliases: seq<AliasData>): map<string, nat> {
    if aliases == [] then map[]
    else AnchorMap(aliases[..|aliases| - 1])[aliases[|aliases| - 1].anchor := aliases[|aliases| - 1].index]
  }

  ghost predicate DistinctAnchors(aliases: seq<AliasData>) {
    forall j, k :: 0 <= j < k < |aliases| ==> aliases[j].anchor != aliases[k].anchor
  }

  lemma {:induction false} AnchorMapFinds(aliases: seq<AliasData>, name: string)
    requires DistinctAnchors(aliases)
    ensures name in AnchorMap(aliases) <==> exists k :: 0 <= k < |aliases| && aliases[k].anchor == name
    ensures forall k :: 0 <= k < |aliases| && aliases[k].anchor == name ==> AnchorMap(aliases)[name] == aliases[k].index
  {
    if aliases != [] {
      AnchorMapFinds(aliases[..|aliases| - 1], name);
    }
  }

  /** Filling the pending value, or starting a new pair, adds one edge at the end. */
  lemma {:induction false} PairAdded(pairs: seq<Pair>, index: nat)
    requires index != 0
    ensures pairs != [] && pairs[|pairs| - 1].value == 0 ==>
              KnownPairs(pairs[|pairs| - 1 := pairs[|pairs| - 1].(value := index)]) == KnownPairs(pairs) + [index]
    ensures pairs == [] || pairs[|pairs| - 1].value != 0 ==>
              KnownPairs(pairs + [Pair(index, 0)]) == KnownPairs(pairs) + [index]
  {
    if pairs != [] && pairs[|pairs| - 1].value == 0 {
      assert pairs[|pairs| - 1 := pairs[|pairs| - 1].(value := index)][..|pairs| - 1] == pairs[..|pairs| - 1];
    } else {
      assert (pairs + [Pair(index, 0)])[..|pairs|] == pairs;
    }
  }

  predicate KeysPresent(node: Node) {
    node.MappingNode? ==> forall j :: 0 <= j < |node.pairs| ==> node.pairs[j].key != 0
  }

  /** The switch of `yaml_parser_load_node_add` on the kind of the parent. */
  method ExtendNode(node: Node, index: nat) returns (node': Node)
    requires !node.ScalarNode? && KeysPresent(node) && index != 0
    ensures ShapeOf(node') == ShapeOf(node).(kids := ShapeOf(node).kids + [index])
    ensures KeysPresent(node')
  {
    match node {
      case SequenceNode(_, items, _) =>
        node' := node.(items := items + [index]);
      case MappingNode(_, pairs, _) =>
        PairAdded(pairs, index);
        if |pairs| > 0 && pairs[|pairs| - 1].key != 0 && pairs[|pairs| - 1].value == 0 {
          node' := node.(pairs := pairs[|pairs| - 1 := pairs[|pairs| - 1].(value := index)]);
        } else {
          node' := node.(pairs := pairs + [Pair(index, 0)]);
        }
    }
  }

  predicate KnownEmpty(node: Node) {
    ShapeOf(node).kids == [] && (node.MappingNode? ==> node.pairs == [])
  }

  class Composer {
    var nodes: seq<Node>
    var aliases: seq<AliasData>
    var ctx: seq<nat>

    constructor ()
      ensures Valid() && View() == NOTHING && nodes == []
    {
      nodes, aliases, ctx := [], [], [];
    }

    ghost function View(): Loading
      reads this
    {
      Loading(Shapes(nodes), AnchorMap(aliases), ctx)
    }

    ghost predicate Valid()
      reads this
    {
      && CtxOk(View())
      && DistinctAnchors(aliases)
      && (forall k :: 0 <= k < |aliases| ==> 1 <= aliases[k].index <= |nodes|)
      && (forall k :: 0 <= k < |nodes| ==> KeysPresent(nodes[k]))
    }

    /** `yaml_parser_register_anchor` */
    method RegisterAnchor(index: nat, anchor: Option<string>) returns (r: Result<()>)
      requires Valid() && 1 <= index <= |nodes|
      modifies `aliases
      ensures Valid()
      ensures anchor == None ==> r.Ok? && aliases == old(aliases)
      ensures anchor.Some? && anchor.value in old(View().anchors) ==>
                r == Err(DuplicateAnchor) && aliases == old(aliases)
      ensures anchor.Some? && anchor.value !in old(View().anchors) ==>
                r.Ok? && AnchorMap(aliases) == old(View().anchors)[anchor.value := index]
    {
      if anchor == None {
        return Ok(());
      }
      AnchorMapFinds(aliases, anchor.value);
      for k := 0 to |aliases|
        invariant forall j :: 0 <= j < k ==> aliases[j].anchor != anchor.value
      {
        if aliases[k].anchor == anchor.value {
          return Err(DuplicateAnchor);
        }
      }
      ghost var before := aliases;
      aliases := aliases + [AliasData(anchor.value, index)];
      assert aliases[..|aliases| - 1] == before;
      return Ok(());
    }

    /** `yaml_parser_load_node_add` */
    method LoadNodeAdd(index: nat) returns (r: Result<()>)
      requires Valid() && 1 <= index <= |nodes|
      modifies `nodes
      ensures Valid() && |nodes| == |old(nodes)|
      ensures r.Ok? && View() == Attach(old(View()), index)
    {
      if ctx == [] {
        return Ok(());
      }
      var parentIndex := ctx[|ctx| - 1];
      assert View().nodes[parentIndex - 1] == ShapeOf(nodes[parentIndex - 1]);
      var parent := ExtendNode(nodes[parentIndex - 1], index);
      nodes := nodes[parentIndex - 1 := parent];
      ShapesUpdate(old(nodes), parentIndex - 1, parent);
      AttachKeepsCtx(old(View()), index);
      return Ok(());
    }

    /** `yaml_parser_load_alias` */
    method LoadAlias(name: string) returns (r: Result<()>)
      requires Valid()
      modifies `nodes
      ensures Answers(old(View()), Alias(name), r)
    {
      AnchorMapFinds(aliases, name);
      for k := 0 to |aliases|
        invariant forall j :: 0 <= j < k ==> aliases[j].anchor != name
      {
        if aliases[k].anchor == name {
          r := LoadNodeAdd(aliases[k].index);
          return;
        }
      }
      return Err(UndefinedAlias);
    }

    /** The state after one event, as `LoadEvent` has it. */
    ghost predicate Answers(before: Loading, event: Event, r: Result<()>)
      reads this
    {
      && CtxOk(before)
      && match LoadEvent(before, event)
         case Ok(st) => Valid() && r.Ok? && View() == st
         case Err(e) => r == Err(e)
    }

    /** Pushes a node, registers its anchor and adds it to its parent. */
    method PushNode(node: Node, anchor: Option<string>) returns (r: Result<nat>)
      requires Valid() && KnownEmpty(node)
      modifies `nodes, `aliases
      ensures match AddNode(old(View()), ShapeOf(node), anchor)
              case Ok(st) => Valid() && r == Ok(|st.nodes|) && View() == st
              case Err(e) => r == Err(e)
    {
      hide KnownPairs, AnchorMap, Attach;
      nodes := nodes + [node];
      var index := |nodes|;
      ShapesAppend(old(nodes), node);
      AppendKeepsCtx(old(View()), ShapeOf(node), AnchorMap(aliases));
      assert Valid();
      var registered := RegisterAnchor(index, anchor);
      if registered.Err? {
        return Err(registered.error);
      }
      var added := LoadNodeAdd(index);
      return Ok(index);
    }

    lemma {:induction false} ValidIsOk()
      requires Valid()
      ensures CtxOk(View())
    {
    }

    /** `yaml_parser_load_scalar` */
    method LoadScalar(event: Event) returns (r: Result<()>)
      requires Valid() && event.Scalar?
      modifies `nodes, `aliases
      ensures Answers(old(View()), event, r)
    {
      hide Valid, CtxOk, AddNode, Shapes, AnchorMap;
      ValidIsOk();
      var tag := event.tag;
      if tag == None || tag.value == "!" {
        tag := Some(DEFAULT_SCALAR_TAG);
      }
      var pushed := PushNode(ScalarNode(tag.value, event.value, event.style), event.anchor);
      return if pushed.Ok? then Ok(()) else Err(pushed.error);
    }

    /** `yaml_parser_load_sequence` */
    method LoadSequence(event: Event) returns (r: Result<()>)
      requires Valid() && event.SequenceStart?
      modifies this
      ensures Answers(old(View()), event, r)
    {
      hide AnchorMap, AddNode, DistinctAnchors;
      var tag := event.tag;
      if tag == None || tag.value == "!" {
        tag := Some(DEFAULT_SEQUENCE_TAG);
      }
      var pushed := PushNode(SequenceNode(tag.value, [], event.style), event.anchor);
      if pushed.Err? {
        return Err(pushed.error);
      }
      ctx := ctx + [pushed.value];
      return Ok(());
    }

    /** `yaml_parser_load_mapping` */
    method LoadMapping(event: Event) returns (r: Result<()>)
      requires Valid() && event.MappingStart?
      modifies this
      ensures Answers(old(View()), event, r)
    {
      hide AnchorMap, AddNode, DistinctAnchors;
      var tag := event.tag;
      if tag == None || tag.value == "!" {
        tag := Some(DEFAULT_MAPPING_TAG);
      }
      var pushed := PushNode(MappingNode(tag.value, [], event.style), event.anchor);
      if pushed.Err? {
        return Err(pushed.error);
      }
      ctx := ctx + [pushed.value];
      return Ok(());
    }

    /** `yaml_parser_load_sequence_end` */
    method LoadSequenceEnd() returns (r: Result<()>)
      requires Valid()
      modifies `ctx
      ensures Answers(old(View()), SequenceEnd, r)
    {
      if |ctx| == 0 {
        return Err(AssertionFailed);
      }
      var index := ctx[|ctx| - 1];
      assert View().nodes[index - 1] == ShapeOf(nodes[index - 1]);
      if !nodes[index - 1].SequenceNode? {
        return Err(AssertionFailed);
      }
      ctx := ctx[..|ctx| - 1];
      return Ok(());
    }

    /** `yaml_parser_load_mapping_end` */
    method LoadMappingEnd() returns (r: Result<()>)
      requires Valid()
      modifies `ctx
      ensures Answers(old(View()), MappingEnd, r)
    {
      if |ctx| == 0 {
        return Err(AssertionFailed);
      }
      var index := ctx[|ctx| - 1];
      assert View().nodes[index - 1] == ShapeOf(nodes[index - 1]);
      if !nodes[index - 1].MappingNode? {
        return Err(AssertionFailed);
      }
      ctx := ctx[..|ctx| - 1];
      return Ok(());
    }

    /** `yaml_parser_load_nodes`, over the events that `yaml_parser_parse` delivers. */
    method LoadNodes(events: seq<Event>) returns (r: Result<()>)
      requires Valid()
      modifies this
      ensures match LoadEvents(old(View()), Body(events))
              case Ok(st) =>
                if Body(events) < events then r.Ok? && Valid() && View() == st else r == Err(EndOfEvents)
              case Err(e) => r == Err(e)
    {
      ghost var start := View();
      assert events[0..] == events;
      for k := 0 to |events|
        invariant Valid()
        invariant LoadEvents(start, Body(events)) == LoadEvents(View(), Body(events[k..]))
        invariant Body(events) < events <==> Body(events[k..]) < events[k..]
      {
        var event := events[k];
        ghost var left := events[k..];
        assert left[0] == event && left[1..] == events[k + 1..];
        if event.DocumentEnd? {
          return Ok(());
        }
        assert Body(left) == [event] + Body(left[1..]) && Body(left)[1..] == Body(left[1..]);
        match event {
          case Alias(name) => r := LoadAlias(name);
          case Scalar(_, _, _, _, _, _) => r := LoadScalar(event);
          case SequenceStart(_, _, _, _) => r := LoadSequence(event);
          case SequenceEnd => r := LoadSequenceEnd();
          case MappingStart(_, _, _, _) => r := LoadMapping(event);
          case MappingEnd => r := LoadMappingEnd();
          case _ => r := Err(AssertionFailed);
        }
        if r.Err? {
          return;
        }
      }
      return Err(EndOfEvents);
    }
  }
}
