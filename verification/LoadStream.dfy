/** From tokens to documents: the parser and the loader together, against the syntax trees of the token grammar. */
module LoadStream {
  import opened Wrappers
  import opened YamlEvents
  import opened ParserMoves
  import opened EventGrammar
  import opened TokenGrammar
  import TokenParse
  import TokenSplit
  import ParseStream
  import NodeGraph
  import Loader
  import Compose
  import Pipeline

  // The tree of events that a syntax tree stands for.

  predicate Untagged(tag: Option<string>) {
    tag == None || tag == Some("")
  }

  /** A missing node is an empty plain scalar. */
  const NO_NODE := Leaf(Scalar(None, None, "", true, false, Plain))

  /**
   The flags of a scalar say for which styles its tag may be left out: for the plain style with the tag `!`, for its own
   style without a tag, and for none otherwise.
   */
  function TreeOf(s: Syntax, tags: seq<TagDirective>): Tree
    decreases s, 0
  {
    match s
    case Missing => NO_NODE
    case Reference(name) => Leaf(Alias(name))
    case Text(props, value, style) =>
      var tag := TagOf(tags, props);
      Leaf(Scalar(props.anchor, tag, value, tag == Some("!") || (tag == None && style == Plain),
                  tag == None && style != Plain, style))
    case Hollow(props) =>
      Leaf(Scalar(props.anchor, TagOf(tags, props), "", Untagged(TagOf(tags, props)), false, Plain))
    case BlockSequence(props, items) => Branch(SequenceOf(props, tags, Block), ItemTrees(items, tags))
    case Indentless(props, items) => Branch(SequenceOf(props, tags, Block), ItemTrees(items, tags))
    case BlockMapping(props, pairs) => Branch(MappingOf(props, tags, Block), EntriesTrees(pairs, tags, false))
    case FlowSequence(props, entries, _) => Branch(SequenceOf(props, tags, Flow), EntriesTrees(entries, tags, true))
    case FlowMapping(props, entries, _) => Branch(MappingOf(props, tags, Flow), EntriesTrees(entries, tags, false))
  }

  function SequenceOf(p: Props, tags: seq<TagDirective>, style: Style): Event {
    SequenceStart(p.anchor, TagOf(tags, p), Untagged(TagOf(tags, p)), style)
  }

  function MappingOf(p: Props, tags: seq<TagDirective>, style: Style): Event {
    MappingStart(p.anchor, TagOf(tags, p), Untagged(TagOf(tags, p)), style)
  }

  function ItemTrees(items: seq<Syntax>, tags: seq<TagDirective>): seq<Tree>
    decreases items
  {
    if items == [] then [] else [TreeOf(items[0], tags)] + ItemTrees(items[1..], tags)
  }

  /** An entry as one node of a sequence, or as a key and a value of a mapping. */
  function EntryTrees(e: Entry, tags: seq<TagDirective>, sequence: bool): seq<Tree>
    decreases e
  {
    match e
    case One(node) => [TreeOf(node, tags)] + if sequence then [] else [NO_NODE]
    case Pair(key, _, _, value) =>
      var both := [TreeOf(key, tags), TreeOf(value, tags)];
      if sequence then [Branch(MappingStart(None, None, true, Flow), both)] else both
    case Keyless(value) => [NO_NODE, TreeOf(value, tags)]
  }

  function EntriesTrees(entries: seq<Entry>, tags: seq<TagDirective>, sequence: bool): seq<Tree>
    decreases entries
  {
    if entries == [] then [] else EntryTrees(entries[0], tags, sequence) + EntriesTrees(entries[1..], tags, sequence)
  }

  ghost predicate AreTrees(ts: seq<Tree>) {
    forall k :: 0 <= k < |ts| ==> IsTree(ts[k])
  }

  lemma {:induction false} ForestJoined(a: seq<Tree>, b: seq<Tree>)
    ensures ForestEvents(a + b) == ForestEvents(a) + ForestEvents(b)
  {
    hide TreeEvents;
    if a == [] {
      assert a + b == b;
    } else {
      ForestJoined(a[1..], b);
      assert (a + b)[1..] == a[1..] + b;
      assert ForestEvents(a + b) == TreeEvents(a[0]) + (ForestEvents(a[1..]) + ForestEvents(b));
    }
  }

  lemma {:induction false} ForestOne(t: Tree)
    ensures ForestEvents([t]) == TreeEvents(t)
  {
    hide TreeEvents;
    assert [t][1..] == [];
    assert TreeEvents(t) + [] == TreeEvents(t);
  }

  lemma {:induction false} ForestTwo(t: Tree, u: Tree)
    ensures ForestEvents([t, u]) == TreeEvents(t) + TreeEvents(u)
  {
    hide TreeEvents, ForestEvents;
    assert [t, u] == [t] + [u];
    ForestJoined([t], [u]);
    ForestOne(t);
    ForestOne(u);
  }

  lemma {:induction false} BranchOf(start: Event, children: seq<Tree>, events: seq<Event>)
    requires Opens(start) && AreTrees(children) && (start.MappingStart? ==> Even(|children|))
    requires ForestEvents(children) == events
    ensures IsTree(Branch(start, children))
    ensures TreeEvents(Branch(start, children)) == [start] + (events + [EndEvent(start)])
  {
    hide ForestEvents, Even;
    assert [start] + events + [EndEvent(start)] == [start] + (events + [EndEvent(start)]);
  }

  /** The events of a syntax tree are those of a tree of the event grammar. */
  lemma {:induction false} EventsOfTree(s: Syntax, tags: seq<TagDirective>)
    ensures IsTree(TreeOf(s, tags)) && TreeEvents(TreeOf(s, tags)) == Events(s, tags)
    decreases s, 0
  {
    hide TagOf, ForestEvents, AreTrees, Even, ItemEvents, EntryEvents, ItemTrees, EntriesTrees;
    match s
    case BlockSequence(props, items) =>
      EventsOfItems(items, tags);
      BranchOf(SequenceOf(props, tags, Block), ItemTrees(items, tags), ItemEvents(items, tags));
    case Indentless(props, items) =>
      EventsOfItems(items, tags);
      BranchOf(SequenceOf(props, tags, Block), ItemTrees(items, tags), ItemEvents(items, tags));
    case BlockMapping(props, pairs) =>
      EventsOfEntries(pairs, tags, false);
      BranchOf(MappingOf(props, tags, Block), EntriesTrees(pairs, tags, false), EntryEvents(pairs, tags, false));
    case FlowSequence(props, entries, _) =>
      EventsOfEntries(entries, tags, true);
      BranchOf(SequenceOf(props, tags, Flow), EntriesTrees(entries, tags, true), EntryEvents(entries, tags, true));
    case FlowMapping(props, entries, _) =>
      EventsOfEntries(entries, tags, false);
      BranchOf(MappingOf(props, tags, Flow), EntriesTrees(entries, tags, false), EntryEvents(entries, tags, false));
    case _ =>
  }

  lemma {:induction false} EventsOfItems(items: seq<Syntax>, tags: seq<TagDirective>)
    ensures AreTrees(ItemTrees(items, tags)) && ForestEvents(ItemTrees(items, tags)) == ItemEvents(items, tags)
    decreases items
  {
    hide TreeOf, TreeEvents, Events, IsTree;
    if items != [] {
      EventsOfTree(items[0], tags);
      EventsOfItems(items[1..], tags);
      var t, rest := TreeOf(items[0], tags), ItemTrees(items[1..], tags);
      ForestJoined([t], rest);
      ForestOne(t);
    }
  }

  lemma {:induction false} EventsOfEntry(e: Entry, tags: seq<TagDirective>, sequence: bool)
    ensures AreTrees(EntryTrees(e, tags, sequence)) && (!sequence ==> |EntryTrees(e, tags, sequence)| == 2)
    ensures ForestEvents(EntryTrees(e, tags, sequence)) == EntryEvent(e, tags, sequence)
    decreases e
  {
    hide ForestEvents, TagOf;
    EmptyTree();
    match e
    case One(node) =>
      hide TreeOf, Events;
      EventsOfTree(node, tags);
      ForestOne(TreeOf(node, tags));
      ForestTwo(TreeOf(node, tags), NO_NODE);
      assert Events(node, tags) + [] == Events(node, tags);
      assert EntryTrees(e, tags, sequence) == if sequence then [TreeOf(node, tags)] else [TreeOf(node, tags), NO_NODE];
    case Pair(key, _, _, value) =>
      hide TreeOf, Events;
      EventsOfTree(key, tags);
      EventsOfTree(value, tags);
      PairOf(TreeOf(key, tags), TreeOf(value, tags));
    case Keyless(value) =>
      hide TreeOf, Events;
      EventsOfTree(value, tags);
      ForestTwo(NO_NODE, TreeOf(value, tags));
  }

  lemma {:induction false} EmptyTree()
    ensures IsTree(NO_NODE) && TreeEvents(NO_NODE) == [EMPTY_SCALAR]
  {
  }

  lemma {:induction false} PairOf(key: Tree, value: Tree)
    requires IsTree(key) && IsTree(value)
    ensures ForestEvents([key, value]) == TreeEvents(key) + TreeEvents(value)
    ensures var pair := Branch(MappingStart(None, None, true, Flow), [key, value]);
            && IsTree(pair)
            && ForestEvents([pair]) ==
               [MappingStart(None, None, true, Flow)] + (TreeEvents(key) + (TreeEvents(value) + [MappingEnd]))
  {
    ForestTwo(key, value);
    var start := MappingStart(None, None, true, Flow);
    assert Even(2);
    BranchOf(start, [key, value], TreeEvents(key) + TreeEvents(value));
    ForestOne(Branch(start, [key, value]));
    hide ForestEvents, TreeEvents;
    assert TreeEvents(key) + TreeEvents(value) + [MappingEnd] == TreeEvents(key) + (TreeEvents(value) + [MappingEnd]);
  }

  lemma {:induction false} EvenMore(n: nat)
    requires Even(n)
    ensures Even(2 + n)
  {
  }

  lemma {:induction false} EventsOfEntries(entries: seq<Entry>, tags: seq<TagDirective>, sequence: bool)
    ensures AreTrees(EntriesTrees(entries, tags, sequence))
    ensures !sequence ==> Even(|EntriesTrees(entries, tags, sequence)|)
    ensures ForestEvents(EntriesTrees(entries, tags, sequence)) == EntryEvents(entries, tags, sequence)
    decreases entries
  {
    hide EntryTrees, EntryEvent, IsTree;
    if entries != [] {
      EventsOfEntry(entries[0], tags, sequence);
      EventsOfEntries(entries[1..], tags, sequence);
      var first, rest := EntryTrees(entries[0], tags, sequence), EntriesTrees(entries[1..], tags, sequence);
      ForestJoined(first, rest);
      if !sequence {
        EvenMore(|rest|);
      }
    }
  }

  // Loading the documents of a stream.

  /** What loading one document after the other gives, and whether it gets to the end of the stream. */
  datatype Outcome = Outcome(docs: seq<Loader.Loading>, ok: bool)

  /** The calls of `yaml_parser_load`, on the events after the start of the stream. */
  function LoadAll(events: seq<Event>): Outcome
    decreases |events|
  {
    if events == [] || !events[0].DocumentStart? then Outcome([], events != [] && events[0].StreamEnd?)
    else
      var body := Loader.Body(events[1..]);
      match Loader.LoadEvents(Loader.NOTHING, body)
      case Err(_) => Outcome([], false)
      case Ok(st) =>
        if |body| + 1 == |events| then Outcome([], false)
        else
          var rest := LoadAll(events[|body| + 2..]);
          Outcome([st] + rest.docs, rest.ok)
  }

  ghost predicate FineDoc(d: Doc) {
    Pipeline.AnchorsFine({}, Events(d.root, DocTags(d)))
  }

  /** The nodes of a document are those of its syntax tree, with aliases leading to the nodes that they name. */
  ghost predicate IsDocument(d: Doc, nodes: seq<Loader.Shape>) {
    var t := TreeOf(d.root, DocTags(d));
    && IsTree(t)
    && nodes == Compose.Rows(t, 0, Compose.Marks(t, 0, map[]))
    && forall name :: name in Compose.Marks(t, 0, map[]) ==>
         Compose.Found(name, Compose.Marks(t, 0, map[])[name], 0, Compose.Announcing(TreeEvents(t)), map[])
  }

  ghost predicate Describes(docs: seq<Doc>, r: Outcome) {
    && |r.docs| <= |docs|
    && (forall i :: 0 <= i < |r.docs| ==> FineDoc(docs[i]) && IsDocument(docs[i], r.docs[i].nodes))
    && (r.ok <==> |r.docs| == |docs|)
    && (!r.ok ==> !FineDoc(docs[|r.docs|]))
  }

  /** One document loads as its syntax tree says, unless an anchor or an alias is wrong. */
  lemma {:induction false} LoadDoc(d: Doc)
    ensures match Loader.LoadEvents(Loader.NOTHING, Events(d.root, DocTags(d)))
            case Ok(st) => FineDoc(d) && IsDocument(d, st.nodes)
            case Err(_) => !FineDoc(d)
    ensures forall k :: 0 <= k < |Events(d.root, DocTags(d))| ==> !Events(d.root, DocTags(d))[k].DocumentEnd?
  {
    hide Events, TreeOf, TreeEvents, IsTree, Loader.LoadEvents, Pipeline.AnchorsFine, Compose.Rows, Compose.Marks,
         Compose.Found, Compose.Announcing, Compose.Announced;
    var t := TreeOf(d.root, DocTags(d));
    EventsOfTree(d.root, DocTags(d));
    Pipeline.DocumentLoads(t);
    Pipeline.TreeHasNoDocumentEnd(t);
    if Loader.LoadEvents(Loader.NOTHING, TreeEvents(t)).Ok? {
      Compose.DocumentComposes(t);
    }
  }

  lemma {:induction false} BodyOf(events: seq<Event>, end: Event, rest: seq<Event>)
    requires (forall k :: 0 <= k < |events| ==> !events[k].DocumentEnd?) && end.DocumentEnd?
    ensures Loader.Body(events + ([end] + rest)) == events
  {
    var all := events + ([end] + rest);
    if events != [] {
      BodyOf(events[1..], end, rest);
      assert all[0] == events[0] && all[1..] == events[1..] + ([end] + rest);
    }
  }

  lemma {:induction false} LoadAllFirst(start: Event, body: seq<Event>, end: Event, rest: seq<Event>)
    requires start.DocumentStart? && end.DocumentEnd? && forall k :: 0 <= k < |body| ==> !body[k].DocumentEnd?
    ensures LoadAll([start] + (body + ([end] + rest))) ==
            match Loader.LoadEvents(Loader.NOTHING, body)
            case Err(_) => Outcome([], false)
            case Ok(st) => Outcome([st] + LoadAll(rest).docs, LoadAll(rest).ok)
  {
    hide Loader.LoadEvents, Loader.Body;
    var all := [start] + (body + ([end] + rest));
    BodyOf(body, end, rest);
    assert all[1..] == body + ([end] + rest) && all[|body| + 2..] == rest;
  }

  lemma {:induction false} DocsLoad(docs: seq<Doc>)
    ensures Describes(docs, LoadAll(DocsEvents(docs) + [StreamEnd]))
  {
    hide Events, FineDoc, IsDocument, DocTags, StartEvent, LoadAll, Describes, Loader.LoadEvents;
    var events := DocsEvents(docs) + [StreamEnd];
    if docs == [] {
      assert events == [StreamEnd];
      NoDocs();
    } else {
      var d, rest := docs[0], DocsEvents(docs[1..]) + [StreamEnd];
      LoadDoc(d);
      DocsLoad(docs[1..]);
      var start, body, end := StartEvent(d.directives, d.marked), Events(d.root, DocTags(d)), DocumentEnd(d.ends == 0);
      StartsDocument(d);
      EventsParted(start, body, end, DocsEvents(docs[1..]));
      LoadAllFirst(start, body, end, rest);
      DescribesFirst(docs, Loader.LoadEvents(Loader.NOTHING, body), LoadAll(rest));
    }
  }

  lemma {:induction false} NoDocs()
    ensures Describes([], LoadAll([StreamEnd]))
  {
  }

  lemma {:induction false} EventsParted(start: Event, body: seq<Event>, end: Event, rest: seq<Event>)
    ensures [start] + (body + [end]) + rest + [StreamEnd] == [start] + (body + ([end] + (rest + [StreamEnd])))
  {
  }

  lemma {:induction false} StartsDocument(d: Doc)
    ensures StartEvent(d.directives, d.marked).DocumentStart?
  {
  }

  lemma {:induction false} DescribesFirst(docs: seq<Doc>, first: Loader.Result<Loader.Loading>, rest: Outcome)
    requires docs != [] && Describes(docs[1..], rest)
    requires match first
             case Ok(st) => FineDoc(docs[0]) && IsDocument(docs[0], st.nodes)
             case Err(_) => !FineDoc(docs[0])
    ensures Describes(docs,
                      match first
                      case Err(_) => Outcome([], false)
                      case Ok(st) => Outcome([st] + rest.docs, rest.ok))
  {
    hide FineDoc, IsDocument;
    if first.Ok? {
      var all := [first.value] + rest.docs;
      forall i | 0 <= i < |all|
        ensures FineDoc(docs[i]) && IsDocument(docs[i], all[i].nodes)
      {
        if i > 0 {
          assert docs[i] == docs[1..][i - 1] && all[i] == rest.docs[i - 1];
        }
      }
      if !rest.ok {
        assert docs[|all|] == docs[1..][|rest.docs|];
      }
    }
  }

  /** The tables of the documents that have been loaded. */
  ghost predicate Tables(graphs: seq<NodeGraph.Graph>, docs: seq<Loader.Loading>) {
    |graphs| == |docs| && forall i :: 0 <= i < |graphs| ==> Loader.Shapes(graphs[i]) == docs[i].nodes
  }

  function Loaded(done: seq<Loader.Loading>, rest: Outcome): Outcome {
    Outcome(done + rest.docs, rest.ok)
  }

  lemma {:induction false} LoadedOne(done: seq<Loader.Loading>, st: Loader.Loading, rest: Outcome)
    ensures Loaded(done, Outcome([st] + rest.docs, rest.ok)) == Loaded(done + [st], rest)
  {
    assert done + ([st] + rest.docs) == done + [st] + rest.docs;
  }

  /** `yaml_parser_load` again and again, over the events of the parser. */
  method LoadDocuments(events: seq<Event>)
    returns (graphs: seq<NodeGraph.Graph>, ok: bool, ghost docs: seq<Loader.Loading>)
    ensures Tables(graphs, docs) && LoadAll(events) == Outcome(docs, ok)
  {
    hide Loader.LoadEvents, Loader.Body, Loader.Shapes;
    graphs, docs, ok := [], [], false;
    var pos := 0;
    assert events[0..] == events;
    while pos < |events| && events[pos].DocumentStart?
      invariant 0 <= pos <= |events| && Tables(graphs, docs) && !ok
      invariant LoadAll(events) == Loaded(docs, LoadAll(events[pos..]))
      decreases |events| - pos
    {
      ghost var left := events[pos..];
      assert left[1..] == events[pos + 1..];
      var composer := new Loader.Composer();
      var r := composer.LoadNodes(events[pos + 1..]);
      if r.Err? {
        return;
      }
      var size := |Loader.Body(events[pos + 1..])|;
      graphs := graphs + [composer.nodes];
      ghost var st := composer.View();
      assert left[size + 2..] == events[pos + size + 2..];
      LoadedOne(docs, st, LoadAll(left[size + 2..]));
      docs := docs + [st];
      pos := pos + size + 2;
    }
    ok := pos < |events| && events[pos].StreamEnd?;
    assert docs + [] == docs;
  }

  /**
   Tokens to documents. On a stream of the token grammar the documents are those of its syntax trees, up to the first
   with an anchor that is defined twice or an alias before its anchor; on any other the stream is not read to its end.
   */
  method LoadTokens(tokens: seq<Token>)
    returns (graphs: seq<NodeGraph.Graph>, ok: bool, ghost docs: seq<Loader.Loading>)
    ensures Tables(graphs, docs) && (ok ==> TokenSplit.InGrammar(tokens))
    ensures forall trees :: StreamFits(trees) && TokenParse.Has(tokens, 0, StreamTokens(trees)) ==>
                              Describes(trees, Outcome(docs, ok))
  {
    hide StreamFits, StreamTokens, TokenParse.Has, Describes, Tables, DocsEvents, TokenSplit.InGrammar;
    var events, parsed := ParseStream.ParseStream(tokens);
    graphs, ok, docs := LoadDocuments(if events == [] then [] else events[1..]);
    ok := ok && parsed;
    forall trees | StreamFits(trees) && TokenParse.Has(tokens, 0, StreamTokens(trees))
      ensures Describes(trees, Outcome(docs, ok))
    {
      assert TokenSplit.InGrammar(tokens) by { InTheGrammar(tokens, trees); }
      assert events[1..] == DocsEvents(trees) + [StreamEnd];
      DocsLoad(trees);
    }
  }

  lemma {:induction false} InTheGrammar(tokens: seq<Token>, trees: seq<Doc>)
    requires StreamFits(trees) && TokenParse.Has(tokens, 0, StreamTokens(trees))
    ensures TokenSplit.InGrammar(tokens)
  {
    hide StreamFits, StreamTokens, TokenParse.Has;
  }
}
