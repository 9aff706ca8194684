/** The parser reads every syntax tree of the token grammar as the events it stands for. */
module TokenParse {
  import opened Wrappers
  import opened YamlEvents
  import opened Tags
  import opened ParserMoves
  import opened TokenGrammar

  /** The tokens `part` are there, from place `i` on. */
  predicate Has(ts: seq<Token>, i: nat, part: seq<Token>) {
    i + |part| <= |ts| && ts[i..i + |part|] == part
  }

  lemma {:induction false} HasBoth(ts: seq<Token>, i: nat, a: seq<Token>, b: seq<Token>)
    ensures Has(ts, i, a + b) <==> Has(ts, i, a) && Has(ts, i + |a|, b)
  {
    if Has(ts, i, a + b) {
      assert ts[i..i + |a|] == (a + b)[..|a|];
      assert ts[i + |a|..i + |a| + |b|] == (a + b)[|a|..];
    }
    if Has(ts, i, a) && Has(ts, i + |a|, b) {
      assert ts[i..i + |a + b|] == ts[i..i + |a|] + ts[i + |a|..i + |a| + |b|];
    }
  }

  lemma {:induction false} HasFirst(ts: seq<Token>, i: nat, t: Token, rest: seq<Token>)
    requires Has(ts, i, [t] + rest)
    ensures i < |ts| && ts[i] == t && At(ts, i) == Some(t) && Has(ts, i + 1, rest)
  {
    HasBoth(ts, i, [t], rest);
    assert ts[i..i + 1][0] == t;
  }

  /** The first event is that of the move, and the moves after it give the others and lead to `d`. */
  ghost predicate Starts(m: Option<Move>, ts: seq<Token>, events: seq<Event>, d: Config) {
    m.Some? && events != [] && m.value.event == events[0] && Yields(ts, m.value.next, events[1..], d)
  }

  lemma {:induction false} StartsOne(m: Move, ts: seq<Token>)
    ensures Starts(Some(m), ts, [m.event], m.next)
  {
    hide Next;
    assert [m.event][1..] == [];
  }

  lemma {:induction false} StartsThen(m: Option<Move>, ts: seq<Token>, a: seq<Event>, d: Config, b: seq<Event>,
                                      e: Config)
    requires Starts(m, ts, a, d) && Yields(ts, d, b, e)
    ensures Starts(m, ts, a + b, e)
  {
    hide Yields;
    YieldsBoth(ts, m.value.next, a[1..], d, b, e);
    assert (a + b)[1..] == a[1..] + b;
  }

  lemma {:induction false} StartsHere(ts: seq<Token>, c: Config, events: seq<Event>, d: Config)
    requires Starts(Next(ts, c), ts, events, d)
    ensures Yields(ts, c, events, d)
  {
    hide Next;
  }

  /** A token that a node can be followed by. */
  predicate Stops(t: Token, w: Where) {
    && !t.ScalarToken? && !t.AnchorToken? && !t.TagToken? && !t.FlowSequenceStartToken? && !t.FlowMappingStartToken?
    && !t.BlockSequenceStartToken? && !t.BlockMappingStartToken? && (w == InPair ==> t in NO_BLOCK_PART)
  }

  /** A token that a node can start with. */
  predicate Opening(t: Token, w: Where) {
    || t.AliasToken? || t.ScalarToken? || t.AnchorToken? || t.TagToken?
    || t.FlowSequenceStartToken? || t.FlowMappingStartToken?
    || (w != InFlow && (t.BlockSequenceStartToken? || t.BlockMappingStartToken?)) || (w == InPair && t.BlockEntryToken?)
  }

  lemma {:induction false} FirstToken(s: Syntax, tags: seq<TagDirective>, w: Where)
    requires Fits(s, tags, w)
    ensures Tokens(s) != [] && Opening(Tokens(s)[0], w)
  {
    hide PropsTokens, Listed, PairTokens;
    if !s.Missing? && !s.Reference? {
      FirstProperty(s.props);
      if PropsTokens(s.props) != [] {
        assert Tokens(s)[0] == PropsTokens(s.props)[0];
      }
    }
  }

  lemma {:induction false} FirstProperty(p: Props)
    ensures PropsTokens(p) == [] <==> p.anchor == None && p.tag == None
    ensures PropsTokens(p) != [] ==> PropsTokens(p)[0].AnchorToken? || PropsTokens(p)[0].TagToken?
  {
  }

  /** The properties of a node are read up to its content. */
  lemma {:induction false} PropsRead(ts: seq<Token>, i: nat, p: Props)
    requires Has(ts, i, PropsTokens(p)) && i + |PropsTokens(p)| < |ts|
    requires !ts[i + |PropsTokens(p)|].AnchorToken? && !ts[i + |PropsTokens(p)|].TagToken?
    ensures ReadProperties(ts, i) == Some(Properties(p.anchor,
                                                     if p.tag.Some? then Some(TagToken(p.tag.value.handle,
                                                                                       p.tag.value.suffix)) else None,
                                                     i + |PropsTokens(p)|))
  {
    hide Has;
    var part := PropsTokens(p);
    if |part| == 1 {
      assert part == [part[0]] + [];
      HasFirst(ts, i, part[0], []);
    } else if |part| == 2 {
      assert part == [part[0]] + ([part[1]] + []);
      HasFirst(ts, i, part[0], [part[1]] + []);
      HasFirst(ts, i + 1, part[1], []);
    }
  }

  /** From a node with properties to its content. */
  lemma {:induction false} NodeContent(ts: seq<Token>, c: Config, block: bool, indentless: bool, p: Props)
    requires Has(ts, c.head, PropsTokens(p)) && PropsOk(p, c.tags)
    requires var at := c.head + |PropsTokens(p)|;
             at < |ts| && !ts[at].AnchorToken? && !ts[at].TagToken?
             && (p.anchor == None && p.tag == None ==> !ts[at].AliasToken?)
    ensures var at := c.(head := c.head + |PropsTokens(p)|);
            FromNode(ts, c, block, indentless) ==
            if indentless && ts[at.head].BlockEntryToken? then
              Opened(at, IndentlessSequenceEntryState, Begin(p, c.tags, true, Block))
            else FromContent(ts, at, block, p.anchor, TagOf(c.tags, p))
  {
    hide ReadProperties, FromContent, Resolve;
    PropsRead(ts, c.head, p);
    var part := PropsTokens(p);
    if part != [] {
      assert ts[c.head] == part[0];
    }
  }

  /** A node that is there, in the place of `w`: its events, and then back to the state on the stack. */
  ghost predicate Parses(ts: seq<Token>, c: Config, s: Syntax, w: Where) {
    Starts(FromNode(ts, c, w != InFlow, w == InPair), ts, Events(s, c.tags), Popped(c).(head := c.head + |Tokens(s)|))
  }

  /** The node is there, and a token after it that ends it. */
  predicate Written(ts: seq<Token>, i: nat, s: Syntax, w: Where) {
    Has(ts, i, Tokens(s)) && i + |Tokens(s)| < |ts| && Stops(ts[i + |Tokens(s)|], w)
  }

  lemma {:induction false} ReferenceParses(ts: seq<Token>, c: Config, s: Syntax, w: Where)
    requires s.Reference? && Written(ts, c.head, s, w)
    ensures Parses(ts, c, s, w)
  {
    hide Starts;
    HasFirst(ts, c.head, AliasToken(s.name), []);
    StartsOne(Move(Alias(s.name), Skipped(Popped(c))), ts);
  }

  lemma {:induction false} TextParses(ts: seq<Token>, c: Config, s: Syntax, w: Where)
    requires s.Text? && Fits(s, c.tags, w) && Written(ts, c.head, s, w)
    ensures Parses(ts, c, s, w)
  {
    hide Starts, Resolve, FromNode, PropsTokens, TagOf, PropsOk;
    var p := s.props;
    HasBoth(ts, c.head, PropsTokens(p), [ScalarToken(s.value, s.style)]);
    HasFirst(ts, c.head + |PropsTokens(p)|, ScalarToken(s.value, s.style), []);
    NodeContent(ts, c, w != InFlow, w == InPair, p);
    StartsOne(FromNode(ts, c, w != InFlow, w == InPair).value, ts);
  }

  lemma {:induction false} HollowParses(ts: seq<Token>, c: Config, s: Syntax, w: Where)
    requires s.Hollow? && Fits(s, c.tags, w) && Written(ts, c.head, s, w)
    ensures Parses(ts, c, s, w)
  {
    hide Starts, Resolve, FromNode, PropsTokens, TagOf;
    NodeContent(ts, c, w != InFlow, w == InPair, s.props);
    StartsOne(FromNode(ts, c, w != InFlow, w == InPair).value, ts);
  }

  /** A collection is announced: what is left is to parse it from its first state. */
  lemma {:induction false} Announced(ts: seq<Token>, c: Config, w: Where, p: Props, open: Token, state: State,
                                     event: Event, rest: seq<Event>, d: Config)
    requires PropsOk(p, c.tags) && Has(ts, c.head, PropsTokens(p) + [open])
    requires
      || (open == BlockSequenceStartToken && state == BlockSequenceFirstEntryState && w != InFlow
          && event == Begin(p, c.tags, true, Block))
      || (open == BlockMappingStartToken && state == BlockMappingFirstKeyState && w != InFlow
          && event == Begin(p, c.tags, false, Block))
      || (open == FlowSequenceStartToken && state == FlowSequenceFirstEntryState
          && event == Begin(p, c.tags, true, Flow))
      || (open == FlowMappingStartToken && state == FlowMappingFirstKeyState && event == Begin(p, c.tags, false, Flow))
    requires Yields(ts, c.(head := c.head + |PropsTokens(p)|, state := state), rest, d)
    ensures Starts(FromNode(ts, c, w != InFlow, w == InPair), ts, [event] + rest, d)
  {
    hide Yields, Resolve, FromNode, PropsTokens, TagOf, PropsOk;
    HasBoth(ts, c.head, PropsTokens(p), [open]);
    HasFirst(ts, c.head + |PropsTokens(p)|, open, []);
    NodeContent(ts, c, w != InFlow, w == InPair, p);
    assert ([event] + rest)[1..] == rest;
  }

  /** A node that may be missing, after the token that announces it. */
  lemma {:induction false} OptionalParses(ts: seq<Token>, c: Config, s: Syntax, w: Where, next: State, none: set<Token>)
    requires MayFit(s, c.tags, w) && Written(ts, c.head, s, w)
    requires !s.Missing? ==> Parses(ts, c.(states := c.states + [next]), s, w)
    requires if s.Missing? then ts[c.head] in none else ts[c.head] !in none
    ensures Starts(Optional(ts, c, next, w != InFlow, w == InPair, none), ts, Events(s, c.tags),
                   c.(state := next, head := c.head + |Tokens(s)|))
  {
    hide Starts, FromNode, Fits, Tokens, Events;
    assert (c.states + [next])[..|c.states|] == c.states;
    if s.Missing? {
      NoTokens(c.tags);
      StartsOne(Move(EMPTY_SCALAR, c.(state := next)), ts);
    } else {
      FirstToken(s, c.tags, w);
    }
  }

  lemma {:induction false} NoTokens(tags: seq<TagDirective>)
    ensures Tokens(Missing) == [] && Events(Missing, tags) == [EMPTY_SCALAR]
  {
  }

  /** What the first token of a node is not. */
  lemma {:induction false} Starter(ts: seq<Token>, i: nat, s: Syntax, tags: seq<TagDirective>, w: Where)
    requires Fits(s, tags, w) && Has(ts, i, Tokens(s))
    ensures i < |ts| && Opening(ts[i], w)
  {
    hide Fits, Tokens;
    FirstToken(s, tags, w);
    assert ts[i] == ts[i..i + |Tokens(s)|][0];
  }

  /** A move, the moves after it, and the moves after those. */
  lemma {:induction false} Chain(m: Option<Move>, ts: seq<Token>, a: seq<Event>, next: Config, b: seq<Event>, d: Config,
                                 all: seq<Event>)
    requires Starts(m, ts, a, next) && Starts(Next(ts, next), ts, b, d) && all == a + b
    ensures Starts(m, ts, all, d)
  {
    hide Starts, Next;
    StartsHere(ts, next, b, d);
    StartsThen(m, ts, a, next, b, d);
  }

  /** A part of a collection, after the token that announces it. */
  lemma {:induction false} PartParses(ts: seq<Token>, c: Config, s: Syntax, w: Where, next: State, none: set<Token>)
    requires MayFit(s, c.tags, w) && Written(ts, c.head, s, w)
    requires s.Missing? ==> ts[c.head + |Tokens(s)|] in none
    requires forall t :: t in none ==> !Opening(t, w)
    ensures Starts(Optional(ts, c, next, w != InFlow, w == InPair, none), ts, Events(s, c.tags),
                   c.(state := next, head := c.head + |Tokens(s)|))
    decreases s, 2
  {
    hide Starts, FromNode, Fits, Tokens, Events, Optional, Stops;
    if s.Missing? {
      NoTokens(c.tags);
    } else {
      Starter(ts, c.head, s, c.tags, w);
      NodeParses(ts, c.(states := c.states + [next]), s, w);
    }
    OptionalParses(ts, c, s, w, next, none);
  }

  /** A node is read as its events. */
  lemma {:induction false} NodeParses(ts: seq<Token>, c: Config, s: Syntax, w: Where)
    requires Fits(s, c.tags, w) && Written(ts, c.head, s, w) && c.states != []
    ensures Parses(ts, c, s, w)
    decreases s, 1
  {
    hide Parses, Fits, Written;
    match s {
      case Missing => NotMissing(c.tags, w);
      case Reference(_) => ReferenceParses(ts, c, s, w);
      case Text(_, _, _) => TextParses(ts, c, s, w);
      case Hollow(_) => HollowParses(ts, c, s, w);
      case BlockSequence(_, _) => BlockSequenceParses(ts, c, s, w);
      case Indentless(_, _) => IndentlessParses(ts, c, s, w);
      case BlockMapping(_, _) => BlockMappingParses(ts, c, s, w);
      case FlowSequence(_, _, _) => FlowSequenceParses(ts, c, s, w);
      case FlowMapping(_, _, _) => FlowMappingParses(ts, c, s, w);
    }
  }

  lemma {:induction false} NotMissing(tags: seq<TagDirective>, w: Where)
    ensures !Fits(Missing, tags, w)
  {
  }

  lemma {:induction false} BlockSequenceParses(ts: seq<Token>, c: Config, s: Syntax, w: Where)
    requires s.BlockSequence? && Fits(s, c.tags, w) && Written(ts, c.head, s, w) && c.states != []
    ensures Parses(ts, c, s, w)
    decreases s, 0
  {
    hide Starts, Yields, Resolve, FromNode, PropsTokens, TagOf, PropsOk, FromBlockSequence, ItemTokens, ItemEvents,
         MayFit, Begin;
    var p, open, body := s.props, [BlockSequenceStartToken], ItemTokens(s.items) + [BlockEndToken];
    assert Tokens(s) == PropsTokens(p) + open + body;
    HasBoth(ts, c.head, PropsTokens(p) + open, body);
    var first := c.(head := c.head + |PropsTokens(p)|, state := BlockSequenceFirstEntryState);
    ItemsParse(ts, Skipped(first), s.items);
    var rest, d := ItemEvents(s.items, c.tags) + [SequenceEnd], Popped(c).(head := c.head + |Tokens(s)|);
    StartsHere(ts, first, rest, d);
    Announced(ts, c, w, p, BlockSequenceStartToken, BlockSequenceFirstEntryState, Begin(p, c.tags, true, Block), rest,
              d);
  }

  lemma {:induction false} ItemFollow(ts: seq<Token>, at: nat, items: seq<Syntax>)
    requires Has(ts, at, ItemTokens(items) + [BlockEndToken])
    ensures at < |ts| && ts[at] in NO_BLOCK_ENTRY && Stops(ts[at], InBlock)
  {
    hide Tokens;
    var part := ItemTokens(items) + [BlockEndToken];
    assert ts[at] == ts[at..at + |part|][0] == part[0];
  }

  lemma {:induction false} ItemSplit(items: seq<Syntax>, tags: seq<TagDirective>)
    requires items != []
    ensures ItemTokens(items) == [BlockEntryToken] + (Tokens(items[0]) + ItemTokens(items[1..]))
    ensures ItemTokens(items) + [BlockEndToken] ==
            [BlockEntryToken] + (Tokens(items[0]) + (ItemTokens(items[1..]) + [BlockEndToken]))
    ensures ItemEvents(items, tags) + [SequenceEnd] ==
            Events(items[0], tags) + (ItemEvents(items[1..], tags) + [SequenceEnd])
  {
    hide Tokens, Events;
  }

  lemma {:induction false} NoItems(tags: seq<TagDirective>)
    ensures ItemTokens([]) == [] && ItemTokens([]) + [BlockEndToken] == [BlockEndToken] + []
    ensures ItemEvents([], tags) + [SequenceEnd] == [SequenceEnd]
    ensures PairTokens([]) + [BlockEndToken] == [BlockEndToken] + [] && |PairTokens([])| == 0
    ensures EntryEvents([], tags, false) + [MappingEnd] == [MappingEnd]
    ensures EntryEvents([], tags, true) + [SequenceEnd] == [SequenceEnd]
  {
  }

  /** Where a configuration returns to does not depend on its own state, nor on its place. */
  lemma {:induction false} PoppedMoved(c: Config, state: State, head: nat)
    requires c.states != []
    ensures Popped(c.(state := state, head := head)) == Popped(c).(head := head)
  {
  }

  /** At the end of a block collection. */
  lemma {:induction false} BlockEnds(ts: seq<Token>, c: Config)
    requires At(ts, c.head) == Some(BlockEndToken)
    ensures FromBlockSequence(ts, c) == Some(Move(SequenceEnd, Popped(Skipped(c))))
    ensures FromBlockKey(ts, c) == Some(Move(MappingEnd, Popped(Skipped(c))))
  {
  }

  lemma {:induction false} IndentlessEnds(ts: seq<Token>, c: Config)
    requires c.head < |ts| && ts[c.head] in NO_BLOCK_PART
    ensures FromIndentless(ts, c) == Some(Move(SequenceEnd, Popped(c)))
  {
  }

  /** One item of a block sequence. */
  lemma {:induction false} ItemParses(ts: seq<Token>, c: Config, item: Syntax)
    requires MayFit(item, c.tags, InBlock) && At(ts, c.head) == Some(BlockEntryToken)
    requires Has(ts, c.head + 1, Tokens(item))
    requires var at := c.head + 1 + |Tokens(item)|; at < |ts| && ts[at] in NO_BLOCK_ENTRY && Stops(ts[at], InBlock)
    ensures Starts(FromBlockSequence(ts, c), ts, Events(item, c.tags),
                   c.(state := BlockSequenceEntryState, head := c.head + 1 + |Tokens(item)|))
    decreases item, 3
  {
    hide Starts, Tokens, Events, Optional, Has, Stops, MayFit;
    PartParses(ts, Skipped(c), item, InBlock, BlockSequenceEntryState, NO_BLOCK_ENTRY);
  }

  lemma {:induction false} IndentlessItem(ts: seq<Token>, c: Config, item: Syntax)
    requires MayFit(item, c.tags, InBlock) && At(ts, c.head) == Some(BlockEntryToken)
    requires Has(ts, c.head + 1, Tokens(item))
    requires var at := c.head + 1 + |Tokens(item)|; at < |ts| && ts[at] in NO_INDENTLESS_ENTRY && Stops(ts[at], InBlock)
    ensures Starts(FromIndentless(ts, c), ts, Events(item, c.tags),
                   c.(state := IndentlessSequenceEntryState, head := c.head + 1 + |Tokens(item)|))
    decreases item, 3
  {
    hide Starts, Tokens, Events, Optional, Has, Stops, MayFit;
    PartParses(ts, Skipped(c), item, InBlock, IndentlessSequenceEntryState, NO_INDENTLESS_ENTRY);
  }

  /** The first item of a block sequence, and what follows it. */
  lemma {:induction false} ItemsFront(ts: seq<Token>, i: nat, items: seq<Syntax>)
    requires items != [] && Has(ts, i, ItemTokens(items) + [BlockEndToken])
    ensures var at := i + 1 + |Tokens(items[0])|;
            && At(ts, i) == Some(BlockEntryToken) && Has(ts, i + 1, Tokens(items[0]))
            && at < |ts| && ts[at] in NO_BLOCK_ENTRY && Stops(ts[at], InBlock)
            && Has(ts, at, ItemTokens(items[1..]) + [BlockEndToken])
    ensures |ItemTokens(items)| == 1 + |Tokens(items[0])| + |ItemTokens(items[1..])|
  {
    hide Tokens, Events, Has, Stops, ItemTokens, ItemEvents;
    var more := ItemTokens(items[1..]) + [BlockEndToken];
    ItemSplit(items, []);
    HasFirst(ts, i, BlockEntryToken, Tokens(items[0]) + more);
    HasBoth(ts, i + 1, Tokens(items[0]), more);
    ItemFollow(ts, i + 1 + |Tokens(items[0])|, items[1..]);
  }

  lemma {:induction false} IndentlessFront(ts: seq<Token>, i: nat, items: seq<Syntax>)
    requires items != [] && Has(ts, i, ItemTokens(items)) && i + |ItemTokens(items)| < |ts|
    requires ts[i + |ItemTokens(items)|] in NO_BLOCK_PART
    ensures var at := i + 1 + |Tokens(items[0])|;
            && At(ts, i) == Some(BlockEntryToken) && Has(ts, i + 1, Tokens(items[0]))
            && at < |ts| && ts[at] in NO_INDENTLESS_ENTRY && Stops(ts[at], InBlock)
            && Has(ts, at, ItemTokens(items[1..]))
    ensures |ItemTokens(items)| == 1 + |Tokens(items[0])| + |ItemTokens(items[1..])|
  {
    hide Tokens, Events, Has, Stops, ItemTokens, ItemEvents;
    ItemSplit(items, []);
    HasFirst(ts, i, BlockEntryToken, Tokens(items[0]) + ItemTokens(items[1..]));
    HasBoth(ts, i + 1, Tokens(items[0]), ItemTokens(items[1..]));
    IndentlessFollow(ts, i + 1 + |Tokens(items[0])|, items[1..]);
  }

  lemma {:induction false} PairsFront(ts: seq<Token>, i: nat, pairs: seq<Entry>)
    requires pairs != [] && (forall k :: 0 <= k < |pairs| ==> pairs[k].Pair?)
    requires Has(ts, i, PairTokens(pairs) + [BlockEndToken])
    ensures var at := i + |EntryTokens(pairs[0])|;
            && Has(ts, i, EntryTokens(pairs[0])) && at < |ts| && ts[at] in NO_BLOCK_PART && ts[at] != ValueToken
            && Stops(ts[at], InPair) && Has(ts, at, PairTokens(pairs[1..]) + [BlockEndToken])
    ensures |PairTokens(pairs)| == |EntryTokens(pairs[0])| + |PairTokens(pairs[1..])|
  {
    hide EntryEvents, EntryEvent, EntryTokens, PairTokens, Has, Stops;
    PairSplit(pairs, []);
    HasBoth(ts, i, EntryTokens(pairs[0]), PairTokens(pairs[1..]) + [BlockEndToken]);
    PairFollow(ts, i + |EntryTokens(pairs[0])|, pairs[1..]);
  }

  lemma {:induction false} ItemEventsChain(m: Option<Move>, ts: seq<Token>, tags: seq<TagDirective>, items: seq<Syntax>,
                                           next: Config, d: Config)
    requires items != [] && Starts(m, ts, Events(items[0], tags), next)
    requires Starts(Next(ts, next), ts, ItemEvents(items[1..], tags) + [SequenceEnd], d)
    ensures Starts(m, ts, ItemEvents(items, tags) + [SequenceEnd], d)
  {
    hide Starts, Tokens, Events, ItemTokens, ItemEvents, Next;
    ItemSplit(items, tags);
    Chain(m, ts, Events(items[0], tags), next, ItemEvents(items[1..], tags) + [SequenceEnd], d,
          ItemEvents(items, tags) + [SequenceEnd]);
  }

  lemma {:induction false} EntryEventsChain(m: Option<Move>, ts: seq<Token>, tags: seq<TagDirective>,
                                            entries: seq<Entry>, sequence: bool, next: Config, d: Config)
    requires entries != [] && Starts(m, ts, EntryEvent(entries[0], tags, sequence), next)
    requires var end := if sequence then SequenceEnd else MappingEnd;
             Starts(Next(ts, next), ts, EntryEvents(entries[1..], tags, sequence) + [end], d)
    ensures Starts(m, ts, EntryEvents(entries, tags, sequence) + [if sequence then SequenceEnd else MappingEnd], d)
  {
    hide Starts, EntryEvent, EntryTokens, Next;
    var end := if sequence then SequenceEnd else MappingEnd;
    assert EntryEvents(entries, tags, sequence) + [end] ==
           EntryEvent(entries[0], tags, sequence) + (EntryEvents(entries[1..], tags, sequence) + [end]);
    hide EntryEvents;
    Chain(m, ts, EntryEvent(entries[0], tags, sequence), next, EntryEvents(entries[1..], tags, sequence) + [end], d,
          EntryEvents(entries, tags, sequence) + [end]);
  }

  lemma {:induction false} NoItemsThere(ts: seq<Token>, c: Config)
    requires c.states != [] && Has(ts, c.head, ItemTokens([]) + [BlockEndToken])
    ensures Starts(FromBlockSequence(ts, c), ts, ItemEvents([], c.tags) + [SequenceEnd], Popped(c).(head := c.head + 1))
    ensures ItemTokens([]) == []
  {
    hide Starts, FromBlockSequence, Has, ItemTokens, ItemEvents;
    NoItems(c.tags);
    HasFirst(ts, c.head, BlockEndToken, []);
    BlockEnds(ts, c);
    StartsOne(Move(SequenceEnd, Popped(Skipped(c))), ts);
  }

  lemma {:induction false} ItemsParse(ts: seq<Token>, c: Config, items: seq<Syntax>)
    requires c.states != [] && Has(ts, c.head, ItemTokens(items) + [BlockEndToken])
    requires forall i :: 0 <= i < |items| ==> MayFit(items[i], c.tags, InBlock)
    ensures Starts(FromBlockSequence(ts, c), ts, ItemEvents(items, c.tags) + [SequenceEnd],
                   Popped(c).(head := c.head + |ItemTokens(items)| + 1))
    decreases items
  {
    hide Starts, Tokens, Events, FromBlockSequence, Has, Stops, ItemTokens, ItemEvents, Next, MayFit, Popped;
    if items == [] {
      NoItemsThere(ts, c);
    } else {
      ItemsFront(ts, c.head, items);
      ItemParses(ts, c, items[0]);
      var next := c.(state := BlockSequenceEntryState, head := c.head + 1 + |Tokens(items[0])|);
      PoppedMoved(c, BlockSequenceEntryState, c.head + 1 + |Tokens(items[0])|);
      ItemsParse(ts, next, items[1..]);
      NextItem(ts, next);
      ItemEventsChain(FromBlockSequence(ts, c), ts, c.tags, items, next,
                      Popped(next).(head := next.head + |ItemTokens(items[1..])| + 1));
    }
  }

  lemma {:induction false} IndentlessParses(ts: seq<Token>, c: Config, s: Syntax, w: Where)
    requires s.Indentless? && Fits(s, c.tags, w) && Written(ts, c.head, s, w) && c.states != []
    ensures Parses(ts, c, s, w)
    decreases s, 0
  {
    hide Starts, Yields, Resolve, FromNode, PropsTokens, TagOf, FromIndentless, ItemEvents, MayFit, Begin, FromContent;
    var p := s.props;
    HasBoth(ts, c.head, PropsTokens(p), ItemTokens(s.items));
    var first := c.(head := c.head + |PropsTokens(p)|, state := IndentlessSequenceEntryState);
    HasFirst(ts, first.head, BlockEntryToken, Tokens(s.items[0]) + ItemTokens(s.items[1..]));
    IndentlessItems(ts, first, s.items);
    var rest, d := ItemEvents(s.items, c.tags) + [SequenceEnd], Popped(c).(head := c.head + |Tokens(s)|);
    NodeContent(ts, c, true, true, p);
    var event := Begin(p, c.tags, true, Block);
    StartsOne(Move(event, first), ts);
    Chain(FromNode(ts, c, true, true), ts, [event], first, rest, d, [event] + rest);
  }

  lemma {:induction false} IndentlessFollow(ts: seq<Token>, at: nat, items: seq<Syntax>)
    requires Has(ts, at, ItemTokens(items)) && at + |ItemTokens(items)| < |ts|
    requires ts[at + |ItemTokens(items)|] in NO_BLOCK_PART
    ensures at < |ts| && ts[at] in NO_INDENTLESS_ENTRY && Stops(ts[at], InBlock)
  {
    hide Tokens;
    if items != [] {
      assert ts[at] == ts[at..at + |ItemTokens(items)|][0] == ItemTokens(items)[0];
    }
  }

  lemma {:induction false} IndentlessItems(ts: seq<Token>, c: Config, items: seq<Syntax>)
    requires c.states != [] && Has(ts, c.head, ItemTokens(items)) && c.head + |ItemTokens(items)| < |ts|
    requires ts[c.head + |ItemTokens(items)|] in NO_BLOCK_PART
    requires forall i :: 0 <= i < |items| ==> MayFit(items[i], c.tags, InBlock)
    ensures Starts(FromIndentless(ts, c), ts, ItemEvents(items, c.tags) + [SequenceEnd],
                   Popped(c).(head := c.head + |ItemTokens(items)|))
    decreases items
  {
    hide Starts, Tokens, Events, FromIndentless, Has, Stops, ItemTokens, ItemEvents, Next, MayFit, Popped;
    if items == [] {
      NoItems(c.tags);
      IndentlessEnds(ts, c);
      PoppedMoved(c, c.state, c.head);
      StartsOne(Move(SequenceEnd, Popped(c)), ts);
    } else {
      IndentlessFront(ts, c.head, items);
      IndentlessItem(ts, c, items[0]);
      var next := c.(state := IndentlessSequenceEntryState, head := c.head + 1 + |Tokens(items[0])|);
      PoppedMoved(c, IndentlessSequenceEntryState, c.head + 1 + |Tokens(items[0])|);
      IndentlessItems(ts, next, items[1..]);
      NextIndentless(ts, next);
      ItemEventsChain(FromIndentless(ts, c), ts, c.tags, items, next,
                      Popped(next).(head := next.head + |ItemTokens(items[1..])|));
    }
  }

  lemma {:induction false} BlockMappingParses(ts: seq<Token>, c: Config, s: Syntax, w: Where)
    requires s.BlockMapping? && Fits(s, c.tags, w) && Written(ts, c.head, s, w) && c.states != []
    ensures Parses(ts, c, s, w)
    decreases s, 0
  {
    hide Starts, Yields, Resolve, FromNode, PropsTokens, TagOf, PropsOk, FromBlockKey, PairTokens, EntryEvents, MayFit,
         Begin, PairFits;
    var p, open, body := s.props, [BlockMappingStartToken], PairTokens(s.pairs) + [BlockEndToken];
    assert Tokens(s) == PropsTokens(p) + open + body;
    HasBoth(ts, c.head, PropsTokens(p) + open, body);
    var first := c.(head := c.head + |PropsTokens(p)|, state := BlockMappingFirstKeyState);
    PairsParse(ts, Skipped(first), s.pairs);
    var rest, d := EntryEvents(s.pairs, c.tags, false) + [MappingEnd], Popped(c).(head := c.head + |Tokens(s)|);
    StartsHere(ts, first, rest, d);
    Announced(ts, c, w, p, BlockMappingStartToken, BlockMappingFirstKeyState, Begin(p, c.tags, false, Block), rest, d);
  }

  lemma {:induction false} PairFollow(ts: seq<Token>, at: nat, pairs: seq<Entry>)
    requires Has(ts, at, PairTokens(pairs) + [BlockEndToken]) && forall i :: 0 <= i < |pairs| ==> pairs[i].Pair?
    ensures at < |ts| && (ts[at] == KeyToken || ts[at] == BlockEndToken) && Stops(ts[at], InPair)
  {
    hide Tokens;
    var part := PairTokens(pairs) + [BlockEndToken];
    assert ts[at] == ts[at..at + |part|][0] == part[0];
  }

  /** The value of a pair in a block mapping, from the state for it on. */
  lemma {:induction false} BlockValueParses(ts: seq<Token>, c: Config, e: Entry)
    requires e.Pair? && PairFits(e, c.tags, InPair) && Has(ts, c.head, ValueTokens(e.colon, e.value))
    requires var at := c.head + |ValueTokens(e.colon, e.value)|;
             at < |ts| && ts[at] in NO_BLOCK_PART && Stops(ts[at], InPair) && (ts[at] == ValueToken ==> e.colon)
    ensures Starts(FromBlockValue(ts, c), ts, Events(e.value, c.tags),
                   c.(state := BlockMappingKeyState, head := c.head + |ValueTokens(e.colon, e.value)|))
    decreases e, 0
  {
    hide Starts, FromNode, Fits, Tokens, Events, Optional, Has;
    if e.colon {
      HasFirst(ts, c.head, ValueToken, Tokens(e.value));
      PartParses(ts, Skipped(c), e.value, InPair, BlockMappingKeyState, NO_BLOCK_PART);
    } else {
      NoTokens(c.tags);
      StartsOne(Move(EMPTY_SCALAR, c.(state := BlockMappingKeyState)), ts);
    }
  }

  lemma {:induction false} PairSplit(pairs: seq<Entry>, tags: seq<TagDirective>)
    requires pairs != []
    ensures |PairTokens(pairs)| == |EntryTokens(pairs[0])| + |PairTokens(pairs[1..])|
    ensures PairTokens(pairs) + [BlockEndToken] == EntryTokens(pairs[0]) + (PairTokens(pairs[1..]) + [BlockEndToken])
    ensures EntryEvents(pairs, tags, false) + [MappingEnd] ==
            EntryEvent(pairs[0], tags, false) + (EntryEvents(pairs[1..], tags, false) + [MappingEnd])
  {
    hide EntryTokens, EntryEvent;
  }

  /** The key of a pair, and what is written of its value. */
  lemma {:induction false} PairFront(ts: seq<Token>, i: nat, e: Entry)
    requires e.Pair? && e.skipped == [] && Has(ts, i, EntryTokens(e))
    ensures At(ts, i) == Some(KeyToken) && Has(ts, i + 1, Tokens(e.key))
    ensures Has(ts, i + 1 + |Tokens(e.key)|, ValueTokens(e.colon, e.value))
    ensures |EntryTokens(e)| == 1 + |Tokens(e.key)| + |ValueTokens(e.colon, e.value)|
  {
    hide Has, Tokens, ValueTokens;
    var value := ValueTokens(e.colon, e.value);
    assert EntryTokens(e) == [KeyToken] + (Tokens(e.key) + value);
    HasFirst(ts, i, KeyToken, Tokens(e.key) + value);
    HasBoth(ts, i + 1, Tokens(e.key), value);
  }

  lemma {:induction false} PairsFitRest(pairs: seq<Entry>, tags: seq<TagDirective>)
    requires pairs != [] && PairsFit(pairs, tags)
    ensures pairs[0].Pair? && PairFits(pairs[0], tags, InPair) && pairs[0].skipped == [] && PairsFit(pairs[1..], tags)
    ensures forall i :: 0 <= i < |pairs| ==> pairs[i].Pair?
  {
    hide PairFits;
  }

  lemma {:induction false} NoPairs(ts: seq<Token>, c: Config)
    requires c.states != [] && Has(ts, c.head, PairTokens([]) + [BlockEndToken])
    ensures Starts(FromBlockKey(ts, c), ts, EntryEvents([], c.tags, false) + [MappingEnd],
                   Popped(c).(head := c.head + 1))
    ensures PairTokens([]) == []
  {
    hide Starts, FromBlockKey, Has, PairTokens, EntryEvents;
    NoItems(c.tags);
    HasFirst(ts, c.head, BlockEndToken, []);
    BlockEnds(ts, c);
    StartsOne(Move(MappingEnd, Popped(Skipped(c))), ts);
  }

  lemma {:induction false} PairsParse(ts: seq<Token>, c: Config, pairs: seq<Entry>)
    requires c.states != [] && Has(ts, c.head, PairTokens(pairs) + [BlockEndToken]) && PairsFit(pairs, c.tags)
    ensures Starts(FromBlockKey(ts, c), ts, EntryEvents(pairs, c.tags, false) + [MappingEnd],
                   Popped(c).(head := c.head + |PairTokens(pairs)| + 1))
    decreases pairs
  {
    hide Starts, FromBlockKey, Has, Stops, PairTokens, EntryEvents, EntryTokens, EntryEvent, PairFits, PairsFit, Next,
         Popped;
    if pairs == [] {
      NoPairs(ts, c);
    } else {
      PairsFitRest(pairs, c.tags);
      PairsFront(ts, c.head, pairs);
      BlockPairParses(ts, c, pairs[0]);
      var next := c.(state := BlockMappingKeyState, head := c.head + |EntryTokens(pairs[0])|);
      PoppedMoved(c, BlockMappingKeyState, c.head + |EntryTokens(pairs[0])|);
      PairsParse(ts, next, pairs[1..]);
      NextKey(ts, next);
      EntryEventsChain(FromBlockKey(ts, c), ts, c.tags, pairs, false, next,
                       Popped(next).(head := next.head + |PairTokens(pairs[1..])| + 1));
    }
  }

  /** A pair of a block mapping, from the state for its key on. */
  lemma {:induction false} BlockPairParses(ts: seq<Token>, c: Config, e: Entry)
    requires e.Pair? && PairFits(e, c.tags, InPair) && e.skipped == [] && Has(ts, c.head, EntryTokens(e))
    requires var at := c.head + |EntryTokens(e)|;
             at < |ts| && ts[at] in NO_BLOCK_PART && Stops(ts[at], InPair) && (ts[at] == ValueToken ==> e.colon)
    ensures Starts(FromBlockKey(ts, c), ts, EntryEvent(e, c.tags, false),
                   c.(state := BlockMappingKeyState, head := c.head + |EntryTokens(e)|))
    decreases e, 1
  {
    hide Starts, FromNode, Fits, Tokens, Events, Optional, Has, Stops, ValueTokens, FromBlockValue, Next, EntryTokens;
    PairFront(ts, c.head, e);
    var value := ValueTokens(e.colon, e.value);
    var at := c.head + 1 + |Tokens(e.key)|;
    ColonFollows(ts, at, e, InPair);
    var mid, next := c.(state := BlockMappingValueState, head := at),
        c.(state := BlockMappingKeyState, head := at + |value|);
    PartParses(ts, Skipped(c), e.key, InPair, BlockMappingValueState, NO_BLOCK_PART);
    BlockValueParses(ts, mid, e);
    NextValue(ts, mid);
    Chain(FromBlockKey(ts, c), ts, Events(e.key, c.tags), mid, Events(e.value, c.tags), next,
          EntryEvent(e, c.tags, false));
  }

  lemma {:induction false} NextItem(ts: seq<Token>, c: Config)
    requires c.state == BlockSequenceEntryState
    ensures Next(ts, c) == FromBlockSequence(ts, c)
  {
  }

  lemma {:induction false} NextIndentless(ts: seq<Token>, c: Config)
    requires c.state == IndentlessSequenceEntryState
    ensures Next(ts, c) == FromIndentless(ts, c)
  {
  }

  lemma {:induction false} NextKey(ts: seq<Token>, c: Config)
    requires c.state == BlockMappingKeyState
    ensures Next(ts, c) == FromBlockKey(ts, c)
  {
  }

  lemma {:induction false} NextValue(ts: seq<Token>, c: Config)
    requires c.state == BlockMappingValueState
    ensures Next(ts, c) == FromBlockValue(ts, c)
  {
  }

  lemma {:induction false} NextFlowValue(ts: seq<Token>, c: Config)
    ensures c.state == FlowMappingValueState ==> Next(ts, c) == FromFlowValue(ts, c, false)
    ensures c.state == FlowMappingEmptyValueState ==> Next(ts, c) == FromFlowValue(ts, c, true)
  {
  }

  /** The opening token of a collection is skipped. */
  lemma {:induction false} NextAtFirst(ts: seq<Token>, c: Config)
    ensures c.state == BlockSequenceFirstEntryState ==> Next(ts, c) == FromBlockSequence(ts, Skipped(c))
    ensures c.state == BlockMappingFirstKeyState ==> Next(ts, c) == FromBlockKey(ts, Skipped(c))
    ensures c.state == FlowSequenceFirstEntryState ==> Next(ts, c) == FromFlowSequence(ts, Skipped(c), true)
    ensures c.state == FlowMappingFirstKeyState ==> Next(ts, c) == FromFlowKey(ts, Skipped(c), true)
  {
  }

  /** After the key of a pair there is a colon, or what there is after the pair. */
  lemma {:induction false} ColonFollows(ts: seq<Token>, at: nat, e: Entry, w: Where)
    requires e.Pair? && Has(ts, at, ValueTokens(e.colon, e.value))
    requires var after := at + |ValueTokens(e.colon, e.value)|;
             after < |ts| && Stops(ts[after], w)
    ensures at < |ts| && Stops(ts[at], w)
    ensures (ts[at] == ValueToken || ts[at] == ts[at + |ValueTokens(e.colon, e.value)|])
    ensures e.colon ==> ts[at] == ValueToken
    ensures !e.colon ==> |ValueTokens(e.colon, e.value)| == 0
  {
    hide Tokens, Has;
    if e.colon {
      HasFirst(ts, at, ValueToken, Tokens(e.value));
    }
  }

  lemma {:induction false} FlowSequencePlaces(ts: seq<Token>, i: nat, s: Syntax, tags: seq<TagDirective>)
    requires s.FlowSequence? && Has(ts, i, Tokens(s))
    ensures var list := Listed(s.entries, s.comma, true, FlowSequenceEndToken);
            && Has(ts, i, PropsTokens(s.props) + [FlowSequenceStartToken])
            && Has(ts, i + |PropsTokens(s.props)| + 1, list)
            && |Tokens(s)| == |PropsTokens(s.props)| + 1 + |list|
    ensures Events(s, tags) == [Begin(s.props, tags, true, Flow)] + (EntryEvents(s.entries, tags, true) + [SequenceEnd])
  {
    hide PropsTokens, Listed, EntryEvents, Begin, Has;
    var list := Listed(s.entries, s.comma, true, FlowSequenceEndToken);
    assert Tokens(s) == PropsTokens(s.props) + [FlowSequenceStartToken] + list;
    HasBoth(ts, i, PropsTokens(s.props) + [FlowSequenceStartToken], list);
  }

  lemma {:induction false} FlowSequenceParses(ts: seq<Token>, c: Config, s: Syntax, w: Where)
    requires s.FlowSequence? && Fits(s, c.tags, w) && Written(ts, c.head, s, w) && c.states != []
    ensures Parses(ts, c, s, w)
    decreases s, 0
  {
    hide Starts, Yields, FromNode, PropsTokens, PropsOk, FromFlowSequence, Listed, EntryEvents, Begin, EntryFits,
         SkipFits, Tokens, Events, Has, Next, Stops, Popped;
    FlowSequencePlaces(ts, c.head, s, c.tags);
    var first := c.(head := c.head + |PropsTokens(s.props)|, state := FlowSequenceFirstEntryState);
    FlowItems(ts, Skipped(first), s.entries, s.comma, true);
    NextAtFirst(ts, first);
    PoppedMoved(c, first.state, first.head + 1);
    var rest, d := EntryEvents(s.entries, c.tags, true) + [SequenceEnd], Popped(c).(head := c.head + |Tokens(s)|);
    StartsHere(ts, first, rest, d);
    Announced(ts, c, w, s.props, FlowSequenceStartToken, first.state, Begin(s.props, c.tags, true, Flow), rest, d);
  }

  lemma {:induction false} FlowMappingPlaces(ts: seq<Token>, i: nat, s: Syntax, tags: seq<TagDirective>)
    requires s.FlowMapping? && Has(ts, i, Tokens(s))
    ensures var list := Listed(s.entries, s.comma, true, FlowMappingEndToken);
            && Has(ts, i, PropsTokens(s.props) + [FlowMappingStartToken])
            && Has(ts, i + |PropsTokens(s.props)| + 1, list)
            && |Tokens(s)| == |PropsTokens(s.props)| + 1 + |list|
    ensures Events(s, tags) ==
            [Begin(s.props, tags, false, Flow)] + (EntryEvents(s.entries, tags, false) + [MappingEnd])
  {
    hide PropsTokens, Listed, EntryEvents, Begin, Has;
    var list := Listed(s.entries, s.comma, true, FlowMappingEndToken);
    assert Tokens(s) == PropsTokens(s.props) + [FlowMappingStartToken] + list;
    HasBoth(ts, i, PropsTokens(s.props) + [FlowMappingStartToken], list);
  }

  lemma {:induction false} FlowMappingParses(ts: seq<Token>, c: Config, s: Syntax, w: Where)
    requires s.FlowMapping? && Fits(s, c.tags, w) && Written(ts, c.head, s, w) && c.states != []
    ensures Parses(ts, c, s, w)
    decreases s, 0
  {
    hide Starts, Yields, FromNode, PropsTokens, PropsOk, FromFlowKey, Listed, EntryEvents, Begin, EntryFits, SkipFits,
         Tokens, Events, Has, Next, Stops, Popped;
    FlowMappingPlaces(ts, c.head, s, c.tags);
    var first := c.(head := c.head + |PropsTokens(s.props)|, state := FlowMappingFirstKeyState);
    FlowPairs(ts, Skipped(first), s.entries, s.comma, true);
    NextAtFirst(ts, first);
    PoppedMoved(c, first.state, first.head + 1);
    var rest, d := EntryEvents(s.entries, c.tags, false) + [MappingEnd], Popped(c).(head := c.head + |Tokens(s)|);
    StartsHere(ts, first, rest, d);
    Announced(ts, c, w, s.props, FlowMappingStartToken, first.state, Begin(s.props, c.tags, false, Flow), rest, d);
  }

  /** What there is after an entry of a flow collection. */
  lemma {:induction false} ListFollow(ts: seq<Token>, at: nat, entries: seq<Entry>, comma: bool, end: Token)
    requires Has(ts, at, Listed(entries, comma, false, end))
    requires end == FlowSequenceEndToken || end == FlowMappingEndToken
    ensures at < |ts| && (ts[at] == FlowEntryToken || ts[at] == end) && Stops(ts[at], InFlow)
    ensures entries == [] && !comma ==> ts[at] == end
  {
    hide Tokens;
    var part := Listed(entries, comma, false, end);
    assert ts[at] == ts[at..at + |part|][0] == part[0];
  }

  lemma {:induction false} ListSplit(entries: seq<Entry>, comma: bool, first: bool, end: Token, tags: seq<TagDirective>)
    requires entries != []
    ensures Listed(entries, comma, first, end) ==
            (if first then [] else [FlowEntryToken]) +
            (EntryTokens(entries[0]) + Listed(entries[1..], comma, false, end))
    ensures EntryEvents(entries, tags, true) + [SequenceEnd] ==
            EntryEvent(entries[0], tags, true) + (EntryEvents(entries[1..], tags, true) + [SequenceEnd])
    ensures EntryEvents(entries, tags, false) + [MappingEnd] ==
            EntryEvent(entries[0], tags, false) + (EntryEvents(entries[1..], tags, false) + [MappingEnd])
  {
    hide EntryTokens, EntryEvent;
  }

  /** The end of a flow collection, with or without a comma before it. */
  lemma {:induction false} ListEnds(ts: seq<Token>, c: Config, comma: bool, first: bool, end: Token)
    requires Has(ts, c.head, Listed([], comma, first, end)) && (first ==> !comma)
    requires end == FlowSequenceEndToken || end == FlowMappingEndToken
    ensures var d := if comma then Skipped(c) else c;
            PastComma(ts, c, first, end) == Some(d) && At(ts, d.head) == Some(end)
            && d.head + 1 == c.head + |Listed([], comma, first, end)|
  {
    hide Has;
    if comma {
      assert Listed([], comma, first, end) == [FlowEntryToken] + ([end] + []);
      HasFirst(ts, c.head, FlowEntryToken, [end] + []);
      HasFirst(ts, c.head + 1, end, []);
    } else {
      assert Listed([], comma, first, end) == [end] + [];
      HasFirst(ts, c.head, end, []);
    }
  }

  /** The comma before an entry. */
  lemma {:induction false} CommaPassed(ts: seq<Token>, c: Config, first: bool, end: Token, part: seq<Token>)
    requires Has(ts, c.head, (if first then [] else [FlowEntryToken]) + part) && part != []
    requires end == FlowSequenceEndToken || end == FlowMappingEndToken
    ensures var d := if first then c else Skipped(c);
            PastComma(ts, c, first, end) == Some(d) && Has(ts, d.head, part) && d.head < |ts| && ts[d.head] == part[0]
  {
    if first {
      assert [] + part == part;
    } else {
      HasFirst(ts, c.head, FlowEntryToken, part);
    }
    var d := if first then c else Skipped(c);
    assert ts[d.head] == ts[d.head..d.head + |part|][0];
  }

  /** A node of a flow collection, and then state `next`. */
  lemma {:induction false} FlowNode(ts: seq<Token>, c: Config, s: Syntax, next: State)
    requires Fits(s, c.tags, InFlow) && Written(ts, c.head, s, InFlow)
    ensures Starts(Node(ts, c, next, false, false), ts, Events(s, c.tags),
                   c.(state := next, head := c.head + |Tokens(s)|))
    ensures c.head < |ts| && Opening(ts[c.head], InFlow)
    decreases s, 2
  {
    hide Starts, FromNode, Fits, Tokens, Events, Stops;
    Starter(ts, c.head, s, c.tags, InFlow);
    NodeParses(ts, c.(states := c.states + [next]), s, InFlow);
    assert (c.states + [next])[..|c.states|] == c.states;
  }

  /** The first entry of a flow collection, and what follows it. */
  lemma {:induction false} ListFront(ts: seq<Token>, c: Config, entries: seq<Entry>, comma: bool, first: bool,
                                     end: Token)
    requires entries != [] && EntryFits(entries[0], c.tags) && Has(ts, c.head, Listed(entries, comma, first, end))
    requires end == FlowSequenceEndToken || end == FlowMappingEndToken
    ensures var d := if first then c else Skipped(c);
            var at := d.head + |EntryTokens(entries[0])|;
            && PastComma(ts, c, first, end) == Some(d) && Has(ts, d.head, EntryTokens(entries[0]))
            && at < |ts| && (ts[at] == FlowEntryToken || ts[at] == end) && Stops(ts[at], InFlow)
            && (entries[1..] == [] && !comma ==> ts[at] == end)
            && Has(ts, at, Listed(entries[1..], comma, false, end))
            && at + |Listed(entries[1..], comma, false, end)| == c.head + |Listed(entries, comma, first, end)|
            && d.head < |ts| && EntryTokens(entries[0]) != [] && ts[d.head] == EntryTokens(entries[0])[0]
  {
    hide Has, Stops, Listed, EntryTokens, EntryFits, PastComma, EntryEvents, EntryEvent;
    var more := Listed(entries[1..], comma, false, end);
    ListSplit(entries, comma, first, end, c.tags);
    EntryStarts(entries[0], c.tags);
    CommaPassed(ts, c, first, end, EntryTokens(entries[0]) + more);
    var d := if first then c else Skipped(c);
    HasBoth(ts, d.head, EntryTokens(entries[0]), more);
    ListFollow(ts, d.head + |EntryTokens(entries[0])|, entries[1..], comma, end);
  }

  lemma {:induction false} ListCloses(ts: seq<Token>, c: Config, comma: bool, first: bool)
    ensures var d := if comma then Skipped(c) else c;
            && (PastComma(ts, c, first, FlowSequenceEndToken) == Some(d)
                && At(ts, d.head) == Some(FlowSequenceEndToken) ==>
                  FromFlowSequence(ts, c, first) == Some(Move(SequenceEnd, Popped(Skipped(d)))))
            && (PastComma(ts, c, first, FlowMappingEndToken) == Some(d)
                && At(ts, d.head) == Some(FlowMappingEndToken) ==>
                  FromFlowKey(ts, c, first) == Some(Move(MappingEnd, Popped(Skipped(d)))))
  {
    hide PastComma;
  }

  lemma {:induction false} FlowItems(ts: seq<Token>, c: Config, entries: seq<Entry>, comma: bool, first: bool)
    requires c.states != [] && Has(ts, c.head, Listed(entries, comma, first, FlowSequenceEndToken))
    requires first && entries == [] ==> !comma
    requires forall i :: 0 <= i < |entries| ==>
               && EntryFits(entries[i], c.tags)
               && (entries[i].Pair? ==> SkipFits(entries[i], i == |entries| - 1 && !comma))
    ensures Starts(FromFlowSequence(ts, c, first), ts, EntryEvents(entries, c.tags, true) + [SequenceEnd],
                   Popped(c).(head := c.head + |Listed(entries, comma, first, FlowSequenceEndToken)|))
    decreases entries
  {
    hide Starts, Has, Stops, Listed, EntryEvents, EntryEvent, EntryTokens, EntryFits, SkipFits, PastComma, Next,
         FromFlowSequence, Popped;
    var end := FlowSequenceEndToken;
    if entries == [] {
      NoItems(c.tags);
      ListEnds(ts, c, comma, first, end);
      ListCloses(ts, c, comma, first);
      PoppedMoved(c, c.state, (if comma then c.head + 1 else c.head) + 1);
      StartsOne(Move(SequenceEnd, Popped(Skipped(if comma then Skipped(c) else c))), ts);
    } else {
      ListFront(ts, c, entries, comma, first, end);
      var d := if first then c else Skipped(c);
      FlowItem(ts, c, first, entries[0], entries[1..] == [] && !comma);
      var next := c.(state := FlowSequenceEntryState, head := d.head + |EntryTokens(entries[0])|);
      PoppedMoved(c, FlowSequenceEntryState, d.head + |EntryTokens(entries[0])|);
      FlowItems(ts, next, entries[1..], comma, false);
      NextInSequence(ts, next);
      EntryEventsChain(FromFlowSequence(ts, c, first), ts, c.tags, entries, true, next,
                       Popped(next).(head := next.head + |Listed(entries[1..], comma, false, end)|));
    }
  }

  lemma {:induction false} NextInSequence(ts: seq<Token>, c: Config)
    requires c.state == FlowSequenceEntryState
    ensures Next(ts, c) == FromFlowSequence(ts, c, false)
  {
  }

  lemma {:induction false} EntryStarts(e: Entry, tags: seq<TagDirective>)
    requires EntryFits(e, tags)
    ensures EntryTokens(e) != []
    ensures if e.Pair? then EntryTokens(e)[0] == KeyToken else Opening(EntryTokens(e)[0], InFlow)
  {
    hide Tokens, Fits;
    if e.One? {
      FirstToken(e.node, tags, InFlow);
    }
  }

  /** An entry of a flow sequence. */
  lemma {:induction false} FlowItem(ts: seq<Token>, c: Config, first: bool, e: Entry, last: bool)
    requires EntryFits(e, c.tags) && (e.Pair? ==> SkipFits(e, last))
    requires var d := if first then c else Skipped(c);
             var at := d.head + |EntryTokens(e)|;
             && PastComma(ts, c, first, FlowSequenceEndToken) == Some(d) && Has(ts, d.head, EntryTokens(e))
             && at < |ts| && (ts[at] == FlowEntryToken || ts[at] == FlowSequenceEndToken) && Stops(ts[at], InFlow)
             && (last ==> ts[at] == FlowSequenceEndToken)
    ensures var d := if first then c else Skipped(c);
            Starts(FromFlowSequence(ts, c, first), ts, EntryEvent(e, c.tags, true),
                   c.(state := FlowSequenceEntryState, head := d.head + |EntryTokens(e)|))
    decreases e, 2
  {
    hide Starts, Node, Fits, Tokens, Events, Has, Stops, PastComma, SkipFits, FromPairKey, ValueTokens, PairFits;
    var d := if first then c else Skipped(c);
    match e {
      case One(node) =>
        FlowNode(ts, d, node, FlowSequenceEntryState);
        assert Events(node, c.tags) + [] == Events(node, c.tags);
      case Pair(key, skipped, colon, value) =>
        var part := Tokens(key) + (skipped + ValueTokens(colon, value));
        HasFirst(ts, d.head, KeyToken, part);
        var event, inside := MappingStart(None, None, true, Flow),
            Skipped(d).(state := FlowSequenceEntryMappingKeyState);
        FlowPair(ts, inside, e, last);
        StartsOne(Move(event, inside), ts);
        Chain(FromFlowSequence(ts, c, first), ts, [event], inside,
              Events(key, c.tags) + (Events(value, c.tags) + [MappingEnd]),
              c.(state := FlowSequenceEntryState, head := d.head + |EntryTokens(e)|), EntryEvent(e, c.tags, true));
    }
  }

  /** The key of a pair in a flow sequence. */
  lemma {:induction false} FlowPairKey(ts: seq<Token>, c: Config, e: Entry, last: bool)
    requires e.Pair? && PairFits(e, c.tags, InFlow) && SkipFits(e, last) && Has(ts, c.head, Tokens(e.key) + e.skipped)
    requires var at := c.head + |Tokens(e.key) + e.skipped|;
             at < |ts| && Stops(ts[at], InFlow) && (last && !e.colon ==> ts[at] == FlowSequenceEndToken)
    ensures Starts(FromPairKey(ts, c), ts, Events(e.key, c.tags),
                   c.(state := FlowSequenceEntryMappingValueState, head := c.head + |Tokens(e.key) + e.skipped|))
    decreases e, 0
  {
    hide Starts, Node, Fits, Tokens, Events, Stops;
    var next := FlowSequenceEntryMappingValueState;
    if e.key.Missing? {
      NoTokens(c.tags);
      assert Tokens(e.key) + e.skipped == e.skipped;
      if e.skipped == [] {
        StartsOne(Move(EMPTY_SCALAR, c.(state := next)), ts);
      } else {
        assert e.skipped == [e.skipped[0]] + [];
        HasFirst(ts, c.head, e.skipped[0], []);
        StartsOne(Move(EMPTY_SCALAR, Skipped(c).(state := next)), ts);
      }
    } else {
      assert Tokens(e.key) + e.skipped == Tokens(e.key);
      FlowNode(ts, c, e.key, next);
    }
  }

  /** The value of a pair in a flow sequence. */
  lemma {:induction false} FlowPairValue(ts: seq<Token>, c: Config, e: Entry)
    requires e.Pair? && PairFits(e, c.tags, InFlow) && Has(ts, c.head, ValueTokens(e.colon, e.value))
    requires var at := c.head + |ValueTokens(e.colon, e.value)|;
             at < |ts| && (ts[at] == FlowEntryToken || ts[at] == FlowSequenceEndToken) && Stops(ts[at], InFlow)
    ensures Starts(FromPairValue(ts, c), ts, Events(e.value, c.tags),
                   c.(state := FlowSequenceEntryMappingEndState, head := c.head + |ValueTokens(e.colon, e.value)|))
    decreases e, 0
  {
    hide Starts, FromNode, Fits, Tokens, Events, Optional, Has;
    if e.colon {
      HasFirst(ts, c.head, ValueToken, Tokens(e.value));
      PartParses(ts, Skipped(c), e.value, InFlow, FlowSequenceEntryMappingEndState, NO_PAIR_VALUE);
    } else {
      NoTokens(c.tags);
      StartsOne(Move(EMPTY_SCALAR, c.(state := FlowSequenceEntryMappingEndState)), ts);
    }
  }

  /** A pair of a flow sequence, from the state for its key on. */
  lemma {:induction false} FlowPair(ts: seq<Token>, c: Config, e: Entry, last: bool)
    requires c.state == FlowSequenceEntryMappingKeyState
    requires e.Pair? && PairFits(e, c.tags, InFlow) && SkipFits(e, last)
    requires var part := Tokens(e.key) + (e.skipped + ValueTokens(e.colon, e.value));
             var at := c.head + |part|;
             && Has(ts, c.head, part)
             && at < |ts| && (ts[at] == FlowEntryToken || ts[at] == FlowSequenceEndToken) && Stops(ts[at], InFlow)
             && (last ==> ts[at] == FlowSequenceEndToken)
    ensures Starts(FromPairKey(ts, c), ts, Events(e.key, c.tags) + (Events(e.value, c.tags) + [MappingEnd]),
                   c.(state := FlowSequenceEntryState, head := c.head + |Tokens(e.key)
                      + (e.skipped + ValueTokens(e.colon, e.value))|))
    decreases e, 1
  {
    hide Starts, Fits, Tokens, Events, Has, Stops, PairFits, SkipFits, ValueTokens, FromPairKey, FromPairValue;
    var value := ValueTokens(e.colon, e.value);
    assert Tokens(e.key) + (e.skipped + value) == Tokens(e.key) + e.skipped + value;
    HasBoth(ts, c.head, Tokens(e.key) + e.skipped, value);
    var at := c.head + |Tokens(e.key) + e.skipped|;
    ColonFollows(ts, at, e, InFlow);
    FlowPairKey(ts, c, e, last);
    var mid, done := c.(state := FlowSequenceEntryMappingValueState, head := at),
                     c.(state := FlowSequenceEntryMappingEndState, head := at + |value|);
    FlowPairValue(ts, mid, e);
    var d := done.(state := FlowSequenceEntryState);
    StartsOne(Move(MappingEnd, d), ts);
    Chain(FromPairValue(ts, mid), ts, Events(e.value, c.tags), done, [MappingEnd], d,
          Events(e.value, c.tags) + [MappingEnd]);
    Chain(FromPairKey(ts, c), ts, Events(e.key, c.tags), mid, Events(e.value, c.tags) + [MappingEnd], d,
          Events(e.key, c.tags) + (Events(e.value, c.tags) + [MappingEnd]));
  }

  lemma {:induction false} FlowPairs(ts: seq<Token>, c: Config, entries: seq<Entry>, comma: bool, first: bool)
    requires c.states != [] && Has(ts, c.head, Listed(entries, comma, first, FlowMappingEndToken))
    requires first && entries == [] ==> !comma
    requires forall i :: 0 <= i < |entries| ==>
               EntryFits(entries[i], c.tags) && (entries[i].Pair? ==> entries[i].skipped == [])
    ensures Starts(FromFlowKey(ts, c, first), ts, EntryEvents(entries, c.tags, false) + [MappingEnd],
                   Popped(c).(head := c.head + |Listed(entries, comma, first, FlowMappingEndToken)|))
    decreases entries
  {
    hide Starts, Has, Stops, Listed, EntryEvents, EntryEvent, EntryTokens, EntryFits, SkipFits, PastComma, Next,
         FromFlowKey, Popped;
    var end := FlowMappingEndToken;
    if entries == [] {
      NoItems(c.tags);
      ListEnds(ts, c, comma, first, end);
      ListCloses(ts, c, comma, first);
      PoppedMoved(c, c.state, (if comma then c.head + 1 else c.head) + 1);
      StartsOne(Move(MappingEnd, Popped(Skipped(if comma then Skipped(c) else c))), ts);
    } else {
      ListFront(ts, c, entries, comma, first, end);
      var d := if first then c else Skipped(c);
      FlowMappingEntry(ts, c, first, entries[0]);
      var next := c.(state := FlowMappingKeyState, head := d.head + |EntryTokens(entries[0])|);
      PoppedMoved(c, FlowMappingKeyState, d.head + |EntryTokens(entries[0])|);
      FlowPairs(ts, next, entries[1..], comma, false);
      NextInMapping(ts, next);
      EntryEventsChain(FromFlowKey(ts, c, first), ts, c.tags, entries, false, next,
                       Popped(next).(head := next.head + |Listed(entries[1..], comma, false, end)|));
    }
  }

  lemma {:induction false} NextInMapping(ts: seq<Token>, c: Config)
    requires c.state == FlowMappingKeyState
    ensures Next(ts, c) == FromFlowKey(ts, c, false)
  {
  }

  /** The value of a pair in a flow mapping. */
  lemma {:induction false} FlowValue(ts: seq<Token>, c: Config, e: Entry)
    requires e.Pair? && PairFits(e, c.tags, InFlow) && Has(ts, c.head, ValueTokens(e.colon, e.value))
    requires var at := c.head + |ValueTokens(e.colon, e.value)|;
             at < |ts| && (ts[at] == FlowEntryToken || ts[at] == FlowMappingEndToken) && Stops(ts[at], InFlow)
    ensures Starts(FromFlowValue(ts, c, false), ts, Events(e.value, c.tags),
                   c.(state := FlowMappingKeyState, head := c.head + |ValueTokens(e.colon, e.value)|))
    decreases e, 0
  {
    hide Starts, FromNode, Fits, Tokens, Events, Optional, Has;
    if e.colon {
      HasFirst(ts, c.head, ValueToken, Tokens(e.value));
      PartParses(ts, Skipped(c), e.value, InFlow, FlowMappingKeyState, NO_FLOW_VALUE);
    } else {
      NoTokens(c.tags);
      StartsOne(Move(EMPTY_SCALAR, c.(state := FlowMappingKeyState)), ts);
    }
  }

  lemma {:induction false} FlowKeyAt(ts: seq<Token>, c: Config, d: Config, first: bool)
    requires PastComma(ts, c, first, FlowMappingEndToken) == Some(d) && At(ts, d.head) == Some(KeyToken)
    ensures FromFlowKey(ts, c, first) == Optional(ts, Skipped(d), FlowMappingValueState, false, false, NO_FLOW_KEY)
  {
    hide PastComma, Optional;
  }

  /** A pair of a flow mapping, from its key token on. */
  lemma {:induction false} FlowMappingPair(ts: seq<Token>, c: Config, d: Config, first: bool, e: Entry)
    requires e.Pair? && PairFits(e, c.tags, InFlow) && e.skipped == [] && d == (if first then c else Skipped(c))
    requires var at := d.head + |EntryTokens(e)|;
             && PastComma(ts, c, first, FlowMappingEndToken) == Some(d) && Has(ts, d.head, EntryTokens(e))
             && at < |ts| && (ts[at] == FlowEntryToken || ts[at] == FlowMappingEndToken) && Stops(ts[at], InFlow)
    ensures Starts(FromFlowKey(ts, c, first), ts, EntryEvent(e, c.tags, false),
                   c.(state := FlowMappingKeyState, head := d.head + |EntryTokens(e)|))
    decreases e, 1
  {
    hide Starts, Node, Fits, Tokens, Events, Has, Stops, PastComma, ValueTokens, Optional, Next, FromFlowValue,
         EntryTokens, FromFlowKey;
    var after := ValueTokens(e.colon, e.value);
    PairFront(ts, d.head, e);
    var at := d.head + 1 + |Tokens(e.key)|;
    ColonFollows(ts, at, e, InFlow);
    var mid, next := c.(state := FlowMappingValueState, head := at),
        c.(state := FlowMappingKeyState, head := at + |after|);
    PartParses(ts, Skipped(d), e.key, InFlow, FlowMappingValueState, NO_FLOW_KEY);
    FlowKeyAt(ts, c, d, first);
    FlowValue(ts, mid, e);
    NextFlowValue(ts, mid);
    Chain(FromFlowKey(ts, c, first), ts, Events(e.key, c.tags), mid, Events(e.value, c.tags), next,
          EntryEvent(e, c.tags, false));
  }

  /** An entry of a flow mapping. */
  lemma {:induction false} FlowMappingEntry(ts: seq<Token>, c: Config, first: bool, e: Entry)
    requires EntryFits(e, c.tags) && (e.Pair? ==> e.skipped == [])
    requires var d := if first then c else Skipped(c);
             var at := d.head + |EntryTokens(e)|;
             && PastComma(ts, c, first, FlowMappingEndToken) == Some(d) && Has(ts, d.head, EntryTokens(e))
             && at < |ts| && (ts[at] == FlowEntryToken || ts[at] == FlowMappingEndToken) && Stops(ts[at], InFlow)
    ensures var d := if first then c else Skipped(c);
            Starts(FromFlowKey(ts, c, first), ts, EntryEvent(e, c.tags, false),
                   c.(state := FlowMappingKeyState, head := d.head + |EntryTokens(e)|))
    decreases e, 2
  {
    hide Starts, Node, Fits, Tokens, Events, Has, Stops, PastComma, ValueTokens, Optional, PairFits;
    var d := if first then c else Skipped(c);
    if e.Pair? {
      FlowMappingPair(ts, c, d, first, e);
    } else {
      FlowNode(ts, d, e.node, FlowMappingEmptyValueState);
      var mid := c.(state := FlowMappingEmptyValueState, head := d.head + |Tokens(e.node)|);
      var next := mid.(state := FlowMappingKeyState);
      StartsOne(Move(EMPTY_SCALAR, next), ts);
      Chain(FromFlowKey(ts, c, first), ts, Events(e.node, c.tags), mid, [EMPTY_SCALAR], next,
            EntryEvent(e, c.tags, false));
    }
  }

  // Documents and streams.

  lemma {:induction false} DirectivesRead(ts: seq<Token>, i: nat, ds: seq<Token>, tags: seq<TagDirective>, seen: bool)
    requires Has(ts, i, ds) && i + |ds| < |ts| && !IsDirective(ts[i + |ds|]) && TagsAfter(ds, tags, seen).Some?
    ensures Directives(ts, i, tags, seen) ==
            Some(Config(BlockNodeState, [DocumentEndState], i + |ds|, WithDefaults(TagsAfter(ds, tags, seen).value)))
    decreases |ds|
  {
    hide WithDefaults, HasHandle, Has;
    if ds != [] {
      assert ds == [ds[0]] + ds[1..];
      HasFirst(ts, i, ds[0], ds[1..]);
      match ds[0] {
        case VersionDirectiveToken(_, _) => DirectivesRead(ts, i + 1, ds[1..], tags, true);
        case TagDirectiveToken(handle, prefix) =>
          DirectivesRead(ts, i + 1, ds[1..], tags + [TagDirective(handle, prefix)], seen);
        case _ =>
      }
    }
  }

  /** The directives say the same where they stand. */
  lemma {:induction false} DirectivesSay(ts: seq<Token>, i: nat, ds: seq<Token>, j: nat)
    requires Has(ts, i, ds) && i + |ds| < |ts| && !IsDirective(ts[i + |ds|]) && j <= |ds|
    ensures VersionIn(ts, i + j) == VersionIn(ds, j) && TagsIn(ts, i + j) == TagsIn(ds, j)
    decreases |ds| - j
  {
    if j < |ds| {
      assert ts[i + j] == ts[i..i + |ds|][j] == ds[j];
      DirectivesSay(ts, i, ds, j + 1);
    }
  }

  lemma {:induction false} EndsSkipped(ts: seq<Token>, i: nat, n: nat)
    requires Has(ts, i, Ends(n)) && i + n < |ts| && |Ends(n)| == n && ts[i + n] != DocumentEndToken
    ensures AfterEnds(ts, i) == i + n
    decreases n
  {
    hide Has;
    if n > 0 {
      HasFirst(ts, i, DocumentEndToken, Ends(n - 1));
      EndsSkipped(ts, i + 1, n - 1);
    }
  }

  lemma {:induction false} EndsLength(n: nat)
    ensures |Ends(n)| == n
  {
    if n > 0 {
      EndsLength(n - 1);
    }
  }

  /** A token that a document can be followed by. */
  predicate Between(t: Token) {
    IsDirective(t) || t.DocumentStartToken? || t.StreamEndToken?
  }

  /** How a document may start: with good directives and a marker, or with a node. */
  predicate Opens(ts: seq<Token>, i: nat, d: Doc) {
    if d.marked then TagsAfter(d.directives, [], false).Some?
    else d.directives == [] && i < |ts| && Opening(ts[i], InBlock)
  }

  /** A document, from the decision how it starts on. */
  lemma {:induction false} DocOpens(ts: seq<Token>, c: Config, d: Doc, implicit: bool)
    requires Opens(ts, c.head, d) && c.tags == [] && (!d.marked ==> implicit)
    requires Has(ts, c.head, HeadTokens(d)) && c.head + |HeadTokens(d)| < |ts|
    ensures FromDocument(ts, c, implicit) ==
            Some(Move(StartEvent(d.directives, d.marked),
                      Config(if d.marked then DocumentContentState else BlockNodeState, [DocumentEndState],
                             c.head + |HeadTokens(d)|, DocTags(d))))
  {
    hide Has, WithDefaults, Directives, TagsAfter;
    if d.marked {
      HasBoth(ts, c.head, d.directives, [DocumentStartToken]);
      assert [DocumentStartToken] + [] == [DocumentStartToken];
      HasFirst(ts, c.head + |d.directives|, DocumentStartToken, []);
      DirectivesRead(ts, c.head, d.directives, [], false);
      DirectivesSay(ts, c.head, d.directives, 0);
      FirstOfHead(ts, c.head, d);
    } else {
      NoTokensThere(ts, c.head);
      DirectivesRead(ts, c.head, d.directives, [], false);
    }
  }

  lemma {:induction false} FittingOpens(ts: seq<Token>, i: nat, d: Doc)
    requires DocFits(d) && Has(ts, i, HeadTokens(d)) && Has(ts, i + |HeadTokens(d)|, Tokens(d.root))
    ensures Opens(ts, i, d)
  {
    hide Has, Fits, Tokens, WithDefaults, TagsAfter, MayFit;
    if !d.marked {
      Starter(ts, i, d.root, DocTags(d), InBlock);
    }
  }

  lemma {:induction false} NoTokensThere(ts: seq<Token>, i: nat)
    requires i <= |ts|
    ensures Has(ts, i, []) && TagsAfter([], [], false) == Some([])
  {
  }

  lemma {:induction false} FirstOfHead(ts: seq<Token>, i: nat, d: Doc)
    requires d.marked && Has(ts, i, d.directives + [DocumentStartToken]) && TagsAfter(d.directives, [], false).Some?
    ensures i < |ts| && (IsDirective(ts[i]) || ts[i] == DocumentStartToken)
  {
    var part := d.directives + [DocumentStartToken];
    assert ts[i] == ts[i..i + |part|][0] == part[0];
  }

  lemma {:induction false} RootParses(ts: seq<Token>, c: Config, d: Doc)
    requires DocFits(d) && c.states == [DocumentEndState] && c.tags == DocTags(d)
    requires c.state == if d.marked then DocumentContentState else BlockNodeState
    requires Has(ts, c.head, Tokens(d.root)) && c.head + |Tokens(d.root)| < |ts|
    requires var t := ts[c.head + |Tokens(d.root)|]; t == DocumentEndToken || Between(t)
    ensures Starts(Next(ts, c), ts, Events(d.root, c.tags),
                   Config(DocumentEndState, [], c.head + |Tokens(d.root)|, c.tags))
  {
    hide Has, Fits, Tokens, Events, Starts, FromNode, DocTags;
    if d.root.Missing? {
      NotMissing(c.tags, InBlock);
      NoTokens(c.tags);
      StartsOne(Move(EMPTY_SCALAR, Popped(c)), ts);
    } else {
      Starter(ts, c.head, d.root, c.tags, InBlock);
      NodeParses(ts, c, d.root, InBlock);
    }
  }

  /** A document is read as its events; of its end markers one belongs to it. */
  /** Where the parts of a document are. */
  lemma {:induction false} DocPlaces(ts: seq<Token>, i: nat, d: Doc)
    requires Has(ts, i, DocTokens(d)) && i + |DocTokens(d)| < |ts| && Between(ts[i + |DocTokens(d)|])
    ensures var root := i + |HeadTokens(d)|;
            var at := root + |Tokens(d.root)|;
            && Has(ts, i, HeadTokens(d)) && Has(ts, root, Tokens(d.root)) && at < |ts|
            && at == i + |HeadTokens(d) + Tokens(d.root)|
            && if d.ends == 0 then Between(ts[at]) else ts[at] == DocumentEndToken
  {
    hide Has, Tokens, HeadTokens, Between;
    var front, ends := HeadTokens(d) + Tokens(d.root), Ends(d.ends);
    assert DocTokens(d) == front + ends;
    HasBoth(ts, i, front, ends);
    HasBoth(ts, i, HeadTokens(d), Tokens(d.root));
    EndsLength(d.ends);
    if d.ends > 0 {
      HasFirst(ts, i + |front|, DocumentEndToken, Ends(d.ends - 1));
    }
  }

  lemma {:induction false} DocEnds(ts: seq<Token>, at: nat, tags: seq<TagDirective>, ends: nat)
    requires at < |ts| && if ends == 0 then Between(ts[at]) else ts[at] == DocumentEndToken
    ensures Starts(Next(ts, Config(DocumentEndState, [], at, tags)), ts, [DocumentEnd(ends == 0)],
                   Config(DocumentStartState, [], at + (if ends == 0 then 0 else 1), []))
  {
    hide Starts;
    StartsOne(Move(DocumentEnd(ends == 0), Config(DocumentStartState, [], at + (if ends == 0 then 0 else 1), [])), ts);
  }

  lemma {:induction false} DocParses(ts: seq<Token>, c: Config, d: Doc, implicit: bool)
    requires DocFits(d) && c.tags == [] && (!d.marked ==> implicit) && Has(ts, c.head, DocTokens(d))
    requires c.head + |DocTokens(d)| < |ts| && Between(ts[c.head + |DocTokens(d)|])
    ensures Starts(FromDocument(ts, c, implicit), ts, DocEvents(d),
                   Config(DocumentStartState, [],
                          c.head + |HeadTokens(d) + Tokens(d.root)| + (if d.ends == 0 then 0 else 1), []))
  {
    hide Has, Tokens, Events, Starts, FromDocument, DocTags, DocFits, DocTokens, HeadTokens, Between, Next, Opens,
         StartEvent;
    DocPlaces(ts, c.head, d);
    FittingOpens(ts, c.head, d);
    DocOpens(ts, c, d, implicit);
    var at, event := c.head + |HeadTokens(d)| + |Tokens(d.root)|, StartEvent(d.directives, d.marked);
    var inside := Config(if d.marked then DocumentContentState else BlockNodeState, [DocumentEndState],
                         c.head + |HeadTokens(d)|, DocTags(d));
    RootParses(ts, inside, d);
    DocEnds(ts, at, DocTags(d), d.ends);
    var done, next := Config(DocumentEndState, [], at, DocTags(d)),
                      Config(DocumentStartState, [], at + (if d.ends == 0 then 0 else 1), []);
    StartsOne(Move(event, inside), ts);
    var end, rest := [DocumentEnd(d.ends == 0)], Events(d.root, DocTags(d)) + [DocumentEnd(d.ends == 0)];
    Chain(Next(ts, inside), ts, Events(d.root, DocTags(d)), done, end, next, rest);
    Chain(FromDocument(ts, c, implicit), ts, [event], inside, rest, next, DocEvents(d));
  }

  lemma {:induction false} DocsFollow(ts: seq<Token>, at: nat, docs: seq<Doc>)
    requires Has(ts, at, DocsTokens(docs) + [StreamEndToken])
    requires forall i :: 0 <= i < |docs| ==> DocFits(docs[i]) && docs[i].marked
    ensures at < |ts| && Between(ts[at])
  {
    hide Fits, Tokens, MayFit, Ends;
    var part := DocsTokens(docs) + [StreamEndToken];
    assert ts[at] == ts[at..at + |part|][0] == part[0];
    if docs != [] {
      var d := docs[0];
      assert part[0] == HeadTokens(d)[0];
    }
  }

  lemma {:induction false} DocsSplit(docs: seq<Doc>)
    requires docs != []
    ensures DocsTokens(docs) + [StreamEndToken] ==
            HeadTokens(docs[0]) + Tokens(docs[0].root)
              + (Ends(docs[0].ends) + (DocsTokens(docs[1..]) + [StreamEndToken]))
    ensures DocsTokens(docs) + [StreamEndToken] == DocTokens(docs[0]) + (DocsTokens(docs[1..]) + [StreamEndToken])
    ensures DocsEvents(docs) + [StreamEnd] == DocEvents(docs[0]) + (DocsEvents(docs[1..]) + [StreamEnd])
    ensures |DocTokens(docs[0])| == |HeadTokens(docs[0]) + Tokens(docs[0].root)| + docs[0].ends
  {
    hide HeadTokens, Tokens, Ends, DocEvents;
    EndsLength(docs[0].ends);
  }

  /** The documents of a stream, once the first is decided on or past the end markers of the one before. */
  lemma {:induction false} DocsParse(ts: seq<Token>, c: Config, docs: seq<Doc>, implicit: bool)
    requires c.tags == [] && c.states == [] && Has(ts, c.head, DocsTokens(docs) + [StreamEndToken])
    requires forall i :: 0 <= i < |docs| ==> DocFits(docs[i]) && (docs[i].marked || (implicit && i == 0))
    ensures Starts(FromDocument(ts, c, implicit), ts, DocsEvents(docs) + [StreamEnd],
                   Config(EndState, [], c.head + |DocsTokens(docs) + [StreamEndToken]|, []))
    decreases |docs|
  {
    hide Has, HeadTokens, Tokens, Ends, DocEvents, DocTokens, DocsTokens, DocsEvents, DocFits, Starts, Bare, Marked,
         Between, Next;
    if docs == [] {
      NoDocs();
      HasFirst(ts, c.head, StreamEndToken, []);
      StartsOne(Move(StreamEnd, Skipped(c).(state := EndState)), ts);
    } else {
      var d, more := docs[0], DocsTokens(docs[1..]) + [StreamEndToken];
      DocsSplit(docs);
      HasBoth(ts, c.head, DocTokens(d), more);
      DocsFollow(ts, c.head + |DocTokens(d)|, docs[1..]);
      DocParses(ts, c, d, implicit);
      var at := c.head + |HeadTokens(d) + Tokens(d.root)|;
      var next := Config(DocumentStartState, [], at + (if d.ends == 0 then 0 else 1), []);
      HasBoth(ts, c.head, HeadTokens(d) + Tokens(d.root), Ends(d.ends) + more);
      var from := next.(head := at + d.ends);
      NextDocument(ts, next, at, d.ends, more);
      DocsParse(ts, from, docs[1..], false);
      EndsLength(d.ends);
      Chain(FromDocument(ts, c, implicit), ts, DocEvents(d), next, DocsEvents(docs[1..]) + [StreamEnd],
            Config(EndState, [], from.head + |more|, []), DocsEvents(docs) + [StreamEnd]);
    }
  }

  lemma {:induction false} NoDocs()
    ensures DocsTokens([]) + [StreamEndToken] == [StreamEndToken] + [] && DocsEvents([]) + [StreamEnd] == [StreamEnd]
  {
  }

  /** The end markers that are left over are passed before the next document. */
  lemma {:induction false} NextDocument(ts: seq<Token>, c: Config, at: nat, ends: nat, more: seq<Token>)
    requires c.state == DocumentStartState && c.head == at + (if ends == 0 then 0 else 1)
    requires Has(ts, at, Ends(ends) + more) && at + ends < |ts| && Between(ts[at + ends])
    ensures Has(ts, at + ends, more) && Next(ts, c) == FromDocument(ts, c.(head := at + ends), false)
  {
    hide Has, FromDocument;
    EndsLength(ends);
    HasBoth(ts, at, Ends(ends), more);
    if ends > 0 {
      HasFirst(ts, at, DocumentEndToken, Ends(ends - 1));
      EndsLength(ends - 1);
      EndsSkipped(ts, at + 1, ends - 1);
    } else {
      EndsSkipped(ts, at, 0);
    }
  }

  /** Every stream of the grammar is read to its end, as the events it stands for. */
  lemma {:induction false} StreamParses(ts: seq<Token>, docs: seq<Doc>)
    requires StreamFits(docs) && Has(ts, 0, StreamTokens(docs))
    ensures Yields(ts, FIRST, StreamEventsOf(docs), Config(EndState, [], |StreamTokens(docs)|, []))
  {
    hide DocsTokens, DocsEvents, DocFits, Starts, Yields, FromDocument, Has;
    HasFirst(ts, 0, StreamStartToken, DocsTokens(docs) + [StreamEndToken]);
    var c := Config(ImplicitDocumentStartState, [], 1, []);
    DocsParse(ts, c, docs, true);
    StartsOne(Move(StreamStart, c), ts);
    var end := Config(EndState, [], |StreamTokens(docs)|, []);
    Chain(Next(ts, FIRST), ts, [StreamStart], c, DocsEvents(docs) + [StreamEnd], end, StreamEventsOf(docs));
    StartsHere(ts, FIRST, StreamEventsOf(docs), end);
  }
}
