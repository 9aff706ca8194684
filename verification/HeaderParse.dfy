/** The parser against the grammar that heads `parser.c`: it takes exactly the regular trees of known handles. */
module HeaderParse {
  import opened Wrappers
  import opened YamlEvents
  import opened Tags
  import opened ParserMoves
  import opened TokenGrammar
  import opened TokenParse
  import opened TokenSplit
  import opened HeaderGrammar

  // Moves that lead to an error.

  /** The moves from here come to an error. */
  ghost predicate Halts(ts: seq<Token>, c: Config) {
    exists events, d :: Yields(ts, c, events, d) && Next(ts, d) == None && d.state != EndState
  }

  ghost predicate Jams(m: Option<Move>, ts: seq<Token>) {
    m == None || Halts(ts, m.value.next)
  }

  lemma {:induction false} HaltsLater(ts: seq<Token>, c: Config, a: seq<Event>, d: Config)
    requires Yields(ts, c, a, d) && Halts(ts, d)
    ensures Halts(ts, c)
  {
    hide Next, Yields;
    var b, e :| Yields(ts, d, b, e) && Next(ts, e) == None && e.state != EndState;
    YieldsBoth(ts, c, a, d, b, e);
  }

  lemma {:induction false} HaltsHere(ts: seq<Token>, c: Config)
    requires Jams(Next(ts, c), ts) && c.state != EndState
    ensures Halts(ts, c)
  {
    hide Next;
    if Next(ts, c) == None {
      assert Yields(ts, c, [], c);
    } else {
      var m := Next(ts, c).value;
      YieldsOne(ts, c, m);
      HaltsLater(ts, c, [m.event], m.next);
    }
  }

  /** A move, the moves after it, and then an error. */
  lemma {:induction false} JamsThen(m: Option<Move>, ts: seq<Token>, a: seq<Event>, next: Config)
    requires Starts(m, ts, a, next) && Jams(Next(ts, next), ts) && next.state != EndState
    ensures Jams(m, ts)
  {
    hide Next, Yields, Halts;
    HaltsHere(ts, next);
    HaltsLater(ts, m.value.next, a[1..], next);
  }

  // Nodes.

  lemma {:induction false} DerivedFirst(s: Syntax, w: Where)
    requires Derives(s, w)
    ensures Tokens(s) != [] && Opening(Tokens(s)[0], w)
  {
    hide PropsTokens, Listed, PairTokens;
    if !s.Missing? && !s.Reference? {
      FirstProperty(s.props);
      if PropsTokens(s.props) != [] {
        assert Tokens(s)[0] == PropsTokens(s.props)[0];
      }
    }
  }

  lemma {:induction false} DerivedStarts(ts: seq<Token>, i: nat, s: Syntax, w: Where)
    requires Derives(s, w) && Has(ts, i, Tokens(s))
    ensures i < |ts| && Opening(ts[i], w)
  {
    hide Derives, Tokens;
    DerivedFirst(s, w);
    assert ts[i] == ts[i..i + |Tokens(s)|][0];
  }

  lemma {:induction false} MissingTaken(tags: seq<TagDirective>)
    ensures Taken(Missing, tags)
  {
  }

  /** A collection is announced, and then comes an error. */
  lemma {:induction false} AnnouncedJams(ts: seq<Token>, c: Config, w: Where, p: Props, open: Token, state: State)
    requires PropsOk(p, c.tags) && Has(ts, c.head, PropsTokens(p) + [open])
    requires
      || (open == BlockSequenceStartToken && state == BlockSequenceFirstEntryState && w != InFlow)
      || (open == BlockMappingStartToken && state == BlockMappingFirstKeyState && w != InFlow)
      || (open == FlowSequenceStartToken && state == FlowSequenceFirstEntryState)
      || (open == FlowMappingStartToken && state == FlowMappingFirstKeyState)
    requires Jams(Next(ts, c.(head := c.head + |PropsTokens(p)|, state := state)), ts)
    ensures Jams(FromNode(ts, c, w != InFlow, w == InPair), ts)
  {
    hide Halts, Yields, Resolve, FromNode, PropsTokens, TagOf, PropsOk, Next;
    HasBoth(ts, c.head, PropsTokens(p), [open]);
    HasFirst(ts, c.head + |PropsTokens(p)|, open, []);
    NodeContent(ts, c, w != InFlow, w == InPair, p);
    HaltsHere(ts, c.(head := c.head + |PropsTokens(p)|, state := state));
  }

  lemma {:induction false} AnnouncedUnknown(ts: seq<Token>, c: Config, w: Where, p: Props, open: Token)
    requires !PropsOk(p, c.tags) && Has(ts, c.head, PropsTokens(p) + [open]) && !open.AnchorToken? && !open.TagToken?
    ensures Jams(FromNode(ts, c, w != InFlow, w == InPair), ts)
  {
    hide FromNode, PropsTokens, PropsOk;
    HasBoth(ts, c.head, PropsTokens(p), [open]);
    HasFirst(ts, c.head + |PropsTokens(p)|, open, []);
    UnknownJams(ts, c, w != InFlow, w == InPair, p);
  }

  /** A part of a collection that is taken, after the token that announces it, is read. */
  lemma {:induction false} PartReads(ts: seq<Token>, c: Config, s: Syntax, w: Where, next: State, none: set<Token>)
    returns (events: seq<Event>)
    requires MayDerive(s, w) && Taken(s, c.tags) && Written(ts, c.head, s, w)
    requires s.Missing? ==> ts[c.head + |Tokens(s)|] in none
    requires forall t :: t in none ==> !Opening(t, w)
    ensures Starts(Optional(ts, c, next, w != InFlow, w == InPair, none), ts, events,
                   c.(state := next, head := c.head + |Tokens(s)|))
  {
    hide MayDerive, Regular, Known, Starts, Optional, Tokens, Normal, MayFit, Has, Stops, Opening, Events;
    SameTokens(s, c.tags, w);
    PartParses(ts, c, Normal(s), w, next, none);
    events := Events(Normal(s), c.tags);
  }

  /** One that is not leads to an error. */
  lemma {:induction false} PartJams(ts: seq<Token>, c: Config, s: Syntax, w: Where, next: State, none: set<Token>)
    requires MayDerive(s, w) && !Taken(s, c.tags) && Written(ts, c.head, s, w)
    requires forall t :: t in none ==> !Opening(t, w)
    ensures Jams(Optional(ts, c, next, w != InFlow, w == InPair, none), ts)
    ensures Jams(Node(ts, c, next, w != InFlow, w == InPair), ts)
    ensures c.head < |ts| && Opening(ts[c.head], w)
    decreases s, 2
  {
    hide Derives, Regular, Known, Jams, FromNode, Tokens, Has, Stops, Opening;
    MissingTaken(c.tags);
    DerivedStarts(ts, c.head, s, w);
    NodeJams(ts, c.(states := c.states + [next]), s, w);
  }

  lemma {:induction false} NodeJams(ts: seq<Token>, c: Config, s: Syntax, w: Where)
    requires Derives(s, w) && !Taken(s, c.tags) && Written(ts, c.head, s, w) && c.states != []
    ensures Jams(FromNode(ts, c, w != InFlow, w == InPair), ts)
    decreases s, 1
  {
    hide Jams, Derives, Written, FromNode;
    match s {
      case BlockSequence(_, _) => BlockSequenceJams(ts, c, s, w);
      case Indentless(_, _) => IndentlessJams(ts, c, s, w);
      case BlockMapping(_, _) => BlockMappingJams(ts, c, s, w);
      case FlowSequence(_, _, _) => FlowSequenceJams(ts, c, s, w);
      case FlowMapping(_, _, _) => FlowMappingJams(ts, c, s, w);
      case Text(_, _, _) => TextJams(ts, c, s, w);
      case Hollow(_) => TextJams(ts, c, s, w);
      case Reference(_) =>
    }
  }

  /** A tag with a handle that is not known is an error, whatever it is the tag of. */
  lemma {:induction false} UnknownJams(ts: seq<Token>, c: Config, block: bool, indentless: bool, p: Props)
    requires Has(ts, c.head, PropsTokens(p)) && !PropsOk(p, c.tags)
    requires var at := c.head + |PropsTokens(p)|; at < |ts| && !ts[at].AnchorToken? && !ts[at].TagToken?
    ensures FromNode(ts, c, block, indentless) == None
  {
    hide ReadProperties, FromContent, Resolve;
    PropsRead(ts, c.head, p);
    var part := PropsTokens(p);
    assert ts[c.head] == part[0];
  }

  lemma {:induction false} TextJams(ts: seq<Token>, c: Config, s: Syntax, w: Where)
    requires (s.Text? || s.Hollow?) && !Taken(s, c.tags) && Written(ts, c.head, s, w)
    ensures Jams(FromNode(ts, c, w != InFlow, w == InPair), ts)
  {
    hide FromNode, PropsTokens, PropsOk, Halts, Has;
    if s.Text? {
      HasBoth(ts, c.head, PropsTokens(s.props), [ScalarToken(s.value, s.style)]);
      assert [ScalarToken(s.value, s.style)] + [] == [ScalarToken(s.value, s.style)];
      HasFirst(ts, c.head + |PropsTokens(s.props)|, ScalarToken(s.value, s.style), []);
    }
    UnknownJams(ts, c, w != InFlow, w == InPair, s.props);
  }

  // Block sequences.

  ghost predicate ItemsDerive(items: seq<Syntax>) {
    forall i :: 0 <= i < |items| ==> MayDerive(items[i], InBlock)
  }

  ghost predicate ItemsTaken(items: seq<Syntax>, tags: seq<TagDirective>) {
    forall i :: 0 <= i < |items| ==> Taken(items[i], tags)
  }

  lemma {:induction false} RestIrregular(items: seq<Syntax>, tags: seq<TagDirective>)
    requires !ItemsTaken(items, tags) && ItemsDerive(items)
    ensures items != [] && ItemsDerive(items[1..]) && (Taken(items[0], tags) ==> !ItemsTaken(items[1..], tags))
  {
    hide Regular, Known, MayDerive;
    assert forall i :: 1 <= i < |items| ==> items[i] == items[1..][i - 1];
  }

  lemma {:induction false} BlockSequenceJams(ts: seq<Token>, c: Config, s: Syntax, w: Where)
    requires s.BlockSequence? && Derives(s, w) && !Taken(s, c.tags) && Written(ts, c.head, s, w)
    ensures Jams(FromNode(ts, c, w != InFlow, w == InPair), ts)
    decreases s, 0
  {
    hide Jams, FromNode, PropsTokens, PropsOk, FromBlockSequence, ItemTokens, MayDerive;
    var p, open, body := s.props, [BlockSequenceStartToken], ItemTokens(s.items) + [BlockEndToken];
    assert Tokens(s) == PropsTokens(p) + open + body;
    HasBoth(ts, c.head, PropsTokens(p) + open, body);
    if !PropsOk(p, c.tags) {
      AnnouncedUnknown(ts, c, w, p, BlockSequenceStartToken);
    } else {
      var first := c.(head := c.head + |PropsTokens(p)|, state := BlockSequenceFirstEntryState);
      ItemsJam(ts, Skipped(first), s.items);
      AnnouncedJams(ts, c, w, p, BlockSequenceStartToken, BlockSequenceFirstEntryState);
    }
  }

  lemma {:induction false} ItemsJam(ts: seq<Token>, c: Config, items: seq<Syntax>)
    requires Has(ts, c.head, ItemTokens(items) + [BlockEndToken])
    requires ItemsDerive(items) && !ItemsTaken(items, c.tags)
    ensures Jams(FromBlockSequence(ts, c), ts)
    decreases items
  {
    hide Starts, Jams, Regular, Known, MayDerive, Tokens, Optional, Has, Stops, ItemTokens, ItemsDerive, ItemsTaken;
    RestIrregular(items, c.tags);
    FirstDerives(items, c.tags);
    var item, more := items[0], ItemTokens(items[1..]) + [BlockEndToken];
    ItemSplit(items, c.tags);
    HasFirst(ts, c.head, BlockEntryToken, Tokens(item) + more);
    HasBoth(ts, c.head + 1, Tokens(item), more);
    var at := c.head + 1 + |Tokens(item)|;
    ItemFollow(ts, at, items[1..]);
    if Taken(item, c.tags) {
      var events := PartReads(ts, Skipped(c), item, InBlock, BlockSequenceEntryState, NO_BLOCK_ENTRY);
      var next := c.(state := BlockSequenceEntryState, head := at);
      ItemsJam(ts, next, items[1..]);
      JamsThen(FromBlockSequence(ts, c), ts, events, next);
    } else {
      PartJams(ts, Skipped(c), item, InBlock, BlockSequenceEntryState, NO_BLOCK_ENTRY);
    }
  }

  lemma {:induction false} FirstDerives(items: seq<Syntax>, tags: seq<TagDirective>)
    requires items != [] && ItemsDerive(items)
    ensures MayDerive(items[0], InBlock)
  {
  }

  lemma {:induction false} IndentlessJams(ts: seq<Token>, c: Config, s: Syntax, w: Where)
    requires s.Indentless? && Derives(s, w) && !Taken(s, c.tags) && Written(ts, c.head, s, w)
    ensures Jams(FromNode(ts, c, w != InFlow, w == InPair), ts)
    decreases s, 0
  {
    hide Halts, Resolve, FromNode, PropsTokens, TagOf, FromIndentless, MayDerive, Begin, FromContent;
    var p := s.props;
    HasBoth(ts, c.head, PropsTokens(p), ItemTokens(s.items));
    var first := c.(head := c.head + |PropsTokens(p)|, state := IndentlessSequenceEntryState);
    HasFirst(ts, first.head, BlockEntryToken, Tokens(s.items[0]) + ItemTokens(s.items[1..]));
    if !PropsOk(p, c.tags) {
      UnknownJams(ts, c, true, true, p);
    } else {
      IndentlessItemsJam(ts, first, s.items);
      HaltsHere(ts, first);
      NodeContent(ts, c, true, true, p);
    }
  }

  lemma {:induction false} IndentlessItemsJam(ts: seq<Token>, c: Config, items: seq<Syntax>)
    requires Has(ts, c.head, ItemTokens(items)) && c.head + |ItemTokens(items)| < |ts|
    requires ts[c.head + |ItemTokens(items)|] in NO_BLOCK_PART
    requires ItemsDerive(items) && !ItemsTaken(items, c.tags)
    ensures Jams(FromIndentless(ts, c), ts)
    decreases items
  {
    hide Starts, Jams, Regular, Known, MayDerive, Tokens, Optional, Has, Stops, ItemTokens, ItemsDerive, ItemsTaken;
    RestIrregular(items, c.tags);
    FirstDerives(items, c.tags);
    var item, more := items[0], ItemTokens(items[1..]);
    ItemSplit(items, c.tags);
    HasFirst(ts, c.head, BlockEntryToken, Tokens(item) + more);
    HasBoth(ts, c.head + 1, Tokens(item), more);
    var at := c.head + 1 + |Tokens(item)|;
    IndentlessFollow(ts, at, items[1..]);
    if Taken(item, c.tags) {
      var events := PartReads(ts, Skipped(c), item, InBlock, IndentlessSequenceEntryState, NO_INDENTLESS_ENTRY);
      var next := c.(state := IndentlessSequenceEntryState, head := at);
      IndentlessItemsJam(ts, next, items[1..]);
      JamsThen(FromIndentless(ts, c), ts, events, next);
    } else {
      PartJams(ts, Skipped(c), item, InBlock, IndentlessSequenceEntryState, NO_INDENTLESS_ENTRY);
    }
  }

  // Block mappings.

  lemma {:induction false} BlockMappingJams(ts: seq<Token>, c: Config, s: Syntax, w: Where)
    requires s.BlockMapping? && Derives(s, w) && !Taken(s, c.tags) && Written(ts, c.head, s, w)
    ensures Jams(FromNode(ts, c, w != InFlow, w == InPair), ts)
    decreases s, 0
  {
    hide Jams, FromNode, PropsTokens, PropsOk, FromBlockKey, PairTokens, PartDerives, PartRegular, PartKnown, NoStray;
    var p, open, body := s.props, [BlockMappingStartToken], PairTokens(s.pairs) + [BlockEndToken];
    assert Tokens(s) == PropsTokens(p) + open + body;
    HasBoth(ts, c.head, PropsTokens(p) + open, body);
    if !PropsOk(p, c.tags) {
      AnnouncedUnknown(ts, c, w, p, BlockMappingStartToken);
    } else {
      var first := c.(head := c.head + |PropsTokens(p)|, state := BlockMappingFirstKeyState);
      PairsJam(ts, Skipped(first), s.pairs);
      AnnouncedJams(ts, c, w, p, BlockMappingStartToken, BlockMappingFirstKeyState);
    }
  }

  /** The first pair, or the first two where they are read as one. */
  function Front(pairs: seq<Entry>): Entry
    requires pairs != []
  {
    if Joins(pairs) then Pair(pairs[0].key, pairs[0].skipped, true, pairs[1].value) else pairs[0]
  }

  lemma {:induction false} FrontSplits(pairs: seq<Entry>)
    requires pairs != [] && PairsDerive(pairs) && !pairs[0].Keyless?
    ensures var e := Front(pairs);
            && e.Pair? && PartDerives(e, InPair)
            && PairTokens(pairs) + [BlockEndToken] == EntryTokens(e) + (PairTokens(Onwards(pairs)) + [BlockEndToken])
            && PairsDerive(Onwards(pairs))
  {
    hide PartDerives, EntryTokens, PairTokens;
    OnwardsKeeps(pairs, []);
    TokensOnwards(pairs);
    assert PartDerives(pairs[0], InPair) && !pairs[0].One?;
    if Joins(pairs) {
      assert PartDerives(pairs[1], InPair);
      FrontJoined(pairs);
    }
    var a, b := EntryTokens(Front(pairs)), PairTokens(Onwards(pairs));
    assert a + b + [BlockEndToken] == a + (b + [BlockEndToken]);
  }

  lemma {:induction false} FrontJoined(pairs: seq<Entry>)
    requires Joins(pairs) && PartDerives(pairs[0], InPair) && PartDerives(pairs[1], InPair)
    ensures PartDerives(Front(pairs), InPair)
    ensures EntryTokens(Front(pairs)) == EntryTokens(pairs[0]) + EntryTokens(pairs[1])
  {
    hide Derives, Tokens;
  }

  /** What is left is not regular, if the front is. */
  lemma {:induction false} OnwardsIrregular(pairs: seq<Entry>, tags: seq<TagDirective>)
    requires PairsDerive(pairs)
    requires pairs != [] && !pairs[0].Keyless? && !(PairsTaken(pairs, tags) && NoStray(pairs))
    requires PartTaken(Front(pairs), tags)
    ensures !(PairsTaken(Onwards(pairs), tags) && NoStray(Onwards(pairs)))
  {
    hide Regular, Known;
    var rest, k := Onwards(pairs), |pairs| - |Onwards(pairs)|;
    assert forall i :: 0 <= i < |rest| ==> rest[i] == pairs[i + k];
    if PairsTaken(rest, tags) && NoStray(rest) {
      MissingTaken(tags);
      forall i | 0 <= i < |pairs|
        ensures PartTaken(pairs[i], tags) && (pairs[i].Keyless? ==> i > 0 && pairs[i - 1].Pair? && !pairs[i - 1].colon)
      {
        if i >= k {
          assert pairs[i] == rest[i - k];
          assert i > k ==> pairs[i - 1] == rest[i - 1 - k];
        }
      }
    }
  }

  lemma {:induction false} PairFirst(e: Entry)
    requires !e.One?
    ensures EntryTokens(e) != [] && EntryTokens(e)[0] == if e.Pair? then KeyToken else ValueToken
  {
    hide Tokens;
  }

  lemma {:induction false} PairsFollow(ts: seq<Token>, at: nat, pairs: seq<Entry>)
    requires Has(ts, at, PairTokens(pairs) + [BlockEndToken]) && PairsDerive(pairs)
    ensures at < |ts| && ts[at] in NO_BLOCK_PART && Stops(ts[at], InPair)
    ensures ts[at] == ValueToken <==> pairs != [] && pairs[0].Keyless?
  {
    hide Tokens, PartDerives;
    var part := PairTokens(pairs) + [BlockEndToken];
    assert ts[at] == ts[at..at + |part|][0] == part[0];
    if pairs != [] {
      PairFirst(pairs[0]);
      assert part[0] == EntryTokens(pairs[0])[0];
    }
  }

  lemma {:induction false} PairsJam(ts: seq<Token>, c: Config, pairs: seq<Entry>)
    requires Has(ts, c.head, PairTokens(pairs) + [BlockEndToken])
    requires PairsDerive(pairs) && !(PairsTaken(pairs, c.tags) && NoStray(pairs))
    ensures Jams(FromBlockKey(ts, c), ts)
    decreases pairs, 4
  {
    hide Starts, Halts, PartDerives, PartTaken, EntryTokens, Optional, Has, Stops, PairTokens, PairsDerive, PairsTaken,
         NoStray, EntryEvent, FromBlockKey, Next;
    NothingIrregular(c.tags);
    PairsFollow(ts, c.head, pairs);
    if pairs[0].Keyless? {
      NoKey(ts, c);
    } else {
      FrontSplits(pairs);
      var e, rest := Front(pairs), Onwards(pairs);
      HasBoth(ts, c.head, EntryTokens(e), PairTokens(rest) + [BlockEndToken]);
      var at := c.head + |EntryTokens(e)|;
      PairsFollow(ts, at, rest);
      ColonBeforeValue(pairs);
      if PartTaken(e, c.tags) {
        var n := PairReads(ts, c, e);
        var next := c.(state := BlockMappingKeyState, head := at);
        OnwardsIrregular(pairs, c.tags);
        NextKey(ts, next);
        PairsJam(ts, next, rest);
        JamsThen(FromBlockKey(ts, c), ts, n, next);
      } else {
        FrontJams(ts, c, pairs);
      }
    }
  }

  lemma {:induction false} NothingIrregular(tags: seq<TagDirective>)
    ensures PairsTaken([], tags) && NoStray([])
  {
  }

  lemma {:induction false} NoKey(ts: seq<Token>, c: Config)
    requires c.head < |ts| && ts[c.head] == ValueToken
    ensures FromBlockKey(ts, c) == None
  {
  }

  /** Where VALUE follows a pair, the pair has a VALUE of its own. */
  lemma {:induction false} ColonBeforeValue(pairs: seq<Entry>)
    requires pairs != [] && PairsDerive(pairs) && !pairs[0].Keyless? && Front(pairs).Pair?
    ensures Onwards(pairs) != [] && Onwards(pairs)[0].Keyless? ==> Front(pairs).colon
  {
  }

  lemma {:induction false} PairReads(ts: seq<Token>, c: Config, e: Entry) returns (events: seq<Event>)
    requires e.Pair? && PartDerives(e, InPair) && PartTaken(e, c.tags) && Has(ts, c.head, EntryTokens(e))
    requires var at := c.head + |EntryTokens(e)|;
             at < |ts| && ts[at] in NO_BLOCK_PART && Stops(ts[at], InPair) && (ts[at] == ValueToken ==> e.colon)
    ensures Starts(FromBlockKey(ts, c), ts, events,
                   c.(state := BlockMappingKeyState, head := c.head + |EntryTokens(e)|))
  {
    hide Starts, PartDerives, PartTaken, EntryTokens, Has, Stops, PairFits, EntryEvent, FromBlockKey;
    SameEntry(e, c.tags, InPair);
    NormalIsPair(e);
    var n := NormalEntry(e);
    BlockPairParses(ts, c, n);
    events := EntryEvent(n, c.tags, false);
  }

  lemma {:induction false} NormalIsPair(e: Entry)
    requires e.Pair?
    ensures NormalEntry(e).Pair? && NormalEntry(e).colon == e.colon
  {
  }

  /** The front of the pairs is not regular: its key is not, or its value is not. */
  lemma {:induction false} FrontJams(ts: seq<Token>, c: Config, pairs: seq<Entry>)
    requires pairs != [] && Front(pairs).Pair? && PartDerives(Front(pairs), InPair)
    requires !PartTaken(Front(pairs), c.tags)
    requires var e := Front(pairs);
             var at := c.head + |EntryTokens(e)|;
             && Has(ts, c.head, EntryTokens(e)) && at < |ts| && ts[at] in NO_BLOCK_PART && Stops(ts[at], InPair)
             && (ts[at] == ValueToken ==> e.colon)
    ensures Jams(FromBlockKey(ts, c), ts)
    decreases pairs, 3
  {
    hide Starts, Halts, Derives, Regular, Known, Tokens, Optional, Has, Stops, ValueTokens, Next, FromBlockValue,
         Events;
    var e := Front(pairs);
    var value := ValueTokens(e.colon, e.value);
    assert EntryTokens(e) == [KeyToken] + (Tokens(e.key) + value);
    HasFirst(ts, c.head, KeyToken, Tokens(e.key) + value);
    HasBoth(ts, c.head + 1, Tokens(e.key), value);
    var at := c.head + 1 + |Tokens(e.key)|;
    ColonFollows(ts, at, e, InPair);
    if Taken(e.key, c.tags) {
      var mid := c.(state := BlockMappingValueState, head := at);
      var events := PartReads(ts, Skipped(c), e.key, InPair, BlockMappingValueState, NO_BLOCK_PART);
      NextValue(ts, mid);
      FrontValueJams(ts, mid, pairs);
      JamsThen(FromBlockKey(ts, c), ts, events, mid);
    } else {
      PartJams(ts, Skipped(c), pairs[0].key, InPair, BlockMappingValueState, NO_BLOCK_PART);
    }
  }

  lemma {:induction false} FrontValueJams(ts: seq<Token>, c: Config, pairs: seq<Entry>)
    requires pairs != [] && Front(pairs).Pair? && PartDerives(Front(pairs), InPair)
    requires !Taken(Front(pairs).value, c.tags)
    requires var e := Front(pairs);
             var at := c.head + |ValueTokens(e.colon, e.value)|;
             Has(ts, c.head, ValueTokens(e.colon, e.value)) && at < |ts| && Stops(ts[at], InPair)
    ensures Jams(FromBlockValue(ts, c), ts)
    decreases pairs, 2
  {
    hide Halts, Derives, Regular, Known, Tokens, Optional, Has, Stops;
    MissingTaken(c.tags);
    var e := Front(pairs);
    HasFirst(ts, c.head, ValueToken, Tokens(e.value));
    if Joins(pairs) {
      KeylessJams(ts, Skipped(c), pairs[1]);
    } else {
      PartJams(ts, Skipped(c), pairs[0].value, InPair, BlockMappingKeyState, NO_BLOCK_PART);
    }
  }

  lemma {:induction false} KeylessJams(ts: seq<Token>, c: Config, e: Entry)
    requires e.Keyless? && MayDerive(e.value, InPair) && !Taken(e.value, c.tags)
    requires Written(ts, c.head, e.value, InPair)
    ensures Jams(Optional(ts, c, BlockMappingKeyState, true, true, NO_BLOCK_PART), ts)
    decreases e, 3
  {
    hide Halts, Derives, Regular, Known, Tokens, Optional, Has, Stops;
    PartJams(ts, c, e.value, InPair, BlockMappingKeyState, NO_BLOCK_PART);
  }

  // Flow sequences.

  ghost predicate EntriesDerive(entries: seq<Entry>) {
    forall i :: 0 <= i < |entries| ==> PartDerives(entries[i], InFlow) && !entries[i].Keyless?
  }

  ghost predicate EntriesTaken(entries: seq<Entry>, tags: seq<TagDirective>) {
    forall i :: 0 <= i < |entries| ==> PartTaken(entries[i], tags)
  }

  ghost predicate ListTaken(entries: seq<Entry>, tags: seq<TagDirective>) {
    forall i :: 0 <= i < |entries| ==> PartTaken(entries[i], tags) && KeyRegular(entries[i], i == |entries| - 1)
  }

  lemma {:induction false} EntriesRest(entries: seq<Entry>, tags: seq<TagDirective>)
    requires EntriesDerive(entries) && entries != []
    ensures PartDerives(entries[0], InFlow) && !entries[0].Keyless? && EntriesDerive(entries[1..])
    ensures PartTaken(entries[0], tags) && EntriesTaken(entries[1..], tags) ==> EntriesTaken(entries, tags)
    ensures PartTaken(entries[0], tags) && KeyRegular(entries[0], |entries| == 1) && ListTaken(entries[1..], tags) ==>
              ListTaken(entries, tags)
  {
    hide PartDerives, PartTaken, KeyRegular;
    assert forall i :: 1 <= i < |entries| ==> entries[i] == entries[1..][i - 1];
  }

  lemma {:induction false} NoEntries(tags: seq<TagDirective>)
    ensures EntriesTaken([], tags) && ListTaken([], tags)
  {
  }

  lemma {:induction false} EntryFirst(e: Entry)
    requires PartDerives(e, InFlow) && !e.Keyless?
    ensures EntryTokens(e) != []
    ensures if e.Pair? then EntryTokens(e)[0] == KeyToken else Opening(EntryTokens(e)[0], InFlow)
  {
    hide Tokens, Derives;
    if e.One? {
      DerivedFirst(e.node, InFlow);
    } else {
      PairFirst(e);
    }
  }

  lemma {:induction false} FlowSequenceJams(ts: seq<Token>, c: Config, s: Syntax, w: Where)
    requires s.FlowSequence? && Derives(s, w) && !Taken(s, c.tags) && Written(ts, c.head, s, w)
    ensures Jams(FromNode(ts, c, w != InFlow, w == InPair), ts)
    decreases s, 0
  {
    hide Jams, FromNode, PropsTokens, PropsOk, FromFlowSequence, Listed, PartDerives, PartRegular, PartKnown,
         KeyRegular;
    var p, open, body := s.props, [FlowSequenceStartToken], Listed(s.entries, s.comma, true, FlowSequenceEndToken);
    assert Tokens(s) == PropsTokens(p) + open + body;
    HasBoth(ts, c.head, PropsTokens(p) + open, body);
    if !PropsOk(p, c.tags) {
      AnnouncedUnknown(ts, c, w, p, FlowSequenceStartToken);
    } else {
      var first := c.(head := c.head + |PropsTokens(p)|, state := FlowSequenceFirstEntryState);
      FlowItemsJam(ts, Skipped(first), s.entries, s.comma, true);
      AnnouncedJams(ts, c, w, p, FlowSequenceStartToken, FlowSequenceFirstEntryState);
    }
  }

  /** After an entry that is not the last one there is a comma, and another entry. */
  lemma {:induction false} ListGoesOn(ts: seq<Token>, at: nat, entries: seq<Entry>, comma: bool, end: Token)
    requires Has(ts, at, Listed(entries, comma, false, end)) && entries != [] && EntriesDerive(entries)
    ensures at + 1 < |ts| && ts[at] == FlowEntryToken && (ts[at + 1] == KeyToken || Opening(ts[at + 1], InFlow))
  {
    hide EntryTokens, PartDerives, Has, Opening;
    EntryFirst(entries[0]);
    var part := EntryTokens(entries[0]) + Listed(entries[1..], comma, false, end);
    HasFirst(ts, at, FlowEntryToken, part);
    assert part == [part[0]] + part[1..];
    HasFirst(ts, at + 1, part[0], part[1..]);
  }

  lemma {:induction false} FlowItemsJam(ts: seq<Token>, c: Config, entries: seq<Entry>, comma: bool, first: bool)
    requires Has(ts, c.head, Listed(entries, comma, first, FlowSequenceEndToken))
    requires EntriesDerive(entries) && !ListTaken(entries, c.tags)
    ensures Jams(FromFlowSequence(ts, c, first), ts)
    decreases entries
  {
    hide Starts, Halts, Has, Stops, Listed, EntryTokens, PartDerives, PartTaken, KeyRegular, PastComma, Next,
         EntriesDerive, ListTaken, EntriesTaken, FromFlowSequence, Opening;
    NoEntries(c.tags);
    var end, e, rest := FlowSequenceEndToken, entries[0], entries[1..];
    var more := Listed(rest, comma, false, end);
    EntriesRest(entries, c.tags);
    ListSplit(entries, comma, first, end, c.tags);
    EntryFirst(e);
    CommaPassed(ts, c, first, end, EntryTokens(e) + more);
    var d := if first then c else Skipped(c);
    HasBoth(ts, d.head, EntryTokens(e), more);
    var at := d.head + |EntryTokens(e)|;
    ListFollow(ts, at, rest, comma, end);
    if rest != [] {
      ListGoesOn(ts, at, rest, comma, end);
    }
    if PartTaken(e, c.tags) && KeyRegular(e, rest == []) {
      assert rest != [];
      var events := ItemReads(ts, c, first, e);
      var next := c.(state := FlowSequenceEntryState, head := at);
      NextInSequence(ts, next);
      FlowItemsJam(ts, next, rest, comma, false);
      JamsThen(FromFlowSequence(ts, c, first), ts, events, next);
    } else {
      ItemJams(ts, c, first, e, rest == []);
    }
  }

  /** A regular entry of a flow sequence that is not the last one is read. */
  lemma {:induction false} ItemReads(ts: seq<Token>, c: Config, first: bool, e: Entry) returns (events: seq<Event>)
    requires PartDerives(e, InFlow) && !e.Keyless? && PartTaken(e, c.tags) && KeyRegular(e, false)
    requires var d := if first then c else Skipped(c);
             var at := d.head + |EntryTokens(e)|;
             && PastComma(ts, c, first, FlowSequenceEndToken) == Some(d) && Has(ts, d.head, EntryTokens(e))
             && at < |ts| && (ts[at] == FlowEntryToken || ts[at] == FlowSequenceEndToken) && Stops(ts[at], InFlow)
    ensures var d := if first then c else Skipped(c);
            Starts(FromFlowSequence(ts, c, first), ts, events,
                   c.(state := FlowSequenceEntryState, head := d.head + |EntryTokens(e)|))
  {
    hide Starts, PartDerives, PartTaken, KeyRegular, EntryTokens, Has, Stops, EntryFits, SkipFits, EntryEvent,
         PastComma, NormalKey, FromFlowSequence;
    SameKey(e, false, false, c.tags);
    var n := NormalKey(e, false);
    assert EntryTokens(e) + [] == EntryTokens(e);
    FlowItem(ts, c, first, n, false);
    events := EntryEvent(n, c.tags, true);
  }

  lemma {:induction false} ItemJams(ts: seq<Token>, c: Config, first: bool, e: Entry, last: bool)
    requires PartDerives(e, InFlow) && !e.Keyless? && !(PartTaken(e, c.tags) && KeyRegular(e, last))
    requires var d := if first then c else Skipped(c);
             var at := d.head + |EntryTokens(e)|;
             && PastComma(ts, c, first, FlowSequenceEndToken) == Some(d) && Has(ts, d.head, EntryTokens(e))
             && at < |ts| && Stops(ts[at], InFlow) && (ts[at] == FlowEntryToken || ts[at] == FlowSequenceEndToken)
             && (!last ==> && at + 1 < |ts| && ts[at] == FlowEntryToken
                           && (ts[at + 1] == KeyToken || Opening(ts[at + 1], InFlow)))
    ensures Jams(FromFlowSequence(ts, c, first), ts)
    decreases e, 5
  {
    hide Halts, Node, Derives, Regular, Known, Tokens, Has, Stops, PastComma, FromPairKey, ValueTokens, KeyRegular;
    var d := if first then c else Skipped(c);
    if e.One? {
      NodeKeyRegular(e, last);
      PartJams(ts, d, e.node, InFlow, FlowSequenceEntryState, {});
    } else {
      var part := Tokens(e.key) + ValueTokens(e.colon, e.value);
      assert [] + ValueTokens(e.colon, e.value) == ValueTokens(e.colon, e.value);
      HasFirst(ts, d.head, KeyToken, part);
      var inside := Skipped(d).(state := FlowSequenceEntryMappingKeyState);
      PairKeyJams(ts, inside, e, last);
      HaltsHere(ts, inside);
    }
  }

  lemma {:induction false} NodeKeyRegular(e: Entry, last: bool)
    requires e.One?
    ensures KeyRegular(e, last)
  {
  }

  /** A pair of a flow sequence that is not regular, from the state for its key on. */
  lemma {:induction false} PairKeyJams(ts: seq<Token>, c: Config, e: Entry, last: bool)
    requires c.state == FlowSequenceEntryMappingKeyState
    requires e.Pair? && PartDerives(e, InFlow) && !(PartTaken(e, c.tags) && KeyRegular(e, last))
    requires var part := Tokens(e.key) + ValueTokens(e.colon, e.value);
             var at := c.head + |part|;
             && Has(ts, c.head, part) && at < |ts| && Stops(ts[at], InFlow)
             && (ts[at] == FlowEntryToken || ts[at] == FlowSequenceEndToken)
             && (!last ==> && at + 1 < |ts| && ts[at] == FlowEntryToken
                           && (ts[at + 1] == KeyToken || Opening(ts[at + 1], InFlow)))
    ensures Jams(FromPairKey(ts, c), ts)
    decreases e, 4
  {
    hide Halts, Node, Derives, Regular, Known, Tokens, Has, Stops, ValueTokens, FromPairKey, Opening;
    MissingTaken(c.tags);
    var value := ValueTokens(e.colon, e.value);
    HasBoth(ts, c.head, Tokens(e.key), value);
    if e.key.Missing? {
      NoTokens(c.tags);
      assert [] + value == value;
      KeylessPairJams(ts, c, e, last);
    } else {
      ColonFollows(ts, c.head + |Tokens(e.key)|, e, InFlow);
      KeyedPairJams(ts, c, e);
    }
  }

  /** Where there is no key, the token that shows it is passed over, and what comes after it is not expected. */
  lemma {:induction false} KeylessPairJams(ts: seq<Token>, c: Config, e: Entry, last: bool)
    requires e.Pair? && e.key.Missing? && PartDerives(e, InFlow)
    requires !(e.value.Missing? && (e.colon || last))
    requires var value := ValueTokens(e.colon, e.value);
             var at := c.head + |value|;
             && Has(ts, c.head, value) && at < |ts|
             && (!last ==> && at + 1 < |ts| && ts[at] == FlowEntryToken
                           && (ts[at + 1] == KeyToken || Opening(ts[at + 1], InFlow)))
    ensures Jams(FromPairKey(ts, c), ts)
  {
    hide Halts, Node, Derives, Tokens, Has, FromPairKey;
    if e.value.Missing? {
      SkippedJams(ts, c);
    } else {
      HasFirst(ts, c.head, ValueToken, Tokens(e.value));
      DerivedStarts(ts, c.head + 1, e.value, InFlow);
      SkippedJams(ts, c);
    }
  }

  lemma {:induction false} SkippedJams(ts: seq<Token>, c: Config)
    requires c.head + 1 < |ts| && (ts[c.head] == ValueToken || ts[c.head] == FlowEntryToken)
    requires ts[c.head + 1] == KeyToken || Opening(ts[c.head + 1], InFlow)
    ensures Jams(FromPairKey(ts, c), ts)
  {
    hide Halts, Node, Optional, FromNode;
    var d := Skipped(c);
    var value, done, next := d.(state := FlowSequenceEntryMappingValueState),
        d.(state := FlowSequenceEntryMappingEndState),
                             d.(state := FlowSequenceEntryState);
    assert FromPairKey(ts, c) == Some(Move(EMPTY_SCALAR, value));
    assert Next(ts, next) == None;
    HaltsHere(ts, next);
    assert Next(ts, done) == Some(Move(MappingEnd, next));
    HaltsHere(ts, done);
    assert Next(ts, value) == Some(Move(EMPTY_SCALAR, done));
    HaltsHere(ts, value);
  }

  lemma {:induction false} KeyedPairJams(ts: seq<Token>, c: Config, e: Entry)
    requires e.Pair? && !e.key.Missing? && PartDerives(e, InFlow) && !PartTaken(e, c.tags)
    requires Written(ts, c.head, e.key, InFlow)
    requires var value := ValueTokens(e.colon, e.value);
             var at := c.head + |Tokens(e.key)| + |value|;
             Has(ts, c.head + |Tokens(e.key)|, value) && at < |ts| && Stops(ts[at], InFlow)
    ensures Jams(FromPairKey(ts, c), ts)
    decreases e, 3
  {
    hide Halts, Node, Derives, Regular, Known, Tokens, Has, Stops, ValueTokens, Starts, Next, FromPairValue, Events;
    var next := FlowSequenceEntryMappingValueState;
    DerivedStarts(ts, c.head, e.key, InFlow);
    if Taken(e.key, c.tags) {
      var mid := c.(state := next, head := c.head + |Tokens(e.key)|);
      var events := NodeReads(ts, c, e.key, next);
      PairValueJams(ts, mid, e);
      NextInPairValue(ts, mid);
      JamsThen(FromPairKey(ts, c), ts, events, mid);
    } else {
      PartJams(ts, c, e.key, InFlow, next, {});
    }
  }

  lemma {:induction false} NextInPairValue(ts: seq<Token>, c: Config)
    requires c.state == FlowSequenceEntryMappingValueState
    ensures Next(ts, c) == FromPairValue(ts, c)
  {
  }

  lemma {:induction false} PairValueJams(ts: seq<Token>, c: Config, e: Entry)
    requires e.Pair? && PartDerives(e, InFlow) && !Taken(e.value, c.tags)
    requires var at := c.head + |ValueTokens(e.colon, e.value)|;
             Has(ts, c.head, ValueTokens(e.colon, e.value)) && at < |ts| && Stops(ts[at], InFlow)
    ensures Jams(FromPairValue(ts, c), ts) && Jams(FromFlowValue(ts, c, false), ts)
    decreases e, 2
  {
    hide Halts, Derives, Regular, Known, Tokens, Optional, Has, Stops;
    MissingTaken(c.tags);
    HasFirst(ts, c.head, ValueToken, Tokens(e.value));
    PartJams(ts, Skipped(c), e.value, InFlow, FlowSequenceEntryMappingEndState, NO_PAIR_VALUE);
    PartJams(ts, Skipped(c), e.value, InFlow, FlowMappingKeyState, NO_FLOW_VALUE);
  }

  /** A regular node of a flow collection is read. */
  lemma {:induction false} NodeReads(ts: seq<Token>, c: Config, s: Syntax, next: State) returns (events: seq<Event>)
    requires Derives(s, InFlow) && Taken(s, c.tags) && Written(ts, c.head, s, InFlow)
    ensures Starts(Node(ts, c, next, false, false), ts, events, c.(state := next, head := c.head + |Tokens(s)|))
  {
    hide Derives, Regular, Known, Starts, Tokens, Normal, Fits, Has, Stops, Events, Node;
    DerivedThere(s, InFlow);
    SameTokens(s, c.tags, InFlow);
    FlowNode(ts, c, Normal(s), next);
    events := Events(Normal(s), c.tags);
  }

  // Flow mappings.

  lemma {:induction false} FlowMappingJams(ts: seq<Token>, c: Config, s: Syntax, w: Where)
    requires s.FlowMapping? && Derives(s, w) && !Taken(s, c.tags) && Written(ts, c.head, s, w)
    ensures Jams(FromNode(ts, c, w != InFlow, w == InPair), ts)
    decreases s, 0
  {
    hide Jams, FromNode, PropsTokens, PropsOk, FromFlowKey, Listed, PartDerives, PartRegular, PartKnown;
    var p, open, body := s.props, [FlowMappingStartToken], Listed(s.entries, s.comma, true, FlowMappingEndToken);
    assert Tokens(s) == PropsTokens(p) + open + body;
    HasBoth(ts, c.head, PropsTokens(p) + open, body);
    if !PropsOk(p, c.tags) {
      AnnouncedUnknown(ts, c, w, p, FlowMappingStartToken);
    } else {
      var first := c.(head := c.head + |PropsTokens(p)|, state := FlowMappingFirstKeyState);
      FlowPairsJam(ts, Skipped(first), s.entries, s.comma, true);
      AnnouncedJams(ts, c, w, p, FlowMappingStartToken, FlowMappingFirstKeyState);
    }
  }

  lemma {:induction false} FlowPairsJam(ts: seq<Token>, c: Config, entries: seq<Entry>, comma: bool, first: bool)
    requires Has(ts, c.head, Listed(entries, comma, first, FlowMappingEndToken))
    requires EntriesDerive(entries) && !EntriesTaken(entries, c.tags)
    ensures Jams(FromFlowKey(ts, c, first), ts)
    decreases entries
  {
    hide Starts, Halts, Has, Stops, Listed, EntryTokens, PartDerives, PartTaken, KeyRegular, PastComma, Next,
         EntriesDerive, ListTaken, EntriesTaken, FromFlowKey, Opening, EntryEvent, NormalEntry, EntryFits;
    NoEntries(c.tags);
    var end, e, rest := FlowMappingEndToken, entries[0], entries[1..];
    var more := Listed(rest, comma, false, end);
    EntriesRest(entries, c.tags);
    ListSplit(entries, comma, first, end, c.tags);
    EntryFirst(e);
    CommaPassed(ts, c, first, end, EntryTokens(e) + more);
    var d := if first then c else Skipped(c);
    HasBoth(ts, d.head, EntryTokens(e), more);
    var at := d.head + |EntryTokens(e)|;
    ListFollow(ts, at, rest, comma, end);
    if PartTaken(e, c.tags) {
      EntryNormal(e, c.tags);
      FlowMappingEntry(ts, c, first, NormalEntry(e));
      var next := c.(state := FlowMappingKeyState, head := at);
      NextInMapping(ts, next);
      FlowPairsJam(ts, next, rest, comma, false);
      JamsThen(FromFlowKey(ts, c, first), ts, EntryEvent(NormalEntry(e), c.tags, false), next);
    } else {
      FlowEntryJams(ts, c, first, e);
    }
  }

  lemma {:induction false} EntryNormal(e: Entry, tags: seq<TagDirective>)
    requires PartDerives(e, InFlow) && !e.Keyless? && PartTaken(e, tags)
    ensures var n := NormalEntry(e);
            EntryTokens(n) == EntryTokens(e) && EntryFits(n, tags) && (n.Pair? ==> n.skipped == [])
  {
    hide EntryTokens, Fits, PairFits, PartDerives, PartTaken, NormalEntry;
    SameEntry(e, tags, InFlow);
  }

  lemma {:induction false} FlowEntryJams(ts: seq<Token>, c: Config, first: bool, e: Entry)
    requires PartDerives(e, InFlow) && !e.Keyless? && !PartTaken(e, c.tags)
    requires var d := if first then c else Skipped(c);
             var at := d.head + |EntryTokens(e)|;
             && PastComma(ts, c, first, FlowMappingEndToken) == Some(d) && Has(ts, d.head, EntryTokens(e))
             && at < |ts| && Stops(ts[at], InFlow) && (ts[at] == FlowEntryToken || ts[at] == FlowMappingEndToken)
    ensures Jams(FromFlowKey(ts, c, first), ts)
    decreases e, 4
  {
    hide Halts, Node, Derives, Regular, Known, Tokens, Has, Stops, PastComma, ValueTokens, Optional, Next,
         FromFlowValue, Starts;
    var d := if first then c else Skipped(c);
    if e.One? {
      PartJams(ts, d, e.node, InFlow, FlowMappingEmptyValueState, {});
    } else {
      var value := ValueTokens(e.colon, e.value);
      assert [] + value == value;
      HasFirst(ts, d.head, KeyToken, Tokens(e.key) + value);
      FlowKeyJams(ts, Skipped(d), e);
    }
  }

  /** A pair of a flow mapping that is not regular, past its KEY token. */
  lemma {:induction false} FlowKeyJams(ts: seq<Token>, c: Config, e: Entry)
    requires e.Pair? && PartDerives(e, InFlow) && !PartTaken(e, c.tags)
    requires var part := Tokens(e.key) + ValueTokens(e.colon, e.value);
             var at := c.head + |part|;
             && Has(ts, c.head, part) && at < |ts| && Stops(ts[at], InFlow)
             && (ts[at] == FlowEntryToken || ts[at] == FlowMappingEndToken)
    ensures Jams(Optional(ts, c, FlowMappingValueState, false, false, NO_FLOW_KEY), ts)
    decreases e, 3
  {
    hide Halts, Derives, Regular, Known, Tokens, Has, Stops, ValueTokens, Optional, Next, FromFlowValue, Starts;
    HasBoth(ts, c.head, Tokens(e.key), ValueTokens(e.colon, e.value));
    var at := c.head + |Tokens(e.key)|;
    ColonFollows(ts, at, e, InFlow);
    if Taken(e.key, c.tags) {
      var mid := c.(state := FlowMappingValueState, head := at);
      var events := PartReads(ts, c, e.key, InFlow, FlowMappingValueState, NO_FLOW_KEY);
      NextFlowValue(ts, mid);
      PairValueJams(ts, mid, e);
      JamsThen(Optional(ts, c, FlowMappingValueState, false, false, NO_FLOW_KEY), ts, events, mid);
    } else {
      PartJams(ts, c, e.key, InFlow, FlowMappingValueState, NO_FLOW_KEY);
    }
  }

  // Documents and streams.

  predicate DocDerives(d: Doc) {
    if d.marked then (forall i :: 0 <= i < |d.directives| ==> IsDirective(d.directives[i]))
    && MayDerive(d.root, InBlock)
    else d.directives == [] && Derives(d.root, InBlock)
  }

  /** The streams of the grammar; only the first document can do without a marker. */
  predicate StreamDerives(docs: seq<Doc>) {
    forall i :: 0 <= i < |docs| ==> DocDerives(docs[i]) && (i > 0 ==> docs[i].marked)
  }

  predicate StreamRegular(docs: seq<Doc>) {
    forall i :: 0 <= i < |docs| ==> Regular(docs[i].root)
  }

  /** The directives of every document may stand together, and it uses no other handles. */
  predicate StreamKnown(docs: seq<Doc>) {
    forall i :: 0 <= i < |docs| ==> DocKnown(docs[i])
  }

  predicate DocKnown(d: Doc) {
    TagsAfter(d.directives, [], false).Some? && Known(d.root, DocTags(d))
  }

  predicate DocTaken(d: Doc) {
    Regular(d.root) && DocKnown(d)
  }

  function NormalDoc(d: Doc): Doc {
    d.(root := Normal(d.root))
  }

  function NormalDocs(docs: seq<Doc>): seq<Doc> {
    if docs == [] then [] else [NormalDoc(docs[0])] + NormalDocs(docs[1..])
  }

  lemma {:induction false} SameDoc(d: Doc)
    requires DocDerives(d) && DocTaken(d)
    ensures DocFits(NormalDoc(d)) && DocTokens(NormalDoc(d)) == DocTokens(d)
    ensures Tokens(NormalDoc(d).root) == Tokens(d.root) && HeadTokens(NormalDoc(d)) == HeadTokens(d)
  {
    hide Derives, Regular, Known, Fits, Tokens, Normal, TagsAfter, WithDefaults;
    SameTokens(d.root, DocTags(d), InBlock);
    if !d.marked {
      DerivedThere(d.root, InBlock);
    }
  }

  lemma {:induction false} SameDocs(docs: seq<Doc>)
    requires forall i :: 0 <= i < |docs| ==> DocDerives(docs[i]) && DocTaken(docs[i])
    ensures DocsTokens(NormalDocs(docs)) == DocsTokens(docs) && |NormalDocs(docs)| == |docs|
    ensures forall i :: 0 <= i < |docs| ==> DocFits(NormalDocs(docs)[i]) && NormalDocs(docs)[i].marked == docs[i].marked
    decreases |docs|
  {
    hide DocDerives, DocTaken, DocFits, DocTokens, Normal;
    if docs != [] {
      SameDoc(docs[0]);
      SameDocs(docs[1..]);
      assert NormalDocs(docs)[1..] == NormalDocs(docs[1..]);
    }
  }

  lemma {:induction false} DocDerivedOpens(ts: seq<Token>, i: nat, d: Doc)
    requires DocDerives(d) && TagsAfter(d.directives, [], false).Some?
    requires Has(ts, i, HeadTokens(d)) && Has(ts, i + |HeadTokens(d)|, Tokens(d.root))
    ensures Opens(ts, i, d)
  {
    hide Has, Derives, Tokens, WithDefaults, TagsAfter, MayDerive;
    if !d.marked {
      DerivedStarts(ts, i, d.root, InBlock);
    }
  }

  /** Directives that may not stand together are an error. */
  lemma {:induction false} DirectivesRefused(ts: seq<Token>, i: nat, ds: seq<Token>, tags: seq<TagDirective>,
                                             seen: bool)
    requires Has(ts, i, ds) && (forall k :: 0 <= k < |ds| ==> IsDirective(ds[k])) && TagsAfter(ds, tags, seen) == None
    ensures Directives(ts, i, tags, seen) == None
    decreases |ds|
  {
    hide HasHandle, Has;
    assert ds == [ds[0]] + ds[1..];
    HasFirst(ts, i, ds[0], ds[1..]);
    match ds[0] {
      case VersionDirectiveToken(_, _) =>
        if TagsAfter(ds[1..], tags, true) == None {
          DirectivesRefused(ts, i + 1, ds[1..], tags, true);
        }
      case TagDirectiveToken(handle, prefix) =>
        if TagsAfter(ds[1..], tags + [TagDirective(handle, prefix)], seen) == None {
          DirectivesRefused(ts, i + 1, ds[1..], tags + [TagDirective(handle, prefix)], seen);
        }
    }
  }

  lemma {:induction false} HeadJams(ts: seq<Token>, c: Config, d: Doc, implicit: bool)
    requires DocDerives(d) && TagsAfter(d.directives, [], false) == None && c.tags == []
    requires Has(ts, c.head, DocTokens(d))
    ensures FromDocument(ts, c, implicit) == None
  {
    hide Has, Directives, MayDerive, Derives, Tokens, TagsAfter;
    NoneAfterNothing();
    var rest := [DocumentStartToken] + (Tokens(d.root) + Ends(d.ends));
    assert DocTokens(d) == d.directives + rest;
    HasBoth(ts, c.head, d.directives, rest);
    assert d.directives == [d.directives[0]] + d.directives[1..];
    HasFirst(ts, c.head, d.directives[0], d.directives[1..]);
    DirectivesRefused(ts, c.head, d.directives, [], false);
  }

  lemma {:induction false} NoneAfterNothing()
    ensures TagsAfter([], [], false) == Some([])
  {
  }

  lemma {:induction false} DocJams(ts: seq<Token>, c: Config, d: Doc, implicit: bool)
    requires DocDerives(d) && !DocTaken(d) && c.tags == [] && (!d.marked ==> implicit) && Has(ts, c.head, DocTokens(d))
    requires c.head + |DocTokens(d)| < |ts| && Between(ts[c.head + |DocTokens(d)|])
    ensures Jams(FromDocument(ts, c, implicit), ts)
  {
    hide Has, Tokens, Halts, FromDocument, DocTags, Directives, FromNode, Opens, DocTokens, HeadTokens, Between,
         DocDerives, TagsAfter, Regular, Known;
    if TagsAfter(d.directives, [], false) == None {
      HeadJams(ts, c, d, implicit);
    } else {
      MissingTaken(DocTags(d));
      DocPlaces(ts, c.head, d);
      DocDerivedOpens(ts, c.head, d);
      DocOpens(ts, c, d, implicit);
      var inside := Config(if d.marked then DocumentContentState else BlockNodeState, [DocumentEndState],
                           c.head + |HeadTokens(d)|, DocTags(d));
      RootDerives(d);
      RootStops(ts[inside.head + |Tokens(d.root)|]);
      DerivedStarts(ts, inside.head, d.root, InBlock);
      NodeJams(ts, inside, d.root, InBlock);
      RootMove(ts, inside);
      HaltsHere(ts, inside);
    }
  }

  lemma {:induction false} RootDerives(d: Doc)
    requires DocDerives(d)
    ensures d.root.Missing? || Derives(d.root, InBlock)
  {
  }

  lemma {:induction false} RootStops(t: Token)
    requires t == DocumentEndToken || Between(t)
    ensures Stops(t, InBlock)
  {
  }

  lemma {:induction false} RootMove(ts: seq<Token>, c: Config)
    requires c.state == DocumentContentState || c.state == BlockNodeState
    requires c.head < |ts| && Opening(ts[c.head], InBlock)
    ensures Next(ts, c) == FromNode(ts, c, true, false)
  {
    hide FromNode;
  }

  lemma {:induction false} DocsDerivedFollow(ts: seq<Token>, at: nat, docs: seq<Doc>)
    requires Has(ts, at, DocsTokens(docs) + [StreamEndToken])
    requires forall i :: 0 <= i < |docs| ==> DocDerives(docs[i]) && docs[i].marked
    ensures at < |ts| && Between(ts[at])
  {
    hide Derives, Tokens, MayDerive, Ends;
    var part := DocsTokens(docs) + [StreamEndToken];
    assert ts[at] == ts[at..at + |part|][0] == part[0];
    if docs != [] {
      assert part[0] == HeadTokens(docs[0])[0];
    }
  }

  lemma {:induction false} DocsJam(ts: seq<Token>, c: Config, docs: seq<Doc>, implicit: bool)
    requires c.tags == [] && c.states == [] && Has(ts, c.head, DocsTokens(docs) + [StreamEndToken])
    requires forall i :: 0 <= i < |docs| ==> DocDerives(docs[i]) && (docs[i].marked || (implicit && i == 0))
    requires exists i :: 0 <= i < |docs| && !DocTaken(docs[i])
    ensures Jams(FromDocument(ts, c, implicit), ts)
    decreases |docs|
  {
    hide Has, HeadTokens, Tokens, Ends, DocEvents, DocTokens, DocsTokens, DocFits, Starts, Between, Next, Halts,
         FromDocument, DocDerives, DocTaken, Normal;
    var d, rest, more := docs[0], docs[1..], DocsTokens(docs[1..]) + [StreamEndToken];
    DocsSplit(docs);
    HasBoth(ts, c.head, DocTokens(d), more);
    DocsDerivedFollow(ts, c.head + |DocTokens(d)|, rest);
    if DocTaken(d) {
      SameDoc(d);
      DocParses(ts, c, NormalDoc(d), implicit);
      var at := c.head + |HeadTokens(d) + Tokens(d.root)|;
      var next := Config(DocumentStartState, [], at + (if d.ends == 0 then 0 else 1), []);
      HasBoth(ts, c.head, HeadTokens(d) + Tokens(d.root), Ends(d.ends) + more);
      NextDocument(ts, next, at, d.ends, more);
      EndsLength(d.ends);
      assert forall i :: 1 <= i < |docs| ==> docs[i] == rest[i - 1];
      DocsJam(ts, next.(head := at + d.ends), rest, false);
      JamsThen(FromDocument(ts, c, implicit), ts, DocEvents(NormalDoc(d)), next);
    } else {
      DocJams(ts, c, d, implicit);
    }
  }

  /** Of the streams of the grammar that heads `parser.c` the parser takes exactly the regular ones of known handles. */
  lemma {:induction false} AcceptedIffRegular(ts: seq<Token>, docs: seq<Doc>)
    requires StreamDerives(docs) && Has(ts, 0, StreamTokens(docs))
    ensures Accepted(ts) <==> StreamRegular(docs) && StreamKnown(docs)
    ensures StreamRegular(docs) && StreamKnown(docs) ==>
              Yields(ts, FIRST, StreamEventsOf(NormalDocs(docs)), Config(EndState, [], |StreamTokens(docs)|, []))
  {
    hide DocsTokens, Starts, Yields, Next, Has, Halts, DocDerives, DocFits, NormalDocs, FromDocument, Regular, DocKnown;
    if StreamRegular(docs) && StreamKnown(docs) {
      SameDocs(docs);
      var normal := NormalDocs(docs);
      StreamParses(ts, normal);
      assert Reaches(ts, FIRST, StreamEventsOf(normal), Config(EndState, [], |StreamTokens(docs)|, []));
    } else {
      HasFirst(ts, 0, StreamStartToken, DocsTokens(docs) + [StreamEndToken]);
      var c := Config(ImplicitDocumentStartState, [], 1, []);
      DocsJam(ts, c, docs, true);
      StreamJams(ts, c);
      NotAccepted(ts);
    }
  }

  lemma {:induction false} StreamJams(ts: seq<Token>, c: Config)
    requires |ts| > 0 && ts[0] == StreamStartToken && c == Config(ImplicitDocumentStartState, [], 1, [])
    requires Jams(FromDocument(ts, c, true), ts)
    ensures Halts(ts, FIRST)
  {
    hide Halts, FromDocument;
    HaltsHere(ts, c);
    HaltsHere(ts, FIRST);
  }

  /** A parser that comes to an error before the end of the stream does not accept. */
  lemma {:induction false} NotAccepted(ts: seq<Token>)
    requires Halts(ts, FIRST)
    ensures !Accepted(ts)
  {
    hide Yields, Next;
    var events, d :| Yields(ts, FIRST, events, d) && Next(ts, d) == None && d.state != EndState;
    Stuck(ts, events, d);
  }

  // Streams of the grammar that are not taken.

  const NO_PROPS := Props(None, None, false)

  function Bare(root: Syntax): seq<Doc> {
    [Doc(false, [], root, 0)]
  }

  /** The tree of `[? : x]`. */
  const VALUE_ALONE := FlowSequence(NO_PROPS, [Pair(Missing, [], true, Text(NO_PROPS, "x", Plain))], false)

  /** The tree of `[? , a]`. */
  const KEY_ALONE := FlowSequence(NO_PROPS, [Pair(Missing, [], false, Missing), One(Text(NO_PROPS, "a", Plain))], false)

  /** The tree of a block mapping whose first pair is `: x`. */
  const NO_KEY := BlockMapping(NO_PROPS, [Keyless(Text(NO_PROPS, "x", Plain))])

  lemma {:induction false} BareStream(root: Syntax)
    requires Derives(root, InBlock)
    ensures StreamDerives(Bare(root))
    ensures Accepted(StreamTokens(Bare(root))) <==> Regular(root) && Known(root, WithDefaults([]))
  {
    hide Derives, Regular, Known, WithDefaults, StreamTokens;
    NoneAfterNothing();
    var docs := Bare(root);
    assert docs[0].root == root;
    var ts := StreamTokens(docs);
    assert ts[0..|ts|] == ts;
    AcceptedIffRegular(ts, docs);
  }

  lemma {:induction false} TextTokens(value: string)
    ensures Tokens(Text(NO_PROPS, value, Plain)) == [ScalarToken(value, Plain)] && PropsTokens(NO_PROPS) == []
  {
  }

  /** A pair of a flow sequence that has a value and no key. */
  lemma {:induction false} PairWithoutKeyFails()
    ensures StreamDerives(Bare(VALUE_ALONE)) && !Accepted(StreamTokens(Bare(VALUE_ALONE)))
    ensures Tokens(VALUE_ALONE) == [FlowSequenceStartToken, KeyToken, ValueToken, ScalarToken("x", Plain),
                                    FlowSequenceEndToken]
  {
    hide WithDefaults;
    assert PartDerives(VALUE_ALONE.entries[0], InFlow);
    assert !KeyRegular(VALUE_ALONE.entries[0], true);
    BareStream(VALUE_ALONE);
    TextTokens("x");
    var entries := VALUE_ALONE.entries;
    assert EntryTokens(entries[0]) == [KeyToken, ValueToken, ScalarToken("x", Plain)] && entries[1..] == [];
    assert Listed([], false, false, FlowSequenceEndToken) == [FlowSequenceEndToken];
  }

  /** A pair of a flow sequence that ends right after KEY, before another entry. */
  lemma {:induction false} KeyAloneFails()
    ensures StreamDerives(Bare(KEY_ALONE)) && !Accepted(StreamTokens(Bare(KEY_ALONE)))
    ensures Tokens(KEY_ALONE) == [FlowSequenceStartToken, KeyToken, FlowEntryToken, ScalarToken("a", Plain),
                                  FlowSequenceEndToken]
  {
    hide WithDefaults;
    assert PartDerives(KEY_ALONE.entries[0], InFlow) && PartDerives(KEY_ALONE.entries[1], InFlow);
    assert !KeyRegular(KEY_ALONE.entries[0], false);
    BareStream(KEY_ALONE);
    TextTokens("a");
    var entries := KEY_ALONE.entries;
    var last := One(Text(NO_PROPS, "a", Plain));
    assert EntryTokens(entries[0]) == [KeyToken] && EntryTokens(last) == [ScalarToken("a", Plain)];
    assert entries[1..] == [last] && [last][1..] == [];
    assert Listed([], false, false, FlowSequenceEndToken) == [FlowSequenceEndToken];
    assert Listed([last], false, false, FlowSequenceEndToken) ==
           [FlowEntryToken, ScalarToken("a", Plain), FlowSequenceEndToken];
  }

  /** A pair of a block mapping that has a value and no key. */
  lemma {:induction false} ValueWithoutKeyFails()
    ensures StreamDerives(Bare(NO_KEY)) && !Accepted(StreamTokens(Bare(NO_KEY)))
    ensures Tokens(NO_KEY) == [BlockMappingStartToken, ValueToken, ScalarToken("x", Plain), BlockEndToken]
  {
    hide WithDefaults;
    assert PartDerives(NO_KEY.pairs[0], InPair);
    assert NO_KEY.pairs[0].Keyless? && !NoStray(NO_KEY.pairs);
    BareStream(NO_KEY);
    TextTokens("x");
    assert EntryTokens(NO_KEY.pairs[0]) == [ValueToken, ScalarToken("x", Plain)] && NO_KEY.pairs[1..] == [];
    assert PairTokens([]) == [];
  }

  /** The tree of `!x!a b`. */
  const STRANGE := Text(Props(None, Some(TagName("!x!", "a")), true), "b", Plain)

  /** A tag whose handle no directive declares. */
  lemma {:induction false} UnknownHandleFails()
    ensures StreamDerives(Bare(STRANGE)) && Regular(STRANGE) && !Accepted(StreamTokens(Bare(STRANGE)))
    ensures Tokens(STRANGE) == [TagToken("!x!", "a"), ScalarToken("b", Plain)]
  {
    BareStream(STRANGE);
    assert "!x!"[1] == 'x' && "!!"[1] == '!' && |"!"| == 1;
    var tags := WithDefaults([]);
    assert forall k :: 0 <= k < |tags| ==> tags[k].handle == "!" || tags[k].handle == "!!";
    assert !Known(STRANGE, tags);
  }

  /** Two versions before one document. */
  lemma {:induction false} TwoVersionsFail()
    ensures var version := VersionDirectiveToken(1, 1);
            var docs := [Doc(true, [version, version], Missing, 0)];
            && StreamDerives(docs) && StreamRegular(docs) && !Accepted(StreamTokens(docs))
            && StreamTokens(docs) == [StreamStartToken, version, version, DocumentStartToken, StreamEndToken]
  {
    var version := VersionDirectiveToken(1, 1);
    var d := Doc(true, [version, version], Missing, 0);
    var ts := StreamTokens([d]);
    assert [version, version][1..] == [version];
    assert TagsAfter([version], [], true) == None;
    assert !DocKnown([d][0]);
    assert [d][1..] == [] && DocsTokens([d]) == DocTokens(d) + [];
    assert ts[0..|ts|] == ts;
    AcceptedIffRegular(ts, [d]);
  }
}
