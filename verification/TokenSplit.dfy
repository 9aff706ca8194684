/** What the parser reads to its end is a stream of the token grammar. */
module TokenSplit {
  import opened Wrappers
  import opened YamlEvents
  import opened Tags
  import opened ParserMoves
  import opened TokenGrammar
  import opened TokenParse

  /** A run to the end of the stream. */
  ghost predicate Reaches(ts: seq<Token>, c: Config, events: seq<Event>, d: Config) {
    Yields(ts, c, events, d) && d.state == EndState
  }

  /** A run that is not over has a next move. */
  lemma {:induction false} Unfold(ts: seq<Token>, c: Config, events: seq<Event>, d: Config) returns (m: Move)
    requires Reaches(ts, c, events, d) && c.state != EndState
    ensures Next(ts, c) == Some(m) && events != [] && m.event == events[0] && Reaches(ts, m.next, events[1..], d)
  {
    hide Next;
    m := Next(ts, c).value;
  }

  lemma {:induction false} HasOne(ts: seq<Token>, i: nat, rest: seq<Token>)
    requires i < |ts| && Has(ts, i + 1, rest)
    ensures Has(ts, i, [ts[i]] + rest)
  {
    assert ts[i..i + 1] == [ts[i]];
    HasBoth(ts, i, [ts[i]], rest);
  }

  /** The properties that were read. */
  lemma {:induction false} PropsSplit(ts: seq<Token>, i: nat) returns (p: Props)
    requires ReadProperties(ts, i).Some?
    ensures var r := ReadProperties(ts, i).value;
            && Has(ts, i, PropsTokens(p)) && r.head == i + |PropsTokens(p)| < |ts| && r.anchor == p.anchor
            && r.tag == (if p.tag.Some? then Some(TagToken(p.tag.value.handle, p.tag.value.suffix)) else None)
  {
    hide Has;
    var r := ReadProperties(ts, i).value;
    var name := if r.tag.Some? then Some(TagName(r.tag.value.handle, r.tag.value.suffix)) else None;
    p := Props(r.anchor, name, ts[i].TagToken?);
    NoTokensThere(ts, r.head);
    if r.head == i + 1 {
      HasOne(ts, i, []);
      assert PropsTokens(p) == [ts[i]] + [];
    } else if r.head == i + 2 {
      HasOne(ts, i + 1, []);
      HasOne(ts, i, [ts[i + 1]] + []);
      assert PropsTokens(p) == [ts[i]] + ([ts[i + 1]] + []);
    } else {
      assert PropsTokens(p) == [];
    }
  }

  /** What a node was read from: a tree, and then what the rest of the run is about. */
  ghost predicate Split(ts: seq<Token>, c: Config, w: Where, event: Event, events: seq<Event>, d: Config, s: Syntax,
                        rest: seq<Event>) {
    && Fits(s, c.tags, w) && Has(ts, c.head, Tokens(s))
    && [event] + events == Events(s, c.tags) + rest && |rest| <= |events|
    && Reaches(ts, Popped(c).(head := c.head + |Tokens(s)|), rest, d)
  }

  /** The same of a node that may be missing, and is followed by state `next`. */
  ghost predicate SplitOff(ts: seq<Token>, c: Config, w: Where, next: State, event: Event, events: seq<Event>,
                           d: Config, s: Syntax, rest: seq<Event>) {
    && MayFit(s, c.tags, w) && Has(ts, c.head, Tokens(s))
    && [event] + events == Events(s, c.tags) + rest && |rest| <= |events|
    && Reaches(ts, c.(state := next, head := c.head + |Tokens(s)|), rest, d)
  }

  lemma {:induction false} NodeOff(ts: seq<Token>, c: Config, w: Where, next: State, m: Move, events: seq<Event>,
                                   d: Config)
    returns (s: Syntax, rest: seq<Event>)
    requires Node(ts, c, next, w != InFlow, w == InPair) == Some(m) && Reaches(ts, m.next, events, d)
    ensures SplitOff(ts, c, w, next, m.event, events, d, s, rest) && !s.Missing? && Fits(s, c.tags, w)
    decreases |events|, 3
  {
    hide FromNode, Fits, Tokens, Events, Reaches, Has;
    s, rest := NodeSplit(ts, c.(states := c.states + [next]), w, m, events, d);
    assert (c.states + [next])[..|c.states|] == c.states;
    NotMissing(c.tags, w);
  }

  lemma {:induction false} OptionalOff(ts: seq<Token>, c: Config, w: Where, next: State, none: set<Token>, m: Move,
                                       events: seq<Event>, d: Config) returns (s: Syntax, rest: seq<Event>)
    requires Optional(ts, c, next, w != InFlow, w == InPair, none) == Some(m) && Reaches(ts, m.next, events, d)
    ensures SplitOff(ts, c, w, next, m.event, events, d, s, rest)
    decreases |events|, 4
  {
    hide Node, Fits, Tokens, Events, Reaches, Has;
    if ts[c.head] in none {
      s, rest := Missing, events;
      NoTokens(c.tags);
      NoTokensThere(ts, c.head);
    } else {
      s, rest := NodeOff(ts, c, w, next, m, events, d);
    }
  }

  lemma {:induction false} NodeSplit(ts: seq<Token>, c: Config, w: Where, m: Move, events: seq<Event>, d: Config)
    returns (s: Syntax, rest: seq<Event>)
    requires c.states != [] && FromNode(ts, c, w != InFlow, w == InPair) == Some(m) && Reaches(ts, m.next, events, d)
    ensures Split(ts, c, w, m.event, events, d, s, rest)
    decreases |events|, 2
  {
    hide FromProperties, ReadProperties, Reaches, Has, Split;
    if ts[c.head].AliasToken? {
      s, rest := Reference(ts[c.head].value), events;
      ReferenceSplit(ts, c, w, events, d);
    } else {
      var p := PropsSplit(ts, c.head);
      s, rest := PropertiesSplit(ts, c, w, p, m, events, d);
    }
  }

  lemma {:induction false} ReferenceSplit(ts: seq<Token>, c: Config, w: Where, events: seq<Event>, d: Config)
    requires c.head < |ts| && ts[c.head].AliasToken? && Reaches(ts, Skipped(Popped(c)), events, d)
    ensures Split(ts, c, w, Alias(ts[c.head].value), events, d, Reference(ts[c.head].value), events)
  {
    hide Reaches;
  }

  lemma {:induction false} PropertiesSplit(ts: seq<Token>, c: Config, w: Where, p: Props, m: Move, events: seq<Event>,
                                           d: Config)
    returns (s: Syntax, rest: seq<Event>)
    requires c.states != [] && Has(ts, c.head, PropsTokens(p)) && c.head + |PropsTokens(p)| < |ts|
    requires var tagged := if p.tag.Some? then Some(TagToken(p.tag.value.handle, p.tag.value.suffix)) else None;
             FromProperties(ts, c.(head := c.head + |PropsTokens(p)|), w != InFlow, w == InPair, p.anchor, tagged) ==
               Some(m)
    requires Reaches(ts, m.next, events, d)
    ensures Split(ts, c, w, m.event, events, d, s, rest)
    decreases |events|, 1
  {
    hide Split, Reaches, Has, PropsTokens, Resolve;
    var at := c.(head := c.head + |PropsTokens(p)|);
    var tag := TagOf(c.tags, p);
    var t := ts[at.head];
    if w == InPair && t.BlockEntryToken? {
      s, rest := IndentlessSplit(ts, c, p, events, d);
    } else {
      match t {
        case ScalarToken(value, style) =>
          s, rest := Text(p, value, style), events;
          TextSplit(ts, c, w, p, events, d);
        case FlowSequenceStartToken => s, rest := FlowSequenceSplit(ts, c, w, p, events, d);
        case FlowMappingStartToken => s, rest := FlowMappingSplit(ts, c, w, p, events, d);
        case BlockSequenceStartToken =>
          if w != InFlow {
            s, rest := BlockSequenceSplit(ts, c, w, p, events, d);
          } else {
            s, rest := Hollow(p), events;
            HollowSplit(ts, c, w, p, events, d);
          }
        case BlockMappingStartToken =>
          if w != InFlow {
            s, rest := BlockMappingSplit(ts, c, w, p, events, d);
          } else {
            s, rest := Hollow(p), events;
            HollowSplit(ts, c, w, p, events, d);
          }
        case _ =>
          s, rest := Hollow(p), events;
          HollowSplit(ts, c, w, p, events, d);
      }
    }
  }

  lemma {:induction false} TextSplit(ts: seq<Token>, c: Config, w: Where, p: Props, events: seq<Event>, d: Config)
    requires Has(ts, c.head, PropsTokens(p)) && PropsOk(p, c.tags)
    requires var at := c.head + |PropsTokens(p)|;
             at < |ts| && ts[at].ScalarToken? && Reaches(ts, Popped(c).(head := at + 1), events, d)
    ensures var t := ts[c.head + |PropsTokens(p)|];
            Split(ts, c, w, ScalarEvent(p.anchor, TagOf(c.tags, p), t.value, t.style), events, d,
                  Text(p, t.value, t.style), events)
  {
    hide Reaches, PropsTokens, TagOf, PropsOk;
    var at := c.head + |PropsTokens(p)|;
    assert ts[at..at + 1] == [ts[at]];
    HasBoth(ts, c.head, PropsTokens(p), [ts[at]]);
  }

  lemma {:induction false} HollowSplit(ts: seq<Token>, c: Config, w: Where, p: Props, events: seq<Event>, d: Config)
    requires Has(ts, c.head, PropsTokens(p)) && PropsOk(p, c.tags) && (p.anchor.Some? || p.tag.Some?)
    requires Reaches(ts, Popped(c).(head := c.head + |PropsTokens(p)|), events, d)
    ensures var tag := TagOf(c.tags, p);
            Split(ts, c, w, Scalar(p.anchor, tag, "", IsImplicit(tag), false, Plain), events, d, Hollow(p), events)
  {
    hide Reaches, PropsTokens, TagOf, PropsOk, Has;
  }

  /** What the items of a block sequence were read from. */
  ghost predicate ItemsOff(ts: seq<Token>, c: Config, event: Event, events: seq<Event>, d: Config, items: seq<Syntax>,
                           rest: seq<Event>) {
    && (forall i :: 0 <= i < |items| ==> MayFit(items[i], c.tags, InBlock))
    && Has(ts, c.head, ItemTokens(items) + [BlockEndToken])
    && [event] + events == (ItemEvents(items, c.tags) + [SequenceEnd]) + rest && |rest| <= |events|
    && Reaches(ts, Popped(c).(head := c.head + |ItemTokens(items)| + 1), rest, d)
  }

  lemma {:induction false} SplitEnds(ts: seq<Token>, c: Config, w: Where, next: State, event: Event, events: seq<Event>,
                                     d: Config, s: Syntax, rest: seq<Event>)
    requires SplitOff(ts, c, w, next, event, events, d, s, rest)
    ensures Reaches(ts, c.(state := next, head := c.head + |Tokens(s)|), rest, d) && |rest| <= |events|
  {
  }

  lemma {:induction false} ItemsNone(ts: seq<Token>, c: Config, events: seq<Event>, d: Config)
    requires At(ts, c.head) == Some(BlockEndToken) && Reaches(ts, Popped(Skipped(c)), events, d)
    ensures ItemsOff(ts, c, SequenceEnd, events, d, [], events)
  {
    hide Reaches;
    NoItems(c.tags);
    NoTokensThere(ts, c.head + 1);
    HasOne(ts, c.head, []);
  }

  lemma {:induction false} ItemsGrow(ts: seq<Token>, c: Config, event: Event, events: seq<Event>, d: Config,
                                     item: Syntax, after: seq<Event>, more: seq<Syntax>, rest: seq<Event>)
    requires c.states != [] && At(ts, c.head) == Some(BlockEntryToken) && after != []
    requires SplitOff(ts, Skipped(c), InBlock, BlockSequenceEntryState, event, events, d, item, after)
    requires ItemsOff(ts, c.(state := BlockSequenceEntryState, head := c.head + 1 + |Tokens(item)|), after[0],
                      after[1..], d, more, rest)
    ensures ItemsOff(ts, c, event, events, d, [item] + more, rest)
  {
    hide Reaches, Has, MayFit, ItemTokens, ItemEvents, Tokens, Events;
    var items := [item] + more;
    assert items[1..] == more && items[0] == item;
    ItemSplit(items, c.tags);
    HasBoth(ts, c.head + 1, Tokens(item), ItemTokens(more) + [BlockEndToken]);
    HasOne(ts, c.head, Tokens(item) + (ItemTokens(more) + [BlockEndToken]));
    assert after == [after[0]] + after[1..];
    Joined(event, events, Events(item, c.tags), after, ItemEvents(more, c.tags) + [SequenceEnd], rest);
  }

  lemma {:induction false} ItemsSplit(ts: seq<Token>, c: Config, m: Move, events: seq<Event>, d: Config)
    returns (items: seq<Syntax>, rest: seq<Event>)
    requires c.states != [] && FromBlockSequence(ts, c) == Some(m) && Reaches(ts, m.next, events, d)
    ensures ItemsOff(ts, c, m.event, events, d, items, rest)
    decreases |events|, 6
  {
    hide Optional, Reaches, Has, ItemsOff, SplitOff, Next, Tokens;
    if ts[c.head].BlockEndToken? {
      items, rest := [], events;
      ItemsNone(ts, c, events, d);
    } else {
      var item, after := OptionalOff(ts, Skipped(c), InBlock, BlockSequenceEntryState, NO_BLOCK_ENTRY, m, events, d);
      var next := c.(state := BlockSequenceEntryState, head := c.head + 1 + |Tokens(item)|);
      SplitEnds(ts, Skipped(c), InBlock, BlockSequenceEntryState, m.event, events, d, item, after);
      var m2 := Unfold(ts, next, after, d);
      NextItem(ts, next);
      var more;
      more, rest := ItemsSplit(ts, next, m2, after[1..], d);
      items := [item] + more;
      ItemsGrow(ts, c, m.event, events, d, item, after, more, rest);
    }
  }

  /** The events of a first part, and of a second that what is left of them starts with. */
  lemma {:induction false} Joined(event: Event, events: seq<Event>, a: seq<Event>, after: seq<Event>, b: seq<Event>,
                                  rest: seq<Event>)
    requires [event] + events == a + after && after == b + rest
    ensures [event] + events == (a + b) + rest
  {
  }

  /** A collection, from its properties, its other tokens and the events inside it. */
  lemma {:induction false} WholeNode(ts: seq<Token>, c: Config, w: Where, p: Props, body: seq<Token>, s: Syntax,
                                     begin: Event, inner: seq<Event>, events: seq<Event>, rest: seq<Event>, d: Config)
    requires Fits(s, c.tags, w) && Tokens(s) == PropsTokens(p) + body && Events(s, c.tags) == [begin] + inner
    requires Has(ts, c.head, PropsTokens(p)) && Has(ts, c.head + |PropsTokens(p)|, body) && events == inner + rest
    requires Reaches(ts, Popped(c).(head := c.head + |PropsTokens(p)| + |body|), rest, d)
    ensures Split(ts, c, w, begin, events, d, s, rest)
  {
    hide Fits, Tokens, Events, PropsTokens, Has, Reaches, Popped;
    HasBoth(ts, c.head, PropsTokens(p), body);
    Prefixed(begin, events, inner, rest);
  }

  lemma {:induction false} BlockSequenceWhole(ts: seq<Token>, c: Config, w: Where, p: Props, events: seq<Event>,
                                              d: Config,
                                  items: seq<Syntax>, rest: seq<Event>)
    requires c.states != [] && Has(ts, c.head, PropsTokens(p)) && PropsOk(p, c.tags) && w != InFlow && events != []
    requires c.head + |PropsTokens(p)| < |ts| && ts[c.head + |PropsTokens(p)|] == BlockSequenceStartToken
    requires var first := c.(head := c.head + |PropsTokens(p)|, state := BlockSequenceFirstEntryState);
             ItemsOff(ts, Skipped(first), events[0], events[1..], d, items, rest)
    ensures Split(ts, c, w, Begin(p, c.tags, true, Block), events, d, BlockSequence(p, items), rest)
  {
    hide Reaches, PropsTokens, PropsOk, Has, MayFit, ItemTokens, ItemEvents, Begin, Popped;
    var at := c.head + |PropsTokens(p)|;
    HeadTail(events);
    PoppedMoved(c, BlockSequenceFirstEntryState, at + 1);
    HasOne(ts, at, (ItemTokens(items) + [BlockEndToken]));
    WholeNode(ts, c, w, p, [BlockSequenceStartToken] + (ItemTokens(items) + [BlockEndToken]), BlockSequence(p, items),
              Begin(p, c.tags, true, Block),
              ItemEvents(items, c.tags) + [SequenceEnd], events, rest, d);
  }

  lemma {:induction false} BlockSequenceSplit(ts: seq<Token>, c: Config, w: Where, p: Props, events: seq<Event>,
                                              d: Config)
    returns (s: Syntax, rest: seq<Event>)
    requires c.states != [] && Has(ts, c.head, PropsTokens(p)) && PropsOk(p, c.tags) && w != InFlow
    requires var at := c.head + |PropsTokens(p)|;
             at < |ts| && ts[at] == BlockSequenceStartToken
             && Reaches(ts, c.(head := at, state := BlockSequenceFirstEntryState), events, d)
    ensures Split(ts, c, w, Begin(p, c.tags, true, Block), events, d, s, rest)
    decreases |events|, 0
  {
    hide Reaches, PropsTokens, PropsOk, Has, Next, Split, ItemsOff, FromBlockSequence, Begin;
    var first := c.(head := c.head + |PropsTokens(p)|, state := BlockSequenceFirstEntryState);
    var m := Unfold(ts, first, events, d);
    NextAtFirst(ts, first);
    var items;
    items, rest := ItemsSplit(ts, Skipped(first), m, events[1..], d);
    s := BlockSequence(p, items);
    BlockSequenceWhole(ts, c, w, p, events, d, items, rest);
  }

  lemma {:induction false} Prefixed(event: Event, events: seq<Event>, body: seq<Event>, rest: seq<Event>)
    requires events == body + rest
    ensures [event] + events == ([event] + body) + rest
  {
  }

  /** What the items of an indentless sequence were read from. */
  ghost predicate IndentlessOff(ts: seq<Token>, c: Config, event: Event, events: seq<Event>, d: Config,
                                items: seq<Syntax>, rest: seq<Event>) {
    && (forall i :: 0 <= i < |items| ==> MayFit(items[i], c.tags, InBlock))
    && Has(ts, c.head, ItemTokens(items)) && (c.head < |ts| && ts[c.head].BlockEntryToken? ==> items != [])
    && [event] + events == (ItemEvents(items, c.tags) + [SequenceEnd]) + rest && |rest| <= |events|
    && Reaches(ts, Popped(c).(head := c.head + |ItemTokens(items)|), rest, d)
  }

  lemma {:induction false} IndentlessNone(ts: seq<Token>, c: Config, events: seq<Event>, d: Config)
    requires c.head < |ts| && !ts[c.head].BlockEntryToken? && Reaches(ts, Popped(c), events, d)
    ensures IndentlessOff(ts, c, SequenceEnd, events, d, [], events)
  {
    hide Reaches;
    NoItems(c.tags);
    NoTokensThere(ts, c.head);
  }

  lemma {:induction false} IndentlessGrow(ts: seq<Token>, c: Config, event: Event, events: seq<Event>, d: Config,
                                          item: Syntax, after: seq<Event>, more: seq<Syntax>, rest: seq<Event>)
    requires c.states != [] && At(ts, c.head) == Some(BlockEntryToken) && after != []
    requires SplitOff(ts, Skipped(c), InBlock, IndentlessSequenceEntryState, event, events, d, item, after)
    requires IndentlessOff(ts, c.(state := IndentlessSequenceEntryState, head := c.head + 1 + |Tokens(item)|), after[0],
                           after[1..], d,
                           more, rest)
    ensures IndentlessOff(ts, c, event, events, d, [item] + more, rest)
  {
    hide Reaches, Has, MayFit, ItemTokens, ItemEvents, Tokens, Events;
    var items := [item] + more;
    assert items[1..] == more && items[0] == item;
    ItemSplit(items, c.tags);
    HasBoth(ts, c.head + 1, Tokens(item), ItemTokens(more));
    HasOne(ts, c.head, Tokens(item) + ItemTokens(more));
    assert after == [after[0]] + after[1..];
    Joined(event, events, Events(item, c.tags), after, ItemEvents(more, c.tags) + [SequenceEnd], rest);
  }

  lemma {:induction false} IndentlessItemsSplit(ts: seq<Token>, c: Config, m: Move, events: seq<Event>, d: Config)
    returns (items: seq<Syntax>, rest: seq<Event>)
    requires c.states != [] && FromIndentless(ts, c) == Some(m) && Reaches(ts, m.next, events, d)
    ensures IndentlessOff(ts, c, m.event, events, d, items, rest)
    decreases |events|, 6
  {
    hide Optional, Reaches, Has, IndentlessOff, SplitOff, Next, Tokens;
    if !ts[c.head].BlockEntryToken? {
      items, rest := [], events;
      IndentlessNone(ts, c, events, d);
    } else {
      var item, after := OptionalOff(ts, Skipped(c), InBlock, IndentlessSequenceEntryState, NO_INDENTLESS_ENTRY, m,
                                     events, d);
      var next := c.(state := IndentlessSequenceEntryState, head := c.head + 1 + |Tokens(item)|);
      SplitEnds(ts, Skipped(c), InBlock, IndentlessSequenceEntryState, m.event, events, d, item, after);
      var m2 := Unfold(ts, next, after, d);
      NextIndentless(ts, next);
      var more;
      more, rest := IndentlessItemsSplit(ts, next, m2, after[1..], d);
      items := [item] + more;
      IndentlessGrow(ts, c, m.event, events, d, item, after, more, rest);
    }
  }

  lemma {:induction false} IndentlessParts(p: Props, items: seq<Syntax>, tags: seq<TagDirective>)
    requires PropsOk(p, tags) && items != [] && forall i :: 0 <= i < |items| ==> MayFit(items[i], tags, InBlock)
    ensures Fits(Indentless(p, items), tags, InPair)
    ensures Tokens(Indentless(p, items)) == PropsTokens(p) + ItemTokens(items)
    ensures Events(Indentless(p, items), tags) ==
            [Begin(p, tags, true, Block)] + (ItemEvents(items, tags) + [SequenceEnd])
  {
    hide PropsOk, PropsTokens, ItemTokens, ItemEvents, MayFit, Begin;
  }

  lemma {:induction false} IndentlessWhole(ts: seq<Token>, c: Config, p: Props, events: seq<Event>, d: Config,
                                  items: seq<Syntax>, rest: seq<Event>)
    requires c.states != [] && Has(ts, c.head, PropsTokens(p)) && PropsOk(p, c.tags) && events != []
    requires c.head + |PropsTokens(p)| < |ts| && ts[c.head + |PropsTokens(p)|] == BlockEntryToken
    requires var first := c.(head := c.head + |PropsTokens(p)|, state := IndentlessSequenceEntryState);
             IndentlessOff(ts, first, events[0], events[1..], d, items, rest)
    ensures Split(ts, c, InPair, Begin(p, c.tags, true, Block), events, d, Indentless(p, items), rest)
  {
    hide Reaches, PropsTokens, PropsOk, Has, MayFit, ItemTokens, ItemEvents, Begin, Popped;
    var at := c.head + |PropsTokens(p)|;
    HeadTail(events);
    PoppedMoved(c, IndentlessSequenceEntryState, at);
    IndentlessParts(p, items, c.tags);
    hide Fits, Tokens, Events;
    WholeNode(ts, c, InPair, p, ItemTokens(items), Indentless(p, items), Begin(p, c.tags, true, Block),
              ItemEvents(items, c.tags) + [SequenceEnd], events, rest, d);
  }

  lemma {:induction false} IndentlessSplit(ts: seq<Token>, c: Config, p: Props, events: seq<Event>, d: Config)
    returns (s: Syntax, rest: seq<Event>)
    requires c.states != [] && Has(ts, c.head, PropsTokens(p)) && PropsOk(p, c.tags)
    requires var at := c.head + |PropsTokens(p)|;
             at < |ts| && ts[at] == BlockEntryToken
             && Reaches(ts, c.(head := at, state := IndentlessSequenceEntryState), events, d)
    ensures Split(ts, c, InPair, Begin(p, c.tags, true, Block), events, d, s, rest)
    decreases |events|, 0
  {
    hide Reaches, PropsTokens, PropsOk, Has, Next, Split, IndentlessOff, FromIndentless, Begin;
    var first := c.(head := c.head + |PropsTokens(p)|, state := IndentlessSequenceEntryState);
    var m := Unfold(ts, first, events, d);
    NextIndentless(ts, first);
    var items;
    items, rest := IndentlessItemsSplit(ts, first, m, events[1..], d);
    s := Indentless(p, items);
    IndentlessWhole(ts, c, p, events, d, items, rest);
  }

  /** What the value of a pair was read from. */
  ghost predicate ValueOff(ts: seq<Token>, c: Config, w: Where, next: State, event: Event, events: seq<Event>,
                           d: Config, colon: bool, value: Syntax, rest: seq<Event>) {
    && MayFit(value, c.tags, w) && (!colon ==> value.Missing?) && Has(ts, c.head, ValueTokens(colon, value))
    && [event] + events == Events(value, c.tags) + rest && |rest| <= |events|
    && Reaches(ts, c.(state := next, head := c.head + |ValueTokens(colon, value)|), rest, d)
  }

  lemma {:induction false} ValueSplit(ts: seq<Token>, c: Config, w: Where, next: State, none: set<Token>, m: Move,
                                      events: seq<Event>,
                                      d: Config) returns (colon: bool, value: Syntax, rest: seq<Event>)
    requires c.head < |ts| && Reaches(ts, m.next, events, d)
    requires Some(m) == if ts[c.head].ValueToken? then Optional(ts, Skipped(c), next, w != InFlow, w == InPair, none)
             else Empty(c, next)
    ensures ValueOff(ts, c, w, next, m.event, events, d, colon, value, rest)
    decreases |events|, 5
  {
    hide Optional, Reaches, Has, MayFit, Tokens, Events;
    if ts[c.head].ValueToken? {
      colon := true;
      value, rest := OptionalOff(ts, Skipped(c), w, next, none, m, events, d);
      HasOne(ts, c.head, Tokens(value));
    } else {
      colon, value, rest := false, Missing, events;
      NoTokens(c.tags);
      MissingFits(c.tags, w);
      NoTokensThere(ts, c.head);
    }
  }

  lemma {:induction false} MissingFits(tags: seq<TagDirective>, w: Where)
    ensures MayFit(Missing, tags, w)
  {
  }

  /** What a pair of a block mapping was read from. */
  ghost predicate PairOff(ts: seq<Token>, c: Config, event: Event, events: seq<Event>, d: Config, e: Entry,
                          rest: seq<Event>) {
    && e.Pair? && PairFits(e, c.tags, InPair) && e.skipped == [] && Has(ts, c.head, EntryTokens(e))
    && [event] + events == EntryEvent(e, c.tags, false) + rest && |rest| <= |events|
    && Reaches(ts, c.(state := BlockMappingKeyState, head := c.head + |EntryTokens(e)|), rest, d)
  }

  lemma {:induction false} PairGrow(ts: seq<Token>, c: Config, event: Event, events: seq<Event>, d: Config, key: Syntax,
                                    after: seq<Event>, colon: bool, value: Syntax, rest: seq<Event>)
    requires At(ts, c.head) == Some(KeyToken) && after != []
    requires SplitOff(ts, Skipped(c), InPair, BlockMappingValueState, event, events, d, key, after)
    requires ValueOff(ts, c.(state := BlockMappingValueState, head := c.head + 1 + |Tokens(key)|), InPair,
                      BlockMappingKeyState,
                      after[0], after[1..], d, colon, value, rest)
    ensures PairOff(ts, c, event, events, d, Pair(key, [], colon, value), rest)
  {
    hide Reaches, Has, MayFit, Tokens, Events, ValueTokens;
    HasBoth(ts, c.head + 1, Tokens(key), ValueTokens(colon, value));
    HasOne(ts, c.head, Tokens(key) + ValueTokens(colon, value));
    assert [] + ValueTokens(colon, value) == ValueTokens(colon, value);
    assert after == [after[0]] + after[1..];
    Joined(event, events, Events(key, c.tags), after, Events(value, c.tags), rest);
  }

  lemma {:induction false} BlockPairSplit(ts: seq<Token>, c: Config, m: Move, events: seq<Event>, d: Config)
    returns (e: Entry, rest: seq<Event>)
    requires FromBlockKey(ts, c) == Some(m) && Reaches(ts, m.next, events, d) && ts[c.head].KeyToken?
    ensures PairOff(ts, c, m.event, events, d, e, rest)
    decreases |events|, 6
  {
    hide Optional, Reaches, Has, Tokens, Next, ValueTokens, SplitOff, ValueOff, PairOff;
    var key, after := OptionalOff(ts, Skipped(c), InPair, BlockMappingValueState, NO_BLOCK_PART, m, events, d);
    var mid := c.(state := BlockMappingValueState, head := c.head + 1 + |Tokens(key)|);
    SplitEnds(ts, Skipped(c), InPair, BlockMappingValueState, m.event, events, d, key, after);
    var m2 := Unfold(ts, mid, after, d);
    NextValue(ts, mid);
    var colon, value;
    colon, value, rest := ValueSplit(ts, mid, InPair, BlockMappingKeyState, NO_BLOCK_PART, m2, after[1..], d);
    e := Pair(key, [], colon, value);
    PairGrow(ts, c, m.event, events, d, key, after, colon, value, rest);
  }

  /** What the pairs of a block mapping were read from. */
  ghost predicate PairsOff(ts: seq<Token>, c: Config, event: Event, events: seq<Event>, d: Config, pairs: seq<Entry>,
                           rest: seq<Event>) {
    && PairsFit(pairs, c.tags)
    && Has(ts, c.head, PairTokens(pairs) + [BlockEndToken])
    && [event] + events == (EntryEvents(pairs, c.tags, false) + [MappingEnd]) + rest && |rest| <= |events|
    && Reaches(ts, Popped(c).(head := c.head + |PairTokens(pairs)| + 1), rest, d)
  }

  lemma {:induction false} PairEnds(ts: seq<Token>, c: Config, event: Event, events: seq<Event>, d: Config, e: Entry,
                                    rest: seq<Event>)
    requires PairOff(ts, c, event, events, d, e, rest)
    ensures Reaches(ts, c.(state := BlockMappingKeyState, head := c.head + |EntryTokens(e)|), rest, d)
    ensures |rest| <= |events|
  {
  }

  lemma {:induction false} PairsNone(ts: seq<Token>, c: Config, events: seq<Event>, d: Config)
    requires At(ts, c.head) == Some(BlockEndToken) && Reaches(ts, Popped(Skipped(c)), events, d)
    ensures PairsOff(ts, c, MappingEnd, events, d, [], events)
  {
    hide Reaches;
    NoItems(c.tags);
    NoTokensThere(ts, c.head + 1);
    HasOne(ts, c.head, []);
  }

  lemma {:induction false} PairsGrow(ts: seq<Token>, c: Config, event: Event, events: seq<Event>, d: Config, e: Entry,
                                     after: seq<Event>, more: seq<Entry>, rest: seq<Event>)
    requires c.states != [] && after != [] && PairOff(ts, c, event, events, d, e, after)
    requires PairsOff(ts, c.(state := BlockMappingKeyState, head := c.head + |EntryTokens(e)|), after[0], after[1..], d,
                      more, rest)
    ensures PairsOff(ts, c, event, events, d, [e] + more, rest)
  {
    hide Reaches, Has, PairFits, PairTokens, EntryEvents, EntryTokens, EntryEvent;
    var pairs := [e] + more;
    assert pairs[1..] == more && pairs[0] == e;
    PairSplit(pairs, c.tags);
    HasBoth(ts, c.head, EntryTokens(e), PairTokens(more) + [BlockEndToken]);
    assert after == [after[0]] + after[1..];
    Joined(event, events, EntryEvent(e, c.tags, false), after, EntryEvents(more, c.tags, false) + [MappingEnd], rest);
  }

  lemma {:induction false} PairsSplit(ts: seq<Token>, c: Config, m: Move, events: seq<Event>, d: Config)
    returns (pairs: seq<Entry>, rest: seq<Event>)
    requires c.states != [] && FromBlockKey(ts, c) == Some(m) && Reaches(ts, m.next, events, d)
    ensures PairsOff(ts, c, m.event, events, d, pairs, rest)
    decreases |events|, 7
  {
    hide Optional, Reaches, Has, EntryTokens, Next, PairOff, PairsOff;
    if ts[c.head].BlockEndToken? {
      pairs, rest := [], events;
      PairsNone(ts, c, events, d);
    } else {
      var e, after := BlockPairSplit(ts, c, m, events, d);
      var next := c.(state := BlockMappingKeyState, head := c.head + |EntryTokens(e)|);
      PairEnds(ts, c, m.event, events, d, e, after);
      var m2 := Unfold(ts, next, after, d);
      NextKey(ts, next);
      var more;
      more, rest := PairsSplit(ts, next, m2, after[1..], d);
      pairs := [e] + more;
      PairsGrow(ts, c, m.event, events, d, e, after, more, rest);
    }
  }

  lemma {:induction false} BlockMappingParts(p: Props, pairs: seq<Entry>, tags: seq<TagDirective>, w: Where)
    requires PropsOk(p, tags) && w != InFlow && PairsFit(pairs, tags)
    ensures Fits(BlockMapping(p, pairs), tags, w)
    ensures Tokens(BlockMapping(p, pairs)) ==
            PropsTokens(p) + ([BlockMappingStartToken] + (PairTokens(pairs) + [BlockEndToken]))
    ensures Events(BlockMapping(p, pairs), tags) ==
            [Begin(p, tags, false, Block)] + (EntryEvents(pairs, tags, false) + [MappingEnd])
  {
    hide PropsOk, PropsTokens, PairTokens, EntryEvents, PairFits, Begin;
  }

  lemma {:induction false} BlockMappingWhole(ts: seq<Token>, c: Config, w: Where, p: Props, events: seq<Event>,
                                             d: Config,
                                  pairs: seq<Entry>, rest: seq<Event>)
    requires c.states != [] && Has(ts, c.head, PropsTokens(p)) && PropsOk(p, c.tags) && w != InFlow && events != []
    requires c.head + |PropsTokens(p)| < |ts| && ts[c.head + |PropsTokens(p)|] == BlockMappingStartToken
    requires var first := c.(head := c.head + |PropsTokens(p)|, state := BlockMappingFirstKeyState);
             PairsOff(ts, Skipped(first), events[0], events[1..], d, pairs, rest)
    ensures Split(ts, c, w, Begin(p, c.tags, false, Block), events, d, BlockMapping(p, pairs), rest)
  {
    hide Reaches, PropsTokens, PropsOk, Has, PairFits, PairTokens, EntryEvents, Begin, Popped;
    var at := c.head + |PropsTokens(p)|;
    HeadTail(events);
    PoppedMoved(c, BlockMappingFirstKeyState, at + 1);
    HasOne(ts, at, PairTokens(pairs) + [BlockEndToken]);
    BlockMappingParts(p, pairs, c.tags, w);
    hide Fits, Tokens, Events;
    WholeNode(ts, c, w, p, [BlockMappingStartToken] + (PairTokens(pairs) + [BlockEndToken]), BlockMapping(p, pairs),
              Begin(p, c.tags, false, Block), EntryEvents(pairs, c.tags, false) + [MappingEnd], events, rest, d);
  }

  lemma {:induction false} BlockMappingSplit(ts: seq<Token>, c: Config, w: Where, p: Props, events: seq<Event>,
                                             d: Config)
    returns (s: Syntax, rest: seq<Event>)
    requires c.states != [] && Has(ts, c.head, PropsTokens(p)) && PropsOk(p, c.tags) && w != InFlow
    requires var at := c.head + |PropsTokens(p)|;
             at < |ts| && ts[at] == BlockMappingStartToken
             && Reaches(ts, c.(head := at, state := BlockMappingFirstKeyState), events, d)
    ensures Split(ts, c, w, Begin(p, c.tags, false, Block), events, d, s, rest)
    decreases |events|, 0
  {
    hide Reaches, PropsTokens, PropsOk, Has, Next, Split, PairsOff, FromBlockKey, Begin;
    var first := c.(head := c.head + |PropsTokens(p)|, state := BlockMappingFirstKeyState);
    var m := Unfold(ts, first, events, d);
    NextAtFirst(ts, first);
    var pairs;
    pairs, rest := PairsSplit(ts, Skipped(first), m, events[1..], d);
    s := BlockMapping(p, pairs);
    BlockMappingWhole(ts, c, w, p, events, d, pairs, rest);
  }

  /** An entry of a flow collection: its token sequence, its events, and the run after it. */
  ghost predicate EntryOff(ts: seq<Token>, c: Config, sequence: bool, event: Event, events: seq<Event>, d: Config,
                           e: Entry, rest: seq<Event>) {
    && EntryFits(e, c.tags) && Has(ts, c.head, EntryTokens(e))
    && EntrySkips(e, sequence, At(ts, c.head + |EntryTokens(e)|) == Some(FlowSequenceEndToken))
    && [event] + events == EntryEvent(e, c.tags, sequence) + rest && |rest| <= |events|
    && Reaches(ts, c.(state := if sequence then FlowSequenceEntryState else FlowMappingKeyState,
                      head := c.head + |EntryTokens(e)|), rest, d)
  }

  /** What the key of a pair in a flow sequence was read from. */
  ghost predicate KeyOff(ts: seq<Token>, c: Config, event: Event, events: seq<Event>, d: Config, key: Syntax,
                         skipped: seq<Token>, rest: seq<Event>) {
    && MayFit(key, c.tags, InFlow) && Has(ts, c.head, Tokens(key) + skipped)
    && (if key.Missing? then
          || skipped == [ValueToken] || skipped == [FlowEntryToken]
          || (skipped == [] && At(ts, c.head) == Some(FlowSequenceEndToken))
        else skipped == [])
    && [event] + events == Events(key, c.tags) + rest && |rest| <= |events|
    && Reaches(ts, c.(state := FlowSequenceEntryMappingValueState, head := c.head + |Tokens(key) + skipped|), rest, d)
  }

  lemma {:induction false} PairKeySplit(ts: seq<Token>, c: Config, m: Move, events: seq<Event>, d: Config)
    returns (key: Syntax, skipped: seq<Token>, rest: seq<Event>)
    requires FromPairKey(ts, c) == Some(m) && Reaches(ts, m.next, events, d)
    ensures KeyOff(ts, c, m.event, events, d, key, skipped, rest)
    decreases |events|, 5
  {
    hide Node, Reaches, Fits, Tokens, Events, Has;
    var t := ts[c.head];
    if t.FlowSequenceEndToken? {
      key, skipped, rest := Missing, [], events;
      NoTokens(c.tags);
      NoTokensThere(ts, c.head);
      assert Tokens(key) + skipped == [];
    } else if t.ValueToken? || t.FlowEntryToken? {
      key, skipped, rest := Missing, [t], events;
      NoTokens(c.tags);
      NoTokensThere(ts, c.head + 1);
      HasOne(ts, c.head, []);
      assert Tokens(key) + skipped == [t] + [];
    } else {
      skipped := [];
      key, rest := NodeOff(ts, c, InFlow, FlowSequenceEntryMappingValueState, m, events, d);
      assert Tokens(key) + [] == Tokens(key);
    }
  }

  /** A pair of a flow sequence, put together. */
  lemma {:induction false} FlowPairGrow(ts: seq<Token>, c: Config, events: seq<Event>, d: Config, key: Syntax,
                                        skipped: seq<Token>,
                                        after: seq<Event>, colon: bool, value: Syntax, last: seq<Event>)
    requires At(ts, c.head) == Some(KeyToken) && events != [] && after != [] && last != [] && last[0] == MappingEnd
    requires KeyOff(ts, Skipped(c).(state := FlowSequenceEntryMappingKeyState), events[0], events[1..], d, key, skipped,
                    after)
    requires ValueOff(ts, c.(state := FlowSequenceEntryMappingValueState, head := c.head + 1 + |Tokens(key) + skipped|),
                      InFlow,
                      FlowSequenceEntryMappingEndState, after[0], after[1..], d, colon, value, last)
    requires Reaches(ts, c.(state := FlowSequenceEntryState,
                         head := c.head + 1 + |Tokens(key) + skipped| + |ValueTokens(colon, value)|), last[1..], d)
    ensures EntryOff(ts, c, true, MappingStart(None, None, true, Flow), events, d, Pair(key, skipped, colon, value),
                     last[1..])
  {
    hide Reaches, Has, MayFit, Tokens, Events, SkipFits, ValueTokens;
    var e, after', part := Pair(key, skipped, colon, value), ValueTokens(colon, value), Tokens(key) + skipped;
    HasBoth(ts, c.head + 1, part, after');
    Regroup(Tokens(key), skipped, after');
    HasOne(ts, c.head, part + after');
    FlowPairSkips(ts, c.head + 1, key, skipped, colon, value);
    HeadTail(events);
    HeadTail(after);
    FlowPairEvents(events, Events(key, c.tags), after, Events(value, c.tags), last,
                   MappingStart(None, None, true, Flow));
    assert PairFits(e, c.tags, InFlow);
  }

  lemma {:induction false} Regroup(a: seq<Token>, b: seq<Token>, c: seq<Token>)
    ensures a + b + c == a + (b + c)
  {
  }

  lemma {:induction false} HeadTail(events: seq<Event>)
    requires events != []
    ensures events == [events[0]] + events[1..]
  {
  }

  lemma {:induction false} FlowPairEvents(events: seq<Event>, a: seq<Event>, after: seq<Event>, b: seq<Event>,
                                          last: seq<Event>, start: Event)
    requires events == a + after && after == b + last && last != [] && last[0] == MappingEnd
    ensures [start] + events == ([start] + (a + (b + [MappingEnd]))) + last[1..]
  {
    assert last == [MappingEnd] + last[1..];
  }

  /** A pair without a key and without anything in its place comes before the end, and has no value. */
  lemma {:induction false} FlowPairSkips(ts: seq<Token>, i: nat, key: Syntax, skipped: seq<Token>, colon: bool,
                                         value: Syntax)
    requires Has(ts, i + |Tokens(key) + skipped|, ValueTokens(colon, value)) && (!colon ==> value.Missing?)
    requires if key.Missing? then
               skipped == [ValueToken] || skipped == [FlowEntryToken]
                 || (skipped == [] && At(ts, i) == Some(FlowSequenceEndToken))
             else skipped == []
    ensures SkipFits(Pair(key, skipped, colon, value),
                     At(ts, i + |Tokens(key) + (skipped + ValueTokens(colon, value))|) == Some(FlowSequenceEndToken))
  {
    hide Events;
    if key.Missing? && skipped == [] {
      assert Tokens(key) + skipped == [];
      if colon {
        HasFirst(ts, i, ValueToken, Tokens(value));
      }
    }
  }

  lemma {:induction false} FlowPairSplit(ts: seq<Token>, c: Config, events: seq<Event>, d: Config)
    returns (e: Entry, rest: seq<Event>)
    requires At(ts, c.head) == Some(KeyToken)
    requires Reaches(ts, Skipped(c).(state := FlowSequenceEntryMappingKeyState), events, d)
    ensures EntryOff(ts, c, true, MappingStart(None, None, true, Flow), events, d, e, rest)
    decreases |events|, 6
  {
    hide Reaches, Has, Tokens, Next, EntryOff, KeyOff, ValueOff, Optional, FromPairKey;
    var inside := Skipped(c).(state := FlowSequenceEntryMappingKeyState);
    var m1 := Unfold(ts, inside, events, d);
    NextPair(ts, inside);
    var key, skipped, after := PairKeySplit(ts, inside, m1, events[1..], d);
    var mid := c.(state := FlowSequenceEntryMappingValueState, head := c.head + 1 + |Tokens(key) + skipped|);
    KeyEnds(ts, inside, m1.event, events[1..], d, key, skipped, after);
    var m2 := Unfold(ts, mid, after, d);
    NextPair(ts, mid);
    var colon, value, last := ValueSplit(ts, mid, InFlow, FlowSequenceEntryMappingEndState, NO_PAIR_VALUE, m2,
                                         after[1..], d);
    var done := mid.(state := FlowSequenceEntryMappingEndState, head := mid.head + |ValueTokens(colon, value)|);
    ValueEnds(ts, mid, InFlow, FlowSequenceEntryMappingEndState, m2.event, after[1..], d, colon, value, last);
    var m3 := Unfold(ts, done, last, d);
    NextPair(ts, done);
    e, rest := Pair(key, skipped, colon, value), last[1..];
    FlowPairGrow(ts, c, events, d, key, skipped, after, colon, value, last);
  }

  lemma {:induction false} NextPair(ts: seq<Token>, c: Config)
    ensures c.state == FlowSequenceEntryMappingKeyState ==> Next(ts, c) == FromPairKey(ts, c)
    ensures c.state == FlowSequenceEntryMappingValueState ==> Next(ts, c) == FromPairValue(ts, c)
    ensures c.state == FlowSequenceEntryMappingEndState ==> Next(ts, c) == FromPairEnd(ts, c)
  {
  }

  lemma {:induction false} KeyEnds(ts: seq<Token>, c: Config, event: Event, events: seq<Event>, d: Config, key: Syntax,
                                   skipped: seq<Token>, rest: seq<Event>)
    requires KeyOff(ts, c, event, events, d, key, skipped, rest)
    ensures Reaches(ts, c.(state := FlowSequenceEntryMappingValueState, head := c.head + |Tokens(key) + skipped|), rest,
                    d)
    ensures |rest| <= |events|
  {
  }

  lemma {:induction false} ValueEnds(ts: seq<Token>, c: Config, w: Where, next: State, event: Event, events: seq<Event>,
                                     d: Config, colon: bool, value: Syntax, rest: seq<Event>)
    requires ValueOff(ts, c, w, next, event, events, d, colon, value, rest)
    ensures Reaches(ts, c.(state := next, head := c.head + |ValueTokens(colon, value)|), rest, d) && |rest| <= |events|
  {
  }

  /** What the entries of a flow collection were read from. */
  ghost predicate ListOff(ts: seq<Token>, c: Config, sequence: bool, first: bool, event: Event, events: seq<Event>,
                          d: Config, entries: seq<Entry>, comma: bool, rest: seq<Event>) {
    var end := if sequence then FlowSequenceEndToken else FlowMappingEndToken;
    && (forall i :: 0 <= i < |entries| ==>
          EntryFits(entries[i], c.tags) && EntrySkips(entries[i], sequence, i == |entries| - 1 && !comma))
    && (first && entries == [] ==> !comma) && Has(ts, c.head, Listed(entries, comma, first, end))
    && [event] + events ==
       (EntryEvents(entries, c.tags, sequence) + [if sequence then SequenceEnd else MappingEnd]) + rest
    && |rest| <= |events|
    && Reaches(ts, Popped(c).(head := c.head + |Listed(entries, comma, first, end)|), rest, d)
  }

  predicate EntrySkips(e: Entry, sequence: bool, last: bool) {
    e.Pair? ==> if sequence then SkipFits(e, last) else e.skipped == []
  }

  lemma {:induction false} ListNone(ts: seq<Token>, c: Config, sequence: bool, first: bool, at: Config,
                                    events: seq<Event>, d: Config)
    requires var end := if sequence then FlowSequenceEndToken else FlowMappingEndToken;
             PastComma(ts, c, first, end) == Some(at) && At(ts, at.head) == Some(end)
    requires Reaches(ts, Popped(Skipped(at)), events, d)
    ensures ListOff(ts, c, sequence, first, if sequence then SequenceEnd else MappingEnd, events, d, [],
                    at.head != c.head, events)
  {
    hide Reaches, EntryEvents, Has, EntryFits, EntrySkips;
    var end := if sequence then FlowSequenceEndToken else FlowMappingEndToken;
    NoItems(c.tags);
    NoTokensThere(ts, at.head + 1);
    HasOne(ts, at.head, []);
    if at.head != c.head {
      HasOne(ts, c.head, [end] + []);
      assert Listed([], true, first, end) == [FlowEntryToken] + ([end] + []);
    } else {
      assert Listed([], false, first, end) == [end] + [];
    }
  }

  /** After an entry that the end of the sequence follows, there are no more entries and no comma. */
  lemma {:induction false} LastEntry(ts: seq<Token>, at: nat, more: seq<Entry>, comma: bool)
    requires Has(ts, at, Listed(more, comma, false, FlowSequenceEndToken)) && At(ts, at) == Some(FlowSequenceEndToken)
    ensures more == [] && !comma
  {
    hide EntryTokens;
    var part := Listed(more, comma, false, FlowSequenceEndToken);
    assert ts[at] == ts[at..at + |part|][0] == part[0];
  }

  /** An entry and the list after it are a list. */
  lemma {:induction false} ListThere(ts: seq<Token>, c: Config, first: bool, at: Config, end: Token, e: Entry,
                                     more: seq<Entry>, comma: bool)
    requires PastComma(ts, c, first, end) == Some(at) && (!first ==> at == Skipped(c))
    requires Has(ts, at.head, EntryTokens(e))
    requires Has(ts, at.head + |EntryTokens(e)|, Listed(more, comma, false, end))
    requires end == FlowSequenceEndToken || end == FlowMappingEndToken
    ensures at == (if first then c else Skipped(c)) && Has(ts, c.head, Listed([e] + more, comma, first, end))
    ensures c.head + |Listed([e] + more, comma, first, end)| ==
            at.head + |EntryTokens(e)| + |Listed(more, comma, false, end)|
  {
    hide Has, EntryTokens, EntryEvents, EntryEvent, Listed;
    var entries, part := [e] + more, Listed(more, comma, false, end);
    assert entries[1..] == more && entries[0] == e;
    ListSplit(entries, comma, first, end, []);
    HasBoth(ts, at.head, EntryTokens(e), part);
    if first {
      assert [] + (EntryTokens(e) + part) == EntryTokens(e) + part;
    } else {
      HasOne(ts, c.head, EntryTokens(e) + part);
    }
  }

  lemma {:induction false} ListSkips(ts: seq<Token>, next: nat, e: Entry, sequence: bool, more: seq<Entry>, comma: bool)
    requires EntrySkips(e, sequence, At(ts, next) == Some(FlowSequenceEndToken))
    requires sequence ==> Has(ts, next, Listed(more, comma, false, FlowSequenceEndToken))
    ensures EntrySkips(e, sequence, more == [] && !comma)
  {
    hide Has, SkipFits, Listed;
    if sequence && At(ts, next) == Some(FlowSequenceEndToken) {
      LastEntry(ts, next, more, comma);
    }
    if e.Pair? && sequence {
      SkipsLater(e, At(ts, next) == Some(FlowSequenceEndToken), more == [] && !comma);
    }
  }

  lemma {:induction false} ListGrow(ts: seq<Token>, c: Config, sequence: bool, first: bool, at: Config, event: Event,
                                    events: seq<Event>,
                                    d: Config, e: Entry, after: seq<Event>, more: seq<Entry>, comma: bool,
                                      rest: seq<Event>)
    requires c.states != [] && after != []
    requires PastComma(ts, c, first, if sequence then FlowSequenceEndToken else FlowMappingEndToken) == Some(at)
    requires !first ==> at == Skipped(c)
    requires EntryOff(ts, at, sequence, event, events, d, e, after)
    requires ListOff(ts, at.(state := if sequence then FlowSequenceEntryState else FlowMappingKeyState,
                             head := at.head + |EntryTokens(e)|),
                     sequence, false, after[0], after[1..], d, more, comma, rest)
    ensures ListOff(ts, c, sequence, first, event, events, d, [e] + more, comma, rest)
  {
    hide Reaches, Has, EntryFits, EntryTokens, EntryEvent, SkipFits, Listed, EntryEvents, EntrySkips, Popped, PastComma;
    var end := if sequence then FlowSequenceEndToken else FlowMappingEndToken;
    var entries := [e] + more;
    assert entries[1..] == more && entries[0] == e;
    ListThere(ts, c, first, at, end, e, more, comma);
    ListSkips(ts, at.head + |EntryTokens(e)|, e, sequence, more, comma);
    PoppedMoved(c, if sequence then FlowSequenceEntryState else FlowMappingKeyState, at.head + |EntryTokens(e)|);
    HeadTail(after);
    ListSplit(entries, comma, first, end, c.tags);
    Joined(event, events, EntryEvent(e, c.tags, sequence), after,
           EntryEvents(more, c.tags, sequence) + [if sequence then SequenceEnd else MappingEnd], rest);
  }

  lemma {:induction false} SkipsLater(e: Entry, a: bool, b: bool)
    requires e.Pair? && SkipFits(e, a) && (a ==> b)
    ensures SkipFits(e, b)
  {
  }

  lemma {:induction false} EntryEnds(ts: seq<Token>, c: Config, sequence: bool, event: Event, events: seq<Event>,
                                     d: Config, e: Entry, rest: seq<Event>)
    requires EntryOff(ts, c, sequence, event, events, d, e, rest)
    ensures Reaches(ts, c.(state := if sequence then FlowSequenceEntryState else FlowMappingKeyState,
                           head := c.head + |EntryTokens(e)|), rest, d)
    ensures |rest| <= |events|
  {
  }

  lemma {:induction false} SingleEntry(ts: seq<Token>, c: Config, event: Event, events: seq<Event>, d: Config,
                                       s: Syntax, rest: seq<Event>)
    requires SplitOff(ts, c, InFlow, FlowSequenceEntryState, event, events, d, s, rest) && Fits(s, c.tags, InFlow)
    ensures EntryOff(ts, c, true, event, events, d, One(s), rest)
  {
    hide Reaches, Has, Fits, Tokens, Events;
    assert Events(s, c.tags) + [] == Events(s, c.tags);
  }

  lemma {:induction false} FlowItemSplit(ts: seq<Token>, c: Config, first: bool, at: Config, m: Move,
                                         events: seq<Event>, d: Config)
    returns (e: Entry, rest: seq<Event>)
    requires FromFlowSequence(ts, c, first) == Some(m) && Reaches(ts, m.next, events, d)
    requires PastComma(ts, c, first, FlowSequenceEndToken) == Some(at) && At(ts, at.head) != Some(FlowSequenceEndToken)
    ensures EntryOff(ts, at, true, m.event, events, d, e, rest)
    decreases |events|, 7
  {
    hide Reaches, EntryOff, SplitOff, PastComma, Node, Fits;
    if At(ts, at.head) == Some(KeyToken) {
      e, rest := FlowPairSplit(ts, at, events, d);
    } else {
      var s;
      s, rest := NodeOff(ts, at, InFlow, FlowSequenceEntryState, m, events, d);
      e := One(s);
      SingleEntry(ts, at, m.event, events, d, s, rest);
    }
  }

  lemma {:induction false} FlowItemsSplit(ts: seq<Token>, c: Config, first: bool, m: Move, events: seq<Event>,
                                          d: Config)
    returns (entries: seq<Entry>, comma: bool, rest: seq<Event>)
    requires c.states != [] && FromFlowSequence(ts, c, first) == Some(m) && Reaches(ts, m.next, events, d)
    ensures ListOff(ts, c, true, first, m.event, events, d, entries, comma, rest)
    decreases |events|, 8
  {
    hide Reaches, EntryOff, ListOff, Node, Next, EntryTokens;
    var at := PastComma(ts, c, first, FlowSequenceEndToken).value;
    if At(ts, at.head) == Some(FlowSequenceEndToken) {
      entries, comma, rest := [], at.head != c.head, events;
      ListNone(ts, c, true, first, at, events, d);
    } else {
      var e, after := FlowItemSplit(ts, c, first, at, m, events, d);
      var next := at.(state := FlowSequenceEntryState, head := at.head + |EntryTokens(e)|);
      EntryEnds(ts, at, true, m.event, events, d, e, after);
      var m2 := Unfold(ts, next, after, d);
      NextInSequence(ts, next);
      var more;
      more, comma, rest := FlowItemsSplit(ts, next, false, m2, after[1..], d);
      entries := [e] + more;
      ListGrow(ts, c, true, first, at, m.event, events, d, e, after, more, comma, rest);
    }
  }

  lemma {:induction false} FlowSequenceWhole(ts: seq<Token>, c: Config, w: Where, p: Props, events: seq<Event>,
                                             d: Config,
                                  entries: seq<Entry>, comma: bool, rest: seq<Event>)
    requires c.states != [] && Has(ts, c.head, PropsTokens(p)) && PropsOk(p, c.tags) && events != []
    requires c.head + |PropsTokens(p)| < |ts| && ts[c.head + |PropsTokens(p)|] == FlowSequenceStartToken
    requires var first := c.(head := c.head + |PropsTokens(p)|, state := FlowSequenceFirstEntryState);
             ListOff(ts, Skipped(first), true, true, events[0], events[1..], d, entries, comma, rest)
    ensures Split(ts, c, w, Begin(p, c.tags, true, Flow), events, d, FlowSequence(p, entries, comma), rest)
  {
    hide Reaches, PropsTokens, PropsOk, Has, EntryFits, Listed, EntryEvents, SkipFits, Begin, Popped;
    var at := c.head + |PropsTokens(p)|;
    HeadTail(events);
    PoppedMoved(c, FlowSequenceFirstEntryState, at + 1);
    HasOne(ts, at, Listed(entries, comma, true, FlowSequenceEndToken));
    WholeNode(ts, c, w, p, [FlowSequenceStartToken] + Listed(entries, comma, true, FlowSequenceEndToken),
              FlowSequence(p, entries, comma), Begin(p, c.tags, true, Flow),
              EntryEvents(entries, c.tags, true) + [SequenceEnd], events, rest, d);
  }

  lemma {:induction false} FlowSequenceSplit(ts: seq<Token>, c: Config, w: Where, p: Props, events: seq<Event>,
                                             d: Config)
    returns (s: Syntax, rest: seq<Event>)
    requires c.states != [] && Has(ts, c.head, PropsTokens(p)) && PropsOk(p, c.tags)
    requires var at := c.head + |PropsTokens(p)|;
             at < |ts| && ts[at] == FlowSequenceStartToken
             && Reaches(ts, c.(head := at, state := FlowSequenceFirstEntryState), events, d)
    ensures Split(ts, c, w, Begin(p, c.tags, true, Flow), events, d, s, rest)
    decreases |events|, 0
  {
    hide Reaches, PropsTokens, PropsOk, Has, Next, Split, ListOff, FromFlowSequence, Begin;
    var first := c.(head := c.head + |PropsTokens(p)|, state := FlowSequenceFirstEntryState);
    var m := Unfold(ts, first, events, d);
    NextAtFirst(ts, first);
    var entries, comma;
    entries, comma, rest := FlowItemsSplit(ts, Skipped(first), true, m, events[1..], d);
    s := FlowSequence(p, entries, comma);
    FlowSequenceWhole(ts, c, w, p, events, d, entries, comma, rest);
  }

  /** A pair of a flow mapping, put together. */
  lemma {:induction false} MappingPairGrow(ts: seq<Token>, c: Config, event: Event, events: seq<Event>, d: Config,
                                           key: Syntax, after: seq<Event>, colon: bool, value: Syntax, rest: seq<Event>)
    requires At(ts, c.head) == Some(KeyToken) && after != []
    requires SplitOff(ts, Skipped(c), InFlow, FlowMappingValueState, event, events, d, key, after)
    requires ValueOff(ts, c.(state := FlowMappingValueState, head := c.head + 1 + |Tokens(key)|), InFlow,
                      FlowMappingKeyState,
                      after[0], after[1..], d, colon, value, rest)
    ensures EntryOff(ts, c, false, event, events, d, Pair(key, [], colon, value), rest)
  {
    hide Reaches, Has, MayFit, Tokens, Events, ValueTokens;
    HasBoth(ts, c.head + 1, Tokens(key), ValueTokens(colon, value));
    HasOne(ts, c.head, Tokens(key) + ValueTokens(colon, value));
    assert [] + ValueTokens(colon, value) == ValueTokens(colon, value);
    assert after == [after[0]] + after[1..];
    assert PairFits(Pair(key, [], colon, value), c.tags, InFlow);
    Joined(event, events, Events(key, c.tags), after, Events(value, c.tags), rest);
  }

  /** A key without a value in a flow mapping. */
  lemma {:induction false} LoneKey(ts: seq<Token>, c: Config, event: Event, events: seq<Event>, d: Config, s: Syntax,
                                   after: seq<Event>)
    requires SplitOff(ts, c, InFlow, FlowMappingEmptyValueState, event, events, d, s, after) && Fits(s, c.tags, InFlow)
    requires after != [] && after[0] == EMPTY_SCALAR
    requires Reaches(ts, c.(state := FlowMappingKeyState, head := c.head + |Tokens(s)|), after[1..], d)
    ensures EntryOff(ts, c, false, event, events, d, One(s), after[1..])
  {
    hide Reaches, Has, Fits, Tokens, Events;
    assert after == [EMPTY_SCALAR] + after[1..];
    Joined(event, events, Events(s, c.tags), after, [EMPTY_SCALAR], after[1..]);
  }

  lemma {:induction false} FlowEntrySplit(ts: seq<Token>, c: Config, first: bool, at: Config, m: Move,
                                          events: seq<Event>, d: Config)
    returns (e: Entry, rest: seq<Event>)
    requires FromFlowKey(ts, c, first) == Some(m) && Reaches(ts, m.next, events, d)
    requires PastComma(ts, c, first, FlowMappingEndToken) == Some(at) && At(ts, at.head) != Some(FlowMappingEndToken)
    ensures EntryOff(ts, at, false, m.event, events, d, e, rest)
    decreases |events|, 6
  {
    hide Reaches, EntryOff, SplitOff, ValueOff, PastComma, Node, Fits, Optional, Next, Tokens;
    if At(ts, at.head) == Some(KeyToken) {
      var key, after := OptionalOff(ts, Skipped(at), InFlow, FlowMappingValueState, NO_FLOW_KEY, m, events, d);
      var mid := at.(state := FlowMappingValueState, head := at.head + 1 + |Tokens(key)|);
      SplitEnds(ts, Skipped(at), InFlow, FlowMappingValueState, m.event, events, d, key, after);
      var m2 := Unfold(ts, mid, after, d);
      NextFlowValue(ts, mid);
      var colon, value;
      colon, value, rest := ValueSplit(ts, mid, InFlow, FlowMappingKeyState, NO_FLOW_VALUE, m2, after[1..], d);
      e := Pair(key, [], colon, value);
      MappingPairGrow(ts, at, m.event, events, d, key, after, colon, value, rest);
    } else {
      var s, after := NodeOff(ts, at, InFlow, FlowMappingEmptyValueState, m, events, d);
      var mid := at.(state := FlowMappingEmptyValueState, head := at.head + |Tokens(s)|);
      SplitEnds(ts, at, InFlow, FlowMappingEmptyValueState, m.event, events, d, s, after);
      var m2 := Unfold(ts, mid, after, d);
      NextFlowValue(ts, mid);
      e, rest := One(s), after[1..];
      LoneKey(ts, at, m.event, events, d, s, after);
    }
  }

  lemma {:induction false} FlowPairsSplit(ts: seq<Token>, c: Config, first: bool, m: Move, events: seq<Event>,
                                          d: Config)
    returns (entries: seq<Entry>, comma: bool, rest: seq<Event>)
    requires c.states != [] && FromFlowKey(ts, c, first) == Some(m) && Reaches(ts, m.next, events, d)
    ensures ListOff(ts, c, false, first, m.event, events, d, entries, comma, rest)
    decreases |events|, 8
  {
    hide Reaches, EntryOff, ListOff, Node, Next, EntryTokens, Optional;
    var at := PastComma(ts, c, first, FlowMappingEndToken).value;
    if At(ts, at.head) == Some(FlowMappingEndToken) {
      entries, comma, rest := [], at.head != c.head, events;
      ListNone(ts, c, false, first, at, events, d);
    } else {
      var e, after := FlowEntrySplit(ts, c, first, at, m, events, d);
      var next := at.(state := FlowMappingKeyState, head := at.head + |EntryTokens(e)|);
      EntryEnds(ts, at, false, m.event, events, d, e, after);
      var m2 := Unfold(ts, next, after, d);
      NextInMapping(ts, next);
      var more;
      more, comma, rest := FlowPairsSplit(ts, next, false, m2, after[1..], d);
      entries := [e] + more;
      ListGrow(ts, c, false, first, at, m.event, events, d, e, after, more, comma, rest);
    }
  }

  lemma {:induction false} FlowMappingWhole(ts: seq<Token>, c: Config, w: Where, p: Props, events: seq<Event>,
                                            d: Config,
                                  entries: seq<Entry>, comma: bool, rest: seq<Event>)
    requires c.states != [] && Has(ts, c.head, PropsTokens(p)) && PropsOk(p, c.tags) && events != []
    requires c.head + |PropsTokens(p)| < |ts| && ts[c.head + |PropsTokens(p)|] == FlowMappingStartToken
    requires var first := c.(head := c.head + |PropsTokens(p)|, state := FlowMappingFirstKeyState);
             ListOff(ts, Skipped(first), false, true, events[0], events[1..], d, entries, comma, rest)
    ensures Split(ts, c, w, Begin(p, c.tags, false, Flow), events, d, FlowMapping(p, entries, comma), rest)
  {
    hide Reaches, PropsTokens, PropsOk, Has, EntryFits, Listed, EntryEvents, SkipFits, Begin, Popped;
    var at := c.head + |PropsTokens(p)|;
    HeadTail(events);
    PoppedMoved(c, FlowMappingFirstKeyState, at + 1);
    HasOne(ts, at, Listed(entries, comma, true, FlowMappingEndToken));
    WholeNode(ts, c, w, p, [FlowMappingStartToken] + Listed(entries, comma, true, FlowMappingEndToken),
              FlowMapping(p, entries, comma), Begin(p, c.tags, false, Flow),
              EntryEvents(entries, c.tags, false) + [MappingEnd], events, rest, d);
  }

  lemma {:induction false} FlowMappingSplit(ts: seq<Token>, c: Config, w: Where, p: Props, events: seq<Event>,
                                            d: Config)
    returns (s: Syntax, rest: seq<Event>)
    requires c.states != [] && Has(ts, c.head, PropsTokens(p)) && PropsOk(p, c.tags)
    requires var at := c.head + |PropsTokens(p)|;
             at < |ts| && ts[at] == FlowMappingStartToken
             && Reaches(ts, c.(head := at, state := FlowMappingFirstKeyState), events, d)
    ensures Split(ts, c, w, Begin(p, c.tags, false, Flow), events, d, s, rest)
    decreases |events|, 0
  {
    hide Reaches, PropsTokens, PropsOk, Has, Next, Split, ListOff, FromFlowKey, Begin;
    var first := c.(head := c.head + |PropsTokens(p)|, state := FlowMappingFirstKeyState);
    var m := Unfold(ts, first, events, d);
    NextAtFirst(ts, first);
    var entries, comma;
    entries, comma, rest := FlowPairsSplit(ts, Skipped(first), true, m, events[1..], d);
    s := FlowMapping(p, entries, comma);
    FlowMappingWhole(ts, c, w, p, events, d, entries, comma, rest);
  }

  // Documents and streams.

  lemma {:induction false} DirectivesSplit(ts: seq<Token>, i: nat, tags: seq<TagDirective>,
                                           seen: bool) returns (ds: seq<Token>)
    requires Directives(ts, i, tags, seen).Some?
    ensures Has(ts, i, ds) && i + |ds| < |ts| && !IsDirective(ts[i + |ds|]) && TagsAfter(ds, tags, seen).Some?
    ensures Directives(ts, i, tags, seen) ==
            Some(Config(BlockNodeState, [DocumentEndState], i + |ds|, WithDefaults(TagsAfter(ds, tags, seen).value)))
    ensures !IsDirective(ts[i]) ==> ds == []
    decreases |ts| - i
  {
    hide WithDefaults, HasHandle, Has;
    match ts[i] {
      case VersionDirectiveToken(_, _) =>
        var more := DirectivesSplit(ts, i + 1, tags, true);
        ds := [ts[i]] + more;
        HasOne(ts, i, more);
        assert ds[1..] == more;
      case TagDirectiveToken(handle, prefix) =>
        var more := DirectivesSplit(ts, i + 1, tags + [TagDirective(handle, prefix)], seen);
        ds := [ts[i]] + more;
        HasOne(ts, i, more);
        assert ds[1..] == more;
      case _ =>
        ds := [];
        NoTokensThere(ts, i);
    }
  }

  /** What the root of a document was read from. */
  ghost predicate RootOff(ts: seq<Token>, c: Config, event: Event, events: seq<Event>, d: Config, root: Syntax,
                          rest: seq<Event>) {
    && (if c.state.DocumentContentState? then MayFit(root, c.tags, InBlock) else Fits(root, c.tags, InBlock))
    && Has(ts, c.head, Tokens(root))
    && [event] + events == Events(root, c.tags) + rest && |rest| <= |events|
    && Reaches(ts, Config(DocumentEndState, [], c.head + |Tokens(root)|, c.tags), rest, d)
  }

  lemma {:induction false} RootSplit(ts: seq<Token>, c: Config, m: Move, events: seq<Event>, d: Config)
    returns (root: Syntax, rest: seq<Event>)
    requires c.states == [DocumentEndState] && (c.state == DocumentContentState || c.state == BlockNodeState)
    requires Next(ts, c) == Some(m) && Reaches(ts, m.next, events, d)
    ensures RootOff(ts, c, m.event, events, d, root, rest)
  {
    hide Reaches, Has, Fits, Tokens, Events, FromNode;
    if c.state == DocumentContentState && (ts[c.head] == DocumentEndToken || Between(ts[c.head])) {
      root, rest := Missing, events;
      NoTokens(c.tags);
      NoTokensThere(ts, c.head);
    } else {
      root, rest := NodeSplit(ts, c, InBlock, m, events, d);
    }
  }

  /** What a document was read from, up to the end marker that belongs to it. */
  ghost predicate DocOff(ts: seq<Token>, c: Config, implicit: bool, event: Event, events: seq<Event>, d: Config,
                         doc: Doc, rest: seq<Event>) {
    && DocFits(doc) && (!doc.marked ==> implicit) && Has(ts, c.head, DocTokens(doc)) && doc.ends <= 1
    && (doc.ends == 0 ==> At(ts, c.head + |DocTokens(doc)|) != Some(DocumentEndToken))
    && [event] + events == DocEvents(doc) + rest && |rest| <= |events|
    && Reaches(ts, Config(DocumentStartState, [], c.head + |DocTokens(doc)|, []), rest, d)
  }

  /** How a document started. */
  lemma {:induction false} MarkedHead(ts: seq<Token>, i: nat, ds: seq<Token>)
    requires Has(ts, i, ds) && At(ts, i + |ds|) == Some(DocumentStartToken)
    ensures Has(ts, i, ds + [DocumentStartToken])
  {
    hide Has;
    NoTokensThere(ts, i + |ds| + 1);
    HasOne(ts, i + |ds|, []);
    assert [DocumentStartToken] + [] == [DocumentStartToken];
    HasBoth(ts, i, ds, [DocumentStartToken]);
  }

  lemma {:induction false} HeadSplit(ts: seq<Token>, c: Config, implicit: bool, m: Move) returns (marked: bool,
          ds: seq<Token>)
    requires c.tags == [] && FromDocument(ts, c, implicit) == Some(m) && At(ts, c.head) != Some(StreamEndToken)
    ensures var doc := Doc(marked, ds, Missing, 0);
            && (!marked ==> implicit && ds == []) && TagsAfter(ds, [], false).Some? && Has(ts, c.head, HeadTokens(doc))
            && m == Move(StartEvent(ds, marked),
                         Config(if marked then DocumentContentState else BlockNodeState, [DocumentEndState],
                                c.head + |HeadTokens(doc)|, DocTags(doc)))
  {
    hide Directives, TagsAfter, WithDefaults, Has;
    ds := DirectivesSplit(ts, c.head, [], false);
    var t := ts[c.head];
    marked := !(implicit && !IsDirective(t) && !t.DocumentStartToken?);
    if marked {
      DirectivesSay(ts, c.head, ds, 0);
      MarkedHead(ts, c.head, ds);
    } else {
      NoTokensThere(ts, c.head);
    }
  }

  lemma {:induction false} DocGrow(ts: seq<Token>, c: Config, implicit: bool, events: seq<Event>, d: Config,
                                   marked: bool, ds: seq<Token>, root: Syntax, after: seq<Event>)
    requires (!marked ==> implicit && ds == []) && TagsAfter(ds, [], false).Some? && events != [] && after != []
    requires Has(ts, c.head, HeadTokens(Doc(marked, ds, Missing, 0)))
    requires var head, tags := c.head + |HeadTokens(Doc(marked, ds, Missing, 0))|, DocTags(Doc(marked, ds, Missing, 0));
             var at := head + |Tokens(root)|;
             && RootOff(ts, Config(if marked then DocumentContentState else BlockNodeState, [DocumentEndState], head,
                                   tags),
                        events[0], events[1..], d, root, after)
             && at < |ts| && after[0] == DocumentEnd(!ts[at].DocumentEndToken?)
             && Reaches(ts, Config(DocumentStartState, [], if ts[at].DocumentEndToken? then at + 1 else at, []),
                        after[1..], d)
    ensures exists ends :: DocOff(ts, c, implicit, StartEvent(ds, marked), events, d, Doc(marked, ds, root, ends),
                                  after[1..])
  {
    hide Reaches, Has, Fits, MayFit, Tokens, Events, TagsAfter, WithDefaults;
    var head := HeadTokens(Doc(marked, ds, Missing, 0));
    var at := c.head + |head| + |Tokens(root)|;
    var ends := if ts[at].DocumentEndToken? then 1 else 0;
    var doc := Doc(marked, ds, root, ends);
    assert TokenGrammar.Ends(0) == [] && TokenGrammar.Ends(1) == [DocumentEndToken] + [];
    if ends == 1 {
      NoTokensThere(ts, at + 1);
      HasOne(ts, at, []);
    } else {
      NoTokensThere(ts, at);
    }
    HasBoth(ts, c.head + |head|, Tokens(root), TokenGrammar.Ends(ends));
    HasBoth(ts, c.head, head, Tokens(root) + TokenGrammar.Ends(ends));
    assert events == [events[0]] + events[1..] && after == [after[0]] + after[1..];
    Prefixed(StartEvent(ds, marked), events, Events(root, DocTags(doc)) + [after[0]], after[1..]);
    assert DocOff(ts, c, implicit, StartEvent(ds, marked), events, d, doc, after[1..]);
  }

  lemma {:induction false} DocSplit(ts: seq<Token>, c: Config, implicit: bool, m: Move, events: seq<Event>, d: Config)
    returns (doc: Doc, rest: seq<Event>)
    requires c.tags == [] && FromDocument(ts, c, implicit) == Some(m) && At(ts, c.head) != Some(StreamEndToken)
    requires Reaches(ts, m.next, events, d)
    ensures DocOff(ts, c, implicit, m.event, events, d, doc, rest)
  {
    hide Reaches, Has, RootOff, DocOff, FromDocument, TagsAfter, Tokens, Next, HeadTokens, DocTags;
    var marked, ds := HeadSplit(ts, c, implicit, m);
    var m1 := Unfold(ts, m.next, events, d);
    var root, after := RootSplit(ts, m.next, m1, events[1..], d);
    RootEnds(ts, m.next, m1.event, events[1..], d, root, after);
    var done := Config(DocumentEndState, [], m.next.head + |Tokens(root)|, m.next.tags);
    var m2 := Unfold(ts, done, after, d);
    NextDocumentEnd(ts, done);
    DocGrow(ts, c, implicit, events, d, marked, ds, root, after);
    rest := after[1..];
    var ends :| DocOff(ts, c, implicit, StartEvent(ds, marked), events, d, Doc(marked, ds, root, ends), rest);
    doc := Doc(marked, ds, root, ends);
  }

  lemma {:induction false} RootEnds(ts: seq<Token>, c: Config, event: Event, events: seq<Event>, d: Config,
                                    root: Syntax, rest: seq<Event>)
    requires RootOff(ts, c, event, events, d, root, rest)
    ensures Reaches(ts, Config(DocumentEndState, [], c.head + |Tokens(root)|, c.tags), rest, d) && |rest| <= |events|
  {
  }

  lemma {:induction false} NextDocumentEnd(ts: seq<Token>, c: Config)
    requires c.state == DocumentEndState
    ensures Next(ts, c) == FromDocumentEnd(ts, c)
  {
  }

  lemma {:induction false} EndsSplit(ts: seq<Token>, i: nat)
    requires i <= |ts|
    ensures AfterEnds(ts, i) <= |ts| && Has(ts, i, TokenGrammar.Ends(AfterEnds(ts, i) - i))
    ensures At(ts, i) != Some(DocumentEndToken) ==> AfterEnds(ts, i) == i
    decreases |ts| - i
  {
    hide Has;
    if At(ts, i) == Some(DocumentEndToken) {
      EndsSplit(ts, i + 1);
      HasOne(ts, i, TokenGrammar.Ends(AfterEnds(ts, i + 1) - (i + 1)));
    } else {
      NoTokensThere(ts, i);
    }
  }

  lemma {:induction false} EndsBoth(a: nat, b: nat)
    ensures TokenGrammar.Ends(a + b) == TokenGrammar.Ends(a) + TokenGrammar.Ends(b)
  {
    if a > 0 {
      EndsBoth(a - 1, b);
    }
  }

  /** What the documents of a stream were read from. */
  ghost predicate DocsOff(ts: seq<Token>, c: Config, implicit: bool, all: seq<Event>, d: Config, docs: seq<Doc>) {
    && (forall i :: 0 <= i < |docs| ==> DocFits(docs[i]) && (docs[i].marked || (implicit && i == 0)))
    && Has(ts, c.head, DocsTokens(docs) + [StreamEndToken]) && all == DocsEvents(docs) + [StreamEnd]
    && d.head == c.head + |DocsTokens(docs)| + 1
  }

  lemma {:induction false} DocsNone(ts: seq<Token>, c: Config, implicit: bool, events: seq<Event>, d: Config)
    requires At(ts, c.head) == Some(StreamEndToken) && Reaches(ts, Skipped(c).(state := EndState), events, d)
    ensures DocsOff(ts, c, implicit, [StreamEnd] + events, d, [])
  {
    assert events == [];
    NoDocs();
    assert |DocsTokens([])| == 0;
    NoTokensThere(ts, c.head + 1);
    HasOne(ts, c.head, []);
  }

  lemma {:induction false} DocsGrow(ts: seq<Token>, c: Config, implicit: bool, event: Event, events: seq<Event>,
                                    d: Config, doc: Doc, rest: seq<Event>, more: seq<Doc>) returns (docs: seq<Doc>)
    requires DocOff(ts, c, implicit, event, events, d, doc, rest) && c.head + |DocTokens(doc)| <= |ts|
    requires var at := Config(DocumentStartState, [], AfterEnds(ts, c.head + |DocTokens(doc)|), []);
             DocsOff(ts, at, false, rest, d, more)
    ensures DocsOff(ts, c, implicit, [event] + events, d, docs)
  {
    hide Reaches, Has, Fits, MayFit, Tokens, DocFits, HeadTokens, Events, DocsTokens, DocsEvents, DocTags;
    var at := c.head + |DocTokens(doc)|;
    var extra := AfterEnds(ts, at) - at;
    EndsSplit(ts, at);
    var whole := doc.(ends := doc.ends + extra);
    docs := [whole] + more;
    assert docs[0] == whole && docs[1..] == more;
    SameDoc(doc, extra);
    HasBoth(ts, c.head, DocTokens(doc), TokenGrammar.Ends(extra));
    EndsLength(extra);
    HasBoth(ts, c.head, DocTokens(whole), DocsTokens(more) + [StreamEndToken]);
    DocsSplit(docs);
    assert DocEvents(whole) == DocEvents(doc);
  }

  /** More end markers make no other document of it. */
  lemma {:induction false} SameDoc(doc: Doc, extra: nat)
    ensures var whole := doc.(ends := doc.ends + extra);
            && DocTokens(whole) == DocTokens(doc) + TokenGrammar.Ends(extra) && (DocFits(doc) ==> DocFits(whole))
            && (doc.ends > 0 || extra == 0 ==> DocEvents(whole) == DocEvents(doc))
  {
    hide Tokens, Fits, MayFit, Events, TagsAfter;
    EndsBoth(doc.ends, extra);
  }

  lemma {:induction false} DocsRead(ts: seq<Token>, c: Config, implicit: bool, m: Move, events: seq<Event>, d: Config)
    returns (docs: seq<Doc>)
    requires c.tags == [] && c.states == [] && FromDocument(ts, c, implicit) == Some(m)
    requires Reaches(ts, m.next, events, d)
    ensures DocsOff(ts, c, implicit, [m.event] + events, d, docs)
    decreases |events|
  {
    hide Reaches, Has, DocOff, DocsOff, Next, Bare, Marked, DocTokens;
    if At(ts, c.head) == Some(StreamEndToken) {
      docs := [];
      DocsNone(ts, c, implicit, events, d);
    } else {
      var doc, rest := DocSplit(ts, c, implicit, m, events, d);
      DocEnds(ts, c, implicit, m.event, events, d, doc, rest);
      var next := Config(DocumentStartState, [], c.head + |DocTokens(doc)|, []);
      var m2 := Unfold(ts, next, rest, d);
      NextDocumentStart(ts, next);
      var more := DocsRead(ts, next.(head := AfterEnds(ts, next.head)), false, m2, rest[1..], d);
      assert rest == [m2.event] + rest[1..];
      docs := DocsGrow(ts, c, implicit, m.event, events, d, doc, rest, more);
    }
  }

  lemma {:induction false} DocEnds(ts: seq<Token>, c: Config, implicit: bool, event: Event, events: seq<Event>,
                                   d: Config, doc: Doc, rest: seq<Event>)
    requires DocOff(ts, c, implicit, event, events, d, doc, rest)
    ensures Reaches(ts, Config(DocumentStartState, [], c.head + |DocTokens(doc)|, []), rest, d) && |rest| <= |events|
    ensures c.head + |DocTokens(doc)| <= |ts|
  {
  }

  lemma {:induction false} NextDocumentStart(ts: seq<Token>, c: Config)
    requires c.state == DocumentStartState
    ensures Next(ts, c) == FromDocument(ts, c.(head := AfterEnds(ts, c.head)), false)
  {
  }

  /** What was read to the end of the stream is a stream of the grammar, and the events are those it stands for. */
  lemma {:induction false} StreamSplit(ts: seq<Token>, events: seq<Event>, d: Config) returns (docs: seq<Doc>)
    requires Reaches(ts, FIRST, events, d)
    ensures StreamFits(docs) && Has(ts, 0, StreamTokens(docs)) && events == StreamEventsOf(docs)
    ensures d.head == |StreamTokens(docs)|
  {
    hide Reaches, Has, DocFits, DocsTokens, DocsEvents, FromDocument;
    var m := Unfold(ts, FIRST, events, d);
    var c := Config(ImplicitDocumentStartState, [], 1, []);
    var m2 := Unfold(ts, c, events[1..], d);
    docs := DocsRead(ts, c, true, m2, events[1..][1..], d);
    HasOne(ts, 0, DocsTokens(docs) + [StreamEndToken]);
    assert events == [StreamStart] + events[1..] && events[1..] == [m2.event] + events[1..][1..];
  }

  ghost predicate Accepted(ts: seq<Token>) {
    exists events, d :: Reaches(ts, FIRST, events, d)
  }

  /** A parser that is stuck before the end of the stream does not accept. */
  lemma {:induction false} Stuck(ts: seq<Token>, events: seq<Event>, d: Config)
    requires Yields(ts, FIRST, events, d) && Next(ts, d) == None && d.state != EndState
    ensures !Accepted(ts)
  {
    hide Yields;
    if Accepted(ts) {
      var events', d' :| Reaches(ts, FIRST, events', d');
      assert Next(ts, d') == None;
      YieldsUnique(ts, FIRST, events, d, events', d');
    }
  }

  ghost predicate InGrammar(ts: seq<Token>) {
    exists docs :: StreamFits(docs) && Has(ts, 0, StreamTokens(docs))
  }

  /** The parser reads to its end exactly what the grammar has a tree for. */
  lemma {:induction false} AcceptedIffGrammar(ts: seq<Token>)
    ensures Accepted(ts) <==> InGrammar(ts)
  {
    hide StreamFits, Has, StreamTokens, StreamEventsOf, Yields;
    if Accepted(ts) {
      var events, d :| Reaches(ts, FIRST, events, d);
      var docs := StreamSplit(ts, events, d);
    }
    if InGrammar(ts) {
      var docs :| StreamFits(docs) && Has(ts, 0, StreamTokens(docs));
      StreamParses(ts, docs);
      assert Reaches(ts, FIRST, StreamEventsOf(docs), Config(EndState, [], |StreamTokens(docs)|, []));
    }
  }
}
