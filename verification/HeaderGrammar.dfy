/**
 The grammar that heads `parser.c`, on the same syntax trees: nothing is skipped, and a pair of a block mapping may
 lack its key.  The parser does not take all of it; the trees that it takes are the regular ones whose tags have a
 known handle.
 */
module HeaderGrammar {
  import opened YamlEvents
  import opened ParserMoves
  import opened TokenGrammar

  /** The trees of the grammar: what is nested where. */
  predicate Derives(s: Syntax, w: Where)
    decreases s, 0
  {
    match s
    case Missing => false
    case Reference(_) => true
    case Text(_, _, _) => true
    case Hollow(props) => props.anchor.Some? || props.tag.Some?
    case BlockSequence(_, items) => w != InFlow && forall i :: 0 <= i < |items| ==> MayDerive(items[i], InBlock)
    case Indentless(_, items) =>
      w == InPair && items != [] && forall i :: 0 <= i < |items| ==> MayDerive(items[i], InBlock)
    case BlockMapping(_, pairs) =>
      w != InFlow && forall i :: 0 <= i < |pairs| ==> PartDerives(pairs[i], InPair) && !pairs[i].One?
    case FlowSequence(_, entries, comma) =>
      && (entries == [] ==> !comma)
      && forall i :: 0 <= i < |entries| ==> PartDerives(entries[i], InFlow) && !entries[i].Keyless?
    case FlowMapping(_, entries, comma) =>
      && (entries == [] ==> !comma)
      && forall i :: 0 <= i < |entries| ==> PartDerives(entries[i], InFlow) && !entries[i].Keyless?
  }

  predicate MayDerive(s: Syntax, w: Where)
    decreases s, 1
  {
    s.Missing? || Derives(s, w)
  }

  predicate PartDerives(e: Entry, w: Where)
    decreases e
  {
    match e
    case One(node) => Derives(node, w)
    case Pair(key, skipped, colon, value) =>
      skipped == [] && MayDerive(key, w) && MayDerive(value, w) && (!colon ==> value.Missing?)
    case Keyless(value) => MayDerive(value, w)
  }

  /**
   In a block mapping VALUE comes only where a key has just been read; a pair of a flow sequence that has no key has
   no value either, and it has its VALUE token or is the last entry.
   */
  predicate Regular(s: Syntax)
    decreases s
  {
    match s
    case BlockSequence(_, items) => forall i :: 0 <= i < |items| ==> Regular(items[i])
    case Indentless(_, items) => forall i :: 0 <= i < |items| ==> Regular(items[i])
    case BlockMapping(_, pairs) => (forall i :: 0 <= i < |pairs| ==> PartRegular(pairs[i])) && NoStray(pairs)
    case FlowSequence(_, entries, _) =>
      forall i :: 0 <= i < |entries| ==> PartRegular(entries[i]) && KeyRegular(entries[i], i == |entries| - 1)
    case FlowMapping(_, entries, _) => forall i :: 0 <= i < |entries| ==> PartRegular(entries[i])
    case _ => true
  }

  predicate PartRegular(e: Entry)
    decreases e
  {
    match e
    case One(node) => Regular(node)
    case Pair(key, _, _, value) => Regular(key) && Regular(value)
    case Keyless(value) => Regular(value)
  }

  predicate NoStray(pairs: seq<Entry>) {
    forall i :: 0 <= i < |pairs| && pairs[i].Keyless? ==> i > 0 && pairs[i - 1].Pair? && !pairs[i - 1].colon
  }

  predicate KeyRegular(e: Entry, last: bool) {
    e.Pair? && e.key.Missing? ==> e.value.Missing? && (e.colon || last)
  }

  /** The handle of every tag is known. */
  predicate Known(s: Syntax, tags: seq<TagDirective>)
    decreases s
  {
    match s
    case Missing => true
    case Reference(_) => true
    case Text(props, _, _) => PropsOk(props, tags)
    case Hollow(props) => PropsOk(props, tags)
    case BlockSequence(props, items) =>
      PropsOk(props, tags) && forall i :: 0 <= i < |items| ==> Known(items[i], tags)
    case Indentless(props, items) =>
      PropsOk(props, tags) && forall i :: 0 <= i < |items| ==> Known(items[i], tags)
    case BlockMapping(props, pairs) =>
      PropsOk(props, tags) && forall i :: 0 <= i < |pairs| ==> PartKnown(pairs[i], tags)
    case FlowSequence(props, entries, _) =>
      PropsOk(props, tags) && forall i :: 0 <= i < |entries| ==> PartKnown(entries[i], tags)
    case FlowMapping(props, entries, _) =>
      PropsOk(props, tags) && forall i :: 0 <= i < |entries| ==> PartKnown(entries[i], tags)
  }

  predicate PartKnown(e: Entry, tags: seq<TagDirective>)
    decreases e
  {
    match e
    case One(node) => Known(node, tags)
    case Pair(key, _, _, value) => Known(key, tags) && Known(value, tags)
    case Keyless(value) => Known(value, tags)
  }

  /** What the parser takes. */
  predicate Taken(s: Syntax, tags: seq<TagDirective>) {
    Regular(s) && Known(s, tags)
  }

  predicate PartTaken(e: Entry, tags: seq<TagDirective>) {
    PartRegular(e) && PartKnown(e, tags)
  }

  // A tree that it takes, as it reads it.

  /** The first two pairs are read as one. */
  predicate Joins(pairs: seq<Entry>) {
    |pairs| >= 2 && pairs[0].Pair? && !pairs[0].colon && pairs[1].Keyless?
  }

  function Normal(s: Syntax): Syntax
    decreases s
  {
    match s
    case BlockSequence(props, items) => BlockSequence(props, NormalItems(items))
    case Indentless(props, items) => Indentless(props, NormalItems(items))
    case BlockMapping(props, pairs) => BlockMapping(props, NormalPairs(pairs))
    case FlowSequence(props, entries, comma) =>
      FlowSequence(props, NormalList(entries, comma), comma && !EndsOpen(entries))
    case FlowMapping(props, entries, comma) => FlowMapping(props, NormalEntries(entries), comma)
    case _ => s
  }

  function NormalItems(items: seq<Syntax>): seq<Syntax>
    decreases items
  {
    if items == [] then [] else [Normal(items[0])] + NormalItems(items[1..])
  }

  function NormalEntry(e: Entry): Entry
    decreases e, 0
  {
    match e
    case One(node) => One(Normal(node))
    case Pair(key, skipped, colon, value) => Pair(Normal(key), skipped, colon, Normal(value))
    case Keyless(value) => Keyless(Normal(value))
  }

  function NormalEntries(entries: seq<Entry>): seq<Entry>
    decreases entries
  {
    if entries == [] then [] else [NormalEntry(entries[0])] + NormalEntries(entries[1..])
  }

  function NormalPairs(pairs: seq<Entry>): seq<Entry>
    decreases pairs, 1
  {
    if pairs == [] then []
    else if Joins(pairs) then [Joined(pairs)] + NormalPairs(pairs[2..])
    else [NormalEntry(pairs[0])] + NormalPairs(pairs[1..])
  }

  /** A key, and the value that follows in a pair of its own. */
  function Joined(pairs: seq<Entry>): Entry
    requires Joins(pairs)
    decreases pairs, 0
  {
    Pair(Normal(pairs[0].key), pairs[0].skipped, true, NormalEntry(pairs[1]).value)
  }

  /** A pair that ends right after KEY. */
  predicate IsOpen(e: Entry) {
    e.Pair? && e.key.Missing? && !e.colon
  }

  predicate EndsOpen(entries: seq<Entry>) {
    entries != [] && IsOpen(entries[|entries| - 1])
  }

  /** Where a pair of a flow sequence has no key, the token after KEY is taken for it. */
  function NormalKey(e: Entry, comma: bool): Entry
    decreases e, 1
  {
    if e.Pair? && e.key.Missing? then
      if e.colon then Pair(Missing, [ValueToken], false, Missing)
      else Pair(Missing, if comma then [FlowEntryToken] else [], false, Missing)
    else NormalEntry(e)
  }

  function NormalList(entries: seq<Entry>, comma: bool): seq<Entry>
    decreases entries
  {
    if entries == [] then []
    else [NormalKey(entries[0], comma && |entries| == 1)] + NormalList(entries[1..], comma)
  }

  // It has the same tokens, and it is in the grammar that the parser follows.

  lemma {:induction false} SameTokens(s: Syntax, tags: seq<TagDirective>, w: Where)
    requires MayDerive(s, w) && Taken(s, tags)
    ensures Tokens(Normal(s)) == Tokens(s) && MayFit(Normal(s), tags, w) && (s.Missing? <==> Normal(s).Missing?)
    decreases s, 2
  {
    hide PropsTokens, ItemTokens, PairTokens, Listed, NormalItems, NormalPairs, NormalList, NormalEntries, EntryFits,
         PairFits, SkipFits, PartDerives, PartRegular, PartKnown, NoStray, KeyRegular, EndsOpen;
    match s
    case BlockSequence(_, items) => SameItems(items, tags);
    case Indentless(_, items) => SameItems(items, tags);
    case BlockMapping(_, pairs) => SamePairs(pairs, tags);
    case FlowSequence(_, entries, comma) => SameList(entries, comma, true, tags);
    case FlowMapping(_, entries, comma) => SameEntries(entries, comma, true, tags);
    case _ =>
  }

  lemma {:induction false} SameItems(items: seq<Syntax>, tags: seq<TagDirective>)
    requires forall i :: 0 <= i < |items| ==> MayDerive(items[i], InBlock) && Taken(items[i], tags)
    ensures ItemTokens(NormalItems(items)) == ItemTokens(items) && |NormalItems(items)| == |items|
    ensures forall i :: 0 <= i < |items| ==> MayFit(NormalItems(items)[i], tags, InBlock)
    decreases items
  {
    hide Tokens, Normal, MayFit, MayDerive, Taken;
    if items != [] {
      SameTokens(items[0], tags, InBlock);
      SameItems(items[1..], tags);
      var rest := NormalItems(items[1..]);
      assert NormalItems(items)[1..] == rest;
    }
  }

  lemma {:induction false} DerivedThere(s: Syntax, w: Where)
    requires Derives(s, w)
    ensures !s.Missing?
  {
  }

  lemma {:induction false} SameEntry(e: Entry, tags: seq<TagDirective>, w: Where)
    requires PartDerives(e, w) && PartTaken(e, tags) && !e.Keyless?
    ensures EntryTokens(NormalEntry(e)) == EntryTokens(e)
    ensures if e.One? then NormalEntry(e).One? && Fits(NormalEntry(e).node, tags, w)
            else NormalEntry(e).Pair? && PairFits(NormalEntry(e), tags, w) && NormalEntry(e).skipped == []
    decreases e, 3
  {
    hide Tokens, Normal, Regular, Known, Fits, Derives;
    match e
    case One(node) =>
      DerivedThere(node, w);
      SameTokens(node, tags, w);
    case Pair(key, _, _, value) =>
      SameTokens(key, tags, w);
      SameTokens(value, tags, w);
  }

  lemma {:induction false} SameEntries(entries: seq<Entry>, comma: bool, first: bool, tags: seq<TagDirective>)
    requires forall i :: 0 <= i < |entries| ==>
               PartDerives(entries[i], InFlow) && !entries[i].Keyless? && PartTaken(entries[i], tags)
    ensures Listed(NormalEntries(entries), comma, first, FlowMappingEndToken) ==
            Listed(entries, comma, first, FlowMappingEndToken)
    ensures |NormalEntries(entries)| == |entries|
    ensures forall i :: 0 <= i < |entries| ==>
              var e := NormalEntries(entries)[i]; EntryFits(e, tags) && (e.Pair? ==> e.skipped == [])
    decreases entries
  {
    hide EntryTokens, NormalEntry, PairFits, PartDerives, PartTaken, Fits;
    if entries != [] {
      SameEntry(entries[0], tags, InFlow);
      SameEntries(entries[1..], comma, false, tags);
      assert NormalEntries(entries)[1..] == NormalEntries(entries[1..]);
    }
  }

  /** One entry of a flow sequence; `comma` says that it is the last one and that a comma follows. */
  lemma {:induction false} SameKey(e: Entry, last: bool, comma: bool, tags: seq<TagDirective>)
    requires PartDerives(e, InFlow) && !e.Keyless? && PartTaken(e, tags) && KeyRegular(e, last) && (comma ==> last)
    ensures var n := NormalKey(e, comma);
            && EntryTokens(n) == EntryTokens(e) + (if IsOpen(e) && comma then [FlowEntryToken] else [])
            && EntryFits(n, tags) && (n.Pair? ==> SkipFits(n, last && !comma))
    decreases e, 4
  {
    hide Normal, Regular, Known, Fits, Derives, PropsTokens;
    if e.Pair? && e.key.Missing? {
      assert Tokens(Missing) == [] && MayFit(Missing, tags, InFlow);
      assert PairFits(NormalKey(e, comma), tags, InFlow);
    } else {
      SameEntry(e, tags, InFlow);
      if e.Pair? {
        SameTokens(e.key, tags, InFlow);
      }
    }
  }

  lemma {:induction false} SameList(entries: seq<Entry>, comma: bool, first: bool, tags: seq<TagDirective>)
    requires forall i :: 0 <= i < |entries| ==>
               && PartDerives(entries[i], InFlow) && !entries[i].Keyless? && PartTaken(entries[i], tags)
               && KeyRegular(entries[i], i == |entries| - 1)
    requires first && entries == [] ==> !comma
    ensures var normal := NormalList(entries, comma);
            && Listed(normal, comma && !EndsOpen(entries), first, FlowSequenceEndToken) ==
               Listed(entries, comma, first, FlowSequenceEndToken)
            && |normal| == |entries|
            && forall i :: 0 <= i < |normal| ==>
                 && EntryFits(normal[i], tags)
                 && (normal[i].Pair? ==> SkipFits(normal[i], i == |normal| - 1 && !(comma && !EndsOpen(entries))))
    decreases entries
  {
    hide EntryTokens, NormalKey, PairFits, PartDerives, PartTaken, Fits, IsOpen, EntryFits, SkipFits, KeyRegular;
    if entries != [] {
      var last := |entries| == 1;
      SameKey(entries[0], last, comma && last, tags);
      SkipMore(NormalKey(entries[0], comma && last), last && !(comma && last), last && !(comma && !EndsOpen(entries)));
      var rest := NormalList(entries[1..], comma);
      assert NormalList(entries, comma)[1..] == rest;
      if last {
        assert entries[1..] == [] && rest == [];
      } else {
        SameList(entries[1..], comma, false, tags);
      }
    }
  }

  lemma {:induction false} SkipMore(e: Entry, last: bool, later: bool)
    requires last ==> later
    ensures e.Pair? && SkipFits(e, last) ==> SkipFits(e, later)
  {
  }

  ghost predicate PairsDerive(pairs: seq<Entry>) {
    forall i :: 0 <= i < |pairs| ==> PartDerives(pairs[i], InPair) && !pairs[i].One?
  }

  ghost predicate PairsTaken(pairs: seq<Entry>, tags: seq<TagDirective>) {
    forall i :: 0 <= i < |pairs| ==> PartTaken(pairs[i], tags)
  }

  /** What is left of the pairs once the first, or the first two where they are read as one, are taken. */
  function Onwards(pairs: seq<Entry>): seq<Entry>
    requires pairs != []
  {
    if Joins(pairs) then pairs[2..] else pairs[1..]
  }

  lemma {:induction false} OnwardsKeeps(pairs: seq<Entry>, tags: seq<TagDirective>)
    requires pairs != []
    ensures PairsDerive(pairs) ==> PairsDerive(Onwards(pairs))
    ensures PairsTaken(pairs, tags) ==> PairsTaken(Onwards(pairs), tags)
    ensures NoStray(pairs) ==> NoStray(Onwards(pairs))
  {
    hide PartDerives, PartTaken;
    var rest, k := Onwards(pairs), |pairs| - |Onwards(pairs)|;
    assert forall i :: 0 <= i < |rest| ==> rest[i] == pairs[i + k];
  }

  lemma {:induction false} FirstPairFits(e: Entry, rest: seq<Entry>, tags: seq<TagDirective>)
    requires e.Pair? && PairFits(e, tags, InPair) && e.skipped == [] && PairsFit(rest, tags)
    ensures PairsFit([e] + rest, tags) && PairTokens([e] + rest) == EntryTokens(e) + PairTokens(rest)
  {
    hide PairFits, EntryTokens;
    assert ([e] + rest)[1..] == rest;
  }

  lemma {:induction false} TokensOnwards(pairs: seq<Entry>)
    requires pairs != []
    ensures PairTokens(pairs) ==
            (if Joins(pairs) then EntryTokens(pairs[0]) + EntryTokens(pairs[1]) else EntryTokens(pairs[0])) +
            PairTokens(Onwards(pairs))
  {
    hide EntryTokens;
    if Joins(pairs) {
      assert pairs[1..][0] == pairs[1] && pairs[1..][1..] == pairs[2..];
      var a, b, c := EntryTokens(pairs[0]), EntryTokens(pairs[1]), PairTokens(pairs[2..]);
      assert a + (b + c) == a + b + c;
    }
  }

  lemma {:induction false} SamePairs(pairs: seq<Entry>, tags: seq<TagDirective>)
    requires PairsDerive(pairs) && PairsTaken(pairs, tags) && NoStray(pairs)
    ensures PairTokens(NormalPairs(pairs)) == PairTokens(pairs) && PairsFit(NormalPairs(pairs), tags)
    decreases pairs, 1
  {
    hide EntryTokens, NormalEntry, PairFits, PartDerives, PartTaken, Joined, PairsFit, PairTokens;
    if pairs == [] {
      FirstPairNone(tags);
    } else {
      OnwardsKeeps(pairs, tags);
      TokensOnwards(pairs);
      var rest := Onwards(pairs);
      SamePairs(rest, tags);
      if Joins(pairs) {
        SameJoined(pairs, tags);
        FirstPairFits(Joined(pairs), NormalPairs(rest), tags);
      } else {
        SameEntry(pairs[0], tags, InPair);
        FirstPairFits(NormalEntry(pairs[0]), NormalPairs(rest), tags);
      }
    }
  }

  lemma {:induction false} FirstPairNone(tags: seq<TagDirective>)
    ensures PairsFit([], tags) && PairTokens([]) == []
  {
  }

  lemma {:induction false} SameKeyless(e: Entry, tags: seq<TagDirective>)
    requires e.Keyless? && PartDerives(e, InPair) && PartTaken(e, tags)
    ensures NormalEntry(e).Keyless? && EntryTokens(NormalEntry(e)) == EntryTokens(e)
    ensures MayFit(NormalEntry(e).value, tags, InPair)
    decreases e, 3
  {
    hide Tokens, Normal, Regular, Known, Fits, Derives;
    SameTokens(e.value, tags, InPair);
  }

  lemma {:induction false} SameJoined(pairs: seq<Entry>, tags: seq<TagDirective>)
    requires Joins(pairs) && PartDerives(pairs[0], InPair) && PartDerives(pairs[1], InPair)
    requires PartTaken(pairs[0], tags) && PartTaken(pairs[1], tags)
    ensures EntryTokens(Joined(pairs)) == EntryTokens(pairs[0]) + EntryTokens(pairs[1])
    ensures PairFits(Joined(pairs), tags, InPair) && Joined(pairs).Pair? && Joined(pairs).skipped == []
    decreases pairs, 0
  {
    hide Tokens, Normal, Regular, Known, Fits, Derives;
    SameTokens(pairs[0].key, tags, InPair);
    SameKeyless(pairs[1], tags);
  }
}
