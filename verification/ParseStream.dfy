/** The parser against the token grammar: what it accepts, and what it makes of it. */
module ParseStream {
  import opened Wrappers
  import opened YamlEvents
  import opened ParserMoves
  import opened TokenGrammar
  import opened TokenParse
  import opened TokenSplit
  import Parser

  /**
   Parsing a stream of tokens: it succeeds exactly on the streams of the grammar, and gives the events that
   they stand for, whichever tree of the grammar they are read as.
   */
  method ParseStream(tokens: seq<Token>) returns (events: seq<Event>, ok: bool)
    ensures ok <==> InGrammar(tokens)
    ensures forall docs :: StreamFits(docs) && Has(tokens, 0, StreamTokens(docs)) ==> events == StreamEventsOf(docs)
  {
    hide StreamFits, Has, StreamTokens, StreamEventsOf, Yields, Next;
    ghost var cuts, last;
    events, ok, cuts, last := Parser.ParseAll(tokens);
    EndIsLast(tokens, last);
    AcceptedIffGrammar(tokens);
    if ok {
      assert Reaches(tokens, FIRST, events, last);
    } else {
      Stuck(tokens, events, last);
    }
    forall docs | StreamFits(docs) && Has(tokens, 0, StreamTokens(docs))
      ensures events == StreamEventsOf(docs)
    {
      StreamParses(tokens, docs);
      var end := Config(EndState, [], |StreamTokens(docs)|, []);
      EndIsLast(tokens, end);
      YieldsUnique(tokens, FIRST, events, last, StreamEventsOf(docs), end);
    }
  }

  lemma {:induction false} EndIsLast(ts: seq<Token>, c: Config)
    ensures c.state == EndState ==> Next(ts, c) == None
  {
  }
}
