/**
 What `scanner.c` makes of the lexemes of a text: the tokens, with those of simple keys put in before what was made
 already, and the state that decides about them.
 */
module ScannerMoves {
  import opened Wrappers

  datatype Kind =
    | StreamStart | StreamEnd | Directive | DocumentStart | DocumentEnd
    | BlockSequenceStart | BlockMappingStart | BlockEnd
    | FlowStart(mapping: bool) | FlowEnd(mapping: bool) | FlowEntry | BlockEntry | Key | Value
    | Content // an alias, an anchor, a tag or a scalar

  datatype Mark = Mark(index: nat, line: nat, column: nat)

  /** `yaml_simple_key_t` */
  datatype SimpleKey = SimpleKey(possible: bool, required: bool, number: nat, mark: Mark)

  const NO_KEY := SimpleKey(false, false, 0, Mark(0, 0, 0))

  /** What the characters of the input are read as, before tokens are made of it. */
  datatype Lexeme =
    | End
    | Directives
    | Indicator(start: bool)
    | FlowOpen(mapping: bool)
    | FlowClose(mapping: bool)
    | Comma
    | Dash
    | Question
    | Colon
    | Node
    | Plain(leading: bool)
    | BlockScalar
    | Bad

  /** A lexeme, where it starts and ends, and whether a line ended before it. */
  datatype Input = Input(lexeme: Lexeme, start: Mark, end: Mark, newLine: bool)

  /** The state of the scanner, with all tokens it has made; `limit` is the deepest nesting that is let pass. */
  datatype View = View(limit: int, started: bool, made: seq<Kind>, keys: seq<SimpleKey>, allowed: bool, flowLevel: nat,
                       indents: seq<int>, indent: int, mark: Mark)

  function Start(limit: int): View {
    View(limit, false, [], [], false, 0, [], -1, Mark(0, 0, 0))
  }

  /** A key has to be on one line, within 1024 characters. */
  predicate IsStale(key: SimpleKey, mark: Mark) {
    key.possible && (key.mark.line < mark.line || key.mark.index + 1024 < mark.index)
  }

  function Fresher(key: SimpleKey, mark: Mark): SimpleKey {
    if IsStale(key, mark) then key.(possible := false) else key
  }

  function Staled(keys: seq<SimpleKey>, mark: Mark): (r: seq<SimpleKey>)
    ensures |r| == |keys| && forall i :: 0 <= i < |keys| ==> r[i] == Fresher(keys[i], mark)
  {
    seq(|keys|, i requires 0 <= i < |keys| => Fresher(keys[i], mark))
  }

  /** A key that had to be one has gone stale. */
  predicate Overdue(keys: seq<SimpleKey>, mark: Mark) {
    exists i :: 0 <= i < |keys| && IsStale(keys[i], mark) && keys[i].required
  }

  /** `yaml_parser_stale_simple_keys` */
  function WithoutStale(v: View): Option<View> {
    if Overdue(v.keys, v.mark) then None else Some(v.(keys := Staled(v.keys, v.mark)))
  }

  function SetTop(keys: seq<SimpleKey>, key: SimpleKey): seq<SimpleKey> {
    if keys == [] then keys else keys[|keys| - 1 := key]
  }

  predicate TopPossible(v: View) {
    v.keys != [] && v.keys[|v.keys| - 1].possible
  }

  function Impossible(keys: seq<SimpleKey>): seq<SimpleKey> {
    if keys == [] then keys else SetTop(keys, keys[|keys| - 1].(possible := false))
  }

  /** `yaml_parser_remove_simple_key` */
  function KeyRemoved(v: View): Option<View> {
    if TopPossible(v) && v.keys[|v.keys| - 1].required then None else Some(v.(keys := Impossible(v.keys)))
  }

  /** `yaml_parser_save_simple_key` */
  function KeySaved(v: View): Option<View> {
    if !v.allowed then Some(v)
    else
      match KeyRemoved(v)
      case None => None
      case Some(w) =>
        var required := v.flowLevel == 0 && v.indent == v.mark.column;
        Some(w.(keys := SetTop(w.keys, SimpleKey(true, required, |v.made|, v.mark))))
  }

  function Made(v: View, token: Kind): View {
    v.(made := v.made + [token])
  }

  function Inserted(made: seq<Kind>, at: nat, token: Kind): seq<Kind> {
    if at <= |made| then made[..at] + [token] + made[at..] else made
  }

  /** `yaml_parser_roll_indent` */
  function Rolled(v: View, column: nat, number: Option<nat>, token: Kind): Option<View> {
    if v.flowLevel > 0 || v.indent >= column then Some(v)
    else if |v.indents| + 1 >= v.limit then None
    else
      var at := if number.Some? then number.value else |v.made|;
      Some(v.(indents := v.indents + [v.indent], indent := column, made := Inserted(v.made, at, token)))
  }

  /** `yaml_parser_unroll_indent` */
  function Unrolled(v: View, column: int): View
    decreases |v.indents|
  {
    if v.flowLevel > 0 || v.indent <= column || v.indents == [] then v
    else
      Unrolled(Made(v, BlockEnd).(indents := v.indents[..|v.indents| - 1], indent := v.indents[|v.indents| - 1]),
               column)
  }

  /** A token that starts no key: the key of the open level is none, and whether another may follow is said. */
  function Finished(v: View, allowed: bool, token: Kind): Option<View> {
    match KeyRemoved(v)
    case None => None
    case Some(w) => Some(Made(w.(allowed := allowed), token))
  }

  function StreamStarted(v: View): View {
    Made(v.(indent := -1, keys := v.keys + [NO_KEY], allowed := true, started := true), StreamStart)
  }

  /** A token that ends all block levels: a directive, a document marker or the end of the stream. */
  function Marker(v: View, token: Kind): Option<View> {
    Finished(Unrolled(v, -1), false, token)
  }

  /** `yaml_parser_fetch_flow_collection_start` */
  function FlowStarted(v: View, mapping: bool): Option<View> {
    match KeySaved(v)
    case None => None
    case Some(w) =>
      if |w.indents| >= w.limit - w.flowLevel then None
      else Some(Made(w.(keys := w.keys + [NO_KEY], flowLevel := w.flowLevel + 1, allowed := true), FlowStart(mapping)))
  }

  /** `yaml_parser_fetch_flow_collection_end` */
  function FlowEnded(v: View, mapping: bool): Option<View> {
    match FlowLeft(v)
    case None => None
    case Some(w) => Some(Made(w.(allowed := false), FlowEnd(mapping)))
  }

  function FlowLeft(v: View): Option<View> {
    match KeyRemoved(v)
    case None => None
    case Some(w) =>
      Some(if w.flowLevel > 0 && w.keys != [] then w.(keys := w.keys[..|w.keys| - 1], flowLevel := w.flowLevel - 1)
           else w)
  }

  /** `yaml_parser_fetch_flow_entry` */
  function FlowGoesOn(v: View): Option<View> {
    Finished(v, true, FlowEntry)
  }

  /**
   `yaml_parser_fetch_block_entry` and `yaml_parser_fetch_key`, after which a key is allowed, in a block or anywhere.
   */
  function BlockGoesOn(v: View, token: Kind, level: Kind, anywhere: bool): Option<View> {
    match BlockOpened(v, level)
    case None => None
    case Some(w) => Finished(w, anywhere || w.flowLevel == 0, token)
  }

  /** In the block context a block may start only where simple keys may. */
  function BlockOpened(v: View, level: Kind): Option<View> {
    if v.flowLevel == 0 && !v.allowed then None else Rolled(v, v.mark.column, None, level)
  }

  /** An alias, an anchor, a tag or a scalar; only a block scalar cannot be a simple key. */
  function ContentMade(v: View, save: bool, allowed: bool): Option<View> {
    if !save then Finished(v, allowed, Content)
    else match KeySaved(v) case None => None case Some(w) => Some(Made(w.(allowed := allowed), Content))
  }

  /** `yaml_parser_fetch_value` where a simple key is possible: its tokens go before the token it was saved for. */
  function KeyFound(v: View, key: SimpleKey): Option<View> {
    var w := v.(keys := Impossible(v.keys), made := Inserted(v.made, key.number, Key));
    match Rolled(w, key.mark.column, Some(key.number), BlockMappingStart)
    case None => None
    case Some(u) => Some(Made(u.(allowed := false), Value))
  }

  /** `yaml_parser_fetch_value` */
  function ValueMade(v: View): Option<View> {
    if TopPossible(v) then KeyFound(v, v.keys[|v.keys| - 1])
    else if v.flowLevel == 0 && !v.allowed then None
    else
      match Rolled(v, v.mark.column, None, BlockMappingStart)
      case None => None
      case Some(w) => Some(Made(w.(allowed := w.flowLevel == 0), Value))
  }

  function NewLine(mark: Mark): Mark {
    if mark.column == 0 then mark else Mark(mark.index, mark.line + 1, 0)
  }

  /** The tokens of one lexeme, once the levels that end before it are ended. */
  function LexemeRead(v: View, lexeme: Lexeme): Option<View> {
    match lexeme
    case End => Marker(v.(mark := NewLine(v.mark)), StreamEnd)
    case Directives => Marker(v, Directive)
    case Indicator(start) => Marker(v, if start then DocumentStart else DocumentEnd)
    case FlowOpen(mapping) => FlowStarted(v, mapping)
    case FlowClose(mapping) => FlowEnded(v, mapping)
    case Comma => FlowGoesOn(v)
    case Dash => BlockGoesOn(v, BlockEntry, BlockSequenceStart, true)
    case Question => BlockGoesOn(v, Key, BlockMappingStart, false)
    case Colon => ValueMade(v)
    case Node => ContentMade(v, true, false)
    case Plain(leading) => ContentMade(v, true, leading)
    case BlockScalar => ContentMade(v, false, true)
    case Bad => None
  }

  /** `yaml_parser_fetch_next_token` */
  function Fetched(v: View, input: Input): Option<View> {
    match Settled(v, input)
    case None => None
    case Some(w) =>
      match LexemeRead(w, input.lexeme)
      case None => None
      case Some(u) => Some(if input.lexeme.End? then u else u.(mark := input.end))
  }

  /** Before a lexeme is read, the keys that are too old go, and so do the levels that end there. */
  function Settled(v: View, input: Input): Option<View> {
    match WithoutStale(v.(mark := input.start, allowed := v.allowed || (input.newLine && v.flowLevel == 0)))
    case None => None
    case Some(w) => Some(Unrolled(w, w.mark.column))
  }

  /** All lexemes, one after the other. */
  function Scanned(v: View, inputs: seq<Input>): Option<View>
    decreases |inputs|
  {
    if inputs == [] then Some(v)
    else match Fetched(v, inputs[0]) case None => None case Some(w) => Scanned(w, inputs[1..])
  }

  // Keys that are removed early.

  predicate Later(a: Mark, b: Mark) {
    a.line <= b.line && a.index <= b.index
  }

  /** Where the scanner is once it has read a lexeme. */
  function MarkAfter(input: Input): Mark {
    if input.lexeme.End? then NewLine(input.start) else input.end
  }

  /** A text is read forward. */
  predicate Forward(mark: Mark, inputs: seq<Input>)
    decreases |inputs|
  {
    inputs != [] ==> Later(mark, inputs[0].start) && Forward(MarkAfter(inputs[0]), inputs[1..])
  }

  lemma {:induction false} StaleTwice(keys: seq<SimpleKey>, m: Mark, n: Mark)
    requires Later(m, n) && !Overdue(keys, m)
    ensures Staled(Staled(keys, m), n) == Staled(keys, n)
    ensures Overdue(Staled(keys, m), n) <==> Overdue(keys, n)
  {
    var once := Staled(keys, m);
    forall i | 0 <= i < |keys|
      ensures Fresher(once[i], n) == Fresher(keys[i], n)
      ensures IsStale(once[i], n) && once[i].required <==> IsStale(keys[i], n) && keys[i].required
    {
      assert once[i] == Fresher(keys[i], m);
    }
  }

  /** The same state, but that stale keys may be gone already. */
  predicate Tidied(v: View, w: View) {
    w == v || WithoutStale(v) == Some(w)
  }

  lemma {:induction false} TidiedTwice(u: View, v: View, w: View)
    requires Tidied(u, v) && Tidied(v, w)
    ensures Tidied(u, w)
  {
    if WithoutStale(u) == Some(v) && WithoutStale(v) == Some(w) {
      StaleTwice(u.keys, u.mark, u.mark);
    }
  }

  /** What was possible is, or has gone stale. */
  lemma {:induction false} TidiedPossible(v: View, w: View)
    requires Tidied(v, w)
    ensures |w.keys| == |v.keys| && w.made == v.made
    ensures forall i :: 0 <= i < |w.keys| && w.keys[i].possible ==> v.keys[i].possible
  {
  }

  /** Removing stale keys early makes no difference to what is read next. */
  lemma {:induction false} FetchedSame(v: View, w: View, input: Input)
    requires Tidied(v, w) && Later(v.mark, input.start)
    ensures Fetched(w, input) == Fetched(v, input)
  {
    hide LexemeRead, Unrolled;
    if w != v {
      StaleTwice(v.keys, v.mark, input.start);
    }
  }

  /** A key that is missed stays missed. */
  lemma {:induction false} OverdueStays(v: View, input: Input)
    requires Overdue(v.keys, v.mark) && Later(v.mark, input.start)
    ensures Fetched(v, input) == None
  {
    hide LexemeRead, Unrolled;
    var i :| 0 <= i < |v.keys| && IsStale(v.keys[i], v.mark) && v.keys[i].required;
    assert IsStale(v.keys[i], input.start);
  }

  /** Whether more has to be read before a token can be taken: all are, or something may still be a key. */
  predicate Waits(v: View, taken: nat) {
    |v.made| == taken || exists i :: 0 <= i < |v.keys| && v.keys[i].possible
  }

  /** Nothing more can be read: the next lexeme is refused, or there is none where one is needed. */
  ghost predicate CannotGoOn(v: View, read: seq<Input>, rest: seq<Input>, taken: seq<Kind>) {
    var w := Scanned(v, read);
    && w.Some? && taken <= w.value.made
    && if rest == [] then Waits(w.value, |taken|) else Scanned(v, read + [rest[0]]) == None
  }

  lemma {:induction false} ScannedMore(v: View, inputs: seq<Input>, input: Input)
    requires Scanned(v, inputs).Some?
    ensures Scanned(v, inputs + [input]) == Fetched(Scanned(v, inputs).value, input)
    decreases |inputs|
  {
    hide Fetched;
    if inputs == [] {
      assert [input][1..] == [];
      assert inputs + [input] == [input];
    } else {
      assert (inputs + [input])[1..] == inputs[1..] + [input];
      ScannedMore(Fetched(v, inputs[0]).value, inputs[1..], input);
    }
  }

  lemma {:induction false} FetchedMark(v: View, input: Input)
    requires Fetched(v, input).Some?
    ensures Fetched(v, input).value.mark == MarkAfter(input)
  {
    hide Staled, Overdue;
    var here := v.(mark := input.start, allowed := v.allowed || (input.newLine && v.flowLevel == 0));
    var w := WithoutStale(here).value;
    UnrolledMark(w, w.mark.column);
    if input.lexeme.End? {
      var u := Unrolled(w, w.mark.column);
      UnrolledMark(u.(mark := NewLine(u.mark)), -1);
    }
  }

  lemma {:induction false} UnrolledMark(v: View, column: int)
    ensures Unrolled(v, column).mark == v.mark
    decreases |v.indents|
  {
    if !(v.flowLevel > 0 || v.indent <= column || v.indents == []) {
      UnrolledMark(Made(v, BlockEnd).(indents := v.indents[..|v.indents| - 1], indent := v.indents[|v.indents| - 1]),
                   column);
    }
  }

  // The end of the stream.

  /** Nothing comes after the end of a text. */
  predicate EndsLast(inputs: seq<Input>) {
    forall i :: 0 <= i < |inputs| - 1 ==> !inputs[i].lexeme.End?
  }

  lemma {:induction false} UnrolledOpen(v: View, column: int)
    requires StreamEnd !in v.made
    ensures StreamEnd !in Unrolled(v, column).made
    decreases |v.indents|
  {
    if !(v.flowLevel > 0 || v.indent <= column || v.indents == []) {
      UnrolledOpen(Made(v, BlockEnd).(indents := v.indents[..|v.indents| - 1], indent := v.indents[|v.indents| - 1]),
                   column);
    }
  }

  lemma {:induction false} RolledOpen(v: View, column: nat, number: Option<nat>, token: Kind)
    requires StreamEnd !in v.made && token != StreamEnd && Rolled(v, column, number, token).Some?
    ensures StreamEnd !in Rolled(v, column, number, token).value.made
  {
    InsertedOpen(v.made, if number.Some? then number.value else |v.made|, token);
  }

  lemma {:induction false} InsertedOpen(made: seq<Kind>, at: nat, token: Kind)
    requires StreamEnd !in made && token != StreamEnd
    ensures StreamEnd !in Inserted(made, at, token)
  {
    if at <= |made| {
      assert made == made[..at] + made[at..];
    }
  }

  lemma {:induction false} ValueOpen(v: View)
    requires StreamEnd !in v.made && ValueMade(v).Some?
    ensures StreamEnd !in ValueMade(v).value.made
  {
    hide Rolled, Inserted;
    if TopPossible(v) {
      var key := v.keys[|v.keys| - 1];
      InsertedOpen(v.made, key.number, Key);
      RolledOpen(v.(keys := Impossible(v.keys), made := Inserted(v.made, key.number, Key)), key.mark.column,
                 Some(key.number), BlockMappingStart);
    } else {
      RolledOpen(v, v.mark.column, None, BlockMappingStart);
    }
  }

  lemma {:induction false} BlockOpen(v: View, token: Kind, level: Kind, anywhere: bool)
    requires StreamEnd !in v.made && token != StreamEnd && level != StreamEnd
    requires BlockGoesOn(v, token, level, anywhere).Some?
    ensures StreamEnd !in BlockGoesOn(v, token, level, anywhere).value.made
  {
    hide Rolled;
    RolledOpen(v, v.mark.column, None, level);
  }

  /** The end of the stream is made of the end of the text, and after everything else. */
  lemma {:induction false} LexemeOpen(v: View, lexeme: Lexeme)
    requires StreamEnd !in v.made && LexemeRead(v, lexeme).Some?
    ensures var made := LexemeRead(v, lexeme).value.made;
            if lexeme.End? then made != [] && StreamEnd !in made[..|made| - 1] else StreamEnd !in made
  {
    hide Unrolled, Rolled, BlockGoesOn, ValueMade;
    match lexeme {
      case End => UnrolledOpen(v.(mark := NewLine(v.mark)), -1);
      case Directives => UnrolledOpen(v, -1);
      case Indicator(_) => UnrolledOpen(v, -1);
      case Dash => BlockOpen(v, BlockEntry, BlockSequenceStart, true);
      case Question => BlockOpen(v, Key, BlockMappingStart, false);
      case Colon => ValueOpen(v);
      case _ =>
    }
  }

  lemma {:induction false} FetchedOpen(v: View, input: Input)
    requires StreamEnd !in v.made && Fetched(v, input).Some?
    ensures var made := Fetched(v, input).value.made;
            if input.lexeme.End? then made != [] && StreamEnd !in made[..|made| - 1] else StreamEnd !in made
  {
    hide LexemeRead, Unrolled;
    var w := WithoutStale(v.(mark := input.start, allowed := v.allowed || (input.newLine && v.flowLevel == 0))).value;
    UnrolledOpen(w, w.mark.column);
    LexemeOpen(Unrolled(w, w.mark.column), input.lexeme);
  }

  lemma {:induction false} ScannedOpen(v: View, inputs: seq<Input>)
    requires StreamEnd !in v.made && EndsLast(inputs) && Scanned(v, inputs).Some?
    ensures var made := Scanned(v, inputs).value.made;
            made != [] ==> StreamEnd !in made[..|made| - 1]
    decreases |inputs|
  {
    hide Fetched;
    if inputs != [] {
      FetchedOpen(v, inputs[0]);
      var u := Fetched(v, inputs[0]).value;
      if |inputs| == 1 {
        assert inputs[1..] == [];
      } else {
        assert !inputs[0].lexeme.End?;
        ScannedOpen(u, inputs[1..]);
      }
    }
  }
}
