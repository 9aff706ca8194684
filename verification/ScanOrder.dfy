/** What follows what among the tokens of the scanner, in every run. */
module ScanOrder {
  import opened Wrappers
  import opened ScannerMoves

  /** What may come after a token: the start of a block collection is followed by its first entry. */
  predicate Follows(a: Kind, b: Kind) {
    && (a == BlockMappingStart ==> b == Key || b == Value)
    && (a == BlockSequenceStart ==> b == BlockEntry)
  }

  predicate Starts(a: Kind) {
    a == BlockMappingStart || a == BlockSequenceStart
  }

  /** Each token is followed by what may come after it, and the last needs nothing after it. */
  predicate InOrder(made: seq<Kind>) {
    && (forall i :: 0 <= i < |made| - 1 ==> Follows(made[i], made[i + 1]))
    && (made != [] ==> !Starts(made[|made| - 1]))
  }

  /** What can be a simple key. */
  predicate CanBeKey(token: Kind) {
    token == Content || token.FlowStart?
  }

  predicate KeyNames(key: SimpleKey, made: seq<Kind>) {
    key.possible ==> key.number < |made| && CanBeKey(made[key.number])
  }

  /** Every possible key names a token that can be one, those of outer levels before those of inner ones. */
  predicate KeysName(keys: seq<SimpleKey>, made: seq<Kind>) {
    && (forall i :: 0 <= i < |keys| ==> KeyNames(keys[i], made))
    && (forall i, j :: 0 <= i < j < |keys| && keys[i].possible && keys[j].possible ==> keys[i].number < keys[j].number)
  }

  predicate Orderly(v: View) {
    InOrder(v.made) && KeysName(v.keys, v.made)
  }

  /** Fewer keys are possible. */
  predicate Fewer(keys: seq<SimpleKey>, less: seq<SimpleKey>) {
    |less| <= |keys| && forall i :: 0 <= i < |less| ==> less[i] == keys[i] || !less[i].possible
  }

  lemma {:induction false} FewerName(keys: seq<SimpleKey>, less: seq<SimpleKey>, made: seq<Kind>)
    requires KeysName(keys, made) && Fewer(keys, less)
    ensures KeysName(less, made)
  {
  }

  /** A token more at the end. */
  lemma {:induction false} OrderAppend(made: seq<Kind>, token: Kind)
    requires InOrder(made) && !Starts(token)
    ensures InOrder(made + [token])
  {
  }

  lemma {:induction false} NamesAppend(keys: seq<SimpleKey>, made: seq<Kind>, more: seq<Kind>)
    requires KeysName(keys, made)
    ensures KeysName(keys, made + more)
  {
  }

  lemma {:induction false} MadeOrderly(v: View, token: Kind)
    requires Orderly(v) && !Starts(token)
    ensures Orderly(Made(v, token))
  {
    OrderAppend(v.made, token);
    NamesAppend(v.keys, v.made, [token]);
  }

  lemma {:induction false} UnrolledOrderly(v: View, column: int)
    requires Orderly(v)
    ensures Orderly(Unrolled(v, column))
    decreases |v.indents|
  {
    hide Orderly;
    if !(v.flowLevel > 0 || v.indent <= column || v.indents == []) {
      MadeOrderly(v, BlockEnd);
      var w := Made(v, BlockEnd).(indents := v.indents[..|v.indents| - 1], indent := v.indents[|v.indents| - 1]);
      SameOrderly(Made(v, BlockEnd), w);
      UnrolledOrderly(w, column);
    }
  }

  lemma {:induction false} SameOrderly(v: View, w: View)
    requires Orderly(v) && w.made == v.made && Fewer(v.keys, w.keys)
    ensures Orderly(w)
  {
    FewerName(v.keys, w.keys, v.made);
  }

  lemma {:induction false} RemovedOrderly(v: View)
    requires Orderly(v) && KeyRemoved(v).Some?
    ensures Orderly(KeyRemoved(v).value) && KeyRemoved(v).value.made == v.made
    ensures KeyRemoved(v).value.flowLevel == v.flowLevel && |KeyRemoved(v).value.keys| == |v.keys|
  {
    SameOrderly(v, KeyRemoved(v).value);
  }

  lemma {:induction false} FinishedOrderly(v: View, allowed: bool, token: Kind)
    requires Orderly(v) && Finished(v, allowed, token).Some? && !Starts(token)
    ensures Orderly(Finished(v, allowed, token).value)
  {
    hide Orderly, KeyRemoved;
    RemovedOrderly(v);
    var w := KeyRemoved(v).value.(allowed := allowed);
    SameOrderly(KeyRemoved(v).value, w);
    MadeOrderly(w, token);
  }

  /** A key is saved for the token that is made next. */
  lemma {:induction false} SavedOrderly(v: View, w: View, token: Kind, more: seq<SimpleKey>)
    requires Orderly(v) && KeySaved(v) == Some(w) && CanBeKey(token)
    requires forall i :: 0 <= i < |more| ==> !more[i].possible
    ensures InOrder(w.made + [token]) && KeysName(w.keys + more, w.made + [token])
  {
    OrderAppend(v.made, token);
    NamesAppend(v.keys, v.made, [token]);
    var keys, made := w.keys + more, w.made + [token];
    forall i | 0 <= i < |keys|
      ensures KeyNames(keys[i], made)
    {
    }
    forall i, j | 0 <= i < j < |keys| && keys[i].possible && keys[j].possible
      ensures keys[i].number < keys[j].number
    {
      assert keys[i] == w.keys[i] && keys[j] == w.keys[j];
      assert KeyNames(v.keys[i], v.made);
    }
  }

  lemma {:induction false} ContentOrderly(v: View, save: bool, allowed: bool)
    requires Orderly(v) && ContentMade(v, save, allowed).Some?
    ensures Orderly(ContentMade(v, save, allowed).value)
  {
    hide KeySaved, Finished, KeysName, InOrder;
    if save {
      var w := KeySaved(v).value;
      SavedOrderly(v, w, Content, []);
      assert w.keys + [] == w.keys;
    } else {
      FinishedOrderly(v, allowed, Content);
    }
  }

  lemma {:induction false} FlowStartedOrderly(v: View, mapping: bool)
    requires Orderly(v) && FlowStarted(v, mapping).Some?
    ensures Orderly(FlowStarted(v, mapping).value)
  {
    hide KeySaved, KeysName, InOrder;
    SavedOrderly(v, KeySaved(v).value, FlowStart(mapping), [NO_KEY]);
  }

  lemma {:induction false} FlowEndedOrderly(v: View, mapping: bool)
    requires Orderly(v) && FlowEnded(v, mapping).Some?
    ensures Orderly(FlowEnded(v, mapping).value)
  {
    hide Orderly, KeyRemoved;
    RemovedOrderly(v);
    var w := FlowLeft(v).value.(allowed := false);
    SameOrderly(KeyRemoved(v).value, w);
    MadeOrderly(w, FlowEnd(mapping));
  }

  /** A level, and the token that comes first in it. */
  lemma {:induction false} OrderLevel(made: seq<Kind>, level: Kind, token: Kind)
    requires InOrder(made) && Follows(level, token) && !Starts(token)
    ensures InOrder(made + [level] + [token])
  {
    var all := made + [level] + [token];
    forall i | 0 <= i < |all| - 1
      ensures Follows(all[i], all[i + 1])
    {
      assert i == |made| - 1 ==> !Starts(made[i]);
    }
  }

  /** Where a level may begin at the end, and its first token follows. */
  lemma {:induction false} RolledThenMade(v: View, column: nat, level: Kind, token: Kind, w: View, keys: seq<SimpleKey>)
    requires Orderly(v) && Rolled(v, column, None, level) == Some(w) && Follows(level, token) && !Starts(token)
    requires Fewer(v.keys, keys)
    ensures InOrder(w.made + [token]) && KeysName(keys, w.made + [token])
  {
    FewerName(v.keys, keys, v.made);
    if w.made == v.made {
      OrderAppend(v.made, token);
      NamesAppend(keys, v.made, [token]);
    } else {
      assert w.made == v.made + [level];
      OrderLevel(v.made, level, token);
      NamesAppend(keys, v.made, [level] + [token]);
      assert v.made + ([level] + [token]) == w.made + [token];
    }
  }

  lemma {:induction false} RolledKeys(v: View, column: nat, number: Option<nat>, level: Kind)
    requires Rolled(v, column, number, level).Some?
    ensures Rolled(v, column, number, level).value.keys == v.keys
  {
  }

  lemma {:induction false} BlockOrderly(v: View, token: Kind, level: Kind, anywhere: bool)
    requires Orderly(v) && BlockGoesOn(v, token, level, anywhere).Some? && Follows(level, token) && !Starts(token)
    ensures Orderly(BlockGoesOn(v, token, level, anywhere).value)
  {
    hide Rolled, KeysName, InOrder;
    var w := Rolled(v, v.mark.column, None, level).value;
    RolledKeys(v, v.mark.column, None, level);
    RolledThenMade(v, v.mark.column, level, token, w, Impossible(w.keys));
  }

  /** KEY, and the start of a mapping before it, are put in before what was saved as a key. */
  lemma {:induction false} OrderInsert(made: seq<Kind>, n: nat, put: seq<Kind>)
    requires InOrder(made) && n < |made| && CanBeKey(made[n]) && (put == [Key] || put == [BlockMappingStart, Key])
    ensures InOrder(made[..n] + put + made[n..])
  {
    var all := made[..n] + put + made[n..];
    forall i | 0 <= i < |all| - 1
      ensures Follows(all[i], all[i + 1])
    {
      if i < n - 1 {
        assert all[i] == made[i] && all[i + 1] == made[i + 1];
      } else if i == n - 1 {
        assert all[i] == made[i] && Follows(made[i], made[n]);
      } else if i >= n + |put| {
        assert all[i] == made[i - |put|] && all[i + 1] == made[i + 1 - |put|];
      }
    }
    assert all[|all| - 1] == made[|made| - 1];
  }

  lemma {:induction false} NamesInsert(keys: seq<SimpleKey>, made: seq<Kind>, n: nat, put: seq<Kind>)
    requires KeysName(keys, made) && n < |made|
    requires forall i :: 0 <= i < |keys| && keys[i].possible ==> keys[i].number < n
    ensures KeysName(keys, made[..n] + put + made[n..])
  {
    var all := made[..n] + put + made[n..];
    forall i | 0 <= i < |keys|
      ensures KeyNames(keys[i], all)
    {
      assert keys[i].possible ==> all[keys[i].number] == made[keys[i].number];
    }
  }

  lemma {:induction false} KeyFoundOrderly(v: View, key: SimpleKey)
    requires Orderly(v) && TopPossible(v) && key == v.keys[|v.keys| - 1] && KeyFound(v, key).Some?
    ensures Orderly(KeyFound(v, key).value)
  {
    var n, keys := key.number, Impossible(v.keys);
    assert KeyNames(key, v.made);
    FewerName(v.keys, keys, v.made);
    var w := v.(keys := keys, made := Inserted(v.made, n, Key));
    var u := Rolled(w, key.mark.column, Some(n), BlockMappingStart).value;
    var put := if u.made == w.made then [Key] else [BlockMappingStart, Key];
    InsertedTwice(v.made, n);
    assert u.made == v.made[..n] + put + v.made[n..];
    OrderInsert(v.made, n, put);
    NamesInsert(keys, v.made, n, put);
    MadeOrderly(u.(allowed := false), Value);
  }

  lemma {:induction false} InsertedTwice(made: seq<Kind>, n: nat)
    requires n < |made|
    ensures Inserted(made, n, Key) == made[..n] + [Key] + made[n..]
    ensures Inserted(Inserted(made, n, Key), n, BlockMappingStart) == made[..n] + [BlockMappingStart, Key] + made[n..]
  {
    var once := Inserted(made, n, Key);
    assert once[..n] == made[..n] && once[n..] == [Key] + made[n..];
  }

  lemma {:induction false} ValueOrderly(v: View)
    requires Orderly(v) && ValueMade(v).Some?
    ensures Orderly(ValueMade(v).value)
  {
    hide Rolled, KeyFound, KeysName, InOrder;
    if TopPossible(v) {
      KeyFoundOrderly(v, v.keys[|v.keys| - 1]);
    } else {
      var w := Rolled(v, v.mark.column, None, BlockMappingStart).value;
      RolledKeys(v, v.mark.column, None, BlockMappingStart);
      RolledThenMade(v, v.mark.column, BlockMappingStart, Value, w, w.keys);
    }
  }

  lemma {:induction false} MarkerOrderly(v: View, token: Kind)
    requires Orderly(v) && Marker(v, token).Some? && !Starts(token)
    ensures Orderly(Marker(v, token).value)
  {
    hide Orderly, Unrolled, Finished;
    UnrolledOrderly(v, -1);
    FinishedOrderly(Unrolled(v, -1), false, token);
  }

  lemma {:induction false} LexemeOrderly(v: View, lexeme: Lexeme)
    requires Orderly(v) && LexemeRead(v, lexeme).Some?
    ensures Orderly(LexemeRead(v, lexeme).value)
  {
    hide Orderly, Unrolled, Finished, Marker, FlowStarted, FlowEnded, BlockGoesOn, ValueMade, ContentMade;
    match lexeme {
      case End =>
        SameOrderly(v, v.(mark := NewLine(v.mark)));
        MarkerOrderly(v.(mark := NewLine(v.mark)), StreamEnd);
      case Directives => MarkerOrderly(v, Directive);
      case Indicator(start) => MarkerOrderly(v, if start then DocumentStart else DocumentEnd);
      case FlowOpen(mapping) => FlowStartedOrderly(v, mapping);
      case FlowClose(mapping) => FlowEndedOrderly(v, mapping);
      case Comma => FinishedOrderly(v, true, FlowEntry);
      case Dash => BlockOrderly(v, BlockEntry, BlockSequenceStart, true);
      case Question => BlockOrderly(v, Key, BlockMappingStart, false);
      case Colon => ValueOrderly(v);
      case Node => ContentOrderly(v, true, false);
      case Plain(leading) => ContentOrderly(v, true, leading);
      case BlockScalar => ContentOrderly(v, false, true);
      case Bad =>
    }
  }

  lemma {:induction false} FetchedOrderly(v: View, input: Input)
    requires Orderly(v) && Fetched(v, input).Some?
    ensures Orderly(Fetched(v, input).value)
  {
    hide Orderly, Unrolled, LexemeRead, Overdue, Staled;
    var here := v.(mark := input.start, allowed := v.allowed || (input.newLine && v.flowLevel == 0));
    var w := here.(keys := Staled(v.keys, input.start));
    StaledFewer(v.keys, input.start);
    SameOrderly(v, w);
    UnrolledOrderly(w, input.start.column);
    var u := Settled(v, input).value;
    LexemeOrderly(u, input.lexeme);
    SameOrderly(LexemeRead(u, input.lexeme).value, Fetched(v, input).value);
  }

  lemma {:induction false} StaledFewer(keys: seq<SimpleKey>, m: Mark)
    ensures Fewer(keys, Staled(keys, m))
  {
  }

  /**
   Whatever is read: the start of a block mapping is followed by KEY or VALUE and the start of a block sequence by
   BLOCK-ENTRY, and what may still be a simple key is a node or the start of a flow collection.
   */
  lemma {:induction false} ScannedOrderly(v: View, inputs: seq<Input>)
    requires Orderly(v) && Scanned(v, inputs).Some?
    ensures Orderly(Scanned(v, inputs).value)
    decreases |inputs|
  {
    hide Orderly, Fetched;
    if inputs != [] {
      FetchedOrderly(v, inputs[0]);
      ScannedOrderly(Fetched(v, inputs[0]).value, inputs[1..]);
    }
  }

  lemma {:induction false} StartOrderly(limit: int)
    ensures Orderly(StreamStarted(Start(limit)))
  {
  }

  /**
   A colon that finds a simple key puts KEY right before the token that was saved, and before that the start of a
   mapping if and only if the key is deeper than the block that is open; VALUE comes last.
   */
  lemma {:induction false} KeyBeforeItsToken(v: View)
    requires Orderly(v) && TopPossible(v) && ValueMade(v).Some?
    ensures var key := v.keys[|v.keys| - 1];
            var n := key.number;
            && n < |v.made| && CanBeKey(v.made[n])
            && ValueMade(v).value.made ==
               v.made[..n] + (if v.flowLevel == 0 && v.indent < key.mark.column then [BlockMappingStart] else []) +
               [Key] + v.made[n..] + [Value]
  {
    var key := v.keys[|v.keys| - 1];
    var n := key.number;
    assert KeyNames(key, v.made);
    InsertedTwice(v.made, n);
    assert v.made[..n] + [BlockMappingStart, Key] == v.made[..n] + [BlockMappingStart] + [Key];
    assert v.made[..n] + [] + [Key] == v.made[..n] + [Key];
  }
}
