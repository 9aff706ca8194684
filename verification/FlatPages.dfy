/** The scanner on nodes without block collections: words, and flow collections of them. */
module FlatPages {
  import opened Wrappers
  import opened ScannerMoves
  import opened Layout

  function TopOf(keys: seq<SimpleKey>): SimpleKey
    requires keys != []
  {
    keys[|keys| - 1]
  }

  function Outer(keys: seq<SimpleKey>): seq<SimpleKey>
    requires keys != []
  {
    keys[..|keys| - 1]
  }

  lemma {:induction false} NotOverdueBefore(keys: seq<SimpleKey>, m: Mark, n: Mark)
    requires Later(m, n) && !Overdue(keys, n)
    ensures !Overdue(keys, m) && Staled(Staled(keys, m), n) == Staled(keys, n) && !Overdue(Staled(keys, m), n)
  {
    forall i | 0 <= i < |keys|
      ensures !(IsStale(keys[i], m) && keys[i].required)
    {
      assert IsStale(keys[i], m) ==> IsStale(keys[i], n);
    }
    StaleTwice(keys, m, n);
  }

  // One lexeme, or one flow collection, at the level where the scanner is.

  /** The same levels are open. */
  predicate SameLevel(v: View, w: View) {
    && w.limit == v.limit && w.started == v.started && w.flowLevel == v.flowLevel && w.indents == v.indents
    && w.indent == v.indent && |w.keys| == |v.keys| > 0
  }

  function NewKey(v: View, first: Mark): SimpleKey {
    SimpleKey(true, v.flowLevel == 0 && v.indent == first.column, |v.made|, first)
  }

  /** The keys once what starts here has been saved, if it can be a key. */
  function KeysFrom(v: View, first: Mark, allow: bool): seq<SimpleKey> {
    if allow then SetTop(v.keys, NewKey(v, first)) else v.keys
  }

  predicate Allows(v: View, input: Input) {
    v.allowed || (input.newLine && v.flowLevel == 0)
  }

  /** No level ends before the lexeme. */
  predicate Stays(v: View, input: Input) {
    v.flowLevel > 0 || v.indent <= input.start.column
  }

  /** No key is missed up to the mark `last`. */
  predicate Quiet(v: View, first: Mark, allow: bool, last: Mark) {
    && v.keys != [] && (allow ==> !(TopOf(v.keys).possible && TopOf(v.keys).required))
    && !Overdue(KeysFrom(v, first, allow), last)
  }

  /** Something with these tokens has been read, from `first` to what starts at `last`. */
  predicate Unit(v: View, w: View, first: Mark, allow: bool, kinds: seq<Kind>, last: Mark) {
    SameLevel(v, w) && w.made == v.made + kinds && w.keys == Staled(KeysFrom(v, first, allow), last)
  }

  lemma {:induction false} SettledLevel(v: View, input: Input)
    requires Stays(v, input) && !Overdue(v.keys, input.start)
    ensures Settled(v, input) ==
            Some(v.(mark := input.start, allowed := Allows(v, input), keys := Staled(v.keys, input.start)))
  {
    hide Overdue, Staled;
  }

  lemma {:induction false} QuietBefore(v: View, first: Mark, allow: bool, last: Mark)
    requires Quiet(v, first, allow, last) && Later(first, last)
    ensures !Overdue(v.keys, first) && !Overdue(KeysFrom(v, first, allow), first)
    ensures Staled(Staled(KeysFrom(v, first, allow), first), last) == Staled(KeysFrom(v, first, allow), last)
  {
    var keys := KeysFrom(v, first, allow);
    NotOverdueBefore(keys, first, last);
    if allow {
      var n := |keys| - 1;
      forall i | 0 <= i < |v.keys|
        ensures !(IsStale(v.keys[i], first) && v.keys[i].required)
      {
        assert i < n ==> keys[i] == v.keys[i];
      }
    }
  }

  lemma {:induction false} SavedKeys(keys: seq<SimpleKey>, key: SimpleKey, m: Mark)
    requires keys != [] && key.possible && key.mark == m
    ensures SetTop(Impossible(Staled(keys, m)), key) == Staled(SetTop(keys, key), m)
  {
    assert !IsStale(key, m);
  }

  /** `yaml_parser_save_simple_key`, for what starts here. */
  lemma {:induction false} Saved(v: View, input: Input, last: Mark)
    requires Stays(v, input) && Quiet(v, input.start, Allows(v, input), last) && Later(input.start, last)
    ensures Settled(v, input).Some?
    ensures KeySaved(Settled(v, input).value) ==
            Some(v.(mark := input.start, allowed := Allows(v, input),
                    keys := Staled(KeysFrom(v, input.start, Allows(v, input)), input.start)))
  {
    hide Overdue, Staled;
    QuietBefore(v, input.start, Allows(v, input), last);
    SettledLevel(v, input);
    if Allows(v, input) {
      SavedKeys(v.keys, NewKey(v, input.start), input.start);
      StaledTop(v.keys, input.start);
    }
  }

  lemma {:induction false} StaledTop(keys: seq<SimpleKey>, m: Mark)
    requires keys != []
    ensures Staled(keys, m) != [] && TopOf(Staled(keys, m)) == Fresher(TopOf(keys), m)
    ensures Outer(Staled(keys, m)) == Staled(Outer(keys), m)
  {
  }

  lemma {:induction false} WordUnit(v: View, input: Input)
    requires IsWord(input) && Stays(v, input) && Quiet(v, input.start, Allows(v, input), input.start)
    ensures Fetched(v, input).Some?
    ensures var w := Fetched(v, input).value;
            && Unit(v, w, input.start, Allows(v, input), [Content], input.start)
            && w.allowed == (input.lexeme.Plain? && input.lexeme.leading) && w.mark == input.end
  {
    hide Settled, KeySaved, Staled, Quiet, Stays;
    Saved(v, input, input.start);
    var s := KeySaved(Settled(v, input).value).value;
    KeysSize(v, input.start, Allows(v, input));
    assert v.keys != [] by { QuietKeys(v, input.start, Allows(v, input), input.start); }
    var allowed := input.lexeme.Plain? && input.lexeme.leading;
    assert Fetched(v, input) == Some(Made(s.(allowed := allowed), Content).(mark := input.end));
  }

  lemma {:induction false} KeysSize(v: View, first: Mark, allow: bool)
    ensures |KeysFrom(v, first, allow)| == |v.keys|
  {
  }

  lemma {:induction false} QuietKeys(v: View, first: Mark, allow: bool, last: Mark)
    requires Quiet(v, first, allow, last)
    ensures v.keys != []
  {
  }

  /** What follows on the same line, and is no key of its own. */
  lemma {:induction false} UnitThen(v: View, w: View, u: View, first: Mark, allow: bool, a: seq<Kind>, m: Mark,
                                    second: Mark, b: seq<Kind>, last: Mark)
    requires Unit(v, w, first, allow, a, m) && Unit(w, u, second, false, b, last) && Later(m, last)
    requires !Overdue(KeysFrom(v, first, allow), last)
    ensures Unit(v, u, first, allow, a + b, last)
  {
    hide Overdue, Staled;
    NotOverdueBefore(KeysFrom(v, first, allow), m, last);
    assert v.made + a + b == v.made + (a + b);
  }

  lemma {:induction false} QuietThen(v: View, w: View, first: Mark, allow: bool, a: seq<Kind>, m: Mark, second: Mark,
                                     last: Mark)
    requires Unit(v, w, first, allow, a, m) && Later(m, last) && !Overdue(KeysFrom(v, first, allow), last)
    ensures Quiet(w, second, false, last)
  {
    hide Overdue, Staled;
    NotOverdueBefore(KeysFrom(v, first, allow), m, last);
  }

  lemma {:induction false} ScannedCons(v: View, input: Input, rest: seq<Input>)
    ensures Scanned(v, [input] + rest) ==
            match Fetched(v, input) case None => None case Some(w) => Scanned(w, rest)
  {
    hide Fetched;
    assert ([input] + rest)[1..] == rest;
  }

  lemma {:induction false} ScannedJoined(v: View, a: seq<Input>, b: seq<Input>)
    ensures Scanned(v, a + b) == match Scanned(v, a) case None => None case Some(w) => Scanned(w, b)
    decreases |a|
  {
    hide Fetched;
    if a == [] {
      assert a + b == b;
    } else {
      assert (a + b)[1..] == a[1..] + b;
      var next := Fetched(v, a[0]);
      if next.Some? {
        ScannedJoined(next.value, a[1..], b);
      }
    }
  }

  lemma {:induction false} OrderedParts(a: seq<Input>, b: seq<Input>)
    requires Ordered(a + b)
    ensures Ordered(a) && Ordered(b)
    ensures forall i, j :: 0 <= i < |a| && 0 <= j < |b| ==> Later(a[i].start, b[j].start)
  {
    var all := a + b;
    forall i, j | 0 <= i < j < |a|
      ensures Later(a[i].start, a[j].start)
    {
      assert all[i] == a[i] && all[j] == a[j];
    }
    forall i, j | 0 <= i < j < |b|
      ensures Later(b[i].start, b[j].start)
    {
      assert all[|a| + i] == b[i] && all[|a| + j] == b[j];
    }
    forall i, j | 0 <= i < |a| && 0 <= j < |b|
      ensures Later(a[i].start, b[j].start)
    {
      assert all[i] == a[i] && all[|a| + j] == b[j];
    }
  }

  /** The outermost lexemes of a node are read where the scanner is, without a new line between them. */
  predicate Level(v: View, inputs: seq<Input>) {
    v.flowLevel > 0 || (SameLine(inputs) && forall k :: 0 <= k < |inputs| ==> v.indent <= inputs[k].start.column)
  }

  lemma {:induction false} LevelAfter(v: View, w: View, inputs: seq<Input>)
    requires Level(v, inputs) && inputs != [] && SameLevel(v, w)
    ensures Stays(v, inputs[0]) && (|inputs| > 1 && !w.allowed ==> !Allows(w, inputs[1])) && Level(w, inputs[1..])
  {
  }

  /** Anchors and tags before a node. */
  lemma {:induction false} PropsUnit(v: View, props: seq<Input>)
    requires props != [] && PropsFit(props) && Ordered(props) && Level(v, props)
    requires Quiet(v, props[0].start, Allows(v, props[0]), props[|props| - 1].start)
    ensures Scanned(v, props).Some?
    ensures var w := Scanned(v, props).value;
            && Unit(v, w, props[0].start, Allows(v, props[0]), Contents(|props|), props[|props| - 1].start)
            && !w.allowed
    decreases |props|
  {
    hide Fetched, Unit, Quiet, Allows, Level;
    var first, last, allow := props[0].start, props[|props| - 1].start, Allows(v, props[0]);
    QuietUpTo(v, first, allow, first, last);
    assert Stays(v, props[0]) by { LevelFirst(v, props); }
    WordUnit(v, props[0]);
    var w := Fetched(v, props[0]).value;
    if |props| == 1 {
      assert props[1..] == [] && Contents(1) == [Content];
    } else {
      var rest := props[1..];
      PropsNext(v, w, props, [Content]);
      PropsUnit(w, rest);
      QuietEnds(v, first, allow, last);
      UnitThen(v, w, Scanned(w, rest).value, first, allow, [Content], first, rest[0].start, Contents(|rest|), last);
    }
  }

  lemma {:induction false} LevelFirst(v: View, inputs: seq<Input>)
    requires Level(v, inputs) && inputs != []
    ensures Stays(v, inputs[0])
  {
  }

  lemma {:induction false} QuietUpTo(v: View, first: Mark, allow: bool, m: Mark, last: Mark)
    requires Quiet(v, first, allow, last) && Later(m, last)
    ensures Quiet(v, first, allow, m)
  {
    hide Overdue, Staled;
    NotOverdueBefore(KeysFrom(v, first, allow), m, last);
  }

  lemma {:induction false} QuietEnds(v: View, first: Mark, allow: bool, last: Mark)
    requires Quiet(v, first, allow, last)
    ensures !Overdue(KeysFrom(v, first, allow), last)
  {
  }

  lemma {:induction false} PropsNext(v: View, w: View, props: seq<Input>, kinds: seq<Kind>)
    requires |props| > 1 && PropsFit(props) && Ordered(props) && Level(v, props) && !w.allowed
    requires Unit(v, w, props[0].start, Allows(v, props[0]), kinds, props[0].start)
    requires Quiet(v, props[0].start, Allows(v, props[0]), props[|props| - 1].start)
    ensures var rest := props[1..];
            && PropsFit(rest) && Ordered(rest) && Level(w, rest) && !Allows(w, rest[0])
            && Quiet(w, rest[0].start, false, rest[|rest| - 1].start)
  {
    hide Overdue, Staled;
    LevelAfter(v, w, props);
    QuietThen(v, w, props[0].start, Allows(v, props[0]), kinds, props[0].start, props[1].start,
              props[|props| - 1].start);
  }

  // Inside a flow collection.

  /** Inside of a flow collection, tokens further, after something that starts at `m`. */
  predicate Inner(e0: View, e: View, kinds: seq<Kind>, m: Mark) {
    && SameLevel(e0, e) && e.flowLevel > 0 && e.made == e0.made + kinds
    && Outer(e.keys) == Staled(Outer(e0.keys), m) && !TopOf(e.keys).required
  }

  function LastStart(m: Mark, inputs: seq<Input>): Mark {
    if inputs == [] then m else inputs[|inputs| - 1].start
  }

  /** Lexemes that come after the mark. */
  predicate From(m: Mark, inputs: seq<Input>) {
    Ordered(inputs) && forall i :: 0 <= i < |inputs| ==> Later(m, inputs[i].start)
  }

  lemma {:induction false} FromSplit(m: Mark, a: seq<Input>, b: seq<Input>)
    requires From(m, a + b)
    ensures From(m, a) && From(LastStart(m, a), b)
    ensures LastStart(m, a + b) == LastStart(LastStart(m, a), b)
    ensures Later(m, LastStart(m, a)) && Later(LastStart(m, a), LastStart(m, a + b))
  {
    OrderedParts(a, b);
    var all := a + b;
    forall i | 0 <= i < |a|
      ensures Later(m, a[i].start)
    {
      assert all[i] == a[i];
    }
    forall i | 0 <= i < |b|
      ensures Later(LastStart(m, a), b[i].start)
    {
      assert all[|a| + i] == b[i];
    }
    if b == [] {
      assert all == a;
    } else {
      assert all[|all| - 1] == b[|b| - 1];
    }
  }

  /** These lexemes can be read without a key being missed. */
  predicate Ahead(e0: View, e: View, kinds: seq<Kind>, m: Mark, inputs: seq<Input>) {
    Inner(e0, e, kinds, m) && From(m, inputs) && !Overdue(Outer(e0.keys), LastStart(m, inputs))
  }

  /** They have been read. */
  predicate Got(e0: View, kinds: seq<Kind>, m: Mark, inputs: seq<Input>, r: Option<View>) {
    r.Some? && Inner(e0, r.value, kinds, LastStart(m, inputs))
  }

  lemma {:induction false} AheadFirst(e0: View, e: View, kinds: seq<Kind>, m: Mark, a: seq<Input>, b: seq<Input>)
    requires Ahead(e0, e, kinds, m, a + b)
    ensures Ahead(e0, e, kinds, m, a)
  {
    hide Overdue, Staled, Inner, Ordered;
    InnerKeys(e0, e, kinds, m);
    FromSplit(m, a, b);
    NotOverdueBefore(Outer(e0.keys), LastStart(m, a), LastStart(m, a + b));
  }

  lemma {:induction false} InnerKeys(e0: View, e: View, kinds: seq<Kind>, m: Mark)
    requires Inner(e0, e, kinds, m)
    ensures e0.keys != [] && e.keys != [] && e.flowLevel > 0
  {
  }

  lemma {:induction false} AheadThen(e0: View, e: View, kinds: seq<Kind>, m: Mark, a: seq<Input>, b: seq<Input>,
                                     r: Option<View>, more: seq<Kind>)
    requires Ahead(e0, e, kinds, m, a + b) && Got(e0, kinds + more, m, a, r)
    ensures Ahead(e0, r.value, kinds + more, LastStart(m, a), b)
    ensures LastStart(m, a + b) == LastStart(LastStart(m, a), b)
  {
    hide Overdue, Staled, Inner, Ordered;
    InnerKeys(e0, e, kinds, m);
    FromSplit(m, a, b);
  }

  lemma {:induction false} InnerQuiet(e0: View, e: View, kinds: seq<Kind>, m: Mark, first: Mark, allow: bool,
                                      last: Mark)
    requires Inner(e0, e, kinds, m) && Later(m, last) && !Overdue(Outer(e0.keys), last)
    ensures Quiet(e, first, allow, last) && !Overdue(e.keys, last)
  {
    NotOverdueBefore(Outer(e0.keys), m, last);
    var n := |e.keys| - 1;
    forall i | 0 <= i < |e.keys|
      ensures !(IsStale(e.keys[i], last) && e.keys[i].required)
    {
      assert i < n ==> Outer(e.keys)[i] == e.keys[i];
    }
  }

  lemma {:induction false} InnerUnit(e0: View, e: View, kinds: seq<Kind>, m: Mark, w: View, first: Mark, allow: bool,
                                     more: seq<Kind>, last: Mark)
    requires Inner(e0, e, kinds, m) && Later(m, last) && !Overdue(Outer(e0.keys), last)
    requires Unit(e, w, first, allow, more, last)
    ensures Inner(e0, w, kinds + more, last)
    ensures !allow && !TopOf(e.keys).possible ==> !TopOf(w.keys).possible
  {
    hide Overdue, Staled;
    NotOverdueBefore(Outer(e0.keys), m, last);
    var keys := KeysFrom(e, first, allow);
    assert Outer(keys) == Outer(e.keys);
    StaledTop(keys, last);
    assert e0.made + kinds + more == e0.made + (kinds + more);
  }

  /** A lexeme inside a flow collection, before its token is made. */
  lemma {:induction false} InnerSettled(e0: View, e: View, kinds: seq<Kind>, m: Mark, input: Input)
    requires Ahead(e0, e, kinds, m, [input])
    ensures Settled(e, input) ==
            Some(e.(mark := input.start, allowed := e.allowed, keys := Staled(e.keys, input.start)))
    ensures Inner(e0, Settled(e, input).value, kinds, input.start)
    ensures TopOf(Settled(e, input).value.keys) == Fresher(TopOf(e.keys), input.start)
  {
    hide Overdue, Staled;
    assert [input][0] == input;
    NotOverdueBefore(Outer(e0.keys), m, input.start);
    InnerQuiet(e0, e, kinds, m, input.start, false, input.start);
    SettledLevel(e, input);
    StaledTop(e.keys, input.start);
  }

  lemma {:induction false} InnerRemoved(e0: View, u: View, kinds: seq<Kind>, m: Mark)
    requires Inner(e0, u, kinds, m)
    ensures KeyRemoved(u) == Some(u.(keys := Impossible(u.keys)))
    ensures Inner(e0, u.(keys := Impossible(u.keys)), kinds, m)
    ensures !TopOf(Impossible(u.keys)).possible
  {
    hide Staled;
    var keys := Impossible(u.keys);
    assert Outer(keys) == Outer(u.keys);
  }

  lemma {:induction false} InnerMade(e0: View, u: View, kinds: seq<Kind>, m: Mark, allowed: bool, token: Kind,
                                     mark: Mark)
    requires Inner(e0, u, kinds, m)
    ensures Inner(e0, Made(u.(allowed := allowed), token).(mark := mark), kinds + [token], m)
  {
    hide Staled;
    assert e0.made + kinds + [token] == e0.made + (kinds + [token]);
  }

  /** A comma. */
  lemma {:induction false} CommaRead(e0: View, e: View, kinds: seq<Kind>, m: Mark, input: Input)
    requires Ahead(e0, e, kinds, m, [input]) && input.lexeme == Comma
    ensures Got(e0, kinds + [FlowEntry], m, [input], Fetched(e, input)) && Fetched(e, input).value.allowed
  {
    hide Settled, Inner, Overdue, Staled, KeyRemoved, Impossible;
    InnerSettled(e0, e, kinds, m, input);
    var u := Settled(e, input).value;
    InnerRemoved(e0, u, kinds, input.start);
    var w := u.(keys := Impossible(u.keys));
    InnerMade(e0, w, kinds, input.start, true, FlowEntry, input.end);
  }

  /** A question mark. */
  lemma {:induction false} QuestionRead(e0: View, e: View, kinds: seq<Kind>, m: Mark, input: Input)
    requires Ahead(e0, e, kinds, m, [input]) && input.lexeme == Question
    ensures Got(e0, kinds + [Key], m, [input], Fetched(e, input))
    ensures !Fetched(e, input).value.allowed
    ensures !TopPossible(Fetched(e, input).value)
  {
    hide Settled, Inner, Overdue, Staled, KeyRemoved, Impossible;
    InnerSettled(e0, e, kinds, m, input);
    var u := Settled(e, input).value;
    InnerRemoved(e0, u, kinds, input.start);
    var w := u.(keys := Impossible(u.keys));
    InnerKeys(e0, w, kinds, input.start);
    assert BlockOpened(u, BlockMappingStart) == Some(u);
    InnerMade(e0, w, kinds, input.start, false, Key, input.end);
  }

  /** A colon where there is no simple key. */
  lemma {:induction false} ColonRead(e0: View, e: View, kinds: seq<Kind>, m: Mark, input: Input)
    requires Ahead(e0, e, kinds, m, [input]) && input.lexeme == Colon && !TopPossible(e)
    ensures Got(e0, kinds + [Value], m, [input], Fetched(e, input))
    ensures !Fetched(e, input).value.allowed
  {
    hide Settled, Inner, Overdue, Staled;
    InnerKeys(e0, e, kinds, m);
    InnerSettled(e0, e, kinds, m, input);
    var u := Settled(e, input).value;
    InnerKeys(e0, u, kinds, input.start);
    InnerMade(e0, u, kinds, input.start, false, Value, input.end);
  }

  /** A colon after a simple key: KEY goes before what the key was saved for. */
  lemma {:induction false} ColonFinds(e0: View, e: View, kinds: seq<Kind>, m: Mark, input: Input, before: seq<Kind>,
                                      key: seq<Kind>)
    requires Ahead(e0, e, kinds, m, [input]) && input.lexeme == Colon && kinds == before + key
    requires TopPossible(e) && TopOf(e.keys).number == |e0.made + before| && !IsStale(TopOf(e.keys), input.start)
    ensures Got(e0, before + ([Key] + (key + [Value])), m, [input], Fetched(e, input))
    ensures !Fetched(e, input).value.allowed
  {
    hide Settled, Inner, Overdue, Staled, Impossible;
    InnerKeys(e0, e, kinds, m);
    InnerSettled(e0, e, kinds, m, input);
    var u := Settled(e, input).value;
    InnerKeys(e0, u, kinds, input.start);
    InnerRemoved(e0, u, kinds, input.start);
    var w := u.(keys := Impossible(u.keys));
    var n := |e0.made + before|;
    InnerInserted(e0, w, before, key, input.start);
    var x := w.(made := Inserted(w.made, n, Key));
    InnerMade(e0, x, before + ([Key] + key), input.start, false, Value, input.end);
    assert before + ([Key] + key) + [Value] == before + ([Key] + (key + [Value]));
  }

  lemma {:induction false} InnerInserted(e0: View, w: View, before: seq<Kind>, key: seq<Kind>, m: Mark)
    requires Inner(e0, w, before + key, m)
    ensures Inner(e0, w.(made := Inserted(w.made, |e0.made + before|, Key)), before + ([Key] + key), m)
  {
    hide Staled;
    var n := |e0.made + before|;
    assert w.made == (e0.made + before) + key;
    assert w.made[..n] == e0.made + before && w.made[n..] == key;
    assert w.made[..n] + [Key] + w.made[n..] == e0.made + (before + ([Key] + key));
  }

  predicate Room(v: View, height: nat) {
    |v.indents| + v.flowLevel + height < v.limit
  }

  // Flow collections.

  /** The scanner after the start of a flow collection. */
  predicate Entered(v: View, e: View, mapping: bool, keys: seq<SimpleKey>) {
    && e.limit == v.limit && e.started == v.started && e.flowLevel == v.flowLevel + 1 && e.indents == v.indents
    && e.indent == v.indent && e.made == v.made + [FlowStart(mapping)] && e.keys == keys + [NO_KEY] && e.allowed
  }

  lemma {:induction false} FlowOpened(v: View, input: Input, mapping: bool, last: Mark)
    requires input.lexeme == FlowOpen(mapping) && Stays(v, input) && Room(v, 1)
    requires Quiet(v, input.start, Allows(v, input), last) && Later(input.start, last)
    ensures Fetched(v, input).Some?
    ensures Entered(v, Fetched(v, input).value, mapping,
                    Staled(KeysFrom(v, input.start, Allows(v, input)), input.start))
  {
    hide Settled, KeySaved, Staled, Quiet, Stays;
    Saved(v, input, last);
  }

  lemma {:induction false} EnteredInner(v: View, e: View, mapping: bool, keys: seq<SimpleKey>, m: Mark)
    requires Entered(v, e, mapping, Staled(keys, m)) && !Overdue(keys, m)
    ensures Inner(e, e, [], m) && Outer(e.keys) == Staled(keys, m)
  {
    hide Overdue, Staled;
    NotOverdueBefore(keys, m, m);
    assert Outer(e.keys) == Staled(keys, m);
  }

  /** The end of a flow collection leaves the keys of the levels around it. */
  lemma {:induction false} FlowClosed(e0: View, e: View, kinds: seq<Kind>, m: Mark, input: Input, mapping: bool)
    requires Ahead(e0, e, kinds, m, [input]) && input.lexeme == FlowClose(mapping)
    ensures Fetched(e, input).Some?
    ensures var w := Fetched(e, input).value;
            && w.limit == e.limit && w.started == e.started && w.flowLevel == e.flowLevel - 1
            && w.indents == e.indents && w.indent == e.indent && w.made == e0.made + (kinds + [FlowEnd(mapping)])
            && w.keys == Staled(Outer(e0.keys), input.start) && !w.allowed
  {
    hide Settled, Overdue, Staled, KeyRemoved, Impossible;
    InnerSettled(e0, e, kinds, m, input);
    var u := Settled(e, input).value;
    InnerRemoved(e0, u, kinds, input.start);
    var w := u.(keys := Impossible(u.keys));
    assert e0.made + kinds + [FlowEnd(mapping)] == e0.made + (kinds + [FlowEnd(mapping)]);
  }

  // Nodes.

  /** The node without its anchor and tag. */
  function MainInputs(p: Page): seq<Input>
    requires IsFlat(p)
  {
    if p.Flow? then FlowInputs(p.start, p.parts, p.commas, p.close) else AtInputs(p.at)
  }

  function MainKinds(p: Page): seq<Kind>
    requires IsFlat(p)
  {
    if p.Flow? then FlowKinds(p.mapping, p.parts, p.commas) else AtKinds(p.at)
  }

  function MainFirst(p: Page): Input
    requires p.Flow? || (p.Leaf? && p.at.Some?)
  {
    if p.Flow? then p.start else p.at.value
  }

  lemma {:induction false} FlatInputs(p: Page)
    requires IsFlat(p)
    ensures PageInputs(p) == p.props + MainInputs(p) && PageKinds(p) == Contents(|p.props|) + MainKinds(p)
    ensures PageInputs(p) != [] && PageInputs(p)[0] == FirstOf(p)
    ensures p.Flow? || p.at.Some? <==> MainInputs(p) != []
    ensures MainInputs(p) != [] ==> MainInputs(p)[0] == MainFirst(p)
  {
    hide PartsInputs, PartsKinds;
  }

  /** A word, or a flow collection, is read as its tokens, and saved as a key where one is allowed. */
  lemma {:induction false} MainUnit(v: View, p: Page)
    requires IsFlat(p) && InFlow(p) && MainInputs(p) != [] && Ordered(MainInputs(p))
    requires (p.Flow? || p.at.Some?) && Stays(v, MainFirst(p)) && Room(v, Height(p))
    requires Quiet(v, MainFirst(p).start, Allows(v, MainFirst(p)), LastStart(MainFirst(p).start, MainInputs(p)))
    ensures Scanned(v, MainInputs(p)).Some?
    ensures var w := Scanned(v, MainInputs(p)).value;
            Unit(v, w, MainFirst(p).start, Allows(v, MainFirst(p)), MainKinds(p),
                 LastStart(MainFirst(p).start, MainInputs(p)))
    decreases p, 0
  {
    hide Fetched, Unit, Quiet, Allows, Stays, FlowFits, PartsInputs, PartsKinds;
    if p.Leaf? {
      WordUnit(v, p.at.value);
      assert [p.at.value][1..] == [];
    } else {
      FlowUnit(v, p.mapping, p.start, p.parts, p.commas, p.close);
      assert (PartsInputs(p.parts, p.commas) + [p.close])[|PartsInputs(p.parts, p.commas)|] == p.close;
    }
  }

  lemma {:induction false} FlowUnit(v: View, mapping: bool, start: Input, parts: seq<Part>, commas: seq<Input>,
                                    close: Input)
    requires FlowFits(mapping, start, parts, commas, close) && Ordered(FlowInputs(start, parts, commas, close))
    requires Stays(v, start) && Room(v, 1 + HeightOfParts(parts))
    requires Quiet(v, start.start, Allows(v, start), close.start)
    ensures Scanned(v, FlowInputs(start, parts, commas, close)).Some?
    ensures var w := Scanned(v, FlowInputs(start, parts, commas, close)).value;
            Unit(v, w, start.start, Allows(v, start), FlowKinds(mapping, parts, commas), close.start)
    decreases parts, 3
  {
    hide Fetched, Scanned, Unit, Quiet, Allows, Stays, PartsInFlow, PartsInputs, PartsKinds, Overdue, Staled,
         HeightOfParts, Inner, From;
    var inside := PartsInputs(parts, commas);
    var keys := KeysFrom(v, start.start, Allows(v, start));
    FlowOrdered(start, inside, close);
    FlowOpened(v, start, mapping, close.start);
    var e0 := Fetched(v, start).value;
    QuietBefore(v, start.start, Allows(v, start), close.start);
    QuietEnds(v, start.start, Allows(v, start), close.start);
    NotOverdueBefore(keys, start.start, close.start);
    EnteredInner(v, e0, mapping, keys, start.start);
    AheadFirst(e0, e0, [], start.start, inside, [close]);
    PartsRead(e0, e0, [], start.start, parts, commas);
    var r := Scanned(e0, inside);
    assert [] + PartsKinds(parts, commas) == PartsKinds(parts, commas);
    AheadThen(e0, e0, [], start.start, inside, [close], r, PartsKinds(parts, commas));
    FlowClosed(e0, r.value, PartsKinds(parts, commas), LastStart(start.start, inside), close, mapping);
    FlowScanned(v, start, inside, close);
    QuietKeys(v, start.start, Allows(v, start), close.start);
    InnerSame(e0, r.value, PartsKinds(parts, commas), LastStart(start.start, inside));
    FlowIsUnit(v, e0, Fetched(r.value, close).value, mapping, PartsKinds(parts, commas), start.start,
               Allows(v, start), close.start, r.value);
  }

  lemma {:induction false} InnerSame(e0: View, e: View, kinds: seq<Kind>, m: Mark)
    requires Inner(e0, e, kinds, m)
    ensures SameLevel(e0, e)
  {
  }

  lemma {:induction false} FlowOrdered(start: Input, inside: seq<Input>, close: Input)
    requires Ordered([start] + (inside + [close]))
    ensures From(start.start, inside + [close]) && LastStart(start.start, inside + [close]) == close.start
    ensures Later(start.start, close.start)
  {
    OrderedParts([start], inside + [close]);
    assert [start][0] == start && (inside + [close])[|inside|] == close;
  }

  lemma {:induction false} FlowScanned(v: View, start: Input, inside: seq<Input>, close: Input)
    requires Fetched(v, start).Some? && Scanned(Fetched(v, start).value, inside).Some?
    ensures Scanned(v, [start] + (inside + [close])) ==
            Fetched(Scanned(Fetched(v, start).value, inside).value, close)
  {
    hide Fetched;
    ScannedCons(v, start, inside + [close]);
    ScannedJoined(Fetched(v, start).value, inside, [close]);
    assert [close][1..] == [];
  }

  lemma {:induction false} FlowIsUnit(v: View, e0: View, w: View, mapping: bool, kinds: seq<Kind>, first: Mark,
                                      allow: bool, last: Mark, e: View)
    requires Entered(v, e0, mapping, Staled(KeysFrom(v, first, allow), first)) && v.keys != []
    requires Staled(Staled(KeysFrom(v, first, allow), first), last) == Staled(KeysFrom(v, first, allow), last)
    requires SameLevel(e0, e)
    requires w.limit == e.limit && w.started == e.started && w.flowLevel == e.flowLevel - 1
    requires w.indents == e.indents && w.indent == e.indent && w.made == e0.made + (kinds + [FlowEnd(mapping)])
    requires w.keys == Staled(Outer(e0.keys), last)
    ensures Unit(v, w, first, allow, [FlowStart(mapping)] + (kinds + [FlowEnd(mapping)]), last)
  {
    hide Staled;
    assert Outer(e0.keys) == Staled(KeysFrom(v, first, allow), first);
    assert v.made + [FlowStart(mapping)] + (kinds + [FlowEnd(mapping)]) ==
           v.made + ([FlowStart(mapping)] + (kinds + [FlowEnd(mapping)]));
  }

  /** A node without block collections, on one line unless it is inside of a flow collection. */
  lemma {:induction false} FlatUnit(v: View, p: Page)
    requires IsFlat(p) && InFlow(p) && Ordered(PageInputs(p)) && Level(v, Outermost(p)) && Room(v, Height(p))
    requires Quiet(v, FirstOf(p).start, Allows(v, FirstOf(p)), LastStart(FirstOf(p).start, PageInputs(p)))
    ensures Scanned(v, PageInputs(p)).Some?
    ensures var w := Scanned(v, PageInputs(p)).value;
            Unit(v, w, FirstOf(p).start, Allows(v, FirstOf(p)), PageKinds(p),
                 LastStart(FirstOf(p).start, PageInputs(p)))
    decreases p, 1
  {
    hide Fetched, Scanned, Unit, Quiet, Allows, Stays, PageInputs, PageKinds, MainInputs, MainKinds, Ordered, Level,
         InFlow, Contents, Overdue, Staled;
    FlatInputs(p);
    var main := MainInputs(p);
    OrderedParts(p.props, main);
    var first, last, allow := FirstOf(p).start, LastStart(FirstOf(p).start, PageInputs(p)), Allows(v, FirstOf(p));
    if p.props == [] {
      assert p.props + main == main;
      assert Stays(v, MainFirst(p)) by { LevelFirst(v, Outermost(p)); }
      MainUnit(v, p);
      assert Contents(0) + MainKinds(p) == MainKinds(p) by { NoContents(); }
    } else {
      var m := p.props[|p.props| - 1].start;
      PropsOfFlat(v, p);
      UnitLast(p, main);
      QuietUpTo(v, first, allow, m, last);
      PropsUnit(v, p.props);
      var w := Scanned(v, p.props).value;
      ScannedJoined(v, p.props, main);
      if main == [] {
        assert p.props + main == p.props && Contents(|p.props|) + [] == Contents(|p.props|);
        ScannedNothing(w);
        assert MainKinds(p) == [] by { NoMain(p); }
      } else {
        QuietEnds(v, first, allow, last);
        QuietThen(v, w, first, allow, Contents(|p.props|), m, MainFirst(p).start, last);
        UnitLevel(v, w, first, allow, Contents(|p.props|), m);
        MainAfterProps(v, w, p);
        MainUnit(w, p);
        UnitThen(v, w, Scanned(w, main).value, first, allow, Contents(|p.props|), m, MainFirst(p).start, MainKinds(p),
                 last);
      }
    }
  }

  lemma {:induction false} UnitLevel(v: View, w: View, first: Mark, allow: bool, kinds: seq<Kind>, last: Mark)
    requires Unit(v, w, first, allow, kinds, last)
    ensures SameLevelOf(v, w)
  {
  }

  lemma {:induction false} ScannedNothing(v: View)
    ensures Scanned(v, []) == Some(v)
  {
  }

  lemma {:induction false} NoMain(p: Page)
    requires IsFlat(p) && MainInputs(p) == []
    ensures MainKinds(p) == []
  {
    hide PartsInputs;
  }

  lemma {:induction false} UnitLast(p: Page, main: seq<Input>)
    requires IsFlat(p) && p.props != [] && PageInputs(p) == p.props + main && Ordered(PageInputs(p))
    ensures var m := p.props[|p.props| - 1].start;
            && Later(m, LastStart(FirstOf(p).start, PageInputs(p)))
            && (main == [] ==> LastStart(FirstOf(p).start, PageInputs(p)) == m)
            && (main != [] ==> LastStart(FirstOf(p).start, PageInputs(p)) == main[|main| - 1].start)
  {
    hide PageInputs;
    var all := PageInputs(p);
    assert all[|p.props| - 1] == p.props[|p.props| - 1];
    if main == [] {
      assert all == p.props;
    } else {
      assert all[|all| - 1] == main[|main| - 1];
    }
  }

  lemma {:induction false} PropsOfFlat(v: View, p: Page)
    requires IsFlat(p) && InFlow(p) && Level(v, Outermost(p)) && p.props != []
    ensures PropsFit(p.props) && Level(v, p.props)
  {
    var all := Outermost(p);
    forall k | 0 <= k < |p.props|
      ensures all[k] == p.props[k]
    {
    }
  }

  lemma {:induction false} MainAfterProps(v: View, w: View, p: Page)
    requires IsFlat(p) && Level(v, Outermost(p)) && p.props != [] && (p.Flow? || p.at.Some?)
    requires !w.allowed && SameLevelOf(v, w)
    ensures Stays(w, MainFirst(p)) && !Allows(w, MainFirst(p))
  {
    assert Outermost(p)[|p.props|] == MainFirst(p);
  }

  predicate SameLevelOf(v: View, w: View) {
    w.flowLevel == v.flowLevel && w.indent == v.indent && w.indents == v.indents && w.limit == v.limit
  }

  /** A node in a flow collection. */
  lemma {:induction false} PageRead(e0: View, e: View, kinds: seq<Kind>, m: Mark, p: Page)
    requires InFlow(p) && Ahead(e0, e, kinds, m, PageInputs(p)) && Room(e, Height(p))
    ensures Got(e0, kinds + PageKinds(p), m, PageInputs(p), Scanned(e, PageInputs(p)))
    ensures !e.allowed && !TopPossible(e) ==> !TopPossible(Scanned(e, PageInputs(p)).value)
    ensures IsFlat(p) ==>
              Unit(e, Scanned(e, PageInputs(p)).value, FirstOf(p).start, e.allowed, PageKinds(p),
                   LastStart(m, PageInputs(p)))
    decreases p, 2
  {
    hide Scanned, Unit, Quiet, Allows, PageInputs, PageKinds, Ordered, Level, Overdue, Staled, Inner, InFlow;
    InnerKeys(e0, e, kinds, m);
    if p == Nothing {
      NothingRead(e);
      assert kinds + [] == kinds;
    } else {
      FlatOnly(p);
      FlatInputs(p);
      FlowIsLevel(e, p);
      var last := LastStart(m, PageInputs(p));
      assert Later(m, last);
      InnerQuiet(e0, e, kinds, m, FirstOf(p).start, e.allowed, last);
      FlatUnit(e, p);
      InnerUnit(e0, e, kinds, m, Scanned(e, PageInputs(p)).value, FirstOf(p).start, e.allowed, PageKinds(p), last);
      InnerKeys(e0, Scanned(e, PageInputs(p)).value, kinds + PageKinds(p), last);
    }
  }

  lemma {:induction false} NothingRead(e: View)
    ensures PageInputs(Nothing) == [] && PageKinds(Nothing) == [] && Scanned(e, []) == Some(e)
  {
  }

  lemma {:induction false} FlatOnly(p: Page)
    requires InFlow(p) && p != Nothing
    ensures IsFlat(p)
  {
  }

  lemma {:induction false} FlowIsLevel(e: View, p: Page)
    requires e.flowLevel > 0 && IsFlat(p)
    ensures Level(e, Outermost(p)) && Allows(e, FirstOf(p)) == e.allowed
  {
  }

  lemma {:induction false} PartsRead(e0: View, e: View, kinds: seq<Kind>, m: Mark, parts: seq<Part>, commas: seq<Input>)
    requires PartsInFlow(parts, commas) && Ahead(e0, e, kinds, m, PartsInputs(parts, commas)) && e.allowed
    requires Room(e, HeightOfParts(parts))
    ensures Got(e0, kinds + PartsKinds(parts, commas), m, PartsInputs(parts, commas),
                Scanned(e, PartsInputs(parts, commas)))
    decreases parts, 2
  {
    hide Scanned, Fetched, Inner, From, Overdue, Staled, PartInputs, PartKinds, PartInFlow, HeightOfPart;
    if parts == [] {
      ScannedNothing(e);
      assert kinds + [] == kinds;
    } else {
      var part := parts[0];
      var more := if commas == [] then [] else [commas[0]] + PartsInputs(parts[1..], commas[1..]);
      var moreKinds := if commas == [] then [] else [FlowEntry] + PartsKinds(parts[1..], commas[1..]);
      AheadFirst(e0, e, kinds, m, PartInputs(part), more);
      PartRead(e0, e, kinds, m, part);
      var r := Scanned(e, PartInputs(part));
      AheadThen(e0, e, kinds, m, PartInputs(part), more, r, PartKinds(part));
      ScannedJoined(e, PartInputs(part), more);
      RoomStays(e0, e, kinds, m, r.value, kinds + PartKinds(part), LastStart(m, PartInputs(part)),
                HeightOfParts(parts[1..]));
      if commas == [] {
        ScannedNothing(r.value);
        assert kinds + (PartKinds(part) + []) == kinds + PartKinds(part);
      } else {
        MorePartsRead(e0, r.value, kinds + PartKinds(part), LastStart(m, PartInputs(part)), parts, commas);
        assert kinds + PartKinds(part) + moreKinds == kinds + (PartKinds(part) + moreKinds);
      }
    }
  }

  lemma {:induction false} RoomStays(e0: View, e: View, k: seq<Kind>, m: Mark, w: View, l: seq<Kind>, n: Mark,
                                     height: nat)
    requires Inner(e0, e, k, m) && Inner(e0, w, l, n) && Room(e, height)
    ensures Room(w, height)
  {
  }

  lemma {:induction false} MorePartsRead(e0: View, e: View, kinds: seq<Kind>, m: Mark, parts: seq<Part>,
                                         commas: seq<Input>)
    requires parts != [] && commas != [] && PartsInFlow(parts, commas) && Room(e, HeightOfParts(parts[1..]))
    requires Ahead(e0, e, kinds, m, [commas[0]] + PartsInputs(parts[1..], commas[1..]))
    ensures Got(e0, kinds + ([FlowEntry] + PartsKinds(parts[1..], commas[1..])), m,
                [commas[0]] + PartsInputs(parts[1..], commas[1..]),
                Scanned(e, [commas[0]] + PartsInputs(parts[1..], commas[1..])))
    decreases parts, 1
  {
    hide Scanned, Fetched, Inner, From, Overdue, Staled, PartsInputs, PartsKinds, PartInFlow, HeightOfParts;
    var rest, restKinds := PartsInputs(parts[1..], commas[1..]), PartsKinds(parts[1..], commas[1..]);
    AheadFirst(e0, e, kinds, m, [commas[0]], rest);
    CommaRead(e0, e, kinds, m, commas[0]);
    var r := Fetched(e, commas[0]);
    AheadThen(e0, e, kinds, m, [commas[0]], rest, r, [FlowEntry]);
    RoomStays(e0, e, kinds, m, r.value, kinds + [FlowEntry], LastStart(m, [commas[0]]), HeightOfParts(parts[1..]));
    PartsRead(e0, r.value, kinds + [FlowEntry], LastStart(m, [commas[0]]), parts[1..], commas[1..]);
    ScannedCons(e, commas[0], rest);
    assert kinds + [FlowEntry] + restKinds == kinds + ([FlowEntry] + restKinds);
  }

  lemma {:induction false} PartRead(e0: View, e: View, kinds: seq<Kind>, m: Mark, part: Part)
    requires PartInFlow(part) && Ahead(e0, e, kinds, m, PartInputs(part)) && e.allowed && Room(e, HeightOfPart(part))
    ensures Got(e0, kinds + PartKinds(part), m, PartInputs(part), Scanned(e, PartInputs(part)))
    decreases part, 1
  {
    hide Scanned, Fetched, Inner, From, Overdue, Staled, PageInputs, PageKinds, InFlow, Height;
    match part
    case One(page) => PageRead(e0, e, kinds, m, page);
    case Simple(_, _, _) => SimpleRead(e0, e, kinds, m, part);
    case Explicit(_, _, _, _) => ExplicitRead(e0, e, kinds, m, part);
  }

  lemma {:induction false} SimpleRead(e0: View, e: View, kinds: seq<Kind>, m: Mark, part: Part)
    requires part.Simple? && PartInFlow(part) && Ahead(e0, e, kinds, m, PartInputs(part)) && e.allowed
    requires Room(e, HeightOfPart(part))
    ensures Got(e0, kinds + PartKinds(part), m, PartInputs(part), Scanned(e, PartInputs(part)))
    decreases part, 0
  {
    hide Scanned, Fetched, Inner, From, Overdue, Staled, PageInputs, PageKinds, InFlow, Height, Unit, Near;
    var key, colon, value := part.key, part.colon, part.value;
    var a, b := PageInputs(key), PageInputs(value);
    var k, l := PageKinds(key), PageKinds(value);
    AheadFirst(e0, e, kinds, m, a, [colon] + b);
    PageRead(e0, e, kinds, m, key);
    var r := Scanned(e, a);
    AheadThen(e0, e, kinds, m, a, [colon] + b, r, k);
    var m1 := LastStart(m, a);
    AheadFirst(e0, r.value, kinds + k, m1, [colon], b);
    FromFirst(m1, colon);
    KeyIsTop(e0, e, kinds, r.value, FirstOf(key), k, m1, colon, m);
    ColonFinds(e0, r.value, kinds + k, m1, colon, kinds, k);
    var s := Fetched(r.value, colon);
    var found := [Key] + (k + [Value]);
    AheadAt(e0, r.value, kinds + k, m1, colon, b, s, kinds + found);
    RoomStays(e0, e, kinds, m, s.value, kinds + found, colon.start, Height(value));
    PageRead(e0, s.value, kinds + found, colon.start, value);
    ScannedJoined(e, a, [colon] + b);
    ScannedCons(r.value, colon, b);
    assert kinds + found + l == kinds + ([Key] + (k + ([Value] + l)));
  }

  lemma {:induction false} FromFirst(m: Mark, input: Input)
    requires From(m, [input])
    ensures Later(m, input.start)
  {
    assert [input][0] == input;
  }

  /** The key of the level, right before its colon. */
  lemma {:induction false} KeyIsTop(e0: View, e: View, kinds: seq<Kind>, w: View, first: Input, key: seq<Kind>,
                                    last: Mark, colon: Input, m: Mark)
    requires Inner(e0, e, kinds, m) && Unit(e, w, first.start, true, key, last) && Near(first, colon)
    requires Later(last, colon.start) && Inner(e0, w, kinds + key, last)
    ensures TopPossible(w) && TopOf(w.keys).number == |e0.made + kinds| && !IsStale(TopOf(w.keys), colon.start)
  {
    hide Staled;
    StaledTop(KeysFrom(e, first.start, true), last);
    assert TopOf(KeysFrom(e, first.start, true)) == NewKey(e, first.start);
  }

  lemma {:induction false} AheadAt(e0: View, e: View, kinds: seq<Kind>, m: Mark, input: Input, rest: seq<Input>,
                                   r: Option<View>, more: seq<Kind>)
    requires Ahead(e0, e, kinds, m, [input] + rest) && Got(e0, more, m, [input], r)
    ensures Ahead(e0, r.value, more, input.start, rest) && Inner(e0, r.value, more, input.start)
    ensures LastStart(m, [input] + rest) == LastStart(input.start, rest)
  {
    hide Overdue, Staled, Inner, Ordered;
    FromSplit(m, [input], rest);
    InnerKeys(e0, e, kinds, m);
  }

  lemma {:induction false} ExplicitRead(e0: View, e: View, kinds: seq<Kind>, m: Mark, part: Part)
    requires part.Explicit? && PartInFlow(part) && Ahead(e0, e, kinds, m, PartInputs(part))
    requires Room(e, HeightOfPart(part))
    ensures Got(e0, kinds + PartKinds(part), m, PartInputs(part), Scanned(e, PartInputs(part)))
    decreases part, 0
  {
    hide Scanned, Fetched, Inner, From, Overdue, Staled, PageInputs, PageKinds, InFlow, Height, Unit, ValueInputs,
         ValueKinds;
    var question, key, colon, value := part.question, part.key, part.mark, part.value;
    var a, b := PageInputs(key), ValueInputs(colon, value);
    var k, l := PageKinds(key), ValueKinds(colon, value);
    AheadFirst(e0, e, kinds, m, [question], a + b);
    QuestionRead(e0, e, kinds, m, question);
    var q := Fetched(e, question);
    AheadAt(e0, e, kinds, m, question, a + b, q, kinds + [Key]);
    RoomStays(e0, e, kinds, m, q.value, kinds + [Key], question.start, Height(key));
    AheadFirst(e0, q.value, kinds + [Key], question.start, a, b);
    PageRead(e0, q.value, kinds + [Key], question.start, key);
    var r := Scanned(q.value, a);
    AheadThen(e0, q.value, kinds + [Key], question.start, a, b, r, k);
    var n := LastStart(question.start, a);
    RoomStays(e0, e, kinds, m, r.value, kinds + [Key] + k, n, Height(value));
    ValueRead(e0, r.value, kinds + [Key] + k, n, colon, value);
    ScannedCons(e, question, a + b);
    ScannedJoined(q.value, a, b);
    assert kinds + [Key] + k + l == kinds + ([Key] + (k + l));
  }

  lemma {:induction false} ValueRead(e0: View, e: View, kinds: seq<Kind>, m: Mark, colon: Option<Input>, value: Page)
    requires colon.Some? ==> colon.value.lexeme == Colon && InFlow(value)
    requires Ahead(e0, e, kinds, m, ValueInputs(colon, value)) && !TopPossible(e) && Room(e, Height(value))
    ensures Got(e0, kinds + ValueKinds(colon, value), m, ValueInputs(colon, value),
                Scanned(e, ValueInputs(colon, value)))
    decreases value, 3
  {
    hide Scanned, Fetched, Inner, From, Overdue, Staled, PageInputs, PageKinds, InFlow, Height, Unit;
    if colon.None? {
      ScannedNothing(e);
      assert kinds + [] == kinds;
    } else {
      var c, b, l := colon.value, PageInputs(value), PageKinds(value);
      AheadFirst(e0, e, kinds, m, [c], b);
      ColonRead(e0, e, kinds, m, c);
      var s := Fetched(e, c);
      AheadAt(e0, e, kinds, m, c, b, s, kinds + [Value]);
      RoomStays(e0, e, kinds, m, s.value, kinds + [Value], c.start, Height(value));
      PageRead(e0, s.value, kinds + [Value], c.start, value);
      ScannedCons(e, c, b);
      assert kinds + [Value] + l == kinds + ([Value] + l);
    }
  }
}
