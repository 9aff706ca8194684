/**
 The token queue of `scanner.c`: tokens are appended, taken by the parser, and, where a simple key turns out to
 be one, inserted before tokens that are queued already.
 */
module Scanner {
  import opened Wrappers
  import opened Queue
  import opened ScannerMoves
  import opened Layout
  import opened FlatPages
  import opened PageScan
  import ScanOrder

  /**
   A possible key names a token that is queued, keys of inner levels name later tokens, and each still names the
   token it was saved for: tokens are numbered as they are made, and a key saved just now is for the next one.
   */
  predicate KeysOk(keys: seq<SimpleKey>, saved: seq<nat>, parsed: nat, ids: seq<nat>, next: nat, ahead: nat) {
    && |saved| == |keys|
    && (forall i :: 0 <= i < |keys| && keys[i].possible ==> KeyOk(keys[i], saved[i], parsed, ids, next, ahead))
    && (forall i, j :: 0 <= i < j < |keys| && keys[i].possible && keys[j].possible ==> keys[i].number < keys[j].number)
  }

  predicate KeyOk(key: SimpleKey, saved: nat, parsed: nat, ids: seq<nat>, next: nat, ahead: nat) {
    && parsed <= key.number < |ids| + ahead
    && saved == if key.number < |ids| then ids[key.number] else next
  }

  /** Some of the keys are no longer possible; nothing else has changed. */
  predicate Fewer(keys: seq<SimpleKey>, less: seq<SimpleKey>) {
    |less| == |keys| && forall i :: 0 <= i < |keys| ==> less[i] == keys[i] || less[i] == keys[i].(possible := false)
  }

  lemma {:induction false} FewerKeysOk(keys: seq<SimpleKey>, less: seq<SimpleKey>, saved: seq<nat>, parsed: nat,
                                       ids: seq<nat>, next: nat, ahead: nat)
    requires KeysOk(keys, saved, parsed, ids, next, ahead) && Fewer(keys, less)
    ensures KeysOk(less, saved, parsed, ids, next, ahead)
  {
  }

  /** A token is appended: a key saved just now names it. */
  lemma {:induction false} KeysAfterAppend(keys: seq<SimpleKey>, saved: seq<nat>, parsed: nat, ids: seq<nat>, next: nat,
                                           ahead: nat)
    requires KeysOk(keys, saved, parsed, ids, next, ahead) && ahead <= 1
    ensures KeysOk(keys, saved, parsed, ids + [next], next + 1, 0)
  {
  }

  /** A token is inserted behind all that possible keys name. */
  lemma {:induction false} KeysAfterInsert(keys: seq<SimpleKey>, saved: seq<nat>, parsed: nat, ids: seq<nat>, next: nat,
                                           at: nat)
    requires KeysOk(keys, saved, parsed, ids, next, 0) && at <= |ids|
    requires forall i :: 0 <= i < |keys| && keys[i].possible ==> keys[i].number < at
    ensures KeysOk(keys, saved, parsed, ids[..at] + [next] + ids[at..], next + 1, 0)
  {
    var more := ids[..at] + [next] + ids[at..];
    assert forall k :: 0 <= k < at ==> more[k] == ids[k];
  }

  /** The innermost key is saved for the next token. */
  lemma {:induction false} KeysAfterSave(keys: seq<SimpleKey>, saved: seq<nat>, parsed: nat, ids: seq<nat>, next: nat,
                                         key: SimpleKey)
    requires KeysOk(keys, saved, parsed, ids, next, 0) && keys != [] && key.number == |ids| && parsed <= |ids|
    ensures KeysOk(keys[|keys| - 1 := key], saved[|keys| - 1 := next], parsed, ids, next, 1)
  {
  }

  lemma {:induction false} KeysAfterPush(keys: seq<SimpleKey>, saved: seq<nat>, parsed: nat, ids: seq<nat>, next: nat,
                                         ahead: nat)
    requires KeysOk(keys, saved, parsed, ids, next, ahead)
    ensures KeysOk(keys + [NO_KEY], saved + [0], parsed, ids, next, ahead)
  {
  }

  lemma {:induction false} KeysAfterPop(keys: seq<SimpleKey>, saved: seq<nat>, parsed: nat, ids: seq<nat>, next: nat,
                                        ahead: nat)
    requires KeysOk(keys, saved, parsed, ids, next, ahead) && keys != []
    ensures |saved| == |keys| && KeysOk(keys[..|keys| - 1], saved[..|keys| - 1], parsed, ids, next, ahead)
  {
  }

  /** The parser takes a token that no possible key names. */
  lemma {:induction false} KeysAfterTake(keys: seq<SimpleKey>, saved: seq<nat>, parsed: nat, ids: seq<nat>, next: nat)
    requires KeysOk(keys, saved, parsed, ids, next, 0)
    requires forall i :: 0 <= i < |keys| && keys[i].possible ==> keys[i].number != parsed
    ensures KeysOk(keys, saved, parsed + 1, ids, next, 0)
  {
  }

  /** The levels of indentation that are open: each deeper than the one around it, the outermost being none. */
  predicate IndentsOk(indents: seq<int>, indent: int) {
    && (indents == [] ==> indent == -1)
    && (indents != [] ==> indents[0] == -1 && indents[|indents| - 1] < indent)
    && forall i, j :: 0 <= i < j < |indents| ==> indents[i] < indents[j]
  }

  /** How many block collections are open after the tokens. */
  function Open(tokens: seq<Kind>): int {
    if tokens == [] then 0
    else
      Open(tokens[..|tokens| - 1]) + Weight(tokens[|tokens| - 1])
  }

  function Weight(token: Kind): int {
    if token.BlockSequenceStart? || token.BlockMappingStart? then 1 else if token.BlockEnd? then -1 else 0
  }

  lemma {:induction false} OpenConcat(a: seq<Kind>, b: seq<Kind>)
    ensures Open(a + b) == Open(a) + Open(b)
    decreases |b|
  {
    if b == [] {
      assert a + b == a;
    } else {
      OpenConcat(a, b[..|b| - 1]);
      assert (a + b)[..|a + b| - 1] == a + b[..|b| - 1];
    }
  }

  lemma {:induction false} OpenOne(token: Kind)
    ensures Open([token]) == Weight(token)
  {
    assert [token][..0] == [];
  }

  lemma {:induction false} OpenInsert(a: seq<Kind>, token: Kind, b: seq<Kind>)
    ensures Open(a + [token] + b) == Open(a + b) + Weight(token)
  {
    hide Weight;
    OpenConcat(a, [token]);
    OpenConcat(a + [token], b);
    OpenConcat(a, b);
    OpenOne(token);
  }

  /** No block collection is ended that was not begun. */
  predicate Nested(tokens: seq<Kind>) {
    forall k :: 0 <= k <= |tokens| ==> Open(tokens[..k]) >= 0
  }

  lemma {:induction false} NestedInsert(a: seq<Kind>, token: Kind, b: seq<Kind>)
    requires Nested(a + b)
    requires Weight(token) >= 0 || (b == [] && Open(a) + Weight(token) >= 0)
    ensures Nested(a + [token] + b)
  {
    hide Open, Weight;
    var all := a + [token] + b;
    forall k | 0 <= k <= |all|
      ensures Open(all[..k]) >= 0
    {
      if k <= |a| {
        assert all[..k] == (a + b)[..k];
      } else {
        var rest := b[..k - |a| - 1];
        assert all[..k] == a + [token] + rest;
        OpenInsert(a, token, rest);
        assert a + rest == (a + b)[..k - 1];
        assert b == [] ==> a + rest == a;
      }
    }
  }

  /** The state is what reading the lexemes in one go leads to, but that stale keys may be gone already. */
  ghost predicate FaithfulTo(limit: int, read: seq<Input>, v: View) {
    if !v.started then read == [] && v == Start(limit)
    else
      var w := Scanned(StreamStarted(Start(limit)), read);
      w.Some? && Tidied(w.value, v)
  }

  lemma {:induction false} StreamIsStarted(limit: int)
    ensures FaithfulTo(limit, [], StreamStarted(Start(limit))) && StreamStarted(Start(limit)).mark == Start(limit).mark
  {
  }

  lemma {:induction false} NotStarted(limit: int)
    ensures FaithfulTo(limit, [], Start(limit))
  {
  }

  lemma {:induction false} StillFaithful(limit: int, read: seq<Input>, v: View, w: View)
    requires FaithfulTo(limit, read, v) && Tidied(v, w)
    ensures FaithfulTo(limit, read, w)
  {
    hide Scanned;
    if v.started {
      TidiedTwice(Scanned(StreamStarted(Start(limit)), read).value, v, w);
    }
  }

  lemma {:induction false} ForwardOne(mark: Mark, inputs: seq<Input>)
    requires inputs != [] && Forward(mark, inputs)
    ensures Later(mark, inputs[0].start) && Forward(MarkAfter(inputs[0]), inputs[1..])
  {
  }

  /** Where a key is missed, nothing more can be read. */
  lemma {:induction false} OverdueEnds(limit: int, read: seq<Input>, v: View, rest: seq<Input>, taken: seq<Kind>)
    requires FaithfulTo(limit, read, v) && Overdue(v.keys, v.mark) && Forward(v.mark, rest) && taken <= v.made
    ensures CannotGoOn(StreamStarted(Start(limit)), read, rest, taken)
  {
    hide Scanned, Fetched, StreamStarted, Tidied;
    var start := StreamStarted(Start(limit));
    TidiedPossible(Scanned(start, read).value, v);
    if rest != [] {
      ForwardOne(v.mark, rest);
      OverdueStays(v, rest[0]);
      var w := Scanned(start, read).value;
      TidiedMark(w, v);
      FetchedSame(w, v, rest[0]);
      ScannedMore(start, read, rest[0]);
    }
  }

  lemma {:induction false} NothingLeft(limit: int, read: seq<Input>, v: View, taken: seq<Kind>)
    requires FaithfulTo(limit, read, v) && v.started && taken <= v.made && Waits(v, |taken|)
    ensures CannotGoOn(StreamStarted(Start(limit)), read, [], taken)
  {
    hide Scanned, StreamStarted, Tidied;
    TidiedPossible(Scanned(StreamStarted(Start(limit)), read).value, v);
  }

  /** What is read of the inputs is read from their beginning. */
  ghost predicate ReadUpTo(inputs: seq<Input>, rest: seq<Input>, before: seq<Input>, read: seq<Input>) {
    |rest| <= |inputs| && rest == inputs[|inputs| - |rest|..] && read == before + inputs[..|inputs| - |rest|]
  }

  lemma {:induction false} ReadOneMore(inputs: seq<Input>, rest: seq<Input>, before: seq<Input>, read: seq<Input>)
    requires rest != [] && ReadUpTo(inputs, rest, before, read)
    ensures ReadUpTo(inputs, rest[1..], before, read + [rest[0]])
  {
    var n := |inputs| - |rest|;
    assert inputs[..n + 1] == inputs[..n] + [rest[0]];
  }

  lemma {:induction false} ReadNone(inputs: seq<Input>, before: seq<Input>)
    ensures ReadUpTo(inputs, inputs, before, before) && before + [] == before
  {
    assert inputs[0..] == inputs && inputs[..0] == [];
  }

  /** What is read of a part is read of the whole. */
  lemma {:induction false} ReadOn(inputs: seq<Input>, rest: seq<Input>, later: seq<Input>, before: seq<Input>,
                                  read: seq<Input>, more: seq<Input>)
    requires ReadUpTo(inputs, rest, before, read) && ReadUpTo(rest, later, read, more)
    ensures ReadUpTo(inputs, later, before, more)
  {
    var n, k := |inputs| - |rest|, |rest| - |later|;
    assert rest[..k] == inputs[n..n + k];
    assert inputs[..n + k] == inputs[..n] + inputs[n..n + k];
  }

  class Scanner {
    const limit: int
    const tokens: Queue<Kind>
    var started: bool
    var keys: seq<SimpleKey>
    var allowed: bool
    var flowLevel: nat
    var indents: seq<int>
    var indent: int
    var parsed: nat
    var mark: Mark
    /** The tokens that the parser has taken. */
    ghost var delivered: seq<Kind>
    /** The numbers of the tokens made so far, in their order, and of those the keys were saved for. */
    ghost var ids: seq<nat>
    ghost var next: nat
    ghost var saved: seq<nat>
    /** The lexemes read so far. */
    ghost var read: seq<Input>

    /** All tokens made so far. */
    ghost function All(): seq<Kind>
      requires tokens.Valid()
      reads this`delivered, tokens, tokens.buf
    {
      delivered + tokens.Contents()
    }

    /** The state of the scanner. */
    ghost function Now(): View
      requires tokens.Valid()
      reads this, tokens, tokens.buf
    {
      View(limit, started, All(), keys, allowed, flowLevel, indents, indent, mark)
    }

    ghost predicate Faithful()
      reads this, tokens, tokens.buf
    {
      tokens.Valid() && FaithfulTo(limit, read, Now())
    }

    /** It went on as it had to, or failed where it had to. */
    ghost predicate Did(m: Option<View>, ok: bool)
      reads this, tokens, tokens.buf
    {
      ok == m.Some? && (ok ==> tokens.Valid() && Now() == m.value)
    }

    /** What always holds, but that a key may have been saved for a token that is still to be made. */
    ghost predicate Half(ahead: nat)
      reads this`started, this`keys, this`flowLevel, this`indents, this`indent, this`parsed, this`delivered,
            this`ids, this`next, this`saved, tokens, tokens.buf
    {
      && tokens.Valid() && |delivered| == parsed && |ids| == |All()|
      && (started ==> |keys| == flowLevel + 1)
      && (!started ==> keys == [] && flowLevel == 0 && indents == [] && All() == [])
      && KeysOk(keys, saved, parsed, ids, next, ahead)
      && IndentsOk(indents, indent)
      && Open(All()) == |indents| && Nested(All())
    }

    /** Every possible key names a queued token, and the block collections open in the tokens are the open levels. */
    ghost predicate Inv()
      reads this`started, this`keys, this`flowLevel, this`indents, this`indent, this`parsed, this`delivered,
            this`ids, this`next, this`saved, tokens, tokens.buf
    {
      Half(0)
    }

    constructor (limit: int)
      ensures Inv() && fresh(tokens) && fresh(tokens.buf) && delivered == [] && tokens.Contents() == []
      ensures !started && ids == [] && indents == [] && parsed == 0 && Now() == Start(limit) && read == []
    {
      this.limit := limit;
      tokens := new Queue<Kind>(16);
      started, keys, allowed, flowLevel, indents, indent, parsed, mark := false, [], false, 0, [], -1, 0, Mark(0, 0, 0);
      delivered, ids, next, saved, read := [], [], 0, [], [];
      new;
      assert [] + tokens.Contents() == [];
    }

    /** Appends a token that opens and closes no block collection; a key saved just now names it. */
    method Append(token: Kind)
      requires Half(1) && started && Weight(token) == 0
      modifies this`ids, this`next, tokens, tokens.buf
      ensures Inv() && tokens.Valid() && tokens.Contents() == old(tokens.Contents()) + [token]
      ensures |ids| == |old(ids)| + 1
      ensures tokens.buf == old(tokens.buf) || fresh(tokens.buf)
      ensures Now() == Made(old(Now()), token)
    {
      hide Open, KeysOk, IndentsOk, Weight, Nested;
      AppendWeighs(delivered, tokens.Contents(), token);
      KeysAfterAppend(keys, saved, parsed, ids, next, 1);
      assert delivered + (tokens.Contents() + [token]) == delivered + tokens.Contents() + [token];
      tokens.Enqueue(token);
      ids, next := ids + [next], next + 1;
    }

    /** `yaml_parser_stale_simple_keys` */
    method StaleSimpleKeys() returns (ok: bool)
      modifies this`keys
      ensures Fewer(old(keys), keys)
      ensures ok <==> !Overdue(old(keys), mark)
      ensures ok ==> keys == Staled(old(keys), mark)
    {
      var i := 0;
      while i < |keys|
        invariant 0 <= i <= |keys| && Fewer(old(keys), keys)
        invariant forall j :: 0 <= j < i ==>
                    keys[j] == Fresher(old(keys)[j], mark) && !(IsStale(old(keys)[j], mark) && old(keys)[j].required)
        invariant forall j :: i <= j < |keys| ==> keys[j] == old(keys)[j]
      {
        var key := keys[i];
        if key.possible && (key.mark.line < mark.line || key.mark.index + 1024 < mark.index) {
          if key.required {
            return false;
          }
          keys := keys[i := key.(possible := false)];
        }
        i := i + 1;
      }
      ok := true;
    }

    /** `yaml_parser_remove_simple_key` */
    method RemoveSimpleKey() returns (ok: bool)
      requires keys != []
      modifies this`keys
      ensures |keys| == |old(keys)| && Fewer(old(keys), keys)
      ensures ok == !(old(keys)[|keys| - 1].possible && old(keys)[|keys| - 1].required)
      ensures ok ==> keys == Impossible(old(keys))
    {
      var top := |keys| - 1;
      if keys[top].possible && keys[top].required {
        return false;
      }
      keys := keys[top := keys[top].(possible := false)];
      ok := true;
    }

    /** `yaml_parser_save_simple_key` */
    method SaveSimpleKey() returns (ok: bool)
      requires Inv() && started
      modifies this`keys, this`saved
      ensures ok ==> Half(1)
      ensures Did(KeySaved(old(Now())), ok)
    {
      hide Open, IndentsOk, Nested;
      var required := flowLevel == 0 && indent == mark.column;
      ok := true;
      if allowed {
        var key := SimpleKey(true, required, parsed + tokens.Length(), mark);
        ghost var was := keys;
        ok := RemoveSimpleKey();
        FewerKeysOk(was, keys, saved, parsed, ids, next, 0);
        KeysAfterSave(keys, saved, parsed, ids, next, key);
        keys := keys[|keys| - 1 := key];
        saved := saved[|keys| - 1 := next];
      } else {
        StillHalf();
      }
    }

    lemma {:induction false} StillHalf()
      requires Inv()
      ensures Half(1)
    {
      hide Open, IndentsOk, Nested;
    }

    /** `yaml_parser_increase_flow_level` */
    method IncreaseFlowLevel() returns (ok: bool)
      requires Half(1) && started
      modifies this`keys, this`saved, this`flowLevel
      ensures ok == (|indents| < limit - old(flowLevel))
      ensures ok ==> Half(1) && flowLevel == old(flowLevel) + 1 && keys == old(keys) + [NO_KEY]
    {
      hide Open, IndentsOk, KeysOk, Nested;
      if |indents| >= limit - flowLevel {
        return false;
      }
      ok := true;
      KeysAfterPush(keys, saved, parsed, ids, next, 1);
      keys, saved, flowLevel := keys + [NO_KEY], saved + [0], flowLevel + 1;
    }

    /** `yaml_parser_decrease_flow_level` */
    method DecreaseFlowLevel()
      requires Inv() && started
      modifies this`keys, this`saved, this`flowLevel
      ensures Inv()
      ensures if old(flowLevel) == 0 then flowLevel == 0 && keys == old(keys)
              else flowLevel == old(flowLevel) - 1 && |old(keys)| > 0 && keys == old(keys)[..|old(keys)| - 1]
    {
      hide Open, IndentsOk, KeysOk, Nested;
      if flowLevel > 0 {
        KeysAfterPop(keys, saved, parsed, ids, next, 0);
        keys, saved, flowLevel := keys[..|keys| - 1], saved[..|keys| - 1], flowLevel - 1;
      }
    }

    /** The token that `yaml_parser_roll_indent` makes when a deeper level begins, at a place if one is given. */
    method BeginLevel(column: nat, number: Option<nat>, token: Kind)
      requires Inv() && indent < column && Weight(token) == 1 && started
      requires number.Some? ==> parsed <= number.value <= parsed + |tokens.Contents()|
      requires number.Some? ==> forall i :: 0 <= i < |keys| && keys[i].possible ==> keys[i].number < number.value
      modifies this`indents, this`indent, this`ids, this`next, tokens, tokens.buf
      ensures Inv() && indent == column && |ids| + |indents| == |old(ids)| + |old(indents)| + 2
      ensures tokens.Valid()
      ensures Now() == old(Now()).(indents := old(indents) + [old(indent)], indent := column,
                                   made := Inserted(old(All()), if number.Some? then number.value else |old(All())|,
                                                    token))
      ensures tokens.buf == old(tokens.buf) || fresh(tokens.buf)
    {
      hide Half, Weight, Inserted;
      if number.None? {
        AppendLevel(column, token);
      } else {
        InsertLevel(column, number.value, token);
      }
    }

    method AppendLevel(column: nat, token: Kind)
      requires Inv() && indent < column && Weight(token) == 1 && started
      modifies this`indents, this`indent, this`ids, this`next, tokens, tokens.buf
      ensures Inv() && indent == column && |ids| + |indents| == |old(ids)| + |old(indents)| + 2
      ensures tokens.Valid()
      ensures Now() == old(Now()).(indents := old(indents) + [old(indent)], indent := column,
                                   made := Inserted(old(All()), |old(All())|, token))
      ensures tokens.buf == old(tokens.buf) || fresh(tokens.buf)
    {
      hide Open, KeysOk, Weight, Nested;
      Spliced(delivered, tokens.Contents(), |tokens.Contents()|, token);
      AppendWeighs(delivered, tokens.Contents(), token);
      KeysAfterAppend(keys, saved, parsed, ids, next, 0);
      tokens.Enqueue(token);
      ids, next := ids + [next], next + 1;
      indents, indent := indents + [indent], column;
    }

    method InsertLevel(column: nat, number: nat, token: Kind)
      requires Inv() && indent < column && Weight(token) == 1 && started
      requires parsed <= number <= parsed + |tokens.Contents()|
      requires forall i :: 0 <= i < |keys| && keys[i].possible ==> keys[i].number < number
      modifies this`indents, this`indent, this`ids, this`next, tokens, tokens.buf
      ensures Inv() && indent == column && |ids| + |indents| == |old(ids)| + |old(indents)| + 2
      ensures tokens.Valid()
      ensures Now() == old(Now()).(indents := old(indents) + [old(indent)], indent := column,
                                   made := Inserted(old(All()), number, token))
      ensures tokens.buf == old(tokens.buf) || fresh(tokens.buf)
    {
      hide Open, KeysOk, Weight, Nested;
      Spliced(delivered, tokens.Contents(), number - parsed, token);
      InsertWeighs(delivered, tokens.Contents(), number - parsed, token);
      KeysAfterInsert(keys, saved, parsed, ids, next, number);
      tokens.Insert(number - parsed, token);
      ids, next := ids[..number] + [next] + ids[number..], next + 1;
      indents, indent := indents + [indent], column;
    }

    /** `yaml_parser_roll_indent` */
    method RollIndent(column: nat, number: Option<nat>, token: Kind) returns (ok: bool)
      requires Inv() && Weight(token) == 1 && started
      requires number.Some? ==> parsed <= number.value <= parsed + |tokens.Contents()|
      requires number.Some? ==> forall i :: 0 <= i < |keys| && keys[i].possible ==> keys[i].number < number.value
      modifies this`indents, this`indent, this`ids, this`next, tokens, tokens.buf
      ensures ok ==> Inv() && |ids| + |indents| <= |old(ids)| + |old(indents)| + 2
      ensures tokens.buf == old(tokens.buf) || fresh(tokens.buf)
      ensures Did(Rolled(old(Now()), column, number, token), ok)
    {
      hide Half, Weight, Inserted;
      HalfIsValid(0);
      ok := true;
      if flowLevel == 0 && indent < column {
        if |indents| + 1 >= limit {
          return false;
        }
        BeginLevel(column, number, token);
      }
    }

    lemma {:induction false} HalfIsValid(ahead: nat)
      requires Half(ahead)
      ensures tokens.Valid() && |delivered| == parsed && (tokens.Contents() != [] ==> started)
    {
    }

    /** `yaml_parser_unroll_indent` */
    method UnrollIndent(column: int)
      requires Inv() && column >= -1
      modifies this`indents, this`indent, this`ids, this`next, tokens, tokens.buf
      ensures Inv() && (flowLevel == 0 ==> indent <= column) && (column == -1 && flowLevel == 0 ==> indents == [])
      ensures tokens.Valid() && |ids| + |indents| == |old(ids)| + |old(indents)|
      ensures tokens.buf == old(tokens.buf) || fresh(tokens.buf)
      ensures Now() == Unrolled(old(Now()), column)
    {
      hide Half;
      HalfIsValid(0);
      LevelsThere();
      if flowLevel > 0 {
        return;
      }
      while indent > column
        invariant Inv() && tokens.Valid() && (tokens.buf == old(tokens.buf) || fresh(tokens.buf))
        invariant |ids| + |indents| == |old(ids)| + |old(indents)|
        invariant Unrolled(Now(), column) == Unrolled(old(Now()), column)
        decreases |indents|
      {
        LevelsThere();
        EndLevel();
      }
      LevelsThere();
    }

    lemma {:induction false} LevelsThere()
      requires Inv()
      ensures indents == [] <==> indent == -1
      ensures indent >= -1
    {
      hide Open, KeysOk, Nested;
    }

    /** Ends the innermost level of indentation. */
    method EndLevel()
      requires Inv() && tokens.Valid() && indents != []
      modifies this`indents, this`indent, this`ids, this`next, tokens, tokens.buf
      ensures Inv() && tokens.Valid() && |ids| + |indents| == |old(ids)| + |old(indents)|
      ensures tokens.buf == old(tokens.buf) || fresh(tokens.buf)
      ensures Now() == Made(old(Now()), BlockEnd).(indents := old(indents)[..|old(indents)| - 1],
                                                   indent := old(indents)[|old(indents)| - 1])
    {
      hide Open, KeysOk, Weight, Nested;
      assert delivered + (tokens.Contents() + [BlockEnd]) == delivered + tokens.Contents() + [BlockEnd];
      BlockEndWeighs();
      AppendWeighs(delivered, tokens.Contents(), BlockEnd);
      KeysAfterAppend(keys, saved, parsed, ids, next, 0);
      tokens.Enqueue(BlockEnd);
      ids, next := ids + [next], next + 1;
      indents, indent := indents[..|indents| - 1], indents[|indents| - 1];
    }

    /** Some keys are no longer possible. */
    lemma {:induction false} FewerIsHalf(was: seq<SimpleKey>)
      requires tokens.Valid() && |delivered| == parsed && |ids| == |All()| && started && |keys| == flowLevel + 1
      requires KeysOk(was, saved, parsed, ids, next, 0) && Fewer(was, keys)
      requires IndentsOk(indents, indent) && Open(All()) == |indents| && Nested(All())
      ensures Inv()
    {
      hide Open, IndentsOk, KeysOk, Nested;
      FewerKeysOk(was, keys, saved, parsed, ids, next, 0);
    }

    /** Removes the key of the level that is open, if that is allowed. */
    method Forget() returns (ok: bool)
      requires Inv() && started
      modifies this`keys
      ensures Inv()
      ensures Did(KeyRemoved(old(Now())), ok)
    {
      hide Open, KeysOk, IndentsOk, Weight, Nested;
      ghost var was := keys;
      ok := RemoveSimpleKey();
      FewerIsHalf(was);
    }

    /** A token that starts no key. */
    method Finish(token: Kind, allow: bool) returns (ok: bool)
      requires Inv() && started && tokens.Valid() && Weight(token) == 0
      modifies this`keys, this`allowed, this`ids, this`next, tokens, tokens.buf
      ensures Inv() && (ok ==> |ids| == |old(ids)| + 1)
      ensures tokens.buf == old(tokens.buf) || fresh(tokens.buf)
      ensures Did(Finished(old(Now()), allow, token), ok)
    {
      hide Half, Weight, KeyRemoved;
      ok := Forget();
      if ok {
        allowed := allow;
        StillHalf();
        Append(token);
      }
    }

    /** `yaml_parser_fetch_stream_start` */
    method FetchStreamStart() returns (ok: bool)
      requires Inv() && !started
      modifies this, tokens, tokens.buf
      ensures ok && Inv() && started
      ensures tokens.buf == old(tokens.buf) || fresh(tokens.buf)
      ensures parsed == old(parsed) && delivered == old(delivered) && read == old(read)
      ensures ok ==> |ids| + |indents| <= |old(ids)| + |old(indents)| + 4
      ensures Now() == StreamStarted(old(Now()))
    {
      hide Open, Weight, KeysOk, Nested;
      KeysAfterPush(keys, saved, parsed, ids, next, 0);
      indent := -1;
      keys, saved := keys + [NO_KEY], saved + [0];
      allowed, started := true, true;
      StillHalf();
      PlainWeighs(StreamStart);
      Append(StreamStart);
      ok := true;
    }

    /** A token that ends all block levels: a directive, a document marker or the end of the stream. */
    method FetchMarker(token: Kind) returns (ok: bool)
      requires Inv() && started && Weight(token) == 0
      modifies this, tokens, tokens.buf
      ensures ok ==> Inv() && started
      ensures ok && flowLevel == 0 ==> indents == [] && Open(All()) == 0
      ensures tokens.buf == old(tokens.buf) || fresh(tokens.buf)
      ensures parsed == old(parsed) && delivered == old(delivered) && read == old(read)
      ensures ok ==> |ids| + |indents| <= |old(ids)| + |old(indents)| + 4
      ensures Did(Marker(old(Now()), token), ok)
    {
      hide Unrolled, Finished, Half, Open, Weight;
      HalfIsValid(0);
      UnrollIndent(-1);
      ok := Finish(token, false);
      Balanced();
    }

    /** `yaml_parser_fetch_flow_collection_start` */
    method FetchFlowStart(mapping: bool) returns (ok: bool)
      requires Inv() && started
      modifies this, tokens, tokens.buf
      ensures ok ==> Inv() && started
      ensures tokens.buf == old(tokens.buf) || fresh(tokens.buf)
      ensures parsed == old(parsed) && delivered == old(delivered) && read == old(read)
      ensures ok ==> |ids| + |indents| <= |old(ids)| + |old(indents)| + 4
      ensures Did(FlowStarted(old(Now()), mapping), ok)
    {
      hide Half, Open, KeysOk, IndentsOk, Weight, Nested;
      HalfIsValid(0);
      ok := SaveSimpleKey();
      if !ok {
        return;
      }
      ok := IncreaseFlowLevel();
      if !ok {
        return;
      }
      allowed := true;
      PlainWeighs(FlowStart(mapping));
      Append(FlowStart(mapping));
    }

    /** `yaml_parser_fetch_flow_collection_end` */
    method FetchFlowEnd(mapping: bool) returns (ok: bool)
      requires Inv() && started
      modifies this, tokens, tokens.buf
      ensures ok ==> Inv() && started
      ensures tokens.buf == old(tokens.buf) || fresh(tokens.buf)
      ensures parsed == old(parsed) && delivered == old(delivered) && read == old(read)
      ensures ok ==> |ids| + |indents| <= |old(ids)| + |old(indents)| + 4
      ensures Did(FlowEnded(old(Now()), mapping), ok)
    {
      hide FlowLeft, Half, Weight;
      HalfIsValid(0);
      ok := LeaveFlow();
      if !ok {
        return;
      }
      allowed := false;
      StillHalf();
      PlainWeighs(FlowEnd(mapping));
      Append(FlowEnd(mapping));
    }

    /** The part of it before the token is made. */
    method LeaveFlow() returns (ok: bool)
      requires Inv() && started
      modifies this`keys, this`saved, this`flowLevel
      ensures ok ==> Inv()
      ensures Did(FlowLeft(old(Now())), ok)
    {
      hide KeyRemoved, Half;
      HalfIsValid(0);
      ok := Forget();
      if ok {
        DecreaseFlowLevel();
        HalfIsValid(0);
      }
    }

    /** `yaml_parser_fetch_flow_entry` */
    method FetchFlowEntry() returns (ok: bool)
      requires Inv() && started
      modifies this, tokens, tokens.buf
      ensures ok ==> Inv() && started
      ensures tokens.buf == old(tokens.buf) || fresh(tokens.buf)
      ensures parsed == old(parsed) && delivered == old(delivered) && read == old(read)
      ensures ok ==> |ids| + |indents| <= |old(ids)| + |old(indents)| + 4
      ensures Did(FlowGoesOn(old(Now())), ok)
    {
      hide Finished, Half;
      HalfIsValid(0);
      PlainWeighs(FlowEntry);
      ok := Finish(FlowEntry, true);
    }

    /** `yaml_parser_fetch_block_entry` and `yaml_parser_fetch_key` */
    method FetchBlock(token: Kind, level: Kind, key: bool) returns (ok: bool)
      requires Inv() && started && Weight(token) == 0 && Weight(level) == 1
      modifies this, tokens, tokens.buf
      ensures ok ==> Inv() && started
      ensures tokens.buf == old(tokens.buf) || fresh(tokens.buf)
      ensures parsed == old(parsed) && delivered == old(delivered) && read == old(read)
      ensures ok ==> |ids| + |indents| <= |old(ids)| + |old(indents)| + 4
      ensures Did(BlockGoesOn(old(Now()), token, level, key), ok)
    {
      hide BlockOpened, Finished, Half, Weight;
      HalfIsValid(0);
      ok := OpenBlock(level);
      if ok {
        ok := Finish(token, key || flowLevel == 0);
      }
    }

    method OpenBlock(level: Kind) returns (ok: bool)
      requires Inv() && started && Weight(level) == 1
      modifies this`indents, this`indent, this`ids, this`next, tokens, tokens.buf
      ensures ok ==> Inv() && tokens.Valid() && |ids| + |indents| <= |old(ids)| + |old(indents)| + 2
      ensures tokens.buf == old(tokens.buf) || fresh(tokens.buf)
      ensures Did(BlockOpened(old(Now()), level), ok)
    {
      hide Rolled, Half, Weight;
      HalfIsValid(0);
      if flowLevel == 0 {
        if !allowed {
          return false;
        }
        ok := RollIndent(mark.column, None, level);
        if ok {
          HalfIsValid(0);
        }
      } else {
        NoRoll(Now(), mark.column, level);
        ok := true;
      }
    }

    /** An alias, an anchor, a tag or a scalar; only a block scalar cannot be a simple key. */
    method FetchContent(save: bool, key: bool) returns (ok: bool)
      requires Inv() && started
      modifies this, tokens, tokens.buf
      ensures ok ==> Inv() && started
      ensures tokens.buf == old(tokens.buf) || fresh(tokens.buf)
      ensures parsed == old(parsed) && delivered == old(delivered) && read == old(read)
      ensures ok ==> |ids| + |indents| <= |old(ids)| + |old(indents)| + 4
      ensures Did(ContentMade(old(Now()), save, key), ok)
    {
      hide Half, KeySaved, Finished, Weight;
      HalfIsValid(0);
      PlainWeighs(Content);
      if save {
        ok := SaveSimpleKey();
        if ok {
          allowed := key;
          Append(Content);
        }
      } else {
        ok := Finish(Content, key);
      }
    }

    /**
     `yaml_parser_fetch_value` where a simple key is possible: its tokens go before the token it was saved for,
     which is still queued.
     */
    method FetchSimpleValue() returns (ok: bool)
      requires Inv() && started && keys != [] && keys[|keys| - 1].possible
      modifies this, tokens, tokens.buf
      ensures ok ==> Inv() && started
      ensures var key := old(keys[|keys| - 1]);
              && parsed <= key.number < parsed + |old(tokens.Contents())|
              && key.number < |old(ids)| && |old(saved)| == |old(keys)|
              && old(ids)[key.number] == old(saved)[|old(saved)| - 1]
      ensures tokens.buf == old(tokens.buf) || fresh(tokens.buf)
      ensures parsed == old(parsed) && delivered == old(delivered) && read == old(read)
      ensures ok ==> |ids| + |indents| <= |old(ids)| + |old(indents)| + 4
      ensures Did(KeyFound(old(Now()), old(keys[|keys| - 1])), ok)
    {
      hide Half, Weight, Rolled, Inserted, Impossible;
      HalfIsValid(0);
      var key := MakeKey();
      MappingWeighs();
      ok := RollIndent(key.mark.column, Some(key.number), BlockMappingStart);
      if !ok {
        return;
      }
      allowed := false;
      StillHalf();
      PlainWeighs(Value);
      Append(Value);
    }

    /** The key saved last turns out to be one. */
    method MakeKey() returns (key: SimpleKey)
      requires Inv() && started && keys != [] && keys[|keys| - 1].possible
      modifies this`keys, this`ids, this`next, tokens, tokens.buf
      ensures Inv() && tokens.Valid() && key == old(keys[|keys| - 1]) && |ids| == |old(ids)| + 1
      ensures parsed <= key.number < parsed + |old(tokens.Contents())| && key.number < |old(ids)|
      ensures |tokens.Contents()| == |old(tokens.Contents())| + 1
      ensures |old(saved)| == |old(keys)| && old(ids)[key.number] == old(saved)[|old(saved)| - 1]
      ensures forall i :: 0 <= i < |keys| && keys[i].possible ==> keys[i].number < key.number
      ensures Now() == old(Now()).(keys := Impossible(old(keys)), made := Inserted(old(All()), key.number, Key))
      ensures tokens.buf == old(tokens.buf) || fresh(tokens.buf)
    {
      hide Half, Inserted, Impossible;
      HalfIsValid(0);
      key := TakeKey();
      InsertKey(key.number);
    }

    method TakeKey() returns (key: SimpleKey)
      requires Inv() && started && keys != [] && keys[|keys| - 1].possible
      modifies this`keys
      ensures Inv() && key == old(keys[|keys| - 1]) && keys == Impossible(old(keys))
      ensures tokens.Valid() && parsed <= key.number < parsed + |tokens.Contents()|
      ensures |ids| == parsed + |tokens.Contents()| && |saved| == |old(keys)| && ids[key.number] == saved[|saved| - 1]
      ensures forall i :: 0 <= i < |keys| && keys[i].possible ==> keys[i].number < key.number
    {
      hide Open, IndentsOk, Nested;
      var top := |keys| - 1;
      key := keys[top];
      assert KeyOk(key, saved[top], parsed, ids, next, 0);
      FewerKeysOk(keys, keys[top := key.(possible := false)], saved, parsed, ids, next, 0);
      keys := keys[top := key.(possible := false)];
    }

    method InsertKey(number: nat)
      requires Inv() && parsed <= number < parsed + |tokens.Contents()|
      requires forall i :: 0 <= i < |keys| && keys[i].possible ==> keys[i].number < number
      modifies this`ids, this`next, tokens, tokens.buf
      ensures Inv() && tokens.Valid() && |tokens.Contents()| == |old(tokens.Contents())| + 1 && |ids| == |old(ids)| + 1
      ensures Now() == old(Now()).(made := Inserted(old(All()), number, Key))
      ensures tokens.buf == old(tokens.buf) || fresh(tokens.buf)
    {
      hide Open, IndentsOk, Weight, KeysOk, Nested;
      PlainWeighs(Key);
      Spliced(delivered, tokens.Contents(), number - parsed, Key);
      InsertWeighs(delivered, tokens.Contents(), number - parsed, Key);
      KeysAfterInsert(keys, saved, parsed, ids, next, number);
      tokens.Insert(number - parsed, Key);
      ids, next := ids[..number] + [next] + ids[number..], next + 1;
    }

    /** `yaml_parser_fetch_value` */
    method FetchValue() returns (ok: bool)
      requires Inv() && started
      modifies this, tokens, tokens.buf
      ensures ok ==> Inv() && started
      ensures tokens.buf == old(tokens.buf) || fresh(tokens.buf)
      ensures parsed == old(parsed) && delivered == old(delivered) && read == old(read)
      ensures ok ==> |ids| + |indents| <= |old(ids)| + |old(indents)| + 4
      ensures Did(ValueMade(old(Now())), ok)
    {
      hide Rolled, KeyFound, Half, Open, KeysOk, IndentsOk, Weight, Nested;
      HalfIsValid(0);
      KeysThere();
      if keys[|keys| - 1].possible {
        ok := FetchSimpleValue();
        return;
      }
      if flowLevel == 0 {
        if !allowed {
          return false;
        }
        MappingWeighs();
        ok := RollIndent(mark.column, None, BlockMappingStart);
        if !ok {
          return;
        }
      } else {
        NoRoll(Now(), mark.column, BlockMappingStart);
      }
      allowed := flowLevel == 0;
      StillHalf();
      PlainWeighs(Value);
      Append(Value);
      ok := true;
    }

    lemma {:induction false} Balanced()
      requires Inv()
      ensures Open(All()) == |indents|
    {
    }

    lemma {:induction false} KeysThere()
      requires Inv() && started
      ensures |keys| == flowLevel + 1
    {
    }

    method Stale() returns (ok: bool)
      requires Inv()
      modifies this`keys
      ensures Inv()
      ensures Did(WithoutStale(old(Now())), ok)
    {
      hide Open, IndentsOk, KeysOk, Nested;
      ghost var was := keys;
      ok := StaleSimpleKeys();
      FewerKeysOk(was, keys, saved, parsed, ids, next, 0);
    }

    /** The tokens of one lexeme, once the levels that end before it are ended. */
    method FetchLexeme(input: Input) returns (ok: bool)
      requires Inv() && started
      modifies this, tokens, tokens.buf
      ensures ok ==> Inv() && started
      ensures ok && input.lexeme.End? && flowLevel == 0 ==> Open(All()) == 0
      ensures tokens.buf == old(tokens.buf) || fresh(tokens.buf)
      ensures parsed == old(parsed) && delivered == old(delivered) && read == old(read)
      ensures ok ==> |ids| + |indents| <= |old(ids)| + |old(indents)| + 4
      ensures Did(LexemeRead(old(Now()), input.lexeme), ok)
    {
      hide Marker, FlowStarted, FlowEnded, FlowGoesOn, BlockGoesOn, ValueMade, ContentMade, Half, Open, KeysOk,
           IndentsOk, Nested;
      HalfIsValid(0);
      match input.lexeme
      case End =>
        mark := if mark.column == 0 then mark else Mark(mark.index, mark.line + 1, 0);
        ok := FetchMarker(StreamEnd);
      case Directives => ok := FetchMarker(Directive);
      case Indicator(start) => ok := FetchMarker(if start then DocumentStart else DocumentEnd);
      case FlowOpen(mapping) => ok := FetchFlowStart(mapping);
      case FlowClose(mapping) => ok := FetchFlowEnd(mapping);
      case Comma => ok := FetchFlowEntry();
      case Dash => ok := FetchBlock(BlockEntry, BlockSequenceStart, true);
      case Question => ok := FetchBlock(Key, BlockMappingStart, false);
      case Colon => ok := FetchValue();
      case Node => ok := FetchContent(true, false);
      case Plain(leading) => ok := FetchContent(true, leading);
      case BlockScalar => ok := FetchContent(false, true);
      case Bad => ok := false;
    }

    /** `yaml_parser_fetch_next_token` */
    method FetchNextToken(input: Input) returns (ok: bool)
      requires Inv() && started
      modifies this, tokens, tokens.buf
      ensures ok ==> Inv() && started
      ensures ok && input.lexeme.End? && flowLevel == 0 ==> Open(All()) == 0
      ensures tokens.buf == old(tokens.buf) || fresh(tokens.buf)
      ensures parsed == old(parsed) && delivered == old(delivered) && read == old(read)
      ensures ok ==> |ids| + |indents| <= |old(ids)| + |old(indents)| + 4
      ensures Did(Fetched(old(Now()), input), ok)
    {
      hide Settled, LexemeRead, Half, Open;
      HalfIsValid(0);
      ok := Settle(input);
      if !ok {
        return;
      }
      ok := FetchLexeme(input);
      if ok && !input.lexeme.End? {
        mark := input.end;
      }
    }

    /** The part of it before the lexeme itself: the keys that are too old go, and so do the levels that end here. */
    method Settle(input: Input) returns (ok: bool)
      requires Inv() && started
      modifies this`mark, this`allowed, this`keys, this`indents, this`indent, this`ids, this`next, tokens, tokens.buf
      ensures ok ==> Inv() && |ids| + |indents| == |old(ids)| + |old(indents)|
      ensures tokens.buf == old(tokens.buf) || fresh(tokens.buf)
      ensures Did(Settled(old(Now()), input), ok)
    {
      hide Unrolled, WithoutStale, Half;
      HalfIsValid(0);
      mark := input.start;
      if input.newLine && flowLevel == 0 {
        allowed := true;
      }
      ok := Stale();
      if ok {
        UnrollIndent(mark.column);
      }
    }

    /** One more lexeme is read. */
    method ReadNext(input: Input) returns (ok: bool)
      requires Inv() && started
      modifies this, tokens, tokens.buf
      ensures ok ==> Inv() && started && read == old(read) + [input]
      ensures ok && old(Faithful()) && Later(old(mark), input.start) ==> Faithful() && mark == MarkAfter(input)
      ensures !ok ==> read == old(read)
      ensures !ok && old(Faithful()) && Later(old(mark), input.start) ==>
                CannotGoOn(StreamStarted(Start(limit)), read, [input], delivered)
      ensures tokens.buf == old(tokens.buf) || fresh(tokens.buf)
      ensures parsed == old(parsed) && delivered == old(delivered)
      ensures ok ==> |ids| + |indents| <= |old(ids)| + |old(indents)| + 4
    {
      hide Half, Scanned, Fetched, WithoutStale, StreamStarted;
      HalfIsValid(0);
      ghost var was := Now();
      ghost var v := Scanned(StreamStarted(Start(limit)), read);
      if Faithful() && Later(mark, input.start) {
        assert FaithfulTo(limit, read, was);
        TidiedMark(v.value, was);
        ScannedMore(StreamStarted(Start(limit)), read, input);
        FetchedSame(v.value, was, input);
      }
      ok := FetchNextToken(input);
      if ok {
        FetchedMark(was, input);
        read := read + [input];
      }
    }

    /** Whether the parser has to wait: nothing is queued, or a key may still have to go before what is. */
    method NeedMore() returns (ok: bool, more: bool)
      requires Inv()
      modifies this`keys
      ensures Inv() && tokens.Valid() && (ok ==> Tidied(old(Now()), Now()))
      ensures ok <==> tokens.Contents() == [] || !Overdue(old(keys), mark)
      ensures ok ==> (more <==> || tokens.Contents() == []
                                || exists i :: 0 <= i < |keys| && keys[i].possible && keys[i].number == parsed)
      ensures ok && !more ==>
                && tokens.Valid() && tokens.Contents() != []
                && forall i :: 0 <= i < |keys| && keys[i].possible ==> keys[i].number != parsed
    {
      hide Half, Open, KeysOk, IndentsOk, Nested;
      HalfIsValid(0);
      if tokens.Empty() {
        return true, true;
      }
      ok := Stale();
      if !ok {
        return false, false;
      }
      var i := 0;
      while i < |keys|
        invariant 0 <= i <= |keys|
        invariant forall j :: 0 <= j < i && keys[j].possible ==> keys[j].number != parsed
      {
        if keys[i].possible && keys[i].number == parsed {
          return true, true;
        }
        i := i + 1;
      }
      more := false;
    }

    /**
     How many more tokens can be taken: what is queued, the ends of the open levels, and at most five for each lexeme.
     */
    ghost function Budget(inputs: seq<Input>): int
      reads this`ids, this`indents, this`parsed, this`started
    {
      5 * |inputs| + |ids| + |indents| - parsed + if started then 0 else 4
    }

    /** `yaml_parser_fetch_more_tokens` */
    method FetchMoreTokens(inputs: seq<Input>) returns (ok: bool, rest: seq<Input>)
      requires Inv()
      modifies this, tokens, tokens.buf
      ensures ok ==> Inv() && started && tokens.Valid() && tokens.Contents() != []
      ensures ok ==> forall i :: 0 <= i < |keys| && keys[i].possible ==> keys[i].number != parsed
      ensures |rest| <= |inputs| && (ok ==> Budget(rest) <= old(Budget(inputs)))
      ensures tokens.buf == old(tokens.buf) || fresh(tokens.buf)
      ensures parsed == old(parsed) && delivered == old(delivered)
      ensures ReadUpTo(inputs, rest, old(read), read)
      ensures ok && old(Faithful()) && old(Forward(mark, inputs)) ==> Faithful() && Forward(mark, rest)
      ensures !ok && old(Faithful()) && old(Forward(mark, inputs)) ==>
                CannotGoOn(StreamStarted(Start(limit)), read, rest, delivered)
    {
      hide Half, Scanned, WithoutStale, Forward, Later, ReadUpTo, Tidied, FaithfulTo, CannotGoOn, Overdue;
      rest := inputs;
      ReadNone(inputs, read);
      ghost var forward := Faithful() && Forward(mark, inputs);
      while true
        invariant Inv() && |rest| <= |inputs| && Budget(rest) <= old(Budget(inputs))
        invariant tokens.buf == old(tokens.buf) || fresh(tokens.buf)
        invariant parsed == old(parsed) && delivered == old(delivered)
        invariant ReadUpTo(inputs, rest, old(read), read) && (forward ==> Faithful() && Forward(mark, rest))
        decreases |rest|, if started then 0 else 1
      {
        HalfIsValid(0);
        ghost var was := Now();
        var more: bool;
        ok, more := NeedMore();
        if !ok {
          if forward {
            OverdueEnds(limit, read, was, rest, delivered);
          }
          return;
        }
        if forward {
          StillFaithful(limit, read, was, Now());
        }
        if !more {
          HalfIsValid(0);
          return;
        }
        if started && rest == [] {
          if forward {
            NothingLeft(limit, read, Now(), delivered);
          }
          return false, rest;
        }
        if started {
          ReadOneMore(inputs, rest, old(read), read);
        } else {
          ReadNone(rest, read);
        }
        ok, rest := FetchOne(rest);
        if !ok {
          return;
        }
      }
    }

    /** The start of the stream, or the next lexeme of it. */
    method FetchOne(inputs: seq<Input>) returns (ok: bool, rest: seq<Input>)
      requires Inv() && (started ==> inputs != [])
      modifies this, tokens, tokens.buf
      ensures ok ==> Inv() && started && Budget(rest) <= old(Budget(inputs))
      ensures rest == if old(started) && ok then inputs[1..] else inputs
      ensures !ok ==> read == old(read)
      ensures !ok && old(Faithful()) && old(Forward(mark, inputs)) ==>
                CannotGoOn(StreamStarted(Start(limit)), read, rest, delivered)
      ensures ok ==> read == old(read) + (if old(started) then [inputs[0]] else [])
      ensures tokens.buf == old(tokens.buf) || fresh(tokens.buf)
      ensures parsed == old(parsed) && delivered == old(delivered)
      ensures ok && old(Faithful()) && old(Forward(mark, inputs)) ==> Faithful() && Forward(mark, rest)
    {
      hide Half, Scanned, WithoutStale, Forward, Later;
      ghost var forward := Faithful() && Forward(mark, inputs);
      rest := inputs;
      if !started {
        ok := FetchStreamStart();
        HalfIsValid(0);
        StreamIsStarted(limit);
      } else {
        if forward {
          ForwardOne(mark, inputs);
        }
        ok := ReadNext(inputs[0]);
        if ok {
          rest := inputs[1..];
        }
      }
    }

    /** `yaml_parser_scan`: the parser takes the token at the head, which no key can go before any more. */
    method Scan(inputs: seq<Input>) returns (ok: bool, token: Kind, rest: seq<Input>)
      requires Inv()
      modifies this, tokens, tokens.buf
      ensures ok ==> Inv() && started && parsed == old(parsed) + 1 && delivered == old(delivered) + [token]
      ensures |rest| <= |inputs| && (tokens.buf == old(tokens.buf) || fresh(tokens.buf))
      ensures !ok ==> delivered == old(delivered)
      ensures ok ==> 0 <= Budget(rest) < old(Budget(inputs))
      ensures ReadUpTo(inputs, rest, old(read), read)
      ensures ok && old(Faithful()) && old(Forward(mark, inputs)) ==> Faithful() && Forward(mark, rest)
      ensures !ok && old(Faithful()) && old(Forward(mark, inputs)) ==>
                CannotGoOn(StreamStarted(Start(limit)), read, rest, delivered)
    {
      hide Half, Open, KeysOk, IndentsOk, Nested, Forward, CannotGoOn, ReadUpTo, Scanned, StreamStarted;
      token := StreamEnd;
      ok, rest := FetchMoreTokens(inputs);
      if ok {
        token := Take();
      }
    }

    lemma {:induction false} TakenIsNested()
      requires Inv()
      ensures tokens.Valid() && Nested(delivered)
    {
      hide Open, KeysOk, IndentsOk, Nested;
      NestedPrefix(delivered, tokens.Contents());
    }

    /** `DEQUEUE`, and the count that goes with it. */
    method Take() returns (token: Kind)
      requires Inv() && tokens.Valid() && tokens.Contents() != []
      requires forall i :: 0 <= i < |keys| && keys[i].possible ==> keys[i].number != parsed
      modifies this`parsed, this`delivered, tokens
      ensures Inv() && parsed == old(parsed) + 1 && delivered == old(delivered) + [token]
      ensures old(tokens.Contents())[0] == token && parsed <= |ids| && tokens.buf == old(tokens.buf)
      ensures tokens.Valid() && Now() == old(Now())
    {
      hide Open, KeysOk, IndentsOk, Nested;
      ghost var queue := tokens.Contents();
      KeysAfterTake(keys, saved, parsed, ids, next);
      token := tokens.Dequeue();
      assert delivered + [token] + tokens.Contents() == delivered + queue;
      parsed, delivered := parsed + 1, delivered + [token];
    }
  }

  lemma {:induction false} NoRoll(v: View, column: nat, token: Kind)
    requires v.flowLevel > 0
    ensures Rolled(v, column, None, token) == Some(v)
  {
  }

  lemma {:induction false} TidiedMark(v: View, w: View)
    requires Tidied(v, w)
    ensures v.mark == w.mark && v.made == w.made
  {
  }

  /** A token put into the queue is put in among all tokens made. */
  lemma {:induction false} Spliced(a: seq<Kind>, b: seq<Kind>, at: nat, token: Kind)
    requires at <= |b|
    ensures a + (b[..at] + [token] + b[at..]) == Inserted(a + b, |a| + at, token)
    ensures at == |b| ==> b[..at] + [token] + b[at..] == b + [token]
  {
    assert (a + b)[..|a| + at] == a + b[..at] && (a + b)[|a| + at..] == b[at..];
  }

  lemma {:induction false} NestedPrefix(a: seq<Kind>, b: seq<Kind>)
    requires Nested(a + b)
    ensures Nested(a)
  {
    hide Open;
    forall k | 0 <= k <= |a|
      ensures Open(a[..k]) >= 0
    {
      assert a[..k] == (a + b)[..k];
    }
  }

  /**
   A whole run: the parser takes tokens until the stream ends or something is wrong. In what it takes, no block
   collection is ended that was not begun. And it takes what reading the same lexemes in one go makes, up to the first
   end of the stream, so that no token is put in before one that is already taken; of a text, whose last lexeme is its
   end, it takes all of that. It fails only where reading them in one go fails as well, or where there are no more.
   */
  method ScanAll(inputs: seq<Input>, limit: int) returns (ok: bool, out: seq<Kind>, ghost n: nat)
    ensures Nested(out) && |out| <= 5 * |inputs| + 4
    ensures ok ==> out != [] && out[|out| - 1] == StreamEnd
    ensures forall i :: 0 <= i < |out| - (if ok then 1 else 0) ==> out[i] != StreamEnd
    ensures n <= |inputs|
    ensures ok && Forward(Mark(0, 0, 0), inputs) ==>
              var v := Scanned(StreamStarted(Start(limit)), inputs[..n]);
              v.Some? && out <= v.value.made && (EndsLast(inputs) ==> out == v.value.made)
    ensures !ok && Forward(Mark(0, 0, 0), inputs) ==>
              var v := Scanned(StreamStarted(Start(limit)), inputs[..n]);
              && v.Some? && out <= v.value.made
              && if n < |inputs| then Scanned(StreamStarted(Start(limit)), inputs[..n + 1]) == None
                 else Waits(v.value, |out|)
    ensures Forward(Mark(0, 0, 0), inputs) ==>
              forall i :: 0 <= i < |out| - 1 ==> ScanOrder.Follows(out[i], out[i + 1])
    ensures Forward(Mark(0, 0, 0), inputs) ==>
              forall sheets :: OnPages(sheets, inputs, limit) ==>
                                 ok && out == [StreamStart] + (SheetsKinds(sheets) + [StreamEnd])
  {
    hide Scanner.Half, Open, Nested, Scanned, Forward, StreamStarted, ReadUpTo, CannotGoOn, FaithfulTo, EndsLast;
    ReadNone(inputs, []);
    var scanner := new Scanner(limit);
    var rest := inputs;
    out, n := [], 0;
    scanner.TakenIsNested();
    NotStarted(limit);
    ghost var forward := Forward(Mark(0, 0, 0), inputs);
    while out == [] || out[|out| - 1] != StreamEnd
      invariant scanner.Inv() && scanner.delivered == out && Nested(out)
      invariant fresh(scanner) && fresh(scanner.tokens) && fresh(scanner.tokens.buf)
      invariant 0 <= |out| + scanner.Budget(rest) <= 5 * |inputs| + 4 && scanner.Budget(rest) >= 0
      invariant ReadUpTo(inputs, rest, [], scanner.read)
      invariant forward ==> scanner.Faithful() && Forward(scanner.mark, rest)
      invariant scanner.limit == limit && (out != [] ==> scanner.started)
      invariant forall i :: 0 <= i < |out| - 1 ==> out[i] != StreamEnd
      decreases scanner.Budget(rest)
    {
      var token;
      ghost var before, had := scanner.read, rest;
      ok, token, rest := scanner.Scan(rest);
      ReadOn(inputs, had, rest, [], before, scanner.read);
      if !ok {
        n := Unread(inputs, rest, scanner.read);
        if forward {
          StoppedThere(limit, inputs, rest, scanner.read, n, out);
          TakenInOrder(limit, inputs[..n], out);
          PagesTaken(inputs, limit, false, out, n);
        }
        return;
      }
      out := out + [token];
      scanner.TakenIsNested();
    }
    ok := true;
    n := Unread(inputs, rest, scanner.read);
    if forward {
      TakenOfAll(limit, scanner.read, scanner.Now(), out, scanner.tokens.Contents());
      if EndsLast(inputs) {
        TakenIsAll(limit, inputs, n, out);
      }
      TakenInOrder(limit, inputs[..n], out);
      PagesTaken(inputs, limit, true, out, n);
    }
  }

  /** The start of a block collection is followed by what belongs to it. */
  lemma {:induction false} TakenInOrder(limit: int, read: seq<Input>, out: seq<Kind>)
    requires Scanned(StreamStarted(Start(limit)), read).Some?
    requires out <= Scanned(StreamStarted(Start(limit)), read).value.made
    ensures forall i :: 0 <= i < |out| - 1 ==> ScanOrder.Follows(out[i], out[i + 1])
  {
    hide Scanned, StreamStarted, ScanOrder.Follows;
    ScanOrder.StartOrderly(limit);
    ScanOrder.ScannedOrderly(StreamStarted(Start(limit)), read);
  }

  lemma {:induction false} ScannedPrefix(v: View, inputs: seq<Input>, n: nat)
    requires n <= |inputs| && Scanned(v, inputs).Some?
    ensures Scanned(v, inputs[..n]).Some?
  {
    hide Scanned;
    assert inputs == inputs[..n] + inputs[n..];
    ScannedJoined(v, inputs[..n], inputs[n..]);
  }

  /** The end of the stream is made only of the end of the text. */
  lemma {:induction false} NoEndBefore(v: View, inputs: seq<Input>)
    requires StreamEnd !in v.made && Scanned(v, inputs).Some?
    requires forall i :: 0 <= i < |inputs| ==> !inputs[i].lexeme.End?
    ensures StreamEnd !in Scanned(v, inputs).value.made
    decreases |inputs|
  {
    hide Fetched;
    if inputs != [] {
      FetchedOpen(v, inputs[0]);
      NoEndBefore(Fetched(v, inputs[0]).value, inputs[1..]);
    }
  }

  /** A stream on pages is taken to its end. */
  lemma {:induction false} PagesTaken(inputs: seq<Input>, limit: int, ok: bool, out: seq<Kind>, n: nat)
    requires n <= |inputs| && Scanned(StreamStarted(Start(limit)), inputs[..n]).Some?
    requires out <= Scanned(StreamStarted(Start(limit)), inputs[..n]).value.made
    requires ok ==> out != [] && out[|out| - 1] == StreamEnd
    requires ok && EndsLast(inputs) ==> out == Scanned(StreamStarted(Start(limit)), inputs[..n]).value.made
    requires !ok ==> forall i :: 0 <= i < |out| ==> out[i] != StreamEnd
    requires !ok && n < |inputs| ==> Scanned(StreamStarted(Start(limit)), inputs[..n + 1]) == None
    requires !ok && n == |inputs| ==> Waits(Scanned(StreamStarted(Start(limit)), inputs[..n]).value, |out|)
    ensures forall sheets :: OnPages(sheets, inputs, limit) ==>
                               ok && out == [StreamStart] + (SheetsKinds(sheets) + [StreamEnd])
  {
    hide Scanned, StreamStarted, OnPages, EndsLast, SheetsKinds;
    forall sheets | OnPages(sheets, inputs, limit)
      ensures ok && out == [StreamStart] + (SheetsKinds(sheets) + [StreamEnd])
    {
      var start := StreamStarted(Start(limit));
      PagesScan(sheets, inputs, limit);
      PagesEndLast(sheets, inputs, limit);
      assert inputs[..|inputs|] == inputs;
      if ok {
        assert StreamEnd in Scanned(start, inputs[..n]).value.made;
        EndIsRead(limit, inputs, n);
      } else {
        NotRefused(start, inputs, n);
        NotWaiting(Scanned(start, inputs).value, out);
      }
    }
  }

  lemma {:induction false} EndIsRead(limit: int, inputs: seq<Input>, n: nat)
    requires n <= |inputs| && Scanned(StreamStarted(Start(limit)), inputs[..n]).Some?
    requires StreamEnd in Scanned(StreamStarted(Start(limit)), inputs[..n]).value.made
    requires forall i :: 0 <= i < |inputs| - 1 ==> !inputs[i].lexeme.End?
    ensures n == |inputs|
  {
    hide Scanned, StreamStarted;
    if n < |inputs| {
      NothingMade(limit);
      NoEndBefore(StreamStarted(Start(limit)), inputs[..n]);
    }
  }

  lemma {:induction false} NotRefused(start: View, inputs: seq<Input>, n: nat)
    requires n <= |inputs| && Scanned(start, inputs).Some?
    requires n < |inputs| ==> Scanned(start, inputs[..n + 1]) == None
    ensures n == |inputs|
  {
    hide Scanned;
    if n < |inputs| {
      ScannedPrefix(start, inputs, n + 1);
    }
  }

  /** Once the end of the stream is made and nothing can be a key, nothing is waited for but by who has taken it. */
  lemma {:induction false} NotWaiting(v: View, out: seq<Kind>)
    requires v.made != [] && out <= v.made && (forall i :: 0 <= i < |v.keys| ==> !v.keys[i].possible)
    requires Waits(v, |out|)
    ensures out != [] && out[|out| - 1] == v.made[|v.made| - 1]
  {
  }

  lemma {:induction false} NothingMade(limit: int)
    ensures StreamStarted(Start(limit)).made == [StreamStart]
  {
  }

  lemma {:induction false} Unread(inputs: seq<Input>, rest: seq<Input>, read: seq<Input>) returns (n: nat)
    requires ReadUpTo(inputs, rest, [], read)
    ensures n <= |inputs| && n == |inputs| - |rest| && read == inputs[..n]
  {
    n := |inputs| - |rest|;
  }

  lemma {:induction false} StoppedThere(limit: int, inputs: seq<Input>, rest: seq<Input>, read: seq<Input>, n: nat,
                                        out: seq<Kind>)
    requires ReadUpTo(inputs, rest, [], read) && n == |inputs| - |rest|
    requires CannotGoOn(StreamStarted(Start(limit)), read, rest, out)
    ensures var v := Scanned(StreamStarted(Start(limit)), inputs[..n]);
            v.Some? && out <= v.value.made && (n == |inputs| ==> Waits(v.value, |out|))
    ensures n < |inputs| ==> Scanned(StreamStarted(Start(limit)), inputs[..n + 1]) == None
  {
    hide Scanned, StreamStarted;
    assert read == inputs[..n];
    assert rest != [] ==> read + [rest[0]] == inputs[..n + 1];
  }

  /** What is taken are the first of the tokens that reading in one go makes. */
  lemma {:induction false} TakenOfAll(limit: int, read: seq<Input>, v: View, out: seq<Kind>, queue: seq<Kind>)
    requires FaithfulTo(limit, read, v) && v.started && v.made == out + queue
    ensures var w := Scanned(StreamStarted(Start(limit)), read); w.Some? && out <= w.value.made
  {
    hide Scanned, StreamStarted, WithoutStale, Tidied;
    TidiedMark(Scanned(StreamStarted(Start(limit)), read).value, v);
  }

  /** And where the end of the text is the last lexeme, it is all of them. */
  lemma {:induction false} TakenIsAll(limit: int, inputs: seq<Input>, n: nat, out: seq<Kind>)
    requires n <= |inputs| && EndsLast(inputs) && Scanned(StreamStarted(Start(limit)), inputs[..n]).Some?
    requires out <= Scanned(StreamStarted(Start(limit)), inputs[..n]).value.made && out != []
    requires out[|out| - 1] == StreamEnd
    ensures out == Scanned(StreamStarted(Start(limit)), inputs[..n]).value.made
  {
    hide Scanned;
    var made := Scanned(StreamStarted(Start(limit)), inputs[..n]).value.made;
    ScannedOpen(StreamStarted(Start(limit)), inputs[..n]);
    assert made[|out| - 1] == StreamEnd;
  }

  lemma {:induction false} PlainWeighs(token: Kind)
    ensures !token.BlockSequenceStart? && !token.BlockMappingStart? && !token.BlockEnd? ==> Weight(token) == 0
  {
  }

  lemma {:induction false} MappingWeighs()
    ensures Weight(BlockMappingStart) == 1 && Weight(BlockSequenceStart) == 1
  {
  }

  lemma {:induction false} BlockEndWeighs()
    ensures Weight(BlockEnd) == -1
  {
  }

  lemma {:induction false} InsertWeighs(a: seq<Kind>, b: seq<Kind>, at: nat, token: Kind)
    requires at <= |b|
    ensures Open(a + (b[..at] + [token] + b[at..])) == Open(a + b) + Weight(token)
    ensures Nested(a + b) && Weight(token) >= 0 ==> Nested(a + (b[..at] + [token] + b[at..]))
  {
    hide Open, Weight, Nested;
    OpenInsert(a + b[..at], token, b[at..]);
    assert a + (b[..at] + [token] + b[at..]) == a + b[..at] + [token] + b[at..];
    assert a + b[..at] + b[at..] == a + b;
    if Nested(a + b) && Weight(token) >= 0 {
      NestedInsert(a + b[..at], token, b[at..]);
    }
  }

  lemma {:induction false} AppendWeighs(a: seq<Kind>, b: seq<Kind>, token: Kind)
    ensures Open(a + (b + [token])) == Open(a + b) + Weight(token)
    ensures Nested(a + b) && Open(a + b) + Weight(token) >= 0 ==> Nested(a + (b + [token]))
  {
    hide Open, Weight, Nested;
    OpenConcat(a + b, [token]);
    OpenOne(token);
    assert a + (b + [token]) == a + b + [token];
    if Nested(a + b) && Open(a + b) + Weight(token) >= 0 {
      assert a + b + [] == a + b && a + b + [token] + [] == a + b + [token];
      NestedInsert(a + b, token, []);
    }
  }
}
