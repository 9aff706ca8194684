/** The text form of a configuration: how `cfg_dump_file` writes it and `cfg_load` reads it. */
module CfgText {
  import opened Characters
  import opened CfgTree
  import opened CfgPath
  import opened CfgDump

  const PATH_SIZE := 512
  const LINE_MAX := 4094

  function TrimLeft(s: string): string {
    if s != "" && IsBlank(s[0]) then TrimLeft(s[1..]) else s
  }

  function TrimRight(s: string): string {
    if s != "" && IsBlank(s[|s| - 1]) then TrimRight(s[..|s| - 1]) else s
  }

  function Trim(s: string): string {
    TrimRight(TrimLeft(s))
  }

  /** `trim_eol` */
  function TrimEol(s: string): string {
    if s != "" && (s[|s| - 1] == '\n' || s[|s| - 1] == '\r') then TrimEol(s[..|s| - 1]) else s
  }

  function Escape(c: char): string {
    if c == '\\' || c == '"' then ['\\', c]
    else if c == '\n' then "\\n"
    else if c == '\t' then "\\t"
    else [c]
  }

  function Escaped(s: string): string {
    if s == "" then "" else Escape(s[0]) + Escaped(s[1..])
  }

  /** `quote` */
  function Quote(s: string): string {
    "\"" + Escaped(s) + "\""
  }

  /** The string inside the quotes, and what follows the closing quote. */
  datatype Quoted = Quoted(val: string, rest: string)

  function Unescape(c: char): char {
    if c == 'n' then '\n' else if c == 't' then '\t' else c
  }

  /** Reads up to the closing quote. */
  function Unquote(s: string): Result<Quoted>
    decreases |s|
  {
    if s == "" then Err(EINVAL)
    else if s[0] == '"' then Ok(Quoted("", s[1..]))
    else if s[0] == '\\' then
      if |s| == 1 then Err(EINVAL) else Consed(Unescape(s[1]), Unquote(s[2..]))
    else Consed(s[0], Unquote(s[1..]))
  }

  function Consed(c: char, r: Result<Quoted>): Result<Quoted> {
    match r
    case Err(e) => Err(e)
    case Ok(q) => Ok(Quoted([c] + q.val, q.rest))
  }

  /** `parse_value` */
  function ParseValue(text: string): Result<string> {
    var src := Trim(text);
    if src == "" then Ok("")
    else if src[0] != '"' then Ok(Trim(src[..IndexOf(src, '#')]))
    else
      match Unquote(src[1..])
      case Err(e) => Err(e)
      case Ok(q) =>
        var after := Trim(q.rest);
        if after != "" && after[0] != '#' then Err(EINVAL) else Ok(q.val)
  }

  /** `path_file_ok` on a parsed path: a file appends to arrays and does not address their elements. */
  predicate FilePath(path: seq<Tok>) {
    forall i :: 0 <= i < |path| ==> !path[i].Index? && (path[i].Append? ==> i == |path| - 1)
  }

  /** `load_line` */
  function LoadLine(t: Tree, line: string): Outcome {
    var text := Trim(line);
    if text == "" || text[0] == '#' then Done(t)
    else
      var eq := IndexOf(text, '=');
      if eq == |text| then Fails(t, EINVAL)
      else
        var key := Trim(text[..eq]);
        if key == "" then Fails(t, EINVAL)
        else
          match ParsePath(key)
          case Err(e) => Fails(t, e)
          case Ok(path) =>
            if !FilePath(path) then Fails(t, EINVAL)
            else
              match ParseValue(Trim(text[eq + 1..]))
              case Err(e) => Fails(t, e)
              case Ok(val) => if path == [] then Fails(t, EINVAL) else Set(t, path, val)
  }

  /** `cfg_load` on what is left of the file: a line that does not fit the buffer ends the load. */
  function LoadText(t: Tree, text: string): Result<Tree>
    decreases |text|
  {
    if text == "" then Ok(t)
    else
      var n := IndexOf(text, '\n');
      if n > LINE_MAX then Err(E2BIG)
      else
        var r := LoadLine(t, TrimEol(text[..n]));
        match r.error
        case Some(e) => Err(e)
        case None => LoadText(r.tree, if n == |text| then "" else text[n + 1..])
  }

  /** A line of the file, without its end. */
  function Line(path: string, val: string): string {
    path + (" = " + Quote(val))
  }

  function ItemLines(path: string, items: seq<string>): string {
    if items == [] then "" else Line(path + "[]", items[0]) + "\n" + ItemLines(path, items[1..])
  }

  /** The path of a field, if it fits the buffer. */
  function Extend(path: string, name: string): Result<string> {
    var longer := if path == "" then name else path + "." + name;
    if |longer| < PATH_SIZE then Ok(longer) else Err(E2BIG)
  }

  /** `dump_node` */
  function DumpNode(t: Tree, path: string): Result<string>
    decreases t
  {
    match t
    case Str(s) => Ok(Line(path, s) + "\n")
    case Arr(items) => Ok(ItemLines(path, items))
    case Obj(fields) => DumpFields(fields, path)
  }

  function DumpFields(fields: seq<Field>, path: string): Result<string>
    decreases fields
  {
    if fields == [] then Ok("")
    else
      match Extend(path, fields[0].name)
      case Err(e) => Err(e)
      case Ok(longer) => Joined(DumpNode(fields[0].value, longer), DumpFields(fields[1..], path))
  }

  function Joined(a: Result<string>, b: Result<string>): Result<string> {
    match a
    case Err(e) => Err(e)
    case Ok(x) =>
      match b
      case Err(e) => Err(e)
      case Ok(y) => Ok(x + y)
  }

  /** Text that trimming leaves alone. */
  lemma {:induction false} TrimKeeps(s: string)
    requires s != "" && !IsBlank(s[0]) && !IsBlank(s[|s| - 1])
    ensures Trim(s) == s
  {
  }

  lemma {:induction false} TrimOne(s: string)
    requires s != "" && !IsBlank(s[0]) && !IsBlank(s[|s| - 1])
    ensures Trim(s + " ") == s && Trim(" " + s) == s
  {
    assert (s + " ")[0] == s[0];
    assert (s + " ")[..|s|] == s;
    assert (" " + s)[1..] == s;
    TrimKeeps(s);
  }

  lemma {:induction false} IndexOfIn(a: string, c: char, b: string)
    requires forall i :: 0 <= i < |a| ==> a[i] != c
    ensures IndexOf(a + [c] + b, c) == |a|
  {
    if a == "" {
      assert a + [c] + b == [c] + b;
    } else {
      IndexOfIn(a[1..], c, b);
      assert (a + [c] + b)[1..] == a[1..] + [c] + b;
    }
  }

  /** What is quoted is read back, up to the closing quote. */
  lemma {:induction false} UnquoteEscaped(val: string, rest: string)
    ensures Unquote(Escaped(val) + ("\"" + rest)) == Ok(Quoted(val, rest))
    decreases |val|
  {
    var s := Escaped(val) + ("\"" + rest);
    if val == "" {
      assert s == "\"" + rest && s[1..] == rest;
    } else {
      UnquoteEscaped(val[1..], rest);
      var e, more := Escape(val[0]), Escaped(val[1..]) + ("\"" + rest);
      assert s == e + more;
      UnquoteStep(val[0], more);
      assert [val[0]] + val[1..] == val;
    }
  }

  lemma {:induction false} UnquoteStep(c: char, more: string)
    ensures Unquote(Escape(c) + more) == Consed(c, Unquote(more))
  {
    var s := Escape(c) + more;
    if |Escape(c)| == 2 {
      assert s[0] == '\\' && s[1] == Escape(c)[1] && s[2..] == more;
    } else {
      assert s[0] == c && s[1..] == more;
    }
  }

  /** A quoted value is read back as it was. */
  lemma {:induction false} ValueAfterQuote(val: string)
    ensures ParseValue(Quote(val)) == Ok(val)
  {
    var q := Quote(val);
    TrimKeeps(q);
    assert q[1..] == Escaped(val) + ("\"" + "");
    UnquoteEscaped(val, "");
  }

  lemma {:induction false} EscapedIsOneLine(val: string)
    ensures forall i :: 0 <= i < |Escaped(val)| ==> Escaped(val)[i] != '\n'
  {
    if val != "" {
      EscapedIsOneLine(val[1..]);
    }
  }

  /** The characters of a written path that a file may hold. */
  predicate PathChar(c: char) {
    IsKeyChar(c) || c == '.' || c == '[' || c == ']'
  }

  /** The path, with what makes it one of a file, can be written. */
  predicate LeafOk(path: seq<Tok>, depth: nat) {
    |path| <= depth && FilePath(path) && forall i :: 0 <= i < |path| ==> TokOk(path[i])
  }

  lemma {:induction false} StepsChars(path: seq<Tok>)
    requires FilePath(path) && forall i :: 0 <= i < |path| ==> TokOk(path[i])
    ensures forall i :: 0 <= i < |ShowSteps(path)| ==> PathChar(ShowSteps(path)[i])
    decreases |path|
  {
    if path != [] {
      StepsChars(path[1..]);
      StepChars(path[0]);
    }
  }

  lemma {:induction false} StepChars(tok: Tok)
    requires TokOk(tok) && !tok.Index?
    ensures forall i :: 0 <= i < |ShowStep(tok)| ==> PathChar(ShowStep(tok)[i])
  {
  }

  lemma {:induction false} ShowChars(path: seq<Tok>)
    requires path != [] && path[0].Key? && LeafOk(path, DEPTH_MAX)
    ensures Show(path) != "" && IsKeyStart(Show(path)[0])
    ensures forall i :: 0 <= i < |Show(path)| ==> PathChar(Show(path)[i])
  {
    hide ShowSteps;
    StepsChars(path[1..]);
    KeyIsKey(path[0]);
  }

  /** A line of a dump ends with a quote, starts with a key, and is one line. */
  lemma {:induction false} LineShape(path: string, val: string)
    requires path != "" && IsKeyStart(path[0]) && forall i :: 0 <= i < |path| ==> PathChar(path[i])
    ensures var line := Line(path, val);
            && line != "" && line[0] == path[0] && line[|line| - 1] == '"'
            && forall i :: 0 <= i < |line| ==> line[i] != '\n'
  {
    EscapedIsOneLine(val);
    var line := Line(path, val);
    assert line == path + " = \"" + Escaped(val) + "\"";
  }

  /** Loading a line of a dump sets the string the line is about. */
  lemma {:induction false} LoadDumpedLine(t: Tree, path: seq<Tok>, val: string)
    requires path != [] && path[0].Key? && LeafOk(path, DEPTH_MAX)
    ensures LoadLine(t, Line(Show(path), val)) == Set(t, path, val)
  {
    hide Set, Trim, ParseValue, ParsePath, Show, IndexOf, Quote;
    var key, line := Show(path), Line(Show(path), val);
    ShowChars(path);
    LineShape(key, val);
    TrimKeeps(line);
    var q := Quote(val);
    assert line == (key + " ") + ['='] + (" " + q);
    IndexOfIn(key + " ", '=', " " + q);
    assert line[..|key| + 1] == key + " " && line[|key| + 2..] == " " + q;
    TrimOne(key);
    QuoteEnds(val);
    TrimOne(q);
    ParseAfterShow(path);
    ValueAfterQuote(val);
  }

  lemma {:induction false} QuoteEnds(val: string)
    ensures Quote(val) != "" && !IsBlank(Quote(val)[0]) && !IsBlank(Quote(val)[|Quote(val)| - 1])
  {
  }

  /** The lines of a dump, under the path `at`. */
  function Lines(at: seq<Tok>, leaves: seq<Leaf>): string
    decreases |leaves|
  {
    if leaves == [] then ""
    else Line(Show(at + leaves[0].path), leaves[0].val) + "\n" + Lines(at, leaves[1..])
  }

  /** Every line fits the buffer that files are read with. */
  predicate LinesFit(leaves: seq<Leaf>) {
    forall i :: 0 <= i < |leaves| ==> |Line(Show(leaves[i].path), leaves[i].val)| <= LINE_MAX
  }

  predicate LeavesOk(leaves: seq<Leaf>) {
    forall i :: 0 <= i < |leaves| ==>
      leaves[i].path != [] && leaves[i].path[0].Key? && LeafOk(leaves[i].path, DEPTH_MAX)
  }

  lemma {:induction false} NextLine(t: Tree, line: string, rest: string)
    requires line != "" && line[|line| - 1] == '"' && forall i :: 0 <= i < |line| ==> line[i] != '\n'
    ensures LoadText(t, line + "\n" + rest) ==
            if |line| > LINE_MAX then Err(E2BIG)
            else
              var r := LoadLine(t, line);
              match r.error case Some(e) => Err(e) case None => LoadText(r.tree, rest)
  {
    hide LoadLine, IndexOf;
    var text := line + "\n" + rest;
    IndexOfIn(line, '\n', rest);
    assert text[..|line|] == line && text[|line| + 1..] == rest;
    assert TrimEol(line) == line;
  }

  /** The lines of a dump load as the strings they are about, if and only if all of them fit. */
  lemma {:induction false} LoadLines(t: Tree, leaves: seq<Leaf>)
    requires LeavesOk(leaves) && Load(t, leaves).Ok?
    ensures LoadText(t, Lines([], leaves)) == if LinesFit(leaves) then Load(t, leaves) else Err(E2BIG)
    decreases |leaves|
  {
    hide LoadLine, Line, LeafOk, Show;
    if leaves != [] {
      var leaf := leaves[0];
      assert [] + leaf.path == leaf.path;
      var line := Line(Show(leaf.path), leaf.val);
      ShowChars(leaf.path);
      LineShape(Show(leaf.path), leaf.val);
      NextLine(t, line, Lines([], leaves[1..]));
      LoadDumpedLine(t, leaf.path, leaf.val);
      LoadLines(Set(t, leaf.path, leaf.val).tree, leaves[1..]);
      FitSplit(leaves);
    }
  }

  lemma {:induction false} FitSplit(leaves: seq<Leaf>)
    requires leaves != []
    ensures LinesFit(leaves) <==> |Line(Show(leaves[0].path), leaves[0].val)| <= LINE_MAX && LinesFit(leaves[1..])
  {
    hide Line, Show;
    if LinesFit(leaves[1..]) {
      forall i | 1 <= i < |leaves|
        ensures |Line(Show(leaves[i].path), leaves[i].val)| <= LINE_MAX
      {
        assert leaves[i] == leaves[1..][i - 1];
      }
    }
  }

  lemma {:induction false} ShowStepsSnoc(path: seq<Tok>, tok: Tok)
    ensures ShowSteps(path + [tok]) == ShowSteps(path) + ShowStep(tok)
    decreases |path|
  {
    hide ShowStep;
    if path == [] {
      assert path + [tok] == [tok] && [tok][1..] == [];
    } else {
      ShowStepsSnoc(path[1..], tok);
      assert (path + [tok])[1..] == path[1..] + [tok];
    }
  }

  lemma {:induction false} ShowSnoc(at: seq<Tok>, tok: Tok)
    requires at != [] && at[0].Key?
    ensures Show(at + [tok]) == Show(at) + ShowStep(tok)
  {
    hide ShowSteps, ShowStep;
    ShowStepsSnoc(at[1..], tok);
    assert (at + [tok])[1..] == at[1..] + [tok];
  }

  lemma {:induction false} ShowOne(name: string)
    ensures Show([Key(name)]) == name
  {
    assert [Key(name)][1..] == [];
    assert ShowSteps([]) == "";
    assert name + "" == name;
  }

  lemma {:induction false} LinesConcat(at: seq<Tok>, a: seq<Leaf>, b: seq<Leaf>)
    ensures Lines(at, a + b) == Lines(at, a) + Lines(at, b)
    decreases |a|
  {
    hide Line, Show;
    if a == [] {
      assert a + b == b && "" + Lines(at, b) == Lines(at, b);
    } else {
      LinesConcat(at, a[1..], b);
      assert (a + b)[1..] == a[1..] + b;
      var line := Line(Show(at + a[0].path), a[0].val) + "\n";
      assert line + (Lines(at, a[1..]) + Lines(at, b)) == line + Lines(at, a[1..]) + Lines(at, b);
    }
  }

  lemma {:induction false} LinesUnder(at: seq<Tok>, name: string, leaves: seq<Leaf>)
    ensures Lines(at, Under(name, leaves)) == Lines(at + [Key(name)], leaves)
    decreases |leaves|
  {
    hide Line, Show;
    if leaves != [] {
      LinesUnder(at, name, leaves[1..]);
      assert Under(name, leaves)[1..] == Under(name, leaves[1..]);
      assert at + ([Key(name)] + leaves[0].path) == at + [Key(name)] + leaves[0].path;
    }
  }

  lemma {:induction false} LinesOfItems(at: seq<Tok>, items: seq<string>)
    requires at != [] && at[0].Key?
    ensures ItemLines(Show(at), items) == Lines(at, Appends(items))
    decreases |items|
  {
    hide Line, Show;
    if items != [] {
      LinesOfItems(at, items[1..]);
      ShowSnoc(at, Append);
      assert Appends(items)[1..] == Appends(items[1..]);
    }
  }

  lemma {:induction false} LinesOfString(at: seq<Tok>, s: string)
    ensures Lines(at, [Leaf([], s)]) == Line(Show(at), s) + "\n"
  {
    hide Line, Show;
    var leaves := [Leaf([], s)];
    assert leaves[1..] == [] && at + [] == at;
    assert Lines(at, []) == "";
    assert Line(Show(at), s) + "\n" + "" == Line(Show(at), s) + "\n";
  }

  /** A path of keys. */
  predicate KeysOnly(at: seq<Tok>) {
    forall i :: 0 <= i < |at| ==> at[i].Key? && IsKey(at[i].name)
  }

  lemma {:induction false} ExtendShows(at: seq<Tok>, name: string)
    requires KeysOnly(at) && Extend(Show(at), name).Ok?
    ensures Extend(Show(at), name).value == Show(at + [Key(name)])
  {
    if at == [] {
      assert at + [Key(name)] == [Key(name)];
      ShowOne(name);
    } else {
      ShowSnoc(at, Key(name));
      assert Show(at) + "." + name == Show(at) + ("." + name);
    }
  }

  /** A dump that does not overflow its path buffer is the lines of the strings in the tree, in order. */
  lemma {:induction false} DumpIsLines(t: Tree, at: seq<Tok>, depth: nat)
    requires KeysOnly(at) && (at == [] ==> t.Obj?) && Stored(t, depth) && DumpNode(t, Show(at)).Ok?
    ensures DumpNode(t, Show(at)).value == Lines(at, Leaves(t))
    decreases t
  {
    hide Line, Show, Lines, KeysOnly;
    match t
    case Str(s) =>
      LinesOfString(at, s);
    case Arr(items) =>
      FirstKey(at);
      LinesOfItems(at, items);
    case Obj(fields) =>
      DumpIsFieldLines(fields, at, depth - 1);
  }

  lemma {:induction false} FirstKey(at: seq<Tok>)
    requires KeysOnly(at) && at != []
    ensures at[0].Key?
  {
  }

  predicate FieldsStored(fields: seq<Field>, depth: nat) {
    forall i :: 0 <= i < |fields| ==> IsKey(fields[i].name) && Stored(fields[i].value, depth)
  }

  lemma {:induction false} DumpIsFieldLines(fields: seq<Field>, at: seq<Tok>, depth: nat)
    requires KeysOnly(at) && FieldsStored(fields, depth) && DumpFields(fields, Show(at)).Ok?
    ensures DumpFields(fields, Show(at)).value == Lines(at, FieldLeaves(fields))
    decreases fields
  {
    hide Line, Show, Extend, IsKey, Stored;
    if fields != [] {
      var f := fields[0];
      var under := at + [Key(f.name)];
      ExtendShows(at, f.name);
      DumpIsLines(f.value, under, depth);
      DumpIsFieldLines(fields[1..], at, depth);
      LinesUnder(at, f.name, Leaves(f.value));
      LinesConcat(at, Under(f.name, Leaves(f.value)), FieldLeaves(fields[1..]));
    }
  }

  /** The strings of a stored tree have paths that a file may hold. */
  lemma {:induction false} StoredLeaves(t: Tree, depth: nat)
    requires Stored(t, depth)
    ensures forall i :: 0 <= i < |Leaves(t)| ==> LeafOk(Leaves(t)[i].path, depth)
    decreases t
  {
    hide IsKey, IsCString;
    if t.Obj? {
      StoredFieldLeaves(t.fields, depth - 1);
    } else if t.Arr? {
      ItemLeaf();
    }
  }

  lemma {:induction false} ItemLeaf()
    ensures forall depth: nat :: depth > 0 ==> LeafOk([Append], depth)
  {
  }

  lemma {:induction false} StoredFieldLeaves(fields: seq<Field>, depth: nat)
    requires FieldsStored(fields, depth)
    ensures forall i :: 0 <= i < |FieldLeaves(fields)| ==> LeafOk(FieldLeaves(fields)[i].path, depth + 1)
    decreases fields
  {
    hide IsKey, Stored, LeafOk;
    if fields != [] {
      StoredFieldLeaves(fields[1..], depth);
      StoredLeaves(fields[0].value, depth);
      var leaves := Leaves(fields[0].value);
      forall i | 0 <= i < |leaves|
        ensures LeafOk([Key(fields[0].name)] + leaves[i].path, depth + 1)
      {
        LeafUnder(fields[0].name, leaves[i].path, depth);
      }
    }
  }

  lemma {:induction false} LeafUnder(name: string, path: seq<Tok>, depth: nat)
    requires IsKey(name) && LeafOk(path, depth)
    ensures LeafOk([Key(name)] + path, depth + 1)
  {
    hide IsKey;
    KeyTokOk(Key(name));
    var whole := [Key(name)] + path;
    forall i | 0 <= i < |whole|
      ensures TokOk(whole[i]) && !whole[i].Index? && (whole[i].Append? ==> i == |whole| - 1)
    {
      assert i > 0 ==> whole[i] == path[i - 1];
    }
  }

  /** The part of the configuration that a dump and a load go through: an object, within the limits. */
  predicate Config(t: Tree) {
    t.Obj? && Stored(t, DEPTH_MAX)
  }

  /**
   * Loading what was dumped gives back the configuration without its empty containers, in the same
   * order, if and only if every line fits the buffer that files are read with.
   */
  lemma {:induction false} LoadAfterDump(t: Tree)
    requires Config(t) && DumpNode(t, "").Ok?
    ensures LoadText(EMPTY, DumpNode(t, "").value) == if LinesFit(Leaves(t)) then Ok(Prune(t)) else Err(E2BIG)
  {
    hide Leaves, LoadText, LeafOk, Load, Prune;
    assert Show([]) == "";
    DumpIsLines(t, [], DEPTH_MAX);
    StoredIsDistinct(t, DEPTH_MAX);
    CfgDump.LoadAfterDump(t);
    StoredLeaves(t, DEPTH_MAX);
    ObjectLeaves(t);
    LoadLines(EMPTY, Leaves(t));
  }

  lemma {:induction false} ObjectLeaves(t: Tree)
    requires t.Obj?
    ensures forall i :: 0 <= i < |Leaves(t)| ==> Leaves(t)[i].path != [] && Leaves(t)[i].path[0].Key?
  {
    LeavesInto(t.fields);
  }

  /** No container in the tree, but for the tree itself, is without a string. */
  predicate Full(t: Tree)
    decreases t
  {
    t.Obj? ==> FullFields(t.fields)
  }

  predicate FullFields(fields: seq<Field>)
    decreases fields
  {
    fields != [] ==>
      Leaves(fields[0].value) != [] && Full(fields[0].value) && FullFields(fields[1..])
  }

  lemma {:induction false} PruneLength(fields: seq<Field>)
    ensures |PruneFields(fields)| <= |fields|
    decreases fields
  {
    hide Leaves, Prune;
    if fields != [] {
      PruneLength(fields[1..]);
    }
  }

  /** The reload gives back the configuration itself exactly when it has no empty container. */
  lemma {:induction false} PruneKeeps(t: Tree)
    ensures Prune(t) == t <==> Full(t)
    decreases t
  {
    hide Leaves;
    if t.Obj? {
      PruneKeepsFields(t.fields);
    }
  }

  lemma {:induction false} PruneKeepsFields(fields: seq<Field>)
    ensures PruneFields(fields) == fields <==> FullFields(fields)
    decreases fields
  {
    hide Leaves, Prune, Full;
    if fields != [] {
      PruneKeepsFields(fields[1..]);
      PruneKeeps(fields[0].value);
      PruneLength(fields[1..]);
      var first, rest := [Field(fields[0].name, Prune(fields[0].value))], PruneFields(fields[1..]);
      assert fields == [fields[0]] + fields[1..];
      assert first + rest == fields ==> (first + rest)[0] == fields[0] && (first + rest)[1..] == fields[1..];
      assert (first + rest)[1..] == rest;
    }
  }

  lemma {:induction false} DumpNothing(t: Tree, path: string)
    requires Leaves(t) == [] && DumpNode(t, path).Ok?
    ensures DumpNode(t, path).value == ""
    decreases t
  {
    hide Line, Extend;
    if t.Arr? {
      assert |Appends(t.items)| == 0;
    } else if t.Obj? {
      DumpNoFields(t.fields, path);
    }
  }

  lemma {:induction false} DumpNoFields(fields: seq<Field>, path: string)
    requires FieldLeaves(fields) == [] && DumpFields(fields, path).Ok?
    ensures DumpFields(fields, path).value == ""
    decreases fields
  {
    hide Line, Extend, DumpNode, Leaves;
    if fields != [] {
      assert |Under(fields[0].name, Leaves(fields[0].value))| == 0;
      DumpNothing(fields[0].value, Extend(path, fields[0].name).value);
      DumpNoFields(fields[1..], path);
    }
  }

  lemma {:induction false} DumpPruned(t: Tree, path: string)
    requires DumpNode(t, path).Ok?
    ensures DumpNode(Prune(t), path) == DumpNode(t, path)
    decreases t
  {
    hide Line, Extend;
    if t.Obj? {
      DumpPrunedFields(t.fields, path);
    }
  }

  lemma {:induction false} DumpPrunedFields(fields: seq<Field>, path: string)
    requires DumpFields(fields, path).Ok?
    ensures DumpFields(PruneFields(fields), path) == DumpFields(fields, path)
    decreases fields
  {
    hide Line, Extend, DumpNode, Leaves, Prune;
    if fields != [] {
      var f := fields[0];
      var longer := Extend(path, f.name).value;
      DumpPrunedFields(fields[1..], path);
      DumpPruned(f.value, longer);
      if Leaves(f.value) == [] {
        DumpNothing(f.value, longer);
        assert "" + DumpFields(fields[1..], path).value == DumpFields(fields[1..], path).value;
      } else {
        var kept := PruneFields(fields);
        assert kept[1..] == PruneFields(fields[1..]);
      }
    }
  }

  /** A configuration that was loaded from a dump is dumped to the same text. */
  lemma {:induction false} DumpAfterLoad(t: Tree)
    requires Config(t) && DumpNode(t, "").Ok? && LinesFit(Leaves(t))
    ensures var again := LoadText(EMPTY, DumpNode(t, "").value);
            again.Ok? && DumpNode(again.value, "") == DumpNode(t, "")
  {
    hide DumpNode, LoadText, Leaves, Prune, Config;
    LoadAfterDump(t);
    DumpPruned(t, "");
  }

  /** A call that changes a configuration. */
  datatype Call = SetStr(path: string, val: string) | Del(path: string)

  /** `cfg_set_str` and `cfg_del` */
  function Apply(t: Tree, call: Call): Outcome {
    match ParsePath(call.path)
    case Err(e) => Fails(t, e)
    case Ok(path) =>
      if path == [] then Fails(t, EINVAL)
      else
        match call
        case SetStr(_, val) => Set(t, path, val)
        case Del(_) => Delete(t, path)
  }

  function Run(t: Tree, calls: seq<Call>): Tree
    decreases |calls|
  {
    if calls == [] then t else Run(Apply(t, calls[0]).tree, calls[1..])
  }

  lemma {:induction false} ApplyKeepsConfig(t: Tree, call: Call)
    requires Config(t) && (call.SetStr? ==> IsCString(call.val))
    ensures Config(Apply(t, call).tree)
  {
    hide Stored, Set, Delete, PathOk, ParsePath, IsCString, TokensOk;
    var parsed := ParsePath(call.path);
    if parsed.Ok? && parsed.value != [] {
      PathLanguage(call.path, parsed.value);
      PathTokens(parsed.value);
      match call
      case SetStr(_, val) =>
        SetStores(t, parsed.value, val, DEPTH_MAX);
        SetKind(t, parsed.value, val);
      case Del(_) =>
        DeleteStores(t, parsed.value, DEPTH_MAX);
        DeleteKind(t, parsed.value);
    }
  }

  lemma {:induction false} PathTokens(path: seq<Tok>)
    requires PathOk(path)
    ensures TokensOk(path) && |path| <= DEPTH_MAX
  {
  }

  lemma {:induction false} DeleteKind(t: Tree, path: seq<Tok>)
    requires path != []
    ensures SameKind(Delete(t, path).tree, t)
  {
  }

  /** Whatever calls are made, on whatever paths, the result can be dumped within the limits of the format. */
  lemma {:induction false} RunKeepsConfig(t: Tree, calls: seq<Call>)
    requires Config(t) && forall i :: 0 <= i < |calls| ==> calls[i].SetStr? ==> IsCString(calls[i].val)
    ensures Config(Run(t, calls))
    decreases |calls|
  {
    hide Config, IsCString, Apply;
    if calls != [] {
      ApplyKeepsConfig(t, calls[0]);
      RunKeepsConfig(Apply(t, calls[0]).tree, calls[1..]);
    }
  }

  lemma {:induction false} EscapedIsLonger(val: string)
    ensures |Escaped(val)| >= |val|
  {
    if val != "" {
      EscapedIsLonger(val[1..]);
    }
  }

  /** A string that is too long is stored and dumped, and what was dumped does not load. */
  lemma {:induction false} LongStringIsNotReloaded(val: string)
    requires IsCString(val) && |val| > LINE_MAX
    ensures var t := Obj([Field("a", Str(val))]);
            && t == Set(EMPTY, [Key("a")], val).tree
            && Config(t) && DumpNode(t, "").Ok?
            && LoadText(EMPTY, DumpNode(t, "").value) == Err(E2BIG)
  {
    hide Escaped, LoadText, IsCString;
    var t := Obj([Field("a", Str(val))]);
    assert [] + [Field("a", Str(val))] == [Field("a", Str(val))];
    assert t.fields[1..] == [] && DumpFields([], "").Ok?;
    assert DumpNode(Str(val), "a").Ok? && Extend("", "a").Ok?;
    assert IsKey("a") && Stored(Str(val), DEPTH_MAX - 1);
    LoadAfterDump(t);
    EscapedIsLonger(val);
    assert [Key("a")] + [] == [Key("a")];
    LeavesOfOne("a", Str(val));
    assert Leaves(t)[0] == Leaf([Key("a")], val);
    assert |Line(Show([Key("a")]), val)| > LINE_MAX;
  }

  lemma {:induction false} EscapedSnoc(val: string, c: char)
    ensures Escaped(val + [c]) == Escaped(val) + Escape(c)
  {
    if val == "" {
      assert val + [c] == [c] && [c][1..] == "";
      assert Escape(c) + "" == Escape(c) && "" + Escape(c) == Escape(c);
    } else {
      EscapedSnoc(val[1..], c);
      assert (val + [c])[1..] == val[1..] + [c];
      assert Escape(val[0]) + (Escaped(val[1..]) + Escape(c)) == Escape(val[0]) + Escaped(val[1..]) + Escape(c);
    }
  }

  /** The loop of `quote`. */
  method WriteQuoted(val: string) returns (text: string)
    ensures text == Quote(val)
    ensures ParseValue(text) == Ok(val)
  {
    hide ParseValue;
    text := "\"";
    var i := 0;
    assert val[..0] == "" && "\"" + "" == "\"";
    while i < |val|
      invariant 0 <= i <= |val| && text == "\"" + Escaped(val[..i])
    {
      var c := val[i];
      EscapedSnoc(val[..i], c);
      assert val[..i + 1] == val[..i] + [c];
      assert "\"" + (Escaped(val[..i]) + Escape(c)) == "\"" + Escaped(val[..i]) + Escape(c);
      if c == '\\' || c == '"' {
        text := text + ['\\', c];
      } else if c == '\n' {
        text := text + "\\n";
      } else if c == '\t' {
        text := text + "\\t";
      } else {
        text := text + [c];
      }
      i := i + 1;
    }
    assert val[..i] == val;
    text := text + "\"";
    ValueAfterQuote(val);
  }

  /** The text so far, and what is added to it. */
  function Prefixed(text: string, r: Result<string>): Result<string> {
    match r
    case Err(e) => Err(e)
    case Ok(more) => Ok(text + more)
  }

  lemma {:induction false} PrefixedJoined(text: string, a: string, b: Result<string>)
    ensures Prefixed(text, Joined(Ok(a), b)) == Prefixed(text + a, b)
  {
    if b.Ok? {
      assert text + (a + b.value) == text + a + b.value;
    }
  }
}
