/** The configuration store of `cfg.c` as an ordered tree of objects, arrays and strings. */
module CfgTree {
  import opened Wrappers
  import opened Characters

  datatype Tree =
    | Str(val: string)
    | Arr(items: seq<string>)
    | Obj(fields: seq<Field>)

  datatype Field = Field(name: string, value: Tree)

  /** A step of a path. */
  datatype Tok = Key(name: string) | Index(idx: int) | Append

  datatype Error = EINVAL | ENOTDIR | ENOENT | EISDIR | E2BIG

  datatype Result<+T> = Ok(value: T) | Err(error: Error) {
    predicate IsFailure() {
      Err?
    }

    function PropagateFailure<U>(): Result<U>
      requires Err?
    {
      Err(error)
    }

    function Extract(): T
      requires Ok?
    {
      value
    }
  }

  const EMPTY := Obj([])

  /** The position of the first field of that name, or the number of fields. */
  function Find(fields: seq<Field>, name: string): (k: nat)
    ensures k <= |fields|
    ensures k < |fields| ==> fields[k].name == name
    ensures forall j :: 0 <= j < k ==> fields[j].name != name
  {
    if fields == [] then 0
    else if fields[0].name == name then 0
    else 1 + Find(fields[1..], name)
  }

  /** The element an index names: negative indices count from the end. */
  function Element(n: nat, idx: int): Option<nat> {
    if 0 <= idx < n then Some(idx)
    else if idx < 0 && n + idx >= 0 then Some(n + idx)
    else None
  }

  /** `walk_get` */
  function Get(t: Tree, path: seq<Tok>): Result<Tree>
    decreases |path|
  {
    if path == [] then Ok(t)
    else
      match path[0]
      case Append => Err(EINVAL)
      case Key(name) =>
        if !t.Obj? then Err(ENOTDIR)
        else
          var k := Find(t.fields, name);
          if k == |t.fields| then Err(ENOENT) else Get(t.fields[k].value, path[1..])
      case Index(idx) =>
        if !t.Arr? then Err(ENOTDIR)
        else
          match Element(|t.items|, idx)
          case None => Err(ENOENT)
          case Some(k) => Get(Str(t.items[k]), path[1..])
  }

  /** The string a path reads as, if it reads as one. */
  function Read(t: Tree, path: seq<Tok>): Option<string> {
    match Get(t, path)
    case Ok(Str(s)) => Some(s)
    case _ => None
  }

  /** The tree after an operation, and the error if it failed: a failed operation may have changed the tree. */
  datatype Outcome = Outcome(tree: Tree, error: Option<Error>)

  function Fails(t: Tree, e: Error): Outcome {
    Outcome(t, Some(e))
  }

  function Done(t: Tree): Outcome {
    Outcome(t, None)
  }

  /** `set_str_plain`, `set_arr_append` and `set_arr_idx` */
  function SetLast(t: Tree, last: Tok, val: string): Outcome {
    match last
    case Key(name) =>
      if !t.Obj? then Fails(t, ENOTDIR)
      else
        var k := Find(t.fields, name);
        if k == |t.fields| then Done(Obj(t.fields + [Field(name, Str(val))]))
        else if !t.fields[k].value.Str? then Fails(t, EISDIR)
        else Done(Obj(t.fields[k := Field(name, Str(val))]))
    case Append =>
      if !t.Arr? then Fails(t, ENOTDIR) else Done(Arr(t.items + [val]))
    case Index(idx) =>
      if !t.Arr? then Fails(t, ENOTDIR)
      else
        match Element(|t.items|, idx)
        case None => Fails(t, ENOENT)
        case Some(k) => Done(Arr(t.items[k := val]))
  }

  /** The empty container that a step in a path asks for. */
  function Container(next: Tok): Tree {
    if next.Key? then Obj([]) else Arr([])
  }

  predicate SameKind(a: Tree, b: Tree) {
    (a.Obj? <==> b.Obj?) && (a.Arr? <==> b.Arr?)
  }

  /** `cfg_set_str` on a parsed path: missing containers are created on the way, and stay if a later step fails. */
  function Set(t: Tree, path: seq<Tok>, val: string): Outcome
    requires path != []
    decreases |path|
  {
    if |path| == 1 then SetLast(t, path[0], val)
    else
      match path[0]
      case Append => Fails(t, EINVAL)
      case Index(idx) =>
        if !t.Arr? then Fails(t, ENOTDIR)
        else
          (match Element(|t.items|, idx)
           case None => Fails(t, ENOENT)
           case Some(k) => Set(Str(t.items[k]), path[1..], val).(tree := t))
      case Key(name) =>
        if !t.Obj? then Fails(t, ENOTDIR)
        else
          var k := Find(t.fields, name);
          var want := Container(path[1]);
          if k == |t.fields| then
            var sub := Set(want, path[1..], val);
            Outcome(Obj(t.fields + [Field(name, sub.tree)]), sub.error)
          else if !SameKind(t.fields[k].value, want) then Fails(t, ENOTDIR)
          else
            var sub := Set(t.fields[k].value, path[1..], val);
            Outcome(Obj(t.fields[k := Field(name, sub.tree)]), sub.error)
  }

  function Without<T>(s: seq<T>, k: nat): seq<T>
    requires k < |s|
  {
    s[..k] + s[k + 1..]
  }

  /** `cfg_del` on a parsed path, with `del_arr` and `del_plain`. */
  function Delete(t: Tree, path: seq<Tok>): Outcome
    requires path != []
    decreases |path|
  {
    if |path| == 1 then
      match path[0]
      case Append => Fails(t, EINVAL)
      case Index(idx) =>
        if !t.Arr? then Fails(t, ENOENT)
        else
          (match Element(|t.items|, idx)
           case None => Fails(t, ENOENT)
           case Some(k) => Done(Arr(Without(t.items, k))))
      case Key(name) =>
        if !t.Obj? then Fails(t, ENOTDIR)
        else
          var k := Find(t.fields, name);
          if k == |t.fields| then Fails(t, ENOENT) else Done(Obj(Without(t.fields, k)))
    else
      match path[0]
      case Append => Fails(t, EINVAL)
      case Index(idx) =>
        if !t.Arr? then Fails(t, ENOTDIR)
        else
          (match Element(|t.items|, idx)
           case None => Fails(t, ENOENT)
           case Some(k) => Delete(Str(t.items[k]), path[1..]).(tree := t))
      case Key(name) =>
        if !t.Obj? then Fails(t, ENOTDIR)
        else
          var k := Find(t.fields, name);
          if k == |t.fields| then Fails(t, ENOENT)
          else
            var sub := Delete(t.fields[k].value, path[1..]);
            Outcome(Obj(t.fields[k := Field(name, sub.tree)]), sub.error)
  }

  /** Paths that name one place and nothing else: keys, and indices from the front. */
  predicate Canonical(path: seq<Tok>) {
    forall i :: 0 <= i < |path| ==> !path[i].Append? && (path[i].Index? ==> path[i].idx >= 0)
  }

  /** The canonical name of the place that a set of `path` writes. */
  function Target(t: Tree, path: seq<Tok>): seq<Tok>
    requires path != []
    decreases |path|
  {
    match path[0]
    case Key(name) =>
      if |path| == 1 then path
      else
        var k := if t.Obj? then Find(t.fields, name) else 0;
        [path[0]] + Target(if t.Obj? && k < |t.fields| then t.fields[k].value else Container(path[1]), path[1..])
    case Append => [Index(if t.Arr? then |t.items| else 0)]
    case Index(idx) =>
      [Index(if t.Arr? && Element(|t.items|, idx).Some? then Element(|t.items|, idx).value else 0)]
  }

  lemma {:induction false} FindReplaced(fields: seq<Field>, k: nat, f: Field, name: string)
    requires k < |fields| && fields[k].name == f.name
    ensures Find(fields[k := f], name) == Find(fields, name)
  {
    assert forall j :: 0 <= j < |fields| ==> fields[k := f][j].name == fields[j].name;
  }

  lemma {:induction false} FindAdded(fields: seq<Field>, f: Field, name: string)
    ensures Find(fields, name) < |fields| ==> Find(fields + [f], name) == Find(fields, name)
    ensures Find(fields, name) == |fields| ==>
              Find(fields + [f], name) == |fields| + (if f.name == name then 0 else 1)
  {
    assert forall j :: 0 <= j < |fields| ==> (fields + [f])[j].name == fields[j].name;
    assert (fields + [f])[|fields|].name == f.name;
  }

  /** A string can be changed by nothing that walks into it. */
  lemma {:induction false} SetString(s: string, path: seq<Tok>, val: string)
    requires path != []
    ensures Set(Str(s), path, val).error.Some?
    ensures Set(Str(s), path, val).tree == Str(s)
  {
  }

  /** Reading a key of an object reads the rest of the path in the field of that name. */
  lemma {:induction false} ReadKey(t: Tree, q: seq<Tok>, k: nat)
    requires t.Obj? && q != [] && q[0].Key? && k == Find(t.fields, q[0].name)
    ensures Read(t, q) == if k < |t.fields| then Read(t.fields[k].value, q[1..]) else None
  {
  }

  lemma {:induction false} ReadString(s: string, q: seq<Tok>)
    ensures Read(Str(s), q) == if q == [] then Some(s) else None
  {
  }

  /** What an array reads as: its elements, by number. */
  lemma {:induction false} ReadElement(t: Tree, q: seq<Tok>)
    requires t.Arr? && Canonical(q)
    ensures Read(t, q) ==
            if |q| == 1 && q[0].Index? && q[0].idx < |t.items| then Some(t.items[q[0].idx]) else None
  {
    if q != [] && q[0].Index? && q[0].idx < |t.items| {
      ReadString(t.items[q[0].idx], q[1..]);
    }
  }

  lemma {:induction false} ReadPastString(t: Tree, q: seq<Tok>)
    requires t.Obj? && |q| > 1 && q[0].Key?
    requires var k := Find(t.fields, q[0].name); k < |t.fields| ==> t.fields[k].value.Str?
    ensures Read(t, q).None?
  {
    ReadKey(t, q, Find(t.fields, q[0].name));
  }

  lemma {:induction false} SetLastReads(t: Tree, last: Tok, val: string, q: seq<Tok>)
    requires Canonical(q)
    ensures Read(SetLast(t, last, val).tree, q) ==
            if SetLast(t, last, val).error.None? && q == Target(t, [last]) then Some(val) else Read(t, q)
  {
    if last.Key? && t.Obj? {
      FieldReads(t, last.name, Str(val), q);
      if q != [] && q[0] == last {
        ReadString(val, q[1..]);
        ReadKey(t, q, Find(t.fields, last.name));
        if SetLast(t, last, val).error.None? && |q| > 1 {
          ReadPastString(t, q);
        }
        assert |q| == 1 ==> q == [last];
      }
    } else if t.Arr? && !last.Key? {
      ReadElement(t, q);
      var u := SetLast(t, last, val);
      if u.error.None? {
        ReadElement(u.tree, q);
      }
    }
  }

  /** Replacing or adding the field a path starts with leaves the other fields to read as before. */
  lemma {:induction false} FieldReads(t: Tree, name: string, value: Tree, q: seq<Tok>)
    requires t.Obj?
    ensures var k := Find(t.fields, name);
            var u := if k == |t.fields| then Obj(t.fields + [Field(name, value)])
                     else Obj(t.fields[k := Field(name, value)]);
            Read(u, q) == if q != [] && q[0] == Key(name) then Read(value, q[1..]) else Read(t, q)
  {
    var k := Find(t.fields, name);
    var f := Field(name, value);
    if q != [] && q[0].Key? {
      if k == |t.fields| {
        FindAdded(t.fields, f, q[0].name);
        ReadKey(Obj(t.fields + [f]), q, Find(t.fields + [f], q[0].name));
      } else {
        FindReplaced(t.fields, k, f, q[0].name);
        ReadKey(Obj(t.fields[k := f]), q, Find(t.fields, q[0].name));
      }
      ReadKey(t, q, Find(t.fields, q[0].name));
    }
  }

  lemma {:induction false} SetKeyReads(t: Tree, path: seq<Tok>, val: string, q: seq<Tok>)
    requires |path| > 1 && path[0].Key? && t.Obj? && Canonical(q)
    ensures Read(Set(t, path, val).tree, q) ==
            if Set(t, path, val).error.None? && q == Target(t, path) then Some(val) else Read(t, q)
    decreases |path|, 0
  {
    var name := path[0].name;
    var k := Find(t.fields, name);
    var want := Container(path[1]);
    var child := if k == |t.fields| then want else t.fields[k].value;
    if SameKind(child, want) {
      var sub := Set(child, path[1..], val);
      FieldReads(t, name, sub.tree, q);
      if q != [] && q[0] == path[0] {
        SetReads(child, path[1..], val, q[1..]);
        assert q == [q[0]] + q[1..];
        ReadKey(t, q, k);
      } else {
        assert q != [path[0]] + Target(child, path[1..]);
      }
    }
  }

  /**
   * What a set does, seen through reading: a set that succeeds changes what exactly one
   * place reads as, and a set that fails changes nothing that can be read.
   */
  lemma {:induction false} SetReads(t: Tree, path: seq<Tok>, val: string, q: seq<Tok>)
    requires path != [] && Canonical(q)
    ensures Read(Set(t, path, val).tree, q) ==
            if Set(t, path, val).error.None? && q == Target(t, path) then Some(val) else Read(t, q)
    decreases |path|
  {
    if |path| == 1 {
      SetLastReads(t, path[0], val, q);
    } else if path[0].Index? && t.Arr? && Element(|t.items|, path[0].idx).Some? {
      SetString(t.items[Element(|t.items|, path[0].idx).value], path[1..], val);
    } else if path[0].Key? && t.Obj? {
      SetKeyReads(t, path, val, q);
    }
  }

  /** The path that reads back what a set of `path` wrote: what was appended is the last element. */
  function ReadBack(path: seq<Tok>): seq<Tok>
    requires path != []
  {
    if path[|path| - 1].Append? then path[..|path| - 1] + [Index(-1)] else path
  }

  /** A get after a successful set returns what was set. */
  lemma {:induction false} SetThenGet(t: Tree, path: seq<Tok>, val: string)
    requires path != [] && Set(t, path, val).error.None?
    ensures Get(Set(t, path, val).tree, ReadBack(path)) == Ok(Str(val))
    decreases |path|
  {
    hide Find;
    var u := Set(t, path, val).tree;
    if |path| == 1 {
      assert path == [path[0]];
      if path[0].Key? {
        var k, f := Find(t.fields, path[0].name), Field(path[0].name, Str(val));
        if k == |t.fields| {
          FindAdded(t.fields, f, path[0].name);
        } else {
          FindReplaced(t.fields, k, f, path[0].name);
        }
      }
    } else if path[0].Index? {
      SetString(t.items[Element(|t.items|, path[0].idx).value], path[1..], val);
    } else {
      var k := Find(t.fields, path[0].name);
      var child := if k == |t.fields| then Container(path[1]) else t.fields[k].value;
      SetThenGet(child, path[1..], val);
      var f := Field(path[0].name, Set(child, path[1..], val).tree);
      if k == |t.fields| {
        FindAdded(t.fields, f, path[0].name);
      } else {
        FindReplaced(t.fields, k, f, path[0].name);
      }
      assert ReadBack(path)[1..] == ReadBack(path[1..]);
    }
  }

  /** The names in an object, and in the objects inside it, are all different. */
  predicate Distinct(t: Tree) {
    t.Obj? ==>
      && (forall i, j :: 0 <= i < j < |t.fields| ==> t.fields[i].name != t.fields[j].name)
      && (forall i :: 0 <= i < |t.fields| ==> Distinct(t.fields[i].value))
  }

  /** Which path of the old tree reads what `q` reads once the place `p` is gone, if any does. */
  function Undeleted(p: seq<Tok>, q: seq<Tok>): Option<seq<Tok>>
    requires p != []
  {
    if |p| == 1 then
      if q == [] then Some(q)
      else if p[0].Index? && q[0].Index? then
        Some(if q[0].idx >= p[0].idx then [Index(q[0].idx + 1)] + q[1..] else q)
      else if p[0] == q[0] then None
      else Some(q)
    else if q == [] || q[0] != p[0] then Some(q)
    else
      match Undeleted(p[1..], q[1..])
      case None => None
      case Some(r) => Some([q[0]] + r)
  }

  lemma {:induction false} FindWithout(fields: seq<Field>, k: nat, name: string)
    requires k < |fields|
    requires forall i, j :: 0 <= i < j < |fields| ==> fields[i].name != fields[j].name
    ensures var f := Find(fields, name);
            Find(Without(fields, k), name) == if f == k then |fields| - 1 else if f < k then f else f - 1
  {
    var rest := Without(fields, k);
    assert forall j :: 0 <= j < k ==> rest[j] == fields[j];
    assert forall j :: k <= j < |rest| ==> rest[j] == fields[j + 1];
    var f, g := Find(fields, name), Find(rest, name);
    var at := if g < k then g else g + 1;
    assert at < |fields| ==> fields[at].name == name;
    if f < k {
      assert rest[f].name == name;
    } else if k < f < |fields| {
      assert rest[f - 1].name == name;
    }
  }

  lemma {:induction false} DeleteLastReads(t: Tree, last: Tok, q: seq<Tok>)
    requires Distinct(t) && Canonical(q) && Delete(t, [last]).error.None?
    ensures Read(Delete(t, [last]).tree, q) ==
            match Undeleted(Target(t, [last]), q) case None => None case Some(r) => Read(t, r)
  {
    var u := Delete(t, [last]).tree;
    if last.Index? {
      ReadElement(u, q);
      var k := Element(|t.items|, last.idx).value;
      assert Target(t, [last]) == [Index(k)];
      var r := Undeleted([Index(k)], q).value;
      ReadElement(t, r);
    } else if q != [] && q[0].Key? {
      var k := Find(t.fields, last.name);
      FindWithout(t.fields, k, q[0].name);
      ReadKey(t, q, Find(t.fields, q[0].name));
      ReadKey(u, q, Find(u.fields, q[0].name));
    }
  }

  /** What a delete does, seen through reading, and that a delete that fails does nothing. */
  lemma {:induction false} DeleteReads(t: Tree, path: seq<Tok>, q: seq<Tok>)
    requires path != [] && Distinct(t) && Canonical(q)
    ensures Delete(t, path).error.Some? ==> Delete(t, path).tree == t
    ensures Delete(t, path).error.None? ==>
              Read(Delete(t, path).tree, q) ==
              match Undeleted(Target(t, path), q) case None => None case Some(r) => Read(t, r)
    decreases |path|
  {
    if |path| == 1 {
      assert path == [path[0]];
      if Delete(t, path).error.None? {
        DeleteLastReads(t, path[0], q);
      }
    } else if path[0].Index? && t.Arr? && Element(|t.items|, path[0].idx).Some? {
      DeleteString(t.items[Element(|t.items|, path[0].idx).value], path[1..]);
    } else if path[0].Key? && t.Obj? && Find(t.fields, path[0].name) < |t.fields| {
      DeleteKeyReads(t, path, q);
    }
  }

  lemma {:induction false} DeleteString(s: string, path: seq<Tok>)
    requires path != []
    ensures Delete(Str(s), path).error.Some?
  {
  }

  lemma {:induction false} DeleteKeyReads(t: Tree, path: seq<Tok>, q: seq<Tok>)
    requires |path| > 1 && path[0].Key? && t.Obj? && Distinct(t) && Canonical(q)
    requires Find(t.fields, path[0].name) < |t.fields|
    ensures Delete(t, path).error.Some? ==> Delete(t, path).tree == t
    ensures Delete(t, path).error.None? ==>
              Read(Delete(t, path).tree, q) ==
              match Undeleted(Target(t, path), q) case None => None case Some(r) => Read(t, r)
    decreases |path|, 0
  {
    var k := Find(t.fields, path[0].name);
    var child := t.fields[k].value;
    var sub := Delete(child, path[1..]);
    FieldReads(t, path[0].name, sub.tree, q);
    if q != [] && q[0] == path[0] {
      DeleteReads(child, path[1..], q[1..]);
      var r := Undeleted(Target(child, path[1..]), q[1..]);
      assert Target(t, path)[1..] == Target(child, path[1..]);
      if r.Some? {
        ReadKey(t, [q[0]] + r.value, k);
        assert ([q[0]] + r.value)[1..] == r.value;
      }
    } else {
      DeleteReads(child, path[1..], []);
    }
    assert t.fields[k := t.fields[k]] == t.fields;
  }

  /**
   * An index from the front and the index from the end that name the same element of an array can
   * be used for each other in every operation.
   */
  lemma {:induction false} FromEnd(t: Tree, p: seq<Tok>, i: nat, rest: seq<Tok>, val: string)
    requires Get(t, p).Ok? && Get(t, p).value.Arr? && i < |Get(t, p).value.items|
    ensures var fromEnd := Index(i - |Get(t, p).value.items|);
            && Get(t, p + [Index(i)] + rest) == Get(t, p + [fromEnd] + rest)
            && Set(t, p + [Index(i)] + rest, val) == Set(t, p + [fromEnd] + rest, val)
            && Delete(t, p + [Index(i)] + rest) == Delete(t, p + [fromEnd] + rest)
    decreases |p|
  {
    var fromEnd := Index(i - |Get(t, p).value.items|);
    var a, b := p + [Index(i)] + rest, p + [fromEnd] + rest;
    if p == [] {
      assert a == [Index(i)] + rest && b == [fromEnd] + rest;
      assert a[1..] == b[1..] == rest;
    } else {
      assert a[1..] == p[1..] + [Index(i)] + rest && b[1..] == p[1..] + [fromEnd] + rest;
      assert a[0] == b[0] == p[0] && (a[1].Key? <==> b[1].Key?);
      if p[0].Key? {
        FromEnd(t.fields[Find(t.fields, p[0].name)].value, p[1..], i, rest, val);
      }
    }
  }

  const KEY_MAX := 128
  const DEPTH_MAX := 64

  predicate IsKeyStart(c: char) {
    'a' <= c <= 'z' || 'A' <= c <= 'Z' || c == '_'
  }

  predicate IsKeyChar(c: char) {
    IsKeyStart(c) || IsDigit(c)
  }

  predicate IsKey(name: string) {
    && 0 < |name| < KEY_MAX
    && IsKeyStart(name[0])
    && forall i :: 0 <= i < |name| ==> IsKeyChar(name[i])
  }

  /** What a C string holds: no character of it is NUL. */
  predicate IsCString(s: string) {
    forall i :: 0 <= i < |s| ==> s[i] != '\0'
  }

  predicate TokensOk(path: seq<Tok>) {
    forall i :: 0 <= i < |path| ==> path[i].Key? ==> IsKey(path[i].name)
  }

  /**
   * What every tree that the operations build satisfies: names are keys and differ within an object,
   * strings are C strings, and no path to a string has more than `depth` steps.
   */
  predicate Stored(t: Tree, depth: nat) {
    match t
    case Str(s) => IsCString(s)
    case Arr(items) => depth > 0 && forall i :: 0 <= i < |items| ==> IsCString(items[i])
    case Obj(fields) =>
      && depth > 0
      && (forall i, j :: 0 <= i < j < |fields| ==> fields[i].name != fields[j].name)
      && (forall i :: 0 <= i < |fields| ==> IsKey(fields[i].name) && Stored(fields[i].value, depth - 1))
  }

  lemma {:induction false} StoredIsDistinct(t: Tree, depth: nat)
    requires Stored(t, depth)
    ensures Distinct(t)
  {
    if t.Obj? {
      forall i | 0 <= i < |t.fields|
        ensures Distinct(t.fields[i].value)
      {
        StoredIsDistinct(t.fields[i].value, depth - 1);
      }
    }
  }

  lemma {:induction false} FieldStored(t: Tree, depth: nat, name: string, value: Tree)
    requires t.Obj? && Stored(t, depth) && IsKey(name) && Stored(value, depth - 1)
    ensures var k := Find(t.fields, name);
            Stored(if k == |t.fields| then Obj(t.fields + [Field(name, value)])
                   else Obj(t.fields[k := Field(name, value)]), depth)
  {
  }

  lemma {:induction false} SetStores(t: Tree, path: seq<Tok>, val: string, depth: nat)
    requires path != [] && Stored(t, depth) && TokensOk(path) && |path| <= depth && IsCString(val)
    ensures Stored(Set(t, path, val).tree, depth)
    decreases |path|
  {
    hide Find, IsCString, IsKey;
    if path[0].Key? && t.Obj? {
      var k := Find(t.fields, path[0].name);
      if |path| == 1 {
        FieldStored(t, depth, path[0].name, Str(val));
      } else {
        var child := if k == |t.fields| then Container(path[1]) else t.fields[k].value;
        SetStores(child, path[1..], val, depth - 1);
        FieldStored(t, depth, path[0].name, Set(child, path[1..], val).tree);
      }
    }
  }

  lemma {:induction false} DeleteStores(t: Tree, path: seq<Tok>, depth: nat)
    requires path != [] && Stored(t, depth) && TokensOk(path)
    ensures Stored(Delete(t, path).tree, depth)
    decreases |path|
  {
    if |path| > 1 && path[0].Key? && t.Obj? {
      var k := Find(t.fields, path[0].name);
      if k < |t.fields| {
        DeleteStores(t.fields[k].value, path[1..], depth - 1);
        FieldStored(t, depth, path[0].name, Delete(t.fields[k].value, path[1..]).tree);
      }
    }
  }
}
