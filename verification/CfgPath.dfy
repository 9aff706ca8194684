/** The path grammar of `cfg.c`: keys joined by dots, with `[n]`, `[-n]` and `[]` after them. */
module CfgPath {
  import opened Characters
  import opened CfgTree
  import opened Numerals

  const INT_MAX := 0x7fff_ffff

  /** A token and what is left of the path after it. */
  datatype Step = Step(tok: Tok, rest: string)

  /** How many characters of a key the text starts with. */
  function KeyRun(s: string): (n: nat)
    ensures n <= |s|
    ensures forall i :: 0 <= i < n ==> IsKeyChar(s[i])
    ensures n < |s| ==> !IsKeyChar(s[n])
  {
    if s == "" || !IsKeyChar(s[0]) then 0 else 1 + KeyRun(s[1..])
  }

  function DigitRun(s: string): (n: nat)
    ensures n <= |s|
    ensures Digits(s[..n])
    ensures n < |s| ==> !IsDigit(s[n])
  {
    if s == "" || !IsDigit(s[0]) then 0 else 1 + DigitRun(s[1..])
  }

  /** `parse_key_tok` */
  function ParseKey(s: string): Result<Step> {
    if s == "" || !IsKeyStart(s[0]) then Err(EINVAL)
    else if KeyRun(s) >= KEY_MAX then Err(E2BIG)
    else Ok(Step(Key(s[..KeyRun(s)]), s[KeyRun(s)..]))
  }

  /** The number in an index, after its sign, and what follows the closing bracket. */
  function ParseNumber(s: string, sign: int): Result<Step> {
    var n := DigitRun(s);
    if n == 0 || (s[0] == '0' && n > 1) then Err(EINVAL)
    else if n == |s| || s[n] != ']' then Err(EINVAL)
    else
      var idx := sign * Value(s[..n]);
      if -INT_MAX - 1 <= idx <= INT_MAX then Ok(Step(Index(idx), s[n + 1..])) else Err(EINVAL)
  }

  /** `parse_index_tok` */
  function ParseIndex(s: string): Result<Step> {
    if s == "" || s[0] != '[' then Err(EINVAL)
    else if |s| > 1 && s[1] == ']' then Ok(Step(Append, s[2..]))
    else if |s| > 1 && s[1] == '-' then ParseNumber(s[2..], -1)
    else ParseNumber(s[1..], 1)
  }

  function ParseStep(s: string): Result<Step>
    requires s != ""
  {
    if s[0] == '.' then ParseKey(s[1..])
    else ParseIndex(s)
  }

  /** The tokens after the first `n`. */
  function ParseSteps(s: string, n: nat): Result<seq<Tok>>
    decreases |s|
  {
    if s == "" then Ok([])
    else if n >= DEPTH_MAX then Err(E2BIG)
    else
      match ParseStep(s)
      case Err(e) => Err(e)
      case Ok(step) => After(step.tok, ParseSteps(step.rest, n + 1))
  }

  function After(tok: Tok, r: Result<seq<Tok>>): Result<seq<Tok>> {
    match r
    case Err(e) => Err(e)
    case Ok(toks) => Ok([tok] + toks)
  }

  /** `parse_path` */
  function ParsePath(s: string): Result<seq<Tok>> {
    if s == "" then Ok([])
    else
      match ParseKey(s)
      case Err(e) => Err(e)
      case Ok(step) => After(step.tok, ParseSteps(step.rest, 1))
  }

  /** How a token is written, after the first one. */
  function ShowStep(tok: Tok): string {
    match tok
    case Key(name) => "." + name
    case Append => "[]"
    case Index(idx) => "[" + (if idx < 0 then "-" + Decimal(-idx) else Decimal(idx)) + "]"
  }

  function ShowSteps(path: seq<Tok>): string {
    if path == [] then "" else ShowStep(path[0]) + ShowSteps(path[1..])
  }

  /** How a path is written. */
  function Show(path: seq<Tok>): string {
    if path == [] then ""
    else if path[0].Key? then path[0].name + ShowSteps(path[1..])
    else ShowSteps(path)
  }

  /** The paths that can be written: they start with a key, and their parts are within the limits. */
  predicate PathOk(path: seq<Tok>) {
    && |path| <= DEPTH_MAX
    && (path != [] ==> path[0].Key?)
    && forall i :: 0 <= i < |path| ==> TokOk(path[i])
  }

  predicate TokOk(tok: Tok) {
    && (tok.Key? ==> IsKey(tok.name))
    && (tok.Index? ==> -INT_MAX - 1 <= tok.idx <= INT_MAX)
  }

  /** What follows a token starts with no character that would belong to a key. */
  predicate Stops(rest: string) {
    rest == "" || !IsKeyChar(rest[0])
  }

  lemma {:induction false} KeyRunOf(name: string, rest: string)
    requires (forall i :: 0 <= i < |name| ==> IsKeyChar(name[i])) && Stops(rest)
    ensures KeyRun(name + rest) == |name|
  {
    if name == "" {
      assert name + rest == rest;
    } else {
      KeyRunOf(name[1..], rest);
      assert (name + rest)[1..] == name[1..] + rest;
    }
  }

  lemma {:induction false} DigitRunOf(digits: string, rest: string)
    requires Digits(digits) && rest != "" && rest[0] == ']'
    ensures DigitRun(digits + rest) == |digits|
  {
    if digits == "" {
      assert digits + rest == rest;
    } else {
      DigitRunOf(digits[1..], rest);
      assert (digits + rest)[1..] == digits[1..] + rest;
    }
  }

  lemma {:induction false} ParseKeyOf(name: string, rest: string)
    requires IsKey(name) && Stops(rest)
    ensures ParseKey(name + rest) == Ok(Step(Key(name), rest))
  {
    KeyRunOf(name, rest);
    assert (name + rest)[..|name|] == name && (name + rest)[|name|..] == rest;
    assert (name + rest)[0] == name[0];
  }

  lemma {:induction false} ParseNumberOf(n: nat, sign: int, rest: string)
    requires -INT_MAX - 1 <= sign * n <= INT_MAX
    ensures ParseNumber(Decimal(n) + "]" + rest, sign) == Ok(Step(Index(sign * n), rest))
  {
    ValueOfDecimal(n);
    NoLeadingZero(n);
    var s := Decimal(n) + ("]" + rest);
    assert Decimal(n) + "]" + rest == s;
    DigitRunOf(Decimal(n), "]" + rest);
    assert s[..|Decimal(n)|] == Decimal(n) && s[|Decimal(n)| + 1..] == rest;
    assert s[0] == Decimal(n)[0];
  }

  lemma {:induction false} ParseIndexOf(idx: int, rest: string)
    requires -INT_MAX - 1 <= idx <= INT_MAX
    ensures ParseIndex(ShowStep(Index(idx)) + rest) == Ok(Step(Index(idx), rest))
  {
    hide ParseNumber, Value, DigitRun, Decimal;
    var s := ShowStep(Index(idx)) + rest;
    if idx < 0 {
      ParseNumberOf(-idx, -1, rest);
      assert s[2..] == Decimal(-idx) + "]" + rest;
    } else {
      ParseNumberOf(idx, 1, rest);
      NoLeadingZero(idx);
      ValueOfDecimal(idx);
      assert s[1..] == Decimal(idx) + "]" + rest;
      assert s[1] == Decimal(idx)[0];
    }
  }

  lemma {:induction false} ParseAppendOf(rest: string)
    ensures ParseIndex("[]" + rest) == Ok(Step(Append, rest))
  {
    var s := "[]" + rest;
    assert s[0] == '[' && s[1] == ']' && s[2..] == rest;
  }

  lemma {:induction false} ParseStepOf(tok: Tok, rest: string)
    requires TokOk(tok) && Stops(rest)
    ensures ShowStep(tok) != "" && ParseStep(ShowStep(tok) + rest) == Ok(Step(tok, rest))
  {
    hide ParseIndex, ParseKey, Decimal;
    match tok
    case Key(name) =>
      ParseKeyOf(name, rest);
      assert ("." + name + rest)[1..] == name + rest;
    case Append =>
      ParseAppendOf(rest);
    case Index(idx) =>
      ParseIndexOf(idx, rest);
  }

  /** The ways a token is spelled: as it is shown, and zero with a sign. */
  predicate SpellsStep(tok: Tok, text: string) {
    text == ShowStep(tok) || (tok == Index(0) && text == "[-0]")
  }

  /** The text is the tokens, spelled one after the other. */
  predicate SpellsSteps(path: seq<Tok>, s: string)
    decreases |path|
  {
    if path == [] then s == ""
    else
      || (ShowStep(path[0]) <= s && SpellsSteps(path[1..], s[|ShowStep(path[0])|..]))
      || (path[0] == Index(0) && "[-0]" <= s && SpellsSteps(path[1..], s[4..]))
  }

  predicate Spells(path: seq<Tok>, s: string) {
    if path == [] then s == ""
    else path[0].Key? && path[0].name <= s && SpellsSteps(path[1..], s[|path[0].name|..])
  }

  lemma {:induction false} SpellsCons(path: seq<Tok>, text: string, rest: string)
    requires path != [] && SpellsStep(path[0], text) && SpellsSteps(path[1..], rest)
    ensures SpellsSteps(path, text + rest)
  {
    assert (text + rest)[|text|..] == rest;
    assert text <= text + rest;
  }

  lemma {:induction false} ParseKeyExact(s: string)
    requires ParseKey(s).Ok?
    ensures var step := ParseKey(s).value;
            step.tok.Key? && IsKey(step.tok.name) && s == step.tok.name + step.rest
  {
  }

  lemma {:induction false} ValuePositive(digits: string)
    requires Digits(digits) && |digits| > 0 && digits[0] != '0'
    ensures Value(digits) > 0
  {
    if |digits| > 1 {
      ValuePositive(digits[..|digits| - 1]);
    }
  }

  /** A numeral without leading zeros is the decimal form of its value. */
  lemma {:induction false} DecimalOfValue(digits: string)
    requires Digits(digits) && |digits| > 0 && (digits[0] == '0' ==> |digits| == 1)
    ensures Decimal(Value(digits)) == digits
  {
    var init, d := digits[..|digits| - 1], digits[|digits| - 1];
    if |digits| == 1 {
      assert init == [];
      assert Value(digits) == (d - '0') as nat;
    } else {
      ValuePositive(init);
      DecimalOfValue(init);
      var n := Value(digits);
      assert n / 10 == Value(init) && n % 10 == (d - '0') as nat;
    }
  }

  lemma {:induction false} ParseNumberExact(s: string, sign: int)
    requires ParseNumber(s, sign).Ok? && (sign == 1 || sign == -1)
    ensures var step := ParseNumber(s, sign).value;
            && TokOk(step.tok) && step.tok.Index? && sign * step.tok.idx >= 0
            && s == Decimal(sign * step.tok.idx) + "]" + step.rest
  {
    hide Decimal, Value, DigitRun;
    var n := DigitRun(s);
    assert s[..n][0] == s[0];
    DecimalOfValue(s[..n]);
    assert s == s[..n] + "]" + s[n + 1..];
  }

  lemma {:induction false} ParseIndexExact(s: string)
    requires ParseIndex(s).Ok?
    ensures var step := ParseIndex(s).value;
            TokOk(step.tok) && exists text :: SpellsStep(step.tok, text) && s == text + step.rest
  {
    hide ParseNumber, Decimal;
    var step := ParseIndex(s).value;
    if |s| > 1 && s[1] == ']' {
      assert s == ShowStep(Append) + step.rest;
    } else if |s| > 1 && s[1] == '-' {
      ParseNumberExact(s[2..], -1);
      var text := "[-" + Decimal(-step.tok.idx) + "]";
      assert s == text + step.rest;
      SpelledNegative(step.tok.idx);
    } else {
      ParseNumberExact(s[1..], 1);
      assert s == ShowStep(step.tok) + step.rest;
    }
  }

  lemma {:induction false} SpelledNegative(idx: int)
    requires idx <= 0
    ensures SpellsStep(Index(idx), "[-" + Decimal(-idx) + "]")
  {
    if idx == 0 {
      assert Decimal(0) == "0";
    } else {
      assert "[-" + Decimal(-idx) + "]" == "[" + ("-" + Decimal(-idx)) + "]";
    }
  }

  lemma {:induction false} ParseStepExact(s: string)
    requires s != "" && ParseStep(s).Ok?
    ensures |ParseStep(s).value.rest| < |s|
    ensures var step := ParseStep(s).value;
            TokOk(step.tok) && exists text :: SpellsStep(step.tok, text) && s == text + step.rest
  {
    hide ParseIndex, ParseKey;
    var step := ParseStep(s).value;
    if s[0] == '.' {
      ParseKeyExact(s[1..]);
      assert s == ShowStep(step.tok) + step.rest;
    } else {
      ParseIndexExact(s);
    }
  }

  lemma {:induction false} ParseStepsExact(s: string, n: nat)
    requires ParseSteps(s, n).Ok? && n <= DEPTH_MAX
    ensures var path := ParseSteps(s, n).value;
            n + |path| <= DEPTH_MAX && (forall i :: 0 <= i < |path| ==> TokOk(path[i])) && SpellsSteps(path, s)
    decreases |s|
  {
    hide ParseStep, TokOk, SpellsSteps, SpellsStep;
    if s == "" {
      SpellsNothing();
    } else {
      var step := ParseStep(s).value;
      var path := ParseSteps(s, n).value;
      ParseStepExact(s);
      var text :| SpellsStep(step.tok, text) && s == text + step.rest;
      ParseStepsExact(step.rest, n + 1);
      assert path[1..] == ParseSteps(step.rest, n + 1).value;
      SpellsCons(path, text, step.rest);
    }
  }

  lemma {:induction false} SpellsNothing()
    ensures SpellsSteps([], "")
  {
  }

  lemma {:induction false} SpelledStops(path: seq<Tok>, s: string)
    requires SpellsSteps(path, s)
    ensures Stops(s)
  {
  }

  lemma {:induction false} ParseMinusZero(rest: string)
    ensures ParseStep("[-0]" + rest) == Ok(Step(Index(0), rest))
  {
    ParseNumberOf(0, -1, rest);
    assert Decimal(0) == "0";
    assert ("[-0]" + rest)[2..] == Decimal(0) + "]" + rest;
  }

  lemma {:induction false} ParseSpelledStep(tok: Tok, text: string, rest: string)
    requires TokOk(tok) && SpellsStep(tok, text) && Stops(rest)
    ensures text + rest != "" && ParseStep(text + rest) == Ok(Step(tok, rest))
  {
    hide ParseStep, Stops, TokOk;
    if text == ShowStep(tok) {
      ParseStepOf(tok, rest);
    } else {
      ParseMinusZero(rest);
    }
  }

  lemma {:induction false} ParseSpelledSteps(path: seq<Tok>, s: string, n: nat)
    requires n + |path| <= DEPTH_MAX && SpellsSteps(path, s)
    requires forall i :: 0 <= i < |path| ==> TokOk(path[i])
    ensures ParseSteps(s, n) == Ok(path)
    decreases |path|
  {
    hide ParseStep, TokOk, SpellsStep, SpellsSteps, Stops;
    if path == [] {
      NothingSpelled(s);
    } else {
      var text, rest := FirstSpelled(path, s);
      SpelledStops(path[1..], rest);
      ParseSpelledStep(path[0], text, rest);
      ParseSpelledSteps(path[1..], rest, n + 1);
      assert [path[0]] + path[1..] == path;
    }
  }

  lemma {:induction false} NothingSpelled(s: string)
    requires SpellsSteps([], s)
    ensures s == ""
  {
  }

  lemma {:induction false} FirstSpelled(path: seq<Tok>, s: string) returns (text: string, rest: string)
    requires path != [] && SpellsSteps(path, s)
    ensures s == text + rest && SpellsStep(path[0], text) && SpellsSteps(path[1..], rest)
  {
    hide ShowStep;
    var plain := ShowStep(path[0]) <= s && SpellsSteps(path[1..], s[|ShowStep(path[0])|..]);
    text := if plain then ShowStep(path[0]) else "[-0]";
    rest := s[|text|..];
  }

  /** The paths that are accepted, and what they are read as: exactly the spellings of the paths within the limits. */
  lemma {:induction false} PathLanguage(s: string, path: seq<Tok>)
    ensures ParsePath(s) == Ok(path) <==> PathOk(path) && Spells(path, s)
  {
    hide ParseKey, TokOk, ParseSteps, SpellsSteps;
    if PathOk(path) && Spells(path, s) && path != [] {
      var rest := s[|path[0].name|..];
      SpelledStops(path[1..], rest);
      KeyIsKey(path[0]);
      ParseKeyOf(path[0].name, rest);
      assert s == path[0].name + rest;
      ParseSpelledSteps(path[1..], rest, 1);
      assert [path[0]] + path[1..] == path;
    }
    if ParsePath(s) == Ok(path) && s != "" {
      ParseKeyExact(s);
      var step := ParseKey(s).value;
      ParseStepsExact(step.rest, 1);
      KeyTokOk(step.tok);
      assert path[1..] == ParseSteps(step.rest, 1).value;
      assert s[|step.tok.name|..] == step.rest;
    }
  }

  lemma {:induction false} KeyIsKey(tok: Tok)
    requires TokOk(tok) && tok.Key?
    ensures IsKey(tok.name)
  {
  }

  lemma {:induction false} KeyTokOk(tok: Tok)
    requires tok.Key? && IsKey(tok.name)
    ensures TokOk(tok)
  {
  }

  lemma {:induction false} ShowSpells(path: seq<Tok>)
    ensures SpellsSteps(path, ShowSteps(path))
    decreases |path|
  {
    if path != [] {
      ShowSpells(path[1..]);
      SpellsCons(path, ShowStep(path[0]), ShowSteps(path[1..]));
    }
  }

  /** Every path within the limits can be written, and is read back from what is written. */
  lemma {:induction false} ParseAfterShow(path: seq<Tok>)
    requires PathOk(path)
    ensures ParsePath(Show(path)) == Ok(path)
  {
    if path != [] {
      ShowSpells(path[1..]);
      var s := Show(path);
      assert s[|path[0].name|..] == ShowSteps(path[1..]);
    }
    PathLanguage(Show(path), path);
  }

  /** A scan of one token from `p`: its result, and where the next token starts. */
  predicate Scanned(s: string, r: Result<Tok>, next: nat, spec: Result<Step>) {
    match spec
    case Err(e) => r == Err(e)
    case Ok(step) => r == Ok(step.tok) && next <= |s| && s[next..] == step.rest
  }

  lemma {:induction false} KeyRunAt(s: string, p: nat, q: nat)
    requires p <= q <= |s| && (forall i :: p <= i < q ==> IsKeyChar(s[i])) && (q < |s| ==> !IsKeyChar(s[q]))
    ensures KeyRun(s[p..]) == q - p
  {
    KeyRunOf(s[p..q], s[q..]);
    assert s[p..] == s[p..q] + s[q..];
  }

  lemma {:induction false} KeyRunFrom(s: string, p: nat, q: nat)
    requires p <= q <= |s| && (forall i :: p <= i < q ==> IsKeyChar(s[i]))
    ensures KeyRun(s[p..]) >= q - p
    decreases q - p
  {
    if p < q {
      KeyRunFrom(s, p + 1, q);
      assert s[p..][1..] == s[p + 1..];
    }
  }

  method ScanKey(s: string, p: nat) returns (r: Result<Tok>, next: nat)
    requires p <= |s|
    ensures Scanned(s, r, next, ParseKey(s[p..]))
  {
    hide KeyRun, IsKeyChar;
    next := p;
    if p == |s| || !IsKeyStart(s[p]) {
      return Err(EINVAL), p;
    }
    var key := "";
    while next < |s| && IsKeyChar(s[next])
      invariant p <= next <= |s| && key == s[p..next] && |key| < KEY_MAX
      invariant forall i :: p <= i < next ==> IsKeyChar(s[i])
    {
      if |key| + 1 >= KEY_MAX {
        KeyRunFrom(s, p, next + 1);
        return Err(E2BIG), next;
      }
      key := key + [s[next]];
      next := next + 1;
    }
    KeyRunAt(s, p, next);
    assert s[p..][next - p..] == s[next..] && s[p..][..next - p] == s[p..next];
    r := Ok(Key(key));
  }

  lemma {:induction false} DigitRunAt(s: string, p: nat, q: nat)
    requires p <= q <= |s| && Digits(s[p..q]) && (q < |s| ==> !IsDigit(s[q]))
    ensures DigitRun(s[p..]) == q - p
    decreases q - p
  {
    if p < q {
      assert s[p..q][0] == s[p];
      assert s[p + 1..q] == s[p..q][1..];
      DigitRunAt(s, p + 1, q);
      assert s[p..][1..] == s[p + 1..];
    }
  }

  /** The value of digits read from the left, as `strtol` reads them. */
  lemma {:induction false} ValueGrows(digits: string, d: char)
    requires Digits(digits) && IsDigit(d)
    ensures Digits(digits + [d]) && Value(digits + [d]) == 10 * Value(digits) + (d - '0') as nat
  {
    assert (digits + [d])[..|digits|] == digits;
  }

  method ScanDigits(s: string, p: nat) returns (value: nat, next: nat)
    requires p <= |s|
    ensures p <= next <= |s| && Digits(s[p..next]) && value == Value(s[p..next])
    ensures next < |s| ==> !IsDigit(s[next])
  {
    hide Value;
    value, next := 0, p;
    assert s[p..p] == "" && Value("") == 0 by { NoDigits(); }
    while next < |s| && IsDigit(s[next])
      invariant p <= next <= |s| && Digits(s[p..next]) && value == Value(s[p..next])
    {
      ValueGrows(s[p..next], s[next]);
      assert s[p..next + 1] == s[p..next] + [s[next]];
      value := 10 * value + (s[next] - '0') as nat;
      next := next + 1;
    }
  }

  lemma {:induction false} NoDigits()
    ensures Value("") == 0
  {
  }

  method ScanNumber(s: string, p: nat, negative: bool) returns (r: Result<Tok>, next: nat)
    requires p <= |s|
    ensures Scanned(s, r, next, ParseNumber(s[p..], if negative then -1 else 1))
  {
    hide Value, DigitRun;
    var value: int;
    value, next := ScanDigits(s, p);
    DigitRunAt(s, p, next);
    assert s[p..][..next - p] == s[p..next];
    if next == p || (s[p] == '0' && next > p + 1) || next == |s| || s[next] != ']' {
      return Err(EINVAL), p;
    }
    assert s[p..][next - p] == s[next] && s[p..][next - p + 1..] == s[next + 1..];
    var idx := if negative then -value else value;
    if idx < -INT_MAX - 1 || idx > INT_MAX {
      return Err(EINVAL), p;
    }
    r, next := Ok(Index(idx)), next + 1;
  }

  method ScanIndex(s: string, p: nat) returns (r: Result<Tok>, next: nat)
    requires p <= |s|
    ensures Scanned(s, r, next, ParseIndex(s[p..]))
  {
    hide ParseNumber;
    if p == |s| || s[p] != '[' {
      return Err(EINVAL), p;
    }
    if p + 1 < |s| && s[p + 1] == ']' {
      assert s[p..][2..] == s[p + 2..];
      return Ok(Append), p + 2;
    }
    if p + 1 < |s| && s[p + 1] == '-' {
      assert s[p..][2..] == s[p + 2..];
      r, next := ScanNumber(s, p + 2, true);
    } else {
      assert s[p..][1..] == s[p + 1..];
      r, next := ScanNumber(s, p + 1, false);
    }
  }

  method ScanStep(s: string, p: nat) returns (r: Result<Tok>, next: nat)
    requires p < |s|
    ensures Scanned(s, r, next, ParseStep(s[p..]))
  {
    hide ParseKey, ParseIndex;
    if s[p] == '.' {
      assert s[p..][1..] == s[p + 1..];
      r, next := ScanKey(s, p + 1);
    } else {
      r, next := ScanIndex(s, p);
    }
  }

  function Prepend(toks: seq<Tok>, r: Result<seq<Tok>>): Result<seq<Tok>> {
    match r
    case Err(e) => Err(e)
    case Ok(more) => Ok(toks + more)
  }

  lemma {:induction false} PrependAfter(toks: seq<Tok>, tok: Tok, r: Result<seq<Tok>>)
    ensures Prepend(toks, After(tok, r)) == Prepend(toks + [tok], r)
  {
    if r.Ok? {
      assert toks + ([tok] + r.value) == toks + [tok] + r.value;
    }
  }

  /** The loop of `parse_path` reads what the grammar says. */
  method ScanPath(s: string) returns (r: Result<seq<Tok>>)
    ensures r == ParsePath(s)
    ensures r.Ok? ==> PathOk(r.value) && Spells(r.value, s)
  {
    hide ParseKey, ParseStep, PathOk, Spells;
    if s == "" {
      EmptyPath();
      return Ok([]);
    }
    assert s[0..] == s;
    var first, p := ScanKey(s, 0);
    if first.Err? {
      return Err(first.error);
    }
    var toks := [first.value];
    while p < |s|
      invariant p <= |s|
      invariant ParsePath(s) == Prepend(toks, ParseSteps(s[p..], |toks|))
      decreases |s| - p
    {
      if |toks| >= DEPTH_MAX {
        return Err(E2BIG);
      }
      var tok, next := ScanStep(s, p);
      if tok.Err? {
        return Err(tok.error);
      }
      ParseStepExact(s[p..]);
      PrependAfter(toks, tok.value, ParseSteps(s[next..], |toks| + 1));
      toks, p := toks + [tok.value], next;
    }
    assert toks + [] == toks;
    r := Ok(toks);
    PathLanguage(s, toks);
  }

  lemma {:induction false} EmptyPath()
    ensures ParsePath("") == Ok([]) && PathOk([]) && Spells([], "")
  {
  }
}
