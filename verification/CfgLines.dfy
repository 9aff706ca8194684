/**
 The lines of a configuration file, in all the ways they can be spelled: with blanks and comments, and with values that
 are quoted or bare.
 */
module CfgLines {
  import opened Wrappers
  import opened Characters
  import opened CfgTree
  import opened CfgPath
  import opened CfgDump
  import opened CfgText

  predicate Blanks(s: string) {
    forall i :: 0 <= i < |s| ==> IsBlank(s[i])
  }

  /** There is no blank at either end. */
  predicate Tight(s: string) {
    s == "" || (!IsBlank(s[0]) && !IsBlank(s[|s| - 1]))
  }

  // What is left of a text without its blanks.

  lemma BlanksJoin(a: string, b: string)
    requires Blanks(a) && Blanks(b)
    ensures Blanks(a + b)
  {
  }

  lemma {:induction false} TrimLeftOf(a: string, s: string)
    requires Blanks(a)
    ensures TrimLeft(a + s) == TrimLeft(s)
  {
    if a == "" {
      assert a + s == s;
    } else {
      TrimLeftOf(a[1..], s);
      assert (a + s)[1..] == a[1..] + s;
    }
  }

  lemma {:induction false} TrimRightOf(s: string, b: string)
    requires Blanks(b)
    ensures TrimRight(s + b) == TrimRight(s)
    decreases |b|
  {
    if b == "" {
      assert s + b == s;
    } else {
      TrimRightOf(s, b[..|b| - 1]);
      assert (s + b)[..|s + b| - 1] == s + b[..|b| - 1];
    }
  }

  /** Nothing is taken from before a character that is not blank. */
  lemma {:induction false} TrimRightAfter(a: string, b: string)
    requires a != "" && !IsBlank(a[|a| - 1])
    ensures TrimRight(a + b) == a + TrimRight(b)
    decreases |b|
  {
    if b == "" {
      assert a + b == a;
    } else if IsBlank(b[|b| - 1]) {
      TrimRightAfter(a, b[..|b| - 1]);
      assert (a + b)[..|a + b| - 1] == a + b[..|b| - 1];
    }
  }

  lemma {:induction false} TrimOf(a: string, s: string, b: string)
    requires Blanks(a) && Blanks(b) && Tight(s)
    ensures Trim(a + s + b) == s
  {
    assert a + s + b == a + (s + b);
    TrimLeftOf(a, s + b);
    if s == "" {
      assert s + b == b + "";
      TrimLeftOf(b, "");
    } else {
      TrimRightOf(s, b);
    }
  }

  /** Every text is something tight between blanks. */
  lemma {:induction false} Parted(s: string) returns (a: string, b: string)
    ensures Blanks(a) && Blanks(b) && Tight(Trim(s)) && s == a + Trim(s) + b
  {
    a := LeftPart(s);
    var rest := TrimLeft(s);
    b := RightPart(rest);
    RightTight(rest);
    assert s == a + (Trim(s) + b);
  }

  lemma {:induction false} LeftPart(s: string) returns (a: string)
    ensures Blanks(a) && s == a + TrimLeft(s) && (TrimLeft(s) != "" ==> !IsBlank(TrimLeft(s)[0]))
  {
    if s != "" && IsBlank(s[0]) {
      var rest := LeftPart(s[1..]);
      a := [s[0]] + rest;
      var left := TrimLeft(s[1..]);
      assert s == [s[0]] + (rest + left) == a + left;
    } else {
      a := "";
    }
  }

  lemma {:induction false} RightPart(s: string) returns (b: string)
    ensures Blanks(b) && s == TrimRight(s) + b && (TrimRight(s) != "" ==> !IsBlank(TrimRight(s)[|TrimRight(s)| - 1]))
    decreases |s|
  {
    if s != "" && IsBlank(s[|s| - 1]) {
      var rest := RightPart(s[..|s| - 1]);
      b := rest + [s[|s| - 1]];
      var left := TrimRight(s[..|s| - 1]);
      assert s == (left + rest) + [s[|s| - 1]] == left + b;
    } else {
      b := "";
    }
  }

  lemma {:induction false} RightTight(s: string)
    requires s != "" ==> !IsBlank(s[0])
    ensures Tight(TrimRight(s))
  {
    var b := RightPart(s);
    assert TrimRight(s) != "" ==> TrimRight(s)[0] == s[0];
  }

  lemma {:induction false} TrimTwice(s: string)
    ensures Trim(Trim(s)) == Trim(s)
  {
    var a, b := Parted(s);
    TrimOf("", Trim(s), "");
    assert "" + Trim(s) + "" == Trim(s);
  }

  /** It does not matter whether the right end is trimmed before. */
  lemma {:induction false} TrimRightFirst(s: string)
    ensures Trim(TrimRight(s)) == Trim(s)
  {
    var a, b := Parted(s);
    var core := Trim(s);
    if core == "" {
      assert s == "" + (a + b);
      TrimRightOf("", a + b);
    } else {
      TrimRightOf(a + core, b);
      TrimRightAfter(a + core, "");
      assert a + core + "" == a + core;
      TrimOf(a, core, "");
    }
  }

  // Values.

  /** A character between quotes, as it is or after a backslash. */
  datatype Piece = Literal(c: char) | Backslash(c: char)

  predicate PieceOk(p: Piece) {
    p.Literal? ==> p.c != '"' && p.c != '\\'
  }

  function PieceText(p: Piece): string {
    if p.Literal? then [p.c] else ['\\', p.c]
  }

  /** After a backslash `n` is a new line, `t` a tab, and everything else itself. */
  function PieceValue(p: Piece): char {
    if p == Backslash('n') then '\n' else if p == Backslash('t') then '\t' else p.c
  }

  function PiecesText(ps: seq<Piece>): string {
    if ps == [] then "" else PieceText(ps[0]) + PiecesText(ps[1..])
  }

  function PiecesValue(ps: seq<Piece>): string {
    if ps == [] then "" else [PieceValue(ps[0])] + PiecesValue(ps[1..])
  }

  /** How a string is written: as it is, or between quotes. */
  datatype Spelling = Bare(val: string) | Quotation(pieces: seq<Piece>)

  predicate SpellingOk(s: Spelling) {
    match s
    case Bare(val) => Tight(val) && '#' !in val && (val != "" ==> val[0] != '"')
    case Quotation(pieces) => forall i :: 0 <= i < |pieces| ==> PieceOk(pieces[i])
  }

  function SpellingText(s: Spelling): string {
    match s
    case Bare(val) => val
    case Quotation(pieces) => "\"" + PiecesText(pieces) + "\""
  }

  /** The string that is written. */
  function Meaning(s: Spelling): string {
    match s
    case Bare(val) => val
    case Quotation(pieces) => PiecesValue(pieces)
  }

  predicate CommentOk(s: string) {
    s == "" || s[0] == '#'
  }

  lemma {:induction false} UnquotePieces(ps: seq<Piece>, rest: string)
    requires forall i :: 0 <= i < |ps| ==> PieceOk(ps[i])
    ensures Unquote(PiecesText(ps) + ("\"" + rest)) == Ok(Quoted(PiecesValue(ps), rest))
  {
    var s := PiecesText(ps) + ("\"" + rest);
    if ps == [] {
      assert s == "\"" + rest && s[1..] == rest;
    } else {
      UnquotePieces(ps[1..], rest);
      var more := PiecesText(ps[1..]) + ("\"" + rest);
      assert s == PieceText(ps[0]) + more;
      UnquotePiece(ps[0], more);
    }
  }

  lemma {:induction false} UnquotePiece(p: Piece, more: string)
    requires PieceOk(p)
    ensures Unquote(PieceText(p) + more) == Consed(PieceValue(p), Unquote(more))
  {
    var s := PieceText(p) + more;
    if p.Backslash? {
      assert s[0] == '\\' && s[1] == p.c && s[2..] == more;
    } else {
      assert s[0] == p.c && s[1..] == more;
    }
  }

  lemma {:induction false} PiecesOf(s: string) returns (ps: seq<Piece>)
    requires Unquote(s).Ok?
    ensures forall i :: 0 <= i < |ps| ==> PieceOk(ps[i])
    ensures s == PiecesText(ps) + ("\"" + Unquote(s).value.rest) && PiecesValue(ps) == Unquote(s).value.val
    decreases |s|
  {
    hide PiecesText, PiecesValue, PieceText, PieceValue;
    if s[0] == '"' {
      ps := [];
      NoPieces();
      assert s == "\"" + s[1..];
    } else {
      var p, more := PieceOf(s);
      var rest := PiecesOf(more);
      ps := [p] + rest;
      PiecesMore(p, rest);
      assert s == PieceText(p) + PiecesText(rest) + ("\"" + Unquote(s).value.rest);
    }
  }

  lemma NoPieces()
    ensures PiecesText([]) == "" && PiecesValue([]) == ""
  {
  }

  lemma {:induction false} PiecesMore(p: Piece, rest: seq<Piece>)
    ensures PiecesText([p] + rest) == PieceText(p) + PiecesText(rest)
    ensures PiecesValue([p] + rest) == [PieceValue(p)] + PiecesValue(rest)
  {
    assert ([p] + rest)[1..] == rest;
  }

  /** The first piece of a quotation. */
  lemma {:induction false} PieceOf(s: string) returns (p: Piece, more: string)
    requires Unquote(s).Ok? && s[0] != '"'
    ensures PieceOk(p) && s == PieceText(p) + more && |more| < |s| && Unquote(more).Ok?
    ensures Unquote(s) == Consed(PieceValue(p), Unquote(more))
  {
    p := if s[0] == '\\' then Backslash(s[1]) else Literal(s[0]);
    more := if s[0] == '\\' then s[2..] else s[1..];
    assert s == PieceText(p) + more;
  }

  lemma {:induction false} IndexOfNone(s: string, c: char)
    requires c !in s
    ensures IndexOf(s, c) == |s|
  {
    var n := IndexOf(s, c);
    assert n == |s| || c in s;
  }

  /** A value without its leading blanks, trimmed. */
  lemma {:induction false} ValueTrimmed(lead: string, text: string, trail: string, comment: string)
    requires Blanks(lead) && Blanks(trail) && Tight(text) && CommentOk(comment)
    ensures Trim(lead + (text + (trail + comment))) ==
            if comment == "" then text
            else if text == "" then TrimRight(comment) else text + (trail + TrimRight(comment))
  {
    hide Trim, TrimRight, TrimLeft;
    var all := lead + (text + (trail + comment));
    if comment == "" {
      assert all == lead + text + trail;
      TrimOf(lead, text, trail);
    } else if text == "" {
      assert all == (lead + trail) + comment;
      BlanksJoin(lead, trail);
      CommentAlone(lead + trail, comment);
    } else {
      CommentAfter(lead, text + trail, comment);
      assert all == lead + (text + trail + comment);
      assert text + trail + TrimRight(comment) == text + (trail + TrimRight(comment));
    }
  }

  lemma {:induction false} CommentAlone(lead: string, comment: string)
    requires Blanks(lead) && comment != "" && comment[0] == '#'
    ensures Trim(lead + comment) == TrimRight(comment)
  {
    hide TrimRight;
    TrimLeftOf(lead, comment);
  }

  lemma {:induction false} CommentAfter(lead: string, text: string, comment: string)
    requires Blanks(lead) && text != "" && !IsBlank(text[0]) && comment != "" && comment[0] == '#'
    ensures Trim(lead + (text + comment)) == text + TrimRight(comment)
  {
    hide TrimRight;
    TrimLeftOf(lead, text + comment);
    var rest := comment[1..];
    assert comment == "#" + rest && text + comment == text + "#" + rest;
    TrimRightAfter(text + "#", rest);
    TrimRightAfter("#", rest);
    assert text + "#" + TrimRight(rest) == text + ("#" + TrimRight(rest));
  }

  lemma {:induction false} CommentTrimmed(comment: string)
    requires comment != "" && comment[0] == '#'
    ensures TrimRight(comment) != "" && TrimRight(comment)[0] == '#'
  {
    assert comment == "#" + comment[1..];
    TrimRightAfter("#", comment[1..]);
  }

  lemma {:induction false} BareRead(lead: string, val: string, trail: string, comment: string)
    requires Blanks(lead) && Blanks(trail) && SpellingOk(Bare(val)) && CommentOk(comment)
    ensures ParseValue(lead + (val + (trail + comment))) == Ok(val)
  {
    hide ParseValue, IndexOf, Trim, TrimRight, Blanks;
    ValueTrimmed(lead, val, trail, comment);
    var t := lead + (val + (trail + comment));
    TightTrimmed(val);
    if comment == "" {
      IndexOfNone(val, '#');
      assert val[..|val|] == val;
      BareParsed(t, |val|, val);
    } else {
      CommentTrimmed(comment);
      var front := if val == "" then "" else val + trail;
      NoHash(val, trail);
      FrontOfComment(front, TrimRight(comment));
      if val != "" {
        BlanksAfter(val, trail);
        assert val + (trail + TrimRight(comment)) == front + TrimRight(comment);
      } else {
        assert front + TrimRight(comment) == TrimRight(comment);
      }
      assert '"' != '#';
      BareParsed(t, |front|, val);
    }
  }

  lemma {:induction false} NoHash(val: string, trail: string)
    requires '#' !in val && Blanks(trail)
    ensures '#' !in val + trail
  {
  }

  lemma {:induction false} BareParsed(t: string, n: nat, val: string)
    requires Trim(t) != "" ==> Trim(t)[0] != '"' && IndexOf(Trim(t), '#') == n && Trim(Trim(t)[..n]) == val
    requires Trim(t) == "" ==> val == ""
    ensures ParseValue(t) == Ok(val)
  {
    hide Trim, IndexOf, Unquote;
  }

  lemma {:induction false} TightTrimmed(s: string)
    requires Tight(s)
    ensures Trim(s) == s
  {
    hide Trim;
    TrimOf("", s, "");
    assert "" + s + "" == s;
  }

  lemma {:induction false} BlanksAfter(s: string, b: string)
    requires Tight(s) && Blanks(b)
    ensures Trim(s + b) == s
  {
    hide Trim;
    TrimOf("", s, b);
    assert "" + s + b == s + b;
  }

  lemma {:induction false} FrontOfComment(front: string, c: string)
    requires c != "" && c[0] == '#' && '#' !in front
    ensures IndexOf(front + c, '#') == |front| && (front + c)[..|front|] == front
    ensures front + c != "" && (front + c)[0] == if front == "" then '#' else front[0]
  {
    hide IndexOf;
    assert front + c == front + ['#'] + c[1..];
    IndexOfIn(front, '#', c[1..]);
  }

  lemma {:induction false} QuotationRead(lead: string, ps: seq<Piece>, trail: string, comment: string)
    requires Blanks(lead) && Blanks(trail) && SpellingOk(Quotation(ps)) && CommentOk(comment)
    ensures ParseValue(lead + (SpellingText(Quotation(ps)) + (trail + comment))) == Ok(PiecesValue(ps))
  {
    hide ParseValue, Trim, TrimRight, PiecesText, PiecesValue, Blanks;
    var text := SpellingText(Quotation(ps));
    ValueTrimmed(lead, text, trail, comment);
    var rest := if comment == "" then "" else trail + TrimRight(comment);
    RestTrimmed(trail, comment);
    assert text + rest == "\"" + (PiecesText(ps) + ("\"" + rest));
    QuotedParsed(lead + (text + (trail + comment)), ps, rest);
  }

  lemma {:induction false} QuotedParsed(t: string, ps: seq<Piece>, rest: string)
    requires Trim(t) == "\"" + (PiecesText(ps) + ("\"" + rest)) && CommentOk(Trim(rest))
    requires forall i :: 0 <= i < |ps| ==> PieceOk(ps[i])
    ensures ParseValue(t) == Ok(PiecesValue(ps))
  {
    hide Unquote, PiecesText, PiecesValue, Trim;
    assert Trim(t)[1..] == PiecesText(ps) + ("\"" + rest);
    UnquotePieces(ps, rest);
  }

  /** What follows a quotation is a comment, or nothing. */
  lemma {:induction false} RestTrimmed(trail: string, comment: string)
    requires Blanks(trail) && CommentOk(comment)
    ensures CommentOk(Trim(if comment == "" then "" else trail + TrimRight(comment)))
  {
    if comment != "" {
      CommentTrimmed(comment);
      TrimLeftOf(trail, TrimRight(comment));
      TrimRightIsTrimmed(comment);
    }
  }

  lemma {:induction false} TrimRightIsTrimmed(s: string)
    ensures TrimRight(TrimRight(s)) == TrimRight(s)
  {
    var b := RightPart(s);
  }

  /** A value is read as the string that is written, whatever blanks and comment follow it. */
  lemma {:induction false} SpellingRead(lead: string, s: Spelling, trail: string, comment: string)
    requires Blanks(lead) && Blanks(trail) && SpellingOk(s) && CommentOk(comment)
    ensures ParseValue(lead + (SpellingText(s) + (trail + comment))) == Ok(Meaning(s))
  {
    hide ParseValue, Blanks;
    match s
    case Bare(val) => BareRead(lead, val, trail, comment);
    case Quotation(ps) => QuotationRead(lead, ps, trail, comment);
  }

  /** And nothing else is read. */
  lemma {:induction false} SpellingOf(text: string) returns (lead: string, s: Spelling, trail: string, comment: string)
    requires ParseValue(text).Ok?
    ensures Blanks(lead) && Blanks(trail) && SpellingOk(s) && CommentOk(comment)
    ensures text == lead + (SpellingText(s) + (trail + comment))
  {
    hide Trim, Unquote, IndexOf, SpellingText, SpellingOk, Blanks;
    var src := Trim(text);
    var a, b := Parted(text);
    lead := a;
    if src == "" || src[0] != '"' {
      s, trail, comment := BareOf(src, b);
    } else {
      s, trail, comment := QuotationOf(src, b);
    }
    assert text == lead + (src + b);
  }

  lemma {:induction false} BareOf(src: string, b: string) returns (s: Spelling, trail: string, comment: string)
    requires Tight(src) && (src != "" ==> src[0] != '"') && Blanks(b)
    ensures Blanks(trail) && SpellingOk(s) && CommentOk(comment)
    ensures src + b == SpellingText(s) + (trail + comment)
  {
    hide Trim, SpellingOk, Blanks, IndexOf;
    var n := IndexOf(src, '#');
    var val, y := BareFront(src, n);
    s := Bare(val);
    if n == |src| {
      trail, comment := y + b, "";
      BlanksJoin(y, b);
      assert src == val + y;
    } else {
      trail, comment := y, src[n..] + b;
      assert src == (val + y) + src[n..];
    }
  }

  /** What comes before the comment. */
  lemma {:induction false} BareFront(src: string, n: nat) returns (val: string, y: string)
    requires n <= |src| && (src != "" ==> !IsBlank(src[0]) && src[0] != '"')
    requires forall i :: 0 <= i < n ==> src[i] != '#'
    ensures SpellingOk(Bare(val)) && Blanks(y) && src[..n] == val + y
  {
    hide Trim;
    var x;
    var front := src[..n];
    x, y := Parted(front);
    FrontTight(front, x);
    val := Trim(front);
    assert front == val + y;
    assert forall i :: 0 <= i < |val| ==> val[i] == src[i];
  }

  lemma {:induction false} QuotationOf(src: string, b: string) returns (s: Spelling, trail: string, comment: string)
    requires src != "" && src[0] == '"' && Blanks(b)
    requires Unquote(src[1..]).Ok? && CommentOk(Trim(Unquote(src[1..]).value.rest))
    ensures Blanks(trail) && SpellingOk(s) && CommentOk(comment)
    ensures src + b == SpellingText(s) + (trail + comment)
  {
    hide Trim, Unquote, PiecesText, PiecesValue, SpellingText;
    var ps := PiecesOf(src[1..]);
    var rest := Unquote(src[1..]).value.rest;
    s := Quotation(ps);
    QuotationText(src, ps, rest);
    trail, comment := RestOf(rest, b);
  }

  lemma {:induction false} QuotationText(src: string, ps: seq<Piece>, rest: string)
    requires src != "" && src[0] == '"' && src[1..] == PiecesText(ps) + ("\"" + rest)
    ensures src == SpellingText(Quotation(ps)) + rest
  {
    hide PiecesText;
    assert src == [src[0]] + src[1..];
  }

  /** What follows a quotation, as blanks and a comment. */
  lemma {:induction false} RestOf(rest: string, b: string) returns (trail: string, comment: string)
    requires Blanks(b) && CommentOk(Trim(rest))
    ensures Blanks(trail) && CommentOk(comment) && rest + b == trail + comment
  {
    hide Trim;
    var x, y := Parted(rest);
    if Trim(rest) == "" {
      trail, comment := x + y + b, "";
    } else {
      trail, comment := x, Trim(rest) + y + b;
    }
  }

  /** The front of a text that starts with no blank starts with none. */
  lemma {:induction false} FrontTight(front: string, x: string)
    requires Blanks(x) && x <= front && (front != "" ==> !IsBlank(front[0]))
    ensures x == ""
  {
  }

  /** What has been read of a quoted string, and what is read of the rest. */
  function Resumed(val: string, r: Result<Quoted>): Result<Quoted> {
    match r
    case Err(e) => Err(e)
    case Ok(q) => Ok(Quoted(val + q.val, q.rest))
  }

  lemma {:induction false} ResumedConsed(val: string, c: char, r: Result<Quoted>)
    ensures Resumed(val, Consed(c, r)) == Resumed(val + [c], r)
  {
    if r.Ok? {
      assert val + ([c] + r.value.val) == val + [c] + r.value.val;
    }
  }

  /** The loop of `parse_value` over a quoted string. */
  method ReadQuoted(s: string) returns (r: Result<Quoted>)
    ensures r == Unquote(s)
  {
    var val, i := "", 0;
    assert s[0..] == s;
    assert Unquote(s).Ok? ==> "" + Unquote(s).value.val == Unquote(s).value.val;
    while i < |s| && s[i] != '"'
      invariant 0 <= i <= |s| && Resumed(val, Unquote(s[i..])) == Unquote(s)
    {
      if s[i] == '\\' {
        if i + 1 == |s| {
          return Err(EINVAL);
        }
        assert s[i..][2..] == s[i + 2..] && s[i..][1] == s[i + 1];
        ResumedConsed(val, Unescape(s[i + 1]), Unquote(s[i + 2..]));
        val, i := val + [Unescape(s[i + 1])], i + 2;
      } else {
        assert s[i..][1..] == s[i + 1..];
        ResumedConsed(val, s[i], Unquote(s[i + 1..]));
        val, i := val + [s[i]], i + 1;
      }
    }
    if i == |s| {
      return Err(EINVAL);
    }
    assert s[i..][1..] == s[i + 1..] && val + "" == val;
    r := Ok(Quoted(val, s[i + 1..]));
  }

  /** The text is the value in this spelling, with blanks around it and perhaps a comment after it. */
  ghost predicate Writes(text: string, s: Spelling) {
    exists lead, trail, comment ::
      && Blanks(lead) && Blanks(trail) && CommentOk(comment)
      && text == lead + (SpellingText(s) + (trail + comment))
  }

  /** A value is read in each of its spellings, and nothing else is read. */
  lemma {:induction false} ValueLanguage(text: string)
    ensures forall s :: SpellingOk(s) && Writes(text, s) ==> ParseValue(text) == Ok(Meaning(s))
    ensures ParseValue(text).Ok? ==> exists s :: SpellingOk(s) && Writes(text, s)
  {
    hide ParseValue, SpellingOk, SpellingText, Meaning, Blanks, CommentOk;
    forall s | SpellingOk(s) && Writes(text, s)
      ensures ParseValue(text) == Ok(Meaning(s))
    {
      var lead, trail, comment :|
        && Blanks(lead) && Blanks(trail) && CommentOk(comment)
        && text == lead + (SpellingText(s) + (trail + comment));
      SpellingRead(lead, s, trail, comment);
    }
    if ParseValue(text).Ok? {
      var lead, s, trail, comment := SpellingOf(text);
      assert Writes(text, s);
    }
  }

  /** `parse_value` */
  method ReadValue(text: string) returns (r: Result<string>)
    ensures r == ParseValue(text)
    ensures forall s :: SpellingOk(s) && Writes(text, s) ==> r == Ok(Meaning(s))
    ensures r.Ok? ==> exists s :: SpellingOk(s) && Writes(text, s)
  {
    hide Unquote, SpellingOk, Writes, Meaning, SpellingText;
    ValueLanguage(text);
    var src := Trim(text);
    if src == "" {
      return Ok("");
    }
    if src[0] != '"' {
      return Ok(Trim(src[..IndexOf(src, '#')]));
    }
    var q := ReadQuoted(src[1..]);
    if q.Err? {
      return Err(q.error);
    }
    var after := Trim(q.value.rest);
    r := if after != "" && after[0] != '#' then Err(EINVAL) else Ok(q.value.val);
  }

  // Lines.

  /** `lead key gap = space value trail comment` */
  datatype Entry = Entry(lead: string, path: seq<Tok>, gap: string, space: string, value: Spelling, trail: string,
                         comment: string)

  predicate EntryOk(e: Entry) {
    && Blanks(e.lead) && Blanks(e.gap) && Blanks(e.space) && Blanks(e.trail)
    && e.path != [] && PathOk(e.path) && FilePath(e.path) && SpellingOk(e.value) && CommentOk(e.comment)
  }

  function EntryText(e: Entry): string {
    e.lead + (Show(e.path) + e.gap + ['='] + (e.space + (SpellingText(e.value) + (e.trail + e.comment))))
  }

  /** A line that is blank, or a comment. */
  predicate IsRemark(line: string) {
    exists n :: 0 <= n <= |line| && Blanks(line[..n]) && CommentOk(line[n..])
  }

  /** A line that writes a string at a path sets it there, however it is spelled. */
  lemma {:induction false} LoadEntry(t: Tree, e: Entry)
    requires EntryOk(e)
    ensures LoadLine(t, EntryText(e)) == Set(t, e.path, Meaning(e.value))
  {
    hide Set, ParseValue, ParsePath, Show, IndexOf, SpellingOk, FilePath, SpellingText, Meaning;
    var key, value := Show(e.path), e.space + (SpellingText(e.value) + (e.trail + e.comment));
    EntryKey(e.path);
    var front := key + e.gap;
    var text := front + ['='] + TrimRight(value);
    EntryTrimmed(e, key, value);
    IndexOfIn(front, '=', TrimRight(value));
    assert text[..|front|] == front && text[|front| + 1..] == TrimRight(value);
    TrimOf("", key, e.gap);
    assert "" + key + e.gap == front;
    TrimRightFirst(value);
    ReadTrimmed(TrimRight(value));
    ReadTrimmed(value);
    SpellingRead(e.space, e.value, e.trail, e.comment);
    ParseAfterShow(e.path);
  }

  lemma {:induction false} ReadTrimmed(s: string)
    ensures ParseValue(Trim(s)) == ParseValue(s)
  {
    hide Unquote, Trim, IndexOf;
    TrimTwice(s);
  }

  lemma {:induction false} EntryTrimmed(e: Entry, key: string, value: string)
    requires Blanks(e.lead) && key != "" && !IsBlank(key[0])
    ensures Trim(e.lead + (key + e.gap + ['='] + value)) == key + e.gap + ['='] + TrimRight(value)
  {
    var front := key + e.gap + ['='];
    TrimLeftOf(e.lead, front + value);
    TrimRightAfter(front, value);
  }

  /** A path as a file has it: no blank, no `=` and no `#` in it. */
  lemma {:induction false} EntryKey(path: seq<Tok>)
    requires path != [] && PathOk(path) && FilePath(path)
    ensures Show(path) != "" && Tight(Show(path)) && IsKeyStart(Show(path)[0])
    ensures forall i :: 0 <= i < |Show(path)| ==> Show(path)[i] != '=' && Show(path)[i] != '#'
  {
    hide Show;
    ShowChars(path);
    var s := Show(path);
    assert PathChar(s[|s| - 1]) && PathChar(s[0]);
  }

  /** A remark changes nothing. */
  lemma {:induction false} LoadRemark(t: Tree, line: string)
    requires IsRemark(line)
    ensures LoadLine(t, line) == Done(t)
  {
    hide Set, ParseValue, ParsePath, IndexOf, Trim, Blanks;
    var n :| 0 <= n <= |line| && Blanks(line[..n]) && CommentOk(line[n..]);
    RemarkTrimmed(line[..n], line[n..]);
    assert line == line[..n] + line[n..];
  }

  lemma {:induction false} RemarkTrimmed(lead: string, comment: string)
    requires Blanks(lead) && CommentOk(comment)
    ensures Trim(lead + comment) == "" || Trim(lead + comment)[0] == '#'
  {
    hide Trim, TrimRight, Blanks;
    if comment == "" {
      TrimOf(lead, "", "");
      assert lead + "" + "" == lead + comment;
    } else {
      CommentAlone(lead, comment);
      CommentTrimmed(comment);
    }
  }

  /** In a file every path has one spelling. */
  lemma {:induction false} OneSpelling(path: seq<Tok>, s: string)
    requires path != [] && FilePath(path) && Spells(path, s)
    ensures s == Show(path)
  {
    StepsOneSpelling(path[1..], s[|path[0].name|..]);
  }

  lemma {:induction false} StepsOneSpelling(path: seq<Tok>, s: string)
    requires FilePath(path) && SpellsSteps(path, s)
    ensures s == ShowSteps(path)
    decreases |path|
  {
    if path != [] {
      StepsOneSpelling(path[1..], s[|ShowStep(path[0])|..]);
    }
  }

  /** A line that is accepted, whatever it is loaded into, is one that writes a string. */
  lemma {:induction false} EntryOf(t: Tree, line: string) returns (e: Entry)
    requires !IsRemark(line) && !(LoadLine(t, line).tree == t && LoadLine(t, line).error.Some?)
    ensures EntryOk(e) && EntryText(e) == line
  {
    hide Set, ParseValue, ParsePath, Show, IndexOf, Trim, SpellingOk, SpellingText, Blanks, PathOk, FilePath, Spells;
    var text := Trim(line);
    var a, b := Parted(line);
    NotRemark(line, a, b);
    var eq := IndexOf(text, '=');
    var path, y := KeyOf(text[..eq]);
    ReadTrimmed(text[eq + 1..]);
    ValueMore(text[eq + 1..], b);
    var lead, s, trail, comment := SpellingOf(text[eq + 1..] + b);
    e := Entry(a, path, y, lead, s, trail, comment);
    EntryParts(line, a, text, b, eq, Show(path), y);
  }

  lemma {:induction false} EntryParts(line: string, a: string, text: string, b: string, eq: nat, key: string, y: string)
    requires line == a + text + b && eq < |text| && text[eq] == '=' && text[..eq] == key + y
    ensures line == a + (key + y + ['='] + (text[eq + 1..] + b))
  {
    assert text == text[..eq] + ['='] + text[eq + 1..];
  }

  lemma {:induction false} KeyOf(s: string) returns (path: seq<Tok>, y: string)
    requires s != "" ==> !IsBlank(s[0])
    requires Trim(s) != "" && ParsePath(Trim(s)).Ok? && FilePath(ParsePath(Trim(s)).value)
    ensures path != [] && PathOk(path) && FilePath(path) && Blanks(y) && s == Show(path) + y
  {
    hide ParsePath, Show, Trim, PathOk, FilePath, SpellsSteps;
    var x;
    x, y := Parted(s);
    FrontTight(s, x);
    path := ParsePath(Trim(s)).value;
    PathLanguage(Trim(s), path);
    OneSpelling(path, Trim(s));
  }

  lemma {:induction false} NotRemark(line: string, a: string, b: string)
    requires !IsRemark(line) && Blanks(a) && Blanks(b) && line == a + Trim(line) + b
    ensures Trim(line) != "" && Trim(line)[0] != '#'
  {
    hide Trim;
    assert line[..|a|] == a && line[|a|..] == Trim(line) + b;
    assert Trim(line) == "" ==> Blanks(line[..|line|]) && CommentOk(line[|line|..]);
    assert !CommentOk(line[|a|..]);
  }

  /** Blanks after a value make no difference. */
  lemma {:induction false} ValueMore(s: string, b: string)
    requires Blanks(b)
    ensures ParseValue(s + b) == ParseValue(s)
  {
    hide Unquote, IndexOf;
    var x, y := Parted(s);
    assert s + b == x + Trim(s) + (y + b);
    hide Trim;
    TrimOf(x, Trim(s), y + b);
  }

  /**
   What the lines of a file do: remarks change nothing, a line that writes a string sets it, in any of the spellings,
   and all other lines are refused and change nothing.
   */
  ghost predicate LineDoes(t: Tree, line: string, after: Outcome) {
    && (IsRemark(line) ==> after == Done(t))
    && (forall e :: EntryOk(e) && EntryText(e) == line ==>
                      e.path != [] && after == Set(t, e.path, Meaning(e.value)))
    && (!IsRemark(line) && !(exists e :: EntryOk(e) && EntryText(e) == line) ==> after.error.Some? && after.tree == t)
  }

  lemma {:induction false} LineLanguage(t: Tree, line: string)
    ensures LineDoes(t, line, LoadLine(t, line))
  {
    hide LoadLine, IsRemark, EntryText, Set, Meaning, SpellingOk, PathOk, FilePath, Blanks;
    if IsRemark(line) {
      LoadRemark(t, line);
    }
    forall e | EntryOk(e) && EntryText(e) == line
      ensures e.path != [] && LoadLine(t, line) == Set(t, e.path, Meaning(e.value))
    {
      LoadEntry(t, e);
    }
    if !IsRemark(line) && !(LoadLine(t, line).error.Some? && LoadLine(t, line).tree == t) {
      var e := EntryOf(t, line);
    }
  }

  // Files.

  /** A line of a file, and how many carriage returns come before its end. */
  datatype FileLine = Setting(entry: Entry, carriage: nat) | Remark(text: string, carriage: nat)

  function LineText(l: FileLine): string {
    match l
    case Setting(e, _) => EntryText(e)
    case Remark(text, _) => text
  }

  function Returns(n: nat): string {
    if n == 0 then "" else Returns(n - 1) + "\r"
  }

  function Written(l: FileLine): string {
    LineText(l) + Returns(l.carriage)
  }

  /** The line is one line, and its own text does not end as a line does. */
  predicate FileLineOk(l: FileLine) {
    && (match l case Setting(e, _) => EntryOk(e) case Remark(text, _) => IsRemark(text))
    && '\n' !in LineText(l) && (LineText(l) != "" ==> LineText(l)[|LineText(l)| - 1] != '\r')
  }

  /** The file, the last line of which may lack its end. */
  function FileText(lines: seq<FileLine>, ended: bool): string {
    if lines == [] then ""
    else if |lines| == 1 && !ended then Written(lines[0])
    else Written(lines[0]) + "\n" + FileText(lines[1..], ended)
  }

  /** The strings that lines set, in order. */
  function Settings(lines: seq<FileLine>): seq<Leaf> {
    if lines == [] then []
    else
      (match lines[0]
       case Setting(e, _) => [Leaf(e.path, Meaning(e.value))]
       case Remark(_, _) => []) + Settings(lines[1..])
  }

  predicate Fits(l: FileLine) {
    |Written(l)| <= 4094
  }

  /** The lines before the first that is too long. */
  function UpToLong(lines: seq<FileLine>): (r: seq<FileLine>)
    ensures r <= lines
  {
    if lines == [] || !Fits(lines[0]) then [] else [lines[0]] + UpToLong(lines[1..])
  }

  lemma {:induction false} ReturnsOnly(n: nat)
    ensures '\n' !in Returns(n) && |Returns(n)| == n
  {
    if n > 0 {
      ReturnsOnly(n - 1);
    }
  }

  lemma {:induction false} ReturnsGo(s: string, n: nat)
    requires s != "" ==> s[|s| - 1] != '\r' && s[|s| - 1] != '\n'
    ensures TrimEol(s + Returns(n)) == s
  {
    if n == 0 {
      assert s + Returns(0) == s;
    } else {
      ReturnsGo(s, n - 1);
      var all := s + Returns(n);
      assert all[|all| - 1] == '\r' && all[..|all| - 1] == s + Returns(n - 1);
    }
  }

  /** One line of a file that fits. */
  lemma {:induction false} LoadWritten(t: Tree, l: FileLine)
    requires FileLineOk(l)
    ensures TrimEol(Written(l)) == LineText(l) && '\n' !in Written(l)
    ensures LoadLine(t, LineText(l)) ==
            match l
            case Setting(e, _) => Set(t, e.path, Meaning(e.value))
            case Remark(_, _) => Done(t)
  {
    hide LoadLine, Set, EntryText, EntryOk, IsRemark, Meaning, TrimEol;
    ReturnsOnly(l.carriage);
    var text := LineText(l);
    assert text != "" ==> text[|text| - 1] in text;
    ReturnsGo(text, l.carriage);
    match l
    case Setting(e, _) => LoadEntry(t, e);
    case Remark(s, _) => LoadRemark(t, s);
  }

  /** The first line of a text. */
  lemma {:induction false} FirstOfText(t: Tree, line: string, rest: string, ended: bool)
    requires '\n' !in line && (!ended ==> rest == "" && line != "")
    ensures LoadText(t, if ended then line + "\n" + rest else line) ==
            if |line| > LINE_MAX then Err(E2BIG)
            else
              var r := LoadLine(t, TrimEol(line));
              match r.error case Some(e) => Err(e) case None => LoadText(r.tree, rest)
  {
    hide LoadLine, IndexOf, TrimEol;
    if ended {
      var text := line + "\n" + rest;
      IndexOfIn(line, '\n', rest);
      assert text[..|line|] == line && text[|line| + 1..] == rest;
    } else {
      IndexOfNone(line, '\n');
      assert line[..|line|] == line;
    }
  }

  function Then(r: Result<Tree>, lines: seq<FileLine>): Result<Tree> {
    match r
    case Err(e) => Err(e)
    case Ok(u) => if UpToLong(lines) == lines then Ok(u) else Err(E2BIG)
  }

  lemma {:induction false} UpToMore(lines: seq<FileLine>)
    requires lines != [] && Fits(lines[0])
    ensures UpToLong(lines) == [lines[0]] + UpToLong(lines[1..])
    ensures UpToLong(lines) == lines <==> UpToLong(lines[1..]) == lines[1..]
  {
    hide Fits;
    if UpToLong(lines[1..]) == lines[1..] {
      assert [lines[0]] + lines[1..] == lines;
    }
    assert ([lines[0]] + UpToLong(lines[1..]))[1..] == UpToLong(lines[1..]);
  }

  lemma {:induction false} SettingPath(l: FileLine)
    requires FileLineOk(l) && l.Setting?
    ensures l.entry.path != []
  {
  }

  /**
   A file whose lines are spelled in any of these ways loads as the strings that they write, in order, up to the first
   line that is too long for the buffer.
   */
  lemma {:induction false} FileLoads(t: Tree, lines: seq<FileLine>, ended: bool)
    requires forall i :: 0 <= i < |lines| ==> FileLineOk(lines[i])
    ensures LoadText(t, FileText(lines, ended)) == Then(Load(t, Settings(UpToLong(lines))), lines)
    decreases |lines|
  {
    hide LoadLine, Set, FileLineOk, Written, TrimEol, LineText, LoadText, Meaning;
    if lines == [] {
      NoText(t);
    } else {
      var l, rest := lines[0], FileText(lines[1..], ended);
      LoadWritten(t, l);
      if |lines| == 1 && !ended && Written(l) == "" {
        NoText(t);
        OnlyLine(t, l, lines);
      } else {
        assert |lines| == 1 && !ended ==> lines[1..] == [] && rest == "";
        FirstOfText(t, Written(l), rest, |lines| > 1 || ended);
        if Fits(l) {
          UpToMore(lines);
          OneSetting(t, l, UpToLong(lines[1..]));
          var r := LoadLine(t, LineText(l));
          if r.error.None? {
            FileLoads(r.tree, lines[1..], ended);
          }
        }
      }
    }
  }

  lemma {:induction false} NoText(t: Tree)
    ensures LoadText(t, "") == Ok(t)
  {
  }

  lemma {:induction false} OneSetting(t: Tree, l: FileLine, rest: seq<FileLine>)
    requires FileLineOk(l)
    ensures Load(t, Settings([l] + rest)) ==
            match l
            case Setting(e, _) =>
              (var r := Set(t, e.path, Meaning(e.value));
               match r.error case Some(x) => Err(x) case None => Load(r.tree, Settings(rest)))
            case Remark(_, _) => Load(t, Settings(rest))
  {
    hide Set, FileLineOk, Meaning;
    assert ([l] + rest)[1..] == rest;
    match l
    case Setting(e, _) =>
      SettingPath(l);
      var leaf := Leaf(e.path, Meaning(e.value));
      assert ([leaf] + Settings(rest))[1..] == Settings(rest);
    case Remark(_, _) => assert [] + Settings(rest) == Settings(rest);
  }

  /** A last line without anything is no line. */
  lemma {:induction false} OnlyLine(t: Tree, l: FileLine, lines: seq<FileLine>)
    requires lines == [l] && Written(l) == "" && FileLineOk(l)
    ensures Then(Load(t, Settings(UpToLong(lines))), lines) == Ok(t)
  {
    hide Set, FileLineOk, EntryOk, Meaning;
    assert lines[1..] == [];
    UpToMore(lines);
    NotEmptySetting(l);
    OneSetting(t, l, []);
    assert [l] + [] == lines;
  }

  lemma {:induction false} NotEmptySetting(l: FileLine)
    requires FileLineOk(l) && Written(l) == ""
    ensures l.Remark?
  {
    hide EntryOk, IsRemark;
    ReturnsOnly(l.carriage);
  }

  /** The text is a file of these lines. */
  ghost predicate IsFile(text: string, lines: seq<FileLine>) {
    (forall i :: 0 <= i < |lines| ==> FileLineOk(lines[i])) && exists ended :: text == FileText(lines, ended)
  }

  lemma {:induction false} TextLoads(t: Tree, text: string)
    ensures forall lines :: IsFile(text, lines) ==> LoadText(t, text) == Then(Load(t, Settings(UpToLong(lines))), lines)
  {
    hide LoadText, Load, Settings, FileText, Then, FileLineOk;
    forall lines | IsFile(text, lines)
      ensures LoadText(t, text) == Then(Load(t, Settings(UpToLong(lines))), lines)
    {
      var ended :| text == FileText(lines, ended);
      FileLoads(t, lines, ended);
    }
  }

  /** The error and the store that a load ends with. */
  predicate Told(r: Result<Tree>, error: Option<Error>, after: Tree) {
    match r
    case Err(e) => error == Some(e)
    case Ok(t) => error.None? && after == t
  }

  lemma {:induction false} FileTold(t: Tree, text: string, error: Option<Error>, after: Tree)
    requires Told(LoadText(t, text), error, after)
    ensures forall lines :: IsFile(text, lines) ==>
                              Told(Then(Load(t, Settings(UpToLong(lines))), lines), error, after)
  {
    hide LoadText, Load, Settings, IsFile, Then, Told;
    TextLoads(t, text);
  }
}
