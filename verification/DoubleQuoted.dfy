/** Double-quoted scalars: how `emitter.c` writes them without line breaks, and how `scanner.c` reads them. */
module DoubleQuoted {
  import opened Utf8

  const QUOTE: Byte := 0x22
  const BACKSLASH: Byte := 0x5C
  const SPACE: Byte := 0x20

  /** UTF-8 text of Unicode scalar values. */
  predicate IsText(s: seq<Byte>)
    decreases |s|
  {
    s != [] ==> Complete(s) && WellFormed(s[..Width(s[0])]) && IsText(s[Width(s[0])..])
  }

  /** `IS_PRINTABLE` on a character. */
  predicate IsPrintable(c: seq<Byte>)
    requires WellFormed(c)
  {
    || c[0] == 0x0A || 0x20 <= c[0] <= 0x7E
    || (c[0] == 0xC2 && c[1] >= 0xA0)
    || 0xC2 < c[0] < 0xED
    || (c[0] == 0xED && c[1] < 0xA0)
    || c[0] == 0xEE
    || (c[0] == 0xEF && !(c[1] == 0xBB && c[2] == 0xBF) && !(c[1] == 0xBF && (c[2] == 0xBE || c[2] == 0xBF)))
  }

  /** `IS_BREAK` on a character. */
  predicate IsBreak(c: seq<Byte>) {
    || c == [0x0D] || c == [0x0A] || c == [0xC2, 0x85] || c == [0xE2, 0x80, 0xA8] || c == [0xE2, 0x80, 0xA9]
  }

  /** Whether a character is written as an escape sequence. */
  predicate IsEscaped(c: seq<Byte>, unicode: bool)
    requires WellFormed(c)
  {
    || !IsPrintable(c) || (!unicode && c[0] > 0x7F) || c == [0xEF, 0xBB, 0xBF] || IsBreak(c)
    || c == [QUOTE] || c == [BACKSLASH]
  }

  function HexDigit(d: nat): Byte
    requires d < 16
  {
    if d < 10 then 0x30 + d else 0x41 + (d - 10)
  }

  /** That many hexadecimal digits of a number. */
  function Hex(value: nat, n: nat): seq<Byte> {
    if n == 0 then [] else Hex(value / 16, n - 1) + [HexDigit(value % 16)]
  }

  /** The letter of the characters that have an escape sequence of their own. */
  function Letter(value: nat): (letter: Byte) {
    match value
    case 0x00 => 0x30
    case 0x07 => 0x61
    case 0x08 => 0x62
    case 0x09 => 0x74
    case 0x0A => 0x6E
    case 0x0B => 0x76
    case 0x0C => 0x66
    case 0x0D => 0x72
    case 0x1B => 0x65
    case 0x22 => 0x22
    case 0x5C => 0x5C
    case 0x85 => 0x4E
    case 0xA0 => 0x5F
    case 0x2028 => 0x4C
    case 0x2029 => 0x50
    case _ => 0
  }

  function Escape(value: nat): seq<Byte> {
    if Letter(value) != 0 then [BACKSLASH, Letter(value)]
    else if value <= 0xFF then [BACKSLASH, 0x78] + Hex(value, 2)
    else if value <= 0xFFFF then [BACKSLASH, 0x75] + Hex(value, 4)
    else [BACKSLASH, 0x55] + Hex(value, 8)
  }

  function WriteChar(c: seq<Byte>, unicode: bool): seq<Byte>
    requires WellFormed(c)
  {
    if IsEscaped(c, unicode) then Escape(Scalar(c)) else c
  }

  /** What `yaml_emitter_write_double_quoted_scalar` writes between the quotes. */
  function Write(s: seq<Byte>, unicode: bool): seq<Byte>
    requires IsText(s)
    decreases |s|
  {
    if s == [] then []
    else
      var w := Width(s[0]);
      WriteChar(s[..w], unicode) + Write(s[w..], unicode)
  }

  predicate IsHex(b: Byte) {
    0x30 <= b <= 0x39 || 0x41 <= b <= 0x46 || 0x61 <= b <= 0x66
  }

  function HexValue(b: Byte): nat
    requires IsHex(b)
  {
    if b >= 0x61 then b - 0x61 + 10 else if b >= 0x41 then b - 0x41 + 10 else b - 0x30
  }

  predicate AllHex(s: seq<Byte>) {
    forall i :: 0 <= i < |s| ==> IsHex(s[i])
  }

  function ParseHex(s: seq<Byte>): nat
    requires AllHex(s)
  {
    if s == [] then 0 else 16 * ParseHex(s[..|s| - 1]) + HexValue(s[|s| - 1])
  }

  /** The octets that a single letter after a backslash stands for. */
  function Named(letter: Byte): seq<Byte> {
    match letter
    case 0x30 => [0x00]
    case 0x61 => [0x07]
    case 0x62 => [0x08]
    case 0x74 => [0x09]
    case 0x09 => [0x09]
    case 0x6E => [0x0A]
    case 0x76 => [0x0B]
    case 0x66 => [0x0C]
    case 0x72 => [0x0D]
    case 0x65 => [0x1B]
    case 0x20 => [0x20]
    case 0x22 => [0x22]
    case 0x2F => [0x2F]
    case 0x5C => [0x5C]
    case 0x4E => [0xC2, 0x85]
    case 0x5F => [0xC2, 0xA0]
    case 0x4C => [0xE2, 0x80, 0xA8]
    case 0x50 => [0xE2, 0x80, 0xA9]
    case _ => []
  }

  /** How many hexadecimal digits follow a letter. */
  function CodeLength(letter: Byte): nat {
    if letter == 0x78 then 2 else if letter == 0x75 then 4 else if letter == 0x55 then 8 else 0
  }

  datatype Piece = Bad | Piece(bytes: seq<Byte>, length: nat)

  /** An escape sequence, and how many octets it takes. */
  function ReadEscape(t: seq<Byte>): Piece {
    if |t| < 2 then Bad
    else if Named(t[1]) != [] then Piece(Named(t[1]), 2)
    else
      var n := CodeLength(t[1]);
      if n == 0 || |t| < 2 + n || !AllHex(t[2..2 + n]) then Bad
      else
        var value := ParseHex(t[2..2 + n]);
        if 0xD800 <= value <= 0xDFFF || value > 0x10FFFF then Bad else Piece(Encode(value), 2 + n)
  }

  /** The text and what follows the closing quote; or that a line ends before it, and would be folded. */
  datatype Scanned = Failed | Folds | Scanned(text: seq<Byte>, rest: seq<Byte>)

  function Before(bytes: seq<Byte>, r: Scanned): Scanned {
    match r
    case Failed => Failed
    case Folds => Folds
    case Scanned(text, rest) => Scanned(bytes + text, rest)
  }

  /** A line ends here. */
  predicate BreakAt(t: seq<Byte>) {
    t != [] && Width(t[0]) <= |t| && IsBreak(t[..Width(t[0])])
  }

  /** What `yaml_parser_scan_flow_scalar` reads after the opening quote, up to the first line end. */
  function Read(t: seq<Byte>): Scanned
    decreases |t|
  {
    if t == [] || t[0] == 0 then Failed
    else if t[0] == QUOTE then Scanned([], t[1..])
    else if BreakAt(t) || (t[0] == BACKSLASH && BreakAt(t[1..])) then Folds
    else if t[0] == BACKSLASH then
      match ReadEscape(t)
      case Bad => Failed
      case Piece(bytes, n) => if n > |t| || n == 0 then Failed else Before(bytes, Read(t[n..]))
    else
      var w := Width(t[0]);
      if w == 0 || w > |t| then Failed else Before(t[..w], Read(t[w..]))
  }

  lemma {:induction false} HexRoundTrip(value: nat, n: nat)
    requires value < Pow16(n)
    ensures |Hex(value, n)| == n && AllHex(Hex(value, n)) && ParseHex(Hex(value, n)) == value
    decreases n
  {
    if n > 0 {
      HexRoundTrip(value / 16, n - 1);
      var h := Hex(value, n);
      assert h[..|h| - 1] == Hex(value / 16, n - 1);
    }
  }

  function Pow16(n: nat): nat {
    if n == 0 then 1 else 16 * Pow16(n - 1)
  }

  lemma {:induction false} Powers()
    ensures Pow16(2) == 0x100 && Pow16(4) == 0x1_0000 && Pow16(8) == 0x1_0000_0000
  {
    assert Pow16(1) == 16 by { assert Pow16(0) == 1; }
    assert Pow16(3) == 16 * Pow16(2) && Pow16(4) == 16 * Pow16(3);
    assert Pow16(6) == 16 * Pow16(5) && Pow16(5) == 16 * Pow16(4);
    assert Pow16(7) == 16 * Pow16(6) && Pow16(8) == 16 * Pow16(7);
  }

  /** The characters with a letter of their own are read back by it. */
  lemma {:induction false} LettersAgree(value: nat)
    requires Letter(value) != 0
    ensures value <= 0x10FFFF && Named(Letter(value)) == Encode(value)
  {
  }

  lemma {:induction false} NoName(letter: Byte)
    requires CodeLength(letter) > 0
    ensures Named(letter) == []
  {
  }

  lemma {:induction false} CodeReads(value: nat, letter: Byte, more: seq<Byte>)
    requires CodeLength(letter) > 0 && value < Pow16(CodeLength(letter))
    requires value <= 0x10FFFF && !(0xD800 <= value <= 0xDFFF)
    ensures var n := CodeLength(letter);
            |Hex(value, n)| == n && ReadEscape([BACKSLASH, letter] + Hex(value, n) + more) ==
              Piece(Encode(value), 2 + n)
  {
    hide Encode, Hex, ParseHex, Pow16, Named;
    var n := CodeLength(letter);
    HexRoundTrip(value, n);
    NoName(letter);
    var t := [BACKSLASH, letter] + Hex(value, n) + more;
    assert t[2..2 + n] == Hex(value, n) && t[1] == letter;
  }

  /** An escape sequence is read back as the character it was written for. */
  lemma {:induction false} EscapeReads(value: nat, more: seq<Byte>)
    requires value <= 0x10FFFF && !(0xD800 <= value <= 0xDFFF)
    ensures ReadEscape(Escape(value) + more) == Piece(Encode(value), |Escape(value)|)
    ensures |Escape(value)| >= 2 && Escape(value)[0] == BACKSLASH
  {
    hide Encode, Hex, Letter, Named, CodeLength, ReadEscape, Pow16;
    Powers();
    Codes();
    if Letter(value) != 0 {
      LettersAgree(value);
      NamedReads(value, more);
    } else if value <= 0xFF {
      CodeReads(value, 0x78, more);
    } else if value <= 0xFFFF {
      CodeReads(value, 0x75, more);
    } else {
      CodeReads(value, 0x55, more);
    }
  }

  lemma {:induction false} Codes()
    ensures CodeLength(0x78) == 2 && CodeLength(0x75) == 4 && CodeLength(0x55) == 8
  {
  }

  lemma {:induction false} NamedReads(value: nat, more: seq<Byte>)
    requires Letter(value) != 0 && value <= 0x10FFFF && Named(Letter(value)) == Encode(value)
    ensures ReadEscape([BACKSLASH, Letter(value)] + more) == Piece(Encode(value), 2)
  {
    hide Letter, Named;
    EncodeSome(value);
    assert ([BACKSLASH, Letter(value)] + more)[1] == Letter(value);
  }

  lemma {:induction false} EncodeSome(value: nat)
    requires value < 0x200000
    ensures Encode(value) != []
  {
  }

  /** A character that is written as it stands is none that means something between quotes. */
  lemma {:induction false} PlainChar(c: seq<Byte>, unicode: bool)
    requires WellFormed(c) && !IsEscaped(c, unicode)
    ensures c != [] && c[0] != 0 && c[0] != QUOTE && c[0] != BACKSLASH && 0 < |c| == Width(c[0]) && !IsBreak(c)
  {
    WellFormedWidth(c);
  }

  lemma {:induction false} EscapeIsOneLine(value: nat)
    ensures |Escape(value)| >= 2 && 0x20 < Escape(value)[1] < 0x7F
  {
    hide Hex;
  }

  lemma {:induction false} NoBreak(t: seq<Byte>)
    requires t != [] && 0x20 < t[0] < 0x7F
    ensures !BreakAt(t)
  {
    assert t[..1][0] == t[0];
  }

  /** One character, written and read back. */
  lemma {:induction false} CharReads(c: seq<Byte>, unicode: bool, more: seq<Byte>)
    requires WellFormed(c)
    ensures Read(WriteChar(c, unicode) + more) == Before(c, Read(more))
  {
    hide WellFormed, IsEscaped, Escape, ReadEscape, Scalar, Encode;
    var t := WriteChar(c, unicode) + more;
    if IsEscaped(c, unicode) {
      var v := Scalar(c);
      EncodeScalar(c);
      EscapeReads(v, more);
      EscapeIsOneLine(v);
      assert t[0] == Escape(v)[0] && t[1..][0] == Escape(v)[1] && t[|Escape(v)|..] == more;
      NoBreak(t);
      NoBreak(t[1..]);
    } else {
      PlainChar(c, unicode);
      assert t[0] == c[0] && t[..|c|] == c && t[|c|..] == more;
    }
  }

  // The escapes of section 5.7 of the YAML 1.1 specification, also those that are never written.

  const NAMES := "0abt\tnvfre \"/\\N_LP"

  const VALUES := [0, 7, 8, 9, 9, 10, 11, 12, 13, 27, 32, 34, 47, 92, 0x85, 0xA0, 0x2028, 0x2029]

  lemma {:induction false} NamesMean(k: nat)
    requires k < |NAMES|
    ensures |NAMES| == |VALUES| && 0 <= NAMES[k] as int < 256 && Named(NAMES[k] as int) == Encode(VALUES[k])
    ensures VALUES[k] < 0x200000 && CodeLength(NAMES[k] as int) == 0 && NAMES[k] != '\n' && NAMES[k] != '\r'
  {
  }

  lemma {:induction false} OnlyNames(letter: Byte)
    requires Named(letter) != []
    ensures exists k :: 0 <= k < |NAMES| && NAMES[k] as int == letter
  {
    assert
      || letter == NAMES[0] as int || letter == NAMES[1] as int || letter == NAMES[2] as int
      || letter == NAMES[3] as int || letter == NAMES[4] as int || letter == NAMES[5] as int
      || letter == NAMES[6] as int || letter == NAMES[7] as int || letter == NAMES[8] as int
      || letter == NAMES[9] as int || letter == NAMES[10] as int || letter == NAMES[11] as int
      || letter == NAMES[12] as int || letter == NAMES[13] as int || letter == NAMES[14] as int
      || letter == NAMES[15] as int || letter == NAMES[16] as int || letter == NAMES[17] as int;
  }

  /** After a backslash, each of the names is read as the character it stands for, and no other letter is a name. */
  lemma {:induction false} NameReads(k: nat, more: seq<Byte>)
    requires k < |NAMES|
    ensures |NAMES| == |VALUES| && VALUES[k] < 0x200000
    ensures Read([BACKSLASH, NAMES[k] as int] + more) == Before(Encode(VALUES[k]), Read(more))
  {
    hide Encode, Named, Read;
    NamesMean(k);
    EncodeSome(VALUES[k]);
    NamedRead(NAMES[k] as int, more);
  }

  lemma {:induction false} NamedRead(letter: Byte, more: seq<Byte>)
    requires Named(letter) != [] && letter < 0x80 && letter != 0x0A && letter != 0x0D
    ensures Read([BACKSLASH, letter] + more) == Before(Named(letter), Read(more))
  {
    hide Named;
    var t := [BACKSLASH, letter] + more;
    assert t[0] == BACKSLASH && t[1] == letter && t[2..] == more && t[1..][0] == letter;
    assert t[..1] == [BACKSLASH] && t[1..][..1] == [letter];
  }

  lemma {:induction false} ReadQuote(rest: seq<Byte>)
    ensures Read([QUOTE] + rest) == Scanned([], rest)
  {
    assert ([QUOTE] + rest)[0] == QUOTE && ([QUOTE] + rest)[1..] == rest;
  }

  lemma {:induction false} Regrouped(a: seq<Byte>, b: seq<Byte>, c: seq<Byte>, d: seq<Byte>)
    ensures a + b + c + d == a + (b + c + d)
  {
  }

  /** Every text, written double-quoted without line breaks, is read back as it was, whatever follows it. */
  lemma {:induction false} ReadAfterWrite(s: seq<Byte>, unicode: bool, rest: seq<Byte>)
    requires IsText(s)
    ensures Read(Write(s, unicode) + [QUOTE] + rest) == Scanned(s, rest)
    decreases |s|
  {
    hide WellFormed, WriteChar, Read;
    if s == [] {
      ReadQuote(rest);
      assert [] + [QUOTE] + rest == [QUOTE] + rest;
    } else {
      var w := Width(s[0]);
      var c, more := s[..w], Write(s[w..], unicode) + [QUOTE] + rest;
      ReadAfterWrite(s[w..], unicode, rest);
      CharReads(c, unicode, more);
      Regrouped(WriteChar(c, unicode), Write(s[w..], unicode), [QUOTE], rest);
      assert c + s[w..] == s;
    }
  }

  // The loops of the emitter.

  /** The number shifted right by that many digits. */
  function Shift(value: nat, digits: nat): nat {
    if digits == 0 then value else Shift(value, digits - 1) / 16
  }

  /** Digits are put from the highest to the lowest. */
  method PutHex(value: nat, n: nat) returns (out: seq<Byte>)
    ensures out == Hex(value, n)
  {
    out := [];
    var k := n;
    while k > 0
      invariant 0 <= k <= n && out == Hex(Shift(value, k), n - k)
    {
      k := k - 1;
      var digit := Shift(value, k) % 16;
      assert Shift(value, k + 1) == Shift(value, k) / 16;
      out := out + [HexDigit(digit)];
    }
  }

  method PutEscape(value: nat) returns (out: seq<Byte>)
    ensures out == Escape(value)
  {
    if Letter(value) != 0 {
      return [BACKSLASH, Letter(value)];
    }
    var width := if value <= 0xFF then 2 else if value <= 0xFFFF then 4 else 8;
    var digits := PutHex(value, width);
    out := [BACKSLASH, if width == 2 then 0x78 else if width == 4 then 0x75 else 0x55] + digits;
  }

  lemma {:induction false} TextParts(s: seq<Byte>)
    requires IsText(s) && s != []
    ensures var w := Width(s[0]); 0 < w <= |s| && WellFormed(s[..w]) && IsText(s[w..])
  {
  }

  /** The first character of what is left, and the rest. */
  lemma {:induction false} WriteFirst(s: seq<Byte>, p: nat, unicode: bool, out: seq<Byte>)
    requires p < |s| && IsText(s[p..])
    ensures var w := Width(s[p]);
            && 0 < w <= |s| - p && WellFormed(s[p..p + w]) && IsText(s[p + w..])
            && out + Write(s[p..], unicode) == out + WriteChar(s[p..p + w], unicode) + Write(s[p + w..], unicode)
  {
    hide WellFormed, WriteChar;
    var t, w := s[p..], Width(s[p]);
    TextParts(t);
    assert t[..w] == s[p..p + w] && t[w..] == s[p + w..];
    var c, rest := WriteChar(t[..w], unicode), Write(t[w..], unicode);
    assert out + (c + rest) == out + c + rest;
  }

  lemma {:induction false} WriteNothing(unicode: bool)
    ensures IsText([]) && Write([], unicode) == []
  {
  }

  /** `yaml_emitter_write_double_quoted_scalar` with line breaks disallowed. */
  method WriteDoubleQuoted(s: seq<Byte>, unicode: bool) returns (out: seq<Byte>)
    requires IsText(s)
    ensures out == [QUOTE] + Write(s, unicode) + [QUOTE]
  {
    hide WellFormed, IsText, IsEscaped, Scalar, Escape, Write;
    WriteNothing(unicode);
    out := [QUOTE];
    var p := 0;
    assert s[0..] == s;
    while p < |s|
      invariant 0 <= p <= |s| && IsText(s[p..])
      invariant out + Write(s[p..], unicode) == [QUOTE] + Write(s, unicode)
      decreases |s| - p
    {
      WriteFirst(s, p, unicode, out);
      var w := Width(s[p]);
      var c := s[p..p + w];
      if IsEscaped(c, unicode) {
        var escape := PutEscape(Scalar(c));
        out := out + escape;
      } else {
        out := out + c;
      }
      p := p + w;
    }
    assert s[p..] == [];
    EmptyText();
    assert out + [] == out;
    out := out + [QUOTE];
  }

  lemma {:induction false} EmptyText()
    ensures IsText([]) && forall unicode :: Write([], unicode) == []
  {
  }

  // The loops of the scanner.

  predicate IsBlank(b: Byte) {
    b == SPACE || b == 0x09
  }

  lemma {:induction false} BeforeTwice(a: seq<Byte>, b: seq<Byte>, r: Scanned)
    ensures Before(a, Before(b, r)) == Before(a + b, r)
  {
    if r.Scanned? {
      assert a + (b + r.text) == a + b + r.text;
    }
  }

  lemma {:induction false} BeforeNothing(r: Scanned)
    ensures Before([], r) == r
  {
    if r.Scanned? {
      assert [] + r.text == r.text;
    }
  }

  /** What has been read, and what is read of the rest, is what is read of the whole. */
  predicate ReadTo(t: seq<Byte>, text: seq<Byte>, p: nat) {
    p <= |t| && Before(text, Read(t[p..])) == Read(t)
  }

  /** One escape sequence: its letter, and the hexadecimal digits that the letter asks for. */
  method ScanEscape(t: seq<Byte>, p: nat) returns (piece: Piece)
    requires p < |t|
    ensures piece == ReadEscape(t[p..])
  {
    hide Encode, ParseHex, Named;
    ghost var s := t[p..];
    if p + 1 >= |t| {
      return Bad;
    }
    var letter := t[p + 1];
    if Named(letter) != [] {
      return Piece(Named(letter), 2);
    }
    var n := CodeLength(letter);
    if n == 0 || p + 2 + n > |t| {
      return Bad;
    }
    ghost var digits := s[2..2 + n];
    var value, k := 0, 0;
    NoDigits();
    while k < n
      invariant 0 <= k <= n && AllHex(digits[..k]) && value == ParseHex(digits[..k])
    {
      var digit := t[p + 2 + k];
      assert digits[k] == digit;
      if !IsHex(digit) {
        return Bad;
      }
      OneMoreDigit(digits, k);
      value := 16 * value + HexValue(digit);
      k := k + 1;
    }
    assert digits[..n] == digits;
    if 0xD800 <= value <= 0xDFFF || value > 0x10FFFF {
      return Bad;
    }
    piece := Piece(Encode(value), 2 + n);
  }

  lemma {:induction false} NoDigits()
    ensures AllHex([]) && ParseHex([]) == 0
  {
  }

  lemma {:induction false} OneMoreDigit(digits: seq<Byte>, k: nat)
    requires k < |digits| && AllHex(digits[..k]) && IsHex(digits[k])
    ensures AllHex(digits[..k + 1]) && ParseHex(digits[..k + 1]) == 16 * ParseHex(digits[..k]) + HexValue(digits[k])
  {
    assert digits[..k + 1][..k] == digits[..k];
  }

  /** One character that is neither blank nor the closing quote, or one escape sequence. */
  method ScanPiece(t: seq<Byte>, p: nat) returns (ok: bool, bytes: seq<Byte>, n: nat)
    requires p < |t| && t[p] != 0 && t[p] != QUOTE && !BreakAt(t[p..]) && (t[p] == BACKSLASH ==> !BreakAt(t[p + 1..]))
    ensures ok ==> 0 < n <= |t| - p && Read(t[p..]) == Before(bytes, Read(t[p + n..]))
    ensures !ok ==> Read(t[p..]).Failed?
  {
    hide ReadEscape, BreakAt;
    ghost var rest := t[p..];
    assert rest[1..] == t[p + 1..];
    if t[p] == BACKSLASH {
      var piece := ScanEscape(t, p);
      if piece.Bad? || piece.length > |t| - p || piece.length == 0 {
        return false, [], 0;
      }
      assert rest[piece.length..] == t[p + piece.length..];
      return true, piece.bytes, piece.length;
    }
    var w := Width(t[p]);
    if w == 0 || w > |t| - p {
      return false, [], 0;
    }
    assert rest[w..] == t[p + w..] && rest[..w] == t[p..p + w];
    ok, bytes, n := true, t[p..p + w], w;
  }

  /** A line end, escaped or not. */
  predicate FoldAt(t: seq<Byte>, p: nat)
    requires p < |t|
  {
    BreakAt(t[p..]) || (t[p] == BACKSLASH && BreakAt(t[p + 1..]))
  }

  /** The characters that are not blank, up to the next blank or closing quote, unless reading stops before. */
  method ScanWord(t: seq<Byte>, start: nat, before: seq<Byte>) returns (stop: bool, r: Scanned, text: seq<Byte>, p: nat)
    requires ReadTo(t, before, start)
    ensures stop ==> r == Read(t)
    ensures !stop ==> start <= p && ReadTo(t, text, p) && (p == |t| || t[p] == 0 || t[p] == QUOTE || IsBlank(t[p]))
    ensures !stop && p == start ==> text == before
  {
    hide Read, BreakAt, ReadEscape;
    text, p, r := before, start, Failed;
    while p < |t| && t[p] != 0 && !IsBlank(t[p]) && t[p] != QUOTE
      invariant start <= p <= |t| && ReadTo(t, text, p) && (p == start ==> text == before)
      decreases |t| - p
    {
      if FoldAt(t, p) {
        Folding(t, p);
        return true, Folds, text, p;
      }
      var ok, bytes, n := ScanPiece(t, p);
      if !ok {
        return true, Failed, text, p;
      }
      BeforeTwice(text, bytes, Read(t[p + n..]));
      text, p := text + bytes, p + n;
    }
    stop := false;
  }

  lemma {:induction false} Folding(t: seq<Byte>, p: nat)
    requires p < |t| && t[p] != 0 && t[p] != QUOTE && FoldAt(t, p)
    ensures Read(t[p..]).Folds?
  {
    hide BreakAt, ReadEscape;
    assert t[p..][1..] == t[p + 1..];
  }

  /** The blanks between words. */
  method ScanBlanks(t: seq<Byte>, start: nat, before: seq<Byte>) returns (text: seq<Byte>, p: nat)
    requires ReadTo(t, before, start)
    ensures start <= p && ReadTo(t, text, p) && (p == |t| || !IsBlank(t[p]))
    ensures start < |t| && IsBlank(t[start]) ==> p > start
    ensures p == start ==> text == before
  {
    hide Read, BreakAt, ReadEscape;
    text, p := before, start;
    while p < |t| && IsBlank(t[p])
      invariant start <= p <= |t| && ReadTo(t, text, p)
      invariant p == start ==> text == before
      decreases |t| - p
    {
      ReadBlank(t, p);
      BeforeTwice(text, [t[p]], Read(t[p + 1..]));
      text, p := text + [t[p]], p + 1;
    }
  }

  lemma {:induction false} ReadBlank(t: seq<Byte>, p: nat)
    requires p < |t| && IsBlank(t[p])
    ensures Read(t[p..]) == Before([t[p]], Read(t[p + 1..]))
  {
    hide ReadEscape;
    assert t[p..][..1] == [t[p]] && t[p..][1..] == t[p + 1..];
  }

  /** `yaml_parser_scan_flow_scalar` on a double-quoted scalar, after its opening quote, up to the first line end. */
  method ScanDoubleQuoted(t: seq<Byte>) returns (r: Scanned)
    ensures r == Read(t)
  {
    hide Read, BreakAt, ReadEscape;
    var text: seq<Byte>, p: nat := [], 0;
    BeforeNothing(Read(t));
    assert t[0..] == t;
    while true
      invariant ReadTo(t, text, p)
      decreases |t| - p
    {
      if p == |t| || t[p] == 0 {
        ReadEnd(t, p);
        return Failed;
      }
      var stop, word, q;
      stop, r, word, q := ScanWord(t, p, text);
      if stop {
        return;
      }
      if q < |t| && t[q] == QUOTE {
        ReadQuoteAt(t, q);
        assert word + [] == word;
        return Scanned(word, t[q + 1..]);
      }
      text, p := ScanBlanks(t, q, word);
    }
  }

  lemma {:induction false} ReadEnd(t: seq<Byte>, p: nat)
    requires p <= |t| && (p == |t| || t[p] == 0)
    ensures Read(t[p..]).Failed?
  {
  }

  lemma {:induction false} ReadQuoteAt(t: seq<Byte>, p: nat)
    requires p < |t| && t[p] == QUOTE
    ensures Read(t[p..]) == Scanned([], t[p + 1..])
  {
    assert t[p..][1..] == t[p + 1..];
  }

  /** Writing a text and scanning what was written. */
  method WriteThenScan(s: seq<Byte>, unicode: bool) returns (r: Scanned)
    requires IsText(s)
    ensures r == Scanned(s, [])
  {
    hide Read, Write, IsText;
    var out := WriteDoubleQuoted(s, unicode);
    ReadAfterWrite(s, unicode, []);
    assert out[1..] == Write(s, unicode) + [QUOTE] + [];
    r := ScanDoubleQuoted(out[1..]);
  }
}
