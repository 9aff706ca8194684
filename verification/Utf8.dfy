/** UTF-8 as `reader.c` decodes it, and as section 4 of RFC 3629 defines it. */
module Utf8 {
  type Byte = x: int | 0 <= x < 256

  /** The length of a character by its first octet, or zero. */
  function Width(lead: Byte): nat {
    if lead < 0x80 then 1
    else if 0xC0 <= lead < 0xE0 then 2
    else if 0xE0 <= lead < 0xF0 then 3
    else if 0xF0 <= lead < 0xF8 then 4
    else 0
  }

  /** The bits that the first octet carries. */
  function LeadBits(lead: Byte): nat {
    if lead < 0x80 then lead
    else if 0xC0 <= lead < 0xE0 then lead - 0xC0
    else if 0xE0 <= lead < 0xF0 then lead - 0xE0
    else if 0xF0 <= lead < 0xF8 then lead - 0xF0
    else 0
  }

  predicate IsTail(b: Byte) {
    0x80 <= b < 0xC0
  }

  /** The bits that a following octet carries. */
  function TailBits(b: Byte): nat
    requires IsTail(b)
  {
    b - 0x80
  }

  predicate AllTails(s: seq<Byte>) {
    forall i :: 0 <= i < |s| ==> IsTail(s[i])
  }

  /** The value so far with the bits of the following octets. */
  function Fold(value: nat, tails: seq<Byte>): nat
    requires AllTails(tails)
    decreases |tails|
  {
    if tails == [] then value else Fold(value * 64 + TailBits(tails[0]), tails[1..])
  }

  /** The characters that YAML allows in a stream. */
  predicate Allowed(value: nat) {
    || value == 0x09 || value == 0x0A || value == 0x0D || 0x20 <= value <= 0x7E || value == 0x85
    || 0xA0 <= value <= 0xD7FF || 0xE000 <= value <= 0xFFFD || 0x10000 <= value <= 0x10FFFF
  }

  predicate LongEnough(width: nat, value: nat) {
    || width == 1 || (width == 2 && value >= 0x80) || (width == 3 && value >= 0x800) || (width == 4 && value >= 0x10000)
  }

  datatype Decoded = Incomplete | Invalid | Char(value: nat, width: nat)

  /** What the reader makes of the octets from here on, if they are all it will get for now. */
  function Decode(s: seq<Byte>): Decoded
    requires s != []
  {
    var w := Width(s[0]);
    if w == 0 then Invalid
    else if w > |s| then Incomplete
    else if !AllTails(s[1..w]) then Invalid
    else
      var value := Fold(LeadBits(s[0]), s[1..w]);
      if !LongEnough(w, value) || 0xD800 <= value <= 0xDFFF || value > 0x10FFFF || !Allowed(value) then Invalid
      else Char(value, w)
  }

  /** The octets that the reader writes for a character. */
  function Encode(value: nat): seq<Byte>
    requires value < 0x200000
  {
    if value <= 0x7F then [value]
    else if value <= 0x7FF then [0xC0 + value / 64, 0x80 + value % 64]
    else if value <= 0xFFFF then [0xE0 + value / 64 / 64, 0x80 + value / 64 % 64, 0x80 + value % 64]
    else [0xF0 + value / 64 / 64 / 64, 0x80 + value / 64 / 64 % 64, 0x80 + value / 64 % 64, 0x80 + value % 64]
  }

  /** A character as section 4 of RFC 3629 spells it out. */
  predicate WellFormed(c: seq<Byte>) {
    match |c|
    case 1 => c[0] <= 0x7F
    case 2 => 0xC2 <= c[0] <= 0xDF && IsTail(c[1])
    case 3 =>
      || (c[0] == 0xE0 && 0xA0 <= c[1] <= 0xBF && IsTail(c[2]))
      || (0xE1 <= c[0] <= 0xEC && IsTail(c[1]) && IsTail(c[2]))
      || (c[0] == 0xED && 0x80 <= c[1] <= 0x9F && IsTail(c[2]))
      || (0xEE <= c[0] <= 0xEF && IsTail(c[1]) && IsTail(c[2]))
    case 4 =>
      || (c[0] == 0xF0 && 0x90 <= c[1] <= 0xBF && IsTail(c[2]) && IsTail(c[3]))
      || (0xF1 <= c[0] <= 0xF3 && IsTail(c[1]) && IsTail(c[2]) && IsTail(c[3]))
      || (c[0] == 0xF4 && 0x80 <= c[1] <= 0x8F && IsTail(c[2]) && IsTail(c[3]))
    case _ => false
  }

  /** The number that the octets of a character stand for, by the table of section 3 of RFC 3629. */
  function Scalar(c: seq<Byte>): nat
    requires WellFormed(c)
  {
    match |c|
    case 1 => c[0]
    case 2 => LeadBits(c[0]) * 64 + TailBits(c[1])
    case 3 => (LeadBits(c[0]) * 64 + TailBits(c[1])) * 64 + TailBits(c[2])
    case _ => ((LeadBits(c[0]) * 64 + TailBits(c[1])) * 64 + TailBits(c[2])) * 64 + TailBits(c[3])
  }

  lemma {:induction false} FoldIs(value: nat, tails: seq<Byte>)
    requires AllTails(tails) && |tails| <= 3
    ensures |tails| == 0 ==> Fold(value, tails) == value
    ensures |tails| == 1 ==> Fold(value, tails) == value * 64 + TailBits(tails[0])
    ensures |tails| == 2 ==> Fold(value, tails) == (value * 64 + TailBits(tails[0])) * 64 + TailBits(tails[1])
    ensures |tails| == 3 ==>
              Fold(value, tails) == ((value * 64 + TailBits(tails[0])) * 64 + TailBits(tails[1])) * 64
                + TailBits(tails[2])
    decreases |tails|
  {
    if tails != [] {
      FoldIs(value * 64 + TailBits(tails[0]), tails[1..]);
    }
  }

  /** The first character of the octets is complete: it has as many octets as its first one says. */
  predicate Complete(s: seq<Byte>) {
    s != [] && 0 < Width(s[0]) <= |s|
  }

  /** Octets are accepted exactly when they are well formed by the standard and stand for an allowed character. */
  lemma {:induction false} DecodeIsStandard(s: seq<Byte>)
    requires Complete(s)
    ensures var c := s[..Width(s[0])];
            Decode(s) == if WellFormed(c) && Allowed(Scalar(c)) then Char(Scalar(c), |c|) else Invalid
  {
    hide Allowed;
    var w := Width(s[0]);
    var c := s[..w];
    assert forall i :: 0 <= i < w ==> c[i] == s[i];
    assert forall i :: 0 <= i < w - 1 ==> s[1..w][i] == s[i + 1];
    if AllTails(s[1..w]) {
      FoldIs(LeadBits(s[0]), s[1..w]);
      RangesAgree(c);
    }
  }

  /** The checks of length and range on the value are the ranges of the standard on the octets. */
  lemma {:induction false} RangesAgree(c: seq<Byte>)
    requires c != [] && |c| == Width(c[0]) && AllTails(c[1..])
    ensures var value := Fold(LeadBits(c[0]), c[1..]);
            && (WellFormed(c) <==> LongEnough(|c|, value) && !(0xD800 <= value <= 0xDFFF) && value <= 0x10FFFF)
            && (WellFormed(c) ==> Scalar(c) == value)
  {
    FoldIs(LeadBits(c[0]), c[1..]);
    assert forall i :: 0 <= i < |c| - 1 ==> c[1..][i] == c[i + 1];
  }

  lemma {:induction false} SixBits(high: nat, low: nat)
    requires low < 64
    ensures (high * 64 + low) / 64 == high && (high * 64 + low) % 64 == low
  {
  }

  lemma {:induction false} EncodeThree(a: nat, b: nat, c: nat)
    requires a < 16 && b < 64 && c < 64 && (a * 64 + b) * 64 + c > 0x7FF
    ensures Encode((a * 64 + b) * 64 + c) == [0xE0 + a, 0x80 + b, 0x80 + c]
  {
    SixBits(a, b);
    SixBits(a * 64 + b, c);
  }

  lemma {:induction false} EncodeFour(a: nat, b: nat, c: nat, d: nat)
    requires a < 8 && b < 64 && c < 64 && d < 64 && ((a * 64 + b) * 64 + c) * 64 + d > 0xFFFF
    ensures Encode(((a * 64 + b) * 64 + c) * 64 + d) == [0xF0 + a, 0x80 + b, 0x80 + c, 0x80 + d]
  {
    SixBits(a, b);
    SixBits(a * 64 + b, c);
    SixBits((a * 64 + b) * 64 + c, d);
  }

  /** What is accepted is written again octet by octet. */
  lemma {:induction false} EncodeScalar(c: seq<Byte>)
    requires WellFormed(c)
    ensures Scalar(c) <= 0x10FFFF && !(0xD800 <= Scalar(c) <= 0xDFFF) && Encode(Scalar(c)) == c
  {
    hide Encode;
    match |c|
    case 1 => EncodeOne(c[0]);
    case 2 => EncodeTwo(LeadBits(c[0]), TailBits(c[1]));
    case 3 => EncodeThree(LeadBits(c[0]), TailBits(c[1]), TailBits(c[2]));
    case _ => EncodeFour(LeadBits(c[0]), TailBits(c[1]), TailBits(c[2]), TailBits(c[3]));
  }

  lemma {:induction false} EncodeOne(a: nat)
    requires a < 0x80
    ensures Encode(a) == [a]
  {
  }

  lemma {:induction false} EncodeTwo(a: nat, b: nat)
    requires a < 32 && b < 64 && a * 64 + b > 0x7F
    ensures Encode(a * 64 + b) == [0xC0 + a, 0x80 + b]
  {
    SixBits(a, b);
  }

  /** Every Unicode scalar value has a well-formed encoding that stands for it. */
  lemma {:induction false} ScalarEncode(value: nat)
    requires value <= 0x10FFFF && !(0xD800 <= value <= 0xDFFF)
    ensures WellFormed(Encode(value)) && Scalar(Encode(value)) == value
  {
    var a := value / 64;
    var b := a / 64;
    assert value == a * 64 + value % 64 && a == b * 64 + a % 64 && b == (b / 64) * 64 + b % 64;
  }

  lemma {:induction false} WellFormedWidth(c: seq<Byte>)
    requires WellFormed(c)
    ensures c != [] && |c| == Width(c[0])
  {
  }
}
