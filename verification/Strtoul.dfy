/** Numbers of 32 bits as `yaml.c` reads them, with `strtoul` in base zero. */
module Strtoul {
  import opened Wrappers
  import opened Numerals

  predicate IsSpace(c: char) {
    c == ' ' || c == '\t' || c == '\n' || c == '\U{B}' || c == '\U{C}' || c == '\r'
  }

  /** The value of a digit, and 16 for what is none. */
  function DigitValue(c: char): nat {
    if '0' <= c <= '9' then (c - '0') as nat
    else if 'a' <= c <= 'f' then (c - 'a') as nat + 10
    else if 'A' <= c <= 'F' then (c - 'A') as nat + 10
    else 16
  }

  predicate DigitsIn(s: string, base: nat) {
    forall i :: 0 <= i < |s| ==> DigitValue(s[i]) < base
  }

  function ValueIn(s: string, base: nat): nat
    requires DigitsIn(s, base)
  {
    if s == "" then 0 else ValueIn(s[..|s| - 1], base) * base + DigitValue(s[|s| - 1])
  }

  function SkipSpace(s: string): string {
    if s != "" && IsSpace(s[0]) then SkipSpace(s[1..]) else s
  }

  const ULONG := 0x1_0000_0000_0000_0000

  /** The number that the rest of the text is, if all of it is one that fits: with a minus it wraps around. */
  function Converted(digits: string, base: nat, negative: bool): Option<nat> {
    if digits == "" || !DigitsIn(digits, base) then None
    else
      var m := ValueIn(digits, base);
      if m >= ULONG then None else Some(if negative && m > 0 then ULONG - m else m)
  }

  /** `0x` makes a number hexadecimal, and any other zero at its start octal. */
  function AfterSign(s: string, negative: bool): Option<nat> {
    if |s| >= 2 && s[0] == '0' && (s[1] == 'x' || s[1] == 'X') then Converted(s[2..], 16, negative)
    else Converted(s, if s != "" && s[0] == '0' then 8 else 10, negative)
  }

  /** `parse_u32_str` */
  function ParseU32(s: string): Option<nat> {
    var t := SkipSpace(s);
    var signed := t != "" && (t[0] == '-' || t[0] == '+');
    match AfterSign(if signed then t[1..] else t, signed && t[0] == '-')
    case None => None
    case Some(v) => if v < 0x1_0000_0000 then Some(v) else None
  }

  // The spellings of a number.

  datatype Sign = NoSign | Plus | Minus

  datatype Base = Plain | Octal | Hexadecimal(upper: bool)

  /** White space, a sign, what tells the base, and the digits. */
  datatype Spelling = Spelling(space: string, sign: Sign, base: Base, digits: string)

  function SignText(sign: Sign): string {
    match sign case NoSign => "" case Plus => "+" case Minus => "-"
  }

  function Prefix(base: Base): string {
    match base case Plain => "" case Octal => "" case Hexadecimal(upper) => if upper then "0X" else "0x"
  }

  function Radix(base: Base): nat {
    match base case Plain => 10 case Octal => 8 case Hexadecimal(_) => 16
  }

  predicate SpellingOk(sp: Spelling) {
    && (forall i :: 0 <= i < |sp.space| ==> IsSpace(sp.space[i]))
    && sp.digits != "" && DigitsIn(sp.digits, Radix(sp.base))
    && (sp.base.Plain? ==> sp.digits[0] != '0') && (sp.base.Octal? ==> sp.digits[0] == '0')
  }

  function SpellingText(sp: Spelling): string {
    sp.space + (SignText(sp.sign) + (Prefix(sp.base) + sp.digits))
  }

  /** The number a spelling stands for: a number below zero wraps around at 64 bits. */
  function Number(sp: Spelling): int
    requires DigitsIn(sp.digits, Radix(sp.base))
  {
    var m := ValueIn(sp.digits, Radix(sp.base));
    if sp.sign.Minus? && m > 0 then ULONG - m else m
  }

  lemma {:induction false} SpaceSkipped(space: string, rest: string)
    requires (forall i :: 0 <= i < |space| ==> IsSpace(space[i])) && (rest != "" ==> !IsSpace(rest[0]))
    ensures SkipSpace(space + rest) == rest
  {
    if space == "" {
      assert space + rest == rest;
    } else {
      SpaceSkipped(space[1..], rest);
      assert (space + rest)[1..] == space[1..] + rest;
    }
  }

  lemma {:induction false} SpaceOf(s: string) returns (space: string)
    ensures (forall i :: 0 <= i < |space| ==> IsSpace(space[i])) && s == space + SkipSpace(s)
    ensures SkipSpace(s) != "" ==> !IsSpace(SkipSpace(s)[0])
  {
    if s != "" && IsSpace(s[0]) {
      var rest := SpaceOf(s[1..]);
      space := [s[0]] + rest;
      assert s == [s[0]] + s[1..];
    } else {
      space := "";
    }
  }

  lemma {:induction false} DigitIsDigit(c: char)
    requires DigitValue(c) < 16
    ensures !IsSpace(c) && c != '-' && c != '+' && c != 'x' && c != 'X'
  {
  }

  /** After the sign, what tells the base and the digits are read. */
  lemma {:induction false} BodyRead(base: Base, digits: string, negative: bool)
    requires digits != "" && DigitsIn(digits, Radix(base))
    requires (base.Plain? ==> digits[0] != '0') && (base.Octal? ==> digits[0] == '0')
    ensures AfterSign(Prefix(base) + digits, negative) == Converted(digits, Radix(base), negative)
    ensures Prefix(base) + digits != ""
    ensures var c := (Prefix(base) + digits)[0]; !IsSpace(c) && c != '-' && c != '+'
  {
    hide Converted;
    var s := Prefix(base) + digits;
    DigitIsDigit(digits[0]);
    if base.Hexadecimal? {
      assert s[2..] == digits;
    } else {
      assert s == digits;
      assert |digits| >= 2 ==> DigitValue(digits[1]) < 16;
      if |digits| >= 2 {
        DigitIsDigit(digits[1]);
      }
    }
  }

  /** A number is read in each of its spellings, if it has no more than 32 bits. */
  lemma {:induction false} SpellingRead(sp: Spelling)
    requires SpellingOk(sp)
    ensures ParseU32(SpellingText(sp)) == if ValueIn(sp.digits, Radix(sp.base)) < ULONG && Number(sp) < 0x1_0000_0000
            then Some(Number(sp)) else None
  {
    hide DigitsIn, ValueIn, DigitValue;
    var negative := sp.sign.Minus?;
    var body := Prefix(sp.base) + sp.digits;
    BodyRead(sp.base, sp.digits, negative);
    var t := SignText(sp.sign) + body;
    assert t != "" && !IsSpace(t[0]);
    SpaceSkipped(sp.space, t);
    if !sp.sign.NoSign? {
      assert t[1..] == body;
    } else {
      assert t == body;
    }
  }

  lemma {:induction false} BodyOf(body: string, negative: bool) returns (base: Base, digits: string)
    requires AfterSign(body, negative).Some?
    ensures digits != "" && DigitsIn(digits, Radix(base)) && body == Prefix(base) + digits
    ensures (base.Plain? ==> digits[0] != '0') && (base.Octal? ==> digits[0] == '0')
  {
    hide ValueIn, DigitsIn;
    if |body| >= 2 && body[0] == '0' && (body[1] == 'x' || body[1] == 'X') {
      base, digits := Hexadecimal(body[1] == 'X'), body[2..];
      assert body == [body[0], body[1]] + digits;
    } else {
      base, digits := if body != "" && body[0] == '0' then Octal else Plain, body;
      assert "" + body == body;
    }
  }

  /** And nothing else is. */
  lemma {:induction false} SpellingOf(s: string) returns (sp: Spelling)
    requires ParseU32(s).Some?
    ensures SpellingOk(sp) && SpellingText(sp) == s
  {
    hide DigitsIn, AfterSign, Prefix;
    var space := SpaceOf(s);
    var t := SkipSpace(s);
    var sign := if t == "" then NoSign else if t[0] == '-' then Minus else if t[0] == '+' then Plus else NoSign;
    var body := if sign.NoSign? then t else t[1..];
    assert t == SignText(sign) + body;
    var base, digits := BodyOf(body, sign.Minus?);
    sp := Spelling(space, sign, base, digits);
  }

  /** Numbers as they are printed are read back. */
  lemma {:induction false} PrintedRead(n: nat)
    requires n < 0x1_0000_0000
    ensures ParseU32(Decimal(n)) == Some(n)
  {
    hide ValueIn, Decimal, ParseU32;
    var digits := Decimal(n);
    NoLeadingZero(n);
    ValueOfDecimal(n);
    var base := if digits[0] == '0' then Octal else Plain;
    TenIn(digits);
    var sp := Spelling("", NoSign, base, digits);
    if base.Octal? {
      assert digits == "0" && n == 0;
      ZeroIn();
    }
    SpellingRead(sp);
    assert SpellingText(sp) == digits;
    assert Number(sp) == n;
  }

  lemma {:induction false} ZeroIn()
    ensures DigitsIn("0", 8) && ValueIn("0", 8) == 0
  {
    assert "0"[..0] == "";
  }

  lemma {:induction false} TenIn(s: string)
    requires Digits(s)
    ensures DigitsIn(s, 10) && ValueIn(s, 10) == Value(s)
  {
    if s != "" {
      TenIn(s[..|s| - 1]);
    }
  }
}
