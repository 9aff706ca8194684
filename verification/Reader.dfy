/** The reader of `reader.c`: octets go from a source of any rhythm through two buffers to the scanner. */
module Reader {
  import opened Utf8

  const RAW_SIZE := 16384
  const BUFFER_SIZE := 3 * RAW_SIZE
  /** The requests that are sure to leave room for a whole raw buffer. */
  const REQUEST_MAX := 8000

  /** A sequence of characters, each with as many octets as its first one says. */
  predicate Whole(s: seq<Byte>)
    decreases |s|
  {
    s != [] ==> Complete(s) && Whole(s[Width(s[0])..])
  }

  function Count(s: seq<Byte>): nat
    requires Whole(s)
    decreases |s|
  {
    if s == [] then 0 else 1 + Count(s[Width(s[0])..])
  }

  /** Octets that are all accepted: well-formed UTF-8 of allowed characters. */
  predicate ValidText(s: seq<Byte>)
    decreases |s|
  {
    s != [] ==> Complete(s) && Decode(s).Char? && ValidText(s[Width(s[0])..])
  }

  lemma {:induction false} WholeConcat(a: seq<Byte>, b: seq<Byte>)
    requires Whole(a) && Whole(b)
    ensures Whole(a + b) && Count(a + b) == Count(a) + Count(b)
    decreases |a|
  {
    if a == [] {
      assert a + b == b;
    } else {
      var w := Width(a[0]);
      WholeConcat(a[w..], b);
      assert (a + b)[0] == a[0] && (a + b)[w..] == a[w..] + b;
    }
  }

  lemma {:induction false} WholeSize(s: seq<Byte>)
    requires Whole(s)
    ensures |s| <= 4 * Count(s) && Count(s) <= |s|
    decreases |s|
  {
    if s != [] {
      WholeSize(s[Width(s[0])..]);
    }
  }

  /** What a character is decoded as does not depend on what follows it. */
  lemma {:induction false} DecodeMore(s: seq<Byte>, more: seq<Byte>)
    requires s != [] && !Decode(s).Incomplete?
    ensures Decode(s + more) == Decode(s)
  {
    var w := Width(s[0]);
    assert (s + more)[0] == s[0];
    if w > 0 {
      assert (s + more)[1..w] == s[1..w];
    }
  }

  lemma {:induction false} ValidConcat(a: seq<Byte>, b: seq<Byte>)
    requires ValidText(a)
    ensures ValidText(a + b) <==> ValidText(b)
    decreases |a|
  {
    if a == [] {
      assert a + b == b;
    } else {
      var w := Width(a[0]);
      DecodeMore(a, b);
      ValidConcat(a[w..], b);
      assert (a + b)[0] == a[0] && (a + b)[w..] == a[w..] + b;
    }
  }

  lemma {:induction false} ValidOne(s: seq<Byte>)
    requires s != [] && Decode(s).Char?
    ensures ValidText(s[..Decode(s).width]) && Encode(Decode(s).value) == s[..Decode(s).width]
  {
    var w := Decode(s).width;
    var c := s[..w];
    DecodeIsStandard(s);
    EncodeScalar(c);
    assert c + s[w..] == s;
    assert c[0] == s[0] && c[1..w] == s[1..w];
    assert c[w..] == [];
  }

  function BomLength(total: seq<Byte>): nat {
    if |total| >= 3 && total[0] == 0xEF && total[1] == 0xBB && total[2] == 0xBF then 3 else 0
  }

  /** The mark of an encoding that is not UTF-8. */
  predicate IsUtf16(total: seq<Byte>) {
    |total| >= 2 && ((total[0] == 0xFF && total[1] == 0xFE) || (total[0] == 0xFE && total[1] == 0xFF))
  }

  /** The input without its byte order mark. */
  function Body(total: seq<Byte>): seq<Byte> {
    total[BomLength(total)..]
  }

  /** The mark is in the first three octets. */
  lemma {:induction false} MarkAtFront(bytes: seq<Byte>, more: seq<Byte>)
    requires |bytes| >= 3 || more == []
    ensures BomLength(bytes + more) == BomLength(bytes) && (IsUtf16(bytes + more) <==> IsUtf16(bytes))
  {
    assert forall i :: 0 <= i < |bytes| ==> (bytes + more)[i] == bytes[i];
  }

  /** A buffer that is read from at one end and written to at the other. */
  class Window {
    const data: array<Byte>
    var ptr: nat
    var last: nat

    ghost predicate Valid()
      reads this
    {
      ptr <= last <= data.Length
    }

    ghost function Contents(): seq<Byte>
      requires Valid()
      reads this, data
    {
      data[ptr..last]
    }

    constructor (size: nat)
      ensures Valid() && data.Length == size && Contents() == [] && ptr == 0 && fresh(data)
    {
      data := new Byte[size](_ => 0);
      ptr, last := 0, 0;
    }

    /** Moves what is left to the beginning. */
    method Compact()
      requires Valid()
      modifies this, data
      ensures Valid() && ptr == 0 && Contents() == old(Contents())
    {
      ghost var was := data[..];
      var n := last - ptr;
      var i := 0;
      while i < n
        invariant 0 <= i <= n && ptr == old(ptr) && last == old(last)
        invariant forall j :: 0 <= j < i ==> data[j] == was[ptr + j]
        invariant forall j :: i <= j < data.Length ==> data[j] == was[j]
      {
        data[i] := data[ptr + i];
        i := i + 1;
      }
      ptr, last := 0, n;
    }

    method Push(b: Byte)
      requires Valid() && last < data.Length
      modifies this`last, data
      ensures Valid() && last == old(last) + 1 && Contents() == old(Contents()) + [b]
    {
      data[last] := b;
      last := last + 1;
      assert data[ptr..last] == data[ptr..last - 1] + [b];
    }

    method PushAll(bytes: seq<Byte>)
      requires Valid() && last + |bytes| <= data.Length
      modifies this`last, data
      ensures Valid() && last == old(last) + |bytes| && Contents() == old(Contents()) + bytes
    {
      var i := 0;
      assert bytes[..0] == [] && old(Contents()) + [] == old(Contents());
      while i < |bytes|
        invariant 0 <= i <= |bytes| && Valid() && last == old(last) + i && Contents() == old(Contents()) + bytes[..i]
      {
        Push(bytes[i]);
        assert bytes[..i + 1] == bytes[..i] + [bytes[i]];
        i := i + 1;
      }
      assert bytes[..i] == bytes;
    }

    method Advance(n: nat)
      requires Valid() && n <= |Contents()|
      modifies this`ptr
      ensures Valid() && ptr == old(ptr) + n && Contents() == old(Contents())[n..]
    {
      ptr := ptr + n;
    }
  }

  class Reader {
    const raw: Window
    const buffer: Window
    var source: seq<Byte>
    var unread: nat
    var eof: bool
    var encoded: bool
    var offset: nat
    /** The whole input, what the scanner has taken, and whether the end of the input has been marked. */
    ghost const total: seq<Byte>
    ghost var taken: seq<Byte>
    ghost var ended: bool
    /** The characters that the scanner can take. */
    ghost var text: seq<Byte>

    ghost predicate Buffers()
      reads this, raw, buffer
    {
      && raw.Valid() && buffer.Valid() && raw.data.Length == RAW_SIZE && buffer.data.Length == BUFFER_SIZE
      && raw != buffer && raw.data != buffer.data
    }

    /** All that has been delivered. */
    ghost function Delivered(): seq<Byte>
      requires Buffers()
      reads this, raw, buffer, buffer.data
    {
      taken + buffer.Contents()
    }

    /** No octet is lost between the source and the scanner, and what was delivered was accepted. */
    ghost predicate Core()
      reads this, raw, raw.data, buffer, buffer.data
    {
      && Buffers()
      && offset <= |total| && total[offset..] == raw.Contents() + source
      && (eof ==> source == [])
      && ValidText(text) && Whole(text) && unread == Count(text) + (if ended then 1 else 0)
      && buffer.Contents() == text + (if ended then [0] else [])
      && (!encoded ==> offset == 0 && Delivered() == [] && !ended)
      && (encoded ==>
            var bom := BomLength(total);
            && !IsUtf16(total) && bom <= offset && ValidText(total[bom..offset])
            && Delivered() == total[bom..offset] + if ended then [0] else [])
    }

    ghost predicate Inv()
      reads this, raw, raw.data, buffer, buffer.data
    {
      Core() && (!encoded ==> !eof) && (ended <==> encoded && eof && raw.Contents() == [])
    }

    constructor (input: seq<Byte>)
      ensures Inv() && total == input && taken == [] && !encoded && source == input
      ensures fresh(raw) && fresh(buffer) && fresh(raw.data) && fresh(buffer.data)
    {
      raw := new Window(RAW_SIZE);
      buffer := new Window(BUFFER_SIZE);
      source, total := input, input;
      unread, eof, encoded, offset := 0, false, false, 0;
      taken, ended, text := [], false, [];
      new;
      assert total[0..] == total && [] + source == source;
    }

    /** `yaml_parser_update_raw_buffer`: the source gives as much as it likes, and nothing only at its end. */
    method UpdateRaw()
      requires Core() && !ended
      modifies this`source, this`eof, raw, raw.data
      ensures Core() && |source| <= |old(source)| && (old(eof) ==> eof)
      ensures |raw.Contents()| >= |old(raw.Contents())| && old(raw.Contents()) <= raw.Contents()
      ensures |old(raw.Contents())| < RAW_SIZE ==> eof || |source| < |old(source)|
    {
      hide Whole, Count, ValidText;
      if raw.ptr == 0 && raw.last == RAW_SIZE {
        return;
      }
      if eof {
        return;
      }
      raw.Compact();
      var space := RAW_SIZE - raw.last;
      if source == [] {
        eof := true;
        return;
      }
      var n: nat :| 1 <= n <= |source| && n <= space;
      Divided(raw.Contents(), source, n);
      raw.PushAll(source[..n]);
      source := source[n..];
    }

    /** `yaml_parser_determine_encoding`; the UTF-16 encodings are not followed further. */
    method DetermineEncoding() returns (ok: bool)
      requires Core() && !encoded
      modifies this, raw, raw.data
      ensures ok ==> Core() && encoded && !ended && taken == old(taken) && unread == old(unread) && text == old(text)
      ensures !ok ==> IsUtf16(total)
    {
      hide Whole, Count;
      while !eof && raw.last - raw.ptr < 3
        invariant Core() && !encoded && taken == old(taken) && unread == old(unread) && text == old(text)
        decreases |source|, if eof then 0 else 1
      {
        UpdateRaw();
      }
      ok := SkipMark();
    }

    method SkipMark() returns (ok: bool)
      requires Core() && !encoded && (eof || raw.last - raw.ptr >= 3)
      modifies this`offset, this`encoded, raw
      ensures ok ==> Core() && encoded && !ended && taken == old(taken) && unread == old(unread) && text == old(text)
      ensures !ok ==> IsUtf16(total)
    {
      hide Whole, Count;
      ghost var bytes := raw.Contents();
      var p := raw.ptr;
      assert |bytes| == raw.last - p && forall i :: 0 <= i < |bytes| ==> bytes[i] == raw.data[p + i];
      assert total[0..] == total == bytes + source;
      MarkAtFront(bytes, source);
      if raw.last - p >= 2 && ((raw.data[p] == 0xFF && raw.data[p + 1] == 0xFE)
                               || (raw.data[p] == 0xFE && raw.data[p + 1] == 0xFF)) {
        return false;
      }
      if raw.last - p >= 3 && raw.data[p] == 0xEF && raw.data[p + 1] == 0xBB && raw.data[p + 2] == 0xBF {
        raw.Advance(3);
        offset := 3;
        assert total[3..] == bytes[3..] + source;
      }
      assert total[offset..offset] == [] && offset == BomLength(bytes);
      encoded, ok := true, true;
    }

    /** Decodes the character at the front of the raw buffer, an octet at a time. */
    method DecodeOne() returns (r: Decoded)
      requires Buffers() && raw.Contents() != []
      ensures r == Decode(raw.Contents())
    {
      ghost var s := raw.Contents();
      var p := raw.ptr;
      var w := Width(raw.data[p]);
      if w == 0 {
        return Invalid;
      }
      if w > raw.last - p {
        return Incomplete;
      }
      var value: nat := LeadBits(raw.data[p]);
      var k := 1;
      while k < w
        invariant 1 <= k <= w && TailsUpTo(s, k) && value == Fold(LeadBits(s[0]), s[1..k])
      {
        var octet := raw.data[p + k];
        assert octet == s[k];
        if !IsTail(octet) {
          assert s[1..w][k - 1] == octet;
          return Invalid;
        }
        FoldOne(LeadBits(s[0]), s, k);
        value := value * 64 + TailBits(octet);
        k := k + 1;
      }
      if !LongEnough(w, value) || 0xD800 <= value <= 0xDFFF || value > 0x10FFFF || !Allowed(value) {
        return Invalid;
      }
      r := Char(value, w);
    }

    /** Moves one decoded character from the raw buffer to the other. */
    method MoveOne(value: nat, w: nat)
      requires Core() && encoded && !ended && raw.Contents() != [] && Decode(raw.Contents()) == Char(value, w)
      requires value < 0x200000 && 0 < w <= |raw.Contents()| && buffer.last + w <= BUFFER_SIZE
      modifies this`offset, this`unread, this`text, raw`ptr, buffer`last, buffer.data
      ensures Core() && offset == old(offset) + w && raw.Contents() == old(raw.Contents())[w..]
      ensures buffer.last == old(buffer.last) + w
    {
      hide Whole, Count, ValidText, Decode, Encode;
      ghost var s, was := raw.Contents(), buffer.Contents();
      ghost var bom, c := BomLength(total), s[..w];
      Accepted(total, bom, offset, s, source, w);
      OneMore(text, c);
      ValidConcat(text, c);
      assert was == text;
      raw.Advance(w);
      buffer.PushAll(Encode(value));
      offset, unread, text := offset + w, unread + 1, text + c;
      assert taken + (was + c) == taken + was + c;
    }

    /** Decodes what is in the raw buffer, until it is empty or what is left of it is not a whole character. */
    method DecodeRaw() returns (ok: bool)
      requires Core() && encoded && !ended && buffer.last + |raw.Contents()| < BUFFER_SIZE
      modifies this`offset, this`unread, this`text, raw`ptr, buffer`last, buffer.data
      ensures ok ==> Core() && |raw.Contents()| < 4 && (eof ==> raw.Contents() == [])
      ensures ok ==> buffer.last + |raw.Contents()| == old(buffer.last + |raw.Contents()|) && offset >= old(offset)
      ensures ok ==> |raw.Contents()| <= |old(raw.Contents())|
      ensures !ok ==> !ValidText(Body(total))
    {
      hide Whole, Count, ValidText, Decode, Encode;
      while raw.ptr != raw.last
        invariant Core() && encoded && !ended && offset >= old(offset)
        invariant buffer.last + |raw.Contents()| == old(buffer.last + |raw.Contents()|)
        decreases |raw.Contents()|
      {
        ghost var s := raw.Contents();
        DecodedRange(s);
        var r := DecodeOne();
        match r {
          case Invalid =>
            Refused(total, BomLength(total), offset, s, source);
            return false;
          case Incomplete =>
            if eof {
              Refused(total, BomLength(total), offset, s, source);
              return false;
            }
            return true;
          case Char(value, w) =>
            MoveOne(value, w);
        }
      }
      ok := true;
    }

    /** Marks the end of the input. */
    method MarkEnd()
      requires Core() && encoded && !ended && eof && raw.Contents() == [] && buffer.last < BUFFER_SIZE
      modifies this`unread, this`ended, buffer`last, buffer.data
      ensures Inv() && ended
    {
      hide Whole, Count, ValidText;
      ghost var was := buffer.Contents();
      buffer.Push(0);
      unread, ended := unread + 1, true;
      ghost var all := total[BomLength(total)..offset];
      assert was == text;
      assert taken + (was + [0]) == taken + was + [0] && all + [] == all;
    }

    /** One round of the fill loop: more raw octets if need be, and all of them decoded. */
    method Fill(refill: bool) returns (ok: bool)
      requires Core() && encoded && !ended && buffer.ptr == 0 && unread < REQUEST_MAX
      modifies this`offset, this`unread, this`text, this`source, this`eof, raw, raw.data, buffer`last, buffer.data
      ensures ok ==> Core() && raw.Valid() && |raw.Contents()| < 4 && buffer.last < BUFFER_SIZE
      ensures ok && eof ==> raw.Contents() == []
      ensures ok ==> |source| <= |old(source)| && buffer.ptr == 0
      ensures ok && refill && |old(raw.Contents())| < RAW_SIZE ==> eof || |source| < |old(source)|
      ensures !ok ==> !ValidText(Body(total))
    {
      hide Whole, Count, ValidText;
      WholeSize(text);
      if refill {
        UpdateRaw();
      }
      ok := DecodeRaw();
    }

    /** `yaml_parser_update_buffer` */
    method UpdateBuffer(length: nat) returns (ok: bool)
      requires Inv() && length <= REQUEST_MAX
      modifies this, raw, raw.data, buffer, buffer.data
      ensures ok ==> Inv() && taken == old(taken) && (unread >= length || ended)
      ensures !ok ==> IsUtf16(total) || !ValidText(Body(total))
    {
      hide Whole, Count, ValidText, Core;
      Shape();
      ok := true;
      if (eof && raw.ptr == raw.last) || unread >= length {
        return;
      }
      if !encoded {
        ok := DetermineEncoding();
        if !ok {
          return;
        }
      }
      CompactBuffer();
      var first := true;
      while unread < length
        invariant Core() && encoded && !ended && buffer.ptr == 0 && taken == old(taken)
        invariant raw.Valid() && (first ==> unread < length) && (!first ==> |raw.Contents()| < 4 && !eof)
        decreases |source|, if first then 1 else 0
      {
        ok := Fill(!first || raw.ptr == raw.last);
        if !ok {
          return;
        }
        first := false;
        if eof {
          MarkEnd();
          return;
        }
      }
    }

    method CompactBuffer()
      requires Core() && encoded && !ended
      modifies buffer, buffer.data
      ensures Core() && buffer.ptr == 0 && raw.Valid() && raw.Contents() == old(raw.Contents())
    {
      hide Whole, Count, ValidText;
      buffer.Compact();
    }

    /** `SKIP`: the scanner takes a character, which is not the mark of the end. */
    method Skip()
      requires Inv() && text != []
      modifies this`unread, this`taken, this`text, buffer`ptr
      ensures Inv() && Delivered() == old(Delivered()) && taken == old(taken) + old(text)[..Width(old(text)[0])]
      ensures text == old(text)[Width(old(text)[0])..]
    {
      hide Whole, Count, ValidText, Decode;
      ghost var s, t := buffer.Contents(), text;
      TakeOne(t);
      Front(buffer, t, Width(t[0]));
      var w := Width(buffer.data[buffer.ptr]);
      Cut(s, t, w, taken);
      buffer.Advance(w);
      taken, text, unread := taken + t[..w], t[w..], unread - 1;
    }

    lemma {:induction false} Shape()
      requires Core()
      ensures raw.Valid() && buffer.Valid() && (raw.ptr == raw.last <==> raw.Contents() == [])
    {
    }

    /** While the end is not marked there is a character to take, and after it there is none but the mark. */
    lemma {:induction false} Next()
      requires Inv() && (unread >= 1 || ended)
      ensures buffer.Valid() && buffer.Contents() != [] && (buffer.Contents()[0] == 0 <==> text == [])
      ensures text != [] ==> 0 < Width(text[0]) <= |text| && text <= buffer.Contents()
      ensures text == [] ==> taken == Body(total) && ValidText(Body(total)) && !IsUtf16(total)
      ensures |taken| + |text| <= |total|
    {
      hide Count, Whole, ValidText;
      EmptyCount();
      NoMark(text);
      if text == [] {
        Finished();
      } else {
        TakeOne(text);
      }
    }

    lemma {:induction false} SomeUnread()
      requires Inv() && (unread >= 1 || ended)
      ensures unread > 0
    {
    }

    lemma {:induction false} Finished()
      requires Inv() && ended && text == []
      ensures taken == Body(total) && ValidText(Body(total)) && !IsUtf16(total)
    {
      hide Count, Whole, ValidText;
      assert |total[offset..]| == 0;
      var all := total[BomLength(total)..offset];
      assert all == Body(total) && taken + [0] == all + [0];
      assert (taken + [0])[..|taken|] == taken && (all + [0])[..|all|] == all;
    }
  }

  lemma {:induction false} TakeOne(t: seq<Byte>)
    requires ValidText(t) && Whole(t) && t != []
    ensures var w := Width(t[0]); 0 < w <= |t| && ValidText(t[w..]) && Whole(t[w..]) && Count(t) == 1 + Count(t[w..])
  {
  }

  /** The octets of a character after its first one that have been looked at are following octets. */
  ghost predicate TailsUpTo(s: seq<Byte>, k: nat)
    ensures TailsUpTo(s, k) ==> 1 <= k <= |s| && AllTails(s[1..k])
  {
    1 <= k <= |s| && forall i :: 1 <= i < k ==> IsTail(s[i])
  }

  /** One more octet adds its bits. */
  lemma {:induction false} FoldOne(value: nat, s: seq<Byte>, k: nat)
    requires TailsUpTo(s, k) && k < |s| && IsTail(s[k])
    ensures TailsUpTo(s, k + 1) && Fold(value, s[1..k + 1]) == Fold(value, s[1..k]) * 64 + TailBits(s[k])
  {
    assert s[1..k + 1] == s[1..k] + [s[k]];
    FoldLast(value, s[1..k], s[k]);
  }

  lemma {:induction false} FoldLast(value: nat, tails: seq<Byte>, octet: Byte)
    requires AllTails(tails) && IsTail(octet)
    ensures Fold(value, tails + [octet]) == Fold(value, tails) * 64 + TailBits(octet)
    decreases |tails|
  {
    var all := tails + [octet];
    if tails == [] {
      assert all == [octet] && all[1..] == [];
    } else {
      assert all[0] == tails[0] && all[1..] == tails[1..] + [octet];
      FoldLast(value * 64 + TailBits(tails[0]), tails[1..], octet);
    }
  }

  /** Taking octets from the front of a buffer, where they are at the front of its text too. */
  lemma {:induction false} Cut(s: seq<Byte>, t: seq<Byte>, w: nat, before: seq<Byte>)
    requires t <= s && w <= |t|
    ensures s[..w] == t[..w] && s[w..] == t[w..] + s[|t|..]
    ensures before + t[..w] + s[w..] == before + s
  {
    assert s == t + s[|t|..];
    assert s == s[..w] + s[w..];
  }

  lemma {:induction false} Divided(before: seq<Byte>, source: seq<Byte>, n: nat)
    requires n <= |source|
    ensures before + source[..n] + source[n..] == before + source
  {
    assert source == source[..n] + source[n..];
  }

  lemma {:induction false} EmptyCount()
    ensures Whole([]) && Count([]) == 0
  {
  }

  /** No accepted text holds the octet that marks the end. */
  lemma {:induction false} NoMark(s: seq<Byte>)
    requires ValidText(s)
    ensures forall i :: 0 <= i < |s| ==> s[i] != 0
    decreases |s|
  {
    if s != [] {
      var w := Width(s[0]);
      NoMark(s[w..]);
      DecodeIsStandard(s);
      assert forall i :: w <= i < |s| ==> s[i] == s[w..][i - w];
      assert forall i :: 0 <= i < w ==> s[i] == s[..w][i];
    }
  }

  lemma {:induction false} DecodedRange(s: seq<Byte>)
    requires s != []
    ensures Decode(s).Char? ==> Decode(s).value < 0x200000 && 0 < Decode(s).width <= |s|
    ensures Decode(s).Incomplete? ==> |s| < 4
  {
  }

  /** A character that is accepted extends the text accepted so far, as it stands. */
  lemma {:induction false} Accepted(total: seq<Byte>, bom: nat, offset: nat, s: seq<Byte>, source: seq<Byte>, w: nat)
    requires bom <= offset <= |total| && total[offset..] == s + source && ValidText(total[bom..offset])
    requires s != [] && Decode(s).Char? && Decode(s).width == w
    ensures offset + w <= |total| && total[offset + w..] == s[w..] + source
    ensures total[bom..offset + w] == total[bom..offset] + s[..w] && ValidText(total[bom..offset + w])
    ensures Decode(s).value < 0x200000 && Encode(Decode(s).value) == s[..w]
    ensures Whole(s[..w]) && Count(s[..w]) == 1 && ValidText(s[..w])
  {
    ValidOne(s);
    ValidConcat(total[bom..offset], s[..w]);
    assert total[offset..offset + w] == s[..w];
    assert total[offset + w..] == total[offset..][w..];
    assert total[bom..offset + w] == total[bom..offset] + total[offset..offset + w];
    var c := s[..w];
    assert c[0] == s[0] && c[w..] == [];
  }

  lemma {:induction false} OneMore(was: seq<Byte>, c: seq<Byte>)
    requires Whole(was) && Whole(c) && Count(c) == 1
    ensures Whole(was + c) && Count(was + c) == Count(was) + 1
  {
    WholeConcat(was, c);
  }

  /** What is refused is not valid text, whatever follows. */
  lemma {:induction false} Refused(total: seq<Byte>, bom: nat, offset: nat, s: seq<Byte>, source: seq<Byte>)
    requires bom <= offset <= |total| && total[offset..] == s + source && ValidText(total[bom..offset])
    requires s != [] && (Decode(s).Invalid? || (Decode(s).Incomplete? && source == []))
    ensures !ValidText(total[bom..])
  {
    ValidConcat(total[bom..offset], total[offset..]);
    assert total[bom..] == total[bom..offset] + total[offset..];
    if Decode(s).Invalid? {
      DecodeMore(s, source);
    } else {
      assert s + source == s;
    }
  }

  /** The scanner takes up to that many of the characters that are buffered, or comes to the mark of the end. */
  method TakeUpTo(reader: Reader, n: nat, before: seq<Byte>) returns (done: bool, out: seq<Byte>)
    requires reader.Inv() && reader.taken == before
    modifies reader`unread, reader`taken, reader`text, reader.buffer`ptr
    ensures reader.Inv() && reader.taken == out && before <= out && |out| <= |before| + |old(reader.text)|
    ensures done ==> out == Body(reader.total) && ValidText(Body(reader.total)) && !IsUtf16(reader.total)
    ensures !done && n > 0 && old(reader.unread) > 0 ==> |out| > |before| && |out| <= |reader.total|
  {
    hide Whole, Count, ValidText, Body, Reader.Core;
    out, done := before, false;
    var i := 0;
    while i < n && reader.unread > 0
      invariant i <= n && reader.Inv() && reader.taken == out && before <= out
      invariant |out| + |reader.text| <= |before| + |old(reader.text)|
      invariant i == 0 ==> reader.unread == old(reader.unread)
      invariant i > 0 ==> |out| > |before| && |out| <= |reader.total|
    {
      reader.Next();
      var p := reader.buffer.ptr;
      var c := reader.buffer.data[p];
      assert c == reader.buffer.Contents()[0];
      if c == 0 {
        done := true;
        return;
      }
      ghost var t := reader.text;
      Front(reader.buffer, t, Width(t[0]));
      out := out + reader.buffer.data[p..p + Width(c)];
      reader.Skip();
      i := i + 1;
    }
  }

  /** The scanner asks for some characters to be buffered, and takes some of those that are. */
  datatype Request = Request(length: nat, taken: nat)

  /**
   Reads an input to its end, however the source splits it, and with whatever requests first: exactly the valid texts
   are accepted, and what is delivered is the text without its byte order mark, and one mark of the end.
   */
  method ReadAll(input: seq<Byte>, requests: seq<Request>) returns (ok: bool, out: seq<Byte>)
    requires forall i :: 0 <= i < |requests| ==> requests[i].length <= REQUEST_MAX
    ensures ok <==> !IsUtf16(input) && ValidText(Body(input))
    ensures ok ==> out == Body(input) + [0]
  {
    hide Whole, Count, ValidText, Body, Reader.Core;
    var reader := new Reader(input);
    out := [];
    var i, done := 0, false;
    while true
      invariant i <= |requests| && reader.Inv() && reader.taken == out && reader.total == input
      invariant fresh(reader) && fresh(reader.raw) && fresh(reader.buffer) && fresh(reader.raw.data)
      invariant fresh(reader.buffer.data)
      decreases |requests| - i, |input| - |out|
    {
      var request := if i < |requests| then requests[i] else Request(1, 1);
      ok := reader.UpdateBuffer(request.length);
      if !ok {
        return;
      }
      if i == |requests| {
        reader.SomeUnread();
      }
      done, out := TakeUpTo(reader, request.taken, out);
      if done {
        return true, out + [0];
      }
      if i < |requests| {
        i := i + 1;
      }
    }
  }

  /** What is at the front of a buffer is in its array from its first place on. */
  lemma {:induction false} Front(w: Window, t: seq<Byte>, n: nat)
    requires w.Valid() && t <= w.Contents() && 0 < n <= |t|
    ensures w.ptr + n <= w.data.Length && w.data[w.ptr..w.ptr + n] == t[..n] && w.data[w.ptr] == t[0]
  {
    assert t[..n] == w.Contents()[..n];
  }
}
