/** The name of an interface, put into a command for `$iface` (`subst_iface` of `verify.c`). */
module Substitution {
  /** The text with every `$iface` replaced, from the left. */
  function Subst(src: string, ifname: string): string
    decreases |src|
  {
    if src == "" then ""
    else if "$iface" <= src then ifname + Subst(src[6..], ifname)
    else [src[0]] + Subst(src[1..], ifname)
  }

  const IFACE := "$iface"

  /** The parts of a text, with something between them. */
  function Join(parts: seq<string>, between: string): string {
    if parts == [] then "" else if |parts| == 1 then parts[0] else parts[0] + between + Join(parts[1..], between)
  }

  predicate HasAt(text: string, i: nat, word: string) {
    i + |word| <= |text| && text[i..i + |word|] == word
  }

  /** Where the parts of a text that are followed by something end. */
  function Ends(parts: seq<string>, between: string, at: nat): set<nat> {
    if |parts| <= 1 then {} else {at + |parts[0]|} + Ends(parts[1..], between, at + |parts[0]| + |between|)
  }

  /** The text is these parts with `$iface` between them, and it stands nowhere else. */
  ghost predicate Cut(text: string, parts: seq<string>) {
    parts != [] && text == Join(parts, IFACE) && forall i: nat :: HasAt(text, i, IFACE) <==> i in Ends(parts, IFACE, 0)
  }

  lemma {:induction false} EndsAfter(parts: seq<string>, between: string, at: nat, i: nat)
    ensures i in Ends(parts, between, at) ==> i >= at
    decreases |parts|
  {
    if |parts| > 1 {
      EndsAfter(parts[1..], between, at + |parts[0]| + |between|, i);
    }
  }

  lemma {:induction false} EndsMoved(parts: seq<string>, between: string, at: nat, more: nat, i: nat)
    ensures i in Ends(parts, between, at) <==> i + more in Ends(parts, between, at + more)
    decreases |parts|
  {
    if |parts| > 1 {
      EndsMoved(parts[1..], between, at + |parts[0]| + |between|, more, i);
      assert at + |parts[0]| + |between| + more == at + more + |parts[0]| + |between|;
    }
  }

  lemma {:induction false} HasLater(text: string, n: nat, i: nat, word: string)
    requires n <= |text|
    ensures HasAt(text[n..], i, word) <==> HasAt(text, n + i, word)
  {
    if n + i + |word| <= |text| {
      assert text[n..][i..i + |word|] == text[n + i..n + i + |word|];
    }
  }

  /** The first part is empty: the text starts with `$iface`, and the rest is the other parts. */
  lemma {:induction false} CutFirst(text: string, parts: seq<string>)
    requires Cut(text, parts) && |parts| > 1 && parts[0] == ""
    ensures IFACE <= text && Cut(text[6..], parts[1..])
  {
    hide Ends, Join, HasAt;
    JoinMore(parts, IFACE);
    assert text == IFACE + Join(parts[1..], IFACE);
    assert text[6..] == Join(parts[1..], IFACE);
    forall i: nat
      ensures HasAt(text[6..], i, IFACE) <==> i in Ends(parts[1..], IFACE, 0)
    {
      HasLater(text, 6, i, IFACE);
      EndsMore(parts, IFACE, 0, 6 + i);
      EndsMoved(parts[1..], IFACE, 0, 6, i);
    }
  }

  lemma {:induction false} JoinMore(parts: seq<string>, between: string)
    requires |parts| > 1
    ensures Join(parts, between) == parts[0] + between + Join(parts[1..], between)
  {
  }

  lemma {:induction false} EndsMore(parts: seq<string>, between: string, at: nat, i: nat)
    requires |parts| > 1 && i > at + |parts[0]|
    ensures i in Ends(parts, between, at) <==> i in Ends(parts[1..], between, at + |parts[0]| + |between|)
  {
  }

  /** The first part is not empty: no `$iface` is at the start, and the rest is the parts but for a character. */
  lemma {:induction false} CutNext(text: string, parts: seq<string>)
    requires Cut(text, parts) && parts[0] != ""
    ensures text != "" && !(IFACE <= text) && text[0] == parts[0][0]
    ensures Cut(text[1..], [parts[0][1..]] + parts[1..])
  {
    hide Join, HasAt, Ends;
    var rest := [parts[0][1..]] + parts[1..];
    JoinNext(parts, IFACE);
    assert !HasAt(text, 0, IFACE) by { NotAtStart(parts, IFACE); }
    StartsWith(text, IFACE);
    forall i: nat
      ensures HasAt(text[1..], i, IFACE) <==> i in Ends(rest, IFACE, 0)
    {
      HasLater(text, 1, i, IFACE);
      EndsNext(parts, IFACE, i);
    }
  }

  lemma {:induction false} StartsWith(text: string, word: string)
    ensures HasAt(text, 0, word) <==> word <= text
  {
    if |word| <= |text| {
      assert text[0..|word|] == text[..|word|];
    }
  }

  lemma {:induction false} NotAtStart(parts: seq<string>, between: string)
    requires parts != [] && parts[0] != ""
    ensures 0 !in Ends(parts, between, 0)
  {
    if |parts| > 1 {
      EndsAfter(parts[1..], between, |parts[0]| + |between|, 0);
    }
  }

  lemma {:induction false} JoinNext(parts: seq<string>, between: string)
    requires parts != [] && parts[0] != ""
    ensures Join(parts, between) != "" && Join(parts, between)[0] == parts[0][0]
    ensures Join(parts, between)[1..] == Join([parts[0][1..]] + parts[1..], between)
  {
    var rest := [parts[0][1..]] + parts[1..];
    if |parts| > 1 {
      assert rest[1..] == parts[1..];
      assert (parts[0] + between + Join(parts[1..], between))[1..] ==
             parts[0][1..] + between + Join(parts[1..], between);
    }
  }

  lemma {:induction false} EndsNext(parts: seq<string>, between: string, i: nat)
    requires parts != [] && parts[0] != ""
    ensures i + 1 in Ends(parts, between, 0) <==> i in Ends([parts[0][1..]] + parts[1..], between, 0)
  {
    var rest := [parts[0][1..]] + parts[1..];
    if |parts| > 1 {
      assert rest[1..] == parts[1..];
      EndsMoved(parts[1..], between, |rest[0]| + |between|, 1, i);
      assert |rest[0]| + |between| + 1 == |parts[0]| + |between|;
    }
  }

  /** Every `$iface` is replaced, and nothing else. */
  lemma {:induction false} SubstReplaces(text: string, parts: seq<string>, ifname: string)
    requires Cut(text, parts)
    ensures Subst(text, ifname) == Join(parts, ifname)
    decreases |text|
  {
    hide Ends, HasAt;
    if parts[0] == "" {
      if |parts| == 1 {
        OneCut(text, parts);
      } else {
        CutFirst(text, parts);
        SubstReplaces(text[6..], parts[1..], ifname);
        assert "" + ifname == ifname;
      }
    } else {
      CutNext(text, parts);
      var rest := [parts[0][1..]] + parts[1..];
      SubstReplaces(text[1..], rest, ifname);
      JoinNext(parts, ifname);
    }
  }

  lemma {:induction false} OneCut(text: string, parts: seq<string>)
    requires Cut(text, parts) && |parts| == 1
    ensures text == parts[0]
  {
  }

  /** Every text can be cut so. */
  lemma {:induction false} CutExists(text: string) returns (parts: seq<string>)
    ensures Cut(text, parts)
    decreases |text|
  {
    hide Join, HasAt, Ends;
    if text == "" {
      parts := [""];
      NothingHas();
    } else if IFACE <= text {
      var rest := CutExists(text[6..]);
      parts := [""] + rest;
      CutWithFirst(text, rest);
    } else {
      var rest := CutExists(text[1..]);
      parts := [[text[0]] + rest[0]] + rest[1..];
      CutWithNext(text, rest);
    }
  }

  lemma {:induction false} NothingHas()
    ensures Cut("", [""])
  {
  }

  lemma {:induction false} CutWithFirst(text: string, rest: seq<string>)
    requires IFACE <= text && Cut(text[6..], rest)
    ensures Cut(text, [""] + rest)
  {
    hide Join, HasAt, Ends;
    var parts := [""] + rest;
    assert parts[1..] == rest;
    JoinMore(parts, IFACE);
    assert text == "" + IFACE + text[6..];
    StartsWith(text, IFACE);
    forall i: nat
      ensures HasAt(text, i, IFACE) <==> i in Ends(parts, IFACE, 0)
    {
      FirstEnd(parts, IFACE);
      if i >= 6 {
        HasLater(text, 6, i - 6, IFACE);
        EndsMore(parts, IFACE, 0, i);
        EndsMoved(rest, IFACE, 0, 6, i - 6);
      } else if i > 0 {
        NoOverlap(text, i);
        EndsMore(parts, IFACE, 0, i);
        EndsAfter(rest, IFACE, 6, i);
      }
    }
  }

  lemma {:induction false} FirstEnd(parts: seq<string>, between: string)
    requires |parts| > 1 && parts[0] == ""
    ensures 0 in Ends(parts, between, 0)
  {
  }

  /** It does not overlap itself. */
  lemma {:induction false} NoOverlap(text: string, i: nat)
    requires IFACE <= text && 0 < i < 6
    ensures !HasAt(text, i, IFACE)
  {
    assert text[i] == IFACE[i] != '$';
    assert i + 6 <= |text| ==> text[i..i + 6][0] == text[i];
  }

  lemma {:induction false} CutWithNext(text: string, rest: seq<string>)
    requires text != "" && !(IFACE <= text) && Cut(text[1..], rest)
    ensures Cut(text, [[text[0]] + rest[0]] + rest[1..])
  {
    hide Join, HasAt, Ends;
    var parts := [[text[0]] + rest[0]] + rest[1..];
    assert parts[0][1..] == rest[0] && parts[1..] == rest[1..] && [parts[0][1..]] + parts[1..] == rest;
    JoinNext(parts, IFACE);
    assert text == [text[0]] + text[1..];
    StartsWith(text, IFACE);
    NotAtStart(parts, IFACE);
    forall i: nat
      ensures HasAt(text, i, IFACE) <==> i in Ends(parts, IFACE, 0)
    {
      if i > 0 {
        HasLater(text, 1, i - 1, IFACE);
        EndsNext(parts, IFACE, i - 1);
      }
    }
  }
}
