/** The ids that states are printed under, and what a printed set of states loads as. */
module StateIds {
  import opened Wrappers
  import opened Characters
  import opened CfgTree
  import opened DesiredSet
  import opened DesiredReload
  import opened Numerals
  import N = NetState

  const ID_SIZE := 16

  function IdSource(ds: N.Desired): string {
    if ds.bridge != "" then ds.bridge else ds.scenario
  }

  function IdStart(c: char): string {
    if IsKeyStart(c) then [c] else if IsDigit(c) then ['_', c] else ['_']
  }

  function IdChar(c: char): char {
    if IsKeyChar(c) then c else '_'
  }

  /** A name with every character that keys do not have replaced, and with nothing but a letter or `_` first. */
  function IdText(s: string): (id: string)
    ensures |id| == |s| + if s != "" && IsDigit(s[0]) then 1 else 0
    ensures s != "" ==> IsKeyStart(id[0])
    ensures forall i :: 0 <= i < |id| ==> IsKeyChar(id[i])
  {
    if s == "" then "" else if |s| == 1 then IdStart(s[0]) else IdText(s[..|s| - 1]) + [IdChar(s[|s| - 1])]
  }

  /** `cfg_state_id`: the id of the state with the given number, if the buffer has room for it. */
  function Id(ds: N.Desired, number: nat, size: nat): Result<string> {
    var id := if IdSource(ds) == "" then "s" + Decimal(number) else IdText(IdSource(ds));
    if |id| < size then Ok(id) else Err(E2BIG)
  }

  /** Every id is a key that paths can have. */
  lemma {:induction false} IdIsKey(ds: N.Desired, number: nat)
    ensures Id(ds, number, ID_SIZE).Ok? ==> ShortKey(Id(ds, number, ID_SIZE).value)
  {
    ValueOfDecimal(number);
    var id := "s" + Decimal(number);
    assert forall i :: 1 <= i < |id| ==> id[i] == Decimal(number)[i - 1];
  }

  /** Names that differ only in what keys do not have get the same id. */
  lemma {:induction false} IdsCollide()
    ensures IdText("br-a") == IdText("br_a") == "br_a"
  {
    assert "br-a"[..3] == "br-" && "br-"[..2] == "br" && "br"[..1] == "b";
    assert "br_a"[..3] == "br_" && "br_"[..2] == "br";
    assert IdText("b") == "b" && IdText("br") == "br" && IdText("br-") == "br_" && IdText("br_") == "br_";
  }

  /** `cfg_state_id` into the buffer it is given. */
  method WriteId(ds: N.Desired, dst: array<char>, number: nat) returns (rc: Option<Error>)
    modifies dst
    ensures match Id(ds, number, dst.Length)
            case Err(e) => rc == Some(e)
            case Ok(id) => rc.None? && dst[..|id|] == id && dst[|id|] == '\0'
  {
    hide Decimal, IsKeyStart, IsDigit;
    var src, n, i := IdSource(ds), 0, 0;
    while i < |src| && n + 1 < dst.Length
      invariant i <= |src| && n == |IdText(src[..i])| && (n == 0 <==> i == 0) && (i > 0 ==> n < dst.Length)
      invariant n <= dst.Length && dst[..n] == IdText(src[..i])
    {
      var c := src[i];
      assert src[..i + 1][..i] == src[..i];
      if n == 0 {
        assert src[..1] == [c];
        if IsKeyStart(c) {
          dst[0] := c;
          n := 1;
        } else if IsDigit(c) {
          dst[0] := '_';
          n := 1;
          if n + 1 >= dst.Length {
            assert src[0] == c;
            return Some(E2BIG);
          }
          dst[1] := c;
          n := 2;
        } else {
          dst[0] := '_';
          n := 1;
        }
      } else {
        assert IdText(src[..i + 1]) == IdText(src[..i]) + [IdChar(c)];
        dst[n] := if IsKeyChar(c) then c else '_';
        n := n + 1;
      }
      i := i + 1;
    }
    if i < |src| {
      assert src[..i] != "" ==> src[..i][0] == src[0];
      return Some(E2BIG);
    }
    assert src[..i] == src;
    if n == 0 {
      var text := "s" + Decimal(number);
      if |text| >= dst.Length {
        return Some(E2BIG);
      }
      forall k | 0 <= k < |text| {
        dst[k] := text[k];
      }
      dst[|text|] := '\0';
    } else {
      dst[n] := '\0';
    }
    rc := None;
  }

  function Ids(states: seq<N.Desired>, first: nat): (r: Result<seq<string>>)
    ensures r.Ok? ==> |r.value| == |states|
  {
    if states == [] then Ok([])
    else
      var id :- Id(states[0], first, ID_SIZE);
      var rest :- Ids(states[1..], first + 1);
      Ok([id] + rest)
  }

  /** `cfg_set` on the states from the given number on. */
  function PrintSet(states: seq<N.Desired>, first: nat): Result<string> {
    if states == [] then Ok("")
    else
      var id :- Id(states[0], first, ID_SIZE);
      var rest :- PrintSet(states[1..], first + 1);
      Ok(PrintState(states[0], id) + rest)
  }

  lemma {:induction false} PrintIsStates(states: seq<N.Desired>, first: nat)
    ensures match Ids(states, first)
            case Ok(ids) => PrintSet(states, first) == Ok(PrintStates(states, ids))
            case Err(e) => PrintSet(states, first) == Err(e)
    decreases |states|
  {
    hide Id, PrintState;
    if states != [] {
      PrintIsStates(states[1..], first + 1);
      var r := Ids(states, first);
      if r.Ok? {
        assert r.value[1..] == Ids(states[1..], first + 1).value;
      }
    }
  }

  lemma {:induction false} IdsAreKeys(states: seq<N.Desired>, first: nat)
    ensures Ids(states, first).Ok? ==> forall i :: 0 <= i < |states| ==> ShortKey(Ids(states, first).value[i])
    decreases |states|
  {
    hide Id, ShortKey;
    if states != [] {
      IdIsKey(states[0], first);
      IdsAreKeys(states[1..], first + 1);
      var r := Ids(states, first);
      if r.Ok? {
        var rest := Ids(states[1..], first + 1).value;
        assert forall i :: 1 <= i < |states| ==> r.value[i] == rest[i - 1];
      }
    }
  }

  lemma {:induction false} IdHasNoNul(ds: N.Desired, number: nat)
    ensures Id(ds, number, ID_SIZE).Ok? ==> IsCString(Id(ds, number, ID_SIZE).value)
  {
    hide Id;
    IdIsKey(ds, number);
  }

  /** The C string that a buffer starts with. */
  method CString(buffer: array<char>, ghost text: string) returns (s: string)
    requires |text| < buffer.Length && buffer[..|text|] == text && buffer[|text|] == '\0' && IsCString(text)
    ensures s == text
  {
    var n := 0;
    while buffer[n] != '\0'
      invariant n <= |text|
      decreases |text| - n
    {
      assert buffer[n] == buffer[..|text|][n];
      n := n + 1;
    }
    assert buffer[..|text|] == text;
    s := buffer[..n];
  }

  /** `cfg_set` */
  method WriteSet(states: seq<N.Desired>) returns (rc: Option<Error>, out: string)
    ensures match PrintSet(states, 0)
            case Ok(text) => rc.None? && out == text
            case Err(e) => rc == Some(e)
  {
    hide PrintState, Id, IsCString;
    out := "";
    var buffer := new char[ID_SIZE];
    assert states[0..] == states;
    NothingBefore(states);
    for i := 0 to |states|
      invariant fresh(buffer) && buffer.Length == ID_SIZE
      invariant PrintSet(states, 0) == After(out, PrintSet(states[i..], i))
    {
      assert states[i..][1..] == states[i + 1..];
      var e := WriteId(states[i], buffer, i);
      if e.Some? {
        return e, out;
      }
      ghost var expected := Id(states[i], i, ID_SIZE).value;
      IdHasNoNul(states[i], i);
      IdFits(states[i], i);
      var id := CString(buffer, expected);
      MoreOut(out, PrintState(states[i], id), PrintSet(states[i + 1..], i + 1));
      out := out + PrintState(states[i], id);
    }
    assert states[|states|..] == [];
    rc := None;
  }

  function After(out: string, rest: Result<string>): Result<string> {
    match rest case Ok(text) => Ok(out + text) case Err(e) => Err(e)
  }

  lemma {:induction false} NothingBefore(states: seq<N.Desired>)
    ensures After("", PrintSet(states, 0)) == PrintSet(states, 0)
  {
    hide PrintSet;
    var r := PrintSet(states, 0);
    assert r.Ok? ==> "" + r.value == r.value;
  }

  lemma {:induction false} MoreOut(out: string, line: string, rest: Result<string>)
    ensures After(out, After(line, rest)) == After(out + line, rest)
  {
    if rest.Ok? {
      assert out + (line + rest.value) == out + line + rest.value;
    }
  }

  lemma {:induction false} IdFits(ds: N.Desired, number: nat)
    ensures Id(ds, number, ID_SIZE).Ok? ==> |Id(ds, number, ID_SIZE).value| < ID_SIZE
  {
  }
}
