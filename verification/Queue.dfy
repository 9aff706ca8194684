/** The queue of `yaml_private.h` and `api.c`: a buffer with a head and a tail that is moved or doubled when full. */
module Queue {

  class Queue<T(0)> {
    var buf: array<T>
    var head: nat
    var tail: nat

    ghost predicate Valid()
      reads this
    {
      0 < buf.Length && head <= tail <= buf.Length
    }

    /** The elements that are queued. */
    ghost function Contents(): seq<T>
      requires Valid()
      reads this, buf
    {
      buf[head..tail]
    }

    /** `QUEUE_INIT` */
    constructor (size: nat)
      requires size > 0
      ensures Valid() && Contents() == [] && fresh(buf)
    {
      buf := new T[size];
      head, tail := 0, 0;
    }

    /** `QUEUE_EMPTY` */
    function Empty(): (r: bool)
      requires Valid()
      reads this, buf
      ensures r <==> Contents() == []
    {
      head == tail
    }

    function Length(): (n: nat)
      requires Valid()
      reads this, buf
      ensures n == |Contents()|
    {
      tail - head
    }

    /** `yaml_queue_extend`: doubles the buffer if all of it is used, or else moves the queue to its beginning. */
    method Extend()
      requires Valid() && tail == buf.Length
      modifies this, buf
      ensures Valid() && tail < buf.Length && Contents() == old(Contents())
      ensures buf == old(buf) || fresh(buf)
    {
      if head == 0 {
        var bigger := new T[2 * buf.Length];
        forall i | 0 <= i < tail {
          bigger[i] := buf[i];
        }
        assert bigger[..tail] == buf[head..tail];
        buf := bigger;
      }
      if tail == buf.Length {
        ghost var was := buf[..];
        var i := 0;
        while i < tail - head
          invariant 0 <= i <= tail - head && head == old(head) && tail == old(tail) && buf == old(buf)
          invariant forall j :: 0 <= j < i ==> buf[j] == was[head + j]
          invariant forall j :: i <= j < buf.Length ==> buf[j] == was[j]
        {
          buf[i] := buf[head + i];
          i := i + 1;
        }
        assert buf[..i] == was[head..tail];
        tail, head := i, 0;
      }
    }

    /** `ENQUEUE` */
    method Enqueue(x: T)
      requires Valid()
      modifies this, buf
      ensures Valid() && Contents() == old(Contents()) + [x]
      ensures buf == old(buf) || fresh(buf)
    {
      if tail == buf.Length {
        Extend();
      }
      ghost var was := Contents();
      buf[tail] := x;
      tail := tail + 1;
      assert buf[head..tail - 1] == was;
    }

    /** `DEQUEUE` */
    method Dequeue() returns (x: T)
      requires Valid() && Contents() != []
      modifies this
      ensures Valid() && old(Contents()) == [x] + Contents() && buf == old(buf)
    {
      x := buf[head];
      head := head + 1;
    }

    /** The move of `QUEUE_INSERT`: what is queued from a place on goes up by one. */
    method Shift(from: nat)
      requires Valid() && head <= from <= tail < buf.Length
      modifies buf
      ensures buf[head..from] == old(buf[head..from]) && buf[from + 1..tail + 1] == old(buf[from..tail])
    {
      ghost var was := buf[..];
      var i := tail;
      while i > from
        invariant from <= i <= tail
        invariant forall j :: 0 <= j <= i ==> buf[j] == was[j]
        invariant forall j :: i <= j < tail ==> buf[j + 1] == was[j]
      {
        buf[i] := buf[i - 1];
        i := i - 1;
      }
      assert buf[from + 1..tail + 1] == was[from..tail];
    }

    /** `QUEUE_INSERT` */
    method Insert(index: nat, x: T)
      requires Valid() && index <= |Contents()|
      modifies this, buf
      ensures Valid() && Contents() == old(Contents())[..index] + [x] + old(Contents())[index..]
      ensures buf == old(buf) || fresh(buf)
    {
      if tail == buf.Length {
        Extend();
      }
      ghost var queued := Contents();
      var at := head + index;
      Slices(buf[..], head, at, tail);
      Shift(at);
      Put(at, x, queued[..index], queued[index..]);
    }

    method Put(at: nat, x: T, ghost before: seq<T>, ghost after: seq<T>)
      requires Valid() && head <= at <= tail < buf.Length
      requires buf[head..at] == before && buf[at + 1..tail + 1] == after
      modifies this`tail, buf
      ensures Valid() && Contents() == before + [x] + after
    {
      buf[at] := x;
      tail := tail + 1;
      assert buf[head..tail] == buf[head..at] + [buf[at]] + buf[at + 1..tail];
    }
  }

  lemma {:induction false} Slices<T>(s: seq<T>, from: nat, at: nat, to: nat)
    requires from <= at <= to <= |s|
    ensures s[from..at] == s[from..to][..at - from] && s[at..to] == s[from..to][at - from..]
  {
  }
}
