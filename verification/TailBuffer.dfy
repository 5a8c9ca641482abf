/**
 The bounded tail of a job's output (the ringBuffer of internal/jobs/jobs.go):
 a growable array whose front is dropped by shifting the rest left, in place.
 */
module TailBuffer {
  import opened Prelude

  /** The last `cap` elements, or all of them when there are fewer. */
  function Tail<T>(s: seq<T>, cap: nat): (t: seq<T>)
    ensures |t| == if |s| < cap then |s| else cap
    ensures t == s[|s| - |t|..]
  {
    if |s| <= cap then s else s[|s| - cap..]
  }

  /** Forgetting all but the tail early loses nothing the tail would still show later. */
  lemma TailOfTail<T>(s: seq<T>, p: seq<T>, cap: nat)
    ensures Tail(Tail(s, cap) + p, cap) == Tail(s + p, cap)
  {
    var t := Tail(s, cap);
    assert s + p == s[..|s| - |t|] + (t + p);
  }

  /** The three cases of a write. */
  lemma TailOfWrite<T>(t: seq<T>, p: seq<T>, cap: nat)
    requires |t| <= cap
    ensures |p| >= cap ==> Tail(t + p, cap) == p[|p| - cap..]
    ensures |t| + |p| <= cap ==> Tail(t + p, cap) == t + p
    ensures |p| < cap < |t| + |p| ==> Tail(t + p, cap) == t[|t| + |p| - cap..] + p
  {
  }

  /** What the buffer holds after a list of writes, each pushed onto what the one before left. */
  function Pushed<T>(writes: seq<seq<T>>, cap: nat): seq<T> {
    if writes == [] then []
    else Tail(Pushed(writes[..|writes| - 1], cap) + writes[|writes| - 1], cap)
  }

  /** For any capacity and any write sizes that is exactly the tail of everything ever written. */
  lemma {:induction false} PushedIsTailOfAll<T>(writes: seq<seq<T>>, cap: nat)
    ensures Pushed(writes, cap) == Tail(Flat(writes), cap)
  {
    if writes != [] {
      var front, last := writes[..|writes| - 1], writes[|writes| - 1];
      assert writes == front + [last];
      PushedIsTailOfAll(front, cap);
      FlatAppend(front, last);
      TailOfTail(Flat(front), last, cap);
    }
  }

  /** bytes.Buffer as the ring buffer uses it: appending, emptying, and reading from the start. */
  class ByteBuffer {
    var data: array<byte>
    var len: nat

    ghost predicate Valid()
      reads this
    {
      len <= data.Length
    }

    ghost function Contents(): bytes
      requires Valid()
      reads this, data
    {
      data[..len]
    }

    constructor ()
      ensures Valid() && fresh(data) && Contents() == []
    {
      data := new byte[0];
      len := 0;
    }

    method Reset()
      requires Valid()
      modifies this`len
      ensures Valid() && Contents() == []
    {
      len := 0;
    }

    /** Moves to a larger array when `n` more bytes do not fit. */
    method Grow(n: nat)
      requires Valid()
      modifies this`data
      ensures Valid() && Contents() == old(Contents())
      ensures data == old(data) || fresh(data)
      ensures len + n <= data.Length
    {
      if len + n > data.Length {
        var bigger := new byte[2 * data.Length + n];
        for i := 0 to len
          invariant data == old(data) && data[..] == old(data[..])
          invariant forall k :: 0 <= k < i ==> bigger[k] == data[k]
        {
          bigger[i] := data[i];
        }
        data := bigger;
      }
    }

    method Write(p: bytes)
      requires Valid()
      modifies this, data
      ensures Valid() && Contents() == old(Contents()) + p
      ensures data == old(data) || fresh(data)
    {
      Grow(|p|);
      ghost var before := data[..len];
      for i := 0 to |p|
        invariant len == old(len) && len + |p| <= data.Length
        invariant data == old(data) || fresh(data)
        invariant data[..len] == before
        invariant data[len..len + i] == p[..i]
      {
        data[len + i] := p[i];
      }
      assert p[..|p|] == p;
      assert data[..len + |p|] == before + p by {
        assert data[..len + |p|] == data[..len] + data[len..len + |p|];
      }
      len := len + |p|;
    }

    /**
     Writing a later stretch of the buffer's own array to its start, the buffer
     having been emptied: source and destination overlap, so the copy must go
     forward.
     */
    method WriteFromSelf(drop: nat, end: nat)
      requires Valid() && len == 0 && drop <= end <= data.Length
      modifies this`len, data
      ensures Valid() && Contents() == old(data[drop..end])
    {
      for i := 0 to end - drop
        invariant len == 0
        invariant forall k :: 0 <= k < i ==> data[k] == old(data[drop + k])
        invariant forall k :: i <= k < data.Length ==> data[k] == old(data[k])
      {
        data[i] := data[drop + i];
      }
      len := end - drop;
    }
  }

  class RingBuffer {
    const buf: ByteBuffer
    const cap: nat

    ghost predicate Valid()
      reads this, buf
    {
      buf.Valid() && buf.len <= cap
    }

    ghost function Contents(): bytes
      requires Valid()
      reads this, buf, buf.data
    {
      buf.Contents()
    }

    constructor (cap: nat)
      ensures Valid() && this.cap == cap && Contents() == []
      ensures fresh(buf) && fresh(buf.data)
    {
      this.cap := cap;
      buf := new ByteBuffer();
    }

    /** Makes room for `n` more bytes by moving all but the first `drop` to the front. */
    method DropFront(drop: nat)
      requires Valid() && drop <= |Contents()|
      modifies buf, buf.data
      ensures Valid() && Contents() == old(Contents())[drop..] && buf.data == old(buf.data)
    {
      var end := buf.len;
      buf.Reset();
      buf.WriteFromSelf(drop, end);
      assert old(buf.data[drop..end]) == old(buf.data[..end])[drop..];
    }

    method Write(p: bytes)
      requires Valid()
      modifies buf, buf.data
      ensures Valid() && Contents() == Tail(old(Contents()) + p, cap)
      ensures buf.data == old(buf.data) || fresh(buf.data)
    {
      TailOfWrite(Contents(), p, cap);
      if |p| >= cap {
        buf.Reset();
        buf.Write(p[|p| - cap..]);
        return;
      }
      if buf.len + |p| > cap {
        DropFront(buf.len + |p| - cap);
      }
      buf.Write(p);
    }

    method Snapshot() returns (out: bytes)
      requires Valid()
      ensures out == Contents()
    {
      out := buf.data[..buf.len];
    }
  }
}
