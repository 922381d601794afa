/** The ring buffer that keeps the end of the log. */
module LogBuf {
  type Byte = x: int | 0 <= x < 256

  // The last `n` bytes of `s`, or all of them.
  function LastN(s: seq<Byte>, n: nat): seq<Byte> {
    if |s| <= n then s else s[|s| - n..]
  }

  function Concat(writes: seq<seq<Byte>>): seq<Byte> {
    if writes == [] then [] else Concat(writes[..|writes| - 1]) + writes[|writes| - 1]
  }

  // What a window of `n` bytes shows after one more write, and after a series of writes.
  function Push(window: seq<Byte>, p: seq<Byte>, n: nat): seq<Byte> { LastN(window + p, n) }

  function PushAll(writes: seq<seq<Byte>>, n: nat): seq<Byte> {
    if writes == [] then [] else Push(PushAll(writes[..|writes| - 1], n), writes[|writes| - 1], n)
  }

  lemma LastNIs(s: seq<Byte>, n: nat)
    ensures var r := LastN(s, n);
            && |r| == (if |s| <= n then |s| else n)
            && forall i :: 0 <= i < |r| ==> r[i] == s[|s| - |r| + i]
  {
  }

  lemma LastNOfLastN(s: seq<Byte>, p: seq<Byte>, n: nat)
    ensures LastN(LastN(s, n) + p, n) == LastN(s + p, n)
  {
    var a, b := LastN(LastN(s, n) + p, n), LastN(s + p, n);
    assert |a| == |b|;
    assert forall i :: 0 <= i < |a| ==> a[i] == b[i];
  }

  // Whatever the sizes of the writes, the window shows the end of their concatenation.
  lemma {:induction false} WindowIsEndOfLog(writes: seq<seq<Byte>>, n: nat)
    ensures PushAll(writes, n) == LastN(Concat(writes), n)
  {
    if writes != [] {
      var front, last := writes[..|writes| - 1], writes[|writes| - 1];
      WindowIsEndOfLog(front, n);
      LastNOfLastN(Concat(front), last, n);
    }
  }

  // Byte by byte: it is as long as the log, up to its size, and ends with the log.
  lemma WindowShows(writes: seq<seq<Byte>>, n: nat)
    ensures var window, log := PushAll(writes, n), Concat(writes);
            && |window| == (if |log| <= n then |log| else n)
            && forall i :: 0 <= i < |window| ==> window[i] == log[|log| - |window| + i]
  {
    WindowIsEndOfLog(writes, n);
    LastNIs(Concat(writes), n);
  }

  class RingBuffer {
    const buf: array<Byte>
    const capacity: nat
    var pos: nat
    var full: bool
    // All that was written, in order.
    ghost var log: seq<Byte>

    ghost predicate Shaped()
      reads this
    {
      buf.Length == capacity && (if capacity == 0 then pos == 0 else pos < capacity)
    }

    ghost function Window(): seq<Byte>
      requires Shaped()
      reads this, buf
    {
      WindowOf(buf[..], pos, full)
    }

    // The buffer holds the end of the log.
    ghost predicate Valid()
      reads this, buf
    {
      Shaped() && Window() == LastN(log, capacity)
    }

    constructor (capacity: nat)
      ensures Valid() && this.capacity == capacity && fresh(buf) && log == []
    {
      this.capacity := capacity;
      buf := new Byte[capacity];
      pos, full := 0, false;
      log := [];
    }

    method Write(p: seq<Byte>) returns (n: nat)
      requires Valid()
      modifies this, buf
      ensures Valid() && n == |p| && log == old(log) + p
    {
      LastNOfLastN(log, p, capacity);
      n := Put(p);
      log := log + p;
    }

    // The write, as far as the buffer goes.
    method Put(p: seq<Byte>) returns (n: nat)
      requires Shaped()
      modifies this`pos, this`full, buf
      ensures Shaped() && n == |p| && Window() == Push(old(Window()), p, capacity)
    {
      n := |p|;
      if n >= capacity {
        Copy(buf, 0, p[n - capacity..]);
        pos, full := 0, true;
        return;
      }
      PlacedIsPushed(buf[..], pos, full, p);
      Place(p);
      if !full && pos + n >= capacity {
        full := true;
      }
      pos := (pos + n) % capacity;
    }

    // Writes `p` from `pos` on, going on at the front when the end is reached.
    method Place(p: seq<Byte>)
      requires Shaped() && |p| < capacity
      modifies buf
      ensures buf[..] == Placed(old(buf[..]), pos, p)
    {
      ghost var before := buf[..];
      var spaceToEnd := capacity - pos;
      if |p| <= spaceToEnd {
        Copy(buf, pos, p);
      } else {
        Copy(buf, pos, p[..spaceToEnd]);
        Copy(buf, 0, p[spaceToEnd..]);
        TwoCopies(before, pos, p, buf[..]);
      }
    }

    method Bytes() returns (out: array<Byte>)
      requires Valid()
      ensures fresh(out) && out[..] == LastN(log, capacity)
    {
      if !full {
        out := new Byte[pos];
        Copy(out, 0, buf[..pos]);
        return;
      }
      out := new Byte[capacity];
      Copy(out, 0, buf[pos..]);
      Copy(out, capacity - pos, buf[..pos]);
    }
  }

  function CopiedTo(dst: seq<Byte>, at: nat, src: seq<Byte>): seq<Byte>
    requires at + |src| <= |dst|
  {
    dst[..at] + src + dst[at + |src|..]
  }

  method Copy(dst: array<Byte>, at: nat, src: seq<Byte>)
    requires at + |src| <= dst.Length
    modifies dst
    ensures dst[..] == CopiedTo(old(dst[..]), at, src)
  {
    for i := 0 to |src|
      invariant forall k :: 0 <= k < i ==> dst[at + k] == src[k]
      invariant forall k :: 0 <= k < dst.Length && !(at <= k < at + i) ==> dst[k] == old(dst[k])
    {
      dst[at + i] := src[i];
    }
  }

  // The window over an array whose next byte goes to `pos`.
  function WindowOf(buf: seq<Byte>, pos: nat, full: bool): seq<Byte>
    requires pos <= |buf|
  {
    if full then buf[pos..] + buf[..pos] else buf[..pos]
  }

  // `p` over `buf` from `pos` on, and over its front where it reaches the end.
  function Placed(buf: seq<Byte>, pos: nat, p: seq<Byte>): seq<Byte>
    requires pos < |buf| && |p| < |buf|
  {
    var k := |buf| - pos;
    if |p| <= k then buf[..pos] + p + buf[pos + |p|..]
    else p[k..] + (buf[..pos] + p[..k])[|p| - k..]
  }

  // The second copy goes over the front of what the first one left.
  lemma TwoCopies(buf: seq<Byte>, pos: nat, p: seq<Byte>, after: seq<Byte>)
    requires pos < |buf| < pos + |p| && |p| < |buf|
    requires var k := |buf| - pos;
             after == p[k..] + (buf[..pos] + p[..k])[|p| - k..]
    ensures after == Placed(buf, pos, p)
  {
  }

  lemma PlacedIsPushed(buf: seq<Byte>, pos: nat, full: bool, p: seq<Byte>)
    requires pos < |buf| && |p| < |buf|
    ensures |Placed(buf, pos, p)| == |buf|
    ensures WindowOf(Placed(buf, pos, p), (pos + |p|) % |buf|, full || pos + |p| >= |buf|) == Push(WindowOf(buf, pos, full), p, |buf|)
  {
    if pos + |p| <= |buf| {
      FitsToEnd(buf, pos, full, p);
    } else {
      WrapsAround(buf, pos, full, p);
    }
  }

  lemma FitsToEnd(buf: seq<Byte>, pos: nat, full: bool, p: seq<Byte>)
    requires pos < |buf| && pos + |p| <= |buf| && |p| < |buf|
    ensures WindowOf(Placed(buf, pos, p), (pos + |p|) % |buf|, full || pos + |p| == |buf|) == Push(WindowOf(buf, pos, full), p, |buf|)
  {
    var pushed := Push(WindowOf(buf, pos, full), p, |buf|);
    if pos + |p| == |buf| {
      assert (pos + |p|) % |buf| == 0;
      assert pushed == Placed(buf, pos, p);
    } else {
      assert (pos + |p|) % |buf| == pos + |p|;
      assert full ==> pushed == buf[pos + |p|..] + buf[..pos] + p;
    }
  }

  lemma WrapsAround(buf: seq<Byte>, pos: nat, full: bool, p: seq<Byte>)
    requires pos < |buf| < pos + |p| && |p| < |buf|
    ensures WindowOf(Placed(buf, pos, p), (pos + |p|) % |buf|, true) == Push(WindowOf(buf, pos, full), p, |buf|)
  {
    var n, k := |buf|, |buf| - pos;
    assert (pos + |p|) % n == |p| - k;
    var a, b := WindowOf(Placed(buf, pos, p), |p| - k, true), Push(WindowOf(buf, pos, full), p, n);
    assert a == buf[|p| - k..pos] + p;
    assert |b| == n;
    assert forall i :: 0 <= i < n ==> a[i] == b[i];
  }
}
