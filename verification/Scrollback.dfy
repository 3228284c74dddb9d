/** The scrollback ring and the batching loop of a PTY's reader task. */
module Scrollback {
  import opened Wire
  import P = PtyAgent

  lemma LastNIgnoresFront<T>(front: seq<T>, back: seq<T>, n: nat)
    requires |back| >= n
    ensures LastN(front + back, n) == LastN(back, n)
  {
  }

  /** The buffer after the first `i` bytes of `data`. */
  ghost predicate Pushed(was: seq<Byte>, data: seq<Byte>, i: nat, now: seq<Byte>, n: nat)
    requires i <= |data|
  {
    now == LastN(was + data[..i], n)
  }

  lemma PushedNext(was: seq<Byte>, data: seq<Byte>, i: nat, now: seq<Byte>, n: nat)
    requires i < |data| && n > 0 && Pushed(was, data, i, now, n)
    ensures Pushed(was, data, i + 1, (if |now| == n then now[1..] else now) + [data[i]], n)
  {
    assert was + data[..i + 1] == was + data[..i] + [data[i]];
  }

  class ScrollbackBuffer {
    var buf: seq<Byte>

    const capacity: nat

    ghost predicate Valid()
      reads this
    {
      |buf| <= capacity
    }

    constructor (capacity: nat)
      ensures Valid() && buf == [] && this.capacity == capacity
    {
      buf := [];
      this.capacity := capacity;
    }

    /** Push bytes one at a time, evicting the oldest when full. Whatever was pushed, the buffer holds the last
        `capacity` bytes of it. */
    method Push(data: seq<Byte>)
      requires Valid()
      modifies this
      ensures Valid() && buf == LastN(old(buf) + data, capacity)
    {
      if capacity == 0 { return; }
      ghost var was := buf;
      assert was + data[..0] == was;
      for i := 0 to |data|
        invariant Valid() && Pushed(was, data, i, buf, capacity)
      {
        PushedNext(was, data, i, buf, capacity);
        if |buf| == capacity { buf := buf[1..]; }
        buf := buf + [data[i]];
      }
      assert data[..|data|] == data;
    }

    method Dump() returns (bytes: seq<Byte>)
      ensures bytes == buf
    {
      bytes := buf;
    }
  }

  function Concat(chunks: seq<seq<Byte>>): seq<Byte> {
    if chunks == [] then [] else Concat(chunks[..|chunks| - 1]) + chunks[|chunks| - 1]
  }

  lemma ConcatAppend(chunks: seq<seq<Byte>>, chunk: seq<Byte>)
    ensures Concat(chunks + [chunk]) == Concat(chunks) + chunk
  {
    assert (chunks + [chunk])[..|chunks|] == chunks;
  }

  predicate ReadSizes(chunks: seq<seq<Byte>>) {
    forall i :: 0 <= i < |chunks| ==> 0 < |chunks[i]| <= P.CHUNK
  }

  /** The chunks from `i` to `next`, joined. */
  ghost predicate Joins(chunks: seq<seq<Byte>>, i: nat, next: nat, batch: seq<Byte>) {
    i <= next <= |chunks| && Concat(chunks[..next]) == Concat(chunks[..i]) + batch
  }

  lemma JoinsNext(chunks: seq<seq<Byte>>, i: nat, next: nat, batch: seq<Byte>)
    requires Joins(chunks, i, next, batch) && next < |chunks|
    ensures Joins(chunks, i, next + 1, batch + chunks[next])
  {
    assert chunks[..next + 1] == chunks[..next] + [chunks[next]];
    ConcatAppend(chunks[..next], chunks[next]);
    assert Concat(chunks[..i]) + batch + chunks[next] == Concat(chunks[..i]) + (batch + chunks[next]);
  }

  lemma JoinsFirst(chunks: seq<seq<Byte>>, i: nat)
    requires i < |chunks|
    ensures Joins(chunks, i, i + 1, chunks[i])
  {
    assert chunks[..i + 1] == chunks[..i] + [chunks[i]];
    ConcatAppend(chunks[..i], chunks[i]);
  }

  lemma LastNSplit<T>(front: seq<T>, kept: seq<T>, more: seq<T>, n: nat)
    requires |kept| == n
    ensures LastN(kept + more, n) == LastN(front + kept + more, n)
  {
    assert front + kept + more == front + (kept + more);
    LastNIgnoresFront(front, kept + more, n);
  }

  /** Pushing twice is pushing once: the last `n` survive cutting off the part before them early. */
  lemma LastNOfLastN<T>(s: seq<T>, batch: seq<T>, more: seq<T>, n: nat)
    ensures LastN(LastN(s + batch, n) + more, n) == LastN(s + (batch + more), n)
  {
    var x := s + batch;
    assert x + more == s + (batch + more);
    if |x| > n {
      LastNSplit(x[..|x| - n], x[|x| - n..], more, n);
      assert x == x[..|x| - n] + x[|x| - n..];
    }
  }

  ghost predicate Batching(chunks: seq<seq<Byte>>, i: nat, next: nat, batch: seq<Byte>, was: seq<Byte>, now: seq<Byte>, n: nat) {
    && Joins(chunks, i, next, batch)
    && now == LastN(was + batch, n)
  }

  lemma BatchingNext(chunks: seq<seq<Byte>>, i: nat, next: nat, batch: seq<Byte>, was: seq<Byte>, now: seq<Byte>, n: nat)
    requires Batching(chunks, i, next, batch, was, now, n) && next < |chunks|
    ensures Batching(chunks, i, next + 1, batch + chunks[next], was, LastN(now + chunks[next], n), n)
  {
    JoinsNext(chunks, i, next, batch);
    LastNOfLastN(was, batch, chunks[next], n);
  }

  /** One pass of the reader with `chunks[i]` at hand: it takes that chunk, then drains what has arrived by now
      (`limit` chunks in all) until a batch is full. The scrollback receives exactly what the frame carries. */
  method Batch(ring: ScrollbackBuffer, chunks: seq<seq<Byte>>, i: nat, limit: nat) returns (batch: seq<Byte>, next: nat)
    requires ring.Valid() && i < |chunks| && limit <= |chunks|
    requires ReadSizes(chunks)
    modifies ring
    ensures ring.Valid() && ring.buf == LastN(old(ring.buf) + batch, ring.capacity)
    ensures i < next && Joins(chunks, i, next, batch)
    ensures 0 < |batch| <= 65535 + 4096
    ensures next < limit ==> |batch| >= P.BATCH
  {
    ghost var was := ring.buf;
    batch, next := chunks[i], i + 1;
    JoinsFirst(chunks, i);
    ring.Push(batch);
    while |batch| < P.BATCH && next < limit
      invariant i < next <= |chunks| && 0 < |batch| < P.BATCH + P.CHUNK
      invariant ring.Valid() && Batching(chunks, i, next, batch, was, ring.buf, ring.capacity)
    {
      BatchingNext(chunks, i, next, batch, was, ring.buf, ring.capacity);
      var more := chunks[next];
      ring.Push(more);
      batch, next := batch + more, next + 1;
    }
  }

  /** The reader task over the whole life of a PTY that produces `chunks`; `arrived[k]` says how many chunks
      are there at its `k`-th pass. Frames and scrollback together miss nothing: the frames are the output cut
      into pieces, and the scrollback is its end. */
  method Forward(ring: ScrollbackBuffer, chunks: seq<seq<Byte>>, arrived: seq<nat>) returns (frames: seq<seq<Byte>>)
    requires ring.Valid() && ring.buf == []
    requires ReadSizes(chunks)
    modifies ring
    ensures Concat(frames) == Concat(chunks)
    ensures forall f :: f in frames ==> 0 < |f| <= 65535 + 4096
    ensures ring.Valid() && ring.buf == LastN(Concat(chunks), ring.capacity)
  {
    frames := [];
    var i := 0;
    while i < |chunks|
      invariant i <= |chunks| && Concat(frames) == Concat(chunks[..i])
      invariant forall f :: f in frames ==> 0 < |f| <= 65535 + 4096
      invariant ring.Valid() && ring.buf == LastN(Concat(chunks[..i]), ring.capacity)
    {
      var now := if |frames| < |arrived| && arrived[|frames|] <= |chunks| then arrived[|frames|] else |chunks|;
      ghost var sofar := Concat(chunks[..i]);
      var batch;
      batch, i := Batch(ring, chunks, i, now);
      LastNOfLastN([], sofar, batch, ring.capacity);
      assert [] + sofar == sofar && [] + (sofar + batch) == sofar + batch;
      ConcatAppend(frames, batch);
      frames := frames + [batch];
    }
    assert chunks[..i] == chunks;
  }
}
