/** The two ends of a proxied TCP connection. */
module Streams {
  import opened Bytes

  datatype ReadError = NoError | Eof | Failed

  /** s with its first |s| - |t| bytes gone: t is what a reader of s has left. */
  predicate SuffixOf(t: bytes, s: bytes) {
    |t| <= |s| && t == s[|s| - |t|..]
  }

  lemma SuffixTransitive(u: bytes, t: bytes, s: bytes)
    requires SuffixOf(u, t) && SuffixOf(t, s)
    ensures SuffixOf(u, s)
  {
    assert s[|s| - |t|..][|t| - |u|..] == s[|s| - |u|..];
  }

  lemma SuffixOfConcat(p: bytes, t: bytes)
    ensures SuffixOf(t, p + t)
  {
    assert (p + t)[|p|..] == t;
  }

  /**
   * The side a connection is read from. rest is everything the peer will ever
   * send that has not been read yet. Each Read hands out a chunk of arbitrary
   * size; it may also fail at any point (a reset or an expired deadline), with
   * or without bytes, and it reports Eof only when nothing is left. failed
   * says that some Read has failed.
   */
  class Source {
    var rest: bytes
    ghost var failed: bool

    constructor (sent: bytes)
      ensures rest == sent && !failed
    {
      rest := sent;
      failed := false;
    }

    method Read(max: nat) returns (chunk: bytes, err: ReadError)
      requires max > 0
      modifies this
      ensures old(rest) == chunk + rest && |chunk| <= max
      ensures err == Eof ==> rest == []
      ensures err == NoError ==> chunk != []
      ensures failed == (old(failed) || err == Failed)
    {
      var failing: bool := *;
      var k: nat;
      if failing {
        k :| 0 <= k <= max && k <= |rest|;
        err := Failed;
      } else if rest == [] {
        k := 0;
        err := Eof;
      } else {
        k :| 1 <= k <= max && k <= |rest|;
        var last: bool := *;
        err := if last && k == |rest| then Eof else NoError;
      }
      chunk := rest[..k];
      rest := rest[k..];
      failed := failed || err == Failed;
    }

    /** io.ReadFull: n bytes exactly, or an error and whatever had arrived is lost. */
    method ReadFull(n: nat) returns (p: bytes, err: ReadError)
      modifies this
      ensures old(rest) == p + rest && |p| <= n
      ensures err == NoError <==> |p| == n
      ensures err == Eof ==> rest == [] && |old(rest)| < n
      ensures (err == Failed ==> failed) && (old(failed) ==> failed)
    {
      p := [];
      err := NoError;
      while |p| < n && err == NoError
        invariant |p| <= n && old(rest) == p + rest
        invariant err == Eof ==> rest == []
        invariant (err == Failed ==> failed) && (old(failed) ==> failed)
        decreases n - |p|, err == NoError
      {
        var chunk;
        chunk, err := Read(n - |p|);
        assert old(rest) == (p + chunk) + rest;
        p := p + chunk;
      }
      if |p| == n {
        err := NoError;
      }
    }
  }

  /**
   * The side a connection is written to: received only ever grows. A Write that
   * fails may still have delivered any prefix of its argument. counted is the
   * countConn counter: only the pipes write through it. failed says that some
   * Write has failed.
   */
  class Sink {
    var received: bytes
    var counted: nat
    ghost var failed: bool

    constructor ()
      ensures received == [] && counted == 0 && !failed
    {
      received := [];
      counted := 0;
      failed := false;
    }

    method Write(p: bytes) returns (n: nat, ok: bool)
      modifies this`received, this`failed
      ensures n <= |p| && received == old(received) + p[..n]
      ensures ok ==> n == |p|
      ensures failed == (old(failed) || !ok)
    {
      ok := *;
      n := |p|;
      if !ok {
        n :| 0 <= n <= |p|;
      }
      received := received + p[..n];
      failed := failed || !ok;
    }

    /** countConn.Write. */
    method CountedWrite(p: bytes) returns (n: nat, ok: bool)
      modifies this
      ensures n <= |p| && received == old(received) + p[..n]
      ensures ok ==> n == |p|
      ensures counted == old(counted) + n
      ensures failed == (old(failed) || !ok)
    {
      n, ok := Write(p);
      if n > 0 {
        counted := counted + n;
      }
    }
  }

  datatype PipeEnd = Drained | ReadFailed | WriteFailed

  lemma AppendChunk(base: bytes, w: bytes, chunk: bytes, rest: bytes)
    ensures (base + w) + chunk == base + (w + chunk)
    ensures w + (chunk + rest) == (w + chunk) + rest
  {
  }

  /** A partial write leaves a prefix of what a full one would have left. */
  lemma PartialWrite(base: bytes, w: bytes, chunk: bytes, n: nat, rest: bytes)
    requires n <= |chunk|
    ensures base <= (base + w) + chunk[..n] <= base + (w + (chunk + rest))
  {
    assert (base + w) + chunk[..n] == base + (w + chunk[..n]);
    assert w + (chunk + rest) == (w + chunk[..n]) + (chunk[n..] + rest);
    assert base + (w + (chunk + rest)) == (base + (w + chunk[..n])) + (chunk[n..] + rest);
  }

  /** pipe copies src to dst until either side fails; Drained is the clean end of src. */
  method Pipe(dst: Sink, src: Source, bufSize: int) returns (end: PipeEnd)
    modifies dst, src
    ensures old(dst.received) <= dst.received <= old(dst.received) + old(src.rest)
    ensures dst.counted - old(dst.counted) == |dst.received| - |old(dst.received)|
    ensures end != WriteFailed ==> dst.received + src.rest == old(dst.received) + old(src.rest)
    ensures end == Drained ==> dst.received == old(dst.received) + old(src.rest)
    ensures end == ReadFailed ==> src.failed
    ensures end == WriteFailed ==> dst.failed
    ensures (old(src.failed) ==> src.failed) && (old(dst.failed) ==> dst.failed)
  {
    var size := if bufSize <= 0 then 32 * 1024 else bufSize;
    ghost var base, sent := dst.received, src.rest;
    ghost var w: bytes := [];
    while true
      invariant dst.received == base + w && w + src.rest == sent
      invariant dst.counted - old(dst.counted) == |w|
      invariant (old(src.failed) ==> src.failed) && (old(dst.failed) ==> dst.failed)
      decreases |src.rest|
    {
      var chunk, rerr := src.Read(size);
      AppendChunk(base, w, chunk, src.rest);
      if chunk != [] {
        var n, ok := dst.CountedWrite(chunk);
        PartialWrite(base, w, chunk, n, src.rest);
        if !ok {
          return WriteFailed;
        }
        assert chunk[..n] == chunk;
      } else {
        assert w + chunk == w;
      }
      w := w + chunk;
      if rerr != NoError {
        AppendChunk(base, w, src.rest, []);
        assert w + src.rest + [] == sent;
        return if rerr == Eof then Drained else ReadFailed;
      }
    }
  }
}
