/** The read loops of the four frame readers, over a byte stream that may be
    cut into chunks in any way. */
module Readers {
  import opened Framing

  function Concat(chunks: seq<bytes>): bytes {
    if chunks == [] then [] else chunks[0] + Concat(chunks[1..])
  }

  // The receiving end of a connection: the arrivals still to be read. After the
  // last one the stream is at end of file.
  class Stream {
    var chunks: seq<bytes>

    constructor (chunks: seq<bytes>)
      requires [] !in chunks
      ensures this.chunks == chunks && Valid() && Contents() == Concat(chunks)
    {
      this.chunks := chunks;
    }

    ghost predicate Valid()
      reads this
    {
      [] !in chunks
    }

    ghost function Contents(): bytes
      reads this
    {
      Concat(chunks)
    }

    // One read call: at most `max` bytes of the first arrival, nothing at end of file.
    method Recv(max: nat) returns (b: bytes)
      requires Valid() && max > 0
      modifies this
      ensures Valid()
      ensures b + Contents() == old(Contents())
      ensures |b| <= max
      ensures b == [] ==> old(Contents()) == []
    {
      if chunks == [] {
        return [];
      }
      var c := chunks[0];
      if |c| <= max {
        b := c;
        chunks := chunks[1..];
      } else {
        b := c[..max];
        chunks := [c[max..]] + chunks[1..];
        assert chunks[1..] == old(chunks)[1..];
        assert c == b + c[max..];
      }
    }
  }

  // What a reader makes of the bytes ahead of it.
  datatype Received =
    | Message(body: bytes)
    | Refused(length: nat)       // announced length outside the reader's limits
    | HeaderEof                  // end of file within the header
    | BodyEof                    // end of file within the body

  // The reader's meaning on the whole stream: outcome and bytes left unread.
  // `hi` is the largest length accepted; lengths below `lo` are refused too.
  function Parse(s: bytes, lo: nat, hi: nat): (Received, bytes) {
    if |s| < 4 then (HeaderEof, [])
    else
      var n := UnpackU32(s[..4]);
      if n < lo || n > hi then (Refused(n), s[4..])
      else if |s| < 4 + n then (BodyEof, [])
      else (Message(s[4..4 + n]), s[4 + n..])
  }

  lemma ParseFrame(m: bytes, t: bytes, lo: nat, hi: nat)
    requires |m| < U32 && lo <= |m| <= hi
    ensures Parse(Frame(m) + t, lo, hi) == (Message(m), t)
  {
    FrameHeader(m);
    var s := Frame(m) + t;
    assert s[..4] == Frame(m)[..4];
    assert s[4..4 + |m|] == m && s[4 + |m|..] == t;
  }

  lemma ParsePieces(hdr: bytes, body: bytes, rest: bytes, lo: nat, hi: nat)
    requires |hdr| == 4 && |body| == UnpackU32(hdr) && lo <= |body| <= hi
    ensures Parse(hdr + (body + rest), lo, hi) == (Message(body), rest)
  {
    var s := hdr + (body + rest);
    assert s[..4] == hdr;
    assert s[4..4 + |body|] == body && s[4 + |body|..] == rest;
  }

  // An oversized frame is refused with its whole body still unread.
  lemma ParseOversized(m: bytes, t: bytes, lo: nat, hi: nat)
    requires |m| < U32 && !(lo <= |m| <= hi)
    ensures Parse(Frame(m) + t, lo, hi) == (Refused(|m|), m + t)
  {
    FrameHeader(m);
    var s := Frame(m) + t;
    assert s[..4] == Frame(m)[..4];
    assert s[4..] == m + t;
  }

  // io.ReadFull: keep reading until `n` bytes are there or the stream ends.
  method ReadFull(st: Stream, n: nat) returns (b: bytes)
    requires st.Valid()
    modifies st
    ensures st.Valid()
    ensures b + st.Contents() == old(st.Contents())
    ensures |b| == if |old(st.Contents())| < n then |old(st.Contents())| else n
  {
    ghost var s := st.Contents();
    b := [];
    while |b| < n
      invariant st.Valid() && b + st.Contents() == s && |b| <= n
    {
      var chunk := st.Recv(n - |b|);
      if chunk == [] {
        assert b + [] == b;
        return;
      }
      b := b + chunk;
    }
  }

  // Worker.recv: header, size check, body.
  method HostRecv(st: Stream) returns (r: Received)
    requires st.Valid()
    modifies st
    ensures st.Valid()
    ensures (r, st.Contents()) == Parse(old(st.Contents()), 0, SOCKET_LIMIT)
  {
    ghost var s := st.Contents();
    var hdr := ReadFull(st, 4);
    if |hdr| < 4 {
      return HeaderEof;
    }
    ghost var t := st.Contents();
    assert s[..4] == hdr && s[4..] == t;
    var n := UnpackU32(hdr);
    if n > SOCKET_LIMIT {
      return Refused(n);
    }
    var body := ReadFull(st, n);
    if |body| < n {
      return BodyEof;
    }
    ParsePieces(hdr, body, st.Contents(), 0, SOCKET_LIMIT);
    return Message(body);
  }

  // _recv_msg of the worker: two accumulating loops, body reads of at most 64 KiB.
  method WorkerRecv(st: Stream) returns (r: Received)
    requires st.Valid()
    modifies st
    ensures st.Valid()
    ensures (r, st.Contents()) == Parse(old(st.Contents()), 0, SOCKET_LIMIT)
  {
    hide UnpackU32, Stream.Contents, Stream.Valid;
    ghost var s := st.Contents();
    var raw: bytes := [];
    while |raw| < 4
      invariant st.Valid() && raw + st.Contents() == s && |raw| <= 4
    {
      var chunk := st.Recv(4 - |raw|);
      if chunk == [] {
        assert raw + [] == raw;
        return HeaderEof;
      }
      raw := raw + chunk;
    }
    ghost var t := st.Contents();
    assert s[..4] == raw && s[4..] == t;
    var n := UnpackU32(raw);
    if n > SOCKET_LIMIT {
      return Refused(n);
    }
    var body: bytes := [];
    while |body| < n
      invariant st.Valid() && body + st.Contents() == t && |body| <= n
    {
      var chunk := st.Recv(if n - |body| < 65536 then n - |body| else 65536);
      if chunk == [] {
        assert body + [] == body;
        return BodyEof;
      }
      body := body + chunk;
    }
    ParsePieces(raw, body, st.Contents(), 0, SOCKET_LIMIT);
    return Message(body);
  }

  // The bridge goroutine's reads: an empty or oversized frame ends the loop.
  method BridgeRecv(st: Stream) returns (r: Received)
    requires st.Valid()
    modifies st
    ensures st.Valid()
    ensures (r, st.Contents()) == Parse(old(st.Contents()), 1, BRIDGE_LIMIT)
  {
    ghost var s := st.Contents();
    var hdr := ReadFull(st, 4);
    if |hdr| < 4 {
      return HeaderEof;
    }
    ghost var t := st.Contents();
    assert s[..4] == hdr && s[4..] == t;
    var n := UnpackU32(hdr);
    if n == 0 {
      return Refused(n);
    }
    if n > BRIDGE_LIMIT {
      return Refused(n);
    }
    var body := ReadFull(st, n);
    if |body| < n {
      return BodyEof;
    }
    ParsePieces(hdr, body, st.Contents(), 1, BRIDGE_LIMIT);
    return Message(body);
  }

  // _bridge_read of the shim: header, then body; no size check.
  method ShimRecv(st: Stream) returns (r: Received)
    requires st.Valid()
    modifies st
    ensures st.Valid()
    ensures (r, st.Contents()) == Parse(old(st.Contents()), 0, U32 - 1)
  {
    hide UnpackU32, Concat;
    ghost var s := st.Contents();
    var raw := ReadFull(st, 4);
    if |raw| < 4 {
      return HeaderEof;
    }
    ghost var t := st.Contents();
    assert s[..4] == raw && s[4..] == t;
    var n := UnpackU32(raw);
    var body := ReadChunks(st, n);
    if |body| < n {
      return BodyEof;
    }
    ParsePieces(raw, body, st.Contents(), 0, U32 - 1);
    return Message(body);
  }

  // Its body loop: chunks are collected while bytes remain, and joined.
  method ReadChunks(st: Stream, n: nat) returns (b: bytes)
    requires st.Valid()
    modifies st
    ensures st.Valid()
    ensures b + st.Contents() == old(st.Contents())
    ensures |b| == if |old(st.Contents())| < n then |old(st.Contents())| else n
  {
    ghost var t := st.Contents();
    var chunks: seq<bytes> := [];
    var remaining: nat := n;
    while remaining > 0
      invariant st.Valid() && Concat(chunks) + st.Contents() == t
      invariant |Concat(chunks)| + remaining == n
    {
      var chunk := st.Recv(remaining);
      if chunk == [] {
        assert Concat(chunks) + [] == Concat(chunks);
        return Concat(chunks);
      }
      ConcatAppend(chunks, chunk);
      chunks := chunks + [chunk];
      remaining := remaining - |chunk|;
    }
    return Concat(chunks);
  }

  lemma {:induction false} ConcatAppend(chunks: seq<bytes>, c: bytes)
    ensures Concat(chunks + [c]) == Concat(chunks) + c
  {
    if chunks == [] {
      assert chunks + [c] == [c] && Concat([c][1..]) == [];
    } else {
      ConcatAppend(chunks[1..], c);
      assert (chunks + [c])[1..] == chunks[1..] + [c];
      assert Concat(chunks + [c]) == chunks[0] + (Concat(chunks[1..]) + c);
    }
  }

  // The first message of a stream of frames, or its clean end.
  lemma ParseFrames(ms: seq<bytes>)
    requires forall m <- ms :: |m| <= SOCKET_LIMIT
    ensures Parse(Frames(ms), 0, SOCKET_LIMIT) ==
            if ms == [] then (HeaderEof, []) else (Message(ms[0]), Frames(ms[1..]))
    ensures Frames([]) == []
  {
    hide Frame;
    if ms != [] {
      ParseFrame(ms[0], Frames(ms[1..]), 0, SOCKET_LIMIT);
    }
  }

  // The worker's main loop as a reader: messages until the first outcome that
  // is not one. For every sequence of messages within the limit and every way
  // of cutting their bytes into chunks, exactly that sequence comes out, the
  // loop ends at a clean end of file, and no byte is left over.
  method ReadAll(st: Stream, ghost sent: seq<bytes>) returns (ms: seq<bytes>, last: Received)
    requires st.Valid()
    requires forall m <- sent :: |m| <= SOCKET_LIMIT
    requires st.Contents() == Frames(sent)
    modifies st
    ensures ms == sent && last == HeaderEof && st.Contents() == []
  {
    hide Frame, Frames, UnpackU32, Parse;
    ms := [];
    last := HeaderEof;
    ghost var todo := sent;
    while true
      invariant st.Valid() && ms + todo == sent && st.Contents() == Frames(todo)
      invariant forall m <- todo :: |m| <= SOCKET_LIMIT
      decreases |todo|
    {
      ParseFrames(todo);
      last := WorkerRecv(st);
      if last.Message? {
        ms := ms + [last.body];
        assert ms + todo[1..] == sent;
        todo := todo[1..];
      } else {
        assert ms + [] == ms;
        return;
      }
    }
  }
}
