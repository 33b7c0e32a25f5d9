/** Length-prefixed frames: four big-endian length bytes, then the body.
    Every hop of the system (shim pipes, worker sockets) uses this format. */
module Framing {
  newtype byte = b: int | 0 <= b < 256

  type bytes = seq<byte>

  const U32 := 0x1_0000_0000

  // Limits checked by the readers.
  const BRIDGE_LIMIT := 8 * 1024 * 1024
  const SOCKET_LIMIT := 16 * 1024 * 1024

  function PackU32(n: nat): (r: bytes)
    requires n < U32
    ensures |r| == 4
  {
    [(n / 0x100_0000) as byte, (n / 0x1_0000 % 256) as byte, (n / 256 % 256) as byte, (n % 256) as byte]
  }

  function UnpackU32(b: bytes): (n: nat)
    requires |b| == 4
    ensures n < U32
  {
    ((b[0] as int * 256 + b[1] as int) * 256 + b[2] as int) * 256 + b[3] as int
  }

  lemma UnpackPack(n: nat)
    requires n < U32
    ensures UnpackU32(PackU32(n)) == n
  {
    var b := n / 256;
    var c := b / 256;
    assert n == b * 256 + n % 256 && b == c * 256 + b % 256 && c == c / 256 * 256 + c % 256;
    assert n / 0x1_0000 == c && n / 0x100_0000 == c / 256;
  }

  lemma PackUnpack(b: bytes)
    requires |b| == 4
    ensures PackU32(UnpackU32(b)) == b
  {
    var n := UnpackU32(b);
    assert n / 0x100_0000 == b[0] as int;
    assert n / 0x1_0000 == b[0] as int * 256 + b[1] as int;
    assert n / 256 == (b[0] as int * 256 + b[1] as int) * 256 + b[2] as int;
  }

  function Frame(m: bytes): (f: bytes)
    requires |m| < U32
    ensures |f| == 4 + |m|
  {
    PackU32(|m|) + m
  }

  function Frames(ms: seq<bytes>): bytes
    requires forall m <- ms :: |m| < U32
  {
    if ms == [] then [] else Frame(ms[0]) + Frames(ms[1..])
  }

  // How many more bytes a reader holding `got` asks the stream for: first the
  // rest of the header, then the rest of the body the header announces.
  function Want(got: bytes): nat {
    if |got| < 4 then 4 - |got|
    else if |got| < 4 + UnpackU32(got[..4]) then 4 + UnpackU32(got[..4]) - |got|
    else 0
  }

  lemma FrameHeader(m: bytes)
    requires |m| < U32
    ensures Frame(m)[..4] == PackU32(|m|) && UnpackU32(Frame(m)[..4]) == |m|
    ensures Frame(m)[4..] == m
  {
    UnpackPack(|m|);
  }

  // A reader part-way through a frame never asks for a byte beyond the frame,
  // and stops asking exactly when the frame is complete.
  lemma WantWithinFrame(got: bytes, rest: bytes, m: bytes)
    requires |m| < U32 && got + rest == Frame(m)
    ensures Want(got) <= |rest|
    ensures Want(got) == 0 <==> rest == []
    ensures |got| >= 4 ==> UnpackU32(got[..4]) == |m|
    ensures rest == [] ==> got == Frame(m)
  {
    FrameHeader(m);
    if |got| >= 4 {
      assert got[..4] == (got + rest)[..4];
    }
    if rest == [] {
      assert got + rest == got;
    }
  }

  // Frames are uniquely decodable from the front of a stream.
  lemma FramePrefixUnique(a: bytes, b: bytes, s: bytes, t: bytes)
    requires |a| < U32 && |b| < U32
    requires Frame(a) + s == Frame(b) + t
    ensures a == b && s == t
  {
    var x, y := Frame(a) + s, Frame(b) + t;
    FrameHeader(a);
    FrameHeader(b);
    assert x[..4] == Frame(a)[..4] && y[..4] == Frame(b)[..4];
    assert a == x[4..4 + |a|] && b == y[4..4 + |b|];
    assert s == x[4 + |a|..] && t == y[4 + |b|..];
  }

  // Two message sequences with the same byte stream are the same sequence.
  lemma {:induction false} FramesInjective(xs: seq<bytes>, ys: seq<bytes>)
    requires forall m <- xs :: |m| < U32
    requires forall m <- ys :: |m| < U32
    requires Frames(xs) == Frames(ys)
    ensures xs == ys
  {
    if xs == [] || ys == [] {
    } else {
      FramePrefixUnique(xs[0], ys[0], Frames(xs[1..]), Frames(ys[1..]));
      FramesInjective(xs[1..], ys[1..]);
      assert xs == [xs[0]] + xs[1..] && ys == [ys[0]] + ys[1..];
    }
  }
}
