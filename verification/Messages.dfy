/** The worker protocol's messages. */
module Messages {
  import opened Framing
  import opened Wrappers

  // What the host asks for; Call and Probe number their requests.
  datatype Op =
    | OpPing
    | OpShutdown
    | OpProbe(target: string)
    | OpCall(func: string, args: bytes)

  // Request numbers are 64 bits wide and wrap.
  const U64: nat := 0x1_0000_0000_0000_0000
  type ReqId = n: nat | n < U64

  function NextId(n: ReqId): ReqId { (n + 1) % U64 }

  datatype Request =
    | Ping
    | Shutdown
    | Probe(id: ReqId, target: string)
    | Call(id: ReqId, func: string, args: bytes)

  datatype Reply =
    | Pong
    | ShutdownAck
    | ProbeResult(id: ReqId, isModule: bool, isCallable: bool)
    | Result(id: ReqId, value: bytes)
    | Error(id: ReqId, text: string)

  // The content of a probe result.
  datatype ProbeInfo = ProbeInfo(isModule: bool, isCallable: bool)

  // A worker connection's parameters: the JSON text of messages, as abstract
  // functions, and how many bytes each direction of the socket holds. The worker
  // may write a result that the host cannot parse, such as one with NaN in it;
  // everything else is read as what was written.
  datatype Codec = Codec(
    encReq: Request -> bytes, decReq: bytes -> Option<Request>,
    encRep: Reply -> bytes, decRep: bytes -> Option<Reply>,
    window: nat)
  {
    ghost predicate Sound() {
      && window >= 1
      && (forall q :: |encReq(q)| >= 1 && decReq(encReq(q)) == Some(q))
      && (forall p :: |encRep(p)| >= 1 && (decRep(encRep(p)) == Some(p) || (p.Result? && !Parses(p))))
    }

    // The host can parse the text of this reply.
    predicate Parses(p: Reply) { decRep(encRep(p)).Some? }
  }

  function RequestOf(op: Op, id: ReqId): Request {
    match op
    case OpPing => Ping
    case OpShutdown => Shutdown
    case OpProbe(t) => Probe(id, t)
    case OpCall(f, a) => Call(id, f, a)
  }

  predicate Numbered(op: Op) { op.OpProbe? || op.OpCall? }

  // The worker loop sends exactly one reply of the matching kind, echoing the id.
  predicate Answers(q: Request, p: Reply) {
    match q
    case Ping => p.Pong?
    case Shutdown => p.ShutdownAck?
    case Probe(id, _) => p.ProbeResult? && p.id == id
    case Call(id, _, _) => (p.Result? || p.Error?) && p.id == id
  }
}
