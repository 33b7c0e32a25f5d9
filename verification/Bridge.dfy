/** One Run: the shim inside the module, the bridge goroutine on the host, the
    two unbuffered pipes between them and the main thread that closes the pipes.

    A pipe is a rendezvous: a write holds its bytes until a reader has taken all
    of them, in pieces of any size. The answer to a request is an arbitrary
    choice here; System.dfy says where it comes from. */
module Bridge {
  import opened Framing
  import opened Wrappers

  datatype Shim =
    | Running                 // executing Python code
    | Writing(out: bytes)     // in _bridge_write: bytes the host has not taken
    | Reading                 // in _bridge_read
    | Gone                    // the module has exited

  datatype Goro =
    | Receiving(got: bytes)
    | Working(body: bytes)
    | SendingHeader(out: bytes, body: bytes)
    | SendingBody(out: bytes)
    | Returning               // loop left, deferred calls pending
    | StdinClosed             // pipeStdinW closed
    | Done                    // bridgeDone closed

  datatype Main =
    | InModule                // InstantiateModule has not returned
    | Exited
    | OutClosed               // pipeStdoutW closed
    | BothClosed              // pipeStdinR closed too, waiting for bridgeDone
    | Joined

  datatype State = State(
    shim: Shim,
    rbuf: bytes,              // bytes the shim's buffered reader holds
    goro: Goro,
    main: Main,
    asked: seq<bytes>,        // bodies of the frames the shim started to write
    processed: seq<bytes>,    // bodies the goroutine has answered
    answers: seq<bytes>,      // their answers
    read: seq<bytes>          // bodies of the frames the shim has read
  )

  const INIT := State(Running, [], Receiving([]), InModule, [], [], [], [])

  datatype Event =
    | Request(body: bytes)    // the shim starts writing a frame
    | TakeRequest(k: nat)     // the goroutine takes k bytes of it
    | Complete                // the goroutine has a whole frame
    | Refuse                  // empty or oversized: the goroutine leaves its loop
    | Answer(resp: bytes)
    | Give(k: nat)            // the shim takes k bytes of the current write
    | ShimTake                // the shim has a whole frame
    | ShimEof                 // EOFError in the shim
    | Exit                    // the module ends, wherever the shim is
    | CloseOut
    | CloseIn
    | ReadEof                 // the goroutine's read ends: write end closed
    | WriteFails              // ErrClosedPipe, ignored by sendBridgeResponse
    | CloseStdin
    | CloseDone
    | Join

  predicate InRange(body: bytes) {
    1 <= |body| <= BRIDGE_LIMIT
  }

  // The goroutine has a header it will not follow.
  predicate BadHeader(got: bytes) {
    |got| >= 4 && !(1 <= UnpackU32(got[..4]) <= BRIDGE_LIMIT)
  }

  predicate StdoutEnded(m: Main) { m.OutClosed? || m.BothClosed? || m.Joined? }

  predicate StdinREnded(m: Main) { m.BothClosed? || m.Joined? }

  // sendBridgeResponse begins: header first, body after it. The header has only
  // the low 32 bits of the length.
  function StepAnswer(s: State, resp: bytes): Option<State> {
    if s.goro.Working? && resp != []
    then Some(s.(goro := SendingHeader(PackU32(|resp| % U32), resp),
                 processed := s.processed + [s.goro.body], answers := s.answers + [resp]))
    else None
  }

  function Next(s: State, e: Event): Option<State> {
    match e
    case Request(body) =>
      if s.shim.Running? && |body| < U32
      then Some(s.(shim := Writing(Frame(body)), asked := s.asked + [body]))
      else None
    case TakeRequest(k) =>
      if s.shim.Writing? && s.goro.Receiving? && !BadHeader(s.goro.got)
         && 1 <= k <= |s.shim.out| && k <= Want(s.goro.got)
      then Some(s.(shim := if k == |s.shim.out| then Reading else Writing(s.shim.out[k..]),
                   goro := Receiving(s.goro.got + s.shim.out[..k])))
      else None
    case Complete =>
      if s.goro.Receiving? && |s.goro.got| >= 4 && !BadHeader(s.goro.got) && Want(s.goro.got) == 0
      then Some(s.(goro := Working(s.goro.got[4..])))
      else None
    case Refuse =>
      if s.goro.Receiving? && BadHeader(s.goro.got)
      then Some(s.(goro := Returning))
      else None
    case Answer(resp) => StepAnswer(s, resp)
    case Give(k) =>
      if !s.shim.Reading? then None
      else if s.goro.SendingHeader? && 1 <= k <= |s.goro.out|
      then Some(s.(rbuf := s.rbuf + s.goro.out[..k],
                   goro := if k == |s.goro.out| then SendingBody(s.goro.body)
                           else SendingHeader(s.goro.out[k..], s.goro.body)))
      else if s.goro.SendingBody? && 1 <= k <= |s.goro.out|
      then Some(s.(rbuf := s.rbuf + s.goro.out[..k],
                   goro := if k == |s.goro.out| then Receiving([]) else SendingBody(s.goro.out[k..])))
      else None
    case ShimTake =>
      if s.shim.Reading? && |s.rbuf| >= 4 && Want(s.rbuf) == 0
      then var n := UnpackU32(s.rbuf[..4]);
           Some(s.(shim := Running, read := s.read + [s.rbuf[4..4 + n]], rbuf := s.rbuf[4 + n..]))
      else None
    case ShimEof =>
      if s.shim.Reading? && Want(s.rbuf) > 0 && (s.goro.StdinClosed? || s.goro.Done?)
      then Some(s.(shim := Running, rbuf := []))
      else None
    case Exit =>
      if s.main.InModule? then Some(s.(shim := Gone, main := Exited)) else None
    case CloseOut =>
      if s.main.Exited? then Some(s.(main := OutClosed)) else None
    case CloseIn =>
      if s.main.OutClosed? then Some(s.(main := BothClosed)) else None
    case ReadEof =>
      if s.goro.Receiving? && StdoutEnded(s.main) && !BadHeader(s.goro.got) && Want(s.goro.got) > 0
      then Some(s.(goro := Returning))
      else None
    case WriteFails =>
      if s.goro.SendingHeader? && StdinREnded(s.main) then Some(s.(goro := SendingBody(s.goro.body)))
      else if s.goro.SendingBody? && StdinREnded(s.main) then Some(s.(goro := Receiving([])))
      else None
    case CloseStdin =>
      if s.goro.Returning? then Some(s.(goro := StdinClosed)) else None
    case CloseDone =>
      if s.goro.StdinClosed? then Some(s.(goro := Done)) else None
    case Join =>
      if s.main.BothClosed? && s.goro.Done? then Some(s.(main := Joined)) else None
  }

  // The state after a whole run, if every event of it was possible.
  function Run(s: State, es: seq<Event>): Option<State>
    decreases |es|
  {
    if es == [] then Some(s)
    else match Next(s, es[0])
         case None => None
         case Some(t) => Run(t, es[1..])
  }

  // ---------------------------------------------------------------- pairing

  ghost predicate Histories(s: State) {
    && s.processed <= s.asked
    && |s.answers| == |s.processed|
    && (forall b <- s.asked :: |b| < U32)
    && (forall a <- s.answers :: a != [])
    && (s.goro.Working? ==> |s.processed| < |s.asked| && s.goro.body == s.asked[|s.processed|] && InRange(s.goro.body))
    && (s.goro.Receiving? && s.goro.got != [] ==>
          |s.processed| < |s.asked| && s.goro.got <= Frame(s.asked[|s.processed|]))
  }

  predicate Serving(g: Goro) {
    g.Receiving? || g.Working? || g.SendingHeader? || g.SendingBody?
  }

  // Every answer's length fits its header.
  ghost predicate Short(s: State) {
    forall a <- s.answers :: |a| < U32
  }

  // The way in: the goroutine gets the frames the shim wrote, one after the other,
  // whatever becomes of the answers. The shim may be one frame ahead.
  ghost predicate WayIn(s: State)
    requires Histories(s)
  {
    var p, n := |s.processed|, |s.asked|;
    match s.shim
    case Gone => false
    case Writing(out) =>
      && out != []
      && (match s.goro
          case Receiving(got) =>
            || (n == p + 1 && got + out == Frame(s.asked[p]))
            || (n == p + 2 && got == Frame(s.asked[p]) && out == Frame(s.asked[p + 1]))
          case Working(_) => n == p + 2 && out == Frame(s.asked[p + 1])
          case _ => n == p + 1 && out == Frame(s.asked[p]))
    case _ =>
      (match s.goro
       case Receiving(got) => (n == p && got == []) || (n == p + 1 && got == Frame(s.asked[p]))
       case Working(_) => n == p + 1
       case _ => n == p)
  }

  // The shim's open request, if any, has not been answered yet.
  ghost predicate Unanswered(s: State) {
    && |s.asked| == |s.processed| + 1
    && s.read == s.answers
    && s.rbuf == []
  }

  // It has been answered, and the answer has not been read.
  ghost predicate Unread(s: State) {
    && s.processed == s.asked
    && |s.answers| == |s.read| + 1
  }

  // The two-party conversation while the module runs and the goroutine serves.
  ghost predicate Conversation(s: State)
    requires Histories(s) && Short(s) && s.read <= s.answers
  {
    match s.shim
    case Running =>
      s.goro == Receiving([]) && s.rbuf == [] && s.processed == s.asked && s.read == s.answers
    case Writing(out) =>
      s.goro.Receiving? && Unanswered(s) && out != [] && s.goro.got + out == Frame(s.asked[|s.processed|])
    case Reading =>
      (match s.goro
       case Receiving(got) =>
         || (Unanswered(s) && got == Frame(s.asked[|s.processed|]))
         || (got == [] && Unread(s) && s.rbuf == Frame(s.answers[|s.read|]))
       case Working(_) => Unanswered(s)
       case SendingHeader(out, body) =>
         Unread(s) && body == s.answers[|s.read|] && out != [] && s.rbuf + out == PackU32(|body|)
       case SendingBody(out) =>
         Unread(s) && out != [] && s.rbuf + out == Frame(s.answers[|s.read|])
       case _ => true)
    case Gone => false
  }

  // The way back, while lengths fit: what the shim reads are the answers.
  ghost predicate Paired(s: State)
    requires Histories(s) && Short(s)
  {
    && s.read <= s.answers
    && (s.main.InModule? && Serving(s.goro) ==> Conversation(s))
    && (s.shim.Reading? && !Serving(s.goro) ==> s.rbuf == [])
  }

  ghost predicate Parties(s: State) {
    && (s.main.InModule? <==> !s.shim.Gone?)
    && (s.main.Joined? ==> s.goro.Done?)
    && (s.main.InModule? && (forall b <- s.asked :: InRange(b)) ==> Serving(s.goro))
  }

  ghost predicate Inv(s: State) {
    && Histories(s) && Parties(s)
    && (s.main.InModule? && Serving(s.goro) ==> WayIn(s))
    && (Short(s) ==> Paired(s))
  }

  lemma InvInit()
    ensures Inv(INIT)
  {
  }

  lemma InvNext(s: State, e: Event)
    requires Inv(s) && Next(s, e).Some?
    ensures Inv(Next(s, e).value)
  {
    hide Histories, Parties, WayIn, Paired;
    match e
    case TakeRequest(k) => InvTakeRequest(s, k);
    case Complete => InvComplete(s);
    case Refuse => InvRefuse(s);
    case Give(k) => InvGive(s, k);
    case ShimTake => InvShimTake(s);
    case Request(body) => InvRequest(s, body);
    case Answer(resp) => InvAnswer(s, resp);
    case _ => InvOther(s, e);
  }

  lemma InvComplete(s: State)
    requires Inv(s) && Next(s, Complete).Some?
    ensures Inv(Next(s, Complete).value)
  {
    HoldsOpenRequest(s);
  }

  lemma InvRefuse(s: State)
    requires Inv(s) && Next(s, Refuse).Some?
    ensures Inv(Next(s, Refuse).value)
  {
    HoldsOpenRequest(s);
    assert s.asked[|s.processed|] in s.asked;
  }

  lemma InvRequest(s: State, body: bytes)
    requires Inv(s) && Next(s, Request(body)).Some?
    ensures Inv(Next(s, Request(body)).value)
  {
    var t := Next(s, Request(body)).value;
    assert t.asked[|s.asked|] == body;
    assert forall b <- s.asked :: b in t.asked;
    assert [] + Frame(body) == Frame(body);
  }

  lemma InvAnswer(s: State, resp: bytes)
    requires Inv(s) && StepAnswer(s, resp).Some?
    ensures Inv(StepAnswer(s, resp).value)
  {
    var t := StepAnswer(s, resp).value;
    assert t.answers[|s.answers|] == resp;
    assert s.rbuf == [] ==> s.rbuf + PackU32(|resp| % U32) == PackU32(|resp| % U32);
    assert Short(t) ==> Short(s) by {
      assert forall a <- s.answers :: a in t.answers;
    }
    assert Short(t) ==> |resp| < U32 && |resp| % U32 == |resp|;
  }

  // The shim has a whole frame only while the goroutine serves.
  lemma ReadIsComplete(s: State)
    requires Inv(s) && Short(s) && Next(s, ShimTake).Some?
    ensures Serving(s.goro)
  {
  }

  lemma InvShimTake(s: State)
    requires Inv(s) && Next(s, ShimTake).Some?
    ensures Inv(Next(s, ShimTake).value)
  {
    if Short(s) {
      ReadIsComplete(s);
      ShimTakesAnswer(s);
      var t := Next(s, ShimTake).value;
      assert s.rbuf[4..4 + |s.answers[|s.read|]|] == s.answers[|s.read|];
      assert t.read == s.answers[..|s.read| + 1];
    }
  }

  lemma InvOther(s: State, e: Event)
    requires Inv(s) && Next(s, e).Some?
    requires !e.TakeRequest? && !e.Complete? && !e.Refuse? && !e.Give? && !e.ShimTake?
    requires !e.Request? && !e.Answer?
    ensures Inv(Next(s, e).value)
  {
    hide Inv, Next;
    if e.ReadEof? || e.WriteFails? || e.CloseStdin? || e.CloseDone? {
      InvWindsUp(s, e);
    } else {
      InvEnds(s, e);
    }
  }

  lemma InvWindsUp(s: State, e: Event)
    requires Inv(s) && Next(s, e).Some?
    requires e.ReadEof? || e.WriteFails? || e.CloseStdin? || e.CloseDone?
    ensures Inv(Next(s, e).value)
  {
    hide Frame, Want, PackU32, Unanswered, BadHeader;
  }

  lemma InvEnds(s: State, e: Event)
    requires Inv(s) && Next(s, e).Some?
    requires e.ShimEof? || e.Exit? || e.CloseOut? || e.CloseIn? || e.Join?
    ensures Inv(Next(s, e).value)
  {
    hide Frame, PackU32;
  }

  lemma InvTakeRequest(s: State, k: nat)
    requires Inv(s) && Next(s, TakeRequest(k)).Some?
    ensures Inv(Next(s, TakeRequest(k)).value)
  {
    var t := Next(s, TakeRequest(k)).value;
    TakesOpenRequest(s, k);
    var out, m := s.shim.out, s.asked[|s.processed|];
    assert s.goro.got + out == t.goro.got + out[k..];
    WantWithinFrame(t.goro.got, out[k..], m);
    hide Frame, PackU32, Want, BadHeader;
  }

  // What it takes is a piece of its next request, not of one ahead.
  lemma TakesOpenRequest(s: State, k: nat)
    requires Inv(s) && Next(s, TakeRequest(k)).Some?
    ensures |s.asked| == |s.processed| + 1 && s.goro.got + s.shim.out == Frame(s.asked[|s.processed|])
  {
    var out, m := s.shim.out, s.asked[|s.processed|];
    if s.goro.got + out == Frame(m) {
      WantWithinFrame(s.goro.got, out, m);
    } else {
      assert s.goro.got + [] == s.goro.got;
      WantWithinFrame(s.goro.got, [], m);
    }
  }

  // A goroutine that has read a header holds a piece of the shim's open request.
  lemma HoldsOpenRequest(s: State)
    requires Inv(s) && s.goro.Receiving? && |s.goro.got| >= 4
    ensures |s.processed| < |s.asked|
    ensures UnpackU32(s.goro.got[..4]) == |s.asked[|s.processed|]|
    ensures Want(s.goro.got) == 0 ==>
              s.goro.got == Frame(s.asked[|s.processed|]) && s.goro.got[4..] == s.asked[|s.processed|]
  {
    var got, m := s.goro.got, s.asked[|s.processed|];
    var rest := Frame(m)[|got|..];
    assert got + rest == Frame(m);
    WantWithinFrame(got, rest, m);
    FrameHeader(m);
  }

  lemma InvGive(s: State, k: nat)
    requires Inv(s) && Next(s, Give(k)).Some?
    ensures Inv(Next(s, Give(k)).value)
  {
    var t := Next(s, Give(k)).value;
    var out := s.goro.out;
    assert s.rbuf + out == t.rbuf + out[k..];
    if t.goro.SendingBody? && s.goro.SendingHeader? {
      assert t.rbuf + out[k..] == t.rbuf;
      assert Short(s) ==> s.answers[|s.read|] in s.answers;
    } else if t.goro.Receiving? {
      assert t.rbuf + out[k..] == t.rbuf;
    }
  }

  // The shim can complete a read only on the whole, single frame of the open answer.
  lemma ShimTakesAnswer(s: State)
    requires Inv(s) && Short(s) && s.shim.Reading? && Serving(s.goro)
    requires |s.rbuf| >= 4 && Want(s.rbuf) == 0
    ensures Unread(s) && s.goro == Receiving([]) && s.rbuf == Frame(s.answers[|s.read|])
    ensures UnpackU32(s.rbuf[..4]) == |s.answers[|s.read|]|
    ensures s.rbuf[4..] == s.answers[|s.read|]
  {
    var a := s.answers[|s.read|];
    var rest := Frame(a)[|s.rbuf|..];
    FrameHeader(a);
    assert s.rbuf + rest == Frame(a);
    WantWithinFrame(s.rbuf, rest, a);
  }
}
