/** What holds over whole runs of one bridge: answers pair with requests, no
    call can hang, and the goroutine always finishes once the module is gone. */
module BridgeRuns {
  import opened Framing
  import opened Wrappers
  import opened Bridge

  lemma {:induction false} InvRun(s: State, es: seq<Event>)
    requires Inv(s) && Run(s, es).Some?
    ensures Inv(Run(s, es).value)
    decreases |es|
  {
    if es != [] {
      InvNext(s, es[0]);
      InvRun(Next(s, es[0]).value, es[1..]);
    }
  }

  // Pairing on the pipe hop. Whatever the module does and whenever it exits, the
  // k-th answer is to the k-th frame the shim wrote, and while every answer's
  // length fits its header the k-th frame the shim has read is that answer.
  lemma Pairing(es: seq<Event>)
    requires Run(INIT, es).Some?
    ensures var s := Run(INIT, es).value;
            && |s.answers| == |s.processed| <= |s.asked|
            && (forall k :: 0 <= k < |s.processed| ==> s.processed[k] == s.asked[k])
            && (Short(s) ==> |s.read| <= |s.answers| && forall k :: 0 <= k < |s.read| ==> s.read[k] == s.answers[k])
  {
    InvInit();
    InvRun(INIT, es);
  }

  // ---------------------------------------------------------------- deadlock

  ghost predicate AllInRange(s: State) {
    forall b <- s.asked :: InRange(b)
  }

  // The shim is inside __shimmy_call__, every frame so far was 1 byte to 8 MiB,
  // and every answer so far was below 4 GiB.
  ghost predicate InCall(s: State) {
    Inv(s) && s.main.InModule? && !s.shim.Running? && AllInRange(s) && Short(s)
  }

  // No reachable state has the shim and the goroutine both blocked. `answer` is
  // any reply the dispatch may produce: the worker answers.
  lemma CallProgress(s: State, answer: bytes) returns (e: Event)
    requires InCall(s) && answer != []
    ensures Next(s, e).Some? && !e.Exit?
  {
    match s.goro
    case Receiving(got) =>
      if s.shim.Writing? {
        var m := s.asked[|s.processed|];
        assert InRange(m);
        WantWithinFrame(got, s.shim.out, m);
        e := TakeRequest(1);
      } else if Unanswered(s) {
        HoldsOpenRequest(s);
        assert InRange(s.asked[|s.processed|]);
        WantWithinFrame(got, [], s.asked[|s.processed|]);
        e := Complete;
      } else {
        WantWithinFrame(s.rbuf, [], s.answers[|s.read|]);
        e := ShimTake;
      }
    case Working(_) => e := Answer(answer);
    case SendingHeader(_, _) => e := Give(1);
    case SendingBody(_) => e := Give(1);
  }

  // Distance to the end of the open call: phase, then bytes left in it.
  ghost function Rank(s: State): (nat, nat) {
    match s.goro
    case Receiving(got) =>
      if s.shim.Writing? then (4, |s.shim.out|)
      else if Unanswered(s) then (3, 0)
      else (0, 0)
    case Working(_) => (2, 0)
    case SendingHeader(out, body) => (1, |out| + |body|)
    case SendingBody(out) => (1, |out|)
    case _ => (0, 0)
  }

  ghost predicate Below(a: (nat, nat), b: (nat, nat)) {
    a.0 < b.0 || (a.0 == b.0 && a.1 < b.1)
  }

  // Every step of anyone, short of the module exiting, brings the call closer to
  // its end or ends it, unless it begins an answer that is too long.
  lemma CallStep(s: State, e: Event)
    requires InCall(s) && Next(s, e).Some? && !e.Exit?
    ensures var t := Next(s, e).value;
            || !Short(t)
            || (InCall(t) && Below(Rank(t), Rank(s)))
            || (t.shim.Running? && t.read == s.read + [t.answers[|s.read|]] && t.processed == t.asked == s.asked)
  {
    hide Frame, UnpackU32, InRange;
    InvNext(s, e);
    match e
    case ShimTake => ShimTakesAnswer(s);
    case Give(k) => if s.goro.SendingBody? { GivesOpenAnswer(s); }
    case Refuse => HoldsOpenRequest(s); assert false;
    case _ =>
  }

  lemma GivesOpenAnswer(s: State)
    requires InCall(s) && s.goro.SendingBody?
    ensures Unread(s)
  {
  }

  // An infinite behaviour, in which the Run may pause while others move.
  ghost predicate Behaviour(at: nat -> State, ev: nat -> Option<Event>) {
    forall n: nat {:trigger ev(n)} ::
      if ev(n).None? then at(n + 1) == at(n) else Next(at(n), ev(n).value) == Some(at(n + 1))
  }

  // While a call is open, somebody moves again and again.
  ghost predicate KeepsGoing(at: nat -> State, ev: nat -> Option<Event>) {
    forall n: nat | InCall(at(n)) :: exists m: nat :: m >= n && ev(m).Some?
  }

  ghost predicate Returned(asked: seq<bytes>, t: State) {
    t.shim.Running? && t.asked == asked == t.processed && |t.read| == |asked| && t.read == t.answers
  }

  // In every behaviour that keeps going an open call returns, and returns the
  // answer to its own request, unless the module exits first or an answer of
  // 4 GiB or more is begun.
  lemma CallReturns(at: nat -> State, ev: nat -> Option<Event>, n: nat) returns (m: nat)
    requires Behaviour(at, ev) && KeepsGoing(at, ev) && InCall(at(n))
    ensures m >= n && (ev(m) == Some(Exit) || !Short(at(m)) || Returned(at(n).asked, at(m)))
    decreases Rank(at(n)).0, Rank(at(n)).1, 1, 0
  {
    hide Next, InCall, Rank;
    var h :| h >= n && ev(h).Some?;
    m := CallMoves(at, ev, n, h);
  }

  lemma CallMoves(at: nat -> State, ev: nat -> Option<Event>, n: nat, h: nat) returns (m: nat)
    requires Behaviour(at, ev) && KeepsGoing(at, ev) && InCall(at(n))
    requires h >= n && ev(h).Some?
    ensures m >= n && (ev(m) == Some(Exit) || !Short(at(m)) || Returned(at(n).asked, at(m)))
    decreases Rank(at(n)).0, Rank(at(n)).1, 0, h - n
  {
    hide Next, InCall, Rank;
    match ev(n)
    case None => m := CallMoves(at, ev, n + 1, h);
    case Some(e) =>
      if e.Exit? {
        return n;
      }
      CallStep(at(n), e);
      AskedStays(at(n), e);
      if !Short(at(n + 1)) {
        return n + 1;
      }
      if at(n + 1).shim.Running? {
        ReturnedCall(at(n), e);
        m := n + 1;
      } else {
        m := CallReturns(at, ev, n + 1);
      }
  }

  lemma ReturnedCall(s: State, e: Event)
    requires InCall(s) && Next(s, e).Some? && Next(s, e).value.shim.Running? && Short(Next(s, e).value)
    ensures var t := Next(s, e).value;
            t.asked == s.asked == t.processed && t.read == t.answers && |t.read| == |s.asked|
  {
    InvNext(s, e);
    AskedStays(s, e);
    hide Next, Frame, PackU32, Want, UnpackU32, InRange, BadHeader;
  }

  lemma AskedStays(s: State, e: Event)
    requires InCall(s) && Next(s, e).Some?
    ensures Next(s, e).value.asked == s.asked
  {
    hide Inv, Frame, PackU32, Want, UnpackU32, BadHeader;
  }

  // ---------------------------------------------------------------- oversized frames

  // The shim is blocked and the only thing left to happen is the module's exit.
  ghost predicate Stuck(s: State) {
    && s.main.InModule? && !s.shim.Running?
    && forall e :: Next(s, e).Some? ==> e.Exit?
  }

  // While all frames are in range and all answers below 4 GiB, nothing is ever stuck.
  lemma NeverStuck(es: seq<Event>)
    requires Run(INIT, es).Some?
    requires AllInRange(Run(INIT, es).value) && Short(Run(INIT, es).value)
    ensures !Stuck(Run(INIT, es).value)
  {
    var s := Run(INIT, es).value;
    InvInit();
    InvRun(INIT, es);
    if s.main.InModule? && !s.shim.Running? {
      var e := CallProgress(s, [0]);
    }
  }

  // The bound on answers is exact. Any longer one can leave the shim stuck: it
  // reads as many bytes as the header says, takes them for its answer, and its next
  // frame waits for a goroutine that is still writing the rest.
  lemma LongAnswerSticks(s: State, resp: bytes, other: bytes) returns (es: seq<Event>)
    requires Inv(s) && Short(s) && s.shim.Reading? && s.goro.Working?
    requires |resp| >= U32 && |other| < U32
    ensures var n := |resp| % U32;
            && es == [Answer(resp), Give(4)] + (if n == 0 then [] else [Give(n)]) + [ShimTake, Request(other)]
            && Run(s, es).Some? && Stuck(Run(s, es).value)
            && Run(s, es).value.read == s.read + [resp[..n]]
  {
    var n := |resp| % U32;
    var s1, s2 := HeaderGiven(s, resp);
    var s3 := s2.(rbuf := PackU32(n) + resp[..n], goro := SendingBody(resp[n..]));
    TakesCut(s3, PackU32(n), resp[..n]);
    var s4 := s3.(shim := Running, read := s3.read + [resp[..n]], rbuf := []);
    var s5 := Next(s4, Request(other)).value;
    BothWriting(s5);
    assert if n == 0 then s3 == s2 else Next(s2, Give(n)) == Some(s3) by {
      assert n == 0 ==> PackU32(n) + resp[..0] == PackU32(n) && resp[0..] == resp;
    }
    hide Stuck, PackU32, Frame, Next, Inv, Short;
    var last := [ShimTake, Request(other)];
    var rest := (if n == 0 then [] else [Give(n)]) + last;
    OneStep(s4, Request(other));
    Cons(s3, ShimTake, s4, [Request(other)]);
    if n == 0 {
      assert rest == last;
    } else {
      Cons(s2, Give(n), s3, last);
    }
    Cons(s1, Give(4), s2, rest);
    Cons(s, Answer(resp), s1, [Give(4)] + rest);
    es := [Answer(resp), Give(4)] + (if n == 0 then [] else [Give(n)]) + last;
    assert es == [Answer(resp)] + ([Give(4)] + rest);
  }

  lemma HeaderGiven(s: State, resp: bytes) returns (s1: State, s2: State)
    requires Inv(s) && Short(s) && s.shim.Reading? && s.goro.Working? && resp != []
    ensures Next(s, Answer(resp)) == Some(s1) && Next(s1, Give(4)) == Some(s2)
    ensures s2 == s1.(rbuf := PackU32(|resp| % U32), goro := SendingBody(resp))
    ensures s2.shim == s.shim && s2.main == s.main && s2.read == s.read && s.main.InModule?
  {
    var h := PackU32(|resp| % U32);
    assert s.rbuf == [] && [] + h[..4] == h;
    s1 := Next(s, Answer(resp)).value;
    s2 := Next(s1, Give(4)).value;
  }

  lemma OneStep(s: State, e: Event)
    requires Next(s, e).Some?
    ensures Run(s, [e]) == Next(s, e)
  {
    hide Next;
    assert Run(Next(s, e).value, [e][1..]) == Next(s, e);
  }

  lemma Cons(s: State, e: Event, t: State, es: seq<Event>)
    requires Next(s, e) == Some(t)
    ensures Run(s, [e] + es) == Run(t, es)
  {
    hide Next;
    assert ([e] + es)[1..] == es;
  }

  lemma TakesCut(s: State, h: bytes, m: bytes)
    requires |m| < U32 && h == PackU32(|m|) && s.rbuf == h + m && s.shim.Reading?
    ensures Next(s, ShimTake) == Some(s.(shim := Running, read := s.read + [m], rbuf := []))
  {
    UnpackPack(|m|);
    assert s.rbuf[..4] == h && s.rbuf[4..4 + |m|] == m && s.rbuf[4 + |m|..] == [];
  }

  lemma BothWriting(s: State)
    requires s.main.InModule? && s.shim.Writing? && s.goro.SendingBody?
    ensures Stuck(s)
  {
  }

  // Between calls, with the goroutine serving.
  ghost predicate Settled(s: State) {
    Inv(s) && Short(s) && s.main.InModule? && s.shim.Running? && Serving(s.goro)
  }

  lemma AbandonedWriter(s: State)
    requires s.main.InModule? && s.shim.Writing? && s.goro.Done?
    ensures Stuck(s)
  {
  }

  // The header of a frame outside the range is all the goroutine reads of it.
  lemma HeaderThenRefused(s: State, body: bytes) returns (t: State)
    requires s.main.InModule? && s.shim.Running? && s.goro == Receiving([])
    requires |body| < U32 && !InRange(body)
    ensures var s1 := Next(s, Request(body));
            s1.Some? && Next(s1.value, TakeRequest(4)) == Some(t)
    ensures t.main == s.main && t.rbuf == s.rbuf && t.goro.Receiving? && BadHeader(t.goro.got)
    ensures if body == [] then t.shim.Reading? else t.shim.Writing?
  {
    var f := Frame(body);
    FrameHeader(body);
    assert [] + f[..4] == f[..4] && f[..4][..4] == f[..4];
    var s1 := Next(s, Request(body)).value;
    t := Next(s1, TakeRequest(4)).value;
  }

  // After five steps the goroutine is gone, and the shim is in its write, or past
  // it if the body was empty.
  lemma OutOfRangeEndsGoroutine(s: State, body: bytes) returns (es: seq<Event>)
    requires s.main.InModule? && s.shim.Running? && s.goro == Receiving([])
    requires |body| < U32 && !InRange(body)
    ensures es == [Request(body), TakeRequest(4), Refuse, CloseStdin, CloseDone]
    ensures Run(s, es).Some?
    ensures var t := Run(s, es).value;
            t.main.InModule? && t.goro.Done? && t.rbuf == s.rbuf
            && (if body == [] then t.shim.Reading? else t.shim.Writing?)
  {
    var s2 := HeaderThenRefused(s, body);
    var s3 := s2.(goro := Returning);
    var s4 := s2.(goro := StdinClosed);
    var s5 := s2.(goro := Done);
    es := [Request(body), TakeRequest(4), Refuse, CloseStdin, CloseDone];
    Run5(s, es, Next(s, Request(body)).value, s2, s3, s4, s5);
  }

  // The range check is exact: from any point between calls, one frame outside it
  // leads to a stuck shim. An oversized body sticks in its own write; an empty one
  // makes the goroutine leave, and then the next call sticks.
  lemma OutOfRangeSticks(s: State, body: bytes, other: bytes) returns (es: seq<Event>)
    requires Settled(s) && |body| < U32 && |other| < U32
    requires !InRange(body)
    ensures Run(s, es).Some? && Stuck(Run(s, es).value)
    ensures es == [Request(body), TakeRequest(4), Refuse, CloseStdin, CloseDone]
                  + if body == [] then [ShimEof, Request(other)] else []
  {
    es := OutOfRangeEndsGoroutine(s, body);
    var t := Run(s, es).value;
    if body == [] {
      var u := Next(t, ShimEof).value;
      var v := Next(u, Request(other)).value;
      var fs := [ShimEof, Request(other)];
      assert Run(v, fs[1..][1..]) == Some(v);
      assert Run(u, fs[1..]) == Some(v);
      RunConcat(s, es, fs);
      es := es + fs;
      AbandonedWriter(v);
    } else {
      AbandonedWriter(t);
    }
  }

  lemma Run5(s: State, es: seq<Event>, s1: State, s2: State, s3: State, s4: State, s5: State)
    requires |es| == 5
    requires Next(s, es[0]) == Some(s1) && Next(s1, es[1]) == Some(s2) && Next(s2, es[2]) == Some(s3)
    requires Next(s3, es[3]) == Some(s4) && Next(s4, es[4]) == Some(s5)
    ensures Run(s, es) == Some(s5)
  {
    assert Run(s5, es[1..][1..][1..][1..][1..]) == Some(s5);
    assert Run(s4, es[1..][1..][1..][1..]) == Some(s5);
    assert Run(s3, es[1..][1..][1..]) == Some(s5);
    assert Run(s2, es[1..][1..]) == Some(s5);
  }

  lemma {:induction false} RunConcat(s: State, es: seq<Event>, fs: seq<Event>)
    requires Run(s, es).Some?
    ensures Run(s, es + fs) == Run(Run(s, es).value, fs)
    decreases |es|
  {
    hide Next;
    if es == [] {
      assert es + fs == fs;
    } else {
      RunConcat(Next(s, es[0]).value, es[1..], fs);
      assert (es + fs)[1..] == es[1..] + fs;
    }
  }

  // ---------------------------------------------------------------- drain

  // Steps the goroutine and the main thread can still take after the exit.
  ghost function DrainLeft(s: State): nat {
    (match s.goro
     case Receiving(got) => if |got| >= 4 && !BadHeader(got) && Want(got) == 0 then 7 else 3
     case Working(_) => 6
     case SendingHeader(_, _) => 5
     case SendingBody(_) => 4
     case Returning => 2
     case StdinClosed => 1
     case Done => 0)
    + (match s.main
       case InModule => 4
       case Exited => 3
       case OutClosed => 2
       case BothClosed => 1
       case Joined => 0)
  }

  // The module is gone. Nothing is said of the bytes it wrote: they need not have
  // been frames.
  predicate ModuleGone(s: State) {
    s.shim.Gone? && !s.main.InModule? && (s.main.Joined? ==> s.goro.Done?)
  }

  lemma ExitedModule(s: State)
    requires Inv(s) && !s.main.InModule?
    ensures ModuleGone(s)
  {
  }

  // The module may end at any moment, whatever the shim and the goroutine are doing.
  lemma ExitsAnywhere(s: State)
    requires Inv(s) && s.main.InModule?
    ensures Next(s, Exit).Some?
    ensures var t := Next(s, Exit).value;
            ModuleGone(t) && t.goro == s.goro && t.asked == s.asked && t.processed == s.processed && t.read == s.read
  {
  }

  // A response is given both its writes, even if the first one fails.
  lemma BodyFollowsHeader(s: State, e: Event)
    requires s.goro.SendingHeader? && Next(s, e).Some?
    ensures var g := Next(s, e).value.goro;
            (g.SendingHeader? && g.body == s.goro.body) || g == SendingBody(s.goro.body)
  {
  }

  lemma DrainStep(s: State, e: Event)
    requires ModuleGone(s) && Next(s, e).Some?
    ensures ModuleGone(Next(s, e).value) && DrainLeft(Next(s, e).value) < DrainLeft(s)
  {
    hide UnpackU32, PackU32;
  }

  // Until main has joined the goroutine, somebody can move. `answer` stands for
  // the reply of the worker still serving the last request.
  lemma DrainProgress(s: State, answer: bytes) returns (e: Event)
    requires ModuleGone(s) && !s.main.Joined? && answer != []
    ensures Next(s, e).Some?
  {
    if s.main.Exited? {
      e := CloseOut;
    } else if s.main.OutClosed? {
      e := CloseIn;
    } else {
      match s.goro
      case Receiving(got) =>
        e := if BadHeader(got) then Refuse else if Want(got) > 0 then ReadEof else Complete;
      case Working(_) => e := Answer(answer);
      case SendingHeader(_, _) => e := WriteFails;
      case SendingBody(_) => e := WriteFails;
      case Returning => e := CloseStdin;
      case StdinClosed => e := CloseDone;
      case Done => e := Join;
    }
  }

  // At whatever step the module exits, even in the middle of a write, and whatever
  // bytes it wrote, every run afterwards has at most ten steps, and one that cannot
  // continue has joined the goroutine.
  lemma {:induction false} Drains(s: State, es: seq<Event>)
    requires ModuleGone(s) && Run(s, es).Some?
    ensures |es| <= DrainLeft(s) <= 10
    ensures (forall e :: Next(Run(s, es).value, e).None?) ==> Run(s, es).value.main.Joined?
    decreases |es|
  {
    if es == [] {
      if !s.main.Joined? {
        var e := DrainProgress(s, [0]);
      }
    } else {
      DrainStep(s, es[0]);
      Drains(Next(s, es[0]).value, es[1..]);
    }
  }
}
