/** In an environment whose texts fit their headers no Run ever begins an answer
    that does not. */
module SystemLengths {
  import opened Wrappers
  import opened Messages
  import opened System
  import opened SystemInv
  import opened SystemMoves
  import opened SystemSteps
  import opened SystemProgress
  import opened SystemRuns
  import B = Bridge
  import S = Socket
  import PL = PoolLogs
  import Parts = SystemParts

  ghost predicate AllShort(s: State) {
    forall r <- s.runs :: B.Short(s.runs[r].bridge)
  }

  lemma AnswersKept(b: B.State, be: B.Event)
    requires !be.Answer? && B.Next(b, be).Some?
    ensures B.Next(b, be).value.answers == b.answers
  {
  }

  // Whatever is sent to a shim is of the host's making or came in a reply that fits.
  lemma RespondShort(env: Env, s: State, q: RunId, resp: Response, at: Option<nat>)
    requires ShortTexts(env) && Carried(env, resp) && AllShort(s)
    requires q in s.runs && RespondIn(env, s, q, resp, at).Some?
    ensures AllShort(RespondIn(env, s, q, resp, at).value)
  {
    hide Carried;
    var t := RespondIn(env, s, q, resp, at).value;
    assert t.runs[q].bridge.answers == s.runs[q].bridge.answers + [env.encResp(resp)];
    forall r | r in t.runs ensures B.Short(t.runs[r].bridge) {
      assert B.Short(s.runs[r].bridge);
    }
  }

  lemma ReplyCarried(env: Env, s: State, q: RunId, f: bool)
    requires Core(env, s) && Returned(s, q).Some?
    ensures Carried(env, ResponseTo(Returned(s, q).value, f))
  {
    hide Core;
    ReturnedIsOwn(env, s, q);
    WorkerFacts(env, s, s.pool.agents[q].w);
    ServedFacts(env, s, s.pool.agents[q].w);
    ReturnedFits(env, s, q);
    hide S.Histories, S.Fits, WorkerOK, Returned;
  }

  lemma ReadyCarried(env: Env, s: State, q: RunId)
    requires Core(env, s) && Active(s, q) && s.runs[q].disp.Ready?
    ensures Carried(env, s.runs[q].disp.resp)
  {
    hide Core, AtsBelow;
    DispFacts(env, s, q);
    ReadyIsProbe(env, q, s.runs[q], SystemSteps.Own(s, q));
  }

  lemma LocalCarried(env: Env, s: State, q: RunId)
    requires Dispatching(s, q) && LocalResponse(env, s, q).Some?
    ensures Carried(env, LocalResponse(env, s, q).value)
  {
  }

  // The steps that may answer a frame.
  lemma RespondingShort(env: Env, s: State, e: Event)
    requires ShortTexts(env) && Core(env, s) && AllShort(s) && Parts.Responding(e) && Next(env, s, e).Some?
    ensures AllShort(Next(env, s, e).value)
  {
    hide ShortTexts, Core, AllShort, RespondIn, LocalResponse, Carried;
    match e
    case AnswerLocally(q) =>
      LocalCarried(env, s, q);
      RespondShort(env, s, q, LocalResponse(env, s, q).value, None);
    case ResolveFails(q) =>
      FailureCarried(env, BAD_ARGUMENT);
      RespondShort(env, s, q, Failure(BAD_ARGUMENT), None);
    case ProbeReturned(q) =>
      if Returned(s, q).value.None? {
        FailureCarried(env, NO_REPLY);
        RespondShort(env, s, q, Failure(NO_REPLY), Some(s.runs[q].disp.at));
      } else {
        StoringShort(env, s, q);
      }
    case SendProbe(q) =>
      ReadyCarried(env, s, q);
      RespondShort(env, s, q, s.runs[q].disp.resp, Some(s.runs[q].disp.at));
    case CallReturned(q, f) =>
      ReplyCarried(env, s, q, f);
      RespondShort(env, s, q, ResponseTo(Returned(s, q).value, f), Some(s.runs[q].disp.at));
  }

  lemma FailureCarried(env: Env, text: string)
    requires text in {NOT_ALLOWED, BAD_REQUEST, BAD_ARGUMENT, BAD_RESULT, NO_REPLY}
    ensures Carried(env, Failure(text))
  {
  }

  lemma StoringShort(env: Env, s: State, q: RunId)
    requires AllShort(s) && Returned(s, q).Some? && Returned(s, q).value.Some? && StepProbeReturned(env, s, q).Some?
    ensures AllShort(StepProbeReturned(env, s, q).value)
  {
    hide RespondIn, B.Short;
  }

  lemma ShortNext(env: Env, s: State, e: Event)
    requires ShortTexts(env) && Inv(env, s) && AllShort(s) && Next(env, s, e).Some?
    ensures AllShort(Next(env, s, e).value)
  {
    hide Next, ShortTexts, Core, PL.Inv, Parts.Responding;
    var t := Next(env, s, e).value;
    if Parts.Responding(e) {
      RespondingShort(env, s, e);
    } else {
      forall r | r in t.runs ensures B.Short(t.runs[r].bridge) {
        QuietShort(env, s, e, r);
      }
    }
  }

  lemma QuietShort(env: Env, s: State, e: Event, r: RunId)
    requires AllShort(s) && Next(env, s, e).Some? && !Parts.Responding(e) && r in Next(env, s, e).value.runs
    ensures B.Short(Next(env, s, e).value.runs[r].bridge)
  {
    hide Next, B.Next;
    if e.BridgeStep? {
      Parts.BridgeSteps(env, s, e.r, e.be, r);
      NoAnswers(env, s, e.r, e.be);
      if B.Next(s.runs[r].bridge, e.be).Some? {
        AnswersKept(s.runs[r].bridge, e.be);
      }
    } else {
      Parts.BridgesKept(env, s, e, r);
    }
  }

  lemma NoAnswers(env: Env, s: State, q: RunId, be: B.Event)
    requires Next(env, s, BridgeStep(q, be)).Some?
    ensures !be.Answer?
  {
    hide B.Next;
  }

  lemma {:induction false} ShortRun(env: Env, s: State, es: seq<Event>)
    requires env.Sound() && ShortTexts(env) && Inv(env, s) && AllShort(s) && Run(env, s, es).Some?
    ensures AllShort(Run(env, s, es).value)
    decreases |es|
  {
    hide Next, Inv, ShortTexts, AllShort;
    if es != [] {
      ShortNext(env, s, es[0]);
      InvNext(env, s, es[0]);
      ShortRun(env, Next(env, s, es[0]).value, es[1..]);
    }
  }

  // So every answer's length fits its header in every reachable state.
  lemma NeverTooLong(env: Env, s: State)
    requires env.Sound() && ShortTexts(env) && Reachable(env, s)
    ensures forall r <- s.runs :: B.Short(s.runs[r].bridge)
  {
    hide Inv, ShortTexts;
    var s0, es :| Initial(s0) && Run(env, s0, es) == Some(s);
    InvInitial(env, s0);
    ShortRun(env, s0, es);
  }
}
