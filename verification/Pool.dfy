/** The worker pool: any number of Runs share the workers through a buffered
    channel, and Close may happen at any time. Every read or write of the closed
    flag, channel send, receive and close is a step of its own. */
module Pool {
  import opened Wrappers
  import opened Messages

  type RunId = nat
  type Wid = nat

  // A Run, from its call of Acquire to the end of its release.
  datatype Agent =
    | Checked                        // closed flag read as false, waiting on the channel
    | Taken(w: Wid)                  // received, not yet pinged
    | Pinging(w: Wid)
    | Holding(w: Wid)                // Acquire has returned the worker
    | Releasing(w: Wid)              // release called, flag not yet read
    | ReleaseChecked(w: Wid)         // flag read as false, not yet sent
    | MustStop(w: Wid, respawn: bool)
    | Stopping(w: Wid, respawn: bool)
    | Spawning
    | Left
    | Panicked(lost: Option<Wid>)    // nil worker, or send on a closed channel

  datatype Closer =
    | NotClosing
    | FlagSet
    | Draining                       // channel closed
    | CloserHas(w: Wid)
    | CloserStopping(w: Wid)
    | CloseDone

  datatype Party = ByRun(r: RunId) | ByCloser

  // One request to a worker, and on whose behalf.
  datatype Use = Use(who: Party, op: Op)

  datatype State = State(
    size: nat,
    queue: seq<Wid>,                 // the buffered channel
    flag: bool,
    chanClosed: bool,
    closer: Closer,
    agents: map<RunId, Agent>,
    log: map<Wid, seq<Use>>,         // requests to each worker ever spawned
    dead: set<Wid>,                  // workers whose Shutdown has finished
    lost: nat,                       // failed replacement spawns
    retired: nat,                    // workers stopped and not replaced
    lease: map<RunId, Wid>,          // the worker Acquire returned
    issued: map<RunId, seq<Op>>      // what the Run asked of it
  )

  datatype Event =
    | Arrive(r: RunId)
    | Cancel(r: RunId)               // ctx.Done
    | Take(r: RunId)                 // receive from the channel
    | Ping(r: RunId)
    | PingOk(r: RunId)
    | PingBad(r: RunId)
    | Ask(r: RunId, op: Op)          // a call or a probe
    | Release(r: RunId)
    | CheckRelease(r: RunId)
    | Put(r: RunId)                  // select: send, or default when full
    | StopBegin(r: RunId)
    | StopEnd(r: RunId)
    | SpawnOk(r: RunId, w: Wid)
    | SpawnFails(r: RunId)
    | SetFlag
    | CloseChan
    | Drain
    | CloserStop
    | CloserStopped
    | CloseReturns

  function Log(s: State, w: Wid, u: Use): map<Wid, seq<Use>>
    requires w in s.log
  {
    s.log[w := s.log[w] + [u]]
  }

  function Step(s: State, r: RunId, a: Agent): State {
    s.(agents := s.agents[r := a])
  }

  function StepArrive(s: State, r: RunId): Option<State> {
    if r in s.agents then None
    else Some(Step(s, r, if s.flag then Left else Checked))
  }

  function StepCancel(s: State, r: RunId): Option<State> {
    if r in s.agents && s.agents[r].Checked? then Some(Step(s, r, Left)) else None
  }

  function StepTake(s: State, r: RunId): Option<State> {
    if !(r in s.agents && s.agents[r].Checked?) then None
    else if s.queue != [] then Some(Step(s, r, Taken(s.queue[0])).(queue := s.queue[1..]))
    else if s.chanClosed then Some(Step(s, r, Panicked(None)))
    else None
  }

  function StepPing(s: State, r: RunId): Option<State> {
    if r in s.agents && s.agents[r].Taken? && s.agents[r].w in s.log
    then Some(Step(s, r, Pinging(s.agents[r].w)).(log := Log(s, s.agents[r].w, Use(ByRun(r), OpPing))))
    else None
  }

  function StepPingOk(s: State, r: RunId): Option<State> {
    if r in s.agents && s.agents[r].Pinging? then Some(Grant(s, r, s.agents[r].w)) else None
  }

  function StepPingBad(s: State, r: RunId): Option<State> {
    if r in s.agents && s.agents[r].Pinging? then Some(Step(s, r, MustStop(s.agents[r].w, true))) else None
  }

  function StepAsk(s: State, r: RunId, op: Op): Option<State> {
    if r in s.agents && s.agents[r].Holding? && s.agents[r].w in s.log && r in s.issued && Numbered(op)
    then Some(s.(log := Log(s, s.agents[r].w, Use(ByRun(r), op)), issued := s.issued[r := s.issued[r] + [op]]))
    else None
  }

  function StepRelease(s: State, r: RunId): Option<State> {
    if r in s.agents && s.agents[r].Holding? then Some(Step(s, r, Releasing(s.agents[r].w))) else None
  }

  function StepCheckRelease(s: State, r: RunId): Option<State> {
    if r in s.agents && s.agents[r].Releasing?
    then var w := s.agents[r].w;
         Some(Step(s, r, if s.flag then MustStop(w, false) else ReleaseChecked(w)))
    else None
  }

  function StepPut(s: State, r: RunId): Option<State> {
    if !(r in s.agents && s.agents[r].ReleaseChecked?) then None
    else
      var w := s.agents[r].w;
      if s.chanClosed then Some(Step(s, r, Panicked(Some(w))))
      else if |s.queue| < s.size then Some(Step(s, r, Left).(queue := s.queue + [w]))
      else Some(Step(s, r, MustStop(w, false)))
  }

  function StepStopBegin(s: State, r: RunId): Option<State> {
    if r in s.agents && s.agents[r].MustStop? && s.agents[r].w in s.log
    then Some(Step(s, r, Stopping(s.agents[r].w, s.agents[r].respawn))
              .(log := Log(s, s.agents[r].w, Use(ByRun(r), OpShutdown))))
    else None
  }

  function StepStopEnd(s: State, r: RunId): Option<State> {
    if r in s.agents && s.agents[r].Stopping?
    then var a := s.agents[r];
         Some(Step(s, r, if a.respawn then Spawning else Left)
              .(dead := s.dead + {a.w}, retired := s.retired + if a.respawn then 0 else 1))
    else None
  }

  function StepSpawnOk(s: State, r: RunId, w: Wid): Option<State> {
    if r in s.agents && s.agents[r].Spawning? && w !in s.log
    then Some(Grant(s.(log := s.log[w := []]), r, w))
    else None
  }

  function StepSpawnFails(s: State, r: RunId): Option<State> {
    if r in s.agents && s.agents[r].Spawning?
    then Some(Step(s, r, Left).(lost := s.lost + 1))
    else None
  }

  function StepSetFlag(s: State): Option<State> {
    if s.closer.NotClosing? then Some(s.(closer := FlagSet, flag := true)) else None
  }

  function StepCloseChan(s: State): Option<State> {
    if s.closer.FlagSet? then Some(s.(closer := Draining, chanClosed := true)) else None
  }

  function StepDrain(s: State): Option<State> {
    if s.closer.Draining? && s.queue != []
    then Some(s.(closer := CloserHas(s.queue[0]), queue := s.queue[1..]))
    else None
  }

  function StepCloserStop(s: State): Option<State> {
    if s.closer.CloserHas? && s.closer.w in s.log
    then Some(s.(closer := CloserStopping(s.closer.w), log := Log(s, s.closer.w, Use(ByCloser, OpShutdown))))
    else None
  }

  function StepCloserStopped(s: State): Option<State> {
    if s.closer.CloserStopping?
    then Some(s.(closer := Draining, dead := s.dead + {s.closer.w}, retired := s.retired + 1))
    else None
  }

  function StepCloseReturns(s: State): Option<State> {
    if s.closer.Draining? && s.queue == [] then Some(s.(closer := CloseDone)) else None
  }

  function Next(s: State, e: Event): Option<State> {
    match e
    case Arrive(r) => StepArrive(s, r)
    case Cancel(r) => StepCancel(s, r)
    case Take(r) => StepTake(s, r)
    case Ping(r) => StepPing(s, r)
    case PingOk(r) => StepPingOk(s, r)
    case PingBad(r) => StepPingBad(s, r)
    case Ask(r, op) => StepAsk(s, r, op)
    case Release(r) => StepRelease(s, r)
    case CheckRelease(r) => StepCheckRelease(s, r)
    case Put(r) => StepPut(s, r)
    case StopBegin(r) => StepStopBegin(s, r)
    case StopEnd(r) => StepStopEnd(s, r)
    case SpawnOk(r, w) => StepSpawnOk(s, r, w)
    case SpawnFails(r) => StepSpawnFails(s, r)
    case SetFlag => StepSetFlag(s)
    case CloseChan => StepCloseChan(s)
    case Drain => StepDrain(s)
    case CloserStop => StepCloserStop(s)
    case CloserStopped => StepCloserStopped(s)
    case CloseReturns => StepCloseReturns(s)
  }

  // Acquire returns worker w to Run r.
  function Grant(s: State, r: RunId, w: Wid): State {
    Step(s, r, Holding(w)).(lease := s.lease[r := w], issued := s.issued[r := []])
  }

  function Run(s: State, es: seq<Event>): Option<State>
    decreases |es|
  {
    if es == [] then Some(s)
    else match Next(s, es[0])
         case None => None
         case Some(t) => Run(t, es[1..])
  }

  // What NewPool hands out: `size` distinct workers in the channel.
  ghost predicate Initial(s: State) {
    && |s.queue| == s.size >= 1
    && Distinct(s.queue)
    && (forall w :: w in s.log <==> w in s.queue)
    && (forall w <- s.log :: s.log[w] == [])
    && !s.flag && !s.chanClosed && s.closer.NotClosing?
    && s.agents == map[] && s.dead == {} && s.lost == s.retired == 0
    && s.lease == map[] && s.issued == map[]
  }

  ghost predicate Distinct<T>(q: seq<T>) {
    forall i, j | 0 <= i < j < |q| :: q[i] != q[j]
  }

  // ---------------------------------------------------------------- who has what

  function WorkerOf(a: Agent): Option<Wid> {
    match a
    case Checked | Spawning | Left => None
    case Panicked(lost) => lost
    case _ => Some(a.w)
  }

  function CloserWorker(c: Closer): Option<Wid> {
    if c.CloserHas? || c.CloserStopping? then Some(c.w) else None
  }

  // The Run owns a worker or the slot of one being replaced.
  predicate InHand(a: Agent) {
    WorkerOf(a).Some? || a.Spawning?
  }

  function InHandRuns(s: State): set<RunId> {
    set r | r in s.agents && InHand(s.agents[r])
  }

  ghost predicate HeldBy(s: State, r: RunId, w: Wid) {
    r in s.agents && WorkerOf(s.agents[r]) == Some(w)
  }

  // Every live worker is in exactly one place: the channel, one Run's hands, or
  // the closer's.
  ghost predicate Placed(s: State) {
    && Distinct(s.queue)
    && s.dead <= s.log.Keys
    && (forall w <- s.queue :: w in s.log && w !in s.dead && CloserWorker(s.closer) != Some(w))
    && (forall r, w | HeldBy(s, r, w) ::
          w in s.log && w !in s.dead && w !in s.queue && CloserWorker(s.closer) != Some(w))
    && (forall r1, r2, w | HeldBy(s, r1, w) && HeldBy(s, r2, w) :: r1 == r2)
    && (CloserWorker(s.closer).Some? ==>
          CloserWorker(s.closer).value in s.log && CloserWorker(s.closer).value !in s.dead)
    && (forall w | w in s.log && w !in s.dead ::
          w in s.queue || (exists r :: HeldBy(s, r, w)) || CloserWorker(s.closer) == Some(w))
  }

  ghost predicate Phases(s: State) {
    && (s.flag <==> !s.closer.NotClosing?)
    && (s.chanClosed <==> !(s.closer.NotClosing? || s.closer.FlagSet?))
    && (s.closer.CloseDone? ==> s.queue == [])
  }

  // Slots are conserved.
  ghost predicate Counted(s: State) {
    && |s.queue| + |InHandRuns(s)| + (if CloserWorker(s.closer).Some? then 1 else 0) + s.lost + s.retired
       == s.size
    && (!s.flag ==> s.retired == 0
                    && forall r <- s.agents :: !(s.agents[r].MustStop? || s.agents[r].Stopping?) || s.agents[r].respawn)
  }

  ghost predicate Owned(s: State) {
    Placed(s) && Phases(s) && Counted(s)
  }

  lemma OwnedInitial(s: State)
    requires Initial(s)
    ensures Owned(s)
  {
    assert InHandRuns(s) == {};
  }

  // Moving agent r from hand to hand, into a hand, or out of one.
  lemma InHandMoves(s: State, r: RunId, a: Agent)
    ensures var t := InHandRuns(Step(s, r, a));
            t == if InHand(a) then InHandRuns(s) + {r} else InHandRuns(s) - {r}
  {
  }

  lemma PlacedSame(s: State, t: State)
    requires Placed(s)
    requires t.queue == s.queue && t.dead == s.dead && t.log.Keys == s.log.Keys
    requires CloserWorker(t.closer) == CloserWorker(s.closer)
    requires forall r, w :: HeldBy(t, r, w) <==> HeldBy(s, r, w)
    ensures Placed(t)
  {
  }

  // A step that leaves every worker where it is.
  lemma OwnedStays(s: State, t: State, r: RunId)
    requires Owned(s)
    requires t.size == s.size && t.queue == s.queue && t.flag == s.flag && t.chanClosed == s.chanClosed
    requires t.closer == s.closer && t.dead == s.dead && t.lost == s.lost && t.retired == s.retired
    requires t.log.Keys == s.log.Keys
    requires r in t.agents && t.agents == s.agents[r := t.agents[r]]
    requires if r in s.agents
             then WorkerOf(t.agents[r]) == WorkerOf(s.agents[r]) && InHand(t.agents[r]) == InHand(s.agents[r])
             else !InHand(t.agents[r])
    requires !s.flag && (t.agents[r].MustStop? || t.agents[r].Stopping?) ==> t.agents[r].respawn
    ensures Owned(t)
  {
    assert InHandRuns(t) == InHandRuns(s);
    PlacedSame(s, t);
  }

  lemma InHandNonEmpty(s: State, r: RunId)
    requires r in s.agents && InHand(s.agents[r])
    ensures |InHandRuns(s)| >= 1
  {
    assert r in InHandRuns(s);
  }

  // The default branch of release: the channel is never full.
  lemma NeverFull(s: State, r: RunId)
    requires Owned(s) && r in s.agents && InHand(s.agents[r])
    ensures |s.queue| < s.size
  {
    InHandNonEmpty(s, r);
  }

  lemma OwnedNext(s: State, e: Event)
    requires Owned(s) && Next(s, e).Some?
    ensures Owned(Next(s, e).value)
  {
    match e
    case Take(r) => if s.queue == [] { OwnedStays(s, StepTake(s, r).value, r); } else { OwnedTake(s, r); }
    case Put(r) => OwnedPut(s, r);
    case StopEnd(r) => OwnedStopEnd(s, r);
    case SpawnOk(r, w) => OwnedSpawn(s, r, w);
    case SpawnFails(r) => OwnedSpawnFails(s, r);
    case Drain => OwnedDrain(s);
    case CloserStopped => OwnedCloserStopped(s);
    case SetFlag => OwnedCloserEvent(s, e);
    case CloseChan => OwnedCloserEvent(s, e);
    case CloserStop => OwnedCloserEvent(s, e);
    case CloseReturns => OwnedCloserEvent(s, e);
    case _ => OwnedInPlace(s, e);
  }

  lemma OwnedInPlace(s: State, e: Event)
    requires Owned(s) && Next(s, e).Some?
    requires e.Arrive? || e.Cancel? || e.Ping? || e.PingOk? || e.PingBad?
             || e.Ask? || e.Release? || e.CheckRelease? || e.StopBegin?
    ensures Owned(Next(s, e).value)
  {
    hide Placed;
    if e.Ask? || e.Release? || e.CheckRelease? || e.StopBegin? {
      OwnedInUse(s, e);
    } else {
      OwnedAcquiring(s, e);
    }
  }

  lemma OwnedAcquiring(s: State, e: Event)
    requires Owned(s) && Next(s, e).Some?
    requires e.Arrive? || e.Cancel? || e.Ping? || e.PingOk? || e.PingBad?
    ensures Owned(Next(s, e).value)
  {
    hide Placed;
    match e
    case Arrive(r) => OwnedStays(s, StepArrive(s, r).value, r);
    case Cancel(r) => OwnedStays(s, StepCancel(s, r).value, r);
    case Ping(r) => OwnedStays(s, StepPing(s, r).value, r);
    case PingOk(r) => OwnedStays(s, StepPingOk(s, r).value, r);
    case PingBad(r) => OwnedStays(s, StepPingBad(s, r).value, r);
  }

  lemma OwnedInUse(s: State, e: Event)
    requires Owned(s) && Next(s, e).Some?
    requires e.Ask? || e.Release? || e.CheckRelease? || e.StopBegin?
    ensures Owned(Next(s, e).value)
  {
    hide Placed;
    match e
    case Ask(r, op) => OwnedStays(s, StepAsk(s, r, op).value, r);
    case Release(r) => OwnedStays(s, StepRelease(s, r).value, r);
    case CheckRelease(r) => OwnedStays(s, StepCheckRelease(s, r).value, r);
    case StopBegin(r) => OwnedStays(s, StepStopBegin(s, r).value, r);
  }

  lemma OwnedCloserEvent(s: State, e: Event)
    requires Owned(s) && Next(s, e).Some?
    requires e.SetFlag? || e.CloseChan? || e.CloserStop? || e.CloseReturns?
    ensures Owned(Next(s, e).value)
  {
    match e
    case SetFlag => OwnedCloser(s, StepSetFlag(s).value);
    case CloseChan => OwnedCloser(s, StepCloseChan(s).value);
    case CloserStop => OwnedCloser(s, StepCloserStop(s).value);
    case CloseReturns => OwnedCloser(s, StepCloseReturns(s).value);
  }

  lemma OwnedTake(s: State, r: RunId)
    requires Owned(s) && StepTake(s, r).Some? && s.queue != []
    ensures Owned(StepTake(s, r).value)
  {
    var t := StepTake(s, r).value;
    InHandMoves(s, r, t.agents[r]);
    assert r !in InHandRuns(s) && InHandRuns(t) == InHandRuns(s) + {r};
    PlacedTake(s, t, r);
  }

  lemma PlacedTake(s: State, t: State, r: RunId)
    requires Placed(s) && r in s.agents && WorkerOf(s.agents[r]).None? && s.queue != []
    requires t == Step(s, r, Taken(s.queue[0])).(queue := s.queue[1..])
    ensures Placed(t)
  {
    var w := s.queue[0];
    assert HeldBy(t, r, w);
    assert forall q, v :: HeldBy(t, q, v) <==> HeldBy(s, q, v) || (q == r && v == w);
    assert forall v :: v in s.queue <==> v == w || v in t.queue;
  }

  lemma OwnedPut(s: State, r: RunId)
    requires Owned(s) && StepPut(s, r).Some?
    ensures Owned(StepPut(s, r).value)
  {
    var t := StepPut(s, r).value;
    NeverFull(s, r);
    if s.chanClosed {
      OwnedStays(s, t, r);
      return;
    }
    InHandMoves(s, r, Left);
    assert r in InHandRuns(s) && InHandRuns(t) == InHandRuns(s) - {r};
    PlacedPut(s, t, r);
  }

  lemma PlacedPut(s: State, t: State, r: RunId)
    requires Placed(s) && r in s.agents && WorkerOf(s.agents[r]).Some?
    requires t == Step(s, r, Left).(queue := s.queue + [WorkerOf(s.agents[r]).value])
    ensures Placed(t)
  {
    var w := WorkerOf(s.agents[r]).value;
    assert HeldBy(s, r, w);
    assert forall q, v :: HeldBy(t, q, v) <==> HeldBy(s, q, v) && q != r;
    assert forall v :: v in t.queue <==> v == w || v in s.queue;
  }

  lemma OwnedStopEnd(s: State, r: RunId)
    requires Owned(s) && StepStopEnd(s, r).Some?
    ensures Owned(StepStopEnd(s, r).value)
  {
    var t := StepStopEnd(s, r).value;
    hide HeldBy, Placed, InHandRuns;
    StopInHand(s, r);
    PlacedStop(s, t, r);
  }

  lemma StopInHand(s: State, r: RunId)
    requires StepStopEnd(s, r).Some?
    ensures r in InHandRuns(s)
    ensures InHandRuns(StepStopEnd(s, r).value) ==
            if s.agents[r].respawn then InHandRuns(s) else InHandRuns(s) - {r}
  {
    InHandMoves(s, r, StepStopEnd(s, r).value.agents[r]);
  }

  lemma PlacedStop(s: State, t: State, r: RunId)
    requires Placed(s) && r in s.agents && WorkerOf(s.agents[r]).Some?
    requires t.queue == s.queue && t.closer == s.closer && t.log == s.log
    requires t.dead == s.dead + {WorkerOf(s.agents[r]).value}
    requires r in t.agents && t.agents == s.agents[r := t.agents[r]] && WorkerOf(t.agents[r]).None?
    ensures Placed(t)
  {
    assert HeldBy(s, r, WorkerOf(s.agents[r]).value);
    assert forall q, v :: HeldBy(t, q, v) <==> HeldBy(s, q, v) && q != r;
  }

  lemma OwnedSpawn(s: State, r: RunId, w: Wid)
    requires Owned(s) && StepSpawnOk(s, r, w).Some?
    ensures Owned(StepSpawnOk(s, r, w).value)
  {
    var t := StepSpawnOk(s, r, w).value;
    assert t.agents == s.agents[r := Holding(w)] && t.log == s.log[w := []];
    assert InHandRuns(t) == InHandRuns(s);
    PlacedSpawn(s, t, r, w);
  }

  lemma PlacedSpawn(s: State, t: State, r: RunId, w: Wid)
    requires Placed(s) && r in s.agents && WorkerOf(s.agents[r]).None? && w !in s.log
    requires t.queue == s.queue && t.dead == s.dead && t.closer == s.closer
    requires t.agents == s.agents[r := Holding(w)] && t.log == s.log[w := []]
    ensures Placed(t)
  {
    assert HeldBy(t, r, w);
    assert forall q, v :: HeldBy(t, q, v) <==> HeldBy(s, q, v) || (q == r && v == w);
  }

  lemma OwnedSpawnFails(s: State, r: RunId)
    requires Owned(s) && StepSpawnFails(s, r).Some?
    ensures Owned(StepSpawnFails(s, r).value)
  {
    var t := StepSpawnFails(s, r).value;
    assert t == Step(s, r, Left).(lost := s.lost + 1);
    InHandMoves(s, r, Left);
    assert r in InHandRuns(s) && InHandRuns(t) == InHandRuns(s) - {r};
    PlacedAway(s, t, r);
  }

  // A Run without a worker leaves.
  lemma PlacedAway(s: State, t: State, r: RunId)
    requires Placed(s) && r in s.agents && WorkerOf(s.agents[r]).None?
    requires t.queue == s.queue && t.dead == s.dead && t.closer == s.closer && t.log == s.log
    requires t.agents == s.agents[r := Left]
    ensures Placed(t)
  {
    assert forall q, v :: HeldBy(t, q, v) <==> HeldBy(s, q, v);
  }

  // Moves of the closer that leave its worker, if any, where it is.
  lemma OwnedCloser(s: State, t: State)
    requires Owned(s)
    requires t.size == s.size && t.queue == s.queue && t.agents == s.agents && t.dead == s.dead
    requires t.lost == s.lost && t.retired == s.retired && t.log.Keys == s.log.Keys
    requires Phases(t) && (s.flag ==> t.flag) && CloserWorker(t.closer) == CloserWorker(s.closer)
    ensures Owned(t)
  {
    assert InHandRuns(t) == InHandRuns(s);
    PlacedSame(s, t);
  }

  lemma OwnedDrain(s: State)
    requires Owned(s) && StepDrain(s).Some?
    ensures Owned(StepDrain(s).value)
  {
    var t := StepDrain(s).value;
    assert InHandRuns(t) == InHandRuns(s);
    assert forall q, w :: HeldBy(t, q, w) <==> HeldBy(s, q, w);
    assert forall v <- s.queue :: v == s.queue[0] || v in t.queue;
  }

  lemma OwnedCloserStopped(s: State)
    requires Owned(s) && StepCloserStopped(s).Some?
    ensures Owned(StepCloserStopped(s).value)
  {
    var t := StepCloserStopped(s).value;
    assert InHandRuns(t) == InHandRuns(s);
    assert forall q, w :: HeldBy(t, q, w) <==> HeldBy(s, q, w);
  }
}
