/** Which results come back over a worker's socket: those the host can parse. */
module ResultReplies {
  import opened Framing
  import opened Wrappers
  import opened Messages
  import opened Values
  import S = Socket
  import SR = SocketRuns
  import SW = SystemWitness
  import T = TopLevel
  import W = Wire

  // The value bytes of a result are the JSON text of what the worker returns, and
  // the host unmarshals them into its typed record.
  ghost predicate Unmarshals(cd: Codec, text: bytes -> W.Json) {
    forall id, v :: cd.Parses(Result(id, v)) <==> W.FromJson(text(v)).Some?
  }

  // Such codecs exist, for any way of writing texts as bytes.
  lemma SomeUnmarshals(window: nat, text: bytes -> W.Json)
    requires window >= 1
    ensures var cd := SW.SomeEnv(window, v => W.FromJson(text(v)).Some?).codec;
            cd.Sound() && Unmarshals(cd, text)
  {
    SW.MessagesDecode(window, v => W.FromJson(text(v)).Some?);
  }

  // What the worker has served is what it was told to answer.
  lemma {:induction false} ServedAs(cd: Codec, c: S.Conn, es: seq<S.Event>, reply: Reply)
    requires S.Run(cd, c, es).Some? && forall e <- es :: e.PyReply? ==> e.reply == reply
    requires forall i | 0 <= i < |c.served| :: c.served[i].1 == reply
    ensures forall i | 0 <= i < |S.Run(cd, c, es).value.served| :: S.Run(cd, c, es).value.served[i].1 == reply
    decreases |es|
  {
    if es != [] {
      var d := S.Next(cd, c, es[0]).value;
      assert forall i | 0 <= i < |d.served| :: d.served[i].1 == reply;
      hide S.Next;
      ServedAs(cd, d, es[1..], reply);
    }
  }

  // Any request a living worker answers with a fitting reply comes back as that
  // reply if the host can parse it and as nothing otherwise, and the worker lives
  // on with a clean socket.
  lemma ComesBack(cd: Codec, op: Op, reply: Reply) returns (es: seq<S.Event>)
    requires cd.Sound() && !op.OpShutdown?
    requires var q := RequestOf(op, NextId(0));
             |cd.encReq(q)| <= SOCKET_LIMIT && Answers(q, reply) && |cd.encRep(reply)| <= SOCKET_LIMIT
    ensures S.Run(cd, S.FRESH, [S.Lock(op)] + es).Some? && S.Crash !in es
    ensures var d := S.Run(cd, S.FRESH, [S.Lock(op)] + es).value;
            && d.returned == [if cd.Parses(reply) then Some(reply) else None]
            && !d.py.Exited? && d.host.Free? && d.toWorker == [] && d.toHost == []
  {
    var c := S.Locked(cd, S.FRESH, op).value;
    S.StepLock(cd, S.FRESH, op);
    assert c.begun == [RequestOf(op, NextId(0))] && SR.Modest(cd, c);
    es := SR.RequestCompletes(cd, c, reply);
    var d := S.Run(cd, c, es).value;
    var all := [S.Lock(op)] + es;
    assert all[1..] == es && S.Run(cd, S.FRESH, all) == Some(d);
    ServedAs(cd, c, es, reply);
    SR.EveryRequestAnswered(cd, all);
    SR.OwnAnswers(cd, all);
  }

  // A call whose result is v returns it exactly when the host can unmarshal what
  // the worker writes for v: the worker stays alive and its socket clean either way.
  lemma CallReturnsResult(cd: Codec, text: bytes -> W.Json, path: Pos -> string, v: PyVal, op: Op, value: bytes)
    returns (es: seq<S.Event>)
    requires cd.Sound() && Unmarshals(cd, text) && op.OpCall?
    requires T.Writable(path, v) && text(value) == T.ResultJson(path, v)
    requires |cd.encReq(RequestOf(op, NextId(0)))| <= SOCKET_LIMIT
    requires |cd.encRep(Result(NextId(0), value))| <= SOCKET_LIMIT
    ensures S.Run(cd, S.FRESH, [S.Lock(op)] + es).Some? && S.Crash !in es
    ensures var d := S.Run(cd, S.FRESH, [S.Lock(op)] + es).value;
            && !d.py.Exited? && d.host.Free? && d.toWorker == [] && d.toHost == []
            && d.returned == [if W.FromJson(T.ResultJson(path, v)).Some? then Some(Result(NextId(0), value)) else None]
  {
    es := ComesBack(cd, op, Result(NextId(0), value));
  }

  // nan, inf and -inf are such results: json.dumps writes them, json.Unmarshal
  // refuses them.
  lemma NonFiniteIsRefused(path: Pos -> string)
    ensures T.Writable(path, PyNonFinite) && W.FromJson(T.ResultJson(path, PyNonFinite)).None?
    ensures !W.Parses(T.ResultJson(path, PyNonFinite))
  {
    T.Unmarshalled("scalar", W.JNaN);
  }
}
