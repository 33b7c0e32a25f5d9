/** A bridged call as a whole: the shim's request, the host's dispatch, the
    worker's execution, and the value the shim reads. */
module RemoteCall {
  import opened Wrappers
  import opened Wire
  import opened Values
  import opened Trips
  import opened TopLevel
  import opened ResultFiles
  import opened Shm
  import opened Dispatch

  datatype PyCall = PyCall(fn: string, args: seq<PyVal>, kwargs: map<string, PyVal>)

  ghost predicate Taken(lib: Lib, v: PyVal, a: Arg) {
    Sends(ShimLeaves(lib), [], v) && FromJson(Ser(ShimLeaves(lib), [], v)) == Some(a)
  }

  // The request as the host parses it.
  ghost predicate Encodes(lib: Lib, c: PyCall, req: BridgeRequest) {
    && req.fn == c.fn
    && |req.args| == |c.args| && (forall i | 0 <= i < |c.args| :: Taken(lib, c.args[i], req.args[i]))
    && req.kwargs.Keys == c.kwargs.Keys && (forall k <- c.kwargs :: Taken(lib, c.kwargs[k], req.kwargs[k]))
  }

  // ---------------------------------------------------------------- the worker

  // What a name denotes in the worker: a function that returns or raises.
  type Library = (string, seq<PyVal>, map<string, PyVal>) -> Result<PyVal, string>

  ghost predicate AllRead(lib: Lib, files: map<string, File>, args: seq<Arg>, kwargs: map<string, Arg>) {
    && (forall i | 0 <= i < |args| :: Reads(WorkerRecords(lib, files), ToJson(lib, args[i])))
    && (forall k <- kwargs :: Reads(WorkerRecords(lib, files), ToJson(lib, kwargs[k])))
  }

  ghost function ReadAll(lib: Lib, files: map<string, File>, args: seq<Arg>, kwargs: map<string, Arg>)
    : (seq<PyVal>, map<string, PyVal>)
    requires AllRead(lib, files, args, kwargs)
  {
    (seq(|args|, i requires 0 <= i < |args| => Deser(WorkerRecords(lib, files), ToJson(lib, args[i]))),
     map k | k in kwargs :: Deser(WorkerRecords(lib, files), ToJson(lib, kwargs[k])))
  }

  // Serialising a result puts each of its arrays in a new file.
  ghost predicate LeavesArrays(path: Pos -> string, v: PyVal, before: map<string, File>, after: map<string, File>) {
    && Keeps(before, after)
    && ArrayFiles(path, v) !! before.Keys && after.Keys == before.Keys + ArrayFiles(path, v)
    && path([]) != ""
    && (v.PyArray? ==> path([]) in after && after[path([])] == File(v.data, true, true))
  }

  // _execute_call, and the reply as the host reads it.
  ghost predicate Executes(lib: Lib, library: Library, path: Pos -> string, fn: string, args: seq<Arg>,
                           kwargs: map<string, Arg>, files: map<string, File>, o: Outcome)
  {
    if !AllRead(lib, files, args, kwargs) then o.reply.Some? && o.reply.value.Raised? && o.files == files
    else
      var vs, ks := ReadAll(lib, files, args, kwargs).0, ReadAll(lib, files, args, kwargs).1;
      match library(fn, vs, ks)
      case Err(text) => o == Outcome(Some(Raised(text)), files)
      case Ok(v) => ReturnsResult(lib, path, v, files, o)
  }

  ghost predicate ReturnsResult(lib: Lib, path: Pos -> string, v: PyVal, files: map<string, File>, o: Outcome) {
    && LeavesArrays(path, v, files, o.files)
    && Replies(path, v, o)
  }

  // What the host makes of the worker's message; serialising may still raise.
  predicate Replies(path: Pos -> string, v: PyVal, o: Outcome) {
    if !Writable(path, v) then o.reply.Some? && o.reply.value.Raised?
    else o.reply == match FromJson(ResultJson(path, v)) case Some(a) => Some(Returned(Some(a))) case None => None
  }

  // A top-level array the host gets to know of.
  predicate ArrayTaken(path: Pos -> string, v: PyVal) {
    v.PyArray? && Writable(path, v) && FromJson(ResultJson(path, v)).Some?
  }

  // ---------------------------------------------------------------- the call

  ghost predicate AllFit(lib: Lib, c: PyCall) {
    (forall v <- c.args :: Fits(lib, v)) && (forall k <- c.kwargs :: Fits(lib, c.kwargs[k]))
  }

  ghost predicate SameArguments(lib: Lib, files: map<string, File>, args: seq<Arg>, kwargs: map<string, Arg>,
                                c: PyCall)
  {
    && AllRead(lib, files, args, kwargs)
    && var got := ReadAll(lib, files, args, kwargs);
    && Norm(PyList(got.0)) == Norm(PyList(c.args)) && Norm(PyDict(got.1)) == Norm(PyDict(c.kwargs))
  }

  // The worker gets the arguments the user's code passed exactly when all fit.
  lemma ArgumentsArrive(lib: Lib, host: Host, c: PyCall, req: BridgeRequest, before: map<string, File>, site: CallSite)
    requires lib.Sound() && !host.devShm.OtherKind?
    requires Encodes(lib, c, req) && CalledFor(lib, host, req, before, site)
    ensures SameArguments(lib, site.files, site.args, site.kwargs, c) <==> AllFit(lib, c)
  {
    hide Holds, Passed, Fits, FromJson, Ser, Sends, WorkerRecords, Arrived, SameArguments;
    var records := WorkerRecords(lib, site.files);
    forall i | 0 <= i < |c.args| ensures Arrived(lib, records, site.args[i], c.args[i]) <==> Fits(lib, c.args[i]) {
      assert Taken(lib, c.args[i], req.args[i]);
      ArgumentTrip(lib, host, before, site.blocks, site.files, c.args[i], site.args[i]);
    }
    forall k | k in c.kwargs ensures Arrived(lib, records, site.kwargs[k], c.kwargs[k]) <==> Fits(lib, c.kwargs[k]) {
      assert Taken(lib, c.kwargs[k], req.kwargs[k]);
      ArgumentTrip(lib, host, before, site.blocks, site.files, c.kwargs[k], site.kwargs[k]);
    }
    AllArrive(lib, site.files, c, site.args, site.kwargs);
  }

  lemma AllArrive(lib: Lib, files: map<string, File>, c: PyCall, args: seq<Arg>, kwargs: map<string, Arg>)
    requires |args| == |c.args| && kwargs.Keys == c.kwargs.Keys
    ensures SameArguments(lib, files, args, kwargs, c) <==>
            && (forall i | 0 <= i < |args| :: Arrived(lib, WorkerRecords(lib, files), args[i], c.args[i]))
            && (forall k <- kwargs :: Arrived(lib, WorkerRecords(lib, files), kwargs[k], c.kwargs[k]))
  {
    hide Reads, Deser, WorkerRecords, ToJson, Norm, NormAll;
    if AllRead(lib, files, args, kwargs) {
      var got := ReadAll(lib, files, args, kwargs);
      ListNorms(got.0, c.args, PyList(c.args));
      DictNorms(got.1, c.kwargs);
    }
  }

  // A bridged call whose arguments fit does what the same call made locally
  // would: the library function is applied to the values the user passed, and
  // the shim reads the value it returned exactly when that can return, or the
  // error it raised.
  lemma RemoteCallIsLocal(lib: Lib, host: Host, c: PyCall, req: BridgeRequest, before: map<string, File>,
                          site: CallSite, library: Library, path: Pos -> string, o: Outcome)
    returns (vs: seq<PyVal>, ks: map<string, PyVal>)
    requires lib.Sound() && !host.devShm.OtherKind?
    requires Encodes(lib, c, req) && AllFit(lib, c) && CalledFor(lib, host, req, before, site)
    requires Executes(lib, library, path, req.fn, site.args, site.kwargs, site.files, o)
    ensures Norm(PyList(vs)) == Norm(PyList(c.args)) && Norm(PyDict(ks)) == Norm(PyDict(c.kwargs))
    ensures match library(c.fn, vs, ks)
            case Err(text) => ResponseTo(lib, o) == Failure(WorkerError(text)) && FilesAfter(host, site, o) == before
            case Ok(v) =>
              && ResultArrives(lib, path, v, ResponseTo(lib, o))
              && ResultConserves(lib, host, before, site, path, v, o)
  {
    ArgumentsArrive(lib, host, c, req, before, site);
    vs, ks := ReadAll(lib, site.files, site.args, site.kwargs).0, ReadAll(lib, site.files, site.args, site.kwargs).1;
    hide Holds, AllRead, Encodes, AllFit, CalledFor, Norm, NormAll, ReadAll, PathsOf, ResultArrives, ResultConserves,
         ReturnsResult;
    match library(c.fn, vs, ks)
    case Err(_) => Unchanged(lib, host, req, before, site);
    case Ok(v) =>
      assert ReturnsResult(lib, path, v, site.files, o);
      ResultReturns(lib, path, v, site.files, o);
      ResultCollected(lib, host, req, before, site, path, v, o);
  }

  // A call with an argument the worker cannot read raises in the user's code, and
  // leaves no file behind.
  lemma UnreadableRaises(lib: Lib, host: Host, req: BridgeRequest, before: map<string, File>, site: CallSite,
                         library: Library, path: Pos -> string, o: Outcome)
    requires CalledFor(lib, host, req, before, site) && !AllRead(lib, site.files, site.args, site.kwargs)
    requires Executes(lib, library, path, req.fn, site.args, site.kwargs, site.files, o)
    ensures ResponseTo(lib, o).Failure? && ResponseTo(lib, o).error.WorkerError?
    ensures FilesAfter(host, site, o) == before
  {
    Unchanged(lib, host, req, before, site);
    hide CalledFor, AllRead, PathsOf;
  }

  lemma Unchanged(lib: Lib, host: Host, req: BridgeRequest, before: map<string, File>, site: CallSite)
    requires CalledFor(lib, host, req, before, site)
    ensures site.files - PathsOf(host, site.blocks) == before
  {
    hide Passed;
  }

  // The shim reads v, or an error when the worker cannot write it or the host
  // cannot parse it.
  ghost predicate ResultArrives(lib: Lib, path: Pos -> string, v: PyVal, resp: BridgeResponse) {
    if !Writable(path, v) then resp.Failure? && resp.error.WorkerError?
    else if FromJson(ResultJson(path, v)).None? then resp == Failure(NoReply)
    else
      && resp.Success? && resp.value.Some?
      && (Arrived(lib, ShimRecords(lib), resp.value.value, v) <==> Returns(lib, v))
  }

  // The files a call makes are those its reply names or, where a dict has several
  // keys of one text, those it would name if it kept all their values. None is left
  // behind exactly when there are none, or the result is an array the host takes.
  ghost predicate ResultConserves(lib: Lib, host: Host, before: map<string, File>, site: CallSite,
                                  path: Pos -> string, v: PyVal, o: Outcome)
  {
    && Made(site, o) == NamedUnlost(path, v)
    && (Writable(path, v) ==> FilesNamed(ResultJson(path, v)) <= Made(site, o))
    && (Writable(path, v) && Unkeyed(v) ==> FilesNamed(ResultJson(path, v)) == Made(site, o))
    && (FilesAfter(host, site, o) == before <==> NamedUnlost(path, v) == {} || ArrayTaken(path, v))
  }

  lemma ResultReturns(lib: Lib, path: Pos -> string, v: PyVal, files: map<string, File>, o: Outcome)
    requires lib.Sound() && ReturnsResult(lib, path, v, files, o)
    ensures ResultArrives(lib, path, v, ResponseTo(lib, o))
  {
    hide FromJson, ResultJson, Arrived, Returns, Writable;
    if Writable(path, v) && FromJson(ResultJson(path, v)).Some? {
      ResultTrip(lib, path, v, o.files);
    }
  }

  lemma ResultCollected(lib: Lib, host: Host, req: BridgeRequest, before: map<string, File>, site: CallSite,
                        path: Pos -> string, v: PyVal, o: Outcome)
    requires CalledFor(lib, host, req, before, site) && ReturnsResult(lib, path, v, site.files, o)
    ensures ResultConserves(lib, host, before, site, path, v, o)
  {
    hide CalledFor, FromJson, ResultJson, FilesAfter, Replies, PathsOf, FilesNamed, Spots, Unkeyed, Listed;
    ResultFile(lib, path, v, o);
    assert Made(site, o) == ArrayFiles(path, v);
    NamesOf(path, v);
    if v.PyArray? {
      OneArray(path, v);
    }
    Conserved(lib, host, req, before, site, o);
  }

  lemma OneArray(path: Pos -> string, v: PyVal)
    requires v.PyArray?
    ensures ArrayFiles(path, v) == {path([])}
  {
    assert Spots([], v) == {[]};
  }

  // The host takes a reply for an array exactly when the result is one.
  lemma ResultFile(lib: Lib, path: Pos -> string, v: PyVal, o: Outcome)
    requires Replies(path, v, o)
    requires path([]) != ""
    ensures ResultPath(o.reply) == if ArrayTaken(path, v) then Some(path([])) else None
  {
    if v.PyArray? {
      ArrayJson(path, v);
      PathTaken(path([]), v);
    } else if Writable(path, v) {
      ResultTagsText(path, v);
      var kind, value := TaggedForm(WorkerLeaves(path), [], v);
      Unmarshalled(kind, value);
    }
  }
}
