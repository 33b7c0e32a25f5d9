/** One bridge request on the host: probe cache, filter, array arguments moved
    into shared memory, the worker call, array results collected, and the blocks
    freed on every way out. */
module Dispatch {
  import opened Framing
  import opened Wrappers
  import opened Shm
  import opened Wire
  import F = Filter
  import opened Messages

  const NDARRAY := "ndarray"
  const PROBE := ".__probe__"

  datatype DispatchError =
    | NotAllowed | DecodeFailed | AllocFailed | UnknownHandle
    | NoReply | WorkerError(text: string) | ReadFailed

  datatype BridgeResponse = Failure(error: DispatchError) | Success(value: Option<Arg>)

  // What the worker does with a request, and the files it leaves behind.
  datatype CallReply = Raised(text: string) | Returned(value: Option<Arg>)
  datatype Outcome = Outcome(reply: Option<CallReply>, files: map<string, File>)
  datatype Worker = Worker(
    probe: string -> Option<ProbeInfo>,
    call: (string, seq<Arg>, map<string, Arg>, map<string, File>) -> Outcome
  )
  {
    // When it answers a probe, it gives this answer.
    ghost predicate ProbesAs(answers: string -> ProbeInfo) {
      forall t :: probe(t).Some? ==> probe(t).value == answers(t)
    }

    // It only adds files, and returns arrays in files of its own.
    ghost predicate Behaves() {
      forall fn, args, kwargs, files ::
        var o := call(fn, args, kwargs, files);
        && Keeps(files, o.files)
        && (ResultPath(o.reply).Some? ==> ResultPath(o.reply).value in o.files.Keys - files.Keys)
    }
  }

  predicate Keeps(before: map<string, File>, after: map<string, File>) {
    forall p <- before :: p in after && after[p] == before[p]
  }

  // The file a reply's array is in.
  function ResultPath(reply: Option<CallReply>): Option<string> {
    if reply.Some? && reply.value.Returned? && reply.value.value.Some?
    then ArrayPath(reply.value.value.value)
    else None
  }

  function ArrayPath(a: Arg): Option<string> {
    if a.kind == NDARRAY && a.value.JStr? && a.value.s != "" then Some(a.value.s) else None
  }

  datatype BridgeRequest = BridgeRequest(fn: string, args: seq<Arg>, kwargs: map<string, Arg>)

  // ---------------------------------------------------------------- arguments

  function U32Of(h: int): nat { h % U32 }

  // `out` is what the worker is sent for `a`: anything but an array unchanged,
  // an array by the path of a live block, holding the decoded bytes if they
  // came inline.
  ghost predicate Passed(lib: Lib, host: Host, blocks: map<nat, Block>, files: map<string, File>, a: Arg, out: Arg) {
    if a.kind != NDARRAY then out == a
    else if a.b64 != "" then
      && U32Of(out.shmHandle) in blocks
      && var blk := blocks[U32Of(out.shmHandle)];
      && ByPath(host, a, out, blk)
      && lib.decode64(a.b64).Some?
      && host.BlockPath(blk.name) in files
      && files[host.BlockPath(blk.name)].content == lib.decode64(a.b64).value
    else
      && U32Of(a.shmHandle) in blocks
      && out.shmHandle == a.shmHandle
      && ByPath(host, a, out, blocks[U32Of(a.shmHandle)])
  }

  predicate ByPath(host: Host, a: Arg, out: Arg, blk: Block) {
    out == Arg(NDARRAY, JStr(host.FilePath(blk.name)), out.shmHandle, a.shape, a.dtype, "")
  }

  // Why an argument is refused.
  predicate Refused(lib: Lib, blocks: map<nat, Block>, a: Arg, e: DispatchError) {
    && a.kind == NDARRAY
    && match e
       case DecodeFailed => a.b64 != "" && lib.decode64(a.b64).None?
       case AllocFailed => a.b64 != "" && lib.decode64(a.b64).Some?
       case UnknownHandle => a.b64 == "" && U32Of(a.shmHandle) !in blocks
       case _ => false
  }

  predicate Inline(a: Arg) { a.kind == NDARRAY && a.b64 != "" }

  // The same two, told by the request alone: n inline arrays came before, and the
  // blocks of a dispatch have the handles 0, 1, ... in that order.
  predicate PassesAt(lib: Lib, n: nat, a: Arg) {
    a.kind == NDARRAY ==>
      if a.b64 != "" then lib.decode64(a.b64).Some? else a.shmHandle % U32 < n
  }

  predicate RefusedAt(lib: Lib, n: nat, a: Arg, e: DispatchError) {
    && a.kind == NDARRAY
    && match e
       case DecodeFailed => a.b64 != "" && lib.decode64(a.b64).None?
       case AllocFailed => a.b64 != "" && lib.decode64(a.b64).Some?
       case UnknownHandle => a.b64 == "" && a.shmHandle % U32 >= n
       case _ => false
  }

  ghost predicate Dense(blocks: map<nat, Block>, n: nat) {
    forall h :: h in blocks <==> 0 <= h < n
  }

  // What resolving one argument does to the handles, and why.
  ghost predicate Tallied(lib: Lib, blocks: map<nat, Block>, n: nat, blocks': map<nat, Block>, n': nat, a: Arg,
                          r: Result<Arg, DispatchError>) {
    && n' == n + (if r.Ok? && Inline(a) then 1 else 0)
    && (Dense(blocks, n) ==>
          && Dense(blocks', n')
          && (match r case Ok(_) => PassesAt(lib, n, a) case Err(e) => RefusedAt(lib, n, a, e)))
  }

  // The shm directory is as before the dispatch plus exactly the blocks' files,
  // none of them empty.
  ghost predicate Holds(host: Host, before: map<string, File>, files: map<string, File>, blocks: map<nat, Block>) {
    && Keeps(before, files)
    && PathsOf(host, blocks) !! before.Keys
    && files.Keys == before.Keys + PathsOf(host, blocks)
    && (forall h <- blocks :: var p := host.BlockPath(blocks[h].name);
          p in files && files[p].readable && |files[p].content| > 0)
  }

  predicate KeepsBlocks(before: map<nat, Block>, after: map<nat, Block>) {
    forall h <- before :: h in after && after[h] == before[h]
  }

  lemma PassedStays(lib: Lib, host: Host, blocks: map<nat, Block>, files: map<string, File>,
                    blocks': map<nat, Block>, files': map<string, File>, a: Arg, out: Arg)
    requires Passed(lib, host, blocks, files, a, out) && KeepsBlocks(blocks, blocks') && Keeps(files, files')
    ensures Passed(lib, host, blocks', files', a, out)
  {
  }

  lemma AddedBlock(host: Host, before: map<string, File>, files: map<string, File>, blocks: map<nat, Block>,
                   h: nat, blk: Block, data: bytes)
    requires Holds(host, before, files, blocks) && h !in blocks && host.BlockPath(blk.name) !in files && data != []
    ensures var files', blocks' := files[host.BlockPath(blk.name) := File(data, true, true)], blocks[h := blk];
            && Holds(host, before, files', blocks')
            && Keeps(files, files') && KeepsBlocks(blocks, blocks')
  {
    var p, blocks' := host.BlockPath(blk.name), blocks[h := blk];
    assert PathsOf(host, blocks') == PathsOf(host, blocks) + {p} by {
      assert blocks'[h] == blk;
      forall q | q in PathsOf(host, blocks) ensures q in PathsOf(host, blocks') {
        var k :| k in blocks && q == host.BlockPath(blocks[k].name);
        assert blocks'[k] == blocks[k];
      }
    }
  }

  // The manager is in order, and all it has done to the machine since `before`
  // is what its blocks account for.
  ghost predicate Accounted(mgr: ShmManager, before: map<string, File>, open: nat, mapped: nat)
    reads mgr, mgr.host
  {
    && mgr.Valid()
    && Holds(mgr.host, before, mgr.host.files, mgr.blocks)
    && mgr.host.open == open + |mgr.blocks| && mgr.host.mapped == mapped + |mgr.blocks|
  }

  method ResolveArg(lib: Lib, mgr: ShmManager, a: Arg, ghost before: map<string, File>, ghost open: nat,
                    ghost mapped: nat)
    returns (r: Result<Arg, DispatchError>)
    requires Accounted(mgr, before, open, mapped) && mgr.allocs < U32
    modifies mgr, mgr.host
    ensures Accounted(mgr, before, open, mapped) && mgr.allocs <= old(mgr.allocs) + 1
    ensures Keeps(old(mgr.host.files), mgr.host.files) && KeepsBlocks(old(mgr.blocks), mgr.blocks)
    ensures mgr.host.failures == old(mgr.host.failures) + if r == Err(AllocFailed) then 1 else 0
    ensures Tallied(lib, old(mgr.blocks), old(mgr.allocs), mgr.blocks, mgr.allocs, a, r)
    ensures r.Ok? ==> Passed(lib, mgr.host, mgr.blocks, mgr.host.files, a, r.value)
    ensures r.Err? ==> Refused(lib, mgr.blocks, a, r.error)
  {
    if a.kind != NDARRAY {
      return Ok(a);
    }
    if a.b64 != "" {
      var raw := lib.decode64(a.b64);
      if raw.None? {
        return Err(DecodeFailed);
      }
      r := ShareBytes(lib, mgr, a, raw.value, before, open, mapped);
      return;
    }
    var blk := mgr.Get(U32Of(a.shmHandle));
    if blk.None? {
      return Err(UnknownHandle);
    }
    return Ok(Arg(NDARRAY, JStr(mgr.host.FilePath(blk.value.name)), a.shmHandle, a.shape, a.dtype, ""));
  }

  lemma SharedTally(lib: Lib, blocks: map<nat, Block>, n: nat, blk: Block, a: Arg, out: Arg)
    requires n < U32 && Inline(a) && lib.decode64(a.b64).Some?
    ensures Tallied(lib, blocks, n, blocks, n, a, Err(AllocFailed))
    ensures Tallied(lib, blocks, n, blocks[n := blk], n + 1, a, Ok(out))
  {
  }

  lemma HandleIsNumber(mgr: ShmManager)
    requires mgr.Valid() && mgr.allocs < U32
    ensures mgr.nextH == mgr.allocs
  {
  }

  // The inline case of resolveArg: a fresh block with the array's bytes.
  method ShareBytes(lib: Lib, mgr: ShmManager, a: Arg, raw: bytes, ghost before: map<string, File>, ghost open: nat,
                    ghost mapped: nat)
    returns (r: Result<Arg, DispatchError>)
    requires Accounted(mgr, before, open, mapped) && mgr.allocs < U32
    requires a.kind == NDARRAY && a.b64 != "" && lib.decode64(a.b64) == Some(raw)
    modifies mgr, mgr.host
    ensures Accounted(mgr, before, open, mapped) && mgr.allocs <= old(mgr.allocs) + 1
    ensures Keeps(old(mgr.host.files), mgr.host.files) && KeepsBlocks(old(mgr.blocks), mgr.blocks)
    ensures mgr.host.failures == old(mgr.host.failures) + if r == Err(AllocFailed) then 1 else 0
    ensures Tallied(lib, old(mgr.blocks), old(mgr.allocs), mgr.blocks, mgr.allocs, a, r)
    ensures r.Ok? ==> Passed(lib, mgr.host, mgr.blocks, mgr.host.files, a, r.value)
    ensures r.Err? ==> Refused(lib, mgr.blocks, a, r.error)
  {
    hide Holds, Backed, PathsOf, Keeps, KeepsBlocks, Host.BlockPath, Host.FilePath, Host.Name, Shm.Numbered,
         Tallied;
    HandleIsNumber(mgr);
    SharedTally(lib, mgr.blocks, mgr.allocs, Block("", 0), a, a);
    KeepsTransitive(mgr.blocks, mgr.blocks, mgr.blocks, mgr.host.files, mgr.host.files, mgr.host.files);
    var h := mgr.Alloc(|raw|);
    if h.Err? {
      return Err(AllocFailed);
    }
    var got := mgr.Get(h.value);
    var blk := got.value;
    var path := mgr.host.BlockPath(blk.name);
    mgr.host.Store(path, raw);
    var f := File(raw, true, true);
    assert raw + Zeros(|raw|)[|raw|..] == raw;
    assert mgr.host.files == old(mgr.host.files)[path := f];
    AddBlock(mgr.host, old(mgr.host.files), old(mgr.blocks), h.value, blk, f);
    AddedBlock(mgr.host, before, old(mgr.host.files), old(mgr.blocks), h.value, blk, raw);
    SharedTally(lib, old(mgr.blocks), old(mgr.allocs), blk, a,
                Arg(NDARRAY, JStr(mgr.host.FilePath(blk.name)), h.value, a.shape, a.dtype, ""));
    return Ok(Arg(NDARRAY, JStr(mgr.host.FilePath(blk.name)), h.value, a.shape, a.dtype, ""));
  }

  // How many arrays come inline.
  function Inlines(args: seq<Arg>): nat {
    if args == [] then 0
    else Inlines(args[..|args| - 1]) + if Inline(args[|args| - 1]) then 1 else 0
  }

  predicate AllPass(lib: Lib, n: nat, args: seq<Arg>) {
    args != [] ==>
      var m := |args| - 1;
      AllPass(lib, n, args[..m]) && PassesAt(lib, n + Inlines(args[..m]), args[m])
  }

  // The first argument that cannot pass is refused for this reason.
  ghost predicate FirstAt(lib: Lib, n: nat, args: seq<Arg>, e: DispatchError) {
    exists i | 0 <= i < |args| ::
      AllPass(lib, n, args[..i]) && RefusedAt(lib, n + Inlines(args[..i]), args[i], e)
  }

  // The handles after these arguments, from blocks0 with n0 of them in use.
  ghost predicate SoFar(lib: Lib, blocks0: map<nat, Block>, n0: nat, blocks: map<nat, Block>, n: nat, args: seq<Arg>) {
    && n == n0 + Inlines(args)
    && (Dense(blocks0, n0) ==> Dense(blocks, n) && AllPass(lib, n0, args))
  }

  lemma SoFarNone(lib: Lib, blocks: map<nat, Block>, n: nat)
    ensures SoFar(lib, blocks, n, blocks, n, [])
  {
  }

  lemma SoFarMore(lib: Lib, blocks0: map<nat, Block>, n0: nat, blocks: map<nat, Block>, n: nat,
                  blocks': map<nat, Block>, n': nat, args: seq<Arg>, a: Arg, out: Arg)
    requires SoFar(lib, blocks0, n0, blocks, n, args) && Tallied(lib, blocks, n, blocks', n', a, Ok(out))
    ensures SoFar(lib, blocks0, n0, blocks', n', args + [a])
  {
    hide Dense, PassesAt;
    assert (args + [a])[..|args|] == args;
  }

  lemma RefusedNext(lib: Lib, blocks0: map<nat, Block>, n0: nat, blocks: map<nat, Block>, n: nat,
                    blocks': map<nat, Block>, n': nat, args: seq<Arg>, i: nat, e: DispatchError)
    requires i < |args| && SoFar(lib, blocks0, n0, blocks, n, args[..i])
    requires Tallied(lib, blocks, n, blocks', n', args[i], Err(e))
    ensures Dense(blocks0, n0) ==> FirstAt(lib, n0, args, e)
  {
    hide Dense, AllPass, RefusedAt;
  }

  method ResolveArgs(lib: Lib, mgr: ShmManager, args: seq<Arg>, ghost before: map<string, File>, ghost open: nat,
                     ghost mapped: nat)
    returns (r: Result<seq<Arg>, DispatchError>)
    requires Accounted(mgr, before, open, mapped) && mgr.allocs + |args| <= U32
    modifies mgr, mgr.host
    ensures Accounted(mgr, before, open, mapped) && mgr.allocs <= old(mgr.allocs) + |args|
    ensures mgr.host.failures == old(mgr.host.failures) + if r == Err(AllocFailed) then 1 else 0
    ensures r.Ok? ==> PassedAll(lib, mgr.host, mgr.blocks, mgr.host.files, args, r.value)
    ensures r.Err? ==> FirstRefused(lib, mgr.host, mgr.blocks, mgr.host.files, args, r.error)
    ensures r.Ok? ==> SoFar(lib, old(mgr.blocks), old(mgr.allocs), mgr.blocks, mgr.allocs, args)
    ensures r.Err? && Dense(old(mgr.blocks), old(mgr.allocs)) ==> FirstAt(lib, old(mgr.allocs), args, r.error)
  {
    hide Accounted, Passed, PassedAll, Refused, FirstRefused, Keeps, KeepsBlocks, SoFar, Tallied, FirstAt, Dense;
    var out := new Arg[|args|];
    NothingPassed(lib, mgr.host, mgr.blocks, mgr.host.files);
    SoFarNone(lib, mgr.blocks, mgr.allocs);
    assert args[..0] == [] && out[..0] == [];
    for i := 0 to |args|
      invariant Accounted(mgr, before, open, mapped) && mgr.allocs <= old(mgr.allocs) + i
      invariant mgr.host.failures == old(mgr.host.failures)
      invariant PassedAll(lib, mgr.host, mgr.blocks, mgr.host.files, args[..i], out[..i])
      invariant SoFar(lib, old(mgr.blocks), old(mgr.allocs), mgr.blocks, mgr.allocs, args[..i])
    {
      ghost var done, blocks, files, n := out[..i], mgr.blocks, mgr.host.files, mgr.allocs;
      var resolved := ResolveArg(lib, mgr, args[i], before, open, mapped);
      if resolved.Err? {
        AllPassedStays(lib, mgr.host, blocks, files, mgr.blocks, mgr.host.files, args[..i], done);
        RefusedHere(lib, mgr.host, mgr.blocks, mgr.host.files, args, i, done, resolved.error);
        RefusedNext(lib, old(mgr.blocks), old(mgr.allocs), blocks, n, mgr.blocks, mgr.allocs, args, i, resolved.error);
        return Err(resolved.error);
      }
      out[i] := resolved.value;
      assert out[..i] == done && args[..i + 1] == args[..i] + [args[i]] && out[..i + 1] == done + [resolved.value];
      OneMorePassed(lib, mgr.host, blocks, files, mgr.blocks, mgr.host.files, args[..i], done, args[i], resolved.value);
      SoFarMore(lib, old(mgr.blocks), old(mgr.allocs), blocks, n, mgr.blocks, mgr.allocs, args[..i], args[i],
                resolved.value);
    }
    assert args[..|args|] == args && out[..|args|] == out[..];
    return Ok(out[..]);
  }

  // Some argument is refused for this reason, and all before it have passed.
  ghost predicate FirstRefused(lib: Lib, host: Host, blocks: map<nat, Block>, files: map<string, File>,
                               args: seq<Arg>, e: DispatchError)
  {
    exists i: nat, out ::
      i < |args| && PassedAll(lib, host, blocks, files, args[..i], out) && Refused(lib, blocks, args[i], e)
  }

  lemma RefusedHere(lib: Lib, host: Host, blocks: map<nat, Block>, files: map<string, File>, args: seq<Arg>, i: nat,
                    out: seq<Arg>, e: DispatchError)
    requires i < |args| && PassedAll(lib, host, blocks, files, args[..i], out) && Refused(lib, blocks, args[i], e)
    ensures FirstRefused(lib, host, blocks, files, args, e)
  {
    hide PassedAll, Refused;
  }

  ghost predicate PassedAll(lib: Lib, host: Host, blocks: map<nat, Block>, files: map<string, File>, args: seq<Arg>,
                            out: seq<Arg>)
  {
    |out| == |args| && forall i | 0 <= i < |args| :: Passed(lib, host, blocks, files, args[i], out[i])
  }

  lemma NothingPassed(lib: Lib, host: Host, blocks: map<nat, Block>, files: map<string, File>)
    ensures PassedAll(lib, host, blocks, files, [], [])
  {
  }

  lemma OneMorePassed(lib: Lib, host: Host, blocks: map<nat, Block>, files: map<string, File>,
                      blocks': map<nat, Block>, files': map<string, File>, args: seq<Arg>, out: seq<Arg>,
                      a: Arg, b: Arg)
    requires PassedAll(lib, host, blocks, files, args, out) && KeepsBlocks(blocks, blocks') && Keeps(files, files')
    requires Passed(lib, host, blocks', files', a, b)
    ensures PassedAll(lib, host, blocks', files', args + [a], out + [b])
  {
    hide Passed, Keeps, KeepsBlocks;
    forall i | 0 <= i < |args| ensures Passed(lib, host, blocks', files', args[i], out[i]) {
      PassedStays(lib, host, blocks, files, blocks', files', args[i], out[i]);
    }
  }

  lemma KeepsTransitive(a: map<nat, Block>, b: map<nat, Block>, c: map<nat, Block>,
                        f: map<string, File>, g: map<string, File>, h: map<string, File>)
    ensures KeepsBlocks(a, a) && Keeps(f, f)
    ensures KeepsBlocks(a, b) && KeepsBlocks(b, c) ==> KeepsBlocks(a, c)
    ensures Keeps(f, g) && Keeps(g, h) ==> Keeps(f, h)
  {
  }

  ghost predicate PassedMap(lib: Lib, host: Host, blocks: map<nat, Block>, files: map<string, File>,
                            args: map<string, Arg>, out: map<string, Arg>) {
    out.Keys == args.Keys && PassedIn(lib, host, blocks, files, args, out)
  }

  ghost predicate PassedIn(lib: Lib, host: Host, blocks: map<nat, Block>, files: map<string, File>,
                           args: map<string, Arg>, out: map<string, Arg>) {
    forall k <- out :: k in args && Passed(lib, host, blocks, files, args[k], out[k])
  }

  lemma OneMoreIn(lib: Lib, host: Host, blocks: map<nat, Block>, files: map<string, File>,
                  blocks': map<nat, Block>, files': map<string, File>,
                  args: map<string, Arg>, out: map<string, Arg>, k: string, b: Arg)
    requires PassedIn(lib, host, blocks, files, args, out) && KeepsBlocks(blocks, blocks') && Keeps(files, files')
    requires k in args && Passed(lib, host, blocks', files', args[k], b)
    ensures PassedIn(lib, host, blocks', files', args, out[k := b])
  {
    hide Passed, Keeps, KeepsBlocks;
    forall j | j in out ensures Passed(lib, host, blocks', files', args[j], out[j]) {
      PassedStays(lib, host, blocks, files, blocks', files', args[j], out[j]);
    }
  }

  function InlineKeys(kwargs: map<string, Arg>, keys: set<string>): set<string> {
    set k | k in keys && k in kwargs && Inline(kwargs[k])
  }

  // Some keyword argument is refused after some others, in the order of the walk.
  ghost predicate RefusedIn(lib: Lib, n: nat, kwargs: map<string, Arg>, e: DispatchError) {
    exists k, keys: set<string> | k in kwargs && keys <= kwargs.Keys - {k} ::
      RefusedAt(lib, n + |InlineKeys(kwargs, keys)|, kwargs[k], e)
  }

  ghost predicate SoFarIn(blocks0: map<nat, Block>, n0: nat, blocks: map<nat, Block>, n: nat,
                          kwargs: map<string, Arg>, keys: set<string>) {
    && n == n0 + |InlineKeys(kwargs, keys)|
    && (Dense(blocks0, n0) ==> Dense(blocks, n))
  }

  lemma SoFarInNone(blocks: map<nat, Block>, n: nat, kwargs: map<string, Arg>)
    ensures SoFarIn(blocks, n, blocks, n, kwargs, {})
  {
    assert InlineKeys(kwargs, {}) == {};
  }

  lemma SoFarInMore(lib: Lib, blocks0: map<nat, Block>, n0: nat, blocks: map<nat, Block>, n: nat,
                    blocks': map<nat, Block>, n': nat, kwargs: map<string, Arg>, keys: set<string>, k: string, out: Arg)
    requires SoFarIn(blocks0, n0, blocks, n, kwargs, keys) && k in kwargs && k !in keys
    requires Tallied(lib, blocks, n, blocks', n', kwargs[k], Ok(out))
    ensures SoFarIn(blocks0, n0, blocks', n', kwargs, keys + {k})
  {
    hide Dense;
    assert InlineKeys(kwargs, keys + {k}) == InlineKeys(kwargs, keys) + if Inline(kwargs[k]) then {k} else {};
  }

  lemma RefusedNextIn(lib: Lib, blocks0: map<nat, Block>, n0: nat, blocks: map<nat, Block>, n: nat,
                      blocks': map<nat, Block>, n': nat, kwargs: map<string, Arg>, keys: set<string>, k: string,
                      e: DispatchError)
    requires SoFarIn(blocks0, n0, blocks, n, kwargs, keys) && k in kwargs && keys <= kwargs.Keys - {k}
    requires Tallied(lib, blocks, n, blocks', n', kwargs[k], Err(e))
    ensures Dense(blocks0, n0) ==> RefusedIn(lib, n0, kwargs, e)
  {
    hide Dense, RefusedAt, InlineKeys;
  }

  lemma NothingIn(lib: Lib, host: Host, blocks: map<nat, Block>, files: map<string, File>, args: map<string, Arg>)
    ensures PassedIn(lib, host, blocks, files, args, map[])
  {
  }

  // The keyword arguments resolved so far, from blocks0 and files0 with n0 handles.
  ghost predicate Walked(lib: Lib, host: Host, blocks0: map<nat, Block>, files0: map<string, File>, n0: nat,
                         blocks: map<nat, Block>, files: map<string, File>, n: nat,
                         kwargs: map<string, Arg>, out: map<string, Arg>)
  {
    && Keeps(files0, files) && KeepsBlocks(blocks0, blocks)
    && PassedIn(lib, host, blocks, files, kwargs, out)
    && SoFarIn(blocks0, n0, blocks, n, kwargs, out.Keys)
  }

  lemma WalkedNone(lib: Lib, host: Host, blocks: map<nat, Block>, files: map<string, File>, n: nat,
                   kwargs: map<string, Arg>)
    ensures Walked(lib, host, blocks, files, n, blocks, files, n, kwargs, map[])
  {
    KeepsTransitive(blocks, blocks, blocks, files, files, files);
    NothingIn(lib, host, blocks, files, kwargs);
    SoFarInNone(blocks, n, kwargs);
    var none: map<string, Arg> := map[];
    assert none.Keys == {};
  }

  lemma WalkedMore(lib: Lib, host: Host, blocks0: map<nat, Block>, files0: map<string, File>, n0: nat,
                   blocks: map<nat, Block>, files: map<string, File>, n: nat,
                   blocks': map<nat, Block>, files': map<string, File>, n': nat,
                   kwargs: map<string, Arg>, out: map<string, Arg>, k: string, b: Arg)
    requires Walked(lib, host, blocks0, files0, n0, blocks, files, n, kwargs, out)
    requires KeepsBlocks(blocks, blocks') && Keeps(files, files')
    requires k in kwargs && k !in out && Passed(lib, host, blocks', files', kwargs[k], b)
    requires Tallied(lib, blocks, n, blocks', n', kwargs[k], Ok(b))
    ensures Walked(lib, host, blocks0, files0, n0, blocks', files', n', kwargs, out[k := b])
  {
    hide Passed, PassedIn, SoFarIn, Tallied, Keeps, KeepsBlocks;
    KeepsTransitive(blocks0, blocks, blocks', files0, files, files');
    OneMoreIn(lib, host, blocks, files, blocks', files', kwargs, out, k, b);
    SoFarInMore(lib, blocks0, n0, blocks, n, blocks', n', kwargs, out.Keys, k, b);
    assert out[k := b].Keys == out.Keys + {k};
  }

  lemma WalkEnds(lib: Lib, host: Host, blocks0: map<nat, Block>, files0: map<string, File>, n0: nat,
                 blocks: map<nat, Block>, files: map<string, File>, n: nat,
                 blocks': map<nat, Block>, files': map<string, File>, n': nat,
                 kwargs: map<string, Arg>, out: map<string, Arg>, k: string, e: DispatchError)
    requires Walked(lib, host, blocks0, files0, n0, blocks, files, n, kwargs, out)
    requires KeepsBlocks(blocks, blocks') && Keeps(files, files')
    requires k in kwargs && k !in out && Tallied(lib, blocks, n, blocks', n', kwargs[k], Err(e))
    ensures Keeps(files0, files') && KeepsBlocks(blocks0, blocks')
    ensures Dense(blocks0, n0) ==> RefusedIn(lib, n0, kwargs, e)
  {
    hide Passed, SoFarIn, Tallied, Keeps, KeepsBlocks, Dense, RefusedIn;
    KeepsTransitive(blocks0, blocks, blocks', files0, files, files');
    RefusedNextIn(lib, blocks0, n0, blocks, n, blocks', n', kwargs, out.Keys, k, e);
  }

  // The keyword arguments, in whatever order the host's map yields them.
  method ResolveKwargs(lib: Lib, mgr: ShmManager, kwargs: map<string, Arg>, ghost before: map<string, File>,
                       ghost open: nat, ghost mapped: nat)
    returns (r: Result<map<string, Arg>, DispatchError>)
    requires Accounted(mgr, before, open, mapped) && mgr.allocs + |kwargs| <= U32
    modifies mgr, mgr.host
    ensures Accounted(mgr, before, open, mapped)
    ensures Keeps(old(mgr.host.files), mgr.host.files) && KeepsBlocks(old(mgr.blocks), mgr.blocks)
    ensures mgr.host.failures == old(mgr.host.failures) + if r == Err(AllocFailed) then 1 else 0
    ensures r.Ok? ==> PassedMap(lib, mgr.host, mgr.blocks, mgr.host.files, kwargs, r.value)
    ensures r.Err? ==> exists k <- kwargs :: Refused(lib, mgr.blocks, kwargs[k], r.error)
    ensures r.Err? && Dense(old(mgr.blocks), old(mgr.allocs)) ==> RefusedIn(lib, old(mgr.allocs), kwargs, r.error)
  {
    hide Accounted, Passed, PassedIn, Refused, Keeps, KeepsBlocks, SoFarIn, Tallied, RefusedIn, Dense, Walked;
    var out: map<string, Arg> := map[];
    WalkedNone(lib, mgr.host, mgr.blocks, mgr.host.files, mgr.allocs, kwargs);
    var todo := kwargs.Keys;
    while todo != {}
      invariant Accounted(mgr, before, open, mapped) && mgr.allocs + |todo| <= U32
      invariant mgr.host.failures == old(mgr.host.failures)
      invariant todo <= kwargs.Keys && out.Keys == kwargs.Keys - todo
      invariant Walked(lib, mgr.host, old(mgr.blocks), old(mgr.host.files), old(mgr.allocs),
                       mgr.blocks, mgr.host.files, mgr.allocs, kwargs, out)
      decreases |todo|
    {
      var k :| k in todo;
      ghost var blocks, files, n := mgr.blocks, mgr.host.files, mgr.allocs;
      var resolved := ResolveArg(lib, mgr, kwargs[k], before, open, mapped);
      if resolved.Err? {
        WalkEnds(lib, mgr.host, old(mgr.blocks), old(mgr.host.files), old(mgr.allocs), blocks, files, n,
                 mgr.blocks, mgr.host.files, mgr.allocs, kwargs, out, k, resolved.error);
        return Err(resolved.error);
      }
      WalkedMore(lib, mgr.host, old(mgr.blocks), old(mgr.host.files), old(mgr.allocs), blocks, files, n,
                 mgr.blocks, mgr.host.files, mgr.allocs, kwargs, out, k, resolved.value);
      out := out[k := resolved.value];
      todo := todo - {k};
    }
    WalkedAll(lib, mgr.host, old(mgr.blocks), old(mgr.host.files), old(mgr.allocs),
              mgr.blocks, mgr.host.files, mgr.allocs, kwargs, out);
    return Ok(out);
  }

  lemma WalkedAll(lib: Lib, host: Host, blocks0: map<nat, Block>, files0: map<string, File>, n0: nat,
                  blocks: map<nat, Block>, files: map<string, File>, n: nat,
                  kwargs: map<string, Arg>, out: map<string, Arg>)
    requires Walked(lib, host, blocks0, files0, n0, blocks, files, n, kwargs, out) && out.Keys == kwargs.Keys
    ensures Keeps(files0, files) && KeepsBlocks(blocks0, blocks) && PassedMap(lib, host, blocks, files, kwargs, out)
  {
    hide PassedIn, SoFarIn, Keeps, KeepsBlocks;
  }

  // ---------------------------------------------------------------- results

  // The files once an array result has been read and unlinked.
  function Collected(files: map<string, File>, reply: Option<CallReply>): map<string, File> {
    match ResultPath(reply)
    case Some(p) => if Readable(files, p).Some? then Removed(files, p) else files
    case None => files
  }

  // The response to the shim: arrays inline, everything else as it came.
  function ResponseTo(lib: Lib, o: Outcome): BridgeResponse {
    match o.reply
    case None => Failure(NoReply)
    case Some(Raised(text)) => Failure(WorkerError(text))
    case Some(Returned(None)) => Success(None)
    case Some(Returned(Some(a))) =>
      if ArrayPath(a).None? then Success(Some(a))
      else match Readable(o.files, ArrayPath(a).value)
           case None => Failure(ReadFailed)
           case Some(data) => Success(Some(Arg(NDARRAY, JNull, 0, a.shape, a.dtype, lib.encode64(data))))
  }

  method EncodeArray(lib: Lib, host: Host, a: Arg) returns (r: Result<Arg, DispatchError>)
    requires a.kind == NDARRAY
    modifies host`files
    ensures ResponseTo(lib, Outcome(Some(Returned(Some(a))), old(host.files)))
            == match r case Ok(b) => Success(Some(b)) case Err(e) => Failure(e)
    ensures host.files == Collected(old(host.files), Some(Returned(Some(a))))
  {
    var path := if a.value.JStr? then a.value.s else "";
    if path == "" {
      return Ok(a);
    }
    var data := host.ReadFile(path);
    if data.None? {
      return Err(ReadFailed);
    }
    host.Remove(path);
    return Ok(Arg(NDARRAY, JNull, 0, a.shape, a.dtype, lib.encode64(data.value)));
  }

  // ---------------------------------------------------------------- dispatch

  // What the worker was called with: resolved arguments, and the blocks and
  // files at that moment.
  datatype CallSite = CallSite(
    args: seq<Arg>, kwargs: map<string, Arg>, blocks: map<nat, Block>, files: map<string, File>)

  ghost predicate CalledFor(lib: Lib, host: Host, req: BridgeRequest, before: map<string, File>, site: CallSite) {
    && Holds(host, before, site.files, site.blocks)
    && PassedAll(lib, host, site.blocks, site.files, req.args, site.args)
    && PassedMap(lib, host, site.blocks, site.files, req.kwargs, site.kwargs)
  }

  // Why a call is refused for its arguments: the first positional one that cannot
  // pass, or, all of those passing, a keyword argument.
  ghost predicate SomeArgRefused(lib: Lib, req: BridgeRequest, e: DispatchError) {
    || FirstAt(lib, 0, req.args, e)
    || (AllPass(lib, 0, req.args) && RefusedIn(lib, Inlines(req.args), req.kwargs, e))
  }

  lemma WhichArg(lib: Lib, req: BridgeRequest, e: DispatchError)
    ensures FirstAt(lib, 0, req.args, e) ==> SomeArgRefused(lib, req, e)
    ensures AllPass(lib, 0, req.args) && RefusedIn(lib, Inlines(req.args), req.kwargs, e) ==>
              SomeArgRefused(lib, req, e)
  {
    hide FirstAt, AllPass, RefusedIn;
  }

  lemma IsCallSite(lib: Lib, host: Host, req: BridgeRequest, before: map<string, File>, site: CallSite)
    requires Holds(host, before, site.files, site.blocks)
    requires PassedAll(lib, host, site.blocks, site.files, req.args, site.args)
    requires PassedMap(lib, host, site.blocks, site.files, req.kwargs, site.kwargs)
    ensures CalledFor(lib, host, req, before, site)
  {
    hide Holds, PassedAll, PassedMap;
  }

  lemma AfterCall(lib: Lib, host: Host, site: CallSite, o: Outcome)
    ensures FilesAfter(host, site, o) == Collected(o.files, o.reply) - PathsOf(host, site.blocks)
    ensures ResponseTo(lib, o) != Failure(AllocFailed)
  {
    hide PathsOf;
  }

  function FilesAfter(host: Host, site: CallSite, o: Outcome): map<string, File> {
    Collected(o.files, o.reply) - PathsOf(host, site.blocks)
  }

  predicate IsProbe(fn: string) { |fn| >= |PROBE| && fn[|fn| - |PROBE|..] == PROBE }

  function Target(fn: string): string
    requires IsProbe(fn)
  {
    fn[..|fn| - |PROBE|]
  }

  // Probing t is asking for the name with the suffix, and nothing else is a probe.
  lemma ProbeNames(t: string)
    ensures IsProbe(t + ".__probe__") && Target(t + ".__probe__") == t
    ensures IsProbe(t) ==> t == Target(t) + ".__probe__"
  {
    assert (t + PROBE)[|t|..] == PROBE && (t + PROBE)[..|t|] == t;
  }

  function ProbeValue(info: ProbeInfo): BridgeResponse {
    var fields := map["is_module" := JBool(info.isModule), "is_callable" := JBool(info.isCallable)];
    Success(Some(Arg("scalar", JObj(fields), 0, [], "", "")))
  }

  // What dispatch may make of a request, the targets in `cached` being in the probe
  // cache: the response, and the call to the worker behind it, if any.
  ghost predicate Served(lib: Lib, wk: Worker, answers: string -> ProbeInfo, cfg: F.Config, req: BridgeRequest,
                         cached: set<string>, resp: BridgeResponse, site: Option<CallSite>)
  {
    if IsProbe(req.fn) then
      var t := Target(req.fn);
      && site.None?
      && resp == if t in cached || wk.probe(t).Some? then ProbeValue(answers(t)) else Failure(NoReply)
    else if !F.Documented(cfg, req.fn) then site.None? && resp == Failure(NotAllowed)
    else match site
         case None => resp.Failure? && SomeArgRefused(lib, req, resp.error)
         case Some(c) =>
           AllPass(lib, 0, req.args) && resp == ResponseTo(lib, wk.call(req.fn, c.args, c.kwargs, c.files))
  }

  class Dispatcher {
    const lib: Lib
    const host: Host
    ghost const answers: string -> ProbeInfo   // what any worker says of a target, if it answers
    var probeCache: map<string, ProbeInfo>

    constructor (lib: Lib, host: Host, ghost answers: string -> ProbeInfo)
      ensures this.lib == lib && this.host == host && this.answers == answers
      ensures probeCache == map[] && CacheRight()
    {
      this.lib, this.host, this.answers, probeCache := lib, host, answers, map[];
    }

    ghost predicate CacheRight()
      reads this
    {
      forall t <- probeCache :: probeCache[t] == answers(t)
    }

    // A probe gets the one right answer, from the cache or from the worker, which
    // is then remembered; only a worker that does not answer makes it fail, and
    // then nothing is stored.
    ghost predicate ProbeDone(wk: Worker, t: string, before: set<string>, after: set<string>, resp: BridgeResponse) {
      if t in before || wk.probe(t).Some?
      then resp == ProbeValue(answers(t)) && after == before + {t}
      else resp == Failure(NoReply) && after == before
    }

    // Whatever way a request ends, no block, descriptor or mapping is left; the
    // files are as before, unless the worker was called and left files other
    // than one collected array result; and only a probe answered is remembered.
    method Dispatch(wk: Worker, filter: F.Rules, req: BridgeRequest, ghost cfg: F.Config)
      returns (resp: BridgeResponse, ghost site: Option<CallSite>)
      requires wk.Behaves() && wk.ProbesAs(answers) && F.Compiled(cfg, filter) && CacheRight()
      requires |req.args| + |req.kwargs| <= U32
      modifies this, host
      ensures CacheRight()
      ensures host.open == old(host.open) && host.mapped == old(host.mapped)
      ensures host.failures == old(host.failures) + if resp == Failure(AllocFailed) then 1 else 0
      ensures site.None? ==> host.files == old(host.files)
      ensures Served(lib, wk, answers, cfg, req, old(probeCache).Keys, resp, site)
      ensures IsProbe(req.fn) ==> ProbeDone(wk, Target(req.fn), old(probeCache).Keys, probeCache.Keys, resp)
      ensures !IsProbe(req.fn) ==> probeCache == old(probeCache)
      ensures site.Some? ==>
                && CalledFor(lib, host, req, old(host.files), site.value)
                && var o := wk.call(req.fn, site.value.args, site.value.kwargs, site.value.files);
                && host.files == FilesAfter(host, site.value, o)
    {
      hide AllPass, F.Compiled, F.Documented, Worker.Behaves, CalledFor, FilesAfter, ResponseTo, SomeArgRefused,
           PathsOf, Backed;
      var mgr := new ShmManager(host);
      NoBlocks(host, host.files);
      site := None;
      if IsProbe(req.fn) {
        resp := Probe(wk, Target(req.fn));
        mgr.FreeAll();
        return;
      }
      var allowed := F.Allow(filter, req.fn, cfg);
      if !allowed {
        mgr.FreeAll();
        return Failure(NotAllowed), None;
      }
      resp, site := Forward(wk, mgr, req);
    }

    method Probe(wk: Worker, target: string) returns (resp: BridgeResponse)
      requires wk.ProbesAs(answers) && CacheRight()
      modifies this`probeCache
      ensures CacheRight()
      ensures ProbeDone(wk, target, old(probeCache).Keys, probeCache.Keys, resp)
    {
      if target in probeCache {
        return ProbeValue(probeCache[target]);
      }
      var answer := wk.probe(target);
      if answer.None? {
        return Failure(NoReply);
      }
      probeCache := probeCache[target := answer.value];
      return ProbeValue(answer.value);
    }

    // The blocks made for a call that is refused go.
    method Abandon(mgr: ShmManager, ghost before: map<string, File>, ghost open: nat, ghost mapped: nat)
      requires mgr.host == host && Accounted(mgr, before, open, mapped)
      modifies mgr, host
      ensures host.files == before && host.open == open && host.mapped == mapped
      ensures host.failures == old(host.failures)
    {
      Cleared(host, before, host.files, mgr.blocks);
      hide Holds, PathsOf, Backed, Shm.Numbered;
      mgr.FreeAll();
    }

    // An allowed call: arguments, worker, result; the blocks go whatever happens.
    method Forward(wk: Worker, mgr: ShmManager, req: BridgeRequest)
      returns (resp: BridgeResponse, ghost site: Option<CallSite>)
      requires wk.Behaves() && mgr.host == host && mgr.Valid() && mgr.blocks == map[] && mgr.allocs == 0
      requires |req.args| + |req.kwargs| <= U32
      modifies mgr, host
      ensures host.open == old(host.open) && host.mapped == old(host.mapped)
      ensures host.failures == old(host.failures) + if resp == Failure(AllocFailed) then 1 else 0
      ensures site.None? ==> host.files == old(host.files) && resp.Failure? && SomeArgRefused(lib, req, resp.error)
      ensures site.Some? ==>
                && AllPass(lib, 0, req.args)
                && CalledFor(lib, host, req, old(host.files), site.value)
                && var o := wk.call(req.fn, site.value.args, site.value.kwargs, site.value.files);
                && resp == ResponseTo(lib, o)
                && host.files == FilesAfter(host, site.value, o)
    {
      hide Holds, Passed, Refused, PathsOf, Backed, Worker.Behaves, Keeps, KeepsBlocks, FirstAt, AllPass, RefusedIn,
           FirstRefused, SomeArgRefused, CalledFor, PassedAll, PassedMap, FilesAfter, Collected, ResponseTo,
           Shm.Numbered;
      ghost var before, open, mapped := host.files, host.open, host.mapped;
      NoBlocks(host, before);
      site := None;
      var args := ResolveArgs(lib, mgr, req.args, before, open, mapped);
      if args.Err? {
        WhichArg(lib, req, args.error);
        Abandon(mgr, before, open, mapped);
        return Failure(args.error), None;
      }
      ghost var blocks, files := mgr.blocks, mgr.host.files;
      var kwargs := ResolveKwargs(lib, mgr, req.kwargs, before, open, mapped);
      if kwargs.Err? {
        WhichArg(lib, req, kwargs.error);
        Abandon(mgr, before, open, mapped);
        return Failure(kwargs.error), None;
      }
      AllPassedStays(lib, host, blocks, files, mgr.blocks, host.files, req.args, args.value);
      site := Some(CallSite(args.value, kwargs.value, mgr.blocks, host.files));
      IsCallSite(lib, host, req, before, site.value);
      AfterCall(lib, host, site.value, wk.call(req.fn, args.value, kwargs.value, host.files));
      resp := CallWorker(wk, mgr, req.fn, args.value, kwargs.value, before, open, mapped);
    }

    method CallWorker(wk: Worker, mgr: ShmManager, fn: string, args: seq<Arg>, kwargs: map<string, Arg>,
                      ghost before: map<string, File>, ghost open: nat, ghost mapped: nat)
      returns (resp: BridgeResponse)
      requires wk.Behaves() && mgr.host == host && Accounted(mgr, before, open, mapped)
      modifies mgr, host
      ensures host.open == open && host.mapped == mapped && host.failures == old(host.failures)
      ensures var o := wk.call(fn, args, kwargs, old(host.files));
              && resp == ResponseTo(lib, o)
              && host.files == Collected(o.files, o.reply) - PathsOf(host, old(mgr.blocks))
    {
      hide Backed, Holds, PathsOf, Keeps, Removed, Readable;
      var o := wk.call(fn, args, kwargs, host.files);
      host.files := o.files;
      resp := ResponseTo(lib, o);
      if o.reply.Some? && o.reply.value.Returned? && o.reply.value.value.Some?
          && o.reply.value.value.value.kind == NDARRAY {
        var encoded := EncodeArray(lib, host, o.reply.value.value.value);
        resp := match encoded case Ok(b) => Success(Some(b)) case Err(e) => Failure(e);
      }
      BlocksRemain(host, old(host.files), o, mgr.blocks);
      mgr.FreeAll();
    }
  }

  lemma AllPassedStays(lib: Lib, host: Host, blocks: map<nat, Block>, files: map<string, File>,
                       blocks': map<nat, Block>, files': map<string, File>, args: seq<Arg>, out: seq<Arg>)
    requires PassedAll(lib, host, blocks, files, args, out) && KeepsBlocks(blocks, blocks') && Keeps(files, files')
    ensures PassedAll(lib, host, blocks', files', args, out)
  {
    hide Passed, Keeps, KeepsBlocks;
    forall i | 0 <= i < |args| ensures Passed(lib, host, blocks', files', args[i], out[i]) {
      PassedStays(lib, host, blocks, files, blocks', files', args[i], out[i]);
    }
  }

  lemma NoBlocks(host: Host, files: map<string, File>)
    ensures PathsOf(host, map[]) == {} && files - PathsOf(host, map[]) == files
    ensures Holds(host, files, files, map[])
  {
  }

  lemma Cleared(host: Host, before: map<string, File>, files: map<string, File>, blocks: map<nat, Block>)
    requires Holds(host, before, files, blocks)
    ensures files - PathsOf(host, blocks) == before
  {
  }

  // Neither the worker nor the collection of its result touches the blocks.
  lemma BlocksRemain(host: Host, files: map<string, File>, o: Outcome, blocks: map<nat, Block>)
    requires Backed(host, files, blocks) && Keeps(files, o.files)
    requires ResultPath(o.reply).Some? ==> ResultPath(o.reply).value !in files
    ensures Backed(host, Collected(o.files, o.reply), blocks)
  {
  }

  // ---------------------------------------------------------------- conservation

  // The files the worker added.
  function Made(site: CallSite, o: Outcome): set<string> { o.files.Keys - site.files.Keys }

  // Exactly when a call leaves the shm directory as it was: the worker added
  // nothing, or only the one file of a top-level array result that reached the
  // host, could be read and could be removed.
  lemma Conserved(lib: Lib, host: Host, req: BridgeRequest, before: map<string, File>, site: CallSite, o: Outcome)
    requires CalledFor(lib, host, req, before, site)
    requires Keeps(site.files, o.files)
    requires ResultPath(o.reply).Some? ==> ResultPath(o.reply).value in Made(site, o)
    ensures FilesAfter(host, site, o) == before <==>
            || Made(site, o) == {}
            || (&& ResultPath(o.reply).Some?
                && var p := ResultPath(o.reply).value;
                && Made(site, o) == {p} && o.files[p].readable && o.files[p].removable)
  {
    var own, after := PathsOf(host, site.blocks), FilesAfter(host, site, o);
    var gone := if ResultPath(o.reply).Some? && Readable(o.files, ResultPath(o.reply).value).Some?
                   && o.files[ResultPath(o.reply).value].removable
                then {ResultPath(o.reply).value} else {};
    assert after.Keys == before.Keys + (Made(site, o) - gone);
    assert before.Keys !! Made(site, o);
    assert Keeps(before, after);
    if after == before {
      assert Made(site, o) - gone == {};
      assert Made(site, o) == gone;
    }
  }
}
