# Chrysalis, modelled and proved in Dafny

Chrysalis executes untrusted Python in a WebAssembly sandbox and forwards its
numpy, scipy and pandas calls to a pool of ordinary Python workers. Each `/run`
request is a small concurrent system: a shim inside the sandbox, a bridge
goroutine on the host, two unbuffered pipes between them, one worker leased from
a shared pool, and a Unix socket to that worker on which replies are never
matched by ID. This project models that system and proves that it nevertheless
gives every call its own answer, that it never deadlocks, and that it loses
neither workers nor shared-memory files, with the exact conditions under which
that is so.

## The parts

**The concurrent system** is modelled as step relations. Every pipe rendezvous,
partial socket read or write, atomic flag access, channel send, receive and
close is a step of its own, and an event sequence is a run.

- `Bridge.dfy`, `BridgeRuns.dfy`: one Run. Shim, goroutine and pipes at byte
  level, the module's exit at any step, the closing of the pipes.
- `Socket.dfy`, `SocketRuns.dfy`, `SocketStale.dfy`: one worker connection, both
  directions as byte buffers of any size, crashes included; what a reply that is
  too long does to the requests after it. `ResultReplies.dfy`: which results of
  Python come back over it.
- `Pool.dfy`, `PoolLogs.dfy`, `PoolRuns.dfy`, `PoolOrder.dfy`, `PoolStart.dfy`:
  the worker pool with any number of Runs and `Close` at any time; the order in
  which workers are handed out; starting the pool.
- `System.dfy` composes all three with the dispatch of requests and the shared
  probe cache. `SystemInv.dfy`, `SystemSteps.dfy`, `SystemPool.dfy` and
  `SystemMoves.dfy` prove its inductive invariant; `SystemRuns.dfy` states what
  holds in every run, `SystemGrants.dfy` which workers
  `Acquire` hands out and when one counts as gone;
  `SystemParts.dfy` shows that every run of the system is a
  run of each part; `SystemProgress.dfy` and `SystemLiveness.dfy` show that no
  waiting call is stuck, that every call returns, and that every Run whose
  module has exited gives its worker back; `SystemLengths.dfy` that no response
  outgrows its header when the texts are short. `SystemExchange.dfy` builds whole
  exchanges with a worker, and `Refinement.dfy` shows with them that whatever the
  dispatch of one request can come to, the system can. `SystemWitness.dfy`
  exhibits an environment that meets all hypotheses and, in every such
  environment, a run in which a Run acquires a worker and has a call answered.

**The sequential code** is modelled in its own form.

- `Framing.dfy`, `Readers.dfy`: the 4-byte length prefix and the four read
  loops over a stream cut into arbitrary chunks.
- `RowMajor.dfy`, `TensorView.dfy`, `TensorLists.dfy`, `TensorSlices.dfy`: the
  shim's view of an array's bytes, for any rank and shape.
- `Glob.dfy`, `Filter.dfy`: the wildcard matcher and the filter profiles.
- `Shm.dfy`, `Dispatch.dfy`: shared-memory blocks over a file system whose calls
  may fail at any point, and the dispatch of one request. `Sharing.dfy` lets any
  number of dispatches interleave, system call by system call, in one directory.
- `Numbers.dfy`, `Wire.dfy`, `Values.dfy`, `Trips.dfy`, `TopLevel.dfy`,
  `ResultFiles.dfy`, `RemoteCall.dfy`: Python values, their wire form, and what survives the trip
  shim, host, worker and back. `WireWitness.dfy` exhibits library functions with
  the properties assumed of them.
- `Messages.dfy`, `Wrappers.dfy`: the protocol's messages; Option and Result.

## Hypotheses

They are few. For the first four the model also shows what happens without them.

- Frames from the shim have 1 byte to 8 MiB. `BridgeRuns.OutOfRangeSticks` shows
  that any other length leaves the shim blocked for ever: the goroutine returns
  without closing the read end of stdout.
- Responses to the shim have less than 4 GiB: pairing on the way back, progress
  and freedom from deadlock need it (`Bridge.Short`), since `sendBridgeResponse`
  cuts the length to 32 bits. `BridgeRuns.LongAnswerSticks` shows that any longer
  one, whenever it is sent, can leave the shim with a prefix of it and then blocked
  for ever. `SystemLengths.NeverTooLong` derives the bound from that of the texts.
- Worker replies have at most 16 MiB. `SocketRuns.CleanIffFits` shows that the
  bound is exact: a longer reply stays in the socket; `SocketStale.AfterOversized`
  shows that no request to that worker returns anything from then on. `Acquire`
  notices, because its ping fails too, and replaces the worker.
- Nobody is between a check of the pool's closed flag and the channel operation
  it guards when the channel is closed. `PoolRuns.PanicIffBetween` shows that
  this is exactly when `Close` cannot lead to a panic.
- User code reaches the pipe only through the shim: what is written to stdout is
  whole frames, one call at a time. The drain after the module's exit needs no such
  hypothesis; of any other byte stream `Readers.BridgeRecv` says which frames the
  host makes of it.
- Probing is a fixed function of the target, as the comment at
  internal/bridge/dispatcher.go:53-58 assumes.
- A worker only adds files to the shm directory, and returns an array in a file
  it made; if it answers a probe, with the fixed answer. A dispatch has at most
  2^32 arguments (its frame is at most 8 MiB); `Shm.HandleReused` shows that
  handles repeat from there on.
- JSON, base64 and number formatting are library code and enter as functions
  with the properties their documentation gives: base64 decoding undoes encoding;
  a float64 is written with the fewest digits that identify it; parsing undoes
  writing for messages, except that a call's result may be a text the host cannot
  parse (NaN and the infinities are). `ResultReplies.CallReturnsResult` says exactly
  which results come back.
- For progress only: a worker can answer each request with a reply that fits, and
  the texts of responses, and of the requests that frames in range lead to, fit
  the 4-byte headers (`SystemProgress.ShortTexts`).

## Where code and documentation differ

- The comment on `matchWildcard` (internal/filter/filter.go:69-71) first says
  `*` stops at a dot, then that it does not. It does not. Also, of several stars
  only the last counts: the matcher decides the glob with the earlier stars
  deleted (`Glob.MatchIsLastStarGlob`), so `a*b*` does not match `axb`. It is
  complete exactly for patterns whose stars are adjacent.
- `Acquire` loops up to three times (internal/worker/pool.go:107-131), but every
  iteration returns; an unhealthy worker's replacement is not pinged.
- `_deser_tensor` says the host keeps a shm handle of a returned array
  (shim/bootstrap.py:157-159), and `resolveArg` describes passing one back
  (internal/bridge/dispatcher.go:324-325). The manager lives for one dispatch
  only, so no such handle exists.
- An empty array argument is sent as an empty base64 string, which `resolveArg`
  takes for the absence of inline bytes: it looks up handle 0 and fails, or
  finds the first array of the same call, whose bytes cannot be reshaped.
- Arrays inside lists or dicts never reach the worker. In results they reach the
  shim without their bytes, and the worker's file stays behind
  (`RemoteCall.ResultCollected`).
- `_ser_one` means to send a module proxy by name (shim/bootstrap.py:106-107), but
  the attribute tests before it (line 97) go through the proxy's own attribute
  lookup, which never ends in an AttributeError: the proxy is taken for an array
  and the call raises. So no module proxy can be an argument.
- Dict keys other than text come back as text, and of keys with the same text the
  last wins (`Trips.KeyedTrip`); keys JSON cannot write make the call raise.
- Integers and floats beyond 2^53 may change even when float64 represents them:
  2^60 comes back as 1152921504606847000 (`Trips.SomeNumbersLost`).
- A call that returns NaN or an infinity fails with the host's error for a missing
  reply, though the worker has answered and lives on: json.dumps writes what
  json.Unmarshal refuses (`ResultReplies.NonFiniteIsRefused`).
- `shmDir` wants /dev/shm to be a directory, `shmFilePath` only that it exists:
  the worker is sent to the right file unless something else sits there
  (`Shm.PathsAgree`).

## Definitions

The functions the results are about, with the code each follows branch by
branch. The table after this list gives what is proved of them.

- `Framing.Want`: how many bytes a reader still asks for
  (internal/bridge/dispatcher.go:127-143).
- `Bridge.Next`: the steps of one Run: shim writes and reads, goroutine loop with
  its early returns, module exit at any point, pipe closing, join
  (internal/bridge/dispatcher.go:122-199).
- `Socket.Next`: the steps of one connection: Ping, Call, Probe and Shutdown under
  the mutex, the worker's loop, partial reads and writes into buffers of limited
  size, crashes (internal/worker/worker.go:75-183).
- `Pool.Next`: Acquire, release, Close and spawn, each flag access and channel
  operation its own step (internal/worker/pool.go:102-170).
- `System.Next`: any number of Runs, the pool, the sockets, dispatch with probe
  cache, filter and error paths (internal/bridge/dispatcher.go:81-303).
- `Sharing.Next`: allocation, its clean-ups, worker files, collection and freeing,
  each system call its own step (internal/bridge/shm_unix.go:21-56).
- `TensorView.GetFirst`: first-axis selection with its errors and negative indices
  (shim/bootstrap.py:244-261).
- `Glob.MatchWildcard`: the matcher, recursion and suffix test as written
  (internal/filter/filter.go:72-88).
- `Wire.FromJson`, `Wire.ToJson`: the typed record, zero values for absent fields,
  errors for wrong types and out-of-range numbers, omitempty
  (internal/worker/protocol.go:16-29).
- `Values.Ser`, `Values.Deser`: `_ser_one` and `_deser_one` of both sides
  (shim/bootstrap.py:88-151), with `Values.ShimLeaves` (shim/bootstrap.py:104-135),
  `Values.ShimRecords` (shim/bootstrap.py:154-166), `Values.WorkerLeaves`
  (shim/worker.py:175-201) and `Values.WorkerRecords` (shim/worker.py:214-240) for
  arrays, names and callables.

## Model

| member | source | states |
|---|---|---|
| Framing.UnpackPack | internal/worker/worker.go:149-150 | big-endian lengths below 2^32 decode to what was encoded |
| Framing.PackUnpack | shim/bootstrap.py:62 | and every four bytes are the encoding of what they decode to |
| Framing.WantWithinFrame | internal/bridge/dispatcher.go:127-143 | while inside a frame a reader asks for some of its remaining bytes and never for more; it stops exactly at the end |
| Framing.FramePrefixUnique | shim/bootstrap.py:41-46 | two streams that agree start with the same message: frames are self-delimiting |
| Framing.FramesInjective | shim/worker.py:121-123 | different message sequences have different byte streams |
| Readers.Stream.Recv | shim/worker.py:105 | one read: a non-empty prefix of what is ahead, of at most the size asked for, empty only at end of file |
| Readers.ReadFull | internal/worker/worker.go:165-176 | returns exactly the first n bytes ahead or all there are, however they are cut |
| Readers.HostRecv | internal/worker/worker.go:163-183 | the host's reader computes the chunk-free meaning: message, refusal above 16 MiB with the body unread, or end of file |
| Readers.WorkerRecv | shim/worker.py:102-118 | the worker's two accumulating loops compute the same meaning |
| Readers.BridgeRecv | internal/bridge/dispatcher.go:125-146 | the goroutine's reads do, refusing empty frames and those above 8 MiB |
| Readers.ShimRecv | shim/bootstrap.py:53-75 | the shim's reader does, with no bound |
| Readers.ReadChunks | shim/bootstrap.py:65-75 | its chunk-collecting loop returns exactly the bytes asked for or all there are |
| Readers.ParseFrame | internal/worker/worker.go:163-183 | the meaning of a frame within the limits is its message, and the next frame's bytes are untouched |
| Readers.ParseOversized | internal/worker/worker.go:169-172 | a frame outside the limits is refused with its whole body left in the stream |
| Readers.ReadAll | shim/worker.py:328-333 | for every message sequence and every cutting into chunks the loop recovers exactly that sequence and leaves no byte |
| Bridge.InvNext | internal/bridge/dispatcher.go:125-172 | every step keeps the two-party conversation: the goroutine gets the frames the shim wrote, one by one, whatever the lengths of the answers; while those fit their headers there is at most one open frame, and all bytes in flight belong to it |
| BridgeRuns.Pairing | shim/bootstrap.py:78-81 | in every run, exits included, the k-th answer is to the k-th frame the shim wrote, and while all answers are below 4 GiB the k-th frame it read is that answer |
| BridgeRuns.CallProgress | internal/bridge/dispatcher.go:125-172 | with frames in range and answers below 4 GiB, shim and goroutine are never both blocked |
| BridgeRuns.CallStep | internal/bridge/dispatcher.go:125-172 | every step of anyone but the exit brings an open call strictly closer to its end, or ends it, or begins an answer of 4 GiB or more |
| BridgeRuns.CallReturns | shim/bootstrap.py:78-81 | in every infinite behaviour in which somebody moves again and again while a call is open, an open call returns, with the answer to its own frame, unless the module exits first or an answer of 4 GiB or more is begun |
| BridgeRuns.NeverStuck | internal/bridge/dispatcher.go:121-173 | while all frames are in range and all answers below 4 GiB no reachable state waits only for the module's exit |
| BridgeRuns.LongAnswerSticks | internal/bridge/dispatcher.go:396-402 | the bound on answers is exact: any longer one, at any point where an answer is due, can make the shim read the prefix its cut length announces and then block until the module exits |
| BridgeRuns.OutOfRangeSticks | internal/bridge/dispatcher.go:135-141 | a frame of any other length can leave the shim blocked until the module exits |
| BridgeRuns.OutOfRangeEndsGoroutine | internal/bridge/dispatcher.go:135-141 | such a frame ends the goroutine, whatever the frame |
| BridgeRuns.ExitsAnywhere | internal/bridge/dispatcher.go:175-199 | the module may end at any moment, the goroutine being anywhere in its loop |
| BridgeRuns.BodyFollowsHeader | internal/bridge/dispatcher.go:396-402 | a response is given both its writes, failing or not |
| BridgeRuns.DrainStep | internal/bridge/dispatcher.go:197-199 | after the module's exit, whatever bytes it wrote, every step lowers a bounded measure |
| BridgeRuns.DrainProgress | internal/bridge/dispatcher.go:187-199 | and until the join some step is possible, wherever the goroutine was, mid-write included |
| BridgeRuns.Drains | internal/bridge/dispatcher.go:187-199 | so after at most ten steps bridgeDone is closed and main has joined |
| Socket.InvNext | internal/worker/worker.go:75-183 | lockstep: while replies fit, with the mutex free both directions are empty, and with it held only the open exchange's bytes are in them; a request returns what the host makes of its own answer, or nothing once the worker is gone |
| SocketRuns.OwnAnswers | internal/worker/worker.go:93-113 | in every run with replies of at most 16 MiB, crashes included, what the i-th request returns is the worker's answer to the i-th request, IDs agreeing, though they are not compared; while the worker lives it returns that answer if and only if the host can parse it, and nothing otherwise; with the mutex free and the worker alive the socket is empty |
| SocketRuns.RequestIds | internal/worker/worker.go:93-131 | a probe or call has the number of such requests so far, modulo 2^64, whatever pings come between: within 2^64 of them no two have the same |
| SocketRuns.ShutdownEnds | shim/worker.py:328-345 | a shutdown is the last request a worker executes; it exits once the reply is sent |
| SocketRuns.EveryRequestAnswered | internal/worker/worker.go:93-113 | with no crash, and requests and replies of at most 16 MiB, every request returns its answer if the host can parse it, and nothing otherwise |
| SocketRuns.RequestCompletes | internal/worker/worker.go:93-113 | an open request that a living worker can answer runs to its return, whatever the socket's buffers hold |
| SocketRuns.CleanIffFits | internal/worker/worker.go:169-172 | a returned request leaves the socket clean if and only if its reply had at most 16 MiB; one that had is returned if and only if the host can parse it |
| SocketStale.AfterOversized | internal/worker/worker.go:163-183 | after the first longer reply none of the next 4,194,304 requests to that worker, pings included, returns anything, in any run, crashes or not: each refuses four more bytes of the stale body as a length |
| ResultReplies.ComesBack | internal/worker/worker.go:93-113 | any request and any fitting reply to it have a run in which the reply comes back if the host can parse it and nothing does otherwise, the worker alive and the socket clean in both cases |
| ResultReplies.CallReturnsResult | internal/worker/worker.go:179-181 | a call's result comes back if and only if the host's JSON decoder takes what the worker writes for that Python value into its typed record; otherwise the call returns nothing though the worker lives |
| ResultReplies.NonFiniteIsRefused | shim/worker.py:121-123 | NaN and the infinities are values the worker writes and the host refuses |
| SocketRuns.RequestProgress | internal/worker/worker.go:93-113 | an open request can always move, for every capacity of the socket's buffers: host and worker never wait for each other |
| SocketRuns.RequestStep | internal/worker/worker.go:93-113 | every step, a crash included, lowers a measure or ends the request: nobody keeps the mutex for ever |
| Pool.OwnedNext | internal/worker/pool.go:102-163 | every step keeps each live worker in exactly one place and the slots counted |
| Pool.NeverFull | internal/worker/pool.go:141-148 | a release about to send finds room: the slot-leak branch is unreachable |
| PoolLogs.InvNext | internal/worker/pool.go:102-163 | every step keeps each worker's request log in segments, one Run each, shutdown last |
| PoolRuns.Conservation | internal/worker/pool.go:99-149 | before Close, queued plus in hand plus lost to failed replacements is the pool's size; queued and held workers are distinct and alive |
| PoolRuns.OneRunAtATime | internal/worker/pool.go:3-6 | each worker's requests form segments of a single Run, an optional ping first, a shutdown last, and carry each Run's calls complete and in order |
| PoolRuns.CloseComplete | internal/worker/pool.go:151-163 | if nobody straddles the close, nobody panics, and once all holders have released every worker ever spawned has been shut down exactly once, as its last request |
| PoolRuns.PanicIffBetween | internal/worker/pool.go:103-111 | at the moment the channel is closed some continuation panics if and only if somebody is between check and act |
| PoolOrder.FirstInFirstOut | internal/worker/pool.go:109-149 | in every run the workers that were in the channel and those sent to it are the workers received, in that order, followed by those still in it |
| PoolOrder.AcquireReturns | internal/worker/pool.go:102-132 | an undisturbed Acquire on an open pool hands out the first worker of the channel if it answers its ping; otherwise that worker is shut down and a new one handed out |
| PoolOrder.AcquireCancelled | internal/worker/pool.go:111-115 | an Acquire whose context ends while it waits leaves with nothing changed |
| PoolOrder.ReleaseReturns | internal/worker/pool.go:136-149 | an undisturbed release puts the worker at the end of the channel or, on a closed pool, shuts it down |
| PoolStart.Machine.Spawn | internal/worker/pool.go:165-170 | a new worker on a socket number of its own, or none left running |
| PoolStart.StartAll | internal/worker/pool.go:63-69 | starts size workers side by side; what runs afterwards is what ran before and the ones that report success |
| PoolStart.Arrivals | internal/worker/pool.go:73-74 | the reports may come in any order; no worker is lost or doubled |
| PoolStart.NewPool | internal/worker/pool.go:42-97 | hands out a full pool of distinct running workers, or an error with none of those it started left running; sizes below 1 start nothing |
| SystemMoves.InvNext | internal/bridge/dispatcher.go:81-303 | every step keeps the global invariant that ties Runs, leases, request logs, sockets and cache together |
| SystemRuns.EndToEnd | internal/bridge/dispatcher.go:125-303 | in every reachable state, while the Run's responses are below 4 GiB, the k-th frame a shim read answers its k-th frame across both hops: sentinel acknowledged, probe given the one right answer, forbidden call refused, allowed call refused for its arguments or answered from the leased worker's own answer to that very call; a missing reply is reported only when that very request came back empty-handed and the worker's process has exited or, for a call, its result was one the host cannot parse |
| SystemRuns.InOrder | internal/bridge/dispatcher.go:148-172 | a Run's worker requests come in the order of its frames, and its stdout is made of those frames alone |
| SystemRuns.Captured | internal/bridge/dispatcher.go:148-156 | in every reachable state, whatever the positions and payloads of the sentinels among the answered frames, the Run's stdout is those payloads one after the other |
| SystemRuns.AnswerCaptures | internal/bridge/dispatcher.go:148-156 | answering a sentinel appends its payload to the stdout of its own Run; answering any other frame appends nothing |
| SystemGrants.OnlyResponsive | internal/worker/pool.go:118-126 | in every reachable state Acquire hands out only workers that are new or whose last request was a ping they answered; one whose ping came back empty-handed is shut down and replaced |
| SystemGrants.StoppedAreClosed | internal/worker/worker.go:127-136 | in every reachable state a worker counted as stopped has had its Shutdown return: connection closed, process gone |
| SystemRuns.WorkersSeeOneRunAtATime | internal/bridge/dispatcher.go:93-100 | each worker is served one Run at a time and gets only calls that Run's filter allows |
| SystemRuns.MutexUncontended | internal/worker/worker.go:24 | whoever is about to lock a worker's mutex finds it free |
| SystemRuns.CacheAgrees | internal/bridge/dispatcher.go:53-59 | whatever Runs miss and store at the same time, every cached probe is what the workers answer |
| SystemLengths.NeverTooLong | internal/bridge/dispatcher.go:396-402 | if the texts of what the host writes itself, and of responses to replies that fit, are below 4 GiB, no reachable state has a longer answer |
| SystemExchange.Answered | internal/worker/worker.go:93-113 | inside the system too, a worker that lives can answer the open request with any reply allowed to it, which the Run then reads if the host can parse it |
| Refinement.CallRefines | internal/bridge/dispatcher.go:260-303 | whatever Dispatch.Dispatcher.Dispatch may make of a call (filter, argument errors, worker, unreadable result array) the system makes of it in some run of that Run's and its worker's steps, with the same response, asking the worker exactly when dispatch does |
| Refinement.ProbeRefines | internal/bridge/dispatcher.go:242-259 | and of a probe, the cache hit, the miss that is stored and the missing reply included: the shim reads the flags the system answers |
| SystemParts.SystemIsItsParts | internal/bridge/dispatcher.go:81-217 | every run of the system projects to a run of the pool, of each bridge and of each connection, so what is proved of the parts holds inside it |
| SystemProgress.Progress | internal/bridge/dispatcher.go:121-303 | in every reachable state in which a shim waits or a Run winds up after its module's exit, a step on its behalf is possible: no circular wait through pipes, mutex, socket or other Runs |
| SystemLiveness.HelpingStep | internal/bridge/dispatcher.go:121-303 | each step on behalf of a waiting Run, worker crashes included, brings it strictly closer to its end |
| SystemLiveness.OtherStep | internal/bridge/dispatcher.go:121-303 | no step of other Runs, the pool or its closing changes anything for it |
| SystemLiveness.EveryCallReturns | shim/bootstrap.py:78-81 | in every infinite behaviour from a reachable state, pauses allowed, that serves the Run again and again while it waits, every call returns with the answer to its own frame unless the module exits first or a response of 4 GiB or more is begun, however the other Runs, the pool, its closing and failing workers are scheduled |
| SystemLiveness.EveryRunReleases | internal/bridge/dispatcher.go:187-199 | at whatever step a Run's module exits, in every such behaviour its goroutine is joined and its worker can be released, frames of any length included |
| SystemLiveness.ServingBehaviour | internal/bridge/dispatcher.go:121-303 | from every state there is a behaviour that serves a given Run, in every environment with a worker that can answer |
| SystemWitness.Environment | internal/worker/protocol.go:16-57 | the hypotheses can be met together, for every capacity of the sockets and any set of results the host cannot parse, by texts that tell all messages and all responses apart, frames of all four kinds and a filter that allows one function and not another |
| SystemWitness.ACallIsAnswered | internal/bridge/dispatcher.go:81-217 | from a pool of one worker a Run acquires it, pings it, makes a call with any frame in range and reads its answer |
| RowMajor.UnravelOffset | shim/bootstrap.py:296-306 | the row-major offset of an index tuple in bounds is in range and determines the tuple |
| RowMajor.OffsetUnravel | shim/bootstrap.py:296-306 | and every flat position is the offset of a tuple in bounds: a bijection |
| RowMajor.OffsetSplit | shim/bootstrap.py:290-306 | the offset of a concatenated tuple is that of its head, scaled, plus that of its tail |
| TensorView.SizeOf | shim/bootstrap.py:210-212 | the size loop computes the product of the shape |
| TensorView.SizeIsBits | shim/bootstrap.py:181-193 | the item sizes are those the dtype names promise |
| TensorView.SubView | shim/bootstrap.py:255-261 | selecting along the first axis yields a well-formed view whose elements are those of that part |
| TensorView.SelectIsOffset | shim/bootstrap.py:244-261 | v[i0][i1]... reads the element at the row-major offset, and fails exactly when some index is out of range |
| TensorView.TooManyIndices | shim/bootstrap.py:244-261 | more indices than dimensions always fail |
| TensorView.GetTuple | shim/bootstrap.py:283-306 | indexing by a tuple means repeated first-axis selection, through the partial and the full branch |
| TensorView.PartialTuple | shim/bootstrap.py:290-295 | the axis-by-axis loop is repeated selection |
| TensorView.FullTuple | shim/bootstrap.py:296-306 | the reversed stride loop accumulates exactly the row-major offset, or finds an index out of range |
| TensorView.TupleSplit | shim/bootstrap.py:283-306 | v[s+t] equals v[s][t], errors included, wherever the tuple is cut |
| TensorLists.ListIsOffset | shim/bootstrap.py:325-330 | indexing the nested list reads the element at the row-major offset |
| TensorLists.ListAgreesWithView | shim/bootstrap.py:282-330 | indexing the view by a tuple and indexing its list alike give the same element |
| TensorLists.FlattenToList | shim/bootstrap.py:325-330 | flattening tolist gives every element in flat order, for every shape, zero lengths included |
| TensorLists.Iterate | shim/bootstrap.py:311-316 | iteration yields self[i] for each i, or the one element of a 0-d view |
| TensorLists.IterationIsList | shim/bootstrap.py:311-330 | what iteration yields, converted, is the list |
| TensorSlices.UnitStepPositions | shim/bootstrap.py:271 | a step-1 slice selects exactly the positions between its resolved bounds |
| TensorSlices.SliceSelects | shim/bootstrap.py:270-280 | for every slice the positions selected, with no clamping: going up from the start, or the first element, to below the stop, every k-th; going down from the start, or the last element, to above the stop; in the direction of the step |
| TensorSlices.Reversal | shim/bootstrap.py:270-280 | v[::-1] selects all positions, last first |
| TensorSlices.GetSlice | shim/bootstrap.py:264-280 | slicing gathers the bytes at the slice's positions, through the fast path and the loop |
| TensorSlices.GatherLoop | shim/bootstrap.py:277-280 | the piece-gathering loop, for steps of either sign |
| TensorSlices.FastPath | shim/bootstrap.py:272-276 | the contiguous fast path gives the data and shape of the general loop |
| TensorSlices.SliceCommutes | shim/bootstrap.py:264-330 | v[sl].tolist() is v.tolist()[sl] for every start, stop and step, and both refuse step 0; with SliceSelects this says which elements those are |
| Glob.MatchIsLastStarGlob | internal/filter/filter.go:72-88 | it decides exactly the declarative glob with every star but the last deleted |
| Glob.Sound | internal/filter/filter.go:72-88 | what it accepts the full glob accepts, for every pattern |
| Glob.CompleteIffAdjacent | internal/filter/filter.go:72-88 | it decides the full glob for every name if and only if the pattern's stars are adjacent |
| Glob.MissedName | internal/filter/filter.go:86-87 | for any other pattern a name the glob accepts and the matcher does not |
| Filter.LoadFilter | internal/filter/filter.go:103-124 | the compile loops: exact entries with deny overriding allow, patterns of each list in order, default |
| Filter.Allow | internal/filter/filter.go:36-67 | decides as documented on the raw lists: exact deny, exact allow, wildcard deny, wildcard allow, default |
| Filter.Precedence | internal/filter/filter.go:36-67 | the decision by the lists alone: an entry that is the name itself has the last word, deny before allow; then a glob (with all stars but the last deleted), deny before allow; then the default, "allow" in any letter case |
| Filter.OrderAndRepetition | internal/filter/filter.go:36-67 | permuting or repeating entries changes no decision |
| Filter.Monotone | internal/filter/filter.go:36-67 | adding deny entries never turns deny into allow, adding allow entries never turns allow into deny |
| Shm.NamesDistinct | internal/bridge/shm.go:110-118 | different allocations get different names and paths |
| Shm.PathsAgree | internal/bridge/shm_unix.go:13-19 | the path freed and the path sent to the worker are the same exactly unless something other than a directory sits at /dev/shm while the temporary directory is another one |
| Shm.AllocShm | internal/bridge/shm_unix.go:21-45 | fails exactly when one of its system calls does, and then leaves nothing behind; else a fresh zeroed file, one descriptor and one mapping; zero bytes always fail |
| Shm.FreeShm | internal/bridge/shm_unix.go:47-56 | unmaps, closes and removes |
| Shm.ShmManager.Alloc | internal/bridge/shm.go:34-46 | adds one block under the next 32-bit handle, not in use before 2^32 allocations |
| Shm.NextHandle | internal/bridge/shm.go:41-43 | handles number the allocations modulo 2^32; below that the next one is not live |
| Shm.HandleReused | internal/bridge/shm.go:41-43 | after n allocations and no Free the next handle is that of a live block if and only if n is at least 2^32; the allocation then takes that block, the (n - 2^32)-th, out of the table |
| Shm.LostBlockStays | internal/bridge/shm.go:70-81 | and the file of a block so displaced is not among those FreeAll removes |
| Shm.ShmManager.Free | internal/bridge/shm.go:57-67 | frees the block of a live handle and nothing for any other |
| Shm.ShmManager.FreeAll | internal/bridge/shm.go:70-81 | frees each live block exactly once: its file, one descriptor, one mapping, and nothing else |
| Dispatch.ResolveArg | internal/bridge/dispatcher.go:326-362 | non-arrays unchanged, inline arrays as the path of a fresh block with the decoded bytes, handles as the path of a live block, or the reason for refusal, for allocation exactly when a system call failed; what the manager holds is always accounted for |
| Dispatch.ResolveArgs | internal/bridge/dispatcher.go:306-316 | every argument so, in place, with earlier blocks kept; or the first refusal, all arguments before it having passed; a handle is unknown exactly when it is not below the number of inline arrays before it |
| Dispatch.ResolveKwargs | internal/bridge/dispatcher.go:276-283 | the keyword arguments so, in whatever order the map is walked, refusals as exact |
| Dispatch.EncodeArray | internal/bridge/dispatcher.go:373-393 | reads, unlinks and inlines an array result; an unreadable file stays |
| Dispatch.Dispatcher.Dispatch | internal/bridge/dispatcher.go:230-303 | on every way out no block, descriptor or mapping is left and, unless the worker was called, no file changed; a probe gets the right answer from the cache, whether or not the worker is alive, or from the worker, which is then remembered, and fails only when the worker does not answer; the filter decides; a call refused for its arguments is refused for the first positional one that cannot pass, or else for a keyword one, a handle exactly if it is not below the number of inline arrays before it; otherwise the worker gets exactly the resolved arguments and the shim the response to its reply |
| Dispatch.ProbeNames | internal/bridge/dispatcher.go:237-238 | a request is a probe of t exactly if its name is t followed by the suffix |
| TopLevel.ProbeTells | internal/bridge/dispatcher.go:242-264 | the shim reads of a probe's response a dict whose is_module and is_callable are what the workers say of that target |
| Dispatch.Conserved | internal/bridge/dispatcher.go:230-303 | a call leaves the shm directory as it was if and only if the worker made no file, or only the one of a top-level array result that arrived, was readable and removable |
| Sharing.InvNext | internal/bridge/shm.go:34-81 | every system call of every dispatch, failing ones included, keeps allocation numbers and files each one dispatch's own and the directory accounted for |
| Sharing.BlocksKept | internal/bridge/shm.go:92-118 | in every interleaving of any number of dispatches a stored block keeps its bytes until its own dispatch frees it, no two dispatches use one file, and no file that was there is touched |
| Sharing.BlocksHoldTheirBytes | internal/bridge/dispatcher.go:330-342 | in every interleaving a live block's file holds the bytes its own dispatch asked to have stored when it took the block's number |
| Sharing.UncollectedStays | internal/bridge/dispatcher.go:373-393 | in every interleaving a worker-made file that cannot be read or removed stays as it was |
| Sharing.DirectoryRestored | internal/bridge/dispatcher.go:230-240 | once all of them have returned the directory is what it was plus exactly the worker-made files not collected, so it is what it was if and only if all were |
| Numbers.SmallSurvives | internal/worker/protocol.go:18 | integers within 2^53 pass through float64 and its shortest digits unchanged |
| Numbers.LargeSurvives | internal/worker/protocol.go:18 | beyond, the host has the nearest double; an integer survives below 10^21 if and only if it is the shortest decimal of that double, nearest first and even last digit on a tie, and from there on if and only if it is a double |
| Numbers.OneShortest | internal/worker/protocol.go:18 | that decimal is unique |
| Numbers.RoundTwice | internal/worker/protocol.go:18 | rounding yields a double: rounding again changes nothing |
| Numbers.RoundsToNearest | internal/worker/protocol.go:18 | rounding yields the double nearest to an integer, every other one being further away, or as far with the odd mantissa; doubles are the multiples of powers of two by less than 2^53 |
| Numbers.DoublesStay | internal/worker/protocol.go:18 | the doubles are exactly the numbers rounding leaves alone |
| Numbers.OneNearest | internal/worker/protocol.go:18 | the nearest double is unique |
| Wire.IntegerTaken | internal/worker/protocol.go:18 | the host's parser takes an integer if and only if it is below 2^1024 - 2^970 in size, the point from which it rounds to 2^1024 |
| Wire.Marshalled | internal/worker/protocol.go:16-29 | what a reader finds under each key of a marshalled record |
| Wire.RecordReturns | internal/worker/protocol.go:16-29 | a record of 64-bit integers comes back from its own JSON field by field |
| Wire.NullIsEmpty | internal/worker/protocol.go:16-29 | null is read as a record without fields |
| WireWitness.Sound | internal/worker/protocol.go:18 | the properties assumed of base64 and number formatting can be met: every integral double has a shortest decimal, nearest first and even last digit on a tie |
| Trips.TripExact | shim/worker.py:159-221 | a value written by one side and read by the other is the value it was if and only if it is built from surviving numbers and fit leaves; tuples read as lists |
| Trips.KeyedTrip | shim/bootstrap.py:94-95 | a dict with a key that is not text never arrives as the value it was |
| Trips.SendsUnless | shim/bootstrap.py:88-118 | writing a value raises if and only if one that cannot be written is somewhere inside it |
| TopLevel.ArgumentRaises | shim/bootstrap.py:88-118 | the shim refuses an argument exactly for a module proxy, a callable or a dict with a key JSON cannot write inside it |
| TopLevel.ResultRaises | shim/worker.py:159-175 | a result cannot be written exactly for such a dict inside it |
| TopLevel.ObjectArrivesAsText | shim/worker.py:175 | functions, modules and other objects in a result arrive as their text, at any depth |
| TopLevel.ArrivedIs | shim/worker.py:204-221 | a value arrives as the value it was exactly if what is read is its normal form: numbers as floats, tuples as lists, other objects as text |
| Trips.RawReadsBack | shim/bootstrap.py:138-151 | plain data read raw is what json.dumps wrote |
| TopLevel.OthersReadRaw | shim/bootstrap.py:143-151 | records of no known type are read as their raw value, on both sides |
| Trips.PromisedSurvives | shim/bootstrap.py:90-91 | integral values within 2^53 and all other finite floats survive |
| Trips.SomeNumbersLost | shim/bootstrap.py:90-91 | 2^53+1 and 2^60 do not |
| Trips.IntegerSurvives | internal/worker/protocol.go:18 | exactly which integers make the whole trip, of any size, in terms of the nearest double |
| Trips.PromisedArrives | shim/bootstrap.py:88-118 | None, bools, text, such numbers, nested lists and string-keyed dicts always arrive |
| TopLevel.HostRecord | internal/bridge/dispatcher.go:326-329 | the host's typed record reads like the wire value it came from, dropped nulls included |
| TopLevel.ArgumentTrip | internal/bridge/dispatcher.go:326-362 | an argument taken and passed on reaches the worker as the value it was if and only if it fits: arrays exactly when at top level, well-formed and not empty |
| TopLevel.FitIsTaken | shim/bootstrap.py:407-414 | what fits is always sent and accepted |
| TopLevel.ResultTrip | internal/bridge/dispatcher.go:293-302 | a result the host took reaches the shim as the value it was if and only if it can return: a top-level array always with its bytes, a nested one only if empty |
| RemoteCall.ArgumentsArrive | internal/bridge/dispatcher.go:271-285 | the worker gets the positional and keyword arguments the user passed if and only if all fit |
| RemoteCall.RemoteCallIsLocal | shim/worker.py:267-283 | a bridged call whose arguments fit applies the library function to those values, and the shim reads its value exactly when that can return, or its exception |
| RemoteCall.UnreadableRaises | shim/worker.py:267-283 | a call with an argument the worker cannot read raises in the user's code and leaves no file behind |
| RemoteCall.ResultCollected | shim/worker.py:178-201 | the files a call makes are those its reply names or, where dict keys of one text replace each other, those it would name if none did; none is left behind if and only if there are none, or the result is an array the host took |
| ResultFiles.WrittenAreNamed | shim/worker.py:159-201 | serialising a value, nested in lists, tuples and dicts of any depth, writes exactly the files that the ndarray records of its JSON name |
| ResultFiles.KeyedNames | shim/worker.py:165 | of a dict with keys that are not all text the JSON names the files of the last pair of each key text |
| ResultFiles.NamedAreWritten | shim/worker.py:159-201 | a reply names no file the worker has not written |

## Left out

- Dispatch.Dispatcher.Dispatch: is proved for one dispatch at a time; interleavings of dispatches are Sharing.dfy's as far as files go and System.dfy's as far as requests go, which Refinement.dfy joins to it.
- System.Next: leaves out replies above 16 MiB, which SocketStale.dfy covers for one connection. Whether arguments resolve and a result array encodes is a free choice there: Refinement.dfy shows that it includes every outcome of Dispatch.dfy, but the system's runs also include others.
- Bridge.Next: lets only whole frames reach stdout; raw bytes that user code writes to it are left out.
- Sharing.Next: does not model one dispatch's probe, filter and call, only its files; two processes with the same random tag are left out.
- Shm.NamesDistinct: does not model the wrap of the 64-bit allocation counter.
- Wire.FromJson: matches keys exactly, where Go's decoder also accepts other letter cases; the shim only writes the exact ones.
- Values.Ser: does not model strings with lone surrogates.
- Bridge.Next, Socket.Next, Pool.Next: the goroutine, the mutex-holding methods and the channel operations are concurrent, so they are steps over immutable states and not loops over objects; update in place within one step is not shown.
- TensorView.GetFirst: elements are identified with their bytes; the number formats of the struct library are not modelled.
- Filter.LoadFilter: starts from the parsed lists; reading the file and parsing YAML are left out, as is AllowAll.
- HTTP handling, logging, timing, trace IDs and CLI flags: plumbing. The timeout appears as the module's exit at any step.
- wazero, CPython-WASI, process spawning, socket accept: outcomes, success or failure.
- Module import hooks, the attribute cache of module proxies, scalar conversions, text forms and comparison of views: they hold no protocol state, and nothing proved here depends on them.
- What numpy, scipy and pandas compute: a call is an uninterpreted function of its arguments.
- internal/bridge/shm_other.go: its buffer is not backed by the file.
- internal/safety/checker.go: a heuristic whose content is in its regular expressions.
- The worker's `_ALLOWED` table has no effect and is not modelled; nor are the unused `_read_shm` and `_alloc_shm`.
- Callbacks, async calls, the fork path and instance pooling: design text without code.
