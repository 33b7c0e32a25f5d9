/** Any number of dispatches at a time in one shm directory: every system call of
    every dispatch, and every file a worker makes, is a step of its own, in any
    interleaving. */
module Sharing {
  import opened Framing
  import opened Wrappers
  import opened Shm

  type TaskId = nat

  // Where a dispatch is with its current allocation, or with freeing its blocks.
  datatype Doing =
    | Idle
    | Named(c: nat, data: bytes)       // counter taken, file not created yet
    | Opened(c: nat, data: bytes)      // created, not sized
    | Sized(c: nat, data: bytes)       // sized, not mapped
    | Mapped(c: nat, data: bytes)      // mapped, bytes not copied
    | Undoing(c: nat)                  // a call failed: the file is to be removed
    | Freeing
    | Done

  // A dispatch: its live blocks with the bytes stored in them, by allocation
  // number, and the files its worker made that have not been collected.
  datatype Task = Task(doing: Doing, blocks: map<nat, bytes>, made: set<string>)

  datatype State = State(files: map<string, File>, counter: nat, tasks: map<TaskId, Task>)

  datatype Event =
    | Start(d: TaskId)
    | Take(d: TaskId, data: bytes)
    | Create(d: TaskId, ok: bool)
    | Truncate(d: TaskId, ok: bool)
    | Mmap(d: TaskId, ok: bool)
    | Copy(d: TaskId)
    | Undo(d: TaskId)
    | WorkerMakes(d: TaskId, path: string, f: File)
    | Collect(d: TaskId, path: string)
    | BeginFree(d: TaskId)
    | FreeOne(d: TaskId, c: nat)
    | Finish(d: TaskId)

  function Path(host: Host, c: nat): string { host.BlockPath(host.Name(c)) }

  function Put(s: State, d: TaskId, t: Task): State {
    s.(tasks := s.tasks[d := t])
  }

  function StepCreate(host: Host, s: State, d: TaskId, t: Task, ok: bool): Option<State> {
    if !t.doing.Named? then None
    else if !ok then Some(Put(s, d, t.(doing := Idle)))
    else
      var p := Path(host, t.doing.c);
      if p in s.files then None
      else Some(Put(s, d, t.(doing := Opened(t.doing.c, t.doing.data))).(files := s.files[p := File([], true, true)]))
  }

  function StepTruncate(host: Host, s: State, d: TaskId, t: Task, ok: bool): Option<State> {
    if !t.doing.Opened? then None
    else if !ok then Some(Put(s, d, t.(doing := Undoing(t.doing.c))))
    else
      var p := Path(host, t.doing.c);
      Some(Put(s, d, t.(doing := Sized(t.doing.c, t.doing.data)))
           .(files := s.files[p := File(Zeros(|t.doing.data|), true, true)]))
  }

  function StepMmap(s: State, d: TaskId, t: Task, ok: bool): Option<State> {
    if !t.doing.Sized? || (ok && t.doing.data == []) then None
    else Some(Put(s, d, t.(doing := if ok then Mapped(t.doing.c, t.doing.data) else Undoing(t.doing.c))))
  }

  function StepCopy(host: Host, s: State, d: TaskId, t: Task): Option<State> {
    if !t.doing.Mapped? then None
    else
      var c, data := t.doing.c, t.doing.data;
      Some(Put(s, d, t.(doing := Idle, blocks := t.blocks[c := data]))
           .(files := s.files[Path(host, c) := File(data, true, true)]))
  }

  function StepUndo(host: Host, s: State, d: TaskId, t: Task): Option<State> {
    if !t.doing.Undoing? then None
    else Some(Put(s, d, t.(doing := Idle)).(files := Removed(s.files, Path(host, t.doing.c))))
  }

  function StepMakes(s: State, d: TaskId, t: Task, path: string, f: File): Option<State> {
    if !t.doing.Idle? || path in s.files then None
    else Some(Put(s, d, t.(made := t.made + {path})).(files := s.files[path := f]))
  }

  // An array result is read and unlinked; what cannot be read or removed stays.
  function StepCollect(s: State, d: TaskId, t: Task, path: string): Option<State> {
    if !t.doing.Idle? || path !in t.made || path !in s.files || !s.files[path].readable then None
    else if !s.files[path].removable then Some(s)
    else Some(Put(s, d, t.(made := t.made - {path})).(files := s.files - {path}))
  }

  function StepFree(host: Host, s: State, d: TaskId, t: Task, c: nat): Option<State> {
    if !t.doing.Freeing? || c !in t.blocks then None
    else Some(Put(s, d, t.(blocks := t.blocks - {c})).(files := Removed(s.files, Path(host, c))))
  }

  function StepTask(host: Host, s: State, t: Task, e: Event): Option<State> {
    match e
    case Start(_) => None
    case Take(d, data) =>
      var c := s.counter + 1;
      if t.doing.Idle? then Some(Put(s, d, t.(doing := Named(c, data))).(counter := c)) else None
    case Create(d, ok) => StepCreate(host, s, d, t, ok)
    case Truncate(d, ok) => StepTruncate(host, s, d, t, ok)
    case Mmap(d, ok) => StepMmap(s, d, t, ok)
    case Copy(d) => StepCopy(host, s, d, t)
    case Undo(d) => StepUndo(host, s, d, t)
    case WorkerMakes(d, path, f) => StepMakes(s, d, t, path, f)
    case Collect(d, path) => StepCollect(s, d, t, path)
    case BeginFree(d) => if t.doing.Idle? then Some(Put(s, d, t.(doing := Freeing))) else None
    case FreeOne(d, c) => StepFree(host, s, d, t, c)
    case Finish(d) =>
      if t.doing.Freeing? && t.blocks == map[] then Some(Put(s, d, t.(doing := Done))) else None
  }

  function Next(host: Host, s: State, e: Event): Option<State> {
    if e.Start? then (if e.d in s.tasks then None else Some(Put(s, e.d, Task(Idle, map[], {}))))
    else if e.d in s.tasks then StepTask(host, s, s.tasks[e.d], e)
    else None
  }

  function Run(host: Host, s: State, es: seq<Event>): Option<State>
    decreases |es|
  {
    if es == [] then Some(s)
    else match Next(host, s, es[0])
         case None => None
         case Some(t) => Run(host, t, es[1..])
  }

  // ---------------------------------------------------------------- who has what

  // The allocation in progress.
  function Pending(a: Doing): set<nat> {
    if a.Named? || a.Opened? || a.Sized? || a.Mapped? || a.Undoing? then {a.c} else {}
  }

  function Numbers(t: Task): set<nat> { t.blocks.Keys + Pending(t.doing) }

  // Those whose file is there.
  function Held(t: Task): set<nat> {
    t.blocks.Keys + if t.doing.Named? then {} else Pending(t.doing)
  }

  function Paths(host: Host, t: Task): set<string> {
    t.made + set c | c in Held(t) :: Path(host, c)
  }

  // The task's blocks are there, removable, and hold the bytes put in them.
  ghost predicate Sound(host: Host, files: map<string, File>, t: Task) {
    && t.blocks.Keys !! Pending(t.doing)
    && (t.doing.Done? ==> t.blocks == map[])
    && Paths(host, t) <= files.Keys
    && (forall c <- Held(t) :: Path(host, c) !in t.made && files[Path(host, c)].removable)
    && (forall c <- t.blocks :: files[Path(host, c)].content == t.blocks[c])
  }

  // No number and no file is two tasks'.
  predicate Apart(host: Host, t: Task, u: Task) {
    Numbers(t) !! Numbers(u) && Paths(host, t) !! Paths(host, u)
  }

  ghost predicate Inv(host: Host, base: map<string, File>, s: State) {
    && Covered(host, base, s)
    && (forall d <- s.tasks :: TaskInv(host, base, s, s.tasks[d]))
    && (forall d <- s.tasks, e <- s.tasks :: d != e ==> Apart(host, s.tasks[d], s.tasks[e]))
  }

  // The directory is the initial one plus the tasks' files.
  ghost predicate Covered(host: Host, base: map<string, File>, s: State) {
    && (forall p <- base :: p in s.files && s.files[p] == base[p])
    && (forall p <- s.files :: p in base || exists d :: d in s.tasks && p in Paths(host, s.tasks[d]))
  }

  ghost predicate TaskInv(host: Host, base: map<string, File>, s: State, t: Task) {
    && Sound(host, s.files, t)
    && Paths(host, t) !! base.Keys
    && (forall c <- Numbers(t) :: c <= s.counter)
  }

  // What a step of task d may do: give up files of its own, take paths where no
  // file is, take the next number, and touch nothing else.
  ghost predicate Moves(host: Host, s: State, s': State, t: Task, t': Task) {
    var mine, mine' := Paths(host, t), Paths(host, t');
    && (forall p | p !in mine && p !in mine' :: (p in s.files <==> p in s'.files)
          && (p in s.files ==> s.files[p] == s'.files[p]))
    && (mine - mine') !! s'.files.Keys
    && (mine' - mine) !! s.files.Keys
    && Sound(host, s'.files, t')
    && s.counter <= s'.counter
    && (forall c <- Numbers(t') :: c in Numbers(t) || s.counter < c <= s'.counter)
  }

  lemma OtherSound(host: Host, files: map<string, File>, files': map<string, File>, u: Task)
    requires Sound(host, files, u)
    requires forall p <- Paths(host, u) :: p in files ==> p in files' && files'[p] == files[p]
    ensures Sound(host, files', u)
  {
    forall c | c in Held(u) ensures Path(host, c) in Paths(host, u) {
    }
  }

  lemma OthersStay(host: Host, base: map<string, File>, s: State, s': State, t: Task, t': Task, u: Task)
    requires Moves(host, s, s', t, t') && TaskInv(host, base, s, u) && Apart(host, u, t)
    ensures TaskInv(host, base, s', u) && Apart(host, u, t') && Apart(host, t', u)
  {
    assert Paths(host, u) <= s.files.Keys;
    hide Sound, Paths, Numbers;
    OtherSound(host, s.files, s'.files, u);
    forall c | c in Numbers(t') ensures c !in Numbers(u) {
      assert c in Numbers(t) || s.counter < c;
    }
  }

  lemma CoveredStays(host: Host, base: map<string, File>, s: State, d: TaskId, s': State, t': Task)
    requires Covered(host, base, s) && d in s.tasks && s'.tasks == s.tasks[d := t']
    requires Moves(host, s, s', s.tasks[d], t') && Paths(host, s.tasks[d]) !! base.Keys
    ensures Covered(host, base, s') && Paths(host, t') !! base.Keys
  {
    hide Sound, Paths, Numbers;
    forall p | p in s'.files ensures p in base || exists e :: e in s'.tasks && p in Paths(host, s'.tasks[e]) {
      if p in Paths(host, t') {
        assert d in s'.tasks;
      } else if p !in base {
        var e :| e in s.tasks && p in Paths(host, s.tasks[e]);
        assert e in s'.tasks;
      }
    }
  }

  lemma Stays(host: Host, base: map<string, File>, s: State, d: TaskId, s': State, t': Task)
    requires Inv(host, base, s) && d in s.tasks && s'.tasks == s.tasks[d := t']
    requires Moves(host, s, s', s.tasks[d], t')
    ensures Inv(host, base, s')
  {
    hide Sound, Paths, Numbers, Apart, Covered;
    var t := s.tasks[d];
    assert TaskInv(host, base, s, t);
    CoveredStays(host, base, s, d, s', t');
    assert TaskInv(host, base, s', t');
    hide Moves, TaskInv;
    forall e | e in s.tasks && e != d
      ensures TaskInv(host, base, s', s.tasks[e]) && Apart(host, s.tasks[e], t') && Apart(host, t', s.tasks[e])
    {
      OthersStay(host, base, s, s', t, t', s.tasks[e]);
    }
  }

  // ---------------------------------------------------------------- the steps

  // Steps that leave the files alone.
  lemma QuietMoves(host: Host, s: State, s': State, t: Task, t': Task)
    requires Sound(host, s.files, t) && s'.files == s.files
    requires t'.blocks == t.blocks && t'.made == t.made && Held(t') == Held(t)
    requires t'.blocks.Keys !! Pending(t'.doing) && (t'.doing.Done? ==> t'.blocks == map[])
    requires s.counter <= s'.counter
    requires forall c <- Pending(t'.doing) :: c in Numbers(t) || s.counter < c <= s'.counter
    ensures Moves(host, s, s', t, t')
  {
    assert Paths(host, t') == Paths(host, t);
  }

  // One more block file, at a free path.
  lemma CreateMoves(host: Host, s: State, d: TaskId, t: Task)
    requires Sound(host, s.files, t) && StepCreate(host, s, d, t, true).Some?
    ensures var s' := StepCreate(host, s, d, t, true).value;
            Moves(host, s, s', t, s'.tasks[d])
  {
    var s' := StepCreate(host, s, d, t, true).value;
    var t', c := s'.tasks[d], t.doing.c;
    assert Held(t') == Held(t) + {c};
    PathsGrow(host, t, t', c);
    forall k | k in Held(t) ensures Path(host, k) in Paths(host, t) {
    }
  }

  lemma PathsGrow(host: Host, t: Task, t': Task, c: nat)
    requires t'.made == t.made && Held(t') == Held(t) + {c}
    ensures Paths(host, t') == Paths(host, t) + {Path(host, c)}
  {
    assert c in Held(t');
    forall k | k in Held(t) ensures k in Held(t') && Path(host, k) in Paths(host, t') {
    }
  }

  lemma SamePath(host: Host, c: nat, k: nat)
    requires Path(host, c) == Path(host, k)
    ensures c == k
  {
    if c != k {
      NamesDistinct(host, c, k);
    }
  }

  // New content for a block of the task's own.
  lemma WriteMoves(host: Host, s: State, s': State, t: Task, t': Task, c: nat, f: File)
    requires Sound(host, s.files, t) && c in Held(t) && c !in t.blocks
    requires s'.files == s.files[Path(host, c) := f] && f.removable && s'.counter == s.counter
    requires t'.made == t.made && Held(t') == Held(t) && Numbers(t') == Numbers(t)
    requires t'.blocks.Keys !! Pending(t'.doing) && !t'.doing.Done?
    requires t'.blocks == t.blocks || t'.blocks == t.blocks[c := f.content]
    ensures Moves(host, s, s', t, t')
  {
    assert Path(host, c) in Paths(host, t);
    assert Paths(host, t') == Paths(host, t);
    forall k | k in t.blocks && k != c ensures Path(host, k) != Path(host, c) {
      if Path(host, k) == Path(host, c) {
        SamePath(host, k, c);
      }
    }
  }

  // A block given up, its file removed.
  lemma RemoveMoves(host: Host, s: State, s': State, t: Task, t': Task, c: nat)
    requires Sound(host, s.files, t) && c in Held(t)
    requires s'.files == Removed(s.files, Path(host, c)) && s'.counter == s.counter
    requires t'.made == t.made && t'.blocks == t.blocks - {c} && Numbers(t') == Numbers(t) - {c}
    requires Held(t') == Held(t) - {c} && t'.blocks.Keys !! Pending(t'.doing) && !t'.doing.Done?
    ensures Moves(host, s, s', t, t')
  {
    assert Path(host, c) in Paths(host, t) && s.files[Path(host, c)].removable;
    PathsShrink(host, t, t', c);
    forall k | k in Held(t') ensures Path(host, k) in Paths(host, t') {
    }
  }

  lemma PathsShrink(host: Host, t: Task, t': Task, c: nat)
    requires c in Held(t) && t'.made == t.made && Held(t') == Held(t) - {c} && Path(host, c) !in t.made
    ensures Paths(host, t') == Paths(host, t) - {Path(host, c)}
  {
    var p := Path(host, c);
    forall k | k in Held(t') ensures Path(host, k) in Paths(host, t) - {p} {
      if Path(host, k) == p {
        SamePath(host, k, c);
      }
    }
    forall q | q in Paths(host, t) && q != p && q !in t.made ensures q in Paths(host, t') {
      var k :| k in Held(t) && q == Path(host, k);
      assert k in Held(t');
    }
  }

  lemma MakesMoves(host: Host, s: State, d: TaskId, t: Task, path: string, f: File)
    requires Sound(host, s.files, t) && StepMakes(s, d, t, path, f).Some?
    ensures var s' := StepMakes(s, d, t, path, f).value;
            Moves(host, s, s', t, s'.tasks[d])
  {
    var s' := StepMakes(s, d, t, path, f).value;
    var t' := s'.tasks[d];
    assert Held(t') == Held(t) && Numbers(t') == Numbers(t);
    assert Paths(host, t') == Paths(host, t) + {path};
    forall c | c in Held(t) ensures Path(host, c) in Paths(host, t) {
    }
  }

  lemma CollectMoves(host: Host, s: State, d: TaskId, t: Task, path: string)
    requires Sound(host, s.files, t) && d in s.tasks && s.tasks[d] == t && StepCollect(s, d, t, path).Some?
    ensures var s' := StepCollect(s, d, t, path).value;
            s'.tasks == s.tasks[d := s'.tasks[d]] && Moves(host, s, s', t, s'.tasks[d])
  {
    var s' := StepCollect(s, d, t, path).value;
    var t' := s'.tasks[d];
    assert Held(t') == Held(t) && Numbers(t') == Numbers(t);
    forall c | c in Held(t) ensures Path(host, c) in Paths(host, t) && Path(host, c) != path {
    }
    if s.files[path].removable {
      assert Paths(host, t') == Paths(host, t) - {path};
    }
  }

  // A dispatch starting owns nothing.
  lemma StartKeeps(host: Host, base: map<string, File>, s: State, d: TaskId)
    requires Inv(host, base, s) && d !in s.tasks
    ensures Inv(host, base, s.(tasks := s.tasks[d := Task(Idle, map[], {})]))
  {
    var t, s' := Task(Idle, map[], {}), s.(tasks := s.tasks[d := Task(Idle, map[], {})]);
    EmptyTask(host, s.files);
    hide Sound, Paths, Numbers;
    assert Covered(host, base, s') by {
      forall p | p in s.files && p !in base ensures exists e :: e in s'.tasks && p in Paths(host, s'.tasks[e]) {
        var e :| e in s.tasks && p in Paths(host, s.tasks[e]);
        assert e in s'.tasks;
      }
    }
    assert TaskInv(host, base, s', t);
    forall e | e in s.tasks ensures TaskInv(host, base, s', s.tasks[e]) {
    }
    forall e | e in s.tasks ensures Apart(host, t, s.tasks[e]) && Apart(host, s.tasks[e], t) {
    }
    hide TaskInv, Apart, Covered;
  }

  lemma EmptyTask(host: Host, files: map<string, File>)
    ensures var t := Task(Idle, map[], {});
            Sound(host, files, t) && Numbers(t) == {} && Paths(host, t) == {}
  {
  }

  lemma InvNext(host: Host, base: map<string, File>, s: State, e: Event)
    requires Inv(host, base, s) && Next(host, s, e).Some?
    ensures Inv(host, base, Next(host, s, e).value)
  {
    if e.Start? {
      StartKeeps(host, base, s, e.d);
    } else {
      assert TaskInv(host, base, s, s.tasks[e.d]);
      StepMoves(host, s, s.tasks[e.d], e);
      hide StepTask, Moves, Sound, Inv;
      var s' := Next(host, s, e).value;
      Stays(host, base, s, e.d, s', s'.tasks[e.d]);
    }
  }

  lemma StepMoves(host: Host, s: State, t: Task, e: Event)
    requires e.d in s.tasks && s.tasks[e.d] == t && Sound(host, s.files, t) && StepTask(host, s, t, e).Some?
    requires forall c <- Numbers(t) :: c <= s.counter
    ensures var s' := StepTask(host, s, t, e).value;
            s'.tasks == s.tasks[e.d := s'.tasks[e.d]] && Moves(host, s, s', t, s'.tasks[e.d])
  {
    hide Sound, Moves, Paths, Path;
    var s' := StepTask(host, s, t, e).value;
    var t' := s'.tasks[e.d];
    match e
    case Create(d, ok) =>
      if ok {
        CreateMoves(host, s, d, t);
      } else {
        QuietStep(host, s, t, e);
      }
    case Truncate(d, ok) =>
      if ok {
        FileStep(host, s, t, e);
      } else {
        QuietStep(host, s, t, e);
      }
    case Copy(_) => FileStep(host, s, t, e);
    case Undo(_) => FileStep(host, s, t, e);
    case FreeOne(_, _) => FileStep(host, s, t, e);
    case WorkerMakes(d, path, f) => MakesMoves(host, s, d, t, path, f);
    case Collect(d, path) => CollectMoves(host, s, d, t, path);
    case _ => QuietStep(host, s, t, e);
  }

  lemma QuietStep(host: Host, s: State, t: Task, e: Event)
    requires e.d in s.tasks && s.tasks[e.d] == t && Sound(host, s.files, t) && StepTask(host, s, t, e).Some?
    requires e.Take? || e.Mmap? || e.BeginFree? || e.Finish? || ((e.Create? || e.Truncate?) && !e.ok)
    requires forall c <- Numbers(t) :: c <= s.counter
    ensures var s' := StepTask(host, s, t, e).value;
            s'.tasks == s.tasks[e.d := s'.tasks[e.d]] && Moves(host, s, s', t, s'.tasks[e.d])
  {
    var s' := StepTask(host, s, t, e).value;
    hide Moves, Paths, Path;
    assert t.blocks.Keys !! Pending(t.doing) && (t.doing.Done? ==> t.blocks == map[]);
    hide Sound;
    assert e.Take? ==> s.counter + 1 !in t.blocks.Keys by {
      assert forall c <- t.blocks.Keys :: c in Numbers(t);
    }
    QuietMoves(host, s, s', t, s'.tasks[e.d]);
  }

  lemma FileStep(host: Host, s: State, t: Task, e: Event)
    requires e.d in s.tasks && s.tasks[e.d] == t && Sound(host, s.files, t) && StepTask(host, s, t, e).Some?
    requires (e.Truncate? && e.ok) || e.Copy? || e.Undo? || e.FreeOne?
    ensures var s' := StepTask(host, s, t, e).value;
            s'.tasks == s.tasks[e.d := s'.tasks[e.d]] && Moves(host, s, s', t, s'.tasks[e.d])
  {
    var s' := StepTask(host, s, t, e).value;
    var t' := s'.tasks[e.d];
    hide Moves, Paths, Path;
    match e
    case Truncate(_, _) =>
      WriteMoves(host, s, s', t, t', t.doing.c, File(Zeros(|t.doing.data|), true, true));
    case Copy(_) =>
      WriteMoves(host, s, s', t, t', t.doing.c, File(t.doing.data, true, true));
    case Undo(_) =>
      RemoveMoves(host, s, s', t, t', t.doing.c);
    case FreeOne(_, c) =>
      RemoveMoves(host, s, s', t, t', c);
  }

  lemma {:induction false} InvRun(host: Host, base: map<string, File>, s: State, es: seq<Event>)
    requires Inv(host, base, s) && Run(host, s, es).Some?
    ensures Inv(host, base, Run(host, s, es).value)
    decreases |es|
  {
    if es != [] {
      InvNext(host, base, s, es[0]);
      InvRun(host, base, Next(host, s, es[0]).value, es[1..]);
    }
  }

  // ---------------------------------------------------------------- what the blocks hold

  // The allocations begun in a run, in order: by whom, and with which bytes.
  function Takes(es: seq<Event>): seq<(TaskId, bytes)> {
    if es == [] then [] else Taking(es[0]) + Takes(es[1..])
  }

  function Taking(e: Event): seq<(TaskId, bytes)> { if e.Take? then [(e.d, e.data)] else [] }

  // Allocation c, counted from n, was task d's, with these bytes.
  predicate Took(n: nat, past: seq<(TaskId, bytes)>, d: TaskId, c: nat, data: bytes) {
    n < c <= n + |past| && past[c - n - 1] == (d, data)
  }

  predicate Holding(n: nat, past: seq<(TaskId, bytes)>, d: TaskId, t: Task) {
    && (t.doing.Named? || t.doing.Opened? || t.doing.Sized? || t.doing.Mapped? ==>
          Took(n, past, d, t.doing.c, t.doing.data))
    && (forall c <- t.blocks :: Took(n, past, d, c, t.blocks[c]))
  }

  ghost predicate Recorded(n: nat, past: seq<(TaskId, bytes)>, s: State) {
    s.counter == n + |past| && forall d <- s.tasks :: Holding(n, past, d, s.tasks[d])
  }

  lemma RecordedNext(host: Host, n: nat, past: seq<(TaskId, bytes)>, s: State, e: Event)
    requires Recorded(n, past, s) && Next(host, s, e).Some?
    ensures Recorded(n, past + Taking(e), Next(host, s, e).value)
  {
    hide StepTask, Took;
    if e.d in s.tasks {
      assert Holding(n, past, e.d, s.tasks[e.d]);
      HoldingStep(host, n, past, s, s.tasks[e.d], e);
    }
    forall d | d in s.tasks ensures Holding(n, past + Taking(e), d, s.tasks[d]) {
      assert Holding(n, past, d, s.tasks[d]);
      StillHolding(n, past, e, d, s.tasks[d]);
    }
  }

  lemma StillHolding(n: nat, past: seq<(TaskId, bytes)>, e: Event, d: TaskId, t: Task)
    requires Holding(n, past, d, t)
    ensures Holding(n, past + Taking(e), d, t)
  {
  }

  lemma HoldingStep(host: Host, n: nat, past: seq<(TaskId, bytes)>, s: State, t: Task, e: Event)
    requires e.d in s.tasks && s.tasks[e.d] == t && s.counter == n + |past|
    requires Holding(n, past, e.d, t) && StepTask(host, s, t, e).Some?
    ensures var s' := StepTask(host, s, t, e).value;
            && s'.tasks == s.tasks[e.d := s'.tasks[e.d]] && s'.counter == n + |past + Taking(e)|
            && Holding(n, past + Taking(e), e.d, s'.tasks[e.d])
  {
    StillHolding(n, past, e, e.d, t);
    hide Path, Removed;
  }

  lemma {:induction false} RecordedRun(host: Host, n: nat, past: seq<(TaskId, bytes)>, s: State, es: seq<Event>)
    requires Recorded(n, past, s) && Run(host, s, es).Some?
    ensures Recorded(n, past + Takes(es), Run(host, s, es).value)
    decreases |es|
  {
    hide Next, Recorded, Taking;
    if es == [] {
      assert past + Takes(es) == past;
    } else {
      RecordedNext(host, n, past, s, es[0]);
      RecordedRun(host, n, past + Taking(es[0]), Next(host, s, es[0]).value, es[1..]);
      assert past + Takes(es) == past + Taking(es[0]) + Takes(es[1..]);
    }
  }

  // ---------------------------------------------------------------- over all runs

  // However the dispatches interleave, and whichever of their system calls fail,
  // a stored block keeps its bytes until its own dispatch frees it, no two
  // dispatches use one file, and no file that was there is touched.
  lemma BlocksKept(host: Host, base: map<string, File>, n: nat, es: seq<Event>)
    requires Run(host, State(base, n, map[]), es).Some?
    ensures var s := Run(host, State(base, n, map[]), es).value;
            && (forall d <- s.tasks, c <- s.tasks[d].blocks ::
                  Path(host, c) in s.files && s.files[Path(host, c)].content == s.tasks[d].blocks[c])
            && (forall d <- s.tasks, e <- s.tasks :: d != e ==> Paths(host, s.tasks[d]) !! Paths(host, s.tasks[e]))
            && (forall p <- base :: p in s.files && s.files[p] == base[p])
  {
    InvRun(host, base, State(base, n, map[]), es);
    var s := Run(host, State(base, n, map[]), es).value;
    forall d, c | d in s.tasks && c in s.tasks[d].blocks
      ensures Path(host, c) in s.files && s.files[Path(host, c)].content == s.tasks[d].blocks[c]
    {
      assert TaskInv(host, base, s, s.tasks[d]) && c in Held(s.tasks[d]);
      assert Path(host, c) in Paths(host, s.tasks[d]);
    }
    forall d, e | d in s.tasks && e in s.tasks && d != e
      ensures Paths(host, s.tasks[d]) !! Paths(host, s.tasks[e])
    {
      assert Apart(host, s.tasks[d], s.tasks[e]);
    }
  }

  // A file the worker made that cannot be read, or cannot be removed, is never
  // collected: it is there, as it was, in all that follows.
  lemma {:induction false} UncollectedStays(host: Host, base: map<string, File>, s: State, es: seq<Event>, d: TaskId,
                                            p: string)
    requires Inv(host, base, s) && Run(host, s, es).Some?
    requires d in s.tasks && p in s.tasks[d].made && p in s.files && !(s.files[p].readable && s.files[p].removable)
    ensures var t := Run(host, s, es).value;
            d in t.tasks && p in t.tasks[d].made && p in t.files && t.files[p] == s.files[p]
    decreases |es|
  {
    hide Next, Inv;
    if es != [] {
      InvNext(host, base, s, es[0]);
      MadeStays(host, base, s, es[0], d, p);
      UncollectedStays(host, base, Next(host, s, es[0]).value, es[1..], d, p);
    }
  }

  lemma MadeStays(host: Host, base: map<string, File>, s: State, e: Event, d: TaskId, p: string)
    requires Inv(host, base, s) && Next(host, s, e).Some?
    requires d in s.tasks && p in s.tasks[d].made && p in s.files && !(s.files[p].readable && s.files[p].removable)
    ensures var t := Next(host, s, e).value;
            d in t.tasks && p in t.tasks[d].made && p in t.files && t.files[p] == s.files[p]
  {
    hide StepTask, Sound, Numbers, Covered, Moves, Path;
    if !e.Start? {
      assert TaskInv(host, base, s, s.tasks[e.d]);
      if e.d == d {
        OwnStays(host, s, s.tasks[d], e, p);
      } else {
        StepMoves(host, s, s.tasks[e.d], e);
        assert Apart(host, s.tasks[d], s.tasks[e.d]);
        OthersLeave(host, s, StepTask(host, s, s.tasks[e.d], e).value, s.tasks[e.d],
                    StepTask(host, s, s.tasks[e.d], e).value.tasks[e.d], p);
      }
    }
  }

  lemma OthersLeave(host: Host, s: State, s': State, t: Task, t': Task, p: string)
    requires Moves(host, s, s', t, t') && p in s.files && p !in Paths(host, t)
    ensures p in s'.files && s'.files[p] == s.files[p]
  {
    hide Sound, Numbers, Paths;
  }

  lemma OwnStays(host: Host, s: State, t: Task, e: Event, p: string)
    requires e.d in s.tasks && s.tasks[e.d] == t && Sound(host, s.files, t) && StepTask(host, s, t, e).Some?
    requires p in t.made && p in s.files && !(s.files[p].readable && s.files[p].removable)
    ensures var s' := StepTask(host, s, t, e).value;
            && s'.tasks == s.tasks[e.d := s'.tasks[e.d]]
            && p in s'.tasks[e.d].made && p in s'.files && s'.files[p] == s.files[p]
  {
    hide Path, Paths;
  }

  // A live block's file holds the bytes its own dispatch asked to have stored when it
  // took the block's number.
  lemma BlocksHoldTheirBytes(host: Host, base: map<string, File>, n: nat, es: seq<Event>, d: TaskId, c: nat)
    requires Run(host, State(base, n, map[]), es).Some?
    requires var s := Run(host, State(base, n, map[]), es).value; d in s.tasks && c in s.tasks[d].blocks
    ensures var s := Run(host, State(base, n, map[]), es).value;
            && Path(host, c) in s.files && n < c <= n + |Takes(es)|
            && Takes(es)[c - n - 1] == (d, s.files[Path(host, c)].content)
  {
    hide Next, Takes;
    BlocksKept(host, base, n, es);
    RecordedRun(host, n, [], State(base, n, map[]), es);
    assert [] + Takes(es) == Takes(es);
    var s := Run(host, State(base, n, map[]), es).value;
    assert Holding(n, Takes(es), d, s.tasks[d]);
  }


  // When every dispatch has returned, the directory is what it was plus exactly
  // the files their workers made that were not collected.
  lemma DirectoryRestored(host: Host, base: map<string, File>, n: nat, es: seq<Event>)
    requires Run(host, State(base, n, map[]), es).Some?
    requires var s := Run(host, State(base, n, map[]), es).value;
             forall d <- s.tasks :: s.tasks[d].doing.Done?
    ensures var s := Run(host, State(base, n, map[]), es).value;
            && (forall p :: p in s.files <==> p in base || exists d :: d in s.tasks && p in s.tasks[d].made)
            && (s.files == base <==> forall d <- s.tasks :: s.tasks[d].made == {})
  {
    InvRun(host, base, State(base, n, map[]), es);
    var s := Run(host, State(base, n, map[]), es).value;
    forall d | d in s.tasks
      ensures Paths(host, s.tasks[d]) == s.tasks[d].made && s.tasks[d].made <= s.files.Keys - base.Keys
    {
      assert TaskInv(host, base, s, s.tasks[d]);
    }
  }
}
