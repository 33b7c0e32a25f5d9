/** Shared-memory blocks: the file system calls behind one allocation, with
    their clean-ups, and the manager that tracks the blocks of one dispatch. */
module Shm {
  import opened Framing
  import opened Wrappers

  // A file of the shm directory. Other processes may have made files this one
  // cannot read or remove.
  datatype File = File(content: bytes, readable: bool, removable: bool)

  datatype DevShm = Directory | OtherKind | Missing

  datatype Block = Block(name: string, size: nat)

  datatype ShmError = CreateFailed | TruncateFailed | MmapFailed

  function Zeros(n: nat): bytes { seq(n, i => 0) }

  // ---------------------------------------------------------------- names

  function Decimal(n: nat): (s: string)
    ensures s != []
  {
    if n < 10 then ["0123456789"[n]] else Decimal(n / 10) + ["0123456789"[n % 10]]
  }

  lemma {:induction false} DecimalInjective(m: nat, n: nat)
    requires Decimal(m) == Decimal(n)
    ensures m == n
  {
    var s, t := Decimal(m), Decimal(n);
    DigitsDiffer(m % 10, n % 10);
    if m >= 10 && n >= 10 {
      assert Decimal(m / 10) == s[..|s| - 1] == t[..|t| - 1] == Decimal(n / 10);
      DecimalInjective(m / 10, n / 10);
      assert s[|s| - 1] == "0123456789"[m % 10] && t[|t| - 1] == "0123456789"[n % 10];
    } else if m < 10 && n < 10 {
      assert s[0] == "0123456789"[m] && t[0] == "0123456789"[n];
    }
  }

  lemma DigitsDiffer(i: nat, j: nat)
    requires i < 10 && j < 10
    ensures "0123456789"[i] == "0123456789"[j] <==> i == j
  {
  }

  // The process, as far as shared memory goes: the files it sees by path, the
  // descriptors and mappings it holds, and the allocation counter.
  class Host {
    const devShm: DevShm
    const tmp: string
    const tag: string            // "<pid>-<6 hex>"
    var files: map<string, File>
    var open: nat
    var mapped: nat
    var counter: nat
    ghost var failures: nat      // system calls that failed

    constructor (devShm: DevShm, tmp: string, tag: string, files: map<string, File>)
      ensures this.devShm == devShm && this.tmp == tmp && this.tag == tag
      ensures this.files == files && open == mapped == counter == failures == 0
    {
      this.devShm, this.tmp, this.tag, this.files := devShm, tmp, tag, files;
      open, mapped, counter, failures := 0, 0, 0, 0;
    }

    function Name(c: nat): string { "chr-" + tag + "-" + Decimal(c) }

    // Where allocShm and freeShm put a block.
    function BlockPath(name: string): string {
      (if devShm.Directory? then "/dev/shm/" else tmp + "/") + name
    }

    // Where the worker is told to look for it.
    function FilePath(name: string): string {
      (if !devShm.Missing? then "/dev/shm/" else tmp + "/") + name
    }

    // open(O_CREATE|O_EXCL)
    method Create(path: string) returns (ok: bool)
      modifies this`files, this`open, this`failures
      ensures failures == old(failures) + if ok then 0 else 1
      ensures path in old(files) ==> !ok
      ensures ok ==> path !in old(files) && files == old(files)[path := File([], true, true)] && open == old(open) + 1
      ensures !ok ==> files == old(files) && open == old(open)
    {
      var refused: bool := *;
      ok := !refused && path !in files;
      if ok {
        files, open := files[path := File([], true, true)], open + 1;
      } else {
        failures := failures + 1;
      }
    }

    method Truncate(path: string, n: nat) returns (ok: bool)
      requires path in files
      modifies this`files, this`failures
      ensures failures == old(failures) + if ok then 0 else 1
      ensures ok ==> files == old(files)[path := old(files)[path].(content := Resized(old(files)[path].content, n))]
      ensures !ok ==> files == old(files)
    {
      ok := *;
      if ok {
        files := files[path := files[path].(content := Resized(files[path].content, n))];
      } else {
        failures := failures + 1;
      }
    }

    // A mapping of no bytes is refused.
    method Mmap(n: nat) returns (ok: bool)
      modifies this`mapped, this`failures
      ensures failures == old(failures) + if ok then 0 else 1
      ensures ok ==> n > 0 && mapped == old(mapped) + 1
      ensures !ok ==> mapped == old(mapped)
    {
      var refused: bool := *;
      ok := !refused && n > 0;
      if ok {
        mapped := mapped + 1;
      } else {
        failures := failures + 1;
      }
    }

    method Munmap()
      requires mapped > 0
      modifies this`mapped
      ensures mapped == old(mapped) - 1
    {
      mapped := mapped - 1;
    }

    method Close()
      requires open > 0
      modifies this`open
      ensures open == old(open) - 1
    {
      open := open - 1;
    }

    // os.Remove, its error ignored by every caller.
    method Remove(path: string)
      modifies this`files
      ensures files == Removed(old(files), path)
    {
      files := Removed(files, path);
    }

    // Writing through the shared mapping of the file.
    method Store(path: string, data: bytes)
      requires path in files && |data| <= |files[path].content|
      modifies this`files
      ensures files == old(files)[path := old(files)[path].(content := data + old(files)[path].content[|data|..])]
    {
      files := files[path := files[path].(content := data + files[path].content[|data|..])];
    }

    method ReadFile(path: string) returns (r: Option<bytes>)
      ensures r == Readable(files, path)
    {
      r := Readable(files, path);
    }
  }

  function Resized(content: bytes, n: nat): bytes {
    if n <= |content| then content[..n] else content + Zeros(n - |content|)
  }

  function Removed(files: map<string, File>, path: string): map<string, File> {
    if path in files && files[path].removable then files - {path} else files
  }

  function Readable(files: map<string, File>, path: string): Option<bytes> {
    if path in files && files[path].readable then Some(files[path].content) else None
  }

  // Allocations of one process get different files.
  lemma NamesDistinct(host: Host, c: nat, d: nat)
    requires c != d
    ensures host.Name(c) != host.Name(d)
    ensures host.BlockPath(host.Name(c)) != host.BlockPath(host.Name(d))
  {
    var prefix := "chr-" + host.tag + "-";
    if host.BlockPath(host.Name(c)) == host.BlockPath(host.Name(d)) {
      SamePathSameName(host, host.Name(c), host.Name(d));
    }
    if host.Name(c) == host.Name(d) {
      assert Decimal(c) == host.Name(c)[|prefix|..] == host.Name(d)[|prefix|..] == Decimal(d);
      DecimalInjective(c, d);
    }
  }

  lemma SamePathSameName(host: Host, a: string, b: string)
    requires host.BlockPath(a) == host.BlockPath(b)
    ensures a == b
  {
    var dir := if host.devShm.Directory? then "/dev/shm/" else host.tmp + "/";
    assert a == host.BlockPath(a)[|dir|..] && b == host.BlockPath(b)[|dir|..];
  }

  // The worker is sent to the block's own file, unless something other than a
  // directory sits at /dev/shm: the two helpers test for it differently.
  lemma PathsAgree(host: Host, name: string)
    ensures host.BlockPath(name) == host.FilePath(name) <==> !host.devShm.OtherKind? || host.tmp == "/dev/shm"
  {
    if host.devShm.OtherKind? {
      assert host.BlockPath(name)[|host.BlockPath(name)| - |name|..] == name;
      if host.BlockPath(name) == host.FilePath(name) {
        assert host.tmp == host.BlockPath(name)[..|host.tmp|] == host.FilePath(name)[..|"/dev/shm"|];
      }
    }
  }

  // ---------------------------------------------------------------- one block

  // Create, size and map a file. It fails exactly when one of these calls does,
  // and then undoes the ones before.
  method AllocShm(host: Host, nbytes: nat) returns (r: Result<string, ShmError>)
    modifies host
    ensures host.counter == old(host.counter) + 1
    ensures host.failures == old(host.failures) + if r.Ok? then 0 else 1
    ensures r.Ok? ==>
              && nbytes > 0 && r.value == host.Name(host.counter)
              && host.BlockPath(r.value) !in old(host.files)
              && host.files == old(host.files)[host.BlockPath(r.value) := File(Zeros(nbytes), true, true)]
              && host.open == old(host.open) + 1 && host.mapped == old(host.mapped) + 1
    ensures r.Err? ==> host.files == old(host.files) && host.open == old(host.open) && host.mapped == old(host.mapped)
    ensures nbytes == 0 ==> r.Err?
    ensures r.Ok? ==>
              var data := host.files[host.BlockPath(r.value)].content; |data| == nbytes && forall b <- data :: b == 0
  {
    host.counter := host.counter + 1;
    var name := host.Name(host.counter);
    var path := host.BlockPath(name);
    var ok := host.Create(path);
    if !ok {
      return Err(CreateFailed);
    }
    ok := host.Truncate(path, nbytes);
    if !ok {
      host.Close();
      host.Remove(path);
      return Err(TruncateFailed);
    }
    assert host.files[path].content == Zeros(nbytes);
    ok := host.Mmap(nbytes);
    if !ok {
      host.Close();
      host.Remove(path);
      return Err(MmapFailed);
    }
    return Ok(name);
  }

  method FreeShm(host: Host, blk: Block)
    requires host.mapped > 0 && host.open > 0
    modifies host
    ensures host.files == Removed(old(host.files), host.BlockPath(blk.name))
    ensures host.mapped == old(host.mapped) - 1 && host.open == old(host.open) - 1
    ensures host.counter == old(host.counter) && host.failures == old(host.failures)
  {
    host.Munmap();
    host.Close();
    host.Remove(host.BlockPath(blk.name));
  }

  // ---------------------------------------------------------------- the manager

  // The files behind a table of blocks.
  function PathsOf(host: Host, blocks: map<nat, Block>): set<string> {
    set h | h in blocks :: host.BlockPath(blocks[h].name)
  }

  // Each block of the table has a file of its own, which this process may remove.
  ghost predicate Backed(host: Host, files: map<string, File>, blocks: map<nat, Block>) {
    && (forall h <- blocks :: host.BlockPath(blocks[h].name) in files)
    && (forall h <- blocks :: files[host.BlockPath(blocks[h].name)].removable)
    && (forall h, k | h in blocks && k in blocks && blocks[h].name == blocks[k].name :: h == k)
  }

  lemma AddBlock(host: Host, files: map<string, File>, blocks: map<nat, Block>, h: nat, blk: Block, f: File)
    requires Backed(host, files, blocks) && host.BlockPath(blk.name) !in files && f.removable
    ensures Backed(host, files[host.BlockPath(blk.name) := f], blocks[h := blk])
    ensures |blocks[h := blk]| <= |blocks| + 1
    ensures h !in blocks ==> |blocks[h := blk]| == |blocks| + 1
  {
    assert blocks[h := blk].Keys == blocks.Keys + {h};
    assert |blocks.Keys + {h}| <= |blocks.Keys| + 1;
    assert |blocks[h := blk]| == |blocks[h := blk].Keys| && |blocks| == |blocks.Keys|;
  }

  // Taking one block out of a table takes exactly its file out.
  lemma DropBlock(host: Host, files: map<string, File>, blocks: map<nat, Block>, h: nat)
    requires Backed(host, files, blocks) && h in blocks
    ensures var p := host.BlockPath(blocks[h].name);
            && Removed(files, p) == files - {p}
            && p in PathsOf(host, blocks)
            && PathsOf(host, blocks - {h}) == PathsOf(host, blocks) - {p}
            && Backed(host, files - {p}, blocks - {h})
            && |blocks - {h}| == |blocks| - 1
  {
    OtherPaths(host, files, blocks, h);
    PathsWithout(host, blocks, h);
    Fewer(blocks, h);
    hide PathsOf;
  }

  lemma PathsWithout(host: Host, blocks: map<nat, Block>, h: nat)
    requires h in blocks
    requires forall k <- blocks - {h} :: host.BlockPath(blocks[k].name) != host.BlockPath(blocks[h].name)
    ensures var p := host.BlockPath(blocks[h].name);
            p in PathsOf(host, blocks) && PathsOf(host, blocks - {h}) == PathsOf(host, blocks) - {p}
  {
    hide Host.BlockPath;
    var p, rest := host.BlockPath(blocks[h].name), blocks - {h};
    forall q ensures q in PathsOf(host, rest) <==> q in PathsOf(host, blocks) && q != p {
      if q in PathsOf(host, blocks) && q != p {
        var k :| k in blocks && q == host.BlockPath(blocks[k].name);
        assert k in rest && rest[k] == blocks[k];
      }
    }
  }

  lemma Fewer(blocks: map<nat, Block>, h: nat)
    requires h in blocks
    ensures |blocks - {h}| == |blocks| - 1
  {
    var rest := blocks - {h};
    assert blocks.Keys == rest.Keys + {h};
    assert |rest.Keys| == |rest| && |blocks.Keys| == |blocks|;
  }

  lemma OtherPaths(host: Host, files: map<string, File>, blocks: map<nat, Block>, h: nat)
    requires Backed(host, files, blocks) && h in blocks
    ensures forall k <- blocks - {h} :: host.BlockPath(blocks[k].name) != host.BlockPath(blocks[h].name)
  {
    forall k | k in blocks && k != h ensures host.BlockPath(blocks[k].name) != host.BlockPath(blocks[h].name) {
      if host.BlockPath(blocks[k].name) == host.BlockPath(blocks[h].name) {
        SamePathSameName(host, blocks[k].name, blocks[h].name);
      }
    }
  }

  // Handles are the allocation numbers, cut to 32 bits.
  ghost predicate Numbered(nextH: nat, allocs: nat, blocks: map<nat, Block>) {
    && nextH == allocs % U32
    && (forall h <- blocks :: h < U32 && (allocs < U32 ==> h < allocs))
  }

  lemma NextHandle(nextH: nat, allocs: nat, blocks: map<nat, Block>, blk: Block)
    requires Numbered(nextH, allocs, blocks)
    ensures Numbered((nextH + 1) % U32, allocs + 1, blocks[nextH := blk])
    ensures allocs < U32 ==> nextH !in blocks
  {
    assert allocs % U32 < U32;
  }

  // The blocks after n allocations and no Free: allocation i made blk(i).
  function Allocated(blk: nat -> Block, n: nat): map<nat, Block> {
    if n == 0 then map[] else Allocated(blk, n - 1)[(n - 1) % U32 := blk(n - 1)]
  }

  // The last 2^32 allocations are there, under their numbers modulo 2^32.
  lemma {:induction false} AllocatedAt(blk: nat -> Block, n: nat, i: nat)
    requires i < n <= i + U32
    ensures i % U32 in Allocated(blk, n) && Allocated(blk, n)[i % U32] == blk(i)
    decreases n
  {
    if i < n - 1 {
      AllocatedAt(blk, n - 1, i);
      OtherResidue(i, n - 1);
    }
  }

  lemma SameResidue(i: nat)
    ensures (i + U32) % U32 == i % U32
  {
  }

  lemma OtherResidue(i: nat, j: nat)
    requires i < j < i + U32
    ensures i % U32 != j % U32
  {
    assert i == i / U32 * U32 + i % U32 && j == j / U32 * U32 + j % U32;
  }

  // And nothing else.
  lemma {:induction false} AllocatedOnly(blk: nat -> Block, n: nat, h: nat)
    requires h in Allocated(blk, n)
    ensures h < U32 && h < n && exists i: nat :: i < n <= i + U32 && h == i % U32 && Allocated(blk, n)[h] == blk(i)
    decreases n
  {
    if h == (n - 1) % U32 {
      assert n - 1 < n <= n - 1 + U32;
    } else {
      AllocatedOnly(blk, n - 1, h);
      var i: nat :| i < n - 1 <= i + U32 && h == i % U32 && Allocated(blk, n - 1)[h] == blk(i);
      SameResidue(i);
    }
  }

  // From the 2^32nd allocation on, and only then, the next handle is that of a live
  // block, and the allocation takes it out of the table: FreeAll will not free it.
  lemma HandleReused(blk: nat -> Block, n: nat)
    requires forall i: nat, j: nat | i != j :: blk(i) != blk(j)
    ensures n % U32 in Allocated(blk, n) <==> n >= U32
    ensures n >= U32 ==>
              && Allocated(blk, n)[n % U32] == blk(n - U32)
              && blk(n - U32) !in Allocated(blk, n + 1).Values
  {
    hide Allocated;
    if n % U32 in Allocated(blk, n) {
      AllocatedOnly(blk, n, n % U32);
    }
    if n >= U32 {
      AllocatedAt(blk, n, n - U32);
      SameResidue(n - U32);
      TooOld(blk, n + 1, n - U32);
    }
  }

  lemma TooOld(blk: nat -> Block, n: nat, i: nat)
    requires forall i: nat, j: nat | i != j :: blk(i) != blk(j)
    requires i + U32 < n
    ensures blk(i) !in Allocated(blk, n).Values
  {
    hide Allocated;
    var m := Allocated(blk, n);
    forall h | h in m ensures m[h] != blk(i) {
      AllocatedOnly(blk, n, h);
    }
  }

  // Its file then outlives the manager.
  lemma LostBlockStays(host: Host, files: map<string, File>, blocks: map<nat, Block>, h: nat, blk: Block, f: File)
    requires Backed(host, files, blocks) && h in blocks && host.BlockPath(blk.name) !in files
    ensures var p := host.BlockPath(blocks[h].name);
            p in files[host.BlockPath(blk.name) := f] - PathsOf(host, blocks[h := blk])
  {
    OtherPaths(host, files, blocks, h);
    var p := host.BlockPath(blocks[h].name);
    forall k | k in blocks && k != h ensures host.BlockPath(blocks[k].name) != p {
      assert k in blocks - {h} && (blocks - {h})[k] == blocks[k];
    }
  }

  class ShmManager {
    const host: Host
    var blocks: map<nat, Block>
    var nextH: nat
    ghost var allocs: nat        // allocations so far

    constructor (host: Host)
      ensures this.host == host && blocks == map[] && nextH == allocs == 0 && Valid()
    {
      this.host, blocks, nextH, allocs := host, map[], 0, 0;
    }

    ghost predicate Valid()
      reads this, host
    {
      && Numbered(nextH, allocs, blocks) && Backed(host, host.files, blocks)
      && |blocks| <= host.open && |blocks| <= host.mapped
    }

    method Alloc(nbytes: nat) returns (r: Result<nat, ShmError>)
      requires Valid()
      modifies this, host
      ensures Valid()
      ensures host.counter == old(host.counter) + 1
      ensures host.failures == old(host.failures) + if r.Ok? then 0 else 1
      ensures r.Err? ==>
                && blocks == old(blocks) && allocs == old(allocs) && nextH == old(nextH)
                && host.files == old(host.files) && host.open == old(host.open) && host.mapped == old(host.mapped)
      ensures r.Ok? ==>
                && nbytes > 0 && r.value == old(nextH) && allocs == old(allocs) + 1
                && (old(allocs) < U32 ==> r.value !in old(blocks) && |blocks| == |old(blocks)| + 1)
                && var name := host.Name(host.counter);
                && host.BlockPath(name) !in old(host.files)
                && blocks == old(blocks)[r.value := Block(name, nbytes)]
                && host.files == old(host.files)[host.BlockPath(name) := File(Zeros(nbytes), true, true)]
                && host.open == old(host.open) + 1 && host.mapped == old(host.mapped) + 1
    {
      hide Backed, Numbered;
      var a := AllocShm(host, nbytes);
      if a.Err? {
        return Err(a.error);
      }
      var h := nextH;
      NextHandle(nextH, allocs, blocks, Block(a.value, nbytes));
      AddBlock(host, old(host.files), blocks, h, Block(a.value, nbytes), File(Zeros(nbytes), true, true));
      nextH := (nextH + 1) % U32;
      allocs := allocs + 1;
      blocks := blocks[h := Block(a.value, nbytes)];
      return Ok(h);
    }

    method Get(h: nat) returns (r: Option<Block>)
      ensures r == if h in blocks then Some(blocks[h]) else None
    {
      r := if h in blocks then Some(blocks[h]) else None;
    }

    method Free(h: nat)
      requires Valid()
      modifies this, host
      ensures Valid() && blocks == old(blocks) - {h}
      ensures h !in old(blocks) ==>
                host.files == old(host.files) && host.open == old(host.open) && host.mapped == old(host.mapped)
      ensures h in old(blocks) ==>
                && host.files == old(host.files) - {host.BlockPath(old(blocks)[h].name)}
                && host.open == old(host.open) - 1 && host.mapped == old(host.mapped) - 1
    {
      if h in blocks {
        var blk := blocks[h];
        DropBlock(host, host.files, blocks, h);
        blocks := blocks - {h};
        FreeShm(host, blk);
      }
    }

    // Every live block is freed exactly once: its file goes, and one descriptor
    // and one mapping with it; nothing else is touched.
    method FreeAll()
      requires Valid()
      modifies this, host
      ensures Valid() && blocks == map[] && nextH == old(nextH) && allocs == old(allocs)
      ensures host.files == old(host.files) - PathsOf(host, old(blocks))
      ensures host.open == old(host.open) - |old(blocks)|
      ensures host.mapped == old(host.mapped) - |old(blocks)|
      ensures host.counter == old(host.counter) && host.failures == old(host.failures)
    {
      hide Backed, PathsOf, Removed, Remaining;
      var todo := blocks;
      blocks := map[];
      AllRemain(host, host.files, todo);
      while todo != map[]
        invariant Backed(host, host.files, todo)
        invariant host.files == Remaining(host, old(host.files), old(blocks), todo)
        invariant PathsOf(host, todo) <= PathsOf(host, old(blocks))
        invariant host.open == old(host.open) - |old(blocks)| + |todo|
        invariant host.mapped == old(host.mapped) - |old(blocks)| + |todo|
        invariant host.counter == old(host.counter) && host.failures == old(host.failures)
        decreases |todo|
        modifies host
      {
        var h :| h in todo;
        OneFreed(host, old(host.files), old(blocks), todo, h);
        FreeShm(host, todo[h]);
        todo := todo - {h};
      }
      NoneRemain(host, old(host.files), old(blocks));
    }
  }

  // The files while FreeAll still has to free `todo` of all its blocks.
  function Remaining(host: Host, files: map<string, File>, all: map<nat, Block>, todo: map<nat, Block>)
    : map<string, File>
  {
    files - (PathsOf(host, all) - PathsOf(host, todo))
  }

  lemma AllRemain(host: Host, files: map<string, File>, all: map<nat, Block>)
    ensures Remaining(host, files, all, all) == files
  {
  }

  lemma NoneRemain(host: Host, files: map<string, File>, all: map<nat, Block>)
    ensures Remaining(host, files, all, map[]) == files - PathsOf(host, all)
    ensures Backed(host, files - PathsOf(host, all), map[])
  {
    assert PathsOf(host, all) - PathsOf(host, map[]) == PathsOf(host, all);
  }

  lemma OneFreed(host: Host, files: map<string, File>, all: map<nat, Block>, todo: map<nat, Block>, h: nat)
    requires Backed(host, Remaining(host, files, all, todo), todo) && h in todo
    requires PathsOf(host, todo) <= PathsOf(host, all)
    ensures var p := host.BlockPath(todo[h].name);
            && Removed(Remaining(host, files, all, todo), p) == Remaining(host, files, all, todo - {h})
            && Backed(host, Remaining(host, files, all, todo - {h}), todo - {h})
            && PathsOf(host, todo - {h}) <= PathsOf(host, all)
            && |todo - {h}| == |todo| - 1
  {
    hide Backed, PathsOf;
    var p, fs := host.BlockPath(todo[h].name), Remaining(host, files, all, todo);
    DropBlock(host, fs, todo, h);
    GoneSoFar(files, PathsOf(host, all), PathsOf(host, todo), p);
  }

  lemma GoneSoFar(files: map<string, File>, all: set<string>, left: set<string>, p: string)
    requires p in left && left <= all
    ensures files - (all - left) - {p} == files - (all - (left - {p}))
  {
    assert all - (left - {p}) == (all - left) + {p};
  }
}
