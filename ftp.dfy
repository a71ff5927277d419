/**
 * The SFTP-backed cache backend (`ftpBackend`). The sftp client it drives is
 * modelled as a remote file tree: a map from path to content, a set of
 * directories, the handles currently open and the log of calls received.
 * Paths are the strings the backend passes; the server's own path
 * normalisation is not modelled.
 */
module Ftp {
  import opened Wrappers
  import opened GoPath
  import opened Strings

  type byte = b: int | 0 <= b < 256

  /**
   * What `io.Copy` obtains from the caller's `io.ReadSeeker`: the bytes read
   * from its current position, and whether reading stopped with an error
   * rather than at end of stream.
   */
  datatype Source = Source(data: seq<byte>, fails: bool)

  /** The open remote file `Get` hands back, with the bytes it reads. */
  datatype Reader = Reader(handle: nat, data: seq<byte>)

  datatype FtpError =
    | ObjectMissing(path: string)   // Stat before Open failed
    | OpenFailed(path: string)
    | DirFailed(dir: string)        // ensureDir's MkdirAll failed
    | CreateFailed(path: string)
    | CopyFailed(path: string)

  /** A request the backend sends to the sftp client. */
  datatype Call =
    | StatCall(path: string)
    | MkdirAllCall(path: string)
    | CreateCall(path: string)
    | OpenCall(path: string)
    | WriteCall(handle: nat, data: seq<byte>)
    | CloseCall(handle: nat)

  /** The abstract remote tree. */
  datatype Tree = Tree(files: map<string, seq<byte>>, dirs: set<string>)

  /** No path is both a regular file and a directory. */
  predicate WellFormed(t: Tree) { t.files.Keys !! t.dirs }

  /** `Stat(p)` succeeds. */
  predicate Exists(t: Tree, p: string) { p in t.files || p in t.dirs }

  /**
   * The directory sftp's MkdirAll makes first: `d` without its trailing
   * slashes and its last element, when more than a leading slash is left.
   */
  function MkdirParent(d: string): (q: Option<string>)
    ensures q.Some? ==> |q.value| < |d|
  {
    var trimmed := TrimRight(d, "/");
    var j := LastSlash(trimmed) + 1;
    if j > 1 then Some(d[..j - 1]) else None
  }

  /** `d` followed by the directories MkdirAll(d) recurses on, innermost first. */
  function MkdirPath(d: string): (path: seq<string>)
    ensures |path| > 0 && path[0] == d
    decreases |d|
  {
    match MkdirParent(d)
    case None => [d]
    case Some(q) => [d] + MkdirPath(q)
  }

  /**
   * sftp's `MkdirAll(d)` on the tree. When `d` exists it succeeds exactly if
   * it is a directory. Otherwise it first makes the parent, stopping at a
   * failure, then makes `d`; if that Mkdir finds `d` already there, the
   * answer is whether it is a directory. That last branch stands for the
   * library's Lstat fallback: with the tree keyed by raw strings it is never
   * taken, because the parent recursion adds only paths shorter than `d`.
   */
  function MkdirAllEffect(t: Tree, d: string): (r: (bool, Tree))
    requires WellFormed(t)
    ensures WellFormed(r.1) && r.1.files == t.files && t.dirs <= r.1.dirs
    ensures r.0 ==> d in r.1.dirs
    ensures forall x :: x in r.1.dirs && x !in t.dirs ==> x in MkdirPath(d)
    decreases |d|
  {
    if Exists(t, d) then (d in t.dirs, t)
    else
      var parent := match MkdirParent(d) case None => (true, t) case Some(q) => MkdirAllEffect(t, q);
      if !parent.0 then parent
      else if Exists(parent.1, d) then (d in parent.1.dirs, parent.1)
      else (true, parent.1.(dirs := parent.1.dirs + {d}))
  }

  /** No entry of MkdirPath(d) is a regular file. */
  predicate NoFileOnPath(t: Tree, d: string) {
    forall i :: 0 <= i < |MkdirPath(d)| ==> MkdirPath(d)[i] !in t.files
  }

  /** MkdirAll succeeds whenever nothing on its path is a regular file. */
  lemma {:induction false} MkdirAllSucceeds(t: Tree, d: string)
    requires WellFormed(t) && NoFileOnPath(t, d)
    ensures MkdirAllEffect(t, d).0
    decreases |d|
  {
    assert MkdirPath(d)[0] == d;
    if !Exists(t, d) {
      match MkdirParent(d)
      case None =>
      case Some(q) =>
        assert MkdirPath(d) == [d] + MkdirPath(q);
        assert forall i :: 0 <= i < |MkdirPath(q)| ==> MkdirPath(q)[i] == MkdirPath(d)[i + 1];
        MkdirAllSucceeds(t, q);
    }
  }

  /** `Create(p)` succeeds when the parent is a directory and `p` is not one. */
  predicate CreateOk(t: Tree, p: string) { Dir(p) in t.dirs && p !in t.dirs }

  /** `ensureDir(p)`: MkdirAll of the parent only when stating the parent fails. */
  function EnsureDirEffect(t: Tree, p: string): (r: (bool, Tree))
    requires WellFormed(t)
    ensures WellFormed(r.1) && r.1.files == t.files && t.dirs <= r.1.dirs
    ensures Exists(t, Dir(p)) ==> r == (true, t)
    ensures r.0 ==> Exists(r.1, Dir(p))
  {
    if Exists(t, Dir(p)) then (true, t) else MkdirAllEffect(t, Dir(p))
  }

  /** The calls `ensureDir(p)` makes. */
  function EnsureDirCalls(t: Tree, p: string): seq<Call> {
    if Exists(t, Dir(p)) then [StatCall(Dir(p))] else [StatCall(Dir(p)), MkdirAllCall(Dir(p))]
  }

  /**
   * Create(k), the copy of `src` into it and the deferred Close, on the tree
   * ensureDir left: the error and the tree after them. Create truncates, so
   * a created file holds exactly the bytes copied.
   */
  function CopyEffect(t: Tree, k: string, src: Source): (r: (Option<FtpError>, Tree))
    requires WellFormed(t)
    ensures WellFormed(r.1) && r.1.dirs == t.dirs
  {
    if !CreateOk(t, k) then (Some(CreateFailed(k)), t)
    else (if src.fails then Some(CopyFailed(k)) else None, t.(files := t.files[k := src.data]))
  }

  /**
   * The calls of that step when Create would hand out handle `h`: the write
   * and the Close only if Create succeeded.
   */
  function CopyCalls(t: Tree, k: string, src: Source, h: nat): seq<Call> {
    if !CreateOk(t, k) then [CreateCall(k)] else [CreateCall(k), WriteCall(h, src.data), CloseCall(h)]
  }

  /** `Put(k, src)` on the tree: the error it returns and the tree it leaves. */
  function PutEffect(t: Tree, k: string, src: Source): (r: (Option<FtpError>, Tree))
    requires WellFormed(t)
    ensures WellFormed(r.1) && t.dirs <= r.1.dirs
  {
    var ensured := EnsureDirEffect(t, k);
    if !ensured.0 then (Some(DirFailed(Dir(k))), ensured.1) else CopyEffect(ensured.1, k, src)
  }

  /**
   * The calls `Put(k, src)` makes when Create would hand out handle `h`:
   * ensureDir's, then the copy step's only if ensureDir succeeded.
   */
  function PutCalls(t: Tree, k: string, src: Source, h: nat): seq<Call>
    requires WellFormed(t)
  {
    var ensured := EnsureDirEffect(t, k);
    EnsureDirCalls(t, k) + if !ensured.0 then [] else CopyCalls(ensured.1, k, src, h)
  }

  /**
   * Call ordering of Put: Create is sent exactly when ensureDir succeeded;
   * anything is written only after a successful Create, and then the handle
   * written to is closed as the last call.
   */
  lemma PutCallOrder(t: Tree, k: string, src: Source, h: nat)
    requires WellFormed(t)
    ensures CreateCall(k) in PutCalls(t, k, src, h) <==> EnsureDirEffect(t, k).0
    ensures WriteCall(h, src.data) in PutCalls(t, k, src, h) <==>
      EnsureDirEffect(t, k).0 && CreateOk(EnsureDirEffect(t, k).1, k)
    ensures WriteCall(h, src.data) in PutCalls(t, k, src, h) ==>
      PutCalls(t, k, src, h)[|PutCalls(t, k, src, h)| - 1] == CloseCall(h)
  {
    var calls := PutCalls(t, k, src, h);
    var pre := EnsureDirCalls(t, k);
    assert forall i :: 0 <= i < |pre| ==> pre[i].StatCall? || pre[i].MkdirAllCall?;
    if EnsureDirEffect(t, k).0 && CreateOk(EnsureDirEffect(t, k).1, k) {
      assert calls[|pre| + 1] == WriteCall(h, src.data);
    }
  }

  /**
   * The content `Get(k)` reads, or None when it returns an error. The
   * `Exists` test is the Stat that precedes Open; `k in t.files` already
   * implies it, and it is kept to mirror that call.
   */
  function GetEffect(t: Tree, k: string): Option<seq<byte>> {
    if Exists(t, k) && k in t.files then Some(t.files[k]) else None
  }

  /** Put returns nil exactly when every step, the copy included, succeeds. */
  lemma PutOkIff(t: Tree, k: string, src: Source)
    requires WellFormed(t)
    ensures PutEffect(t, k, src).0.None? <==>
      EnsureDirEffect(t, k).0 && CreateOk(EnsureDirEffect(t, k).1, k) && !src.fails
  {
  }

  /** A failed ensureDir or a failed Create leaves every file as it was. */
  lemma PutFailureBeforeCopyKeepsFiles(t: Tree, k: string, src: Source)
    requires WellFormed(t)
    requires !EnsureDirEffect(t, k).0 || !CreateOk(EnsureDirEffect(t, k).1, k)
    ensures PutEffect(t, k, src).1.files == t.files
  {
  }

  /** Round trip: after a successful Put(k, src), Get(k) reads exactly src's bytes. */
  lemma PutGetRoundTrip(t: Tree, k: string, src: Source)
    requires WellFormed(t)
    requires PutEffect(t, k, src).0 == None
    ensures GetEffect(PutEffect(t, k, src).1, k) == Some(src.data)
  {
  }

  /** Put touches no other key. */
  lemma PutKeepsOtherFiles(t: Tree, k: string, src: Source, other: string)
    requires WellFormed(t) && other != k
    ensures GetEffect(PutEffect(t, k, src).1, other) == GetEffect(t, other)
  {
  }

  /**
   * Overwrite: once Put(k, s1) has succeeded, Put(k, s2) with a source that
   * reads to the end succeeds too, and Get(k) then reads s2's bytes only.
   */
  lemma PutOverwrite(t: Tree, k: string, s1: Source, s2: Source)
    requires WellFormed(t)
    requires PutEffect(t, k, s1).0 == None
    requires !s2.fails
    ensures PutEffect(PutEffect(t, k, s1).1, k, s2).0 == None
    ensures GetEffect(PutEffect(PutEffect(t, k, s1).1, k, s2).1, k) == Some(s2.data)
  {
  }

  /**
   * Directory auto-creation: for a clean key k (the only kind a server
   * resolves to the same name the tree uses), when nothing on MkdirAll's
   * path to Dir(k) is a regular file and k is neither a directory nor on
   * that path, Put(k, src) of a source that reads to the end succeeds,
   * leaves Dir(k) a directory, and Get(k) reads src's bytes.
   */
  lemma PutCreatesParents(t: Tree, k: string, src: Source)
    requires WellFormed(t) && !src.fails && Clean(k) == k
    requires NoFileOnPath(t, Dir(k))
    requires k !in t.dirs && k !in MkdirPath(Dir(k))
    ensures PutEffect(t, k, src).0 == None
    ensures Dir(k) in PutEffect(t, k, src).1.dirs
    ensures GetEffect(PutEffect(t, k, src).1, k) == Some(src.data)
  {
    assert MkdirPath(Dir(k))[0] == Dir(k);
    if !Exists(t, Dir(k)) {
      MkdirAllSucceeds(t, Dir(k));
    }
  }

  lemma CleanAB()
    ensures Clean("a/b/") == "a/b"
  {
    assert Word("a/b/") == "a" by {
      assert "a/b/"[1..] == "/b/";
    }
    assert "a/b/"[1..] == "/b/";
    assert Word("b/") == "b" by {
      assert "b/"[1..] == "/";
    }
    assert Split("b/") == ["b"] by {
      assert "b/"[1..] == "/";
      assert Split("/") == [] by { assert "/"[1..] == ""; }
    }
    assert Split("/b/") == ["b"] by { assert "/b/"[1..] == "b/"; }
    assert Split("a/b/") == ["a", "b"];
  }

  lemma CleanABC()
    ensures Clean("a/b/c") == "a/b/c"
  {
    var es := ["a", "b", "c"];
    assert Join(es) == "a/b/c" by {
      assert es[1..] == ["b", "c"] && es[1..][1..] == ["c"];
    }
    RenderRoundTrip(false, es);
  }

  lemma DirABC()
    ensures Dir("a/b/c") == "a/b"
  {
    assert LastSlash("a/b/c") == 3 by {
      assert "a/b/c"[..4] == "a/b/";
    }
    assert "a/b/c"[..4] == "a/b/";
    CleanAB();
  }

  lemma MkdirPathAB()
    ensures MkdirPath("a/b") == ["a/b", "a"]
  {
    assert MkdirParent("a/b") == Some("a") by {
      assert TrimRight("a/b", "/") == "a/b";
      assert LastSlash("a/b") == 1 by { assert "a/b"[..2] == "a/"; }
      assert "a/b"[..1] == "a";
    }
    assert MkdirParent("a") == None by {
      assert TrimRight("a", "/") == "a";
      assert LastSlash("a") == -1 by { assert "a"[..0] == ""; }
    }
  }

  /** The concrete case: Put("a/b/c", src) into a tree where neither "a" nor "a/b" exists. */
  lemma PutCreatesABC(t: Tree, src: Source)
    requires WellFormed(t) && !src.fails
    requires "a" !in t.files && "a/b" !in t.files && "a/b" !in t.dirs && "a/b/c" !in t.dirs
    ensures PutEffect(t, "a/b/c", src).0 == None
    ensures "a/b" in PutEffect(t, "a/b/c", src).1.dirs
    ensures GetEffect(PutEffect(t, "a/b/c", src).1, "a/b/c") == Some(src.data)
  {
    var k := "a/b/c";
    assert NoFileOnPath(t, Dir(k)) && k !in MkdirPath(Dir(k)) && Dir(k) == "a/b" by {
      DirABC();
      MkdirPathAB();
    }
    assert Clean(k) == k by {
      CleanABC();
    }
    PutCreatesParents(t, k, src);
  }

  /** The sftp client, driving the remote tree. */
  class RemoteTree {
    var files: map<string, seq<byte>>
    var dirs: set<string>
    var handles: map<nat, string>   // open handle -> the file it refers to
    var nextHandle: nat
    var calls: seq<Call>

    ghost predicate Valid()
      reads this
    {
      && files.Keys !! dirs
      && forall h :: h in handles ==> h < nextHandle && handles[h] in files
    }

    function State(): Tree
      reads this
    {
      Tree(files, dirs)
    }

    constructor (files0: map<string, seq<byte>>, dirs0: set<string>)
      requires files0.Keys !! dirs0
      ensures Valid() && State() == Tree(files0, dirs0)
      ensures handles == map[] && calls == []
    {
      files, dirs := files0, dirs0;
      handles, nextHandle := map[], 0;
      calls := [];
    }

    method Stat(p: string) returns (ok: bool)
      modifies this`calls
      ensures ok == Exists(State(), p)
      ensures calls == old(calls) + [StatCall(p)]
    {
      ok := p in files || p in dirs;
      calls := calls + [StatCall(p)];
    }

    method MkdirAll(d: string) returns (ok: bool)
      requires Valid()
      modifies this`dirs, this`calls
      ensures Valid()
      ensures (ok, State()) == MkdirAllEffect(old(State()), d)
      ensures calls == old(calls) + [MkdirAllCall(d)]
    {
      var r := MkdirAllEffect(State(), d);
      ok, dirs := r.0, r.1.dirs;
      calls := calls + [MkdirAllCall(d)];
    }

    /** Creates or truncates `p` and opens it for writing. */
    method Create(p: string) returns (ok: bool, h: nat)
      requires Valid()
      modifies this
      ensures Valid() && dirs == old(dirs)
      ensures ok == CreateOk(old(State()), p)
      ensures h == old(nextHandle) && h !in old(handles)
      ensures ok ==> files == old(files)[p := []] && handles == old(handles)[h := p]
      ensures !ok ==> files == old(files) && handles == old(handles)
      ensures calls == old(calls) + [CreateCall(p)]
    {
      ok := CreateOk(State(), p);
      h := nextHandle;
      if ok {
        files := files[p := []];
        handles := handles[h := p];
        nextHandle := nextHandle + 1;
      }
      calls := calls + [CreateCall(p)];
    }

    /** Opens the regular file `p` for reading. */
    method Open(p: string) returns (ok: bool, h: nat, data: seq<byte>)
      requires Valid()
      modifies this
      ensures Valid() && State() == old(State())
      ensures ok == (p in old(files))
      ensures ok ==> data == files[p] && h !in old(handles) && handles == old(handles)[h := p]
      ensures !ok ==> handles == old(handles)
      ensures calls == old(calls) + [OpenCall(p)]
    {
      ok := p in files;
      h, data := nextHandle, [];
      if ok {
        data := files[p];
        handles := handles[h := p];
        nextHandle := nextHandle + 1;
      }
      calls := calls + [OpenCall(p)];
    }

    /** Appends `data` to the file open on handle `h`. */
    method Write(h: nat, data: seq<byte>)
      requires Valid() && h in handles
      modifies this`files, this`calls
      ensures Valid()
      ensures files == old(files)[handles[h] := old(files)[handles[h]] + data]
      ensures calls == old(calls) + [WriteCall(h, data)]
    {
      files := files[handles[h] := files[handles[h]] + data];
      calls := calls + [WriteCall(h, data)];
    }

    method Close(h: nat)
      requires Valid() && h in handles
      modifies this`handles, this`calls
      ensures Valid()
      ensures handles == old(handles) - {h}
      ensures calls == old(calls) + [CloseCall(h)]
    {
      handles := handles - {h};
      calls := calls + [CloseCall(h)];
    }
  }

  /** `ftpBackend`: the cache backend over one sftp client. */
  class FtpBackend {
    const client: RemoteTree

    constructor (client: RemoteTree)
      ensures this.client == client
    {
      this.client := client;
    }

    /**
     * Stats `p` first; when that fails it returns an error without calling
     * Open. Otherwise it returns what Open returns; a successful Open leaves
     * one more handle open, which the caller owns.
     */
    method Get(p: string) returns (r: Result<Reader, FtpError>)
      requires client.Valid()
      modifies client
      ensures client.Valid() && client.State() == old(client.State())
      ensures (if r.Success? then Some(r.value.data) else None) == GetEffect(old(client.State()), p)
      ensures !Exists(old(client.State()), p) ==>
        && r == Failure(ObjectMissing(p))
        && client.handles == old(client.handles)
        && client.calls == old(client.calls) + [StatCall(p)]
      ensures Exists(old(client.State()), p) ==>
        client.calls == old(client.calls) + [StatCall(p), OpenCall(p)]
      ensures r.Success? ==>
        r.value.handle !in old(client.handles) && client.handles == old(client.handles)[r.value.handle := p]
      ensures r.Failure? ==> client.handles == old(client.handles)
    {
      var found := client.Stat(p);
      if !found {
        return Failure(ObjectMissing(p));
      }
      var ok, h, data := client.Open(p);
      if !ok {
        return Failure(OpenFailed(p));
      }
      return Success(Reader(h, data));
    }

    /**
     * Ensures the parent directory of `p`, then creates (truncating) `p`,
     * copies `src` into it and closes the handle.
     */
    method Put(p: string, src: Source) returns (err: Option<FtpError>)
      requires client.Valid()
      modifies client
      ensures client.Valid()
      ensures err == PutEffect(old(client.State()), p, src).0
      ensures client.State() == PutEffect(old(client.State()), p, src).1
      ensures client.handles == old(client.handles)
      ensures client.calls == old(client.calls) + PutCalls(old(client.State()), p, src, old(client.nextHandle))
    {
      ghost var t0, h0 := client.State(), client.nextHandle;
      err := EnsureDir(p);
      if err.Some? {
        assert PutCalls(t0, p, src, h0) == EnsureDirCalls(t0, p) + [];
        return;
      }
      err := CreateAndCopy(p, src);
    }

    /**
     * The part of Put after ensureDir: Create(p), the copy of `src` and, on
     * every path after a successful Create, the deferred Close.
     */
    method CreateAndCopy(p: string, src: Source) returns (err: Option<FtpError>)
      requires client.Valid()
      modifies client
      ensures client.Valid()
      ensures (err, client.State()) == CopyEffect(old(client.State()), p, src)
      ensures client.handles == old(client.handles)
      ensures client.calls == old(client.calls) + CopyCalls(old(client.State()), p, src, old(client.nextHandle))
    {
      ghost var t1, open0 := client.State(), client.handles;
      var created, dst := client.Create(p);
      if !created {
        return Some(CreateFailed(p));
      }
      client.Write(dst, src.data);
      assert client.files == t1.files[p := src.data] by {
        assert [] + src.data == src.data;
      }
      err := if src.fails then Some(CopyFailed(p)) else None;
      client.Close(dst);
      assert client.handles == open0 by {
        assert open0[dst := p] - {dst} == open0;
      }
    }

    /** Stats the parent of `p` and calls MkdirAll on it only when that fails. */
    method EnsureDir(p: string) returns (err: Option<FtpError>)
      requires client.Valid()
      modifies client`dirs, client`calls
      ensures client.Valid()
      ensures (err.None?, client.State()) == EnsureDirEffect(old(client.State()), p)
      ensures err.Some? ==> err == Some(DirFailed(Dir(p)))
      ensures client.calls == old(client.calls) + EnsureDirCalls(old(client.State()), p)
    {
      var dir := Dir(p);
      var found := client.Stat(dir);
      if !found {
        var made := client.MkdirAll(dir);
        if !made {
          return Some(DirFailed(dir));
        }
      }
      return None;
    }
  }

  /** A client of the backend: Put into an empty tree, then Get the same key. */
  method AutoCreateScenario(data: seq<byte>) returns (got: Result<Reader, FtpError>, dirMade: bool)
    ensures got.Success? && got.value.data == data
    ensures dirMade
  {
    var tree := new RemoteTree(map[], {".", "/"});
    var backend := new FtpBackend(tree);
    var src := Source(data, false);
    ghost var t0 := tree.State();
    PutCreatesABC(t0, src);
    ghost var t1 := PutEffect(t0, "a/b/c", src).1;
    var err := backend.Put("a/b/c", src);
    assert tree.State() == t1;
    dirMade := "a/b" in tree.dirs;
    got := backend.Get("a/b/c");
  }
}
