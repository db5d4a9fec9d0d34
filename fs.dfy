/**
 * The file-system capability of the deploy builder (`FSHost`,
 * actions.ts:91-97): a tree of files addressed by `/`-separated paths, the
 * five synchronous primitives over it, and the trace of effects in which the
 * deploy records every call it makes on its collaborators.
 */
module Fs {
  import opened Wrappers
  import Manifest

  /** What a file holds. Templated files are kept as the values they are rendered from. */
  datatype Content =
    | Data(text: string)                                  // a build artefact or any other existing file
    | PackageFile(manifest: Manifest.PackageManifest)     // `JSON.stringify(defaultPackage(...))`
    | EntryPoint(serverOut: string, functionName: string) // `defaultFunction(serverOut, options, functionName)`
    | ContainerFile                                       // `dockerfile(options)`

  /** Files by path; a directory is the set of paths below it. */
  type Files = map<string, Content>

  /** One call on a collaborator of the deploy, in the order made. */
  datatype Effect =
    | Login
    | Schedule(target: string)
    | Use(project: string)
    | Remove(path: string)
    | Copy(src: string, dst: string)
    | Write(path: string)
    | Rename(from: string, to: string)
    | Serve(port: nat, host: string, targets: seq<string>)
    | Prompt
    | Spawn(command: string)
    | FirebaseDeploy(only: string, cwd: string, token: Option<string>)

  /** The errors the primitives raise. */
  datatype FsError =
    | NotFound(path: string)               // ENOENT
    | CopyIntoItself(src: string, dst: string)  // fs-extra refuses to copy a directory into itself

  /** `q` is `p` or lies below it. */
  predicate Under(q: string, p: string)
  {
    q == p || p + "/" <= q
  }

  /** A path below `p` is `p` followed by the rest of it. */
  lemma UnderPrefix(q: string, p: string)
    requires Under(q, p)
    ensures |p| <= |q| && q == p + q[|p|..]
  {
    if q != p {
      assert (p + "/")[..|p|] == p;
    }
  }

  /** `path.join(a, b)` for two relative paths, without normalisation. */
  function Join(a: string, b: string): string
  {
    a + "/" + b
  }

  /** A joined path lies strictly below its first part, and the rest of it is the second part. */
  lemma JoinUnder(a: string, b: string)
    ensures Under(Join(a, b), a) && Join(a, b) != a
    ensures Join(a, b)[|a| + 1..] == b
  {
    assert (a + "/" + b)[..|a| + 1] == a + "/";
  }

  /** Lying below is transitive. */
  lemma UnderTrans(q: string, a: string, b: string)
    requires Under(q, a) && Under(a, b)
    ensures Under(q, b)
  {
    if q != a && a != b {
      UnderPrefix(q, a);
      UnderPrefix(a, b);
      assert q[..|b| + 1] == a[..|b| + 1];
    }
  }

  /** A file name without `/` is never the join of two paths below the same directory. */
  lemma JoinDistinct(root: string, a: string, b: string, name: string)
    requires '/' !in name
    ensures Join(root, name) != Join(Join(root, a), b)
  {
    if |Join(root, name)| == |Join(Join(root, a), b)| {
      var k := |root| + 1 + |a|;
      assert Join(Join(root, a), b)[k] == '/';
      assert Join(root, name)[k] == name[|a|];
    }
  }

  /** Two paths of which neither lies below the other name disjoint subtrees. */
  lemma UnderDisjoint(q: string, a: string, b: string)
    requires Under(q, a) && Under(q, b)
    ensures Under(a, b) || Under(b, a)
  {
    UnderPrefix(q, a);
    UnderPrefix(q, b);
    if |a| < |b| {
      assert b[..|a|] == a;
      if b != a + "/" + b[|a| + 1..] {
        assert q == a + q[|a|..];
        assert q == b;
      }
      assert b[..|a| + 1] == a + "/" || q[|a|] == '/' ;
    }
  }

  /** The subtree at `p` exists. */
  predicate Exists(fs: Files, p: string)
  {
    exists q :: q in fs && Under(q, p)
  }

  /** `removeSync(p)` (fs-extra): the subtree at `p` is gone, and nothing else changes; a missing path is no error. */
  function RemoveTree(fs: Files, p: string): Files
  {
    map q | q in fs && !Under(q, p) :: fs[q]
  }

  /** Exactly the files outside the subtree remain, with their contents. */
  lemma RemoveTreeSpec(fs: Files, p: string)
    ensures forall q :: q in RemoveTree(fs, p) <==> q in fs && !Under(q, p)
    ensures forall q :: q in RemoveTree(fs, p) ==> RemoveTree(fs, p)[q] == fs[q]
  {
  }

  /** Re-rooting a path below `src` at `dst`. */
  function Rebase(q: string, src: string, dst: string): string
    requires |src| <= |q|
  {
    dst + q[|src|..]
  }

  /** Re-rooting is injective on the paths below `src`. */
  lemma RebaseInjective(q1: string, q2: string, src: string, dst: string)
    requires Under(q1, src) && Under(q2, src)
    ensures |src| <= |q1| && |src| <= |q2|
    ensures Rebase(q1, src, dst) == Rebase(q2, src, dst) ==> q1 == q2
  {
    UnderPrefix(q1, src);
    UnderPrefix(q2, src);
    assert q1[|src|..] == Rebase(q1, src, dst)[|dst|..];
    assert q2[|src|..] == Rebase(q2, src, dst)[|dst|..];
  }

  /** The subtree at `src`, re-rooted at `dst`. */
  function Relocated(fs: Files, src: string, dst: string): Files
  {
    assert forall q1, q2 | q1 in fs && Under(q1, src) && q2 in fs && Under(q2, src) && dst + q1[|src|..] == dst + q2[|src|..] :: q1 == q2 by {
      forall q1, q2 | q1 in fs && Under(q1, src) && q2 in fs && Under(q2, src) && dst + q1[|src|..] == dst + q2[|src|..]
        ensures q1 == q2
      {
        RebaseInjective(q1, q2, src, dst);
      }
    }
    map q | q in fs && Under(q, src) :: dst + q[|src|..] := fs[q]
  }

  /** Each file below `src` appears, with its content, at its re-rooted path, and nothing else does. */
  lemma RelocatedSpec(fs: Files, src: string, dst: string)
    ensures forall q :: q in fs && Under(q, src) ==>
      |src| <= |q| && Rebase(q, src, dst) in Relocated(fs, src, dst) && Relocated(fs, src, dst)[Rebase(q, src, dst)] == fs[q]
    ensures forall d :: d in Relocated(fs, src, dst) ==>
      exists q :: q in fs && Under(q, src) && |src| <= |q| && d == Rebase(q, src, dst)
  {
    var m := Relocated(fs, src, dst);
    forall q | q in fs && Under(q, src)
      ensures |src| <= |q| && Rebase(q, src, dst) in m && m[Rebase(q, src, dst)] == fs[q]
    {
      UnderPrefix(q, src);
      forall q2 | q2 in fs && Under(q2, src) && dst + q2[|src|..] == Rebase(q, src, dst)
        ensures q2 == q
      {
        RebaseInjective(q, q2, src, dst);
      }
    }
    forall d | d in m
      ensures exists q :: q in fs && Under(q, src) && |src| <= |q| && d == Rebase(q, src, dst)
    {
      var q :| q in fs && Under(q, src) && d == dst + q[|src|..];
      UnderPrefix(q, src);
    }
  }

  /**
   * `copySync(src, dst)` (fs-extra, overwriting): the subtree at `src` is
   * copied to `dst`; a missing source, or a destination inside the source,
   * is an error.
   */
  function CopyTree(fs: Files, src: string, dst: string): Result<Files, FsError>
  {
    if !Exists(fs, src) then Err(NotFound(src))
    else if Under(dst, src) then Err(CopyIntoItself(src, dst))
    else Ok(fs + Relocated(fs, src, dst))
  }

  /** `renameSync(from, to)` of a file: a missing `from` is an error. */
  function RenameFile(fs: Files, from: string, to: string): Result<Files, FsError>
  {
    if from in fs then Ok((fs - {from})[to := fs[from]]) else Err(NotFound(from))
  }

  /** A rename moves one file and touches no other path; it fails exactly when the file is missing. */
  lemma RenameFileSpec(fs: Files, from: string, to: string)
    ensures RenameFile(fs, from, to).Err? <==> from !in fs
    ensures var r := RenameFile(fs, from, to);
      r.Ok? ==> to in r.value && r.value[to] == fs[from] && (from != to ==> from !in r.value)
    ensures var r := RenameFile(fs, from, to);
      r.Ok? ==> forall q :: q != from && q != to ==> (q in r.value <==> q in fs) && (q in fs ==> r.value[q] == fs[q])
  {
  }

  /**
   * The FSHost handed to the deploy pipelines. It also keeps the trace of
   * effects: the other collaborators (the builder, Firebase tools, the
   * process runner) record their calls on it with `Record`, so that the
   * order of all calls can be stated in one sequence.
   */
  class FsHost {
    var files: Files
    var trace: seq<Effect>

    constructor (initial: Files)
      ensures files == initial && trace == []
    {
      files := initial;
      trace := [];
    }

    /** A call on a collaborator other than the file system. */
    method Record(e: Effect)
      modifies this
      ensures files == old(files) && trace == old(trace) + [e]
    {
      trace := trace + [e];
    }

    /** `removeSync`: the subtree goes. */
    method RemoveSync(path: string)
      modifies this
      ensures files == RemoveTree(old(files), path)
      ensures trace == old(trace) + [Remove(path)]
    {
      files := RemoveTree(files, path);
      trace := trace + [Remove(path)];
    }

    /** `copySync`: an error leaves the files as they were. */
    method CopySync(src: string, dst: string) returns (r: Outcome<FsError>)
      modifies this
      ensures trace == old(trace) + [Copy(src, dst)]
      ensures match CopyTree(old(files), src, dst)
        case Ok(fs) => r == Pass && files == fs
        case Err(e) => r == Fail(e) && files == old(files)
    {
      trace := trace + [Copy(src, dst)];
      var copied := CopyTree(files, src, dst);
      if copied.Err? {
        return Fail(copied.error);
      }
      files := copied.value;
      r := Pass;
    }

    /** `writeFileSync`: creates or replaces one file. */
    method WriteFileSync(path: string, content: Content)
      modifies this
      ensures files == old(files)[path := content]
      ensures trace == old(trace) + [Write(path)]
    {
      files := files[path := content];
      trace := trace + [Write(path)];
    }

    /** `renameSync`: an error leaves the files as they were. */
    method RenameSync(from: string, to: string) returns (r: Outcome<FsError>)
      modifies this
      ensures trace == old(trace) + [Rename(from, to)]
      ensures match RenameFile(old(files), from, to)
        case Ok(fs) => r == Pass && files == fs
        case Err(e) => r == Fail(e) && files == old(files)
    {
      trace := trace + [Rename(from, to)];
      var renamed := RenameFile(files, from, to);
      if renamed.Err? {
        return Fail(renamed.error);
      }
      files := renamed.value;
      r := Pass;
    }

    /** `moveSync` (actions.ts:48-51): a copy followed, when it succeeds, by removal of the source. */
    method MoveSync(src: string, dst: string) returns (r: Outcome<FsError>)
      modifies this
      ensures match CopyTree(old(files), src, dst)
        case Ok(fs) => r == Pass && files == RemoveTree(fs, src) && trace == old(trace) + [Copy(src, dst), Remove(src)]
        case Err(e) => r == Fail(e) && files == old(files) && trace == old(trace) + [Copy(src, dst)]
    {
      r := CopySync(src, dst);
      if r.Pass? {
        RemoveSync(src);
      }
    }
  }

  /** A re-rooted path lies below the new root. */
  lemma RebaseUnder(q: string, src: string, dst: string)
    requires Under(q, src)
    ensures |src| <= |q| && Under(Rebase(q, src, dst), dst)
  {
    UnderPrefix(q, src);
    if q != src {
      var rest := q[|src|..];
      assert rest[..1] == "/" by { assert (src + "/")[|src|..] == "/"; assert q[..|src| + 1] == src + "/"; }
      assert Rebase(q, src, dst)[..|dst| + 1] == dst + "/";
    }
  }

  /** A copy changes nothing outside any directory that holds its destination. */
  lemma CopyTreeFrame(fs: Files, src: string, dst: string, root: string)
    requires CopyTree(fs, src, dst).Ok? && Under(dst, root)
    ensures var c := CopyTree(fs, src, dst).value;
      forall q :: !Under(q, root) ==> (q in c <==> q in fs) && (q in fs ==> c[q] == fs[q])
  {
    RelocatedSpec(fs, src, dst);
    forall d | d in Relocated(fs, src, dst)
      ensures Under(d, root)
    {
      var q :| q in fs && Under(q, src) && |src| <= |q| && d == Rebase(q, src, dst);
      RebaseUnder(q, src, dst);
      UnderTrans(d, dst, root);
    }
  }

  /** After a move the destination holds the source's files and the source is gone (when they are disjoint). */
  lemma MoveRelocates(fs: Files, src: string, dst: string)
    requires CopyTree(fs, src, dst).Ok?
    requires !Under(src, dst)
    ensures var moved := RemoveTree(CopyTree(fs, src, dst).value, src);
      && (forall q :: q in fs && Under(q, src) ==>
            |src| <= |q| && Rebase(q, src, dst) in moved && moved[Rebase(q, src, dst)] == fs[q])
      && (forall q :: q in moved ==> !Under(q, src))
  {
    var copied := CopyTree(fs, src, dst).value;
    assert copied == fs + Relocated(fs, src, dst);
    RelocatedSpec(fs, src, dst);
    RemoveTreeSpec(copied, src);
    forall q | q in fs && Under(q, src)
      ensures |src| <= |q| && !Under(Rebase(q, src, dst), src)
    {
      RebaseUnder(q, src, dst);
      if Under(Rebase(q, src, dst), src) {
        UnderDisjoint(Rebase(q, src, dst), src, dst);
        assert false;
      }
    }
  }
}
