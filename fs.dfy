/** The file-system side of generation, seen as a sequence of fallible operations. */
module Fs {
  import opened Wrappers

  /** `os.MkdirAll(dir, 0755)` or a write of `content` to `path`. */
  datatype FsOp = MkdirAll(dir: string) | WriteFile(path: string, content: string)

  /** The file system as the program sees it: the text of the error an operation fails with,
      or None when it succeeds. */
  type FsOracle = FsOp -> Option<string>

  /** `filepath.Join(dir, name)` for a plain file name (lexical cleaning is not modelled). */
  function Join(dir: string, name: string): (p: string)
    ensures dir + "/" <= p && p[|dir| + 1..] == name
  {
    dir + "/" + name
  }

  /** The part of s after its last '/': a slash-free suffix that is all of s or starts right
      after a slash. */
  function LastSegment(s: string): (r: string)
    ensures '/' !in r
    ensures |r| <= |s| && s[|s| - |r|..] == r
    ensures r == s || s[|s| - |r| - 1] == '/'
  {
    if s == [] || s[|s| - 1] == '/' then ""
    else LastSegment(s[..|s| - 1]) + [s[|s| - 1]]
  }

  /** s without its trailing '/' characters. */
  function TrimTrailingSlashes(s: string): (r: string)
    ensures r <= s
    ensures r == [] || r[|r| - 1] != '/'
    ensures forall i :: |r| <= i < |s| ==> s[i] == '/'
  {
    if s != [] && s[|s| - 1] == '/' then TrimTrailingSlashes(s[..|s| - 1]) else s
  }

  /** b is the path element of path that ends at e: it is preceded by a slash or starts the
      path, and only slashes follow it. */
  predicate LastElementEndsAt(path: string, b: string, e: int)
  {
    && |b| <= e <= |path| && path[e - |b|..e] == b
    && (e == |b| || path[e - |b| - 1] == '/')
    && forall i :: e <= i < |path| ==> path[i] == '/'
  }

  /** `filepath.Base` on a Unix system: the last element of the path, "." for the empty path
      and "/" for a path of slashes only. */
  function Base(path: string): (b: string)
    ensures b != ""
    ensures b == "/" || '/' !in b
    ensures path == "" ==> b == "."
    ensures path != "" && (forall i :: 0 <= i < |path| ==> path[i] == '/') ==> b == "/"
    ensures (exists i :: 0 <= i < |path| && path[i] != '/') ==> exists e :: LastElementEndsAt(path, b, e)
  {
    if path == "" then "."
    else
      var t := TrimTrailingSlashes(path);
      if t == "" then "/"
      else
        var b := LastSegment(t);
        assert path[|t| - |b|..|t|] == t[|t| - |b|..] == b;
        assert LastElementEndsAt(path, b, |t|);
        b
  }

  /** The last element of `parent/leaf` is leaf. */
  lemma BaseOfJoin(parent: string, leaf: string)
    requires leaf != "" && '/' !in leaf
    ensures Base(Join(parent, leaf)) == leaf
  {
    var p := Join(parent, leaf);
    assert p[|p| - 1] == leaf[|leaf| - 1];
    LastSegmentAfterSlash(parent + "/", leaf);
  }

  lemma {:induction false} LastSegmentAfterSlash(head: string, leaf: string)
    requires head != [] && head[|head| - 1] == '/' && '/' !in leaf
    ensures LastSegment(head + leaf) == leaf
  {
    if leaf == [] {
      assert head + leaf == head;
    } else {
      var n := |leaf|;
      assert (head + leaf)[..|head + leaf| - 1] == head + leaf[..n - 1];
      LastSegmentAfterSlash(head, leaf[..n - 1]);
      assert leaf[..n - 1] + [leaf[n - 1]] == leaf;
    }
  }

  /** The operations attempted and the error returned. */
  datatype Outcome = Outcome(ops: seq<FsOp>, err: Option<string>)

  /** Operations tried one after the other, stopping at the first that fails. */
  function Attempt(plan: seq<FsOp>, fs: FsOracle): (o: Outcome)
    ensures o.ops <= plan
    ensures forall k :: 0 <= k < |o.ops| - 1 ==> fs(o.ops[k]).None?
    ensures o.err.None? <==> o.ops == plan && (plan == [] || fs(plan[|plan| - 1]).None?)
    ensures o.err.Some? ==> o.ops != [] && o.err == fs(o.ops[|o.ops| - 1])
  {
    if plan == [] then Outcome([], None)
    else if fs(plan[0]).Some? then Outcome([plan[0]], fs(plan[0]))
    else
      var rest := Attempt(plan[1..], fs);
      assert plan == [plan[0]] + plan[1..];
      Outcome([plan[0]] + rest.ops, rest.err)
  }

  /** When every operation succeeds, all of them are attempted and no error is reported. */
  lemma {:induction false} AttemptSucceeds(plan: seq<FsOp>, fs: FsOracle)
    requires forall k :: 0 <= k < |plan| ==> fs(plan[k]).None?
    ensures Attempt(plan, fs) == Outcome(plan, None)
  {
    if plan != [] {
      AttemptSucceeds(plan[1..], fs);
    }
  }

  /** When the operation at position k is the first to fail, the attempt stops there with its
      error. */
  lemma {:induction false} AttemptStopsAt(plan: seq<FsOp>, k: nat, fs: FsOracle)
    requires k < |plan| && fs(plan[k]).Some?
    requires forall j :: 0 <= j < k ==> fs(plan[j]).None?
    ensures Attempt(plan, fs) == Outcome(plan[..k + 1], fs(plan[k]))
  {
    if k > 0 {
      AttemptStopsAt(plan[1..], k - 1, fs);
      assert [plan[0]] + plan[1..][..k] == plan[..k + 1];
    }
  }

  /** A successful attempt met no failure. */
  lemma {:induction false} AttemptSucceeded(plan: seq<FsOp>, fs: FsOracle)
    requires Attempt(plan, fs).err.None?
    ensures forall k :: 0 <= k < |plan| ==> fs(plan[k]).None?
  {
    if plan != [] {
      AttemptSucceeded(plan[1..], fs);
      assert forall k :: 1 <= k < |plan| ==> plan[k] == plan[1..][k - 1];
    }
  }
}
