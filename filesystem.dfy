/**
  `LocalFileSystem`: a working root stored in absolute form and
  `resolve_path`, which joins a relative path to the root, normalises it as
  POSIX `os.path.abspath` does, and refuses a result that does not start
  with the root.  The process working directory is a parameter.
 */
module FileSystem {
  import opened Wrappers
  import opened PyStr

  const Sep := '/'

  predicate IsAbs(p: string) {
    StartsWith(p, "/")
  }

  /** `posixpath.join(a, b)`. */
  function JoinPath(a: string, b: string): (r: string)
    ensures IsAbs(b) ==> r == b
    ensures !IsAbs(b) && (a == "" || EndsWith(a, "/")) ==> r == a + b
    ensures !IsAbs(b) && a != "" && !EndsWith(a, "/") ==> r == a + "/" + b
  {
    if IsAbs(b) then b
    else if a == "" || EndsWith(a, "/") then a + b
    else a + "/" + b
  }

  /** How many leading slashes `normpath` keeps: two exactly when there are exactly two. */
  function InitialSlashes(p: string): (n: nat)
    ensures n <= 2
    ensures n == 0 <==> !IsAbs(p)
  {
    if !StartsWith(p, "/") then 0
    else if StartsWith(p, "//") && !StartsWith(p, "///") then 2
    else 1
  }

  function Slashes(n: nat): (r: string)
    requires n <= 2
    ensures |r| == n && forall k :: 0 <= k < n ==> r[k] == '/'
  {
    if n == 0 then "" else if n == 1 then "/" else "//"
  }

  /** One step of the component loop of `normpath`. */
  function NormStep(acc: seq<string>, comp: string, initial: nat): seq<string> {
    if comp == "" || comp == "." then acc
    else if comp != ".." || (initial == 0 && acc == []) || (acc != [] && acc[|acc| - 1] == "..") then acc + [comp]
    else if acc != [] then acc[..|acc| - 1]
    else acc
  }

  /** The component loop of `normpath`, from `acc` on. */
  function NormFold(acc: seq<string>, comps: seq<string>, initial: nat): seq<string>
    decreases |comps|
  {
    if comps == [] then acc else NormFold(NormStep(acc, comps[0], initial), comps[1..], initial)
  }

  /** `posixpath.normpath`. */
  function NormPath(p: string): (r: string)
    ensures r != ""
  {
    if p == "" then "."
    else
      var initial := InitialSlashes(p);
      var r := Slashes(initial) + Join(NormFold([], Split(p, Sep), initial), "/");
      if r == "" then "." else r
  }

  /** `os.path.abspath`, with the working directory `cwd` as a parameter. */
  function AbsPath(p: string, cwd: string): (r: string)
    ensures r != ""
    ensures IsAbs(p) || IsAbs(cwd) ==> IsAbs(r)
  {
    NormPath(if IsAbs(p) then p else JoinPath(cwd, p))
  }

  /** A component that stays in a normalised absolute path: a name, never empty, `.` or `..`, with no slash. */
  predicate IsName(c: string) {
    c != "" && c != "." && c != ".." && Sep !in c
  }

  predicate Names(cs: seq<string>) {
    forall k :: 0 <= k < |cs| ==> IsName(cs[k])
  }

  /** The path with `initial` leading slashes and the given components. */
  function Render(initial: nat, cs: seq<string>): string
    requires initial <= 2
  {
    Slashes(initial) + Join(cs, "/")
  }

  /** In an absolute path without `..` pop on an empty list, `..` never survives: only names do. */
  lemma {:induction false} FoldKeepsNames(acc: seq<string>, comps: seq<string>, initial: nat)
    requires initial > 0 && Names(acc)
    requires forall k :: 0 <= k < |comps| ==> Sep !in comps[k]
    ensures Names(NormFold(acc, comps, initial))
    decreases |comps|
  {
    if comps != [] {
      var next := NormStep(acc, comps[0], initial);
      assert Names(next);
      FoldKeepsNames(next, comps[1..], initial);
    }
  }

  /** The loop over two lists of components is the loop over the first, then over the second. */
  lemma {:induction false} FoldConcat(acc: seq<string>, a: seq<string>, b: seq<string>, initial: nat)
    ensures NormFold(acc, a + b, initial) == NormFold(NormFold(acc, a, initial), b, initial)
    decreases |a|
  {
    if a == [] {
      assert a + b == b;
    } else {
      assert (a + b)[0] == a[0];
      assert (a + b)[1..] == a[1..] + b;
      FoldConcat(NormStep(acc, a[0], initial), a[1..], b, initial);
    }
  }

  /** The components that are neither empty nor `.`. */
  function Kept(comps: seq<string>): (r: seq<string>)
    ensures forall k :: 0 <= k < |r| ==> r[k] in comps && r[k] != "" && r[k] != "."
  {
    if comps == [] then []
    else (if comps[0] == "" || comps[0] == "." then [] else [comps[0]]) + Kept(comps[1..])
  }

  /** Without `..`, the loop of an absolute path only drops empty and `.` components. */
  lemma {:induction false} FoldWithoutParent(acc: seq<string>, comps: seq<string>, initial: nat)
    requires initial > 0
    requires forall k :: 0 <= k < |comps| ==> comps[k] != ".."
    ensures NormFold(acc, comps, initial) == acc + Kept(comps)
    decreases |comps|
  {
    if comps != [] {
      FoldWithoutParent(NormStep(acc, comps[0], initial), comps[1..], initial);
      var head := if comps[0] == "" || comps[0] == "." then [] else [comps[0]];
      assert NormStep(acc, comps[0], initial) == acc + head;
      assert acc + head + Kept(comps[1..]) == acc + (head + Kept(comps[1..]));
    }
  }

  /** `normpath` of an absolute path: its leading slashes and only name components. */
  lemma NormPathShape(p: string)
    requires IsAbs(p)
    ensures var initial := InitialSlashes(p);
      && 1 <= initial <= 2
      && Names(NormFold([], Split(p, Sep), initial))
      && NormPath(p) == Render(initial, NormFold([], Split(p, Sep), initial))
  {
    FoldKeepsNames([], Split(p, Sep), InitialSlashes(p));
  }

  /** A working directory: the root, in absolute form. */
  datatype LocalFileSystem = LocalFileSystem(rootPath: string)

  /** `LocalFileSystem(root_path)`: the root is stored as `abspath(root_path)` (creating the directory is left out). */
  function NewLocalFileSystem(rootPath: string, cwd: string): (fs: LocalFileSystem)
    requires IsAbs(cwd)
    ensures IsAbs(fs.rootPath)
    ensures fs.rootPath == AbsPath(rootPath, cwd)
  {
    var joined := if IsAbs(rootPath) then rootPath else JoinPath(cwd, rootPath);
    NormPathShape(joined);
    LocalFileSystem(AbsPath(rootPath, cwd))
  }

  const TraversalError := "Attempted path traversal outside of working directory"

  /** The candidate path of `resolve_path`: `abspath(join(root_path, relative_path))`. */
  function FullPath(fs: LocalFileSystem, relativePath: string): string {
    NormPath(JoinPath(fs.rootPath, relativePath))
  }

  /** `resolve_path` as written: a plain string-prefix test against the root. */
  function ResolvePath(fs: LocalFileSystem, relativePath: string): (r: Result<string>)
    requires IsAbs(fs.rootPath)
    ensures r.Success? <==> StartsWith(FullPath(fs, relativePath), fs.rootPath)
    ensures r.Success? ==> r.value == FullPath(fs, relativePath) && StartsWith(r.value, fs.rootPath)
    ensures r.Failure? ==> r.error == TraversalError
  {
    var full := FullPath(fs, relativePath);
    if !StartsWith(full, fs.rootPath) then Failure(TraversalError) else Success(full)
  }

  /** The root as a directory prefix: the root followed by one slash. */
  function DirPrefix(root: string): string {
    if EndsWith(root, "/") then root else root + "/"
  }

  /** `resolve_path` as intended: the root itself, or a path below the root followed by `/`. */
  function ResolvePathStrict(fs: LocalFileSystem, relativePath: string): (r: Result<string>)
    requires IsAbs(fs.rootPath)
    ensures r.Success? <==> FullPath(fs, relativePath) == fs.rootPath || StartsWith(FullPath(fs, relativePath), DirPrefix(fs.rootPath))
    ensures r.Success? ==> r.value == FullPath(fs, relativePath)
    ensures r.Failure? ==> r.error == TraversalError
  {
    var full := FullPath(fs, relativePath);
    if full == fs.rootPath || StartsWith(full, DirPrefix(fs.rootPath)) then Success(full) else Failure(TraversalError)
  }

  // ---------------------------------------------------------------------
  // What the guard promises
  // ---------------------------------------------------------------------

  // ---------------------------------------------------------------------
  // Splitting joined paths
  // ---------------------------------------------------------------------

  /** The empty components that leading slashes produce. */
  function Lead(initial: nat): (r: seq<string>)
    requires initial <= 2
    ensures |r| == initial && forall k :: 0 <= k < |r| ==> r[k] == ""
  {
    seq(initial, _ => "")
  }

  lemma SplitAfterSlashes(initial: nat, t: string)
    requires 1 <= initial <= 2
    ensures Split(Slashes(initial) + t, Sep) == Lead(initial) + Split(t, Sep)
  {
    SplitConcat("", t, Sep);
    assert [] + [Sep] + t == "/" + t;
    if initial == 2 {
      SplitConcat("", "/" + t, Sep);
      assert [] + [Sep] + ("/" + t) == Slashes(2) + t;
      assert Lead(2) == [""] + [""];
    } else {
      assert Lead(1) == [""];
    }
  }

  lemma SlashesThenName(initial: nat, t: string)
    requires 1 <= initial <= 2 && !IsAbs(t)
    ensures InitialSlashes(Slashes(initial) + t) == initial
  {
    var p := Slashes(initial) + t;
    assert p[..1] == "/";
    if initial == 1 {
      assert !StartsWith(p, "//") by {
        if |p| >= 2 {
          assert p[1] == t[0];
        }
      }
    } else {
      assert p[..2] == "//";
      assert !StartsWith(p, "///") by {
        if |p| >= 3 {
          assert p[2] == t[0];
        }
      }
    }
  }

  lemma {:induction false} KeptNames(cs: seq<string>)
    requires Names(cs)
    ensures Kept(cs) == cs
  {
    if cs != [] {
      KeptNames(cs[1..]);
      assert cs == [cs[0]] + cs[1..];
    }
  }

  lemma {:induction false} JoinStartsWithFirst(parts: seq<string>, sep: string)
    requires parts != [] && parts[0] != ""
    ensures Join(parts, sep) != "" && Join(parts, sep)[0] == parts[0][0]
  {
  }

  lemma {:induction false} JoinEndsWithLast(parts: seq<string>, sep: string)
    requires parts != [] && parts[|parts| - 1] != ""
    ensures var j := Join(parts, sep); j != "" && j[|j| - 1] == parts[|parts| - 1][|parts[|parts| - 1]| - 1]
  {
    if |parts| > 1 {
      JoinEndsWithLast(parts[1..], sep);
    }
  }

  /** The text after a rendered root: the relative path alone, or the root's names, `/` and the relative path. */
  function AfterRoot(root: seq<string>, relativePath: string): string {
    if root == [] then relativePath else Join(root, "/") + "/" + relativePath
  }

  lemma JoinedShape(initial: nat, root: seq<string>, relativePath: string)
    requires 1 <= initial <= 2 && Names(root) && !IsAbs(relativePath)
    ensures JoinPath(Render(initial, root), relativePath) == Slashes(initial) + AfterRoot(root, relativePath)
    ensures !IsAbs(AfterRoot(root, relativePath))
    ensures Split(AfterRoot(root, relativePath), Sep) == root + Split(relativePath, Sep)
  {
    if root != [] {
      var names := Join(root, "/");
      JoinStartsWithFirst(root, "/");
      assert root[0][0] != Sep;
      var rootPath := Render(initial, root);
      RenderNoTrailingSlash(initial, root);
      assert JoinPath(rootPath, relativePath) == Slashes(initial) + (names + "/" + relativePath);
      SplitConcat(names, relativePath, Sep);
      SplitJoin(root, Sep);
      assert names + [Sep] + relativePath == AfterRoot(root, relativePath);
    }
  }

  // ---------------------------------------------------------------------
  // What the guard promises
  // ---------------------------------------------------------------------

  /** The intended guard only refuses paths the written one refuses too. */
  lemma StrictIsNarrower(fs: LocalFileSystem, relativePath: string)
    requires IsAbs(fs.rootPath)
    ensures ResolvePathStrict(fs, relativePath).Success? ==> ResolvePath(fs, relativePath) == ResolvePathStrict(fs, relativePath)
  {
    var full := FullPath(fs, relativePath);
    if StartsWith(full, DirPrefix(fs.rootPath)) {
      assert full[..|fs.rootPath|] == DirPrefix(fs.rootPath)[..|fs.rootPath|];
    }
  }

  /** Joined to a normalised root, a relative path without `..` normalises to the root's names and its kept components. */
  lemma FullPathBelowRoot(initial: nat, root: seq<string>, relativePath: string)
    requires 1 <= initial <= 2 && Names(root)
    requires !IsAbs(relativePath)
    requires forall k :: 0 <= k < |Split(relativePath, Sep)| ==> Split(relativePath, Sep)[k] != ".."
    ensures FullPath(LocalFileSystem(Render(initial, root)), relativePath) == Render(initial, root + Kept(Split(relativePath, Sep)))
  {
    var rel := Split(relativePath, Sep);
    var after := AfterRoot(root, relativePath);
    JoinedShape(initial, root, relativePath);
    var joined := Slashes(initial) + after;
    SplitAfterSlashes(initial, after);
    SlashesThenName(initial, after);
    assert Split(joined, Sep) == Lead(initial) + (root + rel);
    FoldBelowRoot(initial, root, rel);
    NormPathOf(joined, initial, root + Kept(rel));
  }

  lemma FoldBelowRoot(initial: nat, root: seq<string>, rel: seq<string>)
    requires 1 <= initial <= 2 && Names(root)
    requires forall k :: 0 <= k < |rel| ==> rel[k] != ".."
    ensures NormFold([], Lead(initial) + (root + rel), initial) == root + Kept(rel)
  {
    FoldLead(initial, root + rel);
    FoldConcat([], root, rel, initial);
    FoldNames(root, initial);
    FoldWithoutParent(root, rel, initial);
  }

  lemma FoldLead(initial: nat, rest: seq<string>)
    requires 1 <= initial <= 2
    ensures NormFold([], Lead(initial) + rest, initial) == NormFold([], rest, initial)
  {
    FoldCons([], "", Lead(initial)[1..] + rest, initial);
    assert Lead(initial) + rest == [""] + (Lead(initial)[1..] + rest);
    if initial == 2 {
      assert Lead(initial)[1..] + rest == [""] + rest;
      FoldCons([], "", rest, initial);
    } else {
      assert Lead(initial)[1..] + rest == rest;
    }
  }

  lemma FoldNames(root: seq<string>, initial: nat)
    requires initial > 0 && Names(root)
    ensures NormFold([], root, initial) == root
  {
    FoldWithoutParent([], root, initial);
    KeptNames(root);
  }

  lemma FoldCons(acc: seq<string>, c: string, rest: seq<string>, initial: nat)
    ensures NormFold(acc, [c] + rest, initial) == NormFold(NormStep(acc, c, initial), rest, initial)
  {
    assert ([c] + rest)[0] == c && ([c] + rest)[1..] == rest;
  }

  lemma NormPathOf(p: string, initial: nat, comps: seq<string>)
    requires 1 <= initial <= 2 && InitialSlashes(p) == initial
    requires NormFold([], Split(p, Sep), initial) == comps
    ensures NormPath(p) == Render(initial, comps)
  {
  }

  /** A rendered path with at least one name does not end with a slash. */
  lemma RenderNoTrailingSlash(initial: nat, root: seq<string>)
    requires 1 <= initial <= 2 && Names(root) && root != []
    ensures !EndsWith(Render(initial, root), "/")
  {
    var names := Join(root, "/");
    JoinEndsWithLast(root, "/");
    var last := root[|root| - 1];
    assert last[|last| - 1] != Sep;
    var rootPath := Render(initial, root);
    assert rootPath[|rootPath| - 1] == names[|names| - 1];
  }

  /** More names after a rendered root start with the root as a directory. */
  lemma RenderBelow(initial: nat, root: seq<string>, kept: seq<string>)
    requires 1 <= initial <= 2 && Names(root) && kept != []
    ensures StartsWith(Render(initial, root + kept), DirPrefix(Render(initial, root)))
  {
    var rootPath := Render(initial, root);
    var full := Render(initial, root + kept);
    if root == [] {
      assert root + kept == kept;
      assert EndsWith(rootPath, "/");
      assert full[..|rootPath|] == rootPath;
    } else {
      JoinAppend(root, kept, "/");
      assert full == rootPath + "/" + Join(kept, "/");
      RenderNoTrailingSlash(initial, root);
      assert full[..|rootPath| + 1] == rootPath + "/";
    }
  }

  /**
    Under a normalised root, any relative path without `..` resolves, with
    the intended guard, to the root followed by its own kept components.
   */
  lemma DescendantsAccepted(initial: nat, root: seq<string>, relativePath: string)
    requires 1 <= initial <= 2 && Names(root)
    requires !IsAbs(relativePath)
    requires forall k :: 0 <= k < |Split(relativePath, Sep)| ==> Split(relativePath, Sep)[k] != ".."
    ensures var fs := LocalFileSystem(Render(initial, root));
      ResolvePathStrict(fs, relativePath) == Success(Render(initial, root + Kept(Split(relativePath, Sep))))
  {
    var kept := Kept(Split(relativePath, Sep));
    FullPathBelowRoot(initial, root, relativePath);
    if kept == [] {
      assert root + kept == root;
    } else {
      RenderBelow(initial, root, kept);
    }
  }

  lemma {:induction false} KeptEmpty(cs: seq<string>)
    requires forall k :: 0 <= k < |cs| ==> cs[k] == ""
    ensures Kept(cs) == []
  {
    if cs != [] {
      KeptEmpty(cs[1..]);
    }
  }

  /** The written guard accepts a sibling whose name extends the root's name; the intended one refuses it. */
  lemma SiblingEscapes(name: string, sibling: string)
    requires IsName(name) && IsName(sibling) && StartsWith(sibling, name) && sibling != name
    ensures var fs := LocalFileSystem("/" + name);
      && ResolvePath(fs, "../" + sibling) == Success("/" + sibling)
      && ResolvePathStrict(fs, "../" + sibling).Failure?
  {
    var fs := LocalFileSystem("/" + name);
    var rel := "../" + sibling;
    assert !IsAbs(rel) by { assert rel[0] == '.'; }
    JoinedShape(1, [name], rel);
    assert Render(1, [name]) == "/" + name;
    var after := AfterRoot([name], rel);
    SplitAfterSlashes(1, after);
    SlashesThenName(1, after);
    assert Split(rel, Sep) == [".."] + [sibling] by {
      assert rel == ".." + [Sep] + sibling;
      SplitConcat("..", sibling, Sep);
      SplitNoSep("..", Sep);
      SplitNoSep(sibling, Sep);
    }
    var comps := [""] + [name] + [".."] + [sibling];
    assert Split(Slashes(1) + after, Sep) == comps;
    SiblingFold(name, sibling);
    NormPathOf(Slashes(1) + after, 1, [sibling]);
    var full := FullPath(fs, rel);
    assert full == "/" + sibling;
    assert StartsWith(full, "/" + name) by {
      assert full[..|name| + 1] == "/" + sibling[..|name|];
    }
    assert !StartsWith(full, DirPrefix("/" + name)) by {
      assert DirPrefix("/" + name) == "/" + name + "/";
      assert |sibling| > |name|;
      assert full[|name| + 1] == sibling[|name|];
      assert sibling[|name|] in sibling;
    }
  }

  lemma SiblingFold(name: string, sibling: string)
    requires IsName(name) && IsName(sibling)
    ensures NormFold([], [""] + [name] + [".."] + [sibling], 1) == [sibling]
  {
    FoldCons([], "", [name] + [".."] + [sibling], 1);
    assert [""] + [name] + [".."] + [sibling] == [""] + ([name] + [".."] + [sibling]);
    assert NormStep([], "", 1) == [];
    FoldCons([], name, [".."] + [sibling], 1);
    assert [name] + [".."] + [sibling] == [name] + ([".."] + [sibling]);
    assert NormStep([], name, 1) == [name];
    FoldCons([name], "..", [sibling], 1);
    assert NormStep([name], "..", 1) == [];
    FoldCons([], sibling, [], 1);
    assert [sibling] + [] == [sibling];
    assert NormStep([], sibling, 1) == [sibling];
  }

  /** The instance: with root `/data`, the relative path `../data2` passes the written guard and not the intended one. */
  lemma DataSiblingEscapes()
    ensures ResolvePath(LocalFileSystem("/data"), "../data2").Success?
    ensures ResolvePathStrict(LocalFileSystem("/data"), "../data2").Failure?
  {
    assert "data"[..] == "data";
    assert IsName("data") && IsName("data2");
    assert StartsWith("data2", "data");
    SiblingEscapes("data", "data2");
    assert "/" + "data" == "/data";
    assert "../" + "data2" == "../data2";
  }
}
