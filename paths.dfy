/** File-system paths. An absolute, normalised path (what `os.path.abspath`
    and `Path.resolve` return) is the sequence of its components;
    `os.path.commonpath` is the longest common component prefix. `PurePath`
    keeps the un-normalised form that `pathlib` joins produce, where `..`
    survives. */
module Paths {
  import opened Strings

  /** An absolute normalised path, root first. */
  type Path = seq<string>

  predicate ValidComponent(c: string) {
    c != [] && c != "." && c != ".." && '/' !in c
  }

  predicate Valid(p: Path) {
    forall i :: 0 <= i < |p| ==> ValidComponent(p[i])
  }

  predicate NoSlash(cs: seq<string>) {
    forall i :: 0 <= i < |cs| ==> '/' !in cs[i]
  }

  /** `posixpath.normpath` of `base` joined with the components `cs`: empty
      and `.` components vanish, `..` drops the last component (and is
      absorbed at the root). */
  function Resolve(base: Path, cs: seq<string>): (r: Path)
    requires Valid(base) && NoSlash(cs)
    ensures Valid(r)
    decreases |cs|
  {
    if cs == [] then base
    else
      var c := cs[0];
      var next := if c == "" || c == "." then base
                  else if c == ".." then (if base == [] then [] else base[..|base| - 1])
                  else base + [c];
      Resolve(next, cs[1..])
  }

  /** `os.path.abspath(s)` with the process working directory `cwd`. */
  function AbsPath(cwd: Path, s: string): (r: Path)
    requires Valid(cwd)
    ensures Valid(r)
  {
    Resolve(if StartsWith(s, "/") then [] else cwd, SplitOn(s, '/'))
  }

  /** `str()` of an absolute normalised path. */
  function ToString(p: Path): string {
    "/" + Join(p, "/")
  }

  lemma {:induction false} ResolveValidSuffix(base: Path, cs: seq<string>)
    requires Valid(base) && Valid(cs)
    ensures Resolve(base, cs) == base + cs
    decreases |cs|
  {
    if cs != [] {
      ResolveValidSuffix(base + [cs[0]], cs[1..]);
      assert base + [cs[0]] + cs[1..] == base + cs;
    }
  }

  lemma ToStringSplit(p: Path)
    requires Valid(p)
    ensures SplitOn(ToString(p), '/') == [""] + p || (p == [] && SplitOn(ToString(p), '/') == ["", ""])
  {
    if p != [] {
      assert Join([""] + p, "/") == ToString(p) by {
        assert ([""] + p)[1..] == p;
      }
      assert NoSlash([""] + p) by {
        forall i | 0 <= i < |[""] + p| ensures '/' !in ([""] + p)[i] {
          if i > 0 { assert ([""] + p)[i] == p[i - 1]; }
        }
      }
      SplitJoin([""] + p, '/');
    } else {
      assert ToString(p) == "/";
      assert SplitOn("/", '/') == SplitAcc("/", '/', []);
      assert "/"[1..] == [];
    }
  }

  /** `os.path.abspath` of a string that is already an absolute normalised
      path returns that path: `abspath(abspath(s)) == abspath(s)`. */
  lemma AbsPathOfToString(cwd: Path, p: Path)
    requires Valid(cwd) && Valid(p)
    ensures AbsPath(cwd, ToString(p)) == p
  {
    ToStringSplit(p);
    assert StartsWith(ToString(p), "/");
    var cs := SplitOn(ToString(p), '/');
    if p != [] {
      assert cs == [""] + p;
      assert cs[1..] == p;
      assert Resolve([], cs) == Resolve([], p);
      ResolveValidSuffix([], p);
    } else {
      assert cs == ["", ""];
      assert Resolve([], cs) == Resolve([], [""]);
      assert Resolve([], [""]) == Resolve([], []);
    }
  }

  /** Distinct normalised paths have distinct strings. */
  lemma ToStringInjective(p: Path, q: Path)
    requires Valid(p) && Valid(q) && ToString(p) == ToString(q)
    ensures p == q
  {
    AbsPathOfToString([], p);
    AbsPathOfToString([], q);
  }

  /** The longest common component prefix of two paths. */
  function CommonPrefix(a: Path, b: Path): (r: Path)
    ensures r <= a && r <= b
    ensures |r| < |a| && |r| < |b| ==> a[|r|] != b[|r|]
  {
    if a == [] || b == [] || a[0] != b[0] then []
    else [a[0]] + CommonPrefix(a[1..], b[1..])
  }

  /** `os.path.commonpath([p, root]) == root` holds exactly when `root` is a
      component prefix of `p`. */
  lemma CommonPrefixIsRoot(p: Path, root: Path)
    ensures CommonPrefix(p, root) == root <==> root <= p
  {
  }

  /** Python's `os.path.commonpath([abspath(s), root]) == root`, the test
      by which a path is inside the monitored root. */
  predicate WithinRoot(cwd: Path, root: Path, s: string)
    requires Valid(cwd) && Valid(root)
  {
    ToString(CommonPrefix(AbsPath(cwd, s), root)) == ToString(root)
  }

  /** The string test agrees with component containment. */
  lemma WithinRootIsPrefix(cwd: Path, root: Path, s: string)
    requires Valid(cwd) && Valid(root)
    ensures WithinRoot(cwd, root, s) <==> root <= AbsPath(cwd, s)
  {
    var a := AbsPath(cwd, s);
    var c := CommonPrefix(a, root);
    assert Valid(c) by {
      forall i | 0 <= i < |c| ensures ValidComponent(c[i]) { assert c[i] == a[i]; }
    }
    if ToString(c) == ToString(root) {
      ToStringInjective(c, root);
    }
    CommonPrefixIsRoot(a, root);
  }

  // pathlib.PurePosixPath

  /** A `pathlib` path: its root and its parts, with empty and `.` parts
      dropped but `..` kept. The root is `""` for a relative path, `"/"`,
      or `"//"`: POSIX lets a path that starts with exactly two slashes keep
      them, and `pathlib` does. */
  datatype PurePath = PurePath(root: string, parts: seq<string>)
  {
    predicate Absolute() {
      root != ""
    }
  }

  /** The root `pathlib` reads off `s`: two slashes stay two, one or three
      and more become one. */
  function PureRoot(s: string): (r: string)
    ensures r == "" <==> !StartsWith(s, "/")
    ensures r == "//" <==> StartsWith(s, "//") && !StartsWith(s, "///")
    ensures r == "" || r == "/" || r == "//"
  {
    if StartsWith(s, "//") && !StartsWith(s, "///") then "//"
    else if StartsWith(s, "/") then "/"
    else ""
  }

  function Clean(cs: seq<string>): (r: seq<string>)
    ensures forall i :: 0 <= i < |r| ==> r[i] != "" && r[i] != "."
    ensures NoSlash(cs) ==> NoSlash(r)
  {
    if cs == [] then []
    else if cs[0] == "" || cs[0] == "." then Clean(cs[1..])
    else [cs[0]] + Clean(cs[1..])
  }

  /** `Path(s)`. */
  function Pure(s: string): PurePath {
    PurePath(PureRoot(s), Clean(SplitOn(s, '/')))
  }

  /** `base / s`: an absolute `s` replaces `base`. */
  function PureJoin(base: PurePath, s: string): PurePath {
    var q := Pure(s);
    if q.Absolute() then q else PurePath(base.root, base.parts + q.parts)
  }

  /** `str(path)`. */
  function PureString(p: PurePath): string {
    if p.Absolute() then p.root + Join(p.parts, "/")
    else if p.parts == [] then "."
    else Join(p.parts, "/")
  }

  /** The path as `Path.resolve()` sees it lexically, against `cwd`; the
      root, of one slash or two, resolves to `/`. */
  function Normalise(cwd: Path, p: PurePath): (r: Path)
    requires Valid(cwd) && NoSlash(p.parts)
    ensures Valid(r)
  {
    Resolve(if p.Absolute() then [] else cwd, p.parts)
  }

  /** Dropping the empty and `.` parts does not change where a path
      resolves to. */
  lemma {:induction false} ResolveClean(base: Path, cs: seq<string>)
    requires Valid(base) && NoSlash(cs)
    ensures Resolve(base, Clean(cs)) == Resolve(base, cs)
    decreases |cs|
  {
    if cs != [] {
      assert NoSlash(cs[1..]) by {
        forall i | 0 <= i < |cs[1..]| ensures '/' !in cs[1..][i] { assert cs[1..][i] == cs[i + 1]; }
      }
      if cs[0] == "" || cs[0] == "." {
        ResolveClean(base, cs[1..]);
      } else {
        var next := if cs[0] == ".." then (if base == [] then [] else base[..|base| - 1]) else base + [cs[0]];
        ResolveClean(next, cs[1..]);
        assert ([cs[0]] + Clean(cs[1..]))[1..] == Clean(cs[1..]);
      }
    }
  }

  /** `Path(s).resolve()` and `os.path.abspath(s)` agree lexically. */
  lemma NormalisePure(cwd: Path, s: string)
    requires Valid(cwd)
    ensures Normalise(cwd, Pure(s)) == AbsPath(cwd, s)
  {
    ResolveClean(if StartsWith(s, "/") then [] else cwd, SplitOn(s, '/'));
  }

  /** A part `pathlib` keeps: not empty, not `.`, without a slash. */
  predicate KeptPart(c: string) {
    c != [] && c != "." && '/' !in c
  }

  lemma {:induction false} CleanKeeps(cs: seq<string>)
    requires forall i :: 0 <= i < |cs| ==> KeptPart(cs[i])
    ensures Clean(cs) == cs
    decreases |cs|
  {
    if cs != [] {
      assert forall i :: 0 <= i < |cs[1..]| ==> cs[1..][i] == cs[i + 1];
      CleanKeeps(cs[1..]);
    }
  }

  /** `Path(str(p)) == p` for a path under a root of one slash, with at
      least one part. */
  lemma PureOfPureString(p: PurePath)
    requires p.root == "/" && p.parts != []
    requires forall i :: 0 <= i < |p.parts| ==> KeptPart(p.parts[i])
    ensures Pure(PureString(p)) == p
  {
    var cs := [""] + p.parts;
    assert cs[1..] == p.parts;
    assert Join(cs, "/") == PureString(p);
    assert forall k :: 0 <= k < |cs| ==> '/' !in cs[k] by {
      forall k | 0 <= k < |cs| ensures '/' !in cs[k] {
        if k > 0 { assert cs[k] == p.parts[k - 1]; }
      }
    }
    SplitJoin(cs, '/');
    CleanKeeps(p.parts);
    assert Clean(cs) == Clean(p.parts);
    assert PureString(p)[1] == p.parts[0][0];
  }

  /** `Path(str(p)) == p` for a path under the two-slash root, with at least
      one part: the two slashes survive the round trip. */
  lemma PureOfDoubleRootString(p: PurePath)
    requires p.root == "//" && p.parts != []
    requires forall i :: 0 <= i < |p.parts| ==> KeptPart(p.parts[i])
    ensures Pure(PureString(p)) == p
  {
    var cs := ["", ""] + p.parts;
    assert cs[2..] == p.parts;
    assert Join(cs, "/") == PureString(p);
    assert forall k :: 0 <= k < |cs| ==> '/' !in cs[k] by {
      forall k | 0 <= k < |cs| ensures '/' !in cs[k] {
        if k > 1 { assert cs[k] == p.parts[k - 2]; }
      }
    }
    SplitJoin(cs, '/');
    CleanKeeps(p.parts);
    assert Clean(cs) == Clean(cs[1..]) == Clean(p.parts);
    assert PureString(p)[2] == p.parts[0][0];
  }

  /** A resolved path seen as a `pathlib` path. */
  function AsPure(p: Path): PurePath {
    PurePath("/", p)
  }
}
