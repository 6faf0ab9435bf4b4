/**
 * Absolute paths as lists of components, and the two uses the finder makes
 * of `File.expand_path`: joining a relative name onto a directory and
 * stepping to the parent with `'..'`.
 */
module FilePaths {

  /** An absolute path; `[]` is the filesystem root `/`. */
  type Path = seq<string>

  /** A path in the normal form `File.expand_path` produces. */
  predicate NormalComponent(c: string)
  {
    c != "" && c != "." && c != ".." && '/' !in c
  }

  predicate IsNormal(p: Path)
  {
    forall i :: 0 <= i < |p| ==> NormalComponent(p[i])
  }

  /** The directory one level up; the root is its own parent. */
  function Parent(dir: Path): (p: Path)
    ensures dir == [] ==> p == []
    ensures dir != [] ==> |p| == |dir| - 1 && dir == p + [dir[|dir| - 1]]
  {
    if dir == [] then [] else dir[..|dir| - 1]
  }

  /** The `k`-th directory on the way from `dir` up to `/`. */
  function Ancestor(dir: Path, k: nat): (a: Path)
    requires k <= |dir|
    ensures |a| == |dir| - k
  {
    dir[..|dir| - k]
  }

  lemma AncestorOfParent(dir: Path, k: nat)
    requires dir != [] && k < |dir|
    ensures Ancestor(Parent(dir), k) == Ancestor(dir, k + 1)
  {
  }

  /** The pieces of `s` between slashes, empty pieces included. */
  function Split(s: string): (parts: seq<string>)
    ensures |parts| >= 1
    ensures forall i :: 0 <= i < |parts| ==> '/' !in parts[i]
  {
    if s == [] then [""]
    else if s[0] == '/' then [""] + Split(s[1..])
    else
      var rest := Split(s[1..]);
      [[s[0]] + rest[0]] + rest[1..]
  }

  /** One component applied to a directory: `""` and `"."` stay, `".."` goes up. */
  function Step(dir: Path, c: string): Path
  {
    if c == "" || c == "." then dir
    else if c == ".." then Parent(dir)
    else dir + [c]
  }

  /** The components applied left to right. */
  function Walk(dir: Path, cs: seq<string>): (p: Path)
    requires forall i :: 0 <= i < |cs| ==> '/' !in cs[i]
    ensures IsNormal(dir) ==> IsNormal(p)
    decreases cs
  {
    if cs == [] then dir else Walk(Step(dir, cs[0]), cs[1..])
  }

  /**
   * `File.expand_path(name, dir)` for an absolute `dir`: a name starting
   * with `/` starts again at the root, otherwise it is taken relative to
   * `dir`; the result of a normal directory is normal.
   */
  function Resolve(dir: Path, name: string): (p: Path)
    ensures IsNormal(dir) ==> IsNormal(p)
  {
    var base := if |name| > 0 && name[0] == '/' then [] else dir;
    Walk(base, Split(name))
  }

  lemma {:induction false} SplitWithoutSlash(name: string)
    requires '/' !in name
    ensures Split(name) == [name]
  {
    if name != [] {
      SplitWithoutSlash(name[1..]);
      assert [name[0]] + name[1..] == name;
    }
  }

  lemma {:induction false} SplitTrailingSlash(name: string)
    requires '/' !in name
    ensures Split(name + "/") == [name, ""]
  {
    if name == [] {
      assert name + "/" == "/";
    } else {
      assert (name + "/")[1..] == name[1..] + "/";
      SplitTrailingSlash(name[1..]);
      assert [name[0]] + name[1..] == name;
    }
  }

  /** A bare name is appended as one component. */
  lemma ResolveBareName(dir: Path, name: string)
    requires NormalComponent(name)
    ensures Resolve(dir, name) == dir + [name]
  {
    SplitWithoutSlash(name);
    assert name[0] in name;
    assert Walk(dir + [name], []) == dir + [name];
  }

  /** A bare name with a trailing slash (`.git/`) is appended without the slash. */
  lemma ResolveBareDirName(dir: Path, name: string)
    requires NormalComponent(name)
    ensures Resolve(dir, name + "/") == dir + [name]
  {
    SplitTrailingSlash(name);
    assert (name + "/")[0] == name[0] && name[0] in name;
    assert Walk(dir + [name], [""]) == Walk(dir + [name], []);
  }

  /** `File.expand_path('..', dir)` is the parent directory. */
  lemma ResolveDotDotIsParent(dir: Path)
    ensures Resolve(dir, "..") == Parent(dir)
  {
    SplitWithoutSlash("..");
    assert Walk(Parent(dir), []) == Parent(dir);
  }
}
