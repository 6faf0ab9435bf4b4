/**
 * The upward search of lib/config_file_finder.rb. The environment the Ruby
 * code asks for (`Dir.pwd`, `Dir.home`, `File.exist?`) is passed in as an
 * `Env`; the pattern list in effect is passed to the pure queries as an
 * explicit snapshot.
 */
module ConfigFileFinder {
  import opened Wrappers
  import opened Results
  import opened Lists
  import opened FilePaths

  /** `SYSTEM_ROOT`, the path `/`. */
  const SYSTEM_ROOT: Path := []

  /** `DEFAULT_ROOT_PATTERNS`: markers whose presence makes a directory a project root. */
  const DEFAULT_ROOT_PATTERNS: seq<string> :=
    [".git/", ".hg/", ".svn/", "lib/", "bin/", "src/", "test/",
     "README.md", "README.txt", "README.markdown", "README"]

  /** The single path component each default pattern expands to. */
  const DEFAULT_ROOT_MARKERS: seq<string> :=
    [".git", ".hg", ".svn", "lib", "bin", "src", "test",
     "README.md", "README.txt", "README.markdown", "README"]

  /** The environment: working directory, home directory and the paths that exist. */
  datatype Env = Env(cwd: Path, home: Path, fs: set<Path>)

  /** The classification of a directory (`dir_type`). */
  datatype DirKind = ProjectRoot | SystemRoot | UserRoot | Unknown

  /**
   * A key of a `files` entry: a classification, with `_config` appended
   * (`project_root_config`) or without it (`project_root`).
   */
  datatype Key = Key(kind: DirKind, config: bool)

  /** One `files` entry `{ key => path }`. */
  datatype Entry = Entry(key: Key, path: Path)

  type FindResults = Results<seq<Entry>>

  function KindName(k: DirKind): string
  {
    match k
    case ProjectRoot => "project_root"
    case SystemRoot => "system_root"
    case UserRoot => "user_root"
    case Unknown => "unknown"
  }

  /** `String#tr(from, to)` for single characters. */
  function Tr(s: string, from: char, to: char): (t: string)
    ensures |t| == |s|
  {
    if s == [] then []
    else [if s[0] == from then to else s[0]] + Tr(s[1..], from, to)
  }

  /** `tr` replaces every `from` by `to` and keeps every other character. */
  lemma {:induction false} TrAt(s: string, from: char, to: char, i: nat)
    requires i < |s|
    ensures Tr(s, from, to)[i] == if s[i] == from then to else s[i]
  {
    if i > 0 {
      TrAt(s[1..], from, to, i - 1);
    }
  }

  lemma {:induction false} TrUnchanged(s: string, from: char, to: char)
    requires from !in s
    ensures Tr(s, from, to) == s
  {
    if s != [] {
      TrUnchanged(s[1..], from, to);
    }
  }

  lemma {:induction false} TrAppend(s: string, t: string, from: char, to: char)
    ensures Tr(s + t, from, to) == Tr(s, from, to) + Tr(t, from, to)
  {
    if s != [] {
      assert (s + t)[1..] == s[1..] + t;
      TrAppend(s[1..], t, from, to);
    } else {
      assert s + t == t;
    }
  }

  /** Two words joined by `_` come out joined by a space. */
  lemma TrWords(a: string, b: string)
    requires '_' !in a && '_' !in b
    ensures Tr(a + "_" + b, '_', ' ') == a + " " + b
  {
    TrAppend(a + "_", b, '_', ' ');
    TrAppend(a, "_", '_', ' ');
    TrUnchanged(a, '_', ' ');
    TrUnchanged(b, '_', ' ');
  }

  /** The message `failure_results` builds. */
  function FailureMessage(name: string, kind: DirKind): string
  {
    "Couldn't find config file " + name + ", stopping search at "
      + Tr(KindName(kind), '_', ' ') + " directory"
  }

  /**
   * What `detect_project_root_files(dir)` computes: the expanded
   * `dir`+pattern paths that exist, in pattern order.
   */
  function RootMatches(patterns: seq<string>, dir: Path, fs: set<Path>): (matches: seq<Path>)
    ensures |matches| <= |patterns|
    ensures forall i :: 0 <= i < |matches| ==> matches[i] in fs
  {
    if patterns == [] then []
    else
      var found := RootMatches(patterns[..|patterns| - 1], dir, fs);
      var file := Resolve(dir, patterns[|patterns| - 1]);
      if file in fs then found + [file] else found
  }

  /** `project_root?(dir)`: some marker pattern resolves to an existing path. */
  predicate HasRootMarker(patterns: seq<string>, dir: Path, fs: set<Path>)
  {
    RootMatches(patterns, dir, fs) != []
  }

  /** `stop_searching?(dir)` */
  predicate StopSearching(patterns: seq<string>, dir: Path, env: Env)
  {
    HasRootMarker(patterns, dir, env.fs) || dir == env.home || dir == SYSTEM_ROOT
  }

  /** `dir_type(dir)`: project root first, then `/`, then home. */
  function DirType(patterns: seq<string>, dir: Path, env: Env): DirKind
  {
    if HasRootMarker(patterns, dir, env.fs) then ProjectRoot
    else if dir == SYSTEM_ROOT then SystemRoot
    else if dir == env.home then UserRoot
    else Unknown
  }

  /** `config_type(dir)`: the directory's classification with `_config`. */
  function ConfigType(patterns: seq<string>, dir: Path, env: Env): Key
  {
    Key(DirType(patterns, dir, env), true)
  }

  /** The record `find` returns when `file` exists in `dir`. */
  function SuccessResults(patterns: seq<string>, dir: Path, env: Env, file: Path): FindResults
  {
    NewResults(Success, [Entry(ConfigType(patterns, dir, env), file)])
  }

  /** `failure_results(dir)` */
  function FailureResults(name: string, patterns: seq<string>, dir: Path, env: Env): FindResults
  {
    var kind := DirType(patterns, dir, env);
    NewResults(Failed, [Entry(Key(kind, false), dir)], Some(FailureMessage(name, kind)))
  }

  /** The walk of `find` from `dir` upward. */
  function SearchFrom(name: string, patterns: seq<string>, env: Env, dir: Path): FindResults
    decreases |dir|
  {
    var file := Resolve(dir, name);
    if file in env.fs then SuccessResults(patterns, dir, env, file)
    else if StopSearching(patterns, dir, env) then FailureResults(name, patterns, dir, env)
    else SearchFrom(name, patterns, env, Parent(dir))
  }

  /** What `find` returns. */
  function Search(name: string, patterns: seq<string>, env: Env): FindResults
  {
    SearchFrom(name, patterns, env, env.cwd)
  }

  /** The config file `name` exists in `dir`. */
  predicate ConfigIn(name: string, dir: Path, fs: set<Path>)
  {
    Resolve(dir, name) in fs
  }

  /** The walk passes through `dir`: the file is not there and the search goes on. */
  predicate PassesThrough(name: string, patterns: seq<string>, env: Env, dir: Path)
  {
    !ConfigIn(name, dir, env.fs) && !StopSearching(patterns, dir, env)
  }

  /**
   * `r` is what the walk returns when it ends at `dir`: the success record
   * for `dir` if the file is there, and otherwise the failure record for
   * `dir`, where the search must stop.
   */
  predicate EndsWith(name: string, patterns: seq<string>, env: Env, dir: Path, r: FindResults)
  {
    if ConfigIn(name, dir, env.fs) then
      r == Results(Success, [Entry(Key(DirType(patterns, dir, env), true), Resolve(dir, name))], None)
    else
      && StopSearching(patterns, dir, env)
      && r == Results(Failed, [Entry(Key(DirType(patterns, dir, env), false), dir)],
                      Some(FailureMessage(name, DirType(patterns, dir, env))))
  }

  /**
   * The walk from `start` passes through its first `k` ancestors and ends
   * at the `k`-th with result `r`.
   */
  ghost predicate EndsAt(name: string, patterns: seq<string>, env: Env, start: Path, k: nat, r: FindResults)
  {
    && k <= |start|
    && (forall j :: 0 <= j < k ==> PassesThrough(name, patterns, env, Ancestor(start, j)))
    && EndsWith(name, patterns, env, Ancestor(start, k), r)
  }

  /**
   * Every walk ends, at one of the at most `|dir| + 1` directories on the
   * way up; `k` says which.
   */
  lemma {:induction false} SearchFromEnds(name: string, patterns: seq<string>, env: Env, dir: Path)
    returns (k: nat)
    ensures EndsAt(name, patterns, env, dir, k, SearchFrom(name, patterns, env, dir))
  {
    var r := SearchFrom(name, patterns, env, dir);
    assert Ancestor(dir, 0) == dir;
    if !PassesThrough(name, patterns, env, dir) {
      assert EndsWith(name, patterns, env, dir, r);
      k := 0;
    } else {
      var up := Parent(dir);
      assert r == SearchFrom(name, patterns, env, up);
      var k' := SearchFromEnds(name, patterns, env, up);
      AncestorOfParent(dir, k');
      forall j | 0 <= j < k' + 1
        ensures PassesThrough(name, patterns, env, Ancestor(dir, j))
      {
        if j > 0 {
          AncestorOfParent(dir, j - 1);
        }
      }
      k := k' + 1;
    }
  }

  /** The end of a walk is unique. */
  lemma EndsAtUnique(name: string, patterns: seq<string>, env: Env, start: Path,
                     k: nat, k': nat, r: FindResults, r': FindResults)
    requires EndsAt(name, patterns, env, start, k, r) && EndsAt(name, patterns, env, start, k', r')
    ensures k == k' && r == r'
  {
  }

  /** Any walk that ends at some ancestor is the walk of `find`. */
  lemma EndsAtIsSearch(name: string, patterns: seq<string>, env: Env, start: Path, k: nat, r: FindResults)
    requires EndsAt(name, patterns, env, start, k, r)
    ensures r == SearchFrom(name, patterns, env, start)
  {
    var k' := SearchFromEnds(name, patterns, env, start);
    EndsAtUnique(name, patterns, env, start, k, k', r, SearchFrom(name, patterns, env, start));
  }

  /** Detection distributes over the pattern list, so matches come in pattern order. */
  lemma {:induction false} RootMatchesAppend(ps: seq<string>, qs: seq<string>, dir: Path, fs: set<Path>)
    ensures RootMatches(ps + qs, dir, fs) == RootMatches(ps, dir, fs) + RootMatches(qs, dir, fs)
  {
    if qs == [] {
      assert ps + qs == ps;
    } else {
      var init, q := qs[..|qs| - 1], qs[|qs| - 1];
      assert (ps + qs)[..|ps + qs| - 1] == ps + init;
      RootMatchesAppend(ps, init, dir, fs);
    }
  }

  /** A path is detected exactly when it exists and some pattern expands to it. */
  lemma {:induction false} RootMatchesMembership(patterns: seq<string>, dir: Path, fs: set<Path>, p: Path)
    ensures p in RootMatches(patterns, dir, fs) <==>
            p in fs && exists i :: 0 <= i < |patterns| && Resolve(dir, patterns[i]) == p
  {
    if patterns != [] {
      var init := patterns[..|patterns| - 1];
      assert patterns == init + [patterns[|patterns| - 1]];
      RootMatchesMembership(init, dir, fs, p);
      if exists i :: 0 <= i < |patterns| && Resolve(dir, patterns[i]) == p {
        var i :| 0 <= i < |patterns| && Resolve(dir, patterns[i]) == p;
        if i < |init| {
          assert init[i] == patterns[i];
        }
      }
      if exists i :: 0 <= i < |init| && Resolve(dir, init[i]) == p {
        var i :| 0 <= i < |init| && Resolve(dir, init[i]) == p;
        assert patterns[i] == init[i];
      }
    }
  }

  /** `project_root?(dir)` holds iff some pattern expands to an existing path. */
  lemma HasRootMarkerIff(patterns: seq<string>, dir: Path, fs: set<Path>)
    ensures HasRootMarker(patterns, dir, fs) <==>
            exists i :: 0 <= i < |patterns| && Resolve(dir, patterns[i]) in fs
  {
    if exists i :: 0 <= i < |patterns| && Resolve(dir, patterns[i]) in fs {
      var i :| 0 <= i < |patterns| && Resolve(dir, patterns[i]) in fs;
      RootMatchesMembership(patterns, dir, fs, Resolve(dir, patterns[i]));
    }
    if HasRootMarker(patterns, dir, fs) {
      RootMatchesMembership(patterns, dir, fs, RootMatches(patterns, dir, fs)[0]);
    }
  }

  /** The default patterns are distinct. */
  lemma DefaultPatternsDistinct()
    ensures NoDuplicates(DEFAULT_ROOT_PATTERNS)
  {
  }

  /** Each default pattern names one entry directly inside the directory. */
  lemma DefaultPatternsExpand(dir: Path)
    ensures |DEFAULT_ROOT_MARKERS| == |DEFAULT_ROOT_PATTERNS|
    ensures forall i :: 0 <= i < |DEFAULT_ROOT_PATTERNS| ==>
              Resolve(dir, DEFAULT_ROOT_PATTERNS[i]) == dir + [DEFAULT_ROOT_MARKERS[i]]
  {
    forall i | 0 <= i < |DEFAULT_ROOT_PATTERNS|
      ensures Resolve(dir, DEFAULT_ROOT_PATTERNS[i]) == dir + [DEFAULT_ROOT_MARKERS[i]]
    {
      var m := DEFAULT_ROOT_MARKERS[i];
      assert NormalComponent(m);
      if i < 7 {
        assert DEFAULT_ROOT_PATTERNS[i] == m + "/";
        ResolveBareDirName(dir, m);
      } else {
        assert DEFAULT_ROOT_PATTERNS[i] == m;
        ResolveBareName(dir, m);
      }
    }
  }

  /** With the default patterns a project root is a directory holding one of the markers. */
  lemma DefaultRootMarker(dir: Path, fs: set<Path>)
    ensures HasRootMarker(DEFAULT_ROOT_PATTERNS, dir, fs) <==>
            exists i :: 0 <= i < |DEFAULT_ROOT_MARKERS| && dir + [DEFAULT_ROOT_MARKERS[i]] in fs
  {
    DefaultPatternsExpand(dir);
    HasRootMarkerIff(DEFAULT_ROOT_PATTERNS, dir, fs);
  }

  /** A directory the search stops at is never `unknown`, and every other one is. */
  lemma StopIffClassified(patterns: seq<string>, dir: Path, env: Env)
    ensures StopSearching(patterns, dir, env) <==> DirType(patterns, dir, env) != Unknown
  {
  }

  /**
   * The precedence of `dir_type`: a project root wins even when it is also
   * `/` or home, and `/` wins over home.
   */
  lemma DirTypePrecedence(patterns: seq<string>, dir: Path, env: Env)
    ensures HasRootMarker(patterns, dir, env.fs) ==> DirType(patterns, dir, env) == ProjectRoot
    ensures DirType(patterns, dir, env) == SystemRoot <==> !HasRootMarker(patterns, dir, env.fs) && dir == []
    ensures DirType(patterns, dir, env) == UserRoot <==>
            !HasRootMarker(patterns, dir, env.fs) && dir != [] && dir == env.home
  {
  }

  // One lemma per classification keeps each string computation small.
  lemma ProjectRootInWords()
    ensures Tr("project_root", '_', ' ') == "project root"
  {
    assert "project_root" == "project" + "_" + "root";
    TrWords("project", "root");
    assert "project" + " " + "root" == "project root";
  }

  lemma SystemRootInWords()
    ensures Tr("system_root", '_', ' ') == "system root"
  {
    assert "system_root" == "system" + "_" + "root";
    TrWords("system", "root");
    assert "system" + " " + "root" == "system root";
  }

  lemma UserRootInWords()
    ensures Tr("user_root", '_', ' ') == "user root"
  {
    assert "user_root" == "user" + "_" + "root";
    TrWords("user", "root");
    assert "user" + " " + "root" == "user root";
  }

  lemma UnknownInWords()
    ensures Tr("unknown", '_', ' ') == "unknown"
  {
    TrUnchanged("unknown", '_', ' ');
  }

  /** Each classification in words, as the failure message shows it. */
  lemma KindNamesInWords()
    ensures Tr(KindName(ProjectRoot), '_', ' ') == "project root"
    ensures Tr(KindName(SystemRoot), '_', ' ') == "system root"
    ensures Tr(KindName(UserRoot), '_', ' ') == "user root"
    ensures Tr(KindName(Unknown), '_', ' ') == "unknown"
  {
    ProjectRootInWords();
    SystemRootInWords();
    UserRootInWords();
    UnknownInWords();
  }

  /** The message names the stopping directory's classification in words. */
  lemma FailureMessageWords(name: string)
    ensures FailureMessage(name, ProjectRoot) ==
            "Couldn't find config file " + name + ", stopping search at " + "project root" + " directory"
    ensures FailureMessage(name, SystemRoot) ==
            "Couldn't find config file " + name + ", stopping search at " + "system root" + " directory"
    ensures FailureMessage(name, UserRoot) ==
            "Couldn't find config file " + name + ", stopping search at " + "user root" + " directory"
    ensures FailureMessage(name, Unknown) ==
            "Couldn't find config file " + name + ", stopping search at " + "unknown" + " directory"
  {
    KindNamesInWords();
  }

  /**
   * The shape of every result of `find`: exactly one entry; a success is
   * keyed `<dir_type>_config` without a message; a failure is keyed by the
   * stopping directory's classification, which is never `unknown`, maps it
   * to that directory and carries the message.
   */
  lemma SearchShape(name: string, patterns: seq<string>, env: Env)
    ensures var r := Search(name, patterns, env);
      && |r.files| == 1
      && (r.IsSuccess() ==> r.files[0].key.config && r.message == None)
      && (r.IsFailed() ==>
            && !r.files[0].key.config
            && r.files[0].key.kind != Unknown
            && r.files[0].key.kind == DirType(patterns, r.files[0].path, env)
            && StopSearching(patterns, r.files[0].path, env)
            && r.message == Some(FailureMessage(name, r.files[0].key.kind)))
  {
    var k := SearchFromEnds(name, patterns, env, env.cwd);
    StopIffClassified(patterns, Ancestor(env.cwd, k), env);
  }

  /**
   * `find` succeeds exactly when, going up from the working directory, a
   * directory holding the file is reached before one where the search stops.
   */
  lemma SearchSucceedsIff(name: string, patterns: seq<string>, env: Env)
    ensures Search(name, patterns, env).IsSuccess() <==>
            exists k: nat :: k <= |env.cwd| && ConfigIn(name, Ancestor(env.cwd, k), env.fs) &&
                             forall j :: 0 <= j < k ==> PassesThrough(name, patterns, env, Ancestor(env.cwd, j))
  {
    var k := SearchFromEnds(name, patterns, env, env.cwd);
  }

  /** The finder: a config file name and the root patterns in effect. */
  class Finder {
    const configFileName: string
    var rootPatterns: seq<string>

    /** `ConfigFileFinder.new(name, options)`: a private copy of the defaults. */
    constructor (configFileName: string)
      ensures this.configFileName == configFileName
      ensures rootPatterns == DEFAULT_ROOT_PATTERNS
    {
      this.configFileName := configFileName;
      rootPatterns := [] + DEFAULT_ROOT_PATTERNS;
    }

    /** The `root_patterns=` writer. */
    method SetRootPatterns(patterns: seq<string>)
      modifies this
      ensures rootPatterns == patterns
    {
      rootPatterns := patterns;
    }

    /**
     * `add_root_patterns(arg = [])`: the old patterns followed by the new
     * ones, duplicates dropped. The old patterns keep their order at the
     * front, every new pattern is present, and nothing else is. The new list
   * is also returned, as the value of the assignment.
     */
    method AddRootPatterns(arg: PatternArg := List([])) returns (patterns: seq<string>)
      modifies this
      ensures patterns == rootPatterns
      ensures rootPatterns == Uniq(old(rootPatterns) + Flatten(arg))
      ensures NoDuplicates(rootPatterns)
      ensures |Uniq(old(rootPatterns))| <= |rootPatterns|
      ensures Uniq(old(rootPatterns)) == rootPatterns[..|Uniq(old(rootPatterns))|]
      ensures forall p :: p in rootPatterns <==> p in old(rootPatterns) || p in Flatten(arg)
      ensures NoDuplicates(old(rootPatterns)) && (forall p :: p in Flatten(arg) ==> p in old(rootPatterns))
              ==> rootPatterns == old(rootPatterns)
    {
      var before := rootPatterns;
      var added := Flatten(arg);
      rootPatterns := Uniq(before + added);
      UniqAppendExtends(before, added);
      forall p ensures p in rootPatterns <==> p in before || p in added {
        if p in before + added {
          var i :| 0 <= i < |before + added| && (before + added)[i] == p;
        }
      }
      if NoDuplicates(before) && forall p :: p in added ==> p in before {
        UniqAppendPresent(before, added);
        UniqOfDistinct(before);
      }
      patterns := rootPatterns;
    }

    /** `detect_project_root_files(dir)`: the expanded patterns that exist, in order. */
    method DetectProjectRootFiles(dir: Path, fs: set<Path>) returns (matches: seq<Path>)
      ensures matches == RootMatches(rootPatterns, dir, fs)
    {
      matches := [];
      var i := 0;
      while i < |rootPatterns|
        invariant 0 <= i <= |rootPatterns|
        invariant matches == RootMatches(rootPatterns[..i], dir, fs)
      {
        var file := Resolve(dir, rootPatterns[i]);
        if file in fs {
          matches := matches + [file];
        }
        assert rootPatterns[..i + 1][..i] == rootPatterns[..i];
        i := i + 1;
      }
      assert rootPatterns[..i] == rootPatterns;
    }

    /** `project_root?(dir)`: some pattern expands to an existing path. */
    method IsProjectRoot(dir: Path, fs: set<Path>) returns (b: bool)
      ensures b <==> exists i :: 0 <= i < |rootPatterns| && Resolve(dir, rootPatterns[i]) in fs
    {
      var matches := DetectProjectRootFiles(dir, fs);
      b := |matches| > 0;
      HasRootMarkerIff(rootPatterns, dir, fs);
    }

    /**
     * `find`: the upward walk from the working directory. `visited` counts
     * the directories examined, at most one more than the depth of the
     * working directory.
     */
    method Find(env: Env) returns (r: FindResults, ghost visited: nat)
      ensures r == Search(configFileName, rootPatterns, env)
      ensures 1 <= visited <= |env.cwd| + 1
    {
      var name, patterns := configFileName, rootPatterns;
      var dir := env.cwd;
      visited := 0;
      while true
        invariant visited <= |env.cwd| && |dir| == |env.cwd| - visited
        invariant SearchFrom(name, patterns, env, dir) == Search(name, patterns, env)
        decreases |dir|
      {
        var file := Resolve(dir, name);
        if file in env.fs {
          return NewResults(Success, [Entry(ConfigType(patterns, dir, env), file)]), visited + 1;
        }
        if StopSearching(patterns, dir, env) {
          break;
        }
        dir := Parent(dir);
        visited := visited + 1;
      }
      r := FailureResults(name, patterns, dir, env);
      visited := visited + 1;
    }
  }
}
