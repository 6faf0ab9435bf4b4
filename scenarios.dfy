/**
 * The situations of spec/config_file_finder_spec.rb, worked through on the
 * model: a project at /users/me/project/root inside the home directory
 * /users/me, searched for `.config.yml`.
 */
module FinderScenarios {
  import opened Wrappers
  import opened Results
  import opened Lists
  import opened FilePaths
  import opened ConfigFileFinder

  const CONFIG_NAME := ".config.yml"
  const HOME: Path := ["users", "me"]
  const PROJECT: Path := ["users", "me", "project", "root"]
  const CHILD: Path := PROJECT + ["child"]

  /** What `find` answers when it stops at the home directory. */
  function StoppedAtHome(): FindResults
  {
    Results(Failed, [Entry(Key(UserRoot, false), HOME)],
            Some("Couldn't find config file " + CONFIG_NAME + ", stopping search at " + "user root" + " directory"))
  }

  /** What `find` answers when it stops at the project root. */
  function StoppedAtProject(): FindResults
  {
    Results(Failed, [Entry(Key(ProjectRoot, false), PROJECT)],
            Some("Couldn't find config file " + CONFIG_NAME + ", stopping search at " + "project root" + " directory"))
  }

  /** What `find` answers when the file is at the project root. */
  function FoundAtProject(): FindResults
  {
    Results(Success, [Entry(Key(ProjectRoot, true), PROJECT + [CONFIG_NAME])], None)
  }

  lemma ConfigNameExpands(dir: Path)
    ensures Resolve(dir, CONFIG_NAME) == dir + [CONFIG_NAME]
  {
    ResolveBareName(dir, CONFIG_NAME);
  }

  /** No directory has a marker when nothing exists. */
  lemma NoMarkerOnEmptyDisk(patterns: seq<string>, dir: Path)
    ensures !HasRootMarker(patterns, dir, {})
  {
    HasRootMarkerIff(patterns, dir, {});
  }

  /** With nothing on disk the home directory stops the search. */
  lemma EmptyDiskAtHome(cwd: Path)
    ensures SearchFrom(CONFIG_NAME, DEFAULT_ROOT_PATTERNS, Env(cwd, HOME, {}), HOME) == StoppedAtHome()
  {
    var env := Env(cwd, HOME, {});
    ConfigNameExpands(HOME);
    NoMarkerOnEmptyDisk(DEFAULT_ROOT_PATTERNS, HOME);
    assert DirType(DEFAULT_ROOT_PATTERNS, HOME, env) == UserRoot;
    assert SearchFrom(CONFIG_NAME, DEFAULT_ROOT_PATTERNS, env, HOME)
        == FailureResults(CONFIG_NAME, DEFAULT_ROOT_PATTERNS, HOME, env);
    FailureMessageWords(CONFIG_NAME);
  }

  /** With nothing on disk every walk that starts below home ends at home. */
  lemma {:induction false} EmptyDiskStopsAtHome(cwd: Path, start: Path, extra: seq<string>)
    requires start == HOME + extra
    ensures SearchFrom(CONFIG_NAME, DEFAULT_ROOT_PATTERNS, Env(cwd, HOME, {}), start) == StoppedAtHome()
    decreases |extra|
  {
    if extra == [] {
      assert start == HOME;
      EmptyDiskAtHome(cwd);
    } else {
      ConfigNameExpands(start);
      NoMarkerOnEmptyDisk(DEFAULT_ROOT_PATTERNS, start);
      assert Parent(start) == HOME + extra[..|extra| - 1];
      EmptyDiskStopsAtHome(cwd, Parent(start), extra[..|extra| - 1]);
    }
  }

  /** spec/config_file_finder_spec.rb:37-56: from the project root, nothing on disk. */
  lemma FromProjectNothingOnDisk()
    ensures Search(CONFIG_NAME, DEFAULT_ROOT_PATTERNS, Env(PROJECT, HOME, {})) == StoppedAtHome()
  {
    EmptyDiskStopsAtHome(PROJECT, PROJECT, ["project", "root"]);
  }

  /** spec/config_file_finder_spec.rb:99-113: from a child directory, nothing on disk. */
  lemma FromChildNothingOnDisk()
    ensures Search(CONFIG_NAME, DEFAULT_ROOT_PATTERNS, Env(CHILD, HOME, {})) == StoppedAtHome()
  {
    EmptyDiskStopsAtHome(CHILD, CHILD, ["project", "root", "child"]);
  }

  const GIT: Path := PROJECT + [".git"]
  const CONFIG: Path := PROJECT + [CONFIG_NAME]

  /** The marker at the project root makes it one, and it is neither home nor `/`. */
  lemma ProjectIsMarked(patterns: seq<string>, fs: set<Path>, i: nat)
    requires i < |patterns| && Resolve(PROJECT, patterns[i]) in fs
    ensures HasRootMarker(patterns, PROJECT, fs)
    ensures forall cwd :: DirType(patterns, PROJECT, Env(cwd, HOME, fs)) == ProjectRoot
  {
    HasRootMarkerIff(patterns, PROJECT, fs);
  }

  /**
   * A directory below the project root is passed through when every pattern
   * expands to one entry inside it and only entries of the project root exist.
   */
  lemma ChildPassesThrough(patterns: seq<string>, fs: set<Path>, cwd: Path)
    requires forall i :: 0 <= i < |patterns| ==> |Resolve(CHILD, patterns[i])| == |CHILD| + 1
    requires forall p :: p in fs ==> |p| == |PROJECT| + 1
    ensures SearchFrom(CONFIG_NAME, patterns, Env(cwd, HOME, fs), CHILD)
         == SearchFrom(CONFIG_NAME, patterns, Env(cwd, HOME, fs), PROJECT)
  {
    ConfigNameExpands(CHILD);
    HasRootMarkerIff(patterns, CHILD, fs);
    assert Parent(CHILD) == PROJECT;
  }

  lemma DefaultsExpandToOneEntry(dir: Path)
    ensures forall i :: 0 <= i < |DEFAULT_ROOT_PATTERNS| ==> |Resolve(dir, DEFAULT_ROOT_PATTERNS[i])| == |dir| + 1
  {
    DefaultPatternsExpand(dir);
  }

  /** spec/config_file_finder_spec.rb:58-76: from the project root, only `.git` there. */
  lemma FromProjectMarkedOnly()
    ensures Search(CONFIG_NAME, DEFAULT_ROOT_PATTERNS, Env(PROJECT, HOME, {GIT})) == StoppedAtProject()
  {
    MarkedProjectStops(PROJECT);
  }

  /** Wherever the walk started, it stops at the marked project root. */
  lemma MarkedProjectStops(cwd: Path)
    ensures SearchFrom(CONFIG_NAME, DEFAULT_ROOT_PATTERNS, Env(cwd, HOME, {GIT}), PROJECT) == StoppedAtProject()
  {
    var env := Env(cwd, HOME, {GIT});
    ConfigNameExpands(PROJECT);
    assert CONFIG[4] != GIT[4];
    assert !ConfigIn(CONFIG_NAME, PROJECT, env.fs);
    DefaultPatternsExpand(PROJECT);
    ProjectIsMarked(DEFAULT_ROOT_PATTERNS, {GIT}, 0);
    assert SearchFrom(CONFIG_NAME, DEFAULT_ROOT_PATTERNS, env, PROJECT)
        == FailureResults(CONFIG_NAME, DEFAULT_ROOT_PATTERNS, PROJECT, env);
    FailureMessageWords(CONFIG_NAME);
  }

  /** spec/config_file_finder_spec.rb:115-133: from a child directory, only `.git` at the root. */
  lemma FromChildMarkedOnly()
    ensures Search(CONFIG_NAME, DEFAULT_ROOT_PATTERNS, Env(CHILD, HOME, {GIT})) == StoppedAtProject()
  {
    DefaultsExpandToOneEntry(CHILD);
    ChildPassesThrough(DEFAULT_ROOT_PATTERNS, {GIT}, CHILD);
    MarkedProjectStops(CHILD);
  }

  /** spec/config_file_finder_spec.rb:25-35: from the project root, `.git` and the file there. */
  lemma FromProjectFound()
    ensures Search(CONFIG_NAME, DEFAULT_ROOT_PATTERNS, Env(PROJECT, HOME, {GIT, CONFIG})) == FoundAtProject()
  {
    ConfigNameExpands(PROJECT);
    DefaultPatternsExpand(PROJECT);
    ProjectIsMarked(DEFAULT_ROOT_PATTERNS, {GIT, CONFIG}, 0);
  }

  /** spec/config_file_finder_spec.rb:87-97: from a child directory, `.git` and the file at the root. */
  lemma FromChildFound()
    ensures Search(CONFIG_NAME, DEFAULT_ROOT_PATTERNS, Env(CHILD, HOME, {GIT, CONFIG})) == FoundAtProject()
  {
    DefaultsExpandToOneEntry(CHILD);
    ChildPassesThrough(DEFAULT_ROOT_PATTERNS, {GIT, CONFIG}, CHILD);
    ConfigNameExpands(PROJECT);
    DefaultPatternsExpand(PROJECT);
    ProjectIsMarked(DEFAULT_ROOT_PATTERNS, {GIT, CONFIG}, 0);
  }

  const FOO: Path := PROJECT + [".foo"]

  /** The defaults with `.foo` added, one string or a one-element list alike. */
  lemma AddingFoo()
    ensures Uniq(DEFAULT_ROOT_PATTERNS + Flatten(Single(".foo"))) == DEFAULT_ROOT_PATTERNS + [".foo"]
    ensures Uniq(DEFAULT_ROOT_PATTERNS + Flatten(List([".foo"]))) == DEFAULT_ROOT_PATTERNS + [".foo"]
  {
    DefaultPatternsDistinct();
    assert NoDuplicates(DEFAULT_ROOT_PATTERNS + [".foo"]);
    UniqOfDistinct(DEFAULT_ROOT_PATTERNS + [".foo"]);
  }

  /**
   * spec/config_file_finder_spec.rb:146-180: after adding `.foo`, from a
   * child directory, `.foo` and the file at the root.
   */
  lemma FromChildFoundByAddedPattern()
    ensures Search(CONFIG_NAME, DEFAULT_ROOT_PATTERNS + [".foo"], Env(CHILD, HOME, {FOO, CONFIG})) == FoundAtProject()
  {
    var patterns := DEFAULT_ROOT_PATTERNS + [".foo"];
    DefaultPatternsExpand(CHILD);
    ResolveBareName(CHILD, ".foo");
    ChildPassesThrough(patterns, {FOO, CONFIG}, CHILD);
    ConfigNameExpands(PROJECT);
    ResolveBareName(PROJECT, ".foo");
    ProjectIsMarked(patterns, {FOO, CONFIG}, |DEFAULT_ROOT_PATTERNS|);
  }

  /**
   * Two finders built from the defaults: adding `.foo` to one leaves the
   * other, and the defaults, as they were.
   */
  method AddToOneFinder() returns (a: Finder, b: Finder)
    ensures a != b
    ensures a.rootPatterns == DEFAULT_ROOT_PATTERNS + [".foo"]
    ensures b.rootPatterns == DEFAULT_ROOT_PATTERNS
  {
    a := new Finder(CONFIG_NAME);
    b := new Finder(CONFIG_NAME);
    var added := a.AddRootPatterns(Single(".foo"));
    AddingFoo();
  }
}
