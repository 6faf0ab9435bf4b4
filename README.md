# config_file_finder, modelled in Dafny

`ConfigFileFinder` looks for a named configuration file. It starts in the working
directory and walks up one parent at a time. It stops with success in the first
directory that holds the file. Without the file, it stops with a failure at the
first directory that is a project root, the home directory or `/`. A project
root is a directory where one of the root patterns (`.git/`, `lib/`,
`README.md`, ...) names an existing path. The failure record names the
stopping directory, classified as `project_root`, `system_root`, `user_root` or
`unknown` in that precedence, and carries a message.

The project has six modules, one per file:

- `Results` (results.dfy) is the `Results` value object: an outcome, the
  files and an optional message, with `success?` and `failed?`.
- `ConfigFileFinder` (config_file_finder.dfy) holds the `Finder` class. Its
  `rootPatterns` field is updated in place by `AddRootPatterns`.
  `DetectProjectRootFiles` and `Find` are loops. Each is proved against a pure
  function: `RootMatches` for the detection, `SearchFrom`/`Search` for the
  walk. The pure queries `stop_searching?`, `dir_type`, `config_type` and
  `failure_results` become the functions `StopSearching`, `DirType`,
  `ConfigType` and `FailureResults`. They take the pattern list as an explicit
  snapshot.
- `FilePaths` (file_paths.dfy) treats a path as a list of components, with
  `[]` standing for `/`. `Resolve` is `File.expand_path(name, dir)` for an
  absolute `dir`: it splits the name on `/`, drops empty and `.` components,
  lets `..` go up, and restarts at the root for a name that starts with `/`.
  So `.git/` expands to `dir + [".git"]`, `..` to the parent, and the root is
  its own parent.
- `Lists` (lists.dfy) holds Ruby's `Array#uniq` (the first occurrence is
  kept) and the one-level `flatten` that `add_root_patterns` relies on.
- `FinderScenarios` (scenarios.dfy) works through the situations of the
  repository's RSpec file on the model.
- `Wrappers` (wrappers.dfy) holds the `Option` type that stands for `nil`.

The environment is passed in as `Env(cwd, home, fs)`: the working directory,
the home directory, and the set of paths for which `File.exist?` holds.

`find` returns a Ruby Hash with the keys `result`, `files` and `message`, not a
`Results` object. The model returns the `Results` datatype with those three
fields instead. The success Hash has no `:message` key, so its message is
`None`.

A `files` entry `{ key => path }` is an `Entry(Key(kind, config), path)`. The
entry `:user_root_config` is `Key(UserRoot, true)`; `:user_root` is
`Key(UserRoot, false)`.

The walk examines at most depth + 1 directories. Those are the working
directory and each ancestor up to `/`. `Find` proves this bound through its
ghost `visited` count, and `SearchFromEnds` proves it through its index `k`.

`default_root_patterns` (lib/config_file_finder.rb:15-17) returns the current
list `@root_patterns`, not the defaults. The model follows the code: there
it is just a read of the field `rootPatterns`.

## Model

| member | source | states |
|---|---|---|
| Results.NewResults | lib/results.rb:4-8 | the accessors return exactly the constructor arguments; `success?` holds iff the outcome is `:success`, `failed?` iff it is `:failed` |
| Results.MessageDefaultsToNil | lib/results.rb:4-7 | a record built without a message has message `nil` |
| Results.SuccessExcludesFailure | lib/results.rb:10-16 | `success?` and `failed?` are never both true, and one of them holds for the two outcomes the finder builds |
| Lists.Uniq | lib/config_file_finder.rb:20 | `uniq` has no duplicates, the same elements as its input, and is no longer than it |
| Lists.UniqKeepsFirstOccurrenceOrder | lib/config_file_finder.rb:20 | `uniq` lists the elements in the order of their first occurrences |
| Lists.UniqOfDistinct | lib/config_file_finder.rb:20 | a list without duplicates is its own `uniq` |
| Lists.UniqAppendPresent | lib/config_file_finder.rb:20 | appending elements already present leaves the `uniq` unchanged |
| Lists.UniqAppendExtends | lib/config_file_finder.rb:20 | the `uniq` of `s + t` starts with the `uniq` of `s`, so existing patterns keep their places |
| Lists.SingleSameAsList | lib/config_file_finder.rb:19-20 | for any pattern list, adding one pattern as a string or as a one-element list gives the same new patterns |
| FilePaths.Parent | lib/config_file_finder.rb:29 | the parent drops the last component, and `/` is its own parent |
| FilePaths.Resolve | lib/config_file_finder.rb:41 | expanding any name against a normalised directory gives a normalised absolute path |
| FilePaths.ResolveBareName | lib/config_file_finder.rb:26 | a bare file name such as `.config.yml` is appended as one component |
| FilePaths.ResolveBareDirName | lib/config_file_finder.rb:7 | a pattern with a trailing slash such as `.git/` expands to the name without the slash |
| FilePaths.ResolveDotDotIsParent | lib/config_file_finder.rb:29 | `File.expand_path('..', dir)` is the parent of `dir` |
| ConfigFileFinder.TrAt | lib/config_file_finder.rb:52 | `tr('_', ' ')` replaces each underscore by a space and keeps every other character |
| ConfigFileFinder.KindNamesInWords | lib/config_file_finder.rb:52 | the four classifications read `project root`, `system root`, `user root` and `unknown` |
| ConfigFileFinder.FailureMessageWords | lib/config_file_finder.rb:49-52 | the failure message is `Couldn't find config file <name>, stopping search at <classification in words> directory` |
| ConfigFileFinder.RootMatches | lib/config_file_finder.rb:38-45 | every detected path exists, and there are no more of them than patterns |
| ConfigFileFinder.RootMatchesMembership | lib/config_file_finder.rb:38-45 | a path is detected iff it exists and some pattern expands to it against `dir` |
| ConfigFileFinder.RootMatchesAppend | lib/config_file_finder.rb:40-43 | detection over `ps + qs` is detection over `ps` followed by detection over `qs`, so matches come in pattern order |
| ConfigFileFinder.HasRootMarkerIff | lib/config_file_finder.rb:34-36 | `project_root?(dir)` holds iff some pattern expands to an existing path |
| ConfigFileFinder.DefaultPatternsDistinct | lib/config_file_finder.rb:7 | the default patterns have no duplicates |
| ConfigFileFinder.DefaultPatternsExpand | lib/config_file_finder.rb:7 | each default pattern expands to one entry directly inside the directory (`.git/` to `dir/.git`) |
| ConfigFileFinder.DefaultRootMarker | lib/config_file_finder.rb:34-45 | with the defaults, a directory is a project root iff it holds one of the eleven marker entries |
| ConfigFileFinder.StopIffClassified | lib/config_file_finder.rb:56-71 | `stop_searching?(dir)` holds iff `dir_type(dir)` is not `unknown`, in both directions |
| ConfigFileFinder.DirTypePrecedence | lib/config_file_finder.rb:64-71 | a project root is `project_root` even when it is `/` or home; otherwise `/` is `system_root`, and home other than `/` is `user_root` |
| ConfigFileFinder.FailureMessage | lib/config_file_finder.rb:51-52 | no contract of its own: `FailureMessageWords` states the message text for each classification |
| ConfigFileFinder.HasRootMarker | lib/config_file_finder.rb:34-36 | no contract of its own: `HasRootMarkerIff` states when `project_root?` holds, and `DefaultRootMarker` states it for the defaults |
| ConfigFileFinder.StopSearching | lib/config_file_finder.rb:56-58 | no contract of its own: `StopIffClassified` states that it holds iff `DirType` is not `unknown` |
| ConfigFileFinder.DirType | lib/config_file_finder.rb:64-71 | no contract of its own: `DirTypePrecedence` states the precedence of the four classifications |
| ConfigFileFinder.ConfigType | lib/config_file_finder.rb:60-62 | no contract of its own: `SearchFromEnds` and `SearchShape` state that a success is keyed by it |
| ConfigFileFinder.SuccessResults | lib/config_file_finder.rb:27 | no contract of its own: `SearchFromEnds` and `SearchShape` state the success record |
| ConfigFileFinder.FailureResults | lib/config_file_finder.rb:49-54 | no contract of its own: `SearchFromEnds` and `SearchShape` state the failure record and its message |
| ConfigFileFinder.SearchFrom | lib/config_file_finder.rb:25-31 | no contract of its own: `SearchFromEnds`, `EndsAtUnique` and `EndsAtIsSearch` characterise it by the ancestor where the walk ends |
| ConfigFileFinder.Search | lib/config_file_finder.rb:23-32 | no contract of its own: `SearchShape` and `SearchSucceedsIff` state its shape and when it succeeds |
| ConfigFileFinder.SearchFromEnds | lib/config_file_finder.rb:23-32 | from any directory, the walk ends at one of the at most depth + 1 directories on the way up. It passes through each earlier directory without the file and without a stop condition. It returns the `<dir_type>_config` success record if the file is there, and otherwise the failure record at a directory where the search must stop |
| ConfigFileFinder.EndsAtUnique | lib/config_file_finder.rb:25-30 | the directory where the walk ends and the result are uniquely determined: it is the first directory on the chain that holds the file or stops the search |
| ConfigFileFinder.EndsAtIsSearch | lib/config_file_finder.rb:23-32 | any result that ends the walk in that way is what `find` returns |
| ConfigFileFinder.SearchShape | lib/config_file_finder.rb:27-53 | every result has exactly one entry. A success is keyed `_config` and has no message. A failure is keyed by `dir_type` of the directory it names, which is never `unknown`, maps it to a directory where the search stops, and carries the message for that classification |
| ConfigFileFinder.SearchSucceedsIff | lib/config_file_finder.rb:25-28 | `find` succeeds iff a directory holding the file is reached before any directory where the search stops |
| ConfigFileFinder.Finder.constructor | lib/config_file_finder.rb:9-13 | a new finder keeps the file name, and its patterns equal the defaults |
| ConfigFileFinder.Finder.SetRootPatterns | lib/config_file_finder.rb:4 | the `root_patterns=` writer replaces the list |
| ConfigFileFinder.Finder.AddRootPatterns | lib/config_file_finder.rb:19-21 | the new list is `uniq` of the old list followed by the argument. It has no duplicates and starts with the old patterns in their order. It contains exactly the old and the added patterns. Adding only patterns already present to a duplicate-free list leaves the list unchanged. The new list is also the return value. Only this finder changes |
| ConfigFileFinder.Finder.DetectProjectRootFiles | lib/config_file_finder.rb:38-45 | the loop returns exactly `RootMatches` of the current patterns |
| ConfigFileFinder.Finder.IsProjectRoot | lib/config_file_finder.rb:34-36 | the result is true iff some current pattern expands to an existing path |
| ConfigFileFinder.Finder.Find | lib/config_file_finder.rb:23-32 | the loop returns exactly the walk `Search`, after examining between 1 and depth + 1 directories |
| FinderScenarios.FromProjectFound | spec/config_file_finder_spec.rb:25-35 | from the project root, with `.git` and the file there, the result is `project_root_config` mapped to the file |
| FinderScenarios.FromProjectNothingOnDisk | spec/config_file_finder_spec.rb:37-56 | from the project root, with nothing on disk, the search fails at `user_root` `/users/me` with the user-root message |
| FinderScenarios.FromProjectMarkedOnly | spec/config_file_finder_spec.rb:58-76 | from the project root, with only `.git` there, the search fails at `project_root` with the project-root message |
| FinderScenarios.FromChildFound | spec/config_file_finder_spec.rb:87-97 | from a child directory, with `.git` and the file at the root, the result is `project_root_config` mapped to the file |
| FinderScenarios.FromChildNothingOnDisk | spec/config_file_finder_spec.rb:99-113 | from a child directory, with nothing on disk, the search fails at `user_root` `/users/me` |
| FinderScenarios.FromChildMarkedOnly | spec/config_file_finder_spec.rb:115-133 | from a child directory, with only `.git` at the root, the search fails at `project_root` |
| FinderScenarios.AddingFoo | spec/config_file_finder_spec.rb:146-180 | adding `.foo` as a string or as a one-element list gives the defaults followed by `.foo` |
| FinderScenarios.FromChildFoundByAddedPattern | spec/config_file_finder_spec.rb:146-180 | after adding `.foo`, from a child directory, with only `.foo` and the file at the project root, the file is found as `project_root_config` |
| FinderScenarios.AddToOneFinder | lib/config_file_finder.rb:12 | two finders start as distinct objects holding the defaults; adding `.foo` to one leaves the other's patterns equal to the defaults |

## Left out

- The real environment. `Dir.pwd`, `Dir.home` and `File.exist?` are the fields of `Env`. `File.exist?` is membership in a set of paths. It does not tell files from directories, and it never fails.
- `Dir.home` is evaluated once per `find` call, as `env.home`. The source asks for it again in every iteration.
- FilePaths.Resolve: does not model `~` expansion, symbolic links or a relative base directory. Only `/`, `.` and `..` are interpreted. A working or home directory is assumed to be given in this normal form.
- ConfigFileFinder.Finder.AddRootPatterns: does not model the in-place `<<` on the old array. A caller holding the array from the `root_patterns` reader sees it grow by the argument, while the finder's field gets a new array. The model has no array identity.
- ConfigFileFinder.Finder.AddRootPatterns: only a string or a flat list of strings is accepted. Ruby's `flatten` would also flatten deeper nesting and keep non-string elements.
- ConfigFileFinder.Finder.SetRootPatterns: the writer accepts any Ruby value, including the frozen `DEFAULT_ROOT_PATTERNS`. A later `add_root_patterns` would then raise `FrozenError`. The model only accepts lists of strings and never raises.
- The `options` constructor argument is stored but never read, so the constructor takes only the file name.
- `default_root_patterns` and the `root_patterns` reader are plain reads of `rootPatterns` and have no member of their own.
- Results.SuccessExcludesFailure: `Results.new` accepts any `result` value, and then both `success?` and `failed?` are false. The model's outcome has only the two symbols the finder uses, so the second ensures ("one of them holds") is true only for those.
- Ruby symbols and hashes. File keys and outcomes are datatypes, not symbols. The text of a key such as `project_root_config` is not built.
- Concurrency. A concurrent `add_root_patterns` during `find` is not modelled. The pure walk functions take a snapshot of the patterns.
- `require 'config_file_finder/version'` is package metadata.
