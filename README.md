# JVM project-structure analyzer (psa) — orchestrator model

A Dafny model of the JVM project-structure orchestrator of the `psa` crate
(`psa/src/jvm/psa_jvm.rs`). Given a project directory it

- decides whether the directory is a project root: some entry is a build-file
  marker (`pom.xml` or `build.gradle`);
- classifies the build system from the first marker in the directory listing:
  `pom.xml` gives `"maven"`, anything else the placeholder `"UnKnow"`;
- takes the project name from the last path segment;
- walks the ordered registry of module analyzers and asks the first one that
  governs the project to analyse the root, passing the root path as both
  project path and module path. Its answer is final: no later analyzer is
  consulted, even when that answer is empty;
- returns a `Project` whose module list holds that answer, if any.

Files:

- `wrappers.dfy`: `Option`.
- `psa_project.dfy`: the `Project`, `Module` and `ContentRoot` records. They are
  defined in the crate's `psa_project` and module files, which are not part of
  this model. `Project::new` is modelled as a project with an empty module list.
  `add_modules` is modelled as appending to that list.
- `paths.dfy`: `Path::file_name` for '/'-separated paths. Repeated and trailing
  separators are ignored and "." segments are skipped. A path ending in "..",
  the root and the empty path have no file name. It is proved equal to a
  reference definition: split the path at '/', keep the segments that are
  neither empty nor ".", and take the last one if it is not "..".
- `psa_jvm.dfy`: the detector, the dispatch rule and the
  `JvmProjectStructureAnalyzer` class, with its loops as methods.
- `psa_jvm_scenarios.dfy`: the multi-module Maven fixture run through the
  default registry.

Modelling choices:

- The directory listing that `files::list_file_names` returns for the project
  path is a parameter `listing: seq<string>`.
- The `ModuleAnalyzer` trait is a datatype with two function-valued fields,
  `isRelated` and `analysis`. Nothing is assumed about them. The default
  registry is the constructor `Default(maven)`, which takes the Maven analyzer
  as a parameter.
- `analysis` unwraps a missing build file and a missing file name. Both are
  preconditions of `Analysis`.
- The analyzer sees the project before its modules are added. This is the
  `shell` in the contract of `Analysis`.
- When several markers are present, `get_build_file` returns the first one in
  listing order (`find`, psa/src/jvm/psa_jvm.rs:78). No priority between marker
  names is applied. `ProjectTypeFollowsListingOrder` shows the consequence:
  with both markers present, the project type depends on the order of the
  directory entries. Whether the directory is a project root does not depend
  on that order (`HasBuildFileOrderIndependent`).

## Model

| member | source | states |
|---|---|---|
| `PsaJvm.IsBuildFile` | psa/src/jvm/psa_jvm.rs:90-96 | true exactly for the two marker names `pom.xml` and `build.gradle`, false for every other string |
| `PsaJvm.GetProjectType` | psa/src/jvm/psa_jvm.rs:69-74 | the type is `"maven"` iff the build file is `pom.xml`; every other name, `build.gradle` included, gives `"UnKnow"` |
| `PsaJvm.GetBuildFile` | psa/src/jvm/psa_jvm.rs:76-79 | `None` iff no entry is a build file; otherwise the earliest build-file entry of the listing, with no build file before it |
| `PsaJvm.GetBuildFileFound` | psa/src/jvm/psa_jvm.rs:76-79 | when a build file exists, the result is an entry of the listing at the first build-file index |
| `PsaJvm.HasBuildFileOrderIndependent` | psa/src/jvm/psa_jvm.rs:58-66 | two listings with the same entries in any order agree on whether the directory is a project root |
| `PsaJvm.ProjectTypeFollowsListingOrder` | psa/src/jvm/psa_jvm.rs:49-50 | with both markers present, `pom.xml` listed first gives `"maven"` and `build.gradle` listed first gives `"UnKnow"` |
| `PsaJvm.MavenTypeIffPomFirst` | psa/src/jvm/psa_jvm.rs:49-50 | for a project root, the type is `"maven"` iff the first build file in the listing is `pom.xml` |
| `PsaJvm.FirstMatch` | psa/src/jvm/psa_jvm.rs:27-35 | `None` when no analyzer is related; otherwise exactly the answer of the earliest related analyzer on (absolute path, absolute path), even when that answer is `None` |
| `PsaJvm.FirstMatchIgnoresLater` | psa/src/jvm/psa_jvm.rs:28-33 | once some analyzer is related, appending more analyzers never changes the result |
| `PsaJvm.FirstMatchSkipsUnrelated` | psa/src/jvm/psa_jvm.rs:28-33 | analyzers that are not related and stand ahead of the rest do not change the result |
| `PsaJvm.GetProjectName` | psa/src/jvm/psa_jvm.rs:81-88 | the name is the last component of the project path; it is one normal path segment (non-empty, not "." or "..", no separator), and it is the file name of that segment joined under any directory |
| `Paths.FileName` | psa/src/jvm/psa_jvm.rs:82-84 | a file name, when there is one, is a normal path segment |
| `Paths.Split` | psa/src/jvm/psa_jvm.rs:82-83 | the segments of a path contain no separator, and joining them with '/' gives the path back |
| `Paths.FileNameIsLastComponent` | psa/src/jvm/psa_jvm.rs:82-84 | for every path, the file name is the last of its non-empty, non-"." segments, and there is none when there is no such segment or it is ".." |
| `Paths.FileNameOfJoin` | psa/src/jvm/psa_jvm.rs:82-84 | the file name of `dir + "/" + name` is `name` for every normal segment `name` |
| `Paths.FileNameOfSegment` | psa/src/jvm/psa_jvm.rs:82-84 | a bare normal segment is its own file name |
| `Paths.FileNameOfTails` | psa/src/jvm/psa_jvm.rs:82-84 | appending "/" or "/." leaves the file name unchanged, and a path ending in "/.." has none |
| `Paths.FileNameOfRoot` | psa/src/jvm/psa_jvm.rs:82-84 | the root, any run of separators and the empty path have no file name |
| `PsaJvm.JvmProjectStructureAnalyzer.constructor` | psa/src/jvm/psa_jvm.rs:12-14 | the registry is the given ordered analyzer sequence |
| `PsaJvm.JvmProjectStructureAnalyzer.Default` | psa/src/jvm/psa_jvm.rs:38-44 | the default registry holds the Maven analyzer alone |
| `PsaJvm.JvmProjectStructureAnalyzer.IsRelated` | psa/src/jvm/psa_jvm.rs:58-66 | true iff some entry of the listing is a build file, which holds iff `GetBuildFile` finds one |
| `PsaJvm.JvmProjectStructureAnalyzer.AnalysisModule` | psa/src/jvm/psa_jvm.rs:27-35 | the loop with its early return computes `FirstMatch` over the registry |
| `PsaJvm.JvmProjectStructureAnalyzer.AnalysisModules` | psa/src/jvm/psa_jvm.rs:17-25 | the list has at most one module; it has one iff the dispatch found a module, and then that module is its single element |
| `PsaJvm.JvmProjectStructureAnalyzer.Analysis` | psa/src/jvm/psa_jvm.rs:47-56 | for a path with a file name and a listing with a build file: the absolute path is the path, the name its last segment, the type that of the first build file; the module list has at most one entry, and it holds the module of the first related analyzer asked about the module-less project |
| `PsaJvmScenarios.FixturePath` | psa/src/jvm/psa_jvm.rs:211-222 | the fixture path built under any base directory has file name `multi_mod_maven_project` |
| `PsaJvmScenarios.AnalyseMultiModuleMavenProject` | psa/src/jvm/psa_jvm.rs:106-125 | with the default registry, a listing whose only marker is `pom.xml`, and a Maven analyzer that governs the root and returns a root module named after the directory with sub-modules `module1` and `module2`: exactly one module, type `"maven"`, the module's name equals the project name, and its two sub-modules are `module1` then `module2` |

## Left out

- Directory listing I/O (`files::list_file_names`): the listing of the project path is a parameter. Its order is whatever the file system returns.
- The Maven module analyzer (`MavenModuleAnalyzer`): its relatedness test, pom parsing, sub-module recursion and content-root derivation are not part of this model. Every analyzer is an uninterpreted pair of functions.
- The content-root tests (psa/src/jvm/psa_jvm.rs:127-209): they check the Maven analyzer and `join_path`, not this file's logic.
- `PsaJvmScenarios.AnalyseMultiModuleMavenProject`: the root module's name and its two sub-modules `module1` and `module2` come from the Maven analyzer. They are hypotheses on its answer (`requires`), which the orchestrator is proved to pass through unchanged. They are not derived from the fixture's pom file.
- Windows paths, prefixes and `OsString` conversion in `get_project_name`: paths are Unix-style, '/'-separated strings of characters. The second `unwrap`, on non-UTF-8 names, cannot fail on Dafny strings.
- The panics of `analysis` on a missing build file or file name: they are preconditions, not modelled error results.
- Dynamic dispatch (`Box<dyn ModuleAnalyzer>`): the registry is an ordered sequence of analyzer values.
- The `coco` command-line tool (`src/bin/coco.rs`): argument parsing, configuration loading, repository fetching and file output share no logic with the analyzer.
