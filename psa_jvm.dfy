/**
 * The JVM project-structure orchestrator: decides whether a directory is a
 * project root, classifies its build system from the marker file it holds,
 * and builds the root `Project`, asking the first related module analyzer
 * for the root module.
 *
 * The directory listing of the project path is passed in as `listing`
 * instead of being read from disk.
 */
module PsaJvm {
  import opened Wrappers
  import opened PsaProject
  import opened Paths

  /** Build-descriptor file names the detector recognises. */
  const MavenBuildFile := "pom.xml"
  const GradleBuildFile := "build.gradle"

  /** Project types: Maven, and the placeholder every other marker maps to. */
  const MavenType := "maven"
  const UnknownType := "UnKnow"

  /**
   * A module analyzer for one build system, known only through its two
   * operations: whether it governs a project, and the module it builds for
   * a (project path, module path) pair.
   */
  datatype ModuleAnalyzer = ModuleAnalyzer(
    isRelated: Project -> bool,
    analysis: (string, string) -> Option<Module>)

  // ---------------------------------------------------------------------
  // Build-system detection

  function IsBuildFile(fileName: string): (r: bool)
    ensures r <==> fileName in {MavenBuildFile, GradleBuildFile}
  {
    match fileName
    case "pom.xml" => true
    case "build.gradle" => true
    case _ => false
  }

  function GetProjectType(buildFile: string): (r: string)
    ensures r == MavenType <==> buildFile == MavenBuildFile
    ensures r in {MavenType, UnknownType}
  {
    match buildFile
    case "pom.xml" => MavenType
    case _ => UnknownType
  }

  /** Some entry of the listing is a build file. */
  ghost predicate HasBuildFile(listing: seq<string>) {
    exists i :: 0 <= i < |listing| && IsBuildFile(listing[i])
  }

  /** Entry `i` is the earliest build file of the listing. */
  ghost predicate IsFirstBuildFile(listing: seq<string>, i: int) {
    && 0 <= i < |listing|
    && IsBuildFile(listing[i])
    && forall j :: 0 <= j < i ==> !IsBuildFile(listing[j])
  }

  /** The first build file of the listing, in listing order. */
  function GetBuildFile(listing: seq<string>): (r: Option<string>)
    ensures r.None? <==> !HasBuildFile(listing)
    ensures forall i :: IsFirstBuildFile(listing, i) ==> r == Some(listing[i])
  {
    if listing == [] then None
    else if IsBuildFile(listing[0]) then Some(listing[0])
    else
      var rest := listing[1..];
      assert forall i :: IsFirstBuildFile(listing, i) ==> IsFirstBuildFile(rest, i - 1);
      assert HasBuildFile(rest) ==> HasBuildFile(listing) by {
        if HasBuildFile(rest) {
          var i :| 0 <= i < |rest| && IsBuildFile(rest[i]);
          assert listing[i + 1] == rest[i];
        }
      }
      GetBuildFile(rest)
  }

  /** A non-empty `find` result is a build file that occurs in the listing. */
  lemma {:induction false} GetBuildFileFound(listing: seq<string>)
    requires HasBuildFile(listing)
    ensures exists i :: IsFirstBuildFile(listing, i) && GetBuildFile(listing) == Some(listing[i])
  {
    if IsBuildFile(listing[0]) {
      assert IsFirstBuildFile(listing, 0);
    } else {
      var i :| 0 <= i < |listing| && IsBuildFile(listing[i]);
      assert IsBuildFile(listing[1..][i - 1]);
      GetBuildFileFound(listing[1..]);
      var k :| IsFirstBuildFile(listing[1..], k) && GetBuildFile(listing[1..]) == Some(listing[1..][k]);
      assert IsFirstBuildFile(listing, k + 1);
    }
  }

  /** Whether a directory is a project root does not depend on the order of its entries. */
  lemma HasBuildFileOrderIndependent(a: seq<string>, b: seq<string>)
    requires multiset(a) == multiset(b)
    ensures HasBuildFile(a) <==> HasBuildFile(b)
  {
    forall x: seq<string>, y: seq<string> | multiset(x) == multiset(y) && HasBuildFile(x)
      ensures HasBuildFile(y)
    {
      var i :| 0 <= i < |x| && IsBuildFile(x[i]);
      assert x[i] in multiset(x);
      assert x[i] in y;
      var j :| 0 <= j < |y| && y[j] == x[i];
    }
  }

  /** The detected marker, and so the project type, does depend on it. */
  lemma ProjectTypeFollowsListingOrder()
    ensures GetProjectType(GetBuildFile([MavenBuildFile, GradleBuildFile]).value) == MavenType
    ensures GetProjectType(GetBuildFile([GradleBuildFile, MavenBuildFile]).value) == UnknownType
  {
    assert IsFirstBuildFile([MavenBuildFile, GradleBuildFile], 0);
    assert IsFirstBuildFile([GradleBuildFile, MavenBuildFile], 0);
  }

  /** The project is typed "maven" exactly when the first marker in the listing is pom.xml. */
  lemma MavenTypeIffPomFirst(listing: seq<string>)
    requires HasBuildFile(listing)
    ensures GetProjectType(GetBuildFile(listing).value) == MavenType
        <==> exists i :: IsFirstBuildFile(listing, i) && listing[i] == MavenBuildFile
  {
    GetBuildFileFound(listing);
  }

  // ---------------------------------------------------------------------
  // Module-analyzer dispatch

  /** Some analyzer of the registry governs the project. */
  ghost predicate AnyRelated(analyzers: seq<ModuleAnalyzer>, project: Project) {
    exists i :: 0 <= i < |analyzers| && analyzers[i].isRelated(project)
  }

  /** Analyzer `i` is the earliest one of the registry that governs the project. */
  ghost predicate IsFirstRelated(analyzers: seq<ModuleAnalyzer>, project: Project, i: int) {
    && 0 <= i < |analyzers|
    && analyzers[i].isRelated(project)
    && forall j :: 0 <= j < i ==> !analyzers[j].isRelated(project)
  }

  /**
   * First match wins: the earliest related analyzer analyses the project
   * root, given as both project path and module path; its answer is final.
   */
  function FirstMatch(analyzers: seq<ModuleAnalyzer>, project: Project): (r: Option<Module>)
    ensures !AnyRelated(analyzers, project) ==> r == None
    ensures forall i :: IsFirstRelated(analyzers, project, i) ==>
      r == analyzers[i].analysis(project.absolutePath, project.absolutePath)
  {
    if analyzers == [] then None
    else if analyzers[0].isRelated(project) then
      analyzers[0].analysis(project.absolutePath, project.absolutePath)
    else
      var rest := analyzers[1..];
      assert forall i :: IsFirstRelated(analyzers, project, i) ==> IsFirstRelated(rest, project, i - 1);
      assert AnyRelated(rest, project) ==> AnyRelated(analyzers, project) by {
        if AnyRelated(rest, project) {
          var i :| 0 <= i < |rest| && rest[i].isRelated(project);
          assert analyzers[i + 1] == rest[i];
        }
      }
      FirstMatch(rest, project)
  }

  /** Analyzers after a related one are never consulted, whatever that one returns. */
  lemma {:induction false} FirstMatchIgnoresLater(
    analyzers: seq<ModuleAnalyzer>, later: seq<ModuleAnalyzer>, project: Project)
    requires AnyRelated(analyzers, project)
    ensures FirstMatch(analyzers + later, project) == FirstMatch(analyzers, project)
  {
    if !analyzers[0].isRelated(project) {
      var i :| 0 <= i < |analyzers| && analyzers[i].isRelated(project);
      assert analyzers[1..][i - 1] == analyzers[i];
      assert (analyzers + later)[1..] == analyzers[1..] + later;
      FirstMatchIgnoresLater(analyzers[1..], later, project);
    }
  }

  /** Unrelated analyzers ahead of the rest change nothing. */
  lemma {:induction false} FirstMatchSkipsUnrelated(
    unrelated: seq<ModuleAnalyzer>, rest: seq<ModuleAnalyzer>, project: Project)
    requires !AnyRelated(unrelated, project)
    ensures FirstMatch(unrelated + rest, project) == FirstMatch(rest, project)
  {
    if unrelated != [] {
      assert !unrelated[0].isRelated(project);
      assert (unrelated + rest)[1..] == unrelated[1..] + rest;
      assert !AnyRelated(unrelated[1..], project) by {
        forall i | 0 <= i < |unrelated[1..]| ensures !unrelated[1..][i].isRelated(project) {
          assert unrelated[1..][i] == unrelated[i + 1];
        }
      }
      FirstMatchSkipsUnrelated(unrelated[1..], rest, project);
    } else {
      assert unrelated + rest == rest;
    }
  }

  // ---------------------------------------------------------------------
  // The orchestrator

  /**
   * The project name: the last component of the path. `get_project_name`
   * panics when the path has no file name.
   */
  function GetProjectName(projectPath: string): (name: string)
    requires FileName(projectPath).Some?
    ensures IsNormalSegment(name)
    ensures var components := Components(Split(projectPath));
      components != [] && name == components[|components| - 1]
    ensures forall dir :: FileName(dir + "/" + name) == Some(name)
  {
    FileNameIsLastComponent(projectPath);
    var name := FileName(projectPath).value;
    assert forall dir :: FileName(dir + "/" + name) == Some(name) by {
      forall dir ensures FileName(dir + "/" + name) == Some(name) {
        FileNameOfJoin(dir, name);
      }
    }
    name
  }

  class JvmProjectStructureAnalyzer {
    /** The registry, in priority order. */
    const moduleAnalyzers: seq<ModuleAnalyzer>

    constructor (analyzers: seq<ModuleAnalyzer>)
      ensures moduleAnalyzers == analyzers
    {
      moduleAnalyzers := analyzers;
    }

    /** The default registry holds the Maven analyzer alone. */
    constructor Default(maven: ModuleAnalyzer)
      ensures moduleAnalyzers == [maven]
    {
      moduleAnalyzers := [maven];
    }

    /** Whether the directory whose entries are `listing` is a project root. */
    method IsRelated(listing: seq<string>) returns (r: bool)
      ensures r <==> HasBuildFile(listing)
      ensures r <==> GetBuildFile(listing).Some?
    {
      for i := 0 to |listing|
        invariant forall j :: 0 <= j < i ==> !IsBuildFile(listing[j])
      {
        if IsBuildFile(listing[i]) {
          return true;
        }
      }
      return false;
    }

    /** Asks the registry, in order, for the module of the project root. */
    method AnalysisModule(project: Project) returns (m: Option<Module>)
      ensures m == FirstMatch(moduleAnalyzers, project)
    {
      for i := 0 to |moduleAnalyzers|
        invariant forall j :: 0 <= j < i ==> !moduleAnalyzers[j].isRelated(project)
      {
        var analyzer := moduleAnalyzers[i];
        if analyzer.isRelated(project) {
          assert IsFirstRelated(moduleAnalyzers, project, i);
          return analyzer.analysis(project.absolutePath, project.absolutePath);
        }
      }
      return None;
    }

    /** The top-level module list: the root module if one was found, else empty. */
    method AnalysisModules(project: Project) returns (modules: seq<Module>)
      ensures |modules| <= 1
      ensures |modules| == 1 <==> FirstMatch(moduleAnalyzers, project).Some?
      ensures |modules| == 1 ==> modules[0] == FirstMatch(moduleAnalyzers, project).value
    {
      modules := [];
      var found := AnalysisModule(project);
      match found {
        case Some(m) => modules := modules + [m];
        case None =>
      }
    }

    /** Builds the root `Project` of the directory at `projectPath`, whose entries are `listing`. */
    method Analysis(projectPath: string, listing: seq<string>) returns (project: Project)
      requires FileName(projectPath).Some?
      requires HasBuildFile(listing)
      ensures project.absolutePath == projectPath
      ensures project.name == GetProjectName(projectPath)
      ensures project.projectType == GetProjectType(GetBuildFile(listing).value)
      ensures var shell := Project(project.name, projectPath, project.projectType, []);
        && |project.modules| <= 1
        && (|project.modules| == 1 <==> FirstMatch(moduleAnalyzers, shell).Some?)
        && (|project.modules| == 1 ==> project.modules[0] == FirstMatch(moduleAnalyzers, shell).value)
    {
      var projectName := GetProjectName(projectPath);
      var buildFile := GetBuildFile(listing).value;
      var projectType := GetProjectType(buildFile);

      project := Project(projectName, projectPath, projectType, []);
      var modules := AnalysisModules(project);
      // add_modules appends to the (still empty) module list
      project := project.(modules := project.modules + modules);
    }
  }
}
