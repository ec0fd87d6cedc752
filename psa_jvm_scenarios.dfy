/**
 * The multi-module Maven fixture, analysed with the default registry. The
 * Maven analyzer's behaviour is not modelled, so what it does on the
 * fixture is stated as hypotheses: it governs the root, and it returns a
 * root module named after the directory whose sub-modules are "module1"
 * and "module2", in that order.
 */
module PsaJvmScenarios {
  import opened Wrappers
  import opened PsaProject
  import opened Paths
  import opened PsaJvm

  const FixtureName := "multi_mod_maven_project"

  /** The fixture directory below the crate's parent directory `base`. */
  function FixturePath(base: string): (path: string)
    ensures FileName(path) == Some(FixtureName)
  {
    FileNameOfJoin(base + "/_fixtures/projects/java", FixtureName);
    base + "/_fixtures/projects/java" + "/" + FixtureName
  }

  method AnalyseMultiModuleMavenProject(
    base: string, listing: seq<string>, maven: ModuleAnalyzer, root: Module)
    returns (project: Project)
    requires MavenBuildFile in listing
    requires forall i :: 0 <= i < |listing| && IsBuildFile(listing[i]) ==> listing[i] == MavenBuildFile
    requires maven.isRelated(Project(FixtureName, FixturePath(base), MavenType, []))
    requires maven.analysis(FixturePath(base), FixturePath(base)) == Some(root)
    requires root.name == FixtureName
    requires |root.subModules| == 2
    requires root.subModules[0].name == "module1" && root.subModules[1].name == "module2"
    ensures |project.modules| == 1
    ensures project.projectType == MavenType
    ensures project.modules[0].name == project.name == FixtureName
    ensures project.modules[0] == root
    ensures |project.modules[0].subModules| == 2
    ensures project.modules[0].subModules[0].name == "module1"
    ensures project.modules[0].subModules[1].name == "module2"
  {
    var path := FixturePath(base);
    var i :| 0 <= i < |listing| && listing[i] == MavenBuildFile;
    assert IsBuildFile(listing[i]);
    GetBuildFileFound(listing);
    var analyzer := new JvmProjectStructureAnalyzer.Default(maven);
    assert IsFirstRelated(analyzer.moduleAnalyzers, Project(FixtureName, path, MavenType, []), 0);
    project := analyzer.Analysis(path, listing);
  }
}
