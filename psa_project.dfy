/**
 * The records the analyzer produces. Their definitions live in the crate's
 * `psa_project` and module files, which are not part of this model; only the
 * fields the orchestrator reads or writes are kept.
 */
module PsaProject {

  /** Convention-derived directories of one module, relative to its directory. */
  datatype ContentRoot = ContentRoot(
    sourceRoot: seq<string>,
    resourceRoot: seq<string>,
    testSourceRoot: seq<string>,
    testResourceRoot: seq<string>)

  /** One node of the module tree: the project root or a declared sub-module. */
  datatype Module = Module(name: string, contentRoot: ContentRoot, subModules: seq<Module>)

  /** The root record returned by an analysis. */
  datatype Project = Project(
    name: string,
    absolutePath: string,
    projectType: string,
    modules: seq<Module>)
}
