/** The build configuration the script loads once from webui.config.json and
    never changes. Directories are kept as sequences of path segments. */
module Config {

  /** A file-system path as its segments; joining two paths is concatenation. */
  type Path = seq<string>

  /** One entry of `cpp.buildArgs`: a flag and its value (empty for a bare flag). */
  datatype BuildArg = BuildArg(key: string, value: string)

  /** The `cpp` section. `buildSystemOptions` holds the entries of
      `cpp.buildSystem.options` in `Object.entries` order. */
  datatype CppConfig = CppConfig(
    targetName: string,
    defaultBuildTargetType: string,
    sourceDir: Path,
    buildDir: Path,
    webuiSubDirName: string,
    buildSystemPath: string,
    buildSystemOptions: seq<(string, string)>,
    generatorPath: string,
    generatorName: string,
    compilerName: string,
    compilerPath: string,
    buildArgs: seq<BuildArg>)

  /** The `node` section: the HTML template and its output, the bundler's
      output directory, the marker to substitute, the two bundler commands and
      the two dev-mode ports. */
  datatype NodeConfig = NodeConfig(
    indexTemplate: Path,
    indexHtml: Path,
    output: Path,
    webuiBridge: string,
    devCommand: string,
    buildCommand: string,
    nodeServer: nat,
    webuiServer: nat)

  datatype BuildConfig = BuildConfig(
    targetOs: string,
    targetArchitecture: string,
    cpp: CppConfig,
    node: NodeConfig)
}
