/**
 * The host objects the EXML integration reads, as plain values: the IDE's
 * files, modules, dependency order entries and file index, the EXML facet's
 * configuration, the file system and archives behind it, and the external
 * EXML compiler. Lookups the IDE performs (the module of a file, the facet of
 * a module, the files of an order entry) are fields of these values.
 */
module ExmlHost {
  import opened JavaLang

  /** The EXML compiler's validation modes. */
  datatype ValidationMode = OFF | WARN | ERROR

  /** The settings an EXML facet holds (the state of its `ExmlcConfigurationBean`), as a value. */
  datatype ExmlcConfig = ExmlcConfig(
    generatedSourcesDirectory: string,
    generatedTestSourcesDirectory: string,
    generatedResourcesDirectory: string,
    xsd: string,
    configClassPackage: string,
    validationMode: ValidationMode,
    showCompilerInfoMessages: bool)

  /** The EXML facet's settings object, whose fields the Maven importer overwrites. */
  class ExmlcConfigurationBean {
    var generatedSourcesDirectory: string
    var generatedTestSourcesDirectory: string
    var generatedResourcesDirectory: string
    var xsd: string
    var configClassPackage: string
    var validationMode: ValidationMode
    var showCompilerInfoMessages: bool

    constructor (config: ExmlcConfig)
      ensures State() == config
    {
      generatedSourcesDirectory := config.generatedSourcesDirectory;
      generatedTestSourcesDirectory := config.generatedTestSourcesDirectory;
      generatedResourcesDirectory := config.generatedResourcesDirectory;
      xsd := config.xsd;
      configClassPackage := config.configClassPackage;
      validationMode := config.validationMode;
      showCompilerInfoMessages := config.showCompilerInfoMessages;
    }

    /** The bean's current settings. */
    function State(): ExmlcConfig
      reads this
    {
      ExmlcConfig(generatedSourcesDirectory, generatedTestSourcesDirectory, generatedResourcesDirectory,
        xsd, configClassPackage, validationMode, showCompilerInfoMessages)
    }
  }

  /** An IDE file, known by its path. */
  datatype VirtualFile = VirtualFile(path: string)

  /** `getName()`: the last segment of the path. */
  function FileName(file: VirtualFile): string
  {
    file.path[LastIndexOf(file.path, '/') + 1..]
  }

  /** `getExtension()`: what follows the last '.' of the name, or null when the name has none. */
  function Extension(file: VirtualFile): (ext: Option<string>)
    ensures ext.None? <==> '.' !in FileName(file)
    ensures ext.Some? ==> '.' !in ext.value && EndsWith(FileName(file), "." + ext.value)
  {
    var name := FileName(file);
    var dot := LastIndexOf(name, '.');
    if dot < 0 then None
    else
      DotAndTail(name, dot);
      Some(name[dot + 1..])
  }

  /** A name ends with the '.' at `dot` followed by everything after it. */
  lemma DotAndTail(name: string, dot: nat)
    requires dot < |name| && name[dot] == '.'
    ensures EndsWith(name, "." + name[dot + 1..])
  {
    assert name[dot..] == "." + name[dot + 1..];
  }

  /** An entry of a zip archive. */
  datatype ZipEntry = ZipEntry(name: string, isDirectory: bool)

  /**
   * An entry of a module's dependency order: a dependency on another module,
   * known by that module's EXML facet settings (null when it has no EXML
   * facet), or any other entry (a library, the SDK, the module's own sources),
   * known by the paths of its CLASSES roots.
   */
  datatype OrderEntry =
    | ModuleOrderEntry(dependencyConfig: Option<ExmlcConfig>)
    | LibraryOrderEntry(classesRoots: seq<string>)

  /** A module's file index: which files lie in source content and which in test source content. */
  datatype ModuleFileIndex = ModuleFileIndex(sourceContent: set<VirtualFile>, testSourceContent: set<VirtualFile>)

  /** An IDE module: its EXML facet settings (null when it has no EXML facet), dependencies and file index. */
  datatype Module = Module(
    name: string,
    exmlConfig: Option<ExmlcConfig>,
    orderEntries: seq<OrderEntry>,
    fileIndex: ModuleFileIndex)

  /** The compile context: which module a file belongs to, where the IDE knows one. */
  datatype CompileContext = CompileContext(moduleByFile: map<VirtualFile, Module>)

  /**
   * The local file system as far as the plugin looks at it: the listing of
   * every existing directory (keyed by its path, with the trailing separator)
   * and the entries of every zip archive that can be opened; a zip file name
   * that is not a key cannot be opened (an `IOException`).
   */
  datatype FileSystem = FileSystem(directories: map<string, seq<string>>, zipFiles: map<string, seq<ZipEntry>>)

  /**
   * The external EXML compiler, as the files it would generate: for a source
   * path, the component class and the config class it writes, or nothing
   * (null) when generation fails.
   */
  datatype Exmlc = Exmlc(componentClasses: map<string, string>, configClasses: map<string, string>)
  {
    function GenerateComponentClass(sourcePath: string): Option<string>
    {
      if sourcePath in componentClasses then Some(componentClasses[sourcePath]) else None
    }

    function GenerateConfigClass(sourcePath: string): Option<string>
    {
      if sourcePath in configClasses then Some(configClasses[sourcePath]) else None
    }
  }
}
