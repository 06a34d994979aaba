/**
 * The Maven importer of the EXML facet: it reads the EXML Maven plugin's
 * configuration into the facet's settings, parses the validation mode, and
 * collects the namespace-to-schema mapping of a module's own XSDs and of the
 * XSDs of every component suite it depends on.
 */
module ExmlFacetImporter {
  import opened JavaLang
  import opened IdeaFileUtils
  import opened ExmlHost
  import opened ExmlCompiler
  import opened LinkedMaps

  /**
   * `Exmlc.EXML_CONFIG_URI_PREFIX`, the namespace prefix of the config
   * classes of a component suite. Its defining file is not part of this
   * model; the value below is taken to be the compiler's, and no property
   * proved here depends on it.
   */
  const EXML_CONFIG_URI_PREFIX: string := "http://www.jangaroo.net/exml/0.8/config/"

  /** The goal of the EXML Maven plugin whose configuration is the fallback. */
  const EXML_GOAL: string := "exml"

  /** The folder below a generated-sources directory that the EXML compiler writes to. */
  const GENERATED_SOURCES_SUFFIX: string := "/joo"

  /** The source folders the importer registers, relative to the Maven project. */
  const GENERATED_SOURCES_FOLDER: string := "target/generated-sources/joo"
  const GENERATED_RESOURCES_FOLDER: string := "target/generated-resources"

  // ---------------------------------------------------------------------------
  // Reading the Maven plugin configuration

  /** A configuration XML element: its name, its text and its child elements. */
  datatype Element = Element(name: string, text: string, children: seq<Element>)

  /** `getChild(name)`: the first child element with that name; null when there is none. */
  function FirstChildNamed(children: seq<Element>, name: string): (r: Option<Element>)
    ensures r.None? <==> forall i :: 0 <= i < |children| ==> children[i].name != name
    ensures r.Some? ==>
      exists i :: 0 <= i < |children| && children[i] == r.value && r.value.name == name
        && forall j :: 0 <= j < i ==> children[j].name != name
    decreases |children|
  {
    if children == [] then None
    else if children[0].name == name then Some(children[0])
    else
      var r := FirstChildNamed(children[1..], name);
      assert forall i :: 1 <= i < |children| ==> children[i] == children[1..][i - 1];
      r
  }

  /**
   * `getConfigurationValue(configName, element)`: the trimmed text of the
   * element's first child named `configName`; null when the element is null
   * or has no such child.
   */
  function GetConfigurationValue(configName: string, configuration: Option<Element>): (r: Option<string>)
    ensures configuration.None? ==> r.None?
    ensures configuration.Some? ==>
      var child := FirstChildNamed(configuration.value.children, configName);
      && (r.None? <==> child.None?)
      && (r.Some? ==> r.value == Trim(child.value.text))
    ensures r.Some? && r.value != [] ==> !IsTrimmable(r.value[0]) && !IsTrimmable(r.value[|r.value| - 1])
  {
    match configuration
    case None => None
    case Some(element) =>
      match FirstChildNamed(element.children, configName)
      case None => None
      case Some(child) => Some(Trim(child.text))
  }

  /**
   * What the importer reads of a Maven project: its name, the EXML plugin's
   * configuration (null when it has none), the configuration of each of the
   * plugin's goals, and the project's directories.
   */
  datatype MavenProject = MavenProject(
    displayName: string,
    pluginConfiguration: Option<Element>,
    goalConfigurations: map<string, Element>,
    generatedSourcesDirectory: string,
    generatedTestSourcesDirectory: string,
    buildDirectory: string)

  /** `getPluginGoalConfiguration(...)`: the configuration of one goal of the EXML plugin; null when absent. */
  function PluginGoalConfiguration(project: MavenProject, goal: string): Option<Element>
  {
    if goal in project.goalConfigurations then Some(project.goalConfigurations[goal]) else None
  }

  /**
   * `getConfigurationValue(project, configName, defaultValue)`: the plugin
   * configuration's value if it has one, else the `exml` goal
   * configuration's value if it has one, else the default.
   */
  function ConfigurationValue(project: MavenProject, configName: string, defaultValue: string): (r: string)
    ensures
      var pluginValue := GetConfigurationValue(configName, project.pluginConfiguration);
      var goalValue := GetConfigurationValue(configName, PluginGoalConfiguration(project, EXML_GOAL));
      && (pluginValue.Some? ==> r == pluginValue.value)
      && (pluginValue.None? && goalValue.Some? ==> r == goalValue.value)
      && (pluginValue.None? && goalValue.None? ==> r == defaultValue)
  {
    var value := GetConfigurationValue(configName, project.pluginConfiguration);
    var value := if value.None? then GetConfigurationValue(configName, PluginGoalConfiguration(project, EXML_GOAL)) else value;
    if value.None? then defaultValue else value.value
  }

  /**
   * `getTargetOutputPath(project, name)`: a directory below the project's
   * build directory. Its defining file is not part of this model; it is
   * given this simple definition.
   */
  function TargetOutputPath(project: MavenProject, name: string): (r: string)
    ensures StartsWith(r, project.buildDirectory + SEPARATOR)
    ensures r[|project.buildDirectory| + |SEPARATOR|..] == name
  {
    project.buildDirectory + SEPARATOR + name
  }

  // ---------------------------------------------------------------------------
  // The validation mode

  /** `ValidationMode.name()`. */
  function ValidationModeName(mode: ValidationMode): string
  {
    match mode
    case OFF => "OFF"
    case WARN => "WARN"
    case ERROR => "ERROR"
  }

  /** `ValidationMode.valueOf(name)`: the mode with that exact name; null stands for the `IllegalArgumentException`. */
  function ValidationModeValueOf(name: string): (r: Option<ValidationMode>)
    ensures r.Some? ==> ValidationModeName(r.value) == name
    ensures r.None? ==> forall mode: ValidationMode :: ValidationModeName(mode) != name
  {
    if name == "OFF" then Some(OFF)
    else if name == "WARN" then Some(WARN)
    else if name == "ERROR" then Some(ERROR)
    else None
  }

  /**
   * The validation mode `reimportFacet` sets: the mode named by the value in
   * upper case, or `OFF` when no mode has that name.
   */
  function ParseValidationMode(value: string): (mode: ValidationMode)
    ensures ValidationModeName(mode) == ToUpperCase(value)
      || (mode == OFF && forall m: ValidationMode :: ValidationModeName(m) != ToUpperCase(value))
  {
    match ValidationModeValueOf(ToUpperCase(value))
    case Some(m) => m
    case None => OFF
  }

  /** A mode's name, in any mix of cases, parses to that mode. */
  lemma ParseValidationModeOfName(value: string, mode: ValidationMode)
    requires ToUpperCase(value) == ValidationModeName(mode)
    ensures ParseValidationMode(value) == mode
  {
    var parsed := ParseValidationMode(value);
    assert ValidationModeName(parsed) == ValidationModeName(mode);
  }

  /** The default value `off` parses to `OFF`, and so do `warn` and `error` to their modes. */
  lemma DefaultValidationMode()
    ensures ParseValidationMode("off") == OFF
    ensures ParseValidationMode("warn") == WARN
    ensures ParseValidationMode("error") == ERROR
  {
    assert ToUpperCase("off") == "OFF";
    ParseValidationModeOfName("off", OFF);
    assert ToUpperCase("warn") == "WARN";
    ParseValidationModeOfName("warn", WARN);
    assert ToUpperCase("error") == "ERROR";
    ParseValidationModeOfName("error", ERROR);
  }

  /** A value that names no mode falls back to `OFF`. */
  lemma UnknownValidationModeIsOff(value: string)
    requires forall m: ValidationMode :: ValidationModeName(m) != ToUpperCase(value)
    ensures ParseValidationMode(value) == OFF
  {
  }

  // ---------------------------------------------------------------------------
  // Namespaces of schema files

  /**
   * `CompilerUtils.removeExtension(name)`: the name up to its last '.';
   * the whole name when it has none. Its defining file is not part of this
   * model; it is given this simple definition.
   */
  function RemoveExtension(fileName: string): (r: string)
    ensures |r| <= |fileName| && r == fileName[..|r|]
    ensures '.' !in fileName ==> r == fileName
    ensures '.' in fileName ==> |r| < |fileName| && fileName[|r|] == '.' && '.' !in fileName[|r| + 1..]
  {
    var dot := LastIndexOf(fileName, '.');
    if dot == -1 then fileName else fileName[..dot]
  }

  /** Removing the extension of a schema file name leaves the name without its `.xsd`. */
  lemma RemoveXsdExtension(fileName: string)
    requires EndsWith(fileName, XSD_SUFFIX)
    ensures RemoveExtension(fileName) + XSD_SUFFIX == fileName
  {
    assert XSD_SUFFIX == ['.'] + "xsd";
    assert '.' !in "xsd" by {
      assert "xsd"[0] == 'x' && "xsd"[1] == 's' && "xsd"[2] == 'd';
    }
    LastIndexOfBeforeTail(fileName, '.', "xsd");
    assert fileName == fileName[..|fileName| - 4] + fileName[|fileName| - 4..];
  }

  /** The namespace of the config classes a schema file describes: the URI prefix and the file's name without extension. */
  function XsdNamespace(xsdFileName: string): string
  {
    EXML_CONFIG_URI_PREFIX + RemoveExtension(xsdFileName)
  }

  /** The namespace of a schema file is the URI prefix and the file name without its `.xsd`. */
  lemma XsdNamespaceOfXsd(xsdFileName: string)
    requires EndsWith(xsdFileName, XSD_SUFFIX)
    ensures XsdNamespace(xsdFileName) + XSD_SUFFIX == EXML_CONFIG_URI_PREFIX + xsdFileName
  {
    RemoveXsdExtension(xsdFileName);
    assert (EXML_CONFIG_URI_PREFIX + RemoveExtension(xsdFileName)) + XSD_SUFFIX
        == EXML_CONFIG_URI_PREFIX + (RemoveExtension(xsdFileName) + XSD_SUFFIX);
  }

  /** Different schema files have different namespaces. */
  lemma XsdNamespaceInjective(a: string, b: string)
    requires EndsWith(a, XSD_SUFFIX) && EndsWith(b, XSD_SUFFIX)
    requires XsdNamespace(a) == XsdNamespace(b)
    ensures a == b
  {
    var p := EXML_CONFIG_URI_PREFIX;
    XsdNamespaceOfXsd(a);
    XsdNamespaceOfXsd(b);
    assert (p + a)[|p|..] == a;
    assert (p + b)[|p|..] == b;
    assert p + a == XsdNamespace(a) + XSD_SUFFIX == p + b;
  }

  // ---------------------------------------------------------------------------
  // The resource map, as the puts it receives

  /** The puts `mapXsdResource` performs for the schema files `xsdFileNames` found under `path`, in that order. */
  function XsdResources(path: string, xsdFileNames: seq<string>): (r: seq<(string, string)>)
    ensures |r| == |xsdFileNames|
    ensures forall i :: 0 <= i < |r| ==> r[i] == (XsdNamespace(xsdFileNames[i]), path + xsdFileNames[i])
  {
    seq(|xsdFileNames|, i requires 0 <= i < |xsdFileNames| => (XsdNamespace(xsdFileNames[i]), path + xsdFileNames[i]))
  }

  /** Mapping one more schema file is one more put. */
  lemma XsdResourcesSnoc(path: string, xsdFileNames: seq<string>, i: nat)
    requires i < |xsdFileNames|
    ensures XsdResources(path, xsdFileNames[..i + 1])
         == XsdResources(path, xsdFileNames[..i]) + [(XsdNamespace(xsdFileNames[i]), path + xsdFileNames[i])]
  {
    var a := XsdResources(path, xsdFileNames[..i + 1]);
    var b := XsdResources(path, xsdFileNames[..i]) + [(XsdNamespace(xsdFileNames[i]), path + xsdFileNames[i])];
    assert |a| == |b|;
    forall k | 0 <= k < |a|
      ensures a[k] == b[k]
    {
      assert xsdFileNames[..i + 1][k] == xsdFileNames[k];
      if k < i {
        assert xsdFileNames[..i][k] == xsdFileNames[k];
      }
    }
  }

  /** `list(new SuffixFileFilter(".xsd"))`: the names in a directory listing that end with `.xsd`, in listing order. */
  function XsdFilesIn(listing: seq<string>): (r: seq<string>)
    ensures |r| <= |listing|
    ensures forall name :: name in r <==> name in listing && EndsWith(name, XSD_SUFFIX)
    decreases |listing|
  {
    if listing == [] then []
    else
      var rest := XsdFilesIn(listing[1..]);
      assert forall name :: name in listing <==> name == listing[0] || name in listing[1..];
      if EndsWith(listing[0], XSD_SUFFIX) then [listing[0]] + rest else rest
  }

  /** The names of zip entries. */
  function EntryNames(entries: seq<ZipEntry>): (r: seq<string>)
    ensures |r| == |entries|
    ensures forall i :: 0 <= i < |r| ==> r[i] == entries[i].name
  {
    seq(|entries|, i requires 0 <= i < |entries| => entries[i].name)
  }

  /** The directory `mapXsdResources` lists: the facet's generated-resources directory as a path, with a trailing separator. */
  function GeneratedResourcesPath(config: ExmlcConfig): string
  {
    ToPath(config.generatedResourcesDirectory) + SEPARATOR
  }

  /**
   * The puts `mapXsdResources` performs: one per schema file in the facet's
   * generated-resources directory; none when there is no facet or the
   * directory does not exist.
   */
  function FacetXsdResources(config: Option<ExmlcConfig>, fs: FileSystem): seq<(string, string)>
  {
    if config.None? then []
    else
      var path := GeneratedResourcesPath(config.value);
      if path !in fs.directories then [] else XsdResources(path, XsdFilesIn(fs.directories[path]))
  }

  /**
   * The puts the loop performs for a non-module order entry: one per
   * root-level schema in the archive behind the entry; none when the entry
   * has no jar root or its archive cannot be opened.
   */
  function ArchiveXsdResources(classesRoots: seq<string>, fs: FileSystem): seq<(string, string)>
  {
    match DependentModuleZipFileName(classesRoots)
    case None => []
    case Some(zipFileName) =>
      if zipFileName !in fs.zipFiles then []
      else ZipXsdResources(zipFileName + JAR_ROOT_SUFFIX, FindXsdZipEntries(fs.zipFiles[zipFileName]))
  }

  /**
   * `mapXsdResources` maps nothing without a facet or without its directory;
   * otherwise it maps exactly the `.xsd` files listed there, each to its
   * location in that directory.
   */
  lemma FacetXsdResourcesPuts(config: Option<ExmlcConfig>, fs: FileSystem)
    ensures config.None? ==> FacetXsdResources(config, fs) == []
    ensures config.Some? && GeneratedResourcesPath(config.value) !in fs.directories ==> FacetXsdResources(config, fs) == []
    ensures config.Some? && GeneratedResourcesPath(config.value) in fs.directories ==>
      var path := GeneratedResourcesPath(config.value);
      var listing := fs.directories[path];
      var r := FacetXsdResources(config, fs);
      && (forall name :: name in listing && EndsWith(name, XSD_SUFFIX) ==> (XsdNamespace(name), path + name) in r)
      && (forall i :: 0 <= i < |r| ==>
            var name := r[i].1[|path|..];
            && StartsWith(r[i].1, path) && name in listing && EndsWith(name, XSD_SUFFIX)
            && r[i].0 == XsdNamespace(name))
  {
    if config.Some? && GeneratedResourcesPath(config.value) in fs.directories {
      var path := GeneratedResourcesPath(config.value);
      var names := XsdFilesIn(fs.directories[path]);
      var r := XsdResources(path, names);
      assert FacetXsdResources(config, fs) == r;
      forall name | name in fs.directories[path] && EndsWith(name, XSD_SUFFIX)
        ensures (XsdNamespace(name), path + name) in r
      {
        assert name in names;
        var i :| 0 <= i < |names| && names[i] == name;
        assert r[i] == (XsdNamespace(name), path + name);
      }
      forall i | 0 <= i < |r|
        ensures StartsWith(r[i].1, path) && r[i].1[|path|..] == names[i]
      {
        assert (path + names[i])[|path|..] == names[i];
        assert names[i] in names;
      }
    }
  }

  /**
   * A non-module order entry maps nothing when none of its roots is a jar or
   * its archive cannot be opened; otherwise it maps exactly the root-level
   * schemas of the archive, each to its location inside the jar.
   */
  lemma ArchiveXsdResourcesPuts(classesRoots: seq<string>, fs: FileSystem)
    ensures DependentModuleZipFileName(classesRoots).None? ==> ArchiveXsdResources(classesRoots, fs) == []
    ensures var zip := DependentModuleZipFileName(classesRoots);
      zip.Some? && zip.value !in fs.zipFiles ==> ArchiveXsdResources(classesRoots, fs) == []
    ensures var zip := DependentModuleZipFileName(classesRoots);
      zip.Some? && zip.value in fs.zipFiles ==>
      var path := zip.value + JAR_ROOT_SUFFIX;
      var entries := fs.zipFiles[zip.value];
      var r := ArchiveXsdResources(classesRoots, fs);
      && (forall e :: e in entries && IsRootXsd(e) ==> (XsdNamespace(e.name), path + e.name) in r)
      && (forall i :: 0 <= i < |r| ==>
            var name := r[i].1[|path|..];
            && StartsWith(r[i].1, path) && ZipEntry(name, false) in entries && IsRootXsd(ZipEntry(name, false))
            && r[i].0 == XsdNamespace(name))
  {
    var zip := DependentModuleZipFileName(classesRoots);
    if zip.Some? && zip.value in fs.zipFiles {
      var path := zip.value + JAR_ROOT_SUFFIX;
      var xsdEntries := FindXsdZipEntries(fs.zipFiles[zip.value]);
      var r := ZipXsdResources(path, xsdEntries);
      assert ArchiveXsdResources(classesRoots, fs) == r;
      forall e | e in fs.zipFiles[zip.value] && IsRootXsd(e)
        ensures (XsdNamespace(e.name), path + e.name) in r
      {
        assert e in xsdEntries;
        var i :| 0 <= i < |xsdEntries| && xsdEntries[i] == e;
        assert r[i] == (XsdNamespace(e.name), path + e.name);
      }
      forall i | 0 <= i < |r|
        ensures StartsWith(r[i].1, path) && ZipEntry(r[i].1[|path|..], false) == xsdEntries[i]
      {
        assert (path + xsdEntries[i].name)[|path|..] == xsdEntries[i].name;
        assert xsdEntries[i] in xsdEntries;
      }
    }
  }

  /** The puts for the schema entries of an archive, one per entry, in the archive's order. */
  function ZipXsdResources(path: string, xsdEntries: seq<ZipEntry>): (r: seq<(string, string)>)
    ensures |r| == |xsdEntries|
    ensures forall i :: 0 <= i < |r| ==> r[i] == (XsdNamespace(xsdEntries[i].name), path + xsdEntries[i].name)
  {
    XsdResources(path, EntryNames(xsdEntries))
  }

  /** The puts one order entry contributes. */
  function OrderEntryXsdResources(entry: OrderEntry, fs: FileSystem): seq<(string, string)>
  {
    match entry
    case ModuleOrderEntry(dependencyConfig) => FacetXsdResources(dependencyConfig, fs)
    case LibraryOrderEntry(classesRoots) => ArchiveXsdResources(classesRoots, fs)
  }

  /** The puts the order entries contribute, first entry first. */
  function OrderEntriesXsdResources(entries: seq<OrderEntry>, fs: FileSystem): seq<(string, string)>
    decreases |entries|
  {
    if entries == [] then []
    else OrderEntryXsdResources(entries[0], fs) + OrderEntriesXsdResources(entries[1..], fs)
  }

  /** The puts of consecutive runs of order entries are the runs' puts one after the other. */
  lemma {:induction false} OrderEntriesXsdResourcesAppend(first: seq<OrderEntry>, second: seq<OrderEntry>, fs: FileSystem)
    ensures OrderEntriesXsdResources(first + second, fs)
         == OrderEntriesXsdResources(first, fs) + OrderEntriesXsdResources(second, fs)
    decreases |first|
  {
    if first == [] {
      assert [] + second == second;
    } else {
      assert (first + second)[0] == first[0];
      assert (first + second)[1..] == first[1..] + second;
      OrderEntriesXsdResourcesAppend(first[1..], second, fs);
    }
  }

  /** One more order entry adds its own puts after those of the entries before it. */
  lemma OrderEntriesXsdResourcesSnoc(entries: seq<OrderEntry>, i: nat, fs: FileSystem)
    requires i < |entries|
    ensures OrderEntriesXsdResources(entries[..i + 1], fs)
         == OrderEntriesXsdResources(entries[..i], fs) + OrderEntryXsdResources(entries[i], fs)
  {
    assert entries[..i + 1] == entries[..i] + [entries[i]];
    OrderEntriesXsdResourcesAppend(entries[..i], [entries[i]], fs);
    assert [entries[i]][1..] == [];
    assert OrderEntriesXsdResources([entries[i]], fs) == OrderEntryXsdResources(entries[i], fs) + [];
  }

  /**
   * The map `getXsdResourcesOfModule` returns: every order entry's puts in
   * dependency order, then the module's own.
   */
  function XsdResourcesOfModule(ideModule: Module, fs: FileSystem): (r: LinkedMap)
    ensures r.Valid()
  {
    PutAllValid(EMPTY, ModuleXsdResources(ideModule, fs));
    PutAll(EMPTY, ModuleXsdResources(ideModule, fs))
  }

  /** The puts `getXsdResourcesOfModule` performs: the order entries' in dependency order, then the module's own. */
  function ModuleXsdResources(ideModule: Module, fs: FileSystem): seq<(string, string)>
  {
    OrderEntriesXsdResources(ideModule.orderEntries, fs) + FacetXsdResources(ideModule.exmlConfig, fs)
  }

  // ---------------------------------------------------------------------------
  // Filling the resource map

  /** `mapXsdResource`: maps the schema's namespace to its location; no other mapping changes. */
  method MapXsdResource(resourceMap: ResourceMap, path: string, xsdFileName: string)
    modifies resourceMap
    ensures resourceMap.Contents() == old(resourceMap.Contents()).Put(XsdNamespace(xsdFileName), path + xsdFileName)
  {
    var namespace := EXML_CONFIG_URI_PREFIX + RemoveExtension(xsdFileName);
    resourceMap.Put(namespace, path + xsdFileName);
  }

  /** `mapXsdResources`: maps every schema in a facet's generated-resources directory. */
  method MapXsdResources(resourceMap: ResourceMap, exmlConfig: Option<ExmlcConfig>, fs: FileSystem)
    modifies resourceMap
    ensures resourceMap.Contents() == PutAll(old(resourceMap.Contents()), FacetXsdResources(exmlConfig, fs))
  {
    if exmlConfig.Some? {
      var generatedResourcesPath := ToPath(exmlConfig.value.generatedResourcesDirectory) + SEPARATOR;
      if generatedResourcesPath in fs.directories {
        var xsdFiles := XsdFilesIn(fs.directories[generatedResourcesPath]);
        ghost var start := resourceMap.Contents();
        for i := 0 to |xsdFiles|
          invariant resourceMap.Contents() == PutAll(start, XsdResources(generatedResourcesPath, xsdFiles[..i]))
        {
          var xsdFile := xsdFiles[i];
          XsdResourcesSnoc(generatedResourcesPath, xsdFiles, i);
          PutAllSnoc(start, XsdResources(generatedResourcesPath, xsdFiles[..i]), XsdNamespace(xsdFile), generatedResourcesPath + xsdFile);
          MapXsdResource(resourceMap, generatedResourcesPath, xsdFile);
        }
        assert xsdFiles[..|xsdFiles|] == xsdFiles;
      } else {
        assert PutAll(resourceMap.Contents(), []) == resourceMap.Contents();
      }
    } else {
      assert PutAll(resourceMap.Contents(), []) == resourceMap.Contents();
    }
  }

  /**
   * The body of the order-entry loop for a non-module entry: maps every
   * root-level schema of the archive behind it; an archive that cannot be
   * opened maps nothing.
   */
  method MapArchiveXsdResources(resourceMap: ResourceMap, classesRoots: seq<string>, fs: FileSystem)
    modifies resourceMap
    ensures resourceMap.Contents() == PutAll(old(resourceMap.Contents()), ArchiveXsdResources(classesRoots, fs))
  {
    var zipFileName := FindDependentModuleZipFileName(classesRoots);
    if zipFileName.Some? && zipFileName.value in fs.zipFiles {
      var zipFilePath := zipFileName.value + JAR_ROOT_SUFFIX;
      var xsdZipEntries := FindXsdZipEntries(fs.zipFiles[zipFileName.value]);
      MapXsdZipEntries(resourceMap, zipFilePath, xsdZipEntries);
    } else {
      assert PutAll(resourceMap.Contents(), []) == resourceMap.Contents();
    }
  }

  /** The loop over the schemas of an archive: maps each of them, in the archive's order. */
  method MapXsdZipEntries(resourceMap: ResourceMap, zipFilePath: string, xsdZipEntries: seq<ZipEntry>)
    modifies resourceMap
    ensures resourceMap.Contents() == PutAll(old(resourceMap.Contents()), ZipXsdResources(zipFilePath, xsdZipEntries))
  {
    ghost var start := resourceMap.Contents();
    ghost var names := EntryNames(xsdZipEntries);
    for j := 0 to |xsdZipEntries|
      invariant resourceMap.Contents() == PutAll(start, XsdResources(zipFilePath, names[..j]))
    {
      var name := xsdZipEntries[j].name;
      XsdResourcesSnoc(zipFilePath, names, j);
      PutAllSnoc(start, XsdResources(zipFilePath, names[..j]), XsdNamespace(name), zipFilePath + name);
      MapXsdResource(resourceMap, zipFilePath, name);
    }
    assert names[..|names|] == names;
  }

  /**
   * `getXsdResourcesOfModule`: a new map holding the schemas of every
   * dependency, in dependency order, and then the module's own.
   */
  method GetXsdResourcesOfModule(ideModule: Module, fs: FileSystem) returns (resourceMap: ResourceMap)
    ensures fresh(resourceMap)
    ensures resourceMap.Contents() == XsdResourcesOfModule(ideModule, fs)
  {
    resourceMap := new ResourceMap();
    var orderEntries := ideModule.orderEntries;
    for i := 0 to |orderEntries|
      invariant fresh(resourceMap)
      invariant resourceMap.Contents() == PutAll(EMPTY, OrderEntriesXsdResources(orderEntries[..i], fs))
    {
      var orderEntry := orderEntries[i];
      match orderEntry {
        case ModuleOrderEntry(exmlConfig) =>
          MapXsdResources(resourceMap, exmlConfig, fs);
        case LibraryOrderEntry(classesRoots) =>
          MapArchiveXsdResources(resourceMap, classesRoots, fs);
      }
      OrderEntriesXsdResourcesSnoc(orderEntries, i, fs);
      PutAllAppend(EMPTY, OrderEntriesXsdResources(orderEntries[..i], fs), OrderEntryXsdResources(orderEntry, fs));
    }
    assert orderEntries[..|orderEntries|] == orderEntries;
    MapXsdResources(resourceMap, ideModule.exmlConfig, fs);
    PutAllAppend(EMPTY, OrderEntriesXsdResources(orderEntries, fs), FacetXsdResources(ideModule.exmlConfig, fs));
  }

  /**
   * The facet settings after a re-import from `project`: the generated
   * sources, test sources and resources directories of the Maven project as
   * IDE URLs, the configured config class package (empty by default) and the
   * configured validation mode (`off` by default); the schema file name and
   * the info-message switch stay as they were.
   */
  function ImportedConfig(config: ExmlcConfig, project: MavenProject): ExmlcConfig
  {
    config.(
      generatedSourcesDirectory := ToIdeaUrl(project.generatedSourcesDirectory + GENERATED_SOURCES_SUFFIX),
      generatedTestSourcesDirectory := ToIdeaUrl(project.generatedTestSourcesDirectory + GENERATED_SOURCES_SUFFIX),
      generatedResourcesDirectory := ToIdeaUrl(TargetOutputPath(project, "generated-resources")),
      configClassPackage := ConfigurationValue(project, "configClassPackage", ""),
      validationMode := ParseValidationMode(ConfigurationValue(project, "validationMode", "off")))
  }

  /**
   * What a re-import sets: directories whose local paths are the Maven
   * project's, config class package and validation mode as configured, and
   * nothing else.
   */
  lemma ImportedConfigSettings(config: ExmlcConfig, project: MavenProject)
    ensures var r := ImportedConfig(config, project);
      && ToPath(r.generatedSourcesDirectory) == project.generatedSourcesDirectory + GENERATED_SOURCES_SUFFIX
      && ToPath(r.generatedTestSourcesDirectory) == project.generatedTestSourcesDirectory + GENERATED_SOURCES_SUFFIX
      && ToPath(r.generatedResourcesDirectory) == TargetOutputPath(project, "generated-resources")
      && StartsWith(r.generatedSourcesDirectory, FILE_URL_PREFIX)
      && StartsWith(r.generatedTestSourcesDirectory, FILE_URL_PREFIX)
      && StartsWith(r.generatedResourcesDirectory, FILE_URL_PREFIX)
      && r.configClassPackage == ConfigurationValue(project, "configClassPackage", "")
      && r.validationMode == ParseValidationMode(ConfigurationValue(project, "validationMode", "off"))
      && r.xsd == config.xsd && r.showCompilerInfoMessages == config.showCompilerInfoMessages
  {
    ToPathOfIdeaUrl(project.generatedSourcesDirectory + GENERATED_SOURCES_SUFFIX);
    ToPathOfIdeaUrl(project.generatedTestSourcesDirectory + GENERATED_SOURCES_SUFFIX);
    ToPathOfIdeaUrl(TargetOutputPath(project, "generated-resources"));
  }

  /**
   * The part of `reimportFacet` this model covers: overwrites the facet's
   * directories, config class package and validation mode from the Maven
   * project, and computes the resource map of the module as it now stands.
   */
  method ReimportFacet(ideModule: Module, exmlConfig: ExmlcConfigurationBean, project: MavenProject, fs: FileSystem)
    returns (resourceMap: ResourceMap)
    modifies exmlConfig
    ensures exmlConfig.State() == ImportedConfig(old(exmlConfig.State()), project)
    ensures fresh(resourceMap)
    ensures resourceMap.Contents() == XsdResourcesOfModule(ideModule.(exmlConfig := Some(exmlConfig.State())), fs)
  {
    ImportMavenConfiguration(exmlConfig, project);
    resourceMap := GetXsdResourcesOfModule(ideModule.(exmlConfig := Some(exmlConfig.State())), fs);
  }

  /** The settings `reimportFacet` copies from the Maven project into the facet. */
  method ImportMavenConfiguration(exmlConfig: ExmlcConfigurationBean, project: MavenProject)
    modifies exmlConfig
    ensures exmlConfig.State() == ImportedConfig(old(exmlConfig.State()), project)
  {
    ImportGeneratedDirectories(exmlConfig, project);
    ImportCompilerOptions(exmlConfig, project);
  }

  /** The generated sources, test sources and resources directories, as IDE URLs. */
  method ImportGeneratedDirectories(exmlConfig: ExmlcConfigurationBean, project: MavenProject)
    modifies exmlConfig
    ensures exmlConfig.State() == old(exmlConfig.State()).(
      generatedSourcesDirectory := ToIdeaUrl(project.generatedSourcesDirectory + GENERATED_SOURCES_SUFFIX),
      generatedTestSourcesDirectory := ToIdeaUrl(project.generatedTestSourcesDirectory + GENERATED_SOURCES_SUFFIX),
      generatedResourcesDirectory := ToIdeaUrl(TargetOutputPath(project, "generated-resources")))
  {
    exmlConfig.generatedSourcesDirectory := ToIdeaUrl(project.generatedSourcesDirectory + GENERATED_SOURCES_SUFFIX);
    exmlConfig.generatedTestSourcesDirectory := ToIdeaUrl(project.generatedTestSourcesDirectory + GENERATED_SOURCES_SUFFIX);
    exmlConfig.generatedResourcesDirectory := ToIdeaUrl(TargetOutputPath(project, "generated-resources"));
  }

  /** The config class package and the validation mode, with the fallback to `OFF` for an unknown mode. */
  method ImportCompilerOptions(exmlConfig: ExmlcConfigurationBean, project: MavenProject)
    modifies exmlConfig
    ensures exmlConfig.State() == old(exmlConfig.State()).(
      configClassPackage := ConfigurationValue(project, "configClassPackage", ""),
      validationMode := ParseValidationMode(ConfigurationValue(project, "validationMode", "off")))
  {
    var configClassPackage := ConfigurationValue(project, "configClassPackage", "");
    exmlConfig.configClassPackage := configClassPackage;
    var validationMode := ConfigurationValue(project, "validationMode", "off");
    var mode := ValidationModeValueOf(ToUpperCase(validationMode));
    if mode.Some? {
      exmlConfig.validationMode := mode.value;
    } else {
      exmlConfig.validationMode := OFF;
    }
  }

  /** `collectSourceFolders`: appends the generated sources folder and then the generated resources folder. */
  function CollectSourceFolders(result: seq<string>): (r: seq<string>)
    ensures |r| == |result| + 2
    ensures r[..|result|] == result
    ensures r[|result|] == GENERATED_SOURCES_FOLDER && r[|result| + 1] == GENERATED_RESOURCES_FOLDER
  {
    result + [GENERATED_SOURCES_FOLDER, GENERATED_RESOURCES_FOLDER]
  }

  // ---------------------------------------------------------------------------
  // Properties of the resource map

  /**
   * The module's own schemas win: each of its generated schema files is
   * mapped to its own location, whatever its dependencies map.
   */
  lemma OwnXsdsWin(ideModule: Module, fs: FileSystem, xsdFileName: string)
    requires ideModule.exmlConfig.Some?
    requires GeneratedResourcesPath(ideModule.exmlConfig.value) in fs.directories
    requires xsdFileName in fs.directories[GeneratedResourcesPath(ideModule.exmlConfig.value)]
    requires EndsWith(xsdFileName, XSD_SUFFIX)
    ensures XsdNamespace(xsdFileName) in XsdResourcesOfModule(ideModule, fs).values
    ensures XsdResourcesOfModule(ideModule, fs).values[XsdNamespace(xsdFileName)]
         == GeneratedResourcesPath(ideModule.exmlConfig.value) + xsdFileName
  {
    var path := GeneratedResourcesPath(ideModule.exmlConfig.value);
    var names := XsdFilesIn(fs.directories[path]);
    var own := FacetXsdResources(ideModule.exmlConfig, fs);
    var dependencies := OrderEntriesXsdResources(ideModule.orderEntries, fs);
    assert ModuleXsdResources(ideModule, fs) == dependencies + own;
    var key := XsdNamespace(xsdFileName);
    assert xsdFileName in names;
    var i :| 0 <= i < |names| && names[i] == xsdFileName;
    assert own[i].0 == key;
    forall j | 0 <= j < |own| && own[j].0 == key
      ensures own[j].1 == path + xsdFileName
    {
      assert names[j] in names;
      assert own[j].0 == XsdNamespace(names[j]) && own[j].1 == path + names[j];
      XsdNamespaceInjective(names[j], xsdFileName);
    }
    PutAllAppend(EMPTY, dependencies, own);
    PutAllAgreeingKey(PutAll(EMPTY, dependencies), own, key, path + xsdFileName);
  }

  /**
   * A dependency whose archive cannot be opened is skipped: the map is the
   * one of the same module without that order entry, so everything the other
   * entries map, before and after it, is kept.
   */
  lemma UnreadableArchiveSkipped(ideModule: Module, fs: FileSystem, i: nat)
    requires i < |ideModule.orderEntries|
    requires ideModule.orderEntries[i].LibraryOrderEntry?
    requires DependentModuleZipFileName(ideModule.orderEntries[i].classesRoots).Some?
    requires DependentModuleZipFileName(ideModule.orderEntries[i].classesRoots).value !in fs.zipFiles
    ensures XsdResourcesOfModule(ideModule, fs)
         == XsdResourcesOfModule(ideModule.(orderEntries := ideModule.orderEntries[..i] + ideModule.orderEntries[i + 1..]), fs)
  {
    var entry := ideModule.orderEntries[i];
    assert ArchiveXsdResources(entry.classesRoots, fs) == [];
    SilentOrderEntryDropped(ideModule.orderEntries, i, fs);
  }

  /** An order entry that contributes no puts can be dropped without changing the puts of the others. */
  lemma SilentOrderEntryDropped(entries: seq<OrderEntry>, i: nat, fs: FileSystem)
    requires i < |entries|
    requires OrderEntryXsdResources(entries[i], fs) == []
    ensures OrderEntriesXsdResources(entries, fs) == OrderEntriesXsdResources(entries[..i] + entries[i + 1..], fs)
  {
    var before, after := entries[..i], entries[i + 1..];
    OrderEntriesXsdResourcesSplit(entries, i + 1, fs);
    OrderEntriesXsdResourcesSnoc(entries, i, fs);
    OrderEntriesXsdResourcesAppend(before, after, fs);
    assert OrderEntriesXsdResources(before, fs) + [] == OrderEntriesXsdResources(before, fs);
  }

  /**
   * Mappings are never dropped or reordered: the namespaces mapped after the
   * first `i` order entries lead the key order of the final map.
   */
  lemma EarlierMappingsKept(ideModule: Module, fs: FileSystem, i: nat)
    requires i <= |ideModule.orderEntries|
    ensures PutAll(EMPTY, OrderEntriesXsdResources(ideModule.orderEntries[..i], fs)).keys
         <= XsdResourcesOfModule(ideModule, fs).keys
  {
    var first := OrderEntriesXsdResources(ideModule.orderEntries[..i], fs);
    var rest := OrderEntriesXsdResources(ideModule.orderEntries[i..], fs) + FacetXsdResources(ideModule.exmlConfig, fs);
    ModuleXsdResourcesSplit(ideModule, fs, i);
    PutAllAppend(EMPTY, first, rest);
    PutAllKeepsKeyOrder(PutAll(EMPTY, first), rest);
  }

  /** The puts of the order entries split at entry `i`: those before it, then those from it on. */
  lemma OrderEntriesXsdResourcesSplit(entries: seq<OrderEntry>, i: nat, fs: FileSystem)
    requires i <= |entries|
    ensures OrderEntriesXsdResources(entries, fs)
         == OrderEntriesXsdResources(entries[..i], fs) + OrderEntriesXsdResources(entries[i..], fs)
  {
    assert entries == entries[..i] + entries[i..];
    OrderEntriesXsdResourcesAppend(entries[..i], entries[i..], fs);
  }

  /** The puts of a module split at an order entry: those of the entries before it, then all the rest. */
  lemma ModuleXsdResourcesSplit(ideModule: Module, fs: FileSystem, i: nat)
    requires i <= |ideModule.orderEntries|
    ensures ModuleXsdResources(ideModule, fs)
         == OrderEntriesXsdResources(ideModule.orderEntries[..i], fs)
          + (OrderEntriesXsdResources(ideModule.orderEntries[i..], fs) + FacetXsdResources(ideModule.exmlConfig, fs))
  {
    var entries := ideModule.orderEntries;
    OrderEntriesXsdResourcesSplit(entries, i, fs);
    var first := OrderEntriesXsdResources(entries[..i], fs);
    var middle := OrderEntriesXsdResources(entries[i..], fs);
    var own := FacetXsdResources(ideModule.exmlConfig, fs);
    assert ModuleXsdResources(ideModule, fs) == (first + middle) + own;
    AppendAssociative(first, middle, own);
  }

  /**
   * A namespace mapped by a dependency keeps that dependency's location
   * unless a later dependency or the module itself maps it again.
   */
  lemma LastMappingWins(ideModule: Module, fs: FileSystem, k: nat)
    requires var entries := ModuleXsdResources(ideModule, fs);
      && k < |entries|
      && forall j :: k < j < |entries| ==> entries[j].0 != entries[k].0
    ensures var entries := ModuleXsdResources(ideModule, fs);
      && entries[k].0 in XsdResourcesOfModule(ideModule, fs).values
      && XsdResourcesOfModule(ideModule, fs).values[entries[k].0] == entries[k].1
  {
    PutAllLastWins(EMPTY, ModuleXsdResources(ideModule, fs), k);
  }
}
