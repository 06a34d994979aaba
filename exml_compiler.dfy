/**
 * The EXML compiler adapter (`ExmlCompiler`): which files it compiles, where
 * a module's XSD lies, how it finds the archive behind a dependency and the
 * schema inside that archive, and what one `compile` call records.
 */
module ExmlCompiler {
  import opened JavaLang
  import opened ExmlHost

  /** The file suffix of EXML sources. */
  const EXML_SUFFIX: string := ".exml"

  /** The suffix of the IDE's path for the root of a jar. */
  const JAR_ROOT_SUFFIX: string := "!/"

  /** The suffix of XML schema files. */
  const XSD_SUFFIX: string := ".xsd"

  /**
   * The name of a file ends with '.' + `ext` exactly when its extension is
   * `ext`. A file without extension yields ".null" in Java's concatenation,
   * which is why `ext` must not be "null".
   */
  lemma ExtensionMatchesSuffix(file: VirtualFile, ext: string)
    requires '.' !in ext && ext != "null"
    ensures "." + NullableText(Extension(file)) == "." + ext <==> EndsWith(FileName(file), "." + ext)
  {
    var name := FileName(file);
    DotPrefixInjective(NullableText(Extension(file)), ext);
    if EndsWith(name, "." + ext) {
      assert "." + ext == ['.'] + ext;
      LastIndexOfBeforeTail(name, '.', ext);
      assert name[|name| - |ext|..] == ext;
    }
  }

  /** Putting a '.' in front of two strings keeps them apart exactly when they differ. */
  lemma DotPrefixInjective(a: string, b: string)
    ensures "." + a == "." + b <==> a == b
  {
    assert ("." + a)[1..] == a;
    assert ("." + b)[1..] == b;
  }

  /**
   * `isCompilableFile`: an EXML source (its extension, behind a '.', is the
   * EXML suffix) in a module that has an EXML facet.
   */
  function IsCompilableFile(file: VirtualFile, context: CompileContext): (r: bool)
    ensures r <==> && EndsWith(FileName(file), EXML_SUFFIX)
                   && file in context.moduleByFile
                   && context.moduleByFile[file].exmlConfig.Some?
  {
    assert EXML_SUFFIX == "." + "exml";
    assert '.' !in "exml" && "exml" != "null" by {
      assert "exml"[0] == 'e' && "null"[0] == 'n';
    }
    ExtensionMatchesSuffix(file, "exml");
    if EXML_SUFFIX == "." + NullableText(Extension(file)) then
      file in context.moduleByFile && context.moduleByFile[file].exmlConfig.Some?
    else
      false
  }

  /**
   * `getXsdFilename`: null for a null module or one without an EXML facet;
   * otherwise the facet's XSD inside its generated-resources directory.
   */
  function GetXsdFilename(ideModule: Option<Module>): (r: Option<string>)
    ensures r.None? <==> ideModule.None? || ideModule.value.exmlConfig.None?
    ensures r.Some? ==>
      var config := ideModule.value.exmlConfig.value;
      && StartsWith(r.value, config.generatedResourcesDirectory + "/")
      && r.value[|config.generatedResourcesDirectory| + 1..] == config.xsd
  {
    if ideModule.Some? && ideModule.value.exmlConfig.Some? then
      var config := ideModule.value.exmlConfig.value;
      Some(config.generatedResourcesDirectory + "/" + config.xsd)
    else
      None
  }

  // ---------------------------------------------------------------------------
  // The archive behind a dependency and the schema inside it

  /** The path of a CLASSES root that is the root of a jar. */
  predicate IsJarRoot(path: string)
  {
    EndsWith(path, JAR_ROOT_SUFFIX)
  }

  /**
   * The file name of the first jar among the CLASSES roots: the first path
   * that ends in `!/`, with that suffix removed; null when none does.
   */
  function DependentModuleZipFileName(classesRoots: seq<string>): (r: Option<string>)
    ensures r.None? <==> forall i :: 0 <= i < |classesRoots| ==> !IsJarRoot(classesRoots[i])
    ensures r.Some? ==>
      exists i :: 0 <= i < |classesRoots| && classesRoots[i] == r.value + JAR_ROOT_SUFFIX
        && forall j :: 0 <= j < i ==> !IsJarRoot(classesRoots[j])
    decreases |classesRoots|
  {
    if classesRoots == [] then None
    else if IsJarRoot(classesRoots[0]) then
      var path := classesRoots[0];
      assert path == path[..|path| - 2] + JAR_ROOT_SUFFIX;
      Some(path[..|path| - 2])
    else
      var r := DependentModuleZipFileName(classesRoots[1..]);
      assert forall i :: 1 <= i < |classesRoots| ==> classesRoots[i] == classesRoots[1..][i - 1];
      r
  }

  /** `findDependentModuleZipFileName`: the loop over the CLASSES roots that returns at the first jar. */
  method FindDependentModuleZipFileName(classesRoots: seq<string>) returns (r: Option<string>)
    ensures r == DependentModuleZipFileName(classesRoots)
  {
    var i := 0;
    while i < |classesRoots|
      invariant 0 <= i <= |classesRoots|
      invariant DependentModuleZipFileName(classesRoots[i..]) == DependentModuleZipFileName(classesRoots)
    {
      var filename := classesRoots[i];
      if EndsWith(filename, JAR_ROOT_SUFFIX) {
        return Some(filename[..|filename| - |JAR_ROOT_SUFFIX|]);
      }
      assert classesRoots[i..][1..] == classesRoots[i + 1..];
      i := i + 1;
    }
    return None;
  }

  /** A zip entry that is an `*.xsd` file in the archive's root folder. */
  predicate IsRootXsd(entry: ZipEntry)
  {
    !entry.isDirectory && '/' !in entry.name && EndsWith(entry.name, XSD_SUFFIX)
  }

  /** The first root-level `*.xsd` entry, in the archive's order; null when there is none. */
  function FirstRootXsdEntry(entries: seq<ZipEntry>): (r: Option<ZipEntry>)
    ensures r.None? <==> forall i :: 0 <= i < |entries| ==> !IsRootXsd(entries[i])
    ensures r.Some? ==>
      exists i :: 0 <= i < |entries| && entries[i] == r.value && IsRootXsd(r.value)
        && forall j :: 0 <= j < i ==> !IsRootXsd(entries[j])
    decreases |entries|
  {
    if entries == [] then None
    else if IsRootXsd(entries[0]) then Some(entries[0])
    else
      var r := FirstRootXsdEntry(entries[1..]);
      assert forall i :: 1 <= i < |entries| ==> entries[i] == entries[1..][i - 1];
      r
  }

  /** `findXsdZipEntry`: the loop over the archive's entries that returns at the first root-level schema. */
  method FindXsdZipEntry(entries: seq<ZipEntry>) returns (r: Option<ZipEntry>)
    ensures r == FirstRootXsdEntry(entries)
  {
    var i := 0;
    while i < |entries|
      invariant 0 <= i <= |entries|
      invariant FirstRootXsdEntry(entries[i..]) == FirstRootXsdEntry(entries)
    {
      var zipEntry := entries[i];
      if !zipEntry.isDirectory && '/' !in zipEntry.name && EndsWith(zipEntry.name, XSD_SUFFIX) {
        return Some(zipEntry);
      }
      assert entries[i..][1..] == entries[i + 1..];
      i := i + 1;
    }
    return None;
  }

  /**
   * `findXsdZipEntries`: every root-level `*.xsd` entry, by the same test as
   * `findXsdZipEntry`, in the archive's order.
   */
  function FindXsdZipEntries(entries: seq<ZipEntry>): (r: seq<ZipEntry>)
    ensures |r| <= |entries|
    ensures forall e :: e in r <==> e in entries && IsRootXsd(e)
    decreases |entries|
  {
    if entries == [] then []
    else
      var rest := FindXsdZipEntries(entries[1..]);
      assert forall e :: e in entries <==> e == entries[0] || e in entries[1..];
      if IsRootXsd(entries[0]) then [entries[0]] + rest else rest
  }

  /** The schema `findXsdZipEntry` picks is the first of those `findXsdZipEntries` lists. */
  lemma {:induction false} FirstRootXsdIsFirstOfAll(entries: seq<ZipEntry>)
    ensures FirstRootXsdEntry(entries) == if FindXsdZipEntries(entries) == [] then None else Some(FindXsdZipEntries(entries)[0])
    decreases |entries|
  {
    if entries != [] && !IsRootXsd(entries[0]) {
      FirstRootXsdIsFirstOfAll(entries[1..]);
    }
  }

  // ---------------------------------------------------------------------------
  // compile

  /** A file `compile` hands to the EXML compiler: in source content and not in test source content. */
  predicate IsInProductionSource(index: ModuleFileIndex, file: VirtualFile)
  {
    file in index.sourceContent && file !in index.testSourceContent
  }

  /** The position of the first file `compile` does not skip; null when it skips them all. */
  function FirstCompiledFile(files: seq<VirtualFile>, index: ModuleFileIndex): (r: Option<nat>)
    ensures r.None? <==> forall i :: 0 <= i < |files| ==> !IsInProductionSource(index, files[i])
    ensures r.Some? ==>
      && r.value < |files|
      && IsInProductionSource(index, files[r.value])
      && forall j :: 0 <= j < r.value ==> !IsInProductionSource(index, files[j])
    decreases |files|
  {
    if files == [] then None
    else if IsInProductionSource(index, files[0]) then Some(0)
    else
      match FirstCompiledFile(files[1..], index)
      case None => None
      case Some(k) => Some(k + 1)
  }

  /** The first file in production source content, after only files outside it, is the one `compile` processes. */
  lemma {:induction false} FirstCompiledFileAt(files: seq<VirtualFile>, index: ModuleFileIndex, i: nat)
    requires i < |files| && IsInProductionSource(index, files[i])
    requires forall j :: 0 <= j < i ==> !IsInProductionSource(index, files[j])
    ensures FirstCompiledFile(files, index) == Some(i)
  {
    var r := FirstCompiledFile(files, index);
    assert r.Some?;
    assert !(r.value < i);
  }

  /** An output of compilation: the file generated from a source. */
  datatype OutputItem = OutputItem(source: VirtualFile, outputFile: string)

  /** What an output sink holds: the generated outputs and the files to compile again. */
  datatype SinkContents = SinkContents(outputItems: seq<OutputItem>, filesToRecompile: seq<VirtualFile>)

  /**
   * What `compile` records for the file it processes: both generated
   * classes, component class first, when the EXML compiler produces both;
   * otherwise only that the file is to be compiled again.
   */
  function ProcessedFile(file: VirtualFile, exmlc: Exmlc): (r: SinkContents)
    ensures var component := exmlc.GenerateComponentClass(file.path);
      var config := exmlc.GenerateConfigClass(file.path);
      if component.Some? && config.Some? then
        r == SinkContents([OutputItem(file, component.value), OutputItem(file, config.value)], [])
      else
        r == SinkContents([], [file])
    ensures forall item :: item in r.outputItems ==> item.source == file
    ensures r.outputItems == [] <==> r.filesToRecompile != []
  {
    var component := exmlc.GenerateComponentClass(file.path);
    var config := if component.Some? then exmlc.GenerateConfigClass(file.path) else None;
    if config.Some? then
      SinkContents([OutputItem(file, component.value), OutputItem(file, config.value)], [])
    else
      SinkContents([], [file])
  }

  /** The IDE's sink for the outputs of one compilation step (`OutputSinkItem`). */
  class OutputSinkItem {
    const outputRoot: string
    var outputItems: seq<OutputItem>
    var filesToRecompile: seq<VirtualFile>

    function Contents(): SinkContents
      reads this
    {
      SinkContents(outputItems, filesToRecompile)
    }

    /** `createGeneratedSourcesOutputSinkItem`: an empty sink for outputs under `outputRoot`. */
    constructor (outputRoot: string)
      ensures this.outputRoot == outputRoot && Contents() == SinkContents([], [])
    {
      this.outputRoot := outputRoot;
      outputItems := [];
      filesToRecompile := [];
    }

    method AddOutputItem(source: VirtualFile, outputFile: string)
      modifies this
      ensures outputItems == old(outputItems) + [OutputItem(source, outputFile)]
      ensures filesToRecompile == old(filesToRecompile)
    {
      outputItems := outputItems + [OutputItem(source, outputFile)];
    }

    method AddFileToRecompile(file: VirtualFile)
      modifies this
      ensures filesToRecompile == old(filesToRecompile) + [file]
      ensures outputItems == old(outputItems)
    {
      filesToRecompile := filesToRecompile + [file];
    }
  }

  /**
   * `compile`: files outside production source content are skipped; the
   * first other file is handed to the EXML compiler and is the only one
   * processed, because the loop does nothing once a sink exists. No sink
   * (null) when every file is skipped.
   */
  method Compile(ideModule: Module, files: seq<VirtualFile>, exmlc: Exmlc) returns (sink: OutputSinkItem?)
    requires ideModule.exmlConfig.Some?
    ensures sink == null <==> FirstCompiledFile(files, ideModule.fileIndex).None?
    ensures sink != null ==>
      && fresh(sink)
      && sink.outputRoot == ideModule.exmlConfig.value.generatedSourcesDirectory
      && sink.Contents() == ProcessedFile(files[FirstCompiledFile(files, ideModule.fileIndex).value], exmlc)
  {
    var exmlcConfigurationBean := ideModule.exmlConfig.value;
    var generatedSourcesDirectory := exmlcConfigurationBean.generatedSourcesDirectory;
    var index := ideModule.fileIndex;
    sink := null;
    for i := 0 to |files|
      invariant sink == null <==> forall j :: 0 <= j < i ==> !IsInProductionSource(index, files[j])
      invariant sink != null ==>
        && fresh(sink)
        && sink.outputRoot == generatedSourcesDirectory
        && var first := FirstCompiledFile(files, index);
           first.Some? && first.value < i && sink.Contents() == ProcessedFile(files[first.value], exmlc)
    {
      var file := files[i];
      if sink == null {
        if file !in index.sourceContent || file in index.testSourceContent {
          continue;
        }
        FirstCompiledFileAt(files, index, i);
        sink := new OutputSinkItem(generatedSourcesDirectory);
        ProcessFile(sink, file, exmlc);
      }
    }
  }

  /**
   * The body of the `compile` loop for the file it processes: both generated
   * classes go into the sink when the EXML compiler produces both; otherwise
   * the file is marked for recompilation.
   */
  method ProcessFile(sink: OutputSinkItem, file: VirtualFile, exmlc: Exmlc)
    modifies sink
    ensures sink.outputItems == old(sink.outputItems) + ProcessedFile(file, exmlc).outputItems
    ensures sink.filesToRecompile == old(sink.filesToRecompile) + ProcessedFile(file, exmlc).filesToRecompile
  {
    var componentClassOutputFile := exmlc.GenerateComponentClass(file.path);
    var configClassOutputFile: Option<string> := None;
    if componentClassOutputFile.Some? {
      configClassOutputFile := exmlc.GenerateConfigClass(file.path);
      if configClassOutputFile.Some? {
        sink.AddOutputItem(file, componentClassOutputFile.value);
        sink.AddOutputItem(file, configClassOutputFile.value);
      }
    }
    if configClassOutputFile.None? {
      sink.AddFileToRecompile(file);
    }
  }
}
