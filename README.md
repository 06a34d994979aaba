# Jangaroo IDE plugin: EXML compiler, EXML facet importer and Jooc settings

This project models, in Dafny, the statable logic of three classes of the
Jangaroo plugin for IntelliJ IDEA, and proves what those classes promise.

- **`JoocConfigurationBean`** holds the Jangaroo compiler settings the IDE
  stores per module. The model is a class with the same public, mutable
  fields. It covers:
  - the three debug levels and the three predicates over them;
  - the rule that puts a relative output directory under a non-empty
    prefix;
  - the hand-written `equals` over a subset of the fields, with its loop
    over the flags;
  - `hashCode`, with its `31 * h + x` loop in 32-bit `int` arithmetic.
- **`ExmlCompiler`** is the adapter that runs the EXML compiler inside the
  IDE's build. The model covers:
  - which files it compiles;
  - where a module's XSD lies;
  - the two first-match searches: the jar among a dependency's CLASSES
    roots, and the root-level schema inside an archive;
  - what one `compile` call records. Files outside production source
    content are skipped. The first remaining file is the only one handed
    to the EXML compiler. It either yields two generated classes or is
    marked for recompilation.
- **`ExmlFacetImporter`** sets up an EXML facet from a Maven project. The
  model covers:
  - the three-step lookup of a plugin setting: plugin configuration, then
    the `exml` goal's configuration, then a default;
  - the parsing of the validation mode, with its fallback to `OFF`;
  - the settings a re-import writes into the facet;
  - the namespace-to-schema map it builds in a `LinkedHashMap`. Every
    dependency's schemas go in first, in dependency order, and the
    module's own schemas go in last. A later put for a namespace
    overwrites an earlier one, and an archive that cannot be opened is
    skipped;
  - the two source folders it registers.

Java's semantics are written out where they matter:
- `null` is `Option.None`.
- String concatenation with `null` produces `"null"`.
- `int` arithmetic wraps modulo 2^32.
- `String.hashCode` is the polynomial its documentation states.
- `==` on strings is reference identity (`JavaString`).
- `trim` removes characters up to U+0020.
- A `java.io.File` holds its path normalised: runs of '/' are collapsed
  and a trailing '/' is dropped, except from the root.

Host objects are plain values, because only what they return is read:
- modules, order entries and file indexes;
- the file system, as directory listings and the entry lists of the
  archives that can be opened;
- the EXML compiler, as the files it would generate per source.

Each loop of the source is a Dafny method with a loop. Each method is proved
against a specification function, and the properties are lemmas about that
function. Objects whose fields the source overwrites are classes with
`modifies` frames: the facet's `ExmlcConfigurationBean`, the output sink, and
the resource map.

The files are:

| file | module |
|---|---|
| `java_lang.dfy` | `JavaLang` |
| `idea_file_utils.dfy` | `IdeaFileUtils` |
| `exml_host.dfy` | `ExmlHost` |
| `linked_maps.dfy` | `LinkedMaps` |
| `jooc_configuration_bean.dfy` | `JoocConfiguration` |
| `exml_compiler.dfy` | `ExmlCompiler` |
| `exml_facet_importer.dfy` | `ExmlFacetImporter` |

## Model

| member | source | states |
|---|---|---|
| JoocConfiguration.JoocConfigurationBean.constructor | idea-plugin/src/main/java/net/jangaroo/ide/idea/JoocConfigurationBean.java:31-44 | A new bean holds the field initialisers' defaults. These are debug level SOURCE, assertions on, the three default directories, and no sdk name, prefix or mode. |
| JoocConfiguration.JoocConfigurationBean.IsDebug | idea-plugin/src/main/java/net/jangaroo/ide/idea/JoocConfigurationBean.java:46-48 | Debug information is generated at least from LINES on, and never at NONE. |
| JoocConfiguration.JoocConfigurationBean.IsDebugLines | idea-plugin/src/main/java/net/jangaroo/ide/idea/JoocConfigurationBean.java:46-52 | Generating line information implies generating debug information. |
| JoocConfiguration.JoocConfigurationBean.IsDebugSource | idea-plugin/src/main/java/net/jangaroo/ide/idea/JoocConfigurationBean.java:50-56 | Generating source information implies generating line information. |
| JoocConfiguration.DebugPredicatesAtLevels | idea-plugin/src/main/java/net/jangaroo/ide/idea/JoocConfigurationBean.java:27-56 | At SOURCE (the default), all three predicates hold. At LINES, all but `isDebugSource` hold. At NONE, none hold. |
| JoocConfiguration.PrefixedOutputPath | idea-plugin/src/main/java/net/jangaroo/ide/idea/JoocConfigurationBean.java:58-64 | The result is a normalised path that ends with the normalised path. It equals the normalised path exactly when the path is absolute or the prefix is null or empty. Otherwise a non-empty path follows the prefix unchanged, with only the prefix's separator runs collapsed, and an empty path gives the normalised prefix. |
| JoocConfiguration.JoocConfigurationBean.GetOutputDirectory | idea-plugin/src/main/java/net/jangaroo/ide/idea/JoocConfigurationBean.java:58-64 | `new File(toPath(outputDirectory))` is kept exactly when it is absolute or there is no non-empty prefix. Otherwise the result is the `File` of prefix + that path, which ends with it: the collapsed prefix followed by the path, or the normalised prefix when the path is empty. |
| JoocConfiguration.JoocConfigurationBean.GetApiOutputDirectory | idea-plugin/src/main/java/net/jangaroo/ide/idea/JoocConfigurationBean.java:66-68 | The result is null exactly when the setting is null or empty. Otherwise it is the normalised path of the setting. |
| JoocConfiguration.JoocConfigurationBean.GetTestOutputDirectory | idea-plugin/src/main/java/net/jangaroo/ide/idea/JoocConfigurationBean.java:70-76 | The test output directory follows the same prefix rule as the main one, on the normalised path, including the normalised prefix for an empty path. |
| JoocConfiguration.OutputPrefixRule | idea-plugin/src/main/java/net/jangaroo/ide/idea/JoocConfigurationBean.java:58-76 | The rule treats both directories alike. When both paths are relative, both are prefixed or neither is. When both non-empty paths are prefixed, the prefix is the same text. |
| IdeaFileUtils.CollapseSeparators | idea-plugin/src/main/java/net/jangaroo/ide/idea/JoocConfigurationBean.java:59 | The result has no doubled separator, keeps the first and last character, and leaves a path without doubled separators as it is. |
| IdeaFileUtils.CollapseSeparatorsKeepsNames | idea-plugin/src/main/java/net/jangaroo/ide/idea/JoocConfigurationBean.java:59 | Collapsing keeps the path's names, the non-empty parts between separators, so only separators are removed. |
| IdeaFileUtils.NormalizePath | idea-plugin/src/main/java/net/jangaroo/ide/idea/JoocConfigurationBean.java:59 | `new File(path).getPath()` is a normal path: no doubled separator, and no trailing one except in the root. It is empty exactly when the input is, absolute exactly when the input is, and has the input's names. A normal path is kept as it is. |
| IdeaFileUtils.NormalizePathUnique | idea-plugin/src/main/java/net/jangaroo/ide/idea/JoocConfigurationBean.java:59 | The contract of `NormalizePath` fixes its result: any normal path with the input's names and absoluteness is that result. |
| IdeaFileUtils.CollapseSeparatorsAppend | idea-plugin/src/main/java/net/jangaroo/ide/idea/JoocConfigurationBean.java:61 | Collapsing `x + y` leaves a collapsed, relative `y` unchanged after the collapsed `x`. |
| IdeaFileUtils.PrefixedNormalPath | idea-plugin/src/main/java/net/jangaroo/ide/idea/JoocConfigurationBean.java:61 | `new File(prefix + path)` for a non-empty, normal, relative path is the collapsed prefix followed by the path unchanged. |
| JoocConfiguration.JoocConfigurationBean.Flags | idea-plugin/src/main/java/net/jangaroo/ide/idea/JoocConfigurationBean.java:111-114 | There are exactly four flags. |
| JoocConfiguration.JoocConfigurationBean.Equals | idea-plugin/src/main/java/net/jangaroo/ide/idea/JoocConfigurationBean.java:79-97 | The result is true exactly when the other bean is non-null and agrees on all of these: the four flags position by position, the sdk name by reference, the debug level, the prefix and output directory by content, and the mode. |
| JoocConfiguration.SameSettingsIsEquivalence | idea-plugin/src/main/java/net/jangaroo/ide/idea/JoocConfigurationBean.java:79-97 | `equals` is reflexive, symmetric and transitive. |
| JoocConfiguration.JoocConfigurationBean.HashCode | idea-plugin/src/main/java/net/jangaroo/ide/idea/JoocConfigurationBean.java:100-109 | It requires a non-null sdk name and mode. The loop computes the `31 * h + x` fold, seeded with the sdk name's hash, over the flags, the debug level, the output directory's hash and the mode's hash. |
| JoocConfiguration.HashCodeIsPolynomial | idea-plugin/src/main/java/net/jangaroo/ide/idea/JoocConfigurationBean.java:100-109 | `hashCode` in closed form is the sdk hash times 31^7 plus the seven values weighted by descending powers of 31, wrapped to `int`. |
| JoocConfiguration.EqualBeansHaveEqualHashCodes | idea-plugin/src/main/java/net/jangaroo/ide/idea/JoocConfigurationBean.java:79-109 | Equal beans have equal hash codes. If one of them can be hashed, so can the other. |
| JoocConfiguration.OtherOutputDirectoriesIgnored | idea-plugin/src/main/java/net/jangaroo/ide/idea/JoocConfigurationBean.java:79-109 | Beans that differ only in the API and test output directories are equal, equal to the same third beans, and hash alike. |
| JavaLang.Wrap32 | idea-plugin/src/main/java/net/jangaroo/ide/idea/JoocConfigurationBean.java:103-107 | The result is an `int` congruent to its argument modulo 2^32. An argument already in range is kept. |
| JavaLang.HashFoldIsPolynomial | idea-plugin/src/main/java/net/jangaroo/ide/idea/JoocConfigurationBean.java:101-107 | The `31 * h + x` loop in `int` arithmetic equals the closed-form polynomial, wrapped to 32 bits. |
| JavaLang.StringHashCode | idea-plugin/src/main/java/net/jangaroo/ide/idea/JoocConfigurationBean.java:101 | `String.hashCode`: the empty string hashes to 0, and a one-character string hashes to its character code. |
| JavaLang.StringHashCodeIsPolynomial | idea-plugin/src/main/java/net/jangaroo/ide/idea/JoocConfigurationBean.java:101 | `String.hashCode` is s[0]*31^(n-1) + ... + s[n-1], wrapped to `int`. |
| JavaLang.NullableText | idea-plugin/src/main/java/net/jangaroo/ide/idea/exml/ExmlCompiler.java:50 | Concatenating a null string yields "null"; concatenating a non-null string yields its text. |
| JavaLang.LastIndexOf | idea-plugin/src/main/java/net/jangaroo/ide/idea/exml/ExmlCompiler.java:50 | `lastIndexOf(c)` is -1 exactly when `c` does not occur. Otherwise it is a position of `c` with no `c` after it. |
| ExmlHost.Extension | idea-plugin/src/main/java/net/jangaroo/ide/idea/exml/ExmlCompiler.java:50 | `getExtension()` is null exactly when the name has no '.'. Otherwise it has no '.' and the name ends with "." + extension. |
| ExmlCompiler.ExtensionMatchesSuffix | idea-plugin/src/main/java/net/jangaroo/ide/idea/exml/ExmlCompiler.java:50 | For an extension `ext` that has no '.' and is not "null": "." + `getExtension()` equals "." + `ext` exactly when the file name ends with "." + `ext`. |
| ExmlCompiler.IsCompilableFile | idea-plugin/src/main/java/net/jangaroo/ide/idea/exml/ExmlCompiler.java:49-57 | A file is compilable exactly when its name ends with ".exml" and it belongs to a module that has an EXML facet. |
| ExmlCompiler.GetXsdFilename | idea-plugin/src/main/java/net/jangaroo/ide/idea/exml/ExmlCompiler.java:64-72 | The result is null exactly when the module is null or has no EXML facet. Otherwise it is the generated-resources directory, then "/", then the XSD name. |
| ExmlCompiler.DependentModuleZipFileName | idea-plugin/src/main/java/net/jangaroo/ide/idea/exml/ExmlCompiler.java:112-123 | The result is null exactly when no CLASSES root ends in "!/". Otherwise the result + "!/" is a root, and no earlier root ends in "!/". |
| ExmlCompiler.FindDependentModuleZipFileName | idea-plugin/src/main/java/net/jangaroo/ide/idea/exml/ExmlCompiler.java:112-123 | The early-return loop computes `DependentModuleZipFileName`. |
| ExmlCompiler.FirstRootXsdEntry | idea-plugin/src/main/java/net/jangaroo/ide/idea/exml/ExmlCompiler.java:125-135 | The result is null exactly when no entry is a non-directory `*.xsd` without '/'. Otherwise it is such an entry, and every earlier entry fails that test. |
| ExmlCompiler.FindXsdZipEntry | idea-plugin/src/main/java/net/jangaroo/ide/idea/exml/ExmlCompiler.java:125-135 | The early-return loop computes `FirstRootXsdEntry`. |
| ExmlCompiler.FindXsdZipEntries | idea-plugin/src/main/java/net/jangaroo/ide/idea/exml/ExmlFacetImporter.java:142 | An entry is listed exactly when it is in the archive and passes the test of `findXsdZipEntry`. |
| ExmlCompiler.FirstRootXsdIsFirstOfAll | idea-plugin/src/main/java/net/jangaroo/ide/idea/exml/ExmlCompiler.java:125-135 | `findXsdZipEntry` returns the first entry of `findXsdZipEntries`, and null when that list is empty. |
| ExmlCompiler.FirstCompiledFile | idea-plugin/src/main/java/net/jangaroo/ide/idea/exml/ExmlCompiler.java:153-159 | The result is the position of the first file in source content that is not test source. It is null exactly when there is no such file, and every earlier file is skipped. |
| ExmlCompiler.FirstCompiledFileAt | idea-plugin/src/main/java/net/jangaroo/ide/idea/exml/ExmlCompiler.java:153-160 | A production file preceded only by skipped files is the one `compile` processes. |
| ExmlCompiler.ProcessedFile | idea-plugin/src/main/java/net/jangaroo/ide/idea/exml/ExmlCompiler.java:161-182 | When both generators return a file, both are recorded for the source, component class first. Otherwise the source is sent back for recompilation. Exactly one of the two happens. |
| ExmlCompiler.OutputSinkItem.constructor | idea-plugin/src/main/java/net/jangaroo/ide/idea/exml/ExmlCompiler.java:160 | The new sink is empty and rooted at the generated-sources directory. |
| ExmlCompiler.OutputSinkItem.AddOutputItem | idea-plugin/src/main/java/net/jangaroo/ide/idea/exml/ExmlCompiler.java:175-176 | It appends one output item and leaves the recompile list alone. |
| ExmlCompiler.OutputSinkItem.AddFileToRecompile | idea-plugin/src/main/java/net/jangaroo/ide/idea/exml/ExmlCompiler.java:181 | It appends one file to recompile and leaves the outputs alone. |
| ExmlCompiler.ProcessFile | idea-plugin/src/main/java/net/jangaroo/ide/idea/exml/ExmlCompiler.java:161-182 | The loop body adds to the sink exactly what `ProcessedFile` records. |
| ExmlCompiler.Compile | idea-plugin/src/main/java/net/jangaroo/ide/idea/exml/ExmlCompiler.java:143-186 | The result is null exactly when every file is skipped. Otherwise it is a new sink under the generated-sources directory holding the records of the first non-skipped file only. |
| JavaLang.Trim | idea-plugin/src/main/java/net/jangaroo/ide/idea/exml/ExmlFacetImporter.java:75 | `trim()` is no longer than its input, and its first and last characters are not trimmable. |
| JavaLang.TrimIsSlice | idea-plugin/src/main/java/net/jangaroo/ide/idea/exml/ExmlFacetImporter.java:75 | `trim()` is a slice of the text with only trimmable characters before and after it. |
| JavaLang.TrimIdempotent | idea-plugin/src/main/java/net/jangaroo/ide/idea/exml/ExmlFacetImporter.java:75 | Trimming twice is trimming once. |
| JavaLang.ToUpperCase | idea-plugin/src/main/java/net/jangaroo/ide/idea/exml/ExmlFacetImporter.java:96 | Same length as the input, upper-casing each ASCII letter and keeping every other character. |
| ExmlFacetImporter.FirstChildNamed | idea-plugin/src/main/java/net/jangaroo/ide/idea/exml/ExmlFacetImporter.java:73 | `getChild` is null exactly when no child has the name. Otherwise it is the first child with that name. |
| ExmlFacetImporter.GetConfigurationValue | idea-plugin/src/main/java/net/jangaroo/ide/idea/exml/ExmlFacetImporter.java:71-79 | The result is null when the element is null or lacks the child. Otherwise it is the child's trimmed text, which has no trimmable ends. |
| ExmlFacetImporter.ConfigurationValue | idea-plugin/src/main/java/net/jangaroo/ide/idea/exml/ExmlFacetImporter.java:63-69 | The plugin configuration's value wins if present. Failing that, the `exml` goal configuration's value. Failing both, the default. |
| ExmlFacetImporter.ValidationModeValueOf | idea-plugin/src/main/java/net/jangaroo/ide/idea/exml/ExmlFacetImporter.java:96 | `valueOf` returns the mode with exactly that name. It fails (null) exactly when no mode has that name. |
| ExmlFacetImporter.ParseValidationMode | idea-plugin/src/main/java/net/jangaroo/ide/idea/exml/ExmlFacetImporter.java:94-103 | The result is the mode named by the upper-cased value. If no mode has that name, the result is OFF. |
| ExmlFacetImporter.ParseValidationModeOfName | idea-plugin/src/main/java/net/jangaroo/ide/idea/exml/ExmlFacetImporter.java:94-96 | A value whose upper case is a mode's name parses to that mode. |
| ExmlFacetImporter.DefaultValidationMode | idea-plugin/src/main/java/net/jangaroo/ide/idea/exml/ExmlFacetImporter.java:94-96 | The default "off" parses to OFF, "warn" to WARN and "error" to ERROR. |
| ExmlFacetImporter.UnknownValidationModeIsOff | idea-plugin/src/main/java/net/jangaroo/ide/idea/exml/ExmlFacetImporter.java:97-103 | A value naming no mode falls back to OFF. |
| IdeaFileUtils.ToPath | idea-plugin/src/main/java/net/jangaroo/ide/idea/exml/ExmlFacetImporter.java:159 | `toPath` of a `file://` URL is the text after the protocol. Anything else is kept as it is. |
| IdeaFileUtils.ToPathOfIdeaUrl | idea-plugin/src/main/java/net/jangaroo/ide/idea/exml/ExmlFacetImporter.java:89-91 | `toIdeaUrl` makes a `file://` URL, and `toPath` gives the original path back. |
| ExmlFacetImporter.TargetOutputPath | idea-plugin/src/main/java/net/jangaroo/ide/idea/exml/ExmlFacetImporter.java:91 | `getTargetOutputPath` is a directory directly below the build directory, named by the given name. |
| ExmlFacetImporter.ImportedConfigSettings | idea-plugin/src/main/java/net/jangaroo/ide/idea/exml/ExmlFacetImporter.java:89-103 | A re-import writes the three directories as `file://` URLs whose paths are the Maven project's. It writes the configured package (default "") and the parsed mode (default "off"). The XSD name and the info switch stay unchanged. |
| ExmlFacetImporter.ImportGeneratedDirectories | idea-plugin/src/main/java/net/jangaroo/ide/idea/exml/ExmlFacetImporter.java:89-91 | The bean's three directory fields are set, and nothing else changes. |
| ExmlFacetImporter.ImportCompilerOptions | idea-plugin/src/main/java/net/jangaroo/ide/idea/exml/ExmlFacetImporter.java:92-103 | The package and the validation mode are set, with the OFF fallback, and nothing else changes. |
| ExmlFacetImporter.ImportMavenConfiguration | idea-plugin/src/main/java/net/jangaroo/ide/idea/exml/ExmlFacetImporter.java:87-103 | The bean's new state is `ImportedConfig` of its old state. |
| ExmlFacetImporter.ReimportFacet | idea-plugin/src/main/java/net/jangaroo/ide/idea/exml/ExmlFacetImporter.java:82-105 | The facet's new state is `ImportedConfig` of its old state. The resource map is a new map for the module with the updated facet. |
| ExmlFacetImporter.CollectSourceFolders | idea-plugin/src/main/java/net/jangaroo/ide/idea/exml/ExmlFacetImporter.java:121-125 | The existing list is kept as a prefix, followed by "target/generated-sources/joo" and then "target/generated-resources". |
| ExmlFacetImporter.RemoveExtension | idea-plugin/src/main/java/net/jangaroo/ide/idea/exml/ExmlFacetImporter.java:171 | The result is a prefix of the name. It is the whole name when the name has no '.'. Otherwise it ends just before the last '.'. |
| ExmlFacetImporter.RemoveXsdExtension | idea-plugin/src/main/java/net/jangaroo/ide/idea/exml/ExmlFacetImporter.java:171 | For a `*.xsd` name, appending ".xsd" to the result gives the name back. |
| ExmlFacetImporter.XsdNamespaceOfXsd | idea-plugin/src/main/java/net/jangaroo/ide/idea/exml/ExmlFacetImporter.java:171 | A schema's namespace + ".xsd" is the URI prefix + the file name. |
| ExmlFacetImporter.XsdNamespaceInjective | idea-plugin/src/main/java/net/jangaroo/ide/idea/exml/ExmlFacetImporter.java:170-173 | Different schema files get different namespaces. |
| ExmlFacetImporter.XsdFilesIn | idea-plugin/src/main/java/net/jangaroo/ide/idea/exml/ExmlFacetImporter.java:162 | The `.xsd` filter lists exactly the names in the directory that end with ".xsd". |
| ExmlFacetImporter.XsdResources | idea-plugin/src/main/java/net/jangaroo/ide/idea/exml/ExmlFacetImporter.java:163-165 | One put per schema, in order, from its namespace to path + name. |
| ExmlFacetImporter.ZipXsdResources | idea-plugin/src/main/java/net/jangaroo/ide/idea/exml/ExmlFacetImporter.java:143-145 | One put per archive schema entry, in order, from its namespace to jar path + entry name. |
| ExmlFacetImporter.FacetXsdResourcesPuts | idea-plugin/src/main/java/net/jangaroo/ide/idea/exml/ExmlFacetImporter.java:157-168 | No facet, or a missing directory, maps nothing. Otherwise every listed `*.xsd` is mapped to its location, and every put is such a mapping. |
| ExmlFacetImporter.ArchiveXsdResourcesPuts | idea-plugin/src/main/java/net/jangaroo/ide/idea/exml/ExmlFacetImporter.java:137-146 | No jar root, or an archive that cannot be opened, maps nothing. Otherwise every root-level schema entry is mapped to its place in the jar, and every put is such a mapping. |
| ExmlFacetImporter.MapXsdResource | idea-plugin/src/main/java/net/jangaroo/ide/idea/exml/ExmlFacetImporter.java:170-173 | Puts namespace (URI prefix + name without extension) to path + name, and no other mapping changes. |
| ExmlFacetImporter.MapXsdResources | idea-plugin/src/main/java/net/jangaroo/ide/idea/exml/ExmlFacetImporter.java:157-168 | The loop performs exactly the puts of the facet's schemas, in listing order. |
| ExmlFacetImporter.MapArchiveXsdResources | idea-plugin/src/main/java/net/jangaroo/ide/idea/exml/ExmlFacetImporter.java:137-146 | The non-module branch performs exactly the puts of the archive's schemas. It performs none when the archive cannot be opened. |
| ExmlFacetImporter.MapXsdZipEntries | idea-plugin/src/main/java/net/jangaroo/ide/idea/exml/ExmlFacetImporter.java:143-145 | The loop over the archive's schema entries performs one put per entry, in order. |
| ExmlFacetImporter.XsdResourcesOfModule | idea-plugin/src/main/java/net/jangaroo/ide/idea/exml/ExmlFacetImporter.java:127-155 | The resulting linked map is well formed: each key is listed once, and the listed keys are exactly the mapped ones. |
| ExmlFacetImporter.GetXsdResourcesOfModule | idea-plugin/src/main/java/net/jangaroo/ide/idea/exml/ExmlFacetImporter.java:127-155 | The result is a new map holding every order entry's puts in dependency order, then the module's own. |
| ExmlFacetImporter.OwnXsdsWin | idea-plugin/src/main/java/net/jangaroo/ide/idea/exml/ExmlFacetImporter.java:152-154 | Each schema generated by the module itself maps to its own location, whatever the dependencies map. |
| ExmlFacetImporter.LastMappingWins | idea-plugin/src/main/java/net/jangaroo/ide/idea/exml/ExmlFacetImporter.java:130-154 | A put that no later put of the same namespace follows decides that namespace's value. |
| ExmlFacetImporter.UnreadableArchiveSkipped | idea-plugin/src/main/java/net/jangaroo/ide/idea/exml/ExmlFacetImporter.java:132-151 | An order entry whose archive cannot be opened leaves the map exactly as if that entry were absent. |
| ExmlFacetImporter.EarlierMappingsKept | idea-plugin/src/main/java/net/jangaroo/ide/idea/exml/ExmlFacetImporter.java:130-154 | The namespaces mapped by the first i entries lead, in the same order, the key order of the final map. |
| LinkedMaps.LinkedMap.Put | idea-plugin/src/main/java/net/jangaroo/ide/idea/exml/ExmlFacetImporter.java:172 | After `put`, the key maps to the value and every other key is unchanged. A new key is appended to the key order, and an existing key keeps its place. Validity is preserved. |
| LinkedMaps.ResourceMap.Put | idea-plugin/src/main/java/net/jangaroo/ide/idea/exml/ExmlFacetImporter.java:172 | The mutable map's new value is `LinkedMap.Put` of its old value. |
| LinkedMaps.ResourceMap.constructor | idea-plugin/src/main/java/net/jangaroo/ide/idea/exml/ExmlFacetImporter.java:130 | A new `LinkedHashMap` is empty. |
| LinkedMaps.PutAllValid | idea-plugin/src/main/java/net/jangaroo/ide/idea/exml/ExmlFacetImporter.java:130-154 | Any run of puts keeps the linked map well formed. |
| LinkedMaps.PutAllKeepsKeyOrder | idea-plugin/src/main/java/net/jangaroo/ide/idea/exml/ExmlFacetImporter.java:130-154 | Puts never drop or reorder keys: the old key order is a prefix of the new one. |
| LinkedMaps.PutAllUntouched | idea-plugin/src/main/java/net/jangaroo/ide/idea/exml/ExmlFacetImporter.java:172 | A key that no put touches keeps its mapping, or its absence. |
| LinkedMaps.PutAllLastWins | idea-plugin/src/main/java/net/jangaroo/ide/idea/exml/ExmlFacetImporter.java:172 | The last put of a key decides its value. |

## Left out

- IDE and Maven plumbing is not modelled: `FacetManager`, `ModuleRootManager`, `CompileContext` messages, `LocalFileSystem`, `getVFPath` and `getOrCreateGeneratedAs3RootDir`. Module, facet and file-index lookups are fields of plain values.
- `IdeaErrorHandler`, logging (`getLog`) and the IDE notification for an invalid validation mode only report messages. They have no effect on the modelled state.
- The `invokeLater`/`runWriteAction` block of `reimportFacet` is not modelled. It hands the map to the IDE's `ExternalResourceManager` on another thread. `ReimportFacet` returns the map it would hand over.
- `addModuleDependenciesToComponentSuiteRegistry` is not modelled. Its only effect, the scan of the XSD stream, is commented out in the source.
- The `ExmlConfiguration`/`Exmlc` set-up in `compile` and `updateFileLocations` are not modelled, and neither is the EXML compiler itself. It is an oracle that maps a source path to the component and config class files it would generate, or to none.
- File, directory and zip I/O are not modelled. A directory exists when its path, with the trailing separator, has a listing. An archive that cannot be opened (the `IOException` the importer ignores) is one without an entry list.
- `isApplicable` and `findExmlMavenPlugin` are not modelled. They are host look-ups of whether the Maven project declares the EXML plugin.
- `setupFacet` is empty, and `getDescription` and `getOutputFileSuffix` return constants. None of them is modelled.
- ExmlCompiler.Compile: it requires the module to have an EXML facet. The source dereferences the facet's settings unconditionally, so a module without one throws a `NullPointerException`, which is not modelled.
- ExmlCompiler.ProcessFile: the `OutputItemImpl` whose path has `File.separatorChar` replaced by '/' only feeds the info message and the log line, which are not modelled. `addOutputItem` receives the generated `File` itself, which is what the model records.
- JoocConfiguration.JoocConfigurationBean.Equals: the `getClass()` comparison is not modelled, because the model has no subclasses of the bean.
- JoocConfiguration.JoocConfigurationBean.HashCode: it takes the enum's `hashCode` as a parameter. In Java this is the identity hash of the constant, which is not defined by the source. It requires a non-null sdk name and mode. The source dereferences both (JoocConfigurationBean.java:101 and :107) and throws a `NullPointerException` otherwise. That includes a freshly constructed bean, whose defaults for both are null, and it is not modelled.
- JoocConfiguration: `outputDirectory` and `testOutputDirectory` are non-null strings. The source dereferences both unconditionally, and their defaults are non-null.
- JavaLang.ToUpperCase: it upper-cases ASCII letters only. Locale-dependent and non-ASCII case mapping is not modelled.
- JoocConfiguration.PublicApiViolationsMode: the compiler's `PublicApiViolationsMode` enum is defined outside these classes. It is taken to have the constants `WARN`, `ALLOW` and `ERROR`. No property proved here depends on their names or number, only on comparing them and on the hash code each is given.
- JavaLang.StringHashCode: it hashes the model's characters, which stand for Java's UTF-16 code units.
- `Exmlc.EXML_CONFIG_URI_PREFIX`, `ExmlConstants.EXML_SUFFIX`, `CompilerUtils.removeExtension`, `getTargetOutputPath`, `toIdeaUrl` and `toPath` are defined outside the three classes. They are given simple stated definitions. No property proved here depends on the prefix's value.
- ExmlCompiler.FindXsdZipEntries: `ExmlFacetImporter` calls `findXsdZipEntries`, which `ExmlCompiler` does not define. It is modelled as all the entries that pass the `findXsdZipEntry` test, in archive order. The source returns a `Set`, whose iteration order is not specified.
- ExmlFacetImporter.GetXsdResourcesOfModule: a module dependency whose module is null (not loaded) is not modelled. In the source, `getExmlConfig(null)` throws a `NullPointerException`, which the `IOException` handler does not catch, so `reimportFacet` aborts. The model represents a module dependency only by its facet settings, and a dependency without settings maps nothing.
- ExmlFacetImporter.MapXsdResources: a generated-resources path that exists but is a regular file is not modelled. In the source, `list` then returns null and the loop throws a `NullPointerException`. The model's file system only knows directories with a listing, so that path maps nothing.
- ExmlHost.ValidationMode: the EXML compiler's `ValidationMode` is defined outside these classes. It is taken to have exactly the constants `OFF`, `WARN` and `ERROR`, and which values fall back to `OFF` depends on that set.
- ExmlHost.FileName and ExmlHost.Extension: `VirtualFile.getName` and `getExtension` belong to the IDE. They are taken to be the path after its last '/', and the part of that name after its last '.'.
- ExmlHost.ExmlcConfigurationBean: the facet bean's getters and setters are defined outside these classes. They are taken to be plain reads and writes of its fields. A module's EXML facet is taken to have non-null settings. The source checks for the facet in `isCompilableFile` (ExmlCompiler.java:52) and for a non-null `getState()` in `getExmlConfig` (:61). The model merges both into one optional field, `Module.exmlConfig`, so a facet whose `getState()` is null is not modelled.
- IdeaFileUtils.IsAbsolute and IdeaFileUtils.NormalizePath: `File.isAbsolute` is taken to mean "starts with '/'", `File.separator` is taken to be "/", and a `File` is taken to normalise its path as on Unix. Platforms with drive letters or '\\' separators are not modelled.
- ExmlFacetImporter.FirstChildNamed: JDOM's `getChild(name)` matches only children in no namespace. The model matches by name alone, because its elements carry no namespace.
