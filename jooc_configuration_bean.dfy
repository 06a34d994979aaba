/**
 * The Jangaroo compiler settings the IDE stores per module
 * (`JoocConfigurationBean`): a record of public, mutable fields with a
 * three-level debug threshold, the rule that places relative output
 * directories under an optional prefix, and hand-written `equals` and
 * `hashCode` over a chosen subset of the fields.
 */
module JoocConfiguration {
  import opened JavaLang
  import opened IdeaFileUtils

  const DEBUG_LEVEL_NONE: Int32 := 0
  const DEBUG_LEVEL_LINES: Int32 := 50
  const DEBUG_LEVEL_SOURCE: Int32 := 100

  /** The compiler's policy for uses of non-public API; only the identity of its constants matters here. */
  datatype PublicApiViolationsMode = WARN | ALLOW | ERROR

  /**
   * Where an output directory ends up: the path as a `File` normalises it,
   * placed under a non-empty `outputPrefix` when it is relative and kept as
   * it is when it is absolute or there is no prefix. A non-empty relative
   * path follows the prefix unchanged, with only the prefix's separator runs
   * collapsed.
   */
  function PrefixedOutputPath(outputPrefix: Option<string>, path: string): (r: string)
    ensures IsNormalPath(r)
    ensures EndsWith(r, NormalizePath(path))
    ensures r == NormalizePath(path) <==> IsAbsolute(path) || outputPrefix.None? || outputPrefix.value == ""
    ensures r != NormalizePath(path) ==>
      && outputPrefix.Some?
      && (path != [] ==> r == CollapseSeparators(outputPrefix.value) + NormalizePath(path))
      && (path == [] ==> r == NormalizePath(outputPrefix.value))
  {
    var dir := NormalizePath(path);
    if !IsAbsolute(dir) && outputPrefix.Some? && |outputPrefix.value| > 0 then
      if dir == [] then NormalizePath(outputPrefix.value)
      else
        PrefixedNormalPath(outputPrefix.value, dir);
        NormalizePath(outputPrefix.value + dir)
    else dir
  }

  /** The `int` a boolean flag contributes to `hashCode`. */
  function FlagCode(flag: bool): Int32
  {
    if flag then 1 else 0
  }

  function FlagCodes(flags: seq<bool>): (r: seq<Int32>)
    ensures |r| == |flags|
    ensures forall i :: 0 <= i < |flags| ==> r[i] == FlagCode(flags[i])
  {
    seq(|flags|, i requires 0 <= i < |flags| => FlagCode(flags[i]))
  }

  class JoocConfigurationBean {
    var jangarooSdkName: JavaString?
    var debugLevel: Int32
    var verbose: bool
    var enableAssertions: bool
    var allowDuplicateLocalVariables: bool
    var outputPrefix: Option<string>
    var outputDirectory: string
    var apiOutputDirectory: Option<string>
    var testOutputDirectory: string
    var showCompilerInfoMessages: bool
    var publicApiViolationsMode: Option<PublicApiViolationsMode>

    /** A bean holding the field initialisers' defaults. */
    constructor ()
      ensures jangarooSdkName == null && debugLevel == DEBUG_LEVEL_SOURCE
      ensures !verbose && enableAssertions && !allowDuplicateLocalVariables && !showCompilerInfoMessages
      ensures outputPrefix == None && outputDirectory == "target/jangaroo-output/joo/classes"
      ensures apiOutputDirectory == Some("target/jangaroo-output/META-INF/joo-api")
      ensures testOutputDirectory == "target/jangaroo-test-output/joo/classes"
      ensures publicApiViolationsMode == None
    {
      jangarooSdkName := null;
      debugLevel := DEBUG_LEVEL_SOURCE;
      verbose := false;
      enableAssertions := true;
      allowDuplicateLocalVariables := false;
      outputPrefix := None;
      outputDirectory := "target/jangaroo-output/joo/classes";
      apiOutputDirectory := Some("target/jangaroo-output/META-INF/joo-api");
      testOutputDirectory := "target/jangaroo-test-output/joo/classes";
      showCompilerInfoMessages := false;
      publicApiViolationsMode := None;
    }

    /** Some debug information is generated: at least at LINES, never at NONE. */
    predicate IsDebug()
      reads this
      ensures debugLevel >= DEBUG_LEVEL_LINES ==> IsDebug()
      ensures IsDebug() ==> debugLevel != DEBUG_LEVEL_NONE
    {
      debugLevel > DEBUG_LEVEL_NONE
    }

    /** Line information is generated; this needs debugging to be on. */
    predicate IsDebugLines()
      reads this
      ensures IsDebugLines() ==> IsDebug()
    {
      debugLevel >= DEBUG_LEVEL_LINES
    }

    /** Source information is generated; this needs line information to be on. */
    predicate IsDebugSource()
      reads this
      ensures IsDebugSource() ==> IsDebugLines()
    {
      debugLevel >= DEBUG_LEVEL_SOURCE
    }

    /** `getOutputDirectory()`: the main output directory, under the prefix when it is relative. */
    function GetOutputDirectory(): (dir: string)
      reads this
      ensures IsNormalPath(dir)
      ensures EndsWith(dir, NormalizePath(ToPath(outputDirectory)))
      ensures dir == NormalizePath(ToPath(outputDirectory)) <==>
        IsAbsolute(ToPath(outputDirectory)) || outputPrefix.None? || outputPrefix.value == ""
      ensures dir != NormalizePath(ToPath(outputDirectory)) ==>
        && outputPrefix.Some?
        && (ToPath(outputDirectory) != [] ==> dir == CollapseSeparators(outputPrefix.value) + NormalizePath(ToPath(outputDirectory)))
        && (ToPath(outputDirectory) == [] ==> dir == NormalizePath(outputPrefix.value))
    {
      PrefixedOutputPath(outputPrefix, ToPath(outputDirectory))
    }

    /** `getApiOutputDirectory()`: no directory (null) when the setting is null or empty. */
    function GetApiOutputDirectory(): (dir: Option<string>)
      reads this
      ensures dir.None? <==> apiOutputDirectory.None? || apiOutputDirectory.value == ""
      ensures dir.Some? ==> IsNormalPath(dir.value) && dir.value == NormalizePath(ToPath(apiOutputDirectory.value))
    {
      if apiOutputDirectory.None? || |apiOutputDirectory.value| == 0 then None
      else Some(NormalizePath(ToPath(apiOutputDirectory.value)))
    }

    /** `getTestOutputDirectory()`: the test output directory, by the same rule as the main one. */
    function GetTestOutputDirectory(): (dir: string)
      reads this
      ensures IsNormalPath(dir)
      ensures EndsWith(dir, NormalizePath(ToPath(testOutputDirectory)))
      ensures dir == NormalizePath(ToPath(testOutputDirectory)) <==>
        IsAbsolute(ToPath(testOutputDirectory)) || outputPrefix.None? || outputPrefix.value == ""
      ensures dir != NormalizePath(ToPath(testOutputDirectory)) ==>
        && outputPrefix.Some?
        && (ToPath(testOutputDirectory) != [] ==> dir == CollapseSeparators(outputPrefix.value) + NormalizePath(ToPath(testOutputDirectory)))
        && (ToPath(testOutputDirectory) == [] ==> dir == NormalizePath(outputPrefix.value))
    {
      PrefixedOutputPath(outputPrefix, ToPath(testOutputDirectory))
    }

    /** `getFlags()`: the four boolean settings, in the order `equals` and `hashCode` visit them. */
    function Flags(): (flags: seq<bool>)
      reads this
      ensures |flags| == 4
    {
      [verbose, enableAssertions, allowDuplicateLocalVariables, showCompilerInfoMessages]
    }

    /**
     * What `equals` compares, field by field: the four flags, the sdk name by
     * reference, the debug level, the output prefix and output directory by
     * content, and the public-API mode. The API and test output directories
     * are not compared.
     */
    predicate SameSettings(that: JoocConfigurationBean)
      reads this, that
    {
      && verbose == that.verbose
      && enableAssertions == that.enableAssertions
      && allowDuplicateLocalVariables == that.allowDuplicateLocalVariables
      && showCompilerInfoMessages == that.showCompilerInfoMessages
      && jangarooSdkName == that.jangarooSdkName
      && debugLevel == that.debugLevel
      && outputPrefix == that.outputPrefix
      && outputDirectory == that.outputDirectory
      && publicApiViolationsMode == that.publicApiViolationsMode
    }

    /** `equals(o)`: the flags are compared position by position, then the other fields. */
    method Equals(o: JoocConfigurationBean?) returns (r: bool)
      ensures r <==> o != null && SameSettings(o)
    {
      if this == o {
        return true;
      }
      if o == null {
        return false;
      }
      var flags := Flags();
      var thatFlags := o.Flags();
      var i := 0;
      while i < |flags|
        invariant 0 <= i <= |flags|
        invariant forall k :: 0 <= k < i ==> flags[k] == thatFlags[k]
      {
        if flags[i] != thatFlags[i] {
          return false;
        }
        i := i + 1;
      }
      assert flags[0] == thatFlags[0] && flags[1] == thatFlags[1] && flags[2] == thatFlags[2] && flags[3] == thatFlags[3];
      r := jangarooSdkName == o.jangarooSdkName
        && debugLevel == o.debugLevel
        && (if outputPrefix.None? then o.outputPrefix.None? else o.outputPrefix.Some? && outputPrefix.value == o.outputPrefix.value)
        && outputDirectory == o.outputDirectory
        && publicApiViolationsMode == o.publicApiViolationsMode;
    }

    /**
     * The value `hashCode` computes: the `31 * h + x` accumulation, seeded with
     * the sdk name's hash, over the flags, the debug level, the output
     * directory's hash and the mode's hash. The enum's `hashCode` is Java's
     * identity hash, so it is a parameter.
     */
    function HashCodeValue(modeHash: PublicApiViolationsMode -> Int32): Int32
      reads this
      requires jangarooSdkName != null && publicApiViolationsMode.Some?
    {
      HashFold(StringHashCode(jangarooSdkName.chars),
        FlagCodes(Flags()) + [debugLevel, StringHashCode(outputDirectory), modeHash(publicApiViolationsMode.value)])
    }

    /** `hashCode()`; it dereferences the sdk name and the mode, so both must be non-null. */
    method HashCode(modeHash: PublicApiViolationsMode -> Int32) returns (h: Int32)
      requires jangarooSdkName != null && publicApiViolationsMode.Some?
      ensures h == HashCodeValue(modeHash)
    {
      var result := StringHashCode(jangarooSdkName.chars);
      ghost var seed := result;
      var flags := Flags();
      var i := 0;
      while i < |flags|
        invariant 0 <= i <= |flags|
        invariant result == HashFold(seed, FlagCodes(flags[..i]))
      {
        assert FlagCodes(flags[..i + 1]) == FlagCodes(flags[..i]) + [FlagCode(flags[i])];
        HashFoldSnoc(seed, FlagCodes(flags[..i]), FlagCode(flags[i]));
        result := HashStep(result, if flags[i] then 1 else 0);
        i := i + 1;
      }
      assert flags[..i] == flags;
      ghost var codes := FlagCodes(flags);
      var mode := modeHash(publicApiViolationsMode.value);
      var dir := StringHashCode(outputDirectory);
      HashFoldSnoc(seed, codes, debugLevel);
      result := HashStep(result, debugLevel);
      HashFoldSnoc(seed, codes + [debugLevel], dir);
      result := HashStep(result, dir);
      HashFoldSnoc(seed, codes + [debugLevel] + [dir], mode);
      result := HashStep(result, mode);
      assert codes + [debugLevel] + [dir] + [mode] == codes + [debugLevel, dir, mode];
      h := result;
    }
  }

  /** The three debug predicates at the three named levels: all hold at the default level, none at NONE. */
  lemma DebugPredicatesAtLevels(b: JoocConfigurationBean)
    ensures b.debugLevel == DEBUG_LEVEL_SOURCE ==> b.IsDebug() && b.IsDebugLines() && b.IsDebugSource()
    ensures b.debugLevel == DEBUG_LEVEL_LINES ==> b.IsDebug() && b.IsDebugLines() && !b.IsDebugSource()
    ensures b.debugLevel == DEBUG_LEVEL_NONE ==> !b.IsDebug() && !b.IsDebugLines() && !b.IsDebugSource()
  {
  }

  /** `equals` is an equivalence: reflexive, symmetric and transitive. */
  lemma SameSettingsIsEquivalence(a: JoocConfigurationBean, b: JoocConfigurationBean, c: JoocConfigurationBean)
    ensures a.SameSettings(a)
    ensures a.SameSettings(b) ==> b.SameSettings(a)
    ensures a.SameSettings(b) && b.SameSettings(c) ==> a.SameSettings(c)
  {
  }

  /** Equal beans have equal hash codes: `hashCode` reads only fields that `equals` compares. */
  lemma EqualBeansHaveEqualHashCodes(a: JoocConfigurationBean, b: JoocConfigurationBean, modeHash: PublicApiViolationsMode -> Int32)
    requires a.SameSettings(b)
    requires a.jangarooSdkName != null && a.publicApiViolationsMode.Some?
    ensures b.jangarooSdkName != null && b.publicApiViolationsMode.Some?
    ensures a.HashCodeValue(modeHash) == b.HashCodeValue(modeHash)
  {
    assert a.Flags() == b.Flags();
  }

  /**
   * `hashCode` in closed form: the sdk name's hash times 31^7, plus the seven
   * accumulated values weighted by descending powers of 31, in `int` arithmetic.
   */
  lemma HashCodeIsPolynomial(b: JoocConfigurationBean, modeHash: PublicApiViolationsMode -> Int32)
    requires b.jangarooSdkName != null && b.publicApiViolationsMode.Some?
    ensures b.HashCodeValue(modeHash)
         == Wrap32(StringHashCode(b.jangarooSdkName.chars) * Pow31(7)
              + Polynomial(FlagCodes(b.Flags()) + [b.debugLevel, StringHashCode(b.outputDirectory), modeHash(b.publicApiViolationsMode.value)]))
  {
    var codes := FlagCodes(b.Flags()) + [b.debugLevel, StringHashCode(b.outputDirectory), modeHash(b.publicApiViolationsMode.value)];
    assert |codes| == 7;
    HashFoldIsPolynomial(StringHashCode(b.jangarooSdkName.chars), codes);
  }

  /**
   * Two beans that differ at most in their API and test output directories
   * are equal to each other and to the same third beans, and hash alike.
   */
  lemma OtherOutputDirectoriesIgnored(a: JoocConfigurationBean, b: JoocConfigurationBean, modeHash: PublicApiViolationsMode -> Int32)
    requires a.jangarooSdkName == b.jangarooSdkName && a.debugLevel == b.debugLevel
    requires a.Flags() == b.Flags() && a.outputPrefix == b.outputPrefix
    requires a.outputDirectory == b.outputDirectory && a.publicApiViolationsMode == b.publicApiViolationsMode
    ensures a.SameSettings(b)
    ensures forall c: JoocConfigurationBean {:trigger a.SameSettings(c)} {:trigger b.SameSettings(c)} :: a.SameSettings(c) <==> b.SameSettings(c)
    ensures a.jangarooSdkName != null && a.publicApiViolationsMode.Some? ==> a.HashCodeValue(modeHash) == b.HashCodeValue(modeHash)
  {
    assert a.Flags()[0] == b.Flags()[0] && a.Flags()[1] == b.Flags()[1];
    assert a.Flags()[2] == b.Flags()[2] && a.Flags()[3] == b.Flags()[3];
  }

  /**
   * The prefix rule treats both directories alike: when both paths are
   * relative, both are prefixed or neither is, and when both non-empty
   * paths are prefixed they are prefixed with the same text.
   */
  lemma OutputPrefixRule(b: JoocConfigurationBean)
    ensures !IsAbsolute(ToPath(b.outputDirectory)) && !IsAbsolute(ToPath(b.testOutputDirectory)) ==>
      (b.GetOutputDirectory() == NormalizePath(ToPath(b.outputDirectory)) <==>
       b.GetTestOutputDirectory() == NormalizePath(ToPath(b.testOutputDirectory)))
    ensures b.GetOutputDirectory() != NormalizePath(ToPath(b.outputDirectory)) && ToPath(b.outputDirectory) != [] &&
            b.GetTestOutputDirectory() != NormalizePath(ToPath(b.testOutputDirectory)) && ToPath(b.testOutputDirectory) != [] ==>
      b.GetOutputDirectory()[..|b.GetOutputDirectory()| - |NormalizePath(ToPath(b.outputDirectory))|]
        == b.GetTestOutputDirectory()[..|b.GetTestOutputDirectory()| - |NormalizePath(ToPath(b.testOutputDirectory))|]
  {
    var dir, testDir := NormalizePath(ToPath(b.outputDirectory)), NormalizePath(ToPath(b.testOutputDirectory));
    if b.GetOutputDirectory() != dir && dir != [] && b.GetTestOutputDirectory() != testDir && testDir != [] {
      var prefix := CollapseSeparators(b.outputPrefix.value);
      assert (prefix + dir)[..|prefix|] == prefix;
      assert (prefix + testDir)[..|prefix|] == prefix;
    }
  }
}
