/** The OpenCL runtime object: the selected device, the context and queue
    settings, and the cache of built programs.

    Driver calls are not modelled; what they return is supplied from outside.
    The runtime is given three functions at construction: `resolve` stands for
    GetSourceOrBinaryProgram (find a program by name and binary filename
    prefix, loaded from a binary when one exists), `compile` for
    cl::Program::build (true on CL_SUCCESS), and `obfuscate` for the
    MACE_OBFUSCATE_SYMBOL macro. */
module Runtime {
  import opened Wrappers
  import opened Errors
  import ContextProperties
  import DeviceSelection
  import BinaryNaming
  import BuildOptions
  import Profiling

  /** A program object handed out by the driver. */
  datatype Program = Program(handle: nat)

  /** What GetSourceOrBinaryProgram reports: whether a program was found,
      whether it came from a stored binary, and the program itself. */
  datatype Resolution = Resolution(found: bool, isBinary: bool, program: Program)

  datatype Kernel = Kernel(program: Program, name: string)

  /** One completed BuildProgram call: what was compiled with which options,
      and the file a binary write was requested for, if any. */
  datatype BuildRecord = BuildRecord(
    programName: string,
    key: string,
    buildOptions: string,
    compilerOptions: string,
    fromBinary: bool,
    program: Program,
    binaryWrite: Option<string>)

  /** The flags BuildProgram always appends to the caller's options. */
  const MANDATORY_FLAGS: string := " -Werror -cl-mad-enable -cl-fast-relaxed-math"

  /** The options handed to the compiler: the caller's, then the mandatory flags. */
  function CompilerOptions(buildOptions: string): (options: string)
    ensures |options| == |buildOptions| + |MANDATORY_FLAGS|
    ensures options[..|buildOptions|] == buildOptions
    ensures options[|buildOptions|..] == MANDATORY_FLAGS
  {
    buildOptions + MANDATORY_FLAGS
  }

  /** The properties given to the context: the Qualcomm hint list on an Adreno
      GPU, no list at all (a null pointer) on any other. */
  function ContextPropertiesFor(gpuType: DeviceSelection.GpuType,
                                perf: ContextProperties.GpuPerfHint,
                                prio: ContextProperties.GpuPriorityHint): (props: Option<seq<int>>)
    ensures props.Some? <==> gpuType == DeviceSelection.QualcommAdreno
    ensures props.Some? ==> props.value == ContextProperties.AdrenoContextProperties(perf, prio)
  {
    if gpuType == DeviceSelection.QualcommAdreno
    then Some(ContextProperties.AdrenoContextProperties(perf, prio))
    else None
  }

  /** The keys of a build log. */
  ghost function KeysOf(builds: seq<BuildRecord>): (keys: set<string>)
    ensures forall i :: 0 <= i < |builds| ==> builds[i].key in keys
    ensures forall k :: k in keys ==> exists i :: 0 <= i < |builds| && builds[i].key == k
  {
    if builds == [] then {}
    else
      var last := |builds| - 1;
      var keys := KeysOf(builds[..last]) + {builds[last].key};
      assert forall i :: 0 <= i < last ==> builds[..last][i] == builds[i];
      keys
  }

  /** No key occurs twice in a build log. */
  ghost predicate DistinctKeys(builds: seq<BuildRecord>)
  {
    forall i, j :: 0 <= i < j < |builds| ==> builds[i].key != builds[j].key
  }

  /** A log without repeated keys has as many keys as entries. */
  lemma {:induction false} DistinctKeysCount(builds: seq<BuildRecord>)
    requires DistinctKeys(builds)
    ensures |KeysOf(builds)| == |builds|
  {
    if builds != [] {
      var last := |builds| - 1;
      var prefix := builds[..last];
      assert DistinctKeys(prefix) by {
        forall i, j | 0 <= i < j < |prefix| ensures prefix[i].key != prefix[j].key {
          assert prefix[i] == builds[i] && prefix[j] == builds[j];
        }
      }
      DistinctKeysCount(prefix);
      assert forall i :: 0 <= i < |prefix| ==> prefix[i].key != builds[last].key by {
        forall i | 0 <= i < |prefix| ensures prefix[i].key != builds[last].key {
          assert prefix[i] == builds[i];
        }
      }
      assert builds[last].key !in KeysOf(prefix);
    }
  }

  /** The cache side of the runtime invariant: the cached keys are exactly the
      logged keys, no key was built twice, and each cached program is the one
      its build produced. */
  ghost predicate CacheConsistent(cache: map<string, Program>, builds: seq<BuildRecord>)
  {
    && cache.Keys == KeysOf(builds)
    && DistinctKeys(builds)
    && (forall i :: 0 <= i < |builds| ==> builds[i].key in cache && cache[builds[i].key] == builds[i].program)
  }

  /** Inserting a freshly built program for a missing key keeps the cache consistent. */
  lemma CacheInsert(cache: map<string, Program>, builds: seq<BuildRecord>, rec: BuildRecord)
    requires CacheConsistent(cache, builds)
    requires rec.key !in cache
    ensures CacheConsistent(cache[rec.key := rec.program], builds + [rec])
  {
    var builds' := builds + [rec];
    assert builds'[..|builds|] == builds;
    assert KeysOf(builds') == KeysOf(builds) + {rec.key};
    forall i | 0 <= i < |builds|
      ensures builds'[i].key != rec.key
    {
      assert builds'[i] == builds[i];
    }
  }

  class OpenCLRuntime {
    const selected: DeviceSelection.SelectedDevice
    const contextProperties: Option<seq<int>>
    const queueProfiling: bool
    const kernelPath: string
    const resolve: (string, string) -> Resolution
    const compile: (Program, string) -> bool
    const obfuscate: string -> string

    /** built_program_map_: cache key to built program. */
    var builtProgramMap: map<string, Program>
    /** Every completed BuildProgram call, oldest first. */
    var builds: seq<BuildRecord>

    /** The cache invariant: the cached keys are exactly the built keys, no key
        was built twice, each cached program is the one its build produced, and
        each build did what BuildProgram does. */
    ghost predicate Valid()
      reads this
    {
      CacheConsistent(builtProgramMap, builds) && WellBuilt(builds)
    }

    /** Each logged build is what BuildProgram produces for its name, key and options. */
    ghost predicate WellBuilt(log: seq<BuildRecord>)
    {
      forall i :: 0 <= i < |log| ==>
        BuildProgramResult(log[i].programName, log[i].key, log[i].buildOptions) == Ok(log[i])
    }

    lemma WellBuiltAppend(log: seq<BuildRecord>, rec: BuildRecord)
      requires WellBuilt(log)
      requires BuildProgramResult(rec.programName, rec.key, rec.buildOptions) == Ok(rec)
      ensures WellBuilt(log + [rec])
    {
      forall i | 0 <= i < |log| + 1
        ensures (log + [rec])[i] == if i < |log| then log[i] else rec
      {
      }
    }

    /** The part of the constructor that follows device selection. */
    constructor (selected: DeviceSelection.SelectedDevice,
                 perf: ContextProperties.GpuPerfHint,
                 prio: ContextProperties.GpuPriorityHint,
                 isTuning: bool,
                 profilingEnv: Option<string>,
                 kernelPathEnv: Option<string>,
                 resolve: (string, string) -> Resolution,
                 compile: (Program, string) -> bool,
                 obfuscate: string -> string)
      ensures this.selected == selected
      ensures contextProperties == ContextPropertiesFor(selected.gpuType, perf, prio)
      ensures queueProfiling == Profiling.ProfilingEnabled(isTuning, profilingEnv)
      ensures kernelPath == BinaryNaming.KernelPath(kernelPathEnv)
      ensures this.resolve == resolve && this.compile == compile && this.obfuscate == obfuscate
      ensures builtProgramMap == map[] && builds == []
      ensures Valid()
    {
      var props: Option<seq<int>> := None;
      if selected.gpuType == DeviceSelection.QualcommAdreno {
        var adreno := ContextProperties.GetAdrenoContextProperties([], perf, prio);
        assert adreno == ContextProperties.AdrenoContextProperties(perf, prio);
        props := Some(adreno);
      }
      this.selected := selected;
      this.contextProperties := props;
      this.queueProfiling := Profiling.ProfilingEnabled(isTuning, profilingEnv);
      this.kernelPath := (if kernelPathEnv.None? then "" else kernelPathEnv.value) + "/";
      this.resolve := resolve;
      this.compile := compile;
      this.obfuscate := obfuscate;
      this.builtProgramMap := map[];
      this.builds := [];
    }

    /** GenerateCLBinaryFilenamePrefix: the sanitised key, obfuscated. */
    function BinaryFilenamePrefix(key: string): (prefix: string)
    {
      obfuscate(BinaryNaming.Sanitized(key))
    }

    /** The prefix sees a key only through its sanitised form: keys that differ
        only in ' ', '-', '=' and '_' share one prefix, and so one binary file,
        whatever the obfuscation. "conv -DA=1" and "conv -DA-1" are such keys. */
    lemma PrefixIgnoresReplacedCharacters(key1: string, key2: string)
      requires |key1| == |key2|
      requires forall i :: 0 <= i < |key1| ==>
                 key1[i] == key2[i] || ((BinaryNaming.IsReplaced(key1[i]) || key1[i] == '_') &&
                                        (BinaryNaming.IsReplaced(key2[i]) || key2[i] == '_'))
      ensures BinaryFilenamePrefix(key1) == BinaryFilenamePrefix(key2)
      ensures BinaryNaming.BinaryFilename(kernelPath, BinaryFilenamePrefix(key1)) ==
              BinaryNaming.BinaryFilename(kernelPath, BinaryFilenamePrefix(key2))
    {
      var s1, s2 := BinaryNaming.Sanitized(key1), BinaryNaming.Sanitized(key2);
      assert forall i :: 0 <= i < |s1| ==> s1[i] == s2[i];
      assert s1 == s2;
    }

    /** Two different cache keys that share one binary file. */
    lemma DistinctKeysShareBinaryFile()
      ensures "conv -DA=1" != "conv -DA-1"
      ensures BinaryFilenamePrefix("conv -DA=1") == BinaryFilenamePrefix("conv -DA-1")
    {
      assert "conv -DA=1"[8] != "conv -DA-1"[8];
      PrefixIgnoresReplacedCharacters("conv -DA=1", "conv -DA-1");
    }

    /** What BuildProgram does for a program name, cache key and options string. */
    function BuildProgramResult(programName: string, key: string, buildOptions: string)
      : (r: Result<BuildRecord, Fatal>)
      ensures var res := resolve(programName, BinaryFilenamePrefix(key));
              r.Ok? <==> res.found && compile(res.program, CompilerOptions(buildOptions))
      ensures !resolve(programName, BinaryFilenamePrefix(key)).found ==> r == Err(ProgramNotFound(key))
      ensures r.Ok? ==>
                && r.value.programName == programName && r.value.key == key
                && r.value.buildOptions == buildOptions
                && r.value.compilerOptions == CompilerOptions(buildOptions)
                && r.value.program == resolve(programName, BinaryFilenamePrefix(key)).program
                && r.value.fromBinary == resolve(programName, BinaryFilenamePrefix(key)).isBinary
      ensures r.Ok? ==> (r.value.binaryWrite.Some? <==> !r.value.fromBinary)
      ensures r.Ok? && r.value.binaryWrite.Some? ==>
                r.value.binaryWrite.value == BinaryNaming.BinaryFilename(kernelPath, BinaryFilenamePrefix(key))
    {
      var prefix := BinaryFilenamePrefix(key);
      var res := resolve(programName, prefix);
      if !res.found then Err(ProgramNotFound(key))
      else
        var options := CompilerOptions(buildOptions);
        if !compile(res.program, options) then Err(BuildFailed(key, res.isBinary))
        else
          var write := if res.isBinary then None else Some(BinaryNaming.BinaryFilename(kernelPath, prefix));
          Ok(BuildRecord(programName, key, buildOptions, options, res.isBinary, res.program, write))
    }

    /** The sanitising loop followed by the obfuscation macro. */
    method GenerateBinaryFilenamePrefix(filenameMsg: string) returns (prefix: string)
      ensures prefix == BinaryFilenamePrefix(filenameMsg)
    {
      var sanitized := BinaryNaming.SanitizeFilenamePrefix(filenameMsg);
      prefix := obfuscate(sanitized);
    }

    /** Resolves the program, compiles it with the mandatory flags appended and,
        when it was compiled from source, requests that its binary be written. */
    method BuildProgram(programName: string, key: string, buildOptions: string)
      returns (r: Result<Program, Fatal>)
      modifies this`builds
      ensures match BuildProgramResult(programName, key, buildOptions)
              case Ok(rec) => r == Ok(rec.program) && builds == old(builds) + [rec]
              case Err(e) => r == Err(e) && builds == old(builds)
    {
      var prefix := GenerateBinaryFilenamePrefix(key);
      var resolution := resolve(programName, prefix);
      if !resolution.found {
        return Err(ProgramNotFound(key));
      }
      var options := buildOptions + MANDATORY_FLAGS;
      var ok := compile(resolution.program, options);
      if !ok {
        return Err(BuildFailed(key, resolution.isBinary));
      }
      var binaryWrite := None;
      if !resolution.isBinary {
        var filename := kernelPath + prefix + ".bin";
        binaryWrite := Some(filename);
      }
      builds := builds + [BuildRecord(programName, key, buildOptions, options,
                                      resolution.isBinary, resolution.program, binaryWrite)];
      r := Ok(resolution.program);
    }

    /** The miss branch of BuildKernel: build the program and cache it under its key. */
    method BuildAndCache(programName: string, key: string, buildOptions: string)
      returns (r: Result<Program, Fatal>)
      requires Valid()
      requires key !in builtProgramMap
      modifies this
      ensures Valid()
      ensures match BuildProgramResult(programName, key, buildOptions)
              case Ok(rec) =>
                && r == Ok(rec.program)
                && builtProgramMap == old(builtProgramMap)[key := rec.program]
                && builds == old(builds) + [rec]
              case Err(e) =>
                r == Err(e) && builtProgramMap == old(builtProgramMap) && builds == old(builds)
    {
      ghost var oldBuilds := builds;
      r := BuildProgram(programName, key, buildOptions);
      if r.Ok? {
        ghost var rec := BuildProgramResult(programName, key, buildOptions).value;
        CacheInsert(builtProgramMap, oldBuilds, rec);
        WellBuiltAppend(oldBuilds, rec);
        builtProgramMap := builtProgramMap[key := r.value];
      }
    }

    /** Looks the key up in the cache and builds the program only on a miss. */
    method BuildKernel(programName: string, kernelName: string, buildOptions: set<string>)
      returns (r: Result<Kernel, Fatal>)
      requires Valid()
      modifies this
      ensures Valid()
      ensures var key := BuildOptions.BuildKey(programName, buildOptions);
              if key in old(builtProgramMap) then
                && r == Ok(Kernel(old(builtProgramMap)[key], kernelName))
                && builtProgramMap == old(builtProgramMap) && builds == old(builds)
              else
                match BuildProgramResult(programName, key, BuildOptions.CanonicalOptions(buildOptions))
                case Ok(rec) =>
                  && r == Ok(Kernel(rec.program, kernelName))
                  && builtProgramMap == old(builtProgramMap)[key := rec.program]
                  && builds == old(builds) + [rec]
                case Err(e) =>
                  r == Err(e) && builtProgramMap == old(builtProgramMap) && builds == old(builds)
      ensures r.Ok? ==>
                && BuildOptions.BuildKey(programName, buildOptions) in builtProgramMap
                && builtProgramMap[BuildOptions.BuildKey(programName, buildOptions)] == r.value.program
                && r.value.name == kernelName
    {
      var optionsStr := BuildOptions.BuildOptionsString(buildOptions);
      var key := programName + optionsStr;
      assert key == BuildOptions.BuildKey(programName, buildOptions);
      if key in builtProgramMap {
        return Ok(Kernel(builtProgramMap[key], kernelName));
      }
      var program := BuildAndCache(programName, key, optionsStr);
      if program.Err? {
        return Err(program.error);
      }
      r := Ok(Kernel(program.value, kernelName));
    }

    /** No key is ever built twice: there are exactly as many builds as cached programs. */
    lemma BuildsMatchCache()
      requires Valid()
      ensures |builds| == |builtProgramMap|
    {
      DistinctKeysCount(builds);
      assert |builtProgramMap| == |builtProgramMap.Keys|;
    }
  }

  /** The constructor: the first platform's devices, device selection, then the runtime state. */
  method CreateRuntime(platforms: seq<seq<DeviceSelection.DeviceInfo>>,
                       perf: ContextProperties.GpuPerfHint,
                       prio: ContextProperties.GpuPriorityHint,
                       isTuning: bool,
                       profilingEnv: Option<string>,
                       kernelPathEnv: Option<string>,
                       resolve: (string, string) -> Resolution,
                       compile: (Program, string) -> bool,
                       obfuscate: string -> string)
    returns (r: Result<OpenCLRuntime, Fatal>)
    ensures r.Ok? <==> platforms != [] && DeviceSelection.Selection(platforms[0]).Ok?
    ensures platforms == [] ==> r == Err(NoPlatforms)
    ensures platforms != [] && DeviceSelection.Selection(platforms[0]).Err? ==>
              r == Err(DeviceSelection.Selection(platforms[0]).error)
    ensures r.Ok? ==>
              && platforms != [] && DeviceSelection.Selection(platforms[0]) == Ok(r.value.selected)
              && fresh(r.value) && r.value.Valid()
              && r.value.builtProgramMap == map[] && r.value.builds == []
              && r.value.contextProperties == ContextPropertiesFor(r.value.selected.gpuType, perf, prio)
              && r.value.queueProfiling == Profiling.ProfilingEnabled(isTuning, profilingEnv)
              && r.value.kernelPath == BinaryNaming.KernelPath(kernelPathEnv)
              && r.value.resolve == resolve && r.value.compile == compile && r.value.obfuscate == obfuscate
  {
    if |platforms| == 0 {
      return Err(NoPlatforms);
    }
    var selection := DeviceSelection.SelectDevice(platforms[0]);
    if selection.Err? {
      return Err(selection.error);
    }
    var runtime := new OpenCLRuntime(selection.value, perf, prio, isTuning, profilingEnv,
                                     kernelPathEnv, resolve, compile, obfuscate);
    r := Ok(runtime);
  }

  /** Requesting a kernel of an already built program builds nothing and hands
      back the cached program, whatever the kernel name. */
  method RepeatedRequestBuildsOnce(runtime: OpenCLRuntime, programName: string,
                                   kernelName1: string, kernelName2: string, options: set<string>)
    returns (first: Result<Kernel, Fatal>, second: Result<Kernel, Fatal>, ghost buildsAfterFirst: seq<BuildRecord>)
    requires runtime.Valid()
    modifies runtime
    ensures runtime.Valid()
    ensures |buildsAfterFirst| <= |old(runtime.builds)| + 1
    ensures BuildOptions.BuildKey(programName, options) in old(runtime.builtProgramMap) ==>
              buildsAfterFirst == old(runtime.builds)
    ensures first.Ok? ==> |runtime.builds| <= |old(runtime.builds)| + 1
    ensures first.Ok? ==>
              && second == Ok(Kernel(first.value.program, kernelName2))
              && runtime.builds == buildsAfterFirst
  {
    first := runtime.BuildKernel(programName, kernelName1, options);
    buildsAfterFirst := runtime.builds;
    second := runtime.BuildKernel(programName, kernelName2, options);
  }

  /** The same options inserted in two orders, each any number of times (say
      "-DFOO=1" then "-DBAR=2", and the reverse), name one cached program:
      the second request compiles nothing. */
  method ReorderedOptionsShareProgram(runtime: OpenCLRuntime, programName: string, kernelName: string,
                                      inserted1: seq<string>, inserted2: seq<string>)
    returns (first: Result<Kernel, Fatal>, second: Result<Kernel, Fatal>, ghost buildsAfterFirst: seq<BuildRecord>)
    requires runtime.Valid()
    requires forall o :: o in inserted1 <==> o in inserted2
    modifies runtime
    ensures runtime.Valid()
    ensures |buildsAfterFirst| <= |old(runtime.builds)| + 1
    ensures BuildOptions.BuildKey(programName, set o | o in inserted1) in old(runtime.builtProgramMap) ==>
              buildsAfterFirst == old(runtime.builds)
    ensures first.Ok? ==> |runtime.builds| <= |old(runtime.builds)| + 1
    ensures first.Ok? ==>
              && second.Ok? && second.value.program == first.value.program
              && runtime.builds == buildsAfterFirst
  {
    var options1 := set o | o in inserted1;
    var options2 := set o | o in inserted2;
    first := runtime.BuildKernel(programName, kernelName, options1);
    buildsAfterFirst := runtime.builds;
    BuildOptions.KeyIgnoresInsertionOrder(programName, inserted1, inserted2);
    second := runtime.BuildKernel(programName, kernelName, options2);
  }
}
