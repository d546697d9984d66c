# OpenCL runtime bookkeeping of MACE, modelled in Dafny

MACE's `OpenCLRuntime` sits between the inference engine and the OpenCL
driver. Around the driver calls it does deterministic bookkeeping, and that
bookkeeping is what this project models and proves things about:

- **Context properties.** On a Qualcomm Adreno GPU, the context gets a
  zero-terminated property list. The list holds the performance hint pair if
  one is set, then the priority hint pair if one is set, then `0`
  (module `ContextProperties`).
- **Device selection.** The runtime takes the first device of the first
  platform whose type is exactly `CL_DEVICE_TYPE_GPU`. It classifies the
  vendor: an exact `"QUALCOMM Adreno(TM)"` name is Adreno, a name containing
  `"Mali"` is Mali, anything else is Unknown. It stores `substr(7, 3)` of the
  device version string (module `DeviceSelection`).
- **Queue and path settings.** Profiling is enabled when the tuner is tuning
  or `MACE_OPENCL_PROFILING` is exactly `"1"`. The kernel path is
  `MACE_KERNEL_PATH`, or `""` when unset, followed by `"/"`. The per-call
  statistics are event timestamps divided by 1000. The profiling timer is
  also covered (module `Profiling`).
- **Binary file names.** A cache key becomes a file name prefix by turning
  `' '`, `'-'` and `'='` into `'_'`. A program built from source asks for its
  binary to be written to `kernel_path + prefix + ".bin"`
  (module `BinaryNaming`).
- **The program cache.** `BuildKernel` concatenates `" " + option` for each
  build option in `std::set` order, which is ascending under `std::string`'s
  comparison. It appends that string to the program name to form the cache
  key. It calls `BuildProgram` only when the key is not yet in
  `built_program_map_`. `BuildProgram` appends the mandatory compiler flags
  (modules `BuildOptions` and `Runtime`).

The runtime is the class `Runtime.OpenCLRuntime`:

- Its mutable state is `builtProgramMap`, the cache.
- It also keeps `builds`, a log of every completed build.
- Its invariant `Valid` says the cache and the log agree:
  - the cached keys are exactly the logged keys;
  - no key was built twice;
  - the program cached under a key is the one its build produced;
  - every logged build is what `BuildProgram` does for its inputs.

Three things the runtime calls but whose code is outside this model are
parameters of the constructor, fixed for the object's lifetime:
- `resolve` is `GetSourceOrBinaryProgram`. It finds a program by name and
  binary prefix, and says whether the program was loaded from a binary.
- `compile` is `cl::Program::build`.
- `obfuscate` is the `MACE_OBFUSCATE_SYMBOL` macro.

Every other driver query becomes an input:
- the platform and device lists, given as `(type, name, version)` records;
- the event timestamps;
- the environment variables (`None` when unset);
- the tuner's state.

`LOG(FATAL)`, a failing `MACE_CHECK` and the exception `substr` throws end
the program. Here they become `Err` results of the `Errors.Fatal` type, and
on `Err` the runtime's state is left as it was.

**The cache key and option sets.** A built program is meant to be identified
by its name together with its set of options. The code only concatenates
the options, separated by spaces. Two different option sets therefore map to
the same key when an option itself holds a space:
- `BuildOptions.OptionsWithSpacesCollide` shows `{"a b"}` and `{"a", "b"}`
  colliding.
- `BuildOptions.DistinctOptionSetsDistinctKeys` proves distinct keys for
  option sets whose options hold no space.

The model follows the code.

**Binary file names.** The binary file name is derived from the key with
`' '`, `'-'` and `'='` all turned into `'_'`. Keys that differ only in those
characters and `'_'` therefore share one binary file:
- `Runtime.OpenCLRuntime.PrefixIgnoresReplacedCharacters` proves this in
  general.
- `Runtime.OpenCLRuntime.DistinctKeysShareBinaryFile` gives the instance
  `"conv -DA=1"` and `"conv -DA-1"`.

## Model

| member | source | states |
|---|---|---|
| ContextProperties.AdrenoContextProperties | mace/core/runtime/opencl/opencl_runtime.cc:83-121 | the list has length 1 + 2·[perf set] + 2·[priority set]; it ends in its only 0; default/default gives [0]; each hint key is present iff its hint is set; each key is followed by the value of its hint; the perf pair precedes the priority pair |
| ContextProperties.GetAdrenoContextProperties | mace/core/runtime/opencl/opencl_runtime.cc:83-121 | the push_back sequence appends exactly that list to the caller's vector |
| ContextProperties.DecodeAdrenoContextProperties | mace/core/runtime/opencl/opencl_runtime.cc:87-120 | reading the list back pair by pair up to the 0 terminator recovers exactly the two hints it was built from |
| ContextProperties.AdrenoContextPropertiesInjective | mace/core/runtime/opencl/opencl_runtime.cc:87-120 | different hint pairs give different property lists |
| BinaryNaming.Sanitized | mace/core/runtime/opencl/opencl_runtime.cc:224-229 | same length; each ' ', '-' and '=' becomes '_' and every other character is kept; none of the three remain |
| BinaryNaming.SanitizeFilenamePrefix | mace/core/runtime/opencl/opencl_runtime.cc:224-229 | the in-place loop over a copy of the key produces the sanitised key |
| BinaryNaming.SanitizedFixesClean | mace/core/runtime/opencl/opencl_runtime.cc:224-229 | a string with none of the three characters is left unchanged |
| BinaryNaming.SanitizedIdempotent | mace/core/runtime/opencl/opencl_runtime.cc:224-229 | sanitising twice equals sanitising once |
| BinaryNaming.KernelPath | mace/core/runtime/opencl/opencl_runtime.cc:201-203 | the path ends in '/'; unset gives "/"; a set value is the path minus its final '/' |
| BinaryNaming.BinaryFilename | mace/core/runtime/opencl/opencl_runtime.cc:280-281 | the file name is the kernel path, then the prefix, then ".bin" |
| BinaryNaming.BinaryFilenameInjective | mace/core/runtime/opencl/opencl_runtime.cc:280-281 | under one kernel path, different prefixes give different binary files |
| BuildOptions.LeastExists | mace/core/runtime/opencl/opencl_runtime.cc:314 | every non-empty option set has a first element in std::string order, so set iteration is well defined |
| BuildOptions.SortedOptions | mace/core/runtime/opencl/opencl_runtime.cc:314 | the set's iteration order: exactly its elements, each once, strictly ascending |
| BuildOptions.BuildOptionsString | mace/core/runtime/opencl/opencl_runtime.cc:313-316 | the concatenation loop yields " o1 o2 …" over the options in ascending order |
| BuildOptions.CanonicalOptions | mace/core/runtime/opencl/opencl_runtime.cc:313-316 | the options string is empty iff there are no options, and otherwise starts with a space |
| BuildOptions.CanonicalOptionsUnfold | mace/core/runtime/opencl/opencl_runtime.cc:313-316 | the options string is a space, the least option, then the options string of the rest |
| BuildOptions.BuildKey | mace/core/runtime/opencl/opencl_runtime.cc:317 | the key starts with the program name; it is the bare name iff there are no options, and otherwise a space follows the name |
| BuildOptions.KeyIgnoresInsertionOrder | mace/core/runtime/opencl/opencl_runtime.cc:312-317 | two insertion sequences with the same options, in any order and with any repeats, give the same cache key |
| BuildOptions.OptionsSuffixInjective | mace/core/runtime/opencl/opencl_runtime.cc:313-316 | the options string determines the option sequence when no option holds a space |
| BuildOptions.DistinctOptionSetsDistinctKeys | mace/core/runtime/opencl/opencl_runtime.cc:313-317 | under one program name, distinct space-free option sets give distinct keys |
| BuildOptions.OptionsWithSpacesCollide | mace/core/runtime/opencl/opencl_runtime.cc:313-317 | {"a b"} and {"a", "b"} are distinct sets with the same key "k a b" |
| DeviceSelection.FirstGpu | mace/core/runtime/opencl/opencl_runtime.cc:146-149 | the index found is a GPU with no GPU before it; None exactly when no device is a GPU |
| DeviceSelection.Find | mace/core/runtime/opencl/opencl_runtime.cc:155 | std::string::find: the first position at or after the start where the pattern occurs; None exactly when it occurs nowhere there |
| DeviceSelection.Classify | mace/core/runtime/opencl/opencl_runtime.cc:150-159 | Adreno iff the name is exactly "QUALCOMM Adreno(TM)"; Mali iff not that and "Mali" occurs in it; Unknown iff neither |
| DeviceSelection.OpenclVersion | mace/core/runtime/opencl/opencl_runtime.cc:162 | the stored version is a fatal error iff the version string is shorter than 7 characters, and otherwise its characters 7 up to 10 (fewer when the string ends sooner) |
| DeviceSelection.Substr | mace/core/runtime/opencl/opencl_runtime.cc:162 | fails iff the position is past the end, otherwise gives the at most count characters from there |
| DeviceSelection.OpenclVersionOfWellFormed | mace/core/runtime/opencl/opencl_runtime.cc:161-162 | for "OpenCL M.m …" the stored version is "M.m" |
| DeviceSelection.OpenclVersionOfShort | mace/core/runtime/opencl/opencl_runtime.cc:161-162 | a version string shorter than 7 characters is a fatal error |
| DeviceSelection.Selection | mace/core/runtime/opencl/opencl_runtime.cc:138-170 | an empty device list is NoDevices, and one without a GPU is NoGpu; a success holds the device FirstGpu finds, its vendor class and its stored version |
| DeviceSelection.SelectionPicksFirstGpu | mace/core/runtime/opencl/opencl_runtime.cc:138-170 | selection succeeds iff there is a GPU and the first GPU's version string has at least 7 characters; a success holds that first GPU, with its vendor class and version; an empty list is NoDevices, a list without a GPU NoGpu |
| DeviceSelection.SelectDevice | mace/core/runtime/opencl/opencl_runtime.cc:138-170 | the loop that breaks at the first GPU computes that selection |
| Profiling.ProfilingEnabled | mace/core/runtime/opencl/opencl_runtime.cc:174-178 | profiling is on iff tuning or the variable is exactly "1" |
| Profiling.ToMicros | mace/core/runtime/opencl/opencl_runtime.cc:334-337 | truncating division by 1000 (micros·1000 ≤ nanos < micros·1000 + 1000), and the result fits in int64 |
| Profiling.GetCallStats | mace/core/runtime/opencl/opencl_runtime.cc:332-339 | a non-null stats gets the start and end timestamps in microseconds; a null one changes nothing |
| Profiling.ProfilingTimer.StopTiming | mace/core/runtime/opencl/opencl_runtime.cc:45-49 | records the event's start and end timestamps and keeps the total |
| Profiling.ProfilingTimer.ElapsedMicros | mace/core/runtime/opencl/opencl_runtime.cc:51-53 | the elapsed time times 1000 is the nanosecond interval, and it is non-negative for an ordered interval |
| Profiling.ProfilingTimer.AccumulateTiming | mace/core/runtime/opencl/opencl_runtime.cc:55-60 | the total grows by exactly the elapsed interval in microseconds |
| Profiling.ProfilingTimer.ClearTiming | mace/core/runtime/opencl/opencl_runtime.cc:62-66 | timestamps and total are reset to zero |
| Profiling.AccumulateTwoIntervals | mace/core/runtime/opencl/opencl_runtime.cc:51-66 | clearing, then accumulating intervals of 100 ns and 150 ns, gives 0.25 µs |
| Runtime.CompilerOptions | mace/core/runtime/opencl/opencl_runtime.cc:257-258 | the compiler sees the caller's options followed by " -Werror -cl-mad-enable -cl-fast-relaxed-math" |
| Runtime.ContextPropertiesFor | mace/core/runtime/opencl/opencl_runtime.cc:181-192 | a property list is passed iff the GPU is Adreno, and then it is the hint list |
| Runtime.CacheInsert | mace/core/runtime/opencl/opencl_runtime.cc:325-327 | adding a fresh build under a missing key keeps cache and log consistent |
| Runtime.DistinctKeysCount | mace/core/runtime/opencl/opencl_runtime.cc:320-328 | a log without repeated keys has as many keys as builds |
| Runtime.OpenCLRuntime.constructor | mace/core/runtime/opencl/opencl_runtime.cc:172-203 | the runtime starts with an empty cache; its context properties, profiling flag and kernel path are those of the inputs |
| Runtime.OpenCLRuntime.BuildProgramResult | mace/core/runtime/opencl/opencl_runtime.cc:240-307 | a build succeeds iff the program is found and compiles with the mandatory flags; a missing program is ProgramNotFound; a binary write is requested iff the program came from source, to kernel path + prefix + ".bin" |
| Runtime.OpenCLRuntime.GenerateBinaryFilenamePrefix | mace/core/runtime/opencl/opencl_runtime.cc:221-231 | the loop followed by the obfuscation computes BinaryFilenamePrefix, the obfuscated sanitised key |
| Runtime.OpenCLRuntime.PrefixIgnoresReplacedCharacters | mace/core/runtime/opencl/opencl_runtime.cc:221-231 | BinaryFilenamePrefix, and the binary file it names, is the same for keys that differ only in ' ', '-', '=' and '_', whatever the obfuscation |
| Runtime.OpenCLRuntime.DistinctKeysShareBinaryFile | mace/core/runtime/opencl/opencl_runtime.cc:246-247 | the distinct keys "conv -DA=1" and "conv -DA-1" get the same binary filename prefix |
| Runtime.OpenCLRuntime.BuildProgram | mace/core/runtime/opencl/opencl_runtime.cc:240-307 | on success it logs exactly that build and returns its program; on failure it logs nothing |
| Runtime.OpenCLRuntime.BuildAndCache | mace/core/runtime/opencl/opencl_runtime.cc:324-328 | the miss branch builds and inserts under the key with every other entry unchanged, keeping the invariant |
| Runtime.OpenCLRuntime.BuildKernel | mace/core/runtime/opencl/opencl_runtime.cc:309-330 | on a hit it returns the cached program and builds nothing; on a miss it builds exactly once and caches the result under the key, leaving other entries alone; after success the key maps to the kernel's program; the invariant is kept |
| Runtime.OpenCLRuntime.BuildsMatchCache | mace/core/runtime/opencl/opencl_runtime.cc:320-328 | there are exactly as many builds as cached programs: no key is ever built twice |
| Runtime.CreateRuntime | mace/core/runtime/opencl/opencl_runtime.cc:123-204 | success iff there is a platform and device selection on its devices succeeds; no platform is NoPlatforms, a failed selection is that error; a success is a fresh, valid runtime on the selected device with an empty cache |
| Runtime.RepeatedRequestBuildsOnce | mace/core/runtime/opencl/opencl_runtime.cc:320-323 | the first request adds at most one build, and none when the key was cached; after a successful first request the second returns the cached program for the new kernel name and adds no build |
| Runtime.ReorderedOptionsShareProgram | mace/core/runtime/opencl/opencl_runtime.cc:312-323 | the same options inserted in another order or with repeats reuse the first request's program; the two requests together add at most one build, none when the key was cached, and the second request adds no build |

## Left out

- The OpenCL driver is not modelled. This covers loading and unloading the
  library, `cl::Platform::get`, `getDevices`, `getInfo`, `getProfilingInfo`,
  `getBuildInfo`, the build log and `clGetProgramInfo`. Their results are
  inputs or the `resolve`/`compile` parameters.
- `cl::Kernel` construction is only recorded as the pair (program, kernel
  name), because it is a driver call.
- Runtime.CreateRuntime: does not model the `MACE_CHECK` failures of context
  and command-queue creation, because their error codes come from the
  driver.
- Runtime.OpenCLRuntime.BuildProgramResult: a requested binary write always
  succeeds. A failure of `clGetProgramInfo` or `WriteFile` is not modelled,
  and the binary's bytes are not modelled, because both are driver output
  and file I/O.
- `WriteFile` and the file system are I/O. A write appears only as the file
  name requested in the build record.
- `GetSourceOrBinaryProgram` and `MACE_OBFUSCATE_SYMBOL` are opaque
  parameters, because their code is not part of this model.
- `resolve` is a pure function of the program name and the binary prefix.
  The model therefore gives the keys "conv -DA=1" and "conv -DA-1" of one
  program the same `Program`, even though the program resolves and builds
  each separately with different options. A resolution also never sees a
  binary written earlier in the same run. No stated property depends on
  either point.
- `program_build_mutex_` is left out: the cache is modelled
  single-threaded. The function-static singleton `Global()`, `Configure` and
  the static hint globals are left out too; the hints are constructor
  inputs.
- The destructor is left out, because it only releases driver objects in
  order.
- `context()`, `device()`, `command_queue()`, `GetDeviceMaxWorkGroupSize`,
  `GetKernelMaxWorkGroupSize`, `GetKernelWaveSize`, `GetGPUType` and
  `GetOpenclVersion` are left out as accessors or driver wrappers. Logging
  (`LOG`, `VLOG`) is left out too.
- `MACE_CHECK_NOTNULL` on the output pointers of
  `GetAdrenoContextProperties` and `BuildProgram` is left out. The model
  returns values, so there is no null to check.
- `OpenCLProfilingTimer::StartTiming` is left out because it is empty. The
  wait on `command_queue().finish()` in `StopTiming` is left out too.
- Strings are modelled as sequences of characters, while `std::string` is a
  sequence of bytes. Lengths and positions agree with the program's byte
  strings only on ASCII text. This covers `substr(7, 3)`, the 7-character
  bound of `OpenclVersion`, `Find` and the length `Sanitized` keeps. The
  OpenCL version format, device names and option flags are ASCII. The string
  order of `BuildOptions.Less` agrees with `std::string` on any text whose
  characters are single bytes.
- Profiling.ProfilingTimer: times are real numbers, so the rounding of
  `double` is not modelled.
- Profiling.GetCallStats: cl_ulong timestamps are naturals below 2^64. The
  requirement on them states that range.
- The Qualcomm extension constants come from the cl_qcom_perf_hint and
  cl_qcom_priority_hint extensions. Their header,
  mace/core/runtime/opencl/opencl_extension.h, is not part of this model.
  The same holds for mace/core/runtime/opencl/opencl_runtime.h, which
  declares `CallStats` and the timer.
