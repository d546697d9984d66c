/** Where compiled program binaries are stored on disk.

    The file name is derived from the program's cache key: spaces, '-' and '='
    become '_', and the result goes through the build's symbol obfuscation.
    The file lives under the kernel path, the MACE_KERNEL_PATH environment
    value followed by "/". */
module BinaryNaming {
  import opened Wrappers

  /** The characters GenerateCLBinaryFilenamePrefix replaces. */
  predicate IsReplaced(c: char)
  {
    c == ' ' || c == '-' || c == '='
  }

  /** The key with every replaced character turned into '_'. */
  function Sanitized(s: string): (r: string)
    ensures |r| == |s|
    ensures forall i :: 0 <= i < |s| ==> r[i] == (if IsReplaced(s[i]) then '_' else s[i])
    ensures forall i :: 0 <= i < |r| ==> !IsReplaced(r[i])
  {
    if s == [] then []
    else [if IsReplaced(s[0]) then '_' else s[0]] + Sanitized(s[1..])
  }

  /** A string without replaced characters is left as it is. */
  lemma {:induction false} SanitizedFixesClean(s: string)
    requires forall i :: 0 <= i < |s| ==> !IsReplaced(s[i])
    ensures Sanitized(s) == s
  {
    if s != [] {
      SanitizedFixesClean(s[1..]);
    }
  }

  /** Sanitising twice is the same as sanitising once. */
  lemma SanitizedIdempotent(s: string)
    ensures Sanitized(Sanitized(s)) == Sanitized(s)
  {
    SanitizedFixesClean(Sanitized(s));
  }

  /** The in-place loop of GenerateCLBinaryFilenamePrefix over a copy of the key. */
  method SanitizeFilenamePrefix(msg: string) returns (prefix: string)
    ensures prefix == Sanitized(msg)
  {
    var buf := new char[|msg|](i requires 0 <= i < |msg| => msg[i]);
    for i := 0 to buf.Length
      invariant forall k :: 0 <= k < i ==> buf[k] == (if IsReplaced(msg[k]) then '_' else msg[k])
      invariant forall k :: i <= k < buf.Length ==> buf[k] == msg[k]
    {
      if buf[i] == ' ' || buf[i] == '-' || buf[i] == '=' {
        buf[i] := '_';
      }
    }
    prefix := buf[..];
  }

  /** The kernel path: the environment value, or "" when it is unset, followed by "/". */
  function KernelPath(env: Option<string>): (path: string)
    ensures |path| >= 1 && path[|path| - 1] == '/'
    ensures env.None? ==> path == "/"
    ensures env.Some? ==> |path| == |env.value| + 1 && path[..|env.value|] == env.value
  {
    (if env.None? then "" else env.value) + "/"
  }

  /** The binary file for a filename prefix: the kernel path, the prefix, then ".bin". */
  function BinaryFilename(kernelPath: string, prefix: string): (path: string)
    ensures |path| == |kernelPath| + |prefix| + 4
    ensures path[..|kernelPath|] == kernelPath
    ensures path[|kernelPath|..|kernelPath| + |prefix|] == prefix
    ensures path[|path| - 4..] == ".bin"
  {
    kernelPath + prefix + ".bin"
  }

  /** Under one kernel path, the prefix can be read back from the binary file name. */
  lemma {:induction false} BinaryFilenameInjective(kernelPath: string, prefix1: string, prefix2: string)
    requires BinaryFilename(kernelPath, prefix1) == BinaryFilename(kernelPath, prefix2)
    ensures prefix1 == prefix2
  {
    var path := BinaryFilename(kernelPath, prefix1);
    assert prefix1 == path[|kernelPath|..|path| - 4];
    assert prefix2 == path[|kernelPath|..|path| - 4];
  }
}
