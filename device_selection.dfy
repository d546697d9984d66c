/** Choosing the GPU, classifying its vendor and reading its OpenCL version.

    A device is described by the three values the constructor reads from the
    driver: CL_DEVICE_TYPE, CL_DEVICE_NAME and CL_DEVICE_VERSION. Device types
    are the bitfield values of section 4.2 (table 4.3) of the OpenCL 1.2
    specification; the version string has the form
    "OpenCL <major>.<minor> <vendor-specific information>". */
module DeviceSelection {
  import opened Wrappers
  import opened Errors

  const CL_DEVICE_TYPE_DEFAULT: nat := 1
  const CL_DEVICE_TYPE_CPU: nat := 2
  const CL_DEVICE_TYPE_GPU: nat := 4
  const CL_DEVICE_TYPE_ACCELERATOR: nat := 8

  const ADRENO_NAME: string := "QUALCOMM Adreno(TM)"
  const MALI_MARKER: string := "Mali"

  datatype DeviceInfo = DeviceInfo(deviceType: nat, name: string, version: string)

  datatype GpuType = QualcommAdreno | Mali | Unknown

  /** What the constructor keeps of the chosen device. */
  datatype SelectedDevice = SelectedDevice(device: DeviceInfo, gpuType: GpuType, openclVersion: string)

  /** The type test of the device loop: the reported bitfield equals CL_DEVICE_TYPE_GPU exactly. */
  predicate IsGpu(d: DeviceInfo)
  {
    d.deviceType == CL_DEVICE_TYPE_GPU
  }

  /** The index of the first GPU in the list, if there is one. */
  function FirstGpu(devices: seq<DeviceInfo>): (r: Option<nat>)
    ensures r.Some? ==> r.value < |devices| && IsGpu(devices[r.value])
    ensures r.Some? ==> forall j :: 0 <= j < r.value ==> !IsGpu(devices[j])
    ensures r.None? <==> forall j :: 0 <= j < |devices| ==> !IsGpu(devices[j])
  {
    if devices == [] then None
    else if IsGpu(devices[0]) then Some(0)
    else match FirstGpu(devices[1..])
      case None => None
      case Some(i) => Some(i + 1)
  }

  /** t occurs in s starting at position j. */
  predicate OccursAt(s: string, t: string, j: nat)
  {
    j + |t| <= |s| && s[j..j + |t|] == t
  }

  /** std::string::find(t, from): the first position at or after from where t occurs. */
  function Find(s: string, t: string, from: nat): (r: Option<nat>)
    ensures r.Some? ==> from <= r.value && OccursAt(s, t, r.value)
    ensures r.Some? ==> forall j :: from <= j < r.value ==> !OccursAt(s, t, j)
    ensures r.None? <==> forall j :: from <= j ==> !OccursAt(s, t, j)
    decreases |s| - from
  {
    if from + |t| > |s| then None
    else if s[from..from + |t|] == t then assert OccursAt(s, t, from); Some(from)
    else Find(s, t, from + 1)
  }

  /** The vendor classification of the device loop. */
  function Classify(name: string): (g: GpuType)
    ensures g == QualcommAdreno <==> name == ADRENO_NAME
    ensures g == Mali <==> name != ADRENO_NAME && exists j :: OccursAt(name, MALI_MARKER, j)
    ensures g == Unknown <==> name != ADRENO_NAME && forall j :: !OccursAt(name, MALI_MARKER, j)
  {
    if name == ADRENO_NAME then QualcommAdreno
    else if Find(name, MALI_MARKER, 0).Some? then Mali
    else Unknown
  }

  /** std::string::substr(pos, count): out of range when pos is past the end,
      otherwise at most count characters from pos on. */
  function Substr(s: string, pos: nat, count: nat): (r: Result<string, Fatal>)
    ensures r.Err? <==> pos > |s|
    ensures r.Err? ==> r.error == VersionOutOfRange
    ensures r.Ok? ==> |r.value| == (if pos + count <= |s| then count else |s| - pos)
    ensures r.Ok? ==> forall i :: 0 <= i < |r.value| ==> r.value[i] == s[pos + i]
  {
    if pos > |s| then Err(VersionOutOfRange)
    else Ok(s[pos..if pos + count <= |s| then pos + count else |s|])
  }

  /** The stored OpenCL version: substr(7, 3) of the device's version string. */
  function OpenclVersion(version: string): (r: Result<string, Fatal>)
    ensures r.Err? <==> |version| < 7
    ensures r.Err? ==> r.error == VersionOutOfRange
    ensures r.Ok? ==> r.value == version[7..if |version| >= 10 then 10 else |version|]
  {
    Substr(version, 7, 3)
  }

  /** For a version string in the documented format the stored version is "<major>.<minor>". */
  lemma OpenclVersionOfWellFormed(major: char, minor: char, vendorInfo: string)
    ensures OpenclVersion("OpenCL " + [major, '.', minor] + vendorInfo) == Ok([major, '.', minor])
  {
    var v := "OpenCL " + [major, '.', minor] + vendorInfo;
    assert v[7..10] == [major, '.', minor];
  }

  /** A version string shorter than "OpenCL " makes substr throw. */
  lemma OpenclVersionOfShort(version: string)
    requires |version| < 7
    ensures OpenclVersion(version) == Err(VersionOutOfRange)
  {
  }

  /** The outcome of the constructor's device loop over the devices of the first platform. */
  function Selection(devices: seq<DeviceInfo>): (r: Result<SelectedDevice, Fatal>)
    ensures devices == [] ==> r == Err(NoDevices)
    ensures devices != [] && FirstGpu(devices).None? ==> r == Err(NoGpu)
    ensures r.Ok? ==>
              && FirstGpu(devices).Some?
              && r.value.device == devices[FirstGpu(devices).value]
              && r.value.gpuType == Classify(r.value.device.name)
              && Ok(r.value.openclVersion) == OpenclVersion(r.value.device.version)
  {
    if devices == [] then Err(NoDevices)
    else match FirstGpu(devices)
      case None => Err(NoGpu)
      case Some(i) =>
        match OpenclVersion(devices[i].version)
        case Err(e) => Err(e)
        case Ok(v) => Ok(SelectedDevice(devices[i], Classify(devices[i].name), v))
  }

  /** Selection succeeds exactly when there is a GPU and the first GPU's version
      string has at least 7 characters, and then it holds that first GPU. */
  lemma SelectionPicksFirstGpu(devices: seq<DeviceInfo>)
    ensures Selection(devices).Ok? <==>
              exists i :: 0 <= i < |devices| && IsGpu(devices[i]) && |devices[i].version| >= 7 &&
                          forall j :: 0 <= j < i ==> !IsGpu(devices[j])
    ensures Selection(devices).Ok? ==>
              var s := Selection(devices).value;
              && s.device in devices && IsGpu(s.device)
              && s.gpuType == Classify(s.device.name)
              && Ok(s.openclVersion) == OpenclVersion(s.device.version)
    ensures Selection(devices).Ok? ==>
              exists i :: && 0 <= i < |devices| && Selection(devices).value.device == devices[i]
                          && IsGpu(devices[i]) && forall j :: 0 <= j < i ==> !IsGpu(devices[j])
    ensures devices == [] ==> Selection(devices) == Err(NoDevices)
    ensures devices != [] && (forall j :: 0 <= j < |devices| ==> !IsGpu(devices[j])) ==>
              Selection(devices) == Err(NoGpu)
  {
    match FirstGpu(devices)
    case None =>
    case Some(i) =>
      forall k | 0 <= k < |devices| && IsGpu(devices[k]) && forall j :: 0 <= j < k ==> !IsGpu(devices[j])
        ensures k == i
      {
        assert !(k < i) && !(i < k);
      }
  }

  /** The constructor's loop: the first GPU wins and the loop breaks there. */
  method SelectDevice(devices: seq<DeviceInfo>) returns (r: Result<SelectedDevice, Fatal>)
    ensures r == Selection(devices)
  {
    if |devices| == 0 {
      return Err(NoDevices);
    }
    var gpuDetected := false;
    var selected := SelectedDevice(devices[0], Unknown, "");
    for i := 0 to |devices|
      invariant !gpuDetected
      invariant forall j :: 0 <= j < i ==> !IsGpu(devices[j])
    {
      if devices[i].deviceType == CL_DEVICE_TYPE_GPU {
        gpuDetected := true;
        var gpuType := Classify(devices[i].name);
        var version := OpenclVersion(devices[i].version);
        if version.Err? {
          return Err(version.error);
        }
        selected := SelectedDevice(devices[i], gpuType, version.value);
        break;
      }
    }
    if !gpuDetected {
      return Err(NoGpu);
    }
    r := Ok(selected);
  }
}
