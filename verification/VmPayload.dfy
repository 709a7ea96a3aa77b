/** The request that creates a VM, built from an accepted configuration and a reservation. */
module VmPayload {
  import opened Slots
  import opened Text
  import opened VmValidation

  datatype Payload =
    | Firmware(firmware: Option<string>)
    | Kernel(kernel: Option<string>, initramfs: Option<string>, cmdline: Option<string>)

  datatype Disk = Disk(path: string, imageType: Option<string>)

  datatype Net = Net(tap: Option<string>, mac: Option<string>)

  datatype VmRequest = VmRequest(
    bootVcpus: nat,
    maxVcpus: nat,
    memorySize: U64Value,
    payload: Payload,
    disks: seq<Disk>,
    net: seq<Net>,
    rng: string)

  /** A left shift by twenty in 64 bits: what does not fit is lost. */
  function ShiftLeft20(n: U64Value): U64Value {
    (n * 0x10_0000) % U64
  }

  /** The components of a path that name something: empty ones and "." do not. */
  function Components(path: string): seq<string>
    decreases |path|
  {
    match IndexOf(path, '/')
    case None => Keep(path)
    case Some(i) => Keep(path[..i]) + Components(path[i + 1..])
  }

  function Keep(part: string): seq<string> {
    if part == "" || part == "." then [] else [part]
  }

  function FileName(path: string): Option<string> {
    var parts := Components(path);
    if |parts| == 0 || parts[|parts| - 1] == ".." then None else Some(parts[|parts| - 1])
  }

  /** What follows the last dot of the file name, unless that dot is its first character. */
  function Extension(path: string): Option<string> {
    match FileName(path)
    case None => None
    case Some(file) =>
      match LastIndexOf(file, '.')
      case None => None
      case Some(i) => if i == 0 then None else Some(file[i + 1..])
  }

  function ImageTypeOf(extension: string): Option<string> {
    if extension == "qcow2" || extension == "qcow" then Some("Qcow2")
    else if extension == "raw" then Some("Raw")
    else None
  }

  function DiskImageType(path: string): Option<string> {
    match Extension(path)
    case None => None
    case Some(extension) => ImageTypeOf(ToAsciiLowercase(extension))
  }

  function DiskBodies(paths: seq<string>): seq<Disk> {
    if |paths| == 0 then [] else [Disk(paths[0], DiskImageType(paths[0]))] + DiskBodies(paths[1..])
  }

  function CreateVmRequestBody(config: BootConfig, reserved: SlotStatus): VmRequest {
    var payload :=
      if ToAsciiLowercase(config.bootMode) == "uefi" then Firmware(config.firmwarePath)
      else Kernel(config.kernelPath, config.initrdPath, config.cmdline);
    VmRequest(config.cpus, config.cpus, ShiftLeft20(config.memoryMb), payload, DiskBodies(config.disks),
              [Net(reserved.tap, reserved.mac)], "/dev/urandom")
  }

  lemma ModuloExact(n: nat, m: nat)
    requires m > 0
    ensures n % m == n <==> n < m
  {
  }

  /** The shift is exact for exactly the sizes the validation admits. */
  lemma ShiftIsExact(n: U64Value)
    ensures ShiftLeft20(n) == n * 0x10_0000 <==> n <= MAX_MEMORY_MB
    ensures n <= MAX_MEMORY_MB <==> n < 0x1000_0000_0000
  {
    ModuloExact(n * 0x10_0000, U64);
  }

  lemma {:induction false} DisksKeepOrder(paths: seq<string>)
    ensures |DiskBodies(paths)| == |paths|
    ensures forall k :: 0 <= k < |paths| ==> DiskBodies(paths)[k] == Disk(paths[k], DiskImageType(paths[k]))
  {
    if |paths| > 0 {
      DisksKeepOrder(paths[1..]);
    }
  }

  /** A request the hypervisor can act on. */
  ghost predicate WellFormedRequest(request: VmRequest, config: BootConfig, reserved: SlotStatus) {
    && request.bootVcpus == request.maxVcpus == config.cpus && request.bootVcpus > 0
    && request.memorySize == config.memoryMb * 0x10_0000 && request.memorySize > 0
    && (if SpelledAs(config.bootMode, "uefi")
        then request.payload == Firmware(config.firmwarePath) && config.firmwarePath.Some? && AbsoluteIfGiven(config.firmwarePath)
        else request.payload == Kernel(config.kernelPath, config.initrdPath, config.cmdline)
             && config.kernelPath.Some? && AbsoluteIfGiven(config.kernelPath) && AbsoluteIfGiven(config.initrdPath))
    && |request.disks| == |config.disks|
    && (forall k :: 0 <= k < |request.disks| ==>
          && request.disks[k].path == config.disks[k] && AbsoluteIfGiven(Some(request.disks[k].path))
          && HasTypeOf(request.disks[k].imageType, Extension(config.disks[k])))
    && request.net == [Net(reserved.tap, reserved.mac)]
    && request.rng == "/dev/urandom"
  }

  /** The image type that belongs to an extension, in any letter case. */
  predicate HasTypeOf(imageType: Option<string>, extension: Option<string>) {
    match extension
    case None => imageType == None
    case Some(spelled) =>
      if SpelledAs(spelled, "qcow2") || SpelledAs(spelled, "qcow") then imageType == Some("Qcow2")
      else if SpelledAs(spelled, "raw") then imageType == Some("Raw")
      else imageType == None
  }

  lemma DiskTypeIs(path: string)
    ensures HasTypeOf(DiskImageType(path), Extension(path))
  {
    if Extension(path).Some? {
      LowercaseIs(Extension(path).value, "qcow2");
      LowercaseIs(Extension(path).value, "qcow");
      LowercaseIs(Extension(path).value, "raw");
    }
    hide Extension, ToAsciiLowercase, SpelledAs;
  }

  /**
   Every accepted configuration that does not restore a snapshot builds a well-formed request:
   no memory bit is lost, the payload carries what is configured for its boot mode in any letter
   case, with a present absolute path, and the disks keep their number, order and absolute paths,
   each with the type of its own extension.
   */
  lemma AcceptedConfigBuildsRequest(config: BootConfig, reserved: SlotStatus)
    requires ValidateBootConfig(config).None? && config.snapshotPath.None?
    ensures WellFormedRequest(CreateVmRequestBody(config, reserved), config, reserved)
  {
    ValidationIsExact(config);
    ShiftIsExact(config.memoryMb);
    DisksKeepOrder(config.disks);
    LowercaseIs(config.bootMode, "uefi");
    LowercaseIs(config.bootMode, "linux");
    forall k | 0 <= k < |config.disks| ensures HasTypeOf(DiskImageType(config.disks[k]), Extension(config.disks[k])) {
      DiskTypeIs(config.disks[k]);
    }
    hide ValidateBootConfig, DiskImageType, Extension, ToAsciiLowercase, SpelledAs, HasTypeOf;
  }

  /** The letter case of the boot mode changes neither the verdict nor the request. */
  lemma BootModeCaseIsIrrelevant(config: BootConfig, mode: string, reserved: SlotStatus)
    requires ToAsciiLowercase(mode) == ToAsciiLowercase(config.bootMode)
    ensures ValidateBootConfig(config.(bootMode := mode)) == ValidateBootConfig(config)
    ensures CreateVmRequestBody(config.(bootMode := mode), reserved) == CreateVmRequestBody(config, reserved)
  {
    TrimEmpty(mode);
    TrimEmpty(config.bootMode);
    LowercaseKeepsSpace(mode);
    LowercaseKeepsSpace(config.bootMode);
  }

  // ---------- Disk image types ----------

  lemma ComponentsSplit(part: string, rest: string)
    requires Lacks(part, '/')
    ensures Components(part + "/" + rest) == Keep(part) + Components(rest)
  {
    var path := part + "/" + rest;
    IndexOfFirst(part, '/', rest);
    assert path == part + ['/'] + rest;
    assert path[..|part|] == part && path[|part| + 1..] == rest;
  }

  lemma {:induction false} ComponentsOfFile(directory: string, file: string)
    requires Lacks(file, '/') && file != "" && file != "."
    ensures Components(directory + "/" + file) == Components(directory) + [file]
    decreases |directory|
  {
    assert Components(file) == [file];
    match IndexOf(directory, '/') {
      case None => ComponentsSplit(directory, file);
      case Some(i) =>
        var part, rest := directory[..i], directory[i + 1..];
        assert directory + "/" + file == part + "/" + (rest + "/" + file);
        ComponentsSplit(part, rest + "/" + file);
        ComponentsOfFile(rest, file);
    }
  }

  lemma ExtensionOf(directory: string, stem: string, extension: string)
    requires |stem| > 0 && Lacks(stem, '/') && Lacks(extension, '/') && Lacks(extension, '.')
    requires stem + "." + extension != ".."
    ensures Extension(directory + "/" + (stem + "." + extension)) == Some(extension)
  {
    var file := stem + "." + extension;
    ComponentsOfFile(directory, file);
    LastIndexOfLast(stem, '.', extension);
    assert file == stem + ['.'] + extension;
    assert file[|stem| + 1..] == extension;
  }

  /** A name whose only dot, if any, is its first character has no extension. */
  lemma NoExtensionOf(directory: string, file: string)
    requires file != "" && file != "." && Lacks(file, '/') && Lacks(file[1..], '.')
    ensures Extension(directory + "/" + file) == None
  {
    ComponentsOfFile(directory, file);
    assert forall i :: 0 < i < |file| ==> file[i] == file[1..][i - 1];
  }

  lemma ComponentsStep(path: string)
    ensures match IndexOf(path, '/')
            case None => Components(path) == Keep(path)
            case Some(i) => i < |path| && Lacks(path[..i], '/') && path == path[..i] + "/" + path[i + 1..]
                            && Components(path) == Keep(path[..i]) + Components(path[i + 1..])
  {
    hide IndexOf, Keep, Lacks;
    match IndexOf(path, '/') {
      case None =>
      case Some(i) => assert path == path[..i] + [path[i]] + path[i + 1..];
    }
  }

  /** A slash at the end changes nothing, nor do a slash and a dot. */
  lemma {:induction false} ComponentsIgnoreEnd(path: string, end: string)
    requires end == "" || end == "."
    ensures Components(path + "/" + end) == Components(path)
    decreases |path|
  {
    ComponentsStep(path);
    ComponentsStep(end);
    hide Components, IndexOf, Lacks;
    match IndexOf(path, '/') {
      case None => ComponentsSplit(path, end);
      case Some(i) =>
        var part, rest := path[..i], path[i + 1..];
        ComponentsIgnoreEnd(rest, end);
        assert path + "/" + end == part + "/" + (rest + "/" + end);
        ComponentsSplit(part, rest + "/" + end);
    }
  }

  /**
   The image type is read off the extension of the last component, in any letter case; a slash at
   the end, or a slash and a dot, does not matter.
   */
  lemma ImageTypeFollowsExtension(directory: string, stem: string, extension: string, end: string)
    requires (end == "" || end == ".") &&  |stem| > 0 && Lacks(stem, '/') && Lacks(extension, '/') && Lacks(extension, '.')
    ensures var path := directory + "/" + (stem + "." + extension);
            HasTypeOf(DiskImageType(path), Some(extension)) && DiskImageType(path + "/" + end) == DiskImageType(path)
  {
    var path := directory + "/" + (stem + "." + extension);
    ComponentsIgnoreEnd(path, end);
    DiskTypeIs(path);
    if stem + "." + extension == ".." {
      assert |extension| == 0;
      ComponentsOfFile(directory, "..");
    } else {
      ExtensionOf(directory, stem, extension);
    }
  }
}
