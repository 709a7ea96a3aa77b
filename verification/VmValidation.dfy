/** The checks a boot configuration must pass before anything is reserved. */
module VmValidation {
  import opened Slots
  import opened Text

  type U16Value = n: nat | n < 0x1_0000

  type U64Value = n: nat | n < U64

  datatype BootConfig = BootConfig(
    name: string,
    cpus: U16Value,
    memoryMb: U64Value,
    bootMode: string,
    disks: seq<string>,
    kernelPath: Option<string>,
    initrdPath: Option<string>,
    cmdline: Option<string>,
    firmwarePath: Option<string>,
    snapshotPath: Option<string>)

  datatype Rejection = Rejection(field: string, error: string)

  function ToAsciiLower(c: char): char {
    if 'A' <= c <= 'Z' then c + ('a' - 'A') else c
  }

  function ToAsciiLowercase(text: string): string {
    if |text| == 0 then [] else [ToAsciiLower(text[0])] + ToAsciiLowercase(text[1..])
  }

  /** The text is this lower-case word, in any letter case of the ASCII letters. */
  predicate SpelledAs(text: string, word: string) {
    && |text| == |word|
    && forall k :: 0 <= k < |word| ==>
         text[k] == word[k] || ('A' <= text[k] <= 'Z' && text[k] as int + 32 == word[k] as int)
  }

  lemma {:induction false} LowercaseIs(text: string, word: string)
    requires forall k :: 0 <= k < |word| ==> !('A' <= word[k] <= 'Z')
    ensures ToAsciiLowercase(text) == word <==> SpelledAs(text, word)
  {
    if |text| > 0 && |word| > 0 {
      LowercaseIs(text[1..], word[1..]);
      assert ToAsciiLowercase(text)[1..] == ToAsciiLowercase(text[1..]);
      assert word == [word[0]] + word[1..];
      assert ToAsciiLower(text[0]) == word[0] <==> text[0] == word[0] || ('A' <= text[0] <= 'Z' && text[0] as int + 32 == word[0] as int);
      if SpelledAs(text[1..], word[1..]) {
        assert forall k :: 0 < k < |word| ==> text[k] == text[1..][k - 1] && word[k] == word[1..][k - 1];
      }
      if SpelledAs(text, word) {
        assert forall k :: 0 <= k < |word| - 1 ==> text[1..][k] == text[k + 1] && word[1..][k] == word[k + 1];
      }
    }
  }

  predicate IsAbsolute(path: string) {
    |path| > 0 && path[0] == '/'
  }

  /** The largest memory size, in MiB, whose number of bytes fits 64 bits. */
  const MAX_MEMORY_MB: nat := (U64 - 1) / 0x10_0000

  function FirstRelative(paths: seq<string>): Option<string> {
    if |paths| == 0 then None
    else if !IsAbsolute(paths[0]) then Some(paths[0])
    else FirstRelative(paths[1..])
  }

  function CheckPath(field: string, path: Option<string>, next: Option<Rejection>): Option<Rejection> {
    if path.Some? && !IsAbsolute(path.value) then Some(Rejection(field, field + " must be absolute")) else next
  }

  function ValidatePaths(config: BootConfig): Option<Rejection> {
    var relative := FirstRelative(config.disks);
    if relative.Some? then Some(Rejection("disks", "disk path '" + relative.value + "' must be absolute"))
    else
      CheckPath("kernelPath", config.kernelPath,
        CheckPath("initrdPath", config.initrdPath,
          CheckPath("firmwarePath", config.firmwarePath,
            CheckPath("snapshotPath", config.snapshotPath, None))))
  }

  /** The checks in their order; the first that fails names the field. */
  function ValidateBootConfig(config: BootConfig): Option<Rejection>
  {
    var bootMode := ToAsciiLowercase(config.bootMode);
    if |Trim(config.name)| == 0 then Some(Rejection("name", "name is required"))
    else if config.cpus == 0 then Some(Rejection("cpus", "cpus must be greater than zero"))
    else if config.memoryMb == 0 then Some(Rejection("memoryMb", "memoryMb must be greater than zero"))
    else if |Trim(config.bootMode)| == 0 then Some(Rejection("bootMode", "bootMode is required"))
    else if bootMode != "linux" && bootMode != "uefi" then
      Some(Rejection("bootMode", "bootMode must be one of: linux, uefi"))
    else if config.memoryMb > MAX_MEMORY_MB then Some(Rejection("memoryMb", "memoryMb is too large"))
    else if config.snapshotPath.None? && bootMode == "linux" && config.kernelPath.None? then
      Some(Rejection("kernelPath", "kernelPath is required when bootMode=linux"))
    else if config.snapshotPath.None? && bootMode == "uefi" && config.firmwarePath.None? then
      Some(Rejection("firmwarePath", "firmwarePath is required when bootMode=uefi"))
    else ValidatePaths(config)
  }

  lemma {:induction false} AllAbsolute(paths: seq<string>)
    ensures FirstRelative(paths).None? <==> forall k :: 0 <= k < |paths| ==> AbsoluteIfGiven(Some(paths[k]))
  {
    if |paths| > 0 {
      AllAbsolute(paths[1..]);
      assert forall k :: 0 < k < |paths| ==> paths[k] == paths[1..][k - 1];
    }
  }

  lemma {:induction false} TrimEndEmpty(text: string)
    ensures |TrimEnd(text)| == 0 <==> AllSpace(text)
    decreases |text|
  {
    if |text| > 0 {
      var n := |text| - 1;
      TrimEndEmpty(text[..n]);
      if IsSpace(text[n]) && AllSpace(text[..n]) {
        assert forall k :: 0 <= k < n ==> text[k] == text[..n][k];
      }
    }
  }

  lemma {:induction false} TrimEmpty(text: string)
    ensures |Trim(text)| == 0 <==> AllSpace(text)
  {
    if |text| > 0 && IsSpace(text[0]) {
      TrimEmpty(text[1..]);
      assert forall k :: 0 < k < |text| ==> text[k] == text[1..][k - 1];
    } else {
      TrimEndEmpty(text);
    }
  }

  /** An optional path, if given, is absolute. */
  predicate AbsoluteIfGiven(path: Option<string>) {
    path.Some? ==> |path.value| > 0 && path.value[0] == '/'
  }

  /** What an acceptable configuration is, whatever the order of the checks. */
  ghost predicate Acceptable(config: BootConfig) {
    && !AllSpace(config.name)
    && config.cpus > 0
    && 0 < config.memoryMb <= MAX_MEMORY_MB
    && (SpelledAs(config.bootMode, "linux") || SpelledAs(config.bootMode, "uefi"))
    && (config.snapshotPath.None? ==>
          if SpelledAs(config.bootMode, "linux") then config.kernelPath.Some? else config.firmwarePath.Some?)
    && (forall k :: 0 <= k < |config.disks| ==> AbsoluteIfGiven(Some(config.disks[k])))
    && AbsoluteIfGiven(config.kernelPath) && AbsoluteIfGiven(config.initrdPath)
    && AbsoluteIfGiven(config.firmwarePath) && AbsoluteIfGiven(config.snapshotPath)
  }

  lemma AllSpaceSplits(first: char, rest: string)
    ensures AllSpace([first] + rest) <==> IsSpace(first) && AllSpace(rest)
  {
    var text := [first] + rest;
    assert text[0] == first;
    assert forall k :: 0 <= k < |rest| ==> rest[k] == text[k + 1];
    if AllSpace(text) {
      forall k | 0 <= k < |rest| ensures IsSpace(rest[k]) {
        assert IsSpace(text[k + 1]);
      }
    }
  }

  lemma {:induction false} LowercaseKeepsSpace(text: string)
    ensures AllSpace(text) <==> AllSpace(ToAsciiLowercase(text))
  {
    if |text| > 0 {
      LowercaseKeepsSpace(text[1..]);
      AllSpaceSplits(text[0], text[1..]);
      AllSpaceSplits(ToAsciiLower(text[0]), ToAsciiLowercase(text[1..]));
      assert text == [text[0]] + text[1..];
    }
  }

  ghost predicate SomeRelative(paths: seq<string>) {
    exists k :: 0 <= k < |paths| && !AbsoluteIfGiven(Some(paths[k]))
  }

  /** What can be wrong with a configuration, in the order in which it is looked for. */
  ghost predicate Violates(config: BootConfig, n: nat) {
    if n == 0 then AllSpace(config.name)
    else if n == 1 then config.cpus == 0
    else if n == 2 then config.memoryMb == 0
    else if n == 3 then AllSpace(config.bootMode)
    else if n == 4 then !SpelledAs(config.bootMode, "linux") && !SpelledAs(config.bootMode, "uefi")
    else if n == 5 then config.memoryMb >= 0x1000_0000_0000
    else if n == 6 then config.snapshotPath.None? && SpelledAs(config.bootMode, "linux") && config.kernelPath.None?
    else if n == 7 then config.snapshotPath.None? && SpelledAs(config.bootMode, "uefi") && config.firmwarePath.None?
    else if n == 8 then SomeRelative(config.disks)
    else if n == 9 then !AbsoluteIfGiven(config.kernelPath)
    else if n == 10 then !AbsoluteIfGiven(config.initrdPath)
    else if n == 11 then !AbsoluteIfGiven(config.firmwarePath)
    else n == 12 && !AbsoluteIfGiven(config.snapshotPath)
  }

  /** The field each of them is reported under. */
  const FIELDS: seq<string> :=
    ["name", "cpus", "memoryMb", "bootMode", "bootMode", "memoryMb", "kernelPath", "firmwarePath",
     "disks", "kernelPath", "initrdPath", "firmwarePath", "snapshotPath"]

  ghost predicate FirstViolation(config: BootConfig, n: nat) {
    n < |FIELDS| && Violates(config, n) && forall m :: 0 <= m < n ==> !Violates(config, m)
  }

  lemma PathViolation(config: BootConfig, rejection: Rejection) returns (n: nat)
    requires ValidatePaths(config) == Some(rejection)
    requires forall m :: 0 <= m < 8 ==> !Violates(config, m)
    ensures FirstViolation(config, n) && rejection.field == FIELDS[n]
  {
    AllAbsolute(config.disks);
    n := if FirstRelative(config.disks).Some? then 8
         else if !AbsoluteIfGiven(config.kernelPath) then 9
         else if !AbsoluteIfGiven(config.initrdPath) then 10
         else if !AbsoluteIfGiven(config.firmwarePath) then 11
         else 12;
  }

  lemma ChecksFirst(config: BootConfig)
    ensures var mode := ToAsciiLowercase(config.bootMode);
            && (|Trim(config.name)| == 0 <==> Violates(config, 0)) && (|Trim(config.bootMode)| == 0 <==> Violates(config, 3))
            && (mode != "linux" && mode != "uefi" <==> Violates(config, 4))
            && (config.snapshotPath.None? && mode == "linux" && config.kernelPath.None? <==> Violates(config, 6))
            && (config.snapshotPath.None? && mode == "uefi" && config.firmwarePath.None? <==> Violates(config, 7))
  {
    TrimEmpty(config.name);
    TrimEmpty(config.bootMode);
    LowercaseIs(config.bootMode, "linux");
    LowercaseIs(config.bootMode, "uefi");
    hide Trim, ToAsciiLowercase, SpelledAs, AllSpace;
  }

  /** The first of the checks before the paths that is violated, if any is. */
  function FirstOfEight(config: BootConfig): nat {
    var mode := ToAsciiLowercase(config.bootMode);
    if |Trim(config.name)| == 0 then 0
    else if config.cpus == 0 then 1
    else if config.memoryMb == 0 then 2
    else if |Trim(config.bootMode)| == 0 then 3
    else if mode != "linux" && mode != "uefi" then 4
    else if config.memoryMb > MAX_MEMORY_MB then 5
    else if config.snapshotPath.None? && mode == "linux" && config.kernelPath.None? then 6
    else if config.snapshotPath.None? && mode == "uefi" && config.firmwarePath.None? then 7
    else 8
  }

  lemma FirstOfEightIs(config: BootConfig)
    ensures forall m :: 0 <= m < FirstOfEight(config) ==> !Violates(config, m)
    ensures FirstOfEight(config) < 8 ==> Violates(config, FirstOfEight(config))
  {
    ChecksFirst(config);
    hide Trim, ToAsciiLowercase, SpelledAs, AllSpace, SomeRelative, AbsoluteIfGiven;
  }

  lemma FieldOfEight(config: BootConfig)
    ensures var n := FirstOfEight(config);
            if n < 8 then ValidateBootConfig(config).Some? && ValidateBootConfig(config).value.field == FIELDS[n]
            else ValidateBootConfig(config) == ValidatePaths(config)
  {
    hide Trim, ToAsciiLowercase, ValidatePaths;
  }

  /** A rejection names the field of the first thing that is wrong. */
  lemma RejectionNamesFirstViolation(config: BootConfig, rejection: Rejection) returns (n: nat)
    requires ValidateBootConfig(config) == Some(rejection)
    ensures FirstViolation(config, n) && rejection.field == FIELDS[n]
  {
    hide ValidateBootConfig, ValidatePaths, Violates;
    FirstOfEightIs(config);
    FieldOfEight(config);
    n := FirstOfEight(config);
    if n == 8 {
      n := PathViolation(config, rejection);
    }
  }

  lemma ValidPaths(config: BootConfig)
    ensures ValidatePaths(config).None? <==> forall n :: 8 <= n < 13 ==> !Violates(config, n)
  {
    AllAbsolute(config.disks);
    assert ValidatePaths(config).None? <==>
             (&& !SomeRelative(config.disks)
              && AbsoluteIfGiven(config.kernelPath) && AbsoluteIfGiven(config.initrdPath)
              && AbsoluteIfGiven(config.firmwarePath) && AbsoluteIfGiven(config.snapshotPath));
    hide ValidatePaths, SomeRelative, AbsoluteIfGiven;
    assert Violates(config, 8) <==> SomeRelative(config.disks);
    assert Violates(config, 9) <==> !AbsoluteIfGiven(config.kernelPath);
    assert Violates(config, 10) <==> !AbsoluteIfGiven(config.initrdPath);
    assert Violates(config, 11) <==> !AbsoluteIfGiven(config.firmwarePath);
    assert Violates(config, 12) <==> !AbsoluteIfGiven(config.snapshotPath);
  }

  lemma NothingViolated(config: BootConfig)
    ensures Acceptable(config) <==> forall n :: 0 <= n < 13 ==> !Violates(config, n)
  {
    hide AllSpace, SpelledAs;
    LowerCaseModes(config.bootMode);
    assert SomeRelative(config.disks) <==> exists k :: 0 <= k < |config.disks| && !AbsoluteIfGiven(Some(config.disks[k]));
    if forall n :: 0 <= n < 13 ==> !Violates(config, n) {
      assert !Violates(config, 0) && !Violates(config, 1) && !Violates(config, 2) && !Violates(config, 3) && !Violates(config, 4);
      assert !Violates(config, 5) && !Violates(config, 6) && !Violates(config, 7) && !Violates(config, 8) && !Violates(config, 9);
      assert !Violates(config, 10) && !Violates(config, 11) && !Violates(config, 12);
    }
  }

  /** A boot mode is no white space, and not both. */
  lemma LowerCaseModes(mode: string)
    ensures SpelledAs(mode, "linux") || SpelledAs(mode, "uefi") ==> !AllSpace(mode)
    ensures !(SpelledAs(mode, "linux") && SpelledAs(mode, "uefi"))
  {
    if SpelledAs(mode, "linux") || SpelledAs(mode, "uefi") {
      assert !IsSpace(mode[0]);
    }
  }

  /** A configuration passes exactly when it is acceptable. */
  lemma ValidationIsExact(config: BootConfig)
    ensures ValidateBootConfig(config).None? <==> Acceptable(config)
  {
    FirstOfEightIs(config);
    FieldOfEight(config);
    ValidPaths(config);
    NothingViolated(config);
    hide ValidateBootConfig, ValidatePaths, Violates, FirstOfEight, Acceptable;
  }
}
