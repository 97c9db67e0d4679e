/** The host prerequisites the installer checks before it offers to install:
    the `Specs` record, the threshold predicate over it, and the rules that
    turn command output and file contents into each of its flags. */
module Specs {
  import opened Wrappers
  import opened Text

  /** What the installer knows about the host. Memory and free disk space are
      in gigabytes, rounded to two decimals by the probe. */
  datatype Specs = Specs(
    cpuThreads: nat,
    ramGB: real,
    diskSpaceGB: real,
    kvmEnabled: bool,
    dockerInstalled: bool,
    dockerComposeInstalled: bool,
    freeRDPInstalled: bool,
    ipTablesLoaded: bool,
    iptableNatLoaded: bool)

  const MinRamGB: real := 4.0
  const MinCpuThreads: nat := 2
  const MinDiskSpaceGB: real := 32.0

  /** Every flag is set and every figure reaches its minimum. */
  predicate SatisfiesPrerequisites(s: Specs) {
    && s.dockerInstalled
    && s.dockerComposeInstalled
    && s.freeRDPInstalled
    && s.ipTablesLoaded
    && s.iptableNatLoaded
    && s.kvmEnabled
    && s.ramGB >= MinRamGB
    && s.cpuThreads >= MinCpuThreads
    && s.diskSpaceGB >= MinDiskSpaceGB
  }

  /** The record the probe starts from: nothing found. */
  const DefaultSpecs := Specs(0, 0.0, 0.0, false, false, false, false, false, false)

  /** The starting record is never good enough. */
  lemma DefaultSpecsFail()
    ensures !SatisfiesPrerequisites(DefaultSpecs)
    ensures !DefaultSpecs.dockerInstalled && DefaultSpecs.cpuThreads == 0
  {
  }

  /** `b` is at least as capable as `a` in every respect. */
  predicate AtLeast(b: Specs, a: Specs) {
    && b.cpuThreads >= a.cpuThreads && b.ramGB >= a.ramGB && b.diskSpaceGB >= a.diskSpaceGB
    && (a.kvmEnabled ==> b.kvmEnabled)
    && (a.dockerInstalled ==> b.dockerInstalled)
    && (a.dockerComposeInstalled ==> b.dockerComposeInstalled)
    && (a.freeRDPInstalled ==> b.freeRDPInstalled)
    && (a.ipTablesLoaded ==> b.ipTablesLoaded)
    && (a.iptableNatLoaded ==> b.iptableNatLoaded)
  }

  /** A more capable host never fails where a less capable one passes. */
  lemma PrerequisitesMonotone(a: Specs, b: Specs)
    requires SatisfiesPrerequisites(a) && AtLeast(b, a)
    ensures SatisfiesPrerequisites(b)
  {
  }

  /** Each minimum is exact: a passing record fails as soon as one figure drops below it,
      or one flag is cleared. */
  lemma ThresholdsAreExact(s: Specs, ram: real, threads: nat, disk: real)
    requires SatisfiesPrerequisites(s)
    ensures SatisfiesPrerequisites(s.(ramGB := ram)) <==> ram >= 4.0
    ensures SatisfiesPrerequisites(s.(cpuThreads := threads)) <==> threads >= 2
    ensures SatisfiesPrerequisites(s.(diskSpaceGB := disk)) <==> disk >= 32.0
    ensures !SatisfiesPrerequisites(s.(kvmEnabled := false))
    ensures !SatisfiesPrerequisites(s.(dockerInstalled := false))
    ensures !SatisfiesPrerequisites(s.(dockerComposeInstalled := false))
    ensures !SatisfiesPrerequisites(s.(freeRDPInstalled := false))
    ensures !SatisfiesPrerequisites(s.(ipTablesLoaded := false))
    ensures !SatisfiesPrerequisites(s.(iptableNatLoaded := false))
  {
  }

  // ---------------------------------------------------------------------
  // The probe's inputs

  /** A shell runner: the standard output of a command line, `None` when the
      command exits non-zero or cannot be started (the promise rejects). */
  type Runner = string -> Option<string>

  /** Everything the probe reads from the host. `memTotalGB` and `varFreeGB`
      are the already rounded figures, `None` when `/proc/meminfo` cannot be read
      or has no `MemTotal` line, or when `statfs` on `/var` fails. */
  datatype Host = Host(
    cpuCount: nat,
    memTotalGB: Option<real>,
    varFreeGB: Option<real>,
    cpuInfo: Option<string>,
    kvmDevice: bool,
    run: Runner)

  /** `!!text`: a string is truthy when it is not empty. */
  predicate NonEmpty(out: Option<string>) {
    out.Some? && out.value != ""
  }

  // ---------------------------------------------------------------------
  // KVM

  /** Hardware virtualisation is advertised in `/proc/cpuinfo` and `/dev/kvm` exists;
      an unreadable cpuinfo leaves the flag off. */
  function KvmEnabled(cpuInfo: Option<string>, kvmDevice: bool): (r: bool)
    ensures r <==> && cpuInfo.Some? && kvmDevice
                   && ((exists i :: OccursAt(cpuInfo.value, "vmx", i))
                       || (exists i :: OccursAt(cpuInfo.value, "svm", i)))
  {
    match cpuInfo
    case None => false
    case Some(text) =>
      ContainsIff(text, "vmx");
      ContainsIff(text, "svm");
      (Contains(text, "vmx") || Contains(text, "svm")) && kvmDevice
  }

  // ---------------------------------------------------------------------
  // iptables modules

  /** `!!output.trim()`: the grep printed something other than white space.
      A grep that finds nothing exits non-zero, and the flag stays off. */
  function ModuleLoaded(out: Option<string>): (r: bool)
    ensures r <==> out.Some? && !AllSpace(out.value)
  {
    out.Some? && Trim(out.value) != ""
  }

  const IpTablesCommand := "lsmod | grep ip_tables"
  const IptableNatCommand := "lsmod | grep iptable_nat"

  // ---------------------------------------------------------------------
  // Docker Compose version

  /** The major number when `/v(\d+\.\d+\.\d+)/` matches at `i`. */
  function VersionAt(s: string, i: nat): (r: Option<nat>)
    requires i <= |s|
  {
    if i == |s| || s[i] != 'v' then None
    else
      var a := DigitEnd(s, i + 1);
      if a == i + 1 || a == |s| || s[a] != '.' then None
      else
        var b := DigitEnd(s, a + 1);
        if b == a + 1 || b == |s| || s[b] != '.' then None
        else if DigitEnd(s, b + 1) == b + 1 then None
        else Some(FromRadix(s[i + 1..a], 10))
  }

  /** `s.match(/v(\d+\.\d+\.\d+)/)` searched from `i`: the major number of the leftmost match. */
  function FirstVersionFrom(s: string, i: nat): (r: Option<nat>)
    requires i <= |s|
    ensures r.None? <==> forall j :: i <= j < |s| ==> VersionAt(s, j).None?
    ensures r.Some? ==> exists j :: i <= j < |s| && VersionAt(s, j) == r
                          && forall k :: i <= k < j ==> VersionAt(s, k).None?
    decreases |s| - i
  {
    if i == |s| then None
    else if VersionAt(s, i).Some? then VersionAt(s, i)
    else FirstVersionFrom(s, i + 1)
  }

  const ComposeCommand := "docker compose version"

  /** `j` is where the leftmost match in `text` starts. */
  predicate LeftmostMatchAt(text: string, j: int) {
    0 <= j < |text| && VersionAt(text, j).Some? && forall k :: 0 <= k < j ==> VersionAt(text, k).None?
  }

  /** The search finds the leftmost match and no other. */
  lemma FirstVersionIsLeftmost(text: string)
    ensures forall j :: LeftmostMatchAt(text, j) ==> FirstVersionFrom(text, 0) == VersionAt(text, j)
  {
    forall j | LeftmostMatchAt(text, j) ensures FirstVersionFrom(text, 0) == VersionAt(text, j) {
      var m := FirstVersionFrom(text, 0);
      assert m.Some?;
      var j0 :| 0 <= j0 < |text| && VersionAt(text, j0) == m && forall k :: 0 <= k < j0 ==> VersionAt(text, k).None?;
      assert j >= j0;
      assert j <= j0;
    }
  }

  /** The Compose plugin counts as installed when its version output names a
      release whose major number is at least 2. */
  function ComposeInstalled(out: Option<string>): (r: bool)
    ensures !NonEmpty(out) ==> !r
    ensures r <==> NonEmpty(out) && exists j :: LeftmostMatchAt(out.value, j) && VersionAt(out.value, j).value >= 2
  {
    match out
    case None => false
    case Some(text) =>
      if text == "" then false
      else
        var m := FirstVersionFrom(text, 0);
        FirstVersionIsLeftmost(text);
        assert m.Some? ==> exists j :: LeftmostMatchAt(text, j) && VersionAt(text, j) == m;
        m.Some? && m.value >= 2
  }

  /** A position of `p` never starts a match when every `v` in it is followed by a non-digit. */
  predicate NoVersionStart(p: string) {
    forall i :: 0 <= i < |p| && p[i] == 'v' ==> i + 1 < |p| && !IsDigit(p[i + 1])
  }

  predicate AllDigits(d: string) {
    forall k :: 0 <= k < |d| ==> IsDigit(d[k])
  }

  /** The version string `va.b.c` placed after a prefix that holds no match of its own. */
  function VersionLine(p: string, a: string, b: string, c: string, rest: string): string {
    p + "v" + a + "." + b + "." + c + rest
  }

  lemma {:induction false} NoMatchInPrefix(p: string, a: string, b: string, c: string, rest: string, i: nat)
    requires NoVersionStart(p) && i < |p|
    ensures VersionAt(VersionLine(p, a, b, c, rest), i).None?
  {
    var s := VersionLine(p, a, b, c, rest);
    assert s[i] == p[i];
    if p[i] == 'v' {
      assert s[i + 1] == p[i + 1];
      DigitEndIs(s, i + 1, i + 1);
    }
  }

  lemma {:induction false} MatchAfterPrefix(p: string, a: string, b: string, c: string, rest: string)
    requires a != [] && b != [] && c != [] && AllDigits(a) && AllDigits(b) && AllDigits(c)
    ensures VersionAt(VersionLine(p, a, b, c, rest), |p|) == Some(FromRadix(a, 10))
  {
    var s := VersionLine(p, a, b, c, rest);
    var i := |p|;
    var ea := i + 1 + |a|;
    var eb := ea + 1 + |b|;
    assert s[i] == 'v';
    assert s[i + 1..ea] == a;
    assert forall k :: i + 1 <= k < ea ==> s[k] == a[k - i - 1];
    assert s[ea] == '.';
    DigitEndIs(s, i + 1, ea);
    assert forall k :: ea + 1 <= k < eb ==> s[k] == b[k - ea - 1];
    assert s[eb] == '.';
    DigitEndIs(s, ea + 1, eb);
    assert s[eb + 1] == c[0];
  }

  /** Output such as `Docker Compose version v2.35.1` decides the flag by its major number. */
  lemma {:induction false} ComposeVersionRead(p: string, a: string, b: string, c: string, rest: string)
    requires NoVersionStart(p)
    requires a != [] && b != [] && c != [] && AllDigits(a) && AllDigits(b) && AllDigits(c)
    ensures FirstVersionFrom(VersionLine(p, a, b, c, rest), 0) == Some(FromRadix(a, 10))
    ensures ComposeInstalled(Some(VersionLine(p, a, b, c, rest))) <==> FromRadix(a, 10) >= 2
  {
    var s := VersionLine(p, a, b, c, rest);
    forall i | 0 <= i < |p| ensures VersionAt(s, i).None? {
      NoMatchInPrefix(p, a, b, c, rest, i);
    }
    MatchAfterPrefix(p, a, b, c, rest);
    assert LeftmostMatchAt(s, |p|);
    FirstVersionIsLeftmost(s);
  }

  /** Output with no `v` directly followed by a digit never passes, whatever numbers it shows. */
  lemma NoVersionNoCompose(s: string)
    requires NoVersionStart(s)
    ensures !ComposeInstalled(Some(s))
  {
    forall i | 0 <= i < |s| ensures VersionAt(s, i).None? {
      if s[i] == 'v' {
        DigitEndIs(s, i + 1, i + 1);
      }
    }
  }

  /** The current plugin's output passes. */
  lemma CurrentPluginAccepted(p: string)
    requires p == "Docker Compose version "
    ensures ComposeInstalled(Some(VersionLine(p, "2", "35", "1", "")))
  {
    assert NoVersionStart(p) by {
      forall i | 0 <= i < |p| && p[i] == 'v' ensures i + 1 < |p| && !IsDigit(p[i + 1]) {
        assert i == 15;
      }
    }
    ComposeVersionRead(p, "2", "35", "1", "");
  }

  // ---------------------------------------------------------------------
  // FreeRDP

  /** The command names FreeRDP may go by, the Flatpak one included. */
  const FreeRdpAliases: seq<string> :=
    ["xfreerdp", "xfreerdp3", "flatpak run --command=xfreerdp com.freerdp.FreeRDP"]

  /** The probe runs `<alias> || exit 0`, so a missing binary is an empty output, not a failure. */
  function FreeRdpCommand(alias: string): string {
    alias + " || exit 0"
  }

  /** The `||=` over the aliases from index `i` on: the first non-empty output sets the
      flag, and a rejected command ends the loop with the flag still off. */
  function FreeRdpFoundFrom(run: Runner, i: nat): bool
    requires i <= |FreeRdpAliases|
    decreases |FreeRdpAliases| - i
  {
    if i == |FreeRdpAliases| then false
    else
      var out := run(FreeRdpCommand(FreeRdpAliases[i]));
      if out.None? then false
      else out.value != "" || FreeRdpFoundFrom(run, i + 1)
  }

  /** How many commands the loop runs from index `i` on: `||=` skips the right-hand side
      once the flag is set. */
  function FreeRdpRunsFrom(run: Runner, i: nat): nat
    requires i <= |FreeRdpAliases|
    decreases |FreeRdpAliases| - i
  {
    if i == |FreeRdpAliases| then 0
    else
      var out := run(FreeRdpCommand(FreeRdpAliases[i]));
      if out.None? || out.value != "" then 1
      else 1 + FreeRdpRunsFrom(run, i + 1)
  }

  predicate FoundAt(run: Runner, j: nat) {
    j < |FreeRdpAliases| && NonEmpty(run(FreeRdpCommand(FreeRdpAliases[j])))
  }

  predicate RanCleanly(run: Runner, j: nat) {
    j < |FreeRdpAliases| && run(FreeRdpCommand(FreeRdpAliases[j])).Some?
  }

  /** The flag is on exactly when some alias printed something and no alias before it
      was rejected; the loop then stops running commands after that alias. */
  lemma {:induction false} FreeRdpFoundIff(run: Runner, i: nat)
    requires i <= |FreeRdpAliases|
    ensures FreeRdpFoundFrom(run, i) <==>
      exists j :: i <= j && FoundAt(run, j) && forall k :: i <= k < j ==> RanCleanly(run, k)
    ensures FreeRdpFoundFrom(run, i) ==>
      exists j :: i <= j && FoundAt(run, j) && FreeRdpRunsFrom(run, i) == j - i + 1
    decreases |FreeRdpAliases| - i
  {
    if i < |FreeRdpAliases| {
      FreeRdpFoundIff(run, i + 1);
      if FoundAt(run, i) {
        assert FreeRdpRunsFrom(run, i) == 1;
      } else if RanCleanly(run, i) {
        if exists j :: i <= j && FoundAt(run, j) && forall k :: i <= k < j ==> RanCleanly(run, k) {
          var j :| i <= j && FoundAt(run, j) && forall k :: i <= k < j ==> RanCleanly(run, k);
          assert j != i;
          assert i + 1 <= j && forall k :: i + 1 <= k < j ==> RanCleanly(run, k);
        }
        if FreeRdpFoundFrom(run, i + 1) {
          var j :| i + 1 <= j && FoundAt(run, j) && forall k :: i + 1 <= k < j ==> RanCleanly(run, k);
          assert forall k :: i <= k < j ==> RanCleanly(run, k);
        }
      } else {
        assert !FreeRdpFoundFrom(run, i);
      }
    }
  }

  /** The alias loop. `runs` counts the commands actually executed. */
  method DetectFreeRdp(run: Runner) returns (installed: bool, runs: nat)
    ensures installed == FreeRdpFoundFrom(run, 0)
    ensures runs == FreeRdpRunsFrom(run, 0)
  {
    installed := false;
    runs := 0;
    var i := 0;
    while i < |FreeRdpAliases|
      invariant 0 <= i <= |FreeRdpAliases|
      invariant installed ==> FreeRdpFoundFrom(run, 0) && runs == FreeRdpRunsFrom(run, 0)
      invariant !installed ==> FreeRdpFoundFrom(run, 0) == FreeRdpFoundFrom(run, i)
                               && FreeRdpRunsFrom(run, 0) == runs + FreeRdpRunsFrom(run, i)
    {
      if !installed {
        var out := run(FreeRdpCommand(FreeRdpAliases[i]));
        runs := runs + 1;
        if out.None? {
          return;
        }
        installed := out.value != "";
      }
      i := i + 1;
    }
  }

  // ---------------------------------------------------------------------
  // The probe

  const DockerCommand := "docker --version"

  /** Fills the record flag by flag, starting from `DefaultSpecs`; every probe that
      fails leaves its field at the default. */
  method GetSpecs(host: Host) returns (specs: Specs)
    ensures specs.cpuThreads == host.cpuCount
    ensures specs.ramGB == host.memTotalGB.GetOr(0.0)
    ensures specs.diskSpaceGB == host.varFreeGB.GetOr(0.0)
    ensures specs.kvmEnabled == KvmEnabled(host.cpuInfo, host.kvmDevice)
    ensures specs.dockerInstalled == NonEmpty(host.run(DockerCommand))
    ensures specs.dockerComposeInstalled == ComposeInstalled(host.run(ComposeCommand))
    ensures specs.freeRDPInstalled == FreeRdpFoundFrom(host.run, 0)
    ensures specs.ipTablesLoaded == ModuleLoaded(host.run(IpTablesCommand))
    ensures specs.iptableNatLoaded == ModuleLoaded(host.run(IptableNatCommand))
  {
    specs := ProbeMachine(host);
    specs := ProbeTools(host, specs);
  }

  /** The figures and the KVM flag, read from `/proc` and `/var`. */
  method ProbeMachine(host: Host) returns (specs: Specs)
    ensures specs.cpuThreads == host.cpuCount
    ensures specs.ramGB == host.memTotalGB.GetOr(0.0)
    ensures specs.diskSpaceGB == host.varFreeGB.GetOr(0.0)
    ensures specs.kvmEnabled == KvmEnabled(host.cpuInfo, host.kvmDevice)
    ensures specs.(cpuThreads := 0, ramGB := 0.0, diskSpaceGB := 0.0, kvmEnabled := false) == DefaultSpecs
  {
    specs := DefaultSpecs;
    specs := specs.(cpuThreads := host.cpuCount);
    if host.memTotalGB.Some? {
      specs := specs.(ramGB := host.memTotalGB.value);
    }
    if host.varFreeGB.Some? {
      specs := specs.(diskSpaceGB := host.varFreeGB.value);
    }
    if KvmEnabled(host.cpuInfo, host.kvmDevice) {
      specs := specs.(kvmEnabled := true);
    }
  }

  /** The flags that come from running commands; the figures and the KVM flag are kept. */
  method ProbeTools(host: Host, start: Specs) returns (specs: Specs)
    requires !start.dockerInstalled && !start.dockerComposeInstalled && !start.freeRDPInstalled
    requires !start.ipTablesLoaded && !start.iptableNatLoaded
    ensures specs.cpuThreads == start.cpuThreads && specs.ramGB == start.ramGB
    ensures specs.diskSpaceGB == start.diskSpaceGB && specs.kvmEnabled == start.kvmEnabled
    ensures specs.dockerInstalled == NonEmpty(host.run(DockerCommand))
    ensures specs.dockerComposeInstalled == ComposeInstalled(host.run(ComposeCommand))
    ensures specs.freeRDPInstalled == FreeRdpFoundFrom(host.run, 0)
    ensures specs.ipTablesLoaded == ModuleLoaded(host.run(IpTablesCommand))
    ensures specs.iptableNatLoaded == ModuleLoaded(host.run(IptableNatCommand))
  {
    specs := start;
    var docker := host.run(DockerCommand);
    if docker.Some? {
      specs := specs.(dockerInstalled := docker.value != "");
    }
    var compose := host.run(ComposeCommand);
    if compose.Some? {
      specs := specs.(dockerComposeInstalled := ComposeInstalled(compose));
    }
    var freeRdp, _ := DetectFreeRdp(host.run);
    specs := specs.(freeRDPInstalled := freeRdp);
    var ipTables := host.run(IpTablesCommand);
    if ipTables.Some? {
      specs := specs.(ipTablesLoaded := ModuleLoaded(ipTables));
    }
    var ipNat := host.run(IptableNatCommand);
    if ipNat.Some? {
      specs := specs.(iptableNatLoaded := ModuleLoaded(ipNat));
    }
  }
}
