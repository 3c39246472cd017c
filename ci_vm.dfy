/** The QEMU virtual machines of the CI builder (testsuite/cibuilder.py): the registry of
    running machines, the boot wait, the check of the boot log, and `vm_start`.

    Processes, files, clocks and the network are outside the model; `Host` gathers what they
    would report to one `vm_start` call. */
module CiVm {
  import opened Outcomes
  import opened Text
  import StartVm
  import CiRemote

  // ---------------------------------------------------------------------------
  // The registry key

  /** `"%s_%s_%s_%d" % (arch, distro, image, enforce_pcbios)`. */
  function Fingerprint(arch: string, distro: string, image: string, enforcePcbios: bool): string {
    arch + "_" + distro + "_" + image + "_" + (if enforcePcbios then "1" else "0")
  }

  /** Splitting at a separator that the first part does not contain is unambiguous. */
  lemma SplitAtSeparator(a1: string, r1: string, a2: string, r2: string)
    requires '_' !in a1 && '_' !in a2
    requires a1 + "_" + r1 == a2 + "_" + r2
    ensures a1 == a2 && r1 == r2
  {
    var s := a1 + "_" + r1;
    assert s[|a1|] == '_';
    assert (a2 + "_" + r2)[|a2|] == '_';
    assert a1 == s[..|a1|] && a2 == s[..|a2|];
    assert r1 == s[|a1| + 1..] && r2 == s[|a2| + 1..];
  }

  /** Architecture and distribution names without `_` give distinct machines distinct
      keys. */
  lemma FingerprintInjective(arch1: string, distro1: string, image1: string, pcbios1: bool,
                             arch2: string, distro2: string, image2: string, pcbios2: bool)
    requires '_' !in arch1 && '_' !in arch2 && '_' !in distro1 && '_' !in distro2
    requires Fingerprint(arch1, distro1, image1, pcbios1) == Fingerprint(arch2, distro2, image2, pcbios2)
    ensures arch1 == arch2 && distro1 == distro2 && image1 == image2 && pcbios1 == pcbios2
  {
    var t1 := if pcbios1 then "1" else "0";
    var t2 := if pcbios2 then "1" else "0";
    assert Fingerprint(arch1, distro1, image1, pcbios1) == arch1 + "_" + (distro1 + "_" + (image1 + "_" + t1));
    assert Fingerprint(arch2, distro2, image2, pcbios2) == arch2 + "_" + (distro2 + "_" + (image2 + "_" + t2));
    SplitAtSeparator(arch1, distro1 + "_" + (image1 + "_" + t1), arch2, distro2 + "_" + (image2 + "_" + t2));
    SplitAtSeparator(distro1, image1 + "_" + t1, distro2, image2 + "_" + t2);
    var m := image1 + "_" + t1;
    assert m == image2 + "_" + t2;
    assert |image1| == |image2|;
    assert image1 == m[..|image1|] && image2 == m[..|image2|];
    assert t1 == m[|image1| + 1..] && t2 == m[|image2| + 1..];
  }

  /** With `_` in the names, two different machines share one registry entry. */
  lemma FingerprintCollision()
    ensures Fingerprint("arm64", "debian_bookworm", "isar-image-base", false)
            == Fingerprint("arm64_debian", "bookworm", "isar-image-base", false)
  {
  }

  // ---------------------------------------------------------------------------
  // `vm_parse_output`

  const ModuleOutput := Ascii("Just an example")
  const ExtResizeOutput := Ascii("resized filesystem to")
  const BtrfsResizeOutput := Ascii(": resize device ")

  /** The resize message the boot log must show: only for a `wic` image with a kickstart
      file on a distribution other than Ubuntu, and then the message of the kickstart file's
      file system, the btrfs one winning when both names appear. */
  function ResizeMarker(imageType: string, wksFile: string, distro: string): (m: Option<seq<byte>>)
    ensures m.Some? ==> imageType == "wic" && wksFile != "" && distro != "" && !Contains(distro, "ubuntu")
    ensures m.Some? <==> imageType == "wic" && wksFile != "" && distro != "" && !Contains(distro, "ubuntu")
                         && (Contains(wksFile, "sdimage-efi-sd") || Contains(wksFile, "sdimage-efi-btrfs"))
    ensures m.Some? && Contains(wksFile, "sdimage-efi-btrfs") ==> m.value == BtrfsResizeOutput
    ensures m.Some? && !Contains(wksFile, "sdimage-efi-btrfs") ==> m.value == ExtResizeOutput
  {
    if imageType == "wic" && wksFile != "" && distro != "" && !Contains(distro, "ubuntu") then
      if Contains(wksFile, "sdimage-efi-btrfs") then Some(BtrfsResizeOutput)
      else if Contains(wksFile, "sdimage-efi-sd") then Some(ExtResizeOutput)
      else None
    else None
  }

  /** `vm_parse_output(boot_log, multiconfig, skip_modulecheck)`, where `log` is the content
      of the boot log (`None` when the file does not exist) and `imageFstypes`, `wksFile`
      and `distro` are the multiconfig's variables. A blank `IMAGE_FSTYPES` raises
      `IndexError`. */
  function ParseOutput(log: Option<seq<byte>>, imageFstypes: string, wksFile: string, distro: string,
                       skipModulecheck: bool): (r: Result<int>)
    ensures r.Raised? <==> Words(imageFstypes) == []
    ensures r.Value? ==> 0 <= r.value <= 2
    ensures r.Value? && (log.None? || log.value == []) ==> r.value == 0
    ensures r.Value? && log.Some? && log.value != [] ==>
              && (r.value == 2 <==> !skipModulecheck && !Contains(log.value, ModuleOutput))
              && (r.value == 1 <==>
                    (skipModulecheck || Contains(log.value, ModuleOutput))
                    && var m := ResizeMarker(Words(imageFstypes)[0], wksFile, distro);
                       m.Some? && !Contains(log.value, m.value))
  {
    match FirstWord(imageFstypes)
    case Raised(e) => Raised(e)
    case Value(imageType) =>
      var resize := ResizeMarker(imageType, wksFile, distro);
      if log.None? || log.value == [] then Value(0)
      else if Contains(log.value, ModuleOutput) || skipModulecheck then
        if resize.Some? && !Contains(log.value, resize.value) then Value(1) else Value(0)
      else Value(2)
  }

  /** Without the module output, a log fails with 2 whatever the resize check would say. */
  lemma MissingModuleOutputWins(log: seq<byte>, imageFstypes: string, wksFile: string, distro: string)
    requires log != [] && Words(imageFstypes) != [] && !Contains(log, ModuleOutput)
    ensures ParseOutput(Some(log), imageFstypes, wksFile, distro, false) == Value(2)
    ensures ParseOutput(Some(log), imageFstypes, wksFile, distro, true)
            == Value(if ResizeMarker(Words(imageFstypes)[0], wksFile, distro).Some?
                        && !Contains(log, ResizeMarker(Words(imageFstypes)[0], wksFile, distro).value)
                     then 1 else 0)
  {
  }

  /** `getVars(name, target=multiconfig)`: the value of a variable of the multiconfig, where
      an unset or empty variable reads as the string `'None'`. */
  function GetVar(vars: map<string, string>, name: string): (v: string)
    ensures v != ""
    ensures StartVm.Var(vars, name) != "" ==> v == StartVm.Var(vars, name)
    ensures StartVm.Var(vars, name) == "" ==> v == "None"
  {
    var value := StartVm.Var(vars, name);
    if value == "" then "None" else value
  }

  /** `vm_parse_output` on the log read from the boot log file and the variables `getVars`
      returns for the machine's multiconfig. */
  function LogCheck(log: Option<seq<byte>>, vars: map<string, string>, skipModulecheck: bool): Result<int> {
    ParseOutput(log, GetVar(vars, "IMAGE_FSTYPES"), GetVar(vars, "WKS_FILE"), GetVar(vars, "DISTRO"),
                skipModulecheck)
  }

  /** `'None'` is one word and mentions no Ubuntu. */
  lemma NoneWord()
    ensures Words("None") == ["None"]
    ensures !Contains("None", "ubuntu")
  {
    assert Join(["None"], " ") == "None";
    WordsOfJoin(["None"]);
  }

  /** The check of the boot log raises only for an `IMAGE_FSTYPES` that is set and made of
      whitespace: an unset or empty one reads as `'None'`, whose first word is `'None'`. */
  lemma LogCheckRaisesIff(log: Option<seq<byte>>, vars: map<string, string>, skipModulecheck: bool)
    ensures LogCheck(log, vars, skipModulecheck).Raised?
            <==> StartVm.Var(vars, "IMAGE_FSTYPES") != "" && Words(StartVm.Var(vars, "IMAGE_FSTYPES")) == []
  {
    NoneWord();
  }

  /** A `wic` image whose kickstart file is `sdimage-efi-sd` on a machine without `DISTRO`
      still expects the ext4 resize message, because `'None'` is a distribution other than
      Ubuntu: a log with the module output and without that message fails with 1. */
  lemma UnsetDistroExpectsResize(log: seq<byte>, vars: map<string, string>)
    requires StartVm.Var(vars, "DISTRO") == ""
    requires Words(GetVar(vars, "IMAGE_FSTYPES")) != [] && Words(GetVar(vars, "IMAGE_FSTYPES"))[0] == "wic"
    requires Contains(StartVm.Var(vars, "WKS_FILE"), "sdimage-efi-sd")
    requires !Contains(StartVm.Var(vars, "WKS_FILE"), "sdimage-efi-btrfs")
    requires Contains(log, ModuleOutput) && !Contains(log, ExtResizeOutput)
    ensures ResizeMarker("wic", GetVar(vars, "WKS_FILE"), GetVar(vars, "DISTRO")) == Some(ExtResizeOutput)
    ensures LogCheck(Some(log), vars, false) == Value(1)
  {
    NoneWord();
    assert StartVm.Var(vars, "WKS_FILE") != "";
    assert log != [];
  }

  // ---------------------------------------------------------------------------
  // `vm_wait_boot`

  /** What one poll of the VM's pipes delivers before the deadline or the end of QEMU. */
  datatype BootEvent =
    | StdoutChunk(data: seq<byte>)   // up to 1024 bytes read from QEMU's standard output
    | StderrLine                     // a line of QEMU's standard error, only logged
    | OtherEvent                     // a poll event other than `POLLIN`

  const LoginPrompt := Ascii(" login:")

  /** Some chunk read from standard output holds the whole login prompt: chunks are tested
      one by one, never joined. */
  predicate BootSucceeds(events: seq<BootEvent>) {
    exists k :: 0 <= k < |events| && events[k].StdoutChunk? && Contains(events[k].data, LoginPrompt)
  }

  /** `vm_wait_boot(p1, timeout)`: 0 at the first chunk with the login prompt, 1 when the
      deadline passes or QEMU ends without one. */
  method WaitBoot(events: seq<BootEvent>) returns (rc: int)
    ensures rc == 0 || rc == 1
    ensures rc == 0 <==> BootSucceeds(events)
  {
    for i := 0 to |events|
      invariant forall k :: 0 <= k < i ==> !(events[k].StdoutChunk? && Contains(events[k].data, LoginPrompt))
    {
      match events[i] {
        case StdoutChunk(data) =>
          if Contains(data, LoginPrompt) {
            return 0;
          }
        case StderrLine =>
        case OtherEvent =>
      }
    }
    return 1;
  }

  /** A prompt read as "i", "sar", " login:" is found in the last chunk. */
  lemma PromptInOneChunkFound()
    ensures BootSucceeds([StdoutChunk(Ascii("i")), StdoutChunk(Ascii("sar")), StdoutChunk(Ascii(" login:"))])
  {
    var events := [StdoutChunk(Ascii("i")), StdoutChunk(Ascii("sar")), StdoutChunk(Ascii(" login:"))];
    assert OccursAt(events[2].data, LoginPrompt, 0);
  }

  /** A prompt split inside its own text, as " log" and "in:", is never found. */
  lemma PromptAcrossChunksMissed()
    ensures !BootSucceeds([StdoutChunk(Ascii(" log")), StdoutChunk(Ascii("in:"))])
  {
    var events := [StdoutChunk(Ascii(" log")), StdoutChunk(Ascii("in:"))];
    forall k | 0 <= k < 2 ensures !Contains(events[k].data, LoginPrompt) {
      assert |events[k].data| < |LoginPrompt|;
    }
  }

  // ---------------------------------------------------------------------------
  // The SSH port of a running machine

  const HostfwdTag := "hostfwd=tcp::"

  /** The text of `arg` before its first newline, which is all `.` can match. */
  function FirstLine(arg: string): (line: string)
    ensures '\n' !in line && StartsWith(arg, line)
  {
    if '\n' in arg then arg[..FirstIndex(arg, '\n')] else arg
  }

  /** `re.match(r".*hostfwd=tcp::(\d*).*", arg).group(1)`: the greedy `.*` stops at the last
      occurrence of the tag on the first line, and the group is the digits after it. */
  function HostfwdPort(arg: string): (p: Option<string>)
    ensures p.None? <==> !Contains(FirstLine(arg), HostfwdTag)
    ensures p.Some? ==> forall i :: 0 <= i < |p.value| ==> IsDigit(p.value[i])
  {
    var line := FirstLine(arg);
    match LastOccurrence(line, HostfwdTag)
    case None => None
    case Some(i) => Some(DigitRun(line[i + |HostfwdTag|..]))
  }

  /** The port `vm_start` connects to: the group of the first matching argument, or 22. */
  function SshPortOf(cmdline: seq<string>): string {
    if cmdline == [] then "22"
    else match HostfwdPort(cmdline[0])
      case Some(p) => p
      case None => SshPortOf(cmdline[1..])
  }

  /** The loop of `vm_start` over the command line that stops at the first match. */
  method FindSshPort(cmdline: seq<string>) returns (port: string)
    ensures port == SshPortOf(cmdline)
  {
    port := "22";
    for i := 0 to |cmdline|
      invariant SshPortOf(cmdline[i..]) == SshPortOf(cmdline)
    {
      assert cmdline[i..][1..] == cmdline[i + 1..];
      var m := HostfwdPort(cmdline[i]);
      if m.Some? {
        port := m.value;
        return;
      }
    }
  }

  /** The forwarding argument is one line, and its only `h` is the one of the tag. */
  lemma NetdevArgText(port: nat)
    ensures var arg := StartVm.NetdevArg(port);
            && arg == "user,id=net0," + HostfwdTag + Decimal(port) + "-:22"
            && '\n' !in arg
            && forall j :: 13 < j < |arg| ==> arg[j] != 'h'
  {
    var d := Decimal(port);
    var arg := StartVm.NetdevArg(port);
    var front := "user,id=net0," + HostfwdTag;
    assert arg == front + d + "-:22";
    assert |front| == 26;
    forall j | 0 <= j < |arg| ensures arg[j] != '\n' && (13 < j ==> arg[j] != 'h') {
      if j < 26 {
        assert arg[j] == front[j];
      } else if j < 26 + |d| {
        assert arg[j] == d[j - 26];
      } else {
        assert arg[j] == "-:22"[j - 26 - |d|];
      }
    }
  }

  /** Past the last `h` of a string the tag cannot start. */
  lemma NoTagAfter(s: string, k: nat)
    requires forall j :: k < j < |s| ==> s[j] != 'h'
    ensures forall j: nat :: k < j <= |s| ==> !OccursAt(s, HostfwdTag, j)
  {
    forall j: nat | k < j <= |s| ensures !OccursAt(s, HostfwdTag, j) {
      if j + |HostfwdTag| <= |s| {
        assert s[j..j + |HostfwdTag|][0] == s[j];
      }
    }
  }

  /** The tag occurs in the forwarding argument once, at its place after `user,id=net0,`. */
  lemma NetdevArgTag(port: nat)
    ensures var arg := StartVm.NetdevArg(port);
            && FirstLine(arg) == arg
            && LastOccurrence(arg, HostfwdTag) == Some(13)
            && arg[26..] == Decimal(port) + "-:22"
  {
    var arg := StartVm.NetdevArg(port);
    NetdevArgText(port);
    assert arg[13..26] == HostfwdTag;
    assert OccursAt(arg, HostfwdTag, 13);
    NoTagAfter(arg, 13);
  }

  /** The forwarding argument of the command line gives back the port it was built with. */
  lemma HostfwdPortOfNetdevArg(port: nat)
    ensures HostfwdPort(StartVm.NetdevArg(port)) == Some(Decimal(port))
  {
    NetdevArgTag(port);
    DigitRunOfDigits(Decimal(port), "-:22");
  }

  /** No argument mentions a forwarding on its first line. */
  predicate NoForwarding(args: seq<string>) {
    forall k :: 0 <= k < |args| ==> HostfwdPort(args[k]).None?
  }

  lemma NoForwardingConcat(a: seq<string>, b: seq<string>)
    requires NoForwarding(a) && NoForwarding(b)
    ensures NoForwarding(a + b)
  {
    forall k | 0 <= k < |a + b| ensures HostfwdPort((a + b)[k]).None? {
      if k < |a| {
        assert (a + b)[k] == a[k];
      } else {
        assert (a + b)[k] == b[k - |a|];
      }
    }
  }

  /** A command line whose first forwarding argument is the one built for `port` yields
      that port. */
  lemma {:induction false} SshPortOfCmdline(before: seq<string>, port: nat, after: seq<string>)
    requires NoForwarding(before)
    ensures SshPortOf(before + [StartVm.NetdevArg(port)] + after) == Decimal(port)
  {
    var cmdline := before + [StartVm.NetdevArg(port)] + after;
    if before == [] {
      HostfwdPortOfNetdevArg(port);
      assert cmdline[0] == StartVm.NetdevArg(port);
    } else {
      assert cmdline[0] == before[0];
      assert cmdline[1..] == before[1..] + [StartVm.NetdevArg(port)] + after;
      SshPortOfCmdline(before[1..], port, after);
    }
  }

  // ---------------------------------------------------------------------------
  // The registry of running machines

  /** `(pid, cmdline, boot_log)` of a started machine. */
  datatype VmEntry = VmEntry(pid: int, cmdline: seq<string>, bootLog: string)

  const NoProcess := "ProcessLookupError: [Errno 3] No such process"
  const BootFailure := "TestFail: Failed to boot qemu machine"
  const RemoteFailure := "TestFail: Failed to run test over ssh"
  const ParseFailure := "TestFail: Failed to parse output"

  /** `vm_turn_off(vm)` on a registry: the result, the registry after it and the pids it
      killed. Looking up a missing machine raises `KeyError`, and a process that is gone
      raises `ProcessLookupError` before the entry is deleted; otherwise exactly the entry
      of `vm` is removed. */
  function TurnedOff(vms: map<string, VmEntry>, vm: string, kill: int -> bool)
    : (o: (Result<()>, map<string, VmEntry>, seq<int>))
    ensures o.1 - {vm} == vms - {vm}
    ensures o.0.Value? <==> vm in vms && kill(vms[vm].pid)
    ensures o.0.Value? ==> vm !in o.1 && o.2 == [vms[vm].pid]
    ensures o.0.Raised? ==> o.1 == vms && o.2 == []
    ensures vm !in vms ==> o.0 == Raised("KeyError: '" + vm + "'")
  {
    if vm !in vms then (Raised("KeyError: '" + vm + "'"), vms, [])
    else if !kill(vms[vm].pid) then (Raised(NoProcess), vms, [])
    else (Value(()), vms - {vm}, [vms[vm].pid])
  }

  /** What the host reports to one `vm_start` call. */
  datatype Host = Host(
    ps: int -> string,                     // the output of `ps -o cmd= <pid>`
    kill: int -> bool,                     // whether `os.kill(pid, SIGKILL)` finds the process
    vars: map<string, string>,             // the bitbake variables of the machine's multiconfig
    bootLog: string,                       // the log file name `vm_turn_on` creates
    launchedPid: int,                      // the pid of the QEMU process it starts
    sshPort: nat,                          // the free port `format_qemu_cmdline` forwards
    bootEvents: seq<BootEvent>,            // what the boot wait reads before the deadline
    deadline: int,                         // `time.time() + time_to_wait`
    pings: seq<CiRemote.ExecResult>,       // the connection probes until the deadline
    shell: string -> CiRemote.ExecResult,  // the commands run over ssh and scp
    present: string -> bool,               // the files that exist
    scriptDir: string,                     // the directory of the test scripts
    buildDir: string,                      // the build directory
    readLog: string -> Option<seq<byte>>)  // the content of a file, None when it is missing

  /** Whether `vm_start` reuses the registered machine: only when its first command line
      word appears in the `ps` output for its pid. An entry with an empty command line
      raises `IndexError`. */
  function Reuses(vms: map<string, VmEntry>, vm: string, ps: int -> string): (r: Result<bool>)
    ensures r.Raised? <==> vm in vms && vms[vm].cmdline == []
    ensures r == Value(true) <==> vm in vms && vms[vm].cmdline != []
                                  && Contains(ps(vms[vm].pid), vms[vm].cmdline[0])
  {
    if vm !in vms then Value(false)
    else if vms[vm].cmdline == [] then Raised("IndexError: list index out of range")
    else Value(Contains(ps(vms[vm].pid), vms[vm].cmdline[0]))
  }

  /** `vm_turn_on`: the entry of a newly launched machine, whose command line is the one of
      `format_qemu_cmdline`, logging to the new boot log and without a pid file, with
      `-nographic` inserted after the program name. */
  function LaunchEntry(arch: string, distro: string, image: string, enforcePcbios: bool, host: Host)
    : Result<VmEntry>
  {
    match StartVm.QemuCmdline(host.vars, arch, distro, image, host.bootLog, "", enforcePcbios, false, host.sshPort)
    case Raised(e) => Raised(e)
    case Value(cmd) => Value(VmEntry(host.launchedPid, StartVm.WithNographic(cmd), host.bootLog))
  }

  /** The machine `vm_start` goes on with: whether it was reused, and its entry. */
  function Prepared(vms: map<string, VmEntry>, vm: string, arch: string, distro: string, image: string,
                    enforcePcbios: bool, host: Host): (r: Result<(bool, VmEntry)>)
    ensures r.Value? && r.value.0 ==> vm in vms && r.value.1 == vms[vm] && Reuses(vms, vm, host.ps) == Value(true)
    ensures r.Value? && !r.value.0 ==> Reuses(vms, vm, host.ps) == Value(false)
                                       && LaunchEntry(arch, distro, image, enforcePcbios, host) == Value(r.value.1)
    ensures r.Raised? <==> Reuses(vms, vm, host.ps).Raised?
                           || (Reuses(vms, vm, host.ps) == Value(false)
                               && LaunchEntry(arch, distro, image, enforcePcbios, host).Raised?)
  {
    match Reuses(vms, vm, host.ps)
    case Raised(e) => Raised(e)
    case Value(reuse) =>
      if reuse then Value((true, vms[vm]))
      else match LaunchEntry(arch, distro, image, enforcePcbios, host)
        case Raised(e) => Raised(e)
        case Value(entry) => Value((false, entry))
  }

  /** `remote_run(cmd, script, timeout)` as `vm_start` calls it: as user `ci` on `localhost`,
      at the port found in the machine's command line, with the key in the build directory. */
  function RemoteStep(cmd: Option<string>, script: Option<string>, entry: VmEntry, host: Host)
    : Result<CiRemote.RemoteResult>
  {
    var prefix := CiRemote.SshCmdPrefix("ci", "localhost", SshPortOf(entry.cmdline), host.buildDir + "/ci_priv_key");
    CiRemote.RemoteRunResult(cmd, script, host.deadline, prefix, host.pings, host.scriptDir, host.present, host.shell)
  }

  /** The verdict of the test run on a machine that is up. */
  datatype Verdict = Pass(stdout: string, stderr: string) | Fail(message: string)

  /** The test step of `vm_start`: the remote command or script over ssh when one is given,
      passing when it returns 0; otherwise the check of the boot log, passing when
      `vm_parse_output` returns 0. */
  function TestStep(cmd: Option<string>, script: Option<string>, entry: VmEntry, skipModulecheck: bool,
                    host: Host): (r: Result<Verdict>)
    ensures r.Value? && r.value.Fail? ==>
              r.value.message == (if cmd.Some? || script.Some? then RemoteFailure else ParseFailure)
    ensures cmd.None? && script.None? && r.Value? ==> r.value == Pass("", "") || r.value == Fail(ParseFailure)
    ensures cmd.Some? || script.Some? ==>
              var ran := RemoteStep(cmd, script, entry, host);
              && (r.Raised? <==> ran.Raised?)
              && (r.Value? ==> (r.value.Pass? <==> ran.value.rc == Some(0)))
              && (r.Value? && r.value.Pass? ==> r.value == Pass(ran.value.stdout, ran.value.stderr))
    ensures cmd.None? && script.None? ==>
              var rc := LogCheck(host.readLog(entry.bootLog), host.vars, skipModulecheck);
              && (r.Raised? <==> rc.Raised?)
              && (r.Value? ==> (r.value.Pass? <==> rc.value == 0))
  {
    if cmd.Some? || script.Some? then
      match RemoteStep(cmd, script, entry, host)
      case Raised(e) => Raised(e)
      case Value(res) => Value(if res.rc == Some(0) then Pass(res.stdout, res.stderr) else Fail(RemoteFailure))
    else
      match LogCheck(host.readLog(entry.bootLog), host.vars, skipModulecheck)
      case Raised(e) => Raised(e)
      case Value(rc) => Value(if rc == 0 then Pass("", "") else Fail(ParseFailure))
  }

  /** The test step as `vm_start` runs it: the port is looked up in the command line, the
      ssh invocation built and `remote_run` called with the deadline. */
  method RunTest(cmd: Option<string>, script: Option<string>, entry: VmEntry, skipModulecheck: bool,
                 host: Host) returns (r: Result<Verdict>)
    ensures r == TestStep(cmd, script, entry, skipModulecheck, host)
  {
    if cmd.Some? || script.Some? {
      var port := FindSshPort(entry.cmdline);
      var prefix := CiRemote.SshCmdPrefix("ci", "localhost", port, host.buildDir + "/ci_priv_key");
      var ran := CiRemote.RemoteRun(cmd, script, host.deadline, prefix, host.pings, host.scriptDir,
                                    host.present, host.shell);
      if ran.Raised? {
        return Raised(ran.exception);
      }
      if ran.value.rc != Some(0) {
        return Value(Fail(RemoteFailure));
      }
      return Value(Pass(ran.value.stdout, ran.value.stderr));
    } else {
      var rc := ParseOutput(host.readLog(entry.bootLog), GetVar(host.vars, "IMAGE_FSTYPES"),
                            GetVar(host.vars, "WKS_FILE"), GetVar(host.vars, "DISTRO"), skipModulecheck);
      if rc.Raised? {
        return Raised(rc.exception);
      }
      if rc.value != 0 {
        return Value(Fail(ParseFailure));
      }
      return Value(Pass("", ""));
    }
  }

  /** The outcome of one `vm_start`: its result, the registry after it and the pids killed. */
  datatype Started = Started(result: Result<(string, string)>, vms: map<string, VmEntry>, killed: seq<int>)

  /** Turning the machine off, then going on with `next` unless that raised. */
  function AfterTurnOff(off: (Result<()>, map<string, VmEntry>, seq<int>), next: Result<(string, string)>): Started {
    Started(if off.0.Raised? then Raised(off.0.exception) else next, off.1, off.2)
  }

  /** The end of `vm_start` once the machine is up and registered in `up`: the test step,
      then the machine turned off unless it is to be kept, whether the test passed or
      not. An exception of the test step itself leaves the machine registered. */
  function Finished(up: map<string, VmEntry>, vm: string, entry: VmEntry, skipModulecheck: bool,
                    cmd: Option<string>, script: Option<string>, keep: bool, host: Host): Started
  {
    match TestStep(cmd, script, entry, skipModulecheck, host)
    case Raised(e) => Started(Raised(e), up, [])
    case Value(verdict) =>
      var outcome := if verdict.Pass? then Value((verdict.stdout, verdict.stderr)) else Raised(verdict.message);
      if keep then Started(outcome, up, [])
      else AfterTurnOff(TurnedOff(up, vm, host.kill), outcome)
  }

  /** `vm_start` once the machine is registered in `up`: a newly launched machine must show
      its login prompt before the test, and is turned off, whatever `keep` says, when it
      does not. */
  function Booted(up: map<string, VmEntry>, vm: string, reused: bool, entry: VmEntry, skipModulecheck: bool,
                  cmd: Option<string>, script: Option<string>, keep: bool, host: Host): Started
  {
    if !reused && !BootSucceeds(host.bootEvents) then
      AfterTurnOff(TurnedOff(up, vm, host.kill), Raised(BootFailure))
    else Finished(up, vm, entry, skipModulecheck, cmd, script, keep, host)
  }

  /** `vm_start` on a registry: a machine that is reused goes straight to the test; a newly
      launched one is registered and must show its login prompt first, and is turned off,
      whatever `keep` says, when it does not. */
  function VmStart(vms: map<string, VmEntry>, arch: string, distro: string, image: string, enforcePcbios: bool,
                   skipModulecheck: bool, cmd: Option<string>, script: Option<string>, keep: bool,
                   host: Host): Started
  {
    var vm := Fingerprint(arch, distro, image, enforcePcbios);
    match Prepared(vms, vm, arch, distro, image, enforcePcbios, host)
    case Raised(e) => Started(Raised(e), vms, [])
    case Value((reused, entry)) => Booted(vms[vm := entry], vm, reused, entry, skipModulecheck, cmd, script, keep, host)
  }

  /** `self.vm_dict` with the file it is saved in. */
  class VmRegistry {
    /** The registered machines by fingerprint. */
    var vms: map<string, VmEntry>
    /** The registry `vm_dict_file` holds, which the next `init` loads. */
    var persisted: map<string, VmEntry>
    /** The pids killed with SIGKILL, in order. */
    var killed: seq<int>

    /** The file always holds the registry: it is saved after every change. */
    predicate Valid()
      reads this
    {
      persisted == vms
    }

    /** `init`: the registry of `vm_dict_file` when the file exists and is not empty,
        otherwise an empty one. */
    constructor Load(stored: Option<map<string, VmEntry>>)
      ensures vms == (if stored.Some? then stored.value else map[])
      ensures Valid() && killed == []
    {
      vms := if stored.Some? then stored.value else map[];
      persisted := vms;
      killed := [];
    }

    /** `vm_dump_dict`: the file is rewritten with the whole registry. */
    method Dump()
      modifies this
      ensures Valid()
      ensures vms == old(vms) && killed == old(killed)
    {
      persisted := vms;
    }

    /** `vm_turn_off(vm)`: kills the machine's process, deletes its entry and saves the
        registry. */
    method TurnOff(vm: string, kill: int -> bool) returns (r: Result<()>)
      requires Valid()
      modifies this
      ensures var o := TurnedOff(old(vms), vm, kill); r == o.0 && vms == o.1 && killed == old(killed) + o.2
      ensures Valid()
    {
      if vm !in vms {
        return Raised("KeyError: '" + vm + "'");
      }
      var pid := vms[vm].pid;
      if !kill(pid) {
        return Raised(NoProcess);
      }
      killed := killed + [pid];
      vms := vms - {vm};
      Dump();
      r := Value(());
    }

    /** `vm_start`: reuses the registered machine when its process still runs, otherwise
        launches and registers a new one and waits for its login prompt; then runs the test
        and turns the machine off unless it is to be kept. */
    method Start(arch: string, distro: string, image: string, enforcePcbios: bool, skipModulecheck: bool,
                 cmd: Option<string>, script: Option<string>, keep: bool, host: Host)
      returns (r: Result<(string, string)>)
      requires Valid()
      modifies this
      ensures var o := VmStart(old(vms), arch, distro, image, enforcePcbios, skipModulecheck, cmd, script, keep, host);
              r == o.result && vms == o.vms && killed == old(killed) + o.killed
      ensures Valid()
    {
      var vm := Fingerprint(arch, distro, image, enforcePcbios);
      ghost var before := vms;
      var prepared := Prepare(vm, arch, distro, image, enforcePcbios, host);
      if prepared.Raised? {
        return Raised(prepared.exception);
      }
      assert vms == before[vm := prepared.value.1];
      r := Run(vm, prepared.value.0, prepared.value.1, skipModulecheck, cmd, script, keep, host);
    }

    /** `vm_start` from the boot wait on, for the machine registered under `vm`. */
    method Run(vm: string, reused: bool, entry: VmEntry, skipModulecheck: bool, cmd: Option<string>,
               script: Option<string>, keep: bool, host: Host)
      returns (r: Result<(string, string)>)
      requires Valid() && vm in vms && vms[vm] == entry
      modifies this
      ensures var o := Booted(old(vms), vm, reused, entry, skipModulecheck, cmd, script, keep, host);
              r == o.result && vms == o.vms && killed == old(killed) + o.killed
      ensures Valid()
    {
      if !reused {
        var rc := WaitBoot(host.bootEvents);
        if rc != 0 {
          var off := TurnOff(vm, host.kill);
          if off.Raised? {
            return Raised(off.exception);
          }
          return Raised(BootFailure);
        }
      }
      r := Finish(vm, entry, skipModulecheck, cmd, script, keep, host);
    }

    /** The start of `vm_start`: the registered machine when its process still runs,
        otherwise a newly launched and registered one. */
    method Prepare(vm: string, arch: string, distro: string, image: string, enforcePcbios: bool, host: Host)
      returns (r: Result<(bool, VmEntry)>)
      requires Valid()
      modifies this
      ensures r == Prepared(old(vms), vm, arch, distro, image, enforcePcbios, host)
      ensures r.Value? && !r.value.0 ==> vms == old(vms)[vm := r.value.1]
      ensures !(r.Value? && !r.value.0) ==> vms == old(vms)
      ensures Valid()
      ensures killed == old(killed)
    {
      var reuse := false;
      if vm in vms {
        var registered := vms[vm];
        if registered.cmdline == [] {
          return Raised("IndexError: list index out of range");
        }
        reuse := Contains(host.ps(registered.pid), registered.cmdline[0]);
      }
      if reuse {
        return Value((true, vms[vm]));
      }
      var launched := Launch(vm, arch, distro, image, enforcePcbios, host);
      if launched.Raised? {
        return Raised(launched.exception);
      }
      r := Value((false, launched.value));
    }

    /** The end of `vm_start` on a machine that is up and registered. */
    method Finish(vm: string, entry: VmEntry, skipModulecheck: bool, cmd: Option<string>, script: Option<string>,
                  keep: bool, host: Host)
      returns (r: Result<(string, string)>)
      requires Valid() && vm in vms && vms[vm] == entry
      modifies this
      ensures var o := Finished(old(vms), vm, entry, skipModulecheck, cmd, script, keep, host);
              r == o.result && vms == o.vms && killed == old(killed) + o.killed
      ensures Valid()
    {
      var verdict := RunTest(cmd, script, entry, skipModulecheck, host);
      if verdict.Raised? {
        return Raised(verdict.exception);
      }
      if verdict.value.Fail? {
        if !keep {
          var off := TurnOff(vm, host.kill);
          if off.Raised? {
            return Raised(off.exception);
          }
        }
        return Raised(verdict.value.message);
      }
      if !keep {
        var off := TurnOff(vm, host.kill);
        if off.Raised? {
          return Raised(off.exception);
        }
      }
      r := Value((verdict.value.stdout, verdict.value.stderr));
    }

    /** `vm_turn_on` and the registration after it: the entry of the new machine is stored
        under `vm`, replacing any earlier one, and the registry saved. */
    method Launch(vm: string, arch: string, distro: string, image: string, enforcePcbios: bool, host: Host)
      returns (r: Result<VmEntry>)
      requires Valid()
      modifies this
      ensures r == LaunchEntry(arch, distro, image, enforcePcbios, host)
      ensures r.Value? ==> vms == old(vms)[vm := r.value]
      ensures r.Raised? ==> vms == old(vms)
      ensures Valid()
      ensures killed == old(killed)
    {
      var cmdline := StartVm.FormatQemuCmdline(host.vars, arch, distro, image, host.bootLog, "", enforcePcbios,
                                               false, host.sshPort);
      if cmdline.Raised? {
        return Raised(cmdline.exception);
      }
      var entry := VmEntry(host.launchedPid, StartVm.WithNographic(cmdline.value), host.bootLog);
      vms := vms[vm := entry];
      Dump();
      r := Value(entry);
    }
  }

  // ---------------------------------------------------------------------------
  // What `vm_start` promises

  /** The end of `vm_start` touches no entry but its own and kills at most one process. */
  lemma BootedKeepsOtherEntries(up: map<string, VmEntry>, vm: string, reused: bool, entry: VmEntry,
                                skipModulecheck: bool, cmd: Option<string>, script: Option<string>, keep: bool,
                                host: Host)
    ensures var o := Booted(up, vm, reused, entry, skipModulecheck, cmd, script, keep, host);
            o.vms - {vm} == up - {vm} && |o.killed| <= 1
  {
  }

  /** `vm_start` touches no entry but its own and kills at most one process. */
  lemma StartKeepsOtherEntries(vms: map<string, VmEntry>, arch: string, distro: string, image: string,
                               enforcePcbios: bool, skipModulecheck: bool, cmd: Option<string>,
                               script: Option<string>, keep: bool, host: Host)
    ensures var vm := Fingerprint(arch, distro, image, enforcePcbios);
            var o := VmStart(vms, arch, distro, image, enforcePcbios, skipModulecheck, cmd, script, keep, host);
            o.vms - {vm} == vms - {vm} && |o.killed| <= 1
  {
    var vm := Fingerprint(arch, distro, image, enforcePcbios);
    match Prepared(vms, vm, arch, distro, image, enforcePcbios, host)
    case Raised(_) =>
    case Value((reused, entry)) =>
      var up := vms[vm := entry];
      assert up - {vm} == vms - {vm};
      BootedKeepsOtherEntries(up, vm, reused, entry, skipModulecheck, cmd, script, keep, host);
  }

  /** A machine whose process is still running is reused as registered: what is launched
      and what a boot wait would read make no difference, and only its own pid can be
      killed. */
  lemma StartReusesRunningMachine(vms: map<string, VmEntry>, arch: string, distro: string, image: string,
                                  enforcePcbios: bool, skipModulecheck: bool, cmd: Option<string>,
                                  script: Option<string>, keep: bool, host: Host,
                                  bootEvents: seq<BootEvent>, launchedPid: int, bootLog: string, sshPort: nat)
    requires Reuses(vms, Fingerprint(arch, distro, image, enforcePcbios), host.ps) == Value(true)
    ensures var vm := Fingerprint(arch, distro, image, enforcePcbios);
            var o := VmStart(vms, arch, distro, image, enforcePcbios, skipModulecheck, cmd, script, keep, host);
            var other := host.(bootEvents := bootEvents, launchedPid := launchedPid, bootLog := bootLog,
                               sshPort := sshPort);
            && o == Finished(vms, vm, vms[vm], skipModulecheck, cmd, script, keep, host)
            && o == VmStart(vms, arch, distro, image, enforcePcbios, skipModulecheck, cmd, script, keep, other)
            && (o.killed == [] || o.killed == [vms[vm].pid])
  {
    var vm := Fingerprint(arch, distro, image, enforcePcbios);
    assert vms[vm := vms[vm]] == vms;
  }

  /** A newly launched machine that never shows its login prompt is turned off and the test
      fails, whether or not it was to be kept. */
  lemma BootFailureRemovesEntry(vms: map<string, VmEntry>, arch: string, distro: string, image: string,
                                enforcePcbios: bool, skipModulecheck: bool, cmd: Option<string>,
                                script: Option<string>, keep: bool, host: Host)
    requires Reuses(vms, Fingerprint(arch, distro, image, enforcePcbios), host.ps) == Value(false)
    requires LaunchEntry(arch, distro, image, enforcePcbios, host).Value?
    requires !BootSucceeds(host.bootEvents) && host.kill(host.launchedPid)
    ensures var o := VmStart(vms, arch, distro, image, enforcePcbios, skipModulecheck, cmd, script, keep, host);
            && Fingerprint(arch, distro, image, enforcePcbios) !in o.vms
            && o.result == Raised(BootFailure) && o.killed == [host.launchedPid]
  {
  }

  /** A machine that is up and is not to be kept is turned off once the test step has
      run, whether the test passed or failed. */
  lemma NoKeepRemovesEntry(vms: map<string, VmEntry>, arch: string, distro: string, image: string,
                           enforcePcbios: bool, skipModulecheck: bool, cmd: Option<string>,
                           script: Option<string>, host: Host, reused: bool, entry: VmEntry)
    requires Prepared(vms, Fingerprint(arch, distro, image, enforcePcbios), arch, distro, image, enforcePcbios, host)
             == Value((reused, entry))
    requires reused || BootSucceeds(host.bootEvents)
    requires TestStep(cmd, script, entry, skipModulecheck, host).Value?
    ensures var o := VmStart(vms, arch, distro, image, enforcePcbios, skipModulecheck, cmd, script, false, host);
            var vm := Fingerprint(arch, distro, image, enforcePcbios);
            && (host.kill(entry.pid) ==> vm !in o.vms && o.killed == [entry.pid])
            && (!host.kill(entry.pid) ==> o.vms == vms[vm := entry] && o.result == Raised(NoProcess))
  {
  }

  /** A machine that is up and is to be kept stays registered whatever the test gives. */
  lemma KeepRetainsEntry(vms: map<string, VmEntry>, arch: string, distro: string, image: string,
                         enforcePcbios: bool, skipModulecheck: bool, cmd: Option<string>,
                         script: Option<string>, host: Host, reused: bool, entry: VmEntry)
    requires Prepared(vms, Fingerprint(arch, distro, image, enforcePcbios), arch, distro, image, enforcePcbios, host)
             == Value((reused, entry))
    requires reused || BootSucceeds(host.bootEvents)
    ensures var o := VmStart(vms, arch, distro, image, enforcePcbios, skipModulecheck, cmd, script, true, host);
            var vm := Fingerprint(arch, distro, image, enforcePcbios);
            o.vms == vms[vm := entry] && o.killed == []
  {
  }

  /** The end of `vm_start` returns exactly when the machine is up, the test step passes,
      and the machine is either kept or turned off without error. */
  lemma BootedSucceedsIff(up: map<string, VmEntry>, vm: string, reused: bool, entry: VmEntry,
                          skipModulecheck: bool, cmd: Option<string>, script: Option<string>, keep: bool,
                          host: Host)
    requires vm in up && up[vm] == entry
    ensures var o := Booted(up, vm, reused, entry, skipModulecheck, cmd, script, keep, host);
            var t := TestStep(cmd, script, entry, skipModulecheck, host);
            o.result.Value? <==>
              && (reused || BootSucceeds(host.bootEvents))
              && t.Value? && t.value.Pass? && (keep || host.kill(entry.pid))
              && o.result.value == (t.value.stdout, t.value.stderr)
  {
  }

  /** `vm_start` returns exactly when the machine is up, the test step passes, and the
      machine is either kept or turned off without error; it then returns the output of
      the remote command, or empty output when the boot log was checked. */
  lemma StartSucceedsIff(vms: map<string, VmEntry>, arch: string, distro: string, image: string,
                         enforcePcbios: bool, skipModulecheck: bool, cmd: Option<string>,
                         script: Option<string>, keep: bool, host: Host)
    ensures var o := VmStart(vms, arch, distro, image, enforcePcbios, skipModulecheck, cmd, script, keep, host);
            var p := Prepared(vms, Fingerprint(arch, distro, image, enforcePcbios), arch, distro, image,
                              enforcePcbios, host);
            o.result.Value? <==>
              && p.Value? && (p.value.0 || BootSucceeds(host.bootEvents))
              && var t := TestStep(cmd, script, p.value.1, skipModulecheck, host);
                 && t.Value? && t.value.Pass? && (keep || host.kill(p.value.1.pid))
                 && o.result.value == (t.value.stdout, t.value.stderr)
    ensures var o := VmStart(vms, arch, distro, image, enforcePcbios, skipModulecheck, cmd, script, keep, host);
            cmd.None? && script.None? && o.result.Value? ==> o.result.value == ("", "")
  {
    var vm := Fingerprint(arch, distro, image, enforcePcbios);
    match Prepared(vms, vm, arch, distro, image, enforcePcbios, host)
    case Raised(_) =>
    case Value((reused, entry)) =>
      BootedSucceedsIff(vms[vm := entry], vm, reused, entry, skipModulecheck, cmd, script, keep, host);
  }

  /** The argument `-nographic` and the network arguments before the forwarding are
      free of the forwarding tag. */
  lemma NoHostfwdWithoutH(s: string)
    requires forall j :: 0 <= j && j + |HostfwdTag| <= |s| ==> s[j] != 'h'
    ensures HostfwdPort(s).None?
  {
    var line := FirstLine(s);
    forall i: nat | i <= |line| ensures !OccursAt(line, HostfwdTag, i) {
      if i + |HostfwdTag| <= |line| {
        assert line[i..i + |HostfwdTag|][0] == line[i];
        assert line[i] == s[..|line|][i];
      }
    }
  }

  /** `-nographic` and the network arguments before the forwarding one mention no
      forwarding. */
  lemma AddedArgsHaveNoTag()
    ensures HostfwdPort("-nographic").None?
    ensures NoForwarding(["-device", "e1000,netdev=net0", "-netdev"])
  {
    assert HostfwdPort("-nographic").None? by { NoHostfwdWithoutH("-nographic"); }
    var net := ["-device", "e1000,netdev=net0", "-netdev"];
    forall k | 0 <= k < 3 ensures HostfwdPort(net[k]).None? {
      NoHostfwdWithoutH(net[k]);
    }
  }

  /** Inserting `-nographic` keeps the forwarding argument between the same neighbours. */
  lemma NographicAroundNetArgs(front: seq<string>, port: nat, disk: seq<string>)
    requires front != []
    ensures StartVm.WithNographic(front + StartVm.NetArgs(port) + disk)
            == [front[0], "-nographic"] + front[1..] + ["-device", "e1000,netdev=net0", "-netdev"]
               + [StartVm.NetdevArg(port)] + disk
  {
    var cmd := front + StartVm.NetArgs(port) + disk;
    assert cmd[0] == front[0];
    assert cmd[1..] == front[1..] + ["-device", "e1000,netdev=net0", "-netdev"] + [StartVm.NetdevArg(port)] + disk;
  }

  /** The launched command line: the header, boot and output arguments, then the network
      arguments, then the disk arguments. */
  lemma LaunchedCmdline(arch: string, distro: string, image: string, enforcePcbios: bool, host: Host)
    requires LaunchEntry(arch, distro, image, enforcePcbios, host).Value?
    ensures var vars := host.vars;
            var imageType := Words(StartVm.Var(vars, "IMAGE_FSTYPES"))[0];
            var front := StartVm.HeaderArgs(vars) + StartVm.BootArgs(vars, imageType).value
                         + StartVm.OutputArgs(host.bootLog, "");
            var disk := StartVm.DiskArgs(StartVm.Var(vars, "QEMU_DISK_ARGS"),
                                         StartVm.RootfsPath(vars, StartVm.RootfsImageName(image, distro, arch, imageType)),
                                         false, enforcePcbios);
            && front != []
            && LaunchEntry(arch, distro, image, enforcePcbios, host).value.cmdline
               == StartVm.WithNographic(front + StartVm.NetArgs(host.sshPort) + disk)
  {
  }

  /** A command line built around the network arguments, with `-nographic` inserted, yields
      the forwarded port when no argument before them mentions a forwarding. */
  lemma PortAfterFront(front: seq<string>, port: nat, disk: seq<string>)
    requires front != []
    requires NoForwarding(front)
    ensures SshPortOf(StartVm.WithNographic(front + StartVm.NetArgs(port) + disk)) == Decimal(port)
  {
    NographicAroundNetArgs(front, port, disk);
    var net := ["-device", "e1000,netdev=net0", "-netdev"];
    AddedArgsHaveNoTag();
    assert NoForwarding([front[0], "-nographic"]);
    assert NoForwarding(front[1..]) by {
      forall k | 0 <= k < |front| - 1 ensures HostfwdPort(front[1..][k]).None? {
        assert front[1..][k] == front[k + 1];
      }
    }
    assert NoForwarding(net);
    NoForwardingConcat([front[0], "-nographic"], front[1..]);
    NoForwardingConcat([front[0], "-nographic"] + front[1..], net);
    var before := [front[0], "-nographic"] + front[1..] + net;
    SshPortOfCmdline(before, port, disk);
  }

  /** The ssh port `vm_start` finds in the command line of a machine it launched is the
      port `format_qemu_cmdline` forwarded, when no argument before the network ones
      mentions a forwarding. */
  lemma LaunchedPortIsForwarded(arch: string, distro: string, image: string, enforcePcbios: bool, host: Host)
    requires LaunchEntry(arch, distro, image, enforcePcbios, host).Value?
    requires var imageType := Words(StartVm.Var(host.vars, "IMAGE_FSTYPES"))[0];
             var front := StartVm.HeaderArgs(host.vars) + StartVm.BootArgs(host.vars, imageType).value
                          + StartVm.OutputArgs(host.bootLog, "");
             NoForwarding(front)
    ensures SshPortOf(LaunchEntry(arch, distro, image, enforcePcbios, host).value.cmdline) == Decimal(host.sshPort)
  {
    var vars := host.vars;
    var imageType := Words(StartVm.Var(vars, "IMAGE_FSTYPES"))[0];
    var front := StartVm.HeaderArgs(vars) + StartVm.BootArgs(vars, imageType).value
                 + StartVm.OutputArgs(host.bootLog, "");
    var disk := StartVm.DiskArgs(StartVm.Var(vars, "QEMU_DISK_ARGS"),
                                 StartVm.RootfsPath(vars, StartVm.RootfsImageName(image, distro, arch, imageType)),
                                 false, enforcePcbios);
    LaunchedCmdline(arch, distro, image, enforcePcbios, host);
    PortAfterFront(front, host.sshPort, disk);
  }
}
