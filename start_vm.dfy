/** The QEMU command line for an Isar image (testsuite/start_vm.py).

    The values the source reads from `bitbake -e` arrive here as a map from variable name to
    value. A name missing from the map reads as `''`, which is what `get_bitbake_var` returns
    for a variable that no line assigns. The SSH port the source obtains by binding a socket is
    a parameter. */
module StartVm {
  import opened Outcomes
  import opened Text

  // ---------------------------------------------------------------------------
  // `get_bitbake_var`

  /** The line assigns variable `name`: it starts with `name=`. */
  predicate Assigns(line: string, name: string) {
    StartsWith(line, name + "=")
  }

  /** `line.split('"')[1]`: the text after the first `"`, up to the next `"` or the end. */
  function QuotedValue(line: string): (v: string)
    requires '"' in line
    ensures '"' !in v
    ensures var i := FirstIndex(line, '"');
            && StartsWith(line[i + 1..], v)
            && (i + 1 + |v| == |line| || line[i + 1 + |v|] == '"')
  {
    var i := FirstIndex(line, '"');
    var after := line[i + 1..];
    if '"' in after then after[..FirstIndex(after, '"')] else after
  }

  /** The index of the last line that assigns `name`. */
  function LastAssignment(lines: seq<string>, name: string): (k: Option<nat>)
    ensures k.None? <==> forall i :: 0 <= i < |lines| ==> !Assigns(lines[i], name)
    ensures k.Some? ==> k.value < |lines| && Assigns(lines[k.value], name)
    ensures k.Some? ==> forall i :: k.value < i < |lines| ==> !Assigns(lines[i], name)
  {
    if lines == [] then None
    else if Assigns(lines[|lines| - 1], name) then Some(|lines| - 1)
    else LastAssignment(lines[..|lines| - 1], name)
  }

  /** The line assigns `name` but holds no `"`, so that `split('"')[1]` raises. */
  predicate Unquoted(line: string, name: string) {
    Assigns(line, name) && '"' !in line
  }

  /** The value read for `name` from the lines of `bitbake -e`: `IndexError` if an assigning
      line has no `"`; otherwise the quoted value of the last assigning line, or `''` when no
      line assigns it. */
  function BitbakeVar(lines: seq<string>, name: string): Result<string> {
    if exists i :: 0 <= i < |lines| && Unquoted(lines[i], name) then
      Raised("IndexError: list index out of range")
    else Value(AssignedValue(lines, name))
  }

  /** The value of `name` in lines none of which raises: the quoted value of the last
      assigning line, or `''` when no line assigns it. */
  function AssignedValue(lines: seq<string>, name: string): string {
    match LastAssignment(lines, name)
    case None => ""
    case Some(k) => if '"' in lines[k] then QuotedValue(lines[k]) else ""
  }

  /** One more line either gives the variable its value or leaves the value as it was. */
  lemma AssignedValueStep(lines: seq<string>, i: nat, name: string)
    requires i < |lines|
    ensures AssignedValue(lines[..i + 1], name)
            == if !Assigns(lines[i], name) then AssignedValue(lines[..i], name)
               else if '"' in lines[i] then QuotedValue(lines[i]) else ""
  {
    assert lines[..i + 1][..i] == lines[..i];
    assert lines[..i + 1][i] == lines[i];
  }

  /** `get_bitbake_var(output, var)`: the loop over `output.splitlines()` that overwrites
      its result on every assigning line. */
  method GetBitbakeVar(output: string, name: string) returns (r: Result<string>)
    ensures r == BitbakeVar(Lines(output), name)
  {
    var lines := Lines(output);
    var ret := "";
    for i := 0 to |lines|
      invariant BitbakeVar(lines[..i], name) == Value(ret)
    {
      BitbakeVarStep(lines, i, name);
      if Assigns(lines[i], name) {
        if '"' !in lines[i] {
          UnquotedRaises(lines, i, name);
          return Raised("IndexError: list index out of range");
        }
        ret := QuotedValue(lines[i]);
      }
    }
    assert lines[..|lines|] == lines;
    r := Value(ret);
  }

  /** One more line raises, sets the value, or leaves it as it was. */
  lemma BitbakeVarStep(lines: seq<string>, i: nat, name: string)
    requires i < |lines| && BitbakeVar(lines[..i], name).Value?
    ensures BitbakeVar(lines[..i + 1], name)
            == if Unquoted(lines[i], name) then Raised("IndexError: list index out of range")
               else if Assigns(lines[i], name) then Value(QuotedValue(lines[i]))
               else BitbakeVar(lines[..i], name)
  {
    AssignedValueStep(lines, i, name);
    var pre := lines[..i + 1];
    assert pre[..i] == lines[..i];
    assert pre[i] == lines[i];
    if !Unquoted(lines[i], name) {
      forall j | 0 <= j < i + 1 ensures !Unquoted(pre[j], name) {
        if j < i {
          assert pre[j] == lines[..i][j];
        }
      }
    } else {
      assert Unquoted(pre[i], name);
    }
  }

  /** One assigning line without a quote makes the whole read raise. */
  lemma UnquotedRaises(lines: seq<string>, i: nat, name: string)
    requires i < |lines| && Assigns(lines[i], name) && '"' !in lines[i]
    ensures BitbakeVar(lines, name) == Raised("IndexError: list index out of range")
  {
    assert Unquoted(lines[i], name);
  }

  /** A line for a longer name, such as `VARX=` for `VAR`, does not assign the shorter one. */
  lemma LongerNameDoesNotAssign(name: string, c: char, rest: string)
    requires c != '='
    ensures !Assigns(name + [c] + rest, name)
  {
    assert (name + [c] + rest)[|name|] == c;
  }

  /** The rendering of an assignment in the output of `bitbake -e`. */
  function Assignment(name: string, value: string): string {
    name + "=\"" + value + "\""
  }

  /** Reading back a rendered assignment that no later line overrides gives its value. */
  lemma BitbakeVarOfAssignment(before: seq<string>, name: string, value: string, after: seq<string>)
    requires '"' !in name && '"' !in value
    requires forall i :: 0 <= i < |before| ==> !Unquoted(before[i], name)
    requires forall i :: 0 <= i < |after| ==> !Assigns(after[i], name)
    ensures BitbakeVar(before + [Assignment(name, value)] + after, name) == Value(value)
  {
    var lines := before + [Assignment(name, value)] + after;
    var k := |before|;
    QuotedValueOfAssignment(name, value);
    assert lines[k] == Assignment(name, value);
    forall i | k < i < |lines| ensures !Assigns(lines[i], name) {
      assert lines[i] == after[i - k - 1];
    }
    forall i | 0 <= i < |lines| ensures !Unquoted(lines[i], name) {
      if i < k {
        assert lines[i] == before[i];
      } else if i > k {
        assert lines[i] == after[i - k - 1];
      }
    }
    assert LastAssignment(lines, name) == Some(k);
  }

  /** A rendered assignment assigns its variable, and its quoted value is the value. */
  lemma QuotedValueOfAssignment(name: string, value: string)
    requires '"' !in name && '"' !in value
    ensures Assigns(Assignment(name, value), name)
    ensures '"' in Assignment(name, value) && QuotedValue(Assignment(name, value)) == value
  {
    var line := Assignment(name, value);
    assert line[..|name + "="|] == name + "=";
    assert FirstIndex(line, '"') == |name| + 1 by {
      forall j | 0 <= j < |name| ensures line[j] != '"' {
        assert line[j] == name[j];
      }
      assert line[|name|] == '=';
      assert line[|name| + 1] == '"';
    }
    var tail := line[|name| + 2..];
    assert tail == value + "\"";
    assert FirstIndex(tail, '"') == |value| by {
      forall j | 0 <= j < |value| ensures tail[j] != '"' {
        assert tail[j] == value[j];
      }
    }
    assert tail[..|value|] == value;
  }

  // ---------------------------------------------------------------------------
  // `format_qemu_cmdline`

  /** `get_bitbake_var` on the environment, where an unassigned variable reads as `''`. */
  function Var(vars: map<string, string>, name: string): string {
    if name in vars then vars[name] else ""
  }

  /** The base distribution of a release: Ubuntu for `jammy` and `focal`, Debian otherwise. */
  function DistroBase(distro: string): (base: string)
    ensures base == "ubuntu" <==> distro == "jammy" || distro == "focal"
    ensures base == "ubuntu" || base == "debian"
  {
    if distro == "jammy" || distro == "focal" then "ubuntu" else "debian"
  }

  /** The Isar name of a distribution, such as `debian-bullseye`. */
  function IsarDistro(distro: string): string {
    DistroBase(distro) + "-" + distro
  }

  /** The file name of the root file system image as Isar deploys it:
      `<image>-<base>-<distro>-qemu<arch>.<type>`. */
  function RootfsImageName(image: string, distro: string, arch: string, imageType: string): (name: string)
    ensures StartsWith(name, image + "-" + IsarDistro(distro) + "-qemu" + arch)
    ensures |name| > |imageType| && name[|name| - |imageType| - 1..] == "." + imageType
  {
    image + "-" + DistroBase(distro) + "-" + distro + "-qemu" + arch + "." + imageType
  }

  /** The arguments that boot the image: kernel, initrd and kernel command line for `ext4`,
      a throw-away snapshot for `wic`, and `ValueError` for any other type. */
  function BootArgs(vars: map<string, string>, imageType: string): Result<seq<string>> {
    var deploy := Var(vars, "DEPLOY_DIR_IMAGE");
    if imageType == "ext4" then
      var initrdFile := Var(vars, "INITRD_DEPLOY_FILE");
      var initrd := if initrdFile == "" then "/dev/null" else deploy + "/" + initrdFile;
      var kargs := ["-append", "\"console=" + Var(vars, "MACHINE_SERIAL") + " root=/dev/"
                               + Var(vars, "QEMU_ROOTFS_DEV") + " rw\""];
      Value(["-kernel", deploy + "/" + Var(vars, "KERNEL_IMAGE"), "-initrd", initrd] + kargs)
    else if imageType == "wic" then Value(["-snapshot"])
    else Raised("ValueError: Invalid image type: " + imageType)
  }

  /** The serial console and monitor redirection for a log file `out`, and the pid file `pid`;
      each group only when its string is non-empty (`None` and `''` behave alike). */
  function OutputArgs(out: string, pid: string): seq<string> {
    (if out != "" then ["-chardev", "stdio,id=ch0,logfile=" + out, "-serial", "chardev:ch0", "-monitor", "none"] else [])
    + (if pid != "" then ["-pidfile", pid] else [])
  }

  /** The argument that forwards host port `port` to the guest's SSH port. */
  function NetdevArg(port: nat): string {
    "user,id=net0,hostfwd=tcp::" + Decimal(port) + "-:22"
  }

  /** The network card and the user-mode network with SSH forwarding. */
  function NetArgs(port: nat): seq<string> {
    ["-device", "e1000,netdev=net0", "-netdev", NetdevArg(port)]
  }

  /** The placeholder in `QEMU_DISK_ARGS` that stands for the root file system image. */
  const RootfsPlaceholder := "##ROOTFS_IMAGE##"

  /** The secure-boot variable store drive. */
  const SecureBootDrive := ["-drive", "if=pflash,format=raw,unit=1,file=\"/usr/share/OVMF/OVMF_VARS_4M.ms.fd\""]

  /** `del args[i:i+2]` at the first `-bios`: the option and its value go, nothing else. */
  function WithoutBios(args: seq<string>): (r: seq<string>)
    ensures "-bios" !in args ==> r == args
    ensures "-bios" in args ==>
              var i := FirstIndex(args, "-bios");
              && |r| == |args| - (if i + 1 < |args| then 2 else 1)
              && r[..i] == args[..i]
              && r[i..] == args[if i + 1 < |args| then i + 2 else i + 1..]
  {
    if "-bios" in args then
      var i := FirstIndex(args, "-bios");
      args[..i] + args[if i + 2 <= |args| then i + 2 else |args|..]
    else args
  }

  /** The disk arguments: the value of `QEMU_DISK_ARGS` with the placeholder replaced by the
      path of the root file system image and split on whitespace, the secure-boot drive
      appended, and the first `-bios` option dropped when a PC BIOS boot is enforced. */
  function DiskArgs(qemuDiskArgs: string, rootfsPath: string, secureboot: bool, enforcePcbios: bool): seq<string> {
    var disk := Words(ReplaceAll(qemuDiskArgs, RootfsPlaceholder, rootfsPath))
                + (if secureboot then SecureBootDrive else []);
    if enforcePcbios then WithoutBios(disk) else disk
  }

  /** The path of the root file system image in the deploy directory. */
  function RootfsPath(vars: map<string, string>, rootfsImage: string): string {
    Var(vars, "DEPLOY_DIR_IMAGE") + "/" + rootfsImage
  }

  /** The emulator, its memory, and the machine and CPU models when they are set. */
  function HeaderArgs(vars: map<string, string>): seq<string> {
    ["qemu-system-" + Var(vars, "QEMU_ARCH"), "-m", "1024M"]
    + (if Var(vars, "QEMU_MACHINE") != "" then ["-M", Var(vars, "QEMU_MACHINE")] else [])
    + (if Var(vars, "QEMU_CPU") != "" then ["-cpu", Var(vars, "QEMU_CPU")] else [])
  }

  /** The command line `format_qemu_cmdline` returns, or the exception it raises. */
  function QemuCmdline(vars: map<string, string>, arch: string, distro: string, image: string,
                       out: string, pid: string, enforcePcbios: bool, secureboot: bool, port: nat): Result<seq<string>>
  {
    match FirstWord(Var(vars, "IMAGE_FSTYPES"))
    case Raised(e) => Raised(e)
    case Value(imageType) =>
      match BootArgs(vars, imageType)
      case Raised(e) => Raised(e)
      case Value(boot) =>
        Value(HeaderArgs(vars) + boot + OutputArgs(out, pid) + NetArgs(port)
              + DiskArgs(Var(vars, "QEMU_DISK_ARGS"), RootfsPath(vars, RootfsImageName(image, distro, arch, imageType)),
                         secureboot, enforcePcbios))
  }

  /** Regrouping a concatenation of argument lists. */
  lemma AppendAssoc(a: seq<string>, b: seq<string>, c: seq<string>)
    ensures (a + b) + c == a + (b + c)
  {
  }

  /** The disk arguments of `format_qemu_cmdline`: the placeholder replaced by `rootfsPath`,
      the string split, the secure-boot drive appended, and `-bios` and its value deleted. */
  method FormatDiskArgs(qemuDiskArgs: string, rootfsPath: string, secureboot: bool, enforcePcbios: bool)
    returns (diskArgs: seq<string>)
    ensures diskArgs == DiskArgs(qemuDiskArgs, rootfsPath, secureboot, enforcePcbios)
  {
    diskArgs := Words(ReplaceAll(qemuDiskArgs, RootfsPlaceholder, rootfsPath));
    if secureboot {
      diskArgs := diskArgs + SecureBootDrive;
    }
    assert diskArgs == DiskArgs(qemuDiskArgs, rootfsPath, secureboot, false);
    if enforcePcbios && "-bios" in diskArgs {
      var biosIdx := FirstIndex(diskArgs, "-bios");
      var stop := if biosIdx + 2 <= |diskArgs| then biosIdx + 2 else |diskArgs|;
      assert WithoutBios(diskArgs) == diskArgs[..biosIdx] + diskArgs[stop..];
      diskArgs := diskArgs[..biosIdx] + diskArgs[stop..];
    }
  }

  /** The branch of `format_qemu_cmdline` on the image type, which starts its extra
      arguments or raises `ValueError`. */
  method FormatBootArgs(vars: map<string, string>, imageType: string) returns (r: Result<seq<string>>)
    ensures r == BootArgs(vars, imageType)
  {
    var deployDirImage := Var(vars, "DEPLOY_DIR_IMAGE");
    var extraArgs: seq<string>;
    if imageType == "ext4" {
      var kernelImage := deployDirImage + "/" + Var(vars, "KERNEL_IMAGE");
      var initrdImage := Var(vars, "INITRD_DEPLOY_FILE");
      if initrdImage == "" {
        initrdImage := "/dev/null";
      } else {
        initrdImage := deployDirImage + "/" + initrdImage;
      }
      var serial := Var(vars, "MACHINE_SERIAL");
      var rootDev := Var(vars, "QEMU_ROOTFS_DEV");
      var kargs := ["-append", "\"console=" + serial + " root=/dev/" + rootDev + " rw\""];
      extraArgs := ["-kernel", kernelImage, "-initrd", initrdImage];
      extraArgs := extraArgs + kargs;
    } else if imageType == "wic" {
      extraArgs := ["-snapshot"];
    } else {
      return Raised("ValueError: Invalid image type: " + imageType);
    }

    r := Value(extraArgs);
  }

  /** The output redirections `format_qemu_cmdline` appends to its extra arguments. */
  method ExtendOutputArgs(args: seq<string>, out: string, pid: string) returns (extraArgs: seq<string>)
    ensures extraArgs == args + OutputArgs(out, pid)
  {
    extraArgs := args;
    if out != "" {
      extraArgs := extraArgs + ["-chardev", "stdio,id=ch0,logfile=" + out];
      extraArgs := extraArgs + ["-serial", "chardev:ch0"];
      extraArgs := extraArgs + ["-monitor", "none"];
    }
    assert extraArgs == args + OutputArgs(out, "");
    if pid != "" {
      extraArgs := extraArgs + ["-pidfile", pid];
    }
    assert OutputArgs(out, pid) == OutputArgs(out, "") + (if pid != "" then ["-pidfile", pid] else []);
  }

  /** `format_qemu_cmdline(arch, build, distro, image, out, pid, enforce_pcbios, secureboot)`
      building its lists by successive `extend`s, with `port` the SSH port it bound. The
      image name is the one Isar deploys (see `QemuCmdlineAsWritten`). */
  method FormatQemuCmdline(vars: map<string, string>, arch: string, distro: string, image: string,
                           out: string, pid: string, enforcePcbios: bool, secureboot: bool, port: nat)
    returns (r: Result<seq<string>>)
    ensures r == QemuCmdline(vars, arch, distro, image, out, pid, enforcePcbios, secureboot, port)
  {
    var fstypes := FirstWord(Var(vars, "IMAGE_FSTYPES"));
    if fstypes.Raised? {
      return Raised(fstypes.exception);
    }
    var imageType := fstypes.value;
    var deployDirImage := Var(vars, "DEPLOY_DIR_IMAGE");
    var rootfsImage := RootfsImageName(image, distro, arch, imageType);

    var bootArgs := FormatBootArgs(vars, imageType);
    if bootArgs.Raised? {
      return Raised(bootArgs.exception);
    }
    var extraArgs := bootArgs.value;
    ghost var boot := extraArgs;
    var qemuArch := Var(vars, "QEMU_ARCH");
    var qemuMachine := Var(vars, "QEMU_MACHINE");
    var qemuCpu := Var(vars, "QEMU_CPU");
    var qemuDiskArgs := Var(vars, "QEMU_DISK_ARGS");

    extraArgs := ExtendOutputArgs(extraArgs, out, pid);

    var diskArgs := FormatDiskArgs(qemuDiskArgs, deployDirImage + "/" + rootfsImage, secureboot, enforcePcbios);

    ghost var beforeNet := extraArgs;
    extraArgs := extraArgs + ["-device", "e1000,netdev=net0"];
    extraArgs := extraArgs + ["-netdev", "user,id=net0,hostfwd=tcp::" + Decimal(port) + "-:22"];
    assert extraArgs == beforeNet + NetArgs(port);

    var cmd := ["qemu-system-" + qemuArch, "-m", "1024M"];
    if qemuMachine != "" {
      cmd := cmd + ["-M", qemuMachine];
    }
    if qemuCpu != "" {
      cmd := cmd + ["-cpu", qemuCpu];
    }
    assert cmd == HeaderArgs(vars);
    cmd := cmd + extraArgs;
    cmd := cmd + diskArgs;
    AppendAssoc(HeaderArgs(vars), boot, OutputArgs(out, pid));
    AppendAssoc(HeaderArgs(vars), boot + OutputArgs(out, pid), NetArgs(port));
    r := Value(cmd);
  }

  /** `format_qemu_cmdline` as written: after reading the image type it evaluates the image
      file name, whose expression names `machine`, neither a parameter nor a global of
      start_vm.py, so the call raises `NameError` whenever it gets that far. */
  function QemuCmdlineAsWritten(vars: map<string, string>, arch: string, distro: string, image: string,
                                out: string, pid: string, enforcePcbios: bool, secureboot: bool, port: nat): (r: Result<seq<string>>)
    ensures r.Raised?
  {
    match FirstWord(Var(vars, "IMAGE_FSTYPES"))
    case Raised(e) => Raised(e)
    case Value(_) => Raised("NameError: name 'machine' is not defined")
  }

  /** The variables of an environment that only sets `IMAGE_FSTYPES` to `wic`. */
  lemma WicOnlyVars()
    ensures var vars := map["IMAGE_FSTYPES" := "wic"];
            && FirstWord(Var(vars, "IMAGE_FSTYPES")) == Value("wic")
            && Var(vars, "QEMU_DISK_ARGS") == ""
            && HeaderArgs(vars) == ["qemu-system-", "-m", "1024M"]
            && BootArgs(vars, "wic") == Value(["-snapshot"])
  {
    var vars := map["IMAGE_FSTYPES" := "wic"];
    assert FirstWord("wic") == Value("wic") by {
      WordsOfJoin(["wic"]);
      assert Join(["wic"], " ") == "wic";
    }
    assert Var(vars, "IMAGE_FSTYPES") == "wic";
    assert |"QEMU_ARCH"| != |"IMAGE_FSTYPES"|;
    assert Var(vars, "QEMU_ARCH") == "";
    assert Var(vars, "QEMU_MACHINE") == "" && Var(vars, "QEMU_CPU") == "" && Var(vars, "QEMU_DISK_ARGS") == "";
    assert "qemu-system-" + Var(vars, "QEMU_ARCH") == "qemu-system-";
  }

  /** A `wic` image in an environment that sets nothing else: the command line as written
      raises `NameError`, while the corrected one is the header, the snapshot flag and the
      network arguments. */
  lemma WicImageAsWrittenRaises(arch: string, distro: string, image: string, port: nat)
    ensures var vars := map["IMAGE_FSTYPES" := "wic"];
            && QemuCmdlineAsWritten(vars, arch, distro, image, "", "", false, false, port)
               == Raised("NameError: name 'machine' is not defined")
            && QemuCmdline(vars, arch, distro, image, "", "", false, false, port)
               == Value(["qemu-system-", "-m", "1024M", "-snapshot"] + NetArgs(port))
  {
    var vars := map["IMAGE_FSTYPES" := "wic"];
    WicOnlyVars();
    var path := RootfsPath(vars, RootfsImageName(image, distro, arch, "wic"));
    assert DiskArgs("", path, false, false) == [] by {
      assert ReplaceAll("", RootfsPlaceholder, path) == "";
      assert Words("") == [];
    }
    var cmd := HeaderArgs(vars) + ["-snapshot"] + OutputArgs("", "") + NetArgs(port) + DiskArgs("", path, false, false);
    assert QemuCmdline(vars, arch, distro, image, "", "", false, false, port) == Value(cmd);
    assert cmd == ["qemu-system-", "-m", "1024M", "-snapshot"] + NetArgs(port);
  }

  // ---------------------------------------------------------------------------
  // `start_qemu`

  /** `cmdline.insert(1, '-nographic')`. */
  function WithNographic(cmd: seq<string>): (r: seq<string>)
    ensures |r| == |cmd| + 1
    ensures cmd == [] ==> r == ["-nographic"]
    ensures cmd != [] ==> r[0] == cmd[0] && r[1] == "-nographic" && r[2..] == cmd[1..]
  {
    if cmd == [] then ["-nographic"] else [cmd[0], "-nographic"] + cmd[1..]
  }

  /** Taking the inserted flag out again gives back the original command line. */
  lemma WithNographicRemovable(cmd: seq<string>)
    requires cmd != []
    ensures var r := WithNographic(cmd); r[..1] + r[2..] == cmd
  {
    assert cmd == [cmd[0]] + cmd[1..];
  }

  // ---------------------------------------------------------------------------
  // Properties of the command line

  /** Only `ext4` and `wic` images can be started, and an empty `IMAGE_FSTYPES` raises
      `IndexError`; otherwise the image type selects exactly its boot arguments. */
  lemma BootArgsByImageType(vars: map<string, string>, imageType: string)
    ensures BootArgs(vars, imageType).Raised? <==> imageType != "ext4" && imageType != "wic"
    ensures imageType == "wic" ==> BootArgs(vars, imageType) == Value(["-snapshot"])
    ensures imageType == "ext4" ==>
              var args := BootArgs(vars, imageType).value;
              && |args| == 6 && args[0] == "-kernel" && args[2] == "-initrd" && args[4] == "-append"
              && args[1] == Var(vars, "DEPLOY_DIR_IMAGE") + "/" + Var(vars, "KERNEL_IMAGE")
              && (args[3] == "/dev/null" <== Var(vars, "INITRD_DEPLOY_FILE") == "")
              && (Var(vars, "INITRD_DEPLOY_FILE") != "" ==>
                    args[3] == Var(vars, "DEPLOY_DIR_IMAGE") + "/" + Var(vars, "INITRD_DEPLOY_FILE"))
  {
  }

  /** The command line fails exactly when `IMAGE_FSTYPES` has no word or its first word is
      neither `ext4` nor `wic`. */
  lemma QemuCmdlineRaisesIff(vars: map<string, string>, arch: string, distro: string, image: string,
                             out: string, pid: string, enforcePcbios: bool, secureboot: bool, port: nat)
    ensures QemuCmdline(vars, arch, distro, image, out, pid, enforcePcbios, secureboot, port).Raised?
            <==> Words(Var(vars, "IMAGE_FSTYPES")) == []
                 || (Words(Var(vars, "IMAGE_FSTYPES"))[0] != "ext4" && Words(Var(vars, "IMAGE_FSTYPES"))[0] != "wic")
  {
  }

  /** The command line is the header, the boot arguments, the output redirections, the network
      arguments ending in the SSH forwarding, and then the disk arguments, in this order. */
  lemma QemuCmdlineOrder(vars: map<string, string>, arch: string, distro: string, image: string,
                         out: string, pid: string, enforcePcbios: bool, secureboot: bool, port: nat)
    requires QemuCmdline(vars, arch, distro, image, out, pid, enforcePcbios, secureboot, port).Value?
    ensures var cmd := QemuCmdline(vars, arch, distro, image, out, pid, enforcePcbios, secureboot, port).value;
            var imageType := Words(Var(vars, "IMAGE_FSTYPES"))[0];
            var head := HeaderArgs(vars) + BootArgs(vars, imageType).value + OutputArgs(out, pid) + NetArgs(port);
            && cmd[..3] == ["qemu-system-" + Var(vars, "QEMU_ARCH"), "-m", "1024M"]
            && (Var(vars, "QEMU_MACHINE") != "" ==> cmd[3..5] == ["-M", Var(vars, "QEMU_MACHINE")])
            && cmd[..|head|] == head
            && cmd[|head| - 1] == NetdevArg(port)
            && cmd[|head|..] == DiskArgs(Var(vars, "QEMU_DISK_ARGS"), RootfsPath(vars, RootfsImageName(image, distro, arch, imageType)),
                                         secureboot, enforcePcbios)
  {
    var cmd := QemuCmdline(vars, arch, distro, image, out, pid, enforcePcbios, secureboot, port).value;
    var imageType := Words(Var(vars, "IMAGE_FSTYPES"))[0];
    var head := HeaderArgs(vars) + BootArgs(vars, imageType).value + OutputArgs(out, pid) + NetArgs(port);
    var disk := DiskArgs(Var(vars, "QEMU_DISK_ARGS"), RootfsPath(vars, RootfsImageName(image, distro, arch, imageType)),
                         secureboot, enforcePcbios);
    assert cmd == head + disk;
    assert cmd[..|head|] == head;
    assert cmd[|head|..] == disk;
    assert head[..3] == HeaderArgs(vars)[..3];
  }

  /** The SSH forwarding argument is part of every command line that is built. */
  lemma NetdevArgInCmdline(vars: map<string, string>, arch: string, distro: string, image: string,
                           out: string, pid: string, enforcePcbios: bool, secureboot: bool, port: nat)
    requires QemuCmdline(vars, arch, distro, image, out, pid, enforcePcbios, secureboot, port).Value?
    ensures NetdevArg(port) in QemuCmdline(vars, arch, distro, image, out, pid, enforcePcbios, secureboot, port).value
  {
    QemuCmdlineOrder(vars, arch, distro, image, out, pid, enforcePcbios, secureboot, port);
    var cmd := QemuCmdline(vars, arch, distro, image, out, pid, enforcePcbios, secureboot, port).value;
    var imageType := Words(Var(vars, "IMAGE_FSTYPES"))[0];
    var head := HeaderArgs(vars) + BootArgs(vars, imageType).value + OutputArgs(out, pid) + NetArgs(port);
    assert cmd[|head| - 1] == NetdevArg(port);
  }

  /** The first placeholder in `QEMU_DISK_ARGS` becomes the path of the root file system image
      in the deploy directory, before the string is split into words. */
  lemma RootfsPlaceholderReplaced(before: string, after: string, rootfsPath: string)
    requires forall i: nat :: i < |before| ==> !OccursAt(before + RootfsPlaceholder + after, RootfsPlaceholder, i)
    ensures DiskArgs(before + RootfsPlaceholder + after, rootfsPath, false, false)
            == Words(before + rootfsPath + ReplaceAll(after, RootfsPlaceholder, rootfsPath))
  {
    var q := before + RootfsPlaceholder + after;
    var replaced := before + rootfsPath + ReplaceAll(after, RootfsPlaceholder, rootfsPath);
    assert ReplaceAll(q, RootfsPlaceholder, rootfsPath) == replaced by {
      ReplaceFirst(before, RootfsPlaceholder, after, rootfsPath);
    }
    assert DiskArgs(q, rootfsPath, false, false) == Words(replaced) + [];
    assert Words(replaced) + [] == Words(replaced);
  }
}
