# Isar CI test harness: dependency gate, QEMU launch and VM lifecycle

This project is a Dafny model of the core of the Isar CI test suite (`testsuite/`). The suite
builds Isar images with bitbake, boots them under QEMU and runs commands in them over SSH.
The model covers these parts:

- **Dependency gate** (`testsuite/seeds.py`, module `Seeds`). An upstream "build" test
  publishes `yes` on its channel when it is relevant. It then publishes `pass` or `fail`.
  A downstream "run" test drains the one redis subscription that the whole test process
  shares. In bound mode it first gives the `yes` a bounded number of polls, then waits for
  the signal. It either runs its queued task or cancels itself with a fixed message, and
  `check_status` turns that outcome into cancel, fail or nothing. The subscription is a
  `Subscription` class whose `backlog` is consumed. `PerformRun` is the method with the
  source's two polling loops. It is proved against the functions `AwaitRelevance`,
  `AwaitSignal`, `Decide` and `Report`, and the gate's properties are lemmas about those
  functions.
- **QEMU command line** (`testsuite/start_vm.py`, module `StartVm`):
  - `get_bitbake_var`: a loop over the lines of `bitbake -e`, proved against `BitbakeVar`;
  - `format_qemu_cmdline`: a method built from successive `extend`s, proved against
    `QemuCmdline`;
  - the `-nographic` insertion.
- **Build directory** (`testsuite/cibuilder.py`, module `CiConfig`). A `Builder` class owns
  the process environment, the bitbake options and the text of `local.conf`. Its methods are:
  - `init`'s parse of the `env` output;
  - `configure`'s option list and the `for … else` scan that appends
    `include ci_build.conf`;
  - the `bitbake` command line and its failure.
- **Remote execution** (`testsuite/cibuilder.py`, module `CiRemote`): the ssh prefix,
  `exec_cmd`, `run_script`'s split of the script line, `wait_connection`'s
  three-successes-in-a-row loop, and `remote_run`'s gating.
- **VM lifecycle** (`testsuite/cibuilder.py`, module `CiVm`). A `VmRegistry` class holds
  the registry of running machines (`vm_dict`), the copy saved in `vm_dict_file`, and the
  pids killed. Its methods are `vm_turn_off`, `vm_dump_dict` and `vm_start`. `vm_start` is
  proved against the pure function `VmStart`, and the lifecycle promises are lemmas about
  that function:
  - a running machine is reused;
  - a machine that does not boot is always turned off;
  - a machine that is not kept is turned off after the test;
  - no other entry is touched.

  The module also models the per-chunk boot wait, the check of the boot log, and the
  extraction of the forwarded SSH port from the command line. It proves that this port is
  the one `format_qemu_cmdline` forwarded.

Python semantics that matter are written out (module `Text` holds the string helpers):

- `str.split()` splits on the characters for which `isspace()` holds.
- `splitlines()` treats `\r\n` as one break.
- `split('"')[1]` and `split()[0]` raise `IndexError`.
- `dict(...)` and `os.environ.update` are a map merge in which later entries win.
- `re.match(r".*hostfwd=tcp::(\d*).*", arg)` matches at the last tag on the first line.
- `os.kill` on a gone process raises `ProcessLookupError`.
- `getVars` returns the string `'None'` for an unset or empty variable (`CiVm.GetVar`), while
  `get_bitbake_var` returns `''` (`StartVm.Var`).

Exceptions are modelled as the `Raised` case of `Outcomes.Result`, carrying the Python
exception text.

The outside world arrives as parameters:

- redis messages are a poll sequence;
- `bitbake -e` is a map of variables;
- the `env` output is a string, and `local.conf` is its text;
- processes and the shell are functions: `ps` output per pid, whether `kill` finds the
  pid, and the shell's result per command line;
- the boot wait sees a sequence of pipe events;
- the SSH probes are the results obtained before the deadline;
- the log file is a byte-string option.

The `CiVm.Host` datatype gathers these for one `vm_start` call.

Where the testsuite's evident intent and its code differ, the model follows the code:

- The registry key `"%s_%s_%s_%d"` is not unique when names contain `_`
  (`CiVm.FingerprintCollision`). It is unique when architecture and distribution are free of
  `_` (`CiVm.FingerprintInjective`).
- The boot wait tests each chunk of at most 1024 bytes on its own. A prompt split inside
  " login:" is missed (`CiVm.PromptAcrossChunksMissed`). The chunks "i", "sar", " login:" find
  it, because the last chunk holds the whole prompt (`CiVm.PromptInOneChunkFound`).
- Teardown is not guaranteed on every exit path. There is no `try`/`finally`. An exception
  raised by the test step itself leaves the machine registered and running
  (`CiVm.Finished`). Such an exception is an `IndexError` from a blank script line, or from an
  `IMAGE_FSTYPES` that is set but made only of whitespace. A failing `vm_turn_off` has the
  same effect.
- A `pass` that arrives while a bound run is still waiting for `yes` is consumed and lost
  (`Seeds.PassLostInPhaseOne`).

## Model

| member | source | states |
|---|---|---|
| Seeds.CheckStatus | testsuite/seeds.py:28-34 | the test is cancelled exactly on `CANCEL` and failed exactly on `FAILURE`, in both cases with the given reason; any other status has no effect |
| Seeds.PublishRelevance | testsuite/seeds.py:36-39 | a `yes` is published on the caller's channel exactly when the argument is `'yes'` |
| Seeds.PublishDeps | testsuite/seeds.py:41-46 | something is published exactly for `SUCCESS` or `FAILURE`, on the caller's channel: `pass` exactly for `SUCCESS`, `fail` exactly for `FAILURE` |
| Seeds.Subscription.constructor | testsuite/seeds.py:23-24 | the shared subscription starts with the given pending messages |
| Seeds.Subscription.GetMessage | testsuite/seeds.py:55 | returns the next pending poll, or `None` when nothing is pending, and consumes it |
| Seeds.PerformRun | testsuite/seeds.py:48-81 | the result, the number of task invocations (1 exactly when the gate proceeds, else 0) and the remaining backlog are those of the gate's decision on the backlog; a run whose stream ends before a signal is still waiting |
| Seeds.RelevanceSeenIff | testsuite/seeds.py:49-59 | phase one sees relevance exactly when a `yes` on the channel is among the first `window` polls |
| Seeds.BoundWithoutYesCancels | testsuite/seeds.py:78-81 | in bound mode, without a `yes` in the window the run is cancelled with the "is not run" message |
| Seeds.FirstSignalDecides | testsuite/seeds.py:61-76 | phase two ends at the first `pass` or `fail` on the channel with that signal, and the stream resumes right after it |
| Seeds.SignalDryIff | testsuite/seeds.py:61-77 | phase two never ends exactly when no `pass`/`fail` on the channel arrives |
| Seeds.NoiseIgnoredInPhaseTwo | testsuite/seeds.py:63-77 | empty polls, other channels, other payloads and late `yes` messages are discarded without effect in phase two |
| Seeds.NoiseUsesUpWindow | testsuite/seeds.py:54-59 | polls without a `yes` on the channel only consume the relevance window |
| Seeds.PassLostInPhaseOne | testsuite/seeds.py:54-66 | a `pass` read while waiting for `yes` is lost: the bound run keeps waiting, while an unbound run proceeds on it |
| Seeds.UpstreamThenDownstream | testsuite/seeds.py:36-81 | an upstream that publishes `yes` and then its status makes a bound downstream either run the task (on `SUCCESS`) or cancel with the "failed" message (on `FAILURE`) |
| Seeds.CheckStatusOfRun | testsuite/seeds.py:28-81 | the status of a finished run is mapped by `check_status` to cancel, fail or nothing with its message; both cancellation reasons cancel the test |
| StartVm.QuotedValue | testsuite/start_vm.py:19 | the value has no `"`; it is the text after the first `"` up to the next `"` or the end of the line |
| StartVm.LastAssignment | testsuite/start_vm.py:17-19 | it finds the last line that starts with `name=`, or none exactly when no line assigns the name |
| StartVm.GetBitbakeVar | testsuite/start_vm.py:15-20 | the loop over `splitlines()` returns the `BitbakeVar` of the lines: `IndexError` if an assigning line has no `"`, else the quoted value of the last assigning line, or `''` |
| StartVm.BitbakeVarStep | testsuite/start_vm.py:17-19 | one more line raises, sets the value, or leaves it unchanged |
| StartVm.UnquotedRaises | testsuite/start_vm.py:19 | one assigning line without a quote makes the read raise `IndexError` |
| StartVm.LongerNameDoesNotAssign | testsuite/start_vm.py:18 | a line for a longer name (`VARX=`) does not assign `VAR` |
| StartVm.BitbakeVarOfAssignment | testsuite/start_vm.py:15-20 | a rendered `name="value"` line that no later line overrides reads back as `value` |
| StartVm.QuotedValueOfAssignment | testsuite/start_vm.py:18-19 | a rendered assignment assigns its name, and its quoted value is the value |
| StartVm.DistroBase | testsuite/start_vm.py:30 | the base is `ubuntu` exactly for `jammy` and `focal`, otherwise `debian` |
| StartVm.RootfsImageName | testsuite/start_vm.py:32-33 | the image file name starts with `<image>-<base>-<distro>-qemu<arch>` and ends with `.<type>` |
| StartVm.WithoutBios | testsuite/start_vm.py:72-74 | it removes the first `-bios` and the argument after it (if any) and keeps everything else in order; without `-bios` nothing changes |
| StartVm.FormatDiskArgs | testsuite/start_vm.py:67-74 | the disk arguments are the placeholder-replaced `QEMU_DISK_ARGS` split into words, plus the secure-boot drive, minus the `-bios` pair when a PC BIOS is enforced |
| StartVm.FormatBootArgs | testsuite/start_vm.py:35-53 | the branch on the image type gives the `ext4` kernel/initrd/append arguments or the `wic` snapshot flag, and raises `ValueError` otherwise |
| StartVm.ExtendOutputArgs | testsuite/start_vm.py:60-65 | appends the serial/monitor redirection when a log file is given and the pid file option when a pid file is given |
| StartVm.FormatQemuCmdline | testsuite/start_vm.py:22-94 | the method's successive `extend`s compute the command line `QemuCmdline`, or its exception |
| StartVm.QemuCmdlineAsWritten | testsuite/start_vm.py:32-33 | as written, every call raises: `IndexError` on a blank `IMAGE_FSTYPES`, otherwise `NameError` for `machine` |
| StartVm.WicImageAsWrittenRaises | testsuite/start_vm.py:28-94 | for a `wic` image the written code raises `NameError`, while the corrected command line is the header, `-snapshot` and the network arguments |
| StartVm.WithNographic | testsuite/start_vm.py:100 | `-nographic` is inserted at index 1; the rest stays in order and the length grows by one |
| StartVm.WithNographicRemovable | testsuite/start_vm.py:100 | removing index 1 again gives back the original command line |
| StartVm.BootArgsByImageType | testsuite/start_vm.py:35-53 | only `ext4` and `wic` boot. `wic` gives exactly `-snapshot`. `ext4` gives six arguments: kernel in the deploy directory, initrd `/dev/null` exactly when `INITRD_DEPLOY_FILE` is empty, and `-append` |
| StartVm.QemuCmdlineRaisesIff | testsuite/start_vm.py:28-53 | the command line fails exactly when `IMAGE_FSTYPES` has no word or its first word is neither `ext4` nor `wic` |
| StartVm.QemuCmdlineOrder | testsuite/start_vm.py:83-94 | the command line is the emulator, memory, machine and CPU header, then the boot, output and network arguments (ending in the forwarding), then the disk arguments |
| StartVm.NetdevArgInCmdline | testsuite/start_vm.py:80-81 | the SSH forwarding argument is part of every command line built |
| StartVm.RootfsPlaceholderReplaced | testsuite/start_vm.py:67 | the first `##ROOTFS_IMAGE##` becomes the image path before the string is split |
| CiConfig.EnvEntry | testsuite/cibuilder.py:64 | a line splits at its first `=` into name and value, or into the whole line and `''` without `=`; the name never holds `=` |
| CiConfig.EnvNames | testsuite/cibuilder.py:64-65 | a name is in the parsed environment exactly when some non-empty line names it |
| CiConfig.EnvEntryOfAssignment | testsuite/cibuilder.py:64 | `name=value` parses back to name and value, even when the value holds `=` |
| CiConfig.LastAssignmentWins | testsuite/cibuilder.py:64-65 | the last line for a name decides its value, and the other names keep theirs |
| CiConfig.BitbakeArgs | testsuite/cibuilder.py:129-134 | `-v` is present exactly when not quiet and `--no-setscene` exactly when sstate is off, in that order |
| CiConfig.WithInclude | testsuite/cibuilder.py:175-180 | afterwards `local.conf` mentions the include; it is unchanged if it already did, otherwise `\ninclude ci_build.conf` is appended |
| CiConfig.WithIncludeIdempotent | testsuite/cibuilder.py:175-180 | configuring again adds nothing |
| CiConfig.IncludeFoundInLines | testsuite/cibuilder.py:176-177 | some line mentions the include exactly when the text does |
| CiConfig.BitbakeCmdlineShape | testsuite/cibuilder.py:201-212 | the command line is `bitbake`, the options, `-c <task>` exactly when a task is given, then the targets; a shell splitting the joined line sees exactly these arguments |
| CiConfig.Builder.Init | testsuite/cibuilder.py:62-66 | the environment is updated with the parsed `env` output, and nothing else changes |
| CiConfig.Builder.Configure | testsuite/cibuilder.py:81-180 | the options are those of the `quiet` and `sstate` parameters and `local.conf` gets the include; the environment is unchanged |
| CiConfig.Builder.IncludeCiBuildConf | testsuite/cibuilder.py:175-180 | the `for … else` scan appends the include exactly when no line mentions it |
| CiConfig.Builder.Bitbake | testsuite/cibuilder.py:195-229 | the shell line is the blank-joined command line; the call fails with "Bitbake failed" exactly when its exit status is non-zero |
| CiRemote.SshCmdPrefixWords | testsuite/cibuilder.py:320-325 | the shell splits the prefix into exactly the ssh options, port, key and `user@host` |
| CiRemote.RunScript | testsuite/cibuilder.py:345-366 | outcomes: a blank script line raises `IndexError`; a missing script gives rc 2 and "Script not found"; a failed deployment gives its own result; otherwise the result of `./ci.sh` with the remaining words |
| CiRemote.ScriptLineSplit | testsuite/cibuilder.py:346-349 | a script line `name args…` gives the script path of `name` and the same arguments, which split back into those words |
| CiRemote.ScriptOfWords | testsuite/cibuilder.py:348-349 | the script path is the first word and the arguments are the remaining words joined by blanks |
| CiRemote.FirstStableFrom | testsuite/cibuilder.py:376-384 | it gives the first ping at which three consecutive pings succeeded, or none when there is no such ping |
| CiRemote.GoodCountStable | testsuite/cibuilder.py:377-384 | `goodcnt` reaches 3 exactly where the last three pings succeeded |
| CiRemote.WaitConnection | testsuite/cibuilder.py:368-389 | the loop returns the result and ping count of `WaitResult`: it stops after three successes in a row; otherwise it returns the last ping, or no result |
| CiRemote.WaitConnectionOutcome | testsuite/cibuilder.py:368-389 | it returns rc 0 exactly when it stopped on the counter; otherwise it used every ping and returns the last rc, or none without pings |
| CiRemote.FailureResets | testsuite/cibuilder.py:383-384 | after a failed ping the connection is stable no earlier than three pings later |
| CiRemote.ThreeSuccessesStop | testsuite/cibuilder.py:376-378 | three successes in a row stop the wait with rc 0 after at most three more pings |
| CiRemote.RemoteRun | testsuite/cibuilder.py:402-426 | the method returns `RemoteRunResult`: the wait first when a timeout is given, then the command, else the script |
| CiRemote.RemoteRunGating | testsuite/cibuilder.py:415-426 | nothing runs unless the timeout is 0 or the wait returned rc 0; the command wins over the script; otherwise the wait's result is returned unchanged |
| CiVm.FingerprintInjective | testsuite/cibuilder.py:583 | with `_`-free architecture and distribution names, equal keys mean equal machines |
| CiVm.FingerprintCollision | testsuite/cibuilder.py:583 | two different machines with `_` in their names share a key |
| CiVm.ResizeMarker | testsuite/cibuilder.py:525-535 | a resize message is expected exactly for a `wic` image with a set kickstart file on a set non-Ubuntu distribution naming `sdimage-efi-sd` or `sdimage-efi-btrfs`; the btrfs message wins |
| CiVm.ParseOutput | testsuite/cibuilder.py:514-547 | raises exactly on a blank `IMAGE_FSTYPES`. A missing or empty log gives 0. Otherwise 2 exactly when the module output is required and absent, and 1 exactly when it is present or skipped and the expected resize message is absent |
| CiVm.GetVar | testsuite/cibuilder.py:277 | a variable's value is never empty: an unset or empty variable reads as `'None'`, any other as its value |
| CiVm.LogCheckRaisesIff | testsuite/cibuilder.py:518-526 | the log check raises exactly when `IMAGE_FSTYPES` is set and made only of whitespace; an unset one reads as `'None'` and does not raise |
| CiVm.UnsetDistroExpectsResize | testsuite/cibuilder.py:526-542 | without `DISTRO`, a `wic` image with an `sdimage-efi-sd` kickstart file still expects the ext4 resize message, because `'None'` is not Ubuntu; a log with the module output but without that message gives 1 |
| CiVm.MissingModuleOutputWins | testsuite/cibuilder.py:540-546 | without the module output a log gives 2 unless the check is skipped, when only the resize check decides |
| CiVm.WaitBoot | testsuite/cibuilder.py:487-511 | returns 0 exactly when some single stdout chunk holds ` login:`, and 1 otherwise |
| CiVm.PromptInOneChunkFound | testsuite/cibuilder.py:500-506 | the chunks "i", "sar", " login:" are detected |
| CiVm.PromptAcrossChunksMissed | testsuite/cibuilder.py:503-504 | a prompt split as " log" and "in:" is not detected |
| CiVm.FirstLine | testsuite/cibuilder.py:622 | what `.` can match: the prefix before the first newline, with no newline |
| CiVm.HostfwdPort | testsuite/cibuilder.py:622-624 | there is a match exactly when the first line contains `hostfwd=tcp::`; the group is digits only |
| CiVm.FindSshPort | testsuite/cibuilder.py:620-625 | the loop returns the group of the first matching argument, or `22` |
| CiVm.HostfwdPortOfNetdevArg | testsuite/cibuilder.py:621-624 | the forwarding argument built by `format_qemu_cmdline` gives back its port |
| CiVm.SshPortOfCmdline | testsuite/cibuilder.py:620-625 | a command line whose first forwarding argument is built for a port yields that port |
| CiVm.TurnedOff | testsuite/cibuilder.py:556-563 | `KeyError` for a missing machine, `ProcessLookupError` when the process is gone (registry unchanged); otherwise exactly that entry is removed and its pid killed; other entries never change |
| CiVm.Reuses | testsuite/cibuilder.py:595-603 | the registered machine is reused exactly when its first command-line word is in its `ps` output; an empty command line raises `IndexError` |
| CiVm.Prepared | testsuite/cibuilder.py:595-610 | the machine is the registered one when reused, otherwise the launched entry; it raises exactly when the check or the launch raises |
| CiVm.TestStep | testsuite/cibuilder.py:617-642 | with a command or script, the step raises exactly when `remote_run` raises, and passes with its output exactly when it returns rc 0; otherwise it fails with "Failed to run test over ssh". Without one, the step raises exactly when `vm_parse_output` raises, and passes with empty output exactly when it returns 0; otherwise it fails with "Failed to parse output" |
| CiVm.RunTest | testsuite/cibuilder.py:617-642 | the method computes `TestStep`: the port looked up in the command line, the ssh prefix, then `remote_run` with the deadline, or else `vm_parse_output` on the values `getVars` returns |
| CiVm.VmRegistry.Load | testsuite/cibuilder.py:68-75 | the registry is the stored one when the file has data, otherwise empty; the registry invariant (the saved copy equals the registry) holds |
| CiVm.VmRegistry.Dump | testsuite/cibuilder.py:550-553 | the saved copy becomes the whole registry, establishing the invariant; nothing else changes |
| CiVm.VmRegistry.TurnOff | testsuite/cibuilder.py:556-563 | the result, registry and kills are those of `TurnedOff`; the saved copy still equals the registry afterwards |
| CiVm.VmRegistry.Start | testsuite/cibuilder.py:566-647 | the result, the registry and the kills are those of `VmStart`; the saved copy equals the new registry |
| CiVm.VmRegistry.Run | testsuite/cibuilder.py:612-647 | from the boot wait on, the state is that of `Booted`; the saved copy equals the registry |
| CiVm.VmRegistry.Prepare | testsuite/cibuilder.py:595-610 | the result is `Prepared`; a launched machine is registered and saved, otherwise the registry is unchanged; the saved copy equals the registry |
| CiVm.VmRegistry.Finish | testsuite/cibuilder.py:617-647 | the test step and teardown give the state of `Finished`; the saved copy equals the registry |
| CiVm.VmRegistry.Launch | testsuite/cibuilder.py:605-610 | the new entry is `LaunchEntry`, stored under the key and saved |
| CiVm.BootedKeepsOtherEntries | testsuite/cibuilder.py:612-647 | after registration, no other entry changes and at most one process is killed |
| CiVm.StartKeepsOtherEntries | testsuite/cibuilder.py:566-647 | `vm_start` changes no entry but its own and kills at most one process |
| CiVm.StartReusesRunningMachine | testsuite/cibuilder.py:595-605 | a running registered machine is reused as is: what would be launched and what a boot wait would read make no difference, and only its own pid can be killed |
| CiVm.BootFailureRemovesEntry | testsuite/cibuilder.py:612-615 | a new machine without a login prompt is turned off and the call fails, even when `keep` is set |
| CiVm.NoKeepRemovesEntry | testsuite/cibuilder.py:632-645 | a machine not kept is turned off after the test, passed or failed; a gone process leaves it registered with `ProcessLookupError` |
| CiVm.KeepRetainsEntry | testsuite/cibuilder.py:632-645 | a kept machine stays registered and nothing is killed |
| CiVm.BootedSucceedsIff | testsuite/cibuilder.py:612-647 | after registration the call returns exactly when the machine is up, the test step passes, and the machine is either kept or killed without error |
| CiVm.StartSucceedsIff | testsuite/cibuilder.py:566-647 | `vm_start` returns exactly when preparation succeeds, the machine is up, the test passes and teardown succeeds or is skipped; the result is the test's output, empty for the log check |
| CiVm.NographicAroundNetArgs | testsuite/cibuilder.py:474 | inserting `-nographic` keeps the network arguments together and in order |
| CiVm.LaunchedCmdline | testsuite/cibuilder.py:472-474 | a launched machine's command line is `-nographic` inserted into header, boot and output arguments, then network arguments, then disk arguments |
| CiVm.LaunchedPortIsForwarded | testsuite/cibuilder.py:617-625 | the port `vm_start` finds in a launched command line is the one forwarded by `format_qemu_cmdline`, unless an earlier argument mentions a forwarding |
| Text.WordsOfJoin | testsuite/cibuilder.py:348-349 | `split()` of whitespace-free words joined by blanks gives the words back |
| Text.LinesOfJoinLines | testsuite/start_vm.py:17 | `splitlines()` recovers the lines of text written line by line |
| Text.ContainsInFileLines | testsuite/cibuilder.py:176-177 | a pattern without a newline occurs in a file's text exactly when it occurs in one of its lines |
| Text.ReplaceFirst | testsuite/start_vm.py:67 | `replace` substitutes the first occurrence and resumes after it |
| Text.DigitRunOfDigits | testsuite/cibuilder.py:622 | `\d*` matches exactly a run of digits followed by a non-digit |

## Left out

- Time, `time.sleep`, `select.poll` and the clock are not modelled. The ten-second relevance
  window is a poll count, the boot wait is the events read before the deadline, and the SSH
  wait is the probes made before the deadline.
- Seeds.PerformRun: it does not model the second phase's endless polling. A stream that runs
  dry returns `StillWaiting` instead of blocking for ever. The frame inspection that names
  the caller and the channel becomes parameters.
- Redis publishing and subscribing are not modelled. A published message is a poll, and the
  subscription is the sequence of polls it will deliver. Celery's `delay().get()` is the
  given `TaskResult`.
- StartVm.FormatQemuCmdline: the bitbake variables are a map. A `get_bitbake_var` that
  raises inside `format_qemu_cmdline` (an assigning line without `"`) is proved only for the
  loop itself (`StartVm.GetBitbakeVar`), not within the command line. Running `bitbake -e`
  is not modelled.
- The SSH port `format_qemu_cmdline` binds with a socket is a parameter. The pid file and
  the secure-boot drive are parameters of the command line. `start_qemu`'s
  `subprocess.call` is not modelled, only its `-nographic` insertion.
- The lines of `ci_build.conf` that `configure` writes (compat arch, cross, caches,
  mirrors, directories, and so on) are file output that nothing in the core reads back,
  so they are not modelled. The directory defaults read from the environment are not
  modelled either.
- `unconfigure`, `delete_from_build_dir`, `move_in_build_dir`, `backupfile`, `ssh_start`,
  the hardware (non-QEMU) helpers, logging, and the test definitions and task wiring
  outside the listed files are not part of this model.
- CiConfig.Builder.Init: it does not model the guard against a second `init`, the working
  directory, or `TEMPLATECONF`. It models only the environment parse.
- The pickle format of `vm_dict_file` is not modelled. The file is the `persisted` field,
  and `VmRegistry.Load` takes its decoded content.
- The temporary boot-log file name, the `latest` symlink and the `Popen` of QEMU are the
  host's `bootLog` and `launchedPid`. The `ps` call is a function from pid to output, and
  `os.kill` is a function saying whether the process exists.
- CiVm.TestStep: the deadline `time.time() + time_to_wait` is the given integer
  `Host.deadline`, so a zero deadline skips the wait as `remote_run` does. The private key
  copy of `prepare_priv_key` is reduced to its path.
- The tinfoil parse that `getVars` makes of the multiconfig is not modelled. It is the map `Host.vars`, the same map the command line reads its variables from.
- `\d` is taken as the ASCII digits. Python also accepts other Unicode decimal digits.
- Bytes are decoded as ASCII where the source decodes them. The string helpers cover only
  the characters the source relies on.

## Findings

| source | as written | input that shows it | evidently intended | confidence | as-written member | corrected member |
|---|---|---|---|---|---|---|
| testsuite/start_vm.py:32-33 | the image file name uses the name `machine`, which is neither a parameter of `format_qemu_cmdline` nor a global of start_vm.py, so every call that gets past reading the image type raises `NameError` | `IMAGE_FSTYPES = "wic"` and no other variable, any arch, distro and image | `<image>-<base>-<distro>-qemu<arch>.<type>`, the name Isar deploys, so that the command line is built | not executed | StartVm.WicImageAsWrittenRaises | StartVm.RootfsImageName |
