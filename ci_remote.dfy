/** Running commands on the VM over SSH (testsuite/cibuilder.py): the ssh command prefix,
    single commands, deployed scripts, the wait for a stable connection, and `remote_run`.

    The shell is a function from a command line to what the command returns. The pings of
    the connection wait are the results the successive `/bin/true` calls get before the
    deadline passes, in order, so the deadline is the length of that sequence. */
module CiRemote {
  import opened Outcomes
  import opened Text

  /** What `subprocess.run` reports for one command. */
  datatype ExecResult = ExecResult(rc: int, stdout: string, stderr: string)

  /** The `(rc, stdout, stderr)` triple of the remote helpers; `rc` is `None` while no
      command has run. */
  datatype RemoteResult = RemoteResult(rc: Option<int>, stdout: string, stderr: string)

  const NoResult := RemoteResult(None, "", "")

  function FromExec(e: ExecResult): RemoteResult {
    RemoteResult(Some(e.rc), e.stdout, e.stderr)
  }

  // ---------------------------------------------------------------------------
  // Commands

  /** The options of `get_ssh_cmd_prefix`, as the words of the prefix. */
  function SshArgs(user: string, host: string, port: string, privKey: string): seq<string> {
    ["ssh", "-o", "ConnectTimeout=5", "-o", "StrictHostKeyChecking=no", "-p", port,
     "-o", "IdentityFile=" + privKey, user + "@" + host]
  }

  /** `get_ssh_cmd_prefix(user, host, port, priv_key)`: the options separated by single
      blanks, with a trailing blank. */
  function SshCmdPrefix(user: string, host: string, port: string, privKey: string): string {
    Join(SshArgs(user, host, port, privKey), " ") + " "
  }

  /** The shell splits the prefix into the ssh options, the port and key given, and the
      destination `user@host`, when these contain no whitespace. */
  lemma SshCmdPrefixWords(user: string, host: string, port: string, privKey: string)
    requires IsWord(port) && IsWord(privKey) && IsWord(user + "@" + host)
    ensures Words(SshCmdPrefix(user, host, port, privKey)) == SshArgs(user, host, port, privKey)
  {
    var ws := SshArgs(user, host, port, privKey);
    forall k | 0 <= k < |ws| ensures IsWord(ws[k]) {
      if k == 8 {
        assert forall i :: 0 <= i < |privKey| ==> ws[8][13 + i] == privKey[i];
      }
    }
    WordsOfJoinWithBlank(ws);
  }

  /** The shell line of `exec_cmd(cmd, cmd_prefix)`: the command is passed to ssh in double
      quotes. */
  function ExecCmdLine(cmd: string, prefix: string): string {
    "exec " + prefix + " \"" + cmd + "\""
  }

  /** `exec_cmd(cmd, cmd_prefix)`. */
  function ExecCmd(cmd: string, prefix: string, shell: string -> ExecResult): ExecResult {
    shell(ExecCmdLine(cmd, prefix))
  }

  /** The shell line of `remote_send_file(src, dest, mode)`: the file is piped into `install`
      on the VM. */
  function SendFileLine(src: string, prefix: string, mode: string, dest: string): string {
    "cat " + src + " | " + prefix + " install -m " + mode + " /dev/stdin " + dest
  }

  // ---------------------------------------------------------------------------
  // `run_script`

  /** The script named by the first word of `script`, in the script directory. */
  function ScriptPath(script: string, scriptDir: string): string
    requires Words(script) != []
  {
    scriptDir + Words(script)[0]
  }

  /** The remaining words of `script`, joined by single blanks. */
  function ScriptArgs(script: string): string
    requires Words(script) != []
  {
    Join(Words(script)[1..], " ")
  }

  /** `run_script(script, cmd_prefix)`: the script is looked up, deployed as `./ci.sh` with
      mode 755, and run with the remaining words as its arguments. A blank `script` raises
      `IndexError`; a missing script gives rc 2; a failed deployment gives its result. */
  function RunScript(script: string, prefix: string, scriptDir: string, present: string -> bool,
                     shell: string -> ExecResult): (r: Result<RemoteResult>)
    ensures r.Raised? <==> Words(script) == []
    ensures Words(script) != [] && !present(ScriptPath(script, scriptDir)) ==>
              r == Value(RemoteResult(Some(2), "", "Script not found: " + ScriptPath(script, scriptDir)))
    ensures Words(script) != [] && present(ScriptPath(script, scriptDir)) ==>
              var sent := shell(SendFileLine(ScriptPath(script, scriptDir), prefix, "755", "./ci.sh"));
              r == Value(FromExec(if sent.rc != 0 then sent else shell(prefix + " ./ci.sh " + ScriptArgs(script))))
  {
    var words := Words(script);
    if words == [] then Raised("IndexError: list index out of range")
    else
      var path := scriptDir + words[0];
      var args := Join(words[1..], " ");
      if !present(path) then Value(RemoteResult(Some(2), "", "Script not found: " + path))
      else
        var sent := shell(SendFileLine(path, prefix, "755", "./ci.sh"));
        if sent.rc != 0 then Value(FromExec(sent))
        else Value(FromExec(shell(prefix + " ./ci.sh " + args)))
  }

  /** A script line written as a name and arguments is split back into the path of that
      name and the same arguments, which the remote shell again splits into those words. */
  lemma ScriptLineSplit(name: string, args: seq<string>, scriptDir: string)
    requires IsWord(name) && forall k :: 0 <= k < |args| ==> IsWord(args[k])
    ensures Words(Join([name] + args, " ")) != []
    ensures ScriptPath(Join([name] + args, " "), scriptDir) == scriptDir + name
    ensures ScriptArgs(Join([name] + args, " ")) == Join(args, " ")
    ensures Words(Join(args, " ")) == args
  {
    var line := Join([name] + args, " ");
    var ws := [name] + args;
    assert Words(line) == ws by {
      WordsOfJoin(ws);
    }
    ScriptOfWords(line, ws, scriptDir);
    assert ws[1..] == args;
    assert Words(Join(args, " ")) == args by {
      WordsOfJoin(args);
    }
  }

  /** The script path and arguments are the first word and the rest of the words. */
  lemma ScriptOfWords(line: string, ws: seq<string>, scriptDir: string)
    requires Words(line) == ws && ws != []
    ensures ScriptPath(line, scriptDir) == scriptDir + ws[0]
    ensures ScriptArgs(line) == Join(ws[1..], " ")
  {
  }

  // ---------------------------------------------------------------------------
  // `wait_connection`

  /** Pings `k - 2`, `k - 1` and `k` all succeeded: the connection counts as stable at `k`. */
  predicate Stable(pings: seq<ExecResult>, k: nat) {
    2 <= k < |pings| && pings[k - 2].rc == 0 && pings[k - 1].rc == 0 && pings[k].rc == 0
  }

  /** The first ping at or after `from` at which the connection is stable. */
  function FirstStableFrom(pings: seq<ExecResult>, from: nat): (r: Option<nat>)
    ensures r.Some? ==> from <= r.value && Stable(pings, r.value)
    ensures r.Some? ==> forall j :: from <= j < r.value ==> !Stable(pings, j)
    ensures r.None? ==> forall j :: from <= j < |pings| ==> !Stable(pings, j)
    decreases |pings| - from
  {
    if from >= |pings| then None
    else if Stable(pings, from) then Some(from)
    else FirstStableFrom(pings, from + 1)
  }

  /** The first ping at which three pings in a row have succeeded. */
  function FirstStable(pings: seq<ExecResult>): Option<nat> {
    FirstStableFrom(pings, 0)
  }

  /** What `wait_connection` returns and how many pings it makes: it stops after three
      successes in a row with that last success; otherwise it pings until the deadline and
      returns the last result, or no result when there was no time for a ping. */
  function WaitResult(pings: seq<ExecResult>): (RemoteResult, nat) {
    match FirstStable(pings)
    case Some(k) => (FromExec(pings[k]), k + 1)
    case None => (if pings == [] then NoResult else FromExec(pings[|pings| - 1]), |pings|)
  }

  /** The number of successful pings at the end of the first `n`: the value of `goodcnt`. */
  function GoodCount(pings: seq<ExecResult>, n: nat): nat
    requires n <= |pings|
  {
    if n == 0 || pings[n - 1].rc != 0 then 0 else 1 + GoodCount(pings, n - 1)
  }

  /** The counter reaches 3 exactly where the connection becomes stable. */
  lemma GoodCountStable(pings: seq<ExecResult>, k: nat)
    requires k < |pings|
    ensures GoodCount(pings, k + 1) >= 3 <==> Stable(pings, k)
  {
    if pings[k].rc == 0 && k >= 1 && pings[k - 1].rc == 0 && k >= 2 {
      assert GoodCount(pings, k + 1) == 2 + GoodCount(pings, k - 1);
    }
  }

  /** `wait_connection(cmd_prefix, timeout)`. */
  method WaitConnection(pings: seq<ExecResult>) returns (r: RemoteResult, used: nat)
    ensures (r, used) == WaitResult(pings)
  {
    r := NoResult;
    used := 0;
    var goodcnt := 0;
    while used < |pings| && goodcnt < 3
      invariant used <= |pings|
      invariant goodcnt == GoodCount(pings, used) && goodcnt <= 3
      invariant forall j :: 0 <= j < used - 1 ==> !Stable(pings, j)
      invariant goodcnt < 3 && used > 0 ==> !Stable(pings, used - 1)
      invariant goodcnt == 3 ==> used > 0 && Stable(pings, used - 1)
      invariant r == if used == 0 then NoResult else FromExec(pings[used - 1])
    {
      goodcnt := goodcnt + 1;
      r := FromExec(pings[used]);
      if pings[used].rc != 0 {
        goodcnt := 0;
      }
      GoodCountStable(pings, used);
      used := used + 1;
    }
  }

  /** The wait returns rc 0 when it stops on the counter; otherwise it has used every ping
      and returns the last one's result, or none. */
  lemma WaitConnectionOutcome(pings: seq<ExecResult>)
    ensures FirstStable(pings).Some? ==>
              WaitResult(pings).0.rc == Some(0) && WaitResult(pings).1 == FirstStable(pings).value + 1
    ensures FirstStable(pings).None? ==> WaitResult(pings).1 == |pings|
    ensures FirstStable(pings).None? && pings != [] ==> WaitResult(pings).0.rc == Some(pings[|pings| - 1].rc)
    ensures pings == [] ==> WaitResult(pings).0 == NoResult
    ensures WaitResult(pings).1 <= |pings|
  {
  }

  /** A failed ping resets the count: the connection can be stable no earlier than three
      pings later. */
  lemma {:induction false} FailureResets(pings: seq<ExecResult>, k: nat)
    requires k < |pings| && pings[k].rc != 0
    ensures forall j :: k <= j < k + 3 ==> !Stable(pings, j)
    ensures FirstStable(pings).Some? && FirstStable(pings).value >= k ==> FirstStable(pings).value >= k + 3
  {
  }

  /** Three successful pings stop the wait after the third, whatever follows. */
  lemma ThreeSuccessesStop(pings: seq<ExecResult>, rest: seq<ExecResult>, ok: seq<ExecResult>)
    requires |ok| == 3 && forall i :: 0 <= i < 3 ==> ok[i].rc == 0
    requires FirstStable(pings).None?
    ensures WaitResult(pings + ok + rest).0.rc == Some(0)
    ensures WaitResult(pings + ok + rest).1 <= |pings| + 3
  {
    var all := pings + ok + rest;
    var n := |pings|;
    assert all[n] == ok[0] && all[n + 1] == ok[1] && all[n + 2] == ok[2];
    assert Stable(all, n + 2);
  }

  // ---------------------------------------------------------------------------
  // `remote_run`

  /** The connection wait lets the command run: no deadline was given, or the wait
      returned rc 0. */
  predicate MayRun(timeout: int, pings: seq<ExecResult>) {
    timeout == 0 || WaitResult(pings).0.rc == Some(0)
  }

  /** What `remote_run(cmd, script, timeout)` returns: the command takes precedence over the
      script, and the wait result is returned unchanged when neither runs. */
  function RemoteRunResult(cmd: Option<string>, script: Option<string>, timeout: int, prefix: string,
                           pings: seq<ExecResult>, scriptDir: string, present: string -> bool,
                           shell: string -> ExecResult): Result<RemoteResult>
  {
    var waited := if timeout != 0 then WaitResult(pings).0 else NoResult;
    if MayRun(timeout, pings) && cmd.Some? then Value(FromExec(ExecCmd(cmd.value, prefix, shell)))
    else if MayRun(timeout, pings) && script.Some? then RunScript(script.value, prefix, scriptDir, present, shell)
    else Value(waited)
  }

  /** `remote_run(cmd, script, timeout)` with the ssh prefix it builds. */
  method RemoteRun(cmd: Option<string>, script: Option<string>, timeout: int, prefix: string,
                   pings: seq<ExecResult>, scriptDir: string, present: string -> bool,
                   shell: string -> ExecResult)
    returns (r: Result<RemoteResult>)
    ensures r == RemoteRunResult(cmd, script, timeout, prefix, pings, scriptDir, present, shell)
  {
    var result := NoResult;
    if timeout != 0 {
      var used;
      result, used := WaitConnection(pings);
    }
    if result.rc == Some(0) || timeout == 0 {
      if cmd.Some? {
        result := FromExec(ExecCmd(cmd.value, prefix, shell));
      } else if script.Some? {
        var ran := RunScript(script.value, prefix, scriptDir, present, shell);
        if ran.Raised? {
          return Raised(ran.exception);
        }
        result := ran.value;
      }
    }
    r := Value(result);
  }

  /** Nothing runs unless the wait allows it, and then the command wins over the script;
      a pass-through result is the wait's own. */
  lemma RemoteRunGating(cmd: Option<string>, script: Option<string>, timeout: int, prefix: string,
                        pings: seq<ExecResult>, scriptDir: string, present: string -> bool,
                        shell: string -> ExecResult)
    ensures var r := RemoteRunResult(cmd, script, timeout, prefix, pings, scriptDir, present, shell);
            && (!MayRun(timeout, pings) ==> r == Value(WaitResult(pings).0))
            && (MayRun(timeout, pings) && cmd.Some? ==> r == Value(FromExec(ExecCmd(cmd.value, prefix, shell))))
            && (MayRun(timeout, pings) && cmd.None? && script.Some? ==>
                  r == RunScript(script.value, prefix, scriptDir, present, shell))
            && (cmd.None? && script.None? ==> r == Value(if timeout != 0 then WaitResult(pings).0 else NoResult))
    ensures timeout != 0 && FirstStable(pings).Some? ==> MayRun(timeout, pings)
    ensures timeout != 0 && pings == [] ==> !MayRun(timeout, pings)
  {
  }
}
