/** The build-directory part of the CI builder (testsuite/cibuilder.py): the environment read
    from the Isar init script, the bitbake options, the inclusion of `ci_build.conf` in
    `local.conf`, and the bitbake command line.

    The shell that sources the init script, the file system holding `local.conf` and the
    shell that runs bitbake are outside the model. Their outputs arrive as parameters:
    the `env` output is a string, `local.conf` is its text, and the bitbake run is a
    function from the command line to its exit status. */
module CiConfig {
  import opened Outcomes
  import opened Text

  // ---------------------------------------------------------------------------
  // `init`: the environment printed by `env`

  /** `(x.split('=', 1) + [''])[:2]`: the name before the first `=` and the value after it,
      or the whole line and `''` when the line has no `=`. */
  function EnvEntry(line: string): (e: (string, string))
    ensures '=' in line ==> var i := FirstIndex(line, '='); e == (line[..i], line[i + 1..])
    ensures '=' !in line ==> e == (line, "")
    ensures '=' !in e.0
  {
    if '=' in line then
      var i := FirstIndex(line, '=');
      (line[..i], line[i + 1..])
    else (line, "")
  }

  /** `dict(...)` over the entries of the non-empty lines: a later line for the same name
      overrides an earlier one. */
  function EnvFromLines(lines: seq<string>): map<string, string> {
    if lines == [] then map[]
    else
      var env := EnvFromLines(lines[..|lines| - 1]);
      var line := lines[|lines| - 1];
      if line == "" then env else env[EnvEntry(line).0 := EnvEntry(line).1]
  }

  /** The variables `init` reads from the output of the init script and `env`. */
  function ParseEnv(output: string): map<string, string> {
    EnvFromLines(Lines(output))
  }

  /** A name is defined exactly when some non-empty line names it. */
  lemma {:induction false} EnvNames(lines: seq<string>, name: string)
    ensures name in EnvFromLines(lines)
            <==> exists i :: 0 <= i < |lines| && lines[i] != "" && EnvEntry(lines[i]).0 == name
  {
    if lines != [] {
      var init := lines[..|lines| - 1];
      EnvNames(init, name);
      if name in EnvFromLines(init) {
        var i :| 0 <= i < |init| && init[i] != "" && EnvEntry(init[i]).0 == name;
        assert lines[i] == init[i];
      }
      if exists i :: 0 <= i < |lines| && lines[i] != "" && EnvEntry(lines[i]).0 == name {
        var i :| 0 <= i < |lines| && lines[i] != "" && EnvEntry(lines[i]).0 == name;
        if i < |init| {
          assert init[i] == lines[i];
        }
      }
    }
  }

  /** A line `name=value` with a name free of `=` parses back to that name and value, even
      when the value holds `=`. */
  lemma EnvEntryOfAssignment(name: string, value: string)
    requires '=' !in name
    ensures EnvEntry(name + "=" + value) == (name, value)
  {
    var line := name + "=" + value;
    assert line[|name|] == '=';
    assert FirstIndex(line, '=') == |name| by {
      forall j | 0 <= j < |name| ensures line[j] != '=' {
        assert line[j] == name[j];
      }
    }
    assert line[..|name|] == name;
    assert line[|name| + 1..] == value;
  }

  /** The last line for a name decides its value; the other names keep theirs. */
  lemma LastAssignmentWins(lines: seq<string>, name: string, value: string)
    requires '=' !in name
    ensures var env := EnvFromLines(lines + [name + "=" + value]);
            && name in env && env[name] == value
            && forall other :: other != name ==>
                 (other in env <==> other in EnvFromLines(lines))
                 && (other in env ==> env[other] == EnvFromLines(lines)[other])
  {
    EnvEntryOfAssignment(name, value);
    var all := lines + [name + "=" + value];
    assert all[..|all| - 1] == lines;
    assert all[|all| - 1] != "";
  }

  // ---------------------------------------------------------------------------
  // `configure`: the bitbake options

  /** `bool(int(self.params.get('quiet', default=1)))`. */
  function IsQuiet(quietParam: Option<int>): bool {
    match quietParam
    case None => true
    case Some(q) => q != 0
  }

  /** `sstate`, or else `bool(int(self.params.get('sstate', default=0)))`. */
  function UsesSstate(sstate: bool, sstateParam: Option<int>): bool {
    sstate || (sstateParam.Some? && sstateParam.value != 0)
  }

  /** The bitbake options: `-v` exactly when not quiet and `--no-setscene` exactly when the
      shared state cache is not used, in that order. */
  function BitbakeArgs(quiet: bool, sstate: bool): (args: seq<string>)
    ensures "-v" in args <==> !quiet
    ensures "--no-setscene" in args <==> !sstate
    ensures |args| == (if quiet then 0 else 1) + (if sstate then 0 else 1)
    ensures !quiet && !sstate ==> args == ["-v", "--no-setscene"]
  {
    (if quiet then [] else ["-v"]) + (if sstate then [] else ["--no-setscene"])
  }

  // ---------------------------------------------------------------------------
  // `configure`: `include ci_build.conf` in local.conf

  const IncludeLine := "include ci_build.conf"

  /** `local.conf` after `configure`: unchanged when a line already mentions the include,
      otherwise the include line appended at the end. */
  function WithInclude(text: string): (r: string)
    ensures Contains(r, IncludeLine)
    ensures Contains(text, IncludeLine) ==> r == text
    ensures !Contains(text, IncludeLine) ==> r == text + "\n" + IncludeLine
  {
    if Contains(text, IncludeLine) then text
    else
      var r := text + "\n" + IncludeLine;
      assert OccursAt(r, IncludeLine, |text| + 1);
      r
  }

  /** Configuring again adds nothing: the include is added at most once. */
  lemma WithIncludeIdempotent(text: string)
    ensures WithInclude(WithInclude(text)) == WithInclude(text)
  {
  }

  /** Whether a line of the file mentions the include is whether the text does. */
  lemma IncludeFoundInLines(text: string)
    ensures Contains(text, IncludeLine) <==> SomeLineContains(FileLines(text), IncludeLine)
  {
    ContainsInFileLines(text, IncludeLine);
  }

  // ---------------------------------------------------------------------------
  // `bitbake`: the command line

  /** A bitbake target: one name, or a list of names. */
  datatype Target = One(name: string) | Many(names: seq<string>)

  function TargetArgs(target: Target): seq<string> {
    match target
    case One(name) => [name]
    case Many(names) => names
  }

  /** The command line `bitbake` runs: `bitbake`, the configured options, `-c <task>` when a
      task is given, and the targets. */
  function BitbakeCmdline(args: seq<string>, target: Target, task: string): seq<string> {
    ["bitbake"] + args + (if task != "" then ["-c", task] else []) + TargetArgs(target)
  }

  /** The command line starts with `bitbake` and the options and ends with the targets, and
      a shell splitting the joined line on blanks sees exactly these arguments when none of
      them is empty or holds whitespace. */
  lemma BitbakeCmdlineShape(args: seq<string>, target: Target, task: string)
    ensures var cmd := BitbakeCmdline(args, target, task);
            var n := |TargetArgs(target)|;
            && cmd[0] == "bitbake" && cmd[1..1 + |args|] == args
            && cmd[|cmd| - n..] == TargetArgs(target)
            && (task != "" <==> |cmd| == 1 + |args| + 2 + n)
            && (task != "" ==> cmd[1 + |args|..3 + |args|] == ["-c", task])
    ensures var cmd := BitbakeCmdline(args, target, task);
            (forall k :: 0 <= k < |cmd| ==> IsWord(cmd[k])) ==> Words(Join(cmd, " ")) == cmd
  {
    var cmd := BitbakeCmdline(args, target, task);
    var rest := (if task != "" then ["-c", task] else []) + TargetArgs(target);
    assert cmd == ["bitbake"] + args + rest;
    if forall k :: 0 <= k < |cmd| ==> IsWord(cmd[k]) {
      WordsOfJoin(cmd);
    }
  }

  // ---------------------------------------------------------------------------
  // The builder

  /** The state of the CI builder that this module covers. */
  class Builder {
    /** The process environment. */
    var environ: map<string, string>
    /** `self.bitbake_args`. */
    var bitbakeArgs: seq<string>
    /** The text of `conf/local.conf` in the build directory. */
    var localConf: string

    constructor(environ0: map<string, string>, localConf0: string)
      ensures environ == environ0 && bitbakeArgs == [] && localConf == localConf0
    {
      environ := environ0;
      bitbakeArgs := [];
      localConf := localConf0;
    }

    /** `init`: the variables printed by `env` after sourcing the init script update the
        process environment. */
    method Init(output: string)
      modifies this
      ensures environ == old(environ) + ParseEnv(output)
      ensures bitbakeArgs == old(bitbakeArgs) && localConf == old(localConf)
    {
      environ := environ + ParseEnv(output);
    }

    /** The part of `configure` that sets the bitbake options and includes `ci_build.conf`. */
    method Configure(sstate: bool, quietParam: Option<int>, sstateParam: Option<int>)
      modifies this
      ensures bitbakeArgs == BitbakeArgs(IsQuiet(quietParam), UsesSstate(sstate, sstateParam))
      ensures localConf == WithInclude(old(localConf))
      ensures environ == old(environ)
    {
      var quiet := IsQuiet(quietParam);
      var useSstate := sstate;
      if !useSstate {
        useSstate := UsesSstate(false, sstateParam);
      }
      bitbakeArgs := [];
      if !quiet {
        bitbakeArgs := bitbakeArgs + ["-v"];
      }
      if !useSstate {
        bitbakeArgs := bitbakeArgs + ["--no-setscene"];
      }
      IncludeCiBuildConf();
    }

    /** The `for ... else` scan of `local.conf`: the include line is written at the end of
        the file only when the loop over its lines ends without finding it. */
    method IncludeCiBuildConf()
      modifies this
      ensures localConf == WithInclude(old(localConf))
      ensures environ == old(environ) && bitbakeArgs == old(bitbakeArgs)
    {
      var lines := FileLines(localConf);
      var found := false;
      for i := 0 to |lines|
        invariant forall k :: 0 <= k < i ==> !Contains(lines[k], IncludeLine)
      {
        if Contains(lines[i], IncludeLine) {
          found := true;
          break;
        }
      }
      IncludeFoundInLines(localConf);
      if !found {
        localConf := localConf + "\n" + IncludeLine;
      }
    }

    /** `bitbake(target, bitbake_cmd)`: the command line is assembled from the configured
        options and run through the shell; a non-zero exit status fails the test. */
    method Bitbake(target: Target, task: string, run: string -> int) returns (shellLine: string, r: Result<()>)
      ensures shellLine == Join(BitbakeCmdline(bitbakeArgs, target, task), " ")
      ensures r.Raised? <==> run(shellLine) != 0
      ensures r.Raised? ==> r.exception == "TestFail: Bitbake failed"
    {
      var cmdline := ["bitbake"];
      if bitbakeArgs != [] {
        cmdline := cmdline + bitbakeArgs;
      }
      if task != "" {
        cmdline := cmdline + ["-c"];
        cmdline := cmdline + [task];
      }
      match target {
        case One(name) => cmdline := cmdline + [name];
        case Many(names) => cmdline := cmdline + names;
      }
      assert cmdline == BitbakeCmdline(bitbakeArgs, target, task);
      shellLine := Join(cmdline, " ");
      if run(shellLine) != 0 {
        r := Raised("TestFail: Bitbake failed");
      } else {
        r := Value(());
      }
    }
  }
}
