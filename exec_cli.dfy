/**
 * The `exec` command (cmd/exec.go): which shell commands it runs, how each is
 * invoked, in which environment, and when it stops.
 */
module ExecCli {
  import opened Wrappers
  import opened Text

  // ---------------------------------------------------------------------------
  // Which commands

  /** A trimmed line is a command unless it is empty or a `#` comment. */
  predicate IsCommandLine(line: string) {
    line != "" && !HasPrefix(line, "#")
  }

  /** The commands a file yields: its lines trimmed, blank lines and comments dropped, in file order. */
  function KeptLines(lines: seq<string>): seq<string> {
    if lines == [] then []
    else
      var line := TrimSpace(lines[|lines| - 1]);
      KeptLines(lines[..|lines| - 1]) + (if IsCommandLine(line) then [line] else [])
  }

  /** Read a command file line by line, keeping the trimmed lines that are commands. */
  method FileCommands(lines: seq<string>) returns (commands: seq<string>)
    ensures commands == KeptLines(lines)
  {
    commands := [];
    var i := 0;
    while i < |lines|
      invariant 0 <= i <= |lines|
      invariant commands == KeptLines(lines[..i])
    {
      var line := TrimSpace(lines[i]);
      if line != "" && !HasPrefix(line, "#") {
        commands := commands + [line];
      }
      assert lines[..i + 1][..i] == lines[..i];
      i := i + 1;
    }
    assert lines[..|lines|] == lines;
  }

  /** Filtering works line by line: the commands of two files in a row are the commands of each, in order. */
  lemma {:induction false} KeptLinesAppend(a: seq<string>, b: seq<string>)
    ensures KeptLines(a + b) == KeptLines(a) + KeptLines(b)
    decreases |b|
  {
    if b == [] {
      assert a + b == a;
    } else {
      var init := b[..|b| - 1];
      assert (a + b)[..|a + b| - 1] == a + init;
      assert (a + b)[|a + b| - 1] == b[|b| - 1];
      KeptLinesAppend(a, init);
    }
  }

  /** One line on its own yields its trimmed text exactly when that is a command. */
  lemma {:induction false} KeptLine(line: string)
    ensures KeptLines([line]) == if IsCommandLine(TrimSpace(line)) then [TrimSpace(line)] else []
  {
    assert [line][..0] == [];
  }

  /** A command as kept: a command line, already trimmed. */
  predicate IsKept(line: string) {
    IsCommandLine(line) && TrimSpace(line) == line
  }

  /** Every command kept is a command line and already trimmed. */
  lemma {:induction false} KeptLinesSound(lines: seq<string>)
    ensures forall k :: 0 <= k < |KeptLines(lines)| ==> IsKept(KeptLines(lines)[k])
  {
    if lines != [] {
      var line := lines[|lines| - 1];
      KeptLinesSound(lines[..|lines| - 1]);
      TrimSpaceIdempotent(line);
    }
  }

  /** Every line that is a command once trimmed is kept, in its place among the others. */
  lemma {:induction false} KeptLineAt(lines: seq<string>, i: nat)
    requires i < |lines| && IsCommandLine(TrimSpace(lines[i]))
    ensures KeptLines(lines) == KeptLines(lines[..i]) + [TrimSpace(lines[i])] + KeptLines(lines[i + 1..])
  {
    var pre, line, post := lines[..i], lines[i], lines[i + 1..];
    assert lines == (pre + [line]) + post;
    KeptLinesAppend(pre + [line], post);
    KeptLinesAppend(pre, [line]);
    KeptLine(line);
  }

  /** The kept commands, read again as a file, are kept as they are. */
  lemma {:induction false} KeptLinesIdempotent(lines: seq<string>)
    ensures KeptLines(KeptLines(lines)) == KeptLines(lines)
  {
    var kept := KeptLines(lines);
    KeptLinesSound(lines);
    KeptCommandsStay(kept);
  }

  lemma {:induction false} KeptCommandsStay(commands: seq<string>)
    requires forall k :: 0 <= k < |commands| ==> IsKept(commands[k])
    ensures KeptLines(commands) == commands
  {
    if commands != [] {
      var n := |commands| - 1;
      var init, last := commands[..n], commands[n];
      assert commands == init + [last];
      forall k | 0 <= k < |init| ensures IsKept(init[k]) { assert init[k] == commands[k]; }
      KeptCommandsStay(init);
      KeptLine(last);
      KeptLinesAppend(init, [last]);
    }
  }

  const NoValidCommands := "No valid commands found in file"
  const NoCommand := "Error: either provide a command or use -f to specify a file"

  /**
   * The commands `exec` runs. With a file (`lines` are its lines) they are the
   * file's command lines, and a file with none is an error. Without one the
   * arguments, joined by single spaces, are one command, and no argument is an
   * error.
   */
  method Commands(file: string, lines: seq<string>, args: seq<string>) returns (r: Result<seq<string>>)
    ensures file != "" && KeptLines(lines) == [] ==> r == Err(NoValidCommands)
    ensures file != "" && KeptLines(lines) != [] ==> r == Ok(KeptLines(lines))
    ensures file == "" && args == [] ==> r == Err(NoCommand)
    ensures file == "" && args != [] ==> r == Ok([Join(args, " ")])
  {
    if file != "" {
      var commands := FileCommands(lines);
      if |commands| == 0 {
        return Err(NoValidCommands);
      }
      return Ok(commands);
    }
    if |args| == 0 {
      return Err(NoCommand);
    }
    r := Ok([Join(args, " ")]);
  }

  /** Joining the arguments: one argument is the command itself, and each further one adds a space and itself. */
  lemma JoinArguments(args: seq<string>, arg: string)
    ensures Join([arg], " ") == arg
    ensures args != [] ==> Join(args + [arg], " ") == Join(args, " ") + " " + arg
  {
    if args != [] {
      JoinSnoc(args, arg, " ");
    }
  }

  // ---------------------------------------------------------------------------
  // How each command runs

  /** The argv of one command: the chosen shell, or `sh`, with `-c` and the command. */
  function ShellArgv(shell: string, command: string): (argv: seq<string>)
    ensures |argv| == 3 && argv[1] == "-c" && argv[2] == command
    ensures shell != "" ==> argv[0] == shell
    ensures shell == "" ==> argv[0] == "sh"
  {
    [if shell != "" then shell else "sh", "-c", command]
  }

  /** The child's environment: the inherited one, then each `--env` entry in the order given. */
  method ComposeEnv(environ: seq<string>, entries: seq<string>) returns (env: seq<string>)
    ensures env == environ + entries
  {
    env := environ;
    var i := 0;
    while i < |entries|
      invariant 0 <= i <= |entries|
      invariant env == environ + entries[..i]
    {
      env := env + [entries[i]];
      assert entries[..i + 1] == entries[..i] + [entries[i]];
      i := i + 1;
    }
    assert entries[..|entries|] == entries;
  }

  /** One process start: its argv, its working directory ("" for the current one) and its environment. */
  datatype Invocation = Invocation(argv: seq<string>, dir: string, env: seq<string>)

  /** A process start and how it ended. */
  datatype Ran = Ran(invocation: Invocation, outcome: Outcome)

  /** The machine `exec` starts processes on; `ran` records every start and its outcome. */
  class Host {
    var ran: seq<Ran>

    constructor ()
      ensures ran == []
    {
      ran := [];
    }

    /** Start a process and wait for it; how it ends is up to the environment. */
    method Run(invocation: Invocation) returns (r: Outcome)
      modifies this
      ensures ran == old(ran) + [Ran(invocation, r)]
    {
      r := *;
      ran := ran + [Ran(invocation, r)];
    }
  }

  /** The start of command `command`. */
  function InvocationOf(shell: string, dir: string, env: seq<string>, command: string): Invocation {
    Invocation(ShellArgv(shell, command), dir, env)
  }

  /** The record left by running `commands` in order with these outcomes. */
  function Runs(shell: string, dir: string, env: seq<string>, commands: seq<string>, outcomes: seq<Outcome>): (runs: seq<Ran>)
    requires |commands| == |outcomes|
    ensures |runs| == |commands|
  {
    if commands == [] then []
    else
      var n := |commands| - 1;
      Runs(shell, dir, env, commands[..n], outcomes[..n]) + [Ran(InvocationOf(shell, dir, env, commands[n]), outcomes[n])]
  }

  /** The record holds, in order, each command's start and its outcome. */
  lemma {:induction false} RunsAt(shell: string, dir: string, env: seq<string>, commands: seq<string>, outcomes: seq<Outcome>)
    requires |commands| == |outcomes|
    ensures forall i :: 0 <= i < |commands| ==>
              Runs(shell, dir, env, commands, outcomes)[i] == Ran(InvocationOf(shell, dir, env, commands[i]), outcomes[i])
  {
    if commands != [] {
      var n := |commands| - 1;
      RunsAt(shell, dir, env, commands[..n], outcomes[..n]);
    }
  }

  lemma RunsSnoc(shell: string, dir: string, env: seq<string>, commands: seq<string>, outcomes: seq<Outcome>, o: Outcome)
    requires |outcomes| < |commands|
    ensures Runs(shell, dir, env, commands[..|outcomes| + 1], outcomes + [o])
            == Runs(shell, dir, env, commands[..|outcomes|], outcomes) + [Ran(InvocationOf(shell, dir, env, commands[|outcomes|]), o)]
  {
    var i := |outcomes|;
    assert commands[..i + 1][..i] == commands[..i];
    assert (outcomes + [o])[..i] == outcomes;
  }

  const CommandError := "Error executing command: "

  /** Part way through a run: the commands started so far all succeeded, and the record shows them. */
  ghost predicate RunSoFar(env: seq<string>, shell: string, dir: string, commands: seq<string>,
                           before: seq<Ran>, ran: seq<Ran>, outcomes: seq<Outcome>) {
    && |outcomes| <= |commands|
    && ran == before + Runs(shell, dir, env, commands[..|outcomes|], outcomes)
    && forall i :: 0 <= i < |outcomes| ==> outcomes[i].Pass?
  }

  /**
   * How a run of `commands` ended: the record shows the commands started, in
   * order, with their outcomes; all but the last succeeded; it passed when every
   * command ran and succeeded, and otherwise it failed with the error of the last
   * one started.
   */
  ghost predicate RunDone(env: seq<string>, shell: string, dir: string, commands: seq<string>,
                          before: seq<Ran>, ran: seq<Ran>, outcomes: seq<Outcome>, r: Outcome) {
    && |outcomes| <= |commands|
    && ran == before + Runs(shell, dir, env, commands[..|outcomes|], outcomes)
    && (forall i :: 0 <= i < |outcomes| - 1 ==> outcomes[i].Pass?)
    && (r.Pass? <==> |outcomes| == |commands| && forall i :: 0 <= i < |outcomes| ==> outcomes[i].Pass?)
    && (r.Fail? ==> outcomes != [] && outcomes[|outcomes| - 1].Fail?
                    && r.error == CommandError + outcomes[|outcomes| - 1].error)
  }

  lemma RunStart(env: seq<string>, shell: string, dir: string, commands: seq<string>, before: seq<Ran>)
    ensures RunSoFar(env, shell, dir, commands, before, before, [])
  {
    assert before + [] == before;
  }

  /** One more command started: a success carries on, a failure ends the run. */
  lemma RunNext(env: seq<string>, shell: string, dir: string, commands: seq<string>,
                before: seq<Ran>, ran: seq<Ran>, outcomes: seq<Outcome>, invocation: Invocation, o: Outcome, ranAfter: seq<Ran>)
    requires RunSoFar(env, shell, dir, commands, before, ran, outcomes)
    requires |outcomes| < |commands| && invocation == Invocation(ShellArgv(shell, commands[|outcomes|]), dir, env)
    requires ranAfter == ran + [Ran(invocation, o)]
    ensures o.Pass? ==> RunSoFar(env, shell, dir, commands, before, ranAfter, outcomes + [o])
    ensures o.Fail? ==> RunDone(env, shell, dir, commands, before, ranAfter, outcomes + [o], Fail(CommandError + o.error))
  {
    RunsSnoc(shell, dir, env, commands, outcomes, o);
    assert ranAfter == before + Runs(shell, dir, env, commands[..|outcomes| + 1], outcomes + [o]);
  }

  lemma RunEnd(env: seq<string>, shell: string, dir: string, commands: seq<string>,
               before: seq<Ran>, ran: seq<Ran>, outcomes: seq<Outcome>)
    requires RunSoFar(env, shell, dir, commands, before, ran, outcomes) && |outcomes| == |commands|
    ensures RunDone(env, shell, dir, commands, before, ran, outcomes, Pass)
  {
  }

  /**
   * Run the commands one after another, each with `-c` in the chosen shell, the
   * directory and the composed environment; the first that fails stops the run
   * with its error. `outcomes` are the outcomes of the commands started.
   */
  method RunCommands(host: Host, commands: seq<string>, shell: string, dir: string, environ: seq<string>, entries: seq<string>)
    returns (r: Outcome, ghost outcomes: seq<Outcome>)
    modifies host
    ensures RunDone(environ + entries, shell, dir, commands, old(host.ran), host.ran, outcomes, r)
  {
    ghost var before := host.ran;
    outcomes := [];
    RunStart(environ + entries, shell, dir, commands, before);
    var i := 0;
    while i < |commands|
      invariant 0 <= i <= |commands| && |outcomes| == i
      invariant RunSoFar(environ + entries, shell, dir, commands, before, host.ran, outcomes)
    {
      var argv := ShellArgv(shell, commands[i]);
      var env := ComposeEnv(environ, entries);
      ghost var ran := host.ran;
      var outcome := host.Run(Invocation(argv, dir, env));
      RunNext(environ + entries, shell, dir, commands, before, ran, outcomes, Invocation(argv, dir, env), outcome, host.ran);
      outcomes := outcomes + [outcome];
      if outcome.Fail? {
        return Fail(CommandError + outcome.error), outcomes;
      }
      i := i + 1;
    }
    RunEnd(environ + entries, shell, dir, commands, before, host.ran, outcomes);
    r := Pass;
  }
}
