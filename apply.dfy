/** Applying the plan (main.go:427-444): the staged database patch and the
    data migration commands. */
module Apply {
  import opened Common
  import opened Text
  import opened StoragePools
  import opened Trace
  import opened Host
  import opened Relocation

  /** The contents of patch.global.sql: the statements joined by newlines,
      with a final newline. */
  function PatchContents(statements: seq<string>): string {
    Join(statements, "\n") + "\n"
  }

  /** Each statement followed by its own newline. */
  function Lines(xs: seq<string>): string {
    if xs == [] then "" else xs[0] + "\n" + Lines(xs[1..])
  }

  /** The pieces of a text, each ended by a newline (a last piece without
      one is kept as well). */
  function SplitLines(s: string): seq<string>
    decreases |s|
  {
    if s == [] then []
    else
      var i := Index(s, "\n");
      if i < 0 then [s] else [s[..i]] + SplitLines(s[i + 1..])
  }

  /** A non-empty patch puts each statement on a line of its own. */
  lemma {:induction false} PatchIsLines(statements: seq<string>)
    requires statements != []
    ensures PatchContents(statements) == Lines(statements)
    decreases |statements|
  {
    if |statements| > 1 {
      PatchIsLines(statements[1..]);
      assert statements[0] + "\n" + Join(statements[1..], "\n") + "\n"
          == statements[0] + "\n" + (Join(statements[1..], "\n") + "\n");
    }
  }

  lemma NewlineAt(x: string, rest: string)
    requires '\n' !in x
    ensures Index(x + "\n" + rest, "\n") == |x|
  {
    var s := x + "\n" + rest;
    assert OccursAt(s, "\n", |x|) by { assert s[|x|..|x| + 1] == "\n"; }
    forall j: nat | j < |x| ensures !OccursAt(s, "\n", j) {
      assert s[j] == x[j];
      assert s[j..j + 1] == [s[j]];
    }
  }

  /** Reading the patch back line by line gives the statements again, so long
      as no statement holds a newline of its own. */
  lemma {:induction false} PatchRoundTrip(statements: seq<string>)
    requires statements != []
    requires forall i :: 0 <= i < |statements| ==> '\n' !in statements[i]
    ensures SplitLines(PatchContents(statements)) == statements
  {
    PatchIsLines(statements);
    LinesRoundTrip(statements);
  }

  lemma {:induction false} LinesRoundTrip(xs: seq<string>)
    requires forall i :: 0 <= i < |xs| ==> '\n' !in xs[i]
    ensures SplitLines(Lines(xs)) == xs
    decreases |xs|
  {
    if xs != [] {
      var s := Lines(xs);
      NewlineAt(xs[0], Lines(xs[1..]));
      assert s[..|xs[0]|] == xs[0];
      assert s[|xs[0]| + 1..] == Lines(xs[1..]);
      LinesRoundTrip(xs[1..]);
    }
  }

  /** The command has an argv and exits zero. */
  predicate Succeeds(cmd: Command, exitsZero: Command -> bool) {
    cmd != [] && exitsZero(cmd)
  }

  /** The command loop as a stage: the commands run in order until one
      fails, and an empty argv panics before anything is run for it. */
  function Executing(commands: seq<Command>, exitsZero: Command -> bool): Stage
    decreases |commands|
  {
    if commands == [] then Stage([], None)
    else if commands[0] == [] then Stage([], Some(Panicked(EmptyCommand)))
    else After(Stage([RunCommand(commands[0])], if exitsZero(commands[0]) then None else Some(Failed(Rewrite(commands[0])))),
               Executing(commands[1..], exitsZero))
  }

  /** A successful first command is one step, then the loop goes on. */
  lemma ExecutingCons(commands: seq<Command>, exitsZero: Command -> bool)
    requires commands != [] && Succeeds(commands[0], exitsZero)
    ensures var e := Executing(commands[1..], exitsZero);
      Executing(commands, exitsZero) == Stage([RunCommand(commands[0])] + e.steps, e.stop)
  {
  }

  /** A successful `i`-th command is one step, then the loop goes on. */
  lemma ExecutingAt(commands: seq<Command>, exitsZero: Command -> bool, i: nat)
    requires i < |commands| && Succeeds(commands[i], exitsZero)
    ensures var e := Executing(commands[i + 1..], exitsZero);
      Executing(commands[i..], exitsZero) == Stage([RunCommand(commands[i])] + e.steps, e.stop)
  {
    var rest := commands[i..];
    assert rest[0] == commands[i];
    assert rest[1..] == commands[i + 1..];
    ExecutingCons(rest, exitsZero);
  }

  /** The loop runs a prefix of the commands, one step each. */
  lemma {:induction false} ExecutingPrefixRun(commands: seq<Command>, exitsZero: Command -> bool)
    ensures var e := Executing(commands, exitsZero);
      |e.steps| <= |commands| && e.steps == Runs(commands[..|e.steps|])
    decreases |commands|
  {
    if commands != [] && commands[0] != [] {
      var rest := commands[1..];
      ExecutingPrefixRun(rest, exitsZero);
      var e := Executing(commands, exitsZero);
      var tail := Executing(rest, exitsZero);
      var n := |e.steps|;
      assert e.steps == [RunCommand(commands[0])] + (if exitsZero(commands[0]) then tail.steps else []);
      assert commands[..n][1..] == rest[..n - 1];
      RunsCons(commands[..n]);
    }
  }

  /** The loop gets through every command exactly when each has an argv and
      exits zero, and otherwise ends on a failed command or an empty argv. */
  lemma {:induction false} ExecutingSucceeds(commands: seq<Command>, exitsZero: Command -> bool)
    ensures var e := Executing(commands, exitsZero);
      (e.stop.None? <==> forall k :: 0 <= k < |commands| ==> Succeeds(commands[k], exitsZero))
      && (e.stop.None? ==> |e.steps| == |commands|)
      && (e.stop.Some? ==> (e.stop.value == Panicked(EmptyCommand)
            || (e.stop.value.Failed? && e.stop.value.failure.Rewrite?)))
    decreases |commands|
  {
    if commands != [] && commands[0] != [] && exitsZero(commands[0]) {
      var rest := commands[1..];
      ExecutingSucceeds(rest, exitsZero);
      assert forall k :: 0 < k < |commands| ==> commands[k] == rest[k - 1];
    }
  }

  /** Runs built from the front. */
  lemma {:induction false} RunsCons(commands: seq<Command>)
    requires commands != []
    ensures Runs(commands) == [RunCommand(commands[0])] + Runs(commands[1..])
  {
    var r := Runs(commands);
    var q := [RunCommand(commands[0])] + Runs(commands[1..]);
    assert |r| == |q|;
    forall k | 0 <= k < |r| ensures r[k] == q[k] {
      if k > 0 { assert commands[k] == commands[1..][k - 1]; }
    }
  }

  /** The loop's invariant: the commands run so far are a prefix, and the
      loop goes on with the rest. */
  ghost predicate RunSoFar(commands: seq<Command>, exitsZero: Command -> bool, i: nat, ran: seq<Command>) {
    i <= |commands| && ran == commands[..i]
    && Executing(commands, exitsZero) == After(Stage(Runs(ran), None), Executing(commands[i..], exitsZero))
  }

  lemma RunSoFarStart(commands: seq<Command>, exitsZero: Command -> bool)
    ensures RunSoFar(commands, exitsZero, 0, [])
  {
    assert commands[0..] == commands;
    assert [] + Executing(commands, exitsZero).steps == Executing(commands, exitsZero).steps;
  }

  /** A command that succeeds extends the prefix by one. */
  lemma RunSoFarStep(commands: seq<Command>, exitsZero: Command -> bool, i: nat, ran: seq<Command>)
    requires RunSoFar(commands, exitsZero, i, ran) && i < |commands| && Succeeds(commands[i], exitsZero)
    ensures RunSoFar(commands, exitsZero, i + 1, ran + [commands[i]])
  {
    var cmd := commands[i];
    var e := Executing(commands[i + 1..], exitsZero);
    ExecutingAt(commands, exitsZero, i);
    assert (ran + [cmd])[..|ran|] == ran;
    assert Runs(ran + [cmd]) == Runs(ran) + [RunCommand(cmd)];
    assert Runs(ran) + ([RunCommand(cmd)] + e.steps) == (Runs(ran) + [RunCommand(cmd)]) + e.steps;
  }

  /** An empty argv panics before it is run. */
  lemma RunSoFarPanics(commands: seq<Command>, exitsZero: Command -> bool, i: nat, ran: seq<Command>)
    requires RunSoFar(commands, exitsZero, i, ran) && i < |commands| && commands[i] == []
    ensures Stage(Runs(ran), Some(Panicked(EmptyCommand))) == Executing(commands, exitsZero)
  {
    assert commands[i..][0] == commands[i];
    assert Runs(ran) + [] == Runs(ran);
  }

  /** A command that exits non-zero is run and ends the loop. */
  lemma RunSoFarFails(commands: seq<Command>, exitsZero: Command -> bool, i: nat, ran: seq<Command>)
    requires RunSoFar(commands, exitsZero, i, ran) && i < |commands| && commands[i] != [] && !exitsZero(commands[i])
    ensures Stage(Runs(ran + [commands[i]]), Some(Failed(Rewrite(commands[i])))) == Executing(commands, exitsZero)
  {
    var cmd := commands[i];
    assert commands[i..][0] == cmd;
    assert (ran + [cmd])[..|ran|] == ran;
    assert Runs(ran + [cmd]) == Runs(ran) + [RunCommand(cmd)];
  }

  /** Past the last command the loop is done. */
  lemma RunSoFarDone(commands: seq<Command>, exitsZero: Command -> bool, ran: seq<Command>)
    requires RunSoFar(commands, exitsZero, |commands|, ran)
    ensures Stage(Runs(ran), None) == Executing(commands, exitsZero)
  {
    assert commands[|commands|..] == [];
    assert Runs(ran) + [] == Runs(ran);
  }

  /** main.go:436-444: run the commands in order, stopping at the first
      that fails; `ran` is the commands started, in order. */
  method RunCommands(commands: seq<Command>, exitsZero: Command -> bool)
    returns (ran: seq<Command>, stop: Option<Outcome>)
    ensures Stage(Runs(ran), stop) == Executing(commands, exitsZero)
  {
    ran, stop := [], None;
    RunSoFarStart(commands, exitsZero);
    for i := 0 to |commands|
      invariant RunSoFar(commands, exitsZero, i, ran)
    {
      var cmd := commands[i];
      if cmd == [] {
        RunSoFarPanics(commands, exitsZero, i, ran);
        return ran, Some(Panicked(EmptyCommand));
      }
      if !exitsZero(cmd) {
        RunSoFarFails(commands, exitsZero, i, ran);
        return ran + [cmd], Some(Failed(Rewrite(cmd)));
      }
      RunSoFarStep(commands, exitsZero, i, ran);
      ran := ran + [cmd];
    }
    RunSoFarDone(commands, exitsZero, ran);
  }

  function PatchFile(targetPaths: DaemonPaths): string {
    JoinPath(DatabaseDir(targetPaths), "patch.global.sql")
  }

  /** The patch is written only when there is a statement to put in it. */
  function PatchSteps(targetPaths: DaemonPaths, statements: seq<string>): seq<Step> {
    if statements == [] then [] else [WritePatch(PatchFile(targetPaths), PatchContents(statements))]
  }

  predicate PatchWritten(targetPaths: DaemonPaths, statements: seq<string>, host: Host) {
    statements == [] || host.writeFile(PatchFile(targetPaths), PatchContents(statements))
  }

  /** The whole of main.go:427-444 as a stage. */
  function Applied(targetPaths: DaemonPaths, statements: seq<string>, commands: seq<Command>, host: Host): Stage {
    if !PatchWritten(targetPaths, statements, host) then Stage(PatchSteps(targetPaths, statements), Some(Failed(PatchWrite)))
    else After(Stage(PatchSteps(targetPaths, statements), None), Executing(commands, host.run))
  }

  /** Applying the plan takes the patch steps and then the runs of a prefix
      of the commands. */
  lemma AppliedPrefix(targetPaths: DaemonPaths, statements: seq<string>, commands: seq<Command>, host: Host)
    ensures var r := Applied(targetPaths, statements, commands, host);
      var patch := PatchSteps(targetPaths, statements);
      |patch| <= |r.steps| <= |patch| + |commands|
      && r.steps == patch + Runs(commands[..|r.steps| - |patch|])
  {
    var patch := PatchSteps(targetPaths, statements);
    var e := Executing(commands, host.run);
    ExecutingPrefixRun(commands, host.run);
    assert patch + Runs(commands[..0]) == patch;
  }

  /** Applying the plan writes the patch first, then runs a prefix of the
      commands. */
  lemma AppliedOrder(targetPaths: DaemonPaths, statements: seq<string>, commands: seq<Command>, host: Host)
    ensures var r := Applied(targetPaths, statements, commands, host);
      Ordered(r.steps) && Within(r.steps, 14, 15)
      && Ran(r.steps) <= commands
      && (statements != [] ==> WritePatch(PatchFile(targetPaths), PatchContents(statements)) in r.steps)
  {
    var steps := Applied(targetPaths, statements, commands, host).steps;
    var patch := PatchSteps(targetPaths, statements);
    AppliedPrefix(targetPaths, statements, commands, host);
    var ran := commands[..|steps| - |patch|];
    AppliedSteps(targetPaths, statements, ran);
    if statements != [] {
      assert steps[0] == patch[0];
    }
  }

  /** Applying the plan goes through exactly when the patch is written and
      every command succeeds, having then run them all; otherwise it stops
      on one of its own errors. */
  lemma AppliedSucceeds(targetPaths: DaemonPaths, statements: seq<string>, commands: seq<Command>, host: Host)
    ensures var r := Applied(targetPaths, statements, commands, host);
      (r.stop.None? <==> (PatchWritten(targetPaths, statements, host)
            && forall k :: 0 <= k < |commands| ==> Succeeds(commands[k], host.run)))
      && (r.stop.None? ==> Ran(r.steps) == commands)
      && (r.stop.Some? ==> (r.stop.value == Panicked(EmptyCommand)
            || (r.stop.value.Failed? && (r.stop.value.failure == PatchWrite || r.stop.value.failure.Rewrite?))))
  {
    var e := Executing(commands, host.run);
    ExecutingPrefixRun(commands, host.run);
    ExecutingSucceeds(commands, host.run);
    if e.stop.None? && PatchWritten(targetPaths, statements, host) {
      AppliedSteps(targetPaths, statements, commands[..|e.steps|]);
      assert commands[..|e.steps|] == commands;
    }
  }

  lemma AppliedSteps(targetPaths: DaemonPaths, statements: seq<string>, ran: seq<Command>)
    ensures var steps := PatchSteps(targetPaths, statements) + Runs(ran);
      Ran(steps) == ran && Ordered(steps) && Within(steps, 14, 15)
  {
    var patch := PatchSteps(targetPaths, statements);
    var runs := Runs(ran);
    PatchOrdered(targetPaths, statements);
    RunsOrdered(ran);
    RanAppend(patch, runs);
    RanRuns(ran);
    OrderedAppend(patch, runs, 14, 14, 15);
  }

  lemma PatchOrdered(targetPaths: DaemonPaths, statements: seq<string>)
    ensures var patch := PatchSteps(targetPaths, statements);
      Within(patch, 14, 14) && Ordered(patch) && Ran(patch) == []
  {
    var patch := PatchSteps(targetPaths, statements);
    assert Within(patch, 14, 14) && Ordered(patch);
    RanOutside(patch, 14, 14);
  }

  lemma RunsOrdered(ran: seq<Command>)
    ensures Within(Runs(ran), 15, 15) && Ordered(Runs(ran))
  {
    var runs := Runs(ran);
    assert Within(runs, 15, 15);
  }

  /** main.go:427-444: write the patch when there are statements, then run
      the commands in order. */
  method ApplyPlan(targetPaths: DaemonPaths, statements: seq<string>, commands: seq<Command>, host: Host)
    returns (steps: seq<Step>, stop: Option<Outcome>)
    ensures Stage(steps, stop) == Applied(targetPaths, statements, commands, host)
  {
    var patch := PatchSteps(targetPaths, statements);
    if statements != [] {
      var written := host.writeFile(PatchFile(targetPaths), PatchContents(statements));
      if !written {
        return patch, Some(Failed(PatchWrite));
      }
    }
    var ran;
    ran, stop := RunCommands(commands, host.run);
    steps := patch + Runs(ran);
  }
}
