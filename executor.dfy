/**
 * Applying a colour profile: running the calibration tool (dispwin.exe) once
 * per targeted monitor, or, when no single monitor or "all monitors" is
 * selected, launching the legacy batch script. Process creation is an oracle
 * of the environment: `Host.launch` says, for each command line, whether the
 * process started and with which exit code, or which exception was raised.
 */
module Executor {
  import opened Wrappers
  import opened Text
  import opened Paths
  import opened Notifications
  import opened Monitors

  /** The script names the tray passes for the two profiles. */
  const ApplyScript := ApplyMarker + ".bat"
  const RevertScript := RevertMarker + ".bat"

  /** The name fragments that select the tool's arguments. */
  const ApplyMarker := "srgb-to-gamma"
  const RevertMarker := "revert"

  /** The calibration curve loaded by the apply command, and the tool's options. */
  const CalibrationFile := "lut.cal"
  const DisplayOption := "-d "
  const ClearOption := " -c"

  /** The title of every error balloon, and the texts its message starts with. */
  const ErrorTitle := "Error"
  const NotFoundText := "Could not find "
  const NotStartedText := "Failed to execute "
  const ScriptErrorText := "Error executing "
  const ToolMissingText := "Could not find dispwin.exe"
  const CommandErrorText := "Error executing command: "

  /** One call of Process.Start: program, argument string and working directory. */
  datatype Invocation = Invocation(program: string, arguments: string, workingDirectory: string)

  /**
   * What the environment does with an invocation: the process started and
   * (for the tool) exited with a code, Process.Start gave no process, or an
   * exception was raised (including the one ExitCode raises when the
   * process has not exited within the 10-second wait).
   */
  datatype LaunchOutcome = Started(exitCode: int) | NotStarted | Threw(reason: string)

  /** The environment: the application directory, the files that exist, and the launcher. */
  datatype Host = Host(baseDirectory: string, files: set<string>, launch: Invocation -> LaunchOutcome)

  /** The outcome of running a profile script: success, the notifications queued, the processes launched. */
  datatype RunResult = RunResult(success: bool, queued: seq<Notification>, log: seq<Invocation>)

  /** Running one thing after another: both must succeed, notifications and launches accumulate in order. */
  function Then(a: RunResult, b: RunResult): RunResult
  {
    RunResult(a.success && b.success, a.queued + b.queued, a.log + b.log)
  }

  const Nothing := RunResult(true, [], [])

  function ErrorNotice(message: string): Notification
  {
    Notification(ErrorTitle, message, Error)
  }

  /** The directory of a found file (`GetDirectoryName(path) ?? baseDirectory`): the application directory only when the path is a root. */
  function WorkingDirectory(path: string, baseDirectory: string): string
  {
    match DirectoryName(path)
    case None => baseDirectory
    case Some(dir) => dir
  }

  /** A dispwin command line for display `n`: the display option, then `rest`. */
  function DisplayArguments(n: int, rest: string): string
  {
    DisplayOption + IntToString(n) + rest
  }

  /** dispwin arguments that load the calibration curve `lut.cal` into monitor `n`. */
  function ApplyArguments(n: int, workingDirectory: string): string
  {
    DisplayArguments(n, " \"" + Combine(workingDirectory, CalibrationFile) + "\"")
  }

  /** dispwin arguments that clear monitor `n`'s calibration. */
  function RevertArguments(n: int): string
  {
    DisplayArguments(n, ClearOption)
  }

  /** The arguments a profile script stands for: by name, "srgb-to-gamma" before "revert"; other names have none. */
  function ToolArguments(fileName: string, n: int, workingDirectory: string): Option<string>
  {
    if Contains(fileName, ApplyMarker) then Some(ApplyArguments(n, workingDirectory))
    else if Contains(fileName, RevertMarker) then Some(RevertArguments(n))
    else None
  }

  /**
   * ExecuteBatchFileOriginal: launch the script found beside the application
   * or in `scripts`; success once a process started, whatever it later does.
   */
  function RunOriginal(host: Host, fileName: string): (r: RunResult)
    ensures |r.log| <= 1 && |r.queued| <= 1
    ensures r.success ==> r.queued == [] && |r.log| == 1
  {
    match FindScript(host.baseDirectory, fileName, host.files)
    case None => RunResult(false, [ErrorNotice(NotFoundText + fileName)], [])
    case Some(path) =>
      var invocation := Invocation(path, "", WorkingDirectory(path, host.baseDirectory));
      match host.launch(invocation)
      case Started(_) => RunResult(true, [], [invocation])
      case NotStarted => RunResult(false, [ErrorNotice(NotStartedText + fileName)], [invocation])
      case Threw(_) => RunResult(false, [ErrorNotice(ScriptErrorText + fileName)], [invocation])
  }

  /**
   * ExecuteBatchFileForMonitor: run the calibration tool for monitor `n`
   * and wait for it; success exactly when it exits with code 0. A script
   * name that stands for neither profile falls back to the legacy launch.
   */
  function RunForMonitor(host: Host, fileName: string, n: int): (r: RunResult)
    ensures |r.queued| <= 1
    ensures r.success ==> r.queued == [] && |r.log| == 1
  {
    match FindDispwinExecutable(host.baseDirectory, host.files)
    case None => RunResult(false, [ErrorNotice(ToolMissingText)], [])
    case Some(tool) =>
      var dir := WorkingDirectory(tool, host.baseDirectory);
      match ToolArguments(fileName, n, dir)
      case None => RunOriginal(host, fileName)
      case Some(arguments) =>
        var invocation := Invocation(tool, arguments, dir);
        match host.launch(invocation)
        case Started(code) => RunResult(code == 0, [], [invocation])
        case NotStarted => RunResult(false, [], [invocation])
        case Threw(reason) => RunResult(false, [ErrorNotice(CommandErrorText + reason)], [invocation])
  }

  /** The run for each catalogued monitor, in catalog order. */
  function Runs(host: Host, fileName: string, monitors: seq<MonitorInfo>): (rs: seq<RunResult>)
    ensures |rs| == |monitors|
  {
    if monitors == [] then []
    else Runs(host, fileName, monitors[..|monitors| - 1]) + [RunForMonitor(host, fileName, monitors[|monitors| - 1].displayNumber)]
  }

  /** The run for the monitor at a given catalog position. */
  lemma {:induction false} RunsAt(host: Host, fileName: string, monitors: seq<MonitorInfo>, i: nat)
    requires i < |monitors|
    ensures Runs(host, fileName, monitors)[i] == RunForMonitor(host, fileName, monitors[i].displayNumber)
  {
    var init := monitors[..|monitors| - 1];
    var rs := Runs(host, fileName, monitors);
    assert rs == Runs(host, fileName, init) + [RunForMonitor(host, fileName, monitors[|monitors| - 1].displayNumber)];
    if i < |init| {
      RunsAt(host, fileName, init, i);
      assert rs[i] == Runs(host, fileName, init)[i];
    }
  }

  /** Runs one after another. */
  function Sequenced(rs: seq<RunResult>): RunResult
  {
    if rs == [] then Nothing else Then(Sequenced(rs[..|rs| - 1]), rs[|rs| - 1])
  }

  /** The all-monitors loop: every monitor in catalog order, with no early exit. */
  function RunAll(host: Host, fileName: string, monitors: seq<MonitorInfo>): RunResult
  {
    Sequenced(Runs(host, fileName, monitors))
  }

  /** What a monitor selection asks for: -1 every catalogued monitor, a positive number that display, anything else the legacy script. */
  datatype Plan = EveryMonitor | OneMonitor(number: int) | LegacyScript

  function PlanFor(selection: int): (p: Plan)
    ensures p == EveryMonitor <==> selection == -1
    ensures p.OneMonitor? <==> selection > 0
    ensures p.OneMonitor? ==> p.number == selection
  {
    if selection == -1 then EveryMonitor
    else if selection > 0 then OneMonitor(selection)
    else LegacyScript
  }

  /** ExecuteBatchFile. */
  function Execute(host: Host, fileName: string, selection: int, monitors: seq<MonitorInfo>): RunResult
  {
    match PlanFor(selection)
    case EveryMonitor => RunAll(host, fileName, monitors)
    case OneMonitor(n) => RunForMonitor(host, fileName, n)
    case LegacyScript => RunOriginal(host, fileName)
  }

  // ---------------------------------------------------------------- lemmas

  /** One more monitor at the end of the catalog adds its run after the others. */
  lemma RunAllSnoc(host: Host, fileName: string, monitors: seq<MonitorInfo>, i: nat)
    requires i < |monitors|
    ensures RunAll(host, fileName, monitors[..i + 1])
         == Then(RunAll(host, fileName, monitors[..i]), RunForMonitor(host, fileName, monitors[i].displayNumber))
  {
    var next := monitors[..i + 1];
    assert next[..|next| - 1] == monitors[..i];
    var rs := Runs(host, fileName, monitors[..i]);
    var x := RunForMonitor(host, fileName, monitors[i].displayNumber);
    assert Runs(host, fileName, next) == rs + [x];
    assert (rs + [x])[..|rs + [x]| - 1] == rs;
  }

  /** Runs in sequence succeed exactly when each does. */
  lemma {:induction false} SequencedSucceedsIffEach(rs: seq<RunResult>)
    ensures Sequenced(rs).success <==> forall i :: 0 <= i < |rs| ==> rs[i].success
  {
    if rs != [] {
      var init := rs[..|rs| - 1];
      SequencedSucceedsIffEach(init);
      assert forall i :: 0 <= i < |init| ==> init[i] == rs[i];
    }
  }

  /** Sequencing one more run: the prefix's result followed by that run. */
  lemma SequencedSnoc(rs: seq<RunResult>, i: nat)
    requires i < |rs|
    ensures Sequenced(rs[..i + 1]) == Then(Sequenced(rs[..i]), rs[i])
  {
    assert rs[..i + 1][..i] == rs[..i];
  }

  /** Sequencing two batches is sequencing them together. */
  lemma {:induction false} SequencedAppend(a: seq<RunResult>, b: seq<RunResult>)
    ensures Sequenced(a + b) == Then(Sequenced(a), Sequenced(b))
    decreases |b|
  {
    if b == [] {
      assert a + b == a;
    } else {
      assert (a + b)[..|a + b| - 1] == a + b[..|b| - 1];
      SequencedAppend(a, b[..|b| - 1]);
    }
  }

  /** When every run launches exactly one process, the sequence launches them in order. */
  lemma {:induction false} SequencedLaunchesInOrder(rs: seq<RunResult>)
    requires forall i :: 0 <= i < |rs| ==> |rs[i].log| == 1
    ensures |Sequenced(rs).log| == |rs|
    ensures forall i :: 0 <= i < |rs| ==> Sequenced(rs).log[i] == rs[i].log[0]
  {
    if rs != [] {
      var init := rs[..|rs| - 1];
      SequencedLaunchesInOrder(init);
      assert forall i :: 0 <= i < |init| ==> init[i] == rs[i];
    }
  }

  /** When every run queues the same single notice and launches nothing, so does the sequence, once per run. */
  lemma {:induction false} SequencedSameNotice(rs: seq<RunResult>, notice: Notification)
    requires forall i :: 0 <= i < |rs| ==> rs[i].queued == [notice] && rs[i].log == []
    ensures Sequenced(rs).log == []
    ensures |Sequenced(rs).queued| == |rs|
    ensures forall i :: 0 <= i < |rs| ==> Sequenced(rs).queued[i] == notice
  {
    if rs != [] {
      var init := rs[..|rs| - 1];
      SequencedSameNotice(init, notice);
      assert forall i :: 0 <= i < |init| ==> init[i] == rs[i];
    }
  }

  /** With the tool present and a profile script, a run for one monitor launches the tool once, for that monitor. */
  lemma ToolRunLaunchesOnce(host: Host, fileName: string, n: int, tool: string)
    requires FindDispwinExecutable(host.baseDirectory, host.files) == Some(tool)
    requires Contains(fileName, ApplyMarker) || Contains(fileName, RevertMarker)
    ensures var dir := WorkingDirectory(tool, host.baseDirectory);
            RunForMonitor(host, fileName, n).log == [Invocation(tool, ToolArguments(fileName, n, dir).value, dir)]
  {
  }

  /**
   * In an application directory ending in one separator, the tool runs in
   * `scripts` when it was found there and in the application directory
   * (without its separator, unless it is a root) otherwise; a legacy script
   * found beside the application runs there too.
   */
  lemma ToolWorkingDirectory(host: Host)
    requires IsRooted(host.baseDirectory) && IsSeparator(host.baseDirectory[|host.baseDirectory| - 1])
    requires |host.baseDirectory| > RootLength(host.baseDirectory) ==> !IsSeparator(host.baseDirectory[|host.baseDirectory| - 2])
    ensures var b := host.baseDirectory;
            var home := if |b| == RootLength(b) then b else b[..|b| - 1];
            var tool := FindDispwinExecutable(b, host.files);
            tool.Some? ==>
              WorkingDirectory(tool.value, b)
                == if Combine(Combine(b, ScriptsDirectory), ToolFileName) in host.files then Combine(b, ScriptsDirectory) else home
  {
    var b := host.baseDirectory;
    FindDispwinExecutableOrder(b, host.files);
    DirectoryNameInSubdirectory(b, ScriptsDirectory, ToolFileName);
    DirectoryNameInBaseDirectory(b, ToolFileName);
  }

  /** The all-monitors run succeeds exactly when the run for every monitor does. */
  lemma RunAllSucceedsIffEach(host: Host, fileName: string, monitors: seq<MonitorInfo>)
    ensures RunAll(host, fileName, monitors).success
        <==> forall i :: 0 <= i < |monitors| ==> RunForMonitor(host, fileName, monitors[i].displayNumber).success
  {
    var rs := Runs(host, fileName, monitors);
    SequencedSucceedsIffEach(rs);
    forall i | 0 <= i < |monitors|
      ensures rs[i] == RunForMonitor(host, fileName, monitors[i].displayNumber)
    {
      RunsAt(host, fileName, monitors, i);
    }
  }

  /** Running a catalog in two parts is running it whole. */
  lemma RunAllAppend(host: Host, fileName: string, a: seq<MonitorInfo>, b: seq<MonitorInfo>)
    ensures RunAll(host, fileName, a + b) == Then(RunAll(host, fileName, a), RunAll(host, fileName, b))
  {
    var ra, rb := Runs(host, fileName, a), Runs(host, fileName, b);
    var rab := Runs(host, fileName, a + b);
    forall i | 0 <= i < |rab|
      ensures rab[i] == (ra + rb)[i]
    {
      RunsAt(host, fileName, a + b, i);
      if i < |a| {
        RunsAt(host, fileName, a, i);
        assert (a + b)[i] == a[i] && (ra + rb)[i] == ra[i];
      } else {
        RunsAt(host, fileName, b, i - |a|);
        assert (a + b)[i] == b[i - |a|] && (ra + rb)[i] == rb[i - |a|];
      }
    }
    assert rab == ra + rb;
    SequencedAppend(ra, rb);
  }

  /**
   * With the tool present and a script name that stands for a profile, the
   * all-monitors run launches the tool exactly once per monitor, in catalog
   * order, each time with that monitor's number, and never falls back to the
   * legacy script.
   */
  lemma RunAllLaunchesEachMonitor(host: Host, fileName: string, monitors: seq<MonitorInfo>, tool: string)
    requires FindDispwinExecutable(host.baseDirectory, host.files) == Some(tool)
    requires Contains(fileName, ApplyMarker) || Contains(fileName, RevertMarker)
    ensures var log := RunAll(host, fileName, monitors).log;
            var dir := WorkingDirectory(tool, host.baseDirectory);
            |log| == |monitors| &&
            forall i :: 0 <= i < |monitors| ==>
              log[i] == Invocation(tool, ToolArguments(fileName, monitors[i].displayNumber, dir).value, dir)
  {
    var rs := Runs(host, fileName, monitors);
    var dir := WorkingDirectory(tool, host.baseDirectory);
    forall i | 0 <= i < |rs|
      ensures rs[i].log == [Invocation(tool, ToolArguments(fileName, monitors[i].displayNumber, dir).value, dir)]
    {
      RunsAt(host, fileName, monitors, i);
      ToolRunLaunchesOnce(host, fileName, monitors[i].displayNumber, tool);
    }
    SequencedLaunchesInOrder(rs);
  }

  /** Without the tool, every monitor's run fails with the same notice and nothing is launched. */
  lemma RunAllWithoutTool(host: Host, fileName: string, monitors: seq<MonitorInfo>)
    requires FindDispwinExecutable(host.baseDirectory, host.files).None?
    ensures var r := RunAll(host, fileName, monitors);
            r.log == [] && |r.queued| == |monitors| &&
            (forall i :: 0 <= i < |r.queued| ==> r.queued[i] == ErrorNotice(ToolMissingText)) &&
            (r.success <==> monitors == [])
  {
    var rs := Runs(host, fileName, monitors);
    forall i | 0 <= i < |rs|
      ensures rs[i] == RunResult(false, [ErrorNotice(ToolMissingText)], [])
    {
      RunsAt(host, fileName, monitors, i);
    }
    SequencedSameNotice(rs, ErrorNotice(ToolMissingText));
    SequencedSucceedsIffEach(rs);
    if monitors != [] {
      assert !rs[0].success;
    }
  }

  /** Every notification in the sequence is an error notice. */
  predicate AllErrors(ns: seq<Notification>)
  {
    forall k :: 0 <= k < |ns| ==> ns[k].title == ErrorTitle && ns[k].icon == Error
  }

  /** The legacy launch queues nothing but error notices. */
  lemma RunOriginalQueuesErrors(host: Host, fileName: string)
    ensures AllErrors(RunOriginal(host, fileName).queued)
  {
  }

  /** A tool run queues nothing but error notices. */
  lemma RunForMonitorQueuesErrors(host: Host, fileName: string, n: int)
    ensures AllErrors(RunForMonitor(host, fileName, n).queued)
  {
    var tool := FindDispwinExecutable(host.baseDirectory, host.files);
    if tool.Some? && ToolArguments(fileName, n, WorkingDirectory(tool.value, host.baseDirectory)).None? {
      RunOriginalQueuesErrors(host, fileName);
    }
  }

  /** Runs that each queue only error notices queue only error notices together. */
  lemma {:induction false} SequencedQueuesErrors(rs: seq<RunResult>)
    requires forall i :: 0 <= i < |rs| ==> AllErrors(rs[i].queued)
    ensures AllErrors(Sequenced(rs).queued)
  {
    if rs != [] {
      var init := rs[..|rs| - 1];
      SequencedQueuesErrors(init);
      var a, b := Sequenced(init).queued, rs[|rs| - 1].queued;
      assert forall k :: 0 <= k < |a + b| ==> (a + b)[k] == if k < |a| then a[k] else b[k - |a|];
    }
  }

  /** Executing a profile script, whatever the selection, queues nothing but error notices. */
  lemma ExecuteQueuesOnlyErrors(host: Host, fileName: string, selection: int, monitors: seq<MonitorInfo>)
    ensures AllErrors(Execute(host, fileName, selection, monitors).queued)
  {
    match PlanFor(selection)
    case EveryMonitor =>
      var rs := Runs(host, fileName, monitors);
      forall i | 0 <= i < |rs|
        ensures AllErrors(rs[i].queued)
      {
        RunsAt(host, fileName, monitors, i);
        RunForMonitorQueuesErrors(host, fileName, monitors[i].displayNumber);
      }
      SequencedQueuesErrors(rs);
    case OneMonitor(n) =>
      RunForMonitorQueuesErrors(host, fileName, n);
    case LegacyScript =>
      RunOriginalQueuesErrors(host, fileName);
  }

  /**
   * A positive selection runs the tool once for that display number, whether
   * or not the catalog lists it.
   */
  lemma SelectedMonitorRunsOnce(host: Host, fileName: string, selection: int, monitors: seq<MonitorInfo>, tool: string)
    requires selection > 0
    requires FindDispwinExecutable(host.baseDirectory, host.files) == Some(tool)
    requires Contains(fileName, ApplyMarker) || Contains(fileName, RevertMarker)
    ensures var dir := WorkingDirectory(tool, host.baseDirectory);
            Execute(host, fileName, selection, monitors).log
              == [Invocation(tool, ToolArguments(fileName, selection, dir).value, dir)]
  {
    ToolRunLaunchesOnce(host, fileName, selection, tool);
  }

  /** Selection 0 and selections below -1 take the legacy script path, independent of the catalog. */
  lemma LegacySelections(host: Host, fileName: string, selection: int, monitors: seq<MonitorInfo>)
    requires selection == 0 || selection < -1
    ensures Execute(host, fileName, selection, monitors) == RunOriginal(host, fileName)
  {
  }

  /** A tool run that exits with a non-zero code, or that gets no process, fails without any notification. */
  lemma {:induction false} SilentToolFailures(host: Host, fileName: string, n: int, tool: string)
    requires FindDispwinExecutable(host.baseDirectory, host.files) == Some(tool)
    requires Contains(fileName, ApplyMarker) || Contains(fileName, RevertMarker)
    ensures var dir := WorkingDirectory(tool, host.baseDirectory);
            var outcome := host.launch(Invocation(tool, ToolArguments(fileName, n, dir).value, dir));
            var r := RunForMonitor(host, fileName, n);
            (r.success <==> outcome == Started(0)) &&
            (r.queued == [] <==> !outcome.Threw?)
  {
  }

  /** The two profile scripts select the apply and the revert arguments. */
  lemma ProfileScriptArguments(n: int, workingDirectory: string)
    ensures ToolArguments(ApplyScript, n, workingDirectory) == Some(ApplyArguments(n, workingDirectory))
    ensures ToolArguments(RevertScript, n, workingDirectory) == Some(RevertArguments(n))
  {
    assert OccursAt(ApplyScript, ApplyMarker, 0);
    assert OccursAt(RevertScript, RevertMarker, 0);
    assert |RevertScript| < |ApplyMarker|;
  }

  /** Two space-free words, each followed by a space, that spell the same text are the same length. */
  lemma SpaceFreeWordsAlign(x: string, restX: string, y: string, restY: string)
    requires forall k :: 0 <= k < |x| ==> x[k] != ' '
    requires forall k :: 0 <= k < |y| ==> y[k] != ' '
    requires restX != [] && restX[0] == ' ' && restY != [] && restY[0] == ' '
    requires x + restX == y + restY
    ensures |x| == |y|
  {
    assert (x + restX)[|x|] == ' ';
    assert (y + restY)[|y|] == ' ';
  }

  /** "-d <n>" followed by a space-led remainder determines both the number and the remainder. */
  lemma DisplayArgumentsDetermine(m: int, n: int, restM: string, restN: string)
    requires restM != [] && restM[0] == ' ' && restN != [] && restN[0] == ' '
    requires DisplayArguments(m, restM) == DisplayArguments(n, restN)
    ensures m == n && restM == restN
  {
    var sm, sn := IntToString(m), IntToString(n);
    IntToStringHasNoSpace(m);
    IntToStringHasNoSpace(n);
    var a := DisplayArguments(m, restM);
    assert a == DisplayOption + (sm + restM) && a == DisplayOption + (sn + restN);
    assert sm + restM == a[3..] == sn + restN;
    SpaceFreeWordsAlign(sm, restM, sn, restN);
    assert sm == (sm + restM)[..|sm|] == sn;
    IntToStringInjective(m, n);
    assert restM == (sm + restM)[|sm|..] == restN;
  }

  /** Different monitors never get the same apply command line. */
  lemma ApplyArgumentsInjective(m: int, n: int, workingDirectory: string)
    requires ApplyArguments(m, workingDirectory) == ApplyArguments(n, workingDirectory)
    ensures m == n
  {
    var tail := " \"" + Combine(workingDirectory, CalibrationFile) + "\"";
    DisplayArgumentsDetermine(m, n, tail, tail);
  }

  /** Different monitors never get the same revert command line. */
  lemma RevertArgumentsInjective(m: int, n: int)
    requires RevertArguments(m) == RevertArguments(n)
    ensures m == n
  {
    DisplayArgumentsDetermine(m, n, " -c", " -c");
  }

  /** An apply command line is never a revert command line, for any monitors and directory. */
  lemma ApplyIsNotRevert(m: int, n: int, workingDirectory: string)
    ensures ApplyArguments(m, workingDirectory) != RevertArguments(n)
  {
    var tail := " \"" + Combine(workingDirectory, CalibrationFile) + "\"";
    if ApplyArguments(m, workingDirectory) == RevertArguments(n) {
      DisplayArgumentsDetermine(m, n, tail, " -c");
    }
  }
}
