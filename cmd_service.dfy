/**
 * CmdService.java: runs a built command as an external process, logs the
 * result, classifies the exit code and hands the outcome to one of two
 * optional continuations.
 *
 * The process is not run: its observable behaviour is the parameter `run`
 * (ProcessRun). The effects baseRunning has on the world (the argv given to
 * the operating system, the log lines, the continuation calls) are recorded
 * in a Trace object. A continuation is present or null; its own behaviour is
 * not modelled, only that it is called and with what.
 */
module CmdService {
  import opened Wrappers
  import CommandDto

  // ---------------------------------------------------------------------------
  // The process as baseRunning observes it
  // ---------------------------------------------------------------------------

  /**
   * How a run went: exec failed (IOException), waitFor was interrupted
   * (InterruptedException), the process exited but reading its error stream
   * failed (IOException, raised after the result has been logged), or the
   * process exited with a code and its full error output, decoded as UTF-8.
   */
  datatype ProcessRun =
    | LaunchFailed
    | WaitInterrupted
    | ReadFailed(exitCode: int)
    | Exited(exitCode: int, stderr: string)

  /** The checked exceptions baseRunning propagates. */
  datatype RaisedException = IOException | InterruptedException

  /** A log line: an info line per log-map entry, or the error line with the diagnostic text. */
  datatype LogEntry =
    | Info(comment: string, key: string, value: string, exitCode: int)
    | Error(comment: string, text: string)

  /** A continuation call: the success callback (given null) or the failure callback with the diagnostic text. */
  datatype Continuation = Succeeded | Failed(diagnostic: string)

  /** One observable effect of a run: an argv handed to the OS, a log line, or a continuation call. */
  datatype Event =
    | Executed(argv: seq<string>)
    | Logged(entry: LogEntry)
    | Called(continuation: Continuation)

  /** Everything the runs have done so far, in the order it happened. */
  class Trace {
    var events: seq<Event>

    constructor ()
      ensures events == []
    {
      events := [];
    }
  }

  // ---------------------------------------------------------------------------
  // Classification and dispatch
  // ---------------------------------------------------------------------------

  /** Exit code 0, and 141 (a broken pipe), count as success. */
  predicate IsSuccessExit(exitCode: int)
  {
    exitCode == 0 || exitCode == 141
  }

  /** The discriminated result of a completed run: success, or failure with the diagnostic text. */
  datatype Classified = Success | Failure(diagnostic: string)

  /** The classification of a completed run. */
  function Classify(exitCode: int, stderr: string): Classified
  {
    if IsSuccessExit(exitCode) then Success else Failure(stderr)
  }

  /**
   * The continuation baseRunning's if/else calls after a completed run. The
   * success callback is called (with null) only for a success code when it
   * is present; in every other case, including a success code with no
   * success callback, the failure callback receives the diagnostic text if
   * it is present; otherwise nothing is called.
   */
  function Dispatch(exitCode: int, stderr: string, hasCallback: bool, hasFailCallback: bool): (r: Option<Continuation>)
    ensures r == Some(Succeeded) <==> IsSuccessExit(exitCode) && hasCallback
    ensures r == Some(Failed(stderr)) <==> !(IsSuccessExit(exitCode) && hasCallback) && hasFailCallback
    ensures r.Some? ==> r == Some(Succeeded) || r == Some(Failed(stderr))
  {
    if IsSuccessExit(exitCode) && hasCallback then Some(Succeeded)
    else if hasFailCallback then Some(Failed(stderr))
    else None
  }

  /**
   * Dispatch against the classification: with both continuations present
   * each outcome reaches its own continuation; a success code without a
   * success callback reaches the failure callback (the if/else fall-through);
   * a failure never reaches the success callback.
   */
  lemma DispatchFollowsClassification(exitCode: int, stderr: string, hasCallback: bool, hasFailCallback: bool)
    ensures hasCallback && hasFailCallback ==>
              Dispatch(exitCode, stderr, true, true)
              == (match Classify(exitCode, stderr)
                  case Success => Some(Succeeded)
                  case Failure(text) => Some(Failed(text)))
    ensures Classify(exitCode, stderr).Success? && !hasCallback && hasFailCallback ==>
              Dispatch(exitCode, stderr, hasCallback, hasFailCallback) == Some(Failed(stderr))
    ensures Classify(exitCode, stderr).Failure? ==> Dispatch(exitCode, stderr, hasCallback, hasFailCallback) != Some(Succeeded)
  {
  }

  /** The continuation calls a run leads to: none unless the process completed and its output was read. */
  function Invocations(run: ProcessRun, hasCallback: bool, hasFailCallback: bool): (r: seq<Continuation>)
    ensures |r| <= 1
    ensures !run.Exited? ==> r == []
  {
    if run.Exited? then
      match Dispatch(run.exitCode, run.stderr, hasCallback, hasFailCallback)
      case None => []
      case Some(c) => [c]
    else []
  }

  /** The exception a run raises, if any. */
  function Raised(run: ProcessRun): (r: Option<RaisedException>)
    ensures r.None? <==> run.Exited?
  {
    match run
    case LaunchFailed => Some(IOException)
    case WaitInterrupted => Some(InterruptedException)
    case ReadFailed(_) => Some(IOException)
    case Exited(_, _) => None
  }

  // ---------------------------------------------------------------------------
  // Logging
  // ---------------------------------------------------------------------------

  /** The Unicode space separators (category Zs) as of Unicode 13, the version of Java 17. */
  const SpaceSeparators: set<char> :=
    {' ', '\U{00A0}', '\U{1680}', '\U{2000}', '\U{2001}', '\U{2002}', '\U{2003}', '\U{2004}', '\U{2005}',
     '\U{2006}', '\U{2007}', '\U{2008}', '\U{2009}', '\U{200A}', '\U{202F}', '\U{205F}', '\U{3000}'}

  /** The line separator (Zl) and paragraph separator (Zp). */
  const LineAndParagraphSeparators: set<char> := {'\U{2028}', '\U{2029}'}

  /** The separators Character.isWhitespace excludes because they do not break lines. */
  const NoBreakSpaces: set<char> := {'\U{00A0}', '\U{2007}', '\U{202F}'}

  /** The control characters Character.isWhitespace accepts besides the separators. */
  const ControlWhitespace: set<char> :=
    {'\t', '\n', '\U{000B}', '\U{000C}', '\r', '\U{001C}', '\U{001D}', '\U{001E}', '\U{001F}'}

  /** Character.isWhitespace, written as code-point ranges. */
  predicate IsJavaWhitespace(c: char)
  {
    || c == ' ' || c == '\t' || c == '\n' || c == '\U{000B}' || c == '\U{000C}' || c == '\r'
    || ('\U{001C}' <= c <= '\U{001F}')
    || c == '\U{1680}' || ('\U{2000}' <= c <= '\U{2006}') || ('\U{2008}' <= c <= '\U{200A}')
    || c == '\U{2028}' || c == '\U{2029}' || c == '\U{205F}' || c == '\U{3000}'
  }

  /**
   * The ranges of IsJavaWhitespace are the definition Java documents: a
   * space, line or paragraph separator that is not a no-break space, or one
   * of the listed control characters.
   */
  lemma JavaWhitespaceDefinition(c: char)
    ensures IsJavaWhitespace(c) <==> c in (SpaceSeparators + LineAndParagraphSeparators - NoBreakSpaces) || c in ControlWhitespace
  {
  }

  /** StringUtils.isBlank: empty or only whitespace. */
  predicate IsBlank(s: string)
  {
    forall i :: 0 <= i < |s| ==> IsJavaWhitespace(s[i])
  }

  /**
   * Examples of the blank test of the error log: the empty text and texts of
   * Java whitespace only are blank; the no-break spaces, U+0085 and U+200B are
   * not whitespace to Java, so a text holding one of them is logged.
   */
  lemma BlankCharacters()
    ensures IsBlank([]) && IsBlank(" \t\r\n\U{000B}\U{000C}\U{001C}\U{001F}")
    ensures IsBlank("\U{1680}\U{2000}\U{2006}\U{2008}\U{200A}\U{2028}\U{2029}\U{205F}\U{3000}")
    ensures !IsJavaWhitespace('\U{00A0}') && !IsJavaWhitespace('\U{2007}') && !IsJavaWhitespace('\U{202F}')
    ensures !IsJavaWhitespace('\U{0085}') && !IsJavaWhitespace('\U{200B}')
    ensures !IsBlank("\U{00A0}") && !IsBlank(" x ")
  {
    assert !IsJavaWhitespace("\U{00A0}"[0]);
    assert !IsJavaWhitespace(" x "[1]);
  }

  /** One info line per log-map entry, in iteration order, each carrying the exit code. */
  function InfoLines(comment: string, resultLogMap: seq<(string, string)>, exitCode: int): (r: seq<LogEntry>)
    ensures |r| == |resultLogMap|
    ensures forall i :: 0 <= i < |r| ==> r[i] == Info(comment, resultLogMap[i].0, resultLogMap[i].1, exitCode)
  {
    seq(|resultLogMap|, i requires 0 <= i < |resultLogMap| => Info(comment, resultLogMap[i].0, resultLogMap[i].1, exitCode))
  }

  /** The error line of a completed run: one line when the diagnostic text is not blank. */
  function ErrorLines(comment: string, stderr: string): (r: seq<LogEntry>)
    ensures |r| <= 1
    ensures r != [] <==> !IsBlank(stderr)
    ensures r != [] ==> r[0] == Error(comment, stderr)
  {
    if IsBlank(stderr) then [] else [Error(comment, stderr)]
  }

  /**
   * The log lines of a run: nothing if the process never completed; the info
   * lines once it has; then an error line with the diagnostic text if that
   * text could be read and is not blank.
   */
  function LogLines(comment: string, resultLogMap: seq<(string, string)>, run: ProcessRun): (r: seq<LogEntry>)
    ensures run.LaunchFailed? || run.WaitInterrupted? ==> r == []
    ensures run.ReadFailed? ==> |r| == |resultLogMap|
    ensures run.Exited? ==> |r| == |resultLogMap| + (if IsBlank(run.stderr) then 0 else 1)
    ensures run.ReadFailed? || run.Exited? ==> r[..|resultLogMap|] == InfoLines(comment, resultLogMap, run.exitCode)
    ensures run.Exited? && !IsBlank(run.stderr) ==> r[|r| - 1] == Error(comment, run.stderr)
  {
    match run
    case LaunchFailed => []
    case WaitInterrupted => []
    case ReadFailed(exitCode) => InfoLines(comment, resultLogMap, exitCode)
    case Exited(exitCode, stderr) =>
      InfoLines(comment, resultLogMap, exitCode) + ErrorLines(comment, stderr)
  }

  /** Log lines as events. */
  function AsLogged(entries: seq<LogEntry>): (r: seq<Event>)
    ensures |r| == |entries|
  {
    seq(|entries|, k requires 0 <= k < |entries| => Logged(entries[k]))
  }

  /** Turning log lines into events distributes over concatenation. */
  lemma AsLoggedAppend(a: seq<LogEntry>, b: seq<LogEntry>)
    ensures AsLogged(a + b) == AsLogged(a) + AsLogged(b)
  {
    assert forall k :: 0 <= k < |a| + |b| ==> AsLogged(a + b)[k] == (AsLogged(a) + AsLogged(b))[k];
  }

  /** Continuation calls as events. */
  function AsCalled(calls: seq<Continuation>): (r: seq<Event>)
    ensures |r| == |calls|
  {
    seq(|calls|, k requires 0 <= k < |calls| => Called(calls[k]))
  }

  /**
   * The events of one run of baseRunning, in order: the argv is handed to
   * the OS, then the run's log lines are written, then its continuation (if
   * any) is called.
   */
  function RunEvents(cmd: seq<string>, comment: string, resultLogMap: seq<(string, string)>,
                     hasCallback: bool, hasFailCallback: bool, run: ProcessRun): seq<Event>
  {
    [Executed(cmd)] + AsLogged(LogLines(comment, resultLogMap, run)) + AsCalled(Invocations(run, hasCallback, hasFailCallback))
  }

  /** The log lines among the events, in order. */
  function LogOf(events: seq<Event>): seq<LogEntry>
  {
    if events == [] then []
    else LogOf(events[..|events| - 1]) + (if events[|events| - 1].Logged? then [events[|events| - 1].entry] else [])
  }

  /** The continuation calls among the events, in order. */
  function CallsOf(events: seq<Event>): seq<Continuation>
  {
    if events == [] then []
    else CallsOf(events[..|events| - 1]) + (if events[|events| - 1].Called? then [events[|events| - 1].continuation] else [])
  }

  /** The argvs among the events, in order. */
  function CommandsOf(events: seq<Event>): seq<seq<string>>
  {
    if events == [] then []
    else CommandsOf(events[..|events| - 1]) + (if events[|events| - 1].Executed? then [events[|events| - 1].argv] else [])
  }

  /** Reading the log, the calls and the argvs off a trace distributes over appending events. */
  lemma {:induction false} ViewsAppend(xs: seq<Event>, ys: seq<Event>)
    ensures LogOf(xs + ys) == LogOf(xs) + LogOf(ys)
    ensures CallsOf(xs + ys) == CallsOf(xs) + CallsOf(ys)
    ensures CommandsOf(xs + ys) == CommandsOf(xs) + CommandsOf(ys)
    decreases |ys|
  {
    if ys == [] {
      assert xs + ys == xs;
    } else {
      var n := |ys| - 1;
      assert (xs + ys)[..|xs + ys| - 1] == xs + ys[..n];
      ViewsAppend(xs, ys[..n]);
    }
  }

  /** Log lines as events hold exactly those lines, no call and no argv. */
  lemma {:induction false} ViewsOfLogged(entries: seq<LogEntry>)
    ensures LogOf(AsLogged(entries)) == entries
    ensures CallsOf(AsLogged(entries)) == [] && CommandsOf(AsLogged(entries)) == []
  {
    if entries != [] {
      var n := |entries| - 1;
      assert AsLogged(entries)[..n] == AsLogged(entries[..n]);
      ViewsOfLogged(entries[..n]);
      assert entries[..n] + [entries[n]] == entries;
    }
  }

  /** Continuation calls as events hold exactly those calls, no log line and no argv. */
  lemma {:induction false} ViewsOfCalled(calls: seq<Continuation>)
    ensures CallsOf(AsCalled(calls)) == calls
    ensures LogOf(AsCalled(calls)) == [] && CommandsOf(AsCalled(calls)) == []
  {
    if calls != [] {
      var n := |calls| - 1;
      assert AsCalled(calls)[..n] == AsCalled(calls[..n]);
      ViewsOfCalled(calls[..n]);
      assert calls[..n] + [calls[n]] == calls;
    }
  }

  /**
   * A run hands exactly its argv to the OS, writes exactly LogLines and
   * calls exactly Invocations.
   */
  lemma RunEventsViews(cmd: seq<string>, comment: string, resultLogMap: seq<(string, string)>,
                       hasCallback: bool, hasFailCallback: bool, run: ProcessRun)
    ensures CommandsOf(RunEvents(cmd, comment, resultLogMap, hasCallback, hasFailCallback, run)) == [cmd]
    ensures LogOf(RunEvents(cmd, comment, resultLogMap, hasCallback, hasFailCallback, run)) == LogLines(comment, resultLogMap, run)
    ensures CallsOf(RunEvents(cmd, comment, resultLogMap, hasCallback, hasFailCallback, run))
            == Invocations(run, hasCallback, hasFailCallback)
  {
    var head: seq<Event> := [Executed(cmd)];
    var logged := AsLogged(LogLines(comment, resultLogMap, run));
    var called := AsCalled(Invocations(run, hasCallback, hasFailCallback));
    assert head[..0] == [];
    ViewsAppend(head, logged);
    ViewsAppend(head + logged, called);
    ViewsOfLogged(LogLines(comment, resultLogMap, run));
    ViewsOfCalled(Invocations(run, hasCallback, hasFailCallback));
  }

  /**
   * Order within a run: the argv is handed over first, and every log line
   * of the run, the error line included, is written before its continuation
   * is called.
   */
  lemma LogBeforeDispatch(cmd: seq<string>, comment: string, resultLogMap: seq<(string, string)>,
                          hasCallback: bool, hasFailCallback: bool, run: ProcessRun)
    ensures var r := RunEvents(cmd, comment, resultLogMap, hasCallback, hasFailCallback, run);
            && r[0] == Executed(cmd)
            && (forall i :: 0 < i < |r| ==> !r[i].Executed?)
            && (forall i, j :: 0 <= i < |r| && 0 <= j < |r| && r[i].Logged? && r[j].Called? ==> i < j)
  {
  }

  // ---------------------------------------------------------------------------
  // baseRunning and the three public operations
  // ---------------------------------------------------------------------------

  /** The forEach over the log map: one info line per entry, in iteration order. */
  method LogInfoLines(trace: Trace, comment: string, resultLogMap: seq<(string, string)>, exitCode: int)
    modifies trace
    ensures trace.events == old(trace.events) + AsLogged(InfoLines(comment, resultLogMap, exitCode))
  {
    for i := 0 to |resultLogMap|
      invariant trace.events == old(trace.events) + AsLogged(InfoLines(comment, resultLogMap[..i], exitCode))
    {
      var (key, value) := resultLogMap[i];
      assert InfoLines(comment, resultLogMap[..i + 1], exitCode)
             == InfoLines(comment, resultLogMap[..i], exitCode) + [Info(comment, key, value, exitCode)];
      AsLoggedAppend(InfoLines(comment, resultLogMap[..i], exitCode), [Info(comment, key, value, exitCode)]);
      trace.events := trace.events + [Logged(Info(comment, key, value, exitCode))];
    }
    assert resultLogMap[..|resultLogMap|] == resultLogMap;
  }

  /** The events of a completed run, step by step: the argv, the info lines, the error line, the continuation. */
  lemma {:induction false} RunEventsOfExited(cmd: seq<string>, comment: string, resultLogMap: seq<(string, string)>,
                                             hasCallback: bool, hasFailCallback: bool, exitCode: int, stderr: string)
    ensures RunEvents(cmd, comment, resultLogMap, hasCallback, hasFailCallback, Exited(exitCode, stderr))
            == [Executed(cmd)] + AsLogged(InfoLines(comment, resultLogMap, exitCode)) + AsLogged(ErrorLines(comment, stderr))
               + AsCalled(Invocations(Exited(exitCode, stderr), hasCallback, hasFailCallback))
  {
    var info := InfoLines(comment, resultLogMap, exitCode);
    var errorLines := ErrorLines(comment, stderr);
    assert LogLines(comment, resultLogMap, Exited(exitCode, stderr)) == info + errorLines;
    AsLoggedAppend(info, errorLines);
  }

  /** Logs the error line of a completed run when the diagnostic text is not blank. */
  method LogErrorLine(trace: Trace, comment: string, error: string)
    modifies trace
    ensures trace.events == old(trace.events) + AsLogged(ErrorLines(comment, error))
  {
    if !IsBlank(error) {
      trace.events := trace.events + [Logged(Error(comment, error))];
    } else {
      assert AsLogged([]) == [];
    }
  }

  /** Calls the continuation the exit code selects, if one is present. */
  method CallContinuation(trace: Trace, exitCode: int, error: string, hasCallback: bool, hasFailCallback: bool)
    modifies trace
    ensures trace.events == old(trace.events) + AsCalled(Invocations(Exited(exitCode, error), hasCallback, hasFailCallback))
  {
    if IsSuccessExit(exitCode) && hasCallback {
      trace.events := trace.events + [Called(Succeeded)];
    } else if hasFailCallback {
      trace.events := trace.events + [Called(Failed(error))];
    } else {
      assert AsCalled([]) == [];
    }
  }

  /**
   * baseRunning: hands cmd to the operating system, waits for the process,
   * logs one info line per log-map entry, reads the error stream, logs it if
   * it is not blank, and calls at most one continuation. A failure to launch,
   * wait or read is raised and calls no continuation.
   */
  method BaseRunning(trace: Trace, cmd: seq<string>, comment: string, resultLogMap: seq<(string, string)>,
                     hasCallback: bool, hasFailCallback: bool, run: ProcessRun)
    returns (raised: Option<RaisedException>)
    modifies trace
    ensures raised == Raised(run)
    ensures trace.events == old(trace.events) + RunEvents(cmd, comment, resultLogMap, hasCallback, hasFailCallback, run)
  {
    trace.events := trace.events + [Executed(cmd)];
    if run.LaunchFailed? {
      assert AsLogged([]) == [] && AsCalled([]) == [];
      return Some(IOException);
    }
    if run.WaitInterrupted? {
      assert AsLogged([]) == [] && AsCalled([]) == [];
      return Some(InterruptedException);
    }
    var exitCode := run.exitCode;
    LogInfoLines(trace, comment, resultLogMap, exitCode);
    if run.ReadFailed? {
      assert AsCalled([]) == [];
      return Some(IOException);
    }
    var error := run.stderr;
    LogErrorLine(trace, comment, error);
    CallContinuation(trace, exitCode, error, hasCallback, hasFailCallback);
    RunEventsOfExited(cmd, comment, resultLogMap, hasCallback, hasFailCallback, exitCode, error);
    raised := None;
  }

  /** The log map every public operation passes: the space id under "spaceId". */
  function SpaceLogMap(spaceId: string): seq<(string, string)>
  {
    [("spaceId", spaceId)]
  }

  /** createSpaceInCloud: runs the install command under the label "created vcluster". */
  method CreateSpaceInCloud(trace: Trace, cfg: CommandDto.Config, spaceId: string, vclusterNamespace: string, path: string,
                            hasCallback: bool, hasFailCallback: bool, run: ProcessRun)
    returns (raised: Option<RaisedException>)
    modifies trace
    ensures raised == Raised(run)
    ensures trace.events
            == old(trace.events) + RunEvents(CommandDto.InstallCmd(cfg, CommandDto.InstallCommand(spaceId, vclusterNamespace, path)), "created vcluster", SpaceLogMap(spaceId), hasCallback, hasFailCallback, run)
  {
    var cmd := CommandDto.InstallCmd(cfg, CommandDto.InstallCommand(spaceId, vclusterNamespace, path));
    raised := BaseRunning(trace, cmd, "created vcluster", SpaceLogMap(spaceId), hasCallback, hasFailCallback, run);
  }

  /** deleteStorageClass: runs the delete command under the label "Delete vcluster storageClasses". */
  method DeleteStorageClass(trace: Trace, cfg: CommandDto.Config, spaceId: string, storageClassType: Option<string>,
                            hasCallback: bool, hasFailCallback: bool, run: ProcessRun)
    returns (raised: Option<RaisedException>)
    modifies trace
    ensures raised == Raised(run)
    ensures trace.events
            == old(trace.events) + RunEvents(CommandDto.DeleteStorageClassCmd(cfg, CommandDto.DeleteStorageClass(spaceId, storageClassType)), "Delete vcluster storageClasses", SpaceLogMap(spaceId), hasCallback, hasFailCallback, run)
  {
    var cmd := CommandDto.DeleteStorageClassCmd(cfg, CommandDto.DeleteStorageClass(spaceId, storageClassType));
    raised := BaseRunning(trace, cmd, "Delete vcluster storageClasses", SpaceLogMap(spaceId), hasCallback, hasFailCallback, run);
  }

  /** patchResourceQuota: runs the patch command under the label "patch vcluster resource quota". */
  method PatchResourceQuota(trace: Trace, cfg: CommandDto.Config, onWindows: bool, spaceId: string, resourceQuota: string,
                            hasCallback: bool, hasFailCallback: bool, run: ProcessRun)
    returns (raised: Option<RaisedException>)
    modifies trace
    ensures raised == Raised(run)
    ensures trace.events
            == old(trace.events) + RunEvents(CommandDto.PatchCmd(cfg, onWindows, CommandDto.ResourceQuotaPatch(resourceQuota, spaceId)), "patch vcluster resource quota", SpaceLogMap(spaceId), hasCallback, hasFailCallback, run)
  {
    var cmd := CommandDto.PatchCmd(cfg, onWindows, CommandDto.ResourceQuotaPatch(resourceQuota, spaceId));
    raised := BaseRunning(trace, cmd, "patch vcluster resource quota", SpaceLogMap(spaceId), hasCallback, hasFailCallback, run);
  }

  /**
   * What a caller observes of a run: a raised exception exactly when the
   * process could not be launched, waited for or read, and then no
   * continuation; otherwise at most one continuation, the success one only
   * for exit code 0 or 141, and the failure one always with the full
   * diagnostic text.
   */
  lemma RunOutcome(run: ProcessRun, hasCallback: bool, hasFailCallback: bool)
    ensures Raised(run).Some? ==> Invocations(run, hasCallback, hasFailCallback) == []
    ensures Succeeded in Invocations(run, hasCallback, hasFailCallback) <==>
              run.Exited? && IsSuccessExit(run.exitCode) && hasCallback
    ensures forall t :: Failed(t) in Invocations(run, hasCallback, hasFailCallback) <==>
              run.Exited? && t == run.stderr && hasFailCallback && !(IsSuccessExit(run.exitCode) && hasCallback)
  {
  }
}
