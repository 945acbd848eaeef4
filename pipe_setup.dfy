/**
 * The configuration `execute_process` hands to the process engine before it
 * starts the pipeline, recorded as a plain value rather than as calls.
 */
module PipeSetup {
  import opened Wrappers
  import opened ArgumentScanner

  /** The engine's pipes that can deliver data to the directive. */
  datatype Pipe = Stdout | Stderr

  datatype PipeConfig = PipeConfig(
    commands: seq<seq<string>>,        // one AddCommand per stage, in order
    workingDirectory: Option<string>,
    hideWindow: bool,
    stderrShared: bool,                // stderr goes straight to the caller's own stderr
    stdinFile: Option<string>,
    stdoutFile: Option<string>,
    stderrFile: Option<string>,
    timeout: Option<string>)           // the timeout text, when a timeout is applied

  function NonEmpty(s: string): Option<string> {
    if s == "" then None else Some(s)
  }

  /** The configuration calls made for a validated plan. */
  function Configure(plan: Plan, scanTimeout: string -> TimeoutScan): (r: PipeConfig)
    ensures r.commands == plan.commands && r.hideWindow
    ensures r.stderrShared ==> plan.settings.errorVariable == ""
    ensures r.timeout.Some? ==> r.timeout.value == plan.settings.timeoutString &&
                                scanTimeout(plan.settings.timeoutString) == NonNegative
  {
    var s := plan.settings;
    PipeConfig(
      plan.commands,
      NonEmpty(s.workingDirectory),
      true,
      s.errorVariable == "" && !s.errorQuiet,
      NonEmpty(s.inputFile),
      NonEmpty(s.outputFile),
      NonEmpty(s.errorFile),
      if s.timeoutString != "" && scanTimeout(s.timeoutString) == NonNegative then Some(s.timeoutString) else None)
  }

  /** The pipeline handed to the engine has at least one stage, and every stage names an executable. */
  lemma ConfigurePipeline(plan: Plan, scanTimeout: string -> TimeoutScan)
    requires ValidPlan(plan, scanTimeout)
    ensures var cfg := Configure(plan, scanTimeout);
            cfg.commands == plan.commands && |cfg.commands| >= 1 &&
            forall j :: 0 <= j < |cfg.commands| ==> |cfg.commands[j]| >= 1
  {
  }

  /**
   * Stderr is shared exactly when no error variable is named and errors are
   * not quieted; each non-empty file path is bound to its own pipe; the
   * window is always hidden; and a timeout is applied only when the timeout
   * text parses to a non-negative value (an unparsable one never reaches
   * this point, a negative one is dropped).
   */
  lemma ConfigureStreams(plan: Plan, scanTimeout: string -> TimeoutScan)
    requires ValidPlan(plan, scanTimeout)
    ensures var cfg, s := Configure(plan, scanTimeout), plan.settings;
            cfg.hideWindow &&
            (cfg.stderrShared <==> s.errorVariable == "" && !s.errorQuiet) &&
            (cfg.stdinFile.Some? <==> s.inputFile != "") &&
            (cfg.stdinFile.Some? ==> cfg.stdinFile.value == s.inputFile) &&
            (cfg.stdoutFile.Some? <==> s.outputFile != "") &&
            (cfg.stdoutFile.Some? ==> cfg.stdoutFile.value == s.outputFile) &&
            (cfg.stderrFile.Some? <==> s.errorFile != "") &&
            (cfg.stderrFile.Some? ==> cfg.stderrFile.value == s.errorFile) &&
            (cfg.workingDirectory.Some? <==> s.workingDirectory != "") &&
            (cfg.workingDirectory.Some? ==> cfg.workingDirectory.value == s.workingDirectory) &&
            (cfg.timeout.Some? <==> s.timeoutString != "" && scanTimeout(s.timeoutString) != Negative) &&
            (cfg.timeout.Some? ==> cfg.timeout.value == s.timeoutString)
  {
  }

  /**
   * The engine delivers chunks only for a pipe it captures: not for a pipe
   * shared with the caller and not for one bound to a file.
   */
  predicate Delivered(cfg: PipeConfig, p: Pipe) {
    match p
    case Stdout => cfg.stdoutFile.None?
    case Stderr => !cfg.stderrShared && cfg.stderrFile.None?
  }
}
