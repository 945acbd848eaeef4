/**
 * The `execute_process` directive as a whole: parse the arguments, hand the
 * configuration to the process engine, read and route what it delivers, and
 * report the results into the calling makefile.
 *
 * The process engine is a parameter: a function from the configuration it is
 * given to the run it performs, that is, the chunks it delivers in order and
 * the state it ends in.  Parsing the timeout text is a parameter too.
 */
module ExecuteProcess {
  import opened Wrappers
  import opened Keywords
  import opened ArgumentScanner
  import opened PipeSetup
  import opened StreamClassifier
  import opened ResultReporter
  import opened Decimal

  /** What the engine does with a configuration: the chunks it delivers, then its final state. */
  datatype Run = Run(chunks: seq<Chunk>, final: TerminalState)

  datatype Outcome =
    | Failed(error: ParseError)
    | Succeeded(plan: Plan, config: PipeConfig, run: Run, captured: Captured, definitions: map<string, string>)

  /** One invocation, from the arguments and the definitions before it to its outcome. */
  function Execute(args: seq<string>, scanTimeout: string -> TimeoutScan, engine: PipeConfig -> Run,
                   defs: map<string, string>): (r: Outcome)
    ensures r.Failed? ==> Parse(args, scanTimeout) == Err(r.error)
    ensures r.Succeeded? ==> ValidPlan(r.plan, scanTimeout) && r.config.commands == r.plan.commands &&
                             defs.Keys <= r.definitions.Keys
  {
    match Parse(args, scanTimeout)
    case Err(e) => Failed(e)
    case Ok(plan) =>
      var config := Configure(plan, scanTimeout);
      var run := engine(config);
      var captured := Drain(plan.settings, run.chunks);
      Succeeded(plan, config, run, captured,
                Reported(defs, plan.settings, captured.output, captured.error, run.final))
  }

  /**
   * The directive object: the error message it records for a failed call,
   * the text it has passed through to stdout, and the makefile it defines
   * variables in.
   */
  class ExecuteProcessCommand {
    var error: Option<ParseError>
    var stdoutLog: seq<char>
    const makefile: Makefile

    constructor (mf: Makefile)
      ensures makefile == mf && error == None && stdoutLog == []
    {
      makefile := mf;
      error := None;
      stdoutLog := [];
    }

    /**
     * One invocation.  A parse failure records its error and changes nothing
     * else; otherwise the passthrough text is appended to stdout, the
     * definitions are those of `Execute`, and the call reports success.
     */
    method InitialPass(args: seq<string>, scanTimeout: string -> TimeoutScan, engine: PipeConfig -> Run)
      returns (ok: bool)
      modifies this, makefile
      ensures var o := Execute(args, scanTimeout, engine, old(makefile.definitions));
              ok == o.Succeeded? &&
              (o.Failed? ==> error == Some(o.error) && stdoutLog == old(stdoutLog) &&
                             makefile.definitions == old(makefile.definitions)) &&
              (o.Succeeded? ==> error == old(error) && stdoutLog == old(stdoutLog) + o.captured.passthrough &&
                                makefile.definitions == o.definitions)
    {
      if |args| < 1 {
        error := Some(IncorrectArgumentCount);
        return false;
      }
      var scanned := ScanArguments(args);
      if scanned.Err? {
        error := Some(scanned.error);
        return false;
      }
      var st := scanned.value;
      if |st.cmds| == 0 {
        error := Some(NoCommand);
        return false;
      }
      var hasEmpty := FindEmptyCommand(st.cmds);
      if hasEmpty {
        error := Some(EmptyCommand);
        return false;
      }
      if st.settings.timeoutString != "" && scanTimeout(st.settings.timeoutString) == Unparsable {
        error := Some(BadTimeout);
        return false;
      }
      var plan := Plan(st.cmds, st.settings);
      var config := Configure(plan, scanTimeout);
      var run := engine(config);
      var captured := DrainChunks(plan.settings, run.chunks);
      stdoutLog := stdoutLog + captured.passthrough;
      Report(makefile, plan.settings, captured.output, captured.error, run.final);
      return true;
    }
  }

  /**
   * After a successful parse the output variable holds the whole output
   * buffer, the error variable of an unmerged capture the whole error buffer,
   * and the result variable the text of the final state, each unless a later
   * write to the same name replaces it; no captured text holds a NUL.
   */
  lemma ExecuteReportsCapture(args: seq<string>, scanTimeout: string -> TimeoutScan, engine: PipeConfig -> Run,
                              defs: map<string, string>)
    requires Execute(args, scanTimeout, engine, defs).Succeeded?
    ensures var o := Execute(args, scanTimeout, engine, defs);
            var s := o.plan.settings;
            NUL !in o.captured.output && NUL !in o.captured.error && NUL !in o.captured.passthrough &&
            (s.outputVariable != "" && s.outputVariable != s.resultVariable ==>
               s.outputVariable in o.definitions && o.definitions[s.outputVariable] == o.captured.output) &&
            (s.errorVariable != "" && !s.MergeOutput() && s.errorVariable != s.resultVariable ==>
               s.errorVariable in o.definitions && o.definitions[s.errorVariable] == o.captured.error) &&
            (s.resultVariable != "" && !o.run.final.Other? ==>
               s.resultVariable in o.definitions &&
               o.definitions[s.resultVariable] == ResultText(o.run.final).value)
  {
    var o := Execute(args, scanTimeout, engine, defs);
    var s := o.plan.settings;
    DrainHasNoNul(s, o.run.chunks);
    ReportedLookup(defs, s, o.captured.output, o.captured.error, o.run.final, s.outputVariable);
    ReportedLookup(defs, s, o.captured.output, o.captured.error, o.run.final, s.errorVariable);
    ReportedLookup(defs, s, o.captured.output, o.captured.error, o.run.final, s.resultVariable);
  }

  /**
   * When the output and error variables are the same non-empty name and
   * neither stream is quieted, that variable receives the text of both
   * streams in delivery order.
   */
  lemma MergedVariableGetsBothStreams(args: seq<string>, scanTimeout: string -> TimeoutScan,
                                      engine: PipeConfig -> Run, defs: map<string, string>)
    requires Execute(args, scanTimeout, engine, defs).Succeeded?
    requires var s := Execute(args, scanTimeout, engine, defs).plan.settings;
             s.outputVariable != "" && s.outputVariable == s.errorVariable &&
             s.resultVariable != s.outputVariable && !s.outputQuiet && !s.errorQuiet
    ensures var o := Execute(args, scanTimeout, engine, defs);
            o.definitions[o.plan.settings.outputVariable] == AllText(o.run.chunks)
  {
    var o := Execute(args, scanTimeout, engine, defs);
    MergedCapture(o.plan.settings, o.run.chunks);
    ExecuteReportsCapture(args, scanTimeout, engine, defs);
  }

  /**
   * When the engine's pipeline runs out of time, a named result variable
   * holds the timeout message.
   */
  lemma ExpiredReportsTimeout(args: seq<string>, scanTimeout: string -> TimeoutScan, engine: PipeConfig -> Run,
                              defs: map<string, string>)
    requires Parse(args, scanTimeout).Ok?
    requires var plan := Parse(args, scanTimeout).value;
             plan.settings.resultVariable != "" && engine(Configure(plan, scanTimeout)).final == Expired
    ensures var o := Execute(args, scanTimeout, engine, defs);
            o.Succeeded? && o.plan.settings.resultVariable in o.definitions &&
            o.definitions[o.plan.settings.resultVariable] == "Process terminated due to timeout"
  {
    ExecuteReportsCapture(args, scanTimeout, engine, defs);
  }

  /** A parse failure never reaches the engine; after a successful parse the directive always succeeds. */
  lemma ExecuteFailsOnlyInParse(args: seq<string>, scanTimeout: string -> TimeoutScan, engine: PipeConfig -> Run,
                                defs: map<string, string>)
    ensures Execute(args, scanTimeout, engine, defs).Failed? <==> Parse(args, scanTimeout).Err?
    ensures |args| == 0 ==> Execute(args, scanTimeout, engine, defs) == Failed(IncorrectArgumentCount)
  {
  }

  /** COMMAND echo hello with OUTPUT_VARIABLE out and RESULT_VARIABLE rc, exiting with 0. */
  lemma EchoScenario(scanTimeout: string -> TimeoutScan, defs: map<string, string>)
    ensures var engine := (cfg: PipeConfig) => Run([Chunk(Stdout, "hello\n")], Exited(0));
            var o := Execute(["COMMAND", "echo", "hello", "OUTPUT_VARIABLE", "out", "RESULT_VARIABLE", "rc"],
                             scanTimeout, engine, defs);
            o.Succeeded? && o.config.commands == [["echo", "hello"]] &&
            "out" in o.definitions && o.definitions["out"] == "hello\n" &&
            "rc" in o.definitions && o.definitions["rc"] == "0"
  {
    EchoParse(scanTimeout);
    EchoDrain();
    EchoReported(defs);
  }

  const EchoSettings := NoSettings.(outputVariable := "out", resultVariable := "rc")

  lemma EchoParse(scanTimeout: string -> TimeoutScan)
    ensures Parse(["COMMAND", "echo", "hello", "OUTPUT_VARIABLE", "out", "RESULT_VARIABLE", "rc"], scanTimeout)
            == Ok(Plan([["echo", "hello"]], EchoSettings))
  {
    ScanEchoArguments();
    assert !HasEmptyCommand([["echo", "hello"]]);
  }

  lemma EchoDrain()
    ensures Drain(EchoSettings, [Chunk(Stdout, "hello\n")]) == Captured("hello\n", [], [])
  {
    assert [Chunk(Stdout, "hello\n")][..0] == [];
    SanitizeKeepsClean("hello\n");
  }

  lemma EchoReported(defs: map<string, string>)
    ensures var r := Reported(defs, EchoSettings, "hello\n", [], Exited(0));
            "out" in r && r["out"] == "hello\n" && "rc" in r && r["rc"] == "0"
  {
    CStringOfTerminated("hello\n");
    assert DecimalString(0) == "0";
  }

  /** The scan of the echo scenario's arguments, one appended token at a time. */
  lemma ScanEchoArguments()
    ensures Scan(["COMMAND", "echo", "hello", "OUTPUT_VARIABLE", "out", "RESULT_VARIABLE", "rc"]) ==
            Ok(ScanState([["echo", "hello"]], false, 0, EchoSettings))
  {
    var p3 := ["COMMAND", "echo", "hello"];
    ScanEchoCommand();
    var st3 := ScanState([["echo", "hello"]], true, 0, NoSettings);
    ScanAppendValue(p3, st3, OutputVariable, "out");
    var p4 := p3 + [Spelling(OutputVariable), "out"];
    var st4 := ScanState([["echo", "hello"]], false, 0, NoSettings.(outputVariable := "out"));
    ScanAppendValue(p4, st4, ResultVariable, "rc");
    assert p4 + [Spelling(ResultVariable), "rc"] ==
           ["COMMAND", "echo", "hello", "OUTPUT_VARIABLE", "out", "RESULT_VARIABLE", "rc"];
  }

  /** The scan of the echo scenario's COMMAND section. */
  lemma ScanEchoCommand()
    ensures Scan(["COMMAND", "echo", "hello"]) == Ok(ScanState([["echo", "hello"]], true, 0, NoSettings))
  {
    ScanAppendCommand([], Init);
    assert [] + ["COMMAND"] == ["COMMAND"];
    var st1 := ScanState([[]], true, 0, NoSettings);
    assert Init.cmds + [[]] == [[]];
    assert Scan(["COMMAND"]) == Ok(st1);
    ScanAppendArgument(["COMMAND"], st1, "echo");
    assert ["COMMAND"] + ["echo"] == ["COMMAND", "echo"];
    var st2 := ScanState([["echo"]], true, 0, NoSettings);
    assert st1.cmds[0] + ["echo"] == ["echo"];
    assert st1.cmds[0 := ["echo"]] == [["echo"]];
    assert Scan(["COMMAND", "echo"]) == Ok(st2);
    ScanAppendArgument(["COMMAND", "echo"], st2, "hello");
    assert st2.cmds[0] + ["hello"] == ["echo", "hello"];
    assert st2.cmds[0 := ["echo", "hello"]] == [["echo", "hello"]];
    assert ["COMMAND", "echo"] + ["hello"] == ["COMMAND", "echo", "hello"];
  }
}
