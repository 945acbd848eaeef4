/**
 * The keyword scan of `execute_process` and the validation that turns its
 * result into an execution plan.
 *
 * The scan is a left-to-right state machine over the argument list.  Its
 * state is the list of command argument lists opened so far, whether the
 * scan is inside a COMMAND section, the index of the command being filled,
 * and the scalar settings.  A value-bearing keyword consumes the next token
 * verbatim, even when that token is itself a keyword.
 */
module ArgumentScanner {
  import opened Wrappers
  import opened Keywords

  /** One constructor per message the directive can fail with. */
  datatype ParseError =
    | IncorrectArgumentCount
    | NoValue(keyword: Keyword)
    | NoCommand
    | EmptyCommand
    | BadTimeout

  /**
   * What `sscanf("%lg")` makes of a timeout string, without its numeric
   * value.  `Negative` stands for every parsed value that fails the
   * `timeout >= 0` test, NaN included.
   */
  datatype TimeoutScan = Unparsable | NonNegative | Negative

  /** The scalar settings the scan collects; an empty string means "not given". */
  datatype Settings = Settings(
    outputVariable: string,
    errorVariable: string,
    resultVariable: string,
    workingDirectory: string,
    inputFile: string,
    outputFile: string,
    errorFile: string,
    timeoutString: string,
    outputQuiet: bool,
    errorQuiet: bool)
  {
    /** Error text joins the output text when both go to the same variable name, empty names included. */
    predicate MergeOutput()
      ensures outputVariable == "" && errorVariable == "" ==> MergeOutput()
      ensures MergeOutput() ==> (outputVariable == "" <==> errorVariable == "")
    {
      outputVariable == errorVariable
    }
  }

  const NoSettings := Settings("", "", "", "", "", "", "", "", false, false)

  /** The setting a value-bearing keyword fills. */
  function ValueOf(s: Settings, k: Keyword): string
    requires k.TakesValue()
  {
    match k
    case OutputVariable => s.outputVariable
    case ErrorVariable => s.errorVariable
    case ResultVariable => s.resultVariable
    case WorkingDirectory => s.workingDirectory
    case InputFile => s.inputFile
    case OutputFile => s.outputFile
    case ErrorFile => s.errorFile
    case Timeout => s.timeoutString
  }

  /** Stores the value of a value-bearing keyword, overwriting an earlier one. */
  function SetValue(s: Settings, k: Keyword, v: string): (r: Settings)
    requires k.TakesValue()
    ensures ValueOf(r, k) == v
    ensures forall k': Keyword :: k'.TakesValue() && k' != k ==> ValueOf(r, k') == ValueOf(s, k')
    ensures r.outputQuiet == s.outputQuiet && r.errorQuiet == s.errorQuiet
  {
    match k
    case OutputVariable => s.(outputVariable := v)
    case ErrorVariable => s.(errorVariable := v)
    case ResultVariable => s.(resultVariable := v)
    case WorkingDirectory => s.(workingDirectory := v)
    case InputFile => s.(inputFile := v)
    case OutputFile => s.(outputFile := v)
    case ErrorFile => s.(errorFile := v)
    case Timeout => s.(timeoutString := v)
  }

  datatype ScanState = ScanState(
    cmds: seq<seq<string>>,
    doingCommand: bool,
    commandIndex: nat,
    settings: Settings)

  const Init := ScanState([], false, 0, NoSettings)

  /**
   * The invariant the scan keeps: the index always names the most recently
   * opened command, a COMMAND section is open only once one exists, and no
   * keyword is ever stored as a command argument.
   */
  predicate WellFormed(st: ScanState) {
    (|st.cmds| == 0 ==> st.commandIndex == 0 && !st.doingCommand) &&
    (|st.cmds| > 0 ==> st.commandIndex == |st.cmds| - 1) &&
    (forall j, m :: 0 <= j < |st.cmds| && 0 <= m < |st.cmds[j]| ==> KeywordOf(st.cmds[j][m]).None?)
  }

  datatype Move = Advance(next: nat, state: ScanState) | Stop(error: ParseError)

  /** The effect of the token at position `i`: the next position to look at and the new state. */
  function Step(args: seq<string>, i: nat, st: ScanState): (m: Move)
    requires i < |args| && WellFormed(st)
    ensures m.Advance? ==> i < m.next <= |args| && WellFormed(m.state)
    ensures m.Stop? ==> i == |args| - 1 && m.error.NoValue? && KeywordOf(args[i]) == Some(m.error.keyword)
  {
    match KeywordOf(args[i])
    case Some(k) =>
      if k == Command then
        Advance(i + 1, st.(doingCommand := true, commandIndex := |st.cmds|, cmds := st.cmds + [[]]))
      else if k == OutputQuiet then
        Advance(i + 1, st.(doingCommand := false, settings := st.settings.(outputQuiet := true)))
      else if k == ErrorQuiet then
        Advance(i + 1, st.(doingCommand := false, settings := st.settings.(errorQuiet := true)))
      else if i + 1 < |args| then
        Advance(i + 2, st.(doingCommand := false, settings := SetValue(st.settings, k, args[i + 1])))
      else
        Stop(NoValue(k))
    case None =>
      if st.doingCommand then
        var c := st.commandIndex;
        Advance(i + 1, st.(cmds := st.cmds[c := st.cmds[c] + [args[i]]]))
      else
        Advance(i + 1, st)
  }

  /** The scan from position `i` on. */
  function ScanFrom(args: seq<string>, i: nat, st: ScanState): (r: Result<ScanState, ParseError>)
    requires i <= |args| && WellFormed(st)
    ensures r.Ok? ==> WellFormed(r.value) && |r.value.cmds| >= |st.cmds|
    ensures r.Err? ==> |args| > 0 && r.error.NoValue? && r.error.keyword.TakesValue()
                       && KeywordOf(args[|args| - 1]) == Some(r.error.keyword)
    decreases |args| - i
  {
    if i == |args| then Ok(st)
    else
      match Step(args, i, st)
      case Stop(e) => Err(e)
      case Advance(j, next) => ScanFrom(args, j, next)
  }

  /**
   * The scan of a whole argument list.  A successful scan keeps the scan
   * invariant; a failed one fails at the last token, a value-bearing keyword.
   */
  function Scan(args: seq<string>): (r: Result<ScanState, ParseError>)
    ensures r.Ok? ==> WellFormed(r.value)
    ensures r.Err? ==> |args| > 0 && r.error.NoValue? && r.error.keyword.TakesValue() &&
                       args[|args| - 1] == Spelling(r.error.keyword)
  {
    ScanFrom(args, 0, Init)
  }

  /** The scan loop: one pass over the arguments that advances its index by hand. */
  method ScanArguments(args: seq<string>) returns (r: Result<ScanState, ParseError>)
    ensures r == Scan(args)
  {
    var cmds: seq<seq<string>> := [];
    var doingCommand := false;
    var commandIndex: nat := 0;
    var settings := NoSettings;
    var i := 0;
    while i < |args|
      invariant i <= |args|
      invariant WellFormed(ScanState(cmds, doingCommand, commandIndex, settings))
      invariant ScanFrom(args, i, ScanState(cmds, doingCommand, commandIndex, settings)) == Scan(args)
    {
      ghost var move := Step(args, i, ScanState(cmds, doingCommand, commandIndex, settings));
      match KeywordOf(args[i]) {
        case Some(k) =>
          if k == Command {
            doingCommand := true;
            commandIndex := |cmds|;
            cmds := cmds + [[]];
          } else if k == OutputQuiet {
            doingCommand := false;
            settings := settings.(outputQuiet := true);
          } else if k == ErrorQuiet {
            doingCommand := false;
            settings := settings.(errorQuiet := true);
          } else {
            doingCommand := false;
            i := i + 1;
            if i < |args| {
              settings := SetValue(settings, k, args[i]);
            } else {
              assert move == Stop(NoValue(k));
              return Err(NoValue(k));
            }
          }
        case None =>
          if doingCommand {
            cmds := cmds[commandIndex := cmds[commandIndex] + [args[i]]];
          }
      }
      i := i + 1;
      assert move == Advance(i, ScanState(cmds, doingCommand, commandIndex, settings));
    }
    return Ok(ScanState(cmds, doingCommand, commandIndex, settings));
  }

  predicate HasEmptyCommand(cmds: seq<seq<string>>) {
    exists j :: 0 <= j < |cmds| && cmds[j] == []
  }

  /** The loop that looks for a COMMAND section without arguments. */
  method FindEmptyCommand(cmds: seq<seq<string>>) returns (found: bool)
    ensures found <==> HasEmptyCommand(cmds)
  {
    var i := 0;
    while i < |cmds|
      invariant i <= |cmds|
      invariant forall j :: 0 <= j < i ==> cmds[j] != []
    {
      if cmds[i] == [] {
        return true;
      }
      i := i + 1;
    }
    return false;
  }

  /** A validated execution plan: the command pipeline and the settings. */
  datatype Plan = Plan(commands: seq<seq<string>>, settings: Settings)

  predicate ValidPlan(p: Plan, scanTimeout: string -> TimeoutScan) {
    |p.commands| >= 1 &&
    (forall j :: 0 <= j < |p.commands| ==> |p.commands[j]| >= 1) &&
    (p.settings.timeoutString != "" ==> scanTimeout(p.settings.timeoutString) != Unparsable)
  }

  /** The checks after a successful scan, in the order the directive makes them. */
  function Validate(st: ScanState, scanTimeout: string -> TimeoutScan): (r: Result<Plan, ParseError>)
    ensures |st.cmds| == 0 ==> r == Err(NoCommand)
    ensures |st.cmds| > 0 && HasEmptyCommand(st.cmds) ==> r == Err(EmptyCommand)
    ensures |st.cmds| > 0 && !HasEmptyCommand(st.cmds) ==>
              (r == Err(BadTimeout) <==>
                 st.settings.timeoutString != "" && scanTimeout(st.settings.timeoutString) == Unparsable)
    ensures r.Ok? <==> |st.cmds| > 0 && !HasEmptyCommand(st.cmds) &&
                       !(st.settings.timeoutString != "" && scanTimeout(st.settings.timeoutString) == Unparsable)
    ensures r.Ok? ==> ValidPlan(r.value, scanTimeout)
                      && r.value == Plan(st.cmds, st.settings)
  {
    if |st.cmds| == 0 then Err(NoCommand)
    else if HasEmptyCommand(st.cmds) then Err(EmptyCommand)
    else if st.settings.timeoutString != "" && scanTimeout(st.settings.timeoutString) == Unparsable then
      Err(BadTimeout)
    else
      Ok(Plan(st.cmds, st.settings))
  }

  /** The whole parse: the argument count check, the scan, then validation. */
  function Parse(args: seq<string>, scanTimeout: string -> TimeoutScan): (r: Result<Plan, ParseError>)
    ensures |args| == 0 ==> r == Err(IncorrectArgumentCount)
    ensures r.Ok? ==> ValidPlan(r.value, scanTimeout)
    ensures r.Ok? ==>
              forall j, m :: 0 <= j < |r.value.commands| && 0 <= m < |r.value.commands[j]| ==>
                KeywordOf(r.value.commands[j][m]).None?
  {
    if |args| < 1 then Err(IncorrectArgumentCount)
    else
      match Scan(args)
      case Err(e) => Err(e)
      case Ok(st) => Validate(st, scanTimeout)
  }

  // ---------------------------------------------------------------------
  // The scan, described one appended token at a time.
  // ---------------------------------------------------------------------

  /** The token at `i` does not look past the end of `p`, so appending `q` does not change its effect. */
  lemma StepAppend(p: seq<string>, q: seq<string>, i: nat, st: ScanState)
    requires i < |p| && WellFormed(st) && Step(p, i, st).Advance?
    ensures Step(p + q, i, st) == Step(p, i, st)
  {
    assert (p + q)[i] == p[i];
    if i + 1 < |p| {
      assert (p + q)[i + 1] == p[i + 1];
    }
  }

  /** A scan of `p` that succeeds ends exactly at the end of `p`, and a longer list continues from there. */
  lemma {:induction false} ScanFromAppend(p: seq<string>, q: seq<string>, i: nat, st: ScanState)
    requires i <= |p| && WellFormed(st) && ScanFrom(p, i, st).Ok?
    ensures ScanFrom(p + q, i, st) == ScanFrom(p + q, |p|, ScanFrom(p, i, st).value)
    decreases |p| - i
  {
    if i < |p| {
      StepAppend(p, q, i, st);
      var m := Step(p, i, st);
      ScanFromAppend(p, q, m.next, m.state);
    }
  }

  /** COMMAND opens a new, empty argument list after all earlier ones and enters the section. */
  lemma ScanAppendCommand(p: seq<string>, st: ScanState)
    requires Scan(p) == Ok(st)
    ensures Scan(p + ["COMMAND"]) ==
            Ok(st.(cmds := st.cmds + [[]], doingCommand := true, commandIndex := |st.cmds|))
  {
    ScanFromAppend(p, ["COMMAND"], 0, Init);
    assert (p + ["COMMAND"])[|p|] == "COMMAND";
  }

  /** OUTPUT_QUIET sets its flag and closes the COMMAND section; nothing else changes. */
  lemma ScanAppendOutputQuiet(p: seq<string>, st: ScanState)
    requires Scan(p) == Ok(st)
    ensures Scan(p + ["OUTPUT_QUIET"]) ==
            Ok(st.(doingCommand := false, settings := st.settings.(outputQuiet := true)))
  {
    ScanFromAppend(p, ["OUTPUT_QUIET"], 0, Init);
    assert (p + ["OUTPUT_QUIET"])[|p|] == "OUTPUT_QUIET";
  }

  /** ERROR_QUIET sets its flag and closes the COMMAND section; nothing else changes. */
  lemma ScanAppendErrorQuiet(p: seq<string>, st: ScanState)
    requires Scan(p) == Ok(st)
    ensures Scan(p + ["ERROR_QUIET"]) ==
            Ok(st.(doingCommand := false, settings := st.settings.(errorQuiet := true)))
  {
    ScanFromAppend(p, ["ERROR_QUIET"], 0, Init);
    assert (p + ["ERROR_QUIET"])[|p|] == "ERROR_QUIET";
  }

  /**
   * A value-bearing keyword followed by any token, a keyword included, stores
   * that token verbatim as its value (replacing an earlier one) and closes
   * the COMMAND section; nothing else changes.
   */
  lemma ScanAppendValue(p: seq<string>, st: ScanState, k: Keyword, v: string)
    requires Scan(p) == Ok(st) && k.TakesValue()
    ensures Scan(p + [Spelling(k), v]) ==
            Ok(st.(doingCommand := false, settings := SetValue(st.settings, k, v)))
  {
    var args := p + [Spelling(k), v];
    ScanFromAppend(p, [Spelling(k), v], 0, Init);
    assert args[|p|] == Spelling(k) && args[|p| + 1] == v;
    ScanFinalValue(args, |p|, st, k);
  }

  lemma ScanFinalValue(args: seq<string>, i: nat, st: ScanState, k: Keyword)
    requires i + 2 == |args| && WellFormed(st) && k.TakesValue() && args[i] == Spelling(k)
    ensures ScanFrom(args, i, st) == Ok(st.(doingCommand := false, settings := SetValue(st.settings, k, args[i + 1])))
  {
    SpellingRecognised(k);
    var next := st.(doingCommand := false, settings := SetValue(st.settings, k, args[i + 1]));
    assert Step(args, i, st) == Advance(i + 2, next);
  }

  /** A value-bearing keyword reached as the last token fails with that keyword's missing-value error. */
  lemma ScanTrailingValueKeyword(p: seq<string>, k: Keyword)
    requires Scan(p).Ok? && k.TakesValue()
    ensures Scan(p + [Spelling(k)]) == Err(NoValue(k))
  {
    ScanFromAppend(p, [Spelling(k)], 0, Init);
    SpellingRecognised(k);
    assert (p + [Spelling(k)])[|p|] == Spelling(k);
  }

  /**
   * A token that is not a keyword joins the most recently opened command
   * while a COMMAND section is open, and is ignored otherwise.
   */
  lemma ScanAppendArgument(p: seq<string>, st: ScanState, t: string)
    requires Scan(p) == Ok(st) && KeywordOf(t).None?
    ensures st.doingCommand ==>
              |st.cmds| > 0 &&
              Scan(p + [t]) == Ok(st.(cmds := st.cmds[|st.cmds| - 1 := st.cmds[|st.cmds| - 1] + [t]]))
    ensures !st.doingCommand ==> Scan(p + [t]) == Ok(st)
  {
    ScanFromAppend(p, [t], 0, Init);
    assert (p + [t])[|p|] == t;
  }

  /** A repeated value-bearing keyword keeps the value of its last occurrence. */
  lemma ScanLastValueWins(p: seq<string>, k: Keyword, v1: string, v2: string)
    requires Scan(p).Ok? && k.TakesValue()
    ensures Scan(p + [Spelling(k), v1, Spelling(k), v2]).Ok?
    ensures ValueOf(Scan(p + [Spelling(k), v1, Spelling(k), v2]).value.settings, k) == v2
  {
    var st := Scan(p).value;
    ScanAppendValue(p, st, k, v1);
    var st1 := st.(doingCommand := false, settings := SetValue(st.settings, k, v1));
    ScanAppendValue(p + [Spelling(k), v1], st1, k, v2);
    assert p + [Spelling(k), v1] + [Spelling(k), v2] == p + [Spelling(k), v1, Spelling(k), v2];
  }

  /** Appending a token that needs no value keeps the scan successful and adds a command list iff it is COMMAND. */
  lemma ScanAppendCount(p: seq<string>, t: string)
    requires Scan(p).Ok?
    requires KeywordOf(t).None? || !KeywordOf(t).value.TakesValue()
    ensures Scan(p + [t]).Ok?
    ensures |Scan(p + [t]).value.cmds| == |Scan(p).value.cmds| + (if t == "COMMAND" then 1 else 0)
  {
    var st := Scan(p).value;
    if t == "COMMAND" {
      ScanAppendCommand(p, st);
    } else if t == "OUTPUT_QUIET" {
      ScanAppendOutputQuiet(p, st);
    } else if t == "ERROR_QUIET" {
      ScanAppendErrorQuiet(p, st);
    } else {
      assert KeywordOf(t).None?;
      ScanAppendArgument(p, st, t);
    }
  }

  /**
   * Every value-bearing keyword is followed by a token that is not a
   * keyword, so each one takes an ordinary value and none is left without one.
   */
  predicate ValuesSupplied(args: seq<string>) {
    forall m :: 0 <= m < |args| && KeywordOf(args[m]).Some? && KeywordOf(args[m]).value.TakesValue() ==>
      m + 1 < |args| && KeywordOf(args[m + 1]).None?
  }

  /** The COMMAND tokens from `i` on: the one at `i`, if it is one, and those after it. */
  lemma CountSplit(args: seq<string>, i: nat)
    requires i < |args|
    ensures multiset(args[i..])["COMMAND"] ==
            (if args[i] == "COMMAND" then 1 else 0) + multiset(args[i + 1..])["COMMAND"]
  {
    assert args[i..] == [args[i]] + args[i + 1..];
  }

  /** A token that takes no value is one step, adding a command list iff it is COMMAND. */
  lemma StepSingle(args: seq<string>, i: nat, st: ScanState)
    requires i < |args| && WellFormed(st)
    requires KeywordOf(args[i]).None? || !KeywordOf(args[i]).value.TakesValue()
    ensures Step(args, i, st).Advance? && Step(args, i, st).next == i + 1
    ensures |Step(args, i, st).state.cmds| == |st.cmds| + (if args[i] == "COMMAND" then 1 else 0)
  {
    SpellingRecognised(Command);
  }

  /** A value-bearing keyword with a token after it is one step over both, with the command lists unchanged. */
  lemma StepValue(args: seq<string>, i: nat, st: ScanState)
    requires i + 1 < |args| && WellFormed(st)
    requires KeywordOf(args[i]).Some? && KeywordOf(args[i]).value.TakesValue()
    ensures Step(args, i, st).Advance? && Step(args, i, st).next == i + 2
    ensures Step(args, i, st).state.cmds == st.cmds
  {
  }

  /** One step adds a command list exactly for each COMMAND token it passes over. */
  lemma StepCount(args: seq<string>, i: nat, st: ScanState)
    requires i < |args| && WellFormed(st) && ValuesSupplied(args)
    ensures Step(args, i, st).Advance?
    ensures |Step(args, i, st).state.cmds| + multiset(args[Step(args, i, st).next..])["COMMAND"] ==
            |st.cmds| + multiset(args[i..])["COMMAND"]
  {
    CountSplit(args, i);
    var kw := KeywordOf(args[i]);
    if kw.Some? && kw.value.TakesValue() {
      assert i + 1 < |args| && KeywordOf(args[i + 1]).None?;
      SpellingRecognised(Command);
      CountSplit(args, i + 1);
      StepValue(args, i, st);
    } else {
      StepSingle(args, i, st);
    }
  }

  /** From position `i` on, each COMMAND token opens exactly one command list. */
  lemma {:induction false} CommandCountFrom(args: seq<string>, i: nat, st: ScanState)
    requires i <= |args| && WellFormed(st) && ValuesSupplied(args)
    ensures ScanFrom(args, i, st).Ok?
    ensures |ScanFrom(args, i, st).value.cmds| == |st.cmds| + multiset(args[i..])["COMMAND"]
    decreases |args| - i
  {
    if i < |args| {
      StepCount(args, i, st);
      var m := Step(args, i, st);
      CommandCountFrom(args, m.next, m.state);
    }
  }

  /**
   * When every value-bearing keyword is given an ordinary value, the scan
   * succeeds with one command list per COMMAND token.
   */
  lemma CommandCount(args: seq<string>)
    requires ValuesSupplied(args)
    ensures Scan(args).Ok?
    ensures |Scan(args).value.cmds| == multiset(args)["COMMAND"]
  {
    CommandCountFrom(args, 0, Init);
    assert args[0..] == args;
  }

  /**
   * The trailing-keyword error depends on where the scan stands: a
   * value-bearing keyword in last position is taken as the value of the
   * keyword before it when the scan reaches that one as a keyword and it
   * needs a value.  This is one instance; `ScanAppendValue` with a keyword
   * as the value is the general case.
   */
  lemma TrailingKeywordTakenAsValue()
    ensures Scan(["COMMAND", "echo", "OUTPUT_VARIABLE", "TIMEOUT"]).Ok?
    ensures Scan(["COMMAND", "echo", "OUTPUT_VARIABLE", "TIMEOUT"]).value.settings.outputVariable == "TIMEOUT"
  {
    var p := ["COMMAND", "echo"];
    ScanAppendCommand([], Init);
    assert [] + ["COMMAND"] == ["COMMAND"];
    var st1 := Init.(cmds := Init.cmds + [[]], doingCommand := true, commandIndex := |Init.cmds|);
    ScanAppendArgument(["COMMAND"], st1, "echo");
    assert ["COMMAND"] + ["echo"] == p;
    var st2 := st1.(cmds := st1.cmds[|st1.cmds| - 1 := st1.cmds[|st1.cmds| - 1] + ["echo"]]);
    ScanAppendValue(p, st2, OutputVariable, "TIMEOUT");
    assert p + [Spelling(OutputVariable), "TIMEOUT"] == ["COMMAND", "echo", "OUTPUT_VARIABLE", "TIMEOUT"];
  }

  /**
   * A value-bearing keyword just before the last token does not save it when
   * that keyword was itself consumed as a value: the scan then reaches the
   * last token as a keyword, and it has no value.
   */
  lemma TrailingKeywordAfterConsumedValue()
    ensures Scan(["COMMAND", "echo", "OUTPUT_VARIABLE", "TIMEOUT", "ERROR_FILE"]) == Err(NoValue(ErrorFile))
  {
    var p := ["COMMAND", "echo", "OUTPUT_VARIABLE", "TIMEOUT"];
    TrailingKeywordTakenAsValue();
    ScanTrailingValueKeyword(p, ErrorFile);
    assert p + [Spelling(ErrorFile)] == ["COMMAND", "echo", "OUTPUT_VARIABLE", "TIMEOUT", "ERROR_FILE"];
  }
}
