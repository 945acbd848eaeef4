/**
 * How `execute_process` publishes its results: the captured text and the
 * engine's terminal state become definitions in the calling makefile.
 */
module ResultReporter {
  import opened Wrappers
  import opened Decimal
  import opened ArgumentScanner
  import opened StreamClassifier

  /** The engine's state after the pipeline has been waited for. */
  datatype TerminalState =
    | Exited(exitValue: Int32)
    | Exception(exceptionText: string)
    | Error(errorText: string)
    | Expired
    | Other                      // any other engine state: nothing is reported

  const TimeoutMessage: string := "Process terminated due to timeout"

  /** The text a result variable receives, if any. */
  function ResultText(t: TerminalState): (r: Option<string>)
    ensures r.None? <==> t.Other?
    ensures t.Exited? ==> ParseDecimal(r.value) == Some(t.exitValue as int)
    ensures t.Exception? ==> r == Some(t.exceptionText)
    ensures t.Error? ==> r == Some(t.errorText)
    ensures t.Expired? ==> r == Some(TimeoutMessage)
  {
    match t
    case Exited(v) =>
      DecimalRoundTrip(v);
      Some(DecimalString(v))
    case Exception(text) => Some(text)
    case Error(text) => Some(text)
    case Expired => Some(TimeoutMessage)
    case Other => None
  }

  /** The text a C string pointing at `buf` stands for: everything before the first NUL. */
  function CString(buf: seq<char>): (r: string)
    ensures r <= buf
    ensures NUL !in r
    ensures |r| < |buf| ==> buf[|r|] == NUL
  {
    if buf == [] || buf[0] == NUL then [] else [buf[0]] + CString(buf[1..])
  }

  /** A buffer without NUL, terminated by one NUL, stands for exactly its contents. */
  lemma {:induction false} CStringOfTerminated(buf: seq<char>)
    requires NUL !in buf
    ensures CString(buf + [NUL]) == buf
  {
    if buf == [] {
      assert buf + [NUL] == [NUL];
    } else {
      assert (buf + [NUL])[0] == buf[0];
      assert (buf + [NUL])[1..] == buf[1..] + [NUL];
      CStringOfTerminated(buf[1..]);
    }
  }

  /** The variable table of the calling makefile, with overwrite-on-define. */
  class Makefile {
    var definitions: map<string, string>

    constructor (initial: map<string, string>)
      ensures definitions == initial
    {
      definitions := initial;
    }

    method AddDefinition(name: string, value: string)
      modifies this
      ensures definitions == old(definitions)[name := value]
    {
      definitions := definitions[name := value];
    }
  }

  /** The definitions after reporting, made in the directive's order: output, error, result. */
  function Reported(defs: map<string, string>, s: Settings, output: seq<char>, error: seq<char>,
                    t: TerminalState): (r: map<string, string>)
    ensures defs.Keys <= r.Keys
    ensures forall n :: n in r && n !in defs ==> n == s.outputVariable || n == s.errorVariable || n == s.resultVariable
    ensures s.outputVariable == "" && s.errorVariable == "" && s.resultVariable == "" ==> r == defs
  {
    var afterOutput :=
      if s.outputVariable != "" then defs[s.outputVariable := CString(output + [NUL])] else defs;
    var afterError :=
      if !s.MergeOutput() && s.errorVariable != "" then afterOutput[s.errorVariable := CString(error + [NUL])]
      else afterOutput;
    if s.resultVariable != "" && ResultText(t).Some? then afterError[s.resultVariable := ResultText(t).value]
    else afterError
  }

  /**
   * A name is defined after reporting iff it was before or it is the output
   * variable, the error variable of an unmerged capture, or the result
   * variable of a reportable state.  Where names coincide, the later write
   * wins: the result text over the error text over the output text.  Text
   * without NUL is stored whole.
   */
  lemma ReportedLookup(defs: map<string, string>, s: Settings, output: seq<char>, error: seq<char>,
                       t: TerminalState, name: string)
    requires NUL !in output && NUL !in error
    ensures var r := Reported(defs, s, output, error, t);
            var isOutput := name == s.outputVariable && s.outputVariable != "";
            var isError := name == s.errorVariable && s.errorVariable != "" && !s.MergeOutput();
            var isResult := name == s.resultVariable && s.resultVariable != "" && !t.Other?;
            (name in r <==> name in defs || isOutput || isError || isResult) &&
            (name in r ==>
               r[name] == if isResult then ResultText(t).value
                          else if isError then error
                          else if isOutput then output
                          else defs[name])
  {
    CStringOfTerminated(output);
    CStringOfTerminated(error);
  }

  /** With merged capture, the shared variable is written once, with the output buffer. */
  lemma MergedWrittenOnce(defs: map<string, string>, s: Settings, output: seq<char>, error: seq<char>,
                          t: TerminalState)
    requires NUL !in output && NUL !in error
    requires s.MergeOutput() && s.outputVariable != "" && s.resultVariable != s.outputVariable
    ensures Reported(defs, s, output, error, t)[s.errorVariable] == output
  {
    ReportedLookup(defs, s, output, error, t, s.errorVariable);
  }

  /** The reporting calls, one definition at a time. */
  method Report(mf: Makefile, s: Settings, tempOutput: seq<char>, tempError: seq<char>, t: TerminalState)
    modifies mf
    ensures mf.definitions == Reported(old(mf.definitions), s, tempOutput, tempError, t)
  {
    var mergeOutput := s.outputVariable == s.errorVariable;
    if s.outputVariable != "" {
      mf.AddDefinition(s.outputVariable, CString(tempOutput + [NUL]));
    }
    if !mergeOutput && s.errorVariable != "" {
      mf.AddDefinition(s.errorVariable, CString(tempError + [NUL]));
    }
    if s.resultVariable != "" {
      match t {
        case Exited(v) => mf.AddDefinition(s.resultVariable, DecimalString(v));
        case Exception(text) => mf.AddDefinition(s.resultVariable, text);
        case Error(text) => mf.AddDefinition(s.resultVariable, text);
        case Expired => mf.AddDefinition(s.resultVariable, TimeoutMessage);
        case Other =>
      }
    }
  }
}
