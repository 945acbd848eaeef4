/** The keywords that `execute_process` recognises in its argument list. */
module Keywords {
  import opened Wrappers

  datatype Keyword =
    | Command
    | OutputVariable
    | ErrorVariable
    | ResultVariable
    | WorkingDirectory
    | InputFile
    | OutputFile
    | ErrorFile
    | Timeout
    | OutputQuiet
    | ErrorQuiet
  {
    /** A value-bearing keyword consumes the token after it as its value. */
    predicate TakesValue() {
      !(Command? || OutputQuiet? || ErrorQuiet?)
    }
  }

  /** The exact token that spells each keyword. */
  function Spelling(k: Keyword): string {
    match k
    case Command => "COMMAND"
    case OutputVariable => "OUTPUT_VARIABLE"
    case ErrorVariable => "ERROR_VARIABLE"
    case ResultVariable => "RESULT_VARIABLE"
    case WorkingDirectory => "WORKING_DIRECTORY"
    case InputFile => "INPUT_FILE"
    case OutputFile => "OUTPUT_FILE"
    case ErrorFile => "ERROR_FILE"
    case Timeout => "TIMEOUT"
    case OutputQuiet => "OUTPUT_QUIET"
    case ErrorQuiet => "ERROR_QUIET"
  }

  /** Recognises a token by exact comparison, in the order the scanner tests them. */
  function KeywordOf(token: string): (r: Option<Keyword>)
    ensures r.Some? ==> Spelling(r.value) == token
    ensures r.None? ==> forall k: Keyword :: Spelling(k) != token
  {
    if token == "COMMAND" then Some(Command)
    else if token == "OUTPUT_VARIABLE" then Some(OutputVariable)
    else if token == "ERROR_VARIABLE" then Some(ErrorVariable)
    else if token == "RESULT_VARIABLE" then Some(ResultVariable)
    else if token == "WORKING_DIRECTORY" then Some(WorkingDirectory)
    else if token == "INPUT_FILE" then Some(InputFile)
    else if token == "OUTPUT_FILE" then Some(OutputFile)
    else if token == "ERROR_FILE" then Some(ErrorFile)
    else if token == "TIMEOUT" then Some(Timeout)
    else if token == "OUTPUT_QUIET" then Some(OutputQuiet)
    else if token == "ERROR_QUIET" then Some(ErrorQuiet)
    else None
  }

  /** Every keyword's spelling is recognised as that keyword and no other. */
  lemma SpellingRecognised(k: Keyword)
    ensures KeywordOf(Spelling(k)) == Some(k)
  {
  }
}
