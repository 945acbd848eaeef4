# execute_process, modelled in Dafny

This project models CMake's `execute_process` directive, implemented by
`cmExecuteProcessCommand::InitialPass`. The directive runs a pipeline of
commands, captures or passes on their output and error text, and reports the
captured text and the exit status into makefile variables. It works in four
steps, and each step is one module:

- `ArgumentScanner`: the keyword scan over the argument list and the
  validation that follows it. The scan is the method `ScanArguments`, a
  `while` loop that advances its index by hand the way the C++ does. It is
  proved equal to the specification function `Scan`. The scan's behaviour is
  then stated token by token: each `ScanAppend…` lemma says what appending
  one token (or one keyword and its value) does to the result.
- `PipeSetup`: the configuration handed to the process engine (the stages,
  the working directory, the hidden window, the shared or file-bound pipes,
  the timeout), recorded as a `PipeConfig` value.
- `StreamClassifier`: the read loop. Each chunk is copied into an array,
  its NUL characters are replaced in place (`SanitizeInPlace`), and it is
  routed to the output buffer, the error buffer, the caller's stdout or
  nowhere (`DrainChunks`, proved equal to the fold `Drain`).
- `ResultReporter`: the definitions written into the makefile's variable
  table (`Makefile.AddDefinition`, `Report`). This includes the C-string
  reading of the NUL-terminated buffers and the `%d` text of the exit value
  (module `Decimal`).

`ExecuteProcess` puts the steps together. The class `ExecuteProcessCommand`
holds `InitialPass`, and the pure function `Execute` is its specification.

The process engine is a parameter, `engine: PipeConfig -> Run`. It returns
the chunks the engine delivers, in order, and the state it ends in. What
`sscanf("%lg")` makes of the timeout text is also a parameter,
`scanTimeout: string -> TimeoutScan`, with the values unparsable,
non-negative and negative. One Dafny `char` stands for one C++ `char`. A
Dafny `char` is a Unicode scalar value, so the model's alphabet is larger
than a byte's, but nothing modelled depends on the width of a character.

Three behaviours of the code are worth stating on their own:

- A value-bearing keyword in last position fails only when the scan
  reaches it as a keyword. If the token before it is a value-bearing
  keyword that the scan reaches as a keyword (not itself consumed as a
  value), the last token is consumed as that keyword's value and the scan
  succeeds (`ScanAppendValue`, with the instance
  `TrailingKeywordTakenAsValue`). If that keyword was itself consumed as a
  value, the last token fails (`TrailingKeywordAfterConsumedValue`).
- Output and error are merged whenever the two variable names are equal,
  so two empty names count as merged. With both names empty, a stderr
  chunk would then be printed (`RouteDiffersWhenStderrUndelivered`). But
  then stderr is either quieted or shared with the caller, and the engine
  delivers nothing on a shared stderr. A stricter rule that merges only equal non-empty
  names (`StrictMergeRoute`) agrees with the code's routing on every pipe
  the engine delivers (`RouteMatchesStrictMerge`).
- TIMEOUT text is rejected only when it fails to parse. A parsed value
  that is negative (or NaN) is accepted and then not applied
  (`ConfigureStreams`).

## Model

| member | source | states |
|---|---|---|
| `Keywords.KeywordOf` | Source/cmExecuteProcessCommand.cxx:46-165 | a token is recognised as a keyword only if it is that keyword's exact spelling, and a token that spells no keyword gives none |
| `Keywords.SpellingRecognised` | Source/cmExecuteProcessCommand.cxx:46-165 | every keyword's spelling is recognised as that keyword |
| `ArgumentScanner.SetValue` | Source/cmExecuteProcessCommand.cxx:52-155 | a value-bearing keyword stores its value in its own setting, overwriting the old one, and no other setting or flag changes |
| `ArgumentScanner.Settings.MergeOutput` | Source/cmExecuteProcessCommand.cxx:222 | output and error are merged whenever the two names are equal, so two empty names count as merged; a merge never pairs an empty name with a non-empty one |
| `ArgumentScanner.Step` | Source/cmExecuteProcessCommand.cxx:44-169 | one token moves the scan strictly forward and keeps the scan invariant; the scan stops only at a value-bearing keyword in last position |
| `ArgumentScanner.ScanFrom` | Source/cmExecuteProcessCommand.cxx:44-170 | a successful scan keeps the invariant: the command index names the last opened command, a section is open only after a COMMAND, and no keyword is stored as an argument; every scan error is the missing-value error of the keyword in last position |
| `ArgumentScanner.Scan` | Source/cmExecuteProcessCommand.cxx:44-170 | a successful scan of the whole list keeps the scan invariant; a failed scan fails at the last token, which spells a value-bearing keyword (the token-by-token effect is in the `ScanAppend…` lemmas, and `ScanArguments` is proved equal to it) |
| `ArgumentScanner.ScanArguments` | Source/cmExecuteProcessCommand.cxx:44-170 | the hand-advanced scan loop computes exactly the scan `Scan` |
| `ArgumentScanner.FindEmptyCommand` | Source/cmExecuteProcessCommand.cxx:178-190 | the loop reports true iff some COMMAND section has no arguments |
| `ArgumentScanner.Validate` | Source/cmExecuteProcessCommand.cxx:172-201 | the checks run in order: no command gives the no-COMMAND error, otherwise an empty command gives the empty-COMMAND error, and only then does unparsable timeout text give the TIMEOUT error; a state is accepted iff it passes all three, and then becomes a plan with at least one command, every command non-empty |
| `ArgumentScanner.Parse` | Source/cmExecuteProcessCommand.cxx:25-201 | an empty argument list is the incorrect-number-of-arguments error; an accepted plan is valid and none of its command arguments is a keyword |
| `ArgumentScanner.StepAppend` | Source/cmExecuteProcessCommand.cxx:44-169 | a token's effect depends only on itself and the token after it, so tokens appended later do not change it |
| `ArgumentScanner.ScanFromAppend` | Source/cmExecuteProcessCommand.cxx:44-170 | a successful scan of a prefix ends exactly at its end, and scanning a longer list continues from the state it left |
| `ArgumentScanner.ScanAppendCommand` | Source/cmExecuteProcessCommand.cxx:46-51 | COMMAND appends a new empty argument list after the earlier ones, opens the section and points the index at the new list |
| `ArgumentScanner.ScanAppendOutputQuiet` | Source/cmExecuteProcessCommand.cxx:156-160 | OUTPUT_QUIET sets its flag and closes the section, nothing else changes |
| `ArgumentScanner.ScanAppendErrorQuiet` | Source/cmExecuteProcessCommand.cxx:161-165 | ERROR_QUIET sets its flag and closes the section, nothing else changes |
| `ArgumentScanner.ScanAppendValue` | Source/cmExecuteProcessCommand.cxx:52-155 | a value-bearing keyword takes the next token verbatim as its value, keyword or not, and closes the section |
| `ArgumentScanner.ScanTrailingValueKeyword` | Source/cmExecuteProcessCommand.cxx:52-155 | a value-bearing keyword reached as the final token fails with that keyword's missing-value error |
| `ArgumentScanner.ScanAppendArgument` | Source/cmExecuteProcessCommand.cxx:166-169 | a non-keyword token joins the last opened command while a section is open, and is ignored with the state unchanged otherwise |
| `ArgumentScanner.ScanFinalValue` | Source/cmExecuteProcessCommand.cxx:52-155 | a value-bearing keyword followed by one last token ends the scan successfully with that token stored as its value |
| `ArgumentScanner.ScanLastValueWins` | Source/cmExecuteProcessCommand.cxx:52-155 | a repeated value-bearing keyword keeps its last value |
| `ArgumentScanner.ScanAppendCount` | Source/cmExecuteProcessCommand.cxx:46-51 | a successful scan stays successful when a token that is not a value-bearing keyword is appended, and gains a command list exactly when that token is COMMAND |
| `ArgumentScanner.CommandCount` | Source/cmExecuteProcessCommand.cxx:44-170 | when every value-bearing keyword is followed by a non-keyword value, the scan succeeds with one command list per COMMAND token |
| `ArgumentScanner.CommandCountFrom` | Source/cmExecuteProcessCommand.cxx:44-170 | under the same condition, the scan from any position succeeds and adds one command list per COMMAND token from there on |
| `ArgumentScanner.StepCount` | Source/cmExecuteProcessCommand.cxx:44-169 | under the same condition, one step never stops and adds a command list exactly for the COMMAND tokens it passes over |
| `ArgumentScanner.StepSingle` | Source/cmExecuteProcessCommand.cxx:46-51 | a token that takes no value advances by one and adds a command list iff it is COMMAND |
| `ArgumentScanner.StepValue` | Source/cmExecuteProcessCommand.cxx:52-155 | a value-bearing keyword with a token after it advances over both and leaves the command lists unchanged |
| `ArgumentScanner.TrailingKeywordTakenAsValue` | Source/cmExecuteProcessCommand.cxx:52-64 | one instance: a value-bearing keyword in last position that is consumed as the previous keyword's value causes no error; the general case is `ScanAppendValue` with a keyword as the value |
| `ArgumentScanner.TrailingKeywordAfterConsumedValue` | Source/cmExecuteProcessCommand.cxx:52-139 | a value-bearing keyword in last position still fails when the value-bearing keyword before it was itself consumed as a value |
| `Decimal.DecimalString` | Source/cmExecuteProcessCommand.cxx:310-313 | the exit value text is non-empty, starts with a minus sign iff the value is negative, is digits otherwise, and has no leading zero unless it is "0" |
| `Decimal.DecimalRoundTrip` | Source/cmExecuteProcessCommand.cxx:310-313 | the exit value text reads back as the exit value |
| `PipeSetup.ConfigurePipeline` | Source/cmExecuteProcessCommand.cxx:206-210 | the engine gets the plan's commands in order, at least one, each with an executable |
| `PipeSetup.Configure` | Source/cmExecuteProcessCommand.cxx:206-244 | the engine gets the plan's commands and a hidden window; stderr is shared only when no error variable is named; a timeout is applied only as the timeout text, and only when it parses as non-negative (the full configuration is in `ConfigurePipeline` and `ConfigureStreams`) |
| `PipeSetup.ConfigureStreams` | Source/cmExecuteProcessCommand.cxx:212-244 | stderr is shared iff no error variable is named and errors are not quiet; each non-empty path, the working directory included, is passed as given; the window is always hidden; a timeout is applied iff the text is non-empty and not negative, and then it is that text |
| `StreamClassifier.Sanitize` | Source/cmExecuteProcessCommand.cxx:257-264 | sanitising keeps the length and changes exactly the NUL characters, into spaces |
| `StreamClassifier.SanitizeHasNoNul` | Source/cmExecuteProcessCommand.cxx:257-264 | no NUL survives sanitising |
| `StreamClassifier.SanitizeKeepsClean` | Source/cmExecuteProcessCommand.cxx:257-264 | text without NUL is unchanged |
| `StreamClassifier.SanitizeIdempotent` | Source/cmExecuteProcessCommand.cxx:257-264 | sanitising twice equals sanitising once |
| `StreamClassifier.SanitizeInPlace` | Source/cmExecuteProcessCommand.cxx:258-264 | the in-place loop leaves the array equal to the sanitised old contents |
| `StreamClassifier.Deliver` | Source/cmExecuteProcessCommand.cxx:257-285 | one chunk only extends the buffers and the passthrough, by at most its own length (which buffer gets what is in `DrainGathers`) |
| `StreamClassifier.Drain` | Source/cmExecuteProcessCommand.cxx:250-286 | the read loop keeps no more text than the chunks delivered (its contents are in `DrainGathers`, `DrainHasNoNul` and `MergedCapture`, and `DrainChunks` is proved equal to it) |
| `StreamClassifier.Route` | Source/cmExecuteProcessCommand.cxx:266-285 | only a named output variable gets an output-buffer chunk and passthrough happens only without one; only stderr with a named, unmerged error variable reaches the error buffer; stdout is dropped iff quieted, and quieted stderr is always dropped (compared with the strict-merge rule in `RouteMatchesStrictMerge`) |
| `StreamClassifier.RouteMatchesStrictMerge` | Source/cmExecuteProcessCommand.cxx:222-285 | for every pipe the engine delivers, the code's routing equals the strict-merge rule, which merges only equal non-empty names |
| `StreamClassifier.RouteDiffersWhenStderrUndelivered` | Source/cmExecuteProcessCommand.cxx:222-285 | with both variable names empty, a stderr chunk would be printed by the code but dropped by the strict-merge rule |
| `StreamClassifier.DrainChunks` | Source/cmExecuteProcessCommand.cxx:250-286 | the read loop builds exactly the buffers and passthrough text of the fold `Drain` over the chunks |
| `StreamClassifier.GatherAppend` | Source/cmExecuteProcessCommand.cxx:255-286 | the text routed to one destination by two chunk sequences in a row is the two texts concatenated |
| `StreamClassifier.DrainGathers` | Source/cmExecuteProcessCommand.cxx:255-286 | each buffer holds exactly the sanitised text of the chunks routed to it, in delivery order |
| `StreamClassifier.DrainAppendOnly` | Source/cmExecuteProcessCommand.cxx:255-286 | the buffers and the passthrough only grow: earlier text is a prefix of later text |
| `StreamClassifier.DrainHasNoNul` | Source/cmExecuteProcessCommand.cxx:255-286 | no NUL reaches either buffer or the passthrough |
| `StreamClassifier.MergedCapture` | Source/cmExecuteProcessCommand.cxx:266-278 | with one non-empty variable for both streams and no quiet flag, the output buffer gets both streams' text in delivery order, and nothing goes elsewhere |
| `StreamClassifier.QuietCapturesNothing` | Source/cmExecuteProcessCommand.cxx:266-285 | with both quiet flags set, nothing is captured or printed |
| `StreamClassifier.OutputQuietPrintsNothing` | Source/cmExecuteProcessCommand.cxx:223-285 | with OUTPUT_QUIET and no output variable, nothing is printed and no output text is kept, for any chunks the engine can deliver |
| `ResultReporter.ResultText` | Source/cmExecuteProcessCommand.cxx:304-329 | every state except the unreported ones gives a result text; an exit value's text reads back as that value, an exception or error text is reported verbatim, and an expired run reports the timeout message |
| `ResultReporter.CString` | Source/cmExecuteProcessCommand.cxx:292-300 | a definition read from a buffer is its longest prefix without NUL |
| `ResultReporter.CStringOfTerminated` | Source/cmExecuteProcessCommand.cxx:292-300 | a NUL-free buffer followed by its terminator is defined as the whole buffer |
| `ResultReporter.Reported` | Source/cmExecuteProcessCommand.cxx:291-329 | reporting never removes a definition, defines nothing but the three named variables, and changes nothing when none is named (each name's value is in `ReportedLookup`) |
| `ResultReporter.Makefile.AddDefinition` | Source/cmExecuteProcessCommand.cxx:295 | a definition overwrites the name and changes nothing else |
| `ResultReporter.ReportedLookup` | Source/cmExecuteProcessCommand.cxx:291-329 | a name is defined iff it was before or is the output variable, the unmerged error variable, or the result variable of a reportable state; the later write wins; buffers are stored whole |
| `ResultReporter.MergedWrittenOnce` | Source/cmExecuteProcessCommand.cxx:222-300 | with merged capture the shared variable holds the output buffer and is not overwritten by the error buffer |
| `ResultReporter.Report` | Source/cmExecuteProcessCommand.cxx:291-329 | the reporting calls produce exactly the definitions of `Reported` |
| `ExecuteProcess.Execute` | Source/cmExecuteProcessCommand.cxx:23-335 | a failure is exactly the parse error; a success runs a valid plan's own commands and keeps every earlier definition (the variables' values are in `ExecuteReportsCapture`) |
| `ExecuteProcess.ExecuteProcessCommand.InitialPass` | Source/cmExecuteProcessCommand.cxx:23-335 | a parse failure records its error and changes nothing else; otherwise the passthrough text goes to stdout, the definitions are those of `Execute`, and the call returns true |
| `ExecuteProcess.ExecuteReportsCapture` | Source/cmExecuteProcessCommand.cxx:288-334 | after a successful parse the output, error and result variables hold the whole output buffer, the whole error buffer and the state's text, unless a later write replaces them |
| `ExecuteProcess.MergedVariableGetsBothStreams` | Source/cmExecuteProcessCommand.cxx:222-300 | with one variable for both streams, it gets both streams' text in delivery order |
| `ExecuteProcess.ExecuteFailsOnlyInParse` | Source/cmExecuteProcessCommand.cxx:23-335 | the directive fails iff the parse fails, and an empty argument list always fails |
| `ExecuteProcess.ExpiredReportsTimeout` | Source/cmExecuteProcessCommand.cxx:303-329 | when the run expires and a result variable is named, the directive succeeds and that variable holds "Process terminated due to timeout" |
| `ExecuteProcess.EchoScenario` | Source/cmExecuteProcessCommand.cxx:23-335 | `COMMAND echo hello OUTPUT_VARIABLE out RESULT_VARIABLE rc`, exiting with 0, defines `out` as "hello\n" and `rc` as "0" |
| `ExecuteProcess.ScanEchoArguments` | Source/cmExecuteProcessCommand.cxx:44-170 | the echo scenario's arguments scan to one command `echo hello`, with `out` and `rc` named |
| `ExecuteProcess.ScanEchoCommand` | Source/cmExecuteProcessCommand.cxx:46-51 | `COMMAND echo hello` scans to one open command section holding `echo hello` |
| `ExecuteProcess.EchoParse` | Source/cmExecuteProcessCommand.cxx:25-201 | the echo scenario's arguments are accepted as the plan with one command `echo hello`, `out` as output variable and `rc` as result variable |
| `ExecuteProcess.EchoDrain` | Source/cmExecuteProcessCommand.cxx:255-286 | in the echo scenario the one stdout chunk lands whole in the output buffer |
| `ExecuteProcess.EchoReported` | Source/cmExecuteProcessCommand.cxx:291-313 | in the echo scenario `out` is defined as the output text and `rc` as "0" |

## Left out

- The `cmsysProcess_*` calls (creating, configuring, starting, polling, waiting for and deleting the process) are not modelled as effects. The engine is the parameter `engine`, a function from the `PipeConfig` record to the chunks it delivers and the state it ends in. Pipelining between stages, the effect of the working directory and the window, and timeout enforcement belong to the engine.
- The timeout's numeric value (`sscanf` with `%lg` into a `double`) is floating point. Only the parse outcome is modelled, by the parameter `scanTimeout`; `PipeConfig.timeout` records the timeout text when a timeout is applied.
- The null pointer appended to each command's argument vector is a C calling convention and is not modelled.
- Command arguments (line 168), the timeout text (line 196), the working directory and the three file paths (lines 215, 229, 233 and 237), variable names (lines 295, 300 and 313) and the exception and error texts (lines 318 and 322) are passed on as C strings, so an embedded NUL would cut them short. The model keeps them whole, so `ConfigureStreams`' "passed as given" holds for NUL-free text only.
- Error message text is not modelled: `ParseError` has one constructor per message.
- `DrainChunks` returns the passthrough text, and `InitialPass` appends it to `stdoutLog` after the loop rather than chunk by chunk. Nothing else writes to stdout during the loop, so the final log is the same.
- The engine's delivery contract is the predicate `Delivered`: no chunk arrives on a pipe that is shared with the caller (stderr when no error variable is named and errors are not quiet) or bound to a file (stdout with OUTPUT_FILE, stderr with ERROR_FILE). `RouteMatchesStrictMerge` and `OutputQuietPrintsNothing` assume it; the other lemmas hold for any chunks.
- Engine states other than exited, exception, error and expired are one constructor, `Other`, which reports nothing.
- Loop indices (`size_t`, `unsigned int`) are unbounded integers. No argument list in the model reaches their bounds.
- `Execute` is deterministic. Two runs with the same arguments, engine and definitions therefore give the same outcome; no separate lemma states this.
