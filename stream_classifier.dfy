/**
 * What `execute_process` does with each chunk the engine delivers: NUL
 * characters become spaces, then the chunk goes to the output buffer, the
 * error buffer, the caller's stdout, or nowhere.
 */
module StreamClassifier {
  import opened ArgumentScanner
  import opened PipeSetup

  const NUL: char := '\0'

  /** One piece of data read from one pipe. */
  datatype Chunk = Chunk(pipe: Pipe, data: seq<char>)

  function SanitizeChar(c: char): char {
    if c == NUL then ' ' else c
  }

  /** The chunk text with every NUL replaced by a space. */
  function Sanitize(s: seq<char>): (r: seq<char>)
    ensures |r| == |s|
    ensures forall i :: 0 <= i < |s| ==> r[i] == SanitizeChar(s[i])
  {
    if s == [] then [] else [SanitizeChar(s[0])] + Sanitize(s[1..])
  }

  /** No NUL survives sanitising. */
  lemma SanitizeHasNoNul(s: seq<char>)
    ensures NUL !in Sanitize(s)
  {
  }

  /** Text without NUL is left exactly as it is. */
  lemma SanitizeKeepsClean(s: seq<char>)
    requires NUL !in s
    ensures Sanitize(s) == s
  {
    assert forall i :: 0 <= i < |s| ==> Sanitize(s)[i] == s[i];
  }

  /** Sanitising twice is sanitising once. */
  lemma SanitizeIdempotent(s: seq<char>)
    ensures Sanitize(Sanitize(s)) == Sanitize(s)
  {
    SanitizeHasNoNul(s);
    SanitizeKeepsClean(Sanitize(s));
  }

  /** The translation loop, which rewrites the delivered data in place. */
  method SanitizeInPlace(data: array<char>)
    modifies data
    ensures data[..] == Sanitize(old(data[..]))
  {
    var i := 0;
    while i < data.Length
      invariant 0 <= i <= data.Length
      invariant forall j :: 0 <= j < i ==> data[j] == SanitizeChar(old(data[j]))
      invariant forall j :: i <= j < data.Length ==> data[j] == old(data[j])
    {
      if data[i] == NUL {
        data[i] := ' ';
      }
      i := i + 1;
    }
  }

  datatype Destination = OutputBuffer | ErrorBuffer | Passthrough | Discard

  /** Where a chunk from pipe `p` goes under the directive's settings. */
  function Route(s: Settings, p: Pipe): (r: Destination)
    ensures r == OutputBuffer ==> s.outputVariable != ""
    ensures r == Passthrough ==> s.outputVariable == ""
    ensures r == ErrorBuffer ==> p == Stderr && s.errorVariable != "" && !s.MergeOutput()
    ensures p == Stdout ==> (r == Discard <==> s.outputQuiet)
    ensures p == Stderr && s.errorQuiet ==> r == Discard
  {
    if (p == Stdout && !s.outputQuiet) || (p == Stderr && !s.errorQuiet && s.MergeOutput()) then
      if s.outputVariable == "" then Passthrough else OutputBuffer
    else if p == Stderr && !s.errorQuiet && s.errorVariable != "" then
      ErrorBuffer
    else
      Discard
  }

  /**
   * A stricter routing rule, where error text merges with output text only
   * when the two variable names are equal and non-empty.
   */
  function StrictMergeRoute(s: Settings, p: Pipe): Destination {
    match p
    case Stdout =>
      if s.outputQuiet then Discard
      else if s.outputVariable == "" then Passthrough
      else OutputBuffer
    case Stderr =>
      if s.errorQuiet then Discard
      else if s.outputVariable != "" && s.outputVariable == s.errorVariable then OutputBuffer
      else if s.errorVariable == "" then Discard
      else ErrorBuffer
  }

  /**
   * For every pipe the engine delivers, the routing the directive applies is
   * the strict-merge rule; the two differ only for stderr chunks when both
   * variable names are empty, and then stderr is shared and delivers nothing.
   */
  lemma RouteMatchesStrictMerge(plan: Plan, scanTimeout: string -> TimeoutScan, p: Pipe)
    requires Delivered(Configure(plan, scanTimeout), p)
    ensures Route(plan.settings, p) == StrictMergeRoute(plan.settings, p)
  {
  }

  /** Without the delivery rule, a stderr chunk with both names empty would be printed, not dropped. */
  lemma RouteDiffersWhenStderrUndelivered()
    ensures Route(NoSettings, Stderr) == Passthrough
    ensures StrictMergeRoute(NoSettings, Stderr) == Discard
  {
  }

  /** The two buffers and the passthrough log, in delivery order. */
  datatype Captured = Captured(output: seq<char>, error: seq<char>, passthrough: seq<char>)

  /** One pass of the read loop's body. */
  function Deliver(s: Settings, cap: Captured, c: Chunk): (r: Captured)
    ensures cap.output <= r.output && cap.error <= r.error && cap.passthrough <= r.passthrough
    ensures |r.output| + |r.error| + |r.passthrough| <= |cap.output| + |cap.error| + |cap.passthrough| + |c.data|
  {
    var d := Sanitize(c.data);
    match Route(s, c.pipe)
    case OutputBuffer => cap.(output := cap.output + d)
    case ErrorBuffer => cap.(error := cap.error + d)
    case Passthrough => cap.(passthrough := cap.passthrough + d)
    case Discard => cap
  }

  /** The total length of the chunks' data. */
  function DataLength(chunks: seq<Chunk>): nat {
    if chunks == [] then 0 else DataLength(chunks[..|chunks| - 1]) + |chunks[|chunks| - 1].data|
  }

  /** The read loop over the engine's chunks, in delivery order: it keeps no more text than was delivered. */
  function Drain(s: Settings, chunks: seq<Chunk>): (r: Captured)
    ensures |r.output| + |r.error| + |r.passthrough| <= DataLength(chunks)
  {
    if chunks == [] then Captured([], [], [])
    else Deliver(s, Drain(s, chunks[..|chunks| - 1]), chunks[|chunks| - 1])
  }

  /** The read loop: each chunk is copied, sanitised in place, then routed. */
  method DrainChunks(s: Settings, chunks: seq<Chunk>) returns (cap: Captured)
    ensures cap == Drain(s, chunks)
  {
    var tempOutput: seq<char> := [];
    var tempError: seq<char> := [];
    var passthrough: seq<char> := [];
    var mergeOutput := s.outputVariable == s.errorVariable;
    var k := 0;
    while k < |chunks|
      invariant k <= |chunks|
      invariant Captured(tempOutput, tempError, passthrough) == Drain(s, chunks[..k])
    {
      var c := chunks[k];
      var data := new char[|c.data|](j requires 0 <= j < |c.data| => c.data[j]);
      assert data[..] == c.data;
      SanitizeInPlace(data);
      var p := c.pipe;
      if (p == Stdout && !s.outputQuiet) || (p == Stderr && !s.errorQuiet && mergeOutput) {
        if s.outputVariable == "" {
          passthrough := passthrough + data[..];
        } else {
          tempOutput := tempOutput + data[..];
        }
      } else if p == Stderr && !s.errorQuiet {
        if s.errorVariable != "" {
          tempError := tempError + data[..];
        }
      }
      assert chunks[..k + 1][..k] == chunks[..k];
      k := k + 1;
    }
    assert chunks[..k] == chunks;
    return Captured(tempOutput, tempError, passthrough);
  }

  /** The sanitised text of the chunks routed to `d`, in delivery order. */
  function Gather(s: Settings, chunks: seq<Chunk>, d: Destination): seq<char> {
    if chunks == [] then []
    else (if Route(s, chunks[0].pipe) == d then Sanitize(chunks[0].data) else [])
         + Gather(s, chunks[1..], d)
  }

  lemma {:induction false} GatherAppend(s: Settings, a: seq<Chunk>, b: seq<Chunk>, d: Destination)
    ensures Gather(s, a + b, d) == Gather(s, a, d) + Gather(s, b, d)
  {
    if a != [] {
      assert (a + b)[0] == a[0];
      assert (a + b)[1..] == a[1..] + b;
      GatherAppend(s, a[1..], b, d);
    } else {
      assert a + b == b;
    }
  }

  /**
   * Each buffer holds exactly the sanitised text of the chunks routed to it,
   * concatenated in delivery order.
   */
  lemma {:induction false} DrainGathers(s: Settings, chunks: seq<Chunk>)
    ensures Drain(s, chunks) ==
            Captured(Gather(s, chunks, OutputBuffer), Gather(s, chunks, ErrorBuffer), Gather(s, chunks, Passthrough))
  {
    if chunks != [] {
      var init, last := chunks[..|chunks| - 1], chunks[|chunks| - 1];
      assert chunks == init + [last];
      DrainGathers(s, init);
      GatherAppend(s, init, [last], OutputBuffer);
      GatherAppend(s, init, [last], ErrorBuffer);
      GatherAppend(s, init, [last], Passthrough);
    }
  }

  /** The buffers only grow: later chunks never change what earlier chunks left. */
  lemma DrainAppendOnly(s: Settings, a: seq<Chunk>, b: seq<Chunk>)
    ensures Drain(s, a).output <= Drain(s, a + b).output
    ensures Drain(s, a).error <= Drain(s, a + b).error
    ensures Drain(s, a).passthrough <= Drain(s, a + b).passthrough
  {
    DrainGathers(s, a);
    DrainGathers(s, a + b);
    GatherAppend(s, a, b, OutputBuffer);
    GatherAppend(s, a, b, ErrorBuffer);
    GatherAppend(s, a, b, Passthrough);
  }

  /** No NUL character ever reaches a buffer or the caller's stdout. */
  lemma {:induction false} DrainHasNoNul(s: Settings, chunks: seq<Chunk>)
    ensures NUL !in Drain(s, chunks).output
    ensures NUL !in Drain(s, chunks).error
    ensures NUL !in Drain(s, chunks).passthrough
  {
    if chunks != [] {
      DrainHasNoNul(s, chunks[..|chunks| - 1]);
      SanitizeHasNoNul(chunks[|chunks| - 1].data);
    }
  }

  /** The sanitised text of all chunks, in delivery order. */
  function AllText(chunks: seq<Chunk>): seq<char> {
    if chunks == [] then [] else AllText(chunks[..|chunks| - 1]) + Sanitize(chunks[|chunks| - 1].data)
  }

  /**
   * With one variable named for both streams and neither quieted, the output
   * buffer receives the text of both pipes interleaved in delivery order,
   * and nothing goes anywhere else.
   */
  lemma {:induction false} MergedCapture(s: Settings, chunks: seq<Chunk>)
    requires s.outputVariable != "" && s.outputVariable == s.errorVariable
    requires !s.outputQuiet && !s.errorQuiet
    ensures Drain(s, chunks) == Captured(AllText(chunks), [], [])
  {
    if chunks != [] {
      MergedCapture(s, chunks[..|chunks| - 1]);
    }
  }

  /** With both streams quieted, nothing is captured or printed. */
  lemma {:induction false} QuietCapturesNothing(s: Settings, chunks: seq<Chunk>)
    requires s.outputQuiet && s.errorQuiet
    ensures Drain(s, chunks) == Captured([], [], [])
  {
    if chunks != [] {
      QuietCapturesNothing(s, chunks[..|chunks| - 1]);
    }
  }

  /**
   * With OUTPUT_QUIET and no output variable, nothing is printed and no
   * output text is kept, for every chunk sequence the engine can deliver.
   */
  lemma {:induction false} OutputQuietPrintsNothing(plan: Plan, scanTimeout: string -> TimeoutScan, chunks: seq<Chunk>)
    requires plan.settings.outputQuiet && plan.settings.outputVariable == ""
    requires forall k :: 0 <= k < |chunks| ==> Delivered(Configure(plan, scanTimeout), chunks[k].pipe)
    ensures Drain(plan.settings, chunks).passthrough == []
    ensures Drain(plan.settings, chunks).output == []
  {
    if chunks != [] {
      OutputQuietPrintsNothing(plan, scanTimeout, chunks[..|chunks| - 1]);
      assert Delivered(Configure(plan, scanTimeout), chunks[|chunks| - 1].pipe);
    }
  }
}
