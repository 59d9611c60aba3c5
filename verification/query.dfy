/** The live-query program of bls-example.go: it checks the required flags,
    builds the request payload, hands it to the data provider, gates on the
    response's status and messages, and then prints the same blocks as the
    file renderer. The provider's network call is the parameter `getData`. */
module Query {
  import opened Records
  import opened Fmt
  import opened Blocks

  /** The command-line flags after parsing: start year, end year and series
      (required), the three request switches and the optional API key. */
  datatype Flags = Flags(
    start: string,
    end: string,
    series: string,
    annualAverage: bool,
    calculations: bool,
    catalog: bool,
    key: string)

  /** The request body the provider sends; it always takes a list of series. */
  datatype Payload = Payload(
    start: string,
    end: string,
    series: seq<string>,
    catalog: bool,
    calculations: bool,
    annualAverage: bool,
    key: string)

  /** How the program ends: normally, or through `os.Exit(code)`. */
  datatype Outcome = Ok | Exit(code: int)

  /** The lines a run prints and how it ends. */
  datatype Report = Report(lines: seq<string>, outcome: Outcome)

  const Succeeded: string := "REQUEST_SUCCEEDED"
  const InvalidSeries: string := "Invalid Series"
  const MissingFlagLines: seq<string> := [
    "Missing a required flag!",
    "Try 'bls-go-example --help' for more information."]

  // ------------------------------------------------------------- the flags

  /** A required flag is left at its empty default. */
  predicate MissingRequired(flags: Flags)
  {
    flags.start == "" || flags.end == "" || flags.series == ""
  }

  /** The payload for the flags: the one series wrapped in a list, everything
      else passed through. */
  function BuildPayload(flags: Flags): (p: Payload)
    ensures p.series == [flags.series]
  {
    Payload(flags.start, flags.end, [flags.series], flags.catalog, flags.calculations, flags.annualAverage, flags.key)
  }

  /** The flags a payload was built from, when it holds exactly one series. */
  function FlagsOf(p: Payload): Option<Flags>
  {
    if |p.series| == 1 then Some(Flags(p.start, p.end, p.series[0], p.annualAverage, p.calculations, p.catalog, p.key))
    else None
  }

  /** Building the payload loses nothing: every flag value is carried over
      unchanged, and a payload with one series is built from exactly one set of
      flags. */
  lemma PayloadRoundTrip(flags: Flags, p: Payload)
    ensures FlagsOf(BuildPayload(flags)) == Some(flags)
    ensures FlagsOf(p) == Some(flags) <==> BuildPayload(flags) == p
  {
    if FlagsOf(p) == Some(flags) {
      assert p.series == [p.series[0]];
    }
  }

  /** The informational line printed before the query is sent; its format
      string ends in two newlines, so an empty line follows it. */
  function Banner(flags: Flags): string
  {
    "Querying series " + flags.series + " for years " + flags.start + " through " + flags.end + "..."
  }

  // -------------------------------------------------------------- the gate

  /** Go's `strings.HasPrefix`. */
  predicate HasPrefix(s: string, prefix: string)
  {
    |prefix| <= |s| && s[..|prefix|] == prefix
  }

  /** `s` has the prefix exactly when it is the prefix followed by something. */
  lemma HasPrefixIff(s: string, prefix: string)
    ensures HasPrefix(s, prefix) <==> exists rest :: s == prefix + rest
  {
    if HasPrefix(s, prefix) {
      assert s == prefix + s[|prefix|..];
    }
    if exists rest :: s == prefix + rest {
      var rest :| s == prefix + rest;
      assert s[..|prefix|] == prefix;
    }
  }

  /** The response makes the program stop before the data: a failed status,
      or a first message about an invalid series. */
  predicate Rejected(tr: ResultData)
  {
    tr.status != Succeeded || (|tr.message| > 0 && HasPrefix(tr.message[0], InvalidSeries))
  }

  /** A response the live renderer handles without panicking: one it rejects,
      or one whose data can be printed. */
  predicate LiveRenderable(tr: ResultData)
  {
    Rejected(tr) || Renderable(tr)
  }

  /** What the live renderer prints for a response and how it ends. */
  function LiveReport(tr: ResultData): Report
    requires LiveRenderable(tr)
  {
    if tr.status != Succeeded then
      Report([Println(["Server error:", tr.status])] + tr.message, Exit(1))
    else if |tr.message| > 0 && HasPrefix(tr.message[0], InvalidSeries) then
      Report(tr.message, Exit(1))
    else
      Report(tr.message + DataReport(tr), Ok)
  }

  /** Prints each message on its own line, in order (bls-example.go:73-75 and
      81-83). */
  method PrintMessages(messages: seq<string>) returns (lines: seq<string>)
    ensures lines == messages
  {
    lines := [];
    for i := 0 to |messages|
      invariant lines == messages[..i]
    {
      var v := messages[i];
      PrintlnOne(v);
      lines := lines + [Println([v])];
    }
  }

  /** bls-example.go's handling of the response: status check, messages,
      then the four blocks. */
  method RenderLive(tr: ResultData) returns (out: seq<string>, outcome: Outcome)
    requires LiveRenderable(tr)
    ensures Report(out, outcome) == LiveReport(tr)
  {
    out := [];
    if tr.status != Succeeded {
      out := out + [Println(["Server error:", tr.status])];
      var messageLines := PrintMessages(tr.message);
      out := out + messageLines;
      assert Report(out, Exit(1)) == LiveReport(tr);
      return out, Exit(1);
    }

    if |tr.message| > 0 {
      var messageLines := PrintMessages(tr.message);
      out := out + messageLines;
      assert out == tr.message;
      if HasPrefix(tr.message[0], InvalidSeries) {
        return out, Exit(1);
      }
    }

    var dataLines := PrintData(tr);
    out := out + dataLines;
    assert out == tr.message + DataReport(tr);
    outcome := Ok;
  }

  // ------------------------------------------------------------ the program

  /** bls-example.go's `main` after flag parsing, with the provider's query
      `getData`. `sent` is the payload handed to the provider, if any. */
  method Run(flags: Flags, getData: Payload -> ResultData)
    returns (out: seq<string>, outcome: Outcome, sent: Option<Payload>)
    requires !MissingRequired(flags) ==> LiveRenderable(getData(BuildPayload(flags)))
    ensures MissingRequired(flags) ==>
      out == MissingFlagLines && outcome == Exit(1) && sent == None
    ensures !MissingRequired(flags) ==>
      && sent == Some(BuildPayload(flags))
      && out == [Banner(flags), ""] + LiveReport(getData(sent.value)).lines
      && outcome == LiveReport(getData(sent.value)).outcome
  {
    if flags.start == "" || flags.end == "" || flags.series == "" {
      out := [Println(["Missing a required flag!"])];
      out := out + [Println(["Try 'bls-go-example --help' for more information."])];
      return out, Exit(1), None;
    }

    out := [Banner(flags), ""];
    var payload := BuildPayload(flags);
    var tr := getData(payload);
    var lines;
    lines, outcome := RenderLive(tr);
    out := out + lines;
    sent := Some(payload);
  }

  // ------------------------------------------------------------ properties

  /** The program exits with status 1 exactly when the response is rejected,
      and otherwise ends normally. */
  lemma ExitIffRejected(tr: ResultData)
    requires LiveRenderable(tr)
    ensures LiveReport(tr).outcome == Exit(1) <==> Rejected(tr)
    ensures LiveReport(tr).outcome == Ok <==> !Rejected(tr)
  {
  }

  /** On a failed status the output is the status line and every message in
      order, and the results are never looked at: two responses with the same
      status and messages print the same whatever their results. */
  lemma ServerErrorOutput(tr1: ResultData, tr2: ResultData)
    requires tr1.status != Succeeded
    requires tr2.status == tr1.status && tr2.message == tr1.message
    ensures LiveRenderable(tr1) && LiveRenderable(tr2)
    ensures LiveReport(tr1).lines == ["Server error: " + tr1.status] + tr1.message
    ensures LiveReport(tr1).outcome == Exit(1)
    ensures LiveReport(tr1) == LiveReport(tr2)
  {
    PrintlnTwo("Server error:", tr1.status);
    assert "Server error:" + " " + tr1.status == "Server error: " + tr1.status;
  }

  /** On a successful status whose first message starts with "Invalid Series"
      only the messages are printed: no catalog or period line. */
  lemma InvalidSeriesStops(tr: ResultData)
    requires tr.status == Succeeded
    requires |tr.message| > 0 && HasPrefix(tr.message[0], InvalidSeries)
    ensures LiveRenderable(tr)
    ensures LiveReport(tr) == Report(tr.message, Exit(1))
  {
  }

  /** An "Invalid Series" message in any later position does not stop the
      rendering: when the first message lacks the prefix, all messages are
      printed and then the whole data report. */
  lemma LaterInvalidSeriesContinues(tr: ResultData, k: nat)
    requires tr.status == Succeeded && Renderable(tr)
    requires 0 < k < |tr.message| && HasPrefix(tr.message[k], InvalidSeries)
    requires !HasPrefix(tr.message[0], InvalidSeries)
    ensures LiveReport(tr).outcome == Ok
    ensures LiveReport(tr).lines[..|tr.message|] == tr.message
    ensures LiveReport(tr).lines[|tr.message|..] == DataReport(tr)
  {
    var lines := LiveReport(tr).lines;
    assert lines == tr.message + DataReport(tr);
  }
}
