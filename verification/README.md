# bls-go-example report renderer, modelled in Dafny

bls-go-example is a demonstration command-line client for a labor-statistics
data API. It has two programs with the same report renderer:

- `bls-example.go` checks that the start year, end year and series flags are
  present and builds the request payload. It sends the payload through the
  bls-go library. It gates on the response's status and messages. Then it
  prints the report.
- `calc.go` decodes a saved response from a file and prints the same report.

The report holds four blocks, taken from the first series and its first
period:

- the catalog's eight labelled fields and a blank line, when a catalog is
  present;
- four labelled period lines;
- the footnotes, when the first footnote has a code;
- ten lines of net and percent change, when calculations are present.

The model has five modules:

- `Records` (`records.dfy`): the decoded response types of calc.go. Go pointer
  fields become `Option`s.
- `Fmt` (`fmt.dfy`): the line `fmt.Println` prints, which is its operands
  joined by single spaces.
- `Blocks` (`blocks.dfy`): the four blocks shared by both programs. Each block
  has a specification function and a method that prints it the way the Go code
  does, with the loop over footnotes. `PrintData` prints all four blocks in
  order. It is the body of calc.go's `main` after decoding, and it is also
  lines 93-139 of bls-example.go.
- `Calc` (`calc.dfy`): lemmas about the whole data report. They cover the line
  count, how the report starts, that only the first series and period are read,
  the footnote sentinel, verbatim values and an end-to-end scenario.
- `Query` (`query.dfy`): the rest of bls-example.go. It models the
  required-flag check, the payload, `strings.HasPrefix`, and the status and
  message gate (`RenderLive`). `Run` is the whole `main` after flag parsing.

Output is a sequence of lines, each without its newline. How the program ends
is an `Outcome`, either `Ok` or `Exit(1)`. A panic the Go code can hit becomes
a precondition the caller must discharge. These panics are indexing `Series[0]`,
`Data[0]` or `fn[0]`, and dereferencing a footnote's `Code` or `Text`. The live
renderer demands that precondition only for responses that pass its gate
(`LiveRenderable`).

The network call `blsgo.GetData` is the function parameter `getData` of `Run`.
`Run` also returns the payload it handed over, if any, so that its contract can
say when no payload is built.

The model follows the code as written:

- On a failed status the code prints `Server error: <status>`
  (bls-example.go:72).
- An empty series list, an empty period list or an empty footnote list makes
  the code panic (calc.go:101, 114, 121). The model states each as a
  precondition.
- When the first footnote has a code, every footnote must have a code and a
  text (`Blocks.FootnotesPrintable`); otherwise `*v.Code` or `*v.Text` is a nil
  dereference (calc.go:124, bls-example.go:119). When the first footnote has no
  code, later footnotes are never dereferenced and may lack either.
- The informational line of bls-example.go:51 is modelled as the banner line
  plus an empty line, because its format string ends in two newlines.

## Model

| member | source | states |
|---|---|---|
| `Fmt.Println` | calc.go:103-141 | A printed line has the length of its operands plus one space between each pair, and starts with the first operand. No operands print an empty line. |
| `Fmt.PrintlnTwo` | calc.go:103-110 | Two operands print as the first, one space, then the second. |
| `Fmt.PrintlnAppend` | calc.go:124 | Space-joining splits at any point: the line for `a + b` is `a`'s line, a space, then `b`'s line. |
| `Blocks.LabelledLines` | calc.go:115-118 | Each labelled line is its label, one space, then its value verbatim. |
| `Blocks.PrintCatalog` | calc.go:101-112 | Prints exactly the catalog block: the eight labelled fields and a blank line when the catalog is present, nothing otherwise. |
| `Blocks.CatalogBlockLines` | calc.go:102-112 | A present catalog gives 9 lines: the 8 fields after the labels Series title, Series ID, Seasonality, Survey name, Survey abbreviation, Measure data type, Area, Area type, in that order, then "". An absent catalog gives none. |
| `Blocks.PrintPeriod` | calc.go:114-118 | Prints exactly the period block of the given period. |
| `Blocks.PeriodBlockLines` | calc.go:115-118 | The period block is the four lines "Year: y", "Period: n", "Period name: m", "Value: v", with the strings unchanged. |
| `Blocks.PrintFootnotes` | calc.go:120-126 | The loop prints the header and then one line per footnote, in order. It does this when the first footnote has a code; otherwise it prints nothing. It requires a first footnote, and code and text on every footnote when the first has a code. |
| `Blocks.FootnoteLineText` | calc.go:124 | A footnote line is `"\t" + " " + code + " " + "-" + " " + text`. |
| `Blocks.FootnoteBlockLines` | calc.go:120-126 | Only the first footnote's code decides. With it, the block has `|fn| + 1` lines: "Footnotes:" and then one line per footnote. Without it, the block is empty, whatever later footnotes hold. |
| `Blocks.PrintCalculations` | calc.go:128-142 | Prints exactly the calculations block. |
| `Blocks.ChangeLines` | calc.go:133-136 | A change prints four lines in the order 1, 3, 6, 12 months, each value after its label. |
| `Blocks.CalculationBlockLines` | calc.go:128-142 | Present calculations give exactly 10 lines: "Net change:", the 4 net lines, "Percent change:", the 4 percent lines. Absent ones give none. |
| `Blocks.PrintData` | calc.go:101-142 | Prints the catalog, period, footnote and calculation blocks of the first series' first period, in that order. It requires a first series, a first period and printable footnotes. |
| `Calc.DataReportLength` | calc.go:101-142 | The report has 9 lines if a catalog is present, plus 4, plus `|footnotes| + 1` if the first footnote has a code, plus 10 if calculations are present. |
| `Calc.DataReportStart` | calc.go:101-115 | With a catalog, the report opens with the 8 labelled catalog lines, then "", then the year line. Without one, the first line is "Year: " followed by the year. |
| `Calc.DataReportReadsFirstOnly` | calc.go:101-114 | Two responses that agree on the first series' catalog and first period print the same report. Status, response time, messages, series identifiers, and later series or periods do not matter. |
| `Calc.FootnotesHeaderIffFirstCode` | calc.go:120-126 | "Footnotes:" appears among the report's lines if and only if the first footnote has a code. |
| `Calc.ValueVerbatim` | calc.go:47-50 | A value "3.50" prints as "Value: 3.50", the fourth line after the catalog block (fourth from the top when there is no catalog); values are never reformatted as numbers. |
| `Calc.UnemploymentScenario` | calc.go:101-142 | Take one series with a catalog titled "Unemployment Rate" and one period: 2018, M01, January, value 4.1. Its only footnote has no code and it has no calculations. It prints 13 lines: the catalog lines, "", and the four period lines. With a successful status and no messages, the live renderer prints exactly that report and ends normally. |
| `Query.BuildPayload` | bls-example.go:54-63 | The payload's series list is exactly the one-element list of the series flag. |
| `Query.PayloadRoundTrip` | bls-example.go:54-63 | Start, end, catalog, calc, avg and key are carried over unchanged. The flags can be read back from the payload, and a one-series payload comes from exactly one set of flags. |
| `Query.HasPrefixIff` | bls-example.go:85 | `HasPrefix(s, p)` holds exactly when `s` is `p` followed by some string. |
| `Query.PrintMessages` | bls-example.go:73-75 | Prints every message on its own line, in order. |
| `Query.RenderLive` | bls-example.go:71-139 | A failed status prints "Server error: <status>" and the messages, then exits 1. An "Invalid Series" first message prints the messages, then exits 1. Otherwise it prints the messages followed by the data report and ends normally. |
| `Query.Run` | bls-example.go:45-66 | With the start, end or series flag empty, it prints exactly the two usage lines, exits 1 and builds no payload. Otherwise it sends the built payload and prints the banner, "", then the live report of the provider's answer. |
| `Query.ExitIffRejected` | bls-example.go:71-88 | The run exits 1 if and only if the status failed or the first message starts with "Invalid Series". Otherwise it ends normally. |
| `Query.ServerErrorOutput` | bls-example.go:71-77 | On a failed status the output is "Server error: <status>" followed by every message, with exit 1. The output does not depend on the results. |
| `Query.InvalidSeriesStops` | bls-example.go:80-88 | On success with an "Invalid Series" first message, the output is exactly the messages, with exit 1. No catalog or period line is printed. |
| `Query.LaterInvalidSeriesContinues` | bls-example.go:80-88 | An "Invalid Series" message after the first does not stop rendering. All messages are printed, then the whole data report, and the run ends normally. |

## Left out

- Flag registration and parsing with the `flag` package (bls-example.go:29-41): the parsed values are the plain record `Query.Flags`.
- `blsgo.GetData` (bls-example.go:66): it is a network call into a library that is not part of this model. It is the total function parameter `getData`, so its errors and retries are not modelled.
- Opening the fixture file and JSON decoding (calc.go:88-99): these are I/O and a standard-library decoder. The JSON tags describe a wire mapping that is not modelled, and no encode/decode round trip is claimed.
- `os.Exit` and `panic` as process control: the model uses the `Outcome` value and preconditions instead. The exit code 2 of a Go panic is not modelled.
- `fmt.Println` beyond joining operands with single spaces. A message that itself contains a newline still counts as one line.
- `ResponseTime` is carried in `ResultData` but never read, as in the source.
