/** The four blocks of the report, shared by the file renderer (calc.go:101-142)
    and the live-query renderer (bls-example.go:93-139): the catalog, the first
    period, its footnotes and its calculations. Each block has a specification
    function giving its lines and a method that prints it step by step as the
    Go code does. */
module Blocks {
  import opened Records
  import opened Fmt

  /** One line `label value` per label, in the order of the labels. */
  function Labelled(labels: seq<string>, values: seq<string>): (lines: seq<string>)
    requires |labels| == |values|
    ensures |lines| == |labels|
  {
    seq(|labels|, i requires 0 <= i < |labels| => Println([labels[i], values[i]]))
  }

  /** Each labelled line is its label, one space, and its value verbatim. */
  lemma LabelledLines(labels: seq<string>, values: seq<string>)
    requires |labels| == |values|
    ensures forall i :: 0 <= i < |labels| ==> Labelled(labels, values)[i] == labels[i] + " " + values[i]
  {
    forall i | 0 <= i < |labels|
      ensures Labelled(labels, values)[i] == labels[i] + " " + values[i]
    {
      PrintlnTwo(labels[i], values[i]);
    }
  }

  // ---------------------------------------------------------------- catalog

  const CatalogLabels: seq<string> := [
    "Series title:", "Series ID:", "Seasonality:", "Survey name:",
    "Survey abbreviation:", "Measure data type:", "Area:", "Area type:"]

  /** The catalog's fields in the order they are printed. */
  function CatalogFields(c: Catalog): seq<string>
  {
    [c.title, c.id, c.season, c.name, c.abbr, c.dataType, c.area, c.areaType]
  }

  /** The catalog block: eight labelled lines and a blank line, or nothing
      when the catalog is absent. */
  function CatalogBlock(catalog: Option<Catalog>): seq<string>
  {
    match catalog
    case None => []
    case Some(c) => Labelled(CatalogLabels, CatalogFields(c)) + [Println([])]
  }

  method PrintCatalog(catalog: Option<Catalog>) returns (lines: seq<string>)
    ensures lines == CatalogBlock(catalog)
  {
    lines := [];
    if catalog.Some? {
      var c := catalog.value;
      lines := lines + [Println(["Series title:", c.title])];
      lines := lines + [Println(["Series ID:", c.id])];
      lines := lines + [Println(["Seasonality:", c.season])];
      lines := lines + [Println(["Survey name:", c.name])];
      lines := lines + [Println(["Survey abbreviation:", c.abbr])];
      lines := lines + [Println(["Measure data type:", c.dataType])];
      lines := lines + [Println(["Area:", c.area])];
      lines := lines + [Println(["Area type:", c.areaType])];
      lines := lines + [Println([])];
    }
  }

  /** A present catalog prints exactly nine lines: the eight fields, each after
      its label, in the fixed order, then an empty line. An absent one prints
      nothing. */
  lemma CatalogBlockLines(catalog: Option<Catalog>)
    ensures catalog.None? ==> CatalogBlock(catalog) == []
    ensures catalog.Some? ==>
      && |CatalogBlock(catalog)| == 9
      && (forall i :: 0 <= i < 8 ==>
            CatalogBlock(catalog)[i] == CatalogLabels[i] + " " + CatalogFields(catalog.value)[i])
      && CatalogBlock(catalog)[8] == ""
  {
    if catalog.Some? {
      LabelledLines(CatalogLabels, CatalogFields(catalog.value));
    }
  }

  // ----------------------------------------------------------------- period

  const PeriodLabels: seq<string> := ["Year:", "Period:", "Period name:", "Value:"]

  /** The period's fields in the order they are printed. */
  function PeriodFields(p: Period): seq<string>
  {
    [p.year, p.num, p.name, p.value]
  }

  /** The period block: four labelled lines. */
  function PeriodBlock(p: Period): seq<string>
  {
    Labelled(PeriodLabels, PeriodFields(p))
  }

  method PrintPeriod(data: Period) returns (lines: seq<string>)
    ensures lines == PeriodBlock(data)
  {
    lines := [];
    lines := lines + [Println(["Year:", data.year])];
    lines := lines + [Println(["Period:", data.num])];
    lines := lines + [Println(["Period name:", data.name])];
    lines := lines + [Println(["Value:", data.value])];
  }

  /** The period block is exactly four lines, year, period number, period name
      and value, each string printed verbatim after its label. */
  lemma PeriodBlockLines(p: Period)
    ensures PeriodBlock(p) == [
      "Year: " + p.year, "Period: " + p.num, "Period name: " + p.name, "Value: " + p.value]
  {
    LabelledLines(PeriodLabels, PeriodFields(p));
    var b := PeriodBlock(p);
    assert b[0] == "Year: " + p.year && b[1] == "Period: " + p.num;
    assert b[2] == "Period name: " + p.name && b[3] == "Value: " + p.value;
  }

  // -------------------------------------------------------------- footnotes

  const FootnotesHeader: string := "Footnotes:"

  /** What the footnote block dereferences without panicking: a first footnote,
      and when it has a code, a code and a text in every footnote. */
  predicate FootnotesPrintable(fn: seq<Footnote>)
  {
    && |fn| > 0
    && (fn[0].code.Some? ==> forall i :: 0 <= i < |fn| ==> fn[i].code.Some? && fn[i].text.Some?)
  }

  /** The line printed for one footnote: a tab, the code, a dash and the text,
      as operands of one Println. */
  function FootnoteLine(f: Footnote): string
    requires f.code.Some? && f.text.Some?
  {
    Println(["\t", f.code.value, "-", f.text.value])
  }

  /** The footnote block: the header and one line per footnote when the first
      footnote has a code; nothing otherwise. */
  function FootnoteBlock(fn: seq<Footnote>): seq<string>
    requires FootnotesPrintable(fn)
  {
    if fn[0].code.None? then []
    else [Println([FootnotesHeader])] + seq(|fn|, i requires 0 <= i < |fn| => FootnoteLine(fn[i]))
  }

  method PrintFootnotes(fn: seq<Footnote>) returns (lines: seq<string>)
    requires FootnotesPrintable(fn)
    ensures lines == FootnoteBlock(fn)
  {
    lines := [];
    if fn[0].code.Some? {
      lines := lines + [Println([FootnotesHeader])];
      for i := 0 to |fn|
        invariant |lines| == i + 1
        invariant lines[0] == Println([FootnotesHeader])
        invariant forall k :: 0 <= k < i ==> lines[k + 1] == FootnoteLine(fn[k])
      {
        var v := fn[i];
        lines := lines + [Println(["\t", v.code.value, "-", v.text.value])];
      }
      assert lines == FootnoteBlock(fn);
    }
  }

  /** A footnote line is Println's space-joined form of its four operands. */
  lemma FootnoteLineText(f: Footnote)
    requires f.code.Some? && f.text.Some?
    ensures FootnoteLine(f) == "\t " + f.code.value + " - " + f.text.value
  {
    var c, t := f.code.value, f.text.value;
    PrintlnAppend(["\t"], [c, "-", t]);
    PrintlnAppend([c], ["-", t]);
    PrintlnTwo("-", t);
    assert ["\t"] + [c, "-", t] == ["\t", c, "-", t];
    assert [c] + ["-", t] == [c, "-", t];
  }

  /** Only the first footnote decides: the block is the header followed by
      exactly one line per footnote, in order, when the first footnote has a
      code, and empty when it has none, whatever the later footnotes hold. */
  lemma FootnoteBlockLines(fn: seq<Footnote>)
    requires FootnotesPrintable(fn)
    ensures fn[0].code.None? ==> FootnoteBlock(fn) == []
    ensures fn[0].code.Some? ==>
      && |FootnoteBlock(fn)| == |fn| + 1
      && FootnoteBlock(fn)[0] == FootnotesHeader
      && (forall i :: 0 <= i < |fn| ==>
            FootnoteBlock(fn)[i + 1] == "\t " + fn[i].code.value + " - " + fn[i].text.value)
  {
    if fn[0].code.Some? {
      PrintlnOne(FootnotesHeader);
      forall i | 0 <= i < |fn|
        ensures FootnoteBlock(fn)[i + 1] == "\t " + fn[i].code.value + " - " + fn[i].text.value
      {
        FootnoteLineText(fn[i]);
      }
    }
  }

  // ----------------------------------------------------------- calculations

  const ChangeLabels: seq<string> := ["\t1 month:", "\t3 months:", "\t6 months:", "\t12 months:"]

  /** A change's four values, 1, 3, 6 and 12 months. */
  function ChangeFields(ch: Change): seq<string>
  {
    [ch.oneMonth, ch.threeMonth, ch.sixMonth, ch.twelveMonth]
  }

  /** A change prints as four lines, 1, 3, 6 and 12 months, each value after
      its label. */
  lemma ChangeLines(ch: Change)
    ensures Labelled(ChangeLabels, ChangeFields(ch)) == [
      "\t1 month: " + ch.oneMonth, "\t3 months: " + ch.threeMonth,
      "\t6 months: " + ch.sixMonth, "\t12 months: " + ch.twelveMonth]
  {
    LabelledLines(ChangeLabels, ChangeFields(ch));
    var b := Labelled(ChangeLabels, ChangeFields(ch));
    assert b[0] == "\t1 month: " + ch.oneMonth && b[1] == "\t3 months: " + ch.threeMonth;
    assert b[2] == "\t6 months: " + ch.sixMonth && b[3] == "\t12 months: " + ch.twelveMonth;
  }

  /** The calculations block: net change then percent change, each a header
      and four labelled lines; nothing when calculations are absent. */
  function CalculationBlock(calcs: Option<Calculation>): seq<string>
  {
    match calcs
    case None => []
    case Some(k) =>
      [Println(["Net change:"])] + Labelled(ChangeLabels, ChangeFields(k.netChange))
      + [Println(["Percent change:"])] + Labelled(ChangeLabels, ChangeFields(k.pctChange))
  }

  method PrintCalculations(calcs: Option<Calculation>) returns (lines: seq<string>)
    ensures lines == CalculationBlock(calcs)
  {
    lines := [];
    if calcs.Some? {
      var net := calcs.value.netChange;
      var pct := calcs.value.pctChange;
      lines := lines + [Println(["Net change:"])];
      lines := lines + [Println(["\t1 month:", net.oneMonth])];
      lines := lines + [Println(["\t3 months:", net.threeMonth])];
      lines := lines + [Println(["\t6 months:", net.sixMonth])];
      lines := lines + [Println(["\t12 months:", net.twelveMonth])];
      assert lines == [Println(["Net change:"])] + Labelled(ChangeLabels, ChangeFields(net));
      var netLines := lines;
      lines := lines + [Println(["Percent change:"])];
      lines := lines + [Println(["\t1 month:", pct.oneMonth])];
      lines := lines + [Println(["\t3 months:", pct.threeMonth])];
      lines := lines + [Println(["\t6 months:", pct.sixMonth])];
      lines := lines + [Println(["\t12 months:", pct.twelveMonth])];
      assert lines == netLines + [Println(["Percent change:"])] + Labelled(ChangeLabels, ChangeFields(pct));
    }
  }

  /** Present calculations print exactly ten lines in a fixed order: net before
      percent, and 1, 3, 6, 12 months within each. Absent ones print nothing. */
  lemma CalculationBlockLines(calcs: Option<Calculation>)
    ensures calcs.None? ==> CalculationBlock(calcs) == []
    ensures calcs.Some? ==>
      var net, pct := calcs.value.netChange, calcs.value.pctChange;
      CalculationBlock(calcs) == [
        "Net change:",
        "\t1 month: " + net.oneMonth, "\t3 months: " + net.threeMonth,
        "\t6 months: " + net.sixMonth, "\t12 months: " + net.twelveMonth,
        "Percent change:",
        "\t1 month: " + pct.oneMonth, "\t3 months: " + pct.threeMonth,
        "\t6 months: " + pct.sixMonth, "\t12 months: " + pct.twelveMonth]
  {
    if calcs.Some? {
      var net, pct := calcs.value.netChange, calcs.value.pctChange;
      ChangeLines(net);
      ChangeLines(pct);
      PrintlnOne("Net change:");
      PrintlnOne("Percent change:");
    }
  }

  // ------------------------------------------------------------ whole report

  /** What the renderer indexes or dereferences without panicking: a first
      series, a first period in it, and printable footnotes in that period. */
  predicate Renderable(tr: ResultData)
  {
    && |tr.results.series| > 0
    && |tr.results.series[0].data| > 0
    && FootnotesPrintable(tr.results.series[0].data[0].footnotes)
  }

  /** The data part of the report: the four blocks of the first series' first
      period, in order. */
  function DataReport(tr: ResultData): seq<string>
    requires Renderable(tr)
  {
    var s := tr.results.series[0];
    var p := s.data[0];
    CatalogBlock(s.catalog) + PeriodBlock(p) + FootnoteBlock(p.footnotes) + CalculationBlock(p.calculations)
  }

  /** Prints the four blocks one after another: all of calc.go's `main` after
      decoding, and the tail of bls-example.go's `main`. */
  method PrintData(tr: ResultData) returns (lines: seq<string>)
    requires Renderable(tr)
    ensures lines == DataReport(tr)
  {
    var catalog := tr.results.series[0].catalog;
    lines := PrintCatalog(catalog);
    var data := tr.results.series[0].data[0];
    var periodLines := PrintPeriod(data);
    lines := lines + periodLines;
    var fn := data.footnotes;
    var footnoteLines := PrintFootnotes(fn);
    lines := lines + footnoteLines;
    var calcs := data.calculations;
    var calcLines := PrintCalculations(calcs);
    lines := lines + calcLines;
  }
}
