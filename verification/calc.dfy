/** The file-fixture program of calc.go: once the saved response is decoded,
    its `main` is `Blocks.PrintData`. The lemmas here state what that report
    holds. */
module Calc {
  import opened Records
  import opened Fmt
  import opened Blocks
  import opened Query

  /** The number of lines printed: nine for a catalog, four for the period,
      the header plus one per footnote when the first footnote has a code, and
      ten for calculations. */
  lemma DataReportLength(tr: ResultData)
    requires Renderable(tr)
    ensures var s := tr.results.series[0];
            var p := s.data[0];
            |DataReport(tr)| ==
              (if s.catalog.Some? then 9 else 0) + 4
              + (if p.footnotes[0].code.Some? then |p.footnotes| + 1 else 0)
              + (if p.calculations.Some? then 10 else 0)
  {
    var p := tr.results.series[0].data[0];
    CatalogBlockLines(tr.results.series[0].catalog);
    FootnoteBlockLines(p.footnotes);
    CalculationBlockLines(p.calculations);
  }

  /** With a catalog the report opens with its eight labelled lines and a
      blank line; without one, the first line is the year. */
  lemma DataReportStart(tr: ResultData)
    requires Renderable(tr)
    ensures var s := tr.results.series[0];
            s.catalog.Some? ==>
              && |DataReport(tr)| > 9
              && (forall i :: 0 <= i < 8 ==>
                    DataReport(tr)[i] == CatalogLabels[i] + " " + CatalogFields(s.catalog.value)[i])
              && DataReport(tr)[8] == ""
              && DataReport(tr)[9] == "Year: " + s.data[0].year
    ensures var s := tr.results.series[0];
            s.catalog.None? ==> DataReport(tr)[0] == "Year: " + s.data[0].year
  {
    var s := tr.results.series[0];
    var p := s.data[0];
    CatalogBlockLines(s.catalog);
    PeriodBlockLines(p);
    var rest := FootnoteBlock(p.footnotes) + CalculationBlock(p.calculations);
    assert DataReport(tr) == CatalogBlock(s.catalog) + (PeriodBlock(p) + rest);
    assert (PeriodBlock(p) + rest)[0] == "Year: " + p.year;
  }

  /** Only the catalog and the first period of the first series are read: two
      responses that agree on those print the same report, whatever their
      status, response time, messages, series identifiers, or later series and
      periods. */
  lemma DataReportReadsFirstOnly(tr1: ResultData, tr2: ResultData)
    requires Renderable(tr1) && Renderable(tr2)
    requires tr1.results.series[0].catalog == tr2.results.series[0].catalog
    requires tr1.results.series[0].data[0] == tr2.results.series[0].data[0]
    ensures DataReport(tr1) == DataReport(tr2)
  {
  }

  /** No labelled line can be mistaken for the footnotes header when no label
      starts with the header's first letter. */
  lemma LabelledNotHeader(labels: seq<string>, values: seq<string>)
    requires |labels| == |values|
    requires forall i :: 0 <= i < |labels| ==> |labels[i]| > 0 && labels[i][0] != 'F'
    ensures FootnotesHeader !in Labelled(labels, values)
  {
    LabelledLines(labels, values);
    forall i | 0 <= i < |labels|
      ensures Labelled(labels, values)[i] != FootnotesHeader
    {
      assert Labelled(labels, values)[i][0] == labels[i][0];
    }
  }

  /** The "Footnotes:" line is printed if and only if the first footnote has a
      code; a first footnote without one suppresses the section even when
      later footnotes have codes. */
  lemma FootnotesHeaderIffFirstCode(tr: ResultData)
    requires Renderable(tr)
    ensures FootnotesHeader in DataReport(tr) <==>
            tr.results.series[0].data[0].footnotes[0].code.Some?
  {
    var s := tr.results.series[0];
    var p := s.data[0];
    FootnoteBlockLines(p.footnotes);
    if p.footnotes[0].code.Some? {
      assert DataReport(tr)[|CatalogBlock(s.catalog)| + |PeriodBlock(p)|] == FootnotesHeader;
    } else {
      if s.catalog.Some? {
        LabelledNotHeader(CatalogLabels, CatalogFields(s.catalog.value));
      }
      assert FootnotesHeader !in CatalogBlock(s.catalog);
      LabelledNotHeader(PeriodLabels, PeriodFields(p));
      if p.calculations.Some? {
        var k := p.calculations.value;
        LabelledNotHeader(ChangeLabels, ChangeFields(k.netChange));
        LabelledNotHeader(ChangeLabels, ChangeFields(k.pctChange));
        PrintlnOne("Net change:");
        PrintlnOne("Percent change:");
      }
      assert FootnotesHeader !in CalculationBlock(p.calculations);
      assert DataReport(tr) == CatalogBlock(s.catalog) + PeriodBlock(p) + CalculationBlock(p.calculations);
    }
  }

  /** A successful response without messages, with a catalog titled
      "Unemployment Rate", one period of January 2018 with value "4.1", the
      placeholder footnote and no calculations prints the eight catalog lines,
      a blank line and the four period lines, and nothing else, and ends
      normally; the value keeps its exact spelling. */
  lemma UnemploymentScenario(cat: Catalog, tr: ResultData)
    requires cat.title == "Unemployment Rate"
    requires tr.status == Succeeded && tr.message == []
    requires tr.results.series == [SeriesData("LNS14000000", Some(cat), [
      Period("2018", "M01", "January", "4.1", [Footnote(None, None)], None)])]
    ensures Renderable(tr) && LiveRenderable(tr)
    ensures LiveReport(tr) == Report(DataReport(tr), Ok)
    ensures |DataReport(tr)| == 13
    ensures DataReport(tr)[0] == "Series title: Unemployment Rate"
    ensures DataReport(tr)[8] == ""
    ensures DataReport(tr)[9..] == ["Year: 2018", "Period: M01", "Period name: January", "Value: 4.1"]
  {
    var p := tr.results.series[0].data[0];
    DataReportLength(tr);
    DataReportStart(tr);
    PeriodBlockLines(p);
    CatalogBlockLines(Some(cat));
    assert DataReport(tr) == CatalogBlock(Some(cat)) + PeriodBlock(p);
    assert DataReport(tr)[9..] == PeriodBlock(p);
    assert "Year: " + p.year == "Year: 2018";
    assert "Period: " + p.num == "Period: M01";
    assert "Period name: " + p.name == "Period name: January";
    assert "Value: " + p.value == "Value: 4.1";
    assert tr.message + DataReport(tr) == DataReport(tr);
  }

  /** A first period whose value is "3.50" prints "Value: 3.50": values are
      opaque strings and are never reformatted as numbers. */
  lemma ValueVerbatim(tr: ResultData)
    requires Renderable(tr)
    requires tr.results.series[0].data[0].value == "3.50"
    ensures var k := |CatalogBlock(tr.results.series[0].catalog)|;
            k + 3 < |DataReport(tr)| && DataReport(tr)[k + 3] == "Value: 3.50"
  {
    var s := tr.results.series[0];
    var p := s.data[0];
    PeriodBlockLines(p);
    var rest := FootnoteBlock(p.footnotes) + CalculationBlock(p.calculations);
    assert DataReport(tr) == CatalogBlock(s.catalog) + (PeriodBlock(p) + rest);
    assert (PeriodBlock(p) + rest)[3] == "Value: 3.50";
  }
}
