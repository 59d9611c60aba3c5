/** The decoded response of the statistics API, as the renderer consumes it
    (calc.go:25-85). A pointer field of the Go structs is an `Option` here;
    every number the API sends stays the string it arrived as. */
module Records {

  datatype Option<+T> = None | Some(value: T)

  /** An annotation on a period's value. By the convention of the data, code
      and text are present together or absent together. */
  datatype Footnote = Footnote(code: Option<string>, text: Option<string>)

  /** Change over the last 1, 3, 6 and 12 months. */
  datatype Change = Change(oneMonth: string, threeMonth: string, sixMonth: string, twelveMonth: string)

  /** Net and percent change, sent only when calculations were requested. */
  datatype Calculation = Calculation(netChange: Change, pctChange: Change)

  /** One observation (usually a month) of a series. */
  datatype Period = Period(
    year: string,
    num: string,
    name: string,
    value: string,
    footnotes: seq<Footnote>,
    calculations: Option<Calculation>)

  /** Metadata about a series, sent only when the catalog was requested. */
  datatype Catalog = Catalog(
    title: string,
    id: string,
    season: string,
    name: string,
    abbr: string,
    dataType: string,
    area: string,
    areaType: string)

  /** The data of one series: its identifier, its catalog and its periods. */
  datatype SeriesData = SeriesData(seriesId: string, catalog: Option<Catalog>, data: seq<Period>)

  /** The `Results` object: the series that were asked for. */
  datatype Series = Series(series: seq<SeriesData>)

  /** The top-level response: a status, the server's response time, the
      server's messages and the results. */
  datatype ResultData = ResultData(status: string, responseTime: int, message: seq<string>, results: Series)
}
