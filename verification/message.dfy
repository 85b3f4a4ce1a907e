/** The unified response type delivered to the application
    (TradingViewResponse) and the structured loading message. */
module Message {
  import opened Common
  import Domain

  /** A decoded series- or study-loading notification. Its fields are not
      needed here. */
  type LoadingMsg

  /** Decoding of a raw loading payload (LoadingMsg::new): total and
      deterministic, either a message or a failure. */
  type Decoder = seq<Value> -> Option<LoadingMsg>

  datatype TradingViewResponse =
    | SymbolInfo(info: Domain.SymbolInfo)
    | SeriesLoading(msg: LoadingMsg)
    | ChartData(series: Domain.SeriesInfo, points: seq<Domain.DataPoint>)
    | SeriesCompleted(values: seq<Value>)
    | StudyLoading(msg: LoadingMsg)
    | StudyData(options: Domain.StudyOptions, data: Domain.StudyResponseData)
    | StudyCompleted(values: seq<Value>)
    | QuoteData(quote: Domain.QuoteValue)
    | QuoteCompleted(values: seq<Value>)
    | ReplayOk(values: seq<Value>)
    | ReplayPoint(values: seq<Value>)
    | ReplayInstanceId(values: seq<Value>)
    | ReplayResolutions(values: seq<Value>)
    | ReplayDataEnd(values: seq<Value>)
    | Error(error: Domain.Error, values: seq<Value>)
    | UnknownEvent(name: string, values: seq<Value>)
}
