/** Payload types that handlers receive and responses carry. Their contents
    are defined elsewhere in the crate (chart, quote, websocket and error
    modules) and never inspected by the dispatch layer, so they stay opaque. */
module Domain {
  type SymbolInfo
  type SeriesInfo
  type DataPoint
  type StudyOptions
  type StudyResponseData
  type QuoteValue
  type Error
}
