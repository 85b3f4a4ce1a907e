/** The per-event handler registry and the bridge that forwards every event
    to one unbounded, ordered delivery channel (src/live/handler/types.rs). */
module HandlerTypes {
  import opened Common
  import opened Message
  import Domain

  // ---------------------------------------------------------------------
  // Event kinds and what a handler of each kind receives
  // ---------------------------------------------------------------------

  /** One slot of the registry per event kind. */
  datatype EventKind =
    | OnSymbolInfo
    | OnSeriesLoading
    | OnChartData
    | OnSeriesCompleted
    | OnStudyLoading
    | OnStudyData
    | OnStudyCompleted
    | OnQuoteData
    | OnQuoteCompleted
    | OnReplayOk
    | OnReplayPoint
    | OnReplayInstanceId
    | OnReplayResolutions
    | OnReplayDataEnd
    | OnError
    | OnUnknownEvent

  /** The argument a handler of each kind is called with. */
  datatype CallbackInput =
    | SymbolInfoInput(info: Domain.SymbolInfo)
    | SeriesLoadingInput(values: seq<Value>)
    | ChartDataInput(series: Domain.SeriesInfo, points: seq<Domain.DataPoint>)
    | SeriesCompletedInput(values: seq<Value>)
    | StudyLoadingInput(values: seq<Value>)
    | StudyDataInput(options: Domain.StudyOptions, data: Domain.StudyResponseData)
    | StudyCompletedInput(values: seq<Value>)
    | QuoteDataInput(quote: Domain.QuoteValue)
    | QuoteCompletedInput(values: seq<Value>)
    | ReplayOkInput(values: seq<Value>)
    | ReplayPointInput(values: seq<Value>)
    | ReplayInstanceIdInput(values: seq<Value>)
    | ReplayResolutionsInput(values: seq<Value>)
    | ReplayDataEndInput(values: seq<Value>)
    | ErrorInput(error: Domain.Error, values: seq<Value>)
    | UnknownEventInput(name: string, values: seq<Value>)
  {
    /** The slot whose handler takes this argument. */
    function Kind(): EventKind
    {
      match this
      case SymbolInfoInput(_) => OnSymbolInfo
      case SeriesLoadingInput(_) => OnSeriesLoading
      case ChartDataInput(_, _) => OnChartData
      case SeriesCompletedInput(_) => OnSeriesCompleted
      case StudyLoadingInput(_) => OnStudyLoading
      case StudyDataInput(_, _) => OnStudyData
      case StudyCompletedInput(_) => OnStudyCompleted
      case QuoteDataInput(_) => OnQuoteData
      case QuoteCompletedInput(_) => OnQuoteCompleted
      case ReplayOkInput(_) => OnReplayOk
      case ReplayPointInput(_) => OnReplayPoint
      case ReplayInstanceIdInput(_) => OnReplayInstanceId
      case ReplayResolutionsInput(_) => OnReplayResolutions
      case ReplayDataEndInput(_) => OnReplayDataEnd
      case ErrorInput(_, _) => OnError
      case UnknownEventInput(_, _) => OnUnknownEvent
    }

    /** Series- and study-loading payloads must be decoded before forwarding. */
    predicate IsLoading()
    {
      SeriesLoadingInput? || StudyLoadingInput?
    }
  }

  /** All sixteen kinds. */
  const AllKinds: set<EventKind> := {
    OnSymbolInfo, OnSeriesLoading, OnChartData, OnSeriesCompleted,
    OnStudyLoading, OnStudyData, OnStudyCompleted, OnQuoteData,
    OnQuoteCompleted, OnReplayOk, OnReplayPoint, OnReplayInstanceId,
    OnReplayResolutions, OnReplayDataEnd, OnError, OnUnknownEvent}

  /** The set of kinds is closed: AllKinds lists every one. */
  lemma AllKindsComplete(k: EventKind)
    ensures k in AllKinds
  {
  }

  /** The name the default callback traces for each slot. */
  function CallbackName(k: EventKind): (name: string)
    ensures |name| > 3 && name[..3] == "ON_"
  {
    match k
    case OnSymbolInfo => "ON_SYMBOL_INFO"
    case OnSeriesLoading => "ON_SERIES_LOADING"
    case OnChartData => "ON_CHART_DATA"
    case OnSeriesCompleted => "ON_SERIES_COMPLETED"
    case OnStudyLoading => "ON_STUDY_LOADING"
    case OnStudyData => "ON_STUDY_DATA"
    case OnStudyCompleted => "ON_STUDY_COMPLETED"
    case OnQuoteData => "ON_QUOTE_DATA"
    case OnQuoteCompleted => "ON_QUOTE_COMPLETED"
    case OnReplayOk => "ON_REPLAY_OK"
    case OnReplayPoint => "ON_REPLAY_POINT"
    case OnReplayInstanceId => "ON_REPLAY_INSTANCE_ID"
    case OnReplayResolutions => "ON_REPLAY_RESOLUTIONS"
    case OnReplayDataEnd => "ON_REPLAY_DATA_END"
    case OnError => "ON_ERROR"
    case OnUnknownEvent => "ON_UNKNOWN_EVENT"
  }

  /** The kind a response reports: every response variant belongs to exactly
      one slot. */
  function ResponseKind(r: TradingViewResponse): EventKind
  {
    match r
    case SymbolInfo(_) => OnSymbolInfo
    case SeriesLoading(_) => OnSeriesLoading
    case ChartData(_, _) => OnChartData
    case SeriesCompleted(_) => OnSeriesCompleted
    case StudyLoading(_) => OnStudyLoading
    case StudyData(_, _) => OnStudyData
    case StudyCompleted(_) => OnStudyCompleted
    case QuoteData(_) => OnQuoteData
    case QuoteCompleted(_) => OnQuoteCompleted
    case ReplayOk(_) => OnReplayOk
    case ReplayPoint(_) => OnReplayPoint
    case ReplayInstanceId(_) => OnReplayInstanceId
    case ReplayResolutions(_) => OnReplayResolutions
    case ReplayDataEnd(_) => OnReplayDataEnd
    case Error(_, _) => OnError
    case UnknownEvent(_, _) => OnUnknownEvent
  }

  // ---------------------------------------------------------------------
  // What the forwarding handlers deliver
  // ---------------------------------------------------------------------

  /** The response the forwarding handler for `input`'s kind hands to the
      channel, or None when a loading payload does not decode. */
  function Forwarded(input: CallbackInput, decode: Decoder): (r: Option<TradingViewResponse>)
    ensures r.Some? ==> ResponseKind(r.value) == input.Kind()
    ensures r.None? <==> input.IsLoading() && decode(input.values).None?
  {
    match input
    case SymbolInfoInput(info) => Some(SymbolInfo(info))
    case SeriesLoadingInput(values) =>
      (match decode(values) case Some(msg) => Some(SeriesLoading(msg)) case None => None)
    case ChartDataInput(series, points) => Some(ChartData(series, points))
    case SeriesCompletedInput(values) => Some(SeriesCompleted(values))
    case StudyLoadingInput(values) =>
      (match decode(values) case Some(msg) => Some(StudyLoading(msg)) case None => None)
    case StudyDataInput(options, data) => Some(StudyData(options, data))
    case StudyCompletedInput(values) => Some(StudyCompleted(values))
    case QuoteDataInput(quote) => Some(QuoteData(quote))
    case QuoteCompletedInput(values) => Some(QuoteCompleted(values))
    case ReplayOkInput(values) => Some(ReplayOk(values))
    case ReplayPointInput(values) => Some(ReplayPoint(values))
    case ReplayInstanceIdInput(values) => Some(ReplayInstanceId(values))
    case ReplayResolutionsInput(values) => Some(ReplayResolutions(values))
    case ReplayDataEndInput(values) => Some(ReplayDataEnd(values))
    case ErrorInput(error, values) => Some(Error(error, values))
    case UnknownEventInput(name, values) => Some(UnknownEvent(name, values))
  }

  /** Recovers the handler argument a response was built from; loading
      responses keep only the decoded message, so they give None. */
  function Restore(r: TradingViewResponse): Option<CallbackInput>
  {
    match r
    case SymbolInfo(info) => Some(SymbolInfoInput(info))
    case SeriesLoading(_) => None
    case ChartData(series, points) => Some(ChartDataInput(series, points))
    case SeriesCompleted(values) => Some(SeriesCompletedInput(values))
    case StudyLoading(_) => None
    case StudyData(options, data) => Some(StudyDataInput(options, data))
    case StudyCompleted(values) => Some(StudyCompletedInput(values))
    case QuoteData(quote) => Some(QuoteDataInput(quote))
    case QuoteCompleted(values) => Some(QuoteCompletedInput(values))
    case ReplayOk(values) => Some(ReplayOkInput(values))
    case ReplayPoint(values) => Some(ReplayPointInput(values))
    case ReplayInstanceId(values) => Some(ReplayInstanceIdInput(values))
    case ReplayResolutions(values) => Some(ReplayResolutionsInput(values))
    case ReplayDataEnd(values) => Some(ReplayDataEndInput(values))
    case Error(error, values) => Some(ErrorInput(error, values))
    case UnknownEvent(name, values) => Some(UnknownEventInput(name, values))
  }

  /** The loading message a response carries, if it is a loading response. */
  function LoadingOf(r: TradingViewResponse): Option<LoadingMsg>
  {
    match r
    case SeriesLoading(msg) => Some(msg)
    case StudyLoading(msg) => Some(msg)
    case _ => None
  }

  /** A pass-through handler forwards exactly one response, and that
      response carries its argument unchanged: Restore inverts Forwarded. */
  lemma ForwardedRoundTrip(input: CallbackInput, decode: Decoder)
    requires !input.IsLoading()
    ensures Forwarded(input, decode).Some?
    ensures Restore(Forwarded(input, decode).value) == Some(input)
  {
  }

  /** Series loading and study loading use the same decoder: one payload is
      forwarded by both or by neither, with the same decoded message. */
  lemma LoadingSharesDecoder(values: seq<Value>, decode: Decoder)
    ensures Forwarded(SeriesLoadingInput(values), decode).Some?
        <==> decode(values).Some?
    ensures Forwarded(StudyLoadingInput(values), decode).Some?
        <==> decode(values).Some?
    ensures decode(values).Some? ==>
      && LoadingOf(Forwarded(SeriesLoadingInput(values), decode).value) == decode(values)
      && LoadingOf(Forwarded(StudyLoadingInput(values), decode).value) == decode(values)
  {
  }

  /** Distinct pass-through arguments give distinct responses. */
  lemma ForwardedInjective(a: CallbackInput, b: CallbackInput, decode: Decoder)
    requires !a.IsLoading() && !b.IsLoading() && a != b
    ensures Forwarded(a, decode) != Forwarded(b, decode)
  {
    ForwardedRoundTrip(a, decode);
    ForwardedRoundTrip(b, decode);
  }

  // ---------------------------------------------------------------------
  // The delivery channel
  // ---------------------------------------------------------------------

  /** The sending end of an unbounded FIFO channel: `sent` is everything
      enqueued so far, in order; `closed` is set once the receiving end is
      gone. */
  class DataChannel {
    var sent: seq<TradingViewResponse>
    var closed: bool

    constructor ()
      ensures sent == [] && !closed
    {
      sent := [];
      closed := false;
    }

    /** The receiver is dropped; later sends fail. */
    method Close()
      modifies this
      ensures closed && sent == old(sent)
    {
      closed := true;
    }

    /** Non-blocking send: appends at the end unless the receiver is gone,
        and reports which happened. */
    method Send(r: TradingViewResponse) returns (ok: bool)
      modifies this
      ensures ok == !old(closed)
      ensures closed == old(closed)
      ensures sent == if ok then old(sent) + [r] else old(sent)
    {
      ok := !closed;
      if ok {
        sent := sent + [r];
      }
    }
  }

  /** What one handler invocation did, as far as an observer can tell. */
  datatype Outcome =
    | Traced(name: string)     // the default callback logged a trace line
    | Sent                     // one response was enqueued
    | DecodeFailed             // the loading payload did not decode; an error was logged
    | SendFailed(logged: bool) // the receiver is gone; nothing was enqueued
    | UserCallback(id: nat)    // a caller-supplied closure ran

  /** Sends `r`, logging a failed send. */
  method SendOrLog(tx: DataChannel, r: TradingViewResponse) returns (outcome: Outcome)
    modifies tx
    ensures tx.closed == old(tx.closed)
    ensures !old(tx.closed) ==> outcome == Sent && tx.sent == old(tx.sent) + [r]
    ensures old(tx.closed) ==> outcome == SendFailed(true) && tx.sent == old(tx.sent)
  {
    var ok := tx.Send(r);
    outcome := if ok then Sent else SendFailed(true);
  }

  /** The forwarding handler that create_handler installs for `input`'s
      kind, invoked with `input`. */
  method Forward(tx: DataChannel, decode: Decoder, input: CallbackInput) returns (outcome: Outcome)
    modifies tx
    ensures tx.closed == old(tx.closed)
    ensures Forwarded(input, decode).None? ==>
      outcome == DecodeFailed && tx.sent == old(tx.sent)
    ensures Forwarded(input, decode).Some? && !old(tx.closed) ==>
      outcome == Sent && tx.sent == old(tx.sent) + [Forwarded(input, decode).value]
    ensures Forwarded(input, decode).Some? && old(tx.closed) ==>
      outcome == SendFailed(!input.SymbolInfoInput?) && tx.sent == old(tx.sent)
  {
    match input
    case SymbolInfoInput(info) =>
      // the send result is discarded without a log line
      var ok := tx.Send(SymbolInfo(info));
      outcome := if ok then Sent else SendFailed(false);
    case SeriesLoadingInput(values) =>
      var msg := decode(values);
      if msg.None? {
        return DecodeFailed;
      }
      outcome := SendOrLog(tx, SeriesLoading(msg.value));
    case ChartDataInput(series, points) =>
      outcome := SendOrLog(tx, ChartData(series, points));
    case SeriesCompletedInput(values) =>
      outcome := SendOrLog(tx, SeriesCompleted(values));
    case StudyLoadingInput(values) =>
      var msg := decode(values);
      if msg.None? {
        return DecodeFailed;
      }
      outcome := SendOrLog(tx, StudyLoading(msg.value));
    case StudyDataInput(options, data) =>
      outcome := SendOrLog(tx, StudyData(options, data));
    case StudyCompletedInput(values) =>
      outcome := SendOrLog(tx, StudyCompleted(values));
    case QuoteDataInput(quote) =>
      outcome := SendOrLog(tx, QuoteData(quote));
    case QuoteCompletedInput(values) =>
      outcome := SendOrLog(tx, QuoteCompleted(values));
    case ReplayOkInput(values) =>
      outcome := SendOrLog(tx, ReplayOk(values));
    case ReplayPointInput(values) =>
      outcome := SendOrLog(tx, ReplayPoint(values));
    case ReplayInstanceIdInput(values) =>
      outcome := SendOrLog(tx, ReplayInstanceId(values));
    case ReplayResolutionsInput(values) =>
      outcome := SendOrLog(tx, ReplayResolutions(values));
    case ReplayDataEndInput(values) =>
      outcome := SendOrLog(tx, ReplayDataEnd(values));
    case ErrorInput(error, values) =>
      outcome := SendOrLog(tx, Error(error, values));
    case UnknownEventInput(name, values) =>
      outcome := SendOrLog(tx, UnknownEvent(name, values));
  }

  // ---------------------------------------------------------------------
  // The registry
  // ---------------------------------------------------------------------

  /** What a slot is bound to: the trace-only default, the forwarding
      closure create_handler builds around a channel, or a closure supplied
      by the caller (identified by a tag; its effects are its own). */
  datatype Handler =
    | DefaultCallback
    | Forwarding(tx: DataChannel, decode: Decoder)
    | Custom(id: nat)

  class TradingViewHandler {
    var slots: map<EventKind, Handler>

    /** Every kind is bound. */
    ghost predicate Valid()
      reads this
    {
      forall k: EventKind :: k in slots
    }

    /** The channel firing kind `k` may touch. */
    ghost function Target(k: EventKind): set<object>
      reads this
      requires Valid()
    {
      if slots[k].Forwarding? then {slots[k].tx} else {}
    }

    /** The default registry: every kind traced and discarded. */
    constructor ()
      ensures Valid()
      ensures forall k: EventKind :: slots[k] == DefaultCallback
    {
      slots := map k | k in AllKinds :: DefaultCallback;
      new;
      forall k: EventKind ensures k in slots {
        AllKindsComplete(k);
      }
    }

    /** The builder-style setter for slot `kind`: rebinds that slot only and
        hands the registry back for chaining. */
    method SetHandler(kind: EventKind, handler: Handler) returns (self: TradingViewHandler)
      requires Valid()
      modifies this
      ensures self == this && Valid()
      ensures slots == old(slots)[kind := handler]
    {
      slots := slots[kind := handler];
      self := this;
    }

    /** Invokes the handler bound to `input`'s kind. */
    method Fire(input: CallbackInput) returns (outcome: Outcome)
      requires Valid()
      modifies Target(input.Kind())
      ensures slots[input.Kind()].DefaultCallback? ==>
        outcome == Traced(CallbackName(input.Kind()))
      ensures slots[input.Kind()].Custom? ==>
        outcome == UserCallback(slots[input.Kind()].id)
      ensures slots[input.Kind()].Forwarding? ==>
        var tx, decode := slots[input.Kind()].tx, slots[input.Kind()].decode;
        && tx.closed == old(tx.closed)
        && (Forwarded(input, decode).None? ==>
              outcome == DecodeFailed && tx.sent == old(tx.sent))
        && (Forwarded(input, decode).Some? && !old(tx.closed) ==>
              outcome == Sent && tx.sent == old(tx.sent) + [Forwarded(input, decode).value])
        && (Forwarded(input, decode).Some? && old(tx.closed) ==>
              outcome == SendFailed(!input.SymbolInfoInput?) && tx.sent == old(tx.sent))
    {
      match slots[input.Kind()]
      case DefaultCallback =>
        outcome := Traced(CallbackName(input.Kind()));
      case Custom(id) =>
        outcome := UserCallback(id);
      case Forwarding(tx, decode) =>
        outcome := Forward(tx, decode, input);
    }
  }

  /** Builds the registry whose every slot forwards to `tx`. */
  method CreateHandler(tx: DataChannel, decode: Decoder) returns (h: TradingViewHandler)
    ensures fresh(h) && h.Valid()
    ensures forall k: EventKind :: h.slots[k] == Forwarding(tx, decode)
  {
    h := new TradingViewHandler();
    var f := Forwarding(tx, decode);
    h := h.SetHandler(OnSymbolInfo, f);
    h := h.SetHandler(OnSeriesLoading, f);
    h := h.SetHandler(OnChartData, f);
    h := h.SetHandler(OnSeriesCompleted, f);
    h := h.SetHandler(OnStudyLoading, f);
    h := h.SetHandler(OnStudyData, f);
    h := h.SetHandler(OnStudyCompleted, f);
    h := h.SetHandler(OnQuoteData, f);
    h := h.SetHandler(OnQuoteCompleted, f);
    h := h.SetHandler(OnReplayOk, f);
    h := h.SetHandler(OnReplayPoint, f);
    h := h.SetHandler(OnReplayInstanceId, f);
    h := h.SetHandler(OnReplayResolutions, f);
    h := h.SetHandler(OnReplayDataEnd, f);
    h := h.SetHandler(OnError, f);
    h := h.SetHandler(OnUnknownEvent, f);
    forall k: EventKind ensures h.slots[k] == f {
      AllKindsComplete(k);
    }
  }

  /** The responses one forwarding invocation delivers on an open channel. */
  function Delivered(input: CallbackInput, decode: Decoder): (s: seq<TradingViewResponse>)
    ensures |s| <= 1
    ensures |s| == 1 <==> Forwarded(input, decode).Some?
  {
    match Forwarded(input, decode)
    case Some(r) => [r]
    case None => []
  }

  /** Two handlers fired one after the other on a registry built by
      CreateHandler over an open channel deliver in invocation order. */
  method FireInOrder(tx: DataChannel, decode: Decoder, a: CallbackInput, b: CallbackInput)
    requires !tx.closed
    modifies tx
    ensures !tx.closed
    ensures tx.sent == old(tx.sent) + Delivered(a, decode) + Delivered(b, decode)
  {
    var h := CreateHandler(tx, decode);
    var _ := h.Fire(a);
    var _ := h.Fire(b);
  }
}
