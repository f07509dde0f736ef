/**
 The gateway's metric declarations and its three recording recipes
 (`week-4/metrics.py`), as pure transitions of a registry of labelled series.
 */
module Metrics {
  import opened Registry

  datatype MetricKind = CounterKind | HistogramKind | GaugeKind

  /** The eleven metrics the gateway declares at import time. */
  datatype Metric =
    | AppRequestCount | AppRequestLatency | AppResponseSize
    | LlmPromptLength | LlmResponseLength | LlmInferenceTime
    | LlmRequestsTotal | LlmErrorsTotal | LlmActiveRequests
    | LlmPromptTokensEstimate | LlmResponseTokensEstimate
  {
    /** The metric name as declared. */
    function Name(): string
    {
      match this
      case AppRequestCount => "app_request_count"
      case AppRequestLatency => "app_request_latency_seconds"
      case AppResponseSize => "app_response_size_bytes"
      case LlmPromptLength => "llm_prompt_length_chars"
      case LlmResponseLength => "llm_response_length_chars"
      case LlmInferenceTime => "llm_inference_time_seconds"
      case LlmRequestsTotal => "llm_requests_total"
      case LlmErrorsTotal => "llm_errors_total"
      case LlmActiveRequests => "llm_active_requests"
      case LlmPromptTokensEstimate => "llm_prompt_tokens_estimate"
      case LlmResponseTokensEstimate => "llm_response_tokens_estimate"
    }

    function Kind(): MetricKind
    {
      match this
      case AppRequestCount | LlmRequestsTotal | LlmErrorsTotal => CounterKind
      case LlmActiveRequests => GaugeKind
      case _ => HistogramKind
    }

    /** The label names the metric is declared with; `.labels(...)` must supply exactly these. */
    function Schema(): LabelSchema
    {
      match this
      case AppRequestCount => EndpointStatusSchema
      case AppRequestLatency | AppResponseSize => EndpointSchema
      case LlmRequestsTotal => ModelStatusSchema
      case LlmErrorsTotal => ModelErrorSchema
      case _ => ModelSchema
    }
  }

  /** The combinations of label names the declarations use:
      `[endpoint]`, `[endpoint, status]`, `[model]`, `[model, status]` and `[model, error_type]`. */
  datatype LabelSchema = EndpointSchema | EndpointStatusSchema | ModelSchema | ModelStatusSchema | ModelErrorSchema

  /** A label set, one shape per combination of label names the declarations use. */
  datatype Labels =
    | EndpointLabel(endpoint: string)
    | EndpointStatusLabels(endpoint: string, status: string)
    | ModelLabel(model: string)
    | ModelStatusLabels(model: string, status: string)
    | ModelErrorLabels(model: string, errorType: string)
  {
    /** The label names this set supplies. */
    function Schema(): LabelSchema
    {
      match this
      case EndpointLabel(_) => EndpointSchema
      case EndpointStatusLabels(_, _) => EndpointStatusSchema
      case ModelLabel(_) => ModelSchema
      case ModelStatusLabels(_, _) => ModelStatusSchema
      case ModelErrorLabels(_, _) => ModelErrorSchema
    }

    /** Whether the set carries a `model` label. */
    predicate HasModel()
    {
      ModelLabel? || ModelStatusLabels? || ModelErrorLabels?
    }
  }

  /** One labelled series: a metric together with its label values. */
  datatype Series = Series(metric: Metric, labels: Labels)

  type MetricStore = Store<Series>

  const GenerateEndpoint := "/generate"
  const StatusSuccess := "success"
  const StatusError := "error"

  function ByModel(m: Metric, model: string): Series
  {
    Series(m, ModelLabel(model))
  }

  function ByEndpoint(m: Metric): Series
  {
    Series(m, EndpointLabel(GenerateEndpoint))
  }

  function RequestCount(status: string): Series
  {
    Series(AppRequestCount, EndpointStatusLabels(GenerateEndpoint, status))
  }

  function LlmRequests(model: string, status: string): Series
  {
    Series(LlmRequestsTotal, ModelStatusLabels(model, status))
  }

  function LlmErrors(model: string, errorType: string): Series
  {
    Series(LlmErrorsTotal, ModelErrorLabels(model, errorType))
  }

  function Active(model: string): Series
  {
    ByModel(LlmActiveRequests, model)
  }

  /** A series key that the declarations admit for a value of the given kind. */
  predicate Declared(k: Series, kind: MetricKind)
  {
    k.metric.Kind() == kind && k.labels.Schema() == k.metric.Schema()
  }

  /** Every series present in the registry is declared, with the right kind and label names. */
  ghost predicate WellFormed(s: MetricStore)
  {
    && (forall k :: k in s.counters ==> Declared(k, CounterKind))
    && (forall k :: k in s.gauges ==> Declared(k, GaugeKind))
    && (forall k :: k in s.histograms ==> Declared(k, HistogramKind))
  }

  /** Python's `n / 4` on an int: true division, the quarter of `n` with no rounding. */
  function Quarter(n: int): real
  {
    n as real / 4.0
  }

  /** The effect `record_request_start` has on the registry: one more active request for
      `model`, the prompt length and its token estimate observed once each, no counter moved. */
  ghost predicate StartEffect(s: MetricStore, r: MetricStore, model: string, promptLength: int)
  {
    && Level(r, Active(model)) == Level(s, Active(model)) + 1
    && GaugesAgreeExcept(s, r, {Active(model)})
    && CountersAgreeExcept(s, r, {})
    && Samples(r, ByModel(LlmPromptLength, model)) == Samples(s, ByModel(LlmPromptLength, model)) + [promptLength as real]
    && Samples(r, ByModel(LlmPromptTokensEstimate, model))
       == Samples(s, ByModel(LlmPromptTokensEstimate, model)) + [Quarter(promptLength)]
    && HistogramsAgreeExcept(s, r, {ByModel(LlmPromptLength, model), ByModel(LlmPromptTokensEstimate, model)})
  }

  /** The effect `record_request_success` has on the registry: both success counters up by one,
      request latency, response size, inference time, response length and response token
      estimate observed once each, the active gauge for `model` down by one, nothing else moved. */
  ghost predicate SuccessEffect(s: MetricStore, r: MetricStore, model: string, inferenceTime: real, responseLength: int)
  {
    && Count(r, RequestCount(StatusSuccess)) == Count(s, RequestCount(StatusSuccess)) + 1
    && Count(r, LlmRequests(model, StatusSuccess)) == Count(s, LlmRequests(model, StatusSuccess)) + 1
    && CountersAgreeExcept(s, r, {RequestCount(StatusSuccess), LlmRequests(model, StatusSuccess)})
    && Samples(r, ByEndpoint(AppRequestLatency)) == Samples(s, ByEndpoint(AppRequestLatency)) + [inferenceTime]
    && Samples(r, ByEndpoint(AppResponseSize)) == Samples(s, ByEndpoint(AppResponseSize)) + [responseLength as real]
    && Samples(r, ByModel(LlmInferenceTime, model)) == Samples(s, ByModel(LlmInferenceTime, model)) + [inferenceTime]
    && Samples(r, ByModel(LlmResponseLength, model))
       == Samples(s, ByModel(LlmResponseLength, model)) + [responseLength as real]
    && Samples(r, ByModel(LlmResponseTokensEstimate, model))
       == Samples(s, ByModel(LlmResponseTokensEstimate, model)) + [Quarter(responseLength)]
    && HistogramsAgreeExcept(s, r, {ByEndpoint(AppRequestLatency), ByEndpoint(AppResponseSize),
                                    ByModel(LlmInferenceTime, model), ByModel(LlmResponseLength, model),
                                    ByModel(LlmResponseTokensEstimate, model)})
    && Level(r, Active(model)) == Level(s, Active(model)) - 1
    && GaugesAgreeExcept(s, r, {Active(model)})
  }

  /** The effect `record_request_error` has on the registry: both error counters and the
      counter for `errorType` up by one, the request latency observed once, the active gauge
      for `model` down by one, nothing else moved. */
  ghost predicate ErrorEffect(s: MetricStore, r: MetricStore, model: string, errorType: string, inferenceTime: real)
  {
    && Count(r, RequestCount(StatusError)) == Count(s, RequestCount(StatusError)) + 1
    && Count(r, LlmRequests(model, StatusError)) == Count(s, LlmRequests(model, StatusError)) + 1
    && Count(r, LlmErrors(model, errorType)) == Count(s, LlmErrors(model, errorType)) + 1
    && CountersAgreeExcept(s, r, {RequestCount(StatusError), LlmRequests(model, StatusError),
                                  LlmErrors(model, errorType)})
    && Samples(r, ByEndpoint(AppRequestLatency)) == Samples(s, ByEndpoint(AppRequestLatency)) + [inferenceTime]
    && HistogramsAgreeExcept(s, r, {ByEndpoint(AppRequestLatency)})
    && Level(r, Active(model)) == Level(s, Active(model)) - 1
    && GaugesAgreeExcept(s, r, {Active(model)})
  }

  /** `record_request_start`. */
  function RecordRequestStart(s: MetricStore, model: string, promptLength: int): (r: MetricStore)
    ensures StartEffect(s, r, model, promptLength)
  {
    Update(s, {}, map[Active(model) := 1],
           map[ByModel(LlmPromptLength, model) := promptLength as real,
               ByModel(LlmPromptTokensEstimate, model) := Quarter(promptLength)])
  }

  /** `record_request_success`. Its `promptLength` argument is accepted and not used. */
  function RecordRequestSuccess(s: MetricStore, model: string, inferenceTime: real, responseLength: int, promptLength: int)
    : (r: MetricStore)
    ensures SuccessEffect(s, r, model, inferenceTime, responseLength)
  {
    Update(s, {RequestCount(StatusSuccess), LlmRequests(model, StatusSuccess)},
           map[Active(model) := -1],
           map[ByEndpoint(AppRequestLatency) := inferenceTime,
               ByEndpoint(AppResponseSize) := responseLength as real,
               ByModel(LlmInferenceTime, model) := inferenceTime,
               ByModel(LlmResponseLength, model) := responseLength as real,
               ByModel(LlmResponseTokensEstimate, model) := Quarter(responseLength)])
  }

  /** `record_request_error`. */
  function RecordRequestError(s: MetricStore, model: string, errorType: string, inferenceTime: real): (r: MetricStore)
    ensures ErrorEffect(s, r, model, errorType, inferenceTime)
  {
    Update(s, {RequestCount(StatusError), LlmRequests(model, StatusError), LlmErrors(model, errorType)},
           map[Active(model) := -1],
           map[ByEndpoint(AppRequestLatency) := inferenceTime])
  }

  /** A success leaves every `status="error"` series and every `llm_errors_total` series as it was. */
  lemma SuccessLeavesErrorSeries(s: MetricStore, r: MetricStore, model: string, inferenceTime: real, responseLength: int)
    requires SuccessEffect(s, r, model, inferenceTime, responseLength)
    ensures Count(r, RequestCount(StatusError)) == Count(s, RequestCount(StatusError))
    ensures forall m :: Count(r, LlmRequests(m, StatusError)) == Count(s, LlmRequests(m, StatusError))
    ensures forall m, e :: Count(r, LlmErrors(m, e)) == Count(s, LlmErrors(m, e))
  {
  }

  /** An error of one type leaves the error counter of every other (model, type) pair as it was. */
  lemma ErrorLeavesOtherErrorTypes(s: MetricStore, r: MetricStore, model: string, errorType: string, inferenceTime: real)
    requires ErrorEffect(s, r, model, errorType, inferenceTime)
    ensures forall m, e :: (m, e) != (model, errorType) ==> Count(r, LlmErrors(m, e)) == Count(s, LlmErrors(m, e))
  {
  }

  /** An error records the latency only: no response-size, response-length, response-token or
      inference-time histogram changes, whatever its labels. */
  lemma ErrorRecordsLatencyOnly(s: MetricStore, r: MetricStore, model: string, errorType: string, inferenceTime: real)
    requires ErrorEffect(s, r, model, errorType, inferenceTime)
    ensures forall k: Series :: k.metric != AppRequestLatency ==> Samples(r, k) == Samples(s, k)
  {
  }

  /** Series labelled with a different model are left alone by `record_request_start`. */
  lemma StartLeavesOtherModels(s: MetricStore, r: MetricStore, model: string, promptLength: int)
    requires StartEffect(s, r, model, promptLength)
    ensures forall k: Series :: k.labels.HasModel() && k.labels.model != model ==>
      Count(r, k) == Count(s, k) && Level(r, k) == Level(s, k) && Samples(r, k) == Samples(s, k)
  {
  }

  /** Series labelled with a different model are left alone by `record_request_success`. */
  lemma SuccessLeavesOtherModels(s: MetricStore, r: MetricStore, model: string, inferenceTime: real, responseLength: int)
    requires SuccessEffect(s, r, model, inferenceTime, responseLength)
    ensures forall k: Series :: k.labels.HasModel() && k.labels.model != model ==>
      Count(r, k) == Count(s, k) && Level(r, k) == Level(s, k) && Samples(r, k) == Samples(s, k)
  {
  }

  /** Series labelled with a different model are left alone by `record_request_error`. */
  lemma ErrorLeavesOtherModels(s: MetricStore, r: MetricStore, model: string, errorType: string, inferenceTime: real)
    requires ErrorEffect(s, r, model, errorType, inferenceTime)
    ensures forall k: Series :: k.labels.HasModel() && k.labels.model != model ==>
      Count(r, k) == Count(s, k) && Level(r, k) == Level(s, k) && Samples(r, k) == Samples(s, k)
  {
  }

  /** A start followed by either terminal recipe for the same model puts every gauge back where
      it was. */
  lemma StartThenTerminalRestoresGauges(s: MetricStore, mid: MetricStore, r: MetricStore, model: string, promptLength: int,
                                        inferenceTime: real, responseLength: int, errorType: string)
    requires StartEffect(s, mid, model, promptLength)
    requires SuccessEffect(mid, r, model, inferenceTime, responseLength)
          || ErrorEffect(mid, r, model, errorType, inferenceTime)
    ensures forall k :: Level(r, k) == Level(s, k)
  {
  }

  /** A fresh registry holds no series, so it is well formed. */
  lemma EmptyWellFormed()
    ensures WellFormed(Empty<Series>())
  {
  }

  /** A batch update that only touches declared series of the right kind keeps a registry
      well formed. */
  lemma UpdateKeepsWellFormed(s: MetricStore, incs: set<Series>, shifts: map<Series, int>, obs: map<Series, real>)
    requires forall k :: k in incs ==> Declared(k, CounterKind)
    requires forall k :: k in shifts ==> Declared(k, GaugeKind)
    requires forall k :: k in obs ==> Declared(k, HistogramKind)
    ensures WellFormed(s) ==> WellFormed(Update(s, incs, shifts, obs))
  {
  }

  /** `record_request_start` only creates declared series of the right kind. */
  lemma StartKeepsWellFormed(s: MetricStore, model: string, promptLength: int)
    requires WellFormed(s)
    ensures WellFormed(RecordRequestStart(s, model, promptLength))
  {
    UpdateKeepsWellFormed(s, {}, map[Active(model) := 1],
                          map[ByModel(LlmPromptLength, model) := promptLength as real,
                              ByModel(LlmPromptTokensEstimate, model) := Quarter(promptLength)]);
  }

  /** `record_request_success` only creates declared series of the right kind. */
  lemma SuccessKeepsWellFormed(s: MetricStore, model: string, inferenceTime: real, responseLength: int, promptLength: int)
    requires WellFormed(s)
    ensures WellFormed(RecordRequestSuccess(s, model, inferenceTime, responseLength, promptLength))
  {
    UpdateKeepsWellFormed(s, {RequestCount(StatusSuccess), LlmRequests(model, StatusSuccess)},
                          map[Active(model) := -1],
                          map[ByEndpoint(AppRequestLatency) := inferenceTime,
                              ByEndpoint(AppResponseSize) := responseLength as real,
                              ByModel(LlmInferenceTime, model) := inferenceTime,
                              ByModel(LlmResponseLength, model) := responseLength as real,
                              ByModel(LlmResponseTokensEstimate, model) := Quarter(responseLength)]);
  }

  /** `record_request_error` only creates declared series of the right kind. */
  lemma ErrorKeepsWellFormed(s: MetricStore, model: string, errorType: string, inferenceTime: real)
    requires WellFormed(s)
    ensures WellFormed(RecordRequestError(s, model, errorType, inferenceTime))
  {
    UpdateKeepsWellFormed(s, {RequestCount(StatusError), LlmRequests(model, StatusError), LlmErrors(model, errorType)},
                          map[Active(model) := -1], map[ByEndpoint(AppRequestLatency) := inferenceTime]);
  }
}
