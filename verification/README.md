# Request accounting of the week-4 LLM gateway, in Dafny

The week-4 gateway is a FastAPI service. It forwards prompts to an Ollama backend and
instruments every `/generate` request with Prometheus metrics. This project models the
accounting at its core:

- **Registry** (`registry.dfy`): a registry of labelled series. Counters and gauges hold
  integers. A histogram holds the sequence of values it has observed, so its `_count` and
  `_sum` are functions of that sequence.
- **Metrics** (`metrics.dfy`): the eleven metric declarations of `week-4/metrics.py`, their
  label schemas, and the three recording recipes `record_request_start`,
  `record_request_success` and `record_request_error`. Each recipe is a pure transition of
  the registry. Its contract names every series it moves, by exactly how much, and states
  that every other series keeps its value.
- **Gateway** (`gateway.dfy`): the `/generate` handler of `week-4/app.py`. A request is the
  sequence of calls it makes (start accounting, backend request, one terminal accounting
  call) plus the reply it returns. The backend exchange becomes an input, `BackendOutcome`.
  The handler's four-way error classification is a total function over that input.
  `Replay` applies a call sequence to a registry. `ServeAll` serves a whole sequence of
  requests, one after another.
- **Server** (`server.dfy`): many requests in flight at once, with their start and terminal
  accounting interleaved in any order. It shows that the active-request gauge always equals
  the number of requests in flight.
- **Status** (`status.dfy`): the read-only `/health` (a three-way health report) and
  `/model-info` (the configuration, with the system prompt cut to 100 characters plus
  `...`).

`MODEL_NAME`, `OLLAMA_URL` and `SYSTEM_PROMPT` form a `Config` parameter. `DefaultConfig`
holds the fallbacks the application uses when nothing overrides them. Clock readings are
also parameters: the elapsed seconds of a request and the timestamp strings.

## Model

| member | source | states |
|---|---|---|
| Registry.Empty | week-4/metrics.py:17-50 | a labelled metric has no child series until it is first used: every counter and gauge reads 0 and every histogram has no observations |
| Registry.Update | week-4/metrics.py:53-90 | one batch of `inc`/`dec`/`observe` calls: each named counter goes up by exactly 1, each named gauge moves by exactly its amount, each named histogram gains exactly one observation at its end, and every other series keeps its value |
| Registry.UpdateCountAndSum | week-4/metrics.py:56-57 | one `observe(v)` raises a histogram's `_count` by 1 and its `_sum` by exactly `v` |
| Metrics.RecordRequestStart | week-4/metrics.py:53-57 | the model's active gauge goes up by 1; the prompt length and exactly `prompt_length / 4` are observed once each on the model's two prompt histograms; no counter and no other series changes |
| Metrics.RecordRequestSuccess | week-4/metrics.py:60-76 | the `/generate` success request count and the model's success counter each go up by 1; the latency and response size by endpoint, and the inference time, response length and exactly `response_length / 4` by model, are each observed once; the model's active gauge goes down by 1; nothing else changes; `prompt_length` has no effect |
| Metrics.RecordRequestError | week-4/metrics.py:79-90 | the `/generate` error request count, the model's error counter and the (model, error_type) error counter each go up by 1; only the endpoint latency is observed; the model's active gauge goes down by 1; nothing else changes |
| Metrics.SuccessLeavesErrorSeries | week-4/metrics.py:60-76 | a success moves no `status="error"` series and no `llm_errors_total` series |
| Metrics.ErrorLeavesOtherErrorTypes | week-4/metrics.py:88-89 | an error of one type moves no `llm_errors_total` counter of any other (model, error_type) pair |
| Metrics.ErrorRecordsLatencyOnly | week-4/metrics.py:79-90 | an error changes no histogram except request latency |
| Metrics.StartLeavesOtherModels | week-4/metrics.py:53-57 | the start recipe leaves every series labelled with another model unchanged |
| Metrics.SuccessLeavesOtherModels | week-4/metrics.py:60-76 | the success recipe leaves every series labelled with another model unchanged |
| Metrics.ErrorLeavesOtherModels | week-4/metrics.py:79-90 | the error recipe leaves every series labelled with another model unchanged |
| Metrics.StartThenTerminalRestoresGauges | week-4/metrics.py:53-90 | a start followed by either terminal recipe for the same model (the gauge's `inc` at line 55, then `dec` at line 76 or 90) leaves every gauge at its previous value |
| Metrics.UpdateKeepsWellFormed | week-4/metrics.py:17-50 | updates that touch only declared series of the right type and label names keep every series in the registry declared |
| Metrics.StartKeepsWellFormed | week-4/metrics.py:53-57 | the start recipe uses only declared metrics with their declared label names |
| Metrics.SuccessKeepsWellFormed | week-4/metrics.py:60-76 | the success recipe uses only declared metrics with their declared label names |
| Metrics.ErrorKeepsWellFormed | week-4/metrics.py:79-90 | the error recipe uses only declared metrics with their declared label names |
| Metrics.EmptyWellFormed | week-4/metrics.py:17-50 | a fresh registry holds only declared series (none), so the invariant holds from process start |
| Gateway.OllamaPayload | week-4/app.py:105-110 | the backend payload has exactly the keys model, prompt, stream and system: the configured model, the prompt unchanged, `stream` false, the configured system prompt |
| Gateway.Classify | week-4/app.py:131-152 | in both directions: `http_error` iff an HTTP client error without a response; `ollama_api_error` iff one with a response whose body parses as JSON; `ollama_response_error` iff one whose body does not parse; `unexpected_error` iff any other exception; no error type iff the backend answered |
| Gateway.ErrorMessage | week-4/app.py:131-154 | the 500 detail for each error type: the `HTTP error occurred: `, `Ollama API error: ` or `Unexpected error: ` prefix, followed by the exception's rendering, the parsed body or the raw body text |
| Gateway.LabelsDistinct | week-4/app.py:133-152 | two error types share an `error_type` label value iff they are the same type |
| Gateway.EffectDeltas | week-4/metrics.py:53-90 | each recipe moves every gauge and counter exactly as an independent bookkeeping table says: start is +1 on the model's gauge, a terminal call is −1 on it, and a terminal call adds 1 to its two or three counters |
| Gateway.Apply | week-4/app.py:103-152 | applying one call performs that recipe's effect; the backend request itself records nothing |
| Gateway.Replay | week-4/app.py:97-154 | after a sequence of calls, every gauge and counter has moved by the sum of the calls' movements |
| Gateway.ApplyKeepsWellFormed | week-4/metrics.py:53-90 | every call the handler makes, including the backend request, keeps every series in the registry declared with its kind and label names |
| Gateway.ReplayKeepsWellFormed | week-4/metrics.py:53-90 | any sequence of calls keeps the registry well formed |
| Gateway.StartCallsDeltas | week-4/app.py:100-118 | the calls made before the backend answers raise the model's active gauge by 1 and move no counter |
| Gateway.GenerateText | week-4/app.py:97-154 | a request makes exactly three calls: `record_request_start` with `len(prompt)`, the backend request with the payload, then exactly one terminal call for the configured model. The success recipe and the `{"response": ...}` reply happen iff the backend answered; the reply is the body's `response` field or `""`, and its length and the elapsed time are what gets recorded. Otherwise the single `record_request_error` carries the classified error type and the elapsed time, and the reply is a 500 with the error message |
| Gateway.RequestDeltas | week-4/app.py:97-154 | one request moves no gauge on balance and moves counters exactly as its terminal call does |
| Gateway.GenerateTextRestoresGauges | week-4/app.py:97-154 | after one request, for every outcome in `BackendOutcome`, every gauge is back at its previous value |
| Gateway.TerminalCounters | week-4/app.py:126-152 | the terminal call moves exactly the success pair, or exactly the error pair plus the classified error type, each by 1, and no other counter |
| Gateway.GenerateTextCounters | week-4/app.py:97-154 | after one request, exactly the success pair, or exactly the error pair plus the classified error type's counter, have gone up by 1, and every other counter is unchanged |
| Gateway.SessionGauges | week-4/app.py:97-154 | the calls of any sequence of requests, served one after another, move no gauge on balance |
| Gateway.SessionOutcomes | week-4/app.py:97-154 | the calls of any sequence of requests add exactly one `status="success"` per answered request and one `status="error"` per failed request to the model's request counter |
| Gateway.SessionErrorKinds | week-4/app.py:131-152 | the calls of any sequence of requests add to each error type's counter exactly the number of requests classified as that type |
| Gateway.ServeAllRestoresGauges | week-4/app.py:97-154 | after any sequence of requests served one at a time, every gauge is back where it started |
| Gateway.TerminalDeltas | week-4/app.py:126-152 | a terminal call adds 1 to the success counter iff the backend answered, 1 to the error counter iff it did not, and 1 to an error type's counter iff the outcome is classified as that type |
| Gateway.ServeAllCountsOutcomes | week-4/app.py:97-154 | over any sequence of requests, the model's success counter grows by the number answered and its error counter by the number that failed |
| Gateway.ServeAllCountsErrorKinds | week-4/app.py:97-154 | over any sequence of requests, each error type's counter grows by the number of requests classified as that type |
| Gateway.ServeAllWellFormed | week-4/app.py:97-154 | from process start, any sequence of requests leaves only declared series in the registry |
| Gateway.LifecycleObservations | week-4/app.py:103-152 | a start followed by the terminal call: the prompt length, `prompt_length / 4` and the latency are observed once each; the response size, response length, `response_length / 4` and inference time are observed iff the backend answered, and otherwise left unchanged |
| Gateway.GenerateTextObservations | week-4/app.py:97-154 | a request's histogram observations, exactly as listed for `LifecycleObservations` |
| Gateway.GenerateTextLeavesOtherModels | week-4/app.py:97-154 | one request moves no counter, gauge or histogram labelled with a model other than the configured one, whatever its outcome |
| Gateway.TimeoutScenario | week-4/app.py:131-148 | with the default configuration and a fresh registry, a transport failure at the client's 5-second timeout gives a 500 with `HTTP error occurred: …`, one `http_error` and one error request, and an active gauge back at 0 |
| Server.Step | week-4/metrics.py:42-44 | one arrival (start accounting) or completion (terminal accounting) keeps the model's active gauge minus the number of requests in flight constant, and moves no other gauge |
| Server.Run | week-4/app.py:97-154 | under any interleaving of arrivals and completions, the model's gauge minus the in-flight count is invariant, and every other gauge is unchanged |
| Server.ActiveGaugeCountsInFlight | week-4/metrics.py:42-44 | from process start, when every request ends in a `BackendOutcome`, the active-request gauge equals the number of requests in flight, so it is never negative and reads 0 iff nothing is in flight |
| Server.StepKeepsWellFormed | week-4/app.py:103-152 | one arrival or completion keeps the registry well formed |
| Server.RunKeepsWellFormed | week-4/app.py:97-154 | any interleaving of arrivals and completions keeps the registry well formed |
| Server.ReachableWellFormed | week-4/metrics.py:17-50 | every registry reachable from process start holds only declared series |
| Status.ProbeUrl | week-4/app.py:59 | the health probe requests the configured backend address followed by `/api/tags` |
| Status.HealthCheck | week-4/app.py:54-81 | in both directions: `healthy`/`available` iff the probe returned 200; `degraded`/`unavailable` iff it returned any other status; `unhealthy`/`error` iff it raised, and `error` carries the exception's rendering exactly then. The model and timestamp are always reported |
| Status.Preview | week-4/app.py:90-92 | a system prompt of at most 100 characters is shown unchanged; a longer one is shown as its first 100 characters followed by `...`, 103 characters in all |
| Status.PreviewBounds | week-4/app.py:90-92 | a preview has at most 103 characters and always begins with the prompt's first `min(len, 100)` characters |
| Status.PreviewIdempotent | week-4/app.py:90-92 | cutting a preview again changes nothing |
| Status.PreviewLosesOnlyTheTail | week-4/app.py:90-92 | prompts with equal previews are equal if either fits in 100 characters, and otherwise agree on their first 100 |
| Status.GetModelInfo | week-4/app.py:84-94 | `/model-info` reports the configured model name and backend address, the system prompt cut as described, and the given timestamp |

## Left out

- HTTP transport, FastAPI routing, `HTTPException` and the `httpx` client are not modelled. The backend exchange is an input (`BackendOutcome`) and a failure is a `Failed(500, detail)` reply.
- Python's renderings `str(e)`, `str(dict)` and `response.text` are inputs (`description`, `ErrorBody`); the model does not compute them.
- Clocks are not modelled: `datetime.now()`, the elapsed `inference_time` and the ISO timestamps are parameters.
- Reading `LLM_MODEL` and `OLLAMA_URL` from the environment and loading `config.json` (`load_system_prompt`, week-4/app.py:24-41) are replaced by the `Config` parameter.
- Floating-point arithmetic is not modelled: latencies and token estimates are exact reals, so `prompt_length / 4` is exact division.
- Histogram bucket boundaries and the text exposition format (`get_metrics_response`, `/metrics`) are left out; a histogram is the sequence of its observations.
- `get_current_active_requests` (week-4/metrics.py:98-100) reads the client library's private fields. The gauge reading `Registry.Level` plays its role.
- Threads and the client library's locking are left out. Each recording recipe is treated as atomic, and interleaving happens only between recipes, in the Server module.
- Server.Step: an arrival under an id already in flight, or a completion of a request not in flight, leaves the state unchanged; each handler invocation serves exactly one request, so these events do not occur.
- Metrics.RecordRequestSuccess: `app_response_size_bytes` receives `len(response_text)`, a character count, because that is what the code passes; the byte length of the UTF-8 encoding is not modelled.
- Gateway.GenerateText: the success recipe is treated as total. If `record_request_success` raised part-way, its gauge `dec` (week-4/metrics.py:76, its last statement) would not have run, and the `except Exception` branch (week-4/app.py:149-152) would lower the gauge once but record a full error on top of the partial success (success counters, latency). The gauge would be lowered twice only if something raised after the success recipe finished, for example the exit of `async with httpx.AsyncClient()` (week-4/app.py:113) on the way out of the `return` (week-4/app.py:130). The client library does not raise in these places, so neither path is modelled.
- Gateway.GenerateText: a `BaseException` that is not an `Exception`, such as `asyncio.CancelledError` when the task is cancelled during `await client.post(...)` (week-4/app.py:114), is caught by neither handler (week-4/app.py:131, 149). No terminal call runs, so `llm_active_requests` stays raised. `BackendOutcome` has no such outcome, so `GenerateTextRestoresGauges`, `ServeAllRestoresGauges` and `Server.ActiveGaugeCountsInFlight` hold only for requests that end in one of its cases.
- Gateway.BackendOutcome: `Answered` carries `response` only as a string, which is what the backend sends. A list- or object-valued `response` is accepted by `len` (week-4/app.py:123), so the source records a success with its element count and replies 200 with that value; the model does not cover this case.
- The `week-4/bot.py` client and `week-3/k8s/direct_ray_demo.py` are not part of this model: neither touches the request accounting.
