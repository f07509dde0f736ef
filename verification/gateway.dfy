/**
 The `/generate` handler of `week-4/app.py`: one request's lifecycle, from start accounting
 through the backend exchange to exactly one terminal accounting call and a reply.

 The backend exchange itself is outside the model: its result is an input (`BackendOutcome`), and the
 time from the start of the request to the moment the outcome is known is an input too. A
 request is modelled as the sequence of calls it makes into the metrics module and the
 backend, plus the reply; `Replay` applies those calls to a registry.
 */
module Gateway {
  import opened Wrappers
  import opened Registry
  import opened Metrics

  /** Process-wide settings, read once when the application is loaded. */
  datatype Config = Config(modelName: string, ollamaUrl: string, systemPrompt: string)

  /** The fallbacks used when neither the environment nor the configuration file overrides them. */
  const DefaultConfig := Config("gemma3:1b", "http://ollama:11434", "You are a helpful AI assistant.")

  /** The JSON values the backend payload uses. */
  datatype Json = JString(text: string) | JBool(flag: bool)

  type Payload = map<string, Json>

  /** The body posted to the backend's `/api/generate`. */
  function OllamaPayload(cfg: Config, prompt: string): (p: Payload)
    ensures p.Keys == {"model", "prompt", "stream", "system"}
    ensures p["model"] == JString(cfg.modelName) && p["system"] == JString(cfg.systemPrompt)
    ensures p["stream"] == JBool(false)
    ensures p["prompt"] == JString(prompt)
  {
    map["model" := JString(cfg.modelName), "prompt" := JString(prompt), "stream" := JBool(false),
        "system" := JString(cfg.systemPrompt)]
  }

  /** The body of a non-2xx backend response: `parsed` is Python's `str()` of the decoded JSON value
      when the body decodes (single quotes, `True`, `None`), and `text` is the raw body. */
  datatype ErrorBody = ErrorBody(parsed: Option<string>, text: string)

  /** How the backend exchange ended.
      - `Answered`: a 2xx response whose JSON object body either lacks `response` or carries
        it as a string, which is what the backend sends.
      - `HttpFailure`: an HTTP client error; `response` is absent for transport failures
        (connection refused, timeout) and present for an error status.
      - `OtherFault`: any other `Exception` raised while handling the request, such as a 2xx
        body that is not JSON, is not an object, or carries a `response` that is null, a
        number or a boolean (`len` of it raises). */
  datatype BackendOutcome =
    | Answered(responseField: Option<string>)
    | HttpFailure(description: string, response: Option<ErrorBody>)
    | OtherFault(description: string)

  /** The four error types the handler reports. */
  datatype ErrorKind = HttpError | OllamaApiError | OllamaResponseError | UnexpectedError
  {
    /** The `error_type` label value. */
    function Label(): string
    {
      match this
      case HttpError => "http_error"
      case OllamaApiError => "ollama_api_error"
      case OllamaResponseError => "ollama_response_error"
      case UnexpectedError => "unexpected_error"
    }
  }

  /** The error type a failed exchange is reported under; none for an answered one. */
  function Classify(o: BackendOutcome): (k: Option<ErrorKind>)
    ensures k.None? <==> o.Answered?
    ensures k == Some(HttpError) <==> o.HttpFailure? && o.response.None?
    ensures k == Some(OllamaApiError) <==> o.HttpFailure? && o.response.Some? && o.response.value.parsed.Some?
    ensures k == Some(OllamaResponseError) <==> o.HttpFailure? && o.response.Some? && o.response.value.parsed.None?
    ensures k == Some(UnexpectedError) <==> o.OtherFault?
  {
    match o
    case Answered(_) => None
    case HttpFailure(_, None) => Some(HttpError)
    case HttpFailure(_, Some(body)) => if body.parsed.Some? then Some(OllamaApiError) else Some(OllamaResponseError)
    case OtherFault(_) => Some(UnexpectedError)
  }

  /** The `detail` of the 500 reply for a failed exchange: a prefix naming the failure class,
      then the rendering of the exception or of the backend's error body. The two backend error
      types share one prefix. */
  function ErrorMessage(o: BackendOutcome): (m: string)
    requires !o.Answered?
    ensures Classify(o) == Some(HttpError) ==> m == "HTTP error occurred: " + o.description
    ensures Classify(o) == Some(OllamaApiError) ==> m == "Ollama API error: " + o.response.value.parsed.value
    ensures Classify(o) == Some(OllamaResponseError) ==> m == "Ollama API error: " + o.response.value.text
    ensures Classify(o) == Some(UnexpectedError) ==> m == "Unexpected error: " + o.description
  {
    match o
    case HttpFailure(d, None) => "HTTP error occurred: " + d
    case HttpFailure(_, Some(body)) =>
      if body.parsed.Some? then "Ollama API error: " + body.parsed.value else "Ollama API error: " + body.text
    case OtherFault(d) => "Unexpected error: " + d
  }

  const InternalServerError := 500

  /** What the caller of `/generate` receives. */
  datatype Reply = Generated(response: string) | Failed(statusCode: int, detail: string)

  /** A call the handler makes, in the order it makes them. */
  datatype Call =
    | RecordStart(model: string, promptLength: int)
    | SendToBackend(payload: Payload)
    | RecordSuccess(model: string, inferenceTime: real, responseLength: int, promptLength: int)
    | RecordError(model: string, errorType: string, inferenceTime: real)
  {
    predicate IsTerminal()
    {
      RecordSuccess? || RecordError?
    }
  }

  /** How much a call moves gauge `k`: the in-flight bookkeeping, stated independently of the
      recording recipes. */
  function GaugeDelta(c: Call, k: Series): int
  {
    match c
    case RecordStart(m, _) => if k == Active(m) then 1 else 0
    case SendToBackend(_) => 0
    case RecordSuccess(m, _, _, _) => if k == Active(m) then -1 else 0
    case RecordError(m, _, _) => if k == Active(m) then -1 else 0
  }

  /** How much a call moves counter `k`. */
  function CountDelta(c: Call, k: Series): nat
  {
    match c
    case RecordStart(_, _) => 0
    case SendToBackend(_) => 0
    case RecordSuccess(m, _, _, _) =>
      if k == RequestCount(StatusSuccess) || k == LlmRequests(m, StatusSuccess) then 1 else 0
    case RecordError(m, e, _) =>
      if k == RequestCount(StatusError) || k == LlmRequests(m, StatusError) || k == LlmErrors(m, e) then 1 else 0
  }

  /** What a call does to the registry, as the recording recipes promise it. */
  ghost predicate Effect(s: MetricStore, r: MetricStore, c: Call)
  {
    match c
    case RecordStart(m, n) => StartEffect(s, r, m, n)
    case SendToBackend(_) => r == s
    case RecordSuccess(m, t, len, _) => SuccessEffect(s, r, m, t, len)
    case RecordError(m, e, t) => ErrorEffect(s, r, m, e, t)
  }

  /** The recipes move gauges and counters exactly as the bookkeeping tables say. */
  lemma EffectDeltas(s: MetricStore, r: MetricStore, c: Call)
    requires Effect(s, r, c)
    ensures forall k :: Level(r, k) == Level(s, k) + GaugeDelta(c, k)
    ensures forall k :: Count(r, k) == Count(s, k) + CountDelta(c, k)
  {
  }

  /** The registry after one call; the backend call itself records nothing. */
  function Apply(s: MetricStore, c: Call): (r: MetricStore)
    ensures Effect(s, r, c)
    ensures forall k :: Level(r, k) == Level(s, k) + GaugeDelta(c, k)
    ensures forall k :: Count(r, k) == Count(s, k) + CountDelta(c, k)
  {
    var r := match c
      case RecordStart(m, n) => RecordRequestStart(s, m, n)
      case SendToBackend(_) => s
      case RecordSuccess(m, t, len, n) => RecordRequestSuccess(s, m, t, len, n)
      case RecordError(m, e, t) => RecordRequestError(s, m, e, t);
    EffectDeltas(s, r, c);
    r
  }

  function NetGauge(cs: seq<Call>, k: Series): int
  {
    if cs == [] then 0 else GaugeDelta(cs[0], k) + NetGauge(cs[1..], k)
  }

  function NetCount(cs: seq<Call>, k: Series): nat
  {
    if cs == [] then 0 else CountDelta(cs[0], k) + NetCount(cs[1..], k)
  }

  /** The registry after a sequence of calls, applied in order. */
  function Replay(s: MetricStore, cs: seq<Call>): (r: MetricStore)
    ensures forall k :: Level(r, k) == Level(s, k) + NetGauge(cs, k)
    ensures forall k :: Count(r, k) == Count(s, k) + NetCount(cs, k)
    decreases |cs|
  {
    if cs == [] then s else Replay(Apply(s, cs[0]), cs[1..])
  }

  /** One handled request: the calls it made and the reply it produced. */
  datatype Handling = Handling(calls: seq<Call>, reply: Reply)

  /** The calls made before the backend answers: start accounting, then the backend request. */
  function StartCalls(cfg: Config, prompt: string): seq<Call>
  {
    [RecordStart(cfg.modelName, |prompt|), SendToBackend(OllamaPayload(cfg, prompt))]
  }

  /** The single terminal accounting call for an outcome. */
  function TerminalCall(cfg: Config, prompt: string, o: BackendOutcome, elapsed: real): Call
  {
    match o
    case Answered(field) => RecordSuccess(cfg.modelName, elapsed, |field.GetOr("")|, |prompt|)
    case _ => RecordError(cfg.modelName, Classify(o).value.Label(), elapsed)
  }

  function ReplyTo(o: BackendOutcome): Reply
  {
    match o
    case Answered(field) => Generated(field.GetOr(""))
    case _ => Failed(InternalServerError, ErrorMessage(o))
  }

  /** `generate_text` for one prompt, given how the backend exchange ended and how long after the
      start of the request that was known. */
  function GenerateText(cfg: Config, prompt: string, o: BackendOutcome, elapsed: real): (h: Handling)
    ensures |h.calls| == 3
    ensures h.calls[0] == RecordStart(cfg.modelName, |prompt|)
    ensures h.calls[1] == SendToBackend(OllamaPayload(cfg, prompt))
    ensures h.calls[2].IsTerminal() && h.calls[2].model == cfg.modelName
    ensures h.reply.Generated? <==> o.Answered?
    ensures h.calls[2].RecordSuccess? <==> o.Answered?
    ensures o.Answered? ==> && h.reply.response == o.responseField.GetOr("")
                            && h.calls[2].responseLength == |h.reply.response|
                            && h.calls[2].inferenceTime == elapsed
    ensures !o.Answered? ==> && h.reply == Failed(InternalServerError, ErrorMessage(o))
                             && h.calls[2] == RecordError(cfg.modelName, Classify(o).value.Label(), elapsed)
  {
    Handling(StartCalls(cfg, prompt) + [TerminalCall(cfg, prompt, o, elapsed)], ReplyTo(o))
  }

  /** Distinct error types land in distinct `llm_errors_total` series. */
  lemma LabelsDistinct(a: ErrorKind, b: ErrorKind)
    ensures a.Label() == b.Label() <==> a == b
  {
    if a != b {
      var x, y := a.Label(), b.Label();
      assert |x| != |y| || x[0] != y[0];
    }
  }

  /** Every call keeps the registry well formed: the recipes use only declared series. */
  lemma ApplyKeepsWellFormed(s: MetricStore, c: Call)
    requires WellFormed(s)
    ensures WellFormed(Apply(s, c))
  {
    match c
    case RecordStart(m, n) => StartKeepsWellFormed(s, m, n);
    case SendToBackend(_) =>
    case RecordSuccess(m, t, len, n) => SuccessKeepsWellFormed(s, m, t, len, n);
    case RecordError(m, e, t) => ErrorKeepsWellFormed(s, m, e, t);
  }

  /** Any sequence of calls keeps the registry well formed. */
  lemma {:induction false} ReplayKeepsWellFormed(s: MetricStore, cs: seq<Call>)
    requires WellFormed(s)
    ensures WellFormed(Replay(s, cs))
    decreases |cs|
  {
    if cs != [] {
      ApplyKeepsWellFormed(s, cs[0]);
      ReplayKeepsWellFormed(Apply(s, cs[0]), cs[1..]);
    }
  }

  /** Net movements add up over concatenated call sequences. */
  lemma {:induction false} NetAppend(xs: seq<Call>, ys: seq<Call>, k: Series)
    ensures NetGauge(xs + ys, k) == NetGauge(xs, k) + NetGauge(ys, k)
    ensures NetCount(xs + ys, k) == NetCount(xs, k) + NetCount(ys, k)
  {
    if xs == [] {
      assert xs + ys == ys;
    } else {
      assert (xs + ys)[1..] == xs[1..] + ys;
      NetAppend(xs[1..], ys, k);
    }
  }

  /** The net movement of a one-call sequence is that call's movement. */
  lemma NetSingle(c: Call, k: Series)
    ensures NetGauge([c], k) == GaugeDelta(c, k)
    ensures NetCount([c], k) == CountDelta(c, k)
  {
    assert [c][1..] == [];
  }

  /** The calls made before the backend answers raise the active gauge by one and move no counter. */
  lemma StartCallsDeltas(cfg: Config, prompt: string, k: Series)
    ensures NetGauge(StartCalls(cfg, prompt), k) == if k == Active(cfg.modelName) then 1 else 0
    ensures NetCount(StartCalls(cfg, prompt), k) == 0
  {
    var cs := StartCalls(cfg, prompt);
    assert cs == [cs[0]] + [cs[1]];
    NetAppend([cs[0]], [cs[1]], k);
    NetSingle(cs[0], k);
    NetSingle(cs[1], k);
  }

  /** A request's net effect on the registry is that of its terminal call, apart from the
      start's one-step rise of the active gauge. */
  lemma RequestDeltas(cfg: Config, prompt: string, o: BackendOutcome, elapsed: real, k: Series)
    ensures NetGauge(GenerateText(cfg, prompt, o, elapsed).calls, k)
         == (if k == Active(cfg.modelName) then 1 else 0) + GaugeDelta(TerminalCall(cfg, prompt, o, elapsed), k)
    ensures NetCount(GenerateText(cfg, prompt, o, elapsed).calls, k) == CountDelta(TerminalCall(cfg, prompt, o, elapsed), k)
  {
    var t := TerminalCall(cfg, prompt, o, elapsed);
    NetAppend(StartCalls(cfg, prompt), [t], k);
    StartCallsDeltas(cfg, prompt, k);
    NetSingle(t, k);
  }

  /** Whatever the backend does, a request leaves every gauge where it found it: the start
      raises the active gauge by one and exactly one terminal call lowers it again. */
  lemma GenerateTextRestoresGauges(cfg: Config, prompt: string, o: BackendOutcome, elapsed: real, s: MetricStore)
    ensures forall k :: Level(Replay(s, GenerateText(cfg, prompt, o, elapsed).calls), k) == Level(s, k)
  {
    forall k
      ensures NetGauge(GenerateText(cfg, prompt, o, elapsed).calls, k) == 0
    {
      RequestDeltas(cfg, prompt, o, elapsed, k);
    }
  }

  /** A terminal call moves exactly the counters its outcome calls for, each by one. */
  lemma TerminalCounters(cfg: Config, prompt: string, o: BackendOutcome, elapsed: real, s: MetricStore, r: MetricStore)
    requires forall k :: Count(r, k) == Count(s, k) + CountDelta(TerminalCall(cfg, prompt, o, elapsed), k)
    ensures o.Answered? ==>
        && Count(r, RequestCount(StatusSuccess)) == Count(s, RequestCount(StatusSuccess)) + 1
        && Count(r, LlmRequests(cfg.modelName, StatusSuccess)) == Count(s, LlmRequests(cfg.modelName, StatusSuccess)) + 1
        && CountersAgreeExcept(s, r, {RequestCount(StatusSuccess), LlmRequests(cfg.modelName, StatusSuccess)})
    ensures !o.Answered? ==>
        var errors := LlmErrors(cfg.modelName, Classify(o).value.Label());
        && Count(r, RequestCount(StatusError)) == Count(s, RequestCount(StatusError)) + 1
        && Count(r, LlmRequests(cfg.modelName, StatusError)) == Count(s, LlmRequests(cfg.modelName, StatusError)) + 1
        && Count(r, errors) == Count(s, errors) + 1
        && CountersAgreeExcept(s, r, {RequestCount(StatusError), LlmRequests(cfg.modelName, StatusError), errors})
  {
  }

  /** A request moves exactly the counters its outcome calls for, each by one, and no other. */
  lemma GenerateTextCounters(cfg: Config, prompt: string, o: BackendOutcome, elapsed: real, s: MetricStore)
    ensures var r := Replay(s, GenerateText(cfg, prompt, o, elapsed).calls);
      o.Answered? ==>
        && Count(r, RequestCount(StatusSuccess)) == Count(s, RequestCount(StatusSuccess)) + 1
        && Count(r, LlmRequests(cfg.modelName, StatusSuccess)) == Count(s, LlmRequests(cfg.modelName, StatusSuccess)) + 1
        && CountersAgreeExcept(s, r, {RequestCount(StatusSuccess), LlmRequests(cfg.modelName, StatusSuccess)})
    ensures var r := Replay(s, GenerateText(cfg, prompt, o, elapsed).calls);
      !o.Answered? ==>
        var errors := LlmErrors(cfg.modelName, Classify(o).value.Label());
        && Count(r, RequestCount(StatusError)) == Count(s, RequestCount(StatusError)) + 1
        && Count(r, LlmRequests(cfg.modelName, StatusError)) == Count(s, LlmRequests(cfg.modelName, StatusError)) + 1
        && Count(r, errors) == Count(s, errors) + 1
        && CountersAgreeExcept(s, r, {RequestCount(StatusError), LlmRequests(cfg.modelName, StatusError), errors})
  {
    var r := Replay(s, GenerateText(cfg, prompt, o, elapsed).calls);
    forall k
      ensures Count(r, k) == Count(s, k) + CountDelta(TerminalCall(cfg, prompt, o, elapsed), k)
    {
      RequestDeltas(cfg, prompt, o, elapsed, k);
    }
    TerminalCounters(cfg, prompt, o, elapsed, s, r);
  }

  /** One `/generate` request as the handler sees it. */
  datatype Request = Request(prompt: string, outcome: BackendOutcome, elapsed: real)

  /** The calls a sequence of requests makes when they are served one after another. */
  function SessionCalls(cfg: Config, reqs: seq<Request>): seq<Call>
    decreases |reqs|
  {
    if reqs == [] then []
    else GenerateText(cfg, reqs[0].prompt, reqs[0].outcome, reqs[0].elapsed).calls + SessionCalls(cfg, reqs[1..])
  }

  /** The registry after serving requests one after another. */
  function ServeAll(cfg: Config, s: MetricStore, reqs: seq<Request>): MetricStore
  {
    Replay(s, SessionCalls(cfg, reqs))
  }

  /** How many of the requests the backend answered. */
  function AnsweredCount(reqs: seq<Request>): nat
    ensures AnsweredCount(reqs) <= |reqs|
  {
    if reqs == [] then 0 else (if reqs[0].outcome.Answered? then 1 else 0) + AnsweredCount(reqs[1..])
  }

  /** How many of the requests failed with error type `kind`. */
  function FailedWith(reqs: seq<Request>, kind: ErrorKind): nat
  {
    if reqs == [] then 0 else (if Classify(reqs[0].outcome) == Some(kind) then 1 else 0) + FailedWith(reqs[1..], kind)
  }

  /** A terminal call moves the model's success counter exactly when the backend answered, its
      error counter exactly when it did not, and the counter of an error type exactly when the
      outcome is classified as that type. */
  lemma TerminalDeltas(cfg: Config, prompt: string, o: BackendOutcome, elapsed: real, kind: ErrorKind)
    ensures CountDelta(TerminalCall(cfg, prompt, o, elapsed), LlmRequests(cfg.modelName, StatusSuccess))
         == if o.Answered? then 1 else 0
    ensures CountDelta(TerminalCall(cfg, prompt, o, elapsed), LlmRequests(cfg.modelName, StatusError))
         == if o.Answered? then 0 else 1
    ensures CountDelta(TerminalCall(cfg, prompt, o, elapsed), LlmErrors(cfg.modelName, kind.Label()))
         == if Classify(o) == Some(kind) then 1 else 0
  {
    if !o.Answered? {
      LabelsDistinct(kind, Classify(o).value);
    }
  }

  /** The calls of a whole session move no gauge on balance. */
  lemma {:induction false} SessionGauges(cfg: Config, reqs: seq<Request>, k: Series)
    ensures NetGauge(SessionCalls(cfg, reqs), k) == 0
    decreases |reqs|
  {
    if reqs != [] {
      var q := reqs[0];
      NetAppend(GenerateText(cfg, q.prompt, q.outcome, q.elapsed).calls, SessionCalls(cfg, reqs[1..]), k);
      RequestDeltas(cfg, q.prompt, q.outcome, q.elapsed, k);
      SessionGauges(cfg, reqs[1..], k);
    }
  }

  /** The calls of a whole session add one to the model's success counter per answered request
      and one to its error counter per failed request. */
  lemma {:induction false} SessionOutcomes(cfg: Config, reqs: seq<Request>)
    ensures NetCount(SessionCalls(cfg, reqs), LlmRequests(cfg.modelName, StatusSuccess)) == AnsweredCount(reqs)
    ensures NetCount(SessionCalls(cfg, reqs), LlmRequests(cfg.modelName, StatusError)) == |reqs| - AnsweredCount(reqs)
    decreases |reqs|
  {
    if reqs != [] {
      var q := reqs[0];
      var first := GenerateText(cfg, q.prompt, q.outcome, q.elapsed).calls;
      NetAppend(first, SessionCalls(cfg, reqs[1..]), LlmRequests(cfg.modelName, StatusSuccess));
      NetAppend(first, SessionCalls(cfg, reqs[1..]), LlmRequests(cfg.modelName, StatusError));
      RequestDeltas(cfg, q.prompt, q.outcome, q.elapsed, LlmRequests(cfg.modelName, StatusSuccess));
      RequestDeltas(cfg, q.prompt, q.outcome, q.elapsed, LlmRequests(cfg.modelName, StatusError));
      TerminalDeltas(cfg, q.prompt, q.outcome, q.elapsed, HttpError);
      SessionOutcomes(cfg, reqs[1..]);
    }
  }

  /** The calls of a whole session add one to an error type's counter per request that failed
      with that type. */
  lemma {:induction false} SessionErrorKinds(cfg: Config, reqs: seq<Request>, kind: ErrorKind)
    ensures NetCount(SessionCalls(cfg, reqs), LlmErrors(cfg.modelName, kind.Label())) == FailedWith(reqs, kind)
    decreases |reqs|
  {
    if reqs != [] {
      var q := reqs[0];
      var first := GenerateText(cfg, q.prompt, q.outcome, q.elapsed).calls;
      NetAppend(first, SessionCalls(cfg, reqs[1..]), LlmErrors(cfg.modelName, kind.Label()));
      RequestDeltas(cfg, q.prompt, q.outcome, q.elapsed, LlmErrors(cfg.modelName, kind.Label()));
      TerminalDeltas(cfg, q.prompt, q.outcome, q.elapsed, kind);
      SessionErrorKinds(cfg, reqs[1..], kind);
    }
  }

  /** After any number of requests served one after another, every gauge is back where it
      started. */
  lemma ServeAllRestoresGauges(cfg: Config, s: MetricStore, reqs: seq<Request>)
    ensures forall k :: Level(ServeAll(cfg, s, reqs), k) == Level(s, k)
  {
    forall k ensures NetGauge(SessionCalls(cfg, reqs), k) == 0 {
      SessionGauges(cfg, reqs, k);
    }
  }

  /** After any number of requests served one after another, the model's success counter has
      grown by the number of answered requests and its error counter by the number of failed
      ones. */
  lemma ServeAllCountsOutcomes(cfg: Config, s: MetricStore, reqs: seq<Request>)
    ensures Count(ServeAll(cfg, s, reqs), LlmRequests(cfg.modelName, StatusSuccess))
         == Count(s, LlmRequests(cfg.modelName, StatusSuccess)) + AnsweredCount(reqs)
    ensures Count(ServeAll(cfg, s, reqs), LlmRequests(cfg.modelName, StatusError))
         == Count(s, LlmRequests(cfg.modelName, StatusError)) + (|reqs| - AnsweredCount(reqs))
  {
    SessionOutcomes(cfg, reqs);
  }

  /** After any number of requests served one after another, the counter of each error type has
      grown by the number of requests that failed with that type. */
  lemma ServeAllCountsErrorKinds(cfg: Config, s: MetricStore, reqs: seq<Request>, kind: ErrorKind)
    ensures Count(ServeAll(cfg, s, reqs), LlmErrors(cfg.modelName, kind.Label()))
         == Count(s, LlmErrors(cfg.modelName, kind.Label())) + FailedWith(reqs, kind)
  {
    SessionErrorKinds(cfg, reqs, kind);
  }

  /** From process start, any sequence of requests leaves only declared series in the registry. */
  lemma ServeAllWellFormed(cfg: Config, reqs: seq<Request>)
    ensures WellFormed(ServeAll(cfg, Empty(), reqs))
  {
    EmptyWellFormed();
    ReplayKeepsWellFormed(Empty(), SessionCalls(cfg, reqs));
  }

  /** Replaying three calls applies them in order. */
  lemma ReplayThree(s: MetricStore, cs: seq<Call>)
    requires |cs| == 3
    ensures Replay(s, cs) == Apply(Apply(Apply(s, cs[0]), cs[1]), cs[2])
  {
    var s1 := Apply(s, cs[0]);
    var s2 := Apply(s1, cs[1]);
    assert Replay(s, cs) == Replay(s1, cs[1..]);
    assert Replay(s1, cs[1..]) == Replay(s2, cs[2..]);
    assert Replay(s2, cs[2..]) == Replay(Apply(s2, cs[2]), cs[3..]);
    assert cs[3..] == [];
  }

  /** The histogram observations of a start followed by the terminal call for an outcome. */
  lemma LifecycleObservations(cfg: Config, prompt: string, o: BackendOutcome, elapsed: real,
                              s: MetricStore, mid: MetricStore, r: MetricStore)
    requires StartEffect(s, mid, cfg.modelName, |prompt|)
    requires Effect(mid, r, TerminalCall(cfg, prompt, o, elapsed))
    ensures
      && Samples(r, ByModel(LlmPromptLength, cfg.modelName))
         == Samples(s, ByModel(LlmPromptLength, cfg.modelName)) + [|prompt| as real]
      && Samples(r, ByModel(LlmPromptTokensEstimate, cfg.modelName))
         == Samples(s, ByModel(LlmPromptTokensEstimate, cfg.modelName)) + [Quarter(|prompt|)]
      && Samples(r, ByEndpoint(AppRequestLatency)) == Samples(s, ByEndpoint(AppRequestLatency)) + [elapsed]
    ensures
      o.Answered? ==>
        var n := |o.responseField.GetOr("")|;
        && Samples(r, ByEndpoint(AppResponseSize)) == Samples(s, ByEndpoint(AppResponseSize)) + [n as real]
        && Samples(r, ByModel(LlmResponseLength, cfg.modelName))
           == Samples(s, ByModel(LlmResponseLength, cfg.modelName)) + [n as real]
        && Samples(r, ByModel(LlmResponseTokensEstimate, cfg.modelName))
           == Samples(s, ByModel(LlmResponseTokensEstimate, cfg.modelName)) + [Quarter(n)]
        && Samples(r, ByModel(LlmInferenceTime, cfg.modelName))
           == Samples(s, ByModel(LlmInferenceTime, cfg.modelName)) + [elapsed]
    ensures
      !o.Answered? ==>
        && Samples(r, ByEndpoint(AppResponseSize)) == Samples(s, ByEndpoint(AppResponseSize))
        && Samples(r, ByModel(LlmResponseLength, cfg.modelName)) == Samples(s, ByModel(LlmResponseLength, cfg.modelName))
        && Samples(r, ByModel(LlmResponseTokensEstimate, cfg.modelName))
           == Samples(s, ByModel(LlmResponseTokensEstimate, cfg.modelName))
        && Samples(r, ByModel(LlmInferenceTime, cfg.modelName)) == Samples(s, ByModel(LlmInferenceTime, cfg.modelName))
  {
  }

  /** What one request records in the histograms: the prompt length and its token estimate and
      the latency always; the response size, inference time, response length and response
      token estimate only when the backend answered. */
  lemma GenerateTextObservations(cfg: Config, prompt: string, o: BackendOutcome, elapsed: real, s: MetricStore)
    ensures var r := Replay(s, GenerateText(cfg, prompt, o, elapsed).calls);
      && Samples(r, ByModel(LlmPromptLength, cfg.modelName))
         == Samples(s, ByModel(LlmPromptLength, cfg.modelName)) + [|prompt| as real]
      && Samples(r, ByModel(LlmPromptTokensEstimate, cfg.modelName))
         == Samples(s, ByModel(LlmPromptTokensEstimate, cfg.modelName)) + [Quarter(|prompt|)]
      && Samples(r, ByEndpoint(AppRequestLatency)) == Samples(s, ByEndpoint(AppRequestLatency)) + [elapsed]
    ensures var r := Replay(s, GenerateText(cfg, prompt, o, elapsed).calls);
      o.Answered? ==>
        var n := |o.responseField.GetOr("")|;
        && Samples(r, ByEndpoint(AppResponseSize)) == Samples(s, ByEndpoint(AppResponseSize)) + [n as real]
        && Samples(r, ByModel(LlmResponseLength, cfg.modelName))
           == Samples(s, ByModel(LlmResponseLength, cfg.modelName)) + [n as real]
        && Samples(r, ByModel(LlmResponseTokensEstimate, cfg.modelName))
           == Samples(s, ByModel(LlmResponseTokensEstimate, cfg.modelName)) + [Quarter(n)]
        && Samples(r, ByModel(LlmInferenceTime, cfg.modelName))
           == Samples(s, ByModel(LlmInferenceTime, cfg.modelName)) + [elapsed]
    ensures var r := Replay(s, GenerateText(cfg, prompt, o, elapsed).calls);
      !o.Answered? ==>
        && Samples(r, ByEndpoint(AppResponseSize)) == Samples(s, ByEndpoint(AppResponseSize))
        && Samples(r, ByModel(LlmResponseLength, cfg.modelName)) == Samples(s, ByModel(LlmResponseLength, cfg.modelName))
        && Samples(r, ByModel(LlmResponseTokensEstimate, cfg.modelName))
           == Samples(s, ByModel(LlmResponseTokensEstimate, cfg.modelName))
        && Samples(r, ByModel(LlmInferenceTime, cfg.modelName)) == Samples(s, ByModel(LlmInferenceTime, cfg.modelName))
  {
    var h := GenerateText(cfg, prompt, o, elapsed);
    ReplayThree(s, h.calls);
    var s1 := Apply(s, h.calls[0]);
    assert Apply(s1, h.calls[1]) == s1;
    LifecycleObservations(cfg, prompt, o, elapsed, s, s1, Apply(s1, h.calls[2]));
  }

  /** A request touches no series labelled with another model: not its counters, its gauge
      or its histograms. */
  lemma GenerateTextLeavesOtherModels(cfg: Config, prompt: string, o: BackendOutcome, elapsed: real, s: MetricStore)
    ensures var r := Replay(s, GenerateText(cfg, prompt, o, elapsed).calls);
      forall k: Series :: k.labels.HasModel() && k.labels.model != cfg.modelName ==>
        Count(r, k) == Count(s, k) && Level(r, k) == Level(s, k) && Samples(r, k) == Samples(s, k)
  {
    var h := GenerateText(cfg, prompt, o, elapsed);
    ReplayThree(s, h.calls);
    var s1 := Apply(s, h.calls[0]);
    assert Apply(s1, h.calls[1]) == s1;
    var r := Apply(s1, h.calls[2]);
    StartLeavesOtherModels(s, s1, cfg.modelName, |prompt|);
    if o.Answered? {
      SuccessLeavesOtherModels(s1, r, cfg.modelName, elapsed, |o.responseField.GetOr("")|);
    } else {
      ErrorLeavesOtherModels(s1, r, cfg.modelName, Classify(o).value.Label(), elapsed);
    }
  }

  /** A backend that does not answer within the client's default 5-second timeout, starting
      from a fresh registry. */
  lemma TimeoutScenario(description: string)
    ensures var h := GenerateText(DefaultConfig, "hello", HttpFailure(description, None), 5.0);
      var r := Replay(Empty(), h.calls);
      var model := DefaultConfig.modelName;
      && h.reply == Failed(500, "HTTP error occurred: " + description)
      && Count(r, LlmErrors(model, "http_error")) == 1
      && Count(r, LlmRequests(model, StatusError)) == 1
      && Level(r, Active(model)) == 0
  {
    var h := GenerateText(DefaultConfig, "hello", HttpFailure(description, None), 5.0);
    GenerateTextRestoresGauges(DefaultConfig, "hello", HttpFailure(description, None), 5.0, Empty());
    GenerateTextCounters(DefaultConfig, "hello", HttpFailure(description, None), 5.0, Empty());
  }
}
