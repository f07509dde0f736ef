/**
 The gateway's two read-only endpoints: `/health`, which probes the backend's model list and
 reports one of three states, and `/model-info`, which reports the configuration with the
 system prompt shortened for display. Neither touches the metrics registry.
 */
module Status {
  import opened Wrappers
  import opened Gateway

  /** The overall state `/health` reports. */
  datatype Health = Healthy | Degraded | Unhealthy {
    function Name(): string {
      match this
      case Healthy => "healthy"
      case Degraded => "degraded"
      case Unhealthy => "unhealthy"
    }
  }

  /** What the probe of the backend's model list came back with: an HTTP status, or an
      exception (connection refused, the 5-second timeout, ...) with its rendering. */
  datatype Probe = Responded(statusCode: int) | ProbeFailed(description: string)

  /** The address the health probe requests. */
  function ProbeUrl(cfg: Config): (u: string)
    ensures |u| == |cfg.ollamaUrl| + 9
    ensures u[..|cfg.ollamaUrl|] == cfg.ollamaUrl && u[|cfg.ollamaUrl|..] == "/api/tags"
  {
    cfg.ollamaUrl + "/api/tags"
  }

  /** The `/health` body. `error` is present only when the probe raised. The timestamp is the
      caller's clock reading, given as a parameter. */
  datatype HealthReport = HealthReport(status: Health, llmService: string, model: string,
                                       timestamp: string, error: Option<string>)

  function HealthCheck(cfg: Config, probe: Probe, now: string): (r: HealthReport)
    ensures r.model == cfg.modelName && r.timestamp == now
    ensures r.status == Healthy <==> probe == Responded(200)
    ensures r.status == Degraded <==> probe.Responded? && probe.statusCode != 200
    ensures r.status == Unhealthy <==> probe.ProbeFailed?
    ensures r.llmService == "available" <==> r.status == Healthy
    ensures r.llmService == "unavailable" <==> r.status == Degraded
    ensures r.llmService == "error" <==> r.status == Unhealthy
    ensures r.error.Some? <==> probe.ProbeFailed?
    ensures probe.ProbeFailed? ==> r.error == Some(probe.description)
  {
    match probe
    case Responded(code) =>
      if code == 200 then HealthReport(Healthy, "available", cfg.modelName, now, None)
      else HealthReport(Degraded, "unavailable", cfg.modelName, now, None)
    case ProbeFailed(d) =>
      HealthReport(Unhealthy, "error", cfg.modelName, now, Some(d))
  }

  /** How many characters of the system prompt `/model-info` shows before eliding the rest. */
  const PreviewLength := 100
  const Ellipsis := "..."

  /** The system prompt as `/model-info` shows it: unchanged up to 100 characters, otherwise
      its first 100 characters followed by "...". */
  function Preview(text: string): (r: string)
    ensures |text| <= PreviewLength ==> r == text
    ensures |text| > PreviewLength ==> |r| == PreviewLength + |Ellipsis|
    ensures |text| > PreviewLength ==> r[..PreviewLength] == text[..PreviewLength] && r[PreviewLength..] == Ellipsis
  {
    if |text| > PreviewLength then text[..PreviewLength] + Ellipsis else text
  }

  /** A preview never exceeds 103 characters and always begins as the text does. */
  lemma PreviewBounds(text: string)
    ensures |Preview(text)| <= PreviewLength + |Ellipsis|
    ensures var n := if |text| < PreviewLength then |text| else PreviewLength;
            n <= |Preview(text)| && Preview(text)[..n] == text[..n]
  {
  }

  /** Shortening an already shortened prompt changes nothing: a 103-character preview is
      itself cut back to its first 100 characters and the same ellipsis. */
  lemma PreviewIdempotent(text: string)
    ensures Preview(Preview(text)) == Preview(text)
  {
    if |text| > PreviewLength {
      var p := Preview(text);
      assert p[..PreviewLength] + Ellipsis == p[..PreviewLength] + p[PreviewLength..];
      assert p[..PreviewLength] + p[PreviewLength..] == p;
    }
  }

  /** Two prompts with the same preview agree on their first 100 characters, and if either is
      short enough to be shown whole they are equal. */
  lemma PreviewLosesOnlyTheTail(a: string, b: string)
    requires Preview(a) == Preview(b)
    ensures |a| <= PreviewLength || |b| <= PreviewLength ==> a == b
    ensures |a| > PreviewLength ==> |b| > PreviewLength && a[..PreviewLength] == b[..PreviewLength]
  {
  }

  /** The `/model-info` body. */
  datatype ModelInfo = ModelInfo(modelName: string, ollamaUrl: string, systemPrompt: string, timestamp: string)

  function GetModelInfo(cfg: Config, now: string): (r: ModelInfo)
    ensures r.modelName == cfg.modelName && r.ollamaUrl == cfg.ollamaUrl && r.timestamp == now
    ensures |cfg.systemPrompt| <= PreviewLength ==> r.systemPrompt == cfg.systemPrompt
    ensures |cfg.systemPrompt| > PreviewLength ==>
              r.systemPrompt == cfg.systemPrompt[..PreviewLength] + Ellipsis
  {
    ModelInfo(cfg.modelName, cfg.ollamaUrl, Preview(cfg.systemPrompt), now)
  }
}
