/**
 Several `/generate` requests in flight at once. Each request's start accounting and terminal
 accounting are separate events, and events of different requests interleave in any order.
 Each metrics update is taken to be atomic; the interleaving is what remains of concurrency.
 */
module Server {
  import opened Registry
  import opened Metrics
  import opened Gateway

  /** A request reaching the handler (start accounting done, backend call issued), or a
      request's backend exchange ending (terminal accounting done). */
  datatype Event =
    | Arrive(id: nat, prompt: string)
    | Complete(id: nat, outcome: BackendOutcome, elapsed: real)

  /** The registry and the requests currently in flight, by id, with their prompts. */
  datatype State = State(metrics: MetricStore, inFlight: map<nat, string>)

  /** The process as it starts: a fresh registry and nothing in flight. */
  const Idle := State(Empty(), map[])

  /** The start accounting of one request raises the model's active gauge by one and leaves
      every other gauge where it was. */
  lemma ArriveLevels(cfg: Config, prompt: string, s: MetricStore, k: Series)
    ensures Level(Replay(s, StartCalls(cfg, prompt)), k)
         == Level(s, k) + (if k == Active(cfg.modelName) then 1 else 0)
  {
    StartCallsDeltas(cfg, prompt, k);
  }

  /** The terminal accounting of one request, whatever its outcome, lowers the model's active
      gauge by one and leaves every other gauge where it was. */
  lemma CompleteLevels(cfg: Config, prompt: string, o: BackendOutcome, elapsed: real, s: MetricStore, k: Series)
    ensures Level(Apply(s, TerminalCall(cfg, prompt, o, elapsed)), k)
         == Level(s, k) - (if k == Active(cfg.modelName) then 1 else 0)
  {
  }

  /** Adding an id that is absent, or removing one that is present, moves the in-flight count by one. */
  lemma InFlightSize(m: map<nat, string>, id: nat, prompt: string)
    ensures id !in m ==> |m[id := prompt]| == |m| + 1
    ensures id in m ==> |m - {id}| == |m| - 1
  {
    if id !in m {
      assert m[id := prompt].Keys == m.Keys + {id};
    } else {
      assert (m - {id}).Keys == m.Keys - {id};
    }
  }

  /** One event. A request is in flight between its arrival and its completion. Each handler
      invocation serves one request, so an arrival under an id already in flight, or a
      completion of a request that is not in flight, does not occur; such an event leaves the
      state as it is. */
  function Step(cfg: Config, st: State, e: Event): (r: State)
    ensures Level(r.metrics, Active(cfg.modelName)) - |r.inFlight|
         == Level(st.metrics, Active(cfg.modelName)) - |st.inFlight|
    ensures forall k :: k != Active(cfg.modelName) ==> Level(r.metrics, k) == Level(st.metrics, k)
  {
    match e
    case Arrive(id, prompt) =>
      if id in st.inFlight then st
      else
        InFlightSize(st.inFlight, id, prompt);
        forall k ensures Level(Replay(st.metrics, StartCalls(cfg, prompt)), k)
                      == Level(st.metrics, k) + (if k == Active(cfg.modelName) then 1 else 0) {
          ArriveLevels(cfg, prompt, st.metrics, k);
        }
        State(Replay(st.metrics, StartCalls(cfg, prompt)), st.inFlight[id := prompt])
    case Complete(id, o, t) =>
      if id !in st.inFlight then st
      else
        InFlightSize(st.inFlight, id, "");
        var prompt := st.inFlight[id];
        forall k ensures Level(Apply(st.metrics, TerminalCall(cfg, prompt, o, t)), k)
                      == Level(st.metrics, k) - (if k == Active(cfg.modelName) then 1 else 0) {
          CompleteLevels(cfg, prompt, o, t, st.metrics, k);
        }
        State(Apply(st.metrics, TerminalCall(cfg, prompt, o, t)), st.inFlight - {id})
  }

  /** The state after a sequence of events. */
  function Run(cfg: Config, st: State, es: seq<Event>): (r: State)
    ensures Level(r.metrics, Active(cfg.modelName)) - |r.inFlight|
         == Level(st.metrics, Active(cfg.modelName)) - |st.inFlight|
    ensures forall k :: k != Active(cfg.modelName) ==> Level(r.metrics, k) == Level(st.metrics, k)
    decreases |es|
  {
    if es == [] then st else Run(cfg, Step(cfg, st, es[0]), es[1..])
  }

  /** From process start, under any interleaving of requests, the active-request gauge equals
      the number of requests in flight: it is never negative, and it is zero exactly when no
      request is in flight. */
  lemma ActiveGaugeCountsInFlight(cfg: Config, es: seq<Event>)
    ensures Level(Run(cfg, Idle, es).metrics, Active(cfg.modelName)) == |Run(cfg, Idle, es).inFlight|
    ensures Level(Run(cfg, Idle, es).metrics, Active(cfg.modelName)) >= 0
    ensures Level(Run(cfg, Idle, es).metrics, Active(cfg.modelName)) == 0 <==> Run(cfg, Idle, es).inFlight == map[]
    ensures forall k :: Level(Run(cfg, Idle, es).metrics, k) >= 0
  {
    var r := Run(cfg, Idle, es);
    if r.inFlight != map[] {
      var id :| id in r.inFlight;
      assert id in r.inFlight.Keys;
    }
  }

  /** One event keeps the registry well formed. */
  lemma StepKeepsWellFormed(cfg: Config, st: State, e: Event)
    requires WellFormed(st.metrics)
    ensures WellFormed(Step(cfg, st, e).metrics)
  {
    match e
    case Arrive(id, prompt) =>
      if id !in st.inFlight {
        ReplayKeepsWellFormed(st.metrics, StartCalls(cfg, prompt));
      }
    case Complete(id, o, t) =>
      if id in st.inFlight {
        ApplyKeepsWellFormed(st.metrics, TerminalCall(cfg, st.inFlight[id], o, t));
      }
  }

  /** Any sequence of events keeps the registry well formed. */
  lemma {:induction false} RunKeepsWellFormed(cfg: Config, st: State, es: seq<Event>)
    requires WellFormed(st.metrics)
    ensures WellFormed(Run(cfg, st, es).metrics)
    decreases |es|
  {
    if es != [] {
      var next := Step(cfg, st, es[0]);
      assert Run(cfg, st, es) == Run(cfg, next, es[1..]);
      StepKeepsWellFormed(cfg, st, es[0]);
      RunKeepsWellFormed(cfg, next, es[1..]);
    }
  }

  /** A fresh process is well formed, so every reachable registry is. */
  lemma ReachableWellFormed(cfg: Config, es: seq<Event>)
    ensures WellFormed(Run(cfg, Idle, es).metrics)
  {
    EmptyWellFormed();
    RunKeepsWellFormed(cfg, Idle, es);
  }
}
