/**
 A registry of labelled metric series: monotonic counters, gauges and histograms.

 A series is identified by a key `K` (in this project: a metric name together with its
 label set). A series that has never been touched reads as zero, or as "no observations"
 for a histogram; this is how lazy creation of a series on first use appears here.
 A histogram is kept as the sequence of its observations; its count and sum are
 functions of that sequence. Bucket boundaries are not modelled.
 */
module Registry {

  datatype Store<K> = Store(counters: map<K, int>, gauges: map<K, int>, histograms: map<K, seq<real>>)

  /** The registry as it is at process start: every series reads as zero / empty. */
  function Empty<K(!new)>(): (r: Store<K>)
    ensures forall k :: Count(r, k) == 0
    ensures forall k :: Level(r, k) == 0
    ensures forall k :: Samples(r, k) == []
  {
    Store(map[], map[], map[])
  }

  /** Current value of counter `k`; zero before its first increment. */
  function Count<K>(s: Store<K>, k: K): int
  {
    if k in s.counters then s.counters[k] else 0
  }

  /** Current value of gauge `k`; zero before its first change. */
  function Level<K>(s: Store<K>, k: K): int
  {
    if k in s.gauges then s.gauges[k] else 0
  }

  /** Observations recorded so far in histogram `k`, oldest first. */
  function Samples<K>(s: Store<K>, k: K): seq<real>
  {
    if k in s.histograms then s.histograms[k] else []
  }

  /** The `_sum` of a histogram: the total of its observations. */
  function Total(xs: seq<real>): real
  {
    if xs == [] then 0.0 else xs[0] + Total(xs[1..])
  }

  /** `a` and `b` hold the same value for every counter outside `ks`. */
  ghost predicate CountersAgreeExcept<K(!new)>(a: Store<K>, b: Store<K>, ks: set<K>)
  {
    forall k :: k !in ks ==> Count(a, k) == Count(b, k)
  }

  /** `a` and `b` hold the same value for every gauge outside `ks`. */
  ghost predicate GaugesAgreeExcept<K(!new)>(a: Store<K>, b: Store<K>, ks: set<K>)
  {
    forall k :: k !in ks ==> Level(a, k) == Level(b, k)
  }

  /** `a` and `b` hold the same observations for every histogram outside `ks`. */
  ghost predicate HistogramsAgreeExcept<K(!new)>(a: Store<K>, b: Store<K>, ks: set<K>)
  {
    forall k :: k !in ks ==> Samples(a, k) == Samples(b, k)
  }

  /** One recording call that touches several series, each at most once: the counters in
      `incs` go up by one, each gauge in `shifts` moves by its delta, each histogram in `obs`
      gains its observation. Because no series is touched twice, the order of the individual
      updates does not matter. */
  function Update<K(!new)>(s: Store<K>, incs: set<K>, shifts: map<K, int>, obs: map<K, real>): (r: Store<K>)
    ensures forall k :: Count(r, k) == if k in incs then Count(s, k) + 1 else Count(s, k)
    ensures forall k :: Level(r, k) == if k in shifts then Level(s, k) + shifts[k] else Level(s, k)
    ensures forall k :: Samples(r, k) == if k in obs then Samples(s, k) + [obs[k]] else Samples(s, k)
    ensures r.counters.Keys == s.counters.Keys + incs
    ensures r.gauges.Keys == s.gauges.Keys + shifts.Keys
    ensures r.histograms.Keys == s.histograms.Keys + obs.Keys
  {
    Store(
      map k | k in s.counters.Keys + incs :: if k in incs then Count(s, k) + 1 else Count(s, k),
      map k | k in s.gauges.Keys + shifts.Keys :: if k in shifts then Level(s, k) + shifts[k] else Level(s, k),
      map k | k in s.histograms.Keys + obs.Keys :: if k in obs then Samples(s, k) + [obs[k]] else Samples(s, k))
  }

  /** Appending an observation adds it to the running sum. */
  lemma {:induction false} TotalAppend(xs: seq<real>, v: real)
    ensures Total(xs + [v]) == Total(xs) + v
  {
    if xs == [] {
      assert [] + [v] == [v];
    } else {
      assert (xs + [v])[1..] == xs[1..] + [v];
      TotalAppend(xs[1..], v);
    }
  }

  /** One observation moves a histogram's `_count` by one and its `_sum` by the observed value. */
  lemma UpdateCountAndSum<K(!new)>(s: Store<K>, incs: set<K>, shifts: map<K, int>, obs: map<K, real>, k: K)
    requires k in obs
    ensures |Samples(Update(s, incs, shifts, obs), k)| == |Samples(s, k)| + 1
    ensures Total(Samples(Update(s, incs, shifts, obs), k)) == Total(Samples(s, k)) + obs[k]
  {
    TotalAppend(Samples(s, k), obs[k]);
  }
}
