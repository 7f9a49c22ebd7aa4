/** `AbCrunch::StrategyBestConcurrency`: take a baseline, derive a latency
    threshold from it, then raise the concurrency one level at a time until
    the average response time goes over the threshold or the concurrency
    reaches the number of requests per run. */
module StrategyBestConcurrency {
  import opened Options
  import opened Outcomes
  import opened Settings

  /** `calc_threshold`: the lower of the baseline stretched by the margin
      and the absolute latency ceiling. */
  function CalcThreshold(base: real, margin: real, maxLatency: real): (t: real)
    ensures t <= base * (1.0 + margin) && t <= maxLatency
    ensures t == base * (1.0 + margin) || t == maxLatency
  {
    var stretched := base * (1.0 + margin);
    if stretched < maxLatency then stretched else maxLatency
  }

  /** The fixed inputs of one sweep. */
  datatype Sweep = Sweep(
    page: Options,       // the resolved options; each step changes only `concurrency`
    runs: nat,           // `num_concurrency_runs`
    numRequests: nat,    // `num_requests`
    threshold: real)     // the acceptable average response time

  /** The sample the sweep takes at concurrency level `k`. */
  function Probe(sw: Sweep, sample: Sampler, k: int): Result<AbResult> {
    sample(sw.runs, WithConcurrency(sw.page, k))
  }

  /** Level `k` was sampled successfully and stayed within the threshold. */
  predicate Within(sw: Sweep, sample: Sampler, k: int) {
    Probe(sw, sample, k).Ok? && Probe(sw, sample, k).value.avgResponseTime <= sw.threshold
  }

  /** Level `k` was sampled successfully and went over the threshold. */
  predicate Degraded(sw: Sweep, sample: Sampler, k: int) {
    Probe(sw, sample, k).Ok? && Probe(sw, sample, k).value.avgResponseTime > sw.threshold
  }

  /** The sweep from level `k` on, `last` being the result of level `k - 1`
      (None at the first level). */
  function SweepFrom(sw: Sweep, sample: Sampler, k: nat, last: Option<AbResult>): Result<AbResult>
    requires k >= 1
    decreases sw.numRequests - k
  {
    match Probe(sw, sample, k)
    case Err(e) => Err(e)
    case Ok(res) =>
      if res.avgResponseTime > sw.threshold then
        match last
        case Some(prev) => Ok(prev)
        case None => Err(NoViableConcurrency(res))
      else if k >= sw.numRequests then Ok(res)
      else SweepFrom(sw, sample, k + 1, Some(res))
  }

  /** The sweep `find_best_concurrency(page, baseline)` performs. */
  function SweepOf(page: Options, baseline: AbResult, st: SweepSettings): Sweep {
    Sweep(page, st.concurrencyRuns, st.numRequests,
          CalcThreshold(baseline.avgResponseTime, st.percentMargin, st.maxLatency))
  }

  /** What `find_best_concurrency(page, baseline)` returns. */
  function BestConcurrency(page: Options, baseline: AbResult, sample: Sampler): Result<AbResult> {
    match ResolveSweep(page)
    case Err(e) => Err(e)
    case Ok(st) => SweepFrom(SweepOf(page, baseline, st), sample, 1, None)
  }

  /** `find_best_concurrency`: the sweep, carrying the last result that
      stayed within the threshold. */
  method FindBestConcurrency(page: Options, baseline: AbResult, sample: Sampler)
    returns (r: Result<AbResult>)
    ensures r == BestConcurrency(page, baseline, sample)
  {
    var st :- ResolveSweep(page);
    var sw := SweepOf(page, baseline, st);
    var concurrency: nat := 0;
    var last: Option<AbResult> := None;
    while true
      invariant concurrency < sw.numRequests
      invariant last.None? <==> concurrency == 0
      invariant SweepFrom(sw, sample, concurrency + 1, last) == SweepFrom(sw, sample, 1, None)
      decreases sw.numRequests - concurrency
    {
      concurrency := concurrency + 1;
      var res := sample(sw.runs, WithConcurrency(page, concurrency));
      if res.Err? {
        return res;
      }
      if res.value.avgResponseTime > sw.threshold {
        if last.Some? {
          return Ok(last.value);
        }
        return Err(NoViableConcurrency(res.value));
      }
      if concurrency >= sw.numRequests {
        return res;
      }
      last := Some(res.value);
    }
  }

  /** What `run(page)` returns, given the global defaults. */
  function RunOutcome(defaults: Options, page: Options, sample: Sampler): Result<AbResult> {
    var merged := Merge(defaults, page);
    match ResolveRun(merged)
    case Err(e) => Err(e)
    case Ok((baselineRuns, _)) =>
      match sample(baselineRuns, merged)
      case Err(e) => Err(e)
      case Ok(baseline) => BestConcurrency(merged, baseline, sample)
  }

  /** `run`: merge the page over the defaults, take the baseline with the
      merged options, and sweep from it. */
  method Run(defaults: Options, page: Options, sample: Sampler) returns (r: Result<AbResult>)
    ensures r == RunOutcome(defaults, page, sample)
  {
    var merged := Merge(defaults, page);
    var settings :- ResolveRun(merged);
    var baseline :- sample(settings.0, merged);
    r := FindBestConcurrency(merged, baseline, sample);
  }
}
