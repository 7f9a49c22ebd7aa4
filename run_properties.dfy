/** What `run(page)` promises: which options the baseline is taken with, that
    the sweep is handed the merged page and the baseline, and that errors
    reach the caller unchanged. */
module RunProperties {
  import opened Options
  import opened Outcomes
  import opened Settings
  import opened StrategyBestConcurrency
  import opened SweepProperties

  /** The baseline is taken `num_baseline_runs` times with the defaults merged
      with the page, the count coming from the page when the page sets it and
      from the defaults otherwise; the merged page and that baseline are then
      handed to `find_best_concurrency`, whose outcome `run` returns. */
  lemma RunSweepsFromMergedBaseline(defaults: Options, page: Options, sample: Sampler, n: int, baseline: AbResult)
    requires NumBaselineRuns in page ==> page[NumBaselineRuns] == Int(n)
    requires NumBaselineRuns !in page ==> NumBaselineRuns in defaults && defaults[NumBaselineRuns] == Int(n)
    requires n >= 1 && ResolveSweep(Merge(defaults, page)).Ok?
    requires sample(n, Merge(defaults, page)) == Ok(baseline)
    ensures RunOutcome(defaults, page, sample) == BestConcurrency(Merge(defaults, page), baseline, sample)
  {
  }

  /** A failed baseline sample fails `run` with the same error, before any
      concurrency level is tried. */
  lemma RunPropagatesBaselineFailure(defaults: Options, page: Options, sample: Sampler, n: int)
    requires ResolveRun(Merge(defaults, page)).Ok? && ResolveRun(Merge(defaults, page)).value.0 == n
    requires sample(n, Merge(defaults, page)).Err?
    ensures RunOutcome(defaults, page, sample) == Err(sample(n, Merge(defaults, page)).error)
  {
  }

  /** A missing or out-of-range option in the merged page is reported as a
      configuration error, whatever the sampler would do: no benchmark is run. */
  lemma RunRejectsBadOptions(defaults: Options, page: Options, s1: Sampler, s2: Sampler)
    requires ResolveRun(Merge(defaults, page)).Err?
    ensures RunOutcome(defaults, page, s1) == RunOutcome(defaults, page, s2)
    ensures RunOutcome(defaults, page, s1).Err? && RunOutcome(defaults, page, s1).error.ConfigurationError?
  {
  }

  /** `run` consults the sampler only for the baseline and for concurrency
      levels 1 to `num_requests`: two samplers that agree on those calls give
      the same outcome. */
  lemma RunFrame(defaults: Options, page: Options, s1: Sampler, s2: Sampler, n: nat, st: SweepSettings)
    requires ResolveRun(Merge(defaults, page)) == Ok((n, st))
    requires s1(n, Merge(defaults, page)) == s2(n, Merge(defaults, page))
    requires forall j :: 1 <= j <= st.numRequests ==>
      s1(st.concurrencyRuns, WithConcurrency(Merge(defaults, page), j)) ==
      s2(st.concurrencyRuns, WithConcurrency(Merge(defaults, page), j))
    ensures RunOutcome(defaults, page, s1) == RunOutcome(defaults, page, s2)
  {
    var merged := Merge(defaults, page);
    match s1(n, merged)
    case Err(_) =>
    case Ok(baseline) =>
      var sw := SweepOf(merged, baseline, st);
      assert ResolveSweep(merged) == Ok(st);
      SweepFrame(sw, s1, s2);
  }
}
