/** What the concurrency sweep promises: when it stops, what it returns,
    and which samples it can depend on. */
module SweepProperties {
  import opened Options
  import opened Outcomes
  import opened Settings
  import opened StrategyBestConcurrency

  /** Every level from 1 to `c` stayed within the threshold. */
  predicate WithinUpTo(sw: Sweep, sample: Sampler, c: int) {
    forall j :: 1 <= j <= c ==> Within(sw, sample, j)
  }

  /** The `last` argument the sweep carries into level `k`. */
  function Prior(sw: Sweep, sample: Sampler, k: int): Option<AbResult> {
    if k > 1 && Probe(sw, sample, k - 1).Ok? then Some(Probe(sw, sample, k - 1).value) else None
  }

  /** A level may be sampled only if it is the first or does not exceed
      the number of requests. */
  predicate Reachable(sw: Sweep, k: int) {
    1 <= k && (k <= sw.numRequests || k == 1)
  }

  /** Levels `k` to `m - 1` all within the threshold and below the number of
      requests: the sweep passes through them to level `m`. */
  lemma {:induction false} PassThrough(sw: Sweep, sample: Sampler, k: nat, m: nat)
    requires 1 <= k <= m <= sw.numRequests
    requires forall j :: k <= j < m ==> Within(sw, sample, j)
    ensures SweepFrom(sw, sample, k, Prior(sw, sample, k)) == SweepFrom(sw, sample, m, Prior(sw, sample, m))
    decreases m - k
  {
    if k < m {
      assert Within(sw, sample, k);
      assert Prior(sw, sample, k + 1) == Some(Probe(sw, sample, k).value);
      PassThrough(sw, sample, k + 1, m);
    }
  }

  /** Degradation stop: levels 1 to `c` within the threshold and level `c + 1`
      over it give exactly the level-`c` result. */
  lemma DegradationStop(sw: Sweep, sample: Sampler, c: nat)
    requires 1 <= c < sw.numRequests
    requires WithinUpTo(sw, sample, c)
    requires Degraded(sw, sample, c + 1)
    ensures SweepFrom(sw, sample, 1, None) == Probe(sw, sample, c)
  {
    assert Within(sw, sample, c);
    PassThrough(sw, sample, 1, c + 1);
  }

  /** Saturation stop: with no degradation up to `num_requests`, the sample at
      `num_requests` is returned, however close it is to the threshold. */
  lemma SaturationStop(sw: Sweep, sample: Sampler)
    requires sw.numRequests >= 1
    requires WithinUpTo(sw, sample, sw.numRequests)
    ensures SweepFrom(sw, sample, 1, None) == Probe(sw, sample, sw.numRequests)
  {
    assert Within(sw, sample, sw.numRequests);
    PassThrough(sw, sample, 1, sw.numRequests);
  }

  /** Degradation already at level 1: there is no earlier result to fall
      back on, and the sweep reports that. */
  lemma FirstLevelDegrades(sw: Sweep, sample: Sampler)
    requires Degraded(sw, sample, 1)
    ensures SweepFrom(sw, sample, 1, None) == Err(NoViableConcurrency(Probe(sw, sample, 1).value))
  {
  }

  /** A failing sample ends the sweep with that sample's error. */
  lemma SampleFailureStops(sw: Sweep, sample: Sampler, c: nat)
    requires Reachable(sw, c)
    requires WithinUpTo(sw, sample, c - 1)
    requires Probe(sw, sample, c).Err?
    ensures SweepFrom(sw, sample, 1, None) == Err(Probe(sw, sample, c).error)
  {
    if c > 1 {
      PassThrough(sw, sample, 1, c);
    }
  }

  lemma {:induction false} SuccessSoundFrom(sw: Sweep, sample: Sampler, k: nat, r: AbResult)
    requires Reachable(sw, k)
    requires WithinUpTo(sw, sample, k - 1)
    requires SweepFrom(sw, sample, k, Prior(sw, sample, k)) == Ok(r)
    ensures exists c ::
      && Reachable(sw, c) && WithinUpTo(sw, sample, c) && Probe(sw, sample, c) == Ok(r)
      && (c >= sw.numRequests || Degraded(sw, sample, c + 1))
    decreases sw.numRequests - k
  {
    var p := Probe(sw, sample, k);
    assert p.Ok?;
    if p.value.avgResponseTime > sw.threshold {
      var c := k - 1;
      assert Prior(sw, sample, k) == Some(r);
      assert Reachable(sw, c) && WithinUpTo(sw, sample, c) && Probe(sw, sample, c) == Ok(r) && Degraded(sw, sample, c + 1);
    } else if k >= sw.numRequests {
      assert Reachable(sw, k) && WithinUpTo(sw, sample, k) && Probe(sw, sample, k) == Ok(r);
    } else {
      assert Prior(sw, sample, k + 1) == Some(p.value);
      SuccessSoundFrom(sw, sample, k + 1, r);
    }
  }

  /** Every result the sweep returns is the sample of some level `c` that was
      reached, every level up to `c` stayed within the threshold, and either
      `c` reached `num_requests` or level `c + 1` went over: `c` is the highest
      level before the response time degrades. */
  lemma SuccessSound(sw: Sweep, sample: Sampler, r: AbResult)
    requires SweepFrom(sw, sample, 1, None) == Ok(r)
    ensures exists c ::
      && Reachable(sw, c) && WithinUpTo(sw, sample, c) && Probe(sw, sample, c) == Ok(r)
      && (c >= sw.numRequests || Degraded(sw, sample, c + 1))
  {
    SuccessSoundFrom(sw, sample, 1, r);
  }

  lemma {:induction false} FailureSoundFrom(sw: Sweep, sample: Sampler, k: nat, e: Error)
    requires Reachable(sw, k)
    requires WithinUpTo(sw, sample, k - 1)
    requires SweepFrom(sw, sample, k, Prior(sw, sample, k)) == Err(e)
    ensures (Degraded(sw, sample, 1) && e == NoViableConcurrency(Probe(sw, sample, 1).value)) ||
      exists c :: Reachable(sw, c) && WithinUpTo(sw, sample, c - 1) && Probe(sw, sample, c) == Err(e)
    decreases sw.numRequests - k
  {
    if k > 1 {
      assert Within(sw, sample, k - 1);
    }
    var p := Probe(sw, sample, k);
    if p.Err? {
      assert Reachable(sw, k) && WithinUpTo(sw, sample, k - 1) && Probe(sw, sample, k) == Err(e);
    } else if p.value.avgResponseTime > sw.threshold {
      // only the first level has no earlier result to fall back on
    } else {
      assert k < sw.numRequests;
      assert Prior(sw, sample, k + 1) == Some(p.value);
      FailureSoundFrom(sw, sample, k + 1, e);
    }
  }

  /** The sweep fails only when level 1 is already over the threshold, or
      with the error of a sample it took at a reachable level. */
  lemma FailureSound(sw: Sweep, sample: Sampler, e: Error)
    requires SweepFrom(sw, sample, 1, None) == Err(e)
    ensures (Degraded(sw, sample, 1) && e == NoViableConcurrency(Probe(sw, sample, 1).value)) ||
      exists c :: Reachable(sw, c) && WithinUpTo(sw, sample, c - 1) && Probe(sw, sample, c) == Err(e)
  {
    FailureSoundFrom(sw, sample, 1, e);
  }

  lemma {:induction false} SweepFrameFrom(sw: Sweep, s1: Sampler, s2: Sampler, k: nat, last: Option<AbResult>)
    requires Reachable(sw, k)
    requires forall j :: Reachable(sw, j) ==> Probe(sw, s1, j) == Probe(sw, s2, j)
    ensures SweepFrom(sw, s1, k, last) == SweepFrom(sw, s2, k, last)
    decreases sw.numRequests - k
  {
    var p := Probe(sw, s1, k);
    if p.Ok? && p.value.avgResponseTime <= sw.threshold && k < sw.numRequests {
      SweepFrameFrom(sw, s1, s2, k + 1, Some(p.value));
    }
  }

  /** The sweep never samples a concurrency above `num_requests`: two samplers
      that agree on every level it may reach, with `num_concurrency_runs`
      repeats and the page's options with only `concurrency` changed, give
      the same outcome, whatever they do elsewhere. */
  lemma SweepFrame(sw: Sweep, s1: Sampler, s2: Sampler)
    requires forall j :: Reachable(sw, j) ==>
      s1(sw.runs, WithConcurrency(sw.page, j)) == s2(sw.runs, WithConcurrency(sw.page, j))
    ensures SweepFrom(sw, s1, 1, None) == SweepFrom(sw, s2, 1, None)
  {
    SweepFrameFrom(sw, s1, s2, 1, None);
  }

  /** `find_best_concurrency(page, baseline)` sweeps the page itself with the
      page's `num_concurrency_runs` and `num_requests`, against the threshold
      `calc_threshold` gives for the baseline's average response time and the
      page's `percent_margin` and `max_latency`. */
  lemma SweepUsesPageOptions(page: Options, baseline: AbResult, sample: Sampler,
                             runs: nat, n: nat, margin: real, ceiling: real)
    requires ResolveSweep(page).Ok?
    requires page[NumConcurrencyRuns] == Int(runs) && page[NumRequests] == Int(n)
    requires NumberOf(page[PercentMargin]) == Some(margin) && NumberOf(page[MaxLatency]) == Some(ceiling)
    ensures BestConcurrency(page, baseline, sample)
         == SweepFrom(Sweep(page, runs, n, CalcThreshold(baseline.avgResponseTime, margin, ceiling)), sample, 1, None)
  {
  }

  /** With a sampler whose results carry their own options, the result of
      `find_best_concurrency` was run with the input page's options and only
      `concurrency` set, to a level between 1 and `num_requests`. */
  lemma ResultKeepsPageOptions(page: Options, baseline: AbResult, sample: Sampler, r: AbResult)
    requires EchoesOptions(sample)
    requires BestConcurrency(page, baseline, sample) == Ok(r)
    ensures NumRequests in page && page[NumRequests].Int?
    ensures exists c :: 1 <= c <= page[NumRequests].n && r.abOptions == WithConcurrency(page, c)
  {
    var st := ResolveSweep(page).value;
    var sw := SweepOf(page, baseline, st);
    SuccessSound(sw, sample, r);
    var c :| Reachable(sw, c) && WithinUpTo(sw, sample, c) && Probe(sw, sample, c) == Ok(r);
    assert r.abOptions == WithConcurrency(page, c);
  }

  /** A result no slower than the baseline is never a degradation, provided
      the baseline itself is under the latency ceiling. */
  lemma BaselineWithinThreshold(base: real, margin: real, maxLatency: real, t: real)
    requires 0.0 <= base <= maxLatency && margin >= 0.0
    requires t <= base
    ensures t <= CalcThreshold(base, margin, maxLatency)
  {
  }
}
