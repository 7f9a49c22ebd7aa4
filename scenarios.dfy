/** The worked examples of `calc_threshold` and `find_best_concurrency`,
    stated for any defaults, test page and baseline result that make the
    threshold fall where the examples need it. */
module Scenarios {
  import opened Options
  import opened Outcomes
  import opened Settings
  import opened StrategyBestConcurrency
  import opened SweepProperties
  import opened RunProperties

  lemma ThresholdExamples()
    ensures CalcThreshold(100.0, 0.2, 200.0) == 120.0
    ensures CalcThreshold(190.0, 0.2, 200.0) == 200.0
  {
  }

  /** A stubbed `BestRun.of_avg_response_time`: for 3 repeats and the input
      page with `concurrency` set to a level `k` listed in `avg`, a result
      carrying those options and `avg[k]`; any other call fails, as an
      unstubbed call does. */
  function Stubbed(inputPage: Options, avg: map<int, real>): (s: Sampler)
    ensures forall k :: k in avg ==>
      s(3, WithConcurrency(inputPage, k)) == Ok(AbResult(WithConcurrency(inputPage, k), avg[k]))
  {
    (n: nat, cfg: Options) =>
      if n == 3 && Concurrency in cfg && cfg[Concurrency].Int? && cfg[Concurrency].n in avg &&
         cfg == WithConcurrency(inputPage, cfg[Concurrency].n)
      then Ok(AbResult(cfg, avg[cfg[Concurrency].n]))
      else Err(BenchmarkExecutionError(cfg))
  }

  /** The threshold `find_best_concurrency(inputPage, fake)` computes. */
  function ThresholdFor(inputPage: Options, fake: AbResult): real
    requires ResolveSweep(inputPage).Ok?
  {
    var st := ResolveSweep(inputPage).value;
    CalcThreshold(fake.avgResponseTime, st.percentMargin, st.maxLatency)
  }

  /** The stub answers each listed level of a 3-repeat sweep over its page. */
  lemma {:induction false} StubbedProbe(sw: Sweep, avg: map<int, real>, k: int)
    requires sw.runs == 3 && k in avg
    ensures Probe(sw, Stubbed(sw.page, avg), k) == Ok(AbResult(WithConcurrency(sw.page, k), avg[k]))
  {
  }

  /** The stubbed averages of the degrading example, by level. */
  function DegradingAverages(fakeAvg: real): map<int, real> {
    map[1 := fakeAvg, 2 := fakeAvg, 3 := 90.3, 4 := 9999.3]
  }

  /** The stubbed averages of the saturating example, by level: nothing
      for level 4. */
  function SaturatingAverages(fakeAvg: real): map<int, real> {
    map[1 := fakeAvg, 2 := fakeAvg, 3 := 90.3]
  }

  lemma DegradingSweep(sw: Sweep, fakeAvg: real)
    requires sw.runs == 3 && sw.numRequests > 3
    requires fakeAvg <= sw.threshold && 90.3 <= sw.threshold < 9999.3
    ensures SweepFrom(sw, Stubbed(sw.page, DegradingAverages(fakeAvg)), 1, None)
         == Ok(AbResult(WithConcurrency(sw.page, 3), 90.3))
  {
    var avg := DegradingAverages(fakeAvg);
    var stubs := Stubbed(sw.page, avg);
    StubbedProbe(sw, avg, 1);
    StubbedProbe(sw, avg, 2);
    StubbedProbe(sw, avg, 3);
    StubbedProbe(sw, avg, 4);
    forall j | 1 <= j <= 3
      ensures Within(sw, stubs, j)
    {
      assert j == 1 || j == 2 || j == 3;
    }
    DegradationStop(sw, stubs, 3);
  }

  lemma SaturatingSweep(sw: Sweep, fakeAvg: real)
    requires sw.runs == 3 && sw.numRequests == 3
    requires fakeAvg <= sw.threshold && 90.3 <= sw.threshold
    ensures SweepFrom(sw, Stubbed(sw.page, SaturatingAverages(fakeAvg)), 1, None)
         == Ok(AbResult(WithConcurrency(sw.page, 3), 90.3))
  {
    var avg := SaturatingAverages(fakeAvg);
    var stubs := Stubbed(sw.page, avg);
    StubbedProbe(sw, avg, 1);
    StubbedProbe(sw, avg, 2);
    StubbedProbe(sw, avg, 3);
    forall j | 1 <= j <= 3
      ensures Within(sw, stubs, j)
    {
      assert j == 1 || j == 2 || j == 3;
    }
    SaturationStop(sw, stubs);
  }

  /** When performance degrades: the defaults merged with a test page of 50
      requests and then with 3 repeats per level; levels 1 and 2 as fast as
      the baseline, level 3 at 90.3 and level 4 at 9999.3. The level-3
      result is returned: concurrency 3, average 90.3. */
  lemma DegradingScenario(defaults: Options, testPage: Options, inputPage: Options, fake: AbResult)
    requires NumRequests in testPage && testPage[NumRequests] == Int(50)
    requires inputPage == Merge(Merge(defaults, testPage), map[NumConcurrencyRuns := Int(3)])
    requires ResolveSweep(inputPage).Ok?
    requires 0.0 <= fake.avgResponseTime <= ResolveSweep(inputPage).value.maxLatency
    requires 90.3 <= ThresholdFor(inputPage, fake) < 9999.3
    ensures BestConcurrency(inputPage, fake, Stubbed(inputPage, DegradingAverages(fake.avgResponseTime)))
         == Ok(AbResult(WithConcurrency(inputPage, 3), 90.3))
  {
    var st := ResolveSweep(inputPage).value;
    assert inputPage[NumConcurrencyRuns] == Int(3);
    assert inputPage[NumRequests] == Int(50);
    BaselineWithinThreshold(fake.avgResponseTime, st.percentMargin, st.maxLatency, fake.avgResponseTime);
    DegradingSweep(SweepOf(inputPage, fake, st), fake.avgResponseTime);
  }

  /** When concurrency reaches the number of requests first: the defaults
      merged with a test page and then with 3 repeats and 3 requests; levels
      1 to 3 within the threshold and no stub for level 4. The level-3 result
      is returned, so level 4 was never sampled. */
  lemma SaturatingScenario(defaults: Options, testPage: Options, inputPage: Options, fake: AbResult)
    requires inputPage == Merge(Merge(defaults, testPage), map[NumConcurrencyRuns := Int(3), NumRequests := Int(3)])
    requires ResolveSweep(inputPage).Ok?
    requires 0.0 <= fake.avgResponseTime <= ResolveSweep(inputPage).value.maxLatency
    requires 90.3 <= ThresholdFor(inputPage, fake)
    ensures BestConcurrency(inputPage, fake, Stubbed(inputPage, SaturatingAverages(fake.avgResponseTime)))
         == Ok(AbResult(WithConcurrency(inputPage, 3), 90.3))
  {
    var st := ResolveSweep(inputPage).value;
    assert inputPage[NumConcurrencyRuns] == Int(3);
    assert inputPage[NumRequests] == Int(3);
    BaselineWithinThreshold(fake.avgResponseTime, st.percentMargin, st.maxLatency, fake.avgResponseTime);
    SaturatingSweep(SweepOf(inputPage, fake, st), fake.avgResponseTime);
  }

  /** Page option overrides: a page that sets `num_baseline_runs` to 17 on top
      of a test page has its baseline taken 17 times, with the defaults merged
      first with the test page and then with the override, and that baseline
      goes to `find_best_concurrency` with the same merged options. */
  lemma OverrideScenario(defaults: Options, testPage: Options, sample: Sampler, baseline: AbResult)
    requires ResolveSweep(Merge(Merge(defaults, testPage), map[NumBaselineRuns := Int(17)])).Ok?
    requires sample(17, Merge(Merge(defaults, testPage), map[NumBaselineRuns := Int(17)])) == Ok(baseline)
    ensures
      var expectedPage := Merge(Merge(defaults, testPage), map[NumBaselineRuns := Int(17)]);
      RunOutcome(defaults, Merge(testPage, map[NumBaselineRuns := Int(17)]), sample)
        == BestConcurrency(expectedPage, baseline, sample)
  {
    var inPage := Merge(testPage, map[NumBaselineRuns := Int(17)]);
    MergeAssociative(defaults, testPage, map[NumBaselineRuns := Int(17)]);
    RunSweepsFromMergedBaseline(defaults, inPage, sample, 17, baseline);
  }
}
