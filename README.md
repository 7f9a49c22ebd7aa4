# abcrunch: the best-concurrency strategy, modelled in Dafny

abcrunch drives the `ab` HTTP benchmarking tool to find the highest request
concurrency a page can take before its response time degrades.
`AbCrunch::StrategyBestConcurrency` does the search. This project models it
and proves what it promises.

- `run(page)` merges the page's options over the global defaults. It takes a
  baseline with `BestRun.of_avg_response_time(num_baseline_runs, merged)`.
  Then it hands the merged page and the baseline to `find_best_concurrency`.
- `calc_threshold(base, margin, max_latency)` is the lower of
  `base * (1 + margin)` and `max_latency`.
- `find_best_concurrency(page, baseline)` samples concurrency 1, 2, 3, …
  Each step uses `num_concurrency_runs` repeats and the page with only
  `concurrency` changed. The sweep stops in one of two ways. If a sample goes
  over the threshold, it returns the previous level's result. If concurrency
  has reached `num_requests`, it returns the current result.

The production Ruby file of the strategy is not part of this model. Its
behaviour is taken from the RSpec examples in
`spec/lib/strategy_best_concurrency_spec.rb`, which pin it down call by call.
Where the examples are silent, the model makes these choices:
- degradation means strictly over the threshold;
- sampler errors propagate unchanged;
- options are validated before any benchmark runs.

Files:

| file | module | contents |
|---|---|---|
| `options.dfy` | `Options` | option hashes (`map<string, Value>`), `merge`, the per-step configuration |
| `outcomes.dfy` | `Outcomes` | `AbResult`, the error kinds, `Result`, the sampler's signature |
| `settings.dfy` | `Settings` | reading and validating the options the strategy needs |
| `strategy.dfy` | `StrategyBestConcurrency` | `CalcThreshold`, the sweep as a specification function and as the loop `FindBestConcurrency`, `Run` |
| `sweep_properties.dfy` | `SweepProperties` | when the sweep stops, what it returns, which samples it depends on |
| `run_properties.dfy` | `RunProperties` | the option merge, the baseline and the hand-off in `run` |
| `scenarios.dfy` | `Scenarios` | the spec file's examples, stated as lemmas |

Modelling choices:
- `BestRun.of_avg_response_time` is a function parameter
  `sample: (nat, Options) -> Result<AbResult>`. Its `Err` is a failed
  benchmark run.
- Response times are `real`, so `100 * 1.2 == 120` holds exactly.
- When level 1 is already over the threshold, there is no earlier result to
  return. The model returns `Err(NoViableConcurrency(first))` and does not
  fall back to the level-1 result. The examples never exercise this case.
- `run` checks every option it needs before the baseline sample.
  `find_best_concurrency` checks its own four options before its first
  sample. A missing option, a count below 1, a negative margin or a
  non-positive latency ceiling gives `ConfigurationError(key)`.
- `run` always returns the same outcome for the same defaults, page and
  sampler. `Run`'s postcondition ties it to the function `RunOutcome`, and
  that function is deterministic.

## Model

| member | source | states |
|---|---|---|
| `Options.Merge` | spec/lib/strategy_best_concurrency_spec.rb:22-29 | the merged hash has the keys of both; a key the page supplies takes the page's value; any other key keeps the default's value |
| `Options.WithConcurrency` | spec/lib/strategy_best_concurrency_spec.rb:63-76 | a step configuration is the page with `concurrency` set to the level and every other key unchanged |
| `Options.MergeAssociative` | spec/lib/strategy_best_concurrency_spec.rb:62 | merging overrides in two rounds equals merging their merge once |
| `Options.StepConfigsDifferOnlyInConcurrency` | spec/lib/strategy_best_concurrency_spec.rb:62-84 | two step configurations agree on every page key except `concurrency`, and are equal exactly when their levels are |
| `Settings.ResolveSweep` | spec/lib/strategy_best_concurrency_spec.rb:96 | the sweep's four options are accepted exactly when each is present and in range; the counts, the margin and the latency ceiling read are the page's own values; an error names one of the four keys |
| `Settings.ResolveRun` | spec/lib/strategy_best_concurrency_spec.rb:15-20 | `run` accepts the merged options exactly when `num_baseline_runs` and the sweep's options are valid; the baseline count is the merged page's `num_baseline_runs` |
| `StrategyBestConcurrency.CalcThreshold` | spec/lib/strategy_best_concurrency_spec.rb:39-50 | the threshold is at most `base * (1 + margin)` and at most `max_latency`, and equals one of them: it is their minimum |
| `StrategyBestConcurrency.FindBestConcurrency` | spec/lib/strategy_best_concurrency_spec.rb:52-122 | the loop that raises concurrency one level at a time and carries the last good result returns exactly the sweep's specified outcome |
| `StrategyBestConcurrency.Run` | spec/lib/strategy_best_concurrency_spec.rb:5-37 | the method that merges, takes the baseline and calls `FindBestConcurrency` returns exactly `RunOutcome`, the function the `RunProperties` lemmas are about |
| `SweepProperties.PassThrough` | spec/lib/strategy_best_concurrency_spec.rb:81-83 | levels that stay within the threshold below `num_requests` are passed through, each one becoming the fallback for the next |
| `SweepProperties.DegradationStop` | spec/lib/strategy_best_concurrency_spec.rb:60-91 | levels 1 to c within the threshold and level c+1 over it give exactly level c's result |
| `SweepProperties.SaturationStop` | spec/lib/strategy_best_concurrency_spec.rb:94-119 | with no degradation up to `num_requests`, the sample at `num_requests` is returned, however close it is to the threshold |
| `SweepProperties.FirstLevelDegrades` | spec/lib/strategy_best_concurrency_spec.rb:61 | degradation already at level 1 yields `NoViableConcurrency` carrying the level-1 result (the chosen policy; no earlier result exists) |
| `SweepProperties.SampleFailureStops` | spec/lib/strategy_best_concurrency_spec.rb:81-84 | a failing sample at a reached level ends the sweep with that sample's error |
| `SweepProperties.SuccessSound` | spec/lib/strategy_best_concurrency_spec.rb:61 | every returned result is the sample of a reached level c; all levels 1..c were within the threshold; c reached `num_requests` or level c+1 went over |
| `SweepProperties.FailureSound` | spec/lib/strategy_best_concurrency_spec.rb:81-84 | the sweep fails only when level 1 is over the threshold, or with the error of a sample at a reached level after within-threshold levels |
| `SweepProperties.SweepFrame` | spec/lib/strategy_best_concurrency_spec.rb:110-114 | the sweep consults only `num_concurrency_runs` samples of the page with `concurrency` in 1..`num_requests`: samplers that agree there give the same outcome |
| `SweepProperties.ResultKeepsPageOptions` | spec/lib/strategy_best_concurrency_spec.rb:86-88 | with a sampler whose results carry their options, the returned result's options are the input page's with `concurrency` set to some level 1..`num_requests` |
| `SweepProperties.SweepUsesPageOptions` | spec/lib/strategy_best_concurrency_spec.rb:86 | `find_best_concurrency(page, baseline)` sweeps the page with its own `num_concurrency_runs` and `num_requests`, against `calc_threshold` of the baseline's average and the page's margin and latency ceiling |
| `SweepProperties.BaselineWithinThreshold` | spec/lib/strategy_best_concurrency_spec.rb:64-70 | a result no slower than the baseline, whose own time is under the latency ceiling, is never a degradation |
| `RunProperties.RunSweepsFromMergedBaseline` | spec/lib/strategy_best_concurrency_spec.rb:15-36 | the baseline is sampled with the merged page and the page's `num_baseline_runs` (the default's when the page has none), and `run` returns `find_best_concurrency(merged, baseline)` |
| `RunProperties.RunPropagatesBaselineFailure` | spec/lib/strategy_best_concurrency_spec.rb:17 | a failing baseline sample fails `run` with the same error |
| `RunProperties.RunRejectsBadOptions` | spec/lib/strategy_best_concurrency_spec.rb:16-19 | invalid merged options give a configuration error, whatever the sampler would do |
| `RunProperties.RunFrame` | spec/lib/strategy_best_concurrency_spec.rb:15-36 | `run` consults the sampler only for the baseline and for levels 1..`num_requests` |
| `Scenarios.ThresholdExamples` | spec/lib/strategy_best_concurrency_spec.rb:42-47 | `calc_threshold(100, 0.2, 200) == 120` and `calc_threshold(190, 0.2, 200) == 200` |
| `Scenarios.Stubbed` | spec/lib/strategy_best_concurrency_spec.rb:81-84 | the stubbed sampler answers 3 repeats of each listed step configuration with a result carrying that configuration and its average |
| `Scenarios.StubbedProbe` | spec/lib/strategy_best_concurrency_spec.rb:110-112 | the sweep's probe at a listed level gets the stubbed result |
| `Scenarios.DegradingSweep` | spec/lib/strategy_best_concurrency_spec.rb:74-84 | with averages baseline, baseline, 90.3, 9999.3 at levels 1-4, the sweep returns the level-3 result |
| `Scenarios.DegradingScenario` | spec/lib/strategy_best_concurrency_spec.rb:60-91 | for the merged example page, the result has concurrency 3 and average 90.3 |
| `Scenarios.SaturatingSweep` | spec/lib/strategy_best_concurrency_spec.rb:105-112 | with 3 requests and averages baseline, baseline, 90.3, the sweep returns the level-3 result without a level-4 stub |
| `Scenarios.SaturatingScenario` | spec/lib/strategy_best_concurrency_spec.rb:94-119 | for the merged example page with `num_requests` 3, the result has concurrency 3 and average 90.3 |
| `Scenarios.OverrideScenario` | spec/lib/strategy_best_concurrency_spec.rb:22-29 | a page overriding `num_baseline_runs` with 17 has its baseline taken 17 times with the defaults merged with the test page and then the override, and `run` sweeps from that baseline with those options |

## Left out

- `BestRun.of_avg_response_time` itself is not modelled: the `ab` process, parsing its output, and picking the best of N runs. The model uses it only through the sampler parameter.
- `AbCrunch::Logger.log` is side-effect only and stubbed in every example.
- How `AbCrunch::Config.best_concurrency_options` is loaded is not modelled. The defaults are a given option hash.
- The `spec_helper` fixtures (`new_page`, `new_result`) are not modelled. The scenario lemmas are stated for any defaults, test page and baseline that put the threshold where the examples need it.
- rr mocks, stubs, proxies and object identity of cloned results are left out. Results are plain values compared by value.
- IEEE floating point is not modelled. Response times, margins and latencies are exact `real`s.
- The sweep always starts at concurrency 1. The examples start there; a configurable starting level is not modelled.
- `Scenarios.DegradingScenario`, `Scenarios.SaturatingScenario`: the fixture values of the default options and of `new_result` are not visible. The lemmas take as hypotheses that the baseline average lies between 0 and `max_latency`, and where 90.3 and 9999.3 fall relative to the threshold.
- The order of option checks in `Settings.ResolveSweep` (runs, requests, margin, latency) is the model's choice. Only which key is reported when several are wrong depends on it.
- The examples never name the margin and latency-ceiling options. The model calls them `percent_margin` and `max_latency`.
