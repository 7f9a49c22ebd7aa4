/** Run options: the hash of option name to value that every benchmark run
    is configured by, and the two ways the strategy builds new option hashes
    (merging caller overrides over defaults, and pinning one concurrency
    level). Option hashes are values: building a new one never changes the
    one it was built from. */
module Options {

  /** An option value. Counts and flags are integers, margins and latencies
      may be integers or fractions, anything else (a URL, a host) is text. */
  datatype Value = Int(n: int) | Num(x: real) | Text(s: string)

  type Options = map<string, Value>

  const Concurrency := "concurrency"
  const NumRequests := "num_requests"
  const NumBaselineRuns := "num_baseline_runs"
  const NumConcurrencyRuns := "num_concurrency_runs"
  const PercentMargin := "percent_margin"
  const MaxLatency := "max_latency"

  /** `base.merge(overrides)`: every key of either hash, and the value of
      `overrides` wherever both have the key. */
  function Merge(base: Options, overrides: Options): (m: Options)
    ensures m.Keys == base.Keys + overrides.Keys
    ensures forall key :: key in overrides ==> m[key] == overrides[key]
    ensures forall key :: key in base && key !in overrides ==> m[key] == base[key]
  {
    base + overrides
  }

  /** `page.merge({:concurrency => k})`: the configuration of one sweep step. */
  function WithConcurrency(page: Options, k: int): (c: Options)
    ensures c.Keys == page.Keys + {Concurrency}
    ensures c[Concurrency] == Int(k)
    ensures forall key :: key in page && key != Concurrency ==> c[key] == page[key]
  {
    Merge(page, map[Concurrency := Int(k)])
  }

  /** Merging is associative, so a caller that merges overrides in two rounds
      gets the same hash as one that merges their union once. */
  lemma MergeAssociative(a: Options, b: Options, c: Options)
    ensures Merge(Merge(a, b), c) == Merge(a, Merge(b, c))
  {
  }

  /** Two step configurations built from the same page agree on every key
      except `concurrency`, and differ there exactly when the levels do. */
  lemma StepConfigsDifferOnlyInConcurrency(page: Options, j: int, k: int)
    ensures WithConcurrency(page, j).Keys == WithConcurrency(page, k).Keys
    ensures forall key :: key in page && key != Concurrency ==>
      WithConcurrency(page, j)[key] == WithConcurrency(page, k)[key]
    ensures WithConcurrency(page, j) == WithConcurrency(page, k) <==> j == k
  {
  }
}
