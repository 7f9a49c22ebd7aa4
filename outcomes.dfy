/** What a benchmark produces, how the strategy fails, and the interface of
    the best-of-N sampler the strategy drives. */
module Outcomes {
  import opened Options

  /** One `ab` result: the options it was run with and its average response
      time in milliseconds. */
  datatype AbResult = AbResult(abOptions: Options, avgResponseTime: real)

  datatype Error =
    | ConfigurationError(key: string)          // a required option is missing or out of range
    | BenchmarkExecutionError(config: Options) // the benchmark could not be run with this configuration
    | NoViableConcurrency(first: AbResult)     // concurrency 1 is already over the threshold

  datatype Option<+T> = None | Some(value: T)

  datatype Result<+T> = Ok(value: T) | Err(error: Error) {
    predicate IsFailure() { Err? }

    function PropagateFailure<U>(): Result<U>
      requires Err?
    {
      Err(error)
    }

    function Extract(): T
      requires Ok?
    {
      value
    }
  }

  /** `BestRun.of_avg_response_time(n, options)`: runs the benchmark `n` times
      with `options` and yields the run with the lowest average response
      time, or the error of a run that failed. The strategy only ever sees
      it through this signature. */
  type Sampler = (nat, Options) -> Result<AbResult>

  /** A sampler whose results carry the options they were run with, as the
      real benchmark's results do. */
  ghost predicate EchoesOptions(sample: Sampler) {
    forall n: nat, options: Options ::
      sample(n, options).Ok? ==> sample(n, options).value.abOptions == options
  }
}
