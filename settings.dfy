/** Reading the options the strategy needs out of a merged option hash. A
    missing or out-of-range option is a configuration error naming the key,
    reported before any benchmark is run. */
module Settings {
  import opened Options
  import opened Outcomes

  /** A repeat count or request count: an integer of at least 1. */
  function Count(options: Options, key: string): Result<nat> {
    if key in options && options[key].Int? && options[key].n >= 1 then Ok(options[key].n)
    else Err(ConfigurationError(key))
  }

  /** The numeric value of an integer or fractional option. */
  function NumberOf(v: Value): Option<real> {
    match v
    case Int(n) => Some(n as real)
    case Num(x) => Some(x)
    case Text(_) => None
  }

  /** A numeric option bounded below by `low`, inclusively or strictly. */
  function Number(options: Options, key: string, low: real, strict: bool): Result<real> {
    if key !in options then Err(ConfigurationError(key))
    else match NumberOf(options[key])
      case None => Err(ConfigurationError(key))
      case Some(x) =>
        if (strict && x > low) || (!strict && x >= low) then Ok(x) else Err(ConfigurationError(key))
  }

  /** The options the concurrency sweep reads. */
  datatype SweepSettings = SweepSettings(
    concurrencyRuns: nat,  // repeats per concurrency level
    numRequests: nat,      // requests per run, and the highest level worth trying
    percentMargin: real,   // allowed slowdown over the baseline, as a fraction
    maxLatency: real)      // absolute ceiling on the average response time

  /** Reads the sweep's options, checking them in the order listed. */
  function ResolveSweep(page: Options): (r: Result<SweepSettings>)
    ensures r.Ok? <==>
      Count(page, NumConcurrencyRuns).Ok? && Count(page, NumRequests).Ok? &&
      Number(page, PercentMargin, 0.0, false).Ok? && Number(page, MaxLatency, 0.0, true).Ok?
    ensures r.Ok? ==>
      r.value.concurrencyRuns >= 1 && r.value.numRequests >= 1 &&
      r.value.percentMargin >= 0.0 && r.value.maxLatency > 0.0 &&
      page[NumConcurrencyRuns] == Int(r.value.concurrencyRuns) &&
      page[NumRequests] == Int(r.value.numRequests) &&
      NumberOf(page[PercentMargin]) == Some(r.value.percentMargin) &&
      NumberOf(page[MaxLatency]) == Some(r.value.maxLatency)
    ensures r.Err? ==>
      r.error.ConfigurationError? &&
      r.error.key in {NumConcurrencyRuns, NumRequests, PercentMargin, MaxLatency}
  {
    var runs :- Count(page, NumConcurrencyRuns);
    var requests :- Count(page, NumRequests);
    var margin :- Number(page, PercentMargin, 0.0, false);
    var latency :- Number(page, MaxLatency, 0.0, true);
    Ok(SweepSettings(runs, requests, margin, latency))
  }

  /** Everything `run` reads: the baseline repeat count and the sweep's
      options. */
  function ResolveRun(page: Options): (r: Result<(nat, SweepSettings)>)
    ensures r.Ok? <==> Count(page, NumBaselineRuns).Ok? && ResolveSweep(page).Ok?
    ensures r.Ok? ==>
      r.value.0 >= 1 && page[NumBaselineRuns] == Int(r.value.0) &&
      r.value.1 == ResolveSweep(page).value
    ensures r.Err? ==> r.error.ConfigurationError?
  {
    var baselineRuns :- Count(page, NumBaselineRuns);
    var sweep :- ResolveSweep(page);
    Ok((baselineRuns, sweep))
  }
}
