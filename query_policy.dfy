/**
 * The query-policy layer of the portfolio composables: the query keys each
 * composable builds, the `enabled` predicate of the ATR query, the fixed
 * per-resource caching policy handed to the query library, and the capped
 * exponential backoff used between retries of the broker-status query.
 *
 * The query library that consumes these values (caching, staleness,
 * deduplication, garbage collection, timers, the retry loop itself) is not
 * part of this model.
 */
module QueryPolicy {
  import opened Wrappers

  /** The optional parameters of the portfolio endpoint. */
  datatype PortfolioRequest = PortfolioRequest(
    useCache: Option<bool>,
    calculateRiskMetrics: Option<bool>,
    includeOrders: Option<bool>)

  /** `{}`: the parameters `usePortfolio` uses when it is given none. */
  const EmptyRequest := PortfolioRequest(None, None, None)

  /** The period `useATRCalculation` uses when it is given none. */
  const DefaultAtrPeriod := 20

  /** One call of a composable, its parameters resolved. */
  datatype Query =
    | PortfolioQuery(params: PortfolioRequest)
    | RiskAnalysisQuery
    | AtrQuery(symbol: string, period: int)
    | IbkrStatusQuery
    | HealthQuery

  /** `usePortfolio(params = {})`. */
  function UsePortfolio(params: Option<PortfolioRequest>): (q: Query)
    ensures q.PortfolioQuery?
    ensures params.Some? ==> q.params == params.value
    ensures params.None? ==> q.params == EmptyRequest
  {
    PortfolioQuery(params.GetOr(EmptyRequest))
  }

  /** `useATRCalculation(symbol, period = 20)`. */
  function UseAtrCalculation(symbol: string, period: Option<int>): (q: Query)
    ensures q.AtrQuery? && q.symbol == symbol
    ensures period.Some? ==> q.period == period.value
    ensures period.None? ==> q.period == DefaultAtrPeriod
  {
    AtrQuery(symbol, period.GetOr(DefaultAtrPeriod))
  }

  // ---------------------------------------------------------------------------
  // Query keys
  // ---------------------------------------------------------------------------

  /** One element of a query-key array: a string, a number or the parameter object. */
  datatype KeyPart = Str(s: string) | Num(n: int) | Params(request: PortfolioRequest)

  /** A query key: the array passed as `queryKey`. */
  type QueryKey = seq<KeyPart>

  /** The five remote resources, one per composable. */
  datatype Resource = Portfolio | RiskAnalysis | Atr | IbkrStatus | Health

  function ResourceOf(q: Query): Resource
  {
    match q
    case PortfolioQuery(_) => Portfolio
    case RiskAnalysisQuery => RiskAnalysis
    case AtrQuery(_, _) => Atr
    case IbkrStatusQuery => IbkrStatus
    case HealthQuery => Health
  }

  /** The resource name each key starts with; a helper of `KeyOf`. */
  function ResourceName(r: Resource): string
  {
    match r
    case Portfolio => "portfolio"
    case RiskAnalysis => "risk-analysis"
    case Atr => "atr"
    case IbkrStatus => "ibkr-status"
    case Health => "health"
  }

  /** The key a composable hands to the query library. */
  function KeyOf(q: Query): (k: QueryKey)
    ensures |k| >= 1 && k[0] == Str(ResourceName(ResourceOf(q)))
    ensures q.PortfolioQuery? ==> |k| == 2 && k[1] == Params(q.params)
    ensures q.AtrQuery? ==> |k| == 3 && k[1] == Str(q.symbol) && k[2] == Num(q.period)
    ensures !q.PortfolioQuery? && !q.AtrQuery? ==> |k| == 1
  {
    match q
    case PortfolioQuery(params) => [Str("portfolio"), Params(params)]
    case RiskAnalysisQuery => [Str("risk-analysis")]
    case AtrQuery(symbol, period) => [Str("atr"), Str(symbol), Num(period)]
    case IbkrStatusQuery => [Str("ibkr-status")]
    case HealthQuery => [Str("health")]
  }

  /** Distinct resources are named by distinct strings. */
  lemma ResourceNameInjective(r1: Resource, r2: Resource)
    ensures ResourceName(r1) == ResourceName(r2) <==> r1 == r2
  {
  }

  /** Two calls build equal keys exactly when they are the same call: in
      particular two ATR keys are equal iff symbol and period both are. */
  lemma KeyOfInjective(q1: Query, q2: Query)
    ensures KeyOf(q1) == KeyOf(q2) <==> q1 == q2
  {
  }

  /** `['portfolio']`, the key `refreshPortfolio` invalidates. */
  function RefreshPortfolioKey(): (k: QueryKey)
    ensures forall params :: k <= KeyOf(PortfolioQuery(params))
  {
    [Str("portfolio")]
  }

  /** The invalidation key of `refreshPortfolio` is a prefix of the key of
      every portfolio query, whatever its parameters, and of no other key
      these composables build. */
  lemma RefreshPortfolioKeyPrefix(q: Query)
    ensures RefreshPortfolioKey() <= KeyOf(q) <==> q.PortfolioQuery?
  {
  }

  // ---------------------------------------------------------------------------
  // enabled
  // ---------------------------------------------------------------------------

  /** `!!symbol`: a string is truthy iff it is not empty. */
  function AtrEnabled(symbol: string): (b: bool)
    ensures b <==> |symbol| > 0
  {
    symbol != ""
  }

  /** The `enabled` option each composable passes; `None` where it passes
      none (the query library's default then applies). */
  function EnabledOf(q: Query): (e: Option<bool>)
    ensures e.Some? <==> q.AtrQuery?
    ensures q.AtrQuery? ==> (e.value <==> q.symbol != "")
  {
    match q
    case AtrQuery(symbol, _) => Some(AtrEnabled(symbol))
    case _ => None
  }

  // ---------------------------------------------------------------------------
  // Per-resource policy constants
  // ---------------------------------------------------------------------------

  /** The caching options a composable passes, all times in milliseconds;
      `None` where the composable passes nothing. `customRetryDelay` is true
      when it passes `RetryDelay` below as `retryDelay`. */
  datatype Policy = Policy(
    staleTime: nat,
    gcTime: nat,
    refetchInterval: Option<nat>,
    refetchOnWindowFocus: Option<bool>,
    retry: Option<nat>,
    customRetryDelay: bool)

  /** The policy each composable passes with its query. Cached data turns
      stale before it may be collected; only the broker-status query uses
      the custom backoff, and it treats its data as stale at once. */
  function PolicyOf(r: Resource): (p: Policy)
    ensures p.staleTime < p.gcTime
    ensures p.customRetryDelay <==> r == IbkrStatus
    ensures p.staleTime == 0 <==> r == IbkrStatus
    ensures p.refetchOnWindowFocus.Some? <==> r == Portfolio
    ensures p.refetchInterval.Some? ==> p.refetchInterval.value < p.gcTime
    ensures p.retry.Some? ==> 0 < p.retry.value <= 3
  {
    match r
    case Portfolio =>
      Policy(30 * 1000, 5 * 60 * 1000, Some(60 * 1000), Some(true), None, false)
    case RiskAnalysis =>
      Policy(60 * 1000, 10 * 60 * 1000, None, None, None, false)
    case Atr =>
      Policy(5 * 60 * 1000, 15 * 60 * 1000, None, None, None, false)
    case IbkrStatus =>
      Policy(0, 60 * 1000, Some(10 * 1000), None, Some(3), true)
    case Health =>
      Policy(30 * 1000, 2 * 60 * 1000, None, None, Some(2), false)
  }

  /** The policy table in milliseconds. */
  lemma PolicyTable()
    ensures PolicyOf(Portfolio) == Policy(30000, 300000, Some(60000), Some(true), None, false)
    ensures PolicyOf(RiskAnalysis) == Policy(60000, 600000, None, None, None, false)
    ensures PolicyOf(Atr) == Policy(300000, 900000, None, None, None, false)
    ensures PolicyOf(IbkrStatus) == Policy(0, 60000, Some(10000), None, Some(3), true)
    ensures PolicyOf(Health) == Policy(30000, 120000, None, None, Some(2), false)
  {
  }

  // ---------------------------------------------------------------------------
  // Retry backoff of the broker-status query
  // ---------------------------------------------------------------------------

  const RetryBaseMs := 1000
  const RetryCapMs := 30000

  /** `2 ** n` on naturals. */
  function Pow2(n: nat): (r: nat)
    ensures r >= 1
  {
    if n == 0 then 1 else 2 * Pow2(n - 1)
  }

  lemma {:induction false} Pow2Monotone(m: nat, n: nat)
    requires m <= n
    ensures Pow2(m) <= Pow2(n)
  {
    if m < n {
      Pow2Monotone(m, n - 1);
    }
  }

  /** `Math.min(1000 * 2 ** attemptIndex, 30000)`: the exponential delay,
      never more than the cap. */
  function RetryDelay(attemptIndex: nat): (r: nat)
    ensures RetryBaseMs <= r <= RetryCapMs
    ensures r <= RetryBaseMs * Pow2(attemptIndex)
    ensures r == RetryCapMs || r == RetryBaseMs * Pow2(attemptIndex)
  {
    var exponential := RetryBaseMs * Pow2(attemptIndex);
    if exponential < RetryCapMs then exponential else RetryCapMs
  }

  /** Later attempts never wait less. */
  lemma RetryDelayMonotone(i: nat, j: nat)
    requires i <= j
    ensures RetryDelay(i) <= RetryDelay(j)
  {
    Pow2Monotone(i, j);
  }

  /** Below the cap, each attempt waits twice as long as the one before. */
  lemma RetryDelayDoubles(i: nat)
    requires i < 4
    ensures RetryDelay(i + 1) == 2 * RetryDelay(i)
  {
    Pow2Monotone(i, 3);
    assert Pow2(3) == 8;
  }

  lemma RetryDelayFirstValues()
    ensures RetryDelay(0) == 1000 && RetryDelay(1) == 2000 && RetryDelay(2) == 4000
    ensures RetryDelay(3) == 8000 && RetryDelay(4) == 16000
  {
  }

  /** From the sixth attempt on, every delay is the cap. */
  lemma RetryDelayCapped(i: nat)
    requires i >= 5
    ensures RetryDelay(i) == RetryCapMs
  {
    Pow2Monotone(5, i);
    assert Pow2(5) == 32;
  }

  /** The delays waited before each of `retry` retries, the k-th being
      `RetryDelay(k)`. */
  function DelaysBeforeRetries(retry: nat): (d: seq<nat>)
    ensures |d| == retry
    ensures forall k :: 0 <= k < retry ==> d[k] == RetryDelay(k)
  {
    if retry == 0 then [] else DelaysBeforeRetries(retry - 1) + [RetryDelay(retry - 1)]
  }

  /** With `retry: 3`, the broker-status query waits 1 s, 2 s and 4 s. */
  lemma IbkrStatusRetryDelays()
    ensures PolicyOf(IbkrStatus).retry == Some(3)
    ensures PolicyOf(IbkrStatus).customRetryDelay
    ensures DelaysBeforeRetries(3) == [1000, 2000, 4000]
  {
  }
}
