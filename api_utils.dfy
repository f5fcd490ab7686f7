/** The retrying API wrapper used by the market data fetcher
    (src/utils/api.py): credentials, retry with exponential backoff, and the
    local guards in front of the broker. */
module ApiUtils {
  import opened Common
  import opened Frames

  /** Default number of attempts per API call. */
  const MaxRetries: int := 3
  /** Default base of the exponential backoff, in seconds. */
  const RetryDelayBase: int := 2
  const PaperUrl: string := "https://paper-api.alpaca.markets"

  datatype Client = Client(
    apiKey: string,
    apiSecret: string,
    baseUrl: string,
    maxRetries: int,
    retryDelayBase: int)

  /** `AlpacaClient.__init__`: explicit credentials first, then the
      environment; ValueError when either is still missing. */
  function NewClient(
    apiKey: Option<string>, apiSecret: Option<string>, baseUrl: Option<string>,
    envKey: Option<string>, envSecret: Option<string>,
    maxRetries: int, retryDelayBase: int): (r: Result<Client>)
    ensures r.Err? <==> !Truthy(OrElse(apiKey, envKey)) || !Truthy(OrElse(apiSecret, envSecret))
    ensures r.Ok? ==>
      && r.value.apiKey == (if Truthy(apiKey) then apiKey.value else envKey.value)
      && r.value.apiSecret == (if Truthy(apiSecret) then apiSecret.value else envSecret.value)
      && r.value.baseUrl == (if Truthy(baseUrl) then baseUrl.value else PaperUrl)
      && r.value.maxRetries == maxRetries
      && r.value.retryDelayBase == retryDelayBase
  {
    var key := OrElse(apiKey, envKey);
    var secret := OrElse(apiSecret, envSecret);
    var url := if Truthy(baseUrl) then baseUrl.value else PaperUrl;
    if !Truthy(key) || !Truthy(secret) then
      Err("API key and secret must be provided or set as environment variables")
    else
      Ok(Client(key.value, secret.value, url, maxRetries, retryDelayBase))
  }

  /** `max_retries or self.max_retries`: None and 0 fall back to the client's
      own setting. */
  function EffectiveRetries(maxRetries: Option<int>, client: Client): int
  {
    if maxRetries.None? || maxRetries.value == 0 then client.maxRetries else maxRetries.value
  }

  /** What one `retry_api_call` did: its result, how many times it invoked
      the call, and the sleeps between attempts, in seconds. */
  datatype RetryRun<T> = RetryRun(result: Option<T>, calls: nat, sleeps: seq<int>)

  /** The attempts from index `i` on, out of `n`, where `attempt(i)` is the
      outcome of the i-th invocation of the call. */
  function RetryFrom<T>(attempt: nat -> Reply<T>, n: int, base: int, i: nat): RetryRun<T>
    decreases if i < n then n - i else 0
  {
    if i >= n then RetryRun(None, 0, [])
    else match attempt(i)
      case Returned(v) => RetryRun(Some(v), 1, [])
      case Raised =>
        if i == n - 1 then RetryRun(None, 1, [])
        else
          var rest := RetryFrom(attempt, n, base, i + 1);
          RetryRun(rest.result, rest.calls + 1, [Pow(base, i)] + rest.sleeps)
  }

  /** Retrying returns the value of the first attempt that returns, after
      exactly that many calls, and gives up with None after `n` raising
      attempts; it sleeps `base^k` after each failed attempt but the last. */
  lemma {:induction false} RetryFromMeaning<T>(attempt: nat -> Reply<T>, n: int, base: int, i: nat)
    ensures var run := RetryFrom(attempt, n, base, i);
      && run.calls <= Max(0, n - i)
      && (run.result.None? <==> forall j :: i <= j < n ==> attempt(j).Raised?)
      && (run.result.Some? ==>
            && attempt(i + run.calls - 1) == Returned(run.result.value)
            && forall j :: i <= j < i + run.calls - 1 ==> attempt(j).Raised?)
      && (run.result.None? ==> run.calls == Max(0, n - i))
      && |run.sleeps| == Max(0, run.calls - 1)
      && forall k :: 0 <= k < |run.sleeps| ==> run.sleeps[k] == Pow(base, i + k)
    decreases if i < n then n - i else 0
  {
    if i < n && attempt(i).Raised? && i != n - 1 {
      RetryFromMeaning(attempt, n, base, i + 1);
      var rest := RetryFrom(attempt, n, base, i + 1);
      var run := RetryFrom(attempt, n, base, i);
      assert run.sleeps == [Pow(base, i)] + rest.sleeps;
      forall k | 0 <= k < |run.sleeps| ensures run.sleeps[k] == Pow(base, i + k) {
        if k > 0 {
          assert run.sleeps[k] == rest.sleeps[k - 1];
        }
      }
      if run.result.None? {
        forall j | i <= j < n ensures attempt(j).Raised? {
          if j > i {
            assert attempt(j).Raised?;
          }
        }
      }
    }
  }

  /** `retry_api_call`: up to `max_retries` invocations, returning the first
      result and sleeping `retry_delay_base ** k` seconds after the k-th
      failed attempt unless it was the last one. */
  method RetryApiCall<T>(client: Client, attempt: nat -> Reply<T>, maxRetries: Option<int>)
    returns (r: Option<T>, calls: nat, sleeps: seq<int>)
    ensures RetryRun(r, calls, sleeps) ==
            RetryFrom(attempt, EffectiveRetries(maxRetries, client), client.retryDelayBase, 0)
  {
    var n := EffectiveRetries(maxRetries, client);
    calls, sleeps := 0, [];
    var retryCount := 0;
    while retryCount < n
      invariant 0 <= retryCount
      invariant n > 0 ==> retryCount < n
      invariant n <= 0 ==> retryCount == 0
      invariant calls == retryCount
      invariant |sleeps| == retryCount
      invariant forall j :: 0 <= j < retryCount ==> attempt(j).Raised?
      invariant retryCount < n ==>
        var rest := RetryFrom(attempt, n, client.retryDelayBase, retryCount);
        RetryFrom(attempt, n, client.retryDelayBase, 0) ==
          RetryRun(rest.result, calls + rest.calls, sleeps + rest.sleeps)
      decreases n - retryCount
    {
      calls := calls + 1;
      match attempt(retryCount)
      case Returned(v) =>
        return Some(v), calls, sleeps;
      case Raised =>
        if retryCount == n - 1 {
          return None, calls, sleeps;
        }
        sleeps := sleeps + [Pow(client.retryDelayBase, retryCount)];
        retryCount := retryCount + 1;
    }
    r := None;
  }

  /** `get_bars` after the retried call: a missing or empty frame becomes
      None, anything else is passed through unchanged. */
  function GetBarsResult(retried: Option<Frame>): (r: Option<Frame>)
    ensures r.Some? <==> retried.Some? && !IsEmpty(retried.value)
    ensures r.Some? ==> r == retried
  {
    if retried.Some? && !IsEmpty(retried.value) then retried else None
  }

  /** The local guards of `submit_order`. */
  predicate OrderAllowed(qty: real, side: string)
  {
    (side == "buy" || side == "sell") && qty > 0.0
  }

  /** `submit_order`: a side other than buy/sell or a non-positive quantity is
      refused with no API call; otherwise the order goes through the retry
      loop with the client's default attempt count. */
  method SubmitOrder<T>(client: Client, qty: real, side: string, attempt: nat -> Reply<T>)
    returns (r: Option<T>, calls: nat, sleeps: seq<int>)
    ensures !OrderAllowed(qty, side) ==> r.None? && calls == 0 && sleeps == []
    ensures OrderAllowed(qty, side) ==>
      RetryRun(r, calls, sleeps) == RetryFrom(attempt, client.maxRetries, client.retryDelayBase, 0)
  {
    if side != "buy" && side != "sell" {
      return None, 0, [];
    }
    if qty <= 0.0 {
      return None, 0, [];
    }
    r, calls, sleeps := RetryApiCall(client, attempt, None);
  }

  /** `verify_connection`: the retried account lookup returned an account. */
  predicate ConnectionVerified<A>(retriedAccount: Option<A>)
  {
    retriedAccount.Some?
  }

  /** `create_client`: None when construction raises, or when verification
      was asked for and failed; the backoff base is always the default. */
  function CreateClient<A>(
    apiKey: Option<string>, apiSecret: Option<string>, baseUrl: Option<string>,
    envKey: Option<string>, envSecret: Option<string>,
    maxRetries: int, verify: bool, retriedAccount: Option<A>): (r: Option<Client>)
    ensures r.Some? <==>
      && Truthy(OrElse(apiKey, envKey)) && Truthy(OrElse(apiSecret, envSecret))
      && (verify ==> retriedAccount.Some?)
    ensures r.Some? ==> r.value.maxRetries == maxRetries && r.value.retryDelayBase == RetryDelayBase
  {
    match NewClient(apiKey, apiSecret, baseUrl, envKey, envSecret, maxRetries, RetryDelayBase)
    case Err(_) => None
    case Ok(c) => if verify && !ConnectionVerified(retriedAccount) then None else Some(c)
  }
}
