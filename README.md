# fetch-retried, modelled in Dafny

This project models the core of `fetch-retried`, a wrapper around `fetch` that
retries a request with a growing delay. It covers three pieces:

- **Backoff strategies** (`backoff.dfy`, module `Backoff`). `exponential(delay)`
  waits `attempts² × delay`. `binaryExponential(delay = 1)` waits
  `(2^attempts − 1) × delay`.
- **The retry engine** (`fetch_retried.dfy`, module `FetchRetried`; properties in
  `fetch_properties.dfy`, module `FetchProperties`). It models `fetchRetried(config)` and the
  `fetch(url, options)` it returns.
  - The promise chain of `fetch` and `retry` is modelled exactly by the mutually
    recursive functions `Chain`, `Catch` and `Retry`.
  - Its `.catch` also receives the rejection of a retry started from the response
    handler, and then calls `shouldRetryError` again. `Continue` writes the same
    decisions as a flat loop. `ChainIsFlat` proves that the two agree on the
    outcome, the counter, the waits, the number of transport calls and the
    number of `shouldRetryError` calls.
  - The closure becomes the class `Fetcher`. Its field `attempts` is the shared
    counter and is never reset between calls. `Fetcher.Fetch` runs the loop
    (method `Attempt`) and is proved equal to `Chain`.
  - The transport is a function of the request and the index of the call over
    the fetcher's life. So a scripted or stateful transport is a parameter, and
    `require('node-fetch')` is the constructor's `nodeFetch` argument.
- **`isConnectError`** (`connect_error.dfy`, module `ConnectError`). A recursive
  predicate over an error-like datatype, with its checks in the source's order:
  1. falsy;
  2. aggregate `every`;
  3. `syscall`;
  4. early-stage codes;
  5. the TLS certificate prefix;
  6. the stack heuristic on the error and its direct cause.

  The pattern `/^\s*at\s+onConnect[A-Z]/m` is modelled with ECMAScript's `\s`
  class and its four line terminators. The scan is proved equal to a direct
  reading of the pattern.
- **`isRetryableMethod`** (`retryable_method.dfy`, module `RetryableMethod`):
  membership of the upper-cased method (default `GET`) in an allowlist. The
  result is false when the allowlist is not an array.

`optional.dfy` holds the `Option` datatype used for JavaScript's optional
properties and arguments (`None` is `undefined`).

The model follows `src/index.js` as it stands. Several of the package's tests and
much of its documentation describe a newer version, and the model does not follow them:
- a per-call counter (test/bug-002.js expects 12 transport calls where this
  version of the code makes 7; see `FetchProperties.SecondCallAfterExhaustion`);
- a `shouldRetry` hook;
- method gating inside the retry loop;
- skipping the timer for delays under 1;
- treating an absent method as not retryable (the code defaults it to `GET`).

## Model

| member | source | states |
|---|---|---|
| `Backoff.Exponential` | src/index.js:4-6 | `attempts² × delay`: the first retry waits one unit, and a non-negative unit never gives a negative wait |
| `Backoff.BinaryExponential` | src/index.js:8-10 | `(2^attempts − 1) × delay`, unit 1 by default: the first retry waits one unit, and a non-negative unit never gives a negative wait |
| `Backoff.StrategiesStartAtZero` | src/index.js:4-10 | both strategies give 0 for attempt 0, whatever the unit |
| `Backoff.ExponentialStep` | src/index.js:4-6 | the quadratic wait grows by (2n+1)·delay from attempt n to n+1 |
| `Backoff.ExponentialMonotone` | src/index.js:4-6 | with a non-negative unit the quadratic wait never decreases in the attempt count |
| `Backoff.BinaryExponentialStep` | src/index.js:8-10 | the binary wait satisfies f(n+1) = 2·f(n) + delay |
| `Backoff.BinaryExponentialMonotone` | src/index.js:8-10 | with a non-negative unit the binary wait never decreases in the attempt count |
| `Backoff.StrategyTable` | test/strategies.js:9-38 | the values for attempts 0..5 with units 1, 60000, the default and 1000 |
| `FetchRetried.Timeout` | src/index.js:25 | a function delay is used as is; a numeric delay is the quadratic strategy's unit, waiting 0 at attempt 0 and one unit at attempt 1 |
| `FetchRetried.Configure` | src/index.js:16-23 | every setting the caller gives (retries, a delay function, `isOK`, `shouldRetryError`, `fetch`) is used unchanged; the defaults are in `FetchProperties.DefaultSettings` |
| `FetchRetried.Settles` | src/index.js:39-53 | with the counter at the budget every outcome settles; a retry happens only under the budget, on a response `isOK` rejects or an error `shouldRetryError` accepts |
| `FetchRetried.Chain` | src/index.js:37-57 | one `fetch` call never lowers the shared counter |
| `FetchRetried.Catch` | src/index.js:48-55 | the rejection handler never lowers the counter |
| `FetchRetried.Retry` | src/index.js:28-35 | a retry is entered only under the budget and strictly raises the counter |
| `FetchRetried.ContinueSettles` | src/index.js:27-29 | the flat loop raises the counter once per retry, ends on an outcome that settles, and keeps the counter within max(retries, 0) |
| `FetchRetried.ChainIsFlat` | src/index.js:37-57 | the promise chain and the flat loop agree on the outcome, counter, waits, transport calls and `shouldRetryError` calls, so the second look at a rejection at line 48 never retries again |
| `FetchRetried.Attempt` | src/index.js:37-57 | the while loop returns the outcome, counter, call count, waits and consultations of the flat run |
| `FetchRetried.Fetcher.constructor` | src/index.js:15-27 | fills in the defaults, starts the counter at 0 with nothing called yet |
| `FetchRetried.Fetcher.Fetch` | src/index.js:37-57 | a call continues from the shared counter and settles exactly as the promise chain does; every transport call gets the same url and options; the counter stays within max(retries, 0) |
| `FetchProperties.ChainSettlesAtFirstStop` | src/index.js:28-57 | a call returns the first outcome the handlers do not retry, unchanged; every earlier outcome was retried; the i-th retry waited timeout(a+1+i); the counter rose by one per retry and stays within the budget |
| `FetchProperties.CallBudget` | src/index.js:40-50 | a call makes at most max(retries − attempts, 0) + 1 transport calls |
| `FetchProperties.ChainChecks` | src/index.js:48-55 | `shouldRetryError` runs once per retried error; a call that ends on a declined error with budget left adds one call for that decision and one per response retried on the way |
| `FetchProperties.OKReturnedAtOnce` | src/index.js:43-44 | an OK first response is returned unchanged after one transport call, with no wait and no consultation |
| `FetchProperties.FirstOKResponse` | src/index.js:39-46 | responses not OK until call j, within the budget: exactly j+1 calls, that OK response returned, waits timeout(a+1..a+j), no consultation |
| `FetchProperties.NotOKExhaustsBudget` | src/index.js:40-46 | responses that are never OK: exactly max(retries − a, 0) + 1 calls and the last response returned as a result, not an error |
| `FetchProperties.RetriedErrorsExhaustBudget` | src/index.js:48-55 | errors that `shouldRetryError` always accepts: max(retries − a, 0) + 1 calls, the last error rethrown, one consultation fewer than calls |
| `FetchProperties.DeclinedErrorRethrown` | src/index.js:52-53 | a declined error is rethrown unchanged after one call and one consultation |
| `FetchProperties.ExhaustedFetcher` | src/index.js:40-41 | once the shared counter has reached the budget, a call makes one transport call and settles on it |
| `FetchProperties.DefaultSettings` | src/index.js:16-25 | the defaults are retries 5, wait k·k·30000, `resp.ok`, every error retried, node-fetch |
| `FetchProperties.DelayStrategy` | src/index.js:25 | a numeric delay selects the quadratic strategy and a function is used as is |
| `FetchProperties.SecondCallAfterExhaustion` | src/index.js:27-57 | the test/bug-002.js scenario: the first call returns the 6th response, the second only the 7th, 7 transport calls in all |
| `ConnectError.IsConnectError` | src/is-connect-error.js:6-39 | a non-aggregate error whose syscall is `connect` is a connect error; a bare error object with no code, syscall, stack or cause is not; the full classification is in `ClassifiedBy` and `AggregateIsEvery` |
| `ConnectError.IsTlsCertCode` | src/is-connect-error.js:25 | the code is `ERR_TLS_CERT_` followed by anything |
| `ConnectError.HasConnectFrame` | src/is-connect-error.js:33 | a text the multiline pattern matches has at least 13 characters, the length of `at onConnectX` |
| `ConnectError.FrameAtIff` | src/is-connect-error.js:33 | the scan from one start position matches exactly when the pattern's whitespace, `at`, whitespace, `onConnect`, upper-case letter parts are there |
| `ConnectError.HasConnectFrameIff` | src/is-connect-error.js:33 | the multiline test holds exactly when some line start of the text begins such a frame |
| `ConnectError.FalsyIsNotConnectError` | src/is-connect-error.js:7-8 | a falsy value is not a connect error |
| `ConnectError.AggregateIsEvery` | src/is-connect-error.js:11-12 | an aggregate is a connect error exactly when every sub-error is, whatever its own fields; an empty one is |
| `ConnectError.AggregateWithLaterStageError` | src/is-connect-error.js:12 | one non-connect sub-error makes the aggregate a non-connect error |
| `ConnectError.ClassifiedBy` | src/is-connect-error.js:16-38 | a non-aggregate error is a connect error exactly when: its syscall is `connect`; or its code is listed or has the TLS prefix; or its own or its direct cause's stack has a frame line |
| `ConnectError.CauseOnlyByStack` | src/is-connect-error.js:31-33 | the cause matters only through its own stack, one level deep |
| `ConnectError.UndefinedMatchesNothing` | src/is-connect-error.js:25-33 | a missing stack or code, tested as `undefined`, matches neither pattern |
| `ConnectError.FrameLineMarks` | src/is-connect-error.js:31-36 | a stack with a later line `<ws>at<ws>onConnect<Upper>…` is marked |
| `ConnectError.OtherFrameUnmarked` | src/is-connect-error.js:31-38 | a two-line stack whose frame names a function not starting with `o` is not marked |
| `ConnectError.CodeCases` | src/is-connect-error.js:1-26 | ECONNREFUSED, ENOTFOUND and ERR_TLS_CERT_ALTNAME_INVALID are connect errors; ECONNRESET and ERR_ACCESS_DENIED are not |
| `ConnectError.SyscallAndAggregateCases` | src/is-connect-error.js:11-17 | `syscall: 'connect'` and an aggregate of one such error are connect errors |
| `RetryableMethod.ToUpperCase` | src/is-retryable-method.js:7 | upper-casing keeps the length and maps each character to its upper case |
| `RetryableMethod.IndexOf` | src/is-retryable-method.js:7 | the first index holding the value, or −1 exactly when it is absent |
| `RetryableMethod.IsRetryableMethod` | src/is-retryable-method.js:3-8 | retryable exactly when the list is an array holding the upper-cased method (default GET) |
| `RetryableMethod.NotAListFailsClosed` | src/is-retryable-method.js:4-5 | a non-array allowlist gives false for any method |
| `RetryableMethod.UpperCaseIdempotent` | src/is-retryable-method.js:7 | upper-casing twice is upper-casing once |
| `RetryableMethod.CaseInsensitive` | src/is-retryable-method.js:7 | a method and its upper-cased form give the same answer |
| `RetryableMethod.LowercaseEntryNeverMatches` | src/is-retryable-method.js:7 | an entry containing a lower-case letter never equals an upper-cased method |
| `RetryableMethod.LowercaseListNeverRetryable` | src/is-retryable-method.js:7 | a list of such entries matches no method |
| `RetryableMethod.GetIsRetryable` | src/is-retryable-method.js:1-7 | the default method and `get` are retryable against `IDEMPOTENT_HTTP_METHODS` |
| `RetryableMethod.PostIsNotRetryable` | src/is-retryable-method.js:1-7 | `POST` and `post` are not |

## Left out

- **Promises, timers and the real transport.** `setTimeout` becomes a recorded
  delay, and a promise settling becomes an `Outcome`. node-fetch is a
  constructor argument.
- **Concurrency.** Several calls through one fetcher running at once
  interleave on the shared counter. `Fetcher.Fetch` models calls made one
  after another.
- **Floating point.** Delays are integers and attempts are natural numbers, so
  the strategies are exact. `Math.pow` overflow and non-integer units are not
  modelled.
- **Exceptions thrown by `isOK`, `shouldRetryError` or the transport.** The
  callbacks are total, pure functions.
- **JavaScript's dynamic typing.**
  - Codes, syscalls and stacks are strings or missing. A non-string value that
    would be converted to a string is not modelled.
  - Entries of the method allowlist are strings.
  - The method is a string or omitted. `null` would throw in `toUpperCase` and
    is not modelled.
- **Unicode case mapping.** `RetryableMethod.ToUpperCase` maps only the ASCII
  letters. JavaScript's `toUpperCase` also maps other letters, some of them to
  several characters.
- **Concrete V8 stack traces** from test/is-connect-error.js:44-50 are stated
  through `FrameLineMarks` and `OtherFrameUnmarked`, over the shape of the
  stack, rather than evaluated on literal strings.
- **Features the tests describe but `src/index.js` does not have:**
  - the `shouldRetry` hook (test/index.js:177-245);
  - not retrying POST (test/index.js:34-51);
  - a per-call counter (test/bug-002.js:16-46);
  - `isConnectError` exported from the package root (test/is-connect-error.js:11).
