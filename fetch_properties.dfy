/**
 * What one `fetch` call through `fetchRetried` (src/index.js:15-60) does,
 * stated about the promise-chain model `Chain`: which transport outcome it
 * settles on, how many transport calls and `shouldRetryError` consultations
 * it makes, what it waits between them, and where the shared counter ends.
 * The scenarios of the package's own tests follow as corollaries, computed
 * from this version of src/index.js (the counter is never reset between calls).
 */
module FetchProperties {
  import opened Optional
  import opened FetchRetried

  /**
   * A call settles on the first transport outcome that the handlers do not
   * retry, and returns it unchanged (a response as is, an error rethrown
   * as is). Before it, every outcome was retried; the i-th retry waited
   * `timeout` of the counter it bumped to; the counter rose by one per retry
   * and never passes the budget.
   */
  lemma ChainSettlesAtFirstStop<E>(s: Settings<E>, req: Request, a: nat, n: nat)
    ensures var run := Chain(s, req, a, n);
      && run.calls >= 1
      && run.attempts == a + run.calls - 1
      && run.result == s.transport(req, n + run.calls - 1)
      && Settles(s, run.attempts, run.result)
      && (forall j :: n <= j < n + run.calls - 1 ==> !Settles(s, a + (j - n), s.transport(req, j)))
      && |run.waits| == run.calls - 1
      && (forall i :: 0 <= i < |run.waits| ==> run.waits[i] == s.timeout(a + 1 + i))
      && (a <= Max0(s.retries) ==> run.attempts <= Max0(s.retries))
  {
    ChainIsFlat(s, req, a, n);
    ContinueSettlesFirst(s, req, a, n + 1);
  }

  /**
   * A flat run that began with transport call `n - 1` stops at the first
   * outcome that settles: every earlier outcome was retried, each retry
   * bumped the counter by one and waited `timeout` of the new count, and the
   * run ends with the outcome of its last transport call, unchanged.
   */
  lemma {:induction false} ContinueSettlesFirst<E>(s: Settings<E>, req: Request, a: nat, n: nat)
    requires n >= 1
    ensures var run := Continue(s, req, a, n, s.transport(req, n - 1));
      && run.attempts == a + run.calls
      && run.result == s.transport(req, n - 1 + run.calls)
      && Settles(s, run.attempts, run.result)
      && (forall j :: n - 1 <= j < n - 1 + run.calls ==> !Settles(s, a + (j - (n - 1)), s.transport(req, j)))
      && |run.waits| == run.calls
      && (forall i :: 0 <= i < run.calls ==> run.waits[i] == s.timeout(a + 1 + i))
      && (a <= Max0(s.retries) ==> run.attempts <= Max0(s.retries))
    decreases s.retries - a
  {
    if !Settles(s, a, s.transport(req, n - 1)) {
      ContinueSettlesFirst(s, req, a + 1, n + 1);
      var rest := Continue(s, req, a + 1, n + 1, s.transport(req, n));
      var run := Continue(s, req, a, n, s.transport(req, n - 1));
      assert run.calls == rest.calls + 1 && run.waits == [s.timeout(a + 1)] + rest.waits;
    }
  }

  /**
   * The budget: a call made with the counter at `a` calls the transport at
   * most `max(retries - a, 0) + 1` times, so a fresh fetcher makes at most
   * `max(retries, 0) + 1` calls.
   */
  lemma CallBudget<E>(s: Settings<E>, req: Request, a: nat, n: nat)
    ensures Chain(s, req, a, n).calls <= Max0(s.retries - a) + 1
  {
    var run := Chain(s, req, a, n);
    ChainSettlesAtFirstStop(s, req, a, n);
    if run.calls >= 2 {
      var j := n + run.calls - 2;
      assert !Settles(s, a + (j - n), s.transport(req, j));
    }
  }

  /** The number of rejections among the `m` transport outcomes from call `from` on. */
  function Errors<E>(s: Settings<E>, req: Request, from: nat, m: nat): (count: nat)
    ensures count <= m
    decreases m
  {
    if m == 0 then 0
    else (if s.transport(req, from).Rejected? then 1 else 0) + Errors(s, req, from + 1, m - 1)
  }

  /** The consultations of a flat run that began with transport call `n - 1`. */
  lemma {:induction false} ContinueChecks<E>(s: Settings<E>, req: Request, a: nat, n: nat)
    requires n >= 1
    ensures var run := Continue(s, req, a, n, s.transport(req, n - 1));
      && run.attempts == a + run.calls
      && run.checks == Errors(s, req, n - 1, run.calls)
                       + if run.result.Rejected? && run.attempts < s.retries
                         then 1 + (run.calls - Errors(s, req, n - 1, run.calls)) else 0
    decreases s.retries - a
  {
    if !Settles(s, a, s.transport(req, n - 1)) {
      ContinueChecks(s, req, a + 1, n + 1);
    }
  }

  /**
   * `shouldRetryError` runs once for every error that was retried (line 52)
   * and, when the call ends on an error it declined with budget left, once
   * for that decision and once more for every response the chain retried on
   * the way there: each of those levels' `.catch` (line 48) receives the same
   * rejection and asks again.
   */
  lemma ChainChecks<E>(s: Settings<E>, req: Request, a: nat, n: nat)
    ensures var run := Chain(s, req, a, n);
      && run.calls >= 1
      && run.checks == Errors(s, req, n, run.calls - 1)
                       + if run.result.Rejected? && run.attempts < s.retries
                         then 1 + (run.calls - 1 - Errors(s, req, n, run.calls - 1)) else 0
  {
    ChainIsFlat(s, req, a, n);
    ContinueChecks(s, req, a, n + 1);
  }

  /** An OK response on the first transport call is returned at once, without a wait or a consultation. */
  lemma OKReturnedAtOnce<E>(s: Settings<E>, req: Request, a: nat, n: nat)
    requires s.transport(req, n).Resolved? && s.isOK(s.transport(req, n).response)
    ensures Chain(s, req, a, n) == Run(s.transport(req, n), a, [], 1, 0)
  {
  }

  /**
   * A transport whose responses are not OK until call `n + j`, which is,
   * takes exactly `j + 1` calls when the budget allows `j` retries; the OK
   * response is returned unchanged, after waits `timeout(a + 1) ..
   * timeout(a + j)`, and `shouldRetryError` never runs.
   */
  lemma FirstOKResponse<E>(s: Settings<E>, req: Request, a: nat, n: nat, j: nat)
    requires forall k :: n <= k < n + j ==> s.transport(req, k).Resolved? && !s.isOK(s.transport(req, k).response)
    requires s.transport(req, n + j).Resolved? && s.isOK(s.transport(req, n + j).response)
    requires a + j <= s.retries
    ensures var run := Chain(s, req, a, n);
      && run.calls == j + 1
      && run.result == s.transport(req, n + j)
      && run.attempts == a + j
      && |run.waits| == j
      && (forall i :: 0 <= i < j ==> run.waits[i] == s.timeout(a + 1 + i))
      && run.checks == 0
  {
    ChainSettlesAtFirstStop(s, req, a, n);
    ChainChecks(s, req, a, n);
    NoErrors(s, req, n, j);
  }

  /** No rejection among outcomes that are all responses. */
  lemma {:induction false} NoErrors<E>(s: Settings<E>, req: Request, from: nat, m: nat)
    requires forall k :: from <= k < from + m ==> s.transport(req, k).Resolved?
    ensures Errors(s, req, from, m) == 0
    decreases m
  {
    if m > 0 {
      NoErrors(s, req, from + 1, m - 1);
    }
  }

  /** Every outcome a rejection. */
  lemma {:induction false} AllErrors<E>(s: Settings<E>, req: Request, from: nat, m: nat)
    requires forall k :: from <= k < from + m ==> s.transport(req, k).Rejected?
    ensures Errors(s, req, from, m) == m
    decreases m
  {
    if m > 0 {
      AllErrors(s, req, from + 1, m - 1);
    }
  }

  /**
   * A transport whose responses are never OK exhausts the budget: the call
   * makes `max(retries - a, 0) + 1` transport calls, returns the last
   * response as a normal result (not an error), leaves the counter at
   * `max(retries, a)` and never consults `shouldRetryError`.
   */
  lemma NotOKExhaustsBudget<E>(s: Settings<E>, req: Request, a: nat, n: nat)
    requires forall k :: n <= k ==> s.transport(req, k).Resolved? && !s.isOK(s.transport(req, k).response)
    ensures var run := Chain(s, req, a, n);
      && run.calls == Max0(s.retries - a) + 1
      && run.result == s.transport(req, n + Max0(s.retries - a))
      && run.result.Resolved?
      && run.attempts == a + Max0(s.retries - a)
      && run.checks == 0
  {
    var run := Chain(s, req, a, n);
    ChainSettlesAtFirstStop(s, req, a, n);
    CallBudget(s, req, a, n);
    ChainChecks(s, req, a, n);
    NoErrors(s, req, n, run.calls - 1);
  }

  /**
   * A transport that always rejects, with `shouldRetryError` accepting every
   * such error, exhausts the budget too: `max(retries - a, 0) + 1` transport
   * calls, the last error rethrown, and one consultation fewer than calls,
   * because the budget check at line 49 comes before the one at line 52.
   */
  lemma RetriedErrorsExhaustBudget<E>(s: Settings<E>, req: Request, a: nat, n: nat)
    requires forall k :: n <= k ==> s.transport(req, k).Rejected? && s.shouldRetryError(s.transport(req, k).error)
    ensures var run := Chain(s, req, a, n);
      && run.calls == Max0(s.retries - a) + 1
      && run.result == s.transport(req, n + Max0(s.retries - a))
      && run.result.Rejected?
      && run.checks == Max0(s.retries - a)
  {
    var run := Chain(s, req, a, n);
    ChainSettlesAtFirstStop(s, req, a, n);
    CallBudget(s, req, a, n);
    ChainChecks(s, req, a, n);
    AllErrors(s, req, n, run.calls - 1);
  }

  /**
   * An error that `shouldRetryError` declines, with budget left, is rethrown
   * unchanged after one transport call and one consultation.
   */
  lemma DeclinedErrorRethrown<E>(s: Settings<E>, req: Request, a: nat, n: nat)
    requires a < s.retries
    requires s.transport(req, n).Rejected? && !s.shouldRetryError(s.transport(req, n).error)
    ensures Chain(s, req, a, n) == Run(s.transport(req, n), a, [], 1, 1)
  {
  }

  /**
   * Once the counter has reached the budget, every later call through the
   * same fetcher makes one transport call and settles on its outcome,
   * without a wait and without consulting `shouldRetryError`.
   */
  lemma ExhaustedFetcher<E>(s: Settings<E>, req: Request, a: nat, n: nat)
    requires a >= s.retries
    ensures Chain(s, req, a, n) == Run(s.transport(req, n), a, [], 1, 0)
  {
  }

  /**
   * The defaults of src/index.js:17-20,23: retries 5, the quadratic strategy
   * with a 30 second unit, `resp.ok` as `isOK`, every error retried, and the
   * given default transport when `config.fetch` is absent.
   */
  lemma DefaultSettings<E>(nodeFetch: Transport<E>)
    ensures var s := Configure(Config(None, None, None, None, None), nodeFetch);
      && s.retries == 5
      && (forall k: nat :: s.timeout(k) == k * k * 30000)
      && (forall r: Response :: s.isOK(r) == r.ok)
      && (forall e: E :: s.shouldRetryError(e))
      && s.transport == nodeFetch
  {
  }

  /** A numeric `delay` selects the quadratic strategy; a function is used as the strategy itself. */
  lemma DelayStrategy<E>(config: Config<E>, nodeFetch: Transport<E>, k: nat)
    requires config.delay.Some?
    ensures var s := Configure(config, nodeFetch);
      s.timeout(k) == match config.delay.value
        case Units(unit) => k * k * unit
        case Strategy(f) => f(k)
  {
  }

  /**
   * The scenario of test/bug-002.js run against src/index.js as it stands: a
   * transport whose k-th response (from 1) is a 500 tagged k, `retries` 5.
   * The first call makes six transport calls and returns the sixth
   * response; the counter stays at 5, so the second call makes a single
   * transport call and returns the seventh response, seven calls in all.
   */
  method SecondCallAfterExhaustion(options: Options) returns (first: Outcome<string>, second: Outcome<string>, calls: nat)
    ensures first == Resolved(Response(false, 500, 6))
    ensures second == Resolved(Response(false, 500, 7))
    ensures calls == 7
  {
    var transport: Transport<string> := (r: Request, k: nat) => Resolved(Response(false, 500, k + 1));
    var config := Config(Some(Units(10)), Some(5), None, None, Some(transport));
    var url := "https://example.ambassify.eu/";
    var fetcher := new Fetcher(config, transport);
    NotOKExhaustsBudget(fetcher.settings, Request(url, options), 0, 0);
    first := fetcher.Fetch(url, options);
    ExhaustedFetcher(fetcher.settings, Request(url, options), 5, 6);
    second := fetcher.Fetch(url, options);
    calls := |fetcher.requests|;
  }
}
