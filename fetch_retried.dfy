/**
 * The retry engine of src/index.js:15-60.
 *
 * `fetchRetried(config)` returns a `fetch(url, options)` that calls the
 * transport and, on a response that is not OK or on a rejection that
 * `shouldRetryError` accepts, bumps a counter and calls again after a delay.
 * The counter `attempts` lives in the factory's closure (src/index.js:27):
 * it is never reset, so every call through one returned `fetch` shares it.
 *
 * The source's promise chain is modelled exactly by `Chain`, `Catch` and
 * `Retry`; `Continue` is the same decision procedure written as a flat loop,
 * and `ChainIsFlat` proves the two agree. The class `Fetcher` holds the
 * closure's state and runs the loop.
 */
module FetchRetried {
  import opened Optional
  import Backoff

  /**
   * The caller's `options` argument: any JavaScript value, omitted included
   * (a headers object, a body, ...). The retry engine never looks inside it.
   */
  type Options(==)

  /** What the transport is called with: the caller's url and options, passed on unchanged. */
  datatype Request = Request(url: string, options: Options)

  /** A response-like value; `ok` is what the default `isOK` looks at. */
  datatype Response = Response(ok: bool, status: int, tag: nat)

  /** How a transport call or a whole `fetch` call settles: resolved with a response or rejected with an error. */
  datatype Outcome<E> = Resolved(response: Response) | Rejected(error: E)

  /**
   * The transport (`config.fetch` or node-fetch): the outcome of the k-th call
   * made through one fetcher, k counted from 0 over the fetcher's whole life,
   * so a transport that keeps its own state is a function of k.
   */
  type Transport<E> = (Request, nat) -> Outcome<E>

  /** `config.delay`: a function of the attempt count, or a unit for the quadratic strategy. */
  datatype Delay = Units(unit: int) | Strategy(timeout: nat -> int)

  /** The configuration object; every field may be left undefined. */
  datatype Config<!E> = Config(
    delay: Option<Delay>,
    retries: Option<int>,
    isOK: Option<Response -> bool>,
    shouldRetryError: Option<E -> bool>,
    fetch: Option<Transport<E>>)

  /** The settings a fetcher closes over once its defaults are filled in. */
  datatype Settings<!E> = Settings(
    retries: int,
    timeout: nat -> int,
    isOK: Response -> bool,
    shouldRetryError: E -> bool,
    transport: Transport<E>)

  /** The default delay unit, 30 seconds in milliseconds. */
  const DefaultDelay: int := 30 * 1000

  /** The default retry budget. */
  const DefaultRetries: int := 5

  /** `timeout` (src/index.js:25): a function delay is used as is, a number is the quadratic strategy's unit. */
  function Timeout(delay: Delay): (t: nat -> int)
    ensures delay.Strategy? ==> t == delay.timeout
    ensures delay.Units? ==> t(0) == 0 && t(1) == delay.unit
    ensures delay.Units? && 0 <= delay.unit ==> forall k: nat :: 0 <= t(k)
  {
    match delay
    case Strategy(f) => f
    case Units(unit) => Backoff.Exponential(unit)
  }

  /** The destructuring of src/index.js:16-23; `nodeFetch` stands for `require('node-fetch')`. */
  function Configure<E>(config: Config<E>, nodeFetch: Transport<E>): (s: Settings<E>)
    ensures config.retries.Some? ==> s.retries == config.retries.value
    ensures config.delay.Some? && config.delay.value.Strategy? ==> s.timeout == config.delay.value.timeout
    ensures config.isOK.Some? ==> s.isOK == config.isOK.value
    ensures config.shouldRetryError.Some? ==> s.shouldRetryError == config.shouldRetryError.value
    ensures config.fetch.Some? ==> s.transport == config.fetch.value
  {
    Settings(
      config.retries.GetOr(DefaultRetries),
      Timeout(config.delay.GetOr(Units(DefaultDelay))),
      config.isOK.GetOr((resp: Response) => resp.ok),
      config.shouldRetryError.GetOr((error: E) => true),
      config.fetch.GetOr(nodeFetch))
  }

  /** The most the counter can reach: `retries`, or 0 when `retries` is not positive. */
  function Max0(x: int): nat
  {
    if x > 0 then x else 0
  }

  /**
   * What one `fetch` call does, as the environment sees it: how it settled,
   * the counter afterwards, the delays it asked `setTimeout` for, how many
   * times it called the transport, and how many times it consulted
   * `shouldRetryError`.
   */
  datatype Run<E> = Run(result: Outcome<E>, attempts: nat, waits: seq<int>, calls: nat, checks: nat)

  /**
   * Whether the handlers of src/index.js:39-55, with the counter at `attempts`,
   * settle on `outcome` instead of retrying: the budget is spent, or the
   * response is OK, or `shouldRetryError` declines the error.
   */
  predicate Settles<E>(s: Settings<E>, attempts: int, outcome: Outcome<E>)
    ensures s.retries <= attempts ==> Settles(s, attempts, outcome)
    ensures !Settles(s, attempts, outcome) ==>
      && attempts < s.retries
      && (outcome.Resolved? ==> !s.isOK(outcome.response))
      && (outcome.Rejected? ==> s.shouldRetryError(outcome.error))
  {
    attempts >= s.retries ||
    match outcome
    case Resolved(resp) => s.isOK(resp)
    case Rejected(error) => !s.shouldRetryError(error)
  }

  /*
   * The promise chain of src/index.js:28-57, with the counter threaded through.
   * `n` is the number of transport calls the fetcher made before this point.
   */

  /**
   * `fetch(url, options)` entered with the counter at `a`: call the transport,
   * then run the response handler (lines 39-47) or go straight to the
   * rejection handler (line 48). A rejection coming back from a retry that the
   * response handler started also reaches the rejection handler, which
   * consults the counter and `shouldRetryError` again.
   */
  function Chain<E>(s: Settings<E>, req: Request, a: nat, n: nat): (run: Run<E>)
    ensures a <= run.attempts
    decreases s.retries - a, 2
  {
    var outcome := s.transport(req, n);
    match outcome
    case Resolved(resp) =>
      if a >= s.retries then Run(outcome, a, [], 1, 0)
      else if s.isOK(resp) then Run(outcome, a, [], 1, 0)
      else
        var inner := Retry(s, req, a, n + 1);
        if inner.result.Resolved? then inner.(calls := inner.calls + 1)
        else
          var caught := Catch(s, req, inner.result.error, inner.attempts, n + 1 + inner.calls);
          Run(caught.result, caught.attempts, inner.waits + caught.waits,
              1 + inner.calls + caught.calls, inner.checks + caught.checks)
    case Rejected(error) =>
      var caught := Catch(s, req, error, a, n + 1);
      caught.(calls := caught.calls + 1)
  }

  /** The rejection handler (src/index.js:48-55), entered with the counter at `a`. */
  function Catch<E>(s: Settings<E>, req: Request, error: E, a: nat, n: nat): (run: Run<E>)
    ensures a <= run.attempts
    decreases s.retries - a, 1
  {
    if a >= s.retries then Run(Rejected(error), a, [], 0, 0)
    else if !s.shouldRetryError(error) then Run(Rejected(error), a, [], 0, 1)
    else
      var retried := Retry(s, req, a, n);
      retried.(checks := retried.checks + 1)
  }

  /** `retry` (src/index.js:28-35): bump the counter, wait `timeout(attempts)`, call `fetch` again. */
  function Retry<E>(s: Settings<E>, req: Request, a: nat, n: nat): (run: Run<E>)
    requires a < s.retries
    ensures a < run.attempts
    decreases s.retries - a, 0
  {
    var inner := Chain(s, req, a + 1, n);
    inner.(waits := [s.timeout(a + 1)] + inner.waits)
  }

  /**
   * The same decisions as a flat loop: `outcome` is what the latest transport
   * call returned with the counter at `a`, and `n` is the index of the next
   * transport call. `calls` counts only the calls made after `outcome`. A
   * retry made from the response handler adds one `shouldRetryError`
   * consultation when the run ends in a rejection with budget left, which is
   * what the second look at src/index.js:52 costs in the promise chain.
   */
  function Continue<E>(s: Settings<E>, req: Request, a: nat, n: nat, outcome: Outcome<E>): Run<E>
    decreases s.retries - a
  {
    if Settles(s, a, outcome) then
      Run(outcome, a, [], 0, if a < s.retries && outcome.Rejected? then 1 else 0)
    else
      var rest := Continue(s, req, a + 1, n + 1, s.transport(req, n));
      Run(rest.result, rest.attempts, [s.timeout(a + 1)] + rest.waits, rest.calls + 1,
          rest.checks + if outcome.Rejected? || (rest.result.Rejected? && rest.attempts < s.retries) then 1 else 0)
  }

  /**
   * A flat run ends on an outcome that settles, after bumping the counter
   * once per retry, and the counter never passes the budget.
   */
  lemma {:induction false} ContinueSettles<E>(s: Settings<E>, req: Request, a: nat, n: nat, outcome: Outcome<E>)
    ensures var run := Continue(s, req, a, n, outcome);
      && run.attempts == a + run.calls
      && Settles(s, run.attempts, run.result)
      && (a <= Max0(s.retries) ==> run.attempts <= Max0(s.retries))
    decreases s.retries - a
  {
    if !Settles(s, a, outcome) {
      ContinueSettles(s, req, a + 1, n + 1, s.transport(req, n));
    }
  }

  /** A whole `fetch` call in flat form: the first transport call, then `Continue`. */
  function FlatCall<E>(s: Settings<E>, req: Request, a: nat, n: nat): Run<E>
  {
    var run := Continue(s, req, a, n + 1, s.transport(req, n));
    run.(calls := run.calls + 1)
  }

  /**
   * The promise chain and the flat loop agree on everything the environment
   * sees, including how often `shouldRetryError` runs. In particular the
   * second look at a rejection (src/index.js:48 catching what a retry started
   * at line 46 rejected with) never retries again: that rejection already
   * settled with the same counter, and `shouldRetryError` is pure.
   */
  lemma {:induction false} ChainIsFlat<E>(s: Settings<E>, req: Request, a: nat, n: nat)
    ensures Chain(s, req, a, n) == FlatCall(s, req, a, n)
    decreases s.retries - a
  {
    if a < s.retries && !Settles(s, a, s.transport(req, n)) {
      ChainIsFlat(s, req, a + 1, n + 1);
      if s.transport(req, n).Resolved? {
        RetriedResponseIsFlat(s, req, a, n);
      } else {
        RetriedErrorIsFlat(s, req, a, n);
      }
    }
  }

  /** The step of `ChainIsFlat` for a response that is not OK, retried from line 46. */
  lemma RetriedResponseIsFlat<E>(s: Settings<E>, req: Request, a: nat, n: nat)
    requires a < s.retries && s.transport(req, n).Resolved? && !Settles(s, a, s.transport(req, n))
    requires Chain(s, req, a + 1, n + 1) == FlatCall(s, req, a + 1, n + 1)
    ensures Chain(s, req, a, n) == FlatCall(s, req, a, n)
  {
    ContinueSettles(s, req, a + 1, n + 2, s.transport(req, n + 1));
  }

  /** The step of `ChainIsFlat` for an error that `shouldRetryError` accepts, retried from line 53. */
  lemma RetriedErrorIsFlat<E>(s: Settings<E>, req: Request, a: nat, n: nat)
    requires a < s.retries && s.transport(req, n).Rejected? && !Settles(s, a, s.transport(req, n))
    requires Chain(s, req, a + 1, n + 1) == FlatCall(s, req, a + 1, n + 1)
    ensures Chain(s, req, a, n) == FlatCall(s, req, a, n)
  {
    var caught := Catch(s, req, s.transport(req, n).error, a, n + 1);
    assert caught == Retry(s, req, a, n + 1).(checks := caught.checks);
  }

  /**
   * Bookkeeping of the loop in `Fetcher.Fetch`: the whole flat run `top` is
   * what the loop has done so far (`calls` transport calls, delays `w`,
   * `checks` consultations, `thenRetries` retries from the response handler)
   * followed by the flat run `rest` still to come.
   */
  ghost predicate Accounts<E>(s: Settings<E>, top: Run<E>, rest: Run<E>, calls: nat, w: seq<int>, checks: nat, thenRetries: nat)
  {
    && top.result == rest.result
    && top.attempts == rest.attempts
    && top.calls == calls + rest.calls
    && top.waits == w + rest.waits
    && top.checks == checks + rest.checks
                     + (if rest.result.Rejected? && rest.attempts < s.retries then thenRetries else 0)
  }

  /** One retry of the loop keeps the bookkeeping. */
  lemma AccountsStep<E>(s: Settings<E>, req: Request, top: Run<E>, a: nat, n: nat, outcome: Outcome<E>,
                        calls: nat, w: seq<int>, checks: nat, thenRetries: nat)
    requires !Settles(s, a, outcome)
    requires Accounts(s, top, Continue(s, req, a, n, outcome), calls, w, checks, thenRetries)
    ensures Accounts(s, top, Continue(s, req, a + 1, n + 1, s.transport(req, n)), calls + 1,
                     w + [s.timeout(a + 1)], checks + (if outcome.Rejected? then 1 else 0),
                     thenRetries + (if outcome.Resolved? then 1 else 0))
  {
    var rest := Continue(s, req, a + 1, n + 1, s.transport(req, n));
    assert top.waits == (w + [s.timeout(a + 1)]) + rest.waits;
  }

  /** When the loop settles, the bookkeeping gives the whole run. */
  lemma AccountsStop<E>(s: Settings<E>, req: Request, top: Run<E>, a: nat, n: nat, outcome: Outcome<E>,
                        calls: nat, w: seq<int>, checks: nat, thenRetries: nat)
    requires Settles(s, a, outcome)
    requires Accounts(s, top, Continue(s, req, a, n, outcome), calls, w, checks, thenRetries)
    ensures top.result == outcome && top.attempts == a && top.calls == calls && top.waits == w
    ensures top.checks == checks + (if outcome.Rejected? && a < s.retries then 1 + thenRetries else 0)
  {
  }

  /**
   * One `fetch` call (src/index.js:37-57) as a loop over the transport's
   * outcomes, from a counter at `a0` with `n0` transport calls made before:
   * returns how the call settles, the counter afterwards, the number of
   * transport calls, the delays requested and the `shouldRetryError`
   * consultations, all as the flat run `FlatCall` gives them.
   */
  method Attempt<E>(s: Settings<E>, req: Request, a0: nat, n0: nat)
    returns (result: Outcome<E>, a: nat, calls: nat, seen: seq<int>, consulted: nat)
    ensures var top := FlatCall(s, req, a0, n0);
      && result == top.result && a == top.attempts && calls == top.calls
      && seen == top.waits && consulted == top.checks
  {
    ghost var top := FlatCall(s, req, a0, n0);
    var next: nat, thenRetries := n0 + 1, 0;
    a, calls, seen, consulted := a0, 1, [], 0;
    result := s.transport(req, n0);
    while !Settles(s, a, result)
      invariant Accounts(s, top, Continue(s, req, a, next, result), calls, seen, consulted, thenRetries)
      decreases s.retries - a
    {
      AccountsStep(s, req, top, a, next, result, calls, seen, consulted, thenRetries);
      consulted := consulted + if result.Rejected? then 1 else 0;
      thenRetries := thenRetries + if result.Resolved? then 1 else 0;
      a := a + 1;
      seen := seen + [s.timeout(a)];
      result := s.transport(req, next);
      next, calls := next + 1, calls + 1;
    }
    AccountsStop(s, req, top, a, next, result, calls, seen, consulted, thenRetries);
    if result.Rejected? && a < s.retries {
      consulted := consulted + 1 + thenRetries;
    }
  }

  /**
   * The closure of `fetchRetried`: its settings, the shared counter, and what
   * the environment has seen of it so far (the transport's arguments, the
   * timer delays, the number of `shouldRetryError` consultations).
   */
  class Fetcher<E> {
    const settings: Settings<E>
    var attempts: nat
    var requests: seq<Request>
    var waits: seq<int>
    var checks: nat

    /** The counter never passes the budget. */
    ghost predicate Valid()
      reads this
    {
      attempts <= Max0(settings.retries)
    }

    /** `fetchRetried(config)` (src/index.js:15-27): fill in defaults, start the counter at 0. */
    constructor (config: Config<E>, nodeFetch: Transport<E>)
      ensures settings == Configure(config, nodeFetch)
      ensures attempts == 0 && requests == [] && waits == [] && checks == 0
      ensures Valid()
    {
      settings := Configure(config, nodeFetch);
      attempts := 0;
      requests := [];
      waits := [];
      checks := 0;
    }

    /**
     * `fetch(url, options)` (src/index.js:37-57) as a loop: the counter
     * carries over from earlier calls, every transport call gets the same
     * request, and the call settles exactly as the promise chain does.
     */
    method Fetch(url: string, options: Options) returns (result: Outcome<E>)
      requires Valid()
      modifies this
      ensures Valid()
      ensures var run := Chain(settings, Request(url, options), old(attempts), |old(requests)|);
        && result == run.result
        && attempts == run.attempts
        && requests == old(requests) + seq(run.calls, _ => Request(url, options))
        && waits == old(waits) + run.waits
        && checks == old(checks) + run.checks
    {
      var req := Request(url, options);
      var a, calls, seen, consulted;
      result, a, calls, seen, consulted := Attempt(settings, req, attempts, |requests|);
      ChainIsFlat(settings, req, old(attempts), |old(requests)|);
      ContinueSettles(settings, req, attempts, |requests| + 1, settings.transport(req, |requests|));
      attempts := a;
      requests := requests + seq(calls, _ => req);
      waits := waits + seen;
      checks := checks + consulted;
    }
  }
}
