/**
 * The client's request helper: `fetchWithRetry` and the four wrappers that fix its
 * parameters. The network is an oracle `fetch` giving the outcome of each attempt
 * (numbered from 1); the waits the helper asks for are recorded instead of slept.
 */
module Api {
  import opened JsValues

  /** What one `fetch` call gives: a response with its status, or a thrown exception. */
  datatype Outcome = Resp(status: int) | Exn

  /** How `fetchWithRetry` ends; `FellOff` is the `undefined` it resolves to when no attempt runs. */
  datatype Result = Returned(status: int) | Threw | FellOff

  /** The result, the number of `fetch` calls made, and the waits asked for, in order. */
  datatype Run = Run(result: Result, calls: nat, waits: seq<int>)

  /** `response.ok`: a status in the range 200-299. */
  predicate IsOk(status: int)
  {
    200 <= status <= 299
  }

  /** A response that is handed back at once, whatever attempt it comes on. */
  predicate Final(status: int)
  {
    IsOk(status) || status < 500
  }

  /** The attempts from `attempt` to `maxRetries`, as the loop makes them. */
  function Attempts(fetch: int -> Outcome, attempt: int, maxRetries: int, delay: int): (r: Run)
    decreases if attempt <= maxRetries then maxRetries - attempt + 1 else 0
  {
    if attempt > maxRetries then Run(FellOff, 0, [])
    else
      match fetch(attempt)
      case Resp(s) =>
        if Final(s) || attempt == maxRetries then Run(Returned(s), 1, [])
        else
          var rest := Attempts(fetch, attempt + 1, maxRetries, delay);
          Run(rest.result, rest.calls + 1, rest.waits)
      case Exn =>
        if attempt == maxRetries then Run(Threw, 1, [])
        else
          var rest := Attempts(fetch, attempt + 1, maxRetries, delay);
          Run(rest.result, rest.calls + 1, [delay * attempt] + rest.waits)
  }

  /** `fetchWithRetry(url, options, maxRetries, delay)`. */
  method FetchWithRetry(fetch: int -> Outcome, maxRetries: int, delay: int)
    returns (result: Result, calls: nat, waits: seq<int>)
    ensures Run(result, calls, waits) == Attempts(fetch, 1, maxRetries, delay)
    ensures maxRetries >= 1 ==> !result.FellOff? && 1 <= calls <= maxRetries
    ensures maxRetries < 1 ==> result == FellOff && calls == 0
  {
    calls, waits := 0, [];
    var attempt := 1;
    while attempt <= maxRetries
      invariant 1 <= attempt && calls == attempt - 1
      invariant attempt <= maxRetries + 1 || attempt == 1
      invariant var rest := Attempts(fetch, attempt, maxRetries, delay);
        Run(rest.result, calls + rest.calls, waits + rest.waits) == Attempts(fetch, 1, maxRetries, delay)
      decreases maxRetries - attempt + 1
    {
      var outcome := fetch(attempt);
      calls := calls + 1;
      match outcome {
        case Resp(s) =>
          if Final(s) {
            result := Returned(s);
            assert waits + [] == waits;
            CallsBounded(fetch, 1, maxRetries, delay);
            return;
          }
          if attempt == maxRetries {
            result := Returned(s);
            assert waits + [] == waits;
            CallsBounded(fetch, 1, maxRetries, delay);
            return;
          }
        case Exn =>
          if attempt == maxRetries {
            result := Threw;
            assert waits + [] == waits;
            CallsBounded(fetch, 1, maxRetries, delay);
            return;
          }
          waits := waits + [delay * attempt];
      }
      attempt := attempt + 1;
    }
    result := FellOff;
    assert waits + [] == waits;
    CallsBounded(fetch, 1, maxRetries, delay);
  }

  // ---------------------------------------------------------------------------
  // Properties of the retry policy

  /** From attempt `attempt` on, at least one and at most the remaining attempts run, and the loop ends in a return or a throw. */
  lemma {:induction false} CallsBounded(fetch: int -> Outcome, attempt: int, maxRetries: int, delay: int)
    ensures var r := Attempts(fetch, attempt, maxRetries, delay);
      (attempt <= maxRetries ==> !r.result.FellOff? && 1 <= r.calls <= maxRetries - attempt + 1)
      && (attempt > maxRetries ==> r.result == FellOff && r.calls == 0)
    decreases if attempt <= maxRetries then maxRetries - attempt + 1 else 0
  {
    if attempt < maxRetries {
      CallsBounded(fetch, attempt + 1, maxRetries, delay);
    }
  }

  /** A response that is ok or below 500 on the first attempt is returned with no retry and no wait. */
  lemma FinalResponseReturnedAtOnce(fetch: int -> Outcome, maxRetries: int, delay: int)
    requires maxRetries >= 1 && fetch(1).Resp? && Final(fetch(1).status)
    ensures Attempts(fetch, 1, maxRetries, delay) == Run(Returned(fetch(1).status), 1, [])
  {
  }

  /** The waits asked for between attempts `from` and `to` (exclusive): `delay * k` after each exception on attempt k. */
  function ExceptionWaits(fetch: int -> Outcome, from: int, to: int, delay: int): (w: seq<int>)
    ensures |w| <= if from < to then to - from else 0
    decreases if from < to then to - from else 0
  {
    if from >= to then []
    else (if fetch(from).Exn? then [delay * from] else []) + ExceptionWaits(fetch, from + 1, to, delay)
  }

  /**
   * How a run ends: the last attempt made is the one that decided the result, every attempt
   * before it was a 5xx or an exception, and the waits are exactly those the exceptions
   * before the last attempt ask for (a 5xx retries with no wait).
   */
  lemma {:induction false} RunShape(fetch: int -> Outcome, attempt: int, maxRetries: int, delay: int)
    requires attempt <= maxRetries
    ensures var r := Attempts(fetch, attempt, maxRetries, delay);
      var last := attempt + r.calls - 1;
      && attempt <= last <= maxRetries
      && (forall k :: attempt <= k < last ==> fetch(k).Exn? || !Final(fetch(k).status))
      && r.waits == ExceptionWaits(fetch, attempt, last, delay)
      && (r.result.Returned? ==> fetch(last) == Resp(r.result.status) && (Final(r.result.status) || last == maxRetries))
      && (r.result.Threw? ==> fetch(last).Exn? && last == maxRetries)
    decreases maxRetries - attempt
  {
    var r := Attempts(fetch, attempt, maxRetries, delay);
    var stops := match fetch(attempt) case Resp(s) => Final(s) || attempt == maxRetries case Exn => attempt == maxRetries;
    CallsBounded(fetch, attempt, maxRetries, delay);
    if !stops {
      RunShape(fetch, attempt + 1, maxRetries, delay);
      CallsBounded(fetch, attempt + 1, maxRetries, delay);
    }
  }

  /** An exception on every attempt: every attempt is made, and the last exception is thrown. */
  lemma {:induction false} AlwaysFailingThrows(fetch: int -> Outcome, attempt: int, maxRetries: int, delay: int)
    requires attempt <= maxRetries
    requires forall k :: attempt <= k <= maxRetries ==> fetch(k).Exn?
    ensures var r := Attempts(fetch, attempt, maxRetries, delay);
      r.result == Threw && r.calls == maxRetries - attempt + 1
    decreases maxRetries - attempt
  {
    if attempt < maxRetries {
      AlwaysFailingThrows(fetch, attempt + 1, maxRetries, delay);
    }
  }

  // ---------------------------------------------------------------------------
  // The wrappers

  /** The `options` argument: method (`verb`), `Content-Type` header and body (the value that is stringified). */
  datatype Options = Options(verb: Option<string>, contentType: Option<string>, body: Option<Js>)

  /** A call of `fetchWithRetry` as a wrapper makes it. */
  datatype Call = Call(url: string, options: Options, maxRetries: int, delay: int)

  const Json := Some("application/json")

  function ApiGet(url: string): (c: Call)
    ensures c.url == url && c.options == Options(None, None, None)
  {
    Call(url, Options(None, None, None), 3, 1000)
  }

  function ApiPost(url: string, data: Js): (c: Call)
    ensures c.url == url && c.options == Options(Some("POST"), Json, Some(data))
  {
    Call(url, Options(Some("POST"), Json, Some(data)), 3, 1000)
  }

  function ApiPut(url: string, data: Js): (c: Call)
    ensures c.url == url && c.options == Options(Some("PUT"), Json, Some(data))
  {
    Call(url, Options(Some("PUT"), Json, Some(data)), 3, 1000)
  }

  function ApiDelete(url: string): (c: Call)
    ensures c.url == url && c.options == Options(Some("DELETE"), None, None)
  {
    Call(url, Options(Some("DELETE"), None, None), 3, 1000)
  }

  /** Whichever wrapper made the call: one to three attempts, and at most two waits, of 1 s then 2 s. */
  lemma WrapperPolicy(c: Call, fetch: int -> Outcome)
    requires c == ApiGet(c.url) || (c.options.body.Some? && c == ApiPost(c.url, c.options.body.value))
          || (c.options.body.Some? && c == ApiPut(c.url, c.options.body.value)) || c == ApiDelete(c.url)
    ensures var r := Attempts(fetch, 1, c.maxRetries, c.delay);
      && !r.result.FellOff? && 1 <= r.calls <= 3
      && |r.waits| <= 2
      && forall i :: 0 <= i < |r.waits| ==> r.waits[i] == 1000 * (i + 1) || (i == 0 && r.waits[i] == 2000)
  {
    CallsBounded(fetch, 1, 3, 1000);
    RunShape(fetch, 1, 3, 1000);
  }
}
