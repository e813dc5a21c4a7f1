/**
  The REST client: the retry loop behind every request, the error object it
  throws, the guards and URL builders of the service methods, the per-resource
  wrappers for tasks and users, and the mapping from a caught error to the
  message the store shows.

  A request's environment is a function `world` giving what fetch did on the
  k-th attempt; timers are not run, the loop returns the list of back-off
  delays it would have waited.
 */
module Api {
  import opened Js
  import Lists

  // ---------------------------------------------------------------------------
  // One fetch attempt

  datatype Method = GET | POST | PUT | PATCH | DELETE

  /** A thrown JavaScript `Error`: its `name` and `message`. */
  datatype Error = Error(name: string, message: string)

  /** A parsed JSON body, kept as its text. */
  datatype JsonDoc = JsonDoc(text: string)

  /** What fetch did on one attempt. `Thrown` is a rejected fetch (a network
      failure or an abort). `Responded` carries the status line, the
      content-type header, what `response.text()` resolves to (`None` when it
      rejects) and what `response.json()` gives. */
  datatype Attempt =
    | Thrown(error: Error)
    | Responded(status: nat, statusText: string, contentType: Option<string>,
                text: Option<string>, json: Result<JsonDoc, Error>)

  /** What a successful request resolves to: the parsed body, or `{}` for a
      DELETE whose response is not JSON. */
  datatype Payload = Data(doc: JsonDoc) | EmptyObject

  /** The object `request` throws once it gives up. */
  datatype ApiError = ApiError(message: string, status: int, endpoint: string)

  /** The record of one request: fetches made, delays waited between them
      (milliseconds), and the outcome. */
  datatype Run = Run(attempts: nat, delays: seq<nat>, outcome: Result<Payload, ApiError>)

  const DefaultRetries: nat := 3

  predicate IsOk(status: nat) { 200 <= status <= 299 }

  /** The message thrown for a response that is not ok. */
  function HttpMessage(status: nat, statusText: string, body: string): string
  {
    "API Error " + NatToString(status) + ": " + statusText + ". " + body
  }

  /** `response.text().catch(() => "Unknown error")`. */
  function ErrorBody(text: Option<string>): string
  {
    match text
    case None => "Unknown error"
    case Some(t) => t
  }

  predicate IsJson(contentType: Option<string>)
  {
    contentType.Some? && Contains(contentType.value, "application/json")
  }

  /** The body of the `try` block for one attempt: only an ok response can
      succeed; one whose status is not ok fails with the status line and the
      body in the message; `{}` is the answer to a DELETE that is not JSON
      and to nothing else. */
  function Step(a: Attempt, m: Method): (r: Result<Payload, Error>)
    ensures r.Ok? ==> a.Responded? && IsOk(a.status)
    ensures a.Thrown? ==> r == Err(a.error)
    ensures a.Responded? && !IsOk(a.status) ==>
      r == Err(Error("Error", HttpMessage(a.status, a.statusText, ErrorBody(a.text))))
    ensures r == Ok(EmptyObject) <==> (a.Responded? && IsOk(a.status) && !IsJson(a.contentType) && m == DELETE)
    ensures a.Responded? && IsOk(a.status) && IsJson(a.contentType) ==>
      (r.Ok? <==> a.json.Ok?) && (a.json.Ok? ==> r == Ok(Data(a.json.value)))
    ensures a.Responded? && IsOk(a.status) && IsJson(a.contentType) && a.json.Err? ==> r == Err(a.json.error)
    ensures a.Responded? && IsOk(a.status) && !IsJson(a.contentType) && m != DELETE ==>
      r == Err(Error("Error", "Invalid JSON response"))
  {
    match a
    case Thrown(e) => Err(e)
    case Responded(status, statusText, contentType, text, json) =>
      if !IsOk(status) then Err(Error("Error", HttpMessage(status, statusText, ErrorBody(text))))
      else if IsJson(contentType) then
        (match json
         case Ok(doc) => Ok(Data(doc))
         case Err(e) => Err(e))
      else if m == DELETE then Ok(EmptyObject)
      else Err(Error("Error", "Invalid JSON response"))
  }

  /** The failures after which the loop waits and tries again. */
  predicate Retryable(e: Error)
  {
    e.name == "AbortError" || Contains(e.message, "fetch") || Contains(e.message, "Network")
  }

  /** The failures that end the loop at once. */
  predicate ClientError(e: Error)
  {
    Contains(e.message, "Error 4")
  }

  function Pow2(k: nat): (r: nat)
    ensures r >= 1
  {
    if k == 0 then 1 else 2 * Pow2(k - 1)
  }

  /** Powers of two add their exponents, so each back-off doubles the one
      before it. */
  lemma {:induction false} Pow2Add(a: nat, b: nat)
    ensures Pow2(a + b) == Pow2(a) * Pow2(b)
    decreases b
  {
    if b > 0 {
      Pow2Add(a, b - 1);
      calc {
        Pow2(a + b);
        2 * Pow2(a + (b - 1));
        2 * (Pow2(a) * Pow2(b - 1));
        Pow2(a) * (2 * Pow2(b - 1));
      }
    }
  }

  /** `Math.pow(2, attempt) * 1000`. */
  function Backoff(k: nat): nat
  {
    Pow2(k) * 1000
  }

  // ---------------------------------------------------------------------------
  // The status carried by the thrown ApiError

  /** `/Error (\d+)/` can match at position `i`. */
  predicate MatchesAt(s: string, i: int)
  {
    0 <= i && i + 7 <= |s| && s[i..i + 6] == "Error " && IsDigit(s[i + 6])
  }

  /** The leftmost position from `i` on where the pattern matches, or -1. */
  function MatchFrom(s: string, i: nat): (r: int)
    requires i <= |s|
    ensures r == -1 || (i <= r < |s| && MatchesAt(s, r))
    ensures r == -1 <==> forall j :: i <= j < |s| ==> !MatchesAt(s, j)
    ensures r >= 0 ==> forall j :: i <= j < r ==> !MatchesAt(s, j)
    decreases |s| - i
  {
    if i == |s| then -1 else if MatchesAt(s, i) then i else MatchFrom(s, i + 1)
  }

  /** The longest prefix of decimal digits: what `\d+` consumes. */
  function DigitRun(s: string): (r: string)
    ensures r <= s
    ensures forall j :: 0 <= j < |r| ==> IsDigit(r[j])
    ensures |r| == |s| || !IsDigit(s[|r|])
  {
    if s != [] && IsDigit(s[0]) then [s[0]] + DigitRun(s[1..]) else []
  }

  lemma {:induction false} DigitRunOf(d: string, rest: string)
    requires forall j :: 0 <= j < |d| ==> IsDigit(d[j])
    requires rest == [] || !IsDigit(rest[0])
    ensures DigitRun(d + rest) == d
    decreases |d|
  {
    if d != [] {
      assert (d + rest)[1..] == d[1..] + rest;
      DigitRunOf(d[1..], rest);
    } else {
      assert d + rest == rest;
    }
  }

  /** `message.includes("Error") ? parseInt(message.match(/Error (\d+)/)?.[1] || "500") : 500`. */
  function StatusOf(message: string): (r: int)
    ensures r >= 0
    ensures !Contains(message, "Error") ==> r == 500
    ensures (forall j :: 0 <= j < |message| ==> !MatchesAt(message, j)) ==> r == 500
  {
    if Contains(message, "Error") then
      var i := MatchFrom(message, 0);
      if i < 0 then 500 else ParseDigits(DigitRun(message[i + 6..]))
    else 500
  }

  function ToApiError(e: Error, endpoint: string): ApiError
  {
    ApiError(e.message, StatusOf(e.message), endpoint)
  }

  /** The status of a failed response is read back from the message it was
      written into, whatever the status text and body say. */
  lemma StatusOfHttpMessage(status: nat, statusText: string, body: string)
    ensures StatusOf(HttpMessage(status, statusText, body)) == status
  {
    var d := NatToString(status);
    var rest := ": " + statusText + ". " + body;
    var msg := HttpMessage(status, statusText, body);
    var head := "API Error ";
    assert msg == head + (d + rest);
    assert msg[..10] == head && msg[10..] == d + rest;
    FirstMatchAt(msg, 4);
    ContainsAt(msg, "Error", 4);
    DigitRunOf(d, rest);
    ParseNatToString(status);
  }

  /** A match at `i` with no `E` before it is the leftmost one. */
  lemma FirstMatchAt(s: string, i: nat)
    requires MatchesAt(s, i)
    requires forall j :: 0 <= j < i ==> s[j] != 'E'
    ensures MatchFrom(s, 0) == i
  {
    forall j | 0 <= j < i ensures !MatchesAt(s, j) {
      if j + 7 <= |s| {
        assert s[j..j + 6][0] == s[j];
      }
    }
  }

  // ---------------------------------------------------------------------------
  // The retry loop

  /** Reference definition of the waits: one back-off before each retry that
      follows a retryable failure among attempts `k .. n-1`. */
  function Waits(tries: nat -> Result<Payload, Error>, k: nat, n: nat): seq<nat>
    decreases n - k
  {
    if k >= n then []
    else if tries(k).Err? && Retryable(tries(k).error) then [Backoff(k)] + Waits(tries, k + 1, n)
    else Waits(tries, k + 1, n)
  }

  /** The outcome of each attempt: the `try` block run on what fetch did. */
  function Outcomes(world: nat -> Attempt, m: Method): nat -> Result<Payload, Error>
  {
    (j: nat) => Step(world(j), m)
  }

  /** The loop from attempt `k` on, having waited `delays` so far, where
      `tries(j)` is the outcome of attempt `j`. */
  function RunFrom(tries: nat -> Result<Payload, Error>, endpoint: string, retries: nat, k: nat, delays: seq<nat>): (r: Run)
    requires k <= retries
    ensures k < r.attempts <= retries + 1
    decreases retries - k
  {
    match tries(k)
    case Ok(p) => Run(k + 1, delays, Ok(p))
    case Err(e) =>
      if k < retries && Retryable(e) then RunFrom(tries, endpoint, retries, k + 1, delays + [Backoff(k)])
      else if ClientError(e) || k == retries then Run(k + 1, delays, Err(ToApiError(e, endpoint)))
      else RunFrom(tries, endpoint, retries, k + 1, delays)
  }

  /** How a request ends on its last attempt: with that attempt's payload, or
      with its error turned into an `ApiError` for the endpoint. */
  function Settle(o: Result<Payload, Error>, endpoint: string): Result<Payload, ApiError>
  {
    match o
    case Ok(p) => Ok(p)
    case Err(e) => Err(ToApiError(e, endpoint))
  }

  /** The loop stops at the first success: every attempt before the last one
      failed, and the outcome is settled by the last attempt. */
  lemma {:induction false} RunOutcome(tries: nat -> Result<Payload, Error>, endpoint: string, retries: nat, k: nat, delays: seq<nat>)
    requires k <= retries
    ensures var r := RunFrom(tries, endpoint, retries, k, delays);
      r.outcome == Settle(tries(r.attempts - 1), endpoint)
    ensures var r := RunFrom(tries, endpoint, retries, k, delays);
      forall j :: k <= j < r.attempts - 1 ==> tries(j).Err?
    decreases retries - k
  {
    var r := RunFrom(tries, endpoint, retries, k, delays);
    if tries(k).Err? {
      var e := tries(k).error;
      if k < retries && Retryable(e) {
        assert r == RunFrom(tries, endpoint, retries, k + 1, delays + [Backoff(k)]);
        RunOutcome(tries, endpoint, retries, k + 1, delays + [Backoff(k)]);
      } else if !ClientError(e) && k < retries {
        assert r == RunFrom(tries, endpoint, retries, k + 1, delays);
        RunOutcome(tries, endpoint, retries, k + 1, delays);
      } else {
        assert r == Run(k + 1, delays, Err(ToApiError(e, endpoint)));
      }
    } else {
      assert r == Run(k + 1, delays, Ok(tries(k).value));
    }
  }

  /** The loop waits exactly the `Waits` of the attempts it retried. */
  lemma {:induction false} RunDelays(tries: nat -> Result<Payload, Error>, endpoint: string, retries: nat, k: nat, delays: seq<nat>)
    requires k <= retries
    ensures var r := RunFrom(tries, endpoint, retries, k, delays);
      r.delays == delays + Waits(tries, k, r.attempts - 1)
    decreases retries - k
  {
    var r := RunFrom(tries, endpoint, retries, k, delays);
    if tries(k).Err? {
      var e := tries(k).error;
      if k < retries && Retryable(e) {
        assert r == RunFrom(tries, endpoint, retries, k + 1, delays + [Backoff(k)]);
        RunDelays(tries, endpoint, retries, k + 1, delays + [Backoff(k)]);
        assert Waits(tries, k, r.attempts - 1) == [Backoff(k)] + Waits(tries, k + 1, r.attempts - 1);
        assert delays + [Backoff(k)] + Waits(tries, k + 1, r.attempts - 1) ==
               delays + Waits(tries, k, r.attempts - 1);
      } else if !ClientError(e) && k < retries {
        assert r == RunFrom(tries, endpoint, retries, k + 1, delays);
        RunDelays(tries, endpoint, retries, k + 1, delays);
        assert Waits(tries, k, r.attempts - 1) == Waits(tries, k + 1, r.attempts - 1);
      } else {
        assert r == Run(k + 1, delays, Err(ToApiError(e, endpoint)));
        assert Waits(tries, k, k) == [];
      }
    } else {
      assert r == Run(k + 1, delays, Ok(tries(k).value));
      assert Waits(tries, k, k) == [];
    }
  }

  /** The loop gives up on attempt `k` with retries left only on a client
      error that is not retryable. */
  predicate StopsEarly(e: Error)
  {
    ClientError(e) && !Retryable(e)
  }

  /** A request that fails before using up its retries stopped on a client
      error that was not retryable. */
  lemma {:induction false} RunEarlyStop(tries: nat -> Result<Payload, Error>, endpoint: string, retries: nat, k: nat, delays: seq<nat>)
    requires k <= retries
    ensures var r := RunFrom(tries, endpoint, retries, k, delays);
      r.outcome.Err? && r.attempts <= retries ==> tries(r.attempts - 1).Err? && StopsEarly(tries(r.attempts - 1).error)
    decreases retries - k
  {
    if tries(k).Err? {
      var e := tries(k).error;
      var r := RunFrom(tries, endpoint, retries, k, delays);
      if k < retries && Retryable(e) {
        assert r == RunFrom(tries, endpoint, retries, k + 1, delays + [Backoff(k)]);
        RunEarlyStop(tries, endpoint, retries, k + 1, delays + [Backoff(k)]);
      } else if !ClientError(e) && k < retries {
        assert r == RunFrom(tries, endpoint, retries, k + 1, delays);
        RunEarlyStop(tries, endpoint, retries, k + 1, delays);
      } else {
        assert r.attempts == k + 1;
      }
    }
  }

  /** `request(endpoint, { method })`: the `for` loop over the attempts with its
      `continue` after a back-off and its `break` on a client error. */
  method Request(world: nat -> Attempt, m: Method, endpoint: string, retries: nat) returns (run: Run)
    ensures run == RunFrom(Outcomes(world, m), endpoint, retries, 0, [])
  {
    ghost var tries := Outcomes(world, m);
    var attempt: nat := 0;
    var made: nat := 0;
    var delays: seq<nat> := [];
    var lastError := Error("", "");
    while attempt <= retries
      invariant attempt <= retries + 1 && made == attempt
      invariant attempt <= retries ==>
        RunFrom(tries, endpoint, retries, attempt, delays) == RunFrom(tries, endpoint, retries, 0, [])
      invariant attempt == retries + 1 ==>
        Run(made, delays, Err(ToApiError(lastError, endpoint))) == RunFrom(tries, endpoint, retries, 0, [])
      decreases retries + 1 - attempt
    {
      made := attempt + 1;
      var outcome := Step(world(attempt), m);
      if outcome.Ok? {
        return Run(made, delays, Ok(outcome.value));
      }
      lastError := outcome.error;
      if attempt < retries && Retryable(lastError) {
        delays := delays + [Backoff(attempt)];
        attempt := attempt + 1;
        continue;
      }
      if ClientError(lastError) {
        break;
      }
      attempt := attempt + 1;
    }
    run := Run(made, delays, Err(ToApiError(lastError, endpoint)));
  }

  // ---------------------------------------------------------------------------
  // Properties of the loop

  function Sum(s: seq<nat>): nat
  {
    if s == [] then 0 else s[0] + Sum(s[1..])
  }

  lemma {:induction false} Pow2Monotone(j: nat, k: nat)
    requires j <= k
    ensures Pow2(j) <= Pow2(k)
    decreases k - j
  {
    if j < k {
      Pow2Monotone(j, k - 1);
    }
  }

  /** The waits between attempts `k` and `n` add up to at most
      `1000 * (2^n - 2^k)` milliseconds. */
  lemma {:induction false} WaitsBound(tries: nat -> Result<Payload, Error>, k: nat, n: nat)
    requires k <= n
    ensures Sum(Waits(tries, k, n)) <= 1000 * (Pow2(n) - Pow2(k))
    ensures |Waits(tries, k, n)| <= n - k
    decreases n - k
  {
    if k < n {
      WaitsBound(tries, k + 1, n);
      var w := Waits(tries, k + 1, n);
      if tries(k).Err? && Retryable(tries(k).error) {
        assert ([Backoff(k)] + w)[1..] == w;
      }
    }
  }

  /** A request makes at most `retries + 1` fetches and sleeps at most
      `1000 * (2^retries - 1)` milliseconds in total: 7 seconds with the
      default three retries. */
  lemma TotalWait(tries: nat -> Result<Payload, Error>, endpoint: string, retries: nat)
    ensures 1 <= RunFrom(tries, endpoint, retries, 0, []).attempts <= retries + 1
    ensures Sum(RunFrom(tries, endpoint, retries, 0, []).delays) <= 1000 * (Pow2(retries) - 1)
    ensures retries == DefaultRetries ==> Sum(RunFrom(tries, endpoint, retries, 0, []).delays) <= 7000
  {
    var r := RunFrom(tries, endpoint, retries, 0, []);
    RunDelays(tries, endpoint, retries, 0, []);
    assert [] + Waits(tries, 0, r.attempts - 1) == Waits(tries, 0, r.attempts - 1);
    WaitsBound(tries, 0, r.attempts - 1);
    Pow2Monotone(r.attempts - 1, retries);
  }

  /** `Backoffs(k, n)`: `2^k, ..., 2^(n-1)` seconds, in milliseconds. */
  function Backoffs(k: nat, n: nat): seq<nat>
    decreases n - k
  {
    if k >= n then [] else [Backoff(k)] + Backoffs(k + 1, n)
  }

  /** When every attempt fails in a retryable way (the network is down, or
      each attempt is aborted) the loop makes all `retries + 1` attempts and
      backs off before each retry: 1, 2 and 4 seconds by default. */
  lemma {:induction false} NetworkDown(tries: nat -> Result<Payload, Error>, endpoint: string, retries: nat, k: nat, delays: seq<nat>)
    requires k <= retries
    requires forall j :: k <= j <= retries ==> tries(j).Err? && Retryable(tries(j).error)
    ensures RunFrom(tries, endpoint, retries, k, delays) ==
      Run(retries + 1, delays + Backoffs(k, retries), Err(ToApiError(tries(retries).error, endpoint)))
    decreases retries - k
  {
    if k < retries {
      NetworkDown(tries, endpoint, retries, k + 1, delays + [Backoff(k)]);
      assert delays + [Backoff(k)] + Backoffs(k + 1, retries) == delays + Backoffs(k, retries);
    }
  }

  lemma DefaultBackoffs()
    ensures Backoffs(0, DefaultRetries) == [1000, 2000, 4000]
  {
    assert Pow2(2) == 4;
  }

  /** When every attempt fails without being retryable or a client error (a
      5xx response whose status text and body mention neither "fetch" nor
      "Network", or an ok response that is not JSON), the loop makes all
      `retries + 1` attempts back to back, without waiting. */
  lemma {:induction false} FailsWithoutWaiting(tries: nat -> Result<Payload, Error>, endpoint: string, retries: nat, k: nat, delays: seq<nat>)
    requires k <= retries
    requires forall j :: k <= j <= retries ==>
      tries(j).Err? && !Retryable(tries(j).error) && !ClientError(tries(j).error)
    ensures RunFrom(tries, endpoint, retries, k, delays) ==
      Run(retries + 1, delays, Err(ToApiError(tries(retries).error, endpoint)))
    decreases retries - k
  {
    if k < retries {
      FailsWithoutWaiting(tries, endpoint, retries, k + 1, delays);
    }
  }

  /** The message of a failed response can only look retryable through its
      status text or body. */
  lemma HttpMessageRetryable(status: nat, statusText: string, body: string)
    ensures Retryable(Error("Error", HttpMessage(status, statusText, body))) ==>
      Contains(statusText, "fetch") || Contains(body, "fetch") ||
      Contains(statusText, "Network") || Contains(body, "Network")
  {
    var head := "API Error " + NatToString(status);
    assert 'f' !in head && 'N' !in head;
    NotContainsWithout(head, "fetch", 0);
    NotContainsWithout(head, "Network", 0);
    var left := head + ": " + statusText;
    ContainsAcross(head, ": ", statusText, "fetch");
    ContainsAcross(head, ": ", statusText, "Network");
    ContainsAcross(left, ". ", body, "fetch");
    ContainsAcross(left, ". ", body, "Network");
  }

  lemma LeadingFour(status: nat)
    requires 400 <= status <= 499
    ensures NatToString(status)[0] == '4'
  {
    assert NatToString(status) == NatToString(status / 10) + [DigitChar(status % 10)];
    assert NatToString(status / 10) == NatToString(status / 100) + [DigitChar(status / 10 % 10)];
    assert status / 100 == 4;
  }

  /** A 4xx response on attempt `k` ends the request there, with the status
      recovered from the message, unless its text asks for a retry. */
  lemma ClientErrorStops(world: nat -> Attempt, m: Method, endpoint: string, retries: nat, k: nat, delays: seq<nat>)
    requires k <= retries
    requires world(k).Responded? && 400 <= world(k).status <= 499
    requires !Contains(world(k).statusText, "fetch") && !Contains(world(k).statusText, "Network")
    requires !Contains(ErrorBody(world(k).text), "fetch") && !Contains(ErrorBody(world(k).text), "Network")
    ensures RunFrom(Outcomes(world, m), endpoint, retries, k, delays) ==
      Run(k + 1, delays, Err(ApiError(HttpMessage(world(k).status, world(k).statusText, ErrorBody(world(k).text)),
                                      world(k).status, endpoint)))
  {
    var a := world(k);
    var msg := HttpMessage(a.status, a.statusText, ErrorBody(a.text));
    HttpMessageRetryable(a.status, a.statusText, ErrorBody(a.text));
    LeadingFour(a.status);
    assert msg[4..11] == "Error 4";
    ContainsAt(msg, "Error 4", 4);
    StatusOfHttpMessage(a.status, a.statusText, ErrorBody(a.text));
  }

  /** The failure of an ok response that is not JSON is neither retried nor a
      client error, and is reported with status 500. */
  lemma InvalidJsonFailure(endpoint: string)
    ensures !Retryable(Error("Error", "Invalid JSON response"))
    ensures !ClientError(Error("Error", "Invalid JSON response"))
    ensures ToApiError(Error("Error", "Invalid JSON response"), endpoint) ==
      ApiError("Invalid JSON response", 500, endpoint)
  {
    InvalidJsonNotRetryable();
    InvalidJsonLacks("Error 4", 0);
    InvalidJsonLacks("Error", 0);
  }

  lemma InvalidJsonNotRetryable()
    ensures !Retryable(Error("Error", "Invalid JSON response"))
  {
    assert |"Error"| != |"AbortError"|;
    InvalidJsonLacksFetch();
    InvalidJsonLacks("Network", 3);
  }

  lemma InvalidJsonLacksFetch()
    ensures !Contains("Invalid JSON response", "fetch")
  {
    InvalidJsonLacks("fetch", 0);
  }

  lemma InvalidJsonLacks(sub: string, k: nat)
    requires k < |sub| && (sub[k] == 'f' || sub[k] == 'w' || sub[k] == 'E')
    ensures !Contains("Invalid JSON response", sub)
  {
    var msg := "Invalid JSON response";
    assert msg == ['I', 'n', 'v', 'a', 'l', 'i', 'd', ' ', 'J', 'S', 'O', 'N', ' ',
                   'r', 'e', 's', 'p', 'o', 'n', 's', 'e'];
    NotContainsWithout(msg, sub, k);
  }

  /** An ok response that is not JSON: a `DELETE` succeeds with `{}` on the
      first attempt, any other method fails on every attempt with status 500
      and without waiting between attempts. */
  lemma NonJsonResponse(world: nat -> Attempt, m: Method, endpoint: string, retries: nat)
    requires forall j :: world(j).Responded? && IsOk(world(j).status) && !IsJson(world(j).contentType)
    ensures m == DELETE ==> RunFrom(Outcomes(world, m), endpoint, retries, 0, []) == Run(1, [], Ok(EmptyObject))
    ensures m != DELETE ==> (RunFrom(Outcomes(world, m), endpoint, retries, 0, []) ==
      Run(retries + 1, [], Err(ApiError("Invalid JSON response", 500, endpoint))))
  {
    if m != DELETE {
      NonJsonRejected(Outcomes(world, m), endpoint, retries);
    }
  }

  lemma NonJsonRejected(tries: nat -> Result<Payload, Error>, endpoint: string, retries: nat)
    requires forall j :: tries(j) == Err(Error("Error", "Invalid JSON response"))
    ensures RunFrom(tries, endpoint, retries, 0, []) ==
      Run(retries + 1, [], Err(ApiError("Invalid JSON response", 500, endpoint)))
  {
    InvalidJsonFailure(endpoint);
    FailsWithoutWaiting(tries, endpoint, retries, 0, []);
  }

  // ---------------------------------------------------------------------------
  // The message the store shows for a caught error

  /** A caught value: an object with a `message` (an `ApiError`, which has a
      status, or a plain `Error`, which has none), or anything else. */
  datatype Caught = ErrorObject(message: string, status: Option<int>) | NotAnError

  function FromApiError(e: ApiError): Caught
  {
    ErrorObject(e.message, Some(e.status))
  }

  /** The fixed text for the statuses `handleApiError` knows. */
  function StatusText(status: int): Option<string>
  {
    if status == 400 then Some("Invalid request data")
    else if status == 401 then Some("Authentication required")
    else if status == 403 then Some("Access denied")
    else if status == 404 then Some("Resource not found")
    else if status == 429 then Some("Too many requests. Please try again later")
    else if status == 500 then Some("Server error. Please try again later")
    else None
  }

  function HandleApiError(c: Caught): (r: string)
    ensures r != ""
    ensures c.NotAnError? ==> r == "Network error. Please check your connection"
    ensures c.ErrorObject? && c.status.Some? && StatusText(c.status.value).Some? ==> r == StatusText(c.status.value).value
    ensures c.ErrorObject? && (c.status.None? || StatusText(c.status.value).None?) ==>
      r == (if c.message != "" then c.message else "An unexpected error occurred")
  {
    match c
    case NotAnError => "Network error. Please check your connection"
    case ErrorObject(message, status) =>
      if status.Some? && StatusText(status.value).Some? then StatusText(status.value).value
      else if message != "" then message
      else "An unexpected error occurred"
  }

  /** What the user reads after a failed response: the fixed text for a known
      status, otherwise the raw "API Error ..." message. */
  lemma ShownForHttpFailure(status: nat, statusText: string, body: string, endpoint: string)
    ensures HandleApiError(FromApiError(ToApiError(Error("Error", HttpMessage(status, statusText, body)), endpoint))) ==
      if StatusText(status).Some? then StatusText(status).value else HttpMessage(status, statusText, body)
  {
    StatusOfHttpMessage(status, statusText, body);
  }

  // ---------------------------------------------------------------------------
  // Service methods: guards and request plans

  /** A query-parameter record, keys in insertion order. */
  type Params = seq<(string, string)>

  /** The request a service method hands to the loop. */
  datatype Plan = Plan(path: string, verb: Method, body: Option<Fields>)

  /** One `k=v` piece of a query string (without percent-encoding). */
  function Piece(kv: (string, string)): string
  {
    kv.0 + "=" + kv.1
  }

  function Pieces(params: Params): (r: seq<string>)
    ensures |r| == |params|
  {
    if params == [] then [] else [Piece(params[0])] + Pieces(params[1..])
  }

  /** The pieces joined by `&`. */
  function QueryString(params: Params): string
  {
    Join(Pieces(params), '&')
  }

  /** `getAll`: the endpoint, with `?` and the query string when there are
      parameters. */
  function GetAll(endpoint: string, params: Option<Params>): (r: Plan)
    ensures r.verb == GET && r.body == None
    ensures params.None? ==> r.path == endpoint
  {
    Plan(if params.Some? then endpoint + "?" + QueryString(params.value) else endpoint, GET, None)
  }

  /** Reading one `k=v` piece back: the key ends at the first `=`. */
  function ParsePair(piece: string): (string, string)
  {
    var i := IndexOf(piece, '=');
    if i < 0 then (piece, "") else (piece[..i], piece[i + 1..])
  }

  function ParsePairs(pieces: seq<string>): Params
  {
    if pieces == [] then [] else [ParsePair(pieces[0])] + ParsePairs(pieces[1..])
  }

  /** Splitting a path at its first `?` into the endpoint and the parameters. */
  function ParsePath(path: string): (string, Option<Params>)
  {
    var i := IndexOf(path, '?');
    if i < 0 then (path, None) else (path[..i], Some(ParsePairs(Split(path[i + 1..], '&'))))
  }

  predicate PlainKey(kv: (string, string))
  {
    '=' !in kv.0 && '&' !in kv.0 && '&' !in kv.1
  }

  lemma {:induction false} PiecesParse(params: Params)
    requires forall j :: 0 <= j < |params| ==> PlainKey(params[j])
    ensures ParsePairs(Pieces(params)) == params
    ensures forall j :: 0 <= j < |params| ==> '&' !in Pieces(params)[j]
  {
    if params != [] {
      var kv := params[0];
      IndexOfAfter(kv.0, '=', kv.1);
      assert Piece(kv) == kv.0 + ['='] + kv.1;
      PiecesParse(params[1..]);
      var rest := Pieces(params[1..]);
      assert Pieces(params) == [Piece(kv)] + rest;
      forall j | 0 <= j < |params| ensures '&' !in Pieces(params)[j] {
        if j > 0 {
          assert Pieces(params)[j] == rest[j - 1];
        }
      }
    }
  }

  /** The URL `getAll` builds reads back as its endpoint and parameters, when
      the endpoint has no `?`, no key holds `=` or `&`, and no value holds `&`. */
  lemma GetAllParses(endpoint: string, params: Option<Params>)
    requires '?' !in endpoint
    requires params.Some? ==> params.value != []
    requires params.Some? ==> forall j :: 0 <= j < |params.value| ==> PlainKey(params.value[j])
    ensures ParsePath(GetAll(endpoint, params).path) == (endpoint, params)
  {
    if params.Some? {
      var ps := params.value;
      IndexOfAfter(endpoint, '?', QueryString(ps));
      assert GetAll(endpoint, params).path == endpoint + ['?'] + QueryString(ps);
      PiecesParse(ps);
      SplitJoin(Pieces(ps), '&');
    }
  }

  /** `${endpoint}/${id}`. */
  function ItemPath(endpoint: string, id: string): string
  {
    endpoint + "/" + id
  }

  /** The last path segment of an item path is the id. */
  lemma ItemPathId(endpoint: string, id: string)
    requires '/' !in id
    ensures var parts := Split(ItemPath(endpoint, id), '/'); parts[|parts| - 1] == id
  {
    SplitAppend(endpoint, '/', id);
  }

  function GetById(endpoint: string, id: string): (r: Result<Plan, string>)
    ensures r.Err? <==> id == ""
    ensures r.Err? ==> r.error == "ID is required"
    ensures r.Ok? ==> r.value == Plan(ItemPath(endpoint, id), GET, None)
  {
    if id == "" then Err("ID is required") else Ok(Plan(ItemPath(endpoint, id), GET, None))
  }

  /** `create`: `data` is `None` for `undefined` or `null`; every object is
      truthy, even `{}`. */
  function Create(endpoint: string, data: Option<Fields>): (r: Result<Plan, string>)
    ensures r.Err? <==> data.None?
    ensures r.Err? ==> r.error == "Data is required for creation"
    ensures r.Ok? ==> r.value == Plan(endpoint, POST, data)
  {
    if data.None? then Err("Data is required for creation") else Ok(Plan(endpoint, POST, data))
  }

  /** `update`: the id is checked before the data. */
  function Update(endpoint: string, id: string, data: Option<Fields>): (r: Result<Plan, string>)
    ensures r.Err? <==> id == "" || data.None?
    ensures r.Err? ==> r.error == if id == "" then "ID is required for update" else "Data is required for update"
    ensures r.Ok? ==> r.value == Plan(ItemPath(endpoint, id), PUT, data)
  {
    if id == "" then Err("ID is required for update")
    else if data.None? then Err("Data is required for update")
    else Ok(Plan(ItemPath(endpoint, id), PUT, data))
  }

  function Patch(endpoint: string, id: string, data: Option<Fields>): (r: Result<Plan, string>)
    ensures r.Err? <==> id == "" || data.None?
    ensures r.Err? ==> r.error == if id == "" then "ID is required for patch" else "Data is required for patch"
    ensures r.Ok? ==> r.value == Plan(ItemPath(endpoint, id), PATCH, data)
  {
    if id == "" then Err("ID is required for patch")
    else if data.None? then Err("Data is required for patch")
    else Ok(Plan(ItemPath(endpoint, id), PATCH, data))
  }

  function Delete(endpoint: string, id: string): (r: Result<Plan, string>)
    ensures r.Err? <==> id == ""
    ensures r.Err? ==> r.error == "ID is required for deletion"
    ensures r.Ok? ==> r.value == Plan(ItemPath(endpoint, id), DELETE, None)
  {
    if id == "" then Err("ID is required for deletion") else Ok(Plan(ItemPath(endpoint, id), DELETE, None))
  }

  /** What a thunk catches: a guard's `Error` (no status) or the loop's
      `ApiError`; on success, the payload. */
  function Call(world: nat -> Attempt, plan: Result<Plan, string>): Result<Payload, Caught>
  {
    match plan
    case Err(message) => Err(ErrorObject(message, None))
    case Ok(p) =>
      match RunFrom(Outcomes(world, p.verb), p.path, DefaultRetries, 0, []).outcome
      case Ok(payload) => Ok(payload)
      case Err(e) => Err(FromApiError(e))
  }

  /** A guard's rejection reaches the user as the guard's own message, and no
      fetch is attempted. */
  lemma GuardMessageShown(world: nat -> Attempt, message: string)
    requires message != ""
    ensures Call(world, Err(message)).Err?
    ensures HandleApiError(Call(world, Err(message)).error) == message
  {
  }

  /** `healthCheck`: whether the probe request eventually succeeds. It is
      true only when one of the four attempts succeeded, and always when the
      first one does. */
  function HealthCheck(world: nat -> Attempt): (r: bool)
    ensures r ==> exists j: nat :: j <= DefaultRetries && Step(world(j), GET).Ok?
    ensures Step(world(0), GET).Ok? ==> r
  {
    var run := RunFrom(Outcomes(world, GET), "/users?limit=1", DefaultRetries, 0, []);
    RunOutcome(Outcomes(world, GET), "/users?limit=1", DefaultRetries, 0, []);
    assert run.outcome.Ok? ==> Step(world(run.attempts - 1), GET).Ok?;
    run.outcome.Ok?
  }

  /** With the network down the probe reports false after four attempts. */
  lemma HealthCheckNetworkDown(world: nat -> Attempt)
    requires forall j :: world(j).Thrown? && Retryable(world(j).error)
    ensures !HealthCheck(world)
  {
    NetworkDown(Outcomes(world, GET), "/users?limit=1", DefaultRetries, 0, []);
  }

  // ---------------------------------------------------------------------------
  // tasksApi and usersApi

  datatype TaskQuery = TaskQuery(search: Option<string>, completed: Option<bool>, limit: Option<int>, page: Option<int>)

  datatype UserQuery = UserQuery(search: Option<string>, limit: Option<int>, page: Option<int>)

  predicate NonZero(o: Option<int>) { o.Some? && o.value != 0 }

  function BoolString(b: bool): string { if b then "true" else "false" }

  /** `if (cond) queryParams[key] = value`, for a key not set before. */
  function AddIf(params: Params, cond: bool, key: string, value: string): Params
  {
    if cond then params + [(key, value)] else params
  }

  lemma {:induction false} LookupAppend<V>(fields: seq<(string, V)>, key: string, value: V, k: string)
    ensures Lookup(fields + [(key, value)], k) ==
      (if Lookup(fields, k).Some? then Lookup(fields, k) else if key == k then Some(value) else None)
  {
    if fields != [] {
      assert (fields + [(key, value)])[1..] == fields[1..] + [(key, value)];
      LookupAppend(fields[1..], key, value, k);
    }
  }

  lemma LookupAddIf(params: Params, cond: bool, key: string, value: string, k: string)
    ensures Lookup(AddIf(params, cond, key, value), k) ==
      (if Lookup(params, k).Some? then Lookup(params, k) else if cond && key == k then Some(value) else None)
  {
    if cond {
      LookupAppend(params, key, value, k);
    }
  }

  /** The `queryParams` record of `tasksApi.getAll`, or `undefined` when it
      has no key. */
  function TaskQueryParams(q: Option<TaskQuery>): (r: Option<Params>)
    ensures r.None? <==> (q.None? ||
      (!Present(q.value.search) && q.value.completed.None? && !NonZero(q.value.limit) && !NonZero(q.value.page)))
    ensures r.Some? ==> Lookup(r.value, "search") == (if Present(q.value.search) then q.value.search else None)
    ensures r.Some? ==> Lookup(r.value, "completed") ==
                        (if q.value.completed.Some? then Some(BoolString(q.value.completed.value)) else None)
    ensures r.Some? ==> Lookup(r.value, "limit") ==
                        (if NonZero(q.value.limit) then Some(IntToString(q.value.limit.value)) else None)
    ensures r.Some? ==> Lookup(r.value, "page") ==
                        (if NonZero(q.value.page) then Some(IntToString(q.value.page.value)) else None)
    ensures r.Some? ==> 1 <= |r.value| <= 4
  {
    if q.None? then None
    else
      var t := q.value;
      var p1 := AddIf([], Present(t.search), "search", if t.search.Some? then t.search.value else "");
      var p2 := AddIf(p1, t.completed.Some?, "completed", if t.completed.Some? then BoolString(t.completed.value) else "");
      var p3 := AddIf(p2, NonZero(t.limit), "limit", if t.limit.Some? then IntToString(t.limit.value) else "");
      var p4 := AddIf(p3, NonZero(t.page), "page", if t.page.Some? then IntToString(t.page.value) else "");
      TaskQueryLookups(t, p1, p2, p3, p4);
      if p4 == [] then None else Some(p4)
  }

  /** The value `tasksApi.getAll` stores under key `k`. */
  function Expected(t: TaskQuery, k: string): Option<string>
  {
    if Present(t.search) && k == "search" then t.search
    else if t.completed.Some? && k == "completed" then Some(BoolString(t.completed.value))
    else if NonZero(t.limit) && k == "limit" then Some(IntToString(t.limit.value))
    else if NonZero(t.page) && k == "page" then Some(IntToString(t.page.value))
    else None
  }

  lemma KeyLookup(t: TaskQuery, p1: Params, p2: Params, p3: Params, p4: Params, k: string)
    requires p1 == AddIf([], Present(t.search), "search", if t.search.Some? then t.search.value else "")
    requires p2 == AddIf(p1, t.completed.Some?, "completed", if t.completed.Some? then BoolString(t.completed.value) else "")
    requires p3 == AddIf(p2, NonZero(t.limit), "limit", if t.limit.Some? then IntToString(t.limit.value) else "")
    requires p4 == AddIf(p3, NonZero(t.page), "page", if t.page.Some? then IntToString(t.page.value) else "")
    ensures Lookup(p4, k) == Expected(t, k)
  {
    LookupAddIf([], Present(t.search), "search", if t.search.Some? then t.search.value else "", k);
    LookupAddIf(p1, t.completed.Some?, "completed", if t.completed.Some? then BoolString(t.completed.value) else "", k);
    LookupAddIf(p2, NonZero(t.limit), "limit", if t.limit.Some? then IntToString(t.limit.value) else "", k);
    LookupAddIf(p3, NonZero(t.page), "page", if t.page.Some? then IntToString(t.page.value) else "", k);
  }

  lemma TaskQueryLookups(t: TaskQuery, p1: Params, p2: Params, p3: Params, p4: Params)
    requires p1 == AddIf([], Present(t.search), "search", if t.search.Some? then t.search.value else "")
    requires p2 == AddIf(p1, t.completed.Some?, "completed", if t.completed.Some? then BoolString(t.completed.value) else "")
    requires p3 == AddIf(p2, NonZero(t.limit), "limit", if t.limit.Some? then IntToString(t.limit.value) else "")
    requires p4 == AddIf(p3, NonZero(t.page), "page", if t.page.Some? then IntToString(t.page.value) else "")
    ensures Lookup(p4, "search") == (if Present(t.search) then t.search else None)
    ensures Lookup(p4, "completed") == (if t.completed.Some? then Some(BoolString(t.completed.value)) else None)
    ensures Lookup(p4, "limit") == (if NonZero(t.limit) then Some(IntToString(t.limit.value)) else None)
    ensures Lookup(p4, "page") == (if NonZero(t.page) then Some(IntToString(t.page.value)) else None)
  {
    KeyLookup(t, p1, p2, p3, p4, "search");
    KeyLookup(t, p1, p2, p3, p4, "completed");
    KeyLookup(t, p1, p2, p3, p4, "limit");
    KeyLookup(t, p1, p2, p3, p4, "page");
  }

  /** The `queryParams` record of `usersApi.getAll`: the same guarded keys,
      without `completed`. */
  function UserQueryParams(q: Option<UserQuery>): (r: Option<Params>)
    ensures r.None? <==> (q.None? || (!Present(q.value.search) && !NonZero(q.value.limit) && !NonZero(q.value.page)))
    ensures r.Some? ==> Lookup(r.value, "search") == (if Present(q.value.search) then q.value.search else None)
    ensures r.Some? ==> Lookup(r.value, "completed") == None
    ensures r.Some? ==> Lookup(r.value, "limit") ==
                        (if NonZero(q.value.limit) then Some(IntToString(q.value.limit.value)) else None)
    ensures r.Some? ==> Lookup(r.value, "page") ==
                        (if NonZero(q.value.page) then Some(IntToString(q.value.page.value)) else None)
  {
    if q.None? then None
    else
      var u := q.value;
      var p1 := AddIf([], Present(u.search), "search", if u.search.Some? then u.search.value else "");
      var p2 := AddIf(p1, NonZero(u.limit), "limit", if u.limit.Some? then IntToString(u.limit.value) else "");
      var p3 := AddIf(p2, NonZero(u.page), "page", if u.page.Some? then IntToString(u.page.value) else "");
      TaskQueryLookups(TaskQuery(u.search, None, u.limit, u.page), p1, p1, p2, p3);
      if p3 == [] then None else Some(p3)
  }

  /** The users query is the tasks query without `completed`. */
  lemma UserQueryIsTaskQuery(q: Option<UserQuery>)
    ensures UserQueryParams(q) ==
      TaskQueryParams(if q.None? then None else Some(TaskQuery(q.value.search, None, q.value.limit, q.value.page)))
  {
  }

  /** `tasksApi.getAll`: a GET of `/tasks`, with a query string exactly when
      the record has a key. */
  function TasksGetAll(q: Option<TaskQuery>): (r: Plan)
    ensures r.verb == GET && r.body.None?
    ensures r.path == "/tasks" <==> TaskQueryParams(q).None?
  {
    GetAll("/tasks", TaskQueryParams(q))
  }

  /** `usersApi.getAll`: a GET of `/users`, with a query string exactly when
      the record has a key. */
  function UsersGetAll(q: Option<UserQuery>): (r: Plan)
    ensures r.verb == GET && r.body.None?
    ensures r.path == "/users" <==> UserQueryParams(q).None?
  {
    GetAll("/users", UserQueryParams(q))
  }

  /** `if (cond) queryParams[key] = value` keeps every piece readable. */
  lemma AddIfPlain(params: Params, cond: bool, key: string, value: string)
    requires forall j :: 0 <= j < |params| ==> PlainKey(params[j])
    requires cond ==> PlainKey((key, value))
    ensures forall j :: 0 <= j < |AddIf(params, cond, key, value)| ==> PlainKey(AddIf(params, cond, key, value)[j])
  {
  }

  /** A number written in decimal has no `&`. */
  lemma NumberPlain(n: int)
    ensures '&' !in IntToString(n)
  {
    assert !IsDigit('&') && '&' != '-';
  }

  /** Every key and value of the tasks query record reads back from the
      query string when the search text has no `&`. */
  lemma TaskQueryPlain(q: Option<TaskQuery>)
    requires q.Some? && q.value.search.Some? ==> '&' !in q.value.search.value
    ensures TaskQueryParams(q).Some? ==>
      forall j :: 0 <= j < |TaskQueryParams(q).value| ==> PlainKey(TaskQueryParams(q).value[j])
  {
    if q.Some? {
      var t := q.value;
      var p1 := AddIf([], Present(t.search), "search", if t.search.Some? then t.search.value else "");
      var p2 := AddIf(p1, t.completed.Some?, "completed", if t.completed.Some? then BoolString(t.completed.value) else "");
      var p3 := AddIf(p2, NonZero(t.limit), "limit", if t.limit.Some? then IntToString(t.limit.value) else "");
      var p4 := AddIf(p3, NonZero(t.page), "page", if t.page.Some? then IntToString(t.page.value) else "");
      AddIfPlain([], Present(t.search), "search", if t.search.Some? then t.search.value else "");
      AddIfPlain(p1, t.completed.Some?, "completed", if t.completed.Some? then BoolString(t.completed.value) else "");
      if t.limit.Some? { NumberPlain(t.limit.value); }
      AddIfPlain(p2, NonZero(t.limit), "limit", if t.limit.Some? then IntToString(t.limit.value) else "");
      if t.page.Some? { NumberPlain(t.page.value); }
      AddIfPlain(p3, NonZero(t.page), "page", if t.page.Some? then IntToString(t.page.value) else "");
      assert TaskQueryParams(q) == if p4 == [] then None else Some(p4);
    }
  }

  /** The URL `tasksApi.getAll` builds reads back as `/tasks` and its query
      record, when the search text has no `&`. */
  lemma TasksGetAllParses(q: Option<TaskQuery>)
    requires q.Some? && q.value.search.Some? ==> '&' !in q.value.search.value
    ensures ParsePath(TasksGetAll(q).path) == ("/tasks", TaskQueryParams(q))
  {
    TaskQueryPlain(q);
    GetAllParses("/tasks", TaskQueryParams(q));
  }

  /** The URL `usersApi.getAll` builds reads back as `/users` and its query
      record, when the search text has no `&`. */
  lemma UsersGetAllParses(q: Option<UserQuery>)
    requires q.Some? && q.value.search.Some? ==> '&' !in q.value.search.value
    ensures ParsePath(UsersGetAll(q).path) == ("/users", UserQueryParams(q))
  {
    var t := if q.None? then None else Some(TaskQuery(q.value.search, None, q.value.limit, q.value.page));
    UserQueryIsTaskQuery(q);
    TaskQueryPlain(t);
    GetAllParses("/users", UserQueryParams(q));
  }

  /** `!data.title?.trim()`: missing or blank. A present value that is not a
      string also counts as missing here, though `trim` on it would throw a
      TypeError instead; such a value is outside the request's declared types. */
  predicate MissingText(v: Option<JsValue>)
  {
    !(v.Some? && v.value.Str? && !Blank(v.value.s))
  }

  predicate Falsy(v: Option<JsValue>)
  {
    v.None? || !Truthy(v.value)
  }

  function TasksCreate(data: Fields): (r: Result<Plan, string>)
    ensures r.Err? <==> MissingText(Lookup(data, "title")) || Falsy(Lookup(data, "assignedUserId"))
    ensures r.Err? ==> (r.error ==
      if MissingText(Lookup(data, "title")) then "Task title is required" else "Assigned user is required")
    ensures r.Ok? ==> r.value == Plan("/tasks", POST, Some(data))
  {
    if MissingText(Lookup(data, "title")) then Err("Task title is required")
    else if Falsy(Lookup(data, "assignedUserId")) then Err("Assigned user is required")
    else Create("/tasks", Some(data))
  }

  predicate IsTimestamp(f: (string, JsValue)) { f.0 == "createdAt" || f.0 == "updatedAt" }

  /** `const { createdAt, updatedAt, ...rest } = data`. */
  function WithoutTimestamps(data: Fields): (r: Fields)
    ensures forall j :: 0 <= j < |r| ==> !IsTimestamp(r[j]) && r[j] in data
    ensures forall j :: 0 <= j < |data| && !IsTimestamp(data[j]) ==> data[j] in r
    ensures Lookup(r, "createdAt") == None && Lookup(r, "updatedAt") == None
  {
    var r := Lists.FilterOut(data, IsTimestamp);
    LookupAbsent(r, "createdAt");
    LookupAbsent(r, "updatedAt");
    r
  }

  lemma {:induction false} LookupAbsent<V>(fields: seq<(string, V)>, key: string)
    requires forall j :: 0 <= j < |fields| ==> fields[j].0 != key
    ensures Lookup(fields, key) == None
  {
    if fields != [] {
      LookupAbsent(fields[1..], key);
    }
  }

  /** The tasks and users wrappers never send the timestamps, and only an
      empty id stops them before the request: the rest object is always
      truthy. */
  function TasksUpdate(id: string, data: Fields): (r: Result<Plan, string>)
    ensures r.Err? <==> id == ""
    ensures r.Ok? ==> (r.value.verb == PUT && r.value.body.Some? &&
      Lookup(r.value.body.value, "createdAt") == None && Lookup(r.value.body.value, "updatedAt") == None)
    ensures r.Ok? ==> r.value == Plan(ItemPath("/tasks", id), PUT, Some(WithoutTimestamps(data)))
  {
    Update("/tasks", id, Some(WithoutTimestamps(data)))
  }

  function TasksPatch(id: string, data: Fields): (r: Result<Plan, string>)
    ensures r.Err? <==> id == ""
    ensures r.Ok? ==> (r.value.verb == PATCH && r.value.body.Some? &&
      Lookup(r.value.body.value, "createdAt") == None && Lookup(r.value.body.value, "updatedAt") == None)
    ensures r.Ok? ==> r.value == Plan(ItemPath("/tasks", id), PATCH, Some(WithoutTimestamps(data)))
  {
    Patch("/tasks", id, Some(WithoutTimestamps(data)))
  }

  function TasksDelete(id: string): (r: Result<Plan, string>)
    ensures r.Err? <==> id == ""
    ensures r.Err? ==> r.error == "ID is required for deletion"
    ensures r.Ok? ==> r.value == Plan(ItemPath("/tasks", id), DELETE, None)
  {
    Delete("/tasks", id)
  }

  function TasksGetById(id: string): (r: Result<Plan, string>)
    ensures r.Err? <==> id == ""
    ensures r.Err? ==> r.error == "ID is required"
    ensures r.Ok? ==> r.value == Plan(ItemPath("/tasks", id), GET, None)
  {
    GetById("/tasks", id)
  }

  /** `getByUserId`: the parameter is sent even for an empty id. */
  function TasksByUser(userId: string): (r: Plan)
    ensures r.verb == GET && r.body.None?
  {
    GetAll("/tasks", Some([("assignedUserId", userId)]))
  }

  lemma TasksByUserParses(userId: string)
    requires '&' !in userId
    ensures ParsePath(TasksByUser(userId).path) == ("/tasks", Some([("assignedUserId", userId)]))
  {
    GetAllParses("/tasks", Some([("assignedUserId", userId)]));
  }

  /** `toggleCompleted`: a PATCH of the single field `completed`. */
  function ToggleCompleted(id: string, completed: bool): (r: Result<Plan, string>)
    ensures r.Err? <==> id == ""
    ensures r.Ok? ==> r.value == Plan(ItemPath("/tasks", id), PATCH, Some([("completed", Bool(completed))]))
  {
    Patch("/tasks", id, Some([("completed", Bool(completed))]))
  }

  function UsersCreate(data: Fields): (r: Result<Plan, string>)
    ensures r.Err? <==> MissingText(Lookup(data, "first_name")) || MissingText(Lookup(data, "last_name"))
    ensures r.Err? ==> r.error == "First name and last name are required"
    ensures r.Ok? ==> r.value == Plan("/users", POST, Some(data))
  {
    if MissingText(Lookup(data, "first_name")) || MissingText(Lookup(data, "last_name")) then
      Err("First name and last name are required")
    else Create("/users", Some(data))
  }

  function UsersUpdate(id: string, data: Fields): (r: Result<Plan, string>)
    ensures r.Err? <==> id == ""
    ensures r.Ok? ==> (r.value.verb == PUT && r.value.body.Some? &&
      Lookup(r.value.body.value, "createdAt") == None && Lookup(r.value.body.value, "updatedAt") == None)
    ensures r.Ok? ==> r.value == Plan(ItemPath("/users", id), PUT, Some(WithoutTimestamps(data)))
  {
    Update("/users", id, Some(WithoutTimestamps(data)))
  }

  function UsersDelete(id: string): (r: Result<Plan, string>)
    ensures r.Err? <==> id == ""
    ensures r.Err? ==> r.error == "ID is required for deletion"
    ensures r.Ok? ==> r.value == Plan(ItemPath("/users", id), DELETE, None)
  {
    Delete("/users", id)
  }

  function UsersGetById(id: string): (r: Result<Plan, string>)
    ensures r.Err? <==> id == ""
    ensures r.Err? ==> r.error == "ID is required"
    ensures r.Ok? ==> r.value == Plan(ItemPath("/users", id), GET, None)
  {
    GetById("/users", id)
  }

  /** `usersApi.search`: a GET of `/users` that always carries the query
      string, the term included when it is empty. */
  function UsersSearch(query: string): (r: Plan)
    ensures r.verb == GET && r.body.None?
    ensures r.path != "/users"
  {
    GetAll("/users", Some([("search", query)]))
  }

  /** The search URL reads back as `/users` with the single key `search`. */
  lemma UsersSearchParses(query: string)
    requires '&' !in query
    ensures ParsePath(UsersSearch(query).path) == ("/users", Some([("search", query)]))
  {
    GetAllParses("/users", Some([("search", query)]));
  }

  /** An empty term is dropped by `getAll` but sent by `search`. */
  lemma EmptySearchTerm()
    ensures UsersGetAll(Some(UserQuery(Some(""), None, None))).path == "/users"
    ensures UsersSearch("").path != "/users"
    ensures ParsePath(UsersSearch("").path) == ("/users", Some([("search", "")]))
  {
    UsersSearchParses("");
  }
}
