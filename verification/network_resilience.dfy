/*
 * The browser's network-resilience layer: `window.fetchWithRetry`, which
 * retries thrown fetches with exponential backoff and rewrites every request
 * to defeat caches, and the patched `pollRefinementStatus` that polls the
 * server through it.
 */
module NetworkResilience {
  import opened Js
  import Polling

  /** The Cache-Control header every request carries. */
  const NoCache := "no-cache, no-store, must-revalidate"

  // ---------------------------------------------------------------------------
  // Request rewriting
  // ---------------------------------------------------------------------------

  /** `!options.method || options.method === 'GET'`; an absent method is "". */
  predicate IsGet(httpMethod: string) {
    httpMethod == "" || httpMethod == "GET"
  }

  /** The URL actually fetched: a GET gets a `t=<now>` query parameter,
      joined with `&` when the URL already has a query and `?` otherwise. */
  function RequestUrl(url: string, httpMethod: string, now: int): (r: string)
    ensures !IsGet(httpMethod) ==> r == url
  {
    if IsGet(httpMethod) then url + [if Contains(url, "?") then '&' else '?'] + "t=" + IntToString(now)
    else url
  }

  /** A rewritten GET URL is the original followed by one separator and the
      timestamp parameter, the timestamp reads back with `parseInt`, and the
      result always has a query. */
  lemma CacheBustedUrl(url: string, httpMethod: string, now: int)
    requires IsGet(httpMethod)
    ensures var r := RequestUrl(url, httpMethod, now);
      |r| > |url| + 3 && r[..|url|] == url &&
      r[|url|] == (if Contains(url, "?") then '&' else '?') &&
      r[|url| + 1..|url| + 3] == "t=" &&
      ParseIntString(r[|url| + 3..]) == Some(now) &&
      Contains(r, "?")
  {
    var sep := if Contains(url, "?") then '&' else '?';
    var tail := [sep] + "t=" + IntToString(now);
    assert RequestUrl(url, httpMethod, now) == url + tail;
    ParameterValue(url, sep, IntToString(now));
    ParseIntOfNumber(now);
    QueryKept(url, tail);
  }

  /** What follows the separator and `t=` is the appended text. */
  lemma ParameterValue(url: string, sep: char, d: string)
    ensures |url + ([sep] + "t=" + d)| == |url| + 3 + |d|
    ensures (url + ([sep] + "t=" + d))[|url| + 3..] == d
  {
    var tail := [sep] + "t=" + d;
    assert tail[3..] == d;
    assert (url + tail)[|url| + 3..] == tail[3..];
  }

  /** A URL with the separator chosen by `RequestUrl` appended has a query. */
  lemma QueryKept(url: string, tail: string)
    requires |tail| > 0 && tail[0] == if Contains(url, "?") then '&' else '?'
    ensures Contains(url + tail, "?")
  {
    if Contains(url, "?") {
      ContainsExtended(url, tail, "?");
    } else {
      assert (url + tail)[|url|..|url| + 1] == "?";
      OccursAtContains(url + tail, "?", |url|);
    }
  }

  /** `{...options.headers, 'Cache-Control': ..., 'Pragma': 'no-cache'}`. */
  function RequestHeaders(headers: map<string, string>): (h: map<string, string>)
  {
    headers["Cache-Control" := NoCache]["Pragma" := "no-cache"]
  }

  /** The caller's headers survive, except the two cache headers, which are overridden. */
  lemma RequestHeadersKeepCallerHeaders(headers: map<string, string>)
    ensures var h := RequestHeaders(headers);
      "Cache-Control" in h && h["Cache-Control"] == NoCache &&
      "Pragma" in h && h["Pragma"] == "no-cache" &&
      h.Keys == headers.Keys + {"Cache-Control", "Pragma"} &&
      forall k :: k in headers && k != "Cache-Control" && k != "Pragma" ==> h[k] == headers[k]
  {
  }

  // ---------------------------------------------------------------------------
  // Retry loop
  // ---------------------------------------------------------------------------

  /** `2^k`, as `Math.pow(2, k)` computes it for small k. */
  function Pow2(k: nat): (p: nat)
    ensures p >= 1
  {
    if k == 0 then 1 else 2 * Pow2(k - 1)
  }

  /** A thrown fetch error: a timeout abort (`error.name === 'AbortError'`) or any other failure. */
  datatype FetchError = NetworkFailure | Aborted

  /** One fetch: a response with this status (ok or not), or a thrown error. */
  datatype Attempt = Responded(status: int) | Threw(error: FetchError)

  /** What `fetchWithRetry` settles with: the response, or the last error rethrown. */
  datatype Outcome = Response(status: int) | Rethrown(error: FetchError)

  /** One request as sent: the rewritten URL and the headers. */
  datatype Request = Request(url: string, headers: map<string, string>)

  /** `window.fetchWithRetry(url, options, maxRetries, retryDelay)`.
      `outcome(k)` is what the k-th fetch gives and `clock(k)` the time at
      which it is made. Any response is returned at once; a thrown error is
      retried after `retryDelay * 2^k` ms while fewer than `maxRetries`
      retries were made, unless it is an abort. */
  method FetchWithRetry(url: string, httpMethod: string, headers: map<string, string>,
                        maxRetries: int, retryDelay: int, clock: nat -> int, outcome: nat -> Attempt)
    returns (r: Outcome, requests: seq<Request>, delays: seq<int>)
    ensures 1 <= |requests| <= (if maxRetries > 0 then maxRetries else 0) + 1
    ensures |delays| == |requests| - 1
    ensures forall k :: 0 <= k < |requests| ==>
      requests[k] == Request(RequestUrl(url, httpMethod, clock(k)), RequestHeaders(headers))
    ensures forall k :: 0 <= k < |delays| ==> delays[k] == retryDelay * Pow2(k)
    ensures forall k :: 0 <= k < |requests| - 1 ==> outcome(k) == Threw(NetworkFailure)
    ensures outcome(|requests| - 1).Responded? ==> r == Response(outcome(|requests| - 1).status)
    ensures outcome(|requests| - 1).Threw? ==>
      r == Rethrown(outcome(|requests| - 1).error) &&
      (|requests| - 1 >= maxRetries || r.error == Aborted)
  {
    var send := (k: nat) => Request(RequestUrl(url, httpMethod, clock(k)), RequestHeaders(headers));
    r, requests, delays := RetryLoop(send, maxRetries, retryDelay, outcome);
  }

  /** The retry loop of `fetchWithRetry`; `send(k)` is the k-th request as
      rewritten, which the loop only records. */
  method RetryLoop(send: nat -> Request, maxRetries: int, retryDelay: int, outcome: nat -> Attempt)
    returns (r: Outcome, requests: seq<Request>, delays: seq<int>)
    ensures 1 <= |requests| <= (if maxRetries > 0 then maxRetries else 0) + 1
    ensures |delays| == |requests| - 1
    ensures forall k :: 0 <= k < |requests| ==> requests[k] == send(k)
    ensures forall k :: 0 <= k < |delays| ==> delays[k] == retryDelay * Pow2(k)
    ensures forall k :: 0 <= k < |requests| - 1 ==> outcome(k) == Threw(NetworkFailure)
    ensures outcome(|requests| - 1).Responded? ==> r == Response(outcome(|requests| - 1).status)
    ensures outcome(|requests| - 1).Threw? ==>
      r == Rethrown(outcome(|requests| - 1).error) &&
      (|requests| - 1 >= maxRetries || r.error == Aborted)
  {
    var retries: nat := 0;
    requests := [];
    delays := [];
    while true
      invariant |requests| == retries && |delays| == retries
      invariant maxRetries > 0 ==> retries <= maxRetries
      invariant maxRetries <= 0 ==> retries == 0
      invariant forall k :: 0 <= k < |requests| ==> requests[k] == send(k)
      invariant forall k :: 0 <= k < |delays| ==> delays[k] == retryDelay * Pow2(k)
      invariant forall k :: 0 <= k < |requests| ==> outcome(k) == Threw(NetworkFailure)
      decreases if maxRetries > retries then maxRetries - retries else 0
    {
      requests := requests + [send(retries)];
      match outcome(retries)
      case Responded(status) =>
        r := Response(status);
        return;
      case Threw(error) =>
        if retries >= maxRetries || error == Aborted {
          r := Rethrown(error);
          return;
        }
        delays := delays + [retryDelay * Pow2(retries)];
        retries := retries + 1;
    }
  }

  /** With the defaults (3 retries, 1000 ms) the waits are 1000, 2000 and
      4000 ms and at most four fetches are made. */
  lemma DefaultBackoff(delays: seq<int>, attempts: nat)
    requires attempts <= 3 + 1 && |delays| == attempts - 1
    requires forall k :: 0 <= k < |delays| ==> delays[k] == 1000 * Pow2(k)
    ensures delays <= [1000, 2000, 4000]
  {
    if |delays| > 0 { assert delays[0] == 1000 * Pow2(0); }
    if |delays| > 1 { assert delays[1] == 1000 * Pow2(1); }
    if |delays| > 2 { assert delays[2] == 1000 * Pow2(2); }
  }

  // ---------------------------------------------------------------------------
  // Patched status poller
  // ---------------------------------------------------------------------------

  /** One firing of the poll interval: the parsed `/api/refinement-status`
      reply (None when the request failed, the reply was not ok, or the body
      was not an object), the output frame, and whether
      `window.forceRefinementStart` is a function. */
  datatype PatchedTick = PatchedTick(reply: Option<Record>, frame: Polling.Frame, forceAvailable: bool)

  /** The patched tick callback. A finished result clears the interval; it
      returns before counting only when the frame shows it. A pending job at
      the halfway attempt forces the refinement start when that hook exists.
      Every other reply, including `wrong_tab` and `bundle_purchase`, and every
      failure is counted. */
  function PatchedTickResult(attempts: nat, t: PatchedTick): (r: Polling.TickResult)
    ensures r.ending != Polling.Counted <==> t.reply.Some? && Polling.CompletedReply(t.reply.value)
    ensures r.ending == Polling.Stopped <==>
      t.reply.Some? && Polling.CompletedReply(t.reply.value) && t.frame == Polling.FrameShown
    ensures r.fallback <==>
      t.reply.Some? && Polling.PendingReply(t.reply.value) && attempts == Polling.Halfway && t.forceAvailable
  {
    match t.reply
    case None => Polling.TickResult(Polling.Counted, false)
    case Some(data) =>
      if Polling.CompletedReply(data) then
        Polling.TickResult(if t.frame == Polling.FrameShown then Polling.Stopped else Polling.StoppedCounted, false)
      else
        Polling.TickResult(Polling.Counted, Polling.PendingReply(data) && attempts == Polling.Halfway && t.forceAvailable)
  }

  /** The tick callback run on the poller's state; returns whether
      `forceRefinementStart` was called. */
  method PatchedPollTick(p: Polling.Poller, t: PatchedTick) returns (forced: bool)
    requires p.active
    modifies p
    ensures p.State() == Polling.After(old(p.State()), PatchedTickResult(old(p.attempts), t).ending)
    ensures forced == PatchedTickResult(old(p.attempts), t).fallback
  {
    forced := false;
    match t.reply
    case None =>
      p.Finish(Polling.Counted);
    case Some(data) =>
      if Polling.CompletedReply(data) {
        if t.frame == Polling.FrameShown {
          p.Finish(Polling.Stopped);
        } else {
          p.Finish(Polling.StoppedCounted);
        }
      } else {
        if Polling.PendingReply(data) && p.attempts == Polling.Halfway && t.forceAvailable {
          forced := true;
        }
        p.Finish(Polling.Counted);
      }
  }

  /** The patched callback forces the refinement start only at the halfway attempt. */
  lemma PatchedFallbackAtHalfway()
    ensures Polling.FallbackAtHalfway((a: nat, t: PatchedTick) => PatchedTickResult(a, t))
  {
  }

  /** A patched poll started fresh runs at most 60 tick callbacks, forces the
      refinement start at most once, and keeps its counter within the limit. */
  lemma PatchedPollIsBounded(inputs: seq<PatchedTick>)
    ensures var r := Polling.Run((a: nat, t: PatchedTick) => PatchedTickResult(a, t), Polling.PollState(0, true), inputs);
      r.ticks <= Polling.MaxAttempts && r.fallbacks <= 1 && Polling.Valid(r.final)
  {
    var tick := (a: nat, t: PatchedTick) => PatchedTickResult(a, t);
    var s := Polling.PollState(0, true);
    PatchedFallbackAtHalfway();
    Polling.RunIsBounded(tick, s, inputs);
    Polling.RunKeepsValid(tick, s, inputs);
    Polling.FallbackAtMostOnce(tick, s, inputs);
  }

  /** A poll that keeps getting `wrong_tab` runs until the limit: the patched
      poller has no terminal case for it. */
  lemma {:induction false} PatchedPollIgnoresWrongTab(inputs: seq<PatchedTick>, s: Polling.PollState)
    requires forall i :: 0 <= i < |inputs| ==>
      inputs[i].reply.Some? && Field(inputs[i].reply.value, "status") == Str("wrong_tab")
    requires Polling.Valid(s) && s.active
    requires |inputs| >= Polling.MaxAttempts - s.attempts
    ensures var r := Polling.Run((a: nat, t: PatchedTick) => PatchedTickResult(a, t), s, inputs);
      r.ticks == Polling.MaxAttempts - s.attempts && r.final == Polling.PollState(Polling.MaxAttempts, false)
    decreases Polling.MaxAttempts - s.attempts
  {
    var tick := (a: nat, t: PatchedTick) => PatchedTickResult(a, t);
    var s' := Polling.After(s, tick(s.attempts, inputs[0]).ending);
    assert s'.attempts == s.attempts + 1;
    if s'.active {
      PatchedPollIgnoresWrongTab(inputs[1..], s');
    }
  }
}
