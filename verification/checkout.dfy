/*
 * The checkout page's decision logic: browser detection, checkout-URL
 * normalisation, payment verification against the backend, and the
 * refinement-status poller with its halfway fallback `/refine` call.
 */
module Checkout {
  import opened Js
  import Polling

  // ---------------------------------------------------------------------------
  // Browser detection
  // ---------------------------------------------------------------------------

  datatype Browser = Edge | Firefox | Chrome | Safari | Other

  /** `detectBrowser`: the lower-cased user agent is tested in a fixed order,
      because Edge's agent also names Chrome and Safari, and Chrome's names Safari. */
  function DetectBrowser(userAgent: string): (b: Browser)
    ensures var ua := LowerAscii(userAgent);
      && (b == Edge <==> Contains(ua, "edg"))
      && (b == Firefox <==> !Contains(ua, "edg") && Contains(ua, "firefox"))
      && (b == Chrome <==> !Contains(ua, "edg") && !Contains(ua, "firefox") && Contains(ua, "chrome"))
      && (b == Safari <==>
            !Contains(ua, "edg") && !Contains(ua, "firefox") && !Contains(ua, "chrome") && Contains(ua, "safari"))
  {
    var ua := LowerAscii(userAgent);
    if Contains(ua, "edg") then Edge
    else if Contains(ua, "firefox") then Firefox
    else if Contains(ua, "chrome") then Chrome
    else if Contains(ua, "safari") then Safari
    else Other
  }

  /** The classification ignores the case of ASCII letters. */
  lemma DetectBrowserIgnoresCase(userAgent: string)
    ensures DetectBrowser(LowerAscii(userAgent)) == DetectBrowser(userAgent)
  {
    LowerAsciiIdempotent(userAgent);
  }

  // ---------------------------------------------------------------------------
  // Checkout URL
  // ---------------------------------------------------------------------------

  /** The checkout URL as opened: one that does not start with `http` gets a
      scheme, `https:` for a protocol-relative URL and `https://` otherwise. */
  function NormalizeCheckoutUrl(url: string): (r: string)
    ensures "http" <= r
    ensures "http" <= url ==> r == url
  {
    if "http" <= url then url
    else if "//" <= url then "https:" + url
    else "https://" + url
  }

  /** Normalisation only prepends a scheme, and normalising again changes nothing. */
  lemma NormalizeCheckoutUrlKeepsUrl(url: string)
    ensures var r := NormalizeCheckoutUrl(url);
      |r| >= |url| && r[|r| - |url|..] == url && NormalizeCheckoutUrl(r) == r
  {
  }

  // ---------------------------------------------------------------------------
  // Payment verification
  // ---------------------------------------------------------------------------

  /** A `fetch` followed by `response.json()`: the fetch threw, the response
      was not ok, or it was ok and its body parsed to an object (None when
      parsing threw or gave null, so that reading `.status` throws). */
  datatype Probe = ProbeThrew | NotOk | Body(data: Option<Record>)

  /** The refinement-status reply says the job was paid for. */
  predicate StatusConfirms(p: Probe) {
    p.Body? && p.data.Some? &&
    (Field(p.data.value, "status") == Str("processing") || Field(p.data.value, "status") == Str("completed"))
  }

  /** The status probe reaches the order check: it neither threw nor failed
      to give an object from an ok response. */
  predicate StatusFallsThrough(p: Probe) {
    p.NotOk? || (p.Body? && p.data.Some?)
  }

  /** The order-status reply says the order is paid. */
  predicate OrderConfirms(p: Probe) {
    p.Body? && p.data.Some? && Field(p.data.value, "status") == Str("paid")
  }

  /** `verifyPaymentWithBackend`: no job id means no payment; the refinement
      status is asked first and the order status second; errors of the first
      request, and of reading its body, end in false, while errors of the
      second are silent and also end in false. */
  function VerifyPayment(jobId: string, statusProbe: Probe, orderProbe: Probe): (verified: bool)
    ensures verified <==>
      jobId != "" &&
      (StatusConfirms(statusProbe) || (StatusFallsThrough(statusProbe) && OrderConfirms(orderProbe)))
  {
    if jobId == "" then false
    else
      match statusProbe
      case ProbeThrew => false
      case Body(None) => false
      case _ =>
        if StatusConfirms(statusProbe) then true
        else OrderConfirms(orderProbe)
  }

  /** Any failure to learn a status counts as not paid. */
  lemma VerifyPaymentFailsClosed(jobId: string, statusProbe: Probe, orderProbe: Probe)
    requires !StatusConfirms(statusProbe)
    requires orderProbe == ProbeThrew || orderProbe == NotOk || orderProbe == Body(None)
    ensures !VerifyPayment(jobId, statusProbe, orderProbe)
  {
  }

  // ---------------------------------------------------------------------------
  // Refinement-status poller
  // ---------------------------------------------------------------------------

  /** One firing of the poll interval: the parsed `/api/refinement-status`
      reply (None when the request failed, the reply was not ok, or the body
      was not an object), the output frame, and the parsed
      `/api/get-job-data` reply the fallback would read (None when that
      request or its parsing failed, or the body was null). */
  datatype CheckoutTick = CheckoutTick(reply: Option<Record>, frame: Polling.Frame, jobData: Option<Record>)

  /** The body of the fallback `/refine` request; its conversation is empty. */
  datatype FallbackRefine = FallbackRefine(
    jobId: string, tabSessionId: JsValue, jobUrl: JsValue, cvHTML: JsValue, refinementLevel: JsValue)

  datatype CheckoutTickResult = CheckoutTickResult(ending: Polling.Ending, refine: Option<FallbackRefine>)

  /** A reply that ends the poll without a result to show. */
  predicate TerminalReply(data: Record) {
    Field(data, "status") == Str("bundle_purchase") || Field(data, "status") == Str("wrong_tab")
  }

  /** The fallback request, when the job data has what `/refine` needs; a
      missing or falsy level is sent as 5. */
  function Fallback(jobId: string, tabSessionId: JsValue, jobData: Option<Record>): (f: Option<FallbackRefine>)
    ensures f.Some? <==>
      jobData.Some? && Truthy(Field(jobData.value, "jobUrl")) && Truthy(Field(jobData.value, "cvHTML"))
    ensures f.Some? ==>
      f.value.jobId == jobId && f.value.tabSessionId == tabSessionId &&
      f.value.jobUrl == Field(jobData.value, "jobUrl") && f.value.cvHTML == Field(jobData.value, "cvHTML") &&
      Truthy(f.value.refinementLevel) &&
      f.value.refinementLevel == (if Truthy(Field(jobData.value, "refinementLevel"))
                                  then Field(jobData.value, "refinementLevel") else Num(5))
  {
    match jobData
    case None => None
    case Some(d) =>
      if Truthy(Field(d, "jobUrl")) && Truthy(Field(d, "cvHTML")) then
        Some(FallbackRefine(jobId, tabSessionId, Field(d, "jobUrl"), Field(d, "cvHTML"),
                            Or(Field(d, "refinementLevel"), Num(5))))
      else None
  }

  /** The checkout tick callback. `bundle_purchase` and `wrong_tab` clear the
      interval and return; a finished result clears it and returns before
      counting only when the frame shows it; a pending job at the halfway
      attempt sends the fallback `/refine`; everything else, and every
      failure, is counted. */
  function CheckoutTickResultOf(jobId: string, tabSessionId: JsValue, attempts: nat, t: CheckoutTick)
    : (r: CheckoutTickResult)
    ensures r.ending == Polling.Stopped <==>
      t.reply.Some? &&
      (TerminalReply(t.reply.value) || (Polling.CompletedReply(t.reply.value) && t.frame == Polling.FrameShown))
    ensures r.ending == Polling.StoppedCounted <==>
      t.reply.Some? && Polling.CompletedReply(t.reply.value) && t.frame != Polling.FrameShown
    ensures r.refine.Some? ==>
      t.reply.Some? && Polling.PendingReply(t.reply.value) && attempts == Polling.Halfway &&
      r.refine == Fallback(jobId, tabSessionId, t.jobData)
    ensures t.reply.Some? && Polling.PendingReply(t.reply.value) && attempts == Polling.Halfway ==>
      r.refine == Fallback(jobId, tabSessionId, t.jobData)
  {
    match t.reply
    case None => CheckoutTickResult(Polling.Counted, None)
    case Some(data) =>
      if TerminalReply(data) then CheckoutTickResult(Polling.Stopped, None)
      else if Polling.CompletedReply(data) then
        CheckoutTickResult(if t.frame == Polling.FrameShown then Polling.Stopped else Polling.StoppedCounted, None)
      else if Polling.PendingReply(data) && attempts == Polling.Halfway then
        CheckoutTickResult(Polling.Counted, Fallback(jobId, tabSessionId, t.jobData))
      else CheckoutTickResult(Polling.Counted, None)
  }

  /** The checkout tick as seen by the shared polling loop. */
  function CheckoutTickFunction(jobId: string, tabSessionId: JsValue): (nat, CheckoutTick) -> Polling.TickResult {
    (a: nat, t: CheckoutTick) =>
      var r := CheckoutTickResultOf(jobId, tabSessionId, a, t);
      Polling.TickResult(r.ending, r.refine.Some?)
  }

  /** The tick callback run on the poller's state; returns the fallback
      `/refine` request it sent, if any. */
  method CheckoutPollTick(p: Polling.Poller, jobId: string, tabSessionId: JsValue, t: CheckoutTick)
    returns (refine: Option<FallbackRefine>)
    requires p.active
    modifies p
    ensures p.State() ==
      Polling.After(old(p.State()), CheckoutTickResultOf(jobId, tabSessionId, old(p.attempts), t).ending)
    ensures refine == CheckoutTickResultOf(jobId, tabSessionId, old(p.attempts), t).refine
  {
    refine := None;
    match t.reply
    case None =>
      p.Finish(Polling.Counted);
    case Some(data) =>
      if TerminalReply(data) {
        p.Finish(Polling.Stopped);
      } else if Polling.CompletedReply(data) {
        if t.frame == Polling.FrameShown {
          p.Finish(Polling.Stopped);
        } else {
          p.Finish(Polling.StoppedCounted);
        }
      } else {
        if Polling.PendingReply(data) && p.attempts == Polling.Halfway {
          refine := Fallback(jobId, tabSessionId, t.jobData);
        }
        p.Finish(Polling.Counted);
      }
  }

  /** The fallback is sent only at the halfway attempt. */
  lemma CheckoutFallbackAtHalfway(jobId: string, tabSessionId: JsValue)
    ensures Polling.FallbackAtHalfway(CheckoutTickFunction(jobId, tabSessionId))
  {
  }

  /** A checkout poll started fresh runs at most 60 tick callbacks, sends the
      fallback `/refine` at most once, and keeps its counter within the limit. */
  lemma CheckoutPollIsBounded(jobId: string, tabSessionId: JsValue, inputs: seq<CheckoutTick>)
    ensures var r := Polling.Run(CheckoutTickFunction(jobId, tabSessionId), Polling.PollState(0, true), inputs);
      r.ticks <= Polling.MaxAttempts && r.fallbacks <= 1 && Polling.Valid(r.final)
  {
    var tick := CheckoutTickFunction(jobId, tabSessionId);
    var s := Polling.PollState(0, true);
    CheckoutFallbackAtHalfway(jobId, tabSessionId);
    Polling.RunIsBounded(tick, s, inputs);
    Polling.RunKeepsValid(tick, s, inputs);
    Polling.FallbackAtMostOnce(tick, s, inputs);
  }

  /** A terminal reply ends the poll on that tick, leaving the counter as it was. */
  lemma {:induction false} TerminalReplyEndsPoll(jobId: string, tabSessionId: JsValue, s: Polling.PollState,
                                                 inputs: seq<CheckoutTick>)
    requires s.active && |inputs| > 0
    requires inputs[0].reply.Some? && TerminalReply(inputs[0].reply.value)
    ensures Polling.Run(CheckoutTickFunction(jobId, tabSessionId), s, inputs) ==
      Polling.RunResult(Polling.PollState(s.attempts, false), 1, 0)
  {
    var tick := CheckoutTickFunction(jobId, tabSessionId);
    var s' := Polling.After(s, tick(s.attempts, inputs[0]).ending);
    assert s' == Polling.PollState(s.attempts, false);
    assert Polling.Run(tick, s', inputs[1..]) == Polling.RunResult(s', 0, 0);
  }
}
