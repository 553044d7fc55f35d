/*
 * The job lifecycle across server and browser. A job's status has no state
 * variable of its own: it is what `/api/refinement-status` derives from the
 * fields present on the job record. These lemmas follow a record through the
 * merges that write it, the view that reads it, and the browser code that
 * acts on the view.
 */
module Lifecycle {
  import opened Js
  import Polling
  import LemonServer
  import Refine
  import Checkout
  import NetworkResilience

  // ---------------------------------------------------------------------------
  // The replies as the browser parses them
  // ---------------------------------------------------------------------------

  /** The JSON body of `/api/refinement-status` for a view; None for the 400
      reply to a request without a job id, which the pollers treat as a
      failed tick. */
  function StatusReply(v: LemonServer.StatusView): (r: Option<Record>)
    ensures r.None? <==> v == LemonServer.JobIdRequired
    ensures r.Some? ==> "status" in r.value && r.value["status"].Str?
  {
    match v
    case JobIdRequired => None
    case Pending =>
      Some(map["status" := Str("pending"), "message" := Str("No refinement data found for this job")])
    case BundlePurchase(credits) =>
      Some(map["status" := Str("bundle_purchase"), "bundleCredits" := credits,
               "message" := Str("Bundle purchase completed - credits added")])
    case WrongTab =>
      Some(map["status" := Str("wrong_tab"), "message" := Str("This job was processed in another browser tab")])
    case Completed(refinedHTML, changes, extractedKeywords) =>
      Some(map["status" := Str("completed"), "refinedHTML" := refinedHTML, "changes" := changes,
               "extractedKeywords" := extractedKeywords])
    case Processing =>
      Some(map["status" := Str("processing"), "message" := Str("Refinement is still in progress")])
  }

  /** The JSON body of `/api/get-job-data`: the job's fields, or an error
      object (sent with status 200 for an unknown job, 400 without a job id),
      which the checkout fallback parses all the same. */
  function JobDataBody(reply: Option<Record>): (body: Record)
    ensures reply.Some? ==> body == reply.value
    ensures reply.None? ==> "jobUrl" !in body && "cvHTML" !in body
  {
    match reply
    case Some(r) => r
    case None => map["status" := Str("error"), "message" := Str("No job data found for this job")]
  }

  // ---------------------------------------------------------------------------
  // Pollers against the view
  // ---------------------------------------------------------------------------

  /** The browser's reading of a status body matches the view it came from:
      terminal for a bundle purchase or another tab's job, completed for a
      result with content, pending for an unknown job. */
  lemma ReplyClassifiesView(v: LemonServer.StatusView)
    ensures StatusReply(v).Some? ==>
      var d := StatusReply(v).value;
      && (Checkout.TerminalReply(d) <==> v.BundlePurchase? || v == LemonServer.WrongTab)
      && (Polling.CompletedReply(d) <==> v.Completed? && Truthy(v.refinedHTML))
      && (Polling.PendingReply(d) <==> v == LemonServer.Pending)
  {
    if v.Completed? {
      assert Field(StatusReply(v).value, "status") == Str("completed");
    }
  }

  /** The checkout poller stops exactly on the bundle, wrong-tab and completed
      views, and sends its fallback only for a job the server has no record of. */
  lemma CheckoutPollFollowsView(jobs: map<string, Record>, jobId: string, tab: JsValue, attempts: nat,
                                frame: Polling.Frame, jobData: Option<Record>)
    ensures var v := LemonServer.RefinementStatus(jobs, jobId, tab);
      var r := Checkout.CheckoutTickResultOf(jobId, tab, attempts, Checkout.CheckoutTick(StatusReply(v), frame, jobData));
      && (r.ending != Polling.Counted <==> v.BundlePurchase? || v == LemonServer.WrongTab || v.Completed?)
      && (r.ending == Polling.Stopped <==>
            v.BundlePurchase? || v == LemonServer.WrongTab || (v.Completed? && frame == Polling.FrameShown))
      && (r.refine.Some? ==> v == LemonServer.Pending && attempts == Polling.Halfway)
  {
    ReplyClassifiesView(LemonServer.RefinementStatus(jobs, jobId, tab));
  }

  /** The patched poller stops only on the completed view: for a bundle
      purchase or another tab's job it polls on until the limit. */
  lemma PatchedPollFollowsView(jobs: map<string, Record>, jobId: string, tab: JsValue, attempts: nat,
                               frame: Polling.Frame, forceAvailable: bool)
    ensures var v := LemonServer.RefinementStatus(jobs, jobId, tab);
      var r := NetworkResilience.PatchedTickResult(attempts,
                 NetworkResilience.PatchedTick(StatusReply(v), frame, forceAvailable));
      && (r.ending != Polling.Counted <==> v.Completed?)
      && (r.fallback <==> v == LemonServer.Pending && attempts == Polling.Halfway && forceAvailable)
  {
    ReplyClassifiesView(LemonServer.RefinementStatus(jobs, jobId, tab));
  }

  /** Payment verification accepts a job the server is processing or has
      finished; for every other view it relies on the order status alone. */
  lemma VerifyPaymentFollowsView(jobs: map<string, Record>, jobId: string, tab: JsValue, orderProbe: Checkout.Probe)
    ensures var v := LemonServer.RefinementStatus(jobs, jobId, tab);
      var probe := if v == LemonServer.JobIdRequired then Checkout.NotOk else Checkout.Body(StatusReply(v));
      Checkout.VerifyPayment(jobId, probe, orderProbe) <==>
        v == LemonServer.Processing || v.Completed? ||
        (jobId != "" && Checkout.OrderConfirms(orderProbe))
  {
  }

  // ---------------------------------------------------------------------------
  // Records written by the merges, read by the view
  // ---------------------------------------------------------------------------

  /** After the background refinement stores a non-empty result, the view
      reports it as completed, unless the job is a bundle purchase or the
      poller's tab conflicts with the stored one. */
  lemma AsyncResultIsVisible(jobs: map<string, Record>, jobId: string, tab: JsValue, jobUrl: JsValue,
                             cvHTML: JsValue, refined: string, changes: string, keywords: string,
                             completedAt: string)
    requires jobId != "" && refined != ""
    requires !Truthy(Field(Refine.Stored(jobs, jobId), "isBundlePurchase"))
    requires !LemonServer.TabsConflict(tab, Field(Refine.Stored(jobs, jobId), "tabSessionId"))
    ensures var stored := Refine.ResultMerge(Refine.Stored(jobs, jobId), jobUrl, cvHTML, refined, changes, keywords, completedAt);
      LemonServer.RefinementStatus(jobs[jobId := stored], jobId, tab) ==
        LemonServer.Completed(Str(refined), Str(changes), Str(keywords))
  {
    var existing := Refine.Stored(jobs, jobId);
    Refine.ResultMergeFields(existing, jobUrl, cvHTML, refined, changes, keywords, completedAt);
  }

  /** The synchronous path records the request's tab id with the result, so
      a poller from the same tab always sees the result (bundle purchases aside). */
  lemma SyncResultIsVisibleToItsTab(jobs: map<string, Record>, jobId: string, tab: JsValue, jobUrl: JsValue,
                                    cvHTML: JsValue, refined: string, changes: string, keywords: string,
                                    completedAt: string)
    requires jobId != "" && refined != ""
    requires !Truthy(Field(Refine.Stored(jobs, jobId), "isBundlePurchase"))
    ensures var stored := Refine.SyncResultMerge(Refine.Stored(jobs, jobId), jobUrl, cvHTML, refined, changes,
                                                 keywords, completedAt, tab);
      LemonServer.RefinementStatus(jobs[jobId := stored], jobId, tab) ==
        LemonServer.Completed(Str(refined), Str(changes), Str(keywords))
  {
    var existing := Refine.Stored(jobs, jobId);
    Refine.ResultMergeFields(existing, jobUrl, cvHTML, refined, changes, keywords, completedAt);
    var stored := Refine.SyncResultMerge(existing, jobUrl, cvHTML, refined, changes, keywords, completedAt, tab);
    assert Field(stored, "tabSessionId") == tab;
    assert Field(stored, "isBundlePurchase") == Field(existing, "isBundlePurchase");
  }

  /** A bundle purchase ends the checkout poll at once, with the counter
      unchanged, whatever the tab and whatever result the record holds. */
  lemma BundlePurchaseEndsCheckoutPoll(jobs: map<string, Record>, jobId: string, tab: JsValue, completedAt: string,
                                       attempts: nat, frame: Polling.Frame, jobData: Option<Record>)
    requires jobId != ""
    ensures var marked := jobs[jobId := LemonServer.BundleMerge(Refine.Stored(jobs, jobId), completedAt)];
      var v := LemonServer.RefinementStatus(marked, jobId, tab);
      && v == LemonServer.BundlePurchase(Num(LemonServer.BundleCredits))
      && Checkout.CheckoutTickResultOf(jobId, tab, attempts, Checkout.CheckoutTick(StatusReply(v), frame, jobData))
         == Checkout.CheckoutTickResult(Polling.Stopped, None)
  {
  }

  // ---------------------------------------------------------------------------
  // The fallback refinement level
  // ---------------------------------------------------------------------------

  /** As written, the checkout fallback always asks for level 5: the job-data
      reply it reads never carries the stored refinement level. */
  lemma FallbackLevelAsWritten(jobs: map<string, Record>, jobId: string, tab: JsValue)
    requires jobId != "" && jobId in jobs
    requires Truthy(Field(jobs[jobId], "jobUrl")) && Truthy(Field(jobs[jobId], "cvHTML"))
    ensures var f := Checkout.Fallback(jobId, tab, Some(JobDataBody(LemonServer.GetJobDataReply(jobs, jobId))));
      f.Some? && f.value.refinementLevel == Num(5)
  {
    var reply := LemonServer.GetJobDataReply(jobs, jobId);
    assert Field(reply.value, "jobUrl") == Field(jobs[jobId], "jobUrl");
    assert Field(reply.value, "cvHTML") == Field(jobs[jobId], "cvHTML");
  }

  /** Within one job table the checkout fallback never fires: a pending
      view means the job is absent, and then the job-data reply has neither
      URL nor CV. The fallback needs the two requests of a tick to see
      different tables, as when they reach different server instances. */
  lemma FallbackNeedsTwoStates(jobs: map<string, Record>, jobId: string, tab: JsValue, attempts: nat,
                               frame: Polling.Frame)
    ensures var v := LemonServer.RefinementStatus(jobs, jobId, tab);
      var t := Checkout.CheckoutTick(StatusReply(v), frame, Some(JobDataBody(LemonServer.GetJobDataReply(jobs, jobId))));
      Checkout.CheckoutTickResultOf(jobId, tab, attempts, t).refine.None?
  {
    ReplyClassifiesView(LemonServer.RefinementStatus(jobs, jobId, tab));
  }

  /** The status request of the halfway tick sees no record of the job
      (`before`), the job-data request sees it stored with level 9
      (`after`): the fallback fires and refines at level 5. */
  lemma FallbackLevelCounterexample()
    ensures var before: map<string, Record> := map[];
      var after := map["job" := map["jobUrl" := Str("https://jobs.example/1"), "cvHTML" := Str("<p>cv</p>"),
                                    "refinementLevel" := Num(9)]];
      var v := LemonServer.RefinementStatus(before, "job", Null);
      var t := Checkout.CheckoutTick(StatusReply(v), Polling.FrameShown,
                                     Some(JobDataBody(LemonServer.GetJobDataReply(after, "job"))));
      var r := Checkout.CheckoutTickResultOf("job", Null, Polling.Halfway, t);
      && v == LemonServer.Pending
      && Field(after["job"], "refinementLevel") == Num(9)
      && r.refine.Some? && r.refine.value.refinementLevel == Num(5)
  {
    var after := map["job" := map["jobUrl" := Str("https://jobs.example/1"), "cvHTML" := Str("<p>cv</p>"),
                                  "refinementLevel" := Num(9)]];
    ReplyClassifiesView(LemonServer.Pending);
    FallbackLevelAsWritten(after, "job", Null);
  }

  /** With the level in the job-data reply, the fallback asks for the stored
      level whenever one is set, and `/refine` then works at that level. */
  lemma FallbackLevelCorrected(jobs: map<string, Record>, jobId: string, tab: JsValue)
    requires jobId != "" && jobId in jobs
    requires Truthy(Field(jobs[jobId], "jobUrl")) && Truthy(Field(jobs[jobId], "cvHTML"))
    ensures var stored := Field(jobs[jobId], "refinementLevel");
      var f := Checkout.Fallback(jobId, tab, Some(JobDataBody(LemonServer.GetJobDataReplyWithLevel(jobs, jobId))));
      && f.Some?
      && f.value.refinementLevel == (if Truthy(stored) then stored else Num(5))
      && (Truthy(stored) ==> Refine.ParseLevel(f.value.refinementLevel) == Refine.ParseLevel(stored))
  {
    var reply := LemonServer.GetJobDataReplyWithLevel(jobs, jobId);
    assert Field(reply.value, "jobUrl") == Field(jobs[jobId], "jobUrl");
    assert Field(reply.value, "cvHTML") == Field(jobs[jobId], "cvHTML");
    assert Field(reply.value, "refinementLevel") == Field(jobs[jobId], "refinementLevel");
  }
}
