/*
 * The payment server: per-user request admission for `/api/store-job-data`,
 * credit redemption in `/api/create-checkout`, the Lemon Squeezy webhook with
 * its processed-event set, the status view of `/api/refinement-status`, the
 * rate-limit report and cleanup, and the linear-backoff retry loop used for
 * outgoing API calls.
 */
module LemonServer {
  import opened Js
  import Storage

  /** Length of a rate-limit window: five minutes in milliseconds. */
  const WindowMs := 300000
  /** Credits granted by a bundle purchase. */
  const BundleCredits := 10

  // ---------------------------------------------------------------------------
  // Fixed-window admission
  // ---------------------------------------------------------------------------

  /** A userRateLimits entry. */
  datatype RateEntry = RateEntry(count: int, lastReset: int)

  function Lookup(m: map<string, RateEntry>, userId: string): Option<RateEntry> {
    if userId in m then Some(m[userId]) else None
  }

  /** Requests allowed per window: 10 for a purchase with a bundle type, 5 otherwise. */
  function MaxRequests(paid: bool): nat {
    if paid then 10 else 5
  }

  /** The entry the request is counted against: a missing entry starts a new
      window at `now`; an entry whose window is more than five minutes old is reset. */
  function WindowEntry(existing: Option<RateEntry>, now: int): RateEntry {
    if existing.None? || now - existing.value.lastReset > WindowMs then RateEntry(0, now)
    else existing.value
  }

  datatype Verdict = FreePassAlreadyUsed | TooManyRequests | Admitted

  /** The verdict, and the entry left in the table (None: no entry is written). */
  datatype Admission = Admission(verdict: Verdict, entry: Option<RateEntry>)

  /** The admission rule of `/api/store-job-data`. The free-pass gate comes
      first and counts nothing; a request over the limit counts nothing; an
      admitted request counts exactly one. An existing entry is shared with
      the table, so a window reset is kept even when the request is refused. */
  function Admit(existing: Option<RateEntry>, now: int, paid: bool, freePassUsed: bool): (a: Admission)
    ensures a.verdict == FreePassAlreadyUsed <==> !paid && freePassUsed
    ensures a.verdict == TooManyRequests <==>
      !(!paid && freePassUsed) && WindowEntry(existing, now).count >= MaxRequests(paid)
    ensures a.verdict == Admitted ==>
      a.entry == Some(RateEntry(WindowEntry(existing, now).count + 1, WindowEntry(existing, now).lastReset))
    ensures a.verdict != Admitted ==>
      a.entry == (if existing.Some? then Some(WindowEntry(existing, now)) else None)
    ensures existing.Some? && now - existing.value.lastReset <= WindowMs && a.entry.Some? ==>
      a.entry.value.lastReset == existing.value.lastReset
    ensures (existing.Some? ==> 0 <= existing.value.count <= 10) && a.entry.Some? ==>
      0 <= a.entry.value.count <= 10
  {
    var w := WindowEntry(existing, now);
    if !paid && freePassUsed then Admission(FreePassAlreadyUsed, if existing.Some? then Some(w) else None)
    else if w.count >= MaxRequests(paid) then Admission(TooManyRequests, if existing.Some? then Some(w) else None)
    else Admission(Admitted, Some(RateEntry(w.count + 1, w.lastReset)))
  }

  /** Writes the admission's entry back to the table. */
  function Persist(m: map<string, RateEntry>, userId: string, entry: Option<RateEntry>): map<string, RateEntry> {
    if entry.Some? then m[userId := entry.value] else m
  }

  /** One store request of a sequence: its time and whether it names a bundle type. */
  datatype Attempted = Attempted(now: int, paid: bool)

  /** Runs a sequence of requests of one user through the admission rule;
      returns the final entry and how many were admitted. */
  function AdmitAll(entry: Option<RateEntry>, reqs: seq<Attempted>, freePassUsed: bool): (Option<RateEntry>, nat)
    decreases |reqs|
  {
    if reqs == [] then (entry, 0)
    else
      var a := Admit(entry, reqs[0].now, reqs[0].paid, freePassUsed);
      var rest := AdmitAll(a.entry, reqs[1..], freePassUsed);
      (rest.0, rest.1 + if a.verdict == Admitted then 1 else 0)
  }

  /** Within one window, requests whose limit is at most `cap` are admitted
      at most `cap - count` times: 10 per window at most, 5 when none is a purchase. */
  lemma {:induction false} AdmissionsPerWindow(count: int, start: int, reqs: seq<Attempted>, freePassUsed: bool, cap: nat)
    requires 0 <= count
    requires forall i :: 0 <= i < |reqs| ==> start <= reqs[i].now <= start + WindowMs
    requires forall i :: 0 <= i < |reqs| ==> MaxRequests(reqs[i].paid) <= cap
    ensures AdmitAll(Some(RateEntry(count, start)), reqs, freePassUsed).1 <= if count >= cap then 0 else cap - count
    decreases |reqs|
  {
    if reqs != [] {
      var a := Admit(Some(RateEntry(count, start)), reqs[0].now, reqs[0].paid, freePassUsed);
      var next := if a.verdict == Admitted then count + 1 else count;
      assert a.entry == Some(RateEntry(next, start));
      AdmissionsPerWindow(next, start, reqs[1..], freePassUsed, cap);
    }
  }

  /** `parseInt(refinementLevel, 10)` with NaN replaced by 5; no range check. */
  function StoreTimeLevel(v: JsValue): int {
    match ParseInt(v)
    case Some(n) => n
    case None => 5
  }

  /** Any integer level is stored as given, out-of-range ones included. */
  lemma StoreTimeLevelKeepsNumbers(n: int)
    ensures StoreTimeLevel(Num(n)) == n
    ensures StoreTimeLevel(Str(IntToString(n))) == n
  {
    ParseIntOfNumber(n);
  }

  /** A missing or non-numeric level becomes 5. */
  lemma StoreTimeLevelDefaults()
    ensures StoreTimeLevel(Undefined) == 5
    ensures StoreTimeLevel(Null) == 5
    ensures StoreTimeLevel(Str("high")) == 5
  {
    ParseIntOfWord("undefined");
    ParseIntOfWord("null");
    ParseIntOfWord("high");
  }

  // ---------------------------------------------------------------------------
  // Request and reply shapes
  // ---------------------------------------------------------------------------

  datatype StoreJobRequest = StoreJobRequest(
    bundleType: JsValue, jobUrl: JsValue, cvHTML: JsValue,
    refinementLevel: JsValue, tabSessionId: JsValue)

  datatype StoreJobReply =
    | FreePassUsed429
    | RateLimited429
    | FieldsRequired400
    | JobStored(jobId: string, refinementLevel: int)

  /** The record `/api/store-job-data` writes; `randomTab` stands for the
      random tab id drawn when the request carries none. */
  function NewJobRecord(jobId: string, req: StoreJobRequest, userId: string, timestamp: string, randomTab: string): Record {
    map[
      "jobId" := Str(jobId),
      "jobUrl" := req.jobUrl,
      "cvHTML" := req.cvHTML,
      "refinementLevel" := Num(StoreTimeLevel(req.refinementLevel)),
      "tabSessionId" := Or(req.tabSessionId, Str(randomTab)),
      "userId" := Str(userId),
      "bundleType" := req.bundleType,
      "createdAt" := Str(timestamp),
      "checkoutPending" := Bool(true),
      "lastUpdated" := Str(timestamp)
    ]
  }

  /** Result of a call whose response may fail: it threw, or returned with `ok`. */
  datatype CallOutcome = CallThrew | CallReturned(ok: bool)

  /** The body of an internal `/refine` call. */
  datatype RefineCall = RefineCall(
    orderId: string, jobId: string, tabSessionId: JsValue,
    jobUrl: JsValue, cvHTML: JsValue, refinementLevel: JsValue)

  /** The custom fields of the checkout sent to the payment provider. */
  datatype CheckoutRequest = CheckoutRequest(
    customPrice: int, jobId: string, refinementLevel: string,
    bundleType: JsValue, userId: string)

  datatype CheckoutReply =
    | JobIdRequired400
    | JobNotFound400
    | CreditUsed(remainingCredits: int)
    | CreditRefunded500
    | CheckoutCreated(checkoutUrl: string, refinementLevel: JsValue, bundleType: JsValue)
    | CheckoutFailed500

  /** The price in cents: 500 for a bundle, 100 for anything else. */
  function CheckoutPrice(bundleType: JsValue): (cents: int)
    ensures cents == 500 <==> bundleType == Str("bundle")
    ensures cents == 100 <==> bundleType != Str("bundle")
  {
    if bundleType == Str("bundle") then 500 else 100
  }

  /** `const { bundleType = 'single' } = req.body`: the default replaces undefined only. */
  function BundleTypeOrSingle(v: JsValue): JsValue {
    if v == Undefined then Str("single") else v
  }

  /** A level sent with the checkout replaces the stored one when it parses. */
  function WithRequestedLevel(rec: Record, requested: JsValue): (r: Record)
    ensures requested != Undefined && ParseInt(requested).Some? ==>
      r == rec["refinementLevel" := Num(ParseInt(requested).value)]
    ensures !(requested != Undefined && ParseInt(requested).Some?) ==> r == rec
  {
    if requested != Undefined && ParseInt(requested).Some? then rec["refinementLevel" := Num(ParseInt(requested).value)]
    else rec
  }

  /** The internal `/refine` call made when a credit is redeemed. */
  function CreditRefineCall(jobId: string, tabSessionId: JsValue, rec: Record): RefineCall {
    RefineCall("credit-" + jobId, jobId, tabSessionId, Field(rec, "jobUrl"), Field(rec, "cvHTML"),
               Or(Field(rec, "refinementLevel"), Num(5)))
  }

  // ---------------------------------------------------------------------------
  // Webhook shapes
  // ---------------------------------------------------------------------------

  /** What the correlation heuristics of a paid order produce: either the
      checkout mapping matched and its assignments hit variables still in their
      temporal dead zone, or the ids they settled on, and whether the branch
      that clears the user's rate limit was taken. */
  datatype Correlation =
    | MappingReferenceError
    | Correlated(jobId: string, userId: string, tabSessionId: JsValue,
                 refinementLevel: JsValue, bundleType: JsValue, clearsRateLimit: bool)

  /** A webhook delivery: whether the body parsed, its event id ("" when
      absent), whether the signature header matches the HMAC of the body,
      whether it has `meta.event_name` and `data`, the event name, the order
      status and id, and the correlation result. */
  datatype WebhookEvent = WebhookEvent(
    parsed: bool, eventId: string, signatureValid: bool, wellFormed: bool,
    eventName: string, orderStatus: JsValue, orderId: string, correlation: Correlation)

  datatype WebhookReply =
    | WebhookError500
    | Duplicate200
    | SecretMissing500
    | InvalidSignature401
    | InvalidStructure400
    | CreditsAdded200(userId: string)
    | NoJobData200
    | RefineFailed500
    | RefineError500
    | Paid200(orderId: string, jobId: string, refinementLevel: JsValue)
    | Received200

  /** The replies after which the event id is recorded as processed. */
  predicate MarksProcessed(reply: WebhookReply) {
    reply.CreditsAdded200? || reply.Paid200? || reply.Received200?
  }

  predicate IsPaidOrder(ev: WebhookEvent) {
    ev.eventName == "order_created" && ev.orderStatus == Str("paid")
  }

  /** A delivery that gets past parsing, duplicate suppression, the secret,
      the signature and the structure check. */
  predicate Authentic(ev: WebhookEvent, secretConfigured: bool, processed: set<string>) {
    ev.parsed && !(ev.eventId != "" && ev.eventId in processed) &&
    secretConfigured && ev.signatureValid && ev.wellFormed
  }

  /** The webhook's answer once `/refine` has been called for a paid order:
      200 with the order, job and level on an ok answer, 500 otherwise. */
  function RefineReply(outcome: CallOutcome, orderId: string, jobId: string, level: JsValue): (reply: WebhookReply)
    ensures reply.Paid200? <==> outcome == CallReturned(true)
    ensures reply.Paid200? ==> reply == Paid200(orderId, jobId, level)
    ensures reply == RefineError500 <==> outcome == CallThrew
    ensures reply == RefineFailed500 <==> outcome == CallReturned(false)
  {
    match outcome
    case CallThrew => RefineError500
    case CallReturned(ok) => if ok then Paid200(orderId, jobId, level) else RefineFailed500
  }

  /** The level sent to `/refine` for a paid order: a string is parsed (NaN
      and 0 fall through), anything else is used when truthy; then the stored
      level; then 5. */
  function WebhookLevel(requested: JsValue, stored: JsValue): (level: JsValue)
    ensures Truthy(level)
    ensures requested.Str? && ParseInt(requested).Some? && ParseInt(requested).value != 0 ==>
      level == Num(ParseInt(requested).value)
    ensures !requested.Str? && Truthy(requested) ==> level == requested
    ensures ((requested.Str? ==> ParseInt(requested).None? || ParseInt(requested).value == 0) &&
             !(!requested.Str? && Truthy(requested))) ==> level == Or(stored, Num(5))
  {
    var fallback := Or(stored, Num(5));
    if requested.Str? then
      match ParseInt(requested)
      case Some(n) => if n != 0 then Num(n) else fallback
      case None => fallback
    else Or(requested, fallback)
  }

  /** The merge a bundle purchase applies to the job record. */
  function BundleMerge(existing: Record, completedAt: string): (r: Record)
    ensures r.Keys == existing.Keys + {"isBundlePurchase", "bundleCredits", "completedAt"}
    ensures r["isBundlePurchase"] == Bool(true) && r["bundleCredits"] == Num(BundleCredits)
    ensures r["completedAt"] == Str(completedAt)
    ensures forall k :: k in existing && k !in {"isBundlePurchase", "bundleCredits", "completedAt"} ==> r[k] == existing[k]
  {
    existing["isBundlePurchase" := Bool(true)]["bundleCredits" := Num(BundleCredits)]["completedAt" := Str(completedAt)]
  }

  // ---------------------------------------------------------------------------
  // Status view
  // ---------------------------------------------------------------------------

  datatype StatusView =
    | JobIdRequired
    | Pending
    | BundlePurchase(bundleCredits: JsValue)
    | WrongTab
    | Completed(refinedHTML: JsValue, changes: JsValue, extractedKeywords: JsValue)
    | Processing

  /** Two tab ids conflict when both are present and they differ. */
  predicate TabsConflict(requested: JsValue, stored: JsValue) {
    Truthy(requested) && Truthy(stored) && requested != stored
  }

  /** `/api/refinement-status`. The status is derived from the fields present
      on the record, in this order: missing record, bundle purchase, tab
      conflict, refined result, otherwise still processing. */
  function RefinementStatus(jobs: map<string, Record>, jobId: string, tab: JsValue): (v: StatusView)
    ensures v == JobIdRequired <==> jobId == ""
    ensures v == Pending <==> jobId != "" && jobId !in jobs
    ensures v.BundlePurchase? <==>
      jobId != "" && jobId in jobs && Truthy(Field(jobs[jobId], "isBundlePurchase"))
    ensures v.BundlePurchase? ==>
      v.bundleCredits == Or(Field(jobs[jobId], "bundleCredits"), Num(BundleCredits)) && Truthy(v.bundleCredits)
    ensures v == WrongTab <==>
      jobId != "" && jobId in jobs && !Truthy(Field(jobs[jobId], "isBundlePurchase")) &&
      TabsConflict(tab, Field(jobs[jobId], "tabSessionId"))
    ensures v.Completed? <==>
      jobId != "" && jobId in jobs && !Truthy(Field(jobs[jobId], "isBundlePurchase")) &&
      !TabsConflict(tab, Field(jobs[jobId], "tabSessionId")) && Truthy(Field(jobs[jobId], "refinedHTML"))
    ensures v.Completed? ==>
      v == Completed(Field(jobs[jobId], "refinedHTML"), Field(jobs[jobId], "changes"),
                     Field(jobs[jobId], "extractedKeywords"))
  {
    if jobId == "" then JobIdRequired
    else if jobId !in jobs then Pending
    else
      var rec := jobs[jobId];
      if Truthy(Field(rec, "isBundlePurchase")) then BundlePurchase(Or(Field(rec, "bundleCredits"), Num(BundleCredits)))
      else if TabsConflict(tab, Field(rec, "tabSessionId")) then WrongTab
      else if Truthy(Field(rec, "refinedHTML")) then
        Completed(Field(rec, "refinedHTML"), Field(rec, "changes"), Field(rec, "extractedKeywords"))
      else Processing
  }

  /** `/api/get-job-data` as written: the reply carries the job id, URL, CV
      and creation time, but not the refinement level. */
  function GetJobDataReply(jobs: map<string, Record>, jobId: string): (reply: Option<Record>)
    ensures reply.Some? <==> jobId != "" && jobId in jobs
    ensures reply.Some? ==> "refinementLevel" !in reply.value
    ensures reply.Some? ==> forall k :: k in {"jobId", "jobUrl", "cvHTML", "createdAt"} ==>
      Field(reply.value, k) == Field(jobs[jobId], k)
  {
    if jobId != "" && jobId in jobs then
      var rec := jobs[jobId];
      Some(map["status" := Str("success"), "jobId" := Field(rec, "jobId"), "jobUrl" := Field(rec, "jobUrl"),
               "cvHTML" := Field(rec, "cvHTML"), "createdAt" := Field(rec, "createdAt")])
    else None
  }

  /** `/api/get-job-data` with the stored refinement level added to the reply,
      which the checkout page's fallback call reads. */
  function GetJobDataReplyWithLevel(jobs: map<string, Record>, jobId: string): (reply: Option<Record>)
    ensures reply.Some? <==> jobId != "" && jobId in jobs
    ensures reply.Some? ==> forall k :: k in {"jobId", "jobUrl", "cvHTML", "createdAt", "refinementLevel"} ==>
      Field(reply.value, k) == Field(jobs[jobId], k)
  {
    match GetJobDataReply(jobs, jobId)
    case None => None
    case Some(r) => Some(r["refinementLevel" := Field(jobs[jobId], "refinementLevel")])
  }

  // ---------------------------------------------------------------------------
  // Rate-limit report
  // ---------------------------------------------------------------------------

  datatype RateReport = NoRateData | RateReport(rateLimited: bool, requests: int, windowRemainingSeconds: int)

  /** `/api/check-rate-limit`: the remaining window is rounded up to whole seconds. */
  function CheckRateLimit(entry: Option<RateEntry>, now: int): (r: RateReport)
    ensures r.NoRateData? <==> entry.None?
    ensures r.RateReport? ==> r.rateLimited == (entry.value.count >= 10) && r.requests == entry.value.count
    ensures r.RateReport? ==> r.windowRemainingSeconds >= 0
    ensures r.RateReport? ==> (r.windowRemainingSeconds == 0 <==> now - entry.value.lastReset >= WindowMs)
    ensures r.RateReport? && r.windowRemainingSeconds > 0 ==>
      1000 * (r.windowRemainingSeconds - 1) < WindowMs - (now - entry.value.lastReset) <= 1000 * r.windowRemainingSeconds
  {
    match entry
    case None => NoRateData
    case Some(e) =>
      var remaining := if WindowMs - (now - e.lastReset) > 0 then WindowMs - (now - e.lastReset) else 0;
      RateReport(e.count >= 10, e.count, (remaining + 999) / 1000)
  }

  /** A report of "rate limited" within the current window is never wrong:
      the next store request is refused, whatever its type. */
  lemma ReportedLimitIsEnforced(e: RateEntry, now: int, paid: bool, freePassUsed: bool)
    requires CheckRateLimit(Some(e), now).rateLimited
    requires now - e.lastReset <= WindowMs
    ensures Admit(Some(e), now, paid, freePassUsed).verdict != Admitted
  {
  }

  // ---------------------------------------------------------------------------
  // Retry loop for outgoing calls
  // ---------------------------------------------------------------------------

  /** One fetch: it threw, or it produced a response with this status. */
  datatype Attempt = Threw | Responded(status: int)

  /** What `fetchWithRetry` ends with: a response, the last error rethrown,
      or undefined after running out of retries on retryable statuses. */
  datatype FetchResult = Response(status: int) | Rethrown | NoResponse

  predicate IsOk(status: int) {
    200 <= status <= 299
  }

  /** 429 and 5xx responses are retried. */
  predicate IsRetryable(status: int) {
    status == 429 || (500 <= status < 600)
  }

  /** The attempt leads to another try (if any are left). */
  predicate Retried(a: Attempt) {
    a.Threw? || (!IsOk(a.status) && IsRetryable(a.status))
  }

  /** `fetchWithRetry`. `outcome(i)` is what the i-th fetch gives; `delays`
      are the waits, which grow linearly: 1000 ms, 2000 ms, 3000 ms, ... */
  method FetchWithRetry(maxRetries: int, outcome: nat -> Attempt)
    returns (r: FetchResult, attempts: nat, delays: seq<int>)
    ensures attempts <= if maxRetries > 0 then maxRetries else 0
    ensures forall i :: 0 <= i < |delays| ==> delays[i] == 1000 * (i + 1)
    ensures forall i :: 0 <= i < attempts - 1 ==> Retried(outcome(i))
    ensures r.Response? ==>
      attempts >= 1 && outcome(attempts - 1) == Responded(r.status) &&
      !Retried(outcome(attempts - 1)) && |delays| == attempts - 1
    ensures r.Rethrown? ==>
      attempts >= 1 && attempts == maxRetries && outcome(attempts - 1) == Threw && |delays| == attempts - 1
    ensures r.NoResponse? ==>
      attempts == (if maxRetries > 0 then maxRetries else 0) && |delays| == attempts &&
      (attempts > 0 ==> outcome(attempts - 1).Responded? && Retried(outcome(attempts - 1)))
  {
    var retries := 0;
    attempts := 0;
    delays := [];
    while retries < maxRetries
      invariant 0 <= retries && (maxRetries > 0 ==> retries <= maxRetries) && (maxRetries <= 0 ==> retries == 0)
      invariant attempts == retries && |delays| == retries
      invariant forall i :: 0 <= i < |delays| ==> delays[i] == 1000 * (i + 1)
      invariant forall i :: 0 <= i < attempts ==> Retried(outcome(i))
      invariant attempts > 0 && outcome(attempts - 1).Threw? ==> attempts < maxRetries
      decreases maxRetries - retries
    {
      var a := outcome(attempts);
      attempts := attempts + 1;
      match a
      case Responded(status) =>
        if IsOk(status) || !IsRetryable(status) {
          r := Response(status);
          return;
        }
        retries := retries + 1;
        delays := delays + [1000 * retries];
      case Threw =>
        retries := retries + 1;
        if retries >= maxRetries {
          r := Rethrown;
          return;
        }
        delays := delays + [1000 * retries];
    }
    r := NoResponse;
  }

  // ---------------------------------------------------------------------------
  // The server state
  // ---------------------------------------------------------------------------

  class Server {
    const store: Storage.Store
    /** userRateLimits. */
    var rateLimits: map<string, RateEntry>
    /** processedWebhooks. */
    var processedWebhooks: set<string>

    constructor(store: Storage.Store)
      ensures this.store == store && rateLimits == map[] && processedWebhooks == {}
    {
      this.store := store;
      rateLimits := map[];
      processedWebhooks := {};
    }

    /** Every counter lies between 0 and the largest limit. */
    ghost predicate Valid()
      reads this
    {
      forall u :: u in rateLimits ==> 0 <= rateLimits[u].count <= 10
    }

    /** `/api/store-job-data` for the user `userId` at time `now`. */
    method StoreJobData(req: StoreJobRequest, userId: string, now: int, timestamp: string,
                        newJobId: string, randomTab: string)
      returns (reply: StoreJobReply)
      requires Valid()
      modifies this`rateLimits, store`jobs
      ensures Valid()
      ensures var a := Admit(Lookup(old(rateLimits), userId), now, Truthy(req.bundleType),
                             store.HasUsedFreePass(userId));
        && rateLimits == Persist(old(rateLimits), userId, a.entry)
        && (reply == FreePassUsed429 <==> a.verdict == FreePassAlreadyUsed)
        && (reply == RateLimited429 <==> a.verdict == TooManyRequests)
        && (reply == FieldsRequired400 <==>
              a.verdict == Admitted && !(Truthy(req.jobUrl) && Truthy(req.cvHTML)))
      ensures reply.JobStored? ==>
        reply == JobStored(newJobId, StoreTimeLevel(req.refinementLevel)) &&
        store.jobs == old(store.jobs)[newJobId := NewJobRecord(newJobId, req, userId, timestamp, randomTab)]
      ensures !reply.JobStored? ==> store.jobs == old(store.jobs)
    {
      var a := Admit(Lookup(rateLimits, userId), now, Truthy(req.bundleType), store.HasUsedFreePass(userId));
      rateLimits := Persist(rateLimits, userId, a.entry);
      if a.verdict == FreePassAlreadyUsed {
        reply := FreePassUsed429;
      } else if a.verdict == TooManyRequests {
        reply := RateLimited429;
      } else if !Truthy(req.jobUrl) || !Truthy(req.cvHTML) {
        reply := FieldsRequired400;
      } else {
        store.jobs := store.jobs[newJobId := NewJobRecord(newJobId, req, userId, timestamp, randomTab)];
        reply := JobStored(newJobId, StoreTimeLevel(req.refinementLevel));
      }
    }

    /** `/api/create-checkout`. A user with credits redeems one and the
        refinement is started at once; when the job data is incomplete or the
        `/refine` call fails, the credit is given back. Otherwise a paid
        checkout is requested (`checkoutUrl`: the URL the provider returned,
        None when that call failed). */
    method CreateCheckout(jobId: string, refinementLevel: JsValue, tabSessionId: JsValue,
                          bundleTypeField: JsValue, userId: string,
                          refineOutcome: CallOutcome, checkoutUrl: Option<string>)
      returns (reply: CheckoutReply, refineCall: Option<RefineCall>, sent: Option<CheckoutRequest>)
      requires store.CreditsNonNegative()
      modifies store`jobs, store`credits
      ensures store.CreditsNonNegative()
      ensures jobId == "" || jobId !in old(store.jobs) ==>
        reply == (if jobId == "" then JobIdRequired400 else JobNotFound400) &&
        store.jobs == old(store.jobs) && store.credits == old(store.credits) &&
        refineCall.None? && sent.None?
      ensures jobId != "" && jobId in old(store.jobs) ==>
        store.jobs == old(store.jobs)[jobId := WithRequestedLevel(old(store.jobs)[jobId], refinementLevel)]
      // redeeming a credit
      ensures jobId != "" && jobId in old(store.jobs) && old(store.GetUserCredits(userId)) > 0 ==>
        sent.None? &&
        (reply == CreditUsed(old(store.GetUserCredits(userId)) - 1) || reply == CreditRefunded500)
      ensures reply.CreditUsed? ==>
        store.credits == old(store.credits)[userId := old(store.GetUserCredits(userId)) - 1] &&
        refineCall.Some? && refineOutcome == CallReturned(true)
      ensures reply == CreditRefunded500 ==> store.credits == old(store.credits)
      ensures refineCall.Some? ==>
        refineCall.value == CreditRefineCall(jobId, tabSessionId, store.jobs[jobId]) &&
        Truthy(refineCall.value.jobUrl) && Truthy(refineCall.value.cvHTML)
      ensures jobId != "" && jobId in old(store.jobs) && old(store.GetUserCredits(userId)) > 0 ==>
        && (refineCall.Some? <==>
              Truthy(Field(store.jobs[jobId], "jobUrl")) && Truthy(Field(store.jobs[jobId], "cvHTML")))
        && (reply.CreditUsed? <==> refineCall.Some? && refineOutcome == CallReturned(true))
      // paying
      ensures jobId != "" && jobId in old(store.jobs) && old(store.GetUserCredits(userId)) <= 0 ==>
        var level := Field(store.jobs[jobId], "refinementLevel");
        var bundleType := BundleTypeOrSingle(bundleTypeField);
        && store.credits == old(store.credits) && refineCall.None?
        && sent == Some(CheckoutRequest(CheckoutPrice(bundleType), jobId, ToJsString(level), bundleType, userId))
        && reply == (if checkoutUrl.Some? && checkoutUrl.value != ""
                     then CheckoutCreated(checkoutUrl.value, level, bundleType)
                     else CheckoutFailed500)
    {
      refineCall := None;
      sent := None;
      if jobId == "" {
        reply := JobIdRequired400;
        return;
      }
      if jobId !in store.jobs {
        reply := JobNotFound400;
        return;
      }
      var bundleType := BundleTypeOrSingle(bundleTypeField);
      store.jobs := store.jobs[jobId := WithRequestedLevel(store.jobs[jobId], refinementLevel)];
      var jobData := store.jobs[jobId];

      var userCredits := store.GetUserCredits(userId);
      if userCredits > 0 {
        reply, refineCall := RedeemCredit(jobId, tabSessionId, userId, jobData, refineOutcome);
        return;
      }

      var level := Field(jobData, "refinementLevel");
      sent := Some(CheckoutRequest(CheckoutPrice(bundleType), jobId, ToJsString(level), bundleType, userId));
      if checkoutUrl.Some? && checkoutUrl.value != "" {
        reply := CheckoutCreated(checkoutUrl.value, level, bundleType);
      } else {
        reply := CheckoutFailed500;
      }
    }

    /** The credit branch of `/api/create-checkout`: one credit is debited,
        and given back when the job data is incomplete or the `/refine` call
        throws or answers not ok. */
    method RedeemCredit(jobId: string, tabSessionId: JsValue, userId: string, jobData: Record,
                        refineOutcome: CallOutcome)
      returns (reply: CheckoutReply, refineCall: Option<RefineCall>)
      requires store.CreditsNonNegative() && store.GetUserCredits(userId) > 0
      modifies store`credits
      ensures store.CreditsNonNegative()
      ensures reply == CreditUsed(old(store.GetUserCredits(userId)) - 1) || reply == CreditRefunded500
      ensures reply.CreditUsed? ==>
        store.credits == old(store.credits)[userId := old(store.GetUserCredits(userId)) - 1] &&
        refineCall.Some? && refineOutcome == CallReturned(true)
      ensures reply == CreditRefunded500 ==> store.credits == old(store.credits)
      ensures refineCall.Some? ==>
        refineCall.value == CreditRefineCall(jobId, tabSessionId, jobData) &&
        Truthy(refineCall.value.jobUrl) && Truthy(refineCall.value.cvHTML)
      // `/refine` is called exactly when the job has a URL and a CV, and the
      // debit is kept exactly when it answers ok
      ensures refineCall.Some? <==> Truthy(Field(jobData, "jobUrl")) && Truthy(Field(jobData, "cvHTML"))
      ensures reply.CreditUsed? <==> refineCall.Some? && refineOutcome == CallReturned(true)
    {
      refineCall := None;
      var userCredits := store.GetUserCredits(userId);
      var debited := store.DeductUserCredit(userId);
      if !Truthy(Field(jobData, "jobUrl")) || !Truthy(Field(jobData, "cvHTML")) {
        var _ := store.AddUserCredits(userId, 1);
        reply := CreditRefunded500;
        return;
      }
      refineCall := Some(CreditRefineCall(jobId, tabSessionId, jobData));
      if refineOutcome == CallReturned(true) {
        reply := CreditUsed(userCredits - 1);
      } else {
        var _ := store.AddUserCredits(userId, 1);
        reply := CreditRefunded500;
      }
    }

    /** Records a processed event id; an absent id is not recorded. */
    method MarkProcessed(eventId: string)
      modifies this`processedWebhooks
      ensures processedWebhooks == if eventId != "" then old(processedWebhooks) + {eventId} else old(processedWebhooks)
    {
      if eventId != "" {
        processedWebhooks := processedWebhooks + {eventId};
      }
    }

    /** `/webhooks/lemonsqueezy`. `secretConfigured` is whether the webhook
        secret is set; `refineOutcome` is how the `/refine` call ends when one
        is made; `completedAt` is the current time for a bundle record. */
    method HandleWebhook(ev: WebhookEvent, secretConfigured: bool, refineOutcome: CallOutcome, completedAt: string)
      returns (reply: WebhookReply, refineCall: Option<RefineCall>)
      requires Valid()
      modifies this`processedWebhooks, this`rateLimits, store`credits, store`jobs
      ensures Valid()
      // duplicate suppression comes before the signature check and has no effect
      ensures ev.parsed && ev.eventId != "" && ev.eventId in old(processedWebhooks) ==>
        reply == Duplicate200 && refineCall.None? && processedWebhooks == old(processedWebhooks) &&
        rateLimits == old(rateLimits) && store.credits == old(store.credits) && store.jobs == old(store.jobs)
      ensures !Authentic(ev, secretConfigured, old(processedWebhooks)) ==>
        rateLimits == old(rateLimits) && store.credits == old(store.credits) && store.jobs == old(store.jobs) &&
        processedWebhooks == old(processedWebhooks) && refineCall.None? && !MarksProcessed(reply)
      // the event id is recorded only after credits were added, a refinement was accepted, or another event
      ensures processedWebhooks ==
        if MarksProcessed(reply) && ev.eventId != "" then old(processedWebhooks) + {ev.eventId}
        else old(processedWebhooks)
      ensures Authentic(ev, secretConfigured, old(processedWebhooks)) && !IsPaidOrder(ev) ==>
        reply == Received200 && refineCall.None?
      ensures (Authentic(ev, secretConfigured, old(processedWebhooks)) && IsPaidOrder(ev) &&
               ev.correlation.MappingReferenceError?) ==> reply == WebhookError500
      // rate-limit clearing inside the correlation heuristics
      ensures rateLimits ==
        if Authentic(ev, secretConfigured, old(processedWebhooks)) && IsPaidOrder(ev) &&
           ev.correlation.Correlated? && ev.correlation.clearsRateLimit && ev.correlation.userId != ""
        then old(rateLimits) - {ev.correlation.userId}
        else old(rateLimits)
      // a bundle with a user adds exactly ten credits and marks the job
      ensures reply.CreditsAdded200? ==>
        ev.correlation.Correlated? && ev.correlation.bundleType == Str("bundle") &&
        reply.userId == ev.correlation.userId && reply.userId != "" &&
        store.credits == old(store.credits)[reply.userId := old(store.GetUserCredits(reply.userId)) + BundleCredits]
      ensures !reply.CreditsAdded200? ==> store.credits == old(store.credits)
      ensures store.jobs ==
        if reply.CreditsAdded200? && ev.correlation.jobId != ""
        then old(store.jobs)[ev.correlation.jobId :=
               BundleMerge(if ev.correlation.jobId in old(store.jobs) then old(store.jobs)[ev.correlation.jobId] else map[],
                           completedAt)]
        else old(store.jobs)
      // otherwise the stored job is sent to /refine
      ensures refineCall.Some? <==> reply.Paid200? || reply == RefineFailed500 || reply == RefineError500
      ensures refineCall.Some? ==>
        ev.correlation.Correlated? && ev.correlation.jobId in store.jobs &&
        var rec := store.jobs[ev.correlation.jobId];
        refineCall.value == RefineCall(ev.orderId, ev.correlation.jobId, ev.correlation.tabSessionId,
                                       Field(rec, "jobUrl"), Field(rec, "cvHTML"),
                                       WebhookLevel(ev.correlation.refinementLevel, Field(rec, "refinementLevel")))
      ensures reply.Paid200? ==>
        refineOutcome == CallReturned(true) && refineCall.Some? &&
        reply == Paid200(ev.orderId, refineCall.value.jobId, refineCall.value.refinementLevel)
      // the rejections, in the order they are checked
      ensures !ev.parsed ==> reply == WebhookError500
      ensures ev.parsed && !(ev.eventId != "" && ev.eventId in old(processedWebhooks)) && !secretConfigured ==>
        reply == SecretMissing500
      ensures (ev.parsed && !(ev.eventId != "" && ev.eventId in old(processedWebhooks)) && secretConfigured &&
               !ev.signatureValid) ==> reply == InvalidSignature401
      ensures (ev.parsed && !(ev.eventId != "" && ev.eventId in old(processedWebhooks)) && secretConfigured &&
               ev.signatureValid && !ev.wellFormed) ==> reply == InvalidStructure400
      // a correlated paid order
      ensures Authentic(ev, secretConfigured, old(processedWebhooks)) && IsPaidOrder(ev) && ev.correlation.Correlated? ==>
        var c := ev.correlation;
        && (reply.CreditsAdded200? <==> c.bundleType == Str("bundle") && c.userId != "")
        && (reply == NoJobData200 <==>
              !(c.bundleType == Str("bundle") && c.userId != "") && (c.jobId == "" || c.jobId !in old(store.jobs)))
        && (refineCall.Some? <==>
              !(c.bundleType == Str("bundle") && c.userId != "") && c.jobId != "" && c.jobId in old(store.jobs))
        && (refineCall.Some? ==> reply == RefineReply(refineOutcome, ev.orderId, c.jobId, refineCall.value.refinementLevel))
      ensures reply == NoJobData200 ==>
        ev.correlation.Correlated? && (ev.correlation.jobId == "" || ev.correlation.jobId !in old(store.jobs))
    {
      refineCall := None;
      if !ev.parsed {
        reply := WebhookError500;
        return;
      }
      if ev.eventId != "" && ev.eventId in processedWebhooks {
        reply := Duplicate200;
        return;
      }
      if !secretConfigured {
        reply := SecretMissing500;
        return;
      }
      if !ev.signatureValid {
        reply := InvalidSignature401;
        return;
      }
      if !ev.wellFormed {
        reply := InvalidStructure400;
        return;
      }
      if !IsPaidOrder(ev) {
        MarkProcessed(ev.eventId);
        reply := Received200;
        return;
      }
      if ev.correlation.MappingReferenceError? {
        reply := WebhookError500;
        return;
      }
      reply, refineCall := ProcessPaidOrder(ev, refineOutcome, completedAt);
    }

    /** A paid order whose correlation produced ids: clear the user's rate
        limit when that branch was taken; a bundle bought by a known user adds
        credits; otherwise the stored job is sent to `/refine`. */
    method ProcessPaidOrder(ev: WebhookEvent, refineOutcome: CallOutcome, completedAt: string)
      returns (reply: WebhookReply, refineCall: Option<RefineCall>)
      requires Valid()
      requires ev.correlation.Correlated?
      modifies this`processedWebhooks, this`rateLimits, store`credits, store`jobs
      ensures Valid()
      ensures reply.CreditsAdded200? || reply == NoJobData200 || reply.Paid200? ||
              reply == RefineFailed500 || reply == RefineError500
      ensures processedWebhooks ==
        if MarksProcessed(reply) && ev.eventId != "" then old(processedWebhooks) + {ev.eventId}
        else old(processedWebhooks)
      ensures rateLimits ==
        if ev.correlation.clearsRateLimit && ev.correlation.userId != ""
        then old(rateLimits) - {ev.correlation.userId}
        else old(rateLimits)
      ensures reply.CreditsAdded200? <==> ev.correlation.bundleType == Str("bundle") && ev.correlation.userId != ""
      ensures reply.CreditsAdded200? ==>
        reply.userId == ev.correlation.userId &&
        store.credits == old(store.credits)[reply.userId := old(store.GetUserCredits(reply.userId)) + BundleCredits]
      ensures !reply.CreditsAdded200? ==> store.credits == old(store.credits)
      ensures store.jobs ==
        if reply.CreditsAdded200? && ev.correlation.jobId != ""
        then old(store.jobs)[ev.correlation.jobId :=
               BundleMerge(if ev.correlation.jobId in old(store.jobs) then old(store.jobs)[ev.correlation.jobId] else map[],
                           completedAt)]
        else old(store.jobs)
      ensures refineCall.Some? <==> reply.Paid200? || reply == RefineFailed500 || reply == RefineError500
      ensures refineCall.Some? ==>
        ev.correlation.jobId in store.jobs &&
        var rec := store.jobs[ev.correlation.jobId];
        refineCall.value == RefineCall(ev.orderId, ev.correlation.jobId, ev.correlation.tabSessionId,
                                       Field(rec, "jobUrl"), Field(rec, "cvHTML"),
                                       WebhookLevel(ev.correlation.refinementLevel, Field(rec, "refinementLevel")))
      ensures reply.Paid200? ==>
        refineOutcome == CallReturned(true) && refineCall.Some? &&
        reply == Paid200(ev.orderId, refineCall.value.jobId, refineCall.value.refinementLevel)
      ensures refineCall.Some? ==>
        reply == RefineReply(refineOutcome, ev.orderId, ev.correlation.jobId, refineCall.value.refinementLevel)
      ensures refineCall.Some? <==>
        !(ev.correlation.bundleType == Str("bundle") && ev.correlation.userId != "") &&
        ev.correlation.jobId != "" && ev.correlation.jobId in old(store.jobs)
      ensures reply == NoJobData200 <==>
        !(ev.correlation.bundleType == Str("bundle") && ev.correlation.userId != "") &&
        (ev.correlation.jobId == "" || ev.correlation.jobId !in old(store.jobs))
    {
      refineCall := None;
      var Correlated(jobId, userId, tabSessionId, requestedLevel, bundleType, clearsRateLimit) := ev.correlation;
      if clearsRateLimit && userId != "" {
        rateLimits := rateLimits - {userId};
      }
      if bundleType == Str("bundle") && userId != "" {
        reply := AddBundleCredits(ev.eventId, userId, jobId, completedAt);
        return;
      }
      if jobId == "" || jobId !in store.jobs {
        reply := NoJobData200;
        return;
      }
      reply, refineCall := RefineStoredJob(ev.eventId, ev.orderId, jobId, tabSessionId, requestedLevel, refineOutcome);
    }

    /** A bundle bought by a known user: ten credits, the job (when there is
        one) marked as a bundle purchase, and the event recorded. */
    method AddBundleCredits(eventId: string, userId: string, jobId: string, completedAt: string)
      returns (reply: WebhookReply)
      modifies this`processedWebhooks, store`credits, store`jobs
      ensures reply == CreditsAdded200(userId)
      ensures processedWebhooks == if eventId != "" then old(processedWebhooks) + {eventId} else old(processedWebhooks)
      ensures store.credits == old(store.credits)[userId := old(store.GetUserCredits(userId)) + BundleCredits]
      ensures old(store.CreditsNonNegative()) ==> store.CreditsNonNegative()
      ensures store.jobs ==
        if jobId != ""
        then old(store.jobs)[jobId := BundleMerge(if jobId in old(store.jobs) then old(store.jobs)[jobId] else map[],
                                                  completedAt)]
        else old(store.jobs)
    {
      var _ := store.AddUserCredits(userId, BundleCredits);
      if jobId != "" {
        var existing := if jobId in store.jobs then store.jobs[jobId] else map[];
        store.jobs := store.jobs[jobId := BundleMerge(existing, completedAt)];
      }
      MarkProcessed(eventId);
      reply := CreditsAdded200(userId);
    }

    /** A paid order for a stored job: the job is sent to `/refine` at the
        level the webhook names, or else the stored one; the event is
        recorded only when `/refine` answers ok. */
    method RefineStoredJob(eventId: string, orderId: string, jobId: string, tabSessionId: JsValue,
                           requestedLevel: JsValue, refineOutcome: CallOutcome)
      returns (reply: WebhookReply, refineCall: Option<RefineCall>)
      requires jobId in store.jobs
      modifies this`processedWebhooks
      ensures var rec := store.jobs[jobId];
        refineCall == Some(RefineCall(orderId, jobId, tabSessionId, Field(rec, "jobUrl"), Field(rec, "cvHTML"),
                                      WebhookLevel(requestedLevel, Field(rec, "refinementLevel"))))
      ensures reply == RefineReply(refineOutcome, orderId, jobId, refineCall.value.refinementLevel)
      ensures processedWebhooks ==
        if reply.Paid200? && eventId != "" then old(processedWebhooks) + {eventId} else old(processedWebhooks)
    {
      var jobData := store.jobs[jobId];
      var level := WebhookLevel(requestedLevel, Field(jobData, "refinementLevel"));
      refineCall := Some(RefineCall(orderId, jobId, tabSessionId, Field(jobData, "jobUrl"),
                                    Field(jobData, "cvHTML"), level));
      match refineOutcome
      case CallThrew =>
        reply := RefineError500;
      case CallReturned(ok) =>
        if ok {
          MarkProcessed(eventId);
          reply := Paid200(orderId, jobId, level);
        } else {
          reply := RefineFailed500;
        }
    }


    /** The hourly cleanup: entries whose window started more than ten
        minutes ago are deleted, all others are kept. */
    method CleanupRateLimits(now: int)
      requires Valid()
      modifies this`rateLimits
      ensures Valid()
      ensures rateLimits == map u | u in old(rateLimits) && now - old(rateLimits)[u].lastReset <= 2 * WindowMs
                                :: old(rateLimits)[u]
    {
      var pending := rateLimits.Keys;
      ghost var original := rateLimits;
      while pending != {}
        invariant pending <= original.Keys
        invariant rateLimits == map u | u in original && (u in pending || now - original[u].lastReset <= 2 * WindowMs)
                                    :: original[u]
        decreases pending
      {
        var u :| u in pending;
        if now - rateLimits[u].lastReset > 2 * WindowMs {
          rateLimits := rateLimits - {u};
        }
        pending := pending - {u};
      }
    }
  }
}
