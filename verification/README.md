# CV-Opt core, modelled in Dafny

CV-Opt refines a CV against a job advert. A browser page stores the job (URL,
CV HTML, refinement level) on the payment server. The page then pays with a
credit or through a Lemon Squeezy checkout. The payment webhook or the credit
path asks the refinement server to rewrite the CV. Meanwhile the browser polls
`/api/refinement-status` until the result appears.

This project models the sequential logic of that flow and proves what it
promises:

- `js.dfy` (module `Js`): the JavaScript values the code inspects. It covers
  truthiness, `||` defaults, `parseInt`, `trim`, `includes` and ASCII
  `toLowerCase`.
- `storage.dfy` (`Storage`): the module-level maps of `storage.mjs` as a class
  `Store`. These are the memory-first job table, credit balances, the
  free-pass ledger and the free-pass user list.
- `lemon_server.dfy` (`LemonServer`): the payment server. It holds the
  fixed-window admission rule, the store-time level, credit redemption with
  refund, webhook duplicate suppression and the bundle merge. It also holds
  the status view, the rate-limit report and cleanup, and the linear-backoff
  retry loop. The server state (`rateLimits`, `processedWebhooks`) is the
  class `Server`.
- `refine.dfy` (`Refine`): the refinement server. It covers level parsing,
  the instruction tier, fence stripping, `normalize` and the diff-to-HTML
  loop. It also covers the record merges, the `/refine` request checks and
  both the synchronous and background paths.
- `polling.dfy` (`Polling`): the polling loop shared by both browser pollers.
  It is an `attempts` counter and an interval cleared at 60, with time as a
  tick counter. `Run` is the specification of a whole poll. `Poller.Interval`
  is the loop proved against it.
- `network_resilience.dfy` (`NetworkResilience`): `window.fetchWithRetry`
  (exponential backoff, cache-busting URL, headers) and the patched status
  poller.
- `checkout.dfy` (`Checkout`): browser detection, checkout-URL
  normalisation, payment verification, and the checkout poller with its
  one-shot fallback `/refine`.
- `error_suppressor.dfy` (`ErrorSuppressor`): the noise filter, the patched
  console as a class, `appDebug`, the global handlers and the patched
  `JSON.parse`.
- `lifecycle.dfy` (`Lifecycle`): the job lifecycle across modules. A job has
  no status field: its status is what the view derives from the fields on
  its record. These lemmas follow a record through the merges that write it,
  the view that reads it and the pollers that act on the view.

Several things are parameters rather than computed:

- wall-clock times;
- random tab ids;
- the outcome of each fetch (`nat -> Attempt`);
- the OpenAI result;
- `diffWords` (a function from two strings to a part list);
- the Lemon Squeezy signature check (a boolean);
- the webhook's correlation result (an opaque value);
- whether a Cloud Storage or file operation succeeds.

## Model

| member | source | states |
|---|---|---|
| Js.ParseIntOfNumber | lemonserver.mjs:181-182 | `parseInt` of an integer gives that integer back. |
| Js.ParseIntOfDigits | index.mjs:494 | `parseInt` of an all-digit string gives the decimal value of those digits. |
| Js.ParseIntOfWord | lemonserver.mjs:181-182 | `parseInt` of a string that does not start with a digit or sign is NaN. |
| Js.DigitsValueOfNatToString | lemonserver.mjs:181-182 | Printing a natural number in decimal and reading the digits back gives the number. |
| Js.DigitPrefixLength | lemonserver.mjs:181 | The digits `parseInt` reads form the longest all-digit prefix. |
| Js.TrimStartSound | index.mjs:617 | Trimming the front leaves a suffix of the input that does not start with white space. |
| Js.TrimEndSound | index.mjs:617 | Trimming the end leaves a prefix of the input that does not end with white space. |
| Js.ContainsIff | public/error-suppressor.js:36 | `includes` holds exactly when the pattern occurs at some index. |
| Js.OccursAtContains | public/network-resilience.js:32 | An occurrence at a known index makes `includes` true. |
| Js.ContainsExtended | public/network-resilience.js:32-33 | Appending text to a string keeps every substring it had. |
| Js.NotContainsLonger | public/error-suppressor.js:36 | A pattern longer than the text never occurs in it. |
| Js.LowerAscii | public/checkout.js:14 | Lower-casing keeps the length and maps each character on its own. |
| Js.LowerAsciiIdempotent | public/checkout.js:14 | Lower-casing twice is the same as lower-casing once. |
| Storage.JsonRoundTrip | storage.mjs:55 | The JSON round trip of a record drops exactly the undefined properties and keeps every other value. |
| Storage.JsonRoundTripKeepsFields | storage.mjs:55 | Any property read after the round trip gives what it gave before, with absent and undefined read alike. |
| Storage.Store.constructor | storage.mjs:7-22 | Every table starts empty, with the configured storage type. |
| Storage.Store.Resolve | storage.mjs:67-89 | A job is looked up in memory first. The bucket is consulted only in cloud mode, only when the job is not in memory, and only when the read succeeds. |
| Storage.Store.SetJobData | storage.mjs:49-65 | Memory is always written. The bucket gets the JSON form only in cloud mode when the upload succeeds, and nothing else changes. |
| Storage.Store.GetJobData | storage.mjs:67-89 | Returns what `Resolve` finds. A record found only in the bucket is cached in memory. A miss changes nothing. |
| Storage.Store.SetThenGet | storage.mjs:49-89 | After `setJobData(k, v)`, `getJobData(k)` returns `v` from memory whatever the bucket holds or whether reads succeed. |
| Storage.Store.GetUserCredits | storage.mjs:92-94 | An unknown user has balance 0. The balance is non-negative whenever all stored balances are. |
| Storage.Store.AddUserCredits | storage.mjs:96-100 | The user's balance becomes old + amount and is returned. Other users are unchanged. Non-negative balances stay non-negative for non-negative amounts. |
| Storage.Store.DeductUserCredit | storage.mjs:102-109 | Succeeds iff the balance is positive, and then lowers it by exactly one. A failed deduction changes nothing. Balances never go negative. |
| Storage.Store.HasUsedFreePass | storage.mjs:202-204 | True iff the stored value is exactly `true`. |
| Storage.Store.MarkFreePassUsed | storage.mjs:207-214 | Afterwards the user has used the free pass, and every other user's flag is unchanged. The operation is one-way and idempotent. |
| Storage.Store.SaveFreePassUserInfo | storage.mjs:217-295 | Memory mode appends exactly one record. Cloud mode reports the upload. File mode re-reads, appends and writes back, and a failed write loses nothing older. |
| Storage.Store.FreePassUsers | storage.mjs:298-314 | The memory list in memory mode. Otherwise the file list, or empty when the file cannot be read. |
| Storage.Store.FreePassUserCount | storage.mjs:317-332 | The count is the length of the list `getFreePassUsers` gives, so a memory-mode save raises it by one. |
| LemonServer.Admit | lemonserver.mjs:137-171 | The free-pass gate refuses a request with no bundle type from a user who used the pass, and counts nothing. A request over the limit (10 with a bundle type, 5 without) counts nothing. An admitted one counts exactly one. A window older than five minutes is reset, even on refusal. Counts stay within [0, 10]. |
| LemonServer.AdmissionsPerWindow | lemonserver.mjs:137-171 | Within one five-minute window, a user gets at most `cap - count` admissions, so at most 10, or 5 when no request is a purchase. |
| LemonServer.StoreTimeLevelKeepsNumbers | lemonserver.mjs:181-182 | Any integer level, out of range or not, is stored as given. |
| LemonServer.StoreTimeLevelDefaults | lemonserver.mjs:181-182 | A missing, null or non-numeric level is stored as 5. |
| LemonServer.CheckoutPrice | lemonserver.mjs:341 | 500 cents exactly for the `bundle` type, 100 for anything else. |
| LemonServer.WithRequestedLevel | lemonserver.mjs:243-250 | A level sent with the checkout replaces the stored one iff it parses, and nothing else in the record changes. |
| LemonServer.WebhookLevel | lemonserver.mjs:715-721 | The level sent on is always truthy. It is the parsed request level when non-zero, else the stored level, else 5. |
| LemonServer.BundleMerge | lemonserver.mjs:676-684 | A bundle purchase sets `isBundlePurchase`, `bundleCredits` = 10 and `completedAt`, and keeps every other field. |
| LemonServer.RefinementStatus | lemonserver.mjs:795-860 | The status follows field precedence. No job id gives 400. An absent record is `pending`. A bundle purchase comes before the tab check. Conflicting tab ids give `wrong_tab`, without the result. A `refinedHTML` gives `completed` with its three fields. Anything else is `processing`. Each case is an iff. |
| LemonServer.GetJobDataReply | lemonserver.mjs:863-898 | Found iff a job id is given and stored. The reply copies the job id, URL, CV and creation time, and carries no refinement level. |
| LemonServer.GetJobDataReplyWithLevel | lemonserver.mjs:884-891 | The corrected reply also copies the stored refinement level. |
| LemonServer.CheckRateLimit | lemonserver.mjs:1104-1128 | Reports "limited" iff the count is at least 10. As written, this threshold is 10 even for non-bundle users, whom `/api/store-job-data` already refuses at 5 (lemonserver.mjs:162). The remaining window is the time left rounded up to whole seconds, and is 0 iff the window has expired. |
| LemonServer.ReportedLimitIsEnforced | lemonserver.mjs:1104-1128 | A "limited" report within the current window means the next store request is refused, whatever its type. |
| LemonServer.FetchWithRetry | lemonserver.mjs:59-83 | At most `maxRetries` fetches are made. An ok or non-retryable status returns at once, and only 429/5xx or thrown attempts come before it. Waits grow linearly (1000·k ms). A throw on the last try is rethrown. Running out on retryable statuses yields undefined. |
| LemonServer.Server.constructor | lemonserver.mjs:20 | No rate entries and no processed events at start. |
| LemonServer.Server.StoreJobData | lemonserver.mjs:126-214 | The rate table is updated by `Admit` even when field validation then fails. The 429/429/400 replies match the verdicts. A stored job gets the store-time level and the record `NewJobRecord` describes. Refused requests store nothing. Counts stay in [0, 10]. |
| LemonServer.Server.CreateCheckout | lemonserver.mjs:216-425 | A missing or unknown job changes nothing. With a positive balance, exactly one credit is debited. `/refine` is called exactly when the job has a URL and a CV. The debit is kept, with `remainingCredits` = balance − 1, exactly when `/refine` answers ok; otherwise it is re-added and the net change is zero. Without credits a checkout is requested at the bundle or single price. Balances never go negative. |
| LemonServer.Server.RedeemCredit | lemonserver.mjs:257-320 | Exactly one credit is debited. `/refine` is called exactly when the job data has a URL and a CV. The reply is `CreditUsed` with the old balance minus one exactly when that call answers ok, and the debit is then kept. Otherwise the balance is restored and the reply is a 500. |
| LemonServer.Server.MarkProcessed | lemonserver.mjs:689-691 | An event id is recorded when present. An absent id is not. |
| LemonServer.Server.HandleWebhook | lemonserver.mjs:427-785 | An unparsable body gives 500. A known event id gets `duplicate` before the signature check, with no side effect. Then a missing secret gives 500, a bad signature 401 and a bad structure 400, and none of these changes anything. For a correlated paid order: credits are added iff it is a bundle bought by a known user; `NoJobData200` iff otherwise the job is unknown; `/refine` is called iff otherwise the job is stored, and its reply follows the call's outcome. The id is recorded only on the credit, refine-accepted and other-event paths. |
| LemonServer.Server.ProcessPaidOrder | lemonserver.mjs:502-769 | A bundle with a user adds exactly 10 credits and marks the job. Otherwise an unknown job gives `NoJobData200`, and a stored one is sent to `/refine` at the webhook level. The reply is `Paid200` exactly when `/refine` answers ok, 500 when it throws or is not ok, and the event is recorded only for `Paid200`. |
| LemonServer.Server.AddBundleCredits | lemonserver.mjs:669-700 | The user gains exactly 10 credits. The job, when named, is marked as a bundle purchase over whatever was stored. The event id is recorded. |
| LemonServer.Server.RefineStoredJob | lemonserver.mjs:702-769 | `/refine` receives the stored URL and CV at the webhook level, falling back to the stored level. The event is recorded only when `/refine` answers ok. A throw or a not-ok answer is a 500. |
| LemonServer.RefineReply | lemonserver.mjs:745-769 | `Paid200` with the order, job and level exactly on an ok answer. A throw gives the error 500 and a not-ok answer the failure 500. |
| LemonServer.Server.CleanupRateLimits | lemonserver.mjs:1131-1142 | Exactly the entries reset more than ten minutes ago are removed. |
| Refine.ParseLevel | index.mjs:491-498 | The level is always in [1, 10]. It is the parsed value when that lies in range, and 5 otherwise, including for a missing level. |
| Refine.ParseLevelOfNumeral | index.mjs:491-498 | "3" is read as 3. |
| Refine.ParseLevelOfNumber | index.mjs:491-498 | An integer in [1, 10] is kept. Any other, such as 37, gives 5. |
| Refine.TierOf | index.mjs:502-509 | Minimal iff the level is at most 3, moderate iff it is 4 to 7, strong iff it is above 7. |
| Refine.WordRunEnd | index.mjs:443 | The greedy `\w*` stops at the first non-word character. |
| Refine.SpaceRunEnd | index.mjs:443 | The greedy `\s*` stops at the first non-space character. |
| Refine.LastLineFeed | index.mjs:443 | Finds the last line feed in a range, or shows there is none. |
| Refine.LastLineEnd | index.mjs:443 | The position found is one where the multiline `$` matches. |
| Refine.FindOpenFence | index.mjs:443 | A match of the opening-fence pattern lies within the text, after the start position. |
| Refine.FindCloseFence | index.mjs:446 | A match of the closing-fence pattern lies within the text, after the start position. |
| Refine.RemoveMatch | index.mjs:443-446 | Replacing a match with '' never lengthens the text. |
| Refine.RemoveMarkdownWrapper | index.mjs:437-452 | Empty input gives ''. Input not starting with a fence is returned unchanged. The result is never longer than the input. |
| Refine.CloseFenceFoundAtEnd | index.mjs:446 | In a body with no fence of its own followed by a closing fence, the first closing-fence match is that trailing fence. |
| Refine.NoCloseFenceInside | index.mjs:446 | In a body with no closing fence of its own, no closing-fence match starts before the fence appended after it. |
| Refine.FenceRoundTrip | index.mjs:437-452 | Wrapping a body (starting with a visible character, with no fence of its own) in a fenced block, with an optional language tag, and stripping the fence gives the body back. |
| Refine.NextClose | index.mjs:616 | Finds the first `>` at or after a position. |
| Refine.NextCloseIsFirst | index.mjs:616 | A `>` with none before it from the start position is the one `NextClose` finds. |
| Refine.DrawnFromSuffix | index.mjs:613-618 | Text drawn from a suffix is drawn from the whole. |
| Refine.StripTagsSound | index.mjs:616 | After tag replacement, no `<` is followed by a `>`, and only spaces were added. |
| Refine.StripTagsOfTagFree | index.mjs:616 | Text in which no `<` is followed by a `>` is left unchanged. |
| Refine.StripTagsFixedIff | index.mjs:616 | Tag replacement leaves text unchanged exactly when the text holds no tag. |
| Refine.StripTagsLeadingTag | index.mjs:616 | A leading `<…>` with no `>` inside becomes exactly one space, and the rest is stripped in turn. |
| Refine.StripTagsFirstTag | index.mjs:616 | Text without `<` before a tag is kept as it is, the tag becomes one space, and stripping goes on after it. |
| Refine.NoTagSuffix | index.mjs:613-618 | A suffix of tag-free text is tag-free. |
| Refine.CollapseSpacesSound | index.mjs:617 | After whitespace collapsing, white space appears only as single plain spaces. No character is invented, and tag-freedom is kept. |
| Refine.CollapseSpacesOfRun | index.mjs:617 | A whole run of white space becomes one plain space, and collapsing goes on after it. |
| Refine.CollapseSpacesOfSingleSpaced | index.mjs:617 | Already single-spaced text is left unchanged. |
| Refine.SliceKeepsShape | index.mjs:613-618 | A slice of tag-free, single-spaced text stays so. |
| Refine.TrimKeepsShape | index.mjs:617 | Trimming keeps text tag-free and single-spaced, and leaves no white space at either end. |
| Refine.TrimIsSlice | index.mjs:617 | `trim` returns a contiguous slice of its input that neither starts nor ends with white space. |
| Refine.NormalizeSound | index.mjs:613-618 | `normalize` output contains no tag, has single plain spaces, and has no white space at either end. |
| Refine.TrimOfTrimmed | index.mjs:617 | Text with no white space at either end is not changed by `trim`. |
| Refine.NormalizeOfNormal | index.mjs:613-618 | Text that is tag-free, single-spaced and trimmed is left unchanged by `normalize`. |
| Refine.NormalizeIdempotent | index.mjs:613-618 | Normalising twice gives the same text as normalising once. |
| Refine.ReplaceCharOnlyKeeps | index.mjs:627 | Every character of the result is either a character of the input other than the replaced one, or a character of the replacement. |
| Refine.ReplaceCharAbsent | index.mjs:627 | Text without the character is unchanged by the replacement. |
| Refine.EscapeAnglesSound | index.mjs:627 | Escaped parts contain no angle bracket. Parts without angle brackets are unchanged, so `&` is not escaped. |
| Refine.JoinedAppend | index.mjs:624-635 | Rendering part by part distributes over concatenation. |
| Refine.RenderPartsAppend | index.mjs:624-635 | The HTML of two part lists in sequence is the HTML of each, in order. |
| Refine.CommonPartsRenderAsText | index.mjs:624-635 | Common parts without angle brackets are emitted bare: the HTML is the text itself. |
| Refine.RenderChanges | index.mjs:620-635 | The accumulation loop produces the in-order concatenation of the rendered parts, added in `diff-added`, removed in `diff-removed`, common bare. |
| Refine.InputMergeFields | index.mjs:512-520 | The input merge keeps every existing field and overwrites exactly jobUrl, cvHTML, refinementLevel and tabSessionId, the last even with undefined. |
| Refine.ResultMergeFields | index.mjs:783-796 | The result merge keeps every other field and overwrites exactly the URL, CV, refinedHTML, changes, extractedKeywords and completedAt. |
| Refine.CheckRequest | index.mjs:467-487 | A missing body gives 400. A missing conversation array gives 400 only without an order id. Missing jobUrl or cvHTML gives 400. Otherwise the request passes. |
| Refine.MergeInput | index.mjs:512-520 | For a named job, the record `getJobData` finds (or `{}`) is merged with the request fields and saved through `setJobData`. Without a job id nothing changes. |
| Refine.FinishRefine | index.mjs:603-669 | The reply carries the fence-stripped text when a diff exists. The result, with the tab id, is written to memory only, not to the bucket. Without a diff the raw reply is returned and nothing is stored. |
| Refine.RefineSync | index.mjs:479-669 | The synchronous path is the input merge followed by the result merge. The bucket holds the input record only. |
| Refine.RefineChecked | index.mjs:512-669 | With an order id the handler answers at once, after the input merge. A failed model call gives 500 after the merge. Any other request takes the synchronous path. |
| Refine.HandleRefine | index.mjs:461-676 | A request failing the checks is rejected with its error and changes nothing. Any other is never rejected. |
| Refine.ProcessRefinementAsync | index.mjs:680-840 | A model failure stores nothing. With a diff, the fence-stripped result is merged, without a tab id, and saved through `setJobData`. When the diff fails, a request with a job id only reads the record and then fails; one without a job id returns the result with no changes. |
| Polling.After | public/network-resilience.js:158-171 | A counted tick raises `attempts` by one. The interval stays set only below 60 and only for a plain counted tick. Validity is kept. |
| Polling.RunKeepsValid | public/network-resilience.js:74-191 | A poll keeps the counter within 60. |
| Polling.RunIsBounded | public/network-resilience.js:74-191 | A poll runs at most `60 - attempts` callbacks and never more than the ticks offered. A still-active poll has consumed every tick. |
| Polling.NoFallbackAfterHalfway | public/network-resilience.js:151-156 | Past attempt 30 the fallback never runs. |
| Polling.FallbackAtMostOnce | public/network-resilience.js:151-156 | The fallback runs at most once per poll, and not at all when started past attempt 30. |
| Polling.Poller.constructor | public/network-resilience.js:74-75 | A poll starts at attempt 0 with its interval set. |
| Polling.Poller.Finish | public/network-resilience.js:158-171 | The state after a callback is `After` of the state before. |
| Polling.Poller.Interval | public/network-resilience.js:74-191 | The interval loop ends in exactly the state, tick count and fallback count that `Run` specifies. |
| NetworkResilience.RequestUrl | public/network-resilience.js:30-34 | Non-GET URLs are unchanged. |
| NetworkResilience.CacheBustedUrl | public/network-resilience.js:30-34 | A GET URL is the original followed by `&` (when it has a `?`) or `?`, then `t=`, then the time. The time reads back with `parseInt`, and the result always has a query. |
| NetworkResilience.ParameterValue | public/network-resilience.js:33 | The text after the separator and `t=` is exactly the appended timestamp. |
| NetworkResilience.QueryKept | public/network-resilience.js:32-33 | Appending the separator `RequestUrl` chooses always leaves a `?` in the URL. |
| NetworkResilience.RequestHeadersKeepCallerHeaders | public/network-resilience.js:18-27 | The caller's headers are kept, with Cache-Control and Pragma overridden. |
| NetworkResilience.Pow2 | public/network-resilience.js:50-54 | Each backoff factor is at least 1. |
| NetworkResilience.FetchWithRetry | public/network-resilience.js:10-57 | Every request carries the rewritten URL and headers. Any response, ok or not, is returned at once. Only network failures before it are retried. At most `maxRetries + 1` fetches are made. Waits are `retryDelay·2^k`. An abort or the last failure is rethrown. |
| NetworkResilience.RetryLoop | public/network-resilience.js:11-56 | The `while (true)` loop: a response ends it at once; a thrown error is retried, after `retryDelay·2^k` ms, only while fewer than `maxRetries` retries were made and it is not an abort; every request made is the one rewritten for its attempt. |
| NetworkResilience.DefaultBackoff | public/network-resilience.js:10-57 | With the defaults the waits are 1000, 2000 and 4000 ms. |
| NetworkResilience.PatchedTickResult | public/network-resilience.js:87-191 | The poll stops iff the reply is `completed` with `refinedHTML`, and skips counting iff the result is also shown. The fallback fires iff the reply is `pending` at attempt 30 and the hook exists. |
| NetworkResilience.PatchedPollTick | public/network-resilience.js:87-191 | One callback moves the poller as `PatchedTickResult` says and reports the forced start. |
| NetworkResilience.PatchedFallbackAtHalfway | public/network-resilience.js:151-156 | The patched callback forces the start only at attempt 30. |
| NetworkResilience.PatchedPollIsBounded | public/network-resilience.js:65-193 | A fresh patched poll runs at most 60 callbacks and forces the start at most once. |
| NetworkResilience.PatchedPollIgnoresWrongTab | public/network-resilience.js:101-171 | Replies of `wrong_tab` never stop the patched poll: it runs exactly to the limit. |
| Checkout.DetectBrowser | public/checkout.js:10-38 | The lower-cased agent is classified in priority order: `edg`, then firefox, then chrome, then safari, else other. Each case is an iff. |
| Checkout.DetectBrowserIgnoresCase | public/checkout.js:10-38 | The classification does not depend on the case of ASCII letters. |
| Checkout.NormalizeCheckoutUrl | public/checkout.js:650-657 | The result always starts with `http`, and a URL already starting with it is unchanged. |
| Checkout.NormalizeCheckoutUrlKeepsUrl | public/checkout.js:650-657 | Normalisation only prepends a scheme, and is idempotent. |
| Checkout.VerifyPayment | public/checkout.js:399-442 | Verified iff a job id is given and either the status is processing/completed or the status request fell through and the order is `paid`. |
| Checkout.VerifyPaymentFailsClosed | public/checkout.js:399-442 | Any error with no confirming status yields false. |
| Checkout.Fallback | public/checkout.js:1286-1313 | The fallback is sent iff the job data has both jobUrl and cvHTML. It carries the job's fields and the level, or 5. |
| Checkout.CheckoutTickResultOf | public/checkout.js:1188-1332 | `bundle_purchase`, `wrong_tab`, and a shown `completed` stop without counting. An unshown `completed` stops and counts. The fallback is sent only for `pending` at attempt 30. |
| Checkout.CheckoutPollTick | public/checkout.js:1188-1332 | One callback moves the poller as `CheckoutTickResultOf` says and returns the fallback request sent. |
| Checkout.CheckoutFallbackAtHalfway | public/checkout.js:1286-1313 | The checkout callback sends its fallback only at attempt 30. |
| Checkout.CheckoutPollIsBounded | public/checkout.js:1168-1335 | A fresh checkout poll runs at most 60 callbacks and sends the fallback at most once. |
| Checkout.TerminalReplyEndsPoll | public/checkout.js:1209-1251 | A `bundle_purchase` or `wrong_tab` reply ends the poll on that tick, with the counter unchanged. |
| ErrorSuppressor.AnyPatternInIff | public/error-suppressor.js:36 | `some(includes)` holds iff one of the patterns occurs in the message. |
| ErrorSuppressor.ShouldFilter | public/error-suppressor.js:33-39 | Only a string first argument can be filtered. |
| ErrorSuppressor.ShouldFilterIff | public/error-suppressor.js:14-39 | A call is filtered iff its first argument is a string containing a pattern. Later arguments play no part. |
| ErrorSuppressor.Forwards | public/error-suppressor.js:42-70 | A call is forwarded when debugging is on or the call cannot be filtered. Noise such as `SecurityError` is dropped otherwise. |
| ErrorSuppressor.Console.constructor | public/error-suppressor.js:92 | Debugging starts off and nothing has been emitted. |
| ErrorSuppressor.Console.Call | public/error-suppressor.js:42-70 | A patched console method emits exactly the calls `Forwards` allows, and only those. |
| ErrorSuppressor.Console.Enable | public/error-suppressor.js:73-89 | `appDebug.enable` turns debugging on and logs once. |
| ErrorSuppressor.Console.Disable | public/error-suppressor.js:73-89 | `appDebug.disable` turns debugging off and logs once. |
| ErrorSuppressor.Console.DebugLog | public/error-suppressor.js:73-89 | `appDebug.log` emits only while debugging is on. |
| ErrorSuppressor.Console.KeyDown | public/error-suppressor.js:95-103 | Ctrl+Shift+D flips debugging and logs "Debug mode enabled" or "Debug mode disabled". Any other key changes nothing. |
| ErrorSuppressor.SuppressError | public/error-suppressor.js:106-116 | An error event is suppressed iff some pattern occurs in its message or its file name. |
| ErrorSuppressor.PatternInEither | public/error-suppressor.js:106-116 | Checking two texts one after the other equals one search over both. |
| ErrorSuppressor.SuppressRejection | public/error-suppressor.js:119-129 | A rejection is suppressed iff its string reason or its reason's message contains a pattern. Without a reason it never is. |
| ErrorSuppressor.PatchedJsonParse | public/error-suppressor.js:132-142 | "[object Object]", undefined, null and every parse failure give `{}`. Anything else gives the original result. |
| Lifecycle.StatusReply | lemonserver.mjs:795-860 | Only the missing-job-id view has no JSON body. Every other view has a string `status`. |
| Lifecycle.ReplyClassifiesView | lemonserver.mjs:795-860 | The browser reads a status body as terminal exactly for a bundle purchase or another tab's job. It reads it as completed exactly for a result with content, and as pending exactly for an unknown job. |
| Lifecycle.JobDataBody | lemonserver.mjs:863-898 | An error body never has jobUrl or cvHTML. |
| Lifecycle.CheckoutPollFollowsView | public/checkout.js:1188-1332 | Against the server's view, the checkout poll stops iff the job is a bundle purchase, in another tab, or completed. Its fallback fires only for a job the server has no record of, at attempt 30. |
| Lifecycle.PatchedPollFollowsView | public/network-resilience.js:87-191 | Against the server's view, the patched poll stops only on `completed`, and its fallback fires only for an unknown job at attempt 30. |
| Lifecycle.VerifyPaymentFollowsView | public/checkout.js:399-442 | Payment is verified iff the view is processing or completed, or the order is paid. |
| Lifecycle.AsyncResultIsVisible | index.mjs:783-796 | After the background path stores a non-empty result, the view reports it as completed, unless the job is a bundle or its tab conflicts. |
| Lifecycle.SyncResultIsVisibleToItsTab | index.mjs:639-651 | The synchronous path records the tab id, so a poller from that tab always sees its result. |
| Lifecycle.BundlePurchaseEndsCheckoutPoll | lemonserver.mjs:676-684 | After the bundle merge the view is `bundle_purchase` with 10 credits, and the checkout poll stops on that tick. |
| Lifecycle.FallbackLevelAsWritten | public/checkout.js:1286-1313 | As written, the fallback for a stored job always asks for level 5. |
| Lifecycle.FallbackNeedsTwoStates | public/checkout.js:1286-1313 | When both requests of a tick read the same job table, the fallback never fires: a pending view means the job-data reply has no URL or CV. |
| Lifecycle.FallbackLevelCounterexample | lemonserver.mjs:884-891 | When the halfway tick's status request finds no record and its job-data request finds the job stored with level 9, the fallback fires and refines at level 5. |
| Lifecycle.FallbackLevelCorrected | lemonserver.mjs:884-891 | With the level in the job-data reply, the fallback asks for the stored level, and `/refine` works at the same level. |

## Left out

- **Not modelled: I/O and services.**
  - Cloud Storage, filesystem and autosave timer I/O. A bucket read or write is a map plus a success flag.
  - The OpenAI calls, the job-page fetch and its text extraction, and `diffWords`. The diff is a function parameter.
  - The prompt templates.
- **Not modelled: Lemon Squeezy.**
  - The checkout API, user-id generation and HMAC computation. The signature is a boolean, the checkout URL an `Option`.
  - The webhook's correlation heuristics. They are one opaque value, including the case where the checkout mapping hits variables in their temporal dead zone.
- **Not modelled: other server code.**
  - The free-pass submission route. Its atomic free-pass operation can never succeed, because `markFreePassUsed` returns nothing.
  - `taskqueue.mjs`, `database.mjs`, `index-fix.mjs`, and the Express, helmet and CORS setup.
- **Not modelled: browser code.** DOM, modal, iframe and UI code, `app-scripts.js`, `lemoncheckout.js`, `error-handler.js`, `debug-utility.js` and `content.js`.
- **Not modelled: the fetch stub.** The `fetch` replacement for `site.webmanifest` serves a fixed response; there is nothing in it to prove.
- **Not modelled: timing.** Timers, scheduling and event-loop interleaving. Time is a tick counter. Overlapping async interval callbacks are not modelled: each callback runs to completion before the next.
- Numbers are integers only: floats, exponent formatting and `Math.pow` on large exponents are not modelled.
- `toLowerCase` is modelled on ASCII letters only.
- The reviver parameter of the patched `JSON.parse` is not modelled.
- Storage.Store.SaveFreePassUserInfo: cloud mode is modelled as if the bucket handle exists. Without one the source falls through to the file branch.
- LemonServer.StoreTimeLevel: carries no contract of its own. Its behaviour is stated by `StoreTimeLevelKeepsNumbers` and `StoreTimeLevelDefaults` for integers, absent values and words, not for every string `parseInt` reads.
- LemonServer.Server.HandleWebhook: the signature check is a boolean, not the HMAC comparison.
- ErrorSuppressor.SuppressError: the handler's return value is not modelled, since the browser ignores it.
- Refine.ProcessRefinementAsync: with a job id, the diff-failure branch is modelled as an error path, since it reads `changesHtml` out of its scope (index.mjs:824).
- Module linking: `lemonserver.mjs:17` imports `orderToJobMapping`, which `storage.mjs` does not export, so as written the server fails to link. The model behaves as if the import resolved.
- Sessions: no session middleware is installed, so `generateUserId` (lemonserver.mjs:86-101) makes a fresh id on every request. The model takes `userId` as a parameter and reuses it across requests. Rate limits, credit balances and the free-pass gate are stated for that reused id.

## Findings

| source | as written | input that shows it | evidently intended | confidence | as-written member | corrected member |
|---|---|---|---|---|---|---|
| lemonserver.mjs:884-891 | `/api/get-job-data` replies with the job id, URL, CV and creation time but not `refinementLevel`, so the checkout fallback at public/checkout.js:1305 always sends level 5 | at attempt 30, the status request reaches a server instance with no record of the job (`pending`), while the job-data request reaches one that holds it with `refinementLevel` 9. In a single process both requests read the same table, and the fallback never fires | the fallback refines at the level the user chose, which the reply must therefore carry | not executed; needs two server states | Lifecycle.FallbackLevelCounterexample | Lifecycle.FallbackLevelCorrected |
