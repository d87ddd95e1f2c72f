# NOTO-MVP core in Dafny

NOTO-MVP is a Flask web service that summarises YouTube videos for signed-in
users and meters the minutes each user spends against a monthly plan limit. It
has three plans: free, pro and elite. This project models its request-handling
core as pure Dafny functions over an immutable document store, and proves the
properties that the code promises. The core covers:

- **Video URLs** (`VideoUrls`, `Duration`). These are the id-extraction and
  URL-validation regular expressions, ISO-8601 duration parsing, and the
  rounding of seconds to charged minutes.
- **Usage and subscriptions** (`Usage`, `Settings`). This covers seeding a new
  user, the usage counters an update adds to, the subscription record a payment
  writes, and the plan table.
- **Summaries** (`Summaries`). This is the per-plan token budget, and the
  3000-character excerpt that free users get.
- **The scraping service** (`BrightData`, `Scraper`). This covers the webhook
  URL, the trigger request, job records and their status updates, and parsing
  and storing the transcripts a webhook delivers.
- **The webhook routes** (`Webhooks`). These are the delivery gate, the
  per-item summarise-and-charge step, job completion and the notification
  endpoint.
- **The main routes** (`MainRoutes`). These are `extract_video_info`,
  `summarize_video` (cached, asynchronous and fallback paths) and
  `check_job_status`.
- **Access control** (`Auth`, `UserHelpers`). This covers the login guard, the
  plan-limit admission check, and plan-data lookup and display.
- **Payments** (`Payment`). These are PayPal payment creation and verification
  as a state machine over stored payment intents, amount formatting, and
  error-message formatting.

Modelling conventions:

- A Python exception that escapes a function is `Res.Raise(reason)`.
- A decoded JSON value or stored field is `Values.Json`.
- The Firestore database is `Store.Db`: one map of documents per collection.
  - `set` overwrites a document.
  - `update` merges fields and raises when the document is missing.
- Code that writes and then raises returns an `Effect`: the store it leaves
  behind, together with the exception.
- Everything outside the process is a function parameter: the LLM, the YouTube
  Data API, Bright Data's HTTP endpoint, the transcript API, `urlparse`, the
  PayPal SDK calls and `isoformat`.
- The clock is a parameter too: `now` and `nextBilling` are values passed in.

The code has no transcript chunker or multi-pass summarisation, no
deduplication key for webhook deliveries, and no shared secret that
authenticates the webhook, so none of these are modelled. Every summarised
webhook item goes through the same usage update (`Webhooks.SummarizeItem`), and
`Usage.RepeatedVideoCountsAgain` shows that update charging a video again each
time it is recorded.

## Model

| member | source | states |
|---|---|---|
| Settings.PlanTableShape | config.py:53-80 | The plan table has exactly the keys free, pro and elite. Tier order lists each plan once. Limits and prices strictly increase along that order. |
| Settings.PlanTableValues | config.py:53-80 | The minute limits are 30/100/300 and the prices 0/999/2999 cents. Every plan is priced in USD, and no price is negative. |
| Settings.ConfigNames | config.py:82-96 | "default" names the development configuration. Development always debugs and production never does, whatever FLASK_DEBUG says. |
| VideoUrls.ExtractVideoId | utils.py:38-50 | Any id that is extracted consists of exactly 11 characters from `[0-9A-Za-z_-]`. |
| VideoUrls.LaterPatternsNeverDecide | utils.py:40-49 | The embed and watch patterns never change the answer. Whenever either would match, the first pattern (`v=` or `/`) has already matched. |
| VideoUrls.ExtractIsLeftmostOpener | utils.py:38-50 | The extracted id is the 11 characters after the leftmost `v=` or `/` that is followed by 11 id characters. `v=` wins when both start at the same place. |
| VideoUrls.ExtractNoneIffNoOpener | utils.py:38-50 | Extraction fails exactly when no `v=` or `/` anywhere in the URL is followed by 11 id characters. |
| VideoUrls.ValidateAgreesWithPatterns | utils.py:199-210 | A URL validates exactly when it starts with an optional http(s)://, an optional www., one of the three host paths and 11 id characters. |
| VideoUrls.ValidateYoutubeUrl | utils.py:199-210 | A URL that validates is at least as long as `youtu.be/` plus an 11-character id, and an id run starts at the position validation captured. |
| VideoUrls.ValidatedUrlYieldsSameId | utils.py:38-50 | For every URL that validates, extraction returns the id that validation captured. |
| VideoUrls.MobileHostRejected | utils.py:199-210 | m.youtube.com URLs never validate. |
| Duration.ParseDuration | utils.py:120-136 | A string that does not start with "PT" (including the empty string) is 0 seconds. |
| Duration.DurationRoundTrip | utils.py:120-136 | Parsing `PT[hH][mM][sS]` followed by any trailer returns 3600h+60m+s. Missing components count 0, and the trailer may not continue the last digits. |
| Duration.DurationExamples | utils.py:120-136 | "" is 0 seconds, "PT1H30M15S" is 5415 and "PT45S" is 45. |
| Duration.RoundMinutes | blueprints/webhook_routes.py:173 | Python's `round(s / 60)`: the result is within half a minute of s/60, and an exact tie goes to the even minute. |
| Duration.RoundingUnique | blueprints/webhook_routes.py:173 | Only one integer meets the nearest-with-ties-to-even condition, so `RoundMinutes` is the rounding. |
| Duration.ChargedMinutes | blueprints/main_routes.py:150-151 | At least one minute is charged. Any video shorter than 90 seconds is charged exactly 1. From 30 seconds up, the charge is the ties-to-even rounding of the length in minutes. |
| Usage.InitializeNewUser | utils.py:14-36 | The new user's document is the fresh-user record with zero usage and the free plan. No other user changes. |
| Usage.UpdateUserUsage | utils.py:138-177 | A missing user is seeded first. Malformed usage raises, but the seeding stays. On success, the usage holds the new counters, the video record is stored under the user, and the user's other fields are kept. Transcripts and job collections are untouched. |
| Usage.OtherUsersUntouched | utils.py:138-177 | Every other user document and every other user's video collection is left as it was. |
| Usage.UsageAccumulates | utils.py:149-156 | With counters (used, count) stored, the update stores (used+minutes, count+1) and keeps last_reset_date. |
| Usage.NewUserStartsAtZero | utils.py:144-156 | For an unknown user, the first update leaves minutes equal to the charge and one video processed. |
| Usage.RepeatedVideoCountsAgain | utils.py:138-177 | Recording a video the user already has still adds its minutes and counts one more video. The record is only replaced, so the user's set of video ids does not grow: nothing deduplicates. |
| Usage.FirstDeliveryRecords | utils.py:138-177 | One successful update steps the counters by (minutes, 1) and sets the video record under its id. |
| Usage.MalformedUsageRaises | utils.py:149-153 | A usage field that is not a dictionary makes the update raise and change nothing. |
| Usage.UpdateUserSubscription | utils.py:179-197 | Succeeds exactly when the user exists. It then replaces the subscription record with one for the plan and payment, and no other user changes. |
| Usage.SubscriptionKeepsUsage | utils.py:179-197 | Writing a subscription leaves the user's usage and every other field unchanged. |
| Usage.StoredPlan | auth.py:46 | A user with no subscription is on "free", and so is one whose subscription dictionary has no "plan". Otherwise the plan read is the subscription's plan field. A non-dictionary subscription raises. |
| Usage.StoredUsage | auth.py:47 | A user with no usage has used 0 minutes. Stored counters are read back as they are, and a non-dictionary usage raises. |
| Usage.SubscribedPlanReadsBack | utils.py:179-197 | A fresh user reads as free. After a subscription update, the stored plan reads back as the plan that was written. |
| Summaries.TokenBudget | utils.py:82-100 | The token budget is 200 for free, 800 for pro and 1200 for any other plan. |
| Summaries.Request | utils.py:64-118 | Free users get the brief prompt over the first 3000 characters of the transcript; other plans get the detailed prompt over the whole transcript. The budget follows the plan, and title and channel are passed through. |
| Summaries.GenerateSummary | utils.py:64-118 | A summary is the stripped LLM answer to that request. It is produced whenever the transcript is text and the LLM answers. |
| Summaries.BudgetFollowsTiers | utils.py:82-100 | Budgets strictly increase along the plan tiers. |
| Summaries.FreeSummarySeesOnlyExcerpt | utils.py:71-82 | Two transcripts that agree on their first 3000 characters give free users the same summary. |
| BrightData.GetWebhookUrl | services/bright_data.py:18-23 | The URL always has a scheme ("https://" is added when missing) and ends in the webhook path. The part before that path is the base URL. |
| BrightData.WebhookBaseIdempotent | services/bright_data.py:18-23 | Normalising a base URL that is already normalised changes nothing. |
| BrightData.TriggerTranscriptExtraction | services/bright_data.py:25-83 | Without credentials there is no request and a not-configured outcome. Otherwise one watch URL is posted to the trigger endpoint with a "Bearer" API-key header. The five query parameters are the dataset id, the webhook URL, format "json", uncompressed_webhook "true" and an auth header of "Bearer " and the webhook secret. The extraction starts exactly when the post answers with an object, whose snapshot_id is reported. |
| BrightData.WatchUrlRoundTrip | services/bright_data.py:42 | The watch URL built from an id validates, and extracting from it gives the same id back. |
| BrightData.ParseWebhookData | services/bright_data.py:85-128 | Anything but a list or dictionary is an invalid format, and the empty list is an empty payload. Only the first item is read: a non-dictionary item raises, and otherwise the result is the judgement of its extracted fields. A valid result has a truthy video_id and transcript. |
| BrightData.ExtractFields | services/bright_data.py:97-114 | Each kept field equals the item's field under its source key, with the same default: video_id, title, video_length, preview_image, date_posted, avatar_img_channel, channel_url and quality_label default to None; views, likes and subscribers default to 0. The transcript is `transcript or formatted_transcript`. The channel name is youtuber with leading '@' removed. The description is the first 500 entries of `description or ""`, or all of it when shorter. A non-string youtuber raises, and so does a description that cannot be sliced. |
| BrightData.PayloadValidIffRequiredFields | services/bright_data.py:85-128 | For a payload whose first item is a dictionary that extracts cleanly, parsing succeeds. It is valid exactly when video_id and `transcript or formatted_transcript` are both truthy, and the valid record is that item's extraction. |
| BrightData.OnlyFirstItemCounts | services/bright_data.py:90-95 | Items after the first never change the parse, and a bare dictionary parses as a one-item list. |
| BrightData.ValidIffNothingMissing | services/bright_data.py:117-128 | An extracted item is judged valid exactly when video_id and transcript are both truthy. Otherwise the missing list names each falsy one, and only those. |
| Scraper.ValidateYoutubeUrls | services/bright_data_scraper.py:190-213 | Keeps exactly the input URLs whose host is a YouTube host and drops the rest. |
| Scraper.ValidateConcat | services/bright_data_scraper.py:190-213 | Filtering is per URL, so filtering a concatenation concatenates the filtered parts. |
| Scraper.MobileDomainRedundant | services/bright_data_scraper.py:201-207 | The m.youtube.com test adds nothing: a host is accepted exactly when it contains youtube.com or youtu.be. |
| Scraper.NewClient | services/bright_data_scraper.py:31-51 | Construction succeeds exactly when a non-empty auth token is configured. The dataset id falls back to the default. |
| Scraper.QueryParams | services/bright_data_scraper.py:84-93 | The trigger query holds the dataset, json format, webhook URL, webhook format and uncompressed=false, plus notify when it is set. |
| Scraper.StoreJob | services/bright_data_scraper.py:215-244 | With a database, the job document is written under its snapshot id. Without one, nothing is stored. |
| Scraper.TriggerTranscriptCollection | services/bright_data_scraper.py:53-132 | No valid URL means a raise before any request. When some URL is valid, exactly one request is posted: to the trigger endpoint, with the client's Bearer token, the query parameters and the valid URLs as inputs. The call succeeds exactly when that post answers with an object whose snapshot_id is truthy. On success the job is stored under the returned snapshot id, and on a raise the jobs are unchanged. |
| Scraper.GetJobFromDb | services/bright_data_scraper.py:246-269 | Returns the stored job exactly when a database exists and holds that snapshot id. |
| Scraper.UpdateJobStatus | services/bright_data_scraper.py:271-297 | Updating an unknown job changes nothing. For a known job, only that job changes. |
| Scraper.StatusUpdateReadsBack | services/bright_data_scraper.py:271-297 | After an update, the job reads back with the new status, updated_at and the additional fields, and keeps its other fields. |
| Scraper.ItemVideoId | services/bright_data_scraper.py:370-385 | An id is found only for dictionary items with a truthy transcript and a URL from which an 11-character id can be extracted. |
| Scraper.ProcessSingleTranscript | services/bright_data_scraper.py:357-408 | Items without an id are skipped. The transcript document is written under the id, and a result carries that id and the transcript length. |
| Scraper.StringTranscriptLength | services/bright_data_scraper.py:387-408 | A text transcript is stored, and its reported length is its character count. |
| Scraper.ProcessAll | services/bright_data_scraper.py:326-340 | The loop counts every item once: processed plus failed is the number of items, there is one result per processed item, and every result carries a valid 11-character video id. |
| Scraper.ProcessWebhookData | services/bright_data_scraper.py:314-355 | Raises exactly when the data has no length, leaving the store as it was. Otherwise processed + failed = total = the number of items. |
| Scraper.ProcessAllStep | services/bright_data_scraper.py:330-340 | One more item adds exactly one to the total and to either processed or failed. |
| Scraper.NonDictionaryItemFails | services/bright_data_scraper.py:357-408 | An item that is not a dictionary is counted as failed and writes nothing. |
| Webhooks.ItemMinutes | blueprints/webhook_routes.py:168-175 | An item is charged at least one minute. A duration string is charged its rounded minutes, and anything else is charged 1. |
| Webhooks.OwnerPlan | blueprints/webhook_routes.py:177-185 | The plan comes from the owner's subscription, or is "free" when the owner has no user document. |
| Webhooks.SummarizeItem | blueprints/webhook_routes.py:136-208 | Items without a transcript are skipped without writes. Only the owner's documents change. A result means `update_user_usage` succeeded for that result's minutes, video id, title and summary, and the store after is exactly the one it left. Conversely, an item with a transcript, an extractable id and a string owner whose plan reads cleanly gets that result whenever the summariser answers and the usage update succeeds. |
| Webhooks.SummarizeAll | blueprints/webhook_routes.py:63-71 | Summarising every item writes only the owner's documents. There is at most one result per item, and each result carries the snapshot id and at least one minute. |
| Webhooks.ItemStep | blueprints/webhook_routes.py:65-71 | The per-item step used by the webhook touches only the owner and tags its results with the snapshot. |
| Webhooks.SnapshotId | blueprints/webhook_routes.py:41 | A non-empty header wins. Otherwise the snapshot id is read from the first item of a list, and non-list data without a header raises. |
| Webhooks.DataGate | blueprints/webhook_routes.py:36-58 | Empty data is a 400, a missing snapshot id is a 400, an unknown job is a 404 and an unreadable first record is a 500. Admission happens only with data, a snapshot id, a stored job and an owner. |
| Webhooks.WebhookGate | blueprints/webhook_routes.py:21-90 | An unreadable body is a 500, and any other body goes through the data gate. |
| Webhooks.HandleWebhook | blueprints/webhook_routes.py:21-90 | A rejected delivery changes nothing. The reply is 200 exactly when the gate admits. Then the stored transcripts are the ones the processing pass left, and the user and video documents are the ones left by summarising every item with the job's user and snapshot. processed_count is the number of transcripts the processing pass stored, and its processed and failed counts sum to the number of items. summaries_generated is the number of items whose summary step, run with the job's user and snapshot, produced a result. |
| Webhooks.Deliver | blueprints/webhook_routes.py:60-86 | An admitted delivery completes the job. The stored transcripts are the ones the processing pass left, and the user and video documents are exactly the ones left by summarising every item, which changes only the owner's user and video documents. processed_count is the processing pass's processed count, and processed plus failed is the number of items. summaries_generated is the length of the result list from summarising every item over the stored transcripts. |
| Webhooks.SummarizeAllStep | blueprints/webhook_routes.py:63-71 | Summarising one more item leaves the earlier results in place. It appends that item's result exactly when the step produces one, so the result list grows by one exactly then. |
| Webhooks.Finish | blueprints/webhook_routes.py:73-86 | The completion reply reports the processed and summarised counts. Only the scraping job changes. |
| Webhooks.CompleteJob | blueprints/webhook_routes.py:74-78 | The job is marked completed with the given fields, and every other job is kept. |
| Webhooks.HandleNotification | blueprints/webhook_routes.py:93-134 | Replies 200 "received" exactly for a non-empty object with a truthy snapshot_id. Empty data is a 400 "No data received", and a missing or falsy snapshot_id is a 400 "Missing snapshot_id". Unreadable or non-object data is a 500. Every non-200 reply leaves the jobs unchanged. |
| Webhooks.EmptyDeliveryRejected | blueprints/webhook_routes.py:36-38 | Empty data is rejected with 400 "No data received" and changes nothing. |
| Webhooks.HeaderTakesPrecedence | blueprints/webhook_routes.py:41-58 | With a snapshot header naming a stored job, the gate admits that job's owner whatever the data says. |
| Webhooks.MissingSnapshotRejected | blueprints/webhook_routes.py:41-45 | Without a header, a first item that lacks snapshot_id is rejected with 400. |
| Webhooks.UnknownOrOwnerlessJobRejected | blueprints/webhook_routes.py:50-58 | An unknown snapshot is 404 "Job not found", and a job without user_id is 400 "Invalid job data". Neither writes anything. |
| Webhooks.UnextractableItemChargesNothing | blueprints/webhook_routes.py:160-166 | An item whose URL yields no video id produces no summary and no charge. |
| Webhooks.MissingOwnerSummarisedAsFree | blueprints/webhook_routes.py:177-193 | An owner with no user document is summarised on the free plan. A result means the owner was seeded and charged, so the new document's counters are the result's minutes and one video. Whenever the item is summarisable and the free-plan summary is produced, there is a result. |
| Webhooks.NotificationSetsStatus | blueprints/webhook_routes.py:105-118 | A notification for a known snapshot stores its status and the notification data, and answers 200 "received". |
| MainRoutes.DurationSeconds | blueprints/main_routes.py:150 | A falsy duration (absent, None, 0, "", an empty list or dictionary) is 0 seconds, and a non-empty string is parsed. Any other truthy value raises. |
| MainRoutes.InfoFromBody | blueprints/main_routes.py:141-159 | Empty items give a 404. A 200 reply carries the video id and the charged minutes of the duration. |
| MainRoutes.RequestedUrl | blueprints/main_routes.py:110-111 | The URL is the stripped "url" string. Non-object data or a non-string url raises. |
| MainRoutes.ExtractVideoInfo | blueprints/main_routes.py:107-163 | A malformed body is a 500. An empty URL is a 400, and so is an invalid one. No 400 ever queries the API. Any query uses the id of a validated URL, and its reply is the one built from the API's answer for that id. For a valid URL the API is queried exactly when the key is present and non-empty. Otherwise the reply is a 500 "YouTube API not configured". |
| MainRoutes.QueryApi | blueprints/main_routes.py:123-135 | A missing or empty key gives a 500 "YouTube API not configured" without a query. Otherwise the videos endpoint is queried with part "snippet,contentDetails", the id and the key, and the reply is built from that answer. |
| MainRoutes.InfoReply | blueprints/main_routes.py:135-159 | A non-200 API answer is a 500. A 200 reply needs a 200 answer with a readable body. |
| MainRoutes.ExtractGuardUnreachable | blueprints/main_routes.py:119-121 | The "Could not extract video ID" reply can never be given, because every validated URL has an extractable id. |
| MainRoutes.ReportedMinutesAtLeastOne | blueprints/main_routes.py:150-157 | A successful video-info reply never reports fewer than one minute. |
| MainRoutes.SessionPlan | blueprints/main_routes.py:192-195 | The plan is read from the session user's document. A missing document raises. |
| MainRoutes.CachedTranscript | blueprints/main_routes.py:184-188 | The cached transcript is the stored one, or null when no transcript document exists. |
| MainRoutes.SummarizeAndCharge | blueprints/main_routes.py:197-212 | A 200 is given exactly when the summary is produced and `update_user_usage` succeeds for it. The store after is exactly the one that charge leaves: the video is recorded with the summary and its minutes. A summariser error leaves the store unchanged and gives the failure reply. |
| MainRoutes.FromCache | blueprints/main_routes.py:183-212 | The cached path never scrapes. A missing user is a 500. It replies 200 exactly when it serves a "cached" summary. Serving one means the summary was produced from the cached transcript, and the store after is the one left by charging the user for it. Conversely, with the user's plan readable, a summariser error is a 500 that changes nothing, and a produced summary whose usage update succeeds is served as "cached" and charged. |
| MainRoutes.Fallback | blueprints/main_routes.py:259-286 | A failed fetch is a 400. The only other reply is a served "fallback" summary, and jobs are never touched. Serving one means the fetch and the plan read succeeded, and the summary was produced from the fetched text. The store after is the one left by charging the user for it. Conversely, after a successful fetch and plan read, a summariser error is the 400 with the store unchanged, and a produced summary whose usage update succeeds is served as "fallback" and charged. |
| MainRoutes.JobRef | blueprints/main_routes.py:234-245 | The video-job reference records status processing, the user, the video and the snapshot id. |
| MainRoutes.AsyncReply | blueprints/main_routes.py:247-257 | The asynchronous reply is a 200 "async" that carries the snapshot id as job_id. |
| MainRoutes.AfterTrigger | blueprints/main_routes.py:226-286 | The reply is "async" exactly when the trigger succeeded, and then the job reference is stored and no summary is written. A failed trigger falls back. |
| MainRoutes.StartCollection | blueprints/main_routes.py:214-231 | The route triggers a collection for the one video URL with its webhook and notify URLs. A URL the scraper would not accept raises "No valid YouTube URLs provided" before any request. An accepted one is posted as the only input, with the client's query parameters and the notify URL. |
| MainRoutes.Scrape | blueprints/main_routes.py:214-286 | No scraper client, or a URL that is not a string, means the fallback. An "async" reply means a request was made and the job reference was stored. |
| MainRoutes.ParseRequest | blueprints/main_routes.py:171-179 | Missing video_id or video_url gives no request. Non-object data raises. A request carries the given id and URL. |
| MainRoutes.SummarizeVideo | blueprints/main_routes.py:168-290 | Missing fields are a 400 and a malformed body is a 500. A cached transcript is served from cache; otherwise the scrape path is taken. Each path's outcome is exactly that path's, so the two-way contracts of the cached and fallback paths carry over. |
| MainRoutes.CachedTranscriptNeverScrapes | blueprints/main_routes.py:183-212 | When the transcript is cached, no scraping request is ever made. |
| MainRoutes.CachedTranscriptSummarised | blueprints/main_routes.py:183-212 | A request for a video with a cached transcript, from a user whose plan reads cleanly, is answered with the "cached" summary and charges the user, whenever the summariser answers and the usage update succeeds. No scraping request is made. |
| MainRoutes.AsyncReplyRecordsJob | blueprints/main_routes.py:226-257 | An "async" reply implies the request was well formed and a processing job reference for the video was stored. |
| MainRoutes.StatusAfterAsyncSummary | blueprints/main_routes.py:380-425 | After an "async" reply, the requester's status check says processing, and any other user gets a 403. |
| MainRoutes.ProcessedAt | blueprints/main_routes.py:397 | A stored datetime is rendered in ISO format and an absent one is null. Anything else raises. |
| MainRoutes.CheckJobStatus | blueprints/main_routes.py:380-425 | Replies are 200/403/404/500. A finished video is "completed". An unknown job is 404, and another user's job is 403. Otherwise it reports the job's status (default "unknown") and snapshot id. |
| UserHelpers.GetUserPlanData | user_helpers.py:10-43 | No plan data is given for a missing user, or when subscription or usage is not a dictionary. Otherwise the stored plan and usage minutes are returned. |
| UserHelpers.WithUserPlanData | user_helpers.py:45-67 | No user id is a 400 and an unknown user is a 404. Otherwise the route runs with that user's plan data. |
| UserHelpers.PlanLimit | user_helpers.py:94 | The limit is the table's, or 30 for an unknown plan. Unhashable plan values raise. |
| UserHelpers.Percentage | user_helpers.py:95 | The percentage is capped at 100, lies in 0..100 for non-negative usage, and is 100 once the limit is reached. |
| UserHelpers.PercentageUsed | user_helpers.py:95 | A non-positive limit shows 0. Otherwise it is the capped percentage of a number, and it raises for a non-number. |
| UserHelpers.PercentageMonotone | user_helpers.py:95 | Using more minutes never shows a smaller percentage. |
| UserHelpers.FormatPlanData | user_helpers.py:69-106 | No plan data shows the free plan's limit with 0 used. Otherwise it shows the stored plan, usage, limit and percentage. Recent videos are always empty. |
| UserHelpers.NoPlanDataShowsFree | user_helpers.py:80-90 | With the real plan table, missing plan data shows plan free, 30 minutes and 0%. |
| UserHelpers.NewUserPlanView | user_helpers.py:10-43 | A freshly seeded user has plan data of free with 0 minutes. |
| UserHelpers.UnknownPlanShowsThirty | user_helpers.py:94 | A plan missing from the table is shown with a 30-minute limit. |
| Auth.GetCurrentUserId | auth.py:78-86 | A user id exists exactly when the session is authenticated, and it is the session's user. |
| Auth.AuthRequired | auth.py:11-19 | An unauthenticated request is redirected to the login page, and an authenticated one runs the route. |
| Auth.TableLimit | auth.py:48 | A limit exists exactly for plans in the table, and it is that plan's limit. |
| Auth.Admission | auth.py:45-66 | Admits exactly when plan, limit and usage read cleanly and usage is under the limit. An unreadable plan or usage is a 500 "Unable to verify plan limits"; usage at or over the limit is a 403. |
| Auth.PlanChecker | auth.py:21-72 | Without a user, it redirects without touching store or session. Otherwise it seeds a missing user, gates the route on admission, and always clears the temporary user data. |
| Auth.UnauthenticatedRedirected | auth.py:11-30 | Both decorators redirect an anonymous session, and no current user id exists. |
| Auth.NewUserAdmitted | auth.py:36-62 | A user seen for the first time is seeded and admitted. |
| Auth.AdmitIffUnderLimit | auth.py:46-57 | For a known plan with stored counters, admission holds exactly when usage is below the plan's limit. A refusal is a 403. |
| Auth.UnknownPlanRefused | auth.py:46-66 | A plan missing from the table is refused with 500 "Unable to verify plan limits". |
| Payment.FormatAmount | payment.py:84-90 | Cents are printed with exactly two decimals after the point. |
| Payment.AmountRoundTrip | payment.py:84-90 | Reading the printed amount back gives the same number of cents. |
| Payment.AmountInjective | payment.py:201-226 | Different cent amounts never print the same string, so comparing amount strings compares the amounts. |
| Payment.PlanPricesPrinted | payment.py:84-90 | The plan prices print as 9.99, 29.99 and 0.00. |
| Payment.Issues | payment.py:234-238 | Reading succeeds exactly when every detail is a dictionary whose issue, when truthy, is a string. There are at most as many issues as details, and none is empty; `IssuesCovered` and `IssuesNamed` state which issues they are. |
| Payment.IssuesCovered | payment.py:234-238 | Every detail whose issue is a truthy string has that issue collected. |
| Payment.IssuesNamed | payment.py:234-238 | Every collected issue is the issue of some detail. |
| Payment.FormatPaypalError | payment.py:228-241 | An absent error is "Unknown PayPal error" and a non-dictionary error raises. Without details, or when no detail names an issue, the error's message is returned as it is. Otherwise " - " and the issues joined by ", " are added with `+=`. A string message gets them appended as text. A list message is extended by their characters. Any other message raises. |
| Payment.MessageWithIssues | payment.py:228-241 | An error whose details name at least one issue reads as its message, " - ", and the issues joined by ", ". |
| Payment.ListMessageWithIssues | payment.py:228-241 | A list message with issues does not raise: `+=` keeps the list's entries first, followed by one entry per character of " - " and the joined issues. |
| Payment.ExampleIssues | payment.py:234-238 | Of two details, one naming an issue and one naming only a field, only the issue is collected. |
| Payment.ApprovalUrl | payment.py:103 | The approval URL is the href of the first link whose rel is approval_url, and it is absent when no link has that rel. |
| Payment.PlanOrder | payment.py:70-96 | The order's price and total are the plan's price in dollars, in the plan's currency, with the user id as the custom field. |
| Payment.CreatePayment | payment.py:33-120 | An unknown plan raises and writes nothing. Free subscribes directly without PayPal. For a paid plan the order is sent to PayPal. An SDK exception raises with nothing stored, and a refused creation raises with nothing stored. A created payment goes through `StorePending` with a pending intent for the user, plan, price and currency under the payment's id. |
| Payment.PaidPlanAwaitsApproval | payment.py:95-112 | A paid plan whose payment PayPal creates with a non-empty approval link returns that link and the payment id, leaves the users alone, and stores exactly one new pending intent under the payment id. |
| Payment.StorePending | payment.py:98-116 | The intent is stored before the approval link is checked, and the call succeeds exactly when a non-empty approval URL exists. |
| Payment.FreePlanNeedsNoPaypal | payment.py:47-54 | Subscribing to free writes the subscription and no payment intent. |
| Payment.VerifyPaymentDetails | payment.py:201-226 | Passes exactly when the first transaction's total, currency and custom user id equal the intent's. |
| Payment.VerifyPayment | payment.py:122-199 | A missing intent, another user's intent or an already-settled intent is refused. Only the named intent may change, and only from pending. Success leaves it completed by the payer. For the user's own pending intent, an SDK exception from the lookup or a detail mismatch raises with nothing changed. Once the details match, an SDK exception from the execution raises with nothing changed, and an execution result is settled by `Settle`. |
| Payment.Settle | payment.py:161-189 | A declined execution marks the intent failed and raises. An approved one first writes the subscription: if the user has no document it raises with nothing changed. Otherwise the users are the subscribed ones and the intent is completed by the payer, and the call succeeds exactly when the plan is in the table. |
| Payment.Decline | payment.py:180-188 | A declined execution always raises, and it marks only the named intent as failed with the error and time. |
| Payment.Approve | payment.py:161-178 | An approved execution writes the subscription, then completes the intent by the payer. Success reports the intent's plan and the executed payment id, and the user's stored plan reads back as that plan. |
| Payment.ApprovedPaymentSubscribes | payment.py:122-178 | A pending intent of the caller, for a known plan and an existing user, whose PayPal payment matches the details and executes, is verified: the intent is completed by the payer and the user's stored plan is the intent's plan. |
| Payment.IntentSettlesOnce | payment.py:146-151 | A second verification of a settled intent changes nothing and raises. |
| Payment.CreatedOrderVerifies | payment.py:70-96 | The order that creation sends passes the detail check against the intent it stores. |
| Payment.GetPlanDetails | payment.py:243-248 | Returns the table entry for a known plan and raises "Invalid plan ID" otherwise. |
| Payment.UnknownPlanRefusedAlike | payment.py:44-45 | Creating a payment for an unknown plan fails with the same error as looking the plan up. |

## Left out

- Floating point is not modelled. Amounts are printed from integer cents, which
  `{:.2f}` of `cents / 100.0` renders exactly.
- UserHelpers.Percentage: computes the truncated integer percentage exactly. The
  source goes through floating point (`usage / limit * 100`), which can land one
  below the exact value. Only the bounds and monotonicity are stated.
- Clocks: `datetime.now()` and "now plus one month" are the values `now` and
  `nextBilling`, which the caller passes in.
- Prompt wording: the LLM prompt is reduced to the fields it is built from.
  These are the detail level, the transcript excerpt, title, channel and token
  budget.
- The LLM, YouTube Data API, transcript API, Bright Data HTTP endpoint,
  `urlparse` and PayPal SDK calls are oracle parameters. Their network
  behaviour, retries and timeouts are not modelled.
- Regular expressions treat `\d` as ASCII digits only. Python also accepts
  other Unicode digits there.
- Scraper.Items: a webhook payload that is a dictionary iterates over its keys.
  Each key is represented by a placeholder string item, which always counts as
  a failure as it does in the source.
- Auth.PlanChecker: the session's user id is assumed to be a string.
- Webhooks.SummarizeAll: is proved for any step that only touches the owner's
  documents and tags results with the snapshot. `Webhooks.ItemStep` is the one
  the route uses.
- MainRoutes.Scrape: a video_url that is not a string falls back without
  calling the scraper. In the source the same outcome comes from the scraper
  rejecting the URL.
- SDK exception texts are abstract strings (`CreateFailureText`,
  `VerifyFailureText`).
- Payment.ErrorText: a formatted PayPal error that is not a string is shown
  in the raised exception's text as "Unknown PayPal error". Python's f-string
  would print its `str()` rendering, which the model does not reproduce. This
  case arises when the message is a list, a number or another non-string value.
- Payment.CreatePayment: does not claim that intents only move forward. If
  PayPal reused a payment id, the new pending intent would overwrite the old
  one. `Payment.IntentSettlesOnce` therefore speaks about one stored intent.
- Routes outside the core are not part of this model. These are home, terms,
  privacy, dashboard, pricing, my_videos, get_user_usage, get_recent_videos
  and get_video_details in blueprints/main_routes.py, plus
  blueprints/auth_routes.py, blueprints/payment_routes.py, app.py, wsgi.py and
  gunicorn.conf.py.
- The scraper's `get_job_status` and `download_results` are not modelled. They
  are HTTP pass-throughs with no logic of their own.
- `get_video_transcript` in utils.py is the transcript oracle
  `Services.fetchTranscript`.
- Concurrency is not modelled: each handler runs atomically on the store. The
  ordering of Firestore query results is not modelled either.
- Logging is not modelled.
