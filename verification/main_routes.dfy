/**
 The video routes (blueprints/main_routes.py): looking up a video's details
 from its URL, summarising a video (from a cached transcript, through a
 scraping job, or through the transcript API as a fallback), and reporting
 the status of a video's job. The signed-in user's id comes from the
 session; the YouTube Data API, the transcript API, the scraper's HTTP
 exchange, the language model and datetime formatting are parameters.
 */
module MainRoutes {
  import opened Values
  import opened Text
  import opened Store
  import opened Http
  import Duration
  import VideoUrls
  import Summaries
  import Usage
  import Scraper

  // ---------------------------------------------------------------------------
  // Video details.

  const VideosEndpoint := "https://www.googleapis.com/youtube/v3/videos"
  const InfoError := "Failed to extract video information"

  /** The YouTube Data API query: endpoint, requested parts, video id and API key. */
  datatype VideoQuery = VideoQuery(endpoint: string, part: string, videoId: string, key: string)

  /** The API's answer: the HTTP status and the decoded body (decoding may raise). */
  datatype ApiResponse = ApiResponse(status: int, body: Res<Json>)

  /** What `extract_video_info` asked the API (if anything) and what it answered. */
  datatype InfoRun = InfoRun(query: Option<VideoQuery>, reply: Reply)

  /**
   `parse_duration` applied to any decoded value: a falsy value is 0
   seconds, a string is parsed, and anything else makes the pattern match
   raise.
   */
  function DurationSeconds(duration: Json): (r: Res<nat>)
    ensures !Truthy(duration) ==> r == Ok(0)
    ensures Truthy(duration) && duration.JStr? ==> r == Ok(Duration.ParseDuration(duration.s))
    ensures r.Ok? <==> !Truthy(duration) || duration.JStr?
  {
    if !Truthy(duration) then Ok(0)
    else if duration.JStr? then Ok(Duration.ParseDuration(duration.s))
    else Raise("TypeError: expected string or bytes-like object")
  }

  /**
   The reply built from the API's decoded body: 404 when it lists no
   items, otherwise the first item's snippet and duration. A body of the
   wrong shape raises.
   */
  function InfoFromBody(body: Json, videoId: string): (r: Res<Reply>)
    ensures r.Ok? ==> body.JObj?
    ensures (body.JObj? && !Truthy(GetOr(body.fields, "items", JNull))) ==> r == Ok(Error(404, "Video not found"))
    ensures (r.Ok? && r.value.JsonReply? && r.value.code == 200 ==>
      First(GetOr(body.fields, "items", JNull)).Ok?
      && var video := First(GetOr(body.fields, "items", JNull)).value;
      video.JObj? && "contentDetails" in video.fields && video.fields["contentDetails"].JObj?
      && DurationSeconds(GetOr(video.fields["contentDetails"].fields, "duration", JStr(""))).Ok?
      && Holds(r.value.body, "duration_minutes",
               JInt(Duration.ChargedMinutes(DurationSeconds(GetOr(video.fields["contentDetails"].fields, "duration", JStr(""))).value)))
      && Holds(r.value.body, "video_id", JStr(videoId)))
    ensures r.Ok? ==> r.value.JsonReply? && r.value.code in {200, 404}
  {
    var items :- Field(body, "items", JNull);
    if !Truthy(items) then Ok(Error(404, "Video not found"))
    else
      var video :- First(items);
      var snippet :- Subscript(video, "snippet");
      var details :- Subscript(video, "contentDetails");
      var duration :- Field(details, "duration", JStr(""));
      var seconds :- DurationSeconds(duration);
      if !snippet.JObj? then Raise(NoGet)
      else
        var thumbnails := GetOr(snippet.fields, "thumbnails", EmptyObj);
        var medium :- Field(thumbnails, "medium", EmptyObj);
        var thumbnail :- Field(medium, "url", JStr(""));
        var title := GetOr(snippet.fields, "title", JStr("Unknown Title"));
        var channel := GetOr(snippet.fields, "channelTitle", JStr("Unknown Channel"));
        Ok(JsonReply(200, map[
          "video_id" := JStr(videoId), "title" := title, "channel" := channel,
          "duration_minutes" := JInt(Duration.ChargedMinutes(seconds)), "thumbnail" := thumbnail]))
  }

  /** The URL a request names: the stripped `url` field; a missing field reads as "". */
  function RequestedUrl(data: Json): (r: Res<string>)
    ensures r.Ok? <==> data.JObj? && GetOr(data.fields, "url", JStr("")).JStr?
    ensures r.Ok? ==> r.value == Strip(GetOr(data.fields, "url", JStr("")).s)
  {
    var url :- Field(data, "url", JStr(""));
    if url.JStr? then Ok(Strip(url.s)) else Raise("AttributeError: object has no attribute 'strip'")
  }

  /**
   `extract_video_info`. The URL checks (present, valid, carries an id)
   answer 400 before the API is asked anything; a missing API key is a 500;
   the API is asked for the validated URL's id only.
   */
  function ExtractVideoInfo(data: Json, apiKey: Option<string>, youtube: VideoQuery -> Res<ApiResponse>): (r: InfoRun)
    ensures RequestedUrl(data).Raise? ==> r == InfoRun(None, Error(500, InfoError))
    ensures RequestedUrl(data) == Ok("") ==> r == InfoRun(None, Error(400, "URL is required"))
    ensures (RequestedUrl(data).Ok? && RequestedUrl(data).value != "" && !VideoUrls.ValidateYoutubeUrl(RequestedUrl(data).value)
      ==> r == InfoRun(None, Error(400, "Invalid YouTube URL")))
    ensures r.reply.JsonReply? && (r.reply.code == 400 ==> r.query.None?)
    ensures (r.query.Some? ==> (RequestedUrl(data).Ok? && VideoUrls.ValidateYoutubeUrl(RequestedUrl(data).value)
      && Some(r.query.value.videoId) == VideoUrls.ExtractVideoId(RequestedUrl(data).value)
      && VideoUrls.IsVideoId(r.query.value.videoId)
      && apiKey.Some? && r.query.value.key == apiKey.value != ""
      && r.query.value.endpoint == VideosEndpoint && r.query.value.part == "snippet,contentDetails"))
    ensures r.reply.code == 200 ==> r.query.Some?
    ensures r.query.Some? ==> r.reply == InfoReply(youtube(r.query.value), r.query.value.videoId)
    ensures ((RequestedUrl(data).Ok? && VideoUrls.ValidateYoutubeUrl(RequestedUrl(data).value)
              && VideoUrls.ExtractVideoId(RequestedUrl(data).value).Some?)
             ==> (r.query.Some? <==> apiKey.Some? && apiKey.value != "")
                 && (r.query.None? ==> r == InfoRun(None, Error(500, "YouTube API not configured"))))
    ensures (r.reply == Error(400, "Could not extract video ID from URL") ==> (RequestedUrl(data).Ok?
      && VideoUrls.ValidateYoutubeUrl(RequestedUrl(data).value) && VideoUrls.ExtractVideoId(RequestedUrl(data).value).None?))
  {
    match RequestedUrl(data)
    case Raise(_) => InfoRun(None, Error(500, InfoError))
    case Ok(url) =>
      if url == "" then InfoRun(None, Error(400, "URL is required"))
      else if !VideoUrls.ValidateYoutubeUrl(url) then InfoRun(None, Error(400, "Invalid YouTube URL"))
      else match VideoUrls.ExtractVideoId(url)
        case None => InfoRun(None, Error(400, "Could not extract video ID from URL"))
        case Some(videoId) => QueryApi(videoId, apiKey, youtube)
  }

  /** After the URL checks: a 500 without an API key, otherwise one videos query for `videoId`. */
  function QueryApi(videoId: string, apiKey: Option<string>, youtube: VideoQuery -> Res<ApiResponse>): (r: InfoRun)
    ensures r.query.Some? <==> apiKey.Some? && apiKey.value != ""
    ensures r.query.None? ==> r == InfoRun(None, Error(500, "YouTube API not configured"))
    ensures (r.query.Some? ==> (r.query.value == VideoQuery(VideosEndpoint, "snippet,contentDetails", videoId, apiKey.value)
      && r.reply == InfoReply(youtube(r.query.value), videoId)))
  {
    if apiKey.None? || apiKey.value == "" then InfoRun(None, Error(500, "YouTube API not configured"))
    else
      var query := VideoQuery(VideosEndpoint, "snippet,contentDetails", videoId, apiKey.value);
      InfoRun(Some(query), InfoReply(youtube(query), videoId))
  }

  /** The reply to the API's answer: a non-200 status or anything that raises is a 500. */
  function InfoReply(response: Res<ApiResponse>, videoId: string): (reply: Reply)
    ensures reply.JsonReply? && reply.code in {200, 404, 500}
    ensures (response.Ok? && response.value.status != 200) ==> reply == Error(500, "Failed to fetch video details")
    ensures (reply.code == 200 ==> (response.Ok? && response.value.status == 200 && response.value.body.Ok?
      && InfoFromBody(response.value.body.value, videoId) == Ok(reply)))
  {
    match response
    case Raise(_) => Error(500, InfoError)
    case Ok(answer) =>
      if answer.status != 200 then Error(500, "Failed to fetch video details")
      else match answer.body
        case Raise(_) => Error(500, InfoError)
        case Ok(body) =>
          match InfoFromBody(body, videoId)
          case Raise(_) => Error(500, InfoError)
          case Ok(reply) => reply
  }

  /** The third URL guard never fires: a URL that validates always yields an id. */
  lemma ExtractGuardUnreachable(data: Json, apiKey: Option<string>, youtube: VideoQuery -> Res<ApiResponse>)
    ensures ExtractVideoInfo(data, apiKey, youtube).reply != Error(400, "Could not extract video ID from URL")
  {
    var url := RequestedUrl(data);
    if url.Ok? && VideoUrls.ValidateYoutubeUrl(url.value) {
      VideoUrls.ValidatedUrlYieldsSameId(url.value);
    }
  }

  /** The reported duration is at least one minute. */
  lemma ReportedMinutesAtLeastOne(body: Json, videoId: string)
    requires InfoFromBody(body, videoId).Ok? && InfoFromBody(body, videoId).value.code == 200
    ensures var reply := InfoFromBody(body, videoId).value;
      "duration_minutes" in reply.body && reply.body["duration_minutes"].JInt? && reply.body["duration_minutes"].i >= 1
  {
  }

  // ---------------------------------------------------------------------------
  // Summarising a video.

  const ProcessError := "Failed to process video"
  const SummaryError := "Failed to generate summary"
  const NoTranscript := "This video doesn't have a transcript available"

  /** The outside services `summarize_video` uses. */
  datatype Services = Services(
    authToken: Option<string>, datasetId: Option<string>,
    webhookUrl: string, notifyUrl: string,
    netloc: string -> Res<string>, post: Scraper.CollectionRequest -> Res<Json>,
    fetchTranscript: string -> Res<string>,
    llm: Summaries.SummaryRequest -> Res<string>)

  /** The request's fields, with the handler's defaults. */
  datatype VideoRequest = VideoRequest(videoId: string, title: Json, channel: Json, minutes: Json, videoUrl: Json)

  /** The store afterwards, the scraping request sent (if any), and the reply. */
  datatype SummarizeRun = SummarizeRun(db: Db, scrape: Option<Scraper.CollectionRequest>, reply: Reply)

  /**
   The plan of the signed-in user on the cached and fallback paths: the
   user's document must exist (a missing one has no dictionary to read and
   raises).
   */
  function SessionPlan(users: Collection, userId: string): (r: Res<Json>)
    ensures userId !in users ==> r.Raise?
    ensures userId in users ==> r == Usage.StoredPlan(users[userId])
  {
    if userId in users then Usage.StoredPlan(users[userId]) else Raise(NoGet)
  }

  /** The transcript cached for a video: its `transcript` field, or nothing for an unknown video. */
  function CachedTranscript(transcripts: Collection, videoId: string): (t: Json)
    ensures videoId !in transcripts ==> t == JNull
    ensures videoId in transcripts ==> t == GetOr(transcripts[videoId], "transcript", JStr(""))
  {
    if videoId in transcripts then GetOr(transcripts[videoId], "transcript", JStr("")) else JNull
  }

  /** The success reply of the two direct paths. */
  function SummaryReply(req: VideoRequest, summary: string, kind: string): (r: Reply)
    ensures Served(r, kind) && Holds(r.body, "summary", JStr(summary)) && Holds(r.body, "video_id", JStr(req.videoId))
  {
    JsonReply(200, map[
      "success" := JBool(true), "summary" := JStr(summary), "video_id" := JStr(req.videoId),
      "title" := req.title, "channel" := req.channel, "duration_minutes" := req.minutes,
      "processing_type" := JStr(kind)])
  }

  /** A successful reply of the given kind ("cached", "async" or "fallback"). */
  predicate Served(reply: Reply, kind: string) {
    reply.JsonReply? && reply.code == 200 && Holds(reply.body, "processing_type", JStr(kind))
  }

  /**
   Summarise `transcript` for the user and charge the minutes: the shared
   core of the cached and fallback paths. `failure` is the reply for a
   summary or usage update that raises.
   */
  function SummarizeAndCharge(db: Db, userId: string, req: VideoRequest, transcript: Json, plan: Json,
                              llm: Summaries.SummaryRequest -> Res<string>, kind: string, failure: Reply,
                              now: Json, nextBilling: Json): (r: (Db, Reply))
    requires failure.JsonReply? && failure.code != 200
    ensures r.0.transcripts == db.transcripts && r.0.videoJobs == db.videoJobs && r.0.scrapingJobs == db.scrapingJobs
    ensures r.1 == failure || (r.1.JsonReply? && r.1.code == 200)
    ensures Summaries.GenerateSummary(transcript, plan, req.title, req.channel, llm).Raise? ==> r == (db, failure)
    ensures (r.1 != failure ==> (Summaries.GenerateSummary(transcript, plan, req.title, req.channel, llm).Ok?
      && var summary := Summaries.GenerateSummary(transcript, plan, req.title, req.channel, llm).value;
      r.1 == SummaryReply(req, summary, kind)
      && Usage.UpdateUserUsage(db, userId, req.minutes, req.videoId, req.title, summary, now, nextBilling).result.Ok?
      && r.0 == Usage.UpdateUserUsage(db, userId, req.minutes, req.videoId, req.title, summary, now, nextBilling).db
      && userId in r.0.videos && req.videoId in r.0.videos[userId]
      && r.0.videos[userId][req.videoId] == Usage.VideoRecord(req.videoId, req.title, summary, req.minutes, now)))
    ensures (Summaries.GenerateSummary(transcript, plan, req.title, req.channel, llm).Ok? ==>
      var summary := Summaries.GenerateSummary(transcript, plan, req.title, req.channel, llm).value;
      var eff := Usage.UpdateUserUsage(db, userId, req.minutes, req.videoId, req.title, summary, now, nextBilling);
      r == (eff.db, if eff.result.Ok? then SummaryReply(req, summary, kind) else failure))
  {
    match Summaries.GenerateSummary(transcript, plan, req.title, req.channel, llm)
    case Raise(_) => (db, failure)
    case Ok(summary) =>
      var eff := Usage.UpdateUserUsage(db, userId, req.minutes, req.videoId, req.title, summary, now, nextBilling);
      if eff.result.Raise? then (eff.db, failure)
      else (eff.db, SummaryReply(req, summary, kind))
  }

  /**
   The store after charging the user for `summary`: `update_user_usage`
   succeeded and its writes are the only change.
   */
  predicate Charged(before: Db, after: Db, userId: string, req: VideoRequest, summary: string, now: Json, nextBilling: Json) {
    var eff := Usage.UpdateUserUsage(before, userId, req.minutes, req.videoId, req.title, summary, now, nextBilling);
    eff.result.Ok? && after == eff.db
  }

  /** The cached path: the user's document is read outside the inner handler, so its failure is the outer 500. */
  function FromCache(db: Db, userId: string, req: VideoRequest, transcript: Json,
                     llm: Summaries.SummaryRequest -> Res<string>, now: Json, nextBilling: Json): (r: SummarizeRun)
    ensures r.scrape.None?
    ensures r.db.videoJobs == db.videoJobs && r.db.scrapingJobs == db.scrapingJobs
    ensures SessionPlan(db.users, userId).Raise? ==> r == SummarizeRun(db, None, Error(500, ProcessError))
    ensures r.reply.JsonReply? && (r.reply.code == 200 <==> Served(r.reply, "cached"))
    ensures (Served(r.reply, "cached") ==> (SessionPlan(db.users, userId).Ok?
      && Summaries.GenerateSummary(transcript, SessionPlan(db.users, userId).value, req.title, req.channel, llm).Ok?
      && var summary := Summaries.GenerateSummary(transcript, SessionPlan(db.users, userId).value, req.title, req.channel, llm).value;
      Charged(db, r.db, userId, req, summary, now, nextBilling)))
    ensures (SessionPlan(db.users, userId).Ok? ==>
      var summary := Summaries.GenerateSummary(transcript, SessionPlan(db.users, userId).value, req.title, req.channel, llm);
      (summary.Raise? ==> r == SummarizeRun(db, None, Error(500, SummaryError)))
      && (summary.Ok? && Usage.UpdateUserUsage(db, userId, req.minutes, req.videoId, req.title, summary.value, now, nextBilling).result.Ok?
          ==> r.reply == SummaryReply(req, summary.value, "cached") && Charged(db, r.db, userId, req, summary.value, now, nextBilling)))
  {
    match SessionPlan(db.users, userId)
    case Raise(_) => SummarizeRun(db, None, Error(500, ProcessError))
    case Ok(plan) =>
      var charged := SummarizeAndCharge(db, userId, req, transcript, plan, llm, "cached",
                                        Error(500, SummaryError), now, nextBilling);
      SummarizeRun(charged.0, None, charged.1)
  }

  /** The fallback path: every failure, the transcript API's included, is a 400. */
  function Fallback(db: Db, scrape: Option<Scraper.CollectionRequest>, userId: string, req: VideoRequest,
                    env: Services, now: Json, nextBilling: Json): (r: SummarizeRun)
    ensures r.scrape == scrape
    ensures r.db.videoJobs == db.videoJobs && r.db.scrapingJobs == db.scrapingJobs
    ensures env.fetchTranscript(req.videoId).Raise? ==> r == SummarizeRun(db, scrape, Error(400, NoTranscript))
    ensures r.reply.JsonReply? && (r.reply == Error(400, NoTranscript) || Served(r.reply, "fallback"))
    ensures !Served(r.reply, "async")
    ensures (Served(r.reply, "fallback") ==> (env.fetchTranscript(req.videoId).Ok? && SessionPlan(db.users, userId).Ok?
      && var text := JStr(env.fetchTranscript(req.videoId).value);
      Summaries.GenerateSummary(text, SessionPlan(db.users, userId).value, req.title, req.channel, env.llm).Ok?
      && var summary := Summaries.GenerateSummary(text, SessionPlan(db.users, userId).value, req.title, req.channel, env.llm).value;
      Charged(db, r.db, userId, req, summary, now, nextBilling)))
    ensures (env.fetchTranscript(req.videoId).Ok? && SessionPlan(db.users, userId).Ok? ==>
      var summary := Summaries.GenerateSummary(JStr(env.fetchTranscript(req.videoId).value), SessionPlan(db.users, userId).value,
        req.title, req.channel, env.llm);
      (summary.Raise? ==> r == SummarizeRun(db, scrape, Error(400, NoTranscript)))
      && (summary.Ok? && Usage.UpdateUserUsage(db, userId, req.minutes, req.videoId, req.title, summary.value, now, nextBilling).result.Ok?
          ==> r.reply == SummaryReply(req, summary.value, "fallback") && Charged(db, r.db, userId, req, summary.value, now, nextBilling)))
  {
    match env.fetchTranscript(req.videoId)
    case Raise(_) => SummarizeRun(db, scrape, Error(400, NoTranscript))
    case Ok(text) =>
      match SessionPlan(db.users, userId)
      case Raise(_) => SummarizeRun(db, scrape, Error(400, NoTranscript))
      case Ok(plan) =>
        var charged := SummarizeAndCharge(db, userId, req, JStr(text), plan, env.llm, "fallback",
                                          Error(400, NoTranscript), now, nextBilling);
        SummarizeRun(charged.0, scrape, charged.1)
  }

  /** The record `video_jobs/<video_id>` is set to when a scraping job starts. */
  function JobRef(job: Scraper.ScrapingJob, userId: string, req: VideoRequest): (d: Doc)
    ensures Holds(d, "status", JStr("processing")) && Holds(d, "user_id", JStr(userId))
    ensures Holds(d, "video_id", JStr(req.videoId)) && Holds(d, "snapshot_id", job.snapshotId)
  {
    map[
      "snapshot_id" := job.snapshotId, "user_id" := JStr(userId), "video_id" := JStr(req.videoId),
      "title" := req.title, "channel" := req.channel, "duration_minutes" := req.minutes,
      "status" := JStr("processing"), "created_at" := job.createdAt]
  }

  function AsyncReply(job: Scraper.ScrapingJob, req: VideoRequest): (reply: Reply)
    ensures Served(reply, "async") && Holds(reply.body, "job_id", job.snapshotId)
  {
    JsonReply(200, map[
      "success" := JBool(true), "processing" := JBool(true), "job_id" := job.snapshotId,
      "video_id" := JStr(req.videoId), "title" := req.title, "channel" := req.channel,
      "duration_minutes" := req.minutes,
      "message" := JStr("Video is being processed. You'll receive the summary shortly."),
      "processing_type" := JStr("async")])
  }

  /** After the scraper answered: record the job for the video, or fall back keeping what the scraper stored. */
  function AfterTrigger(db: Db, run: Scraper.CollectionRun, userId: string, req: VideoRequest,
                        env: Services, now: Json, nextBilling: Json): (r: SummarizeRun)
    requires run.jobs.Some?
    ensures r.scrape == run.request
    ensures (Served(r.reply, "async") <==> run.result.Ok?)
    ensures (run.result.Ok? ==> r == SummarizeRun(
      db.(scrapingJobs := run.jobs.value, videoJobs := Set(db.videoJobs, req.videoId, JobRef(run.result.value, userId, req))),
      run.request, AsyncReply(run.result.value, req)))
    ensures (Served(r.reply, "async") ==> (req.videoId in r.db.videoJobs && r.db.videos == db.videos
      && Holds(r.db.videoJobs[req.videoId], "status", JStr("processing"))
      && Holds(r.db.videoJobs[req.videoId], "user_id", JStr(userId))))
    ensures run.result.Raise? ==> r == Fallback(db.(scrapingJobs := run.jobs.value), run.request, userId, req, env, now, nextBilling)
  {
    var stored := db.(scrapingJobs := run.jobs.value);
    match run.result
    case Raise(_) => Fallback(stored, run.request, userId, req, env, now, nextBilling)
    case Ok(job) =>
      SummarizeRun(stored.(videoJobs := Set(db.videoJobs, req.videoId, JobRef(job, userId, req))),
                   run.request, AsyncReply(job, req))
  }

  /** The collection `summarize_video` starts for a request: the user's one video URL. */
  function StartCollection(db: Db, client: Scraper.Client, userId: string, url: string, env: Services, now: Json): (run: Scraper.CollectionRun)
    ensures run.jobs.Some?
    ensures (!Scraper.Accepted(url, env.netloc) ==>
      run == Scraper.CollectionRun(None, Some(db.scrapingJobs), Raise("ValueError: No valid YouTube URLs provided")))
    ensures (Scraper.Accepted(url, env.netloc) ==> (run.request.Some? && run.request.value.inputs == [map["url" := url]]
      && run.request.value.params == Scraper.QueryParams(client, env.webhookUrl, Some(env.notifyUrl))))
  {
    assert [url][1..] == [];
    Scraper.TriggerTranscriptCollection(client, Some(db.scrapingJobs), userId, [url],
                                        env.webhookUrl, Some(env.notifyUrl), env.netloc, env.post, now)
  }

  /**
   The scraping path: start a collection for the video's URL and overwrite
   the video's job record; any failure (no scraper token, no valid URL, the
   provider refusing) falls back to the transcript API, keeping a job the
   scraper already stored.
   */
  function Scrape(db: Db, userId: string, req: VideoRequest, env: Services, now: Json, nextBilling: Json): (r: SummarizeRun)
    ensures Scraper.NewClient(env.authToken, env.datasetId).Raise? ==> r == Fallback(db, None, userId, req, env, now, nextBilling)
    ensures (Scraper.NewClient(env.authToken, env.datasetId).Ok? && !req.videoUrl.JStr?
      ==> r == Fallback(db, None, userId, req, env, now, nextBilling))
    ensures (Scraper.NewClient(env.authToken, env.datasetId).Ok? && req.videoUrl.JStr?
      ==> r == AfterTrigger(db, StartCollection(db, Scraper.NewClient(env.authToken, env.datasetId).value, userId, req.videoUrl.s, env, now),
                            userId, req, env, now, nextBilling))
    ensures (Served(r.reply, "async") ==> (r.scrape.Some? && req.videoId in r.db.videoJobs && r.db.videos == db.videos
      && Holds(r.db.videoJobs[req.videoId], "status", JStr("processing"))
      && Holds(r.db.videoJobs[req.videoId], "user_id", JStr(userId))))
  {
    match Scraper.NewClient(env.authToken, env.datasetId)
    case Raise(_) => Fallback(db, None, userId, req, env, now, nextBilling)
    case Ok(client) =>
      if !req.videoUrl.JStr? then Fallback(db, None, userId, req, env, now, nextBilling)
      else AfterTrigger(db, StartCollection(db, client, userId, req.videoUrl.s, env, now), userId, req, env, now, nextBilling)
  }

  /** The request's fields; a request that is not a dictionary raises. */
  function ParseRequest(data: Json): (r: Res<Option<VideoRequest>>)
    ensures (r.Raise? <==> (!data.JObj? || (Truthy(GetOr(data.fields, "video_id", JNull))
      && Truthy(GetOr(data.fields, "video_url", JNull)) && !GetOr(data.fields, "video_id", JNull).JStr?)))
    ensures (data.JObj? && (!Truthy(GetOr(data.fields, "video_id", JNull)) || !Truthy(GetOr(data.fields, "video_url", JNull)))
      ==> r == Ok(None))
    ensures (r.Ok? && r.value.Some? ==> (GetOr(data.fields, "video_id", JNull) == JStr(r.value.value.videoId)
      && r.value.value.videoId != "" && Truthy(r.value.value.videoUrl)
      && r.value.value.videoUrl == GetOr(data.fields, "video_url", JNull)
      && r.value.value.minutes == GetOr(data.fields, "duration_minutes", JInt(1))))
  {
    var videoId :- Field(data, "video_id", JNull);
    var videoUrl := GetOr(data.fields, "video_url", JNull);
    if !Truthy(videoId) || !Truthy(videoUrl) then Ok(None)
    else if !videoId.JStr? then Raise("TypeError: document id must be a string")
    else Ok(Some(VideoRequest(videoId.s, GetOr(data.fields, "title", JStr("Unknown Title")),
                              GetOr(data.fields, "channel", JStr("Unknown Channel")),
                              GetOr(data.fields, "duration_minutes", JInt(1)), videoUrl)))
  }

  /**
   `summarize_video`. A request without a video id or URL is a 400 and
   changes nothing. A cached non-empty transcript is summarised directly
   and nothing is scraped; otherwise a scraping job is started, with the
   transcript API as the fallback.
   */
  function SummarizeVideo(db: Db, userId: string, data: Json, env: Services, now: Json, nextBilling: Json): (r: SummarizeRun)
    ensures (ParseRequest(data) == Ok(None) ==> r == SummarizeRun(db, None, Error(400, "Video ID and URL are required")))
    ensures ParseRequest(data).Raise? ==> r == SummarizeRun(db, None, Error(500, ProcessError))
    ensures r.reply.JsonReply?
    ensures (ParseRequest(data).Ok? && ParseRequest(data).value.Some?
      && Truthy(CachedTranscript(db.transcripts, ParseRequest(data).value.value.videoId))
      ==> r == FromCache(db, userId, ParseRequest(data).value.value,
                         CachedTranscript(db.transcripts, ParseRequest(data).value.value.videoId), env.llm, now, nextBilling))
    ensures (ParseRequest(data).Ok? && ParseRequest(data).value.Some?
      && !Truthy(CachedTranscript(db.transcripts, ParseRequest(data).value.value.videoId))
      ==> r == Scrape(db, userId, ParseRequest(data).value.value, env, now, nextBilling))
  {
    match ParseRequest(data)
    case Raise(_) => SummarizeRun(db, None, Error(500, ProcessError))
    case Ok(None) => SummarizeRun(db, None, Error(400, "Video ID and URL are required"))
    case Ok(Some(req)) =>
      var cached := CachedTranscript(db.transcripts, req.videoId);
      if Truthy(cached) then FromCache(db, userId, req, cached, env.llm, now, nextBilling)
      else Scrape(db, userId, req, env, now, nextBilling)
  }

  /** A video whose transcript is cached is summarised directly: nothing is scraped and no job is touched. */
  lemma CachedTranscriptNeverScrapes(db: Db, userId: string, data: Json, env: Services, now: Json, nextBilling: Json)
    requires ParseRequest(data).Ok? && ParseRequest(data).value.Some?
    requires Truthy(CachedTranscript(db.transcripts, ParseRequest(data).value.value.videoId))
    ensures var r := SummarizeVideo(db, userId, data, env, now, nextBilling);
      r.scrape.None? && r.db.scrapingJobs == db.scrapingJobs && r.db.videoJobs == db.videoJobs
      && !Served(r.reply, "async") && !Served(r.reply, "fallback")
  {
    assert JStr("cached") != JStr("async") by { assert |"cached"| != |"async"|; }
    assert JStr("cached") != JStr("fallback") by { assert |"cached"| != |"fallback"|; }
  }

  /**
   A cached non-empty transcript, a readable plan, an answering summariser
   and a usage update that succeeds give a "cached" summary, and the store
   after is the one that charge leaves.
   */
  lemma CachedTranscriptSummarised(db: Db, userId: string, data: Json, env: Services, now: Json, nextBilling: Json)
    requires ParseRequest(data).Ok? && ParseRequest(data).value.Some?
    requires Truthy(CachedTranscript(db.transcripts, ParseRequest(data).value.value.videoId))
    requires SessionPlan(db.users, userId).Ok?
    requires (var req := ParseRequest(data).value.value;
      var summary := Summaries.GenerateSummary(CachedTranscript(db.transcripts, req.videoId),
        SessionPlan(db.users, userId).value, req.title, req.channel, env.llm);
      summary.Ok? && Usage.UpdateUserUsage(db, userId, req.minutes, req.videoId, req.title, summary.value, now, nextBilling).result.Ok?)
    ensures var r := SummarizeVideo(db, userId, data, env, now, nextBilling);
      var req := ParseRequest(data).value.value;
      var summary := Summaries.GenerateSummary(CachedTranscript(db.transcripts, req.videoId),
        SessionPlan(db.users, userId).value, req.title, req.channel, env.llm).value;
      r.scrape.None? && r.reply == SummaryReply(req, summary, "cached") && Charged(db, r.db, userId, req, summary, now, nextBilling)
  {
  }

  /**
   A request answered "async" has started a scraping job and recorded it
   for the video, owned by the requesting user and "processing".
   */
  lemma AsyncReplyRecordsJob(db: Db, userId: string, data: Json, env: Services, now: Json, nextBilling: Json)
    requires Served(SummarizeVideo(db, userId, data, env, now, nextBilling).reply, "async")
    ensures ParseRequest(data).Ok? && ParseRequest(data).value.Some?
    ensures var r := SummarizeVideo(db, userId, data, env, now, nextBilling);
      var videoId := ParseRequest(data).value.value.videoId;
      r.scrape.Some? && videoId in r.db.videoJobs && r.db.videos == db.videos
      && Holds(r.db.videoJobs[videoId], "status", JStr("processing"))
      && Holds(r.db.videoJobs[videoId], "user_id", JStr(userId))
  {
    var r := SummarizeVideo(db, userId, data, env, now, nextBilling);
    assert JStr("cached") != JStr("async") by { assert |"cached"| != |"async"|; }
    var req := ParseRequest(data).value.value;
    if Truthy(CachedTranscript(db.transcripts, req.videoId)) {
      assert false;
    } else {
      assert r == Scrape(db, userId, req, env, now, nextBilling);
    }
  }

  /**
   Summarising and then asking for the status, before the summary is
   stored: the requester sees the job "processing", anyone else is refused.
   */
  lemma StatusAfterAsyncSummary(db: Db, userId: string, other: string, data: Json, env: Services,
                                now: Json, nextBilling: Json, isoformat: int -> string)
    requires Served(SummarizeVideo(db, userId, data, env, now, nextBilling).reply, "async")
    requires ParseRequest(data).Ok? && ParseRequest(data).value.Some?
    requires ParseRequest(data).value.value.videoId !in UserVideos(db, userId)
    requires ParseRequest(data).value.value.videoId !in UserVideos(db, other) && other != userId
    ensures var after := SummarizeVideo(db, userId, data, env, now, nextBilling).db;
      var videoId := ParseRequest(data).value.value.videoId;
      Holds(CheckJobStatus(after, userId, videoId, isoformat).body, "status", JStr("processing"))
      && CheckJobStatus(after, other, videoId, isoformat) == Error(403, "Unauthorized")
  {
    AsyncReplyRecordsJob(db, userId, data, env, now, nextBilling);
  }

  // ---------------------------------------------------------------------------
  // Job status.

  const StatusError := "Failed to check job status"

  /** `value.isoformat() if value else None`; only a stored datetime has `isoformat`. */
  function ProcessedAt(value: Json, isoformat: int -> string): (r: Res<Json>)
    ensures !Truthy(value) ==> r == Ok(JNull)
    ensures value.JTime? ==> r == Ok(JStr(isoformat(value.stamp)))
    ensures r.Ok? <==> !Truthy(value) || value.JTime?
  {
    if !Truthy(value) then Ok(JNull)
    else if value.JTime? then Ok(JStr(isoformat(value.stamp)))
    else Raise("AttributeError: object has no attribute 'isoformat'")
  }

  /**
   `check_job_status`: a processed video is "completed" whatever its job
   says; otherwise an unknown job is a 404, another user's job a 403, and
   the job's status (default "unknown") is reported.
   */
  function CheckJobStatus(db: Db, userId: string, videoId: string, isoformat: int -> string): (r: Reply)
    ensures r.JsonReply? && r.code in {200, 403, 404, 500}
    ensures (videoId in UserVideos(db, userId) ==>
      r == Error(500, StatusError) || (r.code == 200 && Holds(r.body, "status", JStr("completed"))))
    ensures videoId !in UserVideos(db, userId) && videoId !in db.videoJobs ==> r == Error(404, "Job not found")
    ensures ((videoId !in UserVideos(db, userId) && videoId in db.videoJobs
      && GetOr(db.videoJobs[videoId], "user_id", JNull) != JStr(userId)) ==> r == Error(403, "Unauthorized"))
    ensures (videoId !in UserVideos(db, userId) && videoId in db.videoJobs
      && GetOr(db.videoJobs[videoId], "user_id", JNull) == JStr(userId)
      ==> (r.code == 200 && Holds(r.body, "status", GetOr(db.videoJobs[videoId], "status", JStr("unknown")))
        && Holds(r.body, "job_id", GetOr(db.videoJobs[videoId], "snapshot_id", JNull))))
  {
    var videos := UserVideos(db, userId);
    if videoId in videos then
      var video := videos[videoId];
      match ProcessedAt(GetOr(video, "processed_at", JNull), isoformat)
      case Raise(_) => Error(500, StatusError)
      case Ok(processedAt) =>
        JsonReply(200, map[
          "status" := JStr("completed"), "video_id" := JStr(videoId),
          "title" := GetOr(video, "title", JNull), "summary" := GetOr(video, "summary", JNull),
          "duration_minutes" := GetOr(video, "duration_minutes", JNull), "processed_at" := processedAt])
    else match Read(db.videoJobs, videoId)
      case None => Error(404, "Job not found")
      case Some(job) =>
        if GetOr(job, "user_id", JNull) != JStr(userId) then Error(403, "Unauthorized")
        else JsonReply(200, map[
          "status" := GetOr(job, "status", JStr("unknown")), "video_id" := JStr(videoId),
          "title" := GetOr(job, "title", JNull), "channel" := GetOr(job, "channel", JNull),
          "duration_minutes" := GetOr(job, "duration_minutes", JNull),
          "job_id" := GetOr(job, "snapshot_id", JNull), "created_at" := GetOr(job, "created_at", JNull)])
  }
}
