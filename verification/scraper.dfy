/**
 The scraper client and the transcript processor
 (services/bright_data_scraper.py): URL filtering, triggering a collection,
 the job records in `scraping_jobs`, and storing delivered transcripts.
 `urlparse` and the HTTP exchange are oracles; a missing database client is
 `None`.
 */
module Scraper {
  import opened Values
  import opened Text
  import opened Store
  import VideoUrls

  const YoutubeDomains: seq<string> := ["youtube.com", "youtu.be", "m.youtube.com"]
  const DefaultDatasetId := "gd_lk56epmy2i5g7lzu0k"
  const ScraperBaseUrl := "https://api.brightdata.com/datasets/v3"

  /** `any(domain in netloc for domain in youtube_domains)`. */
  predicate IsYoutubeNetloc(netloc: string) {
    Contains(netloc, YoutubeDomains[0]) || Contains(netloc, YoutubeDomains[1]) || Contains(netloc, YoutubeDomains[2])
  }

  /** A URL passes when its host (per the `netloc` oracle, which may raise) names a YouTube domain. */
  predicate Accepted(url: string, netloc: string -> Res<string>) {
    netloc(url).Ok? && IsYoutubeNetloc(netloc(url).value)
  }

  /** `_validate_youtube_urls`: the accepted URLs, in input order; a URL that fails to parse is dropped. */
  function ValidateYoutubeUrls(urls: seq<string>, netloc: string -> Res<string>): (valid: seq<string>)
    ensures |valid| <= |urls|
    ensures forall u :: u in valid ==> u in urls && Accepted(u, netloc)
    ensures forall u :: u in urls && Accepted(u, netloc) ==> u in valid
  {
    if urls == [] then []
    else (if Accepted(urls[0], netloc) then [urls[0]] else []) + ValidateYoutubeUrls(urls[1..], netloc)
  }

  /** The filter keeps order: validating a concatenation validates each part in turn. */
  lemma {:induction false} ValidateConcat(a: seq<string>, b: seq<string>, netloc: string -> Res<string>)
    ensures ValidateYoutubeUrls(a + b, netloc) == ValidateYoutubeUrls(a, netloc) + ValidateYoutubeUrls(b, netloc)
    decreases |a|
  {
    if a != [] {
      assert (a + b)[1..] == a[1..] + b;
      ValidateConcat(a[1..], b, netloc);
    } else {
      assert a + b == b;
    }
  }

  /** `m.youtube.com` adds nothing to the domain list: any host containing it contains `youtube.com`. */
  lemma MobileDomainRedundant(netloc: string)
    ensures IsYoutubeNetloc(netloc) <==> Contains(netloc, "youtube.com") || Contains(netloc, "youtu.be")
  {
    if Contains(netloc, "m.youtube.com") {
      var i :| 0 <= i <= |netloc| && LitAt(netloc, i, "m.youtube.com");
      assert "m.youtube.com"[2..13] == "youtube.com";
      LitInside(netloc, i, "m.youtube.com", 2, "youtube.com");
      assert ContainsFrom(netloc, "youtube.com", 0);
    }
  }

  // ---------------------------------------------------------------------------
  // Triggering a collection.

  /** A constructed scraper: its constructor refuses a missing auth token. */
  datatype Client = Client(authToken: string, datasetId: string)

  function NewClient(authToken: Option<string>, datasetId: Option<string>): (r: Res<Client>)
    ensures r.Ok? <==> authToken.Some? && authToken.value != ""
    ensures r.Ok? ==> r.value.datasetId == datasetId.GetOr(DefaultDatasetId)
  {
    if authToken.None? || authToken.value == "" then Raise("ValueError: BRIGHT_DATA_AUTH_TOKEN not configured")
    else Ok(Client(authToken.value, datasetId.GetOr(DefaultDatasetId)))
  }

  datatype ScrapingJob = ScrapingJob(snapshotId: Json, status: Json, createdAt: Json, userId: string, videoUrls: seq<string>)

  datatype CollectionRequest = CollectionRequest(endpoint: string, authorization: string,
                                                 params: map<string, string>, inputs: seq<map<string, string>>)

  /** What the trigger sent (if anything), the job collection afterwards, and the job or the exception. */
  datatype CollectionRun = CollectionRun(request: Option<CollectionRequest>, jobs: Option<Collection>, result: Res<ScrapingJob>)

  function Inputs(urls: seq<string>): (inputs: seq<map<string, string>>)
    ensures |inputs| == |urls| && forall i :: 0 <= i < |urls| ==> inputs[i] == map["url" := urls[i]]
  {
    if urls == [] then [] else [map["url" := urls[0]]] + Inputs(urls[1..])
  }

  function QueryParams(client: Client, webhookUrl: string, notifyUrl: Option<string>): (p: map<string, string>)
    ensures p.Keys == {"dataset_id", "format", "webhook", "webhook_format", "uncompressed"}
      + (if notifyUrl.Some? && notifyUrl.value != "" then {"notify"} else {})
    ensures "notify" in p ==> p["notify"] == notifyUrl.value
    ensures p["webhook_format"] == "json" && p["uncompressed"] == "false" && p["format"] == "json"
    ensures p["webhook"] == webhookUrl && p["dataset_id"] == client.datasetId
  {
    var base := map["dataset_id" := client.datasetId, "format" := "json", "webhook" := webhookUrl,
                    "webhook_format" := "json", "uncompressed" := "false"];
    if notifyUrl.Some? && notifyUrl.value != "" then base["notify" := notifyUrl.value] else base
  }

  /** The record `_store_job_in_db` writes. */
  function JobDoc(job: ScrapingJob, now: Json): Doc {
    map[
      "snapshot_id" := job.snapshotId, "status" := job.status, "created_at" := job.createdAt,
      "user_id" := JStr(job.userId), "video_urls" := JArr(Strings(job.videoUrls)),
      "service" := JStr("bright_data"), "created_timestamp" := now]
  }

  function Strings(xs: seq<string>): (js: seq<Json>)
    ensures |js| == |xs| && forall i :: 0 <= i < |xs| ==> js[i] == JStr(xs[i])
  {
    if xs == [] then [] else [JStr(xs[0])] + Strings(xs[1..])
  }

  /**
   `_store_job_in_db`: without a database nothing happens; a snapshot id
   that is not a string cannot name a document, and the failure is logged
   and swallowed.
   */
  function StoreJob(jobs: Option<Collection>, job: ScrapingJob, now: Json): (r: Option<Collection>)
    ensures r.Some? <==> jobs.Some?
    ensures jobs.Some? && job.snapshotId.JStr? ==> r.value == Set(jobs.value, job.snapshotId.s, JobDoc(job, now))
    ensures !job.snapshotId.JStr? ==> r == jobs
  {
    match jobs
    case None => None
    case Some(c) => if job.snapshotId.JStr? then Some(Set(c, job.snapshotId.s, JobDoc(job, now))) else jobs
  }

  /**
   `trigger_transcript_collection`. `post` is the HTTP exchange (including
   `raise_for_status`) up to the decoded body.
   */
  function TriggerTranscriptCollection(client: Client, jobs: Option<Collection>, userId: string, urls: seq<string>,
                                       webhookUrl: string, notifyUrl: Option<string>,
                                       netloc: string -> Res<string>, post: CollectionRequest -> Res<Json>,
                                       now: Json): (r: CollectionRun)
    ensures ValidateYoutubeUrls(urls, netloc) == [] ==>
      r == CollectionRun(None, jobs, Raise("ValueError: No valid YouTube URLs provided"))
    ensures r.request.Some? ==> (r.request.value.inputs == Inputs(ValidateYoutubeUrls(urls, netloc))
      && r.request.value.params == QueryParams(client, webhookUrl, notifyUrl))
    ensures r.result.Ok? ==> r.request.Some? && post(r.request.value).Ok? && post(r.request.value).value.JObj?
    ensures r.result.Ok? ==> var body := post(r.request.value).value.fields;
      Truthy(r.result.value.snapshotId) && r.result.value.snapshotId == GetOr(body, "snapshot_id", JNull)
      && r.result.value.status == GetOr(body, "status", JStr("pending"))
      && r.result.value.createdAt == GetOr(body, "created_at", JStr(""))
      && r.result.value.userId == userId
      && r.result.value.videoUrls == ValidateYoutubeUrls(urls, netloc)
    ensures r.result.Ok? ==> r.jobs == StoreJob(jobs, r.result.value, now)
    ensures r.result.Raise? ==> r.jobs == jobs
    ensures (ValidateYoutubeUrls(urls, netloc) != [] ==>
      var request := CollectionRequest(ScraperBaseUrl + "/trigger", "Bearer " + client.authToken,
                                       QueryParams(client, webhookUrl, notifyUrl), Inputs(ValidateYoutubeUrls(urls, netloc)));
      r.request == Some(request)
      && (r.result.Ok? <==> (post(request).Ok? && post(request).value.JObj?
                             && Truthy(GetOr(post(request).value.fields, "snapshot_id", JNull)))))
  {
    var valid := ValidateYoutubeUrls(urls, netloc);
    if valid == [] then CollectionRun(None, jobs, Raise("ValueError: No valid YouTube URLs provided"))
    else
      var request := CollectionRequest(ScraperBaseUrl + "/trigger", "Bearer " + client.authToken,
                                       QueryParams(client, webhookUrl, notifyUrl), Inputs(valid));
      match post(request)
      case Raise(e) => CollectionRun(Some(request), jobs, Raise(e))
      case Ok(body) =>
        if !body.JObj? then CollectionRun(Some(request), jobs, Raise(NoGet))
        else
          var snapshotId := GetOr(body.fields, "snapshot_id", JNull);
          if !Truthy(snapshotId) then CollectionRun(Some(request), jobs, Raise("ValueError: No snapshot_id returned from Bright Data API"))
          else
            var job := ScrapingJob(snapshotId, GetOr(body.fields, "status", JStr("pending")),
                                   GetOr(body.fields, "created_at", JStr("")), userId, valid);
            CollectionRun(Some(request), StoreJob(jobs, job, now), Ok(job))
  }

  // ---------------------------------------------------------------------------
  // Job records.

  /** `get_job_from_db`: `None` without a database, for an id that cannot name a document, or an absent one. */
  function GetJobFromDb(jobs: Option<Collection>, snapshotId: Json): (r: Option<Doc>)
    ensures r.Some? <==> jobs.Some? && snapshotId.JStr? && snapshotId.s in jobs.value
    ensures r.Some? ==> r.value == jobs.value[snapshotId.s]
  {
    if jobs.Some? && snapshotId.JStr? then Read(jobs.value, snapshotId.s) else None
  }

  /** The fields `update_job_status` writes: status and time, then the additional data over them. */
  function StatusFields(status: Json, additional: Doc, now: Json): (fields: Doc)
    ensures fields.Keys == {"status", "updated_at"} + additional.Keys
    ensures forall k :: k in additional ==> fields[k] == additional[k]
    ensures "status" !in additional ==> fields["status"] == status
    ensures "updated_at" !in additional ==> fields["updated_at"] == now
  {
    map["status" := status, "updated_at" := now] + additional
  }

  /**
   `update_job_status`: merge the status fields into the job. Without a
   database, for an id that cannot name a document, or for a job that does
   not exist, nothing changes (the failure is logged and swallowed).
   */
  function UpdateJobStatus(jobs: Option<Collection>, snapshotId: Json, status: Json, additional: Doc, now: Json): (r: Option<Collection>)
    ensures r.Some? <==> jobs.Some?
    ensures GetJobFromDb(jobs, snapshotId).None? ==> r == jobs
    ensures GetJobFromDb(jobs, snapshotId).Some? ==>
      r.value == jobs.value[snapshotId.s := Merge(jobs.value[snapshotId.s], StatusFields(status, additional, now))]
  {
    if GetJobFromDb(jobs, snapshotId).None? then jobs
    else Some(Update(jobs.value, snapshotId.s, StatusFields(status, additional, now)).value)
  }

  /**
   After a status update the job reads back with the new status, and every
   field the update does not name (the owner's `user_id`, say) is unchanged.
   */
  lemma StatusUpdateReadsBack(jobs: Option<Collection>, snapshotId: Json, status: Json, additional: Doc, now: Json)
    requires GetJobFromDb(jobs, snapshotId).Some? && "status" !in additional
    ensures var after := GetJobFromDb(UpdateJobStatus(jobs, snapshotId, status, additional, now), snapshotId);
      after.Some? && after.value["status"] == status
      && forall k :: k in jobs.value[snapshotId.s] && k !in additional && k != "status" && k != "updated_at" ==>
        k in after.value && after.value[k] == jobs.value[snapshotId.s][k]
  {
  }

  // ---------------------------------------------------------------------------
  // Processing delivered transcripts.

  datatype TranscriptResult = TranscriptResult(videoId: string, title: Json, transcriptLength: nat)

  /** The transcript collection after one item, and the item's result (`None` for a failed item). */
  datatype Processed = Processed(transcripts: Collection, result: Option<TranscriptResult>)

  function ItemTranscript(d: Doc): Json { GetOr(d, "transcript", JStr("")) }
  function ItemUrl(d: Doc): Json { GetOr(d, "url", JStr("")) }
  function ItemTitle(d: Doc): Json { GetOr(d, "title", JStr("Unknown Title")) }

  /**
   The document id an item is stored under: a dictionary with a truthy
   transcript and a truthy string URL from which an id can be extracted.
   */
  function ItemVideoId(item: Json): (r: Option<string>)
    ensures r.Some? ==> VideoUrls.IsVideoId(r.value)
    ensures r.Some? ==> (item.JObj? && Truthy(ItemTranscript(item.fields))
      && ItemUrl(item.fields).JStr? && VideoUrls.ExtractVideoId(ItemUrl(item.fields).s) == r)
  {
    if !item.JObj? then None
    else
      var url := ItemUrl(item.fields);
      if !Truthy(ItemTranscript(item.fields)) || !Truthy(url) || !url.JStr? then None
      else VideoUrls.ExtractVideoId(url.s)
  }

  function TranscriptDoc(videoId: string, d: Doc, snapshotId: Json, now: Json): Doc {
    map[
      "video_id" := JStr(videoId), "video_url" := ItemUrl(d), "title" := ItemTitle(d),
      "transcript" := ItemTranscript(d), "duration" := GetOr(d, "duration", JStr("")),
      "snapshot_id" := snapshotId, "processed_at" := now, "source" := JStr("bright_data")]
  }

  /**
   `_process_single_transcript`. The transcript document is written before
   its length is taken for the result, so a transcript with no length is
   stored and still counts as failed. Every exception ends as `None`.
   */
  function ProcessSingleTranscript(transcripts: Collection, item: Json, snapshotId: Json, now: Json): (r: Processed)
    ensures ItemVideoId(item).None? ==> r == Processed(transcripts, None)
    ensures ItemVideoId(item).Some? ==>
      r.transcripts == Set(transcripts, ItemVideoId(item).value, TranscriptDoc(ItemVideoId(item).value, item.fields, snapshotId, now))
    ensures r.result.Some? <==> ItemVideoId(item).Some? && Len(ItemTranscript(item.fields)).Ok?
    ensures r.result.Some? ==> (r.result.value.videoId == ItemVideoId(item).value
      && r.result.value.title == ItemTitle(item.fields)
      && r.result.value.transcriptLength == Len(ItemTranscript(item.fields)).value)
  {
    match ItemVideoId(item)
    case None => Processed(transcripts, None)
    case Some(videoId) =>
      var stored := Set(transcripts, videoId, TranscriptDoc(videoId, item.fields, snapshotId, now));
      match Len(ItemTranscript(item.fields))
      case Raise(_) => Processed(stored, None)
      case Ok(n) => Processed(stored, Some(TranscriptResult(videoId, ItemTitle(item.fields), n)))
  }

  /** A string transcript reports its own length. */
  lemma StringTranscriptLength(transcripts: Collection, item: Json, snapshotId: Json, now: Json)
    requires ItemVideoId(item).Some? && ItemTranscript(item.fields).JStr?
    ensures var r := ProcessSingleTranscript(transcripts, item, snapshotId, now);
      r.result.Some? && r.result.value.transcriptLength == |ItemTranscript(item.fields).s|
      && r.transcripts[r.result.value.videoId]["transcript"] == ItemTranscript(item.fields)
  {
  }

  /**
   The items `for item in data` visits. A dictionary yields its keys: every
   key is a string, and no consumer can use a string item (each fails on
   `.get` before looking at it), so each key is represented by the empty
   string.
   */
  function Items(data: Json): (r: Res<seq<Json>>)
    ensures r.Ok? <==> data.JArr? || data.JStr? || data.JObj?
    ensures r.Ok? ==> Len(data) == Ok(|r.value|)
    ensures data.JArr? ==> r == Ok(data.items)
  {
    match data
    case JArr(items) => Ok(items)
    case JStr(s) => Ok(seq(|s|, i requires 0 <= i < |s| => JStr([s[i]])))
    case JObj(fields) => Ok(seq(|fields|, _ => JStr("")))
    case _ => Raise("TypeError: object is not iterable")
  }

  datatype ProcessingSummary = ProcessingSummary(processed: nat, failed: nat, total: nat, results: seq<TranscriptResult>)

  /** The processing of the first items, in order: the collection afterwards and the tally. */
  function ProcessAll(transcripts: Collection, items: seq<Json>, snapshotId: Json, now: Json): (r: (Collection, ProcessingSummary))
    ensures r.1.processed + r.1.failed == r.1.total == |items|
    ensures |r.1.results| == r.1.processed
    ensures forall i :: 0 <= i < |r.1.results| ==> VideoUrls.IsVideoId(r.1.results[i].videoId)
    decreases |items|
  {
    if items == [] then (transcripts, ProcessingSummary(0, 0, 0, []))
    else
      var (before, tally) := ProcessAll(transcripts, items[..|items| - 1], snapshotId, now);
      var step := ProcessSingleTranscript(before, items[|items| - 1], snapshotId, now);
      match step.result
      case Some(res) => (step.transcripts, tally.(processed := tally.processed + 1, total := tally.total + 1, results := tally.results + [res]))
      case None => (step.transcripts, tally.(failed := tally.failed + 1, total := tally.total + 1))
  }

  /**
   `process_webhook_data`: every item is processed; the tally counts each
   item once, as processed or failed. Data that cannot be iterated raises.
   */
  function ProcessWebhookData(transcripts: Collection, data: Json, snapshotId: Json, now: Json): (r: (Collection, Res<ProcessingSummary>))
    ensures r.1.Ok? <==> Items(data).Ok?
    ensures r.1.Raise? ==> r.0 == transcripts
    ensures r.1.Ok? ==> (r.1.value.processed + r.1.value.failed == r.1.value.total
      && Len(data) == Ok(r.1.value.total)
      && |r.1.value.results| == r.1.value.processed)
  {
    match Items(data)
    case Raise(e) => (transcripts, Raise(e))
    case Ok(items) =>
      var (stored, tally) := ProcessAll(transcripts, items, snapshotId, now);
      (stored, Ok(tally))
  }

  /** Processing one more item extends the tally by exactly that item's outcome. */
  lemma ProcessAllStep(transcripts: Collection, items: seq<Json>, item: Json, snapshotId: Json, now: Json)
    ensures var (before, tally) := ProcessAll(transcripts, items, snapshotId, now);
      var step := ProcessSingleTranscript(before, item, snapshotId, now);
      var (after, next) := ProcessAll(transcripts, items + [item], snapshotId, now);
      after == step.transcripts
      && next.results == tally.results + (if step.result.Some? then [step.result.value] else [])
  {
    assert (items + [item])[..|items + [item]| - 1] == items;
  }

  /** An item that is not a dictionary counts as failed and writes nothing. */
  lemma NonDictionaryItemFails(transcripts: Collection, item: Json, snapshotId: Json, now: Json)
    requires !item.JObj?
    ensures ProcessSingleTranscript(transcripts, item, snapshotId, now) == Processed(transcripts, None)
  {
  }

  /** The tally as the job record stores it. */
  function SummaryJson(s: ProcessingSummary): Json {
    JObj(map[
      "processed_count" := JInt(s.processed), "failed_count" := JInt(s.failed),
      "total_count" := JInt(s.total), "results" := JArr(ResultsJson(s.results))])
  }

  function ResultsJson(rs: seq<TranscriptResult>): (js: seq<Json>)
    ensures |js| == |rs|
  {
    if rs == [] then []
    else [JObj(map["video_id" := JStr(rs[0].videoId), "title" := rs[0].title,
                   "transcript_length" := JInt(rs[0].transcriptLength)])] + ResultsJson(rs[1..])
  }
}
