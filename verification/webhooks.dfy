/**
 The Bright Data callbacks (blueprints/webhook_routes.py): the delivery
 webhook that stores transcripts, summarises them for the job's owner and
 completes the job, and the status notification. Both handlers turn every
 escaping exception into a 500 reply.
 */
module Webhooks {
  import opened Values
  import opened Store
  import opened Http
  import Duration
  import VideoUrls
  import Summaries
  import Usage
  import Scraper

  const InternalError := "Internal processing error"

  /** `json.dumps({"timestamp": "now"})`: the fixed text both handlers store as their timestamp. */
  const StampText := "{\"timestamp\": \"now\"}"

  /** A predicate on stores: only documents of user `uid` may differ, the other collections are equal. */
  predicate TouchesOnly(before: Db, after: Db, uid: string) {
    after.transcripts == before.transcripts && after.scrapingJobs == before.scrapingJobs
    && OwnerOnly(before, after, uid)
  }

  /** No user other than `uid` has a changed document or video record, and no video job changed. */
  predicate OwnerOnly(before: Db, after: Db, uid: string) {
    after.videoJobs == before.videoJobs
    && (forall u :: u in before.users && u != uid ==> u in after.users && after.users[u] == before.users[u])
    && (forall u :: u in before.videos && u != uid ==> u in after.videos && after.videos[u] == before.videos[u])
  }

  // ---------------------------------------------------------------------------
  // Summarising one delivered transcript.

  /** What `_generate_summary_for_transcript` returns for a summarised item. */
  datatype SummaryResult = SummaryResult(videoId: string, title: Json, summary: string, minutes: nat, snapshotId: Json)

  function ResultJson(s: SummaryResult): Json {
    JObj(map[
      "video_id" := JStr(s.videoId), "title" := s.title, "summary" := JStr(s.summary),
      "duration_minutes" := JInt(s.minutes), "snapshot_id" := s.snapshotId])
  }

  /**
   The minutes charged for an item's `duration`: one minute unless it is a
   non-empty string, whose ISO 8601 duration is rounded to minutes. A
   duration of another type fails to parse inside a catch-all and keeps
   the one minute.
   */
  function ItemMinutes(duration: Json): (m: nat)
    ensures m >= 1
    ensures duration.JStr? && duration.s != "" ==> m == Duration.ChargedMinutes(Duration.ParseDuration(duration.s))
    ensures !duration.JStr? ==> m == 1
  {
    if duration.JStr? && duration.s != "" then Duration.ChargedMinutes(Duration.ParseDuration(duration.s)) else 1
  }

  /** The owner's plan: the stored one for a known user, "free" for an unknown one. */
  function OwnerPlan(users: Collection, uid: string): (r: Res<Json>)
    ensures uid !in users ==> r == Ok(JStr("free"))
    ensures uid in users ==> r == Usage.StoredPlan(users[uid])
  {
    if uid in users then Usage.StoredPlan(users[uid]) else Ok(JStr("free"))
  }

  /**
   `_generate_summary_for_transcript`: summarise a dictionary item with a
   transcript and a URL carrying a video id, and charge its minutes to the
   owner. Any failure gives `None`; a failure inside the usage update may
   leave the owner seeded.
   */
  function SummarizeItem(db: Db, item: Json, userId: Json, snapshotId: Json,
                         llm: Summaries.SummaryRequest -> Res<string>, now: Json, nextBilling: Json)
    : (r: (Db, Option<SummaryResult>))
    ensures !item.JObj? || !Truthy(Scraper.ItemTranscript(item.fields)) ==> r == (db, None)
    ensures !userId.JStr? ==> r == (db, None)
    ensures userId.JStr? ==> TouchesOnly(db, r.0, userId.s)
    ensures r.1.Some? ==> (item.JObj? && userId.JStr?
      && Scraper.ItemUrl(item.fields).JStr?
      && VideoUrls.ExtractVideoId(Scraper.ItemUrl(item.fields).s) == Some(r.1.value.videoId)
      && r.1.value.title == Scraper.ItemTitle(item.fields)
      && r.1.value.minutes == ItemMinutes(GetOr(item.fields, "duration", JStr("")))
      && r.1.value.snapshotId == snapshotId)
    ensures r.1.Some? ==> (OwnerPlan(db.users, userId.s).Ok?
      && Summaries.GenerateSummary(Scraper.ItemTranscript(item.fields), OwnerPlan(db.users, userId.s).value,
           Scraper.ItemTitle(item.fields), GetOr(item.fields, "channel", JStr("Unknown Channel")), llm) == Ok(r.1.value.summary))
    ensures r.1.Some? ==> (userId.s in r.0.videos && r.1.value.videoId in r.0.videos[userId.s]
      && r.0.videos[userId.s][r.1.value.videoId]
         == Usage.VideoRecord(r.1.value.videoId, r.1.value.title, r.1.value.summary, JInt(r.1.value.minutes), now))
    ensures r.1.Some? ==> Charges(db, r.0, userId.s, r.1.value, now, nextBilling)
    ensures (Summarisable(item, userId) && OwnerPlan(db.users, userId.s).Ok? ==>
      var d := item.fields;
      var summary := Summaries.GenerateSummary(Scraper.ItemTranscript(d), OwnerPlan(db.users, userId.s).value,
        Scraper.ItemTitle(d), GetOr(d, "channel", JStr("Unknown Channel")), llm);
      var expected := SummaryResult(VideoUrls.ExtractVideoId(Scraper.ItemUrl(d).s).value, Scraper.ItemTitle(d),
        if summary.Ok? then summary.value else "", ItemMinutes(GetOr(d, "duration", JStr(""))), snapshotId);
      (summary.Ok? && Usage.UpdateUserUsage(db, userId.s, JInt(expected.minutes), expected.videoId, expected.title,
        expected.summary, now, nextBilling).result.Ok?) ==> r.1 == Some(expected))
  {
    if !item.JObj? then (db, None)
    else
      var d := item.fields;
      var transcript := Scraper.ItemTranscript(d);
      var title := Scraper.ItemTitle(d);
      var url := Scraper.ItemUrl(d);
      if !Truthy(transcript) || !url.JStr? || !userId.JStr? then (db, None)
      else match VideoUrls.ExtractVideoId(url.s)
        case None => (db, None)
        case Some(videoId) =>
          var minutes := ItemMinutes(GetOr(d, "duration", JStr("")));
          var channel := GetOr(d, "channel", JStr("Unknown Channel"));
          match OwnerPlan(db.users, userId.s)
          case Raise(_) => (db, None)
          case Ok(plan) =>
            match Summaries.GenerateSummary(transcript, plan, title, channel, llm)
            case Raise(_) => (db, None)
            case Ok(summary) =>
              var eff := Usage.UpdateUserUsage(db, userId.s, JInt(minutes), videoId, title, summary, now, nextBilling);
              if eff.result.Raise? then (eff.db, None)
              else (eff.db, Some(SummaryResult(videoId, title, summary, minutes, snapshotId)))
  }

  /** The item passes the checks before the plan read: a dictionary with a transcript and a URL carrying a video id, and a string owner. */
  predicate Summarisable(item: Json, userId: Json) {
    item.JObj? && Truthy(Scraper.ItemTranscript(item.fields)) && userId.JStr?
    && Scraper.ItemUrl(item.fields).JStr? && VideoUrls.ExtractVideoId(Scraper.ItemUrl(item.fields).s).Some?
  }

  /** `after` is the store `update_user_usage` leaves when it charges `result` to `uid` without raising. */
  predicate Charges(before: Db, after: Db, uid: string, result: SummaryResult, now: Json, nextBilling: Json) {
    var eff := Usage.UpdateUserUsage(before, uid, JInt(result.minutes), result.videoId, result.title, result.summary, now, nextBilling);
    eff.result.Ok? && after == eff.db
  }

  /**
   A per-item step that touches only the documents of `owner` and returns
   results tagged with the job's snapshot id and at least one minute.
   */
  ghost predicate WellBehaved(step: (Db, Json) -> (Db, Option<SummaryResult>), owner: string, snapshotId: Json) {
    forall d, item :: (TouchesOnly(d, step(d, item).0, owner)
      && (step(d, item).1.Some? ==> step(d, item).1.value.snapshotId == snapshotId && step(d, item).1.value.minutes >= 1))
  }

  lemma TouchesOnlyTransitive(a: Db, b: Db, c: Db, owner: string)
    requires TouchesOnly(a, b, owner) && TouchesOnly(b, c, owner)
    ensures TouchesOnly(a, c, owner)
  {
  }

  /** Whose documents summarising may touch: the job's owner, or nobody's when the owner is not a string. */
  function Owner(userId: Json): string {
    if userId.JStr? then userId.s else ""
  }

  /** `_generate_summary_for_transcript` for one job, as a step of the summary loop. */
  function ItemStep(userId: Json, snapshotId: Json, llm: Summaries.SummaryRequest -> Res<string>, now: Json, nextBilling: Json)
    : (step: (Db, Json) -> (Db, Option<SummaryResult>))
    ensures WellBehaved(step, Owner(userId), snapshotId)
  {
    (d, item) => SummarizeItem(d, item, userId, snapshotId, llm, now, nextBilling)
  }

  /** The summary loop over the delivered items, in order; failed items are skipped. */
  function SummarizeAll(db: Db, items: seq<Json>, step: (Db, Json) -> (Db, Option<SummaryResult>),
                        owner: string, snapshotId: Json): (r: (Db, seq<SummaryResult>))
    requires WellBehaved(step, owner, snapshotId)
    ensures |r.1| <= |items|
    ensures TouchesOnly(db, r.0, owner)
    ensures forall i :: 0 <= i < |r.1| ==> r.1[i].snapshotId == snapshotId && r.1[i].minutes >= 1
    decreases |items|
  {
    if items == [] then (db, [])
    else
      var prefix := SummarizeAll(db, items[..|items| - 1], step, owner, snapshotId);
      var last := step(prefix.0, items[|items| - 1]);
      TouchesOnlyTransitive(db, prefix.0, last.0, owner);
      (last.0, if last.1.Some? then prefix.1 + [last.1.value] else prefix.1)
  }

  /**
   One more item extends the summary loop by exactly that item's step: the
   result list grows by one when the step produced a summary, and stays as
   it was otherwise.
   */
  lemma SummarizeAllStep(db: Db, items: seq<Json>, item: Json, step: (Db, Json) -> (Db, Option<SummaryResult>),
                         owner: string, snapshotId: Json)
    requires WellBehaved(step, owner, snapshotId)
    ensures var before := SummarizeAll(db, items, step, owner, snapshotId);
      var last := step(before.0, item);
      var after := SummarizeAll(db, items + [item], step, owner, snapshotId);
      after.0 == last.0
      && (|after.1| == |before.1| + 1 <==> last.1.Some?)
      && after.1 == before.1 + (if last.1.Some? then [last.1.value] else [])
  {
    assert (items + [item])[..|items + [item]| - 1] == items;
  }

  // ---------------------------------------------------------------------------
  // The delivery webhook.

  /**
   The snapshot id: a non-empty `X-Snapshot-Id` header wins; otherwise the
   first record's `snapshot_id`. Reading the first record raises for data
   without a first entry, and its `.get` raises for a record that is not a
   dictionary.
   */
  function SnapshotId(header: Option<string>, data: Json): (r: Res<Json>)
    ensures header.Some? && header.value != "" ==> r == Ok(JStr(header.value))
    ensures (header.None? || header.value == "") && data.JArr? && |data.items| > 0 ==> r == Field(data.items[0], "snapshot_id", JNull)
    ensures (header.None? || header.value == "") && !data.JArr? && !data.JStr? ==> r.Raise?
  {
    if header.Some? && header.value != "" then Ok(JStr(header.value))
    else
      var first :- First(data);
      Field(first, "snapshot_id", JNull)
  }

  /** How the guards of the webhook end: a rejection, or the data with its job's snapshot id and owner. */
  datatype Gate = Reject(reply: Reply) | Admit(data: Json, snapshotId: Json, userId: Json)

  /**
   The guards, in the handler's order: a body that does not decode (500),
   then the checks on the decoded data.
   */
  function WebhookGate(jobs: Collection, header: Option<string>, payload: Res<Json>): (g: Gate)
    ensures payload.Raise? ==> g == Reject(Error(500, InternalError))
    ensures payload.Ok? ==> g == DataGate(jobs, header, payload.value)
  {
    match payload
    case Raise(_) => Reject(Error(500, InternalError))
    case Ok(data) => DataGate(jobs, header, data)
  }

  /**
   The checks on decoded data, in order: empty data (400), no snapshot id
   (400, or 500 when reading it raised), data without a length (500), no
   job or an empty job (404), a job without an owner (400).
   */
  function DataGate(jobs: Collection, header: Option<string>, data: Json): (g: Gate)
    ensures !Truthy(data) ==> g == Reject(Error(400, "No data received"))
    ensures Truthy(data) && SnapshotId(header, data).Raise? ==> g == Reject(Error(500, InternalError))
    ensures (Truthy(data) && SnapshotId(header, data).Ok? && !Truthy(SnapshotId(header, data).value)
      ==> g == Reject(Error(400, "Missing snapshot_id")))
    ensures (Truthy(data) && SnapshotId(header, data).Ok? && Truthy(SnapshotId(header, data).value)
      && Scraper.GetJobFromDb(Some(jobs), SnapshotId(header, data).value).None?
      ==> g.Reject? && g.reply.JsonReply? && g.reply.code in {404, 500})
    ensures g.Reject? ==> g.reply.JsonReply? && g.reply.code in {400, 404, 500}
    ensures g.Admit? ==> (g.data == data && Truthy(data) && Len(data).Ok?
      && SnapshotId(header, data) == Ok(g.snapshotId)
      && g.snapshotId.JStr? && g.snapshotId.s in jobs && jobs[g.snapshotId.s] != map[]
      && g.userId == GetOr(jobs[g.snapshotId.s], "user_id", JNull) && Truthy(g.userId))
  {
    if !Truthy(data) then Reject(Error(400, "No data received"))
    else match SnapshotId(header, data)
      case Raise(_) => Reject(Error(500, InternalError))
      case Ok(snapshotId) =>
        if !Truthy(snapshotId) then Reject(Error(400, "Missing snapshot_id"))
        else if Len(data).Raise? then Reject(Error(500, InternalError))
        else match Scraper.GetJobFromDb(Some(jobs), snapshotId)
          case None => Reject(Error(404, "Job not found"))
          case Some(job) =>
            if job == map[] then Reject(Error(404, "Job not found"))
            else
              var userId := GetOr(job, "user_id", JNull);
              if !Truthy(userId) then Reject(Error(400, "Invalid job data"))
              else Admit(data, snapshotId, userId)
  }

  /**
   Job `id` went from `before` to `after` by completing: it reads as
   "completed", the other jobs are as they were, and so is every field of it
   that completing does not write (its owner, its URLs).
   */
  predicate Completed(before: Collection, after: Collection, id: string) {
    id in before && after.Keys == before.Keys
    && "status" in after[id] && after[id]["status"] == JStr("completed")
    && (forall k :: k in before[id] && k !in CompletionKeys ==> k in after[id] && after[id][k] == before[id][k])
    && (forall other :: other in before && other != id ==> after[other] == before[other])
  }

  /** The fields completing a job writes. */
  const CompletionKeys: set<string> := {"status", "updated_at", "processing_result", "summary_results", "completed_at"}

  /** The fields the webhook adds to the completed job. */
  function CompletionFields(tally: Scraper.ProcessingSummary, results: seq<SummaryResult>): (fields: Doc)
    ensures fields.Keys == CompletionKeys - {"status", "updated_at"}
  {
    map[
      "processing_result" := Scraper.SummaryJson(tally),
      "summary_results" := JArr(seq(|results|, i requires 0 <= i < |results| => ResultJson(results[i]))),
      "completed_at" := JStr(StampText)]
  }

  /**
   `handle_bright_data_webhook`. A rejected delivery changes nothing. An
   admitted one stores the transcripts, summarises each item for the job's
   owner, marks the job "completed" and reports how many records were
   processed and how many summaries were made.
   */
  function HandleWebhook(db: Db, header: Option<string>, payload: Res<Json>,
                         llm: Summaries.SummaryRequest -> Res<string>, now: Json, nextBilling: Json): (r: Handled)
    ensures WebhookGate(db.scrapingJobs, header, payload).Reject? ==> r == Handled(db, WebhookGate(db.scrapingJobs, header, payload).reply)
    ensures r.reply.JsonReply? && (r.reply.code == 200 <==> WebhookGate(db.scrapingJobs, header, payload).Admit?)
    ensures r.reply.code == 200 ==> (payload.Ok? && Len(payload.value).Ok? && ReportsCounts(r.reply, Len(payload.value).value))
    ensures (WebhookGate(db.scrapingJobs, header, payload).Admit? ==>
      var g := WebhookGate(db.scrapingJobs, header, payload);
      Completed(db.scrapingJobs, r.db.scrapingJobs, g.snapshotId.s) && OwnerOnly(db, r.db, Owner(g.userId)))
    ensures (WebhookGate(db.scrapingJobs, header, payload).Admit? ==>
      var g := WebhookGate(db.scrapingJobs, header, payload);
      var processed := Scraper.ProcessWebhookData(db.transcripts, g.data, g.snapshotId, now);
      var step := ItemStep(g.userId, g.snapshotId, llm, now, nextBilling);
      processed.1.Ok? && r.reply.body["processed_count"] == JInt(processed.1.value.processed)
      && r.reply.body["summaries_generated"]
         == JInt(|SummarizeAll(db.(transcripts := processed.0), Scraper.Items(g.data).value, step, Owner(g.userId), g.snapshotId).1|))
    ensures (WebhookGate(db.scrapingJobs, header, payload).Admit? ==>
      var g := WebhookGate(db.scrapingJobs, header, payload);
      var processed := Scraper.ProcessWebhookData(db.transcripts, g.data, g.snapshotId, now);
      var step := ItemStep(g.userId, g.snapshotId, llm, now, nextBilling);
      var summarized := SummarizeAll(db.(transcripts := processed.0), Scraper.Items(g.data).value, step, Owner(g.userId), g.snapshotId);
      r.db.transcripts == processed.0 && r.db.users == summarized.0.users && r.db.videos == summarized.0.videos)
  {
    match WebhookGate(db.scrapingJobs, header, payload)
    case Reject(reply) => Handled(db, reply)
    case Admit(data, snapshotId, userId) =>
      Deliver(db, data, snapshotId, ItemStep(userId, snapshotId, llm, now, nextBilling), Owner(userId), now)
  }

  /** The work after the guards, with `step` summarising one item for the job's owner. */
  function Deliver(db: Db, data: Json, snapshotId: Json, step: (Db, Json) -> (Db, Option<SummaryResult>),
                   owner: string, now: Json): (r: Handled)
    requires Len(data).Ok? && WellBehaved(step, owner, snapshotId)
    requires snapshotId.JStr? && snapshotId.s in db.scrapingJobs
    ensures ReportsCounts(r.reply, Len(data).value)
    ensures (var processed := Scraper.ProcessWebhookData(db.transcripts, data, snapshotId, now);
      processed.1.Ok? && r.reply.body["processed_count"] == JInt(processed.1.value.processed)
      && processed.1.value.processed + processed.1.value.failed == Len(data).value
      && r.reply.body["summaries_generated"]
         == JInt(|SummarizeAll(db.(transcripts := processed.0), Scraper.Items(data).value, step, owner, snapshotId).1|))
    ensures Completed(db.scrapingJobs, r.db.scrapingJobs, snapshotId.s)
    ensures OwnerOnly(db, r.db, owner)
    ensures (var processed := Scraper.ProcessWebhookData(db.transcripts, data, snapshotId, now);
      var summarized := SummarizeAll(db.(transcripts := processed.0), Scraper.Items(data).value, step, owner, snapshotId);
      r.db.transcripts == processed.0 && r.db.users == summarized.0.users && r.db.videos == summarized.0.videos)
  {
    var processed := Scraper.ProcessWebhookData(db.transcripts, data, snapshotId, now);
    var summarized := SummarizeAll(db.(transcripts := processed.0), Scraper.Items(data).value, step, owner, snapshotId);
    Finish(summarized.0, snapshotId.s, processed.1.value, summarized.1, Len(data).value, now)
  }

  /**
   The success reply: status "success" with the number of processed records
   and of generated summaries, neither more than the `total` delivered.
   */
  predicate ReportsCounts(reply: Reply, total: nat) {
    reply.JsonReply? && reply.code == 200
    && reply.body.Keys == {"status", "processed_count", "summaries_generated"}
    && reply.body["status"] == JStr("success")
    && reply.body["processed_count"].JInt? && 0 <= reply.body["processed_count"].i <= total
    && reply.body["summaries_generated"].JInt? && 0 <= reply.body["summaries_generated"].i <= total
  }

  /** Complete the job and report the counts, out of `total` delivered records. */
  function Finish(db: Db, snapshotId: string, tally: Scraper.ProcessingSummary, results: seq<SummaryResult>,
                  total: nat, now: Json): (r: Handled)
    requires snapshotId in db.scrapingJobs && tally.processed <= total && |results| <= total
    ensures ReportsCounts(r.reply, total)
    ensures r.reply.body["processed_count"] == JInt(tally.processed) && r.reply.body["summaries_generated"] == JInt(|results|)
    ensures r.db.transcripts == db.transcripts && r.db.users == db.users && r.db.videos == db.videos && r.db.videoJobs == db.videoJobs
    ensures Completed(db.scrapingJobs, r.db.scrapingJobs, snapshotId)
  {
    var jobs := CompleteJob(db.scrapingJobs, snapshotId, CompletionFields(tally, results), now);
    Handled(db.(scrapingJobs := jobs), CountsReply(tally.processed, |results|))
  }

  /** The body of the success reply. */
  function CountsReply(processed: nat, summaries: nat): (r: Reply)
    ensures r.JsonReply? && r.code == 200
    ensures r.body.Keys == {"status", "processed_count", "summaries_generated"}
    ensures r.body["status"] == JStr("success")
    ensures r.body["processed_count"] == JInt(processed) && r.body["summaries_generated"] == JInt(summaries)
  {
    JsonReply(200, map["status" := JStr("success"), "processed_count" := JInt(processed),
                       "summaries_generated" := JInt(summaries)])
  }

  /**
   `update_job_status(snapshot_id, "completed", fields)` on a stored job:
   the job reads back as completed, and fields the update does not name
   (its owner, its URLs) keep their values.
   */
  function CompleteJob(jobs: Collection, snapshotId: string, fields: Doc, now: Json): (r: Collection)
    requires snapshotId in jobs && fields.Keys <= CompletionKeys - {"status", "updated_at"}
    ensures Completed(jobs, r, snapshotId)
    ensures forall k :: k in fields ==> k in r[snapshotId] && r[snapshotId][k] == fields[k]
  {
    Scraper.UpdateJobStatus(Some(jobs), JStr(snapshotId), JStr("completed"), fields, now).value
  }

  // ---------------------------------------------------------------------------
  // The status notification.

  /**
   `handle_bright_data_notification`: record the provider's status and the
   whole notification on the job. Empty data or a falsy snapshot id is a
   400; data that is not a dictionary raises on `.get` (500). An unknown job
   is left alone and the notification is still acknowledged.
   */
  function HandleNotification(jobs: Collection, payload: Res<Json>, now: Json): (r: (Collection, Reply))
    ensures r.1.JsonReply?
    ensures r.1.code != 200 ==> r.0 == jobs
    ensures payload.Ok? && !Truthy(payload.value) ==> r.1 == Error(400, "No data received")
    ensures ((payload.Ok? && payload.value.JObj? && Truthy(payload.value)
              && !Truthy(GetOr(payload.value.fields, "snapshot_id", JNull)))
             ==> r.1 == Error(400, "Missing snapshot_id"))
    ensures (payload.Raise? || (Truthy(payload.value) && !payload.value.JObj?)) ==> r.1 == Error(500, InternalError)
    ensures (r.1.code == 200 <==> (payload.Ok? && payload.value.JObj? && Truthy(payload.value)
      && Truthy(GetOr(payload.value.fields, "snapshot_id", JNull))))
    ensures r.1.code == 200 ==> r.1.body == map["status" := JStr("received")]
    ensures r.0.Keys == jobs.Keys
  {
    match payload
    case Raise(_) => (jobs, Error(500, InternalError))
    case Ok(data) =>
      if !Truthy(data) then (jobs, Error(400, "No data received"))
      else if !data.JObj? then (jobs, Error(500, InternalError))
      else
        var snapshotId := GetOr(data.fields, "snapshot_id", JNull);
        var status := GetOr(data.fields, "status", JNull);
        if !Truthy(snapshotId) then (jobs, Error(400, "Missing snapshot_id"))
        else
          var extra := map["notification_received_at" := JStr(StampText), "notification_data" := data];
          (Scraper.UpdateJobStatus(Some(jobs), snapshotId, status, extra, now).value, JsonReply(200, map["status" := JStr("received")]))
  }

  // ---------------------------------------------------------------------------
  // Properties of the handlers.

  /** Empty or falsy data is refused with 400 and writes nothing. */
  lemma EmptyDeliveryRejected(db: Db, header: Option<string>, data: Json,
                              llm: Summaries.SummaryRequest -> Res<string>, now: Json, nextBilling: Json)
    requires !Truthy(data)
    ensures HandleWebhook(db, header, Ok(data), llm, now, nextBilling) == Handled(db, Error(400, "No data received"))
  {
  }

  /**
   A non-empty `X-Snapshot-Id` header decides the job, whatever the records
   say: the records' own snapshot ids are never read.
   */
  lemma HeaderTakesPrecedence(jobs: Collection, id: string, data: Json)
    requires id != "" && Truthy(data) && Len(data).Ok?
    requires id in jobs && jobs[id] != map[] && Truthy(GetOr(jobs[id], "user_id", JNull))
    ensures DataGate(jobs, Some(id), data) == Admit(data, JStr(id), GetOr(jobs[id], "user_id", JNull))
  {
  }

  /** Without the header, a first record with no snapshot id is refused with 400. */
  lemma MissingSnapshotRejected(jobs: Collection, first: Doc, rest: seq<Json>)
    requires !Truthy(GetOr(first, "snapshot_id", JNull))
    ensures DataGate(jobs, None, JArr([JObj(first)] + rest)) == Reject(Error(400, "Missing snapshot_id"))
  {
  }

  /**
   An unknown job is a 404 and a job without an owner a 400, both decided
   before any transcript is stored or any usage is charged.
   */
  lemma UnknownOrOwnerlessJobRejected(db: Db, id: string, data: Json,
                                      llm: Summaries.SummaryRequest -> Res<string>, now: Json, nextBilling: Json)
    requires id != "" && Truthy(data) && Len(data).Ok?
    ensures id !in db.scrapingJobs ==>
      HandleWebhook(db, Some(id), Ok(data), llm, now, nextBilling) == Handled(db, Error(404, "Job not found"))
    ensures (id in db.scrapingJobs && db.scrapingJobs[id] != map[] && !Truthy(GetOr(db.scrapingJobs[id], "user_id", JNull)) ==>
      HandleWebhook(db, Some(id), Ok(data), llm, now, nextBilling) == Handled(db, Error(400, "Invalid job data")))
  {
  }

  /** An item whose URL carries no video id produces no summary and charges nothing. */
  lemma UnextractableItemChargesNothing(db: Db, item: Json, userId: Json, snapshotId: Json,
                                        llm: Summaries.SummaryRequest -> Res<string>, now: Json, nextBilling: Json)
    requires item.JObj? && Scraper.ItemUrl(item.fields).JStr?
    requires VideoUrls.ExtractVideoId(Scraper.ItemUrl(item.fields).s).None?
    ensures SummarizeItem(db, item, userId, snapshotId, llm, now, nextBilling) == (db, None)
  {
  }

  /**
   An owner without a user document is summarised on the free plan, seeded
   as a new user and charged from zero. Seeding cannot fail, so such an item
   is summarised whenever the summariser answers.
   */
  lemma MissingOwnerSummarisedAsFree(db: Db, item: Json, uid: string, snapshotId: Json,
                                     llm: Summaries.SummaryRequest -> Res<string>, now: Json, nextBilling: Json)
    requires uid !in db.users
    ensures var r := SummarizeItem(db, item, JStr(uid), snapshotId, llm, now, nextBilling);
      r.1.Some? ==> (Summaries.GenerateSummary(Scraper.ItemTranscript(item.fields), JStr("free"),
        Scraper.ItemTitle(item.fields), GetOr(item.fields, "channel", JStr("Unknown Channel")), llm) == Ok(r.1.value.summary)
        && Charges(db, r.0, uid, r.1.value, now, nextBilling)
        && uid in r.0.users && Usage.HasCounters(r.0.users[uid], r.1.value.minutes, 1))
    ensures (Summarisable(item, JStr(uid)) && Summaries.GenerateSummary(Scraper.ItemTranscript(item.fields), JStr("free"),
        Scraper.ItemTitle(item.fields), GetOr(item.fields, "channel", JStr("Unknown Channel")), llm).Ok?
      ==> SummarizeItem(db, item, JStr(uid), snapshotId, llm, now, nextBilling).1.Some?)
  {
    var r := SummarizeItem(db, item, JStr(uid), snapshotId, llm, now, nextBilling);
    if r.1.Some? {
      var v := r.1.value;
      Usage.NewUserStartsAtZero(db, uid, v.minutes, v.videoId, v.title, v.summary, now, nextBilling);
    }
    if Summarisable(item, JStr(uid)) {
      var d := item.fields;
      var summary := Summaries.GenerateSummary(Scraper.ItemTranscript(d), JStr("free"),
        Scraper.ItemTitle(d), GetOr(d, "channel", JStr("Unknown Channel")), llm);
      if summary.Ok? {
        Usage.NewUserStartsAtZero(db, uid, ItemMinutes(GetOr(d, "duration", JStr(""))),
          VideoUrls.ExtractVideoId(Scraper.ItemUrl(d).s).value, Scraper.ItemTitle(d), summary.value, now, nextBilling);
      }
    }
  }

  /** A notification for a stored job records the provider's status and the notification itself. */
  lemma NotificationSetsStatus(jobs: Collection, fields: Doc, now: Json)
    requires "snapshot_id" in fields && fields["snapshot_id"].JStr? && fields["snapshot_id"].s in jobs
    requires fields["snapshot_id"].s != ""
    ensures var r := HandleNotification(jobs, Ok(JObj(fields)), now);
      var id := fields["snapshot_id"].s;
      r.1 == JsonReply(200, map["status" := JStr("received")])
      && "status" in r.0[id] && r.0[id]["status"] == GetOr(fields, "status", JNull)
      && "notification_data" in r.0[id] && r.0[id]["notification_data"] == JObj(fields)
  {
  }
}
