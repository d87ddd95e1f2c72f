/**
 The Bright Data dataset service (services/bright_data.py): the callback
 URL, the trigger request for one video, and the validation of a delivered
 webhook payload. Environment variables are parameters; the HTTP call is an
 oracle.
 */
module BrightData {
  import opened Values
  import opened Text
  import opened VideoUrls

  const DefaultBaseUrl := "https://your-production-url.com"
  const WebhookPath := "/api/webhooks/brightdata"
  const TriggerEndpoint := "https://api.brightdata.com/datasets/v3/trigger"
  const WatchPrefix := "https://www.youtube.com/watch?v="

  predicate HasScheme(url: string) {
    LitAt(url, 0, "http://") || LitAt(url, 0, "https://")
  }

  /** `API_BASE_URL` (with its default), given an `https://` scheme when it has neither scheme. */
  function WebhookBase(apiBaseUrl: Option<string>): (base: string)
    ensures HasScheme(base)
    ensures HasScheme(apiBaseUrl.GetOr(DefaultBaseUrl)) ==> base == apiBaseUrl.GetOr(DefaultBaseUrl)
    ensures !HasScheme(apiBaseUrl.GetOr(DefaultBaseUrl)) ==> base == "https://" + apiBaseUrl.GetOr(DefaultBaseUrl)
  {
    var raw := apiBaseUrl.GetOr(DefaultBaseUrl);
    if HasScheme(raw) then raw
    else
      LitConcat("https://" + raw, 0, "https://", raw);
      "https://" + raw
  }

  /** `get_webhook_url`. */
  function GetWebhookUrl(apiBaseUrl: Option<string>): (url: string)
    ensures HasScheme(url)
    ensures |url| >= |WebhookPath| && url[|url| - |WebhookPath|..] == WebhookPath
    ensures url[..|url| - |WebhookPath|] == WebhookBase(apiBaseUrl)
  {
    var base := WebhookBase(apiBaseUrl);
    var url := base + WebhookPath;
    LitConcat(url, 0, base, WebhookPath);
    PrefixSurvives(base, WebhookPath, "http://");
    PrefixSurvives(base, WebhookPath, "https://");
    url
  }

  /** A prefix of `a` is still a prefix of `a + b`. */
  lemma PrefixSurvives(a: string, b: string, p: string)
    ensures LitAt(a, 0, p) ==> LitAt(a + b, 0, p)
  {
    if LitAt(a, 0, p) {
      assert (a + b)[..|p|] == a[..|p|];
    }
  }

  /** Normalising a base that already carries a scheme changes nothing. */
  lemma WebhookBaseIdempotent(apiBaseUrl: Option<string>)
    ensures WebhookBase(Some(WebhookBase(apiBaseUrl))) == WebhookBase(apiBaseUrl)
  {
  }

  // ---------------------------------------------------------------------------
  // Triggering an extraction.

  /** The environment the service reads; `None` stands for an unset variable. */
  datatype ServiceEnv = ServiceEnv(apiKey: Option<string>, datasetId: Option<string>,
                                   apiBaseUrl: Option<string>, webhookSecret: Option<string>)

  /** `all([api_key, dataset_id])`: both set and non-empty. */
  predicate Configured(env: ServiceEnv) {
    env.apiKey.Some? && env.apiKey.value != "" && env.datasetId.Some? && env.datasetId.value != ""
  }

  /** The POST the service sends: endpoint, authorization header, query parameters and JSON body. */
  datatype TriggerRequest = TriggerRequest(endpoint: string, authorization: string,
                                           params: map<string, string>, body: seq<map<string, string>>)

  datatype ExtractionOutcome =
    | NotConfigured
    | Started(snapshotId: Json)
    | Failed(error: string)

  /** What was sent (if anything) and what the service answers. */
  datatype Extraction = Extraction(request: Option<TriggerRequest>, outcome: ExtractionOutcome)

  function WatchUrl(videoId: string): string {
    WatchPrefix + videoId
  }

  function ExtractionRequest(env: ServiceEnv, videoId: string): TriggerRequest
    requires Configured(env)
  {
    TriggerRequest(
      TriggerEndpoint,
      "Bearer " + env.apiKey.value,
      map[
        "dataset_id" := env.datasetId.value,
        "endpoint" := GetWebhookUrl(env.apiBaseUrl),
        "format" := "json",
        "uncompressed_webhook" := "true",
        "auth_header" := "Bearer " + env.webhookSecret.GetOr("")],
      [map["url" := WatchUrl(videoId)]])
  }

  /**
   `trigger_transcript_extraction`. `post` is the HTTP exchange up to the
   decoded response body; any exception it raises, or a body that is not a
   dictionary, turns into `Failed`.
   */
  function TriggerTranscriptExtraction(env: ServiceEnv, videoId: string, post: TriggerRequest -> Res<Json>): (r: Extraction)
    ensures r.outcome.NotConfigured? <==> !Configured(env)
    ensures r.request.None? <==> !Configured(env)
    ensures r.request.Some? ==> r.request.value.body == [map["url" := WatchPrefix + videoId]]
    ensures r.request.Some? ==> (r.request.value.params.Keys == {"dataset_id", "endpoint", "format", "uncompressed_webhook", "auth_header"}
      && r.request.value.params["dataset_id"] == env.datasetId.value
      && r.request.value.params["endpoint"] == GetWebhookUrl(env.apiBaseUrl)
      && r.request.value.params["format"] == "json" && r.request.value.params["uncompressed_webhook"] == "true"
      && r.request.value.params["auth_header"] == "Bearer " + env.webhookSecret.GetOr(""))
    ensures r.request.Some? ==> (r.request.value.endpoint == TriggerEndpoint
      && r.request.value.authorization == "Bearer " + env.apiKey.value)
    ensures r.outcome.Started? <==> r.request.Some? && post(r.request.value).Ok? && post(r.request.value).value.JObj?
    ensures r.outcome.Started? ==> r.outcome.snapshotId == GetOr(post(r.request.value).value.fields, "snapshot_id", JNull)
  {
    if !Configured(env) then Extraction(None, NotConfigured)
    else
      var request := ExtractionRequest(env, videoId);
      match post(request)
      case Raise(e) => Extraction(Some(request), Failed(e))
      case Ok(body) =>
        if body.JObj? then Extraction(Some(request), Started(GetOr(body.fields, "snapshot_id", JNull)))
        else Extraction(Some(request), Failed(NoGet))
  }

  /** The dictionary the service returns for each outcome. */
  function OutcomeReply(outcome: ExtractionOutcome): Doc {
    match outcome
    case NotConfigured => map["success" := JBool(false), "error" := JStr("Bright Data not configured"),
                              "message" := JStr("Bright Data API key or dataset ID not configured")]
    case Started(id) => map["success" := JBool(true), "snapshot_id" := id, "message" := JStr("Transcript extraction started")]
    case Failed(e) => map["success" := JBool(false), "error" := JStr(e), "message" := JStr("Failed to start transcript extraction")]
  }

  /**
   The watch URL the service sends is one the application's own validator
   accepts, and extracting from it gives back the video id.
   */
  lemma WatchUrlRoundTrip(videoId: string)
    requires IsVideoId(videoId)
    ensures ValidateYoutubeUrl(WatchUrl(videoId))
    ensures ExtractVideoId(WatchUrl(videoId)) == Some(videoId)
  {
    var url := WatchUrl(videoId);
    assert url == "https://" + "www." + Hosts[0] + videoId;
    LitConcat(url, 0, "https://" + "www." + Hosts[0], videoId);
    assert url[32..32 + IdLength] == videoId;
    assert AcceptedShape(url, "https://", "www.", Hosts[0]);
    ShapeDeterminesPrefixes(url, "https://", "www.", Hosts[0]);
    assert ValidatedCapture(url) == Some(32);
    ValidatedUrlYieldsSameId(url);
  }

  // ---------------------------------------------------------------------------
  // Webhook payloads.

  /** The fields `parse_webhook_data` keeps from a delivered item. */
  datatype WebhookVideo = WebhookVideo(
    videoId: Json, title: Json, videoLength: Json, thumbnailUrl: Json, publishedAt: Json,
    channelName: string, channelAvatar: Json, channelUrl: Json,
    viewCount: Json, likeCount: Json, subscriberCount: Json,
    transcript: Json, quality: Json, description: Json, raw: Doc)

  datatype ParsedWebhook =
    | InvalidFormat
    | EmptyPayload
    | MissingFields(missing: seq<string>)
    | Valid(video: WebhookVideo)

  /** The item a payload is judged by: the first list entry, or the dictionary itself. */
  function FirstItem(payload: Json): Option<Json> {
    if payload.JObj? then Some(payload)
    else if payload.JArr? && |payload.items| > 0 then Some(payload.items[0])
    else None
  }

  /** The required fields that are missing or falsy, in the order `video_id`, `transcript`. */
  function MissingOf(video: WebhookVideo): (missing: seq<string>)
    ensures "video_id" in missing <==> !Truthy(video.videoId)
    ensures "transcript" in missing <==> !Truthy(video.transcript)
    ensures |missing| <= 2 && (|missing| == 2 ==> missing == ["video_id", "transcript"])
  {
    (if Truthy(video.videoId) then [] else ["video_id"]) + (if Truthy(video.transcript) then [] else ["transcript"])
  }

  /** `cut` is `whole[:n]`: the first `n` entries, or all of them when there are fewer. */
  predicate IsPrefixUpTo<T(==)>(cut: seq<T>, whole: seq<T>, n: nat) {
    |cut| == (if |whole| <= n then |whole| else n) && cut == whole[..|cut|]
  }

  /** The extracted record of one item (a dictionary). */
  function ExtractFields(d: Doc): (r: Res<WebhookVideo>)
    ensures r.Ok? <==> (GetOr(d, "youtuber", JStr("")).JStr?
      && Prefix(Or(GetOr(d, "description", JNull), JStr("")), 500).Ok?)
    ensures r.Ok? ==> r.value.raw == d
    ensures r.Ok? ==> r.value.transcript == Or(GetOr(d, "transcript", JNull), GetOr(d, "formatted_transcript", JStr("")))
    ensures r.Ok? ==> var name := GetOr(d, "youtuber", JStr("")).s;
      |r.value.channelName| <= |name| && r.value.channelName == name[|name| - |r.value.channelName|..]
      && (r.value.channelName == "" || r.value.channelName[0] != '@')
    ensures r.Ok? ==> forall i :: 0 <= i < |GetOr(d, "youtuber", JStr("")).s| - |r.value.channelName| ==>
      GetOr(d, "youtuber", JStr("")).s[i] == '@'
    ensures r.Ok? ==> (r.value.videoId == GetOr(d, "video_id", JNull) && r.value.title == GetOr(d, "title", JNull)
      && r.value.videoLength == GetOr(d, "video_length", JNull) && r.value.thumbnailUrl == GetOr(d, "preview_image", JNull)
      && r.value.publishedAt == GetOr(d, "date_posted", JNull) && r.value.channelAvatar == GetOr(d, "avatar_img_channel", JNull)
      && r.value.channelUrl == GetOr(d, "channel_url", JNull) && r.value.viewCount == GetOr(d, "views", JInt(0))
      && r.value.likeCount == GetOr(d, "likes", JInt(0)) && r.value.subscriberCount == GetOr(d, "subscribers", JInt(0))
      && r.value.quality == GetOr(d, "quality_label", JNull))
    ensures r.Ok? && r.value.description.JStr? ==> |r.value.description.s| <= 500
    ensures r.Ok? && r.value.description.JArr? ==> |r.value.description.items| <= 500
    ensures (r.Ok? ==> var full := Or(GetOr(d, "description", JNull), JStr(""));
      (full.JStr? ==> r.value.description.JStr? && IsPrefixUpTo(r.value.description.s, full.s, 500))
      && (full.JArr? ==> r.value.description.JArr? && IsPrefixUpTo(r.value.description.items, full.items, 500)))
  {
    var youtuber := GetOr(d, "youtuber", JStr(""));
    if !youtuber.JStr? then Raise("AttributeError: object has no attribute 'lstrip'")
    else
      var description :- Prefix(Or(GetOr(d, "description", JNull), JStr("")), 500);
      Ok(WebhookVideo(
        GetOr(d, "video_id", JNull), GetOr(d, "title", JNull), GetOr(d, "video_length", JNull),
        GetOr(d, "preview_image", JNull), GetOr(d, "date_posted", JNull),
        LStripChar(youtuber.s, '@'), GetOr(d, "avatar_img_channel", JNull), GetOr(d, "channel_url", JNull),
        GetOr(d, "views", JInt(0)), GetOr(d, "likes", JInt(0)), GetOr(d, "subscribers", JInt(0)),
        Or(GetOr(d, "transcript", JNull), GetOr(d, "formatted_transcript", JStr(""))),
        GetOr(d, "quality_label", JNull), description, d))
  }

  /**
   `parse_webhook_data`: shape checks, then the field extraction of the first
   item and the required-field check. An item that is not a dictionary
   raises, as do a non-string `youtuber` and a description that cannot be
   sliced.
   */
  function ParseWebhookData(payload: Json): (r: Res<ParsedWebhook>)
    ensures r.Ok? && r.value.InvalidFormat? <==> !payload.JArr? && !payload.JObj?
    ensures r.Ok? && r.value.EmptyPayload? <==> payload == JArr([])
    ensures r.Raise? ==> FirstItem(payload).Some?
    ensures FirstItem(payload).Some? && !FirstItem(payload).value.JObj? ==> r.Raise?
    ensures r.Ok? && r.value.MissingFields? ==> r.value.missing != []
    ensures r.Ok? && (r.value.Valid? || r.value.MissingFields?) ==>
      FirstItem(payload).Some? && FirstItem(payload).value.JObj? && r == ParseItem(FirstItem(payload).value)
    ensures r.Ok? && r.value.Valid? ==> Truthy(r.value.video.videoId) && Truthy(r.value.video.transcript)
  {
    if !payload.JArr? && !payload.JObj? then Ok(InvalidFormat)
    else if payload == JArr([]) then Ok(EmptyPayload)
    else ParseItem(FirstItem(payload).value)
  }

  /** The judgement of the first item: extract its fields, then require `video_id` and a transcript. */
  function ParseItem(item: Json): (r: Res<ParsedWebhook>)
    ensures r.Raise? <==> !item.JObj? || ExtractFields(item.fields).Raise?
    ensures r.Ok? ==> r.value.Valid? || r.value.MissingFields?
    ensures r.Ok? ==> r.value == Judge(ExtractFields(item.fields).value)
  {
    if !item.JObj? then Raise(NoGet)
    else
      var video :- ExtractFields(item.fields);
      Ok(Judge(video))
  }

  /** The required-field check on an extracted record. */
  function Judge(video: WebhookVideo): (r: ParsedWebhook)
    ensures r.Valid? || r.MissingFields?
    ensures r.MissingFields? ==> r.missing != [] && r.missing == MissingOf(video)
    ensures r.Valid? ==> r.video == video
  {
    var missing := MissingOf(video);
    if missing != [] then MissingFields(missing) else Valid(video)
  }

  /** Only the first item is inspected, and a dictionary is judged as the list holding it. */
  lemma OnlyFirstItemCounts(item: Json, rest: seq<Json>)
    ensures ParseWebhookData(JArr([item] + rest)) == ParseWebhookData(JArr([item]))
    ensures item.JObj? ==> ParseWebhookData(item) == ParseWebhookData(JArr([item]))
  {
    assert FirstItem(JArr([item] + rest)) == Some(item) && FirstItem(JArr([item])) == Some(item);
    assert JArr([item] + rest) != JArr([]) && JArr([item]) != JArr([]);
  }

  /**
   A record is judged valid exactly when `video_id` and the transcript are
   both truthy; otherwise the missing-field list names each falsy one once.
   */
  lemma ValidIffNothingMissing(video: WebhookVideo)
    ensures Judge(video).Valid? <==> Truthy(video.videoId) && Truthy(video.transcript)
    ensures Judge(video).MissingFields? ==> (("video_id" in Judge(video).missing <==> !Truthy(video.videoId))
      && ("transcript" in Judge(video).missing <==> !Truthy(video.transcript))
      && |Judge(video).missing| <= 2)
  {
    NothingMissingIff(video);
  }

  /**
   A payload whose first item is a readable dictionary parses without
   raising, and is valid exactly when that item's `video_id` and its
   transcript (`transcript`, else `formatted_transcript`) are truthy; the
   valid record is the item's extracted fields.
   */
  lemma PayloadValidIffRequiredFields(payload: Json)
    requires FirstItem(payload).Some? && FirstItem(payload).value.JObj?
    requires ExtractFields(FirstItem(payload).value.fields).Ok?
    ensures var d := FirstItem(payload).value.fields;
      var r := ParseWebhookData(payload);
      r.Ok? && (r.value.Valid? <==> (Truthy(GetOr(d, "video_id", JNull))
                                     && Truthy(Or(GetOr(d, "transcript", JNull), GetOr(d, "formatted_transcript", JStr(""))))))
      && (r.value.Valid? ==> r.value.video == ExtractFields(d).value)
  {
    var item := FirstItem(payload).value;
    assert payload != JArr([]);
    assert ParseWebhookData(payload) == ParseItem(item);
    ValidIffNothingMissing(ExtractFields(item.fields).value);
  }

  /** The missing-field list is empty exactly when both required fields are truthy. */
  lemma NothingMissingIff(video: WebhookVideo)
    ensures MissingOf(video) == [] <==> Truthy(video.videoId) && Truthy(video.transcript)
  {
    if !Truthy(video.videoId) {
      assert "video_id" in MissingOf(video);
    }
    if !Truthy(video.transcript) {
      assert "transcript" in MissingOf(video);
    }
  }
}
