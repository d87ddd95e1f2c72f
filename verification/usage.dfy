/**
 Usage metering (utils.py): the document a new user starts with, the
 counter update after each summary, and the subscription update after a
 plan change. Clock readings are parameters.
 */
module Usage {
  import opened Values
  import opened Store

  /** `initialize_new_user`'s document: the free plan and zero usage, stamped with `now`. */
  function NewUserDoc(now: Json, nextBilling: Json): Doc {
    map[
      "subscription" := JObj(map[
        "plan" := JStr("free"), "payment_id" := JNull,
        "start_date" := now, "next_billing_date" := nextBilling]),
      "usage" := JObj(map[
        "minutes_used_this_month" := JInt(0), "videos_processed" := JInt(0),
        "last_reset_date" := now]),
      "created_at" := now]
  }

  /** `initialize_new_user`: overwrite the user's document with the defaults. */
  function InitializeNewUser(users: Collection, userId: string, now: Json, nextBilling: Json): (r: Collection)
    ensures r.Keys == users.Keys + {userId}
    ensures Read(r, userId) == Some(NewUserDoc(now, nextBilling))
    ensures forall u :: u in users && u != userId ==> r[u] == users[u]
  {
    Set(users, userId, NewUserDoc(now, nextBilling))
  }

  /**
   The usage map after one more video: minutes and the video count grow
   with Python's `+`, the reset date is kept (or stamped when missing).
   Raises when the stored usage is not a dictionary or a counter cannot be
   added to.
   */
  function NextUsage(usage: Json, minutes: Json, now: Json): (r: Res<Json>)
    ensures r.Ok? ==> usage.JObj? && r.value.JObj?
    ensures r.Ok? ==> r.value.fields.Keys == {"minutes_used_this_month", "videos_processed", "last_reset_date"}
    ensures r.Ok? ==> r.value.fields["last_reset_date"] == GetOr(usage.fields, "last_reset_date", now)
    ensures (usage.JObj? ==>
      var used := GetOr(usage.fields, "minutes_used_this_month", JInt(0));
      var count := GetOr(usage.fields, "videos_processed", JInt(0));
      (AsNumber(used).Some? && AsNumber(minutes).Some? && AsNumber(count).Some? ==>
        r.Ok? && r.value.fields["minutes_used_this_month"] == JInt(AsNumber(used).value + AsNumber(minutes).value)
        && r.value.fields["videos_processed"] == JInt(AsNumber(count).value + 1)))
  {
    if !usage.JObj? then Raise(NoGet)
    else
      var total :- Add(GetOr(usage.fields, "minutes_used_this_month", JInt(0)), minutes);
      var videos :- Add(GetOr(usage.fields, "videos_processed", JInt(0)), JInt(1));
      var reset := GetOr(usage.fields, "last_reset_date", now);
      Ok(JObj(map["minutes_used_this_month" := total, "videos_processed" := videos, "last_reset_date" := reset]))
  }

  /** Replace the seeded user's `usage` map (a top-level field, so the whole map is replaced). */
  function WithUsage(users: Collection, userId: string, next: Json): (r: Collection)
    requires userId in users
    ensures r.Keys == users.Keys
    ensures "usage" in r[userId] && r[userId]["usage"] == next
    ensures forall k :: k in users[userId] && k != "usage" ==> k in r[userId] && r[userId][k] == users[userId][k]
    ensures forall u :: u in users && u != userId ==> r[u] == users[u]
  {
    UpdateField(users, userId, "usage", next).value
  }

  /** The record stored in the user's `videos` sub-collection. */
  function VideoRecord(videoId: string, title: Json, summary: string, minutes: Json, now: Json): Doc {
    map[
      "video_id" := JStr(videoId), "title" := title, "summary" := JStr(summary),
      "duration_minutes" := minutes, "processed_at" := now]
  }

  /** The users collection as `update_user_usage` finds it after seeding a missing user. */
  function Seeded(users: Collection, userId: string, now: Json, nextBilling: Json): (r: Collection)
    ensures r.Keys == users.Keys + {userId}
    ensures userId in users ==> r == users
    ensures userId !in users ==> r[userId] == NewUserDoc(now, nextBilling)
    ensures forall u :: u in users && u != userId ==> r[u] == users[u]
  {
    if userId in users then users else InitializeNewUser(users, userId, now, nextBilling)
  }

  /**
   `update_user_usage`: seed a missing user, replace its `usage` map with the
   next one, then set the video record keyed by `videoId`. There is no
   duplicate check: each call counts again.
   */
  function UpdateUserUsage(db: Db, userId: string, minutes: Json, videoId: string, title: Json, summary: string,
                           now: Json, nextBilling: Json): (r: Effect<()>)
    ensures r.db.transcripts == db.transcripts && r.db.videoJobs == db.videoJobs && r.db.scrapingJobs == db.scrapingJobs
    ensures r.db.users.Keys == db.users.Keys + {userId}
    ensures r.result.Raise? ==> r.db.videos == db.videos && (userId in db.users ==> r.db == db)
    ensures (var next := NextUsage(GetOr(Seeded(db.users, userId, now, nextBilling)[userId], "usage", EmptyObj), minutes, now);
      (r.result.Ok? <==> next.Ok?) && (r.result.Ok? ==> "usage" in r.db.users[userId] && r.db.users[userId]["usage"] == next.value))
    ensures r.result.Ok? ==> userId in r.db.videos && r.db.videos[userId] == Set(UserVideos(db, userId), videoId, VideoRecord(videoId, title, summary, minutes, now))
    ensures r.result.Ok? ==> forall k :: k in Seeded(db.users, userId, now, nextBilling)[userId] && k != "usage" ==>
      k in r.db.users[userId] && r.db.users[userId][k] == Seeded(db.users, userId, now, nextBilling)[userId][k]
  {
    var users := Seeded(db.users, userId, now, nextBilling);
    Applied(db.(users := users), userId, NextUsage(GetOr(users[userId], "usage", EmptyObj), minutes, now),
            videoId, VideoRecord(videoId, title, summary, minutes, now))
  }

  /** Only the charged user's documents change: every other user and video collection is kept. */
  lemma OtherUsersUntouched(db: Db, userId: string, minutes: Json, videoId: string, title: Json, summary: string,
                            now: Json, nextBilling: Json)
    ensures var r := UpdateUserUsage(db, userId, minutes, videoId, title, summary, now, nextBilling);
      (forall u :: u in db.users && u != userId ==> r.db.users[u] == db.users[u])
      && (forall u :: u in db.videos && u != userId ==> u in r.db.videos && r.db.videos[u] == db.videos[u])
  {
    var users := Seeded(db.users, userId, now, nextBilling);
    var next := NextUsage(GetOr(users[userId], "usage", EmptyObj), minutes, now);
    var r := UpdateUserUsage(db, userId, minutes, videoId, title, summary, now, nextBilling);
    if next.Ok? {
      assert r.db == Recorded(db.(users := users), userId, next.value, videoId, VideoRecord(videoId, title, summary, minutes, now));
    } else {
      assert r.db == db.(users := users);
    }
  }

  /** The store after the usage computation: unchanged when it raised, both writes made when it succeeded. */
  function Applied(seeded: Db, userId: string, next: Res<Json>, videoId: string, record: Doc): (r: Effect<()>)
    requires userId in seeded.users
    ensures r.result.Ok? <==> next.Ok?
    ensures r.result.Raise? ==> r == Effect(seeded, Raise(next.reason))
    ensures r.result.Ok? ==> r.db == Recorded(seeded, userId, next.value, videoId, record)
  {
    match next
    case Raise(e) => Effect(seeded, Raise(e))
    case Ok(value) => Effect(Recorded(seeded, userId, value, videoId, record), Ok(()))
  }

  /** The two writes of a successful update: the new usage map, then the video record. */
  function Recorded(db: Db, userId: string, next: Json, videoId: string, record: Doc): (r: Db)
    requires userId in db.users
    ensures r.transcripts == db.transcripts && r.videoJobs == db.videoJobs && r.scrapingJobs == db.scrapingJobs
    ensures r.users == WithUsage(db.users, userId, next)
    ensures r.videos.Keys == db.videos.Keys + {userId}
    ensures r.videos[userId] == Set(UserVideos(db, userId), videoId, record)
    ensures forall u :: u in db.videos && u != userId ==> r.videos[u] == db.videos[u]
  {
    db.(users := WithUsage(db.users, userId, next), videos := db.videos[userId := Set(UserVideos(db, userId), videoId, record)])
  }

  /** The counters a user document holds, when they are whole numbers. */
  predicate HasCounters(user: Doc, used: int, count: int) {
    "usage" in user && user["usage"].JObj?
    && GetOr(user["usage"].fields, "minutes_used_this_month", JInt(0)) == JInt(used)
    && GetOr(user["usage"].fields, "videos_processed", JInt(0)) == JInt(count)
  }

  /**
   The counter update: `minutes` is added to the minutes used, one video is
   counted, the reset date is unchanged.
   */
  lemma UsageAccumulates(db: Db, userId: string, used: int, count: int, minutes: int, videoId: string,
                         title: Json, summary: string, now: Json, nextBilling: Json)
    requires userId in db.users && HasCounters(db.users[userId], used, count)
    ensures var r := UpdateUserUsage(db, userId, JInt(minutes), videoId, title, summary, now, nextBilling);
      r.result.Ok? && HasCounters(r.db.users[userId], used + minutes, count + 1)
      && r.db.users[userId]["usage"].fields["last_reset_date"]
         == GetOr(db.users[userId]["usage"].fields, "last_reset_date", now)
  {
    var user := db.users[userId];
    assert Seeded(db.users, userId, now, nextBilling)[userId] == user;
    assert GetOr(user, "usage", EmptyObj) == user["usage"];
    var next := NextUsage(user["usage"], JInt(minutes), now);
    assert next.Ok? && next.value.fields["minutes_used_this_month"] == JInt(used + minutes)
      && next.value.fields["videos_processed"] == JInt(count + 1);
  }

  /** A user without a document starts from `initialize_new_user`'s zeros and the free plan. */
  lemma NewUserStartsAtZero(db: Db, userId: string, minutes: int, videoId: string,
                            title: Json, summary: string, now: Json, nextBilling: Json)
    requires userId !in db.users
    ensures var r := UpdateUserUsage(db, userId, JInt(minutes), videoId, title, summary, now, nextBilling);
      r.result.Ok? && HasCounters(r.db.users[userId], minutes, 1)
      && r.db.users[userId]["usage"].fields["last_reset_date"] == now
      && r.db.users[userId]["subscription"] == NewUserDoc(now, nextBilling)["subscription"]
  {
    var users := Seeded(db.users, userId, now, nextBilling);
    assert users[userId] == NewUserDoc(now, nextBilling);
    assert HasCounters(users[userId], 0, 0);
    UsageAccumulates(db.(users := users), userId, 0, 0, minutes, videoId, title, summary, now, nextBilling);
  }

  /**
   Nothing deduplicates: recording a video the user already has still adds
   its minutes and counts it again, while the stored record is only
   replaced, so the user's video collection keeps the same keys.
   */
  lemma RepeatedVideoCountsAgain(db: Db, userId: string, used: int, count: int, minutes: int,
                                 videoId: string, title: Json, summary: string, now: Json, nextBilling: Json)
    requires userId in db.users && HasCounters(db.users[userId], used, count)
    requires videoId in UserVideos(db, userId)
    ensures var r := UpdateUserUsage(db, userId, JInt(minutes), videoId, title, summary, now, nextBilling);
      r.result.Ok? && HasCounters(r.db.users[userId], used + minutes, count + 1)
      && userId in r.db.videos && r.db.videos[userId].Keys == UserVideos(db, userId).Keys
      && r.db.videos[userId][videoId] == VideoRecord(videoId, title, summary, JInt(minutes), now)
  {
    FirstDeliveryRecords(db, userId, used, count, minutes, videoId, title, summary, now, nextBilling);
  }

  /** One successful delivery: the counters step once and the video record is set. */
  lemma FirstDeliveryRecords(db: Db, userId: string, used: int, count: int, minutes: int,
                             videoId: string, title: Json, summary: string, now: Json, nextBilling: Json)
    requires userId in db.users && HasCounters(db.users[userId], used, count)
    ensures var r := UpdateUserUsage(db, userId, JInt(minutes), videoId, title, summary, now, nextBilling);
      r.result.Ok? && userId in r.db.users && HasCounters(r.db.users[userId], used + minutes, count + 1)
      && userId in r.db.videos
      && r.db.videos[userId] == Set(UserVideos(db, userId), videoId, VideoRecord(videoId, title, summary, JInt(minutes), now))
  {
    UsageAccumulates(db, userId, used, count, minutes, videoId, title, summary, now, nextBilling);
  }

  /** A stored usage value that is not a dictionary makes the update raise, and nothing is written. */
  lemma MalformedUsageRaises(db: Db, userId: string, minutes: Json, videoId: string, title: Json, summary: string,
                             now: Json, nextBilling: Json)
    requires userId in db.users && "usage" in db.users[userId] && !db.users[userId]["usage"].JObj?
    ensures UpdateUserUsage(db, userId, minutes, videoId, title, summary, now, nextBilling) == Effect(db, Raise("AttributeError: object has no attribute 'get'"))
  {
  }

  // ---------------------------------------------------------------------------
  // Subscriptions.

  /** The subscription map `update_user_subscription` writes. */
  function SubscriptionRecord(planId: Json, paymentId: Json, now: Json, nextBilling: Json): Json {
    JObj(map[
      "plan" := planId, "payment_id" := paymentId, "start_date" := now,
      "next_billing_date" := nextBilling, "updated_at" := now])
  }

  /** `update_user_subscription`: replace the `subscription` map; raises when the user has no document. */
  function UpdateUserSubscription(users: Collection, userId: string, planId: Json, paymentId: Json,
                                  now: Json, nextBilling: Json): (r: Res<Collection>)
    ensures r.Ok? <==> userId in users
    ensures r.Ok? ==> r.value.Keys == users.Keys
    ensures r.Ok? ==> "subscription" in r.value[userId] && r.value[userId]["subscription"] == SubscriptionRecord(planId, paymentId, now, nextBilling)
    ensures r.Ok? ==> forall u :: u in users && u != userId ==> r.value[u] == users[u]
  {
    UpdateField(users, userId, "subscription", SubscriptionRecord(planId, paymentId, now, nextBilling))
  }

  /** Changing the plan leaves the usage counters and every other field as they were. */
  lemma SubscriptionKeepsUsage(users: Collection, userId: string, planId: Json, paymentId: Json,
                               now: Json, nextBilling: Json)
    requires userId in users
    ensures var r := UpdateUserSubscription(users, userId, planId, paymentId, now, nextBilling).value;
      forall k :: k in users[userId] && k != "subscription" ==> k in r[userId] && r[userId][k] == users[userId][k]
  {
  }

  /** `user_data.get("subscription", {}).get("plan", "free")`: the plan a user document names. */
  function StoredPlan(user: Doc): (r: Res<Json>)
    ensures "subscription" !in user ==> r == Ok(JStr("free"))
    ensures r.Ok? <==> GetOr(user, "subscription", EmptyObj).JObj?
    ensures ("subscription" in user && user["subscription"].JObj? && "plan" in user["subscription"].fields
      ==> r == Ok(user["subscription"].fields["plan"]))
    ensures ("subscription" in user && user["subscription"].JObj? && "plan" !in user["subscription"].fields
      ==> r == Ok(JStr("free")))
  {
    Field(GetOr(user, "subscription", EmptyObj), "plan", JStr("free"))
  }

  /** `user_data.get("usage", {}).get("minutes_used_this_month", 0)`: the minutes a user document records. */
  function StoredUsage(user: Doc): (r: Res<Json>)
    ensures "usage" !in user ==> r == Ok(JInt(0))
    ensures r.Ok? <==> GetOr(user, "usage", EmptyObj).JObj?
    ensures (forall used: int, count: int {:trigger HasCounters(user, used, count)} ::
      HasCounters(user, used, count) ==> r == Ok(JInt(used)))
  {
    Field(GetOr(user, "usage", EmptyObj), "minutes_used_this_month", JInt(0))
  }

  /** A new user is on the free plan, and a subscription update is what the plan reads back as. */
  lemma SubscribedPlanReadsBack(users: Collection, userId: string, planId: Json, paymentId: Json,
                                now: Json, nextBilling: Json)
    requires userId in users
    ensures StoredPlan(NewUserDoc(now, nextBilling)) == Ok(JStr("free"))
    ensures StoredPlan(UpdateUserSubscription(users, userId, planId, paymentId, now, nextBilling).value[userId]) == Ok(planId)
  {
  }
}
