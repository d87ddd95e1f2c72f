/**
 Authentication and plan admission (auth.py). The session is reduced to
 the signed-in user's id and the per-request copy of the user document;
 the guarded route is a parameter.
 */
module Auth {
  import opened Values
  import opened Store
  import opened Http
  import Usage
  import Settings

  /** The session: the signed-in user's `uid`, if any, and `_temp_user_data`. */
  datatype Session = Session(user: Option<string>, temp: Option<Doc>)

  /** `is_authenticated`. */
  predicate IsAuthenticated(s: Session) {
    s.user.Some?
  }

  /** `get_current_user_id`. */
  function GetCurrentUserId(s: Session): (r: Option<string>)
    ensures r.None? <==> !IsAuthenticated(s)
    ensures r.Some? ==> s.user == Some(r.value)
  {
    if IsAuthenticated(s) then Some(s.user.value) else None
  }

  /** `auth_required`: without a signed-in user, redirect to the login page instead of running the route. */
  function AuthRequired(s: Session, route: Session -> Reply): (r: Reply)
    ensures !IsAuthenticated(s) ==> r == Redirect(LoginPage)
    ensures IsAuthenticated(s) ==> r == route(s)
  {
    if !IsAuthenticated(s) then Redirect(LoginPage) else route(s)
  }

  const PlanCheckError := "Unable to verify plan limits"
  const LimitMessage := "You have reached your monthly limit. Please upgrade your plan to continue."

  /** `Config.SUBSCRIPTION_PLANS[plan]["minutes_limit"]`: only a plan the table names has a limit. */
  function TableLimit(plan: Json): (r: Res<int>)
    ensures r.Ok? <==> plan.JStr? && plan.s in Settings.SubscriptionPlans
    ensures r.Ok? ==> r.value == Settings.SubscriptionPlans[plan.s].minutesLimit
  {
    if plan.JStr? && plan.s in Settings.SubscriptionPlans then Ok(Settings.SubscriptionPlans[plan.s].minutesLimit)
    else Raise("KeyError: unknown plan")
  }

  /** The decision on a user document: let the request in, or answer for it. */
  datatype Verdict = Admit | Refuse(reply: Reply)

  /** The 403 body of a user at or over the limit. */
  function LimitExceeded(used: Json, limit: int): Reply {
    JsonReply(403, map[
      "error" := JStr("Plan limit exceeded"), "minutes_used" := used,
      "plan_limit" := JInt(limit), "message" := JStr(LimitMessage)])
  }

  /**
   The admission rule on a user document: a user is let in exactly when
   the minutes used are below the plan's limit. An unreadable plan or
   usage, a plan the table does not name, or minutes that are not a number
   are a 500.
   */
  function Admission(user: Doc): (r: Verdict)
    ensures (r.Admit? <==> (Usage.StoredPlan(user).Ok? && TableLimit(Usage.StoredPlan(user).value).Ok?
      && Usage.StoredUsage(user).Ok? && AsNumber(Usage.StoredUsage(user).value).Some?
      && AsNumber(Usage.StoredUsage(user).value).value < TableLimit(Usage.StoredPlan(user).value).value))
    ensures (r.Refuse? ==> (r.reply == Error(500, PlanCheckError)
      || (Usage.StoredPlan(user).Ok? && TableLimit(Usage.StoredPlan(user).value).Ok? && Usage.StoredUsage(user).Ok?
        && r.reply == LimitExceeded(Usage.StoredUsage(user).value, TableLimit(Usage.StoredPlan(user).value).value))))
    ensures ((Usage.StoredPlan(user).Raise? || TableLimit(Usage.StoredPlan(user).value).Raise?)
      ==> r == Refuse(Error(500, PlanCheckError)))
  {
    match Usage.StoredPlan(user)
    case Raise(_) => Refuse(Error(500, PlanCheckError))
    case Ok(plan) =>
      match Usage.StoredUsage(user)
      case Raise(_) => Refuse(Error(500, PlanCheckError))
      case Ok(used) =>
        match TableLimit(plan)
        case Raise(_) => Refuse(Error(500, PlanCheckError))
        case Ok(limit) =>
          match AsNumber(used)
          case None => Refuse(Error(500, PlanCheckError))
          case Some(minutes) => if minutes >= limit then Refuse(LimitExceeded(used, limit)) else Admit
  }

  /** The store, session and reply after a guarded request. */
  datatype Checked = Checked(db: Db, session: Session, reply: Reply)

  /**
   `plan_checker`: redirect without a signed-in user; otherwise create a
   missing user's document, then either refuse or run the route with the
   user document in the session. The per-request copy is removed on every
   path after the redirect check (the redirect leaves the session alone).
   */
  function PlanChecker(db: Db, s: Session, route: (Db, Session) -> (Db, Reply), now: Json, nextBilling: Json): (r: Checked)
    ensures !IsAuthenticated(s) ==> r == Checked(db, s, Redirect(LoginPage))
    ensures IsAuthenticated(s) ==> r.session == s.(temp := None)
    ensures (IsAuthenticated(s) ==> var users := Usage.Seeded(db.users, s.user.value, now, nextBilling);
      match Admission(users[s.user.value])
      case Admit => (r.db, r.reply) == route(db.(users := users), s.(temp := Some(users[s.user.value])))
      case Refuse(reply) => r.db == db.(users := users) && r.reply == reply)
  {
    match s.user
    case None => Checked(db, s, Redirect(LoginPage))
    case Some(userId) =>
      var users := Usage.Seeded(db.users, userId, now, nextBilling);
      var seeded := db.(users := users);
      match Admission(users[userId])
      case Refuse(reply) => Checked(seeded, s.(temp := None), reply)
      case Admit =>
        var ran := route(seeded, s.(temp := Some(users[userId])));
        Checked(ran.0, s.(temp := None), ran.1)
  }

  /** Both guards send a visitor without a session user to the login page and change nothing. */
  lemma UnauthenticatedRedirected(db: Db, s: Session, route: Session -> Reply, guarded: (Db, Session) -> (Db, Reply),
                                  now: Json, nextBilling: Json)
    requires !IsAuthenticated(s)
    ensures AuthRequired(s, route) == Redirect(LoginPage)
    ensures PlanChecker(db, s, guarded, now, nextBilling) == Checked(db, s, Redirect(LoginPage))
    ensures GetCurrentUserId(s).None?
  {
  }

  /**
   A user without a document is created on the free plan with nothing
   used, and let in: the route sees the new document.
   */
  lemma NewUserAdmitted(db: Db, s: Session, route: (Db, Session) -> (Db, Reply), now: Json, nextBilling: Json)
    requires IsAuthenticated(s) && s.user.value !in db.users
    ensures var users := Usage.InitializeNewUser(db.users, s.user.value, now, nextBilling);
      var r := PlanChecker(db, s, route, now, nextBilling);
      (r.db, r.reply) == route(db.(users := users), s.(temp := Some(Usage.NewUserDoc(now, nextBilling))))
  {
    var user := Usage.NewUserDoc(now, nextBilling);
    assert Usage.HasCounters(user, 0, 0);
    assert Admission(user).Admit?;
  }

  /**
   For a user on a plan of the table with a whole number of minutes used:
   admitted exactly below the limit, and otherwise refused with a 403 that
   reports the minutes used and the limit.
   */
  lemma AdmitIffUnderLimit(user: Doc, plan: string, used: int, count: int)
    requires Usage.StoredPlan(user) == Ok(JStr(plan)) && plan in Settings.SubscriptionPlans
    requires Usage.HasCounters(user, used, count)
    ensures Admission(user).Admit? <==> used < Settings.SubscriptionPlans[plan].minutesLimit
    ensures (!Admission(user).Admit? ==>
      Admission(user) == Refuse(LimitExceeded(JInt(used), Settings.SubscriptionPlans[plan].minutesLimit)))
  {
  }

  /** A plan name the table does not know is a 500, whatever the usage. */
  lemma UnknownPlanRefused(user: Doc, plan: Json)
    requires Usage.StoredPlan(user) == Ok(plan)
    requires !(plan.JStr? && plan.s in Settings.SubscriptionPlans)
    ensures Admission(user) == Refuse(Error(500, PlanCheckError))
  {
  }
}
