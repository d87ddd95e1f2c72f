/**
 Reading a user's plan and usage for display (user_helpers.py): the plan
 data of a stored user, the route guard that injects it, and the view the
 templates render.
 */
module UserHelpers {
  import opened Values
  import opened Store
  import opened Http
  import Usage
  import Settings

  /** `get_user_plan_data`'s dictionary: the stored document, its subscription map, plan and minutes used. */
  datatype PlanData = PlanData(userData: Doc, subscription: Doc, planType: Json, usageMinutes: Json)

  /**
   `get_user_plan_data`: nothing for an unknown user, and nothing when the
   document's `subscription` or `usage` is not a dictionary (the error is
   caught). The plan defaults to "free" and the minutes to 0.
   */
  function GetUserPlanData(users: Collection, userId: string): (r: Option<PlanData>)
    ensures userId !in users ==> r.None?
    ensures (userId in users ==> (r.Some? <==> Usage.StoredPlan(users[userId]).Ok? && Usage.StoredUsage(users[userId]).Ok?))
    ensures (r.Some? ==> (r.value.userData == users[userId]
      && Ok(r.value.planType) == Usage.StoredPlan(users[userId])
      && Ok(r.value.usageMinutes) == Usage.StoredUsage(users[userId])
      && JObj(r.value.subscription) == GetOr(users[userId], "subscription", EmptyObj)))
  {
    match Read(users, userId)
    case None => None
    case Some(user) =>
      var subscription := GetOr(user, "subscription", EmptyObj);
      if !subscription.JObj? then None
      else match Usage.StoredUsage(user)
        case Raise(_) => None
        case Ok(minutes) =>
          Some(PlanData(user, subscription.fields, GetOr(subscription.fields, "plan", JStr("free")), minutes))
  }

  /**
   `with_user_plan_data`: a route that needs a user id answers 400 without
   one and 404 for a user whose plan data cannot be read; otherwise the
   route runs with the plan data. A non-string id names no document.
   */
  function WithUserPlanData(users: Collection, userId: Json, route: PlanData -> Reply): (r: Reply)
    ensures !Truthy(userId) ==> r == Error(400, "User ID not provided")
    ensures (Truthy(userId) && (!userId.JStr? || GetUserPlanData(users, userId.s).None?)
      ==> r == Error(404, "User not found"))
    ensures (Truthy(userId) && userId.JStr? && GetUserPlanData(users, userId.s).Some?
      ==> r == route(GetUserPlanData(users, userId.s).value))
  {
    if !Truthy(userId) then Error(400, "User ID not provided")
    else if !userId.JStr? then Error(404, "User not found")
    else match GetUserPlanData(users, userId.s)
      case None => Error(404, "User not found")
      case Some(data) => route(data)
  }

  /** The plan panel of the templates. */
  datatype PlanView = PlanView(
    plan: Json, status: Json, currentPeriodEnd: Json,
    minutesUsed: Json, minutesLimit: int, percentageUsed: int,
    nextBillingDate: Json, recentVideos: seq<Json>)

  /**
   `plans.get(plan, {}).get("minutes_limit", 30)`: the table's limit for a
   known plan, 30 for anything else; a list or dictionary cannot be looked
   up at all.
   */
  function PlanLimit(plans: map<string, Settings.PlanInfo>, plan: Json): (r: Res<int>)
    ensures plan.JStr? && plan.s in plans ==> r == Ok(plans[plan.s].minutesLimit)
    ensures plan.JStr? && plan.s !in plans ==> r == Ok(30)
    ensures r.Raise? <==> plan.JArr? || plan.JObj?
  {
    if plan.JArr? || plan.JObj? then Raise("TypeError: unhashable type")
    else if plan.JStr? && plan.s in plans then Ok(plans[plan.s].minutesLimit)
    else Ok(30)
  }

  /**
   `min(int(used / limit * 100), 100)` for a positive limit, computed
   exactly: the quotient is truncated toward zero.
   */
  function Percentage(used: int, limit: int): (p: int)
    requires limit > 0
    ensures used >= 0 ==> 0 <= p <= 100
    ensures used >= limit ==> p == 100
    ensures p <= 100
  {
    var scaled := if used >= 0 then used * 100 / limit else -((-used) * 100 / limit);
    HundredthsBounds(used, limit);
    if scaled < 100 then scaled else 100
  }

  /** The truncated quotient is never negative for non-negative usage, and reaches 100 at the limit. */
  lemma HundredthsBounds(used: int, limit: int)
    requires limit > 0
    ensures used >= 0 ==> used * 100 / limit >= 0
    ensures used < 0 ==> (-used) * 100 / limit >= 0
    ensures used >= limit ==> used * 100 / limit >= 100
  {
    if used >= limit {
      MulMonotone(100, limit, used);
      DivMonotone(limit * 100, used * 100, limit);
      assert limit * 100 / limit == 100;
    }
  }

  /** The share of the limit used: 0 for a limit that is not positive, otherwise a number is required. */
  function PercentageUsed(used: Json, limit: int): (r: Res<int>)
    ensures limit <= 0 ==> r == Ok(0)
    ensures limit > 0 ==> (r.Ok? <==> AsNumber(used).Some?)
    ensures limit > 0 && AsNumber(used).Some? ==> r == Ok(Percentage(AsNumber(used).value, limit))
  {
    if limit <= 0 then Ok(0)
    else match AsNumber(used)
      case None => Raise("TypeError: unsupported operand type(s) for /")
      case Some(u) => Ok(Percentage(u, limit))
  }

  /**
   `format_plan_data`. Without plan data the free plan is shown unused;
   otherwise the stored plan and minutes are shown against the plan's
   limit, the status defaults to "active", the next billing date to "N/A",
   and no recent videos are listed.
   */
  function FormatPlanData(planData: Option<PlanData>, plans: map<string, Settings.PlanInfo>): (r: Res<PlanView>)
    ensures (planData.None? ==> ((r.Ok? <==> "free" in plans)
      && (r.Ok? ==> r.value == PlanView(JStr("free"), JStr("active"), JNull, JInt(0), plans["free"].minutesLimit, 0, JNull, []))))
    ensures (r.Ok? && planData.Some? ==> (r.value.plan == planData.value.planType
      && r.value.minutesUsed == planData.value.usageMinutes
      && Ok(r.value.minutesLimit) == PlanLimit(plans, planData.value.planType)
      && Ok(r.value.percentageUsed) == PercentageUsed(planData.value.usageMinutes, r.value.minutesLimit)
      && r.value.status == GetOr(planData.value.subscription, "status", JStr("active"))
      && r.value.currentPeriodEnd == GetOr(planData.value.subscription, "current_period_end", JNull)
      && r.value.nextBillingDate == GetOr(planData.value.subscription, "current_period_end", JStr("N/A"))))
    ensures (planData.Some? ==> (r.Ok? <==> (PlanLimit(plans, planData.value.planType).Ok?
      && PercentageUsed(planData.value.usageMinutes, PlanLimit(plans, planData.value.planType).value).Ok?)))
    ensures r.Ok? ==> r.value.recentVideos == []
  {
    match planData
    case None =>
      if "free" !in plans then Raise("KeyError: 'free'")
      else Ok(PlanView(JStr("free"), JStr("active"), JNull, JInt(0), plans["free"].minutesLimit, 0, JNull, []))
    case Some(data) =>
      var limit :- PlanLimit(plans, data.planType);
      var percentage :- PercentageUsed(data.usageMinutes, limit);
      Ok(PlanView(data.planType, GetOr(data.subscription, "status", JStr("active")),
                  GetOr(data.subscription, "current_period_end", JNull), data.usageMinutes, limit, percentage,
                  GetOr(data.subscription, "current_period_end", JStr("N/A")), []))
  }

  /** With the application's plan table and no plan data: the free plan, 30 minutes, nothing used. */
  lemma NoPlanDataShowsFree()
    ensures FormatPlanData(None, Settings.SubscriptionPlans)
      == Ok(PlanView(JStr("free"), JStr("active"), JNull, JInt(0), 30, 0, JNull, []))
  {
  }

  /**
   A user just created by `initialize_new_user` reads back as the free
   plan with 0 minutes used: 0% of 30 minutes, status "active", and no
   billing date ("N/A").
   */
  lemma NewUserPlanView(users: Collection, userId: string, now: Json, nextBilling: Json)
    ensures var data := GetUserPlanData(Usage.InitializeNewUser(users, userId, now, nextBilling), userId);
      data.Some? && data.value.planType == JStr("free") && data.value.usageMinutes == JInt(0)
      && FormatPlanData(data, Settings.SubscriptionPlans)
         == Ok(PlanView(JStr("free"), JStr("active"), JNull, JInt(0), 30, 0, JStr("N/A"), []))
  {
    var user := Usage.NewUserDoc(now, nextBilling);
    assert Usage.HasCounters(user, 0, 0);
  }

  /** A plan the table does not know is shown with 30 minutes. */
  lemma UnknownPlanShowsThirty(data: PlanData, plans: map<string, Settings.PlanInfo>)
    requires data.planType.JStr? && data.planType.s !in plans
    requires AsNumber(data.usageMinutes).Some?
    ensures FormatPlanData(Some(data), plans).Ok? && FormatPlanData(Some(data), plans).value.minutesLimit == 30
  {
  }

  /** Using more never shows a smaller percentage. */
  lemma PercentageMonotone(a: int, b: int, limit: int)
    requires limit > 0 && 0 <= a <= b
    ensures Percentage(a, limit) <= Percentage(b, limit)
  {
    DivMonotone(a * 100, b * 100, limit);
  }

  lemma DivMonotone(x: int, y: int, d: int)
    requires 0 <= x <= y && d > 0
    ensures x / d <= y / d
  {
    var p, q := x / d, y / d;
    assert d * p <= x;
    assert y < d * q + d;
    if p > q {
      MulMonotone(d, q + 1, p);
    }
  }

  lemma MulMonotone(d: int, a: int, b: int)
    requires d > 0 && a <= b
    ensures d * a <= d * b
  {
  }
}
