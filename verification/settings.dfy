/**
 The subscription plan table and the named configuration classes of
 config.py. The plan table is the data that admission, payment and
 plan-display rules consult.
 */
module Settings {

  datatype PlanInfo = PlanInfo(
    name: string,
    minutesLimit: int,
    price: int,          // integer cents
    currency: string,
    features: seq<string>)

  const FreePlan := PlanInfo("Free Plan", 30, 0, "USD", ["Basic Summaries", "Limited to 30 min/month"])
  const ProPlan := PlanInfo("Pro Plan", 100, 999, "USD", ["Premium Summaries", "100 min/month", "Unlimited Videos"])
  const ElitePlan := PlanInfo("Elite Plan", 300, 2999, "USD",
    ["Premium Summaries", "300 min/month", "Priority Processing", "Premium Support"])

  /** `Config.SUBSCRIPTION_PLANS`. */
  const SubscriptionPlans: map<string, PlanInfo> :=
    map["free" := FreePlan, "pro" := ProPlan, "elite" := ElitePlan]

  /** Plan names in tier order. */
  const Tiers: seq<string> := ["free", "pro", "elite"]

  /** The configuration classes: the base class reads DEBUG from the environment. */
  datatype ConfigClass = BaseConfig | DevelopmentConfig | ProductionConfig

  /** The DEBUG flag of a configuration class; `flaskDebug` is the FLASK_DEBUG variable if set. */
  function Debug(c: ConfigClass, flaskDebug: string): bool {
    match c
    case BaseConfig => LowerAscii(flaskDebug) == "true"
    case DevelopmentConfig => true
    case ProductionConfig => false
  }

  /** The `config` name map. */
  const ConfigByName: map<string, ConfigClass> :=
    map["development" := DevelopmentConfig, "production" := ProductionConfig, "default" := DevelopmentConfig]

  function LowerAscii(s: string): (r: string)
    ensures |r| == |s|
  {
    if s == [] then []
    else [if 'A' <= s[0] <= 'Z' then (s[0] as int + 32) as char else s[0]] + LowerAscii(s[1..])
  }

  /** The plan table has exactly the three tiers, and its limits grow strictly with the tier. */
  lemma PlanTableShape()
    ensures SubscriptionPlans.Keys == {"free", "pro", "elite"}
    ensures forall p :: p in Tiers <==> p in SubscriptionPlans
    ensures forall i, j :: 0 <= i < j < |Tiers| ==>
      SubscriptionPlans[Tiers[i]].minutesLimit < SubscriptionPlans[Tiers[j]].minutesLimit
    ensures forall i, j :: 0 <= i < j < |Tiers| ==>
      SubscriptionPlans[Tiers[i]].price < SubscriptionPlans[Tiers[j]].price
  {
    assert SubscriptionPlans.Keys == {"free", "pro", "elite"};
  }

  /** Limits 30/100/300 minutes; prices 0, 999 and 2999 cents, all in USD. */
  lemma PlanTableValues()
    ensures SubscriptionPlans["free"].minutesLimit == 30
    ensures SubscriptionPlans["pro"].minutesLimit == 100
    ensures SubscriptionPlans["elite"].minutesLimit == 300
    ensures SubscriptionPlans["free"].price == 0
    ensures SubscriptionPlans["pro"].price == 999
    ensures SubscriptionPlans["elite"].price == 2999
    ensures forall p :: p in SubscriptionPlans ==> SubscriptionPlans[p].currency == "USD" && SubscriptionPlans[p].price >= 0
  {
  }

  /** The default configuration is the development one; DEBUG is on there and off in production. */
  lemma ConfigNames(env: string)
    ensures ConfigByName["default"] == ConfigByName["development"] == DevelopmentConfig
    ensures Debug(ConfigByName["development"], env) && !Debug(ConfigByName["production"], env)
  {
  }
}
