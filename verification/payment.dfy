/**
 Subscription payments (payment.py): creating a PayPal payment for a plan,
 the stored payment intent and its one-way state machine, checking and
 executing an approved payment, and the error text shown for PayPal
 failures. The PayPal SDK calls are parameters; the plan table is the
 application's.
 */
module Payment {
  import opened Values
  import opened Text
  import opened Store
  import Usage
  import Settings

  // ---------------------------------------------------------------------------
  // Amounts.

  /** `"{:.2f}".format(cents / 100.0)`: whole units, a point and two digits. */
  function FormatAmount(cents: int): (s: string)
    ensures cents >= 0 ==> |s| >= 4 && s[|s| - 3] == '.'
  {
    if cents < 0 then "-" + Unsigned(-cents) else Unsigned(cents)
  }

  function Unsigned(cents: nat): (s: string)
    ensures |s| >= 4 && s[|s| - 3] == '.'
  {
    NatToDigits(cents / 100) + "." + [DigitChar(cents % 100 / 10), DigitChar(cents % 10)]
  }

  /** Reads an amount written as digits, a point and two digits back into cents. */
  function ParseAmount(s: string): (r: Option<nat>)
    ensures r.Some? ==> |s| >= 4 && s[|s| - 3] == '.'
  {
    if |s| < 4 || s[|s| - 3] != '.' || !AllDigits(s[..|s| - 3]) || !IsDigit(s[|s| - 2]) || !IsDigit(s[|s| - 1]) then None
    else Some(DigitsValue(s[..|s| - 3]) * 100 + DigitValue(s[|s| - 2]) * 10 + DigitValue(s[|s| - 1]))
  }

  /** Every non-negative amount is read back as written: the format loses nothing. */
  lemma AmountRoundTrip(cents: nat)
    ensures ParseAmount(FormatAmount(cents)) == Some(cents)
  {
    var whole := NatToDigits(cents / 100);
    var tens, units := DigitChar(cents % 100 / 10), DigitChar(cents % 10);
    var s := whole + "." + [tens, units];
    assert FormatAmount(cents) == s;
    assert s[..|s| - 3] == whole;
    assert s[|s| - 2] == tens && s[|s| - 1] == units;
    DigitsRoundTrip(cents / 100);
    assert DigitsValue(whole) * 100 + DigitValue(tens) * 10 + DigitValue(units) == cents;
  }

  /** Two prices print the same only when they are the same number of cents. */
  lemma AmountInjective(a: nat, b: nat)
    requires FormatAmount(a) == FormatAmount(b)
    ensures a == b
  {
    AmountRoundTrip(a);
    AmountRoundTrip(b);
  }

  /** The prices of the plan table as PayPal sees them. */
  lemma PlanPricesPrinted()
    ensures FormatAmount(999) == "9.99" && FormatAmount(2999) == "29.99" && FormatAmount(0) == "0.00"
  {
    assert NatToDigits(9) == "9";
    assert NatToDigits(29) == "29" by { assert NatToDigits(2) == "2"; }
    assert NatToDigits(0) == "0";
  }

  // ---------------------------------------------------------------------------
  // PayPal error text.

  const UnknownError := "Unknown PayPal error"

  /**
   The issues of a PayPal error's detail list, in order: the truthy `issue`
   of each entry. An entry that is not a dictionary, or an issue that is
   not a string, raises.
   */
  function Issues(details: seq<Json>): (r: Res<seq<string>>)
    ensures r.Ok? ==> |r.value| <= |details|
    ensures r.Ok? ==> forall i :: 0 <= i < |r.value| ==> r.value[i] != ""
    ensures (r.Ok? <==> forall i :: 0 <= i < |details| ==> (details[i].JObj?
      && (Truthy(GetOr(details[i].fields, "issue", JNull)) ==> GetOr(details[i].fields, "issue", JNull).JStr?)))
  {
    if details == [] then Ok([])
    else
      var d := details[0];
      if !d.JObj? then Raise(NoGet)
      else
        var issue := GetOr(d.fields, "issue", JNull);
        if Truthy(issue) && !issue.JStr? then Raise("TypeError: sequence item: expected str instance")
        else
          var rest :- Issues(details[1..]);
          if Truthy(issue) then Ok([issue.s] + rest) else Ok(rest)
  }

  /** The `issue` of a detail, or `None` for one that is not a dictionary. */
  function IssueOf(detail: Json): Json {
    if detail.JObj? then GetOr(detail.fields, "issue", JNull) else JNull
  }

  /** One detail more: its issue, when it names one, comes before those of the rest. */
  lemma IssuesUnfold(details: seq<Json>)
    requires Issues(details).Ok? && details != []
    ensures Issues(details[1..]).Ok?
    ensures (Issues(details).value
      == (if Truthy(IssueOf(details[0])) then [IssueOf(details[0]).s] else []) + Issues(details[1..]).value)
  {
  }

  /** Every detail that names an issue has it collected. */
  lemma {:induction false} IssuesCovered(details: seq<Json>)
    requires Issues(details).Ok?
    ensures forall i :: 0 <= i < |details| && Truthy(IssueOf(details[i])) ==> IssueOf(details[i]).s in Issues(details).value
  {
    if details != [] {
      var rest := details[1..];
      IssuesUnfold(details);
      IssuesCovered(rest);
      forall i | 0 <= i < |details| && Truthy(IssueOf(details[i]))
        ensures IssueOf(details[i]).s in Issues(details).value
      {
        if i > 0 {
          assert details[i] == rest[i - 1];
          assert IssueOf(rest[i - 1]).s in Issues(rest).value;
        }
      }
    }
  }

  /** Every collected issue is named by some detail. */
  lemma {:induction false} IssuesNamed(details: seq<Json>)
    requires Issues(details).Ok?
    ensures var issues := Issues(details).value;
      forall k :: 0 <= k < |issues| ==> exists i :: 0 <= i < |details| && IssueOf(details[i]) == JStr(issues[k])
  {
    if details != [] {
      var rest := details[1..];
      IssuesUnfold(details);
      IssuesNamed(rest);
      var issues := Issues(details).value;
      var later := Issues(rest).value;
      var skip := if Truthy(IssueOf(details[0])) then 1 else 0;
      assert |issues| == skip + |later|;
      assert forall k :: skip <= k < |issues| ==> issues[k] == later[k - skip];
      forall k | 0 <= k < |issues|
        ensures exists i :: 0 <= i < |details| && IssueOf(details[i]) == JStr(issues[k])
      {
        if k < skip {
          assert IssueOf(details[0]) == JStr(issues[k]);
        } else {
          var j :| 0 <= j < |rest| && IssueOf(rest[j]) == JStr(later[k - skip]);
          assert details[j + 1] == rest[j];
        }
      }
    }
  }

  /**
   `_format_paypal_error`: "Unknown PayPal error" for a falsy error;
   otherwise the error's message (the same default), followed by " - " and
   the issues joined by ", " when there are any.
   */
  function FormatPaypalError(error: Json): (r: Res<Json>)
    ensures !Truthy(error) ==> r == Ok(JStr(UnknownError))
    ensures Truthy(error) && !error.JObj? ==> r.Raise?
    ensures (Truthy(error) && error.JObj? && !Truthy(GetOr(error.fields, "details", JArr([])))
      ==> r == Ok(GetOr(error.fields, "message", JStr(UnknownError))))
    ensures (r.Ok? && Truthy(error) && error.JObj? && r != Ok(GetOr(error.fields, "message", JStr(UnknownError))) ==> (
      var message := GetOr(error.fields, "message", JStr(UnknownError));
      var details := GetOr(error.fields, "details", JArr([]));
      details.JArr? && Issues(details.items).Ok? && Issues(details.items).value != []
      && var suffix := " - " + Join(Issues(details.items).value, ", ");
      (message.JStr? ==> r == Ok(JStr(message.s + suffix)))
      && (message.JArr? ==> r == Ok(JArr(message.items + Chars(suffix))))
      && (message.JStr? || message.JArr?)))
  {
    if !Truthy(error) then Ok(JStr(UnknownError))
    else
      var message :- Field(error, "message", JStr(UnknownError));
      var details := GetOr(error.fields, "details", JArr([]));
      if !Truthy(details) then Ok(message)
      else if !details.JArr? then Raise(NoGet)
      else
        var issues :- Issues(details.items);
        if issues == [] then Ok(message)
        else
          var suffix := " - " + Join(issues, ", ");
          if message.JStr? then Ok(JStr(message.s + suffix))
          else if message.JArr? then Ok(JArr(message.items + Chars(suffix)))
          else Raise("TypeError: unsupported operand type(s) for +=")
  }

  /** `list(s)` as JSON: one single-character string per character, which is what `list += str` appends. */
  function Chars(s: string): (r: seq<Json>)
    ensures |r| == |s|
    ensures forall i :: 0 <= i < |s| ==> r[i] == JStr([s[i]])
  {
    seq(|s|, i requires 0 <= i < |s| => JStr([s[i]]))
  }

  /** The formatted error as it appears inside an exception message. */
  function ErrorText(formatted: Json): string {
    if formatted.JStr? then formatted.s else UnknownError
  }

  /** An error with a message and details naming at least one issue reads "message - issue, issue". */
  lemma MessageWithIssues(message: string, details: seq<Json>, issues: seq<string>)
    requires Issues(details) == Ok(issues) && issues != []
    ensures FormatPaypalError(JObj(map["message" := JStr(message), "details" := JArr(details)]))
      == Ok(JStr(message + " - " + Join(issues, ", ")))
  {
    var error := JObj(map["message" := JStr(message), "details" := JArr(details)]);
    assert Truthy(error) && Truthy(JArr(details));
    assert GetOr(error.fields, "message", JStr(UnknownError)) == JStr(message);
    assert GetOr(error.fields, "details", JArr([])) == JArr(details);
    assert message + (" - " + Join(issues, ", ")) == message + " - " + Join(issues, ", ");
  }

  /** A message that is a list is extended by `+=` with the characters of " - issue, issue" instead of raising. */
  lemma ListMessageWithIssues(message: seq<Json>, details: seq<Json>, issues: seq<string>)
    requires Issues(details) == Ok(issues) && issues != []
    ensures var r := FormatPaypalError(JObj(map["message" := JArr(message), "details" := JArr(details)]));
      r.Ok? && r.value.JArr? && r.value.items[..|message|] == message
      && |r.value.items| == |message| + |" - " + Join(issues, ", ")|
  {
    var error := JObj(map["message" := JArr(message), "details" := JArr(details)]);
    assert Truthy(error) && Truthy(JArr(details));
    assert GetOr(error.fields, "message", JStr(UnknownError)) == JArr(message);
    assert GetOr(error.fields, "details", JArr([])) == JArr(details);
    var suffix := " - " + Join(issues, ", ");
    assert FormatPaypalError(error) == Ok(JArr(message + Chars(suffix)));
    assert (message + Chars(suffix))[..|message|] == message;
  }

  /** A detail without an issue contributes nothing: of a declined instrument and a payer field, only the first is an issue. */
  lemma ExampleIssues()
    ensures Issues([JObj(map["issue" := JStr("INSTRUMENT_DECLINED")]), JObj(map["field" := JStr("payer")])])
      == Ok(["INSTRUMENT_DECLINED"])
  {
    var details := [JObj(map["issue" := JStr("INSTRUMENT_DECLINED")]), JObj(map["field" := JStr("payer")])];
    assert Issues(details[1..]) == Ok([]) by {
      assert details[1..][1..] == [];
      assert Issues([]) == Ok([]);
      assert GetOr(details[1].fields, "issue", JNull) == JNull;
    }
    assert GetOr(details[0].fields, "issue", JNull) == JStr("INSTRUMENT_DECLINED");
    assert Truthy(JStr("INSTRUMENT_DECLINED"));
    assert details != [] && details[0].JObj?;
    assert Issues(details) == Ok(["INSTRUMENT_DECLINED"] + []);
    assert ["INSTRUMENT_DECLINED"] + [] == ["INSTRUMENT_DECLINED"];
  }

  // ---------------------------------------------------------------------------
  // Intents.

  /** An intent is pending until it is executed, and then completed or failed for good. */
  datatype IntentStatus = Pending | Completed(payerId: string, completedAt: Json) | Failed(error: Json, failedAt: Json)

  /** The `payment_intents` record stored when a paid plan's payment is created. */
  datatype Intent = Intent(userId: string, planId: string, amount: int, currency: string, createdAt: Json,
                           paymentId: string, status: IntentStatus)

  /** The documents payments read and write: users, and intents keyed by PayPal payment id. */
  datatype Ledger = Ledger(users: Collection, intents: map<string, Intent>)

  /** How a PayPal SDK call can fail. */
  datatype SdkError = ResourceNotFound | ConnectionFailure | SdkFailure(reason: string)

  /** The outcome of a PayPal SDK call. */
  datatype Call<+T> = Returned(value: T) | Threw(error: SdkError)

  /** The text a failed SDK call is reported with from `verify_payment`. */
  function VerifyFailureText(e: SdkError): string {
    match e
    case ResourceNotFound => "PayPal payment not found"
    case ConnectionFailure => "Could not connect to PayPal. Please try again."
    case SdkFailure(reason) => reason
  }

  /** The text a failed SDK call is re-raised with from `create_payment`. */
  function CreateFailureText(e: SdkError): string {
    match e
    case ResourceNotFound => "ResourceNotFound"
    case ConnectionFailure => "ConnectionError"
    case SdkFailure(reason) => reason
  }

  /** One allowed move of an intent: stay put, or leave "pending" once. */
  predicate Moves(before: IntentStatus, after: IntentStatus) {
    before == after || (before.Pending? && !after.Pending?)
  }

  /** Every stored intent keeps its data, and its status moves only as `Moves` allows. */
  predicate IntentsStep(before: map<string, Intent>, after: map<string, Intent>) {
    before.Keys <= after.Keys
    && forall id :: id in before ==> (after[id].(status := before[id].status) == before[id]
      && Moves(before[id].status, after[id].status))
  }

  // ---------------------------------------------------------------------------
  // Creating a payment.

  /** The sale PayPal is asked to create. */
  datatype Order = Order(name: string, sku: string, price: string, currency: string, total: string,
                         description: string, custom: string, returnUrl: string, cancelUrl: string)

  datatype Link = Link(rel: string, href: string)

  /** PayPal's answer to `create()`: the new payment, or its error. */
  datatype Creation = Created(id: string, links: seq<Link>) | Refused(error: Json)

  datatype CreateResult = FreeSubscribed | Approval(approvalUrl: string, paymentId: string)

  /** The first link whose relation is "approval_url". */
  function ApprovalUrl(links: seq<Link>): (r: Option<string>)
    ensures r.Some? <==> exists i :: 0 <= i < |links| && links[i].rel == "approval_url"
    ensures (r.Some? ==> exists i :: (0 <= i < |links| && links[i].rel == "approval_url" && links[i].href == r.value
      && forall j :: 0 <= j < i ==> links[j].rel != "approval_url"))
  {
    if links == [] then None
    else if links[0].rel == "approval_url" then Some(links[0].href)
    else
      var r := ApprovalUrl(links[1..]);
      if r.Some? then
        var i :| 1 <= i + 1 <= |links| && 0 <= i < |links[1..]| && links[1..][i].rel == "approval_url"
          && links[1..][i].href == r.value && forall j :: 0 <= j < i ==> links[1..][j].rel != "approval_url";
        assert links[i + 1].rel == "approval_url" && links[i + 1].href == r.value;
        assert forall j :: 0 <= j < i + 1 ==> links[j].rel != "approval_url" by {
          forall j | 0 <= j < i + 1
            ensures links[j].rel != "approval_url"
          {
            if j > 0 {
              assert links[j] == links[1..][j - 1];
            }
          }
        }
        r
      else
        assert forall i :: 1 <= i < |links| ==> links[i] == links[1..][i - 1];
        r
  }

  /** The sale for a paid plan: one item at the plan's price, the user id in `custom`. */
  function PlanOrder(plan: Settings.PlanInfo, planId: string, userId: string, pricingUrl: string): (o: Order)
    ensures o.total == o.price == FormatAmount(plan.price) && o.currency == plan.currency && o.custom == userId
  {
    Order(plan.name, planId, FormatAmount(plan.price), plan.currency, FormatAmount(plan.price),
          "Subscription to " + plan.name, userId,
          pricingUrl + "?paypal_status=success&plan_id=" + planId, pricingUrl + "?paypal_status=cancelled")
  }

  /**
   `create_payment`. An unknown plan is refused before anything happens.
   The free plan is subscribed to directly. A paid plan gets a PayPal sale;
   once PayPal has created it, a pending intent is stored under its id,
   even when the answer then lacks an approval link.
   */
  function CreatePayment(ledger: Ledger, planId: string, userId: string, pricingUrl: string,
                         now: Json, nextBilling: Json, create: Order -> Call<Creation>): (r: (Ledger, Res<CreateResult>))
    ensures planId !in Settings.SubscriptionPlans ==> r == (ledger, Raise("ValueError: Invalid plan ID: " + planId))
    ensures (planId == "free" ==> (r.0.intents == ledger.intents
      && (r.1.Ok? <==> userId in ledger.users)
      && (r.1.Ok? ==> (r.1.value == FreeSubscribed
        && r.0.users == Usage.UpdateUserSubscription(ledger.users, userId, JStr("free"), JNull, now, nextBilling).value))))
    ensures planId != "free" ==> r.0.users == ledger.users
    ensures r.1.Ok? && r.1.value.FreeSubscribed? ==> planId == "free"
    ensures (r.0.intents != ledger.intents ==> (planId in Settings.SubscriptionPlans && planId != "free"
      && var order := PlanOrder(Settings.SubscriptionPlans[planId], planId, userId, pricingUrl);
      create(order).Returned? && create(order).value.Created?
      && var id := create(order).value.id;
      r.0.intents == ledger.intents[id := Intent(userId, planId, Settings.SubscriptionPlans[planId].price,
                                                 Settings.SubscriptionPlans[planId].currency, now, id, Pending)]))
    ensures r.1.Ok? && r.1.value.Approval? ==> r.1.value.paymentId in r.0.intents && r.0.intents[r.1.value.paymentId].status == Pending
    ensures (planId in Settings.SubscriptionPlans && planId != "free" ==>
      var plan := Settings.SubscriptionPlans[planId];
      var created := create(PlanOrder(plan, planId, userId, pricingUrl));
      (created.Threw? ==> r == (ledger, Raise(CreateFailureText(created.error))))
      && (created.Returned? && created.value.Refused? ==> r.0 == ledger && r.1.Raise?)
      && (created.Returned? && created.value.Created? ==>
          r == StorePending(ledger, Intent(userId, planId, plan.price, plan.currency, now, created.value.id, Pending),
                            created.value.links)))
  {
    if planId !in Settings.SubscriptionPlans then (ledger, Raise("ValueError: Invalid plan ID: " + planId))
    else if planId == "free" then
      match Usage.UpdateUserSubscription(ledger.users, userId, JStr("free"), JNull, now, nextBilling)
      case Raise(e) => (ledger, Raise(e))
      case Ok(users) => (ledger.(users := users), Ok(FreeSubscribed))
    else
      var plan := Settings.SubscriptionPlans[planId];
      match create(PlanOrder(plan, planId, userId, pricingUrl))
      case Threw(e) => (ledger, Raise(CreateFailureText(e)))
      case Returned(Refused(error)) =>
        (match FormatPaypalError(error)
         case Raise(e) => (ledger, Raise(e))
         case Ok(text) => (ledger, Raise("PayPal payment creation failed: " + ErrorText(text))))
      case Returned(Created(id, links)) =>
        // A stored intent whose id PayPal reuses is replaced by the new pending one.
        StorePending(ledger, Intent(userId, planId, plan.price, plan.currency, now, id, Pending), links)
  }

  /** Store the pending intent, then hand out the approval link or raise for its absence. */
  function StorePending(ledger: Ledger, intent: Intent, links: seq<Link>): (r: (Ledger, Res<CreateResult>))
    requires intent.status == Pending
    ensures r.0 == ledger.(intents := ledger.intents[intent.paymentId := intent])
    ensures (r.1.Ok? <==> ApprovalUrl(links).Some? && ApprovalUrl(links).value != "")
    ensures r.1.Ok? ==> r.1.value == Approval(ApprovalUrl(links).value, intent.paymentId)
  {
    var stored := ledger.(intents := ledger.intents[intent.paymentId := intent]);
    match ApprovalUrl(links)
    case Some(url) =>
      if url != "" then (stored, Ok(Approval(url, intent.paymentId)))
      else (stored, Raise("Could not get PayPal approval URL"))
    case None => (stored, Raise("Could not get PayPal approval URL"))
  }

  /**
   A paid plan that PayPal creates with an approval link is answered with
   that link and the payment's id, and its pending intent is stored.
   */
  lemma PaidPlanAwaitsApproval(ledger: Ledger, planId: string, userId: string, pricingUrl: string,
                               now: Json, nextBilling: Json, create: Order -> Call<Creation>)
    requires planId in Settings.SubscriptionPlans && planId != "free"
    requires var created := create(PlanOrder(Settings.SubscriptionPlans[planId], planId, userId, pricingUrl));
      created.Returned? && created.value.Created?
      && ApprovalUrl(created.value.links).Some? && ApprovalUrl(created.value.links).value != ""
    ensures var plan := Settings.SubscriptionPlans[planId];
      var created := create(PlanOrder(plan, planId, userId, pricingUrl)).value;
      var r := CreatePayment(ledger, planId, userId, pricingUrl, now, nextBilling, create);
      r.1 == Ok(Approval(ApprovalUrl(created.links).value, created.id))
      && r.0.users == ledger.users
      && r.0.intents == ledger.intents[created.id := Intent(userId, planId, plan.price, plan.currency, now, created.id, Pending)]
  {
  }

  /** Subscribing to the free plan creates no intent and needs no PayPal call. */
  lemma FreePlanNeedsNoPaypal(ledger: Ledger, userId: string, pricingUrl: string, now: Json, nextBilling: Json,
                              create: Order -> Call<Creation>)
    requires userId in ledger.users
    ensures var r := CreatePayment(ledger, "free", userId, pricingUrl, now, nextBilling, create);
      r.1 == Ok(FreeSubscribed) && r.0.intents == ledger.intents
      && Usage.StoredPlan(r.0.users[userId]) == Ok(JStr("free"))
  {
    Usage.SubscribedPlanReadsBack(ledger.users, userId, JStr("free"), JNull, now, nextBilling);
  }

  // ---------------------------------------------------------------------------
  // Verifying and executing a payment.

  /** A transaction of a payment PayPal returns; an attribute may be missing. */
  datatype Transaction = Transaction(total: Option<Json>, currency: Option<Json>, custom: Option<Json>)

  /** A payment as `Payment.find` returns it. */
  datatype PaypalPayment = PaypalPayment(id: string, transactions: seq<Transaction>)

  /** `execute`'s answer: approved, or declined with the payment's error. */
  datatype Execution = Approved | Declined(error: Json)

  /**
   `_verify_payment_details`: the first transaction must carry the
   intent's amount (as PayPal prints it), currency and user id; a missing
   attribute makes the check fail rather than raise.
   */
  function VerifyPaymentDetails(payment: PaypalPayment, intent: Intent): (ok: bool)
    ensures (ok <==> (|payment.transactions| > 0
      && payment.transactions[0].total == Some(JStr(FormatAmount(intent.amount)))
      && payment.transactions[0].currency == Some(JStr(intent.currency))
      && payment.transactions[0].custom == Some(JStr(intent.userId))))
  {
    if |payment.transactions| == 0 then false
    else
      var t := payment.transactions[0];
      match (t.total, t.currency, t.custom)
      case (Some(total), Some(currency), Some(custom)) =>
        total == JStr(FormatAmount(intent.amount)) && currency == JStr(intent.currency) && custom == JStr(intent.userId)
      case _ => false
  }

  datatype Verified = Verified(message: string, paymentId: string, planId: string)

  const IntentMissing := "Payment intent not found or expired"
  const UserMismatch := "Payment verification failed: user mismatch"
  const AlreadyProcessed := "Payment already processed"
  const DetailsMismatch := "Payment details verification failed"

  /**
   `verify_payment`. The intent must exist, belong to the caller and still
   be pending; PayPal's payment must match it. Only then is the payment
   executed: approval subscribes the user to the intent's plan and
   completes the intent, a decline fails it.
   */
  function VerifyPayment(ledger: Ledger, paymentId: string, payerId: string, userId: string, now: Json, nextBilling: Json,
                         find: string -> Call<PaypalPayment>, execute: (string, string) -> Call<Execution>): (r: (Ledger, Res<Verified>))
    ensures paymentId !in ledger.intents ==> r == (ledger, Raise(IntentMissing))
    ensures (paymentId in ledger.intents && ledger.intents[paymentId].userId != userId
      ==> r == (ledger, Raise(UserMismatch)))
    ensures ((paymentId in ledger.intents && ledger.intents[paymentId].userId == userId
      && !ledger.intents[paymentId].status.Pending?) ==> r == (ledger, Raise(AlreadyProcessed)))
    ensures ((find(paymentId).Returned? && paymentId in ledger.intents
      && !VerifyPaymentDetails(find(paymentId).value, ledger.intents[paymentId])) ==> r.0 == ledger)
    ensures r.0.intents.Keys == ledger.intents.Keys
    ensures IntentsStep(ledger.intents, r.0.intents)
    ensures forall id :: id in ledger.intents && id != paymentId ==> r.0.intents[id] == ledger.intents[id]
    ensures (r.1.Ok? ==> (paymentId in ledger.intents && r.0.intents[paymentId].status == Completed(payerId, now)
      && r.1.value.planId == ledger.intents[paymentId].planId
      && userId in r.0.users && Usage.StoredPlan(r.0.users[userId]) == Ok(JStr(r.1.value.planId))))
    ensures (r.0.intents != ledger.intents ==> (paymentId in ledger.intents && ledger.intents[paymentId].status == Pending
      && ledger.intents[paymentId].userId == userId
      && find(paymentId).Returned? && VerifyPaymentDetails(find(paymentId).value, ledger.intents[paymentId])))
    ensures (Verifiable(ledger, paymentId, userId) ==>
      (find(paymentId).Threw? ==> r == (ledger, Raise(VerifyFailureText(find(paymentId).error))))
      && (find(paymentId).Returned? && !VerifyPaymentDetails(find(paymentId).value, ledger.intents[paymentId])
          ==> r == (ledger, Raise(DetailsMismatch))))
    ensures ((Verifiable(ledger, paymentId, userId) && find(paymentId).Returned?
      && VerifyPaymentDetails(find(paymentId).value, ledger.intents[paymentId])) ==>
      var payment := find(paymentId).value;
      (execute(payment.id, payerId).Threw? ==> r == (ledger, Raise(VerifyFailureText(execute(payment.id, payerId).error))))
      && (execute(payment.id, payerId).Returned?
          ==> r == Settle(ledger, paymentId, payment.id, payerId, execute(payment.id, payerId).value, now, nextBilling)))
  {
    if paymentId !in ledger.intents then (ledger, Raise(IntentMissing))
    else
      var intent := ledger.intents[paymentId];
      if intent.userId != userId then (ledger, Raise(UserMismatch))
      else if intent.status != Pending then (ledger, Raise(AlreadyProcessed))
      else match find(paymentId)
        case Threw(e) => (ledger, Raise(VerifyFailureText(e)))
        case Returned(payment) =>
          if !VerifyPaymentDetails(payment, intent) then (ledger, Raise(DetailsMismatch))
          else match execute(payment.id, payerId)
            case Threw(e) => (ledger, Raise(VerifyFailureText(e)))
            case Returned(outcome) => Settle(ledger, paymentId, payment.id, payerId, outcome, now, nextBilling)
  }

  /** The guards before PayPal is asked: a pending intent under `paymentId` that belongs to `userId`. */
  predicate Verifiable(ledger: Ledger, paymentId: string, userId: string) {
    paymentId in ledger.intents && ledger.intents[paymentId].userId == userId && ledger.intents[paymentId].status == Pending
  }

  /** After `execute`: record the outcome on the pending intent (and, on approval, the user's subscription). */
  function Settle(ledger: Ledger, paymentId: string, executedId: string, payerId: string, outcome: Execution,
                  now: Json, nextBilling: Json): (r: (Ledger, Res<Verified>))
    requires paymentId in ledger.intents && ledger.intents[paymentId].status == Pending
    ensures r.0.intents.Keys == ledger.intents.Keys
    ensures forall id :: id in ledger.intents && id != paymentId ==> r.0.intents[id] == ledger.intents[id]
    ensures r.0.intents[paymentId].(status := Pending) == ledger.intents[paymentId]
    ensures (outcome.Declined? ==> (r.1.Raise? && r.0.users == ledger.users
      && r.0.intents[paymentId].status == Failed(outcome.error, now)))
    ensures (outcome.Approved? ==>
      var intent := ledger.intents[paymentId];
      var sub := Usage.UpdateUserSubscription(ledger.users, intent.userId, JStr(intent.planId), JStr(executedId), now, nextBilling);
      (sub.Raise? ==> r == (ledger, Raise(sub.reason)))
      && (sub.Ok? ==> (r.0.users == sub.value && r.0.intents[paymentId].status == Completed(payerId, now)
          && (r.1.Ok? <==> intent.planId in Settings.SubscriptionPlans))))
    ensures (outcome.Approved? && r.0.intents != ledger.intents ==> (r.0.intents[paymentId].status == Completed(payerId, now)
      && var user := ledger.intents[paymentId].userId;
      Usage.UpdateUserSubscription(ledger.users, user, JStr(ledger.intents[paymentId].planId), JStr(executedId), now, nextBilling).Ok?
      && r.0.users == Usage.UpdateUserSubscription(ledger.users, user, JStr(ledger.intents[paymentId].planId),
                                                   JStr(executedId), now, nextBilling).value))
    ensures (r.1.Ok? ==> (outcome.Approved? && r.0.intents[paymentId].status == Completed(payerId, now)
      && r.1.value.planId == ledger.intents[paymentId].planId && r.1.value.paymentId == executedId
      && ledger.intents[paymentId].userId in r.0.users
      && Usage.StoredPlan(r.0.users[ledger.intents[paymentId].userId]) == Ok(JStr(r.1.value.planId))))
  {
    match outcome
    case Declined(error) => Decline(ledger, paymentId, error, now)
    case Approved => Approve(ledger, paymentId, executedId, payerId, now, nextBilling)
  }

  /** A declined execution: the intent is marked failed and the formatted PayPal error is raised. */
  function Decline(ledger: Ledger, paymentId: string, error: Json, now: Json): (r: (Ledger, Res<Verified>))
    requires paymentId in ledger.intents
    ensures r.1.Raise?
    ensures r.0 == ledger.(intents := ledger.intents[paymentId := ledger.intents[paymentId].(status := Failed(error, now))])
  {
    var failed := ledger.(intents := ledger.intents[paymentId := ledger.intents[paymentId].(status := Failed(error, now))]);
    match FormatPaypalError(error)
    case Raise(e) => (failed, Raise(e))
    case Ok(text) => (failed, Raise("PayPal payment execution failed: " + ErrorText(text)))
  }

  /**
   An approved execution: the user's subscription is written first (raising,
   with nothing stored, when the user has no document), then the intent is
   completed; an unknown plan id raises only after both writes.
   */
  function Approve(ledger: Ledger, paymentId: string, executedId: string, payerId: string,
                   now: Json, nextBilling: Json): (r: (Ledger, Res<Verified>))
    requires paymentId in ledger.intents
    ensures var intent := ledger.intents[paymentId];
      var sub := Usage.UpdateUserSubscription(ledger.users, intent.userId, JStr(intent.planId), JStr(executedId), now, nextBilling);
      (sub.Raise? ==> r == (ledger, Raise(sub.reason)))
      && (sub.Ok? ==> r.0 == Ledger(sub.value, ledger.intents[paymentId := intent.(status := Completed(payerId, now))]))
    ensures (r.1.Ok? ==> (r.1.value.planId == ledger.intents[paymentId].planId && r.1.value.paymentId == executedId
      && ledger.intents[paymentId].userId in r.0.users
      && Usage.StoredPlan(r.0.users[ledger.intents[paymentId].userId]) == Ok(JStr(r.1.value.planId))))
  {
    var intent := ledger.intents[paymentId];
    match Usage.UpdateUserSubscription(ledger.users, intent.userId, JStr(intent.planId), JStr(executedId), now, nextBilling)
    case Raise(e) => (ledger, Raise(e))
    case Ok(users) =>
      Usage.SubscribedPlanReadsBack(ledger.users, intent.userId, JStr(intent.planId), JStr(executedId), now, nextBilling);
      var done := Ledger(users, ledger.intents[paymentId := intent.(status := Completed(payerId, now))]);
      if intent.planId !in Settings.SubscriptionPlans then (done, Raise("KeyError: " + intent.planId))
      else (done, Ok(Verified("Payment successful. Subscribed to " + Settings.SubscriptionPlans[intent.planId].name + ".",
                              executedId, intent.planId)))
  }

  /**
   A pending intent of the caller's, matched by PayPal's payment and
   approved on execution, subscribes its owner to the intent's plan and is
   completed with the payer's id.
   */
  lemma ApprovedPaymentSubscribes(ledger: Ledger, paymentId: string, payerId: string, userId: string, now: Json,
                                  nextBilling: Json, find: string -> Call<PaypalPayment>,
                                  execute: (string, string) -> Call<Execution>)
    requires Verifiable(ledger, paymentId, userId) && userId in ledger.users
    requires ledger.intents[paymentId].planId in Settings.SubscriptionPlans
    requires find(paymentId).Returned? && VerifyPaymentDetails(find(paymentId).value, ledger.intents[paymentId])
    requires execute(find(paymentId).value.id, payerId) == Returned(Approved)
    ensures var r := VerifyPayment(ledger, paymentId, payerId, userId, now, nextBilling, find, execute);
      r.1.Ok? && r.1.value.planId == ledger.intents[paymentId].planId && r.1.value.paymentId == find(paymentId).value.id
      && r.0.intents[paymentId].status == Completed(payerId, now)
      && userId in r.0.users && Usage.StoredPlan(r.0.users[userId]) == Ok(JStr(ledger.intents[paymentId].planId))
  {
  }

  /**
   An intent changes state at most once: after a verification that moved
   it, verifying it again is refused as already processed and changes
   nothing.
   */
  lemma IntentSettlesOnce(ledger: Ledger, paymentId: string, payerId: string, userId: string, now: Json, nextBilling: Json,
                          find: string -> Call<PaypalPayment>, execute: (string, string) -> Call<Execution>,
                          payerId2: string, now2: Json, find2: string -> Call<PaypalPayment>,
                          execute2: (string, string) -> Call<Execution>)
    requires VerifyPayment(ledger, paymentId, payerId, userId, now, nextBilling, find, execute).0.intents != ledger.intents
    ensures var after := VerifyPayment(ledger, paymentId, payerId, userId, now, nextBilling, find, execute).0;
      !after.intents[paymentId].status.Pending?
      && VerifyPayment(after, paymentId, payerId2, userId, now2, nextBilling, find2, execute2) == (after, Raise(AlreadyProcessed))
  {
    var after := VerifyPayment(ledger, paymentId, payerId, userId, now, nextBilling, find, execute).0;
    assert after.intents[paymentId] != ledger.intents[paymentId];
  }

  /**
   The payment created for a paid plan passes the detail check against its
   stored intent whenever PayPal's payment repeats the order's amount,
   currency and custom field.
   */
  lemma CreatedOrderVerifies(ledger: Ledger, planId: string, userId: string, pricingUrl: string,
                             now: Json, nextBilling: Json, create: Order -> Call<Creation>, found: PaypalPayment)
    requires planId in Settings.SubscriptionPlans && planId != "free"
    requires var order := PlanOrder(Settings.SubscriptionPlans[planId], planId, userId, pricingUrl);
      create(order).Returned? && create(order).value.Created?
    requires |found.transactions| > 0
    requires var order := PlanOrder(Settings.SubscriptionPlans[planId], planId, userId, pricingUrl);
      found.transactions[0] == Transaction(Some(JStr(order.total)), Some(JStr(order.currency)), Some(JStr(order.custom)))
    ensures var order := PlanOrder(Settings.SubscriptionPlans[planId], planId, userId, pricingUrl);
      var r := CreatePayment(ledger, planId, userId, pricingUrl, now, nextBilling, create);
      var id := create(order).value.id;
      id in r.0.intents && r.0.intents[id].status == Pending && VerifyPaymentDetails(found, r.0.intents[id])
  {
  }

  /** `get_plan_details`: the table entry of a known plan; an unknown plan raises. */
  function GetPlanDetails(planId: string): (r: Res<Settings.PlanInfo>)
    ensures r.Ok? <==> planId in Settings.SubscriptionPlans
    ensures r.Ok? ==> r.value == Settings.SubscriptionPlans[planId]
    ensures r.Raise? ==> r.reason == "ValueError: Invalid plan ID: " + planId
  {
    if planId in Settings.SubscriptionPlans then Ok(Settings.SubscriptionPlans[planId])
    else Raise("ValueError: Invalid plan ID: " + planId)
  }

  /** Creation and plan lookup refuse the same plan ids with the same error. */
  lemma UnknownPlanRefusedAlike(ledger: Ledger, planId: string, userId: string, pricingUrl: string,
                                now: Json, nextBilling: Json, create: Order -> Call<Creation>)
    requires GetPlanDetails(planId).Raise?
    ensures CreatePayment(ledger, planId, userId, pricingUrl, now, nextBilling, create) == (ledger, Raise(GetPlanDetails(planId).reason))
  {
  }
}
