/**
 Summary generation (utils.py `generate_summary`): the plan decides the
 token budget and how much of the transcript the prompt carries; the
 language model itself is an oracle.
 */
module Summaries {
  import opened Values
  import opened Text
  import Settings

  /** How many transcript characters a free-plan prompt carries. */
  const FreeExcerpt: nat := 3000

  /** The completion budget: 200 tokens for "free", 800 for "pro", 1200 for any other plan value. */
  function TokenBudget(plan: Json): (n: nat)
    ensures plan == JStr("free") ==> n == 200
    ensures plan == JStr("pro") ==> n == 800
    ensures plan != JStr("free") && plan != JStr("pro") ==> n == 1200
  {
    if plan == JStr("free") then 200 else if plan == JStr("pro") then 800 else 1200
  }

  /**
   What the prompt is built from. `detailed` tells the comprehensive
   prompt (paid plans) from the brief one; the prompt wording is not modelled.
   */
  datatype SummaryRequest = SummaryRequest(detailed: bool, title: Json, channel: Json, transcript: Json, maxTokens: nat)

  /** The request `generate_summary` sends for a plan. */
  function Request(transcript: Json, plan: Json, title: Json, channel: Json): (r: Res<SummaryRequest>)
    ensures r.Ok? ==> r.value.maxTokens == TokenBudget(plan) && r.value.title == title && r.value.channel == channel
    ensures r.Ok? ==> (r.value.detailed <==> plan != JStr("free"))
    ensures plan != JStr("free") ==> r.Ok? && r.value.transcript == transcript
    ensures plan == JStr("free") ==> (r.Ok? <==> transcript.JStr? || transcript.JArr?)
    ensures plan == JStr("free") && transcript.JStr? ==>
      r.value.transcript.JStr? && |r.value.transcript.s| <= FreeExcerpt && |r.value.transcript.s| <= |transcript.s|
      && r.value.transcript.s == transcript.s[..|r.value.transcript.s|]
      && (|transcript.s| <= FreeExcerpt ==> r.value.transcript == transcript)
  {
    if plan == JStr("free") then
      var excerpt :- Prefix(transcript, FreeExcerpt);
      Ok(SummaryRequest(false, title, channel, excerpt, TokenBudget(plan)))
    else Ok(SummaryRequest(true, title, channel, transcript, TokenBudget(plan)))
  }

  /**
   `generate_summary`: ask the model and strip its reply. `llm` is the chat
   completion call, raising or answering with the reply text. The length of
   the transcript is taken for the log line after the reply, so a value with
   no length raises even when the model answered.
   */
  function GenerateSummary(transcript: Json, plan: Json, title: Json, channel: Json,
                           llm: SummaryRequest -> Res<string>): (r: Res<string>)
    ensures r.Ok? ==> (Request(transcript, plan, title, channel).Ok?
      && llm(Request(transcript, plan, title, channel).value).Ok?
      && Len(transcript).Ok?)
    ensures r.Ok? ==> r.value == Strip(llm(Request(transcript, plan, title, channel).value).value)
    ensures transcript.JStr? && llm(Request(transcript, plan, title, channel).value).Ok? ==> r.Ok?
  {
    var request :- Request(transcript, plan, title, channel);
    var reply :- llm(request);
    var _ :- Len(transcript);
    Ok(Strip(reply))
  }

  /** Budgets grow strictly with the plan tier of the plan table. */
  lemma BudgetFollowsTiers()
    ensures forall i, j :: 0 <= i < j < |Settings.Tiers| ==>
      TokenBudget(JStr(Settings.Tiers[i])) < TokenBudget(JStr(Settings.Tiers[j]))
    ensures TokenBudget(JStr("free")) == 200 && TokenBudget(JStr("pro")) == 800 && TokenBudget(JStr("elite")) == 1200
  {
  }

  /**
   On the free plan only the first 3000 characters reach the model: two
   transcripts that agree there get the same summary.
   */
  lemma FreeSummarySeesOnlyExcerpt(t1: string, t2: string, title: Json, channel: Json, llm: SummaryRequest -> Res<string>)
    requires Take(t1, FreeExcerpt) == Take(t2, FreeExcerpt)
    ensures GenerateSummary(JStr(t1), JStr("free"), title, channel, llm)
         == GenerateSummary(JStr(t2), JStr("free"), title, channel, llm)
  {
  }
}
