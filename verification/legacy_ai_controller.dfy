/** The older advice endpoint kept in frontend/aiController.ts. It reads the same
    one-month window and builds the same summary as the backend's
    `analyzeFinances`, but it has no key check, answers in Russian only, and
    tells a spent quota (402) apart from every other failure (500). The chat
    completion service is outside the program: its answer is a parameter. */
module LegacyAiController {
  import opened Common
  import opened Records
  import Calendar
  import AiController

  /** What the chat completion call gives back: the first choice's content, if
      any, or an error with an optional code. */
  datatype CompletionReply = Completion(content: Option<string>) | ApiError(code: Option<string>)

  /** The error of a failed completion call: 402 for a spent quota, 500 otherwise. */
  function FailureOf(code: Option<string>): (e: Error)
    ensures e == QuotaExceeded <==> code == Some("insufficient_quota")
    ensures e != QuotaExceeded ==> e == ServerError
  {
    if code == Some("insufficient_quota") then QuotaExceeded else ServerError
  }

  /** `completion.choices[0]?.message?.content || fallback`. */
  function AdviceOf(content: Option<string>): (m: AiController.Message)
    ensures m == AiController.NoAdvice <==> !TruthyString(content)
    ensures TruthyString(content) ==> m == AiController.ModelText(content.value)
  {
    if TruthyString(content) then AiController.ModelText(content.value) else AiController.NoAdvice
  }

  /** POST /analyze of the older controller. */
  function AnalyzeFinances(store: seq<Transaction>, caller: Id, since: Calendar.CalendarDate,
                           reply: CompletionReply): (r: Result<AiController.Analysis>)
    ensures r.Err? ==> reply.ApiError? && |AiController.Recent(store, caller, since)| > 0
    ensures r.Err? ==> reply.ApiError? && (r.error == QuotaExceeded <==> reply.code == Some("insufficient_quota"))
    ensures r.Err? ==> r.error == QuotaExceeded || r.error == ServerError
    ensures r.Ok? ==> (r.value.summary.None? <==> |AiController.Recent(store, caller, since)| == 0)
    ensures r.Ok? && r.value.summary.None? ==> r.value.advice == AiController.NotEnoughData(AiController.Ru)
    ensures r.Ok? && r.value.summary.Some? ==>
              var txs := AiController.Recent(store, caller, since);
              r.value.summary.value == AiController.Summarize(txs)
              && reply.Completion? && (r.value.advice == AiController.NoAdvice <==> !TruthyString(reply.content))
              && (TruthyString(reply.content) ==> r.value.advice == AiController.ModelText(reply.content.value))
  {
    var txs := AiController.Recent(store, caller, since);
    if |txs| == 0 then Ok(AiController.Analysis(AiController.NotEnoughData(AiController.Ru), None))
    else match reply
      case ApiError(code) => Err(FailureOf(code))
      case Completion(content) => Ok(AiController.Analysis(AdviceOf(content), Some(AiController.Summarize(txs))))
  }

  /** When both endpoints get an answer from their model, they report the same
      summary, and with no data the older one says what the newer one says in
      Russian. */
  lemma AgreesWithBackend(store: seq<Transaction>, caller: Id, since: Calendar.CalendarDate, key: string, text: string)
    requires AiController.KeyConfigured(Some(key)) && text != ""
    ensures var legacy := AnalyzeFinances(store, caller, since, Completion(Some(text)));
            var current := AiController.AnalyzeFinances(store, caller, Some(key), Some("ru"), since, AiController.Replied(text));
            legacy == current
  {
  }
}
